/** The whole system: any number of clients, each on a connection of its own, and the server with its
    message table. Each connection is a lossless link (module Links) between the server's `Connection` and a
    client that called `startConnection`; signals from connections and requests to them wait in queues, as Qt
    queues them between threads. Everything interleaves arbitrarily. */
module Delivery {
  import opened MessageTable
  import opened Protocol
  import opened ServerLogic
  import opened ServerEffects
  import opened Endpoints
  import L = Links
  import Tracking

  /** One connection: `link.a` is the server's end and `link.b` the client's. `inbox` holds signals the server
      has not yet handled and `served` counts the received packets it has; `hosted` are the users ever signed
      in here and `dropped` the ids given up after five retries. Once the connection has ended the server reads
      nothing more from it, and the client at most the `readable` packets then in flight. */
  datatype Peer = Peer(link: L.Link<Body>, inbox: seq<Signal<Body>>, served: nat, hosted: set<string>,
                       dropped: set<string>, connected: bool, notified: bool, alive: bool, readable: nat)

  /** The connection a message was sent on, and its place among the messages sent there. */
  datatype Origin = Origin(c: Conn, index: nat)

  /** A read receipt served: the message it names, the user signed in where it came from, and whether such a
      message was stored by then. */
  datatype Receipt = Receipt(id: string, user: string, known: bool)

  /** `origin` records every message sent by a client, `receipts` every read receipt served. */
  datatype System = System(server: ServerState, peers: map<Conn, Peer>, origin: map<string, Origin>,
                           receipts: set<Receipt>, clock: int)

  predicate IsMessage(body: Body) { body.SendPrivate? || body.SendPublic? }

  function NewPeer(): Peer { Peer(L.Fresh(), [], 0, {}, {}, true, false, true, 0) }

  /** `Restart` stops the server and starts it again on its database. */
  datatype Action =
    | Restart
    | Connect(c: Conn)
    | ClientSends(c: Conn, id: string, body: Body, nowMs: int)
    | ClientSendsPlain(c: Conn, packet: Protocol.Packet<Body>)
    | ClientPolls(c: Conn, order: seq<string>, nowMs: int)
    | ClientReceives(c: Conn)
    | ServerPings(c: Conn)
    | ServerPolls(c: Conn, order: seq<string>, nowMs: int)
    | ServerReceives(c: Conn)
    | Disconnect(c: Conn)
    | Flush(c: Conn, nowMs: int)
    | Handle(c: Conn, env: Env)

  // ---- What each action does to its own link ----

  function FlushAction(item: Item, nowMs: int): L.Action<Body>
    requires !item.CloseAndNotify?
  {
    if item.Send? then L.SendPlain(Data(item.id, 0, item.body)) else L.SendTracked(item.id, item.body, nowMs)
  }

  /** `packet` carries a number exactly if it is a message. */
  predicate Plain(packet: Protocol.Packet<Body>) {
    packet.Ping? || (packet.Data? && packet.num == 0 && !IsMessage(packet.body))
  }

  ghost predicate Can(sys: System, act: Action) {
    if act.Restart? then true
    else if act.Connect? then act.c !in sys.peers
    else
      act.c in sys.peers &&
      var p := sys.peers[act.c];
      match act
      case Restart => false
      case Connect(_) => false
      case ClientSends(_, id, body, nowMs) =>
        // a new UUID for each message
        IsMessage(body) && id !in sys.origin && L.Can(L.Mirror(p.link), L.SendTracked(id, body, nowMs))
      case ClientSendsPlain(_, packet) => Plain(packet)
      case ClientPolls(_, order, nowMs) => L.Can(L.Mirror(p.link), L.Poll(order, nowMs))
      case ClientReceives(_) => (p.connected || p.readable > 0) && p.link.ab != []
      case ServerPings(_) => true
      case ServerPolls(_, order, nowMs) => L.Can(p.link, L.Poll(order, nowMs))
      case ServerReceives(_) => p.connected && p.link.ba != []
      case Disconnect(_) => true
      case Flush(c, nowMs) =>
        var q := Queue(sys.server.outbox, c);
        p.alive && q != [] && (q[0].CloseAndNotify? || L.Can(p.link, FlushAction(q[0], nowMs)))
      case Handle(_, env) => p.alive && p.inbox != [] && sys.clock <= env.nowMs
  }

  /** The end of a connection leaves what is in flight to the client. */
  function Ended(p: Peer): Peer {
    p.(connected := false, readable := if p.connected then |p.link.ab| else p.readable)
  }

  function Closing(p: Peer): Peer {
    Ended(p).(notified := true, inbox := p.inbox + if p.notified then [] else [Closed])
  }

  ghost function ByClient(p: Peer, act: L.Action<Body>): Peer
    requires L.Can(L.Mirror(p.link), act)
  {
    p.(link := L.Mirror(L.Do(L.Mirror(p.link), act)))
  }

  ghost function ByServer(p: Peer, act: L.Action<Body>): Peer
    requires L.Can(p.link, act)
  {
    p.(link := L.Do(p.link, act))
  }

  function EventOf(c: Conn, signal: Signal<Body>): Event {
    match signal
    case PacketReceived(p) => if p.Data? then Event.Packet(c, p.id, p.body) else Event.Packet(c, "", Unknown)
    case TrackedPacketAcknowledged(p) => if p.Data? then Event.Acknowledged(c, p.id, p.body)
      else Event.Acknowledged(c, "", Unknown)
    case Closed => ConnectionClosed(c)
  }

  function ReceiptOf(s: ServerState, e: Event, env: Env): set<Receipt> {
    if ServesReceipt(s, e, env) then {Receipt(e.id, UserOf(s.presence, e.c), e.id in s.messages)} else {}
  }

  /** The user now signed in on a connection, if any. */
  function HostedNow(s: ServerState, c: Conn): set<string> {
    if c in s.presence.users then {s.presence.users[c]} else {}
  }

  ghost function Do(sys: System, act: Action): System
    requires Can(sys, act)
  {
    if act.Restart? then
      sys.(peers := map c | c in sys.peers :: Ended(sys.peers[c]).(alive := false),
           server := sys.server.(presence := Presence(map[], map[]), outbox := map[]))
    else if act.Connect? then
      // a new Connection has nothing queued
      sys.(peers := sys.peers[act.c := NewPeer()], server := sys.server.(outbox := sys.server.outbox[act.c := []]))
    else
      var c := act.c;
      var p := sys.peers[c];
      match act
      case ClientSends(_, id, body, nowMs) =>
        sys.(peers := sys.peers[c := ByClient(p, L.SendTracked(id, body, nowMs))],
             origin := sys.origin[id := Origin(c, |p.link.sentB|)])
      case ClientSendsPlain(_, packet) => sys.(peers := sys.peers[c := ByClient(p, L.SendPlain(packet))])
      case ClientPolls(_, order, nowMs) => sys.(peers := sys.peers[c := ByClient(p, L.Poll(order, nowMs))])
      case ClientReceives(_) =>
        sys.(peers := sys.peers[c := ByClient(p, L.Deliver).(readable := if p.readable > 0 then p.readable - 1 else 0)])
      case ServerPings(_) => sys.(peers := sys.peers[c := ByServer(p, L.SendPlain(Ping))])
      case ServerPolls(_, order, nowMs) =>
        var q := ByServer(p, L.Poll(order, nowMs));
        sys.(peers := sys.peers[c := q.(dropped := p.dropped + Tracking.Dropped(p.link.a.tracked, nowMs))])
      case ServerReceives(_) =>
        var q := ByServer(p, L.Deliver);
        sys.(peers := sys.peers[c := q.(inbox := p.inbox + SignalsOf(Receive(p.link.a, p.link.ba[0])))])
      case Disconnect(_) => sys.(peers := sys.peers[c := Closing(p)])
      case Flush(_, nowMs) =>
        var items := Queue(sys.server.outbox, c);
        sys.(peers :=
          sys.peers[c := if items[0].CloseAndNotify? then Closing(p) else ByServer(p, FlushAction(items[0], nowMs))],
             server := sys.server.(outbox := sys.server.outbox[c := items[1..]]))
      case Handle(_, env) =>
        var e := EventOf(c, p.inbox[0]);
        var after := Serve(sys.server, e, env);
        var q := p.(inbox := p.inbox[1..], served := p.served + if p.inbox[0].PacketReceived? then 1 else 0,
                    hosted := p.hosted + HostedNow(after, c));
        System(after, sys.peers[c := q], sys.origin, sys.receipts + ReceiptOf(sys.server, e, env), env.nowMs)
  }

  // ---- The invariant ----

  function ReceivedIn(inbox: seq<Signal<Body>>): seq<Protocol.Packet<Body>> {
    if inbox == [] then []
    else (if inbox[0].PacketReceived? then [inbox[0].packet] else []) + ReceivedIn(inbox[1..])
  }

  predicate PlainOnly(ps: seq<Protocol.Packet<Body>>) {
    forall i :: 0 <= i < |ps| && ps[i].Data? && Seq(ps[i]) == 0 ==> !IsMessage(ps[i].body)
  }

  /** A reliable send is of a stored message, a private one at a connection that has hosted its recipient. */
  predicate SendGood(s: ServerState, hosted: set<string>, id: string, body: Body) {
    || (id in s.messages && body == PrivateBody(s.messages[id]) && s.messages[id].recipient in hosted)
    || (id in s.broadcasts
      && body == Public(s.broadcasts[id].sender, s.broadcasts[id].text, s.broadcasts[id].createdAt))
  }

  predicate QueueGood(s: ServerState, hosted: set<string>, items: seq<Item>) {
    forall i :: 0 <= i < |items| && items[i].SendReliably? ==> SendGood(s, hosted, items[i].id, items[i].body)
  }

  predicate SentGood(s: ServerState, hosted: set<string>, sent: seq<Protocol.Packet<Body>>) {
    forall i :: 0 <= i < |sent| && sent[i].Data? ==> SendGood(s, hosted, sent[i].id, sent[i].body)
  }

  predicate OriginsRecorded(c: Conn, sent: seq<Protocol.Packet<Body>>, origin: map<string, Origin>) {
    forall i :: 0 <= i < |sent| && sent[i].Data? ==>
      sent[i].id in origin && origin[sent[i].id] == Origin(c, i) && IsMessage(sent[i].body)
  }

  predicate InboxGood(p: Peer) {
    && p.served <= |p.link.gotA| && ReceivedIn(p.inbox) == p.link.gotA[p.served..]
    && (forall i :: 0 <= i < |p.inbox| && p.inbox[i].TrackedPacketAcknowledged? ==>
      p.inbox[i].packet in p.link.confirmedA)
    && PlainOnly(p.link.ba) && PlainOnly(p.link.gotA)
  }

  ghost predicate PeerGood(sys: System, c: Conn)
    requires c in sys.peers
  {
    var p := sys.peers[c];
    && L.Sound(p.link)
    && OriginsRecorded(c, p.link.sentB, sys.origin)
    && InboxGood(p)
    && QueueGood(sys.server, p.hosted, Queue(sys.server.outbox, c))
    && SentGood(sys.server, p.hosted, p.link.sentA)
    && HostedNow(sys.server, c) <= p.hosted
  }

  /** How many numbered packets the server has handled. */
  function Handled(p: Peer): nat
    requires p.served <= |p.link.gotA|
  {
    |Numbered(p.link.gotA[..p.served])|
  }

  /** The message with this id was sent on a connection, and handled. */
  predicate SentAs(peers: map<Conn, Peer>, origin: map<string, Origin>, id: string, body: Body, sender: string) {
    && id in origin && origin[id].c in peers
    && var p := peers[origin[id].c];
    && p.served <= |p.link.gotA|
    && origin[id].index < Handled(p) && origin[id].index < |p.link.sentB|
    && p.link.sentB[origin[id].index] == Data(id, origin[id].index + 1, body)
    && sender in p.hosted && sender != "" && id != ""
  }

  predicate RowAuthentic(peers: map<Conn, Peer>, origin: map<string, Origin>, id: string, r: Row) {
    SentAs(peers, origin, id, SendPrivate(r.recipient, r.text), r.sender) && r.recipient != ""
  }

  predicate StoredGood(sys: System) {
    && (forall id | id in sys.server.messages :: RowAuthentic(sys.peers, sys.origin, id, sys.server.messages[id]))
    && (forall id | id in sys.server.broadcasts ::
          SentAs(sys.peers, sys.origin, id, SendPublic(sys.server.broadcasts[id].text),
            sys.server.broadcasts[id].sender))
  }

  /** The client on this connection has dispatched the private packet of the row, and the recipient has been
      signed in there. */
  predicate DispatchedOn(p: Peer, id: string, r: Row) {
    && r.recipient in p.hosted
    && exists k :: 0 <= k < p.link.b.lastIn && k < |p.link.sentA| && p.link.sentA[k] == Data(id, k + 1, PrivateBody(r))
  }

  predicate Dispatched(peers: map<Conn, Peer>, id: string, r: Row) {
    exists c :: c in peers && DispatchedOn(peers[c], id, r)
  }

  /** A receipt for a message then stored has been served. */
  ghost predicate ReceiptFor(receipts: set<Receipt>, id: string) {
    exists u :: Receipt(id, u, true) in receipts
  }

  predicate DeliveredTruly(sys: System, id: string) {
    IsDelivered(sys.server, id) ==> IsRead(sys.server, id) || Dispatched(sys.peers, id, sys.server.messages[id])
  }

  ghost predicate DeliveredGood(sys: System) {
    && (forall id | id in sys.server.messages :: DeliveredTruly(sys, id))
    && (forall id :: IsRead(sys.server, id) <==> ReceiptFor(sys.receipts, id))
  }

  predicate AckWaits(inbox: seq<Signal<Body>>, id: string) {
    exists i :: 0 <= i < |inbox| && inbox[i].TrackedPacketAcknowledged? && inbox[i].packet.Data?
      && inbox[i].packet.id == id
  }

  /** Where a message that waits for its online recipient is: queued for the connection, tracked by it,
      acknowledged but not yet marked, or given up after five retries. */
  predicate InCustody(s: ServerState, p: Peer, c: Conn, id: string) {
    || HasReliable(Queue(s.outbox, c), id)
    || id in p.link.a.tracked
    || AckWaits(p.inbox, id)
    || id in p.dropped
  }

  /** The user is online, on a connection that holds the message. */
  predicate HeldFor(sys: System, u: string, id: string) {
    && u in sys.server.presence.online
    && var c := sys.server.presence.online[u];
    && c in sys.peers && InCustody(sys.server, sys.peers[c], c, id)
  }

  ghost predicate CustodyGood(sys: System) {
    forall u, id | Awaits(sys.server, u, id) :: HeldFor(sys, u, id)
  }

  predicate OriginsGood(sys: System) {
    forall id | id in sys.origin ::
      && sys.origin[id].c in sys.peers
      && var sent := sys.peers[sys.origin[id].c].link.sentB;
      && sys.origin[id].index < |sent| && sent[sys.origin[id].index].Data? && sent[sys.origin[id].index].id == id
  }

  ghost predicate Inv(sys: System) {
    && (forall c | c in sys.peers :: PeerGood(sys, c))
    && GoodState(sys.server, sys.clock) && AllInOrder(sys.server.messages, sys.clock)
    && sys.server.presence.users.Keys <= sys.peers.Keys
    && OriginsGood(sys) && StoredGood(sys) && DeliveredGood(sys) && CustodyGood(sys)
  }

  // ---- When one connection moves on ----

  ghost predicate Grows(p: Peer, q: Peer) {
    && p.link.sentA <= q.link.sentA && p.link.sentB <= q.link.sentB
    && p.link.b.lastIn <= q.link.b.lastIn
    && p.hosted <= q.hosted
    && p.served <= |p.link.gotA| && q.served <= |q.link.gotA| && Handled(p) <= Handled(q)
  }

  /** Nothing recorded about any connection is undone. */
  ghost predicate AllGrow(sys: System, next: System) {
    && (forall c | c in sys.peers :: c in next.peers && Grows(sys.peers[c], next.peers[c]))
    && (forall id | id in sys.origin :: id in next.origin && next.origin[id] == sys.origin[id])
    && sys.receipts <= next.receipts
  }

  lemma {:induction false} SentAsStays(sys: System, next: System, id: string, body: Body, sender: string)
    requires AllGrow(sys, next) && SentAs(sys.peers, sys.origin, id, body, sender)
    ensures SentAs(next.peers, next.origin, id, body, sender)
  {
    hide Handled;
    var c := sys.origin[id].c;
    assert Grows(sys.peers[c], next.peers[c]);
  }

  lemma {:induction false} DispatchedStays(sys: System, next: System, id: string, r: Row)
    requires AllGrow(sys, next) && Dispatched(sys.peers, id, r)
    ensures Dispatched(next.peers, id, r)
  {
    hide Handled;
    var c :| c in sys.peers && DispatchedOn(sys.peers[c], id, r);
    var p, q := sys.peers[c], next.peers[c];
    assert Grows(p, q);
    var k :| 0 <= k < p.link.b.lastIn && k < |p.link.sentA| && p.link.sentA[k] == Data(id, k + 1, PrivateBody(r));
    assert q.link.sentA[k] == p.link.sentA[k];
    assert DispatchedOn(q, id, r);
  }

  predicate SameTables(s: ServerState, t: ServerState) {
    s.messages == t.messages && s.broadcasts == t.broadcasts && s.presence == t.presence && s.accounts == t.accounts
  }

  lemma {:induction false} GrowthKeepsRecords(sys: System, next: System)
    requires StoredGood(sys) && DeliveredGood(sys) && AllGrow(sys, next) && SameTables(sys.server, next.server)
      && next.receipts == sys.receipts
    ensures StoredGood(next) && DeliveredGood(next)
  {
    hide AllGrow, SentAs, Dispatched;
    forall id | id in sys.server.messages ensures RowAuthentic(next.peers, next.origin, id, next.server.messages[id]) {
      var r := sys.server.messages[id];
      SentAsStays(sys, next, id, SendPrivate(r.recipient, r.text), r.sender);
    }
    forall id | id in sys.server.broadcasts
      ensures SentAs(next.peers, next.origin, id, SendPublic(next.server.broadcasts[id].text),
        next.server.broadcasts[id].sender)
    {
      var b := sys.server.broadcasts[id];
      SentAsStays(sys, next, id, SendPublic(b.text), b.sender);
    }
    forall id | id in next.server.messages ensures DeliveredTruly(next, id) {
      assert DeliveredTruly(sys, id);
      if Dispatched(sys.peers, id, sys.server.messages[id]) {
        DispatchedStays(sys, next, id, sys.server.messages[id]);
      }
    }
  }

  /** One connection moves on, and the server at most empties its queue of requests to it. */
  ghost predicate Local(sys: System, next: System, c: Conn) {
    && c in sys.peers && next.peers.Keys == sys.peers.Keys
    && (forall d | d in sys.peers && d != c :: next.peers[d] == sys.peers[d])
    && Grows(sys.peers[c], next.peers[c])
    && SameTables(sys.server, next.server)
    && (forall d | d != c :: Queue(next.server.outbox, d) == Queue(sys.server.outbox, d))
    && (forall id | id in sys.origin :: id in next.origin && next.origin[id] == sys.origin[id])
    && next.receipts == sys.receipts && next.clock == sys.clock
  }

  lemma {:induction false} OtherStaysGood(sys: System, next: System, c: Conn, d: Conn)
    requires Local(sys, next, c) && d in sys.peers && d != c && PeerGood(sys, d)
    ensures PeerGood(next, d)
  {
    hide L.Sound, InboxGood, Grows;
  }

  lemma {:induction false} GrowsReflexive(p: Peer)
    requires p.served <= |p.link.gotA|
    ensures Grows(p, p)
  {
  }

  /** If one connection moves on and stays good, so does the system, provided messages stay in custody. */
  lemma {:induction false} LocalKeepsInv(sys: System, next: System, c: Conn)
    requires Inv(sys) && Local(sys, next, c) && PeerGood(next, c)
    requires OriginsGood(next)
    requires forall id :: InCustody(sys.server, sys.peers[c], c, id) ==> InCustody(next.server, next.peers[c], c, id)
    ensures Inv(next)
  {
    hide PeerGood, Grows, InCustody, StoredGood, DeliveredGood, OriginsGood;
    forall d | d in next.peers ensures PeerGood(next, d) {
      if d != c {
        OtherStaysGood(sys, next, c, d);
      }
    }
    forall d | d in sys.peers ensures Grows(sys.peers[d], next.peers[d]) {
      if d != c {
        ServedBound(sys, d);
        GrowsReflexive(sys.peers[d]);
      }
    }
    GrowthKeepsRecords(sys, next);
    forall u, id | Awaits(next.server, u, id)
      ensures HeldFor(next, u, id)
    {
      assert Awaits(sys.server, u, id);
      var d := sys.server.presence.online[u];
      if d != c {
        CustodyElsewhere(sys, next, c, d, id);
      }
    }
  }

  lemma {:induction false} ServedBound(sys: System, c: Conn)
    requires c in sys.peers && PeerGood(sys, c)
    ensures sys.peers[c].served <= |sys.peers[c].link.gotA|
  {
    hide L.Sound;
  }

  lemma {:induction false} CustodyElsewhere(sys: System, next: System, c: Conn, d: Conn, id: string)
    requires Local(sys, next, c) && d in sys.peers && d != c && InCustody(sys.server, sys.peers[d], d, id)
    ensures InCustody(next.server, next.peers[d], d, id)
  {
    hide Grows;
  }

  // ---- Actions of one connection's two ends ----

  lemma {:induction false} PlainOnlyConcat(a: seq<Protocol.Packet<Body>>, b: seq<Protocol.Packet<Body>>)
    requires PlainOnly(a) && PlainOnly(b)
    ensures PlainOnly(a + b)
  {
  }

  lemma {:induction false} ServedKept(p: Peer, q: Peer)
    requires p.served == q.served <= |p.link.gotA| && p.link.gotA <= q.link.gotA
    ensures Handled(p) == Handled(q)
  {
    assert p.link.gotA[..p.served] == q.link.gotA[..q.served];
  }

  /** The packets an action puts on the channel from the client. */
  lemma {:induction false} ClientPacketsArePlain(l: L.Link<Body>, act: L.Action<Body>)
    requires L.Sound(L.Mirror(l)) && L.Can(l, act) && PlainOnly(l.ab) && (act.SendPlain? ==> Plain(act.packet))
    ensures PlainOnly(L.Do(l, act).ab)
  {
    hide L.NoGaps, High, Numbered;
    match act {
      case SendTracked(_, _, _) =>
      case SendPlain(_) =>
      case Deliver => PlainOnlyConcat(l.ab, Receive(l.a, l.ba[0]).replies);
      case Poll(order, nowMs) =>
        var resent := Payloads(l.a.tracked, order);
        forall i | 0 <= i < |resent| ensures resent[i].Data? && Seq(resent[i]) > 0 {
          assert order[i] in order;
        }
        PlainOnlyConcat(l.ab, resent);
    }
  }

  lemma {:induction false} ClientActs(p: Peer, act: L.Action<Body>)
    requires L.Sound(p.link) && InboxGood(p) && L.Can(L.Mirror(p.link), act) && (act.SendPlain? ==> Plain(act.packet))
    ensures var q := ByClient(p, act);
      && L.Sound(q.link) && InboxGood(q) && Grows(p, q)
      && q.link.a == p.link.a && q.link.sentA == p.link.sentA
      && q.link.sentB == p.link.sentB + if act.SendTracked? then [Data(act.id, |p.link.sentB| + 1, act.body)] else []
  {
    hide PlainOnly, Handled, L.Sound;
    SoundMirrors(p.link);
    L.DoKeepsSound(L.Mirror(p.link), act);
    SoundMirrors(L.Do(L.Mirror(p.link), act));
    ClientPacketsArePlain(L.Mirror(p.link), act);
    ServedKept(p, ByClient(p, act));
  }

  lemma {:induction false} SoundMirrors(l: L.Link<Body>)
    requires L.Sound(l)
    ensures L.Sound(L.Mirror(l))
    ensures |l.sentA| == l.a.nextOut < TWO_31 && |l.sentB| == l.b.nextOut < TWO_31
  {
  }

  lemma {:induction false} ServerSends(p: Peer, act: L.Action<Body>)
    requires L.Sound(p.link) && InboxGood(p) && L.Can(p.link, act) && !act.Deliver?
    ensures var q := ByServer(p, act);
      && L.Sound(q.link) && InboxGood(q) && Grows(p, q) && q.link.sentB == p.link.sentB
      && q.link.sentA == p.link.sentA + if act.SendTracked? then [Data(act.id, |p.link.sentA| + 1, act.body)] else []
  {
    hide PlainOnly, Handled, L.Sound;
    SoundMirrors(p.link);
    L.DoKeepsSound(p.link, act);
    ServedKept(p, ByServer(p, act));
  }

  lemma {:induction false} ReceivedInUnfolds(inbox: seq<Signal<Body>>)
    ensures inbox == [] ==> ReceivedIn(inbox) == []
    ensures inbox != [] ==>
      ReceivedIn(inbox) == (if inbox[0].PacketReceived? then [inbox[0].packet] else []) + ReceivedIn(inbox[1..])
  {
  }

  lemma {:induction false} ReceivedInConcat(a: seq<Signal<Body>>, b: seq<Signal<Body>>)
    ensures ReceivedIn(a + b) == ReceivedIn(a) + ReceivedIn(b)
  {
    hide ReceivedIn;
    var ab := a + b;
    ReceivedInUnfolds(a);
    ReceivedInUnfolds(ab);
    if a == [] {
      assert ab == b;
    } else {
      assert ab[0] == a[0] && ab[1..] == a[1..] + b;
      ReceivedInConcat(a[1..], b);
    }
  }

  function AfterServerReceives(p: Peer, link: L.Link<Body>): Peer
    requires p.link.ba != []
  {
    p.(link := link, inbox := p.inbox + SignalsOf(Receive(p.link.a, p.link.ba[0])))
  }

  lemma {:induction false} SignalsHold(r: Reaction<Body>)
    requires |r.dispatched| + |r.acknowledged| <= 1
    ensures ReceivedIn(SignalsOf(r)) == r.dispatched
    ensures forall i :: 0 <= i < |SignalsOf(r)| && SignalsOf(r)[i].TrackedPacketAcknowledged? ==>
      SignalsOf(r)[i].packet in r.acknowledged
    ensures r.acknowledged != [] ==> SignalsOf(r) == [TrackedPacketAcknowledged(r.acknowledged[0])]
  {
    if r.dispatched != [] {
      assert SignalsOf(r) == [PacketReceived(r.dispatched[0])];
      assert SignalsOf(r)[1..] == [];
      assert ReceivedIn(SignalsOf(r)) == [r.dispatched[0]] + ReceivedIn([]);
    } else if r.acknowledged != [] {
      assert SignalsOf(r) == [TrackedPacketAcknowledged(r.acknowledged[0])];
      assert SignalsOf(r)[1..] == [];
    }
  }

  lemma {:induction false} ServerReceivesGood(p: Peer)
    requires L.Sound(p.link) && InboxGood(p) && p.link.ba != []
    ensures var q := AfterServerReceives(p, L.Do(p.link, L.Deliver));
      && L.Sound(q.link) && InboxGood(q) && Grows(p, q)
      && q.link.sentA == p.link.sentA && q.link.sentB == p.link.sentB
  {
    hide Handled, L.Sound, PlainOnly, SignalsOf, Receive;
    L.DoKeepsSound(p.link, L.Deliver);
    ReceivedOneThing(p.link.a, p.link.ba[0]);
    var r := Receive(p.link.a, p.link.ba[0]);
    var q := AfterServerReceives(p, L.Do(p.link, L.Deliver));
    ServedKept(p, q);
    SignalsHold(r);
    ReceivedInConcat(p.inbox, SignalsOf(r));
    assert p.link.gotA[p.served..] + r.dispatched == q.link.gotA[p.served..];
    forall i | 0 <= i < |q.inbox| && q.inbox[i].TrackedPacketAcknowledged?
      ensures q.inbox[i].packet in q.link.confirmedA
    {
      if i >= |p.inbox| {
        assert q.inbox[i] == SignalsOf(r)[i - |p.inbox|];
      }
    }
    PlainOnlyTail(p.link.ba, r.dispatched);
    PlainOnlyConcat(p.link.gotA, r.dispatched);
  }

  lemma {:induction false} ReceivedOneThing(e: Endpoint<Body>, packet: Protocol.Packet<Body>)
    ensures var r := Receive(e, packet);
      && |r.dispatched| + |r.acknowledged| <= 1
      && (r.dispatched == [] || r.dispatched == [packet])
  {
  }

  lemma {:induction false} PlainOnlyTail(ps: seq<Protocol.Packet<Body>>, first: seq<Protocol.Packet<Body>>)
    requires PlainOnly(ps) && ps != [] && (first == [] || first == [ps[0]])
    ensures PlainOnly(ps[1..]) && PlainOnly(first)
  {
  }

  lemma {:induction false} ClosingGood(p: Peer)
    requires InboxGood(p)
    ensures InboxGood(Closing(p)) && Grows(p, Closing(p))
  {
    GrowsReflexive(p);
    var more: seq<Signal<Body>> := if p.notified then [] else [Closed];
    ReceivedInConcat(p.inbox, more);
    assert more != [] ==> more[1..] == [];
    assert ReceivedIn(more) == [];
  }

  // ---- Each action keeps the invariant ----

  lemma {:induction false} PeerParts(sys: System, c: Conn)
    requires Inv(sys) && c in sys.peers
    ensures PeerGood(sys, c) && OriginsGood(sys)
  {
    hide PeerGood, OriginsGood, StoredGood, DeliveredGood, CustodyGood, GoodState;
  }

  lemma {:induction false} NewPeerGood(sys: System, c: Conn)
    requires c in sys.peers && sys.peers[c] == NewPeer() && c !in sys.server.presence.users
      && Queue(sys.server.outbox, c) == []
    ensures PeerGood(sys, c)
  {
    L.FreshIsSound<Body>();
    hide L.Sound;
  }

  lemma {:induction false} OldPeerGood(sys: System, next: System, c: Conn)
    requires c in sys.peers && PeerGood(sys, c)
    requires c in next.peers && next.peers[c] == sys.peers[c] && next.origin == sys.origin
      && SameTables(sys.server, next.server)
    requires Queue(next.server.outbox, c) == Queue(sys.server.outbox, c)
    ensures PeerGood(next, c)
  {
    hide L.Sound, InboxGood;
  }

  lemma {:induction false} ConnectKeepsCustody(sys: System, next: System, c: Conn)
    requires CustodyGood(sys) && OriginsGood(sys) && c !in sys.peers && next.peers == sys.peers[c := NewPeer()]
    requires next.server == sys.server.(outbox := sys.server.outbox[c := []]) && next.origin == sys.origin
    ensures CustodyGood(next) && OriginsGood(next)
  {
    forall u, id | Awaits(next.server, u, id)
      ensures HeldFor(next, u, id)
    {
      assert Awaits(sys.server, u, id);
    }
  }

  lemma {:induction false} ConnectKeepsInv(sys: System, act: Action)
    requires Inv(sys) && act.Connect? && Can(sys, act)
    ensures Inv(Do(sys, act))
  {
    hide PeerGood, Grows, StoredGood, DeliveredGood, CustodyGood, OriginsGood, GoodState, NewPeer;
    var next, c := Do(sys, act), act.c;
    NewPeerGood(next, c);
    forall d | d in sys.peers ensures PeerGood(next, d) && Grows(sys.peers[d], next.peers[d]) {
      OldPeerGood(sys, next, d);
      ServedBound(sys, d);
      GrowsReflexive(sys.peers[d]);
    }
    GrowthKeepsRecords(sys, next);
    ConnectKeepsCustody(sys, next, c);
    assert GoodState(next.server, next.clock) by {
      SessionsKept(sys.server, next.server, sys.clock);
    }
  }

  lemma {:induction false} StoppedPeerGood(sys: System, next: System, c: Conn)
    requires c in sys.peers && PeerGood(sys, c)
    requires c in next.peers && next.peers[c] == Ended(sys.peers[c]).(alive := false)
    requires next.origin == sys.origin
      && next.server == sys.server.(presence := Presence(map[], map[]), outbox := map[])
    ensures PeerGood(next, c) && Grows(sys.peers[c], next.peers[c])
  {
    hide L.Sound, PlainOnly;
    ServedBound(sys, c);
  }

  /** Stopping and restarting the server loses no record: the tables are on disk, and everyone has to sign in
      again. */
  lemma {:induction false} RestartKeepsInv(sys: System, act: Action)
    requires Inv(sys) && act.Restart?
    ensures Inv(Do(sys, act))
  {
    hide PeerGood, Grows, StoredGood, DeliveredGood, CustodyGood, OriginsGood, GoodState, AllInOrder;
    var next := Do(sys, act);
    forall c | c in sys.peers ensures PeerGood(next, c) && Grows(sys.peers[c], next.peers[c]) {
      StoppedPeerGood(sys, next, c);
    }
    RestartKeepsRecords(sys, next);
    RestartKeepsTheRest(sys, next);
  }

  lemma {:induction false} RestartKeepsTheRest(sys: System, next: System)
    requires OriginsGood(sys) && GoodState(sys.server, sys.clock)
    requires next.peers.Keys == sys.peers.Keys && forall c | c in sys.peers :: next.peers[c].link == sys.peers[c].link
    requires next.origin == sys.origin
      && next.server == sys.server.(presence := Presence(map[], map[]), outbox := map[])
    ensures OriginsGood(next) && CustodyGood(next) && GoodState(next.server, sys.clock)
  {
  }

  lemma {:induction false} SameRecords(sys: System, next: System)
    requires StoredGood(sys) && DeliveredGood(sys)
    requires next.server.messages == sys.server.messages && next.server.broadcasts == sys.server.broadcasts
    requires next.peers == sys.peers && next.origin == sys.origin && next.receipts == sys.receipts
    ensures StoredGood(next) && DeliveredGood(next)
  {
    hide SentAs, Dispatched, ReceiptFor;
    forall id | id in next.server.messages ensures DeliveredTruly(next, id) {
      assert DeliveredTruly(sys, id);
    }
  }

  lemma {:induction false} RestartKeepsRecords(sys: System, next: System)
    requires StoredGood(sys) && DeliveredGood(sys) && AllGrow(sys, next) && next.receipts == sys.receipts
    requires next.server == sys.server.(presence := Presence(map[], map[]), outbox := map[])
    ensures StoredGood(next) && DeliveredGood(next)
  {
    hide StoredGood, DeliveredGood, Grows;
    var same := next.(server := sys.server);
    assert AllGrow(sys, same);
    GrowthKeepsRecords(sys, same);
    SameRecords(same, next);
  }

  lemma {:induction false} SessionsKept(s: ServerState, t: ServerState, clock: int)
    requires GoodState(s, clock) && SameTables(s, t)
    ensures GoodState(t, clock)
  {
  }

  /** What must be shown of a connection that has moved on. */
  lemma {:induction false} MovedOnGood(sys: System, next: System, c: Conn)
    requires c in sys.peers && PeerGood(sys, c) && c in next.peers
    requires L.Sound(next.peers[c].link) && InboxGood(next.peers[c]) && next.peers[c].hosted == sys.peers[c].hosted
    requires SameTables(sys.server, next.server)
    requires OriginsRecorded(c, next.peers[c].link.sentB, next.origin)
    requires SentGood(sys.server, sys.peers[c].hosted, next.peers[c].link.sentA)
    requires Queue(next.server.outbox, c) == Queue(sys.server.outbox, c)
          || (Queue(sys.server.outbox, c) != [] && Queue(next.server.outbox, c) == Queue(sys.server.outbox, c)[1..])
    ensures PeerGood(next, c)
  {
    hide L.Sound, InboxGood;
  }

  lemma {:induction false} NothingNewSent(sys: System, c: Conn)
    requires c in sys.peers && PeerGood(sys, c)
    ensures OriginsRecorded(c, sys.peers[c].link.sentB, sys.origin)
    ensures SentGood(sys.server, sys.peers[c].hosted, sys.peers[c].link.sentA)
    ensures L.Sound(sys.peers[c].link) && InboxGood(sys.peers[c])
    ensures sys.peers[c].served <= |sys.peers[c].link.gotA|
  {
    hide L.Sound;
  }

  lemma {:induction false} OriginsStayGood(sys: System, next: System, c: Conn)
    requires OriginsGood(sys) && c in sys.peers && next.peers.Keys == sys.peers.Keys && next.origin == sys.origin
    requires forall d | d in sys.peers && d != c :: next.peers[d] == sys.peers[d]
    requires sys.peers[c].link.sentB <= next.peers[c].link.sentB
    ensures OriginsGood(next)
  {
  }

  lemma {:induction false} ClientKeepsInv(sys: System, next: System, c: Conn, act: L.Action<Body>)
    requires Inv(sys) && c in sys.peers && L.Can(L.Mirror(sys.peers[c].link), act)
      && (act.SendPlain? ==> Plain(act.packet))
    requires !act.SendTracked?
    requires c in next.peers && next == sys.(peers := sys.peers[c := next.peers[c]])
    requires next.peers[c] == ByClient(sys.peers[c], act).(readable := next.peers[c].readable)
    ensures Inv(next)
  {
    hide Inv, PeerGood, L.Sound, InboxGood, Grows, OriginsRecorded, SentGood, OriginsGood;
    PeerParts(sys, c);
    NothingNewSent(sys, c);
    ClientActs(sys.peers[c], act);
    FlagsDoNotMatter(sys.peers[c], ByClient(sys.peers[c], act), next.peers[c]);
    assert next.peers[c].link.sentB == sys.peers[c].link.sentB;
    MovedOnGood(sys, next, c);
    OriginsStayGood(sys, next, c);
    LocalKeepsInv(sys, next, c);
  }

  lemma {:induction false} RecordOrigin(
    c: Conn, sent: seq<Protocol.Packet<Body>>, origin: map<string, Origin>, id: string, body: Body)
    requires OriginsRecorded(c, sent, origin) && id !in origin && IsMessage(body)
    ensures OriginsRecorded(c, sent + [Data(id, |sent| + 1, body)], origin[id := Origin(c, |sent|)])
  {
  }

  lemma {:induction false} OriginsStayGoodAfterSend(sys: System, next: System, c: Conn, id: string, body: Body)
    requires OriginsGood(sys) && c in sys.peers && next.peers.Keys == sys.peers.Keys
    requires forall d | d in sys.peers && d != c :: next.peers[d] == sys.peers[d]
    requires var sent := sys.peers[c].link.sentB;
      && next.peers[c].link.sentB == sent + [Data(id, |sent| + 1, body)]
      && next.origin == sys.origin[id := Origin(c, |sent|)]
    ensures OriginsGood(next)
  {
  }

  lemma {:induction false} ClientSendsKeepsInv(sys: System, act: Action)
    requires Inv(sys) && act.ClientSends? && Can(sys, act)
    ensures Inv(Do(sys, act))
  {
    hide Inv, PeerGood, L.Sound, InboxGood, Grows, OriginsRecorded, SentGood, OriginsGood;
    var next, c := Do(sys, act), act.c;
    var p := sys.peers[c];
    PeerParts(sys, c);
    NothingNewSent(sys, c);
    ClientActs(p, L.SendTracked(act.id, act.body, act.nowMs));
    RecordOrigin(c, p.link.sentB, sys.origin, act.id, act.body);
    MovedOnGood(sys, next, c);
    OriginsStayGoodAfterSend(sys, next, c, act.id, act.body);
    LocalKeepsInv(sys, next, c);
  }

  lemma {:induction false} PollKeepsCustody(p: Peer, order: seq<string>, nowMs: int, id: string)
    requires L.Can(p.link, L.Poll(order, nowMs)) && id in p.link.a.tracked
    ensures id in L.Do(p.link, L.Poll(order, nowMs)).a.tracked || id in Tracking.Dropped(p.link.a.tracked, nowMs)
  {
  }

  lemma {:induction false} ServerPollsKeepsInv(sys: System, act: Action)
    requires Inv(sys) && act.ServerPolls? && Can(sys, act)
    ensures Inv(Do(sys, act))
  {
    hide Inv, PeerGood, L.Sound, Grows, Handled, OriginsRecorded, SentGood, OriginsGood, PlainOnly;
    var next, c := Do(sys, act), act.c;
    var p, q := sys.peers[c], next.peers[c];
    PeerParts(sys, c);
    NothingNewSent(sys, c);
    ServerSends(p, L.Poll(act.order, act.nowMs));
    FlagsDoNotMatter(p, ByServer(p, L.Poll(act.order, act.nowMs)), q);
    assert q.link.sentA == p.link.sentA;
    MovedOnGood(sys, next, c);
    OriginsStayGood(sys, next, c);
    forall id | InCustody(sys.server, p, c, id) ensures InCustody(next.server, q, c, id) {
      if id in p.link.a.tracked {
        PollKeepsCustody(p, act.order, act.nowMs, id);
      }
    }
    LocalKeepsInv(sys, next, c);
  }

  lemma {:induction false} FlagsDoNotMatter(p: Peer, q: Peer, r: Peer)
    requires InboxGood(q) && Grows(p, q) && r == q.(dropped := r.dropped, readable := r.readable)
    ensures InboxGood(r) && Grows(p, r)
  {
  }

  lemma {:induction false} ServerPingsKeepsInv(sys: System, act: Action)
    requires Inv(sys) && act.ServerPings? && Can(sys, act)
    ensures Inv(Do(sys, act))
  {
    hide Inv, PeerGood, L.Sound, Grows, Handled, OriginsRecorded, SentGood, OriginsGood, InboxGood;
    var next, c := Do(sys, act), act.c;
    PeerParts(sys, c);
    NothingNewSent(sys, c);
    ServerSends(sys.peers[c], L.SendPlain(Ping));
    assert next.peers[c].link.sentA == sys.peers[c].link.sentA;
    MovedOnGood(sys, next, c);
    OriginsStayGood(sys, next, c);
    LocalKeepsInv(sys, next, c);
  }

  lemma {:induction false} AckWaitsKept(inbox: seq<Signal<Body>>, more: seq<Signal<Body>>, id: string)
    requires AckWaits(inbox, id)
    ensures AckWaits(inbox + more, id)
  {
    var i :| 0 <= i < |inbox| && inbox[i].TrackedPacketAcknowledged? && inbox[i].packet.Data?
      && inbox[i].packet.id == id;
    assert (inbox + more)[i] == inbox[i];
  }

  /** An acknowledged packet leaves the tracking table for the inbox. */
  lemma {:induction false} ReceiveKeepsCustody(p: Peer, id: string)
    requires L.Sound(p.link) && p.link.ba != [] && id in p.link.a.tracked
    ensures var q := AfterServerReceives(p, L.Do(p.link, L.Deliver));
      id in q.link.a.tracked || AckWaits(q.inbox, id)
  {
    var r := Receive(p.link.a, p.link.ba[0]);
    var q := AfterServerReceives(p, L.Do(p.link, L.Deliver));
    if id !in q.link.a.tracked {
      hide L.NoGaps, High, Numbered, L.Genuine;
      var payload := p.link.a.tracked[id].payload;
      assert r.acknowledged == [payload] && r.dispatched == [];
      SignalsHold(r);
      assert payload.Data? && payload.id == id;
      assert q.inbox[|p.inbox|] == TrackedPacketAcknowledged(payload);
    }
  }

  lemma {:induction false} ServerReceivesKeepsInv(sys: System, act: Action)
    requires Inv(sys) && act.ServerReceives? && Can(sys, act)
    ensures Inv(Do(sys, act))
  {
    hide Inv, PeerGood, L.Sound, InboxGood, Grows, OriginsRecorded, SentGood, OriginsGood, SignalsOf, AckWaits;
    var next, c := Do(sys, act), act.c;
    var p, q := sys.peers[c], next.peers[c];
    PeerParts(sys, c);
    NothingNewSent(sys, c);
    ServerReceivesGood(p);
    assert q == AfterServerReceives(p, L.Do(p.link, L.Deliver));
    MovedOnGood(sys, next, c);
    OriginsStayGood(sys, next, c);
    forall id | InCustody(sys.server, p, c, id) ensures InCustody(next.server, q, c, id) {
      if id in p.link.a.tracked {
        ReceiveKeepsCustody(p, id);
      } else if AckWaits(p.inbox, id) {
        AckWaitsKept(p.inbox, SignalsOf(Receive(p.link.a, p.link.ba[0])), id);
      }
    }
    LocalKeepsInv(sys, next, c);
  }

  lemma {:induction false} ClosingKeepsInv(sys: System, next: System, c: Conn)
    requires Inv(sys) && c in sys.peers
    requires next.peers == sys.peers[c := Closing(sys.peers[c])] && SameTables(sys.server, next.server)
    requires next.origin == sys.origin && next.receipts == sys.receipts && next.clock == sys.clock
    requires forall d | d != c :: Queue(next.server.outbox, d) == Queue(sys.server.outbox, d)
    requires var items := Queue(sys.server.outbox, c);
      Queue(next.server.outbox, c) == items
        || (items != [] && items[0].CloseAndNotify? && Queue(next.server.outbox, c) == items[1..])
    ensures Inv(next)
  {
    hide Inv, PeerGood, L.Sound, InboxGood, Grows, OriginsRecorded, SentGood, OriginsGood, AckWaits, HasReliable;
    var p, q := sys.peers[c], next.peers[c];
    PeerParts(sys, c);
    NothingNewSent(sys, c);
    ClosingGood(p);
    MovedOnGood(sys, next, c);
    OriginsStayGood(sys, next, c);
    forall id | InCustody(sys.server, p, c, id) ensures InCustody(next.server, q, c, id) {
      if AckWaits(p.inbox, id) {
        AckWaitsKept(p.inbox, if p.notified then [] else [Closed], id);
      } else if HasReliable(Queue(sys.server.outbox, c), id) {
        HasReliableTail(Queue(sys.server.outbox, c), Queue(next.server.outbox, c), id);
      }
    }
    LocalKeepsInv(sys, next, c);
  }

  lemma {:induction false} HasReliableTail(items: seq<Item>, rest: seq<Item>, id: string)
    requires HasReliable(items, id)
    requires rest == items || (items != [] && rest == items[1..])
    ensures HasReliable(rest, id) || (items[0].SendReliably? && items[0].id == id)
  {
    var i :| 0 <= i < |items| && items[i].SendReliably? && items[i].id == id;
    if rest != items && i > 0 {
      assert rest[i - 1] == items[i];
    }
  }

  lemma {:induction false} FlushedIsGood(sys: System, c: Conn)
    requires c in sys.peers && PeerGood(sys, c) && Queue(sys.server.outbox, c) != []
    ensures var item := Queue(sys.server.outbox, c)[0];
      item.SendReliably? ==> SendGood(sys.server, sys.peers[c].hosted, item.id, item.body)
  {
    hide L.Sound, InboxGood;
  }

  lemma {:induction false} FlushKeepsCustody(s: ServerState, t: ServerState, p: Peer, c: Conn, nowMs: int, id: string)
    requires var items := Queue(s.outbox, c);
      && items != [] && !items[0].CloseAndNotify? && L.Can(p.link, FlushAction(items[0], nowMs))
      && Queue(t.outbox, c) == items[1..]
    requires InCustody(s, p, c, id)
    ensures InCustody(t, ByServer(p, FlushAction(Queue(s.outbox, c)[0], nowMs)), c, id)
  {
    hide HasReliable;
    var items := Queue(s.outbox, c);
    if HasReliable(items, id) {
      HasReliableTail(items, items[1..], id);
    }
  }

  lemma {:induction false} SentGoodAppend(
    s: ServerState, hosted: set<string>, sent: seq<Protocol.Packet<Body>>, p: Protocol.Packet<Body>)
    requires SentGood(s, hosted, sent) && p.Data? && SendGood(s, hosted, p.id, p.body)
    ensures SentGood(s, hosted, sent + [p])
  {
    hide SendGood;
  }

  lemma {:induction false} FlushSendKeepsInv(sys: System, next: System, c: Conn, nowMs: int)
    requires Can(sys, Flush(c, nowMs)) && next == Do(sys, Flush(c, nowMs))
    requires !Queue(sys.server.outbox, c)[0].CloseAndNotify?
    requires Inv(sys)
    ensures Inv(next)
  {
    hide Inv, PeerGood, L.Sound, L.Do, L.Can, InboxGood, Grows, OriginsRecorded, OriginsGood, SentGood, SendGood,
      InCustody;
    var items, p, q := Queue(sys.server.outbox, c), sys.peers[c], next.peers[c];
    PeerParts(sys, c);
    NothingNewSent(sys, c);
    FlushedIsGood(sys, c);
    ServerSends(p, FlushAction(items[0], nowMs));
    if items[0].SendReliably? {
      SentGoodAppend(sys.server, p.hosted, p.link.sentA, Data(items[0].id, |p.link.sentA| + 1, items[0].body));
    } else {
      assert q.link.sentA == p.link.sentA;
    }
    MovedOnGood(sys, next, c);
    OriginsStayGood(sys, next, c);
    forall id | InCustody(sys.server, p, c, id) ensures InCustody(next.server, q, c, id) {
      FlushKeepsCustody(sys.server, next.server, p, c, nowMs, id);
    }
    LocalKeepsInv(sys, next, c);
  }

  lemma {:induction false} FlushKeepsInv(sys: System, act: Action)
    requires Inv(sys) && act.Flush? && Can(sys, act)
    ensures Inv(Do(sys, act))
  {
    hide Inv;
    if Queue(sys.server.outbox, act.c)[0].CloseAndNotify? {
      ClosingKeepsInv(sys, Do(sys, act), act.c);
    } else {
      FlushSendKeepsInv(sys, Do(sys, act), act.c, act.nowMs);
    }
  }

  // ---- Handling a signal ----

  /** The state, event and connection of one handling step. */
  ghost predicate Handles(sys: System, next: System, c: Conn, e: Event, env: Env) {
    && Inv(sys) && Can(sys, Handle(c, env)) && next == Do(sys, Handle(c, env))
    && e == EventOf(c, sys.peers[c].inbox[0])
  }

  /** The next packet to handle is the next one received; a message is the next one the client sent. */
  lemma {:induction false} NextMessage(sys: System, c: Conn, packet: Protocol.Packet<Body>)
    requires c in sys.peers && PeerGood(sys, c)
    requires sys.peers[c].inbox != [] && sys.peers[c].inbox[0] == PacketReceived(packet)
    requires packet.Data? && IsMessage(packet.body)
    ensures var p := sys.peers[c];
      && Handled(p) < |p.link.sentB| && p.link.sentB[Handled(p)] == packet
      && packet.num == Handled(p) + 1 && packet.id != ""
      && packet.id in sys.origin && sys.origin[packet.id] == Origin(c, Handled(p))
  {
    var p := sys.peers[c];
    var got := p.link.gotA;
    assert got[p.served..][0] == packet;
    assert got[p.served] == packet && Seq(packet) > 0;
    NumberedAppend(got[..p.served], packet);
    assert got == got[..p.served] + [packet] + got[p.served + 1..];
    NumberedConcat(got[..p.served] + [packet], got[p.served + 1..]);
    HandledIsWithin(p, packet, Numbered(got[p.served + 1..]));
  }

  lemma {:induction false} HandledIsWithin(p: Peer, packet: Protocol.Packet<Body>, rest: seq<Protocol.Packet<Body>>)
    requires L.Sound(p.link) && p.served <= |p.link.gotA|
    requires Numbered(p.link.gotA) == Numbered(p.link.gotA[..p.served]) + [packet] + rest
    ensures Handled(p) < |p.link.sentB| && p.link.sentB[Handled(p)] == packet
    ensures packet.Data? && packet.num == Handled(p) + 1 && packet.id != ""
  {
    hide Numbered, L.NoGaps, High, L.Genuine;
    assert Numbered(p.link.gotA)[Handled(p)] == packet;
  }

  lemma {:induction false} HandledMessageIsFresh(sys: System, c: Conn)
    requires Inv(sys) && c in sys.peers && sys.peers[c].inbox != []
    ensures FreshMessage(sys.server, EventOf(c, sys.peers[c].inbox[0]))
  {
    var e := EventOf(c, sys.peers[c].inbox[0]);
    if e.Packet? && IsMessage(e.body) {
      hide PeerGood, Handled;
      NextMessage(sys, c, sys.peers[c].inbox[0].packet);
      hide Inv;
      NotStoredYet(sys, c, e.id);
    }
  }

  lemma {:induction false} NotStoredYet(sys: System, c: Conn, id: string)
    requires Inv(sys) && c in sys.peers && sys.peers[c].served <= |sys.peers[c].link.gotA|
    requires id in sys.origin && sys.origin[id] == Origin(c, Handled(sys.peers[c]))
    ensures id !in sys.server.messages && id !in sys.server.broadcasts
  {
    hide PeerGood, DeliveredGood, CustodyGood, OriginsGood, Handled, GoodState;
  }

  lemma {:induction false} RecipientsNamed(sys: System)
    requires StoredGood(sys)
    ensures forall id | id in sys.server.messages ::
      sys.server.messages[id].recipient != "" && sys.server.messages[id].sender != "" && id != ""
    ensures sys.server.messages.Keys !! sys.server.broadcasts.Keys
  {
    hide Handled;
  }

  // ---- Each connection stays good ----

  lemma {:induction false} SendStaysGood(
    s: ServerState, t: ServerState, hosted: set<string>, more: set<string>, id: string, body: Body)
    requires SendGood(s, hosted, id, body) && Extends(s, t) && hosted <= more
    ensures SendGood(t, more, id, body)
  {
  }

  lemma {:induction false} NewSendIsGood(t: ServerState, hosted: set<string>, c: Conn, id: string, body: Body)
    requires SendsStored(t, UserOf(t.presence, c), id, body) && HostedNow(t, c) <= hosted
    requires forall x | x in t.messages :: t.messages[x].recipient != ""
    ensures SendGood(t, hosted, id, body)
  {
  }

  lemma {:induction false} QueueStaysGood(
    s: ServerState, t: ServerState, hosted: set<string>, more: set<string>, c: Conn, added: seq<Item>)
    requires QueueGood(s, hosted, Queue(s.outbox, c)) && Extends(s, t) && hosted <= more && HostedNow(t, c) <= more
    requires SendsOnlyStored(s, t, c, added)
    requires forall x | x in t.messages :: t.messages[x].recipient != ""
    ensures QueueGood(t, more, Queue(t.outbox, c))
  {
    hide Extends, SendGood, SendsStored, HostedNow;
    var before, items := Queue(s.outbox, c), Queue(t.outbox, c);
    forall i | 0 <= i < |items| && items[i].SendReliably? ensures SendGood(t, more, items[i].id, items[i].body) {
      if i < |before| {
        SendStaysGood(s, t, hosted, more, items[i].id, items[i].body);
      } else {
        assert items[i] == added[i - |before|];
        NewSendIsGood(t, more, c, items[i].id, items[i].body);
      }
    }
  }

  lemma {:induction false} SentStaysGood(
    s: ServerState, t: ServerState, hosted: set<string>, more: set<string>, sent: seq<Protocol.Packet<Body>>)
    requires SentGood(s, hosted, sent) && Extends(s, t) && hosted <= more
    ensures SentGood(t, more, sent)
  {
    hide Extends, SendGood;
    forall i | 0 <= i < |sent| && sent[i].Data? ensures SendGood(t, more, sent[i].id, sent[i].body) {
      SendStaysGood(s, t, hosted, more, sent[i].id, sent[i].body);
    }
  }

  /** The handled connection itself. */
  function AfterHandling(p: Peer, t: ServerState, c: Conn): Peer
    requires p.inbox != []
  {
    p.(inbox := p.inbox[1..], served := p.served + if p.inbox[0].PacketReceived? then 1 else 0,
       hosted := p.hosted + HostedNow(t, c))
  }

  lemma {:induction false} HandlingGrows(p: Peer, t: ServerState, c: Conn)
    requires InboxGood(p) && p.inbox != []
    ensures InboxGood(AfterHandling(p, t, c)) && Grows(p, AfterHandling(p, t, c))
    ensures p.inbox[0].PacketReceived? && Seq(p.inbox[0].packet) > 0 ==>
      Handled(AfterHandling(p, t, c)) == Handled(p) + 1
  {
    hide PlainOnly;
    var q, got := AfterHandling(p, t, c), p.link.gotA;
    if p.inbox[0].PacketReceived? {
      assert got[p.served..][0] == p.inbox[0].packet;
      assert got[p.served..][1..] == got[q.served..];
      assert got[..q.served] == got[..p.served] + [p.inbox[0].packet];
      NumberedAppend(got[..p.served], p.inbox[0].packet);
    }
  }

  lemma {:induction false} HandlingKeepsPeer(sys: System, next: System, c: Conn, e: Event, env: Env, d: Conn)
    requires d in sys.peers && d in next.peers
    requires Handles(sys, next, c, e, env) && FreshMessage(sys.server, e) && StoredGood(next)
    ensures PeerGood(next, d)
  {
    hide StoredGood, DeliveredGood, CustodyGood, OriginsGood, L.Sound, InboxGood, Grows, QueueGood, SentGood,
      OriginsRecorded, Serve, Extends, SendsOnlyStored, FreshMessage, UserOf;
    var s, t, p, q := sys.server, next.server, sys.peers[d], next.peers[d];
    PeerParts(sys, d);
    RecipientsNamed(next);
    ServeExtends(s, e, env);
    var added := ServeSendsOnlyStored(s, e, env, d);
    if d == c {
      HandlingGrows(p, t, c);
    } else if d in t.presence.users {
      ServeKeepsOtherUsers(s, e, env, d);
    }
    QueueStaysGood(s, t, p.hosted, q.hosted, d, added);
    SentStaysGood(s, t, p.hosted, q.hosted, p.link.sentA);
  }

  lemma {:induction false} HandlingGrowsAll(sys: System, next: System, c: Conn, e: Event, env: Env)
    requires Handles(sys, next, c, e, env)
    ensures AllGrow(sys, next)
  {
    hide PeerGood, StoredGood, DeliveredGood, CustodyGood, OriginsGood, GoodState, Grows, Serve, InboxGood;
    forall d | d in sys.peers ensures Grows(sys.peers[d], next.peers[d]) {
      ServedBound(sys, d);
      GrowsReflexive(sys.peers[d]);
      if d == c {
        NothingNewSent(sys, c);
        HandlingGrows(sys.peers[c], next.server, c);
      }
    }
  }

  // ---- What is stored was sent ----

  /** The message just handled, as the sender's connection records it. */
  lemma {:induction false} HandledIsRecorded(sys: System, next: System, c: Conn, e: Event, env: Env)
    requires Handles(sys, next, c, e, env) && e.Packet? && IsMessage(e.body) && UserOf(sys.server.presence, c) != ""
    ensures SentAs(next.peers, next.origin, e.id, e.body, UserOf(sys.server.presence, c))
  {
    hide Inv, PeerGood, Handled, Serve, InboxGood, Grows, OriginsRecorded, SentGood, L.Sound, HostedNow;
    var p, q := sys.peers[c], next.peers[c];
    PeerParts(sys, c);
    NothingNewSent(sys, c);
    UserIsHosted(sys, c);
    NextMessage(sys, c, p.inbox[0].packet);
    NumberedMessage(sys, c);
    HandlingGrows(p, next.server, c);
    HandlingMovesOnlyInbox(p, next.server, c);
  }

  lemma {:induction false} UserIsHosted(sys: System, c: Conn)
    requires c in sys.peers && PeerGood(sys, c) && UserOf(sys.server.presence, c) != ""
    ensures UserOf(sys.server.presence, c) in sys.peers[c].hosted
  {
    hide L.Sound, InboxGood;
  }

  lemma {:induction false} HandlingMovesOnlyInbox(p: Peer, t: ServerState, c: Conn)
    requires InboxGood(p) && p.inbox != [] && Grows(p, AfterHandling(p, t, c))
    ensures var q := AfterHandling(p, t, c); q.link == p.link && p.hosted <= q.hosted && q.served <= |q.link.gotA|
  {
  }

  lemma {:induction false} NumberedMessage(sys: System, c: Conn)
    requires c in sys.peers && PeerGood(sys, c) && sys.peers[c].inbox != []
    requires sys.peers[c].inbox[0].PacketReceived? && sys.peers[c].inbox[0].packet.Data?
      && IsMessage(sys.peers[c].inbox[0].packet.body)
    ensures Seq(sys.peers[c].inbox[0].packet) > 0
  {
    hide L.Sound;
    var p := sys.peers[c];
    assert p.link.gotA[p.served..][0] == p.inbox[0].packet;
  }

  lemma {:induction false} HandlingKeepsRow(sys: System, next: System, c: Conn, e: Event, env: Env, id: string)
    requires id in next.server.messages
    requires Handles(sys, next, c, e, env) && FreshMessage(sys.server, e) && AllGrow(sys, next)
      && Extends(sys.server, next.server)
    ensures RowAuthentic(next.peers, next.origin, id, next.server.messages[id])
  {
    hide PeerGood, SentAs, GoodState, DeliveredGood, CustodyGood, OriginsGood, Serve, FreshMessage, AllGrow, EventOf;
    StoredByItsSender(sys.server, e, env, id);
    var r := next.server.messages[id];
    if id in sys.server.messages {
      SentAsStays(sys, next, id, SendPrivate(r.recipient, r.text), r.sender);
    } else {
      EventIsOf(sys, c);
      HandledIsRecorded(sys, next, c, e, env);
    }
  }

  lemma {:induction false} HandlingKeepsBroadcast(sys: System, next: System, c: Conn, e: Event, env: Env, id: string)
    requires id in next.server.broadcasts
    requires Handles(sys, next, c, e, env) && FreshMessage(sys.server, e) && AllGrow(sys, next)
      && Extends(sys.server, next.server)
    ensures SentAs(next.peers, next.origin, id, SendPublic(next.server.broadcasts[id].text),
      next.server.broadcasts[id].sender)
  {
    hide PeerGood, SentAs, GoodState, DeliveredGood, CustodyGood, OriginsGood, Serve, FreshMessage, AllGrow, EventOf;
    StoredByItsSender(sys.server, e, env, id);
    var b := next.server.broadcasts[id];
    if id in sys.server.broadcasts {
      SentAsStays(sys, next, id, SendPublic(b.text), b.sender);
    } else {
      EventIsOf(sys, c);
      HandledIsRecorded(sys, next, c, e, env);
    }
  }

  lemma {:induction false} HandlingServes(sys: System, next: System, c: Conn, e: Event, env: Env)
    requires Handles(sys, next, c, e, env)
    ensures next.server == Serve(sys.server, e, env)
  {
    hide Inv, Serve;
  }

  lemma {:induction false} HandlingKeepsStored(sys: System, next: System, c: Conn, e: Event, env: Env)
    requires Handles(sys, next, c, e, env) && FreshMessage(sys.server, e)
    ensures StoredGood(next)
  {
    hide Handles, Serve, FreshMessage, AllGrow, Extends, SentAs;
    HandlingServes(sys, next, c, e, env);
    HandlingGrowsAll(sys, next, c, e, env);
    ServeExtends(sys.server, e, env);
    forall id | id in next.server.messages ensures RowAuthentic(next.peers, next.origin, id, next.server.messages[id]) {
      HandlingKeepsRow(sys, next, c, e, env, id);
    }
    forall id | id in next.server.broadcasts
      ensures SentAs(next.peers, next.origin, id, SendPublic(next.server.broadcasts[id].text),
        next.server.broadcasts[id].sender)
    {
      HandlingKeepsBroadcast(sys, next, c, e, env, id);
    }
  }

  lemma {:induction false} EventIsOf(sys: System, c: Conn)
    requires c in sys.peers && sys.peers[c].inbox != []
    ensures EventOf(c, sys.peers[c].inbox[0]).c == c
  {
  }

  // ---- What is delivered was dispatched ----

  /** A confirmed packet with the id of a stored private message is that message, dispatched. */
  lemma {:induction false} ConfirmedIsDispatched(sys: System, c: Conn, packet: Protocol.Packet<Body>)
    requires c in sys.peers && PeerGood(sys, c) && StoredGood(sys) && packet in sys.peers[c].link.confirmedA
    requires packet.Data? && packet.id in sys.server.messages
    ensures packet.body == PrivateBody(sys.server.messages[packet.id])
    ensures DispatchedOn(sys.peers[c], packet.id, sys.server.messages[packet.id])
  {
    var p := sys.peers[c];
    var k := ConfirmedIndex(p.link, packet);
    hide L.Sound, Handled, InboxGood;
    RecipientsNamed(sys);
    assert SendGood(sys.server, p.hosted, p.link.sentA[k].id, p.link.sentA[k].body);
    assert SendGood(sys.server, p.hosted, packet.id, packet.body) by {
      assert p.link.sentA[packet.num - 1] == packet;
    }
  }

  lemma {:induction false} ConfirmedIndex(l: L.Link<Body>, packet: Protocol.Packet<Body>) returns (k: nat)
    requires L.Sound(l) && packet in l.confirmedA
    ensures packet.Data? && 1 <= packet.num <= |l.sentA| && l.sentA[packet.num - 1] == packet
    ensures k < l.b.lastIn && k < |l.sentA| && l.sentA[k].Data? && l.sentA[k].num == k + 1 && l.sentA[k].id == packet.id
  {
    assert L.WasSent(l.sentA, packet) && L.IdDispatched(l.sentA, l.b.lastIn, packet.id);
    k :| 0 <= k < l.b.lastIn && k < |l.sentA| && l.sentA[k].Data? && l.sentA[k].id == packet.id;
  }

  lemma {:induction false} SameRowDispatched(peers: map<Conn, Peer>, id: string, r: Row, r': Row)
    requires Dispatched(peers, id, r) && PrivateBody(r) == PrivateBody(r')
    ensures Dispatched(peers, id, r')
  {
    var c :| c in peers && DispatchedOn(peers[c], id, r);
    assert DispatchedOn(peers[c], id, r');
  }

  lemma {:induction false} AckedIsDispatched(sys: System, c: Conn)
    requires Inv(sys) && c in sys.peers && sys.peers[c].inbox != [] && sys.peers[c].inbox[0].TrackedPacketAcknowledged?
    ensures var packet := sys.peers[c].inbox[0].packet;
      packet.Data? && packet.id in sys.server.messages ==>
        && packet.body == PrivateBody(sys.server.messages[packet.id])
        && Dispatched(sys.peers, packet.id, sys.server.messages[packet.id])
  {
    hide DeliveredGood, CustodyGood, OriginsGood, GoodState, StoredGood, L.Sound, DispatchedOn;
    var packet := sys.peers[c].inbox[0].packet;
    if packet.Data? && packet.id in sys.server.messages {
      assert packet in sys.peers[c].link.confirmedA;
      ConfirmedIsDispatched(sys, c, packet);
    }
  }

  lemma {:induction false} ReceiptsAdd(a: set<Receipt>, b: set<Receipt>, id: string)
    ensures ReceiptFor(a + b, id) <==> ReceiptFor(a, id) || ReceiptFor(b, id)
  {
  }

  lemma {:induction false} ReceiptOfIs(s: ServerState, e: Event, env: Env, id: string)
    ensures ReceiptFor(ReceiptOf(s, e, env), id) <==> ServesReceipt(s, e, env) && e.id == id && id in s.messages
  {
    if ServesReceipt(s, e, env) {
      assert Receipt(e.id, UserOf(s.presence, e.c), e.id in s.messages) in ReceiptOf(s, e, env);
    }
  }

  /** Unless a receipt makes it so, a message is marked delivered only when its recipient's client has
      dispatched it. */
  lemma {:induction false} HandlingDelivers(sys: System, next: System, c: Conn, e: Event, env: Env, id: string)
    requires Handles(sys, next, c, e, env) && FreshMessage(sys.server, e) && IsDelivered(next.server, id)
    ensures IsDelivered(sys.server, id) || id in sys.server.messages
    ensures IsDelivered(sys.server, id) || (ServesReceipt(sys.server, e, env) && e.id == id)
         || Dispatched(sys.peers, id, sys.server.messages[id])
  {
    hide PeerGood, StoredGood, DeliveredGood, CustodyGood, OriginsGood, GoodState, Serve, FreshMessage, Dispatched,
      ServesReceipt;
    DeliveredExactlyBy(sys.server, e, env, id);
    if id in sys.server.messages && AcksPrivate(e, id) {
      AckedIsDispatched(sys, c);
    }
  }

  lemma {:induction false} HandlingKeepsTruth(sys: System, next: System, c: Conn, e: Event, env: Env, id: string)
    requires Handles(sys, next, c, e, env) && FreshMessage(sys.server, e) && id in next.server.messages
    requires AllGrow(sys, next) && Extends(sys.server, next.server)
    ensures DeliveredTruly(next, id)
  {
    HandlingDeliveredGood(sys, next, c, e, env);
    hide Handles, DeliveredGood, Serve, FreshMessage, AllGrow, Dispatched, ServesReceipt;
    HandlingServes(sys, next, c, e, env);
    var s, t := sys.server, next.server;
    if IsDelivered(t, id) {
      HandlingDelivers(sys, next, c, e, env, id);
      DeliveredExactlyBy(s, e, env, id);
      if !IsRead(t, id) {
        assert DeliveredTruly(sys, id);
        DispatchedStays(sys, next, id, s.messages[id]);
        SameRowDispatched(next.peers, id, s.messages[id], t.messages[id]);
      }
    }
  }

  lemma {:induction false} HandlingDeliveredGood(sys: System, next: System, c: Conn, e: Event, env: Env)
    requires Handles(sys, next, c, e, env)
    ensures forall id | id in sys.server.messages :: DeliveredTruly(sys, id)
    ensures forall id :: IsRead(sys.server, id) <==> ReceiptFor(sys.receipts, id)
    ensures next.receipts == sys.receipts + ReceiptOf(sys.server, e, env)
  {
    hide PeerGood, StoredGood, CustodyGood, OriginsGood, GoodState, Serve, Dispatched, ReceiptOf;
  }

  lemma {:induction false} HandlingKeepsDelivered(sys: System, next: System, c: Conn, e: Event, env: Env)
    requires Handles(sys, next, c, e, env) && FreshMessage(sys.server, e)
    ensures DeliveredGood(next)
  {
    hide Handles, Serve, FreshMessage, AllGrow, DeliveredTruly, Extends, ReceiptFor, ReceiptOf, ServesReceipt;
    HandlingServes(sys, next, c, e, env);
    HandlingGrowsAll(sys, next, c, e, env);
    HandlingDeliveredGood(sys, next, c, e, env);
    ServeExtends(sys.server, e, env);
    forall id | id in next.server.messages ensures DeliveredTruly(next, id) {
      HandlingKeepsTruth(sys, next, c, e, env, id);
    }
    forall id ensures IsRead(next.server, id) <==> ReceiptFor(next.receipts, id) {
      DeliveredExactlyBy(sys.server, e, env, id);
      ReceiptsAdd(sys.receipts, ReceiptOf(sys.server, e, env), id);
      ReceiptOfIs(sys.server, e, env, id);
    }
  }

  // ---- What waits is in custody ----

  /** Handling the ack of a stored message marks it delivered, so it no longer waits. */
  lemma {:induction false} AckEndsWaiting(sys: System, next: System, c: Conn, e: Event, env: Env, u: string, id: string)
    requires c in sys.peers && sys.peers[c].inbox != [] && sys.peers[c].inbox[0].TrackedPacketAcknowledged?
    requires sys.peers[c].inbox[0].packet.Data? && sys.peers[c].inbox[0].packet.id == id && id in sys.server.messages
    requires Handles(sys, next, c, e, env)
    ensures !Awaits(next.server, u, id)
  {
    hide PeerGood, Serve, Dispatched, DeliveredGood, CustodyGood, OriginsGood, GoodState, StoredGood;
    AckedIsDispatched(sys, c);
    RecipientsNamed(sys);
    AckIsMarked(sys.server, e, env, u);
  }

  lemma {:induction false} AckIsMarked(s: ServerState, e: Event, env: Env, u: string)
    requires e.Acknowledged? && e.id in s.messages && e.body == PrivateBody(s.messages[e.id])
    requires e.id != "" && s.messages[e.id].sender != "" && s.messages[e.id].recipient != ""
    ensures !Awaits(Serve(s, e, env), u, e.id)
  {
    TablesAfter(s, e, env);
    hide Serve;
  }

  lemma {:induction false} QueueOnlyGrows(s: ServerState, t: ServerState, c: Conn, added: seq<Item>, id: string)
    requires Adds(s, t, c, added) && (HasReliable(Queue(s.outbox, c), id) || HasReliable(added, id))
    ensures HasReliable(Queue(t.outbox, c), id)
  {
    var before := Queue(s.outbox, c);
    if HasReliable(before, id) {
      var i :| 0 <= i < |before| && before[i].SendReliably? && before[i].id == id;
      assert Queue(t.outbox, c)[i] == before[i];
    } else {
      var i :| 0 <= i < |added| && added[i].SendReliably? && added[i].id == id;
      assert Queue(t.outbox, c)[|before| + i] == added[i];
    }
  }

  lemma {:induction false} AckWaitsTail(inbox: seq<Signal<Body>>, id: string)
    requires inbox != [] && AckWaits(inbox, id)
    ensures AckWaits(inbox[1..], id)
         || (inbox[0].TrackedPacketAcknowledged? && inbox[0].packet.Data? && inbox[0].packet.id == id)
  {
    var i :| 0 <= i < |inbox| && inbox[i].TrackedPacketAcknowledged? && inbox[i].packet.Data?
      && inbox[i].packet.id == id;
    if i > 0 {
      assert inbox[1..][i - 1] == inbox[i];
    }
  }

  lemma {:induction false} HandlingKeepsWaiting(
    sys: System, next: System, c: Conn, e: Event, env: Env, u: string, id: string)
    requires Awaits(next.server, u, id) && next.server.presence.online[u] in sys.peers
    requires FreshMessage(sys.server, e) && Handles(sys, next, c, e, env)
    ensures HeldFor(next, u, id)
  {
    hide PeerGood, StoredGood, DeliveredGood, OriginsGood, Serve, FreshMessage, AckWaits, HasReliable;
    var s, t := sys.server, next.server;
    var d := t.presence.online[u];
    var p, q := sys.peers[d], next.peers[d];
    assert MutuallyInverse(s.presence);
    var added := ServeSendsOnlyStored(s, e, env, d);
    ServeForgetsNobody(s, e, env, u, id, added);
    if HasReliable(added, id) || HasReliable(Queue(s.outbox, d), id) {
      QueueOnlyGrows(s, t, d, added, id);
    } else {
      assert Awaits(s, u, id);
      assert HeldFor(sys, u, id);
      if d == c && AckWaits(p.inbox, id) {
        AckWaitsTail(p.inbox, id);
        if !AckWaits(q.inbox, id) {
          AckEndsWaiting(sys, next, c, e, env, u, id);
        }
      }
    }
  }

  lemma {:induction false} HandlingKeepsUsersConnected(sys: System, next: System, c: Conn, e: Event, env: Env)
    requires Handles(sys, next, c, e, env)
    ensures next.server.presence.users.Keys <= next.peers.Keys
  {
    hide PeerGood, StoredGood, DeliveredGood, CustodyGood, OriginsGood, GoodState, Serve;
    forall d | d in next.server.presence.users ensures d in next.peers {
      if d != c {
        ServeKeepsOtherUsers(sys.server, e, env, d);
      }
    }
  }

  lemma {:induction false} HandleKeepsInv(sys: System, act: Action)
    requires Inv(sys) && act.Handle? && Can(sys, act)
    ensures Inv(Do(sys, act))
  {
    hide PeerGood, StoredGood, DeliveredGood, CustodyGood, OriginsGood, GoodState, Serve, FreshMessage, EventOf,
      AllInOrder;
    var next, c := Do(sys, act), act.c;
    var e := EventOf(c, sys.peers[c].inbox[0]);
    HandledMessageIsFresh(sys, c);
    HandlingKeepsStored(sys, next, c, e, act.env);
    HandlingKeepsDelivered(sys, next, c, e, act.env);
    ServeKeepsGood(sys.server, e, act.env, sys.clock);
    ServeKeepsTimes(sys.server, e, act.env, sys.clock);
    HandlingKeepsUsersConnected(sys, next, c, e, act.env);
    OriginsStayGood(sys, next, c);
    forall d | d in next.peers ensures PeerGood(next, d) {
      HandlingKeepsPeer(sys, next, c, e, act.env, d);
    }
    HandlingKeepsCustody(sys, next, c, e, act.env);
  }

  lemma {:induction false} HandlingKeepsCustody(sys: System, next: System, c: Conn, e: Event, env: Env)
    requires Handles(sys, next, c, e, env) && FreshMessage(sys.server, e)
    requires GoodState(next.server, next.clock) && next.server.presence.users.Keys <= next.peers.Keys
    ensures CustodyGood(next)
  {
    hide PeerGood, StoredGood, DeliveredGood, OriginsGood, Serve, FreshMessage, InCustody, Inv;
    forall u, id | Awaits(next.server, u, id)
      ensures HeldFor(next, u, id)
    {
      HandlingKeepsWaiting(sys, next, c, e, env, u, id);
    }
  }

  // ---- Whole runs ----

  lemma {:induction false} DoKeepsInv(sys: System, act: Action)
    requires Inv(sys) && Can(sys, act)
    ensures Inv(Do(sys, act))
  {
    hide Inv;
    match act {
      case Restart => RestartKeepsInv(sys, act);
      case Connect(_) => ConnectKeepsInv(sys, act);
      case ClientSends(_, _, _, _) => ClientSendsKeepsInv(sys, act);
      case ClientSendsPlain(c, packet) => ClientKeepsInv(sys, Do(sys, act), c, L.SendPlain(packet));
      case ClientPolls(c, order, nowMs) => ClientKeepsInv(sys, Do(sys, act), c, L.Poll(order, nowMs));
      case ClientReceives(c) => ClientKeepsInv(sys, Do(sys, act), c, L.Deliver);
      case ServerPings(_) => ServerPingsKeepsInv(sys, act);
      case ServerPolls(_, _, _) => ServerPollsKeepsInv(sys, act);
      case ServerReceives(_) => ServerReceivesKeepsInv(sys, act);
      case Disconnect(c) => ClosingKeepsInv(sys, Do(sys, act), c);
      case Flush(_, _) => FlushKeepsInv(sys, act);
      case Handle(_, _) => HandleKeepsInv(sys, act);
    }
  }

  ghost predicate CanRun(sys: System, acts: seq<Action>)
    decreases |acts|
  {
    acts == [] || (Can(sys, acts[0]) && CanRun(Do(sys, acts[0]), acts[1..]))
  }

  ghost function Run(sys: System, acts: seq<Action>): System
    requires CanRun(sys, acts)
    decreases |acts|
  {
    if acts == [] then sys else Run(Do(sys, acts[0]), acts[1..])
  }

  /** The server's first start: no messages yet, and nobody connected. */
  predicate Initial(sys: System) {
    && Started(sys.server) && sys.server.messages == map[] && sys.server.broadcasts == map[]
    && sys.peers == map[] && sys.origin == map[] && sys.receipts == {}
  }

  lemma {:induction false} RunKeepsInv(sys: System, acts: seq<Action>)
    requires Inv(sys) && CanRun(sys, acts)
    ensures Inv(Run(sys, acts))
    decreases |acts|
  {
    if acts != [] {
      hide Inv, Can, Do;
      DoKeepsInv(sys, acts[0]);
      RunKeepsInv(Do(sys, acts[0]), acts[1..]);
    }
  }

  lemma {:induction false} InitialIsInv(sys: System)
    requires Initial(sys)
    ensures Inv(sys)
  {
  }

  lemma {:induction false} RunIsInv(sys: System, acts: seq<Action>)
    requires Initial(sys) && CanRun(sys, acts)
    ensures Inv(Run(sys, acts))
  {
    InitialIsInv(sys);
    RunKeepsInv(sys, acts);
  }

  lemma {:induction false} InvDelivered(sys: System, id: string)
    requires Inv(sys) && IsDelivered(sys.server, id)
    ensures Dispatched(sys.peers, id, sys.server.messages[id])
      || (IsRead(sys.server, id) && ReceiptFor(sys.receipts, id))
  {
    hide PeerGood, StoredGood, CustodyGood, OriginsGood, GoodState, Dispatched, ReceiptFor;
    assert DeliveredTruly(sys, id);
  }

  /** This step serves the receipt. */
  ghost predicate HandlesReceipt(sys: System, act: Action, r: Receipt)
    requires Can(sys, act)
  {
    act.Handle? && r in ReceiptOf(sys.server, EventOf(act.c, sys.peers[act.c].inbox[0]), act.env)
  }

  /** Some step of the run serves the receipt. */
  ghost predicate ReceiptServed(sys: System, acts: seq<Action>, r: Receipt)
    requires CanRun(sys, acts)
    decreases |acts|
  {
    acts != [] && (HandlesReceipt(sys, acts[0], r) || ReceiptServed(Do(sys, acts[0]), acts[1..], r))
  }

  lemma {:induction false} ReceiptsAreServed(sys: System, acts: seq<Action>, r: Receipt)
    requires CanRun(sys, acts) && r in Run(sys, acts).receipts && r !in sys.receipts
    ensures ReceiptServed(sys, acts, r)
    decreases |acts|
  {
    var next := Do(sys, acts[0]);
    hide Serve;
    if r !in next.receipts {
      hide Can, Do;
      ReceiptsAreServed(next, acts[1..], r);
    }
  }

  lemma {:induction false} DispatchedPrefix(sys: System, c: Conn)
    requires c in sys.peers && PeerGood(sys, c)
    ensures var l := sys.peers[c].link;
      l.b.lastIn <= |l.sentA| && Numbered(l.gotB) == l.sentA[..l.b.lastIn]
  {
    hide L.NoGaps, High, Numbered, L.Genuine, InboxGood, SentGood, QueueGood;
  }

  /** The k-th numbered packet the client on `c` has dispatched is the private message `id`, as stored. */
  predicate ClientGot(sys: System, c: Conn, k: nat, id: string, r: Row) {
    && c in sys.peers && k < |Numbered(sys.peers[c].link.gotB)|
    && Numbered(sys.peers[c].link.gotB)[k] == Data(id, k + 1, PrivateBody(r))
  }

  lemma {:induction false} DispatchedWitness(sys: System, id: string, r: Row) returns (c: Conn, k: nat)
    requires Inv(sys) && Dispatched(sys.peers, id, r)
    ensures ClientGot(sys, c, k, id, r) && r.recipient in sys.peers[c].hosted
  {
    hide Inv, PeerGood;
    c :| c in sys.peers && DispatchedOn(sys.peers[c], id, r);
    var l := sys.peers[c].link;
    k :| 0 <= k < l.b.lastIn && k < |l.sentA| && l.sentA[k] == Data(id, k + 1, PrivateBody(r));
    PeerParts(sys, c);
    DispatchedPrefix(sys, c);
  }

  /** In every run, a message is marked delivered only if some client has dispatched exactly the stored message,
      on a connection where its recipient had signed in, or if it is marked read and some step of the run served
      a signed-in user's receipt for it. Until then it is listed as pending for its recipient. */
  lemma {:induction false} DeliveredMeansDispatched(sys: System, acts: seq<Action>, id: string)
    requires Initial(sys) && CanRun(sys, acts) && id in Run(sys, acts).server.messages
    ensures var end := Run(sys, acts);
      var r := end.server.messages[id];
      if r.deliveredAt.None? then id in Pending(end.server.messages, r.recipient)
      else || (exists c, k :: ClientGot(end, c, k, id, r) && r.recipient in end.peers[c].hosted)
           || (r.readAt.Some? && exists u :: ReceiptServed(sys, acts, Receipt(id, u, true)))
  {
    RunIsInv(sys, acts);
    var end := Run(sys, acts);
    hide Inv, Run, CanRun, ClientGot, Dispatched, Pending, ReceiptServed;
    var r := end.server.messages[id];
    PendingIs(end.server.messages, r.recipient, id);
    if r.deliveredAt.Some? {
      InvDelivered(end, id);
      if Dispatched(end.peers, id, r) {
        var c, k := DispatchedWitness(end, id, r);
      } else {
        var u :| Receipt(id, u, true) in end.receipts;
        ReceiptsAreServed(sys, acts, Receipt(id, u, true));
      }
    }
  }

  /** In every run, a pending message whose recipient is signed in is on its way: queued for that connection,
      tracked by it, acknowledged and about to be marked, or given up after five retries. The server forgets
      nobody's message. */
  lemma {:induction false} PendingIsOnItsWay(sys: System, acts: seq<Action>, u: string, id: string)
    requires Initial(sys) && CanRun(sys, acts)
    requires u in Run(sys, acts).server.presence.online && id in Pending(Run(sys, acts).server.messages, u)
    ensures HeldFor(Run(sys, acts), u, id)
  {
    RunIsInv(sys, acts);
    var end := Run(sys, acts);
    hide Run, CanRun, HeldFor, Pending, PeerGood, StoredGood, DeliveredGood, OriginsGood, GoodState;
    PendingIs(end.server.messages, u, id);
    assert Awaits(end.server, u, id);
  }

  /** The connection has nothing queued, in flight or unhandled, and has given nothing up. */
  predicate Settled(sys: System, c: Conn) {
    && c in sys.peers && Queue(sys.server.outbox, c) == []
    && var p := sys.peers[c];
    && p.inbox == [] && p.link.ab == [] && p.link.ba == [] && p.dropped == {}
  }

  /** In every run, once the connection of a signed-in user has settled, no message is pending for that user:
      all have been delivered. */
  lemma {:induction false} SettledMeansDelivered(sys: System, acts: seq<Action>, u: string)
    requires Initial(sys) && CanRun(sys, acts)
    requires u in Run(sys, acts).server.presence.online
      && Settled(Run(sys, acts), Run(sys, acts).server.presence.online[u])
    ensures Pending(Run(sys, acts).server.messages, u) == []
  {
    hide Inv, Run, CanRun, Initial, Pending, Settled;
    RunIsInv(sys, acts);
    var end := Run(sys, acts);
    if Pending(end.server.messages, u) != [] {
      PendingIsOnItsWay(sys, acts, u, Pending(end.server.messages, u)[0]);
      SettledHoldsNothing(end, u, Pending(end.server.messages, u)[0]);
    }
  }

  lemma {:induction false} SettledHoldsNothing(sys: System, u: string, id: string)
    requires u in sys.server.presence.online && Settled(sys, sys.server.presence.online[u])
    requires Inv(sys)
    ensures !HeldFor(sys, u, id)
  {
    hide Inv, PeerGood;
    var c := sys.server.presence.online[u];
    PeerParts(sys, c);
    SettledTracksNothing(sys, c);
  }

  lemma {:induction false} SettledTracksNothing(sys: System, c: Conn)
    requires Settled(sys, c) && PeerGood(sys, c)
    ensures sys.peers[c].link.a.tracked == map[]
  {
    hide L.OneWay, InboxGood;
    L.QuietMeansAcknowledged(sys.peers[c].link);
  }

  /** A client sent this message as its n-th, on a connection where `sender` had signed in. */
  predicate SentBy(sys: System, c: Conn, n: nat, id: string, sender: string, body: Body) {
    && c in sys.peers && n < |sys.peers[c].link.sentB|
    && sys.peers[c].link.sentB[n] == Data(id, n + 1, body)
    && sender in sys.peers[c].hosted
  }

  /** The numbered packets the client on `c` has dispatched. */
  function NumberedGot(sys: System, c: Conn): seq<Protocol.Packet<Body>>
    requires c in sys.peers
  {
    Numbered(sys.peers[c].link.gotB)
  }

  /** The packet is a private or public message that a client of the sender it names has sent, with this text and,
      if private, to the recipient it names, who has signed in where it arrived. */
  ghost predicate Authentic(sys: System, c: Conn, p: Protocol.Packet<Body>) {
    && p.Data?
    && match p.body
       case Private(sender, recipient, text, _) =>
         && c in sys.peers && recipient in sys.peers[c].hosted
         && exists d, n :: SentBy(sys, d, n, p.id, sender, SendPrivate(recipient, text))
       case Public(sender, text, _) => exists d, n :: SentBy(sys, d, n, p.id, sender, SendPublic(text))
       case _ => false
  }

  lemma {:induction false} InvAuthentic(sys: System, c: Conn, k: nat)
    requires c in sys.peers && k < |NumberedGot(sys, c)|
    requires Inv(sys)
    ensures Authentic(sys, c, NumberedGot(sys, c)[k])
  {
    hide Inv, PeerGood, StoredGood, SentBy, SendGood;
    var p := NumberedGot(sys, c)[k];
    PeerParts(sys, c);
    DispatchedPrefix(sys, c);
    SentIsGood(sys, c, k);
    StoredOrigin(sys, sys.peers[c].hosted, p.id, p.body);
  }

  /** In every run, each message a client dispatches was sent, with this text and, if private, to this recipient,
      by a client whose connection had signed in as the sender it names, and a private one arrives only where its
      recipient had signed in. Nothing is forged, altered or misdelivered. */
  lemma {:induction false} DispatchedIsAuthentic(sys: System, acts: seq<Action>, c: Conn, k: nat)
    requires Initial(sys) && CanRun(sys, acts) && c in Run(sys, acts).peers
    requires k < |NumberedGot(Run(sys, acts), c)|
    ensures Authentic(Run(sys, acts), c, NumberedGot(Run(sys, acts), c)[k])
  {
    hide Inv, Run, CanRun, Initial, Authentic;
    RunIsInv(sys, acts);
    InvAuthentic(Run(sys, acts), c, k);
  }

  lemma {:induction false} SentIsGood(sys: System, c: Conn, k: nat)
    requires c in sys.peers && PeerGood(sys, c) && k < |sys.peers[c].link.sentA|
    ensures var p := sys.peers[c].link.sentA[k];
      p.Data? && SendGood(sys.server, sys.peers[c].hosted, p.id, p.body)
  {
    hide L.Genuine, L.NoGaps, High, Numbered, InboxGood, SendGood;
  }

  /** Where a message that was sent to a client comes from. */
  lemma {:induction false} StoredOrigin(sys: System, hosted: set<string>, id: string, body: Body)
    requires Inv(sys) && SendGood(sys.server, hosted, id, body)
    ensures match body
      case Private(sender, recipient, text, _) =>
        recipient in hosted && exists d, n :: SentBy(sys, d, n, id, sender, SendPrivate(recipient, text))
      case Public(sender, text, _) => exists d, n :: SentBy(sys, d, n, id, sender, SendPublic(text))
      case _ => false
  {
    hide PeerGood, DeliveredGood, CustodyGood, OriginsGood, GoodState, Handled;
    if body.Private? {
      assert RowAuthentic(sys.peers, sys.origin, id, sys.server.messages[id]);
      assert SentBy(sys, sys.origin[id].c, sys.origin[id].index, id, body.sender,
        SendPrivate(body.recipient, body.text));
    } else {
      assert SentBy(sys, sys.origin[id].c, sys.origin[id].index, id, body.sender, SendPublic(body.text));
    }
  }

  /** In every run, who is signed in is consistent, online users have their sessions, and every stored message
      keeps its times in order. */
  lemma {:induction false} RunsStayGood(sys: System, acts: seq<Action>)
    requires Initial(sys) && CanRun(sys, acts)
    ensures GoodState(Run(sys, acts).server, Run(sys, acts).clock)
    ensures AllInOrder(Run(sys, acts).server.messages, Run(sys, acts).clock)
  {
    RunIsInv(sys, acts);
  }
}
