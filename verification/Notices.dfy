/** What clients are told about private messages: by the messages themselves, by histories, and by the notices
    shown next to a client's own messages, "delivered" and "read". */
module Notices {
  import opened MessageTable
  import opened Protocol
  import opened ServerLogic
  import opened ServerEffects
  import opened Endpoints
  import opened Delivery
  import L = Links

  /** A history record is of this stored message. */
  predicate Shows(item: HistoryMessageRecord, r: Row) {
    item.sender == r.sender && item.recipient == r.recipient && item.text == r.text && item.createdAt == r.createdAt
  }

  /** One record of a private history: a stored message, from `chatUser` to a user who has signed in there, or from
      such a user. */
  predicate RecordTrue(s: ServerState, hosted: set<string>, chatUser: string, item: HistoryMessageRecord) {
    && item.id in s.messages && Shows(item, s.messages[item.id])
    && (if item.sender == chatUser then item.recipient in hosted else item.sender in hosted)
  }

  predicate HistoryTrue(s: ServerState, hosted: set<string>, chatUser: string, items: seq<HistoryMessageRecord>) {
    forall i :: 0 <= i < |items| ==> RecordTrue(s, hosted, chatUser, items[i])
  }

  /** A served receipt of `user` for the message. */
  predicate ReceiptBy(receipts: set<Receipt>, id: string, user: string) {
    Receipt(id, user, true) in receipts || Receipt(id, user, false) in receipts
  }

  /** What a packet on a connection says of private messages is true: a "delivered" notice is about a message of
      a user signed in there, which its recipient's client has dispatched; a "read" notice about one for which
      the user it names sent a receipt; a private message is stored, and for a user who has signed in there. */
  ghost predicate NoticeTrue(sys: System, hosted: set<string>, id: string, body: Body) {
    match body
    case DeliveredNote(recipient, _) =>
      && id in sys.server.messages && sys.server.messages[id].sender in hosted
      && recipient == sys.server.messages[id].recipient
      && Dispatched(sys.peers, id, sys.server.messages[id])
    case ReadNote(sender) => ReceiptBy(sys.receipts, id, sender)
    case Private(_, recipient, _, _) =>
      id in sys.server.messages && body == PrivateBody(sys.server.messages[id]) && recipient in hosted
    case HistoryReply(chatUser, items) => chatUser == "Broadcast" || HistoryTrue(sys.server, hosted, chatUser, items)
    case _ => true
  }

  ghost predicate ItemsTrue(sys: System, hosted: set<string>, items: seq<Item>) {
    forall i :: 0 <= i < |items| && items[i].Send? ==> NoticeTrue(sys, hosted, items[i].id, items[i].body)
  }

  ghost predicate PacketsTrue(sys: System, hosted: set<string>, ps: seq<Protocol.Packet<Body>>) {
    forall i :: 0 <= i < |ps| && ps[i].Data? ==> NoticeTrue(sys, hosted, ps[i].id, ps[i].body)
  }

  ghost predicate ConnectionTrue(sys: System, c: Conn)
    requires c in sys.peers
  {
    var p := sys.peers[c];
    && ItemsTrue(sys, p.hosted, Queue(sys.server.outbox, c))
    && PacketsTrue(sys, p.hosted, p.link.ab) && PacketsTrue(sys, p.hosted, p.link.gotB)
  }

  ghost predicate NoticesTrue(sys: System) {
    forall c | c in sys.peers :: ConnectionTrue(sys, c)
  }

  // ---- True notices stay true ----

  /** What a dispatched message is known by only grows. */
  predicate Keeps(p: Peer, q: Peer) {
    p.link.sentA <= q.link.sentA && p.link.b.lastIn <= q.link.b.lastIn && p.hosted <= q.hosted
  }

  ghost predicate Onward(sys: System, next: System) {
    && (forall c | c in sys.peers :: c in next.peers && Keeps(sys.peers[c], next.peers[c]))
    && Extends(sys.server, next.server) && sys.receipts <= next.receipts
  }

  lemma {:induction false} DispatchedOnward(sys: System, next: System, id: string, r: Row)
    requires Onward(sys, next) && Dispatched(sys.peers, id, r)
    ensures Dispatched(next.peers, id, r)
  {
    hide Extends;
    var c :| c in sys.peers && DispatchedOn(sys.peers[c], id, r);
    var p, q := sys.peers[c], next.peers[c];
    assert Keeps(p, q);
    var k :| 0 <= k < p.link.b.lastIn && k < |p.link.sentA| && p.link.sentA[k] == Data(id, k + 1, PrivateBody(r));
    assert q.link.sentA[k] == p.link.sentA[k];
    assert DispatchedOn(q, id, r);
  }

  lemma {:induction false} RowOnward(sys: System, next: System, id: string)
    requires Onward(sys, next) && id in sys.server.messages
    ensures id in next.server.messages && PrivateBody(next.server.messages[id]) == PrivateBody(sys.server.messages[id])
  {
    hide Keeps;
  }

  lemma {:induction false} ReceiptsOnward(sys: System, next: System)
    requires Onward(sys, next)
    ensures sys.receipts <= next.receipts
  {
    hide Keeps, Extends;
  }

  lemma {:induction false} HistoryStays(
    sys: System, next: System, hosted: set<string>, more: set<string>, chatUser: string,
    items: seq<HistoryMessageRecord>)
    requires Onward(sys, next) && hosted <= more && HistoryTrue(sys.server, hosted, chatUser, items)
    ensures HistoryTrue(next.server, more, chatUser, items)
  {
    hide Onward;
    forall i | 0 <= i < |items| ensures RecordTrue(next.server, more, chatUser, items[i]) {
      assert RecordTrue(sys.server, hosted, chatUser, items[i]);
      RowOnward(sys, next, items[i].id);
    }
  }

  lemma {:induction false} NoticeStays(
    sys: System, next: System, hosted: set<string>, more: set<string>, id: string, body: Body)
    requires Onward(sys, next) && hosted <= more && NoticeTrue(sys, hosted, id, body)
    ensures NoticeTrue(next, more, id, body)
  {
    hide Onward, Dispatched, HistoryTrue;
    ReceiptsOnward(sys, next);
    match body {
      case DeliveredNote(_, _) =>
        RowOnward(sys, next, id);
        DispatchedOnward(sys, next, id, sys.server.messages[id]);
        SameRowDispatched(next.peers, id, sys.server.messages[id], next.server.messages[id]);
      case Private(_, _, _, _) => RowOnward(sys, next, id);
      case HistoryReply(chatUser, items) =>
        if chatUser != "Broadcast" {
          HistoryStays(sys, next, hosted, more, chatUser, items);
        }
      case _ =>
    }
  }

  lemma {:induction false} ItemsStay(
    sys: System, next: System, hosted: set<string>, more: set<string>, items: seq<Item>)
    requires Onward(sys, next) && hosted <= more && ItemsTrue(sys, hosted, items)
    ensures ItemsTrue(next, more, items)
  {
    hide Onward, NoticeTrue;
    forall i | 0 <= i < |items| && items[i].Send? ensures NoticeTrue(next, more, items[i].id, items[i].body) {
      NoticeStays(sys, next, hosted, more, items[i].id, items[i].body);
    }
  }

  lemma {:induction false} PacketsStay(
    sys: System, next: System, hosted: set<string>, more: set<string>, ps: seq<Protocol.Packet<Body>>)
    requires Onward(sys, next) && hosted <= more && PacketsTrue(sys, hosted, ps)
    ensures PacketsTrue(next, more, ps)
  {
    hide Onward, NoticeTrue;
    forall i | 0 <= i < |ps| && ps[i].Data? ensures NoticeTrue(next, more, ps[i].id, ps[i].body) {
      NoticeStays(sys, next, hosted, more, ps[i].id, ps[i].body);
    }
  }

  /** A packet that says nothing of private messages, or is what the server sends on this connection: a stored
      message, or a plain item queued for it. */
  ghost predicate Carried(sys: System, p: Peer, c: Conn, packet: Protocol.Packet<Body>) {
    packet.Data? && TellsOfMessages(packet.body) ==>
      || SendGood(sys.server, p.hosted, packet.id, packet.body)
      || Send(packet.id, packet.body) in Queue(sys.server.outbox, c)
  }

  ghost predicate AllCarried(sys: System, p: Peer, c: Conn, ps: seq<Protocol.Packet<Body>>) {
    forall i :: 0 <= i < |ps| ==> Carried(sys, p, c, ps[i])
  }

  /** A packet that was already on its way, or is carried. */
  ghost predicate Known(sys: System, p: Peer, c: Conn, packet: Protocol.Packet<Body>) {
    packet in p.link.ab || packet in p.link.gotB || Carried(sys, p, c, packet)
  }

  /** A connection's queue only loses its front, its channel loses its front or gains what is carried, and its
      client dispatches what was in the channel. */
  ghost predicate Passes(sys: System, next: System, c: Conn) {
    && c in sys.peers && c in next.peers && sys.peers[c].hosted <= next.peers[c].hosted
    && var p, q := sys.peers[c], next.peers[c];
    && (forall i :: 0 <= i < |Queue(next.server.outbox, c)| ==>
      Queue(next.server.outbox, c)[i] in Queue(sys.server.outbox, c))
    && (forall i :: 0 <= i < |q.link.ab| ==> Known(sys, p, c, q.link.ab[i]))
    && (forall i :: 0 <= i < |q.link.gotB| ==> Known(sys, p, c, q.link.gotB[i]))
  }

  lemma {:induction false} GoodSendIsTrue(sys: System, hosted: set<string>, id: string, body: Body)
    requires SendGood(sys.server, hosted, id, body)
    ensures NoticeTrue(sys, hosted, id, body)
  {
    hide Dispatched, HistoryTrue;
  }

  lemma {:induction false} KnownIsTrue(sys: System, next: System, c: Conn, packet: Protocol.Packet<Body>)
    requires Onward(sys, next) && c in sys.peers && ConnectionTrue(sys, c) && c in next.peers
    requires Known(sys, sys.peers[c], c, packet) && packet.Data?
    ensures NoticeTrue(next, next.peers[c].hosted, packet.id, packet.body)
  {
    var p := sys.peers[c];
    assert Keeps(p, next.peers[c]);
    if TellsOfMessages(packet.body) {
      hide Onward, Keeps, SendGood, Dispatched, HistoryTrue;
      if SendGood(sys.server, p.hosted, packet.id, packet.body) {
        GoodSendIsTrue(sys, p.hosted, packet.id, packet.body);
      } else {
        assert NoticeTrue(sys, p.hosted, packet.id, packet.body);
      }
      NoticeStays(sys, next, p.hosted, next.peers[c].hosted, packet.id, packet.body);
    }
  }

  lemma {:induction false} PassesKeepsTrue(sys: System, next: System, c: Conn)
    requires Onward(sys, next) && Passes(sys, next, c) && ConnectionTrue(sys, c)
    ensures ConnectionTrue(next, c)
  {
    hide NoticeTrue, Onward, Known;
    var p, q := sys.peers[c], next.peers[c];
    var items := Queue(next.server.outbox, c);
    forall i | 0 <= i < |items| && items[i].Send? ensures NoticeTrue(next, q.hosted, items[i].id, items[i].body) {
      NoticeStays(sys, next, p.hosted, q.hosted, items[i].id, items[i].body);
    }
    forall i | 0 <= i < |q.link.ab| && q.link.ab[i].Data?
      ensures NoticeTrue(next, q.hosted, q.link.ab[i].id, q.link.ab[i].body)
    {
      KnownIsTrue(sys, next, c, q.link.ab[i]);
    }
    forall i | 0 <= i < |q.link.gotB| && q.link.gotB[i].Data?
      ensures NoticeTrue(next, q.hosted, q.link.gotB[i].id, q.link.gotB[i].body)
    {
      KnownIsTrue(sys, next, c, q.link.gotB[i]);
    }
  }

  // ---- Every step but handling only passes notices on ----

  lemma {:induction false} SameServerOnward(sys: System, next: System)
    requires forall c | c in sys.peers :: c in next.peers && Keeps(sys.peers[c], next.peers[c])
    requires next.server.messages == sys.server.messages && next.server.broadcasts == sys.server.broadcasts
    requires next.receipts == sys.receipts
    ensures Onward(sys, next)
  {
    hide Keeps;
  }

  /** One connection's ends act; `next` differs in that peer and at most the front of its queue. */
  ghost predicate ActsOn(sys: System, next: System, c: Conn) {
    && c in sys.peers && next.peers.Keys == sys.peers.Keys
    && (forall d | d in sys.peers && d != c :: next.peers[d] == sys.peers[d])
    && (forall d | d != c :: Queue(next.server.outbox, d) == Queue(sys.server.outbox, d))
    && next.server.messages == sys.server.messages && next.server.broadcasts == sys.server.broadcasts
    && next.receipts == sys.receipts
  }

  lemma {:induction false} UnchangedPasses(sys: System, next: System, c: Conn)
    requires c in sys.peers && c in next.peers && next.peers[c] == sys.peers[c]
    requires Queue(next.server.outbox, c) == Queue(sys.server.outbox, c) || Queue(next.server.outbox, c) == []
    ensures Passes(sys, next, c)
  {
  }

  lemma {:induction false} ActingKeepsTrue(sys: System, next: System, c: Conn)
    requires NoticesTrue(sys) && ActsOn(sys, next, c) && Keeps(sys.peers[c], next.peers[c]) && Passes(sys, next, c)
    ensures NoticesTrue(next)
  {
    hide ConnectionTrue, Passes;
    forall d | d in sys.peers ensures Keeps(sys.peers[d], next.peers[d]) {
    }
    SameServerOnward(sys, next);
    hide Keeps;
    forall d | d in next.peers ensures ConnectionTrue(next, d) {
      if d != c {
        UnchangedPasses(sys, next, d);
      }
      PassesKeepsTrue(sys, next, d);
    }
  }

  lemma {:induction false} ReceiveAdvances(e: Endpoint<Body>, packet: Protocol.Packet<Body>)
    ensures var r := Receive(e, packet);
      && e.lastIn <= r.after.lastIn
      && (r.dispatched == [] || r.dispatched == [packet])
      && forall i :: 0 <= i < |r.replies| ==> !r.replies[i].Data?
  {
  }

  /** The client's own packets travel the other way. */
  lemma {:induction false} ClientPasses(sys: System, next: System, c: Conn, act: L.Action<Body>)
    requires c in sys.peers && L.Can(L.Mirror(sys.peers[c].link), act)
    requires c in next.peers && next.peers[c] == ByClient(sys.peers[c], act).(readable := next.peers[c].readable)
    requires next.server == sys.server
    ensures Keeps(sys.peers[c], next.peers[c]) && Passes(sys, next, c)
  {
    if act.Deliver? {
      var p := sys.peers[c];
      ReceiveAdvances(p.link.b, p.link.ab[0]);
      hide Receive;
    }
  }

  lemma {:induction false} ResentIsCarried(sys: System, c: Conn, order: seq<string>)
    requires c in sys.peers && PeerGood(sys, c) && forall id | id in order :: id in sys.peers[c].link.a.tracked
    ensures AllCarried(sys, sys.peers[c], c, Payloads(sys.peers[c].link.a.tracked, order))
  {
    hide InboxGood, L.NoGaps, High, Numbered, SendGood;
    var p := sys.peers[c];
    var ps := Payloads(p.link.a.tracked, order);
    forall i | 0 <= i < |ps| ensures Carried(sys, p, c, ps[i]) {
      assert order[i] in order;
      assert L.WasSent(p.link.sentA, ps[i]);
      assert SendGood(sys.server, p.hosted, p.link.sentA[ps[i].num - 1].id, p.link.sentA[ps[i].num - 1].body);
    }
  }

  lemma {:induction false} ChannelGains(sys: System, next: System, c: Conn, more: seq<Protocol.Packet<Body>>)
    requires c in sys.peers && c in next.peers && sys.peers[c].hosted <= next.peers[c].hosted
    requires Queue(next.server.outbox, c) == Queue(sys.server.outbox, c)
          || (Queue(sys.server.outbox, c) != [] && Queue(next.server.outbox, c) == Queue(sys.server.outbox, c)[1..])
    requires next.peers[c].link.ab == sys.peers[c].link.ab + more && next.peers[c].link.gotB == sys.peers[c].link.gotB
    requires AllCarried(sys, sys.peers[c], c, more)
    ensures Passes(sys, next, c)
  {
    hide Carried;
    var p, q := sys.peers[c], next.peers[c];
    forall i | 0 <= i < |q.link.ab| ensures Known(sys, p, c, q.link.ab[i]) {
      if i >= |p.link.ab| {
        assert q.link.ab[i] == more[i - |p.link.ab|];
      }
    }
  }

  lemma {:induction false} ServerActs(sys: System, next: System, c: Conn, act: L.Action<Body>)
    requires c in sys.peers && L.Can(sys.peers[c].link, act)
    requires c in next.peers && next.peers[c].link == L.Do(sys.peers[c].link, act)
      && next.peers[c].hosted == sys.peers[c].hosted
    requires Queue(next.server.outbox, c) == Queue(sys.server.outbox, c)
          || (Queue(sys.server.outbox, c) != [] && Queue(next.server.outbox, c) == Queue(sys.server.outbox, c)[1..])
    requires act.SendPlain? && act.packet.Data? ==> Send(act.packet.id, act.packet.body) in Queue(sys.server.outbox, c)
    requires act.SendTracked? ==> SendGood(sys.server, sys.peers[c].hosted, act.id, act.body)
    requires act.Poll? ==> AllCarried(sys, sys.peers[c], c, Payloads(sys.peers[c].link.a.tracked, act.order))
    ensures Keeps(sys.peers[c], next.peers[c]) && Passes(sys, next, c)
  {
    hide Passes, SendGood;
    var l := sys.peers[c].link;
    match act {
      case SendTracked(id, body, nowMs) => ChannelGains(sys, next, c, [Stamped(l.a, id, body)]);
      case SendPlain(packet) => ChannelGains(sys, next, c, [packet]);
      case Poll(order, nowMs) => ChannelGains(sys, next, c, Payloads(l.a.tracked, order));
      case Deliver =>
        ReceiveAdvances(l.a, l.ba[0]);
        ChannelGains(sys, next, c, Receive(l.a, l.ba[0]).replies);
    }
  }

  // ---- Handling a signal ----

  lemma {:induction false} HandlingIsOnward(sys: System, next: System, c: Conn, e: Event, env: Env)
    requires Handles(sys, next, c, e, env) && FreshMessage(sys.server, e)
    ensures Onward(sys, next)
    ensures next.server == Serve(sys.server, e, env) && next.peers.Keys == sys.peers.Keys
    ensures forall d | d in sys.peers ::
      next.peers[d].link == sys.peers[d].link && sys.peers[d].hosted <= next.peers[d].hosted
  {
    hide PeerGood, StoredGood, DeliveredGood, CustodyGood, OriginsGood, GoodState, Serve, FreshMessage, Extends;
    ServeExtends(sys.server, e, env);
  }

  lemma {:induction false} NewHistoryIsTrue(
    s: ServerState, t: ServerState, hosted: set<string>, u: string, chatUser: string,
    items: seq<HistoryMessageRecord>)
    requires RecordsBetween(s, u, chatUser, items) && u in hosted && Extends(s, t)
    ensures HistoryTrue(t, hosted, chatUser, items)
  {
    forall i | 0 <= i < |items| ensures RecordTrue(t, hosted, chatUser, items[i]) {
      assert PrivateBody(t.messages[items[i].id]) == PrivateBody(s.messages[items[i].id]);
    }
  }

  lemma {:induction false} NewReceiptIsKnown(sys: System, next: System, c: Conn, e: Event, env: Env)
    requires Handles(sys, next, c, e, env) && ServesReceipt(sys.server, e, env)
    ensures ReceiptBy(next.receipts, e.id, UserOf(sys.server.presence, e.c))
  {
    hide PeerGood, StoredGood, DeliveredGood, CustodyGood, OriginsGood, GoodState, Serve;
  }

  /** A notice just queued is true. */
  lemma {:induction false} NewNoticeIsTrue(sys: System, next: System, c: Conn, e: Event, env: Env, d: Conn, item: Item)
    requires d in sys.peers && d in next.peers
    requires Handles(sys, next, c, e, env) && FreshMessage(sys.server, e) && Onward(sys, next)
    requires NoticeOf(sys.server, e, env, d, item) && IsNotice(item)
    requires sys.peers[d].hosted <= next.peers[d].hosted
    ensures NoticeTrue(next, next.peers[d].hosted, item.id, item.body)
  {
    hide PeerGood, StoredGood, DeliveredGood, CustodyGood, OriginsGood, GoodState, Serve, FreshMessage, Dispatched,
      Keeps, Extends, RecordsBetween, HistoryTrue, ServesReceipt, ReceiptOf, ReceiptBy;
    match item.body {
      case DeliveredNote(_, _) =>
        AckedIsDispatched(sys, c);
        AckedIsStored(sys, c);
        RowOnward(sys, next, e.id);
        DispatchedOnward(sys, next, e.id, sys.server.messages[e.id]);
        SameRowDispatched(next.peers, e.id, sys.server.messages[e.id], next.server.messages[e.id]);
        OnlineIsHosted(sys, e.body.sender);
      case ReadNote(_) => NewReceiptIsKnown(sys, next, c, e, env);
      case HistoryReply(chatUser, items) =>
        if chatUser != "Broadcast" {
          var u := UserOf(sys.server.presence, d);
          PeerParts(sys, d);
          UserIsHosted(sys, d);
          NewHistoryIsTrue(sys.server, next.server, next.peers[d].hosted, u, chatUser, items);
        }
    }
  }

  /** An acknowledged private packet is a stored message's. */
  lemma {:induction false} AckedIsStored(sys: System, c: Conn)
    requires Inv(sys) && c in sys.peers && sys.peers[c].inbox != [] && sys.peers[c].inbox[0].TrackedPacketAcknowledged?
    ensures var packet := sys.peers[c].inbox[0].packet;
      packet.Data? && packet.body.Private? ==> packet.id in sys.server.messages
  {
    hide DeliveredGood, CustodyGood, OriginsGood, GoodState, StoredGood, L.Sound;
    var p := sys.peers[c];
    var packet := p.inbox[0].packet;
    assert PeerGood(sys, c);
    assert packet in p.link.confirmedA;
    if packet.Data? {
      var k := ConfirmedIndex(p.link, packet);
      assert SendGood(sys.server, p.hosted, p.link.sentA[packet.num - 1].id, p.link.sentA[packet.num - 1].body);
    }
  }

  lemma {:induction false} OnlineIsHosted(sys: System, u: string)
    requires Inv(sys) && u in sys.server.presence.online && sys.server.presence.online[u] in sys.peers
    ensures u in sys.peers[sys.server.presence.online[u]].hosted
  {
    hide DeliveredGood, CustodyGood, OriginsGood, StoredGood, L.Sound, InboxGood, QueueGood, SentGood;
    assert PeerGood(sys, sys.server.presence.online[u]);
  }

  lemma {:induction false} HandlingKeepsQueueTrue(sys: System, next: System, c: Conn, e: Event, env: Env, d: Conn)
    requires d in sys.peers && d in next.peers && ItemsTrue(sys, sys.peers[d].hosted, Queue(sys.server.outbox, d))
    requires Handles(sys, next, c, e, env) && FreshMessage(sys.server, e)
    ensures ItemsTrue(next, next.peers[d].hosted, Queue(next.server.outbox, d))
  {
    hide Handles, Serve, FreshMessage, Onward, NoticeTrue, NoticeOf, IsNotice;
    HandlingIsOnward(sys, next, c, e, env);
    var added := AddedNotices(sys, next, c, e, env, d);
    var before, items := Queue(sys.server.outbox, d), Queue(next.server.outbox, d);
    ItemsStay(sys, next, sys.peers[d].hosted, next.peers[d].hosted, before);
    forall i | 0 <= i < |items| && items[i].Send?
      ensures NoticeTrue(next, next.peers[d].hosted, items[i].id, items[i].body)
    {
      if i < |before| {
        assert items[i] == before[i];
      } else {
        assert items[i] == added[i - |before|];
        if IsNotice(items[i]) {
          NewNoticeIsTrue(sys, next, c, e, env, d, items[i]);
        } else {
          NotANotice(next, next.peers[d].hosted, items[i]);
        }
      }
    }
  }

  lemma {:induction false} AddedNotices(sys: System, next: System, c: Conn, e: Event, env: Env, d: Conn)
    returns (added: seq<Item>)
    requires Handles(sys, next, c, e, env) && FreshMessage(sys.server, e)
    ensures Adds(sys.server, next.server, d, added) && NoticesOf(sys.server, e, env, d, added)
  {
    hide PeerGood, StoredGood, DeliveredGood, CustodyGood, OriginsGood, Serve, FreshMessage;
    HandlingServes(sys, next, c, e, env);
    assert MutuallyInverse(sys.server.presence);
    added := ServeSendsOnlyStored(sys.server, e, env, d);
  }

  lemma {:induction false} NotANotice(sys: System, hosted: set<string>, item: Item)
    requires item.Send? && !IsNotice(item)
    ensures NoticeTrue(sys, hosted, item.id, item.body)
  {
  }

  lemma {:induction false} HandleKeepsTrue(sys: System, act: Action)
    requires act.Handle? && Can(sys, act)
    requires Inv(sys) && NoticesTrue(sys)
    ensures NoticesTrue(Do(sys, act))
  {
    hide Inv, Serve, FreshMessage, EventOf, ItemsTrue, PacketsTrue;
    var next, c := Do(sys, act), act.c;
    var e := EventOf(c, sys.peers[c].inbox[0]);
    HandledMessageIsFresh(sys, c);
    HandlingIsOnward(sys, next, c, e, act.env);
    hide Onward;
    forall d | d in next.peers ensures ConnectionTrue(next, d) {
      HandlingKeepsQueueTrue(sys, next, c, e, act.env, d);
      PacketsStay(sys, next, sys.peers[d].hosted, next.peers[d].hosted, sys.peers[d].link.ab);
      PacketsStay(sys, next, sys.peers[d].hosted, next.peers[d].hosted, sys.peers[d].link.gotB);
    }
  }

  // ---- Whole runs ----

  lemma {:induction false} RestartKeepsTrue(sys: System, next: System)
    requires NoticesTrue(sys) && next == Do(sys, Restart)
    ensures NoticesTrue(next)
  {
    hide NoticeTrue;
    SameServerOnward(sys, next);
    hide Onward;
    forall c | c in next.peers ensures ConnectionTrue(next, c) {
      PacketsStay(sys, next, sys.peers[c].hosted, next.peers[c].hosted, sys.peers[c].link.ab);
      PacketsStay(sys, next, sys.peers[c].hosted, next.peers[c].hosted, sys.peers[c].link.gotB);
    }
  }

  lemma {:induction false} ConnectKeepsTrue(sys: System, act: Action)
    requires act.Connect? && Can(sys, act) && NoticesTrue(sys)
    ensures NoticesTrue(Do(sys, act))
  {
    hide NoticeTrue;
    var next := Do(sys, act);
    SameServerOnward(sys, next);
    hide Onward;
    forall c | c in next.peers ensures ConnectionTrue(next, c) {
      if c != act.c {
        ItemsStay(sys, next, sys.peers[c].hosted, next.peers[c].hosted, Queue(sys.server.outbox, c));
        PacketsStay(sys, next, sys.peers[c].hosted, next.peers[c].hosted, sys.peers[c].link.ab);
        PacketsStay(sys, next, sys.peers[c].hosted, next.peers[c].hosted, sys.peers[c].link.gotB);
      }
    }
  }

  lemma {:induction false} ClosingPasses(sys: System, next: System, c: Conn)
    requires c in sys.peers && c in next.peers && next.peers[c] == Closing(sys.peers[c])
    requires Queue(next.server.outbox, c) == Queue(sys.server.outbox, c)
          || (Queue(sys.server.outbox, c) != [] && Queue(next.server.outbox, c) == Queue(sys.server.outbox, c)[1..])
    ensures Keeps(sys.peers[c], next.peers[c]) && Passes(sys, next, c)
  {
  }

  lemma {:induction false} FlushPasses(sys: System, act: Action)
    requires act.Flush? && Can(sys, act) && PeerGood(sys, act.c)
    ensures var next := Do(sys, act); Keeps(sys.peers[act.c], next.peers[act.c]) && Passes(sys, next, act.c)
  {
    hide L.Can, L.Do, Passes, Keeps;
    var next, c := Do(sys, act), act.c;
    var items := Queue(sys.server.outbox, c);
    if items[0].CloseAndNotify? {
      ClosingPasses(sys, next, c);
    } else {
      FlushedIsGood(sys, c);
      ServerActs(sys, next, c, FlushAction(items[0], act.nowMs));
    }
  }

  /** Every step keeps all notices true. */
  lemma {:induction false} DoKeepsTrue(sys: System, act: Action)
    requires Can(sys, act)
    requires Inv(sys) && NoticesTrue(sys)
    ensures NoticesTrue(Do(sys, act))
  {
    hide Inv, NoticesTrue, Passes, Keeps, PeerGood, L.Can, L.Do;
    match act {
      case Restart => RestartKeepsTrue(sys, Do(sys, act));
      case Connect(_) => ConnectKeepsTrue(sys, act);
      case Handle(_, _) => HandleKeepsTrue(sys, act);
      case Disconnect(c) =>
        ClosingPasses(sys, Do(sys, act), c);
        ActingKeepsTrue(sys, Do(sys, act), c);
      case Flush(c, _) =>
        PeerParts(sys, c);
        FlushPasses(sys, act);
        ActingKeepsTrue(sys, Do(sys, act), c);
      case _ => LinkActsKeepTrue(sys, act);
    }
  }

  predicate ByTheServer(act: Action) { act.ServerPings? || act.ServerPolls? || act.ServerReceives? }

  lemma {:induction false} LinkActsKeepTrue(sys: System, act: Action)
    requires !act.Restart? && !act.Connect? && !act.Handle? && !act.Disconnect? && !act.Flush? && Can(sys, act)
    requires Inv(sys) && NoticesTrue(sys)
    ensures NoticesTrue(Do(sys, act))
  {
    hide Inv, NoticesTrue, Passes, Keeps, PeerGood, L.Do;
    var next, c := Do(sys, act), act.c;
    PeerParts(sys, c);
    if ByTheServer(act) {
      ServerActsPass(sys, act);
    } else {
      ClientActsPass(sys, act);
    }
    ActingKeepsTrue(sys, next, c);
  }

  lemma {:induction false} ServerActsPass(sys: System, act: Action)
    requires ByTheServer(act) && Can(sys, act) && PeerGood(sys, act.c)
    ensures var next := Do(sys, act); Keeps(sys.peers[act.c], next.peers[act.c]) && Passes(sys, next, act.c)
  {
    hide Passes, Keeps, PeerGood, L.Do;
    var next, c := Do(sys, act), act.c;
    match act {
      case ServerPings(_) => ServerActs(sys, next, c, L.SendPlain(Ping));
      case ServerPolls(_, order, nowMs) =>
        ResentIsCarried(sys, c, order);
        ServerActs(sys, next, c, L.Poll(order, nowMs));
      case ServerReceives(_) => ServerActs(sys, next, c, L.Deliver);
    }
  }

  lemma {:induction false} ClientActsPass(sys: System, act: Action)
    requires act.ClientSends? || act.ClientSendsPlain? || act.ClientPolls? || act.ClientReceives?
    requires Can(sys, act)
    ensures var next := Do(sys, act); Keeps(sys.peers[act.c], next.peers[act.c]) && Passes(sys, next, act.c)
  {
    hide Passes, Keeps, L.Do;
    var next, c := Do(sys, act), act.c;
    match act {
      case ClientSends(_, id, body, nowMs) => ClientPasses(sys, next, c, L.SendTracked(id, body, nowMs));
      case ClientSendsPlain(_, packet) => ClientPasses(sys, next, c, L.SendPlain(packet));
      case ClientPolls(_, order, nowMs) => ClientPasses(sys, next, c, L.Poll(order, nowMs));
      case ClientReceives(_) => ClientPasses(sys, next, c, L.Deliver);
    }
  }

  lemma {:induction false} RunKeepsTrue(sys: System, acts: seq<Action>)
    requires CanRun(sys, acts)
    requires Inv(sys) && NoticesTrue(sys)
    ensures NoticesTrue(Run(sys, acts))
    decreases |acts|
  {
    if acts != [] {
      hide Inv, NoticesTrue, Can, Do;
      DoKeepsTrue(sys, acts[0]);
      DoKeepsInv(sys, acts[0]);
      RunKeepsTrue(Do(sys, acts[0]), acts[1..]);
    }
  }

  lemma {:induction false} InvNotices(sys: System, c: Conn, i: nat)
    requires c in sys.peers && i < |sys.peers[c].link.gotB| && sys.peers[c].link.gotB[i].Data?
    requires Inv(sys) && NoticesTrue(sys)
    ensures var packet := sys.peers[c].link.gotB[i];
      NoticeTrue(sys, sys.peers[c].hosted, packet.id, packet.body)
  {
    hide Inv, NoticeTrue;
    assert ConnectionTrue(sys, c);
  }

  /** A receipt of this user for the message is served in the run, and if the message was stored by then, it is
      marked read at the end. */
  ghost predicate ReadTruly(sys: System, acts: seq<Action>, id: string, user: string)
    requires CanRun(sys, acts)
  {
    exists known :: ReceiptServed(sys, acts, Receipt(id, user, known)) && (known ==> IsRead(Run(sys, acts).server, id))
  }

  /** The message is this user's, and the client of the recipient named has dispatched it. */
  ghost predicate DeliveredToNamed(sys: System, hosted: set<string>, id: string, recipient: string) {
    && id in sys.server.messages
    && var r := sys.server.messages[id];
    && r.sender in hosted && r.recipient == recipient
    && exists d, k :: ClientGot(sys, d, k, id, r) && r.recipient in sys.peers[d].hosted
  }

  /** What a dispatched packet tells is true of the run that ends in `end`. */
  ghost predicate ToldTruly(sys: System, acts: seq<Action>, end: System, hosted: set<string>, id: string, body: Body)
    requires CanRun(sys, acts)
  {
    match body
    case DeliveredNote(recipient, _) => DeliveredToNamed(end, hosted, id, recipient)
    case ReadNote(user) => ReadTruly(sys, acts, id, user)
    case HistoryReply(chatUser, items) => chatUser == "Broadcast" || HistoryTrue(end.server, hosted, chatUser, items)
    case _ => true
  }

  lemma {:induction false} TrueNoticeIsTruly(
    sys: System, acts: seq<Action>, hosted: set<string>, id: string, body: Body)
    requires Initial(sys) && CanRun(sys, acts)
    requires Inv(Run(sys, acts)) && NoticeTrue(Run(sys, acts), hosted, id, body)
    ensures ToldTruly(sys, acts, Run(sys, acts), hosted, id, body)
  {
    hide Run, CanRun, Inv, ClientGot, Dispatched, ReceiptServed, HistoryTrue;
    var end := Run(sys, acts);
    match body {
      case DeliveredNote(_, _) => var d, k := DispatchedWitness(end, id, end.server.messages[id]);
      case ReadNote(user) =>
        var known :| Receipt(id, user, known) in end.receipts;
        ReceiptsAreServed(sys, acts, Receipt(id, user, known));
        KnownIsRead(end, Receipt(id, user, known));
      case _ =>
    }
  }

  /** In every run, when a client is told that a message was delivered, the message is one of a user who has
      signed in there and its recipient's client has dispatched exactly it; when told that one was read, the user
      named sent a receipt for it, and it is marked read if it was stored by then; and a private history holds
      only stored messages that a user who has signed in there has sent or was sent. */
  lemma {:induction false} NoticesAreTrue(sys: System, acts: seq<Action>, c: Conn, i: nat)
    requires Initial(sys) && CanRun(sys, acts) && c in Run(sys, acts).peers
    requires i < |Run(sys, acts).peers[c].link.gotB| && Run(sys, acts).peers[c].link.gotB[i].Data?
    ensures var end := Run(sys, acts);
      var packet := end.peers[c].link.gotB[i];
      ToldTruly(sys, acts, end, end.peers[c].hosted, packet.id, packet.body)
  {
    InitialIsInv(sys);
    RunKeepsTrue(sys, acts);
    RunIsInv(sys, acts);
    hide Initial, Run, CanRun, Inv, NoticesTrue, NoticeTrue, ToldTruly;
    var end := Run(sys, acts);
    var packet := end.peers[c].link.gotB[i];
    InvNotices(end, c, i);
    TrueNoticeIsTruly(sys, acts, end.peers[c].hosted, packet.id, packet.body);
  }

  lemma {:induction false} KnownIsRead(sys: System, r: Receipt)
    requires r in sys.receipts && Inv(sys)
    ensures r.known ==> IsRead(sys.server, r.id)
  {
    hide PeerGood, StoredGood, CustodyGood, OriginsGood, GoodState, DeliveredTruly;
    if r.known {
      assert ReceiptFor(sys.receipts, r.id);
    }
  }
}
