/** What read receipts do to the meaning of "delivered". The server believes any signed-in user's receipt for any
    id, so a message can count as delivered before its recipient's client has it. This module says exactly when
    that happens, and proves that delivered messages have been received when clients send receipts only for
    messages they were sent or found in a history, as Client/chatwindow.cpp does. */
module Receipts {
  import opened MessageTable
  import opened Protocol
  import opened ServerLogic
  import opened ServerEffects
  import opened Endpoints
  import opened Delivery
  import opened Notices
  import L = Links

  // ---- Every step only adds to what is known of a message ----

  lemma {:induction false} StepKeepsPeers(sys: System, act: Action)
    requires !act.Restart? && !act.Connect? && !act.Handle? && Can(sys, act)
    requires Inv(sys)
    ensures var next := Do(sys, act);
      && (forall c | c in sys.peers :: c in next.peers && Keeps(sys.peers[c], next.peers[c]))
      && next.server.messages == sys.server.messages && next.server.broadcasts == sys.server.broadcasts
      && next.receipts == sys.receipts
  {
    hide Inv, Passes, Keeps, PeerGood, L.Do, L.Can;
    PeerParts(sys, act.c);
    if act.Disconnect? {
      ClosingPasses(sys, Do(sys, act), act.c);
    } else if act.Flush? {
      FlushPasses(sys, act);
    } else if ByTheServer(act) {
      ServerActsPass(sys, act);
    } else {
      ClientActsPass(sys, act);
    }
    forall c | c in sys.peers ensures Keeps(sys.peers[c], Do(sys, act).peers[c]) {
      if c != act.c {
        PeerKeepsItself(sys.peers[c]);
      }
    }
  }

  lemma {:induction false} PeerKeepsItself(p: Peer)
    ensures Keeps(p, p)
  {
  }

  lemma {:induction false} StepIsOnward(sys: System, act: Action)
    requires Can(sys, act)
    requires Inv(sys)
    ensures Onward(sys, Do(sys, act))
  {
    hide Inv, Can, Do, Onward, Keeps, Handles, FreshMessage, Handling, Serve;
    if act.Handle? {
      var e := HandleHandles(sys, act);
      HandlingIsOnward(sys, Do(sys, act), act.c, e, act.env);
    } else if act.Restart? || act.Connect? {
      StartsAreOnward(sys, act);
    } else {
      StepKeepsPeers(sys, act);
      SameServerOnward(sys, Do(sys, act));
    }
  }

  lemma {:induction false} StartsAreOnward(sys: System, act: Action)
    requires (act.Restart? || act.Connect?) && Can(sys, act)
    ensures Onward(sys, Do(sys, act))
  {
    SameServerOnward(sys, Do(sys, act));
  }

  /** The signal a step handles. */
  ghost function Handling(sys: System, act: Action): Event
    requires act.Handle? && Can(sys, act)
  {
    EventOf(act.c, sys.peers[act.c].inbox[0])
  }

  // ---- Exactly when a message counts as delivered too early ----

  /** If the message counts as delivered, its recipient's client has dispatched it. */
  ghost predicate TrulyDelivered(sys: System, id: string) {
    IsDelivered(sys.server, id) ==> Dispatched(sys.peers, id, sys.server.messages[id])
  }

  /** The step serves a receipt for a stored message that no client of its recipient has dispatched. */
  ghost predicate EarlyReceipt(sys: System, act: Action, id: string)
    requires Can(sys, act)
  {
    && act.Handle?
    && var e := Handling(sys, act);
    && ServesReceipt(sys.server, e, act.env) && e.id == id && id in sys.server.messages
    && !Dispatched(sys.peers, id, sys.server.messages[id])
  }

  lemma {:induction false} StaysDispatched(sys: System, next: System, id: string)
    requires Onward(sys, next) && id in sys.server.messages && Dispatched(sys.peers, id, sys.server.messages[id])
    ensures TrulyDelivered(next, id)
  {
    hide Onward, Dispatched;
    RowOnward(sys, next, id);
    DispatchedOnward(sys, next, id, sys.server.messages[id]);
    SameRowDispatched(next.peers, id, sys.server.messages[id], next.server.messages[id]);
  }

  lemma {:induction false} ReceiptKeepsPresence(s: ServerState, e: Event, env: Env)
    requires ServesReceipt(s, e, env)
    ensures Serve(s, e, env).presence == s.presence
  {
    hide Post;
  }

  /** What handling a signal does to the connections. */
  ghost predicate Moves(sys: System, next: System, c: Conn, e: Event, env: Env) {
    && c in sys.peers && sys.peers[c].inbox != [] && next.peers.Keys == sys.peers.Keys && e.c == c
    && next.server == Serve(sys.server, e, env) && next.peers[c] == AfterHandling(sys.peers[c], next.server, c)
    && forall d | d in sys.peers && d != c :: next.peers[d] == sys.peers[d]
  }

  lemma {:induction false} HandlingMoves(sys: System, next: System, c: Conn, e: Event, env: Env)
    requires Handles(sys, next, c, e, env)
    ensures Moves(sys, next, c, e, env)
  {
    hide Inv, Serve;
  }

  lemma {:induction false} HostedHere(sys: System, c: Conn)
    requires c in sys.peers && PeerGood(sys, c)
    ensures HostedNow(sys.server, c) <= sys.peers[c].hosted
  {
    hide L.Sound, InboxGood, QueueGood, SentGood, OriginsRecorded;
  }

  lemma {:induction false} HandlesIsOf(sys: System, next: System, c: Conn, e: Event, env: Env)
    requires Handles(sys, next, c, e, env)
    ensures Inv(sys) && c in sys.peers && sys.peers[c].inbox != [] && PeerGood(sys, c)
  {
    hide Inv, PeerGood, Serve;
    PeerParts(sys, c);
  }

  lemma {:induction false} ReceiptMovesNoPeer(sys: System, next: System, c: Conn, e: Event, env: Env, d: Conn)
    requires d in sys.peers && ServesReceipt(sys.server, e, env)
    requires Handles(sys, next, c, e, env)
    ensures d in next.peers && next.peers[d].link == sys.peers[d].link && next.peers[d].hosted == sys.peers[d].hosted
  {
    hide Handles, Serve, ServesReceipt, PeerGood, Inv;
    HandlesIsOf(sys, next, c, e, env);
    HandlingMoves(sys, next, c, e, env);
    ReceiptKeepsPresence(sys.server, e, env);
    HostedHere(sys, c);
  }

  lemma {:induction false} SamePeersDispatch(
    peers: map<Conn, Peer>, after: map<Conn, Peer>, id: string, r: Row, r': Row)
    requires after.Keys == peers.Keys && PrivateBody(r) == PrivateBody(r')
    requires forall d | d in peers :: after[d].link == peers[d].link && after[d].hosted == peers[d].hosted
    ensures Dispatched(after, id, r') <==> Dispatched(peers, id, r)
  {
    forall d | d in peers ensures DispatchedOn(after[d], id, r') <==> DispatchedOn(peers[d], id, r) {
    }
  }

  lemma {:induction false} NotDispatchedByReceipt(sys: System, next: System, c: Conn, e: Event, env: Env, id: string)
    requires ServesReceipt(sys.server, e, env) && id in sys.server.messages
    requires Handles(sys, next, c, e, env) && FreshMessage(sys.server, e)
    ensures id in next.server.messages
    ensures Dispatched(next.peers, id, next.server.messages[id]) <==> Dispatched(sys.peers, id, sys.server.messages[id])
  {
    hide Handles, Onward, Serve, FreshMessage, ServesReceipt, Dispatched;
    HandlingIsOnward(sys, next, c, e, env);
    RowOnward(sys, next, id);
    forall d | d in sys.peers
      ensures next.peers[d].link == sys.peers[d].link && next.peers[d].hosted == sys.peers[d].hosted
    {
      ReceiptMovesNoPeer(sys, next, c, e, env, d);
    }
    SamePeersDispatch(sys.peers, next.peers, id, sys.server.messages[id], next.server.messages[id]);
  }

  lemma {:induction false} HandleHandles(sys: System, act: Action) returns (e: Event)
    requires act.Handle? && Can(sys, act)
    requires Inv(sys)
    ensures e == Handling(sys, act)
    ensures Handles(sys, Do(sys, act), act.c, e, act.env) && FreshMessage(sys.server, e)
    ensures Do(sys, act).server == Serve(sys.server, e, act.env)
  {
    hide Inv, Serve, FreshMessage, EventOf;
    HandledMessageIsFresh(sys, act.c);
    e := Handling(sys, act);
  }

  lemma {:induction false} HandlingTrulyIff(sys: System, act: Action, id: string)
    requires act.Handle? && Can(sys, act) && TrulyDelivered(sys, id)
    requires Inv(sys)
    ensures TrulyDelivered(Do(sys, act), id) <==> !EarlyReceipt(sys, act, id)
  {
    hide Inv, Serve, FreshMessage, Handles, Dispatched, Onward, Handling, ServesReceipt, Do, Can;
    var next, c := Do(sys, act), act.c;
    var e := HandleHandles(sys, act);
    HandlingIsOnward(sys, next, c, e, act.env);
    DeliveredExactlyBy(sys.server, e, act.env, id);
    if EarlyReceipt(sys, act, id) {
      NotDispatchedByReceipt(sys, next, c, e, act.env, id);
    } else if IsDelivered(next.server, id) {
      HandlingDelivers(sys, next, c, e, act.env, id);
      StaysDispatched(sys, next, id);
    }
  }

  /** One step makes a message count as delivered before its recipient's client has it exactly if it serves an
      early receipt. */
  lemma {:induction false} StepTrulyIff(sys: System, act: Action, id: string)
    requires Can(sys, act) && TrulyDelivered(sys, id)
    requires Inv(sys)
    ensures TrulyDelivered(Do(sys, act), id) <==> !EarlyReceipt(sys, act, id)
  {
    if act.Handle? {
      hide Inv, Can, Do, TrulyDelivered, EarlyReceipt;
      HandlingTrulyIff(sys, act, id);
    } else {
      StepIsOnward(sys, act);
      OtherStepsDeliverNothing(sys, act);
      hide Inv, Do, Onward, Dispatched;
      if IsDelivered(sys.server, id) {
        StaysDispatched(sys, Do(sys, act), id);
      }
    }
  }

  lemma {:induction false} OtherStepsDeliverNothing(sys: System, act: Action)
    requires !act.Handle? && Can(sys, act)
    ensures Do(sys, act).server.messages == sys.server.messages
  {
    hide L.Do, L.Can;
  }

  /** At every point of the run. */
  ghost predicate AlwaysTruly(sys: System, acts: seq<Action>, id: string)
    requires CanRun(sys, acts)
    decreases |acts|
  {
    TrulyDelivered(sys, id) && (acts == [] || AlwaysTruly(Do(sys, acts[0]), acts[1..], id))
  }

  ghost predicate NoEarlyReceipt(sys: System, acts: seq<Action>, id: string)
    requires CanRun(sys, acts)
    decreases |acts|
  {
    acts == [] || (!EarlyReceipt(sys, acts[0], id) && NoEarlyReceipt(Do(sys, acts[0]), acts[1..], id))
  }

  /** In every run, "delivered" always means dispatched by a client of the recipient exactly if no receipt is
      served for the message while it is stored and not dispatched. */
  lemma {:induction false} DeliveredIsDispatchedIff(sys: System, acts: seq<Action>, id: string)
    requires Initial(sys) && CanRun(sys, acts)
    ensures AlwaysTruly(sys, acts, id) <==> NoEarlyReceipt(sys, acts, id)
  {
    InitialIsInv(sys);
    TrulyIffFrom(sys, acts, id);
  }

  lemma {:induction false} TrulyIffFrom(sys: System, acts: seq<Action>, id: string)
    requires CanRun(sys, acts) && TrulyDelivered(sys, id)
    requires Inv(sys)
    ensures AlwaysTruly(sys, acts, id) <==> NoEarlyReceipt(sys, acts, id)
    decreases |acts|
  {
    if acts != [] {
      hide Inv, Can, Do, TrulyDelivered, EarlyReceipt;
      var next := Do(sys, acts[0]);
      StepTrulyIff(sys, acts[0], id);
      DoKeepsInv(sys, acts[0]);
      if TrulyDelivered(next, id) {
        TrulyIffFrom(next, acts[1..], id);
      }
    }
  }

  // ---- Exactly when a message is read ----

  lemma {:induction false} ServedIsRecorded(sys: System, acts: seq<Action>, r: Receipt)
    requires CanRun(sys, acts) && (r in sys.receipts || ReceiptServed(sys, acts, r))
    ensures r in Run(sys, acts).receipts
    decreases |acts|
  {
    if acts != [] {
      hide Can, Do, Handling, ReceiptOf;
      StepReceipts(sys, acts[0]);
      HandlesWhatItServes(sys, acts[0], r);
      ServedIsRecorded(Do(sys, acts[0]), acts[1..], r);
    }
  }

  lemma {:induction false} HandlesWhatItServes(sys: System, act: Action, r: Receipt)
    requires Can(sys, act)
    ensures HandlesReceipt(sys, act, r) <==> act.Handle? && r in ReceiptOf(sys.server, Handling(sys, act), act.env)
  {
  }

  /** In every run a message is marked read exactly if some step served a signed-in user's receipt for it when it
      was stored: no other receipt marks it, and nothing unmarks it. */
  lemma {:induction false} ReadExactlyByReceipts(sys: System, acts: seq<Action>, id: string)
    requires Initial(sys) && CanRun(sys, acts)
    ensures IsRead(Run(sys, acts).server, id) <==> exists u :: ReceiptServed(sys, acts, Receipt(id, u, true))
  {
    RunIsInv(sys, acts);
    hide Inv, Run, CanRun, ReceiptServed;
    var end := Run(sys, acts);
    if IsRead(end.server, id) {
      ReadHasReceipt(end, id);
      var u :| Receipt(id, u, true) in end.receipts;
      ReceiptsAreServed(sys, acts, Receipt(id, u, true));
    } else if exists u :: ReceiptServed(sys, acts, Receipt(id, u, true)) {
      var u :| ReceiptServed(sys, acts, Receipt(id, u, true));
      ServedIsRecorded(sys, acts, Receipt(id, u, true));
      KnownIsRead(end, Receipt(id, u, true));
    }
  }

  lemma {:induction false} ReadHasReceipt(sys: System, id: string)
    requires Inv(sys) && IsRead(sys.server, id)
    ensures ReceiptFor(sys.receipts, id)
  {
    hide PeerGood, StoredGood, CustodyGood, OriginsGood, GoodState, DeliveredTruly;
  }

  // ---- Clients that send receipts only for what they hold ----

  /** The client has dispatched the message's packet, or a private history with it among the other user's
      messages. */
  predicate HoldsMessage(p: Peer, id: string) {
    exists k :: 0 <= k < |p.link.gotB| && Brings(p.link.gotB[k], id)
  }

  predicate Brings(packet: Protocol.Packet<Body>, id: string) {
    packet.Data? &&
    match packet.body
    case Private(_, _, _, _) => packet.id == id
    case HistoryReply(chatUser, items) =>
      chatUser != "Broadcast" && exists i :: 0 <= i < |items| && items[i].id == id && items[i].sender == chatUser
    case _ => false
  }

  /** The packet tells the client this text, from this sender to this recipient. */
  predicate Tells(packet: Protocol.Packet<Body>, id: string, r: Row) {
    packet.Data? &&
    match packet.body
    case Private(_, _, _, _) => packet.id == id && packet.body == PrivateBody(r)
    case HistoryReply(_, items) => exists i :: 0 <= i < |items| && items[i].id == id && Shows(items[i], r)
    case _ => false
  }

  /** A client on this connection, where the recipient has signed in, has been told the message. */
  predicate ToldOn(p: Peer, id: string, r: Row) {
    r.recipient in p.hosted && exists k :: 0 <= k < |p.link.gotB| && Tells(p.link.gotB[k], id, r)
  }

  predicate Told(peers: map<Conn, Peer>, id: string, r: Row) {
    exists c :: c in peers && ToldOn(peers[c], id, r)
  }

  predicate Received(sys: System, id: string) {
    id in sys.server.messages && Told(sys.peers, id, sys.server.messages[id])
  }

  lemma {:induction false} BroughtIsTold(sys: System, hosted: set<string>, packet: Protocol.Packet<Body>, id: string)
    requires packet.Data? && Brings(packet, id) && NoticeTrue(sys, hosted, packet.id, packet.body)
    ensures id in sys.server.messages
    ensures sys.server.messages[id].recipient in hosted && Tells(packet, id, sys.server.messages[id])
  {
    hide Dispatched;
    if packet.body.HistoryReply? {
      var items := packet.body.items;
      var i :| 0 <= i < |items| && items[i].id == id && items[i].sender == packet.body.chatUser;
      assert RecordTrue(sys.server, hosted, packet.body.chatUser, items[i]);
    }
  }

  /** What a client holds, its recipient's client has received: it is this one. */
  lemma {:induction false} HeldIsReceived(sys: System, c: Conn, id: string)
    requires c in sys.peers && HoldsMessage(sys.peers[c], id) && NoticesTrue(sys)
    ensures Received(sys, id)
  {
    hide NoticeTrue, Brings, Tells;
    var p := sys.peers[c];
    var k :| 0 <= k < |p.link.gotB| && Brings(p.link.gotB[k], id);
    assert ConnectionTrue(sys, c);
    assert p.link.gotB[k].Data? by {
      BringsData(p.link.gotB[k], id);
    }
    BroughtIsTold(sys, p.hosted, p.link.gotB[k], id);
    assert ToldOn(p, id, sys.server.messages[id]);
  }

  lemma {:induction false} BringsData(packet: Protocol.Packet<Body>, id: string)
    requires Brings(packet, id)
    ensures packet.Data?
  {
  }

  lemma {:induction false} NumberedIsIn(ps: seq<Protocol.Packet<Body>>, k: nat) returns (j: nat)
    requires k < |Numbered(ps)|
    ensures j < |ps| && ps[j] == Numbered(ps)[k]
    decreases |ps|
  {
    var n := |ps| - 1;
    if k < |Numbered(ps[..n])| {
      j := NumberedIsIn(ps[..n], k);
    } else {
      j := n;
    }
  }

  lemma {:induction false} DispatchedIsReceived(sys: System, id: string)
    requires id in sys.server.messages && Dispatched(sys.peers, id, sys.server.messages[id])
    requires Inv(sys)
    ensures Received(sys, id)
  {
    hide Inv, Dispatched, Numbered;
    var r := sys.server.messages[id];
    var c, k := DispatchedWitness(sys, id, r);
    var j := NumberedIsIn(sys.peers[c].link.gotB, k);
    assert Tells(sys.peers[c].link.gotB[j], id, r);
    assert ToldOn(sys.peers[c], id, r);
  }

  // ---- What is received stays received ----

  predicate Gains(peers: map<Conn, Peer>, after: map<Conn, Peer>) {
    forall c | c in peers :: c in after && peers[c].link.gotB <= after[c].link.gotB
  }

  lemma {:induction false} LinkGains(l: L.Link<Body>, act: L.Action<Body>)
    requires L.Can(l, act)
    ensures l.gotB <= L.Do(l, act).gotB && l.gotA <= L.Do(l, act).gotA
  {
    hide Receive, Payloads;
  }

  lemma {:induction false} StepGains(sys: System, act: Action)
    requires Can(sys, act)
    ensures Gains(sys.peers, Do(sys, act).peers)
  {
    hide Serve, Receive, L.Do, L.Can, SignalsOf, HostedNow;
    match act {
      case ClientSends(c, id, body, nowMs) => LinkGains(L.Mirror(sys.peers[c].link), L.SendTracked(id, body, nowMs));
      case ClientSendsPlain(c, packet) => PlainGains(L.Mirror(sys.peers[c].link), packet);
      case ClientPolls(c, order, nowMs) => LinkGains(L.Mirror(sys.peers[c].link), L.Poll(order, nowMs));
      case ClientReceives(c) => DeliveryGains(L.Mirror(sys.peers[c].link));
      case ServerPings(c) => PlainGains(sys.peers[c].link, Ping);
      case ServerPolls(c, order, nowMs) => LinkGains(sys.peers[c].link, L.Poll(order, nowMs));
      case ServerReceives(c) => DeliveryGains(sys.peers[c].link);
      case Flush(c, nowMs) =>
        if !Queue(sys.server.outbox, c)[0].CloseAndNotify? {
          LinkGains(sys.peers[c].link, FlushAction(Queue(sys.server.outbox, c)[0], nowMs));
        }
      case _ =>
    }
  }

  lemma {:induction false} PlainGains(l: L.Link<Body>, packet: Protocol.Packet<Body>)
    requires Plain(packet)
    ensures L.Can(l, L.SendPlain(packet)) && l.gotB <= L.Do(l, L.SendPlain(packet)).gotB
    ensures l.gotA <= L.Do(l, L.SendPlain(packet)).gotA
  {
  }

  lemma {:induction false} DeliveryGains(l: L.Link<Body>)
    requires l.ba != []
    ensures L.Can(l, L.Deliver) && l.gotB <= L.Do(l, L.Deliver).gotB && l.gotA <= L.Do(l, L.Deliver).gotA
  {
    hide Receive;
  }

  lemma {:induction false} TellsTheSame(packet: Protocol.Packet<Body>, id: string, r: Row, r': Row)
    requires Tells(packet, id, r) && PrivateBody(r) == PrivateBody(r')
    ensures Tells(packet, id, r')
  {
    if packet.body.HistoryReply? {
      var items := packet.body.items;
      var i :| 0 <= i < |items| && items[i].id == id && Shows(items[i], r);
      assert Shows(items[i], r');
    }
  }

  lemma {:induction false} ReceivedOnward(sys: System, next: System, id: string)
    requires Onward(sys, next) && Gains(sys.peers, next.peers) && Received(sys, id)
    ensures Received(next, id)
  {
    hide Tells, Onward;
    RowOnward(sys, next, id);
    var r, r' := sys.server.messages[id], next.server.messages[id];
    var c :| c in sys.peers && ToldOn(sys.peers[c], id, r);
    var p, q := sys.peers[c], next.peers[c];
    PeerOnward(sys, next, c);
    var k :| 0 <= k < |p.link.gotB| && Tells(p.link.gotB[k], id, r);
    assert q.link.gotB[k] == p.link.gotB[k];
    TellsTheSame(p.link.gotB[k], id, r, r');
    assert ToldOn(q, id, r');
  }

  lemma {:induction false} PeerOnward(sys: System, next: System, c: Conn)
    requires Onward(sys, next) && c in sys.peers
    ensures c in next.peers && sys.peers[c].hosted <= next.peers[c].hosted
  {
    hide Extends;
  }

  // ---- Honest runs ----

  /** The message has reached a client on some connection, this one or an earlier one: clients keep what they
      receive on disk. */
  predicate HeldSomewhere(peers: map<Conn, Peer>, id: string) {
    exists c :: c in peers && HoldsMessage(peers[c], id)
  }

  /** A receipt is sent only for a message that has reached a client. */
  ghost predicate Honest(sys: System, act: Action)
    requires Can(sys, act)
  {
    act.ClientSendsPlain? && IsReceipt(act.packet) ==> HeldSomewhere(sys.peers, act.packet.id)
  }

  ghost predicate HonestRun(sys: System, acts: seq<Action>)
    requires CanRun(sys, acts)
    decreases |acts|
  {
    acts == [] || (Honest(sys, acts[0]) && HonestRun(Do(sys, acts[0]), acts[1..]))
  }

  predicate IsReceipt(packet: Protocol.Packet<Body>) {
    packet.Data? && packet.body.ReadReceipt?
  }

  predicate ReceiptsGood(sys: System, packets: seq<Protocol.Packet<Body>>) {
    forall i :: 0 <= i < |packets| && IsReceipt(packets[i]) ==> Received(sys, packets[i].id)
  }

  ghost predicate AllReceiptsGood(sys: System) {
    forall c | c in sys.peers :: ReceiptsGood(sys, sys.peers[c].link.ba) && ReceiptsGood(sys, sys.peers[c].link.gotA)
  }

  /** Every message that counts as delivered has been received, every receipt on its way is for such a message,
      and every receipt served was. */
  ghost predicate ReceivedGood(sys: System) {
    && AllReceiptsGood(sys)
    && (forall id | IsDelivered(sys.server, id) :: Received(sys, id))
    && (forall r | r in sys.receipts :: r.known)
  }

  /** The packet was already on its way to the server, or is not a receipt, or is sent in this step. */
  ghost predicate Expected(sys: System, act: Action, c: Conn, packet: Protocol.Packet<Body>) {
    || (c in sys.peers && (packet in sys.peers[c].link.ba || packet in sys.peers[c].link.gotA))
    || !IsReceipt(packet)
    || act == ClientSendsPlain(c, packet)
  }

  ghost predicate AllExpected(sys: System, act: Action, c: Conn, packets: seq<Protocol.Packet<Body>>) {
    forall i :: 0 <= i < |packets| ==> Expected(sys, act, c, packets[i])
  }

  predicate NoReceipts(packets: seq<Protocol.Packet<Body>>) {
    forall i :: 0 <= i < |packets| ==> !IsReceipt(packets[i])
  }

  lemma {:induction false} ResentAreMessages(sys: System, c: Conn, order: seq<string>)
    requires c in sys.peers && PeerGood(sys, c) && forall id | id in order :: id in sys.peers[c].link.b.tracked
    ensures NoReceipts(Payloads(sys.peers[c].link.b.tracked, order))
  {
    hide InboxGood, L.NoGaps, High, Numbered, QueueGood, SentGood;
    var p := sys.peers[c];
    var ps := Payloads(p.link.b.tracked, order);
    forall i | 0 <= i < |ps| ensures !IsReceipt(ps[i]) {
      assert order[i] in order;
      assert L.WasSent(p.link.sentB, ps[i]);
      assert IsMessage(p.link.sentB[ps[i].num - 1].body);
    }
  }

  lemma {:induction false} AppendExpected(
    sys: System, act: Action, c: Conn, packets: seq<Protocol.Packet<Body>>, more: seq<Protocol.Packet<Body>>)
    requires AllExpected(sys, act, c, packets)
    requires forall i :: 0 <= i < |more| ==> Expected(sys, act, c, more[i])
    ensures AllExpected(sys, act, c, packets + more)
  {
    hide Expected;
  }

  lemma {:induction false} AppendOthers(
    sys: System, act: Action, c: Conn, packets: seq<Protocol.Packet<Body>>, more: seq<Protocol.Packet<Body>>)
    requires AllExpected(sys, act, c, packets)
    requires NoReceipts(more)
    ensures AllExpected(sys, act, c, packets + more)
  {
    forall i | 0 <= i < |more| ensures Expected(sys, act, c, more[i]) {
      assert !IsReceipt(more[i]);
    }
    AppendExpected(sys, act, c, packets, more);
  }

  ghost predicate LinkExpected(sys: System, act: Action, c: Conn, l: L.Link<Body>) {
    AllExpected(sys, act, c, l.ba) && AllExpected(sys, act, c, l.gotA)
  }

  lemma {:induction false} OldIsExpected(sys: System, act: Action, c: Conn)
    requires c in sys.peers
    ensures LinkExpected(sys, act, c, sys.peers[c].link)
  {
  }

  lemma {:induction false} ServerTakesExpected(sys: System, act: Action)
    requires act.ServerReceives? && Can(sys, act)
    ensures LinkExpected(sys, act, act.c, L.Do(sys.peers[act.c].link, L.Deliver))
  {
    var l := sys.peers[act.c].link;
    OldIsExpected(sys, act, act.c);
    ReceiveAdvances(l.a, l.ba[0]);
    AppendExpected(sys, act, act.c, l.gotA, Receive(l.a, l.ba[0]).dispatched);
    hide Receive;
  }

  /** What the client does to the packets it sends: it adds messages again, replies, and what it sends now. */
  lemma {:induction false} ClientSendsExpected(sys: System, act: Action, link: L.Action<Body>)
    requires act.ClientSends? || act.ClientSendsPlain? || act.ClientPolls? || act.ClientReceives?
    requires act.c in sys.peers && L.Can(L.Mirror(sys.peers[act.c].link), link)
    requires link.SendPlain? ==> act == ClientSendsPlain(act.c, link.packet)
    requires link.SendTracked? ==> IsMessage(link.body)
    requires PeerGood(sys, act.c)
    ensures LinkExpected(sys, act, act.c, L.Mirror(L.Do(L.Mirror(sys.peers[act.c].link), link)))
  {
    hide PeerGood, Receive;
    var l := sys.peers[act.c].link;
    OldIsExpected(sys, act, act.c);
    match link {
      case SendTracked(id, body, nowMs) => AppendOthers(sys, act, act.c, l.ba, [Stamped(l.b, id, body)]);
      case SendPlain(packet) => AppendExpected(sys, act, act.c, l.ba, [packet]);
      case Poll(order, nowMs) =>
        ResentAreMessages(sys, act.c, order);
        AppendOthers(sys, act, act.c, l.ba, Payloads(l.b.tracked, order));
      case Deliver =>
        ReceiveAdvances(l.b, l.ab[0]);
        AppendOthers(sys, act, act.c, l.ba, Receive(l.b, l.ab[0]).replies);
    }
  }

  /** The steps in which a client sends something. */
  predicate ByTheClient(act: Action) {
    act.ClientSends? || act.ClientSendsPlain? || act.ClientPolls? || act.ClientReceives?
  }

  lemma {:induction false} ClientIsExpected(sys: System, act: Action)
    requires ByTheClient(act) && Can(sys, act)
    requires Inv(sys)
    ensures LinkExpected(sys, act, act.c, Do(sys, act).peers[act.c].link)
  {
    hide Inv, PeerGood, LinkExpected;
    PeerParts(sys, act.c);
    match act {
      case ClientSends(_, id, body, nowMs) => ClientSendsExpected(sys, act, L.SendTracked(id, body, nowMs));
      case ClientSendsPlain(_, packet) => ClientSendsExpected(sys, act, L.SendPlain(packet));
      case ClientPolls(_, order, nowMs) => ClientSendsExpected(sys, act, L.Poll(order, nowMs));
      case ClientReceives(_) => ClientSendsExpected(sys, act, L.Deliver);
    }
  }

  /** Other steps leave what comes from the client as it is. */
  lemma {:induction false} OthersLeaveComing(sys: System, act: Action, c: Conn)
    requires Can(sys, act) && c in Do(sys, act).peers
    requires act.Restart? || act.c != c || !(ByTheClient(act) || act.ServerReceives?)
    ensures LinkExpected(sys, act, c, Do(sys, act).peers[c].link)
  {
    hide Serve, Payloads, Receive;
  }

  /** Where the packets on a connection to the server come from. */
  lemma {:induction false} ComingIsExpected(sys: System, act: Action, c: Conn)
    requires Can(sys, act) && c in Do(sys, act).peers
    requires Inv(sys)
    ensures LinkExpected(sys, act, c, Do(sys, act).peers[c].link)
  {
    if act.Restart? || act.c != c || !(ByTheClient(act) || act.ServerReceives?) {
      hide Inv, Can, Do, LinkExpected;
      OthersLeaveComing(sys, act, c);
    } else if act.ServerReceives? {
      hide Inv, LinkExpected;
      ServerTakesExpected(sys, act);
    } else {
      hide Inv, Can, Do, LinkExpected;
      ClientIsExpected(sys, act);
    }
  }

  lemma {:induction false} ExpectedIsReceived(sys: System, act: Action, c: Conn, packet: Protocol.Packet<Body>)
    requires Can(sys, act) && Honest(sys, act) && Expected(sys, act, c, packet) && IsReceipt(packet)
    requires NoticesTrue(sys) && AllReceiptsGood(sys)
    ensures Received(sys, packet.id)
  {
    hide NoticesTrue, HoldsMessage, Received;
    if act == ClientSendsPlain(c, packet) {
      var d :| d in sys.peers && HoldsMessage(sys.peers[d], packet.id);
      HeldIsReceived(sys, d, packet.id);
    }
  }

  lemma {:induction false} StepKeepsReceipts(sys: System, act: Action)
    requires Can(sys, act) && Honest(sys, act)
    requires Inv(sys) && NoticesTrue(sys) && AllReceiptsGood(sys)
    ensures AllReceiptsGood(Do(sys, act))
  {
    hide Inv, Can, Do, NoticesTrue, AllReceiptsGood, Honest, Received, Expected, Gains, Onward;
    var next := Do(sys, act);
    StepIsOnward(sys, act);
    StepGains(sys, act);
    forall c | c in next.peers
      ensures ReceiptsGood(next, next.peers[c].link.ba) && ReceiptsGood(next, next.peers[c].link.gotA)
    {
      ComingIsExpected(sys, act, c);
      assert LinkExpected(sys, act, c, next.peers[c].link);
      ExpectedAreGood(sys, act, c, next.peers[c].link.ba);
      ExpectedAreGood(sys, act, c, next.peers[c].link.gotA);
    }
    AllGoodThen(next);
  }

  lemma {:induction false} AllGoodThen(sys: System)
    requires forall c | c in sys.peers ::
      ReceiptsGood(sys, sys.peers[c].link.ba) && ReceiptsGood(sys, sys.peers[c].link.gotA)
    ensures AllReceiptsGood(sys)
  {
  }

  lemma {:induction false} ExpectedAreGood(sys: System, act: Action, c: Conn, packets: seq<Protocol.Packet<Body>>)
    requires Can(sys, act) && Honest(sys, act) && AllExpected(sys, act, c, packets)
    requires Onward(sys, Do(sys, act)) && Gains(sys.peers, Do(sys, act).peers)
    requires NoticesTrue(sys) && AllReceiptsGood(sys)
    ensures ReceiptsGood(Do(sys, act), packets)
  {
    hide Can, Do, NoticesTrue, AllReceiptsGood, Honest, Received, Expected, Gains, Onward;
    forall i | 0 <= i < |packets| && IsReceipt(packets[i]) ensures Received(Do(sys, act), packets[i].id) {
      ExpectedIsReceived(sys, act, c, packets[i]);
      ReceivedOnward(sys, Do(sys, act), packets[i].id);
    }
  }

  lemma {:induction false} FirstHasArrived(p: Peer)
    requires p.inbox != [] && p.inbox[0].PacketReceived?
    requires p.served <= |p.link.gotA| && ReceivedIn(p.inbox) == p.link.gotA[p.served..]
    ensures p.inbox[0].packet in p.link.gotA
  {
    assert p.link.gotA[p.served..][0] == p.inbox[0].packet;
  }

  /** A receipt about to be handled has arrived. */
  lemma {:induction false} HandledReceiptArrived(sys: System, act: Action) returns (packet: Protocol.Packet<Body>)
    requires act.Handle? && Can(sys, act) && Handling(sys, act).Packet? && Handling(sys, act).body.ReadReceipt?
    requires Inv(sys)
    ensures act.c in sys.peers && packet in sys.peers[act.c].link.gotA
    ensures IsReceipt(packet) && packet.id == Handling(sys, act).id
  {
    hide Inv, PeerGood, ReceivedIn;
    PeerParts(sys, act.c);
    InboxIsReceived(sys, act.c);
    packet := sys.peers[act.c].inbox[0].packet;
    FirstHasArrived(sys.peers[act.c]);
  }

  lemma {:induction false} InboxIsReceived(sys: System, c: Conn)
    requires c in sys.peers && PeerGood(sys, c)
    ensures var p := sys.peers[c]; p.served <= |p.link.gotA| && ReceivedIn(p.inbox) == p.link.gotA[p.served..]
  {
    hide L.Sound, QueueGood, SentGood, OriginsRecorded, ReceivedIn;
  }

  lemma {:induction false} ServedIsReceived(sys: System, act: Action)
    requires act.Handle? && Can(sys, act) && ServesReceipt(sys.server, Handling(sys, act), act.env)
    requires Inv(sys) && AllReceiptsGood(sys)
    ensures Received(sys, Handling(sys, act).id)
  {
    hide Inv, Received, Handling;
    var packet := HandledReceiptArrived(sys, act);
    assert ReceiptsGood(sys, sys.peers[act.c].link.gotA);
  }

  lemma {:induction false} DeliveryNeedsReceived(sys: System, act: Action, id: string)
    requires Can(sys, act) && IsDelivered(Do(sys, act).server, id)
    requires Inv(sys) && ReceivedGood(sys)
    ensures Received(sys, id)
  {
    if act.Handle? {
      hide Inv, Do, Serve, Handles, FreshMessage, Received, Dispatched, AllReceiptsGood, Handling, ServesReceipt;
      var e := HandleHandles(sys, act);
      HandlingDelivers(sys, Do(sys, act), act.c, e, act.env, id);
      if ServesReceipt(sys.server, e, act.env) {
        ServedIsReceived(sys, act);
      }
      if id in sys.server.messages && Dispatched(sys.peers, id, sys.server.messages[id]) {
        DispatchedIsReceived(sys, id);
      }
    } else {
      OtherStepsDeliverNothing(sys, act);
      hide Do, Received;
    }
  }

  lemma {:induction false} StepReceipts(sys: System, act: Action)
    requires Can(sys, act)
    ensures Do(sys, act).receipts ==
      if act.Handle? then sys.receipts + ReceiptOf(sys.server, Handling(sys, act), act.env) else sys.receipts
  {
    hide Serve, ReceiptOf, L.Do, L.Can;
  }

  lemma {:induction false} ReceiptsStayKnown(sys: System, act: Action)
    requires Can(sys, act)
    requires Inv(sys) && ReceivedGood(sys)
    ensures forall r | r in Do(sys, act).receipts :: r.known
  {
    hide Inv, Can, Do, AllReceiptsGood, Handling, ServesReceipt;
    StepReceipts(sys, act);
    if act.Handle? && ServesReceipt(sys.server, Handling(sys, act), act.env) {
      ServedIsReceived(sys, act);
    }
  }

  lemma {:induction false} StepKeepsReceived(sys: System, act: Action)
    requires Can(sys, act) && Honest(sys, act)
    requires Inv(sys) && NoticesTrue(sys) && ReceivedGood(sys)
    ensures ReceivedGood(Do(sys, act))
  {
    hide Inv, Can, Do, NoticesTrue, AllReceiptsGood, Honest, Received, Gains, Onward;
    StepIsOnward(sys, act);
    StepGains(sys, act);
    ReceiptsStayKnown(sys, act);
    StepKeepsReceipts(sys, act);
    forall id | IsDelivered(Do(sys, act).server, id) ensures Received(Do(sys, act), id) {
      DeliveryNeedsReceived(sys, act, id);
      ReceivedOnward(sys, Do(sys, act), id);
    }
  }

  lemma {:induction false} RunKeepsReceived(sys: System, acts: seq<Action>)
    requires CanRun(sys, acts) && HonestRun(sys, acts)
    requires Inv(sys) && NoticesTrue(sys) && ReceivedGood(sys)
    ensures ReceivedGood(Run(sys, acts))
    decreases |acts|
  {
    if acts != [] {
      hide Inv, Can, Do, NoticesTrue, ReceivedGood, Honest;
      StepKeepsReceived(sys, acts[0]);
      DoKeepsInv(sys, acts[0]);
      DoKeepsTrue(sys, acts[0]);
      RunKeepsReceived(Do(sys, acts[0]), acts[1..]);
    }
  }

  /** In every run in which receipts are sent only for messages that have reached a client, a message counts as
      delivered only when a client has been told it on a connection where its recipient had signed in; and a client
      told that its message was read can rely on that: the message is stored, marked read, and was received. */
  lemma {:induction false} HonestReceiptsMeanReceived(sys: System, acts: seq<Action>)
    requires Initial(sys) && CanRun(sys, acts) && HonestRun(sys, acts)
    ensures forall id | IsDelivered(Run(sys, acts).server, id) :: Received(Run(sys, acts), id)
    ensures forall c | c in Run(sys, acts).peers :: ReadNotesHold(Run(sys, acts), Run(sys, acts).peers[c].link.gotB)
  {
    InitialIsInv(sys);
    RunKeepsReceived(sys, acts);
    RunIsInv(sys, acts);
    RunKeepsTrue(sys, acts);
    hide Initial, Run, CanRun, HonestRun, Inv, Received, AllReceiptsGood, NoticesTrue;
    var end := Run(sys, acts);
    forall c | c in end.peers ensures ReadNotesHold(end, end.peers[c].link.gotB) {
      NotesHoldOn(end, c);
    }
  }

  predicate ReadNotesHold(sys: System, got: seq<Protocol.Packet<Body>>) {
    forall i :: 0 <= i < |got| && got[i].Data? && got[i].body.ReadNote? ==>
      IsRead(sys.server, got[i].id) && Received(sys, got[i].id)
  }

  lemma {:induction false} NotesHoldOn(sys: System, c: Conn)
    requires c in sys.peers && ReceivedGood(sys)
    requires Inv(sys) && NoticesTrue(sys)
    ensures ReadNotesHold(sys, sys.peers[c].link.gotB)
  {
    hide Inv, NoticesTrue, Received, AllReceiptsGood;
    var got := sys.peers[c].link.gotB;
    forall i | 0 <= i < |got| && got[i].Data? && got[i].body.ReadNote?
      ensures IsRead(sys.server, got[i].id) && Received(sys, got[i].id)
    {
      InvNotices(sys, c, i);
      assert ReceiptBy(sys.receipts, got[i].id, got[i].body.sender);
      assert Receipt(got[i].id, got[i].body.sender, true) in sys.receipts;
      KnownIsRead(sys, Receipt(got[i].id, got[i].body.sender, true));
      ReadIsDelivered(sys, got[i].id);
    }
  }

  lemma {:induction false} ReadIsDelivered(sys: System, id: string)
    requires Inv(sys) && IsRead(sys.server, id)
    ensures IsDelivered(sys.server, id)
  {
    hide PeerGood, StoredGood, DeliveredGood, CustodyGood, OriginsGood, GoodState;
    assert TimesInOrder(sys.server.messages[id], sys.clock);
  }
}
