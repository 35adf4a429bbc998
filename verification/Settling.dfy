/** Every signed-in user can get every message that waits: from any state, delivering what is in flight, flushing
    what is queued and handling what has arrived comes to an end on that user's connection, with nothing pending. */
module Settling {
  import opened MessageTable
  import opened Protocol
  import opened ServerLogic
  import opened ServerEffects
  import opened Endpoints
  import opened Delivery
  import L = Links

  // ---- How much work is left on a connection ----

  function Total<T>(xs: seq<T>, weight: T -> nat): nat {
    if |xs| == 0 then 0 else weight(xs[0]) + Total(xs[1..], weight)
  }

  lemma {:induction false} TotalConcat<T>(a: seq<T>, b: seq<T>, weight: T -> nat)
    ensures Total(a + b, weight) == Total(a, weight) + Total(b, weight)
  {
    if |a| == 0 {
      assert a + b == b;
    } else {
      assert (a + b)[1..] == a[1..] + b;
      TotalConcat(a[1..], b, weight);
    }
  }

  lemma {:induction false} TotalOfAtMostOne<T>(xs: seq<T>, weight: T -> nat)
    requires |xs| <= 1
    ensures Total(xs, weight) == if |xs| == 0 then 0 else weight(xs[0])
  {
    if |xs| == 1 {
      assert |xs[1..]| == 0;
    }
  }

  /** Each step that uses one of these up puts less in its place: a packet to the client is acknowledged at most,
      a packet to the server signalled and acknowledged, a signal answered with at most one request, and a request
      sent. */
  function ToClient(p: Protocol.Packet<Body>): nat {
    if p.Data? && Seq(p) > 0 then 5 else if p.Ping? then 2 else 1
  }

  function ToServer(p: Protocol.Packet<Body>): nat {
    if p.Data? then 9 else if p.Ack? then 4 else if p.Ping? then 2 else 1
  }

  function OfSignal(x: Signal<Body>): nat {
    if x.PacketReceived? then 7 else 3
  }

  function OfItem(item: Item): nat {
    if item.SendReliably? then 6 else 2
  }

  function Load(sys: System, c: Conn): nat
    requires c in sys.peers
  {
    var p := sys.peers[c];
    Total(p.link.ab, ToClient) + Total(p.link.ba, ToServer) + Total(p.inbox, OfSignal)
    + Total(Queue(sys.server.outbox, c), OfItem)
  }

  // ---- Connections on which nobody comes or goes ----

  predicate Sessional(body: Body) { IsSignIn(body) || body.Logout? }

  predicate CalmPacket(p: Protocol.Packet<Body>) { p.Data? ==> !Sessional(p.body) }

  predicate CalmPackets(ps: seq<Protocol.Packet<Body>>) {
    forall i :: 0 <= i < |ps| ==> CalmPacket(ps[i])
  }

  predicate CalmInbox(inbox: seq<Signal<Body>>) {
    forall i :: 0 <= i < |inbox| ==> !inbox[i].Closed? && (inbox[i].PacketReceived? ==> CalmPacket(inbox[i].packet))
  }

  predicate CalmQueue(items: seq<Item>) {
    forall i :: 0 <= i < |items| ==> !items[i].CloseAndNotify?
  }

  /** The connection is open and has given nothing up, nothing on its way ends or changes the session on it, and
      the server's counter has room for what is queued. */
  ghost predicate Calm(sys: System, c: Conn) {
    && c in sys.peers
    && var p := sys.peers[c];
    && p.connected && p.alive && p.dropped == {}
    && CalmInbox(p.inbox) && CalmPackets(p.link.ba) && CalmQueue(Queue(sys.server.outbox, c))
    && p.link.a.nextOut + Load(sys, c) < TWO_31
  }

  /** One step on, with less left to do and the same users signed in. */
  ghost predicate Progress(sys: System, next: System, c: Conn) {
    && c in sys.peers && Calm(next, c) && Load(next, c) < Load(sys, c)
    && next.server.presence == sys.server.presence
  }

  predicate IsDelivery(act: Action) {
    act.ClientReceives? || act.ServerReceives? || act.Flush? || act.Handle?
  }

  // ---- Receiving ----

  lemma {:induction false} RepliesWeighLess(e: Endpoint<Body>, p: Protocol.Packet<Body>)
    ensures var r := Receive(e, p);
      && |r.replies| <= 1 && CalmPackets(r.replies)
      && Total(r.replies, ToServer) < ToClient(p)
      && Total(r.replies, ToClient) + Total(SignalsOf(r), OfSignal) < ToServer(p)
      && (CalmPacket(p) ==> CalmInbox(SignalsOf(r)))
  {
    var r := Receive(e, p);
    assert |r.replies| <= 1;
    TotalOfAtMostOne(r.replies, ToServer);
    TotalOfAtMostOne(r.replies, ToClient);
    ReceivedOneThing(e, p);
    TotalOfAtMostOne(SignalsOf(r), OfSignal);
  }

  lemma {:induction false} TotalTail<T>(xs: seq<T>, weight: T -> nat)
    requires |xs| > 0
    ensures Total(xs, weight) == weight(xs[0]) + Total(xs[1..], weight)
  {
  }

  lemma {:induction false} ClientReceivesProgress(sys: System, c: Conn) returns (act: Action)
    requires Calm(sys, c) && sys.peers[c].link.ab != []
    ensures IsDelivery(act) && Can(sys, act) && Progress(sys, Do(sys, act), c)
  {
    hide Receive, Total, ToClient, ToServer, SignalsOf;
    act := ClientReceives(c);
    var l := sys.peers[c].link;
    var r := Receive(l.b, l.ab[0]);
    RepliesWeighLess(l.b, l.ab[0]);
    TotalTail(l.ab, ToClient);
    TotalConcat(l.ba, r.replies, ToServer);
    var m := Do(sys, act).peers[c].link;
    assert m.ab == l.ab[1..] && m.ba == l.ba + r.replies && m.a == l.a;
    CalmPacketsConcat(l.ba, r.replies);
  }

  lemma {:induction false} CalmPacketsConcat(a: seq<Protocol.Packet<Body>>, b: seq<Protocol.Packet<Body>>)
    requires CalmPackets(a) && CalmPackets(b)
    ensures CalmPackets(a + b)
  {
  }

  lemma {:induction false} CalmInboxConcat(a: seq<Signal<Body>>, b: seq<Signal<Body>>)
    requires CalmInbox(a) && CalmInbox(b)
    ensures CalmInbox(a + b)
  {
  }

  lemma {:induction false} ServerReceivesProgress(sys: System, c: Conn) returns (act: Action)
    requires Calm(sys, c) && sys.peers[c].link.ba != []
    ensures IsDelivery(act) && Can(sys, act) && Progress(sys, Do(sys, act), c)
  {
    hide Total, ToClient, ToServer, SignalsOf, OfSignal, CalmPacket;
    act := ServerReceives(c);
    var p := sys.peers[c];
    var r := Receive(p.link.a, p.link.ba[0]);
    RepliesWeighLess(p.link.a, p.link.ba[0]);
    ReceiveKeepsCounter(p.link.a, p.link.ba[0]);
    hide Receive;
    TotalTail(p.link.ba, ToServer);
    TotalConcat(p.link.ab, r.replies, ToClient);
    TotalConcat(p.inbox, SignalsOf(r), OfSignal);
    CalmInboxConcat(p.inbox, SignalsOf(r));
    var q := Do(sys, act).peers[c];
    assert q.link.ba == p.link.ba[1..] && q.link.ab == p.link.ab + r.replies && q.inbox == p.inbox + SignalsOf(r);
  }

  lemma {:induction false} ReceiveKeepsCounter(e: Endpoint<Body>, p: Protocol.Packet<Body>)
    ensures Receive(e, p).after.nextOut == e.nextOut
  {
  }

  // ---- Flushing ----

  lemma {:induction false} QueuedHasId(sys: System, c: Conn)
    requires c in sys.peers && Queue(sys.server.outbox, c) != [] && Queue(sys.server.outbox, c)[0].SendReliably?
    requires Inv(sys)
    ensures Queue(sys.server.outbox, c)[0].id != ""
  {
    PeerParts(sys, c);
    FlushedIsGood(sys, c);
    hide PeerGood, DeliveredGood, CustodyGood, OriginsGood, GoodState, Handled, AllInOrder;
    var id := Queue(sys.server.outbox, c)[0].id;
    if id in sys.server.messages {
      assert RowAuthentic(sys.peers, sys.origin, id, sys.server.messages[id]);
    }
  }

  lemma {:induction false} SendingWeighsLess(l: L.Link<Body>, item: Item, nowMs: int)
    requires !item.CloseAndNotify? && (item.SendReliably? ==> item.id != "") && l.a.nextOut + OfItem(item) < TWO_31
    ensures L.Can(l, FlushAction(item, nowMs))
    ensures var m := L.Do(l, FlushAction(item, nowMs));
      && m.ba == l.ba && Total(m.ab, ToClient) < Total(l.ab, ToClient) + OfItem(item)
      && m.a.nextOut <= l.a.nextOut + 1
  {
    hide Total;
    var p := if item.Send? then Data(item.id, 0, item.body) else Stamped(l.a, item.id, item.body);
    TotalConcat(l.ab, [p], ToClient);
    TotalOfAtMostOne([p], ToClient);
  }

  /** The system once the first item queued for `c` has been sent. */
  ghost predicate Flushed(sys: System, next: System, c: Conn, nowMs: int) {
    var items := Queue(sys.server.outbox, c);
    && c in sys.peers && c in next.peers && items != [] && !items[0].CloseAndNotify?
    && L.Can(sys.peers[c].link, FlushAction(items[0], nowMs))
    && next.peers[c] == sys.peers[c].(link := L.Do(sys.peers[c].link, FlushAction(items[0], nowMs)))
    && Queue(next.server.outbox, c) == items[1..] && next.server.presence == sys.server.presence
  }

  lemma {:induction false} FlushDoes(sys: System, c: Conn, nowMs: int)
    requires Can(sys, Flush(c, nowMs)) && !Queue(sys.server.outbox, c)[0].CloseAndNotify?
    ensures Flushed(sys, Do(sys, Flush(c, nowMs)), c, nowMs)
  {
    hide L.Do, L.Can;
  }

  lemma {:induction false} CalmQueueTail(items: seq<Item>)
    requires CalmQueue(items) && items != []
    ensures CalmQueue(items[1..]) && !items[0].CloseAndNotify?
  {
  }

  lemma {:induction false} LoadHasRoom(sys: System, c: Conn)
    requires Calm(sys, c) && Queue(sys.server.outbox, c) != []
    ensures sys.peers[c].link.a.nextOut + OfItem(Queue(sys.server.outbox, c)[0]) < TWO_31
    ensures c in sys.peers && sys.peers[c].alive && CalmQueue(Queue(sys.server.outbox, c))
  {
    TotalTail(Queue(sys.server.outbox, c), OfItem);
  }

  lemma {:induction false} FlushedProgress(sys: System, next: System, c: Conn, nowMs: int)
    requires Calm(sys, c) && Flushed(sys, next, c, nowMs)
    requires var items := Queue(sys.server.outbox, c);
      var m := L.Do(sys.peers[c].link, FlushAction(items[0], nowMs));
      && m.ba == sys.peers[c].link.ba
        && Total(m.ab, ToClient) < Total(sys.peers[c].link.ab, ToClient) + OfItem(items[0])
      && m.a.nextOut <= sys.peers[c].link.a.nextOut + 1
    ensures Progress(sys, next, c)
  {
    hide Total, L.Can, L.Do, FlushAction, OfItem, ToClient, CalmPackets, CalmInbox, CalmQueue;
    TotalTail(Queue(sys.server.outbox, c), OfItem);
    CalmQueueTail(Queue(sys.server.outbox, c));
  }

  lemma {:induction false} FlushProgress(sys: System, c: Conn) returns (act: Action)
    requires Calm(sys, c) && Queue(sys.server.outbox, c) != []
    requires Inv(sys)
    ensures IsDelivery(act) && Can(sys, act) && Progress(sys, Do(sys, act), c)
  {
    hide Inv, Calm, Do, L.Can, L.Do, FlushAction, OfItem, CalmQueue;
    var items, now := Queue(sys.server.outbox, c), sys.clock;
    LoadHasRoom(sys, c);
    CalmQueueTail(items);
    if items[0].SendReliably? {
      QueuedHasId(sys, c);
    }
    act := Flush(c, now);
    SendingWeighsLess(sys.peers[c].link, items[0], now);
    FlushDoes(sys, c, now);
    FlushedProgress(sys, Do(sys, act), c, now);
  }

  // ---- Handling ----

  ghost function Now(sys: System): Env {
    Env(sys.clock, true, true, (password, hash) => true, "", token => token, "")
  }

  /** Without a session packet, a step of the server queues at most one item for each connection, and that of an
      ack is not sent reliably. */
  lemma {:induction false} ServesFew(s: ServerState, e: ServerLogic.Event, env: Env, d: Conn) returns (added: seq<Item>)
    requires !e.ConnectionClosed? && (e.Packet? ==> !Sessional(e.body))
    requires MutuallyInverse(s.presence) && FreshMessage(s, e)
    ensures Adds(s, Serve(s, e, env), d, added) && Few(added) && (e.Acknowledged? ==> NoReliable(added))
    ensures Serve(s, e, env).presence == s.presence
  {
    hide SignIn, LogOut, HandlePublic, HandlePrivate, MutuallyInverse, BroadcastHistory, PrivateRecords, DialogUsers,
      OnlineConnections, Few, Adds, NoReliable;
    if e.Packet? {
      OtherPacketsKeepSessions(s, e.c, e.id, e.body, env);
    }
    if e.Packet? && UserOf(s.presence, e.c) != "" && e.body.SendPublic? {
      added := PublicAdds(s, e.c, UserOf(s.presence, e.c), e.id, e.body.text, env, d);
    } else if e.Packet? && UserOf(s.presence, e.c) != "" && e.body.SendPrivate? {
      added := PrivateAdds(s, e.c, UserOf(s.presence, e.c), e.id, e.body.recipient, e.body.text, env, d);
    } else {
      added := OthersAdd(s, e, env, d);
    }
  }

  lemma {:induction false} FewWeighLess(added: seq<Item>, signal: Signal<Body>)
    requires Few(added) && (!signal.PacketReceived? ==> NoReliable(added))
    ensures Total(added, OfItem) < OfSignal(signal) && CalmQueue(added)
  {
    TotalOfAtMostOne(added, OfItem);
  }

  lemma {:induction false} CalmEvent(c: Conn, signal: Signal<Body>)
    requires CalmInbox([signal])
    ensures var e := EventOf(c, signal);
      && !e.ConnectionClosed? && (e.Packet? ==> !Sessional(e.body)) && (signal.PacketReceived? <==> e.Packet?)
  {
    assert [signal][0] == signal;
  }

  lemma {:induction false} CalmInboxParts(inbox: seq<Signal<Body>>)
    requires CalmInbox(inbox) && inbox != []
    ensures CalmInbox([inbox[0]]) && CalmInbox(inbox[1..])
  {
  }

  lemma {:induction false} CalmQueueConcat(a: seq<Item>, b: seq<Item>)
    requires CalmQueue(a) && CalmQueue(b)
    ensures CalmQueue(a + b)
  {
  }

  lemma {:induction false} InvIsInverse(sys: System)
    requires Inv(sys)
    ensures MutuallyInverse(sys.server.presence)
  {
    hide PeerGood, StoredGood, DeliveredGood, CustodyGood, OriginsGood, MutuallyInverse, AllInOrder;
  }

  lemma {:induction false} HandleProgress(sys: System, c: Conn) returns (act: Action)
    requires Calm(sys, c) && sys.peers[c].inbox != []
    requires Inv(sys)
    ensures IsDelivery(act) && Can(sys, act) && Progress(sys, Do(sys, act), c)
  {
    hide Inv, Total, Serve, FreshMessage, MutuallyInverse, CalmInbox, CalmQueue, OfSignal, OfItem, EventOf, Few,
      NoReliable;
    var p := sys.peers[c];
    var signal := p.inbox[0];
    var e := EventOf(c, signal);
    act := Handle(c, Now(sys));
    CalmInboxParts(p.inbox);
    CalmEvent(c, signal);
    InvIsInverse(sys);
    HandledMessageIsFresh(sys, c);
    var added := ServesFew(sys.server, e, Now(sys), c);
    FewWeighLess(added, signal);
    TotalTail(p.inbox, OfSignal);
    TotalConcat(Queue(sys.server.outbox, c), added, OfItem);
    CalmQueueConcat(Queue(sys.server.outbox, c), added);
  }

  // ---- The whole continuation ----

  lemma {:induction false} StepProgress(sys: System, c: Conn) returns (act: Action)
    requires Calm(sys, c)
    requires !Settled(sys, c) && Inv(sys)
    ensures IsDelivery(act) && Can(sys, act) && Progress(sys, Do(sys, act), c)
  {
    hide Inv, Can, Do, Progress, Load, CalmInbox, CalmPackets, CalmQueue;
    if sys.peers[c].inbox != [] {
      act := HandleProgress(sys, c);
    } else if Queue(sys.server.outbox, c) != [] {
      act := FlushProgress(sys, c);
    } else if sys.peers[c].link.ab != [] {
      act := ClientReceivesProgress(sys, c);
    } else {
      act := ServerReceivesProgress(sys, c);
    }
  }

  predicate OnlyDeliveries(acts: seq<Action>) {
    forall i :: 0 <= i < |acts| ==> IsDelivery(acts[i])
  }

  lemma {:induction false} ConnectionSettles(sys: System, c: Conn) returns (acts: seq<Action>)
    requires Calm(sys, c)
    requires Inv(sys)
    ensures OnlyDeliveries(acts) && CanRun(sys, acts)
    ensures Settled(Run(sys, acts), c) && Run(sys, acts).server.presence == sys.server.presence
    ensures Inv(Run(sys, acts))
    decreases if c in sys.peers then Load(sys, c) else 0
  {
    hide Inv, Can, Do, Settled, IsDelivery;
    if Settled(sys, c) {
      acts := [];
    } else {
      var act := StepProgress(sys, c);
      DoKeepsInv(sys, act);
      var rest := ConnectionSettles(Do(sys, act), c);
      acts := [act] + rest;
      assert acts[0] == act && acts[1..] == rest;
    }
  }

  lemma {:induction false} SettledHasDelivered(sys: System, u: string)
    requires u in sys.server.presence.online && Settled(sys, sys.server.presence.online[u])
    requires Inv(sys)
    ensures Pending(sys.server.messages, u) == []
  {
    hide Settled, Pending, PeerGood, StoredGood, DeliveredGood, OriginsGood, GoodState, HeldFor;
    if Pending(sys.server.messages, u) != [] {
      var id := Pending(sys.server.messages, u)[0];
      PendingIs(sys.server.messages, u, id);
      assert Awaits(sys.server, u, id);
      SettledHoldsNothing(sys, u, id);
    }
  }

  /** From every state a run reaches, whoever is signed in on a connection on which nobody comes or goes and which
      has given nothing up can be served: some deliveries, flushes and handlings on that connection leave nothing
      pending for that user, who is still signed in there. */
  lemma {:induction false} EverybodyCanBeServed(sys: System, acts: seq<Action>, u: string) returns (more: seq<Action>)
    requires Initial(sys) && CanRun(sys, acts)
    requires u in Run(sys, acts).server.presence.online
    requires Calm(Run(sys, acts), Run(sys, acts).server.presence.online[u])
    ensures OnlyDeliveries(more) && CanRun(Run(sys, acts), more)
    ensures var mid, end := Run(sys, acts), Run(Run(sys, acts), more);
      && end.server.presence == mid.server.presence && Settled(end, mid.server.presence.online[u])
      && Pending(end.server.messages, u) == []
  {
    hide Initial, Inv, Run, CanRun, Calm, Settled, Pending, IsDelivery;
    RunIsInv(sys, acts);
    var mid := Run(sys, acts);
    more := ConnectionSettles(mid, mid.server.presence.online[u]);
    SettledHasDelivered(Run(mid, more), u);
  }
}
