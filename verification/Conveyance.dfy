/** What the server queues for a connection reaches its client while the connection lasts: all of it, once, and the
    plain packets and the numbered ones each in order. */
module Conveyance {
  import opened MessageTable
  import opened Protocol
  import opened ServerLogic
  import opened ServerEffects
  import opened Delivery
  import Answers
  import L = Links

  /** What a packet carries besides its number. */
  datatype Parcel = Parcel(id: string, body: Body)

  function Collect<T>(xs: seq<T>, pick: T -> seq<Parcel>): seq<Parcel> {
    if |xs| == 0 then [] else pick(xs[0]) + Collect(xs[1..], pick)
  }

  lemma {:induction false} CollectConcat<T>(a: seq<T>, b: seq<T>, pick: T -> seq<Parcel>)
    ensures Collect(a + b, pick) == Collect(a, pick) + Collect(b, pick)
  {
    if |a| == 0 {
      assert a + b == b;
    } else {
      assert (a + b)[1..] == a[1..] + b;
      CollectConcat(a[1..], b, pick);
    }
  }

  lemma {:induction false} CollectOne<T>(x: T, pick: T -> seq<Parcel>)
    ensures Collect([x], pick) == pick(x)
  {
    assert |[x][1..]| == 0;
  }

  lemma {:induction false} CollectNothing<T>(xs: seq<T>, pick: T -> seq<Parcel>)
    requires forall i :: 0 <= i < |xs| ==> pick(xs[i]) == []
    ensures Collect(xs, pick) == []
  {
    if |xs| != 0 {
      CollectNothing(xs[1..], pick);
    }
  }

  lemma {:induction false} Collected<T>(xs: seq<T>, pick: T -> seq<Parcel>, p: Parcel) returns (i: nat)
    requires p in Collect(xs, pick)
    ensures i < |xs| && p in pick(xs[i])
  {
    if p in pick(xs[0]) {
      i := 0;
    } else {
      var j := Collected(xs[1..], pick, p);
      i := j + 1;
    }
  }

  lemma {:induction false} IsCollected<T>(xs: seq<T>, pick: T -> seq<Parcel>, i: nat, p: Parcel)
    requires i < |xs| && p in pick(xs[i])
    ensures p in Collect(xs, pick)
  {
    if i > 0 {
      IsCollected(xs[1..], pick, i - 1, p);
    }
  }

  /** A packet without a number. */
  function PlainPacket(p: Protocol.Packet<Body>): seq<Parcel> {
    if p.Data? && p.num == 0 then [Parcel(p.id, p.body)] else []
  }

  function AnyPacket(p: Protocol.Packet<Body>): seq<Parcel> {
    if p.Data? then [Parcel(p.id, p.body)] else []
  }

  function PlainItem(item: Item): seq<Parcel> {
    if item.Send? then [Parcel(item.id, item.body)] else []
  }

  function ReliableItem(item: Item): seq<Parcel> {
    if item.SendReliably? then [Parcel(item.id, item.body)] else []
  }

  /** All that is to arrive on a connection without a number, in order: what the client has dispatched, what is in
      flight, and what is still queued. */
  function PlainStream(sys: System, c: Conn): seq<Parcel>
    requires c in sys.peers
  {
    Collect(sys.peers[c].link.gotB, PlainPacket) + Collect(sys.peers[c].link.ab, PlainPacket)
    + Collect(Queue(sys.server.outbox, c), PlainItem)
  }

  /** And with one: what has been sent, and what is still queued. */
  function ReliableStream(sys: System, c: Conn): seq<Parcel>
    requires c in sys.peers
  {
    Collect(sys.peers[c].link.sentA, AnyPacket) + Collect(Queue(sys.server.outbox, c), ReliableItem)
  }

  /** Nothing is lost, altered or put in front. */
  predicate Continues(sys: System, next: System, c: Conn) {
    && c in sys.peers && c in next.peers
    && PlainStream(sys, c) <= PlainStream(next, c) && ReliableStream(sys, c) <= ReliableStream(next, c)
  }

  predicate ConnectedIn(sys: System, c: Conn) { c in sys.peers && sys.peers[c].connected }

  // ---- One step ----

  /** The parts of a connection the streams are made of. */
  predicate SameParts(sys: System, next: System, c: Conn) {
    && c in sys.peers && c in next.peers
    && var l, m := sys.peers[c].link, next.peers[c].link;
    && m.gotB == l.gotB && m.sentA == l.sentA && m.ab == l.ab
    && Queue(next.server.outbox, c) == Queue(sys.server.outbox, c)
  }

  lemma {:induction false} SamePartsContinue(sys: System, next: System, c: Conn)
    requires SameParts(sys, next, c)
    ensures Continues(sys, next, c)
  {
    hide Collect;
  }

  /** More packets, none of them without a number and carrying anything. */
  lemma {:induction false} RepliesContinue(sys: System, next: System, c: Conn, more: seq<Protocol.Packet<Body>>)
    requires c in sys.peers && c in next.peers
    requires var l, m := sys.peers[c].link, next.peers[c].link;
      m.gotB == l.gotB && m.sentA == l.sentA && m.ab == l.ab + more
    requires Queue(next.server.outbox, c) == Queue(sys.server.outbox, c)
    requires forall i :: 0 <= i < |more| ==> PlainPacket(more[i]) == []
    ensures Continues(sys, next, c)
  {
    hide Collect, PlainPacket;
    CollectConcat(sys.peers[c].link.ab, more, PlainPacket);
    CollectNothing(more, PlainPacket);
  }

  lemma {:induction false} FrontMoves(
    ab: seq<Protocol.Packet<Body>>, got: seq<Protocol.Packet<Body>>, e: Endpoint<Body>)
    requires ab != []
    ensures Collect(got + Receive(e, ab[0]).dispatched, PlainPacket) + Collect(ab[1..], PlainPacket)
         == Collect(got, PlainPacket) + Collect(ab, PlainPacket)
  {
    var r := Receive(e, ab[0]);
    CollectConcat(got, r.dispatched, PlainPacket);
    assert ab == [ab[0]] + ab[1..];
    CollectConcat([ab[0]], ab[1..], PlainPacket);
    CollectOne(ab[0], PlainPacket);
    hide Collect;
    if r.dispatched == [] {
      CollectNothing(r.dispatched, PlainPacket);
      assert PlainPacket(ab[0]) == [];
    } else {
      assert r.dispatched == [ab[0]];
    }
  }

  lemma {:induction false} ClientReceivesContinues(sys: System, c: Conn)
    requires Can(sys, ClientReceives(c))
    ensures Continues(sys, Do(sys, ClientReceives(c)), c)
  {
    hide Collect, Receive;
    var l := sys.peers[c].link;
    FrontMoves(l.ab, l.gotB, l.b);
  }

  /** Taking the front of one list to the end of another keeps what both hold. */
  lemma {:induction false} FrontToEnd<S, T>(
    xs: seq<S>, pickX: S -> seq<Parcel>, ys: seq<T>, pickY: T -> seq<Parcel>, y: T)
    requires |xs| > 0 && pickY(y) == pickX(xs[0])
    ensures Collect(ys + [y], pickY) + Collect(xs[1..], pickX) == Collect(ys, pickY) + Collect(xs, pickX)
  {
    CollectConcat(ys, [y], pickY);
    CollectOne(y, pickY);
  }

  lemma {:induction false} SameBehind(g: seq<Parcel>, a: seq<Parcel>, b: seq<Parcel>, x: seq<Parcel>, y: seq<Parcel>)
    requires a + b == x + y
    ensures g + a + b == g + x + y
  {
    assert g + a + b == g + (a + b) && g + x + y == g + (x + y);
  }

  lemma {:induction false} SkipsFront<S>(xs: seq<S>, pick: S -> seq<Parcel>)
    requires |xs| > 0 && pick(xs[0]) == []
    ensures Collect(xs[1..], pick) == Collect(xs, pick)
  {
  }

  lemma {:induction false} FlushContinues(sys: System, c: Conn, nowMs: int)
    requires Can(sys, Flush(c, nowMs)) && !Queue(sys.server.outbox, c)[0].CloseAndNotify?
    ensures Continues(sys, Do(sys, Flush(c, nowMs)), c)
  {
    FlushMoves(sys, c, nowMs);
    hide Can, Do, PlainItem, ReliableItem, PlainPacket, AnyPacket, Collect;
    var items, l := Queue(sys.server.outbox, c), sys.peers[c].link;
    var p := Flushed(l, items[0]);
    hide Flushed;
    FrontToEnd(items, PlainItem, l.ab, PlainPacket, p);
    SameBehind(Collect(l.gotB, PlainPacket), Collect(l.ab + [p], PlainPacket), Collect(items[1..], PlainItem),
               Collect(l.ab, PlainPacket), Collect(items, PlainItem));
    if items[0].SendReliably? {
      FrontToEnd(items, ReliableItem, l.sentA, AnyPacket, p);
    } else {
      SkipsFront(items, ReliableItem);
    }
  }

  /** The packet a request becomes. */
  function Flushed(l: L.Link<Body>, item: Item): Protocol.Packet<Body>
    requires !item.CloseAndNotify?
  {
    if item.Send? then Data(item.id, 0, item.body) else Stamped(l.a, item.id, item.body)
  }

  lemma {:induction false} FlushMoves(sys: System, c: Conn, nowMs: int)
    requires Can(sys, Flush(c, nowMs)) && !Queue(sys.server.outbox, c)[0].CloseAndNotify?
    ensures var items, l := Queue(sys.server.outbox, c), sys.peers[c].link;
      var item, next := items[0], Do(sys, Flush(c, nowMs));
      var m, p := next.peers[c].link, Flushed(l, item);
      && Queue(next.server.outbox, c) == items[1..] && m.gotB == l.gotB && m.ab == l.ab + [p]
      && m.sentA == (if item.SendReliably? then l.sentA + [p] else l.sentA)
      && PlainPacket(p) == PlainItem(item) && (item.SendReliably? ==> AnyPacket(p) == ReliableItem(item))
      && (item.Send? ==> ReliableItem(item) == [])
  {
  }

  lemma {:induction false} PollContinues(sys: System, c: Conn, order: seq<string>, nowMs: int)
    requires Can(sys, ServerPolls(c, order, nowMs)) && PeerGood(sys, c)
    ensures Continues(sys, Do(sys, ServerPolls(c, order, nowMs)), c)
  {
    var l := sys.peers[c].link;
    var resent := Payloads(l.a.tracked, order);
    L.SoundTracksSent(l);
    forall i | 0 <= i < |resent| ensures PlainPacket(resent[i]) == [] {
      assert order[i] in order && L.WasSent(l.sentA, resent[i]);
    }
    hide PlainPacket, PeerGood, Collect, Continues;
    RepliesContinue(sys, Do(sys, ServerPolls(c, order, nowMs)), c, resent);
  }

  lemma {:induction false} ServerReceivesContinues(sys: System, c: Conn)
    requires Can(sys, ServerReceives(c))
    ensures Continues(sys, Do(sys, ServerReceives(c)), c)
  {
    var l := sys.peers[c].link;
    var replies := Receive(l.a, l.ba[0]).replies;
    L.RepliesCarryNoData(l.a, l.ba[0]);
    forall i | 0 <= i < |replies| ensures PlainPacket(replies[i]) == [] {
      assert replies[i] in replies;
    }
    hide PlainPacket, Receive, Collect, Continues;
    RepliesContinue(sys, Do(sys, ServerReceives(c)), c, replies);
  }

  /** Serving an event puts exactly what it adds at the end. */
  lemma {:induction false} HandleContinues(sys: System, c: Conn, env: Env, d: Conn, added: seq<Item>)
    requires Can(sys, Handle(c, env)) && d in sys.peers
    requires Adds(sys.server, Serve(sys.server, EventOf(c, sys.peers[c].inbox[0]), env), d, added)
    ensures var next := Do(sys, Handle(c, env));
      && Continues(sys, next, d)
      && PlainStream(next, d) == PlainStream(sys, d) + Collect(added, PlainItem)
      && ReliableStream(next, d) == ReliableStream(sys, d) + Collect(added, ReliableItem)
  {
    HandleKeepsLink(sys, c, env, d);
    hide Serve, Do, Can, Continues, PlainStream, ReliableStream, EventOf;
    QueueGrows(sys, Do(sys, Handle(c, env)), d, added);
  }

  lemma {:induction false} QueueGrows(sys: System, next: System, d: Conn, added: seq<Item>)
    requires d in sys.peers && d in next.peers && next.peers[d].link == sys.peers[d].link
    requires Adds(sys.server, next.server, d, added)
    ensures Continues(sys, next, d)
    ensures PlainStream(next, d) == PlainStream(sys, d) + Collect(added, PlainItem)
    ensures ReliableStream(next, d) == ReliableStream(sys, d) + Collect(added, ReliableItem)
  {
    hide Collect;
    CollectConcat(Queue(sys.server.outbox, d), added, PlainItem);
    CollectConcat(Queue(sys.server.outbox, d), added, ReliableItem);
  }

  lemma {:induction false} HandleKeepsLink(sys: System, c: Conn, env: Env, d: Conn)
    requires Can(sys, Handle(c, env)) && d in sys.peers
    ensures var next := Do(sys, Handle(c, env));
      && d in next.peers && next.peers[d].link == sys.peers[d].link
      && next.server == Serve(sys.server, EventOf(c, sys.peers[c].inbox[0]), env)
  {
    hide Serve;
  }

  lemma {:induction false} ElsewhereSameParts(sys: System, act: Action, c: Conn)
    requires Can(sys, act) && c in sys.peers && !act.Handle? && !act.Restart? && act.c != c
    ensures SameParts(sys, Do(sys, act), c)
  {
  }

  lemma {:induction false} ClientSideContinues(sys: System, act: Action, c: Conn)
    requires Can(sys, act) && c in sys.peers
    requires (act.ClientSends? || act.ClientSendsPlain? || act.ClientPolls?) && act.c == c
    ensures Continues(sys, Do(sys, act), c)
  {
    hide Continues;
    SamePartsContinue(sys, Do(sys, act), c);
  }

  lemma {:induction false} HandleIsOf(sys: System, c: Conn, env: Env)
    requires Can(sys, Handle(c, env))
    ensures c in sys.peers && sys.peers[c].inbox != []
  {
  }

  lemma {:induction false} HandlingContinues(sys: System, c: Conn, env: Env, d: Conn)
    requires Can(sys, Handle(c, env)) && d in sys.peers
    requires Inv(sys)
    ensures Continues(sys, Do(sys, Handle(c, env)), d)
  {
    HandleIsOf(sys, c, env);
    hide Can, Do, Serve, FreshMessage, EventOf, MutuallyInverse, Continues, PlainStream, ReliableStream, Adds,
      ItemsStored,
      NoReliable, Inv;
    InverseInInv(sys);
    HandledMessageIsFresh(sys, c);
    var added := ServeSendsOnlyStored(sys.server, EventOf(c, sys.peers[c].inbox[0]), env, d);
    HandleContinues(sys, c, env, d, added);
  }

  lemma {:induction false} InverseInInv(sys: System)
    requires Inv(sys)
    ensures MutuallyInverse(sys.server.presence)
    ensures sys.server.presence.users.Keys <= sys.peers.Keys
  {
    hide PeerGood, StoredGood, DeliveredGood, CustodyGood, OriginsGood, AllInOrder;
  }

  lemma {:induction false} StepContinues(sys: System, act: Action, c: Conn)
    requires Can(sys, act) && c in sys.peers && ConnectedIn(Do(sys, act), c)
    requires Inv(sys)
    ensures ConnectedIn(sys, c) && Continues(sys, Do(sys, act), c)
  {
    StaysDisconnected(sys, act, c);
    hide Inv, Continues, PeerGood;
    PeerParts(sys, c);
    if act.Handle? {
      HandlingContinues(sys, act.c, act.env, c);
    } else if act.c != c {
      ElsewhereSameParts(sys, act, c);
      SamePartsContinue(sys, Do(sys, act), c);
    } else {
      OwnStepContinues(sys, act, c);
    }
  }

  lemma {:induction false} StaysDisconnected(sys: System, act: Action, c: Conn)
    requires Can(sys, act) && c in sys.peers
    ensures c in Do(sys, act).peers
    ensures ConnectedIn(Do(sys, act), c) ==> ConnectedIn(sys, c) && !act.Restart?
    ensures ConnectedIn(Do(sys, act), c) && act.c == c ==>
      !act.Disconnect? && !act.Connect? && !(act.Flush? && Queue(sys.server.outbox, c)[0].CloseAndNotify?)
  {
    hide Serve, L.Do, L.Can;
  }

  lemma {:induction false} OwnStepContinues(sys: System, act: Action, c: Conn)
    requires !act.Restart? && !act.Connect? && !act.Disconnect? && !act.Handle? && act.c == c
    requires act.Flush? ==> Queue(sys.server.outbox, c) != [] && !Queue(sys.server.outbox, c)[0].CloseAndNotify?
    requires Can(sys, act) && PeerGood(sys, c)
    ensures Continues(sys, Do(sys, act), c)
  {
    hide PeerGood, Continues, SameParts;
    match act {
      case ClientReceives(_) => ClientReceivesContinues(sys, c);
      case ServerPings(_) => PingContinues(sys, c);
      case ServerPolls(_, order, nowMs) => PollContinues(sys, c, order, nowMs);
      case ServerReceives(_) => ServerReceivesContinues(sys, c);
      case Flush(_, nowMs) => FlushContinues(sys, c, nowMs);
      case ClientSends(_, _, _, _) => ClientSideContinues(sys, act, c);
      case ClientSendsPlain(_, _) => ClientSideContinues(sys, act, c);
      case ClientPolls(_, _, _) => ClientSideContinues(sys, act, c);
    }
  }

  lemma {:induction false} PingContinues(sys: System, c: Conn)
    requires Can(sys, ServerPings(c))
    ensures Continues(sys, Do(sys, ServerPings(c)), c)
  {
    hide Continues, Collect;
    RepliesContinue(sys, Do(sys, ServerPings(c)), c, [Ping]);
  }

  // ---- Whole runs ----

  lemma {:induction false} RunContinues(sys: System, acts: seq<Action>, c: Conn)
    requires CanRun(sys, acts) && c in sys.peers && ConnectedIn(Run(sys, acts), c)
    requires Inv(sys)
    ensures ConnectedIn(sys, c) && Continues(sys, Run(sys, acts), c)
    decreases |acts|
  {
    if acts != [] {
      hide Inv, Can, Do, Continues;
      var next := Do(sys, acts[0]);
      StillThere(sys, acts[0], c);
      DoKeepsInv(sys, acts[0]);
      RunContinues(next, acts[1..], c);
      StepContinues(sys, acts[0], c);
      ContinuesOn(sys, next, Run(next, acts[1..]), c);
    } else {
      SamePartsContinue(sys, sys, c);
    }
  }

  lemma {:induction false} ContinuesOn(a: System, b: System, d: System, c: Conn)
    requires Continues(a, b, c) && Continues(b, d, c)
    ensures Continues(a, d, c)
  {
    hide PlainStream, ReliableStream;
  }

  lemma {:induction false} StillThere(sys: System, act: Action, c: Conn)
    requires Can(sys, act) && c in sys.peers
    ensures c in Do(sys, act).peers
  {
    StaysDisconnected(sys, act, c);
  }

  /** The client has dispatched the very packet the request asks for. */
  predicate HasArrived(sys: System, c: Conn, item: Item)
    requires c in sys.peers
  {
    match item
    case Send(id, body) => Data(id, 0, body) in sys.peers[c].link.gotB
    case SendReliably(id, body) =>
      exists k :: 0 <= k < |NumberedGot(sys, c)| && NumberedGot(sys, c)[k] == Data(id, k + 1, body)
    case CloseAndNotify => false
  }

  /** It is in flight. */
  predicate InFlight(sys: System, c: Conn, item: Item)
    requires c in sys.peers
  {
    match item
    case Send(id, body) => Data(id, 0, body) in sys.peers[c].link.ab
    case SendReliably(id, body) =>
      exists i :: 0 <= i < |sys.peers[c].link.ab| && sys.peers[c].link.ab[i].Data?
        && Seq(sys.peers[c].link.ab[i]) > 0
        && sys.peers[c].link.ab[i].id == id && sys.peers[c].link.ab[i].body == body
    case CloseAndNotify => false
  }

  /** A request to the connection is carried out: it waits in the queue, or its packet is in flight or has been
      dispatched. Once nothing is queued or in flight it has been dispatched. */
  predicate Arrives(sys: System, c: Conn, item: Item) {
    c in sys.peers && (item in Queue(sys.server.outbox, c) || InFlight(sys, c, item) || HasArrived(sys, c, item))
  }

  lemma {:induction false} PlainArrives(sys: System, c: Conn, id: string, body: Body)
    requires c in sys.peers && Parcel(id, body) in PlainStream(sys, c)
    ensures Arrives(sys, c, Send(id, body))
  {
    hide Collect;
    var l, items, p := sys.peers[c].link, Queue(sys.server.outbox, c), Parcel(id, body);
    if p in Collect(l.gotB, PlainPacket) {
      var i := Collected(l.gotB, PlainPacket, p);
    } else if p in Collect(l.ab, PlainPacket) {
      var i := Collected(l.ab, PlainPacket, p);
    } else {
      var i := Collected(items, PlainItem, p);
    }
  }

  lemma {:induction false} SentIsDelivered(sys: System, c: Conn, k: nat)
    requires c in sys.peers && k < |sys.peers[c].link.sentA| && PeerGood(sys, c)
    ensures var l := sys.peers[c].link;
      && L.DeliveredOnceInOrder(l) && l.sentA[k].Data? && l.sentA[k].num == k + 1 && k + 1 < TWO_31
  {
    hide L.DeliveredOnceInOrder;
    L.SoundDelivers(sys.peers[c].link);
  }

  lemma {:induction false} ReliableArrives(sys: System, c: Conn, id: string, body: Body)
    requires c in sys.peers && Parcel(id, body) in ReliableStream(sys, c)
    requires PeerGood(sys, c)
    ensures Arrives(sys, c, SendReliably(id, body))
  {
    hide Collect, PeerGood, Numbered;
    var l, items, p := sys.peers[c].link, Queue(sys.server.outbox, c), Parcel(id, body);
    if p in Collect(l.sentA, AnyPacket) {
      var k := Collected(l.sentA, AnyPacket, p);
      SentIsDelivered(sys, c, k);
      if k < l.b.lastIn {
        assert NumberedGot(sys, c)[k] == Data(id, k + 1, body);
      } else {
        assert l.sentA[k] in l.ab;
        var i :| 0 <= i < |l.ab| && l.ab[i] == l.sentA[k];
        assert InFlight(sys, c, SendReliably(id, body));
      }
    } else {
      var i := Collected(items, ReliableItem, p);
    }
  }

  /** In every run, from any moment on, while a connection lasts nothing queued for it is lost, altered, repeated or
      overtaken: what has been dispatched, is in flight or is queued only grows at the end, for packets without a
      number and for those with one. So once nothing is queued or in flight the client has dispatched it all, in
      order. */
  lemma {:induction false} EverythingQueuedArrives(sys: System, acts: seq<Action>, more: seq<Action>, c: Conn)
    requires Initial(sys) && CanRun(sys, acts) && CanRun(Run(sys, acts), more)
    requires c in Run(sys, acts).peers && ConnectedIn(Run(Run(sys, acts), more), c)
    ensures var now, later := Run(sys, acts), Run(Run(sys, acts), more);
      && Continues(now, later, c)
      && (Queue(later.server.outbox, c) == [] && later.peers[c].link.ab == [] ==>
            && PlainStream(now, c) <= Collect(later.peers[c].link.gotB, PlainPacket)
            && ReliableStream(now, c) <= Collect(NumberedGot(later, c), AnyPacket))
  {
    hide CanRun, Run, Inv, Initial, Continues;
    RunIsInv(sys, acts);
    var now, later := Run(sys, acts), Run(Run(sys, acts), more);
    RunContinues(now, more, c);
    RunKeepsInv(now, more);
    PeerParts(later, c);
    if Queue(later.server.outbox, c) == [] && later.peers[c].link.ab == [] {
      AllHaveArrived(now, later, c);
    }
  }

  lemma {:induction false} AllHaveArrived(now: System, later: System, c: Conn)
    requires Continues(now, later, c)
    requires Queue(later.server.outbox, c) == [] && later.peers[c].link.ab == []
    requires PeerGood(later, c)
    ensures PlainStream(now, c) <= Collect(later.peers[c].link.gotB, PlainPacket)
    ensures ReliableStream(now, c) <= Collect(NumberedGot(later, c), AnyPacket)
  {
    hide PeerGood;
    var l := later.peers[c].link;
    assert Numbered(l.gotB) == l.sentA by {
      NothingInFlight(later, c);
    }
    hide Numbered;
    assert PlainStream(later, c) == Collect(l.gotB, PlainPacket);
    assert ReliableStream(later, c) == Collect(l.sentA, AnyPacket);
  }

  lemma {:induction false} NothingInFlight(sys: System, c: Conn)
    requires c in sys.peers && sys.peers[c].link.ab == [] && PeerGood(sys, c)
    ensures Numbered(sys.peers[c].link.gotB) == sys.peers[c].link.sentA
  {
    hide L.DeliveredOnceInOrder;
    L.SoundDelivers(sys.peers[c].link);
    hide PeerGood;
    assert L.DeliveredOnceInOrder(sys.peers[c].link) ==> Numbered(sys.peers[c].link.ab) == [];
  }

  // ---- What becomes of answers ----

  /** The moment in a run at which the server handles the next signal from `c`. */
  ghost predicate ServesAt(sys: System, acts: seq<Action>, c: Conn, env: Env, more: seq<Action>) {
    && Initial(sys) && CanRun(sys, acts) && Can(Run(sys, acts), Handle(c, env))
    && CanRun(Do(Run(sys, acts), Handle(c, env)), more)
  }

  /** The event served then, and the state at the end. */
  ghost function EventServed(sys: System, acts: seq<Action>, c: Conn, env: Env, more: seq<Action>): Event
    requires ServesAt(sys, acts, c, env, more)
  {
    EventOf(c, Run(sys, acts).peers[c].inbox[0])
  }

  ghost function RunThrough(sys: System, acts: seq<Action>, c: Conn, env: Env, more: seq<Action>): System
    requires ServesAt(sys, acts, c, env, more)
  {
    Run(Do(Run(sys, acts), Handle(c, env)), more)
  }

  /** The request is part of the connection's streams. */
  predicate Holds(sys: System, c: Conn, item: Item)
    requires c in sys.peers
  {
    match item
    case Send(id, body) => Parcel(id, body) in PlainStream(sys, c)
    case SendReliably(id, body) => Parcel(id, body) in ReliableStream(sys, c)
    case CloseAndNotify => false
  }

  lemma {:induction false} ServingHolds(
    sys: System, c: Conn, env: Env, d: Conn, added: seq<Item>, item: Item)
    requires Can(sys, Handle(c, env)) && d in sys.peers && item in added && !item.CloseAndNotify?
    requires Answers.Queues(sys.server, EventOf(c, sys.peers[c].inbox[0]), env, d, added)
    ensures d in Do(sys, Handle(c, env)).peers && Holds(Do(sys, Handle(c, env)), d, item)
  {
    HandleContinues(sys, c, env, d, added);
    hide Do, Can, Collect, Serve, PlainStream, ReliableStream;
    var i :| 0 <= i < |added| && added[i] == item;
    if item.Send? {
      IsCollected(added, PlainItem, i, Parcel(item.id, item.body));
    } else {
      IsCollected(added, ReliableItem, i, Parcel(item.id, item.body));
    }
  }

  lemma {:induction false} HeldArrives(sys: System, end: System, d: Conn, item: Item)
    requires d in sys.peers && Holds(sys, d, item) && Continues(sys, end, d)
    requires PeerGood(end, d)
    ensures Arrives(end, d, item)
  {
    hide PlainStream, ReliableStream, Arrives, PeerGood;
    if item.Send? {
      PlainArrives(end, d, item.id, item.body);
    } else {
      ReliableArrives(end, d, item.id, item.body);
    }
  }

  /** Whatever serving an event adds to a connection's queue is carried out there while the connection lasts. */
  lemma {:induction false} AnswerArrives(
    sys: System, acts: seq<Action>, c: Conn, env: Env, more: seq<Action>, d: Conn, added: seq<Item>, item: Item)
    requires ServesAt(sys, acts, c, env, more) && d in Run(sys, acts).peers && item in added
    requires Answers.Queues(Run(sys, acts).server, EventServed(sys, acts, c, env, more), env, d, added)
    requires !item.CloseAndNotify? && ConnectedIn(RunThrough(sys, acts, c, env, more), d)
    ensures Arrives(RunThrough(sys, acts, c, env, more), d, item)
  {
    hide Run, CanRun, Can, Do, Inv, Initial, Serve, Holds, Arrives, Continues, PeerGood;
    var before := Run(sys, acts);
    var after := Do(before, Handle(c, env));
    RunIsInv(sys, acts);
    ServingHolds(before, c, env, d, added, item);
    DoKeepsInv(before, Handle(c, env));
    RunContinues(after, more, d);
    RunKeepsInv(after, more);
    PeerParts(Run(after, more), d);
    HeldArrives(after, Run(after, more), d, item);
  }

  /** Serving this event stores a public message, or marks a private one delivered because of an ack. */
  ghost predicate StoresPublicly(sys: System, acts: seq<Action>, c: Conn, env: Env, more: seq<Action>, id: string)
    requires ServesAt(sys, acts, c, env, more)
  {
    && id !in Run(sys, acts).server.broadcasts
    && id in Serve(Run(sys, acts).server, EventServed(sys, acts, c, env, more), env).broadcasts
  }

  ghost predicate DeliversByAck(sys: System, acts: seq<Action>, c: Conn, env: Env, more: seq<Action>, id: string)
    requires ServesAt(sys, acts, c, env, more)
  {
    var e := EventServed(sys, acts, c, env, more);
    && e.Acknowledged? && !IsDelivered(Run(sys, acts).server, id)
    && IsDelivered(Serve(Run(sys, acts).server, e, env), id)
  }

  lemma {:induction false} OnlineIsConnection(sys: System, v: string)
    requires v in sys.server.presence.online
    requires Inv(sys)
    ensures sys.server.presence.online[v] in sys.peers
  {
    InverseInInv(sys);
    hide Inv;
  }

  /** In every run, when a public message is stored, a packet with exactly the stored message arrives at every user
      then online, on the connection the user is then on, while it lasts. */
  lemma {:induction false} PublicArrivesEverywhere(
    sys: System, acts: seq<Action>, c: Conn, env: Env, more: seq<Action>, id: string, v: string)
    requires ServesAt(sys, acts, c, env, more) && StoresPublicly(sys, acts, c, env, more, id)
    requires v in Run(sys, acts).server.presence.online
    requires ConnectedIn(RunThrough(sys, acts, c, env, more), Run(sys, acts).server.presence.online[v])
    ensures var s := Run(sys, acts).server;
      var b := Serve(s, EventServed(sys, acts, c, env, more), env).broadcasts[id];
      Arrives(RunThrough(sys, acts, c, env, more), s.presence.online[v],
              SendReliably(id, Public(b.sender, b.text, b.createdAt)))
  {
    hide Run, CanRun, Inv, Initial, Serve, Arrives, RunThrough;
    var before, e := Run(sys, acts), EventServed(sys, acts, c, env, more);
    var s, d := before.server, before.server.presence.online[v];
    RunIsInv(sys, acts);
    OnlineIsConnection(before, v);
    HandleIsOf(before, c, env);
    HandledMessageIsFresh(before, c);
    hide Can, EventOf;
    PublicGoesOut(s, e, env, id, v);
    var b := Serve(s, e, env).broadcasts[id];
    var item := SendReliably(id, Public(b.sender, b.text, b.createdAt));
    AnswerArrives(sys, acts, c, env, more, d, [item], item);
  }

  lemma {:induction false} PublicGoesOut(s: ServerState, e: Event, env: Env, id: string, v: string)
    requires FreshMessage(s, e) && id !in s.broadcasts && id in Serve(s, e, env).broadcasts && v in s.presence.online
    ensures var b := Serve(s, e, env).broadcasts[id];
      Answers.Queues(s, e, env, s.presence.online[v], [SendReliably(id, Public(b.sender, b.text, b.createdAt))])
  {
    hide Serve, FreshMessage, Answers.Queues;
    StoredByItsSender(s, e, env, id);
    var u, d := UserOf(s.presence, e.c), s.presence.online[v];
    var text := e.body.text;
    Answers.PublicReachesEverybody(s, e.c, u, id, text, env, d);
    assert Answers.IsOnline(s, d);
    FreshIsNew(s, e);
  }

  lemma {:induction false} FreshIsNew(s: ServerState, e: Event)
    requires FreshMessage(s, e) && e.Packet? && e.body.SendPublic?
    ensures e.id !in s.broadcasts
  {
  }

  /** In every run, when a message becomes delivered by an ack while its sender is online, a "delivered" notice for
      it arrives at the sender, on the connection the sender is then on, while it lasts. */
  lemma {:induction false} DeliveredNoticeArrives(
    sys: System, acts: seq<Action>, c: Conn, env: Env, more: seq<Action>, id: string)
    requires ServesAt(sys, acts, c, env, more) && DeliversByAck(sys, acts, c, env, more, id)
    requires id in Run(sys, acts).server.messages
    requires var s := Run(sys, acts).server;
      && s.messages[id].sender in s.presence.online
      && ConnectedIn(RunThrough(sys, acts, c, env, more), s.presence.online[s.messages[id].sender])
    ensures var s := Run(sys, acts).server;
      var r := s.messages[id];
      Arrives(RunThrough(sys, acts, c, env, more), s.presence.online[r.sender],
              Send(id, DeliveredNote(r.recipient, r.createdAt)))
  {
    hide Run, CanRun, Inv, Initial, Serve, Arrives, RunThrough, Dispatched;
    var before, e := Run(sys, acts), EventServed(sys, acts, c, env, more);
    var s := before.server;
    var r := s.messages[id];
    RunIsInv(sys, acts);
    OnlineIsConnection(before, r.sender);
    HandleIsOf(before, c, env);
    HandledMessageIsFresh(before, c);
    AckedIsDispatched(before, c);
    DeliveredExactlyBy(s, e, env, id);
    hide Can;
    var item := Send(id, DeliveredNote(r.recipient, r.createdAt));
    NoticeGoesOut(s, e, env, id);
    AnswerArrives(sys, acts, c, env, more, s.presence.online[r.sender], [item], item);
  }

  lemma {:induction false} NoticeGoesOut(s: ServerState, e: Event, env: Env, id: string)
    requires AcksPrivate(e, id) && id in s.messages && e.body == PrivateBody(s.messages[id])
    requires s.messages[id].sender in s.presence.online
    ensures var r := s.messages[id];
      Answers.Queues(s, e, env, s.presence.online[r.sender], [Send(id, DeliveredNote(r.recipient, r.createdAt))])
  {
    hide Serve, Answers.Queues;
    Answers.AckedTellsTheSender(s, e.c, id, e.body, env, s.presence.online[s.messages[id].sender]);
  }

  /** In every run, when a read receipt is served that names a user who is online, a "read" notice with the reader's
      name arrives at that user, on the connection the user is then on, while it lasts. */
  lemma {:induction false} ReadNoticeArrives(
    sys: System, acts: seq<Action>, c: Conn, env: Env, more: seq<Action>)
    requires ServesAt(sys, acts, c, env, more)
    requires ServesReceipt(Run(sys, acts).server, EventServed(sys, acts, c, env, more), env)
    requires var s, e := Run(sys, acts).server, EventServed(sys, acts, c, env, more);
      && e.body.recipient in s.presence.online
      && ConnectedIn(RunThrough(sys, acts, c, env, more), s.presence.online[e.body.recipient])
    ensures var s, e := Run(sys, acts).server, EventServed(sys, acts, c, env, more);
      Arrives(RunThrough(sys, acts, c, env, more), s.presence.online[e.body.recipient],
              Send(e.id, ReadNote(UserOf(s.presence, e.c))))
  {
    hide Run, CanRun, Inv, Initial, Serve, Arrives, RunThrough, Can, EventOf;
    var before, e := Run(sys, acts), EventServed(sys, acts, c, env, more);
    var s := before.server;
    RunIsInv(sys, acts);
    OnlineIsConnection(before, e.body.recipient);
    var d, item := s.presence.online[e.body.recipient], Send(e.id, ReadNote(UserOf(s.presence, e.c)));
    Answers.ReceiptTellsTheNamed(s, e.c, UserOf(s.presence, e.c), e.id, e.body.recipient, env, d);
    AnswerArrives(sys, acts, c, env, more, d, [item], item);
  }
}
