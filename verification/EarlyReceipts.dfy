/** A run in which a message is marked delivered and read before its recipient has got it, so that it is not sent
    when the recipient signs in: anybody's receipt is believed. */
module EarlyReceipts {
  import opened MessageTable
  import opened Protocol
  import opened ServerLogic
  import opened ServerEffects
  import opened Endpoints
  import opened Delivery
  import opened Receipts
  import L = Links

  /** The connection is open and the server has handled everything sent on it. */
  predicate Idle(sys: System, c: Conn) {
    && c in sys.peers && sys.peers[c].connected && sys.peers[c].alive
    && sys.peers[c].inbox == [] && sys.peers[c].link.ba == []
  }

  /** The server has served one packet sent on an idle connection, which is idle again. */
  ghost predicate Said(sys: System, next: System, c: Conn, e: Event, env: Env) {
    && Idle(next, c) && c in sys.peers && next.peers.Keys == sys.peers.Keys
    && next.server == Serve(sys.server, e, env) && next.clock == env.nowMs
    && (forall d | d in sys.peers && d != c :: next.peers[d] == sys.peers[d])
    && next.peers[c].link.sentA == sys.peers[c].link.sentA
    && next.peers[c].link.b.lastIn == sys.peers[c].link.b.lastIn
    && next.peers[c].hosted == sys.peers[c].hosted + HostedNow(next.server, c)
  }

  // ---- Runs ----

  lemma {:induction false} RunOfOne(sys: System, a: Action)
    requires Can(sys, a)
    ensures CanRun(sys, [a]) && Run(sys, [a]) == Do(sys, a)
  {
    hide Can, Do;
    assert [a][1..] == [];
  }

  lemma {:induction false} RunAppends(sys: System, first: seq<Action>, second: seq<Action>)
    requires CanRun(sys, first) && CanRun(Run(sys, first), second)
    ensures CanRun(sys, first + second) && Run(sys, first + second) == Run(Run(sys, first), second)
    decreases |first|
  {
    if first == [] {
      assert first + second == second;
    } else {
      hide Can, Do;
      assert (first + second)[1..] == first[1..] + second;
      RunAppends(Do(sys, first[0]), first[1..], second);
    }
  }

  // ---- A client says something and the server handles it ----

  lemma {:induction false} PlainArrives(l: L.Link<Body>, id: string, body: Body)
    requires l.ba == []
    ensures var packet := Data(id, 0, body);
      var sent := L.Mirror(L.Do(L.Mirror(l), L.SendPlain(packet)));
      && sent == l.(ba := [packet]) && Receive(l.a, packet) == Reaction(l.a, [], [packet], [])
  {
  }

  lemma {:induction false} MessageArrives(l: L.Link<Body>, id: string, body: Body, nowMs: int)
    requires l.ba == [] && id != "" && l.b.nextOut == l.a.lastIn == 0
    ensures var packet := Data(id, 1, body);
      var send := L.SendTracked(id, body, nowMs);
      && L.Can(L.Mirror(l), send)
      && var sent := L.Mirror(L.Do(L.Mirror(l), send));
      && sent == l.(b := sent.b, ba := [packet], sentB := sent.sentB) && sent.b.lastIn == l.b.lastIn
      && Receive(l.a, packet) == Reaction(l.a.(lastIn := 1), [Ack(id, 1)], [packet], [])
  {
  }

  lemma {:induction false} SignalOfPacket(
    e: Endpoint<Body>, replies: seq<Protocol.Packet<Body>>, packet: Protocol.Packet<Body>)
    ensures SignalsOf(Reaction(e, replies, [packet], [])) == [PacketReceived(packet)]
  {
  }

  /** A packet sent alone arrives and is handled, whatever else the system is doing. */
  lemma {:induction false} Arrives(sys: System, sent: System, c: Conn, packet: Protocol.Packet<Body>, env: Env)
    returns (acts: seq<Action>)
    requires Idle(sys, c) && sys.clock <= env.nowMs && packet.Data?
    requires c in sent.peers && sent == sys.(peers := sys.peers[c := sent.peers[c]], origin := sent.origin)
    requires sent.peers[c] == sys.peers[c].(link := sent.peers[c].link)
    requires var l := sent.peers[c].link;
      && l.ba == [packet] && Receive(l.a, packet).dispatched == [packet] && Receive(l.a, packet).acknowledged == []
      && l.sentA == sys.peers[c].link.sentA && l.b.lastIn == sys.peers[c].link.b.lastIn
    ensures CanRun(sent, acts) && Run(sent, acts).origin == sent.origin
    ensures Said(sys, Run(sent, acts), c, Event.Packet(c, packet.id, packet.body), env)
    ensures var l := sent.peers[c].link;
      Run(sent, acts).peers[c].link.a == Receive(l.a, packet).after && Run(sent, acts).peers[c].link.b == l.b
  {
    hide Serve, Receive;
    var l := sent.peers[c].link;
    var got := Do(sent, ServerReceives(c));
    SignalOfPacket(Receive(l.a, packet).after, Receive(l.a, packet).replies, packet);
    assert got.peers[c].inbox == [PacketReceived(packet)];
    var end := Do(got, Handle(c, env));
    assert [PacketReceived(packet)][1..] == [];
    acts := [ServerReceives(c), Handle(c, env)];
    RunOfOne(got, Handle(c, env));
    assert acts[1..] == [Handle(c, env)];
    hide Can, Do;
    assert Run(sent, acts) == end;
  }

  lemma {:induction false} Says(sys: System, c: Conn, id: string, body: Body, env: Env) returns (acts: seq<Action>)
    requires Idle(sys, c) && sys.clock <= env.nowMs && !IsMessage(body)
    ensures CanRun(sys, acts) && Said(sys, Run(sys, acts), c, Event.Packet(c, id, body), env)
    ensures var next := Run(sys, acts);
      && next.origin == sys.origin
      && next.peers[c].link.a == sys.peers[c].link.a && next.peers[c].link.b == sys.peers[c].link.b
  {
    hide Serve, Receive, Said, Run, CanRun;
    var packet := Data(id, 0, body);
    var act := ClientSendsPlain(c, packet);
    PlainArrives(sys.peers[c].link, id, body);
    var sent := Do(sys, act);
    var rest := Arrives(sys, sent, c, packet, env);
    acts := [act] + rest;
    RunOfOne(sys, act);
    RunAppends(sys, [act], rest);
  }

  lemma {:induction false} SaysMessage(sys: System, c: Conn, id: string, body: Body, env: Env)
    returns (acts: seq<Action>)
    requires Idle(sys, c) && sys.clock <= env.nowMs && IsMessage(body) && id !in sys.origin && id != ""
    requires sys.peers[c].link.b.nextOut == sys.peers[c].link.a.lastIn == 0
    ensures CanRun(sys, acts) && Said(sys, Run(sys, acts), c, Event.Packet(c, id, body), env)
  {
    hide Serve, Receive, Said, Run, CanRun;
    var packet := Data(id, 1, body);
    var act := ClientSends(c, id, body, env.nowMs);
    MessageArrives(sys.peers[c].link, id, body, env.nowMs);
    var sent := Do(sys, act);
    var rest := Arrives(sys, sent, c, packet, env);
    acts := [act] + rest;
    RunOfOne(sys, act);
    RunAppends(sys, [act], rest);
  }

  // ---- Anybody's receipt ----

  lemma {:induction false} NothingDispatched(sys: System, next: System, c: Conn, e: Event, env: Env, id: string)
    requires Said(sys, next, c, e, env) && ServesReceipt(sys.server, e, env) && PeerGood(sys, c)
    requires id in sys.server.messages && id in next.server.messages
    requires PrivateBody(next.server.messages[id]) == PrivateBody(sys.server.messages[id])
    requires !Dispatched(sys.peers, id, sys.server.messages[id])
    ensures !Dispatched(next.peers, id, next.server.messages[id])
  {
    ReceiptKeepsPresence(sys.server, e, env);
    HostedHere(sys, c);
    hide Serve, PeerGood;
    var r, r' := sys.server.messages[id], next.server.messages[id];
    forall d | d in next.peers ensures DispatchedOn(next.peers[d], id, r') ==> DispatchedOn(sys.peers[d], id, r) {
    }
  }

  lemma {:induction false} ReceiptMarks(s: ServerState, e: Event, env: Env)
    requires ServesReceipt(s, e, env) && e.id in s.messages
    ensures var t := Serve(s, e, env);
      && IsRead(t, e.id) && IsDelivered(t, e.id) && PrivateBody(t.messages[e.id]) == PrivateBody(s.messages[e.id])
      && forall u :: e.id !in Pending(t.messages, u)
  {
    hide Serve;
    TablesAfter(s, e, env);
    forall u ensures e.id !in Pending(Serve(s, e, env).messages, u) {
      PendingIs(Serve(s, e, env).messages, u, e.id);
    }
  }

  /** Whoever is signed in on an idle connection can make the server count any stored message as delivered and
      read: it is then no longer pending for its recipient, whose client has not dispatched it. */
  lemma {:induction false} AnyonesReceiptDelivers(sys: System, c: Conn, id: string, recipient: string, env: Env)
    returns (acts: seq<Action>)
    requires Idle(sys, c) && sys.clock <= env.nowMs && env.allowed && UserOf(sys.server.presence, c) != ""
    requires id in sys.server.messages && !Dispatched(sys.peers, id, sys.server.messages[id])
    requires Inv(sys)
    ensures CanRun(sys, acts)
    ensures LostTo(Run(sys, acts), id, sys.server.messages[id].recipient)
    ensures Run(sys, acts).server.presence == sys.server.presence
  {
    hide Inv, Run, CanRun, Serve, PeerGood, Pending, Dispatched;
    PeerParts(sys, c);
    acts := Says(sys, c, id, ReadReceipt(recipient), env);
    var e := Event.Packet(c, id, ReadReceipt(recipient));
    ReceiptKeepsPresence(sys.server, e, env);
    ReceiptMarks(sys.server, e, env);
    NothingDispatched(sys, Run(sys, acts), c, e, env, id);
  }

  /** The message counts as delivered and read and is not pending for its recipient, though no client of that
      user has dispatched it. */
  ghost predicate LostTo(sys: System, id: string, recipient: string) {
    && id in sys.server.messages && sys.server.messages[id].recipient == recipient
    && IsDelivered(sys.server, id) && IsRead(sys.server, id) && id !in Pending(sys.server.messages, recipient)
    && !Dispatched(sys.peers, id, sys.server.messages[id])
  }

  lemma {:induction false} UnknownReceipt(s: ServerState, e: Event, env: Env)
    requires ServesReceipt(s, e, env) && e.id !in s.messages && e.body.recipient in s.presence.online
    ensures var t := Serve(s, e, env);
      && e.id !in t.messages
      && Send(e.id, ReadNote(UserOf(s.presence, e.c))) in Queue(t.outbox, s.presence.online[e.body.recipient])
  {
    var item, d := Send(e.id, ReadNote(UserOf(s.presence, e.c))), s.presence.online[e.body.recipient];
    PostAdds(s, d, item, d);
    hide Post;
    assert (Queue(s.outbox, d) + [item])[|Queue(s.outbox, d)|] == item;
  }

  /** Whoever is signed in on an idle connection can make the server tell any user online that a message was read
      which is not stored at all. */
  lemma {:induction false} ReadNoticeOfNothing(sys: System, c: Conn, id: string, recipient: string, env: Env)
    returns (acts: seq<Action>)
    requires Idle(sys, c) && sys.clock <= env.nowMs && env.allowed && UserOf(sys.server.presence, c) != ""
    requires id !in sys.server.messages && recipient in sys.server.presence.online
    ensures CanRun(sys, acts)
    ensures var next := Run(sys, acts);
      && id !in next.server.messages && next.server.presence == sys.server.presence
      && Send(id, ReadNote(UserOf(sys.server.presence, c)))
           in Queue(next.server.outbox, sys.server.presence.online[recipient])
  {
    hide Run, CanRun, Serve;
    acts := Says(sys, c, id, ReadReceipt(recipient), env);
    var e := Event.Packet(c, id, ReadReceipt(recipient));
    ReceiptKeepsPresence(sys.server, e, env);
    UnknownReceipt(sys.server, e, env);
  }

  // ---- A run from the first start ----

  /** Somebody who knows a password. */
  datatype User = User(name: string, password: string)

  lemma {:induction false} LoginAttaches(s: ServerState, c: Conn, u: User, env: Env)
    requires MayJoin(s, u, env) && MutuallyInverse(s.presence) && c !in s.presence.users
    ensures var t := SignIn(s, c, Login(u.name, u.password), env);
      && t.presence == Presence(s.presence.users[c := u.name], s.presence.online[u.name := c])
      && t.messages == s.messages && t.accounts.users == s.accounts.users
  {
    hide Finalize;
    SignInKeepsTables(s, c, Login(u.name, u.password), env);
  }

  lemma {:induction false} ConnectsIdle(sys: System, c: Conn) returns (acts: seq<Action>)
    requires c !in sys.peers
    ensures CanRun(sys, acts)
    ensures var next := Run(sys, acts);
      && Idle(next, c) && next.peers == sys.peers[c := NewPeer()] && next.origin == sys.origin
        && next.clock == sys.clock
      && next.server == sys.server.(outbox := next.server.outbox)
  {
    acts := [Connect(c)];
    RunOfOne(sys, Connect(c));
    hide Run, CanRun;
  }

  /** The user is registered with this password and not online. */
  predicate MayJoin(s: ServerState, u: User, env: Env) {
    && env.allowed && u.name != "" && u.name in s.accounts.users && u.name !in s.presence.online
    && env.verifies(u.password, s.accounts.users[u.name])
  }

  /** The client on `c` has connected and signed in as `u`, and nothing else has happened. */
  ghost predicate Joined(sys: System, next: System, c: Conn, u: string) {
    && Idle(next, c) && next.origin == sys.origin
    && (forall d | d in next.peers :: d == c || (d in sys.peers && next.peers[d] == sys.peers[d]))
    && next.peers[c].link.sentA == [] && next.peers[c].link.b.nextOut == next.peers[c].link.a.lastIn == 0
    && next.server.presence == Presence(sys.server.presence.users[c := u], sys.server.presence.online[u := c])
    && next.server.messages == sys.server.messages && next.server.accounts.users == sys.server.accounts.users
  }

  lemma {:induction false} LogsIn(sys: System, before: System, c: Conn, u: User, env: Env) returns (acts: seq<Action>)
    requires c !in sys.peers && sys.clock <= env.nowMs && MayJoin(sys.server, u, env)
    requires Idle(before, c) && before.peers == sys.peers[c := NewPeer()] && before.origin == sys.origin
    requires before.clock == sys.clock && before.server == sys.server.(outbox := before.server.outbox)
    requires MutuallyInverse(sys.server.presence) && c !in sys.server.presence.users
    ensures CanRun(before, acts) && Joined(sys, Run(before, acts), c, u.name) && Run(before, acts).clock == env.nowMs
  {
    hide Run, CanRun, SignIn, MutuallyInverse;
    acts := Says(before, c, "", Login(u.name, u.password), env);
    LoginAttaches(before.server, c, u, env);
  }

  /** A new client connects and signs in. */
  lemma {:induction false} JoinsAs(sys: System, c: Conn, u: User, env: Env) returns (acts: seq<Action>)
    requires c !in sys.peers && sys.clock <= env.nowMs && MayJoin(sys.server, u, env)
    requires Inv(sys)
    ensures CanRun(sys, acts) && Joined(sys, Run(sys, acts), c, u.name) && Run(sys, acts).clock == env.nowMs
    ensures Inv(Run(sys, acts))
  {
    hide Inv, Run, CanRun, SignIn, MutuallyInverse, Joined, MayJoin;
    UsersAreConnected(sys);
    var first := ConnectsIdle(sys, c);
    var rest := LogsIn(sys, Run(sys, first), c, u, env);
    RunAppends(sys, first, rest);
    acts := first + rest;
    RunKeepsInv(sys, acts);
  }

  lemma {:induction false} UsersAreConnected(sys: System)
    requires Inv(sys)
    ensures MutuallyInverse(sys.server.presence) && sys.server.presence.users.Keys <= sys.peers.Keys
  {
    hide PeerGood, StoredGood, DeliveredGood, CustodyGood, OriginsGood, MutuallyInverse;
  }

  /** A new private message from the user signed in on `c` to one who is not online is stored and waits. */
  lemma {:induction false} WritesTo(sys: System, c: Conn, id: string, recipient: string, text: string, env: Env)
    returns (acts: seq<Action>)
    requires Idle(sys, c) && sys.clock <= env.nowMs && env.allowed && env.textOk && id !in sys.origin && id != ""
    requires sys.peers[c].link.b.nextOut == sys.peers[c].link.a.lastIn == 0 && id !in sys.server.messages
    requires UserOf(sys.server.presence, c) !in {"", recipient} && recipient != ""
      && recipient in sys.server.accounts.users
    requires Inv(sys)
    ensures CanRun(sys, acts)
    ensures var next := Run(sys, acts);
      && Inv(next) && next.peers.Keys == sys.peers.Keys && next.clock == env.nowMs
      && (forall d | d in sys.peers :: next.peers[d].link.sentA == sys.peers[d].link.sentA)
      && next.server.presence == sys.server.presence && next.server.accounts == sys.server.accounts
      && id in next.server.messages && next.server.messages[id].recipient == recipient
  {
    hide Inv, Run, CanRun, Serve;
    acts := SaysMessage(sys, c, id, SendPrivate(recipient, text), env);
    var e := Event.Packet(c, id, SendPrivate(recipient, text));
    TablesAfter(sys.server, e, env);
    PrivateKeepsAccounts(sys.server, e, env);
    RunKeepsInv(sys, acts);
  }

  lemma {:induction false} PrivateKeepsAccounts(s: ServerState, e: Event, env: Env)
    requires e.Packet? && e.body.SendPrivate?
    ensures Serve(s, e, env).accounts == s.accounts && Serve(s, e, env).presence == s.presence
  {
    OtherPacketsKeepSessions(s, e.c, e.id, e.body, env);
    hide OnPacket;
  }

  lemma {:induction false} NothingSentNothingDispatched(peers: map<Conn, Peer>, id: string, r: Row)
    requires forall d | d in peers :: peers[d].link.sentA == []
    ensures !Dispatched(peers, id, r)
  {
  }

  /** From the first start, with any three users who may sign in: `ann` writes to `bob`, who is away, and `cat`
      sends a receipt for the message. It then counts as delivered and read and is not pending, so `bob` is not
      sent it when he signs in. */
  lemma {:induction false} StrangersReceipt(
    sys: System, ann: User, bob: string, cat: User, id: string, text: string, env: Env) returns (acts: seq<Action>)
    requires Initial(sys) && sys.clock <= env.nowMs && env.textOk && id != ""
    requires MayJoin(sys.server, ann, env) && MayJoin(sys.server, cat, env)
    requires bob != "" && bob in sys.server.accounts.users && ann.name != bob && ann.name != cat.name
    ensures CanRun(sys, acts) && LostTo(Run(sys, acts), id, bob)
    ensures Run(sys, acts).server.presence.users == map[0 := ann.name, 1 := cat.name]
  {
    InitialIsInv(sys);
    var first := JoinsAs(sys, 0, ann, env);
    var one := Run(sys, first);
    var rest := AfterAnnJoins(sys, one, ann, bob, cat, id, text, env);
    hide Inv, Run, CanRun, LostTo;
    RunAppends(sys, first, rest);
    acts := first + rest;
  }

  lemma {:induction false} AfterAnnJoins(
    sys: System, one: System, ann: User, bob: string, cat: User, id: string, text: string, env: Env)
    returns (acts: seq<Action>)
    requires Joined(sys, one, 0, ann.name) && one.clock == env.nowMs && env.textOk && id != ""
    requires sys.peers == map[] && sys.origin == map[] && sys.server.messages == map[]
    requires sys.server.presence == Presence(map[], map[])
    requires MayJoin(sys.server, ann, env) && MayJoin(sys.server, cat, env)
    requires bob != "" && bob in sys.server.accounts.users && ann.name != bob && ann.name != cat.name
    requires Inv(one)
    ensures CanRun(one, acts) && LostTo(Run(one, acts), id, bob)
    ensures Run(one, acts).server.presence.users == map[0 := ann.name, 1 := cat.name]
  {
    hide Inv, Run, CanRun, LostTo;
    var first := WritesTo(one, 0, id, bob, text, env);
    var two := Run(one, first);
    var rest := AfterAnnWrites(two, ann.name, bob, cat, id, env);
    RunAppends(one, first, rest);
    acts := first + rest;
  }

  lemma {:induction false} AfterAnnWrites(two: System, ann: string, bob: string, cat: User, id: string, env: Env)
    returns (acts: seq<Action>)
    requires two.peers.Keys == {0} && two.peers[0].link.sentA == [] && two.clock == env.nowMs
    requires two.server.presence == Presence(map[0 := ann], map[ann := 0]) && MayJoin(two.server, cat, env)
    requires id in two.server.messages && two.server.messages[id].recipient == bob
    requires Inv(two)
    ensures CanRun(two, acts) && LostTo(Run(two, acts), id, bob)
    ensures Run(two, acts).server.presence.users == map[0 := ann, 1 := cat.name]
  {
    hide Inv, Run, CanRun, LostTo, Dispatched;
    var first := JoinsAs(two, 1, cat, env);
    var three := Run(two, first);
    NothingSentNothingDispatched(three.peers, id, three.server.messages[id]);
    var rest := AnyonesReceiptDelivers(three, 1, id, ann, env);
    RunAppends(two, first, rest);
    acts := first + rest;
  }
}
