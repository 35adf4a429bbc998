/** Who is online and who is registered, over whole runs of the server, and that everyone online has been told who
    is. */
module Attendance {
  import opened Options
  import opened ServerLogic
  import opened Answers

  /** The state in which the server handles the i-th event. */
  ghost function Before(s: ServerState, es: seq<(Event, Env)>, i: nat): ServerState
    requires i <= |es|
  {
    ServeAll(s, es[..i])
  }

  lemma {:induction false} ServeAllAppend(s: ServerState, es: seq<(Event, Env)>, e: Event, env: Env)
    ensures ServeAll(s, es + [(e, env)]) == Serve(ServeAll(s, es), e, env)
    decreases |es|
  {
    hide Serve;
    var all := es + [(e, env)];
    if |es| == 0 {
      assert all == [(e, env)] && all[1..] == [];
    } else {
      assert all[0] == es[0] && all[1..] == es[1..] + [(e, env)];
      ServeAllAppend(Serve(s, es[0].0, es[0].1), es[1..], e, env);
    }
  }

  lemma {:induction false} ClockOfPrefix(es: seq<(Event, Env)>, since: int, i: nat)
    requires ClockOf(es, since) && i <= |es|
    ensures ClockOf(es[..i], since)
    decreases |es|
  {
    if i > 0 {
      assert es[..i][0] == es[0] && es[..i][1..] == es[1..][..i - 1];
      ClockOfPrefix(es[1..], es[0].1.nowMs, i - 1);
    }
  }

  lemma {:induction false} InverseBefore(s: ServerState, es: seq<(Event, Env)>, since: int, i: nat)
    requires Started(s) && ClockOf(es, since) && i <= |es|
    ensures MutuallyInverse(Before(s, es, i).presence)
  {
    ClockOfPrefix(es, since, i);
    EveryReachableStateIsGood(s, es[..i], since);
  }

  lemma {:induction false} LastStep(s: ServerState, es: seq<(Event, Env)>)
    requires |es| > 0
    ensures var n := |es| - 1; ServeAll(s, es) == Serve(Before(s, es, n), es[n].0, es[n].1)
  {
    var n := |es| - 1;
    assert es == es[..n] + [(es[n].0, es[n].1)];
    ServeAllAppend(s, es[..n], es[n].0, es[n].1);
  }

  lemma {:induction false} BeforePrefix(s: ServerState, es: seq<(Event, Env)>, i: nat, n: nat)
    requires i <= n <= |es|
    ensures Before(s, es[..n], i) == Before(s, es, i)
  {
    assert es[..n][..i] == es[..i];
  }

  // ---- Who is online ----

  /** The event signs `u` in on `c`. */
  predicate SignsIn(s: ServerState, e: Event, env: Env, c: Conn, u: string) {
    e.Packet? && e.c == c && IsSignIn(e.body) && e.body.username == u && Admits(s, c, e.body, env)
  }

  /** The event signs out whoever else is signed in on `c`: the connection ends, a packet there logs out, or somebody
      other than `u` signs in there. */
  predicate SignsOut(s: ServerState, e: Event, env: Env, c: Conn, u: string) {
    && e.c == c
    && (e.ConnectionClosed?
      || (e.Packet? && e.body.Logout?)
      || (e.Packet? && IsSignIn(e.body) && e.body.username != u && Admits(s, c, e.body, env)))
  }

  lemma {:induction false} StepSignsIn(s: ServerState, e: Event, env: Env, c: Conn, u: string)
    requires u != ""
    requires MutuallyInverse(s.presence)
    ensures SignedIn(Serve(s, e, env), c, u) <==>
      SignsIn(s, e, env, c, u) || (SignedIn(s, c, u) && !SignsOut(s, e, env, c, u))
  {
    hide Serve, MutuallyInverse, Admits;
    if e.ConnectionClosed? {
      ClosingAnswers(s, e.c, env, c);
    } else if e.Packet? && IsSignIn(e.body) {
      SignInAdmits(s, e.c, e.id, e.body, env);
    } else if e.Packet? && e.body.Logout? && SignedIn(s, e.c, UserOf(s.presence, e.c)) {
      LogOutAnswers(s, e.c, UserOf(s.presence, e.c), e.id, env, c);
    } else {
      OthersKeepPresence(s, e, env);
    }
  }

  lemma {:induction false} OthersKeepPresence(s: ServerState, e: Event, env: Env)
    requires !e.ConnectionClosed? && !(e.Packet? && IsSignIn(e.body))
    requires !(e.Packet? && e.body.Logout? && UserOf(s.presence, e.c) != "")
    ensures Serve(s, e, env).presence == s.presence && Serve(s, e, env).accounts == s.accounts
  {
    hide OnPacket;
    if e.Packet? {
      OtherPacketsKeepSessions(s, e.c, e.id, e.body, env);
    }
  }

  /** The i-th event of a run signs `u` in on `c`, and no later one signs `u` out there. */
  ghost predicate SignedInSince(s: ServerState, es: seq<(Event, Env)>, c: Conn, u: string, i: nat) {
    && i < |es| && SignsIn(Before(s, es, i), es[i].0, es[i].1, c, u)
    && forall j | i < j < |es| :: !SignsOut(Before(s, es, j), es[j].0, es[j].1, c, u)
  }

  /** In every run of a started server, a user is signed in on a connection exactly if some event signed the user in
      there and none has since signed the user out. */
  lemma {:induction false} SignedInIff(s: ServerState, es: seq<(Event, Env)>, since: int, c: Conn, u: string)
    requires Started(s) && ClockOf(es, since) && u != ""
    ensures SignedIn(ServeAll(s, es), c, u) <==> exists i :: SignedInSince(s, es, c, u, i)
    decreases |es|
  {
    if |es| != 0 {
      hide Started, ServeAll, SignsIn, SignsOut, SignedIn, MutuallyInverse;
      var n := |es| - 1;
      InverseBefore(s, es, since, n);
      ClockOfPrefix(es, since, n);
      SignedInIff(s, es[..n], since, c, u);
      LastStep(s, es);
      StepSignsIn(Before(s, es, n), es[n].0, es[n].1, c, u);
      SinceOneMore(s, es, c, u);
    }
  }

  lemma {:induction false} SinceOneMore(s: ServerState, es: seq<(Event, Env)>, c: Conn, u: string)
    requires |es| > 0
    ensures var n := |es| - 1;
      (exists i :: SignedInSince(s, es, c, u, i)) <==>
        || SignsIn(Before(s, es, n), es[n].0, es[n].1, c, u)
        || ((exists i :: SignedInSince(s, es[..n], c, u, i))
            && !SignsOut(Before(s, es, n), es[n].0, es[n].1, c, u))
  {
    hide SignsIn, SignsOut, Before;
    var n := |es| - 1;
    forall i: nat | i < n ensures Before(s, es[..n], i) == Before(s, es, i) {
      BeforePrefix(s, es, i, n);
    }
    if exists i :: SignedInSince(s, es, c, u, i) {
      var i: nat :| SignedInSince(s, es, c, u, i);
      if i < n {
        assert SignedInSince(s, es[..n], c, u, i);
      }
    }
    if SignsIn(Before(s, es, n), es[n].0, es[n].1, c, u) {
      assert SignedInSince(s, es, c, u, n);
    } else if exists i :: SignedInSince(s, es[..n], c, u, i) {
      var i: nat :| SignedInSince(s, es[..n], c, u, i);
      if !SignsOut(Before(s, es, n), es[n].0, es[n].1, c, u) {
        assert SignedInSince(s, es, c, u, i);
      }
    }
  }

  // ---- Who is registered ----

  /** The i-th event of a run registers `u`. */
  ghost predicate RegisteredBy(s: ServerState, es: seq<(Event, Env)>, u: string, i: nat) {
    && i < |es| && es[i].0.Packet? && es[i].0.body.Register?
    && SignsIn(Before(s, es, i), es[i].0, es[i].1, es[i].0.c, u)
  }

  lemma {:induction false} StepRegisters(s: ServerState, e: Event, env: Env, u: string)
    requires MutuallyInverse(s.presence)
    ensures u in Serve(s, e, env).accounts.users <==>
      u in s.accounts.users || (e.Packet? && e.body.Register? && SignsIn(s, e, env, e.c, u))
  {
    hide Serve, MutuallyInverse, Admits;
    if e.ConnectionClosed? {
      ClosingAnswers(s, e.c, env, e.c);
    } else if e.Packet? && IsSignIn(e.body) {
      SignInAdmits(s, e.c, e.id, e.body, env);
    } else if e.Packet? && e.body.Logout? && SignedIn(s, e.c, UserOf(s.presence, e.c)) {
      LogOutAnswers(s, e.c, UserOf(s.presence, e.c), e.id, env, e.c);
    } else {
      OthersKeepPresence(s, e, env);
    }
  }

  /** In every run of a started server, a user is registered exactly if that was so at the start or some event
      registered the user: nobody is ever removed. */
  lemma {:induction false} RegisteredIff(s: ServerState, es: seq<(Event, Env)>, since: int, u: string)
    requires Started(s) && ClockOf(es, since)
    ensures u in ServeAll(s, es).accounts.users <==>
      u in s.accounts.users || exists i :: RegisteredBy(s, es, u, i)
    decreases |es|
  {
    if |es| != 0 {
      hide Started, ServeAll, SignsIn, MutuallyInverse, Before;
      var n := |es| - 1;
      InverseBefore(s, es, since, n);
      ClockOfPrefix(es, since, n);
      RegisteredIff(s, es[..n], since, u);
      LastStep(s, es);
      StepRegisters(Before(s, es, n), es[n].0, es[n].1, u);
      RegisteredOneMore(s, es, u);
    }
  }

  lemma {:induction false} RegisteredOneMore(s: ServerState, es: seq<(Event, Env)>, u: string)
    requires |es| > 0
    ensures var n := |es| - 1;
      (exists i :: RegisteredBy(s, es, u, i)) <==>
        || (exists i :: RegisteredBy(s, es[..n], u, i))
        || (es[n].0.Packet? && es[n].0.body.Register? && SignsIn(Before(s, es, n), es[n].0, es[n].1, es[n].0.c, u))
  {
    hide SignsIn, Before;
    var n := |es| - 1;
    forall i: nat | i < n ensures Before(s, es[..n], i) == Before(s, es, i) {
      BeforePrefix(s, es, i, n);
    }
    if exists i :: RegisteredBy(s, es, u, i) {
      var i: nat :| RegisteredBy(s, es, u, i);
      if i < n {
        assert RegisteredBy(s, es[..n], u, i);
      }
    }
    if exists i :: RegisteredBy(s, es[..n], u, i) {
      var i: nat :| RegisteredBy(s, es[..n], u, i);
      assert RegisteredBy(s, es, u, i);
    }
    if es[n].0.Packet? && es[n].0.body.Register? && SignsIn(Before(s, es, n), es[n].0, es[n].1, es[n].0.c, u) {
      assert RegisteredBy(s, es, u, n);
    }
  }

  // ---- What everyone online has been told ----

  predicate IsList(item: Item) { item.Send? && item.body.UserList? }

  /** The last list of online users in a queue. */
  function LastList(items: seq<Item>): Option<set<string>> {
    if items == [] then None
    else if IsList(items[|items| - 1]) then Some(items[|items| - 1].body.users)
    else LastList(items[..|items| - 1])
  }

  lemma {:induction false} LastListConcat(a: seq<Item>, b: seq<Item>)
    ensures LastList(a + b) == if LastList(b).Some? then LastList(b) else LastList(a)
  {
    if b == [] {
      assert a + b == a;
    } else {
      var n := |b| - 1;
      assert (a + b)[..|a + b| - 1] == a + b[..n];
      LastListConcat(a, b[..n]);
    }
  }

  predicate NoLists(items: seq<Item>) {
    forall i :: 0 <= i < |items| ==> !IsList(items[i])
  }

  lemma {:induction false} NoListsNoLast(items: seq<Item>)
    requires NoLists(items)
    ensures LastList(items) == None
  {
    if items != [] {
      NoListsNoLast(items[..|items| - 1]);
    }
  }

  lemma {:induction false} ListThenOthers(users: set<string>, before: seq<Item>, after: seq<Item>)
    requires NoLists(after)
    ensures LastList(before + [Send("", UserList(users))] + after) == Some(users)
  {
    var item := Send("", UserList(users));
    NoListsNoLast(after);
    LastListConcat(before + [item], after);
    LastListConcat(before, [item]);
  }

  /** Everyone online has last been told exactly who is online. */
  ghost predicate Told(s: ServerState) {
    forall d | IsOnline(s, d) :: LastList(Queue(s.outbox, d)) == Some(s.presence.online.Keys)
  }

  /** An event that signs nobody in or out sends no lists. */
  lemma {:induction false} OthersListNobody(s: ServerState, e: Event, env: Env, d: Conn) returns (added: seq<Item>)
    requires !e.ConnectionClosed? && !(e.Packet? && IsSignIn(e.body))
    requires !(e.Packet? && e.body.Logout? && UserOf(s.presence, e.c) != "")
    ensures Queues(s, e, env, d, added) && NoLists(added)
  {
    hide Serve, Admits, SignedIn, NewestOf, IsBetween, ShownPublic, ShownPrivate, Refusal;
    added := [];
    if e.Acknowledged? {
      AckedTellsTheSender(s, e.c, e.id, e.body, env, d);
      var told := e.body.Private? && e.id != "" && e.body.sender != "" && e.body.recipient != ""
        && IsWith(s, e.body.sender, d);
      added := if told then [Send(e.id, DeliveredNote(e.body.recipient, e.body.createdAt))] else [];
    } else {
      added := PacketsListNobody(s, e.c, e.id, e.body, env, d);
    }
  }

  lemma {:induction false} NothingQueued(s: ServerState, e: Event, env: Env, d: Conn)
    requires Serve(s, e, env) == s
    ensures Queues(s, e, env, d, [])
  {
  }

  lemma {:induction false} PacketsListNobody(s: ServerState, c: Conn, id: string, body: Body, env: Env, d: Conn)
    returns (added: seq<Item>)
    requires !IsSignIn(body) && !(body.Logout? && UserOf(s.presence, c) != "")
    ensures Queues(s, Packet(c, id, body), env, d, added) && NoLists(added)
  {
    var u := UserOf(s.presence, c);
    assert u == "" || SignedIn(s, c, u);
    hide Serve, SignedIn, NewestOf, IsBetween, ShownPublic, ShownPrivate, IsOnline, Accepts, Objection, Queues, UserOf;
    added := [];
    if u == "" {
      StrangersMustSignIn(s, c, id, body, env, d);
      added := if d == c then [Send("", AuthError(NotLoggedIn))] else [];
      return;
    }
    match body {
      case CheckUser(v) =>
        LookupTellsWhoIsThere(s, c, u, id, v, env, d);
        added := if d != c then []
                 else if !env.allowed then [Send("", Failure(RateLimited))]
                 else [Send("", UserCheckResult(v, v in s.accounts.users, v in s.presence.online))];
      case DialogsRequest =>
        var users := DialogsAreTheCorrespondents(s, c, u, id, env, d);
        added := if d == c then [Send("", DialogList(users))] else [];
      case HistoryRequest(chatUser, limit) =>
        var items := HistoryIsTheNewest(s, c, u, id, chatUser, limit, env, d);
        added := if d == c then [Send("", HistoryReply(chatUser, items))] else [];
      case SendPublic(_) => added := MessagesListNobody(s, c, u, id, body, env, d);
      case SendPrivate(_, _) => added := MessagesListNobody(s, c, u, id, body, env, d);
      case ReadReceipt(_) => added := MessagesListNobody(s, c, u, id, body, env, d);
      case _ =>
        OtherPacketsDoNothing(s, c, u, id, body, env);
        NothingQueued(s, Packet(c, id, body), env, d);
    }
  }

  lemma {:induction false} MessagesListNobody(
    s: ServerState, c: Conn, u: string, id: string, body: Body, env: Env, d: Conn)
    returns (added: seq<Item>)
    requires SignedIn(s, c, u) && (body.SendPublic? || body.SendPrivate? || body.ReadReceipt?)
    ensures Queues(s, Packet(c, id, body), env, d, added) && NoLists(added)
  {
    hide Serve, SignedIn, IsOnline, Accepts, Objection, Queues;
    if body.ReadReceipt? && !env.allowed {
      ReceiptTellsTheNamed(s, c, u, id, body.recipient, env, d);
      NothingQueued(s, Packet(c, id, body), env, d);
      added := [];
      return;
    }
    match body {
      case SendPublic(text) =>
        PublicReachesEverybody(s, c, u, id, text, env, d);
        added := if env.allowed && env.textOk
                 then if IsOnline(s, d) then [SendReliably(id, Public(u, text, env.nowMs))] else []
                 else if d == c then [Send(id, Failure(if env.allowed then BadText else RateLimited))] else [];
      case SendPrivate(recipient, text) =>
        PrivateIsStoredOrRefused(s, c, u, id, recipient, text, env, d);
        added := if Accepts(s, u, recipient, env) then
                   if recipient in s.presence.online
                   then if IsWith(s, recipient, d) then [SendReliably(id, Private(u, recipient, text, env.nowMs))]
                     else []
                   else if d == c then [Send(id, Queued(recipient, env.nowMs))] else []
                 else if d == c then [Send(id, Failure(Objection(u, recipient, env)))] else [];
      case ReadReceipt(recipient) =>
        ReceiptTellsTheNamed(s, c, u, id, recipient, env, d);
        added := if IsWith(s, recipient, d) then [Send(id, ReadNote(u))] else [];
    }
  }

  lemma {:induction false} ListReaches(s: ServerState, d: Conn, before: seq<Item>, after: seq<Item>)
    requires IsOnline(s, d) && NoLists(after) && Queue(s.outbox, d) == before + ListOnline(s, d) + after
    ensures LastList(Queue(s.outbox, d)) == Some(s.presence.online.Keys)
  {
    ListThenOthers(s.presence.online.Keys, before, after);
  }

  lemma {:induction false} SignInTells(s: ServerState, e: Event, env: Env, d: Conn)
    requires e.Packet? && IsSignIn(e.body) && Admits(s, e.c, e.body, env) && IsOnline(Serve(s, e, env), d)
    requires MutuallyInverse(s.presence)
    ensures LastList(Queue(Serve(s, e, env).outbox, d)) == Some(Serve(s, e, env).presence.online.Keys)
  {
    hide Serve, MutuallyInverse, Admits, IsOnline, LastList, SendsWaiting, Refusal, IsBetween;
    var t := Serve(s, e, env);
    var users, waiting := SignInAnswers(s, e.c, e.id, e.body, env, d);
    if d == e.c {
      WaitingAreNoLists(s, e.body.username, waiting);
      GreetingLists(Queue(s.outbox, d), Send("", AuthOk(e.body.username, env.newToken,
        env.nowMs + 7 * 24 * 3600 * 1000)), t.presence.online.Keys, users, waiting);
    } else {
      ListReaches(t, d, Queue(s.outbox, d), []);
    }
  }

  lemma {:induction false} GreetingLists(
    before: seq<Item>, ok: Item, online: set<string>, users: set<string>, waiting: seq<Item>)
    requires NoLists(waiting)
    ensures LastList(before + ([ok, Send("", UserList(online)), Send("", DialogList(users))] + waiting))
         == Some(online)
  {
    var list, rest := Send("", UserList(online)), [Send("", DialogList(users))] + waiting;
    ListThenOthers(online, before + [ok], rest);
    assert before + ([ok, list, Send("", DialogList(users))] + waiting) == before + [ok] + [list] + rest;
  }

  lemma {:induction false} WaitingAreNoLists(s: ServerState, u: string, items: seq<Item>)
    requires SendsWaiting(s, u, items)
    ensures NoLists(items)
  {
  }

  lemma {:induction false} LeavingTells(s: ServerState, e: Event, env: Env, d: Conn)
    requires e.ConnectionClosed? || (e.Packet? && e.body.Logout? && UserOf(s.presence, e.c) != "")
    requires IsOnline(Serve(s, e, env), d)
    ensures LastList(Queue(Serve(s, e, env).outbox, d)) == Some(Serve(s, e, env).presence.online.Keys)
  {
    hide Serve, IsOnline, LastList;
    var t := Serve(s, e, env);
    if e.ConnectionClosed? {
      ClosingAnswers(s, e.c, env, d);
      ListReaches(t, d, Queue(s.outbox, d), []);
    } else {
      LogOutAnswers(s, e.c, UserOf(s.presence, e.c), e.id, env, d);
      var closing := if d == e.c then [CloseAndNotify] else [];
      ListReaches(t, d, Queue(s.outbox, d), closing);
    }
  }

  lemma {:induction false} OthersKeepTold(s: ServerState, t: ServerState, d: Conn, added: seq<Item>)
    requires LastList(Queue(s.outbox, d)) == Some(s.presence.online.Keys) && t.presence == s.presence
    requires Queue(t.outbox, d) == Queue(s.outbox, d) + added && NoLists(added)
    ensures LastList(Queue(t.outbox, d)) == Some(t.presence.online.Keys)
  {
    NoListsNoLast(added);
    LastListConcat(Queue(s.outbox, d), added);
  }

  lemma {:induction false} StepTells(s: ServerState, e: Event, env: Env)
    requires Told(s)
    requires MutuallyInverse(s.presence)
    ensures Told(Serve(s, e, env))
  {
    hide Serve, MutuallyInverse, Admits, LastList, IsSignIn, Refusal, SendsWaiting, IsBetween, TakesOver, Issues,
      NoLists;
    var t := Serve(s, e, env);
    forall d | IsOnline(t, d) ensures LastList(Queue(t.outbox, d)) == Some(t.presence.online.Keys) {
      if e.ConnectionClosed? || (e.Packet? && e.body.Logout? && UserOf(s.presence, e.c) != "") {
        LeavingTells(s, e, env, d);
      } else if e.Packet? && IsSignIn(e.body) {
        if Admits(s, e.c, e.body, env) {
          SignInTells(s, e, env, d);
        } else {
          SignInAdmits(s, e.c, e.id, e.body, env);
          var users, waiting := SignInAnswers(s, e.c, e.id, e.body, env, d);
          var added := if d == e.c then [Send("", Refusal(s, e.c, e.body, env))] else [];
          RefusalIsNoList(s, e.c, e.body, env, d);
          OthersKeepTold(s, t, d, added);
        }
      } else {
        OthersKeepPresence(s, e, env);
        var added := OthersListNobody(s, e, env, d);
        OthersKeepTold(s, t, d, added);
      }
    }
  }

  lemma {:induction false} RefusalIsNoList(s: ServerState, c: Conn, body: Body, env: Env, d: Conn)
    requires IsSignIn(body)
    ensures NoLists(if d == c then [Send("", Refusal(s, c, body, env))] else [])
  {
    hide WellNamed;
  }

  /** In every run of a started server, the last list of online users sent to each connection on which somebody is
      online names exactly those who are. */
  lemma {:induction false} EverybodyKnowsWhoIsOnline(s: ServerState, es: seq<(Event, Env)>, since: int, d: Conn)
    requires Started(s) && ClockOf(es, since)
    requires IsOnline(ServeAll(s, es), d)
    ensures LastList(Queue(ServeAll(s, es).outbox, d)) == Some(ServeAll(s, es).presence.online.Keys)
  {
    RunTells(s, es, since);
  }

  lemma {:induction false} RunTells(s: ServerState, es: seq<(Event, Env)>, since: int)
    requires Started(s) && ClockOf(es, since)
    ensures Told(ServeAll(s, es))
    decreases |es|
  {
    if |es| != 0 {
      var n := |es| - 1;
      InverseBefore(s, es, since, n);
      ClockOfPrefix(es, since, n);
      hide Started, ServeAll, MutuallyInverse, Told;
      RunTells(s, es[..n], since);
      LastStep(s, es);
      StepTells(Before(s, es, n), es[n].0, es[n].1);
    }
  }
}
