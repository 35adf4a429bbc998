/** What the server answers each kind of packet with, and what it writes down, in terms of the tables, the queues and
    who is online (Server/server.cpp:223-527, 676-722, 773-848). Where nothing is said of a connection's queue it
    stays as it is. */
module Answers {
  import opened Options
  import opened IdOrder
  import opened MessageTable
  import opened ServerLogic
  import opened ServerEffects

  /** Some user is online on this connection. */
  predicate IsOnline(s: ServerState, d: Conn) {
    exists u :: u in s.presence.online && s.presence.online[u] == d
  }

  /** The user `v` is online on this connection. */
  predicate IsWith(s: ServerState, v: string, d: Conn) {
    v in s.presence.online && s.presence.online[v] == d
  }

  /** The event adds exactly these items to the queue of `d`. */
  ghost predicate Queues(s: ServerState, e: Event, env: Env, d: Conn, items: seq<Item>) {
    Queue(Serve(s, e, env).outbox, d) == Queue(s.outbox, d) + items
  }

  /** `u` is signed in on `c`. */
  predicate SignedIn(s: ServerState, c: Conn, u: string) {
    u != "" && c in s.presence.users && s.presence.users[c] == u
  }

  // ---- Messages ----

  /** A public message that is let through is stored, with the time now or that of the message stored before under
      its id, and sent reliably to the connection of every online user and to no other. One that is not is stored
      nowhere, and its sender alone is told. */
  lemma {:induction false} PublicReachesEverybody(
    s: ServerState, c: Conn, u: string, id: string, text: string, env: Env, d: Conn)
    requires SignedIn(s, c, u)
    ensures var e := Packet(c, id, SendPublic(text));
      if env.allowed && env.textOk then
        && Serve(s, e, env).broadcasts == s.broadcasts[id :=
             Broadcast(u, text, if id in s.broadcasts then s.broadcasts[id].createdAt else env.nowMs)]
        && Queues(s, e, env, d, if IsOnline(s, d) then [SendReliably(id, Public(u, text, env.nowMs))] else [])
      else
        && Serve(s, e, env).broadcasts == s.broadcasts
        && Queues(s, e, env, d, if d == c then [Send(id, Failure(if env.allowed then BadText else RateLimited))]
          else [])
  {
    hide SignIn, LogOut;
  }

  /** Whether a private message is let through. */
  predicate Accepts(s: ServerState, u: string, recipient: string, env: Env) {
    env.allowed && recipient != "" && recipient != u && env.textOk && recipient in s.accounts.users
  }

  /** Why one is not: the first reason that applies. */
  function Objection(u: string, recipient: string, env: Env): Reason {
    if !env.allowed then RateLimited
    else if recipient == "" || recipient == u then ToYourself
    else if !env.textOk then BadText
    else UserNotFound
  }

  /** A private message is either refused, which its sender alone is told and which changes no table, or stored, with
      the time now or all the times of the message stored before under its id; then it is sent reliably to the
      recipient's connection if the recipient is online, and otherwise its sender is told that it waits. */
  lemma {:induction false} PrivateIsStoredOrRefused(
    s: ServerState, c: Conn, u: string, id: string, recipient: string, text: string, env: Env, d: Conn)
    requires SignedIn(s, c, u)
    ensures var e := Packet(c, id, SendPrivate(recipient, text));
      if Accepts(s, u, recipient, env) then
        && (id !in s.messages ==>
              Serve(s, e, env).messages == s.messages[id := Row(u, recipient, text, env.nowMs, None, None)])
        && (id in s.messages ==>
              var r := s.messages[id];
              Serve(s, e, env).messages ==
                s.messages[id := Row(u, recipient, text, r.createdAt, r.deliveredAt, r.readAt)])
        && Queues(s, e, env, d,
             if recipient in s.presence.online
             then if IsWith(s, recipient, d) then [SendReliably(id, Private(u, recipient, text, env.nowMs))] else []
             else if d == c then [Send(id, Queued(recipient, env.nowMs))] else [])
      else
        && Serve(s, e, env).messages == s.messages
        && Queues(s, e, env, d, if d == c then [Send(id, Failure(Objection(u, recipient, env)))] else [])
  {
    hide SignIn, LogOut, Post;
    var e := Packet(c, id, SendPrivate(recipient, text));
    if Accepts(s, u, recipient, env) {
      var stored := s.(messages := Store(s.messages, id, u, recipient, text, env.nowMs));
      if recipient in s.presence.online {
        PostAdds(stored, s.presence.online[recipient], SendReliably(id, Private(u, recipient, text, env.nowMs)), d);
      } else {
        PostAdds(stored, c, Send(id, Queued(recipient, env.nowMs)), d);
      }
    } else {
      PostAdds(s, c, Send(id, Failure(Objection(u, recipient, env))), d);
    }
  }

  /** When a client acknowledges a private packet, a stored message of that id not yet delivered is marked delivered
      now, and one "delivered" notice for it goes to the connection of the sender the packet names, if that user is
      online; nobody else is told. Nothing comes of any other ack. */
  lemma {:induction false} AckedTellsTheSender(s: ServerState, c: Conn, id: string, body: Body, env: Env, d: Conn)
    ensures var e := Acknowledged(c, id, body);
      if body.Private? && id != "" && body.sender != "" && body.recipient != "" then
        && (id in s.messages && s.messages[id].deliveredAt.None? ==>
              Serve(s, e, env).messages == s.messages[id := s.messages[id].(deliveredAt := Some(env.nowMs))])
        && (id !in s.messages || s.messages[id].deliveredAt.Some? ==> Serve(s, e, env).messages == s.messages)
        && Queues(s, e, env, d,
             if IsWith(s, body.sender, d) then [Send(id, DeliveredNote(body.recipient, body.createdAt))] else [])
      else Serve(s, e, env) == s
  {
  }

  /** A read receipt that is let through marks the stored message read now, and delivered now if it was not yet; one
      "read" notice with the reader's name goes to the connection of the user the receipt names, if online. */
  lemma {:induction false} ReceiptTellsTheNamed(
    s: ServerState, c: Conn, u: string, id: string, recipient: string, env: Env, d: Conn)
    requires SignedIn(s, c, u)
    ensures var e := Packet(c, id, ReadReceipt(recipient));
      if env.allowed then
        && (id in s.messages ==>
              var r := s.messages[id];
              Serve(s, e, env).messages == s.messages[id := r.(readAt := Some(env.nowMs),
                deliveredAt := if r.deliveredAt.Some? then r.deliveredAt else Some(env.nowMs))])
        && (id !in s.messages ==> Serve(s, e, env).messages == s.messages)
        && Queues(s, e, env, d, if IsWith(s, recipient, d) then [Send(id, ReadNote(u))] else [])
      else Serve(s, e, env) == s
  {
    hide SignIn, LogOut;
  }

  // ---- Queries ----

  /** The message is between the two users, either way. */
  predicate IsBetween(r: Row, u: string, v: string) {
    (r.sender == u && r.recipient == v) || (r.sender == v && r.recipient == u)
  }

  /** A user's dialogs are with exactly the users with whom there is a stored message, sent either way. */
  lemma {:induction false} DialogsAreTheCorrespondents(
    s: ServerState, c: Conn, u: string, id: string, env: Env, d: Conn)
    returns (users: set<string>)
    requires SignedIn(s, c, u)
    ensures forall v :: v in users <==> v != "" && exists x :: x in s.messages && IsBetween(s.messages[x], u, v)
    ensures Queues(s, Packet(c, id, DialogsRequest), env, d, if d == c then [Send("", DialogList(users))] else [])
  {
    hide SignIn, LogOut;
    users := DialogUsers(s.messages, u);
    CorrespondentsListed(s.messages, u);
    hide DialogUsers;
  }

  lemma {:induction false} CorrespondentsListed(t: Table, u: string)
    ensures forall v :: v in DialogUsers(t, u) <==> v != "" && exists x :: x in t && IsBetween(t[x], u, v)
  {
    forall v ensures v in DialogUsers(t, u) <==> v != "" && exists x :: x in t && IsBetween(t[x], u, v) {
      if v != "" && exists x :: x in t && IsBetween(t[x], u, v) {
        var x :| x in t && IsBetween(t[x], u, v);
        if t[x].sender == u && t[x].recipient == v {
          assert x in t && t[x].sender == u && t[x].recipient != "";
        } else {
          assert x in t && t[x].recipient == u && t[x].sender != "";
        }
      }
    }
  }

  /** How each stored message of a chat is shown, by id. */
  type Shown = map<string, HistoryMessageRecord>

  /** A private message is "read" if it has a read time, else "delivered" if it has a delivery time. */
  function ShownPrivate(s: ServerState, u: string, v: string): Shown {
    map id | id in s.messages && IsBetween(s.messages[id], u, v) ::
      var r := s.messages[id];
      HistoryMessageRecord(id, r.sender, r.recipient, r.text,
                           if r.readAt.Some? then Read else if r.deliveredAt.Some? then Delivered else Sending,
                           r.createdAt)
  }

  /** A public message names no recipient and is always shown as delivered. */
  function ShownPublic(s: ServerState): Shown {
    map id | id in s.broadcasts ::
      HistoryMessageRecord(id, s.broadcasts[id].sender, "", s.broadcasts[id].text, Delivered,
                           s.broadcasts[id].createdAt)
  }

  /** The earlier of two messages: by time, and by id among equal times. */
  predicate Earlier(a: HistoryMessageRecord, b: HistoryMessageRecord) {
    a.createdAt < b.createdAt || (a.createdAt == b.createdAt && LexLess(a.id, b.id))
  }

  predicate Lists(items: seq<HistoryMessageRecord>, id: string) {
    exists i :: 0 <= i < |items| && items[i].id == id
  }

  predicate Ascending(items: seq<HistoryMessageRecord>) {
    forall i, j :: 0 <= i < j < |items| ==> Earlier(items[i], items[j])
  }

  /** A message left out is earlier than all those listed. */
  predicate LeftOutEarlier(all: Shown, items: seq<HistoryMessageRecord>) {
    forall id, i :: id in all && !Lists(items, id) && 0 <= i < |items| ==> Earlier(all[id], items[i])
  }

  /** As many as asked for, but at least one and at most 200. */
  function Wanted(limit: int): nat {
    if limit < 1 then 1 else if limit > 200 then 200 else limit
  }

  /** The newest of these messages, oldest first and each as it is shown: as many as wanted, or all. */
  predicate NewestOf(all: Shown, limit: int, items: seq<HistoryMessageRecord>) {
    && |items| == (if |all| < Wanted(limit) then |all| else Wanted(limit))
    && (forall i :: 0 <= i < |items| ==> items[i].id in all && items[i] == all[items[i].id])
    && Ascending(items) && LeftOutEarlier(all, items)
  }

  lemma {:induction false} SizeOfElements(s: seq<string>)
    requires NoDuplicates(s)
    ensures |Elements(s)| == |s|
  {
    if s == [] {
      assert Elements(s) == {};
    } else {
      assert s == [s[0]] + s[1..] && s[0] !in Elements(s[1..]);
      assert Elements(s) == {s[0]} + Elements(s[1..]);
      SizeOfElements(s[1..]);
    }
  }

  predicate HasTimes(times: Times, all: Shown) {
    && times.Keys == all.Keys
    && forall id | id in all :: all[id].id == id && times[id] == all[id].createdAt
  }

  /** The list shows these messages, in this order. */
  predicate ShowsEach(all: Shown, ids: seq<string>, items: seq<HistoryMessageRecord>) {
    |items| == |ids| && forall i :: 0 <= i < |ids| ==> ids[i] in all && items[i] == all[ids[i]]
  }

  lemma {:induction false} SortedAscend(
    times: Times, all: Shown, ids: seq<string>, items: seq<HistoryMessageRecord>)
    requires HasTimes(times, all) && Sorted(times, ids) && ShowsEach(all, ids, items)
    ensures Ascending(items)
  {
    hide LexLess;
    forall i, j | 0 <= i < j < |items| ensures Earlier(items[i], items[j]) {
      assert Before(times, ids[i], ids[j]);
    }
  }

  lemma {:induction false} LastLeaveTheEarlier(
    times: Times, all: Shown, ids: seq<string>, left: nat, items: seq<HistoryMessageRecord>)
    requires HasTimes(times, all) && Sorted(times, ids) && Elements(ids) == all.Keys
    requires left <= |ids| && ShowsEach(all, ids[left..], items)
    ensures LeftOutEarlier(all, items)
  {
    hide LexLess;
    forall k | left <= k < |ids| ensures Lists(items, ids[k]) {
      assert ids[left..][k - left] == ids[k];
      assert items[k - left].id == ids[k];
    }
    forall id, i | id in all && !Lists(items, id) && 0 <= i < |items| ensures Earlier(all[id], items[i]) {
      assert id in Elements(ids);
      var k :| 0 <= k < |ids| && ids[k] == id;
      assert Before(times, ids[k], ids[left + i]) && ids[left..][i] == ids[left + i];
    }
  }

  lemma {:induction false} TailSorted(times: Times, ids: seq<string>, left: nat)
    requires Sorted(times, ids) && left <= |ids|
    ensures Sorted(times, ids[left..])
  {
    hide Before;
  }

  lemma {:induction false} SizeOfSorted(times: Times, all: Shown, ids: seq<string>)
    requires Sorted(times, ids) && Elements(ids) == all.Keys
    ensures |ids| == |all|
  {
    SortedHasNoDuplicates(times, ids);
    SizeOfElements(ids);
    assert |all| == |all.Keys|;
  }

  lemma {:induction false} LastAreNewest(
    times: Times, all: Shown, ids: seq<string>, limit: int, items: seq<HistoryMessageRecord>)
    requires HasTimes(times, all) && Sorted(times, ids) && Elements(ids) == all.Keys
    requires ShowsEach(all, LastEntries(ids, Bounded(limit)), items)
    ensures NewestOf(all, limit, items)
  {
    hide Ascending, LeftOutEarlier, Sorted, Elements, HasTimes;
    var last := LastEntries(ids, Bounded(limit));
    TailSorted(times, ids, |ids| - |last|);
    SortedAscend(times, all, last, items);
    LastLeaveTheEarlier(times, all, ids, |ids| - |last|, items);
    SizeOfSorted(times, all, ids);
    RecordIds(times, all);
  }

  lemma {:induction false} RecordIds(times: Times, all: Shown)
    requires HasTimes(times, all)
    ensures forall id | id in all :: all[id].id == id
  {
  }

  lemma {:induction false} PrivateRecordsAreNewest(s: ServerState, u: string, v: string, limit: int)
    ensures NewestOf(ShownPrivate(s, u, v), limit, PrivateRecords(s, u, v, Bounded(limit)))
  {
    hide SortSet, NewestAscending, NewestOf, Sorted;
    var all, known, ids := ShownPrivate(s, u, v), TimesOf(s.messages), Between(s.messages, u, v);
    var times: Times := map id | id in all :: known[id];
    assert all.Keys == ids;
    NewestAreTheLast(known, ids, Bounded(limit));
    NewestKnown(known, ids, Bounded(limit));
    SortSetLocal(known, times, ids);
    LastAreNewest(times, all, SortSet(times, ids), limit, PrivateRecords(s, u, v, Bounded(limit)));
  }

  lemma {:induction false} BroadcastHistoryIsNewest(s: ServerState, limit: int)
    ensures NewestOf(ShownPublic(s), limit, BroadcastHistory(s, Bounded(limit)))
  {
    hide SortSet, NewestAscending, NewestOf, Sorted;
    var all, ids := ShownPublic(s), s.broadcasts.Keys;
    var times: Times := map id | id in s.broadcasts :: s.broadcasts[id].createdAt;
    assert all.Keys == ids;
    NewestAreTheLast(times, ids, Bounded(limit));
    NewestKnown(times, ids, Bounded(limit));
    LastAreNewest(times, all, SortSet(times, ids), limit, BroadcastHistory(s, Bounded(limit)));
  }

  /** A request for a chat's history is answered, on its own connection alone, with the newest messages of the chat:
      of "Broadcast" the public ones, of any other name those between that user and the asking one; of the empty
      name none. */
  lemma {:induction false} HistoryIsTheNewest(
    s: ServerState, c: Conn, u: string, id: string, chatUser: string, limit: int, env: Env, d: Conn)
    returns (items: seq<HistoryMessageRecord>)
    requires SignedIn(s, c, u)
    ensures Queues(s, Packet(c, id, HistoryRequest(chatUser, limit)), env, d,
                    if d == c then [Send("", HistoryReply(chatUser, items))] else [])
    ensures if chatUser == "" then items == []
            else NewestOf(if chatUser == "Broadcast" then ShownPublic(s)
              else ShownPrivate(s, u, chatUser), limit, items)
  {
    hide SignIn, LogOut;
    items := if chatUser == "" then []
             else if chatUser == "Broadcast" then BroadcastHistory(s, Bounded(limit))
             else PrivateRecords(s, u, chatUser, Bounded(limit));
    PrivateRecordsAreNewest(s, u, chatUser, limit);
    BroadcastHistoryIsNewest(s, limit);
    hide BroadcastHistory, PrivateRecords, NewestOf, ShownPrivate, ShownPublic;
  }

  /** A lookup is answered with whether the user is registered and whether online; without the rate limiter's leave,
      with an error. */
  lemma {:induction false} LookupTellsWhoIsThere(
    s: ServerState, c: Conn, u: string, id: string, v: string, env: Env, d: Conn)
    requires SignedIn(s, c, u)
    ensures Queues(s, Packet(c, id, CheckUser(v)), env, d,
      if d != c then []
      else if !env.allowed then [Send("", Failure(RateLimited))]
      else [Send("", UserCheckResult(v, v in s.accounts.users, v in s.presence.online))])
  {
    hide SignIn, LogOut;
  }

  /** Whoever has not signed in is told so, and nothing else happens. */
  lemma {:induction false} StrangersMustSignIn(s: ServerState, c: Conn, id: string, body: Body, env: Env, d: Conn)
    requires !IsSignIn(body) && (c !in s.presence.users || s.presence.users[c] == "")
    ensures Queues(s, Packet(c, id, body), env, d, if d == c then [Send("", AuthError(NotLoggedIn))] else [])
    ensures Serve(s, Packet(c, id, body), env).(outbox := s.outbox) == s
  {
    hide SignIn, LogOut;
  }

  /** Packets that only the server sends, and unknown ones, do nothing. */
  predicate IsNoRequest(body: Body) {
    !(body.Register? || body.Login? || body.ResumeSession? || body.Logout? || body.CheckUser? || body.DialogsRequest?
      || body.HistoryRequest? || body.SendPublic? || body.SendPrivate? || body.ReadReceipt?)
  }

  lemma {:induction false} OtherPacketsDoNothing(s: ServerState, c: Conn, u: string, id: string, body: Body, env: Env)
    requires SignedIn(s, c, u) && IsNoRequest(body)
    ensures Serve(s, Packet(c, id, body), env) == s
  {
    hide SignIn, LogOut;
  }

  // ---- Signing in and out ----

  /** The characters of a user name. */
  predicate WellNamed(u: string) {
    3 <= |u| <= 32
    && forall i :: 0 <= i < |u| ==> '0' <= u[i] <= '9' || 'A' <= u[i] <= 'Z' || 'a' <= u[i] <= 'z' || u[i] == '_'
  }

  /** Whom the server lets in: a new user with a valid name and a password of eight characters or more; a registered
      user with the right password; or one whose session has not expired, with its token; in each case unless the
      user is online on another connection. */
  predicate Admits(s: ServerState, c: Conn, body: Body, env: Env) {
    && env.allowed && IsSignIn(body)
    && !(body.username in s.presence.online && s.presence.online[body.username] != c)
    && match body
       case Register(u, password) => WellNamed(u) && |password| >= 8 && u !in s.accounts.users
       case Login(u, password) => u != "" && u in s.accounts.users && env.verifies(password, s.accounts.users[u])
       case ResumeSession(u, token) =>
         && u != "" && token != "" && u in s.accounts.sessions
         && env.nowMs < s.accounts.sessions[u].expiresAt
         && s.accounts.sessions[u].tokenHash == env.hashToken(token)
       case _ => false
  }

  /** The user that signing in on the connection replaces, if any. */
  predicate Replaces(s: ServerState, c: Conn, u: string, former: string) {
    SignedIn(s, c, former) && former != u
  }

  lemma {:induction false} VerifiesIff(s: ServerState, c: Conn, body: Body, env: Env)
    requires IsSignIn(body)
    requires MutuallyInverse(s.presence)
    ensures Admits(s, c, body, env) <==>
      env.allowed && CanStart(s.presence, c, body.username) && Verify(s.accounts, body, env).Accepted?
  {
    hide UsernameValid, WellNamed;
    NamesAgree(body.username);
  }

  lemma {:induction false} NamesAgree(u: string)
    ensures UsernameValid(u) <==> WellNamed(u)
  {
  }

  /** `u` is now online on `c`, where only the former user, if any, no longer is. */
  ghost predicate TakesOver(s: ServerState, t: ServerState, c: Conn, u: string) {
    && t.presence.users == s.presence.users[c := u]
    && (forall v :: v in t.presence.online <==> v == u || (v in s.presence.online && !Replaces(s, c, u, v)))
    && IsWith(t, u, c)
    && (forall v | v in t.presence.online && v != u :: t.presence.online[v] == s.presence.online[v])
  }

  /** `u` has a session under the new token, for seven days; the former user of `c` has none. */
  ghost predicate Issues(s: ServerState, t: ServerState, c: Conn, u: string, env: Env) {
    && u in t.accounts.sessions
    && t.accounts.sessions[u] == Session(env.hashToken(env.newToken), env.nowMs + 7 * 24 * 3600 * 1000)
    && (forall v | Replaces(s, c, u, v) :: v !in t.accounts.sessions)
  }

  lemma {:induction false} AttachTakesOver(s: ServerState, checked: ServerState, c: Conn, u: string)
    requires u != "" && !AttachFails(s.presence, c, u) && checked.presence == s.presence
    requires MutuallyInverse(s.presence)
    ensures TakesOver(s, Attach(checked, c, u), c, u)
  {
  }

  lemma {:induction false} AttachIssues(s: ServerState, checked: ServerState, c: Conn, u: string, env: Env)
    requires u in checked.accounts.sessions && checked.presence == s.presence
    requires checked.accounts.sessions[u]
          == Session(env.hashToken(env.newToken), env.nowMs + 7 * 24 * 3600 * 1000)
    ensures Issues(s, Attach(checked, c, u), c, u, env)
    ensures Attach(checked, c, u).accounts.users == checked.accounts.users
  {
  }

  /** Who is let in is then online, in place of the connection's former user, with a session of seven days under the
      new token; whoever is not changes neither who is online nor who is registered. */
  lemma {:induction false} SignInAdmits(s: ServerState, c: Conn, id: string, body: Body, env: Env)
    requires IsSignIn(body)
    requires MutuallyInverse(s.presence)
    ensures var t := Serve(s, Packet(c, id, body), env);
      var u := body.username;
      if Admits(s, c, body, env) then
        && TakesOver(s, t, c, u) && Issues(s, t, c, u, env)
        && t.accounts.users == (if body.Register? then s.accounts.users[u := env.newPasswordHash] else s.accounts.users)
      else t.presence == s.presence && t.accounts.users == s.accounts.users
  {
    hide Verify, Finalize, CanStart, AttachFails, Admits, Refuse, Post, Attach, TakesOver, Issues, MutuallyInverse;
    VerifiesIff(s, c, body, env);
    AttachSucceeds(s.presence, c, body.username);
    VerifyIssues(s.accounts, body, env);
    var u, v := body.username, Verify(s.accounts, body, env);
    if Admits(s, c, body, env) {
      var checked := s.(accounts := v.after);
      var attached := Attach(checked, c, u);
      AttachTakesOver(s, checked, c, u);
      AttachIssues(s, checked, c, u, env);
      PostsKeep(s, attached, Serve(s, Packet(c, id, body), env), c, u, env);
    }
  }

  lemma {:induction false} PostsKeep(s: ServerState, t: ServerState, posted: ServerState, c: Conn, u: string, env: Env)
    requires OnlyPosts(t, posted) && TakesOver(s, t, c, u) && Issues(s, t, c, u, env)
    ensures TakesOver(s, posted, c, u) && Issues(s, posted, c, u, env)
    ensures posted.accounts == t.accounts
  {
  }

  lemma {:induction false} VerifyIssues(a: Accounts, body: Body, env: Env)
    requires IsSignIn(body)
    ensures var v, u := Verify(a, body, env), body.username;
      if v.Accepted? then
        && v.after.users == (if body.Register? then a.users[u := env.newPasswordHash] else a.users)
        && u in v.after.sessions && u != ""
        && v.after.sessions[u] == Session(env.hashToken(env.newToken), env.nowMs + 7 * 24 * 3600 * 1000)
      else v.after.users == a.users
  {
  }

  /** The row's message, sent reliably as it is stored. */
  predicate IsSentAs(s: ServerState, id: string, item: Item) {
    && id in s.messages
    && var r := s.messages[id];
    item == SendReliably(id, Private(r.sender, r.recipient, r.text, r.createdAt))
  }

  predicate Waits(s: ServerState, u: string, id: string) {
    id in s.messages && s.messages[id].recipient == u && s.messages[id].deliveredAt.None?
  }

  /** Each message that waits for `u`, once and as it is stored, the oldest first. */
  ghost predicate SendsWaiting(s: ServerState, u: string, items: seq<Item>) {
    && (forall i :: 0 <= i < |items| ==> items[i].SendReliably? && Waits(s, u, items[i].id)
                                         && IsSentAs(s, items[i].id, items[i]))
    && (forall id | Waits(s, u, id) :: exists i :: 0 <= i < |items| && items[i].SendReliably? && items[i].id == id)
    && (forall i, j :: 0 <= i < j < |items| ==>
          items[i].SendReliably? && items[j].SendReliably? && items[i].body.Private? && items[j].body.Private?
          && (items[i].body.createdAt < items[j].body.createdAt
              || (items[i].body.createdAt == items[j].body.createdAt && LexLess(items[i].id, items[j].id))))
  }

  lemma {:induction false} PendingAreWaiting(s: ServerState, u: string)
    ensures SendsWaiting(s, u, PendingPackets(s, u))
  {
    PendingIds(s.messages, u);
    var ids, items := Pending(s.messages, u), PendingPackets(s, u);
    hide LexLess, Pending;
    forall id | Waits(s, u, id) ensures exists i :: 0 <= i < |items| && items[i].SendReliably? && items[i].id == id {
      PendingIs(s.messages, u, id);
      var i :| 0 <= i < |ids| && ids[i] == id;
      assert items[i].id == id;
    }
    PendingSorted(s.messages, u);
    forall i, j | 0 <= i < j < |items|
      ensures items[i].body.createdAt < items[j].body.createdAt
        || (items[i].body.createdAt == items[j].body.createdAt && LexLess(items[i].id, items[j].id))
    {
      assert Before(TimesOf(s.messages), ids[i], ids[j]);
    }
  }

  lemma {:induction false} PendingSorted(t: Table, u: string)
    ensures Sorted(TimesOf(t), Pending(t, u))
  {
  }

  /** The list of who is online, for each connection on which somebody is. */
  ghost function ListOnline(s: ServerState, d: Conn): seq<Item> {
    if IsOnline(s, d) then [Send("", UserList(s.presence.online.Keys))] else []
  }

  lemma {:induction false} ListIsForOnline(s: ServerState, d: Conn)
    ensures ListFor(s.presence, d) == ListOnline(s, d)
  {
  }

  /** What whoever is not let in is told: the first reason that applies. */
  function Refusal(s: ServerState, c: Conn, body: Body, env: Env): Body
    requires IsSignIn(body)
  {
    var u := body.username;
    if !env.allowed then if body.ResumeSession? then SessionInvalid(RateLimited) else AuthError(RateLimited)
    else if u in s.presence.online && s.presence.online[u] != c then AuthError(AlreadyLoggedIn)
    else
      match body
      case Register(_, password) =>
        AuthError(if !WellNamed(u) then BadUsername else if |password| < 8 then ShortPassword else UserExists)
      case Login(_, password) =>
        AuthError(if u in s.accounts.users && !env.verifies(password, s.accounts.users[u]) then WrongPassword
                  else UserNotFound)
      case ResumeSession(_, token) =>
        SessionInvalid(if u != "" && token != "" && u in s.accounts.sessions
                            && env.nowMs < s.accounts.sessions[u].expiresAt
                       then SessionMismatch else SessionExpired)
  }

  /** Whoever is let in gets the new token, the list of who is online, the list of correspondents and every message
      that waits, in this order; everybody else online gets the list of who is online. Whoever is not let in is
      told why. */
  lemma {:induction false} SignInAnswers(s: ServerState, c: Conn, id: string, body: Body, env: Env, d: Conn)
    returns (users: set<string>, waiting: seq<Item>)
    requires IsSignIn(body)
    requires MutuallyInverse(s.presence)
    ensures var e, u := Packet(c, id, body), body.username;
      var t := Serve(s, e, env);
      if Admits(s, c, body, env) then
        && (forall v :: v in users <==> v != "" && exists x :: x in s.messages && IsBetween(s.messages[x], u, v))
        && SendsWaiting(s, u, waiting)
        && Queues(s, e, env, d,
             if d == c
             then [Send("", AuthOk(u, env.newToken, env.nowMs + 7 * 24 * 3600 * 1000)),
                   Send("", UserList(t.presence.online.Keys)), Send("", DialogList(users))] + waiting
             else ListOnline(t, d))
      else
        Queues(s, e, env, d, if d == c then [Send("", Refusal(s, c, body, env))] else [])
  {
    hide MutuallyInverse, Admits, SendsWaiting;
    var u := body.username;
    users, waiting := DialogUsers(s.messages, u), PendingPackets(s, u);
    VerifiesIff(s, c, body, env);
    AttachSucceeds(s.presence, c, u);
    if Admits(s, c, body, env) {
      CorrespondentsListed(s.messages, u);
      PendingAreWaiting(s, u);
      AdmittedAnswers(s, c, id, body, env, d);
    } else {
      RefusedAnswers(s, c, id, body, env, d);
    }
  }

  lemma {:induction false} AdmittedAnswers(s: ServerState, c: Conn, id: string, body: Body, env: Env, d: Conn)
    requires IsSignIn(body) && Admits(s, c, body, env) && !AttachFails(s.presence, c, body.username)
    requires MutuallyInverse(s.presence)
    ensures var u, e := body.username, Packet(c, id, body);
      var t := Serve(s, e, env);
      Queues(s, e, env, d,
              if d == c
              then [Send("", AuthOk(u, env.newToken, env.nowMs + 7 * 24 * 3600 * 1000)),
                    Send("", UserList(t.presence.online.Keys)), Send("", DialogList(DialogUsers(s.messages, u)))]
                   + PendingPackets(s, u)
              else ListOnline(t, d))
  {
    hide Verify, Finalize, CanStart, AttachFails, Admits, Refuse, Post, MutuallyInverse, DialogUsers,
      PendingPackets, TakesOver, Attach;
    var u := body.username;
    VerifiesIff(s, c, body, env);
    SignInAdmits(s, c, id, body, env);
    var attached := Attach(s.(accounts := Verify(s.accounts, body, env).after), c, u);
    var t := Serve(s, Packet(c, id, body), env);
    assert t == Finalize(attached, c, u, env);
    AttachKeepsQueues(s, Verify(s.accounts, body, env).after, c, u);
    FinalizeAdds(attached, c, u, env, d);
    ListIsForOnline(t, d);
    OnlineAfter(s, t, c, u);
    PendingPacketsFor(s, c, u);
  }

  lemma {:induction false} OnlineAfter(s: ServerState, t: ServerState, c: Conn, u: string)
    requires TakesOver(s, t, c, u)
    ensures IsOnline(t, c)
  {
    assert IsWith(t, u, c);
  }

  lemma {:induction false} AttachKeepsQueues(s: ServerState, a: Accounts, c: Conn, u: string)
    ensures Attach(s.(accounts := a), c, u).outbox == s.outbox && Attach(s.(accounts := a), c, u).messages == s.messages
  {
  }

  lemma {:induction false} RefusedAnswers(s: ServerState, c: Conn, id: string, body: Body, env: Env, d: Conn)
    requires IsSignIn(body)
    requires MutuallyInverse(s.presence) && !Admits(s, c, body, env)
    ensures Queues(s, Packet(c, id, body), env, d, if d == c then [Send("", Refusal(s, c, body, env))] else [])
  {
    VerifiesIff(s, c, body, env);
    RefusalIs(s, c, body, env);
    hide Verify, Finalize, CanStart, AttachFails, Admits, Post, MutuallyInverse, Attach, Refusal;
    var v := Verify(s.accounts, body, env);
    var base := if env.allowed && CanStart(s.presence, c, body.username) then s.(accounts := v.after) else s;
    PostAdds(base, c, Send("", Refusal(s, c, body, env)), d);
  }

  lemma {:induction false} RefusalIs(s: ServerState, c: Conn, body: Body, env: Env)
    requires IsSignIn(body)
    requires MutuallyInverse(s.presence) && !Admits(s, c, body, env)
    ensures var v, allowed, can := Verify(s.accounts, body, env), env.allowed, CanStart(s.presence, c, body.username);
      var reason := if !allowed then RateLimited else if !can || v.Accepted? then AlreadyLoggedIn else v.reason;
      Refusal(s, c, body, env) ==
        if body.ResumeSession? && (!allowed || can) then SessionInvalid(reason) else AuthError(reason)
  {
    VerifiesIff(s, c, body, env);
    NamesAgree(body.username);
    hide UsernameValid, WellNamed;
  }

  /** Logging out ends the session, takes the user off, tells everybody still online, and closes the connection. */
  lemma {:induction false} LogOutAnswers(s: ServerState, c: Conn, u: string, id: string, env: Env, d: Conn)
    requires SignedIn(s, c, u)
    ensures var e := Packet(c, id, Logout);
      var t := Serve(s, e, env);
      && t.presence.users == s.presence.users - {c} && t.presence.online == s.presence.online - {u}
      && t.accounts == s.accounts.(sessions := s.accounts.sessions - {u})
      && Queues(s, e, env, d, ListOnline(t, d) + if d == c then [CloseAndNotify] else [])
  {
    hide Post, PostAll, OnlineConnections;
    var out := s.(presence := Unregister(s.presence, c), accounts := InvalidateSession(s.accounts, u));
    UserListAdds(s, out, d);
    PostAdds(BroadcastUsers(out), c, CloseAndNotify, d);
    ListIsForOnline(out, d);
  }

  /** A connection that ends takes its user off, if it had one, and everybody still online is told; the session
      stays. */
  lemma {:induction false} ClosingAnswers(s: ServerState, c: Conn, env: Env, d: Conn)
    ensures var e := ConnectionClosed(c);
      var t := Serve(s, e, env);
      && t.presence.users == s.presence.users - {c}
      && (forall v :: v in t.presence.online <==> v in s.presence.online && !SignedIn(s, c, v))
      && (forall v | v in t.presence.online :: t.presence.online[v] == s.presence.online[v])
      && t.accounts == s.accounts
      && Queues(s, e, env, d, ListOnline(t, d))
  {
    hide PostAll, OnlineConnections;
    var out := s.(presence := Unregister(s.presence, c));
    UserListAdds(s, out, d);
    ListIsForOnline(out, d);
  }
}
