/** What the server does with each event, as functions on its state (Server/server.cpp with the tables of
    Server/serverstorage.cpp), and what every reachable state satisfies. Handlers run one at a time on one
    thread. User names arrive trimmed. */
module ServerLogic {
  import opened IdOrder
  import opened MessageTable
  import opened Numbers
  import opened Protocol

  /** The identity of a connection. */
  type Conn = nat

  datatype Reason =
    | RateLimited | AlreadyLoggedIn | BadUsername | ShortPassword | UserExists | UserNotFound | WrongPassword
    | SessionExpired | SessionMismatch | NotLoggedIn | ToYourself | BadText

  /** The fields of a packet other than "id" and "seq". */
  datatype Body =
    // from clients
    | Register(username: string, password: string)
    | Login(username: string, password: string)
    | ResumeSession(username: string, token: string)
    | Logout
    | CheckUser(username: string)
    | DialogsRequest
    | HistoryRequest(chatUser: string, limit: int)
    | SendPublic(text: string)
    | SendPrivate(recipient: string, text: string)
    | ReadReceipt(recipient: string)
    | Unknown
    // to clients
    | AuthOk(username: string, token: string, expiresAt: int)
    | AuthError(reason: Reason)
    | SessionInvalid(reason: Reason)
    | UserList(users: set<string>)
    | DialogList(users: set<string>)
    | HistoryReply(chatUser: string, items: seq<HistoryMessageRecord>)
    | UserCheckResult(username: string, known: bool, online: bool)
    | Public(sender: string, text: string, createdAt: int)
    | Private(sender: string, recipient: string, text: string, createdAt: int)
    | Queued(recipient: string, createdAt: int)
    | DeliveredNote(recipient: string, createdAt: int)
    | ReadNote(sender: string)
    | Failure(reason: Reason)

  /** What the server asks a connection's thread to do. */
  datatype Item = Send(id: string, body: Body) | SendReliably(id: string, body: Body) | CloseAndNotify

  /** Per connection, the requests not yet carried out. */
  type Outbox = map<Conn, seq<Item>>

  datatype Session = Session(tokenHash: string, expiresAt: int)

  datatype Broadcast = Broadcast(sender: string, text: string, createdAt: int)

  /** `m_connectionUsers` and `m_onlineUsers`. */
  datatype Presence = Presence(users: map<Conn, string>, online: map<string, Conn>)

  /** The users table, which holds each name's password hash, and the sessions table; `issued` remembers when the
      last session issued to a user expires. */
  datatype Accounts = Accounts(users: map<string, string>, sessions: map<string, Session>, issued: map<string, int>)

  datatype ServerState = ServerState(presence: Presence, accounts: Accounts, messages: Table,
                                     broadcasts: map<string, Broadcast>, outbox: Outbox)

  /** What a handler gets from outside: the clock, the rate limiter's decision, whether the text is 1 to 4000
      characters once trimmed, `verifyPassword` of a password and a stored hash, the hash of the password
      registered under a new random salt, `hashSessionToken`, and a new random token. */
  datatype Env = Env(nowMs: int, allowed: bool, textOk: bool, verifies: (string, string) -> bool,
                     newPasswordHash: string, hashToken: string -> string, newToken: string)

  const SESSION_LIFETIME_MS: int := 7 * 24 * 60 * 60 * 1000
  const MIN_PASSWORD_LENGTH: int := 8

  predicate UsernameCharacter(c: char) {
    '0' <= c <= '9' || 'A' <= c <= 'Z' || 'a' <= c <= 'z' || c == '_'
  }

  predicate UsernameValid(u: string) {
    3 <= |u| <= 32 && forall i :: 0 <= i < |u| ==> UsernameCharacter(u[i])
  }

  // ---- Sending ----

  function Queue(o: Outbox, c: Conn): seq<Item> {
    if c in o then o[c] else []
  }

  /** Nothing but the queues differs. */
  predicate OnlyPosts(s: ServerState, t: ServerState) { t.(outbox := s.outbox) == s }

  function Post(s: ServerState, c: Conn, item: Item): (t: ServerState)
    ensures OnlyPosts(s, t)
  {
    s.(outbox := s.outbox[c := Queue(s.outbox, c) + [item]])
  }

  function PostAll(s: ServerState, cs: set<Conn>, item: Item): (t: ServerState)
    ensures OnlyPosts(s, t)
  {
    s.(outbox := map c | c in s.outbox.Keys + cs :: if c in cs then Queue(s.outbox, c) + [item] else s.outbox[c])
  }

  function PostEach(s: ServerState, c: Conn, items: seq<Item>): (t: ServerState)
    ensures OnlyPosts(s, t)
  {
    if items == [] then s else s.(outbox := s.outbox[c := Queue(s.outbox, c) + items])
  }

  function OnlineConnections(p: Presence): set<Conn> { set u | u in p.online :: p.online[u] }

  function BroadcastUsers(s: ServerState): (t: ServerState)
    ensures OnlyPosts(s, t)
  {
    PostAll(s, OnlineConnections(s.presence), Send("", UserList(s.presence.online.Keys)))
  }

  function DialogUsers(t: Table, u: string): set<string> {
    (set id | id in t && t[id].sender == u && t[id].recipient != "" :: t[id].recipient) +
    (set id | id in t && t[id].recipient == u && t[id].sender != "" :: t[id].sender)
  }

  function PrivatePacket(id: string, r: Row): Item {
    SendReliably(id, Private(r.sender, r.recipient, r.text, r.createdAt))
  }

  function PrivatePackets(t: Table, ids: seq<string>): (items: seq<Item>)
    requires forall i :: 0 <= i < |ids| ==> ids[i] in t
    ensures |items| == |ids| && forall i :: 0 <= i < |ids| ==> items[i] == PrivatePacket(ids[i], t[ids[i]])
  {
    seq(|ids|, i requires 0 <= i < |ids| => PrivatePacket(ids[i], t[ids[i]]))
  }

  ghost function SendPending(s: ServerState, c: Conn, u: string): (t: ServerState)
    ensures OnlyPosts(s, t)
  {
    PendingIds(s.messages, u);
    PostEach(s, c, PrivatePackets(s.messages, Pending(s.messages, u)))
  }

  lemma {:induction false} PendingIds(t: Table, u: string)
    ensures forall i :: 0 <= i < |Pending(t, u)| ==> Pending(t, u)[i] in Undelivered(t, u)
  {
    forall i | 0 <= i < |Pending(t, u)| ensures Pending(t, u)[i] in Undelivered(t, u) {
      PendingIs(t, u, Pending(t, u)[i]);
    }
  }

  // ---- Signing in and out ----

  function UserOf(p: Presence, c: Conn): string {
    if c in p.users then p.users[c] else ""
  }

  predicate TakenByAnother(p: Presence, c: Conn, u: string) {
    u in p.online && p.online[u] != c
  }

  predicate CanStart(p: Presence, c: Conn, u: string) {
    (UserOf(p, c) != "" && UserOf(p, c) == u) || !TakenByAnother(p, c, u)
  }

  /** Before another user is attached, the connection's present user is signed out. */
  predicate SwitchesUser(p: Presence, c: Conn, u: string) {
    UserOf(p, c) != "" && UserOf(p, c) != u
  }

  function Unregister(p: Presence, c: Conn): Presence {
    var u := UserOf(p, c);
    Presence(p.users - {c}, if u != "" then p.online - {u} else p.online)
  }

  function Detached(p: Presence, c: Conn, u: string): Presence {
    if SwitchesUser(p, c, u) then Presence(p.users - {c}, p.online - {UserOf(p, c)}) else p
  }

  predicate AttachFails(p: Presence, c: Conn, u: string) {
    TakenByAnother(Detached(p, c, u), c, u)
  }

  function Attached(p: Presence, c: Conn, u: string): Presence {
    var d := Detached(p, c, u);
    if AttachFails(p, c, u) then d else Presence(d.users[c := u], d.online[u := c])
  }

  function InvalidateSession(a: Accounts, u: string): Accounts {
    if u == "" then a else a.(sessions := a.sessions - {u})
  }

  function IssueSession(a: Accounts, u: string, env: Env): Accounts {
    var expiresAt := env.nowMs + SESSION_LIFETIME_MS;
    Accounts(a.users, a.sessions[u := Session(env.hashToken(env.newToken), expiresAt)], a.issued[u := expiresAt])
  }

  function RemoveExpired(a: Accounts, u: string, nowMs: int): Accounts {
    if u in a.sessions && a.sessions[u].expiresAt <= nowMs then a.(sessions := a.sessions - {u}) else a
  }

  predicate IsSignIn(body: Body) {
    body.Register? || body.Login? || body.ResumeSession?
  }

  /** How the user named by a sign-in packet is checked: an error, or a new session. */
  datatype Verified = Refused(after: Accounts, reason: Reason) | Accepted(after: Accounts)

  function Verify(a: Accounts, body: Body, env: Env): Verified
    requires IsSignIn(body)
  {
    var u := body.username;
    match body
    case Register(_, password) =>
      if !UsernameValid(u) then Refused(a, BadUsername)
      else if |password| < MIN_PASSWORD_LENGTH then Refused(a, ShortPassword)
      else if u in a.users then Refused(a, UserExists)
      else Accepted(IssueSession(a.(users := a.users[u := env.newPasswordHash]), u, env))
    case Login(_, password) =>
      if u !in a.users then Refused(a, UserNotFound)
      else if !env.verifies(password, a.users[u]) then Refused(a, WrongPassword)
      else if u == "" then Refused(a, UserNotFound)
      else Accepted(IssueSession(a, u, env))
    case ResumeSession(_, token) =>
      if u == "" || token == "" then Refused(a, SessionExpired)
      else
        var r := RemoveExpired(a, u, env.nowMs);
        if u !in r.sessions then Refused(r, SessionExpired)
        else if r.sessions[u].tokenHash != env.hashToken(token) then Refused(r, SessionMismatch)
        else Accepted(IssueSession(r, u, env))
  }

  ghost function Finalize(s: ServerState, c: Conn, u: string, env: Env): (t: ServerState)
    ensures OnlyPosts(s, t)
  {
    var greeted := Post(s, c, Send("", AuthOk(u, env.newToken, env.nowMs + SESSION_LIFETIME_MS)));
    var announced := BroadcastUsers(greeted);
    var listed := Post(announced, c, Send("", DialogList(DialogUsers(s.messages, u))));
    SendPending(listed, c, u)
  }

  function Refuse(s: ServerState, c: Conn, body: Body, reason: Reason): (t: ServerState)
    ensures OnlyPosts(s, t)
  {
    Post(s, c, Send("", if body.ResumeSession? then SessionInvalid(reason) else AuthError(reason)))
  }

  function Attach(s: ServerState, c: Conn, u: string): ServerState {
    s.(presence := Attached(s.presence, c, u),
       accounts := if SwitchesUser(s.presence, c, u) then InvalidateSession(s.accounts, UserOf(s.presence, c))
         else s.accounts)
  }

  ghost function SignIn(s: ServerState, c: Conn, body: Body, env: Env): ServerState
    requires IsSignIn(body)
  {
    var u := body.username;
    if !env.allowed then Refuse(s, c, body, RateLimited)
    else if !CanStart(s.presence, c, u) then Post(s, c, Send("", AuthError(AlreadyLoggedIn)))
    else
      var v := Verify(s.accounts, body, env);
      var checked := s.(accounts := v.after);
      if v.Refused? then Refuse(checked, c, body, v.reason)
      else
        var attached := Attach(checked, c, u);
        if AttachFails(s.presence, c, u)
        then Post(attached.(accounts := InvalidateSession(attached.accounts, u)), c,
          Send("", AuthError(AlreadyLoggedIn)))
        else Finalize(attached, c, u, env)
  }

  function LogOut(s: ServerState, c: Conn, u: string): ServerState {
    var out := s.(presence := Unregister(s.presence, c), accounts := InvalidateSession(s.accounts, u));
    Post(BroadcastUsers(out), c, CloseAndNotify)
  }

  // ---- Messages ----

  function StoreBroadcast(s: ServerState, id: string, u: string, text: string, nowMs: int): ServerState {
    s.(broadcasts := s.broadcasts[id := if id in s.broadcasts then s.broadcasts[id].(sender := u, text := text)
                                        else Broadcast(u, text, nowMs)])
  }

  function HandlePublic(s: ServerState, c: Conn, u: string, id: string, text: string, env: Env): ServerState {
    if !env.allowed then Post(s, c, Send(id, Failure(RateLimited)))
    else if !env.textOk then Post(s, c, Send(id, Failure(BadText)))
    else PostAll(StoreBroadcast(s, id, u, text, env.nowMs), OnlineConnections(s.presence),
      SendReliably(id, Public(u, text, env.nowMs)))
  }

  function HandlePrivate(
    s: ServerState, c: Conn, u: string, id: string, recipient: string, text: string, env: Env): ServerState
  {
    if !env.allowed then Post(s, c, Send(id, Failure(RateLimited)))
    else if u == "" || recipient == "" || u == recipient then Post(s, c, Send(id, Failure(ToYourself)))
    else if !env.textOk then Post(s, c, Send(id, Failure(BadText)))
    else if recipient !in s.accounts.users then Post(s, c, Send(id, Failure(UserNotFound)))
    else
      var stored := s.(messages := Store(s.messages, id, u, recipient, text, env.nowMs));
      if recipient !in s.presence.online then Post(stored, c, Send(id, Queued(recipient, env.nowMs)))
      else Post(stored, s.presence.online[recipient], SendReliably(id, Private(u, recipient, text, env.nowMs)))
  }

  function HandleRead(s: ServerState, u: string, id: string, recipient: string, env: Env): ServerState {
    if !env.allowed then s
    else
      var marked := s.(messages := MarkRead(s.messages, id, env.nowMs));
      if recipient in s.presence.online then Post(marked, s.presence.online[recipient], Send(id, ReadNote(u)))
        else marked
  }

  function HandleCheckUser(s: ServerState, c: Conn, u: string, env: Env): ServerState {
    Post(s, c, Send("", if !env.allowed then Failure(RateLimited)
                        else UserCheckResult(u, u in s.accounts.users, u in s.presence.online)))
  }

  ghost function BroadcastHistory(s: ServerState, limit: int): seq<HistoryMessageRecord> {
    var times := map id | id in s.broadcasts :: s.broadcasts[id].createdAt;
    var ids := NewestAscending(times, s.broadcasts.Keys, limit);
    NewestKnown(times, s.broadcasts.Keys, limit);
    seq(|ids|, i requires 0 <= i < |ids| => BroadcastRecord(ids[i], s.broadcasts[ids[i]]))
  }

  function BroadcastRecord(id: string, b: Broadcast): HistoryMessageRecord {
    HistoryMessageRecord(id, b.sender, "", b.text, Delivered, b.createdAt)
  }

  lemma {:induction false} NewestKnown(times: Times, ids: set<string>, limit: int)
    requires ids <= times.Keys
    ensures forall i :: 0 <= i < |NewestAscending(times, ids, limit)| ==> NewestAscending(times, ids, limit)[i] in ids
  {
    NewestAreTheLast(times, ids, limit);
    assert forall x :: x in SortSet(times, ids) ==> x in Elements(SortSet(times, ids));
  }

  ghost function PrivateRecords(s: ServerState, u: string, v: string, limit: int): seq<HistoryMessageRecord> {
    var ids := PrivateHistory(s.messages, u, v, limit);
    NewestKnown(TimesOf(s.messages), Between(s.messages, u, v), limit);
    seq(|ids|, i requires 0 <= i < |ids| => RecordOf(ids[i], s.messages[ids[i]]))
  }

  function Bounded(limit: int): int { Max(1, Min(limit, 200)) }

  ghost function HandleHistory(s: ServerState, c: Conn, u: string, chatUser: string, limit: int): ServerState {
    var items := if chatUser == "" then []
                 else if chatUser == "Broadcast" then BroadcastHistory(s, Bounded(limit))
                 else PrivateRecords(s, u, chatUser, Bounded(limit));
    Post(s, c, Send("", HistoryReply(chatUser, items)))
  }

  // ---- Events ----

  datatype Event =
    | Packet(c: Conn, id: string, body: Body)
    | Acknowledged(c: Conn, id: string, body: Body)
    | ConnectionClosed(c: Conn)

  ghost function OnPacket(s: ServerState, c: Conn, id: string, body: Body, env: Env): ServerState {
    if IsSignIn(body) then SignIn(s, c, body, env)
    else
      var u := UserOf(s.presence, c);
      if u == "" then Post(s, c, Send("", AuthError(NotLoggedIn)))
      else
        match body
        case Logout => LogOut(s, c, u)
        case CheckUser(other) => HandleCheckUser(s, c, other, env)
        case DialogsRequest => Post(s, c, Send("", DialogList(DialogUsers(s.messages, u))))
        case HistoryRequest(chatUser, limit) => HandleHistory(s, c, u, chatUser, limit)
        case SendPublic(text) => HandlePublic(s, c, u, id, text, env)
        case SendPrivate(recipient, text) => HandlePrivate(s, c, u, id, recipient, text, env)
        case ReadReceipt(recipient) => HandleRead(s, u, id, recipient, env)
        case _ => s
  }

  /** The client has acknowledged a tracked packet. */
  function OnAcknowledged(s: ServerState, id: string, body: Body, env: Env): ServerState {
    if !body.Private? || id == "" || body.sender == "" || body.recipient == "" then s
    else
      var marked := s.(messages := MarkDelivered(s.messages, id, env.nowMs));
      if body.sender in s.presence.online
      then Post(marked, s.presence.online[body.sender], Send(id, DeliveredNote(body.recipient, body.createdAt)))
      else marked
  }

  function OnClosed(s: ServerState, c: Conn): ServerState { BroadcastUsers(s.(presence := Unregister(s.presence, c))) }

  ghost function Serve(s: ServerState, e: Event, env: Env): ServerState {
    match e
    case Packet(c, id, body) => OnPacket(s, c, id, body, env)
    case Acknowledged(_, id, body) => OnAcknowledged(s, id, body, env)
    case ConnectionClosed(c) => OnClosed(s, c)
  }

  // ---- What every reachable state satisfies ----

  /** Connections and online users name each other. */
  predicate MutuallyInverse(p: Presence) {
    && (forall c | c in p.users :: p.users[c] in p.online && p.online[p.users[c]] == c)
    && (forall u | u in p.online :: p.online[u] in p.users && p.users[p.online[u]] == u)
  }

  /** Online users and users with sessions are registered under valid names. */
  predicate AccountsValid(p: Presence, a: Accounts) {
    && (forall u | u in a.users :: UsernameValid(u))
    && p.online.Keys <= a.users.Keys && a.sessions.Keys <= a.users.Keys
  }

  /** An online user has the session row last issued to them, unless that session has expired. */
  predicate OnlineHaveSessions(p: Presence, a: Accounts, clock: int) {
    forall u | u in p.online ::
      u in a.issued && (a.issued[u] <= clock || (u in a.sessions && a.sessions[u].expiresAt == a.issued[u]))
  }

  predicate Good(p: Presence, a: Accounts, clock: int) {
    MutuallyInverse(p) && AccountsValid(p, a) && OnlineHaveSessions(p, a, clock)
  }

  predicate GoodState(s: ServerState, clock: int) { Good(s.presence, s.accounts, clock) }

  /** Attaching cannot fail once the check before the password has passed: the second check, inside
      `attachAuthenticatedSession`, and the invalidation that follows its failure are never needed. */
  lemma {:induction false} AttachSucceeds(p: Presence, c: Conn, u: string)
    requires MutuallyInverse(p)
    ensures CanStart(p, c, u) <==> !AttachFails(p, c, u)
  {
  }

  lemma {:induction false} VerifyKeepsGood(p: Presence, a: Accounts, body: Body, env: Env, clock: int)
    requires Good(p, a, clock) && clock <= env.nowMs && IsSignIn(body)
    ensures Good(p, Verify(a, body, env).after, env.nowMs)
    ensures var v := Verify(a, body, env);
      v.Accepted? ==> HasSession(v.after, body.username)
  {
  }

  /** A session is resumed exactly until seven days after it was issued and with a token that hashes like the
      one then handed out. A resumed session gets a new token, which ends the old one unless they hash alike;
      the end of a session ends its token. */
  lemma {:induction false} ResumesIff(a: Accounts, u: string, issue: Env, token: string, resume: Env, later: Env)
    requires u != "" && token != "" && issue.hashToken == resume.hashToken == later.hashToken
    ensures var hash := issue.hashToken;
      var v := Verify(IssueSession(a, u, issue), ResumeSession(u, token), resume);
      && (v.Accepted? <==> resume.nowMs < issue.nowMs + 7 * 24 * 3600 * 1000 && hash(token) == hash(issue.newToken))
      && (v.Accepted? && later.nowMs < resume.nowMs + 7 * 24 * 3600 * 1000 ==>
            (Verify(v.after, ResumeSession(u, token), later).Accepted? <==> hash(resume.newToken) == hash(token)))
    ensures Verify(InvalidateSession(a, u), ResumeSession(u, token), resume).Refused?
  {
  }

  predicate HasSession(a: Accounts, u: string) {
    u in a.users && u in a.sessions && u in a.issued && a.sessions[u].expiresAt == a.issued[u]
  }

  lemma {:induction false} AttachKeepsInverse(p: Presence, c: Conn, u: string)
    requires MutuallyInverse(p) && "" !in p.online && u != ""
    ensures MutuallyInverse(Attached(p, c, u)) && "" !in Attached(p, c, u).online
  {
  }

  /** Attaching signs at most the connection's former user out, with that user's session. */
  lemma {:induction false} AttachReplaces(s: ServerState, c: Conn, u: string)
    requires MutuallyInverse(s.presence) && "" !in s.presence.online && !AttachFails(s.presence, c, u)
    ensures var t, former := Attach(s, c, u), UserOf(s.presence, c);
      && t.presence.users == s.presence.users[c := u]
      && t.presence.online.Keys <= s.presence.online.Keys + {u}
      && t.accounts.users == s.accounts.users && t.accounts.issued == s.accounts.issued
      && (t.accounts == s.accounts || (former != u && former !in t.presence.online
                                       && t.accounts == s.accounts.(sessions := s.accounts.sessions - {former})))
  {
  }

  lemma {:induction false} AttachKeepsGood(s: ServerState, c: Conn, u: string, clock: int)
    requires GoodState(s, clock) && !AttachFails(s.presence, c, u) && HasSession(s.accounts, u)
    ensures GoodState(Attach(s, c, u), clock)
  {
    assert UsernameValid(u) && !UsernameValid("");
    AttachKeepsInverse(s.presence, c, u);
    AttachReplaces(s, c, u);
    hide MutuallyInverse, UsernameValid, AttachFails;
    assert Attach(s, c, u).presence == Attached(s.presence, c, u);
    hide Attach, Attached;
  }

  lemma {:induction false} UnregisterKeepsGood(p: Presence, a: Accounts, c: Conn, clock: int)
    requires Good(p, a, clock)
    ensures Good(Unregister(p, c), a, clock)
    ensures Good(Unregister(p, c), InvalidateSession(a, UserOf(p, c)), clock)
  {
    if c in p.users {
      assert UsernameValid(p.users[c]);
    }
  }

  lemma {:induction false} SignInKeepsGood(s: ServerState, c: Conn, body: Body, env: Env, clock: int)
    requires GoodState(s, clock) && clock <= env.nowMs && IsSignIn(body)
    ensures GoodState(SignIn(s, c, body, env), env.nowMs)
  {
    hide MutuallyInverse, AccountsValid, OnlineHaveSessions, Verify, Attach, AttachFails, CanStart, Finalize,
      HasSession;
    var v := Verify(s.accounts, body, env);
    VerifyKeepsGood(s.presence, s.accounts, body, env, clock);
    ClockMayAdvance(s.presence, s.accounts, clock, env.nowMs);
    AttachSucceeds(s.presence, c, body.username);
    if CanStart(s.presence, c, body.username) && v.Accepted? {
      var checked := s.(accounts := v.after);
      AttachKeepsGood(checked, c, body.username, env.nowMs);
    }
  }

  lemma {:induction false} ClockMayAdvance(p: Presence, a: Accounts, clock: int, later: int)
    requires Good(p, a, clock) && clock <= later
    ensures Good(p, a, later)
  {
  }

  predicate Posts(s: ServerState, t: ServerState) {
    t.presence == s.presence && t.accounts == s.accounts
  }

  /** Signed in, a connection's packets change sessions only by logging out. */
  lemma {:induction false} OtherPacketsKeepSessions(s: ServerState, c: Conn, id: string, body: Body, env: Env)
    requires !IsSignIn(body) && !(body.Logout? && UserOf(s.presence, c) != "")
    ensures Posts(s, OnPacket(s, c, id, body, env))
  {
  }

  lemma {:induction false} ServeKeepsGood(s: ServerState, e: Event, env: Env, clock: int)
    requires GoodState(s, clock) && clock <= env.nowMs
    ensures GoodState(Serve(s, e, env), env.nowMs)
  {
    hide MutuallyInverse, AccountsValid, OnlineHaveSessions, SignIn;
    ClockMayAdvance(s.presence, s.accounts, clock, env.nowMs);
    match e {
      case Packet(c, id, body) =>
        if IsSignIn(body) {
          SignInKeepsGood(s, c, body, env, clock);
        } else if body.Logout? {
          UnregisterKeepsGood(s.presence, s.accounts, c, env.nowMs);
        } else {
          OtherPacketsKeepSessions(s, c, id, body, env);
        }
      case Acknowledged(_, _, _) =>
      case ConnectionClosed(c) => UnregisterKeepsGood(s.presence, s.accounts, c, env.nowMs);
    }
  }

  ghost function ServeAll(s: ServerState, es: seq<(Event, Env)>): ServerState
    decreases |es|
  {
    if |es| == 0 then s else ServeAll(Serve(s, es[0].0, es[0].1), es[1..])
  }

  predicate ClockOf(es: seq<(Event, Env)>, since: int)
    decreases |es|
  {
    |es| == 0 || (since <= es[0].1.nowMs && ClockOf(es[1..], es[0].1.nowMs))
  }

  function EndOf(es: seq<(Event, Env)>, since: int): int {
    if |es| == 0 then since else es[|es| - 1].1.nowMs
  }

  /** The state in which the server starts on a database: nobody is connected. */
  predicate Started(s: ServerState) {
    s.presence == Presence(map[], map[]) && AccountsValid(s.presence, s.accounts)
  }

  /** In every state a started server reaches, connections and online users name each other, online users
      are registered, and each has the session row last issued to them unless it has expired. */
  lemma {:induction false} EveryReachableStateIsGood(s: ServerState, es: seq<(Event, Env)>, since: int)
    requires Started(s) && ClockOf(es, since)
    ensures GoodState(ServeAll(s, es), EndOf(es, since))
  {
    GoodFromThere(s, es, since);
  }

  lemma {:induction false} GoodFromThere(s: ServerState, es: seq<(Event, Env)>, since: int)
    requires GoodState(s, since) && ClockOf(es, since)
    ensures GoodState(ServeAll(s, es), EndOf(es, since))
    decreases |es|
  {
    if |es| != 0 {
      ServeKeepsGood(s, es[0].0, es[0].1, since);
      GoodFromThere(Serve(s, es[0].0, es[0].1), es[1..], es[0].1.nowMs);
    }
  }
}
