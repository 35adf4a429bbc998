/** Who can sign in: the users table over whole runs of the server, with the program's password hashing. */
module Credentials {
  import opened Options
  import opened ServerLogic
  import opened Passwords

  /** `verifyPassword` of the program, on stored texts of any length a QString can have. */
  ghost function VerifyPasswords(p: Primitives): (string, string) -> bool {
    (password, stored) => |stored| <= INT_MAX && Verifies(p, password, stored)
  }

  /** A registered user's password hash is still the same. */
  predicate KeepsUsers(a: Accounts, b: Accounts) {
    forall u | u in a.users :: u in b.users && b.users[u] == a.users[u]
  }

  lemma {:induction false} VerifyKeepsUsers(a: Accounts, body: Body, env: Env)
    requires IsSignIn(body)
    ensures KeepsUsers(a, Verify(a, body, env).after)
  {
  }

  lemma {:induction false} SignInKeepsUsers(s: ServerState, c: Conn, body: Body, env: Env)
    requires IsSignIn(body)
    ensures KeepsUsers(s.accounts, SignIn(s, c, body, env).accounts)
  {
    hide Verify, Finalize, CanStart, AttachFails, Attached, Post, Refuse;
    VerifyKeepsUsers(s.accounts, body, env);
  }

  lemma {:induction false} ServeKeepsUsers(s: ServerState, e: Event, env: Env)
    ensures KeepsUsers(s.accounts, Serve(s, e, env).accounts)
  {
    hide SignIn;
    match e {
      case Packet(c, id, body) =>
        if IsSignIn(body) {
          SignInKeepsUsers(s, c, body, env);
        } else if !body.Logout? {
          OtherPacketsKeepSessions(s, c, id, body, env);
        }
      case _ =>
    }
  }

  lemma {:induction false} RunKeepsUsers(s: ServerState, es: seq<(Event, Env)>)
    ensures KeepsUsers(s.accounts, ServeAll(s, es).accounts)
    decreases |es|
  {
    if |es| != 0 {
      hide Serve;
      ServeKeepsUsers(s, es[0].0, es[0].1);
      RunKeepsUsers(Serve(s, es[0].0, es[0].1), es[1..]);
    }
  }

  /** The hash a password is registered under. */
  function PasswordHash(p: Primitives, password: string, salt: Bytes): string
    requires |salt| == PASSWORD_SALT_BYTES
  {
    HashText(PBKDF2_ITERATIONS, salt, KeyOf(p, password, salt))
  }

  /** Once a user has registered, whatever the server serves meanwhile, a login as that user is accepted exactly
      with a password that derives the registered one's key under its salt. */
  lemma {:induction false} LoginIff(
    s: ServerState, u: string, password: string, register: Env, p: Primitives, salt: Bytes,
    es: seq<(Event, Env)>, other: string, login: Env)
    requires |salt| == PASSWORD_SALT_BYTES && register.newPasswordHash == PasswordHash(p, password, salt)
    requires login.verifies == VerifyPasswords(p)
    requires Verify(s.accounts, Register(u, password), register).Accepted?
    ensures var registered := s.(accounts := Verify(s.accounts, Register(u, password), register).after);
      var later := ServeAll(registered, es).accounts;
      Verify(later, Login(u, other), login).Accepted? <==> KeyOf(p, other, salt) == KeyOf(p, password, salt)
  {
    hide Pbkdf2, HashText, ParseHash, ServeAll, Verifies;
    var registered := s.(accounts := Verify(s.accounts, Register(u, password), register).after);
    RunKeepsUsers(registered, es);
    VerifiesIffSameKey(p, password, other, salt, PasswordHash(p, password, salt));
  }

  // ---- Session tokens ----

  /** The packet signs its user in. */
  predicate SignsIn(s: ServerState, e: Event, env: Env) {
    && e.Packet? && IsSignIn(e.body) && env.allowed && CanStart(s.presence, e.c, e.body.username)
    && Verify(s.accounts, e.body, env).Accepted?
  }

  /** The session last issued to a user and not ended since: signing in issues one; logging out and signing in as
      somebody else on the same connection end it. */
  function LastIssued(last: Option<Session>, s: ServerState, e: Event, env: Env, u: string): Option<Session> {
    if SignsIn(s, e, env) then
      if e.body.username == u then Some(Session(env.hashToken(env.newToken), env.nowMs + SESSION_LIFETIME_MS))
      else if UserOf(s.presence, e.c) == u then None
      else last
    else if e.Packet? && e.body.Logout? && UserOf(s.presence, e.c) == u then None
    else last
  }

  ghost function LastIssuedIn(last: Option<Session>, s: ServerState, es: seq<(Event, Env)>, u: string): Option<Session>
    decreases |es|
  {
    if |es| == 0 then last
    else LastIssuedIn(LastIssued(last, s, es[0].0, es[0].1, u), Serve(s, es[0].0, es[0].1), es[1..], u)
  }

  function SessionOf(a: Accounts, u: string): Option<Session> {
    if u in a.sessions then Some(a.sessions[u]) else None
  }

  /** The sessions table has the session last issued; once expired, it may have been removed. */
  predicate Tracks(a: Accounts, u: string, last: Option<Session>, clock: int) {
    SessionOf(a, u) == last || (SessionOf(a, u) == None && last.Some? && last.value.expiresAt <= clock)
  }

  lemma {:induction false} VerifyTracks(a: Accounts, body: Body, env: Env, u: string, last: Option<Session>, clock: int)
    requires IsSignIn(body) && u != "" && clock <= env.nowMs && Tracks(a, u, last, clock)
    ensures var v := Verify(a, body, env);
      Tracks(v.after, u, if v.Accepted? && body.username == u
                         then Some(Session(env.hashToken(env.newToken), env.nowMs + SESSION_LIFETIME_MS))
                         else last, env.nowMs)
  {
  }

  lemma {:induction false} SignInTracks(
    s: ServerState, c: Conn, body: Body, env: Env, u: string, last: Option<Session>, clock: int)
    requires IsSignIn(body) && u != "" && clock <= env.nowMs && Tracks(s.accounts, u, last, clock)
    requires MutuallyInverse(s.presence)
    ensures Tracks(SignIn(s, c, body, env).accounts, u, LastIssued(last, s, Event.Packet(c, "", body), env, u),
      env.nowMs)
  {
    hide Verify, Finalize, CanStart, AttachFails, Post, Refuse, MutuallyInverse;
    AttachSucceeds(s.presence, c, body.username);
    VerifyTracks(s.accounts, body, env, u, last, clock);
  }

  lemma {:induction false} ServeTracks(
    s: ServerState, e: Event, env: Env, u: string, last: Option<Session>, clock: int)
    requires u != "" && clock <= env.nowMs && Tracks(s.accounts, u, last, clock) && MutuallyInverse(s.presence)
    ensures Tracks(Serve(s, e, env).accounts, u, LastIssued(last, s, e, env, u), env.nowMs)
  {
    hide SignIn, MutuallyInverse, Verify, CanStart;
    match e {
      case Packet(c, id, body) =>
        if IsSignIn(body) {
          SignInTracks(s, c, body, env, u, last, clock);
        } else if !body.Logout? {
          OtherPacketsKeepSessions(s, c, id, body, env);
        }
      case _ =>
    }
  }

  lemma {:induction false} ClockAfterFirst(es: seq<(Event, Env)>, since: int)
    requires |es| != 0 && ClockOf(es, since)
    ensures since <= es[0].1.nowMs && ClockOf(es[1..], es[0].1.nowMs)
    ensures EndOf(es[1..], es[0].1.nowMs) == EndOf(es, since)
  {
  }

  lemma {:induction false} RunTracks(
    s: ServerState, es: seq<(Event, Env)>, since: int, u: string, last: Option<Session>)
    requires GoodState(s, since) && ClockOf(es, since) && u != "" && Tracks(s.accounts, u, last, since)
    ensures Tracks(ServeAll(s, es).accounts, u, LastIssuedIn(last, s, es, u), EndOf(es, since))
    decreases |es|
  {
    if |es| != 0 {
      ClockAfterFirst(es, since);
      hide Serve, LastIssued, GoodState, Tracks, MutuallyInverse, ClockOf, EndOf;
      var e, env, rest := es[0].0, es[0].1, es[1..];
      var next, now := Serve(s, e, env), LastIssued(last, s, e, env, u);
      GoodIsInverse(s, since);
      ServeTracks(s, e, env, u, last, since);
      ServeKeepsGood(s, e, env, since);
      RunTracks(next, rest, env.nowMs, u, now);
      assert ServeAll(s, es) == ServeAll(next, rest);
      assert LastIssuedIn(last, s, es, u) == LastIssuedIn(now, next, rest, u);
    }
  }

  lemma {:induction false} GoodIsInverse(s: ServerState, clock: int)
    requires GoodState(s, clock)
    ensures MutuallyInverse(s.presence)
  {
  }

  lemma {:induction false} ResumesWith(a: Accounts, u: string, token: string, env: Env)
    requires u != "" && token != ""
    ensures Verify(a, ResumeSession(u, token), env).Accepted? <==>
      u in a.sessions && env.nowMs < a.sessions[u].expiresAt && env.hashToken(token) == a.sessions[u].tokenHash
  {
  }

  /** In every run of the server, from any valid database, a session is resumed exactly with a token that hashes
      like the one last issued to the user, while that has not expired, and unless the user has since logged out
      or been replaced on the connection. */
  lemma {:induction false} TokenResumesIff(
    s: ServerState, es: seq<(Event, Env)>, since: int, u: string, token: string, env: Env)
    requires Started(s) && ClockOf(es, since) && EndOf(es, since) <= env.nowMs && u != "" && token != ""
    ensures var last := LastIssuedIn(SessionOf(s.accounts, u), s, es, u);
      Verify(ServeAll(s, es).accounts, ResumeSession(u, token), env).Accepted? <==>
        last.Some? && env.nowMs < last.value.expiresAt && env.hashToken(token) == last.value.tokenHash
  {
    hide ServeAll, LastIssuedIn, Verify;
    RunTracks(s, es, since, u, SessionOf(s.accounts, u));
    ResumesWith(ServeAll(s, es).accounts, u, token, env);
  }
}
