/** The program's `ServerStorage` and `Server` classes. Their methods are proved to do what module ServerLogic
    prescribes, so the theorems about runs hold of them. Requests to connections go to per-connection queues,
    which is how Qt runs `invokeMethod` on another thread's object. */
module Servers {
  import opened Options
  import opened IdOrder
  import opened MessageTable
  import opened Numbers
  import opened ServerLogic
  import ServerEffects

  /** The tables of Server/serverstorage.cpp. `issued` is not stored; it records session expiries. */
  class ServerStorage {
    var users: map<string, string>
    var sessions: map<string, Session>
    ghost var issued: map<string, int>
    var messages: Table
    var broadcasts: map<string, Broadcast>

    constructor ()
      ensures Tables() == Accounts(map[], map[], map[]) && messages == map[] && broadcasts == map[]
    {
      users, sessions, issued, messages, broadcasts := map[], map[], map[], map[], map[];
    }

    ghost function Tables(): Accounts
      reads this
    {
      Accounts(users, sessions, issued)
    }

    method IssueSession(username: string, env: Env) returns (ok: bool)
      modifies this`sessions, this`issued
      ensures ok <==> username != ""
      ensures Tables() == if ok then ServerLogic.IssueSession(old(Tables()), username, env) else old(Tables())
    {
      if username == "" {
        return false;
      }
      var expiresAt := env.nowMs + SESSION_LIFETIME_MS;
      sessions := sessions[username := Session(env.hashToken(env.newToken), expiresAt)];
      issued := issued[username := expiresAt];
      ok := true;
    }

    method RemoveExpiredSession(username: string, nowMs: int)
      modifies this`sessions
      ensures Tables() == if username == "" then old(Tables()) else RemoveExpired(old(Tables()), username, nowMs)
    {
      if username == "" {
        return;
      }
      if username in sessions && sessions[username].expiresAt <= nowMs {
        sessions := sessions - {username};
      }
    }

    method InvalidateSession(username: string)
      modifies this`sessions
      ensures Tables() == ServerLogic.InvalidateSession(old(Tables()), username)
    {
      if username == "" {
        return;
      }
      sessions := sessions - {username};
    }

    method RegisterUser(username: string, password: string, env: Env) returns (ok: bool, reason: Reason)
      modifies this`users, this`sessions, this`issued
      ensures Outcome(ok, reason) == Verify(old(Tables()), Register(username, password), env)
    {
      reason := BadUsername;
      if !UsernameValid(username) {
        return false, BadUsername;
      }
      if |password| < MIN_PASSWORD_LENGTH {
        return false, ShortPassword;
      }
      if username in users {
        return false, UserExists;
      }
      users := users[username := env.newPasswordHash];
      ok := IssueSession(username, env);
    }

    method LoginUser(username: string, password: string, env: Env) returns (ok: bool, reason: Reason)
      modifies this`sessions, this`issued
      ensures Outcome(ok, reason) == Verify(old(Tables()), Login(username, password), env)
    {
      if username !in users {
        return false, UserNotFound;
      }
      if !env.verifies(password, users[username]) {
        return false, WrongPassword;
      }
      reason := UserNotFound;
      ok := IssueSession(username, env);
    }

    method ResumeSession(username: string, token: string, env: Env) returns (ok: bool, reason: Reason)
      modifies this`sessions, this`issued
      ensures Outcome(ok, reason) == Verify(old(Tables()), Body.ResumeSession(username, token), env)
    {
      if username == "" || token == "" {
        return false, SessionExpired;
      }
      RemoveExpiredSession(username, env.nowMs);
      if username !in sessions {
        return false, SessionExpired;
      }
      // the program checks the expiry again here; with one clock reading per request it cannot have passed
      if sessions[username].tokenHash != env.hashToken(token) {
        return false, SessionMismatch;
      }
      reason := SessionExpired;
      ok := IssueSession(username, env);
    }

    ghost function Outcome(ok: bool, reason: Reason): Verified
      reads this
    {
      if ok then Accepted(Tables()) else Refused(Tables(), reason)
    }

    predicate HasUser(username: string)
      reads this
    {
      username != "" && username in users
    }

    method StorePrivateMessage(id: string, sender: string, recipient: string, text: string, createdAt: int)
      modifies this`messages
      ensures messages == Store(old(messages), id, sender, recipient, text, createdAt)
    {
      if id in messages {
        var row := messages[id];
        messages := messages[id := Row(sender, recipient, text, row.createdAt, row.deliveredAt, row.readAt)];
      } else {
        messages := messages[id := Row(sender, recipient, text, createdAt, None, None)];
      }
    }

    method StoreBroadcastMessage(id: string, sender: string, text: string, createdAt: int)
      modifies this`broadcasts
      ensures broadcasts == old(broadcasts)[id :=
        if id in old(broadcasts) then old(broadcasts)[id].(sender := sender, text := text)
          else Broadcast(sender, text, createdAt)]
    {
      if id in broadcasts {
        broadcasts := broadcasts[id := Broadcast(sender, text, broadcasts[id].createdAt)];
      } else {
        broadcasts := broadcasts[id := Broadcast(sender, text, createdAt)];
      }
    }

    method MarkMessageDelivered(id: string, atMs: int)
      modifies this`messages
      ensures messages == MarkDelivered(old(messages), id, atMs)
    {
      if id in messages && messages[id].deliveredAt.None? {
        messages := messages[id := messages[id].(deliveredAt := Some(atMs))];
      }
      assert id in messages ==> messages[id := messages[id]] == messages;
    }

    method MarkMessageRead(id: string, atMs: int)
      modifies this`messages
      ensures messages == MarkRead(old(messages), id, atMs)
    {
      if id in messages {
        var row := messages[id];
        messages := messages[id := row.(deliveredAt := Coalesce(row.deliveredAt, atMs), readAt := Some(atMs))];
      }
    }
  }

  /** The session and message handling of Server/server.cpp. */
  class Server {
    const storage: ServerStorage
    var connectionUsers: map<Conn, string>
    var onlineUsers: map<string, Conn>
    var outbox: Outbox

    constructor ()
      ensures fresh(storage) && Valid()
      ensures State() == ServerState(Presence(map[], map[]), Accounts(map[], map[], map[]), map[], map[], map[])
    {
      storage := new ServerStorage();
      connectionUsers, onlineUsers, outbox := map[], map[], map[];
    }

    ghost function State(): ServerState
      reads this, storage
    {
      ServerState(Presence(connectionUsers, onlineUsers), storage.Tables(), storage.messages, storage.broadcasts,
        outbox)
    }

    ghost predicate Valid()
      reads this, storage
    {
      MutuallyInverse(Presence(connectionUsers, onlineUsers)) && "" !in onlineUsers
    }

    function UsernameFor(c: Conn): string
      reads this
    {
      if c in connectionUsers then connectionUsers[c] else ""
    }

    method SendTo(c: Conn, item: Item)
      modifies this`outbox
      ensures State() == Post(old(State()), c, item)
    {
      outbox := outbox[c := Queue(outbox, c) + [item]];
    }

    method CanStartAuthenticatedSession(c: Conn, username: string) returns (ok: bool)
      ensures ok <==> CanStart(State().presence, c, username)
    {
      var currentUsername := UsernameFor(c);
      if currentUsername != "" && currentUsername == username {
        return true;
      }
      if username in onlineUsers && onlineUsers[username] != c {
        return false;
      }
      ok := true;
    }

    method AttachAuthenticatedSession(c: Conn, username: string) returns (ok: bool)
      modifies this`connectionUsers, this`onlineUsers, storage`sessions
      ensures State() == Attach(old(State()), c, username)
      ensures ok <==> !AttachFails(old(State()).presence, c, username)
    {
      var currentUsername := UsernameFor(c);
      if currentUsername != "" && currentUsername != username {
        onlineUsers := onlineUsers - {currentUsername};
        connectionUsers := connectionUsers - {c};
        storage.InvalidateSession(currentUsername);
      }
      if username in onlineUsers && onlineUsers[username] != c {
        return false;
      }
      onlineUsers := onlineUsers[username := c];
      connectionUsers := connectionUsers[c := username];
      ok := true;
    }

    /** Sends one item to every online user's connection, in the hash table's order. */
    method SendToAll(item: Item)
      requires Valid()
      modifies this`outbox
      ensures State() == PostAll(old(State()), OnlineConnections(old(State()).presence), item)
    {
      hide Post, PostAll;
      ghost var before := State();
      ghost var reached: set<Conn> := {};
      var recipients := onlineUsers.Keys;
      PostNobody(before, item);
      while recipients != {}
        invariant recipients <= onlineUsers.Keys
        invariant reached == (set u | u in onlineUsers && u !in recipients :: onlineUsers[u])
        invariant State() == PostAll(before, reached, item)
        decreases recipients
      {
        var u :| u in recipients;
        PostOneMore(before, reached, onlineUsers[u], item);
        recipients := recipients - {u};
        reached := reached + {onlineUsers[u]};
        SendTo(onlineUsers[u], item);
      }
      assert reached == OnlineConnections(before.presence);
    }

    method BroadcastUsers()
      requires Valid()
      modifies this`outbox
      ensures State() == ServerLogic.BroadcastUsers(old(State()))
    {
      SendToAll(Send("", UserList(onlineUsers.Keys)));
    }

    method SendDialogList(c: Conn, username: string)
      modifies this`outbox
      ensures State() == Post(old(State()), c, Send("", DialogList(DialogUsers(old(State()).messages, username))))
    {
      SendTo(c, Send("", DialogList(DialogUsers(storage.messages, username))));
    }

    method SendPendingPrivateMessages(c: Conn, username: string)
      modifies this`outbox
      ensures State() == SendPending(old(State()), c, username)
    {
      hide Pending, PostEach, Post;
      ghost var before := State();
      var records := LoadPendingPrivateMessages(storage.messages, username);
      PendingIds(storage.messages, username);
      ghost var packets := PrivatePackets(storage.messages, records);
      PostNothing(before, c);
      for i := 0 to |records|
        invariant State() == PostEach(before, c, packets[..i])
      {
        PostNext(before, c, packets[..i], packets[i]);
        assert packets[..i + 1] == packets[..i] + [packets[i]];
        var record := storage.messages[records[i]];
        SendTo(c, SendReliably(records[i], Private(record.sender, record.recipient, record.text, record.createdAt)));
      }
      assert packets[..|records|] == packets;
    }

    method FinalizeAuthenticatedSession(c: Conn, username: string, env: Env)
      requires Valid()
      modifies this`outbox
      ensures State() == Finalize(old(State()), c, username, env)
    {
      hide Post, ServerLogic.BroadcastUsers, SendPending, DialogUsers;
      SendTo(c, Send("", AuthOk(username, env.newToken, env.nowMs + SESSION_LIFETIME_MS)));
      BroadcastUsers();
      SendDialogList(c, username);
      SendPendingPrivateMessages(c, username);
    }

    /** The end of each sign-in handler, once the credentials are accepted. */
    method StartSession(c: Conn, username: string, env: Env)
      requires Valid() && username != ""
      modifies this, storage`sessions
      ensures Valid()
      ensures var attached := Attach(old(State()), c, username);
        State() == if AttachFails(old(State()).presence, c, username)
                   then Post(attached.(accounts := ServerLogic.InvalidateSession(attached.accounts, username)), c,
                             Send("", AuthError(AlreadyLoggedIn)))
                   else Finalize(attached, c, username, env)
    {
      AttachKeepsInverse(State().presence, c, username);
      hide Attach, Finalize, MutuallyInverse, AttachFails, Post;
      var ok := AttachAuthenticatedSession(c, username);
      if !ok {
        storage.InvalidateSession(username);
        SendTo(c, Send("", AuthError(AlreadyLoggedIn)));
        return;
      }
      FinalizeAuthenticatedSession(c, username, env);
    }

    method HandleRegisterPacket(c: Conn, username: string, password: string, env: Env)
      requires Valid()
      modifies this, storage
      ensures Valid()
      ensures State() == SignIn(old(State()), c, Register(username, password), env)
    {
      hide Attach, Finalize, MutuallyInverse, Verify, Post, CanStart, AttachFails;
      if !env.allowed {
        SendTo(c, Send("", AuthError(RateLimited)));
        return;
      }
      var canStart := CanStartAuthenticatedSession(c, username);
      if !canStart {
        SendTo(c, Send("", AuthError(AlreadyLoggedIn)));
        return;
      }
      ghost var before := storage.Tables();
      var ok, reason := storage.RegisterUser(username, password, env);
      if !ok {
        SendTo(c, Send("", AuthError(reason)));
        return;
      }
      ServerEffects.AcceptedIsNamed(before, Register(username, password), env);
      StartSession(c, username, env);
    }

    method HandleLoginPacket(c: Conn, username: string, password: string, env: Env)
      requires Valid()
      modifies this, storage
      ensures Valid()
      ensures State() == SignIn(old(State()), c, Login(username, password), env)
    {
      hide Attach, Finalize, MutuallyInverse, Verify, Post, CanStart, AttachFails;
      if !env.allowed {
        SendTo(c, Send("", AuthError(RateLimited)));
        return;
      }
      var canStart := CanStartAuthenticatedSession(c, username);
      if !canStart {
        SendTo(c, Send("", AuthError(AlreadyLoggedIn)));
        return;
      }
      ghost var before := storage.Tables();
      var ok, reason := storage.LoginUser(username, password, env);
      if !ok {
        SendTo(c, Send("", AuthError(reason)));
        return;
      }
      ServerEffects.AcceptedIsNamed(before, Login(username, password), env);
      StartSession(c, username, env);
    }

    method HandleResumeSessionPacket(c: Conn, username: string, token: string, env: Env)
      requires Valid()
      modifies this, storage
      ensures Valid()
      ensures State() == SignIn(old(State()), c, ResumeSession(username, token), env)
    {
      hide Attach, Finalize, MutuallyInverse, Verify, Post, CanStart, AttachFails;
      if !env.allowed {
        SendTo(c, Send("", SessionInvalid(RateLimited)));
        return;
      }
      var canStart := CanStartAuthenticatedSession(c, username);
      if !canStart {
        SendTo(c, Send("", AuthError(AlreadyLoggedIn)));
        return;
      }
      ghost var before := storage.Tables();
      var ok, reason := storage.ResumeSession(username, token, env);
      if !ok {
        SendTo(c, Send("", SessionInvalid(reason)));
        return;
      }
      ServerEffects.AcceptedIsNamed(before, Body.ResumeSession(username, token), env);
      StartSession(c, username, env);
    }

    method UnregisterConnection(c: Conn)
      requires Valid()
      modifies this`connectionUsers, this`onlineUsers
      ensures Valid()
      ensures State() == old(State()).(presence := Unregister(old(State()).presence, c))
    {
      var username := UsernameFor(c);
      connectionUsers := connectionUsers - {c};
      if username != "" {
        onlineUsers := onlineUsers - {username};
      }
    }

    method HandleLogoutPacket(c: Conn, username: string)
      requires Valid()
      modifies this, storage`sessions
      ensures Valid()
      ensures State() == LogOut(old(State()), c, username)
    {
      storage.InvalidateSession(username);
      UnregisterConnection(c);
      BroadcastUsers();
      SendTo(c, CloseAndNotify);
    }

    method HandleBroadcastPacket(c: Conn, username: string, id: string, text: string, env: Env)
      requires Valid()
      modifies this`outbox, storage`broadcasts
      ensures State() == HandlePublic(old(State()), c, username, id, text, env)
    {
      if !env.allowed {
        SendTo(c, Send(id, Failure(RateLimited)));
        return;
      }
      if !env.textOk {
        SendTo(c, Send(id, Failure(BadText)));
        return;
      }
      storage.StoreBroadcastMessage(id, username, text, env.nowMs);
      SendToAll(SendReliably(id, Public(username, text, env.nowMs)));
    }

    method HandlePrivatePacket(c: Conn, username: string, id: string, recipient: string, text: string, env: Env)
      requires username != ""
      modifies this`outbox, storage`messages
      ensures State() == HandlePrivate(old(State()), c, username, id, recipient, text, env)
    {
      if !env.allowed {
        SendTo(c, Send(id, Failure(RateLimited)));
        return;
      }
      if recipient == "" || username == recipient {
        SendTo(c, Send(id, Failure(ToYourself)));
        return;
      }
      if !env.textOk {
        SendTo(c, Send(id, Failure(BadText)));
        return;
      }
      if !storage.HasUser(recipient) {
        SendTo(c, Send(id, Failure(UserNotFound)));
        return;
      }
      storage.StorePrivateMessage(id, username, recipient, text, env.nowMs);
      if recipient !in onlineUsers {
        SendTo(c, Send(id, Queued(recipient, env.nowMs)));
        return;
      }
      SendTo(onlineUsers[recipient], SendReliably(id, Private(username, recipient, text, env.nowMs)));
    }

    method HandleReadPacket(username: string, id: string, recipient: string, env: Env)
      modifies this`outbox, storage`messages
      ensures State() == HandleRead(old(State()), username, id, recipient, env)
    {
      if !env.allowed {
        return;
      }
      storage.MarkMessageRead(id, env.nowMs);
      if recipient in onlineUsers {
        SendTo(onlineUsers[recipient], Send(id, ReadNote(username)));
      }
    }

    method LoadBroadcastHistory(limit: int) returns (records: seq<HistoryMessageRecord>)
      ensures records == BroadcastHistory(State(), limit)
    {
      hide SortSet, NewestAscending;
      var times := map id | id in storage.broadcasts :: storage.broadcasts[id].createdAt;
      NewestAreTheLast(times, storage.broadcasts.Keys, limit);
      NewestKnown(times, storage.broadcasts.Keys, limit);
      var rows := SelectAscending(times, storage.broadcasts.Keys);
      rows := LastEntries(rows, Max(1, limit));
      records := [];
      for i := 0 to |rows|
        invariant |records| == i
        invariant forall j :: 0 <= j < i ==> records[j] == BroadcastRecord(rows[j], storage.broadcasts[rows[j]])
      {
        records := records + [BroadcastRecord(rows[i], storage.broadcasts[rows[i]])];
      }
    }

    method SendHistory(c: Conn, username: string, chatUser: string, limit: int)
      modifies this`outbox
      ensures State() == HandleHistory(old(State()), c, username, chatUser, limit)
    {
      hide Post, BroadcastHistory, PrivateHistory;
      var bounded := Max(1, Min(limit, 200));
      if chatUser == "" {
        SendTo(c, Send("", HistoryReply(chatUser, [])));
        return;
      }
      var items: seq<HistoryMessageRecord>;
      if chatUser == "Broadcast" {
        items := LoadBroadcastHistory(bounded);
      } else {
        items := LoadPrivateHistory(storage.messages, username, chatUser, bounded);
        assert items == PrivateRecords(State(), username, chatUser, bounded);
      }
      SendTo(c, Send("", HistoryReply(chatUser, items)));
    }

    method HandleCheckUserPacket(c: Conn, lookupUsername: string, env: Env)
      requires "" !in storage.users
      modifies this`outbox
      ensures State() == HandleCheckUser(old(State()), c, lookupUsername, env)
    {
      if !env.allowed {
        SendTo(c, Send("", Failure(RateLimited)));
        return;
      }
      var online := lookupUsername in onlineUsers;
      SendTo(c, Send("", UserCheckResult(lookupUsername, storage.HasUser(lookupUsername), online)));
    }

    method HandleAuthPacket(c: Conn, body: Body, env: Env) returns (handled: bool)
      requires Valid()
      modifies this, storage
      ensures Valid() && (handled <==> IsSignIn(body))
      ensures State() == if handled then SignIn(old(State()), c, body, env) else old(State())
    {
      hide SignIn, MutuallyInverse;
      match body {
        case Register(username, password) => HandleRegisterPacket(c, username, password, env);
        case Login(username, password) => HandleLoginPacket(c, username, password, env);
        case ResumeSession(username, token) => HandleResumeSessionPacket(c, username, token, env);
        case _ => return false;
      }
      handled := true;
    }

    method HandleAuthenticatedPacket(c: Conn, username: string, id: string, body: Body, env: Env)
      requires Valid() && username != "" && "" !in storage.users && username == UsernameFor(c) && !IsSignIn(body)
      modifies this, storage
      ensures Valid()
      ensures State() == OnPacket(old(State()), c, id, body, env)
    {
      hide Post, MutuallyInverse, LogOut, HandleCheckUser, HandleHistory, HandlePublic, HandlePrivate, HandleRead,
        SignIn;
      match body {
        case Logout => HandleLogoutPacket(c, username);
        case CheckUser(lookup) => HandleCheckUserPacket(c, lookup, env);
        case DialogsRequest => SendDialogList(c, username);
        case HistoryRequest(chatUser, limit) => SendHistory(c, username, chatUser, limit);
        case SendPublic(text) => HandleBroadcastPacket(c, username, id, text, env);
        case SendPrivate(recipient, text) => HandlePrivatePacket(c, username, id, recipient, text, env);
        case ReadReceipt(recipient) => HandleReadPacket(username, id, recipient, env);
        case _ =>
      }
    }

    method OnPacketReceived(c: Conn, id: string, body: Body, env: Env)
      requires Valid() && "" !in storage.users
      modifies this, storage
      ensures Valid()
      ensures State() == OnPacket(old(State()), c, id, body, env)
    {
      hide Post, MutuallyInverse, SignIn, LogOut, HandleCheckUser, HandleHistory, HandlePublic, HandlePrivate,
        HandleRead;
      var handled := HandleAuthPacket(c, body, env);
      if handled {
        return;
      }
      var username := UsernameFor(c);
      if username == "" {
        SendTo(c, Send("", AuthError(NotLoggedIn)));
        return;
      }
      HandleAuthenticatedPacket(c, username, id, body, env);
    }

    method OnTrackedPacketAcknowledged(id: string, body: Body, env: Env)
      modifies this`outbox, storage`messages
      ensures State() == OnAcknowledged(old(State()), id, body, env)
    {
      if !body.Private? {
        return;
      }
      if id == "" || body.sender == "" || body.recipient == "" {
        return;
      }
      storage.MarkMessageDelivered(id, env.nowMs);
      if body.sender in onlineUsers {
        SendTo(onlineUsers[body.sender], Send(id, DeliveredNote(body.recipient, body.createdAt)));
      }
    }

    method OnConnectionClosed(c: Conn)
      requires Valid()
      modifies this`connectionUsers, this`onlineUsers, this`outbox
      ensures Valid()
      ensures State() == OnClosed(old(State()), c)
    {
      UnregisterConnection(c);
      BroadcastUsers();
    }
  }

  lemma {:induction false} PostNobody(s: ServerState, item: Item)
    ensures PostAll(s, {}, item) == s
  {
    assert PostAll(s, {}, item).outbox == s.outbox;
  }

  lemma {:induction false} PostOneMore(s: ServerState, cs: set<Conn>, c: Conn, item: Item)
    requires c !in cs
    ensures PostAll(s, cs + {c}, item) == Post(PostAll(s, cs, item), c, item)
  {
    assert PostAll(s, cs + {c}, item).outbox == Post(PostAll(s, cs, item), c, item).outbox;
  }

  lemma {:induction false} PostNothing(s: ServerState, c: Conn)
    ensures PostEach(s, c, []) == s
  {
  }

  lemma {:induction false} PostNext(s: ServerState, c: Conn, items: seq<Item>, item: Item)
    ensures PostEach(s, c, items + [item]) == Post(PostEach(s, c, items), c, item)
  {
    var queued := Queue(s.outbox, c);
    assert queued + (items + [item]) == (queued + items) + [item];
    assert items == [] ==> queued + items == queued;
    assert PostEach(s, c, items + [item]).outbox == Post(PostEach(s, c, items), c, item).outbox;
  }
}
