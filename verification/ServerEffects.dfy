/** What one event served does to the stored messages and to the connections' queues. */
module ServerEffects {
  import opened Options
  import opened IdOrder
  import opened MessageTable
  import opened ServerLogic

  /** The packet a stored private message is sent as. */
  function PrivateBody(r: Row): Body { Private(r.sender, r.recipient, r.text, r.createdAt) }

  /** A reliable send is of a stored message; a private one goes to `recipient`. */
  predicate SendsStored(s: ServerState, recipient: string, id: string, body: Body) {
    || (id in s.messages && body == PrivateBody(s.messages[id]) && s.messages[id].recipient == recipient)
    || (id in s.broadcasts
      && body == Public(s.broadcasts[id].sender, s.broadcasts[id].text, s.broadcasts[id].createdAt))
  }

  predicate ItemsStored(s: ServerState, recipient: string, items: seq<Item>) {
    forall i :: 0 <= i < |items| && items[i].SendReliably? ==> SendsStored(s, recipient, items[i].id, items[i].body)
  }

  /** The id is not yet used, if the packet is a message. */
  predicate FreshMessage(s: ServerState, e: Event) {
    e.Packet? && (e.body.SendPrivate? || e.body.SendPublic?) ==> e.id !in s.messages && e.id !in s.broadcasts
  }

  /** Messages keep everything but the delivery and read times; broadcasts keep everything. */
  predicate Extends(s: ServerState, t: ServerState) {
    && (forall id | id in s.messages :: id in t.messages && PrivateBody(t.messages[id]) == PrivateBody(s.messages[id]))
    && (forall id | id in s.broadcasts :: id in t.broadcasts && t.broadcasts[id] == s.broadcasts[id])
  }

  lemma {:induction false} ServeExtends(s: ServerState, e: Event, env: Env)
    requires FreshMessage(s, e)
    ensures Extends(s, Serve(s, e, env))
  {
    hide Serve, FreshMessage;
    forall id | id in s.messages || id in s.broadcasts
      ensures id in s.messages ==>
        id in Serve(s, e, env).messages && PrivateBody(Serve(s, e, env).messages[id]) == PrivateBody(s.messages[id])
      ensures id in s.broadcasts ==>
        id in Serve(s, e, env).broadcasts && Serve(s, e, env).broadcasts[id] == s.broadcasts[id]
    {
      ServeKeepsRow(s, e, env, id);
    }
  }

  lemma {:induction false} ServeKeepsRow(s: ServerState, e: Event, env: Env, id: string)
    requires FreshMessage(s, e)
    ensures id in s.messages ==>
      id in Serve(s, e, env).messages && PrivateBody(Serve(s, e, env).messages[id]) == PrivateBody(s.messages[id])
    ensures id in s.broadcasts ==>
      id in Serve(s, e, env).broadcasts && Serve(s, e, env).broadcasts[id] == s.broadcasts[id]
  {
    hide Serve;
    TablesAfter(s, e, env);
  }

  /** A signed-in user's packet of an accepted private message. */
  predicate StoresPrivate(s: ServerState, e: Event, env: Env) {
    && e.Packet? && e.body.SendPrivate? && env.allowed && env.textOk
    && UserOf(s.presence, e.c) != "" && e.body.recipient != "" && e.body.recipient != UserOf(s.presence, e.c)
    && e.body.recipient in s.accounts.users
  }

  predicate StoresPublic(s: ServerState, e: Event, env: Env) {
    e.Packet? && e.body.SendPublic? && UserOf(s.presence, e.c) != "" && env.allowed && env.textOk
  }

  function MessagesAfter(s: ServerState, e: Event, env: Env): Table {
    if StoresPrivate(s, e, env)
      then Store(s.messages, e.id, UserOf(s.presence, e.c), e.body.recipient, e.body.text, env.nowMs)
    else if ServesReceipt(s, e, env) then MarkRead(s.messages, e.id, env.nowMs)
    else if e.Acknowledged? && e.body.Private? && e.id != "" && e.body.sender != "" && e.body.recipient != ""
    then MarkDelivered(s.messages, e.id, env.nowMs)
    else s.messages
  }

  function BroadcastsAfter(s: ServerState, e: Event, env: Env): map<string, Broadcast> {
    if StoresPublic(s, e, env)
    then StoreBroadcast(s, e.id, UserOf(s.presence, e.c), e.body.text, env.nowMs).broadcasts
    else s.broadcasts
  }

  /** All that an event writes to the message tables. */
  lemma {:induction false} TablesAfter(s: ServerState, e: Event, env: Env)
    ensures Serve(s, e, env).messages == MessagesAfter(s, e, env)
    ensures Serve(s, e, env).broadcasts == BroadcastsAfter(s, e, env)
    ensures StoresPrivate(s, e, env) || StoresPublic(s, e, env) ==> Serve(s, e, env).presence == s.presence
  {
    hide OnPacket, MessagesAfter, BroadcastsAfter, BroadcastUsers, MarkDelivered;
    if e.Packet? {
      PacketTables(s, e.c, e.id, e.body, env);
    } else {
      SignalTables(s, e, env);
    }
  }

  lemma {:induction false} SignalTables(s: ServerState, e: Event, env: Env)
    requires !e.Packet?
    ensures Serve(s, e, env).messages == MessagesAfter(s, e, env)
    ensures Serve(s, e, env).broadcasts == BroadcastsAfter(s, e, env)
  {
    hide OnPacket, Post, PostAll, OnlineConnections, Store, MarkRead, MarkDelivered;
  }

  lemma {:induction false} PacketTables(s: ServerState, c: Conn, id: string, body: Body, env: Env)
    ensures var t, e := OnPacket(s, c, id, body, env), Packet(c, id, body);
      && t.messages == MessagesAfter(s, e, env) && t.broadcasts == BroadcastsAfter(s, e, env)
      && (StoresPrivate(s, e, env) || StoresPublic(s, e, env) ==> t.presence == s.presence)
  {
    hide SignIn, LogOut, Post, PostAll, BroadcastUsers, SendPending, OnlineConnections, Store, MarkRead, MarkDelivered;
    hide BroadcastHistory, PrivateRecords, DialogUsers, HandleHistory, HandleCheckUser;
    if IsSignIn(body) {
      SignInKeepsTables(s, c, body, env);
    } else {
      OthersKeepTables(s, c, UserOf(s.presence, c), body, env);
    }
  }

  lemma {:induction false} OthersKeepTables(s: ServerState, c: Conn, u: string, body: Body, env: Env)
    ensures SameStored(s, LogOut(s, c, u))
    ensures body.HistoryRequest? ==> SameStored(s, HandleHistory(s, c, u, body.chatUser, body.limit))
    ensures body.CheckUser? ==> SameStored(s, HandleCheckUser(s, c, body.username, env))
  {
    hide Post, BroadcastUsers, BroadcastHistory, PrivateRecords;
  }

  predicate SameStored(s: ServerState, t: ServerState) {
    t.messages == s.messages && t.broadcasts == s.broadcasts
  }

  lemma {:induction false} SignInKeepsTables(s: ServerState, c: Conn, body: Body, env: Env)
    requires IsSignIn(body)
    ensures SignIn(s, c, body, env).messages == s.messages && SignIn(s, c, body, env).broadcasts == s.broadcasts
  {
    hide Finalize, Verify, CanStart, AttachFails, InvalidateSession;
  }

  /** Only a message packet stores a message, under its own id, from the user signed in on its connection. */
  lemma {:induction false} StoredByItsSender(s: ServerState, e: Event, env: Env, id: string)
    requires FreshMessage(s, e)
    ensures id in Serve(s, e, env).messages && id !in s.messages ==>
      var r := Serve(s, e, env).messages[id];
      && e.Packet? && e.id == id && e.body == SendPrivate(r.recipient, r.text)
      && r.sender == UserOf(s.presence, e.c) && r.sender != "" && r.recipient != "" && r.deliveredAt == None
      && Serve(s, e, env).presence == s.presence
    ensures id in Serve(s, e, env).broadcasts && id !in s.broadcasts ==>
      var b := Serve(s, e, env).broadcasts[id];
      && e.Packet? && e.id == id && e.body == SendPublic(b.text) && b.sender == UserOf(s.presence, e.c)
        && b.sender != ""
      && Serve(s, e, env).presence == s.presence
  {
    hide Serve;
    TablesAfter(s, e, env);
  }

  /** A signed-in user's read receipt that the rate limiter lets through. Neither the user nor the recipient it
      names is compared with the message. */
  predicate ServesReceipt(s: ServerState, e: Event, env: Env) {
    e.Packet? && e.body.ReadReceipt? && UserOf(s.presence, e.c) != "" && env.allowed
  }

  /** A client has acknowledged the private packet with this id. */
  predicate AcksPrivate(e: Event, id: string) {
    && e.Acknowledged? && e.body.Private? && e.id == id && id != ""
    && e.body.sender != "" && e.body.recipient != ""
  }

  predicate IsDelivered(s: ServerState, id: string) { id in s.messages && s.messages[id].deliveredAt.Some? }

  predicate IsRead(s: ServerState, id: string) { id in s.messages && s.messages[id].readAt.Some? }

  /** A stored message becomes delivered exactly by the ack of a private packet with its id or by a read receipt
      for it, and read exactly by the receipt. */
  lemma {:induction false} DeliveredExactlyBy(s: ServerState, e: Event, env: Env, id: string)
    requires FreshMessage(s, e)
    ensures IsDelivered(Serve(s, e, env), id) <==>
      IsDelivered(s, id) || (id in s.messages && (AcksPrivate(e, id) || (ServesReceipt(s, e, env) && e.id == id)))
    ensures IsRead(Serve(s, e, env), id) <==>
      IsRead(s, id) || (id in s.messages && ServesReceipt(s, e, env) && e.id == id)
  {
    hide Serve;
    TablesAfter(s, e, env);
  }

  lemma {:induction false} SignInKeepsOtherUsers(s: ServerState, c: Conn, body: Body, env: Env, d: Conn)
    requires IsSignIn(body) && d != c && d in SignIn(s, c, body, env).presence.users
    ensures d in s.presence.users && SignIn(s, c, body, env).presence.users[d] == s.presence.users[d]
  {
    hide Post, Finalize, Verify, CanStart, AttachFails, InvalidateSession;
  }

  predicate SameUserOn(s: ServerState, t: ServerState, d: Conn) {
    d in t.presence.users ==> d in s.presence.users && t.presence.users[d] == s.presence.users[d]
  }

  /** An event changes who is signed in on its own connection only. */
  lemma {:induction false} ServeKeepsOtherUsers(s: ServerState, e: Event, env: Env, d: Conn)
    requires d != e.c && d in Serve(s, e, env).presence.users
    ensures d in s.presence.users && Serve(s, e, env).presence.users[d] == s.presence.users[d]
  {
    hide SignIn, LogOut, HandlePublic, HandlePrivate, HandleRead, HandleHistory, HandleCheckUser, Post, BroadcastUsers,
      MarkDelivered, DialogUsers;
    if e.Packet? {
      if IsSignIn(e.body) {
        SignInKeepsOtherUsers(s, e.c, e.body, env, d);
      } else {
        HandlersKeepOtherUsers(s, e.c, UserOf(s.presence, e.c), e.id, e.body, env, d);
      }
    }
  }

  lemma {:induction false} HandlersKeepOtherUsers(
    s: ServerState, c: Conn, u: string, id: string, body: Body, env: Env, d: Conn)
    requires d != c
    ensures SameUserOn(s, LogOut(s, c, u), d)
    ensures body.SendPublic? ==> SameUserOn(s, HandlePublic(s, c, u, id, body.text, env), d)
    ensures body.SendPrivate? ==> SameUserOn(s, HandlePrivate(s, c, u, id, body.recipient, body.text, env), d)
    ensures body.ReadReceipt? ==> SameUserOn(s, HandleRead(s, u, id, body.recipient, env), d)
    ensures body.HistoryRequest? ==> SameUserOn(s, HandleHistory(s, c, u, body.chatUser, body.limit), d)
    ensures body.CheckUser? ==> SameUserOn(s, HandleCheckUser(s, c, body.username, env), d)
  {
    hide Post, PostAll, BroadcastUsers, Store, MarkRead, OnlineConnections, BroadcastHistory, PrivateRecords;
  }

  /** Whatever is served, rows keep their times in order and their status never moves backwards. */
  lemma {:induction false} ServeKeepsTimes(s: ServerState, e: Event, env: Env, clock: int)
    requires AllInOrder(s.messages, clock) && clock <= env.nowMs
    ensures AllInOrder(Serve(s, e, env).messages, env.nowMs) && AllLater(s.messages, Serve(s, e, env).messages)
  {
    hide Serve;
    TablesAfter(s, e, env);
    if StoresPrivate(s, e, env) {
      ApplyKeepsOrder(s.messages, StoreOp(e.id, UserOf(s.presence, e.c), e.body.recipient, e.body.text, env.nowMs),
        clock);
    } else if e.Packet? {
      ApplyKeepsOrder(s.messages, ReadOp(e.id, env.nowMs), clock);
    } else if e.Acknowledged? {
      ApplyKeepsOrder(s.messages, DeliveredOp(e.id, env.nowMs), clock);
    }
  }

  // ---- What is added to the queues ----

  predicate Adds(s: ServerState, t: ServerState, c: Conn, added: seq<Item>) {
    Queue(t.outbox, c) == Queue(s.outbox, c) + added
  }

  lemma {:induction false} PostAdds(s: ServerState, c: Conn, item: Item, d: Conn)
    ensures Adds(s, Post(s, c, item), d, if d == c then [item] else [])
  {
  }

  lemma {:induction false} PostAllAdds(s: ServerState, cs: set<Conn>, item: Item, d: Conn)
    ensures Adds(s, PostAll(s, cs, item), d, if d in cs then [item] else [])
  {
  }

  lemma {:induction false} PostEachAdds(s: ServerState, c: Conn, items: seq<Item>, d: Conn)
    ensures Adds(s, PostEach(s, c, items), d, if d == c then items else [])
  {
  }

  lemma {:induction false} AddsTransitive(
    s: ServerState, t: ServerState, u: ServerState, c: Conn, a: seq<Item>, b: seq<Item>)
    requires Adds(s, t, c, a) && Adds(t, u, c, b)
    ensures Adds(s, u, c, a + b)
  {
  }

  /** What goes round with the user list, for one connection. */
  function ListFor(p: Presence, c: Conn): seq<Item> {
    if c in OnlineConnections(p) then [Send("", UserList(p.online.Keys))] else []
  }

  ghost function PendingPackets(s: ServerState, u: string): seq<Item> {
    PendingIds(s.messages, u);
    PrivatePackets(s.messages, Pending(s.messages, u))
  }

  /** The whole greeting of a user who has signed in on `c`, as added to the queue of `d`. */
  ghost function Greeting(s: ServerState, c: Conn, u: string, env: Env, d: Conn): seq<Item> {
    (if d == c then [Send("", AuthOk(u, env.newToken, env.nowMs + SESSION_LIFETIME_MS))] else []) +
    ListFor(s.presence, d) +
    (if d == c then [Send("", DialogList(DialogUsers(s.messages, u)))] else []) +
    (if d == c then PendingPackets(s, u) else [])
  }

  lemma {:induction false} FinalizeAdds(s: ServerState, c: Conn, u: string, env: Env, d: Conn)
    ensures Adds(s, Finalize(s, c, u, env), d, Greeting(s, c, u, env, d))
  {
    hide Post, PostAll, PostEach, Adds, DialogUsers, PendingPackets;
    var item1, item3 := Send("", AuthOk(u, env.newToken, env.nowMs + SESSION_LIFETIME_MS)),
      Send("", DialogList(DialogUsers(s.messages, u)));
    var s1 := Post(s, c, item1);
    var s2 := BroadcastUsers(s1);
    var s3 := Post(s2, c, item3);
    PostAdds(s, c, item1, d);
    PostAllAdds(s1, OnlineConnections(s1.presence), Send("", UserList(s1.presence.online.Keys)), d);
    PostAdds(s2, c, item3, d);
    PostEachAdds(s3, c, PendingPackets(s3, u), d);
    PendingPacketsFor(s3, c, u);
    var a1 := if d == c then [item1] else [];
    var a3 := if d == c then [item3] else [];
    AddsTransitive(s, s1, s2, d, a1, ListFor(s.presence, d));
    AddsTransitive(s, s2, s3, d, a1 + ListFor(s.presence, d), a3);
    var a4 := if d == c then PendingPackets(s, u) else [];
    AddsTransitive(s, s3, SendPending(s3, c, u), d, a1 + ListFor(s.presence, d) + a3, a4);
  }

  lemma {:induction false} PendingPacketsFor(s: ServerState, c: Conn, u: string)
    ensures SendPending(s, c, u) == PostEach(s, c, PendingPackets(s, u))
    ensures forall t: ServerState | t.messages == s.messages :: PendingPackets(t, u) == PendingPackets(s, u)
  {
  }

  predicate HasReliable(items: seq<Item>, id: string) {
    exists i :: 0 <= i < |items| && items[i].SendReliably? && items[i].id == id
  }

  lemma {:induction false} GreetingIsStored(s: ServerState, c: Conn, u: string, env: Env, d: Conn)
    ensures d == c || NoReliable(Greeting(s, c, u, env, d))
    ensures d == c ==> ItemsStored(s, u, Greeting(s, c, u, env, d))
    ensures forall id | id in Undelivered(s.messages, u) :: HasReliable(Greeting(s, c, u, env, c), id)
  {
    hide SortSet, DialogUsers, PendingPackets, OnlineConnections, Undelivered, HasReliable;
    PendingArePrivate(s, u);
    forall id | id in Undelivered(s.messages, u) ensures HasReliable(Greeting(s, c, u, env, c), id) {
      GreetingHasPending(s, c, u, env, id);
    }
  }

  lemma {:induction false} PendingArePrivate(s: ServerState, u: string)
    ensures ItemsStored(s, u, PendingPackets(s, u))
  {
    PendingIds(s.messages, u);
    hide Pending;
  }

  lemma {:induction false} GreetingHasPending(s: ServerState, c: Conn, u: string, env: Env, id: string)
    requires id in Undelivered(s.messages, u)
    ensures HasReliable(Greeting(s, c, u, env, c), id)
  {
    PendingIds(s.messages, u);
    PendingIs(s.messages, u, id);
    hide Pending, DialogUsers, OnlineConnections;
    var pending, g := PendingPackets(s, u), Greeting(s, c, u, env, c);
    var head := [Send("", AuthOk(u, env.newToken, env.nowMs + SESSION_LIFETIME_MS))] + ListFor(s.presence, c)
      + [Send("", DialogList(DialogUsers(s.messages, u)))];
    assert g == head + pending;
    var i :| 0 <= i < |Pending(s.messages, u)| && Pending(s.messages, u)[i] == id;
    assert g[|head| + i] == PrivatePacket(id, s.messages[id]);
  }

  lemma {:induction false} GreetingHasNoNotices(s: ServerState, c: Conn, u: string, env: Env, d: Conn)
    ensures NoNotices(Greeting(s, c, u, env, d))
  {
    hide SortSet, DialogUsers;
  }

  /** At most one item, and not the request to close. */
  predicate Few(items: seq<Item>) {
    |items| <= 1 && forall i :: 0 <= i < |items| ==> !items[i].CloseAndNotify?
  }

  predicate NoReliable(items: seq<Item>) {
    forall i :: 0 <= i < |items| ==> !items[i].SendReliably?
  }

  /** Whether a packet tells a client about private messages: the message itself, a history, or what has become
      of one. */
  predicate TellsOfMessages(body: Body) {
    body.Private? || body.HistoryReply? || body.DeliveredNote? || body.ReadNote?
  }

  predicate IsNotice(item: Item) { item.Send? && TellsOfMessages(item.body) }

  predicate NoNotices(items: seq<Item>) {
    forall i :: 0 <= i < |items| ==> !IsNotice(items[i])
  }

  /** The records of private messages between two users, as stored. */
  predicate RecordsBetween(s: ServerState, u: string, v: string, items: seq<HistoryMessageRecord>) {
    forall i :: 0 <= i < |items| ==>
      && items[i].id in Between(s.messages, u, v) && items[i].id in s.messages
      && items[i] == RecordOf(items[i].id, s.messages[items[i].id])
  }

  /** A "delivered" notice goes to the sender of the message acknowledged, a "read" notice names the user whose
      read receipt is served, and a history of private messages is the asking user's with the named one. */
  predicate NoticeOf(s: ServerState, e: Event, env: Env, d: Conn, item: Item) {
    IsNotice(item) ==>
      match item.body
      case DeliveredNote(recipient, _) =>
        && AcksPrivate(e, item.id) && recipient == e.body.recipient
        && e.body.sender in s.presence.online && s.presence.online[e.body.sender] == d
      case ReadNote(sender) => ServesReceipt(s, e, env) && item.id == e.id && sender == UserOf(s.presence, e.c)
      case HistoryReply(chatUser, items) =>
        chatUser == "Broadcast"
          || (UserOf(s.presence, d) != "" && RecordsBetween(s, UserOf(s.presence, d), chatUser, items))
      case _ => false
  }

  predicate NoticesOf(s: ServerState, e: Event, env: Env, d: Conn, items: seq<Item>) {
    forall i :: 0 <= i < |items| ==> NoticeOf(s, e, env, d, items[i])
  }

  /** What signing in adds to the queue of `d`. */
  lemma {:induction false} SignInAdds(s: ServerState, c: Conn, body: Body, env: Env, d: Conn) returns (added: seq<Item>)
    requires IsSignIn(body) && MutuallyInverse(s.presence)
    ensures var t := SignIn(s, c, body, env);
      && Adds(s, t, d, added)
      && (NoReliable(added) || (UserOf(t.presence, d) != "" && ItemsStored(t, UserOf(t.presence, d), added)))
      && NoNotices(added)
  {
    hide Finalize, Verify, CanStart, AttachFails, InvalidateSession, Greeting, Post, ItemsStored, MutuallyInverse;
    AttachSucceeds(s.presence, c, body.username);
    var v := Verify(s.accounts, body, env);
    var checked := s.(accounts := v.after);
    if !env.allowed || !CanStart(s.presence, c, body.username) || v.Refused? {
      var reason := if !env.allowed then RateLimited
                    else if !CanStart(s.presence, c, body.username) then AlreadyLoggedIn else v.reason;
      var item := if body.ResumeSession? && (!env.allowed || CanStart(s.presence, c, body.username))
                  then Send("", SessionInvalid(reason)) else Send("", AuthError(reason));
      var base := if env.allowed && CanStart(s.presence, c, body.username) then checked else s;
      PostAdds(base, c, item, d);
      added := if d == c then [item] else [];
    } else {
      var attached := Attach(checked, c, body.username);
      FinalizeAdds(attached, c, body.username, env, d);
      GreetingIsStored(attached, c, body.username, env, d);
      GreetingHasNoNotices(attached, c, body.username, env, d);
      added := Greeting(attached, c, body.username, env, d);
      AcceptedIsNamed(s.accounts, body, env);
      if d == c {
        SameTables(attached, SignIn(s, c, body, env), body.username, added);
      }
    }
  }

  lemma {:induction false} AcceptedIsNamed(a: Accounts, body: Body, env: Env)
    requires IsSignIn(body) && Verify(a, body, env).Accepted?
    ensures body.username != ""
  {
  }

  lemma {:induction false} SameTables(s: ServerState, t: ServerState, recipient: string, items: seq<Item>)
    requires s.messages == t.messages && s.broadcasts == t.broadcasts && ItemsStored(s, recipient, items)
    ensures ItemsStored(t, recipient, items)
  {
  }

  /** What a server step adds to one queue: plain items, or reliable sends of messages then stored, private
      ones to their recipient. */
  ghost predicate SendsOnlyStored(s: ServerState, t: ServerState, d: Conn, added: seq<Item>) {
    Adds(s, t, d, added) && (NoReliable(added) || ItemsStored(t, UserOf(t.presence, d), added))
  }

  lemma {:induction false} LogOutAdds(s: ServerState, c: Conn, u: string, d: Conn) returns (added: seq<Item>)
    ensures SendsOnlyStored(s, LogOut(s, c, u), d, added) && NoNotices(added)
  {
    hide Post, PostAll, Adds;
    var out := s.(presence := Unregister(s.presence, c), accounts := InvalidateSession(s.accounts, u));
    UserListAdds(s, out, d);
    PostAdds(BroadcastUsers(out), c, CloseAndNotify, d);
    var closing := if d == c then [CloseAndNotify] else [];
    AddsTransitive(s, BroadcastUsers(out), LogOut(s, c, u), d, ListFor(out.presence, d), closing);
    added := ListFor(out.presence, d) + closing;
  }

  lemma {:induction false} UserListAdds(s: ServerState, t: ServerState, d: Conn)
    requires s.outbox == t.outbox
    ensures Adds(s, BroadcastUsers(t), d, ListFor(t.presence, d))
  {
  }

  lemma {:induction false} PublicAdds(s: ServerState, c: Conn, u: string, id: string, text: string, env: Env, d: Conn)
    returns (added: seq<Item>)
    requires id !in s.broadcasts
    ensures SendsOnlyStored(s, HandlePublic(s, c, u, id, text, env), d, added) && NoNotices(added) && Few(added)
  {
    hide Post, PostAll, Adds, OnlineConnections;
    if !env.allowed || !env.textOk {
      var item := Send(id, Failure(if !env.allowed then RateLimited else BadText));
      PostAdds(s, c, item, d);
      added := if d == c then [item] else [];
    } else {
      var stored := StoreBroadcast(s, id, u, text, env.nowMs);
      var item := SendReliably(id, Public(u, text, env.nowMs));
      var targets := OnlineConnections(s.presence);
      PostAllAdds(stored, targets, item, d);
      added := if d in targets then [item] else [];
      SameQueues(s, stored, PostAll(stored, targets, item), d, added);
    }
  }

  lemma {:induction false} PrivateAdds(
    s: ServerState, c: Conn, u: string, id: string, recipient: string, text: string, env: Env, d: Conn)
    returns (added: seq<Item>)
    requires id !in s.messages && MutuallyInverse(s.presence)
    ensures SendsOnlyStored(s, HandlePrivate(s, c, u, id, recipient, text, env), d, added) && NoNotices(added)
    ensures Few(added)
  {
    hide MutuallyInverse, Post, Adds;
    var stored := s.(messages := Store(s.messages, id, u, recipient, text, env.nowMs));
    if !env.allowed || u == "" || recipient == "" || u == recipient || !env.textOk || recipient !in s.accounts.users {
      var reason := if !env.allowed then RateLimited
                    else if u == "" || recipient == "" || u == recipient then ToYourself
                    else if !env.textOk then BadText else UserNotFound;
      PostAdds(s, c, Send(id, Failure(reason)), d);
      added := if d == c then [Send(id, Failure(reason))] else [];
    } else if recipient !in s.presence.online {
      var item := Send(id, Queued(recipient, env.nowMs));
      PostAdds(stored, c, item, d);
      added := if d == c then [item] else [];
      SameQueues(s, stored, HandlePrivate(s, c, u, id, recipient, text, env), d, added);
    } else {
      var item := SendReliably(id, Private(u, recipient, text, env.nowMs));
      var target := s.presence.online[recipient];
      PostAdds(stored, target, item, d);
      added := if d == target then [item] else [];
      SameQueues(s, stored, HandlePrivate(s, c, u, id, recipient, text, env), d, added);
      TargetIsRecipient(s.presence, recipient);
    }
  }

  lemma {:induction false} SameQueues(s: ServerState, t: ServerState, u: ServerState, d: Conn, added: seq<Item>)
    requires s.outbox == t.outbox && Adds(t, u, d, added)
    ensures Adds(s, u, d, added)
  {
  }

  lemma {:induction false} TargetIsRecipient(p: Presence, u: string)
    requires MutuallyInverse(p) && u in p.online
    ensures UserOf(p, p.online[u]) == u
  {
  }

  lemma {:induction false} AddsUnique(s: ServerState, t: ServerState, d: Conn, a: seq<Item>, b: seq<Item>)
    requires Adds(s, t, d, a) && Adds(s, t, d, b)
    ensures a == b
  {
    assert a == (Queue(s.outbox, d) + a)[|Queue(s.outbox, d)|..];
    assert b == (Queue(s.outbox, d) + b)[|Queue(s.outbox, d)|..];
  }

  /** Every event makes the server send reliably only messages it has then stored, with their stored
      contents, and private ones only to a connection on which the recipient is signed in. */
  lemma {:induction false} ServeSendsOnlyStored(s: ServerState, e: Event, env: Env, d: Conn) returns (added: seq<Item>)
    requires MutuallyInverse(s.presence) && FreshMessage(s, e)
    ensures SendsOnlyStored(s, Serve(s, e, env), d, added)
    ensures NoticesOf(s, e, env, d, added)
  {
    hide SignIn, LogOut, HandlePublic, HandlePrivate, MutuallyInverse, ItemsStored, BroadcastHistory, PrivateRecords,
      DialogUsers, OnlineConnections;
    var t := Serve(s, e, env);
    if e.ConnectionClosed? {
      UserListAdds(s, s.(presence := Unregister(s.presence, e.c)), d);
      added := ListFor(Unregister(s.presence, e.c), d);
    } else if e.Packet? && IsSignIn(e.body) {
      added := SignInAdds(s, e.c, e.body, env, d);
    } else if e.Packet? && UserOf(s.presence, e.c) != "" && e.body.Logout? {
      added := LogOutAdds(s, e.c, UserOf(s.presence, e.c), d);
    } else if e.Packet? && UserOf(s.presence, e.c) != "" && e.body.SendPublic? {
      added := PublicAdds(s, e.c, UserOf(s.presence, e.c), e.id, e.body.text, env, d);
    } else if e.Packet? && UserOf(s.presence, e.c) != "" && e.body.SendPrivate? {
      added := PrivateAdds(s, e.c, UserOf(s.presence, e.c), e.id, e.body.recipient, e.body.text, env, d);
    } else {
      added := OthersAdd(s, e, env, d);
    }
  }

  lemma {:induction false} OthersAdd(s: ServerState, e: Event, env: Env, d: Conn) returns (added: seq<Item>)
    requires !e.ConnectionClosed? && !(e.Packet? && IsSignIn(e.body))
    requires e.Packet? && UserOf(s.presence, e.c) != "" ==>
      !e.body.Logout? && !e.body.SendPublic? && !e.body.SendPrivate?
    ensures Adds(s, Serve(s, e, env), d, added) && NoReliable(added) && NoticesOf(s, e, env, d, added) && Few(added)
  {
    hide SignIn, LogOut, HandlePublic, HandlePrivate, Post, NoReliable, Adds, BroadcastHistory, PrivateRecords,
      DialogUsers;
    if e.Acknowledged? {
      var marked := s.(messages := MarkDelivered(s.messages, e.id, env.nowMs));
      if e.body.Private? && e.id != "" && e.body.sender != "" && e.body.recipient != ""
        && e.body.sender in s.presence.online {
        added := OnePost(s, marked, s.presence.online[e.body.sender],
          Send(e.id, DeliveredNote(e.body.recipient, e.body.createdAt)), d);
      } else {
        added := NoPost(s, Serve(s, e, env), d);
      }
    } else if UserOf(s.presence, e.c) == "" {
      added := OnePost(s, s, e.c, Send("", AuthError(NotLoggedIn)), d);
    } else {
      added := SignedInAdd(s, e.c, e.id, e.body, env, d);
    }
  }

  lemma {:induction false} SignedInAdd(s: ServerState, c: Conn, id: string, body: Body, env: Env, d: Conn)
    returns (added: seq<Item>)
    requires UserOf(s.presence, c) != "" && !IsSignIn(body)
    requires !body.Logout? && !body.SendPublic? && !body.SendPrivate?
    ensures Adds(s, OnPacket(s, c, id, body, env), d, added) && NoReliable(added) && Few(added)
    ensures NoticesOf(s, Packet(c, id, body), env, d, added)
  {
    hide SignIn, LogOut, HandlePublic, HandlePrivate, HandleRead, HandleHistory, Post, NoReliable, Adds, DialogUsers,
      Few, NoticesOf;
    var u, e := UserOf(s.presence, c), Packet(c, id, body);
    match body {
      case CheckUser(other) =>
        var item := Send("", if !env.allowed then Failure(RateLimited)
                             else UserCheckResult(other, other in s.accounts.users, other in s.presence.online));
        added := QuietPost(s, e, env, item, d);
      case DialogsRequest => added := QuietPost(s, e, env, Send("", DialogList(DialogUsers(s.messages, u))), d);
      case HistoryRequest(chatUser, limit) => added := HistoryAdds(s, c, u, id, chatUser, limit, env, d);
      case ReadReceipt(recipient) => added := ReceiptAdds(s, c, u, id, recipient, env, d);
      case _ =>
        added := NoPost(s, s, d);
        NothingIsNotices(s, e, env, d);
    }
  }

  /** A single answer on the packet's own connection that says nothing of private messages. */
  lemma {:induction false} QuietPost(s: ServerState, e: Event, env: Env, item: Item, d: Conn)
    returns (added: seq<Item>)
    requires item.Send? && !IsNotice(item)
    ensures Adds(s, Post(s, e.c, item), d, added) && NoReliable(added) && Few(added)
    ensures NoticesOf(s, e, env, d, added)
  {
    hide Post, Adds;
    added := OnePost(s, s, e.c, item, d);
  }

  lemma {:induction false} NothingIsNotices(s: ServerState, e: Event, env: Env, d: Conn)
    ensures NoticesOf(s, e, env, d, [])
  {
  }

  lemma {:induction false} HistoryAdds(
    s: ServerState, c: Conn, u: string, id: string, chatUser: string, limit: int, env: Env, d: Conn)
    returns (added: seq<Item>)
    requires u == UserOf(s.presence, c) != ""
    ensures Adds(s, HandleHistory(s, c, u, chatUser, limit), d, added) && NoReliable(added) && Few(added)
    ensures NoticesOf(s, Packet(c, id, HistoryRequest(chatUser, limit)), env, d, added)
  {
    hide Post, NoReliable, Adds, BroadcastHistory, PrivateRecords, RecordsBetween;
    var items := if chatUser == "" then []
                 else if chatUser == "Broadcast" then BroadcastHistory(s, Bounded(limit))
                 else PrivateRecords(s, u, chatUser, Bounded(limit));
    added := OnePost(s, s, c, Send("", HistoryReply(chatUser, items)), d);
    PrivateRecordsAre(s, u, chatUser, Bounded(limit));
    NoRecordsBetween(s, u, chatUser);
  }

  lemma {:induction false} NoRecordsBetween(s: ServerState, u: string, v: string)
    ensures RecordsBetween(s, u, v, [])
  {
  }

  lemma {:induction false} ReceiptAdds(
    s: ServerState, c: Conn, u: string, id: string, recipient: string, env: Env, d: Conn)
    returns (added: seq<Item>)
    requires u == UserOf(s.presence, c) != ""
    ensures Adds(s, HandleRead(s, u, id, recipient, env), d, added) && NoReliable(added) && Few(added)
    ensures NoticesOf(s, Packet(c, id, ReadReceipt(recipient)), env, d, added)
  {
    hide Post, NoReliable, Adds, MarkRead;
    var marked := s.(messages := MarkRead(s.messages, id, env.nowMs));
    if env.allowed && recipient in s.presence.online {
      added := OnePost(s, marked, s.presence.online[recipient], Send(id, ReadNote(u)), d);
    } else {
      added := NoPost(s, HandleRead(s, u, id, recipient, env), d);
    }
  }

  lemma {:induction false} PrivateRecordsAre(s: ServerState, u: string, v: string, limit: int)
    ensures RecordsBetween(s, u, v, PrivateRecords(s, u, v, limit))
  {
    hide NewestAscending;
    NewestKnown(TimesOf(s.messages), Between(s.messages, u, v), limit);
  }

  lemma {:induction false} OnePost(s: ServerState, t: ServerState, c: Conn, item: Item, d: Conn)
    returns (added: seq<Item>)
    requires s.outbox == t.outbox && item.Send?
    ensures Adds(s, Post(t, c, item), d, added) && NoReliable(added) && Few(added)
    ensures added == if d == c then [item] else []
  {
    PostAdds(t, c, item, d);
    added := if d == c then [item] else [];
  }

  lemma {:induction false} NoPost(s: ServerState, t: ServerState, d: Conn) returns (added: seq<Item>)
    requires s.outbox == t.outbox
    ensures Adds(s, t, d, added) && NoReliable(added) && Few(added) && added == []
  {
    added := [];
  }

  // ---- Nobody's message is forgotten ----

  /** `id` waits for `u`, who is online. */
  predicate Awaits(s: ServerState, u: string, id: string) {
    u in s.presence.online && id in Undelivered(s.messages, u)
  }

  /** After any event, a message still waiting for an online user was already waiting for that user on the
      same connection, or has just been queued for it. */
  lemma {:induction false} ServeForgetsNobody(
    s: ServerState, e: Event, env: Env, u: string, id: string, added: seq<Item>)
    requires MutuallyInverse(s.presence) && FreshMessage(s, e)
    requires Awaits(Serve(s, e, env), u, id)
    requires Adds(s, Serve(s, e, env), Serve(s, e, env).presence.online[u], added)
    ensures || (Awaits(s, u, id) && s.presence.online[u] == Serve(s, e, env).presence.online[u])
            || HasReliable(added, id)
  {
    hide SignIn, LogOut, HandlePublic, HandlePrivate, MutuallyInverse, ItemsStored, BroadcastHistory, PrivateRecords,
      DialogUsers, OnlineConnections;
    if e.Packet? && IsSignIn(e.body) {
      SignInForgetsNobody(s, e.c, e.body, env, u, id, added);
    } else if e.Packet? && UserOf(s.presence, e.c) != "" && e.body.SendPrivate? {
      PrivateForgetsNobody(s, e.c, UserOf(s.presence, e.c), e.id, e.body.recipient, e.body.text, env, u, id, added);
    } else {
      OthersForgetNobody(s, e, env, u, id);
    }
  }

  lemma {:induction false} OthersForgetNobody(s: ServerState, e: Event, env: Env, u: string, id: string)
    requires !(e.Packet? && IsSignIn(e.body)) && !(e.Packet? && UserOf(s.presence, e.c) != "" && e.body.SendPrivate?)
    requires Awaits(Serve(s, e, env), u, id)
    ensures Awaits(s, u, id) && s.presence.online[u] == Serve(s, e, env).presence.online[u]
  {
    hide Post, PostAll, BroadcastHistory, PrivateRecords, DialogUsers, OnlineConnections;
  }

  lemma {:induction false} PrivateForgetsNobody(
    s: ServerState, c: Conn, v: string, newId: string, recipient: string, text: string, env: Env, u: string,
    id: string, added: seq<Item>)
    requires newId !in s.messages
    requires var t := HandlePrivate(s, c, v, newId, recipient, text, env);
      Awaits(t, u, id) && Adds(s, t, t.presence.online[u], added)
    ensures var t := HandlePrivate(s, c, v, newId, recipient, text, env);
      (Awaits(s, u, id) && s.presence.online[u] == t.presence.online[u]) || HasReliable(added, id)
  {
    var t := HandlePrivate(s, c, v, newId, recipient, text, env);
    if id == newId {
      var item := SendReliably(id, Private(v, recipient, text, env.nowMs));
      assert u == recipient;
      AddsUnique(s, t, t.presence.online[u], [item], added);
      assert added[0] == item;
    }
  }

  lemma {:induction false} SignInForgetsNobody(
    s: ServerState, c: Conn, body: Body, env: Env, u: string, id: string, added: seq<Item>)
    requires IsSignIn(body) && MutuallyInverse(s.presence)
    requires var t := SignIn(s, c, body, env);
      Awaits(t, u, id) && Adds(s, t, t.presence.online[u], added)
    ensures || (Awaits(s, u, id) && s.presence.online[u] == SignIn(s, c, body, env).presence.online[u])
            || HasReliable(added, id)
  {
    hide Finalize, Verify, CanStart, AttachFails, InvalidateSession, Greeting, Post, MutuallyInverse, Undelivered;
    AttachSucceeds(s.presence, c, body.username);
    SignInKeepsTables(s, c, body, env);
    var t := SignIn(s, c, body, env);
    var v := Verify(s.accounts, body, env);
    if env.allowed && CanStart(s.presence, c, body.username) && v.Accepted? && u == body.username {
      var attached := Attach(s.(accounts := v.after), c, body.username);
      FinalizeAdds(attached, c, u, env, c);
      GreetingIsStored(attached, c, u, env, c);
      AddsUnique(s, t, c, Greeting(attached, c, u, env, c), added);
    }
  }
}
