/** The client's message store on disk (Client/historystore.cpp) and the chat window's use of it
    (Client/chatwindow.cpp): every change to a message in memory is written through for the signed-in user. */
module ChatStore {
  import opened IdOrder
  import opened ChatState

  const BROADCAST: string := "Broadcast"

  /** A row of the `messages` table. The key is the message id alone, not the owner and the id. */
  datatype Saved = Saved(owner: string, message: ChatMessage)

  type Store = map<string, Saved>

  function Saving(t: Store, owner: string, m: ChatMessage): Store {
    if owner == "" || m.id == "" then t else t[m.id := Saved(owner, m)]
  }

  function SaveAll(t: Store, owner: string, ms: seq<ChatMessage>): Store {
    if ms == [] then t else Saving(SaveAll(t, owner, ms[..|ms| - 1]), owner, ms[|ms| - 1])
  }

  /** The messages stored for one user. */
  function RowsOf(t: Store, owner: string): Messages {
    map id | id in t && t[id].owner == owner :: t[id].message
  }

  function Clearing(t: Store, owner: string): Store {
    if owner == "" then t else map id | id in t && t[id].owner != owner :: t[id]
  }

  /** `SELECT ... WHERE owner_username = ? AND chat_key = ? ORDER BY created_at, message_id`. */
  ghost function Loading(t: Store, owner: string, key: string): seq<ChatMessage> {
    var rows := RowsOf(t, owner);
    View(rows, SortSet(TimesOf(rows), IdsOf(rows, key)))
  }

  /** `SELECT DISTINCT chat_key ... chat_key <> 'Broadcast'`. */
  function DialogsOf(t: Store, owner: string): set<string> {
    (set id | id in RowsOf(t, owner) :: RowsOf(t, owner)[id].chatKey) - {BROADCAST}
  }

  /** Rows are filed under their own non-empty id and have a time. */
  predicate StoreValid(t: Store) {
    forall id | id in t :: id != "" && t[id].message.id == id && t[id].message.createdAt > 0
  }

  // ---- The chat window ----

  /** The session and the store; `receipts` are the read receipts sent. */
  datatype Window = Window(chats: Chats, username: string, onlineSession: bool, offlineMode: bool, store: Store,
                           receipts: seq<(string, string)>)

  /** Memory without the message of the empty id, which is never stored. */
  function Storable(ms: Messages): Messages { ms - {""} }

  predicate AllDated(ms: Messages) {
    forall id | id in ms :: ms[id].createdAt > 0
  }

  /** A user's rows are the messages in memory. */
  predicate InStep(t: Store, owner: string, ms: Messages) {
    StoreValid(t) && AllDated(ms) && (owner != "" ==> RowsOf(t, owner) == Storable(ms))
  }

  ghost predicate Synced(w: Window) {
    Indexed(w.chats) && InStep(w.store, w.username, w.chats.messages)
  }

  function Append(w: Window, source: ChatMessage, persist: bool, nowMs: int): Window
    requires Resolves(w.chats)
  {
    var message := Stored(w.chats, source, nowMs);
    w.(chats := Upsert(w.chats, source, nowMs),
       store := if persist && w.username != "" then Saving(w.store, w.username, message) else w.store)
  }

  /** The handlers of "queued", "delivered" and "read" packets. */
  function SetStatus(w: Window, id: string, status: string, createdAt: int): Window
    requires Resolves(w.chats)
  {
    var chats := UpdateStatus(w.chats, id, status, createdAt);
    if id !in w.chats.messages then w
    else w.(chats := chats, store := if w.username != "" then Saving(w.store, w.username, chats.messages[id])
      else w.store)
  }

  function ReceiptsFor(key: string, ms: seq<ChatMessage>): seq<(string, string)> {
    seq(|ms|, i requires 0 <= i < |ms| => (key, ms[i].id))
  }

  /** Opening a chat. */
  function MarkCurrentRead(w: Window, key: string): Window
    requires Resolves(w.chats)
  {
    if !w.onlineSession || w.offlineMode || key == BROADCAST then w
    else
      var updated := NewlyRead(w.chats, key);
      w.(chats := MarkRead(w.chats, key),
         store := if w.username != "" then SaveAll(w.store, w.username, updated) else w.store,
         receipts := w.receipts + ReceiptsFor(key, updated))
  }

  function Deactivate(w: Window): Window {
    w.(chats := NoChats(), username := "", onlineSession := false, offlineMode := false)
  }

  /** Loads the chats listed, in their stored order. */
  ghost function LoadChats(c: Chats, t: Store, owner: string, keys: seq<string>, nowMs: int): (r: Chats)
    requires Resolves(c)
    ensures Resolves(r)
  {
    if keys == [] then c
    else
      var n := |keys| - 1;
      UpsertEach(LoadChats(c, t, owner, keys[..n], nowMs), Loading(t, owner, keys[n]), nowMs)
  }

  function UpsertEach(c: Chats, ms: seq<ChatMessage>, nowMs: int): (r: Chats)
    requires Resolves(c)
    ensures Resolves(r)
  {
    if ms == [] then c else Upsert(UpsertEach(c, ms[..|ms| - 1], nowMs), ms[|ms| - 1], nowMs)
  }

  /** `dialogs` is the order in which the query lists the dialogs. */
  ghost predicate ListsDialogs(t: Store, owner: string, dialogs: seq<string>) {
    NoDuplicates(dialogs) && Elements(dialogs) == DialogsOf(t, owner)
  }

  ghost function Activate(w: Window, username: string, offline: bool, dialogs: seq<string>, nowMs: int): Window {
    var chats := if w.username == username then w.chats
                 else if username == "" then NoChats()
                 else LoadChats(NoChats(), w.store, username, [BROADCAST] + dialogs, nowMs);
    w.(chats := chats, username := username, onlineSession := !offline, offlineMode := offline)
  }

  /** The logout button: the session ends first, then the user's rows are deleted. */
  function LogOut(w: Window, username: string): Window {
    var d := Deactivate(w);
    d.(store := Clearing(d.store, username))
  }

  // ---- Each event keeps memory and store together ----

  lemma {:induction false} SaveKeepsInStep(t: Store, owner: string, ms: Messages, m: ChatMessage)
    requires InStep(t, owner, ms) && m.createdAt > 0
    ensures InStep(Saving(t, owner, m), owner, ms[m.id := m])
  {
    if owner != "" && m.id != "" {
      assert RowsOf(Saving(t, owner, m), owner) == RowsOf(t, owner)[m.id := m];
    }
  }

  lemma {:induction false} IndexedResolves(c: Chats)
    requires Indexed(c)
    ensures Resolves(c)
  {
  }

  lemma {:induction false} AppendKeepsSynced(w: Window, source: ChatMessage, nowMs: int)
    requires Synced(w) && nowMs > 0
    ensures Synced(Append(w, source, true, nowMs))
  {
    hide Indexed, Upsert, InStep, Resolves;
    IndexedResolves(w.chats);
    UpsertKeepsIndexed(w.chats, source, nowMs);
    UpsertStores(w.chats, source, nowMs);
    SaveKeepsInStep(w.store, w.username, w.chats.messages, Stored(w.chats, source, nowMs));
  }

  lemma {:induction false} StatusStores(c: Chats, id: string, status: string, createdAt: int)
    requires Resolves(c) && AllDated(c.messages) && id in c.messages
    ensures var after := UpdateStatus(c, id, status, createdAt).messages;
      id in after && after == c.messages[id := after[id]] && after[id].id == id && after[id].createdAt > 0
  {
  }

  lemma {:induction false} DatedInStep(t: Store, owner: string, ms: Messages)
    requires InStep(t, owner, ms)
    ensures AllDated(ms)
  {
  }

  lemma {:induction false} SetStatusKeepsSynced(w: Window, id: string, status: string, createdAt: int)
    requires Synced(w)
    ensures Synced(SetStatus(w, id, status, createdAt))
  {
    hide Indexed, UpdateStatus, InStep, Resolves, AllDated;
    IndexedResolves(w.chats);
    DatedInStep(w.store, w.username, w.chats.messages);
    UpdateStatusKeepsIndexed(w.chats, id, status, createdAt);
    if id in w.chats.messages {
      StatusStores(w.chats, id, status, createdAt);
      SaveKeepsInStep(w.store, w.username, w.chats.messages, UpdateStatus(w.chats, id, status, createdAt).messages[id]);
    }
  }

  lemma {:induction false} ReadAgain(ms: Messages, ids: seq<string>, id: string)
    requires id in ms
    ensures ReadIn(ms, ids + [id]) == if Unread(ms[id]) then ReadIn(ms, ids)[id := ms[id].(status := "read")]
      else ReadIn(ms, ids)
  {
  }

  /** Saving what opening a chat returns writes exactly what it changed. */
  lemma {:induction false} SaveNewlyRead(t: Store, owner: string, ms: Messages, ids: seq<string>)
    requires InStep(t, owner, ms) && Known(TimesOf(ms), ids) && forall id | id in ms :: ms[id].id == id
    ensures InStep(SaveAll(t, owner, NewlyReadIn(ms, ids)), owner, ReadIn(ms, ids))
  {
    hide InStep, Saving, ReadIn, Unread;
    if ids == [] {
      ReadNothing(ms);
    } else {
      var n := |ids| - 1;
      assert ids[n] in TimesOf(ms);
      SaveNewlyRead(t, owner, ms, ids[..n]);
      DatedInStep(t, owner, ms);
      assert ids == ids[..n] + [ids[n]];
      ReadAgain(ms, ids[..n], ids[n]);
      var before, all := NewlyReadIn(ms, ids[..n]), NewlyReadIn(ms, ids);
      if Unread(ms[ids[n]]) {
        var m := ms[ids[n]].(status := "read");
        assert all == before + [m] && all[..|all| - 1] == before;
        SaveKeepsInStep(SaveAll(t, owner, before), owner, ReadIn(ms, ids[..n]), m);
      } else {
        assert all == before;
      }
    }
  }

  lemma {:induction false} SaveAllForNobody(t: Store, ms: seq<ChatMessage>)
    ensures SaveAll(t, "", ms) == t
  {
    if ms != [] {
      SaveAllForNobody(t, ms[..|ms| - 1]);
    }
  }

  lemma {:induction false} MarkCurrentReadKeepsSynced(w: Window, key: string)
    requires Synced(w)
    ensures Synced(MarkCurrentRead(w, key))
  {
    hide Indexed, NewlyReadIn, InStep;
    IndexedResolves(w.chats);
    ListIsKnown(w.chats, key);
    MarkReadKeepsIndexed(w.chats, key);
    SaveNewlyRead(w.store, w.username, w.chats.messages, ListOf(w.chats.lists, key));
    SaveAllForNobody(w.store, NewlyRead(w.chats, key));
  }

  lemma {:induction false} ListIsKnown(c: Chats, key: string)
    requires Resolves(c)
    ensures Known(TimesOf(c.messages), ListOf(c.lists, key))
  {
  }

  // ---- Loading ----

  predicate Within(ms: Messages, rows: Messages) {
    forall id | id in ms :: id in rows && ms[id] == rows[id]
  }

  predicate RowsValid(rows: Messages) {
    forall id | id in rows :: id != "" && rows[id].id == id && rows[id].createdAt > 0
  }

  function IdsIn(ms: seq<ChatMessage>): set<string> { set i | 0 <= i < |ms| :: ms[i].id }

  predicate CopiesOf(rows: Messages, ms: seq<ChatMessage>) {
    forall i :: 0 <= i < |ms| ==> ms[i].id in rows && ms[i] == rows[ms[i].id]
  }

  /** The state holds exactly the rows with these ids. */
  ghost predicate Holds(c: Chats, rows: Messages, ids: set<string>) {
    Indexed(c) && Within(c.messages, rows) && c.messages.Keys == ids
  }

  lemma {:induction false} UpsertCopies(c: Chats, rows: Messages, ids: set<string>, m: ChatMessage, nowMs: int)
    requires Holds(c, rows, ids) && RowsValid(rows) && m.id in rows && m == rows[m.id] && Resolves(c)
    ensures Holds(Upsert(c, m, nowMs), rows, ids + {m.id})
  {
    hide Indexed, Upsert, Resolves;
    UpsertKeepsIndexed(c, m, nowMs);
    UpsertStores(c, m, nowMs);
    assert Stored(c, m, nowMs) == m;
  }

  /** Upserting stored rows copies them. */
  lemma {:induction false} UpsertEachCopies(
    c: Chats, rows: Messages, ids: set<string>, ms: seq<ChatMessage>, nowMs: int)
    requires Resolves(c) && Holds(c, rows, ids) && RowsValid(rows) && CopiesOf(rows, ms)
    ensures Holds(UpsertEach(c, ms, nowMs), rows, ids + IdsIn(ms))
  {
    hide Holds, RowsValid, Upsert, Resolves;
    if ms == [] {
      assert ids + IdsIn(ms) == ids;
    } else {
      var n := |ms| - 1;
      UpsertEachCopies(c, rows, ids, ms[..n], nowMs);
      UpsertCopies(UpsertEach(c, ms[..n], nowMs), rows, ids + IdsIn(ms[..n]), ms[n], nowMs);
      IdsInOneMoreMessage(ms);
      assert ids + IdsIn(ms[..n]) + {ms[n].id} == ids + IdsIn(ms);
    }
  }

  lemma {:induction false} IdsInOneMoreMessage(ms: seq<ChatMessage>)
    requires ms != []
    ensures IdsIn(ms) == IdsIn(ms[..|ms| - 1]) + {ms[|ms| - 1].id}
  {
  }

  lemma {:induction false} LoadedIds(t: Store, owner: string, key: string)
    requires RowsValid(RowsOf(t, owner))
    ensures CopiesOf(RowsOf(t, owner), Loading(t, owner, key))
    ensures IdsIn(Loading(t, owner, key)) == IdsOf(RowsOf(t, owner), key)
  {
    hide SortSet, RowsOf;
    var rows := RowsOf(t, owner);
    var ids := SortSet(TimesOf(rows), IdsOf(rows, key));
    var ms := View(rows, ids);
    forall i | 0 <= i < |ms| ensures ids[i] in IdsOf(rows, key) && ms[i].id == ids[i] {
      assert ids[i] in Elements(ids);
    }
    forall id | id in IdsOf(rows, key) ensures id in IdsIn(ms) {
      assert id in Elements(ids);
      var i :| 0 <= i < |ids| && ids[i] == id;
      assert ms[i].id == id;
    }
  }

  function IdsInChats(rows: Messages, keys: seq<string>): set<string> {
    set id | id in rows && rows[id].chatKey in keys
  }

  lemma {:induction false} IdsInOneMore(rows: Messages, keys: seq<string>, key: string)
    ensures IdsInChats(rows, keys + [key]) == IdsInChats(rows, keys) + IdsOf(rows, key)
  {
  }

  lemma {:induction false} NothingLoaded(rows: Messages)
    ensures Holds(NoChats(), rows, IdsInChats(rows, [])) && Resolves(NoChats())
  {
    EmptyIsIndexed();
  }

  lemma {:induction false} LoadChatsCopies(t: Store, owner: string, keys: seq<string>, nowMs: int)
    requires RowsValid(RowsOf(t, owner))
    ensures Holds(LoadChats(NoChats(), t, owner, keys, nowMs), RowsOf(t, owner), IdsInChats(RowsOf(t, owner), keys))
    decreases |keys|
  {
    hide Holds, UpsertEach, Loading, RowsOf, IdsInChats, IdsOf, IdsIn, RowsValid, CopiesOf, Resolves, NoChats;
    var rows := RowsOf(t, owner);
    NothingLoaded(rows);
    if keys != [] {
      var n := |keys| - 1;
      LoadChatsCopies(t, owner, keys[..n], nowMs);
      LoadedIds(t, owner, keys[n]);
      UpsertEachCopies(LoadChats(NoChats(), t, owner, keys[..n], nowMs), rows, IdsInChats(rows, keys[..n]),
                       Loading(t, owner, keys[n]), nowMs);
      assert keys == keys[..n] + [keys[n]];
      IdsInOneMore(rows, keys[..n], keys[n]);
    }
  }

  /** Loading every listed chat rebuilds the user's messages. */
  lemma {:induction false} LoadRebuilds(t: Store, owner: string, dialogs: seq<string>, nowMs: int)
    requires StoreValid(t) && ListsDialogs(t, owner, dialogs)
    ensures var after := LoadChats(NoChats(), t, owner, [BROADCAST] + dialogs, nowMs);
      Indexed(after) && after.messages == RowsOf(t, owner)
  {
    var rows, keys := RowsOf(t, owner), [BROADCAST] + dialogs;
    LoadChatsCopies(t, owner, keys, nowMs);
    hide Indexed, LoadChats, IdsInChats;
    DialogsCoverRows(t, owner, dialogs);
  }

  lemma {:induction false} DialogsCoverRows(t: Store, owner: string, dialogs: seq<string>)
    requires ListsDialogs(t, owner, dialogs)
    ensures IdsInChats(RowsOf(t, owner), [BROADCAST] + dialogs) == RowsOf(t, owner).Keys
  {
    var rows := RowsOf(t, owner);
    forall id | id in rows ensures rows[id].chatKey in [BROADCAST] + dialogs {
      if rows[id].chatKey != BROADCAST {
        assert rows[id].chatKey in DialogsOf(t, owner);
      }
    }
  }

  lemma {:induction false} ActivateKeepsSynced(
    w: Window, username: string, offline: bool, dialogs: seq<string>, nowMs: int)
    requires Synced(w) && ListsDialogs(w.store, username, dialogs)
    ensures Synced(Activate(w, username, offline, dialogs, nowMs))
  {
    hide LoadChats, Indexed;
    if w.username != username {
      LoadRebuilds(w.store, username, dialogs, nowMs);
      EmptyIsIndexed();
      var rows := RowsOf(w.store, username);
      assert Storable(rows) == rows;
    }
  }

  lemma {:induction false} EmptyIsIndexed()
    ensures Indexed(NoChats())
  {
  }

  lemma {:induction false} LeavingKeepsSynced(w: Window, username: string)
    requires Synced(w)
    ensures Synced(Deactivate(w)) && Synced(LogOut(w, username))
    ensures username != "" ==> RowsOf(LogOut(w, username).store, username) == map[]
    ensures forall other | other != username :: RowsOf(LogOut(w, username).store, other) == RowsOf(w.store, other)
  {
    hide Indexed;
    EmptyIsIndexed();
  }

  // ---- Whole runs ----

  datatype Event =
    | Appended(message: ChatMessage, nowMs: int)
    | StatusChanged(id: string, status: string, createdAt: int)
    | ChatOpened(key: string)
    | Activated(username: string, offline: bool, dialogs: seq<string>, nowMs: int)
    | Deactivated
    | LoggedOut(username: string)

  /** The clock is positive, and the dialogs loaded are those of the user. */
  ghost predicate Possible(w: Window, e: Event) {
    && (e.Appended? ==> e.nowMs > 0)
    && (e.Activated? ==> ListsDialogs(w.store, e.username, e.dialogs))
  }

  ghost function Step(w: Window, e: Event): (r: Window)
    requires Resolves(w.chats)
    ensures Resolves(r.chats)
  {
    match e
    case Appended(m, nowMs) => Append(w, m, true, nowMs)
    case StatusChanged(id, status, createdAt) => SetStatus(w, id, status, createdAt)
    case ChatOpened(key) => MarkCurrentRead(w, key)
    case Activated(u, offline, dialogs, nowMs) => Activate(w, u, offline, dialogs, nowMs)
    case Deactivated => Deactivate(w)
    case LoggedOut(u) => LogOut(w, u)
  }

  ghost predicate CanRun(w: Window, es: seq<Event>)
    requires Resolves(w.chats)
    decreases |es|
  {
    es == [] || (Possible(w, es[0]) && CanRun(Step(w, es[0]), es[1..]))
  }

  ghost function Run(w: Window, es: seq<Event>): Window
    requires Resolves(w.chats) && CanRun(w, es)
    decreases |es|
  {
    if es == [] then w else Run(Step(w, es[0]), es[1..])
  }

  lemma {:induction false} StepKeepsSynced(w: Window, e: Event)
    requires Synced(w) && Possible(w, e)
    ensures Resolves(w.chats) && Synced(Step(w, e))
  {
    hide Synced, Append, SetStatus, MarkCurrentRead, Activate, Deactivate, LogOut, Resolves;
    SyncedResolves(w);
    match e {
      case Appended(m, nowMs) => AppendKeepsSynced(w, m, nowMs);
      case StatusChanged(id, status, createdAt) => SetStatusKeepsSynced(w, id, status, createdAt);
      case ChatOpened(key) => MarkCurrentReadKeepsSynced(w, key);
      case Activated(u, offline, dialogs, nowMs) => ActivateKeepsSynced(w, u, offline, dialogs, nowMs);
      case Deactivated => LeavingKeepsSynced(w, "");
      case LoggedOut(u) => LeavingKeepsSynced(w, u);
    }
  }

  lemma {:induction false} SyncedResolves(w: Window)
    requires Synced(w)
    ensures Resolves(w.chats)
  {
    hide InStep;
  }

  lemma {:induction false} RunKeepsSynced(w: Window, es: seq<Event>)
    requires Resolves(w.chats) && CanRun(w, es)
    requires Synced(w)
    ensures Synced(Run(w, es))
    decreases |es|
  {
    if es != [] {
      hide Synced, Step, Possible, Resolves;
      StepKeepsSynced(w, es[0]);
      RunKeepsSynced(Step(w, es[0]), es[1..]);
    }
  }

  /** A program start: nothing in memory, any store left behind by earlier runs. */
  predicate Starting(w: Window) {
    w.chats == NoChats() && w.username == "" && StoreValid(w.store)
  }

  /** After every event of every run, while a user is signed in, the user's rows in the store are exactly the
      messages in memory, but for one with an empty id; and the lists index them. */
  lemma {:induction false} StoreMirrorsMemory(w: Window, es: seq<Event>)
    requires Starting(w) && CanRun(w, es)
    ensures var end := Run(w, es);
      Indexed(end.chats) && (end.username != "" ==> RowsOf(end.store, end.username) == Storable(end.chats.messages))
  {
    EmptyIsIndexed();
    assert Synced(w);
    RunKeepsSynced(w, es);
  }

  /** Signing out and in again, as after a restart, shows each chat with a non-empty key exactly as before,
      unless it had a message with an empty id. */
  lemma {:induction false} ReloadShowsTheSame(w: Window, offline: bool, dialogs: seq<string>, nowMs: int, key: string)
    requires Synced(w) && w.username != "" && ListsDialogs(w.store, w.username, dialogs) && key != ""
    ensures Resolves(w.chats)
    ensures var back := Activate(Deactivate(w), w.username, offline, dialogs, nowMs);
      && Synced(back) && back.username == w.username && back.store == w.store
      && Resolves(back.chats)
      && (ChatView(back.chats, key) == ChatView(w.chats, key) <==>
        !("" in w.chats.messages && w.chats.messages[""].chatKey == key))
  {
    hide LoadChats, Exact, SortSet;
    var back := Activate(Deactivate(w), w.username, offline, dialogs, nowMs);
    LeavingKeepsSynced(w, "");
    ActivateKeepsSynced(Deactivate(w), w.username, offline, dialogs, nowMs);
    LoadRebuilds(w.store, w.username, dialogs, nowMs);
    assert back.chats.messages == Storable(w.chats.messages);
    SameViewIff(w.chats, back.chats, key);
  }

  lemma {:induction false} SameViewIff(c: Chats, d: Chats, key: string)
    requires Indexed(c) && Indexed(d) && d.messages == Storable(c.messages) && key != ""
    ensures ChatView(d, key) == ChatView(c, key) <==> !("" in c.messages && c.messages[""].chatKey == key)
  {
    hide Exact, SortSet;
    IndexedView(c, key);
    IndexedView(d, key);
    var ids := IdsOf(c.messages, key);
    if "" in c.messages && c.messages[""].chatKey == key {
      assert "" in Elements(SortSet(TimesOf(c.messages), ids));
      var i :| 0 <= i < |SortSet(TimesOf(c.messages), ids)| && SortSet(TimesOf(c.messages), ids)[i] == "";
      assert ChatView(c, key)[i].id == "";
      NoEmptyIds(d, key);
    } else {
      assert IdsOf(d.messages, key) == ids;
      SortSetLocal(TimesOf(c.messages), TimesOf(d.messages), ids);
      assert forall x :: x in SortSet(TimesOf(d.messages), ids) ==> x in Elements(SortSet(TimesOf(d.messages), ids));
    }
  }

  lemma {:induction false} NoEmptyIds(c: Chats, key: string)
    requires Indexed(c) && "" !in c.messages && key != ""
    ensures forall i :: 0 <= i < |ChatView(c, key)| ==> ChatView(c, key)[i].id != ""
  {
    hide Exact;
    ListIsKnown(c, key);
    var ids := ListOf(c.lists, key);
    assert forall i :: 0 <= i < |ids| ==> ids[i] in c.messages;
  }

  /** Rows are keyed by message id alone: saving a message for one user keeps another user's rows exactly if
      none of them has its id. */
  lemma {:induction false} SavingKeepsOthersIff(t: Store, owner: string, other: string, m: ChatMessage)
    requires owner != "" && m.id != "" && owner != other
    ensures RowsOf(Saving(t, owner, m), other) == RowsOf(t, other) <==> m.id !in RowsOf(t, other)
  {
    if m.id in RowsOf(t, other) {
      assert m.id !in RowsOf(Saving(t, owner, m), other);
    }
  }

  // ---- The program's classes ----

  /** The `messages` table on disk. */
  class HistoryStore {
    var rows: Store

    constructor ()
      ensures rows == map[]
    {
      rows := map[];
    }

    method SaveMessage(ownerUsername: string, message: ChatMessage)
      modifies this
      ensures rows == Saving(old(rows), ownerUsername, message)
    {
      if ownerUsername == "" || message.id == "" {
        return;
      }
      rows := rows[message.id := Saved(ownerUsername, message)];
    }

    method LoadMessages(ownerUsername: string, chatKey: string) returns (messages: seq<ChatMessage>)
      ensures messages == Loading(rows, ownerUsername, chatKey)
    {
      hide SortSet, StableSort;
      var mine := RowsOf(rows, ownerUsername);
      var times := TimesOf(mine);
      var found, rest := [], IdsOf(mine, chatKey);
      while rest != {}
        invariant rest <= IdsOf(mine, chatKey) && Elements(found) == IdsOf(mine, chatKey) - rest
        invariant NoDuplicates(found) && Known(times, found)
        decreases rest
      {
        var id :| id in rest;
        assert id !in Elements(found) && Elements(found + [id]) == Elements(found) + {id};
        rest := rest - {id};
        found := found + [id];
      }
      assert Elements(found) == IdsOf(mine, chatKey);
      StableSortIsSortSet(times, found);
      messages := View(mine, StableSort(times, found));
    }

    /** The dialogs come in an order this model leaves open. */
    method LoadDialogs(ownerUsername: string) returns (dialogs: seq<string>)
      ensures ListsDialogs(rows, ownerUsername, dialogs)
    {
      dialogs := [];
      var rest := DialogsOf(rows, ownerUsername);
      while rest != {}
        invariant rest <= DialogsOf(rows, ownerUsername) && Elements(dialogs) == DialogsOf(rows, ownerUsername) - rest
        invariant NoDuplicates(dialogs)
        decreases rest
      {
        var key :| key in rest;
        assert key !in Elements(dialogs) && Elements(dialogs + [key]) == Elements(dialogs) + {key};
        rest := rest - {key};
        dialogs := dialogs + [key];
      }
    }

    method ClearUserData(ownerUsername: string)
      modifies this
      ensures rows == Clearing(old(rows), ownerUsername)
    {
      if ownerUsername == "" {
        return;
      }
      rows := map id | id in rows && rows[id].owner != ownerUsername :: rows[id];
    }
  }

  /** The session and message handling of the chat window. The chat selected in the list is a parameter. */
  class ChatWindow {
    const historyStore: HistoryStore
    const state: ChatSessionState
    var onlineSession: bool
    var offlineMode: bool
    var receipts: seq<(string, string)>

    constructor (historyStore: HistoryStore)
      ensures this.historyStore == historyStore && fresh(state) && Valid()
      ensures Now() == Window(NoChats(), "", false, false, historyStore.rows, [])
    {
      this.historyStore := historyStore;
      state := new ChatSessionState();
      onlineSession, offlineMode, receipts := false, false, [];
    }

    ghost function Now(): Window
      reads this, state, historyStore
    {
      Window(state.State(), state.username, onlineSession, offlineMode, historyStore.rows, receipts)
    }

    ghost predicate Valid()
      reads state
    {
      state.Valid()
    }

    method AppendMessage(source: ChatMessage, persist: bool, nowMs: int)
      requires Valid()
      modifies state, historyStore
      ensures Valid() && Now() == Append(old(Now()), source, persist, nowMs)
    {
      hide Indexed, Upsert;
      var message := state.UpsertMessage(source, nowMs);
      if persist && state.username != "" {
        historyStore.SaveMessage(state.username, message);
      }
    }

    /** The handlers of "queued" (status "sending"), "delivered" and "read" packets. */
    method OnMessageStatus(id: string, status: string, createdAt: int)
      requires Valid()
      modifies state, historyStore
      ensures Valid() && Now() == SetStatus(old(Now()), id, status, createdAt)
    {
      hide Indexed, StableSort;
      var found, message := state.UpdateMessageStatus(id, status, createdAt);
      if !found {
        return;
      }
      if state.username != "" {
        historyStore.SaveMessage(state.username, message);
      }
    }

    method MarkCurrentPrivateMessagesRead(chatKey: string)
      requires Valid()
      modifies this, state, historyStore
      ensures Valid() && Now() == MarkCurrentRead(old(Now()), chatKey)
    {
      hide Indexed, NewlyRead, Saving, MarkRead;
      if !onlineSession || offlineMode {
        return;
      }
      if chatKey == BROADCAST {
        return;
      }
      var updatedMessages := state.MarkIncomingMessagesRead(chatKey);
      for i := 0 to |updatedMessages|
        modifies this`receipts, historyStore
        invariant historyStore.rows == if state.username != ""
          then SaveAll(old(historyStore.rows), state.username, updatedMessages[..i])
                                       else old(historyStore.rows)
        invariant receipts == old(receipts) + ReceiptsFor(chatKey, updatedMessages[..i])
      {
        assert updatedMessages[..i + 1][..i] == updatedMessages[..i];
        if state.username != "" {
          historyStore.SaveMessage(state.username, updatedMessages[i]);
        }
        receipts := receipts + [(chatKey, updatedMessages[i].id)];
      }
      assert updatedMessages[..|updatedMessages|] == updatedMessages;
    }

    method LoadChat(username: string, chatKey: string, nowMs: int)
      requires Valid()
      modifies state
      ensures Valid() && state.username == old(state.username)
      ensures state.State() == UpsertEach(old(state.State()), Loading(historyStore.rows, username, chatKey), nowMs)
    {
      hide Indexed, Upsert;
      IndexedResolves(state.State());
      var messages := historyStore.LoadMessages(username, chatKey);
      for i := 0 to |messages|
        invariant Valid() && state.username == old(state.username)
        invariant Resolves(old(state.State())) && state.State() == UpsertEach(old(state.State()), messages[..i], nowMs)
      {
        assert messages[..i + 1][..i] == messages[..i];
        IndexedResolves(state.State());
        var stored := state.UpsertMessage(messages[i], nowMs);
      }
      assert messages[..|messages|] == messages;
    }

    method LoadLocalHistory(username: string, nowMs: int) returns (ghost dialogs: seq<string>)
      requires Valid() && state.State() == NoChats()
      modifies state
      ensures Valid() && state.username == old(state.username)
      ensures ListsDialogs(historyStore.rows, username, dialogs)
      ensures state.State() == if username == "" then NoChats()
                               else LoadChats(NoChats(), historyStore.rows, username, [BROADCAST] + dialogs, nowMs)
    {
      hide Indexed, UpsertEach, Loading, DialogsOf;
      var list := historyStore.LoadDialogs(username);
      dialogs := list;
      if username == "" {
        return;
      }
      for i := 0 to |list|
        invariant Valid() && state.username == old(state.username) && state.State() == NoChats()
      {
        state.EnsurePrivateDialog(list[i]);
      }
      LoadChat(username, BROADCAST, nowMs);
      ghost var keys := [BROADCAST] + list;
      assert keys[..1] == [BROADCAST] && keys[..1][..0] == [];
      for i := 0 to |list|
        invariant Valid() && state.username == old(state.username)
        invariant state.State() == LoadChats(NoChats(), historyStore.rows, username, keys[..i + 1], nowMs)
      {
        assert keys[..i + 2][..i + 1] == keys[..i + 1] && keys[i + 1] == list[i];
        LoadChat(username, list[i], nowMs);
      }
      assert keys[..|list| + 1] == keys;
    }

    method ActivateSession(username: string, offline: bool, nowMs: int) returns (ghost dialogs: seq<string>)
      requires Valid()
      modifies this`onlineSession, this`offlineMode, state
      ensures Valid() && ListsDialogs(historyStore.rows, username, dialogs)
      ensures Now() == Activate(old(Now()), username, offline, dialogs, nowMs)
    {
      hide Indexed, LoadChats, ListsDialogs;
      var userChanged := state.username != username;
      state.SetUsername(username);
      offlineMode := offline;
      onlineSession := !offline;
      if userChanged {
        state.Clear();
        dialogs := LoadLocalHistory(username, nowMs);
      } else {
        dialogs := historyStore.LoadDialogs(username);
      }
    }

    method DeactivateSession()
      requires Valid()
      modifies this`onlineSession, this`offlineMode, state
      ensures Valid() && Now() == Deactivate(old(Now()))
    {
      offlineMode := false;
      onlineSession := false;
      state.SetUsername("");
      state.Clear();
    }
  }
}
