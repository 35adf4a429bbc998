/** The client's messages in memory (Client/chatstate.cpp): a map of messages by id and, for each chat, a sorted
    list of ids. */
module ChatState {
  import opened IdOrder

  datatype ChatMessage = ChatMessage(id: string, chatKey: string, author: string, text: string, status: string,
                                     outgoing: bool, createdAt: int)

  type Messages = map<string, ChatMessage>

  type Lists = map<string, seq<string>>

  datatype Chats = Chats(messages: Messages, lists: Lists)

  function NoChats(): Chats { Chats(map[], map[]) }

  function TimesOf(ms: Messages): Times { map id | id in ms :: ms[id].createdAt }

  /** An absent list reads as empty. */
  function ListOf(lists: Lists, key: string): seq<string> {
    if key in lists then lists[key] else []
  }

  function RemoveAll(s: seq<string>, id: string): (r: seq<string>)
    ensures forall x :: x in r <==> x in s && x != id
  {
    if s == [] then []
    else
      var rest := RemoveAll(s[1..], id);
      assert s == [s[0]] + s[1..];
      if s[0] == id then rest else [s[0]] + rest
  }

  /** Every listed id has a message, stored under its own id. */
  predicate Resolves(c: Chats) {
    && (forall id | id in c.messages :: c.messages[id].id == id)
    && (forall key | key in c.lists :: Known(TimesOf(c.messages), c.lists[key]))
  }

  // ---- The operations ----

  function Dated(m: ChatMessage, nowMs: int): ChatMessage {
    if m.createdAt <= 0 then m.(createdAt := nowMs) else m
  }

  function PreviousKey(c: Chats, id: string): string {
    if id in c.messages then c.messages[id].chatKey else ""
  }

  /** The message as stored: an empty chat key keeps the one stored before. */
  function Stored(c: Chats, m: ChatMessage, nowMs: int): ChatMessage {
    var dated := Dated(m, nowMs);
    if m.chatKey == "" then dated.(chatKey := PreviousKey(c, m.id)) else dated
  }

  /** The lists once a message that changes chat has left its former one. The list of the empty key is never
      left. */
  function Left(c: Chats, m: ChatMessage): Lists {
    var key := PreviousKey(c, m.id);
    if key != "" && key != m.chatKey then c.lists[key := RemoveAll(ListOf(c.lists, key), m.id)] else c.lists
  }

  function Upsert(c: Chats, source: ChatMessage, nowMs: int): (r: Chats)
    requires Resolves(c)
    ensures Resolves(r)
  {
    var m := Stored(c, source, nowMs);
    var messages := c.messages[m.id := m];
    var lists := Left(c, m);
    var ids := ListOf(lists, m.chatKey);
    var listed := if m.id in ids then ids else ids + [m.id];
    KnownAfterLeaving(c, m);
    Chats(messages, lists[m.chatKey := StableSort(TimesOf(messages), listed)])
  }

  lemma {:induction false} KnownAfterLeaving(c: Chats, m: ChatMessage)
    requires Resolves(c)
    ensures forall key | key in Left(c, m) :: Known(TimesOf(c.messages[m.id := m]), Left(c, m)[key])
    ensures Known(TimesOf(c.messages[m.id := m]), ListOf(Left(c, m), m.chatKey))
  {
    var t, u := TimesOf(c.messages), TimesOf(c.messages[m.id := m]);
    forall key | key in Left(c, m) ensures Known(u, Left(c, m)[key]) {
      var before, now := ListOf(c.lists, key), Left(c, m)[key];
      assert Known(t, before);
      assert forall x :: x in now ==> x in before;
      forall i | 0 <= i < |now| ensures now[i] in u {
        assert now[i] in now;
      }
    }
  }

  function UpdateStatus(c: Chats, id: string, status: string, createdAt: int): (r: Chats)
    requires Resolves(c)
    ensures Resolves(r)
  {
    if id !in c.messages then c
    else
      var m := c.messages[id];
      var updated := m.(status := status, createdAt := if createdAt > 0 then createdAt else m.createdAt);
      var messages := c.messages[id := updated];
      Chats(messages, if createdAt > 0
        then c.lists[m.chatKey := StableSort(TimesOf(messages), ListOf(c.lists, m.chatKey))]
                      else c.lists)
  }

  /** An incoming message not yet read. */
  predicate Unread(m: ChatMessage) { !m.outgoing && m.status != "read" }

  /** The messages once those listed have been read. */
  function ReadIn(ms: Messages, ids: seq<string>): Messages {
    map id | id in ms :: if id in ids && Unread(ms[id]) then ms[id].(status := "read") else ms[id]
  }

  function MarkRead(c: Chats, key: string): (r: Chats)
    requires Resolves(c)
    ensures Resolves(r)
  {
    var ids := ListOf(c.lists, key);
    Chats(ReadIn(c.messages, ids), c.lists[key := ids])
  }

  /** The messages `markIncomingMessagesRead` returns. */
  function NewlyRead(c: Chats, key: string): seq<ChatMessage>
    requires Resolves(c)
  {
    NewlyReadIn(c.messages, ListOf(c.lists, key))
  }

  function NewlyReadIn(ms: Messages, ids: seq<string>): seq<ChatMessage>
    requires Known(TimesOf(ms), ids)
  {
    if ids == [] then []
    else
      var n := |ids| - 1;
      NewlyReadIn(ms, ids[..n]) + if Unread(ms[ids[n]]) then [ms[ids[n]].(status := "read")] else []
  }

  function View(ms: Messages, ids: seq<string>): (r: seq<ChatMessage>)
    requires Known(TimesOf(ms), ids)
    ensures |r| == |ids|
  {
    seq(|ids|, i requires 0 <= i < |ids| => ms[ids[i]])
  }

  function ChatView(c: Chats, key: string): seq<ChatMessage>
    requires Resolves(c)
  {
    View(c.messages, ListOf(c.lists, key))
  }

  // ---- The index agrees with the map ----

  /** The ids of a chat. */
  function IdsOf(ms: Messages, key: string): set<string> {
    set id | id in ms && ms[id].chatKey == key
  }

  /** A chat's list is the sorted list of exactly its ids. */
  predicate Exact(c: Chats, key: string) {
    var ids := ListOf(c.lists, key);
    Sorted(TimesOf(c.messages), ids) && Elements(ids) == IdsOf(c.messages, key)
  }

  /** Every chat with a non-empty key is listed exactly; the empty key's list has at least its ids, once. */
  ghost predicate Indexed(c: Chats) {
    && Resolves(c)
    && (forall key | key != "" :: Exact(c, key))
    && NoDuplicates(ListOf(c.lists, ""))
    && IdsOf(c.messages, "") <= Elements(ListOf(c.lists, ""))
  }

  lemma {:induction false} RemoveAllKeepsSorted(t: Times, s: seq<string>, id: string)
    requires Sorted(t, s)
    ensures Sorted(t, RemoveAll(s, id))
  {
    if s != [] {
      RemoveAllKeepsSorted(t, s[1..], id);
      var rest := RemoveAll(s[1..], id);
      forall j | 0 <= j < |rest| ensures rest[j] in t && Before(t, s[0], rest[j]) {
        assert rest[j] in rest;
        var k :| 0 <= k < |s| - 1 && s[1..][k] == rest[j];
      }
    }
  }

  /** A list stays sorted if no time of its ids changes. */
  lemma {:induction false} SortedLocal(t: Times, u: Times, s: seq<string>)
    requires Sorted(t, s) && SameTimes(t, u, Elements(s))
    ensures Sorted(u, s)
  {
    forall i | 0 <= i < |s| ensures s[i] in u && t[s[i]] == u[s[i]] {
      assert s[i] in Elements(s);
    }
  }

  /** The chat the message is in. */
  lemma {:induction false} JoinedIsExact(c: Chats, source: ChatMessage, nowMs: int)
    requires Indexed(c) && Stored(c, source, nowMs).chatKey != ""
    ensures Exact(Upsert(c, source, nowMs), Stored(c, source, nowMs).chatKey)
  {
    hide StableSort, RemoveAll;
    var m := Stored(c, source, nowMs);
    var after := Upsert(c, source, nowMs);
    assert Exact(c, m.chatKey);
    var before := ListOf(c.lists, m.chatKey);
    var listed := if m.id in before then before else before + [m.id];
    SortedHasNoDuplicates(TimesOf(c.messages), before);
    assert Elements(listed) == Elements(before) + {m.id};
    assert ListOf(Left(c, m), m.chatKey) == before;
    KnownAfterLeaving(c, m);
    StableSortSorts(TimesOf(after.messages), listed);
    assert IdsOf(after.messages, m.chatKey) == IdsOf(c.messages, m.chatKey) + {m.id};
  }

  /** Any other chat, among them the one the message may have left. */
  lemma {:induction false} OthersStayExact(c: Chats, source: ChatMessage, nowMs: int, key: string)
    requires Indexed(c) && key != "" && key != Stored(c, source, nowMs).chatKey
    ensures Exact(Upsert(c, source, nowMs), key)
  {
    hide StableSort, RemoveAll, Sorted;
    var m := Stored(c, source, nowMs);
    var after := Upsert(c, source, nowMs);
    var t, u := TimesOf(c.messages), TimesOf(after.messages);
    assert Exact(c, key);
    var before, now := ListOf(c.lists, key), ListOf(after.lists, key);
    assert IdsOf(after.messages, key) == IdsOf(c.messages, key) - {m.id};
    if key == PreviousKey(c, m.id) {
      assert now == RemoveAll(before, m.id);
      assert Elements(now) == Elements(before) - {m.id};
      RemoveAllKeepsSorted(t, before, m.id);
      SortedLocal(t, u, now);
    } else {
      SortedLocal(t, u, before);
    }
  }

  lemma {:induction false} UpsertKeepsExact(c: Chats, source: ChatMessage, nowMs: int, key: string)
    requires Indexed(c) && key != ""
    ensures Exact(Upsert(c, source, nowMs), key)
  {
    if key == Stored(c, source, nowMs).chatKey {
      JoinedIsExact(c, source, nowMs);
    } else {
      OthersStayExact(c, source, nowMs, key);
    }
  }

  lemma {:induction false} StableSortKeepsNoDuplicates(t: Times, s: seq<string>)
    requires Known(t, s) && NoDuplicates(s)
    ensures NoDuplicates(StableSort(t, s))
  {
    StableSortSorts(t, s);
    SortedHasNoDuplicates(t, StableSort(t, s));
  }

  /** The empty key's list only ever gains ids. */
  lemma {:induction false} UpsertKeepsEmptyKey(c: Chats, source: ChatMessage, nowMs: int)
    requires Indexed(c)
    ensures var after := Upsert(c, source, nowMs);
      && NoDuplicates(ListOf(after.lists, ""))
      && Elements(ListOf(after.lists, "")) ==
           Elements(ListOf(c.lists, "")) + (if Stored(c, source, nowMs).chatKey == "" then {source.id} else {})
      && IdsOf(after.messages, "") <= Elements(ListOf(after.lists, ""))
  {
    hide StableSort, RemoveAll, Exact;
    var m := Stored(c, source, nowMs);
    var before := ListOf(c.lists, "");
    assert ListOf(Left(c, m), "") == before;
    if m.chatKey == "" {
      var listed := if m.id in before then before else before + [m.id];
      assert Elements(listed) == Elements(before) + {m.id};
      KnownAfterLeaving(c, m);
      StableSortKeepsNoDuplicates(TimesOf(c.messages[m.id := m]), listed);
    }
  }

  lemma {:induction false} UpsertKeepsIndexed(c: Chats, source: ChatMessage, nowMs: int)
    requires Indexed(c)
    ensures Indexed(Upsert(c, source, nowMs))
  {
    hide Exact, Upsert;
    UpsertKeepsEmptyKey(c, source, nowMs);
    forall key | key != "" ensures Exact(Upsert(c, source, nowMs), key) {
      UpsertKeepsExact(c, source, nowMs, key);
    }
  }

  // ---- Status changes ----

  /** A status change gives the message of that id exactly this status, and this time if it is positive. Its other
      fields and all other messages stay, and of an unknown id nothing comes. */
  lemma {:induction false} StatusIsSet(c: Chats, id: string, status: string, createdAt: int)
    requires Resolves(c)
    ensures var after := UpdateStatus(c, id, status, createdAt).messages;
      && after.Keys == c.messages.Keys
      && (forall x | x in after && x != id :: after[x] == c.messages[x])
      && (id in after ==>
            var m := c.messages[id];
            after[id] == ChatMessage(m.id, m.chatKey, m.author, m.text, status, m.outgoing,
                                     if createdAt > 0 then createdAt else m.createdAt))
  {
    hide StableSort;
  }

  lemma {:induction false} RestampKeepsExact(c: Chats, id: string, status: string, createdAt: int, key: string)
    requires Indexed(c) && id in c.messages && createdAt > 0 && key != ""
    ensures Exact(UpdateStatus(c, id, status, createdAt), key)
  {
    hide StableSort;
    var after := UpdateStatus(c, id, status, createdAt);
    var t, u := TimesOf(c.messages), TimesOf(after.messages);
    var before := ListOf(c.lists, key);
    assert Exact(c, key);
    assert IdsOf(after.messages, key) == IdsOf(c.messages, key);
    if key == c.messages[id].chatKey {
      SortedHasNoDuplicates(t, before);
      StableSortSorts(u, before);
    } else {
      SortedLocal(t, u, before);
    }
  }

  /** Changes that leave ids, chats and times alone leave the index alone. */
  lemma {:induction false} SameTimesKeepIndexed(c: Chats, after: Chats)
    requires Indexed(c) && Resolves(after)
    requires forall key :: ListOf(after.lists, key) == ListOf(c.lists, key)
    requires after.messages.Keys == c.messages.Keys && TimesOf(after.messages) == TimesOf(c.messages)
    requires forall id | id in c.messages :: after.messages[id].chatKey == c.messages[id].chatKey
    ensures Indexed(after)
  {
    hide Sorted;
    forall key | key != "" ensures Exact(after, key) {
      assert Exact(c, key);
      assert IdsOf(after.messages, key) == IdsOf(c.messages, key);
    }
  }

  lemma {:induction false} UpdateStatusKeepsIndexed(c: Chats, id: string, status: string, createdAt: int)
    requires Indexed(c)
    ensures Indexed(UpdateStatus(c, id, status, createdAt))
  {
    hide Exact;
    var after := UpdateStatus(c, id, status, createdAt);
    if id in c.messages && createdAt > 0 {
      forall key | key != "" ensures Exact(after, key) {
        RestampKeepsExact(c, id, status, createdAt, key);
      }
      StableSortKeepsNoDuplicates(TimesOf(after.messages), ListOf(c.lists, ""));
      assert IdsOf(after.messages, "") == IdsOf(c.messages, "");
    } else if id in c.messages {
      SameTimesKeepIndexed(c, after);
    }
  }

  lemma {:induction false} MarkReadKeepsIndexed(c: Chats, key: string)
    requires Indexed(c)
    ensures Indexed(MarkRead(c, key))
  {
    hide Exact;
    var after := MarkRead(c, key);
    assert TimesOf(after.messages) == TimesOf(c.messages);
    SameTimesKeepIndexed(c, after);
  }

  predicate IsAmong(ms: seq<ChatMessage>, id: string) {
    exists i :: 0 <= i < |ms| && ms[i].id == id
  }

  /** Reading a chat gives each incoming message listed there the status "read" and leaves everything else as it is.
      The messages returned are those that were not read before, each once and as it is now. */
  lemma {:induction false} ReadingMarksTheUnread(c: Chats, key: string)
    requires Indexed(c)
    ensures var after, newly, ids := MarkRead(c, key).messages, NewlyRead(c, key), ListOf(c.lists, key);
      && after.Keys == c.messages.Keys
      && (forall x | x in after ::
            after[x] == if x in ids && !c.messages[x].outgoing then c.messages[x].(status := "read") else c.messages[x])
      && (forall x :: IsAmong(newly, x) <==> x in ids && IsUnread(c.messages, x))
      && (forall i :: 0 <= i < |newly| ==> newly[i].id in after && newly[i] == after[newly[i].id])
      && DistinctMessages(newly)
  {
    ListHasNoDuplicates(c, key);
    var ids := ListOf(c.lists, key);
    assert Known(TimesOf(c.messages), ids);
    NewlyReadAre(c.messages, ids);
    NewlyReadDiffer(c.messages, ids);
    hide Exact, NewlyReadIn, DistinctMessages;
    var newly := NewlyRead(c, key);
    forall i | 0 <= i < |newly| ensures IsUnread(c.messages, newly[i].id) && newly[i].id in ids {
      assert IsAmong(newly, newly[i].id);
    }
    hide IsAmong;
  }

  /** The newly read of a list with one more id. */
  lemma {:induction false} NewlyReadOneMore(ms: Messages, ids: seq<string>)
    requires Known(TimesOf(ms), ids) && ids != []
    ensures var n := |ids| - 1;
      var before, m := NewlyReadIn(ms, ids[..n]), ms[ids[n]];
      && ids == ids[..n] + [ids[n]] && ids[n] in ms
      && NewlyReadIn(ms, ids) == if !m.outgoing && m.status != "read" then before + [m.(status := "read")] else before
  {
    assert ids[|ids| - 1] in TimesOf(ms);
  }

  predicate WellFiled(ms: Messages) {
    forall id | id in ms :: ms[id].id == id
  }

  predicate IsUnread(ms: Messages, x: string) {
    x in ms && !ms[x].outgoing && ms[x].status != "read"
  }

  lemma {:induction false} NewlyReadAre(ms: Messages, ids: seq<string>)
    requires Known(TimesOf(ms), ids) && WellFiled(ms)
    ensures forall x :: IsAmong(NewlyReadIn(ms, ids), x) <==> x in ids && IsUnread(ms, x)
    ensures forall i :: 0 <= i < |NewlyReadIn(ms, ids)| ==>
      var m := NewlyReadIn(ms, ids)[i]; m.id in ms && m == ms[m.id].(status := "read")
  {
    if ids != [] {
      var n := |ids| - 1;
      NewlyReadAre(ms, ids[..n]);
      NewlyReadOneMore(ms, ids);
      hide NewlyReadIn, IsAmong;
      ListsOneMore(NewlyReadIn(ms, ids[..n]), ms[ids[n]].(status := "read"));
    }
  }

  predicate DistinctMessages(ms: seq<ChatMessage>) {
    forall i, j :: 0 <= i < j < |ms| ==> ms[i].id != ms[j].id
  }

  lemma {:induction false} NewlyReadDiffer(ms: Messages, ids: seq<string>)
    requires Known(TimesOf(ms), ids) && NoDuplicates(ids) && WellFiled(ms)
    ensures DistinctMessages(NewlyReadIn(ms, ids))
  {
    if ids != [] {
      var n := |ids| - 1;
      var before := NewlyReadIn(ms, ids[..n]);
      NewlyReadDiffer(ms, ids[..n]);
      NewlyReadOneMore(ms, ids);
      NewlyReadAre(ms, ids[..n]);
      hide NewlyReadIn, IsUnread;
      assert !IsAmong(before, ids[n]);
      assert forall i :: 0 <= i < |before| ==> before[i].id != ids[n];
    }
  }

  lemma {:induction false} ListsOneMore(ms: seq<ChatMessage>, m: ChatMessage)
    ensures forall x :: IsAmong(ms + [m], x) <==> IsAmong(ms, x) || x == m.id
  {
    forall x ensures IsAmong(ms + [m], x) <==> IsAmong(ms, x) || x == m.id {
      if IsAmong(ms, x) {
        var i :| 0 <= i < |ms| && ms[i].id == x;
        assert (ms + [m])[i].id == x;
      }
      assert (ms + [m])[|ms|].id == m.id;
    }
  }

  // ---- Whole runs ----

  datatype Op =
    | UpsertOp(message: ChatMessage, nowMs: int)
    | StatusOp(id: string, status: string, createdAt: int)
    | ReadOp(key: string)
    | ClearOp

  ghost function Apply(c: Chats, op: Op): Chats
    requires Resolves(c)
  {
    match op
    case UpsertOp(m, nowMs) => Upsert(c, m, nowMs)
    case StatusOp(id, status, createdAt) => UpdateStatus(c, id, status, createdAt)
    case ReadOp(key) => MarkRead(c, key)
    case ClearOp => NoChats()
  }

  lemma {:induction false} ApplyKeepsIndexed(c: Chats, op: Op)
    requires Indexed(c)
    ensures Indexed(Apply(c, op))
  {
    match op {
      case UpsertOp(m, nowMs) => UpsertKeepsIndexed(c, m, nowMs);
      case StatusOp(id, status, createdAt) => UpdateStatusKeepsIndexed(c, id, status, createdAt);
      case ReadOp(key) => MarkReadKeepsIndexed(c, key);
      case ClearOp =>
    }
  }

  /** The states reachable from an empty one. */
  ghost function After(ops: seq<Op>): (c: Chats)
    ensures Indexed(c)
  {
    if ops == [] then NoChats()
    else
      var before := After(ops[..|ops| - 1]);
      ApplyKeepsIndexed(before, ops[|ops| - 1]);
      Apply(before, ops[|ops| - 1])
  }

  /** After any sequence of operations, the view of a chat with a non-empty key is the sorted list of exactly
      the stored messages of that chat: whatever moved between chats, changed time or was read on the way. */
  lemma {:induction false} ViewIsSortedFilter(ops: seq<Op>, key: string)
    requires key != ""
    ensures IdsOf(After(ops).messages, key) <= TimesOf(After(ops).messages).Keys
    ensures ChatView(After(ops), key)
         == View(After(ops).messages, SortSet(TimesOf(After(ops).messages), IdsOf(After(ops).messages, key)))
  {
    IndexedView(After(ops), key);
  }

  lemma {:induction false} IndexedView(c: Chats, key: string)
    requires Indexed(c) && key != ""
    ensures IdsOf(c.messages, key) <= TimesOf(c.messages).Keys
    ensures ListOf(c.lists, key) == SortSet(TimesOf(c.messages), IdsOf(c.messages, key))
    ensures ChatView(c, key) == View(c.messages, SortSet(TimesOf(c.messages), IdsOf(c.messages, key)))
  {
    assert Exact(c, key);
    SortSetIs(TimesOf(c.messages), ListOf(c.lists, key), IdsOf(c.messages, key));
  }

  /** So the views depend on the map of messages only. */
  lemma {:induction false} SameMapSameViews(c: Chats, d: Chats, key: string)
    requires Indexed(c) && Indexed(d) && c.messages == d.messages && key != ""
    ensures ChatView(c, key) == ChatView(d, key)
  {
    IndexedView(c, key);
    IndexedView(d, key);
  }

  // ---- The empty chat key ----

  /** From a state whose empty-key list holds exactly its ids, an upsert leaves it so exactly if it does not
      move a message out of the empty key. */
  lemma {:induction false} EmptyKeyStaysExactIff(c: Chats, source: ChatMessage, nowMs: int)
    requires Indexed(c) && Elements(ListOf(c.lists, "")) == IdsOf(c.messages, "")
    ensures var after := Upsert(c, source, nowMs);
      Elements(ListOf(after.lists, "")) == IdsOf(after.messages, "")
      <==> !(source.id in c.messages && c.messages[source.id].chatKey == "" && source.chatKey != "")
  {
    hide Upsert, Exact;
    var after := Upsert(c, source, nowMs);
    UpsertKeepsEmptyKey(c, source, nowMs);
    UpsertStores(c, source, nowMs);
    var m := Stored(c, source, nowMs);
    if source.id in c.messages && c.messages[source.id].chatKey == "" && source.chatKey != "" {
      assert source.id in Elements(ListOf(after.lists, ""));
      assert source.id !in IdsOf(after.messages, "");
    } else {
      assert IdsOf(after.messages, "") == IdsOf(c.messages, "") + if m.chatKey == "" then {source.id} else {};
    }
  }

  lemma {:induction false} UpsertStores(c: Chats, source: ChatMessage, nowMs: int)
    requires Resolves(c)
    ensures Upsert(c, source, nowMs).messages == c.messages[source.id := Stored(c, source, nowMs)]
  {
  }

  /** An upsert stores exactly the message given under its id, but for the chat key of the one stored before if none
      is given and the time now if none is; all other messages stay. */
  lemma {:induction false} UpsertStoresWhatIsGiven(c: Chats, source: ChatMessage, nowMs: int)
    requires Resolves(c)
    ensures var m, before := source, c.messages;
      Upsert(c, m, nowMs).messages == before[m.id := ChatMessage(
        m.id, if m.chatKey == "" && m.id in before then before[m.id].chatKey else m.chatKey, m.author, m.text, m.status,
        m.outgoing, if m.createdAt > 0 then m.createdAt else nowMs)]
  {
    hide StableSort, RemoveAll;
    UpsertStores(c, source, nowMs);
  }

  // ---- Upserts of complete messages ----

  /** A chat and a time are given. */
  predicate Complete(m: ChatMessage) { m.chatKey != "" && m.createdAt > 0 }

  /** For each id, the last message of a list with that id. */
  function LastOf(ms: seq<ChatMessage>): Messages {
    if ms == [] then map[] else LastOf(ms[..|ms| - 1])[ms[|ms| - 1].id := ms[|ms| - 1]]
  }

  ghost function UpsertAll(ms: seq<ChatMessage>, nowMs: int): (c: Chats)
    ensures Indexed(c)
  {
    if ms == [] then NoChats()
    else
      var before := UpsertAll(ms[..|ms| - 1], nowMs);
      UpsertKeepsIndexed(before, ms[|ms| - 1], nowMs);
      Upsert(before, ms[|ms| - 1], nowMs)
  }

  lemma {:induction false} UpsertAllKeepsLast(ms: seq<ChatMessage>, nowMs: int)
    requires forall i :: 0 <= i < |ms| ==> Complete(ms[i])
    ensures UpsertAll(ms, nowMs).messages == LastOf(ms)
  {
    if ms != [] {
      UpsertAllKeepsLast(ms[..|ms| - 1], nowMs);
      UpsertStores(UpsertAll(ms[..|ms| - 1], nowMs), ms[|ms| - 1], nowMs);
    }
  }

  /** The views after upserting complete messages depend only on the last message of each id: not on the order
      of different ids, on repetitions, or on anything overwritten. */
  lemma {:induction false} ViewsDependOnLastUpserts(
    ms: seq<ChatMessage>, ns: seq<ChatMessage>, nowMs: int, laterMs: int, key: string)
    requires (forall i :: 0 <= i < |ms| ==> Complete(ms[i])) && forall i :: 0 <= i < |ns| ==> Complete(ns[i])
    requires LastOf(ms) == LastOf(ns) && key != ""
    ensures ChatView(UpsertAll(ms, nowMs), key) == ChatView(UpsertAll(ns, laterMs), key)
  {
    UpsertAllKeepsLast(ms, nowMs);
    UpsertAllKeepsLast(ns, laterMs);
    SameMapSameViews(UpsertAll(ms, nowMs), UpsertAll(ns, laterMs), key);
  }

  /** From any state, complete upserts of different ids commute, and repeating one changes nothing. */
  lemma {:induction false} UpsertsCommute(c: Chats, m: ChatMessage, n: ChatMessage, nowMs: int, key: string)
    requires Indexed(c) && Complete(m) && Complete(n) && key != ""
    requires m.id != n.id || m == n
    ensures Indexed(Upsert(c, m, nowMs)) && Indexed(Upsert(c, n, nowMs))
    ensures ChatView(Upsert(Upsert(c, m, nowMs), n, nowMs), key) == ChatView(Upsert(Upsert(c, n, nowMs), m, nowMs), key)
    ensures m == n ==> ChatView(Upsert(Upsert(c, m, nowMs), n, nowMs), key) == ChatView(Upsert(c, m, nowMs), key)
  {
    hide Upsert, ChatView, Exact;
    UpsertKeepsIndexed(c, m, nowMs);
    UpsertKeepsIndexed(c, n, nowMs);
    var cm, cn := Upsert(c, m, nowMs), Upsert(c, n, nowMs);
    UpsertKeepsIndexed(cm, n, nowMs);
    UpsertKeepsIndexed(cn, m, nowMs);
    UpsertStores(c, m, nowMs);
    UpsertStores(c, n, nowMs);
    UpsertStores(cm, n, nowMs);
    UpsertStores(cn, m, nowMs);
    SameMapSameViews(Upsert(cm, n, nowMs), Upsert(cn, m, nowMs), key);
    if m == n {
      SameMapSameViews(Upsert(cm, n, nowMs), cm, key);
    }
  }

  // ---- The program's class ----

  /** The map, the lists and the dialogs of the signed-in user. */
  class ChatSessionState {
    var username: string
    var privateDialogs: seq<string>
    var messagesById: Messages
    var chatMessages: Lists

    constructor ()
      ensures State() == NoChats() && username == "" && privateDialogs == [] && Valid()
    {
      username, privateDialogs, messagesById, chatMessages := "", [], map[], map[];
    }

    function State(): Chats
      reads this
    {
      Chats(messagesById, chatMessages)
    }

    ghost predicate Valid()
      reads this
    {
      Indexed(State())
    }

    method Clear()
      modifies this
      ensures State() == NoChats() && privateDialogs == [] && username == old(username) && Valid()
    {
      privateDialogs, messagesById, chatMessages := [], map[], map[];
    }

    method SetUsername(name: string)
      modifies this`username
      ensures username == name
    {
      username := name;
    }

    method EnsurePrivateDialog(name: string)
      modifies this`privateDialogs
      ensures Elements(privateDialogs) == Elements(old(privateDialogs)) + if name in {"", username, "Broadcast"}
        then {} else {name}
      ensures NoDuplicates(old(privateDialogs)) ==> NoDuplicates(privateDialogs)
    {
      if name == "" || name == username || name == "Broadcast" {
        return;
      }
      if name !in privateDialogs {
        privateDialogs := privateDialogs + [name];
      }
    }

    method SortChatMessages(chatKey: string)
      requires Known(TimesOf(messagesById), ListOf(chatMessages, chatKey))
      modifies this`chatMessages
      ensures chatMessages ==
        old(chatMessages)[chatKey := StableSort(TimesOf(messagesById), ListOf(old(chatMessages), chatKey))]
    {
      chatMessages := chatMessages[chatKey := StableSort(TimesOf(messagesById), ListOf(chatMessages, chatKey))];
    }

    /** The message as it goes into the map. */
    method StoreMessage(source: ChatMessage, nowMs: int) returns (message: ChatMessage)
      requires Resolves(State())
      modifies this`messagesById
      ensures message == Stored(old(State()), source, nowMs) && message.id == source.id
      ensures messagesById == old(messagesById)[source.id := message]
    {
      message := source;
      if message.createdAt <= 0 {
        message := message.(createdAt := nowMs);
      }
      if message.id in messagesById {
        var stored := messagesById[message.id];
        if message.chatKey != "" {
          stored := stored.(chatKey := message.chatKey);
        }
        stored := stored.(author := message.author, text := message.text, status := message.status,
                          outgoing := message.outgoing, createdAt := message.createdAt);
        message := stored;
      }
      messagesById := messagesById[message.id := message];
    }

    method UpsertMessage(source: ChatMessage, nowMs: int) returns (message: ChatMessage)
      requires Valid()
      modifies this`messagesById, this`chatMessages
      ensures Valid()
      ensures State() == Upsert(old(State()), source, nowMs)
      ensures message == Stored(old(State()), source, nowMs)
    {
      hide Exact, StableSort, RemoveAll, Upsert, Stored, Known;
      ghost var before := State();
      UpsertKeepsIndexed(before, source, nowMs);
      hide Indexed;
      var previousChatKey := if source.id in messagesById then messagesById[source.id].chatKey else "";
      message := StoreMessage(source, nowMs);
      KnownAfterLeaving(before, message);
      if previousChatKey != "" && previousChatKey != message.chatKey {
        chatMessages := chatMessages[previousChatKey := RemoveAll(ListOf(chatMessages, previousChatKey), message.id)];
      }
      assert chatMessages == Left(before, message);
      UpsertIs(before, source, nowMs);
      var ids := ListOf(chatMessages, message.chatKey);
      if message.id !in ids {
        ids := ids + [message.id];
      }
      chatMessages := chatMessages[message.chatKey := ids];
      SortChatMessages(message.chatKey);
    }

    method UpdateMessageStatus(id: string, status: string, createdAt: int) returns (found: bool, message: ChatMessage)
      requires Valid()
      modifies this`messagesById, this`chatMessages
      ensures Valid()
      ensures State() == UpdateStatus(old(State()), id, status, createdAt)
      ensures found <==> id in old(messagesById)
      ensures found ==> message == messagesById[id]
    {
      hide Exact, StableSort;
      UpdateStatusKeepsIndexed(State(), id, status, createdAt);
      message := ChatMessage("", "", "", "", "", false, 0);
      if id !in messagesById {
        return false, message;
      }
      message := messagesById[id].(status := status);
      if createdAt > 0 {
        message := message.(createdAt := createdAt);
      }
      messagesById := messagesById[id := message];
      if createdAt > 0 {
        SortChatMessages(message.chatKey);
      }
      found := true;
    }

    method MessagesForChat(chatKey: string) returns (messages: seq<ChatMessage>)
      requires Valid()
      ensures messages == ChatView(State(), chatKey)
    {
      hide Exact;
      messages := [];
      var ids := ListOf(chatMessages, chatKey);
      assert Known(TimesOf(messagesById), ids);
      for i := 0 to |ids|
        invariant |messages| == i && forall j :: 0 <= j < i ==> messages[j] == messagesById[ids[j]]
      {
        messages := messages + [messagesById[ids[i]]];
      }
    }

    method MarkIncomingMessagesRead(chatKey: string) returns (updatedMessages: seq<ChatMessage>)
      requires Valid()
      modifies this`messagesById, this`chatMessages
      ensures Valid()
      ensures State() == MarkRead(old(State()), chatKey)
      ensures updatedMessages == NewlyRead(old(State()), chatKey)
    {
      hide Exact, ReadIn, Unread;
      MarkReadKeepsIndexed(State(), chatKey);
      ListHasNoDuplicates(State(), chatKey);
      ghost var before := messagesById;
      updatedMessages := [];
      var ids := ListOf(chatMessages, chatKey);
      chatMessages := chatMessages[chatKey := ids];
      assert Known(TimesOf(before), ids);
      ReadNothing(before);
      for i := 0 to |ids|
        modifies this`messagesById
        invariant messagesById == ReadIn(before, ids[..i])
        invariant updatedMessages == NewlyReadIn(before, ids[..i])
      {
        assert ids[..i + 1] == ids[..i] + [ids[i]] && ids[..i + 1][..i] == ids[..i];
        ReadNext(before, ids[..i], ids[i]);
        var message := messagesById[ids[i]];
        if !Unread(message) {
          continue;
        }
        message := message.(status := "read");
        messagesById := messagesById[ids[i] := message];
        updatedMessages := updatedMessages + [message];
      }
      assert ids[..|ids|] == ids;
    }
  }

  /** An upsert, step by step. */
  lemma {:induction false} UpsertIs(c: Chats, source: ChatMessage, nowMs: int)
    requires Resolves(c)
    ensures var m := Stored(c, source, nowMs);
      var messages := c.messages[m.id := m];
      var ids := ListOf(Left(c, m), m.chatKey);
      var listed := if m.id in ids then ids else ids + [m.id];
      && Known(TimesOf(messages), listed)
      && Upsert(c, source, nowMs) ==
        Chats(messages, Left(c, m)[m.chatKey := listed][m.chatKey := StableSort(TimesOf(messages), listed)])
  {
    KnownAfterLeaving(c, Stored(c, source, nowMs));
  }

  lemma {:induction false} ReadNothing(ms: Messages)
    ensures ReadIn(ms, []) == ms
  {
  }

  lemma {:induction false} ReadNext(ms: Messages, ids: seq<string>, id: string)
    requires id in ms && id !in ids
    ensures id in ReadIn(ms, ids) && ReadIn(ms, ids)[id] == ms[id]
    ensures ReadIn(ms, ids + [id]) == if Unread(ms[id]) then ReadIn(ms, ids)[id := ms[id].(status := "read")]
      else ReadIn(ms, ids)
  {
  }

  lemma {:induction false} ListHasNoDuplicates(c: Chats, key: string)
    requires Indexed(c)
    ensures NoDuplicates(ListOf(c.lists, key))
  {
    if key != "" {
      assert Exact(c, key);
      SortedHasNoDuplicates(TimesOf(c.messages), ListOf(c.lists, key));
    }
  }
}
