/** The server's table of private messages (`messages` in Server/serverstorage.cpp), keyed by id: how rows
    age, and what the history queries return. */
module MessageTable {
  import opened Options
  import opened IdOrder
  import opened Numbers

  datatype Row = Row(sender: string, recipient: string, text: string, createdAt: int,
                     deliveredAt: Option<int>, readAt: Option<int>)

  type Table = map<string, Row>

  function Coalesce(o: Option<int>, v: int): Option<int> {
    if o.Some? then o else Some(v)
  }

  /** Storing an id again replaces who and what, and keeps every time. */
  function Store(t: Table, id: string, sender: string, recipient: string, text: string, nowMs: int): Table {
    if id in t then t[id := t[id].(sender := sender, recipient := recipient, text := text)]
    else t[id := Row(sender, recipient, text, nowMs, None, None)]
  }

  function MarkDelivered(t: Table, id: string, atMs: int): Table {
    if id in t then t[id := t[id].(deliveredAt := Coalesce(t[id].deliveredAt, atMs))] else t
  }

  function MarkRead(t: Table, id: string, atMs: int): Table {
    if id in t then t[id := t[id].(deliveredAt := Coalesce(t[id].deliveredAt, atMs), readAt := Some(atMs))] else t
  }

  /** The status shown in the history. */
  datatype Status = Sending | Delivered | Read

  function StatusOf(r: Row): Status {
    if r.readAt.Some? then Read else if r.deliveredAt.Some? then Delivered else Sending
  }

  function Rank(s: Status): nat {
    match s
    case Sending => 0
    case Delivered => 1
    case Read => 2
  }

  // ---- Times ----

  datatype Op =
    | StoreOp(id: string, sender: string, recipient: string, text: string, nowMs: int)
    | DeliveredOp(id: string, nowMs: int)
    | ReadOp(id: string, nowMs: int)

  function Apply(t: Table, op: Op): Table {
    match op
    case StoreOp(id, sender, recipient, text, nowMs) => Store(t, id, sender, recipient, text, nowMs)
    case DeliveredOp(id, nowMs) => MarkDelivered(t, id, nowMs)
    case ReadOp(id, nowMs) => MarkRead(t, id, nowMs)
  }

  function ApplyAll(t: Table, ops: seq<Op>): Table
    decreases |ops|
  {
    if ops == [] then t else ApplyAll(Apply(t, ops[0]), ops[1..])
  }

  /** The clock never runs backwards from `since` on. */
  predicate ClockRuns(ops: seq<Op>, since: int)
    decreases |ops|
  {
    ops == [] || (since <= ops[0].nowMs && ClockRuns(ops[1..], ops[0].nowMs))
  }

  function LastTime(ops: seq<Op>, since: int): int {
    if ops == [] then since else ops[|ops| - 1].nowMs
  }

  predicate TimesInOrder(r: Row, clock: int) {
    && r.createdAt <= clock
    && (r.deliveredAt.Some? ==> r.createdAt <= r.deliveredAt.value <= clock)
    && (r.readAt.Some? ==> r.deliveredAt.Some? && r.deliveredAt.value <= r.readAt.value <= clock)
  }

  predicate AllInOrder(t: Table, clock: int) {
    forall id | id in t :: TimesInOrder(t[id], clock)
  }

  /** What may have become of a row later on. */
  predicate Later(before: Row, after: Row) {
    && after.createdAt == before.createdAt
    && (before.deliveredAt.Some? ==> after.deliveredAt == before.deliveredAt)
    && Rank(StatusOf(before)) <= Rank(StatusOf(after))
  }

  predicate AllLater(t: Table, u: Table) {
    forall id | id in t :: id in u && Later(t[id], u[id])
  }

  lemma {:induction false} ApplyKeepsOrder(t: Table, op: Op, clock: int)
    requires AllInOrder(t, clock) && clock <= op.nowMs
    ensures AllInOrder(Apply(t, op), op.nowMs) && AllLater(t, Apply(t, op))
  {
  }

  /** Over any run with a clock that never runs backwards, every row keeps
      created_at <= delivered_at <= read_at with read only after delivered; no row disappears, its creation
      and delivery times never change once set, and its status never moves backwards. */
  lemma {:induction false} TimesStayInOrder(t: Table, ops: seq<Op>, since: int)
    requires AllInOrder(t, since) && ClockRuns(ops, since)
    ensures AllInOrder(ApplyAll(t, ops), LastTime(ops, since))
    ensures AllLater(t, ApplyAll(t, ops))
    decreases |ops|
  {
    if ops != [] {
      ApplyKeepsOrder(t, ops[0], since);
      TimesStayInOrder(Apply(t, ops[0]), ops[1..], ops[0].nowMs);
      var mid, end := Apply(t, ops[0]), ApplyAll(t, ops);
      forall id | id in t ensures id in end && Later(t[id], end[id]) {
        assert Later(t[id], mid[id]) && Later(mid[id], end[id]);
      }
    }
  }

  // ---- Queries ----

  function TimesOf(t: Table): Times { map id | id in t :: t[id].createdAt }

  ghost function Reversed(s: seq<string>): seq<string> {
    seq(|s|, i requires 0 <= i < |s| => s[|s| - 1 - i])
  }

  /** `ORDER BY created_at DESC, id DESC LIMIT max(1, limit)`, then `ORDER BY created_at ASC, id ASC`. */
  ghost function NewestAscending(times: Times, ids: set<string>, limit: int): seq<string>
    requires ids <= times.Keys
  {
    var descending := Reversed(SortSet(times, ids));
    var newest := descending[..Min(Max(1, limit), |descending|)];
    assert Elements(newest) <= Elements(SortSet(times, ids));
    SortSet(times, Elements(newest))
  }

  /** The last `n` entries of a list, or all of them. */
  function LastEntries(s: seq<string>, n: nat): seq<string> {
    s[|s| - Min(n, |s|)..]
  }

  lemma {:induction false} FirstReversedAreLast(s: seq<string>, n: nat)
    requires n <= |s|
    ensures Elements(Reversed(s)[..n]) == Elements(s[|s| - n..])
  {
    var first, last := Reversed(s)[..n], s[|s| - n..];
    assert forall i :: 0 <= i < n ==> first[i] == last[n - 1 - i];
    assert forall i :: 0 <= i < n ==> last[i] == first[n - 1 - i];
  }

  /** The nested query returns exactly the newest entries of the full ascending order. */
  lemma {:induction false} NewestAreTheLast(times: Times, ids: set<string>, limit: int)
    requires ids <= times.Keys
    ensures NewestAscending(times, ids, limit) == LastEntries(SortSet(times, ids), Max(1, limit))
  {
    hide SortSet;
    var all := SortSet(times, ids);
    var n := Min(Max(1, limit), |all|);
    FirstReversedAreLast(all, n);
    hide Reversed;
    SortSetIs(times, all[|all| - n..], Elements(Reversed(all)[..n]));
  }

  /** A smaller limit returns the end of what a larger one returns. */
  lemma {:induction false} SmallerLimitIsSuffix(times: Times, ids: set<string>, small: int, large: int)
    requires ids <= times.Keys && small <= large
    ensures var s, l := NewestAscending(times, ids, small), NewestAscending(times, ids, large);
      |s| <= |l| && s == l[|l| - |s|..]
  {
    hide SortSet, NewestAscending;
    NewestAreTheLast(times, ids, small);
    NewestAreTheLast(times, ids, large);
  }

  function Between(t: Table, u: string, v: string): set<string> {
    set id | id in t && ((t[id].sender == u && t[id].recipient == v) || (t[id].sender == v && t[id].recipient == u))
  }

  ghost function PrivateHistory(t: Table, u: string, v: string, limit: int): seq<string> {
    NewestAscending(TimesOf(t), Between(t, u, v), limit)
  }

  /** Both users of a dialog see the same history. */
  lemma {:induction false} HistoryIsSymmetric(t: Table, u: string, v: string, limit: int)
    ensures PrivateHistory(t, u, v, limit) == PrivateHistory(t, v, u, limit)
  {
    assert Between(t, u, v) == Between(t, v, u);
  }

  function Undelivered(t: Table, username: string): set<string> {
    set id | id in t && t[id].recipient == username && t[id].deliveredAt.None?
  }

  ghost function Pending(t: Table, username: string): seq<string> {
    SortSet(TimesOf(t), Undelivered(t, username))
  }

  /** A stored message is listed as pending for its recipient, and for nobody else, exactly until it is
      marked delivered or read. */
  lemma {:induction false} PendingUntilMarked(t: Table, id: string, username: string)
    ensures id in Pending(t, username) <==> id in t && t[id].recipient == username && t[id].deliveredAt.None?
    ensures forall atMs, other ::
      id !in Pending(MarkDelivered(t, id, atMs), other) && id !in Pending(MarkRead(t, id, atMs), other)
    ensures forall x, atMs | x != id ::
      && (x in Pending(t, username) <==> x in Pending(MarkDelivered(t, id, atMs), username))
      && (x in Pending(t, username) <==> x in Pending(MarkRead(t, id, atMs), username))
  {
    PendingIs(t, username, id);
    forall atMs, other
      ensures id !in Pending(MarkDelivered(t, id, atMs), other) && id !in Pending(MarkRead(t, id, atMs), other)
    {
      PendingIs(MarkDelivered(t, id, atMs), other, id);
      PendingIs(MarkRead(t, id, atMs), other, id);
    }
    forall x, atMs | x != id
      ensures && (x in Pending(t, username) <==> x in Pending(MarkDelivered(t, id, atMs), username))
              && (x in Pending(t, username) <==> x in Pending(MarkRead(t, id, atMs), username))
    {
      PendingIs(t, username, x);
      PendingIs(MarkDelivered(t, id, atMs), username, x);
      PendingIs(MarkRead(t, id, atMs), username, x);
    }
  }

  /** Storing a message makes it pending for its recipient exactly if no message already delivered has its
      id: under such an id a new message is never delivered later. */
  lemma {:induction false} StoredIsPendingIff(
    t: Table, id: string, sender: string, recipient: string, text: string, nowMs: int)
    ensures id in Pending(Store(t, id, sender, recipient, text, nowMs), recipient)
       <==> !(id in t && t[id].deliveredAt.Some?)
  {
    PendingIs(Store(t, id, sender, recipient, text, nowMs), recipient, id);
  }

  lemma {:induction false} PendingIs(t: Table, username: string, id: string)
    ensures id in Pending(t, username) <==> id in Undelivered(t, username)
  {
    assert id in Pending(t, username) <==> id in Elements(Pending(t, username));
  }

  /** What a query does with `ORDER BY created_at ASC, id ASC`, for rows found in any order. */
  method SelectAscending(times: Times, ids: set<string>) returns (rows: seq<string>)
    requires ids <= times.Keys
    ensures rows == SortSet(times, ids)
  {
    hide SortSet, StableSort;
    var found, rest := [], ids;
    while rest != {}
      invariant rest <= ids && Elements(found) == ids - rest && NoDuplicates(found) && Known(times, found)
      decreases rest
    {
      var id :| id in rest;
      assert id !in Elements(found) && Elements(found + [id]) == Elements(found) + {id};
      rest := rest - {id};
      found := found + [id];
    }
    assert Elements(found) == ids;
    StableSortIsSortSet(times, found);
    rows := StableSort(times, found);
  }

  datatype HistoryMessageRecord = HistoryMessageRecord(id: string, sender: string, recipient: string, text: string,
                                                       status: Status, createdAt: int)

  function RecordOf(id: string, r: Row): HistoryMessageRecord {
    HistoryMessageRecord(id, r.sender, r.recipient, r.text, StatusOf(r), r.createdAt)
  }

  /** The records a history request is answered with. */
  method LoadPrivateHistory(t: Table, username: string, otherUsername: string, limit: int)
    returns (messages: seq<HistoryMessageRecord>)
    ensures var ids := PrivateHistory(t, username, otherUsername, limit);
      && |messages| == |ids|
      && forall i :: 0 <= i < |ids| ==> ids[i] in t && messages[i] == RecordOf(ids[i], t[ids[i]])
  {
    hide SortSet, NewestAscending;
    var times, ids := TimesOf(t), Between(t, username, otherUsername);
    var rows := SelectAscending(times, ids);
    NewestAreTheLast(times, ids, limit);
    rows := LastEntries(rows, Max(1, limit));
    messages := [];
    for i := 0 to |rows|
      invariant |messages| == i
      invariant forall j :: 0 <= j < |rows| ==> rows[j] in t
      invariant forall j :: 0 <= j < i ==> messages[j] == RecordOf(rows[j], t[rows[j]])
    {
      messages := messages + [RecordOf(rows[i], t[rows[i]])];
    }
  }

  /** The messages sent again when a user signs in. */
  method LoadPendingPrivateMessages(t: Table, username: string) returns (ids: seq<string>)
    ensures ids == Pending(t, username)
  {
    ids := SelectAscending(TimesOf(t), Undelivered(t, username));
  }
}
