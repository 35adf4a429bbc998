/** Unacknowledged packets: when they are sent again and when they are given up. Both endpoints keep
    the same table (`m_trackedPackets` in Client/networktransportstate.cpp, `m_trackedMessages` in
    Server/connection.cpp) and poll it with the same schedule. Times are milliseconds. */
module Tracking {
  import opened Numbers
  import opened Options

  const RETRY_SCHEDULE_MS: seq<int> := [2000, 4000, 8000, 16000, 32000]
  const MAX_RETRIES: nat := 5

  datatype Tracked<P> = Tracked(payload: P, retries: nat, retryAtMs: int)

  type Table<P> = map<string, Tracked<P>>

  datatype Verdict<P> = Keep | Resend(next: Tracked<P>) | Drop

  function NewlyTracked<P>(payload: P, nowMs: int): Tracked<P> {
    Tracked(payload, 0, nowMs + RETRY_SCHEDULE_MS[0])
  }

  /** What one poll decides for one packet. */
  function Judge<P>(t: Tracked<P>, nowMs: int): Verdict<P> {
    if nowMs < t.retryAtMs then Keep
    else if t.retries >= MAX_RETRIES then Drop
    else Resend(Tracked(t.payload, t.retries + 1, nowMs + RETRY_SCHEDULE_MS[Min(t.retries + 1, 4)]))
  }

  function Kept<P>(table: Table<P>, nowMs: int): set<string> {
    set id | id in table && Judge(table[id], nowMs).Keep?
  }

  function Resent<P>(table: Table<P>, nowMs: int): set<string> {
    set id | id in table && Judge(table[id], nowMs).Resend?
  }

  function Dropped<P>(table: Table<P>, nowMs: int): set<string> {
    set id | id in table && Judge(table[id], nowMs).Drop?
  }

  /** The table after a poll. */
  function Poll<P>(table: Table<P>, nowMs: int): Table<P> {
    map id | id in table && !Judge(table[id], nowMs).Drop? ::
      if Judge(table[id], nowMs).Resend? then Judge(table[id], nowMs).next else table[id]
  }

  /** `order` lists the members of `ids` once each. */
  ghost predicate Enumerates(order: seq<string>, ids: set<string>) {
    && (forall i, j :: 0 <= i < j < |order| ==> order[i] != order[j])
    && (forall id :: id in order <==> id in ids)
  }

  /** Each poll partitions the table, changes nothing it keeps, and resends every packet as it was sent. */
  lemma {:induction false} PollPartitions<P>(table: Table<P>, nowMs: int)
    ensures Kept(table, nowMs) + Resent(table, nowMs) + Dropped(table, nowMs) == table.Keys
    ensures Kept(table, nowMs) !! Resent(table, nowMs) !! Dropped(table, nowMs)
    ensures Poll(table, nowMs).Keys == table.Keys - Dropped(table, nowMs)
    ensures forall id | id in Kept(table, nowMs) :: Poll(table, nowMs)[id] == table[id]
    ensures forall id | id in Resent(table, nowMs) :: Poll(table, nowMs)[id].payload == table[id].payload
  {
  }

  lemma {:induction false} EnumeratesAppend(order: seq<string>, ids: set<string>, id: string)
    requires Enumerates(order, ids) && id !in ids
    ensures Enumerates(order + [id], ids + {id})
  {
    assert id !in order;
  }

  /** The table while it is polled: the packets not yet visited are as they were. */
  function Partly<P>(table: Table<P>, nowMs: int, unvisited: set<string>): Table<P> {
    map id | id in table && (id in unvisited || !Judge(table[id], nowMs).Drop?) ::
      if id !in unvisited && Judge(table[id], nowMs).Resend? then Judge(table[id], nowMs).next else table[id]
  }

  lemma {:induction false} VisitOne<P>(table: Table<P>, nowMs: int, unvisited: set<string>, id: string)
    requires id in unvisited && id in table
    ensures id in Partly(table, nowMs, unvisited) && Partly(table, nowMs, unvisited)[id] == table[id]
    ensures var partly, next := Partly(table, nowMs, unvisited), Partly(table, nowMs, unvisited - {id});
      match Judge(table[id], nowMs)
      case Keep => next == partly
      case Drop => next == partly - {id}
      case Resend(t) => next == partly[id := t]
  {
  }

  /** The polling loop shared by `collectTrackedRetryActions` and `checkPendingMessages`. The hash table's
      iteration order is not fixed, so neither is the order of the resends. */
  method CollectRetryActions<P(0)>(table: Table<P>, nowMs: int)
    returns (next: Table<P>, resendPackets: seq<P>, droppedMessageIds: seq<string>, ghost order: seq<string>)
    ensures next == Poll(table, nowMs)
    ensures Enumerates(order, Resent(table, nowMs)) && Enumerates(droppedMessageIds, Dropped(table, nowMs))
    ensures |resendPackets| == |order|
    ensures forall i :: 0 <= i < |order| ==> order[i] in table && resendPackets[i] == table[order[i]].payload
  {
    next, resendPackets, droppedMessageIds, order := table, [], [], [];
    var unvisited := table.Keys;
    ghost var resent, dropped := Resent(table, nowMs), Dropped(table, nowMs);
    assert Enumerates([], {});
    hide Enumerates, Min;
    assert resent - unvisited == {} && dropped - unvisited == {};
    assert next == Partly(table, nowMs, unvisited);
    while unvisited != {}
      invariant unvisited <= table.Keys
      invariant next == Partly(table, nowMs, unvisited)
      invariant Enumerates(order, resent - unvisited)
      invariant Enumerates(droppedMessageIds, dropped - unvisited)
      invariant |resendPackets| == |order|
      invariant forall i :: 0 <= i < |order| ==> order[i] in table && resendPackets[i] == table[order[i]].payload
      decreases unvisited
    {
      ghost var before := unvisited;
      var id :| id in unvisited;
      VisitOne(table, nowMs, unvisited, id);
      unvisited := unvisited - {id};
      assert resent - unvisited == resent - before + (if id in resent then {id} else {});
      assert dropped - unvisited == dropped - before + (if id in dropped then {id} else {});
      var trackedPacket := next[id];
      if nowMs < trackedPacket.retryAtMs {
        continue;
      }
      if trackedPacket.retries >= MAX_RETRIES {
        EnumeratesAppend(droppedMessageIds, dropped - before, id);
        droppedMessageIds := droppedMessageIds + [id];
        next := next - {id};
        continue;
      }
      var delayIndex := Min(trackedPacket.retries + 1, 4);
      var retryAtMs := nowMs + RETRY_SCHEDULE_MS[delayIndex];
      next := next[id := Tracked(trackedPacket.payload, trackedPacket.retries + 1, retryAtMs)];
      resendPackets := resendPackets + [trackedPacket.payload];
      EnumeratesAppend(order, resent - before, id);
      order := order + [id];
    }
    assert resent - unvisited == resent && dropped - unvisited == dropped;
    assert Partly(table, nowMs, {}) == Poll(table, nowMs);
  }

  // ---- The life of one unacknowledged packet ----

  /** The times at which a packet is resent, and the time at which it is dropped. */
  datatype Fate = Fate(resends: seq<int>, dropped: Option<int>)

  function FateOf<P>(t: Tracked<P>, polls: seq<int>): Fate
    decreases |polls|
  {
    if polls == [] then Fate([], None)
    else match Judge(t, polls[0])
      case Keep => FateOf(t, polls[1..])
      case Drop => Fate([], Some(polls[0]))
      case Resend(next) =>
        var later := FateOf(next, polls[1..]);
        Fate([polls[0]] + later.resends, later.dropped)
  }

  /** When the (k+1)-th attempt after the first sending falls due, if every poll comes exactly on time. */
  function DueAfter(k: nat): int
    requires k <= MAX_RETRIES
  {
    [2000, 6000, 14000, 30000, 62000, 94000][k]
  }

  /** Polls start within `d` of `since` and are then at most `d` apart. */
  predicate Regular(polls: seq<int>, since: int, d: int)
    decreases |polls|
  {
    polls != [] ==> since <= polls[0] <= since + d && Regular(polls[1..], polls[0], d)
  }

  lemma {:induction false} NotEarly<P>(t: Tracked<P>, polls: seq<int>, sentAt: int)
    requires t.retries <= MAX_RETRIES && t.retryAtMs >= sentAt + DueAfter(t.retries)
    ensures var f := FateOf(t, polls);
      && |f.resends| <= MAX_RETRIES - t.retries
      && (forall i :: 0 <= i < |f.resends| ==> f.resends[i] >= sentAt + DueAfter(t.retries + i))
      && (f.dropped.Some? ==>
        |f.resends| == MAX_RETRIES - t.retries && f.dropped.value >= sentAt + DueAfter(MAX_RETRIES))
    decreases |polls|
  {
    if polls != [] {
      match Judge(t, polls[0]) {
        case Keep => NotEarly(t, polls[1..], sentAt);
        case Drop =>
        case Resend(next) =>
          NotEarly(next, polls[1..], sentAt);
          var f, later := FateOf(t, polls), FateOf(next, polls[1..]);
          forall i | 0 <= i < |f.resends| ensures f.resends[i] >= sentAt + DueAfter(t.retries + i) {
            if i != 0 {
              assert f.resends[i] == later.resends[i - 1];
            }
          }
      }
    }
  }

  /** The latest time of attempt `k` if every poll so far was up to `d` late. */
  function Latest(sentAt: int, k: nat, d: nat): int
    requires k <= MAX_RETRIES
  {
    sentAt + DueAfter(k) + (k + 1) * d
  }

  predicate ResendsInTime(resends: seq<int>, retries: nat, sentAt: int, d: nat) {
    forall i :: 0 <= i < |resends| && retries + i <= MAX_RETRIES ==> resends[i] <= Latest(sentAt, retries + i, d)
  }

  lemma {:induction false} OneMoreInTime(first: int, later: seq<int>, retries: nat, sentAt: int, d: nat)
    requires retries < MAX_RETRIES && first <= Latest(sentAt, retries, d)
    requires ResendsInTime(later, retries + 1, sentAt, d)
    ensures ResendsInTime([first] + later, retries, sentAt, d)
  {
    hide Latest;
    var resends := [first] + later;
    forall i | 0 <= i < |resends| && retries + i <= MAX_RETRIES ensures resends[i] <= Latest(sentAt, retries + i, d) {
      if i != 0 {
        assert resends[i] == later[i - 1] && retries + i == retries + 1 + (i - 1);
      }
    }
  }

  lemma {:induction false} NotLate<P>(t: Tracked<P>, polls: seq<int>, sentAt: int, since: int, d: nat)
    requires t.retries <= MAX_RETRIES && since < t.retryAtMs <= sentAt + DueAfter(t.retries) + t.retries * d
    requires Regular(polls, since, d)
    ensures var f := FateOf(t, polls);
      && ResendsInTime(f.resends, t.retries, sentAt, d)
      && (f.dropped.Some? ==> f.dropped.value <= sentAt + DueAfter(MAX_RETRIES) + 6 * d)
      && (polls != [] && polls[|polls| - 1] >= sentAt + DueAfter(MAX_RETRIES) + 5 * d ==> f.dropped.Some?)
    decreases |polls|
  {
    hide ResendsInTime, DueAfter;
    if polls != [] {
      var now := polls[0];
      match Judge(t, now) {
        case Keep => NotLate(t, polls[1..], sentAt, now, d);
        case Drop => NoneAreLate(t.retries, sentAt, d);
        case Resend(next) =>
          OneRetryLater(t.retries, d);
          BeforeTheEnd(t.retries + 1, d);
          NotLate(next, polls[1..], sentAt, now, d);
          OneMoreInTime(now, FateOf(next, polls[1..]).resends, t.retries, sentAt, d);
      }
      BeforeTheEnd(t.retries, d);
    } else {
      NoneAreLate(t.retries, sentAt, d);
    }
  }

  lemma {:induction false} NoneAreLate(retries: nat, sentAt: int, d: nat)
    ensures ResendsInTime([], retries, sentAt, d)
  {
  }

  lemma {:induction false} OneRetryLater(k: nat, d: nat)
    requires k < MAX_RETRIES
    ensures DueAfter(k + 1) == DueAfter(k) + RETRY_SCHEDULE_MS[Min(k + 1, 4)]
    ensures (k + 1) * d == k * d + d
  {
  }

  lemma {:induction false} BeforeTheEnd(k: nat, d: nat)
    requires k <= MAX_RETRIES
    ensures DueAfter(k) + k * d <= DueAfter(MAX_RETRIES) + 5 * d
  {
    assert k * d <= 5 * d;
  }

  /** The life of one unacknowledged packet polled at these times. */
  lemma {:induction false} FateWithinBounds<P>(payload: P, sentAt: int, polls: seq<int>, d: nat)
    ensures NeverEarly(FateOf(NewlyTracked(payload, sentAt), polls), sentAt)
    ensures Regular(polls, sentAt, d) ==> NeverLate(FateOf(NewlyTracked(payload, sentAt), polls), sentAt, polls, d)
  {
    NotEarly(NewlyTracked(payload, sentAt), polls, sentAt);
    if Regular(polls, sentAt, d) {
      NotLate(NewlyTracked(payload, sentAt), polls, sentAt, sentAt, d);
    }
  }

  /** At most five resends, none before it is due; dropped only after all five, and not before 94 s. */
  predicate NeverEarly(f: Fate, sentAt: int) {
    && |f.resends| <= 5
    && (forall i :: 0 <= i < |f.resends| ==> f.resends[i] >= sentAt + DueAfter(i))
    && (f.dropped.Some? ==> |f.resends| == 5 && f.dropped.value >= sentAt + 94000)
  }

  /** With polls at most `d` apart, the i-th resend is at most `i * d` behind its due time, the drop at most
      `6 * d` behind, and polling past 94 s plus `5 * d` is certain to drop the packet. */
  predicate NeverLate(f: Fate, sentAt: int, polls: seq<int>, d: nat)
    requires |f.resends| <= 5
  {
    && (forall i :: 0 <= i < |f.resends| ==> f.resends[i] <= Latest(sentAt, i, d))
    && (f.dropped.Some? ==> f.dropped.value <= sentAt + 94000 + 6 * d)
    && (polls != [] && polls[|polls| - 1] >= sentAt + 94000 + 5 * d ==> f.dropped.Some?)
  }

  // ---- The same life inside a busy table ----

  datatype Op<P> = Track(id: string, payload: P, nowMs: int) | Acknowledge(id: string) | PollAt(nowMs: int)

  function Apply<P>(table: Table<P>, op: Op<P>): Table<P> {
    match op
    case Track(id, payload, nowMs) => table[id := NewlyTracked(payload, nowMs)]
    case Acknowledge(id) => table - {id}
    case PollAt(nowMs) => Poll(table, nowMs)
  }

  /** What happens to one id over a whole run of the table. */
  function History<P>(table: Table<P>, ops: seq<Op<P>>, id: string): Fate
    decreases |ops|
  {
    if ops == [] then Fate([], None)
    else
      var later := History(Apply(table, ops[0]), ops[1..], id);
      if ops[0].PollAt? && id in Resent(table, ops[0].nowMs) then Fate([ops[0].nowMs] + later.resends, later.dropped)
      else if ops[0].PollAt? && id in Dropped(table, ops[0].nowMs) then Fate(later.resends, Some(ops[0].nowMs))
      else later
  }

  function PollTimes<P>(ops: seq<Op<P>>): seq<int>
    decreases |ops|
  {
    if ops == [] then []
    else if ops[0].PollAt? then [ops[0].nowMs] + PollTimes(ops[1..])
    else PollTimes(ops[1..])
  }

  predicate Mentions<P>(op: Op<P>, id: string) {
    !op.PollAt? && op.id == id
  }

  lemma {:induction false} AbsentStaysAbsent<P>(table: Table<P>, ops: seq<Op<P>>, id: string)
    requires id !in table && forall op | op in ops :: !Mentions(op, id)
    ensures History(table, ops, id) == Fate([], None)
    decreases |ops|
  {
    if ops != [] {
      assert ops[0] in ops;
      AbsentStaysAbsent(Apply(table, ops[0]), ops[1..], id);
    }
  }

  /** While an id is neither acknowledged nor tracked again, other packets do not affect it: its history
      is that of a packet polled alone at the same times. */
  lemma {:induction false} HistoryIsFate<P>(table: Table<P>, ops: seq<Op<P>>, id: string)
    requires id in table && forall op | op in ops :: !Mentions(op, id)
    ensures History(table, ops, id) == FateOf(table[id], PollTimes(ops))
    decreases |ops|
  {
    if ops != [] {
      assert ops[0] in ops;
      var next := Apply(table, ops[0]);
      if ops[0].PollAt? && Judge(table[id], ops[0].nowMs).Drop? {
        AbsentStaysAbsent(next, ops[1..], id);
      } else {
        HistoryIsFate(next, ops[1..], id);
      }
      if ops[0].PollAt? {
        assert PollTimes(ops)[1..] == PollTimes(ops[1..]);
      }
    }
  }

  /** An unacknowledged packet is resent exactly five times before it is dropped, 94 s after it was sent at the
      earliest, and, with polls at most `d` apart, `6 * d` later at the latest; whatever else is tracked,
      acknowledged or resent in the same table meanwhile. */
  lemma {:induction false} UnacknowledgedPacketFate<P>(
    table: Table<P>, id: string, payload: P, sentAt: int, ops: seq<Op<P>>, d: nat)
    requires forall op | op in ops :: !Mentions(op, id)
    ensures var f := History(Apply(table, Track(id, payload, sentAt)), ops, id);
      NeverEarly(f, sentAt) && (Regular(PollTimes(ops), sentAt, d) ==> NeverLate(f, sentAt, PollTimes(ops), d))
  {
    HistoryIsFate(Apply(table, Track(id, payload, sentAt)), ops, id);
    FateWithinBounds(payload, sentAt, PollTimes(ops), d);
  }
}
