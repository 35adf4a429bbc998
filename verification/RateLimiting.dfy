/** The fixed-window rate limiter with lazy pruning (Server/ratelimiter.cpp), and the rules and the
    retry message built on it (Server/server.cpp). Times are milliseconds; the clock is a parameter. */
module RateLimiting {
  import opened Numbers
  import opened Options

  const PRUNE_THRESHOLD := 512
  const STALE_AFTER_MS := 10 * 60 * 1000

  datatype Rule = Rule(maxHits: int, windowMs: int) {
    predicate Active() { maxHits > 0 && windowMs > 0 }
  }

  datatype Decision = Decision(allowed: bool, remainingHits: int, retryAfterMs: int)

  datatype Entry = Entry(hits: int, windowStartedAtMs: int, lastSeenAtMs: int)

  type Entries = map<string, Entry>

  const UNLIMITED := Decision(true, 0, 0)
  const NEW_ENTRY := Entry(0, 0, 0)

  // ---- The limiter as functions ----

  predicate Stale(entry: Entry, nowMs: int) {
    entry.lastSeenAtMs <= 0 || nowMs - entry.lastSeenAtMs > STALE_AFTER_MS
  }

  function Prune(entries: Entries, nowMs: int): Entries {
    map k | k in entries && !Stale(entries[k], nowMs) :: entries[k]
  }

  /** What one call does to the entry of its key, `NEW_ENTRY` standing for a missing one. */
  function Count(entry: Entry, rule: Rule, nowMs: int): (Entry, Decision) {
    if entry.windowStartedAtMs <= 0 || nowMs - entry.windowStartedAtMs >= rule.windowMs then
      (Entry(1, nowMs, nowMs), Decision(true, Max(0, rule.maxHits - 1), 0))
    else
      var seen := entry.(lastSeenAtMs := nowMs);
      if entry.hits >= rule.maxHits then
        (seen, Decision(false, 0, Max(1, rule.windowMs - (nowMs - entry.windowStartedAtMs))))
      else
        (seen.(hits := entry.hits + 1), Decision(true, Max(0, rule.maxHits - (entry.hits + 1)), 0))
  }

  function EntryOf(entries: Entries, key: string): Entry {
    if key in entries then entries[key] else NEW_ENTRY
  }

  /** The table a call finds once pruning is over. */
  function Kept(entries: Entries, nowMs: int, pruneAt: Option<nat>): Entries {
    if pruneAt.Some? && |entries| >= pruneAt.value then Prune(entries, nowMs) else entries
  }

  /** `RateLimiter::allow`; `pruneAt` is the table size that triggers pruning, `None` for never. */
  function Admit(entries: Entries, key: string, rule: Rule, nowMs: int, pruneAt: Option<nat>): (Entries, Decision) {
    if key == "" || !rule.Active() then (entries, UNLIMITED)
    else
      var kept := Kept(entries, nowMs, pruneAt);
      var (entry, decision) := Count(EntryOf(kept, key), rule, nowMs);
      (kept[key := entry], decision)
  }

  class RateLimiter {
    var entries: Entries

    constructor ()
      ensures entries == map[]
    {
      entries := map[];
    }

    method Allow(key: string, rule: Rule, nowMs: int) returns (decision: Decision)
      modifies this
      ensures (entries, decision) == Admit(old(entries), key, rule, nowMs, Some(PRUNE_THRESHOLD))
    {
      decision := UNLIMITED;
      if key == "" || rule.maxHits <= 0 || rule.windowMs <= 0 {
        return;
      }
      if |entries| >= PRUNE_THRESHOLD {
        PruneExpiredEntries(nowMs);
      }
      var entry := if key in entries then entries[key] else NEW_ENTRY;
      if entry.windowStartedAtMs <= 0 || nowMs - entry.windowStartedAtMs >= rule.windowMs {
        entry := Entry(1, nowMs, nowMs);
        entries := entries[key := entry];
        decision := decision.(remainingHits := Max(0, rule.maxHits - entry.hits));
        return;
      }
      entry := entry.(lastSeenAtMs := nowMs);
      if entry.hits >= rule.maxHits {
        entries := entries[key := entry];
        decision := Decision(false, 0, Max(1, rule.windowMs - (nowMs - entry.windowStartedAtMs)));
        return;
      }
      entry := entry.(hits := entry.hits + 1);
      entries := entries[key := entry];
      decision := decision.(remainingHits := Max(0, rule.maxHits - entry.hits));
    }

    method PruneExpiredEntries(nowMs: int)
      modifies this
      ensures entries == Prune(old(entries), nowMs)
    {
      var unvisited := entries.Keys;
      while unvisited != {}
        invariant entries.Keys <= old(entries).Keys && unvisited <= old(entries).Keys
        invariant forall k | k in entries :: entries[k] == old(entries)[k]
        invariant forall k | k in old(entries) ::
          k in entries <==> k in unvisited || !Stale(old(entries)[k], nowMs)
        decreases unvisited
      {
        var k :| k in unvisited;
        unvisited := unvisited - {k};
        if entries[k].lastSeenAtMs <= 0 || nowMs - entries[k].lastSeenAtMs > STALE_AFTER_MS {
          entries := entries - {k};
        }
      }
    }
  }

  // ---- Runs ----

  datatype Call = Call(key: string, nowMs: int)

  /** Every key is used with one rule, and the clock is positive and never goes back. */
  predicate Timely(calls: seq<Call>, since: int) {
    && (forall i :: 0 <= i < |calls| ==> 0 < calls[i].nowMs && since <= calls[i].nowMs)
    && (forall i, j :: 0 <= i < j < |calls| ==> calls[i].nowMs <= calls[j].nowMs)
  }

  function Run(entries: Entries, calls: seq<Call>, rules: string -> Rule, pruneAt: Option<nat>): (d: seq<Decision>)
    ensures |d| == |calls|
    decreases |calls|
  {
    if calls == [] then []
    else
      var (next, decision) := Admit(entries, calls[0].key, rules(calls[0].key), calls[0].nowMs, pruneAt);
      [decision] + Run(next, calls[1..], rules, pruneAt)
  }

  lemma {:induction false} TimelyTail(calls: seq<Call>, since: int)
    requires Timely(calls, since) && calls != []
    ensures Timely(calls[1..], calls[0].nowMs) && since <= calls[0].nowMs && 0 < calls[0].nowMs
  {
  }

  // ---- Pruning is invisible ----

  /** For one key the pruned table agrees with the full one, except that it may lack an entry last seen too
      long ago. */
  predicate Agree(pruned: Entries, full: Entries, key: string, nowMs: int) {
    && (key in pruned ==> key in full && pruned[key] == full[key])
    && (key in full && key !in pruned ==> nowMs - full[key].lastSeenAtMs > STALE_AFTER_MS)
    && (key in full ==> 0 < full[key].windowStartedAtMs <= full[key].lastSeenAtMs <= nowMs)
  }

  lemma {:induction false} PruneKeepsAgree(pruned: Entries, full: Entries, key: string, nowMs: int)
    requires 0 < nowMs && Agree(pruned, full, key, nowMs)
    ensures Agree(Prune(pruned, nowMs), full, key, nowMs)
  {
  }

  lemma {:induction false} AdmitKeepsAgree(
    pruned: Entries, full: Entries, c: Call, rule: Rule, key: string, before: int, pruneAt: Option<nat>)
    requires 0 < c.nowMs && before <= c.nowMs && Agree(pruned, full, key, before)
    requires c.key == key ==> rule.windowMs <= STALE_AFTER_MS + 1
    ensures var (p, d) := Admit(pruned, c.key, rule, c.nowMs, pruneAt);
      var (f, e) := Admit(full, c.key, rule, c.nowMs, None);
      Agree(p, f, key, c.nowMs) && (c.key == key ==> d == e)
  {
    hide Prune;
    PruneKeepsAgree(pruned, full, key, c.nowMs);
    if c.key == key && key in full && key !in pruned {
      assert c.nowMs - full[key].windowStartedAtMs >= rule.windowMs;
    }
  }

  /** The decisions on calls of one key are the same. */
  predicate SameFor(calls: seq<Call>, d: seq<Decision>, e: seq<Decision>, key: string)
    requires |calls| == |d| == |e|
  {
    forall i :: 0 <= i < |calls| && calls[i].key == key ==> d[i] == e[i]
  }

  lemma {:induction false} SameForOneMore(calls: seq<Call>, d: seq<Decision>, e: seq<Decision>, key: string)
    requires |calls| == |d| == |e| > 0
    ensures SameFor(calls, d, e, key)
       <==> (calls[0].key == key ==> d[0] == e[0]) && SameFor(calls[1..], d[1..], e[1..], key)
  {
    if SameFor(calls[1..], d[1..], e[1..], key) && (calls[0].key == key ==> d[0] == e[0]) {
      forall i | 0 <= i < |calls| && calls[i].key == key ensures d[i] == e[i] {
        if i > 0 {
          assert calls[1..][i - 1] == calls[i] && d[1..][i - 1] == d[i] && e[1..][i - 1] == e[i];
        }
      }
    }
  }

  lemma {:induction false} PrunedRunsAgree(
    pruned: Entries, full: Entries, calls: seq<Call>, rules: string -> Rule, key: string, since: int,
    pruneAt: Option<nat>)
    requires Timely(calls, since) && Agree(pruned, full, key, since)
    requires rules(key).windowMs <= STALE_AFTER_MS + 1
    ensures SameFor(calls, Run(pruned, calls, rules, pruneAt), Run(full, calls, rules, None), key)
    ensures Agree(After(pruned, calls, rules, pruneAt), After(full, calls, rules, None), key, EndOf(calls, since))
    decreases |calls|
  {
    if calls != [] {
      hide Admit, Agree, SameFor;
      TimelyTail(calls, since);
      var c := calls[0];
      AdmitKeepsAgree(pruned, full, c, rules(c.key), key, since, pruneAt);
      SameForOneMore(calls, Run(pruned, calls, rules, pruneAt), Run(full, calls, rules, None), key);
      PrunedRunsAgree(Admit(pruned, c.key, rules(c.key), c.nowMs, pruneAt).0,
                      Admit(full, c.key, rules(c.key), c.nowMs, None).0, calls[1..], rules, key, c.nowMs, pruneAt);
    }
  }

  /** The time of the last call. */
  function EndOf(calls: seq<Call>, since: int): int {
    if calls == [] then since else calls[|calls| - 1].nowMs
  }

  /** The table after these calls. */
  function After(entries: Entries, calls: seq<Call>, rules: string -> Rule, pruneAt: Option<nat>): Entries
    decreases |calls|
  {
    if calls == [] then entries
    else After(Admit(entries, calls[0].key, rules(calls[0].key), calls[0].nowMs, pruneAt).0, calls[1..], rules, pruneAt)
  }

  /** On a key with a window of at most ten minutes the limiter decides as one that never prunes, whatever
      other keys are used in whatever order and under whatever rules. */
  lemma {:induction false} PruningIsInvisible(calls: seq<Call>, rules: string -> Rule, key: string)
    requires Timely(calls, 0) && rules(key).windowMs <= STALE_AFTER_MS + 1
    ensures SameFor(calls, Run(map[], calls, rules, Some(PRUNE_THRESHOLD)), Run(map[], calls, rules, None), key)
  {
    PrunedRunsAgree(map[], map[], calls, rules, key, 0, Some(PRUNE_THRESHOLD));
  }

  // ---- Exactly which windows pruning cannot disturb ----

  lemma {:induction false} RunInParts(
    entries: Entries, a: seq<Call>, b: seq<Call>, rules: string -> Rule, pruneAt: Option<nat>)
    ensures Run(entries, a + b, rules, pruneAt)
         == Run(entries, a, rules, pruneAt) + Run(After(entries, a, rules, pruneAt), b, rules, pruneAt)
    ensures After(entries, a + b, rules, pruneAt) == After(After(entries, a, rules, pruneAt), b, rules, pruneAt)
    decreases |a|
  {
    if a == [] {
      assert a + b == b;
    } else {
      assert (a + b)[1..] == a[1..] + b;
      RunInParts(Admit(entries, a[0].key, rules(a[0].key), a[0].nowMs, pruneAt).0, a[1..], b, rules, pruneAt);
    }
  }

  function Repeat(key: string, nowMs: int, n: nat): (calls: seq<Call>)
    ensures |calls| == n && forall i :: 0 <= i < n ==> calls[i] == Call(key, nowMs)
  {
    seq(n, i => Call(key, nowMs))
  }

  predicate BelowThreshold(entries: Entries, pruneAt: Option<nat>) {
    pruneAt.Some? ==> |entries| < pruneAt.value
  }

  predicate AllAllowed(decisions: seq<Decision>) {
    forall d | d in decisions :: d.allowed
  }

  /** Calls that fit in the open window are all allowed and counted. */
  lemma {:induction false} BurstIsCounted(
    entries: Entries, key: string, nowMs: int, n: nat, rules: string -> Rule, pruneAt: Option<nat>)
    requires key != "" && rules(key).Active() && key in entries && BelowThreshold(entries, pruneAt)
    requires var e := entries[key];
      0 < e.windowStartedAtMs && nowMs - e.windowStartedAtMs < rules(key).windowMs && e.hits + n <= rules(key).maxHits
    ensures AllAllowed(Run(entries, Repeat(key, nowMs, n), rules, pruneAt))
    ensures After(entries, Repeat(key, nowMs, n), rules, pruneAt)
         == entries[key := Entry(entries[key].hits + n, entries[key].windowStartedAtMs,
                                 if n == 0 then entries[key].lastSeenAtMs else nowMs)]
    decreases n
  {
    if n == 0 {
      assert entries[key := entries[key]] == entries;
    } else {
      assert Repeat(key, nowMs, n)[1..] == Repeat(key, nowMs, n - 1);
      var next := Admit(entries, key, rules(key), nowMs, pruneAt).0;
      assert next.Keys == entries.Keys;
      BurstIsCounted(next, key, nowMs, n - 1, rules, pruneAt);
    }
  }

  function Stars(n: nat): (s: string)
    ensures |s| == n
  {
    seq(n, i => '*')
  }

  /** One call for each of `n` distinct keys, of lengths `from`, `from + 1`, and so on. */
  function Fill(from: nat, n: nat): (calls: seq<Call>)
    ensures |calls| == n && forall i :: 0 <= i < n ==> calls[i] == Call(Stars(from + i), 1)
  {
    seq(n, i requires 0 <= i < n => Call(Stars(from + i), 1))
  }

  lemma {:induction false} NewKeyIsAdded(entries: Entries, key: string, rules: string -> Rule, pruneAt: Option<nat>)
    requires key != "" && key !in entries && rules(key).Active() && BelowThreshold(entries, pruneAt)
    ensures Admit(entries, key, rules(key), 1, pruneAt).0 == entries[key := Entry(1, 1, 1)]
    ensures |entries[key := Entry(1, 1, 1)]| == |entries| + 1
  {
    assert entries[key := Entry(1, 1, 1)].Keys == entries.Keys + {key};
  }

  lemma {:induction false} FillGrows(entries: Entries, from: nat, n: nat, rules: string -> Rule, pruneAt: Option<nat>)
    requires 0 < from && (forall k | k in entries :: |k| < from) && forall k :: rules(k).Active()
    requires pruneAt.Some? ==> |entries| + n <= pruneAt.value
    ensures |After(entries, Fill(from, n), rules, pruneAt)| == |entries| + n
    ensures forall k | k in entries ::
      && k in After(entries, Fill(from, n), rules, pruneAt)
      && After(entries, Fill(from, n), rules, pruneAt)[k] == entries[k]
    ensures forall k | k in After(entries, Fill(from, n), rules, pruneAt) ::
      k in entries || After(entries, Fill(from, n), rules, pruneAt)[k] == Entry(1, 1, 1)
    decreases n
  {
    hide Admit;
    if n != 0 {
      assert Fill(from, n)[0] == Call(Stars(from), 1);
      assert Fill(from, n)[1..] == Fill(from + 1, n - 1);
      NewKeyIsAdded(entries, Stars(from), rules, pruneAt);
      FillGrows(entries[Stars(from) := Entry(1, 1, 1)], from + 1, n - 1, rules, pruneAt);
    }
  }

  /** Use up one key's window, fill the table up to the threshold, then call that key again once its
      entry has just gone stale. */
  function Disturbance(rule: Rule): seq<Call>
    requires rule.Active()
  {
    Repeat("*", 1, rule.maxHits) + Fill(2, PRUNE_THRESHOLD - 1) + [Call("*", STALE_AFTER_MS + 2)]
  }

  lemma {:induction false} AfterBurst(rules: string -> Rule, pruneAt: Option<nat>)
    requires rules("*").Active() && (pruneAt.None? || pruneAt.value == PRUNE_THRESHOLD)
    ensures After(map[], Repeat("*", 1, rules("*").maxHits), rules, pruneAt) ==
      map["*" := Entry(rules("*").maxHits, 1, 1)]
  {
    var burst := Repeat("*", 1, rules("*").maxHits);
    var first: Entries := map["*" := Entry(1, 1, 1)];
    assert burst[1..] == Repeat("*", 1, rules("*").maxHits - 1);
    assert Admit(map[], "*", rules("*"), 1, pruneAt).0 == first;
    BurstIsCounted(first, "*", 1, rules("*").maxHits - 1, rules, pruneAt);
  }

  lemma {:induction false} BeforeDisturbance(rule: Rule, pruneAt: Option<nat>)
    requires rule.Active() && (pruneAt.None? || pruneAt.value == PRUNE_THRESHOLD)
    ensures var after := After(map[], Repeat("*", 1, rule.maxHits) + Fill(2, PRUNE_THRESHOLD - 1), k => rule, pruneAt);
      && |after| == PRUNE_THRESHOLD && "*" in after && after["*"] == Entry(rule.maxHits, 1, 1)
      && forall k | k in after :: after[k].lastSeenAtMs == 1
  {
    hide Admit, After;
    var rules := (k: string) => rule;
    AfterBurst(rules, pruneAt);
    RunInParts(map[], Repeat("*", 1, rule.maxHits), Fill(2, PRUNE_THRESHOLD - 1), rules, pruneAt);
    FillGrows(map["*" := Entry(rule.maxHits, 1, 1)], 2, PRUNE_THRESHOLD - 1, rules, pruneAt);
  }

  ghost predicate NeverDisturbed(rule: Rule) {
    forall calls | Timely(calls, 0) ::
      Run(map[], calls, k => rule, Some(PRUNE_THRESHOLD)) == Run(map[], calls, k => rule, None)
  }

  /** Pruning never changes a decision exactly when a window is at most one millisecond longer than the
      ten minutes after which an unused entry is dropped. */
  lemma {:induction false} PruningIsInvisibleExactly(rule: Rule)
    requires rule.Active()
    ensures NeverDisturbed(rule) <==> rule.windowMs <= STALE_AFTER_MS + 1
  {
    if rule.windowMs <= STALE_AFTER_MS + 1 {
      forall calls: seq<Call> | Timely(calls, 0)
        ensures Run(map[], calls, k => rule, Some(PRUNE_THRESHOLD)) == Run(map[], calls, k => rule, None)
      {
        var rules := (k: string) => rule;
        var d, e := Run(map[], calls, rules, Some(PRUNE_THRESHOLD)), Run(map[], calls, rules, None);
        forall i | 0 <= i < |calls| ensures d[i] == e[i] {
          PruningIsInvisible(calls, rules, calls[i].key);
        }
      }
    } else {
      var rules := (k: string) => rule;
      var last := Call("*", STALE_AFTER_MS + 2);
      var setup := Repeat("*", 1, rule.maxHits) + Fill(2, PRUNE_THRESHOLD - 1);
      forall pruneAt: Option<nat> | pruneAt.None? || pruneAt.value == PRUNE_THRESHOLD
        ensures Run(map[], Disturbance(rule), rules, pruneAt)[|setup|].allowed <==> pruneAt.Some?
      {
        BeforeDisturbance(rule, pruneAt);
        RunInParts(map[], setup, [last], rules, pruneAt);
        var entries := After(map[], setup, rules, pruneAt);
        assert "*" !in Prune(entries, last.nowMs);
      }
      assert Timely(Disturbance(rule), 0);
    }
  }

  // ---- How many calls get through ----

  /** How many calls of a key are allowed at times in the half-open interval `[from, from + width)`. */
  function AllowedIn(calls: seq<Call>, decisions: seq<Decision>, key: string, from: int, width: int): nat
    requires |calls| == |decisions|
    decreases |calls|
  {
    if calls == [] then 0
    else
      var rest := AllowedIn(calls[1..], decisions[1..], key, from, width);
      if calls[0].key == key && decisions[0].allowed && from <= calls[0].nowMs < from + width then rest + 1 else rest
  }

  /** What every entry of a run looks like at time `nowMs`. */
  predicate Sound(entry: Entry, rule: Rule, nowMs: int) {
    entry == NEW_ENTRY
    || (0 < entry.windowStartedAtMs <= entry.lastSeenAtMs <= nowMs && 1 <= entry.hits <= rule.maxHits)
  }

  /** How many more calls can be allowed in the interval, given the entry and the time so far. */
  function Budget(entry: Entry, rule: Rule, nowMs: int, from: int): int {
    if nowMs >= from + rule.windowMs then 0
    else if entry.windowStartedAtMs <= 0 then 2 * rule.maxHits - 1
    else if entry.windowStartedAtMs >= from then rule.maxHits - entry.hits
    else if nowMs >= from then 2 * rule.maxHits - entry.hits
    else 2 * rule.maxHits - 1
  }

  lemma {:induction false} BudgetShrinks(entry: Entry, rule: Rule, before: int, nowMs: int, from: int)
    requires rule.Active() && before <= nowMs && Sound(entry, rule, before) && 0 < nowMs
    ensures Sound(entry, rule, nowMs) && 0 <= Budget(entry, rule, nowMs, from) <= Budget(entry, rule, before, from)
    ensures var (next, decision) := Count(entry, rule, nowMs);
      && Sound(next, rule, nowMs)
      && Budget(next, rule, nowMs, from) + (if decision.allowed && from <= nowMs < from + rule.windowMs then 1 else 0)
           <= Budget(entry, rule, nowMs, from)
  {
  }

  lemma {:induction false} AllowedWithinBudget(
    entries: Entries, calls: seq<Call>, rules: string -> Rule, key: string, since: int, from: int)
    requires key != "" && rules(key).Active() && Timely(calls, since) && Sound(EntryOf(entries, key), rules(key), since)
    ensures AllowedIn(calls, Run(entries, calls, rules, None), key, from, rules(key).windowMs)
         <= Max(0, Budget(EntryOf(entries, key), rules(key), since, from))
    decreases |calls|
  {
    if calls != [] {
      TimelyTail(calls, since);
      var c := calls[0];
      BudgetShrinks(EntryOf(entries, key), rules(key), since, c.nowMs, from);
      AllowedWithinBudget(Admit(entries, c.key, rules(c.key), c.nowMs, None).0, calls[1..], rules, key, c.nowMs, from);
    }
  }

  lemma {:induction false} SameCount(
    calls: seq<Call>, d: seq<Decision>, e: seq<Decision>, key: string, from: int, width: int)
    requires |calls| == |d| == |e| && SameFor(calls, d, e, key)
    ensures AllowedIn(calls, d, key, from, width) == AllowedIn(calls, e, key, from, width)
    decreases |calls|
  {
    if calls != [] {
      forall i | 0 <= i < |calls| - 1 && calls[1..][i].key == key ensures d[1..][i] == e[1..][i] {
        assert calls[1..][i] == calls[i + 1];
      }
      SameCount(calls[1..], d[1..], e[1..], key, from, width);
    }
  }

  /** Every half-open interval one window long sees at most `2 * maxHits - 1` allowed calls of a key. */
  lemma {:induction false} SlidingWindowBound(calls: seq<Call>, rules: string -> Rule, key: string, from: int)
    requires key != "" && rules(key).Active() && rules(key).windowMs <= STALE_AFTER_MS + 1 && Timely(calls, 0)
    ensures AllowedIn(calls, Run(map[], calls, rules, Some(PRUNE_THRESHOLD)), key, from, rules(key).windowMs)
         <= 2 * rules(key).maxHits - 1
  {
    PruningIsInvisible(calls, rules, key);
    SameCount(calls, Run(map[], calls, rules, Some(PRUNE_THRESHOLD)), Run(map[], calls, rules, None), key, from,
              rules(key).windowMs);
    AllowedWithinBudget(map[], calls, rules, key, 0, from);
  }

  lemma {:induction false} SoundAfter(
    entries: Entries, calls: seq<Call>, rules: string -> Rule, key: string, since: int)
    requires key != "" && rules(key).Active() && Timely(calls, since) && Sound(EntryOf(entries, key), rules(key), since)
    ensures Sound(EntryOf(After(entries, calls, rules, None), key), rules(key), EndOf(calls, since))
    decreases |calls|
  {
    if calls != [] {
      hide Budget;
      TimelyTail(calls, since);
      var c := calls[0];
      BudgetShrinks(EntryOf(entries, key), rules(key), since, c.nowMs, 0);
      SoundAfter(Admit(entries, c.key, rules(c.key), c.nowMs, None).0, calls[1..], rules, key, c.nowMs);
    }
  }

  /** From a call that opens a window on, that window sees at most `maxHits` allowed calls. */
  lemma {:induction false} OpenedWindowBound(
    entries: Entries, calls: seq<Call>, rules: string -> Rule, key: string, since: int)
    requires key != "" && rules(key).Active() && Timely(calls, since) && Sound(EntryOf(entries, key), rules(key), since)
    requires calls != [] && calls[0].key == key && OpensWindow(entries, calls[0], rules(key))
    ensures AllowedIn(calls, Run(entries, calls, rules, None), key, calls[0].nowMs,
      rules(key).windowMs) <= rules(key).maxHits
  {
    TimelyTail(calls, since);
    var from := calls[0].nowMs;
    BudgetShrinks(EntryOf(entries, key), rules(key), since, from, from);
    AllowedWithinBudget(Admit(entries, key, rules(key), from, None).0, calls[1..], rules, key, from, from);
  }

  /** The key has no entry, or its window is over. */
  predicate OpensWindow(entries: Entries, c: Call, rule: Rule) {
    c.key in entries ==> c.nowMs - entries[c.key].windowStartedAtMs >= rule.windowMs
  }

  lemma {:induction false} TimelyParts(before: seq<Call>, calls: seq<Call>, since: int)
    requires Timely(before + calls, since)
    ensures Timely(before, since) && Timely(calls, EndOf(before, since))
  {
    var all := before + calls;
    assert forall i :: 0 <= i < |before| ==> before[i] == all[i];
    assert forall i :: 0 <= i < |calls| ==> calls[i] == all[|before| + i];
  }

  /** After any calls at all, a call that opens a counting window of its key is followed by at most
      `maxHits - 1` more allowed calls in that window. */
  lemma {:induction false} CountingWindowBound(before: seq<Call>, calls: seq<Call>, rules: string -> Rule, key: string)
    requires key != "" && rules(key).Active() && rules(key).windowMs <= STALE_AFTER_MS + 1
    requires Timely(before + calls, 0) && calls != [] && calls[0].key == key
    requires OpensWindow(After(map[], before, rules, Some(PRUNE_THRESHOLD)), calls[0], rules(key))
    ensures var entries := After(map[], before, rules, Some(PRUNE_THRESHOLD));
      AllowedIn(calls, Run(entries, calls, rules, Some(PRUNE_THRESHOLD)), key, calls[0].nowMs, rules(key).windowMs)
      <= rules(key).maxHits
  {
    TimelyParts(before, calls, 0);
    PrunedRunsAgree(map[], map[], before, rules, key, 0, Some(PRUNE_THRESHOLD));
    SoundAfter(map[], before, rules, key, 0);
    hide Run, After, AllowedIn, Admit;
    var since := EndOf(before, 0);
    var entries, full := After(map[], before, rules, Some(PRUNE_THRESHOLD)), After(map[], before, rules, None);
    TimelyTail(calls, since);
    PrunedRunsAgree(entries, full, calls, rules, key, since, Some(PRUNE_THRESHOLD));
    OpenedWindowBound(full, calls, rules, key, since);
    SameCount(calls, Run(entries, calls, rules, Some(PRUNE_THRESHOLD)), Run(full, calls, rules, None), key,
      calls[0].nowMs, rules(key).windowMs);
  }

  /** The bound is the best possible: one call opens a window, the rest of its quota is spent at its last
      millisecond, and a whole new quota at the next. */
  function Surge(rule: Rule): seq<Call>
    requires rule.Active()
  {
    [Call("*", 1)] + Repeat("*", rule.windowMs, rule.maxHits - 1) + [Call("*", rule.windowMs + 1)]
    + Repeat("*", rule.windowMs + 1, rule.maxHits - 1)
  }

  lemma {:induction false} AllowedInParts(
    a: seq<Call>, b: seq<Call>, d: seq<Decision>, e: seq<Decision>, key: string, from: int, width: int)
    requires |a| == |d| && |b| == |e|
    ensures AllowedIn(a + b, d + e, key, from, width)
         == AllowedIn(a, d, key, from, width) + AllowedIn(b, e, key, from, width)
    decreases |a|
  {
    if a == [] {
      assert a + b == b && d + e == e;
    } else {
      assert (a + b)[1..] == a[1..] + b && (d + e)[1..] == d[1..] + e;
      AllowedInParts(a[1..], b, d[1..], e, key, from, width);
    }
  }

  lemma {:induction false} AllAllowedCount(
    calls: seq<Call>, decisions: seq<Decision>, key: string, from: int, width: int)
    requires |calls| == |decisions| && AllAllowed(decisions)
    requires forall i :: 0 <= i < |calls| ==> calls[i].key == key && from <= calls[i].nowMs < from + width
    ensures AllowedIn(calls, decisions, key, from, width) == |calls|
    decreases |calls|
  {
    if calls != [] {
      assert decisions[0] in decisions;
      assert forall d | d in decisions[1..] :: d in decisions;
      AllAllowedCount(calls[1..], decisions[1..], key, from, width);
    }
  }

  lemma {:induction false} CountInParts(
    entries: Entries, a: seq<Call>, b: seq<Call>, rules: string -> Rule, key: string, from: int, width: int,
    pruneAt: Option<nat>)
    ensures AllowedIn(a + b, Run(entries, a + b, rules, pruneAt), key, from, width)
         == AllowedIn(a, Run(entries, a, rules, pruneAt), key, from, width)
          + AllowedIn(b, Run(After(entries, a, rules, pruneAt), b, rules, pruneAt), key, from, width)
  {
    RunInParts(entries, a, b, rules, pruneAt);
    AllowedInParts(a, b, Run(entries, a, rules, pruneAt), Run(After(entries, a, rules, pruneAt), b, rules, pruneAt),
                   key, from, width);
  }

  /** A new window's first call and the rest of its quota at once, from what pruning has left of the table. */
  lemma {:induction false} FullQuotaCounts(
    entries: Entries, nowMs: int, rules: string -> Rule, from: int, pruneAt: Option<nat>)
    requires var rule := rules("*"); rule.Active() && 0 < nowMs && from <= nowMs < from + rule.windowMs
    requires var kept := Kept(entries, nowMs, pruneAt);
      OpensWindow(kept, Call("*", nowMs), rules("*")) && BelowThreshold(kept["*" := NEW_ENTRY], pruneAt)
    ensures var calls := [Call("*", nowMs)] + Repeat("*", nowMs, rules("*").maxHits - 1);
      AllowedIn(calls, Run(entries, calls, rules, pruneAt), "*", from, rules("*").windowMs) == rules("*").maxHits
  {
    hide Run, After, AllowedIn, Admit, Kept;
    var rule := rules("*");
    var first, rest := [Call("*", nowMs)], Repeat("*", nowMs, rule.maxHits - 1);
    var next := Kept(entries, nowMs, pruneAt)["*" := Entry(1, nowMs, nowMs)];
    FirstOfQuota(entries, nowMs, rules, pruneAt);
    assert next.Keys == Kept(entries, nowMs, pruneAt)["*" := NEW_ENTRY].Keys;
    RestOfQuota(next, nowMs, rules, from, pruneAt);
    AllAllowedCount(first, Run(entries, first, rules, pruneAt), "*", from, rule.windowMs);
    CountInParts(entries, first, rest, rules, "*", from, rule.windowMs, pruneAt);
  }

  lemma {:induction false} RestOfQuota(
    entries: Entries, nowMs: int, rules: string -> Rule, from: int, pruneAt: Option<nat>)
    requires var rule := rules("*"); rule.Active() && 0 < nowMs && from <= nowMs < from + rule.windowMs
    requires "*" in entries && entries["*"] == Entry(1, nowMs, nowMs) && BelowThreshold(entries, pruneAt)
    ensures var rest := Repeat("*", nowMs, rules("*").maxHits - 1);
      AllowedIn(rest, Run(entries, rest, rules, pruneAt), "*", from, rules("*").windowMs) == rules("*").maxHits - 1
  {
    hide Run, After, AllowedIn, Admit;
    var rest := Repeat("*", nowMs, rules("*").maxHits - 1);
    BurstIsCounted(entries, "*", nowMs, rules("*").maxHits - 1, rules, pruneAt);
    AllAllowedCount(rest, Run(entries, rest, rules, pruneAt), "*", from, rules("*").windowMs);
  }

  lemma {:induction false} FirstOfQuota(entries: Entries, nowMs: int, rules: string -> Rule, pruneAt: Option<nat>)
    requires rules("*").Active() && OpensWindow(Kept(entries, nowMs, pruneAt), Call("*", nowMs), rules("*"))
    ensures var first := [Call("*", nowMs)];
      && After(entries, first, rules, pruneAt) == Kept(entries, nowMs, pruneAt)["*" := Entry(1, nowMs, nowMs)]
      && AllAllowed(Run(entries, first, rules, pruneAt))
  {
    var first := [Call("*", nowMs)];
    assert first[1..] == [];
    var (next, d) := Admit(entries, "*", rules("*"), nowMs, pruneAt);
    assert Run(entries, first, rules, pruneAt) == [d] + Run(next, [], rules, pruneAt) == [d];
  }

  lemma {:induction false} FirstCallOpensWindow(rules: string -> Rule, from: int, width: int, pruneAt: Option<nat>)
    requires rules("*").Active() && 1 < from && BelowThreshold(map[], pruneAt)
    ensures After(map[], [Call("*", 1)], rules, pruneAt) == map["*" := Entry(1, 1, 1)]
    ensures AllowedIn([Call("*", 1)], Run(map[], [Call("*", 1)], rules, pruneAt), "*", from, width) == 0
  {
    var calls := [Call("*", 1)];
    assert AllowedIn(calls, Run(map[], calls, rules, pruneAt), "*", from, width)
        == AllowedIn(calls[1..], Run(map[], calls, rules, pruneAt)[1..], "*", from, width);
  }

  lemma {:induction false} SlidingWindowBoundIsTight(rule: Rule)
    requires rule.Active() && rule.windowMs >= 2
    ensures Timely(Surge(rule), 0)
    ensures AllowedIn(Surge(rule), Run(map[], Surge(rule), k => rule, Some(PRUNE_THRESHOLD)), "*", rule.windowMs,
      rule.windowMs)
         == 2 * rule.maxHits - 1
  {
    hide Run, After, AllowedIn, Admit;
    var rules := (k: string) => rule;
    var pruneAt := Some(PRUNE_THRESHOLD);
    var h, w := rule.maxHits, rule.windowMs;
    var open, spend := [Call("*", 1)], Repeat("*", w, h - 1);
    var again := [Call("*", w + 1)] + Repeat("*", w + 1, h - 1);
    var started: Entries := map["*" := Entry(1, 1, 1)];
    FirstCallOpensWindow(rules, w, w, pruneAt);
    BurstIsCounted(started, "*", w, h - 1, rules, pruneAt);
    AllAllowedCount(spend, Run(started, spend, rules, pruneAt), "*", w, w);
    CountInParts(map[], open, spend, rules, "*", w, w, pruneAt);
    RunInParts(map[], open, spend, rules, pruneAt);
    var spent := After(started, spend, rules, pruneAt);
    assert spent.Keys == spent["*" := NEW_ENTRY].Keys == {"*"};
    FullQuotaCounts(spent, w + 1, rules, w, pruneAt);
    CountInParts(map[], open + spend, again, rules, "*", w, w, pruneAt);
    assert Surge(rule) == open + spend + again;
  }

  /** Use up one key's window, fill the table up to the threshold, and use a whole new quota once the key's
      entry has just gone stale. */
  function Overrun(rule: Rule): seq<Call>
    requires rule.Active()
  {
    Repeat("*", 1, rule.maxHits) + Fill(2, PRUNE_THRESHOLD - 1)
    + ([Call("*", STALE_AFTER_MS + 2)] + Repeat("*", STALE_AFTER_MS + 2, rule.maxHits - 1))
  }

  lemma {:induction false} FirstQuotaCounts(rule: Rule, pruneAt: Option<nat>)
    requires rule.Active() && pruneAt == Some(PRUNE_THRESHOLD)
    ensures var quota := Repeat("*", 1, rule.maxHits);
      AllowedIn(quota, Run(map[], quota, k => rule, pruneAt), "*", 1, rule.windowMs) == rule.maxHits
  {
    var rules := (k: string) => rule;
    FullQuotaCounts(map[], 1, rules, 1, pruneAt);
    assert Repeat("*", 1, rule.maxHits) == [Call("*", 1)] + Repeat("*", 1, rule.maxHits - 1);
  }

  lemma {:induction false} OverrunCounts(rule: Rule)
    requires rule.Active() && rule.windowMs > STALE_AFTER_MS + 1
    ensures Timely(Overrun(rule), 0)
    ensures AllowedIn(Overrun(rule), Run(map[], Overrun(rule), k => rule, Some(PRUNE_THRESHOLD)), "*", 1, rule.windowMs)
         >= 2 * rule.maxHits
  {
    hide Run, After, AllowedIn, Admit, Kept, Prune;
    var rules := (k: string) => rule;
    var pruneAt := Some(PRUNE_THRESHOLD);
    var quota, fill, late := Repeat("*", 1, rule.maxHits), Fill(2, PRUNE_THRESHOLD - 1), STALE_AFTER_MS + 2;
    var again := [Call("*", late)] + Repeat("*", late, rule.maxHits - 1);
    BeforeDisturbance(rule, pruneAt);
    FirstQuotaCounts(rule, pruneAt);
    var full := After(map[], quota + fill, rules, pruneAt);
    AllStaleAreDropped(full);
    FullQuotaCounts(full, late, rules, 1, pruneAt);
    CountInParts(map[], quota, fill, rules, "*", 1, rule.windowMs, pruneAt);
    CountInParts(map[], quota + fill, again, rules, "*", 1, rule.windowMs, pruneAt);
  }

  lemma {:induction false} AllStaleAreDropped(entries: Entries)
    requires |entries| == PRUNE_THRESHOLD && forall k | k in entries :: entries[k].lastSeenAtMs == 1
    ensures Kept(entries, STALE_AFTER_MS + 2, Some(PRUNE_THRESHOLD)) == map[]
  {
  }

  /** The sliding bound holds of every key in every run with this rule; an empty key is not limited. */
  ghost predicate SlidingBounded(rule: Rule) {
    forall calls, key, from | Timely(calls, 0) && key != "" :: WithinSlidingBound(rule, calls, key, from)
  }

  predicate WithinSlidingBound(rule: Rule, calls: seq<Call>, key: string, from: int) {
    var decisions := Run(map[], calls, k => rule, Some(PRUNE_THRESHOLD));
    AllowedIn(calls, decisions, key, from, rule.windowMs) <= 2 * rule.maxHits - 1
  }

  /** The sliding bound holds exactly when the window is at most one millisecond longer than the ten minutes
      after which an unused entry is dropped. */
  lemma {:induction false} SlidingWindowBoundExactly(rule: Rule)
    requires rule.Active()
    ensures SlidingBounded(rule) <==> rule.windowMs <= STALE_AFTER_MS + 1
  {
    hide Run, AllowedIn;
    if rule.windowMs <= STALE_AFTER_MS + 1 {
      forall calls, key, from | Timely(calls, 0) && key != "" ensures WithinSlidingBound(rule, calls, key, from) {
        SlidingWindowBound(calls, k => rule, key, from);
      }
    } else {
      OverrunCounts(rule);
      assert !WithinSlidingBound(rule, Overrun(rule), "*", 1);
    }
  }

  // ---- The retry time is exact ----

  /** While an entry's quota is used up, its key is denied until the window ends and allowed right then. */
  lemma {:induction false} DeniedUntilDeadline(
    entries: Entries, calls: seq<Call>, rules: string -> Rule, key: string, since: int, j: nat)
    requires key != "" && rules(key).Active() && Timely(calls, since) && j < |calls| && calls[j].key == key
    requires key in entries && 0 < entries[key].windowStartedAtMs && entries[key].hits >= rules(key).maxHits
    requires var deadline := entries[key].windowStartedAtMs + rules(key).windowMs;
      forall m | 0 <= m < j && calls[m].key == key :: calls[m].nowMs < deadline
    ensures Run(entries, calls, rules, None)[j].allowed
       <==> calls[j].nowMs >= entries[key].windowStartedAtMs + rules(key).windowMs
    decreases j
  {
    TimelyTail(calls, since);
    if j != 0 {
      var c := calls[0];
      var next := Admit(entries, c.key, rules(c.key), c.nowMs, None).0;
      forall m | 0 <= m < j - 1 && calls[1..][m].key == key
        ensures calls[1..][m].nowMs < entries[key].windowStartedAtMs + rules(key).windowMs
      {
        assert calls[1..][m] == calls[m + 1];
      }
      DeniedUntilDeadline(next, calls[1..], rules, key, c.nowMs, j - 1);
    }
  }

  lemma {:induction false} RetryAfterFrom(
    entries: Entries, calls: seq<Call>, rules: string -> Rule, since: int, i: nat, j: nat)
    requires Timely(calls, since) && i < j < |calls| && calls[i].key == calls[j].key
    requires !Run(entries, calls, rules, None)[i].allowed
    requires var retryAt := calls[i].nowMs + Run(entries, calls, rules, None)[i].retryAfterMs;
      forall m | i < m < j && calls[m].key == calls[i].key :: calls[m].nowMs < retryAt
    ensures Run(entries, calls, rules, None)[j].allowed
       <==> calls[j].nowMs >= calls[i].nowMs + Run(entries, calls, rules, None)[i].retryAfterMs
    decreases i
  {
    TimelyTail(calls, since);
    var c := calls[0];
    var next := Admit(entries, c.key, rules(c.key), c.nowMs, None).0;
    var rest := calls[1..];
    if i == 0 {
      forall m | 0 <= m < j - 1 && rest[m].key == c.key
        ensures rest[m].nowMs < next[c.key].windowStartedAtMs + rules(c.key).windowMs
      {
        assert rest[m] == calls[m + 1];
      }
      DeniedUntilDeadline(next, rest, rules, c.key, c.nowMs, j - 1);
    } else {
      forall m | i - 1 < m < j - 1 && rest[m].key == rest[i - 1].key
        ensures rest[m].nowMs < rest[i - 1].nowMs + Run(next, rest, rules, None)[i - 1].retryAfterMs
      {
        assert rest[m] == calls[m + 1];
      }
      RetryAfterFrom(next, rest, rules, c.nowMs, i - 1, j - 1);
    }
  }

  /** After a denial, a later call of the key with no call of it at or after the retry time in between is
      allowed exactly when it comes at or after the retry time, whatever the other keys do. */
  lemma {:induction false} RetryAfterIsExact(calls: seq<Call>, rules: string -> Rule, i: nat, j: nat)
    requires Timely(calls, 0) && i < j < |calls| && calls[i].key == calls[j].key
    requires rules(calls[i].key).windowMs <= STALE_AFTER_MS + 1
    requires !Run(map[], calls, rules, Some(PRUNE_THRESHOLD))[i].allowed
    requires var retryAt := calls[i].nowMs + Run(map[], calls, rules, Some(PRUNE_THRESHOLD))[i].retryAfterMs;
      forall m | i < m < j && calls[m].key == calls[i].key :: calls[m].nowMs < retryAt
    ensures var decisions := Run(map[], calls, rules, Some(PRUNE_THRESHOLD));
      decisions[j].allowed <==> calls[j].nowMs >= calls[i].nowMs + decisions[i].retryAfterMs
  {
    PruningIsInvisible(calls, rules, calls[i].key);
    RetryAfterFrom(map[], calls, rules, 0, i, j);
  }

  // ---- Denials are earned ----

  /** What the entry of a key adds to the calls allowed from `from` on. */
  function Earned(entry: Entry, from: int): int {
    if entry.windowStartedAtMs >= from then entry.hits else 0
  }

  lemma {:induction false} AdmitEarns(
    entries: Entries, c: Call, rule: Rule, key: string, from: int, pruneAt: Option<nat>)
    requires 0 < c.nowMs && EntryOf(entries, key).windowStartedAtMs <= c.nowMs && EntryOf(entries, key).hits >= 0
    ensures var (next, d) := Admit(entries, c.key, rule, c.nowMs, pruneAt);
      && EntryOf(next, key).windowStartedAtMs <= c.nowMs && EntryOf(next, key).hits >= 0
      && Earned(EntryOf(next, key), from)
           <= Earned(EntryOf(entries, key), from) + if c.key == key && d.allowed && c.nowMs >= from then 1 else 0
  {
  }

  lemma {:induction false} DeniedAtOnce(entries: Entries, c: Call, rule: Rule, pruneAt: Option<nat>)
    requires !Admit(entries, c.key, rule, c.nowMs, pruneAt).1.allowed
    ensures c.key != "" && rule.Active()
    ensures Earned(EntryOf(entries, c.key), c.nowMs - rule.windowMs + 1) >= rule.maxHits
  {
  }

  lemma {:induction false} DeniedFromThere(
    entries: Entries, calls: seq<Call>, rules: string -> Rule, since: int, i: nat, pruneAt: Option<nat>)
    requires Timely(calls, since) && i < |calls| && !Run(entries, calls, rules, pruneAt)[i].allowed
    requires var e := EntryOf(entries, calls[i].key); e.windowStartedAtMs <= since && e.hits >= 0
    ensures var key := calls[i].key;
      var from, width := calls[i].nowMs - rules(key).windowMs + 1, rules(key).windowMs;
      && key != "" && rules(key).Active()
      && AllowedIn(calls[..i], Run(entries, calls, rules, pruneAt)[..i], key, from, width)
         + Earned(EntryOf(entries, key), from) >= rules(key).maxHits
    decreases i
  {
    var c, key, all := calls[0], calls[i].key, Run(entries, calls, rules, pruneAt);
    var from, width := calls[i].nowMs - rules(key).windowMs + 1, rules(key).windowMs;
    TimelyTail(calls, since);
    if i == 0 {
      DeniedAtOnce(entries, c, rules(key), pruneAt);
    } else {
      AdmitEarns(entries, c, rules(c.key), key, from, pruneAt);
      hide Admit, Earned, EntryOf;
      var next := Admit(entries, c.key, rules(c.key), c.nowMs, pruneAt).0;
      DeniedFromThere(next, calls[1..], rules, c.nowMs, i - 1, pruneAt);
      assert calls[..i][1..] == calls[1..][..i - 1] && all[..i][1..] == all[1..][..i - 1];
      assert calls[..i][0] == c && all[..i][0] == all[0];
    }
  }

  /** Nobody is denied too early: a call is denied only under a rule that limits, and only after `maxHits` calls of its
      key have been allowed within the last window; whatever the window and the other keys. */
  lemma {:induction false} DenialsAreEarned(calls: seq<Call>, rules: string -> Rule, i: nat)
    requires Timely(calls, 0) && i < |calls|
    requires !Run(map[], calls, rules, Some(PRUNE_THRESHOLD))[i].allowed
    ensures var key, decisions := calls[i].key, Run(map[], calls, rules, Some(PRUNE_THRESHOLD));
      && key != "" && rules(key).Active()
      && AllowedIn(calls[..i], decisions[..i], key, calls[i].nowMs - rules(key).windowMs + 1, rules(key).windowMs)
         >= rules(key).maxHits
  {
    DeniedFromThere(map[], calls, rules, 0, i, Some(PRUNE_THRESHOLD));
  }

  /** The figure in the error message the server sends. */
  function RetryAfterSeconds(decision: Decision): int {
    Max(1, (decision.retryAfterMs + 999) / 1000)
  }

  /** The seconds reported with a denial are the least whole number of seconds that is long enough. */
  lemma {:induction false} ReportedSecondsSuffice(entry: Entry, rule: Rule, nowMs: int)
    requires !Count(entry, rule, nowMs).1.allowed
    ensures var decision := Count(entry, rule, nowMs).1;
      0 < decision.retryAfterMs
        && 1000 * (RetryAfterSeconds(decision) - 1) < decision.retryAfterMs <= 1000 * RetryAfterSeconds(decision)
  {
  }

  // ---- The server's rules ----

  const REGISTER_RATE_LIMIT := Rule(4, 60 * 1000)
  const LOGIN_RATE_LIMIT := Rule(6, 60 * 1000)
  const RESUME_SESSION_RATE_LIMIT := Rule(20, 60 * 1000)
  const CHECK_USER_RATE_LIMIT := Rule(20, 10 * 1000)
  const MESSAGE_RATE_LIMIT := Rule(25, 10 * 1000)
  const READ_RECEIPT_RATE_LIMIT := Rule(60, 10 * 1000)

  const SERVER_RULES := {REGISTER_RATE_LIMIT, LOGIN_RATE_LIMIT, RESUME_SESSION_RATE_LIMIT, CHECK_USER_RATE_LIMIT,
                         MESSAGE_RATE_LIMIT, READ_RECEIPT_RATE_LIMIT}

  /** None of the server's rules is disturbed by pruning. */
  lemma {:induction false} ServerRulesAreNeverDisturbed(rule: Rule)
    requires rule in SERVER_RULES
    ensures NeverDisturbed(rule)
  {
    PruningIsInvisibleExactly(rule);
  }
}
