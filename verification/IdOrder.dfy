/** The order of messages everywhere in the program: by creation time, and by id among equal times. */
module IdOrder {

  /** String comparison, character by character. A character here is a code point, while QString compares UTF-16
      code units; the two orders differ only where a surrogate pair meets a code unit of 0xE000 or more. */
  predicate LexLess(a: string, b: string) {
    if b == "" then false
    else if a == "" then true
    else a[0] < b[0] || (a[0] == b[0] && LexLess(a[1..], b[1..]))
  }

  /** The first place at which the two strings differ decides: the one that ends there, or has the smaller character
      there, comes first. */
  predicate DecidesAt(a: string, b: string, n: nat) {
    n <= |a| && n < |b| && a[..n] == b[..n] && (n == |a| || a[n] < b[n])
  }

  lemma {:induction false} LexLessIff(a: string, b: string)
    ensures LexLess(a, b) <==> exists n :: DecidesAt(a, b, n)
  {
    if b != "" && a != "" {
      LexLessIff(a[1..], b[1..]);
      if a[0] == b[0] {
        if exists n :: DecidesAt(a[1..], b[1..], n) {
          var n: nat :| DecidesAt(a[1..], b[1..], n);
          assert a[..n + 1] == [a[0]] + a[1..][..n] && b[..n + 1] == [b[0]] + b[1..][..n];
          assert DecidesAt(a, b, n + 1);
        }
        if exists n :: DecidesAt(a, b, n) {
          var n: nat :| DecidesAt(a, b, n);
          assert n > 0;
          assert a[1..][..n - 1] == a[..n][1..] && b[1..][..n - 1] == b[..n][1..];
          assert DecidesAt(a[1..], b[1..], n - 1);
        }
      } else {
        assert a[0] < b[0] ==> DecidesAt(a, b, 0);
        if exists n :: DecidesAt(a, b, n) {
          var n: nat :| DecidesAt(a, b, n);
          assert n > 0 ==> a[..n][0] == b[..n][0];
        }
      }
    } else {
      assert b != "" ==> DecidesAt(a, b, 0);
    }
  }

  lemma {:induction false} LexIrreflexive(a: string)
    ensures !LexLess(a, a)
  {
    if a != "" {
      LexIrreflexive(a[1..]);
    }
  }

  lemma {:induction false} LexTransitive(a: string, b: string, c: string)
    requires LexLess(a, b) && LexLess(b, c)
    ensures LexLess(a, c)
  {
    if a != "" && a[0] == b[0] && b[0] == c[0] {
      LexTransitive(a[1..], b[1..], c[1..]);
    }
  }

  lemma {:induction false} LexTotal(a: string, b: string)
    ensures LexLess(a, b) || LexLess(b, a) || a == b
  {
    if a != "" && b != "" && a[0] == b[0] {
      LexTotal(a[1..], b[1..]);
      if a[1..] == b[1..] {
        assert a == [a[0]] + a[1..] && b == [b[0]] + b[1..];
      }
    }
  }

  type Times = map<string, int>

  predicate Before(t: Times, a: string, b: string)
    requires a in t && b in t
  {
    t[a] < t[b] || (t[a] == t[b] && LexLess(a, b))
  }

  lemma {:induction false} BeforeIrreflexive(t: Times, a: string)
    requires a in t
    ensures !Before(t, a, a)
  {
    LexIrreflexive(a);
  }

  lemma {:induction false} BeforeTransitive(t: Times, a: string, b: string, c: string)
    requires a in t && b in t && c in t && Before(t, a, b) && Before(t, b, c)
    ensures Before(t, a, c)
  {
    if t[a] == t[b] == t[c] {
      LexTransitive(a, b, c);
    }
  }

  lemma {:induction false} BeforeTotal(t: Times, a: string, b: string)
    requires a in t && b in t
    ensures Before(t, a, b) || Before(t, b, a) || a == b
  {
    LexTotal(a, b);
  }

  predicate Known(t: Times, s: seq<string>) {
    forall i :: 0 <= i < |s| ==> s[i] in t
  }

  /** Strictly ascending, so without duplicates. */
  predicate Sorted(t: Times, s: seq<string>) {
    Known(t, s) && forall i, j :: 0 <= i < j < |s| ==> Before(t, s[i], s[j])
  }

  function Elements(s: seq<string>): set<string> { set x | x in s }

  predicate NoDuplicates(s: seq<string>) {
    forall i, j :: 0 <= i < j < |s| ==> s[i] != s[j]
  }

  lemma {:induction false} SortedHasNoDuplicates(t: Times, s: seq<string>)
    requires Sorted(t, s)
    ensures NoDuplicates(s)
  {
    forall i, j | 0 <= i < j < |s| ensures s[i] != s[j] {
      BeforeIrreflexive(t, s[i]);
    }
  }

  lemma {:induction false} SmallestIsFirst(t: Times, a: seq<string>, b: seq<string>)
    requires Sorted(t, a) && Sorted(t, b) && Elements(a) == Elements(b) && a != []
    ensures b != [] && a[0] == b[0]
  {
    assert a[0] in Elements(b);
    assert b[0] in Elements(a);
    var i :| 0 <= i < |b| && b[i] == a[0];
    var j :| 0 <= j < |a| && a[j] == b[0];
    if i > 0 && j > 0 {
      BeforeTransitive(t, a[0], b[0], a[0]);
      BeforeIrreflexive(t, a[0]);
    }
  }

  lemma {:induction false} ElementsOfTail(t: Times, a: seq<string>)
    requires a != [] && Sorted(t, a)
    ensures Sorted(t, a[1..]) && Elements(a[1..]) == Elements(a) - {a[0]}
  {
    SortedHasNoDuplicates(t, a);
    assert a == [a[0]] + a[1..];
  }

  /** There is only one way to sort a set. */
  lemma {:induction false} SortedUnique(t: Times, a: seq<string>, b: seq<string>)
    requires Sorted(t, a) && Sorted(t, b) && Elements(a) == Elements(b)
    ensures a == b
    decreases |a|
  {
    if b != [] {
      assert b[0] in Elements(b);
    }
    if a != [] {
      SmallestIsFirst(t, a, b);
      ElementsOfTail(t, a);
      ElementsOfTail(t, b);
      SortedUnique(t, a[1..], b[1..]);
      assert a == [a[0]] + a[1..] && b == [b[0]] + b[1..];
    }
  }

  function Insert(t: Times, x: string, s: seq<string>): (r: seq<string>)
    requires x in t && Known(t, s)
    ensures |r| == |s| + 1 && Known(t, r) && Elements(r) == Elements(s) + {x}
  {
    if s == [] || !Before(t, s[0], x) then [x] + s
    else
      var rest := Insert(t, x, s[1..]);
      assert s == [s[0]] + s[1..] && Elements([s[0]] + rest) == {s[0]} + Elements(rest);
      [s[0]] + rest
  }

  /** `std::stable_sort` with `messageComesBefore`: insertion sort, equal elements keep their order. */
  function StableSort(t: Times, s: seq<string>): (r: seq<string>)
    requires Known(t, s)
    ensures |r| == |s| && Known(t, r) && Elements(r) == Elements(s)
  {
    if s == [] then []
    else
      assert s == [s[0]] + s[1..];
      Insert(t, s[0], StableSort(t, s[1..]))
  }

  lemma {:induction false} InsertSorts(t: Times, x: string, s: seq<string>)
    requires x in t && Sorted(t, s) && x !in s
    ensures Sorted(t, Insert(t, x, s))
  {
    if s == [] {
    } else if !Before(t, s[0], x) {
      BeforeTotal(t, s[0], x);
      var r := [x] + s;
      forall i, j | 0 <= i < j < |r| ensures Before(t, r[i], r[j]) {
        if i == 0 && j > 1 {
          BeforeTransitive(t, x, s[0], s[j - 1]);
        }
      }
    } else {
      InsertSorts(t, x, s[1..]);
      var rest := Insert(t, x, s[1..]);
      forall j | 0 <= j < |rest| ensures Before(t, s[0], rest[j]) {
        assert rest[j] in Elements(s[1..]) + {x};
        if rest[j] != x {
          var k :| 0 <= k < |s| - 1 && s[1..][k] == rest[j];
        }
      }
    }
  }

  lemma {:induction false} StableSortSorts(t: Times, s: seq<string>)
    requires Known(t, s) && NoDuplicates(s)
    ensures Sorted(t, StableSort(t, s))
  {
    if s != [] {
      StableSortSorts(t, s[1..]);
      assert s[0] !in Elements(StableSort(t, s[1..]));
      InsertSorts(t, s[0], StableSort(t, s[1..]));
    }
  }

  /** The sorted list of a set of ids: `ORDER BY created_at ASC, id ASC`. */
  ghost function SortSet(t: Times, ids: set<string>): (r: seq<string>)
    requires ids <= t.Keys
    ensures Sorted(t, r) && Elements(r) == ids
    decreases |ids|
  {
    if ids == {} then []
    else
      var x :| x in ids;
      var rest := SortSet(t, ids - {x});
      assert x !in rest;
      InsertSorts(t, x, rest);
      Insert(t, x, rest)
  }

  /** Sorting a list without duplicates sorts its set. */
  lemma {:induction false} StableSortIsSortSet(t: Times, s: seq<string>)
    requires Known(t, s) && NoDuplicates(s)
    ensures Elements(s) <= t.Keys && StableSort(t, s) == SortSet(t, Elements(s))
  {
    StableSortSorts(t, s);
    SortedUnique(t, StableSort(t, s), SortSet(t, Elements(s)));
  }

  lemma {:induction false} SortSetIs(t: Times, s: seq<string>, ids: set<string>)
    requires Sorted(t, s) && Elements(s) == ids
    ensures ids <= t.Keys && s == SortSet(t, ids)
  {
    SortedUnique(t, s, SortSet(t, ids));
  }

  predicate SameTimes(t: Times, u: Times, ids: set<string>) {
    forall x | x in ids :: x in t && x in u && t[x] == u[x]
  }

  /** The order of a set depends on the times of its own members only. */
  lemma {:induction false} SortSetLocal(t: Times, u: Times, ids: set<string>)
    requires SameTimes(t, u, ids)
    ensures ids <= t.Keys && ids <= u.Keys && SortSet(t, ids) == SortSet(u, ids)
  {
    var s := SortSet(t, ids);
    forall i | 0 <= i < |s| ensures s[i] in u && t[s[i]] == u[s[i]] {
      assert s[i] in Elements(s);
    }
    SortedUnique(u, s, SortSet(u, ids));
  }
}
