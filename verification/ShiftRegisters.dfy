/** A shift register that absorbs words: the algebra behind the checksum loop, over any word type.
    Keeping the word abstract lets each law be proved without reasoning about single bits. */
module ShiftRegisters {

  datatype ShiftRegister<!W(!new)> = ShiftRegister(step: W -> W, plus: (W, W) -> W) {

    function Rounds(w: W, n: nat): W
      decreases n
    {
      if n == 0 then w else Rounds(step(w), n - 1)
    }

    /** Add one word to the register, then shift it `n` times. */
    function Mix(w: W, word: W, n: nat): W {
      Rounds(plus(w, word), n)
    }

    /** Absorb the words from first to last. */
    function Absorb(w: W, words: seq<W>, n: nat): W
      decreases |words|
    {
      if words == [] then w else Mix(Absorb(w, words[..|words| - 1], n), words[|words| - 1], n)
    }

    ghost predicate Reversible() {
      && (forall a, b :: step(a) == step(b) ==> a == b)
      && (forall a, b, c :: plus(a, c) == plus(b, c) ==> a == b)
      && (forall a, b, c :: plus(c, a) == plus(c, b) ==> a == b)
    }

    ghost predicate Linear() {
      && (forall a, b :: step(plus(a, b)) == plus(step(a), step(b)))
      && (forall a, b, p, q :: plus(plus(a, b), plus(p, q)) == plus(plus(a, p), plus(b, q)))
    }

    // ---- No information is lost ----

    lemma {:induction false} RoundsInjective(a: W, b: W, n: nat)
      requires Reversible() && Rounds(a, n) == Rounds(b, n)
      ensures a == b
      decreases n
    {
      if n != 0 {
        RoundsInjective(step(a), step(b), n - 1);
      }
    }

    lemma {:induction false} AbsorbInjective(a: W, b: W, words: seq<W>, n: nat)
      requires Reversible() && Absorb(a, words, n) == Absorb(b, words, n)
      ensures a == b
      decreases |words|
    {
      if words != [] {
        var init, last := words[..|words| - 1], words[|words| - 1];
        RoundsInjective(plus(Absorb(a, init, n), last), plus(Absorb(b, init, n), last), n);
        AbsorbInjective(a, b, init, n);
      }
    }

    lemma {:induction false} AbsorbAppends(w: W, a: seq<W>, b: seq<W>, n: nat)
      ensures Absorb(w, a + b, n) == Absorb(Absorb(w, a, n), b, n)
      decreases |b|
    {
      if b == [] {
        assert a + b == a;
      } else {
        assert (a + b)[..|a + b| - 1] == a + b[..|b| - 1];
        AbsorbAppends(w, a, b[..|b| - 1], n);
      }
    }

    lemma {:induction false} AbsorbInParts(w: W, before: seq<W>, word: W, after: seq<W>, n: nat)
      ensures Absorb(w, before + [word] + after, n) == Absorb(Mix(Absorb(w, before, n), word, n), after, n)
    {
      AbsorbAppends(w, before + [word], after, n);
      assert (before + [word])[..|before|] == before;
    }

    /** Word sequences that differ in one place leave equal registers only if they do not differ after all. */
    lemma {:induction false} OneWordMatters(w: W, words: seq<W>, k: nat, word: W, n: nat)
      requires Reversible() && k < |words|
      requires Absorb(w, words[k := word], n) == Absorb(w, words, n)
      ensures word == words[k]
    {
      var before, after := words[..k], words[k + 1..];
      assert words == before + [words[k]] + after && words[k := word] == before + [word] + after;
      AbsorbInParts(w, before, words[k], after, n);
      AbsorbInParts(w, before, word, after, n);
      var r := Absorb(w, before, n);
      AbsorbInjective(Mix(r, words[k], n), Mix(r, word, n), after, n);
      RoundsInjective(plus(r, words[k]), plus(r, word), n);
    }

    // ---- Runs add up ----

    lemma {:induction false} RoundsAdd(w: W, m: nat, n: nat)
      ensures Rounds(w, m + n) == Rounds(Rounds(w, m), n)
      decreases m
    {
      if m != 0 {
        RoundsAdd(step(w), m - 1, n);
      }
    }

    lemma {:induction false} RoundsLinear(a: W, b: W, n: nat)
      requires Linear()
      ensures Rounds(plus(a, b), n) == plus(Rounds(a, n), Rounds(b, n))
      decreases n
    {
      if n != 0 {
        RoundsLinear(step(a), step(b), n - 1);
      }
    }

    /** Two runs add up word by word. */
    lemma {:induction false} AbsorbLinear(r: W, s: W, a: seq<W>, b: seq<W>, c: seq<W>, n: nat)
      requires Linear() && |a| == |b| == |c|
      requires forall i :: 0 <= i < |c| ==> c[i] == plus(a[i], b[i])
      ensures Absorb(plus(r, s), c, n) == plus(Absorb(r, a, n), Absorb(s, b, n))
      decreases |a|
    {
      if a != [] {
        var k := |a| - 1;
        AbsorbLinear(r, s, a[..k], b[..k], c[..k], n);
        RoundsLinear(plus(Absorb(r, a[..k], n), a[k]), plus(Absorb(s, b[..k], n), b[k]), n);
      }
    }

    // ---- The zero word ----

    lemma {:induction false} ZeroStaysZero(zero: W, words: seq<W>, n: nat)
      requires Mix(zero, zero, n) == zero && forall i :: 0 <= i < |words| ==> words[i] == zero
      ensures Absorb(zero, words, n) == zero
      decreases |words|
    {
      if words != [] {
        ZeroStaysZero(zero, words[..|words| - 1], n);
      }
    }

    /** Zeros around a run decide nothing: they leave a zero register exactly if the run does. */
    lemma {:induction false} RunAmongZeros(zero: W, words: seq<W>, from: nat, to: nat, n: nat)
      requires Reversible() && Mix(zero, zero, n) == zero && from <= to <= |words|
      requires forall i :: 0 <= i < |words| && !(from <= i < to) ==> words[i] == zero
      ensures Absorb(zero, words, n) == zero <==> Absorb(zero, words[from..to], n) == zero
    {
      var before, run, after := words[..from], words[from..to], words[to..];
      assert words == before + run + after;
      AbsorbAppends(zero, before + run, after, n);
      AbsorbAppends(zero, before, run, n);
      ZeroStaysZero(zero, before, n);
      ZeroStaysZero(zero, after, n);
      if Absorb(zero, words, n) == zero {
        AbsorbInjective(Absorb(zero, run, n), zero, after, n);
      }
    }
  }

  /** A left fold that consumes the first element first. */
  function FoldFront<W, B>(f: (W, B) -> W, w: W, data: seq<B>): W
    decreases |data|
  {
    if data == [] then w else FoldFront(f, f(w, data[0]), data[1..])
  }

  /** Absorbing words is folding over the bytes they came from, through any equal single step. */
  lemma {:induction false} AbsorbIsFoldFront<W(!new), B(!new)>(
    m: ShiftRegister<W>, f: (W, B) -> W, widen: B -> W, w: W, data: seq<B>, words: seq<W>, n: nat)
    requires |words| == |data| && forall i :: 0 <= i < |data| ==> words[i] == widen(data[i])
    requires forall r, b :: f(r, b) == m.Mix(r, widen(b), n)
    ensures m.Absorb(w, words, n) == FoldFront(f, w, data)
    decreases |data|
  {
    if data != [] {
      assert words == [words[0]] + words[1..];
      m.AbsorbAppends(w, [words[0]], words[1..], n);
      assert [words[0]][..0] == [];
      assert m.Absorb(w, [words[0]], n) == f(w, data[0]);
      AbsorbIsFoldFront(m, f, widen, f(w, data[0]), data[1..], words[1..], n);
    }
  }
}
