/** The checksum as a remainder: over the integers modulo 2, the register is the remainder of the message by the
    CRC-32 generator polynomial (section 8 of RFC 1952; the polynomial is that of ISO 3309). */
module Remainders {
  import opened Bits
  import opened Crc

  /** A polynomial over the integers modulo 2, as the set of the exponents it has. */
  type Poly = set<nat>

  /** x^32 + x^26 + x^23 + x^22 + x^16 + x^12 + x^11 + x^10 + x^8 + x^7 + x^5 + x^4 + x^2 + x + 1 */
  const GENERATOR: Poly := {32, 26, 23, 22, 16, 12, 11, 10, 8, 7, 5, 4, 2, 1, 0}

  function Plus(a: Poly, b: Poly): Poly { (a - b) + (b - a) }

  /** Multiplication by a power of x. */
  function Shift(a: Poly, k: nat): Poly { set e | e in a :: e + k }

  /** The product with the sum of the listed powers of x. */
  function Multiple(g: Poly, quotient: seq<nat>): Poly {
    if quotient == [] then {}
    else Plus(Multiple(g, quotient[..|quotient| - 1]), Shift(g, quotient[|quotient| - 1]))
  }

  /** The two differ by a multiple of the generator. */
  ghost predicate Congruent(a: Poly, b: Poly) {
    exists quotient :: Plus(a, b) == Multiple(GENERATOR, quotient)
  }

  /** The lowest `n` bits of a word, the lowest bit for the highest exponent. */
  function Bitwise(w: nat, n: nat): Poly {
    if n == 0 then {} else (if w % 2 == 1 then {n - 1} else {}) + Bitwise(w / 2, n - 1)
  }

  /** The bytes of a message in the order they are sent, each with its lowest bit first. */
  function Message(data: seq<Byte>): Poly {
    if data == [] then {}
    else Plus(Shift(Message(data[..|data| - 1]), 8), Bitwise(data[|data| - 1], 8))
  }

  // ---- Sums and shifts ----

  lemma {:induction false} PlusSwaps(a: Poly, b: Poly, c: Poly, d: Poly)
    ensures Plus(Plus(a, b), Plus(c, d)) == Plus(Plus(a, c), Plus(b, d))
  {
  }

  lemma {:induction false} ShiftPlus(a: Poly, b: Poly, k: nat)
    ensures Shift(Plus(a, b), k) == Plus(Shift(a, k), Shift(b, k))
  {
    ShiftedHas(Plus(a, b), k);
    ShiftedHas(a, k);
    ShiftedHas(b, k);
    hide Shift;
  }

  lemma {:induction false} ShiftedHas(a: Poly, k: nat)
    ensures forall e: nat :: e in Shift(a, k) <==> e >= k && e - k in a
  {
    forall e: nat ensures e in Shift(a, k) <==> e >= k && e - k in a {
      if e >= k && e - k in a {
        assert e == (e - k) + k;
      }
    }
  }

  lemma {:induction false} ShiftShift(a: Poly, j: nat, k: nat)
    ensures Shift(Shift(a, j), k) == Shift(a, j + k)
  {
    ShiftedHas(a, j);
    ShiftedHas(Shift(a, j), k);
    ShiftedHas(a, j + k);
    hide Shift;
  }

  lemma {:induction false} MultipleOfMore(g: Poly, a: seq<nat>, b: seq<nat>)
    ensures Multiple(g, a + b) == Plus(Multiple(g, a), Multiple(g, b))
  {
    if b == [] {
      assert a + b == a;
    } else {
      var n := |b| - 1;
      assert (a + b)[..|a + b| - 1] == a + b[..n];
      MultipleOfMore(g, a, b[..n]);
    }
  }

  function Raised(quotient: seq<nat>, k: nat): seq<nat> {
    seq(|quotient|, i requires 0 <= i < |quotient| => quotient[i] + k)
  }

  lemma {:induction false} ShiftMultiple(g: Poly, quotient: seq<nat>, k: nat)
    ensures Shift(Multiple(g, quotient), k) == Multiple(g, Raised(quotient, k))
  {
    if quotient != [] {
      var n := |quotient| - 1;
      assert Raised(quotient, k)[..n] == Raised(quotient[..n], k);
      ShiftMultiple(g, quotient[..n], k);
      ShiftPlus(Multiple(g, quotient[..n]), Shift(g, quotient[n]), k);
      ShiftShift(g, quotient[n], k);
      hide Shift, Plus;
    }
  }

  // ---- Congruence ----

  lemma {:induction false} CongruentSum(a: Poly, b: Poly, c: Poly, d: Poly)
    requires Congruent(a, b) && Congruent(c, d)
    ensures Congruent(Plus(a, c), Plus(b, d))
  {
    var p :| Plus(a, b) == Multiple(GENERATOR, p);
    var q :| Plus(c, d) == Multiple(GENERATOR, q);
    MultipleOfMore(GENERATOR, p, q);
    PlusSwaps(a, b, c, d);
    assert Plus(Plus(a, c), Plus(b, d)) == Multiple(GENERATOR, p + q);
  }

  lemma {:induction false} CongruentSelf(a: Poly)
    ensures Congruent(a, a)
  {
    assert Plus(a, a) == Multiple(GENERATOR, []);
  }

  lemma {:induction false} CongruentTransitive(a: Poly, b: Poly, c: Poly)
    requires Congruent(a, b) && Congruent(b, c)
    ensures Congruent(a, c)
  {
    CongruentSum(a, b, b, c);
    assert Plus(Plus(a, b), Plus(b, c)) == Plus(a, c);
    var q :| Plus(Plus(a, b), Plus(b, c)) == Multiple(GENERATOR, q);
  }

  lemma {:induction false} CongruentShift(a: Poly, b: Poly, k: nat)
    requires Congruent(a, b)
    ensures Congruent(Shift(a, k), Shift(b, k))
  {
    var q :| Plus(a, b) == Multiple(GENERATOR, q);
    ShiftMultiple(GENERATOR, q, k);
    ShiftPlus(a, b, k);
    assert Plus(Shift(a, k), Shift(b, k)) == Multiple(GENERATOR, Raised(q, k));
  }

  // ---- There is only one remainder ----

  predicate Below(a: Poly, n: nat) {
    forall e | e in a :: e < n
  }

  /** Long division, from the exponent below `n` down. */
  function Reduce(a: Poly, n: nat): Poly
    decreases n
  {
    if n <= 32 then a
    else Reduce(if n - 1 in a then Plus(a, Shift(GENERATOR, n - 33)) else a, n - 1)
  }

  lemma {:induction false} PlusCancels(a: Poly, b: Poly, g: Poly)
    ensures Plus(Plus(a, g), Plus(b, g)) == Plus(a, b)
    ensures Plus(Plus(a, g), b) == Plus(Plus(a, b), g) && Plus(a, Plus(b, g)) == Plus(Plus(a, b), g)
  {
  }

  lemma {:induction false} ReduceSum(a: Poly, b: Poly, n: nat)
    ensures Reduce(Plus(a, b), n) == Plus(Reduce(a, n), Reduce(b, n))
    decreases n
  {
    if n > 32 {
      var g := Shift(GENERATOR, n - 33);
      PlusCancels(a, b, g);
      ReduceSum(if n - 1 in a then Plus(a, g) else a, if n - 1 in b then Plus(b, g) else b, n - 1);
      hide Shift;
    }
  }

  lemma {:induction false} ReduceNothing(n: nat)
    ensures Reduce({}, n) == {}
  {
    if n > 32 {
      ReduceNothing(n - 1);
    }
  }

  lemma {:induction false} ReduceSmall(a: Poly, n: nat)
    requires Below(a, 32)
    ensures Reduce(a, n) == a
  {
    if n > 32 {
      ReduceSmall(a, n - 1);
    }
  }

  lemma {:induction false} ShiftedGenerator(k: nat)
    ensures k + 32 in Shift(GENERATOR, k) && Below(Shift(GENERATOR, k), k + 33)
  {
    ShiftedHas(GENERATOR, k);
    assert Below(GENERATOR, 33);
    hide Shift;
  }

  lemma {:induction false} ReduceGenerator(k: nat, n: nat)
    requires k + 33 <= n
    ensures Reduce(Shift(GENERATOR, k), n) == {}
  {
    ShiftedGenerator(k);
    var g := Shift(GENERATOR, k);
    hide Shift;
    if n == k + 33 {
      assert Plus(g, g) == {};
      ReduceNothing(n - 1);
    } else {
      ReduceGenerator(k, n - 1);
    }
  }

  predicate AllBelow(quotient: seq<nat>, n: nat) {
    forall i :: 0 <= i < |quotient| ==> quotient[i] + 33 <= n
  }

  lemma {:induction false} ReduceMultiple(quotient: seq<nat>, n: nat)
    requires AllBelow(quotient, n)
    ensures Reduce(Multiple(GENERATOR, quotient), n) == {}
  {
    ReduceNothing(n);
    if quotient != [] {
      var k := |quotient| - 1;
      ReduceMultiple(quotient[..k], n);
      ReduceSum(Multiple(GENERATOR, quotient[..k]), Shift(GENERATOR, quotient[k]), n);
      ReduceGenerator(quotient[k], n);
      hide Shift, Reduce;
    }
  }

  lemma {:induction false} SomeBound(quotient: seq<nat>) returns (n: nat)
    ensures AllBelow(quotient, n)
  {
    n := 0;
    for i := 0 to |quotient|
      invariant AllBelow(quotient[..i], n)
    {
      assert quotient[..i + 1] == quotient[..i] + [quotient[i]];
      n := n + quotient[i] + 33;
    }
    assert quotient[..|quotient|] == quotient;
  }

  /** Polynomials of degree less than 32 that differ by a multiple of the generator are the same. */
  lemma {:induction false} RemainderIsUnique(a: Poly, b: Poly)
    requires Congruent(a, b) && Below(a, 32) && Below(b, 32)
    ensures a == b
  {
    var q :| Plus(a, b) == Multiple(GENERATOR, q);
    var n := SomeBound(q);
    ReduceMultiple(q, n);
    assert Below(Plus(a, b), 32);
    ReduceSmall(Plus(a, b), n);
    assert Plus(a, b) == {};
    forall e: nat ensures e in a <==> e in b {
      assert e !in Plus(a, b);
    }
  }

  lemma {:induction false} CongruentSymmetric(a: Poly, b: Poly)
    requires Congruent(a, b)
    ensures Congruent(b, a)
  {
    assert Plus(a, b) == Plus(b, a);
    var q :| Plus(a, b) == Multiple(GENERATOR, q);
  }

  // ---- Words as polynomials ----

  lemma {:induction false} BitwiseUnfolds(w: nat, n: nat)
    requires n > 0
    ensures Bitwise(w, n) == (if w % 2 == 1 then {n - 1} else {}) + Bitwise(w / 2, n - 1)
  {
  }

  lemma {:induction false} NoBits(w: nat)
    ensures Bitwise(w, 0) == {}
  {
  }

  lemma {:induction false} BitwiseBound(w: nat, n: nat)
    ensures forall e | e in Bitwise(w, n) :: e < n
  {
    if n > 0 {
      BitwiseBound(w / 2, n - 1);
    }
  }

  lemma {:induction false} BitwiseXor(a: nat, b: nat, n: nat)
    ensures Bitwise(Xor(a, b), n) == Plus(Bitwise(a, n), Bitwise(b, n))
  {
    if n > 0 {
      BitwiseXor(a / 2, b / 2, n - 1);
      XorUnfolds(a, b);
      XorParity(a, b);
      BitwiseBound(a / 2, n - 1);
      BitwiseBound(b / 2, n - 1);
      BitwiseUnfolds(a, n);
      BitwiseUnfolds(b, n);
      BitwiseUnfolds(Xor(a, b), n);
      hide Bitwise, Xor;
    }
  }

  lemma {:induction false} ShiftUnion(a: Poly, b: Poly, k: nat)
    ensures Shift(a + b, k) == Shift(a, k) + Shift(b, k)
  {
    ShiftedHas(a + b, k);
    ShiftedHas(a, k);
    ShiftedHas(b, k);
    hide Shift;
  }

  /** Looking at one bit more of a word that has no more. */
  lemma {:induction false} OneBitMore(w: nat, n: nat)
    requires w < Pow2(n)
    ensures Bitwise(w, n + 1) == Shift(Bitwise(w, n), 1)
  {
    BitwiseUnfolds(w, n + 1);
    if n == 0 {
      assert Bitwise(0, 0) == {};
    } else {
      OneBitMore(w / 2, n - 1);
      BitwiseUnfolds(w, n);
      var low: Poly := if w % 2 == 1 then {n - 1} else {};
      ShiftUnion(low, Bitwise(w / 2, n - 1), 1);
      assert Shift(low, 1) == if w % 2 == 1 then {n} else {};
      hide Bitwise;
    }
  }

  lemma {:induction false} MoreBits(w: nat, n: nat, k: nat)
    requires w < Pow2(n)
    ensures Bitwise(w, n + k) == Shift(Bitwise(w, n), k)
    decreases k
  {
    if k == 0 {
      assert Shift(Bitwise(w, n), 0) == Bitwise(w, n);
    } else {
      MoreBits(w, n, k - 1);
      Grows(w, n, k - 1);
      OneBitMore(w, n + k - 1);
      ShiftShift(Bitwise(w, n), k - 1, 1);
      hide Bitwise, Shift;
    }
  }

  lemma {:induction false} Grows(w: nat, n: nat, k: nat)
    requires w < Pow2(n)
    ensures w < Pow2(n + k)
    decreases k
  {
    if k > 0 {
      Grows(w, n, k - 1);
    }
  }

  lemma {:induction false} ConstantsThroughX7()
    ensures Bitwise(0xED, 8) == {7, 5, 4, 2, 1, 0}
  {
    hide Bitwise;
    NoBits(0);
    BitwiseUnfolds(0x1, 1);
    assert Bitwise(0x1, 1) == {0};
    BitwiseUnfolds(0x3, 2);
    assert Bitwise(0x3, 2) == {1, 0};
    BitwiseUnfolds(0x7, 3);
    assert Bitwise(0x7, 3) == {2, 1, 0};
    BitwiseUnfolds(0xE, 4);
    assert Bitwise(0xE, 4) == {2, 1, 0};
    BitwiseUnfolds(0x1D, 5);
    assert Bitwise(0x1D, 5) == {4, 2, 1, 0};
    BitwiseUnfolds(0x3B, 6);
    assert Bitwise(0x3B, 6) == {5, 4, 2, 1, 0};
    BitwiseUnfolds(0x76, 7);
    assert Bitwise(0x76, 7) == {5, 4, 2, 1, 0};
    BitwiseUnfolds(0xED, 8);
    assert Bitwise(0xED, 8) == {7, 5, 4, 2, 1, 0};
  }

  lemma {:induction false} ConstantsThroughX15()
    ensures Bitwise(0xEDB8, 16) == {12, 11, 10, 8, 7, 5, 4, 2, 1, 0}
  {
    hide Bitwise;
    ConstantsThroughX7();
    BitwiseUnfolds(0x1DB, 9);
    assert Bitwise(0x1DB, 9) == {8, 7, 5, 4, 2, 1, 0};
    BitwiseUnfolds(0x3B6, 10);
    assert Bitwise(0x3B6, 10) == {8, 7, 5, 4, 2, 1, 0};
    BitwiseUnfolds(0x76D, 11);
    assert Bitwise(0x76D, 11) == {10, 8, 7, 5, 4, 2, 1, 0};
    BitwiseUnfolds(0xEDB, 12);
    assert Bitwise(0xEDB, 12) == {11, 10, 8, 7, 5, 4, 2, 1, 0};
    BitwiseUnfolds(0x1DB7, 13);
    assert Bitwise(0x1DB7, 13) == {12, 11, 10, 8, 7, 5, 4, 2, 1, 0};
    BitwiseUnfolds(0x3B6E, 14);
    assert Bitwise(0x3B6E, 14) == {12, 11, 10, 8, 7, 5, 4, 2, 1, 0};
    BitwiseUnfolds(0x76DC, 15);
    assert Bitwise(0x76DC, 15) == {12, 11, 10, 8, 7, 5, 4, 2, 1, 0};
    BitwiseUnfolds(0xEDB8, 16);
    assert Bitwise(0xEDB8, 16) == {12, 11, 10, 8, 7, 5, 4, 2, 1, 0};
  }

  lemma {:induction false} ConstantsThroughX23()
    ensures Bitwise(0xEDB883, 24) == {23, 22, 16, 12, 11, 10, 8, 7, 5, 4, 2, 1, 0}
  {
    hide Bitwise;
    ConstantsThroughX15();
    BitwiseUnfolds(0x1DB71, 17);
    assert Bitwise(0x1DB71, 17) == {16, 12, 11, 10, 8, 7, 5, 4, 2, 1, 0};
    BitwiseUnfolds(0x3B6E2, 18);
    assert Bitwise(0x3B6E2, 18) == {16, 12, 11, 10, 8, 7, 5, 4, 2, 1, 0};
    BitwiseUnfolds(0x76DC4, 19);
    assert Bitwise(0x76DC4, 19) == {16, 12, 11, 10, 8, 7, 5, 4, 2, 1, 0};
    BitwiseUnfolds(0xEDB88, 20);
    assert Bitwise(0xEDB88, 20) == {16, 12, 11, 10, 8, 7, 5, 4, 2, 1, 0};
    BitwiseUnfolds(0x1DB710, 21);
    assert Bitwise(0x1DB710, 21) == {16, 12, 11, 10, 8, 7, 5, 4, 2, 1, 0};
    BitwiseUnfolds(0x3B6E20, 22);
    assert Bitwise(0x3B6E20, 22) == {16, 12, 11, 10, 8, 7, 5, 4, 2, 1, 0};
    BitwiseUnfolds(0x76DC41, 23);
    assert Bitwise(0x76DC41, 23) == {22, 16, 12, 11, 10, 8, 7, 5, 4, 2, 1, 0};
    BitwiseUnfolds(0xEDB883, 24);
    assert Bitwise(0xEDB883, 24) == {23, 22, 16, 12, 11, 10, 8, 7, 5, 4, 2, 1, 0};
  }

  lemma {:induction false} GeneratorBits()
    ensures Bitwise(0xEDB88320, 32) == GENERATOR - {32}
  {
    hide Bitwise;
    ConstantsThroughX23();
    BitwiseUnfolds(0x1DB7106, 25);
    assert Bitwise(0x1DB7106, 25) == {23, 22, 16, 12, 11, 10, 8, 7, 5, 4, 2, 1, 0};
    BitwiseUnfolds(0x3B6E20C, 26);
    assert Bitwise(0x3B6E20C, 26) == {23, 22, 16, 12, 11, 10, 8, 7, 5, 4, 2, 1, 0};
    BitwiseUnfolds(0x76DC419, 27);
    assert Bitwise(0x76DC419, 27) == {26, 23, 22, 16, 12, 11, 10, 8, 7, 5, 4, 2, 1, 0};
    BitwiseUnfolds(0xEDB8832, 28);
    assert Bitwise(0xEDB8832, 28) == {26, 23, 22, 16, 12, 11, 10, 8, 7, 5, 4, 2, 1, 0};
    BitwiseUnfolds(0x1DB71064, 29);
    assert Bitwise(0x1DB71064, 29) == {26, 23, 22, 16, 12, 11, 10, 8, 7, 5, 4, 2, 1, 0};
    BitwiseUnfolds(0x3B6E20C8, 30);
    assert Bitwise(0x3B6E20C8, 30) == {26, 23, 22, 16, 12, 11, 10, 8, 7, 5, 4, 2, 1, 0};
    BitwiseUnfolds(0x76DC4190, 31);
    assert Bitwise(0x76DC4190, 31) == {26, 23, 22, 16, 12, 11, 10, 8, 7, 5, 4, 2, 1, 0};
    BitwiseUnfolds(0xEDB88320, 32);
    assert Bitwise(0xEDB88320, 32) == {26, 23, 22, 16, 12, 11, 10, 8, 7, 5, 4, 2, 1, 0};
  }

  lemma {:induction false} TakesOff(v: Poly, g: Poly, top: nat, odd: bool)
    requires top !in v && top in g
    ensures Plus((if odd then {top} else {}) + v, Plus(v, if odd then g - {top} else {})) == if odd then g else {}
  {
  }

  /** One turn of the loop multiplies by x and takes off the generator if it fits. */
  lemma {:induction false} StepMultiplies(w: U32)
    ensures Plus(Shift(Bitwise(w, 32), 1), Bitwise(Step(w), 32)) == if w % 2 == 1 then GENERATOR else {}
  {
    Powers();
    assert 32 in GENERATOR;
    hide Bitwise, Xor, Pow2, Shift, Plus;
    GeneratorBits();
    BitwiseXor(w / 2, Feedback(w), 32);
    OneBitMore(w / 2, 31);
    ShiftLow(w);
    ZeroHasNoBits(32);
    HalfHasNoTop(w);
    TakesOff(Bitwise(w / 2, 32), GENERATOR, 32, w % 2 == 1);
  }

  lemma {:induction false} ShiftLow(w: U32)
    ensures Shift(Bitwise(w, 32), 1) == (if w % 2 == 1 then {32} else {}) + Shift(Bitwise(w / 2, 31), 1)
  {
    BitwiseUnfolds(w, 32);
    hide Bitwise;
    var low: Poly := if w % 2 == 1 then {31} else {};
    ShiftUnion(low, Bitwise(w / 2, 31), 1);
    assert Shift(low, 1) == if w % 2 == 1 then {32} else {};
  }

  lemma {:induction false} HalfHasNoTop(w: U32)
    ensures 32 !in Shift(Bitwise(w / 2, 31), 1)
  {
    BitwiseBound(w / 2, 31);
    ShiftedHas(Bitwise(w / 2, 31), 1);
    hide Bitwise, Shift;
  }

  lemma {:induction false} ZeroHasNoBits(n: nat)
    ensures Bitwise(0, n) == {}
  {
    if n > 0 {
      ZeroHasNoBits(n - 1);
    }
  }

  lemma {:induction false} StepCongruent(w: U32)
    ensures Congruent(Shift(Bitwise(w, 32), 1), Bitwise(Step(w), 32))
  {
    StepMultiplies(w);
    hide Bitwise, Step;
    assert Shift(GENERATOR, 0) == GENERATOR;
    var q: seq<nat> := if w % 2 == 1 then [0] else [];
    assert [0][..0] == [];
    assert Multiple(GENERATOR, q) == if w % 2 == 1 then GENERATOR else {};
  }

  lemma {:induction false} RoundsCongruent(w: U32, n: nat)
    ensures Congruent(Shift(Bitwise(w, 32), n), Bitwise(REGISTER.Rounds(w, n), 32))
    decreases n
  {
    hide Bitwise, Step, Congruent;
    if n == 0 {
      assert Shift(Bitwise(w, 32), 0) == Bitwise(w, 32);
      CongruentSelf(Bitwise(w, 32));
    } else {
      StepCongruent(w);
      CongruentShift(Shift(Bitwise(w, 32), 1), Bitwise(Step(w), 32), n - 1);
      ShiftShift(Bitwise(w, 32), 1, n - 1);
      RoundsCongruent(Step(w), n - 1);
      CongruentTransitive(Shift(Bitwise(w, 32), n), Shift(Bitwise(Step(w), 32), n - 1),
                          Bitwise(REGISTER.Rounds(w, n), 32));
    }
  }

  /** Taking in a byte appends its bits. */
  lemma {:induction false} MixCongruent(w: U32, b: Byte)
    ensures Congruent(Plus(Shift(Bitwise(w, 32), 8), Shift(Bitwise(b, 8), 32)),
                      Bitwise(REGISTER.Mix(w, b, 8), 32))
  {
    RoundsCongruent(XorWord(w, b), 8);
    BitwiseXor(w, b, 32);
    Powers();
    MoreBits(b, 8, 24);
    hide Bitwise, Step, Congruent, Xor;
    ShiftPlus(Bitwise(w, 32), Bitwise(b, 32), 8);
    ShiftShift(Bitwise(b, 8), 24, 8);
  }

  // ---- The checksum ----

  /** What the register starts with, moved up by the length of the message. */
  function Preset(n: nat): Poly { Shift(Bitwise(ALL_ONES, 32), 8 * n) }

  lemma {:induction false} RegisterCongruent(data: seq<Byte>)
    ensures Congruent(Plus(Shift(Message(data), 32), Preset(|data|)), Bitwise(Register(data, false), 32))
  {
    hide Bitwise, Step, Congruent;
    if data == [] {
      assert Plus(Shift(Message(data), 32), Preset(0)) == Bitwise(ALL_ONES, 32) by {
        assert Preset(0) == Bitwise(ALL_ONES, 32);
      }
      CongruentSelf(Bitwise(ALL_ONES, 32));
    } else {
      var n := |data| - 1;
      var before, b := data[..n], data[n];
      RegisterCongruent(before);
      RegisterOneMore(data);
      var p, r := Plus(Shift(Message(before), 32), Preset(n)), Bitwise(Register(before, false), 32);
      CongruentShift(p, r, 8);
      CongruentSelf(Shift(Bitwise(b, 8), 32));
      CongruentSum(Shift(p, 8), Shift(r, 8), Shift(Bitwise(b, 8), 32), Shift(Bitwise(b, 8), 32));
      MixCongruent(Register(before, false), b);
      MessageOneMore(data);
      CongruentTransitive(Plus(Shift(p, 8), Shift(Bitwise(b, 8), 32)), Plus(Shift(r, 8), Shift(Bitwise(b, 8), 32)),
                          Bitwise(Register(data, false), 32));
    }
  }

  lemma {:induction false} RegisterOneMore(data: seq<Byte>)
    requires data != []
    ensures var n := |data| - 1;
      Register(data, false) == REGISTER.Mix(Register(data[..n], false), data[n], 8)
  {
    hide Step, Xor;
    RegisterGrows(data, |data| - 1, false);
    assert data[..|data|] == data;
  }

  lemma {:induction false} PresetNext(n: nat)
    ensures Preset(n + 1) == Shift(Preset(n), 8)
  {
    hide Bitwise, Shift;
    ShiftShift(Bitwise(ALL_ONES, 32), 8 * n, 8);
  }

  /** Eight places up, the parts of what the register holds. */
  lemma {:induction false} MovedUp(m: Poly, p: Poly, b: Poly)
    ensures Plus(Shift(Plus(Shift(m, 8), b), 32), Shift(p, 8)) == Plus(Shift(Plus(Shift(m, 32), p), 8), Shift(b, 32))
  {
    hide Shift, Plus;
    ShiftPlus(Shift(m, 8), b, 32);
    ShiftShift(m, 8, 32);
    ShiftPlus(Shift(m, 32), p, 8);
    ShiftShift(m, 32, 8);
    PlusRotates(Shift(m, 40), Shift(b, 32), Shift(p, 8));
  }

  lemma {:induction false} MessageOneMore(data: seq<Byte>)
    requires data != []
    ensures var n := |data| - 1;
      Plus(Shift(Message(data), 32), Preset(n + 1))
        == Plus(Shift(Plus(Shift(Message(data[..n]), 32), Preset(n)), 8), Shift(Bitwise(data[n], 8), 32))
  {
    hide Shift, Plus, Message, Preset, Bitwise;
    var n := |data| - 1;
    MessageUnfolds(data);
    PresetNext(n);
    MovedUp(Message(data[..n]), Preset(n), Bitwise(data[n], 8));
  }

  lemma {:induction false} MessageUnfolds(data: seq<Byte>)
    requires data != []
    ensures Message(data) == Plus(Shift(Message(data[..|data| - 1]), 8), Bitwise(data[|data| - 1], 8))
  {
  }

  lemma {:induction false} PlusRotates(a: Poly, b: Poly, c: Poly)
    ensures Plus(Plus(a, b), c) == Plus(Plus(a, c), b)
  {
  }

  /** A message, after 32 bits set and followed by 32 bits clear. */
  function Padded(data: seq<Byte>): Poly { Plus(Shift(Message(data), 32), Preset(|data|)) }

  /** The complement of the checksum is the remainder of the padded message by the generator: it is the one
      polynomial of degree less than 32 that differs from it by a multiple of the generator. */
  lemma {:induction false} ChecksumIsTheRemainder(data: seq<Byte>, r: Poly)
    ensures (forall e | e in r :: e < 32) && Congruent(Padded(data), r)
       <==> r == Bitwise(Complement(Crc32(data, false)), 32)
  {
    hide Crc32, Congruent, Bitwise;
    ComplementTwice(data);
    var w := Register(data, false);
    RegisterCongruent(data);
    BitwiseBound(w, 32);
    if (forall e | e in r :: e < 32) && Congruent(Padded(data), r) {
      CongruentSymmetric(Padded(data), r);
      CongruentTransitive(r, Padded(data), Bitwise(w, 32));
      RemainderIsUnique(r, Bitwise(w, 32));
    }
  }

  lemma {:induction false} ComplementTwice(data: seq<Byte>)
    ensures Complement(Crc32(data, false)) == Register(data, false)
  {
    hide Register;
  }
}
