/** Unsigned machine words as bounded naturals, with the bitwise operators the program uses. Each
    operator works on the lowest bit and recurses on the rest, so its laws are inductions on halves. */
module Bits {

  const TWO_32: nat := 0x1_0000_0000
  const ALL_ONES: U32 := 0xFFFF_FFFF

  /** A byte of a QByteArray, read as unsigned. */
  type Byte = n: nat | n < 256

  /** quint32 */
  type U32 = n: nat | n < 0x1_0000_0000

  function Pow2(k: nat): (p: nat)
    ensures p > 0
  {
    if k == 0 then 1 else 2 * Pow2(k - 1)
  }

  function Xor(a: nat, b: nat): nat
    decreases a + b
  {
    if a == 0 && b == 0 then 0 else 2 * Xor(a / 2, b / 2) + (a + b) % 2
  }

  function And(a: nat, b: nat): nat
    decreases a + b
  {
    if a == 0 && b == 0 then 0 else 2 * And(a / 2, b / 2) + (a % 2) * (b % 2)
  }

  function Or(a: nat, b: nat): nat
    decreases a + b
  {
    if a == 0 && b == 0 then 0 else 2 * Or(a / 2, b / 2) + (if a % 2 == 1 || b % 2 == 1 then 1 else 0)
  }

  // ---- Laws of XOR ----

  lemma XorUnfolds(a: nat, b: nat)
    ensures Xor(a, b) / 2 == Xor(a / 2, b / 2)
    ensures Xor(a, b) % 2 == (a + b) % 2
  {
  }

  lemma XorParity(a: nat, b: nat)
    ensures Xor(a, b) % 2 == if a % 2 == b % 2 then 0 else 1
  {
    XorUnfolds(a, b);
    SumParity(a, b);
  }

  lemma SumParity(a: nat, b: nat)
    ensures (a + b) % 2 == if a % 2 == b % 2 then 0 else 1
  {
  }

  lemma XorFromHalves(a: nat, b: nat, h: nat)
    requires h == Xor(a / 2, b / 2)
    ensures Xor(a, b) == 2 * h + if a % 2 == b % 2 then 0 else 1
  {
    SumParity(a, b);
  }

  lemma {:induction false} XorCommutes(a: nat, b: nat)
    ensures Xor(a, b) == Xor(b, a)
    decreases a + b
  {
    if a != 0 || b != 0 {
      XorCommutes(a / 2, b / 2);
    }
  }

  lemma {:induction false} XorAssociates(a: nat, b: nat, c: nat)
    ensures Xor(Xor(a, b), c) == Xor(a, Xor(b, c))
    decreases a + b + c
  {
    if a != 0 || b != 0 || c != 0 {
      XorAssociates(a / 2, b / 2, c / 2);
      var ab, bc := Xor(a, b), Xor(b, c);
      XorUnfolds(a, b);
      XorUnfolds(b, c);
      XorUnfolds(ab, c);
      XorUnfolds(a, bc);
      Parity(ab, a + b, c);
      Parity(bc, b + c, a);
      SameByHalves(Xor(ab, c), Xor(a, bc));
    }
  }

  lemma Parity(x: nat, y: nat, z: nat)
    requires x % 2 == y % 2
    ensures (x + z) % 2 == (y + z) % 2
  {
  }

  lemma SameByHalves(x: nat, y: nat)
    requires x / 2 == y / 2 && x % 2 == y % 2
    ensures x == y
  {
  }

  lemma {:induction false} XorSelf(a: nat)
    ensures Xor(a, a) == 0 && Xor(a, 0) == a && Xor(0, a) == a
  {
    if a != 0 {
      XorSelf(a / 2);
    }
  }

  lemma XorCancels(a: nat, b: nat, c: nat)
    requires Xor(a, c) == Xor(b, c)
    ensures a == b
  {
    XorAssociates(a, c, c);
    XorAssociates(b, c, c);
    XorSelf(c);
    XorSelf(a);
    XorSelf(b);
  }

  lemma XorZero(a: nat, b: nat)
    ensures Xor(a, b) == 0 <==> a == b
  {
    XorSelf(b);
    if Xor(a, b) == 0 {
      XorCancels(a, b, b);
    }
  }

  lemma {:induction false} XorBound(a: nat, b: nat, k: nat)
    requires a < Pow2(k) && b < Pow2(k)
    ensures Xor(a, b) < Pow2(k)
    decreases k
  {
    if k != 0 {
      XorBound(a / 2, b / 2, k - 1);
      XorUnfolds(a, b);
    }
  }

  function ShiftLeft(m: nat, k: nat): nat
    decreases k
  {
    if k == 0 then m else 2 * ShiftLeft(m, k - 1)
  }

  /** Words without a common bit position add. */
  lemma {:induction false} XorDisjoint(low: nat, m: nat, k: nat)
    requires low < Pow2(k)
    ensures Xor(low, ShiftLeft(m, k)) == low + ShiftLeft(m, k)
    decreases k
  {
    if k == 0 {
      XorSelf(m);
    } else {
      XorDisjoint(low / 2, m, k - 1);
      XorOfEven(low, ShiftLeft(m, k - 1));
    }
  }

  lemma ShiftLeftByte(m: nat)
    ensures ShiftLeft(m, 8) == 256 * m
  {
    assert ShiftLeft(m, 4) == 16 * m;
  }

  lemma XorAboveByte(low: Byte, m: nat)
    ensures Xor(low, 256 * m) == low + 256 * m
  {
    Powers();
    ShiftLeftByte(m);
    XorDisjoint(low, m, 8);
  }

  lemma XorOfEven(low: nat, high: nat)
    ensures Xor(low, 2 * high) == 2 * Xor(low / 2, high) + low % 2
  {
    Doubled(high);
    XorFromHalves(low, 2 * high, Xor(low / 2, high));
  }

  lemma Doubled(n: nat)
    ensures 2 * n / 2 == (2 * n + 1) / 2 == n && 2 * n % 2 == 0 && (2 * n + 1) % 2 == 1
  {
  }

  lemma {:induction false} AndMask(a: nat, k: nat)
    requires a < Pow2(k)
    ensures And(a, 0) == 0 && And(a, Pow2(k) - 1) == a
    decreases k
  {
    if k != 0 {
      AndMask(a / 2, k - 1);
      assert (Pow2(k) - 1) / 2 == Pow2(k - 1) - 1;
    }
  }

  lemma {:induction false} OrZero(a: nat, b: nat)
    ensures Or(a, b) == 0 <==> a == 0 && b == 0
    decreases a + b
  {
    if a != 0 || b != 0 {
      OrZero(a / 2, b / 2);
    }
  }

  lemma {:induction false} OrBound(a: nat, b: nat, k: nat)
    requires a < Pow2(k) && b < Pow2(k)
    ensures Or(a, b) < Pow2(k)
    decreases k
  {
    if k != 0 {
      OrBound(a / 2, b / 2, k - 1);
    }
  }

  /** The complement of a word is its XOR with all ones. */
  lemma {:induction false} XorAllOnes(a: nat, k: nat)
    requires a < Pow2(k)
    ensures Xor(a, Pow2(k) - 1) == Pow2(k) - 1 - a
    decreases k
  {
    if k != 0 {
      XorAllOnes(a / 2, k - 1);
      XorOfOdd(a, Pow2(k - 1) - 1);
    }
  }

  lemma XorOfOdd(a: nat, ones: nat)
    ensures Xor(a, 2 * ones + 1) == 2 * Xor(a / 2, ones) + 1 - a % 2
  {
    Doubled(ones);
    XorFromHalves(a, 2 * ones + 1, Xor(a / 2, ones));
  }

  lemma Powers()
    ensures Pow2(7) == 0x80 && Pow2(8) == 0x100 && Pow2(31) == 0x8000_0000 && Pow2(32) == TWO_32
  {
    assert Pow2(8) == 0x100;
    assert Pow2(16) == 0x1_0000;
    assert Pow2(24) == 0x100_0000;
    assert Pow2(31) == 0x8000_0000;
  }

  // ---- Operators on words of a fixed width ----

  function XorByte(a: Byte, b: Byte): (r: Byte)
    ensures r == Xor(a, b)
  {
    Powers();
    XorBound(a, b, 8);
    Xor(a, b)
  }

  /** Two byte arrays of one length, XORed byte by byte. */
  function XorBytes(a: seq<Byte>, b: seq<Byte>): (r: seq<Byte>)
    requires |a| == |b|
    ensures |r| == |a| && forall i :: 0 <= i < |a| ==> r[i] == XorByte(a[i], b[i])
  {
    seq(|a|, i requires 0 <= i < |a| => XorByte(a[i], b[i]))
  }

  function XorWord(a: U32, b: U32): (r: U32)
    ensures r == Xor(a, b)
  {
    Powers();
    XorBound(a, b, 32);
    Xor(a, b)
  }

  /** `~w` */
  function Complement(w: U32): U32 {
    ALL_ONES - w
  }

  /** Four bytes, most significant first: how QDataStream writes a quint32. */
  function BigEndian(w: U32): (s: seq<Byte>)
    ensures |s| == 4
  {
    var high, low := w / 0x1_0000, w % 0x1_0000;
    [high / 0x100, high % 0x100, low / 0x100, low % 0x100]
  }

  function FromBigEndian(s: seq<Byte>): U32
    requires |s| == 4
  {
    var s0: nat, s1: nat, s2: nat, s3: nat := s[0], s[1], s[2], s[3];
    (s0 * 0x100 + s1) * 0x1_0000 + (s2 * 0x100 + s3)
  }

  lemma BigEndianRoundTrip(w: U32)
    ensures FromBigEndian(BigEndian(w)) == w
  {
  }

  lemma FromBigEndianInjective(s: seq<Byte>)
    requires |s| == 4
    ensures BigEndian(FromBigEndian(s)) == s
  {
    var high: nat, low: nat := (s[0] as int) * 0x100 + s[1], (s[2] as int) * 0x100 + s[3];
    assert FromBigEndian(s) / 0x1_0000 == high && FromBigEndian(s) % 0x1_0000 == low;
  }
}
