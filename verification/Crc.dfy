/** The checksum of the frame footer (Shared/transportprotocol.h, `crc32`): the program's loops, their
    algebra, and their relation to the table-driven CRC-32 of section 8 of RFC 1952.

    `signedChar` says whether the target's `char` is signed. The program widens each `char` with
    `static_cast<quint32>`, so on such a target a byte of 0x80 or more is sign-extended. */
module Crc {
  import opened Bits
  import opened ShiftRegisters

  const POLYNOMIAL: U32 := 0xEDB8_8320
  const SIGN_FILL: U32 := 0xFFFF_FF00

  function Feedback(w: U32): U32 { if w % 2 == 1 then POLYNOMIAL else 0 }

  /** `-(crc & 1u)` is the mask that selects the polynomial when the bit about to be shifted out is set. */
  function Mask(w: U32): U32 { (TWO_32 - w % 2) % TWO_32 }

  lemma {:induction false} MaskIsAllOrNothing(w: U32)
    ensures Mask(w) == if w % 2 == 1 then ALL_ONES else 0
  {
  }

  lemma {:induction false} MaskSelects(w: U32)
    ensures And(POLYNOMIAL, Mask(w)) == Feedback(w)
  {
    Powers();
    MaskIsAllOrNothing(w);
    AndMask(POLYNOMIAL, 32);
    hide And, Mask;
  }

  /** One turn of the inner loop. */
  function Step(w: U32): U32 { XorWord(w / 2, Feedback(w)) }

  const REGISTER: ShiftRegister<U32> := ShiftRegister(Step, XorWord)

  function Widen(b: Byte, signedChar: bool): U32 {
    if signedChar && b >= 0x80 then SIGN_FILL + b else b
  }

  function Words(data: seq<Byte>, signedChar: bool): (w: seq<U32>)
    ensures |w| == |data|
  {
    seq(|data|, i requires 0 <= i < |data| => Widen(data[i], signedChar))
  }

  function Register(data: seq<Byte>, signedChar: bool): U32 {
    REGISTER.Absorb(ALL_ONES, Words(data, signedChar), 8)
  }

  function Crc32(data: seq<Byte>, signedChar: bool): U32 {
    Complement(Register(data, signedChar))
  }

  /** The inner loop of `crc32`. */
  method MixByte(crc0: U32, word: U32) returns (crc: U32)
    ensures crc == REGISTER.Mix(crc0, word, 8)
  {
    crc := XorWord(crc0, word);
    for i := 0 to 8
      invariant REGISTER.Rounds(crc, 8 - i) == REGISTER.Mix(crc0, word, 8)
    {
      MaskSelects(crc);
      crc := XorWord(crc / 2, And(POLYNOMIAL, Mask(crc)));
    }
  }

  lemma {:induction false} RegisterGrows(data: seq<Byte>, n: nat, signedChar: bool)
    requires n < |data|
    ensures Register(data[..n + 1], signedChar)
         == REGISTER.Mix(Register(data[..n], signedChar), Widen(data[n], signedChar), 8)
  {
    hide Step, Xor;
    assert Words(data[..n + 1], signedChar)[..n] == Words(data[..n], signedChar);
  }

  /** The outer loop of `crc32`. */
  method ComputeCrc32(data: seq<Byte>, signedChar: bool) returns (crc: U32)
    ensures crc == Crc32(data, signedChar)
  {
    hide Step, Xor, Widen;
    crc := ALL_ONES;
    for n := 0 to |data|
      invariant crc == Register(data[..n], signedChar)
    {
      RegisterGrows(data, n, signedChar);
      crc := MixByte(crc, Widen(data[n], signedChar));
    }
    assert data[..|data|] == data;
    crc := Complement(crc);
  }

  // ---- The register is reversible and linear ----

  /** The top bit of the polynomial is set, so it records the bit that was shifted out. */
  lemma {:induction false} TopBitOfXor(a: nat, b: nat, k: nat)
    requires a < Pow2(k) <= b < Pow2(k + 1)
    ensures Pow2(k) <= Xor(a, b)
    decreases k
  {
    if k != 0 {
      TopBitOfXor(a / 2, b / 2, k - 1);
      XorUnfolds(a, b);
    }
  }

  lemma {:induction false} StepInjective(a: U32, b: U32)
    requires Step(a) == Step(b)
    ensures a == b
  {
    Powers();
    TopBitOfXor(a / 2, POLYNOMIAL, 31);
    TopBitOfXor(b / 2, POLYNOMIAL, 31);
    XorSelf(a / 2);
    XorSelf(b / 2);
    assert Feedback(a) == Feedback(b);
    XorCancels(a / 2, b / 2, Feedback(a));
  }

  function Select(w: nat, p: nat): nat { if w % 2 == 1 then p else 0 }

  lemma {:induction false} SelectLinear(a: nat, b: nat, p: nat)
    ensures Select(Xor(a, b), p) == Xor(Select(a, p), Select(b, p))
  {
    XorParity(a, b);
    XorSelf(p);
    var x := Xor(a, b);
    assert Select(x, p) == if x % 2 == 1 then p else 0;
  }

  lemma {:induction false} FeedbackLinear(a: U32, b: U32)
    ensures Feedback(XorWord(a, b)) == XorWord(Feedback(a), Feedback(b))
  {
    SelectLinear(a, b, POLYNOMIAL);
  }

  lemma {:induction false} XorShuffle(a: nat, b: nat, p: nat, q: nat)
    ensures Xor(Xor(a, b), Xor(p, q)) == Xor(Xor(a, p), Xor(b, q))
  {
    XorAssociates(a, b, Xor(p, q));
    XorAssociates(b, p, q);
    XorCommutes(b, p);
    XorAssociates(p, b, q);
    XorAssociates(a, p, Xor(b, q));
  }

  lemma {:induction false} StepLinear(a: U32, b: U32)
    ensures Step(XorWord(a, b)) == XorWord(Step(a), Step(b))
  {
    XorUnfolds(a, b);
    FeedbackLinear(a, b);
    XorShuffle(a / 2, b / 2, Feedback(a), Feedback(b));
  }

  lemma {:induction false} RegisterIsReversible()
    ensures REGISTER.Reversible()
  {
    forall a: U32, b: U32 | Step(a) == Step(b) ensures a == b {
      StepInjective(a, b);
    }
    forall a: U32, b: U32, c: U32 ensures XorWord(a, c) == XorWord(b, c) ==> a == b {
      if XorWord(a, c) == XorWord(b, c) {
        XorCancels(a, b, c);
      }
    }
    forall a: U32, b: U32, c: U32 ensures XorWord(c, a) == XorWord(c, b) ==> a == b {
      XorCommutes(c, a);
      XorCommutes(c, b);
      if XorWord(c, a) == XorWord(c, b) {
        XorCancels(a, b, c);
      }
    }
  }

  lemma {:induction false} RegisterIsLinear()
    ensures REGISTER.Linear()
  {
    forall a: U32, b: U32 ensures Step(XorWord(a, b)) == XorWord(Step(a), Step(b)) {
      StepLinear(a, b);
    }
    forall a: U32, b: U32, p: U32, q: U32
      ensures XorWord(XorWord(a, b), XorWord(p, q)) == XorWord(XorWord(a, p), XorWord(b, q))
    {
      XorShuffle(a, b, p, q);
    }
  }

  // ---- Injectivity: no single byte can change without the checksum changing ----

  lemma {:induction false} WordsAfterUpdate(data: seq<Byte>, k: nat, b: Byte, signedChar: bool)
    requires k < |data|
    ensures Words(data[k := b], signedChar) == Words(data, signedChar)[k := Widen(b, signedChar)]
  {
  }

  lemma {:induction false} OneByteMatters(data: seq<Byte>, k: nat, b: Byte, signedChar: bool, n: nat)
    requires k < |data|
    requires REGISTER.Absorb(ALL_ONES, Words(data[k := b], signedChar), n)
          == REGISTER.Absorb(ALL_ONES, Words(data, signedChar), n)
    ensures b == data[k]
  {
    RegisterIsReversible();
    WordsAfterUpdate(data, k, b, signedChar);
    REGISTER.OneWordMatters(ALL_ONES, Words(data, signedChar), k, Widen(b, signedChar), n);
  }

  /** Replacing one byte of a payload always changes its checksum, whatever the signedness of `char`. */
  lemma {:induction false} SingleByteChangesCrc(data: seq<Byte>, k: nat, b: Byte, signedChar: bool)
    requires k < |data|
    ensures Crc32(data[k := b], signedChar) == Crc32(data, signedChar) <==> b == data[k]
  {
    if b == data[k] {
      assert data[k := b] == data;
    } else if Register(data[k := b], signedChar) == Register(data, signedChar) {
      OneByteMatters(data, k, b, signedChar, 8);
    }
  }

  // ---- The checksum is affine over XOR ----

  /** The sign fill that a byte of 0x80 or more adds when it is widened. */
  function Fill(b: Byte): U32 {
    if b >= 0x80 then SIGN_FILL else 0
  }

  lemma {:induction false} WidenIsFilled(b: Byte)
    ensures Widen(b, true) == XorWord(b, Fill(b))
  {
    XorAboveByte(b, 0xFF_FFFF);
    XorSelf(b);
  }

  lemma {:induction false} HighBit(a: nat, b: nat, k: nat)
    requires a < Pow2(k + 1) && b < Pow2(k + 1)
    ensures Xor(a, b) >= Pow2(k) <==> (a >= Pow2(k) <==> b < Pow2(k))
    decreases k
  {
    XorUnfolds(a, b);
    if k != 0 {
      HighBit(a / 2, b / 2, k - 1);
    }
  }

  lemma {:induction false} FillLinear(a: Byte, b: Byte)
    ensures Fill(XorByte(a, b)) == XorWord(Fill(a), Fill(b))
  {
    Powers();
    HighBit(a, b, 7);
    XorSelf(SIGN_FILL);
    XorSelf(0);
  }

  lemma {:induction false} WidenLinear(a: Byte, b: Byte, signedChar: bool)
    ensures Widen(XorByte(a, b), signedChar) == XorWord(Widen(a, signedChar), Widen(b, signedChar))
  {
    if signedChar {
      WidenIsFilled(a);
      WidenIsFilled(b);
      WidenIsFilled(XorByte(a, b));
      FillLinear(a, b);
      RegisterIsLinear();
      XorShuffle(a, b, Fill(a), Fill(b));
    }
  }

  lemma {:induction false} RegisterOfXor(r: U32, s: U32, a: seq<Byte>, b: seq<Byte>, signedChar: bool)
    requires |a| == |b|
    ensures REGISTER.Absorb(XorWord(r, s), Words(XorBytes(a, b), signedChar), 8)
         == XorWord(REGISTER.Absorb(r, Words(a, signedChar), 8), REGISTER.Absorb(s, Words(b, signedChar), 8))
  {
    RegisterIsLinear();
    var ab := XorBytes(a, b);
    forall i | 0 <= i < |a|
      ensures Words(ab, signedChar)[i] == REGISTER.plus(Words(a, signedChar)[i], Words(b, signedChar)[i])
    {
      WidenLinear(a[i], b[i], signedChar);
    }
    REGISTER.AbsorbLinear(r, s, Words(a, signedChar), Words(b, signedChar), Words(ab, signedChar), 8);
  }

  lemma {:induction false} ComplementIsXor(w: U32)
    ensures Complement(w) == XorWord(w, ALL_ONES)
  {
    Powers();
    XorAllOnes(w, 32);
  }

  /** Over payloads of one length, the XOR of three checksums is the checksum of the XOR of the payloads. */
  lemma {:induction false} CrcAffine(a: seq<Byte>, b: seq<Byte>, c: seq<Byte>, signedChar: bool)
    requires |a| == |b| == |c|
    ensures Crc32(XorBytes(XorBytes(a, b), c), signedChar)
         == XorWord(XorWord(Crc32(a, signedChar), Crc32(b, signedChar)), Crc32(c, signedChar))
  {
    RegisterOfXor(ALL_ONES, ALL_ONES, a, b, signedChar);
    RegisterOfXor(XorWord(ALL_ONES, ALL_ONES), ALL_ONES, XorBytes(a, b), c, signedChar);
    XorSelf(ALL_ONES);
    var x, y, z := Register(a, signedChar), Register(b, signedChar), Register(c, signedChar);
    ComplementIsXor(x);
    ComplementIsXor(y);
    ComplementIsXor(z);
    ComplementIsXor(XorWord(XorWord(x, y), z));
    RegisterIsLinear();
    XorShuffle(x, ALL_ONES, y, ALL_ONES);
    XorSelf(XorWord(x, y));
    XorAssociates(XorWord(x, y), z, ALL_ONES);
  }

  // ---- The standard algorithm: section 8 of RFC 1952 ----

  /** Entry `n` of the table built by make_crc_table is `TableEntry(n, 8)`. */
  function TableEntry(c: U32, k: nat): U32
    decreases k
  {
    if k == 0 then c
    else TableEntry(if c % 2 != 0 then XorWord(POLYNOMIAL, c / 2) else c / 2, k - 1)
  }

  /** One turn of the loop of update_crc, on the inverted register. */
  function Lookup(c: U32, b: Byte): U32 {
    XorWord(TableEntry(XorWord(c, b) % 0x100, 8), c / 0x100)
  }

  function StandardCrc32(data: seq<Byte>): U32 {
    XorWord(FoldFront(Lookup, ALL_ONES, data), ALL_ONES)
  }

  lemma {:induction false} TableStepIsStep(c: U32)
    ensures (if c % 2 != 0 then XorWord(POLYNOMIAL, c / 2) else c / 2) == Step(c)
  {
    XorSelf(c / 2);
    XorCommutes(POLYNOMIAL, c / 2);
  }

  lemma {:induction false} TableEntryIsRounds(c: U32, k: nat)
    ensures TableEntry(c, k) == REGISTER.Rounds(c, k)
    decreases k
  {
    if k != 0 {
      TableStepIsStep(c);
      TableEntryIsRounds(Step(c), k - 1);
    }
  }

  /** While only clear bits are shifted out, a round is a plain shift. */
  lemma {:induction false} ClearBitsShift(m: nat, w: U32, k: nat)
    requires w == ShiftLeft(m, k)
    ensures m < TWO_32 && REGISTER.Rounds(w, k) == m
    decreases k
  {
    if k != 0 {
      XorSelf(w / 2);
      ClearBitsShift(m, w / 2, k - 1);
    }
  }

  lemma {:induction false} MixIsLookup(c: U32, b: Byte)
    ensures Lookup(c, b) == REGISTER.Mix(c, b, 8)
  {
    var x := XorWord(c, b);
    var low: Byte, m := x % 0x100, x / 0x100;
    var high: U32 := 256 * m;
    XorAboveByte(low, m);
    assert x == XorWord(low, high);
    RegisterIsLinear();
    REGISTER.RoundsLinear(low, high, 8);
    ShiftLeftByte(m);
    ClearBitsShift(m, high, 8);
    TableEntryIsRounds(low, 8);
    XorByteKeepsHigh(c, b);
  }

  lemma {:induction false} XorByteKeepsHigh(c: U32, b: Byte)
    ensures Xor(c, b) / 0x100 == c / 0x100
  {
    var low: Byte, m := c % 0x100, c / 0x100;
    XorAboveByte(low, m);
    XorCommutes(low, 256 * m);
    XorAssociates(256 * m, low, b);
    XorAboveByte(XorByte(low, b), m);
    XorCommutes(256 * m, XorByte(low, b));
  }

  /** With an unsigned `char` the program computes the standard checksum of every payload. */
  lemma {:induction false} UnsignedCharIsStandard(data: seq<Byte>)
    ensures Crc32(data, false) == StandardCrc32(data)
  {
    forall r: U32, b: Byte ensures Lookup(r, b) == REGISTER.Mix(r, Widen(b, false), 8) {
      MixIsLookup(r, b);
    }
    AbsorbIsFoldFront(REGISTER, Lookup, b => Widen(b, false), ALL_ONES, data, Words(data, false), 8);
    ComplementIsXor(Register(data, false));
  }

  // ---- What a signed `char` does to the checksum ----

  predicate IsAscii(data: seq<Byte>) {
    forall i :: 0 <= i < |data| ==> data[i] < 0x80
  }

  /** The sign fills of a payload: they depend only on where its bytes of 0x80 or more are. */
  function Fills(data: seq<Byte>): (f: seq<U32>)
    ensures |f| == |data|
  {
    seq(|data|, i requires 0 <= i < |data| => Fill(data[i]))
  }

  /** The error a signed `char` adds to the register: the sign fills, shifted through. */
  function SignDefect(data: seq<Byte>): U32 {
    REGISTER.Absorb(0, Fills(data), 8)
  }

  /** On every payload the two builds agree exactly when the sign fills cancel out. */
  lemma {:induction false} SignedCharDiffersBySignDefect(data: seq<Byte>)
    ensures Crc32(data, true) == XorWord(StandardCrc32(data), SignDefect(data))
    ensures Crc32(data, true) == StandardCrc32(data) <==> SignDefect(data) == 0
  {
    RegisterIsLinear();
    forall i | 0 <= i < |data| ensures Words(data, true)[i] == REGISTER.plus(Words(data, false)[i], Fills(data)[i]) {
      WidenIsFilled(data[i]);
    }
    REGISTER.AbsorbLinear(ALL_ONES, 0, Words(data, false), Fills(data), Words(data, true), 8);
    XorSelf(ALL_ONES);
    UnsignedCharIsStandard(data);
    var r, d := Register(data, false), SignDefect(data);
    ComplementIsXor(r);
    ComplementIsXor(XorWord(r, d));
    XorAssociates(r, d, ALL_ONES);
    XorCommutes(d, ALL_ONES);
    XorAssociates(r, ALL_ONES, d);
    XorSelf(StandardCrc32(data));
    XorCommutes(StandardCrc32(data), d);
    XorSelf(d);
    if Crc32(data, true) == StandardCrc32(data) {
      XorCancels(d, 0, StandardCrc32(data));
    }
  }

  lemma {:induction false} ZeroMixesToZero()
    ensures REGISTER.Mix(0, 0, 8) == 0
  {
    XorSelf(0);
    ShiftLeftByte(0);
    ClearBitsShift(0, 0, 8);
  }

  /** A payload of bytes below 0x80 has the standard checksum with either signedness. */
  lemma {:induction false} AsciiIsStandard(data: seq<Byte>, signedChar: bool)
    requires IsAscii(data)
    ensures Crc32(data, signedChar) == StandardCrc32(data)
  {
    ZeroMixesToZero();
    REGISTER.ZeroStaysZero(0, Fills(data), 8);
    SignedCharDiffersBySignDefect(data);
    UnsignedCharIsStandard(data);
  }

  /** What `m` high bytes in a row leave in a clear register. */
  function RunDefect(m: nat): U32 {
    REGISTER.Absorb(0, seq(m, i => SIGN_FILL), 8)
  }

  /** The payload's bytes of 0x80 or more are the `m` ones at `k`. */
  predicate HighRun(data: seq<Byte>, k: nat, m: nat) {
    k + m <= |data| && forall i :: 0 <= i < |data| ==> (data[i] >= 0x80 <==> k <= i < k + m)
  }

  lemma {:induction false} RunAmongZeroFills(fills: seq<U32>, from: nat, to: nat)
    requires from <= to <= |fills|
    requires forall i :: 0 <= i < |fills| && !(from <= i < to) ==> fills[i] == 0
    ensures REGISTER.Absorb(0, fills, 8) == 0 <==> REGISTER.Absorb(0, fills[from..to], 8) == 0
  {
    RegisterIsReversible();
    ZeroMixesToZero();
    REGISTER.RunAmongZeros(0, fills, from, to, 8);
  }

  /** With its high bytes in one run, a payload gets the standard checksum exactly if the run's length leaves
      nothing behind: neither the bytes nor the text around them matter. */
  lemma {:induction false} OneRunIsStandardIff(data: seq<Byte>, k: nat, m: nat)
    requires HighRun(data, k, m)
    ensures Crc32(data, true) == StandardCrc32(data) <==> RunDefect(m) == 0
  {
    hide Crc32, StandardCrc32, Step, Xor;
    SignedCharDiffersBySignDefect(data);
    var fills := Fills(data);
    RunAmongZeroFills(fills, k, k + m);
    assert fills[k..k + m] == seq(m, i => SIGN_FILL);
  }

  /** Eight rounds: what the register does with one byte. */
  function Eight(w: U32): U32 { REGISTER.Rounds(w, 8) }

  lemma {:induction false} OneMoreInRun(m: nat)
    ensures RunDefect(m + 1) == Eight(XorWord(RunDefect(m), SIGN_FILL))
    ensures RunDefect(m + 1) == 0 <==> RunDefect(m) == SIGN_FILL
  {
    var longer, run := seq(m + 1, i => SIGN_FILL), seq(m, i => SIGN_FILL);
    assert longer[..m] == run;
    var w := RunDefect(m);
    assert RunDefect(m + 1) == REGISTER.Mix(w, SIGN_FILL, 8);
    XorZero(w, SIGN_FILL);
    ZeroMixesToZero();
    XorSelf(0);
    RegisterIsReversible();
    if RunDefect(m + 1) == 0 {
      REGISTER.RoundsInjective(XorWord(w, SIGN_FILL), 0, 8);
    }
  }

  // ---- Runs of one to four high bytes leave something behind ----

  /** Whether the number of one bits is odd. */
  predicate OddOnes(w: nat) {
    w != 0 && (w % 2 == 1) != OddOnes(w / 2)
  }

  lemma {:induction false} OddOnesOfXor(a: nat, b: nat)
    ensures OddOnes(Xor(a, b)) <==> OddOnes(a) != OddOnes(b)
    decreases a + b
  {
    if a != 0 || b != 0 {
      OddOnesOfXor(a / 2, b / 2);
      XorUnfolds(a, b);
      XorParity(a, b);
    }
  }

  /** The polynomial has an even number of ones, so a step that feeds back changes the parity of ones. */
  lemma {:induction false} OnlyZeroIsFixedByStep(w: U32)
    requires Step(w) == w
    ensures w == 0
  {
    XorSelf(w / 2);
    OddOnesOfXor(w / 2, POLYNOMIAL);
    PolynomialHasEvenOnes();
    hide Xor;
  }

  lemma {:induction false} PolynomialHasEvenOnes()
    ensures !OddOnes(POLYNOMIAL)
  {
    assert !OddOnes(0xED);
    assert !OddOnes(0xEDB8);
    assert OddOnes(0xEDB8_83);
  }

  lemma {:induction false} OnlyZeroIsFixed(w: U32, n: nat, k: nat)
    requires n == Pow2(k) && REGISTER.Rounds(w, n) == w
    ensures w == 0
    decreases k
  {
    hide Xor, Step;
    if k == 0 {
      assert REGISTER.Rounds(w, 1) == REGISTER.Rounds(Step(w), 0) == Step(w);
      OnlyZeroIsFixedByStep(w);
    } else {
      var half := n / 2;
      var v := REGISTER.Rounds(w, half);
      REGISTER.RoundsAdd(w, half, half);
      RegisterIsLinear();
      REGISTER.RoundsLinear(v, w, half);
      XorCommutes(v, w);
      OnlyZeroIsFixed(XorWord(v, w), half, k - 1);
      XorZero(v, w);
      OnlyZeroIsFixed(w, half, k - 1);
    }
  }

  lemma {:induction false} OnlyZeroIsFixedByByte(w: U32)
    requires Eight(w) == w
    ensures w == 0
  {
    assert Pow2(3) == 8;
    OnlyZeroIsFixed(w, 8, 3);
  }

  lemma {:induction false} FirstRun()
    ensures RunDefect(1) == Eight(SIGN_FILL) == 0x00FF_FFFF
  {
    hide Xor, Step;
    OneMoreInRun(0);
    XorSelf(SIGN_FILL);
    ShiftLeftByte(0x00FF_FFFF);
    ClearBitsShift(0x00FF_FFFF, SIGN_FILL, 8);
  }

  lemma {:induction false} EightLinear(a: U32, b: U32)
    ensures Eight(XorWord(a, b)) == XorWord(Eight(a), Eight(b))
  {
    RegisterIsLinear();
    REGISTER.RoundsLinear(a, b, 8);
  }

  /** If the fourth of four equal words clears the register, there is a word that eight rounds do not change. */
  lemma {:induction false} FourInARow(f: U32, d1: U32, d2: U32)
    requires d1 == Eight(f) && d2 == Eight(XorWord(d1, f)) && Eight(XorWord(d2, f)) == f
    ensures f == 0
  {
    hide Xor, Eight;
    var v, s := XorWord(d1, f), Eight(d2);
    EightLinear(d2, f);
    XorAssociates(s, d1, d1);
    XorSelf(d1);
    XorSelf(s);
    XorCommutes(d1, f);
    assert s == v;
    EightLinear(d2, v);
    XorCommutes(v, d2);
    OnlyZeroIsFixedByByte(XorWord(d2, v));
    XorZero(d2, v);
    OnlyZeroIsFixedByByte(v);
    XorZero(d1, f);
    OnlyZeroIsFixedByByte(f);
  }

  lemma {:induction false} RunOfFour()
    ensures RunDefect(4) != 0
  {
    hide *;
    FirstRun();
    OneMoreInRun(1);
    OneMoreInRun(2);
    OneMoreInRun(3);
    if RunDefect(3) == SIGN_FILL {
      FourInARow(SIGN_FILL, RunDefect(1), RunDefect(2));
    }
  }

  predicate EndsInOnes(w: nat, k: nat) {
    k == 0 || (w % 2 == 1 && EndsInOnes(w / 2, k - 1))
  }

  predicate EndsInZeros(w: nat, k: nat) {
    k == 0 || (w % 2 == 0 && EndsInZeros(w / 2, k - 1))
  }

  lemma {:induction false} XorKeepsOnes(a: nat, b: nat, k: nat, z: nat)
    requires EndsInOnes(a, k) && EndsInZeros(b, z) && k <= z
    ensures EndsInOnes(Xor(a, b), k)
    decreases k
  {
    hide Xor;
    if k != 0 {
      XorKeepsOnes(a / 2, b / 2, k - 1, z - 1);
      XorUnfolds(a, b);
      XorParity(a, b);
    }
  }

  /** The polynomial ends in five zeros, so what is fed back reaches the end of the register later. */
  lemma {:induction false} RoundsKeepOnes(w: U32, n: nat)
    requires n <= 5 && EndsInOnes(w, n + 1)
    ensures REGISTER.Rounds(w, n) % 2 == 1
    decreases n
  {
    if n != 0 {
      assert EndsInOnes(w / 2, n);
      assert EndsInZeros(POLYNOMIAL, 5);
      XorKeepsOnes(w / 2, POLYNOMIAL, n, 5);
      RoundsKeepOnes(Step(w), n - 1);
    }
  }

  lemma {:induction false} TopThreeBits()
    ensures Pow2(29) == 0x2000_0000 && ShiftLeft(7, 29) == 0xE000_0000
  {
    Powers();
    assert Pow2(31) == 4 * Pow2(29);
    assert ShiftLeft(7, 9) == 7 * 0x200;
    assert ShiftLeft(7, 19) == 7 * 0x8_0000;
  }

  lemma {:induction false} PolynomialNearFill()
    ensures Xor(SIGN_FILL, POLYNOMIAL) < 0x2000_0000
  {
    hide Xor;
    var high, f, p := 0xE000_0000, 0x1FFF_FF00, 0x0DB8_8320;
    TopThreeBits();
    XorDisjoint(f, 7, 29);
    XorDisjoint(p, 7, 29);
    XorShuffle(f, high, p, high);
    XorBound(f, p, 29);
    XorSelf(high);
    XorSelf(Xor(f, p));
  }

  lemma {:induction false} TwoStepsBeforeFill(w: U32)
    requires Step(Step(w)) == SIGN_FILL
    ensures w < 0x8000_0000
  {
    hide Xor;
    var v := Step(w);
    Powers();
    XorSelf(v / 2);
    XorSelf(w / 2);
    XorAssociates(v / 2, POLYNOMIAL, POLYNOMIAL);
    XorSelf(POLYNOMIAL);
    PolynomialNearFill();
    assert v / 2 < 0x2000_0000;
    TopBitOfXor(w / 2, POLYNOMIAL, 31);
  }

  /** Three: the sixth round of the second byte feeds back, which two steps before the sign fill it cannot. */
  lemma {:induction false} RunOfThree()
    ensures RunDefect(3) != 0
  {
    hide Xor, Step, RunDefect;
    FirstRun();
    OneMoreInRun(1);
    OneMoreInRun(2);
    var g := XorWord(0x00FF_FFFF, SIGN_FILL);
    assert EndsInOnes(0x00FF_FFFF, 6) && EndsInZeros(SIGN_FILL, 6);
    XorKeepsOnes(0x00FF_FFFF, SIGN_FILL, 6, 6);
    RoundsKeepOnes(g, 5);
    var v := REGISTER.Rounds(g, 5);
    REGISTER.RoundsAdd(g, 5, 3);
    FeedsBack(v);
    if RunDefect(2) == SIGN_FILL {
      assert REGISTER.Rounds(v, 3) == REGISTER.Rounds(Step(v), 2) == REGISTER.Rounds(Step(Step(v)), 1)
          == REGISTER.Rounds(Step(Step(Step(v))), 0);
      TwoStepsBeforeFill(Step(v));
    }
  }

  lemma {:induction false} FeedsBack(w: U32)
    requires w % 2 == 1
    ensures Step(w) >= 0x8000_0000
  {
    Powers();
    TopBitOfXor(w / 2, POLYNOMIAL, 31);
  }

  /** The runs of one character in UTF-8 leave something behind. */
  lemma {:induction false} ShortRunsLeaveDefects(m: nat)
    requires 1 <= m <= 4
    ensures RunDefect(m) != 0
  {
    hide Xor, Step, RunDefect;
    FirstRun();
    OneMoreInRun(1);
    RunOfThree();
    RunOfFour();
  }

  /** One character that is not ASCII, which UTF-8 writes as two to four adjacent bytes of 0x80 or more, or one
      such byte by itself, anywhere among ASCII text: where `char` is signed the checksum is never standard. */
  lemma {:induction false} OneCharacterIsNotStandard(data: seq<Byte>, k: nat, m: nat)
    requires 1 <= m <= 4 && HighRun(data, k, m)
    ensures Crc32(data, true) != StandardCrc32(data)
    ensures Crc32(data, true) != Crc32(data, false)
  {
    hide RunDefect, Crc32, StandardCrc32;
    OneRunIsStandardIff(data, k, m);
    ShortRunsLeaveDefects(m);
    UnsignedCharIsStandard(data);
  }
}
