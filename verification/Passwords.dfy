/** Password hashing (Server/serverstorage.cpp). SHA-256 and UTF-8 encoding are parameters: any function to
    32-byte digests, any function from text to bytes. */
module Passwords {
  import opened Options
  import opened Bits

  type Bytes = seq<Byte>

  const DIGEST_SIZE: nat := 32
  const HMAC_BLOCK_SIZE: nat := 64
  const PBKDF2_ITERATIONS: nat := 120000
  const PBKDF2_KEY_LENGTH: nat := 32
  const PASSWORD_SALT_BYTES: nat := 16
  const PBKDF2_PREFIX: string := "pbkdf2_sha256"
  const INT_MAX: int := 0x7FFF_FFFF

  type Digest = d: Bytes | |d| == DIGEST_SIZE witness seq(DIGEST_SIZE, i => 0)

  /** The functions hashing relies on. */
  datatype Primitives = Primitives(sha256: Bytes -> Digest, utf8: string -> Bytes)

  function Filled(b: Byte, n: nat): (s: Bytes)
    ensures |s| == n
  {
    seq(n, i => b)
  }

  // ---- HMAC, section 2 of RFC 2104 ----

  /** The key, hashed if longer than a block and filled up with zeros. */
  function BlockKey(p: Primitives, key: Bytes): (k: Bytes)
    ensures |k| == HMAC_BLOCK_SIZE
  {
    var short: Bytes := if |key| > HMAC_BLOCK_SIZE then p.sha256(key) else key;
    short + Filled(0, HMAC_BLOCK_SIZE - |short|)
  }

  /** H(K XOR opad, H(K XOR ipad, text)) */
  function Hmac(p: Primitives, key: Bytes, text: Bytes): Digest {
    var k := BlockKey(p, key);
    p.sha256(XorBytes(k, Filled(0x5C, HMAC_BLOCK_SIZE)) + p.sha256(XorBytes(k, Filled(0x36, HMAC_BLOCK_SIZE)) + text))
  }

  /** `leftJustified(width, '\\0', true)` */
  function LeftJustified(s: Bytes, width: nat): Bytes {
    if |s| < width then s + Filled(0, width - |s|) else s[..width]
  }

  method HmacSha256(p: Primitives, key: Bytes, message: Bytes) returns (mac: Digest)
    ensures mac == Hmac(p, key, message)
  {
    var normalizedKey := key;
    if |normalizedKey| > HMAC_BLOCK_SIZE {
      normalizedKey := p.sha256(normalizedKey);
    }
    normalizedKey := LeftJustified(normalizedKey, HMAC_BLOCK_SIZE);
    assert normalizedKey == BlockKey(p, key);
    var innerPad, outerPad := Filled(0, HMAC_BLOCK_SIZE), Filled(0, HMAC_BLOCK_SIZE);
    for index := 0 to HMAC_BLOCK_SIZE
      invariant |innerPad| == |outerPad| == HMAC_BLOCK_SIZE
      invariant forall i :: 0 <= i < index ==> innerPad[i] == XorByte(normalizedKey[i], 0x36)
      invariant forall i :: 0 <= i < index ==> outerPad[i] == XorByte(normalizedKey[i], 0x5C)
    {
      innerPad := innerPad[index := XorByte(normalizedKey[index], 0x36)];
      outerPad := outerPad[index := XorByte(normalizedKey[index], 0x5C)];
    }
    assert innerPad == XorBytes(normalizedKey, Filled(0x36, HMAC_BLOCK_SIZE));
    assert outerPad == XorBytes(normalizedKey, Filled(0x5C, HMAC_BLOCK_SIZE));
    var innerHash: Bytes := p.sha256(innerPad + message);
    mac := p.sha256(outerPad + innerHash);
  }

  // ---- PBKDF2, section 5.2 of RFC 8018 ----

  /** U_j: the pseudorandom function applied j times, first to the salt and the block's number. */
  function U(p: Primitives, password: Bytes, salt: Bytes, block: U32, j: nat): Digest
    requires j >= 1
  {
    if j == 1 then Hmac(p, password, salt + BigEndian(block))
    else Hmac(p, password, U(p, password, salt, block, j - 1))
  }

  /** F: the exclusive-or of U_1 to U_c. */
  function F(p: Primitives, password: Bytes, salt: Bytes, c: nat, block: U32): Digest
    requires c >= 1
    decreases c
  {
    if c == 1 then U(p, password, salt, block, 1)
    else XorBytes(F(p, password, salt, c - 1, block), U(p, password, salt, block, c))
  }

  /** T_1 || T_2 || ... || T_l */
  function Blocks(p: Primitives, password: Bytes, salt: Bytes, c: nat, l: nat): (s: Bytes)
    requires c >= 1 && l < TWO_32
    ensures |s| == DIGEST_SIZE * l
  {
    if l == 0 then [] else Blocks(p, password, salt, c, l - 1) + F(p, password, salt, c, l)
  }

  /** ceil(keyLength / 32) */
  function BlockCount(keyLength: nat): nat { (keyLength + DIGEST_SIZE - 1) / DIGEST_SIZE }

  /** The derived key: the first `keyLength` bytes of l = ceil(keyLength / 32) blocks. */
  function Pbkdf2(p: Primitives, password: Bytes, salt: Bytes, c: nat, keyLength: nat): (dk: Bytes)
    requires c >= 1 && keyLength <= INT_MAX
    ensures |dk| == keyLength
  {
    Blocks(p, password, salt, c, BlockCount(keyLength))[..keyLength]
  }

  method DeriveBlock(p: Primitives, password: Bytes, salt: Bytes, iterations: int, blockIndex: U32)
    returns (block: Bytes)
    ensures block == F(p, password, salt, AtLeastOne(iterations), blockIndex)
  {
    var value := HmacSha256(p, password, salt + BigEndian(blockIndex));
    block := value;
    var round := 1;
    while round < iterations
      invariant 1 <= round <= AtLeastOne(iterations)
      invariant value == U(p, password, salt, blockIndex, round)
      invariant block == F(p, password, salt, round, blockIndex)
    {
      value := HmacSha256(p, password, value);
      ghost var before := block;
      for byteIndex := 0 to |block|
        invariant |block| == DIGEST_SIZE
        invariant forall i :: 0 <= i < byteIndex ==> block[i] == XorByte(before[i], value[i])
        invariant forall i :: byteIndex <= i < DIGEST_SIZE ==> block[i] == before[i]
      {
        block := block[byteIndex := XorByte(block[byteIndex], value[byteIndex])];
      }
      assert block == XorBytes(before, value);
      round := round + 1;
    }
  }

  function AtLeastOne(n: int): (m: nat)
    ensures m >= 1
  {
    if n < 1 then 1 else n
  }

  function AtLeastZero(n: int): nat {
    if n < 0 then 0 else n
  }

  /** An iteration count below 1 counts as 1, and a negative key length as 0. */
  method DerivePbkdf2(p: Primitives, password: Bytes, salt: Bytes, iterations: int, keyLength: int)
    returns (derived: Bytes)
    requires keyLength <= INT_MAX
    ensures derived == Pbkdf2(p, password, salt, AtLeastOne(iterations), AtLeastZero(keyLength))
  {
    derived := [];
    var blockIndex: U32 := 1;
    while |derived| < keyLength
      invariant blockIndex >= 1 && DIGEST_SIZE * (blockIndex - 1) < AtLeastZero(keyLength) + DIGEST_SIZE
      invariant derived == Blocks(p, password, salt, AtLeastOne(iterations), blockIndex - 1)
      decreases keyLength - |derived|
    {
      var block := DeriveBlock(p, password, salt, iterations, blockIndex);
      derived := derived + block;
      blockIndex := blockIndex + 1;
    }
    assert blockIndex - 1 == BlockCount(AtLeastZero(keyLength));
    derived := derived[..AtLeastZero(keyLength)];
  }

  // ---- Comparison ----

  /** The differences of two byte arrays, or-ed together. */
  function Differences(a: Bytes, b: Bytes): (d: Byte)
    requires |a| == |b|
  {
    if a == [] then 0
    else
      var n := |a| - 1;
      Powers();
      OrBound(Differences(a[..n], b[..n]), XorByte(a[n], b[n]), 8);
      Or(Differences(a[..n], b[..n]), XorByte(a[n], b[n]))
  }

  lemma {:induction false} NoDifferencesIff(a: Bytes, b: Bytes)
    requires |a| == |b|
    ensures Differences(a, b) == 0 <==> a == b
  {
    if a != [] {
      var n := |a| - 1;
      NoDifferencesIff(a[..n], b[..n]);
      OrZero(Differences(a[..n], b[..n]), XorByte(a[n], b[n]));
      XorZero(a[n], b[n]);
      assert a == a[..n] + [a[n]] && b == b[..n] + [b[n]];
    }
  }

  /** Looks at every byte whatever they are, and tells exactly whether the arrays are equal. */
  method ConstantTimeEquals(left: Bytes, right: Bytes) returns (equal: bool)
    ensures equal <==> left == right
  {
    if |left| != |right| {
      return false;
    }
    var diff: Byte := 0;
    for index := 0 to |left|
      invariant diff == Differences(left[..index], right[..index])
    {
      assert left[..index + 1][..index] == left[..index] && right[..index + 1][..index] == right[..index];
      Powers();
      OrBound(diff, XorByte(left[index], right[index]), 8);
      diff := Or(diff, XorByte(left[index], right[index]));
    }
    assert left[..|left|] == left && right[..|right|] == right;
    NoDifferencesIff(left, right);
    equal := diff == 0;
  }

  // ---- Text ----

  const HEX_DIGITS: string := "0123456789abcdef"

  function HexDigit(n: nat): char
    requires n < 16
  {
    HEX_DIGITS[n]
  }

  /** `toHex()` */
  function ToHex(s: Bytes): (t: string)
    ensures |t| == 2 * |s| && '$' !in t
  {
    if s == [] then ""
    else
      var n := |s| - 1;
      ToHex(s[..n]) + [HexDigit(s[n] / 16), HexDigit(s[n] % 16)]
  }

  function HexValue(c: char): Option<nat> {
    if '0' <= c <= '9' then Some(c as int - '0' as int)
    else if 'a' <= c <= 'f' then Some(c as int - 'a' as int + 10)
    else if 'A' <= c <= 'F' then Some(c as int - 'A' as int + 10)
    else None
  }

  /** The hexadecimal digits of a text; other characters are skipped. */
  function HexValues(t: string): (v: seq<nat>)
    ensures forall i :: 0 <= i < |v| ==> v[i] < 16
  {
    if t == "" then []
    else HexValues(t[..|t| - 1]) + if HexValue(t[|t| - 1]).Some? then [HexValue(t[|t| - 1]).value] else []
  }

  /** Digits paired from the right; an odd one out at the front is a byte of its own. */
  function Pairs(v: seq<nat>): Bytes
    requires forall i :: 0 <= i < |v| ==> v[i] < 16
  {
    if v == [] then []
    else if |v| == 1 then [v[0]]
    else Pairs(v[..|v| - 2]) + [16 * v[|v| - 2] + v[|v| - 1]]
  }

  /** `fromHex()` */
  function FromHex(t: string): Bytes { Pairs(HexValues(t)) }

  lemma {:induction false} HexRoundTrip(s: Bytes)
    ensures FromHex(ToHex(s)) == s
  {
    hide HexValues, Pairs, HexDigit;
    if s == [] {
      NothingInHex();
    } else {
      var n := |s| - 1;
      HexRoundTrip(s[..n]);
      HexValuesOfByte(ToHex(s[..n]), s[n]);
      PairsOfByte(HexValues(ToHex(s[..n])), s[n]);
      assert s == s[..n] + [s[n]];
    }
  }

  lemma {:induction false} NothingInHex()
    ensures FromHex("") == []
  {
  }

  lemma {:induction false} PairsOfByte(v: seq<nat>, b: Byte)
    requires forall i :: 0 <= i < |v| ==> v[i] < 16
    ensures Pairs(v + [b / 16, b % 16]) == Pairs(v) + [b]
  {
    var w := v + [b / 16, b % 16];
    assert w[..|w| - 2] == v;
  }

  lemma {:induction false} HexValuesOfByte(t: string, b: Byte)
    ensures HexValues(t + [HexDigit(b / 16), HexDigit(b % 16)]) == HexValues(t) + [b / 16, b % 16]
  {
    var high, low := HexDigit(b / 16), HexDigit(b % 16);
    DigitValue(b / 16);
    DigitValue(b % 16);
    assert (t + [high, low])[..|t| + 1] == t + [high] && (t + [high])[..|t|] == t;
  }

  lemma {:induction false} DigitValue(n: nat)
    requires n < 16
    ensures HexValue(HexDigit(n)) == Some(n)
  {
  }

  /** A number written in decimal. */
  function Decimal(n: nat): (t: string)
    ensures t != "" && forall i :: 0 <= i < |t| ==> '0' <= t[i] <= '9'
  {
    if n < 10 then [HexDigit(n)] else Decimal(n / 10) + [HexDigit(n % 10)]
  }

  /** The value of a text of decimal digits. */
  function DigitsValue(t: string): Option<nat> {
    if t == "" then None
    else
      var n := |t| - 1;
      if !('0' <= t[n] <= '9') then None
      else if n == 0 then Some(t[0] as int - '0' as int)
      else if DigitsValue(t[..n]).None? then None
      else Some(10 * DigitsValue(t[..n]).value + (t[n] as int - '0' as int))
  }

  function Negated(n: nat): int { 0 - n }

  /** `toInt(&ok)`: an optional sign and decimal digits, in the range of int. */
  function ToInt(t: string): Option<int> {
    if t != "" && t[0] == '-' then
      var v := DigitsValue(t[1..]);
      if v.Some? && v.value <= INT_MAX + 1 then Some(Negated(v.value)) else None
    else
      var v := DigitsValue(if t != "" && t[0] == '+' then t[1..] else t);
      if v.Some? && v.value <= INT_MAX then Some(v.value) else None
  }

  lemma {:induction false} DecimalValue(n: nat)
    ensures DigitsValue(Decimal(n)) == Some(n)
  {
    hide DigitsValue, HexDigit;
    if n < 10 {
      OneDigit(n);
    } else {
      DecimalValue(n / 10);
      AppendDigit(Decimal(n / 10), n / 10, n % 10);
    }
  }

  lemma {:induction false} OneDigit(n: nat)
    requires n < 10
    ensures DigitsValue([HexDigit(n)]) == Some(n)
  {
    DigitIs(n);
  }

  lemma {:induction false} AppendDigit(t: string, value: nat, digit: nat)
    requires t != "" && DigitsValue(t) == Some(value) && digit < 10
    ensures DigitsValue(t + [HexDigit(digit)]) == Some(10 * value + digit)
  {
    DigitIs(digit);
    assert (t + [HexDigit(digit)])[..|t|] == t;
  }

  lemma {:induction false} DecimalFits(n: nat)
    ensures |Decimal(n)| <= n + 1
  {
    if n >= 10 {
      DecimalFits(n / 10);
    }
  }

  lemma {:induction false} DigitIs(n: nat)
    requires n < 10
    ensures HexDigit(n) as int == '0' as int + n
  {
  }

  lemma {:induction false} DecimalRoundTrip(n: nat)
    requires n <= INT_MAX
    ensures ToInt(Decimal(n)) == Some(n)
  {
    DecimalValue(n);
  }

  /** `split("$")` */
  function Split(t: string): (parts: seq<string>)
    ensures parts != []
  {
    if t == "" then [""]
    else
      var rest := Split(t[1..]);
      if t[0] == '$' then [""] + rest else [[t[0]] + rest[0]] + rest[1..]
  }

  lemma {:induction false} SplitField(a: string, rest: string)
    requires '$' !in a
    ensures Split(a + "$" + rest) == [a] + Split(rest)
  {
    if a == "" {
      assert (a + "$" + rest)[1..] == rest;
    } else {
      SplitField(a[1..], rest);
      assert (a + "$" + rest)[1..] == a[1..] + "$" + rest;
      assert [a[0]] + a[1..] == a;
    }
  }

  lemma {:induction false} SplitLast(a: string)
    requires '$' !in a
    ensures Split(a) == [a]
  {
    if a != "" {
      SplitLast(a[1..]);
      assert [a[0]] + a[1..] == a;
    }
  }

  // ---- The stored hash ----

  /** The stored text of a hash: prefix, iterations, salt and derived key. */
  function HashText(iterations: nat, salt: Bytes, derived: Bytes): string {
    PBKDF2_PREFIX + "$" + (Decimal(iterations) + "$" + (ToHex(salt) + "$" + ToHex(derived)))
  }

  /** The fields of a stored hash, if `verifyPassword` accepts its form. */
  datatype HashFields = HashFields(iterations: nat, salt: Bytes, expected: Bytes)

  function ParseHash(stored: string): (f: Option<HashFields>)
    ensures f.Some? ==> f.value.iterations >= 1
  {
    var parts := Split(stored);
    if |parts| != 4 || parts[0] != PBKDF2_PREFIX then None
    else
      var iterations := ToInt(parts[1]);
      var salt, expected := FromHex(parts[2]), FromHex(parts[3]);
      if iterations.None? || iterations.value <= 0 || salt == [] || expected == [] then None
      else Some(HashFields(iterations.value, salt, expected))
  }

  /** A stored hash reads back as what was written, for any salt, key and iteration count an int can hold. */
  lemma {:induction false} HashTextRoundTrip(iterations: nat, salt: Bytes, derived: Bytes)
    requires 1 <= iterations <= INT_MAX && salt != [] && derived != []
    ensures ParseHash(HashText(iterations, salt, derived)) == Some(HashFields(iterations, salt, derived))
  {
    hide ToHex, FromHex, Decimal, ToInt, Split;
    var a, b, c := Decimal(iterations), ToHex(salt), ToHex(derived);
    SplitField(PBKDF2_PREFIX, a + "$" + (b + "$" + c));
    SplitField(a, b + "$" + c);
    SplitField(b, c);
    SplitLast(c);
    DecimalRoundTrip(iterations);
    HexRoundTrip(salt);
    HexRoundTrip(derived);
  }

  lemma {:induction false} PartsFit(t: string)
    ensures forall i :: 0 <= i < |Split(t)| ==> |Split(t)[i]| <= |t|
  {
    if t != "" {
      PartsFit(t[1..]);
    }
  }

  lemma {:induction false} PairsFit(v: seq<nat>)
    requires forall i :: 0 <= i < |v| ==> v[i] < 16
    ensures |Pairs(v)| <= |v|
  {
    if |v| >= 2 {
      PairsFit(v[..|v| - 2]);
    }
  }

  lemma {:induction false} HexValuesFit(t: string)
    ensures |HexValues(t)| <= |t|
  {
    if t != "" {
      HexValuesFit(t[..|t| - 1]);
    }
  }

  lemma {:induction false} KeyFits(stored: string)
    ensures ParseHash(stored).Some? ==> |ParseHash(stored).value.expected| <= |stored|
  {
    hide Split, FromHex, ToInt;
    PartsFit(stored);
    if ParseHash(stored).Some? {
      var t := Split(stored)[3];
      HexValuesFit(t);
      FromHexFits(t);
    }
  }

  lemma {:induction false} FromHexFits(t: string)
    ensures |FromHex(t)| <= |t|
  {
    HexValuesFit(t);
    PairsFit(HexValues(t));
  }

  /** The password's key under the stored salt and count is the stored key. */
  predicate Verifies(p: Primitives, password: string, stored: string)
    requires |stored| <= INT_MAX
  {
    var f := ParseHash(stored);
    KeyFits(stored);
    f.Some? && Pbkdf2(p, p.utf8(password), f.value.salt, f.value.iterations, |f.value.expected|) == f.value.expected
  }

  /** The salt is 16 random bytes. */
  method HashPassword(p: Primitives, password: string, salt: Bytes) returns (stored: string)
    requires |salt| == 16
    ensures stored == HashText(120000, salt, Pbkdf2(p, p.utf8(password), salt, 120000, 32))
    ensures stored == HashText(PBKDF2_ITERATIONS, salt, KeyOf(p, password, salt))
  {
    hide Pbkdf2, Decimal;
    var derived := DerivePbkdf2(p, p.utf8(password), salt, PBKDF2_ITERATIONS, PBKDF2_KEY_LENGTH);
    stored := HashText(PBKDF2_ITERATIONS, salt, derived);
  }

  /** The key a password is stored as. */
  function KeyOf(p: Primitives, password: string, salt: Bytes): (key: Bytes)
    ensures |key| == PBKDF2_KEY_LENGTH
  {
    Pbkdf2(p, p.utf8(password), salt, PBKDF2_ITERATIONS, PBKDF2_KEY_LENGTH)
  }

  method VerifyPassword(p: Primitives, password: string, stored: string) returns (ok: bool)
    requires |stored| <= INT_MAX
    ensures ok <==> Verifies(p, password, stored)
  {
    hide Pbkdf2, Split, FromHex, ToInt;
    KeyFits(stored);
    var parts := Split(stored);
    if |parts| != 4 || parts[0] != PBKDF2_PREFIX {
      return false;
    }
    var iterations := ToInt(parts[1]);
    var salt := FromHex(parts[2]);
    var expected := FromHex(parts[3]);
    if iterations.None? || iterations.value <= 0 || salt == [] || expected == [] {
      return false;
    }
    var actual := DerivePbkdf2(p, p.utf8(password), salt, iterations.value, |expected|);
    ok := ConstantTimeEquals(actual, expected);
  }

  /** A password is accepted against the stored hash of another exactly if both derive the same key under its
      salt. In particular every password is accepted against its own hash. */
  lemma {:induction false} VerifiesIffSameKey(
    p: Primitives, password: string, other: string, salt: Bytes, stored: string)
    requires |salt| == PASSWORD_SALT_BYTES && stored == HashText(PBKDF2_ITERATIONS, salt, KeyOf(p, password, salt))
    ensures |stored| <= INT_MAX
    ensures Verifies(p, other, stored) <==> KeyOf(p, other, salt) == KeyOf(p, password, salt)
    ensures Verifies(p, password, stored)
  {
    hide Pbkdf2, HashText, ParseHash, Decimal;
    HashTextRoundTrip(PBKDF2_ITERATIONS, salt, KeyOf(p, password, salt));
    HashTextFits(PBKDF2_ITERATIONS, salt, KeyOf(p, password, salt));
  }

  lemma {:induction false} HashTextFits(iterations: nat, salt: Bytes, derived: Bytes)
    ensures |HashText(iterations, salt, derived)| <= iterations + 2 * (|salt| + |derived|) + 17
  {
    hide Decimal, ToHex;
    DecimalFits(iterations);
  }
}
