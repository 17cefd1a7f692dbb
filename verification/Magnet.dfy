/** Info-hashes in magnet links: 40 hex digits or 32 base32 characters (section 6 of RFC 4648). */
module Magnet {
  import opened Arith
  import opened Ts

  type Text = seq<byte>

  // ----- Digits ---------------------------------------------------------------------------

  const ALPHABET: Text := [
    65, 66, 67, 68, 69, 70, 71, 72, 73, 74, 75, 76, 77, 78, 79, 80, 81, 82, 83, 84, 85, 86, 87, 88, 89, 90,
    50, 51, 52, 53, 54, 55]

  function ToUpper(c: byte): byte {
    if 97 <= c <= 122 then c - 32 else c
  }

  /** The value of a base32 character, in either case. */
  function Digit32(c: byte): (v: Option<nat>)
    ensures v.Some? <==> ToUpper(c) in ALPHABET
    ensures v.Some? ==> v.value < 32 && ALPHABET[v.value] == ToUpper(c)
  {
    var up := ToUpper(c);
    if 65 <= up <= 90 then Some(up as int - 65)
    else if 50 <= up <= 55 then Some(up as int - 24)
    else None
  }

  ghost predicate AllDigits(s: Text) {
    forall i | 0 <= i < |s| :: Digit32(s[i]).Some?
  }

  /** The number that big-endian digits spell. */
  ghost function Value(digits: seq<nat>, base: nat): nat {
    if digits == [] then 0 else Value(digits[..|digits| - 1], base) * base + digits[|digits| - 1]
  }

  ghost function Digits(s: Text): (d: seq<nat>)
    requires AllDigits(s)
    ensures |d| == |s| && forall i | 0 <= i < |s| :: d[i] == Digit32(s[i]).value
  {
    seq(|s|, i requires 0 <= i < |s| => Digit32(s[i]).value)
  }

  ghost function Bytes(b: seq<byte>): (d: seq<nat>)
    ensures |d| == |b| && forall i | 0 <= i < |b| :: d[i] == b[i]
  {
    seq(|b|, i requires 0 <= i < |b| => b[i] as int)
  }

  lemma {:induction false} ValueUnique(a: seq<nat>, b: seq<nat>, base: nat)
    requires |a| == |b| && base > 0 && Value(a, base) == Value(b, base)
    requires forall i | 0 <= i < |a| :: a[i] < base && b[i] < base
    ensures a == b
  {
    if a != [] {
      var n := |a| - 1;
      SameQuotient(Value(a[..n], base), a[n], Value(b[..n], base), b[n], base);
      ValueUnique(a[..n], b[..n], base);
      assert a == a[..n] + [a[n]] && b == b[..n] + [b[n]];
    }
  }

  // ----- Decoding -------------------------------------------------------------------------

  function Pow2(n: nat): (p: nat)
    ensures p >= 1
  {
    if n == 0 then 1 else 2 * Pow2(n - 1)
  }

  lemma {:induction false} Pow2Add(a: nat, b: nat)
    ensures Pow2(a + b) == Pow2(a) * Pow2(b)
  {
    if a > 0 {
      Pow2Add(a - 1, b);
    }
  }

  /** Shift-in of one base32 digit into the 16-bit accumulator, whose top bits fall off. */
  function ShiftIn(buffer: nat, v: nat): (r: nat)
    ensures r < 0x1_0000
  {
    (buffer * 32 + v) % 0x1_0000
  }

  /** Reducing modulo `base * cofactor` first does not change a remainder modulo `base`. */
  lemma ReduceFirst(x: nat, base: nat, cofactor: nat, q: nat, r: nat)
    requires base * cofactor >= 1 && r < base && x == q * base + r
    ensures (x % (base * cofactor)) % base == r
  {
    var lost := x / (base * cofactor);
    assert lost * (base * cofactor) == (lost * cofactor) * base;
    assert (q - lost * cofactor) * base == q * base - (lost * cofactor) * base;
    RemainderIs(x % (base * cofactor), base, q - lost * cofactor, r);
  }

  lemma Widths(bits: nat)
    requires bits < 8
    ensures Pow2(bits + 5) == Pow2(bits) * 32 && Pow2(bits + 5) * Pow2(11 - bits) == 0x1_0000
  {
    Pow2Add(bits, 5);
    Pow2Add(bits + 5, 11 - bits);
    assert Pow2(5) == 32 && Pow2(16) == 0x1_0000;
  }

  lemma ShiftSplit(buffer: nat, v: nat, bits: nat, q: nat, low: nat)
    requires v < 32 && bits < 8 && buffer == q * Pow2(bits) + low && low < Pow2(bits)
    ensures ShiftIn(buffer, v) % Pow2(bits + 5) == low * 32 + v
  {
    Widths(bits);
    hide Pow2;
    Regroup(q, low, 32, Pow2(bits));
    assert buffer * 32 + v == q * Pow2(bits + 5) + (low * 32 + v);
    ReduceFirst(buffer * 32 + v, Pow2(bits + 5), Pow2(11 - bits), q, low * 32 + v);
  }

  /** The bits that fell off were already delivered: the pending bits are exact. */
  lemma ShiftKeepsLow(buffer: nat, v: nat, bits: nat)
    requires v < 32 && bits < 8
    ensures ShiftIn(buffer, v) % Pow2(bits + 5) == (buffer % Pow2(bits)) * 32 + v
  {
    hide Pow2, ShiftIn;
    var p := Pow2(bits);
    DivMod(buffer, p);
    ShiftSplit(buffer, v, bits, buffer / p, buffer % p);
  }

  lemma TopSplit(buffer: nat, bits: nat, high: nat, top: nat, low: nat)
    requires bits < 8 && top < 256 && low < Pow2(bits) && buffer == (high * 256 + top) * Pow2(bits) + low
    ensures buffer % Pow2(bits + 8) == top * Pow2(bits) + low
  {
    Pow2Add(bits, 8);
    assert Pow2(8) == 256;
    hide Pow2;
    var p := Pow2(bits);
    Regroup(high, top, p, 256);
    Regroup(0, 255 - top, p, 0);
    RemainderIs(buffer, Pow2(bits + 8), high, top * p + low);
  }

  /** Taking the top byte of the pending bits. */
  lemma TopByte(buffer: nat, bits: nat)
    requires bits < 8
    ensures buffer % Pow2(bits + 8) == ((buffer / Pow2(bits)) % 256) * Pow2(bits) + buffer % Pow2(bits)
  {
    hide Pow2;
    var q := buffer / Pow2(bits);
    DivMod(buffer, Pow2(bits));
    TopSplit(buffer, bits, q / 256, q % 256, buffer % Pow2(bits));
  }

  /** What the decoder has after some digits: delivered bytes and `bits` pending low bits. */
  ghost predicate Decoded(digits: seq<nat>, out: seq<byte>, buffer: nat, bits: nat) {
    && bits < 8 && 5 * |digits| == 8 * |out| + bits
    && Value(digits, 32) == Value(Bytes(out), 256) * Pow2(bits) + buffer % Pow2(bits)
  }

  lemma ValueAppend(digits: seq<nat>, d: nat, base: nat)
    ensures Value(digits + [d], base) == Value(digits, base) * base + d
  {
    assert (digits + [d])[..|digits|] == digits;
  }

  lemma DigitStep(digits: seq<nat>, out: seq<byte>, buffer: nat, bits: nat, v: nat)
    requires Decoded(digits, out, buffer, bits) && v < 32
    ensures Value(digits + [v], 32)
            == Value(Bytes(out), 256) * Pow2(bits + 5) + ShiftIn(buffer, v) % Pow2(bits + 5)
  {
    ValueAppend(digits, v, 32);
    ShiftKeepsLow(buffer, v, bits);
    Pow2Add(bits, 5);
    assert Pow2(5) == 32;
    hide Pow2, Value;
    Regroup(Value(Bytes(out), 256), 0, Pow2(bits), 32);
    Regroup(Value(Bytes(out), 256), 0, 32, Pow2(bits));
  }

  lemma ByteStep(out: seq<byte>, buffer: nat, bits: nat)
    requires bits < 8
    ensures Value(Bytes(out), 256) * Pow2(bits + 8) + buffer % Pow2(bits + 8)
            == Value(Bytes(out + [(buffer / Pow2(bits)) % 256]), 256) * Pow2(bits) + buffer % Pow2(bits)
  {
    var b: byte := (buffer / Pow2(bits)) % 256;
    assert Bytes(out + [b]) == Bytes(out) + [b as int];
    ValueAppend(Bytes(out), b as int, 256);
    TopByte(buffer, bits);
    Pow2Add(bits, 8);
    assert Pow2(8) == 256;
    hide Pow2, Value;
    Regroup(Value(Bytes(out), 256), b, Pow2(bits), 256);
  }

  /** One character taken in, and a byte delivered once eight bits are pending. */
  lemma DecodeDigit(s: Text, n: nat, out: seq<byte>, buffer: nat, bits: nat)
    requires n < |s| && AllDigits(s[..n]) && Digit32(s[n]).Some?
    requires Decoded(Digits(s[..n]), out, buffer, bits)
    ensures AllDigits(s[..n + 1])
    ensures bits < 3 ==> Decoded(Digits(s[..n + 1]), out, ShiftIn(buffer, Digit32(s[n]).value), bits + 5)
    ensures bits >= 3 ==>
      var wide := ShiftIn(buffer, Digit32(s[n]).value);
      Decoded(Digits(s[..n + 1]), out + [(wide / Pow2(bits - 3)) % 256], wide, bits - 3)
  {
    hide Digit32, Value, Pow2, ShiftIn;
    var v := Digit32(s[n]).value;
    assert s[..n + 1] == s[..n] + [s[n]];
    assert Digits(s[..n + 1]) == Digits(s[..n]) + [v];
    hide Digits, Bytes;
    DigitStep(Digits(s[..n]), out, buffer, bits, v);
    if bits >= 3 {
      ByteStep(out, ShiftIn(buffer, v), bits - 3);
    }
  }

  /** Succeeds exactly on 32 alphabet characters, with the 20 bytes that spell the same number. */
  method Base32Decode(s: Text) returns (r: Option<seq<byte>>)
    ensures r.Some? <==> |s| == 32 && AllDigits(s)
    ensures r.Some? ==> |r.value| == 20 && Value(Bytes(r.value), 256) == Value(Digits(s), 32)
  {
    hide Value, Bytes, Digits, Digit32;
    if |s| != 32 {
      return None;
    }
    var buffer: nat, bits: nat := 0, 0;
    var out: seq<byte> := [];
    EmptyDecoded(s);
    var n := 0;
    while n < |s|
      invariant n <= |s| && AllDigits(s[..n])
      invariant Decoded(Digits(s[..n]), out, buffer, bits)
    {
      var v := Digit32(s[n]);
      if v.None? {
        return None;
      }
      DecodeDigit(s, n, out, buffer, bits);
      buffer := ShiftIn(buffer, v.value);
      bits := bits + 5;
      if bits >= 8 {
        bits := bits - 8;
        out := out + [(buffer / Pow2(bits)) % 256];
      }
      n := n + 1;
    }
    assert s[..n] == s;
    assert bits == 0 && buffer % Pow2(0) == 0;
    return Some(out);
  }

  lemma EmptyDecoded(s: Text)
    ensures AllDigits(s[..0]) && Decoded(Digits(s[..0]), [], 0, 0)
  {
  }

  // ----- Encoding -------------------------------------------------------------------------

  /** The eight base32 digits of one group of five bytes. */
  function Group(b: seq<byte>): (d: seq<nat>)
    requires |b| == 5
    ensures |d| == 8 && forall i | 0 <= i < 8 :: d[i] < 32
  {
    [b[0] / 8,
     (b[0] % 8) * 4 + b[1] / 64,
     (b[1] / 2) % 32,
     (b[1] % 2) * 16 + b[2] / 16,
     (b[2] % 16) * 2 + b[3] / 128,
     (b[3] / 4) % 32,
     (b[3] % 4) * 8 + b[4] / 32,
     b[4] % 32]
  }

  function EncodeDigits(b: seq<byte>): (d: seq<nat>)
    requires |b| % 5 == 0
    ensures |d| * 5 == |b| * 8 && forall i | 0 <= i < |d| :: d[i] < 32
  {
    if b == [] then []
    else EncodeDigits(b[..|b| - 5]) + Group(b[|b| - 5..])
  }

  lemma {:induction false} ValueConcat(a: seq<nat>, b: seq<nat>, base: nat)
    ensures Value(a + b, base) == Value(a, base) * Power(base, |b|) + Value(b, base)
  {
    if b == [] {
      assert a + b == a;
    } else {
      var n := |b| - 1;
      ValueConcat(a, b[..n], base);
      assert (a + b)[..|a| + n] == a + b[..n] && (a + b)[|a| + n] == b[n];
      var v, w, p := Value(a, base), Value(b[..n], base), Power(base, n);
      Regroup(v, w, base, p);
    }
  }

  ghost function Power(base: nat, n: nat): nat {
    if n == 0 then 1 else Power(base, n - 1) * base
  }

  lemma Values5(b: seq<nat>, base: nat)
    requires |b| == 5
    ensures Value(b, base) == (((b[0] * base + b[1]) * base + b[2]) * base + b[3]) * base + b[4]
  {
    assert Value(b[..1], base) == b[0];
    assert b[..2][..1] == b[..1] && b[..3][..2] == b[..2] && b[..4][..3] == b[..3];
    assert Value(b[..2], base) == b[0] * base + b[1];
    assert Value(b[..3], base) == Value(b[..2], base) * base + b[2];
    assert Value(b[..4], base) == Value(b[..3], base) * base + b[3];
  }

  lemma Values8(b: seq<nat>, base: nat)
    requires |b| == 8
    ensures Value(b, base)
            == ((((((((b[0] * base + b[1]) * base + b[2]) * base + b[3]) * base + b[4]) * base) + b[5]) * base + b[6])
                * base) + b[7]
  {
    Values5(b[..5], base);
    assert b[..6][..5] == b[..5] && b[..7][..6] == b[..6];
    assert Value(b[..6], base) == Value(b[..5], base) * base + b[5];
    assert Value(b[..7], base) == Value(b[..6], base) * base + b[6];
  }

  lemma Bits(x: byte)
    ensures x == (x / 64) * 64 + ((x / 2) % 32) * 2 + x % 2
    ensures x == (x / 128) * 128 + ((x / 4) % 32) * 4 + x % 4
  {
  }

  lemma GroupValue(b: seq<byte>)
    requires |b| == 5
    ensures Value(Group(b), 32) == Value(Bytes(b), 256)
  {
    Values8(Group(b), 32);
    Values5(Bytes(b), 256);
    hide Value, Bytes;
    Bits(b[1]);
    Bits(b[3]);
    var q0, r0, q1, m1, r1 := b[0] / 8, b[0] % 8, b[1] / 64, (b[1] / 2) % 32, b[1] % 2;
    var q2, r2, q3, m3, r3 := b[2] / 16, b[2] % 16, b[3] / 128, (b[3] / 4) % 32, b[3] % 4;
    var q4, r4 := b[4] / 32, b[4] % 32;
    assert Group(b) == [q0, r0 * 4 + q1, m1, r1 * 16 + q2, r2 * 2 + q3, m3, r3 * 8 + q4, r4];
    hide Group;
    assert b[0] == q0 * 8 + r0 && b[2] == q2 * 16 + r2 && b[4] == q4 * 32 + r4;
  }

  lemma {:induction false} EncodeValue(b: seq<byte>)
    requires |b| % 5 == 0
    ensures Value(EncodeDigits(b), 32) == Value(Bytes(b), 256)
  {
    if b != [] {
      var front, back := b[..|b| - 5], b[|b| - 5..];
      EncodeValue(front);
      GroupValue(back);
      assert Bytes(b) == Bytes(front) + Bytes(back);
      ValueConcat(EncodeDigits(front), Group(back), 32);
      ValueConcat(Bytes(front), Bytes(back), 256);
      assert Power(32, 8) == Power(256, 5) by {
        assert Power(32, 4) == 0x10_0000 && Power(256, 4) == 0x1_0000_0000;
        assert Power(32, 7) == 0x8_0000_0000;
      }
    }
  }

  /** The characters of some digits, upper or lower case at will. */
  function Characters(d: seq<nat>, lower: seq<bool>): (s: Text)
    requires |d| == |lower| && forall i | 0 <= i < |d| :: d[i] < 32
    ensures |s| == |d|
  {
    seq(|d|, i requires 0 <= i < |d| =>
      if lower[i] && d[i] < 26 then ALPHABET[d[i]] + 32 else ALPHABET[d[i]])
  }

  lemma CharactersAreDigits(d: seq<nat>, lower: seq<bool>)
    requires |d| == |lower| && forall i | 0 <= i < |d| :: d[i] < 32
    ensures AllDigits(Characters(d, lower)) && Digits(Characters(d, lower)) == d
  {
    forall i | 0 <= i < |d| ensures Digit32(Characters(d, lower)[i]) == Some(d[i]) {
      CharacterValue(d[i], lower[i]);
    }
  }

  lemma CharacterValue(v: nat, lower: bool)
    requires v < 32
    ensures Digit32(if lower && v < 26 then ALPHABET[v] + 32 else ALPHABET[v]) == Some(v)
  {
    assert ALPHABET[v] as int == if v < 26 then v + 65 else v + 24;
  }

  /** Section 6 of RFC 4648, each letter in either case. */
  function Encode(b: seq<byte>, lower: seq<bool>): (s: Text)
    requires |b| % 5 == 0 && 5 * |lower| == 8 * |b|
    ensures |s| == |lower|
  {
    Characters(EncodeDigits(b), lower)
  }

  ghost predicate Decodes(s: Text, b: seq<byte>) {
    |s| == 32 && AllDigits(s) && |b| == 20 && Value(Bytes(b), 256) == Value(Digits(s), 32)
  }

  /** Whatever decodes an encoded info-hash returns that info-hash. */
  lemma RoundTrip(b: seq<byte>, lower: seq<bool>, r: seq<byte>)
    requires |b| == 20 && |lower| == 32
    ensures Decodes(Encode(b, lower), r) <==> r == b
  {
    CharactersAreDigits(EncodeDigits(b), lower);
    EncodeValue(b);
    hide Digits, Digit32, EncodeDigits, Value;
    if Decodes(Encode(b, lower), r) {
      ValueUnique(Bytes(r), Bytes(b), 256);
      assert forall i | 0 <= i < 20 :: r[i] == Bytes(r)[i] as byte;
    }
  }

  // ----- Normalising ----------------------------------------------------------------------

  function HexDigit(v: nat): (c: byte)
    requires v < 16
  {
    if v < 10 then v + 48 else v + 87
  }

  /** Lowercase hex of some bytes. */
  function Hex(b: seq<byte>): (s: Text)
    ensures |s| == 2 * |b|
  {
    if b == [] then [] else Hex(b[..|b| - 1]) + [HexDigit(b[|b| - 1] / 16), HexDigit(b[|b| - 1] % 16)]
  }

  predicate IsHex(c: byte) {
    48 <= c <= 57 || 65 <= c <= 70 || 97 <= c <= 102
  }

  function ToLower(c: byte): byte {
    if 65 <= c <= 90 then c + 32 else c
  }

  function Lowered(s: Text): (r: Text)
    ensures |r| == |s| && forall i | 0 <= i < |s| :: r[i] == ToLower(s[i])
  {
    seq(|s|, i requires 0 <= i < |s| => ToLower(s[i]))
  }

  ghost predicate AllHex(s: Text) {
    forall i | 0 <= i < |s| :: IsHex(s[i])
  }

  /** The value of a hex character, in either case. */
  function HexValue(c: byte): (v: nat)
    requires IsHex(c)
    ensures v < 16
  {
    if c <= 57 then c - 48 else if c <= 70 then c - 55 else c - 87
  }

  ghost function HexValues(s: Text): (d: seq<nat>)
    requires AllHex(s)
    ensures |d| == |s| && forall i | 0 <= i < |s| :: d[i] == HexValue(s[i])
  {
    seq(|s|, i requires 0 <= i < |s| => HexValue(s[i]))
  }

  /** The 160-bit number that an info-hash parameter spells, in hex or in base32. */
  ghost function Spelled(s: Text): Option<nat> {
    if |s| == 40 && AllHex(s) then Some(Value(HexValues(s), 16))
    else if |s| == 32 && AllDigits(s) then Some(Value(Digits(s), 32))
    else None
  }

  /** Forty lowercase hex digits. */
  ghost predicate Canonical(s: Text) {
    |s| == 40 && forall i | 0 <= i < 40 :: 48 <= s[i] <= 57 || 97 <= s[i] <= 102
  }

  /** The canonical spelling of what an info-hash parameter spells, or nothing when it is malformed. */
  ghost predicate Normal(s: Text, r: Option<Text>) {
    match Spelled(s)
    case None => r == None
    case Some(n) => r.Some? && Canonical(r.value) && Spelled(r.value) == Some(n)
  }

  method Normalize(s: Text) returns (r: Option<Text>)
    ensures Normal(s, r)
  {
    hide Value, Digits, Digit32, Bytes, Hex;
    if |s| == 40 && forall i | 0 <= i < |s| :: IsHex(s[i]) {
      LoweredSpells(s);
      return Some(Lowered(s));
    }
    if |s| == 32 {
      var bytes := Base32Decode(s);
      if bytes.Some? {
        HexSpells(bytes.value);
        HexIsCanonical(bytes.value);
        return Some(Hex(bytes.value));
      }
    }
    return None;
  }

  /** Case does not matter. */
  lemma LoweredSpells(s: Text)
    requires AllHex(s)
    ensures AllHex(Lowered(s)) && Value(HexValues(Lowered(s)), 16) == Value(HexValues(s), 16)
    ensures |s| == 40 ==> Canonical(Lowered(s))
  {
    forall i | 0 <= i < |s| ensures IsHex(Lowered(s)[i]) && HexValue(Lowered(s)[i]) == HexValue(s[i]) { }
    assert HexValues(Lowered(s)) == HexValues(s);
  }

  /** The hex of some bytes spells the number that the bytes spell. */
  lemma {:induction false} HexSpells(b: seq<byte>)
    ensures AllHex(Hex(b)) && Value(HexValues(Hex(b)), 16) == Value(Bytes(b), 256)
  {
    if b != [] {
      var front, last := b[..|b| - 1], b[|b| - 1];
      HexSpells(front);
      var high, low := last as int / 16, last as int % 16;
      assert HexValues(Hex(b)) == HexValues(Hex(front)) + [high] + [low];
      assert Bytes(b) == Bytes(front) + [last as int];
      ValueAppend(HexValues(Hex(front)), high, 16);
      ValueAppend(HexValues(Hex(front)) + [high], low, 16);
      ValueAppend(Bytes(front), last as int, 256);
    }
  }

  lemma {:induction false} HexIsCanonical(b: seq<byte>)
    ensures forall i | 0 <= i < |Hex(b)| :: 48 <= Hex(b)[i] <= 57 || 97 <= Hex(b)[i] <= 102
    ensures |b| == 20 ==> Canonical(Hex(b))
  {
    if b != [] {
      HexIsCanonical(b[..|b| - 1]);
    }
  }

  /** A number has at most one canonical spelling. */
  lemma CanonicalUnique(s: Text, t: Text)
    requires Canonical(s) && Canonical(t) && Spelled(s) == Spelled(t)
    ensures s == t
  {
    ValueUnique(HexValues(s), HexValues(t), 16);
    forall i | 0 <= i < 40 ensures s[i] == t[i] {
      assert HexValue(s[i]) == HexValues(s)[i] == HexValues(t)[i] == HexValue(t[i]);
    }
  }

  lemma EncodeSpells(b: seq<byte>, lower: seq<bool>)
    requires |b| == 20 && |lower| == 32
    ensures Spelled(Encode(b, lower)) == Some(Value(Bytes(b), 256))
  {
    hide AllHex, AllDigits, Digits, Digit32, EncodeDigits, Value, Bytes, Characters;
    CharactersAreDigits(EncodeDigits(b), lower);
    EncodeValue(b);
  }

  lemma HexSpelled(b: seq<byte>)
    requires |b| == 20
    ensures Canonical(Hex(b)) && Spelled(Hex(b)) == Some(Value(Bytes(b), 256))
  {
    hide AllHex, AllDigits, HexValues, Digits, Value, Hex, Bytes, Canonical;
    HexSpells(b);
    HexIsCanonical(b);
  }

  lemma AnyCaseSpells(hex: Text, b: seq<byte>)
    requires |b| == 20 && Lowered(hex) == Hex(b)
    ensures Spelled(hex) == Spelled(Hex(b))
  {
    hide Value, Digits, Digit32, HexValues, HexValue, Hex;
    HexIsCanonical(b);
    assert AllHex(hex) by {
      forall i | 0 <= i < |hex| ensures IsHex(hex[i]) {
        assert IsHex(Hex(b)[i]) && Hex(b)[i] == ToLower(hex[i]);
      }
    }
    LoweredSpells(hex);
  }

  /** Every spelling of one info-hash, hex or base32, in any mix of cases, has one canonical form: the
      one that spells the number its bytes spell. */
  lemma SpellingsAgree(b: seq<byte>, lower: seq<bool>, hex: Text, r: Option<Text>)
    requires |b| == 20 && |lower| == 32 && Lowered(hex) == Hex(b)
    ensures Spelled(Hex(b)) == Some(Value(Bytes(b), 256))
    ensures Normal(Encode(b, lower), r) <==> r == Some(Hex(b))
    ensures Normal(hex, r) <==> r == Some(Hex(b))
  {
    hide Spelled, Canonical, Value, Hex, Bytes, Encode, Lowered;
    EncodeSpells(b, lower);
    HexSpelled(b);
    AnyCaseSpells(hex, b);
    if r.Some? && Canonical(r.value) && Spelled(r.value) == Spelled(Hex(b)) {
      CanonicalUnique(r.value, Hex(b));
    }
  }
}
