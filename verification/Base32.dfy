/**
 Base 32 secrets: the encoder, whose accumulator is a 32-bit register that is never masked, and
 the decoder, which computes exactly.  Both are specified by what they mean as numbers written
 in base 256 and base 32, and they undo each other.
 */
module Base32 {
  import opened Results
  import opened Strings

  type Byte = b: int | 0 <= b < 256

  // ---------------------------------------------------------------------------------------
  // Numbers as digit sequences
  // ---------------------------------------------------------------------------------------

  /** The number that the digits write in the given base, most significant first. */
  ghost function Value(ds: seq<int>, base: nat): int {
    if ds == [] then 0 else base * Value(ds[..|ds| - 1], base) + ds[|ds| - 1]
  }

  ghost predicate AreDigits(ds: seq<int>, base: nat) {
    forall i :: 0 <= i < |ds| ==> 0 <= ds[i] < base
  }

  lemma DivideBack(v: int, d: nat, base: nat)
    requires d < base
    ensures (base * v + d) / base == v && (base * v + d) % base == d
  {
    var x := base * v + d;
    var q := x / base;
    assert x == base * q + x % base;
    assert base * (q - v) == d - x % base;
    SmallMultiple(q - v, base);
  }

  lemma SmallMultiple(k: int, base: nat)
    requires base * k < base && base * -k < base
    ensures k == 0
  {
    if k >= 1 {
      MultiplyUp(1, k, base);
    } else if k <= -1 {
      MultiplyUp(k, -1, base);
    }
  }

  lemma MultiplyUp(a: int, b: int, base: nat)
    requires a <= b
    ensures base * a <= base * b
  {
  }

  /** Digits of a given number and length are unique. */
  lemma {:induction false} DigitsAreUnique(a: seq<int>, b: seq<int>, base: nat)
    requires AreDigits(a, base) && AreDigits(b, base) && |a| == |b| && Value(a, base) == Value(b, base)
    ensures a == b
  {
    if a != [] {
      var n := |a| - 1;
      var va, vb := Value(a[..n], base), Value(b[..n], base);
      assert base * (va - vb) == b[n] - a[n] by {
        assert base * (va - vb) == base * va - base * vb;
      }
      assert base * -(va - vb) == a[n] - b[n];
      SmallMultiple(va - vb, base);
      DigitsAreUnique(a[..n], b[..n], base);
      assert a == a[..n] + [a[n]] && b == b[..n] + [b[n]];
    }
  }

  lemma ValueAppend(ds: seq<int>, d: int, base: nat)
    ensures Value(ds + [d], base) == base * Value(ds, base) + d
  {
    assert (ds + [d])[..|ds|] == ds;
  }

  function Pow2(n: nat): (p: nat)
    ensures p > 0
  {
    if n == 0 then 1 else 2 * Pow2(n - 1)
  }

  lemma SmallPowers()
    ensures Pow2(0) == 1 && Pow2(1) == 2 && Pow2(2) == 4 && Pow2(3) == 8 && Pow2(4) == 16 && Pow2(5) == 32 && Pow2(6) == 64
    ensures Pow2(7) == 128 && Pow2(8) == 256 && Pow2(9) == 512 && Pow2(10) == 1024 && Pow2(11) == 2048 && Pow2(12) == 4096
  {
    assert Pow2(4) == 16;
    assert Pow2(8) == 256;
  }

  // ---------------------------------------------------------------------------------------
  // The encoder
  // ---------------------------------------------------------------------------------------

  function Letter(d: int): (c: char)
    requires 0 <= d < 32
    ensures IsLetter(c) && IndexOf(c) == d
  {
    if d < 26 then 'A' + d as char else '2' + (d - 26) as char
  }

  predicate IsLetter(c: char) {
    'A' <= c <= 'Z' || '2' <= c <= '7'
  }

  function IndexOf(c: char): (d: int)
    requires IsLetter(c)
    ensures 0 <= d < 32
  {
    if 'A' <= c <= 'Z' then c as int - 'A' as int else 26 + (c as int - '2' as int)
  }

  function Indices(s: string): (ds: seq<int>)
    requires forall i :: 0 <= i < |s| ==> IsLetter(s[i])
    ensures |ds| == |s| && forall i :: 0 <= i < |s| ==> ds[i] == IndexOf(s[i])
  {
    if s == [] then [] else Indices(s[..|s| - 1]) + [IndexOf(s[|s| - 1])]
  }

  /** Zero bits that fill the last group of five. */
  function Padding(n: nat): (p: nat)
    ensures p < 5 && (8 * n + p) % 5 == 0
  {
    (5 - 8 * n % 5) % 5
  }

  /**
   What base 32 means: the letters are the digits of the bytes' number, shifted left by the
   padding, with one letter for every five bits.
   */
  ghost predicate Encodes(s: string, bytes: seq<Byte>) {
    && (forall i :: 0 <= i < |s| ==> IsLetter(s[i]))
    && 5 * |s| == 8 * |bytes| + Padding(|bytes|)
    && Value(Indices(s), 32) == Value(bytes, 256) * Pow2(Padding(|bytes|))
  }

  /**
   The state after reading bytes whose number is n: the digits so far, and the rest of n in the
   low bits of the register.  The register may hold anything, k, above those bits.
   */
  ghost predicate EncoderState(n: int, digits: seq<int>, value: int, bits: nat, k: int) {
    && AreDigits(digits, 32)
    && Value(digits, 32) >= 0
    && 0 <= n - Value(digits, 32) * Pow2(bits) < Pow2(bits)
    && value == k * Pow2(bits) + (n - Value(digits, 32) * Pow2(bits))
  }

  lemma PowSplit(bits: nat, part: nat)
    requires part <= bits
    ensures Pow2(bits) == Pow2(part) * Pow2(bits - part)
    decreases part
  {
    if part > 0 {
      PowSplit(bits - 1, part - 1);
    }
  }

  /** What (value << 8) | byte leaves in a 32-bit register. */
  function ShiftByte(value: int, byte: Byte): int {
    (value * 256 + byte) % 0x1_0000_0000
  }

  /** Shifting a byte in: whatever the wrap-around drops lies above the pending bits. */
  lemma ShiftIn(n: int, digits: seq<int>, value: int, bits: nat, k: int, byte: Byte) returns (k': int)
    requires EncoderState(n, digits, value, bits, k) && bits < 5
    ensures EncoderState(256 * n + byte, digits, ShiftByte(value, byte), bits + 8, k')
  {
    hide Value, AreDigits, ShiftByte, Pow2;
    var m, v, r := Pow2(bits), Value(digits, 32), n - Value(digits, 32) * Pow2(bits);
    SmallPowers();
    PowSplit(bits + 8, 8);
    var c := if bits == 0 then 0x100_0000 else if bits == 1 then 0x80_0000 else if bits == 2 then 0x40_0000 else if bits == 3 then 0x20_0000 else 0x10_0000;
    k' := ShiftRegister(value, k, r, m, c, byte);
    assert v * (256 * m) == 256 * (v * m);
    StateFrom(256 * n + byte, digits, ShiftByte(value, byte), bits + 8, k', 256 * m, 256 * r + byte);
  }

  lemma StateFrom(n: int, digits: seq<int>, value: int, bits: nat, k: int, m: nat, low: int)
    requires AreDigits(digits, 32) && Value(digits, 32) >= 0 && m == Pow2(bits)
    requires n == Value(digits, 32) * m + low && 0 <= low < m && value == k * m + low
    ensures EncoderState(n, digits, value, bits, k)
  {
  }

  lemma ShiftRegister(value: int, k: int, r: int, m: nat, c: nat, byte: Byte) returns (k': int)
    requires value == k * m + r && 256 * m * c == 0x1_0000_0000
    ensures ShiftByte(value, byte) == k' * (256 * m) + (256 * r + byte)
  {
    var dropped := (value * 256 + byte) / 0x1_0000_0000;
    k' := k - dropped * c;
    assert ShiftByte(value, byte) == value * 256 + byte - dropped * 0x1_0000_0000;
    assert dropped * (256 * m * c) == (dropped * c) * (256 * m);
    assert (k * m) * 256 == k * (256 * m);
    assert (k - dropped * c) * (256 * m) == k * (256 * m) - (dropped * c) * (256 * m);
  }

  lemma TakeDigit(n: int, digits: seq<int>, value: int, bits: nat, k: int) returns (k': int)
    requires EncoderState(n, digits, value, bits, k) && 5 <= bits
    ensures EncoderState(n, digits + [(value / Pow2(bits - 5)) % 32], value, bits - 5, k')
  {
    hide Value, Pow2;
    var m, v, r := Pow2(bits - 5), Value(digits, 32), n - Value(digits, 32) * Pow2(bits);
    SmallPowers();
    PowSplit(bits, 5);
    var d := (value / m) % 32;
    var s;
    s, k' := SplitRegister(value, k, r, m);
    ValueAppend(digits, d, 32);
    DigitMovesUp(v, d, m);
    hide EncoderState;
    StateFrom(n, digits + [d], value, bits - 5, k', m, s);
  }

  lemma DigitMovesUp(v: int, d: int, m: int)
    ensures (32 * v + d) * m == v * (32 * m) + d * m
  {
  }

  /** The digit above the low bits m of the register is the digit above the low bits of the pending r. */
  lemma SplitRegister(value: int, k: int, r: int, m: nat) returns (s: int, k': int)
    requires m > 0 && 0 <= r < 32 * m && value == k * (32 * m) + r
    ensures (value / m) % 32 >= 0
    ensures r == (value / m) % 32 * m + s && 0 <= s < m && value == k' * m + s
  {
    var q := r / m;
    s := r % m;
    k' := 32 * k + q;
    QuotientAndRest(r, m);
    QuotientBelow(r, m);
    Regroup(k, q, m);
    RegisterDigit(k, q, m, s);
  }

  lemma RegisterDigit(k: int, q: int, m: nat, s: nat)
    requires 0 <= q < 32 && s < m
    ensures (k * (32 * m) + (m * q + s)) / m % 32 == q
    ensures k * (32 * m) + (m * q + s) == (32 * k + q) * m + s
  {
    Regroup(k, q, m);
    DivideBack(32 * k + q, s, m);
    LowDigit(k, q);
  }

  lemma LowDigit(k: int, q: int)
    requires 0 <= q < 32
    ensures (32 * k + q) % 32 == q
  {
  }

  lemma Regroup(k: int, q: int, m: int)
    ensures m * (32 * k + q) == k * (32 * m) + m * q
  {
  }

  lemma QuotientAndRest(r: int, m: nat)
    requires m > 0
    ensures r == m * (r / m) + r % m && 0 <= r % m < m
  {
  }

  lemma QuotientBelow(r: int, m: nat)
    requires m > 0 && 0 <= r < 32 * m
    ensures 0 <= r / m < 32
  {
    var q := r / m;
    if q >= 32 {
      MultiplyUp(32, q, m);
    }
  }

  lemma LastDigit(n: int, digits: seq<int>, value: int, bits: nat, k: int)
    requires EncoderState(n, digits, value, bits, k) && 0 < bits < 5
    ensures Value(digits + [value * Pow2(5 - bits) % 0x1_0000_0000 % 32], 32) == n * Pow2(5 - bits)
  {
    hide Value;
    var m, p, v, r := Pow2(bits), Pow2(5 - bits), Value(digits, 32), n - Value(digits, 32) * Pow2(bits);
    SmallPowers();
    PowSplit(5, bits);
    ShiftOut(value, k, r, m, p);
    ValueAppend(digits, r * p, 32);
    assert n * p == v * 32 + r * p by {
      assert (v * m + r) * p == v * (m * p) + r * p;
    }
  }

  lemma ShiftOut(value: int, k: int, r: int, m: nat, p: nat)
    requires m * p == 32 && 0 <= r < m && value == k * m + r
    ensures value * p % 0x1_0000_0000 % 32 == r * p
  {
    assert value * p == k * (m * p) + r * p;
    MultiplyUp(r, m - 1, p);
    assert p * (m - 1) == m * p - p;
    LowBits(k, r * p);
  }

  lemma LowBits(k: int, d: int)
    requires 0 <= d < 32
    ensures (32 * k + d) % 0x1_0000_0000 % 32 == d
  {
  }

  // ---------------------------------------------------------------------------------------
  // Encoding
  // ---------------------------------------------------------------------------------------

  ghost predicate Spells(output: string, digits: seq<int>) {
    |output| == |digits| && forall j :: 0 <= j < |digits| ==> IsLetter(output[j]) && IndexOf(output[j]) == digits[j]
  }

  method EncodeBase32(bytes: seq<Byte>) returns (output: string)
    ensures Encodes(output, bytes)
  {
    hide Value, Pow2, EncoderState, Letter, IndexOf, ShiftByte;
    var bits: nat := 0;
    var value := 0;
    output := [];
    ghost var k := 0;
    ghost var digits: seq<int> := [];
    EmptyState();
    for i := 0 to |bytes|
      invariant Spells(output, digits)
      invariant 5 * |output| + bits == 8 * i && bits < 5
      invariant EncoderState(Value(bytes[..i], 256), digits, value, bits, k)
    {
      ghost var n := Value(bytes[..i + 1], 256);
      assert bytes[..i + 1] == bytes[..i] + [bytes[i]];
      ValueAppend(bytes[..i], bytes[i], 256);
      k := ShiftIn(Value(bytes[..i], 256), digits, value, bits, k, bytes[i]);
      value := ShiftByte(value, bytes[i]);
      bits := bits + 8;
      while bits >= 5
        invariant Spells(output, digits)
        invariant 5 * |output| + bits == 8 * (i + 1)
        invariant EncoderState(n, digits, value, bits, k)
      {
        var digit := (value / Pow2(bits - 5)) % 32;
        k := TakeDigit(n, digits, value, bits, k);
        bits := bits - 5;
        output := output + [Letter(digit)];
        digits := digits + [digit];
      }
    }
    assert bytes[..|bytes|] == bytes;
    ghost var n := Value(bytes, 256);
    PaddingIs(|bytes|, |output|, bits);
    if bits > 0 {
      var digit := value * Pow2(5 - bits) % 0x1_0000_0000 % 32;
      LastDigit(n, digits, value, bits, k);
      output := output + [Letter(digit)];
      digits := digits + [digit];
    } else {
      NothingPending(n, digits, value, k);
    }
    assert Indices(output) == digits;
  }

  lemma PaddingIs(n: nat, letters: nat, bits: nat)
    requires 5 * letters + bits == 8 * n && bits < 5
    ensures Padding(n) == if bits == 0 then 0 else 5 - bits
  {
  }

  lemma EmptyState()
    ensures EncoderState(Value([], 256), [], 0, 0, 0)
  {
  }

  lemma NothingPending(n: int, digits: seq<int>, value: int, k: int)
    requires EncoderState(n, digits, value, 0, k)
    ensures Value(digits, 32) == n * Pow2(0)
  {
  }

  // ---------------------------------------------------------------------------------------
  // Decoding
  // ---------------------------------------------------------------------------------------

  datatype SecretError = InvalidSecret | SecretTooShort

  predicate AllLetters(s: string) {
    forall i :: 0 <= i < |s| ==> IsLetter(s[i])
  }

  /** The characters that decoding skips. */
  predicate IsSkipped(c: char) {
    IsSpace(c) || c == '=' || c == '-'
  }

  function Strip(s: string): string {
    if s == [] then [] else (if IsSkipped(s[0]) then [] else [s[0]]) + Strip(s[1..])
  }

  /** bytes are the whole bytes in the bit string that the letters write; fewer than eight bits are left over. */
  ghost predicate Decodes(bytes: seq<Byte>, s: string)
    requires AllLetters(s)
  {
    && |bytes| == 5 * |s| / 8
    && 0 <= Value(Indices(s), 32) - Value(bytes, 256) * Pow2(5 * |s| % 8) < Pow2(5 * |s| % 8)
  }

  /** What decoding a text means, given what upper-casing makes of it. */
  ghost predicate DecodingOf(value: string, upper: string -> string, r: Result<seq<Byte>, SecretError>) {
    var normalized := upper(Strip(value));
    if normalized == [] || |normalized| > 128 || !AllLetters(normalized) then r == Err(InvalidSecret)
    else if 5 * |normalized| / 8 < 10 then r == Err(SecretTooShort)
    else r.Ok? && Decodes(r.value, normalized)
  }

  ghost predicate DecoderState(m: int, bytes: seq<Byte>, buffer: int, bits: nat) {
    m == Value(bytes, 256) * Pow2(bits) + buffer && 0 <= buffer < Pow2(bits)
  }

  lemma ReadLetter(m: int, bytes: seq<Byte>, buffer: int, bits: nat, d: int)
    requires DecoderState(m, bytes, buffer, bits) && 0 <= d < 32
    ensures DecoderState(32 * m + d, bytes, buffer * 32 + d, bits + 5)
  {
    hide Value;
    SmallPowers();
    PowSplit(bits + 5, 5);
    assert Value(bytes, 256) * (32 * Pow2(bits)) == 32 * (Value(bytes, 256) * Pow2(bits));
  }

  lemma PushByte(m: int, bytes: seq<Byte>, buffer: int, bits: nat)
    requires DecoderState(m, bytes, buffer, bits) && 8 <= bits
    ensures 0 <= buffer / Pow2(bits - 8) < 256
    ensures DecoderState(m, bytes + [buffer / Pow2(bits - 8) % 256], buffer % Pow2(bits - 8), bits - 8)
  {
    hide Value;
    SmallPowers();
    PowSplit(bits, 8);
    var p, v := Pow2(bits - 8), Value(bytes, 256);
    QuotientAndRest(buffer, p);
    var q := buffer / p;
    if q >= 256 {
      MultiplyUp(256, q, p);
    }
    if q < 0 {
      MultiplyUp(q, -1, p);
    }
    assert q % 256 == q;
    ValueAppend(bytes, q, 256);
    assert v * (256 * p) + p * q == (256 * v + q) * p;
  }

  method DecodeBase32(value: string, upper: string -> string) returns (r: Result<seq<Byte>, SecretError>)
    ensures DecodingOf(value, upper, r)
  {
    hide Value, Pow2, DecoderState, Strip, IndexOf, IsSkipped;
    var normalized := upper(Strip(value));
    if normalized == [] || |normalized| > 128 || !AllLetters(normalized) {
      return Err(InvalidSecret);
    }
    var bits: nat := 0;
    var buffer := 0;
    var bytes: seq<Byte> := [];
    ghost var digits := Indices(normalized);
    EmptyDecoder();
    for i := 0 to |normalized|
      invariant 8 * |bytes| + bits == 5 * i && bits < 8
      invariant DecoderState(Value(digits[..i], 32), bytes, buffer, bits)
    {
      assert digits[..i + 1] == digits[..i] + [digits[i]];
      ValueAppend(digits[..i], digits[i], 32);
      ReadLetter(Value(digits[..i], 32), bytes, buffer, bits, IndexOf(normalized[i]));
      buffer := buffer * 32 + IndexOf(normalized[i]);
      bits := bits + 5;
      if bits >= 8 {
        PushByte(Value(digits[..i + 1], 32), bytes, buffer, bits);
        bits := bits - 8;
        bytes := bytes + [buffer / Pow2(bits) % 256];
        buffer := buffer % Pow2(bits);
      }
    }
    assert digits[..|digits|] == digits;
    if |bytes| < 10 {
      return Err(SecretTooShort);
    }
    DecoderDone(normalized, bytes, buffer, bits);
    return Ok(bytes);
  }

  lemma EmptyDecoder()
    ensures DecoderState(Value([], 32), [], 0, 0)
  {
  }

  lemma DecoderDone(s: string, bytes: seq<Byte>, buffer: int, bits: nat)
    requires AllLetters(s) && 8 * |bytes| + bits == 5 * |s| && bits < 8
    requires DecoderState(Value(Indices(s), 32), bytes, buffer, bits)
    ensures Decodes(bytes, s)
  {
    hide Value, Pow2;
    assert 5 * |s| / 8 == |bytes| && 5 * |s| % 8 == bits;
  }

  // ---------------------------------------------------------------------------------------
  // The two undo each other
  // ---------------------------------------------------------------------------------------

  lemma {:induction false} NothingToStrip(s: string)
    requires AllLetters(s)
    ensures Strip(s) == s
  {
    if s != [] {
      NothingToStrip(s[1..]);
    }
  }

  /** Decoding an encoding gives the bytes back. */
  lemma DecodeUndoesEncode(bytes: seq<Byte>, s: string, decoded: seq<Byte>)
    requires Encodes(s, bytes) && Decodes(decoded, s)
    ensures decoded == bytes
  {
    hide Value, Pow2;
    var p := Padding(|bytes|);
    var m := Pow2(p);
    assert 5 * |s| % 8 == p && 5 * |s| / 8 == |bytes|;
    var a, b := Value(bytes, 256), Value(decoded, 256);
    assert m * (a - b) == a * m - b * m;
    assert m * -(a - b) == -(a * m - b * m);
    SmallMultiple(a - b, m);
    DigitsAreUnique(bytes, decoded, 256);
  }

  /** The round trip succeeds for every byte string of 10 to 80 bytes, and for no other. */
  lemma RoundTrip(bytes: seq<Byte>, s: string, upper: string -> string, r: Result<seq<Byte>, SecretError>)
    requires Encodes(s, bytes) && DecodingOf(s, upper, r)
    requires forall t: string :: AllLetters(t) ==> upper(t) == t
    ensures r == Ok(bytes) <==> 10 <= |bytes| <= 80
  {
    hide Value, Pow2, Decodes, IndexOf;
    NothingToStrip(s);
    assert AllLetters(s);
    if r.Ok? {
      DecodeUndoesEncode(bytes, s, r.value);
    }
  }
}
