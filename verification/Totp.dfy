/** Time-based one-time codes: the truncation of the keyed digest and the window search of the verifier. */
module Totp {
  import opened Results
  import opened Base32

  /** The keyed digest of a message; SHA-1 in HMAC in the program. */
  type Hmac = (seq<Byte>, seq<Byte>) -> seq<Byte>

  function Pow10(n: nat): (p: nat)
    ensures p > 0
  {
    if n == 0 then 1 else 10 * Pow10(n - 1)
  }

  /** The counter as n big-endian bytes. */
  function BigEndian(x: nat, n: nat): (r: seq<Byte>)
    ensures |r| == n
  {
    if n == 0 then [] else BigEndian(x / 256, n - 1) + [x % 256]
  }

  function ByteAt(digest: seq<Byte>, i: nat): Byte {
    if i < |digest| then digest[i] else 0
  }

  /** Dynamic truncation: 31 bits of the digest, at the offset that its last four bits name. */
  function Truncate(digest: seq<Byte>): (binary: nat)
    ensures binary < 0x8000_0000
  {
    var offset := (if |digest| > 0 then digest[|digest| - 1] else 0) % 16;
    ByteAt(digest, offset) % 128 * 0x100_0000 + ByteAt(digest, offset + 1) * 0x1_0000 + ByteAt(digest, offset + 2) * 0x100 + ByteAt(digest, offset + 3)
  }

  function Pow256(n: nat): nat {
    if n == 0 then 1 else 256 * Pow256(n - 1)
  }

  /** The bytes are the counter's digits in base 256, the highest first. */
  lemma {:induction false} BigEndianWrites(x: nat, n: nat)
    requires x < Pow256(n)
    ensures Value(BigEndian(x, n), 256) == x
  {
    if n > 0 {
      BigEndianWrites(x / 256, n - 1);
      ValueAppend(BigEndian(x / 256, n - 1), x % 256, 256);
    } else {
      assert BigEndian(x, 0) == [];
    }
  }

  /** The message that is digested is the step as an unsigned 64-bit number. */
  lemma MessageIsCounter(counter: nat)
    requires counter < 0x1_0000_0000_0000_0000
    ensures |BigEndian(counter, 8)| == 8 && Value(BigEndian(counter, 8), 256) == counter
  {
    assert Pow256(4) == 0x1_0000_0000;
    assert Pow256(8) == 0x1_0000_0000_0000_0000;
    BigEndianWrites(counter, 8);
  }

  /** Four bytes of the digest, at the offset that its last four bits name, without their highest bit. */
  lemma TruncatesToBits(digest: seq<Byte>)
    requires |digest| >= 20
    ensures var offset := digest[|digest| - 1] % 16;
      Truncate(digest) == Value(digest[offset..offset + 4], 256) % 0x8000_0000
  {
    var offset := digest[|digest| - 1] % 16;
    var a, b, c, d := digest[offset], digest[offset + 1], digest[offset + 2], digest[offset + 3];
    assert digest[offset..offset + 4] == [] + [a] + [b] + [c] + [d];
    FourBytes(a, b, c, d);
  }

  lemma FourBytes(a: Byte, b: Byte, c: Byte, d: Byte)
    ensures Value([] + [a] + [b] + [c] + [d], 256) == a * 0x100_0000 + b * 0x1_0000 + c * 0x100 + d
    ensures (a * 0x100_0000 + b * 0x1_0000 + c * 0x100 + d) % 0x8000_0000 == a % 128 * 0x100_0000 + b * 0x1_0000 + c * 0x100 + d
  {
    ValueAppend([], a, 256);
    ValueAppend([] + [a], b, 256);
    ValueAppend([] + [a] + [b], c, 256);
    ValueAppend([] + [a] + [b] + [c], d, 256);
    hide Value;
    var low := a % 128 * 0x100_0000 + b * 0x1_0000 + c * 0x100 + d;
    assert a == a / 128 * 128 + a % 128;
    assert a * 0x100_0000 + b * 0x1_0000 + c * 0x100 + d == a / 128 * 0x8000_0000 + low;
  }

  /** The example of section 5.4 of RFC 4226: offset 10 and 0x50ef7f19. */
  lemma PublishedExample()
    ensures Truncate([0x1f, 0x86, 0x98, 0x69, 0x0e, 0x02, 0xca, 0x16, 0x61, 0x85, 0x50, 0xef, 0x7f, 0x19, 0xda, 0x8e, 0x94, 0x5b, 0x55, 0x5a]) == 0x50ef7f19
    ensures 0x50ef7f19 % 1000000 == 872921
  {
  }

  predicate IsDigit(c: char) {
    '0' <= c <= '9'
  }

  function Decimal(n: nat): (s: string)
    ensures s != [] && forall i :: 0 <= i < |s| ==> IsDigit(s[i])
  {
    if n < 10 then ['0' + n as char] else Decimal(n / 10) + ['0' + (n % 10) as char]
  }

  function PadStart(s: string, length: nat): string
    decreases length - |s|
  {
    if |s| < length then PadStart(['0'] + s, length) else s
  }

  function GenerateTotp(hmac: Hmac, secret: seq<Byte>, counter: nat, digits: nat): string {
    PadStart(Decimal(Truncate(hmac(secret, BigEndian(counter, 8))) % Pow10(digits)), digits)
  }

  function Number(s: string): int {
    if s == [] then 0 else 10 * Number(s[..|s| - 1]) + (s[|s| - 1] as int - '0' as int)
  }

  predicate WellFormedCode(code: string, digits: nat) {
    |code| == digits && forall i :: 0 <= i < |code| ==> IsDigit(code[i])
  }

  lemma {:induction false} DecimalWrites(n: nat, digits: nat)
    requires digits > 0 && n < Pow10(digits)
    ensures Number(Decimal(n)) == n && |Decimal(n)| <= digits
  {
    if n < 10 {
      assert Decimal(n)[..0] == [];
    } else {
      DecimalWrites(n / 10, digits - 1);
      assert Decimal(n)[..|Decimal(n)| - 1] == Decimal(n / 10);
    }
  }

  lemma {:induction false} LeadingZero(s: string)
    ensures Number(['0'] + s) == Number(s)
  {
    if s != [] {
      LeadingZero(s[..|s| - 1]);
      assert (['0'] + s)[..|s|] == ['0'] + s[..|s| - 1];
    } else {
      assert (['0'] + s)[..0] == [];
    }
  }

  lemma {:induction false} PaddingKeepsNumber(s: string, length: nat)
    requires |s| <= length && forall i :: 0 <= i < |s| ==> IsDigit(s[i])
    ensures WellFormedCode(PadStart(s, length), length) && Number(PadStart(s, length)) == Number(s)
    decreases length - |s|
  {
    if |s| < length {
      LeadingZero(s);
      PaddingKeepsNumber(['0'] + s, length);
    }
  }

  lemma CodeOfNumber(x: nat, digits: nat)
    requires digits > 0
    ensures x % Pow10(digits) < Pow10(digits)
    ensures WellFormedCode(PadStart(Decimal(x % Pow10(digits)), digits), digits)
    ensures Number(PadStart(Decimal(x % Pow10(digits)), digits)) == x % Pow10(digits)
  {
    hide Pow10;
    DecimalWrites(x % Pow10(digits), digits);
    PaddingKeepsNumber(Decimal(x % Pow10(digits)), digits);
  }

  /** A generated code has exactly the asked-for digits and writes the truncated digest modulo their power. */
  lemma GeneratedCode(hmac: Hmac, secret: seq<Byte>, counter: nat, digits: nat)
    requires digits > 0
    ensures WellFormedCode(GenerateTotp(hmac, secret, counter, digits), digits)
    ensures Number(GenerateTotp(hmac, secret, counter, digits)) == Truncate(hmac(secret, BigEndian(counter, 8))) % Pow10(digits)
  {
    hide Truncate;
    CodeOfNumber(Truncate(hmac(secret, BigEndian(counter, 8))), digits);
  }

  datatype TotpError = BadPeriod | BadDigits | BadWindow | BadClock | BadSecret(error: SecretError)

  datatype TotpOptions = TotpOptions(secretBase32: string, code: string, nowMs: int, periodSeconds: int, digits: int, window: int)

  predicate GeneratesAt(hmac: Hmac, secret: seq<Byte>, step: int, digits: nat, code: string) {
    step >= 0 && GenerateTotp(hmac, secret, step, digits) == code
  }

  /** Some time step within the window, not before the epoch, generates the code. */
  ghost predicate InWindow(hmac: Hmac, secret: seq<Byte>, counter: int, window: int, digits: nat, code: string) {
    exists step: int :: counter - window <= step <= counter + window && GeneratesAt(hmac, secret, step, digits, code)
  }

  /** What verification answers, given what decoding the secret gives. */
  ghost predicate VerificationOf(hmac: Hmac, o: TotpOptions, decoded: Result<seq<Byte>, SecretError>, r: Result<bool, TotpError>) {
    if o.periodSeconds < 1 then r == Err(BadPeriod)
    else if o.digits < 6 || o.digits > 8 then r == Err(BadDigits)
    else if o.window < 0 || o.window > 10 then r == Err(BadWindow)
    else if o.nowMs < 0 then r == Err(BadClock)
    else if !WellFormedCode(o.code, o.digits) then r == Ok(false)
    else if decoded.Err? then r == Err(BadSecret(decoded.error))
    else r == Ok(InWindow(hmac, decoded.value, o.nowMs / 1000 / o.periodSeconds, o.window, o.digits, o.code))
  }

  method VerifyTotp(hmac: Hmac, upper: string -> string, o: TotpOptions) returns (r: Result<bool, TotpError>)
    ensures exists decoded :: DecodingOf(o.secretBase32, upper, decoded) && VerificationOf(hmac, o, decoded, r)
  {
    hide DecodingOf, GenerateTotp;
    var decoded := DecodeBase32(o.secretBase32, upper);
    r := Search(hmac, o, decoded);
  }

  method Search(hmac: Hmac, o: TotpOptions, decoded: Result<seq<Byte>, SecretError>) returns (r: Result<bool, TotpError>)
    ensures VerificationOf(hmac, o, decoded, r)
  {
    hide GenerateTotp;
    if o.periodSeconds < 1 {
      return Err(BadPeriod);
    }
    if o.digits < 6 || o.digits > 8 {
      return Err(BadDigits);
    }
    if o.window < 0 || o.window > 10 {
      return Err(BadWindow);
    }
    if o.nowMs < 0 {
      return Err(BadClock);
    }
    if !WellFormedCode(o.code, o.digits) {
      return Ok(false);
    }
    if decoded.Err? {
      return Err(BadSecret(decoded.error));
    }
    var found := SearchWindow(hmac, decoded.value, o.nowMs / 1000 / o.periodSeconds, o.window, o.digits, o.code);
    return Ok(found);
  }

  method SearchWindow(hmac: Hmac, secret: seq<Byte>, counter: int, window: int, digits: nat, code: string) returns (found: bool)
    requires window >= 0
    ensures found <==> InWindow(hmac, secret, counter, window, digits, code)
  {
    hide GenerateTotp;
    for offset := 0 - window to window + 1
      invariant forall step: int :: counter - window <= step < counter + offset ==> !GeneratesAt(hmac, secret, step, digits, code)
    {
      if counter + offset < 0 {
        continue;
      }
      if GenerateTotp(hmac, secret, counter + offset, digits) == code {
        assert GeneratesAt(hmac, secret, counter + offset, digits, code);
        return true;
      }
    }
    return false;
  }
}
