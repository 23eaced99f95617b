/** The JavaScript string and number primitives the components rely on:
    `trim`, the `\s` class, `toLowerCase`, `startsWith`, `String(n)`,
    `parseInt(s, 10)`, `parseFloat(s)`, `Math.round` and `toFixed(2)`.
    Numbers are exact (`int`, `real`); NaN is `None`. */
module Text {
  import opened Collections

  /** WhiteSpace and LineTerminator of ECMAScript: what `trim` removes and `\s` matches. */
  predicate IsWhiteSpace(c: char)
  {
    || c == '\t' || c == '\n' || c == '\U{B}' || c == '\U{C}' || c == '\r' || c == ' '
    || c == '\U{A0}' || c == '\U{1680}' || ('\U{2000}' <= c <= '\U{200A}')
    || c == '\U{2028}' || c == '\U{2029}' || c == '\U{202F}' || c == '\U{205F}'
    || c == '\U{3000}' || c == '\U{FEFF}'
  }

  /** A string made only of white space (the empty string included). */
  predicate IsBlank(s: string)
  {
    forall i :: 0 <= i < |s| ==> IsWhiteSpace(s[i])
  }

  function TrimStart(s: string): (r: string)
    ensures |r| <= |s| && r == s[|s| - |r|..]
    ensures r == [] || !IsWhiteSpace(r[0])
    ensures IsBlank(s[..|s| - |r|])
    decreases |s|
  {
    if s != [] && IsWhiteSpace(s[0]) then TrimStart(s[1..]) else s
  }

  function TrimEnd(s: string): (r: string)
    ensures |r| <= |s| && r == s[..|r|]
    ensures r == [] || !IsWhiteSpace(r[|r| - 1])
    ensures IsBlank(s[|r|..])
    decreases |s|
  {
    if s != [] && IsWhiteSpace(s[|s| - 1]) then TrimEnd(s[..|s| - 1]) else s
  }

  /** `s.trim()`. */
  function Trim(s: string): string
  {
    TrimEnd(TrimStart(s))
  }

  /** `!s.trim()` holds exactly for the blank strings. */
  lemma TrimEmptyIffBlank(s: string)
    ensures Trim(s) == [] <==> IsBlank(s)
  {
    var t := TrimStart(s);
    if Trim(s) == [] {
      assert IsBlank(t[0..]);
      assert t == [];
      assert s[..|s|] == s;
    } else {
      assert t[0] == s[|s| - |t|];
    }
  }

  predicate IsAsciiUpper(c: char) { 'A' <= c <= 'Z' }

  function LowerChar(c: char): char
  {
    if IsAsciiUpper(c) then (c as int + 32) as char else c
  }

  /** `s.toLowerCase()` on the ASCII letters. */
  function ToLower(s: string): (r: string)
    ensures |r| == |s|
    ensures forall i :: 0 <= i < |s| ==> r[i] == LowerChar(s[i])
  {
    seq(|s|, i requires 0 <= i < |s| => LowerChar(s[i]))
  }

  /** `s.startsWith(prefix)`. */
  predicate StartsWith(s: string, prefix: string)
  {
    |prefix| <= |s| && s[..|prefix|] == prefix
  }

  predicate IsDigit(c: char) { '0' <= c <= '9' }

  predicate AllDigits(s: string)
  {
    forall i :: 0 <= i < |s| ==> IsDigit(s[i])
  }

  function DigitChar(d: nat): (c: char)
    requires d < 10
    ensures IsDigit(c) && c as int - '0' as int == d
  {
    ('0' as int + d) as char
  }

  function DigitValue(c: char): (d: nat)
    requires IsDigit(c)
    ensures d < 10 && DigitChar(d) == c
  {
    c as int - '0' as int
  }

  /** The number a string of decimal digits denotes. */
  function DigitsValue(s: string): nat
    requires AllDigits(s)
    decreases |s|
  {
    if s == [] then 0 else DigitsValue(s[..|s| - 1]) * 10 + DigitValue(s[|s| - 1])
  }

  function Pow10(n: nat): (r: nat)
    ensures r >= 1
  {
    if n == 0 then 1 else 10 * Pow10(n - 1)
  }

  /** `String(n)` for a non-negative integer: its decimal digits, no leading zeros. */
  function NatToString(n: nat): (s: string)
    ensures |s| >= 1 && AllDigits(s)
    ensures |s| > 1 ==> s[0] != '0'
    decreases n
  {
    if n < 10 then [DigitChar(n)] else NatToString(n / 10) + [DigitChar(n % 10)]
  }

  /** Reading back the digits `String(n)` prints gives `n`. */
  lemma {:induction false} NatToStringRoundTrip(n: nat)
    ensures DigitsValue(NatToString(n)) == n
    decreases n
  {
    if n >= 10 {
      var s := NatToString(n);
      assert s[..|s| - 1] == NatToString(n / 10);
      NatToStringRoundTrip(n / 10);
    }
  }

  /** A two-digit number prints as its tens digit then its units digit. */
  lemma TwoDigitString(n: nat)
    requires 10 <= n < 100
    ensures NatToString(n) == [DigitChar(n / 10), DigitChar(n % 10)]
  {
    assert NatToString(n / 10) == [DigitChar(n / 10)];
  }

  /** `String(n)` for any integer. */
  function IntToString(n: int): string
  {
    if n < 0 then "-" + NatToString(-n) else NatToString(n)
  }

  /** The longest prefix of `s` made of decimal digits. */
  function LeadingDigits(s: string): (r: string)
    ensures |r| <= |s| && r == s[..|r|] && AllDigits(r)
    ensures |r| < |s| ==> !IsDigit(s[|r|])
    decreases |s|
  {
    if s != [] && IsDigit(s[0]) then [s[0]] + LeadingDigits(s[1..]) else []
  }

  lemma {:induction false} LeadingDigitsOfDigits(d: string, rest: string)
    requires AllDigits(d)
    requires rest == [] || !IsDigit(rest[0])
    ensures LeadingDigits(d + rest) == d
    decreases |d|
  {
    if d != [] {
      assert (d + rest)[0] == d[0];
      assert (d + rest)[1..] == d[1..] + rest;
      LeadingDigitsOfDigits(d[1..], rest);
    } else {
      assert d + rest == rest;
    }
  }

  /** Splits an optional leading sign off (after leading white space). */
  function SignAndBody(s: string): (bool, string)
  {
    var t := TrimStart(s);
    if t != [] && (t[0] == '-' || t[0] == '+') then (t[0] == '-', t[1..]) else (false, t)
  }

  /** `parseInt(s, 10)`: optional white space and sign, then the longest run of
      digits; NaN (None) when there is no digit. */
  function ParseInt(s: string): Option<int>
  {
    var (negative, body) := SignAndBody(s);
    var digits := LeadingDigits(body);
    if digits == [] then None
    else
      var magnitude: int := DigitsValue(digits);
      Some(if negative then -magnitude else magnitude)
  }

  /** `parseFloat(s)` for decimal notation: optional white space and sign,
      integer digits, and an optional fraction after '.'; NaN (None) when
      neither part has a digit. Trailing text is ignored. */
  function ParseFloat(s: string): Option<real>
  {
    var (negative, body) := SignAndBody(s);
    match ParseUnsigned(body)
    case None => None
    case Some(magnitude) => Some(Signed(negative, magnitude))
  }

  /** The unsigned decimal number at the start of `body`, if it has a digit. */
  function ParseUnsigned(body: string): Option<real>
  {
    var whole := LeadingDigits(body);
    var fraction := FractionDigits(body[|whole|..]);
    if whole == [] && fraction == [] then None
    else Some(DecimalValue(whole, fraction))
  }

  /** The digits after a leading '.', if `rest` starts with one. */
  function FractionDigits(rest: string): (r: string)
    ensures AllDigits(r)
  {
    if rest != [] && rest[0] == '.' then LeadingDigits(rest[1..]) else []
  }

  /** The value of "<whole>.<fraction>" written in decimal digits. */
  function DecimalValue(whole: string, fraction: string): real
    requires AllDigits(whole) && AllDigits(fraction)
  {
    DigitsValue(whole) as real + DigitsValue(fraction) as real / Pow10(|fraction|) as real
  }

  function Signed(negative: bool, magnitude: real): real
  {
    if negative then -magnitude else magnitude
  }

  /** `parseFloat(s) || 0`: NaN (and zero) read as zero. */
  function ParseFloatOrZero(s: string): real
  {
    match ParseFloat(s)
    case None => 0.0
    case Some(x) => x
  }

  /** `Math.round(x)`: the nearest integer, halves rounded up. */
  function Round(x: real): (r: int)
    ensures x - 0.5 < r as real <= x + 0.5
  {
    (x + 0.5).Floor
  }

  /** `(cents / 100).toFixed(2)`: the amount in whole units with two decimals. */
  function CentsToFixed(cents: int): (s: string)
    ensures |s| >= 4
  {
    var a := if cents < 0 then -cents else cents;
    DecimalText(cents < 0, NatToString(a / 100), TwoDigits(a % 100))
  }

  /** "<sign><whole>.<fraction>". */
  function DecimalText(negative: bool, whole: string, fraction: string): string
  {
    (if negative then "-" else "") + whole + "." + fraction
  }

  /** A number below 100 as exactly two digits. */
  function TwoDigits(x: nat): (s: string)
    requires x < 100
    ensures |s| == 2 && AllDigits(s)
  {
    [DigitChar(x / 10), DigitChar(x % 10)]
  }

  /** `Math.round(parseFloat(x) * 100)`: an amount text converted to cents; None for NaN. */
  function ParseCents(s: string): (r: Option<int>)
  {
    match ParseFloat(s)
    case None => None
    case Some(x) => Some(Round(x * 100.0))
  }

  /** Digits and signs are not white space. */
  lemma SignOrDigitIsNotSpace(c: char)
    requires IsDigit(c) || c == '-' || c == '+'
    ensures !IsWhiteSpace(c)
  {
  }

  /** Text that does not open with white space is its own `trimStart`. */
  lemma TrimStartOfUnspaced(s: string)
    requires s != [] && !IsWhiteSpace(s[0])
    ensures TrimStart(s) == s
  {
  }

  /** A string that opens with an optional '-' and then a digit splits into that sign and the rest. */
  lemma SignAndBodyOfSigned(negative: bool, body: string)
    requires body != [] && IsDigit(body[0])
    ensures SignAndBody((if negative then "-" else "") + body) == (negative, body)
  {
    var s := (if negative then "-" else "") + body;
    assert s[0] == if negative then '-' else body[0];
    SignOrDigitIsNotSpace(s[0]);
    TrimStartOfUnspaced(s);
    if negative {
      assert s[1..] == body;
    }
  }

  lemma ParseUnsignedDecimal(whole: string, fraction: string)
    requires whole != [] && AllDigits(whole) && AllDigits(fraction)
    ensures ParseUnsigned(whole + "." + fraction) == Some(DecimalValue(whole, fraction))
  {
    var tail := "." + fraction;
    var body := whole + tail;
    assert whole + "." + fraction == body;
    LeadingDigitsOfDigits(whole, tail);
    assert body[|whole|..] == tail;
    assert tail[1..] == fraction + [];
    LeadingDigitsOfDigits(fraction, []);
    assert FractionDigits(tail) == fraction;
  }

  /** `parseFloat` of "<sign><digits>.<digits>" is the exact decimal value. */
  lemma ParseFloatDecimal(negative: bool, whole: string, fraction: string)
    requires whole != [] && AllDigits(whole) && AllDigits(fraction)
    ensures ParseFloat(DecimalText(negative, whole, fraction))
      == Some(Signed(negative, DecimalValue(whole, fraction)))
  {
    var body := whole + "." + fraction;
    assert body[0] == whole[0];
    SignAndBodyOfSigned(negative, body);
    assert DecimalText(negative, whole, fraction) == (if negative then "-" else "") + body;
    ParseUnsignedDecimal(whole, fraction);
  }

  /** `parseFloat` reads `toFixed(2)` of a cent amount back as the exact amount. */
  lemma FixedReadsBack(cents: int)
    ensures ParseFloat(CentsToFixed(cents)).Some?
    ensures ParseFloat(CentsToFixed(cents)).value == cents as real / 100.0
  {
    var a := if cents < 0 then -cents else cents;
    FixedParses(cents);
    FixedDigitsValue(a);
  }

  lemma FixedParses(cents: int)
    ensures var a := if cents < 0 then -cents else cents;
      ParseFloat(CentsToFixed(cents)) == Some(Signed(cents < 0, DecimalValue(NatToString(a / 100), TwoDigits(a % 100))))
  {
    var a := if cents < 0 then -cents else cents;
    ParseFloatDecimal(cents < 0, NatToString(a / 100), TwoDigits(a % 100));
  }

  /** The digits `toFixed(2)` prints for `a` cents denote `a / 100`. */
  lemma FixedDigitsValue(a: nat)
    ensures DecimalValue(NatToString(a / 100), TwoDigits(a % 100)) == a as real / 100.0
  {
    NatToStringRoundTrip(a / 100);
    TwoDigitsValue(a % 100);
    CentsValue(a, DigitsValue(NatToString(a / 100)), DigitsValue(TwoDigits(a % 100)));
  }

  /** `Math.round(x * 100)` of a whole number of cents over 100 is those cents. */
  lemma ParseCentsOfExact(s: string, cents: int)
    requires ParseFloat(s).Some? && ParseFloat(s).value == cents as real / 100.0
    ensures ParseCents(s) == Some(cents)
  {
    RoundOfWhole(cents);
    assert (cents as real / 100.0) * 100.0 == cents as real;
  }

  /** `Math.round` of a whole number is that number. */
  lemma RoundOfWhole(n: int)
    ensures Round(n as real) == n
  {
    assert n as real <= n as real + 0.5 < (n + 1) as real;
  }

  /** The amount a bill form shows for editing reads back as the same cents. */
  lemma CentsRoundTrip(cents: int)
    ensures ParseCents(CentsToFixed(cents)) == Some(cents)
  {
    FixedReadsBack(cents);
    ParseCentsOfExact(CentsToFixed(cents), cents);
  }

  lemma TwoDigitsValue(x: nat)
    requires x < 100
    ensures DigitsValue(TwoDigits(x)) == x
  {
    var t := TwoDigits(x);
    assert t[..1] == [DigitChar(x / 10)];
    assert t[..1][..0] == [];
    assert DigitValue(t[0]) == x / 10;
    assert DigitValue(t[1]) == x % 10;
    assert DigitsValue(t[..1]) == x / 10;
    assert DigitsValue(t) == DigitsValue(t[..1]) * 10 + DigitValue(t[1]);
  }

  lemma CentsValue(a: nat, whole: nat, fraction: nat)
    requires whole == a / 100 && fraction == a % 100
    ensures whole as real + fraction as real / Pow10(2) as real == a as real / 100.0
  {
    assert Pow10(2) == 100;
  }

  /** `parseInt(String(n), 10)` is `n`. */
  lemma IntRoundTrip(n: int)
    ensures ParseInt(IntToString(n)) == Some(n)
  {
    var m := if n < 0 then -n else n;
    var digits := NatToString(m);
    SignAndBodyOfSigned(n < 0, digits);
    assert IntToString(n) == (if n < 0 then "-" else "") + digits;
    LeadingDigitsOfDigits(digits, []);
    assert digits + [] == digits;
    NatToStringRoundTrip(m);
  }
}
