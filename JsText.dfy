/** Decimal number text as JavaScript writes and reads it: the string form of an
    integer (`String(n)`, template literals, `n + ' ms'`), `parseInt` with its
    default radix, and the whitespace that `String.prototype.trim` strips. */
module JsText {

  /** What `parseInt` yields: a number, or NaN when no digit was found. */
  datatype Parsed = NaN | Num(n: int)

  predicate IsDigit(c: char) { '0' <= c <= '9' }

  predicate AllDigits(s: string) { forall i :: 0 <= i < |s| ==> IsDigit(s[i]) }

  function DigitChar(d: nat): (c: char)
    requires d < 10
    ensures IsDigit(c)
  {
    ('0' as int + d) as char
  }

  function DigitValue(c: char): (d: nat)
    requires IsDigit(c)
    ensures d < 10 && DigitChar(d) == c
  {
    (c as int) - ('0' as int)
  }

  /** The decimal text of a natural number: digits only, no leading zero. */
  function NatText(n: nat): (r: string)
    ensures |r| > 0 && AllDigits(r)
    ensures r[0] == '0' ==> r == "0"
    decreases n
  {
    if n < 10 then [DigitChar(n)] else NatText(n / 10) + [DigitChar(n % 10)]
  }

  /** The text `String(i)` gives for an integer: a minus sign before a negative one. */
  function IntText(i: int): string
  {
    if i < 0 then "-" + NatText(-i) else NatText(i)
  }

  /** The value of a string of decimal digits, read from the left. */
  function DigitsValue(s: string): nat
    requires AllDigits(s)
  {
    if s == [] then 0 else DigitsValue(s[..|s| - 1]) * 10 + DigitValue(s[|s| - 1])
  }

  lemma {:induction false} DigitsValueOfNatText(n: nat)
    ensures DigitsValue(NatText(n)) == n
    decreases n
  {
    if n >= 10 {
      var p := NatText(n / 10);
      DigitsValueOfNatText(n / 10);
      var t := p + [DigitChar(n % 10)];
      assert t[..|t| - 1] == p;
    }
  }

  /** ECMAScript WhiteSpace and LineTerminator characters: what `trim` removes
      and what `parseInt` skips before the number. */
  predicate IsJsSpace(c: char)
  {
    (c <= ' ' || '\U{A0}' <= c) &&
    (c == '\t' || c == '\n' || c == '\U{B}' || c == '\U{C}' || c == '\r' || c == ' '
    || c == '\U{A0}' || c == '\U{1680}' || ('\U{2000}' <= c <= '\U{200A}')
    || c == '\U{2028}' || c == '\U{2029}' || c == '\U{202F}' || c == '\U{205F}'
    || c == '\U{3000}' || c == '\U{FEFF}')
  }

  predicate AllSpace(s: string) { forall i :: 0 <= i < |s| ==> IsJsSpace(s[i]) }

  /** `s` without its leading whitespace. */
  function TrimStart(s: string): (r: string)
    ensures |r| <= |s| && r == s[|s| - |r|..]
    ensures r == [] || !IsJsSpace(r[0])
    ensures forall i :: 0 <= i < |s| - |r| ==> IsJsSpace(s[i])
  {
    if s != [] && IsJsSpace(s[0]) then
      var t := s[1..];
      assert forall i :: 1 <= i < |s| ==> s[i] == t[i - 1];
      TrimStart(t)
    else s
  }

  /** `s` without its trailing whitespace. */
  function TrimEnd(s: string): (r: string)
    ensures |r| <= |s| && r == s[..|r|]
    ensures r == [] || !IsJsSpace(r[|r| - 1])
    ensures forall i :: |r| <= i < |s| ==> IsJsSpace(s[i])
  {
    if s != [] && IsJsSpace(s[|s| - 1]) then
      TrimEnd(s[..|s| - 1])
    else s
  }

  /** Text that does not start with whitespace is left as it is by `TrimStart`. */
  lemma TrimStartKeeps(s: string)
    requires s == [] || !IsJsSpace(s[0])
    ensures TrimStart(s) == s
  {
  }

  /** `String.prototype.trim`. */
  function Trim(s: string): string { TrimEnd(TrimStart(s)) }

  /** A string trims to nothing exactly when every character in it is whitespace. */
  lemma TrimEmptyIffAllSpace(s: string)
    ensures Trim(s) == [] <==> AllSpace(s)
  {
    var t := TrimStart(s);
    if AllSpace(s) {
      assert t == [];
    }
  }

  /** The longest run of decimal digits at the head of `s`. */
  function LeadingDigits(s: string): (d: string)
    ensures |d| <= |s| && AllDigits(d)
    ensures forall i :: 0 <= i < |d| ==> d[i] == s[i]
    ensures |d| == |s| || !IsDigit(s[|d|])
  {
    if s != [] && IsDigit(s[0]) then
      [s[0]] + LeadingDigits(s[1..])
    else []
  }

  /** Text that `parseInt` without a radix reads in base 16: "0x" or "0X" first. */
  predicate HexPrefixed(u: string)
  {
    |u| >= 2 && u[0] == '0' && (u[1] == 'x' || u[1] == 'X')
  }

  predicate IsHexDigit(c: char) { IsDigit(c) || 'a' <= c <= 'f' || 'A' <= c <= 'F' }

  predicate AllHexDigits(s: string) { forall i :: 0 <= i < |s| ==> IsHexDigit(s[i]) }

  function HexDigitValue(c: char): (d: nat)
    requires IsHexDigit(c)
    ensures d < 16
  {
    if IsDigit(c) then DigitValue(c)
    else if 'a' <= c <= 'f' then (c as int) - ('a' as int) + 10
    else (c as int) - ('A' as int) + 10
  }

  /** The value of a string of hexadecimal digits, read from the left. */
  function HexDigitsValue(s: string): nat
    requires AllHexDigits(s)
  {
    if s == [] then 0 else HexDigitsValue(s[..|s| - 1]) * 16 + HexDigitValue(s[|s| - 1])
  }

  /** The longest run of hexadecimal digits at the head of `s`. */
  function LeadingHexDigits(s: string): (h: string)
    ensures |h| <= |s| && AllHexDigits(h)
    ensures forall i :: 0 <= i < |h| ==> h[i] == s[i]
    ensures |h| == |s| || !IsHexDigit(s[|h|])
  {
    if s != [] && IsHexDigit(s[0]) then
      [s[0]] + LeadingHexDigits(s[1..])
    else []
  }

  /** `parseInt(s)` with no radix: leading whitespace skipped, an optional sign,
      then base 16 after a "0x"/"0X" prefix and base 10 otherwise, reading the
      longest run of digits of that base; NaN when that run is empty. */
  function ParseInt(s: string): Parsed
  {
    ParseTrimmed(TrimStart(s))
  }

  /** `parseInt` on text whose leading whitespace is already gone. */
  function ParseTrimmed(t: string): Parsed
  {
    if t != [] && (t[0] == '-' || t[0] == '+') then
      match ParseMagnitude(t[1..])
      case NaN => NaN
      case Num(m) => Num(if t[0] == '-' then -m else m)
    else ParseMagnitude(t)
  }

  /** The unsigned part of `parseInt`: the radix prefix and the digit run. */
  function ParseMagnitude(u: string): (p: Parsed)
    ensures p.Num? ==> 0 <= p.n
  {
    if HexPrefixed(u) then
      var h := LeadingHexDigits(u[2..]);
      if h == [] then NaN else Num(HexDigitsValue(h))
    else
      var d := LeadingDigits(u);
      if d == [] then NaN else Num(DigitsValue(d))
  }

  lemma {:induction false} LeadingDigitsOfDigits(d: string, rest: string)
    requires AllDigits(d)
    requires rest == [] || !IsDigit(rest[0])
    ensures LeadingDigits(d + rest) == d
    decreases |d|
  {
    if d != [] {
      assert (d + rest)[1..] == d[1..] + rest;
      LeadingDigitsOfDigits(d[1..], rest);
      assert [d[0]] + d[1..] == d;
    } else {
      assert d + rest == rest;
    }
  }

  /** Unsigned text that starts with a digit and no "0x" prefix is read as its
      decimal digit run. */
  lemma ParseMagnitudeDecimal(u: string)
    requires u != [] && IsDigit(u[0]) && !HexPrefixed(u)
    ensures ParseMagnitude(u) == Num(DigitsValue(LeadingDigits(u)))
  {
    assert LeadingDigits(u) != [];
  }

  /** Text that starts with a digit, but not with "0x"/"0X", is read as its
      leading decimal digit run. */
  lemma ParseIntUnsigned(s: string)
    requires s != [] && IsDigit(s[0]) && !HexPrefixed(s)
    ensures ParseInt(s) == Num(DigitsValue(LeadingDigits(s)))
  {
    TrimStartKeeps(s);
    ParseMagnitudeDecimal(s);
  }

  /** Text that starts with "0x"/"0X" is read as the hexadecimal digit run after
      the prefix, and is NaN when no hexadecimal digit follows it. */
  lemma ParseIntHex(s: string)
    requires HexPrefixed(s)
    ensures var h := LeadingHexDigits(s[2..]);
      ParseInt(s) == if h == [] then NaN else Num(HexDigitsValue(h))
  {
    TrimStartKeeps(s);
  }

  /** `parseInt` reads back the number written by `NatText`, whatever non-digit
      text follows it, except that "0" followed by an "x" starts a hexadecimal
      number. */
  lemma ParseIntOfNatText(n: nat, rest: string)
    requires rest == [] || (!IsDigit(rest[0]) && (n > 0 || (rest[0] != 'x' && rest[0] != 'X')))
    ensures ParseInt(NatText(n) + rest) == Num(n)
  {
    var d := NatText(n);
    var s := d + rest;
    assert s[0] == d[0];
    DigitsValueOfNatText(n);
    if d[0] == '0' {
      assert d == "0";
      assert n == 0;
    }
    assert !HexPrefixed(s);
    ParseIntUnsigned(s);
    LeadingDigitsOfDigits(d, rest);
  }

  /** `parseInt` reads back the decimal text of `n` on its own. */
  lemma ParseIntOfNatTextAlone(n: nat)
    ensures ParseInt(NatText(n)) == Num(n)
  {
    ParseIntOfNatText(n, []);
    assert NatText(n) + [] == NatText(n);
  }

  /** Text that starts with a minus sign and a digit, with no "0x" prefix after
      the sign, is read as a negative number. */
  lemma ParseIntNegative(s: string)
    requires |s| > 1 && s[0] == '-' && IsDigit(s[1]) && !HexPrefixed(s[1..])
    ensures ParseInt(s) == Num(-(DigitsValue(LeadingDigits(s[1..])) as int))
  {
    TrimStartKeeps(s);
    assert s[1..][0] == s[1];
    ParseMagnitudeDecimal(s[1..]);
  }

  /** Leading whitespace and a sign do not stop the "0x" prefix: " -0x1A" is -26. */
  lemma ParseIntSignedHex()
    ensures ParseInt("0x1A") == Num(26)
    ensures ParseInt(" -0x1A") == Num(-26)
  {
    ParseHexOneA();
    TrimSpaceMinusHexOneA();
    ParseMinusHexOneA();
  }

  lemma TrimSpaceMinusHexOneA()
    ensures TrimStart(" -0x1A") == "-0x1A"
  {
    var s := " -0x1A";
    var t := "-0x1A";
    assert s[1..] == t;
    TrimStartKeeps(t);
  }

  lemma ParseHexOneA()
    ensures ParseMagnitude("0x1A") == Num(26) && ParseInt("0x1A") == Num(26)
  {
    HexOneA();
    var u := "0x1A";
    assert u[2..] == "1A";
    ParseIntHex(u);
  }

  lemma ParseMinusHexOneA()
    ensures ParseTrimmed("-0x1A") == Num(-26)
  {
    ParseHexOneA();
    assert "-0x1A"[1..] == "0x1A";
  }

  lemma HexOneA()
    ensures LeadingHexDigits("1A") == "1A" && HexDigitsValue("1A") == 26
  {
    var h := "1A";
    assert h[1..] == "A" && "A"[1..] == [];
    assert h[..1] == "1" && "1"[..0] == [];
  }
}
