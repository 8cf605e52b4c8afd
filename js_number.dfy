/**
 * The amount fields of the admin forms store `parseInt(value, 10) || 0`:
 * leading whitespace is skipped, an optional sign is read, then the longest
 * run of decimal digits; no digit at all gives NaN, and NaN (like -0) is
 * falsy, so the field receives 0. Identifiers built from `Date.now()` render
 * a number in decimal, modelled by `Decimal`.
 */
module JsNumber {

  import opened Common
  import opened Text

  predicate IsDigit(c: char)
  {
    '0' <= c <= '9'
  }

  predicate AllDigits(s: string)
  {
    forall i :: 0 <= i < |s| ==> IsDigit(s[i])
  }

  function DigitValue(c: char): (d: nat)
    requires IsDigit(c)
    ensures d < 10
  {
    c as int - '0' as int
  }

  function DigitChar(d: nat): (c: char)
    requires d < 10
    ensures IsDigit(c) && DigitValue(c) == d
  {
    ('0' as int + d) as char
  }

  /** The longest prefix of `s` made of decimal digits. */
  function DigitPrefix(s: string): (r: string)
    ensures r <= s
    ensures AllDigits(r)
    ensures |r| < |s| ==> !IsDigit(s[|r|])
  {
    if s != [] && IsDigit(s[0]) then [s[0]] + DigitPrefix(s[1..]) else []
  }

  /** The value of a run of decimal digits, most significant digit first. */
  function DigitsValue(d: string): nat
    requires AllDigits(d)
  {
    if d == [] then 0 else DigitsValue(d[..|d| - 1]) * 10 + DigitValue(d[|d| - 1])
  }

  /** `parseInt(s, 10)`, with `None` standing for NaN. */
  function ParseInt(s: string): Option<int>
  {
    ParseSigned(TrimStart(s))
  }

  /** What `parseInt` reads once the leading whitespace is gone: a sign, then digits. */
  function ParseSigned(t: string): Option<int>
  {
    var signed := t != [] && (t[0] == '-' || t[0] == '+');
    var digits := DigitPrefix(if signed then t[1..] else t);
    var magnitude: int := if digits == [] then 0 else DigitsValue(digits);
    if digits == [] then None
    else if signed && t[0] == '-' then Some(-magnitude)
    else Some(magnitude)
  }

  /** `parseInt(value, 10) || 0`. */
  function AmountOf(value: string): int
  {
    ParseInt(value).GetOr(0)
  }

  /** `String(n)` for a non-negative integer: its canonical decimal form. */
  function Decimal(n: nat): (r: string)
    ensures r != [] && AllDigits(r)
    ensures |r| > 1 ==> r[0] != '0'
  {
    if n < 10 then [DigitChar(n)] else Decimal(n / 10) + [DigitChar(n % 10)]
  }

  lemma {:induction false} DecimalValue(n: nat)
    ensures DigitsValue(Decimal(n)) == n
  {
    if n >= 10 {
      var d := Decimal(n);
      assert d[..|d| - 1] == Decimal(n / 10);
      DecimalValue(n / 10);
    }
  }

  lemma {:induction false} DigitPrefixOfDigits(d: string, rest: string)
    requires AllDigits(d)
    requires rest == [] || !IsDigit(rest[0])
    ensures DigitPrefix(d + rest) == d
  {
    if d == [] {
      assert d + rest == rest;
    } else {
      assert (d + rest)[1..] == d[1..] + rest;
      DigitPrefixOfDigits(d[1..], rest);
    }
  }

  lemma {:induction false} TrimStartOfNumber(ws: string, t: string)
    requires AllWhitespace(ws)
    requires t != [] && (IsDigit(t[0]) || t[0] == '-')
    ensures TrimStart(ws + t) == t
  {
    TrimStartSkips(ws, t);
    assert [] + t == t;
    assert !IsJsWhitespace(t[0]);
    TrimStartOfPadded([], t);
  }

  lemma ParseDecimal(n: nat, rest: string)
    requires rest == [] || !IsDigit(rest[0])
    ensures ParseSigned(Decimal(n) + rest) == Some(n)
  {
    var d := Decimal(n);
    DigitPrefixOfDigits(d, rest);
    DecimalValue(n);
    assert (d + rest)[0] == d[0];
  }

  lemma ParseNegatedDecimal(n: nat, rest: string)
    requires rest == [] || !IsDigit(rest[0])
    ensures ParseSigned("-" + Decimal(n) + rest) == Some(-(n as int))
  {
    ParseNegatedDigits(Decimal(n), rest);
    DecimalValue(n);
  }

  lemma ParseNegatedDigits(d: string, rest: string)
    requires d != [] && AllDigits(d)
    requires rest == [] || !IsDigit(rest[0])
    ensures ParseSigned("-" + d + rest) == Some(-(DigitsValue(d) as int))
  {
    var t := "-" + d + rest;
    assert t[0] == '-' && t[1..] == d + rest;
    DigitPrefixOfDigits(d, rest);
    ParseSignedNegative(t);
  }

  /** A minus sign followed by digits reads as the negated digits. */
  lemma ParseSignedNegative(t: string)
    requires t != [] && t[0] == '-' && DigitPrefix(t[1..]) != []
    ensures ParseSigned(t) == Some(-(DigitsValue(DigitPrefix(t[1..])) as int))
  {
  }

  /**
   * Whitespace before the number and non-digit text after it are ignored:
   * `AmountOf(ws + String(n) + rest) == n`.
   */
  lemma {:induction false} AmountOfDecimal(ws: string, n: nat, rest: string)
    requires AllWhitespace(ws)
    requires rest == [] || !IsDigit(rest[0])
    ensures AmountOf(ws + Decimal(n) + rest) == n
  {
    var t := Decimal(n) + rest;
    assert ws + Decimal(n) + rest == ws + t;
    assert t[0] == Decimal(n)[0];
    TrimStartOfNumber(ws, t);
    ParseDecimal(n, rest);
  }

  /** A leading minus sign negates the amount. */
  lemma {:induction false} AmountOfNegative(ws: string, n: nat, rest: string)
    requires AllWhitespace(ws)
    requires rest == [] || !IsDigit(rest[0])
    ensures AmountOf(ws + "-" + Decimal(n) + rest) == -(n as int)
  {
    var t := "-" + Decimal(n) + rest;
    assert ws + "-" + Decimal(n) + rest == ws + t;
    TrimStartOfNumber(ws, t);
    ParseNegatedDecimal(n, rest);
  }

  /** Text that does not start (after whitespace and a sign) with a digit gives 0. */
  lemma AmountOfNonNumeric(value: string)
    requires var t := TrimStart(value);
             t == [] || (!IsDigit(t[0]) && (t[0] in "+-" ==> |t| == 1 || !IsDigit(t[1])))
    ensures AmountOf(value) == 0
  {
  }

  /** `String(n)` for an integer: its decimal digits, after a minus sign when negative. */
  function IntString(n: int): (r: string)
    ensures r != [] && (r[0] == '-' <==> n < 0)
  {
    if n >= 0 then Decimal(n) else "-" + Decimal(-n)
  }

  /** Reading back an amount the form displays gives the amount: `parseInt(String(n), 10) == n`. */
  lemma AmountOfIntString(n: int)
    ensures AmountOf(IntString(n)) == n
  {
    if n >= 0 {
      assert "" + Decimal(n) + "" == IntString(n);
      AmountOfDecimal("", n, "");
    } else {
      assert "" + "-" + Decimal(-n) + "" == IntString(n);
      AmountOfNegative("", -n, "");
    }
  }
}
