/**
 * Python's `int()` on digit strings and `float()` on plain decimal text
 * (`12`, `0.340`, `.5`, `7.`, with an optional sign and surrounding
 * whitespace). Values are exact reals.
 */
module Decimal {
  import opened Wrappers
  import opened Text

  predicate AllDigits(s: string) {
    forall i :: 0 <= i < |s| ==> IsDigit(s[i])
  }

  function DigitValue(c: char): (d: nat)
    requires IsDigit(c)
    ensures d <= 9
  {
    (c as int) - ('0' as int)
  }

  function Pow10(n: nat): (p: nat)
    ensures p >= 1
  {
    if n == 0 then 1 else 10 * Pow10(n - 1)
  }

  /** `int(s)` for a string of ASCII digits (leading zeros allowed); the empty string gives 0. */
  function DigitsValue(s: string): (v: nat)
    requires AllDigits(s)
    ensures v < Pow10(|s|)
  {
    if s == [] then 0 else 10 * DigitsValue(s[..|s| - 1]) + DigitValue(s[|s| - 1])
  }

  /** The decimal rendering of `n` without leading zeros, as Python's `str(n)`. */
  function NatText(n: nat): (s: string)
    ensures s != [] && AllDigits(s)
  {
    if n < 10 then [('0' as int + n) as char] else NatText(n / 10) + [('0' as int + n % 10) as char]
  }

  lemma {:induction false} DigitsValueOfNatText(n: nat)
    ensures DigitsValue(NatText(n)) == n
  {
    if n >= 10 {
      DigitsValueOfNatText(n / 10);
      var s := NatText(n);
      assert s[..|s| - 1] == NatText(n / 10);
    }
  }

  /** The value of the digits after a decimal point: `0.d1d2...` is `(d1 + 0.d2...) / 10`. */
  function FractionValue(s: string): (v: real)
    requires AllDigits(s)
    ensures 0.0 <= v < 1.0
  {
    if s == [] then 0.0 else (DigitValue(s[0]) as real + FractionValue(s[1..])) / 10.0
  }

  /** The value of `intPart.fracPart`. */
  function FixedValue(intPart: string, fracPart: string): real
    requires AllDigits(intPart) && AllDigits(fracPart)
  {
    DigitsValue(intPart) as real + FractionValue(fracPart)
  }

  /** Position of the first `c` in `s`, if any. */
  function IndexOf(s: string, c: char): (r: Option<nat>)
    ensures r.None? <==> c !in s
    ensures r.Some? ==> r.value < |s| && s[r.value] == c && c !in s[..r.value]
  {
    if |s| == 0 then None
    else if s[0] == c then Some(0)
    else match IndexOf(s[1..], c)
      case None => None
      case Some(k) => assert s[..k + 1] == [s[0]] + s[1..][..k]; Some(k + 1)
  }

  /** An unsigned decimal: digits with at most one point, and at least one digit. */
  function ParseUnsigned(t: string): (r: Option<real>)
    ensures r.Some? ==> r.value >= 0.0
  {
    match IndexOf(t, '.')
    case None =>
      if t != [] && AllDigits(t) then Some(DigitsValue(t) as real) else None
    case Some(p) =>
      var a, b := t[..p], t[p + 1..];
      if |a| + |b| >= 1 && AllDigits(a) && AllDigits(b) then Some(FixedValue(a, b)) else None
  }

  /**
   * `float(s)` on the decimal forms listed above; `None` stands for the
   * `ValueError` Python raises on text it does not accept.
   */
  function ParseFloat(s: string): (r: Option<real>)
    ensures r.Some? && Strip(s) != [] && Strip(s)[0] != '-' ==> r.value >= 0.0
  {
    var t := Strip(s);
    if t != [] && t[0] == '-' then
      match ParseUnsigned(t[1..])
      case None => None
      case Some(v) => Some(-v)
    else if t != [] && t[0] == '+' then ParseUnsigned(t[1..])
    else ParseUnsigned(t)
  }

  /** Text with no whitespace or sign is accepted exactly when it is a decimal numeral, with its value. */
  lemma ParseFloatFixed(a: string, b: string)
    requires AllDigits(a) && AllDigits(b) && |a| + |b| >= 1
    ensures ParseFloat(a + "." + b) == Some(FixedValue(a, b))
  {
    var t := a + "." + b;
    StripPlain(t);
    assert IndexOf(t, '.') == Some(|a|) by {
      assert '.' !in a;
      assert t[..|a|] == a;
    }
    assert t[..|a|] == a && t[|a| + 1..] == b;
    if a == [] { assert t[0] == '.'; }
  }

  lemma ParseFloatDigits(a: string)
    requires AllDigits(a) && a != []
    ensures ParseFloat(a) == Some(DigitsValue(a) as real)
  {
    StripPlain(a);
    assert '.' !in a;
  }

  /** Text without a minus sign never parses to a negative number. */
  lemma ParseFloatNoMinus(s: string)
    requires '-' !in s
    ensures ParseFloat(s).Some? ==> ParseFloat(s).value >= 0.0
  {
    var t := Strip(s);
    StripFacts(s);
    var i :| StrippedAt(s, t, i);
    if t != [] {
      assert t[0] == s[i];
    }
  }

  lemma StripPlain(t: string)
    requires t != [] && !IsSpace(t[0]) && !IsSpace(t[|t| - 1])
    ensures Strip(t) == t
  {
    assert LStrip(t) == t;
    assert RStrip(t) == t;
  }
}
