/** Exact decimal reading of amounts, standing in for `parseFloat`.
    A string is a number when it is an optional sign followed by digits with
    at most one decimal point and at least one digit; anything else reads as
    NaN (`None`). */
module Decimal {
  import opened Values
  import Text

  predicate IsDigit(c: char) {
    '0' <= c <= '9'
  }

  predicate AllDigits(s: string) {
    forall i :: 0 <= i < |s| ==> IsDigit(s[i])
  }

  /** The value of a digit string, most significant digit first. */
  function DigitsValue(s: string): nat
    requires AllDigits(s)
    decreases |s|
  {
    if s == [] then 0
    else DigitsValue(s[..|s| - 1]) * 10 + (s[|s| - 1] as int - '0' as int)
  }

  function Pow10(n: nat): (p: nat)
    ensures p >= 1
  {
    if n == 0 then 1 else 10 * Pow10(n - 1)
  }

  lemma QuotientNonNegative(a: nat, b: nat)
    requires b >= 1
    ensures a as real / b as real >= 0.0
  {
  }

  /** The digits before and after a decimal point, at least one in all. */
  function PointedValue(whole: string, frac: string): (r: Option<real>)
    ensures r.Some? ==> r.value >= 0.0
  {
    if AllDigits(whole) && AllDigits(frac) && |whole| + |frac| > 0 then
      QuotientNonNegative(DigitsValue(frac), Pow10(|frac|));
      Some(DigitsValue(whole) as real + DigitsValue(frac) as real / Pow10(|frac|) as real)
    else None
  }

  /** Digits, optionally with one decimal point, and at least one digit. */
  function ParseUnsigned(s: string): (r: Option<real>)
    ensures r.Some? ==> r.value >= 0.0
  {
    if '.' in s then
      var k := Text.IndexOf(s, '.');
      PointedValue(s[..k], s[k + 1..])
    else if AllDigits(s) && |s| > 0 then Some(DigitsValue(s) as real)
    else None
  }

  /** The number a decimal string denotes, with an optional sign. */
  function ParseDecimal(s: string): (r: Option<real>)
    ensures r.Some? ==> |s| > 0
  {
    if |s| > 0 && s[0] == '-' then
      match ParseUnsigned(s[1..])
      case Some(x) => Some(-x)
      case None => None
    else if |s| > 0 && s[0] == '+' then ParseUnsigned(s[1..])
    else ParseUnsigned(s)
  }

  /** `parseFloat(v)`: the argument is first converted to a string. */
  function ParseFloat(v: Value): Option<real> {
    ParseDecimal(ToText(v))
  }

  function DigitChar(d: nat): (c: char)
    requires d < 10
    ensures IsDigit(c) && c as int - '0' as int == d
  {
    ('0' as int + d) as char
  }

  /** The decimal text of a whole number, without leading zeros. */
  function NatText(n: nat): (s: string)
    ensures |s| > 0 && AllDigits(s)
    ensures DigitsValue(s) == n
    decreases n
  {
    if n < 10 then [DigitChar(n)]
    else
      var prefix := NatText(n / 10);
      var s := prefix + [DigitChar(n % 10)];
      assert s[..|s| - 1] == prefix;
      s
  }

  /** A digit string reads as the whole number it spells. */
  lemma ParseDigits(s: string)
    requires |s| > 0 && AllDigits(s)
    ensures ParseDecimal(s) == Some(DigitsValue(s) as real)
  {
    assert IsDigit(s[0]);
  }

  /** Reading back the text of a whole number gives that number. */
  lemma ParseNatText(n: nat)
    ensures ParseDecimal(NatText(n)) == Some(n as real)
  {
    ParseDigits(NatText(n));
  }

  lemma DigitsHaveNo(s: string, c: char)
    requires AllDigits(s) && !IsDigit(c)
    ensures c !in s
  {
    forall i | 0 <= i < |s| ensures s[i] != c {
      assert IsDigit(s[i]);
    }
  }

  /** Without a leading sign the string is read as unsigned. */
  lemma UnsignedWhenNoSign(s: string)
    requires |s| > 0 && s[0] != '-' && s[0] != '+'
    ensures ParseDecimal(s) == ParseUnsigned(s)
  {
  }

  lemma UnsignedPointed(whole: string, frac: string)
    requires AllDigits(whole)
    ensures ParseUnsigned(whole + "." + frac) == PointedValue(whole, frac)
  {
    var s := whole + "." + frac;
    assert s == whole + ['.'] + frac;
    DigitsHaveNo(whole, '.');
    Text.IndexOfPrefixFree(whole, '.', frac);
    assert s[..|whole|] == whole;
    assert s[|whole| + 1..] == frac;
  }

  lemma PointedDigits(whole: string, frac: string)
    requires AllDigits(whole) && AllDigits(frac) && |whole| + |frac| > 0
    ensures PointedValue(whole, frac) ==
      Some(DigitsValue(whole) as real + DigitsValue(frac) as real / Pow10(|frac|) as real)
  {
  }

  lemma NoLeadingSign(whole: string, frac: string)
    requires AllDigits(whole)
    ensures var s := whole + "." + frac; |s| > 0 && s[0] != '-' && s[0] != '+'
  {
    if |whole| > 0 {
      assert IsDigit(whole[0]);
    }
  }

  /** A decimal "whole.frac" reads as whole + frac / 10^|frac|. */
  lemma ParsePointed(whole: string, frac: string)
    requires AllDigits(whole) && AllDigits(frac) && |whole| + |frac| > 0
    ensures ParseDecimal(whole + "." + frac) ==
      Some(DigitsValue(whole) as real + DigitsValue(frac) as real / Pow10(|frac|) as real)
  {
    NoLeadingSign(whole, frac);
    UnsignedWhenNoSign(whole + "." + frac);
    UnsignedPointed(whole, frac);
    PointedDigits(whole, frac);
  }

  lemma NatTextHasNo(n: nat, c: char)
    requires !IsDigit(c)
    ensures c !in NatText(n)
  {
  }
}
