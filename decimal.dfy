/**
 * Decimal text of the numbers the dashboard writes into its log lines and
 * trade records: Python's `str()` of an `int`, and of a `float` that was
 * rounded to two decimal places with `round(x, 2)`.
 *
 * Each formatter has a parser beside it, and the round-trip lemmas show that
 * the text determines the number it was made from.
 */
module Decimal {
  import opened Wrappers

  predicate IsDigit(c: char) { '0' <= c <= '9' }

  predicate AllDigits(s: string) { forall i :: 0 <= i < |s| ==> IsDigit(s[i]) }

  function DigitChar(d: nat): (c: char)
    requires d < 10
    ensures IsDigit(c) && c as int - '0' as int == d
  {
    ('0' as int + d) as char
  }

  function DigitValue(c: char): nat
    requires IsDigit(c)
  {
    c as int - '0' as int
  }

  /** `str(n)` for a non-negative Python int: at least one digit, no leading zero. */
  function NatText(n: nat): (r: string)
    ensures 1 <= |r| && AllDigits(r)
    ensures r[0] == '0' ==> r == "0"
  {
    if n < 10 then [DigitChar(n)] else NatText(n / 10) + [DigitChar(n % 10)]
  }

  /** The number a string of digits denotes. */
  function DigitsValue(s: string): nat
    requires AllDigits(s)
  {
    if |s| == 0 then 0 else DigitsValue(s[..|s| - 1]) * 10 + DigitValue(s[|s| - 1])
  }

  lemma {:induction false} NatTextRoundTrip(n: nat)
    ensures DigitsValue(NatText(n)) == n
  {
    var r := NatText(n);
    if n >= 10 {
      assert r[..|r| - 1] == NatText(n / 10);
      NatTextRoundTrip(n / 10);
    }
  }

  /** `str(i)` for any Python int. */
  function IntText(i: int): (r: string)
    ensures i >= 0 ==> 1 <= |r| && AllDigits(r)
    ensures i < 0 ==> 2 <= |r| && r[0] == '-' && AllDigits(r[1..])
    ensures ',' !in r
  {
    if i < 0 then "-" + NatText(-i) else NatText(i)
  }

  /** Python's `int(s)` restricted to the text `str()` produces; `None` for anything else. */
  function ParseInt(s: string): (r: Option<int>)
    ensures r.Some? ==> 1 <= |s|
  {
    if 1 <= |s| && s[0] == '-' then
      if 2 <= |s| && AllDigits(s[1..]) then Some(-(DigitsValue(s[1..]) as int)) else None
    else if 1 <= |s| && AllDigits(s) then Some(DigitsValue(s))
    else None
  }

  lemma IntTextRoundTrip(i: int)
    ensures ParseInt(IntText(i)) == Some(i)
  {
    var t := IntText(i);
    if i < 0 {
      var n := NatText(-i);
      assert t == "-" + n;
      assert t[0] == '-' && t[1..] == n;
      NatTextRoundTrip(-i);
    } else {
      NatTextRoundTrip(i);
      assert t[0] != '-';
    }
  }

  /**
   * A Python float produced by `round(x, 2)`: the sign bit and the magnitude
   * in hundredths. The sign bit is kept apart from the magnitude because
   * rounding a small negative number gives the float `-0.0`, whose sign bit
   * is set although its value is zero.
   */
  datatype TwoPlaces = TwoPlaces(negative: bool, hundredths: nat) {
    /** The value in hundredths; `-0.0` and `0.0` both have value 0. */
    function Value(): int { if negative then -(hundredths as int) else hundredths }

    /** True of `-0.0` only. */
    predicate IsNegativeZero() { negative && hundredths == 0 }
  }

  /** The digits after the point in Python's shortest float text: "0", one digit, or two. */
  function FractionText(f: nat): (r: string)
    requires f < 100
    ensures 1 <= |r| <= 2 && AllDigits(r)
  {
    if f == 0 then "0"
    else if f % 10 == 0 then [DigitChar(f / 10)]
    else [DigitChar(f / 10), DigitChar(f % 10)]
  }

  /**
   * `str(abs(x))` for a float rounded to two places: "3.1", "0.05", "5.0".
   * This is Python's text for values below 1e13, which have at most 15
   * significant digits and so print as the decimal they were rounded to.
   * It starts and ends with a digit and has a point before its last one or two.
   */
  function MagnitudeText(hundredths: nat): (r: string)
    ensures 3 <= |r| && IsDigit(r[0]) && IsDigit(r[|r| - 1])
    ensures r[|r| - 2] == '.' || r[|r| - 3] == '.'
    ensures forall k :: 0 <= k < |r| ==> IsDigit(r[k]) || r[k] == '.'
  {
    NatText(hundredths / 100) + "." + FractionText(hundredths % 100)
  }

  /** `str(x)` for a float rounded to two places: a '-' whenever the sign bit is set, and only then. */
  function FloatText(x: TwoPlaces): (r: string)
    ensures 3 <= |r| && r[|r| - 1] != '%'
    ensures r[0] == '-' <==> x.negative
    ensures '$' !in r
  {
    (if x.negative then "-" else "") + MagnitudeText(x.hundredths)
  }

  /** The hundredths that the digits after the point stand for: "5" is 50, "05" is 5. */
  function FractionValue(fr: string): nat
    requires 1 <= |fr| <= 2 && AllDigits(fr)
  {
    if |fr| == 1 then DigitValue(fr[0]) * 10 else DigitValue(fr[0]) * 10 + DigitValue(fr[1])
  }

  /** The hundredths written as whole digits and one or two fraction digits, or `None`. */
  function ParseParts(whole: string, fr: string): (r: Option<nat>)
    requires 1 <= |fr| <= 2
  {
    if 1 <= |whole| && AllDigits(whole) && AllDigits(fr) then Some(DigitsValue(whole) * 100 + FractionValue(fr))
    else None
  }

  /** The magnitude in hundredths that `MagnitudeText` wrote, or `None`. */
  function ParseMagnitude(s: string): (r: Option<nat>)
  {
    if 3 <= |s| && s[|s| - 2] == '.' then ParseParts(s[..|s| - 2], s[|s| - 1..])
    else if 4 <= |s| && s[|s| - 3] == '.' then ParseParts(s[..|s| - 3], s[|s| - 2..])
    else None
  }

  /** `FractionText` writes the hundredths it is given. */
  lemma FractionTextValue(f: nat)
    requires f < 100
    ensures FractionValue(FractionText(f)) == f
  {
  }

  /** Text around a point, with one or two digits after it, is read as those two parts. */
  lemma ParseMagnitudeParts(w: string, fr: string)
    requires 1 <= |fr| <= 2 && AllDigits(fr)
    ensures ParseMagnitude(w + "." + fr) == ParseParts(w, fr)
  {
    var s := w + "." + fr;
    if |fr| == 1 {
      assert s[..|s| - 2] == w && s[|s| - 2] == '.' && s[|s| - 1..] == fr;
    } else {
      assert s[|s| - 2] == fr[0] && IsDigit(fr[0]);
      assert s[..|s| - 3] == w && s[|s| - 3] == '.' && s[|s| - 2..] == fr;
    }
  }

  lemma MagnitudeTextRoundTrip(hundredths: nat)
    ensures ParseMagnitude(MagnitudeText(hundredths)) == Some(hundredths)
  {
    var whole, f := hundredths / 100, hundredths % 100;
    NatTextRoundTrip(whole);
    FractionTextValue(f);
    ParseMagnitudeParts(NatText(whole), FractionText(f));
  }

  /** The magnitude's text is what follows the sign. */
  lemma FloatTextMagnitude(x: TwoPlaces)
    ensures (if x.negative then FloatText(x)[1..] else FloatText(x)) == MagnitudeText(x.hundredths)
  {
    if x.negative {
      assert FloatText(x) == "-" + MagnitudeText(x.hundredths);
    } else {
      assert FloatText(x) == "" + MagnitudeText(x.hundredths);
    }
  }

  /** Equal float texts come from the same rounded float: the sign bit and the magnitude read back. */
  lemma FloatTextInjective(x: TwoPlaces, y: TwoPlaces)
    requires FloatText(x) == FloatText(y)
    ensures x == y
  {
    FloatTextMagnitude(x);
    FloatTextMagnitude(y);
    MagnitudeTextRoundTrip(x.hundredths);
    MagnitudeTextRoundTrip(y.hundredths);
  }
}
