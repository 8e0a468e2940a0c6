/**
 * The part of JavaScript's number semantics the financial code relies on.
 * Finite numbers are exact reals (binary floating point is not modelled);
 * NaN and the two infinities are one value, NonFinite, because no computation
 * of the model ever turns them back into a finite number.
 */
module JsNumber {
  import opened Wrappers

  datatype Num = Finite(value: real) | NonFinite

  /** a / b; dividing by zero gives NaN or an infinity. */
  function Quotient(a: Num, b: Num): (r: Num)
    ensures r.Finite? <==> a.Finite? && b.Finite? && b.value != 0.0
    ensures r.Finite? ==> r.value * b.value == a.value
  {
    if a.Finite? && b.Finite? && b.value != 0.0 then Finite(a.value / b.value) else NonFinite
  }

  /** a + b; NaN or an infinity on either side never gives a finite sum. */
  function Sum(a: Num, b: Num): Num {
    if a.Finite? && b.Finite? then Finite(a.value + b.value) else NonFinite
  }

  function Pow10(d: nat): (r: nat)
    ensures r > 0
  {
    if d == 0 then 1 else 10 * Pow10(d - 1)
  }

  /**
   * The value of Number(x.toFixed(d)): x rounded to d decimal places, a tie
   * going away from zero (toFixed rounds the magnitude and keeps the sign).
   */
  function Round(x: real, d: nat): real {
    var scale := Pow10(d) as real;
    if x < 0.0 then -RoundMagnitude(-x, scale) else RoundMagnitude(x, scale)
  }

  /** y >= 0 rounded to the nearest multiple of 1/scale, a tie going up. */
  function RoundMagnitude(y: real, scale: real): real
    requires scale > 0.0
  {
    (y * scale + 0.5).Floor as real / scale
  }

  function RoundNum(n: Num, d: nat): Num {
    match n
    case Finite(x) => Finite(Round(x, d))
    case NonFinite => NonFinite
  }

  lemma DivideBounds(a: real, b: real, s: real)
    requires s > 0.0 && a <= b
    ensures a / s <= b / s
  {
    assert b / s - a / s == (b - a) / s;
  }

  /** Rounding a non-negative y at scale s, written with the scale as a plain variable. */
  lemma MagnitudeError(y: real, s: real)
    requires y >= 0.0 && s > 0.0
    ensures -(0.5 / s) <= RoundMagnitude(y, s) - y <= 0.5 / s
  {
    var f := (y * s + 0.5).Floor as real;
    assert y * s - 0.5 < f <= y * s + 0.5;
    assert f / s - y == (f - y * s) / s;
    DivideBounds(-0.5, f - y * s, s);
    DivideBounds(f - y * s, 0.5, s);
  }

  /** Rounding moves a number by at most half a unit of the last kept place. */
  lemma RoundError(x: real, d: nat)
    ensures -(0.5 / Pow10(d) as real) <= Round(x, d) - x <= 0.5 / Pow10(d) as real
  {
    var s := Pow10(d) as real;
    if x < 0.0 {
      MagnitudeError(-x, s);
    } else {
      MagnitudeError(x, s);
    }
  }

  lemma MagnitudeIdempotent(y: real, s: real)
    requires y >= 0.0 && s > 0.0
    ensures RoundMagnitude(y, s) >= 0.0
    ensures RoundMagnitude(RoundMagnitude(y, s), s) == RoundMagnitude(y, s)
  {
    var k := (y * s + 0.5).Floor;
    assert k >= 0;
    var m := k as real / s;
    assert m >= 0.0;
    assert m * s == k as real;
    assert (m * s + 0.5).Floor == k;
    assert RoundMagnitude(y, s) == m;
    assert RoundMagnitude(m, s) == k as real / s;
  }

  /** Rounding an already rounded number changes nothing. */
  lemma RoundIdempotent(x: real, d: nat)
    ensures Round(Round(x, d), d) == Round(x, d)
  {
    var s := Pow10(d) as real;
    if x < 0.0 {
      MagnitudeIdempotent(-x, s);
      var m := RoundMagnitude(-x, s);
      if m != 0.0 {
        assert Round(x, d) == -m && -m < 0.0;
        assert Round(-m, d) == -RoundMagnitude(m, s);
      }
    } else {
      MagnitudeIdempotent(x, s);
    }
  }

  // ----- numbers as text -----

  predicate IsDigit(c: char) { '0' <= c <= '9' }

  predicate AllDigits(s: string) { forall i :: 0 <= i < |s| ==> IsDigit(s[i]) }

  function DigitChar(k: nat): (c: char)
    requires k < 10
    ensures IsDigit(c)
  {
    ('0' as int + k) as char
  }

  /** The value of a string of decimal digits, most significant first. */
  function DigitsValue(s: string): nat
    requires AllDigits(s)
    decreases |s|
  {
    if s == [] then 0 else 10 * DigitsValue(s[..|s| - 1]) + (s[|s| - 1] as int - '0' as int)
  }

  /** The decimal digits of n, without leading zeros. */
  function NatText(n: nat): string
    decreases n
  {
    if n < 10 then [DigitChar(n)] else NatText(n / 10) + [DigitChar(n % 10)]
  }

  /** Index of the first '.' of s, or |s| when there is none. */
  function DotIndex(s: string): (i: nat)
    ensures i <= |s|
    ensures i < |s| ==> s[i] == '.'
    ensures forall j :: 0 <= j < i ==> s[j] != '.'
  {
    if s == [] then 0 else if s[0] == '.' then 0 else 1 + DotIndex(s[1..])
  }

  /**
   * The value of an unsigned decimal literal "ddd", "ddd.ddd", "ddd." or
   * ".ddd" (at least one digit); None for any other text.
   */
  function UnsignedValue(s: string): Option<real> {
    var i := DotIndex(s);
    if i == |s| then
      (if s != [] && AllDigits(s) then Some(DigitsValue(s) as real) else None)
    else if |s| > 1 && AllDigits(s[..i]) && AllDigits(s[i + 1..]) then
      Some(DigitsValue(s[..i]) as real + DigitsValue(s[i + 1..]) as real / Pow10(|s| - i - 1) as real)
    else None
  }

  /**
   * Number(s) for a string: the empty string is 0, a decimal literal with
   * an optional sign is its value, anything else is NaN.
   */
  function ParseNumber(s: string): Num {
    if s == [] then Finite(0.0)
    else
      var sign := if s[0] == '-' then -1.0 else 1.0;
      var body := if s[0] == '-' || s[0] == '+' then s[1..] else s;
      match UnsignedValue(body)
      case Some(v) => Finite(sign * v)
      case None => NonFinite
  }

  /**
   * n.toFixed(0): the rounded magnitude in digits, with a '-' in front of a
   * negative number (so -0.4 gives "-0", as in JavaScript); "NaN" for NonFinite.
   */
  function FixedZeroText(n: Num): string {
    match n
    case NonFinite => "NaN"
    case Finite(x) =>
      if x < 0.0 then "-" + NatText(((-x) + 0.5).Floor) else NatText((x + 0.5).Floor)
  }

  lemma {:induction false} NatTextDigits(n: nat)
    ensures |NatText(n)| > 0 && AllDigits(NatText(n)) && DigitsValue(NatText(n)) == n
    decreases n
  {
    if n >= 10 {
      NatTextDigits(n / 10);
      var t := NatText(n / 10) + [DigitChar(n % 10)];
      assert t[..|t| - 1] == NatText(n / 10);
    }
  }

  /** Number(text) reads back exactly the value the digits of n spell. */
  lemma NatTextParses(n: nat)
    ensures ParseNumber(NatText(n)) == Finite(n as real)
  {
    NatTextDigits(n);
    var t := NatText(n);
    assert t[0] != '-' && t[0] != '+' && t[0] != '.' by { assert IsDigit(t[0]); }
    assert forall j :: 0 <= j < |t| ==> t[j] != '.' by {
      forall j | 0 <= j < |t| ensures t[j] != '.' { assert IsDigit(t[j]); }
    }
  }

  /** Number(n.toFixed(0)) is n rounded to a whole number. */
  lemma FixedZeroTextParses(n: Num)
    ensures ParseNumber(FixedZeroText(n)) == RoundNum(n, 0)
  {
    match n
    case NonFinite =>
      NaNTextParses();
    case Finite(x) =>
      if x < 0.0 {
        NegativeFixedZeroParses(x);
      } else {
        NonNegativeFixedZeroParses(x);
      }
  }

  /** Number("NaN") is NaN. */
  lemma NaNTextParses()
    ensures ParseNumber("NaN") == NonFinite
  {
    assert DotIndex("NaN") == 3;
  }

  lemma NonNegativeFixedZeroParses(x: real)
    requires x >= 0.0
    ensures ParseNumber(NatText((x + 0.5).Floor)) == Finite(Round(x, 0))
  {
    NatTextParses((x + 0.5).Floor);
    assert Pow10(0) as real == 1.0;
    assert Round(x, 0) == RoundMagnitude(x, 1.0);
    assert RoundMagnitude(x, 1.0) == (x + 0.5).Floor as real;
  }

  lemma NegativeFixedZeroParses(x: real)
    requires x < 0.0
    ensures ParseNumber("-" + NatText(((-x) + 0.5).Floor)) == Finite(Round(x, 0))
  {
    var k: nat := ((-x) + 0.5).Floor;
    var t := NatText(k);
    NatTextParses(k);
    NatTextDigits(k);
    var s := "-" + t;
    assert s[0] == '-';
    assert s[1..] == t;
    assert t[0] != '-' && t[0] != '+' by { assert IsDigit(t[0]); }
    assert UnsignedValue(t) == Some(k as real);
    assert ParseNumber(s) == Finite(-1.0 * (k as real));
    assert Pow10(0) as real == 1.0;
    assert Round(x, 0) == -RoundMagnitude(-x, 1.0);
    assert RoundMagnitude(-x, 1.0) == k as real;
  }
}
