/**
 * The server's currency text round trip: a stored payment is shown as
 * '$' + value (server/routes/properties.router.js:1662) and read back by
 * deleting every character outside [0-9.-] and applying Number (line 494).
 */
module CurrencyText {
  import opened JsNumber
  import opened TextFilter

  /** The characters /[^0-9.-]+/g leaves alone. */
  predicate IsNumericChar(c: char) { IsDigit(c) || c == '.' || c == '-' }

  function Dollars(s: string): string { "$" + s }

  /** Number(text.replace(/[^0-9.-]+/g, "")). */
  function CurrencyValue(text: string): Num {
    ParseNumber(Filter(text, IsNumericChar))
  }

  /** Only digits, '.' and '-' survive the clean-up. */
  lemma CleanedIsNumeric(text: string)
    ensures forall i :: 0 <= i < |Filter(text, IsNumericChar)| ==> IsNumericChar(Filter(text, IsNumericChar)[i])
  {
    FilterOnlyKept(text, IsNumericChar);
  }

  /** Stripping '$' + s gives back s whenever s has only digits, '.' and '-'. */
  lemma DollarsRoundTrip(s: string)
    requires forall i :: 0 <= i < |s| ==> IsNumericChar(s[i])
    ensures Filter(Dollars(s), IsNumericChar) == s
    ensures CurrencyValue(Dollars(s)) == ParseNumber(s)
  {
    FilterAppend("$", s, IsNumericChar);
    FilterKeepsAll(s, IsNumericChar);
    assert Filter("$", IsNumericChar) == [];
  }

  /** A payment stored as NaN is shown as "$NaN" and read back as 0. */
  lemma NaNReadsAsZero()
    ensures CurrencyValue(Dollars("NaN")) == Finite(0.0)
  {
    assert Dollars("NaN") == "$NaN";
    assert Filter("$NaN", IsNumericChar) == [];
  }

  /** The digits of a whole number round trip to that number. */
  lemma WholeDollarsRoundTrip(n: nat)
    ensures CurrencyValue(Dollars(NatText(n))) == Finite(n as real)
  {
    NatTextDigits(n);
    var t := NatText(n);
    assert forall i :: 0 <= i < |t| ==> IsNumericChar(t[i]);
    DollarsRoundTrip(t);
    NatTextParses(n);
  }
}
