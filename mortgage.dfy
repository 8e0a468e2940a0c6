/**
 * The mortgage derivation of server/routes/properties.router.js: the fixed
 * 20% down payment and 3% closing costs (lines 375-377, 419-420), the
 * effective annual rate re-derived from the amortization provider's total
 * interest and rounded to three places (line 391), and the monthly chain
 * that ends in the monthly interest payment (lines 445-447).
 */
module Mortgage {
  import opened JsNumber
  import opened CurrencyText

  const DownPaymentShare: real := 0.2
  const ClosingCostShare: real := 0.03
  /** defaultLoanTerm, line 108. */
  const DefaultLoanTerm: nat := 30

  /** A default_mortgage_calculations row (lines 396-407), without its key and time stamp. */
  datatype DefaultCalculation = DefaultCalculation(interestRate: real, baseLoanAmount: real, interestRateAnnual: Num)

  /** A mortgage_calculations row (lines 449-469), without its key and time stamp. */
  datatype MortgageCalculation = MortgageCalculation(
    interestRate: real,
    downPayment: real,
    baseLoanAmount: real,
    closingCosts: real,
    interestRateAnnual: Num,
    interestRateMonthly: Num,
    interestDecimalMonthly: Num,
    interestPaymentMonthly: Num)

  function DownPayment(purchasePrice: real): real { purchasePrice * DownPaymentShare }

  function ClosingCosts(purchasePrice: real): real { purchasePrice * ClosingCostShare }

  function BaseLoanAmount(purchasePrice: real): real { purchasePrice - DownPayment(purchasePrice) }

  /** The three amounts a refresh derives from the price split it as the policy says. */
  lemma PriceSplit(purchasePrice: real)
    ensures DownPayment(purchasePrice) + BaseLoanAmount(purchasePrice) == purchasePrice
    ensures BaseLoanAmount(purchasePrice) == 0.8 * purchasePrice
    ensures DownPayment(purchasePrice) == 0.2 * purchasePrice
    ensures ClosingCosts(purchasePrice) == 0.03 * purchasePrice
  {
  }

  /**
   * Number(((((totalInterestPaid / baseLoanAmount) / (term * 365)) * 365) * 100).toFixed(3)),
   * computed step by step as line 391 does.
   */
  function EffectiveAnnualRate(totalInterestPaid: real, baseLoanAmount: real, termYears: nat): (r: Num)
    ensures r.Finite? <==> baseLoanAmount != 0.0 && termYears != 0
  {
    var perLoan := Quotient(Finite(totalInterestPaid), Finite(baseLoanAmount));
    var perDay := Quotient(perLoan, Finite((termYears * 365) as real));
    match perDay
    case Finite(d) => Finite(Round(d * 365.0 * 100.0, 3))
    case NonFinite => NonFinite
  }

  /**
   * The day-count factors cancel: the rate is a hundred times the total
   * interest per loaned unit per year of term, rounded to three places.
   */
  lemma EffectiveRateSimplified(totalInterestPaid: real, baseLoanAmount: real, termYears: nat)
    requires baseLoanAmount != 0.0 && termYears != 0
    ensures EffectiveAnnualRate(totalInterestPaid, baseLoanAmount, termYears)
      == Finite(Round(100.0 * totalInterestPaid / (baseLoanAmount * (termYears as real)), 3))
  {
    var n := termYears as real;
    var perLoan := Quotient(Finite(totalInterestPaid), Finite(baseLoanAmount));
    var perDay := Quotient(perLoan, Finite((termYears * 365) as real));
    assert (termYears * 365) as real == n * 365.0;
    assert perLoan == Finite(totalInterestPaid / baseLoanAmount);
    assert perDay == Finite((totalInterestPaid / baseLoanAmount) / (n * 365.0));
    SimplifyRate(totalInterestPaid, baseLoanAmount, n);
    var exact := 100.0 * totalInterestPaid / (baseLoanAmount * n);
    assert perDay.value * 365.0 * 100.0 == exact;
    assert exact == 100.0 * totalInterestPaid / (baseLoanAmount * (termYears as real));
    assert EffectiveAnnualRate(totalInterestPaid, baseLoanAmount, termYears) == Finite(Round(exact, 3));
  }

  lemma SimplifyRate(t: real, b: real, n: real)
    requires b != 0.0 && n != 0.0
    ensures ((t / b) / (n * 365.0)) * 365.0 * 100.0 == 100.0 * t / (b * n)
  {
    calc {
      ((t / b) / (n * 365.0)) * 365.0 * 100.0;
      == (t / b) / n * 100.0;
      == 100.0 * t / (b * n);
    }
  }

  /** Before rounding, the rate is total interest per year of term, as a percentage of the loan. */
  lemma EffectiveRateWithinRounding(totalInterestPaid: real, baseLoanAmount: real, termYears: nat)
    requires baseLoanAmount != 0.0 && termYears != 0
    ensures var exact := 100.0 * totalInterestPaid / (baseLoanAmount * (termYears as real));
      -0.0005 <= EffectiveAnnualRate(totalInterestPaid, baseLoanAmount, termYears).value - exact <= 0.0005
  {
    var exact := 100.0 * totalInterestPaid / (baseLoanAmount * (termYears as real));
    EffectiveRateSimplified(totalInterestPaid, baseLoanAmount, termYears);
    RoundError(exact, 3);
    assert Pow10(3) == 1000;
  }

  /** interestRateAnnual / 12. */
  function MonthlyRate(annual: Num): (r: Num)
    ensures r.Finite? <==> annual.Finite?
    ensures r.Finite? ==> r.value * 12.0 == annual.value
  {
    Quotient(annual, Finite(12.0))
  }

  /** interestRateMonthly / 100. */
  function MonthlyDecimal(annual: Num): (r: Num)
    ensures r.Finite? <==> annual.Finite?
    ensures r.Finite? ==> r.value * 1200.0 == annual.value
  {
    Quotient(MonthlyRate(annual), Finite(100.0))
  }

  /** interestDecimalMonthly * baseLoanAmount. */
  function MonthlyInterestPayment(annual: Num, baseLoanAmount: real): (r: Num)
    ensures r.Finite? <==> annual.Finite?
    ensures r.Finite? ==> r.value == annual.value * baseLoanAmount / 1200.0
  {
    match MonthlyDecimal(annual)
    case Finite(d) => Finite(d * baseLoanAmount)
    case NonFinite => NonFinite
  }

  /**
   * The row a mortgage-calculation refresh inserts (lines 445-460): the
   * monthly figures are all derived from the annual rate.
   */
  function NewMortgageCalculation(interestRate: real, downPayment: real, baseLoanAmount: real,
                                  closingCosts: real, annual: Num): (m: MortgageCalculation)
    ensures m.interestRate == interestRate && m.downPayment == downPayment
    ensures m.baseLoanAmount == baseLoanAmount && m.closingCosts == closingCosts
    ensures m.interestRateAnnual == annual
    ensures m.interestRateMonthly.Finite? <==> annual.Finite?
    ensures m.interestDecimalMonthly.Finite? <==> annual.Finite?
    ensures m.interestPaymentMonthly.Finite? <==> annual.Finite?
    ensures annual.Finite? ==>
      && m.interestRateMonthly.value * 12.0 == annual.value
      && m.interestDecimalMonthly.value * 1200.0 == annual.value
      && m.interestPaymentMonthly.value == m.interestDecimalMonthly.value * baseLoanAmount
  {
    MortgageCalculation(interestRate, downPayment, baseLoanAmount, closingCosts, annual,
      MonthlyRate(annual), MonthlyDecimal(annual), MonthlyInterestPayment(annual, baseLoanAmount))
  }

  // ----- reading a row back (getMortgageCalculationsFixData, lines 1640-1667) -----

  /** Number(Number(row.down_payment).toFixed(0)). */
  function DownPaymentRead(m: MortgageCalculation): real { Round(m.downPayment, 0) }

  /** Number(Number(row.closing_costs).toFixed(0)). */
  function ClosingCostsRead(m: MortgageCalculation): real { Round(m.closingCosts, 0) }

  /**
   * The monthly payment after '$' + value and the [^0-9.-] clean-up: a
   * finite value comes back unchanged, NaN comes back as 0.
   */
  function InterestPaymentRead(m: MortgageCalculation): real {
    match m.interestPaymentMonthly
    case Finite(v) => v
    case NonFinite => 0.0
  }

  /**
   * InterestPaymentRead agrees with the text round trip: for a finite value
   * whose column text is made of digits, '.' and '-', and for NaN.
   */
  lemma InterestPaymentReadIsTextRoundTrip(m: MortgageCalculation, columnText: string)
    requires m.interestPaymentMonthly.Finite? ==>
      && (forall i :: 0 <= i < |columnText| ==> IsNumericChar(columnText[i]))
      && ParseNumber(columnText) == m.interestPaymentMonthly
    requires m.interestPaymentMonthly.NonFinite? ==> columnText == "NaN"
    ensures CurrencyValue(Dollars(columnText)) == Finite(InterestPaymentRead(m))
  {
    if m.interestPaymentMonthly.NonFinite? {
      NaNReadsAsZero();
    } else {
      DollarsRoundTrip(columnText);
    }
  }

  /** The monthly payment NaN occurs exactly when the base loan is zero (a zero price). */
  lemma PaymentFiniteIffLoan(totalInterestPaid: real, purchasePrice: real)
    ensures var base := BaseLoanAmount(purchasePrice);
      MonthlyInterestPayment(EffectiveAnnualRate(totalInterestPaid, base, DefaultLoanTerm), base).Finite?
      <==> purchasePrice != 0.0
  {
  }
}
