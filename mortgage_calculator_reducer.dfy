/**
 * The client's mortgage-calculator reducer
 * (src/redux/reducers/mortgageCalculator.reducer.js): the state is the
 * mortgage-calculation object the server sent, and the editor's four
 * update actions rewrite an amount and its percentage of the purchase
 * price together, each from the other.
 */
module MortgageCalculatorReducer {
  import opened JsNumber
  import opened TextFilter

  /** A field of the state or of an action's payload: a string or a number. */
  datatype Value = Text(text: string) | Number(number: Num)

  /** A plain object: its own keys and their values. */
  type State = map<string, Value>

  /** The reducer's default state, {}. */
  const InitialState: State := map[]

  const DownPaymentKey: string := "down_payment"
  const DownPaymentPercentageKey: string := "down_payment_percentage"
  const ClosingCostsKey: string := "closing_costs"
  const ClosingCostsPercentageKey: string := "closing_costs_percentage"

  /**
   * The actions the reducer tells apart, with the payload fields each one
   * reads; Other stands for an action of any other type.
   */
  datatype Action =
    | SetCalculations(payload: State)
    | UnsetCalculations
    | UpdateDownPayment(downPayment: string, purchasePrice: Value)
    | UpdateDownPaymentPercentage(purchasePrice: Value, downPaymentPercent: Value)
    | UpdateClosingCosts(closingCosts: string, purchasePrice: Value)
    | UpdateClosingCostsPercentage(purchasePrice: Value, closingCostsPercentage: Value)
    | Other(actionType: string)

  /** Number(v). */
  function ToNumber(v: Value): Num {
    match v
    case Text(s) => ParseNumber(s)
    case Number(n) => n
  }

  /** The characters the amount loops keep: all but '$' and ','. */
  predicate KeptInAmount(c: char) { c != '$' && c != ',' }

  /** An amount as typed, with every '$' and ',' removed. */
  function Stripped(s: string): string {
    Filter(s, KeptInAmount)
  }

  /** (amount / purchasePrice).toFixed(4) * 100, on the two Number()s. */
  function PercentageOf(amount: Num, purchasePrice: Num): Num {
    match Quotient(amount, purchasePrice)
    case Finite(share) => Finite(Round(share, 4) * 100.0)
    case NonFinite => NonFinite
  }

  /** purchasePrice * (percent / 100): NaN once either is not a number. */
  function Scaled(purchasePrice: Num, percent: Num): (r: Num)
    ensures r.Finite? <==> purchasePrice.Finite? && percent.Finite?
  {
    if purchasePrice.Finite? && percent.Finite? then Finite(purchasePrice.value * (percent.value / 100.0)) else NonFinite
  }

  /** (purchasePrice * (percent / 100)).toFixed(0), a string. */
  function AmountOf(purchasePrice: Num, percent: Num): string {
    FixedZeroText(Scaled(purchasePrice, percent))
  }

  /** The value mortgageCalculatorReducer returns (lines 1-49 of the reducer). */
  function Reduced(state: State, action: Action): State {
    match action
    case SetCalculations(payload) => payload
    case UnsetCalculations => map[]
    case UpdateDownPayment(amount, price) =>
      var text := Stripped(amount);
      state[DownPaymentKey := Text(text)][DownPaymentPercentageKey := Number(PercentageOf(ParseNumber(text), ToNumber(price)))]
    case UpdateDownPaymentPercentage(price, percent) =>
      state[DownPaymentKey := Text(AmountOf(ToNumber(price), ToNumber(percent)))][DownPaymentPercentageKey := percent]
    case UpdateClosingCosts(amount, price) =>
      var text := Stripped(amount);
      state[ClosingCostsKey := Text(text)][ClosingCostsPercentageKey := Number(PercentageOf(ParseNumber(text), ToNumber(price)))]
    case UpdateClosingCostsPercentage(price, percent) =>
      state[ClosingCostsKey := Text(AmountOf(ToNumber(price), ToNumber(percent)))][ClosingCostsPercentageKey := percent]
    case Other(_) => state
  }

  /** The for...of loop of lines 9-19 and 28-38: append every character but '$' and ','. */
  method StripAmount(s: string) returns (r: string)
    ensures r == Stripped(s)
  {
    r := "";
    for i := 0 to |s|
      invariant r == Stripped(s[..i])
    {
      assert s[..i + 1] == s[..i] + [s[i]];
      FilterAppend(s[..i], [s[i]], KeptInAmount);
      assert Filter([s[i]], KeptInAmount) == if KeptInAmount(s[i]) then [s[i]] else [];
      if s[i] == '$' {
      } else if s[i] == ',' {
      } else {
        r := r + [s[i]];
      }
    }
    assert s[..|s|] == s;
  }

  /** mortgageCalculatorReducer: the switch on the action's type. */
  method Reduce(state: State, action: Action) returns (next: State)
    ensures next == Reduced(state, action)
  {
    match action {
      case SetCalculations(payload) =>
        next := payload;
      case UnsetCalculations =>
        next := map[];
      case UpdateDownPayment(amount, price) =>
        var text := StripAmount(amount);
        var percentage := PercentageOf(ParseNumber(text), ToNumber(price));
        next := state[DownPaymentKey := Text(text)][DownPaymentPercentageKey := Number(percentage)];
      case UpdateDownPaymentPercentage(price, percent) =>
        var amount := AmountOf(ToNumber(price), ToNumber(percent));
        next := state[DownPaymentKey := Text(amount)][DownPaymentPercentageKey := percent];
      case UpdateClosingCosts(amount, price) =>
        var text := StripAmount(amount);
        var percentage := PercentageOf(ParseNumber(text), ToNumber(price));
        next := state[ClosingCostsKey := Text(text)][ClosingCostsPercentageKey := Number(percentage)];
      case UpdateClosingCostsPercentage(price, percent) =>
        var amount := AmountOf(ToNumber(price), ToNumber(percent));
        next := state[ClosingCostsKey := Text(amount)][ClosingCostsPercentageKey := percent];
      case Other(_) =>
        next := state;
    }
  }

  // ----- what the reducer promises -----

  /**
   * The stripped amount has no '$' and no ',', every other character
   * occurs in it as often as in the input, and stripping again changes
   * nothing.
   */
  lemma StrippedFacts(s: string, c: char)
    ensures forall i :: 0 <= i < |Stripped(s)| ==> Stripped(s)[i] != '$' && Stripped(s)[i] != ','
    ensures multiset(Stripped(s))[c] == if c == '$' || c == ',' then 0 else multiset(s)[c]
    ensures Stripped(Stripped(s)) == Stripped(s)
  {
    FilterOnlyKept(s, KeptInAmount);
    FilterCounts(s, KeptInAmount, c);
    FilterIdempotent(s, KeptInAmount);
  }

  /**
   * Stripping keeps the other characters in their order: it works piece
   * by piece, and an amount free of '$' and ',' comes back unchanged.
   */
  lemma StrippedKeepsOrder(a: string, b: string)
    ensures Stripped(a + b) == Stripped(a) + Stripped(b)
    ensures (forall i :: 0 <= i < |a| ==> a[i] != '$' && a[i] != ',') ==> Stripped(a) == a
  {
    FilterAppend(a, b, KeptInAmount);
    if forall i :: 0 <= i < |a| ==> a[i] != '$' && a[i] != ',' {
      FilterKeepsAll(a, KeptInAmount);
    }
  }

  /**
   * The percentage is finite exactly when the amount and the price are
   * numbers and the price is not zero; it is then the amount's share of
   * the price rounded to four places, times 100, so within 0.005 of the
   * exact percentage.
   */
  lemma PercentageMeaning(amount: Num, purchasePrice: Num)
    ensures PercentageOf(amount, purchasePrice).Finite?
        <==> amount.Finite? && purchasePrice.Finite? && purchasePrice.value != 0.0
    ensures PercentageOf(amount, purchasePrice).Finite? ==>
      var exact := amount.value / purchasePrice.value;
      && PercentageOf(amount, purchasePrice).value == Round(exact, 4) * 100.0
      && -0.005 <= PercentageOf(amount, purchasePrice).value - 100.0 * exact <= 0.005
  {
    if amount.Finite? && purchasePrice.Finite? && purchasePrice.value != 0.0 {
      PercentOfShare(amount.value / purchasePrice.value);
    }
  }

  /**
   * The amount text a percentage update stores reads back as the price
   * times the percentage over 100, rounded to a whole number (NaN when
   * either is not a number): the text loses nothing toFixed(0) kept.
   */
  lemma AmountMeaning(purchasePrice: Num, percent: Num)
    ensures ParseNumber(AmountOf(purchasePrice, percent)) == RoundNum(Scaled(purchasePrice, percent), 0)
  {
    FixedZeroTextParses(Scaled(purchasePrice, percent));
  }

  /** A whole-dollar error of at most 0.5 is at most 50 / price points of percentage. */
  lemma PercentagePointError(amount: real, exact: real, price: real)
    requires price > 0.0 && -0.5 <= amount - exact <= 0.5
    ensures -(50.0 / price) <= 100.0 * (amount / price) - 100.0 * (exact / price) <= 50.0 / price
  {
    assert 100.0 * (amount / price) - 100.0 * (exact / price) == (100.0 * (amount - exact)) / price;
    DivideBounds(-50.0, 100.0 * (amount - exact), price);
    DivideBounds(100.0 * (amount - exact), 50.0, price);
  }

  /** A price times a percentage over 100, divided by the price, is that percentage over 100. */
  lemma ShareOfScaled(price: real, pct: real)
    requires price != 0.0
    ensures 100.0 * ((price * (pct / 100.0)) / price) == pct
  {
    var share := pct / 100.0;
    assert (price * share) / price == share;
  }

  /**
   * The two editors agree: the percentage of the rounded amount a
   * percentage update stores (which AmountMeaning shows its text reads
   * back as) is the percentage typed, up to the rounding of toFixed(4)
   * (0.005 points) and of toFixed(0) (50 / price points).
   */
  lemma PercentageRoundTrip(purchasePrice: Num, percent: Num)
    requires purchasePrice.Finite? && purchasePrice.value > 0.0 && percent.Finite?
    ensures PercentageOf(RoundNum(Scaled(purchasePrice, percent), 0), purchasePrice).Finite?
    ensures var error := 0.005 + 50.0 / purchasePrice.value;
      var back := PercentageOf(RoundNum(Scaled(purchasePrice, percent), 0), purchasePrice);
      -error <= back.value - percent.value <= error
  {
    var exact := purchasePrice.value * (percent.value / 100.0);
    assert Scaled(purchasePrice, percent) == Finite(exact);
    RoundError(exact, 0);
    PercentageWithin(RoundNum(Scaled(purchasePrice, percent), 0), purchasePrice, percent.value, Round(exact, 0));
  }

  /**
   * The percentage of an amount within half a dollar of the price times
   * pct / 100 is within 0.005 + 50 / price of pct.
   */
  lemma PercentageWithin(amount: Num, purchasePrice: Num, pct: real, near: real)
    requires amount == Finite(near)
    requires purchasePrice.Finite? && purchasePrice.value > 0.0
    requires -0.5 <= near - purchasePrice.value * (pct / 100.0) <= 0.5
    ensures PercentageOf(amount, purchasePrice).Finite?
    ensures var error := 0.005 + 50.0 / purchasePrice.value;
      -error <= PercentageOf(amount, purchasePrice).value - pct <= error
  {
    var share := near / purchasePrice.value;
    assert PercentageOf(amount, purchasePrice) == Finite(Round(share, 4) * 100.0);
    PercentOfShare(share);
    RoundTripArithmetic(purchasePrice.value, pct, near, Round(share, 4) * 100.0);
  }

  /** A share rounded to four places, times 100, is within 0.005 of the exact percentage. */
  lemma PercentOfShare(share: real)
    ensures -0.005 <= Round(share, 4) * 100.0 - 100.0 * share <= 0.005
  {
    RoundError(share, 4);
    assert Pow10(4) == 10000;
  }

  /** The error bound of the round trip, on plain numbers. */
  lemma RoundTripArithmetic(price: real, pct: real, amount: real, back: real)
    requires price > 0.0
    requires -0.5 <= amount - price * (pct / 100.0) <= 0.5
    requires -0.005 <= back - 100.0 * (amount / price) <= 0.005
    ensures -(0.005 + 50.0 / price) <= back - pct <= 0.005 + 50.0 / price
  {
    PercentagePointError(amount, price * (pct / 100.0), price);
    ShareOfScaled(price, pct);
  }

  /** The two fields an action writes; none for SET, UNSET and other types. */
  function WrittenKeys(action: Action): set<string> {
    match action
    case UpdateDownPayment(_, _) => {DownPaymentKey, DownPaymentPercentageKey}
    case UpdateDownPaymentPercentage(_, _) => {DownPaymentKey, DownPaymentPercentageKey}
    case UpdateClosingCosts(_, _) => {ClosingCostsKey, ClosingCostsPercentageKey}
    case UpdateClosingCostsPercentage(_, _) => {ClosingCostsKey, ClosingCostsPercentageKey}
    case _ => {}
  }

  /**
   * An update writes its amount and its percentage and keeps every other
   * key of the state, with its value, as the spread does.
   */
  lemma UpdateKeepsOtherKeys(state: State, action: Action, k: string)
    requires !action.SetCalculations? && !action.UnsetCalculations?
    requires k !in WrittenKeys(action)
    ensures var next := Reduced(state, action);
      && (k in next <==> k in state)
      && (k in state ==> next[k] == state[k])
    ensures Reduced(state, action).Keys == state.Keys + WrittenKeys(action)
  {
  }

  /** What each update stores in its two fields. */
  lemma UpdatedFields(state: State, action: Action)
    ensures action.UpdateDownPayment? ==>
      var next := Reduced(state, action);
      var text := Stripped(action.downPayment);
      && next[DownPaymentKey] == Text(text)
      && next[DownPaymentPercentageKey] == Number(PercentageOf(ParseNumber(text), ToNumber(action.purchasePrice)))
    ensures action.UpdateClosingCosts? ==>
      var next := Reduced(state, action);
      var text := Stripped(action.closingCosts);
      && next[ClosingCostsKey] == Text(text)
      && next[ClosingCostsPercentageKey] == Number(PercentageOf(ParseNumber(text), ToNumber(action.purchasePrice)))
    ensures action.UpdateDownPaymentPercentage? ==>
      var next := Reduced(state, action);
      && next[DownPaymentKey] == Text(AmountOf(ToNumber(action.purchasePrice), ToNumber(action.downPaymentPercent)))
      && next[DownPaymentPercentageKey] == action.downPaymentPercent
    ensures action.UpdateClosingCostsPercentage? ==>
      var next := Reduced(state, action);
      && next[ClosingCostsKey] == Text(AmountOf(ToNumber(action.purchasePrice), ToNumber(action.closingCostsPercentage)))
      && next[ClosingCostsPercentageKey] == action.closingCostsPercentage
  {
  }

  /**
   * SET_CALCULATIONS replaces the state by the payload, UNSET_CALCULATIONS
   * empties it, and any other type leaves it alone.
   */
  lemma WholeStateActions(state: State, action: Action)
    ensures action.SetCalculations? ==> Reduced(state, action) == action.payload
    ensures action.UnsetCalculations? ==> Reduced(state, action) == InitialState
    ensures action.Other? ==> Reduced(state, action) == state
  {
  }

  /**
   * Typing an amount with '$' and ',' separators is the same as typing its
   * bare digits: both the stored text and the percentage agree.
   */
  lemma SeparatorsIgnored(state: State, amount: string, purchasePrice: Value)
    ensures Reduced(state, UpdateDownPayment(amount, purchasePrice))
         == Reduced(state, UpdateDownPayment(Stripped(amount), purchasePrice))
  {
    FilterIdempotent(amount, KeptInAmount);
  }
}
