/**
 * Building a property_api_data row from the three property-data provider
 * responses on a cache miss (server/routes/properties.router.js:141-232 for
 * POST /, 794-872 for PUT /backToDefault/:id): the listing fallback built
 * from the records response with JavaScript truthiness (lines 184-194) and
 * the tax-year extraction (lines 200-208).
 */
module ProviderData {
  import opened Wrappers
  import opened JsNumber

  /** A JavaScript value that is null, undefined or a number. */
  datatype Amount = Null | Undefined | Known(value: real)

  /** The number arithmetic sees: null counts as 0, undefined as NaN. */
  function AsNumber(a: Amount): Num {
    match a
    case Null => Finite(0.0)
    case Undefined => NonFinite
    case Known(v) => Finite(v)
  }

  /** The column value a parameterized INSERT stores: null and undefined both become NULL. */
  function AsColumn(a: Amount): Option<real> {
    if a.Known? then Some(a.value) else None
  }

  datatype ValueEstimate = ValueEstimate(price: real, priceRangeHigh: real)

  /**
   * One year of a records response's propertyTaxes. A None total is an
   * absent one, read as undefined; a null total gives the same NULL
   * taxYear as absent propertyTaxes and is modelled as propertyTaxes None.
   */
  datatype TaxEntry = TaxEntry(total: Option<real>)

  /** One element of the records response; None is an absent or null field. */
  datatype PropertyRecord = PropertyRecord(
    formattedAddress: string,
    propertyType: Option<string>,
    bedrooms: Option<real>,
    bathrooms: Option<real>,
    squareFootage: Option<real>,
    propertyTaxes: Option<map<int, TaxEntry>>)

  /** One element of the sale-listing response, or the fallback built in its place. */
  datatype Listing = Listing(
    formattedAddress: string,
    price: real,
    propertyType: Option<string>,
    bedrooms: Option<real>,
    bathrooms: Option<real>,
    squareFootage: Option<real>)

  /** A property_api_data row without its id, key and time stamp (lines 210-229). */
  datatype MarketData = MarketData(
    address: string,
    purchasePrice: real,
    taxesYearly: Option<real>,
    afterRepairValue: real,
    propertyType: Option<string>,
    bedrooms: Option<real>,
    bathrooms: Option<real>,
    squareFootage: Option<real>)

  /** Why a route stops (and rolls back): a thrown error of the handler. */
  datatype Failure =
    | ProviderFailed        // an axios call rejected
    | EmptyProviderData     // data[0] of an empty response read
    | MissingTaxYear        // propertyTaxes has no entry for last year
    | MissingRow            // rows[0] of an empty result read
    | UndeclaredVariable    // a ReferenceError

  /** The calls made to the outside services, in order, with their arguments. */
  datatype ProviderCall =
    | ValueEstimateCall(address: string)
    | RecordsCall(address: string)
    | ListingCall(address: string)
    | InterestRateCall
    | CalculatorCall(loanAmount: real, interestRate: real, durationYears: nat, downPayment: real)

  /**
   * The answers the services give; None is a failed call. The calculator
   * answers total_interest_paid, the interest-rate service rate_pct.
   */
  datatype Providers = Providers(
    valueEstimate: string -> Option<ValueEstimate>,
    records: string -> Option<seq<PropertyRecord>>,
    listing: string -> Option<seq<Listing>>,
    interestRate: Option<real>,
    calculator: (real, real, nat, real) -> Option<real>)

  const DefaultPropertyType: string := "Single Family"
  const DefaultBedrooms: real := 3.0
  const DefaultBathrooms: real := 2.0
  const DefaultSquareFootage: real := 1500.0

  /** JavaScript truthiness of a text field: absent, null and "" are falsy. */
  predicate TruthyText(v: Option<string>) { v.Some? && v.value != "" }

  /** JavaScript truthiness of a number field: absent, null and 0 are falsy. */
  predicate TruthyNumber(v: Option<real>) { v.Some? && v.value != 0.0 }

  function TextOr(v: Option<string>, default: string): string {
    if TruthyText(v) then v.value else default
  }

  function NumberOr(v: Option<real>, default: real): real {
    if TruthyNumber(v) then v.value else default
  }

  /** The listing the catch block builds when the listing call fails (lines 184-194). */
  function FallbackListing(record: PropertyRecord, estimatedPrice: real): (l: Listing)
    ensures l.formattedAddress == record.formattedAddress && l.price == estimatedPrice
    ensures TruthyText(record.propertyType) ==> l.propertyType == record.propertyType
    ensures !TruthyText(record.propertyType) ==> l.propertyType == Some(DefaultPropertyType)
    ensures TruthyNumber(record.bedrooms) ==> l.bedrooms == record.bedrooms
    ensures !TruthyNumber(record.bedrooms) ==> l.bedrooms == Some(DefaultBedrooms)
    ensures TruthyNumber(record.bathrooms) ==> l.bathrooms == record.bathrooms
    ensures !TruthyNumber(record.bathrooms) ==> l.bathrooms == Some(DefaultBathrooms)
    ensures TruthyNumber(record.squareFootage) ==> l.squareFootage == record.squareFootage
    ensures !TruthyNumber(record.squareFootage) ==> l.squareFootage == Some(DefaultSquareFootage)
  {
    Listing(record.formattedAddress, estimatedPrice,
      Some(TextOr(record.propertyType, DefaultPropertyType)),
      Some(NumberOr(record.bedrooms, DefaultBedrooms)),
      Some(NumberOr(record.bathrooms, DefaultBathrooms)),
      Some(NumberOr(record.squareFootage, DefaultSquareFootage)))
  }

  /** The record a listing would give back if its fields were read as a records response. */
  function AsRecord(l: Listing, taxes: Option<map<int, TaxEntry>>): PropertyRecord {
    PropertyRecord(l.formattedAddress, l.propertyType, l.bedrooms, l.bathrooms, l.squareFootage, taxes)
  }

  /**
   * Every field of a fallback listing is truthy, so building the fallback
   * again from its own fields changes nothing.
   */
  lemma FallbackIdempotent(record: PropertyRecord, estimatedPrice: real)
    ensures var l := FallbackListing(record, estimatedPrice);
      && TruthyText(l.propertyType) && TruthyNumber(l.bedrooms)
      && TruthyNumber(l.bathrooms) && TruthyNumber(l.squareFootage)
      && FallbackListing(AsRecord(l, record.propertyTaxes), estimatedPrice) == l
  {
    assert DefaultPropertyType != "";
  }

  /** A record reporting 0 bedrooms or an empty type gets the default, as truthiness dictates. */
  lemma FalsyFieldsTakeDefaults(record: PropertyRecord, estimatedPrice: real)
    requires record.bedrooms == Some(0.0) && record.propertyType == Some("")
    ensures FallbackListing(record, estimatedPrice).bedrooms == Some(3.0)
    ensures FallbackListing(record, estimatedPrice).propertyType == Some("Single Family")
  {
  }

  /**
   * taxYear: null when propertyTaxes is absent, otherwise the total of the
   * entry for currentYear - 1; reading .total of a missing entry throws.
   */
  function ExtractTaxes(taxes: Option<map<int, TaxEntry>>, currentYear: int): (r: Result<Amount, Failure>)
    ensures taxes.None? <==> r == Ok(Null)
    ensures r.Err? <==> taxes.Some? && currentYear - 1 !in taxes.value
    ensures r.Err? ==> r.error == MissingTaxYear
    ensures r.Ok? && taxes.Some? ==>
      && (r.value.Known? <==> taxes.value[currentYear - 1].total.Some?)
      && (r.value.Known? ==> r.value.value == taxes.value[currentYear - 1].total.value)
  {
    match taxes
    case None => Ok(Null)
    case Some(byYear) =>
      if currentYear - 1 !in byYear then Err(MissingTaxYear)
      else
        match byYear[currentYear - 1].total
        case Some(t) => Ok(Known(t))
        case None => Ok(Undefined)
  }

  /** Only last year's entry matters: adding or changing another year leaves the result alone. */
  lemma TaxesIgnoreOtherYears(byYear: map<int, TaxEntry>, year: int, entry: TaxEntry, currentYear: int)
    requires year != currentYear - 1
    ensures ExtractTaxes(Some(byYear[year := entry]), currentYear) == ExtractTaxes(Some(byYear), currentYear)
  {
  }

  /** What a cache miss yields: the new row and the tax value the route goes on computing with. */
  datatype Market = Market(data: MarketData, taxes: Amount)

  datatype MarketFetch = MarketFetch(result: Result<Market, Failure>, calls: seq<ProviderCall>)

  /**
   * The three provider calls of a cache miss. With listingReadInTry (POST /)
   * an empty listing response is caught and takes the fallback; without it
   * (backToDefault) only a failed call does, and an empty response throws
   * later, after the tax extraction.
   */
  function FetchMarketData(address: string, currentYear: int, listingReadInTry: bool, p: Providers): (f: MarketFetch)
    ensures |f.calls| >= 1 && f.calls[0] == ValueEstimateCall(address)
    ensures p.valueEstimate(address).None? ==> f == MarketFetch(Err(ProviderFailed), [ValueEstimateCall(address)])
    ensures f.result.Ok? ==>
      && |f.calls| == 3
      && f.calls[1] == RecordsCall(address)
      && p.valueEstimate(address).Some?
      && p.records(address).Some? && |p.records(address).value| > 0
      && var record := p.records(address).value[0];
      && f.calls[2] == ListingCall(record.formattedAddress)
      && Ok(f.result.value.taxes) == ExtractTaxes(record.propertyTaxes, currentYear)
      && f.result.value.data.taxesYearly == AsColumn(f.result.value.taxes)
      && f.result.value.data.afterRepairValue == p.valueEstimate(address).value.priceRangeHigh
  {
    match p.valueEstimate(address)
    case None => MarketFetch(Err(ProviderFailed), [ValueEstimateCall(address)])
    case Some(estimate) =>
      match p.records(address)
      case None => MarketFetch(Err(ProviderFailed), [ValueEstimateCall(address), RecordsCall(address)])
      case Some(records) =>
        if |records| == 0 then
          MarketFetch(Err(EmptyProviderData), [ValueEstimateCall(address), RecordsCall(address)])
        else
          var record := records[0];
          var calls := [ValueEstimateCall(address), RecordsCall(address), ListingCall(record.formattedAddress)];
          var answer := p.listing(record.formattedAddress);
          var listing :=
            if answer.None? || (listingReadInTry && |answer.value| == 0) then Some(FallbackListing(record, estimate.price))
            else if |answer.value| == 0 then None
            else Some(answer.value[0]);
          match ExtractTaxes(record.propertyTaxes, currentYear)
          case Err(e) => MarketFetch(Err(e), calls)
          case Ok(taxes) =>
            if listing.None? then MarketFetch(Err(EmptyProviderData), calls)
            else
              var l := listing.value;
              MarketFetch(Ok(Market(
                MarketData(l.formattedAddress, l.price, AsColumn(taxes), estimate.priceRangeHigh,
                           l.propertyType, l.bedrooms, l.bathrooms, l.squareFootage),
                taxes)), calls)
  }

  /**
   * Every path of a cache miss: a failed value-estimate or records call,
   * an empty records response, a tax-year error, and otherwise the row built
   * from listing[0] when the listing call answers with an element; the
   * fetch succeeds exactly when none of the failures occurs.
   */
  lemma FetchMarketDataCases(address: string, currentYear: int, listingReadInTry: bool, p: Providers)
    ensures p.valueEstimate(address).Some? && p.records(address).None? ==>
      FetchMarketData(address, currentYear, listingReadInTry, p)
        == MarketFetch(Err(ProviderFailed), [ValueEstimateCall(address), RecordsCall(address)])
    ensures p.valueEstimate(address).Some? && p.records(address) == Some([]) ==>
      FetchMarketData(address, currentYear, listingReadInTry, p)
        == MarketFetch(Err(EmptyProviderData), [ValueEstimateCall(address), RecordsCall(address)])
    ensures p.valueEstimate(address).Some? && p.records(address).Some? && |p.records(address).value| > 0 ==>
      var f := FetchMarketData(address, currentYear, listingReadInTry, p);
      var estimate := p.valueEstimate(address).value;
      var record := p.records(address).value[0];
      var answer := p.listing(record.formattedAddress);
      var taxes := ExtractTaxes(record.propertyTaxes, currentYear);
      && f.calls == [ValueEstimateCall(address), RecordsCall(address), ListingCall(record.formattedAddress)]
      && (taxes.Err? ==> f.result == Err(taxes.error))
      && (f.result.Ok? <==> taxes.Ok? && (answer.None? || |answer.value| > 0 || listingReadInTry))
      && (taxes.Ok? && answer.Some? && |answer.value| > 0 ==>
            var l := answer.value[0];
            f.result == Ok(Market(MarketData(l.formattedAddress, l.price, AsColumn(taxes.value), estimate.priceRangeHigh,
                                             l.propertyType, l.bedrooms, l.bathrooms, l.squareFootage),
                                  taxes.value)))
  {
  }

  /** POST / never fails for want of a listing: a failed or empty listing takes the fallback. */
  lemma ListingNeverFailsPost(address: string, currentYear: int, p: Providers)
    requires p.valueEstimate(address).Some?
    requires p.records(address).Some? && |p.records(address).value| > 0
    requires ExtractTaxes(p.records(address).value[0].propertyTaxes, currentYear).Ok?
    ensures FetchMarketData(address, currentYear, true, p).result.Ok?
  {
  }

  /** When the listing call fails, the row is the fallback with the value-estimate price. */
  lemma FailedListingUsesFallback(address: string, currentYear: int, listingReadInTry: bool, p: Providers)
    requires p.valueEstimate(address).Some?
    requires p.records(address).Some? && |p.records(address).value| > 0
    requires p.listing(p.records(address).value[0].formattedAddress).None?
    requires ExtractTaxes(p.records(address).value[0].propertyTaxes, currentYear).Ok?
    ensures var f := FetchMarketData(address, currentYear, listingReadInTry, p);
      var l := FallbackListing(p.records(address).value[0], p.valueEstimate(address).value.price);
      && f.result.Ok?
      && f.result.value.data.address == l.formattedAddress
      && f.result.value.data.purchasePrice == p.valueEstimate(address).value.price
      && f.result.value.data.propertyType == l.propertyType
      && f.result.value.data.bedrooms == l.bedrooms
      && f.result.value.data.bathrooms == l.bathrooms
      && f.result.value.data.squareFootage == l.squareFootage
  {
  }

  /** backToDefault, unlike POST /, throws on an empty listing response. */
  lemma EmptyListingFailsBackToDefault(address: string, currentYear: int, p: Providers)
    requires p.valueEstimate(address).Some?
    requires p.records(address).Some? && |p.records(address).value| > 0
    requires p.listing(p.records(address).value[0].formattedAddress) == Some([])
    requires ExtractTaxes(p.records(address).value[0].propertyTaxes, currentYear).Ok?
    ensures FetchMarketData(address, currentYear, false, p).result == Err(EmptyProviderData)
    ensures FetchMarketData(address, currentYear, true, p).result.Ok?
  {
  }
}
