# Property flipping calculator — financial core

This project models the money side of a house-flipping planner.

On the server, the routes of `server/routes/properties.router.js` do four things:
- They look up market data for an address. The data is cached for 24 hours in `property_api_data`.
- They settle a 30-year loan at 20% down and 3% closing costs. Both the default calculation and the mortgage calculation are cached for 24 hours.
- They keep a property's repair items and holding items. Holding items are monthly costs.
- They re-derive seven columns of the property row from those figures: total repair cost, total upfront cost, monthly holding cost, total holding cost, total cost, profit and monthly profit. The formula library at lines 1673-1705 does this.

On the client, `src/redux/reducers/mortgageCalculator.reducer.js` holds the calculator's state. It keeps a typed amount (with `$` and `,` removed) and its percentage of the purchase price consistent in both directions.

The model is organised as follows:
- `JsNumber` holds the JavaScript number semantics the code relies on. These are `Number()` of a string, `toFixed`, and NaN from unguarded division.
- `TextFilter` and `CurrencyText` model the two text clean-ups. One is `replace(/[^0-9.-]+/g, "")`, the other is the reducer's `$`/`,` loop.
- `Formulas` is the formula library.
- `Mortgage` models the loan terms and the monthly chain.
- `Freshness` models the 24-hour cache windows.
- `ProviderData` models the outside services and the listing fallback. The services are passed in as functions.
- `PropertyTables` holds the tables as values and the recompute the routes share.
- `PropertyStore` models the writing routes. They are methods of a `Store` class whose fields are the tables. Each route that runs in a transaction either commits all its writes or rolls all of them back.
- `MortgageCalculatorReducer` is the reducer.

Every state-changing route method is proved equal to a function on the old tables. The properties the routes promise are proved as lemmas about those functions:
- the table invariant (`WellFormed`) is kept;
- a stored repair total agrees with the sum of the property's repair items;
- what each row holds afterwards, and when a route fails.

The code has behaviours that look unintended. The model states them as they are written, as lemmas:
- POST / counts the monthly interest twice for every later edit (`PropertyTables.InterestCountedTwice`);
- PUT /backToDefault always fails; once past its gates it fails at line 993 (`PropertyStore.RestoredDefaultsFailure`);
- after PUT /backToDefault, the property's stored repair total goes stale (`PropertyStore.RestoredDefaultsStaleTotal`).

## Model

| member | source | states |
|---|---|---|
| TextFilter.Filter | server/routes/properties.router.js:494 | the characters the predicate keeps, in order; its meaning is stated by FilterOnlyKept, FilterKeepsAll and FilterCounts |
| TextFilter.FilterAppend | server/routes/properties.router.js:494 | removing characters distributes over concatenation |
| TextFilter.FilterOnlyKept | server/routes/properties.router.js:494 | every character left after the clean-up is one the pattern keeps |
| TextFilter.FilterKeepsAll | server/routes/properties.router.js:494 | a text made only of kept characters is unchanged |
| TextFilter.FilterIdempotent | server/routes/properties.router.js:494 | cleaning twice is cleaning once |
| TextFilter.FilterCounts | server/routes/properties.router.js:494 | each kept character occurs as often as before; each removed one not at all |
| CurrencyText.CleanedIsNumeric | server/routes/properties.router.js:494 | after `replace(/[^0-9.-]+/g, "")` only digits, '.' and '-' remain |
| CurrencyText.CurrencyValue | server/routes/properties.router.js:494 | Number() of the text with everything but digits, '.' and '-' removed; DollarsRoundTrip and NaNReadsAsZero state what it reads back |
| CurrencyText.DollarsRoundTrip | server/routes/properties.router.js:1662 | '$' + a numeric text, cleaned and read with Number(), gives back the number the text spells |
| CurrencyText.NaNReadsAsZero | server/routes/properties.router.js:1662 | "$NaN" cleans to "" and so reads back as 0, not NaN |
| CurrencyText.WholeDollarsRoundTrip | server/routes/properties.router.js:1662 | '$' + the digits of a whole amount reads back as that amount |
| JsNumber.Quotient | server/routes/properties.router.js:1701-1705 | a / b is finite exactly when both are finite and b is not zero, and then quotient times b is a |
| JsNumber.Round | server/routes/properties.router.js:391 | toFixed(d) read back as a number, half away from zero; RoundError and RoundIdempotent state its meaning |
| JsNumber.RoundError | server/routes/properties.router.js:391 | Number(x.toFixed(d)) is within half a unit of the d-th place of x |
| JsNumber.RoundIdempotent | server/routes/properties.router.js:391 | rounding a rounded number to the same place changes nothing |
| JsNumber.DotIndex | server/routes/properties.router.js:1654 | the position of the first '.', or the length when there is none |
| JsNumber.NatTextDigits | server/routes/properties.router.js:1654 | the digits toFixed(0) writes are non-empty and spell the number |
| JsNumber.ParseNumber | server/routes/properties.router.js:494 | Number() of a string: "" reads as 0, a signed decimal as its value, anything else as NaN; NatTextParses and FixedZeroTextParses connect it to the texts toFixed writes |
| JsNumber.NatTextParses | server/routes/properties.router.js:1654 | Number() of a whole number's digits is that number |
| JsNumber.FixedZeroText | src/redux/reducers/mortgageCalculator.reducer.js:24 | toFixed(0): the sign and digits of the rounded number, "NaN" for NaN; FixedZeroTextParses reads it back |
| JsNumber.FixedZeroTextParses | server/routes/properties.router.js:1654 | Number(x.toFixed(0)) is x rounded to a whole number, NaN for NaN |
| JsNumber.NaNTextParses | server/routes/properties.router.js:1654 | Number("NaN") is NaN |
| Formulas.UpfrontCost | server/routes/properties.router.js:1673-1677 | repairs plus down payment plus closing costs; TotalCostExpanded and RepairChangePropagates state its effect |
| Formulas.TotalHoldingCost | server/routes/properties.router.js:1680-1684 | the monthly cost times the holding period; HoldingChangePropagates states its effect |
| Formulas.TotalCost | server/routes/properties.router.js:1687-1691 | upfront plus holding cost; TotalCostExpanded writes it out |
| Formulas.Profit | server/routes/properties.router.js:1694-1698 | the after-repair value less the total cost; ProfitExpanded writes it out |
| Formulas.MonthlyProfit | server/routes/properties.router.js:1701-1705 | finite exactly when the holding period is not zero; then times the period it is the profit |
| Formulas.TotalCostExpanded | server/routes/properties.router.js:1687-1691 | total cost is upfront cost plus holding cost, i.e. repairs + down payment + closing costs + monthly cost × period |
| Formulas.ProfitExpanded | server/routes/properties.router.js:1694-1698 | profit is the after-repair value less every cost |
| Formulas.RepairChangePropagates | server/routes/properties.router.js:1673-1705 | a repair-cost change of c raises upfront and total cost by c, lowers profit by c and monthly profit by c / period |
| Formulas.HoldingChangePropagates | server/routes/properties.router.js:1680-1698 | a monthly-cost change of c raises holding and total cost by c × period and lowers profit by as much |
| Freshness.FreshMatches | server/routes/properties.router.js:129-136 | exactly the positions of rows for the key inserted in the last 24 hours, in increasing order |
| Freshness.FreshMatchesComplete | server/routes/properties.router.js:129-136 | every row for the key inserted in the last 24 hours is among the positions returned |
| Freshness.Lookup | server/routes/properties.router.js:237-247 | none exactly when no row is fresh; otherwise the last fresh row for the key |
| Freshness.WindowBoundary | server/routes/properties.router.js:129-136 | a row is fresh at insertion and 23:59 later, and stale one minute after 24 hours |
| Freshness.AppendedRowIsReused | server/routes/properties.router.js:210-247 | a row just inserted is the one the next lookup within the window reuses |
| Freshness.OtherKeyIgnored | server/routes/properties.router.js:129-136 | rows for other keys do not affect the lookup |
| Freshness.MissStaysMissed | server/routes/properties.router.js:129-138 | with no new rows, a miss now is a miss at every later time |
| Mortgage.PriceSplit | server/routes/properties.router.js:375-377 | down payment is 20% and closing costs 3% of the price; down payment plus base loan is the price |
| Mortgage.EffectiveAnnualRate | server/routes/properties.router.js:391 | the rate is finite exactly when the base loan and the term are non-zero |
| Mortgage.EffectiveRateSimplified | server/routes/properties.router.js:391 | the computation is 100 × interest / (loan × years), rounded to three places |
| Mortgage.EffectiveRateWithinRounding | server/routes/properties.router.js:391 | the stored rate is within 0.0005 of the exact effective rate |
| Mortgage.MonthlyRate | server/routes/properties.router.js:445 | the monthly rate is a twelfth of the annual rate |
| Mortgage.MonthlyDecimal | server/routes/properties.router.js:446 | the monthly decimal is the annual rate / 1200 |
| Mortgage.MonthlyInterestPayment | server/routes/properties.router.js:447 | the monthly payment is annual rate × base loan / 1200, finite exactly when the rate is |
| Mortgage.NewMortgageCalculation | server/routes/properties.router.js:440-471 | the row stores the rate, down payment, base loan and closing costs it was given, and its monthly figures follow the chain from the annual rate |
| Mortgage.InterestPaymentReadIsTextRoundTrip | server/routes/properties.router.js:1662 | reading back '$' + the stored monthly payment gives the payment, or 0 when it is NaN |
| Mortgage.PaymentFiniteIffLoan | server/routes/properties.router.js:384-447 | the monthly payment of a fresh calculation is finite exactly when the purchase price is not zero |
| ProviderData.FallbackListing | server/routes/properties.router.js:184-194 | the address from the records and the price from the value estimate (line 151); each falsy field of the records takes its default |
| ProviderData.FallbackIdempotent | server/routes/properties.router.js:184-194 | a fallback listing has only truthy fields, and applying the fallback again changes nothing |
| ProviderData.FalsyFieldsTakeDefaults | server/routes/properties.router.js:184-194 | 0 bedrooms and an empty property type become 3 and "Single Family" |
| ProviderData.ExtractTaxes | server/routes/properties.router.js:198-208 | no taxes give NULL; taxes without last year's entry fail; otherwise last year's total |
| ProviderData.TaxesIgnoreOtherYears | server/routes/properties.router.js:198-208 | entries for years other than last year do not change the extracted taxes |
| ProviderData.FetchMarketData | server/routes/properties.router.js:141-232 | the calls go in order: value estimate, records, listing of the recorded address; the failures and the result are as given |
| ProviderData.FetchMarketDataCases | server/routes/properties.router.js:141-232 | a failed records call fails after two calls; empty records give no data; a tax-year error propagates; a listing answer with an element gives that element's address, price, type, rooms and area with the extracted taxes and the estimate's high price; the fetch succeeds exactly when none of these failures occurs |
| ProviderData.ListingNeverFailsPost | server/routes/properties.router.js:170-195 | in POST / a failing or empty listing never fails the fetch, because the fallback catches it |
| ProviderData.FailedListingUsesFallback | server/routes/properties.router.js:184-194 | when the listing call fails, the result is the fallback built from the records |
| ProviderData.EmptyListingFailsBackToDefault | server/routes/properties.router.js:825-872 | in backToDefault an empty listing response is read outside the try and fails the fetch |
| PropertyTables.Recompute | server/routes/properties.router.js:1283-1316 | the seven derived columns: repair total as given, upfront = repairs + down payment + closing costs, holding cost = (interest + monthly) × period |
| PropertyTables.RecomputeFollowsFormulas | server/routes/properties.router.js:1298-1302 | every derived column is the formula library's result; NaN monthly cost makes every later column NaN |
| PropertyTables.RepairEditShifts | server/routes/properties.router.js:1367 | a repair-total change of c shifts upfront and total cost by c, profit by -c, monthly profit by -c / period |
| PropertyTables.HoldingEditShifts | server/routes/properties.router.js:1475 | a monthly-cost change of c shifts holding and total cost by c × period and profit by -c × period |
| PropertyTables.InterestCountedTwice | server/routes/properties.router.js:495-517 | POST / stores the monthly cost with the interest included, so the next edit adds the interest a second time |
| PropertyTables.RecomputeIsStable | server/routes/properties.router.js:1283-1316 | an edit that changes no input rewrites the same derived columns |
| PropertyTables.UserDefaults | server/routes/properties.router.js:273-277 | only the user's defaults |
| PropertyTables.UserDefaultsCounts | server/routes/properties.router.js:273-277 | each of the user's defaults occurs as often as in the defaults table; no other user's default occurs |
| PropertyTables.AsItems | server/routes/properties.router.js:313-322 | one item per default, with consecutive ids, for the property |
| PropertyTables.FindItem | server/routes/properties.router.js:1236-1242 | the first item with the id, none exactly when no item has it |
| PropertyTables.WithoutItem | server/routes/properties.router.js:1245-1250 | the items left by the DELETE, in order, none with that id |
| PropertyTables.WithoutItemCounts | server/routes/properties.router.js:1245-1250 | every item without that id occurs as often as before; an item with that id not at all |
| PropertyTables.WithoutProperty | server/routes/properties.router.js:753-767 | the items left by deleting a property's items, in order, none of that property |
| PropertyTables.WithoutPropertyCounts | server/routes/properties.router.js:753-767 | every item of another property occurs as often as before; an item of that property not at all |
| PropertyTables.CostOfAppend | server/routes/properties.router.js:326-335 | SUM("cost") over two runs of items is the sum of their sums |
| PropertyTables.CostOfAbsent | server/routes/properties.router.js:326-335 | a property without items sums to 0 |
| PropertyTables.CostOfDefaults | server/routes/properties.router.js:313-335 | copied defaults sum to the defaults' total for the property and to nothing for any other |
| PropertyTables.CostWithoutItem | server/routes/properties.router.js:1267 | deleting an item removes exactly its cost from its property's sum |
| PropertyTables.WithoutAbsentId | server/routes/properties.router.js:1245-1250 | deleting an id no item has changes nothing |
| PropertyTables.CostWithoutProperty | server/routes/properties.router.js:753-767 | clearing a property's items zeroes its sum and leaves every other property's |
| PropertyTables.FirstFor | server/routes/properties.router.js:1276-1281 | rows[0] for the property: a row for it with no earlier row for it; none exactly when no row has it |
| PropertyTables.NewPropertyGatesMiss | server/routes/properties.router.js:352-438 | both calculation caches always miss for the property POST / just created |
| PropertyTables.RowUpdateWellFormed | server/routes/properties.router.js:499-518 | rewriting a property row keeps the tables well formed |
| PropertyTables.CalcsAppendWellFormed | server/routes/properties.router.js:396-471 | appending calculation rows for existing properties keeps the tables well formed |
| PropertyTables.CountersAdvanceWellFormed | server/routes/properties.router.js:280-322 | advancing the item id sequences keeps the tables well formed |
| PropertyStore.Reused | server/routes/properties.router.js:237-247 | a cache hit reuses the row and reads NULL taxes as 0 |
| PropertyStore.MarketGate | server/routes/properties.router.js:129-247 | a cache hit never fails, and a success names a row of the updated cache |
| PropertyStore.FreshTerms | server/routes/properties.router.js:374-391 | fresh terms split the price into 20% down and an 80% loan, with 3% closing costs |
| PropertyStore.CostOfPush | server/routes/properties.router.js:1367 | inserting an item adds its cost to its own property's sum only |
| PropertyStore.OpenedFacts | server/routes/properties.router.js:251-335 | each item table is the old one with the user's defaults appended under the new property and the next ids; the new property's sums are the defaults' totals; every older property keeps its repair and holding sums; the tables stay well formed |
| PropertyStore.Finish | server/routes/properties.router.js:335-519 | the second half of POST / as a function of the tables; FinishFacts states what it writes |
| PropertyStore.FinishFacts | server/routes/properties.router.js:335-519 | the second half of POST either fails and writes nothing, or appends both calculations and rewrites only the new row |
| PropertyStore.PostProperty | server/routes/properties.router.js:89-531 | POST / as a function of the tables; PostPropertyKeepsInvariants and PostPropertySucceeds state its outcome |
| PropertyStore.PostPropertyKeepsInvariants | server/routes/properties.router.js:89-531 | POST / keeps the invariant and the repair totals, adds exactly one property on success, and on failure changes nothing |
| PropertyStore.PostPropertySucceeds | server/routes/properties.router.js:335-519 | a successful POST made the calls in order, settled the loan from the listing price and stored the new row's figures |
| PropertyStore.Rederived | server/routes/properties.router.js:1276-1316 | fails exactly when the property has no mortgage row; otherwise only the derived columns change and they agree with the formulas |
| PropertyStore.UnsetPeriodRecompute | server/routes/properties.router.js:1270 | an unset holding period reads as 0, so holding cost is 0 and monthly profit is non-finite (±Infinity, or NaN for a zero profit) |
| PropertyStore.ItemInsertWellFormed | server/routes/properties.router.js:1344-1350 | inserting an item with the next id keeps the item invariant |
| PropertyStore.ItemDeleteWellFormed | server/routes/properties.router.js:1245-1250 | deleting an item keeps the item invariant |
| PropertyStore.PropertyItemsDeleteWellFormed | server/routes/properties.router.js:753-767 | deleting a property's items keeps the item invariant |
| PropertyStore.MonthlyTaxes | server/routes/properties.router.js:1082 | a month of the yearly taxes: twelve of them make the yearly figure, NULL as 0 |
| PropertyStore.RewrittenWellFormed | server/routes/properties.router.js:1283-1316 | the recompute keeps the tables well formed |
| PropertyStore.RewrittenKeepsTotals | server/routes/properties.router.js:1283-1316 | the recompute keeps every stored repair total equal to its items' sum |
| PropertyStore.RepairAdded | server/routes/properties.router.js:1333-1426 | POST /repairItem on the tables; RepairAddedOutcome, RepairAddedWellFormed and RepairAddedKeepsTotals state its outcome |
| PropertyStore.RepairAddedOutcome | server/routes/properties.router.js:1333-1426 | succeeds exactly for a property with a mortgage row; then the item is added and the total rises by its cost |
| PropertyStore.RepairAddedWellFormed | server/routes/properties.router.js:1333-1426 | POST /repairItem keeps the invariant with the id sequence advanced |
| PropertyStore.PushCosts | server/routes/properties.router.js:1367 | an inserted item changes the sum of its own property only, by its cost |
| PropertyStore.RepairAddedKeepsTotals | server/routes/properties.router.js:1367 | after POST /repairItem every stored repair total still equals its items' sum |
| PropertyStore.RepairDeleted | server/routes/properties.router.js:1228-1327 | DELETE /repairItem on the tables; RepairDeletedOutcome, RepairDeletedMissing, RepairDeletedWellFormed and RepairDeletedKeepsTotals state its outcome |
| PropertyStore.RepairDeletedOutcome | server/routes/properties.router.js:1228-1327 | succeeds exactly when the item's property has a mortgage row; then the item is gone and the total falls by its cost |
| PropertyStore.RepairDeletedMissing | server/routes/properties.router.js:1236-1242 | deleting an id no item has fails and changes nothing |
| PropertyStore.RepairDeletedWellFormed | server/routes/properties.router.js:1228-1327 | DELETE /repairItem keeps the invariant |
| PropertyStore.DeleteCosts | server/routes/properties.router.js:1267 | deleting an item lowers its own property's sum only, by its cost |
| PropertyStore.RepairDeletedKeepsTotals | server/routes/properties.router.js:1267 | after DELETE /repairItem every stored repair total still equals its items' sum |
| PropertyStore.HoldingAdded | server/routes/properties.router.js:1539-1632 | POST /holdingItem on the tables; HoldingAddedOutcome, HoldingAddedWellFormed and HoldingAddedKeepsTotals state its outcome |
| PropertyStore.HoldingAddedOutcome | server/routes/properties.router.js:1539-1632 | succeeds exactly for a property with a mortgage row; then the item is added and the monthly cost rises by its cost |
| PropertyStore.HoldingAddedWellFormed | server/routes/properties.router.js:1539-1632 | POST /holdingItem keeps the invariant with the id sequence advanced |
| PropertyStore.HoldingAddedKeepsTotals | server/routes/properties.router.js:1539-1632 | POST /holdingItem leaves the repair totals in agreement |
| PropertyStore.HoldingDeleted | server/routes/properties.router.js:1434-1533 | DELETE /holdingItem on the tables; HoldingDeletedOutcome, HoldingDeletedMissing, HoldingDeletedWellFormed and HoldingDeletedKeepsTotals state its outcome |
| PropertyStore.HoldingDeletedOutcome | server/routes/properties.router.js:1434-1533 | succeeds exactly when the item's property has a mortgage row; then the item is gone and the monthly cost falls by its cost |
| PropertyStore.HoldingDeletedMissing | server/routes/properties.router.js:1442-1448 | deleting an id no holding item has fails and changes nothing |
| PropertyStore.HoldingDeletedWellFormed | server/routes/properties.router.js:1434-1533 | DELETE /holdingItem keeps the invariant |
| PropertyStore.HoldingDeletedKeepsTotals | server/routes/properties.router.js:1434-1533 | DELETE /holdingItem leaves the repair totals in agreement |
| PropertyStore.PropertyUpdated | server/routes/properties.router.js:561-650 | PUT / on the tables; PropertyUpdatedOutcome, PropertyUpdatedWellFormed and PropertyUpdatedKeepsTotals state its outcome |
| PropertyStore.PropertyUpdatedOutcome | server/routes/properties.router.js:561-650 | succeeds exactly for a property with a mortgage row; then only that row changes, with the new inputs |
| PropertyStore.PropertyUpdatedWellFormed | server/routes/properties.router.js:561-650 | PUT / keeps the invariant |
| PropertyStore.PropertyUpdatedKeepsTotals | server/routes/properties.router.js:561-650 | PUT / leaves the repair totals in agreement |
| PropertyStore.TaxesReset | server/routes/properties.router.js:1038-1142 | PUT /taxes on the tables; TaxesResetOutcome, TaxesResetWellFormed and TaxesResetKeepsTotals state its outcome |
| PropertyStore.TaxesResetOutcome | server/routes/properties.router.js:1038-1142 | succeeds exactly for a property with a mortgage row; then taxes are 0 and the monthly cost falls by a month of the old taxes |
| PropertyStore.TaxesResetWellFormed | server/routes/properties.router.js:1038-1142 | PUT /taxes keeps the invariant |
| PropertyStore.TaxesResetKeepsTotals | server/routes/properties.router.js:1038-1142 | PUT /taxes leaves the repair totals in agreement |
| PropertyStore.RestoredDefaults | server/routes/properties.router.js:734-1030 | PUT /backToDefault/:id on the tables; the RestoredDefaults lemmas below state its outcome |
| PropertyStore.RestoredDefaultsWellFormed | server/routes/properties.router.js:734-1030 | backToDefault keeps the invariant and only advances the id sequences |
| PropertyStore.DefaultsAppendWellFormed | server/routes/properties.router.js:895-942 | re-inserting a user's defaults for a property keeps the item invariant |
| PropertyStore.RestoredDefaultsItems | server/routes/properties.router.js:753-942 | past the gate each item table is the old one with the property's rows deleted and the user's defaults appended under the property; its sums are the defaults' totals and every other property keeps its sums |
| PropertyStore.DefaultsCostAfterClear | server/routes/properties.router.js:753-942 | clearing then re-inserting defaults gives the defaults' total for the property and leaves the others |
| PropertyStore.RestoredDefaultsKeepsRows | server/routes/properties.router.js:734-1030 | backToDefault never rewrites a property row or a calculation |
| PropertyStore.RestoredDefaultsStaleTotal | server/routes/properties.router.js:734-1030 | when the defaults' total differs from the stored total, backToDefault leaves the stored repair total disagreeing with the items |
| PropertyStore.RestoredDefaultsFailure | server/routes/properties.router.js:734-1030 | backToDefault always fails; it asks for the address "undefined"; past the gates the failure is the undeclared holding period of line 993 |
| PropertyStore.Store.AcquireMarketData | server/routes/properties.router.js:129-247 | returns and stores what the market gate gives; a failure writes nothing |
| PropertyStore.Store.CopyDefaultHoldings | server/routes/properties.router.js:280-289 | appends one holding item per default with the next ids |
| PropertyStore.Store.CopyDefaultRepairs | server/routes/properties.router.js:313-322 | appends one repair item per default with the next ids |
| PropertyStore.Store.SettleLoanTerms | server/routes/properties.router.js:352-421 | a hit reuses the cached terms without calls; a miss asks for the rate and the calculator with the full price and caches the rate |
| PropertyStore.Store.SettleMortgage | server/routes/properties.router.js:426-486 | a hit returns the cached row; a miss appends and returns the row derived from the terms |
| PropertyStore.Store.OpenProperty | server/routes/properties.router.js:129-330 | the market gate, then the property row and its default items, or nothing on failure |
| PropertyStore.Store.FinishProperty | server/routes/properties.router.js:335-519 | the result, calls and tables are those of the second half of POST |
| PropertyStore.Store.AddProperty | server/routes/properties.router.js:89-531 | the result, calls and tables are those of POST / |
| PropertyStore.Store.AddRepairItem | server/routes/properties.router.js:1333-1426 | the result and tables are those of POST /repairItem, consuming one repair id |
| PropertyStore.Store.DeleteRepairItem | server/routes/properties.router.js:1228-1327 | the result and tables are those of DELETE /repairItem |
| PropertyStore.Store.AddHoldingItem | server/routes/properties.router.js:1539-1632 | the result and tables are those of POST /holdingItem, consuming one holding id |
| PropertyStore.Store.DeleteHoldingItem | server/routes/properties.router.js:1434-1533 | the result and tables are those of DELETE /holdingItem |
| PropertyStore.Store.UpdateProperty | server/routes/properties.router.js:561-650 | the result and tables are those of PUT / |
| PropertyStore.Store.ResetTaxes | server/routes/properties.router.js:1038-1142 | the result and tables are those of PUT /taxes |
| PropertyStore.Store.RestoreDefaults | server/routes/properties.router.js:734-1030 | the failure, calls, tables and id sequences are those of backToDefault |
| MortgageCalculatorReducer.Reduced | src/redux/reducers/mortgageCalculator.reducer.js:1-49 | the reducer on a typed amount already read as a string; WholeStateActions, UpdatedFields and UpdateKeepsOtherKeys state its outcome |
| MortgageCalculatorReducer.PercentageOf | src/redux/reducers/mortgageCalculator.reducer.js:20 | (amount / price).toFixed(4) * 100; PercentageMeaning states its meaning |
| MortgageCalculatorReducer.AmountOf | src/redux/reducers/mortgageCalculator.reducer.js:24 | (price * (percent / 100)).toFixed(0); AmountMeaning states its meaning |
| MortgageCalculatorReducer.Scaled | src/redux/reducers/mortgageCalculator.reducer.js:24 | price × (percent / 100) is finite exactly when both are |
| MortgageCalculatorReducer.StripAmount | src/redux/reducers/mortgageCalculator.reducer.js:9-19 | the loop builds the amount without its '$' and ',' characters |
| MortgageCalculatorReducer.Reduce | src/redux/reducers/mortgageCalculator.reducer.js:1-49 | the state the reducer returns for each action |
| MortgageCalculatorReducer.StrippedFacts | src/redux/reducers/mortgageCalculator.reducer.js:9-19 | no '$' or ',' remains, every other character keeps its count, and stripping twice is stripping once |
| MortgageCalculatorReducer.StrippedKeepsOrder | src/redux/reducers/mortgageCalculator.reducer.js:28-38 | stripping keeps the order of what remains, and a text without separators is unchanged |
| MortgageCalculatorReducer.PercentageMeaning | src/redux/reducers/mortgageCalculator.reducer.js:20 | the percentage is finite exactly when amount and price are and the price is not zero; then it is within 0.005 of 100 × amount / price |
| MortgageCalculatorReducer.AmountMeaning | src/redux/reducers/mortgageCalculator.reducer.js:24 | the amount text reads back as price × percent / 100 rounded to whole dollars |
| MortgageCalculatorReducer.PercentageRoundTrip | src/redux/reducers/mortgageCalculator.reducer.js:20-24 | percentage → amount → percentage returns the percentage within 0.005 + 50 / price |
| MortgageCalculatorReducer.UpdateKeepsOtherKeys | src/redux/reducers/mortgageCalculator.reducer.js:21-45 | an update writes its two keys and keeps every other key of the state |
| MortgageCalculatorReducer.UpdatedFields | src/redux/reducers/mortgageCalculator.reducer.js:7-45 | what each of the four updates stores under its two keys |
| MortgageCalculatorReducer.WholeStateActions | src/redux/reducers/mortgageCalculator.reducer.js:1-6 | SET replaces the state with the payload, UNSET empties it, any other action keeps it |
| MortgageCalculatorReducer.SeparatorsIgnored | src/redux/reducers/mortgageCalculator.reducer.js:7-21 | a typed amount with '$' and ',' gives the same state as the same amount without them |

## Left out

- Express routing, `rejectUnauthenticated`, the HTTP status codes and the pool connection handling are not modelled. Each route is one atomic method: it commits, or on a thrown error it restores the tables.
- The outside services are parameters of type `Providers`: the value estimate, the records, the listing, the central-bank rate and the mortgage calculator. Network failure is their `None`.
- `CURRENT_TIMESTAMP` and `new Date()` are the `now` and `currentYear` parameters.
- Binary floating point is not modelled. Amounts are exact reals. NaN and both infinities are one value, which `toFixed` writes as "NaN" (JavaScript writes "Infinity" for an infinity).
- `Number()` of a string is modelled for an optional sign followed by digits with an optional fraction, and for the empty string. Whitespace, exponents, hexadecimal and "Infinity" all read as NaN.
- `toFixed(0)` of numbers of 1e21 and above, which JavaScript writes in exponent notation, is not modelled.
- `formattedCurrency`/`toLocaleString`, the date formatting with `padStart`, and the `toFixed(2)`/`toFixed(3)` display columns of `getMortgageCalculationsFixData` are left out. No derived column depends on them.
- The read-only routes are left out: GET /, GET /propertyOfInterest/:id and GET /filtered. They compute nothing that is stored.
- DELETE /:id is left out. It deletes one row with a cascade the schema defines, and that schema is not part of this model.
- The market values backToDefault fetches are left out, because the route never reaches the code that would use them. Only the calls it makes and the api row it may insert are kept.
- The DELETE of line 1455 is not awaited, so its order relative to the queries after it is not modelled. The client runs a connection's queries in order, so the model applies it first.
- Concurrent requests are not modelled.
- The SELECTs of lines 129-136, 352-360, 426-434, 972-987 and 1276-1281 have no ORDER BY. The model reads rows in insertion order, so `rows[0]` is the oldest matching row and `rows[rows.length - 1]` the newest. PostgreSQL does not promise that order.
- PropertyUpdated: the request fields go through `Number()` (lines 562-565), and a non-numeric field gives NaN. The model takes the holding period, purchase price and after-repair value as reals, so that NaN is not modelled.
- Mortgage.InterestPaymentReadIsTextRoundTrip: the "$NaN" read-back assumes the numeric column stores the NaN that was inserted. PostgreSQL `numeric` accepts 'NaN', but the column type is defined in a schema that is not part of this model.
- Mortgage.PaymentFiniteIffLoan: the calculator's `total_interest_paid` (line 390) is assumed present. A response without it makes the annual rate NaN at line 391, and POST / then stores that NaN rate and a NaN monthly payment whatever the price. That path is not modelled.
- ProviderData.FetchMarketData: the estimate's price and priceRangeHigh and the listing's price are always-present reals. A response without a price, which makes POST / store NaN, is not modelled.
- The saga and the UI components are not modelled.
- MortgageCalculatorReducer.Reduce: the typed amount is a string. The TypeError the reducer throws when the amount is not iterable is not modelled.
- MortgageCalculatorReducer.PercentageRoundTrip: stated on the number the amount text reads back as. `AmountMeaning` links that number to the text.
