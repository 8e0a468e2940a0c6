/**
 * The routes of server/routes/properties.router.js that change the
 * database, as methods of one Store object. Each route that runs in a
 * transaction either commits all its writes or, on a thrown error, rolls
 * them all back (tables := snapshot). Item ids come from sequences, which a
 * rollback does not rewind, so the id counters are kept outside the tables.
 */
module PropertyStore {
  import opened Wrappers
  import opened JsNumber
  import opened Freshness
  import opened ProviderData
  import opened Mortgage
  import opened PropertyTables

  /** The figures the default-calculation gate settles for the mortgage row (lines 352-421). */
  datatype LoanTerms = LoanTerms(
    interestRate: real,
    purchasePrice: real,
    downPayment: real,
    closingCosts: real,
    baseLoanAmount: real,
    interestRateAnnual: Num)

  /** The values a market-data hit reuses (lines 237-247): the taxes go through Number(), so NULL becomes 0. */
  function Reused(data: MarketData): (m: Market)
    ensures m.data == data && m.taxes.Known?
    ensures data.taxesYearly.None? ==> m.taxes.value == 0.0
  {
    Market(data, Known(ColumnNumber(data.taxesYearly)))
  }

  /** What the market-data gate of POST / settles: the api row's id and the values taken from it. */
  function MarketGate(apiData: seq<Stamped<Option<string>, MarketData>>, addressId: string, address: string,
                      now: int, currentYear: int, p: Providers): (r: Result<(nat, Market), Failure>)
    ensures r.Ok? ==> r.value.0 < |GateRows(apiData, addressId, now, r.value.1)|
    ensures Lookup(apiData, Some(addressId), now).Some? ==> r.Ok?
  {
    match Lookup(apiData, Some(addressId), now)
    case Some(i) => Ok((i, Reused(apiData[i].data)))
    case None =>
      var f := FetchMarketData(address, currentYear, true, p);
      if f.result.Ok? then Ok((|apiData|, f.result.value)) else Err(f.result.error)
  }

  /** The provider calls the market-data gate makes: none on a hit. */
  function GateCalls(apiData: seq<Stamped<Option<string>, MarketData>>, addressId: string, address: string,
                     now: int, currentYear: int, p: Providers): seq<ProviderCall>
  {
    if Lookup(apiData, Some(addressId), now).Some? then [] else FetchMarketData(address, currentYear, true, p).calls
  }

  /** The market-data rows after the gate: a miss appends the fetched row, keyed by the address id. */
  function GateRows(apiData: seq<Stamped<Option<string>, MarketData>>, addressId: string, now: int, m: Market)
    : seq<Stamped<Option<string>, MarketData>>
  {
    if Lookup(apiData, Some(addressId), now).Some? then apiData else apiData + [Stamped(Some(addressId), now, m.data)]
  }

  /** What the second half of POST / leaves behind: its answer, the provider calls in order, and the tables. */
  datatype Finished = Finished(result: Result<MortgageCalculation, Failure>, calls: seq<ProviderCall>, tables: Tables)

  /**
   * The second half of POST / (lines 335-519) for a property whose two
   * calculation gates miss: the user's default holding period, the
   * default calculation (rate, then the calculator asked about the full
   * purchase price), the mortgage calculation, and the derived columns.
   */
  function Finish(t: Tables, propertyId: nat, userId: int, purchasePrice: real, afterRepairValue: real,
                  totalRepairs: real, monthlyHoldingCost: Num, now: int, p: Providers): Finished
    requires propertyId < |t.properties|
  {
    if userId !in t.holdingPeriodDefaults then Finished(Err(MissingRow), [], t)
    else if p.interestRate.None? then Finished(Err(ProviderFailed), [InterestRateCall], t)
    else
      var rate := p.interestRate.value;
      var calls := [InterestRateCall, CalculatorCall(purchasePrice, rate, DefaultLoanTerm, DownPayment(purchasePrice))];
      var answer := p.calculator(purchasePrice, rate, DefaultLoanTerm, DownPayment(purchasePrice));
      if answer.None? then Finished(Err(ProviderFailed), calls, t)
      else
        var base := BaseLoanAmount(purchasePrice);
        var annual := EffectiveAnnualRate(answer.value, base, DefaultLoanTerm);
        var m := NewMortgageCalculation(rate, DownPayment(purchasePrice), base, ClosingCosts(purchasePrice), annual);
        var d := Recompute(totalRepairs, monthlyHoldingCost, m, t.holdingPeriodDefaults[userId], afterRepairValue, true);
        Finished(Ok(m), calls,
          t.(defaultCalcs := t.defaultCalcs + [Stamped(propertyId, now, DefaultCalculation(rate, base, annual))],
             mortgageCalcs := t.mortgageCalcs + [Stamped(propertyId, now, m)],
             properties := t.properties[propertyId := t.properties[propertyId].(derived := Some(d))]))
  }

  /** What one POST / leaves behind: its answer, the provider calls in order, the tables and the two sequences. */
  datatype Posted = Posted(result: Result<MortgageCalculation, Failure>, calls: seq<ProviderCall>,
                           tables: Tables, nextRepairId: nat, nextHoldingId: nat)

  /**
   * POST / (lines 89-531): the market-data gate, the property insert with
   * the user's defaults copied onto it, their sums (the holdings plus a
   * month of taxes), then the second half. A failure after the market-data
   * gate rolls the tables back but not the item sequences.
   */
  function PostProperty(t: Tables, nextRepairId: nat, nextHoldingId: nat, userId: int, addressId: string,
                        address: string, now: int, currentYear: int, p: Providers): Posted
  {
    var gate := MarketGate(t.apiData, addressId, address, now, currentYear, p);
    var gateCalls := GateCalls(t.apiData, addressId, address, now, currentYear, p);
    if gate.Err? then Posted(Err(gate.error), gateCalls, t, nextRepairId, nextHoldingId)
    else
      var pid := |t.properties|;
      var m := gate.value.1;
      var o := Opened(t, GateRows(t.apiData, addressId, now, m), NewRow(userId, gate.value), nextRepairId, nextHoldingId);
      var monthly := Sum(Finite(CostOf(o.holdingItems, pid)), Quotient(AsNumber(m.taxes), Finite(12.0)));
      var f := Finish(o, pid, userId, m.data.purchasePrice, m.data.afterRepairValue, CostOf(o.repairItems, pid), monthly, now, p);
      Posted(f.result, gateCalls + f.calls, if f.result.Ok? then f.tables else t,
             nextRepairId + |UserDefaults(t.defaultRepairs, userId)|, nextHoldingId + |UserDefaults(t.defaultHoldings, userId)|)
  }

  /** The terms a default-calculation hit reuses: the stored rate and loan, the joined property's price. */
  function TermsFromRow(row: DefaultCalculation, purchasePrice: real): LoanTerms {
    LoanTerms(row.interestRate, purchasePrice, DownPayment(purchasePrice), ClosingCosts(purchasePrice),
              row.baseLoanAmount, row.interestRateAnnual)
  }

  /** The terms a default-calculation refresh derives from the price and the two provider answers. */
  function FreshTerms(purchasePrice: real, interestRate: real, totalInterestPaid: real): (t: LoanTerms)
    ensures t.downPayment + t.baseLoanAmount == purchasePrice
    ensures t.baseLoanAmount == 0.8 * purchasePrice && t.closingCosts == 0.03 * purchasePrice
  {
    var base := BaseLoanAmount(purchasePrice);
    LoanTerms(interestRate, purchasePrice, DownPayment(purchasePrice), ClosingCosts(purchasePrice), base,
              EffectiveAnnualRate(totalInterestPaid, base, DefaultLoanTerm))
  }

  lemma ReplaceLast<T>(s: seq<T>, x: T, y: T)
    ensures (s + [x])[|s| := y] == s + [y]
  {
  }

  lemma AppendItemsWellFormed(items: seq<Item>, extra: seq<Item>, count: nat, nextId: nat, newCount: nat, newNext: nat)
    requires ItemsWellFormed(items, count, nextId)
    requires count <= newCount && nextId <= newNext
    requires forall k :: 0 <= k < |extra| ==> extra[k].propertyId < newCount && nextId <= extra[k].id < newNext
    requires IdsIncreasing(extra)
    ensures ItemsWellFormed(items + extra, newCount, newNext)
  {
    var all := items + extra;
    forall i, j | 0 <= i < j < |all| ensures all[i].id < all[j].id {
      if j < |items| {
      } else if i >= |items| {
        assert all[i] == extra[i - |items|] && all[j] == extra[j - |items|];
      } else {
        assert all[j] == extra[j - |items|];
      }
    }
  }

  lemma {:induction false} WithoutItemIncreasing(items: seq<Item>, id: nat)
    requires IdsIncreasing(items)
    ensures IdsIncreasing(WithoutItem(items, id))
  {
    if |items| > 0 {
      var front := items[..|items| - 1];
      assert IdsIncreasing(front);
      WithoutItemIncreasing(front, id);
      var rest := WithoutItem(front, id);
      forall i | 0 <= i < |rest| ensures rest[i].id < items[|items| - 1].id {
        assert rest[i] in front;
      }
    }
  }

  lemma {:induction false} WithoutPropertyIncreasing(items: seq<Item>, propertyId: nat)
    requires IdsIncreasing(items)
    ensures IdsIncreasing(WithoutProperty(items, propertyId))
  {
    if |items| > 0 {
      var front := items[..|items| - 1];
      assert IdsIncreasing(front);
      WithoutPropertyIncreasing(front, propertyId);
      var rest := WithoutProperty(front, propertyId);
      forall i | 0 <= i < |rest| ensures rest[i].id < items[|items| - 1].id {
        assert rest[i] in front;
      }
    }
  }

  lemma CostOfPush(items: seq<Item>, item: Item, propertyId: nat)
    ensures CostOf(items + [item], propertyId)
      == CostOf(items, propertyId) + (if item.propertyId == propertyId then item.cost else 0.0)
  {
    var all := items + [item];
    assert all[..|all| - 1] == items;
  }

  /** The property row POST / inserts (lines 254-270): the derived columns and holding period are still NULL. */
  function NewRow(userId: int, g: (nat, Market)): PropertyRow {
    PropertyRow(userId, g.0, g.1.data.address, g.1.data.purchasePrice, AsColumn(g.1.taxes),
                g.1.data.afterRepairValue, None, None)
  }

  /**
   * The tables once POST / has its market data, its property row and the
   * user's defaults copied as the property's items, ids drawn from the two
   * sequences' next values.
   */
  function Opened(t: Tables, apiData: seq<Stamped<Option<string>, MarketData>>, row: PropertyRow,
                  firstRepairId: nat, firstHoldingId: nat): Tables
  {
    t.(apiData := apiData,
       properties := t.properties + [row],
       repairItems := t.repairItems + AsItems(UserDefaults(t.defaultRepairs, row.userId), |t.properties|, firstRepairId),
       holdingItems := t.holdingItems + AsItems(UserDefaults(t.defaultHoldings, row.userId), |t.properties|, firstHoldingId))
  }

  /**
   * Opening a property keeps the database well formed, gives the new
   * property the totals of the user's defaults and leaves every older
   * property's repair total as it was.
   */
  lemma OpenedFacts(t: Tables, apiData: seq<Stamped<Option<string>, MarketData>>, row: PropertyRow,
                    nextRepairId: nat, nextHoldingId: nat)
    requires WellFormed(t, nextRepairId, nextHoldingId)
    requires |t.apiData| <= |apiData| && row.apiDataId < |apiData|
    ensures var o := Opened(t, apiData, row, nextRepairId, nextHoldingId);
      var pid := |t.properties|;
      var repairs := UserDefaults(t.defaultRepairs, row.userId);
      var holdings := UserDefaults(t.defaultHoldings, row.userId);
      && WellFormed(o, nextRepairId + |repairs|, nextHoldingId + |holdings|)
      && CostOf(o.repairItems, pid) == DefaultTotal(repairs)
      && CostOf(o.holdingItems, pid) == DefaultTotal(holdings)
      && o.repairItems == t.repairItems + AsItems(repairs, pid, nextRepairId)
      && o.holdingItems == t.holdingItems + AsItems(holdings, pid, nextHoldingId)
      && (forall q :: 0 <= q < pid ==> CostOf(o.repairItems, q) == CostOf(t.repairItems, q))
      && (forall q :: 0 <= q < pid ==> CostOf(o.holdingItems, q) == CostOf(t.holdingItems, q))
  {
    var pid := |t.properties|;
    var o := Opened(t, apiData, row, nextRepairId, nextHoldingId);
    OpenedItems(t.repairItems, UserDefaults(t.defaultRepairs, row.userId), pid, nextRepairId);
    OpenedItems(t.holdingItems, UserDefaults(t.defaultHoldings, row.userId), pid, nextHoldingId);
    forall i | 0 <= i < |o.properties| ensures o.properties[i].apiDataId < |o.apiData| {
      if i < pid {
        assert o.properties[i] == t.properties[i];
      }
    }
  }

  /** Copying defaults onto a new property, for one item table. */
  lemma OpenedItems(items: seq<Item>, defaults: seq<DefaultItem>, propertyId: nat, nextId: nat)
    requires ItemsWellFormed(items, propertyId, nextId)
    ensures var all := items + AsItems(defaults, propertyId, nextId);
      && ItemsWellFormed(all, propertyId + 1, nextId + |defaults|)
      && CostOf(all, propertyId) == DefaultTotal(defaults)
      && (forall q :: 0 <= q < propertyId ==> CostOf(all, q) == CostOf(items, q))
  {
    var extra := AsItems(defaults, propertyId, nextId);
    CostOfAbsent(items, propertyId);
    CostOfAppend(items, extra, propertyId);
    CostOfDefaults(defaults, propertyId, nextId, propertyId + 1);
    forall q | 0 <= q < propertyId ensures CostOf(items + extra, q) == CostOf(items, q) {
      CostOfAppend(items, extra, q);
      CostOfDefaults(defaults, propertyId, nextId, q);
    }
    AppendItemsWellFormed(items, extra, propertyId, nextId, propertyId + 1, nextId + |defaults|);
  }

  // ----- what POST / promises -----

  /**
   * The second half of POST / keeps the database well formed; a failure
   * changes nothing, and a success appends one row to each calculation
   * table, keyed by the property, and rewrites only that property's
   * derived columns, with the user's default holding period.
   */
  lemma FinishFacts(t: Tables, nextRepairId: nat, nextHoldingId: nat, propertyId: nat, userId: int, purchasePrice: real,
                    afterRepairValue: real, totalRepairs: real, monthlyHoldingCost: Num, now: int, p: Providers)
    requires WellFormed(t, nextRepairId, nextHoldingId) && propertyId < |t.properties|
    ensures var f := Finish(t, propertyId, userId, purchasePrice, afterRepairValue, totalRepairs, monthlyHoldingCost, now, p);
      && WellFormed(f.tables, nextRepairId, nextHoldingId)
      && (f.result.Err? ==> f.tables == t)
      && (f.result.Ok? ==>
            && userId in t.holdingPeriodDefaults
            && f.tables.(properties := t.properties, defaultCalcs := t.defaultCalcs, mortgageCalcs := t.mortgageCalcs) == t
            && f.tables.properties == t.properties[propertyId := f.tables.properties[propertyId]]
            && f.tables.mortgageCalcs == t.mortgageCalcs + [Stamped(propertyId, now, f.result.value)]
            && |f.tables.defaultCalcs| == |t.defaultCalcs| + 1
            && f.tables.defaultCalcs[..|t.defaultCalcs|] == t.defaultCalcs
            && f.tables.defaultCalcs[|t.defaultCalcs|].key == propertyId
            && f.tables.properties[propertyId] == t.properties[propertyId].(derived := Some(
                 Recompute(totalRepairs, monthlyHoldingCost, f.result.value, t.holdingPeriodDefaults[userId], afterRepairValue, true))))
  {
    var f := Finish(t, propertyId, userId, purchasePrice, afterRepairValue, totalRepairs, monthlyHoldingCost, now, p);
    if f.result.Ok? {
      var rate := p.interestRate.value;
      var answer := p.calculator(purchasePrice, rate, DefaultLoanTerm, DownPayment(purchasePrice));
      var base := BaseLoanAmount(purchasePrice);
      var annual := EffectiveAnnualRate(answer.value, base, DefaultLoanTerm);
      var m := NewMortgageCalculation(rate, DownPayment(purchasePrice), base, ClosingCosts(purchasePrice), annual);
      var dc := Stamped(propertyId, now, DefaultCalculation(rate, base, annual));
      var mc := Stamped(propertyId, now, m);
      CalcsAppendWellFormed(t, nextRepairId, nextHoldingId, dc, mc);
      var t1 := t.(defaultCalcs := t.defaultCalcs + [dc], mortgageCalcs := t.mortgageCalcs + [mc]);
      var d := Recompute(totalRepairs, monthlyHoldingCost, m, t.holdingPeriodDefaults[userId], afterRepairValue, true);
      RowUpdateWellFormed(t1, nextRepairId, nextHoldingId, propertyId, t.properties[propertyId].(derived := Some(d)));
      assert f.tables == t1.(properties := t.properties[propertyId := t.properties[propertyId].(derived := Some(d))]);
      assert (t.defaultCalcs + [dc])[..|t.defaultCalcs|] == t.defaultCalcs;
    }
  }

  /**
   * POST / keeps the database well formed and the stored repair totals in
   * agreement with the items; a failure leaves the tables as they were
   * (the item sequences still move on), and nothing but the new property
   * row is added to the properties table.
   */
  lemma PostPropertyKeepsInvariants(t: Tables, nextRepairId: nat, nextHoldingId: nat, userId: int, addressId: string,
                                    address: string, now: int, currentYear: int, p: Providers)
    requires WellFormed(t, nextRepairId, nextHoldingId)
    ensures var post := PostProperty(t, nextRepairId, nextHoldingId, userId, addressId, address, now, currentYear, p);
      && WellFormed(post.tables, post.nextRepairId, post.nextHoldingId)
      && nextRepairId <= post.nextRepairId && nextHoldingId <= post.nextHoldingId
      && (post.result.Err? ==> post.tables == t)
      && (post.result.Ok? ==> |post.tables.properties| == |t.properties| + 1 && post.tables.properties[..|t.properties|] == t.properties)
      && (RepairTotalsAgree(t) ==> RepairTotalsAgree(post.tables))
  {
    var post := PostProperty(t, nextRepairId, nextHoldingId, userId, addressId, address, now, currentYear, p);
    var gate := MarketGate(t.apiData, addressId, address, now, currentYear, p);
    if gate.Ok? {
      var pid := |t.properties|;
      var m := gate.value.1;
      var rows := GateRows(t.apiData, addressId, now, m);
      var row := NewRow(userId, gate.value);
      var o := Opened(t, rows, row, nextRepairId, nextHoldingId);
      var repairs := UserDefaults(t.defaultRepairs, userId);
      var holdings := UserDefaults(t.defaultHoldings, userId);
      OpenedFacts(t, rows, row, nextRepairId, nextHoldingId);
      var monthly := Sum(Finite(CostOf(o.holdingItems, pid)), Quotient(AsNumber(m.taxes), Finite(12.0)));
      var f := Finish(o, pid, userId, m.data.purchasePrice, m.data.afterRepairValue, CostOf(o.repairItems, pid), monthly, now, p);
      FinishFacts(o, nextRepairId + |repairs|, nextHoldingId + |holdings|, pid, userId, m.data.purchasePrice,
                  m.data.afterRepairValue, CostOf(o.repairItems, pid), monthly, now, p);
      if f.result.Ok? {
        assert post.tables == f.tables;
        assert f.tables.properties[..pid] == t.properties by {
          assert o.properties[..pid] == t.properties;
        }
        if RepairTotalsAgree(t) {
          forall q | 0 <= q < |f.tables.properties|
            ensures StoredRepairTotal(f.tables.properties[q]) == CostOf(f.tables.repairItems, q)
          {
            if q < pid {
              assert f.tables.properties[q] == t.properties[q];
            }
          }
        }
      } else {
        CountersAdvanceWellFormed(t, nextRepairId, nextHoldingId, post.nextRepairId, post.nextHoldingId);
      }
    }
  }

  /**
   * A successful POST / answers the mortgage row it stored. Its amounts come
   * from the market price: the calculator was asked about a loan of the
   * full price (line 384) while the row's loan is 80% of it, and the new
   * property keeps a NULL holding period while its derived columns used the
   * user's default one. The monthly holding cost it stores includes the
   * monthly interest (line 518).
   */
  lemma PostPropertySucceeds(t: Tables, nextRepairId: nat, nextHoldingId: nat, userId: int, addressId: string,
                             address: string, now: int, currentYear: int, p: Providers)
    requires WellFormed(t, nextRepairId, nextHoldingId)
    requires PostProperty(t, nextRepairId, nextHoldingId, userId, addressId, address, now, currentYear, p).result.Ok?
    ensures var post := PostProperty(t, nextRepairId, nextHoldingId, userId, addressId, address, now, currentYear, p);
      var gate := MarketGate(t.apiData, addressId, address, now, currentYear, p);
      var price := gate.value.1.data.purchasePrice;
      var pid := |t.properties|;
      var m := post.result.value;
      && gate.Ok? && userId in t.holdingPeriodDefaults && p.interestRate.Some?
      && p.calculator(price, p.interestRate.value, DefaultLoanTerm, DownPayment(price)).Some?
      && post.calls == GateCalls(t.apiData, addressId, address, now, currentYear, p)
           + [InterestRateCall, CalculatorCall(price, p.interestRate.value, DefaultLoanTerm, DownPayment(price))]
      && m == NewMortgageCalculation(p.interestRate.value, DownPayment(price), BaseLoanAmount(price), ClosingCosts(price),
               EffectiveAnnualRate(p.calculator(price, p.interestRate.value, DefaultLoanTerm, DownPayment(price)).value,
                                   BaseLoanAmount(price), DefaultLoanTerm))
      && post.tables.mortgageCalcs == t.mortgageCalcs + [Stamped(pid, now, m)]
      && post.tables.apiData == GateRows(t.apiData, addressId, now, gate.value.1)
      && post.tables.properties[pid].userId == userId
      && post.tables.properties[pid].apiDataId == gate.value.0
      && post.tables.properties[pid].holdingPeriod.None?
      && post.tables.properties[pid].derived.Some?
      && StoredRepairTotal(post.tables.properties[pid]) == DefaultTotal(UserDefaults(t.defaultRepairs, userId))
      && StoredMonthlyHolding(post.tables.properties[pid])
         == TotalMonthly(m, Sum(Finite(DefaultTotal(UserDefaults(t.defaultHoldings, userId))),
                                Quotient(AsNumber(gate.value.1.taxes), Finite(12.0))))
      && Coherent(post.tables.properties[pid].derived.value, t.holdingPeriodDefaults[userId],
                  post.tables.properties[pid].afterRepairValue)
  {
    var gate := MarketGate(t.apiData, addressId, address, now, currentYear, p);
    var pid := |t.properties|;
    var m := gate.value.1;
    var rows := GateRows(t.apiData, addressId, now, m);
    var row := NewRow(userId, gate.value);
    var o := Opened(t, rows, row, nextRepairId, nextHoldingId);
    var repairs := UserDefaults(t.defaultRepairs, userId);
    var holdings := UserDefaults(t.defaultHoldings, userId);
    OpenedFacts(t, rows, row, nextRepairId, nextHoldingId);
    var monthly := Sum(Finite(CostOf(o.holdingItems, pid)), Quotient(AsNumber(m.taxes), Finite(12.0)));
    FinishFacts(o, nextRepairId + |repairs|, nextHoldingId + |holdings|, pid, userId, m.data.purchasePrice,
                m.data.afterRepairValue, CostOf(o.repairItems, pid), monthly, now, p);
    assert o.properties[pid] == row;
  }

  /**
   * The shared tail of the item, update and taxes routes: read the
   * property's mortgage row (rows[0] of the rows keyed by the property), and
   * rewrite the derived columns from the given totals. A missing mortgage
   * row makes getMortgageCalculationsFixData throw on undefined (line 1641).
   */
  function Rederived(mortgageCalcs: seq<Stamped<nat, MortgageCalculation>>, propertyId: nat, row: PropertyRow,
                     totalRepairs: real, monthlyHoldingCost: Num): (r: Result<PropertyRow, Failure>)
    ensures r.Err? <==> forall i :: 0 <= i < |mortgageCalcs| ==> mortgageCalcs[i].key != propertyId
    ensures r.Err? ==> r.error == MissingRow
    ensures r.Ok? ==>
      && r.value.derived.Some? && r.value.(derived := row.derived) == row
      && StoredRepairTotal(r.value) == totalRepairs
      && StoredMonthlyHolding(r.value) == monthlyHoldingCost
      && Coherent(r.value.derived.value, ColumnNumber(row.holdingPeriod), row.afterRepairValue)
  {
    match FirstFor(mortgageCalcs, propertyId)
    case None => Err(MissingRow)
    case Some(i) => Ok(Refreshed(row, totalRepairs, monthlyHoldingCost, mortgageCalcs[i].data))
  }

  /**
   * A row whose holding_period is NULL (every row POST / creates) is
   * recomputed with a period of 0: no holding cost and a non-finite monthly
   * profit (profit / 0 is ±Infinity, or NaN for a zero profit).
   */
  lemma UnsetPeriodRecompute(mortgageCalcs: seq<Stamped<nat, MortgageCalculation>>, propertyId: nat, row: PropertyRow,
                             totalRepairs: real, monthlyHoldingCost: Num)
    requires row.holdingPeriod.None?
    ensures var r := Rederived(mortgageCalcs, propertyId, row, totalRepairs, monthlyHoldingCost);
      r.Ok? ==>
        && r.value.derived.value.monthlyProfit.NonFinite?
        && (monthlyHoldingCost.Finite? ==> r.value.derived.value.totalHoldingCost == Finite(0.0))
  {
  }

  /** An inserted row takes the sequence's next id: item ids stay increasing and below the new next value. */
  lemma ItemInsertWellFormed(items: seq<Item>, count: nat, nextId: nat, item: Item)
    requires ItemsWellFormed(items, count, nextId)
    requires item.id == nextId && item.propertyId < count
    ensures ItemsWellFormed(items + [item], count, nextId + 1)
  {
    AppendItemsWellFormed(items, [item], count, nextId, count, nextId + 1);
  }

  /** Deleting rows keeps a well-formed item table well formed. */
  lemma ItemDeleteWellFormed(items: seq<Item>, count: nat, nextId: nat, id: nat)
    requires ItemsWellFormed(items, count, nextId)
    ensures ItemsWellFormed(WithoutItem(items, id), count, nextId)
  {
    WithoutItemIncreasing(items, id);
  }

  lemma PropertyItemsDeleteWellFormed(items: seq<Item>, count: nat, nextId: nat, propertyId: nat)
    requires ItemsWellFormed(items, count, nextId)
    ensures ItemsWellFormed(WithoutProperty(items, propertyId), count, nextId)
  {
    WithoutPropertyIncreasing(items, propertyId);
  }

  // ----- the routes that edit one property -----

  /** A route's outcome (the property row it rewrote, or why it failed) and the database it leaves. */
  datatype Edited = Edited(result: Result<PropertyRow, Failure>, tables: Tables)

  /** Rewrite row propertyId as Rederived says, or leave the database alone when it fails. */
  function Rewritten(t: Tables, propertyId: nat, edited: PropertyRow, totalRepairs: real, monthly: Num,
                     repairItems: seq<Item>, holdingItems: seq<Item>): (e: Edited)
    requires propertyId < |t.properties|
    ensures e.result == Rederived(t.mortgageCalcs, propertyId, edited, totalRepairs, monthly)
    ensures e.result.Err? ==> e.tables == t
    ensures e.result.Ok? ==> e.tables == t.(repairItems := repairItems, holdingItems := holdingItems,
                                            properties := t.properties[propertyId := e.result.value])
  {
    var r := Rederived(t.mortgageCalcs, propertyId, edited, totalRepairs, monthly);
    if r.Err? then Edited(r, t)
    else Edited(r, t.(repairItems := repairItems, holdingItems := holdingItems, properties := t.properties[propertyId := r.value]))
  }

  /** POST /repairItem: the item's cost is added to the stored repair total. */
  function RepairAdded(t: Tables, item: Item): Edited {
    if item.propertyId >= |t.properties| then Edited(Err(MissingRow), t)
    else
      var row := t.properties[item.propertyId];
      Rewritten(t, item.propertyId, row, StoredRepairTotal(row) + item.cost, StoredMonthlyHolding(row),
                t.repairItems + [item], t.holdingItems)
  }

  /** DELETE /repairItem/:id: the item's cost is taken off the stored repair total. */
  function RepairDeleted(t: Tables, itemId: nat): Edited
    requires forall i :: 0 <= i < |t.repairItems| ==> t.repairItems[i].propertyId < |t.properties|
  {
    match FindItem(t.repairItems, itemId)
    case None => Edited(Err(MissingRow), t)
    case Some(k) =>
      var item := t.repairItems[k];
      var row := t.properties[item.propertyId];
      Rewritten(t, item.propertyId, row, StoredRepairTotal(row) - item.cost, StoredMonthlyHolding(row),
                WithoutItem(t.repairItems, itemId), t.holdingItems)
  }

  /** POST /holdingItem: the item's cost is added to the stored monthly holding cost. */
  function HoldingAdded(t: Tables, item: Item): Edited {
    if item.propertyId >= |t.properties| then Edited(Err(MissingRow), t)
    else
      var row := t.properties[item.propertyId];
      Rewritten(t, item.propertyId, row, StoredRepairTotal(row), Sum(StoredMonthlyHolding(row), Finite(item.cost)),
                t.repairItems, t.holdingItems + [item])
  }

  /** DELETE /holdingItem/:id: the item's cost is taken off the stored monthly holding cost. */
  function HoldingDeleted(t: Tables, itemId: nat): Edited
    requires forall i :: 0 <= i < |t.holdingItems| ==> t.holdingItems[i].propertyId < |t.properties|
  {
    match FindItem(t.holdingItems, itemId)
    case None => Edited(Err(MissingRow), t)
    case Some(k) =>
      var item := t.holdingItems[k];
      var row := t.properties[item.propertyId];
      Rewritten(t, item.propertyId, row, StoredRepairTotal(row), Sum(StoredMonthlyHolding(row), Finite(-item.cost)),
                t.repairItems, WithoutItem(t.holdingItems, itemId))
  }

  /** PUT /: the user's holding period, price and after-repair value replace the row's; the stored totals stay. */
  function PropertyUpdated(t: Tables, propertyId: nat, holdingPeriod: real, purchasePrice: real, afterRepairValue: real): Edited {
    if propertyId >= |t.properties| then Edited(Err(MissingRow), t)
    else
      var row := t.properties[propertyId];
      var edited := row.(holdingPeriod := Some(holdingPeriod), purchasePrice := purchasePrice, afterRepairValue := afterRepairValue);
      Rewritten(t, propertyId, edited, StoredRepairTotal(row), StoredMonthlyHolding(row), t.repairItems, t.holdingItems)
  }

  /** Number(taxes) / 12 (line 1082): a month of the yearly taxes, NULL reading as 0. */
  function MonthlyTaxes(taxesYearly: Option<real>): (r: real)
    ensures r * 12.0 == ColumnNumber(taxesYearly)
  {
    ColumnNumber(taxesYearly) / 12.0
  }

  /** PUT /taxes: the yearly taxes become 0 and a month of the old taxes (NULL reads as 0) leaves the holding cost. */
  function TaxesReset(t: Tables, propertyId: nat): Edited {
    if propertyId >= |t.properties| then Edited(Err(MissingRow), t)
    else
      var row := t.properties[propertyId];
      Rewritten(t, propertyId, row.(taxesYearly := Some(0.0)), StoredRepairTotal(row),
                Sum(StoredMonthlyHolding(row), Finite(-MonthlyTaxes(row.taxesYearly))),
                t.repairItems, t.holdingItems)
  }


  /** The rewrite keeps the database well formed when the item tables it installs are and the row keeps its market data. */
  lemma RewrittenWellFormed(t: Tables, propertyId: nat, edited: PropertyRow, totalRepairs: real, monthly: Num,
                            repairItems: seq<Item>, holdingItems: seq<Item>, nextRepairId: nat, nextHoldingId: nat)
    requires propertyId < |t.properties| && WellFormed(t, nextRepairId, nextHoldingId)
    requires ItemsWellFormed(repairItems, |t.properties|, nextRepairId)
    requires ItemsWellFormed(holdingItems, |t.properties|, nextHoldingId)
    requires edited.apiDataId == t.properties[propertyId].apiDataId
    ensures WellFormed(Rewritten(t, propertyId, edited, totalRepairs, monthly, repairItems, holdingItems).tables,
                       nextRepairId, nextHoldingId)
  {
    var e := Rewritten(t, propertyId, edited, totalRepairs, monthly, repairItems, holdingItems);
    if e.result.Ok? {
      RowUpdateWellFormed(t.(repairItems := repairItems, holdingItems := holdingItems), nextRepairId, nextHoldingId,
                          propertyId, e.result.value);
    }
  }

  /**
   * The rewrite keeps every stored repair total equal to the sum of its
   * items when the repair rows it installs sum, for the rewritten property,
   * to the total it stores and, for every other property, to what they did.
   */
  lemma RewrittenKeepsTotals(t: Tables, propertyId: nat, edited: PropertyRow, totalRepairs: real, monthly: Num,
                             repairItems: seq<Item>, holdingItems: seq<Item>)
    requires propertyId < |t.properties| && RepairTotalsAgree(t)
    requires CostOf(repairItems, propertyId) == totalRepairs
    requires forall q :: 0 <= q < |t.properties| && q != propertyId ==> CostOf(repairItems, q) == CostOf(t.repairItems, q)
    ensures RepairTotalsAgree(Rewritten(t, propertyId, edited, totalRepairs, monthly, repairItems, holdingItems).tables)
  {
    var e := Rewritten(t, propertyId, edited, totalRepairs, monthly, repairItems, holdingItems);
    if e.result.Ok? {
      forall q | 0 <= q < |e.tables.properties|
        ensures StoredRepairTotal(e.tables.properties[q]) == CostOf(e.tables.repairItems, q)
      {
        if q == propertyId {
          assert StoredRepairTotal(e.result.value) == totalRepairs;
        }
      }
    }
  }

  // Each route's function, unfolded once; stated as lemmas so that proofs about a route
  // do not have to rediscover the unfolding among the other facts in scope.

  lemma RepairAddedRewrites(t: Tables, item: Item)
    ensures item.propertyId >= |t.properties| ==> RepairAdded(t, item) == Edited(Err(MissingRow), t)
    ensures item.propertyId < |t.properties| ==>
      var row := t.properties[item.propertyId];
      RepairAdded(t, item) == Rewritten(t, item.propertyId, row, StoredRepairTotal(row) + item.cost, StoredMonthlyHolding(row),
                                        t.repairItems + [item], t.holdingItems)
  {
  }

  lemma HoldingAddedRewrites(t: Tables, item: Item)
    ensures item.propertyId >= |t.properties| ==> HoldingAdded(t, item) == Edited(Err(MissingRow), t)
    ensures item.propertyId < |t.properties| ==>
      var row := t.properties[item.propertyId];
      HoldingAdded(t, item) == Rewritten(t, item.propertyId, row, StoredRepairTotal(row),
                                         Sum(StoredMonthlyHolding(row), Finite(item.cost)), t.repairItems, t.holdingItems + [item])
  {
  }

  lemma PropertyUpdatedRewrites(t: Tables, propertyId: nat, holdingPeriod: real, purchasePrice: real, afterRepairValue: real)
    ensures propertyId >= |t.properties| ==>
      PropertyUpdated(t, propertyId, holdingPeriod, purchasePrice, afterRepairValue) == Edited(Err(MissingRow), t)
    ensures propertyId < |t.properties| ==>
      var row := t.properties[propertyId];
      var edited := row.(holdingPeriod := Some(holdingPeriod), purchasePrice := purchasePrice, afterRepairValue := afterRepairValue);
      PropertyUpdated(t, propertyId, holdingPeriod, purchasePrice, afterRepairValue)
      == Rewritten(t, propertyId, edited, StoredRepairTotal(row), StoredMonthlyHolding(row), t.repairItems, t.holdingItems)
  {
  }

  lemma TaxesResetRewrites(t: Tables, propertyId: nat)
    ensures propertyId >= |t.properties| ==> TaxesReset(t, propertyId) == Edited(Err(MissingRow), t)
    ensures propertyId < |t.properties| ==>
      var row := t.properties[propertyId];
      TaxesReset(t, propertyId)
      == Rewritten(t, propertyId, row.(taxesYearly := Some(0.0)), StoredRepairTotal(row),
                   Sum(StoredMonthlyHolding(row), Finite(-MonthlyTaxes(row.taxesYearly))), t.repairItems, t.holdingItems)
  {
  }

  /**
   * Adding a repair item answers with the row whose stored total grew by the
   * item's cost and holds the item; it fails exactly when the property or its
   * mortgage row is missing, and then the database is as before.
   */
  lemma RepairAddedOutcome(t: Tables, item: Item)
    ensures RepairAdded(t, item).result.Ok?
      <==> item.propertyId < |t.properties| && FirstFor(t.mortgageCalcs, item.propertyId).Some?
    ensures RepairAdded(t, item).result.Err? ==>
      RepairAdded(t, item).tables == t && RepairAdded(t, item).result.error == MissingRow
    ensures RepairAdded(t, item).result.Ok? ==>
      && RepairAdded(t, item).tables.repairItems == t.repairItems + [item]
      && RepairAdded(t, item).tables.properties == t.properties[item.propertyId := RepairAdded(t, item).result.value]
    ensures RepairAdded(t, item).result.Ok? ==>
      && StoredRepairTotal(RepairAdded(t, item).result.value) == StoredRepairTotal(t.properties[item.propertyId]) + item.cost
      && StoredMonthlyHolding(RepairAdded(t, item).result.value) == StoredMonthlyHolding(t.properties[item.propertyId])
  {
    RepairAddedRewrites(t, item);
  }

  /** Adding a repair item keeps the database well formed, the repair sequence one further. */
  lemma RepairAddedWellFormed(t: Tables, nextRepairId: nat, nextHoldingId: nat, item: Item)
    requires WellFormed(t, nextRepairId, nextHoldingId) && item.id == nextRepairId
    ensures WellFormed(RepairAdded(t, item).tables, nextRepairId + 1, nextHoldingId)
  {
    RepairAddedRewrites(t, item);
    CountersAdvanceWellFormed(t, nextRepairId, nextHoldingId, nextRepairId + 1, nextHoldingId);
    if item.propertyId < |t.properties| {
      var row := t.properties[item.propertyId];
      ItemInsertWellFormed(t.repairItems, |t.properties|, nextRepairId, item);
      RewrittenWellFormed(t, item.propertyId, row, StoredRepairTotal(row) + item.cost, StoredMonthlyHolding(row),
                          t.repairItems + [item], t.holdingItems, nextRepairId + 1, nextHoldingId);
    }
  }

  /** Every property's item costs after one more row: only the row's own property gains its cost. */
  lemma PushCosts(items: seq<Item>, item: Item)
    ensures forall q: nat :: CostOf(items + [item], q) == CostOf(items, q) + (if item.propertyId == q then item.cost else 0.0)
  {
    forall q: nat ensures CostOf(items + [item], q) == CostOf(items, q) + (if item.propertyId == q then item.cost else 0.0) {
      CostOfPush(items, item, q);
    }
  }

  /** After adding a repair item every stored total still equals the sum of its property's repair items. */
  lemma RepairAddedKeepsTotals(t: Tables, item: Item)
    requires RepairTotalsAgree(t)
    ensures RepairTotalsAgree(RepairAdded(t, item).tables)
  {
    RepairAddedRewrites(t, item);
    if item.propertyId < |t.properties| {
      var row := t.properties[item.propertyId];
      PushCosts(t.repairItems, item);
      RewrittenKeepsTotals(t, item.propertyId, row, StoredRepairTotal(row) + item.cost, StoredMonthlyHolding(row),
                           t.repairItems + [item], t.holdingItems);
    }
  }

  /** A found repair item is deleted through Rewritten. */
  lemma RepairDeletedFound(t: Tables, itemId: nat, k: nat)
    requires forall i :: 0 <= i < |t.repairItems| ==> t.repairItems[i].propertyId < |t.properties|
    requires FindItem(t.repairItems, itemId) == Some(k)
    ensures k < |t.repairItems|
    ensures var item := t.repairItems[k];
      var row := t.properties[item.propertyId];
      RepairDeleted(t, itemId) == Rewritten(t, item.propertyId, row, StoredRepairTotal(row) - item.cost, StoredMonthlyHolding(row),
                                            WithoutItem(t.repairItems, itemId), t.holdingItems)
  {
  }

  /**
   * Deleting repair item k answers with the row whose stored total shrank by
   * the item's cost; a missing mortgage row is an error that leaves the
   * database as it was.
   */
  lemma RepairDeletedOutcome(t: Tables, itemId: nat, k: nat)
    requires forall i :: 0 <= i < |t.repairItems| ==> t.repairItems[i].propertyId < |t.properties|
    requires FindItem(t.repairItems, itemId) == Some(k)
    ensures k < |t.repairItems|
    ensures RepairDeleted(t, itemId).result.Ok? <==> FirstFor(t.mortgageCalcs, t.repairItems[k].propertyId).Some?
    ensures RepairDeleted(t, itemId).result.Err? ==>
      RepairDeleted(t, itemId).tables == t && RepairDeleted(t, itemId).result.error == MissingRow
    ensures RepairDeleted(t, itemId).result.Ok? ==>
      && RepairDeleted(t, itemId).tables.repairItems == WithoutItem(t.repairItems, itemId)
      && RepairDeleted(t, itemId).tables.properties == t.properties[t.repairItems[k].propertyId := RepairDeleted(t, itemId).result.value]
    ensures RepairDeleted(t, itemId).result.Ok? ==>
      StoredRepairTotal(RepairDeleted(t, itemId).result.value)
      == StoredRepairTotal(t.properties[t.repairItems[k].propertyId]) - t.repairItems[k].cost
  {
    RepairDeletedFound(t, itemId, k);
  }

  /** Deleting an unknown repair item is an error that changes nothing. */
  lemma RepairDeletedMissing(t: Tables, itemId: nat)
    requires forall i :: 0 <= i < |t.repairItems| ==> t.repairItems[i].propertyId < |t.properties|
    requires forall i :: 0 <= i < |t.repairItems| ==> t.repairItems[i].id != itemId
    ensures RepairDeleted(t, itemId).result == Err(MissingRow) && RepairDeleted(t, itemId).tables == t
  {
  }

  /** Deleting a repair item keeps the database well formed. */
  lemma RepairDeletedWellFormed(t: Tables, nextRepairId: nat, nextHoldingId: nat, itemId: nat)
    requires WellFormed(t, nextRepairId, nextHoldingId)
    ensures WellFormed(RepairDeleted(t, itemId).tables, nextRepairId, nextHoldingId)
  {
    match FindItem(t.repairItems, itemId)
    case None =>
    case Some(k) =>
      RepairDeletedFound(t, itemId, k);
      var item := t.repairItems[k];
      var row := t.properties[item.propertyId];
      ItemDeleteWellFormed(t.repairItems, |t.properties|, nextRepairId, itemId);
      RewrittenWellFormed(t, item.propertyId, row, StoredRepairTotal(row) - item.cost, StoredMonthlyHolding(row),
                          WithoutItem(t.repairItems, itemId), t.holdingItems, nextRepairId, nextHoldingId);
  }

  /** Every property's item costs once row k is deleted: only the row's own property loses its cost. */
  lemma DeleteCosts(items: seq<Item>, k: nat)
    requires k < |items| && IdsIncreasing(items)
    ensures forall q: nat ::
      CostOf(WithoutItem(items, items[k].id), q) == CostOf(items, q) - (if items[k].propertyId == q then items[k].cost else 0.0)
  {
    forall q: nat ensures CostOf(WithoutItem(items, items[k].id), q)
      == CostOf(items, q) - (if items[k].propertyId == q then items[k].cost else 0.0)
    {
      CostWithoutItem(items, k, q);
    }
  }

  /** After deleting a repair item every stored total still equals the sum of its property's repair items. */
  lemma RepairDeletedKeepsTotals(t: Tables, itemId: nat)
    requires forall i :: 0 <= i < |t.repairItems| ==> t.repairItems[i].propertyId < |t.properties|
    requires IdsIncreasing(t.repairItems) && RepairTotalsAgree(t)
    ensures RepairTotalsAgree(RepairDeleted(t, itemId).tables)
  {
    match FindItem(t.repairItems, itemId)
    case None =>
    case Some(k) =>
      RepairDeletedFound(t, itemId, k);
      var item := t.repairItems[k];
      var row := t.properties[item.propertyId];
      DeleteCosts(t.repairItems, k);
      RewrittenKeepsTotals(t, item.propertyId, row, StoredRepairTotal(row) - item.cost, StoredMonthlyHolding(row),
                           WithoutItem(t.repairItems, itemId), t.holdingItems);
  }

  /**
   * Adding a holding item answers with the row whose stored monthly holding
   * cost grew by the item's cost; the repair rows and stored repair total stay.
   */
  lemma HoldingAddedOutcome(t: Tables, item: Item)
    ensures HoldingAdded(t, item).result.Ok?
      <==> item.propertyId < |t.properties| && FirstFor(t.mortgageCalcs, item.propertyId).Some?
    ensures HoldingAdded(t, item).result.Err? ==>
      HoldingAdded(t, item).tables == t && HoldingAdded(t, item).result.error == MissingRow
    ensures HoldingAdded(t, item).result.Ok? ==>
      && HoldingAdded(t, item).tables.holdingItems == t.holdingItems + [item]
      && HoldingAdded(t, item).tables.repairItems == t.repairItems
      && HoldingAdded(t, item).tables.properties == t.properties[item.propertyId := HoldingAdded(t, item).result.value]
    ensures HoldingAdded(t, item).result.Ok? ==>
      && StoredMonthlyHolding(HoldingAdded(t, item).result.value)
         == Sum(StoredMonthlyHolding(t.properties[item.propertyId]), Finite(item.cost))
      && StoredRepairTotal(HoldingAdded(t, item).result.value) == StoredRepairTotal(t.properties[item.propertyId])
  {
    HoldingAddedRewrites(t, item);
  }

  /** Adding a holding item keeps the database well formed, the holding sequence one further. */
  lemma HoldingAddedWellFormed(t: Tables, nextRepairId: nat, nextHoldingId: nat, item: Item)
    requires WellFormed(t, nextRepairId, nextHoldingId) && item.id == nextHoldingId
    ensures WellFormed(HoldingAdded(t, item).tables, nextRepairId, nextHoldingId + 1)
  {
    HoldingAddedRewrites(t, item);
    CountersAdvanceWellFormed(t, nextRepairId, nextHoldingId, nextRepairId, nextHoldingId + 1);
    if item.propertyId < |t.properties| {
      var row := t.properties[item.propertyId];
      ItemInsertWellFormed(t.holdingItems, |t.properties|, nextHoldingId, item);
      RewrittenWellFormed(t, item.propertyId, row, StoredRepairTotal(row), Sum(StoredMonthlyHolding(row), Finite(item.cost)),
                          t.repairItems, t.holdingItems + [item], nextRepairId, nextHoldingId + 1);
    }
  }

  /** Adding a holding item leaves every stored repair total equal to its items' sum. */
  lemma HoldingAddedKeepsTotals(t: Tables, item: Item)
    requires RepairTotalsAgree(t)
    ensures RepairTotalsAgree(HoldingAdded(t, item).tables)
  {
    HoldingAddedRewrites(t, item);
    if item.propertyId < |t.properties| {
      var row := t.properties[item.propertyId];
      RewrittenKeepsTotals(t, item.propertyId, row, StoredRepairTotal(row), Sum(StoredMonthlyHolding(row), Finite(item.cost)),
                           t.repairItems, t.holdingItems + [item]);
    }
  }

  /** A found holding item is deleted through Rewritten. */
  lemma HoldingDeletedFound(t: Tables, itemId: nat, k: nat)
    requires forall i :: 0 <= i < |t.holdingItems| ==> t.holdingItems[i].propertyId < |t.properties|
    requires FindItem(t.holdingItems, itemId) == Some(k)
    ensures k < |t.holdingItems|
    ensures var item := t.holdingItems[k];
      var row := t.properties[item.propertyId];
      HoldingDeleted(t, itemId) == Rewritten(t, item.propertyId, row, StoredRepairTotal(row),
                                             Sum(StoredMonthlyHolding(row), Finite(-item.cost)),
                                             t.repairItems, WithoutItem(t.holdingItems, itemId))
  {
  }

  /**
   * Deleting holding item k takes its cost off the stored monthly holding
   * cost; the repair rows and stored repair total stay.
   */
  lemma HoldingDeletedOutcome(t: Tables, itemId: nat, k: nat)
    requires forall i :: 0 <= i < |t.holdingItems| ==> t.holdingItems[i].propertyId < |t.properties|
    requires FindItem(t.holdingItems, itemId) == Some(k)
    ensures k < |t.holdingItems|
    ensures HoldingDeleted(t, itemId).result.Ok? <==> FirstFor(t.mortgageCalcs, t.holdingItems[k].propertyId).Some?
    ensures HoldingDeleted(t, itemId).result.Err? ==>
      HoldingDeleted(t, itemId).tables == t && HoldingDeleted(t, itemId).result.error == MissingRow
    ensures HoldingDeleted(t, itemId).result.Ok? ==>
      && HoldingDeleted(t, itemId).tables.holdingItems == WithoutItem(t.holdingItems, itemId)
      && HoldingDeleted(t, itemId).tables.repairItems == t.repairItems
      && HoldingDeleted(t, itemId).tables.properties == t.properties[t.holdingItems[k].propertyId := HoldingDeleted(t, itemId).result.value]
    ensures HoldingDeleted(t, itemId).result.Ok? ==>
      StoredMonthlyHolding(HoldingDeleted(t, itemId).result.value)
      == Sum(StoredMonthlyHolding(t.properties[t.holdingItems[k].propertyId]), Finite(-t.holdingItems[k].cost))
  {
    HoldingDeletedFound(t, itemId, k);
  }

  /** Deleting an unknown holding item is an error that changes nothing. */
  lemma HoldingDeletedMissing(t: Tables, itemId: nat)
    requires forall i :: 0 <= i < |t.holdingItems| ==> t.holdingItems[i].propertyId < |t.properties|
    requires forall i :: 0 <= i < |t.holdingItems| ==> t.holdingItems[i].id != itemId
    ensures HoldingDeleted(t, itemId).result == Err(MissingRow) && HoldingDeleted(t, itemId).tables == t
  {
  }

  /** Deleting a holding item keeps the database well formed. */
  lemma HoldingDeletedWellFormed(t: Tables, nextRepairId: nat, nextHoldingId: nat, itemId: nat)
    requires WellFormed(t, nextRepairId, nextHoldingId)
    ensures WellFormed(HoldingDeleted(t, itemId).tables, nextRepairId, nextHoldingId)
  {
    match FindItem(t.holdingItems, itemId)
    case None =>
    case Some(k) =>
      HoldingDeletedFound(t, itemId, k);
      var item := t.holdingItems[k];
      var row := t.properties[item.propertyId];
      ItemDeleteWellFormed(t.holdingItems, |t.properties|, nextHoldingId, itemId);
      RewrittenWellFormed(t, item.propertyId, row, StoredRepairTotal(row), Sum(StoredMonthlyHolding(row), Finite(-item.cost)),
                          t.repairItems, WithoutItem(t.holdingItems, itemId), nextRepairId, nextHoldingId);
  }

  /** Deleting a holding item leaves every stored repair total equal to its items' sum. */
  lemma HoldingDeletedKeepsTotals(t: Tables, itemId: nat)
    requires forall i :: 0 <= i < |t.holdingItems| ==> t.holdingItems[i].propertyId < |t.properties|
    requires RepairTotalsAgree(t)
    ensures RepairTotalsAgree(HoldingDeleted(t, itemId).tables)
  {
    match FindItem(t.holdingItems, itemId)
    case None =>
    case Some(k) =>
      HoldingDeletedFound(t, itemId, k);
      var item := t.holdingItems[k];
      var row := t.properties[item.propertyId];
      RewrittenKeepsTotals(t, item.propertyId, row, StoredRepairTotal(row), Sum(StoredMonthlyHolding(row), Finite(-item.cost)),
                           t.repairItems, WithoutItem(t.holdingItems, itemId));
  }

  /**
   * Updating a property stores the three numbers the user sent and
   * recomputes from the stored totals, which stay as they were; nothing but
   * the row changes.
   */
  lemma PropertyUpdatedOutcome(t: Tables, propertyId: nat, holdingPeriod: real, purchasePrice: real, afterRepairValue: real)
    ensures PropertyUpdated(t, propertyId, holdingPeriod, purchasePrice, afterRepairValue).result.Ok?
      <==> propertyId < |t.properties| && FirstFor(t.mortgageCalcs, propertyId).Some?
    ensures PropertyUpdated(t, propertyId, holdingPeriod, purchasePrice, afterRepairValue).result.Err? ==>
      && PropertyUpdated(t, propertyId, holdingPeriod, purchasePrice, afterRepairValue).tables == t
      && PropertyUpdated(t, propertyId, holdingPeriod, purchasePrice, afterRepairValue).result.error == MissingRow
    ensures PropertyUpdated(t, propertyId, holdingPeriod, purchasePrice, afterRepairValue).result.Ok? ==>
      PropertyUpdated(t, propertyId, holdingPeriod, purchasePrice, afterRepairValue).tables
      == t.(properties := t.properties[propertyId := PropertyUpdated(t, propertyId, holdingPeriod, purchasePrice, afterRepairValue).result.value])
    ensures PropertyUpdated(t, propertyId, holdingPeriod, purchasePrice, afterRepairValue).result.Ok? ==>
      var row := PropertyUpdated(t, propertyId, holdingPeriod, purchasePrice, afterRepairValue).result.value;
      && row.holdingPeriod == Some(holdingPeriod)
      && row.purchasePrice == purchasePrice
      && row.afterRepairValue == afterRepairValue
      && StoredRepairTotal(row) == StoredRepairTotal(t.properties[propertyId])
      && StoredMonthlyHolding(row) == StoredMonthlyHolding(t.properties[propertyId])
      && Coherent(row.derived.value, holdingPeriod, afterRepairValue)
  {
    PropertyUpdatedRewrites(t, propertyId, holdingPeriod, purchasePrice, afterRepairValue);
  }

  /** Updating a property keeps the database well formed. */
  lemma PropertyUpdatedWellFormed(t: Tables, nextRepairId: nat, nextHoldingId: nat,
                                  propertyId: nat, holdingPeriod: real, purchasePrice: real, afterRepairValue: real)
    requires WellFormed(t, nextRepairId, nextHoldingId)
    ensures WellFormed(PropertyUpdated(t, propertyId, holdingPeriod, purchasePrice, afterRepairValue).tables, nextRepairId, nextHoldingId)
  {
    PropertyUpdatedRewrites(t, propertyId, holdingPeriod, purchasePrice, afterRepairValue);
    if propertyId < |t.properties| {
      var row := t.properties[propertyId];
      var edited := row.(holdingPeriod := Some(holdingPeriod), purchasePrice := purchasePrice, afterRepairValue := afterRepairValue);
      RewrittenWellFormed(t, propertyId, edited, StoredRepairTotal(row), StoredMonthlyHolding(row),
                          t.repairItems, t.holdingItems, nextRepairId, nextHoldingId);
    }
  }

  /** Updating a property leaves every stored repair total equal to its items' sum. */
  lemma PropertyUpdatedKeepsTotals(t: Tables, propertyId: nat, holdingPeriod: real, purchasePrice: real, afterRepairValue: real)
    requires RepairTotalsAgree(t)
    ensures RepairTotalsAgree(PropertyUpdated(t, propertyId, holdingPeriod, purchasePrice, afterRepairValue).tables)
  {
    PropertyUpdatedRewrites(t, propertyId, holdingPeriod, purchasePrice, afterRepairValue);
    if propertyId < |t.properties| {
      var row := t.properties[propertyId];
      var edited := row.(holdingPeriod := Some(holdingPeriod), purchasePrice := purchasePrice, afterRepairValue := afterRepairValue);
      RewrittenKeepsTotals(t, propertyId, edited, StoredRepairTotal(row), StoredMonthlyHolding(row), t.repairItems, t.holdingItems);
    }
  }

  /**
   * Resetting the taxes zeroes them and removes a month of the old taxes
   * from the stored monthly holding cost; nothing but the row changes.
   */
  lemma TaxesResetOutcome(t: Tables, propertyId: nat)
    ensures TaxesReset(t, propertyId).result.Ok? <==> propertyId < |t.properties| && FirstFor(t.mortgageCalcs, propertyId).Some?
    ensures TaxesReset(t, propertyId).result.Err? ==>
      TaxesReset(t, propertyId).tables == t && TaxesReset(t, propertyId).result.error == MissingRow
    ensures TaxesReset(t, propertyId).result.Ok? ==>
      TaxesReset(t, propertyId).tables == t.(properties := t.properties[propertyId := TaxesReset(t, propertyId).result.value])
    ensures TaxesReset(t, propertyId).result.Ok? ==>
      var row := TaxesReset(t, propertyId).result.value;
      && row.taxesYearly == Some(0.0)
      && StoredMonthlyHolding(row)
         == Sum(StoredMonthlyHolding(t.properties[propertyId]), Finite(-MonthlyTaxes(t.properties[propertyId].taxesYearly)))
      && StoredRepairTotal(row) == StoredRepairTotal(t.properties[propertyId])
  {
    TaxesResetRewrites(t, propertyId);
  }

  /** Resetting the taxes keeps the database well formed. */
  lemma TaxesResetWellFormed(t: Tables, nextRepairId: nat, nextHoldingId: nat, propertyId: nat)
    requires WellFormed(t, nextRepairId, nextHoldingId)
    ensures WellFormed(TaxesReset(t, propertyId).tables, nextRepairId, nextHoldingId)
  {
    TaxesResetRewrites(t, propertyId);
    if propertyId < |t.properties| {
      var row := t.properties[propertyId];
      RewrittenWellFormed(t, propertyId, row.(taxesYearly := Some(0.0)), StoredRepairTotal(row),
                          Sum(StoredMonthlyHolding(row), Finite(-MonthlyTaxes(row.taxesYearly))),
                          t.repairItems, t.holdingItems, nextRepairId, nextHoldingId);
    }
  }

  /** Resetting the taxes leaves every stored repair total equal to its items' sum. */
  lemma TaxesResetKeepsTotals(t: Tables, propertyId: nat)
    requires RepairTotalsAgree(t)
    ensures RepairTotalsAgree(TaxesReset(t, propertyId).tables)
  {
    TaxesResetRewrites(t, propertyId);
    if propertyId < |t.properties| {
      var row := t.properties[propertyId];
      RewrittenKeepsTotals(t, propertyId, row.(taxesYearly := Some(0.0)), StoredRepairTotal(row),
                           Sum(StoredMonthlyHolding(row), Finite(-MonthlyTaxes(row.taxesYearly))),
                           t.repairItems, t.holdingItems);
    }
  }

  // ----- PUT /backToDefault/:id -----

  /** `${address}` of a variable the route declares and never assigns (lines 748, 796, 808). */
  const UnsetAddress: string := "undefined"

  /**
   * What PUT /backToDefault/:id leaves behind: the error it ends in, the
   * provider calls in order, the tables and the two item sequences.
   */
  datatype Restored = Restored(failure: Failure, calls: seq<ProviderCall>, tables: Tables,
                               nextRepairId: nat, nextHoldingId: nat)

  /**
   * The market-data gate of backToDefault (lines 782-890) asks for the
   * property's own api row by id, so it hits exactly when that row exists
   * and is fresh.
   */
  predicate ApiRowFresh(t: Tables, propertyId: nat, now: int)
    requires propertyId < |t.properties|
  {
    var apiId := t.properties[propertyId].apiDataId;
    apiId < |t.apiData| && IsFresh(t.apiData[apiId].insertedAt, now)
  }

  /** The property's items gone, as the two autocommitted DELETEs leave them (lines 753-767). */
  function Cleared(t: Tables, propertyId: nat): Tables {
    t.(holdingItems := WithoutProperty(t.holdingItems, propertyId),
       repairItems := WithoutProperty(t.repairItems, propertyId))
  }

  /**
   * PUT /backToDefault/:id (lines 734-1030). Every write goes through the
   * pool, outside the route's transaction, so each one persists whatever
   * happens later: the property's items are deleted; a gate miss asks the
   * providers about the text "undefined" and appends a market-data row
   * with no address id; the user's defaults are copied back, holdings then
   * repairs. The route then reads the user's holding period and the
   * mortgage row (a missing one throws) and finally reads the undeclared
   * holdingPeriod (line 993), which throws: it never rewrites the row.
   */
  function RestoredDefaults(t: Tables, nextRepairId: nat, nextHoldingId: nat, propertyId: nat, userId: int,
                            now: int, currentYear: int, p: Providers): Restored
  {
    var cleared := Cleared(t, propertyId);
    if propertyId >= |t.properties| then Restored(MissingRow, [], cleared, nextRepairId, nextHoldingId)
    else
      var hit := ApiRowFresh(t, propertyId, now);
      var fetch := FetchMarketData(UnsetAddress, currentYear, false, p);
      var calls := if hit then [] else fetch.calls;
      if !hit && fetch.result.Err? then Restored(fetch.result.error, calls, cleared, nextRepairId, nextHoldingId)
      else
        var holdings := UserDefaults(t.defaultHoldings, userId);
        var repairs := UserDefaults(t.defaultRepairs, userId);
        var filled := cleared.(
          apiData := if hit then t.apiData else t.apiData + [Stamped(None, now, fetch.result.value.data)],
          holdingItems := cleared.holdingItems + AsItems(holdings, propertyId, nextHoldingId),
          repairItems := cleared.repairItems + AsItems(repairs, propertyId, nextRepairId));
        var failure :=
          if userId !in t.holdingPeriodDefaults || FirstFor(t.mortgageCalcs, propertyId).None? then MissingRow
          else UndeclaredVariable;
        Restored(failure, calls, filled, nextRepairId + |repairs|, nextHoldingId + |holdings|)
  }

  /** The route keeps the database well formed and only moves the item sequences forward. */
  lemma RestoredDefaultsWellFormed(t: Tables, nextRepairId: nat, nextHoldingId: nat, propertyId: nat, userId: int,
                                   now: int, currentYear: int, p: Providers)
    requires WellFormed(t, nextRepairId, nextHoldingId)
    ensures var r := RestoredDefaults(t, nextRepairId, nextHoldingId, propertyId, userId, now, currentYear, p);
      && WellFormed(r.tables, r.nextRepairId, r.nextHoldingId)
      && nextRepairId <= r.nextRepairId && nextHoldingId <= r.nextHoldingId
  {
    var cleared := Cleared(t, propertyId);
    var count := |t.properties|;
    PropertyItemsDeleteWellFormed(t.repairItems, count, nextRepairId, propertyId);
    PropertyItemsDeleteWellFormed(t.holdingItems, count, nextHoldingId, propertyId);
    if propertyId < count {
      var holdings := UserDefaults(t.defaultHoldings, userId);
      var repairs := UserDefaults(t.defaultRepairs, userId);
      DefaultsAppendWellFormed(cleared.holdingItems, holdings, propertyId, count, nextHoldingId);
      DefaultsAppendWellFormed(cleared.repairItems, repairs, propertyId, count, nextRepairId);
    }
  }

  /** Copying defaults onto an existing property keeps an item table well formed. */
  lemma DefaultsAppendWellFormed(items: seq<Item>, defaults: seq<DefaultItem>, propertyId: nat, count: nat, nextId: nat)
    requires ItemsWellFormed(items, count, nextId) && propertyId < count
    ensures ItemsWellFormed(items + AsItems(defaults, propertyId, nextId), count, nextId + |defaults|)
  {
    AppendItemsWellFormed(items, AsItems(defaults, propertyId, nextId), count, nextId, count, nextId + |defaults|);
  }

  /**
   * Once the route reaches the copies, each item table is the old one with
   * the property's rows deleted and the user's defaults appended under the
   * property, so the property's sums are the defaults' totals and every
   * other property's sums are as before.
   */
  lemma {:induction false} RestoredDefaultsItems(t: Tables, nextRepairId: nat, nextHoldingId: nat, propertyId: nat,
                                                 userId: int, now: int, currentYear: int, p: Providers, other: nat)
    requires propertyId < |t.properties| && other != propertyId
    requires ApiRowFresh(t, propertyId, now) || FetchMarketData(UnsetAddress, currentYear, false, p).result.Ok?
    ensures var r := RestoredDefaults(t, nextRepairId, nextHoldingId, propertyId, userId, now, currentYear, p);
      && r.tables.repairItems
           == WithoutProperty(t.repairItems, propertyId) + AsItems(UserDefaults(t.defaultRepairs, userId), propertyId, nextRepairId)
      && r.tables.holdingItems
           == WithoutProperty(t.holdingItems, propertyId) + AsItems(UserDefaults(t.defaultHoldings, userId), propertyId, nextHoldingId)
      && CostOf(r.tables.repairItems, propertyId) == DefaultTotal(UserDefaults(t.defaultRepairs, userId))
      && CostOf(r.tables.holdingItems, propertyId) == DefaultTotal(UserDefaults(t.defaultHoldings, userId))
      && CostOf(r.tables.repairItems, other) == CostOf(t.repairItems, other)
      && CostOf(r.tables.holdingItems, other) == CostOf(t.holdingItems, other)
  {
    DefaultsCostAfterClear(t.repairItems, UserDefaults(t.defaultRepairs, userId), propertyId, nextRepairId, other);
    DefaultsCostAfterClear(t.holdingItems, UserDefaults(t.defaultHoldings, userId), propertyId, nextHoldingId, other);
  }

  /** Deleting a property's rows and appending copied defaults, as sums per property. */
  lemma DefaultsCostAfterClear(items: seq<Item>, defaults: seq<DefaultItem>, propertyId: nat, nextId: nat, other: nat)
    requires other != propertyId
    ensures var all := WithoutProperty(items, propertyId) + AsItems(defaults, propertyId, nextId);
      && CostOf(all, propertyId) == DefaultTotal(defaults)
      && CostOf(all, other) == CostOf(items, other)
  {
    var extra := AsItems(defaults, propertyId, nextId);
    CostWithoutProperty(items, propertyId, other);
    CostOfAppend(WithoutProperty(items, propertyId), extra, propertyId);
    CostOfAppend(WithoutProperty(items, propertyId), extra, other);
    CostOfDefaults(defaults, propertyId, nextId, other);
  }

  /**
   * The route never writes a properties row or a calculation row: the
   * derived columns keep the totals of the items it deleted.
   */
  lemma RestoredDefaultsKeepsRows(t: Tables, nextRepairId: nat, nextHoldingId: nat, propertyId: nat, userId: int,
                                  now: int, currentYear: int, p: Providers)
    ensures var r := RestoredDefaults(t, nextRepairId, nextHoldingId, propertyId, userId, now, currentYear, p);
      && r.tables.properties == t.properties
      && r.tables.defaultCalcs == t.defaultCalcs && r.tables.mortgageCalcs == t.mortgageCalcs
  {
  }

  /**
   * Stored repair totals agree with the items afterwards only if the
   * property's stored total already equalled its user's default total.
   */
  lemma RestoredDefaultsStaleTotal(t: Tables, nextRepairId: nat, nextHoldingId: nat, propertyId: nat, userId: int,
                                   now: int, currentYear: int, p: Providers)
    requires propertyId < |t.properties|
    requires ApiRowFresh(t, propertyId, now) || FetchMarketData(UnsetAddress, currentYear, false, p).result.Ok?
    requires StoredRepairTotal(t.properties[propertyId]) != DefaultTotal(UserDefaults(t.defaultRepairs, userId))
    ensures !RepairTotalsAgree(RestoredDefaults(t, nextRepairId, nextHoldingId, propertyId, userId, now, currentYear, p).tables)
  {
    var r := RestoredDefaults(t, nextRepairId, nextHoldingId, propertyId, userId, now, currentYear, p);
    DefaultsCostAfterClear(t.repairItems, UserDefaults(t.defaultRepairs, userId), propertyId, nextRepairId, propertyId + 1);
    assert r.tables.properties[propertyId] == t.properties[propertyId];
  }

  /**
   * The route always ends in an error. Past the gate and the copies it is
   * the ReferenceError of line 993 whenever the user and the mortgage row
   * exist; a gate miss first asks the value-estimate service about "undefined".
   */
  lemma RestoredDefaultsFailure(t: Tables, nextRepairId: nat, nextHoldingId: nat, propertyId: nat, userId: int,
                                now: int, currentYear: int, p: Providers)
    ensures var r := RestoredDefaults(t, nextRepairId, nextHoldingId, propertyId, userId, now, currentYear, p);
      && (propertyId >= |t.properties| ==> r.failure == MissingRow && r.calls == [])
      && (propertyId < |t.properties| && ApiRowFresh(t, propertyId, now) ==> r.calls == [] && r.tables.apiData == t.apiData)
      && (propertyId < |t.properties| && !ApiRowFresh(t, propertyId, now) ==> r.calls[0] == ValueEstimateCall("undefined"))
      && (propertyId < |t.properties| && (ApiRowFresh(t, propertyId, now) || FetchMarketData(UnsetAddress, currentYear, false, p).result.Ok?) ==>
            (r.failure == UndeclaredVariable <==>
               userId in t.holdingPeriodDefaults && exists i :: 0 <= i < |t.mortgageCalcs| && t.mortgageCalcs[i].key == propertyId))
  {
  }

  class Store {
    var tables: Tables
    var nextRepairId: nat
    var nextHoldingId: nat

    predicate Valid()
      reads this
    {
      WellFormed(tables, nextRepairId, nextHoldingId)
    }

    constructor(defaultRepairs: seq<DefaultItem>, defaultHoldings: seq<DefaultItem>, holdingPeriodDefaults: map<int, real>)
      ensures Valid()
      ensures tables == Tables([], [], [], [], [], [], defaultRepairs, defaultHoldings, holdingPeriodDefaults)
      ensures nextRepairId == 0 && nextHoldingId == 0
    {
      tables := Tables([], [], [], [], [], [], defaultRepairs, defaultHoldings, holdingPeriodDefaults);
      nextRepairId := 0;
      nextHoldingId := 0;
    }

    // ===================== the stages of POST / =====================

    /**
     * The market-data gate (lines 129-247): a hit reuses the last fresh
     * row of the address and calls nothing; a miss calls the providers and
     * appends exactly one row, keyed by the address id and stamped now.
     */
    method AcquireMarketData(addressId: string, address: string, now: int, currentYear: int, p: Providers)
      returns (r: Result<(nat, Market), Failure>, calls: seq<ProviderCall>)
      modifies this
      ensures r == MarketGate(old(tables.apiData), addressId, address, now, currentYear, p)
      ensures calls == GateCalls(old(tables.apiData), addressId, address, now, currentYear, p)
      ensures nextRepairId == old(nextRepairId) && nextHoldingId == old(nextHoldingId)
      ensures r.Err? ==> tables == old(tables)
      ensures r.Ok? ==> tables == old(tables).(apiData := GateRows(old(tables.apiData), addressId, now, r.value.1))
    {
      var hit := Lookup(tables.apiData, Some(addressId), now);
      if hit.Some? {
        calls := [];
        r := Ok((hit.value, Reused(tables.apiData[hit.value].data)));
      } else {
        var f := FetchMarketData(address, currentYear, true, p);
        calls := f.calls;
        if f.result.Err? {
          r := Err(f.result.error);
        } else {
          r := Ok((|tables.apiData|, f.result.value));
          tables := tables.(apiData := tables.apiData + [Stamped(Some(addressId), now, f.result.value.data)]);
        }
      }
    }

    /** The for...of loop of lines 280-289: one holding item per default of the user. */
    method CopyDefaultHoldings(propertyId: nat, selected: seq<DefaultItem>)
      modifies this
      ensures tables == old(tables).(holdingItems := old(tables.holdingItems) + AsItems(selected, propertyId, old(nextHoldingId)))
      ensures nextHoldingId == old(nextHoldingId) + |selected| && nextRepairId == old(nextRepairId)
    {
      for k := 0 to |selected|
        invariant tables == old(tables).(holdingItems := old(tables.holdingItems) + AsItems(selected[..k], propertyId, old(nextHoldingId)))
        invariant nextHoldingId == old(nextHoldingId) + k && nextRepairId == old(nextRepairId)
      {
        var item := Item(nextHoldingId, propertyId, selected[k].name, selected[k].cost);
        assert AsItems(selected[..k + 1], propertyId, old(nextHoldingId))
          == AsItems(selected[..k], propertyId, old(nextHoldingId)) + [item];
        tables := tables.(holdingItems := tables.holdingItems + [item]);
        nextHoldingId := nextHoldingId + 1;
      }
      assert selected[..|selected|] == selected;
    }

    /** The for...of loop of lines 313-322: one repair item per default of the user. */
    method CopyDefaultRepairs(propertyId: nat, selected: seq<DefaultItem>)
      modifies this
      ensures tables == old(tables).(repairItems := old(tables.repairItems) + AsItems(selected, propertyId, old(nextRepairId)))
      ensures nextRepairId == old(nextRepairId) + |selected| && nextHoldingId == old(nextHoldingId)
    {
      for k := 0 to |selected|
        invariant tables == old(tables).(repairItems := old(tables.repairItems) + AsItems(selected[..k], propertyId, old(nextRepairId)))
        invariant nextRepairId == old(nextRepairId) + k && nextHoldingId == old(nextHoldingId)
      {
        var item := Item(nextRepairId, propertyId, selected[k].name, selected[k].cost);
        assert AsItems(selected[..k + 1], propertyId, old(nextRepairId))
          == AsItems(selected[..k], propertyId, old(nextRepairId)) + [item];
        tables := tables.(repairItems := tables.repairItems + [item]);
        nextRepairId := nextRepairId + 1;
      }
      assert selected[..|selected|] == selected;
    }

    /**
     * The default-calculation gate (lines 352-421). A miss asks for the
     * interest rate, then asks the calculator about a loan of the full
     * purchase price (line 384) and re-derives the annual rate for the loan
     * of 80% of it; it appends one row.
     */
    method SettleLoanTerms(propertyId: nat, purchasePrice: real, now: int, p: Providers)
      returns (r: Result<LoanTerms, Failure>, calls: seq<ProviderCall>)
      requires propertyId < |tables.properties|
      modifies this
      ensures nextRepairId == old(nextRepairId) && nextHoldingId == old(nextHoldingId)
      ensures var hit := Lookup(old(tables.defaultCalcs), propertyId, now);
        hit.Some? ==>
          && calls == [] && tables == old(tables)
          && r == Ok(TermsFromRow(old(tables.defaultCalcs)[hit.value].data, old(tables.properties)[propertyId].purchasePrice))
      ensures Lookup(old(tables.defaultCalcs), propertyId, now).None? && p.interestRate.None? ==>
        calls == [InterestRateCall] && r == Err(ProviderFailed) && tables == old(tables)
      ensures Lookup(old(tables.defaultCalcs), propertyId, now).None? && p.interestRate.Some? ==>
        var rate := p.interestRate.value;
        var answer := p.calculator(purchasePrice, rate, DefaultLoanTerm, DownPayment(purchasePrice));
        && calls == [InterestRateCall, CalculatorCall(purchasePrice, rate, DefaultLoanTerm, DownPayment(purchasePrice))]
        && (answer.None? ==> r == Err(ProviderFailed) && tables == old(tables))
        && (answer.Some? ==>
              var terms := FreshTerms(purchasePrice, rate, answer.value);
              && r == Ok(terms)
              && tables == old(tables).(defaultCalcs := old(tables.defaultCalcs)
                   + [Stamped(propertyId, now, DefaultCalculation(rate, terms.baseLoanAmount, terms.interestRateAnnual))]))
    {
      var hit := Lookup(tables.defaultCalcs, propertyId, now);
      if hit.Some? {
        calls := [];
        r := Ok(TermsFromRow(tables.defaultCalcs[hit.value].data, tables.properties[propertyId].purchasePrice));
        return;
      }
      calls := [InterestRateCall];
      if p.interestRate.None? {
        r := Err(ProviderFailed);
        return;
      }
      var rate := p.interestRate.value;
      var downPayment := DownPayment(purchasePrice);
      calls := calls + [CalculatorCall(purchasePrice, rate, DefaultLoanTerm, downPayment)];
      var answer := p.calculator(purchasePrice, rate, DefaultLoanTerm, downPayment);
      if answer.None? {
        r := Err(ProviderFailed);
        return;
      }
      var terms := FreshTerms(purchasePrice, rate, answer.value);
      tables := tables.(defaultCalcs := tables.defaultCalcs
        + [Stamped(propertyId, now, DefaultCalculation(rate, terms.baseLoanAmount, terms.interestRateAnnual))]);
      r := Ok(terms);
    }

    /**
     * The mortgage-calculation gate (lines 426-476) and the read of the row
     * by id (lines 481-486): a miss appends the row derived from the terms.
     */
    method SettleMortgage(propertyId: nat, terms: LoanTerms, now: int) returns (row: MortgageCalculation)
      modifies this
      ensures nextRepairId == old(nextRepairId) && nextHoldingId == old(nextHoldingId)
      ensures var hit := Lookup(old(tables.mortgageCalcs), propertyId, now);
        hit.Some? ==> tables == old(tables) && row == old(tables.mortgageCalcs)[hit.value].data
      ensures Lookup(old(tables.mortgageCalcs), propertyId, now).None? ==>
        && row == NewMortgageCalculation(terms.interestRate, terms.downPayment, terms.baseLoanAmount,
                                         terms.closingCosts, terms.interestRateAnnual)
        && tables == old(tables).(mortgageCalcs := old(tables.mortgageCalcs) + [Stamped(propertyId, now, row)])
    {
      var hit := Lookup(tables.mortgageCalcs, propertyId, now);
      if hit.Some? {
        row := tables.mortgageCalcs[hit.value].data;
      } else {
        row := NewMortgageCalculation(terms.interestRate, terms.downPayment, terms.baseLoanAmount,
                                      terms.closingCosts, terms.interestRateAnnual);
        tables := tables.(mortgageCalcs := tables.mortgageCalcs + [Stamped(propertyId, now, row)]);
      }
    }
  

    /**
     * The first half of POST / (lines 129-330): the market-data gate, the
     * property insert, and the user's default holdings and repairs copied
     * onto the new property.
     */
    method OpenProperty(userId: int, addressId: string, address: string, now: int, currentYear: int, p: Providers)
      returns (r: Result<(nat, Market), Failure>, calls: seq<ProviderCall>)
      requires Valid()
      modifies this
      ensures Valid()
      ensures r == MarketGate(old(tables.apiData), addressId, address, now, currentYear, p)
      ensures calls == GateCalls(old(tables.apiData), addressId, address, now, currentYear, p)
      ensures r.Err? ==> tables == old(tables) && nextRepairId == old(nextRepairId) && nextHoldingId == old(nextHoldingId)
      ensures r.Ok? ==>
        && nextRepairId == old(nextRepairId) + |UserDefaults(old(tables.defaultRepairs), userId)|
        && nextHoldingId == old(nextHoldingId) + |UserDefaults(old(tables.defaultHoldings), userId)|
        && tables == Opened(old(tables), GateRows(old(tables.apiData), addressId, now, r.value.1),
                            NewRow(userId, r.value), old(nextRepairId), old(nextHoldingId))
    {
      var before, firstRepairId, firstHoldingId := tables, nextRepairId, nextHoldingId;
      var market;
      market, calls := AcquireMarketData(addressId, address, now, currentYear, p);
      r := market;
      if market.Err? {
        return;
      }
      var propertyId := |tables.properties|;
      var rows := GateRows(before.apiData, addressId, now, market.value.1);
      var repairs, holdings := UserDefaults(before.defaultRepairs, userId), UserDefaults(before.defaultHoldings, userId);
      tables := tables.(properties := tables.properties + [NewRow(userId, market.value)]);
      CopyDefaultHoldings(propertyId, holdings);
      CopyDefaultRepairs(propertyId, repairs);
      assert tables == Opened(before, rows, NewRow(userId, market.value), firstRepairId, firstHoldingId);
      OpenedFacts(before, rows, NewRow(userId, market.value), firstRepairId, firstHoldingId);
      assert nextRepairId == firstRepairId + |repairs| && nextHoldingId == firstHoldingId + |holdings|;
      assert WellFormed(tables, nextRepairId, nextHoldingId);
    }

    /**
     * The second half of POST / (lines 335-519) for a property whose two
     * calculation gates miss: the user's default holding period, the default
     * calculation, the mortgage calculation, and the seven derived columns.
     * A failure changes nothing.
     */
    method FinishProperty(propertyId: nat, userId: int, purchasePrice: real, afterRepairValue: real,
                          totalRepairs: real, monthlyHoldingCost: Num, now: int, p: Providers)
      returns (r: Result<MortgageCalculation, Failure>, calls: seq<ProviderCall>)
      requires Valid() && propertyId < |tables.properties|
      requires Lookup(tables.defaultCalcs, propertyId, now).None? && Lookup(tables.mortgageCalcs, propertyId, now).None?
      modifies this
      ensures Valid()
      ensures nextRepairId == old(nextRepairId) && nextHoldingId == old(nextHoldingId)
      ensures Finished(r, calls, tables)
        == Finish(old(tables), propertyId, userId, purchasePrice, afterRepairValue, totalRepairs, monthlyHoldingCost, now, p)
    {
      if userId !in tables.holdingPeriodDefaults {
        r, calls := Err(MissingRow), [];
        return;
      }
      var holdingPeriod := tables.holdingPeriodDefaults[userId];
      var terms;
      terms, calls := SettleLoanTerms(propertyId, purchasePrice, now, p);
      if terms.Err? {
        r := Err(terms.error);
        return;
      }
      var dc := tables.defaultCalcs[|tables.defaultCalcs| - 1];
      var row := SettleMortgage(propertyId, terms.value, now);
      var mc := tables.mortgageCalcs[|tables.mortgageCalcs| - 1];
      CalcsAppendWellFormed(old(tables), nextRepairId, nextHoldingId, dc, mc);
      var derived := Recompute(totalRepairs, monthlyHoldingCost, row, holdingPeriod, afterRepairValue, true);
      RowUpdateWellFormed(tables, nextRepairId, nextHoldingId, propertyId, tables.properties[propertyId].(derived := Some(derived)));
      tables := tables.(properties := tables.properties[propertyId := tables.properties[propertyId].(derived := Some(derived))]);
      r := Ok(row);
    }

    /**
     * POST / (lines 89-531). The stages run in the source's order: market
     * data, the property insert, the default holdings and their sum plus a
     * month of taxes, the default repairs and their sum, the user's default
     * holding period, the default calculation, the mortgage calculation, and
     * last the seven derived columns, with the monthly holding cost stored
     * including the interest (line 518). Any failure rolls every table back.
     */
    method AddProperty(userId: int, addressId: string, address: string, now: int, currentYear: int, p: Providers)
      returns (r: Result<MortgageCalculation, Failure>, calls: seq<ProviderCall>)
      requires Valid()
      modifies this
      ensures Valid()
      ensures Posted(r, calls, tables, nextRepairId, nextHoldingId)
        == PostProperty(old(tables), old(nextRepairId), old(nextHoldingId), userId, addressId, address, now, currentYear, p)
    {
      var snapshot := tables;
      var firstRepairId, firstHoldingId := nextRepairId, nextHoldingId;
      NewPropertyGatesMiss(tables, nextRepairId, nextHoldingId, now);
      var gate;
      gate, calls := OpenProperty(userId, addressId, address, now, currentYear, p);
      if gate.Err? {
        r := Err(gate.error);
        return;
      }
      var m := gate.value.1;
      var propertyId := |snapshot.properties|;
      var monthlyHoldingCost := Sum(Finite(CostOf(tables.holdingItems, propertyId)), Quotient(AsNumber(m.taxes), Finite(12.0)));
      var totalRepairs := CostOf(tables.repairItems, propertyId);
      var finishCalls;
      r, finishCalls := FinishProperty(propertyId, userId, m.data.purchasePrice, m.data.afterRepairValue,
                                       totalRepairs, monthlyHoldingCost, now, p);
      calls := calls + finishCalls;
      if r.Err? {
        CountersAdvanceWellFormed(snapshot, firstRepairId, firstHoldingId, nextRepairId, nextHoldingId);
        tables := snapshot;
      }
    }

    // ===================== the other routes that write =====================

    /**
     * POST /repairItem (lines 1333-1427): insert the item, add its cost to
     * the stored total (line 1367) and rewrite the derived columns. A
     * missing property (the insert's foreign key) or mortgage row rolls the
     * insert back; the id it drew stays used.
     */
    method AddRepairItem(propertyId: nat, name: string, cost: real) returns (r: Result<PropertyRow, Failure>)
      requires Valid()
      modifies this
      ensures Valid()
      ensures nextRepairId == old(nextRepairId) + 1 && nextHoldingId == old(nextHoldingId)
      ensures r == RepairAdded(old(tables), Item(old(nextRepairId), propertyId, name, cost)).result
      ensures tables == RepairAdded(old(tables), Item(old(nextRepairId), propertyId, name, cost)).tables
    {
      var snapshot := tables;
      var item := Item(nextRepairId, propertyId, name, cost);
      RepairAddedRewrites(snapshot, item);
      RepairAddedWellFormed(snapshot, nextRepairId, nextHoldingId, item);
      nextRepairId := nextRepairId + 1;
      if propertyId >= |tables.properties| {
        r := Err(MissingRow);
        return;
      }
      tables := tables.(repairItems := tables.repairItems + [item]);
      var row := tables.properties[propertyId];
      r := Rederived(tables.mortgageCalcs, propertyId, row, StoredRepairTotal(row) + cost, StoredMonthlyHolding(row));
      ghost var e := Rewritten(snapshot, propertyId, row, StoredRepairTotal(row) + cost, StoredMonthlyHolding(row),
                               snapshot.repairItems + [item], snapshot.holdingItems);
      assert r == e.result;
      if r.Err? {
        tables := snapshot;
        return;
      }
      tables := tables.(properties := tables.properties[propertyId := r.value]);
      assert tables == e.tables;
    }

    /**
     * DELETE /repairItem/:id (lines 1228-1326): read the item (none is an
     * error), delete it, take its cost off the stored total (line 1267) and
     * rewrite the derived columns; a missing mortgage row rolls back.
     */
    method DeleteRepairItem(itemId: nat) returns (r: Result<PropertyRow, Failure>)
      requires Valid()
      modifies this
      ensures Valid()
      ensures nextRepairId == old(nextRepairId) && nextHoldingId == old(nextHoldingId)
      ensures r == RepairDeleted(old(tables), itemId).result
      ensures tables == RepairDeleted(old(tables), itemId).tables
    {
      var snapshot := tables;
      RepairDeletedWellFormed(snapshot, nextRepairId, nextHoldingId, itemId);
      var found := FindItem(tables.repairItems, itemId);
      if found.None? {
        r := Err(MissingRow);
        return;
      }
      var item := tables.repairItems[found.value];
      var propertyId := item.propertyId;
      tables := tables.(repairItems := WithoutItem(tables.repairItems, itemId));
      var row := tables.properties[propertyId];
      r := Rederived(tables.mortgageCalcs, propertyId, row, StoredRepairTotal(row) - item.cost, StoredMonthlyHolding(row));
      RepairDeletedFound(snapshot, itemId, found.value);
      ghost var e := Rewritten(snapshot, propertyId, row, StoredRepairTotal(row) - item.cost, StoredMonthlyHolding(row),
                               WithoutItem(snapshot.repairItems, itemId), snapshot.holdingItems);
      assert r == e.result;
      if r.Err? {
        tables := snapshot;
        return;
      }
      tables := tables.(properties := tables.properties[propertyId := r.value]);
      assert tables == e.tables;
    }

    method AddHoldingItem(propertyId: nat, name: string, cost: real) returns (r: Result<PropertyRow, Failure>)
      requires Valid()
      modifies this
      ensures Valid()
      ensures nextHoldingId == old(nextHoldingId) + 1 && nextRepairId == old(nextRepairId)
      ensures r == HoldingAdded(old(tables), Item(old(nextHoldingId), propertyId, name, cost)).result
      ensures tables == HoldingAdded(old(tables), Item(old(nextHoldingId), propertyId, name, cost)).tables
    {
      var snapshot := tables;
      var item := Item(nextHoldingId, propertyId, name, cost);
      HoldingAddedRewrites(snapshot, item);
      HoldingAddedWellFormed(snapshot, nextRepairId, nextHoldingId, item);
      nextHoldingId := nextHoldingId + 1;
      if propertyId >= |tables.properties| {
        r := Err(MissingRow);
        return;
      }
      tables := tables.(holdingItems := tables.holdingItems + [item]);
      var row := tables.properties[propertyId];
      r := Rederived(tables.mortgageCalcs, propertyId, row, StoredRepairTotal(row), Sum(StoredMonthlyHolding(row), Finite(cost)));
      ghost var e := Rewritten(snapshot, propertyId, row, StoredRepairTotal(row), Sum(StoredMonthlyHolding(row), Finite(cost)),
                               snapshot.repairItems, snapshot.holdingItems + [item]);
      assert r == e.result;
      if r.Err? {
        tables := snapshot;
        return;
      }
      tables := tables.(properties := tables.properties[propertyId := r.value]);
      assert tables == e.tables;
    }

    /**
     * DELETE /holdingItem/:id (lines 1434-1532): read the item, delete it,
     * take its cost off the stored monthly holding cost (line 1475) and
     * rewrite the derived columns. The DELETE at line 1455 is not awaited;
     * the client runs a connection's queries in the order they were issued,
     * so it takes effect before the reads that follow.
     */
    method DeleteHoldingItem(itemId: nat) returns (r: Result<PropertyRow, Failure>)
      requires Valid()
      modifies this
      ensures Valid()
      ensures nextRepairId == old(nextRepairId) && nextHoldingId == old(nextHoldingId)
      ensures r == HoldingDeleted(old(tables), itemId).result
      ensures tables == HoldingDeleted(old(tables), itemId).tables
    {
      var snapshot := tables;
      HoldingDeletedWellFormed(snapshot, nextRepairId, nextHoldingId, itemId);
      var found := FindItem(tables.holdingItems, itemId);
      if found.None? {
        r := Err(MissingRow);
        return;
      }
      var item := tables.holdingItems[found.value];
      var propertyId := item.propertyId;
      tables := tables.(holdingItems := WithoutItem(tables.holdingItems, itemId));
      var row := tables.properties[propertyId];
      r := Rederived(tables.mortgageCalcs, propertyId, row, StoredRepairTotal(row), Sum(StoredMonthlyHolding(row), Finite(-item.cost)));
      ghost var e := Rewritten(snapshot, propertyId, row, StoredRepairTotal(row), Sum(StoredMonthlyHolding(row), Finite(-item.cost)),
                               snapshot.repairItems, WithoutItem(snapshot.holdingItems, itemId));
      HoldingDeletedFound(snapshot, itemId, found.value);
      assert r == e.result;
      if r.Err? {
        tables := snapshot;
        return;
      }
      tables := tables.(properties := tables.properties[propertyId := r.value]);
      assert tables == e.tables;
    }

    /**
     * PUT / (lines 561-650): store the user's holding period, purchase
     * price and after-repair value, then rewrite the derived columns from
     * the stored totals. The down payment and closing costs still come from
     * the mortgage row, computed from the old price.
     */
    method UpdateProperty(propertyId: nat, holdingPeriod: real, purchasePrice: real, afterRepairValue: real)
      returns (r: Result<PropertyRow, Failure>)
      requires Valid()
      modifies this
      ensures Valid()
      ensures nextRepairId == old(nextRepairId) && nextHoldingId == old(nextHoldingId)
      ensures r == PropertyUpdated(old(tables), propertyId, holdingPeriod, purchasePrice, afterRepairValue).result
      ensures tables == PropertyUpdated(old(tables), propertyId, holdingPeriod, purchasePrice, afterRepairValue).tables
    {
      PropertyUpdatedRewrites(tables, propertyId, holdingPeriod, purchasePrice, afterRepairValue);
      PropertyUpdatedWellFormed(tables, nextRepairId, nextHoldingId, propertyId, holdingPeriod, purchasePrice, afterRepairValue);
      if propertyId >= |tables.properties| {
        r := Err(MissingRow);
        return;
      }
      var row := tables.properties[propertyId];
      var edited := row.(holdingPeriod := Some(holdingPeriod), purchasePrice := purchasePrice, afterRepairValue := afterRepairValue);
      r := Rederived(tables.mortgageCalcs, propertyId, edited, StoredRepairTotal(row), StoredMonthlyHolding(row));
      ghost var e := Rewritten(tables, propertyId, edited, StoredRepairTotal(row), StoredMonthlyHolding(row),
                               tables.repairItems, tables.holdingItems);
      assert r == e.result;
      if r.Err? {
        return;
      }
      tables := tables.(properties := tables.properties[propertyId := r.value]);
      assert tables == e.tables;
    }

    /**
     * PUT /taxes (lines 1038-1141): set the yearly taxes to 0, take a month
     * of the old taxes (NULL reads as 0) off the stored monthly holding cost
     * (line 1082) and rewrite the derived columns.
     */
    method ResetTaxes(propertyId: nat) returns (r: Result<PropertyRow, Failure>)
      requires Valid()
      modifies this
      ensures Valid()
      ensures nextRepairId == old(nextRepairId) && nextHoldingId == old(nextHoldingId)
      ensures r == TaxesReset(old(tables), propertyId).result
      ensures tables == TaxesReset(old(tables), propertyId).tables
    {
      TaxesResetRewrites(tables, propertyId);
      TaxesResetWellFormed(tables, nextRepairId, nextHoldingId, propertyId);
      if propertyId >= |tables.properties| {
        r := Err(MissingRow);
        return;
      }
      var row := tables.properties[propertyId];
      var monthlyTaxes := MonthlyTaxes(row.taxesYearly);
      r := Rederived(tables.mortgageCalcs, propertyId, row.(taxesYearly := Some(0.0)), StoredRepairTotal(row),
                     Sum(StoredMonthlyHolding(row), Finite(-monthlyTaxes)));
      ghost var e := Rewritten(tables, propertyId, row.(taxesYearly := Some(0.0)), StoredRepairTotal(row),
                               Sum(StoredMonthlyHolding(row), Finite(-monthlyTaxes)), tables.repairItems, tables.holdingItems);
      assert r == e.result;
      if r.Err? {
        return;
      }
      tables := tables.(properties := tables.properties[propertyId := r.value]);
      assert tables == e.tables;
    }

    /**
     * PUT /backToDefault/:id (lines 734-1030), step by step; the writes
     * are not rolled back, because they go through the pool (see RestoredDefaults).
     */
    method RestoreDefaults(propertyId: nat, userId: int, now: int, currentYear: int, p: Providers)
      returns (failure: Failure, calls: seq<ProviderCall>)
      requires Valid()
      modifies this
      ensures Valid()
      ensures failure == RestoredDefaults(old(tables), old(nextRepairId), old(nextHoldingId), propertyId, userId, now, currentYear, p).failure
      ensures calls == RestoredDefaults(old(tables), old(nextRepairId), old(nextHoldingId), propertyId, userId, now, currentYear, p).calls
      ensures tables == RestoredDefaults(old(tables), old(nextRepairId), old(nextHoldingId), propertyId, userId, now, currentYear, p).tables
      ensures nextRepairId == RestoredDefaults(old(tables), old(nextRepairId), old(nextHoldingId), propertyId, userId, now, currentYear, p).nextRepairId
      ensures nextHoldingId == RestoredDefaults(old(tables), old(nextRepairId), old(nextHoldingId), propertyId, userId, now, currentYear, p).nextHoldingId
    {
      RestoredDefaultsWellFormed(tables, nextRepairId, nextHoldingId, propertyId, userId, now, currentYear, p);
      tables := tables.(holdingItems := WithoutProperty(tables.holdingItems, propertyId));
      tables := tables.(repairItems := WithoutProperty(tables.repairItems, propertyId));
      calls := [];
      if propertyId >= |tables.properties| {
        failure := MissingRow;
        return;
      }
      var apiId := tables.properties[propertyId].apiDataId;
      if !(apiId < |tables.apiData| && IsFresh(tables.apiData[apiId].insertedAt, now)) {
        var f := FetchMarketData(UnsetAddress, currentYear, false, p);
        calls := f.calls;
        if f.result.Err? {
          failure := f.result.error;
          return;
        }
        tables := tables.(apiData := tables.apiData + [Stamped(None, now, f.result.value.data)]);
      }
      CopyDefaultHoldings(propertyId, UserDefaults(tables.defaultHoldings, userId));
      CopyDefaultRepairs(propertyId, UserDefaults(tables.defaultRepairs, userId));
      if userId !in tables.holdingPeriodDefaults || FirstFor(tables.mortgageCalcs, propertyId).None? {
        failure := MissingRow;
      } else {
        failure := UndeclaredVariable;
      }
    }
  }
}
