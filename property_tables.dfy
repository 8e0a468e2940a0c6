/**
 * The tables the routes of server/routes/properties.router.js read and
 * write, as values, and the pure steps the routes share: reading a column
 * with Number() (null is 0), summing item costs as SUM("cost") does, and the
 * recompute of the seven derived columns through the formula library
 * (lines 1290-1315 and their copies at 491-519, 600-633, 1100-1131,
 * 1297-1326, 1395-1426, 1496-1526, 1594-1625).
 */
module PropertyTables {
  import opened Wrappers
  import opened JsNumber
  import opened Freshness
  import opened ProviderData
  import opened Formulas
  import opened Mortgage

  /** The seven derived columns of a properties row. */
  datatype Derived = Derived(
    totalRepairCost: real,
    totalUpfrontCost: real,
    monthlyHoldingCost: Num,
    totalHoldingCost: Num,
    totalCost: Num,
    profit: Num,
    monthlyProfit: Num)

  /** A properties row; None is a NULL column (derived columns are NULL until POST / sets them). */
  datatype PropertyRow = PropertyRow(
    userId: int,
    apiDataId: nat,
    address: string,
    purchasePrice: real,
    taxesYearly: Option<real>,
    afterRepairValue: real,
    holdingPeriod: Option<real>,
    derived: Option<Derived>)

  /** A repair_items or holding_items row. */
  datatype Item = Item(id: nat, propertyId: nat, name: string, cost: real)

  /** A default_repairs or default_holdings row of a user. */
  datatype DefaultItem = DefaultItem(userId: int, name: string, cost: real)

  /**
   * The database. A row's id is its position, except for item rows, whose
   * ids come from their own sequences because items are deleted.
   * holdingPeriodDefaults is user.holding_period_default by user id.
   */
  datatype Tables = Tables(
    apiData: seq<Stamped<Option<string>, MarketData>>,
    properties: seq<PropertyRow>,
    repairItems: seq<Item>,
    holdingItems: seq<Item>,
    defaultCalcs: seq<Stamped<nat, DefaultCalculation>>,
    mortgageCalcs: seq<Stamped<nat, MortgageCalculation>>,
    defaultRepairs: seq<DefaultItem>,
    defaultHoldings: seq<DefaultItem>,
    holdingPeriodDefaults: map<int, real>)

  // ----- reading columns -----

  /** Number(column): NULL reads as 0. */
  function ColumnNumber(v: Option<real>): real {
    if v.Some? then v.value else 0.0
  }

  function StoredRepairTotal(row: PropertyRow): real {
    if row.derived.Some? then row.derived.value.totalRepairCost else 0.0
  }

  function StoredMonthlyHolding(row: PropertyRow): Num {
    if row.derived.Some? then row.derived.value.monthlyHoldingCost else Finite(0.0)
  }

  // ----- the derived columns -----

  /**
   * The relations the formula library builds into the derived columns:
   * total cost is upfront plus holding cost, profit is the after-repair value
   * minus total cost, and monthly profit spreads profit over the period.
   */
  predicate Coherent(d: Derived, holdingPeriod: real, afterRepairValue: real) {
    && (d.totalCost.Finite? <==> d.totalHoldingCost.Finite?)
    && (d.totalCost.Finite? ==> d.totalCost.value == d.totalUpfrontCost + d.totalHoldingCost.value)
    && (d.profit.Finite? <==> d.totalCost.Finite?)
    && (d.profit.Finite? ==> d.profit.value == afterRepairValue - d.totalCost.value)
    && (d.monthlyProfit.Finite? <==> d.profit.Finite? && holdingPeriod != 0.0)
    && (d.monthlyProfit.Finite? ==> d.monthlyProfit.value * holdingPeriod == d.profit.value)
  }

  /** totalMonthlyHoldingCost: the monthly interest read back from its text, plus the holding cost. */
  function TotalMonthly(m: MortgageCalculation, monthlyHoldingCost: Num): Num {
    match monthlyHoldingCost
    case Finite(h) => Finite(InterestPaymentRead(m) + h)
    case NonFinite => NonFinite
  }

  /**
   * The seven columns a route writes. POST / stores the total monthly
   * holding cost including interest (storesTotal); every other route stores
   * the monthly holding cost it computed, before interest.
   */
  function Recompute(totalRepairs: real, monthlyHoldingCost: Num, m: MortgageCalculation,
                     holdingPeriod: real, afterRepairValue: real, storesTotal: bool): (d: Derived)
    ensures d.totalRepairCost == totalRepairs
    ensures d.totalUpfrontCost == totalRepairs + DownPaymentRead(m) + ClosingCostsRead(m)
    ensures d.monthlyHoldingCost == if storesTotal then TotalMonthly(m, monthlyHoldingCost) else monthlyHoldingCost
    ensures d.totalHoldingCost.Finite? <==> monthlyHoldingCost.Finite?
    ensures d.totalHoldingCost.Finite? ==>
      d.totalHoldingCost.value == (InterestPaymentRead(m) + monthlyHoldingCost.value) * holdingPeriod
    ensures Coherent(d, holdingPeriod, afterRepairValue)
  {
    var upfront := totalRepairs + DownPaymentRead(m) + ClosingCostsRead(m);
    var totalMonthly := TotalMonthly(m, monthlyHoldingCost);
    var stored := if storesTotal then totalMonthly else monthlyHoldingCost;
    match totalMonthly
    case Finite(t) =>
      var holding := t * holdingPeriod;
      var profit := afterRepairValue - (upfront + holding);
      Derived(totalRepairs, upfront, stored, Finite(holding), Finite(upfront + holding), Finite(profit),
              if holdingPeriod != 0.0 then Finite(profit / holdingPeriod) else NonFinite)
    case NonFinite =>
      Derived(totalRepairs, upfront, stored, NonFinite, NonFinite, NonFinite, NonFinite)
  }

  /**
   * The columns are the formula library's results (lines 1673-1705) for the
   * mortgage row's rounded down payment and closing costs and the monthly
   * total with interest: composed strictly, and all NaN when the monthly
   * total is.
   */
  lemma RecomputeFollowsFormulas(totalRepairs: real, monthlyHoldingCost: Num, m: MortgageCalculation,
                                 holdingPeriod: real, afterRepairValue: real, storesTotal: bool)
    ensures var d := Recompute(totalRepairs, monthlyHoldingCost, m, holdingPeriod, afterRepairValue, storesTotal);
      var dp := DownPaymentRead(m);
      var cc := ClosingCostsRead(m);
      var total := TotalMonthly(m, monthlyHoldingCost);
      && d.totalUpfrontCost == UpfrontCost(totalRepairs, dp, cc)
      && (total.Finite? ==>
            && d.totalHoldingCost == Finite(TotalHoldingCost(holdingPeriod, total.value))
            && d.totalCost == Finite(TotalCost(totalRepairs, dp, cc, holdingPeriod, total.value))
            && d.profit == Finite(Profit(afterRepairValue, totalRepairs, dp, cc, holdingPeriod, total.value))
            && d.monthlyProfit == MonthlyProfit(afterRepairValue, totalRepairs, dp, cc, holdingPeriod, total.value))
      && (total.NonFinite? ==>
            d.totalHoldingCost.NonFinite? && d.totalCost.NonFinite? && d.profit.NonFinite? && d.monthlyProfit.NonFinite?)
  {
  }

  /** The row after a recompute: holding period and after-repair value come from the row itself. */
  function Refreshed(row: PropertyRow, totalRepairs: real, monthlyHoldingCost: Num, m: MortgageCalculation): PropertyRow {
    row.(derived := Some(Recompute(totalRepairs, monthlyHoldingCost, m,
                                   ColumnNumber(row.holdingPeriod), row.afterRepairValue, false)))
  }

  /**
   * A repair-cost change of c moves upfront and total cost up by c and
   * profit down by c, and leaves the holding columns alone.
   */
  lemma RepairEditShifts(totalRepairs: real, c: real, monthlyHoldingCost: Num, m: MortgageCalculation,
                         hp: real, arv: real, storesTotal: bool)
    ensures var before := Recompute(totalRepairs, monthlyHoldingCost, m, hp, arv, storesTotal);
      var after := Recompute(totalRepairs + c, monthlyHoldingCost, m, hp, arv, storesTotal);
      && after.totalRepairCost == before.totalRepairCost + c
      && after.totalUpfrontCost == before.totalUpfrontCost + c
      && after.monthlyHoldingCost == before.monthlyHoldingCost
      && after.totalHoldingCost == before.totalHoldingCost
      && (after.totalCost.Finite? <==> before.totalCost.Finite?)
      && (after.totalCost.Finite? ==> after.totalCost.value == before.totalCost.value + c)
      && (after.profit.Finite? ==> after.profit.value == before.profit.value - c)
      && (after.monthlyProfit.Finite? ==> after.monthlyProfit.value == before.monthlyProfit.value - c / hp)
  {
    var totalMonthly := TotalMonthly(m, monthlyHoldingCost);
    if totalMonthly.Finite? {
      RepairChangePropagates(arv, totalRepairs, c, DownPaymentRead(m), ClosingCostsRead(m), hp, totalMonthly.value);
    }
  }

  /**
   * A monthly holding-cost change of c moves holding and total cost up by
   * c per month held and profit down by as much; the repair columns stay.
   */
  lemma HoldingEditShifts(totalRepairs: real, monthly: real, c: real, m: MortgageCalculation, hp: real, arv: real)
    ensures var before := Recompute(totalRepairs, Finite(monthly), m, hp, arv, false);
      var after := Recompute(totalRepairs, Finite(monthly + c), m, hp, arv, false);
      && after.totalRepairCost == before.totalRepairCost
      && after.totalUpfrontCost == before.totalUpfrontCost
      && after.monthlyHoldingCost == Finite(before.monthlyHoldingCost.value + c)
      && after.totalHoldingCost.value == before.totalHoldingCost.value + c * hp
      && after.totalCost.value == before.totalCost.value + c * hp
      && after.profit.value == before.profit.value - c * hp
  {
    var pay := InterestPaymentRead(m);
    assert (pay + (monthly + c)) * hp == (pay + monthly) * hp + c * hp;
  }

  /**
   * POST / stores the monthly holding cost with the interest already in it,
   * and the next recompute adds the interest again: the holding cost then
   * counts the monthly interest twice.
   */
  lemma InterestCountedTwice(totalRepairs: real, monthly: real, m: MortgageCalculation, hp: real, arv: real)
    ensures var posted := Recompute(totalRepairs, Finite(monthly), m, hp, arv, true);
      var next := Recompute(totalRepairs, posted.monthlyHoldingCost, m, hp, arv, false);
      && posted.totalHoldingCost == Finite((InterestPaymentRead(m) + monthly) * hp)
      && next.totalHoldingCost == Finite((2.0 * InterestPaymentRead(m) + monthly) * hp)
  {
    var pay := InterestPaymentRead(m);
    var posted := Recompute(totalRepairs, Finite(monthly), m, hp, arv, true);
    assert posted.monthlyHoldingCost == Finite(pay + monthly);
    var next := Recompute(totalRepairs, Finite(pay + monthly), m, hp, arv, false);
    assert next.totalHoldingCost.value == (pay + (pay + monthly)) * hp;
    assert pay + (pay + monthly) == 2.0 * pay + monthly;
  }

  /** Recomputing from the columns a non-POST recompute stored gives the same columns back. */
  lemma {:induction false} RecomputeIsStable(totalRepairs: real, monthlyHoldingCost: Num, m: MortgageCalculation, hp: real, arv: real)
    ensures var d := Recompute(totalRepairs, monthlyHoldingCost, m, hp, arv, false);
      Recompute(d.totalRepairCost, d.monthlyHoldingCost, m, hp, arv, false) == d
  {
    var d := Recompute(totalRepairs, monthlyHoldingCost, m, hp, arv, false);
    assert d.totalRepairCost == totalRepairs && d.monthlyHoldingCost == monthlyHoldingCost;
  }

  // ----- item rows -----

  /** Number(SUM("cost") ... WHERE "property_id" = id): the sum of the property's item costs, 0 when none. */
  function CostOf(items: seq<Item>, propertyId: nat): real {
    if |items| == 0 then 0.0
    else CostOf(items[..|items| - 1], propertyId)
         + (if items[|items| - 1].propertyId == propertyId then items[|items| - 1].cost else 0.0)
  }

  /** The sum of a list of default item costs. */
  function DefaultTotal(defaults: seq<DefaultItem>): real {
    if |defaults| == 0 then 0.0 else DefaultTotal(defaults[..|defaults| - 1]) + defaults[|defaults| - 1].cost
  }

  /** SELECT * FROM default_... WHERE "user_id" = $1, in table order. */
  function UserDefaults(defaults: seq<DefaultItem>, userId: int): (r: seq<DefaultItem>)
    ensures forall k :: 0 <= k < |r| ==> r[k] in defaults && r[k].userId == userId
    ensures forall k :: 0 <= k < |defaults| && defaults[k].userId == userId ==> defaults[k] in r
  {
    if |defaults| == 0 then []
    else
      var front := UserDefaults(defaults[..|defaults| - 1], userId);
      if defaults[|defaults| - 1].userId == userId then front + [defaults[|defaults| - 1]] else front
  }

  /** The user's defaults come back as often as the table holds them, and no other user's do. */
  lemma {:induction false} UserDefaultsCounts(defaults: seq<DefaultItem>, userId: int)
    ensures forall d :: multiset(UserDefaults(defaults, userId))[d] == if d.userId == userId then multiset(defaults)[d] else 0
    decreases |defaults|
  {
    if |defaults| > 0 {
      var front := defaults[..|defaults| - 1];
      UserDefaultsCounts(front, userId);
      assert defaults == front + [defaults[|defaults| - 1]];
    }
  }

  /** The item rows the for...of loop inserts for a property, ids drawn from firstId on. */
  function AsItems(defaults: seq<DefaultItem>, propertyId: nat, firstId: nat): (r: seq<Item>)
    ensures |r| == |defaults|
    ensures forall k :: 0 <= k < |r| ==>
      r[k] == Item(firstId + k, propertyId, defaults[k].name, defaults[k].cost)
  {
    seq(|defaults|, k requires 0 <= k < |defaults| => Item(firstId + k, propertyId, defaults[k].name, defaults[k].cost))
  }

  /** rows[0] of SELECT ... WHERE "id" = $1: the first item with the id. */
  function FindItem(items: seq<Item>, id: nat): (r: Option<nat>)
    ensures r.None? <==> forall i :: 0 <= i < |items| ==> items[i].id != id
    ensures r.Some? ==>
      && r.value < |items| && items[r.value].id == id
      && forall i :: 0 <= i < r.value ==> items[i].id != id
  {
    if |items| == 0 then None
    else if items[0].id == id then Some(0)
    else
      match FindItem(items[1..], id)
      case None => None
      case Some(k) => Some(k + 1)
  }

  /** DELETE ... WHERE "id" = $1. */
  function WithoutItem(items: seq<Item>, id: nat): (r: seq<Item>)
    ensures forall i :: 0 <= i < |r| ==> r[i] in items && r[i].id != id
  {
    if |items| == 0 then []
    else WithoutItem(items[..|items| - 1], id) + (if items[|items| - 1].id == id then [] else [items[|items| - 1]])
  }

  /** DELETE ... WHERE "property_id" = $1. */
  function WithoutProperty(items: seq<Item>, propertyId: nat): (r: seq<Item>)
    ensures forall i :: 0 <= i < |r| ==> r[i] in items && r[i].propertyId != propertyId
  {
    if |items| == 0 then []
    else WithoutProperty(items[..|items| - 1], propertyId)
         + (if items[|items| - 1].propertyId == propertyId then [] else [items[|items| - 1]])
  }

  /** The DELETE by id removes every row with the id and keeps every other row as often as it was there. */
  lemma {:induction false} WithoutItemCounts(items: seq<Item>, id: nat)
    ensures forall x :: multiset(WithoutItem(items, id))[x] == if x.id == id then 0 else multiset(items)[x]
    decreases |items|
  {
    if |items| > 0 {
      var front := items[..|items| - 1];
      WithoutItemCounts(front, id);
      assert items == front + [items[|items| - 1]];
    }
  }

  /** The DELETE by property removes every row of the property and keeps every other row as often as it was there. */
  lemma {:induction false} WithoutPropertyCounts(items: seq<Item>, propertyId: nat)
    ensures forall x :: multiset(WithoutProperty(items, propertyId))[x]
                        == if x.propertyId == propertyId then 0 else multiset(items)[x]
    decreases |items|
  {
    if |items| > 0 {
      var front := items[..|items| - 1];
      WithoutPropertyCounts(front, propertyId);
      assert items == front + [items[|items| - 1]];
    }
  }

  /** Ids strictly increase along the table, as a serial column's do. */
  predicate IdsIncreasing(items: seq<Item>) {
    forall i, j :: 0 <= i < j < |items| ==> items[i].id < items[j].id
  }

  /** The sum over two runs of rows is the sum of the sums. */
  lemma {:induction false} CostOfAppend(items: seq<Item>, extra: seq<Item>, propertyId: nat)
    ensures CostOf(items + extra, propertyId) == CostOf(items, propertyId) + CostOf(extra, propertyId)
    decreases |extra|
  {
    if |extra| == 0 {
      assert items + extra == items;
    } else {
      var all := items + extra;
      assert all[..|all| - 1] == items + extra[..|extra| - 1];
      CostOfAppend(items, extra[..|extra| - 1], propertyId);
    }
  }

  /** A property none of whose rows are present sums to 0. */
  lemma {:induction false} CostOfAbsent(items: seq<Item>, propertyId: nat)
    requires forall i :: 0 <= i < |items| ==> items[i].propertyId != propertyId
    ensures CostOf(items, propertyId) == 0.0
  {
    if |items| > 0 {
      CostOfAbsent(items[..|items| - 1], propertyId);
    }
  }

  /** The copied defaults sum to the defaults' total for their property and to 0 for any other. */
  lemma {:induction false} CostOfDefaults(defaults: seq<DefaultItem>, propertyId: nat, firstId: nat, other: nat)
    requires other != propertyId
    ensures CostOf(AsItems(defaults, propertyId, firstId), propertyId) == DefaultTotal(defaults)
    ensures CostOf(AsItems(defaults, propertyId, firstId), other) == 0.0
  {
    if |defaults| > 0 {
      var front := defaults[..|defaults| - 1];
      var items := AsItems(defaults, propertyId, firstId);
      assert items[..|items| - 1] == AsItems(front, propertyId, firstId);
      CostOfDefaults(front, propertyId, firstId, other);
    }
  }

  /** Deleting a row whose id occurs once removes exactly its cost from its property's sum. */
  lemma {:induction false} CostWithoutItem(items: seq<Item>, k: nat, propertyId: nat)
    requires k < |items| && IdsIncreasing(items)
    ensures CostOf(WithoutItem(items, items[k].id), propertyId)
      == CostOf(items, propertyId) - (if items[k].propertyId == propertyId then items[k].cost else 0.0)
    decreases |items|
  {
    var front := items[..|items| - 1];
    var last := items[|items| - 1];
    var id := items[k].id;
    var contribution := if last.propertyId == propertyId then last.cost else 0.0;
    assert CostOf(items, propertyId) == CostOf(front, propertyId) + contribution;
    if k == |items| - 1 {
      assert forall i :: 0 <= i < |front| ==> front[i].id < id;
      WithoutAbsentId(front, id);
      assert WithoutItem(items, id) == front;
    } else {
      assert last.id != id;
      assert front[k] == items[k];
      assert IdsIncreasing(front);
      var rest := WithoutItem(front, id);
      CostWithoutItem(front, k, propertyId);
      var r := rest + [last];
      assert WithoutItem(items, id) == r;
      assert r[..|r| - 1] == rest;
      assert CostOf(r, propertyId) == CostOf(rest, propertyId) + contribution;
    }
  }

  lemma {:induction false} WithoutAbsentId(items: seq<Item>, id: nat)
    requires forall i :: 0 <= i < |items| ==> items[i].id < id
    ensures WithoutItem(items, id) == items
  {
    if |items| > 0 {
      var front := items[..|items| - 1];
      WithoutAbsentId(front, id);
      assert items[|items| - 1].id != id;
      assert WithoutItem(items, id) == front + [items[|items| - 1]];
      assert front + [items[|items| - 1]] == items;
    }
  }

  /** Deleting a property's rows zeroes its sum and keeps every other property's. */
  lemma {:induction false} CostWithoutProperty(items: seq<Item>, propertyId: nat, other: nat)
    requires other != propertyId
    ensures CostOf(WithoutProperty(items, propertyId), propertyId) == 0.0
    ensures CostOf(WithoutProperty(items, propertyId), other) == CostOf(items, other)
  {
    if |items| > 0 {
      var front := items[..|items| - 1];
      var last := items[|items| - 1];
      CostWithoutProperty(front, propertyId, other);
      var rest := WithoutProperty(front, propertyId);
      if last.propertyId != propertyId {
        var r := rest + [last];
        assert r[..|r| - 1] == rest;
      } else {
        assert WithoutProperty(items, propertyId) == rest;
      }
    }
  }

  // ----- mortgage rows -----

  /** rows[0] of SELECT * FROM "mortgage_calculations" WHERE "property_id" = $1. */
  function FirstFor<R>(rows: seq<Stamped<nat, R>>, propertyId: nat): (r: Option<nat>)
    ensures r.None? <==> forall i :: 0 <= i < |rows| ==> rows[i].key != propertyId
    ensures r.Some? ==> r.value < |rows| && rows[r.value].key == propertyId
    ensures r.Some? ==> forall i :: 0 <= i < r.value ==> rows[i].key != propertyId
  {
    if |rows| == 0 then None
    else if rows[0].key == propertyId then Some(0)
    else
      match FirstFor(rows[1..], propertyId)
      case None => None
      case Some(k) => Some(k + 1)
  }

  // ----- invariants of the database -----

  predicate ItemsWellFormed(items: seq<Item>, propertyCount: nat, nextId: nat) {
    && (forall i :: 0 <= i < |items| ==> items[i].propertyId < propertyCount && items[i].id < nextId)
    && IdsIncreasing(items)
  }

  /** Every reference points at an existing row and item ids are below their sequence's next value. */
  predicate WellFormed(t: Tables, nextRepairId: nat, nextHoldingId: nat) {
    && (forall i :: 0 <= i < |t.properties| ==> t.properties[i].apiDataId < |t.apiData|)
    && ItemsWellFormed(t.repairItems, |t.properties|, nextRepairId)
    && ItemsWellFormed(t.holdingItems, |t.properties|, nextHoldingId)
    && (forall i :: 0 <= i < |t.defaultCalcs| ==> t.defaultCalcs[i].key < |t.properties|)
    && (forall i :: 0 <= i < |t.mortgageCalcs| ==> t.mortgageCalcs[i].key < |t.properties|)
  }

  /** Each property's stored total_repair_cost is the sum of its repair items. */
  predicate RepairTotalsAgree(t: Tables) {
    forall pid :: 0 <= pid < |t.properties| ==> StoredRepairTotal(t.properties[pid]) == CostOf(t.repairItems, pid)
  }

  /** The default-calculation and mortgage gates of POST / are keyed by the property just inserted, so they miss. */
  lemma NewPropertyGatesMiss(t: Tables, nextRepairId: nat, nextHoldingId: nat, now: int)
    requires WellFormed(t, nextRepairId, nextHoldingId)
    ensures Lookup(t.defaultCalcs, |t.properties|, now).None?
    ensures Lookup(t.mortgageCalcs, |t.properties|, now).None?
  {
    forall i | 0 <= i < |t.defaultCalcs| ensures !FreshFor(t.defaultCalcs[i], |t.properties|, now) {
      assert t.defaultCalcs[i].key < |t.properties|;
    }
    forall i | 0 <= i < |t.mortgageCalcs| ensures !FreshFor(t.mortgageCalcs[i], |t.properties|, now) {
      assert t.mortgageCalcs[i].key < |t.properties|;
    }
  }

  /** Rewriting one property row keeps the database well formed when the row still points at a market-data row. */
  lemma RowUpdateWellFormed(t: Tables, nextRepairId: nat, nextHoldingId: nat, propertyId: nat, row: PropertyRow)
    requires WellFormed(t, nextRepairId, nextHoldingId)
    requires propertyId < |t.properties| && row.apiDataId < |t.apiData|
    ensures WellFormed(t.(properties := t.properties[propertyId := row]), nextRepairId, nextHoldingId)
  {
  }

  /** Appending calculation rows keyed by an existing property keeps the database well formed. */
  lemma CalcsAppendWellFormed(t: Tables, nextRepairId: nat, nextHoldingId: nat,
                              dc: Stamped<nat, DefaultCalculation>, mc: Stamped<nat, MortgageCalculation>)
    requires WellFormed(t, nextRepairId, nextHoldingId)
    requires dc.key < |t.properties| && mc.key < |t.properties|
    ensures WellFormed(t.(defaultCalcs := t.defaultCalcs + [dc], mortgageCalcs := t.mortgageCalcs + [mc]), nextRepairId, nextHoldingId)
  {
  }

  /** Sequences that have moved on keep every stored id below their next value. */
  lemma CountersAdvanceWellFormed(t: Tables, nextRepairId: nat, nextHoldingId: nat, laterRepairId: nat, laterHoldingId: nat)
    requires WellFormed(t, nextRepairId, nextHoldingId)
    requires nextRepairId <= laterRepairId && nextHoldingId <= laterHoldingId
    ensures WellFormed(t, laterRepairId, laterHoldingId)
  {
  }
}
