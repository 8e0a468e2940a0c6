/**
 * The formula library of server/routes/properties.router.js:1673-1705: five
 * helpers that compose strictly. Amounts are exact reals; the only division,
 * by the holding period, is left unguarded as in the source, so a zero period
 * gives JavaScript's NaN or an infinity.
 */
module Formulas {
  import opened JsNumber

  function UpfrontCost(totalRepairCost: real, downPayment: real, closingCosts: real): real {
    totalRepairCost + downPayment + closingCosts
  }

  function TotalHoldingCost(holdingPeriod: real, totalMonthlyHoldingCost: real): real {
    totalMonthlyHoldingCost * holdingPeriod
  }

  function TotalCost(totalRepairCost: real, downPayment: real, closingCosts: real,
                     holdingPeriod: real, totalMonthlyHoldingCost: real): real
  {
    UpfrontCost(totalRepairCost, downPayment, closingCosts) + TotalHoldingCost(holdingPeriod, totalMonthlyHoldingCost)
  }

  function Profit(afterRepairValue: real, totalRepairCost: real, downPayment: real, closingCosts: real,
                  holdingPeriod: real, totalMonthlyHoldingCost: real): real
  {
    afterRepairValue - TotalCost(totalRepairCost, downPayment, closingCosts, holdingPeriod, totalMonthlyHoldingCost)
  }

  /**
   * Profit per month of the holding period. The source divides without a
   * guard: the result is finite exactly when the period is not zero, and then
   * it spreads the whole profit evenly over the months.
   */
  function MonthlyProfit(afterRepairValue: real, totalRepairCost: real, downPayment: real, closingCosts: real,
                         holdingPeriod: real, totalMonthlyHoldingCost: real): (r: Num)
    ensures r.Finite? <==> holdingPeriod != 0.0
    ensures r.Finite? ==>
      r.value * holdingPeriod == Profit(afterRepairValue, totalRepairCost, downPayment, closingCosts, holdingPeriod, totalMonthlyHoldingCost)
  {
    Quotient(Finite(Profit(afterRepairValue, totalRepairCost, downPayment, closingCosts, holdingPeriod, totalMonthlyHoldingCost)),
             Finite(holdingPeriod))
  }

  /** Total cost is upfront cost plus holding cost, with every term spelled out. */
  lemma TotalCostExpanded(r: real, dp: real, cc: real, hp: real, m: real)
    ensures TotalCost(r, dp, cc, hp, m) == UpfrontCost(r, dp, cc) + TotalHoldingCost(hp, m)
    ensures TotalCost(r, dp, cc, hp, m) == r + dp + cc + m * hp
  {
  }

  /** Profit is what the after-repair value leaves once every cost is paid. */
  lemma ProfitExpanded(arv: real, r: real, dp: real, cc: real, hp: real, m: real)
    ensures Profit(arv, r, dp, cc, hp, m) == arv - r - dp - cc - m * hp
  {
  }

  /** A repair-cost change of c moves upfront and total cost up by c and profit down by c. */
  lemma RepairChangePropagates(arv: real, r: real, c: real, dp: real, cc: real, hp: real, m: real)
    ensures UpfrontCost(r + c, dp, cc) == UpfrontCost(r, dp, cc) + c
    ensures TotalCost(r + c, dp, cc, hp, m) == TotalCost(r, dp, cc, hp, m) + c
    ensures Profit(arv, r + c, dp, cc, hp, m) == Profit(arv, r, dp, cc, hp, m) - c
    ensures hp != 0.0 ==>
      MonthlyProfit(arv, r + c, dp, cc, hp, m).value == MonthlyProfit(arv, r, dp, cc, hp, m).value - c / hp
  {
    if hp != 0.0 {
      var before := MonthlyProfit(arv, r, dp, cc, hp, m).value;
      var after := MonthlyProfit(arv, r + c, dp, cc, hp, m).value;
      assert after * hp == before * hp - c;
      assert (after - (before - c / hp)) * hp == 0.0;
    }
  }

  /** A monthly holding-cost change of c moves total cost by c per month held. */
  lemma HoldingChangePropagates(arv: real, r: real, dp: real, cc: real, hp: real, m: real, c: real)
    ensures TotalHoldingCost(hp, m + c) == TotalHoldingCost(hp, m) + c * hp
    ensures TotalCost(r, dp, cc, hp, m + c) == TotalCost(r, dp, cc, hp, m) + c * hp
    ensures Profit(arv, r, dp, cc, hp, m + c) == Profit(arv, r, dp, cc, hp, m) - c * hp
  {
  }
}
