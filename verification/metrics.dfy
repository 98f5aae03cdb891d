/** The pure calculator `calculateBusinessMetrics` and the accounting
    identities it satisfies over the reals. */
module Metrics {
  import opened Business

  // ---------------------------------------------------------------------
  // Reference definitions: the accounting terms the calculator reports on.

  /** Units sold over the whole period. */
  function UnitsSold(i: BusinessInputs): real {
    i.monthlySales * i.duration
  }

  /** Selling price after the discount. */
  function NetPrice(i: BusinessInputs): real {
    i.sellingPrice * (1.0 - i.discountRate / 100.0)
  }

  /** Per-unit production plus variable cost. */
  function UnitCost(i: BusinessInputs): real {
    i.productCost + i.variableCosts
  }

  /** What one sold unit contributes towards the fixed costs. */
  function ContributionMargin(i: BusinessInputs): real {
    NetPrice(i) - UnitCost(i)
  }

  /** Marketing, staff/rent and other fixed costs for one month. */
  function MonthlyFixedCosts(i: BusinessInputs): real {
    i.marketingCost + i.staffRentCost + i.otherFixedCosts
  }

  /** The base ROI is measured against: fixed costs over the period plus the
      initial investment. */
  function InvestmentBase(i: BusinessInputs): real {
    MonthlyFixedCosts(i) * i.duration + i.initialInvestment
  }

  /** The share of revenue kept after tax; a rate that is not positive means
      no tax at all. */
  function AfterTaxFactor(i: BusinessInputs): real {
    if i.taxRate > 0.0 then 1.0 - i.taxRate / 100.0 else 1.0
  }

  // ---------------------------------------------------------------------
  // The calculator, in the steps the source computes it.

  /** Discounted selling price times units sold, less tax when the tax rate
      is positive. */
  function FinalRevenue(i: BusinessInputs): (r: real)
    ensures r == NetPrice(i) * UnitsSold(i) * AfterTaxFactor(i)
    ensures i.taxRate <= 0.0 ==> r == i.sellingPrice * (1.0 - i.discountRate / 100.0) * i.monthlySales * i.duration
  {
    var totalUnits := i.monthlySales * i.duration;
    var discountedSellingPrice := i.sellingPrice * (1.0 - i.discountRate / 100.0);
    var totalRevenue := discountedSellingPrice * totalUnits;
    var taxAmount := if i.taxRate > 0.0 then totalRevenue * (i.taxRate / 100.0) else 0.0;
    TaxIdentity(totalRevenue, i.taxRate);
    totalRevenue - taxAmount
  }

  /** Marketing, staff/rent and other fixed costs, each over the duration. */
  function TotalFixedCosts(i: BusinessInputs): (r: real)
    ensures r == MonthlyFixedCosts(i) * i.duration
  {
    var totalMarketingCost := i.marketingCost * i.duration;
    var totalStaffRentCost := i.staffRentCost * i.duration;
    var totalOtherFixedCosts := i.otherFixedCosts * i.duration;
    Distribute3(i.marketingCost, i.staffRentCost, i.otherFixedCosts, i.duration);
    totalMarketingCost + totalStaffRentCost + totalOtherFixedCosts
  }

  /** Per-unit costs over all units sold, fixed costs over the duration, and
      the initial investment. */
  function TotalCost(i: BusinessInputs): (r: real)
    ensures r == UnitCost(i) * UnitsSold(i) + MonthlyFixedCosts(i) * i.duration + i.initialInvestment
  {
    var totalUnits := i.monthlySales * i.duration;
    var totalProductCost := i.productCost * totalUnits;
    var totalVariableCost := i.variableCosts * totalUnits;
    Distribute(i.productCost, i.variableCosts, totalUnits);
    totalProductCost + totalVariableCost + TotalFixedCosts(i) + i.initialInvestment
  }

  /** Breakeven units per month and the months of sales they amount to;
      both 0 unless each unit sold contributes something. */
  function Breakeven(i: BusinessInputs): (r: (real, real))
    ensures ContributionMargin(i) <= 0.0 ==> r.0 == 0.0 && r.1 == 0.0
    ensures ContributionMargin(i) > 0.0 ==> r.0 * ContributionMargin(i) == MonthlyFixedCosts(i)
    ensures ContributionMargin(i) > 0.0 && i.monthlySales > 0.0 ==> r.1 * i.monthlySales == r.0
    ensures i.monthlySales <= 0.0 ==> r.1 == 0.0
  {
    var discountedSellingPrice := i.sellingPrice * (1.0 - i.discountRate / 100.0);
    var contributionMarginPerUnit := discountedSellingPrice - i.productCost - i.variableCosts;
    var monthlyFixedCosts := i.marketingCost + i.staffRentCost + i.otherFixedCosts;
    if contributionMarginPerUnit > 0.0 then
      var breakevenUnits := monthlyFixedCosts / contributionMarginPerUnit;
      (breakevenUnits, GuardedQuotient(breakevenUnits, i.monthlySales))
    else
      (0.0, 0.0)
  }

  /** `calculateBusinessMetrics`: the whole result record.  Its contract
      states the profit identity and the margin guard; the lemmas below state
      revenue, cost, ROI and breakeven. */
  function CalculateBusinessMetrics(i: BusinessInputs): (r: BusinessResults)
    ensures r.profit == r.totalRevenue - r.totalCost
    ensures r.totalRevenue <= 0.0 ==> r.profitMargin == 0.0
    ensures r.totalRevenue > 0.0 ==> r.profitMargin * r.totalRevenue == 100.0 * r.profit
  {
    Assemble(FinalRevenue(i), TotalCost(i), TotalFixedCosts(i) + i.initialInvestment, Breakeven(i))
  }

  /** Profit, margin and ROI from the revenue after tax, the total cost and
      the ROI base, packed with the breakeven figures into the result. */
  function Assemble(finalRevenue: real, totalCost: real, totalInvestment: real, breakeven: (real, real))
    : (r: BusinessResults)
    ensures r.totalRevenue == finalRevenue && r.totalCost == totalCost
    ensures r.profit == finalRevenue - totalCost
    ensures finalRevenue <= 0.0 ==> r.profitMargin == 0.0
    ensures finalRevenue > 0.0 ==> r.profitMargin * finalRevenue == 100.0 * r.profit
    ensures totalInvestment <= 0.0 ==> r.roi == 0.0
    ensures totalInvestment > 0.0 ==> r.roi * totalInvestment == 100.0 * r.profit
    ensures r.breakevenUnits == breakeven.0 && r.breakevenDays == breakeven.1
  {
    var profit := finalRevenue - totalCost;
    var profitMargin := GuardedPercent(profit, finalRevenue);
    var roi := GuardedPercent(profit, totalInvestment);
    BusinessResults(finalRevenue, totalCost, profit, profitMargin, roi, breakeven.0, breakeven.1)
  }

  // ---------------------------------------------------------------------
  // What the result record says about the inputs.

  /** Each reported figure is the corresponding step of the calculation. */
  lemma ResultsFromSteps(i: BusinessInputs)
    ensures
      var r := CalculateBusinessMetrics(i);
      && r.totalRevenue == FinalRevenue(i)
      && r.totalCost == TotalCost(i)
      && r == Assemble(FinalRevenue(i), TotalCost(i), InvestmentBase(i), Breakeven(i))
  {
    assert TotalFixedCosts(i) + i.initialInvestment == InvestmentBase(i);
  }

  /** Revenue in closed form: the discounted price times the units sold,
      times the after-tax share; with a tax rate of at most 0, no tax at all. */
  lemma RevenueClosedForm(i: BusinessInputs)
    ensures CalculateBusinessMetrics(i).totalRevenue == NetPrice(i) * UnitsSold(i) * AfterTaxFactor(i)
    ensures i.taxRate <= 0.0 ==>
      CalculateBusinessMetrics(i).totalRevenue == i.sellingPrice * (1.0 - i.discountRate / 100.0) * i.monthlySales * i.duration
  {
    ResultsFromSteps(i);
  }

  /** Cost in closed form: per-unit costs over all units, monthly fixed costs
      over the duration, and the initial investment. */
  lemma CostClosedForm(i: BusinessInputs)
    ensures CalculateBusinessMetrics(i).totalCost
         == UnitCost(i) * UnitsSold(i) + MonthlyFixedCosts(i) * i.duration + i.initialInvestment
  {
    ResultsFromSteps(i);
  }

  /** ROI is 0 when the investment base is not positive; otherwise ROI times
      the base is 100 times the profit. */
  lemma RoiRelation(i: BusinessInputs)
    ensures InvestmentBase(i) <= 0.0 ==> CalculateBusinessMetrics(i).roi == 0.0
    ensures InvestmentBase(i) > 0.0 ==>
      CalculateBusinessMetrics(i).roi * InvestmentBase(i) == 100.0 * CalculateBusinessMetrics(i).profit
  {
    ResultsFromSteps(i);
  }

  /** The breakeven figures: both 0 without a positive contribution margin;
      otherwise the breakeven units cover the monthly fixed costs and the
      breakeven months are those units in months of sales (0 without
      sales). */
  lemma BreakevenRelations(i: BusinessInputs)
    ensures
      var r := CalculateBusinessMetrics(i);
      && (ContributionMargin(i) <= 0.0 ==> r.breakevenUnits == 0.0 && r.breakevenDays == 0.0)
      && (ContributionMargin(i) > 0.0 ==> r.breakevenUnits * ContributionMargin(i) == MonthlyFixedCosts(i))
      && (ContributionMargin(i) > 0.0 && i.monthlySales > 0.0 ==> r.breakevenDays * i.monthlySales == r.breakevenUnits)
      && (i.monthlySales <= 0.0 ==> r.breakevenDays == 0.0)
  {
    ResultsFromSteps(i);
    var r := CalculateBusinessMetrics(i);
    assert r.breakevenUnits == Breakeven(i).0 && r.breakevenDays == Breakeven(i).1;
  }

  // ---------------------------------------------------------------------
  // Which inputs each step reads.

  lemma FinalRevenueFrame(a: BusinessInputs, b: BusinessInputs)
    requires a.sellingPrice == b.sellingPrice && a.discountRate == b.discountRate
    requires a.monthlySales == b.monthlySales && a.duration == b.duration
    requires AfterTaxFactor(a) == AfterTaxFactor(b)
    ensures FinalRevenue(a) == FinalRevenue(b)
  {
    assert NetPrice(a) == NetPrice(b) && UnitsSold(a) == UnitsSold(b);
  }

  lemma TotalCostFrame(a: BusinessInputs, b: BusinessInputs)
    requires a.productCost == b.productCost && a.variableCosts == b.variableCosts
    requires a.monthlySales == b.monthlySales && a.duration == b.duration
    requires MonthlyFixedCosts(a) == MonthlyFixedCosts(b) && a.initialInvestment == b.initialInvestment
    ensures TotalCost(a) == TotalCost(b)
    ensures InvestmentBase(a) == InvestmentBase(b)
  {
    assert UnitCost(a) == UnitCost(b) && UnitsSold(a) == UnitsSold(b);
  }

  lemma BreakevenFrame(a: BusinessInputs, b: BusinessInputs)
    requires ContributionMargin(a) == ContributionMargin(b)
    requires MonthlyFixedCosts(a) == MonthlyFixedCosts(b) && a.monthlySales == b.monthlySales
    ensures Breakeven(a) == Breakeven(b)
  {
    var cmA := a.sellingPrice * (1.0 - a.discountRate / 100.0) - a.productCost - a.variableCosts;
    var cmB := b.sellingPrice * (1.0 - b.discountRate / 100.0) - b.productCost - b.variableCosts;
    assert cmA == ContributionMargin(a) == ContributionMargin(b) == cmB;
  }

  /** The result record is determined by the revenue, the cost, the ROI base
      and the breakeven figures. */
  lemma SameStepsSameResults(a: BusinessInputs, b: BusinessInputs)
    requires FinalRevenue(a) == FinalRevenue(b) && TotalCost(a) == TotalCost(b)
    requires InvestmentBase(a) == InvestmentBase(b) && Breakeven(a) == Breakeven(b)
    ensures CalculateBusinessMetrics(a) == CalculateBusinessMetrics(b)
  {
    ResultsFromSteps(a);
    ResultsFromSteps(b);
  }

  // ---------------------------------------------------------------------
  // Properties of the calculator.

  /** A tax rate that is not positive is no tax: it gives the same results
      as a rate of exactly 0. */
  lemma NonPositiveTaxIsNoTax(i: BusinessInputs, t: real)
    requires t <= 0.0
    ensures CalculateBusinessMetrics(i.(taxRate := t)) == CalculateBusinessMetrics(i.(taxRate := 0.0))
  {
    var j, k := i.(taxRate := t), i.(taxRate := 0.0);
    FinalRevenueFrame(j, k);
    TotalCostFrame(j, k);
    BreakevenFrame(j, k);
    SameStepsSameResults(j, k);
  }

  /** Total cost depends on neither the price, the discount nor the tax
      rate. */
  lemma CostIgnoresPricingAndTax(i: BusinessInputs, price: real, discount: real, tax: real)
    ensures
      var j := i.(sellingPrice := price, discountRate := discount, taxRate := tax);
      CalculateBusinessMetrics(j).totalCost == CalculateBusinessMetrics(i).totalCost
  {
    var j := i.(sellingPrice := price, discountRate := discount, taxRate := tax);
    TotalCostFrame(j, i);
    ResultsFromSteps(j);
    ResultsFromSteps(i);
  }

  /** The breakeven figures depend neither on the tax rate, the duration nor
      the initial investment: they are per-month quantities before tax. */
  lemma BreakevenIgnoresTaxDurationAndInvestment(i: BusinessInputs, tax: real, months: real, investment: real)
    ensures
      var j := i.(taxRate := tax, duration := months, initialInvestment := investment);
      && CalculateBusinessMetrics(j).breakevenUnits == CalculateBusinessMetrics(i).breakevenUnits
      && CalculateBusinessMetrics(j).breakevenDays == CalculateBusinessMetrics(i).breakevenDays
  {
    var j := i.(taxRate := tax, duration := months, initialInvestment := investment);
    BreakevenFrame(j, i);
    ResultsFromSteps(j);
    ResultsFromSteps(i);
  }

  /** Without tax, profit is what the units sold contribute beyond the fixed
      costs, less the initial investment. */
  lemma ProfitFromContribution(i: BusinessInputs)
    requires i.taxRate <= 0.0
    ensures CalculateBusinessMetrics(i).profit
         == (ContributionMargin(i) * i.monthlySales - MonthlyFixedCosts(i)) * i.duration - i.initialInvestment
  {
    var r := CalculateBusinessMetrics(i);
    var cm, u, d := ContributionMargin(i), i.monthlySales, i.duration;
    RevenueClosedForm(i);
    CostClosedForm(i);
    calc {
      r.profit;
      NetPrice(i) * (u * d) - (UnitCost(i) * (u * d) + MonthlyFixedCosts(i) * d + i.initialInvestment);
      { Distribute(NetPrice(i), -UnitCost(i), u * d); }
      cm * (u * d) - MonthlyFixedCosts(i) * d - i.initialInvestment;
      { Distribute(cm * u, -MonthlyFixedCosts(i), d); }
      (cm * u - MonthlyFixedCosts(i)) * d - i.initialInvestment;
    }
  }

  /** The breakeven volume is the zero-profit volume: without tax or initial
      investment and over a positive duration, selling more than
      `breakevenUnits` a month makes a profit, selling exactly that many
      makes none, and selling fewer makes a loss. */
  lemma BreakevenIsProfitThreshold(i: BusinessInputs)
    requires ContributionMargin(i) > 0.0
    requires i.taxRate <= 0.0 && i.initialInvestment == 0.0 && i.duration > 0.0
    ensures
      var r := CalculateBusinessMetrics(i);
      && (r.profit > 0.0 <==> i.monthlySales > r.breakevenUnits)
      && (r.profit == 0.0 <==> i.monthlySales == r.breakevenUnits)
      && (r.profit < 0.0 <==> i.monthlySales < r.breakevenUnits)
  {
    var r := CalculateBusinessMetrics(i);
    ProfitFromContribution(i);
    BreakevenRelations(i);
    ThresholdSign(r.profit, ContributionMargin(i), i.monthlySales, i.duration, r.breakevenUnits, MonthlyFixedCosts(i));
  }

  /** Once revenue is positive, the margin has the sign of the profit, and
      it cannot exceed 100% while costs are not negative. */
  lemma ProfitMarginSignAndBound(i: BusinessInputs)
    requires CalculateBusinessMetrics(i).totalRevenue > 0.0
    ensures
      var r := CalculateBusinessMetrics(i);
      && (r.profitMargin > 0.0 <==> r.profit > 0.0)
      && (r.profitMargin == 0.0 <==> r.profit == 0.0)
      && (r.totalCost >= 0.0 ==> r.profitMargin <= 100.0)
  {
    var r := CalculateBusinessMetrics(i);
    var pm, rev := r.profitMargin, r.totalRevenue;
    assert pm * rev == 100.0 * r.profit;
    ProductSign(pm, rev);
    ProductSign(pm - 100.0, rev);
    Distribute(pm, -100.0, rev);
  }

  /** Once the investment base is positive, ROI has the sign of the profit. */
  lemma RoiSign(i: BusinessInputs)
    requires InvestmentBase(i) > 0.0
    ensures
      var r := CalculateBusinessMetrics(i);
      && (r.roi > 0.0 <==> r.profit > 0.0)
      && (r.roi == 0.0 <==> r.profit == 0.0)
  {
    var r := CalculateBusinessMetrics(i);
    RoiRelation(i);
    ProductSign(r.roi, InvestmentBase(i));
  }

  /** A worked example: 600 units a month at 150 for 12 months, costing 50
      plus 10 per unit and 5000 a month in marketing, with no investment,
      tax or discount. */
  ghost predicate IsExample(i: BusinessInputs) {
    && i.sellingPrice == 150.0 && i.productCost == 50.0 && i.variableCosts == 10.0
    && i.monthlySales == 600.0 && i.duration == 12.0
    && i.marketingCost == 5000.0 && i.staffRentCost == 0.0 && i.otherFixedCosts == 0.0
    && i.initialInvestment == 0.0 && i.taxRate == 0.0 && i.discountRate == 0.0
  }

  lemma WorkedExample(i: BusinessInputs)
    requires IsExample(i)
    ensures CalculateBusinessMetrics(i).totalRevenue == 1080000.0
    ensures CalculateBusinessMetrics(i).totalCost == 492000.0
    ensures CalculateBusinessMetrics(i).profit == 588000.0
    ensures CalculateBusinessMetrics(i).profitMargin == 4900.0 / 90.0
    ensures CalculateBusinessMetrics(i).roi == 980.0
    ensures CalculateBusinessMetrics(i).breakevenUnits == 5000.0 / 90.0
  {
    ExampleTerms(i);
    RevenueClosedForm(i);
    CostClosedForm(i);
    RoiRelation(i);
    BreakevenRelations(i);
  }

  lemma ExampleTerms(i: BusinessInputs)
    requires IsExample(i)
    ensures NetPrice(i) == 150.0 && UnitsSold(i) == 7200.0 && AfterTaxFactor(i) == 1.0
    ensures UnitCost(i) == 60.0 && MonthlyFixedCosts(i) == 5000.0
    ensures InvestmentBase(i) == 60000.0 && ContributionMargin(i) == 90.0
  {
  }

  // ---------------------------------------------------------------------
  // Arithmetic steps of the calculator's contract.

  lemma Distribute(a: real, b: real, c: real)
    ensures a * c + b * c == (a + b) * c
  {
  }

  /** With a positive margin `cm` and duration `d`, a profit of
      `(cm * u - cm * bu) * d` has the sign of `u - bu`. */
  lemma ThresholdSign(profit: real, cm: real, u: real, d: real, bu: real, fixed: real)
    requires cm > 0.0 && d > 0.0
    requires profit == (cm * u - fixed) * d
    requires bu * cm == fixed
    ensures profit > 0.0 <==> u > bu
    ensures profit == 0.0 <==> u == bu
    ensures profit < 0.0 <==> u < bu
  {
    assert profit == (u - bu) * (cm * d);
    ProductSign(u - bu, cm * d);
  }

  /** A product is positive exactly when its factors share a strict sign. */
  lemma ProductSign(a: real, b: real)
    requires b > 0.0
    ensures a * b > 0.0 <==> a > 0.0
    ensures a * b == 0.0 <==> a == 0.0
    ensures a * b < 0.0 <==> a < 0.0
  {
  }

  lemma Distribute3(a: real, b: real, c: real, d: real)
    ensures a * d + b * d + c * d == (a + b + c) * d
  {
  }

  lemma TaxIdentity(gross: real, rate: real)
    ensures gross - gross * (rate / 100.0) == gross * (1.0 - rate / 100.0)
  {
  }

  /** `q > 0 ? (p / q) * 100 : 0`: `p` as a percentage of `q`, or 0 when
      `q` is not positive. */
  function GuardedPercent(p: real, q: real): (r: real)
    ensures q <= 0.0 ==> r == 0.0
    ensures q > 0.0 ==> r * q == 100.0 * p
  {
    if q > 0.0 then (p / q) * 100.0 else 0.0
  }

  /** `q > 0 ? p / q : 0`: the quotient, or 0 when `q` is not positive. */
  function GuardedQuotient(p: real, q: real): (r: real)
    ensures q <= 0.0 ==> r == 0.0
    ensures q > 0.0 ==> r * q == p
  {
    if q > 0.0 then p / q else 0.0
  }
}
