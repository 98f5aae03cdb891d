# BizCalc business-metrics calculator, modelled in Dafny

This project models the business idea calculator page of the BizCalc web
application: the pure function `calculateBusinessMetrics`, which turns the
user's business parameters into revenue, cost, profit, profit margin, ROI and
breakeven figures, and the page state around it. That state is the input
record, the stored results, the "show results" flag and the current step. It
changes through three handlers: edit one field, calculate, and reset.

Every JavaScript `number` is a Dafny `real`, so the accounting identities are
proved exactly. They hold in the real-number model, not bit for bit for
IEEE-754 doubles.

Files:

- `wrappers.dfy`: module `Wrappers`, an `Option` type for the nullable
  `results` and for unparseable numbers.
- `business.dfy`: module `Business`, the `BusinessInputs` and
  `BusinessResults` records, field keys, and single-field update (`Apply`)
  with its read-back and frame properties.
- `metrics.dfy`: module `Metrics`, the calculator in the source's own steps,
  the accounting terms it reports on (units sold, net price, contribution
  margin, monthly fixed costs, investment base), and the identities relating
  them.
- `page.dfy`: module `Page`, the page state, the handlers, event sequences
  and the invariant every reachable state keeps.

Behaviour worth knowing, as the code does it:

- A tax rate that is not positive means no tax. A negative discount rate is
  not guarded, so it raises the selling price.
- `breakevenDays` is `breakevenUnits / monthlySales`. It therefore counts
  months of sales, not days.
- Both breakeven figures are 0 unless the contribution margin per unit is
  positive. `breakevenDays` is also 0 when `monthlySales` is not positive.
- No handler moves `currentStep` off 1. Steps 2 to 4 of the progress bar are
  never reached.
- Editing an input does not recompute the results. Results on screen stay
  those of the last calculation until the next one.
- The calculator is a Dafny function, so equal inputs always give equal
  results. No separate lemma states this.
- Volume is entered as units sold per month (`monthlySales`), and every
  total is computed from it. The worked example uses 600 units a month, which
  is 20 a day.

## Model

| member | source | states |
|---|---|---|
| Business.Apply | src/pages/BizCalc.tsx:122-130 | the edited field reads back as the new value and every other field reads back unchanged |
| Business.FieldsDetermineRecord | src/pages/BizCalc.tsx:4-18 | two input records whose thirteen fields agree are equal |
| Business.ApplyCurrentValueIsIdentity | src/pages/BizCalc.tsx:126-129 | writing a field's current value back leaves the record unchanged |
| Business.ApplyLastWriteWins | src/pages/BizCalc.tsx:126-129 | a second edit of the same field overrides the first |
| Business.ApplyDistinctFieldsCommute | src/pages/BizCalc.tsx:126-129 | edits of two different fields give the same record in either order |
| Metrics.FinalRevenue | src/pages/BizCalc.tsx:56-86 | revenue is net price × units sold × the after-tax share; with a tax rate ≤ 0 it is price × (1 − discount/100) × monthly sales × duration |
| Metrics.TotalFixedCosts | src/pages/BizCalc.tsx:69-74 | fixed costs over the period are the monthly fixed costs times the duration |
| Metrics.TotalCost | src/pages/BizCalc.tsx:65-81 | total cost is (product + variable cost) × units sold + monthly fixed costs × duration + initial investment |
| Metrics.GuardedPercent | src/pages/BizCalc.tsx:90-94 | the guarded percentage is 0 when the base is ≤ 0, and otherwise times the base gives 100 × the numerator |
| Metrics.GuardedQuotient | src/pages/BizCalc.tsx:107-108 | the guarded quotient is 0 when the divisor is ≤ 0, and otherwise times the divisor gives the dividend |
| Metrics.Breakeven | src/pages/BizCalc.tsx:96-109 | both figures are 0 when the contribution margin is ≤ 0; otherwise breakeven units × margin equals the monthly fixed costs, and breakeven months × monthly sales equals breakeven units (or 0 without sales) |
| Metrics.Assemble | src/pages/BizCalc.tsx:86-94 | profit is revenue minus cost; the margin and ROI are the guarded percentages of profit over revenue and over the ROI base |
| Metrics.CalculateBusinessMetrics | src/pages/BizCalc.tsx:52-120 | profit = reported revenue − reported cost; the margin is 0 when revenue is ≤ 0, and otherwise margin × revenue = 100 × profit |
| Metrics.RevenueClosedForm | src/pages/BizCalc.tsx:56-86 | reported revenue = net price × units sold × the after-tax share; with a tax rate ≤ 0 it is price × (1 − discount/100) × monthly sales × duration |
| Metrics.CostClosedForm | src/pages/BizCalc.tsx:65-81 | reported cost = (product + variable cost) × units sold + monthly fixed costs × duration + initial investment |
| Metrics.RoiRelation | src/pages/BizCalc.tsx:92-94 | ROI is 0 when fixed costs over the period plus investment are ≤ 0; otherwise ROI × that base = 100 × profit |
| Metrics.BreakevenRelations | src/pages/BizCalc.tsx:96-109 | both breakeven figures are 0 when the margin is ≤ 0; otherwise units × margin = monthly fixed costs, and months × monthly sales = units, or months = 0 without sales |
| Metrics.NonPositiveTaxIsNoTax | src/pages/BizCalc.tsx:84-86 | any tax rate ≤ 0 gives exactly the results of a tax rate of 0 |
| Metrics.CostIgnoresPricingAndTax | src/pages/BizCalc.tsx:66-81 | total cost does not change with the selling price, discount rate or tax rate |
| Metrics.BreakevenIgnoresTaxDurationAndInvestment | src/pages/BizCalc.tsx:97-109 | breakeven units and months do not change with the tax rate, duration or initial investment |
| Metrics.ProfitFromContribution | src/pages/BizCalc.tsx:56-89 | without tax, profit = (contribution margin × monthly sales − monthly fixed costs) × duration − initial investment |
| Metrics.BreakevenIsProfitThreshold | src/pages/BizCalc.tsx:97-109 | with a positive margin, no tax, no investment and a positive duration, profit is positive, zero or negative exactly when monthly sales are above, at or below breakeven units |
| Metrics.ProfitMarginSignAndBound | src/pages/BizCalc.tsx:89-90 | with positive revenue, the margin is positive or zero exactly when the profit is, and at most 100% when cost is not negative |
| Metrics.RoiSign | src/pages/BizCalc.tsx:93-94 | with a positive investment base, ROI is positive or zero exactly when the profit is |
| Metrics.WorkedExample | src/pages/BizCalc.tsx:52-120 | any inputs with 600 units/month at 150 for 12 months, unit cost 50 + 10 and 5000/month fixed, give revenue 1,080,000, cost 492,000, profit 588,000, margin 4900/90 %, ROI 980 % and breakeven 5000/90 units |
| Page.InitialState | src/pages/BizCalc.tsx:31-50 | step 1, no results, nothing shown, empty text fields, duration 12 and every other number 0 |
| Page.HandleInputChange | src/pages/BizCalc.tsx:122-130 | the edited field takes the new value; other fields, results, the show flag and the step are unchanged |
| Page.HandleNumberEntry | src/pages/BizCalc.tsx:245-249 | a parsed number is stored in its field, an unparseable entry stores 0; the other fields, results, the show flag and the step are unchanged |
| Page.NumberEntryIsFieldEdit | src/pages/BizCalc.tsx:245-249 | an entry that does not parse has the same effect as entering 0, and a parsed number the same effect as editing the field to it |
| Page.HandleCalculate | src/pages/BizCalc.tsx:132-136 | results become the calculator's output for the current inputs and are shown; inputs and step are unchanged |
| Page.HandleReset | src/pages/BizCalc.tsx:138-157 | the reset state equals the initial state of lines 31-50, although the source writes the defaults out separately |
| Page.StepPreservesConsistent | src/pages/BizCalc.tsx:122-157 | each handler keeps step 1, keeps "shown ⇔ results present", and keeps any results equal to the calculator's output for some inputs |
| Page.RunPreservesConsistent | src/pages/BizCalc.tsx:122-157 | any sequence of events from a consistent state ends in a consistent state |
| Page.ReachableStatesAreConsistent | src/pages/BizCalc.tsx:31-157 | in every state reachable from the initial one, the step is 1 and results are shown exactly when present |
| Page.ResetForgetsHistory | src/pages/BizCalc.tsx:138-157 | any event history followed by a reset ends in the initial state |
| Page.CalculateIsIdempotent | src/pages/BizCalc.tsx:132-136 | calculating twice gives the same state as calculating once |
| Page.CalculateThenEditKeepsResults | src/pages/BizCalc.tsx:122-136 | an edit after a calculation keeps the results computed from the inputs before the edit |

## Left out

- Rendering: the JSX, CSS classes, the progress bar and the result cards (src/pages/BizCalc.tsx:159-653). These are presentation only.
- `parseFloat`/`parseInt`: text-to-number parsing is a foreign call. Its outcome is a parameter, `Some(number)` or `None` for NaN, and only the `|| 0` fallback is modelled.
- Number formatting with `toLocaleString`/`toFixed`. This is locale and float formatting.
- IEEE-754 rounding, NaN and infinities: all quantities are exact reals. So are the `duration` and `monthlySales` fields that the page fills with `parseInt`.
- Page.HandleInputChange: takes a well-kinded edit, a string for the two text fields and a number for the others. The source's `string | number` parameter type would also admit a mismatched pair, but no call site passes one.
- The other pages and components (Home, About, Contact with its timer-based submit, Navbar, ThemeToggle, App routing). They are UI and routing with no calculator logic.
