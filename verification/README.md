# AeroRent UK break-even engine in Dafny

AeroRent UK's financial calculator is a single-page Streamlit app for a small
drone-rental business. The user enters a fleet of DJI Flip and DJI Mini 4 Pro
drones, one-off and annual costs, per-rental costs, tier prices and a rental
mix. The app then computes first-year costs, the average revenue per rental
day, the contribution margin, break-even days and break-even utilisation. It
also shows a table of annual projections and a cost breakdown.

This project models that engine with Dafny `real` arithmetic and proves the
relations it promises. The model has five modules:

- `Inputs` (`inputs.dfy`): the configuration record that replaces the
  sidebar globals. It holds the widget bounds (`Config.InRange`: nothing
  negative, each mix field at most 100), the declared starting widget
  values (`Defaults`, see the app.py:89 note under "Left out") and the
  rental-mix check.
- `Financials` (`financials.dfy`): `calculate_financials`. This covers capex
  and opex, the mix-weighted model averages, fleet shares, the weighted
  average revenue, variable cost, margin, and the guarded break-even
  quotients. `Consistent` states the relations that hold between the fields
  of any result.
- `Projection` (`projection.dfy`): `calculate_projection` and the table that
  evaluates it at 20%, at break-even, at 30% and at 40%. The table keeps only
  positive utilisations.
- `Breakdown` (`breakdown.dfy`): the five cost slices behind the pie chart.
- `Calculator` (`calculator.dfy`): the gate in front of the engine. The
  engine runs and a report is produced only when the mix sums to 100.
  Otherwise the page carries the mix total and nothing else.

Quantities and mix percentages are `nat`, because those widgets take whole
numbers. Money and the processing fee are `real`. A guarded division that
returns 0 in the source is an explicit `if` in the model. Every division
guard also has a lemma about its zero branch.

## Model

| member | source | states |
|---|---|---|
| Inputs.CheckMix | app.py:127-131 | the mix is accepted exactly when the three percentages sum to 100; a rejected mix reports its total, which is not 100 |
| Calculator.Evaluate | app.py:178-180 | a report exists exactly when the mix sums to 100, else the page carries only the mix total; a report's results are consistent, its first-year cost is capex plus opex, its table is the filtered projection table and its cost slices add up to the first-year cost |
| Financials.CalculateFinancials | app.py:134-176 | the result is consistent: first-year cost = capex + opex, margin = revenue − variable cost, available days = 365 × drones, break-even days × margin = first-year cost when the margin is positive (else 0), break-even utilisation × available days = 100 × break-even days when the fleet is non-empty (else 0); variable cost = shipping + revenue × fee / 100 |
| Financials.FleetRatio | app.py:151-152 | a model's share times the fleet size gives back its quantity; 0 for an empty fleet; between 0 and 1 |
| Financials.BreakEvenDays | app.py:161 | with a positive margin, days × margin equals the costs; otherwise exactly 0; never negative for non-negative costs |
| Financials.BreakEvenUtilisation | app.py:162-163 | with available days, utilisation × available days = 100 × break-even days; 0 for an empty fleet; non-negative for non-negative days |
| Financials.AvgRevenueWithinTiers | app.py:144-149 | when the mix sums to 100, a model's average daily revenue lies between its cheapest and dearest tier price |
| Financials.FleetRatiosSumToOne | app.py:151-152 | with at least one drone the two fleet shares sum to 1 |
| Financials.WeightedRevenueBetweenModels | app.py:151-154 | with at least one drone the weighted average revenue lies between the two model averages |
| Financials.EmptyFleet | app.py:151-163 | with no drones both shares, the weighted revenue, the available days and the break-even utilisation are 0, and the margin is minus the shipping cost |
| Financials.MarginNetOfFee | app.py:156-158 | margin = revenue × (1 − fee / 100) − shipping |
| Financials.PositiveMarginNeedsFleet | app.py:151-158 | with non-negative shipping, a positive margin implies at least one drone and positive available days |
| Financials.WeightedRevenueNonNegative | app.py:144-154 | non-negative tier prices give a non-negative fleet average revenue |
| Financials.CostsNonNegative | app.py:136-163 | within the widget bounds capex, opex, revenue, break-even days and utilisation are non-negative and first-year cost is at least capex |
| Financials.BreakEvenUtilisationPositiveIff | app.py:161-163 | within the widget bounds, break-even utilisation is positive exactly when the margin and the first-year cost are both positive |
| Projection.CalculateProjection | app.py:224-229 | for a consistent result, profit = hired days × margin − first-year cost; revenue − profit = opex + capex + the variable cost of the hired days |
| Projection.BreakEvenDaysHired | app.py:225 | at the break-even utilisation the hired days equal the break-even days |
| Projection.ProfitZeroAtBreakEven | app.py:224-229 | with a positive margin and a drone, profit at break-even utilisation is exactly 0, and revenue less variable cost equals capex + opex |
| Projection.RevenueLinear | app.py:225-226 | revenue at a·u + b·v is a·revenue(u) + b·revenue(v) |
| Projection.RentalDaysMonotone | app.py:225 | hired days never fall as utilisation rises, and strictly rise with a non-empty fleet |
| Projection.RevenueNonDecreasing | app.py:225-226 | with non-negative daily revenue, projected revenue is non-decreasing in utilisation |
| Projection.ProfitStrictlyIncreasing | app.py:224-229 | with a positive margin and a drone, projected profit strictly increases with utilisation |
| Projection.ProfitSignAroundBreakEven | app.py:224-229 | with a positive margin and a drone, profit is positive, zero or negative exactly when utilisation is above, at or below break-even |
| Projection.ProjectionTable | app.py:234-242 | every row has a positive utilisation and is the projection at it; a utilisation gets a row exactly when it is in the list and positive; never more rows than utilisations |
| Projection.ProjectionTableAppend | app.py:234-242 | the table of a concatenated list is the concatenation of the tables, so row order follows the list |
| Projection.ProjectionRowsShape | app.py:232-242 | rows are 20%, break-even, 30%, 40% when break-even utilisation is positive, and only 20%, 30%, 40% otherwise |
| Projection.BreakEvenRowProfitZero | app.py:232-242 | a positive break-even utilisation is the second of four rows and its profit is exactly 0 |
| Breakdown.CostBreakdown | app.py:301-307 | five slices, the last being the engine's opex |
| Breakdown.BreakdownSumsToFirstYearCosts | app.py:301-307 | for a result whose capex is the configuration's and whose first-year cost is capex + opex (as `CalculateFinancials` ensures), the five slices add up exactly to the first-year cost |
| Breakdown.CapexSlicesSumToCapex | app.py:301-305 | the four one-off slices add up exactly to the capex of app.py:137 |
| Breakdown.SlicesNonNegative | app.py:301-307 | within the widget bounds, and with the engine's opex, no slice is negative |
| Calculator.ReportedBreakEvenIsExact | app.py:161-163 | within the widget bounds, a reported positive margin means profit at the reported break-even utilisation is exactly 0, with no separate drone requirement |
| Calculator.ReportedProfitIffAboveBreakEven | app.py:224-229 | within the widget bounds and with a positive margin, the projection shows a profit exactly above the reported break-even utilisation |
| Calculator.BreakEvenRowShownIff | app.py:232-235 | within the widget bounds the table has a break-even row exactly when margin and first-year cost are positive (so the 0 sentinel never becomes a row), with four rows then and three otherwise |
| Calculator.WorkedExampleRevenue | app.py:144-154 | three Flips and one Mini 4 Pro at mix 20/60/20 and prices 49/85/165 and 65/109/210 average exactly 100.45 per rental day |
| Calculator.DefaultsBreakEven | app.py:64-124 | with the starting widget values the mix is valid, first-year cost is 15,087.39, daily revenue 92.85, break-even utilisation between 17% and 18%, and the table has four rows |

## Left out

- Streamlit page setup, CSS, the sidebar and pricing widgets and the metric-card HTML (app.py:1-124, 182-219) are user interface. The widgets' lower bound of 0, the mix upper bound of 100 and their starting values are kept as `Config.InRange` and `Inputs.Defaults`.
- The success, error and warning messages (app.py:129-131, 320) are display text. The model keeps only which branch is taken and the mix total.
- The Plotly charts, the DataFrame styling and `color_profit` (app.py:244-317) are presentation through libraries not modelled here. The chart at app.py:264-271 only calls `calculate_projection` at 10%, 15%, …, 50%, which `Projection.CalculateProjection` covers.
- All currency and percentage formatting, and the `datetime.now()` footer (app.py:238-240, 323-329), are formatting and I/O.
- Python floating point is not modelled. The model uses exact `real` arithmetic, so identities such as zero profit at break-even hold exactly here but only up to rounding in Python's floating point.
- Utilisations outside 0–100 are not rejected by the source, and the model passes them through unchanged. Break-even utilisation can exceed 100%.
- app.py has no packaging cost, additional-cost list, per-unit accessory pricing, configurable opex set, monthly figures, rental duration, ROI, payback, cash flow, sensitivity, risk scenarios or VAT, so none is modelled.
- Profit at the break-even utilisation is exactly 0, because app.py:161 divides capex + opex by the margin and app.py:228 subtracts both (`Projection.ProfitZeroAtBreakEven`).
- The Repairs & Maintenance widget (app.py:89) passes an integer `min_value` and `step` with the float starting value 295.60. Streamlit's `number_input` rejects mixed numeric types, so the script as written may stop at that line before any calculation. Widget library behaviour is not modelled: `Inputs.Defaults` takes 295.60 as the evidently intended starting value, and `Calculator.DefaultsBreakEven` describes what the calculation gives for those values.
