/** The results area of the calculator page: the rental-mix gate in front
    of the engine, and what the page shows when the gate lets it through. */
module Calculator {
  import opened Inputs
  import opened Financials
  import opened Projection
  import opened Breakdown

  /** Everything computed for a valid mix: the key metrics, the annual
      projections table and the cost breakdown. */
  datatype Report = Report(results: FinancialResult, projections: seq<Row>, costs: seq<Slice>)

  /** Either the full report, or the mix warning with the total the user
      entered and nothing computed. */
  datatype Page = Calculated(report: Report) | MixRejected(mixTotal: nat)

  /** Runs the engine only when the rental mix adds up to 100. */
  function Evaluate(c: Config): (page: Page)
    ensures page.Calculated? <==> c.mix.Total() == 100
    ensures page.MixRejected? ==>
              page.mixTotal == c.mix.Total() && page.mixTotal != 100
    ensures page.Calculated? ==>
              && Consistent(page.report.results)
              && page.report.results.totalDrones == c.flipQty + c.mini4Qty
              && page.report.results.totalFirstYearCosts == Capex(c) + Opex(c)
              && page.report.projections == ProjectionRows(page.report.results)
              && Total(page.report.costs) == page.report.results.totalFirstYearCosts
  {
    match CheckMix(c.mix)
    case MixInvalid(total) => MixRejected(total)
    case MixValid =>
      var fr := CalculateFinancials(c);
      BreakdownSumsToFirstYearCosts(c, fr);
      Calculated(Report(fr, ProjectionRows(fr), CostBreakdown(c, fr)))
  }

  /** The report's break-even point: for any configuration within the
      widget bounds whose report shows a positive margin, the projection at
      the reported break-even utilisation makes exactly zero profit. */
  lemma ReportedBreakEvenIsExact(c: Config)
    requires c.InRange()
    ensures var page := Evaluate(c);
            page.Calculated? && page.report.results.contributionMargin > 0.0 ==>
              CalculateProjection(page.report.results, page.report.results.breakEvenUtilisation).profit == 0.0
  {
    var fr := CalculateFinancials(c);
    if fr.contributionMargin > 0.0 {
      PositiveMarginNeedsFleet(c);
      ProfitZeroAtBreakEven(fr);
    }
  }

  /** For any configuration within the widget bounds whose report shows a
      positive margin, the projection makes a profit at a utilisation
      exactly when that utilisation exceeds the break-even utilisation. */
  lemma ReportedProfitIffAboveBreakEven(c: Config, u: real)
    requires c.InRange()
    ensures var page := Evaluate(c);
            page.Calculated? && page.report.results.contributionMargin > 0.0 ==>
              (CalculateProjection(page.report.results, u).profit > 0.0 <==> u > page.report.results.breakEvenUtilisation)
  {
    var fr := CalculateFinancials(c);
    if fr.contributionMargin > 0.0 {
      PositiveMarginNeedsFleet(c);
      ProfitSignAroundBreakEven(fr, u);
    }
  }

  /** The projections table shows a break-even row exactly when the margin
      is positive and there are costs to recover; the 0 sentinel never
      becomes a row. The table then has four rows, otherwise three. */
  lemma BreakEvenRowShownIff(c: Config)
    requires c.InRange()
    ensures var page := Evaluate(c);
            page.Calculated? ==>
              var r := page.report;
              var shown := exists i :: 0 <= i < |r.projections| && r.projections[i].utilisation == r.results.breakEvenUtilisation;
              && (shown <==> r.results.contributionMargin > 0.0 && r.results.totalFirstYearCosts > 0.0)
              && |r.projections| == (if shown then 4 else 3)
  {
    var fr := CalculateFinancials(c);
    var rows := ProjectionRows(fr);
    BreakEvenUtilisationPositiveIff(c);
    CostsNonNegative(c);
    ProjectionRowsShape(fr);
    if fr.breakEvenUtilisation > 0.0 {
      assert rows[1].utilisation == fr.breakEvenUtilisation;
    }
  }

  /** A worked example: three Flips and one Mini 4
      Pro, mix 20/60/20, Flip prices 49/85/165 and Mini 4 Pro prices
      65/109/210 give an average of 100.45 per rental day. */
  lemma WorkedExampleRevenue(c: Config)
    requires c.flipQty == 3 && c.mini4Qty == 1
    requires c.mix == Mix(20, 60, 20)
    requires c.flipPrices == Prices(49.0, 85.0, 165.0)
    requires c.mini4Prices == Prices(65.0, 109.0, 210.0)
    ensures Evaluate(c).Calculated?
    ensures Evaluate(c).report.results.weightedAvgRevenue == 100.45
  {
    assert AvgRevenue(c.flipPrices, c.mix) == 93.8;
    assert AvgRevenue(c.mini4Prices, c.mix) == 120.4;
    assert FleetRatio(c.flipQty, 4) == 0.75;
  }

  /** With the widgets' starting values the mix is valid, first-year costs
      are 15,087.39, a rental day earns 92.85 and the fleet breaks even at
      a utilisation between 17% and 18%, so the table has four rows. */
  lemma DefaultsBreakEven()
    ensures Evaluate(Defaults).Calculated?
    ensures var fr := Evaluate(Defaults).report.results;
            && fr.totalFirstYearCosts == 15087.39
            && fr.weightedAvgRevenue == 92.85
            && 17.0 < fr.breakEvenUtilisation < 18.0
            && |Evaluate(Defaults).report.projections| == 4
  {
    var c := Defaults;
    var fr := CalculateFinancials(c);
    assert AvgRevenue(c.flipPrices, c.mix) == 86.6;
    assert AvgRevenue(c.mini4Prices, c.mix) == 111.6;
    assert FleetRatio(c.flipQty, 4) == 0.75;
    assert FleetRatio(c.mini4Qty, 4) == 0.25;
    assert fr.contributionMargin == 59.45725;
    assert fr.totalAvailableDays == 1460;
    assert 17.0 * 1460.0 * 59.45725 < 15087.39 * 100.0 < 18.0 * 1460.0 * 59.45725;
    ProjectionRowsShape(fr);
  }
}
