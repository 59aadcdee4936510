/** Annual projections at a given utilisation, and the projection table
    that evaluates them at 20%, at the break-even point, at 30% and at 40%,
    keeping only the positive utilisations. */
module Projection {
  import opened Financials

  /** Annual revenue and profit at one utilisation. */
  datatype ProjectionPoint = ProjectionPoint(revenue: real, profit: real)

  /** One row of the projection table. */
  datatype Row = Row(utilisation: real, revenue: real, profit: real)

  /** Drone-days hired at a utilisation given in percent. */
  function RentalDays(fr: FinancialResult, utilisation: real): real {
    fr.totalAvailableDays as real * (utilisation / 100.0)
  }

  /** Revenue, and profit after opex, variable costs and capex, at the
      given utilisation. For a consistent result the profit is the margin
      earned on the hired days less the first-year costs. */
  function CalculateProjection(fr: FinancialResult, utilisation: real): (p: ProjectionPoint)
    ensures Consistent(fr) ==>
              p.profit == RentalDays(fr, utilisation) * fr.contributionMargin - fr.totalFirstYearCosts
    ensures p.revenue - p.profit
              == fr.opex + fr.capex + RentalDays(fr, utilisation) * fr.variableCostPerRental
  {
    var rentalDays := RentalDays(fr, utilisation);
    var totalRevenue := rentalDays * fr.weightedAvgRevenue;
    var totalVariableCosts := rentalDays * fr.variableCostPerRental;
    var profit := totalRevenue - fr.opex - totalVariableCosts - fr.capex;
    ProjectionPoint(totalRevenue, profit)
  }

  /** At the break-even utilisation the hired days are exactly the
      break-even days. */
  lemma BreakEvenDaysHired(fr: FinancialResult)
    requires Consistent(fr) && fr.totalDrones > 0
    ensures RentalDays(fr, fr.breakEvenUtilisation) == fr.breakEvenDays
  {
    var a := fr.totalAvailableDays as real;
    assert a > 0.0;
    calc {
      RentalDays(fr, fr.breakEvenUtilisation);
      a * (fr.breakEvenUtilisation / 100.0);
      (fr.breakEvenUtilisation * a) / 100.0;
      (fr.breakEvenDays * 100.0) / 100.0;
    }
  }

  /** With a positive margin and at least one drone, projected profit at
      the break-even utilisation is exactly zero: revenue less variable
      costs recovers capex plus opex. */
  lemma ProfitZeroAtBreakEven(fr: FinancialResult)
    requires Consistent(fr)
    requires fr.contributionMargin > 0.0 && fr.totalDrones > 0
    ensures CalculateProjection(fr, fr.breakEvenUtilisation).profit == 0.0
    ensures var days := RentalDays(fr, fr.breakEvenUtilisation);
            CalculateProjection(fr, fr.breakEvenUtilisation).revenue - days * fr.variableCostPerRental
              == fr.capex + fr.opex
  {
    BreakEvenDaysHired(fr);
  }

  /** Projected revenue is linear in utilisation. */
  lemma RevenueLinear(fr: FinancialResult, a: real, u: real, b: real, v: real)
    ensures CalculateProjection(fr, a * u + b * v).revenue
              == a * CalculateProjection(fr, u).revenue + b * CalculateProjection(fr, v).revenue
  {
    var w := fr.weightedAvgRevenue;
    assert RentalDays(fr, a * u + b * v) == a * RentalDays(fr, u) + b * RentalDays(fr, v);
    assert (a * RentalDays(fr, u) + b * RentalDays(fr, v)) * w
             == a * (RentalDays(fr, u) * w) + b * (RentalDays(fr, v) * w);
  }

  /** Hiring more of the fleet never hires fewer days. */
  lemma RentalDaysMonotone(fr: FinancialResult, u1: real, u2: real)
    requires u1 <= u2
    ensures RentalDays(fr, u1) <= RentalDays(fr, u2)
    ensures fr.totalAvailableDays > 0 && u1 < u2 ==> RentalDays(fr, u1) < RentalDays(fr, u2)
  {
    var d := fr.totalAvailableDays as real;
    assert RentalDays(fr, u2) - RentalDays(fr, u1) == d * ((u2 - u1) / 100.0);
  }

  /** With a non-negative daily revenue, projected revenue never falls as
      utilisation rises. */
  lemma RevenueNonDecreasing(fr: FinancialResult, u1: real, u2: real)
    requires fr.weightedAvgRevenue >= 0.0
    requires u1 <= u2
    ensures CalculateProjection(fr, u1).revenue <= CalculateProjection(fr, u2).revenue
  {
    RentalDaysMonotone(fr, u1, u2);
    ScaleLe(RentalDays(fr, u1), RentalDays(fr, u2), fr.weightedAvgRevenue);
  }

  /** With a positive margin and at least one drone, projected profit
      strictly increases with utilisation. */
  lemma ProfitStrictlyIncreasing(fr: FinancialResult, u1: real, u2: real)
    requires Consistent(fr)
    requires fr.contributionMargin > 0.0 && fr.totalDrones > 0
    requires u1 < u2
    ensures CalculateProjection(fr, u1).profit < CalculateProjection(fr, u2).profit
  {
    RentalDaysMonotone(fr, u1, u2);
    var d1, d2 := RentalDays(fr, u1), RentalDays(fr, u2);
    assert d2 * fr.contributionMargin - d1 * fr.contributionMargin == (d2 - d1) * fr.contributionMargin;
  }

  /** With a positive margin and at least one drone, the projection makes
      a profit exactly above the break-even utilisation, breaks even
      exactly at it, and makes a loss exactly below it. */
  lemma ProfitSignAroundBreakEven(fr: FinancialResult, u: real)
    requires Consistent(fr)
    requires fr.contributionMargin > 0.0 && fr.totalDrones > 0
    ensures CalculateProjection(fr, u).profit > 0.0 <==> u > fr.breakEvenUtilisation
    ensures CalculateProjection(fr, u).profit == 0.0 <==> u == fr.breakEvenUtilisation
    ensures CalculateProjection(fr, u).profit < 0.0 <==> u < fr.breakEvenUtilisation
  {
    ProfitZeroAtBreakEven(fr);
    if u < fr.breakEvenUtilisation {
      ProfitStrictlyIncreasing(fr, u, fr.breakEvenUtilisation);
    } else if u > fr.breakEvenUtilisation {
      ProfitStrictlyIncreasing(fr, fr.breakEvenUtilisation, u);
    }
  }

  // ---------------------------------------------------------------------
  // The projection table

  /** The table row for one utilisation. */
  function RowAt(fr: FinancialResult, utilisation: real): Row {
    var p := CalculateProjection(fr, utilisation);
    Row(utilisation, p.revenue, p.profit)
  }

  /** Rows for the given utilisations, in order, skipping every utilisation
      that is not positive. */
  function ProjectionTable(fr: FinancialResult, rates: seq<real>): (rows: seq<Row>)
    ensures |rows| <= |rates|
    ensures forall i :: 0 <= i < |rows| ==>
              rows[i].utilisation > 0.0 && rows[i] == RowAt(fr, rows[i].utilisation)
    ensures forall u :: u in rates && u > 0.0 <==>
              (exists i :: 0 <= i < |rows| && rows[i].utilisation == u)
  {
    if |rates| == 0 then []
    else
      var rest := ProjectionTable(fr, rates[1..]);
      assert forall u :: u in rates <==> u == rates[0] || u in rates[1..];
      if rates[0] > 0.0 then
        var rows := [RowAt(fr, rates[0])] + rest;
        assert rows[0].utilisation == rates[0];
        assert forall i :: 0 <= i < |rest| ==> rows[i + 1] == rest[i];
        rows
      else rest
  }

  /** Filtering distributes over concatenation, so the table keeps the
      order of the utilisations it is given. */
  lemma {:induction false} ProjectionTableAppend(fr: FinancialResult, a: seq<real>, b: seq<real>)
    ensures ProjectionTable(fr, a + b) == ProjectionTable(fr, a) + ProjectionTable(fr, b)
  {
    if |a| == 0 {
      assert a + b == b;
    } else {
      assert (a + b)[1..] == a[1..] + b;
      ProjectionTableAppend(fr, a[1..], b);
    }
  }

  /** The utilisations the annual projections table is drawn at. */
  function TableRates(fr: FinancialResult): seq<real> {
    [20.0, fr.breakEvenUtilisation, 30.0, 40.0]
  }

  function ProjectionRows(fr: FinancialResult): seq<Row> {
    ProjectionTable(fr, TableRates(fr))
  }

  /** The table has a break-even row, second of four, exactly when the
      break-even utilisation is positive; otherwise it has the three fixed
      rows only. */
  lemma ProjectionRowsShape(fr: FinancialResult)
    ensures fr.breakEvenUtilisation > 0.0 ==>
              ProjectionRows(fr) == [RowAt(fr, 20.0), RowAt(fr, fr.breakEvenUtilisation), RowAt(fr, 30.0), RowAt(fr, 40.0)]
    ensures fr.breakEvenUtilisation <= 0.0 ==>
              ProjectionRows(fr) == [RowAt(fr, 20.0), RowAt(fr, 30.0), RowAt(fr, 40.0)]
  {
    var r := TableRates(fr);
    assert r == [20.0] + [fr.breakEvenUtilisation] + [30.0] + [40.0];
    ProjectionTableAppend(fr, [20.0] + [fr.breakEvenUtilisation] + [30.0], [40.0]);
    ProjectionTableAppend(fr, [20.0] + [fr.breakEvenUtilisation], [30.0]);
    ProjectionTableAppend(fr, [20.0], [fr.breakEvenUtilisation]);
  }

  /** A positive break-even utilisation appears in the table as a row
      whose profit is exactly zero. */
  lemma BreakEvenRowProfitZero(fr: FinancialResult)
    requires Consistent(fr)
    requires fr.breakEvenUtilisation > 0.0
    ensures |ProjectionRows(fr)| == 4
    ensures ProjectionRows(fr)[1].utilisation == fr.breakEvenUtilisation
    ensures ProjectionRows(fr)[1].profit == 0.0
  {
    ProjectionRowsShape(fr);
    assert fr.totalAvailableDays > 0;
    assert fr.breakEvenDays != 0.0;
    ProfitZeroAtBreakEven(fr);
  }
}
