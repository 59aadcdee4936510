/** The break-even engine: first-year cost aggregation, the mix- and
    fleet-weighted average daily revenue, the per-rental variable cost and
    contribution margin, and the break-even days and utilisation. Every
    division is guarded and yields 0 instead of failing. */
module Financials {
  import opened Inputs

  /** Rentable days per drone per year. */
  const DaysPerYear: nat := 365

  /** Everything the engine derives from one configuration. */
  datatype FinancialResult = FinancialResult(
    totalFirstYearCosts: real,
    weightedAvgRevenue: real,
    contributionMargin: real,
    breakEvenDays: real,
    breakEvenUtilisation: real,
    totalDrones: nat,
    totalAvailableDays: nat,
    variableCostPerRental: real,
    opex: real,
    capex: real)

  /** The relations that tie the fields of a result together: first-year
      cost is capex plus opex, the margin is revenue less variable cost,
      every drone is available every day of the year, and the break-even
      figures are the guarded quotients, stated here by multiplication. */
  predicate Consistent(fr: FinancialResult) {
    && fr.totalFirstYearCosts == fr.capex + fr.opex
    && fr.contributionMargin == fr.weightedAvgRevenue - fr.variableCostPerRental
    && fr.totalAvailableDays == fr.totalDrones * DaysPerYear
    && (fr.contributionMargin > 0.0 ==> fr.breakEvenDays * fr.contributionMargin == fr.totalFirstYearCosts)
    && (fr.contributionMargin <= 0.0 ==> fr.breakEvenDays == 0.0)
    && (fr.totalAvailableDays > 0 ==>
          fr.breakEvenUtilisation * fr.totalAvailableDays as real == fr.breakEvenDays * 100.0)
    && (fr.totalAvailableDays == 0 ==> fr.breakEvenUtilisation == 0.0)
  }

  function TotalDrones(c: Config): nat {
    c.flipQty + c.mini4Qty
  }

  /** Purchase price of the drones themselves. */
  function FlipHardware(c: Config): real {
    c.flipQty as real * c.flipCost
  }

  function Mini4Hardware(c: Config): real {
    c.mini4Qty as real * c.mini4Cost
  }

  /** Hard cases, spare batteries and ND filters, each a lump sum. */
  function Accessories(c: Config): real {
    c.caseCost + c.batteryCost + c.filterCost
  }

  function WebsiteAndLegal(c: Config): real {
    c.webCost + c.legalCost
  }

  /** One-off capital expenditure. */
  function Capex(c: Config): real {
    FlipHardware(c) + Mini4Hardware(c) + c.caseCost + c.batteryCost + c.filterCost + c.webCost + c.legalCost
  }

  /** The seven annual operating costs. */
  function Opex(c: Config): real {
    c.platformCost + c.domainCost + c.insuranceCost + c.caaCost
      + c.marketingCost + c.repairsCost + c.shippingSuppliesCost
  }

  /** A whole percentage as a fraction. */
  function Fraction(pct: nat): real {
    pct as real / 100.0
  }

  /** Expected price of one rental day of a model under the rental mix. */
  function AvgRevenue(p: Prices, m: Mix): real {
    p.daily * Fraction(m.daily) + p.weekend * Fraction(m.weekend) + p.weekly * Fraction(m.weekly)
  }

  /** A model's share of the fleet; 0 when the fleet is empty. */
  function FleetRatio(qty: nat, total: nat): (r: real)
    ensures total > 0 ==> r * total as real == qty as real
    ensures total == 0 ==> r == 0.0
    ensures qty <= total ==> 0.0 <= r <= 1.0
  {
    if total > 0 then qty as real / total as real else 0.0
  }

  /** Average daily revenue of the fleet: each model's mix average weighted
      by its share of the fleet. */
  function WeightedAvgRevenue(c: Config): real {
    var total := TotalDrones(c);
    AvgRevenue(c.flipPrices, c.mix) * FleetRatio(c.flipQty, total)
      + AvgRevenue(c.mini4Prices, c.mix) * FleetRatio(c.mini4Qty, total)
  }

  /** Payment processing charge on one rental day, the fee being a
      percentage of revenue. */
  function ProcessingCost(revenue: real, feePct: real): real {
    revenue * (feePct / 100.0)
  }

  /** Cost of one rental day: shipping plus the processing charge. */
  function VariableCostPerRental(c: Config): real {
    c.shippingCost + ProcessingCost(WeightedAvgRevenue(c), c.processingFee)
  }

  /** Rental days needed to recover the first-year costs; 0 when a rental
      day does not earn a positive margin. */
  function BreakEvenDays(costs: real, margin: real): (days: real)
    ensures margin > 0.0 ==> days * margin == costs
    ensures margin <= 0.0 ==> days == 0.0
    ensures margin > 0.0 && costs >= 0.0 ==> days >= 0.0
  {
    if margin > 0.0 then costs / margin else 0.0
  }

  /** Break-even days as a percentage of the days the fleet can be hired;
      0 when the fleet is empty. */
  function BreakEvenUtilisation(days: real, available: nat): (pct: real)
    ensures available > 0 ==> pct * available as real == days * 100.0
    ensures available == 0 ==> pct == 0.0
    ensures days >= 0.0 ==> pct >= 0.0
  {
    if available > 0 then days / available as real * 100.0 else 0.0
  }

  /** The engine proper. */
  function CalculateFinancials(c: Config): (fr: FinancialResult)
    ensures Consistent(fr)
    ensures fr.totalDrones == c.flipQty + c.mini4Qty
    ensures fr.capex == Capex(c) && fr.opex == Opex(c)
    ensures fr.weightedAvgRevenue == WeightedAvgRevenue(c)
    ensures fr.variableCostPerRental == c.shippingCost + fr.weightedAvgRevenue * c.processingFee / 100.0
  {
    var totalDrones := TotalDrones(c);
    var capex := Capex(c);
    var opex := Opex(c);
    var totalFirstYearCosts := capex + opex;
    var weighted := WeightedAvgRevenue(c);
    var variable := VariableCostPerRental(c);
    var margin := weighted - variable;
    var beDays := BreakEvenDays(totalFirstYearCosts, margin);
    var available := totalDrones * DaysPerYear;
    var beUtil := BreakEvenUtilisation(beDays, available);
    FinancialResult(
      totalFirstYearCosts := totalFirstYearCosts,
      weightedAvgRevenue := weighted,
      contributionMargin := margin,
      breakEvenDays := beDays,
      breakEvenUtilisation := beUtil,
      totalDrones := totalDrones,
      totalAvailableDays := available,
      variableCostPerRental := variable,
      opex := opex,
      capex := capex)
  }

  // ---------------------------------------------------------------------
  // Properties of the engine

  /** a <= b scaled by a non-negative factor. */
  lemma ScaleLe(a: real, b: real, k: real)
    requires a <= b && k >= 0.0
    ensures a * k <= b * k
  {
  }

  /** A convex combination of three values is bounded below by any lower
      bound of the three. */
  lemma ConvexLowerBound(x: real, y: real, z: real, fx: real, fy: real, fz: real, lo: real)
    requires fx >= 0.0 && fy >= 0.0 && fz >= 0.0 && fx + fy + fz == 1.0
    requires lo <= x && lo <= y && lo <= z
    ensures lo <= x * fx + y * fy + z * fz
  {
    var dx, dy, dz := (x - lo) * fx, (y - lo) * fy, (z - lo) * fz;
    assert dx >= 0.0 && dy >= 0.0 && dz >= 0.0;
    assert x * fx + y * fy + z * fz == lo * (fx + fy + fz) + dx + dy + dz;
  }

  /** ... and above by any upper bound of the three. */
  lemma ConvexUpperBound(x: real, y: real, z: real, fx: real, fy: real, fz: real, hi: real)
    requires fx >= 0.0 && fy >= 0.0 && fz >= 0.0 && fx + fy + fz == 1.0
    requires x <= hi && y <= hi && z <= hi
    ensures x * fx + y * fy + z * fz <= hi
  {
    var dx, dy, dz := (hi - x) * fx, (hi - y) * fy, (hi - z) * fz;
    assert dx >= 0.0 && dy >= 0.0 && dz >= 0.0;
    assert x * fx + y * fy + z * fz == hi * (fx + fy + fz) - dx - dy - dz;
  }

  /** Under a mix that sums to 100, a model's average daily revenue lies
      between its cheapest and its dearest tier price. */
  lemma AvgRevenueWithinTiers(p: Prices, m: Mix)
    requires m.Total() == 100
    ensures p.Cheapest() <= AvgRevenue(p, m) <= p.Dearest()
  {
    var fd, fe, fw := Fraction(m.daily), Fraction(m.weekend), Fraction(m.weekly);
    assert fd + fe + fw == 1.0;
    ConvexLowerBound(p.daily, p.weekend, p.weekly, fd, fe, fw, p.Cheapest());
    ConvexUpperBound(p.daily, p.weekend, p.weekly, fd, fe, fw, p.Dearest());
  }

  /** With at least one drone the two fleet shares add up to one. */
  lemma FleetRatiosSumToOne(c: Config)
    requires TotalDrones(c) > 0
    ensures FleetRatio(c.flipQty, TotalDrones(c)) + FleetRatio(c.mini4Qty, TotalDrones(c)) == 1.0
  {
    var t := TotalDrones(c) as real;
    var rf, rm := FleetRatio(c.flipQty, TotalDrones(c)), FleetRatio(c.mini4Qty, TotalDrones(c));
    assert (rf + rm) * t == t;
  }

  /** With at least one drone the fleet average lies between the two
      model averages. */
  lemma WeightedRevenueBetweenModels(c: Config)
    requires TotalDrones(c) > 0
    ensures var a, b := AvgRevenue(c.flipPrices, c.mix), AvgRevenue(c.mini4Prices, c.mix);
            (if a <= b then a else b) <= WeightedAvgRevenue(c) <= (if a <= b then b else a)
  {
    var a, b := AvgRevenue(c.flipPrices, c.mix), AvgRevenue(c.mini4Prices, c.mix);
    var rf, rm := FleetRatio(c.flipQty, TotalDrones(c)), FleetRatio(c.mini4Qty, TotalDrones(c));
    FleetRatiosSumToOne(c);
    var lo, hi := if a <= b then a else b, if a <= b then b else a;
    ScaleLe(lo, a, rf);
    ScaleLe(lo, b, rm);
    ScaleLe(a, hi, rf);
    ScaleLe(b, hi, rm);
    assert lo * rf + lo * rm == lo * (rf + rm);
    assert hi * rf + hi * rm == hi * (rf + rm);
  }

  /** An empty fleet makes every fleet-derived figure 0 and never divides
      by zero: no revenue, no available days, no break-even utilisation. */
  lemma EmptyFleet(c: Config)
    requires c.flipQty == 0 && c.mini4Qty == 0
    ensures var fr := CalculateFinancials(c);
            && FleetRatio(c.flipQty, fr.totalDrones) == 0.0
            && FleetRatio(c.mini4Qty, fr.totalDrones) == 0.0
            && fr.weightedAvgRevenue == 0.0
            && fr.totalAvailableDays == 0
            && fr.breakEvenUtilisation == 0.0
            && fr.contributionMargin == -c.shippingCost
  {
  }

  /** The variable cost is shipping plus the processing share of revenue,
      so the margin is revenue net of the fee, less shipping. */
  lemma MarginNetOfFee(c: Config)
    ensures var fr := CalculateFinancials(c);
            fr.contributionMargin == fr.weightedAvgRevenue * (1.0 - c.processingFee / 100.0) - c.shippingCost
  {
  }

  /** A positive margin needs revenue, and revenue needs a drone: with
      non-negative shipping, a positive margin implies a non-empty fleet. */
  lemma PositiveMarginNeedsFleet(c: Config)
    requires c.shippingCost >= 0.0
    requires CalculateFinancials(c).contributionMargin > 0.0
    ensures CalculateFinancials(c).totalDrones > 0
    ensures CalculateFinancials(c).totalAvailableDays > 0
  {
    if TotalDrones(c) == 0 {
      EmptyFleet(c);
    }
  }

  /** With non-negative prices the fleet's average daily revenue is
      non-negative. */
  lemma WeightedRevenueNonNegative(c: Config)
    requires c.flipPrices.InRange() && c.mini4Prices.InRange()
    ensures WeightedAvgRevenue(c) >= 0.0
  {
    var t := TotalDrones(c);
    var a, b := AvgRevenue(c.flipPrices, c.mix), AvgRevenue(c.mini4Prices, c.mix);
    assert a >= 0.0;
    assert b >= 0.0;
    ScaleLe(0.0, a, FleetRatio(c.flipQty, t));
    ScaleLe(0.0, b, FleetRatio(c.mini4Qty, t));
  }

  /** Within the widget bounds every cost aggregate, the fleet revenue and
      the break-even figures are non-negative. */
  lemma CostsNonNegative(c: Config)
    requires c.InRange()
    ensures var fr := CalculateFinancials(c);
            fr.capex >= 0.0 && fr.opex >= 0.0 && fr.totalFirstYearCosts >= fr.capex
            && fr.weightedAvgRevenue >= 0.0 && fr.breakEvenDays >= 0.0
            && fr.breakEvenUtilisation >= 0.0
  {
    WeightedRevenueNonNegative(c);
    assert FlipHardware(c) >= 0.0 && Mini4Hardware(c) >= 0.0;
  }

  /** Break-even utilisation is positive exactly when the margin is
      positive and there are first-year costs to recover. */
  lemma BreakEvenUtilisationPositiveIff(c: Config)
    requires c.InRange()
    ensures var fr := CalculateFinancials(c);
            fr.breakEvenUtilisation > 0.0 <==> fr.contributionMargin > 0.0 && fr.totalFirstYearCosts > 0.0
  {
    var fr := CalculateFinancials(c);
    CostsNonNegative(c);
    if fr.contributionMargin > 0.0 {
      PositiveMarginNeedsFleet(c);
    }
  }
}
