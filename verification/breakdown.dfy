/** The cost breakdown behind the cost pie chart: five labelled slices
    that together make up the first-year cost. */
module Breakdown {
  import opened Inputs
  import opened Financials

  datatype Slice = Slice(name: string, amount: real)

  /** Sum of the slice amounts. */
  function Total(slices: seq<Slice>): real {
    if |slices| == 0 then 0.0 else slices[0].amount + Total(slices[1..])
  }

  /** Flip hardware, Mini 4 Pro hardware, accessories, website and legal,
      and the annual opex taken from the engine's result. */
  function CostBreakdown(c: Config, fr: FinancialResult): (slices: seq<Slice>)
    ensures |slices| == 5
    ensures slices[4].amount == fr.opex
  {
    [ Slice("DJI Flips", FlipHardware(c)),
      Slice("DJI Mini 4 Pros", Mini4Hardware(c)),
      Slice("Accessories", Accessories(c)),
      Slice("Website & Legal", WebsiteAndLegal(c)),
      Slice("Annual Opex", fr.opex) ]
  }

  /** The slices partition the first-year cost: given a result whose
      capex is this configuration's capex, they add up to exactly capex
      plus opex. */
  lemma BreakdownSumsToFirstYearCosts(c: Config, fr: FinancialResult)
    requires fr.capex == Capex(c) && fr.totalFirstYearCosts == fr.capex + fr.opex
    ensures Total(CostBreakdown(c, fr)) == fr.totalFirstYearCosts
  {
    var s := CostBreakdown(c, fr);
    assert Total(s[4..]) == fr.opex;
    assert Total(s[3..]) == WebsiteAndLegal(c) + fr.opex;
    assert Total(s[2..]) == Accessories(c) + WebsiteAndLegal(c) + fr.opex;
    assert Total(s[1..]) == Mini4Hardware(c) + Accessories(c) + WebsiteAndLegal(c) + fr.opex;
  }

  /** The four one-off slices alone add up to capex. */
  lemma CapexSlicesSumToCapex(c: Config, fr: FinancialResult)
    ensures Total(CostBreakdown(c, fr)[..4]) == Capex(c)
  {
    var s := CostBreakdown(c, fr)[..4];
    assert Total(s[3..]) == WebsiteAndLegal(c);
    assert Total(s[2..]) == Accessories(c) + WebsiteAndLegal(c);
    assert Total(s[1..]) == Mini4Hardware(c) + Accessories(c) + WebsiteAndLegal(c);
  }

  /** Within the widget bounds no slice is negative, so each slice is a
      genuine share of the pie. */
  lemma SlicesNonNegative(c: Config, fr: FinancialResult)
    requires c.InRange() && fr.opex == Opex(c)
    ensures forall i :: 0 <= i < 5 ==> CostBreakdown(c, fr)[i].amount >= 0.0
  {
    assert FlipHardware(c) >= 0.0 && Mini4Hardware(c) >= 0.0;
  }
}
