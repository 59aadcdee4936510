/** The business configuration the calculator reads from its sidebar and
    pricing widgets, lifted from loose globals into one immutable record,
    together with the widget bounds and the rental-mix check. */
module Inputs {

  /** Hire price of one drone model at each of the three rental tiers. */
  datatype Prices = Prices(daily: real, weekend: real, weekly: real)
  {
    /** Every widget is declared with a lower bound of zero. */
    predicate InRange() {
      daily >= 0.0 && weekend >= 0.0 && weekly >= 0.0
    }

    /** The lowest of the three tier prices. */
    function Cheapest(): (lo: real)
      ensures lo <= daily && lo <= weekend && lo <= weekly
      ensures lo == daily || lo == weekend || lo == weekly
    {
      if daily <= weekend && daily <= weekly then daily
      else if weekend <= weekly then weekend
      else weekly
    }

    /** The highest of the three tier prices. */
    function Dearest(): (hi: real)
      ensures hi >= daily && hi >= weekend && hi >= weekly
      ensures hi == daily || hi == weekend || hi == weekly
    {
      if daily >= weekend && daily >= weekly then daily
      else if weekend >= weekly then weekend
      else weekly
    }
  }

  /** Assumed share of bookings, in whole percent, at each tier. */
  datatype Mix = Mix(daily: nat, weekend: nat, weekly: nat)
  {
    /** The mix widgets accept 0 to 100. */
    predicate InRange() {
      daily <= 100 && weekend <= 100 && weekly <= 100
    }

    function Total(): nat {
      daily + weekend + weekly
    }
  }

  /** All user inputs of one calculation pass. Quantities and the mix are
      integer widgets; every amount of money and the processing fee (a
      percentage of revenue) is a real number. */
  datatype Config = Config(
    // fleet and one-off equipment
    flipQty: nat, mini4Qty: nat,
    flipCost: real, mini4Cost: real,
    caseCost: real, batteryCost: real, filterCost: real,
    webCost: real, legalCost: real,
    // annual operating costs
    platformCost: real, domainCost: real, insuranceCost: real, caaCost: real,
    marketingCost: real, repairsCost: real, shippingSuppliesCost: real,
    // per-rental variable costs
    shippingCost: real, processingFee: real,
    // pricing and mix
    flipPrices: Prices, mini4Prices: Prices,
    mix: Mix)
  {
    /** The bounds every input widget enforces: nothing negative, and each
        mix field at most 100. */
    predicate InRange() {
      && flipCost >= 0.0 && mini4Cost >= 0.0
      && caseCost >= 0.0 && batteryCost >= 0.0 && filterCost >= 0.0
      && webCost >= 0.0 && legalCost >= 0.0
      && platformCost >= 0.0 && domainCost >= 0.0 && insuranceCost >= 0.0
      && caaCost >= 0.0 && marketingCost >= 0.0 && repairsCost >= 0.0
      && shippingSuppliesCost >= 0.0
      && shippingCost >= 0.0 && processingFee >= 0.0
      && flipPrices.InRange() && mini4Prices.InRange()
      && mix.InRange()
    }
  }

  /** Outcome of the rental-mix check shown under the mix widgets. */
  datatype MixStatus = MixValid | MixInvalid(total: nat)

  /** The calculator accepts a mix only when the three percentages add up
      to exactly 100; otherwise it reports the total it found. */
  function CheckMix(m: Mix): (s: MixStatus)
    ensures s.MixValid? <==> m.Total() == 100
    ensures s.MixInvalid? ==> s.total == m.Total() && s.total != 100
  {
    var total := m.Total();
    if total != 100 then MixInvalid(total) else MixValid
  }

  /** The values the widgets start with. */
  const Defaults: Config := Config(
    flipQty := 3, mini4Qty := 1,
    flipCost := 659.0, mini4Cost := 979.0,
    caseCost := 200.0, batteryCost := 236.0, filterCost := 180.0,
    webCost := 2500.0, legalCost := 500.0,
    platformCost := 228.0, domainCost := 30.0, insuranceCost := 750.0, caaCost := 11.79,
    marketingCost := 6000.0, repairsCost := 295.60, shippingSuppliesCost := 1200.0,
    shippingCost := 32.0, processingFee := 1.5,
    flipPrices := Prices(49.0, 85.0, 165.0), mini4Prices := Prices(65.0, 109.0, 210.0),
    mix := Mix(40, 40, 20))
}
