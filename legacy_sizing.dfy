// The older quarter-Kelly sizing kept at the repository root. It has no
// liquidity cap and no one-contract minimum, and it divides dollars by a
// price in dollars after multiplying by 100, so its counts are about a
// hundred times those of the library sizing.

module LegacySizing {
  import opened Prelude
  import opened Utils
  import Sizing

  datatype LegacyPositionSizing = LegacyPositionSizing(
    contracts: int,
    fraction: real,
    edge: real,
    kellyFull: Option<real>,
    dollarRisk: Option<real>)

  /** Math.round(x * 10^k) / 10^k */
  function RoundTo(x: real, scale: real): real
    requires scale > 0.0
  {
    Round(x * scale) as real / scale
  }

  /** Rounding to the k-th decimal moves a value by at most half a unit there. */
  lemma RoundToWithin(x: real, scale: real)
    requires scale > 0.0
    ensures -0.5 / scale < RoundTo(x, scale) - x <= 0.5 / scale
  {
    var k := Round(x * scale);
    assert x * scale - 0.5 < k as real <= x * scale + 0.5;
    assert (x * scale - 0.5) / scale < k as real / scale <= (x * scale + 0.5) / scale;
  }

  /** A fraction in [0, 1] stays in [0, 1] when rounded to three decimals. */
  lemma RoundToThousandthsUnit(x: real)
    requires 0.0 <= x <= 1.0
    ensures 0.0 <= RoundTo(x, 1000.0) <= 1.0
  {
    RoundMonotone(0.0, x * 1000.0);
    RoundMonotone(x * 1000.0, 1000.0);
    RoundUnique(0.0, 0);
    RoundUnique(1000.0, 1000);
  }

  /** floor(dollars * 100 / price): the count of the root module. */
  function LegacyContracts(bankroll: real, fraction: real, pMarket: real): int
    requires pMarket != 0.0
  {
    (bankroll * fraction * 100.0 / pMarket).Floor
  }

  /** Math.round(contracts * price) / 100: the dollar risk of the root module. */
  function LegacyDollarRisk(contracts: int, price: real): real
  {
    Round(contracts as real * price) as real / 100.0
  }

  /**
   * `positionSize(bankroll, pTrue, pMarket, maxPct)` of the root module.
   * Without an edge: zero contracts, zero fraction and edge, and no
   * kellyFull or dollarRisk fields. With an edge: the floor of 100 times
   * the capped dollar budget over the price, never negative for a
   * non-negative bankroll; the fraction, edge and full Kelly fraction
   * rounded to 4, 3 and 3 decimals, and the dollar risk the count times the
   * price rounded to a whole number and divided by 100. A price of zero
   * with an edge is excluded: there the root module divides by zero.
   */
  function LegacyPositionSize(bankroll: real, pTrue: real, pMarket: real, maxPct: real): (r: LegacyPositionSizing)
    requires pTrue <= 1.0 && (pTrue > pMarket ==> pMarket != 0.0)
    ensures pTrue <= pMarket ==> r == LegacyPositionSizing(0, 0.0, 0.0, None, None)
    ensures pTrue > pMarket ==>
      && r.contracts == LegacyContracts(bankroll, MinR(Sizing.QuarterKelly(pTrue, pMarket), maxPct), pMarket)
      && r.fraction == RoundTo(MinR(Sizing.QuarterKelly(pTrue, pMarket), maxPct), 10000.0)
      && -0.00005 < r.fraction - MinR(Sizing.QuarterKelly(pTrue, pMarket), maxPct) <= 0.00005
      && r.edge == RoundTo(pTrue - pMarket, 1000.0)
      && -0.0005 < r.edge - (pTrue - pMarket) <= 0.0005
      && r.kellyFull == Some(RoundTo(Sizing.KellyFraction(pTrue, pMarket), 1000.0))
      && 0.0 <= r.kellyFull.value <= 1.0
      && r.dollarRisk == Some(LegacyDollarRisk(r.contracts, pMarket))
  {
    var f := Sizing.QuarterKelly(pTrue, pMarket);
    if f <= 0.0 then LegacyPositionSizing(0, 0.0, 0.0, None, None)
    else
      var edge := pTrue - pMarket;
      var fraction := MinR(f, maxPct);
      var contracts := LegacyContracts(bankroll, fraction, pMarket);
      RoundToWithin(fraction, 10000.0);
      RoundToWithin(edge, 1000.0);
      RoundToThousandthsUnit(Sizing.KellyFraction(pTrue, pMarket));
      LegacyPositionSizing(
        contracts,
        RoundTo(fraction, 10000.0),
        RoundTo(edge, 1000.0),
        Some(RoundTo(Sizing.KellyFraction(pTrue, pMarket), 1000.0)),
        Some(LegacyDollarRisk(contracts, pMarket)))
  }

  /** floor(100 x) lies between 100 floor(x) and 100 floor(x) + 99. */
  lemma FloorHundredfold(x: real)
    ensures 100 * x.Floor <= (100.0 * x).Floor <= 100 * x.Floor + 99
  {
    var k := x.Floor;
    assert k as real <= x < k as real + 1.0;
    assert (100 * k) as real <= 100.0 * x < (100 * k + 100) as real;
  }

  /**
   * The legacy count is a hundred times the library's uncapped Kelly count
   * (before its one-contract minimum), up to the flooring: for the same
   * budget, 100 k <= legacy <= 100 k + 99 where k is the floor of the dollar
   * budget over the price.
   */
  lemma LegacyIsHundredfold(bankroll: real, fraction: real, pMarket: real)
    requires pMarket != 0.0
    ensures var k := (bankroll * fraction / pMarket).Floor;
      100 * k <= LegacyContracts(bankroll, fraction, pMarket) <= 100 * k + 99
  {
    var x := bankroll * fraction / pMarket;
    assert bankroll * fraction * 100.0 / pMarket == 100.0 * x;
    FloorHundredfold(x);
  }
}
