// Quarter-Kelly position sizing for binary contracts, with the liquidity
// cap (a tenth of daily volume) and the hard cap of 20 contracts per trade.

module Sizing {
  import opened Prelude
  import opened Utils

  /** Cost per contract charged against every edge (exchange fee and spread). */
  const TransactionCost: real := 0.04
  /** Contract cap used when the market reports no volume. */
  const DefaultMaxContracts: int := 20
  /** Absolute cap on contracts per trade. */
  const HardMaxContracts: int := 20
  /** Default cap on the fraction of the bankroll put at risk. */
  const DefaultMaxPct: real := 0.05

  /**
   * Full Kelly fraction for buying at `pMarket` a contract that pays 1 with
   * probability `pTrue`: zero exactly when there is no edge, otherwise the
   * fraction f with f * (1 - pMarket) = pTrue - pMarket, at most 1.
   */
  function KellyFraction(pTrue: real, pMarket: real): (f: real)
    requires pTrue <= 1.0
    ensures f == 0.0 <==> pTrue <= pMarket
    ensures pTrue > pMarket ==> 0.0 < f <= 1.0 && f * (1.0 - pMarket) == pTrue - pMarket
  {
    if pTrue <= pMarket then 0.0 else (pTrue - pMarket) / (1.0 - pMarket)
  }

  /** A larger estimated probability never gives a smaller Kelly fraction. */
  lemma KellyMonotone(p1: real, p2: real, pMarket: real)
    requires p1 <= p2 <= 1.0
    ensures KellyFraction(p1, pMarket) <= KellyFraction(p2, pMarket)
  {
    if p1 > pMarket {
      var d := 1.0 - pMarket;
      assert d > 0.0;
      QuotientMonotone(p1 - pMarket, p2 - pMarket, d);
    }
  }

  /** A quarter of the Kelly fraction, between 0 and 1/4. */
  function QuarterKelly(pTrue: real, pMarket: real): (q: real)
    requires pTrue <= 1.0
    ensures 4.0 * q == KellyFraction(pTrue, pMarket)
    ensures 0.0 <= q <= 0.25
  {
    KellyFraction(pTrue, pMarket) / 4.0
  }

  datatype PositionSizing = PositionSizing(
    contracts: int,
    fraction: real,
    edge: real,
    kellyFull: real,
    dollarRisk: real,
    liquidityCapped: bool)

  /** The cost of the contracts, to the cent. */
  function DollarRisk(contracts: int, pMarket: real): real
  {
    Round2(contracts as real * pMarket)
  }

  const NoPosition := PositionSizing(0, 0.0, 0.0, 0.0, 0.0, false)

  /** Contracts the capped Kelly fraction of the bankroll buys, at least one. */
  function KellyContracts(bankroll: real, fraction: real, pMarket: real): int
    requires pMarket > 0.0
  {
    MaxI(1, (bankroll * fraction / pMarket).Floor)
  }

  /** The liquidity cap: a tenth of the volume when known, never below 1 nor above 20. */
  function MaxContracts(volume: Option<real>): (m: int)
    ensures 1 <= m <= HardMaxContracts
    ensures volume.None? ==> m == DefaultMaxContracts
    ensures volume.Some? ==> m == MinI(HardMaxContracts, MaxI(1, (volume.value * 0.10).Floor))
  {
    var volumeCap := if volume.Some? then (volume.value * 0.10).Floor else DefaultMaxContracts;
    MinI(HardMaxContracts, MaxI(1, volumeCap))
  }

  /**
   * `positionSize(bankroll, pTrue, pMarket, maxPct, {volume})`. Without an
   * edge nothing is bought. With an edge the fraction is the quarter-Kelly
   * fraction capped at `maxPct`; the count is the Kelly count (at least one)
   * cut to the liquidity cap; `liquidityCapped` says the cut happened; more
   * than one contract is bought only within the capped dollar budget. At a
   * price of zero the budget over the price is infinite: a positive budget
   * buys the liquidity cap at no cost and reports the cut, a negative one
   * buys the single contract the sizing always grants, uncut. A zero budget
   * at a price of zero gives 0 / 0, no number at all, which no cut reports
   * and no `contracts <= 0` test rejects; the model buys one contract there.
   */
  function PositionSize(bankroll: real, pTrue: real, pMarket: real, maxPct: real, volume: Option<real>): (r: PositionSizing)
    requires pTrue <= 1.0 && pMarket >= 0.0
    ensures pTrue <= pMarket ==> r == NoPosition
    ensures pTrue > pMarket == 0.0 ==>
      && r.edge == pTrue && r.kellyFull == pTrue && r.dollarRisk == 0.0
      && r.fraction == MinR(QuarterKelly(pTrue, pMarket), maxPct)
      && 1 <= r.contracts <= HardMaxContracts
      && (r.liquidityCapped <==> bankroll * r.fraction > 0.0)
    ensures pTrue > pMarket == 0.0 && bankroll * MinR(QuarterKelly(pTrue, pMarket), maxPct) > 0.0 ==>
      r == PositionSizing(MaxContracts(volume), MinR(QuarterKelly(pTrue, pMarket), maxPct), pTrue, pTrue, 0.0, true)
    ensures pTrue > pMarket == 0.0 && bankroll * MinR(QuarterKelly(pTrue, pMarket), maxPct) < 0.0 ==>
      r == PositionSizing(1, MinR(QuarterKelly(pTrue, pMarket), maxPct), pTrue, pTrue, 0.0, false)
    ensures pTrue > pMarket > 0.0 ==>
      && r.edge == pTrue - pMarket
      && r.kellyFull == KellyFraction(pTrue, pMarket)
      && r.fraction == MinR(QuarterKelly(pTrue, pMarket), maxPct)
      && 1 <= r.contracts <= HardMaxContracts
      && r.contracts <= MaxContracts(volume)
      && (volume.Some? ==> r.contracts <= MaxI(1, (volume.value * 0.10).Floor))
      && (r.liquidityCapped <==> r.contracts < KellyContracts(bankroll, r.fraction, pMarket))
      && (!r.liquidityCapped ==> r.contracts == KellyContracts(bankroll, r.fraction, pMarket))
      && r.dollarRisk == DollarRisk(r.contracts, pMarket)
  {
    var f := QuarterKelly(pTrue, pMarket);
    if f <= 0.0 then NoPosition
    else
      var fraction := MinR(f, maxPct);
      if pMarket == 0.0 then
        // a free contract: budget / 0 is Infinity, so the liquidity cap
        // decides, or -Infinity, so the one-contract minimum does
        if bankroll * fraction > 0.0 then
          PositionSizing(MaxContracts(volume), fraction, pTrue, KellyFraction(pTrue, pMarket), 0.0, true)
        else
          PositionSizing(1, fraction, pTrue, KellyFraction(pTrue, pMarket), 0.0, false)
      else
        var kellyContracts := KellyContracts(bankroll, fraction, pMarket);
        var contracts := MinI(kellyContracts, MaxContracts(volume));
        PositionSizing(
          contracts,
          fraction,
          pTrue - pMarket,
          KellyFraction(pTrue, pMarket),
          DollarRisk(contracts, pMarket),
          contracts < kellyContracts)
  }

  /**
   * The dollar budget (bankroll times the capped fraction) is respected
   * unless the single contract the sizing always grants costs more.
   */
  lemma PositionSizeWithinBudget(bankroll: real, pTrue: real, pMarket: real, maxPct: real, volume: Option<real>)
    requires pTrue <= 1.0 && pMarket > 0.0
    ensures var r := PositionSize(bankroll, pTrue, pMarket, maxPct, volume);
      r.contracts > 1 ==> r.contracts as real * pMarket <= bankroll * r.fraction
  {
    var r := PositionSize(bankroll, pTrue, pMarket, maxPct, volume);
    WithinKelly(bankroll, pTrue, pMarket, maxPct, volume);
    if r.contracts > 1 {
      BudgetRespected(bankroll, r.fraction, pMarket, r.contracts);
    }
  }

  /** More than one contract is never more than the Kelly count. */
  lemma WithinKelly(bankroll: real, pTrue: real, pMarket: real, maxPct: real, volume: Option<real>)
    requires pTrue <= 1.0 && pMarket > 0.0
    ensures var r := PositionSize(bankroll, pTrue, pMarket, maxPct, volume);
      r.contracts > 1 ==> r.contracts <= KellyContracts(bankroll, r.fraction, pMarket)
  {
  }

  /** Any count up to the floor of budget/price costs no more than the budget. */
  lemma BudgetRespected(bankroll: real, fraction: real, pMarket: real, n: int)
    requires pMarket > 0.0
    requires 1 < n <= KellyContracts(bankroll, fraction, pMarket)
    ensures n as real * pMarket <= bankroll * fraction
  {
    var x := bankroll * fraction / pMarket;
    assert n as real <= x;
    assert n as real * pMarket <= x * pMarket;
  }

  lemma KellyContractsMonotone(b1: real, b2: real, fraction: real, pMarket: real)
    requires pMarket > 0.0 && fraction >= 0.0 && b1 <= b2
    ensures KellyContracts(b1, fraction, pMarket) <= KellyContracts(b2, fraction, pMarket)
  {
    assert b1 * fraction <= b2 * fraction;
    assert b1 * fraction / pMarket <= b2 * fraction / pMarket;
  }

  /** A larger bankroll never buys fewer contracts. */
  lemma PositionSizeMonotoneInBankroll(b1: real, b2: real, pTrue: real, pMarket: real, maxPct: real, volume: Option<real>)
    requires pTrue <= 1.0 && pMarket > 0.0 && maxPct >= 0.0 && b1 <= b2
    ensures PositionSize(b1, pTrue, pMarket, maxPct, volume).contracts
         <= PositionSize(b2, pTrue, pMarket, maxPct, volume).contracts
  {
    if pTrue > pMarket {
      var fr := MinR(QuarterKelly(pTrue, pMarket), maxPct);
      KellyContractsMonotone(b1, b2, fr, pMarket);
    }
  }

  /**
   * Worked example: $1000, 70% against a 50¢ market. Full Kelly 0.4, the
   * 5% cap binds ($50 = 100 contracts) and the hard cap cuts that to 20.
   */
  lemma PositionSizeExample()
    ensures PositionSize(1000.0, 0.7, 0.5, DefaultMaxPct, None)
         == PositionSizing(20, 0.05, 0.2, 0.4, 10.0, true)
  {
    assert KellyFraction(0.7, 0.5) == 0.4;
    assert KellyContracts(1000.0, 0.05, 0.5) == 100;
    assert Round2(10.0) == 10.0 by { WholeCentsInt(10); Round2Exact(10.0); }
  }
}
