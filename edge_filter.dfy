// The per-side test the crypto and gas strategies share: a side is bought at
// its executable price only when that price is strictly inside (0, 1) and
// the edge left after the 4-cent transaction cost is at least 5 cents.

module EdgeFilter {
  import opened Prelude
  import opened SideRule
  import Sizing

  const MinNetEdge: real := 0.05
  const MaxPct: real := 0.05

  /** One side of a market: the probability it wins and what buying it costs. */
  datatype SideQuote = SideQuote(side: Side, pEst: real, execPrice: real)

  /** What the side loop does with a quote. */
  datatype SideOutcome =
    | OutOfRange                 // price not strictly between 0 and 1: skipped uncounted
    | NoEdge(counted: bool)      // net edge below the minimum; counted when the gross edge was positive
    | TooSmall                   // the sizing bought nothing
    | Take(sizing: Sizing.PositionSizing)

  function GrossEdge(q: SideQuote): real { q.pEst - q.execPrice }

  function NetEdge(q: SideQuote): real { GrossEdge(q) - Sizing.TransactionCost }

  /** The checks of one pass of the side loop, in the order the source makes them. */
  function CheckSide(q: SideQuote, balance: real, volume: Option<real>): (r: SideOutcome)
    requires q.pEst <= 1.0
  {
    if q.execPrice <= 0.0 || q.execPrice >= 1.0 then OutOfRange
    else if NetEdge(q) < MinNetEdge then NoEdge(GrossEdge(q) > 0.0)
    else
      var sizing := Sizing.PositionSize(balance, q.pEst, q.execPrice, MaxPct, volume);
      if sizing.contracts <= 0 then TooSmall else Take(sizing)
  }

  /**
   * A side is taken exactly when its price is inside (0, 1) and its net
   * edge reaches the minimum; it then buys between 1 and 20 contracts, so
   * the too-small branch is never reached.
   */
  lemma CheckSideTakes(q: SideQuote, balance: real, volume: Option<real>)
    requires q.pEst <= 1.0
    ensures var r := CheckSide(q, balance, volume);
      && (r.Take? <==> 0.0 < q.execPrice < 1.0 && NetEdge(q) >= MinNetEdge)
      && (r.Take? ==> 1 <= r.sizing.contracts <= Sizing.HardMaxContracts && r.sizing.edge == GrossEdge(q))
      && !r.TooSmall?
      && (r.NoEdge? ==> (r.counted <==> GrossEdge(q) > 0.0))
  {
  }
}
