// The side-selection rule the temperature, precipitation and flight-delay
// matchers share: buy YES when its edge clears the minimum and is at least
// the NO edge, else buy NO when its edge clears the minimum, else pass; then
// cap the estimate at 99% and require the capped edge to clear the minimum
// again.

module SideRule {
  import opened Prelude

  datatype Side = BuyYes | BuyNo

  /** The chosen side, the probability it wins, its price and its edge. */
  datatype Pick = Pick(side: Side, pEst: real, price: real, edge: real)

  /** Highest estimate a matcher sizes a trade with. */
  const EstimateCap: real := 0.99

  /**
   * The side rule for a YES probability `pTrue` and the prices of a YES and
   * of a NO contract.
   */
  function ChooseSide(pTrue: real, yesPrice: real, noPrice: real, minEdge: real): (r: Option<Pick>)
    ensures var yesEdge, noEdge := pTrue - yesPrice, (1.0 - pTrue) - noPrice;
      (r.Some? && r.value.side == BuyYes <==> yesEdge >= minEdge && yesEdge >= noEdge)
      && (r.Some? && r.value.side == BuyNo <==> !(yesEdge >= minEdge && yesEdge >= noEdge) && noEdge >= minEdge)
    ensures r.Some? && r.value.side == BuyYes ==> r.value.pEst == pTrue && r.value.price == yesPrice
    ensures r.Some? && r.value.side == BuyNo ==> r.value.pEst == 1.0 - pTrue && r.value.price == noPrice
    ensures r.Some? ==> r.value.edge == r.value.pEst - r.value.price
  {
    var yesEdge := pTrue - yesPrice;
    var noEdge := (1.0 - pTrue) - noPrice;
    if yesEdge >= minEdge && yesEdge >= noEdge then Some(Pick(BuyYes, pTrue, yesPrice, yesEdge))
    else if noEdge >= minEdge then Some(Pick(BuyNo, 1.0 - pTrue, noPrice, noEdge))
    else None
  }

  /**
   * The rule buys the side with the larger edge (YES on a tie), and passes
   * exactly when neither edge reaches the minimum.
   */
  lemma ChooseSideMaximisesEdge(pTrue: real, yesPrice: real, noPrice: real, minEdge: real)
    ensures var r := ChooseSide(pTrue, yesPrice, noPrice, minEdge);
      var best := MaxR(pTrue - yesPrice, (1.0 - pTrue) - noPrice);
      (r.None? <==> best < minEdge)
      && (r.Some? ==> r.value.edge == best && r.value.edge >= minEdge)
  {
  }

  /**
   * The side rule followed by the cap: the estimate is cut to 99% and the
   * edge recomputed from it must still reach the minimum.
   */
  function CappedPick(pTrue: real, yesPrice: real, noPrice: real, minEdge: real): (r: Option<Pick>)
    ensures var c := ChooseSide(pTrue, yesPrice, noPrice, minEdge);
      (r.None? <==> c.None? || MinR(c.value.pEst, EstimateCap) - c.value.price < minEdge)
      && (r.Some? ==>
        && r.value.side == c.value.side
        && r.value.price == c.value.price
        && r.value.pEst == MinR(c.value.pEst, EstimateCap))
    ensures r.Some? ==>
      && r.value.pEst <= EstimateCap
      && r.value.edge == r.value.pEst - r.value.price
      && r.value.edge >= minEdge
  {
    match ChooseSide(pTrue, yesPrice, noPrice, minEdge)
    case None => None
    case Some(p) =>
      var capped := MinR(p.pEst, EstimateCap);
      if capped - p.price < minEdge then None
      else Some(Pick(p.side, capped, p.price, capped - p.price))
  }

  /**
   * The cap never raises the edge: a kept pick's edge is at most the larger
   * of the two uncapped edges, and equals it when the estimate is at most 99%.
   */
  lemma CappedPickEdge(pTrue: real, yesPrice: real, noPrice: real, minEdge: real)
    ensures var r := CappedPick(pTrue, yesPrice, noPrice, minEdge);
      var best := MaxR(pTrue - yesPrice, (1.0 - pTrue) - noPrice);
      r.Some? ==> (minEdge <= r.value.edge <= best
        && (0.01 <= pTrue <= EstimateCap ==> r.value.edge == best))
  {
    ChooseSideMaximisesEdge(pTrue, yesPrice, noPrice, minEdge);
  }

  /**
   * The executable prices `ask || mid` for YES and `1 - (bid || mid)` for
   * NO, where a zero bid or ask falls back to the midpoint.
   */
  function AskOrMid(bid: real, ask: real): (r: (real, real))
    requires 0.0 <= bid <= 1.0 && 0.0 <= ask <= 1.0
    ensures 0.0 <= r.0 <= 1.0 && 0.0 <= r.1 <= 1.0
    ensures ask != 0.0 ==> r.0 == ask
    ensures bid != 0.0 ==> r.1 == 1.0 - bid
    ensures ask == 0.0 ==> r.0 == bid / 2.0
    ensures bid == 0.0 ==> r.1 == 1.0 - ask / 2.0
  {
    var mid := (bid + ask) / 2.0;
    (if ask != 0.0 then ask else mid, 1.0 - (if bid != 0.0 then bid else mid))
  }
}
