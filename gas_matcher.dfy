// The gas matcher: every listed gas contract with a strike is filtered for
// liquidity and time to settlement, both sides are checked against their
// executable prices with the model's probability, and the edges found are
// ranked with the top five kept.

module GasMatcher {
  import opened Prelude
  import opened Utils
  import opened SideRule
  import opened EdgeFilter
  import Sizing
  import Ordering

  const MaxSpread: real := 0.20
  const MinPrice: real := 0.08
  const MaxPrice: real := 0.92
  /** Four hours, in days. */
  const MinDaysToSettle: real := 4.0 / 24.0
  /** The floor on the days to settlement of a contract with a close time. */
  const MinDaysWithClose: real := 0.1
  /** One week: the days to settlement of a contract without a close time. */
  const DefaultDaysToSettle: real := 7.0
  const TopCount: nat := 5

  /** The weekly and the monthly gas series. */
  datatype SeriesType = Weekly | Monthly

  /**
   * A close time as the scan sees it: the days from now until it (the clock
   * is outside the model) and its calendar date in UTC.
   */
  datatype CloseTime = CloseTime(daysFromNow: real, utcDate: CivilDate)

  /** A gas market as listed, prices in dollars. */
  datatype GasMarket = GasMarket(
    ticker: string,
    floorStrike: Option<real>,
    yesBid: real,
    yesAsk: real,
    noAsk: Option<real>,
    volume: Option<real>,
    openInterest: Option<real>,
    closeTime: Option<CloseTime>)

  /** A market in scan order with its series and event. */
  datatype Listing = Listing(series: SeriesType, eventTitle: string, market: GasMarket)

  /** A close time the calendar can format. */
  predicate ValidListing(l: Listing)
  {
    l.market.closeTime.Some? ==> ValidDate(l.market.closeTime.value.utcDate) && 0 <= l.market.closeTime.value.utcDate.year <= 9999
  }

  /** A probability function: `probAboveFn` with the prediction and calibration fixed. */
  ghost predicate ValidProbability(probAbove: real -> real)
  {
    forall x :: 0.0 <= probAbove(x) <= 1.0
  }

  /** `isLiquid`, check by check. */
  predicate IsLiquid(m: GasMarket)
  {
    if m.yesBid <= 0.0 || m.yesAsk <= 0.0 then false
    else if m.yesAsk - m.yesBid > MaxSpread then false
    else if m.yesBid < MinPrice || m.yesBid > MaxPrice then false
    else if OrElse(m.volume, 0.0) == 0.0 && OrElse(m.openInterest, 0.0) == 0.0 then false
    else true
  }

  /** A liquid market is quoted on both sides, bid within [0.08, 0.92], spread at most 0.20, and trades or is held. */
  lemma LiquidIff(m: GasMarket)
    ensures IsLiquid(m) <==>
      && 0.0 < m.yesAsk && m.yesAsk - m.yesBid <= MaxSpread && MinPrice <= m.yesBid <= MaxPrice
      && (OrElse(m.volume, 0.0) != 0.0 || OrElse(m.openInterest, 0.0) != 0.0)
  {
  }

  datatype Settlement = Settlement(settleDate: Option<string>, daysToSettle: real)

  /** `parseSettlement`: at least 0.1 days when the market has a close time, a week otherwise. */
  function ParseSettlement(m: GasMarket): (r: Settlement)
    requires m.closeTime.Some? ==> ValidDate(m.closeTime.value.utcDate) && 0 <= m.closeTime.value.utcDate.year <= 9999
    ensures m.closeTime.None? ==> r == Settlement(None, DefaultDaysToSettle)
    ensures m.closeTime.Some? ==>
      && r.daysToSettle >= MinDaysWithClose
      && r.daysToSettle >= m.closeTime.value.daysFromNow
      && (m.closeTime.value.daysFromNow >= MinDaysWithClose ==> r.daysToSettle == m.closeTime.value.daysFromNow)
      && r.settleDate.Some? && IsDateLike(r.settleDate.value)
  {
    match m.closeTime
    case None => Settlement(None, DefaultDaysToSettle)
    case Some(c) => Settlement(Some(FormatDate(c.utcDate)), MaxR(MinDaysWithClose, c.daysFromNow))
  }

  /** `!mkt.floorStrike`: no strike, or a strike of zero. */
  predicate HasStrike(m: GasMarket)
  {
    m.floorStrike.Some? && m.floorStrike.value != 0.0
  }

  /** `mkt.noAsk || (1 - mkt.yesBid)` */
  function NoExecPrice(m: GasMarket): real
  {
    if m.noAsk.Some? && m.noAsk.value != 0.0 then m.noAsk.value else 1.0 - m.yesBid
  }

  /** The sides in the order they are tried: YES at the ask, NO at the NO ask or the complement of the bid. */
  function Sides(m: GasMarket, pTrue: real): seq<SideQuote>
  {
    [SideQuote(BuyYes, pTrue, m.yesAsk), SideQuote(BuyNo, 1.0 - pTrue, NoExecPrice(m))]
  }

  /**
   * A liquid market without a NO ask prices its NO side at the complement of
   * the bid, which the liquidity filter keeps inside [0.08, 0.92]: that side
   * is never dropped as out of range.
   */
  lemma UnquotedNoSidePriced(m: GasMarket, pTrue: real)
    requires IsLiquid(m) && (m.noAsk.None? || m.noAsk.value == 0.0) && 0.0 <= pTrue <= 1.0
    ensures Sides(m, pTrue)[1].execPrice == 1.0 - m.yesBid
    ensures MinPrice <= Sides(m, pTrue)[1].execPrice <= MaxPrice
    ensures !CheckSide(Sides(m, pTrue)[1], 0.0, None).OutOfRange?
  {
  }

  datatype Skipped = Skipped(illiquid: nat, noEdge: nat, tooSmall: nat, expiringSoon: nat)

  const NoneSkipped := Skipped(0, 0, 0, 0)
  const OneIlliquid := Skipped(1, 0, 0, 0)
  const OneNoEdge := Skipped(0, 1, 0, 0)
  const OneTooSmall := Skipped(0, 0, 1, 0)
  const OneExpiringSoon := Skipped(0, 0, 0, 1)

  function AddSkipped(a: Skipped, b: Skipped): Skipped
  {
    Skipped(a.illiquid + b.illiquid, a.noEdge + b.noEdge, a.tooSmall + b.tooSmall, a.expiringSoon + b.expiringSoon)
  }

  datatype GasRec = GasRec(
    series: SeriesType,
    ticker: string,
    eventTitle: string,
    threshold: real,
    currentGas: real,
    side: Side,
    pEst: real,
    execPrice: real,
    midPrice: real,
    spread: real,
    edge: real,
    grossEdge: real,
    contracts: int,
    dollarRisk: real,
    daysToSettle: real,
    settleDate: Option<string>,
    volume: real,
    openInterest: real,
    ev: real)

  /** A recommendation as every one of them must read. */
  predicate RecOk(r: GasRec)
  {
    && r.edge >= MinNetEdge && r.grossEdge >= MinNetEdge + Sizing.TransactionCost
    && 0.0 <= r.execPrice <= 1.0 && r.contracts >= 1
    && r.ev >= MinNetEdge && r.daysToSettle >= Round2(MinDaysToSettle)
  }

  /** A net edge of at least 0.05 on at least one contract is worth at least that edge. */
  lemma ScaledAtLeast(a: real, c: int)
    requires a >= 0.0 && c >= 1
    ensures a * (c as real) >= a
  {
    var d := (c as real) - 1.0;
    assert a * d >= 0.0;
    assert a * (c as real) == a + a * d;
  }

  /** The expected value pushed with a recommendation: net edge times contracts, to the cent. */
  function ExpectedValue(q: SideQuote, contracts: int): (ev: real)
    requires NetEdge(q) >= MinNetEdge && contracts >= 1
    ensures ev >= MinNetEdge
  {
    ScaledAtLeast(NetEdge(q), contracts);
    Round2Monotone(MinNetEdge, NetEdge(q) * (contracts as real));
    Round2Exact(MinNetEdge);
    Round2(NetEdge(q) * (contracts as real))
  }

  function MakeRec(l: Listing, currentGas: real, q: SideQuote, sizing: Sizing.PositionSizing, s: Settlement): (r: GasRec)
    requires HasStrike(l.market) && s.daysToSettle >= MinDaysToSettle
    requires 0.0 < q.execPrice < 1.0 && NetEdge(q) >= MinNetEdge && sizing.contracts >= 1
    ensures RecOk(r)
  {
    var m := l.market;
    Round2Monotone(MinNetEdge, NetEdge(q));
    Round2Monotone(MinNetEdge + Sizing.TransactionCost, GrossEdge(q));
    Round2Monotone(0.0, q.execPrice);
    Round2Monotone(q.execPrice, 1.0);
    Round2Monotone(MinDaysToSettle, s.daysToSettle);
    Round2Exact(0.0);
    Round2Exact(1.0);
    Round2Exact(MinNetEdge);
    Round2Exact(MinNetEdge + Sizing.TransactionCost);
    GasRec(l.series, m.ticker, l.eventTitle, m.floorStrike.value, currentGas, q.side,
      Round2(q.pEst), Round2(q.execPrice), Round2((m.yesBid + m.yesAsk) / 2.0), Round2(m.yesAsk - m.yesBid),
      Round2(NetEdge(q)), Round2(GrossEdge(q)), sizing.contracts, sizing.dollarRisk,
      Round2(s.daysToSettle), s.settleDate, OrElse(m.volume, 0.0), OrElse(m.openInterest, 0.0),
      ExpectedValue(q, sizing.contracts))
  }

  /** The volume the sizing sees: `{ volume: mkt.volume || 0 }`. */
  function SizingVolume(m: GasMarket): Option<real>
  {
    Some(OrElse(m.volume, 0.0))
  }

  /** The recommendations and skip counts of the side loop over `qs`. */
  function SidesScan(l: Listing, currentGas: real, s: Settlement, qs: seq<SideQuote>, balance: real): (r: (seq<GasRec>, Skipped))
    requires HasStrike(l.market) && s.daysToSettle >= MinDaysToSettle
    requires forall i :: 0 <= i < |qs| ==> qs[i].pEst <= 1.0
    ensures forall i :: 0 <= i < |r.0| ==> RecOk(r.0[i]) && r.0[i].ticker == l.market.ticker
    ensures |r.0| + r.1.noEdge + r.1.tooSmall <= |qs| && r.1.illiquid == 0 && r.1.expiringSoon == 0
  {
    if qs == [] then ([], NoneSkipped)
    else
      var q := qs[|qs| - 1];
      SideStep(SidesScan(l, currentGas, s, qs[..|qs| - 1], balance), l, currentGas, s, q,
        CheckSide(q, balance, SizingVolume(l.market)))
  }

  /** One pass of the side loop, given the outcome of the side's checks. */
  function SideStep(prev: (seq<GasRec>, Skipped), l: Listing, currentGas: real, s: Settlement, q: SideQuote, outcome: SideOutcome): (r: (seq<GasRec>, Skipped))
    requires HasStrike(l.market) && s.daysToSettle >= MinDaysToSettle
    requires outcome.Take? ==> 0.0 < q.execPrice < 1.0 && NetEdge(q) >= MinNetEdge && outcome.sizing.contracts >= 1
  {
    match outcome
    case OutOfRange => prev
    case NoEdge(counted) => if counted then (prev.0, AddSkipped(prev.1, OneNoEdge)) else prev
    case TooSmall => (prev.0, AddSkipped(prev.1, OneTooSmall))
    case Take(sizing) => (prev.0 + [MakeRec(l, currentGas, q, sizing, s)], prev.1)
  }

  /** A contract the scan prices: it has a strike, is liquid and settles at least four hours from now. */
  predicate Eligible(l: Listing)
    requires ValidListing(l)
  {
    HasStrike(l.market) && IsLiquid(l.market) && ParseSettlement(l.market).daysToSettle >= MinDaysToSettle
  }

  /** What one listing contributes to the scan. */
  function ListingScan(l: Listing, probAbove: real -> real, currentGas: real, balance: real): (r: (seq<GasRec>, Skipped))
    requires ValidListing(l) && ValidProbability(probAbove)
    ensures forall i :: 0 <= i < |r.0| ==> RecOk(r.0[i]) && r.0[i].ticker == l.market.ticker
    ensures |r.0| > 0 ==> Eligible(l)
    ensures |r.0| + r.1.noEdge + r.1.tooSmall <= 2 && r.1.illiquid + r.1.expiringSoon <= 1
  {
    var m := l.market;
    if !HasStrike(m) then ([], NoneSkipped)
    else if !IsLiquid(m) then ([], OneIlliquid)
    else
      var s := ParseSettlement(m);
      if s.daysToSettle < MinDaysToSettle then ([], OneExpiringSoon)
      else SidesScan(l, currentGas, s, Sides(m, probAbove(m.floorStrike.value)), balance)
  }

  /** The scan over the listings in order. */
  function Scan(ls: seq<Listing>, probAbove: real -> real, currentGas: real, balance: real): (r: (seq<GasRec>, Skipped))
    requires forall i :: 0 <= i < |ls| ==> ValidListing(ls[i])
    requires ValidProbability(probAbove)
    ensures forall i :: 0 <= i < |r.0| ==> RecOk(r.0[i])
    ensures r.1.illiquid + r.1.expiringSoon <= |ls| && |r.0| + r.1.noEdge + r.1.tooSmall <= 2 * |ls|
  {
    if ls == [] then ([], NoneSkipped)
    else
      var prev := Scan(ls[..|ls| - 1], probAbove, currentGas, balance);
      var here := ListingScan(ls[|ls| - 1], probAbove, currentGas, balance);
      (prev.0 + here.0, AddSkipped(prev.1, here.1))
  }

  predicate ListedEligible(ls: seq<Listing>, ticker: string)
    requires forall i :: 0 <= i < |ls| ==> ValidListing(ls[i])
  {
    exists i :: 0 <= i < |ls| && ls[i].market.ticker == ticker && Eligible(ls[i])
  }

  lemma ListedEligibleInit(ls: seq<Listing>, ticker: string)
    requires forall i :: 0 <= i < |ls| ==> ValidListing(ls[i])
    requires ls != [] && ListedEligible(ls[..|ls| - 1], ticker)
    ensures ListedEligible(ls, ticker)
  {
    var init := ls[..|ls| - 1];
    var i :| 0 <= i < |init| && init[i].market.ticker == ticker && Eligible(init[i]);
    assert ls[i] == init[i];
  }

  lemma ListedEligibleLast(ls: seq<Listing>, ticker: string)
    requires forall i :: 0 <= i < |ls| ==> ValidListing(ls[i])
    requires ls != [] && ls[|ls| - 1].market.ticker == ticker && Eligible(ls[|ls| - 1])
    ensures ListedEligible(ls, ticker)
  {
  }

  /** Appending the last listing's recommendations keeps every ticker traced to an eligible listing. */
  lemma AppendEligible(ls: seq<Listing>, prev: seq<GasRec>, here: seq<GasRec>)
    requires forall i :: 0 <= i < |ls| ==> ValidListing(ls[i])
    requires ls != []
    requires forall k :: 0 <= k < |prev| ==> ListedEligible(ls[..|ls| - 1], prev[k].ticker)
    requires forall k :: 0 <= k < |here| ==> here[k].ticker == ls[|ls| - 1].market.ticker
    requires |here| > 0 ==> Eligible(ls[|ls| - 1])
    ensures forall k :: 0 <= k < |prev + here| ==> ListedEligible(ls, (prev + here)[k].ticker)
  {
    forall k | 0 <= k < |prev + here|
      ensures ListedEligible(ls, (prev + here)[k].ticker)
    {
      if k < |prev| {
        ListedEligibleInit(ls, prev[k].ticker);
      } else {
        ListedEligibleLast(ls, here[k - |prev|].ticker);
      }
    }
  }

  /**
   * Every recommendation comes from a listed contract with a strike that is
   * liquid and settles at least four hours from now.
   */
  lemma {:induction false} RecsFromEligibleMarkets(ls: seq<Listing>, probAbove: real -> real, currentGas: real, balance: real)
    requires forall i :: 0 <= i < |ls| ==> ValidListing(ls[i])
    requires ValidProbability(probAbove)
    ensures forall k :: 0 <= k < |Scan(ls, probAbove, currentGas, balance).0| ==>
      ListedEligible(ls, Scan(ls, probAbove, currentGas, balance).0[k].ticker)
  {
    if ls != [] {
      var init := ls[..|ls| - 1];
      RecsFromEligibleMarkets(init, probAbove, currentGas, balance);
      AppendEligible(ls, Scan(init, probAbove, currentGas, balance).0, ListingScan(ls[|ls| - 1], probAbove, currentGas, balance).0);
    }
  }

  /** A liquid contract settling within four hours is skipped and counted as expiring, nothing else. */
  lemma ExpiringSoonCounted(l: Listing, probAbove: real -> real, currentGas: real, balance: real)
    requires ValidListing(l) && ValidProbability(probAbove)
    requires HasStrike(l.market) && IsLiquid(l.market)
    requires l.market.closeTime.Some? && l.market.closeTime.value.daysFromNow < MinDaysToSettle
    ensures ListingScan(l, probAbove, currentGas, balance) == ([], OneExpiringSoon)
  {
    var c := l.market.closeTime.value;
    assert ParseSettlement(l.market).daysToSettle == MaxR(MinDaysWithClose, c.daysFromNow);
  }

  /** A contract without a close time settles in a week, so time never skips it. */
  lemma NoCloseTimeNeverExpiring(l: Listing)
    requires ValidListing(l) && l.market.closeTime.None?
    ensures HasStrike(l.market) && IsLiquid(l.market) ==> Eligible(l)
  {
  }

  /** The side loop never counts a side as too small. */
  lemma {:induction false} SidesNeverTooSmall(l: Listing, currentGas: real, s: Settlement, qs: seq<SideQuote>, balance: real)
    requires HasStrike(l.market) && s.daysToSettle >= MinDaysToSettle
    requires forall i :: 0 <= i < |qs| ==> qs[i].pEst <= 1.0
    ensures SidesScan(l, currentGas, s, qs, balance).1.tooSmall == 0
  {
    if qs != [] {
      SidesNeverTooSmall(l, currentGas, s, qs[..|qs| - 1], balance);
      CheckSideTakes(qs[|qs| - 1], balance, SizingVolume(l.market));
    }
  }

  /** `skipped.tooSmall` never moves: a side that clears the edge test always buys a contract. */
  lemma {:induction false} TooSmallNeverCounted(ls: seq<Listing>, probAbove: real -> real, currentGas: real, balance: real)
    requires forall i :: 0 <= i < |ls| ==> ValidListing(ls[i])
    requires ValidProbability(probAbove)
    ensures Scan(ls, probAbove, currentGas, balance).1.tooSmall == 0
  {
    if ls != [] {
      TooSmallNeverCounted(ls[..|ls| - 1], probAbove, currentGas, balance);
      var l := ls[|ls| - 1];
      var m := l.market;
      if Eligible(l) {
        SidesNeverTooSmall(l, currentGas, ParseSettlement(m), Sides(m, probAbove(m.floorStrike.value)), balance);
      }
    }
  }

  function EdgeOf(r: GasRec): real { r.edge }

  /** The scan of one market: the filters, then the side loop. */
  method ScoreListing(l: Listing, probAbove: real -> real, currentGas: real, balance: real) returns (recs: seq<GasRec>, skipped: Skipped)
    requires ValidListing(l) && ValidProbability(probAbove)
    ensures (recs, skipped) == ListingScan(l, probAbove, currentGas, balance)
  {
    recs, skipped := [], NoneSkipped;
    var m := l.market;
    if !HasStrike(m) {
      return;
    }
    if !IsLiquid(m) {
      skipped := OneIlliquid;
      return;
    }
    var s := ParseSettlement(m);
    if s.daysToSettle < MinDaysToSettle {
      skipped := OneExpiringSoon;
      return;
    }
    var pTrue := probAbove(m.floorStrike.value);
    recs, skipped := ScoreSides(l, currentGas, s, Sides(m, pTrue), balance);
  }

  /** The side loop: each side's checks in turn, counting skips and pushing recommendations. */
  method ScoreSides(l: Listing, currentGas: real, s: Settlement, sides: seq<SideQuote>, balance: real) returns (recs: seq<GasRec>, skipped: Skipped)
    requires HasStrike(l.market) && s.daysToSettle >= MinDaysToSettle
    requires forall i :: 0 <= i < |sides| ==> sides[i].pEst <= 1.0
    ensures (recs, skipped) == SidesScan(l, currentGas, s, sides, balance)
  {
    recs, skipped := [], NoneSkipped;
    for k := 0 to |sides|
      invariant (recs, skipped) == SidesScan(l, currentGas, s, sides[..k], balance)
    {
      assert sides[..k + 1][..k] == sides[..k];
      var q := sides[k];
      var outcome := CheckSide(q, balance, SizingVolume(l.market));
      ghost var before := (recs, skipped);
      assert SidesScan(l, currentGas, s, sides[..k + 1], balance) == SideStep(before, l, currentGas, s, q, outcome);
      match outcome {
        case OutOfRange =>
        case NoEdge(counted) =>
          if counted {
            skipped := AddSkipped(skipped, OneNoEdge);
          }
        case TooSmall =>
          skipped := AddSkipped(skipped, OneTooSmall);
        case Take(sizing) =>
          recs := recs + [MakeRec(l, currentGas, q, sizing, s)];
      }
      assert (recs, skipped) == SideStep(before, l, currentGas, s, q, outcome);
    }
    assert sides[..|sides|] == sides;
  }

  /**
   * `scoreGasMarkets` after the fetch: every listed contract is scanned in
   * order, the recommendations are sorted by edge, highest first, and the
   * first five are the ones recommended.
   */
  method ScoreGasMarkets(ls: seq<Listing>, probAbove: real -> real, currentGas: real, balance: real)
    returns (top: seq<GasRec>, all: seq<GasRec>, skipped: Skipped)
    requires forall i :: 0 <= i < |ls| ==> ValidListing(ls[i])
    requires ValidProbability(probAbove)
    ensures all == Ordering.SortDesc(Scan(ls, probAbove, currentGas, balance).0, EdgeOf)
    ensures skipped == Scan(ls, probAbove, currentGas, balance).1
    ensures Ordering.SortedDesc(all, EdgeOf) && multiset(all) == multiset(Scan(ls, probAbove, currentGas, balance).0)
    ensures top == all[..MinI(TopCount, |all|)]
    ensures forall i :: 0 <= i < |top| ==> RecOk(top[i])
  {
    var pushed: seq<GasRec> := [];
    skipped := NoneSkipped;
    for i := 0 to |ls|
      invariant (pushed, skipped) == Scan(ls[..i], probAbove, currentGas, balance)
    {
      assert ls[..i + 1][..i] == ls[..i];
      var recs, sk := ScoreListing(ls[i], probAbove, currentGas, balance);
      pushed := pushed + recs;
      skipped := AddSkipped(skipped, sk);
    }
    assert ls[..|ls|] == ls;
    all := Ordering.SortDesc(pushed, EdgeOf);
    top := all[..MinI(TopCount, |all|)];
    forall i | 0 <= i < |top| ensures RecOk(top[i]) {
      assert top[i] in multiset(pushed);
    }
  }
}
