// The crypto strategy's scan: every listed threshold market of a coin with
// signals is filtered for liquidity and time to close, both sides are
// checked against their executable prices, and the edges found are ranked
// with the top five kept.

module CryptoStrategy {
  import opened Prelude
  import opened Utils
  import opened SideRule
  import opened EdgeFilter
  import Sizing
  import Ordering

  const MaxSpread: real := 0.20
  const MinBidPrice: real := 0.10
  const MaxBidPrice: real := 0.90
  /** Two hours, in days. */
  const MinDaysToClose: real := 2.0 / 24.0
  const TopCount: nat := 5

  /**
   * A crypto market as listed, prices in dollars. `daysToClose` is the time
   * from now to the close time (the clock is outside the model), absent
   * when the market has no close time.
   */
  datatype CryptoMarket = CryptoMarket(
    ticker: string,
    threshold: Option<real>,
    yesBid: real,
    yesAsk: real,
    noAsk: real,
    volume: Option<real>,
    openInterest: Option<real>,
    daysToClose: Option<real>)

  /**
   * A market in scan order with its coin and event; `pTrue` is the model's
   * probability that the coin closes above the threshold, absent when the
   * coin has no signals.
   */
  datatype Listing = Listing(symbol: string, eventTitle: string, market: CryptoMarket, pTrue: Option<real>)

  predicate ValidListing(l: Listing)
  {
    l.pTrue.Some? ==> 0.0 <= l.pTrue.value <= 1.0
  }

  /** `isLiquid`: quoted on both sides, bid within [0.10, 0.90], spread at most 0.20, and some volume or open interest. */
  predicate IsLiquid(m: CryptoMarket)
  {
    if m.yesBid <= 0.0 && m.yesAsk <= 0.0 then false
    else if m.yesAsk <= 0.0 || m.yesBid <= 0.0 then false
    else if m.yesBid < MinBidPrice || m.yesBid > MaxBidPrice then false
    else if m.yesAsk - m.yesBid > MaxSpread then false
    else if OrElse(m.volume, 0.0) == 0.0 && OrElse(m.openInterest, 0.0) == 0.0 then false
    else true
  }

  /** A liquid market has a bid in [0.10, 0.90] and an ask above the bid by at most 20 cents, or below it. */
  lemma LiquidBounds(m: CryptoMarket)
    ensures IsLiquid(m) <==>
      && 0.0 < m.yesAsk && MinBidPrice <= m.yesBid <= MaxBidPrice && m.yesAsk - m.yesBid <= MaxSpread
      && (OrElse(m.volume, 0.0) != 0.0 || OrElse(m.openInterest, 0.0) != 0.0)
    ensures IsLiquid(m) ==> m.yesAsk <= MaxBidPrice + MaxSpread
  {
  }

  /** `executablePrice`: YES is bought at the ask, NO at the NO ask. */
  function ExecutablePrice(m: CryptoMarket, side: Side): real
  {
    match side
    case BuyYes => m.yesAsk
    case BuyNo => m.noAsk
  }

  /**
   * Days to expiry: the time to the close time, or one day when the market
   * has no close time. A close time at or before now is kept as it is.
   */
  function DaysToExpiry(m: CryptoMarket): real
  {
    match m.daysToClose
    case None => 1.0
    case Some(d) => d
  }

  /** `!mkt.threshold || mkt.threshold <= 0` */
  predicate HasThreshold(m: CryptoMarket)
  {
    m.threshold.Some? && m.threshold.value > 0.0
  }

  /** The sides in the order they are tried. */
  function Sides(m: CryptoMarket, pTrue: real): seq<SideQuote>
  {
    [SideQuote(BuyYes, pTrue, ExecutablePrice(m, BuyYes)), SideQuote(BuyNo, 1.0 - pTrue, ExecutablePrice(m, BuyNo))]
  }

  datatype Skipped = Skipped(illiquid: nat, noEdge: nat, tooSmall: nat)

  const NoneSkipped := Skipped(0, 0, 0)
  const OneIlliquid := Skipped(1, 0, 0)
  const OneNoEdge := Skipped(0, 1, 0)
  const OneTooSmall := Skipped(0, 0, 1)

  function AddSkipped(a: Skipped, b: Skipped): Skipped
  {
    Skipped(a.illiquid + b.illiquid, a.noEdge + b.noEdge, a.tooSmall + b.tooSmall)
  }

  datatype CryptoRec = CryptoRec(
    symbol: string,
    ticker: string,
    eventTitle: string,
    threshold: real,
    daysToExpiry: real,
    side: Side,
    pEst: real,
    execPrice: real,
    midPrice: real,
    spread: real,
    edge: real,
    grossEdge: real,
    contracts: int,
    dollarRisk: real)

  /** A recommendation as every one of them must read. */
  predicate RecOk(r: CryptoRec)
  {
    && r.edge >= MinNetEdge && r.grossEdge >= MinNetEdge + Sizing.TransactionCost
    && 0.0 <= r.execPrice <= 1.0 && r.contracts >= 1
  }

  function MakeRec(l: Listing, q: SideQuote, sizing: Sizing.PositionSizing): (r: CryptoRec)
    requires HasThreshold(l.market)
    requires 0.0 < q.execPrice < 1.0 && NetEdge(q) >= MinNetEdge && sizing.contracts >= 1
    ensures RecOk(r)
  {
    var m := l.market;
    Round2Monotone(MinNetEdge, NetEdge(q));
    Round2Monotone(MinNetEdge + Sizing.TransactionCost, GrossEdge(q));
    Round2Monotone(0.0, q.execPrice);
    Round2Monotone(q.execPrice, 1.0);
    Round2Exact(0.0);
    Round2Exact(1.0);
    Round2Exact(MinNetEdge);
    Round2Exact(MinNetEdge + Sizing.TransactionCost);
    CryptoRec(l.symbol, m.ticker, l.eventTitle, m.threshold.value, Round2(DaysToExpiry(m)), q.side,
      Round2(q.pEst), Round2(q.execPrice), Round2((m.yesBid + m.yesAsk) / 2.0), Round2(m.yesAsk - m.yesBid),
      Round2(NetEdge(q)), Round2(GrossEdge(q)), sizing.contracts, sizing.dollarRisk)
  }

  /** The recommendations and skip counts of the side loop over `qs`. */
  function SidesScan(l: Listing, qs: seq<SideQuote>, balance: real): (r: (seq<CryptoRec>, Skipped))
    requires HasThreshold(l.market)
    requires forall i :: 0 <= i < |qs| ==> qs[i].pEst <= 1.0
    ensures forall i :: 0 <= i < |r.0| ==> RecOk(r.0[i]) && r.0[i].ticker == l.market.ticker
    ensures forall i :: 0 <= i < |r.0| ==> r.0[i].daysToExpiry == Round2(DaysToExpiry(l.market))
    ensures |r.0| + r.1.noEdge + r.1.tooSmall <= |qs| && r.1.illiquid == 0
  {
    if qs == [] then ([], NoneSkipped)
    else SideStep(SidesScan(l, qs[..|qs| - 1], balance), l, qs[|qs| - 1], CheckSide(qs[|qs| - 1], balance, None))
  }

  /** One pass of the side loop, given the outcome of the side's checks. */
  function SideStep(prev: (seq<CryptoRec>, Skipped), l: Listing, q: SideQuote, outcome: SideOutcome): (r: (seq<CryptoRec>, Skipped))
    requires HasThreshold(l.market)
    requires outcome.Take? ==> 0.0 < q.execPrice < 1.0 && NetEdge(q) >= MinNetEdge && outcome.sizing.contracts >= 1
  {
    match outcome
    case OutOfRange => prev
    case NoEdge(counted) => (prev.0, AddSkipped(prev.1, Skipped(0, if counted then 1 else 0, 0)))
    case TooSmall => (prev.0, AddSkipped(prev.1, OneTooSmall))
    case Take(sizing) => (prev.0 + [MakeRec(l, q, sizing)], prev.1)
  }

  /** What one listing contributes to the scan. */
  function ListingScan(l: Listing, balance: real): (r: (seq<CryptoRec>, Skipped))
    requires ValidListing(l)
    ensures forall i :: 0 <= i < |r.0| ==> RecOk(r.0[i]) && r.0[i].ticker == l.market.ticker
    ensures forall i :: 0 <= i < |r.0| ==> r.0[i].daysToExpiry == Round2(DaysToExpiry(l.market))
    ensures |r.0| > 0 ==> l.pTrue.Some? && HasThreshold(l.market) && IsLiquid(l.market) && DaysToExpiry(l.market) >= MinDaysToClose
    ensures |r.0| + r.1.noEdge + r.1.tooSmall <= 2 && r.1.illiquid <= 1
  {
    var m := l.market;
    if l.pTrue.None? || !HasThreshold(m) then ([], NoneSkipped)
    else if !IsLiquid(m) then ([], OneIlliquid)
    else if DaysToExpiry(m) < MinDaysToClose then ([], OneIlliquid)
    else SidesScan(l, Sides(m, l.pTrue.value), balance)
  }

  /** The scan over the listings in order. */
  function Scan(ls: seq<Listing>, balance: real): (r: (seq<CryptoRec>, Skipped))
    requires forall i :: 0 <= i < |ls| ==> ValidListing(ls[i])
    ensures forall i :: 0 <= i < |r.0| ==> RecOk(r.0[i])
    ensures r.1.illiquid <= |ls| && |r.0| + r.1.noEdge + r.1.tooSmall <= 2 * |ls|
  {
    if ls == [] then ([], NoneSkipped)
    else
      var prev := Scan(ls[..|ls| - 1], balance);
      var here := ListingScan(ls[|ls| - 1], balance);
      (prev.0 + here.0, AddSkipped(prev.1, here.1))
  }

  /** A listing whose market the scan prices: signals, a positive threshold, liquid, not about to close. */
  predicate Eligible(l: Listing)
  {
    l.pTrue.Some? && HasThreshold(l.market) && IsLiquid(l.market) && DaysToExpiry(l.market) >= MinDaysToClose
  }

  predicate ListedEligible(ls: seq<Listing>, ticker: string)
  {
    exists i :: 0 <= i < |ls| && ls[i].market.ticker == ticker && Eligible(ls[i])
  }

  lemma ListedEligibleInit(ls: seq<Listing>, ticker: string)
    requires ls != [] && ListedEligible(ls[..|ls| - 1], ticker)
    ensures ListedEligible(ls, ticker)
  {
    var init := ls[..|ls| - 1];
    var i :| 0 <= i < |init| && init[i].market.ticker == ticker && Eligible(init[i]);
    assert ls[i] == init[i];
  }

  lemma ListedEligibleLast(ls: seq<Listing>, ticker: string)
    requires ls != [] && ls[|ls| - 1].market.ticker == ticker && Eligible(ls[|ls| - 1])
    ensures ListedEligible(ls, ticker)
  {
  }

  /** Appending the last listing's recommendations keeps every ticker traced to an eligible listing. */
  lemma AppendEligible(ls: seq<Listing>, prev: seq<CryptoRec>, here: seq<CryptoRec>)
    requires ls != []
    requires forall k :: 0 <= k < |prev| ==> ListedEligible(ls[..|ls| - 1], prev[k].ticker)
    requires forall k :: 0 <= k < |here| ==> here[k].ticker == ls[|ls| - 1].market.ticker
    requires |here| > 0 ==> Eligible(ls[|ls| - 1])
    ensures forall k :: 0 <= k < |prev + here| ==> ListedEligible(ls, (prev + here)[k].ticker)
  {
    forall k | 0 <= k < |prev + here|
      ensures ListedEligible(ls, (prev + here)[k].ticker)
    {
      if k < |prev| {
        ListedEligibleInit(ls, prev[k].ticker);
      } else {
        ListedEligibleLast(ls, here[k - |prev|].ticker);
      }
    }
  }

  /**
   * Every recommendation comes from a listing whose coin has signals, whose
   * market has a positive threshold, is liquid and closes at least two
   * hours from now.
   */
  lemma {:induction false} RecsFromEligibleMarkets(ls: seq<Listing>, balance: real)
    requires forall i :: 0 <= i < |ls| ==> ValidListing(ls[i])
    ensures forall k :: 0 <= k < |Scan(ls, balance).0| ==> ListedEligible(ls, Scan(ls, balance).0[k].ticker)
  {
    if ls != [] {
      var init := ls[..|ls| - 1];
      RecsFromEligibleMarkets(init, balance);
      AppendEligible(ls, Scan(init, balance).0, ListingScan(ls[|ls| - 1], balance).0);
    }
  }

  /**
   * A market whose close time is less than two hours away, or already
   * passed, is skipped and counted as illiquid.
   */
  lemma ExpiringSoonCountedIlliquid(l: Listing, balance: real)
    requires ValidListing(l) && l.pTrue.Some? && HasThreshold(l.market) && IsLiquid(l.market)
    requires l.market.daysToClose.Some? && l.market.daysToClose.value < MinDaysToClose
    ensures ListingScan(l, balance) == ([], OneIlliquid)
  {
  }

  /** A market closing exactly now is counted as illiquid, not scored as a day out. */
  lemma ClosingNowCountedIlliquid(l: Listing, balance: real)
    requires ValidListing(l) && l.pTrue.Some? && HasThreshold(l.market) && IsLiquid(l.market)
    requires l.market.daysToClose == Some(0.0)
    ensures ListingScan(l, balance) == ([], OneIlliquid)
  {
    ExpiringSoonCountedIlliquid(l, balance);
  }

  /** A market without a close time is never skipped for expiry: it is one day out. */
  lemma NoCloseTimeOneDay(l: Listing, balance: real)
    requires ValidListing(l) && l.pTrue.Some? && HasThreshold(l.market) && IsLiquid(l.market)
    requires l.market.daysToClose.None?
    ensures ListingScan(l, balance) != ([], OneIlliquid)
    ensures forall i :: 0 <= i < |ListingScan(l, balance).0| ==> ListingScan(l, balance).0[i].daysToExpiry == 1.0
  {
    assert DaysToExpiry(l.market) == 1.0;
    Round2Exact(1.0);
  }

  /** The side loop never counts a side as too small. */
  lemma {:induction false} SidesNeverTooSmall(l: Listing, qs: seq<SideQuote>, balance: real)
    requires HasThreshold(l.market)
    requires forall i :: 0 <= i < |qs| ==> qs[i].pEst <= 1.0
    ensures SidesScan(l, qs, balance).1.tooSmall == 0
  {
    if qs != [] {
      SidesNeverTooSmall(l, qs[..|qs| - 1], balance);
      CheckSideTakes(qs[|qs| - 1], balance, None);
    }
  }

  /** `skipped.tooSmall` never moves: a side that clears the edge test always buys a contract. */
  lemma {:induction false} TooSmallNeverCounted(ls: seq<Listing>, balance: real)
    requires forall i :: 0 <= i < |ls| ==> ValidListing(ls[i])
    ensures Scan(ls, balance).1.tooSmall == 0
  {
    if ls != [] {
      TooSmallNeverCounted(ls[..|ls| - 1], balance);
      var l := ls[|ls| - 1];
      if Eligible(l) {
        SidesNeverTooSmall(l, Sides(l.market, l.pTrue.value), balance);
      }
    }
  }

  function EdgeOf(r: CryptoRec): real { r.edge }

  /** The scan of one listing: the filters, then the side loop. */
  method ScoreListing(l: Listing, balance: real) returns (recs: seq<CryptoRec>, skipped: Skipped)
    requires ValidListing(l)
    ensures (recs, skipped) == ListingScan(l, balance)
  {
    recs, skipped := [], NoneSkipped;
    var m := l.market;
    if l.pTrue.None? || !HasThreshold(m) {
      return;
    }
    if !IsLiquid(m) {
      skipped := OneIlliquid;
      return;
    }
    if DaysToExpiry(m) < MinDaysToClose {
      skipped := OneIlliquid;
      return;
    }
    recs, skipped := ScoreSides(l, Sides(m, l.pTrue.value), balance);
  }

  /** The side loop: each side's checks in turn, counting skips and pushing recommendations. */
  method ScoreSides(l: Listing, sides: seq<SideQuote>, balance: real) returns (recs: seq<CryptoRec>, skipped: Skipped)
    requires HasThreshold(l.market)
    requires forall i :: 0 <= i < |sides| ==> sides[i].pEst <= 1.0
    ensures (recs, skipped) == SidesScan(l, sides, balance)
  {
    recs, skipped := [], NoneSkipped;
    for k := 0 to |sides|
      invariant (recs, skipped) == SidesScan(l, sides[..k], balance)
    {
      assert sides[..k + 1][..k] == sides[..k];
      var q := sides[k];
      var outcome := CheckSide(q, balance, None);
      ghost var before := (recs, skipped);
      assert SidesScan(l, sides[..k + 1], balance) == SideStep(before, l, q, outcome);
      match outcome {
        case OutOfRange =>
        case NoEdge(counted) =>
          if counted {
            skipped := AddSkipped(skipped, OneNoEdge);
          }
        case TooSmall =>
          skipped := AddSkipped(skipped, OneTooSmall);
        case Take(sizing) =>
          recs := recs + [MakeRec(l, q, sizing)];
      }
      assert (recs, skipped) == SideStep(before, l, q, outcome);
    }
    assert sides[..|sides|] == sides;
  }

  /**
   * `runCryptoStrategy` after the fetches: every listing is scanned in
   * order, the recommendations are sorted by edge, highest first, and the
   * first five are the ones recommended.
   */
  method RunCryptoStrategy(ls: seq<Listing>, balance: real) returns (top: seq<CryptoRec>, all: seq<CryptoRec>, skipped: Skipped)
    requires forall i :: 0 <= i < |ls| ==> ValidListing(ls[i])
    ensures all == Ordering.SortDesc(Scan(ls, balance).0, EdgeOf) && skipped == Scan(ls, balance).1
    ensures Ordering.SortedDesc(all, EdgeOf) && multiset(all) == multiset(Scan(ls, balance).0)
    ensures top == all[..MinI(TopCount, |all|)]
    ensures forall i :: 0 <= i < |top| ==> RecOk(top[i])
  {
    var pushed: seq<CryptoRec> := [];
    skipped := NoneSkipped;
    for i := 0 to |ls|
      invariant (pushed, skipped) == Scan(ls[..i], balance)
    {
      assert ls[..i + 1][..i] == ls[..i];
      var recs, sk := ScoreListing(ls[i], balance);
      pushed := pushed + recs;
      skipped := AddSkipped(skipped, sk);
    }
    assert ls[..|ls|] == ls;
    all := Ordering.SortDesc(pushed, EdgeOf);
    top := all[..MinI(TopCount, |all|)];
    forall i | 0 <= i < |top| ensures RecOk(top[i]) {
      assert top[i] in multiset(pushed);
    }
  }
}
