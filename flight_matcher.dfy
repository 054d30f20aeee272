// The O'Hare flight-delay contracts: a listed market is normalised (cent
// prices to dollars, the contract date and any delay threshold read off its
// ticker), scored against the delay model's probability with the shared
// YES/NO side rule, and the day's recommendations are ranked by expected
// value.

module FlightMatcher {
  import opened Prelude
  import opened Text
  import opened SideRule
  import Markets
  import Sizing
  import Ordering

  const DefaultMinEdge: real := 0.05
  const MaxPct: real := 0.05
  const LowLiquidityVolume: real := 100.0

  /** A market as the exchange lists it: prices in cents, any field possibly missing. */
  datatype RawMarket = RawMarket(
    ticker: string,
    yesBidCents: Option<real>,
    yesAskCents: Option<real>,
    volume: Option<real>,
    result: Option<string>)

  predicate ValidRaw(m: RawMarket)
  {
    && (m.yesBidCents.Some? ==> 0.0 <= m.yesBidCents.value <= 100.0)
    && (m.yesAskCents.Some? ==> 0.0 <= m.yesAskCents.value <= 100.0)
  }

  /** 'binary' (average delay at least 15 minutes) or 'threshold' (total delays above a count). */
  datatype MarketType = Binary | Threshold(threshold: int)

  datatype FlightMarket = FlightMarket(
    ticker: string,
    series: string,
    marketType: MarketType,
    date: Option<string>,
    yesBid: real,
    yesAsk: real,
    midPrice: real,
    volume: real,
    result: Option<string>)

  // ------------------------------------------------------------ the date fragment

  /** `(\d{2})([A-Z]{3})(\d{2})` matches at `i`. */
  predicate DateAt(t: string, i: nat)
  {
    && i + 7 <= |t|
    && IsDigit(t[i]) && IsDigit(t[i + 1])
    && IsUpper(t[i + 2]) && IsUpper(t[i + 3]) && IsUpper(t[i + 4])
    && IsDigit(t[i + 5]) && IsDigit(t[i + 6])
  }

  /** The leftmost match at or after `i`. */
  function FirstDateFrom(t: string, i: nat): (r: Option<nat>)
    decreases |t| - i
    ensures r.Some? ==> i <= r.value && DateAt(t, r.value) && forall j :: i <= j < r.value ==> !DateAt(t, j)
    ensures r.None? ==> forall j :: i <= j ==> !DateAt(t, j)
  {
    if i + 7 > |t| then None
    else if DateAt(t, i) then Some(i)
    else FirstDateFrom(t, i + 1)
  }

  /** The month number, or the text 'undefined' a missing key interpolates as. */
  function MonthText(mon: string): string
  {
    match Markets.MonthNumber(mon)
    case Some(n) => n
    case None => "undefined"
  }

  /** `20${yy}-${months[mon]}-${dd}` for the match at `i`. */
  function DateFragment(t: string, i: nat): string
    requires DateAt(t, i)
  {
    Markets.TickerDate(t[i..i + 2], MonthText(t[i + 2..i + 5]), t[i + 5..i + 7])
  }

  function TickerDateOf(t: string): Option<string>
  {
    match FirstDateFrom(t, 0)
    case None => None
    case Some(i) => Some(DateFragment(t, i))
  }

  // ------------------------------------------------------------ the threshold

  /** `-T(\d+)` matches at `i`. */
  predicate ThresholdAt(t: string, i: nat)
  {
    i + 3 <= |t| && t[i] == '-' && t[i + 1] == 'T' && IsDigit(t[i + 2])
  }

  function FirstThresholdFrom(t: string, i: nat): (r: Option<nat>)
    decreases |t| - i
    ensures r.Some? ==> i <= r.value && ThresholdAt(t, r.value) && forall j :: i <= j < r.value ==> !ThresholdAt(t, j)
    ensures r.None? ==> forall j :: i <= j ==> !ThresholdAt(t, j)
  {
    if i + 3 > |t| then None
    else if ThresholdAt(t, i) then Some(i)
    else FirstThresholdFrom(t, i + 1)
  }

  /** `parseInt` of the greedy digit run after `-T`. */
  function ThresholdValue(t: string, i: nat): nat
    requires ThresholdAt(t, i)
  {
    var digits := t[i + 2..];
    DigitsValue(digits[..DigitPrefixLen(digits)])
  }

  function TypeOf(t: string): MarketType
  {
    match FirstThresholdFrom(t, 0)
    case None => Binary
    case Some(i) => Threshold(ThresholdValue(t, i))
  }

  /** `normalizeFlightMarket` */
  function Normalize(m: RawMarket, series: string): FlightMarket
  {
    var yesBid := OrElse(m.yesBidCents, 0.0) / 100.0;
    var yesAsk := OrElse(m.yesAskCents, 0.0) / 100.0;
    FlightMarket(m.ticker, series, TypeOf(m.ticker), TickerDateOf(m.ticker), yesBid, yesAsk, (yesBid + yesAsk) / 2.0,
      OrElse(m.volume, 0.0), m.result)
  }

  predicate ValidMarket(m: FlightMarket)
  {
    0.0 <= m.yesBid <= 1.0 && 0.0 <= m.yesAsk <= 1.0
  }

  /**
   * Quotes in cents become dollar prices in [0, 1] with the midpoint
   * between them; the contract is a threshold contract exactly when its
   * ticker holds `-T` and a digit, with the number at the first such place.
   */
  lemma NormalizeSound(m: RawMarket, series: string)
    requires ValidRaw(m)
    ensures var f := Normalize(m, series);
      && ValidMarket(f)
      && f.yesBid * 100.0 == OrElse(m.yesBidCents, 0.0) && f.yesAsk * 100.0 == OrElse(m.yesAskCents, 0.0)
      && MinR(f.yesBid, f.yesAsk) <= f.midPrice <= MaxR(f.yesBid, f.yesAsk)
      && (f.marketType.Threshold? <==> exists i :: ThresholdAt(m.ticker, i))
      && (f.date.Some? <==> exists i :: DateAt(m.ticker, i))
  {
    var t := m.ticker;
    if FirstThresholdFrom(t, 0).Some? {
      assert ThresholdAt(t, FirstThresholdFrom(t, 0).value);
    }
    if FirstDateFrom(t, 0).Some? {
      assert DateAt(t, FirstDateFrom(t, 0).value);
    }
  }

  /** The leftmost match is the one read: a match with none before it is the first. */
  lemma FirstDateIs(t: string, k: nat)
    requires DateAt(t, k) && forall j :: 0 <= j < k ==> !DateAt(t, j)
    ensures TickerDateOf(t) == Some(DateFragment(t, k))
  {
    var r := FirstDateFrom(t, 0);
    assert r.Some?;
    assert r.value == k;
  }

  lemma FirstThresholdIs(t: string, k: nat)
    requires ThresholdAt(t, k) && forall j :: 0 <= j < k ==> !ThresholdAt(t, j)
    ensures TypeOf(t) == Threshold(ThresholdValue(t, k))
  {
    var r := FirstThresholdFrom(t, 0);
    assert r.Some?;
    assert r.value == k;
  }

  /** 'FLIGHTORD-25MAR14-T300' is the 2025-03-14 contract on more than 300 delays. */
  lemma ExampleThreshold()
    ensures var f := Normalize(RawMarket("FLIGHTORD-25MAR14-T300", Some(40.0), Some(46.0), Some(120.0), None), "FLIGHTORD");
      && f.marketType == Threshold(300)
      && f.date == Some("2025-03-14")
      && f.yesBid == 0.40 && f.yesAsk == 0.46 && f.midPrice == 0.43
  {
    ExampleThresholdDate("FLIGHTORD-25MAR14-T300");
    ExampleThresholdType();
  }

  lemma ExampleThresholdDate(t: string)
    requires t == "FLIGHTORD-25MAR14-T300"
    ensures TickerDateOf(t) == Some("2025-03-14")
  {
    NoDateBefore(t, 10);
    MarchFragment(t);
    FirstDateIs(t, 10);
  }

  lemma MarchFragment(t: string)
    requires t == "FLIGHTORD-25MAR14-T300"
    ensures DateAt(t, 10) && DateFragment(t, 10) == "2025-03-14"
  {
    var yy, mon, dd := t[10..12], t[12..15], t[15..17];
    assert yy == "25" && mon == "MAR" && dd == "14";
    assert MonthText(mon) == "03";
    assert Markets.TickerDate(yy, "03", dd) == "2025-03-14";
  }

  /** No date fragment starts in a prefix made of letters and dashes. */
  lemma NoDateBefore(t: string, k: nat)
    requires k < |t| && forall j :: 0 <= j < k ==> !IsDigit(t[j])
    ensures forall j :: 0 <= j < k ==> !DateAt(t, j)
  {
  }

  lemma ExampleThresholdType()
    ensures TypeOf("FLIGHTORD-25MAR14-T300") == Threshold(300)
  {
    var t := "FLIGHTORD-25MAR14-T300";
    assert ThresholdAt(t, 17);
    forall j | 0 <= j < 17 ensures !ThresholdAt(t, j) {
      assert t[j] != '-' || t[j + 1] != 'T';
    }
    var digits := t[19..];
    assert digits == "300";
    ThreeDigits(digits);
    FirstThresholdIs(t, 17);
  }

  lemma ThreeDigits(digits: string)
    requires digits == "300"
    ensures DigitPrefixLen(digits) == 3 && DigitsValue(digits[..3]) == 300
  {
    assert digits[1..] == "00" && "00"[1..] == "0" && "0"[1..] == [];
    assert DigitPrefixLen("0") == 1 && DigitPrefixLen("00") == 2;
    assert digits[..3] == digits && digits[..2] == "30" && "30"[..1] == "3" && "3"[..0] == [];
  }

  /** A date fragment with an unknown month abbreviation reads as the month 'undefined'. */
  lemma ExampleUnknownMonth(t: string)
    requires t == "ORDDLY-25XYZ14"
    ensures TickerDateOf(t) == Some("2025-undefined-14")
  {
    assert forall j :: 0 <= j < 7 ==> !IsDigit(t[j]);
    NoDateBefore(t, 7);
    UnknownFragment(t);
    FirstDateIs(t, 7);
  }

  lemma UnknownFragment(t: string)
    requires t == "ORDDLY-25XYZ14"
    ensures DateAt(t, 7) && DateFragment(t, 7) == "2025-undefined-14"
  {
    var yy, mon, dd := t[7..9], t[9..12], t[12..14];
    assert yy == "25" && mon == "XYZ" && dd == "14";
    assert MonthText(mon) == "undefined";
    assert Markets.TickerDate(yy, "undefined", dd) == "2025-undefined-14";
  }

  // ------------------------------------------------------------ scoring

  datatype FlightRec = FlightRec(
    ticker: string,
    date: Option<string>,
    side: Side,
    price: real,
    pEst: real,
    edge: real,
    ev: real,
    sizing: Sizing.PositionSizing,
    marketType: MarketType,
    volume: real,
    lowLiquidity: bool)

  /** `!market.result`: no result, or an empty one. */
  predicate Settled(result: Option<string>)
  {
    result.Some? && result.value != ""
  }

  /** The model probability of YES: the delay probability, or the chance of more delays than the threshold. */
  function ProbabilityFor(m: FlightMarket, pDelay: real, pAbove: int -> real): real
  {
    match m.marketType
    case Binary => pDelay
    case Threshold(n) => pAbove(n)
  }

  /** The sized recommendation for a kept pick, or none when the sizing buys nothing. */
  function SizedRec(m: FlightMarket, p: Pick, sizing: Sizing.PositionSizing): (r: Option<FlightRec>)
    ensures r.None? <==> sizing.contracts <= 0
    ensures r.Some? ==>
      && r.value.side == p.side && r.value.price == p.price && r.value.pEst == p.pEst && r.value.edge == p.edge
      && r.value.ev == p.edge * sizing.contracts as real && r.value.sizing == sizing
      && r.value.ticker == m.ticker && r.value.date == m.date && r.value.marketType == m.marketType
      && (r.value.lowLiquidity <==> m.volume < LowLiquidityVolume)
  {
    if sizing.contracts <= 0 then None
    else
      Some(FlightRec(m.ticker, m.date, p.side, p.price, p.pEst, p.edge, p.edge * sizing.contracts as real, sizing,
        m.marketType, m.volume, m.volume < LowLiquidityVolume))
  }

  /**
   * `scoreFlightContract`: an active market nobody traded scores nothing;
   * otherwise YES is priced at the ask and NO at one minus the bid, each
   * falling back to the midpoint when zero, and the side rule with its 99%
   * cap picks the trade.
   */
  function ScoreFlight(m: FlightMarket, pDelay: real, pAbove: int -> real, balance: real, minEdge: real): (r: Option<FlightRec>)
    requires ValidMarket(m)
    ensures r.Some? ==> r.value.ticker == m.ticker && r.value.date == m.date
  {
    if m.volume == 0.0 && !Settled(m.result) then None
    else
      var prices := AskOrMid(m.yesBid, m.yesAsk);
      match CappedPick(ProbabilityFor(m, pDelay, pAbove), prices.0, prices.1, minEdge)
      case None => None
      case Some(pick) => SizedRec(m, pick, Sizing.PositionSize(balance, pick.pEst, pick.price, MaxPct, Some(m.volume)))
  }

  /**
   * Every recommendation comes from a traded or settled market, buys the
   * side the rule picks at its executable price, with an estimate of at
   * most 99%, an edge of at least the minimum and at least one contract.
   */
  lemma ScoreFlightKept(m: FlightMarket, pDelay: real, pAbove: int -> real, balance: real, minEdge: real)
    requires ValidMarket(m)
    ensures var r := ScoreFlight(m, pDelay, pAbove, balance, minEdge);
      var prices := AskOrMid(m.yesBid, m.yesAsk);
      var p := ProbabilityFor(m, pDelay, pAbove);
      var yesEdge, noEdge := p - prices.0, (1.0 - p) - prices.1;
      r.Some? ==>
        && (m.volume != 0.0 || Settled(m.result))
        && (r.value.side == BuyYes <==> yesEdge >= minEdge && yesEdge >= noEdge)
        && r.value.price == (if r.value.side == BuyYes then prices.0 else prices.1)
        && r.value.pEst <= EstimateCap
        && r.value.edge >= minEdge
        && r.value.sizing.contracts >= 1
        && r.value.date == m.date
  {
    var r := ScoreFlight(m, pDelay, pAbove, balance, minEdge);
    if r.Some? {
      var p := ProbabilityFor(m, pDelay, pAbove);
      var prices := AskOrMid(m.yesBid, m.yesAsk);
      var cp := CappedPick(p, prices.0, prices.1, minEdge);
      assert cp.Some?;
      var pick := cp.value;
      var sizing := Sizing.PositionSize(balance, pick.pEst, pick.price, MaxPct, Some(m.volume));
      assert r == SizedRec(m, pick, sizing);
      var c := ChooseSide(p, prices.0, prices.1, minEdge);
      assert c.Some? && pick.side == c.value.side && pick.price == c.value.price;
    }
  }

  /** A zero-volume market without a result is never recommended, whatever the model says. */
  lemma UntradedActiveSkipped(m: FlightMarket, pDelay: real, pAbove: int -> real, balance: real, minEdge: real)
    requires ValidMarket(m) && m.volume == 0.0 && !Settled(m.result)
    ensures ScoreFlight(m, pDelay, pAbove, balance, minEdge).None?
  {
  }

  // ------------------------------------------------------------ the strategy

  /** The recommendations for the markets dated `date`, in market order. */
  function RecsForDate(markets: seq<FlightMarket>, date: string, pDelay: real, pAbove: int -> real, balance: real, minEdge: real): (r: seq<FlightRec>)
    requires forall i :: 0 <= i < |markets| ==> ValidMarket(markets[i])
    ensures forall i :: 0 <= i < |r| ==> r[i].date == Some(date)
  {
    if markets == [] then []
    else
      var init := markets[..|markets| - 1];
      var m := markets[|markets| - 1];
      var rest := RecsForDate(init, date, pDelay, pAbove, balance, minEdge);
      match DatedScore(m, date, pDelay, pAbove, balance, minEdge)
      case None => rest
      case Some(rec) => rest + [rec]
  }

  /** The score of one market on the target day; markets of other days are skipped. */
  function DatedScore(m: FlightMarket, date: string, pDelay: real, pAbove: int -> real, balance: real, minEdge: real): (r: Option<FlightRec>)
    requires ValidMarket(m)
    ensures r.Some? ==> r.value.date == Some(date)
    ensures m.date != Some(date) ==> r.None?
  {
    if m.date != Some(date) then None else ScoreFlight(m, pDelay, pAbove, balance, minEdge)
  }

  function EvOf(r: FlightRec): real { r.ev }

  /**
   * The scoring loop and sort of `runFlightStrategy`: only markets dated
   * on the target day are scored, and the recommendations come out in
   * descending order of expected value.
   */
  method RunFlightStrategy(markets: seq<FlightMarket>, date: string, pDelay: real, pAbove: int -> real, balance: real, minEdge: real)
    returns (recs: seq<FlightRec>)
    requires forall i :: 0 <= i < |markets| ==> ValidMarket(markets[i])
    ensures recs == Ordering.SortDesc(RecsForDate(markets, date, pDelay, pAbove, balance, minEdge), EvOf)
    ensures Ordering.SortedDesc(recs, EvOf)
    ensures multiset(recs) == multiset(RecsForDate(markets, date, pDelay, pAbove, balance, minEdge))
    ensures forall i :: 0 <= i < |recs| ==> recs[i].date == Some(date)
  {
    var pushed: seq<FlightRec> := [];
    for i := 0 to |markets|
      invariant pushed == RecsForDate(markets[..i], date, pDelay, pAbove, balance, minEdge)
    {
      assert markets[..i + 1][..i] == markets[..i];
      var m := markets[i];
      if m.date == Some(date) {
        var rec := ScoreFlight(m, pDelay, pAbove, balance, minEdge);
        assert rec == DatedScore(m, date, pDelay, pAbove, balance, minEdge);
        if rec.Some? {
          pushed := pushed + [rec.value];
        }
      }
    }
    assert markets[..|markets|] == markets;
    recs := Ordering.SortDesc(pushed, EvOf);
    forall i | 0 <= i < |recs| ensures recs[i].date == Some(date) {
      assert recs[i] in multiset(recs);
      assert recs[i] in pushed;
    }
  }
}
