// Scoring one temperature contract against a forecast: the price and
// liquidity filters, the side rule with its 99% cap, and the sizing. The
// model probability is an input (the normal-distribution integrals that
// produce it are not part of this model).

module WeatherMatcher {
  import opened Prelude
  import opened SideRule
  import opened Utils
  import Markets
  import Sizing
  import WeatherStations
  import Ensemble

  /** Widest bid-ask spread a contract may have. */
  const MaxSpread: real := 0.10
  /** Volume below which a recommendation is flagged as thin. */
  const LowLiquidityVolume: real := 500.0

  /** A market as the exchange client reports it, prices in dollars. */
  datatype Market = Market(
    ticker: string,
    yesBid: real,
    yesAsk: real,
    volume: Option<real>,
    yesBidSize: Option<real>,
    yesAskSize: Option<real>)

  predicate ValidPrices(m: Market)
  {
    0.0 <= m.yesBid <= 1.0 && 0.0 <= m.yesAsk <= 1.0
  }

  datatype Recommendation = Recommendation(
    ticker: string,
    kind: Markets.TempKind,
    isThreshold: bool,
    threshold: Option<real>,
    side: Side,
    price: real,
    pEst: real,
    edge: real,
    ev: real,
    sizing: Sizing.PositionSizing,
    forecastTemp: real,
    forecastSpread: real,
    volume: real,
    lowLiquidity: bool,
    yesDepth: real,
    noDepth: real,
    totalDepth: real)

  /** `parsed.tempType || 'high'`: crypto tickers carry no temperature kind. */
  function KindOf(t: Markets.Ticker): Markets.TempKind
  {
    if t.Weather? then t.kind else Markets.HighTemp
  }

  /** `parsed.threshold || parsed.bracket`: a zero or unparsable threshold falls through. */
  function ThresholdField(t: Markets.Ticker): (r: Option<real>)
    ensures t.Crypto? ==> (r.Some? <==> t.threshold != 0)
    ensures t.Weather? && t.contract.Bracket? ==> r == t.contract.bracket
    ensures t.Weather? && t.contract.Threshold? ==> (r.Some? <==> Truthy(t.contract.threshold))
  {
    match t
    case Crypto(_, _, _, th) => if th != 0 then Some(th as real) else None
    case Weather(_, _, _, _, c) =>
      match c
      case Threshold(th) => if Truthy(th) then th else None
      case Bracket(b, _, _) => b
  }

  function Mid(m: Market): real
  {
    (m.yesBid + m.yesAsk) / 2.0
  }

  /**
   * The filters before the side rule: the midpoint must lie strictly
   * between 3¢ and 97¢, some volume must have traded, and the spread must
   * be at most 10¢.
   */
  predicate PassesFilters(m: Market)
  {
    && 0.03 < Mid(m) < 0.97
    && OrElse(m.volume, 0.0) != 0.0
    && m.yesAsk - m.yesBid <= MaxSpread
  }

  /**
   * The recommendation for a pick once it has been sized: none when the
   * sizing buys nothing, and otherwise the pick with its expected value.
   */
  function Sized(
    parsed: Markets.Ticker, m: Market, p: Pick, sizing: Sizing.PositionSizing,
    adjustedMean: real, spread: Option<real>): (r: Option<Recommendation>)
    ensures r.None? <==> sizing.contracts <= 0
    ensures r.Some? ==>
      && r.value.side == p.side
      && r.value.price == p.price
      && r.value.pEst == p.pEst
      && r.value.edge == p.edge
      && r.value.sizing == sizing
      && r.value.ev == r.value.edge * (sizing.contracts as real)
      && r.value.volume == OrElse(m.volume, 0.0)
      && (r.value.lowLiquidity <==> r.value.volume < LowLiquidityVolume)
      && r.value.forecastTemp == adjustedMean
      && r.value.forecastSpread == OrElse(spread, 0.0)
      && r.value.threshold == ThresholdField(parsed)
      && r.value.totalDepth == r.value.yesDepth + r.value.noDepth
  {
    if sizing.contracts <= 0 then None
    else
      var volume := OrElse(m.volume, 0.0);
      var yesDepth := OrElse(m.yesBidSize, 0.0);
      var noDepth := OrElse(m.yesAskSize, 0.0);
      Some(Recommendation(
        m.ticker, KindOf(parsed), parsed.IsThreshold(), ThresholdField(parsed),
        p.side, p.price, p.pEst, p.edge, p.edge * (sizing.contracts as real), sizing,
        adjustedMean, OrElse(spread, 0.0), volume, volume < LowLiquidityVolume,
        yesDepth, noDepth, yesDepth + noDepth))
  }

  /** The scoring of a market whose ticker has already parsed as `parsed`. */
  function ScoreParsed(
    parsed: Markets.Ticker, m: Market, pTrue: real, adjustedMean: real,
    spread: Option<real>, balance: real, minEdge: real): (r: Option<Recommendation>)
    requires ValidPrices(m)
    ensures var prices := AskOrMid(m.yesBid, m.yesAsk);
      var pick := CappedPick(pTrue, prices.0, prices.1, minEdge);
      (r.None? <==> (!PassesFilters(m) || pick.None?
        || Sizing.PositionSize(balance, pick.value.pEst, pick.value.price, Sizing.DefaultMaxPct, Some(OrElse(m.volume, 0.0))).contracts <= 0))
      && (r.Some? ==> r == Sized(parsed, m, pick.value,
        Sizing.PositionSize(balance, pick.value.pEst, pick.value.price, Sizing.DefaultMaxPct, Some(OrElse(m.volume, 0.0))),
        adjustedMean, spread))
  {
    if !PassesFilters(m) then None
    else
      var prices := AskOrMid(m.yesBid, m.yesAsk);
      match CappedPick(pTrue, prices.0, prices.1, minEdge)
      case None => None
      case Some(p) =>
        var sizing := Sizing.PositionSize(balance, p.pEst, p.price, Sizing.DefaultMaxPct, Some(OrElse(m.volume, 0.0)));
        Sized(parsed, m, p, sizing, adjustedMean, spread)
  }

  /**
   * Every recommendation passed the filters, carries an estimate of at
   * most 99% and an edge of at least the minimum, measured against the
   * executable price of its side, and buys at least one contract.
   */
  lemma ScoreParsedKept(
    parsed: Markets.Ticker, m: Market, pTrue: real, adjustedMean: real,
    spread: Option<real>, balance: real, minEdge: real)
    requires ValidPrices(m)
    ensures var r := ScoreParsed(parsed, m, pTrue, adjustedMean, spread, balance, minEdge);
      var prices := AskOrMid(m.yesBid, m.yesAsk);
      r.Some? ==> (
        && PassesFilters(m)
        && r.value.pEst <= EstimateCap
        && r.value.edge >= minEdge
        && r.value.edge == r.value.pEst - r.value.price
        && r.value.price == (if r.value.side == BuyYes then prices.0 else prices.1)
        && r.value.sizing.contracts >= 1
        && r.value.volume != 0.0
        && (r.value.lowLiquidity <==> r.value.volume < LowLiquidityVolume))
  {
    var r := ScoreParsed(parsed, m, pTrue, adjustedMean, spread, balance, minEdge);
    if r.Some? {
      var prices := AskOrMid(m.yesBid, m.yesAsk);
      var p := CappedPick(pTrue, prices.0, prices.1, minEdge).value;
      var sizing := Sizing.PositionSize(balance, p.pEst, p.price, Sizing.DefaultMaxPct, Some(OrElse(m.volume, 0.0)));
      assert r == Sized(parsed, m, p, sizing, adjustedMean, spread);
    }
  }

  /**
   * `scoreContract(mkt, fc, …)`: an unparsable ticker scores nothing;
   * otherwise the parsed contract is scored.
   */
  function ScoreContract(
    m: Market, pTrue: real, adjustedMean: real, spread: Option<real>,
    balance: real, minEdge: real): (r: Option<Recommendation>)
    requires ValidPrices(m)
    ensures Markets.ParseTicker(m.ticker).None? ==> r.None?
    ensures Markets.ParseTicker(m.ticker).Some? ==>
      r == ScoreParsed(Markets.ParseTicker(m.ticker).value, m, pTrue, adjustedMean, spread, balance, minEdge)
  {
    match Markets.ParseTicker(m.ticker)
    case None => None
    case Some(parsed) => ScoreParsed(parsed, m, pTrue, adjustedMean, spread, balance, minEdge)
  }

  /**
   * With a positive minimum edge the sizing filter never fires: a pick that
   * survives the cap has a positive edge, so it is always sized at one
   * contract or more.
   */
  lemma SizingNeverRejects(
    parsed: Markets.Ticker, m: Market, pTrue: real, adjustedMean: real,
    spread: Option<real>, balance: real, minEdge: real)
    requires ValidPrices(m) && minEdge > 0.0
    ensures var prices := AskOrMid(m.yesBid, m.yesAsk);
      var r := ScoreParsed(parsed, m, pTrue, adjustedMean, spread, balance, minEdge);
      r.None? <==> !PassesFilters(m) || CappedPick(pTrue, prices.0, prices.1, minEdge).None?
  {
    var prices := AskOrMid(m.yesBid, m.yesAsk);
    var pick := CappedPick(pTrue, prices.0, prices.1, minEdge);
    if PassesFilters(m) && pick.Some? {
      var p := pick.value;
      assert p.pEst > p.price >= 0.0;
      var s := Sizing.PositionSize(balance, p.pEst, p.price, Sizing.DefaultMaxPct, Some(OrElse(m.volume, 0.0)));
      assert s.contracts >= 1;
    }
  }

  /**
   * A recommendation always buys the side with the larger raw edge, and its
   * (capped) edge is no larger than that raw edge.
   */
  lemma ScoreBuysBetterSide(
    parsed: Markets.Ticker, m: Market, pTrue: real, adjustedMean: real,
    spread: Option<real>, balance: real, minEdge: real)
    requires ValidPrices(m)
    ensures var prices := AskOrMid(m.yesBid, m.yesAsk);
      var r := ScoreParsed(parsed, m, pTrue, adjustedMean, spread, balance, minEdge);
      var yesEdge, noEdge := pTrue - prices.0, (1.0 - pTrue) - prices.1;
      r.Some? ==> (
        && (r.value.side == BuyYes <==> yesEdge >= noEdge)
        && minEdge <= r.value.edge <= MaxR(yesEdge, noEdge))
  {
    var prices := AskOrMid(m.yesBid, m.yesAsk);
    CappedPickEdge(pTrue, prices.0, prices.1, minEdge);
  }

  /**
   * `getEffectiveSigmaForForecast(fc, station, date, tempType)`: the
   * ensemble's effective sigma unless it is zero, in which case the
   * station's seasonal, horizon-scaled sigma.
   */
  function EffectiveSigmaForForecast(
    table: WeatherStations.StationTable, station: string, f: Ensemble.ModelHighs,
    month: int, horizon: int, low: bool): real
  {
    var e := Ensemble.EnsembleTradeability(table, station, f).effectiveSigma;
    if e != 0.0 then e else WeatherStations.EffectiveSigma(table, station, month, horizon, low)
  }

  /**
   * For a station whose base sigma is at least a cent the fallback never
   * fires: the sigma used is the ensemble sigma to the cent, which is no
   * more than a cent below the base.
   */
  lemma EnsembleSigmaAlwaysUsed(
    table: WeatherStations.StationTable, station: string, f: Ensemble.ModelHighs,
    month: int, horizon: int, low: bool)
    requires Ensemble.StationBaseSigma(table, station) >= 0.01
    ensures var r := EffectiveSigmaForForecast(table, station, f, month, horizon, low);
      && r == Round2(Ensemble.EnsembleSigma(table, station, f))
      && r > Ensemble.StationBaseSigma(table, station) - 0.01
  {
    Ensemble.EnsembleSigmaFloor(table, station, f);
  }
}
