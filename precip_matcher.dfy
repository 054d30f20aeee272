// Rain markets: parsing the daily-binary and monthly-threshold tickers,
// scoring a contract against a model probability (the side rule with the
// 99% cap, then sizing), and ranking the recommendations by expected value.
// The model probabilities themselves (calibrated PoP, Gamma survival) are
// inputs.

module PrecipMatcher {
  import opened Prelude
  import opened Text
  import opened Utils
  import opened SideRule
  import Markets
  import Sizing
  import Ordering
  import PrecipStations

  /** Widest bid-ask spread a contract may have. */
  const MaxSpread: real := 0.10
  /** Default minimum edge. */
  const DefaultMinEdge: real := 0.05
  /** Volume below which a recommendation is flagged as thin. */
  const LowLiquidityVolume: real := 100.0
  /** Cap on the bankroll fraction the sizing may risk. */
  const MaxPct: real := 0.05

  // ------------------------------------------------------------------ tickers

  /** `\w` */
  predicate IsWordChar(c: char) { IsDigit(c) || IsUpper(c) || IsLower(c) || c == '_' }
  predicate AllWord(s: string) { forall i :: 0 <= i < |s| ==> IsWordChar(s[i]) }

  /** Number of leading word characters of `s`. */
  function WordPrefixLen(s: string): (n: nat)
    ensures n <= |s| && AllWord(s[..n])
    ensures n < |s| ==> !IsWordChar(s[n])
  {
    if s == [] || !IsWordChar(s[0]) then 0
    else
      var n := 1 + WordPrefixLen(s[1..]);
      assert s[..n] == [s[0]] + s[1..][..n - 1];
      n
  }

  lemma {:induction false} WordPrefixLenExact(s: string, n: nat)
    requires n < |s| && AllWord(s[..n]) && !IsWordChar(s[n])
    ensures WordPrefixLen(s) == n
  {
    if n > 0 {
      assert IsWordChar(s[..n][0]);
      assert s[1..][..n - 1] == s[..n][1..];
      WordPrefixLenExact(s[1..], n - 1);
    }
  }

  /** The captures of `^KXRAIN(\w+)-(\d{2})([A-Z]{3})(\d{2})-T0$`. */
  datatype DailyMatch = DailyMatch(city: string, date: Markets.DateCode)

  predicate WellFormedDaily(m: DailyMatch)
  {
    |m.city| >= 1 && AllWord(m.city) && Markets.WellFormedDate(m.date)
  }

  function ComposeDaily(m: DailyMatch): string
  {
    "KXRAIN" + m.city + ("-" + Markets.DateText(m.date) + "-" + "T0")
  }

  /** The captures of `^KXRAIN(\w+)M-(\d{2})([A-Z]{3})-(\d+)$`. */
  datatype MonthlyMatch = MonthlyMatch(city: string, yy: string, mon: string, thresh: string)

  predicate WellFormedMonthly(m: MonthlyMatch)
  {
    && |m.city| >= 1 && AllWord(m.city)
    && |m.yy| == 2 && AllDigits(m.yy) && |m.mon| == 3 && AllUpper(m.mon)
    && |m.thresh| >= 1 && AllDigits(m.thresh)
  }

  function ComposeMonthly(m: MonthlyMatch): string
  {
    "KXRAIN" + m.city + "M" + ("-" + m.yy + m.mon + "-" + m.thresh)
  }

  /**
   * Matches a daily ticker. The series `KXRAIN\w+` runs up to the first
   * non-word character, which must open the date code.
   */
  function MatchDaily(t: string): (r: Option<DailyMatch>)
    ensures r.Some? ==> WellFormedDaily(r.value) && ComposeDaily(r.value) == t
  {
    if |t| >= 6 && t[..6] == "KXRAIN" then
      var n := 6 + WordPrefixLen(t[6..]);
      var dm := Markets.MatchDate(t[n..]);
      if n >= 7 && dm.Some? && dm.value.1 == "T0" then
        assert t[6..][..n - 6] == t[6..n];
        assert t == t[..6] + t[6..n] + t[n..];
        Some(DailyMatch(t[6..n], dm.value.0))
      else None
    else None
  }

  lemma MatchDailyComplete(m: DailyMatch)
    requires WellFormedDaily(m)
    ensures MatchDaily(ComposeDaily(m)) == Some(m)
  {
    var t := ComposeDaily(m);
    var n := 6 + |m.city|;
    var tail := "-" + Markets.DateText(m.date) + "-" + "T0";
    assert t[..6] == "KXRAIN" && t[6..n] == m.city && t[n..] == tail;
    assert t[6..][..n - 6] == m.city && t[6..][n - 6] == '-';
    WordPrefixLenExact(t[6..], n - 6);
    Markets.MatchDateComplete(m.date, "T0");
  }

  /**
   * Matches a monthly ticker: the series must end in `M` with at least one
   * word character between `KXRAIN` and it.
   */
  function MatchMonthly(t: string): (r: Option<MonthlyMatch>)
    ensures r.Some? ==> WellFormedMonthly(r.value) && ComposeMonthly(r.value) == t
  {
    if |t| >= 6 && t[..6] == "KXRAIN" then
      var n := 6 + WordPrefixLen(t[6..]);
      if n >= 8 && t[n - 1] == 'M' && |t| >= n + 8 && t[n] == '-'
        && AllDigits(t[n + 1..n + 3]) && AllUpper(t[n + 3..n + 6]) && t[n + 6] == '-' && AllDigits(t[n + 7..])
      then
        var m := MonthlyMatch(t[6..n - 1], t[n + 1..n + 3], t[n + 3..n + 6], t[n + 7..]);
        assert t[6..][..n - 6] == t[6..n] && t[6..n] == m.city + "M";
        assert AllWord(m.city) by {
          var w := t[6..][..n - 6];
          assert AllWord(w);
          assert forall i :: 0 <= i < |m.city| ==> m.city[i] == w[i];
        }
        assert t == t[..6] + t[6..n - 1] + "M" + ("-" + m.yy + m.mon + "-" + m.thresh);
        Some(m)
      else None
    else None
  }

  lemma MatchMonthlyComplete(m: MonthlyMatch)
    requires WellFormedMonthly(m)
    ensures MatchMonthly(ComposeMonthly(m)) == Some(m)
  {
    var t := ComposeMonthly(m);
    var n := 7 + |m.city|;
    var head := "KXRAIN" + m.city + "M";
    var tail := "-" + m.yy + m.mon + "-" + m.thresh;
    assert t == head + tail && |head| == n;
    assert t[..6] == "KXRAIN" && t[6..n] == m.city + "M" && t[n - 1] == 'M';
    assert t[n..] == tail && tail[0] == '-' && tail[6] == '-';
    assert tail[1..3] == m.yy && tail[3..6] == m.mon && tail[7..] == m.thresh;
    assert t[6..][..n - 6] == m.city + "M" && t[6..][n - 6] == '-';
    WordPrefixLenExact(t[6..], n - 6);
    assert t[n + 1..n + 3] == m.yy && t[n + 3..n + 6] == m.mon && t[n + 7..] == m.thresh;
    assert t[6..n - 1] == m.city;
    assert t[n] == '-' && t[n + 6] == '-' && |t| >= n + 8;
  }

  /** A monthly ticker is never taken for a daily one: its date code has no day. */
  lemma MonthlyIsNotDaily(m: MonthlyMatch)
    requires WellFormedMonthly(m)
    ensures MatchDaily(ComposeMonthly(m)).None?
  {
    var t := ComposeMonthly(m);
    var n := 7 + |m.city|;
    assert t[6..][..n - 6] == m.city + "M" && t[6..][n - 6] == '-';
    WordPrefixLenExact(t[6..], n - 6);
    assert t[n..][6] == '-';
  }

  datatype PrecipTicker =
    | DailyTicker(series: string, date: string, month: int)
    | MonthlyTicker(series: string, yearMonth: string, month: int, year: int, threshold: int)

  /** `parseInt(monthNum)` of a month number is the month, 1 to 12. */
  lemma MonthNumberValue(s: string)
    requires Markets.IsMonthNumber(s)
    ensures AllDigits(s) && 1 <= DigitsValue(s) <= 12
  {
    assert |s| == 2 && s[..1] == [s[0]];
    assert AllDigits(s);
    assert DigitsValue(s) == DigitVal(s[0]) * 10 + DigitVal(s[1]);
  }

  function ParseDaily(m: DailyMatch): (r: Option<PrecipTicker>)
    requires WellFormedDaily(m)
    ensures r.Some? ==> 1 <= r.value.month <= 12
  {
    match Markets.MonthNumber(m.date.mon)
    case None => None
    case Some(monthNum) =>
      MonthNumberValue(monthNum);
      Some(DailyTicker("KXRAIN" + m.city, Markets.TickerDate(m.date.yy, monthNum, m.date.dd), DigitsValue(monthNum)))
  }

  function ParseMonthly(m: MonthlyMatch): (r: Option<PrecipTicker>)
    requires WellFormedMonthly(m)
    ensures r.Some? ==> 1 <= r.value.month <= 12
  {
    match Markets.MonthNumber(m.mon)
    case None => None
    case Some(monthNum) =>
      MonthNumberValue(monthNum);
      Some(MonthlyTicker("KXRAIN" + m.city + "M", "20" + m.yy + "-" + monthNum, DigitsValue(monthNum),
        2000 + DigitsValue(m.yy), DigitsValue(m.thresh)))
  }

  /**
   * `parsePrecipTicker(ticker)`: nothing for an empty ticker; a daily
   * ticker, else a monthly ticker; an unknown month code rejects it.
   */
  function ParsePrecipTicker(t: string): (r: Option<PrecipTicker>)
    ensures t == [] ==> r.None?
    ensures r.Some? ==> 1 <= r.value.month <= 12
  {
    if t == [] then None
    else if MatchDaily(t).Some? then ParseDaily(MatchDaily(t).value)
    else if MatchMonthly(t).Some? then ParseMonthly(MatchMonthly(t).value)
    else None
  }

  /** Whatever parses has exactly the shape one of the two expressions demands. */
  lemma ParsePrecipSound(t: string)
    ensures var r := ParsePrecipTicker(t);
      (r.Some? && r.value.DailyTicker? ==> exists m :: WellFormedDaily(m) && t == ComposeDaily(m))
      && (r.Some? && r.value.MonthlyTicker? ==> exists m :: WellFormedMonthly(m) && t == ComposeMonthly(m))
  {
    if t != [] && MatchDaily(t).Some? {
      assert t == ComposeDaily(MatchDaily(t).value);
    } else if t != [] && MatchMonthly(t).Some? {
      assert t == ComposeMonthly(MatchMonthly(t).value);
    }
  }

  /**
   * A daily ticker with a known month parses to the date 20YY-MM-DD and
   * the month's number; with an unknown month it does not parse.
   */
  lemma ParseDailyTicker(m: DailyMatch)
    requires WellFormedDaily(m)
    ensures var monthNum := Markets.MonthNumber(m.date.mon);
      && (monthNum.None? ==> ParsePrecipTicker(ComposeDaily(m)).None?)
      && (monthNum.Some? ==> ParsePrecipTicker(ComposeDaily(m)) == Some(DailyTicker(
        "KXRAIN" + m.city, "20" + m.date.yy + "-" + monthNum.value + "-" + m.date.dd, DigitsValue(monthNum.value))))
  {
    MatchDailyComplete(m);
  }

  /**
   * A monthly ticker with a known month parses to the year 2000 + YY, the
   * year-month 20YY-MM and its threshold; with an unknown month it does
   * not parse.
   */
  lemma ParseMonthlyTicker(m: MonthlyMatch)
    requires WellFormedMonthly(m)
    ensures var monthNum := Markets.MonthNumber(m.mon);
      && (monthNum.None? ==> ParsePrecipTicker(ComposeMonthly(m)).None?)
      && (monthNum.Some? ==> ParsePrecipTicker(ComposeMonthly(m)) == Some(MonthlyTicker(
        "KXRAIN" + m.city + "M", "20" + m.yy + "-" + monthNum.value, DigitsValue(monthNum.value),
        2000 + DigitsValue(m.yy), DigitsValue(m.thresh))))
  {
    MonthlyIsNotDaily(m);
    MatchMonthlyComplete(m);
  }

  lemma DigitFacts()
    ensures DigitsValue("02") == 2 && DigitsValue("26") == 26 && DigitsValue("5") == 5
  {
    assert "02"[..1] == "0";
    assert "26"[..1] == "2";
  }

  /** 'KXRAINNYC-26FEB11-T0' is New York rain on 2026-02-11. */
  lemma ExampleDaily()
    ensures ParsePrecipTicker("KXRAINNYC-26FEB11-T0") == Some(DailyTicker("KXRAINNYC", "2026-02-11", 2))
  {
    var m := DailyMatch("NYC", Markets.DateCode("26", "FEB", "11"));
    assert WellFormedDaily(m);
    assert ComposeDaily(m) == "KXRAINNYC-26FEB11-T0";
    assert Markets.MonthNumber("FEB") == Some("02");
    assert "KXRAIN" + "NYC" == "KXRAINNYC";
    assert "20" + "26" + "-" + "02" + "-" + "11" == "2026-02-11";
    DigitFacts();
    ParseDailyTicker(m);
  }

  /** 'KXRAINDENM-26FEB-5' is Denver's February 2026 total above 5 inches. */
  lemma ExampleMonthly()
    ensures ParsePrecipTicker("KXRAINDENM-26FEB-5") == Some(MonthlyTicker("KXRAINDENM", "2026-02", 2, 2026, 5))
  {
    var m := MonthlyMatch("DEN", "26", "FEB", "5");
    assert WellFormedMonthly(m);
    assert ComposeMonthly(m) == "KXRAINDENM-26FEB-5";
    assert Markets.MonthNumber("FEB") == Some("02");
    assert "KXRAIN" + "DEN" + "M" == "KXRAINDENM";
    assert "20" + "26" + "-" + "02" == "2026-02";
    DigitFacts();
    ParseMonthlyTicker(m);
  }

  // ------------------------------------------------------------------ scoring

  /** A market as the exchange client reports it, prices in dollars; a missing price reads as 0. */
  datatype Quote = Quote(ticker: string, yesBid: Option<real>, yesAsk: Option<real>, volume: Option<real>)

  predicate ValidQuote(q: Quote)
  {
    (q.yesBid.Some? ==> 0.0 <= q.yesBid.value <= 1.0) && (q.yesAsk.Some? ==> 0.0 <= q.yesAsk.value <= 1.0)
  }

  /** The trade part of a recommendation; probabilities and money to the cent. */
  datatype Scored = Scored(
    side: Side,
    price: real,
    pEst: real,
    edge: real,
    ev: real,
    sizing: Sizing.PositionSizing,
    prob: real,
    volume: real,
    lowLiquidity: bool,
    spread: real)

  /**
   * The recommendation for a pick once sized: none when the sizing buys
   * nothing; otherwise the pick with its estimate, edge and expected value
   * rounded to the cent.
   */
  function Sized(p: Pick, sizing: Sizing.PositionSizing, prob: real, volume: real, spread: real): (r: Option<Scored>)
    ensures r.None? <==> sizing.contracts <= 0
    ensures r.Some? ==>
      && r.value.side == p.side && r.value.price == p.price && r.value.sizing == sizing
      && r.value.pEst == Round2(p.pEst) && r.value.edge == Round2(p.edge)
      && r.value.ev == Round2(p.edge * sizing.contracts as real)
      && r.value.prob == Round2(prob) && r.value.spread == Round2(spread)
      && r.value.volume == volume && (r.value.lowLiquidity <==> volume < LowLiquidityVolume)
  {
    if sizing.contracts <= 0 then None
    else
      Some(Scored(p.side, p.price, Round2(p.pEst), Round2(p.edge), Round2(p.edge * sizing.contracts as real),
        sizing, Round2(prob), volume, volume < LowLiquidityVolume, Round2(spread)))
  }

  /**
   * The scoring both contract kinds share, for a model probability `p` of
   * YES: no quote on either side, or a spread over 10¢, scores nothing;
   * YES is bought at the ask and NO at one minus the bid by the side rule
   * with its 99% cap; a pick the sizing buys nothing of scores nothing.
   */
  function ScoreQuote(q: Quote, p: real, balance: real, minEdge: real): (r: Option<Scored>)
    requires ValidQuote(q)
    ensures var bid, ask := OrElse(q.yesBid, 0.0), OrElse(q.yesAsk, 0.0);
      var pick := CappedPick(p, ask, 1.0 - bid, minEdge);
      && (r.None? <==>
            || (bid <= 0.0 && ask <= 0.0) || ask - bid > MaxSpread || pick.None?
            || Sizing.PositionSize(balance, pick.value.pEst, pick.value.price, MaxPct, Some(OrElse(q.volume, 0.0))).contracts <= 0)
      && (r.Some? ==>
            r == Sized(pick.value,
              Sizing.PositionSize(balance, pick.value.pEst, pick.value.price, MaxPct, Some(OrElse(q.volume, 0.0))),
              p, OrElse(q.volume, 0.0), ask - bid))
  {
    var bid, ask := OrElse(q.yesBid, 0.0), OrElse(q.yesAsk, 0.0);
    if bid <= 0.0 && ask <= 0.0 then None
    else if ask - bid > MaxSpread then None
    else
      match CappedPick(p, ask, 1.0 - bid, minEdge)
      case None => None
      case Some(pick) =>
        var volume := OrElse(q.volume, 0.0);
        Sized(pick, Sizing.PositionSize(balance, pick.pEst, pick.price, MaxPct, Some(volume)), p, volume, ask - bid)
  }

  /**
   * Every scored contract buys the side the rule picks at its executable
   * price, with an estimate of at most 99%, an edge (before rounding) of at
   * least the minimum, at least one contract, and the thin-market flag
   * exactly below 100 traded.
   */
  lemma ScoreQuoteKept(q: Quote, p: real, balance: real, minEdge: real)
    requires ValidQuote(q)
    ensures var r := ScoreQuote(q, p, balance, minEdge);
      var bid, ask := OrElse(q.yesBid, 0.0), OrElse(q.yesAsk, 0.0);
      var yesEdge, noEdge := p - ask, (1.0 - p) - (1.0 - bid);
      r.Some? ==> (
        && (r.value.side == BuyYes <==> yesEdge >= minEdge && yesEdge >= noEdge)
        && r.value.price == (if r.value.side == BuyYes then ask else 1.0 - bid)
        && r.value.pEst <= EstimateCap
        && r.value.edge >= Round2(minEdge)
        && r.value.sizing.contracts >= 1
        && ask - bid <= MaxSpread
        && (r.value.lowLiquidity <==> r.value.volume < LowLiquidityVolume))
  {
    var r := ScoreQuote(q, p, balance, minEdge);
    if r.Some? {
      var bid, ask := OrElse(q.yesBid, 0.0), OrElse(q.yesAsk, 0.0);
      var pick := CappedPick(p, ask, 1.0 - bid, minEdge).value;
      var sizing := Sizing.PositionSize(balance, pick.pEst, pick.price, MaxPct, Some(OrElse(q.volume, 0.0)));
      assert r == Sized(pick, sizing, p, OrElse(q.volume, 0.0), ask - bid);
      Round2Monotone(pick.pEst, EstimateCap);
      Round2Exact(EstimateCap);
      Round2Monotone(minEdge, pick.edge);
    }
  }

  /**
   * With no ask quoted the YES price reads as 0: a contract with a bid and
   * no ask is bought YES at a price of 0 whenever the model gives YES at
   * least half the bid and the minimum edge.
   */
  lemma MissingAskPricedAtZero(q: Quote, p: real, balance: real, minEdge: real)
    requires ValidQuote(q) && q.yesAsk.None? && q.yesBid.Some? && q.yesBid.value > 0.0
    requires minEdge <= p <= EstimateCap && 2.0 * p >= q.yesBid.value && minEdge > 0.0
    ensures var r := ScoreQuote(q, p, balance, minEdge);
      r.Some? && r.value.side == BuyYes && r.value.price == 0.0
  {
    var pick := CappedPick(p, 0.0, 1.0 - q.yesBid.value, minEdge);
    assert pick.Some? && pick.value.side == BuyYes;
    var s := Sizing.PositionSize(balance, pick.value.pEst, 0.0, MaxPct, Some(OrElse(q.volume, 0.0)));
    assert s.contracts >= 1;
  }

  datatype PrecipRec = PrecipRec(
    ticker: string,
    marketType: PrecipStations.MarketType,
    date: Option<string>,
    yearMonth: Option<string>,
    threshold: Option<int>,
    scored: Scored)

  /**
   * `scoreDailyBinaryContract`: the ticker must parse as a daily contract
   * and the calibrated rain probability must be present and non-zero; the
   * contract is then scored with it.
   */
  function ScoreDaily(q: Quote, rainProb: Option<real>, balance: real, minEdge: real): (r: Option<PrecipRec>)
    requires ValidQuote(q)
    ensures var parsed := ParsePrecipTicker(q.ticker);
      && (r.None? <==>
            || parsed.None? || !parsed.value.DailyTicker? || !Truthy(rainProb)
            || ScoreQuote(q, rainProb.value, balance, minEdge).None?)
      && (r.Some? ==>
            && r.value.marketType == PrecipStations.DailyBinary && r.value.date == Some(parsed.value.date)
            && r.value.scored == ScoreQuote(q, rainProb.value, balance, minEdge).value)
  {
    var parsed := ParsePrecipTicker(q.ticker);
    if parsed.None? || !parsed.value.DailyTicker? || !Truthy(rainProb) then None
    else
      match ScoreQuote(q, rainProb.value, balance, minEdge)
      case None => None
      case Some(sc) => Some(PrecipRec(q.ticker, PrecipStations.DailyBinary, Some(parsed.value.date), None, None, sc))
  }

  /**
   * `scoreMonthlyThresholdContract`: the ticker must parse as a monthly
   * contract; it is scored with the model probability `pAbove` that the
   * month's total exceeds its threshold.
   */
  function ScoreMonthly(q: Quote, pAbove: real, balance: real, minEdge: real): (r: Option<PrecipRec>)
    requires ValidQuote(q)
    ensures var parsed := ParsePrecipTicker(q.ticker);
      && (r.None? <==> parsed.None? || !parsed.value.MonthlyTicker? || ScoreQuote(q, pAbove, balance, minEdge).None?)
      && (r.Some? ==>
            && r.value.marketType == PrecipStations.MonthlyThreshold
            && r.value.yearMonth == Some(parsed.value.yearMonth) && r.value.threshold == Some(parsed.value.threshold)
            && r.value.scored == ScoreQuote(q, pAbove, balance, minEdge).value)
  {
    var parsed := ParsePrecipTicker(q.ticker);
    if parsed.None? || !parsed.value.MonthlyTicker? then None
    else
      match ScoreQuote(q, pAbove, balance, minEdge)
      case None => None
      case Some(sc) =>
        Some(PrecipRec(q.ticker, PrecipStations.MonthlyThreshold, None, Some(parsed.value.yearMonth), Some(parsed.value.threshold), sc))
  }

  // ------------------------------------------------------------------ ranking

  /** `stationFilter && stationKey !== stationFilter` skips; so does a station not in PRECIP_TRADEABLE. */
  predicate Scanned(key: string, stationFilter: Option<string>)
  {
    (stationFilter.None? || stationFilter.value == [] || key == stationFilter.value) && key in PrecipStations.Tradeable
  }

  /** The stations `scanPrecipMarkets` visits, in table order. */
  function ScannedStations(table: PrecipStations.PrecipTable, stationFilter: Option<string>): (r: seq<string>)
    ensures forall k :: k in r <==> (exists i :: 0 <= i < |table| && table[i].key == k) && Scanned(k, stationFilter)
  {
    if table == [] then []
    else
      var rest := ScannedStations(table[..|table| - 1], stationFilter);
      var k := table[|table| - 1].key;
      assert forall i :: 0 <= i < |table| - 1 ==> table[..|table| - 1][i] == table[i];
      if Scanned(k, stationFilter) then rest + [k] else rest
  }

  /** The non-null scores in the order they were produced. */
  function Kept(candidates: seq<Option<PrecipRec>>): (r: seq<PrecipRec>)
    ensures forall x :: x in r <==> Some(x) in candidates
  {
    if candidates == [] then []
    else
      var init := candidates[..|candidates| - 1];
      assert candidates == init + [candidates[|candidates| - 1]];
      var rest := Kept(init);
      match candidates[|candidates| - 1]
      case None => rest
      case Some(x) => rest + [x]
  }

  function EvOf(r: PrecipRec): real { r.scored.ev }

  /**
   * The push-then-sort of `scanPrecipMarkets`: every non-null score is kept
   * once, and the result is in descending order of expected value.
   */
  method RankRecommendations(candidates: seq<Option<PrecipRec>>) returns (recs: seq<PrecipRec>)
    ensures recs == Ordering.SortDesc(Kept(candidates), EvOf)
    ensures Ordering.SortedDesc(recs, EvOf)
    ensures multiset(recs) == multiset(Kept(candidates))
  {
    var pushed: seq<PrecipRec> := [];
    for i := 0 to |candidates|
      invariant pushed == Kept(candidates[..i])
    {
      assert candidates[..i + 1][..i] == candidates[..i];
      if candidates[i].Some? {
        pushed := pushed + [candidates[i].value];
      }
    }
    assert candidates[..|candidates|] == candidates;
    recs := Ordering.SortDesc(pushed, EvOf);
  }
}
