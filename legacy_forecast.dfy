// The stand-alone forecast pipeline's consensus engine: the non-null
// source highs are compared, shifted by the station bias and checked
// against the month's climatological normal, and the verdict says whether
// the day is tradeable. Fetching the sources is not modelled; their
// answers arrive as `Option`s, `None` for a source that failed.

module LegacyForecast {
  import opened Prelude
  import opened Utils
  import opened Averages
  import opened Ordering

  /** `CLIM_OUTLIER_THRESHOLD_F` and `MAX_MODEL_SPREAD_F` of the stand-alone station table. */
  const ClimOutlierThresholdF: real := 15.0
  const MaxModelSpreadF: real := 2.0

  /** The fields of a station record the consensus reads. */
  datatype LegacyStation = LegacyStation(climNormalHigh: map<int, real>, bias: Option<real>)

  type StationTable = map<string, LegacyStation>

  /** One source's answer: which model, and its forecast high in °F. */
  datatype Forecast = Forecast(source: string, highF: real)

  // ------------------------------------------------------------ climatological check

  /**
   * `climCheck`: the month's normal high and the deviation from it. A month
   * missing from the station's table gives JavaScript's `undefined` normal
   * and a NaN deviation, both `None` here, and NaN is never an outlier.
   */
  datatype ClimCheckResult = ClimCheckResult(normalHigh: Option<real>, deviation: Option<real>, isOutlier: bool)

  function ClimCheck(table: StationTable, station: string, month: int, forecastHigh: real): (r: Result<ClimCheckResult>)
    ensures r.Failure? <==> station !in table
    ensures r.Success? ==> (r.value.normalHigh.Some? <==> month in table[station].climNormalHigh)
    ensures r.Success? && r.value.normalHigh.Some? ==>
              r.value.deviation == Some(forecastHigh - r.value.normalHigh.value)
              && (r.value.isOutlier <==> AbsR(forecastHigh - r.value.normalHigh.value) > ClimOutlierThresholdF)
    ensures r.Success? && r.value.normalHigh.None? ==> r.value.deviation.None? && !r.value.isOutlier
  {
    if station !in table then Failure("TypeError: cannot read properties of undefined (reading 'climNormalHigh')")
    else
      var normals := table[station].climNormalHigh;
      if month !in normals then Success(ClimCheckResult(None, None, false))
      else
        var deviation := forecastHigh - normals[month];
        Success(ClimCheckResult(Some(normals[month]), Some(deviation), AbsR(deviation) > ClimOutlierThresholdF))
  }

  // ------------------------------------------------------------ consensus

  datatype Reason =
    | SpreadTooWide(spread: real)
    | ClimOutlier(adjustedMean: real, deviation: real, normalHigh: real)

  datatype Warning = ClimOutlierWarning | NearThreshold(spread: real)

  datatype Consensus =
    | TooFewSources(count: nat)
    | Consensus(
        forecasts: seq<Forecast>,
        spread: real,
        mean: real,
        median: real,
        adjustedMean: real,
        climDeviation: Option<real>,
        climNormalHigh: Option<real>,
        tradeable: bool,
        reason: Option<Reason>,
        warnings: seq<Warning>)

  /** `forecasts.filter(f => f !== null)`. */
  function Present(fs: seq<Option<Forecast>>): (r: seq<Forecast>)
    ensures |r| <= |fs|
    ensures forall f :: f in r <==> Some(f) in fs
  {
    if fs == [] then []
    else
      var init := fs[..|fs| - 1];
      assert forall o :: o in fs <==> o in init || o == fs[|fs| - 1];
      Present(init) + (if fs[|fs| - 1].Some? then [fs[|fs| - 1].value] else [])
  }

  function Highs(valid: seq<Forecast>): (r: seq<real>)
    ensures |r| == |valid|
    ensures forall i :: 0 <= i < |r| ==> r[i] == valid[i].highF
  {
    seq(|valid|, i requires 0 <= i < |valid| => valid[i].highF)
  }

  /** The highs in ascending order, as the numeric sort gives them. */
  function Ascending(xs: seq<real>): (r: seq<real>)
    ensures multiset(r) == multiset(xs) && |r| == |xs|
    ensures forall i, j :: 0 <= i < j < |r| ==> r[i] <= r[j]
  {
    SortDesc(xs, x => -x)
  }

  /** The element at index `floor(n / 2)` of the sorted highs. */
  function Median(xs: seq<real>): (m: real)
    requires xs != []
    ensures m in xs
    ensures MinOf(xs) <= m <= MaxOf(xs)
  {
    var sorted := Ascending(xs);
    assert sorted[|xs| / 2] in multiset(sorted);
    sorted[|xs| / 2]
  }

  /**
   * The verdict once the statistics are known: the spread limit and the
   * climatological check each make the day untradeable, the outlier
   * reason overriding the spread reason; the warnings are CLIM_OUTLIER
   * for an outlier, then a near-limit note for a spread in (1, 2].
   */
  function Verdict(
    valid: seq<Forecast>, spread: real, mean: real, median: real, adjustedMean: real,
    clim: ClimCheckResult): (c: Consensus)
  {
    var wide := spread > MaxModelSpreadF;
    Consensus(
      valid, Round1(spread), Round1(mean), Round1(median), Round1(adjustedMean),
      if clim.deviation.Some? then Some(Round1(clim.deviation.value)) else None,
      clim.normalHigh,
      !wide && !clim.isOutlier,
      if clim.isOutlier && clim.deviation.Some? && clim.normalHigh.Some?
      then Some(ClimOutlier(adjustedMean, clim.deviation.value, clim.normalHigh.value))
      else if wide then Some(SpreadTooWide(spread))
      else None,
      (if clim.isOutlier then [ClimOutlierWarning] else [])
      + (if 1.0 < spread <= MaxModelSpreadF then [NearThreshold(spread)] else []))
  }

  /**
   * `buildConsensus(forecasts, station, month)`: fewer than two non-null
   * sources is not tradeable; an unknown station throws when its bias is
   * read; otherwise the verdict on the highs' spread, mean and median, the
   * mean shifted by the station bias (missing or 0 meaning none).
   */
  function ConsensusOf(table: StationTable, station: string, forecasts: seq<Option<Forecast>>, month: int): Result<Consensus>
  {
    var valid := Present(forecasts);
    if |valid| < 2 then Success(TooFewSources(|valid|))
    else if station !in table then Failure("TypeError: cannot read properties of undefined (reading 'bias')")
    else
      var highs := Highs(valid);
      var mean := Mean(highs);
      var adjustedMean := mean + OrElse(table[station].bias, 0.0);
      var clim := ClimCheck(table, station, month, adjustedMean).value;
      Success(Verdict(valid, Spread(highs), mean, Median(highs), adjustedMean, clim))
  }

  /** `buildConsensus`, with the checks on the result applied step by step. */
  method BuildConsensus(table: StationTable, station: string, forecasts: seq<Option<Forecast>>, month: int)
    returns (r: Result<Consensus>)
    ensures r == ConsensusOf(table, station, forecasts, month)
  {
    var valid := Present(forecasts);
    if |valid| < 2 {
      return Success(TooFewSources(|valid|));
    }
    if station !in table {
      return Failure("TypeError: cannot read properties of undefined (reading 'bias')");
    }
    var highs := Highs(valid);
    var spread := Spread(highs);
    var mean := Mean(highs);
    var median := Median(highs);
    var adjustedMean := mean + OrElse(table[station].bias, 0.0);
    var clim := ClimCheck(table, station, month, adjustedMean).value;

    assert ConsensusOf(table, station, forecasts, month) == Success(Verdict(valid, spread, mean, median, adjustedMean, clim));
    var c := ApplyChecks(valid, spread, mean, median, adjustedMean, clim);
    r := Success(c);
  }

  /**
   * The checks of `buildConsensus` in order: the result starts tradeable
   * with no warnings, then the spread check, the climatological check and
   * the near-limit check each update it.
   */
  method ApplyChecks(
    valid: seq<Forecast>, spread: real, mean: real, median: real, adjustedMean: real,
    clim: ClimCheckResult) returns (c: Consensus)
    requires clim.isOutlier ==> clim.deviation.Some? && clim.normalHigh.Some?
    ensures c == Verdict(valid, spread, mean, median, adjustedMean, clim)
  {
    var tradeable := true;
    var reason: Option<Reason> := None;
    var warnings: seq<Warning> := [];
    if spread > MaxModelSpreadF {
      tradeable := false;
      reason := Some(SpreadTooWide(spread));
    }
    if clim.isOutlier {
      tradeable := false;
      reason := Some(ClimOutlier(adjustedMean, clim.deviation.value, clim.normalHigh.value));
      warnings := warnings + [ClimOutlierWarning];
    }
    if 1.0 < spread && spread <= MaxModelSpreadF {
      warnings := warnings + [NearThreshold(spread)];
    }
    c := Consensus(
      valid, Round1(spread), Round1(mean), Round1(median), Round1(adjustedMean),
      if clim.deviation.Some? then Some(Round1(clim.deviation.value)) else None,
      clim.normalHigh, tradeable, reason, warnings);
  }

  // ------------------------------------------------------------ properties

  function CountPresent(fs: seq<Option<Forecast>>): nat
  {
    if fs == [] then 0 else CountPresent(fs[..|fs| - 1]) + (if fs[|fs| - 1].Some? then 1 else 0)
  }

  lemma {:induction false} PresentCount(fs: seq<Option<Forecast>>)
    ensures |Present(fs)| == CountPresent(fs)
  {
    if fs != [] {
      PresentCount(fs[..|fs| - 1]);
    }
  }

  /** The too-few-sources answer comes exactly when fewer than two sources answered. */
  lemma TooFewSourcesIff(table: StationTable, station: string, forecasts: seq<Option<Forecast>>, month: int)
    ensures var r := ConsensusOf(table, station, forecasts, month);
      (r.Success? && r.value.TooFewSources?) <==> CountPresent(forecasts) < 2
    ensures var r := ConsensusOf(table, station, forecasts, month);
      r.Failure? <==> CountPresent(forecasts) >= 2 && station !in table
  {
    PresentCount(forecasts);
  }

  /** The deviation the climatological check is applied to. */
  function Deviation(table: StationTable, station: string, forecasts: seq<Option<Forecast>>, month: int): Option<real>
    requires |Present(forecasts)| >= 2 && station in table
  {
    var highs := Highs(Present(forecasts));
    var normals := table[station].climNormalHigh;
    if month in normals then Some(Mean(highs) + OrElse(table[station].bias, 0.0) - normals[month]) else None
  }

  /**
   * Once at least two sources answered for a known station, the day is
   * tradeable exactly when the spread of the highs is at most 2° and the
   * bias-adjusted mean is within 15° of the month's normal (a month without
   * a normal never counts as an outlier); an outlier is reported as the
   * reason even when the spread is also too wide.
   */
  lemma ConsensusVerdict(table: StationTable, station: string, forecasts: seq<Option<Forecast>>, month: int)
    requires |Present(forecasts)| >= 2 && station in table
    ensures var r := ConsensusOf(table, station, forecasts, month);
      var spread := Spread(Highs(Present(forecasts)));
      var dev := Deviation(table, station, forecasts, month);
      var outlier := dev.Some? && AbsR(dev.value) > ClimOutlierThresholdF;
      && r.Success? && r.value.Consensus?
      && (r.value.tradeable <==> spread <= MaxModelSpreadF && !outlier)
      && (r.value.reason.None? <==> r.value.tradeable)
      && (outlier ==> r.value.reason.Some? && r.value.reason.value.ClimOutlier?)
      && (r.value.reason == Some(SpreadTooWide(spread)) <==> spread > MaxModelSpreadF && !outlier)
  {
  }

  /**
   * CLIM_OUTLIER is among the warnings exactly for an outlier, and the
   * near-threshold note exactly for a spread in (1, 2]; neither changes
   * the verdict by itself.
   */
  lemma ConsensusWarnings(table: StationTable, station: string, forecasts: seq<Option<Forecast>>, month: int)
    requires |Present(forecasts)| >= 2 && station in table
    ensures var r := ConsensusOf(table, station, forecasts, month);
      var spread := Spread(Highs(Present(forecasts)));
      var dev := Deviation(table, station, forecasts, month);
      && r.Success? && r.value.Consensus?
      && (ClimOutlierWarning in r.value.warnings <==> dev.Some? && AbsR(dev.value) > ClimOutlierThresholdF)
      && (NearThreshold(spread) in r.value.warnings <==> 1.0 < spread <= MaxModelSpreadF)
      && (forall w :: w in r.value.warnings ==> w == ClimOutlierWarning || w == NearThreshold(spread))
  {
  }

  /**
   * The reported mean lies between the coldest and the warmest source high
   * (to the tenth), the median is one of the highs, and the reported spread
   * is never negative.
   */
  lemma ConsensusStatistics(table: StationTable, station: string, forecasts: seq<Option<Forecast>>, month: int)
    requires |Present(forecasts)| >= 2 && station in table
    ensures var r := ConsensusOf(table, station, forecasts, month);
      var highs := Highs(Present(forecasts));
      && r.Success? && r.value.Consensus?
      && MinOf(highs) - 0.05 <= r.value.mean <= MaxOf(highs) + 0.05
      && (exists i :: 0 <= i < |highs| && r.value.median == Round1(highs[i]))
      && r.value.spread >= 0.0
  {
    var highs := Highs(Present(forecasts));
    MeanBetween(highs);
    var m := Median(highs);
    var i :| 0 <= i < |highs| && highs[i] == m;
    RoundedNonNegative(Spread(highs));
  }
}
