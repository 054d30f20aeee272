// The multi-model temperature consensus: the freshness check on a source's
// timestamp, and `buildConsensus`, which weights the source temperatures by
// the station's model weights, adds the station bias, compares against the
// climatological normal and decides whether the date is tradeable.

module WeatherForecast {
  import opened Prelude
  import opened Utils
  import opened Averages
  import opened WeatherStations

  /** Forecast data older than this many hours is stale. */
  const MaxForecastAgeHours: real := 12.0
  const MsPerHour: int := 3600000
  /** `CLIM_OUTLIER_THRESHOLD_F` */
  const ClimOutlierThreshold: real := 15.0

  // ------------------------------------------------------------ freshness

  datatype Freshness = Freshness(stale: bool, ageHours: real)

  /**
   * `checkDataFreshness(isoTimestamp)`, with the timestamp and the clock in
   * milliseconds: no timestamp is fresh with age 0; otherwise stale exactly
   * when more than 12 hours old, the age reported to a tenth of an hour.
   */
  function CheckDataFreshness(timestampMs: Option<int>, nowMs: int): (r: Freshness)
    ensures timestampMs.None? ==> r == Freshness(false, 0.0)
    ensures timestampMs.Some? ==>
      && (r.stale <==> nowMs - timestampMs.value > 12 * MsPerHour)
      && WholeTenths(r.ageHours)
      && -0.05 < r.ageHours - (nowMs - timestampMs.value) as real / MsPerHour as real <= 0.05
  {
    match timestampMs
    case None => Freshness(false, 0.0)
    case Some(t) =>
      var ageHours := (nowMs - t) as real / MsPerHour as real;
      Freshness(ageHours > MaxForecastAgeHours, Round1(ageHours))
  }

  /** Data that is stale now stays stale later. */
  lemma StaleStaysStale(timestampMs: Option<int>, now1: int, now2: int)
    requires now1 <= now2 && CheckDataFreshness(timestampMs, now1).stale
    ensures CheckDataFreshness(timestampMs, now2).stale
  {
  }

  // ------------------------------------------------------------ sources

  datatype Source = Nws | Gfs | Ecmwf

  /** One source's forecast for the date; a missing source is `None` in the input list. */
  datatype SourceForecast = SourceForecast(
    source: Source,
    highF: Option<real>,
    lowF: Option<real>,
    staleWarning: Option<string>)

  /** `forecasts.filter(Boolean)` */
  function Present(fs: seq<Option<SourceForecast>>): (r: seq<SourceForecast>)
    ensures |r| <= |fs|
    ensures forall i :: 0 <= i < |r| ==> Some(r[i]) in fs
  {
    if fs == [] then []
    else
      var init := Present(fs[..|fs| - 1]);
      assert forall i :: 0 <= i < |init| ==> Some(init[i]) in fs[..|fs| - 1];
      init + (if fs[|fs| - 1].Some? then [fs[|fs| - 1].value] else [])
  }

  /** The number of non-null entries. */
  function CountPresent(fs: seq<Option<SourceForecast>>): nat
  {
    if fs == [] then 0 else CountPresent(fs[..|fs| - 1]) + (if fs[|fs| - 1].Some? then 1 else 0)
  }

  lemma {:induction false} PresentCount(fs: seq<Option<SourceForecast>>)
    ensures |Present(fs)| == CountPresent(fs)
  {
    if fs != [] {
      PresentCount(fs[..|fs| - 1]);
    }
  }

  /** `f[tempKey] ?? f.high_f`: a low forecast falls back to the high. */
  function TempOf(f: SourceForecast, low: bool): Option<real>
  {
    if low && f.lowF.Some? then f.lowF else f.highF
  }

  /** The station weight of a source; any source other than NWS and ECMWF takes the GFS weight. */
  function WeightOf(s: Source, w: ModelWeights): real
  {
    match s
    case Nws => w.nws
    case Ecmwf => w.ecmwf
    case Gfs => w.gfs
  }

  /** The weighted temperatures of the sources that have one. */
  function Entries(valid: seq<SourceForecast>, w: ModelWeights, low: bool): seq<Weighted>
  {
    if valid == [] then []
    else
      var f := valid[|valid| - 1];
      Entries(valid[..|valid| - 1], w, low)
      + (if TempOf(f, low).Some? then [Weighted(WeightOf(f.source, w), TempOf(f, low).value)] else [])
  }

  /** The temperatures of the sources that have one. */
  function Temps(valid: seq<SourceForecast>, low: bool): seq<real>
  {
    if valid == [] then []
    else
      var f := valid[|valid| - 1];
      Temps(valid[..|valid| - 1], low) + (if TempOf(f, low).Some? then [TempOf(f, low).value] else [])
  }

  /** Each weighted entry carries the temperature at the same position, with a positive weight. */
  lemma {:induction false} EntriesMatchTemps(valid: seq<SourceForecast>, w: ModelWeights, low: bool)
    requires w.nws > 0.0 && w.gfs > 0.0 && w.ecmwf > 0.0
    ensures var es, ts := Entries(valid, w, low), Temps(valid, low);
      |es| == |ts| && PositiveWeights(es) && forall i :: 0 <= i < |es| ==> es[i].value == ts[i]
  {
    if valid != [] {
      EntriesMatchTemps(valid[..|valid| - 1], w, low);
    }
  }

  /** The non-empty `staleWarning` texts in source order. */
  function StaleWarnings(valid: seq<SourceForecast>): seq<Warning>
  {
    if valid == [] then []
    else
      var f := valid[|valid| - 1];
      StaleWarnings(valid[..|valid| - 1])
      + (if f.staleWarning.Some? && f.staleWarning.value != "" then [StaleData(f.staleWarning.value)] else [])
  }

  // ------------------------------------------------------------ the consensus

  datatype Reason = TooFewSources(count: nat) | NoTempData | SpreadTooWide | ClimOutlier

  datatype Warning =
    | ClimOutlierWarning
    | NearThreshold(spread: real)
    | LongHorizon(horizon: int, sigma: real)
    | StaleData(text: string)

  datatype Consensus =
    | NotTradeable(reason: Reason, forecasts: seq<SourceForecast>)
    | Consensus(
        forecasts: seq<SourceForecast>,
        spread: real,
        mean: real,
        weightedMean: real,
        adjustedMean: real,
        climDeviation: real,
        climNormal: Option<real>,
        climNormalHigh: Option<real>,
        sigma: real,
        horizon: int,
        tradeable: bool,
        why: Option<Reason>,
        warnings: seq<Warning>)
  {
    predicate Tradeable() { Consensus? && tradeable }
  }

  function NormalOf(normals: map<int, real>, month: int): Option<real>
  {
    if month in normals then Some(normals[month]) else None
  }

  /**
   * The warnings in the order they are pushed: CLIM_OUTLIER, a near-limit
   * spread above 1°, a horizon of two days or more, then each stale source.
   */
  function WarningsFor(
    outlier: bool, spread: real, maxSpread: real, horizon: int, sigma: real,
    valid: seq<SourceForecast>): (ws: seq<Warning>)
    ensures ClimOutlierWarning in ws <==> outlier
    ensures NearThreshold(spread) in ws <==> 1.0 < spread <= maxSpread
    ensures LongHorizon(horizon, sigma) in ws <==> horizon >= 2
    ensures |StaleWarnings(valid)| <= |ws| && ws[|ws| - |StaleWarnings(valid)|..] == StaleWarnings(valid)
  {
    StaleWarningsAreStale(valid);
    var front :=
      (if outlier then [ClimOutlierWarning] else [])
      + (if 1.0 < spread <= maxSpread then [NearThreshold(spread)] else [])
      + (if horizon >= 2 then [LongHorizon(horizon, sigma)] else []);
    assert (front + StaleWarnings(valid))[|front|..] == StaleWarnings(valid);
    front + StaleWarnings(valid)
  }

  /** The deviation from the normal to a tenth of a degree, or 0 without a normal. */
  function ClimDeviation(adjustedMean: real, normal: Option<real>): (d: real)
    ensures normal.None? ==> d == 0.0
    ensures normal.Some? ==> WholeTenths(d) && -0.05 < d - (adjustedMean - normal.value) <= 0.05
  {
    if normal.Some? then Round1(adjustedMean - normal.value) else 0.0
  }

  /**
   * The consensus once the means, the spread and the deviation from the
   * normal are known: not tradeable when the spread exceeds the limit or
   * the deviation exceeds 15°, the outlier reason winning; the warnings
   * never change the verdict.
   */
  function Assemble(
    valid: seq<SourceForecast>, weightedMean: real, adjustedMean: real, mean: real, spread: real,
    normal: Option<real>, normalHigh: Option<real>, climDev: real,
    horizon: int, sigma: real, maxSpread: real): (c: Consensus)
    ensures c.Consensus? && c.adjustedMean == adjustedMean && c.climDeviation == climDev
    ensures c.tradeable <==> spread <= maxSpread && AbsR(climDev) <= ClimOutlierThreshold
    ensures c.why.None? <==> c.tradeable
    ensures AbsR(climDev) > ClimOutlierThreshold ==> c.why == Some(ClimOutlier)
    ensures c.why == Some(SpreadTooWide) <==> spread > maxSpread && AbsR(climDev) <= ClimOutlierThreshold
    ensures c.warnings == WarningsFor(AbsR(climDev) > ClimOutlierThreshold, spread, maxSpread, horizon, sigma, valid)
  {
    var wide := spread > maxSpread;
    var outlier := AbsR(climDev) > ClimOutlierThreshold;
    Consensus(
      valid, Round1(spread), Round1(mean), Round1(weightedMean), adjustedMean, climDev, normal, normalHigh,
      sigma, horizon, !wide && !outlier,
      if outlier then Some(ClimOutlier) else if wide then Some(SpreadTooWide) else None,
      WarningsFor(outlier, spread, maxSpread, horizon, sigma, valid))
  }

  lemma {:induction false} StaleWarningsAreStale(valid: seq<SourceForecast>)
    ensures forall i :: 0 <= i < |StaleWarnings(valid)| ==> StaleWarnings(valid)[i].StaleData?
  {
    if valid != [] {
      StaleWarningsAreStale(valid[..|valid| - 1]);
    }
  }

  /**
   * The consensus of the non-null sources `valid`, given the station's
   * model weights, its record (if any) and its effective sigma.
   */
  function ConsensusFrom(
    valid: seq<SourceForecast>, w: ModelWeights, st: Option<WeatherStation>, sigma: real,
    month: int, horizon: int, low: bool, maxSpread: real): Result<Consensus>
    requires w.nws > 0.0 && w.gfs > 0.0 && w.ecmwf > 0.0
  {
    if |valid| < 2 then Success(NotTradeable(TooFewSources(|valid|), valid))
    else
      var ws := Entries(valid, w, low);
      if WeightSum(ws) == 0.0 then Success(NotTradeable(NoTempData, valid))
      else
        match st
        case None => Failure("TypeError: cannot read properties of undefined (reading 'bias')")
        case Some(s) =>
          EntriesMatchTemps(valid, w, low);
          Success(StationConsensus(valid, Temps(valid, low), WeightedSum(ws) / WeightSum(ws), s, sigma, month, horizon, low, maxSpread))
  }

  /** The consensus for a known station once the temperatures and their weighted mean are known. */
  function StationConsensus(
    valid: seq<SourceForecast>, temps: seq<real>, weightedMean: real, s: WeatherStation, sigma: real,
    month: int, horizon: int, low: bool, maxSpread: real): Consensus
    requires temps != []
  {
    var adjustedMean := Round1(weightedMean + s.bias);
    var normal := NormalOf(if low then s.climNormalLow else s.climNormalHigh, month);
    Assemble(
      valid, weightedMean, adjustedMean, Mean(temps), Spread(temps),
      normal, if low then NormalOf(s.climNormalHigh, month) else normal,
      ClimDeviation(adjustedMean, normal), horizon, sigma, maxSpread)
  }

  /**
   * `buildConsensus(forecasts, station, month, horizonDays, tempType)` as
   * intended: fewer than two sources, or no usable temperature, is not
   * tradeable; an unknown station throws when its bias is read; otherwise
   * the assembled consensus.
   */
  function ConsensusOf(
    table: StationTable, station: string, forecasts: seq<Option<SourceForecast>>,
    month: int, horizon: int, low: bool, maxSpread: real): Result<Consensus>
    requires ValidTable(table)
  {
    ConsensusFrom(
      Present(forecasts), ModelWeightsFor(table, station), Lookup(table, station),
      EffectiveSigma(table, station, month, horizon, low), month, horizon, low, maxSpread)
  }

  /** Fewer than two non-null sources is exactly the too-few-sources answer. */
  lemma TooFewSourcesIff(
    table: StationTable, station: string, forecasts: seq<Option<SourceForecast>>,
    month: int, horizon: int, low: bool, maxSpread: real)
    requires ValidTable(table)
    ensures var r := ConsensusOf(table, station, forecasts, month, horizon, low, maxSpread);
      (r.Success? && r.value.NotTradeable? && r.value.reason.TooFewSources?) <==> CountPresent(forecasts) < 2
  {
    PresentCount(forecasts);
  }

  /**
   * Whenever a consensus is built, the weighted mean lies between the
   * coldest and the warmest source temperature (to the tenth), and the
   * adjusted mean between them shifted by the station bias.
   */
  lemma ConsensusMeanBetween(
    table: StationTable, station: string, forecasts: seq<Option<SourceForecast>>,
    month: int, horizon: int, low: bool, maxSpread: real)
    requires ValidTable(table)
    ensures var r := ConsensusOf(table, station, forecasts, month, horizon, low, maxSpread);
      var temps := Temps(Present(forecasts), low);
      r.Success? && r.value.Consensus? ==> (
        && temps != []
        && Lookup(table, station).Some?
        && MinOf(temps) - 0.05 <= r.value.weightedMean <= MaxOf(temps) + 0.05
        && MinOf(temps) + Lookup(table, station).value.bias - 0.05 <= r.value.adjustedMean
        && r.value.adjustedMean <= MaxOf(temps) + Lookup(table, station).value.bias + 0.05)
  {
    var r := ConsensusOf(table, station, forecasts, month, horizon, low, maxSpread);
    var valid := Present(forecasts);
    if r.Success? && r.value.Consensus? {
      var w := ModelWeightsFor(table, station);
      var ws := Entries(valid, w, low);
      var temps := Temps(valid, low);
      EntriesMatchTemps(valid, w, low);
      WeightSumPositive(ws);
      var lo, hi := MinOf(temps), MaxOf(temps);
      assert ValuesWithin(ws, lo, hi);
      WeightedMeanBetween(ws, lo, hi);
    }
  }

  /** `forecasts.filter(Boolean)` as a loop. */
  method CollectPresent(forecasts: seq<Option<SourceForecast>>) returns (valid: seq<SourceForecast>)
    ensures valid == Present(forecasts)
  {
    valid := [];
    for i := 0 to |forecasts|
      invariant valid == Present(forecasts[..i])
    {
      assert forecasts[..i + 1][..i] == forecasts[..i];
      if forecasts[i].Some? {
        valid := valid + [forecasts[i].value];
      }
    }
    assert forecasts[..|forecasts|] == forecasts;
  }

  /** The weighted-sum loop: skips sources without a temperature. */
  method SumWeighted(valid: seq<SourceForecast>, w: ModelWeights, low: bool) returns (weightedSum: real, totalWeight: real)
    ensures weightedSum == WeightedSum(Entries(valid, w, low))
    ensures totalWeight == WeightSum(Entries(valid, w, low))
  {
    weightedSum, totalWeight := 0.0, 0.0;
    for i := 0 to |valid|
      invariant weightedSum == WeightedSum(Entries(valid[..i], w, low))
      invariant totalWeight == WeightSum(Entries(valid[..i], w, low))
    {
      EntriesStep(valid, i, w, low);
      var temp := TempOf(valid[i], low);
      if temp.Some? {
        var wt := WeightOf(valid[i].source, w);
        weightedSum := weightedSum + temp.value * wt;
        totalWeight := totalWeight + wt;
      }
    }
    assert valid[..|valid|] == valid;
  }

  /** The loop that pushes each source's non-empty stale warning. */
  method PushStaleWarnings(valid: seq<SourceForecast>, front: seq<Warning>) returns (warnings: seq<Warning>)
    ensures warnings == front + StaleWarnings(valid)
  {
    warnings := front;
    for i := 0 to |valid|
      invariant warnings == front + StaleWarnings(valid[..i])
    {
      assert valid[..i + 1][..i] == valid[..i];
      var f := valid[i];
      if f.staleWarning.Some? && f.staleWarning.value != "" {
        warnings := warnings + [StaleData(f.staleWarning.value)];
      }
    }
    assert valid[..|valid|] == valid;
  }

  /**
   * The verdict and the warnings, set step by step on a result that starts
   * out tradeable.
   */
  method Verdict(
    valid: seq<SourceForecast>, weightedMean: real, adjustedMean: real, mean: real, spread: real,
    normal: Option<real>, normalHigh: Option<real>, climDev: real,
    horizon: int, sigma: real, maxSpread: real) returns (c: Consensus)
    ensures c == Assemble(valid, weightedMean, adjustedMean, mean, spread, normal, normalHigh, climDev, horizon, sigma, maxSpread)
  {
    var outlier := AbsR(climDev) > ClimOutlierThreshold;
    var tradeable := true;
    var why: Option<Reason> := None;
    var warnings: seq<Warning> := [];
    if spread > maxSpread {
      tradeable := false;
      why := Some(SpreadTooWide);
    }
    if outlier {
      tradeable := false;
      why := Some(ClimOutlier);
      warnings := warnings + [ClimOutlierWarning];
    }
    if 1.0 < spread <= maxSpread {
      warnings := warnings + [NearThreshold(spread)];
    }
    if horizon >= 2 {
      warnings := warnings + [LongHorizon(horizon, sigma)];
    }
    assert warnings + StaleWarnings(valid) == WarningsFor(outlier, spread, maxSpread, horizon, sigma, valid);
    warnings := PushStaleWarnings(valid, warnings);
    c := Consensus(
      valid, Round1(spread), Round1(mean), Round1(weightedMean), adjustedMean, climDev, normal, normalHigh,
      sigma, horizon, tradeable, why, warnings);
  }

  /** The body of `buildConsensus` after the sources, weights and sigma are in hand. */
  method BuildFrom(
    valid: seq<SourceForecast>, w: ModelWeights, st: Option<WeatherStation>, sigma: real,
    month: int, horizon: int, low: bool, maxSpread: real) returns (r: Result<Consensus>)
    requires w.nws > 0.0 && w.gfs > 0.0 && w.ecmwf > 0.0
    ensures r == ConsensusFrom(valid, w, st, sigma, month, horizon, low, maxSpread)
  {
    if |valid| < 2 {
      return Success(NotTradeable(TooFewSources(|valid|), valid));
    }
    var weightedSum, totalWeight := SumWeighted(valid, w, low);
    if totalWeight == 0.0 {
      return Success(NotTradeable(NoTempData, valid));
    }
    if st.None? {
      return Failure("TypeError: cannot read properties of undefined (reading 'bias')");
    }
    EntriesMatchTemps(valid, w, low);
    var temps := Temps(valid, low);
    var spread := Spread(temps);
    var weightedMean := weightedSum / totalWeight;
    var s := st.value;
    var adjustedMean := Round1(weightedMean + s.bias);
    var normal := NormalOf(if low then s.climNormalLow else s.climNormalHigh, month);
    var climDev := ClimDeviation(adjustedMean, normal);
    var normalHigh := if low then NormalOf(s.climNormalHigh, month) else normal;
    var c := Verdict(
      valid, weightedMean, adjustedMean, Mean(temps), spread,
      normal, normalHigh, climDev, horizon, sigma, maxSpread);
    assert c == StationConsensus(valid, temps, weightedMean, s, sigma, month, horizon, low, maxSpread);
    r := Success(c);
  }

  /**
   * `buildConsensus` as the loops compute it: the non-null sources are
   * collected, the weights and sigma looked up, the weighted temperatures
   * summed, and the verdict and warnings built step by step.
   */
  method BuildConsensus(
    table: StationTable, station: string, forecasts: seq<Option<SourceForecast>>,
    month: int, horizon: int, low: bool, maxSpread: real) returns (r: Result<Consensus>)
    requires ValidTable(table)
    ensures r == ConsensusOf(table, station, forecasts, month, horizon, low, maxSpread)
  {
    var valid := CollectPresent(forecasts);
    var w := ModelWeightsFor(table, station);
    var sigma := EffectiveSigma(table, station, month, horizon, low);
    r := BuildFrom(valid, w, Lookup(table, station), sigma, month, horizon, low, maxSpread);
  }

  /** One more source extends the weighted entries by its temperature, if it has one. */
  lemma EntriesStep(valid: seq<SourceForecast>, i: int, w: ModelWeights, low: bool)
    requires 0 <= i < |valid|
    ensures var es, f := Entries(valid[..i], w, low), valid[i];
      && WeightedSum(Entries(valid[..i + 1], w, low))
        == WeightedSum(es) + (if TempOf(f, low).Some? then TempOf(f, low).value * WeightOf(f.source, w) else 0.0)
      && WeightSum(Entries(valid[..i + 1], w, low))
        == WeightSum(es) + (if TempOf(f, low).Some? then WeightOf(f.source, w) else 0.0)
  {
    var v := valid[..i + 1];
    assert v[..|v| - 1] == valid[..i] && v[|v| - 1] == valid[i];
    var es, f := Entries(valid[..i], w, low), valid[i];
    assert Entries(v, w, low) == es + (if TempOf(f, low).Some? then [Weighted(WeightOf(f.source, w), TempOf(f, low).value)] else []);
    if TempOf(f, low).Some? {
      var x := Weighted(WeightOf(f.source, w), TempOf(f, low).value);
      assert Entries(v, w, low) == es + [x];
      assert (es + [x])[..|es + [x]| - 1] == es && (es + [x])[|es + [x]| - 1] == x;
      assert WeightedSum(es + [x]) == WeightedSum(es) + x.value * x.weight;
      assert WeightSum(es + [x]) == WeightSum(es) + x.weight;
    } else {
      assert es + [] == es;
    }
  }

  // ------------------------------------------------------------ as written

  /**
   * `buildConsensus` as written, once the sources, weights and sigma are in
   * hand: the climatological-outlier branch formats its reason with
   * `normalHigh`, a name that is not defined in that scope, so every
   * outlier throws a ReferenceError instead of returning.
   */
  function ConsensusAsWrittenFrom(
    valid: seq<SourceForecast>, w: ModelWeights, st: Option<WeatherStation>, sigma: real,
    month: int, horizon: int, low: bool, maxSpread: real): (r: Result<Consensus>)
    requires w.nws > 0.0 && w.gfs > 0.0 && w.ecmwf > 0.0
    ensures var c := ConsensusFrom(valid, w, st, sigma, month, horizon, low, maxSpread);
      r != c <==> c.Success? && c.value.Consensus? && c.value.why == Some(ClimOutlier)
  {
    var c := ConsensusFrom(valid, w, st, sigma, month, horizon, low, maxSpread);
    if c.Success? && c.value.Consensus? && AbsR(c.value.climDeviation) > ClimOutlierThreshold
    then Failure("ReferenceError: normalHigh is not defined")
    else c
  }

  /** `buildConsensus` as written, from the station table. */
  function ConsensusAsWritten(
    table: StationTable, station: string, forecasts: seq<Option<SourceForecast>>,
    month: int, horizon: int, low: bool, maxSpread: real): Result<Consensus>
    requires ValidTable(table)
  {
    ConsensusAsWrittenFrom(
      Present(forecasts), ModelWeightsFor(table, station), Lookup(table, station),
      EffectiveSigma(table, station, month, horizon, low), month, horizon, low, maxSpread)
  }

  /**
   * The input that shows it: an NWS and a GFS source agreeing on 60°F, with
   * the default weights, in a January whose normal high is 30°F. As written
   * the call throws; as intended it returns a consensus that is not
   * tradeable, with the CLIM_OUTLIER reason and warning.
   */
  lemma NormalHighReferenceError()
    ensures var s := WeatherStation(
        "New York", None, None, None, "A", None, Some(2.0), None, None, None, None, None, None,
        map[1 := 30.0], map[], 0.0);
      var valid := [SourceForecast(Nws, Some(60.0), None, None), SourceForecast(Gfs, Some(60.0), None, None)];
      var w := ModelWeights(0.2, 0.35, 0.45);
      && ConsensusAsWrittenFrom(valid, w, Some(s), 2.0, 1, 0, false, 3.0).Failure?
      && var c := ConsensusFrom(valid, w, Some(s), 2.0, 1, 0, false, 3.0);
      && c.Success? && c.value.Consensus? && !c.value.tradeable
      && c.value.why == Some(ClimOutlier) && ClimOutlierWarning in c.value.warnings
  {
    var valid := [SourceForecast(Nws, Some(60.0), None, None), SourceForecast(Gfs, Some(60.0), None, None)];
    var w := ModelWeights(0.2, 0.35, 0.45);
    var ws := Entries(valid, w, false);
    assert valid[..1] == [valid[0]] && valid[..1][..0] == [];
    assert Entries(valid[..1], w, false) == [Weighted(0.2, 60.0)];
    assert ws == [Weighted(0.2, 60.0), Weighted(0.35, 60.0)];
    var first := [Weighted(0.2, 60.0)];
    assert first[..0] == [] && ws[..|ws| - 1] == first;
    assert WeightedSum(first) == 12.0 && WeightSum(first) == 0.2;
    assert WeightedSum(ws) == 33.0 && WeightSum(ws) == 0.55;
    assert WeightedSum(ws) / WeightSum(ws) == 60.0;
    assert WholeTenths(60.0);
    Round1Exact(60.0);
    assert WholeTenths(30.0);
    Round1Exact(30.0);
  }

  /**
   * Where it does return, the as-written function agrees with the intended
   * one, and its every outlier is a failure; the intended one refuses every
   * outlier with the CLIM_OUTLIER warning.
   */
  lemma OutlierRefused(
    table: StationTable, station: string, forecasts: seq<Option<SourceForecast>>,
    month: int, horizon: int, low: bool, maxSpread: real)
    requires ValidTable(table)
    ensures var c := ConsensusOf(table, station, forecasts, month, horizon, low, maxSpread);
      c.Success? && c.value.Consensus? && AbsR(c.value.climDeviation) > ClimOutlierThreshold ==> (
        && !c.value.tradeable
        && ClimOutlierWarning in c.value.warnings
        && ConsensusAsWritten(table, station, forecasts, month, horizon, low, maxSpread).Failure?)
  {
  }
}
