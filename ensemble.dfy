// Ensemble uncertainty for a temperature forecast: the weighted consensus
// of the model highs, the dynamic sigma widened by the GFS-ECMWF spread and
// floored at the station's calibrated sigma, the uncertainty class and the
// tradeability verdict built on it.

module Ensemble {
  import opened Prelude
  import opened Utils
  import opened Averages
  import WeatherStations

  /** The three model highs of one forecast; a missing or zero high does not count. */
  datatype ModelHighs = ModelHighs(nws: Option<real>, gfs: Option<real>, ecmwf: Option<real>)

  /** Spreads wider than this many degrees are not traded. */
  const WideSpread: real := 3.0
  /** Spreads narrower than this many degrees count as agreement. */
  const TightSpread: real := 1.0
  /** Largest sigma the wide-spread branch assigns. */
  const SigmaCeiling: real := 2.5

  // ------------------------------------------------------------- consensus

  /** The present highs with their weights, NWS, ECMWF, GFS in that order. */
  function ConsensusEntries(f: ModelHighs, known: bool): (ws: seq<Weighted>)
    ensures PositiveWeights(ws)
    ensures ws == [] <==> !Truthy(f.nws) && !Truthy(f.ecmwf) && !Truthy(f.gfs)
    ensures forall i :: 0 <= i < |ws| ==>
      (Truthy(f.nws) && ws[i].value == f.nws.value)
      || (Truthy(f.ecmwf) && ws[i].value == f.ecmwf.value)
      || (Truthy(f.gfs) && ws[i].value == f.gfs.value)
  {
    var nw, ew, gw := if known then 0.15 else 0.2, if known then 0.45 else 0.4, 0.4;
    (if Truthy(f.nws) then [Weighted(nw, f.nws.value)] else [])
    + (if Truthy(f.ecmwf) then [Weighted(ew, f.ecmwf.value)] else [])
    + (if Truthy(f.gfs) then [Weighted(gw, f.gfs.value)] else [])
  }

  /**
   * `getModelConsensus(forecast, station)`: the weighted mean of the
   * present highs to the cent (NWS 0.15, ECMWF 0.45, GFS 0.4 for a known
   * station, 0.2/0.4/0.4 otherwise), or None when no high is present.
   */
  function ModelConsensus(table: WeatherStations.StationTable, station: string, f: ModelHighs): (r: Option<real>)
    ensures r.None? <==> !Truthy(f.nws) && !Truthy(f.ecmwf) && !Truthy(f.gfs)
    ensures r.Some? ==> WholeCents(r.value)
  {
    var ws := ConsensusEntries(f, WeatherStations.Lookup(table, station).Some?);
    WeightSumPositive(ws);
    if WeightSum(ws) > 0.0 then Some(Round2(WeightedSum(ws) / WeightSum(ws))) else None
  }

  predicate PresentWithin(x: Option<real>, lo: real, hi: real)
  {
    Truthy(x) ==> lo <= x.value <= hi
  }

  /** The consensus lies within half a cent of the range of the present highs. */
  lemma ConsensusBetween(table: WeatherStations.StationTable, station: string, f: ModelHighs, lo: real, hi: real)
    requires PresentWithin(f.nws, lo, hi) && PresentWithin(f.gfs, lo, hi) && PresentWithin(f.ecmwf, lo, hi)
    ensures var r := ModelConsensus(table, station, f);
      r.Some? ==> lo - 0.005 < r.value <= hi + 0.005
  {
    var ws := ConsensusEntries(f, WeatherStations.Lookup(table, station).Some?);
    if ws != [] {
      assert ValuesWithin(ws, lo, hi);
      WeightedMeanBetween(ws, lo, hi);
    }
  }

  /** When every present high is the same whole-cent value, the consensus is that value. */
  lemma ConsensusOfAgreement(table: WeatherStations.StationTable, station: string, f: ModelHighs, v: real)
    requires WholeCents(v) && Truthy(f.gfs)
    requires PresentWithin(f.nws, v, v) && PresentWithin(f.gfs, v, v) && PresentWithin(f.ecmwf, v, v)
    ensures ModelConsensus(table, station, f) == Some(v)
  {
    var ws := ConsensusEntries(f, WeatherStations.Lookup(table, station).Some?);
    assert ValuesWithin(ws, v, v);
    WeightedMeanBetween(ws, v, v);
    Round2Exact(v);
  }

  // ------------------------------------------------------------- sigma

  /** `stationData?.baseSigma || 1.0` */
  function StationBaseSigma(table: WeatherStations.StationTable, station: string): (r: real)
    ensures r != 0.0
    ensures WeatherStations.Lookup(table, station).None? ==> r == 1.0
  {
    match WeatherStations.Lookup(table, station)
    case None => 1.0
    case Some(s) => OrElse(s.baseSigma, 1.0)
  }

  /**
   * The sigma the GFS-ECMWF spread alone calls for: the base below one
   * degree, twice the base capped at 2.5 above three, and a linear ramp
   * from the base to twice the base in between.
   */
  function SpreadSigma(base: real, spread: real): real
  {
    if spread < TightSpread then base
    else if spread > WideSpread then MinR(base * 2.0, SigmaCeiling)
    else base * (1.0 + (spread - 1.0) / 2.0)
  }

  /** Between one and three degrees the ramp never falls as the spread grows. */
  lemma SpreadSigmaRampMonotone(base: real, s1: real, s2: real)
    requires base >= 0.0 && TightSpread <= s1 <= s2 <= WideSpread
    ensures base <= SpreadSigma(base, s1) <= SpreadSigma(base, s2) <= 2.0 * base
  {
    assert base * ((s2 - 1.0) / 2.0) - base * ((s1 - 1.0) / 2.0) == base * ((s2 - s1) / 2.0);
    ProductNonNegative(base, (s2 - s1) / 2.0);
    ProductNonNegative(base, (s1 - 1.0) / 2.0);
    ProductNonNegative(base, 1.0 - (s2 - 1.0) / 2.0);
  }

  /**
   * The ramp reaches twice the base at three degrees, but the wide branch
   * caps at 2.5: wider spreads keep at least the sigma of a three-degree
   * spread exactly when the base is at most 1.25.
   */
  lemma SpreadSigmaJumpAtWide(base: real)
    requires base >= 0.0
    ensures SpreadSigma(base, WideSpread) == 2.0 * base
    ensures (forall s :: s > WideSpread ==> SpreadSigma(base, s) >= SpreadSigma(base, WideSpread)) <==> base <= 1.25
  {
    if base > 1.25 {
      assert SpreadSigma(base, 4.0) == SigmaCeiling < 2.0 * base;
    }
  }

  /** The NWS tie-breaker: 10% off when NWS is within half a degree of either model. */
  function NwsAdjusted(sigma: real, f: ModelHighs): real
    requires Truthy(f.gfs) && Truthy(f.ecmwf)
  {
    if Truthy(f.nws) && MinR(AbsR(f.nws.value - f.gfs.value), AbsR(f.nws.value - f.ecmwf.value)) < 0.5
    then sigma * 0.9
    else sigma
  }

  /**
   * `calculateEnsembleSigma(forecast, station)`: the station's base sigma
   * when GFS or ECMWF is missing; otherwise the spread sigma, the NWS
   * tie-breaker and the base-sigma floor, to the cent.
   */
  function EnsembleSigma(table: WeatherStations.StationTable, station: string, f: ModelHighs): (r: real)
    ensures !Truthy(f.gfs) || !Truthy(f.ecmwf) ==> r == StationBaseSigma(table, station)
    ensures Truthy(f.gfs) && Truthy(f.ecmwf) ==> WholeCents(r)
  {
    var base := StationBaseSigma(table, station);
    if !Truthy(f.gfs) || !Truthy(f.ecmwf) then base
    else
      var spread := AbsR(f.gfs.value - f.ecmwf.value);
      Round2(MaxR(base, NwsAdjusted(SpreadSigma(base, spread), f)))
  }

  /**
   * The ensemble never tightens sigma below the calibrated base: the result
   * is at least the base less half a cent, and at least the base itself
   * when the base is a whole number of cents.
   */
  lemma EnsembleSigmaFloor(table: WeatherStations.StationTable, station: string, f: ModelHighs)
    ensures var base := StationBaseSigma(table, station);
      var r := EnsembleSigma(table, station, f);
      r > base - 0.005 && (WholeCents(base) ==> r >= base)
  {
    var base := StationBaseSigma(table, station);
    if Truthy(f.gfs) && Truthy(f.ecmwf) {
      var x := MaxR(base, NwsAdjusted(SpreadSigma(base, AbsR(f.gfs.value - f.ecmwf.value)), f));
      if WholeCents(base) {
        Round2Monotone(base, x);
        Round2Exact(base);
      }
    }
  }

  /** With a positive base the ensemble at most doubles it (to the cent). */
  lemma EnsembleSigmaCeiling(table: WeatherStations.StationTable, station: string, f: ModelHighs)
    requires StationBaseSigma(table, station) > 0.0
    ensures EnsembleSigma(table, station, f) <= 2.0 * StationBaseSigma(table, station) + 0.005
  {
    var base := StationBaseSigma(table, station);
    if Truthy(f.gfs) && Truthy(f.ecmwf) {
      var spread := AbsR(f.gfs.value - f.ecmwf.value);
      var s := SpreadSigma(base, spread);
      if TightSpread <= spread <= WideSpread {
        SpreadSigmaRampMonotone(base, spread, spread);
      }
      assert s <= 2.0 * base;
      assert NwsAdjusted(s, f) <= 2.0 * base;
    }
  }

  // ------------------------------------------------------------- classification

  datatype Level = Unknown | Low | Moderate | High

  datatype Uncertainty = Uncertainty(
    modelSpread: real,
    baseSigma: real,
    dynamicSigma: real,
    level: Level,
    confidenceAdjustment: real)

  /** |GFS − ECMWF| when both are present. */
  function ModelSpread(f: ModelHighs): (r: Option<real>)
    ensures r.Some? <==> Truthy(f.gfs) && Truthy(f.ecmwf)
    ensures r.Some? ==> r.value >= 0.0
  {
    if Truthy(f.gfs) && Truthy(f.ecmwf) then Some(AbsR(f.gfs.value - f.ecmwf.value)) else None
  }

  /**
   * `analyzeUncertainty(forecast, station)`: the class of the raw spread,
   * with the spread, both sigmas and their ratio reported to the cent; a
   * missing spread is reported as 0 (`round2(null)`).
   */
  function AnalyzeUncertainty(table: WeatherStations.StationTable, station: string, f: ModelHighs): (u: Uncertainty)
    ensures var s := ModelSpread(f);
      && (u.level == Unknown <==> s.None?)
      && (u.level == Low <==> s.Some? && s.value < TightSpread)
      && (u.level == High <==> s.Some? && s.value > WideSpread)
      && (u.level == Moderate <==> s.Some? && TightSpread <= s.value <= WideSpread)
    ensures ModelSpread(f).None? ==> u.modelSpread == 0.0
    ensures ModelSpread(f).Some? ==> u.modelSpread == Round2(ModelSpread(f).value)
    ensures u.dynamicSigma == Round2(EnsembleSigma(table, station, f))
    ensures u.baseSigma == Round2(StationBaseSigma(table, station))
    ensures u.confidenceAdjustment == Round2(EnsembleSigma(table, station, f) / StationBaseSigma(table, station))
  {
    var s := ModelSpread(f);
    var dyn := EnsembleSigma(table, station, f);
    var base := StationBaseSigma(table, station);
    var level :=
      if s.None? then Unknown
      else if s.value < TightSpread then Low
      else if s.value > WideSpread then High
      else Moderate;
    Uncertainty(if s.None? then 0.0 else Round2(s.value), Round2(base), Round2(dyn), level, Round2(dyn / base))
  }

  datatype Tradeability = Tradeability(tradeable: bool, tightSigma: bool, effectiveSigma: real)

  /**
   * `checkEnsembleTradeability(forecast, station)`: refused when the
   * reported spread exceeds three degrees, marked TIGHT_SIGMA when it is
   * under one, standard otherwise; the effective sigma is the reported
   * dynamic sigma in every case.
   */
  function EnsembleTradeability(table: WeatherStations.StationTable, station: string, f: ModelHighs): (t: Tradeability)
    ensures var u := AnalyzeUncertainty(table, station, f);
      && (t.tradeable <==> u.modelSpread <= WideSpread)
      && (t.tightSigma <==> u.modelSpread < TightSpread)
      && t.effectiveSigma == u.dynamicSigma
  {
    var u := AnalyzeUncertainty(table, station, f);
    if u.modelSpread > WideSpread then Tradeability(false, false, u.dynamicSigma)
    else if u.modelSpread < TightSpread then Tradeability(true, true, u.dynamicSigma)
    else Tradeability(true, false, u.dynamicSigma)
  }

  /**
   * A forecast missing GFS or ECMWF is reported with spread 0 and so takes
   * the TIGHT_SIGMA branch, with the station's base sigma to the cent.
   */
  lemma MissingSpreadIsTight(table: WeatherStations.StationTable, station: string, f: ModelHighs)
    requires !Truthy(f.gfs) || !Truthy(f.ecmwf)
    ensures var t := EnsembleTradeability(table, station, f);
      t.tradeable && t.tightSigma && t.effectiveSigma == Round2(StationBaseSigma(table, station))
  {
  }

  /**
   * The verdict follows the rounded spread, the class the raw one: a
   * refusal implies a HIGH class and TIGHT_SIGMA with a present spread
   * implies a LOW class, but a raw spread of 3.004 is HIGH and still traded.
   */
  lemma VerdictAgreesWithLevel(table: WeatherStations.StationTable, station: string, f: ModelHighs)
    ensures var t := EnsembleTradeability(table, station, f);
      var u := AnalyzeUncertainty(table, station, f);
      && (!t.tradeable ==> u.level == High)
      && (t.tightSigma ==> u.level == Low || u.level == Unknown)
  {
    var s := ModelSpread(f);
    if s.Some? {
      var r := Round2(s.value);
      if r < TightSpread {
        assert WholeCents(r);
        var k := (r * 100.0).Floor;
        assert k as real == r * 100.0 && k < 100;
        assert r <= 0.99;
      }
    }
  }

  /** The boundary case: a raw spread of 3.004 degrees is classed HIGH and still traded. */
  lemma BoundarySpreadTraded(table: WeatherStations.StationTable, station: string)
    ensures var f := ModelHighs(None, Some(53.004), Some(50.0));
      AnalyzeUncertainty(table, station, f).level == High && EnsembleTradeability(table, station, f).tradeable
  {
    var f := ModelHighs(None, Some(53.004), Some(50.0));
    assert ModelSpread(f) == Some(3.004);
    RoundUnique(3.004 * 100.0, 300);
  }
}
