// The precipitation forecast consensus: the NWS, GFS and ECMWF rain
// probabilities are averaged with fixed weights, the GFS and ECMWF amounts
// with equal weights, and the disagreement between the sources is reported
// as a spread.

module PrecipForecast {
  import opened Prelude
  import opened Utils
  import opened Averages

  datatype Source = Nws | Gfs | Ecmwf

  /** One source's forecast for the day; either figure may be missing. */
  datatype Reading = Reading(rainProb: Option<real>, precipInches: Option<real>)

  /** The three sources' forecasts; a source that failed is absent. */
  datatype Forecasts = Forecasts(nws: Option<Reading>, gfs: Option<Reading>, ecmwf: Option<Reading>)

  const NwsWeight: real := 0.40
  const GfsWeight: real := 0.35
  const EcmwfWeight: real := 0.25
  const AmountWeight: real := 0.5

  /** `r?.rainProb` */
  function ProbOf(r: Option<Reading>): Option<real>
  {
    if r.Some? then r.value.rainProb else None
  }

  /** `r?.precipInches` */
  function InchesOf(r: Option<Reading>): Option<real>
  {
    if r.Some? then r.value.precipInches else None
  }

  /** One pushed `{source, prob|inches, weight}` object. */
  datatype Entry = Entry(source: Source, value: real, weight: real)

  /** `if (v != null) es.push({source, v, weight})` */
  function PushIf(es: seq<Entry>, s: Source, v: Option<real>, w: real): seq<Entry>
  {
    if v.Some? then es + [Entry(s, v.value, w)] else es
  }

  /** The probability sources in the order NWS, GFS, ECMWF. */
  function ProbEntries(f: Forecasts): seq<Entry>
  {
    PushIf(PushIf(PushIf([], Nws, ProbOf(f.nws), NwsWeight), Gfs, ProbOf(f.gfs), GfsWeight), Ecmwf, ProbOf(f.ecmwf), EcmwfWeight)
  }

  /** The amount sources in the order GFS, ECMWF. */
  function AmountEntries(f: Forecasts): seq<Entry>
  {
    PushIf(PushIf([], Gfs, InchesOf(f.gfs), AmountWeight), Ecmwf, InchesOf(f.ecmwf), AmountWeight)
  }

  function AsWeighted(es: seq<Entry>): (r: seq<Weighted>)
    ensures |r| == |es| && forall i :: 0 <= i < |es| ==> r[i] == Weighted(es[i].weight, es[i].value)
  {
    seq(|es|, i requires 0 <= i < |es| => Weighted(es[i].weight, es[i].value))
  }

  function Values(es: seq<Entry>): (r: seq<real>)
    ensures |r| == |es| && forall i :: 0 <= i < |es| ==> r[i] == es[i].value
  {
    seq(|es|, i requires 0 <= i < |es| => es[i].value)
  }

  predicate PositiveEntries(es: seq<Entry>)
  {
    forall i :: 0 <= i < |es| ==> es[i].weight > 0.0
  }

  /** `weightedSum / totalWeight` over the entries. */
  function MeanOf(es: seq<Entry>): real
    requires es != [] && PositiveEntries(es)
  {
    var ws := AsWeighted(es);
    WeightSumPositive(ws);
    WeightedSum(ws) / WeightSum(ws)
  }

  /** `max − min` of the values when there are at least two, and 0 otherwise. */
  function SpreadOf(es: seq<Entry>): real
  {
    if |es| >= 2 then Round2(Spread(Values(es))) else 0.0
  }

  datatype PrecipConsensus =
    /** `{tradeable: false, reason: 'No forecast data available'}` */
    | NoForecastData
    | Consensus(
        rainProb: Option<real>,
        precipAmount: Option<real>,
        probSpread: real,
        amountSpread: real,
        sourceCount: nat,
        sources: seq<Entry>)

  lemma EntriesPositive(f: Forecasts)
    ensures PositiveEntries(ProbEntries(f)) && PositiveEntries(AmountEntries(f))
    ensures |ProbEntries(f)| <= 3 && |AmountEntries(f)| <= 2
  {
  }

  /**
   * `buildPrecipConsensus`. `logistic` stands for the calibrated map
   * x ↦ 1 / (1 + e^(−80(x − 0.02))) from a forecast amount to a rain
   * probability, which is used only when no source gives a probability.
   */
  function PrecipConsensusOf(f: Forecasts, logistic: real -> real): PrecipConsensus
  {
    var ps, am := ProbEntries(f), AmountEntries(f);
    EntriesPositive(f);
    if ps == [] && am == [] then NoForecastData
    else
      var rainProb :=
        if ps != [] then Some(Round2(MeanOf(ps)))
        else Some(Round2(logistic(MeanOf(am))));
      var precipAmount := if am != [] then Some(Round2(MeanOf(am))) else None;
      Consensus(rainProb, precipAmount, SpreadOf(ps), SpreadOf(am), |ps| + |am|, ps)
  }

  // ------------------------------------------------------------ properties

  function PresentCount(f: Forecasts): nat
  {
    (if ProbOf(f.nws).Some? then 1 else 0) + (if ProbOf(f.gfs).Some? then 1 else 0)
      + (if ProbOf(f.ecmwf).Some? then 1 else 0) + (if InchesOf(f.gfs).Some? then 1 else 0)
      + (if InchesOf(f.ecmwf).Some? then 1 else 0)
  }

  /**
   * The consensus is untradeable exactly when no source gives either a
   * probability or an amount; otherwise it counts every figure present and
   * always carries a rain probability.
   */
  lemma NoDataIff(f: Forecasts, logistic: real -> real)
    ensures var r := PrecipConsensusOf(f, logistic);
      && (r.NoForecastData? <==> PresentCount(f) == 0)
      && (r.Consensus? ==> r.sourceCount == PresentCount(f) && 1 <= r.sourceCount <= 5 && r.rainProb.Some?)
  {
  }

  /** With at least one probability source, the rounded probability lies between the smallest and the largest. */
  lemma RainProbBetween(f: Forecasts, logistic: real -> real)
    requires ProbEntries(f) != []
    ensures var r, vs := PrecipConsensusOf(f, logistic), Values(ProbEntries(f));
      && r.Consensus? && r.rainProb.Some?
      && Round2(MinOf(vs)) <= r.rainProb.value <= Round2(MaxOf(vs))
  {
    var ps := ProbEntries(f);
    EntriesPositive(f);
    var vs, ws := Values(ps), AsWeighted(ps);
    WeightedMeanBetween(ws, MinOf(vs), MaxOf(vs));
    Round2Monotone(MinOf(vs), MeanOf(ps));
    Round2Monotone(MeanOf(ps), MaxOf(vs));
  }

  /** Probabilities in [0, 1] give a consensus probability in [0, 1]. */
  lemma RainProbIsProbability(f: Forecasts, logistic: real -> real)
    requires ProbEntries(f) != []
    requires forall i :: 0 <= i < |ProbEntries(f)| ==> 0.0 <= ProbEntries(f)[i].value <= 1.0
    ensures var r := PrecipConsensusOf(f, logistic);
      r.Consensus? && r.rainProb.Some? && 0.0 <= r.rainProb.value <= 1.0
  {
    var vs := Values(ProbEntries(f));
    RainProbBetween(f, logistic);
    Round2Monotone(0.0, MinOf(vs));
    Round2Exact(0.0);
    Round2Monotone(MaxOf(vs), 1.0);
    Round2Exact(1.0);
  }

  /**
   * The amount-to-probability fallback is consulted only when no source
   * gives a probability: with one, any two fallbacks give the same
   * consensus; without one, the probability is the fallback applied to the
   * mean amount.
   */
  lemma FallbackOnlyWithoutProbabilities(f: Forecasts, l1: real -> real, l2: real -> real)
    ensures ProbEntries(f) != [] ==> PrecipConsensusOf(f, l1) == PrecipConsensusOf(f, l2)
    ensures ProbEntries(f) == [] && AmountEntries(f) != [] ==>
      PrecipConsensusOf(f, l1).rainProb == Some(Round2(l1(MeanOf(AmountEntries(f)))))
  {
  }

  /** The amount is absent exactly when no amount source is present; otherwise it lies between the smallest and the largest. */
  lemma PrecipAmountIff(f: Forecasts, logistic: real -> real)
    ensures var r, am := PrecipConsensusOf(f, logistic), AmountEntries(f);
      && (r.Consensus? ==> (r.precipAmount.None? <==> am == []))
      && (am != [] ==>
            && r.Consensus? && r.precipAmount.Some?
            && Round2(MinOf(Values(am))) <= r.precipAmount.value <= Round2(MaxOf(Values(am))))
  {
    var am := AmountEntries(f);
    EntriesPositive(f);
    if am != [] {
      var vs, ws := Values(am), AsWeighted(am);
      WeightedMeanBetween(ws, MinOf(vs), MaxOf(vs));
      Round2Monotone(MinOf(vs), MeanOf(am));
      Round2Monotone(MeanOf(am), MaxOf(vs));
    }
  }

  /** Both spreads are never negative, and zero when fewer than two sources report or all agree. */
  lemma SpreadsNonNegative(f: Forecasts, logistic: real -> real)
    ensures var r := PrecipConsensusOf(f, logistic);
      r.Consensus? ==>
        && r.probSpread >= 0.0 && r.amountSpread >= 0.0
        && (|ProbEntries(f)| < 2 ==> r.probSpread == 0.0)
        && (|AmountEntries(f)| < 2 ==> r.amountSpread == 0.0)
        && ((|ProbEntries(f)| >= 2 && forall i :: 0 <= i < |ProbEntries(f)| ==> ProbEntries(f)[i].value == ProbEntries(f)[0].value)
              ==> r.probSpread == 0.0)
  {
    var ps, am := ProbEntries(f), AmountEntries(f);
    if |ps| >= 2 {
      RoundedNonNegative(Spread(Values(ps)));
      if forall i :: 0 <= i < |ps| ==> ps[i].value == ps[0].value {
        assert Spread(Values(ps)) == 0.0;
        Round2Exact(0.0);
      }
    }
    if |am| >= 2 {
      RoundedNonNegative(Spread(Values(am)));
    }
  }

  /** All three probability weights present sum to one. */
  lemma FullWeightIsOne(f: Forecasts)
    requires ProbOf(f.nws).Some? && ProbOf(f.gfs).Some? && ProbOf(f.ecmwf).Some?
    ensures WeightSum(AsWeighted(ProbEntries(f))) == 1.0
  {
    var ws := AsWeighted(ProbEntries(f));
    assert |ws| == 3 && ws[0].weight == NwsWeight && ws[1].weight == GfsWeight && ws[2].weight == EcmwfWeight;
    var w1, w2 := ws[..1], ws[..2];
    assert w1[..0] == [] && w2[..1] == w1 && ws[..2] == w2;
    assert WeightSum(w1) == NwsWeight;
    assert WeightSum(w2) == NwsWeight + GfsWeight;
  }

  // ------------------------------------------------------------ the method

  /** The `for (const s of sources)` accumulation of weighted sum and total weight. */
  method Accumulate(ws: seq<Weighted>) returns (weightedSum: real, totalWeight: real)
    ensures weightedSum == WeightedSum(ws) && totalWeight == WeightSum(ws)
  {
    weightedSum, totalWeight := 0.0, 0.0;
    for i := 0 to |ws|
      invariant weightedSum == WeightedSum(ws[..i]) && totalWeight == WeightSum(ws[..i])
    {
      assert ws[..i + 1][..i] == ws[..i];
      weightedSum := weightedSum + ws[i].value * ws[i].weight;
      totalWeight := totalWeight + ws[i].weight;
    }
    assert ws[..|ws|] == ws;
  }

  /** The pushes of the present figures into `sources` and `amounts`. */
  method CollectSources(f: Forecasts) returns (sources: seq<Entry>, amounts: seq<Entry>)
    ensures sources == ProbEntries(f) && amounts == AmountEntries(f)
  {
    sources := [];
    if ProbOf(f.nws).Some? { sources := sources + [Entry(Nws, ProbOf(f.nws).value, NwsWeight)]; }
    if ProbOf(f.gfs).Some? { sources := sources + [Entry(Gfs, ProbOf(f.gfs).value, GfsWeight)]; }
    if ProbOf(f.ecmwf).Some? { sources := sources + [Entry(Ecmwf, ProbOf(f.ecmwf).value, EcmwfWeight)]; }
    amounts := [];
    if InchesOf(f.gfs).Some? { amounts := amounts + [Entry(Gfs, InchesOf(f.gfs).value, AmountWeight)]; }
    if InchesOf(f.ecmwf).Some? { amounts := amounts + [Entry(Ecmwf, InchesOf(f.ecmwf).value, AmountWeight)]; }
  }

  /** `weightedSum / totalWeight` after the accumulation loop. */
  method WeightedMean(es: seq<Entry>) returns (m: real)
    requires es != [] && PositiveEntries(es)
    ensures m == MeanOf(es)
  {
    var weightedSum, totalWeight := Accumulate(AsWeighted(es));
    WeightSumPositive(AsWeighted(es));
    m := weightedSum / totalWeight;
  }

  /** `buildPrecipConsensus` step by step. */
  method BuildPrecipConsensus(f: Forecasts, logistic: real -> real) returns (r: PrecipConsensus)
    ensures r == PrecipConsensusOf(f, logistic)
  {
    var sources, amounts := CollectSources(f);
    EntriesPositive(f);
    if sources == [] && amounts == [] {
      return NoForecastData;
    }
    var rainProb: Option<real> := None;
    if sources != [] {
      var m := WeightedMean(sources);
      rainProb := Some(Round2(m));
    }
    if rainProb.None? && amounts != [] {
      var meanAmount := WeightedMean(amounts);
      rainProb := Some(Round2(logistic(meanAmount)));
    }
    var precipAmount: Option<real> := None;
    if amounts != [] {
      var m := WeightedMean(amounts);
      precipAmount := Some(Round2(m));
    }
    r := Consensus(rainProb, precipAmount, SpreadOf(sources), SpreadOf(amounts), |sources| + |amounts|, sources);
  }
}
