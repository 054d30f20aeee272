// Calibration of the precipitation model against what fell: the Brier
// score of daily rain probabilities with its reliability diagram, and the
// coverage of the monthly totals' prediction intervals.

module PrecipCalibration {
  import opened Prelude
  import opened Utils
  import opened Averages

  /** A forecast rain probability and the amount observed, in inches. */
  datatype Pair = Pair(forecastProb: real, actual: real)

  /** Amounts above this many inches count as rain. */
  const RainThreshold: real := 0.01

  /** `actual > 0.01 ? 1 : 0` */
  function Outcome(actual: real): (o: real)
    ensures o == 1.0 || o == 0.0
    ensures o == 1.0 <==> actual > RainThreshold
  {
    if actual > RainThreshold then 1.0 else 0.0
  }

  /** `Math.min(9, Math.floor(p * 10))`: the tenth of the unit interval `p` falls in, the top bin closed. */
  function BinOf(p: real): (b: int)
    ensures b <= 9 && b as real <= p * 10.0
    ensures b < 9 ==> p * 10.0 < b as real + 1.0
    ensures p * 10.0 >= 9.0 ==> b == 9
    ensures 0.0 <= p ==> 0 <= b
  {
    MinI(9, (p * 10.0).Floor)
  }

  /** One bucket of the reliability diagram: outcomes, forecasts and how many. */
  datatype BinAcc = BinAcc(sum: real, count: nat, forecastSum: real)

  predicate SaneBins(bins: map<int, BinAcc>)
  {
    forall k :: k in bins ==> bins[k].count > 0 && 0.0 <= bins[k].sum <= bins[k].count as real
  }

  /** One turn of the loop body on `bins`. */
  function AddPair(bins: map<int, BinAcc>, p: Pair): map<int, BinAcc>
  {
    var b := BinOf(p.forecastProb);
    var acc := if b in bins then bins[b] else BinAcc(0.0, 0, 0.0);
    bins[b := BinAcc(acc.sum + Outcome(p.actual), acc.count + 1, acc.forecastSum + p.forecastProb)]
  }

  /** `bins` after the loop; every bucket holds at least one pair, and no more wet days than pairs. */
  function Bins(pairs: seq<Pair>): (r: map<int, BinAcc>)
    ensures SaneBins(r)
  {
    if pairs == [] then map[] else AddPair(Bins(pairs[..|pairs| - 1]), pairs[|pairs| - 1])
  }

  /** There is a bucket exactly for each bin some pair falls in. */
  lemma {:induction false} BinsKeys(pairs: seq<Pair>)
    ensures forall k :: k in Bins(pairs) <==> exists i :: 0 <= i < |pairs| && BinOf(pairs[i].forecastProb) == k
  {
    if pairs != [] {
      var init := pairs[..|pairs| - 1];
      assert forall i :: 0 <= i < |init| ==> init[i] == pairs[i];
      BinsKeys(init);
    }
  }

  /** `sum` after the loop: the squared errors of the forecasts. */
  function SquaredErrorSum(pairs: seq<Pair>): (r: real)
    ensures r >= 0.0
  {
    if pairs == [] then 0.0
    else
      var p := pairs[|pairs| - 1];
      var e := p.forecastProb - Outcome(p.actual);
      SquaredErrorSum(pairs[..|pairs| - 1]) + e * e
  }

  /** The number of rainy days. */
  function RainCount(pairs: seq<Pair>): (r: nat)
    ensures r <= |pairs|
  {
    if pairs == [] then 0
    else RainCount(pairs[..|pairs| - 1]) + (if Outcome(pairs[|pairs| - 1].actual) == 1.0 then 1 else 0)
  }

  /** One point of the reliability diagram. */
  datatype Reliability = Reliability(binCenter: real, forecastMean: real, observedFreq: real, count: nat)

  /** The variance of a Bernoulli trial is at most a quarter. */
  lemma QuarterBound(c: real)
    requires 0.0 <= c <= 1.0
    ensures 0.0 <= c * (1.0 - c) <= 0.25
  {
    ProductNonNegative(c, 1.0 - c);
    assert 0.25 - c * (1.0 - c) == (c - 0.5) * (c - 0.5);
  }

  /** A fraction between 0 and 1 rounds to the cent between 0 and 1. */
  lemma UnitRounded(x: real)
    requires 0.0 <= x <= 1.0
    ensures 0.0 <= Round2(x) <= 1.0
  {
    Round2Monotone(0.0, x);
    Round2Exact(0.0);
    Round2Monotone(x, 1.0);
    Round2Exact(1.0);
  }

  function BinCenter(b: int): real
  {
    (b as real + 0.5) / 10.0
  }

  /**
   * The diagram's points for the bins lo..hi that hold a pair, in
   * ascending order of bin: the entries of `bins` sorted by bin centre.
   */
  function ReliabilityOf(bins: map<int, BinAcc>, lo: int, hi: int): (r: seq<Reliability>)
    requires SaneBins(bins)
    decreases hi - lo
    ensures forall i :: 0 <= i < |r| ==> r[i].count > 0 && 0.0 <= r[i].observedFreq <= 1.0
  {
    if hi < lo then []
    else
      var rest := ReliabilityOf(bins, lo, hi - 1);
      if hi in bins then
        var acc := bins[hi];
        var freq := acc.sum / acc.count as real;
        QuotientBetween(acc.sum, acc.count as real, 0.0, 1.0);
        UnitRounded(freq);
        rest + [Reliability(BinCenter(hi), Round2(acc.forecastSum / acc.count as real), Round2(freq), acc.count)]
      else rest
  }

  predicate AscendingCenters(r: seq<Reliability>)
  {
    forall i, j :: 0 <= i < j < |r| ==> r[i].binCenter < r[j].binCenter
  }

  predicate HasCenter(r: seq<Reliability>, c: real)
  {
    exists i :: 0 <= i < |r| && r[i].binCenter == c
  }

  /** The points are in strictly ascending order of bin centre, all within the bins lo..hi. */
  lemma {:induction false} ReliabilitySorted(bins: map<int, BinAcc>, lo: int, hi: int)
    requires SaneBins(bins)
    decreases hi - lo
    ensures forall i :: 0 <= i < |ReliabilityOf(bins, lo, hi)| ==>
      BinCenter(lo) <= ReliabilityOf(bins, lo, hi)[i].binCenter <= BinCenter(hi)
    ensures AscendingCenters(ReliabilityOf(bins, lo, hi))
  {
    if hi >= lo {
      ReliabilitySorted(bins, lo, hi - 1);
      var rest := ReliabilityOf(bins, lo, hi - 1);
      assert BinCenter(hi - 1) < BinCenter(hi);
      if hi in bins {
        var r := ReliabilityOf(bins, lo, hi);
        assert forall i :: 0 <= i < |rest| ==> r[i] == rest[i];
        assert r[|rest|].binCenter == BinCenter(hi);
      }
    }
  }

  /** A bin in lo..hi has a point exactly when it holds a pair. */
  lemma {:induction false} ReliabilityKeys(bins: map<int, BinAcc>, lo: int, hi: int)
    requires SaneBins(bins)
    decreases hi - lo
    ensures forall k :: lo <= k <= hi ==> (k in bins <==> HasCenter(ReliabilityOf(bins, lo, hi), BinCenter(k)))
  {
    if hi >= lo {
      ReliabilityKeys(bins, lo, hi - 1);
      ReliabilitySorted(bins, lo, hi - 1);
      var rest := ReliabilityOf(bins, lo, hi - 1);
      var r := ReliabilityOf(bins, lo, hi);
      assert BinCenter(hi - 1) < BinCenter(hi);
      forall k | lo <= k <= hi
        ensures k in bins <==> HasCenter(r, BinCenter(k))
      {
        if hi in bins {
          assert forall i :: 0 <= i < |rest| ==> r[i] == rest[i];
          assert r[|rest|].binCenter == BinCenter(hi);
          if k < hi {
            assert BinCenter(k) != BinCenter(hi);
            assert HasCenter(rest, BinCenter(k)) ==> HasCenter(r, BinCenter(k));
          }
        } else if k == hi {
          assert forall i :: 0 <= i < |r| ==> r[i].binCenter < BinCenter(hi);
        }
      }
    }
  }

  /** The sum of the counts over a diagram. */
  function CountSum(r: seq<Reliability>): nat
  {
    if r == [] then 0 else CountSum(r[..|r| - 1]) + r[|r| - 1].count
  }

  /** The pairs counted in the bins lo..hi. */
  function Total(bins: map<int, BinAcc>, lo: int, hi: int): nat
    decreases hi - lo
  {
    if hi < lo then 0 else Total(bins, lo, hi - 1) + (if hi in bins then bins[hi].count else 0)
  }

  /** The lowest bin any pair falls in. */
  function LowestBin(pairs: seq<Pair>): (lo: int)
    requires pairs != []
    ensures lo <= 9
    ensures forall i :: 0 <= i < |pairs| ==> lo <= BinOf(pairs[i].forecastProb)
  {
    if |pairs| == 1 then BinOf(pairs[0].forecastProb)
    else
      var init := pairs[..|pairs| - 1];
      assert forall i :: 0 <= i < |init| ==> init[i] == pairs[i];
      MinI(LowestBin(init), BinOf(pairs[|pairs| - 1].forecastProb))
  }

  datatype BrierScore =
    /** `{brier: null, n: 0}` */
    | NoPairs
    | BrierScore(brier: real, brierClim: real, brierSkill: real, n: nat, climProb: real, reliability: seq<Reliability>)

  /** The Brier score of always forecasting the frequency `c`, to the cent. */
  function ClimScore(c: real): real
  {
    Round2(c * (1.0 - c))
  }

  /**
   * The summary scores of `n` pairs from their squared-error sum, their
   * number of rainy days and their diagram.
   */
  function BrierFrom(sqSum: real, rain: nat, n: nat, reliability: seq<Reliability>): BrierScore
    requires n > 0
  {
    var brier := Round2(sqSum / n as real);
    var climProb := rain as real / n as real;
    var brierClim := ClimScore(climProb);
    var brierSkill := if brierClim > 0.0 then Round2(1.0 - brier / brierClim) else 0.0;
    BrierScore(brier, brierClim, brierSkill, n, Round2(climProb), reliability)
  }

  /** `computeBrierScore` */
  function BrierOf(pairs: seq<Pair>): BrierScore
  {
    if pairs == [] then NoPairs
    else BrierFrom(SquaredErrorSum(pairs), RainCount(pairs), |pairs|, ReliabilityOf(Bins(pairs), LowestBin(pairs), 9))
  }

  // ------------------------------------------------------------ properties

  lemma {:induction false} TotalAdd(bins: map<int, BinAcc>, p: Pair, lo: int, hi: int)
    decreases hi - lo
    ensures Total(AddPair(bins, p), lo, hi) == Total(bins, lo, hi) + (if lo <= BinOf(p.forecastProb) <= hi then 1 else 0)
  {
    if hi >= lo {
      TotalAdd(bins, p, lo, hi - 1);
    }
  }

  lemma {:induction false} TotalEmpty(lo: int, hi: int)
    decreases hi - lo
    ensures Total(map[], lo, hi) == 0
  {
    if hi >= lo {
      TotalEmpty(lo, hi - 1);
    }
  }

  lemma {:induction false} BinsTotal(pairs: seq<Pair>, lo: int)
    requires forall i :: 0 <= i < |pairs| ==> lo <= BinOf(pairs[i].forecastProb)
    ensures Total(Bins(pairs), lo, 9) == |pairs|
  {
    if pairs == [] {
      TotalEmpty(lo, 9);
    } else {
      var init := pairs[..|pairs| - 1];
      assert forall i :: 0 <= i < |init| ==> init[i] == pairs[i];
      BinsTotal(init, lo);
      assert Bins(pairs) == AddPair(Bins(init), pairs[|pairs| - 1]);
      assert lo <= BinOf(pairs[|pairs| - 1].forecastProb);
      TotalAdd(Bins(init), pairs[|pairs| - 1], lo, 9);
    }
  }

  lemma {:induction false} ReliabilityCounts(bins: map<int, BinAcc>, lo: int, hi: int)
    requires SaneBins(bins)
    decreases hi - lo
    ensures CountSum(ReliabilityOf(bins, lo, hi)) == Total(bins, lo, hi)
  {
    if hi >= lo {
      ReliabilityCounts(bins, lo, hi - 1);
      var rest := ReliabilityOf(bins, lo, hi - 1);
      if hi in bins {
        var r := ReliabilityOf(bins, lo, hi);
        assert r[..|r| - 1] == rest;
      }
    }
  }

  /**
   * The reliability diagram lists each bin a pair falls in once, in
   * ascending order of bin centre, and its counts add up to the number of
   * pairs.
   */
  lemma BrierReliability(pairs: seq<Pair>)
    requires pairs != []
    ensures AscendingCenters(BrierOf(pairs).reliability)
    ensures forall i :: 0 <= i < |pairs| ==> HasCenter(BrierOf(pairs).reliability, BinCenter(BinOf(pairs[i].forecastProb)))
    ensures forall k :: HasCenter(BrierOf(pairs).reliability, BinCenter(k)) ==> exists i :: 0 <= i < |pairs| && BinOf(pairs[i].forecastProb) == k
    ensures CountSum(BrierOf(pairs).reliability) == |pairs|
  {
    var lo := LowestBin(pairs);
    BinsKeys(pairs);
    ReliabilitySorted(Bins(pairs), lo, 9);
    ReliabilityKeys(Bins(pairs), lo, 9);
    ReliabilityCounts(Bins(pairs), lo, 9);
    BinsTotal(pairs, lo);
    var r := BrierOf(pairs).reliability;
    forall k | HasCenter(r, BinCenter(k))
      ensures exists i :: 0 <= i < |pairs| && BinOf(pairs[i].forecastProb) == k
    {
      var j :| 0 <= j < |r| && r[j].binCenter == BinCenter(k);
      assert lo <= k <= 9;
    }
  }

  /**
   * The climatological probability is a frequency and its score at most a
   * quarter; when every day was wet, or every day dry, that score is 0 and
   * there is no skill to measure.
   */
  lemma ClimatologyBounds(sqSum: real, rain: nat, n: nat, reliability: seq<Reliability>)
    requires 0 < n && rain <= n
    ensures var s := BrierFrom(sqSum, rain, n, reliability);
      && 0.0 <= s.climProb <= 1.0
      && 0.0 <= s.brierClim <= 0.25
      && (rain == 0 || rain == n ==> s.brierClim == 0.0 && s.brierSkill == 0.0)
  {
    var c := rain as real / n as real;
    QuotientBetween(rain as real, n as real, 0.0, 1.0);
    UnitRounded(c);
    if rain == n {
      QuotientBetween(rain as real, n as real, 1.0, 1.0);
    }
    ClimScoreBounds(c);
  }

  /** Always forecasting a frequency scores between 0 and a quarter, and 0 for a certain outcome. */
  lemma ClimScoreBounds(c: real)
    requires 0.0 <= c <= 1.0
    ensures 0.0 <= ClimScore(c) <= 0.25
    ensures c == 0.0 || c == 1.0 ==> ClimScore(c) == 0.0
  {
    var v := c * (1.0 - c);
    QuarterBound(c);
    Round2Monotone(0.0, v);
    Round2Exact(0.0);
    Round2Monotone(v, 0.25);
    Round2Exact(0.25);
  }

  /** A squared-error sum of at most one per pair gives a Brier score in [0, 1]. */
  lemma BrierScoreBounds(sqSum: real, rain: nat, n: nat, reliability: seq<Reliability>)
    requires 0 < n && 0.0 <= sqSum
    ensures var s := BrierFrom(sqSum, rain, n, reliability);
      && 0.0 <= s.brier
      && (sqSum <= n as real ==> s.brier <= 1.0)
  {
    RoundedNonNegative(sqSum / n as real);
    if sqSum <= n as real {
      QuotientBetween(sqSum, n as real, 0.0, 1.0);
      UnitRounded(sqSum / n as real);
    }
  }

  /**
   * The scores are proper: the climatological probability is a frequency,
   * its score at most a quarter and 0 without variety in the weather, and
   * for probability forecasts the Brier score lies in [0, 1].
   */
  lemma BrierBounds(pairs: seq<Pair>)
    requires pairs != []
    ensures var s := BrierOf(pairs);
      && 0.0 <= s.climProb <= 1.0
      && 0.0 <= s.brierClim <= 0.25
      && 0.0 <= s.brier
      && ((forall i :: 0 <= i < |pairs| ==> 0.0 <= pairs[i].forecastProb <= 1.0) ==> s.brier <= 1.0)
      && (RainCount(pairs) == 0 || RainCount(pairs) == |pairs| ==> s.brierClim == 0.0 && s.brierSkill == 0.0)
  {
    var rel := ReliabilityOf(Bins(pairs), LowestBin(pairs), 9);
    ClimatologyBounds(SquaredErrorSum(pairs), RainCount(pairs), |pairs|, rel);
    BrierScoreBounds(SquaredErrorSum(pairs), RainCount(pairs), |pairs|, rel);
    if forall i :: 0 <= i < |pairs| ==> 0.0 <= pairs[i].forecastProb <= 1.0 {
      SquaredErrorsAtMost(pairs);
    }
  }

  lemma {:induction false} SquaredErrorsAtMost(pairs: seq<Pair>)
    requires forall i :: 0 <= i < |pairs| ==> 0.0 <= pairs[i].forecastProb <= 1.0
    ensures SquaredErrorSum(pairs) <= |pairs| as real
  {
    if pairs != [] {
      var init := pairs[..|pairs| - 1];
      assert forall i :: 0 <= i < |init| ==> init[i] == pairs[i];
      SquaredErrorsAtMost(init);
      var p := pairs[|pairs| - 1];
      assert 0.0 <= p.forecastProb <= 1.0;
      var e := p.forecastProb - Outcome(p.actual);
      SquareAtMostOne(e);
      assert SquaredErrorSum(pairs) == SquaredErrorSum(init) + e * e;
      assert |pairs| as real == |init| as real + 1.0;
    }
  }

  lemma {:induction false} PerfectForecastsNoError(pairs: seq<Pair>)
    requires forall i :: 0 <= i < |pairs| ==> pairs[i].forecastProb == Outcome(pairs[i].actual)
    ensures SquaredErrorSum(pairs) == 0.0
  {
    if pairs != [] {
      var init := pairs[..|pairs| - 1];
      assert forall i :: 0 <= i < |init| ==> init[i] == pairs[i];
      PerfectForecastsNoError(init);
    }
  }

  /** Forecasts that said 1 on every wet day and 0 on every dry one score a Brier of 0. */
  lemma PerfectForecastScoresZero(pairs: seq<Pair>)
    requires pairs != []
    requires forall i :: 0 <= i < |pairs| ==> pairs[i].forecastProb == Outcome(pairs[i].actual)
    ensures BrierOf(pairs).brier == 0.0
  {
    PerfectForecastsNoError(pairs);
    Round2Exact(0.0);
  }

  // ------------------------------------------------------------ the method

  /** The accumulation loop of `computeBrierScore` over the pairs. */
  method Accumulate(pairs: seq<Pair>) returns (sum: real, bins: map<int, BinAcc>)
    ensures sum == SquaredErrorSum(pairs) && bins == Bins(pairs)
  {
    sum := 0.0;
    bins := map[];
    for i := 0 to |pairs|
      invariant sum == SquaredErrorSum(pairs[..i])
      invariant bins == Bins(pairs[..i])
    {
      var p := pairs[i];
      var outcome := Outcome(p.actual);
      var e := p.forecastProb - outcome;
      SquaredErrorStep(pairs, i, e);
      BinsStep(pairs, i);
      sum := sum + e * e;
      var bin := BinOf(p.forecastProb);
      var acc := if bin in bins then bins[bin] else BinAcc(0.0, 0, 0.0);
      bins := bins[bin := BinAcc(acc.sum + outcome, acc.count + 1, acc.forecastSum + p.forecastProb)];
    }
    assert pairs[..|pairs|] == pairs;
  }

  /** `SquaredErrorSum` unfolded at one more pair. */
  lemma SquaredErrorStep(pairs: seq<Pair>, i: nat, e: real)
    requires i < |pairs| && e == pairs[i].forecastProb - Outcome(pairs[i].actual)
    ensures SquaredErrorSum(pairs[..i + 1]) == SquaredErrorSum(pairs[..i]) + e * e
  {
    assert pairs[..i + 1][..i] == pairs[..i];
  }

  /** `Bins` unfolded at one more pair. */
  lemma BinsStep(pairs: seq<Pair>, i: nat)
    requires i < |pairs|
    ensures Bins(pairs[..i + 1]) == AddPair(Bins(pairs[..i]), pairs[i])
  {
    assert pairs[..i + 1][..i] == pairs[..i];
  }

  /** `computeBrierScore` */
  method ComputeBrierScore(pairs: seq<Pair>) returns (r: BrierScore)
    ensures r == BrierOf(pairs)
  {
    if |pairs| == 0 {
      return NoPairs;
    }
    var sum, bins := Accumulate(pairs);
    r := BrierFrom(sum, RainCount(pairs), |pairs|, ReliabilityOf(bins, LowestBin(pairs), 9));
  }

  // ------------------------------------------------------------ monthly totals

  /** A predicted probability that the month's total exceeds `threshold` inches. */
  datatype ThresholdForecast = ThresholdForecast(threshold: real, predictedProb: real)

  /** One month: the predicted mean and spread of its total, the total observed, and any threshold forecasts. */
  datatype MonthlyPair = MonthlyPair(
    predictedMean: real,
    predictedStd: real,
    actualTotal: real,
    thresholds: Option<seq<ThresholdForecast>>)

  /** Half-widths, in standard deviations, of the 50% and 90% prediction intervals. */
  const Z50: real := 0.674
  const Z90: real := 1.645

  /** The observed total lies within `z` standard deviations of the predicted mean. */
  predicate Within(m: MonthlyPair, z: real)
  {
    AbsR(m.actualTotal - m.predictedMean) <= z * m.predictedStd
  }

  /** `within50CI` / `within90CI` after the loop. */
  function CountWithin(ms: seq<MonthlyPair>, z: real): (c: nat)
    ensures c <= |ms|
  {
    if ms == [] then 0
    else CountWithin(ms[..|ms| - 1], z) + (if Within(ms[|ms| - 1], z) then 1 else 0)
  }

  /** The pairs one month adds: each threshold's probability against whether the total exceeded it. */
  function PairsOf(m: MonthlyPair): (r: seq<Pair>)
    ensures m.thresholds.None? ==> r == []
    ensures m.thresholds.Some? ==>
      && |r| == |m.thresholds.value|
      && forall i :: 0 <= i < |r| ==>
           && r[i].forecastProb == m.thresholds.value[i].predictedProb
           && (Outcome(r[i].actual) == 1.0 <==> m.actualTotal > m.thresholds.value[i].threshold)
  {
    match m.thresholds
    case None => []
    case Some(ts) =>
      seq(|ts|, i requires 0 <= i < |ts| =>
        Pair(ts[i].predictedProb, if m.actualTotal > ts[i].threshold then 1.0 else 0.0))
  }

  /** `thresholdPairs` after the loop. */
  function ThresholdPairs(ms: seq<MonthlyPair>): seq<Pair>
  {
    if ms == [] then [] else ThresholdPairs(ms[..|ms| - 1]) + PairsOf(ms[|ms| - 1])
  }

  datatype MonthlyCalibration =
    /** `{n: 0}` */
    | NoMonths
    | MonthlyCalibration(
        n: nat,
        coverage50: real,
        coverage90: real,
        thresholdBrier: Option<BrierScore>,
        overconfident50: bool,
        overconfident90: bool)

  /** The result from the month count, the two interval counts and the threshold pairs. */
  function MonthlyFrom(n: nat, within50: nat, within90: nat, thresholdPairs: seq<Pair>): MonthlyCalibration
    requires n > 0
  {
    var f50, f90 := within50 as real / n as real, within90 as real / n as real;
    MonthlyCalibration(n, Round2(f50), Round2(f90), if thresholdPairs != [] then Some(BrierOf(thresholdPairs)) else None,
      f50 < 0.40, f90 < 0.80)
  }

  /** `computeMonthlyCalibration` */
  function MonthlyCalibrationOf(ms: seq<MonthlyPair>): MonthlyCalibration
  {
    if ms == [] then NoMonths
    else MonthlyFrom(|ms|, CountWithin(ms, Z50), CountWithin(ms, Z90), ThresholdPairs(ms))
  }

  /** A month inside the narrower interval is inside the wider one. */
  lemma {:induction false} CountWithinMonotone(ms: seq<MonthlyPair>, z1: real, z2: real)
    requires z1 <= z2
    requires forall i :: 0 <= i < |ms| ==> ms[i].predictedStd >= 0.0
    ensures CountWithin(ms, z1) <= CountWithin(ms, z2)
  {
    if ms != [] {
      var init := ms[..|ms| - 1];
      assert forall i :: 0 <= i < |init| ==> init[i] == ms[i];
      CountWithinMonotone(init, z1, z2);
      var m := ms[|ms| - 1];
      ProductNonNegative(z2 - z1, m.predictedStd);
      assert z1 * m.predictedStd <= z2 * m.predictedStd;
    }
  }

  /** Coverages are fractions of the months, and each flag agrees with its rounded coverage. */
  lemma CoverageFlags(n: nat, within50: nat, within90: nat, thresholdPairs: seq<Pair>)
    requires 0 < n && within50 <= n && within90 <= n
    ensures var r := MonthlyFrom(n, within50, within90, thresholdPairs);
      && 0.0 <= r.coverage50 <= 1.0 && 0.0 <= r.coverage90 <= 1.0
      && (r.overconfident50 ==> r.coverage50 <= 0.40) && (!r.overconfident50 ==> r.coverage50 >= 0.40)
      && (r.overconfident90 ==> r.coverage90 <= 0.80) && (!r.overconfident90 ==> r.coverage90 >= 0.80)
      && (r.thresholdBrier.None? <==> thresholdPairs == [])
  {
    var f50, f90 := within50 as real / n as real, within90 as real / n as real;
    QuotientBetween(within50 as real, n as real, 0.0, 1.0);
    QuotientBetween(within90 as real, n as real, 0.0, 1.0);
    UnitRounded(f50);
    UnitRounded(f90);
    Round2Exact(0.40);
    Round2Exact(0.80);
    if f50 < 0.40 { Round2Monotone(f50, 0.40); } else { Round2Monotone(0.40, f50); }
    if f90 < 0.80 { Round2Monotone(f90, 0.80); } else { Round2Monotone(0.80, f90); }
  }

  /** More months within the wider interval give at least as high a rounded coverage. */
  lemma CoverageOrdered(n: nat, within50: nat, within90: nat, thresholdPairs: seq<Pair>)
    requires 0 < n && within50 <= within90
    ensures MonthlyFrom(n, within50, within90, thresholdPairs).coverage50 <= MonthlyFrom(n, within50, within90, thresholdPairs).coverage90
  {
    QuotientMonotone(within50 as real, within90 as real, n as real);
    Round2Monotone(within50 as real / n as real, within90 as real / n as real);
  }

  /**
   * The monthly report: with no months only the count; otherwise the
   * coverages are fractions that agree with the overconfidence flags, the
   * 90% interval covers at least as many months as the 50% one when the
   * predicted spreads are not negative, and the thresholds are scored only
   * when there are any.
   */
  lemma MonthlyCalibrationSound(ms: seq<MonthlyPair>)
    ensures MonthlyCalibrationOf(ms).NoMonths? <==> ms == []
    ensures ms != [] ==>
      var r := MonthlyCalibrationOf(ms);
      && r.n == |ms|
      && 0.0 <= r.coverage50 <= 1.0 && 0.0 <= r.coverage90 <= 1.0
      && (r.overconfident50 ==> r.coverage50 <= 0.40) && (!r.overconfident50 ==> r.coverage50 >= 0.40)
      && (r.overconfident90 ==> r.coverage90 <= 0.80) && (!r.overconfident90 ==> r.coverage90 >= 0.80)
      && (r.thresholdBrier.None? <==> ThresholdPairs(ms) == [])
    ensures ms != [] && (forall i :: 0 <= i < |ms| ==> ms[i].predictedStd >= 0.0) ==>
      MonthlyCalibrationOf(ms).coverage50 <= MonthlyCalibrationOf(ms).coverage90
  {
    if ms != [] {
      var w50, w90, n := CountWithin(ms, Z50), CountWithin(ms, Z90), |ms|;
      assert MonthlyCalibrationOf(ms) == MonthlyFrom(n, w50, w90, ThresholdPairs(ms));
      CoverageFlags(n, w50, w90, ThresholdPairs(ms));
      if forall i :: 0 <= i < |ms| ==> ms[i].predictedStd >= 0.0 {
        CountWithinMonotone(ms, Z50, Z90);
        CoverageOrdered(n, w50, w90, ThresholdPairs(ms));
      }
    }
  }

  /** The inner loop that pushes one month's threshold pairs. */
  method PushThresholds(acc: seq<Pair>, m: MonthlyPair) returns (pushed: seq<Pair>)
    ensures pushed == acc + PairsOf(m)
  {
    pushed := acc;
    if m.thresholds.Some? {
      var ts := m.thresholds.value;
      for j := 0 to |ts|
        invariant pushed == acc + PairsOf(m)[..j]
      {
        assert PairsOf(m)[..j + 1] == PairsOf(m)[..j] + [PairsOf(m)[j]];
        pushed := pushed + [Pair(ts[j].predictedProb, if m.actualTotal > ts[j].threshold then 1.0 else 0.0)];
      }
      assert PairsOf(m)[..|ts|] == PairsOf(m);
    }
  }

  /** `computeMonthlyCalibration` with its counting loop over the months. */
  method ComputeMonthlyCalibration(ms: seq<MonthlyPair>) returns (r: MonthlyCalibration)
    ensures r == MonthlyCalibrationOf(ms)
  {
    if |ms| == 0 {
      return NoMonths;
    }
    var within50CI, within90CI := 0, 0;
    var thresholdPairs: seq<Pair> := [];
    for i := 0 to |ms|
      invariant within50CI == CountWithin(ms[..i], Z50) && within90CI == CountWithin(ms[..i], Z90)
      invariant thresholdPairs == ThresholdPairs(ms[..i])
    {
      assert ms[..i + 1][..i] == ms[..i];
      var m := ms[i];
      var dev := AbsR(m.actualTotal - m.predictedMean);
      if dev <= Z50 * m.predictedStd { within50CI := within50CI + 1; }
      if dev <= Z90 * m.predictedStd { within90CI := within90CI + 1; }
      thresholdPairs := PushThresholds(thresholdPairs, m);
    }
    assert ms[..|ms|] == ms;
    var n := |ms|;
    var thresholdBrier: Option<BrierScore> := None;
    if |thresholdPairs| > 0 {
      var b := ComputeBrierScore(thresholdPairs);
      thresholdBrier := Some(b);
    }
    var f50, f90 := within50CI as real / n as real, within90CI as real / n as real;
    r := MonthlyCalibration(n, Round2(f50), Round2(f90), thresholdBrier, f50 < 0.40, f90 < 0.80);
  }
}
