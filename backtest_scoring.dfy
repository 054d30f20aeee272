// Proper scoring rules for probability forecasts checked against what
// happened: the Brier score and its skill over climatology, the
// calibration curve, sharpness and the expected calibration error.
// JavaScript's NaN result on no predictions is `None`.

module BacktestScoring {
  import opened Prelude
  import opened Utils

  /** A forecast and what happened: `actual` is 1 when the event occurred, 0 when it did not. */
  datatype Prediction = Prediction(predicted: real, actual: real)

  predicate ValidPrediction(p: Prediction)
  {
    0.0 <= p.predicted <= 1.0 && (p.actual == 0.0 || p.actual == 1.0)
  }

  predicate AllValid(ps: seq<Prediction>)
  {
    forall i :: 0 <= i < |ps| ==> ValidPrediction(ps[i])
  }

  lemma AllValidInit(ps: seq<Prediction>)
    requires ps != [] && AllValid(ps)
    ensures AllValid(ps[..|ps| - 1]) && ValidPrediction(ps[|ps| - 1])
  {
    assert forall i :: 0 <= i < |ps| - 1 ==> ps[..|ps| - 1][i] == ps[i];
  }

  /** `n` as a real. */
  function Count(ps: seq<Prediction>): real
  {
    |ps| as real
  }

  lemma QuotientBounds(s: real, n: real, lo: real, hi: real)
    requires n > 0.0 && lo * n <= s <= hi * n
    ensures lo <= s / n <= hi
  {
    QuotientMonotone(lo * n, s, n);
    QuotientMonotone(s, hi * n, n);
    assert lo * n / n == lo;
    assert hi * n / n == hi;
  }

  // ------------------------------------------------------------ Brier score

  function Error(p: Prediction): real
  {
    p.predicted - p.actual
  }

  function Sq(x: real): (r: real)
    ensures r >= 0.0
  {
    x * x
  }

  function SquaredError(p: Prediction): real
  {
    Sq(Error(p))
  }

  function SumSquaredError(ps: seq<Prediction>): (r: real)
    ensures r >= 0.0
  {
    if ps == [] then 0.0
    else SumSquaredError(ps[..|ps| - 1]) + SquaredError(ps[|ps| - 1])
  }

  /** `brierScore`: the mean squared error, NaN without predictions. */
  function BrierScore(ps: seq<Prediction>): (r: Option<real>)
    ensures r.None? <==> ps == []
    ensures r.Some? ==> r.value >= 0.0
  {
    if ps == [] then None else Some(SumSquaredError(ps) / Count(ps))
  }

  lemma {:induction false} SquaredErrorsAtMostCount(ps: seq<Prediction>)
    requires AllValid(ps)
    ensures SumSquaredError(ps) <= Count(ps)
  {
    if ps != [] {
      AllValidInit(ps);
      var init := ps[..|ps| - 1];
      var e := Error(ps[|ps| - 1]);
      SquaredErrorsAtMostCount(init);
      SquareAtMostOne(e);
      assert SumSquaredError(ps) == SumSquaredError(init) + e * e;
      assert Count(ps) == Count(init) + 1.0;
    }
  }

  /** For probabilities scored against 0/1 outcomes the Brier score lies in [0, 1]. */
  lemma BrierBounds(ps: seq<Prediction>)
    requires ps != [] && AllValid(ps)
    ensures 0.0 <= BrierScore(ps).value <= 1.0
  {
    SquaredErrorsAtMostCount(ps);
    QuotientBounds(SumSquaredError(ps), Count(ps), 0.0, 1.0);
  }

  predicate Perfect(ps: seq<Prediction>)
  {
    forall i :: 0 <= i < |ps| ==> ps[i].predicted == ps[i].actual
  }

  lemma {:induction false} PerfectNoError(ps: seq<Prediction>)
    requires Perfect(ps)
    ensures SumSquaredError(ps) == 0.0
  {
    if ps != [] {
      var init := ps[..|ps| - 1];
      assert forall i :: 0 <= i < |init| ==> init[i] == ps[i];
      PerfectNoError(init);
      assert Error(ps[|ps| - 1]) == 0.0;
    }
  }

  /** Forecasts that named every outcome score a Brier of 0. */
  lemma PerfectScoresZero(ps: seq<Prediction>)
    requires ps != [] && Perfect(ps)
    ensures BrierScore(ps).value == 0.0
  {
    PerfectNoError(ps);
  }

  // ------------------------------------------------------------ skill over climatology

  /** A JavaScript number as the skill score can produce it. */
  datatype Score = Finite(value: real) | NotANumber | MinusInfinity

  /** The Brier score of always forecasting the climatological rate `c` when it is the true rate. */
  function ClimatologyBrier(c: real): real
  {
    c * (1.0 - c)
  }

  /**
   * `brierSkillScore`: one minus the Brier score over the climatological
   * one. Without predictions the Brier score is NaN and so is the skill; a
   * climatological rate of 0 or 1 divides by zero, giving NaN for a zero
   * Brier score and minus infinity otherwise.
   */
  function BrierSkillScore(ps: seq<Prediction>, climProb: real): (r: Score)
    ensures r.NotANumber? <==> ps == [] || (ClimatologyBrier(climProb) == 0.0 && BrierScore(ps).value == 0.0)
    ensures r.MinusInfinity? <==> ps != [] && ClimatologyBrier(climProb) == 0.0 && BrierScore(ps).value > 0.0
  {
    match BrierScore(ps)
    case None => NotANumber
    case Some(bs) =>
      var clim := ClimatologyBrier(climProb);
      if clim == 0.0 then (if bs == 0.0 then NotANumber else MinusInfinity)
      else Finite(1.0 - bs / clim)
  }

  /**
   * For a rate strictly between 0 and 1 the skill is finite, at most 1,
   * equal to 1 exactly for perfect forecasts and positive exactly when the
   * forecasts beat climatology.
   */
  lemma SkillMeaning(ps: seq<Prediction>, climProb: real)
    requires ps != [] && 0.0 < climProb < 1.0
    ensures BrierSkillScore(ps, climProb).Finite?
    ensures BrierSkillScore(ps, climProb).value <= 1.0
    ensures Perfect(ps) ==> BrierSkillScore(ps, climProb).value == 1.0
    ensures BrierSkillScore(ps, climProb).value > 0.0 <==> BrierScore(ps).value < ClimatologyBrier(climProb)
  {
    var c := ClimatologyBrier(climProb);
    ProductNonNegative(climProb, 1.0 - climProb);
    assert c > 0.0 by {
      assert climProb * (1.0 - climProb) != 0.0;
    }
    var bs := BrierScore(ps).value;
    if Perfect(ps) {
      PerfectScoresZero(ps);
    }
    ProductNonNegative(bs, 1.0 / c);
    assert bs / c == bs * (1.0 / c);
    if bs < c {
      QuotientMonotone(bs, c, c);
      assert bs / c != 1.0 by {
        if bs / c == 1.0 {
          assert bs == bs / c * c;
        }
      }
    } else {
      QuotientMonotone(c, bs, c);
    }
  }

  // ------------------------------------------------------------ calibration curve

  /** Running totals of one bin of the calibration curve. */
  datatype BinAcc = BinAcc(sumPred: real, sumActual: real, count: nat)

  const EmptyBin := BinAcc(0.0, 0.0, 0)

  function AddTo(b: BinAcc, p: Prediction): BinAcc
  {
    BinAcc(b.sumPred + p.predicted, b.sumActual + p.actual, b.count + 1)
  }

  /**
   * The bin of a forecast: `floor(p nBins)` capped at the last bin. Bin `i`
   * covers `[i / nBins, (i + 1) / nBins)`, the last one everything above; a
   * negative forecast, or no bins at all, gives an index with no bin.
   */
  function BinIndex(p: Prediction, nBins: nat): (r: int)
    ensures r <= nBins - 1
    ensures r >= 0 <==> nBins > 0 && p.predicted >= 0.0
    ensures r >= 0 ==> r as real <= p.predicted * nBins as real
    ensures r < nBins - 1 ==> p.predicted * nBins as real < r as real + 1.0
  {
    var scaled := p.predicted * nBins as real;
    ScaledSign(p.predicted, nBins);
    MinI(scaled.Floor, nBins - 1)
  }

  lemma ScaledSign(x: real, n: nat)
    ensures x >= 0.0 ==> x * n as real >= 0.0
    ensures x < 0.0 && n > 0 ==> x * n as real < 0.0
  {
    if x >= 0.0 {
      ProductNonNegative(x, n as real);
    } else if n > 0 {
      ProductNonNegative(-x, n as real);
      assert -(x * n as real) == (-x) * n as real;
      assert x * n as real != 0.0;
    }
  }

  /** Every forecast lands in one of the bins, so the loop never indexes a missing bin. */
  predicate Binnable(ps: seq<Prediction>, nBins: nat)
  {
    forall i :: 0 <= i < |ps| ==> BinIndex(ps[i], nBins) >= 0
  }

  /** The forecasts that fall into bin `i`, in input order. */
  function Members(ps: seq<Prediction>, nBins: nat, i: int): (r: seq<Prediction>)
    ensures forall p :: p in r <==> p in ps && BinIndex(p, nBins) == i
  {
    if ps == [] then []
    else
      var init, last := ps[..|ps| - 1], ps[|ps| - 1];
      assert forall p :: p in ps <==> p in init || p == last;
      Members(init, nBins, i) + (if BinIndex(last, nBins) == i then [last] else [])
  }

  /** The totals one bin accumulates from its members. */
  function Totals(ps: seq<Prediction>): (r: BinAcc)
    ensures r.count == |ps|
  {
    if ps == [] then EmptyBin else AddTo(Totals(ps[..|ps| - 1]), ps[|ps| - 1])
  }

  /** The bins after the loop: bin `i` holds the totals of exactly the forecasts falling into it. */
  function Bins(ps: seq<Prediction>, nBins: nat): (r: seq<BinAcc>)
    ensures |r| == nBins
  {
    seq(nBins, i => Totals(Members(ps, nBins, i)))
  }

  /** One more forecast adds to its own bin and leaves every other bin alone. */
  lemma BinsStep(ps: seq<Prediction>, nBins: nat)
    requires ps != [] && 0 <= BinIndex(ps[|ps| - 1], nBins)
    ensures var last := ps[|ps| - 1];
            var before := Bins(ps[..|ps| - 1], nBins);
            var idx := BinIndex(last, nBins);
            Bins(ps, nBins) == before[idx := AddTo(before[idx], last)]
  {
    var init, last := ps[..|ps| - 1], ps[|ps| - 1];
    var idx := BinIndex(last, nBins);
    var ms := Members(init, nBins, idx);
    assert Members(ps, nBins, idx) == ms + [last];
    assert (ms + [last])[..|ms|] == ms;
    forall i | 0 <= i < nBins && i != idx
      ensures Bins(ps, nBins)[i] == Bins(init, nBins)[i]
    {
      assert Members(ps, nBins, i) == Members(init, nBins, i);
    }
  }

  /** A point of the curve: a non-empty bin with its centre and its member averages. */
  datatype CurvePoint = CurvePoint(binCenter: real, meanPredicted: real, actualFreq: real, count: nat)

  function BinCenter(i: nat, nBins: nat): real
    requires i < nBins
  {
    (i as real + 0.5) / nBins as real
  }

  lemma CenterInside(i: nat, nBins: nat)
    requires i < nBins
    ensures i as real / nBins as real < BinCenter(i, nBins) < (i + 1) as real / nBins as real
  {
    var n := nBins as real;
    assert BinCenter(i, nBins) - i as real / n == 0.5 / n;
    assert (i + 1) as real / n - BinCenter(i, nBins) == 0.5 / n;
  }

  lemma BoundaryMonotone(i: nat, j: nat, nBins: nat)
    requires i <= j && 0 < nBins
    ensures i as real / nBins as real <= j as real / nBins as real
  {
    QuotientMonotone(i as real, j as real, nBins as real);
  }

  function Point(b: BinAcc, i: nat, nBins: nat): CurvePoint
    requires b.count > 0 && i < nBins
  {
    CurvePoint(BinCenter(i, nBins), b.sumPred / b.count as real, b.sumActual / b.count as real, b.count)
  }

  /** The map-then-filter over the bins: one point per non-empty bin, in bin order. */
  function Curve(bins: seq<BinAcc>, nBins: nat): (r: seq<CurvePoint>)
    requires |bins| <= nBins
    ensures forall pt :: pt in r ==> pt.count > 0
    ensures forall pt :: pt in r ==> 0 < nBins && pt.binCenter < |bins| as real / nBins as real
    ensures forall j, k :: 0 <= j < k < |r| ==> r[j].binCenter < r[k].binCenter
  {
    if bins == [] then []
    else
      var m := |bins| - 1;
      var before := Curve(bins[..m], nBins);
      CenterInside(m, nBins);
      BoundaryMonotone(m, m + 1, nBins);
      before + (if bins[m].count > 0 then [Point(bins[m], m, nBins)] else [])
  }

  /** `calibrationCurve` as a value: nothing when some forecast has no bin (the source throws there). */
  function CurveOf(ps: seq<Prediction>, nBins: nat): Option<seq<CurvePoint>>
  {
    if Binnable(ps, nBins) then Some(Curve(Bins(ps, nBins), nBins)) else None
  }

  /**
   * `calibrationCurve`: accumulate every forecast into its bin of a fixed
   * array, then keep the non-empty bins as points.
   */
  method CalibrationCurve(ps: seq<Prediction>, nBins: nat) returns (r: Option<seq<CurvePoint>>)
    ensures r == CurveOf(ps, nBins)
  {
    var bins := new BinAcc[nBins](_ => EmptyBin);
    assert bins[..] == Bins([], nBins);
    for k := 0 to |ps|
      invariant bins[..] == Bins(ps[..k], nBins)
      invariant forall i :: 0 <= i < k ==> BinIndex(ps[i], nBins) >= 0
    {
      var idx := BinIndex(ps[k], nBins);
      if idx < 0 {
        return None;
      }
      AddForecast(bins, ps, k, nBins);
    }
    assert ps[..|ps|] == ps;
    return Some(Curve(bins[..], nBins));
  }

  /** One pass of the loop: the forecast's totals go into its bin. */
  method AddForecast(bins: array<BinAcc>, ps: seq<Prediction>, k: nat, nBins: nat)
    requires k < |ps| && bins[..] == Bins(ps[..k], nBins) && BinIndex(ps[k], nBins) >= 0
    modifies bins
    ensures bins[..] == Bins(ps[..k + 1], nBins)
  {
    var idx := BinIndex(ps[k], nBins);
    assert ps[..k + 1][..k] == ps[..k];
    BinsStep(ps[..k + 1], nBins);
    bins[idx] := AddTo(bins[idx], ps[k]);
  }

  /**
   * The curve exists exactly when the source does not throw: with no
   * forecasts, or with at least one bin and no negative forecast.
   */
  lemma CurveDefined(ps: seq<Prediction>, nBins: nat)
    ensures CurveOf(ps, nBins).Some? <==> ps == [] || (nBins > 0 && forall i :: 0 <= i < |ps| ==> ps[i].predicted >= 0.0)
  {
    if ps != [] && CurveOf(ps, nBins).Some? {
      assert BinIndex(ps[0], nBins) >= 0;
    }
  }

  /** Every non-empty bin becomes a point, and every point is a non-empty bin. */
  lemma {:induction false} CurveKeepsNonEmpty(bins: seq<BinAcc>, nBins: nat)
    requires |bins| <= nBins
    ensures forall i :: 0 <= i < |bins| && bins[i].count > 0 ==> Point(bins[i], i, nBins) in Curve(bins, nBins)
    ensures forall pt :: pt in Curve(bins, nBins) ==> exists i :: 0 <= i < |bins| && bins[i].count > 0 && pt == Point(bins[i], i, nBins)
  {
    if bins != [] {
      var m := |bins| - 1;
      CurveKeepsNonEmpty(bins[..m], nBins);
      assert forall i :: 0 <= i < m ==> bins[..m][i] == bins[i];
    }
  }

  function SumBinCounts(bins: seq<BinAcc>): nat
  {
    if bins == [] then 0 else SumBinCounts(bins[..|bins| - 1]) + bins[|bins| - 1].count
  }

  function SumCounts(curve: seq<CurvePoint>): (r: nat)
    ensures (forall pt :: pt in curve ==> pt.count > 0) ==> r >= |curve|
  {
    if curve == [] then 0
    else
      var init := curve[..|curve| - 1];
      assert forall pt :: pt in init ==> pt in curve;
      SumCounts(init) + curve[|curve| - 1].count
  }

  lemma {:induction false} CurveCounts(bins: seq<BinAcc>, nBins: nat)
    requires |bins| <= nBins
    ensures SumCounts(Curve(bins, nBins)) == SumBinCounts(bins)
  {
    if bins != [] {
      var m := |bins| - 1;
      CurveCounts(bins[..m], nBins);
      var before := Curve(bins[..m], nBins);
      if bins[m].count > 0 {
        assert (before + [Point(bins[m], m, nBins)])[..|before|] == before;
      } else {
        assert before + [] == before;
      }
    }
  }

  lemma {:induction false} SumBinCountsUpdate(bins: seq<BinAcc>, j: nat, b: BinAcc)
    requires j < |bins|
    ensures SumBinCounts(bins[j := b]) == SumBinCounts(bins) - bins[j].count + b.count
  {
    var m := |bins| - 1;
    if j < m {
      SumBinCountsUpdate(bins[..m], j, b);
      assert bins[j := b][..m] == bins[..m][j := b];
    } else {
      assert bins[j := b][..m] == bins[..m];
    }
  }

  lemma {:induction false} EmptyBinsCount(bins: seq<BinAcc>)
    requires forall i :: 0 <= i < |bins| ==> bins[i] == EmptyBin
    ensures SumBinCounts(bins) == 0
  {
    if bins != [] {
      EmptyBinsCount(bins[..|bins| - 1]);
    }
  }

  lemma {:induction false} BinsCount(ps: seq<Prediction>, nBins: nat)
    requires Binnable(ps, nBins)
    ensures SumBinCounts(Bins(ps, nBins)) == |ps|
  {
    if ps == [] {
      EmptyBinsCount(Bins(ps, nBins));
    } else {
      var init := ps[..|ps| - 1];
      assert Binnable(init, nBins) by {
        assert forall i :: 0 <= i < |init| ==> init[i] == ps[i];
      }
      BinsCount(init, nBins);
      assert BinIndex(ps[|ps| - 1], nBins) >= 0;
      BinsStep(ps, nBins);
      var before := Bins(init, nBins);
      var idx := BinIndex(ps[|ps| - 1], nBins);
      SumBinCountsUpdate(before, idx, AddTo(before[idx], ps[|ps| - 1]));
    }
  }

  /** Every forecast is counted in exactly one point: the counts add up to the input length. */
  lemma CurveCountsSumToInput(ps: seq<Prediction>, nBins: nat)
    requires CurveOf(ps, nBins).Some?
    ensures SumCounts(CurveOf(ps, nBins).value) == |ps|
  {
    CurveCounts(Bins(ps, nBins), nBins);
    BinsCount(ps, nBins);
  }

  lemma {:induction false} TotalsBounds(ps: seq<Prediction>)
    requires AllValid(ps)
    ensures 0.0 <= Totals(ps).sumPred <= |ps| as real
    ensures 0.0 <= Totals(ps).sumActual <= |ps| as real
  {
    if ps != [] {
      AllValidInit(ps);
      TotalsBounds(ps[..|ps| - 1]);
    }
  }

  lemma MembersValid(ps: seq<Prediction>, nBins: nat, i: int)
    requires AllValid(ps)
    ensures AllValid(Members(ps, nBins, i))
  {
    var ms := Members(ps, nBins, i);
    forall k | 0 <= k < |ms|
      ensures ValidPrediction(ms[k])
    {
      assert ms[k] in ps;
    }
  }

  /**
   * For probabilities scored against 0/1 outcomes every point's mean
   * forecast and observed frequency are averages of values in [0, 1].
   */
  lemma CurvePointsBounded(ps: seq<Prediction>, nBins: nat)
    requires AllValid(ps) && CurveOf(ps, nBins).Some?
    ensures forall pt :: pt in CurveOf(ps, nBins).value ==>
              0.0 <= pt.meanPredicted <= 1.0 && 0.0 <= pt.actualFreq <= 1.0
  {
    var bins := Bins(ps, nBins);
    CurveKeepsNonEmpty(bins, nBins);
    forall pt | pt in Curve(bins, nBins)
      ensures 0.0 <= pt.meanPredicted <= 1.0 && 0.0 <= pt.actualFreq <= 1.0
    {
      var i :| 0 <= i < |bins| && bins[i].count > 0 && pt == Point(bins[i], i, nBins);
      BinMeansBounded(ps, nBins, i);
    }
  }

  /** The averages of one non-empty bin lie in [0, 1]. */
  lemma BinMeansBounded(ps: seq<Prediction>, nBins: nat, i: int)
    requires AllValid(ps)
    requires Totals(Members(ps, nBins, i)).count > 0
    ensures var b := Totals(Members(ps, nBins, i));
      0.0 <= b.sumPred / b.count as real <= 1.0 && 0.0 <= b.sumActual / b.count as real <= 1.0
  {
    MembersValid(ps, nBins, i);
    MeansBounded(Members(ps, nBins, i));
  }

  lemma MeansBounded(ms: seq<Prediction>)
    requires AllValid(ms) && ms != []
    ensures var b := Totals(ms);
      0.0 <= b.sumPred / b.count as real <= 1.0 && 0.0 <= b.sumActual / b.count as real <= 1.0
  {
    TotalsBounds(ms);
    var b := Totals(ms);
    QuotientBounds(b.sumPred, b.count as real, 0.0, 1.0);
    QuotientBounds(b.sumActual, b.count as real, 0.0, 1.0);
  }

  // ------------------------------------------------------------ expected calibration error

  function Gap(pt: CurvePoint): real
  {
    AbsR(pt.meanPredicted - pt.actualFreq)
  }

  /** The reduce over the curve: each point's gap weighted by its share of the `total` forecasts. */
  function WeightedGaps(curve: seq<CurvePoint>, total: real): (r: real)
    requires total > 0.0 || curve == []
    ensures r >= 0.0
  {
    if curve == [] then 0.0
    else WeightedGaps(curve[..|curve| - 1], total) + WeightedGap(curve[|curve| - 1], total)
  }

  /** One point's term: its gap weighted by its share of the forecasts. */
  function WeightedGap(pt: CurvePoint, total: real): (r: real)
    requires total > 0.0
    ensures r >= 0.0
  {
    var weight := pt.count as real / total;
    ProductNonNegative(weight, Gap(pt));
    weight * Gap(pt)
  }

  /** `expectedCalibrationError`: nothing where the curve throws; 0 with no forecasts. */
  function ExpectedCalibrationError(ps: seq<Prediction>, nBins: nat): (r: Option<real>)
    ensures r.Some? <==> CurveOf(ps, nBins).Some?
    ensures r.Some? ==> r.value >= 0.0
  {
    match CurveOf(ps, nBins)
    case None => None
    case Some(curve) =>
      CurveCountsSumToInput(ps, nBins);
      Some(WeightedGaps(curve, Count(ps)))
  }

  lemma WeightedStepBound(pt: CurvePoint, total: real, before: real, sumBefore: real)
    requires total > 0.0 && Gap(pt) <= 1.0
    requires before <= sumBefore / total
    ensures before + WeightedGap(pt, total) <= (sumBefore + pt.count as real) / total
  {
    var weight, gap := pt.count as real / total, Gap(pt);
    assert WeightedGap(pt, total) == weight * gap;
    ProductNonNegative(weight, 1.0 - gap);
    assert weight * (1.0 - gap) == weight - weight * gap;
    assert (sumBefore + pt.count as real) / total == sumBefore / total + weight;
  }

  lemma {:induction false} WeightedGapsBound(curve: seq<CurvePoint>, total: real)
    requires total > 0.0
    requires forall pt :: pt in curve ==> Gap(pt) <= 1.0
    ensures WeightedGaps(curve, total) <= SumCounts(curve) as real / total
  {
    if curve != [] {
      var init, pt := curve[..|curve| - 1], curve[|curve| - 1];
      assert forall q :: q in init ==> q in curve;
      WeightedGapsBound(init, total);
      assert Gap(pt) <= 1.0 by { assert pt in curve; }
      CurveSnoc(curve, total, init, pt);
      WeightedStepBound(pt, total, WeightedGaps(init, total), SumCounts(init) as real);
    }
  }

  /** `WeightedGaps` and `SumCounts` unfolded once. */
  lemma CurveSnoc(curve: seq<CurvePoint>, total: real, init: seq<CurvePoint>, pt: CurvePoint)
    requires curve != [] && total > 0.0 && init == curve[..|curve| - 1] && pt == curve[|curve| - 1]
    ensures WeightedGaps(curve, total) == WeightedGaps(init, total) + WeightedGap(pt, total)
    ensures SumCounts(curve) as real == SumCounts(init) as real + pt.count as real
  {
  }

  lemma WholeShare(v: real, total: real)
    requires total > 0.0 && v <= total / total
    ensures v <= 1.0
  {
  }

  lemma GapsAtMostOne(curve: seq<CurvePoint>)
    requires forall pt :: pt in curve ==> 0.0 <= pt.meanPredicted <= 1.0 && 0.0 <= pt.actualFreq <= 1.0
    ensures forall pt :: pt in curve ==> Gap(pt) <= 1.0
  {
  }

  /**
   * For probabilities scored against 0/1 outcomes the weights add up to
   * one and every gap is at most one, so the error lies in [0, 1].
   */
  lemma CalibrationErrorBounds(ps: seq<Prediction>, nBins: nat)
    requires ps != [] && AllValid(ps) && CurveOf(ps, nBins).Some?
    ensures 0.0 <= ExpectedCalibrationError(ps, nBins).value <= 1.0
  {
    var curve := CurveOf(ps, nBins).value;
    CurvePointsBounded(ps, nBins);
    GapsAtMostOne(curve);
    CurveCountsSumToInput(ps, nBins);
    var total := Count(ps);
    var e := WeightedGaps(curve, total);
    assert ExpectedCalibrationError(ps, nBins).value == e;
    WeightedGapsBound(curve, total);
    WholeShare(e, total);
  }

  // ------------------------------------------------------------ sharpness

  function Deviation(p: Prediction): real
  {
    AbsR(p.predicted - 0.5)
  }

  function SumDeviation(ps: seq<Prediction>): (r: real)
    ensures r >= 0.0
  {
    if ps == [] then 0.0 else SumDeviation(ps[..|ps| - 1]) + Deviation(ps[|ps| - 1])
  }

  /** `sharpness`: the mean distance of the forecasts from 0.5, NaN without predictions. */
  function Sharpness(ps: seq<Prediction>): (r: Option<real>)
    ensures r.None? <==> ps == []
    ensures r.Some? ==> r.value >= 0.0
  {
    if ps == [] then None else Some(SumDeviation(ps) / Count(ps))
  }

  predicate Decisive(ps: seq<Prediction>)
  {
    forall i :: 0 <= i < |ps| ==> ps[i].predicted == 0.0 || ps[i].predicted == 1.0
  }

  lemma {:induction false} DeviationsAtMostHalf(ps: seq<Prediction>)
    requires AllValid(ps)
    ensures SumDeviation(ps) <= 0.5 * Count(ps)
    ensures SumDeviation(ps) == 0.5 * Count(ps) <==> Decisive(ps)
  {
    if ps != [] {
      var init := ps[..|ps| - 1];
      AllValidInit(ps);
      DeviationsAtMostHalf(init);
      assert forall i :: 0 <= i < |init| ==> init[i] == ps[i];
    }
  }

  /**
   * For probabilities sharpness lies in [0, 0.5], and reaches 0.5 exactly
   * when every forecast is 0 or 1.
   */
  lemma SharpnessBounds(ps: seq<Prediction>)
    requires ps != [] && AllValid(ps)
    ensures 0.0 <= Sharpness(ps).value <= 0.5
    ensures Sharpness(ps).value == 0.5 <==> Decisive(ps)
  {
    DeviationsAtMostHalf(ps);
    QuotientBounds(SumDeviation(ps), Count(ps), 0.0, 0.5);
    if SumDeviation(ps) / Count(ps) == 0.5 {
      assert SumDeviation(ps) == SumDeviation(ps) / Count(ps) * Count(ps);
    }
  }
}
