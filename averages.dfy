// Weighted means, plain means and the extremes of a list of numbers, which
// the forecast consensus builders and the calibration statistics share.

module Averages {
  import opened Prelude

  /** One source's contribution to a weighted mean. */
  datatype Weighted = Weighted(weight: real, value: real)

  /** The total weight. */
  function WeightSum(ws: seq<Weighted>): real
  {
    if ws == [] then 0.0 else WeightSum(ws[..|ws| - 1]) + ws[|ws| - 1].weight
  }

  /** The sum of weight times value. */
  function WeightedSum(ws: seq<Weighted>): real
  {
    if ws == [] then 0.0 else WeightedSum(ws[..|ws| - 1]) + ws[|ws| - 1].value * ws[|ws| - 1].weight
  }

  predicate PositiveWeights(ws: seq<Weighted>)
  {
    forall i :: 0 <= i < |ws| ==> ws[i].weight > 0.0
  }

  predicate ValuesWithin(ws: seq<Weighted>, lo: real, hi: real)
  {
    forall i :: 0 <= i < |ws| ==> lo <= ws[i].value <= hi
  }

  /** With positive weights the total weight is positive exactly when some source is present. */
  lemma {:induction false} WeightSumPositive(ws: seq<Weighted>)
    requires PositiveWeights(ws)
    ensures ws == [] <==> WeightSum(ws) == 0.0
    ensures WeightSum(ws) >= 0.0
  {
    if ws != [] {
      WeightSumPositive(ws[..|ws| - 1]);
    }
  }

  /** The weighted sum lies between lo and hi times the total weight. */
  lemma {:induction false} WeightedSumBetween(ws: seq<Weighted>, lo: real, hi: real)
    requires PositiveWeights(ws) && ValuesWithin(ws, lo, hi)
    ensures lo * WeightSum(ws) <= WeightedSum(ws) <= hi * WeightSum(ws)
  {
    if ws != [] {
      var init := ws[..|ws| - 1];
      var last := ws[|ws| - 1];
      assert forall i :: 0 <= i < |init| ==> init[i] == ws[i];
      WeightedSumBetween(init, lo, hi);
      var w, v := last.weight, last.value;
      assert (v - lo) * w >= 0.0 && (hi - v) * w >= 0.0;
      assert lo * (WeightSum(init) + w) == lo * WeightSum(init) + lo * w;
      assert hi * (WeightSum(init) + w) == hi * WeightSum(init) + hi * w;
    }
  }

  /** A weighted mean with positive weights lies between the smallest and the largest value. */
  lemma WeightedMeanBetween(ws: seq<Weighted>, lo: real, hi: real)
    requires ws != [] && PositiveWeights(ws) && ValuesWithin(ws, lo, hi)
    ensures WeightSum(ws) > 0.0
    ensures lo <= WeightedSum(ws) / WeightSum(ws) <= hi
  {
    WeightSumPositive(ws);
    WeightedSumBetween(ws, lo, hi);
    QuotientBetween(WeightedSum(ws), WeightSum(ws), lo, hi);
  }

  /** Dividing bounds of the form lo·n <= a <= hi·n by n > 0. */
  lemma QuotientBetween(a: real, n: real, lo: real, hi: real)
    requires n > 0.0 && lo * n <= a <= hi * n
    ensures lo <= a / n <= hi
  {
    var q := a / n;
    assert q * n == a;
  }

  // ------------------------------------------------------------ plain lists

  /** `Math.max(...xs)` */
  function MaxOf(xs: seq<real>): (m: real)
    requires xs != []
    ensures m in xs
    ensures forall i :: 0 <= i < |xs| ==> xs[i] <= m
  {
    if |xs| == 1 then xs[0]
    else
      var m := MaxOf(xs[..|xs| - 1]);
      assert forall i :: 0 <= i < |xs| - 1 ==> xs[i] == xs[..|xs| - 1][i];
      MaxR(m, xs[|xs| - 1])
  }

  /** `Math.min(...xs)` */
  function MinOf(xs: seq<real>): (m: real)
    requires xs != []
    ensures m in xs
    ensures forall i :: 0 <= i < |xs| ==> m <= xs[i]
  {
    if |xs| == 1 then xs[0]
    else
      var m := MinOf(xs[..|xs| - 1]);
      assert forall i :: 0 <= i < |xs| - 1 ==> xs[i] == xs[..|xs| - 1][i];
      MinR(m, xs[|xs| - 1])
  }

  /** `Math.max(...xs) - Math.min(...xs)`: never negative, zero only when all values agree. */
  function Spread(xs: seq<real>): (r: real)
    requires xs != []
    ensures r >= 0.0
    ensures r == 0.0 <==> forall i :: 0 <= i < |xs| ==> xs[i] == xs[0]
  {
    MaxOf(xs) - MinOf(xs)
  }

  /** The arithmetic mean. */
  function Mean(xs: seq<real>): real
    requires xs != []
  {
    SumR(xs) / |xs| as real
  }

  lemma {:induction false} SumBetween(xs: seq<real>, lo: real, hi: real)
    requires forall i :: 0 <= i < |xs| ==> lo <= xs[i] <= hi
    ensures lo * |xs| as real <= SumR(xs) <= hi * |xs| as real
  {
    if xs != [] {
      var init := xs[..|xs| - 1];
      assert forall i :: 0 <= i < |init| ==> init[i] == xs[i];
      SumBetween(init, lo, hi);
      var n := |init| as real;
      var last := xs[|xs| - 1];
      assert SumR(xs) == SumR(init) + last;
      assert lo <= last <= hi;
      var m := |xs| as real;
      assert m == n + 1.0;
      assert lo * m == lo * n + lo && hi * m == hi * n + hi;
      assert lo * n + lo <= SumR(init) + last <= hi * n + hi;
    }
  }

  /** The mean lies between the minimum and the maximum. */
  lemma MeanBetween(xs: seq<real>)
    requires xs != []
    ensures MinOf(xs) <= Mean(xs) <= MaxOf(xs)
  {
    var lo, hi := MinOf(xs), MaxOf(xs);
    SumBetween(xs, lo, hi);
    QuotientBetween(SumR(xs), |xs| as real, lo, hi);
  }
}
