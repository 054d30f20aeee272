// Forecast accuracy statistics from backtest results: every backtest day
// becomes an error entry in the aggregate and in its station's group, and
// each group is summarised by its mean absolute error, bias, 2°F hit rate
// and largest miss.

module WeatherCalibration {
  import opened Prelude
  import opened Utils
  import opened Averages

  datatype BacktestDay = BacktestDay(date: string, forecast: real, actual: real)

  /** One backtest file: a station and its days (`bt.days || []`). */
  datatype Backtest = Backtest(station: string, days: seq<BacktestDay>)

  datatype Entry = Entry(date: string, station: string, forecast: real, actual: real, error: real)

  datatype Stats = Stats(n: nat, mae: real, bias: real, hitRate2F: real, maxError: real)

  datatype Calibration = Calibration(aggregate: Option<Stats>, byStation: map<string, Option<Stats>>)

  /** The entry of one backtest day, error = forecast − actual. */
  function EntryOf(station: string, d: BacktestDay): Entry
  {
    Entry(d.date, station, d.forecast, d.actual, d.forecast - d.actual)
  }

  /** The entries of the first `j` days of one backtest. */
  function DayEntriesUpTo(bt: Backtest, j: nat): (r: seq<Entry>)
    requires j <= |bt.days|
    ensures |r| == j
    ensures forall i :: 0 <= i < j ==> r[i] == EntryOf(bt.station, bt.days[i])
  {
    if j == 0 then [] else DayEntriesUpTo(bt, j - 1) + [EntryOf(bt.station, bt.days[j - 1])]
  }

  /** The entries of one backtest. */
  function DayEntries(bt: Backtest): seq<Entry>
  {
    DayEntriesUpTo(bt, |bt.days|)
  }

  /** The `all` list: every day of every backtest, in order. */
  function AllEntries(data: seq<Backtest>): seq<Entry>
  {
    if data == [] then [] else AllEntries(data[..|data| - 1]) + DayEntries(data[|data| - 1])
  }

  /** `(byStation[e.station] ||= []).push(e)` */
  function AddEntry(g: map<string, seq<Entry>>, e: Entry): map<string, seq<Entry>>
  {
    g[e.station := (if e.station in g then g[e.station] else []) + [e]]
  }

  /** The `byStation` lists, built by appending each entry to its station's list. */
  function Group(es: seq<Entry>): map<string, seq<Entry>>
  {
    if es == [] then map[] else AddEntry(Group(es[..|es| - 1]), es[|es| - 1])
  }

  lemma GroupSnoc(es: seq<Entry>, e: Entry)
    ensures Group(es + [e]) == AddEntry(Group(es), e)
    ensures Stations(es + [e]) == if e.station in Stations(es) then Stations(es) else Stations(es) + [e.station]
  {
    assert (es + [e])[..|es|] == es;
  }

  /** The stations in the order they first appear (`Object.entries` order). */
  function Stations(es: seq<Entry>): seq<string>
  {
    if es == [] then []
    else
      var ks := Stations(es[..|es| - 1]);
      var e := es[|es| - 1];
      if e.station in ks then ks else ks + [e.station]
  }

  /** The entries of one station, in order. */
  function OfStation(es: seq<Entry>, station: string): seq<Entry>
  {
    if es == [] then []
    else OfStation(es[..|es| - 1], station) + (if es[|es| - 1].station == station then [es[|es| - 1]] else [])
  }

  /** The groups are keyed by exactly the stations that occur, each listed once. */
  lemma {:induction false} GroupKeys(es: seq<Entry>)
    ensures forall k :: k in Group(es) <==> k in Stations(es)
    ensures forall i, j :: 0 <= i < j < |Stations(es)| ==> Stations(es)[i] != Stations(es)[j]
  {
    if es != [] {
      GroupKeys(es[..|es| - 1]);
    }
  }

  /** Each group holds exactly its station's entries, in order, and is never empty. */
  lemma {:induction false} GroupContents(es: seq<Entry>)
    ensures forall k :: k in Group(es) ==> Group(es)[k] == OfStation(es, k) && Group(es)[k] != []
  {
    if es != [] {
      var init := es[..|es| - 1];
      var e := es[|es| - 1];
      GroupContents(init);
      forall k | k in Group(es)
        ensures Group(es)[k] == OfStation(es, k) && Group(es)[k] != []
      {
        if k != e.station {
          assert k in Group(init);
        } else if k !in Group(init) {
          OfStationAbsent(init, k);
        }
      }
    }
  }

  /** A station with no group has no entries. */
  lemma {:induction false} OfStationAbsent(es: seq<Entry>, k: string)
    requires k !in Group(es)
    ensures OfStation(es, k) == []
  {
    if es != [] {
      OfStationAbsent(es[..|es| - 1], k);
    }
  }

  /** The total size of the groups listed in `ks`. */
  function GroupSizes(g: map<string, seq<Entry>>, ks: seq<string>): nat
  {
    if ks == [] then 0
    else GroupSizes(g, ks[..|ks| - 1]) + (if ks[|ks| - 1] in g then |g[ks[|ks| - 1]]| else 0)
  }

  lemma {:induction false} GroupSizesBump(g: map<string, seq<Entry>>, ks: seq<string>, k: string, e: Entry)
    requires k in g && k in ks
    requires forall i, j :: 0 <= i < j < |ks| ==> ks[i] != ks[j]
    ensures GroupSizes(g[k := g[k] + [e]], ks) == GroupSizes(g, ks) + 1
  {
    var init := ks[..|ks| - 1];
    if ks[|ks| - 1] != k {
      assert k in init by {
        var i :| 0 <= i < |ks| && ks[i] == k;
        assert i < |ks| - 1;
        assert init[i] == k;
      }
      GroupSizesBump(g, init, k, e);
    } else {
      assert k !in init;
      GroupSizesFrame(g, init, k, g[k] + [e]);
    }
  }

  lemma {:induction false} GroupSizesFrame(g: map<string, seq<Entry>>, ks: seq<string>, k: string, v: seq<Entry>)
    requires k !in ks
    ensures GroupSizes(g[k := v], ks) == GroupSizes(g, ks)
  {
    if ks != [] {
      GroupSizesFrame(g, ks[..|ks| - 1], k, v);
    }
  }

  lemma GroupSizesAppend(g: map<string, seq<Entry>>, ks: seq<string>, k: string, e: Entry)
    requires k !in ks && k !in g
    ensures GroupSizes(g[k := [e]], ks + [k]) == GroupSizes(g, ks) + 1
  {
    GroupSizesFrame(g, ks, k, [e]);
    assert (ks + [k])[..|ks|] == ks;
  }

  /** The station counts add up to the aggregate count. */
  lemma {:induction false} GroupSizesSum(es: seq<Entry>)
    ensures GroupSizes(Group(es), Stations(es)) == |es|
  {
    if es != [] {
      var init := es[..|es| - 1];
      GroupSizesSum(init);
      GroupSizesStep(init, es[|es| - 1]);
      assert es == init + [es[|es| - 1]];
    }
  }

  lemma GroupSizesStep(init: seq<Entry>, e: Entry)
    ensures GroupSizes(Group(init + [e]), Stations(init + [e])) == GroupSizes(Group(init), Stations(init)) + 1
  {
    GroupKeys(init);
    GroupSnoc(init, e);
    var g, ks := Group(init), Stations(init);
    if e.station in ks {
      GroupSizesBump(g, ks, e.station, e);
    } else {
      GroupSizesAppend(g, ks, e.station, e);
    }
  }

  // -------------------------------------------------------------- statistics

  function Errors(es: seq<Entry>): (r: seq<real>)
    ensures |r| == |es| && forall i :: 0 <= i < |r| ==> r[i] == es[i].error
  {
    seq(|es|, i requires 0 <= i < |es| => es[i].error)
  }

  function AbsAll(xs: seq<real>): (r: seq<real>)
    ensures |r| == |xs| && forall i :: 0 <= i < |r| ==> r[i] == AbsR(xs[i])
  {
    seq(|xs|, i requires 0 <= i < |xs| => AbsR(xs[i]))
  }

  /** The number of values at most `limit`. */
  function CountAtMost(xs: seq<real>, limit: real): (c: nat)
    ensures c <= |xs|
  {
    if xs == [] then 0 else CountAtMost(xs[..|xs| - 1], limit) + (if xs[|xs| - 1] <= limit then 1 else 0)
  }

  /** The sum of the values is at most the sum of their absolute values, in absolute value. */
  lemma {:induction false} SumAbsBound(xs: seq<real>)
    ensures AbsR(SumR(xs)) <= SumR(AbsAll(xs))
  {
    if xs != [] {
      var init := xs[..|xs| - 1];
      assert AbsAll(xs)[..|xs| - 1] == AbsAll(init);
      SumAbsBound(init);
    }
  }

  /** The mean error is at most the mean absolute error, which is at least 0 and at most the largest miss. */
  lemma MeanErrorBounds(errors: seq<real>)
    requires errors != []
    ensures Mean(errors) <= Mean(AbsAll(errors))
    ensures 0.0 <= Mean(AbsAll(errors)) <= MaxOf(AbsAll(errors))
  {
    var absErrors := AbsAll(errors);
    var n := |errors| as real;
    SumAbsBound(errors);
    QuotientBetween(SumR(errors), n, SumR(errors) / n, SumR(absErrors) / n);
    MeanBetween(absErrors);
  }

  /** A share of `n` expressed as a percentage to a tenth lies in [0, 100]. */
  lemma PercentBounds(h: nat, n: nat)
    requires 0 < n && h <= n
    ensures 0.0 <= Round1(h as real / n as real * 100.0) <= 100.0
  {
    var rate := h as real / n as real * 100.0;
    QuotientBetween(h as real, n as real, 0.0, 1.0);
    Round1Monotone(0.0, rate);
    Round1Monotone(rate, 100.0);
    Round1Exact(0.0);
    Round1Exact(100.0);
  }

  /**
   * The inner `stats(entries)`: null for no entries; otherwise the count,
   * the mean absolute error and the mean error to the cent, the share of
   * misses of at most 2°F as a percentage to a tenth, and the largest miss
   * to a tenth.
   */
  function StatsOf(es: seq<Entry>): (r: Option<Stats>)
    ensures r.None? <==> es == []
    ensures r.Some? ==>
      && r.value.n == |es|
      && WholeCents(r.value.mae) && WholeCents(r.value.bias)
      && 0.0 <= r.value.mae
      && r.value.bias <= r.value.mae
      && 0.0 <= r.value.hitRate2F <= 100.0
      && 0.0 <= r.value.maxError
  {
    if es == [] then None
    else
      var errors := Errors(es);
      var absErrors := AbsAll(errors);
      var mae := Mean(absErrors);
      var bias := Mean(errors);
      var hits := CountAtMost(absErrors, 2.0);
      MeanErrorBounds(errors);
      Round2Monotone(bias, mae);
      RoundedNonNegative(mae);
      RoundedNonNegative(MaxOf(absErrors));
      PercentBounds(hits, |es|);
      Some(Stats(|es|, Round2(mae), Round2(bias), Round1(hits as real / |es| as real * 100.0), Round1(MaxOf(absErrors))))
  }

  /** The hit rate counts exactly the misses of at most 2°F. */
  lemma {:induction false} CountAtMostSpec(xs: seq<real>, limit: real)
    ensures CountAtMost(xs, limit) == |set i | 0 <= i < |xs| && xs[i] <= limit|
  {
    if xs != [] {
      var n := |xs| - 1;
      CountAtMostSpec(xs[..n], limit);
      var before := set i | 0 <= i < n && xs[..n][i] <= limit;
      var now := set i | 0 <= i < |xs| && xs[i] <= limit;
      if xs[n] <= limit {
        assert now == before + {n};
      } else {
        assert now == before;
      }
    }
  }

  /**
   * `computeStats(backtests)`: null when there are no backtests; otherwise
   * the aggregate statistics and one entry per station.
   */
  function CalibrationOf(data: seq<Backtest>): Option<Calibration>
  {
    if data == [] then None
    else
      var all := AllEntries(data);
      var g := Group(all);
      Some(Calibration(StatsOf(all), map k | k in g :: StatsOf(g[k])))
  }

  /**
   * Every station present gets statistics (never null), their counts add up
   * to the aggregate count, and the aggregate is null only when no backtest
   * has a day.
   */
  lemma CalibrationCounts(data: seq<Backtest>)
    ensures var r := CalibrationOf(data);
      var all := AllEntries(data);
      r.Some? ==> (
        && (r.value.aggregate.None? <==> all == [])
        && (forall k :: k in r.value.byStation ==> r.value.byStation[k].Some?)
        && (all != [] ==> r.value.aggregate.value.n == |all|)
        && GroupSizes(Group(all), Stations(all)) == |all|)
  {
    var all := AllEntries(data);
    GroupContents(all);
    GroupSizesSum(all);
  }

  /** The loops over the backtests and their days that fill `all` and `byStation`. */
  method CollectEntries(data: seq<Backtest>) returns (all: seq<Entry>, byStation: map<string, seq<Entry>>)
    ensures all == AllEntries(data)
    ensures byStation == Group(all)
  {
    byStation := map[];
    all := [];
    for i := 0 to |data|
      invariant all == AllEntries(data[..i])
      invariant byStation == Group(all)
    {
      assert data[..i + 1][..i] == data[..i];
      all, byStation := AddDays(all, byStation, data[i]);
    }
    assert data[..|data|] == data;
  }

  /** The inner loop over one backtest's days. */
  method AddDays(all0: seq<Entry>, byStation0: map<string, seq<Entry>>, bt: Backtest)
    returns (all: seq<Entry>, byStation: map<string, seq<Entry>>)
    requires byStation0 == Group(all0)
    ensures all == all0 + DayEntries(bt)
    ensures byStation == Group(all)
  {
    all, byStation := all0, byStation0;
    for j := 0 to |bt.days|
      invariant all == all0 + DayEntriesUpTo(bt, j)
      invariant byStation == Group(all)
    {
      var entry := EntryOf(bt.station, bt.days[j]);
      GroupSnoc(all, entry);
      byStation := byStation[bt.station := (if bt.station in byStation then byStation[bt.station] else []) + [entry]];
      all := all + [entry];
    }
  }

  /** The loop over `Object.entries(byStation)` that summarises each station. */
  method StationStats(byStation: map<string, seq<Entry>>, keys: seq<string>) returns (out: map<string, Option<Stats>>)
    requires forall k :: k in byStation <==> k in keys
    ensures out == map k | k in byStation :: StatsOf(byStation[k])
  {
    out := map[];
    for i := 0 to |keys|
      invariant out == map k | k in keys[..i] :: StatsOf(byStation[k])
    {
      assert keys[..i + 1] == keys[..i] + [keys[i]];
      out := out[keys[i] := StatsOf(byStation[keys[i]])];
    }
    assert keys[..|keys|] == keys;
  }

  /** `computeStats` as its loops compute it. */
  method ComputeStats(data: seq<Backtest>) returns (r: Option<Calibration>)
    ensures r == CalibrationOf(data)
  {
    if |data| == 0 {
      return None;
    }
    var all, byStation := CollectEntries(data);
    GroupKeys(all);
    var byStationStats := StationStats(byStation, Stations(all));
    r := Some(Calibration(StatsOf(all), byStationStats));
  }
}
