// Settlement-station reference data for temperature markets and the
// helpers derived from it: the tradeable and validated station sets, the
// correlation groups, Bayesian sigma updating, the effective forecast sigma
// and the inverse-error model weights. The station table itself is data and
// is passed in.

module WeatherStations {
  import opened Prelude
  import opened Text
  import opened Utils

  datatype WeatherStation = WeatherStation(
    city: string,
    kalshiCity: Option<string>,
    kalshiTicker: Option<string>,
    kalshiTickerLow: Option<string>,
    tier: string,
    enabled: Option<bool>,
    baseSigma: Option<real>,
    baseSigmaLow: Option<real>,
    runningMAE: Option<real>,
    runningN: Option<int>,
    ecmwfMAE: Option<real>,
    gfsMAE: Option<real>,
    correlationGroup: Option<string>,
    climNormalHigh: map<int, real>,
    climNormalLow: map<int, real>,
    bias: real)

  datatype StationEntry = StationEntry(key: string, station: WeatherStation)

  /** The station table in key order, as `Object.entries` lists it. */
  type StationTable = seq<StationEntry>

  /** A JSON object has each key once. */
  predicate DistinctKeys(table: StationTable)
  {
    forall i, j :: 0 <= i < j < |table| ==> table[i].key != table[j].key
  }

  /** Error figures, when present, are positive. */
  predicate ValidStation(s: WeatherStation)
  {
    (s.ecmwfMAE.Some? ==> s.ecmwfMAE.value >= 0.0)
    && (s.gfsMAE.Some? ==> s.gfsMAE.value >= 0.0)
    && (s.baseSigma.Some? ==> s.baseSigma.value >= 0.0)
    && (s.baseSigmaLow.Some? ==> s.baseSigmaLow.value >= 0.0)
    && (s.runningMAE.Some? ==> s.runningMAE.value >= 0.0)
  }

  predicate ValidTable(table: StationTable)
  {
    DistinctKeys(table) && forall i :: 0 <= i < |table| ==> ValidStation(table[i].station)
  }

  /** `STATIONS[key]` */
  function Lookup(table: StationTable, key: string): (r: Option<WeatherStation>)
    ensures r.Some? <==> exists i :: 0 <= i < |table| && table[i].key == key
  {
    if table == [] then None
    else if table[0].key == key then Some(table[0].station)
    else
      var r := Lookup(table[1..], key);
      assert forall i :: 1 <= i < |table| ==> table[i] == table[1..][i - 1];
      r
  }

  /** A station that is found is one of the table's entries. */
  lemma {:induction false} LookupFound(table: StationTable, key: string)
    requires Lookup(table, key).Some?
    ensures exists i :: 0 <= i < |table| && table[i] == StationEntry(key, Lookup(table, key).value)
  {
    if table[0].key != key {
      LookupFound(table[1..], key);
      var i :| 0 <= i < |table[1..]| && table[1..][i] == StationEntry(key, Lookup(table, key).value);
      assert table[i + 1] == table[1..][i];
    }
  }

  lemma LookupDistinct(table: StationTable, i: int)
    requires DistinctKeys(table) && 0 <= i < |table|
    ensures Lookup(table, table[i].key) == Some(table[i].station)
  {
    if i > 0 {
      assert table[1..][i - 1] == table[i];
      assert DistinctKeys(table[1..]) by {
        forall a, b | 0 <= a < b < |table[1..]| ensures table[1..][a].key != table[1..][b].key {
          assert table[1..][a] == table[a + 1] && table[1..][b] == table[b + 1];
        }
      }
      LookupDistinct(table[1..], i - 1);
    }
  }

  predicate Tradeable(s: WeatherStation)
  {
    s.enabled != Some(false) && (s.tier == "A" || s.tier == "B")
  }

  /** TRADEABLE_STATIONS: tier A or B and not explicitly disabled. */
  function TradeableStations(table: StationTable): (r: set<string>)
    requires DistinctKeys(table)
    ensures forall k :: k in r <==> Lookup(table, k).Some? && Tradeable(Lookup(table, k).value)
  {
    var r := set i | 0 <= i < |table| && Tradeable(table[i].station) :: table[i].key;
    assert forall i :: 0 <= i < |table| ==> Lookup(table, table[i].key) == Some(table[i].station) by {
      forall i | 0 <= i < |table| ensures Lookup(table, table[i].key) == Some(table[i].station) {
        LookupDistinct(table, i);
      }
    }
    r
  }

  /** VALIDATED_STATIONS: those with a calibrated baseSigma. */
  function ValidatedStations(table: StationTable): (r: set<string>)
    requires DistinctKeys(table)
    ensures forall k :: k in r <==> Lookup(table, k).Some? && Lookup(table, k).value.baseSigma.Some?
  {
    var r := set i | 0 <= i < |table| && table[i].station.baseSigma.Some? :: table[i].key;
    assert forall i :: 0 <= i < |table| ==> Lookup(table, table[i].key) == Some(table[i].station) by {
      forall i | 0 <= i < |table| ensures Lookup(table, table[i].key) == Some(table[i].station) {
        LookupDistinct(table, i);
      }
    }
    r
  }

  // ------------------------------------------------------- correlation groups

  /** The station's correlationGroup when it is a non-empty string. */
  function GroupOf(s: WeatherStation): Option<string>
  {
    if s.correlationGroup.Some? && s.correlationGroup.value != "" then s.correlationGroup else None
  }

  /** The keys of the stations in group `g`, in table order. */
  function Members(table: StationTable, g: string): seq<string>
  {
    if table == [] then []
    else
      var last := table[|table| - 1];
      Members(table[..|table| - 1], g) + (if GroupOf(last.station) == Some(g) then [last.key] else [])
  }

  /** A key is listed in group g exactly when some station with that key has group g. */
  lemma {:induction false} MembersExact(table: StationTable, g: string, k: string)
    ensures k in Members(table, g) <==> exists i :: 0 <= i < |table| && table[i].key == k && GroupOf(table[i].station) == Some(g)
  {
    if table != [] {
      var init := table[..|table| - 1];
      MembersExact(init, g, k);
      assert forall i :: 0 <= i < |init| ==> init[i] == table[i];
      if k in Members(table, g) && k !in Members(init, g) {
        assert table[|table| - 1].key == k;
      }
    }
  }

  /**
   * With distinct keys each grouped station lies in exactly one group: the
   * one its correlationGroup names.
   */
  lemma ExactlyOneGroup(table: StationTable, i: int, g: string)
    requires DistinctKeys(table) && 0 <= i < |table|
    ensures table[i].key in Members(table, g) <==> GroupOf(table[i].station) == Some(g)
  {
    MembersExact(table, g, table[i].key);
  }

  /** The groups after the first `i` table entries: each group present so far, with its members so far. */
  ghost predicate GroupedUpTo(table: StationTable, i: int, groups: map<string, seq<string>>)
    requires 0 <= i <= |table|
  {
    && (forall g :: g in groups <==> exists j :: 0 <= j < i && GroupOf(table[j].station) == Some(g))
    && (forall g :: g in groups ==> groups[g] == Members(table[..i], g))
  }

  /**
   * CORRELATION_GROUPS: one entry per group name that some station carries,
   * listing that group's stations in table order.
   */
  method CorrelationGroups(table: StationTable) returns (groups: map<string, seq<string>>)
    ensures forall g :: g in groups <==> exists i :: 0 <= i < |table| && GroupOf(table[i].station) == Some(g)
    ensures forall g :: g in groups ==> groups[g] == Members(table, g)
  {
    groups := map[];
    var i := 0;
    while i < |table|
      invariant 0 <= i <= |table|
      invariant GroupedUpTo(table, i, groups)
    {
      var e := table[i];
      var g := GroupOf(e.station);
      GroupStep(table, i, groups);
      if g.Some? {
        var prior := if g.value in groups then groups[g.value] else [];
        groups := groups[g.value := prior + [e.key]];
      }
      i := i + 1;
    }
    assert table[..|table|] == table;
  }

  /** One step of the grouping loop: the table entry at index i joins its group, if any. */
  lemma GroupStep(table: StationTable, i: int, groups: map<string, seq<string>>)
    requires 0 <= i < |table| && GroupedUpTo(table, i, groups)
    ensures var e := table[i];
      var g := GroupOf(e.station);
      GroupedUpTo(table, i + 1,
        if g.Some? then groups[g.value := (if g.value in groups then groups[g.value] else []) + [e.key]] else groups)
  {
    var e := table[i];
    var eg := GroupOf(e.station);
    var next := if eg.Some? then groups[eg.value := (if eg.value in groups then groups[eg.value] else []) + [e.key]] else groups;
    forall g
      ensures g in next <==> exists j :: 0 <= j < i + 1 && GroupOf(table[j].station) == Some(g)
    {
      if eg == Some(g) {
        assert GroupOf(table[i].station) == Some(g);
      }
    }
    forall g | g in next
      ensures next[g] == Members(table[..i + 1], g)
    {
      MembersSnoc(table, i, g);
      if g !in groups {
        MembersEmpty(table[..i], g);
      }
    }
  }

  lemma MembersSnoc(table: StationTable, i: int, g: string)
    requires 0 <= i < |table|
    ensures Members(table[..i + 1], g)
      == Members(table[..i], g) + (if GroupOf(table[i].station) == Some(g) then [table[i].key] else [])
  {
    assert table[..i + 1][..i] == table[..i];
  }

  lemma {:induction false} MembersEmpty(table: StationTable, g: string)
    requires forall j :: 0 <= j < |table| ==> GroupOf(table[j].station) != Some(g)
    ensures Members(table, g) == []
  {
    if table != [] {
      MembersEmpty(table[..|table| - 1], g);
    }
  }

  // ------------------------------------------------------------------- sigma

  /** `bayesianSigmaUpdate(base, observedMAE, nObs, nPrior)` */
  function BayesianSigmaUpdate(baseSigma: real, observedMAE: Option<real>, nObs: int, nPrior: nat): (r: real)
    ensures !Truthy(observedMAE) || nObs < 5 ==> r == baseSigma
    ensures Truthy(observedMAE) && nObs >= 5 ==>
      MinR(baseSigma, observedMAE.value * 1.253) - 0.005 < r <= MaxR(baseSigma, observedMAE.value * 1.253) + 0.005
  {
    if !Truthy(observedMAE) || nObs < 5 then baseSigma
    else
      var observedSigma := observedMAE.value * 1.253;
      var a, b := nPrior as real, nObs as real;
      assert (nPrior + nObs) as real == a + b;
      var posterior := (a * baseSigma + b * observedSigma) / (a + b);
      WeightedAverageBetween(a, b, baseSigma, observedSigma);
      Round2(posterior)
  }

  /** A weighted average of x and y lies between them. */
  lemma WeightedAverageBetween(a: real, b: real, x: real, y: real)
    requires a >= 0.0 && b > 0.0
    ensures MinR(x, y) <= (a * x + b * y) / (a + b) <= MaxR(x, y)
  {
    var m := MinR(x, y);
    var M := MaxR(x, y);
    assert a * x + b * y >= a * m + b * m;
    assert a * x + b * y <= a * M + b * M;
    assert (a * m + b * m) / (a + b) == m;
    assert (a * M + b * M) / (a + b) == M;
  }

  predicate WinterMonth(month: int)
  {
    month == 11 || month == 12 || month == 1 || month == 2 || month == 3
  }

  /**
   * HORIZON_SIGMA[Math.min(h, 3)] || HORIZON_SIGMA[3]: 1.0 for today and
   * tomorrow, 1.29 for two days, 1.57 from three days on; a negative horizon
   * has no entry and falls back to 1.57.
   */
  function HorizonFactor(h: int): real
  {
    if 0 <= h <= 1 then 1.0 else if h == 2 then 1.29 else 1.57
  }

  /** For h >= 0 the horizon factor never decreases. */
  lemma HorizonFactorMonotone(h1: int, h2: int)
    requires 0 <= h1 <= h2
    ensures 1.0 <= HorizonFactor(h1) <= HorizonFactor(h2)
  {
  }

  /** The station's base sigma before the seasonal bump and horizon scaling. */
  function BaseSigma(s: WeatherStation, low: bool): (r: real)
    ensures ValidStation(s) ==> r >= 0.0
  {
    var sigma := if low then OrElse(s.baseSigmaLow, OrElse(s.baseSigma, 3.5)) else OrElse(s.baseSigma, 3.5);
    if Truthy(s.runningMAE) && s.runningN.Some? && s.runningN.value != 0
    then
      var r := BayesianSigmaUpdate(sigma, s.runningMAE, s.runningN.value, 30);
      WholeCentsNonNegative(r);
      r
    else sigma
  }

  /** A whole number of cents above -1 cent is not negative. */
  lemma WholeCentsNonNegative(r: real)
    ensures WholeCents(r) && r > -0.01 ==> r >= 0.0
  {
    if WholeCents(r) && r > -0.01 {
      var k := (r * 100.0).Floor;
      assert k as real == r * 100.0 > -1.0;
    }
  }

  /** The base sigma plus 0.5 in the winter months November to March. */
  function SeasonalSigma(s: WeatherStation, low: bool, month: int): (r: real)
    ensures r == BaseSigma(s, low) + (if WinterMonth(month) then 0.5 else 0.0)
  {
    var sigma := BaseSigma(s, low);
    if WinterMonth(month) then sigma + 0.5 else sigma
  }

  /**
   * `getEffectiveSigma(station, month, horizonDays, tempType)`: 3.5 for an
   * unknown station; otherwise the seasonal sigma times the horizon factor,
   * to the nearest tenth.
   */
  function EffectiveSigma(table: StationTable, station: string, month: int, horizon: int, low: bool): real
  {
    match Lookup(table, station)
    case None => 3.5
    case Some(s) => Round1(SeasonalSigma(s, low, month) * HorizonFactor(horizon))
  }

  /**
   * An unknown station gets the default 3.5; a known one its seasonal
   * sigma times the horizon factor, to the nearest tenth.
   */
  lemma EffectiveSigmaRounded(table: StationTable, station: string, month: int, horizon: int, low: bool)
    ensures Lookup(table, station).None? ==> EffectiveSigma(table, station, month, horizon, low) == 3.5
    ensures Lookup(table, station).Some? ==>
      var r := EffectiveSigma(table, station, month, horizon, low);
      WholeTenths(r) && -0.05 < r - SeasonalSigma(Lookup(table, station).value, low, month) * HorizonFactor(horizon) <= 0.05
  {
  }

  /** A longer horizon never gives a smaller sigma. */
  lemma EffectiveSigmaMonotoneInHorizon(table: StationTable, station: string, month: int, h1: int, h2: int, low: bool)
    requires ValidTable(table) && 0 <= h1 <= h2
    ensures EffectiveSigma(table, station, month, h1, low) <= EffectiveSigma(table, station, month, h2, low)
  {
    match Lookup(table, station)
    case None =>
    case Some(s) =>
      LookupValid(table, station);
      SigmaScaleMonotone(SeasonalSigma(s, low, month), h1, h2);
  }

  /** Every station of a valid table is valid. */
  lemma LookupValid(table: StationTable, key: string)
    requires ValidTable(table) && Lookup(table, key).Some?
    ensures ValidStation(Lookup(table, key).value)
  {
    LookupFound(table, key);
    var i :| 0 <= i < |table| && table[i] == StationEntry(key, Lookup(table, key).value);
  }

  lemma SigmaScaleMonotone(x: real, h1: int, h2: int)
    requires 0.0 <= x && 0 <= h1 <= h2
    ensures Round1(x * HorizonFactor(h1)) <= Round1(x * HorizonFactor(h2))
  {
    var f1, f2 := HorizonFactor(h1), HorizonFactor(h2);
    HorizonFactorMonotone(h1, h2);
    ProductNonNegative(x, f2 - f1);
    assert x * f2 - x * f1 == x * (f2 - f1);
    Round1Monotone(x * f1, x * f2);
  }

  /** A winter month never gives a smaller sigma than a non-winter month. */
  lemma WinterSigmaNotLower(table: StationTable, station: string, winter: int, summer: int, h: int, low: bool)
    requires WinterMonth(winter) && !WinterMonth(summer)
    ensures EffectiveSigma(table, station, summer, h, low) <= EffectiveSigma(table, station, winter, h, low)
  {
    var s := Lookup(table, station);
    if s.Some? {
      var f := HorizonFactor(h);
      assert f > 0.0;
      var x := BaseSigma(s.value, low);
      assert x * f <= (x + 0.5) * f;
      Round1Monotone(SeasonalSigma(s.value, low, summer) * f, SeasonalSigma(s.value, low, winter) * f);
    }
  }

  // ------------------------------------------------------------------ weights

  datatype ModelWeights = ModelWeights(nws: real, gfs: real, ecmwf: real)

  /**
   * `getModelWeights(station)`: the default 0.2/0.35/0.45 unless the station
   * has both model errors, in which case NWS gets 0.15 and GFS and ECMWF
   * share 0.85 in inverse proportion to their errors. The weights always
   * sum to 1 and are positive.
   */
  function ModelWeightsFor(table: StationTable, station: string): (w: ModelWeights)
    requires ValidTable(table)
    ensures w.nws + w.gfs + w.ecmwf == 1.0
    ensures w.nws > 0.0 && w.gfs > 0.0 && w.ecmwf > 0.0
    ensures var s := Lookup(table, station);
      (s.None? || !Truthy(s.value.ecmwfMAE) || !Truthy(s.value.gfsMAE)) <==> w == ModelWeights(0.2, 0.35, 0.45)
    ensures var s := Lookup(table, station);
      s.Some? && Truthy(s.value.ecmwfMAE) && Truthy(s.value.gfsMAE) ==>
        w.nws == 0.15 && w.gfs * s.value.gfsMAE.value == w.ecmwf * s.value.ecmwfMAE.value
  {
    var s := Lookup(table, station);
    if s.None? || !Truthy(s.value.ecmwfMAE) || !Truthy(s.value.gfsMAE) then ModelWeights(0.2, 0.35, 0.45)
    else
      LookupFound(table, station);
      var i :| 0 <= i < |table| && table[i] == StationEntry(station, s.value);
      assert ValidStation(s.value);
      var e := s.value.ecmwfMAE.value;
      var g := s.value.gfsMAE.value;
      var ecmwfInv := 1.0 / e;
      var gfsInv := 1.0 / g;
      var total := ecmwfInv + gfsInv;
      var w := ModelWeights(0.15, 0.85 * (gfsInv / total), 0.85 * (ecmwfInv / total));
      InverseWeights(e, g);
      w
  }

  lemma InverseWeights(e: real, g: real)
    requires e > 0.0 && g > 0.0
    ensures var t := 1.0 / e + 1.0 / g;
      t > 0.0
      && 0.85 * ((1.0 / g) / t) + 0.85 * ((1.0 / e) / t) == 0.85
      && 0.85 * ((1.0 / g) / t) > 0.0 && 0.85 * ((1.0 / e) / t) > 0.0
      && 0.85 * ((1.0 / g) / t) * g == 0.85 * ((1.0 / e) / t) * e
  {
    var t := 1.0 / e + 1.0 / g;
    assert (1.0 / g) / t + (1.0 / e) / t == t / t;
    assert (1.0 / g) * g == 1.0 && (1.0 / e) * e == 1.0;
    assert ((1.0 / g) / t) * g == 1.0 / t;
    assert ((1.0 / e) / t) * e == 1.0 / t;
  }

  // ------------------------------------------------------------------ resolve

  predicate MatchesName(s: WeatherStation, u: string)
  {
    s.city == u || s.kalshiCity == Some(u)
    || (s.kalshiTicker.Some? && Contains(s.kalshiTicker.value, u))
    || (s.kalshiTickerLow.Some? && Contains(s.kalshiTickerLow.value, u))
  }

  /** The key of the first station whose names match `u`. */
  function FirstMatch(table: StationTable, u: string): (r: Option<string>)
    ensures r.Some? ==> exists i :: (0 <= i < |table| && table[i].key == r.value && MatchesName(table[i].station, u)
      && forall j :: 0 <= j < i ==> !MatchesName(table[j].station, u))
    ensures r.None? ==> forall i :: 0 <= i < |table| ==> !MatchesName(table[i].station, u)
  {
    if table == [] then None
    else if MatchesName(table[0].station, u) then Some(table[0].key)
    else
      var r := FirstMatch(table[1..], u);
      FirstMatchAfterHead(table, u, r);
      r
  }

  /** A first match in the tail, after a head that does not match, is the first match of the table. */
  lemma FirstMatchAfterHead(table: StationTable, u: string, r: Option<string>)
    requires table != [] && !MatchesName(table[0].station, u)
    requires r.Some? ==> exists i :: (0 <= i < |table[1..]| && table[1..][i].key == r.value && MatchesName(table[1..][i].station, u)
      && forall j :: 0 <= j < i ==> !MatchesName(table[1..][j].station, u))
    requires r.None? ==> forall i :: 0 <= i < |table[1..]| ==> !MatchesName(table[1..][i].station, u)
    ensures r.Some? ==> exists i :: (0 <= i < |table| && table[i].key == r.value && MatchesName(table[i].station, u)
      && forall j :: 0 <= j < i ==> !MatchesName(table[j].station, u))
    ensures r.None? ==> forall i :: 0 <= i < |table| ==> !MatchesName(table[i].station, u)
  {
    assert forall i :: 1 <= i < |table| ==> table[i] == table[1..][i - 1];
    if r.Some? {
      var k :| 0 <= k < |table[1..]| && table[1..][k].key == r.value && MatchesName(table[1..][k].station, u)
        && forall j :: 0 <= j < k ==> !MatchesName(table[1..][j].station, u);
      assert table[k + 1] == table[1..][k];
    }
  }

  /**
   * `resolveStation(arg)`: nothing for an empty argument; the uppercased
   * argument when it is a station key; otherwise the first station whose
   * city, Kalshi city or ticker series matches. A result is always a key.
   */
  function ResolveStation(table: StationTable, arg: string): (r: Option<string>)
    ensures arg == [] ==> r.None?
    ensures arg != [] && Lookup(table, ToUpper(arg)).Some? ==> r == Some(ToUpper(arg))
    ensures r.Some? ==> Lookup(table, r.value).Some?
  {
    if arg == [] then None
    else
      var u := ToUpper(arg);
      if Lookup(table, u).Some? then Some(u) else FirstMatch(table, u)
  }
}
