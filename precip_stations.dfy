// Reference data for the rain markets: the six stations with their Kalshi
// series, market type, climatological rain probabilities and monthly
// totals, the tradeable subset, and the lookups built on them.

module PrecipStations {
  import opened Prelude
  import opened Text

  datatype MarketType = DailyBinary | MonthlyThreshold

  datatype PrecipStation = PrecipStation(
    city: string,
    kalshiSeries: Option<string>,
    marketType: MarketType,
    climRainProb: map<int, real>,
    climMonthlyMean: map<int, real>,
    climMonthlyStd: map<int, real>,
    gammaShapePrior: Option<real>,
    tier: string)

  datatype PrecipEntry = PrecipEntry(key: string, station: PrecipStation)

  /** A station table in key order, as `Object.entries` lists it. */
  type PrecipTable = seq<PrecipEntry>

  /** A month-number object `{ 1: …, …, 12: … }`. */
  function Months(v: seq<real>): (m: map<int, real>)
    requires |v| == 12
    ensures forall k :: k in m <==> 1 <= k <= 12
    ensures forall k :: k in m ==> m[k] == v[k - 1]
  {
    map[1 := v[0], 2 := v[1], 3 := v[2], 4 := v[3], 5 := v[4], 6 := v[5],
        7 := v[6], 8 := v[7], 9 := v[8], 10 := v[9], 11 := v[10], 12 := v[11]]
  }

  const NycDaily := PrecipStation("NYC", Some("KXRAINNYC"), DailyBinary,
    Months([0.35, 0.33, 0.35, 0.36, 0.35, 0.36, 0.33, 0.32, 0.30, 0.30, 0.32, 0.35]),
    map[], map[], None, "A")
  const DenMonthly := PrecipStation("DEN", Some("KXRAINDENM"), MonthlyThreshold, map[],
    Months([0.45, 0.42, 1.28, 1.93, 2.32, 1.86, 2.17, 1.82, 1.14, 0.99, 0.79, 0.54]),
    Months([0.45, 0.42, 0.95, 1.20, 1.30, 1.20, 1.40, 1.20, 0.90, 0.80, 0.65, 0.50]),
    Some(1.2), "B")
  const ChiMonthly := PrecipStation("CHI", Some("KXRAINCHIM"), MonthlyThreshold, map[],
    Months([2.05, 1.88, 2.71, 3.57, 4.33, 4.10, 4.09, 4.01, 3.29, 3.22, 3.01, 2.36]),
    Months([1.30, 1.20, 1.50, 1.80, 2.00, 2.20, 2.30, 2.20, 1.80, 1.70, 1.60, 1.40]),
    Some(2.5), "B")
  const SfoMonthly := PrecipStation("SFO", Some("KXRAINSFOM"), MonthlyThreshold, map[],
    Months([4.40, 4.01, 3.26, 1.46, 0.70, 0.16, 0.01, 0.07, 0.21, 1.04, 2.52, 4.44]),
    Months([3.50, 3.20, 2.80, 1.40, 0.80, 0.30, 0.05, 0.15, 0.40, 1.20, 2.40, 3.60]),
    Some(1.5), "A")
  const AusMonthly := PrecipStation("AUS", Some("KXRAINAUSM"), MonthlyThreshold, map[],
    Months([2.24, 1.89, 2.34, 2.97, 4.68, 4.42, 1.97, 2.43, 3.39, 3.91, 2.61, 2.36]),
    Months([1.80, 1.70, 2.00, 2.30, 3.20, 3.50, 1.80, 2.20, 3.00, 3.50, 2.30, 2.00]),
    Some(1.8), "C")
  const DalMonthly := PrecipStation("DAL", Some("KXRAINDALM"), MonthlyThreshold, map[],
    Months([2.26, 2.62, 3.23, 3.39, 4.87, 3.84, 2.12, 2.19, 3.06, 4.55, 2.81, 2.64]),
    Months([1.80, 2.00, 2.30, 2.50, 3.30, 3.00, 1.80, 2.00, 2.80, 3.50, 2.20, 2.10]),
    Some(1.8), "C")

  /** PRECIP_STATIONS */
  const Stations: PrecipTable := [
    PrecipEntry("NYC_DAILY", NycDaily),
    PrecipEntry("DEN_MONTHLY", DenMonthly),
    PrecipEntry("CHI_MONTHLY", ChiMonthly),
    PrecipEntry("SFO_MONTHLY", SfoMonthly),
    PrecipEntry("AUS_MONTHLY", AusMonthly),
    PrecipEntry("DAL_MONTHLY", DalMonthly)
  ]

  /** PRECIP_TRADEABLE */
  const Tradeable: set<string> := {"NYC_DAILY", "SFO_MONTHLY", "DEN_MONTHLY", "CHI_MONTHLY"}

  /** `PRECIP_STATIONS[key]` */
  function Lookup(table: PrecipTable, key: string): (r: Option<PrecipStation>)
    ensures r.Some? <==> exists i :: 0 <= i < |table| && table[i].key == key
    ensures r.Some? ==> exists i :: 0 <= i < |table| && table[i] == PrecipEntry(key, r.value)
  {
    if table == [] then None
    else if table[0].key == key then Some(table[0].station)
    else
      var r := Lookup(table[1..], key);
      assert forall i :: 1 <= i < |table| ==> table[i] == table[1..][i - 1];
      assert r.Some? ==> exists i :: 0 <= i < |table| && table[i] == PrecipEntry(key, r.value) by {
        if r.Some? {
          var i :| 0 <= i < |table[1..]| && table[1..][i] == PrecipEntry(key, r.value);
          assert table[i + 1] == table[1..][i];
        }
      }
      r
  }

  /** Every tradeable station is a station of the table. */
  lemma TradeableAreStations()
    ensures forall k :: k in Tradeable ==> Lookup(Stations, k).Some?
  {
    assert Stations[0].key == "NYC_DAILY";
    assert Stations[1].key == "DEN_MONTHLY";
    assert Stations[2].key == "CHI_MONTHLY";
    assert Stations[3].key == "SFO_MONTHLY";
  }

  // ------------------------------------------------------------------ resolve

  /** `v.city === u || v.kalshiSeries === u || v.kalshiSeries?.toUpperCase() === u` */
  predicate ExactName(s: PrecipStation, u: string)
  {
    s.city == u || s.kalshiSeries == Some(u) || (s.kalshiSeries.Some? && ToUpper(s.kalshiSeries.value) == u)
  }

  /** `u.includes(v.city) || v.kalshiSeries?.includes(u)` */
  predicate PartialName(s: PrecipStation, u: string)
  {
    Contains(u, s.city) || (s.kalshiSeries.Some? && Contains(s.kalshiSeries.value, u))
  }

  predicate NameMatches(s: PrecipStation, u: string, partial: bool)
  {
    if partial then PartialName(s, u) else ExactName(s, u)
  }

  /** The key of the first station (in table order) whose names match `u`. */
  function FirstMatch(table: PrecipTable, u: string, partial: bool): (r: Option<string>)
    ensures r.Some? ==> exists i :: (0 <= i < |table| && table[i].key == r.value && NameMatches(table[i].station, u, partial)
      && forall j :: 0 <= j < i ==> !NameMatches(table[j].station, u, partial))
    ensures r.None? <==> forall i :: 0 <= i < |table| ==> !NameMatches(table[i].station, u, partial)
  {
    if table == [] then None
    else if NameMatches(table[0].station, u, partial) then Some(table[0].key)
    else
      var r := FirstMatch(table[1..], u, partial);
      FirstMatchAfterHead(table, u, partial, r);
      r
  }

  /** A first match in the tail, after a head that does not match, is the first match of the table. */
  lemma FirstMatchAfterHead(table: PrecipTable, u: string, partial: bool, r: Option<string>)
    requires table != [] && !NameMatches(table[0].station, u, partial)
    requires r.Some? ==> exists i :: (0 <= i < |table[1..]| && table[1..][i].key == r.value && NameMatches(table[1..][i].station, u, partial)
      && forall j :: 0 <= j < i ==> !NameMatches(table[1..][j].station, u, partial))
    requires r.None? <==> forall i :: 0 <= i < |table[1..]| ==> !NameMatches(table[1..][i].station, u, partial)
    ensures r.Some? ==> exists i :: (0 <= i < |table| && table[i].key == r.value && NameMatches(table[i].station, u, partial)
      && forall j :: 0 <= j < i ==> !NameMatches(table[j].station, u, partial))
    ensures r.None? <==> forall i :: 0 <= i < |table| ==> !NameMatches(table[i].station, u, partial)
  {
    assert forall i :: 1 <= i < |table| ==> table[i] == table[1..][i - 1];
    if r.Some? {
      var k :| 0 <= k < |table[1..]| && table[1..][k].key == r.value && NameMatches(table[1..][k].station, u, partial)
        && forall j :: 0 <= j < k ==> !NameMatches(table[1..][j].station, u, partial);
      assert table[k + 1] == table[1..][k];
    }
  }

  /**
   * `resolvePrecipStation(arg)`: nothing for an empty argument; the
   * uppercased argument when it is a key; else the first station named
   * exactly by it; else the first station it partially names; else nothing.
   */
  function ResolvePrecipStation(table: PrecipTable, arg: string): (r: Option<string>)
    ensures arg == [] ==> r.None?
    ensures arg != [] && Lookup(table, ToUpper(arg)).Some? ==> r == Some(ToUpper(arg))
    ensures arg != [] && Lookup(table, ToUpper(arg)).None? && FirstMatch(table, ToUpper(arg), false).Some? ==>
      r == FirstMatch(table, ToUpper(arg), false)
    ensures arg != [] && Lookup(table, ToUpper(arg)).None? && FirstMatch(table, ToUpper(arg), false).None? ==>
      r == FirstMatch(table, ToUpper(arg), true)
  {
    if arg == [] then None
    else
      var u := ToUpper(arg);
      if Lookup(table, u).Some? then Some(u)
      else if FirstMatch(table, u, false).Some? then FirstMatch(table, u, false)
      else FirstMatch(table, u, true)
  }

  /** A resolved name is always a key of the table. */
  lemma ResolvedIsKey(table: PrecipTable, arg: string)
    ensures var r := ResolvePrecipStation(table, arg);
      r.Some? ==> Lookup(table, r.value).Some?
  {
    var r := ResolvePrecipStation(table, arg);
    if r.Some? && arg != [] && Lookup(table, ToUpper(arg)).None? {
      var u := ToUpper(arg);
      var partial := FirstMatch(table, u, false).None?;
      var i :| 0 <= i < |table| && table[i].key == r.value && NameMatches(table[i].station, u, partial);
    }
  }

  // ------------------------------------------------------------ climatology

  /** Rain probability used when a station or month has none. */
  const DefaultRainProb: real := 0.33

  /** `getClimRainProb(stationKey, month)` */
  function ClimRainProb(table: PrecipTable, key: string, month: int): (r: real)
    ensures Lookup(table, key).None? ==> r == DefaultRainProb
    ensures Lookup(table, key).Some? && month in Lookup(table, key).value.climRainProb ==>
      r == Lookup(table, key).value.climRainProb[month]
    ensures Lookup(table, key).Some? && month !in Lookup(table, key).value.climRainProb ==> r == DefaultRainProb
  {
    match Lookup(table, key)
    case None => DefaultRainProb
    case Some(s) => if month in s.climRainProb then s.climRainProb[month] else DefaultRainProb
  }

  datatype ClimMonthly = ClimMonthly(mean: real, std: real, gammaShape: real)

  /** `getClimMonthly(stationKey, month)`: each part falls back on its own default. */
  function GetClimMonthly(table: PrecipTable, key: string, month: int): (r: ClimMonthly)
    ensures Lookup(table, key).None? ==> r == ClimMonthly(2.0, 1.5, 2.0)
    ensures Lookup(table, key).Some? ==>
      var s := Lookup(table, key).value;
      && r.mean == (if month in s.climMonthlyMean then s.climMonthlyMean[month] else 2.0)
      && r.std == (if month in s.climMonthlyStd then s.climMonthlyStd[month] else 1.5)
      && r.gammaShape == s.gammaShapePrior.GetOr(2.0)
  {
    match Lookup(table, key)
    case None => ClimMonthly(2.0, 1.5, 2.0)
    case Some(s) =>
      ClimMonthly(
        if month in s.climMonthlyMean then s.climMonthlyMean[month] else 2.0,
        if month in s.climMonthlyStd then s.climMonthlyStd[month] else 1.5,
        s.gammaShapePrior.GetOr(2.0))
  }

  /**
   * A station's climatology is usable: rain probabilities between 30% and
   * 36%, and positive monthly means, deviations and shape.
   */
  predicate SaneClimate(s: PrecipStation)
  {
    && (forall m :: m in s.climRainProb ==> 0.30 <= s.climRainProb[m] <= 0.36)
    && (forall m :: m in s.climMonthlyMean ==> s.climMonthlyMean[m] > 0.0)
    && (forall m :: m in s.climMonthlyStd ==> s.climMonthlyStd[m] > 0.0)
    && (s.gammaShapePrior.Some? ==> s.gammaShapePrior.value > 0.0)
  }

  predicate AllWithin(v: seq<real>, lo: real, hi: real)
  {
    forall i :: 0 <= i < |v| ==> lo <= v[i] <= hi
  }

  lemma MonthsWithin(v: seq<real>, lo: real, hi: real)
    requires |v| == 12 && AllWithin(v, lo, hi)
    ensures forall k :: k in Months(v) ==> lo <= Months(v)[k] <= hi
  {
  }

  lemma NycSane()
    ensures SaneClimate(NycDaily)
  {
    MonthsWithin([0.35, 0.33, 0.35, 0.36, 0.35, 0.36, 0.33, 0.32, 0.30, 0.30, 0.32, 0.35], 0.30, 0.36);
  }

  lemma DenSane()
    ensures SaneClimate(DenMonthly)
  {
    MonthsWithin([0.45, 0.42, 1.28, 1.93, 2.32, 1.86, 2.17, 1.82, 1.14, 0.99, 0.79, 0.54], 0.01, 5.0);
    MonthsWithin([0.45, 0.42, 0.95, 1.20, 1.30, 1.20, 1.40, 1.20, 0.90, 0.80, 0.65, 0.50], 0.01, 5.0);
  }

  lemma ChiSane()
    ensures SaneClimate(ChiMonthly)
  {
    MonthsWithin([2.05, 1.88, 2.71, 3.57, 4.33, 4.10, 4.09, 4.01, 3.29, 3.22, 3.01, 2.36], 0.01, 5.0);
    MonthsWithin([1.30, 1.20, 1.50, 1.80, 2.00, 2.20, 2.30, 2.20, 1.80, 1.70, 1.60, 1.40], 0.01, 5.0);
  }

  lemma SfoSane()
    ensures SaneClimate(SfoMonthly)
  {
    MonthsWithin([4.40, 4.01, 3.26, 1.46, 0.70, 0.16, 0.01, 0.07, 0.21, 1.04, 2.52, 4.44], 0.01, 5.0);
    MonthsWithin([3.50, 3.20, 2.80, 1.40, 0.80, 0.30, 0.05, 0.15, 0.40, 1.20, 2.40, 3.60], 0.01, 5.0);
  }

  lemma AusSane()
    ensures SaneClimate(AusMonthly)
  {
    MonthsWithin([2.24, 1.89, 2.34, 2.97, 4.68, 4.42, 1.97, 2.43, 3.39, 3.91, 2.61, 2.36], 0.01, 5.0);
    MonthsWithin([1.80, 1.70, 2.00, 2.30, 3.20, 3.50, 1.80, 2.20, 3.00, 3.50, 2.30, 2.00], 0.01, 5.0);
  }

  lemma DalSane()
    ensures SaneClimate(DalMonthly)
  {
    MonthsWithin([2.26, 2.62, 3.23, 3.39, 4.87, 3.84, 2.12, 2.19, 3.06, 4.55, 2.81, 2.64], 0.01, 5.0);
    MonthsWithin([1.80, 2.00, 2.30, 2.50, 3.30, 3.00, 1.80, 2.00, 2.80, 3.50, 2.20, 2.10], 0.01, 5.0);
  }

  /** Every station of PRECIP_STATIONS has a usable climatology. */
  lemma StationsSane()
    ensures forall i :: 0 <= i < |Stations| ==> SaneClimate(Stations[i].station)
  {
    forall i | 0 <= i < |Stations|
      ensures SaneClimate(Stations[i].station)
    {
      if i == 0 { NycSane(); }
      else if i == 1 { DenSane(); }
      else if i == 2 { ChiSane(); }
      else if i == 3 { SfoSane(); }
      else if i == 4 { AusSane(); }
      else { DalSane(); }
    }
  }

  /**
   * For a table of usable climatologies (PRECIP_STATIONS is one), for any
   * key and any month, the rain probability lies between 30% and 36%, and
   * the monthly climatology has a positive mean, standard deviation and
   * shape, the defaults included.
   */
  lemma ClimatologyInRange(table: PrecipTable, key: string, month: int)
    requires forall i :: 0 <= i < |table| ==> SaneClimate(table[i].station)
    ensures 0.30 <= ClimRainProb(table, key, month) <= 0.36
    ensures var c := GetClimMonthly(table, key, month);
      c.mean > 0.0 && c.std > 0.0 && c.gammaShape > 0.0
  {
    var s := Lookup(table, key);
    if s.Some? {
      var i :| 0 <= i < |table| && table[i] == PrecipEntry(key, s.value);
      assert SaneClimate(s.value);
    }
  }
}
