// The O'Hare delay model: a weather severity score built factor by factor,
// its category and multiplier, and the clamped, rounded probability of a
// significant delay day with its confidence and trading signal.

module FlightModel {
  import opened Prelude
  import opened Utils
  import FlightData

  /** The day's weather as the forecast fetch summarises it. */
  datatype Weather = Weather(
    maxWindMph: real,
    totalSnowCm: real,
    minVisibilityM: real,
    hasThunderstorm: bool,
    hasFreezingRain: bool,
    hasFog: bool,
    totalPrecipMm: real)

  /** One reason the score went up, with the reading it names. */
  datatype Factor =
    | ExtremeWind(mph: real) | HighWind(mph: real) | ModerateWind(mph: real) | LightWind(mph: real)
    | HeavySnow(cm: real) | ModerateSnow(cm: real) | LightSnow(cm: real) | TraceSnow
    | VeryLowVisibility(m: real) | LowVisibility(m: real) | ReducedVisibility(m: real) | MarginalVisibility
    | Thunderstorms | FreezingRain | Fog | HeavyRain(mm: real)

  /** What each factor adds to the score. */
  function Points(f: Factor): (r: int)
    ensures r > 0
  {
    match f
    case ExtremeWind(_) => 40
    case HighWind(_) => 25
    case ModerateWind(_) => 12
    case LightWind(_) => 3
    case HeavySnow(_) => 50
    case ModerateSnow(_) => 30
    case LightSnow(_) => 15
    case TraceSnow => 5
    case VeryLowVisibility(_) => 35
    case LowVisibility(_) => 20
    case ReducedVisibility(_) => 10
    case MarginalVisibility => 3
    case Thunderstorms => 30
    case FreezingRain => 45
    case Fog => 15
    case HeavyRain(_) => 10
  }

  predicate IsWind(f: Factor) { f.ExtremeWind? || f.HighWind? || f.ModerateWind? || f.LightWind? }
  predicate IsSnow(f: Factor) { f.HeavySnow? || f.ModerateSnow? || f.LightSnow? || f.TraceSnow? }
  predicate IsVisibility(f: Factor)
  {
    f.VeryLowVisibility? || f.LowVisibility? || f.ReducedVisibility? || f.MarginalVisibility?
  }

  function SumPoints(fs: seq<Factor>): int
  {
    if fs == [] then 0 else SumPoints(fs[..|fs| - 1]) + Points(fs[|fs| - 1])
  }

  // ------------------------------------------------------------ the score, tier by tier

  function WindPoints(mph: real): int
  {
    if mph >= 50.0 then 40 else if mph >= 40.0 then 25 else if mph >= 30.0 then 12 else if mph >= 20.0 then 3 else 0
  }

  function SnowPoints(cm: real): int
  {
    if cm >= 15.0 then 50 else if cm >= 5.0 then 30 else if cm >= 1.0 then 15 else if cm > 0.0 then 5 else 0
  }

  function VisibilityPoints(m: real): int
  {
    if m < 200.0 then 35 else if m < 800.0 then 20 else if m < 1600.0 then 10 else if m < 5000.0 then 3 else 0
  }

  /** Heavy rain counts only when there is no thunderstorm. */
  predicate HeavyRainCounts(wx: Weather)
  {
    wx.totalPrecipMm >= 20.0 && !wx.hasThunderstorm
  }

  /** The severity score: one tier each of wind, snow and visibility, plus the fixed hazards. */
  function ScoreOf(wx: Weather): int
  {
    WindPoints(wx.maxWindMph) + SnowPoints(wx.totalSnowCm) + VisibilityPoints(wx.minVisibilityM)
    + (if wx.hasThunderstorm then 30 else 0) + (if wx.hasFreezingRain then 45 else 0)
    + (if wx.hasFog then 15 else 0) + (if HeavyRainCounts(wx) then 10 else 0)
  }

  function WindFactors(mph: real): seq<Factor>
  {
    if mph >= 50.0 then [ExtremeWind(mph)] else if mph >= 40.0 then [HighWind(mph)]
    else if mph >= 30.0 then [ModerateWind(mph)] else if mph >= 20.0 then [LightWind(mph)] else []
  }

  function SnowFactors(cm: real): seq<Factor>
  {
    if cm >= 15.0 then [HeavySnow(cm)] else if cm >= 5.0 then [ModerateSnow(cm)]
    else if cm >= 1.0 then [LightSnow(cm)] else if cm > 0.0 then [TraceSnow] else []
  }

  function VisibilityFactors(m: real): seq<Factor>
  {
    if m < 200.0 then [VeryLowVisibility(m)] else if m < 800.0 then [LowVisibility(m)]
    else if m < 1600.0 then [ReducedVisibility(m)] else if m < 5000.0 then [MarginalVisibility] else []
  }

  function PushIf(fs: seq<Factor>, cond: bool, f: Factor): seq<Factor>
  {
    if cond then fs + [f] else fs
  }

  /** Thunderstorm, freezing rain, fog and heavy rain, in that order, each when it applies. */
  function HazardFactors(wx: Weather): seq<Factor>
  {
    var t := PushIf([], wx.hasThunderstorm, Thunderstorms);
    var f := PushIf(t, wx.hasFreezingRain, FreezingRain);
    var g := PushIf(f, wx.hasFog, Fog);
    PushIf(g, HeavyRainCounts(wx), HeavyRain(wx.totalPrecipMm))
  }

  /** The factor list in the order the checks run. */
  function FactorsOf(wx: Weather): seq<Factor>
  {
    WindFactors(wx.maxWindMph) + SnowFactors(wx.totalSnowCm) + VisibilityFactors(wx.minVisibilityM) + HazardFactors(wx)
  }

  datatype Category = Clear | Moderate | Severe | Extreme

  /** Extreme from 60, severe from 35, moderate from 15. */
  function CategoryOf(score: int): Category
  {
    if score >= 60 then Extreme else if score >= 35 then Severe else if score >= 15 then Moderate else Clear
  }

  function Rank(c: Category): nat
  {
    match c
    case Clear => 0
    case Moderate => 1
    case Severe => 2
    case Extreme => 3
  }

  datatype Severity = Severity(category: Category, score: int, factors: seq<Factor>)

  /**
   * `classifyWeatherSeverity`: each check that fires adds its points to the
   * score and pushes its factor, and the total picks the category.
   */
  method ClassifyWeatherSeverity(wx: Weather) returns (s: Severity)
    ensures s.score == ScoreOf(wx)
    ensures s.factors == FactorsOf(wx)
    ensures s.category == CategoryOf(s.score)
  {
    var score := 0;
    var factors: seq<Factor> := [];
    score, factors := AddWind(score, factors, wx.maxWindMph);
    score, factors := AddSnow(score, factors, wx.totalSnowCm);
    score, factors := AddVisibility(score, factors, wx.minVisibilityM);
    score, factors := AddHazards(score, factors, wx);
    assert factors == FactorsOf(wx);

    var category;
    if score >= 60 { category := Extreme; }
    else if score >= 35 { category := Severe; }
    else if score >= 15 { category := Moderate; }
    else { category := Clear; }
    s := Severity(category, score, factors);
  }

  /** The wind tiers: at most one fires. */
  method AddWind(score: int, factors: seq<Factor>, w: real) returns (score': int, factors': seq<Factor>)
    ensures score' == score + WindPoints(w) && factors' == factors + WindFactors(w)
  {
    score', factors' := score, factors;
    if w >= 50.0 { score' := score' + 40; factors' := factors' + [ExtremeWind(w)]; }
    else if w >= 40.0 { score' := score' + 25; factors' := factors' + [HighWind(w)]; }
    else if w >= 30.0 { score' := score' + 12; factors' := factors' + [ModerateWind(w)]; }
    else if w >= 20.0 { score' := score' + 3; factors' := factors' + [LightWind(w)]; }
  }

  /** The snow tiers: even a trace counts. */
  method AddSnow(score: int, factors: seq<Factor>, c: real) returns (score': int, factors': seq<Factor>)
    ensures score' == score + SnowPoints(c) && factors' == factors + SnowFactors(c)
  {
    score', factors' := score, factors;
    if c >= 15.0 { score' := score' + 50; factors' := factors' + [HeavySnow(c)]; }
    else if c >= 5.0 { score' := score' + 30; factors' := factors' + [ModerateSnow(c)]; }
    else if c >= 1.0 { score' := score' + 15; factors' := factors' + [LightSnow(c)]; }
    else if c > 0.0 { score' := score' + 5; factors' := factors' + [TraceSnow]; }
  }

  /** The visibility tiers, in metres. */
  method AddVisibility(score: int, factors: seq<Factor>, v: real) returns (score': int, factors': seq<Factor>)
    ensures score' == score + VisibilityPoints(v) && factors' == factors + VisibilityFactors(v)
  {
    score', factors' := score, factors;
    if v < 200.0 { score' := score' + 35; factors' := factors' + [VeryLowVisibility(v)]; }
    else if v < 800.0 { score' := score' + 20; factors' := factors' + [LowVisibility(v)]; }
    else if v < 1600.0 { score' := score' + 10; factors' := factors' + [ReducedVisibility(v)]; }
    else if v < 5000.0 { score' := score' + 3; factors' := factors' + [MarginalVisibility]; }
  }

  /** Thunderstorm, freezing rain, fog, and heavy rain only without a thunderstorm. */
  method AddHazards(score: int, factors: seq<Factor>, wx: Weather) returns (score': int, factors': seq<Factor>)
    ensures score' == score + (if wx.hasThunderstorm then 30 else 0) + (if wx.hasFreezingRain then 45 else 0)
      + (if wx.hasFog then 15 else 0) + (if HeavyRainCounts(wx) then 10 else 0)
    ensures factors' == factors + HazardFactors(wx)
  {
    score', factors' := score, factors;
    ghost var hazards: seq<Factor> := [];
    if wx.hasThunderstorm { score' := score' + 30; factors' := factors' + [Thunderstorms]; }
    hazards := PushIf(hazards, wx.hasThunderstorm, Thunderstorms);
    assert factors' == factors + hazards;
    if wx.hasFreezingRain {
      score' := score' + 45;
      assert (factors + hazards) + [FreezingRain] == factors + (hazards + [FreezingRain]);
      factors' := factors' + [FreezingRain];
    }
    hazards := PushIf(hazards, wx.hasFreezingRain, FreezingRain);
    if wx.hasFog {
      score' := score' + 15;
      assert (factors + hazards) + [Fog] == factors + (hazards + [Fog]);
      factors' := factors' + [Fog];
    }
    hazards := PushIf(hazards, wx.hasFog, Fog);
    if wx.totalPrecipMm >= 20.0 && !wx.hasThunderstorm {
      score' := score' + 10;
      assert (factors + hazards) + [HeavyRain(wx.totalPrecipMm)] == factors + (hazards + [HeavyRain(wx.totalPrecipMm)]);
      factors' := factors' + [HeavyRain(wx.totalPrecipMm)];
    }
    hazards := PushIf(hazards, HeavyRainCounts(wx), HeavyRain(wx.totalPrecipMm));
  }

  // ------------------------------------------------------------ properties of the score

  lemma {:induction false} SumPointsAppend(a: seq<Factor>, b: seq<Factor>)
    ensures SumPoints(a + b) == SumPoints(a) + SumPoints(b)
    decreases |b|
  {
    if b == [] {
      assert a + b == a;
    } else {
      assert (a + b)[..|a + b| - 1] == a + b[..|b| - 1];
      SumPointsAppend(a, b[..|b| - 1]);
    }
  }

  lemma TierTotals(wx: Weather)
    ensures SumPoints(WindFactors(wx.maxWindMph)) == WindPoints(wx.maxWindMph)
    ensures SumPoints(SnowFactors(wx.totalSnowCm)) == SnowPoints(wx.totalSnowCm)
    ensures SumPoints(VisibilityFactors(wx.minVisibilityM)) == VisibilityPoints(wx.minVisibilityM)
  {
    OneFactor(WindFactors(wx.maxWindMph));
    OneFactor(SnowFactors(wx.totalSnowCm));
    OneFactor(VisibilityFactors(wx.minVisibilityM));
  }

  lemma OneFactor(fs: seq<Factor>)
    requires |fs| <= 1
    ensures SumPoints(fs) == if fs == [] then 0 else Points(fs[0])
  {
    if fs != [] {
      assert fs[..0] == [];
    }
  }

  lemma PushIfPoints(fs: seq<Factor>, cond: bool, f: Factor)
    ensures SumPoints(PushIf(fs, cond, f)) == SumPoints(fs) + (if cond then Points(f) else 0)
  {
    if cond {
      assert (fs + [f])[..|fs|] == fs;
    }
  }

  lemma HazardTotal(wx: Weather)
    ensures SumPoints(HazardFactors(wx)) == (if wx.hasThunderstorm then 30 else 0) + (if wx.hasFreezingRain then 45 else 0)
      + (if wx.hasFog then 15 else 0) + (if HeavyRainCounts(wx) then 10 else 0)
  {
    var t := PushIf([], wx.hasThunderstorm, Thunderstorms);
    var f := PushIf(t, wx.hasFreezingRain, FreezingRain);
    var g := PushIf(f, wx.hasFog, Fog);
    PushIfPoints([], wx.hasThunderstorm, Thunderstorms);
    PushIfPoints(t, wx.hasFreezingRain, FreezingRain);
    PushIfPoints(f, wx.hasFog, Fog);
    PushIfPoints(g, HeavyRainCounts(wx), HeavyRain(wx.totalPrecipMm));
  }

  /** Every point of the score is accounted for by exactly one pushed factor. */
  lemma ScoreIsFactorTotal(wx: Weather)
    ensures ScoreOf(wx) == SumPoints(FactorsOf(wx))
  {
    var wind, snow, vis := WindFactors(wx.maxWindMph), SnowFactors(wx.totalSnowCm), VisibilityFactors(wx.minVisibilityM);
    SumPointsAppend(wind, snow);
    SumPointsAppend(wind + snow, vis);
    SumPointsAppend(wind + snow + vis, HazardFactors(wx));
    TierTotals(wx);
    HazardTotal(wx);
  }

  /** Which positions of the factor list hold a wind, a snow and a visibility factor. */
  lemma FactorPositions(wx: Weather)
    ensures var fs := FactorsOf(wx);
      var nw, ns, nv := |WindFactors(wx.maxWindMph)|, |SnowFactors(wx.totalSnowCm)|, |VisibilityFactors(wx.minVisibilityM)|;
      && nw <= 1 && ns <= 1 && nv <= 1
      && (forall i :: 0 <= i < |fs| ==> (IsWind(fs[i]) <==> i < nw))
      && (forall i :: 0 <= i < |fs| ==> (IsSnow(fs[i]) <==> nw <= i < nw + ns))
      && (forall i :: 0 <= i < |fs| ==> (IsVisibility(fs[i]) <==> nw + ns <= i < nw + ns + nv))
  {
    var wind, snow, vis, hz := WindFactors(wx.maxWindMph), SnowFactors(wx.totalSnowCm), VisibilityFactors(wx.minVisibilityM), HazardFactors(wx);
    assert forall i :: 0 <= i < |wind| ==> IsWind(wind[i]);
    assert forall i :: 0 <= i < |snow| ==> IsSnow(snow[i]);
    assert forall i :: 0 <= i < |vis| ==> IsVisibility(vis[i]);
    assert forall i :: 0 <= i < |hz| ==> !IsWind(hz[i]) && !IsSnow(hz[i]) && !IsVisibility(hz[i]);
  }

  /**
   * Wind, snow and visibility each contribute at most one factor, and heavy
   * rain appears only without a thunderstorm.
   */
  lemma OneTierEach(wx: Weather)
    ensures var fs := FactorsOf(wx);
      && (forall i, j :: 0 <= i < j < |fs| ==> !(IsWind(fs[i]) && IsWind(fs[j])))
      && (forall i, j :: 0 <= i < j < |fs| ==> !(IsSnow(fs[i]) && IsSnow(fs[j])))
      && (forall i, j :: 0 <= i < j < |fs| ==> !(IsVisibility(fs[i]) && IsVisibility(fs[j])))
      && ((exists i :: 0 <= i < |fs| && fs[i].HeavyRain?) <==> HeavyRainCounts(wx))
  {
    var fs := FactorsOf(wx);
    FactorPositions(wx);
    var pre := WindFactors(wx.maxWindMph) + SnowFactors(wx.totalSnowCm) + VisibilityFactors(wx.minVisibilityM);
    var hz := HazardFactors(wx);
    assert forall i :: 0 <= i < |pre| ==> !pre[i].HeavyRain?;
    assert forall i :: 0 <= i < |hz| ==> (hz[i].HeavyRain? <==> HeavyRainCounts(wx) && i == |hz| - 1);
    assert forall i :: 0 <= i < |fs| ==> fs[i] == (pre + hz)[i];
    if HeavyRainCounts(wx) {
      assert fs[|fs| - 1].HeavyRain?;
    }
  }

  /** The score lies between 0 (no factor) and 215, and is 0 exactly when nothing was pushed. */
  lemma ScoreBounds(wx: Weather)
    ensures 0 <= ScoreOf(wx) <= 215
    ensures ScoreOf(wx) == 0 <==> FactorsOf(wx) == []
  {
  }

  /** Worse readings on every count, and the same thunderstorm or a new one. */
  predicate Worse(a: Weather, b: Weather)
  {
    && a.maxWindMph <= b.maxWindMph && a.totalSnowCm <= b.totalSnowCm && a.minVisibilityM >= b.minVisibilityM
    && (a.hasThunderstorm ==> b.hasThunderstorm) && (a.hasFreezingRain ==> b.hasFreezingRain)
    && (a.hasFog ==> b.hasFog) && a.totalPrecipMm <= b.totalPrecipMm
  }

  /**
   * Worse weather never scores lower nor falls in a milder category; a
   * thunderstorm that silences the heavy-rain points still adds more than
   * it takes away.
   */
  lemma SeverityMonotone(a: Weather, b: Weather)
    requires Worse(a, b)
    ensures ScoreOf(a) <= ScoreOf(b)
    ensures Rank(CategoryOf(ScoreOf(a))) <= Rank(CategoryOf(ScoreOf(b)))
  {
  }

  // ------------------------------------------------------------ the delay probability

  /** `weatherMultiplier`: 0.55, 1.30, 2.20 and 3.00 from clear to extreme. */
  function WeatherMultiplier(c: Category): (r: real)
    ensures 0.55 <= r <= 3.0
  {
    match c
    case Clear => 0.55
    case Moderate => 1.30
    case Severe => 2.20
    case Extreme => 3.00
  }

  lemma WeatherMultiplierMonotone(a: Category, b: Category)
    requires Rank(a) <= Rank(b)
    ensures WeatherMultiplier(a) <= WeatherMultiplier(b)
  {
  }

  /** The FAA status for the day, when one was fetched. */
  datatype FaaStatus = FaaStatus(hasDelay: bool, isClosed: bool)

  /** A closure counts 3.0 whether or not a ground delay is also active; a delay alone 1.8. */
  function FaaMultiplier(faa: Option<FaaStatus>): (r: real)
    ensures faa.Some? && faa.value.isClosed ==> r == 3.0
    ensures faa.Some? && !faa.value.isClosed && faa.value.hasDelay ==> r == 1.8
    ensures (faa.None? || (!faa.value.isClosed && !faa.value.hasDelay)) ==> r == 1.0
  {
    var m := if faa.Some? && faa.value.hasDelay then 1.8 else 1.0;
    if faa.Some? && faa.value.isClosed then 3.0 else m
  }

  const MinDelayProbability: real := 0.03
  const MaxDelayProbability: real := 0.97

  /** `Math.round(x * 1000) / 1000` */
  function Round3(x: real): real
  {
    Round(x * 1000.0) as real / 1000.0
  }

  /** The product clamped to [0.03, 0.97] and rounded to three decimals. */
  function ClampedProbability(product: real): (r: real)
    ensures MinDelayProbability <= r <= MaxDelayProbability
    ensures MinDelayProbability <= product <= MaxDelayProbability ==> -0.0005 <= r - product <= 0.0005
  {
    var clamped := MaxR(MinDelayProbability, MinR(MaxDelayProbability, product));
    assert 30.0 <= clamped * 1000.0 <= 970.0;
    RoundUnique(30.0, 30);
    RoundUnique(970.0, 970);
    RoundMonotone(30.0, clamped * 1000.0);
    RoundMonotone(clamped * 1000.0, 970.0);
    Round3(clamped)
  }

  lemma ClampedMonotone(p: real, q: real)
    requires p <= q
    ensures ClampedProbability(p) <= ClampedProbability(q)
  {
    var cp := MaxR(MinDelayProbability, MinR(MaxDelayProbability, p));
    var cq := MaxR(MinDelayProbability, MinR(MaxDelayProbability, q));
    RoundMonotone(cp * 1000.0, cq * 1000.0);
  }

  /** Confidence from the weather signal: 0.85 from a score of 30, 0.70 from 10, else 0.60. */
  function WeatherConfidence(score: int): real
  {
    if score >= 30 then 0.85 else if score >= 10 then 0.70 else 0.60
  }

  /** Eight points off per day ahead, never below one half. */
  function HorizonPenalty(horizonDays: int): (r: real)
    ensures 0.5 <= r
    ensures horizonDays >= 0 ==> r <= 1.0
  {
    MaxR(0.5, 1.0 - horizonDays as real * 0.08)
  }

  datatype Breakdown = Breakdown(
    baseRate: real,
    dowMultiplier: real,
    holidayMultiplier: real,
    weatherMultiplier: real,
    faaMultiplier: real,
    horizonDays: int,
    dayOfWeek: int)

  datatype DelayPrediction = DelayPrediction(pDelay: real, confidence: real, severity: Severity, breakdown: Breakdown)

  /** `getDay() || 7`: Sunday is day 7, and a date that does not parse reads as Sunday too. */
  function DayOfWeek(date: Option<CivilDate>): (r: int)
    requires date.Some? ==> ValidDate(date.value)
    ensures 1 <= r <= 7
  {
    match date
    case None => 7
    case Some(d) =>
      var w := FlightData.Weekday(d.year, d.month, d.day);
      if w == 0 then 7 else w
  }

  function MonthOf(date: Option<CivilDate>): Option<int>
  {
    match date
    case None => None
    case Some(d) => Some(d.month)
  }

  function DelayProduct(b: Breakdown): real
  {
    b.baseRate * b.dowMultiplier * b.holidayMultiplier * b.weatherMultiplier * b.faaMultiplier
  }

  /**
   * `predictDelayProbability` given the severity and the number of days
   * until the date (the clock is an input): base rate times day-of-week,
   * holiday, weather and FAA multipliers, clamped and rounded, with a
   * confidence from the weather signal and the forecast horizon.
   */
  function PredictDelay(sev: Severity, date: Option<CivilDate>, faa: Option<FaaStatus>, daysAhead: int): (r: DelayPrediction)
    requires date.Some? ==> ValidDate(date.value)
  {
    Predict(sev, BreakdownOf(sev.category, date, faa, daysAhead))
  }

  /** The prediction for a severity and the multipliers that go with it. */
  function Predict(sev: Severity, b: Breakdown): DelayPrediction
  {
    DelayPrediction(ClampedProbability(DelayProduct(b)), Round2(WeatherConfidence(sev.score) * HorizonPenalty(b.horizonDays)), sev, b)
  }

  function BreakdownOf(category: Category, date: Option<CivilDate>, faa: Option<FaaStatus>, daysAhead: int): (b: Breakdown)
    requires date.Some? ==> ValidDate(date.value)
    ensures b.baseRate > 0.0 && b.dowMultiplier > 0.0 && b.holidayMultiplier >= 1.0 && b.faaMultiplier >= 1.0
    ensures b.weatherMultiplier == WeatherMultiplier(category) && b.horizonDays >= 0
  {
    var dow := DayOfWeek(date);
    FlightData.HolidayAtLeastOne(date);
    Breakdown(FlightData.BaseRate(MonthOf(date)), FlightData.DowMultiplier(dow), FlightData.HolidayMultiplier(date),
      WeatherMultiplier(category), FaaMultiplier(faa), MaxI(0, daysAhead), dow)
  }

  /** The probability is never below 3% nor above 97%, and the confidence lies between 0.30 and 0.85. */
  lemma PredictionBounds(sev: Severity, date: Option<CivilDate>, faa: Option<FaaStatus>, daysAhead: int)
    requires date.Some? ==> ValidDate(date.value)
    ensures var r := PredictDelay(sev, date, faa, daysAhead);
      && MinDelayProbability <= r.pDelay <= MaxDelayProbability
      && 0.30 <= r.confidence <= 0.85
      && r.breakdown.horizonDays >= 0
  {
    var b := BreakdownOf(sev.category, date, faa, daysAhead);
    PredictBounds(sev, b);
  }

  lemma PredictBounds(sev: Severity, b: Breakdown)
    requires b.horizonDays >= 0
    ensures var r := Predict(sev, b);
      MinDelayProbability <= r.pDelay <= MaxDelayProbability && 0.30 <= r.confidence <= 0.85
  {
    ConfidenceBounds(sev.score, b.horizonDays);
  }

  lemma ConfidenceBounds(score: int, horizon: int)
    requires horizon >= 0
    ensures 0.30 <= Round2(WeatherConfidence(score) * HorizonPenalty(horizon)) <= 0.85
  {
    var wc, hp := WeatherConfidence(score), HorizonPenalty(horizon);
    ProductBetween(wc, hp, 0.60, 0.85, 0.5, 1.0);
    Round2Monotone(0.30, wc * hp);
    Round2Monotone(wc * hp, 0.85);
    Round2Exact(0.30);
    Round2Exact(0.85);
  }

  lemma ProductBetween(a: real, b: real, aLo: real, aHi: real, bLo: real, bHi: real)
    requires 0.0 <= aLo <= a <= aHi && 0.0 <= bLo <= b <= bHi
    ensures aLo * bLo <= a * b <= aHi * bHi
  {
    assert aLo * bLo <= a * bLo;
    assert a * bLo <= a * b;
    assert a * b <= aHi * b;
    assert aHi * b <= aHi * bHi;
  }

  /** A larger weather multiplier, everything else equal, gives a larger product. */
  lemma DelayProductMonotone(b: Breakdown, w: real)
    requires b.baseRate >= 0.0 && b.dowMultiplier >= 0.0 && b.holidayMultiplier >= 0.0 && b.faaMultiplier >= 0.0
    requires b.weatherMultiplier <= w
    ensures DelayProduct(b) <= DelayProduct(b.(weatherMultiplier := w))
  {
    var k := b.baseRate * b.dowMultiplier * b.holidayMultiplier;
    ProductBetween(b.baseRate, b.dowMultiplier, 0.0, b.baseRate, 0.0, b.dowMultiplier);
    ProductBetween(b.baseRate * b.dowMultiplier, b.holidayMultiplier, 0.0, b.baseRate * b.dowMultiplier, 0.0, b.holidayMultiplier);
    assert k * b.weatherMultiplier <= k * w;
    assert k * b.weatherMultiplier * b.faaMultiplier <= k * w * b.faaMultiplier;
  }

  /**
   * Worse weather never lowers the delay probability on the same date with
   * the same FAA status.
   */
  lemma WorseWeatherNoLowerDelay(a: Weather, b: Weather, date: Option<CivilDate>, faa: Option<FaaStatus>, daysAhead: int)
    requires date.Some? ==> ValidDate(date.value)
    requires Worse(a, b)
    ensures var sa := Severity(CategoryOf(ScoreOf(a)), ScoreOf(a), FactorsOf(a));
      var sb := Severity(CategoryOf(ScoreOf(b)), ScoreOf(b), FactorsOf(b));
      PredictDelay(sa, date, faa, daysAhead).pDelay <= PredictDelay(sb, date, faa, daysAhead).pDelay
  {
    var sa := Severity(CategoryOf(ScoreOf(a)), ScoreOf(a), FactorsOf(a));
    var sb := Severity(CategoryOf(ScoreOf(b)), ScoreOf(b), FactorsOf(b));
    SeverityMonotone(a, b);
    WeatherMultiplierMonotone(sa.category, sb.category);
    var ba := BreakdownOf(sa.category, date, faa, daysAhead);
    var bb := BreakdownOf(sb.category, date, faa, daysAhead);
    assert ba.(weatherMultiplier := bb.weatherMultiplier) == bb;
    DelayProductMonotone(ba, bb.weatherMultiplier);
    ClampedMonotone(DelayProduct(ba), DelayProduct(bb));
  }

  // ------------------------------------------------------------ the forecast

  datatype Signal = HighDelay | Elevated | Normal | LowDelay

  /** HIGH_DELAY from 50%, ELEVATED from 30%, NORMAL from 15%, else LOW_DELAY. */
  function SignalOf(pDelay: real): Signal
  {
    if pDelay >= 0.50 then HighDelay else if pDelay >= 0.30 then Elevated else if pDelay >= 0.15 then Normal else LowDelay
  }

  function SignalRank(s: Signal): nat
  {
    match s
    case LowDelay => 0
    case Normal => 1
    case Elevated => 2
    case HighDelay => 3
  }

  /** A higher delay probability never gives a calmer signal. */
  lemma SignalMonotone(p: real, q: real)
    requires p <= q
    ensures SignalRank(SignalOf(p)) <= SignalRank(SignalOf(q))
  {
  }

  datatype DelayForecast = DelayForecast(delay: DelayPrediction, signal: Signal)

  /**
   * `generateDelayForecast` for the delay probability: the severity is
   * classified, the probability predicted, and the signal read from it.
   */
  method GenerateDelayForecast(wx: Weather, date: Option<CivilDate>, faa: Option<FaaStatus>, daysAhead: int) returns (r: DelayForecast)
    requires date.Some? ==> ValidDate(date.value)
    ensures r.delay.severity == Severity(CategoryOf(ScoreOf(wx)), ScoreOf(wx), FactorsOf(wx))
    ensures r.delay == PredictDelay(r.delay.severity, date, faa, daysAhead)
    ensures MinDelayProbability <= r.delay.pDelay <= MaxDelayProbability
    ensures r.signal == HighDelay <==> r.delay.pDelay >= 0.50
    ensures r.signal == Elevated <==> 0.30 <= r.delay.pDelay < 0.50
    ensures r.signal == Normal <==> 0.15 <= r.delay.pDelay < 0.30
    ensures r.signal == LowDelay <==> r.delay.pDelay < 0.15
  {
    var sev := ClassifyWeatherSeverity(wx);
    var delay := PredictDelay(sev, date, faa, daysAhead);
    PredictionBounds(sev, date, faa, daysAhead);
    r := DelayForecast(delay, SignalOf(delay.pDelay));
  }
}
