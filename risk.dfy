// Risk management of the paper account: limits scaled to the balance, the
// daily P&L of trades placed on a day, the peak bankroll, open positions
// per station, the pre-trade risk check that collects every violated
// limit, and the status report built from them. Everything here reads a
// ledger snapshot and changes nothing.

module Risk {
  import opened Prelude
  import opened Text
  import opened Utils
  import opened Ledger

  /** RISK_LIMITS: the defaults, overridden by the `risk` section of config.json. */
  datatype RiskLimits = RiskLimits(
    maxDailyLossPct: real,
    maxOpenPositions: int,
    maxPositionPct: real,
    maxStationExposure: real,
    drawdownPct: real,
    peakBankroll: real,
    maxPerStation: int,
    initialBankroll: real)

  const DefaultRiskLimits := RiskLimits(0.05, 5, 0.05, 0.10, 0.20, 1000.0, 3, 1000.0)

  /** `getEffectiveRiskLimits`: the configured limits plus the two derived from the balance. */
  datatype EffectiveLimits = EffectiveLimits(limits: RiskLimits, maxDailyLoss: real, drawdownFloor: real)

  /** A drawdown percentage that is a fraction of the peak. */
  predicate FractionPct(p: real)
  {
    0.0 <= p <= 1.0
  }

  function EffectiveRiskLimits(limits: RiskLimits, balance: real): (r: EffectiveLimits)
    ensures r.limits == limits
    ensures balance >= 0.0 && limits.maxDailyLossPct >= 0.0 ==> r.maxDailyLoss <= 0.0
    ensures r.maxDailyLoss + balance * limits.maxDailyLossPct == 0.0
    ensures FractionPct(limits.drawdownPct) ==>
      r.drawdownFloor == MaxR(limits.peakBankroll * (1.0 - limits.drawdownPct), balance * (1.0 - limits.drawdownPct))
  {
    var peak := MaxR(limits.peakBankroll, balance);
    EffectiveLimits(limits, -(balance * limits.maxDailyLossPct), peak * (1.0 - limits.drawdownPct))
  }

  /**
   * The drawdown floor is recomputed from the balance on every call: a
   * balance at or above the configured peak is never below it.
   */
  lemma BreakerClearsAtPeak(limits: RiskLimits, balance: real)
    requires FractionPct(limits.drawdownPct) && balance >= 0.0 && balance >= limits.peakBankroll
    ensures balance >= EffectiveRiskLimits(limits, balance).drawdownFloor
  {
    var q := 1.0 - limits.drawdownPct;
    assert limits.peakBankroll * q <= balance * q <= balance;
  }

  // ------------------------------------------------------------ daily P&L

  /** `getDailyPnL(date)`: pnl of the settled trades whose timestamp starts with `date`. */
  function DailyPnL(ts: seq<Trade>, date: string): real
  {
    if ts == [] then 0.0
    else
      var t := ts[|ts| - 1];
      DailyPnL(ts[..|ts| - 1], date)
        + (if t.settled && StartsWith(t.timestamp, date) && t.pnl.Some? then t.pnl.value else 0.0)
  }

  /** Every timestamp starts with the empty date, so then the daily P&L is the total P&L. */
  lemma {:induction false} DailyPnLOfAllDays(ts: seq<Trade>)
    ensures DailyPnL(ts, "") == TotalPnL(ts)
  {
    if ts != [] {
      DailyPnLOfAllDays(ts[..|ts| - 1]);
      assert StartsWith(ts[|ts| - 1].timestamp, "");
    }
  }

  /**
   * The day is the day a trade was placed, not the day it settled: settling
   * (or otherwise rewriting) a trade placed on another day leaves the daily
   * P&L unchanged.
   */
  lemma {:induction false} OvernightSettlementIgnored(ts: seq<Trade>, k: nat, t: Trade, date: string)
    requires k < |ts| && t.timestamp == ts[k].timestamp && !StartsWith(t.timestamp, date)
    ensures DailyPnL(ts[k := t], date) == DailyPnL(ts, date)
  {
    var n := |ts| - 1;
    if k == n {
      assert ts[k := t][..n] == ts[..n];
    } else {
      assert ts[k := t][..n] == ts[..n][k := t];
      OvernightSettlementIgnored(ts[..n], k, t, date);
    }
  }

  /** `getPeakBankroll`: the larger of the initial bankroll and the balance. */
  function PeakBankroll(limits: RiskLimits, balance: real): (r: real)
    ensures r >= balance && r >= limits.initialBankroll
    ensures r == balance || r == limits.initialBankroll
  {
    MaxR(limits.initialBankroll, balance)
  }

  // ------------------------------------------------- positions per station

  /** Number of trades in `xs` on `station`. */
  function CountAt(xs: seq<Trade>, station: string): nat
  {
    if xs == [] then 0
    else CountAt(xs[..|xs| - 1], station) + (if xs[|xs| - 1].station == station then 1 else 0)
  }

  /** Count of each station among `xs`, one increment per trade in order. */
  function Tally(xs: seq<Trade>): map<string, nat>
  {
    if xs == [] then map[]
    else
      var m := Tally(xs[..|xs| - 1]);
      var st := xs[|xs| - 1].station;
      m[st := (if st in m then m[st] else 0) + 1]
  }

  /** A station is a key of the tally exactly when it has trades, and maps to their number. */
  lemma {:induction false} TallyCounts(xs: seq<Trade>, station: string)
    ensures station in Tally(xs) <==> CountAt(xs, station) > 0
    ensures station in Tally(xs) ==> Tally(xs)[station] == CountAt(xs, station)
  {
    if xs != [] {
      TallyCounts(xs[..|xs| - 1], station);
    }
  }

  /** Sum of the values of a map. */
  ghost function MapTotal(m: map<string, nat>): nat
    decreases |m|
  {
    if m == map[] then 0
    else
      var k :| k in m;
      m[k] + MapTotal(m - {k})
  }

  /** The total does not depend on which key is taken out first. */
  lemma MapTotalRemove(m: map<string, nat>, k: string)
    requires k in m
    ensures MapTotal(m) == m[k] + MapTotal(m - {k})
    decreases |m|
  {
    var j :| j in m && MapTotal(m) == m[j] + MapTotal(m - {j});
    if j != k {
      MapTotalRemove(m - {j}, k);
      MapTotalRemove(m - {k}, j);
      assert m - {j} - {k} == m - {k} - {j};
    }
  }

  /** Adding one to a key's value (absent counts as 0) adds one to the total. */
  lemma MapTotalIncrement(m: map<string, nat>, k: string)
    ensures MapTotal(m[k := (if k in m then m[k] else 0) + 1]) == MapTotal(m) + 1
  {
    var m' := m[k := (if k in m then m[k] else 0) + 1];
    MapTotalRemove(m', k);
    if k in m {
      MapTotalRemove(m, k);
      assert m' - {k} == m - {k};
    } else {
      assert m' - {k} == m;
    }
  }

  /** The per-station counts add up to the number of trades tallied. */
  lemma {:induction false} TallyTotal(xs: seq<Trade>)
    ensures MapTotal(Tally(xs)) == |xs|
  {
    if xs != [] {
      TallyTotal(xs[..|xs| - 1]);
      MapTotalIncrement(Tally(xs[..|xs| - 1]), xs[|xs| - 1].station);
    }
  }

  /** `positionsPerStation()`: the open positions counted per station. */
  method PositionsPerStation(ts: seq<Trade>) returns (counts: map<string, nat>)
    ensures counts == Tally(OpenPositions(ts))
  {
    var open := OpenPositions(ts);
    counts := map[];
    for j := 0 to |open|
      invariant counts == Tally(open[..j])
    {
      assert open[..j + 1][..j] == open[..j];
      var t := open[j];
      counts := counts[t.station := (if t.station in counts then counts[t.station] else 0) + 1];
    }
    assert open[..|open|] == open;
  }

  /**
   * Only open trades are counted, each station maps to its number of open
   * trades, and the counts sum to the number of open positions.
   */
  lemma PositionsPerStationCounts(ts: seq<Trade>, station: string)
    ensures var counts := Tally(OpenPositions(ts));
      && (station in counts <==> exists t :: t in ts && !t.settled && t.station == station)
      && (station in counts ==> counts[station] == CountAt(OpenPositions(ts), station))
      && MapTotal(counts) == |OpenPositions(ts)|
  {
    var open := OpenPositions(ts);
    TallyCounts(open, station);
    TallyTotal(open);
    CountAtPositive(open, station);
  }

  lemma {:induction false} CountAtPositive(xs: seq<Trade>, station: string)
    ensures CountAt(xs, station) > 0 <==> exists t :: t in xs && t.station == station
  {
    if xs != [] {
      var n := |xs| - 1;
      CountAtPositive(xs[..n], station);
      assert xs == xs[..n] + [xs[n]];
      if exists t :: t in xs && t.station == station {
        var t :| t in xs && t.station == station;
        if t != xs[n] {
          assert t in xs[..n];
        }
      }
    }
  }

  // ----------------------------------------------------------- the check

  datatype RiskViolation =
    | DailyLossLimit(dailyPnL: real, maxDailyLoss: real)
    | TooManyOpenPositions(count: nat, maxOpen: int)
    | TradeTooLarge(tradeCost: real, limit: real)
    | DrawdownBreaker(balance: real, floor: real)
    | StationPositionLimit(station: string, count: nat, maxPerStation: int)
    | StationExposureLimit(station: string, exposure: real, limit: real)

  /** Cost of the trades in `xs` on `station` (`t.cost || 0`). */
  function CostAt(xs: seq<Trade>, station: string): real
  {
    if xs == [] then 0.0
    else CostAt(xs[..|xs| - 1], station) + (if xs[|xs| - 1].station == station then xs[|xs| - 1].cost else 0.0)
  }

  /** The station part of the check, from the station's open count and open cost. */
  function StationViolations(limits: RiskLimits, balance: real, station: string, n: nat, cost: real): seq<RiskViolation>
  {
    var maxExposure := balance * limits.maxStationExposure;
    var v1 := if n >= limits.maxPerStation then [StationPositionLimit(station, n, limits.maxPerStation)] else [];
    if cost > maxExposure then v1 + [StationExposureLimit(station, cost, maxExposure)] else v1
  }

  /**
   * The violations found from the figures the check compares: the balance,
   * the number of open positions, the daily P&L, the proposed cost and the
   * station's open count and cost; the empty station stands for none.
   */
  function Violations(limits: RiskLimits, balance: real, openCount: nat, daily: real, tradeCost: real,
                      station: string, n: nat, cost: real): seq<RiskViolation>
  {
    var v4 := AccountViolations(limits, balance, openCount, daily, tradeCost);
    if station != "" then v4 + StationViolations(limits, balance, station, n, cost) else v4
  }

  /** The four account-wide limits, in check order. */
  function AccountViolations(limits: RiskLimits, balance: real, openCount: nat, daily: real, tradeCost: real): seq<RiskViolation>
  {
    var eff := EffectiveRiskLimits(limits, balance);
    var v1 := if daily <= eff.maxDailyLoss then [DailyLossLimit(daily, eff.maxDailyLoss)] else [];
    var v2 := if openCount >= limits.maxOpenPositions then v1 + [TooManyOpenPositions(openCount, limits.maxOpenPositions)] else v1;
    var v3 := if tradeCost > 0.0 && tradeCost > balance * limits.maxPositionPct
      then v2 + [TradeTooLarge(tradeCost, balance * limits.maxPositionPct)] else v2;
    if balance < eff.drawdownFloor then v3 + [DrawdownBreaker(balance, eff.drawdownFloor)] else v3
  }

  /** Every limit `checkRiskLimits(station, tradeCost)` finds violated on a ledger, in check order. */
  function RiskViolations(s: LedgerState, limits: RiskLimits, today: string, station: string, tradeCost: real): seq<RiskViolation>
  {
    var open := OpenPositions(s.trades);
    Violations(limits, s.balance, |open|, DailyPnL(s.trades, today), tradeCost, station, CountAt(open, station), CostAt(open, station))
  }

  /** `checkRiskLimits`: collects every violation; the trade is allowed exactly when there is none. */
  method CheckRiskLimits(s: LedgerState, limits: RiskLimits, today: string, station: string, tradeCost: real)
    returns (allowed: bool, violations: seq<RiskViolation>)
    ensures violations == RiskViolations(s, limits, today, station, tradeCost)
    ensures allowed <==> violations == []
  {
    var open := OpenPositions(s.trades);
    var dailyPnL := DailyPnL(s.trades, today);
    violations := AccountChecks(limits, s.balance, |open|, dailyPnL, tradeCost);
    if station != "" {
      var more := StationCheck(s, limits, station);
      violations := violations + more;
    }
    allowed := |violations| == 0;
  }

  /** The account-wide part of `checkRiskLimits`, one limit after the other. */
  method AccountChecks(limits: RiskLimits, balance: real, openCount: nat, dailyPnL: real, tradeCost: real)
    returns (violations: seq<RiskViolation>)
    ensures violations == AccountViolations(limits, balance, openCount, dailyPnL, tradeCost)
  {
    violations := [];
    var eff := EffectiveRiskLimits(limits, balance);
    if dailyPnL <= eff.maxDailyLoss {
      violations := [DailyLossLimit(dailyPnL, eff.maxDailyLoss)];
    }
    if openCount >= limits.maxOpenPositions {
      violations := violations + [TooManyOpenPositions(openCount, limits.maxOpenPositions)];
    }
    if tradeCost > 0.0 && tradeCost > balance * limits.maxPositionPct {
      violations := violations + [TradeTooLarge(tradeCost, balance * limits.maxPositionPct)];
    }
    if balance < eff.drawdownFloor {
      violations := violations + [DrawdownBreaker(balance, eff.drawdownFloor)];
    }
  }

  /** The station part of `checkRiskLimits`, reading the count from `positionsPerStation`. */
  method StationCheck(s: LedgerState, limits: RiskLimits, station: string) returns (violations: seq<RiskViolation>)
    ensures var open := OpenPositions(s.trades);
      violations == StationViolations(limits, s.balance, station, CountAt(open, station), CostAt(open, station))
  {
    var n, stationCost := StationFigures(s.trades, station);
    violations := StationLimits(s, limits, station, n, stationCost);
  }

  /** The two station limits of `checkRiskLimits`, from the station's open count and cost. */
  method StationLimits(s: LedgerState, limits: RiskLimits, station: string, n: nat, stationCost: real)
    returns (violations: seq<RiskViolation>)
    ensures violations == StationViolations(limits, s.balance, station, n, stationCost)
  {
    violations := [];
    if n >= limits.maxPerStation {
      violations := [StationPositionLimit(station, n, limits.maxPerStation)];
    }
    ghost var v1 := violations;
    assert v1 == if n >= limits.maxPerStation then [StationPositionLimit(station, n, limits.maxPerStation)] else [];
    StationViolationsSteps(limits, s.balance, station, n, stationCost, v1);
    var maxExposure := s.balance * limits.maxStationExposure;
    if stationCost > maxExposure {
      violations := violations + [StationExposureLimit(station, stationCost, maxExposure)];
    }
  }

  /** `StationViolations` unfolded one check at a time. */
  lemma StationViolationsSteps(limits: RiskLimits, balance: real, station: string, n: nat, cost: real, v1: seq<RiskViolation>)
    requires v1 == if n >= limits.maxPerStation then [StationPositionLimit(station, n, limits.maxPerStation)] else []
    ensures var maxExposure := balance * limits.maxStationExposure;
      StationViolations(limits, balance, station, n, cost)
        == if cost > maxExposure then v1 + [StationExposureLimit(station, cost, maxExposure)] else v1
  {
  }

  /** The station's open count, read from `positionsPerStation`, and its open cost. */
  method StationFigures(ts: seq<Trade>, station: string) returns (n: nat, stationCost: real)
    ensures n == CountAt(OpenPositions(ts), station)
    ensures stationCost == CostAt(OpenPositions(ts), station)
  {
    var perStation := PositionsPerStation(ts);
    var open := OpenPositions(ts);
    n := if station in perStation then perStation[station] else 0;
    TallyCounts(open, station);
    stationCost := CostAt(open, station);
  }

  /** The number of the limit a violation reports. */
  function LimitOf(v: RiskViolation): nat
  {
    match v
    case DailyLossLimit(_, _) => 1
    case TooManyOpenPositions(_, _) => 2
    case TradeTooLarge(_, _) => 3
    case DrawdownBreaker(_, _) => 4
    case StationPositionLimit(_, _, _) => 5
    case StationExposureLimit(_, _, _) => 6
  }

  predicate Violated(vs: seq<RiskViolation>, k: nat)
  {
    exists i :: 0 <= i < |vs| && LimitOf(vs[i]) == k
  }

  lemma ViolatedAppend(a: seq<RiskViolation>, b: seq<RiskViolation>, k: nat)
    ensures Violated(a + b, k) <==> Violated(a, k) || Violated(b, k)
  {
    if Violated(a + b, k) {
      var i :| 0 <= i < |a + b| && LimitOf((a + b)[i]) == k;
      if i >= |a| { assert b[i - |a|] == (a + b)[i]; }
    }
    if Violated(a, k) {
      var i :| 0 <= i < |a| && LimitOf(a[i]) == k;
      assert (a + b)[i] == a[i];
    }
    if Violated(b, k) {
      var i :| 0 <= i < |b| && LimitOf(b[i]) == k;
      assert (a + b)[|a| + i] == b[i];
    }
  }

  /** A check that adds `v` when `fires` has violated limit k exactly when it fired and v is limit k. */
  lemma ViolatedOptional(v: RiskViolation, fires: bool, k: nat)
    ensures Violated(if fires then [v] else [], k) <==> fires && LimitOf(v) == k
  {
    if fires { assert [v][0] == v; }
  }

  /** The two station limits, each reported exactly when its own condition holds. */
  lemma StationLimitsIndependent(limits: RiskLimits, balance: real, station: string, n: nat, cost: real, k: nat)
    ensures Violated(StationViolations(limits, balance, station, n, cost), k) <==>
      || (k == 5 && n >= limits.maxPerStation)
      || (k == 6 && cost > balance * limits.maxStationExposure)
  {
    var maxExposure := balance * limits.maxStationExposure;
    var v1: seq<RiskViolation> := if n >= limits.maxPerStation then [StationPositionLimit(station, n, limits.maxPerStation)] else [];
    var g := StationExposureLimit(station, cost, maxExposure);
    assert StationViolations(limits, balance, station, n, cost) == if cost > maxExposure then v1 + [g] else v1;
    ViolatedOptional(StationPositionLimit(station, n, limits.maxPerStation), n >= limits.maxPerStation, k);
    ViolatedOptional(g, true, k);
    ViolatedAppend(v1, [g], k);
  }

  /** The four account limits, each reported exactly when its own condition holds. */
  lemma AccountLimitsIndependent(limits: RiskLimits, balance: real, openCount: nat, daily: real, tradeCost: real, k: nat)
    ensures var eff := EffectiveRiskLimits(limits, balance);
      Violated(AccountViolations(limits, balance, openCount, daily, tradeCost), k) <==>
        || (k == 1 && daily <= eff.maxDailyLoss)
        || (k == 2 && openCount >= limits.maxOpenPositions)
        || (k == 3 && tradeCost > 0.0 && tradeCost > balance * limits.maxPositionPct)
        || (k == 4 && balance < eff.drawdownFloor)
  {
    var eff := EffectiveRiskLimits(limits, balance);
    var v1 := if daily <= eff.maxDailyLoss then [DailyLossLimit(daily, eff.maxDailyLoss)] else [];
    ViolatedOptional(DailyLossLimit(daily, eff.maxDailyLoss), daily <= eff.maxDailyLoss, k);
    var v2 := if openCount >= limits.maxOpenPositions then v1 + [TooManyOpenPositions(openCount, limits.maxOpenPositions)] else v1;
    ViolatedAppend(v1, [TooManyOpenPositions(openCount, limits.maxOpenPositions)], k);
    ViolatedOptional(TooManyOpenPositions(openCount, limits.maxOpenPositions), true, k);
    var v3 := if tradeCost > 0.0 && tradeCost > balance * limits.maxPositionPct
      then v2 + [TradeTooLarge(tradeCost, balance * limits.maxPositionPct)] else v2;
    ViolatedAppend(v2, [TradeTooLarge(tradeCost, balance * limits.maxPositionPct)], k);
    ViolatedOptional(TradeTooLarge(tradeCost, balance * limits.maxPositionPct), true, k);
    ViolatedAppend(v3, [DrawdownBreaker(balance, eff.drawdownFloor)], k);
    ViolatedOptional(DrawdownBreaker(balance, eff.drawdownFloor), true, k);
  }

  /** The same, for all limits, over the compared figures. */
  lemma ViolationsIndependent(limits: RiskLimits, balance: real, openCount: nat, daily: real, tradeCost: real,
                              station: string, n: nat, cost: real, k: nat)
    ensures var eff := EffectiveRiskLimits(limits, balance);
      Violated(Violations(limits, balance, openCount, daily, tradeCost, station, n, cost), k) <==>
        || (k == 1 && daily <= eff.maxDailyLoss)
        || (k == 2 && openCount >= limits.maxOpenPositions)
        || (k == 3 && tradeCost > 0.0 && tradeCost > balance * limits.maxPositionPct)
        || (k == 4 && balance < eff.drawdownFloor)
        || (k == 5 && station != "" && n >= limits.maxPerStation)
        || (k == 6 && station != "" && cost > balance * limits.maxStationExposure)
  {
    var v4 := AccountViolations(limits, balance, openCount, daily, tradeCost);
    AccountLimitsIndependent(limits, balance, openCount, daily, tradeCost, k);
    ViolatedAppend(v4, StationViolations(limits, balance, station, n, cost), k);
    StationLimitsIndependent(limits, balance, station, n, cost, k);
  }

  /**
   * Limit by limit on a ledger: each violation is reported exactly when its
   * own condition holds, whatever the other limits say; the station limits
   * only when a station is given.
   */
  lemma RiskLimitsIndependent(s: LedgerState, limits: RiskLimits, today: string, station: string, tradeCost: real, k: nat)
    ensures var eff := EffectiveRiskLimits(limits, s.balance);
      var open := OpenPositions(s.trades);
      Violated(RiskViolations(s, limits, today, station, tradeCost), k) <==>
        || (k == 1 && DailyPnL(s.trades, today) <= eff.maxDailyLoss)
        || (k == 2 && |open| >= limits.maxOpenPositions)
        || (k == 3 && tradeCost > 0.0 && tradeCost > s.balance * limits.maxPositionPct)
        || (k == 4 && s.balance < eff.drawdownFloor)
        || (k == 5 && station != "" && CountAt(open, station) >= limits.maxPerStation)
        || (k == 6 && station != "" && CostAt(open, station) > s.balance * limits.maxStationExposure)
  {
    var open := OpenPositions(s.trades);
    ViolationsIndependent(limits, s.balance, |open|, DailyPnL(s.trades, today), tradeCost, station,
      CountAt(open, station), CostAt(open, station), k);
  }

  // ---------------------------------------------------------- the status

  datatype RiskStatus = RiskStatus(
    balance: real,
    totalPnL: real,
    dailyPnL: real,
    openPositions: nat,
    maxOpenPositions: int,
    positionsPerStation: map<string, nat>,
    peakBankroll: real,
    drawdown: real,
    drawdownFloor: real,
    maxDailyLoss: real,
    maxPositionPct: real,
    tradingAllowed: bool,
    violations: seq<RiskViolation>)

  /** The drawdown from the peak in percent, to one decimal (0 for a non-positive peak). */
  function Drawdown(peak: real, balance: real): (r: real)
    requires peak >= balance
    ensures r >= 0.0 && WholeTenths(r)
    ensures balance == peak ==> r == 0.0
    ensures peak > 0.0 ==> -0.05 < r - (peak - balance) / peak * 100.0 <= 0.05
  {
    var d := if peak > 0.0 then (peak - balance) / peak * 100.0 else 0.0;
    Round1(d)
  }

  /** `getRiskStatus()`: the account's risk figures and the result of the check with no station. */
  function GetRiskStatus(s: LedgerState, limits: RiskLimits, today: string): (r: RiskStatus)
    ensures r.peakBankroll >= r.balance && r.drawdown >= 0.0
    ensures r.balance >= limits.initialBankroll ==> r.drawdown == 0.0
    ensures r.openPositions == MapTotal(r.positionsPerStation)
    ensures r.violations == RiskViolations(s, limits, today, "", 0.0)
    ensures r.tradingAllowed <==> r.violations == []
  {
    var open := OpenPositions(s.trades);
    var peak := PeakBankroll(limits, s.balance);
    var eff := EffectiveRiskLimits(limits, s.balance);
    var vs := RiskViolations(s, limits, today, "", 0.0);
    TallyTotal(open);
    RiskStatus(s.balance, TotalPnL(s.trades), DailyPnL(s.trades, today), |open|, limits.maxOpenPositions,
      Tally(open), peak, Drawdown(peak, s.balance), eff.drawdownFloor, eff.maxDailyLoss,
      limits.maxPositionPct, vs == [], vs)
  }
}
