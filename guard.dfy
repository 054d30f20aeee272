// The pre-trade guard: nine independent admission checks on a proposed
// weather trade. Every check runs, each failure adds its own reason, and
// the trade passes only when no check failed. The guard reads the ledger
// and the station table and writes nothing.

module Guard {
  import opened Prelude
  import opened Text
  import opened WeatherStations
  import opened Ledger

  /** The `guard` section of config.json, each value defaulted with `??`. */
  datatype GuardConfig = GuardConfig(
    hardMaxContracts: real,
    maxTradesPerDayPerStation: int,
    minSigmaGap: real,
    climOutlierRange: real,
    maxModelSpread: real,
    maxBidAskSpread: real)

  const DefaultGuardConfig := GuardConfig(20.0, 1, 1.5, 15.0, 3.0, 0.10)

  /** The share of the balance one station's open cost may reach. */
  const MaxStationExposurePct: real := 0.05

  /** The arguments of `runGuards`; a missing station or date is the empty string. */
  datatype GuardInput = GuardInput(
    station: string,
    qty: Option<real>,
    forecastSpread: Option<real>,
    marketSigma: Option<real>,
    forecastHigh: Option<real>,
    date: string,
    bidAskSpread: Option<real>)

  datatype GuardReason =
    | NotWhitelisted(station: string)
    | ModelSpreadTooWide(spread: real, limit: real)
    | SigmaGapTooSmall(marketSigma: real, ourSigma: real, gap: real)
    | NoMarketSigma
    | TooManyTradesToday(count: nat, maxPerDay: int)
    | QuantityAboveMax(qty: real, limit: real)
    | ClimOutlier(forecast: real, normal: real, deviation: real)
    | CorrelatedStation(other: string, tradeId: int)
    | ExposureAboveLimit(exposure: real, limit: real)
    | BidAskTooWide(spread: real)

  /** CORRELATED_STATIONS: no pairs are configured. */
  const CorrelatedStations: map<string, seq<string>> := map[]

  /** `m.get(a)?.includes(b) || false` */
  predicate CorrelatedIn(m: map<string, seq<string>>, a: string, b: string)
  {
    a in m && b in m[a]
  }

  predicate IsCorrelatedStation(a: string, b: string)
  {
    CorrelatedIn(CorrelatedStations, a, b)
  }

  lemma NoStationsCorrelated(a: string, b: string)
    ensures !IsCorrelatedStation(a, b)
  {
  }

  /** `timestamp?.slice(0, 10)` */
  function DayOf(timestamp: string): string
  {
    Slice(timestamp, 0, 10)
  }

  /** The month `parseInt(date.slice(5, 7))` reads from the trade date. */
  function MonthOf(date: string): Option<int>
  {
    ParseInt(Slice(date, 5, 7))
  }

  /** Open trades on `station` placed on `date`. */
  function TodayCount(ts: seq<Trade>, station: string, date: string): (n: nat)
    ensures n <= |ts|
  {
    if ts == [] then 0
    else
      var t := ts[|ts| - 1];
      TodayCount(ts[..|ts| - 1], station, date)
        + (if t.station == station && DayOf(t.timestamp) == date && !t.settled then 1 else 0)
  }

  /** Sum of the positive costs of the open trades on `station`. */
  function StationExposure(ts: seq<Trade>, station: string): real
  {
    if ts == [] then 0.0
    else
      var t := ts[|ts| - 1];
      StationExposure(ts[..|ts| - 1], station)
        + (if t.station == station && !t.settled && t.cost > 0.0 then t.cost else 0.0)
  }

  lemma {:induction false} StationExposureNonNegative(ts: seq<Trade>, station: string)
    ensures StationExposure(ts, station) >= 0.0
  {
    if ts != [] {
      StationExposureNonNegative(ts[..|ts| - 1], station);
    }
  }

  /** Reasons check 7 adds: one per open same-day trade on a correlated station. */
  function CorrelationReasons(ts: seq<Trade>, station: string, date: string): seq<GuardReason>
  {
    if ts == [] then []
    else
      var t := ts[|ts| - 1];
      CorrelationReasons(ts[..|ts| - 1], station, date)
        + (if DayOf(t.timestamp) == date && !t.settled && t.station != station && IsCorrelatedStation(station, t.station)
           then [CorrelatedStation(t.station, t.id)] else [])
  }

  /** With the empty correlation table the correlation check never fires. */
  lemma {:induction false} CorrelationNeverFires(ts: seq<Trade>, station: string, date: string)
    ensures CorrelationReasons(ts, station, date) == []
  {
    if ts != [] {
      CorrelationNeverFires(ts[..|ts| - 1], station, date);
    }
  }

  // ------------------------------------------------------ the nine checks
  // Each check has a firing condition and appends its own reason(s) to the
  // reasons collected so far.

  /** Check 1: the station is not in the tradeable set. */
  predicate WhitelistFires(table: StationTable, station: string)
    requires DistinctKeys(table)
  {
    station !in TradeableStations(table)
  }

  function WhitelistCheck(rs: seq<GuardReason>, table: StationTable, station: string): seq<GuardReason>
    requires DistinctKeys(table)
  {
    if WhitelistFires(table, station) then rs + [NotWhitelisted(station)] else rs
  }

  /** Check 2: the forecast models disagree by more than the configured spread. */
  predicate SpreadFires(cfg: GuardConfig, spread: Option<real>)
  {
    spread.Some? && spread.value > cfg.maxModelSpread
  }

  function SpreadCheck(rs: seq<GuardReason>, cfg: GuardConfig, spread: Option<real>): seq<GuardReason>
  {
    if SpreadFires(cfg, spread) then rs + [ModelSpreadTooWide(spread.value, cfg.maxModelSpread)] else rs
  }

  /** Our same-day sigma for the station in the trade's month (NaN months are never winter). */
  function OurSigma(table: StationTable, station: string, date: string): real
  {
    EffectiveSigma(table, station, MonthOf(date).GetOr(0), 0, false)
  }

  predicate Known(table: StationTable, station: string)
  {
    station != "" && Lookup(table, station).Some?
  }

  /** Check 3: for a known station, the market sigma is missing or too close to ours. */
  predicate SigmaFires(table: StationTable, cfg: GuardConfig, station: string, marketSigma: Option<real>, date: string)
  {
    Known(table, station) && (marketSigma.None? || marketSigma.value - OurSigma(table, station, date) < cfg.minSigmaGap)
  }

  function SigmaCheck(rs: seq<GuardReason>, table: StationTable, cfg: GuardConfig, station: string, marketSigma: Option<real>, date: string): seq<GuardReason>
  {
    if SigmaFires(table, cfg, station, marketSigma, date) then
      if marketSigma.Some? then
        var ours := OurSigma(table, station, date);
        rs + [SigmaGapTooSmall(marketSigma.value, ours, marketSigma.value - ours)]
      else rs + [NoMarketSigma]
    else rs
  }

  /** Check 4: the station already has the maximum number of open trades that day. */
  predicate DailyFires(cfg: GuardConfig, ledger: LedgerState, station: string, date: string)
  {
    TodayCount(ledger.trades, station, date) >= cfg.maxTradesPerDayPerStation
  }

  function DailyCheck(rs: seq<GuardReason>, cfg: GuardConfig, ledger: LedgerState, station: string, date: string): seq<GuardReason>
  {
    if DailyFires(cfg, ledger, station, date)
    then rs + [TooManyTradesToday(TodayCount(ledger.trades, station, date), cfg.maxTradesPerDayPerStation)]
    else rs
  }

  /** Check 5: more contracts than the hard maximum. */
  predicate QuantityFires(cfg: GuardConfig, qty: Option<real>)
  {
    qty.Some? && qty.value > cfg.hardMaxContracts
  }

  function QuantityCheck(rs: seq<GuardReason>, cfg: GuardConfig, qty: Option<real>): seq<GuardReason>
  {
    if QuantityFires(cfg, qty) then rs + [QuantityAboveMax(qty.value, cfg.hardMaxContracts)] else rs
  }

  /** The station's climatological normal high for the trade's month, if recorded. */
  function NormalHigh(table: StationTable, station: string, date: string): Option<real>
  {
    var s := Lookup(table, station);
    var m := MonthOf(date);
    if s.Some? && m.Some? && m.value in s.value.climNormalHigh then Some(s.value.climNormalHigh[m.value]) else None
  }

  /** Check 6: the forecast high is further from the monthly normal than the outlier range. */
  predicate ClimFires(table: StationTable, cfg: GuardConfig, station: string, forecastHigh: Option<real>, date: string)
  {
    forecastHigh.Some? && Known(table, station) && NormalHigh(table, station, date).Some?
    && AbsR(forecastHigh.value - NormalHigh(table, station, date).value) > cfg.climOutlierRange
  }

  function ClimCheck(rs: seq<GuardReason>, table: StationTable, cfg: GuardConfig, station: string, forecastHigh: Option<real>, date: string): seq<GuardReason>
  {
    if ClimFires(table, cfg, station, forecastHigh, date) then
      var normal := NormalHigh(table, station, date).value;
      rs + [ClimOutlier(forecastHigh.value, normal, AbsR(forecastHigh.value - normal))]
    else rs
  }

  /** Check 7: one reason per correlated open trade the same day. */
  function CorrelationCheck(rs: seq<GuardReason>, ledger: LedgerState, station: string, date: string): seq<GuardReason>
  {
    if station != "" then rs + CorrelationReasons(ledger.trades, station, date) else rs
  }

  /** Check 8: the open cost on the station exceeds 5% of the balance. */
  predicate ExposureFires(ledger: LedgerState, station: string)
  {
    station != "" && StationExposure(ledger.trades, station) > ledger.balance * MaxStationExposurePct
  }

  function ExposureCheck(rs: seq<GuardReason>, ledger: LedgerState, station: string): seq<GuardReason>
  {
    if ExposureFires(ledger, station)
    then rs + [ExposureAboveLimit(StationExposure(ledger.trades, station), ledger.balance * MaxStationExposurePct)]
    else rs
  }

  /** Check 9: the order book's bid-ask spread is too wide. */
  predicate BidAskFires(cfg: GuardConfig, spread: Option<real>)
  {
    spread.Some? && spread.value > cfg.maxBidAskSpread
  }

  function BidAskCheck(rs: seq<GuardReason>, cfg: GuardConfig, spread: Option<real>): seq<GuardReason>
  {
    if BidAskFires(cfg, spread) then rs + [BidAskTooWide(spread.value)] else rs
  }

  /** `date || today()` */
  function TradeDate(input: GuardInput, today: string): string
  {
    if input.date != "" then input.date else today
  }

  /** Every reason `runGuards` collects, in check order. */
  function GuardReasons(table: StationTable, ledger: LedgerState, cfg: GuardConfig, input: GuardInput, today: string): seq<GuardReason>
    requires DistinctKeys(table)
  {
    var date := TradeDate(input, today);
    var r1 := WhitelistCheck([], table, input.station);
    var r2 := SpreadCheck(r1, cfg, input.forecastSpread);
    var r3 := SigmaCheck(r2, table, cfg, input.station, input.marketSigma, date);
    var r4 := DailyCheck(r3, cfg, ledger, input.station, date);
    var r5 := QuantityCheck(r4, cfg, input.qty);
    var r6 := ClimCheck(r5, table, cfg, input.station, input.forecastHigh, date);
    var r7 := CorrelationCheck(r6, ledger, input.station, date);
    var r8 := ExposureCheck(r7, ledger, input.station);
    BidAskCheck(r8, cfg, input.bidAskSpread)
  }

  /** The loop of check 7 over the open trades placed the same day on other stations. */
  method CorrelationScan(trades: seq<Trade>, station: string, date: string) returns (found: seq<GuardReason>)
    ensures found == CorrelationReasons(trades, station, date)
  {
    found := [];
    var j := 0;
    while j < |trades|
      invariant 0 <= j <= |trades|
      invariant found == CorrelationReasons(trades[..j], station, date)
    {
      assert trades[..j + 1][..j] == trades[..j];
      var t := trades[j];
      if Slice(t.timestamp, 0, 10) == date && !t.settled && t.station != station && IsCorrelatedStation(station, t.station) {
        found := found + [CorrelatedStation(t.station, t.id)];
      }
      j := j + 1;
    }
    assert trades[..j] == trades;
  }

  /**
   * `runGuards(input)`: runs all nine checks whatever earlier ones found
   * and passes exactly when none of them added a reason.
   */
  method RunGuards(table: StationTable, ledger: LedgerState, cfg: GuardConfig, input: GuardInput, today: string)
    returns (pass: bool, reasons: seq<GuardReason>)
    requires DistinctKeys(table)
    ensures reasons == GuardReasons(table, ledger, cfg, input, today)
    ensures pass <==> reasons == []
  {
    var station := input.station;
    var date := TradeDate(input, today);
    reasons := [];

    // 1. station whitelist
    reasons := WhitelistGuard(reasons, table, station);
    ghost var r1 := reasons;

    // 2. model spread
    if input.forecastSpread.Some? && input.forecastSpread.value > cfg.maxModelSpread {
      reasons := reasons + [ModelSpreadTooWide(input.forecastSpread.value, cfg.maxModelSpread)];
    }
    assert reasons == SpreadCheck(r1, cfg, input.forecastSpread);
    ghost var r2 := reasons;

    // 3. market sigma gap
    reasons := SigmaGuard(reasons, table, cfg, station, input.marketSigma, date);
    ghost var r3 := reasons;

    // 4. trades per day per station
    reasons := DailyGuard(reasons, cfg, ledger, station, date);
    ghost var r4 := reasons;

    // 5. position size
    if input.qty.Some? && input.qty.value > cfg.hardMaxContracts {
      reasons := reasons + [QuantityAboveMax(input.qty.value, cfg.hardMaxContracts)];
    }
    assert reasons == QuantityCheck(r4, cfg, input.qty);
    ghost var r5 := reasons;

    // 6. climatological outlier
    reasons := ClimGuard(reasons, table, cfg, station, input.forecastHigh, date);
    ghost var r6 := reasons;

    // 7. cross-station correlation
    if station != "" {
      var correlated := CorrelationScan(ledger.trades, station, date);
      reasons := reasons + correlated;
    }
    assert reasons == CorrelationCheck(r6, ledger, station, date);
    ghost var r7 := reasons;

    // 8. cumulative station exposure
    reasons := ExposureGuard(reasons, ledger, station);
    ghost var r8 := reasons;

    // 9. bid-ask spread
    if input.bidAskSpread.Some? && input.bidAskSpread.value > cfg.maxBidAskSpread {
      reasons := reasons + [BidAskTooWide(input.bidAskSpread.value)];
    }
    assert reasons == BidAskCheck(r8, cfg, input.bidAskSpread);
    pass := |reasons| == 0;
  }

  /** Check 1 as `runGuards` runs it. */
  method WhitelistGuard(rs: seq<GuardReason>, table: StationTable, station: string) returns (reasons: seq<GuardReason>)
    requires DistinctKeys(table)
    ensures reasons == WhitelistCheck(rs, table, station)
  {
    reasons := rs;
    if station !in TradeableStations(table) {
      reasons := reasons + [NotWhitelisted(station)];
    }
  }

  /** Check 4 as `runGuards` runs it: count the station's open trades placed that day. */
  method DailyGuard(rs: seq<GuardReason>, cfg: GuardConfig, ledger: LedgerState, station: string, date: string)
    returns (reasons: seq<GuardReason>)
    ensures reasons == DailyCheck(rs, cfg, ledger, station, date)
  {
    reasons := rs;
    var todayCount := TodayCount(ledger.trades, station, date);
    if todayCount >= cfg.maxTradesPerDayPerStation {
      reasons := reasons + [TooManyTradesToday(todayCount, cfg.maxTradesPerDayPerStation)];
    }
  }

  /** Check 8 as `runGuards` runs it: the station's open cost against 5% of the balance. */
  method ExposureGuard(rs: seq<GuardReason>, ledger: LedgerState, station: string) returns (reasons: seq<GuardReason>)
    ensures reasons == ExposureCheck(rs, ledger, station)
  {
    reasons := rs;
    if station != "" {
      var exposure := StationExposure(ledger.trades, station);
      var maxExposure := ledger.balance * 0.05;
      if exposure > maxExposure {
        reasons := reasons + [ExposureAboveLimit(exposure, maxExposure)];
      }
    }
  }

  /** Check 3 as `runGuards` runs it: the station lookup, then the gap test. */
  method SigmaGuard(rs: seq<GuardReason>, table: StationTable, cfg: GuardConfig, station: string, marketSigma: Option<real>, date: string)
    returns (reasons: seq<GuardReason>)
    ensures reasons == SigmaCheck(rs, table, cfg, station, marketSigma, date)
  {
    reasons := rs;
    if station != "" && Lookup(table, station).Some? {
      var ourSigma := OurSigma(table, station, date);
      if marketSigma.Some? {
        var gap := marketSigma.value - ourSigma;
        if gap < cfg.minSigmaGap {
          reasons := reasons + [SigmaGapTooSmall(marketSigma.value, ourSigma, gap)];
        }
      } else {
        reasons := reasons + [NoMarketSigma];
      }
    }
  }

  /** Check 6 as `runGuards` runs it: the normal high for the month, then the deviation test. */
  method ClimGuard(rs: seq<GuardReason>, table: StationTable, cfg: GuardConfig, station: string, forecastHigh: Option<real>, date: string)
    returns (reasons: seq<GuardReason>)
    ensures reasons == ClimCheck(rs, table, cfg, station, forecastHigh, date)
  {
    reasons := rs;
    if forecastHigh.Some? && station != "" && Lookup(table, station).Some? {
      var normal := NormalHigh(table, station, date);
      if normal.Some? {
        var dev := AbsR(forecastHigh.value - normal.value);
        if dev > cfg.climOutlierRange {
          reasons := reasons + [ClimOutlier(forecastHigh.value, normal.value, dev)];
        }
      }
    }
  }

  // --------------------------------------------------------------- lemmas

  /** The number of the check that produces a reason. */
  function CheckOf(g: GuardReason): nat
  {
    match g
    case NotWhitelisted(_) => 1
    case ModelSpreadTooWide(_, _) => 2
    case SigmaGapTooSmall(_, _, _) => 3
    case NoMarketSigma => 3
    case TooManyTradesToday(_, _) => 4
    case QuantityAboveMax(_, _) => 5
    case ClimOutlier(_, _, _) => 6
    case CorrelatedStation(_, _) => 7
    case ExposureAboveLimit(_, _) => 8
    case BidAskTooWide(_) => 9
  }

  /** Whether some reason came from check number `c`. */
  predicate Failed(reasons: seq<GuardReason>, c: nat)
  {
    exists i :: 0 <= i < |reasons| && CheckOf(reasons[i]) == c
  }

  /** One more reason: check c has failed if it had before or the new reason is its own. */
  lemma FailedSnoc(rs: seq<GuardReason>, g: GuardReason, c: nat)
    ensures Failed(rs + [g], c) <==> Failed(rs, c) || CheckOf(g) == c
  {
    if Failed(rs + [g], c) {
      var i :| 0 <= i < |rs + [g]| && CheckOf((rs + [g])[i]) == c;
      if i < |rs| { assert rs[i] == (rs + [g])[i]; }
    }
    if Failed(rs, c) {
      var i :| 0 <= i < |rs| && CheckOf(rs[i]) == c;
      assert (rs + [g])[i] == rs[i];
    }
    if CheckOf(g) == c {
      assert (rs + [g])[|rs|] == g;
    }
  }

  /** A check adds at most one reason, `g`, exactly when it fires. */
  lemma CheckStep(rs: seq<GuardReason>, out: seq<GuardReason>, g: GuardReason, fires: bool, c: nat)
    requires out == if fires then rs + [g] else rs
    ensures Failed(out, c) <==> Failed(rs, c) || (fires && CheckOf(g) == c)
  {
    if fires { FailedSnoc(rs, g, c); }
  }

  lemma WhitelistStep(rs: seq<GuardReason>, table: StationTable, station: string, c: nat)
    requires DistinctKeys(table)
    ensures Failed(WhitelistCheck(rs, table, station), c) <==> Failed(rs, c) || (c == 1 && WhitelistFires(table, station))
  {
    CheckStep(rs, WhitelistCheck(rs, table, station), NotWhitelisted(station), WhitelistFires(table, station), c);
  }

  lemma SpreadStep(rs: seq<GuardReason>, cfg: GuardConfig, spread: Option<real>, c: nat)
    ensures Failed(SpreadCheck(rs, cfg, spread), c) <==> Failed(rs, c) || (c == 2 && SpreadFires(cfg, spread))
  {
    CheckStep(rs, SpreadCheck(rs, cfg, spread), ModelSpreadTooWide(spread.GetOr(0.0), cfg.maxModelSpread), SpreadFires(cfg, spread), c);
  }

  lemma SigmaStep(rs: seq<GuardReason>, table: StationTable, cfg: GuardConfig, station: string, marketSigma: Option<real>, date: string, c: nat)
    ensures Failed(SigmaCheck(rs, table, cfg, station, marketSigma, date), c) <==>
      Failed(rs, c) || (c == 3 && SigmaFires(table, cfg, station, marketSigma, date))
  {
    var ours := OurSigma(table, station, date);
    var g := if marketSigma.Some? then SigmaGapTooSmall(marketSigma.value, ours, marketSigma.value - ours) else NoMarketSigma;
    CheckStep(rs, SigmaCheck(rs, table, cfg, station, marketSigma, date), g, SigmaFires(table, cfg, station, marketSigma, date), c);
  }

  lemma DailyStep(rs: seq<GuardReason>, cfg: GuardConfig, ledger: LedgerState, station: string, date: string, c: nat)
    ensures Failed(DailyCheck(rs, cfg, ledger, station, date), c) <==> Failed(rs, c) || (c == 4 && DailyFires(cfg, ledger, station, date))
  {
    var g := TooManyTradesToday(TodayCount(ledger.trades, station, date), cfg.maxTradesPerDayPerStation);
    CheckStep(rs, DailyCheck(rs, cfg, ledger, station, date), g, DailyFires(cfg, ledger, station, date), c);
  }

  lemma QuantityStep(rs: seq<GuardReason>, cfg: GuardConfig, qty: Option<real>, c: nat)
    ensures Failed(QuantityCheck(rs, cfg, qty), c) <==> Failed(rs, c) || (c == 5 && QuantityFires(cfg, qty))
  {
    CheckStep(rs, QuantityCheck(rs, cfg, qty), QuantityAboveMax(qty.GetOr(0.0), cfg.hardMaxContracts), QuantityFires(cfg, qty), c);
  }

  lemma ClimStep(rs: seq<GuardReason>, table: StationTable, cfg: GuardConfig, station: string, forecastHigh: Option<real>, date: string, c: nat)
    ensures Failed(ClimCheck(rs, table, cfg, station, forecastHigh, date), c) <==>
      Failed(rs, c) || (c == 6 && ClimFires(table, cfg, station, forecastHigh, date))
  {
    var normal := NormalHigh(table, station, date).GetOr(0.0);
    var fh := forecastHigh.GetOr(0.0);
    var g := ClimOutlier(fh, normal, AbsR(fh - normal));
    CheckStep(rs, ClimCheck(rs, table, cfg, station, forecastHigh, date), g, ClimFires(table, cfg, station, forecastHigh, date), c);
  }

  lemma CorrelationStep(rs: seq<GuardReason>, ledger: LedgerState, station: string, date: string)
    ensures CorrelationCheck(rs, ledger, station, date) == rs
  {
    CorrelationNeverFires(ledger.trades, station, date);
  }

  lemma ExposureStep(rs: seq<GuardReason>, ledger: LedgerState, station: string, c: nat)
    ensures Failed(ExposureCheck(rs, ledger, station), c) <==> Failed(rs, c) || (c == 8 && ExposureFires(ledger, station))
  {
    var g := ExposureAboveLimit(StationExposure(ledger.trades, station), ledger.balance * MaxStationExposurePct);
    CheckStep(rs, ExposureCheck(rs, ledger, station), g, ExposureFires(ledger, station), c);
  }

  lemma BidAskStep(rs: seq<GuardReason>, cfg: GuardConfig, spread: Option<real>, c: nat)
    ensures Failed(BidAskCheck(rs, cfg, spread), c) <==> Failed(rs, c) || (c == 9 && BidAskFires(cfg, spread))
  {
    CheckStep(rs, BidAskCheck(rs, cfg, spread), BidAskTooWide(spread.GetOr(0.0)), BidAskFires(cfg, spread), c);
  }

  /**
   * Check by check: check c fails exactly when its own condition holds,
   * whatever the other checks found, and the correlation check (7) never
   * fails.
   */
  lemma GuardChecksIndependent(table: StationTable, ledger: LedgerState, cfg: GuardConfig, input: GuardInput, today: string, c: nat)
    requires DistinctKeys(table)
    ensures var date := TradeDate(input, today);
      Failed(GuardReasons(table, ledger, cfg, input, today), c) <==>
        || (c == 1 && WhitelistFires(table, input.station))
        || (c == 2 && SpreadFires(cfg, input.forecastSpread))
        || (c == 3 && SigmaFires(table, cfg, input.station, input.marketSigma, date))
        || (c == 4 && DailyFires(cfg, ledger, input.station, date))
        || (c == 5 && QuantityFires(cfg, input.qty))
        || (c == 6 && ClimFires(table, cfg, input.station, input.forecastHigh, date))
        || (c == 8 && ExposureFires(ledger, input.station))
        || (c == 9 && BidAskFires(cfg, input.bidAskSpread))
  {
    var date := TradeDate(input, today);
    var st := input.station;
    assert !Failed([], c);
    var r1 := WhitelistCheck([], table, st);
    WhitelistStep([], table, st, c);
    var r2 := SpreadCheck(r1, cfg, input.forecastSpread);
    SpreadStep(r1, cfg, input.forecastSpread, c);
    var r3 := SigmaCheck(r2, table, cfg, st, input.marketSigma, date);
    SigmaStep(r2, table, cfg, st, input.marketSigma, date, c);
    var r4 := DailyCheck(r3, cfg, ledger, st, date);
    DailyStep(r3, cfg, ledger, st, date, c);
    var r5 := QuantityCheck(r4, cfg, input.qty);
    QuantityStep(r4, cfg, input.qty, c);
    var r6 := ClimCheck(r5, table, cfg, st, input.forecastHigh, date);
    ClimStep(r5, table, cfg, st, input.forecastHigh, date, c);
    var r7 := CorrelationCheck(r6, ledger, st, date);
    CorrelationStep(r6, ledger, st, date);
    var r8 := ExposureCheck(r7, ledger, st);
    ExposureStep(r7, ledger, st, c);
    BidAskStep(r8, cfg, input.bidAskSpread, c);
  }

  /**
   * A whitelisted station with a narrow model spread, a wide enough sigma
   * gap, no open trade today, no exposure and no other data, asked for 25
   * contracts: the guard refuses with the single quantity reason.
   */
  lemma OnlyQuantityFails(table: StationTable, ledger: LedgerState, input: GuardInput, today: string)
    requires DistinctKeys(table) && input.station != "" && input.station in TradeableStations(table)
    requires input.forecastSpread == Some(1.0) && input.marketSigma == Some(5.0)
    requires OurSigma(table, input.station, TradeDate(input, today)) == 2.0
    requires TodayCount(ledger.trades, input.station, TradeDate(input, today)) == 0
    requires StationExposure(ledger.trades, input.station) == 0.0 && ledger.balance >= 0.0
    requires input.forecastHigh.None? && input.bidAskSpread.None? && input.qty == Some(25.0)
    ensures GuardReasons(table, ledger, DefaultGuardConfig, input, today) == [QuantityAboveMax(25.0, 20.0)]
  {
    CorrelationNeverFires(ledger.trades, input.station, TradeDate(input, today));
  }
}
