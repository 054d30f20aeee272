// The executor: turns an approved recommendation into an order (a dry run
// by default, a live exchange order when live trading is switched on), and
// the automatic paper-trading pass that takes the best candidate of a
// recommendation run through the risk check and the guard and opens it in
// the ledger. The exchange's answers, the clock and the live-trading switch
// are parameters; console output and the JSON execution log file are
// outside the model, the log entries appended are returned instead.

module Executor {
  import opened Prelude
  import opened Text
  import opened Utils
  import opened WeatherStations
  import opened Ledger
  import opened Pending
  import Risk
  import Guard
  import Sizing

  // ------------------------------------------------------ executing one id

  /** What `kalshi.getMarket` gives: a market (status "" when it has none) or an error. */
  datatype MarketLookup = MarketFound(status: string) | LookupFailed(message: string)

  /**
   * The exchange's answers for one live execution: the balance reply in
   * cents (None when it has no balance field), the market lookup and the
   * order placement, each a Failure when the request throws.
   */
  datatype Exchange = Exchange(balanceCents: Result<Option<real>>, market: MarketLookup, placement: Result<string>)

  /** An entry of the execution log. */
  datatype LogEntry = LogEntry(
    tradeId: string,
    order: Order,
    dryRun: bool,
    timestamp: int,
    result: string,
    error: Option<string>,
    response: Option<string>)

  /** What `execute` returns on success. */
  datatype Execution = Execution(dryRun: bool, order: Order, rec: Recommendation, response: Option<string>)

  function MustBeApproved(id: string, status: string): string
  {
    "Trade " + id + " is " + status + ", must be approved"
  }

  function HasExpired(id: string): string
  {
    "Trade " + id + " has expired"
  }

  function MarketClosed(contract: string, status: string): string
  {
    "Market " + contract + " is " + status + ", not open"
  }

  /** The insufficient-funds message; the amounts it prints are not modelled. */
  const InsufficientFunds: string := "Insufficient funds"

  /**
   * The buy limit order for a recommendation: the side in lower case and
   * the price in whole cents on that side only (neither side priced when
   * the side is neither yes nor no).
   */
  function OrderFor(rec: Recommendation): (o: Order)
    ensures o.ticker == rec.contract && o.count == rec.qty && o.side == ToLower(rec.side)
    ensures o.action == "buy" && o.orderType == "limit"
    ensures o.yesPrice.Some? <==> o.side == "yes"
    ensures o.noPrice.Some? <==> o.side == "no"
    ensures o.yesPrice.None? || o.noPrice.None?
    ensures o.yesPrice.Some? ==> rec.price * 100.0 - 0.5 < o.yesPrice.value as real <= rec.price * 100.0 + 0.5
    ensures o.noPrice.Some? ==> rec.price * 100.0 - 0.5 < o.noPrice.value as real <= rec.price * 100.0 + 0.5
  {
    var side := ToLower(rec.side);
    var cents := Round(rec.price * 100.0);
    Order(rec.contract, side, "buy", rec.qty, "limit",
      if side == "yes" then Some(cents) else None,
      if side == "no" then Some(cents) else None)
  }

  /**
   * The pre-flight market check: a refusal (log result, message) when the
   * market reports a status other than open, or when the lookup failed with
   * a message that mentions "not open" or "Market"; other lookup failures
   * let the order go ahead.
   */
  function MarketRefusal(contract: string, lookup: MarketLookup): (r: Option<(string, string)>)
    ensures r.Some? && lookup.MarketFound? ==>
      r.value == ("market_closed", MarketClosed(contract, lookup.status)) && lookup.status != "" && lookup.status != "open"
    ensures r.Some? && lookup.LookupFailed? ==> r.value == ("error", lookup.message)
    ensures r.None? <==>
      (lookup.MarketFound? && (lookup.status == "" || lookup.status == "open"))
      || (lookup.LookupFailed? && !Contains(lookup.message, "not open") && !Contains(lookup.message, "Market"))
  {
    match lookup
    case MarketFound(status) =>
      if status != "" && status != "open" then Some(("market_closed", MarketClosed(contract, status))) else None
    case LookupFailed(message) =>
      if Contains(message, "not open") || Contains(message, "Market") then Some(("error", message)) else None
  }

  /** The balance `execute` reads from a balance reply, in dollars. */
  function BalanceDollars(cents: Option<real>): real
  {
    OrElse(cents, 0.0) / 100.0
  }

  /**
   * The live branch of `execute` after the order is built: the placement
   * response or the error, and the one log entry it appends.
   */
  function LiveAttempt(id: string, rec: Recommendation, order: Order, now: int, ex: Exchange): (Result<string>, LogEntry)
  {
    var entry := LogEntry(id, order, false, now, "", None, None);
    match ex.balanceCents
    case Failure(m) => (Failure(m), entry.(result := "error", error := Some(m)))
    case Success(cents) =>
      if BalanceDollars(cents) < rec.qty * rec.price then
        (Failure(InsufficientFunds), entry.(result := "insufficient_funds", error := Some(InsufficientFunds)))
      else
        var refusal := MarketRefusal(rec.contract, ex.market);
        if refusal.Some? then (Failure(refusal.value.1), entry.(result := refusal.value.0, error := Some(refusal.value.1)))
        else
          match ex.placement
          case Failure(m) => (Failure(m), entry.(result := "error", error := Some(m)))
          case Success(response) => (Success(response), entry.(result := "placed", response := Some(response)))
  }

  /** A live attempt succeeds exactly when every pre-flight check and the placement do. */
  lemma LiveAttemptSucceeds(id: string, rec: Recommendation, order: Order, now: int, ex: Exchange)
    ensures var a := LiveAttempt(id, rec, order, now, ex);
      a.0.Success? <==>
        ex.balanceCents.Success? && BalanceDollars(ex.balanceCents.value) >= rec.qty * rec.price
        && MarketRefusal(rec.contract, ex.market).None? && ex.placement.Success?
    ensures var a := LiveAttempt(id, rec, order, now, ex);
      && a.1.tradeId == id && a.1.order == order && !a.1.dryRun && a.1.timestamp == now
      && (a.0.Success? ==> a.1.result == "placed" && a.0.value == ex.placement.value && a.1.response == Some(a.0.value))
      && (a.0.Failure? ==> a.1.result != "placed" && a.1.error == Some(a.0.error) && a.1.response.None?)
  {
  }

  /** The pending records, their save count, the result and the log entries after `execute`. */
  datatype ExecState = ExecState(records: seq<Recommendation>, saves: nat, result: Result<Execution>, log: seq<LogEntry>)

  /**
   * `execute(tradeId)` at time `now`: looks the id up (which expires overdue
   * pending records), requires an approved record, refuses one past its
   * expiry, then either logs a dry run or runs the live pre-flight checks and
   * places the order, and marks the record executed on success.
   */
  function ExecuteSpec(rs: seq<Recommendation>, saves: nat, id: string, now: int, live: bool, ex: Exchange): ExecState
  {
    var rs1 := ExpireAll(rs, now);
    var s1 := saves + if AnyOverdue(rs, now) then 1 else 0;
    var k := FindFirst(rs1, id);
    if k.None? then ExecState(rs1, s1, Failure(NotFound(id)), [])
    else
      var rec := rs1[k.value];
      if rec.status != "approved" then ExecState(rs1, s1, Failure(MustBeApproved(id, rec.status)), [])
      else if rec.expiresAt <= now then
        var u := UpdateStatusSpec(rs1, id, "expired", now);
        ExecState(u.0, s1 + (if u.1.Success? then 1 else 0),
          if u.1.Failure? then Failure(u.1.error) else Failure(HasExpired(id)), [])
      else
        var order := OrderFor(rec);
        if !live then
          ExecState(MarkExecutedSpec(rs1, id, DryRunFill(order), now).0, s1 + 1,
            Success(Execution(true, order, rec, None)), [LogEntry(id, order, true, now, "dry_run", None, None)])
        else
          var a := LiveAttempt(id, rec, order, now, ex);
          if a.0.Failure? then ExecState(rs1, s1, Failure(a.0.error), [a.1])
          else
            ExecState(MarkExecutedSpec(rs1, id, LiveFill(order, a.0.value), now).0, s1 + 1,
              Success(Execution(false, order, rec, Some(a.0.value))), [a.1])
  }

  /** The record `execute` acts on: the first with the id once overdue records are expired. */
  function Target(rs: seq<Recommendation>, id: string, now: int): Option<Recommendation>
  {
    var rs1 := ExpireAll(rs, now);
    var k := FindFirst(rs1, id);
    if k.Some? then Some(rs1[k.value]) else None
  }

  /** An approved record whose expiry time has not come. */
  predicate Executable(rec: Option<Recommendation>, now: int)
  {
    rec.Some? && rec.value.status == "approved" && rec.value.expiresAt > now
  }

  /**
   * Only an approved, unexpired record is executed; a success marks exactly
   * that record executed with the order's fill and changes no other record;
   * a dry run always succeeds and a live run succeeds exactly when the
   * pre-flight checks and the placement do.
   */
  lemma ExecuteSucceeds(rs: seq<Recommendation>, saves: nat, id: string, now: int, live: bool, ex: Exchange)
    ensures var e := ExecuteSpec(rs, saves, id, now, live, ex);
      var rec := Target(rs, id, now);
      e.result.Success? <==>
        Executable(rec, now) && (!live ||
          (ex.balanceCents.Success? && BalanceDollars(ex.balanceCents.value) >= rec.value.qty * rec.value.price
           && MarketRefusal(rec.value.contract, ex.market).None? && ex.placement.Success?))
    ensures var e := ExecuteSpec(rs, saves, id, now, live, ex);
      var rs1 := ExpireAll(rs, now);
      e.result.Success? ==>
        var k := FindFirst(rs1, id).value;
        && e.result.value.rec == rs1[k] && e.result.value.dryRun == !live
        && e.result.value.order == OrderFor(rs1[k])
        && |e.records| == |rs| && e.records[k].status == "executed"
        && e.records[k].fill == Some(if live then LiveFill(e.result.value.order, e.result.value.response.value)
                                     else DryRunFill(e.result.value.order))
        && (forall j :: 0 <= j < |rs| && j != k ==> e.records[j] == rs1[j])
        && e.saves == saves + (if AnyOverdue(rs, now) then 1 else 0) + 1
  {
    var rs1 := ExpireAll(rs, now);
    var k := FindFirst(rs1, id);
    if k.Some? && rs1[k.value].status == "approved" && rs1[k.value].expiresAt > now && live {
      LiveAttemptSucceeds(id, rs1[k.value], OrderFor(rs1[k.value]), now, ex);
    }
  }

  /**
   * A failed execution leaves every record as reading the store left it
   * (an approved record stays approved, so it can be retried) and writes
   * nothing beyond the expiry save.
   */
  lemma ExecuteFailureKeepsRecords(rs: seq<Recommendation>, saves: nat, id: string, now: int, live: bool, ex: Exchange)
    ensures var e := ExecuteSpec(rs, saves, id, now, live, ex);
      e.result.Failure? ==>
        e.records == ExpireAll(rs, now) && e.saves == saves + (if AnyOverdue(rs, now) then 1 else 0)
  {
  }

  /**
   * The expiry branch never expires anything: the record is approved, not
   * pending, so the status update throws and `execute` fails with the
   * update's message, not "has expired", leaving the record approved.
   */
  lemma ExpiredApprovedStaysApproved(rs: seq<Recommendation>, saves: nat, id: string, now: int, live: bool, ex: Exchange)
    requires var rec := Target(rs, id, now); rec.Some? && rec.value.status == "approved" && rec.value.expiresAt <= now
    ensures var e := ExecuteSpec(rs, saves, id, now, live, ex);
      && e.result == Failure(NotPending(id, "approved"))
      && e.records == ExpireAll(rs, now) && e.log == []
      && e.records[FindFirst(e.records, id).value].status == "approved"
  {
  }

  /**
   * One log entry is appended exactly when the record is executable, and it
   * records the mode; a dry run's entry is 'dry_run' and a live one ends
   * 'placed' exactly on success.
   */
  lemma ExecuteLogsOnce(rs: seq<Recommendation>, saves: nat, id: string, now: int, live: bool, ex: Exchange)
    ensures var e := ExecuteSpec(rs, saves, id, now, live, ex);
      && |e.log| == (if Executable(Target(rs, id, now), now) then 1 else 0)
      && (e.log != [] ==> e.log[0].tradeId == id && e.log[0].dryRun == !live && e.log[0].timestamp == now
                          && e.log[0].order == OrderFor(Target(rs, id, now).value))
      && (e.log != [] && !live ==> e.log[0].result == "dry_run")
      && (e.log != [] && live ==> (e.log[0].result == "placed" <==> e.result.Success?))
  {
    var rs1 := ExpireAll(rs, now);
    var k := FindFirst(rs1, id);
    if k.Some? && rs1[k.value].status == "approved" && rs1[k.value].expiresAt > now && live {
      LiveAttemptSucceeds(id, rs1[k.value], OrderFor(rs1[k.value]), now, ex);
    }
  }

  /** A dry run never consults the exchange: its answers change nothing. */
  lemma DryRunIgnoresExchange(rs: seq<Recommendation>, saves: nat, id: string, now: int, ex1: Exchange, ex2: Exchange)
    ensures ExecuteSpec(rs, saves, id, now, false, ex1) == ExecuteSpec(rs, saves, id, now, false, ex2)
  {
  }

  /** The live branch of `execute`: balance, market and placement, one log entry whatever happens. */
  method PlaceLive(id: string, rec: Recommendation, order: Order, now: int, ex: Exchange)
    returns (placed: Result<string>, entry: LogEntry)
    ensures (placed, entry) == LiveAttempt(id, rec, order, now, ex)
  {
    entry := LogEntry(id, order, false, now, "", None, None);
    if ex.balanceCents.Failure? {
      placed := Failure(ex.balanceCents.error);
      entry := entry.(result := "error", error := Some(placed.error));
      return;
    }
    var balance := BalanceDollars(ex.balanceCents.value);
    var cost := rec.qty * rec.price;
    if balance < cost {
      placed := Failure(InsufficientFunds);
      entry := entry.(result := "insufficient_funds", error := Some(InsufficientFunds));
      return;
    }
    var refusal := MarketRefusal(rec.contract, ex.market);
    if refusal.Some? {
      placed := Failure(refusal.value.1);
      entry := entry.(result := refusal.value.0, error := Some(refusal.value.1));
      return;
    }
    placed := ex.placement;
    if placed.Failure? {
      entry := entry.(result := "error", error := Some(placed.error));
    } else {
      entry := entry.(result := "placed", response := Some(placed.value));
    }
  }

  /** `execute(tradeId)` against the pending store; returns the log entries it appends. */
  method Execute(store: PendingStore, id: string, now: int, live: bool, ex: Exchange)
    returns (r: Result<Execution>, log: seq<LogEntry>)
    modifies store
    ensures var e := ExecuteSpec(old(store.records), old(store.saves), id, now, live, ex);
      store.records == e.records && store.saves == e.saves && r == e.result && log == e.log
  {
    log := [];
    var found := store.FindById(id, now);
    if found.None? {
      r := Failure(NotFound(id));
      return;
    }
    var rec := found.value;
    if rec.status != "approved" {
      r := Failure(MustBeApproved(id, rec.status));
      return;
    }
    if rec.expiresAt <= now {
      var upd := store.UpdateStatus(id, "expired", now);
      r := if upd.Failure? then Failure(upd.error) else Failure(HasExpired(id));
      return;
    }
    var order := OrderFor(rec);
    if !live {
      log := [LogEntry(id, order, true, now, "dry_run", None, None)];
      var marked := store.MarkExecuted(id, DryRunFill(order), now);
      r := Success(Execution(true, order, rec, None));
      return;
    }
    var placed, entry := PlaceLive(id, rec, order, now, ex);
    log := [entry];
    if placed.Failure? {
      r := Failure(placed.error);
      return;
    }
    var marked := store.MarkExecuted(id, LiveFill(order, placed.value), now);
    r := Success(Execution(false, order, rec, Some(placed.value)));
  }

  // ------------------------------------------------- automatic paper trading

  /** A recommendation that passed the run's filters, as `executeApprovedTrades` reads it. */
  datatype Candidate = Candidate(
    strategy: string,
    station: string,
    ticker: string,
    side: string,
    price: real,
    edge: real,
    pEst: Option<real>,
    sigma: Option<real>,
    marketSigma: Option<real>,
    forecastSpread: Option<real>,
    forecastHigh: Option<real>,
    date: string,
    contracts: Option<real>,
    dollarRisk: Option<real>)

  /** What the pass needs besides the ledger: limits, guard settings, station table, dates and the size cap. */
  datatype Settings = Settings(
    limits: Risk.RiskLimits,
    guard: Guard.GuardConfig,
    table: StationTable,
    today: string,
    stamp: string,
    maxContracts: real)

  /** Positive edge after the transaction cost and a positive sized quantity. */
  predicate Eligible(c: Candidate)
  {
    c.edge - Sizing.TransactionCost > 0.0 && c.contracts.Some? && c.contracts.value > 0.0
  }

  /** The eligible candidates, in order. */
  function EligibleOnes(cs: seq<Candidate>): (r: seq<Candidate>)
    ensures forall x :: x in r ==> x in cs && Eligible(x)
    ensures forall i :: 0 <= i < |cs| && Eligible(cs[i]) ==> cs[i] in r
    ensures r != [] ==> exists i :: 0 <= i < |cs| && cs[i] == r[0] && forall j :: 0 <= j < i ==> !Eligible(cs[j])
  {
    if cs == [] then []
    else if Eligible(cs[0]) then [cs[0]] + EligibleOnes(cs[1..])
    else
      var rest := EligibleOnes(cs[1..]);
      assert rest != [] ==> exists i :: 0 <= i < |cs| && cs[i] == rest[0] && forall j :: 0 <= j < i ==> !Eligible(cs[j]) by {
        if rest != [] {
          var i :| 0 <= i < |cs[1..]| && cs[1..][i] == rest[0] && forall j :: 0 <= j < i ==> !Eligible(cs[1..][j]);
          assert cs[i + 1] == rest[0];
          assert forall j :: 0 <= j < i + 1 ==> !Eligible(cs[j]) by {
            forall j | 0 <= j < i + 1 ensures !Eligible(cs[j]) {
              if j > 0 {
                assert cs[j] == cs[1..][j - 1];
              }
            }
          }
        }
      }
      rest
  }

  /** `combined.filter(...).slice(0, 1)`: the first eligible candidate, if any. */
  function ExecutableOnes(cs: seq<Candidate>): (r: seq<Candidate>)
    ensures |r| <= 1
    ensures r == [] <==> forall i :: 0 <= i < |cs| ==> !Eligible(cs[i])
    ensures r != [] ==> Eligible(r[0]) && exists i :: 0 <= i < |cs| && cs[i] == r[0] && forall j :: 0 <= j < i ==> !Eligible(cs[j])
  {
    var e := EligibleOnes(cs);
    if e == [] then [] else
      assert e[0] in e;
      [e[0]]
  }

  /** The guard input built for a weather candidate: the uncapped size, no bid-ask spread. */
  function GuardInputFor(c: Candidate): Guard.GuardInput
  {
    Guard.GuardInput(c.station, c.contracts, c.forecastSpread, c.marketSigma, c.forecastHigh, c.date, None)
  }

  /** The metadata spread onto the trade: expected edge, and pEst and the sigmas when present. */
  function TradeMeta(c: Candidate): (m: TradeFields)
    ensures m.qty.None? && m.price.None? && m.cost.None? && m.id.None? && m.settled.None? && m.pnl.None?
    ensures m.station.None? && m.contract.None? && m.side.None? && m.status.None?
    ensures "expectedEdge" in m.extra && m.extra["expectedEdge"] == c.edge
  {
    var extra := map["expectedEdge" := c.edge]
      + (if c.pEst.Some? then map["pEst" := c.pEst.value] else map[])
      + (if c.marketSigma.Some? then map["marketSigma" := c.marketSigma.value] else map[])
      + (if c.sigma.Some? then map["ourSigma" := c.sigma.value] else map[]);
    NoFields.(extra := extra)
  }

  /** How one candidate ended: placed with the dollars put at risk, blocked, or failed. */
  datatype Attempt = Placed(risk: real) | Blocked | Failed

  /** The contracts actually traded: the sized quantity, capped. */
  function Capped(c: Candidate, maxContracts: real): real
  {
    MinR(c.contracts.GetOr(0.0), maxContracts)
  }

  /**
   * A candidate the loop goes on to trade: no risk limit violated with its
   * station and dollar risk, and for weather a market sigma and no guard
   * reason.
   */
  predicate Admissible(s: LedgerState, c: Candidate, cfg: Settings)
    requires DistinctKeys(cfg.table)
  {
    && Risk.RiskViolations(s, cfg.limits, cfg.today, c.station, OrElse(c.dollarRisk, 0.0)) == []
    && (c.strategy == "weather" ==>
          Truthy(c.marketSigma) && Guard.GuardReasons(cfg.table, s, cfg.guard, GuardInputFor(c), cfg.today) == [])
  }

  /** One turn of the execution loop on ledger `s`. */
  function AttemptSpec(s: LedgerState, c: Candidate, cfg: Settings): (LedgerState, Attempt)
    requires DistinctKeys(cfg.table)
  {
    if !Admissible(s, c, cfg) then (s, Blocked) else OpenAttempt(s, c, cfg)
  }

  /** Opening the capped trade: failed when the balance does not cover it. */
  function OpenAttempt(s: LedgerState, c: Candidate, cfg: Settings): (LedgerState, Attempt)
  {
    var capped := Capped(c, cfg.maxContracts);
    var o := Open(s, cfg.stamp, c.strategy, c.station, c.ticker, ToLower(c.side), capped, c.price, TradeMeta(c));
    if o.1.Failure? then (s, Failed) else (o.0, Placed(capped * c.price))
  }

  /** The session counters. */
  datatype Counters = Counters(placed: nat, blocked: nat, failed: nat, totalRisk: real)

  function Count(n: Counters, a: Attempt): Counters
  {
    match a
    case Placed(risk) => n.(placed := n.placed + 1, totalRisk := n.totalRisk + risk)
    case Blocked => n.(blocked := n.blocked + 1)
    case Failed => n.(failed := n.failed + 1)
  }

  /** The loop over `xs`, from ledger `s` and counters `n`. */
  function RunAttempts(s: LedgerState, n: Counters, xs: seq<Candidate>, cfg: Settings): (LedgerState, Counters)
    requires DistinctKeys(cfg.table)
  {
    if xs == [] then (s, n)
    else
      var p := RunAttempts(s, n, xs[..|xs| - 1], cfg);
      var a := AttemptSpec(p.0, xs[|xs| - 1], cfg);
      (a.0, Count(p.1, a.1))
  }

  /** How a pass ended. */
  datatype PassOutcome =
    | RiskBlocked(violations: seq<Risk.RiskViolation>)
    | LiveRefused
    | NoCandidates
    | NoPositiveEdge(blocked: nat)
    | Session(placed: nat, blocked: nat, failed: nat, totalRisk: real)

  /**
   * `executeApprovedTrades`: stops on any global risk violation, in live
   * mode and when there is nothing to trade; otherwise runs the loop over
   * the first eligible candidate, starting the blocked count at the number
   * the guard already blocked upstream.
   */
  function PassSpec(s: LedgerState, cands: seq<Candidate>, blockedWeather: nat, live: bool, cfg: Settings): (LedgerState, PassOutcome)
    requires DistinctKeys(cfg.table)
  {
    var global := Risk.RiskViolations(s, cfg.limits, cfg.today, "", 0.0);
    if global != [] then (s, RiskBlocked(global))
    else if live then (s, LiveRefused)
    else if cands == [] then (s, NoCandidates)
    else
      var xs := ExecutableOnes(cands);
      if xs == [] then (s, NoPositiveEdge(blockedWeather))
      else
        var r := RunAttempts(s, Counters(0, blockedWeather, 0, 0.0), xs, cfg);
        (r.0, Session(r.1.placed, r.1.blocked, r.1.failed, r.1.totalRisk))
  }

  /** Nothing is traded while a global limit is violated, in live mode, or with no eligible candidate. */
  lemma PassRefusals(s: LedgerState, cands: seq<Candidate>, blockedWeather: nat, live: bool, cfg: Settings)
    requires DistinctKeys(cfg.table)
    ensures var r := PassSpec(s, cands, blockedWeather, live, cfg);
      (Risk.RiskViolations(s, cfg.limits, cfg.today, "", 0.0) != [] || live
       || forall i :: 0 <= i < |cands| ==> !Eligible(cands[i])) ==> r.0 == s && !r.1.Session?
  {
  }

  /**
   * A pass accounts for its one executable candidate exactly once, opens
   * at most one trade, and reports as risk only what it opened.
   */
  lemma PassOpensAtMostOne(s: LedgerState, cands: seq<Candidate>, blockedWeather: nat, live: bool, cfg: Settings)
    requires DistinctKeys(cfg.table)
    ensures var r := PassSpec(s, cands, blockedWeather, live, cfg);
      r.0 == s || (|r.0.trades| == |s.trades| + 1 && r.0.trades == s.trades + [r.0.trades[|s.trades|]])
    ensures var r := PassSpec(s, cands, blockedWeather, live, cfg);
      r.1.Session? ==>
        && r.1.placed + (r.1.blocked - blockedWeather) + r.1.failed == 1 && r.1.blocked >= blockedWeather
        && (r.1.placed == 1 <==> |r.0.trades| == |s.trades| + 1)
        && (r.1.placed == 0 ==> r.0 == s && r.1.totalRisk == 0.0)
  {
    PassRunsFirstEligible(s, cands, blockedWeather, live, cfg);
    var global := Risk.RiskViolations(s, cfg.limits, cfg.today, "", 0.0);
    if global == [] && !live && cands != [] && ExecutableOnes(cands) != [] {
      AttemptEffect(s, ExecutableOnes(cands)[0], cfg);
    }
  }

  /**
   * The trade a pass opens is the first eligible candidate's, with the
   * lower-cased side and the sized quantity capped at `maxContracts`, and it
   * is opened only for an admissible candidate.
   */
  lemma PassTradeIsFirstEligible(s: LedgerState, cands: seq<Candidate>, blockedWeather: nat, live: bool, cfg: Settings)
    requires DistinctKeys(cfg.table)
    ensures var r := PassSpec(s, cands, blockedWeather, live, cfg);
      |r.0.trades| > |s.trades| ==>
        var c := ExecutableOnes(cands)[0];
        var t := r.0.trades[|s.trades|];
        && Eligible(c) && !live && r.1.Session? && Admissible(s, c, cfg)
        && t.contract == c.ticker && t.side == ToLower(c.side) && t.price == c.price
        && t.qty == Capped(c, cfg.maxContracts) && t.qty <= cfg.maxContracts && t.qty <= c.contracts.value
        && t.cost == Capped(c, cfg.maxContracts) * c.price && r.1.totalRisk == t.cost
  {
    PassRunsFirstEligible(s, cands, blockedWeather, live, cfg);
    var r := PassSpec(s, cands, blockedWeather, live, cfg);
    if |r.0.trades| > |s.trades| {
      var c := ExecutableOnes(cands)[0];
      AttemptEffect(s, c, cfg);
      var a := AttemptSpec(s, c, cfg);
      assert a.1.Placed?;
      assert r.0 == a.0;
      var t := r.0.trades[|s.trades|];
    }
  }

  /** A pass that gets to the loop makes one attempt, on the first eligible candidate. */
  lemma PassRunsFirstEligible(s: LedgerState, cands: seq<Candidate>, blockedWeather: nat, live: bool, cfg: Settings)
    requires DistinctKeys(cfg.table)
    ensures var r := PassSpec(s, cands, blockedWeather, live, cfg);
      r.1.Session? <==>
        Risk.RiskViolations(s, cfg.limits, cfg.today, "", 0.0) == [] && !live && ExecutableOnes(cands) != []
    ensures var r := PassSpec(s, cands, blockedWeather, live, cfg);
      !r.1.Session? ==> r.0 == s
    ensures var r := PassSpec(s, cands, blockedWeather, live, cfg);
      r.1.Session? ==>
        var a := AttemptSpec(s, ExecutableOnes(cands)[0], cfg);
        r == (a.0, Session(if a.1.Placed? then 1 else 0, blockedWeather + if a.1.Blocked? then 1 else 0,
                            if a.1.Failed? then 1 else 0, if a.1.Placed? then a.1.risk else 0.0))
  {
    var global := Risk.RiskViolations(s, cfg.limits, cfg.today, "", 0.0);
    if global == [] && !live && cands != [] {
      var xs := ExecutableOnes(cands);
      if xs != [] {
        assert xs == [xs[0]];
        RunOne(s, Counters(0, blockedWeather, 0, 0.0), xs[0], cfg);
      }
    }
  }

  /** The loop over a single candidate is one attempt. */
  lemma RunOne(s: LedgerState, n: Counters, x: Candidate, cfg: Settings)
    requires DistinctKeys(cfg.table)
    ensures RunAttempts(s, n, [x], cfg) == (AttemptSpec(s, x, cfg).0, Count(n, AttemptSpec(s, x, cfg).1))
  {
    assert [x][..0] == [];
  }

  /**
   * One attempt opens exactly one trade when it is placed, for the capped
   * quantity, and then only for an admissible candidate; otherwise the
   * ledger does not change.
   */
  lemma AttemptEffect(s: LedgerState, c: Candidate, cfg: Settings)
    requires DistinctKeys(cfg.table)
    ensures var a := AttemptSpec(s, c, cfg);
      !a.1.Placed? ==> a.0 == s
    ensures var a := AttemptSpec(s, c, cfg);
      a.1.Placed? ==>
        && Admissible(s, c, cfg)
        && |a.0.trades| == |s.trades| + 1 && a.0.trades == s.trades + [a.0.trades[|s.trades|]]
        && var t := a.0.trades[|s.trades|];
           && t.contract == c.ticker && t.side == ToLower(c.side) && t.price == c.price && t.strategy == c.strategy
           && t.qty == Capped(c, cfg.maxContracts) && t.cost == Capped(c, cfg.maxContracts) * c.price && a.1.risk == t.cost
  {
    if Admissible(s, c, cfg) {
      var o := Open(s, cfg.stamp, c.strategy, c.station, c.ticker, ToLower(c.side), Capped(c, cfg.maxContracts), c.price, TradeMeta(c));
      assert OpenAttempt(s, c, cfg).0 == (if o.1.Failure? then s else o.0);
    }
  }

  /** The checks of one loop turn, in order: the risk check, then for weather the market sigma and the guard. */
  method Admit(s: LedgerState, c: Candidate, cfg: Settings) returns (ok: bool)
    requires DistinctKeys(cfg.table)
    ensures ok <==> Admissible(s, c, cfg)
  {
    var allowed, violations := Risk.CheckRiskLimits(s, cfg.limits, cfg.today, c.station, OrElse(c.dollarRisk, 0.0));
    if !allowed {
      return false;
    }
    if c.strategy == "weather" {
      if !Truthy(c.marketSigma) {
        return false;
      }
      var pass, reasons := Guard.RunGuards(cfg.table, s, cfg.guard, GuardInputFor(c), cfg.today);
      if !pass {
        return false;
      }
    }
    ok := true;
  }

  /** One turn of the loop: the checks, then the capped paper trade. */
  method TryCandidate(book: LedgerBook, c: Candidate, cfg: Settings) returns (a: Attempt)
    requires DistinctKeys(cfg.table)
    modifies book
    ensures (book.State(), a) == AttemptSpec(old(book.State()), c, cfg)
  {
    var ok := Admit(book.State(), c, cfg);
    if !ok {
      return Blocked;
    }
    a := OpenCandidate(book, c, cfg);
  }

  /** The paper trade of an admitted candidate: the capped quantity at the candidate's price. */
  method OpenCandidate(book: LedgerBook, c: Candidate, cfg: Settings) returns (a: Attempt)
    modifies book
    ensures (book.State(), a) == OpenAttempt(old(book.State()), c, cfg)
  {
    ghost var s := book.State();
    var capped := Capped(c, cfg.maxContracts);
    var openResult := book.ExecuteTrade(c.station, c.ticker, ToLower(c.side), capped, c.price, c.strategy, TradeMeta(c), cfg.stamp);
    if openResult.Failure? {
      return Failed;
    }
    a := Placed(capped * c.price);
    assert s == old(book.State());
    assert book.State() == OpenAttempt(s, c, cfg).0;
    assert a == OpenAttempt(s, c, cfg).1;
  }

  /** `executeApprovedTrades` on the ledger document. */
  method ExecuteApprovedTrades(book: LedgerBook, cands: seq<Candidate>, blockedWeather: nat, live: bool, cfg: Settings)
    returns (out: PassOutcome)
    requires DistinctKeys(cfg.table)
    modifies book
    ensures (book.State(), out) == PassSpec(old(book.State()), cands, blockedWeather, live, cfg)
  {
    var allowed, violations := Risk.CheckRiskLimits(book.State(), cfg.limits, cfg.today, "", 0.0);
    if !allowed {
      return RiskBlocked(violations);
    }
    if live {
      return LiveRefused;
    }
    if |cands| == 0 {
      return NoCandidates;
    }
    var xs := ExecutableOnes(cands);
    if |xs| == 0 {
      return NoPositiveEdge(blockedWeather);
    }
    ghost var s0 := book.State();
    var n := Counters(0, blockedWeather, 0, 0.0);
    for i := 0 to |xs|
      invariant (book.State(), n) == RunAttempts(s0, Counters(0, blockedWeather, 0, 0.0), xs[..i], cfg)
    {
      assert xs[..i + 1][..i] == xs[..i];
      var a := TryCandidate(book, xs[i], cfg);
      n := Count(n, a);
    }
    assert xs[..|xs|] == xs;
    out := Session(n.placed, n.blocked, n.failed, n.totalRisk);
  }
}
