// The paper-trading ledger: a balance, the ordered list of trades and the
// log of settlement runs. Opening a trade debits its cost; settling a date
// resolves every open threshold (-T) or bracket (-B) trade against observed
// highs and credits the payout. Loading and saving the JSON file, logging
// and the clock are outside the model; timestamps are parameters.

module Ledger {
  import opened Prelude
  import opened Text
  import opened Utils
  import Markets

  const InitialBalance: real := 1000.0

  datatype Trade = Trade(
    id: int,
    timestamp: string,
    strategy: string,
    station: string,
    contract: string,
    side: string,
    qty: real,
    price: real,
    cost: real,
    settled: bool,
    pnl: Option<real>,
    settledAt: Option<string>,
    actualHigh: Option<real>,
    status: Option<string>,
    extra: map<string, real>)

  /**
   * Properties copied onto a trade by an object spread or `Object.assign`:
   * each present field replaces the trade's own, and `extra` carries the
   * remaining numeric keys (expectedEdge, pEst, ...).
   */
  datatype TradeFields = TradeFields(
    id: Option<int>,
    station: Option<string>,
    contract: Option<string>,
    side: Option<string>,
    qty: Option<real>,
    price: Option<real>,
    cost: Option<real>,
    settled: Option<bool>,
    pnl: Option<real>,
    status: Option<string>,
    extra: map<string, real>)

  const NoFields := TradeFields(None, None, None, None, None, None, None, None, None, None, map[])

  /** The trade with every present field of `f` written over it. */
  function Assign(t: Trade, f: TradeFields): (r: Trade)
    ensures r.id == f.id.GetOr(t.id) && r.station == f.station.GetOr(t.station)
    ensures r.contract == f.contract.GetOr(t.contract) && r.side == f.side.GetOr(t.side)
    ensures r.qty == f.qty.GetOr(t.qty) && r.price == f.price.GetOr(t.price)
    ensures r.cost == f.cost.GetOr(t.cost) && r.settled == f.settled.GetOr(t.settled)
    ensures r.pnl == (if f.pnl.Some? then f.pnl else t.pnl)
    ensures r.status == (if f.status.Some? then f.status else t.status)
    ensures r.timestamp == t.timestamp && r.strategy == t.strategy
    ensures r.settledAt == t.settledAt && r.actualHigh == t.actualHigh
    ensures forall k :: k in r.extra <==> k in t.extra || k in f.extra
    ensures forall k :: k in f.extra ==> r.extra[k] == f.extra[k]
  {
    Trade(f.id.GetOr(t.id), t.timestamp, t.strategy, f.station.GetOr(t.station),
      f.contract.GetOr(t.contract), f.side.GetOr(t.side), f.qty.GetOr(t.qty),
      f.price.GetOr(t.price), f.cost.GetOr(t.cost), f.settled.GetOr(t.settled),
      if f.pnl.Some? then f.pnl else t.pnl, t.settledAt, t.actualHigh,
      if f.status.Some? then f.status else t.status, t.extra + f.extra)
  }

  lemma AssignNothing(t: Trade)
    ensures Assign(t, NoFields) == t
  {
    assert t.extra + map[] == t.extra;
  }

  datatype SettlementRecord = SettlementRecord(date: string, settledAt: string, count: nat)

  datatype LedgerState = LedgerState(balance: real, trades: seq<Trade>, settlements: seq<SettlementRecord>)

  /** The document a missing ledger file stands for. */
  const FreshLedger := LedgerState(InitialBalance, [], [])

  // -------------------------------------------------------------- open trade

  /** The trade `executeTrade` records before it is spread with metadata. */
  function NewTrade(id: int, now: string, strategy: string, station: string, contract: string,
                    side: string, qty: real, price: real, meta: TradeFields): (t: Trade)
    ensures t.cost == meta.cost.GetOr(qty * price) && t.id == meta.id.GetOr(id)
    ensures t.settled == meta.settled.GetOr(false) && t.pnl == meta.pnl
    ensures t.station == meta.station.GetOr(station) && t.contract == meta.contract.GetOr(contract)
    ensures t.side == meta.side.GetOr(side) && t.qty == meta.qty.GetOr(qty) && t.price == meta.price.GetOr(price)
    ensures t.timestamp == now && t.strategy == strategy
  {
    Assign(Trade(id, now, strategy, station, contract, side, qty, price, qty * price, false, None, None, None, None, map[]), meta)
  }

  /**
   * `executeTrade`: fails with "Insufficient balance", changing nothing,
   * when qty·price exceeds the balance; otherwise appends the new trade with
   * id = number of trades + 1 and debits its cost, rounded to the cent.
   */
  function Open(s: LedgerState, now: string, strategy: string, station: string, contract: string,
                side: string, qty: real, price: real, meta: TradeFields): (r: (LedgerState, Result<Trade>))
    ensures qty * price > s.balance <==> r.1.Failure?
    ensures r.1.Failure? ==> r.0 == s
    ensures r.1.Success? ==>
      var t := r.1.value;
      r.0.trades == s.trades + [t] && r.0.settlements == s.settlements
      && r.0.balance == Round2(s.balance - qty * price)
      && t == NewTrade(|s.trades| + 1, now, strategy, station, contract, side, qty, price, meta)
  {
    var cost := qty * price;
    if cost > s.balance then (s, Failure("Insufficient balance"))
    else
      var t := NewTrade(|s.trades| + 1, now, strategy, station, contract, side, qty, price, meta);
      (LedgerState(Round2(s.balance - cost), s.trades + [t], s.settlements), Success(t))
  }

  /** With no metadata the new trade is open, has no pnl and costs qty·price. */
  lemma OpenWithoutMetadata(s: LedgerState, now: string, strategy: string, station: string, contract: string,
                            side: string, qty: real, price: real)
    requires qty * price <= s.balance
    ensures var r := Open(s, now, strategy, station, contract, side, qty, price, NoFields);
      r.1.Success? && r.1.value.id == |s.trades| + 1 && !r.1.value.settled && r.1.value.pnl.None?
      && r.1.value.cost == qty * price && r.0.trades[|s.trades|] == r.1.value
  {
  }

  // ---------------------------------------------------------------- settling

  datatype Observation = Observation(highF: Option<real>)

  /**
   * The value of the regex `-<c>([\d.]+)$` on `s`: the maximal trailing run
   * of digits and dots, when it is non-empty and preceded by "-" and `c`.
   */
  function SuffixValue(s: string, c: char): (r: Option<string>)
    requires !IsDigitOrDot(c)
    ensures r.Some? ==> (|r.value| >= 1 && |r.value| + 2 <= |s| && (forall i :: 0 <= i < |r.value| ==> IsDigitOrDot(r.value[i]))
      && s == s[..|s| - |r.value| - 2] + ['-', c] + r.value)
  {
    var n := TrailingRun(s);
    if 1 <= n && n + 2 <= |s| && s[|s| - n - 2] == '-' && s[|s| - n - 1] == c then
      var v := s[|s| - n..];
      assert s == s[..|s| - n - 2] + ['-', c] + v;
      Some(v)
    else None
  }

  /** The length of the longest suffix of `s` made of digits and dots. */
  function TrailingRun(s: string): (n: nat)
    ensures n <= |s| && forall i :: |s| - n <= i < |s| ==> IsDigitOrDot(s[i])
    ensures n < |s| ==> !IsDigitOrDot(s[|s| - n - 1])
  {
    if s == [] || !IsDigitOrDot(s[|s| - 1]) then 0
    else 1 + TrailingRun(s[..|s| - 1])
  }

  lemma {:induction false} TrailingRunOf(p: string, v: string)
    requires (p == [] || !IsDigitOrDot(p[|p| - 1])) && forall i :: 0 <= i < |v| ==> IsDigitOrDot(v[i])
    ensures TrailingRun(p + v) == |v|
  {
    if v == [] {
      assert p + v == p;
    } else {
      assert (p + v)[..|p + v| - 1] == p + v[..|v| - 1];
      TrailingRunOf(p, v[..|v| - 1]);
    }
  }

  /** The regex matcher is complete: any `-c<digits and dots>` ending is found. */
  lemma SuffixValueComplete(p: string, c: char, v: string)
    requires !IsDigitOrDot(c) && |v| >= 1 && forall i :: 0 <= i < |v| ==> IsDigitOrDot(v[i])
    ensures SuffixValue(p + ['-', c] + v, c) == Some(v)
  {
    var s := p + ['-', c] + v;
    TrailingRunOf(p + ['-', c], v);
    assert s[|s| - |v|..] == v;
  }

  /** The contract kind `settleDate` reads from a ticker. */
  datatype SettleKind = ThresholdAt(threshold: Option<real>) | BracketAt(bracket: Option<real>)

  function ContractKind(contract: string): (r: Option<SettleKind>)
    ensures r.None? <==> SuffixValue(contract, 'T').None? && SuffixValue(contract, 'B').None?
    ensures r.Some? && r.value.ThresholdAt? <==> SuffixValue(contract, 'T').Some?
  {
    var t := SuffixValue(contract, 'T');
    var b := SuffixValue(contract, 'B');
    if t.Some? then Some(ThresholdAt(ParseDecimal(t.value)))
    else if b.Some? then Some(BracketAt(ParseDecimal(b.value)))
    else None
  }

  /** `x >= y` where a missing operand (NaN, undefined) compares false. */
  predicate AtLeast(x: Option<real>, y: Option<real>)
  {
    x.Some? && y.Some? && x.value >= y.value
  }

  /** floor(b) <= high < ceil(b) + (1 if b is integral). */
  predicate InBracket(high: Option<real>, b: Option<real>)
  {
    high.Some? && b.Some?
    && high.value >= b.value.Floor as real
    && high.value < (Markets.CeilR(b.value) + (if b.value == b.value.Floor as real then 1 else 0)) as real
  }

  /** Whether the trade on `side` wins given the observed high. */
  predicate Wins(kind: SettleKind, side: string, high: Option<real>)
  {
    var hit := match kind
      case ThresholdAt(t) => AtLeast(high, t)
      case BracketAt(b) => InBracket(high, b);
    (side == "yes" && hit) || (side == "no" && !hit)
  }

  datatype SettleResult = SettleResult(trade: Trade, payout: real, won: bool)

  /** Whether `settleDate` settles this trade: open, a -T/-B contract and an observation. */
  predicate Settles(t: Trade, actuals: map<string, Observation>)
  {
    !t.settled && ContractKind(t.contract).Some? && t.station in actuals
  }

  /** The outcome of settling an eligible trade. */
  function Resolve(t: Trade, actuals: map<string, Observation>, now: string): (r: SettleResult)
    requires Settles(t, actuals)
    ensures r.won == Wins(ContractKind(t.contract).value, t.side, actuals[t.station].highF)
    ensures r.payout == (if r.won then t.qty else 0.0)
    ensures r.trade.settled && r.trade.pnl == Some(Round2(r.payout - t.cost))
    ensures r.trade == t.(settled := true, pnl := r.trade.pnl, settledAt := Some(now), actualHigh := actuals[t.station].highF)
  {
    var high := actuals[t.station].highF;
    var won := Wins(ContractKind(t.contract).value, t.side, high);
    var payout := if won then t.qty * 1.00 else 0.0;
    var settledTrade := t.(settled := true, pnl := Some(Round2(payout - t.cost)), settledAt := Some(now), actualHigh := high);
    SettleResult(settledTrade, payout, won)
  }

  datatype Settlement = Settlement(trades: seq<Trade>, balance: real, results: seq<SettleResult>)

  /**
   * The trades, balance and results after the settlement loop has passed
   * over `ts` starting from balance `b`.
   */
  function SettleAll(ts: seq<Trade>, b: real, actuals: map<string, Observation>, now: string): (r: Settlement)
    ensures |r.trades| == |ts|
  {
    SettleWith(ts, b, Decide(actuals, now))
  }

  /** The same loop, with `decide` giving the fate of each trade it passes over. */
  function SettleWith(ts: seq<Trade>, b: real, decide: Trade -> Option<SettleResult>): (r: Settlement)
    ensures |r.trades| == |ts|
  {
    if ts == [] then Settlement([], b, [])
    else
      var t := ts[|ts| - 1];
      SettleStep(SettleWith(ts[..|ts| - 1], b, decide), t, decide(t))
  }

  /** How `settleDate` decides each trade for given observations and time. */
  function Decide(actuals: map<string, Observation>, now: string): Trade -> Option<SettleResult>
  {
    t => Outcome(t, actuals, now)
  }

  /** The loop's decision for one trade: its settlement when eligible, nothing otherwise. */
  function Outcome(t: Trade, actuals: map<string, Observation>, now: string): (o: Option<SettleResult>)
    ensures o.Some? <==> Settles(t, actuals)
  {
    if Settles(t, actuals) then Some(Resolve(t, actuals, now)) else None
  }

  /** One pass of the loop body: an eligible trade is replaced and its payout credited. */
  function SettleStep(acc: Settlement, t: Trade, o: Option<SettleResult>): (r: Settlement)
    ensures |r.trades| == |acc.trades| + 1
  {
    match o
    case Some(res) => Settlement(acc.trades + [res.trade], Round2(acc.balance + res.payout), acc.results + [res])
    case None => Settlement(acc.trades + [t], acc.balance, acc.results)
  }

  lemma SettlePrefixStep(ts: seq<Trade>, i: int, b: real, decide: Trade -> Option<SettleResult>)
    requires 0 <= i < |ts|
    ensures SettleWith(ts[..i + 1], b, decide) == SettleStep(SettleWith(ts[..i], b, decide), ts[i], decide(ts[i]))
  {
    assert ts[..i + 1][..i] == ts[..i];
  }

  /** `settleDate(date, actuals)` on a ledger document. The date selects nothing. */
  function SettleLedger(s: LedgerState, date: string, actuals: map<string, Observation>, now: string): (r: (LedgerState, seq<SettleResult>))
    ensures |r.0.trades| == |s.trades|
    ensures r.0.settlements == s.settlements + [SettlementRecord(date, now, |r.1|)]
  {
    var out := SettleAll(s.trades, s.balance, actuals, now);
    (LedgerState(out.balance, out.trades, s.settlements + [SettlementRecord(date, now, |out.results|)]), out.results)
  }

  /**
   * Trade by trade: an eligible trade is settled, every other trade is left
   * as it was; the results are the eligible trades' outcomes in order.
   */
  lemma SettleAllPointwise(ts: seq<Trade>, b: real, actuals: map<string, Observation>, now: string)
    ensures var r := SettleAll(ts, b, actuals, now);
      forall i :: 0 <= i < |ts| ==>
        r.trades[i] == (if Settles(ts[i], actuals) then Resolve(ts[i], actuals, now).trade else ts[i])
    ensures |SettleAll(ts, b, actuals, now).results| == CountSettling(ts, actuals)
  {
    var decide := Decide(actuals, now);
    SettleWithPointwise(ts, b, decide);
    DecidedCount(ts, actuals, now);
    var r := SettleAll(ts, b, actuals, now);
    forall i | 0 <= i < |ts|
      ensures r.trades[i] == (if Settles(ts[i], actuals) then Resolve(ts[i], actuals, now).trade else ts[i])
    {
      assert decide(ts[i]) == Outcome(ts[i], actuals, now);
    }
  }

  /** The trade as the loop leaves it after deciding `o` for it. */
  function Applied(t: Trade, o: Option<SettleResult>): Trade
  {
    match o
    case Some(res) => res.trade
    case None => t
  }

  /** The number of trades of `ts` that `decide` settles. */
  function CountDecided(ts: seq<Trade>, decide: Trade -> Option<SettleResult>): nat
  {
    if ts == [] then 0
    else CountDecided(ts[..|ts| - 1], decide) + (if decide(ts[|ts| - 1]).Some? then 1 else 0)
  }

  /** Whatever the decisions, each trade is left as decided and one result is kept per settled trade. */
  lemma {:induction false} SettleWithPointwise(ts: seq<Trade>, b: real, decide: Trade -> Option<SettleResult>)
    ensures var r := SettleWith(ts, b, decide);
      forall i :: 0 <= i < |ts| ==> r.trades[i] == Applied(ts[i], decide(ts[i]))
    ensures |SettleWith(ts, b, decide).results| == CountDecided(ts, decide)
  {
    if ts != [] {
      SettleWithPointwise(ts[..|ts| - 1], b, decide);
    }
  }

  lemma {:induction false} DecidedCount(ts: seq<Trade>, actuals: map<string, Observation>, now: string)
    ensures CountDecided(ts, Decide(actuals, now)) == CountSettling(ts, actuals)
  {
    if ts != [] {
      DecidedCount(ts[..|ts| - 1], actuals, now);
      assert Decide(actuals, now)(ts[|ts| - 1]) == Outcome(ts[|ts| - 1], actuals, now);
    }
  }

  function CountSettling(ts: seq<Trade>, actuals: map<string, Observation>): nat
  {
    if ts == [] then 0
    else CountSettling(ts[..|ts| - 1], actuals) + (if Settles(ts[|ts| - 1], actuals) then 1 else 0)
  }

  /** A trade `settleDate` has passed over is never eligible again with the same observations. */
  lemma {:induction false} SettledStaySettled(ts: seq<Trade>, b: real, actuals: map<string, Observation>, now: string)
    ensures forall i :: 0 <= i < |ts| ==> !Settles(SettleAll(ts, b, actuals, now).trades[i], actuals)
  {
    SettleAllPointwise(ts, b, actuals, now);
  }

  /** When nothing is eligible the loop changes nothing. */
  lemma {:induction false} SettleNothing(ts: seq<Trade>, b: real, actuals: map<string, Observation>, now: string)
    requires forall i :: 0 <= i < |ts| ==> !Settles(ts[i], actuals)
    ensures SettleAll(ts, b, actuals, now) == Settlement(ts, b, [])
  {
    if ts != [] {
      SettleNothing(ts[..|ts| - 1], b, actuals, now);
      assert ts[..|ts| - 1] + [ts[|ts| - 1]] == ts;
    }
  }

  /**
   * Settling the same observations a second time credits nothing and leaves
   * balance and trades unchanged; it only appends a record with count 0.
   */
  lemma SettleDateIdempotent(s: LedgerState, d1: string, d2: string, actuals: map<string, Observation>, n1: string, n2: string)
    ensures var first := SettleLedger(s, d1, actuals, n1).0;
      var second := SettleLedger(first, d2, actuals, n2);
      second.1 == [] && second.0.balance == first.balance && second.0.trades == first.trades
      && second.0.settlements == first.settlements + [SettlementRecord(d2, n2, 0)]
  {
    var first := SettleLedger(s, d1, actuals, n1).0;
    var out := SettleAll(s.trades, s.balance, actuals, n1);
    assert first.trades == out.trades && first.balance == out.balance;
    SettledStaySettled(s.trades, s.balance, actuals, n1);
    SettleNothing(first.trades, first.balance, actuals, n2);
  }

  // -------------------------------------------------------------- accounting

  /** Sum of the cost of the open trades. */
  function OpenCost(ts: seq<Trade>): real
  {
    if ts == [] then 0.0
    else OpenCost(ts[..|ts| - 1]) + (if !ts[|ts| - 1].settled then ts[|ts| - 1].cost else 0.0)
  }

  /** `getTotalPnL`: sum of pnl over settled trades that have one. */
  function TotalPnL(ts: seq<Trade>): real
  {
    if ts == [] then 0.0
    else
      var t := ts[|ts| - 1];
      TotalPnL(ts[..|ts| - 1]) + (if t.settled && t.pnl.Some? then t.pnl.value else 0.0)
  }

  /** `getOpenPositions`: the unsettled trades in ledger order. */
  function OpenPositions(ts: seq<Trade>): (r: seq<Trade>)
    ensures forall t :: t in r <==> t in ts && !t.settled
    ensures |r| <= |ts|
  {
    if ts == [] then []
    else OpenPositions(ts[..|ts| - 1]) + (if !ts[|ts| - 1].settled then [ts[|ts| - 1]] else [])
  }

  /**
   * Amounts are whole cents, quantities whole cents too (so a payout is),
   * and every settled trade carries its pnl.
   */
  predicate CentsTrades(ts: seq<Trade>)
  {
    forall i :: 0 <= i < |ts| ==>
      WholeCents(ts[i].cost) && WholeCents(ts[i].qty) && (ts[i].settled ==> ts[i].pnl.Some?)
  }

  /**
   * The accounting identity: balance = 1000 − cost of open trades + total
   * pnl of settled trades.
   */
  predicate Balanced(s: LedgerState)
  {
    WholeCents(s.balance) && CentsTrades(s.trades)
    && s.balance == InitialBalance - OpenCost(s.trades) + TotalPnL(s.trades)
  }

  lemma FreshLedgerBalanced()
    ensures Balanced(FreshLedger)
  {
    WholeCentsInt(1000);
  }

  /** Opening a trade without metadata keeps the identity, given a whole-cent cost. */
  lemma OpenKeepsBalance(s: LedgerState, now: string, strategy: string, station: string, contract: string,
                         side: string, qty: real, price: real)
    requires Balanced(s) && WholeCents(qty * price) && WholeCents(qty)
    ensures Balanced(Open(s, now, strategy, station, contract, side, qty, price, NoFields).0)
  {
    var r := Open(s, now, strategy, station, contract, side, qty, price, NoFields);
    if r.1.Success? {
      WholeCentsAdd(s.balance, qty * price);
      Round2Exact(s.balance - qty * price);
      var ts := r.0.trades;
      assert ts[..|ts| - 1] == s.trades;
    }
  }

  lemma TotalsSnoc(ts: seq<Trade>, t: Trade)
    ensures OpenCost(ts + [t]) == OpenCost(ts) + (if !t.settled then t.cost else 0.0)
    ensures TotalPnL(ts + [t]) == TotalPnL(ts) + (if t.settled && t.pnl.Some? then t.pnl.value else 0.0)
  {
    assert (ts + [t])[..|ts|] == ts;
  }

  lemma CentsSnoc(ts: seq<Trade>, t: Trade)
    requires CentsTrades(ts) && WholeCents(t.cost) && WholeCents(t.qty) && (t.settled ==> t.pnl.Some?)
    ensures CentsTrades(ts + [t])
  {
    forall i | 0 <= i < |ts + [t]|
      ensures WholeCents((ts + [t])[i].cost) && WholeCents((ts + [t])[i].qty) && ((ts + [t])[i].settled ==> (ts + [t])[i].pnl.Some?)
    {
      if i < |ts| { assert (ts + [t])[i] == ts[i]; }
    }
  }

  /** A settled trade was open, pays its quantity or nothing, and keeps its cost and quantity. */
  predicate ShapedOutcome(t: Trade, o: Option<SettleResult>)
  {
    o.Some? ==>
      && !t.settled && (o.value.payout == t.qty || o.value.payout == 0.0)
      && o.value.trade.settled && o.value.trade.pnl == Some(Round2(o.value.payout - t.cost))
      && o.value.trade.cost == t.cost && o.value.trade.qty == t.qty
  }

  lemma OutcomeShaped(t: Trade, actuals: map<string, Observation>, now: string)
    ensures ShapedOutcome(t, Outcome(t, actuals, now))
  {
  }

  /** One settlement step moves the trade's cost from open to its pnl and credits the payout. */
  lemma SettleStepBalanced(acc: Settlement, t: Trade, o: Option<SettleResult>)
    requires WholeCents(acc.balance) && CentsTrades(acc.trades)
    requires WholeCents(t.cost) && WholeCents(t.qty) && (t.settled ==> t.pnl.Some?)
    requires ShapedOutcome(t, o)
    ensures var r := SettleStep(acc, t, o);
      WholeCents(r.balance) && CentsTrades(r.trades)
      && r.balance - acc.balance == (TotalPnL(r.trades) - OpenCost(r.trades)) - (TotalPnL(acc.trades + [t]) - OpenCost(acc.trades + [t]))
  {
    match o
    case None =>
      CentsSnoc(acc.trades, t);
    case Some(res) =>
      assert WholeCents(res.payout) by {
        WholeCentsInt(0);
      }
      WholeCentsAdd(res.payout, t.cost);
      Round2Exact(res.payout - t.cost);
      WholeCentsAdd(acc.balance, res.payout);
      Round2Exact(acc.balance + res.payout);
      TotalsSnoc(acc.trades, t);
      TotalsSnoc(acc.trades, res.trade);
      CentsSnoc(acc.trades, res.trade);
  }

  lemma {:induction false} SettleWithBalanced(ts: seq<Trade>, b: real, decide: Trade -> Option<SettleResult>)
    requires WholeCents(b) && CentsTrades(ts)
    requires forall i :: 0 <= i < |ts| ==> ShapedOutcome(ts[i], decide(ts[i]))
    ensures var r := SettleWith(ts, b, decide);
      WholeCents(r.balance) && CentsTrades(r.trades)
      && r.balance - b == (TotalPnL(r.trades) - OpenCost(r.trades)) - (TotalPnL(ts) - OpenCost(ts))
  {
    if ts != [] {
      var init := ts[..|ts| - 1];
      assert CentsTrades(init) by {
        forall i | 0 <= i < |init| ensures WholeCents(init[i].cost) && WholeCents(init[i].qty) && (init[i].settled ==> init[i].pnl.Some?) {
          assert init[i] == ts[i];
        }
      }
      assert forall i :: 0 <= i < |init| ==> ShapedOutcome(init[i], decide(init[i])) by {
        forall i | 0 <= i < |init| ensures ShapedOutcome(init[i], decide(init[i])) {
          assert init[i] == ts[i];
        }
      }
      SettleWithBalanced(init, b, decide);
      var acc := SettleWith(init, b, decide);
      var t := ts[|ts| - 1];
      SettleStepBalanced(acc, t, decide(t));
      assert init + [ts[|ts| - 1]] == ts;
      assert (acc.trades + [ts[|ts| - 1]])[..|acc.trades|] == acc.trades;
    }
  }

  /** Settling keeps the accounting identity. */
  lemma SettleKeepsBalance(s: LedgerState, date: string, actuals: map<string, Observation>, now: string)
    requires Balanced(s)
    ensures Balanced(SettleLedger(s, date, actuals, now).0)
  {
    var decide := Decide(actuals, now);
    forall i | 0 <= i < |s.trades| ensures ShapedOutcome(s.trades[i], decide(s.trades[i])) {
      OutcomeShaped(s.trades[i], actuals, now);
    }
    SettleWithBalanced(s.trades, s.balance, decide);
  }

  // ------------------------------------------------------------ updateTrade

  /** The index of the first trade with the given id. */
  function FindTrade(ts: seq<Trade>, id: int): (r: Option<nat>)
    ensures r.Some? ==> r.value < |ts| && ts[r.value].id == id && forall j :: 0 <= j < r.value ==> ts[j].id != id
    ensures r.None? ==> forall j :: 0 <= j < |ts| ==> ts[j].id != id
  {
    if ts == [] then None
    else if ts[0].id == id then Some(0)
    else
      var r := FindTrade(ts[1..], id);
      assert forall j :: 1 <= j < |ts| ==> ts[j] == ts[1..][j - 1];
      if r.Some? then Some(r.value + 1) else None
  }

  /**
   * `updateTrade(id, updates)`: fails when no trade has the id; otherwise
   * assigns the updates to the first such trade and, when the updates set
   * status 'settled' together with a pnl, credits qty if the new pnl is
   * positive.
   */
  function UpdateLedger(s: LedgerState, id: int, updates: TradeFields): (r: (LedgerState, Result<Trade>))
    ensures FindTrade(s.trades, id).None? <==> r.1.Failure?
    ensures r.1.Failure? ==> r.0 == s
    ensures r.1.Success? ==>
      var k := FindTrade(s.trades, id).value;
      r.0.trades == s.trades[k := r.1.value] && r.1.value == Assign(s.trades[k], updates)
      && r.0.settlements == s.settlements
      && r.0.balance == (if updates.status == Some("settled") && updates.pnl.Some?
                         then Round2(s.balance + (if updates.pnl.value > 0.0 then r.1.value.qty else 0.0))
                         else s.balance)
  {
    match FindTrade(s.trades, id)
    case None => (s, Failure("Trade not found"))
    case Some(k) =>
      var t := Assign(s.trades[k], updates);
      var balance :=
        if updates.status == Some("settled") && updates.pnl.Some? then
          var payout := if t.pnl.value > 0.0 then t.qty * 1.00 else 0.0;
          Round2(s.balance + payout)
        else s.balance;
      (LedgerState(balance, s.trades[k := t], s.settlements), Success(t))
  }

  /**
   * `updateTrade` does not look at whether the trade was already settled: a
   * winning trade that `settleDate` has credited is credited its quantity a
   * second time when marked settled with the same positive pnl.
   */
  lemma UpdateTradeCreditsAgain(s: LedgerState, k: nat)
    requires Balanced(s) && k < |s.trades| && s.trades[k].settled && s.trades[k].pnl.Some?
    requires s.trades[k].pnl.value > 0.0 && s.trades[k].qty > 0.0
    requires forall j :: 0 <= j < k ==> s.trades[j].id != s.trades[k].id
    ensures var updates := NoFields.(status := Some("settled"), pnl := s.trades[k].pnl);
      var r := UpdateLedger(s, s.trades[k].id, updates);
      r.1.Success? && r.0.balance == s.balance + s.trades[k].qty && !Balanced(r.0)
  {
    var t := s.trades[k];
    var updates := NoFields.(status := Some("settled"), pnl := t.pnl);
    var r := UpdateLedger(s, t.id, updates);
    assert FindTrade(s.trades, t.id) == Some(k);
    assert r.1.value == t.(status := Some("settled")) by {
      assert t.extra + map[] == t.extra;
    }
    WholeCentsAdd(s.balance, t.qty);
    Round2Exact(s.balance + t.qty);
    assert r.0.trades == s.trades[k := t.(status := Some("settled"))];
    TotalsIgnoreStatus(s.trades, k, Some("settled"));
  }

  /** The open cost and total pnl do not depend on a trade's status string. */
  lemma {:induction false} TotalsIgnoreStatus(ts: seq<Trade>, k: nat, st: Option<string>)
    requires k < |ts|
    ensures OpenCost(ts[k := ts[k].(status := st)]) == OpenCost(ts)
    ensures TotalPnL(ts[k := ts[k].(status := st)]) == TotalPnL(ts)
  {
    var ts' := ts[k := ts[k].(status := st)];
    if k < |ts| - 1 {
      assert ts'[..|ts'| - 1] == ts[..|ts| - 1][k := ts[k].(status := st)];
      TotalsIgnoreStatus(ts[..|ts| - 1], k, st);
    } else {
      assert ts'[..|ts'| - 1] == ts[..|ts| - 1];
    }
  }

  /** The loop state after the first i trades: those are settled, the rest untouched. */
  ghost predicate SettledUpTo(trades: seq<Trade>, balance: real, decide: Trade -> Option<SettleResult>,
                              i: int, ts: seq<Trade>, bal: real, results: seq<SettleResult>)
  {
    |ts| == |trades| && 0 <= i <= |ts| && ts[i..] == trades[i..]
    && SettleWith(trades[..i], balance, decide) == Settlement(ts[..i], bal, results)
  }

  lemma SettleOne(trades: seq<Trade>, balance: real, decide: Trade -> Option<SettleResult>,
                  i: int, ts: seq<Trade>, bal: real, results: seq<SettleResult>, res: SettleResult)
    requires SettledUpTo(trades, balance, decide, i, ts, bal, results) && i < |ts| && decide(ts[i]) == Some(res)
    ensures SettledUpTo(trades, balance, decide, i + 1, ts[i := res.trade], Round2(bal + res.payout), results + [res])
  {
    assert ts[i] == trades[i] by { assert ts[i] == ts[i..][0] && trades[i] == trades[i..][0]; }
    var ts' := ts[i := res.trade];
    calc {
      SettleWith(trades[..i + 1], balance, decide);
      { SettlePrefixStep(trades, i, balance, decide); }
      SettleStep(Settlement(ts[..i], bal, results), ts[i], Some(res));
      Settlement(ts[..i] + [res.trade], Round2(bal + res.payout), results + [res]);
      { assert ts'[..i + 1] == ts[..i] + [res.trade]; }
      Settlement(ts'[..i + 1], Round2(bal + res.payout), results + [res]);
    }
    assert ts'[i + 1..] == trades[i + 1..] by {
      assert ts'[i + 1..] == ts[i..][1..];
      assert trades[i + 1..] == trades[i..][1..];
    }
  }

  lemma SkipOne(trades: seq<Trade>, balance: real, decide: Trade -> Option<SettleResult>,
                i: int, ts: seq<Trade>, bal: real, results: seq<SettleResult>)
    requires SettledUpTo(trades, balance, decide, i, ts, bal, results) && i < |ts| && decide(ts[i]) == None
    ensures SettledUpTo(trades, balance, decide, i + 1, ts, bal, results)
  {
    assert ts[i] == trades[i] by { assert ts[i] == ts[i..][0] && trades[i] == trades[i..][0]; }
    SettlePrefixStep(trades, i, balance, decide);
    assert ts[..i + 1] == ts[..i] + [ts[i]];
  }

  /**
   * The loop of `settleDate`: each open trade with a -T/-B contract and an
   * observation is settled in place and its payout credited.
   */
  method SettleTrades(trades: seq<Trade>, balance: real, actuals: map<string, Observation>, now: string)
    returns (ts: seq<Trade>, bal: real, results: seq<SettleResult>)
    ensures Settlement(ts, bal, results) == SettleAll(trades, balance, actuals, now)
  {
    ghost var decide := Decide(actuals, now);
    ts := trades;
    bal := balance;
    results := [];
    var i := 0;
    while i < |ts|
      invariant SettledUpTo(trades, balance, decide, i, ts, bal, results)
    {
      var t := ts[i];
      assert decide(t) == Outcome(t, actuals, now);
      if Settles(t, actuals) {
        var res := Resolve(t, actuals, now);
        SettleOne(trades, balance, decide, i, ts, bal, results, res);
        ts := ts[i := res.trade];
        bal := Round2(bal + res.payout);
        results := results + [res];
      } else {
        SkipOne(trades, balance, decide, i, ts, bal, results);
      }
      i := i + 1;
    }
    assert trades[..i] == trades && ts[..i] == ts;
  }

  // -------------------------------------------------------------- the class

  /** The ledger document held in memory. */
  class LedgerBook {
    var balance: real
    var trades: seq<Trade>
    var settlements: seq<SettlementRecord>

    function State(): LedgerState
      reads this
    {
      LedgerState(balance, trades, settlements)
    }

    /** A ledger as `loadLedger` returns it when there is no file yet. */
    constructor ()
      ensures State() == FreshLedger
    {
      balance := InitialBalance;
      trades := [];
      settlements := [];
    }

    method ExecuteTrade(station: string, contract: string, side: string, qty: real, price: real,
                        strategy: string, meta: TradeFields, now: string) returns (r: Result<Trade>)
      modifies this
      ensures (State(), r) == Open(old(State()), now, strategy, station, contract, side, qty, price, meta)
    {
      var cost := qty * price;
      if cost > balance {
        return Failure("Insufficient balance");
      }
      var t := NewTrade(|trades| + 1, now, strategy, station, contract, side, qty, price, meta);
      balance := balance - cost;
      balance := Round2(balance);
      trades := trades + [t];
      r := Success(t);
    }

    method SettleDate(date: string, actuals: map<string, Observation>, now: string) returns (results: seq<SettleResult>)
      modifies this
      ensures (State(), results) == SettleLedger(old(State()), date, actuals, now)
    {
      var ts, bal;
      ts, bal, results := SettleTrades(trades, balance, actuals, now);
      trades := ts;
      balance := bal;
      settlements := settlements + [SettlementRecord(date, now, |results|)];
    }

    method UpdateTrade(id: int, updates: TradeFields) returns (r: Result<Trade>)
      modifies this
      ensures (State(), r) == UpdateLedger(old(State()), id, updates)
    {
      var k := FindTrade(trades, id);
      if k.None? {
        return Failure("Trade not found");
      }
      var t := Assign(trades[k.value], updates);
      trades := trades[k.value := t];
      if updates.status == Some("settled") && updates.pnl.Some? {
        var payout := if t.pnl.value > 0.0 then t.qty * 1.00 else 0.0;
        balance := balance + payout;
        balance := Round2(balance);
      }
      r := Success(t);
    }
  }
}
