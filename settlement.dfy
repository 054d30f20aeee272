// Settlement verification: for each open trade on a station with an
// observation, the threshold its ticker names, the outcome the observed high
// gives and what the trade would win; executing a settlement then hands the
// same observations to the ledger's `settleDate`. Fetching the observations
// is outside the model: they arrive as a map from station to observation.

module Settlement {
  import opened Prelude
  import opened Text
  import opened Utils
  import opened Ledger
  import opened Markets

  datatype Outcome = Yes | No

  /**
   * `determineOutcome(actualHigh, threshold)`: YES when the high reaches the
   * threshold; a missing high or threshold (NaN, undefined) compares false.
   */
  function DetermineOutcome(high: Option<real>, threshold: Option<real>): (o: Outcome)
  {
    if AtLeast(high, threshold) then Yes else No
  }

  /** A higher high never turns YES into NO, and a higher threshold never turns NO into YES. */
  lemma OutcomeMonotone(h1: real, h2: real, t1: real, t2: real)
    requires h1 <= h2 && t2 <= t1
    ensures DetermineOutcome(Some(h1), Some(t1)) == Yes ==> DetermineOutcome(Some(h2), Some(t2)) == Yes
    ensures DetermineOutcome(Some(h2), Some(t2)) == No ==> DetermineOutcome(Some(h1), Some(t1)) == No
    ensures DetermineOutcome(Some(h1), Some(t1)) == Yes <==> h1 >= t1
    ensures DetermineOutcome(None, Some(t1)) == No && DetermineOutcome(Some(h1), None) == No
  {
  }

  // ------------------------------------------------------------ thresholds

  /** The length of the longest suffix of `s` made of decimal digits. */
  function TrailingDigits(s: string): (n: nat)
    ensures n <= |s| && forall i :: |s| - n <= i < |s| ==> IsDigit(s[i])
    ensures n < |s| ==> !IsDigit(s[|s| - n - 1])
  {
    if s == [] || !IsDigit(s[|s| - 1]) then 0
    else 1 + TrailingDigits(s[..|s| - 1])
  }

  lemma {:induction false} TrailingDigitsOf(p: string, v: string)
    requires (p == [] || !IsDigit(p[|p| - 1])) && AllDigits(v)
    ensures TrailingDigits(p + v) == |v|
  {
    if v == [] {
      assert p + v == p;
    } else {
      assert (p + v)[..|p + v| - 1] == p + v[..|v| - 1];
      TrailingDigitsOf(p, v[..|v| - 1]);
    }
  }

  /** The capture of `/-T(\d+)$/`: the trailing digits, when preceded by "-T". */
  function DigitThreshold(s: string): (r: Option<string>)
    ensures r.Some? ==>
      (|r.value| >= 1 && |r.value| + 2 <= |s| && AllDigits(r.value)
       && s == s[..|s| - |r.value| - 2] + "-T" + r.value)
  {
    var n := TrailingDigits(s);
    if 1 <= n && n + 2 <= |s| && s[|s| - n - 2] == '-' && s[|s| - n - 1] == 'T' then
      var v := s[|s| - n..];
      assert s == s[..|s| - n - 2] + "-T" + v;
      Some(v)
    else None
  }

  /** The regex finds every `-T<digits>` ending. */
  lemma DigitThresholdComplete(p: string, v: string)
    requires |v| >= 1 && AllDigits(v)
    ensures DigitThreshold(p + "-T" + v) == Some(v)
  {
    var s := p + "-T" + v;
    TrailingDigitsOf(p + "-T", v);
    assert s[|s| - |v|..] == v;
  }

  /** A ticker ending in `-B<digits and dots>` has no `-T<digits>` ending. */
  lemma NoDigitThresholdAfterB(p: string, v: string)
    requires |v| >= 1 && AllDigitOrDot(v)
    ensures DigitThreshold(p + "-B" + v) == None
  {
    var s := p + "-B" + v;
    var n := TrailingDigits(s);
    assert s[|s| - |v| - 1] == 'B';
    if n >= 1 && n + 2 <= |s| {
      assert n <= |v|;
      if n < |v| {
        assert s[|s| - n - 1] == v[|v| - n - 1];
      }
    }
  }

  /**
   * The threshold `verifySettlements` uses: `parseTicker`'s threshold (a
   * temperature threshold, NaN as None, or a crypto strike), else the
   * integer after a trailing `-T`; the outer None is `null`, which skips the
   * trade.
   */
  function ThresholdOf(contract: string): Option<Option<real>>
  {
    var parsed := ParseTicker(contract);
    if parsed.Some? && parsed.value.Crypto? then Some(Some(parsed.value.threshold as real))
    else if parsed.Some? && parsed.value.contract.Threshold? then Some(parsed.value.contract.threshold)
    else
      // parseInt of a run of digits is its value
      var d := DigitThreshold(contract);
      if d.Some? then Some(Some(DigitsValue(d.value) as real)) else None
  }

  /** `-T<digits>` at the end: `settleDate` reads the same integer. */
  lemma DigitKind(t: string, d: string)
    requires DigitThreshold(t) == Some(d)
    ensures ContractKind(t) == Some(ThresholdAt(Some(DigitsValue(d) as real)))
  {
    var p := t[..|t| - |d| - 2];
    assert t == p + ['-', 'T'] + d;
    SuffixValueComplete(p, 'T', d);
    ParseDecimalOfDigits(d);
  }

  /** A temperature ticker: `settleDate` reads its `T` or `B` value, and a `B` ticker has no `-T` ending. */
  lemma WeatherKind(p: string, m: WxMatch)
    requires WellFormedWx(m)
    ensures m.typeChar == 'T' ==> ContractKind(p + ComposeWx(m)) == Some(ThresholdAt(ParseDecimal(m.valStr)))
    ensures m.typeChar == 'B' ==>
      DigitThreshold(p + ComposeWx(m)) == None
      && ContractKind(p + ComposeWx(m)) == Some(BracketAt(ParseDecimal(m.valStr)))
  {
    var t := p + ComposeWx(m);
    var q := p + m.city + "-" + DateText(m.date);
    if m.typeChar == 'T' {
      assert t == q + ['-', 'T'] + m.valStr;
      SuffixValueComplete(q, 'T', m.valStr);
    } else {
      assert t == q + "-B" + m.valStr;
      NoDigitThresholdAfterB(q, m.valStr);
      assert t == q + ['-', 'B'] + m.valStr;
      SuffixValueComplete(q, 'B', m.valStr);
      TrailingRunOf(q + ['-', 'B'], m.valStr);
    }
  }

  /** A crypto ticker: `settleDate` reads its strike. */
  lemma CryptoKind(m: CryptoMatch)
    requires WellFormedCrypto(m)
    ensures ContractKind(ComposeCrypto(m)) == Some(ThresholdAt(Some(DigitsValue(m.valStr) as real)))
  {
    var q := "KX" + m.coin + m.period + "-" + DateText(m.date);
    assert ComposeCrypto(m) == q + ['-', 'T'] + m.valStr;
    SuffixValueComplete(q, 'T', m.valStr);
    ParseDecimalOfDigits(m.valStr);
  }

  /**
   * Whenever verification finds a threshold, the ledger's `settleDate`
   * reads the same contract as a threshold contract with that threshold, so
   * both sides judge the trade by the same number.
   */
  lemma ThresholdAgreesWithLedger(contract: string)
    requires ThresholdOf(contract).Some?
    ensures ContractKind(contract) == Some(ThresholdAt(ThresholdOf(contract).value))
  {
    var t := contract;
    var parsed := ParseTicker(t);
    if parsed.Some? && parsed.value.Crypto? {
      var m := CryptoParts(t);
      CryptoKind(m);
    } else if parsed.Some? && parsed.value.contract.Threshold? {
      var m := WeatherParts(t);
      WeatherKind(t[..6], m);
    } else {
      if parsed.Some? {
        var m := WeatherParts(t);
        WeatherKind(t[..6], m);
      }
      DigitKind(t, DigitThreshold(t).value);
    }
  }

  /**
   * A bracket ticker has no threshold, so verification never reports it,
   * although `settleDate` settles it as a bracket.
   */
  lemma BracketNotReported(contract: string)
    requires ParseTicker(contract).Some? && ParseTicker(contract).value.Weather?
    requires ParseTicker(contract).value.contract.Bracket?
    ensures ThresholdOf(contract).None?
    ensures ContractKind(contract).Some? && ContractKind(contract).value.BracketAt?
  {
    var m := WeatherParts(contract);
    assert m.typeChar == 'B';
    WeatherKind(contract[..6], m);
    NoThreshold(contract);
  }

  lemma NoThreshold(contract: string)
    requires ParseTicker(contract).Some? && ParseTicker(contract).value.Weather?
    requires ParseTicker(contract).value.contract.Bracket? && DigitThreshold(contract).None?
    ensures ThresholdOf(contract).None?
  {
  }

  // ------------------------------------------------------------ verification

  /** One row of the verification report. */
  datatype SettlementCheck = SettlementCheck(
    tradeId: int,
    contract: string,
    station: string,
    side: string,
    qty: real,
    price: real,
    cost: real,
    threshold: Option<real>,
    actualHigh: Option<real>,
    outcome: Outcome,
    won: bool,
    payout: real,
    pnl: real)

  /** An open trade is reported when its station has an observation and its ticker a threshold. */
  predicate Reported(t: Trade, actuals: map<string, Observation>)
  {
    t.station in actuals && ThresholdOf(t.contract).Some?
  }

  /** The report row for a trade, its station's observed high and its threshold. */
  function CheckFor(t: Trade, high: Option<real>, threshold: Option<real>): (c: SettlementCheck)
    ensures c.outcome == DetermineOutcome(high, threshold)
    ensures c.won <==> (t.side == "yes" && c.outcome == Yes) || (t.side == "no" && c.outcome == No)
    ensures c.payout == (if c.won then t.qty else 0.0)
    ensures c.pnl == Round2(c.payout - t.cost)
    ensures c.tradeId == t.id && c.threshold == threshold && c.actualHigh == high
  {
    var outcome := DetermineOutcome(high, threshold);
    var won := (t.side == "yes" && outcome == Yes) || (t.side == "no" && outcome == No);
    var payout := if won then t.qty * 1.00 else 0.0;
    SettlementCheck(t.id, t.contract, t.station, t.side, t.qty, t.price, t.cost, threshold,
      high, outcome, won, payout, Round2(payout - t.cost))
  }

  /** The report row of a reported trade. */
  function CheckOf(t: Trade, actuals: map<string, Observation>): SettlementCheck
    requires Reported(t, actuals)
  {
    CheckFor(t, actuals[t.station].highF, ThresholdOf(t.contract).value)
  }

  /** The ledger settles a `-T` trade exactly as the report row with that threshold says. */
  lemma ResolveAsCheck(t: Trade, actuals: map<string, Observation>, now: string, threshold: Option<real>)
    requires !t.settled && t.station in actuals && ContractKind(t.contract) == Some(ThresholdAt(threshold))
    ensures Settles(t, actuals)
    ensures var r := Resolve(t, actuals, now);
      var c := CheckFor(t, actuals[t.station].highF, threshold);
      r.won == c.won && r.payout == c.payout && r.trade.pnl == Some(c.pnl)
  {
    var r := Resolve(t, actuals, now);
    var c := CheckFor(t, actuals[t.station].highF, threshold);
    assert r.won == c.won;
  }

  /**
   * Verification predicts settlement: for every trade it reports, the
   * ledger's `settleDate` settles that trade, with the same win, the same
   * payout and the same rounded pnl.
   */
  lemma CheckPredictsSettlement(t: Trade, actuals: map<string, Observation>, now: string)
    requires Reported(t, actuals) && !t.settled
    ensures Settles(t, actuals)
    ensures var r := Resolve(t, actuals, now);
      r.won == CheckOf(t, actuals).won && r.payout == CheckOf(t, actuals).payout
      && r.trade.pnl == Some(CheckOf(t, actuals).pnl)
  {
    ThresholdAgreesWithLedger(t.contract);
    ResolveAsCheck(t, actuals, now, ThresholdOf(t.contract).value);
  }

  /** The loop over the open trades, in ledger order. */
  function CheckAll(open: seq<Trade>, actuals: map<string, Observation>): (r: seq<SettlementCheck>)
  {
    if open == [] then []
    else
      var rest := CheckAll(open[..|open| - 1], actuals);
      var t := open[|open| - 1];
      if Reported(t, actuals) then rest + [CheckOf(t, actuals)] else rest
  }

  /** The report has a row for every reported open trade, and no other row. */
  lemma {:induction false} CheckAllRows(open: seq<Trade>, actuals: map<string, Observation>)
    ensures |CheckAll(open, actuals)| <= |open|
    ensures forall c :: c in CheckAll(open, actuals) ==> exists t :: t in open && Reported(t, actuals) && c == CheckOf(t, actuals)
    ensures forall t :: t in open && Reported(t, actuals) ==> CheckOf(t, actuals) in CheckAll(open, actuals)
  {
    if open != [] {
      var init := open[..|open| - 1];
      var t := open[|open| - 1];
      CheckAllRows(init, actuals);
      assert open == init + [t];
      forall c | c in CheckAll(open, actuals)
        ensures exists u :: u in open && Reported(u, actuals) && c == CheckOf(u, actuals)
      {
        if c in CheckAll(init, actuals) {
          var u :| u in init && Reported(u, actuals) && c == CheckOf(u, actuals);
          assert u in open;
        } else {
          assert t in open;
        }
      }
    }
  }

  lemma CheckAllStep(open: seq<Trade>, i: nat, actuals: map<string, Observation>)
    requires i < |open|
    ensures CheckAll(open[..i + 1], actuals)
         == CheckAll(open[..i], actuals) + (if Reported(open[i], actuals) then [CheckOf(open[i], actuals)] else [])
  {
    assert open[..i + 1][..i] == open[..i];
  }

  datatype Verification = NoObservations | Verified(date: string, actuals: map<string, Observation>, results: seq<SettlementCheck>)

  /** `verifySettlements(date)`: an error without observations, else the report on the open trades. */
  function VerifySpec(s: LedgerState, date: string, actuals: map<string, Observation>): Verification
  {
    if |actuals| == 0 then NoObservations
    else Verified(date, actuals, CheckAll(OpenPositions(s.trades), actuals))
  }

  /**
   * Every row of a verification is an open trade of the ledger that the
   * ledger would settle with the same outcome; every open reported trade
   * has its row.
   */
  lemma VerificationPredictsSettlement(s: LedgerState, date: string, actuals: map<string, Observation>, now: string)
    ensures var v := VerifySpec(s, date, actuals);
      v.Verified? ==> forall c :: c in v.results ==>
        exists t ::
          (t in s.trades && !t.settled && Reported(t, actuals) && c == CheckOf(t, actuals)
           && Settles(t, actuals) && Resolve(t, actuals, now).won == c.won
           && Resolve(t, actuals, now).trade.pnl == Some(c.pnl))
    ensures var v := VerifySpec(s, date, actuals);
      v.Verified? ==> forall t :: t in s.trades && !t.settled && Reported(t, actuals) ==> CheckOf(t, actuals) in v.results
  {
    var v := VerifySpec(s, date, actuals);
    if v.Verified? {
      var open := OpenPositions(s.trades);
      CheckAllRows(open, actuals);
      forall c | c in v.results
        ensures exists t ::
          (t in s.trades && !t.settled && Reported(t, actuals) && c == CheckOf(t, actuals)
           && Settles(t, actuals) && Resolve(t, actuals, now).won == c.won
           && Resolve(t, actuals, now).trade.pnl == Some(c.pnl))
      {
        var t :| t in open && Reported(t, actuals) && c == CheckOf(t, actuals);
        CheckPredictsSettlement(t, actuals, now);
      }
    }
  }

  /** The loop of `verifySettlements`, pushing one row per reported trade. */
  method VerifySettlements(s: LedgerState, date: string, actuals: map<string, Observation>) returns (v: Verification)
    ensures v == VerifySpec(s, date, actuals)
  {
    if |actuals| == 0 {
      return NoObservations;
    }
    var open := OpenPositions(s.trades);
    var results: seq<SettlementCheck> := [];
    for i := 0 to |open|
      invariant results == CheckAll(open[..i], actuals)
    {
      CheckAllStep(open, i, actuals);
      var t := open[i];
      if t.station in actuals {
        var threshold := ThresholdOf(t.contract);
        if threshold.Some? {
          results := results + [CheckFor(t, actuals[t.station].highF, threshold.value)];
        }
      }
    }
    assert open[..|open|] == open;
    v := Verified(date, actuals, results);
  }

  // ------------------------------------------------------------- execution

  datatype SettlementRun = Refused | Settled(verification: Verification, settled: seq<SettleResult>, ledger: LedgerState)

  /** `executeSettlement(date)`: returns the error untouched, else settles the date in the ledger. */
  function ExecuteSettlementSpec(s: LedgerState, date: string, actuals: map<string, Observation>, now: string): (LedgerState, SettlementRun)
  {
    var v := VerifySpec(s, date, actuals);
    if v.NoObservations? then (s, Refused)
    else
      var r := SettleLedger(s, date, actuals, now);
      (r.0, Settled(v, r.1, r.0))
  }

  /**
   * Without observations the ledger is untouched; otherwise the date is
   * settled and its settlement logged, and the accounting identity
   * survives.
   */
  lemma ExecuteSettlementEffect(s: LedgerState, date: string, actuals: map<string, Observation>, now: string)
    ensures var r := ExecuteSettlementSpec(s, date, actuals, now);
      |actuals| == 0 <==> (r.1.Refused? && r.0 == s)
    ensures var r := ExecuteSettlementSpec(s, date, actuals, now);
      r.1.Settled? ==> |r.0.trades| == |s.trades| && |r.0.settlements| == |s.settlements| + 1
    ensures var r := ExecuteSettlementSpec(s, date, actuals, now);
      Balanced(s) ==> Balanced(r.0)
  {
    if |actuals| > 0 && Balanced(s) {
      SettleKeepsBalance(s, date, actuals, now);
    }
  }

  /** After an executed settlement every trade the report listed is settled with the pnl the report gave. */
  lemma ExecuteSettlementSettlesReported(s: LedgerState, date: string, actuals: map<string, Observation>, now: string, i: nat)
    requires i < |s.trades| && !s.trades[i].settled && Reported(s.trades[i], actuals)
    ensures var r := ExecuteSettlementSpec(s, date, actuals, now);
      r.1.Settled? && r.1.verification.Verified? && i < |r.0.trades|
      && r.0.trades[i].settled && r.0.trades[i].pnl == Some(CheckOf(s.trades[i], actuals).pnl)
      && CheckOf(s.trades[i], actuals) in r.1.verification.results
  {
    var t := s.trades[i];
    SettleAllPointwise(s.trades, s.balance, actuals, now);
    CheckPredictsSettlement(t, actuals, now);
    assert t in s.trades;
    VerificationPredictsSettlement(s, date, actuals, now);
  }

  /** `executeSettlement` on the ledger document. */
  method ExecuteSettlement(book: LedgerBook, date: string, actuals: map<string, Observation>, now: string)
    returns (run: SettlementRun)
    modifies book
    ensures (book.State(), run) == ExecuteSettlementSpec(old(book.State()), date, actuals, now)
  {
    var v := VerifySettlements(book.State(), date, actuals);
    if v.NoObservations? {
      return Refused;
    }
    var settled := book.SettleDate(date, actuals, now);
    run := Settled(v, settled, book.State());
  }
}
