# Kalshi weather-trading paper desk, modelled in Dafny

This project models the decision-and-bookkeeping core of a command-line paper-trading tool for Kalshi binary contracts. The tool trades daily temperature highs and lows, rain, O'Hare flight delays, crypto price thresholds and gas prices. The model covers:

- **the paper ledger** (`Ledger.LedgerBook`): opening a trade debits its cost, and settling a date resolves every open `-T` threshold or `-B` bracket trade against the observed highs and credits the payout;
- **the store of pending recommendations** (`Pending.PendingStore`) with its lazy 30-minute expiry, and **the executor** that turns an approved recommendation into an order or runs the automatic paper-trading pass;
- **the admission rules** a trade must pass: the nine-check pre-trade guard and the risk limits;
- **position sizing**: quarter-Kelly with the fraction, hard and liquidity caps, plus the older root-level sizing;
- **settlement verification** and the Kalshi **ticker parsers** for temperature, crypto, rain and flight-delay markets;
- **contract scoring** for each market family: the shared YES/NO side rule, the liquidity and edge filters, and ranking;
- **the pure classifiers and lookups** around them: station sigma and weights, ensemble uncertainty, the forecast consensus builders, calibration statistics, flight weather severity and the holiday calendar, and proper scoring rules.

Each core source file becomes one Dafny module.

- State the source keeps in JSON files and mutates (the ledger, the pending list) becomes a class whose methods are proved against pure specification functions of the old state.
- Loops become methods with invariants, proved equal to a specification function whose properties are lemmas.
- Expressions become functions.

Modelling conventions:

- Numbers are exact `real`s, and JavaScript's `Math.round(x)` is `Floor(x + 0.5)`.
- JavaScript's `null`, `undefined` and `NaN` are `Option.None`.
- A thrown `Error` is a `Result.Failure` that carries its message.
- The clock, random ids, the configuration, the live-trading switch, exchange answers, observed temperatures and model probabilities are parameters.

## Model

| member | source | states |
|---|---|---|
| Utils.Round | lib/core/utils.js:9-10 | Math.round lands within half a unit of its argument (ties go up) |
| Utils.RoundUnique | lib/core/utils.js:9-10 | the integer within half a unit is the one Math.round picks |
| Utils.RoundMonotone | lib/core/utils.js:9-10 | Math.round never reverses the order of two numbers |
| Utils.Round2 | lib/core/utils.js:10 | round2 gives a whole number of cents within half a cent of the input |
| Utils.Round1 | lib/core/utils.js:9 | round1 gives a whole number of tenths within 0.05 of the input |
| Utils.Round2Exact | lib/core/utils.js:10 | an amount already in whole cents is left unchanged by round2 |
| Utils.Round2Idempotent | lib/core/utils.js:10 | rounding to cents twice is the same as once |
| Utils.Round1Exact | lib/core/utils.js:9 | a value already in whole tenths is left unchanged by round1 (so round1 is idempotent) |
| Utils.Round2Monotone | lib/core/utils.js:10 | round2 preserves order |
| Utils.Round1Monotone | lib/core/utils.js:9 | round1 preserves order |
| Utils.RoundedNonNegative | lib/core/utils.js:9-10 | rounding a non-negative amount never makes it negative |
| Utils.WholeCentsAdd | lib/core/utils.js:10 | sums and differences of cent amounts stay in whole cents |
| Utils.FToC | lib/core/utils.js:7-8 | fToC is the inverse of cToF: cToF(fToC(f)) = f |
| Utils.CToFInverse | lib/core/utils.js:7-8 | fToC(cToF(c)) = c |
| Utils.Signed | lib/core/utils.js:43-46 | the fixed-point text is kept as the suffix and a '+' is prefixed exactly when n >= 0 |
| Utils.PadEnd | lib/core/utils.js:52-57 | padEnd keeps the text as a prefix and fills with spaces up to the width |
| Utils.PadStart | lib/core/utils.js:57 | padStart keeps the text as a suffix and fills with spaces in front up to the width |
| Utils.Labels | lib/core/utils.js:52 | the header holds one label per column, in column order |
| Utils.TableLines | lib/core/utils.js:51-59 | a table of n rows has n + 2 lines: header, rule, one per row |
| Utils.CellsWidth | lib/core/utils.js:52-58 | when every cell fits its column, a row line is exactly the table width |
| Utils.RuleLineWidth | lib/core/utils.js:53 | the separator line is exactly the table width |
| Utils.TableAligned | lib/core/utils.js:49-61 | when the labels and every cell fit their columns, every line of the table has the same width |
| Utils.Table | lib/core/utils.js:49-61 | no rows gives '  (no data)'; otherwise the header, the rule and one line per row, each prefixed with two spaces and joined by newlines |
| Utils.DaysInMonth | lib/core/utils.js:76-83 | every Gregorian month has 28 to 31 days |
| Utils.NextDay | lib/core/utils.js:81 | the next calendar day is a valid date strictly after the current one |
| Utils.OrdInjective | lib/core/utils.js:76-83 | two valid dates with the same day number are the same date |
| Utils.OrdLexicographic | lib/core/utils.js:79 | the day-number order of dates is the year-month-day order |
| Utils.NextDayIsSuccessor | lib/core/utils.js:81 | no valid date lies strictly between a date and the next day |
| Utils.CoverStep | lib/core/utils.js:79-82 | one loop step keeps the yielded dates exactly the consecutive days from start |
| Utils.DateRange | lib/core/utils.js:76-83 | yields every date from start to end inclusive in strictly increasing consecutive order, and nothing when start is after end |
| Utils.FormatDate | lib/core/utils.js:80 | a date is printed in the YYYY-MM-DD form, whose digit groups read back as the year, the month and the day |
| Utils.Digits2 | lib/core/utils.js:80 | a number below 100 is written as two digits whose decimal value is the number |
| Utils.DigitsValueFour | lib/core/utils.js:80 | two digit pairs written one after the other read as the first pair times 100 plus the second |
| Utils.ParseDateArg | lib/core/utils.js:86-88 | the first argument of the YYYY-MM-DD form is returned, and today's date when there is none |
| Prelude.AbsR | lib/weather/calibration.js:38-41 | Math.abs is non-negative and equals the value or its negation |
| Text.DigitChar | lib/kalshi/markets.js:54 | every digit value 0-9 has a character matched by `\d` that denotes it |
| Text.DigitPrefixLen | lib/kalshi/markets.js:136 | the leading run of `\d` characters that parseInt reads, and where it stops |
| Text.DotIndex | lib/kalshi/markets.js:59 | the position of the first '.', the point where parseFloat switches to the fraction |
| Text.ParseDecimal | lib/kalshi/markets.js:59-95 | parseFloat on a run of digits and dots is NaN exactly when no digit precedes or directly follows a leading dot, and is never negative |
| Text.ParseDecimalOfDigits | lib/kalshi/markets.js:59 | parseFloat of an all-digit string is its decimal value |
| Text.ParseInt | lib/kalshi/markets.js:136 | parseInt of an all-digit string is its decimal value; NaN exactly when no digit follows the optional sign |
| Text.Slice | lib/core/guard.js:83 | String.slice returns the requested part when the bounds are in range and never a longer string |
| Text.ToUpper | lib/precipitation/stations.js:128 | toUpperCase on ASCII text: each character in turn upper-cased, the rest kept |
| Text.ToLower | lib/core/executor.js:63 | toLowerCase on ASCII text: each character in turn lower-cased, the rest kept |
| Averages.WeightSumPositive | lib/weather/ensemble.js:24-31 | with positive weights, the total weight is zero exactly when no source contributed |
| Averages.WeightedSumBetween | lib/weather/ensemble.js:24-31 | the weighted sum lies between min·total weight and max·total weight |
| Averages.WeightedMeanBetween | lib/weather/ensemble.js:31 | a weighted mean of values in [lo, hi] with positive weights lies in [lo, hi] |
| Averages.MaxOf | lib/weather/forecast.js:121 | Math.max(...xs) is an element of xs and no element exceeds it |
| Averages.MinOf | lib/weather/forecast.js:121 | Math.min(...xs) is an element of xs and no element is below it |
| Averages.Spread | lib/weather/forecast.js:121 | max - min is never negative, and is zero exactly when all values are equal |
| Averages.SumBetween | lib/weather/forecast.js:122 | a sum of n values in [lo, hi] lies in [n·lo, n·hi] |
| Averages.MeanBetween | lib/weather/forecast.js:122 | the plain mean lies between the minimum and the maximum |
| SideRule.ChooseSide | lib/weather/matcher.js:79-88 | YES iff yesEdge >= minEdge and yesEdge >= noEdge; else NO iff noEdge >= minEdge; else no trade; the pick carries that side's price, estimate and edge |
| SideRule.ChooseSideMaximisesEdge | lib/weather/matcher.js:83-88 | a side is picked exactly when the better of the two edges clears the minimum, and the picked side has that better edge |
| SideRule.CappedPick | lib/weather/matcher.js:90-92 | the estimate is capped at 0.99 and the pick is dropped exactly when the capped edge falls below the minimum |
| SideRule.CappedPickEdge | lib/weather/matcher.js:83-92 | a surviving pick's edge is at least the minimum and at most the best raw edge, and equal to it when the estimate is already under the cap |
| SideRule.AskOrMid | lib/weather/matcher.js:77-78 | YES costs the ask (the mid when the ask is 0) and NO costs 1 - bid (1 - mid when the bid is 0), both within [0, 1] |
| EdgeFilter.CheckSideTakes | lib/crypto/strategy.js:137-150 | a side is taken iff its price is strictly inside (0, 1) and its net edge after the 0.04 cost is >= 0.05; a taken side has 1..20 contracts and the gross edge; a refused side counts as no-edge only when its gross edge is positive |
| Ordering.Insert | lib/precipitation/matcher.js:314 | inserting into a list sorted by descending key keeps it sorted and adds exactly the new element |
| Ordering.SortDesc | lib/precipitation/matcher.js:314 | sorting with `(a, b) => key(b) - key(a)` gives a permutation of the input in descending key order |
| Sizing.KellyFraction | lib/core/sizing.js:9-12 | zero exactly when pTrue <= pMarket; otherwise the fraction f in (0, 1] with f·(1 - pMarket) = pTrue - pMarket |
| Sizing.KellyMonotone | lib/core/sizing.js:9-12 | a larger estimate never gives a smaller Kelly fraction |
| Sizing.QuarterKelly | lib/core/sizing.js:14-16 | a quarter of the Kelly fraction, so within [0, 0.25] |
| Sizing.MaxContracts | lib/core/sizing.js:18-46 | the liquidity cap is 20 without volume data, else min(20, max(1, floor(volume/10))), always in 1..20 |
| Sizing.PositionSize | lib/core/sizing.js:33-60 | no edge gives the empty sizing; at a positive price fraction = min(quarter Kelly, maxPct), 1..20 contracts, never above the liquidity cap, cut from the Kelly count exactly when liquidityCapped, dollarRisk = contracts·price rounded to cents; at a zero price a positive budget buys the liquidity cap and reports the cut, a negative budget buys one contract uncut, and the dollar risk is 0 |
| Sizing.PositionSizeWithinBudget | lib/core/sizing.js:38-47 | more than one contract is bought only within bankroll·fraction dollars |
| Sizing.WithinKelly | lib/core/sizing.js:41-47 | more than one contract is never more than the Kelly count |
| Sizing.BudgetRespected | lib/core/sizing.js:39-41 | any count up to the Kelly count, above the one-contract minimum, costs at most the budget |
| Sizing.KellyContractsMonotone | lib/core/sizing.js:39-41 | a larger bankroll never gives a smaller Kelly count |
| Sizing.PositionSizeMonotoneInBankroll | lib/core/sizing.js:33-60 | a larger bankroll never buys fewer contracts |
| Sizing.PositionSizeExample | lib/core/sizing.js:33-60 | $1000 at p = 0.7 against 0.5 buys the 20-contract cap at fraction 0.05, edge 0.2, full Kelly 0.4, $10 at risk |
| LegacySizing.RoundToWithin | sizing.js:29-31 | Math.round(x·k)/k lies within half a unit of the k-th place of x |
| LegacySizing.RoundToThousandthsUnit | sizing.js:31 | the full Kelly fraction, in 0..1, stays in 0..1 when rounded to three decimals |
| LegacySizing.LegacyPositionSize | sizing.js:17-34 | no edge gives {0, 0, 0} whatever the price; otherwise contracts = floor(100·bankroll·fraction/pMarket) with fraction = min(quarter Kelly, maxPct) rounded to 4 decimals, edge rounded to 3, kellyFull the full Kelly fraction rounded to 3 (within 0..1) and dollarRisk = round(contracts·pMarket)/100 |
| LegacySizing.LegacyIsHundredfold | sizing.js:23-25 | the root sizing's count is 100 to 100 + 99 times the library's uncapped budget count |
| Guard.NoStationsCorrelated | lib/core/guard.js:37-44 | with the empty correlation table no two stations are correlated |
| Guard.TodayCount | lib/core/guard.js:81-85 | the open same-day trades on the station are at most all trades |
| Guard.StationExposureNonNegative | lib/core/guard.js:126-129 | the summed positive cost of a station's open trades is never negative |
| Guard.CorrelationNeverFires | lib/core/guard.js:107-121 | check 7 adds no reason, whatever the ledger holds |
| Guard.CorrelationScan | lib/core/guard.js:108-121 | the loop over today's trades collects exactly one reason per open same-day trade on a correlated station |
| Guard.RunGuards | lib/core/guard.js:50-146 | all nine checks run in order, each appending its own reason, and pass holds exactly when no reason was collected |
| Guard.WhitelistGuard | lib/core/guard.js:54-57 | a station outside TRADEABLE_STATIONS adds the whitelist reason |
| Guard.DailyGuard | lib/core/guard.js:79-88 | as many open trades today as the per-day limit adds the daily reason |
| Guard.ExposureGuard | lib/core/guard.js:123-134 | open cost on the station above 5% of the balance adds the exposure reason |
| Guard.SigmaGuard | lib/core/guard.js:65-77 | for a known station, a missing market sigma or a gap below 1.5 over our sigma adds a sigma reason |
| Guard.ClimGuard | lib/core/guard.js:95-105 | a forecast more than 15 from the month's normal high adds the climatology reason |
| Guard.FailedSnoc | lib/core/guard.js:51-145 | a reason list records check c as failed iff an earlier reason or the appended one belongs to c |
| Guard.CheckStep | lib/core/guard.js:51-140 | a check that appends at most its own reason leaves the other checks' verdicts alone |
| Guard.WhitelistStep | lib/core/guard.js:54-57 | check 1 fails exactly when the station is not tradeable |
| Guard.SpreadStep | lib/core/guard.js:59-63 | check 2 fails exactly when the model spread is present and above the 3.0 limit |
| Guard.SigmaStep | lib/core/guard.js:65-77 | check 3 fails exactly on a known station with a missing or too-narrow market sigma |
| Guard.DailyStep | lib/core/guard.js:79-88 | check 4 fails exactly when the station already has the maximum number of open trades today |
| Guard.QuantityStep | lib/core/guard.js:90-93 | check 5 fails exactly when the quantity is present and above the hard maximum of 20 |
| Guard.ClimStep | lib/core/guard.js:95-105 | check 6 fails exactly when the forecast is more than 15 from a known normal |
| Guard.CorrelationStep | lib/core/guard.js:107-121 | check 7 leaves the reason list as it is |
| Guard.ExposureStep | lib/core/guard.js:123-134 | check 8 fails exactly when the station's open exposure exceeds 5% of the balance |
| Guard.BidAskStep | lib/core/guard.js:136-140 | check 9 fails exactly when the bid-ask spread is present and above 0.10 |
| Guard.GuardChecksIndependent | lib/core/guard.js:50-146 | each check fails exactly when its own condition holds, whatever the others found, and check 7 never fails |
| Guard.OnlyQuantityFails | lib/core/guard.js:90-93 | a clean whitelisted trade asking for 25 contracts is refused with the single quantity reason |
| Risk.EffectiveRiskLimits | lib/core/risk.js:38-45 | the configured limits are kept; the daily loss limit is minus maxDailyLossPct of the balance (never positive); the drawdown floor is (1 - drawdownPct) times the larger of the configured peak and the balance |
| Risk.BreakerClearsAtPeak | lib/core/risk.js:38-100 | a balance at or above the configured peak is never below the drawdown floor |
| Risk.DailyPnLOfAllDays | lib/core/risk.js:49-56 | with the empty date prefix the daily P&L is the P&L of every settled trade |
| Risk.OvernightSettlementIgnored | lib/core/risk.js:51-55 | settling a trade placed on another day leaves today's P&L unchanged |
| Risk.PeakBankroll | lib/core/risk.js:65-68 | the peak is the larger of the initial bankroll and the balance |
| Risk.TallyCounts | lib/core/risk.js:72-75 | the dictionary holds a station exactly when it has a position, with its number of positions |
| Risk.MapTotalIncrement | lib/core/risk.js:74 | one increment adds one to the dictionary's total |
| Risk.TallyTotal | lib/core/risk.js:72-76 | the per-station counts add up to the number of positions counted |
| Risk.PositionsPerStation | lib/core/risk.js:70-77 | the loop builds the tally of the open positions by station |
| Risk.PositionsPerStationCounts | lib/core/risk.js:70-77 | a station appears iff it has an open trade, its count is its open trades, and the counts sum to the open positions |
| Risk.CountAtPositive | lib/core/risk.js:103 | a station's count is positive exactly when one of the trades is on it |
| Risk.CheckRiskLimits | lib/core/risk.js:82-117 | the violations are pushed in the order of the six checks, and allowed holds exactly when there are none |
| Risk.AccountChecks | lib/core/risk.js:89-100 | the account-wide checks (daily loss, open positions, trade cost, drawdown) in order |
| Risk.StationCheck | lib/core/risk.js:101-114 | the station checks use the station's open count and open cost |
| Risk.StationLimits | lib/core/risk.js:103-113 | the per-station count limit, then the exposure limit |
| Risk.StationFigures | lib/core/risk.js:102-109 | the station's open count and the summed cost of its open trades |
| Risk.ViolatedAppend | lib/core/risk.js:83-116 | a limit is violated in a concatenation iff in one of its parts |
| Risk.StationLimitsIndependent | lib/core/risk.js:103-113 | limit 5 fails iff the station has maxPerStation open positions; limit 6 iff its cost exceeds maxStationExposure of the balance |
| Risk.AccountLimitsIndependent | lib/core/risk.js:89-100 | each account limit fails exactly under its own condition |
| Risk.ViolationsIndependent | lib/core/risk.js:89-113 | each of the six limits fails exactly under its own condition, whatever the others found |
| Risk.RiskLimitsIndependent | lib/core/risk.js:82-117 | on a ledger: daily P&L at or below the loss limit, too many open positions, an oversized trade, a balance below the floor, and the two station limits each fail exactly under their own condition |
| Risk.Drawdown | lib/core/risk.js:126-137 | the drawdown is a non-negative whole number of tenths of a percent, zero at the peak, within 0.05 of (peak - balance)/peak·100 |
| Risk.GetRiskStatus | lib/core/risk.js:119-144 | the peak is at least the balance, the drawdown is never negative and zero at or above the initial bankroll, open positions equal the per-station total, and trading is allowed exactly when the station-less check finds no violation |
| Ledger.Assign | lib/core/trade.js:152 | Object.assign: every field present in the updates replaces the trade's, every other field is kept (for the fields an update can carry; see Left out) |
| Ledger.AssignNothing | lib/core/trade.js:152 | assigning no fields leaves the trade as it was |
| Ledger.NewTrade | lib/core/trade.js:45-58 | the new record has cost qty·price, id = number of trades + 1, settled false and pnl null unless the metadata overrides them |
| Ledger.Open | lib/core/trade.js:37-67 | fails with "Insufficient balance", changing nothing, exactly when qty·price exceeds the balance; otherwise appends the trade and debits its cost rounded to the cent |
| Ledger.OpenWithoutMetadata | lib/core/trade.js:39-58 | without metadata the opened trade has the next id, is open, has no pnl, costs qty·price and is the ledger's last trade |
| Ledger.SuffixValue | lib/core/trade.js:82-83 | a match of `-T([\d.]+)$` (or -B) is a non-empty run of digits and dots that ends the ticker after '-' and the letter |
| Ledger.TrailingRun | lib/core/trade.js:82-83 | the longest run of digits and dots at the end of the ticker |
| Ledger.SuffixValueComplete | lib/core/trade.js:82-83 | every ticker of the form p-T v (or p-B v) with v made of digits and dots matches with group v |
| Ledger.ContractKind | lib/core/trade.js:82-87 | no kind exactly when neither suffix matches; a threshold exactly when the -T suffix matches (so -T wins over -B) |
| Ledger.Resolve | lib/core/trade.js:89-113 | won iff (yes and hit) or (no and not hit), where hit is high >= threshold or floor(b) <= high < ceil(b) + (1 if b integral); payout = qty if won else 0; pnl = round2(payout - cost); the trade is marked settled with settledAt and actualHigh |
| Ledger.SettleAll | lib/core/trade.js:78-114 | the settlement loop keeps one trade per trade |
| Ledger.Outcome | lib/core/trade.js:79-90 | a trade is settled exactly when it is open, has a -T/-B suffix and its station has an observation |
| Ledger.SettlePrefixStep | lib/core/trade.js:78-114 | the loop over one more trade is one more loop-body step |
| Ledger.SettleLedger | lib/core/trade.js:74-120 | settleDate keeps the number of trades and appends one settlement record carrying the count of results |
| Ledger.SettleAllPointwise | lib/core/trade.js:78-114 | each trade is replaced by its settled version exactly when eligible and left as it was otherwise; there is one result per eligible trade |
| Ledger.SettleWithPointwise | lib/core/trade.js:78-114 | the loop applies each trade's own decision independently of the others |
| Ledger.DecidedCount | lib/core/trade.js:113 | the results counted are the eligible trades |
| Ledger.SettledStaySettled | lib/core/trade.js:79-106 | after settleDate no trade is eligible for the same observations |
| Ledger.SettleNothing | lib/core/trade.js:78-114 | with no eligible trade the loop changes neither trades nor balance and returns no result |
| Ledger.SettleDateIdempotent | lib/core/trade.js:74-120 | settling again credits nothing and keeps balance and trades; only a record with count 0 is appended |
| Ledger.OpenPositions | lib/core/trade.js:126-128 | the open positions are exactly the unsettled trades |
| Ledger.FreshLedgerBalanced | lib/core/trade.js:11-18 | a fresh ledger satisfies balance = 1000 - open cost + total pnl |
| Ledger.OpenKeepsBalance | lib/core/trade.js:37-67 | opening a whole-cent trade keeps balance = 1000 - open cost + total pnl |
| Ledger.TotalsSnoc | lib/core/trade.js:131-136 | one more trade adds its cost to the open cost when open and its pnl to the total when settled |
| Ledger.SettleStepBalanced | lib/core/trade.js:103-113 | one settlement step changes the balance by exactly the change in (total pnl - open cost) |
| Ledger.SettleWithBalanced | lib/core/trade.js:78-114 | the whole loop changes the balance by exactly the change in (total pnl - open cost) |
| Ledger.SettleKeepsBalance | lib/core/trade.js:74-120 | settleDate keeps balance = 1000 - open cost + total pnl |
| Ledger.FindTrade | lib/core/trade.js:145 | the first trade with the id, or none when no trade has it |
| Ledger.UpdateLedger | lib/core/trade.js:143-164 | an unknown id fails and changes nothing; otherwise only that trade is replaced by the assigned one, and the balance is credited qty (rounded to cents) exactly when status 'settled' and a pnl are given and the pnl is positive |
| Ledger.UpdateTradeCreditsAgain | lib/core/trade.js:155-159 | marking an already settled winning trade 'settled' again credits its quantity a second time and breaks the accounting identity |
| Ledger.TotalsIgnoreStatus | lib/core/trade.js:131-136 | the open cost and the total pnl do not depend on a trade's status field |
| Ledger.SettleOne | lib/core/trade.js:106-113 | an eligible trade advances the loop invariant: replaced, balance credited and rounded, result appended |
| Ledger.SkipOne | lib/core/trade.js:79-90 | an ineligible trade advances the loop invariant unchanged |
| Ledger.SettleTrades | lib/core/trade.js:78-114 | the in-place loop computes the same trades, balance and results as the settlement function |
| Ledger.LedgerBook.constructor | lib/core/trade.js:16-18 | a new ledger holds $1000 and no trades or settlements |
| Ledger.LedgerBook.ExecuteTrade | lib/core/trade.js:37-67 | the ledger and the result are those of Open on the old ledger |
| Ledger.LedgerBook.SettleDate | lib/core/trade.js:74-120 | the ledger and the results are those of SettleLedger on the old ledger |
| Ledger.LedgerBook.UpdateTrade | lib/core/trade.js:143-164 | the ledger and the result are those of UpdateLedger on the old ledger |
| Pending.ExpireAll | lib/core/pending.js:26-37 | expiry keeps one record per record, each one expired or left as it was |
| Pending.ExpireAllEffect | lib/core/pending.js:26-37 | only the status of a pending record with expiresAt <= now changes, to 'expired'; afterwards nothing is overdue, something changed exactly when something was overdue, a second expiry at the same or a later time is the same as expiring once at that time |
| Pending.ExpireAllChanges | lib/core/pending.js:28-35 | the list changes exactly when some pending record is overdue (the save condition) |
| Pending.ExpireAllStable | lib/core/pending.js:26-37 | expiry leaves nothing overdue, is idempotent, and expiring now then later equals expiring later |
| Pending.ExpireRecord | lib/core/pending.js:30-33 | one record: expired records are not overdue again, and the later expiry absorbs the earlier one |
| Pending.ExpireScan | lib/core/pending.js:26-37 | the in-place loop produces the expired list, and changed holds exactly when some pending record was overdue |
| Pending.StillPending | lib/core/pending.js:67 | the filter keeps exactly the records whose status is 'pending' |
| Pending.PendingNotOverdue | lib/core/pending.js:65-68 | every record getPending returns is 'pending' and expires after now |
| Pending.FindFirst | lib/core/pending.js:78-84 | Array.find returns the first record with the id, or none when no record has it |
| Pending.UpdateStatusSpec | lib/core/pending.js:82-91 | succeeds exactly when the id exists and the record is 'pending'; a missing id or another status fails with its message and changes nothing; on success only that record changes, to the new status with updatedAt |
| Pending.MarkExecutedSpec | lib/core/pending.js:94-103 | fails only for a missing id; otherwise the record becomes 'executed' with the fill and updatedAt, whatever its status, and no other record changes |
| Pending.OverdueStillUpdatable | lib/core/pending.js:82-88 | a pending record past its expiry can still be moved to any status, because updateStatus does not expire first |
| Pending.ExpiredNotUpdatable | lib/core/pending.js:26-86 | once expired by a read, an overdue record can no longer be updated: it fails as 'expired', not pending |
| Pending.FindFirstSameIds | lib/core/pending.js:78-84 | lookup by id depends only on the ids, so it is unaffected by expiry |
| Pending.NewRecommendation | lib/core/pending.js:46-58 | a new record is 'pending', created now, expires exactly 30 minutes later, defaults its strategy to 'weather' and has no fill |
| Pending.PendingStore.constructor | lib/core/pending.js:15-16 | a store without a file holds no records |
| Pending.PendingStore.ExpireOld | lib/core/pending.js:26-37 | the records become the expired list and the store is saved exactly when something changed |
| Pending.PendingStore.AddPending | lib/core/pending.js:43-62 | appends the new recommendation and saves once |
| Pending.PendingStore.GetPending | lib/core/pending.js:65-68 | expires first, then returns exactly the records still 'pending' |
| Pending.PendingStore.GetAll | lib/core/pending.js:71-73 | expires first, then returns every record |
| Pending.PendingStore.FindById | lib/core/pending.js:76-79 | expires first, then returns the first record with the id |
| Pending.PendingStore.UpdateStatus | lib/core/pending.js:82-91 | the records and result follow UpdateStatusSpec, saving only on success |
| Pending.PendingStore.MarkExecuted | lib/core/pending.js:94-103 | the records and result follow MarkExecutedSpec, saving only on success |
| Executor.OrderFor | lib/core/executor.js:59-69 | a buy limit order for the recommendation's contract and quantity, with the lower-cased side, priced in whole cents within half a cent of price·100 on that side only |
| Executor.MarketRefusal | lib/core/executor.js:101-114 | the order is refused when the market reports a status other than open, or the lookup fails with a message naming "not open" or "Market"; other lookup failures let it proceed |
| Executor.LiveAttemptSucceeds | lib/core/executor.js:88-135 | a live order is placed exactly when the balance reply covers qty·price, the market check passes and the placement succeeds; its single log entry says 'placed' exactly then |
| Executor.ExecuteSucceeds | lib/core/executor.js:47-136 | execute succeeds exactly for an approved, unexpired record and, when live, passing pre-flight checks and placement; success marks exactly that record executed with the order as fill and changes no other record |
| Executor.ExecuteFailureKeepsRecords | lib/core/executor.js:127-135 | a failed execution leaves every record as the read left it, so an approved record stays approved and can be retried |
| Executor.ExpiredApprovedStaysApproved | lib/core/executor.js:53-56 | for an approved record past expiry, the status update throws "not pending", so execute fails with that message, never "has expired", and the record stays approved |
| Executor.ExecuteLogsOnce | lib/core/executor.js:71-131 | one log entry is appended exactly when the record is executable; it carries the id, the mode, the time and the order, says 'dry_run' in a dry run and 'placed' in a live run exactly on success |
| Executor.DryRunIgnoresExchange | lib/core/executor.js:78-85 | a dry run does not depend on anything the exchange would answer |
| Executor.PlaceLive | lib/core/executor.js:88-135 | the live branch's checks in order produce the placement result and its log entry |
| Executor.Execute | lib/core/executor.js:47-136 | the store, the result and the log are those of the execute specification |
| Executor.EligibleOnes | lib/core/executor.js:167-168 | the filter keeps exactly the candidates with edge - 0.04 > 0 and a positive sized quantity, the first of them first |
| Executor.ExecutableOnes | lib/core/executor.js:167-169 | slice(0, 1) keeps at most one candidate: the first eligible one, and none exactly when none is eligible |
| Executor.TradeMeta | lib/core/executor.js:195 | the trade metadata carries expectedEdge and overrides none of the ledger's own fields |
| Executor.PassRefusals | lib/core/executor.js:155-175 | a global risk violation, live trading or no eligible candidate leaves the ledger untouched and reports no session |
| Executor.PassOpensAtMostOne | lib/core/executor.js:166-208 | a pass opens at most one trade; its single candidate is counted exactly once as placed, blocked or failed; nothing placed means nothing opened and no risk |
| Executor.PassTradeIsFirstEligible | lib/core/executor.js:167-203 | the trade opened is the first eligible candidate's, admissible, with the lower-cased side and the quantity capped at autoMaxContracts, and the reported risk is its cost |
| Executor.PassRunsFirstEligible | lib/core/executor.js:155-208 | the loop is reached exactly when there is no global violation, paper mode and an eligible candidate; it then makes one attempt, on the first eligible candidate, counted on top of the blocked weather trades |
| Executor.RunOne | lib/core/executor.js:177-208 | the loop over one candidate is one attempt with its counter update |
| Executor.AttemptEffect | lib/core/executor.js:180-207 | an attempt changes the ledger only when placed, then by one trade for the capped quantity of an admissible candidate |
| Executor.Admit | lib/core/executor.js:181-188 | the loop turn goes on exactly for a candidate with no risk violation and, for weather, a market sigma and no guard reason |
| Executor.TryCandidate | lib/core/executor.js:180-207 | one loop turn on the ledger object follows the attempt specification |
| Executor.OpenCandidate | lib/core/executor.js:190-203 | the capped trade is opened in the ledger, failing when the balance does not cover it |
| Executor.ExecuteApprovedTrades | lib/core/executor.js:146-212 | the ledger and the session counters are those of the pass specification |
| Settlement.OutcomeMonotone | lib/core/settlement.js:30-33 | the outcome is YES exactly when the high is at least the threshold, a higher high or lower threshold never turns YES into NO, and a missing high gives NO |
| Settlement.TrailingDigits | lib/core/settlement.js:52 | the longest run of digits at the end of the ticker |
| Settlement.DigitThreshold | lib/core/settlement.js:52 | a match of `-T(\d+)$` is a non-empty digit run that ends the ticker after "-T" |
| Settlement.DigitThresholdComplete | lib/core/settlement.js:52 | every ticker ending in -T followed by digits matches, with those digits |
| Settlement.NoDigitThresholdAfterB | lib/core/settlement.js:52 | a bracket ticker ending in -B and a value never matches the -T fallback |
| Settlement.DigitKind | lib/core/settlement.js:52-53 | where the integer -T fallback matches, the ledger reads the same ticker as a threshold with the same value |
| Settlement.WeatherKind | lib/core/settlement.js:51-53 | a parsed weather threshold ticker settles in the ledger as a threshold with its value; a bracket ticker has no -T match and settles as a bracket |
| Settlement.CryptoKind | lib/core/settlement.js:51-53 | a parsed crypto ticker settles in the ledger as a threshold with its integer value |
| Settlement.ThresholdAgreesWithLedger | lib/core/settlement.js:51-54 | whenever verification finds a threshold (from parseTicker, else from -T<n>), settleDate reads the contract as a threshold contract with that same threshold |
| Settlement.BracketNotReported | lib/core/settlement.js:51-54 | a bracket ticker yields no threshold, so verification never reports it, although settleDate settles it as a bracket |
| Settlement.NoThreshold | lib/core/settlement.js:51-54 | a bracket ticker without a -T<n> suffix has no threshold |
| Settlement.CheckFor | lib/core/settlement.js:56-77 | the row's outcome is determineOutcome; won iff (yes and YES) or (no and NO); payout = qty if won else 0; pnl = round2(payout - cost); the trade's fields are copied |
| Settlement.ResolveAsCheck | lib/core/settlement.js:56-75 | for a threshold contract the ledger's settlement and the verification row agree on won, payout and pnl |
| Settlement.CheckPredictsSettlement | lib/core/settlement.js:47-77 | every open trade verification reports is settled by settleDate with the won, payout and pnl of its row |
| Settlement.CheckAllRows | lib/core/settlement.js:47-78 | the report has at most one row per open trade: every row belongs to a reported open trade and every reported open trade has its row |
| Settlement.CheckAllStep | lib/core/settlement.js:47-78 | one more loop turn appends the trade's row exactly when it has an observation and a threshold |
| Settlement.VerificationPredictsSettlement | lib/core/settlement.js:38-81 | every verification row is an open, reported ledger trade that settleDate would settle with the same won and pnl, and every such trade has its row |
| Settlement.VerifySettlements | lib/core/settlement.js:38-81 | no observations gives the error result; otherwise the loop over open positions yields exactly the specified rows; the ledger is only read |
| Settlement.ExecuteSettlementEffect | lib/core/settlement.js:86-96 | without observations the ledger is untouched; otherwise the date is settled, one settlement record is added, and the accounting identity survives |
| Settlement.ExecuteSettlementSettlesReported | lib/core/settlement.js:86-96 | after an executed settlement every trade the report listed is settled with the pnl the report gave |
| Settlement.ExecuteSettlement | lib/core/settlement.js:86-96 | the ledger object and the run are those of the executeSettlement specification |
| Markets.MonthNumber | lib/kalshi/markets.js:8-9 | a known month abbreviation maps to its two-digit number 01..12 |
| Markets.UpperPrefixLen | lib/kalshi/markets.js:54 | the run of `[A-Z]` letters the city group takes, stopping at the first other character |
| Markets.UpperPrefixLenExact | lib/kalshi/markets.js:54 | a run of capitals ended by a non-capital is exactly what the city group takes |
| Markets.MatchDate | lib/kalshi/markets.js:54 | the `-(\d{2})([A-Z]{3})(\d{2})-` part of a ticker is a well-formed date code followed by the rest |
| Markets.MatchDateComplete | lib/kalshi/markets.js:54 | every well-formed date code between dashes is matched, leaving the rest |
| Markets.MatchWeatherTail | lib/kalshi/markets.js:54-90 | an accepted temperature ticker tail is city, date, T or B and a run of digits and dots, and composing those parts gives back the tail |
| Markets.WeatherTailParts | lib/kalshi/markets.js:54-90 | the pieces the matcher cuts recompose to the tail they came from |
| Markets.MatchWeatherTailComplete | lib/kalshi/markets.js:54-90 | every well-formed city-date-value tail is accepted and parsed back to its parts |
| Markets.MatchCrypto | lib/kalshi/markets.js:126 | an accepted crypto ticker is KX, BTC or ETH, an optional D/W, a date and -T with digits, and composing the parts gives back the ticker |
| Markets.CryptoTickerParts | lib/kalshi/markets.js:126-128 | the pieces the crypto matcher cuts recompose to the ticker |
| Markets.MatchCryptoComplete | lib/kalshi/markets.js:126 | every well-formed crypto ticker is accepted and parsed back to its parts |
| Markets.ParseWeather | lib/kalshi/markets.js:55-122 | a recognised temperature ticker keeps its high/low kind and gets the date 20YY-MM-DD with a month 01..12 |
| Markets.ParseCrypto | lib/kalshi/markets.js:127-138 | a recognised crypto ticker gets the date 20YY-MM-DD with a month 01..12 |
| Markets.ParseTicker | lib/kalshi/markets.js:50-142 | empty input gives null, and every parsed date has the form 20YY-MM-DD with MM in 01..12 |
| Markets.ParseTickerSound | lib/kalshi/markets.js:54-126 | whatever is accepted is a series prefix followed by well-formed parts, exactly as the regular expressions demand |
| Markets.WeatherParts | lib/kalshi/markets.js:54-86 | a parsed weather ticker splits into its prefix and well-formed parts, and its contract comes from the T/B letter and value |
| Markets.CryptoParts | lib/kalshi/markets.js:126-138 | a parsed crypto ticker splits into well-formed parts, and its threshold is parseInt of the digits |
| Markets.WeatherTickerSound | lib/kalshi/markets.js:54-90 | a weather ticker that matches is its prefix followed by the matched parts |
| Markets.ParseWeatherTicker | lib/kalshi/markets.js:54-122 | a temperature ticker built from well-formed parts with a known month parses to exactly its city, mapped station, date, and threshold or bracket |
| Markets.ParseCryptoTicker | lib/kalshi/markets.js:126-138 | a crypto ticker with a known month parses to its coin, 'weekly' iff the letter is W and 'daily' otherwise, its date and its integer threshold |
| Markets.StationLookup | lib/kalshi/markets.js:12-97 | high tickers map the city through CITY_MAP only; low tickers try LOW_CITY_MAP first, then CITY_MAP; unmapped cities have no station |
| Markets.ExampleGarbage | lib/kalshi/markets.js:141 | 'FOOBAR' gives null |
| Markets.UnknownMonthWeather | lib/kalshi/markets.js:57-94 | an unknown month abbreviation makes a well-formed temperature ticker unparseable |
| Markets.UnknownMonthCrypto | lib/kalshi/markets.js:129-130 | an unknown month abbreviation makes a well-formed crypto ticker unparseable |
| Markets.BracketSpansOneDegree | lib/kalshi/markets.js:82-83 | a bracket runs from floor(v) to ceil(v) + (1 if v is integral), always exactly one degree wide and containing v |
| Markets.ExampleNewYorkThreshold | test/test-ticker.js:11-12 | 'KXHIGHNY-26FEB09-T28' is the New York (KNYC) high above 28 on 2026-02-09 |
| Markets.NewYorkTicker | test/test-ticker.js:11-12 | that ticker is composed of city NY, date 26FEB09 and T28, and its date is 2026-02-09 |
| Markets.NewYorkThreshold | lib/kalshi/markets.js:13-73 | NY maps to KNYC and T28 is the threshold 28 |
| Markets.ExampleIntegerBracket | test/test-ticker.js:31-33 | 'KXHIGHCHI-26FEB09-B38' is the Chicago (KMDW) bracket 38 to 39 |
| Markets.ChicagoTicker | test/test-ticker.js:31-33 | that ticker is composed of city CHI, date 26FEB09 and B38 |
| Markets.ChicagoBracket | lib/kalshi/markets.js:14-83 | CHI maps to KMDW and B38 is the bracket [38, 39) |
| Markets.ExampleBitcoinDaily | lib/kalshi/markets.js:126-138 | 'KXBTCD-26FEB09-T100000' is the daily BTC threshold 100000 on 2026-02-09 |
| Markets.HundredThousand | lib/kalshi/markets.js:136 | parseInt('100000') is 100000 |
| Markets.FebruaryNinth | lib/kalshi/markets.js:8-60 | FEB is month 02, so 26FEB09 is the date 2026-02-09 |
| Markets.BitcoinTicker | lib/kalshi/markets.js:126 | that ticker is composed of BTC, D, the date and T100000 |
| WeatherStations.Lookup | lib/weather/stations.js:107 | STATIONS[key] is found exactly when some entry has that key |
| WeatherStations.LookupFound | lib/weather/stations.js:107 | a found station is the one stored under the key |
| WeatherStations.LookupDistinct | lib/weather/stations.js:44-107 | with distinct keys every entry is found under its own key |
| WeatherStations.TradeableStations | lib/weather/stations.js:43-47 | TRADEABLE_STATIONS holds exactly the stations of tier A or B whose enabled flag is not false |
| WeatherStations.ValidatedStations | lib/weather/stations.js:53-55 | VALIDATED_STATIONS holds exactly the stations with a baseSigma |
| WeatherStations.MembersExact | lib/weather/stations.js:61-69 | a group's member list holds exactly the stations whose correlationGroup is that group |
| WeatherStations.ExactlyOneGroup | lib/weather/stations.js:61-69 | a station is listed in a group exactly when that is its correlationGroup, so it appears in exactly one group |
| WeatherStations.CorrelationGroups | lib/weather/stations.js:61-69 | the loop creates a group exactly for each correlationGroup some station names, listing its stations in table order |
| WeatherStations.GroupStep | lib/weather/stations.js:63-66 | one loop turn appends the station to its group (creating the group) and changes nothing else |
| WeatherStations.MembersSnoc | lib/weather/stations.js:63-66 | one more station extends its own group's list by its key |
| WeatherStations.MembersEmpty | lib/weather/stations.js:64 | a group no station names has no members |
| WeatherStations.BayesianSigmaUpdate | lib/weather/stations.js:95-100 | baseSigma when the MAE is missing or zero or fewer than 5 observations; otherwise a value within half a cent of the range between baseSigma and 1.253·MAE |
| WeatherStations.WeightedAverageBetween | lib/weather/stations.js:98 | the prior-weighted average lies between its two ends |
| WeatherStations.HorizonFactorMonotone | lib/weather/stations.js:80-119 | for h >= 0 the horizon factor (1.0, 1.0, 1.29, 1.57) is at least 1 and never decreases |
| WeatherStations.BaseSigma | lib/weather/stations.js:110-113 | the station's sigma (low sigma, else base, else 3.5), Bayesian-updated when it has a running MAE and count, is never negative |
| WeatherStations.SeasonalSigma | lib/weather/stations.js:115-117 | the winter months 11 to 3 add 0.5 to the base sigma |
| WeatherStations.EffectiveSigmaRounded | lib/weather/stations.js:106-123 | an unknown station gets 3.5; a known one its seasonal sigma times the horizon factor, rounded to a tenth |
| WeatherStations.EffectiveSigmaMonotoneInHorizon | lib/weather/stations.js:119-122 | a longer horizon never gives a smaller sigma |
| WeatherStations.LookupValid | lib/weather/stations.js:107 | a station found in a valid table is valid |
| WeatherStations.SigmaScaleMonotone | lib/weather/stations.js:119-122 | scaling by a larger horizon factor and rounding never gives less |
| WeatherStations.WinterSigmaNotLower | lib/weather/stations.js:115-117 | a winter month never gives a smaller sigma than a non-winter month |
| WeatherStations.ModelWeightsFor | lib/weather/stations.js:128-141 | weights are positive and sum to 1; the default (0.2, 0.35, 0.45) exactly when the station or one model error is missing; otherwise NWS 0.15 and GFS and ECMWF split 0.85 in inverse proportion to their errors |
| WeatherStations.InverseWeights | lib/weather/stations.js:132-139 | the inverse-error shares are positive, sum to 0.85 and weight each model inversely to its error |
| WeatherStations.FirstMatch | lib/weather/stations.js:147-149 | the search returns the first station whose city, Kalshi city or tickers match, or none when none does |
| WeatherStations.FirstMatchAfterHead | lib/weather/stations.js:147-149 | skipping a non-matching first station keeps the first-match property |
| WeatherStations.ResolveStation | lib/weather/stations.js:143-151 | empty input gives null; an exact upper-cased key wins; any answer is a known station |
| WeatherMatcher.ThresholdField | lib/weather/matcher.js:118 | the reported threshold is the contract's threshold when that is truthy and otherwise its bracket, so a zero threshold is reported as missing |
| WeatherMatcher.Sized | lib/weather/matcher.js:94-125 | no recommendation exactly when the sizing buys nothing; otherwise the pick's side, price, estimate and edge with ev = edge × contracts, the volume (0 when missing), low liquidity below 500 and depth as the sum of both sides |
| WeatherMatcher.ScoreParsed | lib/weather/matcher.js:69-96 | nothing exactly when the filters fail, the capped side rule picks nothing or the sizing buys nothing; otherwise the sized pick |
| WeatherMatcher.ScoreParsedKept | lib/weather/matcher.js:69-96 | every recommendation passed the filters, has an estimate of at most 0.99 and an edge of at least the minimum against the executable price of its side, and buys at least one contract |
| WeatherMatcher.ScoreContract | lib/weather/matcher.js:57-59 | an unparsable ticker scores nothing; otherwise the parsed contract is scored |
| WeatherMatcher.SizingNeverRejects | lib/weather/matcher.js:90-96 | with a positive minimum edge the sizing filter never rejects: a result is missing exactly when the filters or the side rule reject |
| WeatherMatcher.ScoreBuysBetterSide | lib/weather/matcher.js:80-92 | a recommendation buys YES exactly when the YES edge is at least the NO edge, and its edge lies between the minimum and the larger raw edge |
| WeatherMatcher.EnsembleSigmaAlwaysUsed | lib/weather/matcher.js:131-134 | for a station whose base sigma is at least a cent the ensemble sigma is always used, and it is less than a cent below the base |
| Ensemble.ConsensusEntries | lib/weather/ensemble.js:20-29 | the weighted entries have positive weights, are empty exactly when no model high is truthy, and hold only the truthy highs |
| Ensemble.ModelConsensus | lib/weather/ensemble.js:16-32 | null exactly when no model high is truthy; otherwise a value in whole cents |
| Ensemble.ConsensusBetween | lib/weather/ensemble.js:24-31 | the consensus lies within the range of the present highs, up to half a cent of rounding |
| Ensemble.ConsensusOfAgreement | lib/weather/ensemble.js:24-31 | when every present model agrees on a whole-cent value, the consensus is that value |
| Ensemble.StationBaseSigma | lib/weather/ensemble.js:45-58 | the base sigma is never zero, and it is 1.0 for an unknown station |
| Ensemble.SpreadSigmaRampMonotone | lib/weather/ensemble.js:68-72 | between one and three degrees of spread the sigma rises from the base to at most twice the base, never falling |
| Ensemble.SpreadSigmaJumpAtWide | lib/weather/ensemble.js:62-72 | the ramp reaches twice the base at three degrees; wider spreads keep at least that sigma exactly when the base is at most 1.25, because of the 2.5 cap |
| Ensemble.EnsembleSigma | lib/weather/ensemble.js:40-90 | the station's base sigma when GFS or ECMWF is missing; otherwise a value in whole cents |
| Ensemble.EnsembleSigmaFloor | lib/weather/ensemble.js:86-89 | the ensemble sigma is never more than half a cent below the base, and never below a whole-cent base |
| Ensemble.EnsembleSigmaCeiling | lib/weather/ensemble.js:62-89 | the ensemble sigma is at most twice the base sigma, up to half a cent |
| Ensemble.ModelSpread | lib/weather/ensemble.js:101-103 | the spread is present exactly when GFS and ECMWF are both truthy, and is never negative |
| Ensemble.AnalyzeUncertainty | lib/weather/ensemble.js:98-135 | UNKNOWN exactly when the spread is missing, LOW below one degree, HIGH above three, MODERATE in between; a missing spread is reported as 0; the spread and sigmas are reported to the cent |
| Ensemble.EnsembleTradeability | lib/weather/ensemble.js:143-170 | untradeable exactly when the reported spread exceeds 3; TIGHT_SIGMA exactly when it is under 1; the effective sigma is the reported dynamic sigma |
| Ensemble.MissingSpreadIsTight | lib/weather/ensemble.js:101-163 | a forecast missing GFS or ECMWF is tradeable with TIGHT_SIGMA at the base sigma |
| Ensemble.VerdictAgreesWithLevel | lib/weather/ensemble.js:113-163 | a refusal implies the HIGH class, and TIGHT_SIGMA implies the LOW or UNKNOWN class |
| Ensemble.BoundarySpreadTraded | lib/weather/ensemble.js:119-147 | a raw spread of 3.004 degrees is classed HIGH but still traded, because the verdict tests the rounded spread |
| WeatherForecast.CheckDataFreshness | lib/weather/forecast.js:10-22 | a missing timestamp is fresh with age 0; otherwise stale exactly when older than 12 hours, with the age in hours to the tenth |
| WeatherForecast.StaleStaysStale | lib/weather/forecast.js:17-22 | data stale at one moment is stale at every later moment |
| WeatherForecast.Present | lib/weather/forecast.js:96 | the non-null sources are no more than the inputs, and each comes from them |
| WeatherForecast.PresentCount | lib/weather/forecast.js:96-98 | the number of non-null sources is the count of present inputs |
| WeatherForecast.EntriesMatchTemps | lib/weather/forecast.js:108-120 | the weighted loop and the temperature list skip the same sources: one positive-weight entry per usable temperature, in order |
| WeatherForecast.WarningsFor | lib/weather/forecast.js:150-164 | CLIM_OUTLIER exactly for an outlier, the near-limit warning exactly for a spread above 1 and within the limit, the horizon warning exactly from two days on, and the stale-source warnings last |
| WeatherForecast.ClimDeviation | lib/weather/forecast.js:127-128 | 0 without a normal; otherwise the distance of the adjusted mean from the normal to the tenth |
| WeatherForecast.Assemble | lib/weather/forecast.js:130-166 | tradeable exactly when the spread is within the limit and the deviation within 15 degrees; an outlier's reason wins over the spread's; the warnings are those of WarningsFor |
| WeatherForecast.StaleWarningsAreStale | lib/weather/forecast.js:162-164 | every warning pushed by the staleness loop is a stale-data warning |
| WeatherForecast.TooFewSourcesIff | lib/weather/forecast.js:96-99 | the too-few-sources answer comes exactly when fewer than two sources are non-null |
| WeatherForecast.ConsensusMeanBetween | lib/weather/forecast.js:105-125 | a built consensus has a weighted mean between the coldest and warmest source (to the tenth) and an adjusted mean in that range shifted by the station bias |
| WeatherForecast.CollectPresent | lib/weather/forecast.js:96 | the filter loop returns exactly the non-null sources in order |
| WeatherForecast.SumWeighted | lib/weather/forecast.js:106-114 | the accumulation loop returns the weighted sum and the total weight of the usable entries |
| WeatherForecast.PushStaleWarnings | lib/weather/forecast.js:162-164 | the loop appends each stale source's warning in order after the existing warnings |
| WeatherForecast.Verdict | lib/weather/forecast.js:130-166 | the step-by-step verdict and warnings equal the assembled consensus |
| WeatherForecast.BuildFrom | lib/weather/forecast.js:97-166 | the imperative build returns the consensus of the non-null sources |
| WeatherForecast.BuildConsensus | lib/weather/forecast.js:95-167 | buildConsensus returns the intended consensus for the station, sources, month, horizon and temperature type |
| WeatherForecast.EntriesStep | lib/weather/forecast.js:108-114 | one loop turn adds the source's temperature times its model weight, and the weight, only when it has a usable temperature |
| WeatherForecast.ConsensusAsWrittenFrom | lib/weather/forecast.js:150-154 | the code as written differs from the intended consensus exactly on climatological outliers, which it turns into a failure |
| WeatherForecast.NormalHighReferenceError | lib/weather/forecast.js:150-154 | two sources at 60°F in a month whose normal is 30°F make the code as written throw, while the intended consensus refuses with CLIM_OUTLIER |
| WeatherForecast.OutlierRefused | lib/weather/forecast.js:150-154 | the intended consensus refuses every outlier and warns CLIM_OUTLIER; the code as written throws on each |
| WeatherCalibration.DayEntriesUpTo | lib/weather/calibration.js:23-30 | the first j days of a backtest give j entries, each carrying the station and that day's date, forecast, actual and error |
| WeatherCalibration.GroupSnoc | lib/weather/calibration.js:31-32 | pushing one entry appends it to its station's group, and adds the station to the key order only when it is new |
| WeatherCalibration.GroupKeys | lib/weather/calibration.js:32-53 | the groups' keys are exactly the stations in first-seen order, each listed once |
| WeatherCalibration.GroupContents | lib/weather/calibration.js:32 | each group holds exactly its station's entries in order, and is never empty |
| WeatherCalibration.OfStationAbsent | lib/weather/calibration.js:32 | a station without a group has no entries |
| WeatherCalibration.GroupSizesBump | lib/weather/calibration.js:32 | pushing onto an existing group adds one to the total size |
| WeatherCalibration.GroupSizesFrame | lib/weather/calibration.js:32 | changing a group outside the counted keys leaves the total unchanged |
| WeatherCalibration.GroupSizesAppend | lib/weather/calibration.js:32 | creating a new group of one adds one to the total size |
| WeatherCalibration.GroupSizesSum | lib/weather/calibration.js:31-55 | the per-station groups together hold exactly as many entries as the aggregate |
| WeatherCalibration.GroupSizesStep | lib/weather/calibration.js:31-32 | each loop turn adds one entry to the aggregate and one to the groups |
| WeatherCalibration.Errors | lib/weather/calibration.js:38 | one error per entry, in order |
| WeatherCalibration.AbsAll | lib/weather/calibration.js:39 | one absolute error per error, in order |
| WeatherCalibration.CountAtMost | lib/weather/calibration.js:42 | the hit count is at most the number of errors |
| WeatherCalibration.SumAbsBound | lib/weather/calibration.js:40-41 | the absolute value of the summed errors is at most the sum of absolute errors |
| WeatherCalibration.MeanErrorBounds | lib/weather/calibration.js:40-48 | the mean error is at most the mean absolute error, which lies between 0 and the largest absolute error |
| WeatherCalibration.PercentBounds | lib/weather/calibration.js:47 | a hit rate rounded to the tenth of a percent lies between 0 and 100 |
| WeatherCalibration.StatsOf | lib/weather/calibration.js:36-50 | null exactly for no entries; otherwise n is the count, MAE and bias are in whole cents with 0 <= MAE and bias <= MAE, the hit rate lies in 0..100 and the maximum error is not negative |
| WeatherCalibration.CountAtMostSpec | lib/weather/calibration.js:42 | the hit count is the number of absolute errors of at most the limit |
| WeatherCalibration.CalibrationCounts | lib/weather/calibration.js:15-57 | the aggregate is null exactly when there are no entries and otherwise counts every entry; every station present has statistics; the station groups partition the entries |
| WeatherCalibration.CollectEntries | lib/weather/calibration.js:19-34 | the nested loop returns every day's entry in order and the entries grouped by station |
| WeatherCalibration.AddDays | lib/weather/calibration.js:23-33 | the inner loop appends one backtest's entries and keeps the grouping exact |
| WeatherCalibration.StationStats | lib/weather/calibration.js:53-55 | the loop gives each station exactly the statistics of its entries |
| WeatherCalibration.ComputeStats | lib/weather/calibration.js:15-57 | computeStats returns the calibration of the backtests: null for none, else the aggregate and per-station statistics |
| PrecipStations.Months | lib/precipitation/stations.js:32-53 | a month table has exactly the keys 1 to 12, month k holding the k-th value |
| PrecipStations.Lookup | lib/precipitation/stations.js:129-148 | PRECIP_STATIONS[key] is found exactly when some entry has that key, and then it is that entry's station |
| PrecipStations.TradeableAreStations | lib/precipitation/stations.js:121 | every key in PRECIP_TRADEABLE names a configured station |
| PrecipStations.FirstMatch | lib/precipitation/stations.js:130-136 | the scan returns the first station, in table order, whose city or series matches (exactly or partially), and nothing exactly when none matches |
| PrecipStations.FirstMatchAfterHead | lib/precipitation/stations.js:130-136 | skipping a non-matching first station keeps the first-match property |
| PrecipStations.ResolvePrecipStation | lib/precipitation/stations.js:126-138 | empty input gives null; an exact upper-cased key wins; then the first exact city or series match; then the first partial match; otherwise null |
| PrecipStations.ResolvedIsKey | lib/precipitation/stations.js:126-138 | any answer is a configured station key |
| PrecipStations.ClimRainProb | lib/precipitation/stations.js:141-144 | the station's probability for the month, or 0.33 when the station or the month is missing |
| PrecipStations.GetClimMonthly | lib/precipitation/stations.js:147-154 | the station's monthly mean, std and gamma shape, each falling back to 2.0, 1.5 and 2.0 when missing |
| PrecipStations.MonthsWithin | lib/precipitation/stations.js:32-53 | a month table built from values in a range holds only values in that range |
| PrecipStations.NycSane | lib/precipitation/stations.js:21-40 | the New York table's rain probabilities lie between 0.30 and 0.36 |
| PrecipStations.DenSane | lib/precipitation/stations.js:43-59 | Denver's monthly means, stds and gamma shape are positive |
| PrecipStations.ChiSane | lib/precipitation/stations.js:60-73 | Chicago's monthly means, stds and gamma shape are positive |
| PrecipStations.SfoSane | lib/precipitation/stations.js:74-88 | San Francisco's monthly means, stds and gamma shape are positive |
| PrecipStations.AusSane | lib/precipitation/stations.js:89-102 | Austin's monthly means, stds and gamma shape are positive |
| PrecipStations.DalSane | lib/precipitation/stations.js:103-116 | Dallas's monthly means, stds and gamma shape are positive |
| PrecipStations.StationsSane | lib/precipitation/stations.js:19-117 | every configured precipitation station has a sane climatology |
| PrecipStations.ClimatologyInRange | lib/precipitation/stations.js:141-154 | over a sane table every rain probability lookup lies in 0.30..0.36 and every monthly mean, std and shape is positive, defaults included |
| PrecipForecast.AsWeighted | lib/precipitation/forecast.js:139-143 | each source becomes one weighted value with its own weight and probability or amount |
| PrecipForecast.Values | lib/precipitation/forecast.js:170-175 | the values of the sources, one per source, in order |
| PrecipForecast.EntriesPositive | lib/precipitation/forecast.js:123-130 | every probability source (NWS 0.40, GFS 0.35, ECMWF 0.25) and amount source (0.5 each) has a positive weight; at most three probabilities and two amounts |
| PrecipForecast.NoDataIff | lib/precipitation/forecast.js:132-183 | no forecast data exactly when no source has a probability or an amount; otherwise 1 to 5 sources are counted and a rain probability is always given |
| PrecipForecast.RainProbBetween | lib/precipitation/forecast.js:136-145 | with probability sources the rain probability lies between the lowest and the highest of them, to the cent |
| PrecipForecast.RainProbIsProbability | lib/precipitation/forecast.js:136-145 | when every source probability lies in 0..1 so does the consensus |
| PrecipForecast.FallbackOnlyWithoutProbabilities | lib/precipitation/forecast.js:147-156 | the logistic mapping matters only without any probability source, and then gives the rounded logistic of the weighted mean amount |
| PrecipForecast.PrecipAmountIff | lib/precipitation/forecast.js:158-167 | the amount is null exactly when no amount source exists; otherwise it lies between the lowest and the highest amount, to the cent |
| PrecipForecast.SpreadsNonNegative | lib/precipitation/forecast.js:169-175 | both spreads are never negative, are 0 with fewer than two sources, and are 0 when the sources agree |
| PrecipForecast.FullWeightIsOne | lib/precipitation/forecast.js:123-125 | with all three probability sources present the weights sum to 1 |
| PrecipForecast.Accumulate | lib/precipitation/forecast.js:139-165 | the accumulation loop returns the weighted sum and the total weight |
| PrecipForecast.CollectSources | lib/precipitation/forecast.js:119-130 | the pushes collect the probability sources and the amount sources, in order |
| PrecipForecast.WeightedMean | lib/precipitation/forecast.js:139-144 | the loop and the division give the weighted mean of the sources |
| PrecipForecast.BuildPrecipConsensus | lib/precipitation/forecast.js:118-188 | buildPrecipConsensus returns the consensus function's result, with the logistic mapping as a parameter |
| PrecipMatcher.WordPrefixLen | lib/precipitation/matcher.js:33-48 | the run of word characters at the front of a string, ending at the first non-word character |
| PrecipMatcher.WordPrefixLenExact | lib/precipitation/matcher.js:33-48 | a word run followed by a non-word character is measured exactly |
| PrecipMatcher.MatchDaily | lib/precipitation/matcher.js:33 | a daily match is well formed and recomposes to the ticker it came from |
| PrecipMatcher.MatchDailyComplete | lib/precipitation/matcher.js:33 | every well-formed daily ticker is matched, with its own parts |
| PrecipMatcher.MatchMonthly | lib/precipitation/matcher.js:48 | a monthly match is well formed and recomposes to the ticker it came from |
| PrecipMatcher.MatchMonthlyComplete | lib/precipitation/matcher.js:48 | every well-formed monthly ticker is matched, with its own parts |
| PrecipMatcher.MonthlyIsNotDaily | lib/precipitation/matcher.js:33-48 | a monthly ticker never matches the daily pattern, so the branch order does not matter |
| PrecipMatcher.MonthNumberValue | lib/precipitation/matcher.js:36-43 | each MONTHS value is two digits worth 1 to 12 |
| PrecipMatcher.ParseDaily | lib/precipitation/matcher.js:34-45 | a parsed daily contract has a month from 1 to 12 |
| PrecipMatcher.ParseMonthly | lib/precipitation/matcher.js:49-62 | a parsed monthly contract has a month from 1 to 12 |
| PrecipMatcher.ParsePrecipTicker | lib/precipitation/matcher.js:29-65 | an empty ticker parses to null, and every parsed month lies in 1..12 |
| PrecipMatcher.ParsePrecipSound | lib/precipitation/matcher.js:29-65 | every parsed ticker is the composition of a well-formed daily or monthly match, as its kind says |
| PrecipMatcher.ParseDailyTicker | lib/precipitation/matcher.js:33-45 | a well-formed daily ticker with an unknown month parses to null; otherwise to its series, date 20YY-MM-DD and month number |
| PrecipMatcher.ParseMonthlyTicker | lib/precipitation/matcher.js:48-62 | a well-formed monthly ticker with an unknown month parses to null; otherwise to its series, year-month, month, year 2000+YY and threshold |
| PrecipMatcher.DigitFacts | lib/precipitation/matcher.js:43-60 | the digit strings of the examples read as 2, 26 and 5 |
| PrecipMatcher.ExampleDaily | lib/precipitation/matcher.js:26 | KXRAINNYC-26FEB11-T0 parses to the daily contract for 2026-02-11 |
| PrecipMatcher.ExampleMonthly | lib/precipitation/matcher.js:27 | KXRAINDENM-26FEB-5 parses to the monthly contract for 2026-02 with threshold 5 |
| PrecipMatcher.Sized | lib/precipitation/matcher.js:106-130 | nothing exactly when the sizing buys nothing; otherwise the pick with estimate, edge, expected value, probability and spread to the cent and the thin-market flag below 100 |
| PrecipMatcher.ScoreQuote | lib/precipitation/matcher.js:83-173 | nothing exactly when neither side is quoted, the spread exceeds 10¢, the capped side rule picks nothing or the sizing buys nothing; otherwise the sized pick |
| PrecipMatcher.ScoreQuoteKept | lib/precipitation/matcher.js:91-108 | a scored contract buys YES exactly when the YES edge meets the minimum and beats NO, at the ask or one minus the bid, with an estimate of at most 0.99, an edge of at least the minimum and at least one contract |
| PrecipMatcher.MissingAskPricedAtZero | lib/precipitation/matcher.js:83-96 | a contract with a bid and no ask is bought YES at price 0 whenever the model gives YES at least the minimum edge and half the bid |
| PrecipMatcher.ScoreDaily | lib/precipitation/matcher.js:72-131 | nothing exactly when the ticker is not daily, the rain probability is missing or zero, or the quote scores nothing; otherwise a daily recommendation for the parsed date |
| PrecipMatcher.ScoreMonthly | lib/precipitation/matcher.js:143-198 | nothing exactly when the ticker is not monthly or the quote scores nothing; otherwise a monthly recommendation with the parsed year-month and threshold |
| PrecipMatcher.ScannedStations | lib/precipitation/matcher.js:213-215 | the scan visits exactly the configured stations that pass the station filter and are in PRECIP_TRADEABLE |
| PrecipMatcher.Kept | lib/precipitation/matcher.js:234-304 | exactly the non-null scores are pushed |
| PrecipMatcher.RankRecommendations | lib/precipitation/matcher.js:234-314 | the pushed scores come back sorted by descending expected value, as a permutation of the non-null scores |
| PrecipCalibration.Outcome | lib/precipitation/calibration.js:86 | the outcome is 1 exactly when more than 0.01 inch fell, and 0 otherwise |
| PrecipCalibration.BinOf | lib/precipitation/calibration.js:90 | the bin is the tenth the probability falls in, capped at 9, and never negative for a non-negative probability |
| PrecipCalibration.Bins | lib/precipitation/calibration.js:89-95 | every bin counts at least one pair and its observed sum lies between 0 and its count |
| PrecipCalibration.BinsKeys | lib/precipitation/calibration.js:90-91 | a bin exists exactly when some pair falls in it |
| PrecipCalibration.SquaredErrorSum | lib/precipitation/calibration.js:87 | the sum of squared errors is never negative |
| PrecipCalibration.RainCount | lib/precipitation/calibration.js:100 | the rainy days are at most all days |
| PrecipCalibration.QuarterBound | lib/precipitation/calibration.js:101 | a frequency times its complement lies between 0 and 0.25 |
| PrecipCalibration.UnitRounded | lib/precipitation/calibration.js:117-162 | rounding a fraction to the cent keeps it in 0..1 |
| PrecipCalibration.ReliabilityOf | lib/precipitation/calibration.js:105-110 | every diagram row counts at least one pair and has an observed frequency in 0..1 |
| PrecipCalibration.ReliabilitySorted | lib/precipitation/calibration.js:105-110 | the diagram rows are in ascending order of bin centre, within the scanned bins |
| PrecipCalibration.ReliabilityKeys | lib/precipitation/calibration.js:105-106 | a bin has a row exactly when it holds pairs |
| PrecipCalibration.LowestBin | lib/precipitation/calibration.js:90 | the lowest bin used is at most 9 and no pair falls below it |
| PrecipCalibration.TotalAdd | lib/precipitation/calibration.js:91-93 | adding a pair adds one to the count of the bins that include it |
| PrecipCalibration.TotalEmpty | lib/precipitation/calibration.js:83 | no bins count nothing |
| PrecipCalibration.BinsTotal | lib/precipitation/calibration.js:85-95 | the bins together count every pair |
| PrecipCalibration.ReliabilityCounts | lib/precipitation/calibration.js:105-110 | the diagram's counts add up to the bins' counts |
| PrecipCalibration.BrierReliability | lib/precipitation/calibration.js:85-110 | the diagram lists each bin some pair falls in exactly once, in ascending order, with counts adding up to the number of pairs |
| PrecipCalibration.ClimatologyBounds | lib/precipitation/calibration.js:100-102 | the climatological probability lies in 0..1 and its score in 0..0.25; all-wet or all-dry days give score 0 and skill 0 |
| PrecipCalibration.ClimScoreBounds | lib/precipitation/calibration.js:101 | the climatological score lies in 0..0.25, and is 0 at frequency 0 or 1 |
| PrecipCalibration.BrierScoreBounds | lib/precipitation/calibration.js:97 | the Brier score is never negative, and at most 1 when no squared error exceeds 1 on average |
| PrecipCalibration.BrierBounds | lib/precipitation/calibration.js:79-120 | for pairs the climatological probability lies in 0..1, its score in 0..0.25, the Brier score is never negative and at most 1 for probabilities in 0..1; all-wet or all-dry pairs give no skill |
| PrecipCalibration.SquaredErrorsAtMost | lib/precipitation/calibration.js:87 | with probabilities in 0..1 each squared error is at most 1 |
| PrecipCalibration.PerfectForecastsNoError | lib/precipitation/calibration.js:87 | forecasts equal to the outcomes have no squared error |
| PrecipCalibration.PerfectForecastScoresZero | lib/precipitation/calibration.js:75-97 | forecasts equal to the outcomes score a Brier score of 0 |
| PrecipCalibration.Accumulate | lib/precipitation/calibration.js:82-95 | the loop returns the sum of squared errors and the bins of all pairs |
| PrecipCalibration.SquaredErrorStep | lib/precipitation/calibration.js:87 | one loop turn adds that pair's squared error |
| PrecipCalibration.BinsStep | lib/precipitation/calibration.js:90-94 | one loop turn adds that pair to its bin |
| PrecipCalibration.ComputeBrierScore | lib/precipitation/calibration.js:79-120 | computeBrierScore returns the Brier report of the pairs: only n = 0 for none |
| PrecipCalibration.CountWithin | lib/precipitation/calibration.js:141-143 | the months within an interval are at most all months |
| PrecipCalibration.PairsOf | lib/precipitation/calibration.js:146-153 | a month without thresholds gives no pairs; otherwise one pair per threshold with its predicted probability and an outcome of rain exactly when the total exceeded the threshold |
| PrecipCalibration.CountWithinMonotone | lib/precipitation/calibration.js:139-143 | a wider interval never covers fewer months, when the predicted spreads are not negative |
| PrecipCalibration.CoverageFlags | lib/precipitation/calibration.js:159-166 | coverages lie in 0..1, each overconfidence flag agrees with its rounded coverage against 0.40 and 0.80, and thresholds are scored exactly when there are any |
| PrecipCalibration.CoverageOrdered | lib/precipitation/calibration.js:161-162 | covering more months with the wider interval gives at least as high a coverage |
| PrecipCalibration.MonthlyCalibrationSound | lib/precipitation/calibration.js:126-167 | only the count for no months; otherwise n months, coverages in 0..1 agreeing with the flags, thresholds scored exactly when present, and the 90% coverage at least the 50% one |
| PrecipCalibration.PushThresholds | lib/precipitation/calibration.js:146-153 | the inner loop appends one month's threshold pairs |
| PrecipCalibration.ComputeMonthlyCalibration | lib/precipitation/calibration.js:126-167 | computeMonthlyCalibration returns the monthly report of the pairs |
| FlightMatcher.FirstDateFrom | lib/flights/matcher.js:49 | the search finds the first place, from i on, where two digits, three capitals and two digits start, or reports that there is none |
| FlightMatcher.FirstThresholdFrom | lib/flights/matcher.js:60 | the search finds the first place, from i on, where `-T` and a digit start, or reports that there is none |
| FlightMatcher.NormalizeSound | lib/flights/matcher.js:44-82 | quotes in cents become dollar prices in 0..1 with the midpoint between them; the contract is a threshold contract exactly when the ticker holds `-T` and a digit, and has a date exactly when it holds a date pattern |
| FlightMatcher.FirstDateIs | lib/flights/matcher.js:49-55 | the date is built from the first occurrence of the date pattern |
| FlightMatcher.FirstThresholdIs | lib/flights/matcher.js:60-64 | the threshold is the number after the first `-T` |
| FlightMatcher.ExampleThreshold | lib/flights/matcher.js:44-82 | FLIGHTORD-25MAR14-T300 quoted 40¢/46¢ is a threshold-300 contract for 2025-03-14 with prices 0.40 and 0.46 and midpoint 0.43 |
| FlightMatcher.ExampleThresholdDate | lib/flights/matcher.js:49-55 | FLIGHTORD-25MAR14-T300 is dated 2025-03-14 |
| FlightMatcher.MarchFragment | lib/flights/matcher.js:49-54 | the date pattern of FLIGHTORD-25MAR14-T300 starts at position 10 and reads 2025-03-14 |
| FlightMatcher.NoDateBefore | lib/flights/matcher.js:49 | no date pattern starts before the first digit |
| FlightMatcher.ExampleThresholdType | lib/flights/matcher.js:60-64 | FLIGHTORD-25MAR14-T300 has threshold 300 |
| FlightMatcher.ThreeDigits | lib/flights/matcher.js:63 | the digits 300 read as 300 |
| FlightMatcher.ExampleUnknownMonth | lib/flights/matcher.js:52-54 | an unknown month name is written into the date as `undefined`: ORDDLY-25XYZ14 is dated 2025-undefined-14 |
| FlightMatcher.UnknownFragment | lib/flights/matcher.js:52-54 | the date pattern of ORDDLY-25XYZ14 starts at position 7 and reads 2025-undefined-14 |
| FlightMatcher.SizedRec | lib/flights/matcher.js:129-154 | nothing exactly when the sizing buys nothing; otherwise the pick with ev = edge × contracts, the market's ticker, date and type, and the thin-market flag below 100 |
| FlightMatcher.ScoreFlight | lib/flights/matcher.js:94-155 | a recommendation carries the market's ticker and date |
| FlightMatcher.ScoreFlightKept | lib/flights/matcher.js:94-130 | every recommendation comes from a traded or settled market, buys YES exactly when its edge meets the minimum and beats NO, at the ask (or midpoint) or one minus the bid (or midpoint), with an estimate of at most 0.99, an edge of at least the minimum and at least one contract |
| FlightMatcher.UntradedActiveSkipped | lib/flights/matcher.js:95 | a zero-volume market without a result is never recommended |
| FlightMatcher.RecsForDate | lib/flights/matcher.js:185-190 | every collected recommendation is for the target date |
| FlightMatcher.DatedScore | lib/flights/matcher.js:187-188 | a market of another date is skipped, and a score is for the target date |
| FlightMatcher.RunFlightStrategy | lib/flights/matcher.js:184-193 | the loop and sort return the target date's recommendations, sorted by descending expected value, as a permutation of those scored |
| FlightModel.Points | lib/flights/model.js:30-57 | every factor adds a positive number of points |
| FlightModel.ClassifyWeatherSeverity | lib/flights/model.js:25-67 | the step-by-step classification returns the factor score, the factors in the order pushed, and the category of that score |
| FlightModel.AddWind | lib/flights/model.js:30-33 | the wind step adds the points and the factor of the one wind tier reached |
| FlightModel.AddSnow | lib/flights/model.js:36-39 | the snow step adds the points and the factor of the one snow tier reached |
| FlightModel.AddVisibility | lib/flights/model.js:42-45 | the visibility step adds the points and the factor of the one visibility tier reached |
| FlightModel.AddHazards | lib/flights/model.js:48-57 | thunderstorms add 30, freezing rain 45, fog 15 and heavy rain without thunderstorms 10, each with its factor |
| FlightModel.SumPointsAppend | lib/flights/model.js:26-57 | the points of two factor lists add up |
| FlightModel.TierTotals | lib/flights/model.js:30-45 | each tier's factor carries exactly the points that tier adds |
| FlightModel.OneFactor | lib/flights/model.js:30-45 | a list of at most one factor is worth that factor's points |
| FlightModel.PushIfPoints | lib/flights/model.js:48-57 | a conditional push adds the factor's points exactly when it happens |
| FlightModel.HazardTotal | lib/flights/model.js:48-57 | the hazard factors are worth 30, 45, 15 and 10 for the hazards present |
| FlightModel.ScoreIsFactorTotal | lib/flights/model.js:26-57 | the severity score is exactly the sum of its factors' points |
| FlightModel.FactorPositions | lib/flights/model.js:29-57 | the factors list at most one wind factor first, then at most one snow factor, then at most one visibility factor, then the hazards |
| FlightModel.OneTierEach | lib/flights/model.js:29-57 | no two factors share a wind, snow or visibility tier, and heavy rain is listed exactly when it counts |
| FlightModel.ScoreBounds | lib/flights/model.js:26-57 | the score lies between 0 and 215, and is 0 exactly when no factor applies |
| FlightModel.SeverityMonotone | lib/flights/model.js:25-67 | worse weather in every reading never gives a lower score or a milder category |
| FlightModel.WeatherMultiplier | lib/flights/model.js:75-83 | the weather multiplier lies between 0.55 (clear) and 3.0 (extreme) |
| FlightModel.WeatherMultiplierMonotone | lib/flights/model.js:76-81 | a more severe category never has a smaller multiplier |
| FlightModel.FaaMultiplier | lib/flights/model.js:113-119 | a closure gives 3.0 whether or not a delay is active, a delay alone 1.8, otherwise 1.0 |
| FlightModel.ClampedProbability | lib/flights/model.js:124-134 | the probability lies in 0.03..0.97, and a product already in that range moves by at most half a thousandth in rounding |
| FlightModel.ClampedMonotone | lib/flights/model.js:124-134 | clamping and rounding never reverse the order of two products |
| FlightModel.HorizonPenalty | lib/flights/model.js:130 | the horizon penalty is at least 0.5, and at most 1 for a date not in the past |
| FlightModel.DayOfWeek | lib/flights/model.js:97 | the day of the week runs from 1 (Monday) to 7 (Sunday) |
| FlightModel.BreakdownOf | lib/flights/model.js:96-128 | the base rate and day-of-week factor are positive, the holiday and FAA factors at least 1, the weather factor that of the category, and the horizon never negative |
| FlightModel.PredictionBounds | lib/flights/model.js:94-151 | the delay probability lies in 0.03..0.97 and the confidence in 0.30..0.85 |
| FlightModel.PredictBounds | lib/flights/model.js:122-135 | for any multipliers the probability lies in 0.03..0.97 and the confidence in 0.30..0.85 |
| FlightModel.ConfidenceBounds | lib/flights/model.js:129-135 | the weather confidence times the horizon penalty, to the cent, lies in 0.30..0.85 |
| FlightModel.ProductBetween | lib/flights/model.js:122-131 | a product of two non-negative factors lies between the products of their bounds |
| FlightModel.DelayProductMonotone | lib/flights/model.js:122 | a larger weather multiplier, all else equal, gives a larger product |
| FlightModel.WorseWeatherNoLowerDelay | lib/flights/model.js:94-134 | worse weather never lowers the delay probability on the same date with the same FAA status |
| FlightModel.SignalMonotone | lib/flights/model.js:218-220 | a higher delay probability never gives a calmer trading signal |
| FlightModel.GenerateDelayForecast | lib/flights/model.js:199-222 | the forecast classifies the weather, predicts the probability in 0.03..0.97, and signals HIGH_DELAY exactly from 0.50, ELEVATED exactly in [0.30, 0.50), NORMAL exactly in [0.15, 0.30) and LOW_DELAY exactly below 0.15 |
| FlightData.BaseRate | lib/flights/data.js:176-189 | the monthly base rate lies between 0.14 (October) and 0.35 (July), and is 0.22 for a month the table lacks |
| FlightData.DowMultiplier | lib/flights/data.js:192-200 | the day-of-week multiplier lies between 0.85 (Saturday) and 1.15 (Friday) |
| FlightData.Weekday | lib/flights/data.js:238 | the weekday lies in 0..6 |
| FlightData.WeekdayOfKey | lib/flights/data.js:238 | the weekday is the remainder of a day count that grows by one per day |
| FlightData.WeekdayNext | lib/flights/data.js:238 | the day after a valid date falls on the next weekday, across month and year ends |
| FlightData.EpochThursday | lib/flights/data.js:238 | 1 January 1970 is a Thursday (4), as getDay reports it |
| FlightData.ThanksgivingIsFourthThursday | lib/flights/data.js:236-240 | the computed Thanksgiving is a Thursday from the 22nd to the 28th of November, and no other such day exists |
| FlightData.ExampleThanksgiving | lib/flights/data.js:236-240 | Thanksgiving falls on 27 November 2025 and 26 November 2026 |
| FlightData.HolidayWindows | lib/flights/data.js:230-256 | 1.35 exactly within three days of the fourth Thursday of November, 1.30 exactly from 20 December, 1.20 exactly on 1-3 January or 2-5 July, 1.15 exactly from 24 May or on 1-7 September, and 1.0 exactly outside every window |
| FlightData.HolidayAtLeastOne | lib/flights/data.js:230-256 | the holiday multiplier lies between 1.0 and 1.35, so a holiday never lowers the delay rate |
| CryptoStrategy.LiquidBounds | lib/crypto/strategy.js:33-50 | a market is liquid exactly when the ask is positive, the bid lies in [0.10, 0.90], the spread is at most 0.20 and there is some volume or open interest; a liquid ask is then at most 1.10 |
| CryptoStrategy.MakeRec | lib/crypto/strategy.js:152-175 | a recommendation built from a side that cleared the edge test has a net edge of at least 5 cents, a gross edge of at least 9 cents, an executable price in [0, 1] and at least one contract |
| CryptoStrategy.SidesScan | lib/crypto/strategy.js:129-150 | every recommendation from the side loop is well formed and names the market's ticker; each side yields at most one recommendation or skip, and none is counted illiquid |
| CryptoStrategy.ListingScan | lib/crypto/strategy.js:88-112 | a market yields recommendations only when its coin has signals, its threshold is positive, it is liquid and it has no close time or closes at least two hours from now; each recommendation carries the days to close, or 1 without a close time, to the cent; one market is counted illiquid at most once |
| CryptoStrategy.Scan | lib/crypto/strategy.js:87-192 | every recommendation is well formed; at most one illiquid count per market and at most two recommendations or skips per market |
| CryptoStrategy.RecsFromEligibleMarkets | lib/crypto/strategy.js:87-150 | every recommendation names the ticker of a listed market that has signals, a positive threshold, liquidity and no close time or at least two hours to close |
| CryptoStrategy.ExpiringSoonCountedIlliquid | lib/crypto/strategy.js:101-111 | a liquid market with a close time less than two hours away, or already passed, yields nothing and is counted once as illiquid |
| CryptoStrategy.ClosingNowCountedIlliquid | lib/crypto/strategy.js:101-110 | a market whose close time is exactly now is counted illiquid, not scored as a one-day market |
| CryptoStrategy.NoCloseTimeOneDay | lib/crypto/strategy.js:101-104 | a market without a close time is never skipped for expiry, and its recommendations carry one day to expiry |
| CryptoStrategy.SidesNeverTooSmall | lib/crypto/strategy.js:141-150 | the side loop never counts a side as too small |
| CryptoStrategy.TooSmallNeverCounted | lib/crypto/strategy.js:84-150 | the too-small counter of the whole scan stays at zero, since a side that clears the edge test always buys at least one contract |
| CryptoStrategy.ScoreListing | lib/crypto/strategy.js:88-150 | scoring one market returns exactly what the scan specification gives for it |
| CryptoStrategy.ScoreSides | lib/crypto/strategy.js:134-189 | the side loop returns exactly the side-scan specification's recommendations and skip counts |
| CryptoStrategy.RunCryptoStrategy | lib/crypto/strategy.js:83-204 | all recommendations are the scan's, as a permutation sorted by edge, highest first; the top ones are the first five of them, each well formed; the skip counts are the scan's |
| GasMatcher.LiquidIff | lib/gas/matcher.js:48-55 | a market is liquid exactly when the ask is positive, the spread is at most 0.20, the bid lies in [0.08, 0.92] and there is some volume or open interest |
| GasMatcher.ParseSettlement | lib/gas/matcher.js:62-69 | without a close time the contract settles in 7 days with no date; with one it settles no sooner than 0.1 days, exactly at the close when that is later, and the date is a YYYY-MM-DD string |
| GasMatcher.UnquotedNoSidePriced | lib/gas/matcher.js:112-116 | a liquid market without a NO ask prices NO at one minus the bid, which lies in [0.08, 0.92], so that side is never dropped as out of range |
| GasMatcher.ExpectedValue | lib/gas/matcher.js:157 | the expected value of a recommendation, net edge times contracts, is at least the 5-cent minimum edge |
| GasMatcher.MakeRec | lib/gas/matcher.js:133-158 | a recommendation built from a side that cleared the edge test has a net edge of at least 5 cents, a gross edge of at least 9 cents, a price in [0, 1], at least one contract, an expected value of at least 5 cents and at least four hours to settle |
| GasMatcher.SidesScan | lib/gas/matcher.js:110-131 | every recommendation from the side loop is well formed and names the market's ticker |
| GasMatcher.ListingScan | lib/gas/matcher.js:88-107 | a contract yields recommendations only when it has a strike, is liquid and settles at least four hours from now; it is counted at most once as illiquid or expiring |
| GasMatcher.Scan | lib/gas/matcher.js:85-162 | every recommendation is well formed; at most one illiquid-or-expiring count and at most two recommendations or skips per contract |
| GasMatcher.RecsFromEligibleMarkets | lib/gas/matcher.js:85-131 | every recommendation names the ticker of a listed contract with a strike that is liquid and settles at least four hours from now |
| GasMatcher.ExpiringSoonCounted | lib/gas/matcher.js:96-102 | a liquid contract closing within four hours yields nothing and is counted once as expiring soon |
| GasMatcher.NoCloseTimeNeverExpiring | lib/gas/matcher.js:64-99 | a liquid contract with a strike and no close time is never skipped for time |
| GasMatcher.SidesNeverTooSmall | lib/gas/matcher.js:121-131 | the side loop never counts a side as too small |
| GasMatcher.TooSmallNeverCounted | lib/gas/matcher.js:83-131 | the too-small counter of the whole scan stays at zero, since a side that clears the edge test always buys at least one contract |
| GasMatcher.ScoreListing | lib/gas/matcher.js:88-159 | scoring one contract returns exactly what the scan specification gives for it |
| GasMatcher.ScoreSides | lib/gas/matcher.js:115-159 | the side loop returns exactly the side-scan specification's recommendations and skip counts |
| GasMatcher.ScoreGasMarkets | lib/gas/matcher.js:82-172 | all recommendations are the scan's, as a permutation sorted by edge, highest first; the top ones are the first five of them, each well formed; the skip counts are the scan's |
| BacktestScoring.SumSquaredError | lib/backtest/scoring.js:13 | the sum of squared errors is never negative |
| BacktestScoring.BrierScore | lib/backtest/scoring.js:11-15 | the Brier score is NaN (None) exactly when there are no predictions, and otherwise non-negative |
| BacktestScoring.SquaredErrorsAtMostCount | lib/backtest/scoring.js:13 | for probabilities and 0/1 outcomes, each squared error is at most 1, so their sum is at most the count |
| BacktestScoring.BrierBounds | lib/backtest/scoring.js:11-15 | for probabilities and 0/1 outcomes, the Brier score lies in [0, 1] |
| BacktestScoring.PerfectNoError | lib/backtest/scoring.js:7-13 | forecasts equal to their outcomes have no squared error |
| BacktestScoring.PerfectScoresZero | lib/backtest/scoring.js:7-15 | perfect forecasts score a Brier score of 0 |
| BacktestScoring.BrierSkillScore | lib/backtest/scoring.js:21-29 | the skill is NaN exactly with no predictions or with a zero climatological score and a zero Brier score, and minus infinity exactly with a zero climatological score and a positive Brier score |
| BacktestScoring.SkillMeaning | lib/backtest/scoring.js:18-28 | for a climatological rate strictly between 0 and 1, the skill is finite and at most 1, equals 1 for perfect forecasts, and is positive exactly when the Brier score beats climatology |
| BacktestScoring.BinIndex | lib/backtest/scoring.js:54 | a forecast's bin is at most the last bin; it exists exactly when there are bins and the forecast is not negative; bin i holds forecasts from i/n up to (i+1)/n, the last bin everything above |
| BacktestScoring.Members | lib/backtest/scoring.js:53-58 | a bin's members are exactly the forecasts whose index is that bin |
| BacktestScoring.Totals | lib/backtest/scoring.js:55-57 | a bin's count is the number of its members |
| BacktestScoring.Bins | lib/backtest/scoring.js:51 | there are exactly nBins bins |
| BacktestScoring.BinsStep | lib/backtest/scoring.js:53-58 | adding one forecast updates only its own bin, by adding the forecast to that bin's totals |
| BacktestScoring.CenterInside | lib/backtest/scoring.js:61 | each bin's centre lies strictly inside the bin |
| BacktestScoring.Curve | lib/backtest/scoring.js:60-65 | every point of the curve comes from a non-empty bin, and the points are in strictly increasing bin-centre order |
| BacktestScoring.CalibrationCurve | lib/backtest/scoring.js:50-66 | filling a fixed array of bins and keeping the non-empty ones gives exactly the curve specification, with no curve where a forecast has no bin (the source throws there) |
| BacktestScoring.AddForecast | lib/backtest/scoring.js:54-57 | adding one forecast in place turns the bins of the first k forecasts into the bins of the first k+1 |
| BacktestScoring.CurveDefined | lib/backtest/scoring.js:51-58 | the curve exists exactly when there are no forecasts, or there are bins and no forecast is negative |
| BacktestScoring.CurveKeepsNonEmpty | lib/backtest/scoring.js:60-65 | the curve holds a point for every non-empty bin and no other points |
| BacktestScoring.SumCounts | lib/backtest/scoring.js:64-65 | a curve of non-empty points counts at least one forecast per point |
| BacktestScoring.CurveCounts | lib/backtest/scoring.js:60-65 | the counts on the curve add up to the counts in the bins |
| BacktestScoring.BinsCount | lib/backtest/scoring.js:53-58 | when every forecast has a bin, the bin counts add up to the number of forecasts |
| BacktestScoring.CurveCountsSumToInput | lib/backtest/scoring.js:50-83 | the curve's counts add up to the number of forecasts, so the weights of the calibration error sum to 1 |
| BacktestScoring.TotalsBounds | lib/backtest/scoring.js:55-56 | for probabilities and 0/1 outcomes, a bin's sums lie between 0 and its count |
| BacktestScoring.CurvePointsBounded | lib/backtest/scoring.js:62-63 | every point's mean forecast and observed frequency lie in [0, 1] |
| BacktestScoring.WeightedGaps | lib/backtest/scoring.js:83 | the weighted sum of calibration gaps is never negative |
| BacktestScoring.ExpectedCalibrationError | lib/backtest/scoring.js:80-84 | the calibration error exists exactly when the curve does, and is never negative |
| BacktestScoring.WeightedGapsBound | lib/backtest/scoring.js:83 | with gaps of at most 1, the weighted sum is at most the counted share of forecasts |
| BacktestScoring.CalibrationErrorBounds | lib/backtest/scoring.js:77-84 | for probabilities and 0/1 outcomes, the calibration error lies in [0, 1] |
| BacktestScoring.Sharpness | lib/backtest/scoring.js:72-75 | sharpness is NaN (None) exactly when there are no predictions, and otherwise non-negative |
| BacktestScoring.DeviationsAtMostHalf | lib/backtest/scoring.js:74 | the summed distance from 0.5 is at most half the count, and equal to it exactly when every forecast is 0 or 1 |
| BacktestScoring.SharpnessBounds | lib/backtest/scoring.js:68-75 | for probabilities, sharpness lies in [0, 0.5] and reaches 0.5 exactly when every forecast is 0 or 1 |
| BacktestScoring.BinMeansBounded | lib/backtest/scoring.js:62-63 | for probabilities and 0/1 outcomes, a non-empty bin's average forecast and average outcome over its members lie in [0, 1] |
| LegacyForecast.ClimCheck | forecast.js:97-106 | an unknown station fails; otherwise the normal is present exactly when the month has one, the deviation is the forecast minus that normal, and it is an outlier exactly when it exceeds 15°F in absolute value; a month without a normal is never an outlier |
| LegacyForecast.Present | forecast.js:111 | the kept forecasts are exactly the sources that answered, and there are no more of them than sources |
| LegacyForecast.Highs | forecast.js:116 | one high per kept forecast, in the same order |
| LegacyForecast.Ascending | forecast.js:121 | the sorted highs are a permutation of the highs in ascending order |
| LegacyForecast.Median | forecast.js:121 | the median is one of the highs and lies between their minimum and maximum |
| LegacyForecast.BuildConsensus | forecast.js:110-158 | the step-by-step pipeline returns exactly the consensus specification's answer, including the too-few-sources answer and the failure for an unknown station |
| LegacyForecast.ApplyChecks | forecast.js:130-157 | applying the spread check, the climatological check and the near-limit check in turn yields exactly the verdict the specification defines |
| LegacyForecast.PresentCount | forecast.js:111-112 | the number of kept forecasts is the number of sources that answered |
| LegacyForecast.TooFewSourcesIff | forecast.js:111-125 | the too-few-sources answer comes exactly when fewer than two sources answered, and the call fails exactly when two or more answered for a station the table lacks |
| LegacyForecast.ConsensusVerdict | forecast.js:125-151 | with two or more sources, the day is tradeable exactly when the spread is at most 2°F and the bias-adjusted mean is not a climatological outlier; a reason is given exactly when it is untradeable; an outlier's reason wins over the spread's |
| LegacyForecast.ConsensusWarnings | forecast.js:147-155 | CLIM_OUTLIER is warned exactly for an outlier, the near-threshold note exactly for a spread in (1, 2], and there are no other warnings |
| LegacyForecast.ConsensusStatistics | forecast.js:116-134 | the reported mean lies between the lowest and the highest source high, to the rounding; the median is one of the highs, rounded; the spread is never negative |

## Left out

- Network and exchange I/O are not modelled. The HTTP client with its request signing, and every `fetch*` function (forecasts, observations, prices, FAA status, markets, balances, order placement), are outside the model. Their answers are parameters: observed highs, forecasts, market listings, balances, market status and the exchange's order reply.
- File persistence and logging are not modelled. This covers loading and saving the ledger and pending JSON files, the executor's JSON log file, the JSONL decision history and the logger. Console output and report formatting are also out. The ledger and pending list live as object state, and the executor returns the log entries it would append.
- Floating-point numerics are not modelled. The normal CDF, the Student-t CDF, the regularised incomplete beta and gamma, `probAboveThreshold` and `probInBracket`, the crypto GARCH forecast, the gas regression model, the precipitation gamma fit and logistic calibration, implied volatility, the backtest engine and `logLoss` are all out. Where the core consumes their results, the probability or sigma is an input: a number, or a function `real -> real` for a probability of exceeding a threshold.
- The model uses exact real arithmetic, so the binary rounding error of IEEE doubles is not modelled. A value such as `0.1 + 0.2` is exact here.
- CLI orchestration is not modelled: the `commands/` handlers, the `bin/` entry point, the backtest runners, the calibration script and the gas strategy report.
- Configuration and the environment are not modelled. `config.json` sections and the `LIVE_TRADING` switch are parameters, and the module defaults are constants.
- The clock and randomness are not modelled. "Now", the day offset of a forecast date and a market's time to close are parameters, and record ids are supplied by the caller.
- Message texts are kept only where a caller tests them. Elsewhere, reasons and violations are datatypes, and `toFixed` renderings inside messages are not modelled.
- The root `stations.js` table and `data/stations.json` are data. The model takes them as a map from station code to station record, and the rain station table is written out.
- Risk: `getDailyCost` (lib/core/risk.js:58-63) has no caller in the core and is not modelled.
- Weather scan: `fetchStationMarkets` and `scanPrecipMarkets` compute probabilities from fetched forecasts and the gamma fit. Only their scoring, filtering and ordering are modelled; the month-to-date rain fetch is out.
- Forecast range helpers are not modelled: `forecast`/`forecastRange` and `precipForecast`/`precipForecastRange` are fetch-and-assemble wrappers.
- Formatting functions are not modelled: `formatEnsembleAnalysis` and `formatPrecipRec` only render text.
- Flight model: `predictTotalDelays` (a normal-CDF tail) is not modelled. The closure and delay flags that `predictDelayProbability` reads from the FAA page scrape arrive as booleans.
- Ordering.SortDesc: does not state that equal keys keep their input order. JavaScript's `Array.prototype.sort` is stable, and this insertion sort is too, but the contract states only descending order and a permutation. RankRecommendations, RunFlightStrategy, RunCryptoStrategy and ScoreGasMarkets inherit this weaker statement.
- LegacySizing.LegacyPositionSize: a zero price with an edge is excluded. The root module then divides by zero and reports Infinity contracts, which a real number cannot hold. A zero or negative price without an edge is covered and gives the empty sizing.
- Sizing.PositionSize: at a zero price and a zero budget the source's count and dollar risk are NaN (0 / 0). The model buys one contract there. Like NaN, that passes every `contracts <= 0` test downstream, but the count itself is not the source's.
- Text.ToUpper: ASCII only. JavaScript maps some other characters to several characters ('ß' to "SS") or onto ASCII ('ſ' to 'S'). Every string the core upper-cases (station arguments and the station table's series names) is taken to be ASCII.
- Text.ToLower: ASCII only, for the same reason. The core lower-cases only order sides ("YES", "NO").
- Ledger.Assign: an update or metadata record carries every trade field except `timestamp`, `strategy`, `settledAt` and `actualHigh`, plus further numeric keys. In the source the object spread and `Object.assign` could also overwrite `timestamp`, `strategy`, `settledAt` or `actualHigh`; no caller in the core passes those keys.
- Ledger.LedgerBook: the class keeps the ledger in memory. A save that fails part-way and the resulting divergence between memory and disk are not modelled.

## Findings

| source | as written | input that shows it | evidently intended | confidence | as-written member | corrected member |
|---|---|---|---|---|---|---|
| lib/weather/forecast.js:150-154 | the climatological-outlier branch builds its reason from `normalHigh`, a name not defined in `buildConsensus`, so reaching the branch throws a ReferenceError instead of returning a non-tradeable consensus | two sources both forecasting 60°F for a station whose January normal high is 30°F, so the 30° deviation exceeds the 15° outlier limit | the branch marks the consensus not tradeable, with the climatological normal in its reason and a CLIM_OUTLIER warning | not executed | WeatherForecast.ConsensusAsWrittenFrom (counterexample lemma WeatherForecast.NormalHighReferenceError) | WeatherForecast.BuildConsensus, with the refusal proved in WeatherForecast.OutlierRefused |
