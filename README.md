# KapManiak in Dafny

This project models the decision core of KapManiak. KapManiak is a paper-trading rotation bot: each cycle it scores a universe of coins on weighted 15-minute, 1-hour and 4-hour momentum. It holds the single best asset, or USDT, and rotates through USDT only when these gates allow it:

- fresh data;
- a confirmed leader;
- no active minimum hold or cooldown;
- room under the daily switch limit;
- an edge and a net edge (after two legs of fees, slippage and spread) above their thresholds.

The project also models three other parts of the repository:

- the older stand-alone scripts at the repository root (price feed, score table, switch rule, paper portfolio, universe selection and run report);
- the L2 trade calculator;
- the calculator's settings persistence.

One Dafny module corresponds to one source file:

| module | file | source |
|---|---|---|
| `Common` | common.dfy | shared `Option`/`Result`, basis-point and percent conversions, the `<asset>USDT` symbol, and a stable descending insertion sort (Python's `sorted(..., reverse=True)`) |
| `Config` | config.dfy | config.py |
| `Cost` | cost_model.dfy | engine/cost_model.py |
| `Scoring` | scoring.dfy | engine/scoring.py |
| `Broker` | paper_broker.dfy | engine/paper_broker.py |
| `Decision` | decision_engine.dfy | engine/decision_engine.py |
| `LegacyData` | legacy_data.dfy | data_provider.py |
| `LegacyScores` | legacy_scores.dfy | score_engine.py |
| `LegacyDecision` | legacy_decision.dfy | decision_engine.py |
| `LegacyPortfolio` | legacy_portfolio.dfy | paper_portfolio.py |
| `Universe` | universe.dfy | universe.py |
| `Reporting` | reporting.dfy | reporting.py |
| `Calc` | calc.dfy | src/core/calc.py |
| `GoodsStorage` | goods_storage.dfy | src/services/storage.py |

Objects that the source updates in place are Dafny classes. Each has `modifies` clauses and is proved against a pure function of its old state:

- `PriceHistory`, `ScoringEngine`, `PaperBroker` and `DecisionEngine` in the engine;
- `PriceHistory` and `DataProvider` in the root feed;
- `PaperPortfolio`;
- the settings `Storage` and the goods rows.

The remaining code is functions and lemmas.

Modelling conventions:

- A Python `float` is a `real`.
- A NaN, or a `None` figure, is an `Option` that is `None`.
- An exception the code can raise is an error value. Examples are `ZeroDivisionError`, `KeyError` on a missing price or dict key, and a failed HTTP request.
- Times are `real` seconds.
- Wall-clock readings and the calendar day of a timestamp are parameters.

### Where the code and its configuration disagree

The root scripts import `DEFAULT_CONFIG` from config.py and read fields that `AppConfig` does not define: `edge_threshold`, `net_edge_min`, `cost_pct`, `min_quote_volume` and `universe_size`. config.py defines neither `DEFAULT_CONFIG` nor those fields. The model follows the code of each function and takes those five values as parameters.

## Model

| member | source | states |
|---|---|---|
| Config.AppConfig.Symbols | config.py:55-57 | one symbol per universe asset, in order, each the asset followed by "USDT" |
| Config.DefaultWindowsAndWeights | config.py:43-48 | the default windows are 900, 3600 and 14400 s; the weights sum to 1 and decrease from the short window to the long one |
| Config.DefaultGates | config.py:11-42 | the default gates: 0.5 % edge, 3 confirmations, 900 s hold, 120 s cooldown (shorter than the hold), 12 switches a day, 30 s staleness, the net-edge gate on at 0.25 %, 10000 USDT and 20 assets |
| Config.DefaultSymbols | config.py:13-36 | the default universe gives 20 symbols, from BTCUSDT to NEARUSDT |
| Cost.CostModel.PerTradeBps | engine/cost_model.py:12-14 | one leg costs no less than each of its non-negative components |
| Cost.CostModel.SwitchCostBps | engine/cost_model.py:16-17 | a rotation costs exactly two legs, and so never less than one |
| Cost.FromConfig | engine/cost_model.py:6-10 | the per-leg cost of a configuration is fee + slippage + spread buffer |
| Cost.DefaultCosts | engine/cost_model.py:12-17 | with the defaults a leg costs 14.5 bps and a rotation 29 bps, i.e. 0.0029 |
| Scoring.ScoreSettings.MaxAge | engine/scoring.py:86 | the age bound is the longest window plus 300 s: at least each window + 300 and equal to one of them |
| Scoring.Trimmed | engine/scoring.py:36-38 | trimming stops at the first entry within the age bound and every dropped entry is too old |
| Scoring.TrimmedIsSuffix | engine/scoring.py:36-38 | trimming only drops from the front: what is kept is a suffix of the history |
| Scoring.TrimmedWithinAge | engine/scoring.py:36-38 | on a chronological history every entry kept is within the age bound |
| Scoring.AddedKeepsNewest | engine/scoring.py:32-34 | after `add` the new observation is last and the rest is a suffix of the old history; on a chronological history nothing older than the age bound remains |
| Scoring.AddedChronological | engine/scoring.py:32-34 | adding an observation no older than the newest keeps the history chronological |
| Scoring.LatestAtOrBefore | engine/scoring.py:40-46 | the index found is the last entry at or before the time; none exactly when every entry is later |
| Scoring.PriceAtOrBefore | engine/scoring.py:40-46 | the price of the latest entry at or before the time; none exactly when all entries are later |
| Scoring.WindowReturn | engine/scoring.py:53-57 | a window return exists exactly when a positive past price exists, and (1 + r) * past == current |
| Scoring.Returns | engine/scoring.py:48-63 | an empty history has no returns; otherwise each window's return over its own length |
| Scoring.Score | engine/scoring.py:120-126 | a score exists exactly when all three returns do, and is their weighted sum |
| Scoring.ShortHistoryHasNoScore | engine/scoring.py:53-57 | an asset with no entry older than the shortest window has no score |
| Scoring.UpdatedHistories | engine/scoring.py:98-104 | updating prices keeps the set of tracked assets |
| Scoring.UpdatedHistoriesStep | engine/scoring.py:98-104 | one more listed asset adds its price to its own history and to no other |
| Scoring.EmptyHistoriesOf | engine/scoring.py:77-89 | exactly the listed assets are tracked, each with an empty history |
| Scoring.ScoreRows | engine/scoring.py:106-136 | one row per tracked asset, in list order, scored from its own history |
| Scoring.PriceHistory.Add | engine/scoring.py:32-34 | the history becomes the old one with the observation appended, then trimmed |
| Scoring.PriceHistory.Trim | engine/scoring.py:36-38 | the history becomes the trimmed old history |
| Scoring.ScoringEngine.constructor | engine/scoring.py:69-89 | a fresh engine tracks exactly the given assets, each with its own empty history |
| Scoring.ScoringEngine.UpdateAssets | engine/scoring.py:91-96 | the same asset set keeps every history; a different set starts every listed asset afresh |
| Scoring.ScoringEngine.UpdatePrices | engine/scoring.py:98-104 | the histories become `UpdatedHistories` of the old ones; the tracked assets and objects stay |
| Scoring.ScoringEngine.AddPrice | engine/scoring.py:100-104 | one loop pass changes only that asset's history |
| Scoring.ScoringEngine.Scores | engine/scoring.py:106-136 | the rows are `ScoreRows` of the current histories |
| Broker.NetOfCost | engine/paper_broker.py:46-59 | a leg with a cost between 0 and 10000 bps keeps between 0 and all of the amount |
| Broker.Equity | engine/paper_broker.py:32-39 | USDT counts at face value, an asset at quantity times price, and an unpriced asset at 0 |
| Broker.Parked | engine/paper_broker.py:41-50 | parking sells a priced asset into USDT net of one leg; otherwise nothing changes; exclusivity is kept |
| Broker.Bought | engine/paper_broker.py:52-61 | from USDT, buying spends all cash on a positively priced asset net of one leg; at a price of zero or below the cash is lost for a zero position; without a price or outside USDT nothing changes |
| Broker.Switched | engine/paper_broker.py:63-68 | after a switch the position is the old asset, USDT or the target, and stays exclusive |
| Broker.SwitchIdempotent | engine/paper_broker.py:63-68 | repeating a switch that reached its target changes nothing |
| Broker.SwitchStrandedInCash | engine/paper_broker.py:63-68 | when the target has no price, the switch ends in USDT holding the parked value |
| Broker.SwitchPaysTwoLegs | engine/paper_broker.py:63-68 | a rotation between two assets at fixed prices keeps equity times (1 - c) twice |
| Broker.SwitchFromCashPaysOneLeg | engine/paper_broker.py:63-68 | starting in USDT only the buy leg is paid |
| Broker.BuyScenario | engine/paper_broker.py:52-61 | 10000 USDT at price 100 with a 14.5 bps leg buys 99.855 units |
| Broker.PaperBroker.constructor | engine/paper_broker.py:17-18 | a new broker holds the starting balance in USDT |
| Broker.PaperBroker.EquityUsdt | engine/paper_broker.py:32-39 | the broker's equity is `Equity` of its holdings |
| Broker.PaperBroker.ParkUsdt | engine/paper_broker.py:41-50 | the holdings become `Parked` of the old holdings |
| Broker.PaperBroker.BuyAsset | engine/paper_broker.py:52-61 | the holdings become `Bought` of the old holdings |
| Broker.PaperBroker.SwitchAsset | engine/paper_broker.py:63-68 | the holdings become `Switched` of the old holdings |
| Decision.Available | engine/decision_engine.py:126 | the available rows are exactly the scored, non-blacklisted rows |
| Decision.Leader | engine/decision_engine.py:126-129 | no leader exactly when no row is eligible; otherwise an eligible row that no eligible row outranks by `score or -999` |
| Decision.LeaderIsFirstBest | engine/decision_engine.py:126-129 | the stable sort breaks ties by position: every eligible row before the leader ranks strictly lower |
| Common.SortDescHeadIsFirstMax | engine/decision_engine.py:128 | the stable sort largest-first puts first the earliest element with the largest key |
| Decision.ZeroScoreLosesToNegative | engine/decision_engine.py:127 | because of `score or -999`, a score of exactly 0.0 loses to -0.5 |
| Decision.FirstRowOf | engine/decision_engine.py:134 | the first row of the held asset; none exactly when no row has it |
| Decision.EdgePct | engine/decision_engine.py:137-140 | an edge exists exactly when the leader has a score; edge + (current score or 0) == leader score |
| Decision.NextStreak | engine/decision_engine.py:251-256 | the same truthy leader adds one, a new truthy leader restarts at 1, and no leader gives 0 |
| Decision.StreakIsTrailingRun | engine/decision_engine.py:251-256 | after any run of cycles the count is the length of the final run of one truthy leader, else 0 |
| Decision.ResetDaily | engine/decision_engine.py:258-262 | a new calendar day restarts the count at 0; the same day keeps it |
| Decision.TimingReasons | engine/decision_engine.py:161-167 | each active timing gate gives its reason, and only those, once each and in the order min-hold, cooldown, daily limit; no reason exactly when switching is allowed |
| Decision.Gate | engine/decision_engine.py:147-178 | stale data is SAFE/DATA_STALE/DEGRADED; no leader is SAFE/ERROR; a timing hold lists the timing reasons; otherwise the single reason is the first that applies of edge too small, net edge too small, confirming; READY (no reasons, SWITCH) exactly when every gate passes |
| Decision.DefaultNetEdgeGate | engine/decision_engine.py:142-173 | with the default settings a 0.5 % edge passes the edge gate but, after the 29 bps round trip, holds with HOLD_NET_EDGE_TOO_SMALL alone |
| Decision.Leaderboard | engine/decision_engine.py:215-244 | one line per score row, ranked from 1 in `score or -999` order; edge present iff score; net = edge - cost; leader mark iff last leader |
| Decision.ShownRows | engine/decision_engine.py:227-242 | the score rows a leaderboard shows, line by line |
| Decision.LeaderboardIsRanking | engine/decision_engine.py:217-219 | the leaderboard shows every score row exactly once, best first |
| Decision.SwitchedState | engine/decision_engine.py:280-301 | a switch rotates the holdings, starts the min-hold and cooldown, counts the switch, and logs it with the new equity; nothing else changes |
| Decision.SwitchPassesEveryGate | engine/decision_engine.py:118-183 | a cycle switches only with fresh data, an unbeaten eligible leader that is not held, a confirmed streak, no timer, room under the limit and both edges above threshold |
| Decision.HoldKeepsPosition | engine/decision_engine.py:147-183 | a cycle that does not switch keeps holdings, switch log and timers, and gives a reason unless READY |
| Decision.StaleCycleIsSafe | engine/decision_engine.py:152-155 | stale data gives SAFE, DATA_STALE and DEGRADED, and trades nothing |
| Decision.EquityRecordedEachCycle | engine/decision_engine.py:185-186 | every cycle records its time and one equity point, the equity after any switch |
| Decision.DailyLimitKept | engine/decision_engine.py:160-167 | the daily switch count never exceeds a non-negative limit |
| Decision.CycleKeepsExclusive | engine/decision_engine.py:180-183 | a cycle keeps the position all-cash or all-asset |
| Decision.SwitchStartsTimers | engine/decision_engine.py:289-290 | a switching cycle starts the min-hold at the switch time and the cooldown that long after |
| Decision.TimersHold | engine/decision_engine.py:161-167 | while the min-hold or the cooldown runs, a cycle holds |
| Decision.NoSwitchDuringCooldownOrMinHold | engine/decision_engine.py:267-290 | after a switch, no cycle within the cooldown or the minimum hold switches again |
| Decision.DecisionEngine.constructor | engine/decision_engine.py:53-86 | a new engine holds the starting balance in USDT, has an empty streak, no timers and no blacklist, and tracks the configured universe |
| Decision.DecisionEngine.UpdateConfig | engine/decision_engine.py:92-108 | new settings, cost model and empty scoring engine; holdings, timers, streak and blacklist stay |
| Decision.DecisionEngine.BlacklistAsset | engine/decision_engine.py:110-113 | a truthy asset joins the blacklist; nothing else changes |
| Decision.DecisionEngine.ParkToUsdt | engine/decision_engine.py:311-313 | the holdings become `Parked` at one leg's cost; nothing else changes |
| Decision.DecisionEngine.CurrentEquity | engine/decision_engine.py:315-316 | the equity of the holdings at the given prices |
| Decision.DecisionEngine.UpdateConfirmation | engine/decision_engine.py:251-256 | the streak becomes `NextStreak` of the old streak |
| Decision.DecisionEngine.ResetDailySwitchCount | engine/decision_engine.py:258-262 | the day counter becomes `ResetDaily` of the old one |
| Decision.DecisionEngine.ExecuteSwitch | engine/decision_engine.py:280-301 | the state becomes `SwitchedState` of the old state |
| Decision.DecisionEngine.BuildLeaderboard | engine/decision_engine.py:215-244 | the loop builds exactly `Leaderboard` |
| Decision.LeaderboardLine | engine/decision_engine.py:221-243 | one loop pass gives exactly the row `LeaderboardRowOf` describes |
| Decision.DecisionEngine.ProcessPrices | engine/decision_engine.py:118-213 | the scoring engine follows the universe and records the prices; then state and snapshot are one `Cycle` on its rows |
| Decision.DecisionEngine.RefreshScores | engine/decision_engine.py:122-125 | the scoring part of a cycle, leaving the decision state alone |
| Decision.DecisionEngine.Decide | engine/decision_engine.py:126-213 | the deciding part of a cycle keeps the scoring engine and gives one `Cycle` |
| Decision.DecisionEngine.ApplyCycle | engine/decision_engine.py:126-213 | the new state and snapshot are one `Cycle` of the old state |
| LegacyData.AppendedKeepsNewest | data_provider.py:16-19 | `append` keeps at most `maxlen` points: the new one last, after the newest old ones |
| LegacyData.LatestAtOrBeforeFindsLast | data_provider.py:22-24 | the reverse scan finds the last point at or before the target; none exactly when all are later |
| LegacyData.PriceAtAnswers | data_provider.py:21-27 | a non-empty history always answers: the latest price at or before the target, else the oldest |
| LegacyData.PriceDeltaFromHistory | data_provider.py:77-86 | the fallback is used only for an empty history; otherwise the price is one the history holds |
| LegacyData.UpdatedPointsUntouched | data_provider.py:65-74 | a symbol the batch does not list keeps its points |
| LegacyData.SnapshotEntries | data_provider.py:65-75 | entry i belongs to fetched symbol i: its price now, with lookbacks drawn from its extended history |
| LegacyData.DictSet | data_provider.py:51 | `prices[symbol] = value` updates an existing key in place, appends a new one, and keeps keys distinct |
| LegacyData.FetchPrices | data_provider.py:41-54 | the fetched dict has exactly the asked-for symbols whose price `float` accepts, each once |
| LegacyData.LastItemWins | data_provider.py:47-51 | when the payload ends with an item quoting an asked-for symbol, that price is the symbol's fetched price |
| LegacyData.EntryUsesHistory | data_provider.py:69-74 | a snapshot entry never uses the fallback: each lookback comes from the history |
| LegacyData.FirstSightIsFlat | data_provider.py:21-27 | a symbol seen for the first time has all three lookbacks equal to its price |
| LegacyData.FirstSightScoresZero | data_provider.py:67-74 | scored on its first snapshot a symbol gets 0 returns and score 0, or a division error at price 0 |
| LegacyData.LoneLaterPoint | data_provider.py:25-26 | a single point later than the target is still returned |
| LegacyData.PriceHistory.Append | data_provider.py:16-19 | the points become `Appended` of the old points |
| LegacyData.DataProvider.constructor | data_provider.py:30-34 | a new provider tracks no symbol and its connection flag is set |
| LegacyData.DataProvider.HistoryFor | data_provider.py:67 | `setdefault` returns the symbol's history, created empty when missing |
| LegacyData.DataProvider.AppendTo | data_provider.py:68 | only that symbol's points change, by `Appended` |
| LegacyData.DataProvider.Update | data_provider.py:56-75 | a failed request clears the flag and gives {}; else the flag is set, points extended and the snapshot built |
| LegacyData.DataProvider.RecordAll | data_provider.py:65-75 | the loop leaves `UpdatedPoints` and returns `Snapshot` |
| LegacyData.DataProvider.RecordNext | data_provider.py:66-74 | one loop pass extends one more symbol and builds its entry |
| LegacyData.UpdatedPointsNext | data_provider.py:65-74 | with distinct symbols, one more price extends only its own symbol, whose history was untouched before |
| LegacyScores.RecordOf | score_engine.py:23-48 | full returns and the 0.5/0.3/0.2 score when all lookbacks exist, NaN otherwise; a zero lookback raises |
| LegacyScores.Records | score_engine.py:22-48 | one record per entry in order, or the error of the first entry that raises |
| LegacyScores.Scored | score_engine.py:51 | the scored rows, and nothing else |
| LegacyScores.Unscored | score_engine.py:51 | the NaN rows, and nothing else |
| LegacyScores.SplitIsPermutation | score_engine.py:51 | scored and NaN rows together are exactly the rows |
| LegacyScores.RankTableIsRanking | score_engine.py:51-52 | the sort is a permutation with scores descending and NaN rows last |
| LegacyScores.ComputeScores | score_engine.py:9-53 | the empty snapshot gives the empty table; otherwise the loop gives the records, ranked |
| LegacyScores.ScoreEntry | score_engine.py:23-48 | one loop pass gives exactly the record or error `RecordOf` describes |
| LegacyScores.ScoreTableIsRanked | score_engine.py:9-53 | a successful table has one row per entry, ranked with NaN last |
| LegacyScores.FirstScoreOf | score_engine.py:58-59 | the score of the first row of the asset; none exactly when the asset is absent |
| LegacyScores.ApplyCosts | score_engine.py:63-67 | a copy with the same rows, each with the configured cost |
| LegacyScores.CostsMeasureAgainstHeldAsset | score_engine.py:56-67 | edges exist iff scores do; net = edge - cost; the held asset's edge is 0; absent it, edge = score |
| LegacyScores.CostsKeepRanking | score_engine.py:64-66 | on a ranked table the net edges descend as well |
| LegacyDecision.Decide | decision_engine.py:14-26 | READY_TO_SWITCH with no reasons iff leader differs and both edges reach threshold; else HOLD with every failing reason, in test order |
| LegacyPortfolio.PriceFor | paper_portfolio.py:83-89 | USDT is worth 1; another asset has its price, or a KeyError when it is missing |
| LegacyPortfolio.ValueOf | paper_portfolio.py:22-26 | USDT at face value; an asset at quantity times price, or a KeyError |
| LegacyPortfolio.NoopAndErrorsKeepHolding | paper_portfolio.py:35-44 | switching to the held asset is a NOOP that costs nothing; a failed switch changes nothing |
| LegacyPortfolio.SwitchFailsOnlyOnPrices | paper_portfolio.py:48-61 | a switch fails exactly when the held asset or the target lacks a price, or the target's price is 0 |
| LegacyPortfolio.SwitchConservesValue | paper_portfolio.py:46-77 | a switch ends in the target worth the value after two legs; cost booked, count and stamp updated; value + cost == value before |
| LegacyPortfolio.SwitchCostBounded | paper_portfolio.py:49-63 | with a cost in [0, 10000] bps the cost paid lies between 0 and the value |
| LegacyPortfolio.PaperPortfolio.FromStart | paper_portfolio.py:17-20 | all in USDT, or an empty position in another asset |
| LegacyPortfolio.PaperPortfolio.ValueInUsdt | paper_portfolio.py:22-26 | the value is `ValueOf` of the fields |
| LegacyPortfolio.PaperPortfolio.SimulateSwitchViaUsdt | paper_portfolio.py:28-77 | fields and report are `SwitchOutcome` of the old fields at the given or clock time |
| LegacyPortfolio.PaperPortfolio.UpdateEquity | paper_portfolio.py:79-81 | equity becomes the value; a missing price raises and changes nothing |
| Universe.BaseOfPair | universe.py:41 | stripping "USDT" from a pair strips it from the base only |
| Universe.Candidate | universe.py:37-50 | an item is kept iff it is a USDT pair with a non-stablecoin base and a parseable volume at least the minimum |
| Universe.Candidates | universe.py:36-50 | every kept entry is admitted and comes from the payload |
| Universe.CandidatesKeepPassingItems | universe.py:36-50 | every item that passes the filter is kept |
| Universe.PyTake | universe.py:52 | Python's `s[:n]` for any integer n, negative included |
| Universe.SymbolsOf | universe.py:52 | the symbols of the entries, in order |
| Universe.RankedIsFilteredAndOrdered | universe.py:51-52 | the result is a prefix of the admitted candidates sorted by quote volume, largest first |
| Universe.DefaultUniverse | universe.py:60-73 | ten fixed USDT pairs |
| Universe.GetUniverse | universe.py:54-58 | a failed request gives the default list; otherwise the ranked payload; every symbol ends with USDT |
| Universe.FetchUniverse | universe.py:31-52 | the loop, sort and slice give exactly `Ranked` |
| Universe.Upper | universe.py:77 | upper-cases every character and keeps the length |
| Universe.NormalizeSymbols | universe.py:76-77 | every symbol upper-cased, same count and order |
| Universe.NormalizeIdempotent | universe.py:76-77 | normalising twice is normalising once, and the result has no lower-case letter |
| Reporting.PnlAddsUp | reporting.py:22-28 | end = start + pnl; with a non-zero start pct * start == pnl * 100; otherwise pct 0 |
| Reporting.PeakIsMax | reporting.py:35-40 | the running peak is the largest equity so far, and is attained |
| Reporting.MaxDrawdownIsWorst | reporting.py:33-43 | the maximum drawdown is <= 0, no more than any row's drawdown, attained or 0; the pct is its negation * 100 |
| Reporting.PositiveEquityDrawdownBelowHundred | reporting.py:33-43 | with all equity positive the drawdown pct lies in [0, 100) |
| Reporting.DrawdownRange | reporting.py:41 | a drawdown below a positive peak lies in (-1, 0] |
| Reporting.ComputeMaxDrawdownPct | reporting.py:33-43 | the loop gives exactly `MaxDrawdownPct` |
| Reporting.AveragesIgnoreOtherDecisions | reporting.py:45-47 | a row of any other decision, inserted anywhere, does not change the READY rows the averages read |
| Reporting.MeanWithinRange | reporting.py:46-47 | a mean of present values lies between their bounds |
| Reporting.TallyCountsHoldReasons | reporting.py:49-57 | the counter holds each reason once and counts it as often as HOLD rows give it |
| Reporting.TopReasonsAreMostCommon | reporting.py:59 | exactly min(5, number of distinct reasons) entries, drawn from the tally, each with its true count, largest first; one left out is no more frequent than any kept |
| Reporting.MostCommonDrawsFromCounter | reporting.py:59 | `most_common(n)` keeps n items, or all when fewer were counted, all taken from the counter |
| Reporting.MostCommonKeepsLargest | reporting.py:59 | `most_common(n)` lists largest count first, and an item it leaves out is counted no more often than any it keeps |
| Reporting.TallyHoldReasons | reporting.py:49-57 | the loop gives exactly `Tally` |
| Reporting.ComputeSummary | reporting.py:17-72 | the summary is `SummaryOf` the three tables |
| Calc.SafeDiv | src/core/calc.py:42-45 | no quotient exactly when the denominator is missing or zero |
| Calc.SummaryFieldsPresent | src/core/calc.py:48-76 | which figures exist for which inputs, and profit = sale after fee - donation |
| Calc.AdenaUndone | src/core/calc.py:114 | coins and adena convert back and forth without loss |
| Calc.RubUndone | src/core/calc.py:113 | adena and buyer roubles convert back and forth at a non-zero price |
| Calc.FeeUndone | src/core/calc.py:112 | taking a fee below 100 % and adding it back cancel |
| Calc.UsdtUndone | src/core/calc.py:111 | roubles and USDT convert back and forth at a non-zero rate |
| Calc.ForwardChain | src/core/calc.py:79-102 | each figure follows from the one before, and profit is sale minus cost in each currency |
| Calc.InverseNetsTarget | src/core/calc.py:105-116 | asking for a net USDT amount gives an item that nets exactly that amount |
| Calc.ForwardThenInverse | src/core/calc.py:79-116 | feeding an item's net USDT back gives the same item |
| Calc.SummaryMatchesForward | src/core/calc.py:48-102 | with coins and non-zero rates the summary agrees with the item calculation |
| Calc.SerializeFields | src/core/calc.py:119-129 | the written dict has exactly the eight keys, each holding its field |
| Calc.FirstMissing | src/core/calc.py:132-142 | the first field name the dict lacks, every earlier one present; none exactly when all are present |
| Calc.SerializeRoundTrip | src/core/calc.py:119-142 | reading back a written item gives the item |
| Calc.DeserializeRoundTrip | src/core/calc.py:119-142 | a dict with exactly the eight keys reads and writes back to itself |
| Calc.ReadFields | src/core/calc.py:132-142 | a dict with exactly the eight keys reads without error, each field taken from its own key |
| Calc.DeserializeFails | src/core/calc.py:132-142 | reading fails exactly when a field is missing, and the error names the first missing field in field order |
| GoodsStorage.GetFloat | src/services/storage.py:59-66 | a missing key or unparsable text gives the fallback; a stored number gives itself; text that parses gives its decimal value |
| GoodsStorage.ParseDecimalFraction | src/services/storage.py:63-64 | "0.15" reads as 0.15 |
| GoodsStorage.ParseDecimalBareFraction | src/services/storage.py:63-64 | ".5" reads as 0.5 |
| GoodsStorage.ParseDecimalSignsAndRejects | src/services/storage.py:63-66 | "-12" reads as -12; "-" is rejected, and so is "1e3", an exponent form outside the model (see Left out) |
| GoodsStorage.SavedAt | src/services/storage.py:33-38 | after saving, an unnamed key is untouched; a named key is removed if empty, else set |
| GoodsStorage.SaveThenLoad | src/services/storage.py:20-38 | saving then loading returns the parameters, with an empty coin count read back as 1000 |
| GoodsStorage.LoadDefaults | src/services/storage.py:20-31 | with nothing stored the fees are 0.15 and 0.21, coins 1000, and the rates empty |
| GoodsStorage.Storage.LoadParams | src/services/storage.py:20-31 | the parameters are `ParamsFrom` of the settings |
| GoodsStorage.Storage.SaveParams | src/services/storage.py:33-38 | the settings become `Saved` of the old settings with the parameter items |
| GoodsStorage.Storage.SaveRate | src/services/storage.py:55-57 | stores the rate and its timestamp text; nothing else changes |
| GoodsStorage.HydrateIdempotent | src/services/storage.py:69-76 | hydrating a hydrated row changes nothing |
| GoodsStorage.HydrateAfterSerialize | src/services/storage.py:69-96 | hydrating a serialised row gives it back, unless its calc was already a dict |
| GoodsStorage.SerializeAfterHydrate | src/services/storage.py:69-96 | serialising a hydrated row gives back a row with an eight-key dict calc, or none |
| GoodsStorage.HydrateGoods | src/services/storage.py:69-76 | every row hydrated in place and the same rows returned, or the KeyError of the first failing row |
| GoodsStorage.SerializeRow | src/services/storage.py:82-95 | an item row becomes a fresh copy with its dict form; any other row is passed through |
| GoodsStorage.SerializeGoods | src/services/storage.py:79-96 | a new list of the same length, row i being the serialised form of row i |

## Left out

- LegacyScores.ComputeScores: a snapshot entry always carries its four lookback keys, so the `KeyError` that indexing a missing key would raise, and the `TypeError` of a complete history with no current price, cannot arise in the model; the data provider always fills all four.
- Network, storage and interface code. The model leaves out:
  - the HTTP calls to the exchange: `fetch_prices` in engine/decision_engine.py, the HTTP half of data_provider.py's `fetch_prices`, and universe.py's `fetch_universe`;
  - the SQLite tables (engine/storage.py, `log_startup_history`, `_load_table`) and the report export (`export_report` in reporting.py);
  - the logger and the Qt user interface.

  A fetch is given as its decoded payload, or as None for a `RequestException`. The equity and switch logs of the engine are sequences on the engine object.
- JSON files: `load_goods` and `save_goods` in src/services/storage.py read and write a JSON file. Only the in-memory rows are modelled, through `hydrate_goods` and `serialize_goods`.
- `load_rate_timestamp`: returns the stored timestamp text unchanged. Text is not modelled beyond that.
- Floating point: a Python `float` is an exact real. Rounding, overflow, infinities and NaN inputs are not modelled. A NaN result is `None`.
- Clock and calendar: `time.time()`, `datetime.utcnow()` and `date.fromtimestamp` are parameters (`clock`, `now`, `today`). Time zones are not modelled.
- GoodsStorage.GetFloat: parses text as an optional sign, digits and an optional fraction. Python's `float` also accepts exponents, underscores, "inf", "nan" and surrounding whitespace (`float(" 1.5 ")` is 1.5); for such text the model gives the fallback.
- LegacyScores.RankTableIsRanking: pandas does not promise an order among equal scores (its default sort is not stable). The contract states only the descending order and the permutation.
- Universe.RankedIsFilteredAndOrdered: the model sorts stably by volume, as Python's `list.sort` does.
- Reporting.TopReasonsAreMostCommon: `Counter.most_common` orders equal counts by first insertion. The model sorts stably over insertion order, and the contract states only the descending counts.
- Reporting: a `reasons_json` cell that parses to something other than a list of strings is treated like a malformed cell (no reasons). Python would count a JSON string character by character, add a JSON object's values as counts under its keys, do nothing for `null`, and raise TypeError on a number, `true` or `false`.
- Universe.Upper: upper-cases ASCII letters only. Python's `str.upper` also maps other Unicode letters.
- Universe: a non-string `symbol` field, which would raise `AttributeError` in `endswith`, is not modelled. A missing symbol is "".
- LegacyData.PriceHistory: `maxlen` is a `nat`. With a negative `maxlen` the source's trim loop empties the deque and then raises IndexError on every append; that case is not modelled.
- Decision.Gate: `edge_threshold_pct / 100` and `net_edge_min_pct / 100` are exact divisions.
- Reporting.Mean: an average over READY rows whose every value is NaN is `None`. Python returns `float('nan')` there.
