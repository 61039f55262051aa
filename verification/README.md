# AURA: a verified model

AURA is a paper trading system for crypto futures. A worker polls an exchange, scores closed candles, opens and manages
paper positions for several accounts, and keeps everything in one SQLite file that survives crashes. Beside it stand a
replay engine (backtest), a walk-forward optimizer, a probability calibration and a web API with a response cache.

This project models the parts of AURA whose correctness spans functions, runs and crashes, and proves what they promise.
Prices, quantities and times are exact (`real`, `int`). Loops and objects that change in place are methods and classes;
each is proved against a function of its inputs or of the old state, and the laws are lemmas about those functions.

| file | what it models | main results |
|---|---|---|
| `risk.dfy`, `positions.dfy` | rounding, sizing, execution plans, the position life cycle | `SizeIsLargestAdmissible`, `RoundingSide`, `PlanIsSound` |
| `paper_ledger.dfy`, `paper_engine.dfy` | a paper account and its trades table | `LedgerOverPositions`, the class `PaperTradingEngine` |
| `paper_restart.dfy` | reloading an account from its rows at any point | `RestartIsInvisible`, `ClosedQtySurvives` |
| `indicators.dfy`, `wilder.dfy` | the indicator loops and the bounds of the Wilder indicators | `AdxBounded`, `DirectionalIndicators` |
| `scoring.dfy`, `zones.dfy`, `analysis.dfy` | the analysis pass over a candle series, its list of gap zones | `NoLookAhead`, `AcrossWarmup`, `UnfilledExactly` |
| `backtest.dfy`, `backtest_run.dfy`, `backtest_ledger.dfy`, `backtest_accounting.dfy` | the replay engine and the check of its accounting | `BacktestNoLookAhead`, `EveryStateIsSound`, `ReconcileExactly` |
| `parity.dfy` | paper engine against replay engine | `EngineParity` |
| `pava.dfy`, `calibration.dfy` | isotonic pooling, the calibrated curve, trade statistics | `PavaIsOptimal`, `CalibratorShape` |
| `walk_forward.dfy` | fold geometry and out-of-sample runs | `FoldsPartitionTail`, `ReportIsSeparated` |
| `transactions.dfy`, `migrations.dfy` | nested `with conn:` blocks on named savepoints, the migration runner | `NestedBlocksAreAtomic`, `LostExactly`, `MigrationIsPathIndependent` |
| `state_machine.dfy`, `worker_halt.dfy`, `worker_cycle.dfy` | the runner's states, commands, halts and restarts under crashes | `HaltSafety`, `RestartExactly` |
| `worker_bars.dfy`, `worker_bars_safety.dfy`, `worker_process.dfy` | closed bars and operator's commands under aborts, lost transactions and crashes | `BarsTakeEffectOnce`, `LossKeepsExactly`, `RowFailsExactly` |
| `worker_log.dfy`, `worker_loss.dfy` | the bar's block as commands on its connection, and a run that loses it | `BlockIsMachine`, `BarBlockLoses`, `LossHappens` |
| `worker.dfy` | the whole worker: commands, halts, bars and crashes with one log | `WorkerIsSafe`, `EntersOnlyRunning` |
| `market_cache.dfy` | the bounded LRU and TTL cache | `UnexpiredIsKept` |
| `market_data.dfy`, `market_updater.dfy` | liquidity policy, table writers, entry gate | `GateIsJustified`, `CycleFailsClosed` |
| `gaps.dfy` | gap detection, series validation, backfill chunks | `PlanCoversMissing` |

`wrappers.dfy` holds shared values. `dafny verify dfyconfig.toml` checks everything.

## What the code does not promise

Where a natural property is false of the code, the model keeps the code and says when the property holds:

- Directional rounding goes to the wrong side exactly for negative prices off the tick grid (`Risk.RoundingSide`).
- A reloaded closed position shows its initial quantity, so it is right exactly when the first target was never banked
  (`PaperRestart.ClosedQtySurvives`).
- The scores of a bar change when a series grows past the warm-up length, unless the bar lies before the short warm-up or all
  four of its votes are tied (`Analyzer.AcrossWarmup`, `Scoring.NeutralExactly`; `Analyzer.FlatSeriesChanges` names series
  that change). The directional index looks ahead at the last bar of a series of twice its period, unless the movements of
  that series are balanced (`Analyzer.AdxLooksAheadAtOneBar`, `Wilder.FirstAdxZeroExactly`).
- Of more than eight filled gap zones the list keeps the eight oldest and drops the newest (`Zones.TrimKeepsOldest`).
- `reconcile_accounting` is off by the fees of the first targets, which it counts twice, by negative fees, which it drops, and
  by the open trade, which it does not see (`BacktestAccounting.ReconcileDiscrepancy`; `ReconcileExactly` says when these cancel,
  `CheckFails` is a run where they do not).
- An error that makes SQLite roll back the whole transaction, when swallowed inside a block, lets later statements commit
  one by one (`Transactions.SwallowedAbortLeaks`). A transaction is lost unnoticed exactly if a handler inside a block catches
  such an error that is reached (`Transactions.LostExactly`); nests that are free of it are atomic.
- The decision log swallows such an error inside the worker's own block (`WorkerLog.BarBlockLoses`). A bar whose transaction is
  lost that way raises nothing and commits nothing (`WorkerLog.BlockIsMachine`), while memory and alerts go on: the invariant
  survives exactly if the bar queued no alert and left the snapshotted accounts alone (`WorkerBarsSafety.LossKeepsExactly`), and a
  stopped-out position is a bar where it does not (`WorkerBarsSafety.LostStopOut`), reached from a new database by the run of
  `WorkerLoss.LossHappens`.
- A COMMIT that fails without rolling back leaves the transaction open: nothing is committed or sent any more until the process
  dies (`WorkerBarsSafety.StuckUntilCrash`).
- A restart goes by the applied command with the latest time and, among equal times, the greatest id. So it loses a halt in
  force exactly if that command is a resume and the last state row does not say HALTED (`WorkerHalt.RestartExactly`), as after a
  halt and a resume in one millisecond (`WorkerHalt.TiedTimesLoseHalt`). With increasing times it never does
  (`WorkerHalt.DistinctTimesNeverForget`), but a crash right after a resume can halt again (`WorkerHalt.RestartKeepsHalt`).
- The worker's snapshot covers the master account only; after an aborted bar any other account's memory agrees with its rows
  exactly if the attempt had not touched it (`WorkerBarsSafety.AbortAgreesExactly`). The account in whose turn a row cannot be
  written counts as touched if that turn would have changed it (`WorkerBarsSafety.RowFailsExactly`).
- The entry gate does not look at a non-positive fetch time of a spec (`MarketUpdater.GateIsJustified`).
- Folds of ten bars are too short for the simulator (`WalkForward.TenBarFoldsTradeNothing`), and the entry-time filter of the
  out-of-sample trades never drops anything when the warm-ups agree (`WalkForward.FilterDropsNothing`).

## Model

| member | source | states |
|---|---|---|
| Risk.SizeIsLargestAdmissible | aura/core/risk.py:149-170 | for positive inputs the size is zero exactly when no number of steps fits the budget and all minimums, and otherwise the largest number that does |
| Risk.LeverageMovesOnlyMargin | aura/core/risk.py:155-170 | quantity, notional and risk of a size are the same for any two positive leverages |
| Risk.RoundedIsNear | aura/core/risk.py:186-187 | a rounded price is a multiple of the tick less than one tick away (half a tick for half-up), and a price on the grid stays |
| Risk.RoundingSide | aura/core/risk.py:186-187 | rounding down never raises and rounding up never lowers a price, if and only if the price is not negative or on the grid |
| Positions.PlanIsSound | aura/runner/paper_engine.py:283-431 | every accepted plan has tick-aligned, strictly ordered levels, the largest admissible size and a nominal loss within budget; a level is rounded away from the entry by less than a tick if and only if it is not negative or on the grid |
| Positions.PositiveFill | aura/runner/paper_engine.py:283-431 | an accepted plan has a positive fill, quantity and stop distance, the distance lies between fill and stop, and its risk is within budget |
| Positions.PlanTakesLargestSize | aura/runner/paper_engine.py:375-431 | no admissible size for the plan's budget, fill and stop is larger than the plan's |
| PaperLedger.OpenKeeps | aura/runner/paper_engine.py:462-522 | opening a planned position under a new id keeps memory and rows in step and the ledger law |
| PaperLedger.SettleKeeps | aura/runner/paper_engine.py:650-724 | booking a result on one live position, whether it stays live or closes, keeps memory and rows in step and the ledger law |
| PaperLedger.AfterBarIsLive | aura/runner/paper_engine.py:582-714 | a bar leaves a live position live (whole quantity, or half with the stop at entry) or closed, books exactly its result, and closes it exactly on an exit decision |
| PaperLedger.BarKeeps | aura/runner/paper_engine.py:566-648 | a bar update keeps memory and rows in step and the ledger law |
| PaperLedger.BarKeepsLive | aura/runner/paper_engine.py:566-648 | a bar update leaves one position per symbol and none closed among the open ones, whatever the rows say |
| PaperLedger.BarKeepsSymbols | aura/runner/paper_engine.py:566-648 | a bar leaves one position per symbol even when its row cannot be written |
| PaperLedger.CloseKeeps | aura/runner/worker.py:324-356 | a manual close at the entry price keeps memory and rows in step and the ledger law |
| PaperLedger.ResetKeeps | aura/runner/worker.py:358-375 | a reset leaves a consistent empty account with the starting equity |
| PaperLedger.LoadKeeps | aura/runner/paper_engine.py:115-231 | loading the rows of a consistent account gives a consistent account with the same positions open and closed and the same live positions |
| PaperLedger.LiveRowLoads | aura/runner/paper_engine.py:138-177 | round trip: the row written for a live position loads as that position |
| PaperLedger.ClosedRowSettles | aura/runner/paper_engine.py:188-228 | round trip: the row written for a closed position loads as that position up to its quantity and a closing time of zero |
| PaperLedger.LedgerOverPositions | aura/runner/paper_engine.py:508-510 | equity is the starting equity less the entry fee of every open and closed position plus everything realized on them |
| PaperLedger.SumPut | aura/runner/paper_engine.py:230-231 | the sum over a table changes by exactly the difference at the changed key, in whatever order it is added up |
| PaperEngine.PaperTradingEngine.constructor | aura/runner/paper_engine.py:99-113 | a new engine over a table is the account those rows load into |
| PaperEngine.PaperTradingEngine.LoadStateFromDb | aura/runner/paper_engine.py:115-231 | the account becomes the one its rows load into, and the rows stay |
| PaperEngine.PaperTradingEngine.LoadRows | aura/runner/paper_engine.py:118-228 | the loop over the rows rebuilds every position and adds up fees and results |
| PaperEngine.PaperTradingEngine.ExecutePlan | aura/runner/paper_engine.py:462-522 | the account takes the opening step, and a position is booked if and only if the plan is accepted, there is room and the symbol is free; when its row cannot be written the error escapes with equity and positions changed and the rows not |
| PaperEngine.PaperTradingEngine.OnBarUpdate | aura/runner/paper_engine.py:566-648 | the account takes the bar step, the closed positions are its exits, and a consistent account stays consistent; when the row of the symbol's position cannot be written the error escapes with the position changed in place, still among the open ones, and the rows not |
| PaperEngine.PaperTradingEngine.UpdatePosition | aura/runner/paper_engine.py:582-648 | one position takes its bar: fields and equity follow, and so does the row unless writing it raises |
| PaperEngine.PaperTradingEngine.ExecuteTp1Partial | aura/runner/paper_engine.py:650-681 | half is sold at the first target, the stop moves to the entry, and equity and row follow, the row unless writing it raises |
| PaperEngine.PaperTradingEngine.CloseFull | aura/runner/paper_engine.py:683-724 | the rest is sold, the result is booked and the row is closed, unless writing it raises |
| PaperEngine.PaperTradingEngine.CloseTrade | aura/runner/worker.py:324-356 | the account takes the manual close step if the trade is open, else nothing changes; when the row cannot be written everything is put back and the error escapes |
| PaperEngine.PaperTradingEngine.ResetAccount | aura/runner/worker.py:358-375 | the account takes the reset step |
| PaperEngine.HasWord | aura/runner/paper_engine.py:692 | finds a word in an exit reason if and only if it is there |
| PaperEngine.PaysTaker | aura/runner/paper_engine.py:691-694 | an exit pays the taker fee and slippage if and only if its reason is a stop, a timestop or a manual close that mentions one |
| PaperRestart.RestartIsInvisible | aura/runner/paper_engine.py:115-231 | for every run with reloads at any points, the openings and exits (quantities, prices, results, fees) and the final account equal those of the run without the reloads |
| PaperRestart.SameShows | aura/runner/paper_engine.py:115-231 | accounts over the same rows have the same equity, the same live positions in every persisted field and the same closed ones up to the closed quantity and a closing time of zero |
| PaperRestart.StepRespects | aura/runner/paper_engine.py:462-783 | accounts over the same rows take every action to the same rows with the same events |
| PaperRestart.RunKeeps | aura/runner/paper_engine.py:462-783 | every run keeps the ledger law and the shape of live positions |
| PaperRestart.ClosedQtySurvives | aura/runner/paper_engine.py:188-228 | a reload shows the right quantity of a closed position if and only if the first target was never banked |
| Indicators.EmaSeries | aura/core/indicators.py:21-33 | every value depends on the prefix up to its bar only and is that prefix's exponential average |
| Indicators.SmaSeries | aura/core/indicators.py:36-49 | the rolling sum equals the naive window mean at every bar |
| Indicators.RsiSeries | aura/core/indicators.py:52-80 | every value is the Wilder strength of the prefix up to its bar |
| Indicators.RsiOf | aura/core/indicators.py:71-79 | the strength index of non-negative averages lies in 0..100 |
| Indicators.AtrSeries | aura/core/indicators.py:83-103 | every value is the Wilder range of the prefix up to its bar |
| Indicators.AdxSeries | aura/core/indicators.py:112-162 | directional indicators and average index of every bar are those of its prefix; everything is zero in a series too short for one |
| Indicators.DirectionLines | aura/core/indicators.py:136-155 | both directional indicators and the directional index of every bar are those of its prefix |
| Indicators.MacdSeries | aura/core/indicators.py:172-182 | lines and histogram of every bar are those of its prefix |
| Indicators.StochRsiSeries | aura/core/indicators.py:185-198 | every value is that of its prefix |
| Indicators.SupertrendSeries | aura/core/indicators.py:207-261 | line and direction of every bar are those of its prefix |
| Indicators.ObvSeries | aura/core/indicators.py:264-281 | every value is that of its prefix |
| Indicators.VwapSeries | aura/core/indicators.py:284-316 | every value is the volume-weighted mean since the start of its UTC day |
| Indicators.CvdSeries | aura/core/indicators.py:326-346 | every value is that of its prefix |
| Wilder.MovementWithinRange | aura/core/indicators.py:126-134 | the directional movements of a bar are not negative and together at most its true range |
| Wilder.MovementBounded | aura/core/indicators.py:136-149 | the smoothed movements together never exceed the smoothed true range |
| Wilder.DirectionalIndicators | aura/core/indicators.py:141-153 | DI+ and DI- are percentages that add up to at most 100 |
| Wilder.DxBounded | aura/core/indicators.py:143-155 | the directional index lies in 0..100 |
| Wilder.AdxBounded | aura/core/indicators.py:157-160 | the average directional index lies in 0..100 at every bar |
| Wilder.FirstAdxZeroExactly | aura/core/indicators.py:136-160 | the first average index of proper bars is zero if and only if the first period moves up as much as down and no later bar moves either way |
| Wilder.BoundedAdxSeries | aura/core/indicators.py:112-162 | everything the loop writes obeys those bounds |
| Scoring.SwingPivots | aura/core/indicators.py:362-398 | finds exactly the pivots confirmed within the series, each at its confirmation bar |
| Scoring.PivotsOfPrefix | aura/core/indicators.py:362-398 | the pivots of a prefix are the pivots of the series confirmed inside it |
| Scoring.StructureIsWellFormed | aura/core/scoring.py:246-293 | after every bar the pools hold at most the newest eight pivots and the break ages stay between 0 and 99 |
| Scoring.ActiveGapIsOpen | aura/core/scoring.py:295-337 | an active fair value gap was opened by some bar, has positive width and has not been filled by any bar since |
| Scoring.FindEqualLevel | aura/core/scoring.py:355-379 | the double loop finds the level of the reference search |
| Scoring.EqualFromFinds | aura/core/scoring.py:355-379 | a level is found if and only if some pair of pool values is close enough on the right side of the close, and then it is that of a pair |
| Scoring.ScoresOf | aura/core/scoring.py:381-432 | total and all four parts lie in 0..100 |
| Scoring.NeutralExactly | aura/core/scoring.py:381-432 | a scored bar reads like an unscored one if and only if its trend, momentum, volume and structure votes are tied, each tie being a condition on the indicator values |
| Zones.AdvanceZones | aura/core/scoring.py:295-353 | the loops of one bar open, trim, age and fill the zones as the reference does |
| Zones.TrimZones | aura/core/scoring.py:339-344 | removing the surplus filled zones one by one, by equality, removes exactly the first ones of the list |
| Zones.ZonesAreTrue | aura/core/scoring.py:295-353 | every zone of the list was opened by the bar it names, its age, fill and end are those of the first later bar that reached through it, and the list is newest first |
| Zones.UnfilledExactly | aura/core/scoring.py:295-353 | the unfilled zones of the list are exactly the gaps that no later bar has filled |
| Zones.TrimKeepsOldest | aura/core/scoring.py:339-344 | of more than eight filled zones exactly the last eight of the list, the oldest, stay |
| Zones.FewAreKept | aura/core/scoring.py:339-353 | after every bar at most eight zones that were filled before it are in the list |
| Zones.TrackedGapHeads | aura/core/scoring.py:295-353 | the gap that the score uses is active if and only if the latest zone to open is unfilled, and it is that zone |
| Analyzer.ComputeInputs | aura/core/scoring.py:190-208 | every input of a bar is that of its prefix |
| Analyzer.AdvanceStructure | aura/core/scoring.py:246-293 | one pass of the pivot pointers gives the structure of the prefix |
| Analyzer.AnalyzeCandles | aura/core/scoring.py:135-506 | the single pass returns at every bar the inputs and the reading of its prefix, the zones of the series and the summary of its last bar, or fails exactly when a scored bar has no reference volume |
| Analyzer.NoLookAhead | aura/core/scoring.py:246-443 | two series that share their first m bars and lie on the same side of the warm-up length have the same readings below m |
| Analyzer.PrefixSucceeds | aura/core/scoring.py:135-443 | a successful analysis succeeds on every prefix on the same side of the warm-up length |
| Analyzer.AcrossWarmup | aura/core/scoring.py:381-432 | the warm-up length changes nothing but scores, and those if and only if the bar lies past the short warm-up and its votes are not all tied |
| Analyzer.AdxLooksAheadAtOneBar | aura/core/indicators.py:118-121 | the average directional index of a bar is that of its prefix if and only if the bar is not the last of a series of twice the period or that index is zero, which for proper bars means balanced movements |
| Analyzer.FlatSeriesChanges | aura/core/scoring.py:381-432 | every flat series past the short warm-up is scored differently on the two sides of the warm-up length |
| BacktestRun.ManageTrade | aura/backtest/engine.py:97-211 | the open trade leaves, is halved or stays as the reference decides |
| BacktestRun.OneBar | aura/backtest/engine.py:89-264 | one bar manages the trade, looks for an entry on the previous bar's signal and tracks the drawdown |
| BacktestRun.Run | aura/backtest/engine.py:59-280 | the loop's result is the reference run's |
| BacktestRun.TradesGrow | aura/backtest/engine.py:89-211 | later bars only append trades, and those leave at the later bars |
| BacktestRun.BacktestNoLookAhead | aura/backtest/engine.py:89-264 | the run on a prefix gives exactly the trades of the full run that closed inside the prefix, unchanged |
| BacktestLedger.EveryStateIsSound | aura/backtest/engine.py:117-236 | before every bar of every run, equity is the starting equity less all entry fees plus everything realized, the open trade's first target included, and an open trade is whole or halved with its stop at entry |
| BacktestAccounting.ExpectedEquity | aura/core/stats.py:287-311 | the accounting loop adds up gross results and counted fees |
| BacktestAccounting.ReconcileDiscrepancy | aura/core/stats.py:287-314 | for every run the expected equity is the simulator's less the fees of the first targets, plus the negative fees it drops, plus the open trade's entry fee less what its first target banked |
| BacktestAccounting.ReconcileExactly | aura/core/stats.py:287-314 | over positive prices with positive fees it is right if and only if no finished trade reached its first target when no trade is open, or the open trade's part equals the first-target fees; an open trade with no first target anywhere makes it too high |
| BacktestAccounting.CheckFails | aura/core/stats.py:287-314 | a run of four bars from entry over first target to stop ends with an expected equity that is short by the first target's fee |
| BacktestAccounting.OpenTrade | aura/core/stats.py:287-314 | after its second bar that run holds a trade, and the expected equity is too high by the entry fee |
| BacktestAccounting.RunPriced | aura/backtest/engine.py:89-264 | in every run over positive prices sizes, entries and reached first targets are positive |
| BacktestAccounting.Tp1FeesVanish | aura/backtest/engine.py:176-188 | with a maker fee those fees add up to zero if and only if no trade reached its first target |
| Parity.ParityOfBar | aura/backtest/engine.py:98-211 | one bar keeps two mirrored positions mirrored or closes both with the same exit |
| Parity.EngineParity | aura/runner/paper_engine.py:582-724 | for every gap-free run of bars, the paper account's bar updates and the replay engine's management of the same position end alike: both still hold it, or both left it on the same bar at the same price with the same result, fees, quantity and R multiple, and both earned the same, whatever their collision flags |
| Pava.PoolViolators | aura/core/stats.py:166-182 | the backtracking loop ends, with non-decreasing means, increasing centres, and every block the exact pool of a run of bins |
| Pava.MergeKeepsPooling | aura/core/stats.py:168-178 | pooling two violating neighbours keeps every block the pool of consecutive bins none of whose starts is lighter than it |
| Pava.PoolingConserves | aura/core/stats.py:168-178 | total weight and weighted sum are those of the bins |
| Pava.FitIsBest | aura/core/stats.py:166-182 | every non-decreasing sequence costs at least the fit's weighted squared error plus its own weighted squared distance from the fit |
| Pava.PavaIsOptimal | aura/core/stats.py:140-182 | the pooled values are the one and only best non-decreasing fit of the bins |
| Calibration.FillBins | aura/core/stats.py:145-164 | every bin holds two pseudo-trades at the prior plus its counted trades |
| Calibration.BinsAreProper | aura/core/stats.py:145-164 | bins have positive weight, means strictly between 0 and 1 and increasing centres |
| Calibration.Calibrate | aura/core/stats.py:140-182 | for every trade list the blocks are the optimal fit and fit for the curve |
| Calibration.ProbLong | aura/core/stats.py:184-200 | the lookup loop returns the calibrated value |
| Calibration.CurveIsMonotone | aura/core/stats.py:184-200 | the curve is defined everywhere, non-decreasing and between the outer block means |
| Calibration.CalibratorShape | aura/core/stats.py:184-200 | the final fallback is never reached, the probability lies in 0.05..0.95 and does not decrease in the score |
| Calibration.MaxDrawdown | aura/core/stats.py:244-253 | the loop finds the largest fall of the running sum from any point to a later one |
| Calibration.EvaluateReturns | aura/core/stats.py:217-266 | win rate, expectancy, averages and profit factor multiply back to the win count, the sum of returns, the gains and the losses, and the drawdown is the largest fall |
| Calibration.GainsLessLosses | aura/core/stats.py:235-242 | gains less losses are the sum of the returns |
| WalkForward.WalkForwardFolds | aura/core/stats.py:337-365 | the loop returns the folds of the geometry, or none when there are too few bars |
| WalkForward.FoldsPartitionTail | aura/core/stats.py:344-351 | a bar of the tail after the first training block belongs to the test range or embargo of exactly one fold, any other bar to none |
| WalkForward.FoldsFit | aura/core/stats.py:344-351 | every fold trains and tests on something, with one bar between, and the next test range starts two bars after it |
| WalkForward.FoldsAhead | aura/core/stats.py:344-351 | a fold's test range ends before any later fold's embargo bar |
| WalkForward.RunFold | aura/backtest/walk_forward.py:71-93 | one fold gives the trade count of its training run and the test run's trades entered from the test start on |
| WalkForward.RunWalkForward | aura/backtest/walk_forward.py:60-95 | the loop gives the results of all folds and their trades in order |
| WalkForward.StatesInPlace | aura/backtest/engine.py:89-257 | in every run each trade opens after the warm-up, leaves at a later bar, and has left by the time a later one opens |
| WalkForward.OosInsideTestRange | aura/backtest/walk_forward.py:75-85 | every out-of-sample trade opens and closes inside its fold's test range, for any simulator warm-up |
| WalkForward.FilterDropsNothing | aura/backtest/walk_forward.py:78-85 | with equal warm-ups the entry-time filter keeps every trade, and none opens before the second test bar |
| WalkForward.CombinedOneAtATime | aura/backtest/walk_forward.py:85-95 | no two trades of the combined report overlap |
| WalkForward.ReportIsSeparated | aura/backtest/walk_forward.py:60-95 | over all folds: trades inside their own test ranges, ranges after training and embargo and in order, no overlap anywhere |
| WalkForward.TenBarFoldsTradeNothing | aura/backtest/walk_forward.py:75-85 | with folds of ten bars all but the last report no trade |
| Transactions.SafeConnection.constructor | aura/store/db.py:31-35 | a new connection reads the committed state, outside any transaction |
| Transactions.SafeConnection.EnterBlock | aura/store/db.py:37-49 | entering is BEGIN at depth zero and a savepoint named after the depth below |
| Transactions.SafeConnection.ExitBlock | aura/store/db.py:51-79 | leaving commits, rolls back or releases by name, a savepoint that opened the transaction committing it, with the error of RELEASE swallowed |
| Transactions.SafeConnection.Run | aura/store/db.py:37-79 | running a program through the context manager is what the flat commands do |
| Transactions.FlatRuns | aura/store/db.py:37-79 | inside or outside a block a program that swallows no automatic rollback on its way follows its meaning, or loses the transaction while an error escapes |
| Transactions.NestedBlocksAreAtomic | aura/store/db.py:37-79 | for every nest of blocks, any of which may raise, that on its way comes to no handler inside a block catching an automatic rollback: the database read and committed is that of the recursive meaning, the error escapes exactly when it should, and depth and savepoints are back at zero |
| Transactions.NothingIsCommittedInside | aura/store/db.py:37-79 | under the same condition a reopened connection reads what was there before the outermost block until that block leaves |
| Transactions.LostExactly | aura/store/db.py:37-79 | the flat commands of any nest go on behind a lost transaction if and only if, going by the recursive meaning, a handler inside a block catches an automatic rollback that is reached |
| Transactions.EscapingIsSafe | aura/store/db.py:37-79 | a nest in which no handler inside a block could catch an automatic rollback swallows none from any state |
| Transactions.SwallowedAbortLeaks | aura/store/db.py:51-79 | a swallowed automatic rollback lets later statements of a failing block commit |
| Migrations.AttemptIsAtomic | aura/store/db.py:150-158 | one migration is applied whole with its version recorded, or not at all |
| Migrations.Migrate | aura/store/db.py:139-162 | the loop over the files does the reference migration on the connection and leaves it idle |
| Migrations.MigrateReaches | aura/store/db.py:145-162 | one call installs the scripts in order up to the first failure, or refuses a newer schema |
| Migrations.MigrationIsPathIndependent | aura/store/db.py:139-162 | after any earlier complete and failed calls: success ends in all scripts once each in version order, a failure in exactly the scripts before it, a refusal changes nothing |
| Migrations.RepeatedCallChangesNothing | aura/store/db.py:139-162 | a call on a complete installation changes nothing, and succeeds if and only if the newest script is supported |
| Migrations.NewerSchemaIsRefused | aura/store/db.py:145-150 | a database with a version above the supported one is refused untouched |
| StateMachine.RunnerStateMachine.Transition | aura/runner/state_machine.py:89-108 | a transition happens if and only if the table allows it, and only a change takes the new reason and time |
| StateMachine.RunnerStateMachine.Halt | aura/runner/state_machine.py:110-114 | a halt sets flag, reason and state |
| StateMachine.RunnerStateMachine.Resume | aura/runner/state_machine.py:116-120 | a resume clears the flag and reports whether the state could follow |
| StateMachine.HaltAgrees | aura/runner/state_machine.py:110-128 | a halt lands in HALTED from everywhere, a resume never leaves the machine halted and is refused only while starting or warming up, the feed marks never touch the halt |
| StateMachine.TransitionAgrees | aura/runner/state_machine.py:89-108 | a direct transition keeps flag and state in agreement if and only if it neither enters nor leaves HALTED |
| WorkerHalt.LatestIsTop | aura/runner/worker.py:170-175 | the query's row is the one applied after every other: later, or at the same time with a greater id |
| WorkerHalt.TopOfLastTime | aura/runner/worker.py:170-175 | with a clock that never goes back it is the row with the greatest id among those of the last time |
| WorkerHalt.RunRecords | aura/runner/worker.py:271-436 | in every run, whatever the clock does, command ids are used once, the applied rows match the log, and flag and state agree |
| WorkerHalt.RestoreExactly | aura/runner/worker.py:168-193 | a restore halts if and only if that row is a halt, the last state row says HALTED, or memory is halted already |
| WorkerHalt.RestoreKeepsHalt | aura/runner/worker.py:168-193 | a restore that does not forget the halt in force brings it back |
| WorkerHalt.StepKeeps | aura/runner/worker.py:271-436 | every step and crash keeps the invariant of the control plane |
| WorkerHalt.CommitKeeps | aura/runner/worker.py:313-322 | committing a command after its effect in memory keeps the halt in force or replaced by a resume |
| WorkerHalt.RunKeeps | aura/runner/worker.py:271-436 | the invariant holds after every run in which no restart forgets a halt |
| WorkerHalt.DistinctTimesNeverForget | aura/runner/worker.py:170-175 | with increasing applied times no restart of the run forgets a halt |
| WorkerHalt.HaltSafety | aura/runner/worker.py:377-470 | in every run in which no restart forgets a halt, every entry happens in a cycle with all feeds healthy, and between an applied halt and any later entry a resume was applied |
| WorkerHalt.RestartExactly | aura/runner/worker.py:168-215 | in every run a restart comes up halted if and only if the last row in the query's order is a halt or the last state row says HALTED; it loses a halt in force if and only if that row is a resume and the state row does not say HALTED |
| WorkerHalt.RestartKeepsHalt | aura/runner/worker.py:168-215 | with increasing applied times a restart comes up halted if and only if a halt is in force or the last state row says HALTED |
| WorkerHalt.HaltedMeansHalted | aura/runner/state_machine.py:75-77 | at every point of every run the flag equals the state, so entries need only the state RUNNING |
| WorkerHalt.TiedTimesLoseHalt | aura/runner/worker.py:170-175 | a run in which a halt applied in the same millisecond as a resume is forgotten by the restart and an entry follows |
| WorkerCycle.ControlPlane.constructor | aura/runner/worker.py:44-95 | a new process does the construct step: memory empty, a persisted halt restored |
| WorkerCycle.ControlPlane.RestorePersistedState | aura/runner/worker.py:168-193 | the state machine becomes the restored one |
| WorkerCycle.ControlPlane.StartUp | aura/runner/worker.py:195-215 | starting does the start and state-row steps |
| WorkerCycle.ControlPlane.TakeEffect | aura/runner/worker.py:280-312 | a command's effect on memory is the handle step |
| WorkerCycle.ControlPlane.HandleRow | aura/runner/worker.py:275-322 | one command does the handle and commit steps |
| WorkerCycle.ControlPlane.ApplyCommands | aura/runner/worker.py:271-322 | the loop over the first rows is a run of handle and commit steps |
| WorkerCycle.ControlPlane.RunCommands | aura/runner/worker.py:271-322 | the commands of a cycle, with an exception before a command or between its effect and its row, are a run of the machine |
| WorkerCycle.ControlPlane.UpdateFeeds | aura/runner/worker.py:389-426 | the feed loop does the feed step |
| WorkerCycle.ControlPlane.ProcessBars | aura/runner/worker.py:428-470 | the bar loop is a run of bar steps, and nothing is entered unless the machine allows it |
| WorkerCycle.ControlPlane.RunCycle | aura/runner/worker.py:377-436 | a whole cycle, wherever it raises, is a run of the crash machine, so its theorems hold of it |
| WorkerBarsSafety.FinalFromRows | aura/runner/worker.py:440-489 | what a bar does to an account's rows, and whether entries are looked at, depends on the rows only |
| WorkerBarsSafety.CommandedFromRows | aura/runner/worker.py:324-375 | what a close or reset does to an account's rows depends on the rows only |
| WorkerBarsSafety.StepKeeps | aura/runner/worker.py:324-508 | every step, bar, command, abort, stalled COMMIT, crash and restart keeps the invariant, and so does leaving a lost transaction that is harmless |
| WorkerBarsSafety.CommitKeeps | aura/runner/worker.py:482-489 | a commit extends the reference replay by exactly this bar |
| WorkerBarsSafety.ApplyKeeps | aura/runner/worker.py:324-375 | a close or a reset keeps the invariant and extends the reference replay by exactly this command |
| WorkerBarsSafety.RollbackRestores | aura/runner/worker.py:97-109 | a rollback puts a snapshotted account back exactly as it was |
| WorkerBarsSafety.BarsCompleteOnce | aura/runner/worker.py:737-766 | in every run, lost transactions included, the processed bars are exactly the completed ones, each completed once, and none is left processing |
| WorkerBarsSafety.BarsTakeEffectOnce | aura/runner/worker.py:324-508 | over any run whose lost transactions are harmless: a snapshotted account's committed trades are those of the completed bars, manual closes and resets applied in the order of their commits; only alerts of completed bars were sent; between attempts memory is what the rows load into |
| WorkerBarsSafety.NothingLost | aura/runner/worker.py:525-544 | a run in which no log loses its transaction is such a run |
| WorkerBarsSafety.LossKeepsExactly | aura/runner/worker.py:525-544 | leaving a lost transaction keeps the invariant if and only if the bar queued no alert and left every snapshotted account alone |
| WorkerBarsSafety.LostStopOut | aura/runner/worker.py:483-508 | while entries are not allowed, a bar that closes the master's position and whose log loses the transaction raises nothing, is not completed, leaves memory against the rows and sends its alert |
| WorkerBarsSafety.AttemptInPlace | aura/runner/worker.py:440-489 | any account at rest when an attempt begins has, at each of its points, memory and rows as far as the attempt has come |
| WorkerBarsSafety.AbortAgreesExactly | aura/runner/worker.py:491-496 | wherever an attempt aborts between two turns, an account that was at rest when it began is at rest again if and only if it is snapshotted, or its bar, if applied, only held and it had taken no entry |
| WorkerBarsSafety.RowFailsExactly | aura/runner/paper_engine.py:677-724 | when the row of an account cannot be written inside its turn, the same holds as if that turn had passed, for that account and every other |
| WorkerBarsSafety.TornRestores | aura/runner/worker.py:97-109 | an exception inside a turn, whatever memory it leaves, puts every snapshotted account back exactly |
| WorkerBarsSafety.StuckUntilCrash | aura/store/db.py:44-69 | after a COMMIT that failed without rolling back no step but a crash changes anything, and the restarted process is loaded from the rows of before the bar |
| WorkerBarsSafety.StoppedOut | aura/runner/worker.py:452-459 | in every configuration there is a consistent account and a bar that closes its position |
| WorkerLog.BarBlockEscapes | aura/runner/worker.py:525-544 | the worker's block meets the condition for atomic nested blocks if and only if no statement of the log can roll the transaction back |
| WorkerLog.BarBlockLoses | aura/runner/worker.py:525-544 | from any state the worker's block loses its transaction unnoticed if and only if the insert of the log ends with an automatic rollback or swallows one |
| WorkerLog.BlockIsMachine | aura/runner/worker.py:440-544 | for every outcome of the log, the block's commands on the connection raise nothing and leave committed exactly the rows of the bar machine |
| WorkerLoss.LossHappens | aura/runner/worker.py:440-544 | a run from a new database opens a long, loses the log on the bar of its stop, and ends with an alert to send, the bar not processed and the master's memory against its rows |
| Worker.BothRun | aura/runner/worker.py:377-508 | every run of the worker is a run of the control plane and a run of the bar machine |
| Worker.EntersOnlyRunning | aura/runner/worker.py:440-489 | in every run a bar that commits an entry does so in the bars' phase of a cycle, running and not halted |
| Worker.WorkerIsSafe | aura/runner/worker.py:271-508 | over every run of commands, cycles, bars, aborts, crashes and restarts in which no restart forgets a halt and lost transactions are harmless, one log tells everything: a snapshotted account's committed trades are the fold of its bars, closes and resets, each bar once; every entry was made with healthy feeds; and between a halt and a later entry there is a resume |
| WorkerProcess.BarProcessor.constructor | aura/runner/worker.py:74-80 | engines that agree with their rows make a valid processor |
| WorkerProcess.BarProcessor.MasterIsCovered | aura/runner/worker.py:97-103 | the source's snapshot meets the conditions of the crash theorems for the master account |
| WorkerProcess.BarProcessor.UpdateAccounts | aura/runner/worker.py:451-459 | the loop over the engines is a run of the machine's update steps |
| WorkerProcess.BarProcessor.EnterAccounts | aura/runner/worker.py:829-873 | the loop over the engines is a run of the machine's entry steps, with one alert, of the last account that entered |
| WorkerProcess.BarProcessor.GateOpen | aura/runner/worker.py:470-476 | entries are looked at if and only if the master has room and no position in the symbol |
| WorkerProcess.BarProcessor.RowsRollBack | aura/store/db.py:51-57 | a rollback puts every account's rows back and leaves memory as it is |
| WorkerProcess.BarProcessor.RollBack | aura/runner/worker.py:105-109 | every account's rows go back, but only the master's memory |
| WorkerProcess.BarProcessor.Abort | aura/runner/worker.py:491-496 | the exception handler is the machine's abort, and rows and master are as before the attempt |
| WorkerProcess.BarProcessor.LogAndComplete | aura/runner/worker.py:484-489 | logging and completing is the machine's log step, for a log that is written, refused, or loses the transaction |
| WorkerProcess.BarProcessor.LeaveBlock | aura/store/db.py:66-69 | leaving the block commits the bar, or nothing when the transaction is lost |
| WorkerProcess.BarProcessor.SendAlerts | aura/runner/worker.py:498-508 | alerts go out after the commit, a failing one is passed over |
| WorkerProcess.BarProcessor.ProcessClosedBar | aura/runner/worker.py:440-508 | one attempt, wherever it raises (claim, between or inside the turns of updates and entries, completion, COMMIT) and whatever becomes of its log, is a run of the machine; the bar is completed if and only if it was unclaimed, nothing raised and the transaction was not lost, else the rows are unchanged or the transaction is stuck, and after an exception the master's memory and the sent alerts are as before |
| WorkerProcess.BarProcessor.RestoreSnapshot | aura/runner/worker.py:491-496 | after a COMMIT that failed without rolling back the handler is the machine's stall: the master's memory goes back, no row does |
| WorkerProcess.BarProcessor.CloseTradeCommand | aura/runner/worker.py:324-356 | closes the trade on the first account that holds it, which is the machine's close, or changes nothing when none does or the row cannot be written |
| WorkerProcess.BarProcessor.ResetCommand | aura/runner/worker.py:358-375 | resets the named account, which is the machine's reset; an unknown one changes nothing |
| MarketCache.PublicMarketCache.Get | aura/api/app.py:77-88 | returns the unexpired entry and makes it the most recent, drops an expired one |
| MarketCache.PublicMarketCache.Set | aura/api/app.py:90-97 | replaces or makes room, then appends |
| MarketCache.PublicMarketCache.Evict | aura/api/app.py:99-105 | drops the expired entries, then the oldest until there is room |
| MarketCache.RunKeeps | aura/api/app.py:77-105 | after every history each entry is the latest set of its key and has behind it only keys used since |
| MarketCache.GetIsLatest | aura/api/app.py:77-105 | the cache never exceeds its capacity, and a get returns only the latest set of its key before that one's expiry |
| MarketCache.EvictionSpares | aura/api/app.py:99-105 | an eviction spares an unexpired entry while fewer than 256 other keys were used since it was |
| MarketCache.UnexpiredIsKept | aura/api/app.py:77-105 | under a monotone clock a get returns the latest set of its key while it is unexpired and fewer than 256 other keys were used since |
| MarketData.EvaluateMetrics | aura/data/liquidity.py:29-116 | the collected reasons are those of the reference, and the snapshot is verified if and only if every condition of the policy holds |
| MarketData.NoReasonMeansPasses | aura/data/liquidity.py:46-108 | nothing speaks against a snapshot if and only if it is active, complete, fresh and liquid |
| MarketData.LiquidityIsVerified | aura/runner/worker.py:635-702 | the gate's chain of checks passes if and only if its conditions hold together |
| MarketUpdater.MarketDataUpdater.UpdateCycle | aura/data/market_updater.py:40-208 | a cycle runs if and only if it is forced or due, and then writes what the reference cycle writes, with every configured symbol's row verified by this cycle or not at all |
| MarketUpdater.MarketDataUpdater.UpdateSymbol | aura/data/market_updater.py:88-205 | every way through the checks of a symbol writes the row the reference writes |
| MarketUpdater.MarketDataUpdater.PersistContractSpecs | aura/data/market_updater.py:210-255 | upserts every spec, then delists and deactivates every known symbol not listed as normal |
| MarketUpdater.MarkGone | aura/data/market_updater.py:239-255 | the loop over the known symbols delists and deactivates exactly the inactive ones |
| MarketUpdater.RunSound | aura/data/market_updater.py:210-324 | after every run of all writers a row marked verified carries the metrics, times and version its verdict rested on |
| MarketUpdater.GateIsJustified | aura/runner/worker.py:656-702 | after every run of all writers a row that passes the gate would be verified again by the policy at that time if and only if its spec has a positive fetch time, and the notional is within the depth fraction of its side |
| MarketUpdater.CycleFailsClosed | aura/data/market_updater.py:86-208 | after a cycle every configured symbol has a row, verified only if a turn of this cycle verified it |
| MarketUpdater.GoneIsBlocked | aura/data/market_updater.py:239-255 | a contract missing from the exchange's list cannot pass the gate |
| Gaps.DetectGaps | aura/data/gap_detector.py:12-29 | the loop finds the gaps between neighbours more than an interval apart |
| Gaps.ValidateSeries | aura/data/validation.py:76-118 | a series is valid if and only if its bars are sound and its times strictly increase, and its gaps are the gap detector's for every series |
| Gaps.PlanBackfillChunks | aura/data/gap_detector.py:32-51 | the loop ends and gives the chunks of the reference |
| Gaps.ChunksCover | aura/data/gap_detector.py:32-51 | the chunks of a gap cover its bars and nothing else, one after the other, none longer than the limit |
| Gaps.PlanCoversMissing | aura/data/gap_detector.py:12-51 | for a series on the grid a bar is missing if and only if exactly one request holds it, present bars are in none, and no request is longer than the limit |

## Left out

- HTTP routes, sessions, tokens, the dashboard, ntfy delivery and the API's own writes to `runner_state`: I/O and UI.
- The exchange's network calls, JSON, retries and sleeps: their results are inputs (`Cycle`, `Turn`, health flags, openings).
- SQL text: tables are maps, savepoints a list of names and snapshots. The lock and
  thread ownership of `SafeConnection` and `sqlite3.complete_statement` are not modelled.
- WorkerProcess.BarProcessor.ProcessClosedBar: an exception inside an account's turn is raised where its row is to be written. Any
  other point of a turn is a step of the machine that leaves that account with arbitrary memory (`WorkerBarsSafety.TornRestores`),
  not a path of the method.
- Migration scripts are sequences of unknown statements; the time stored with a version and a missing `schema_migrations` table
  (which reads like an empty one) are not told apart.
- Floating-point rounding, NaN and decimal context precision: reals, and an option where NaN means "not set yet".
- Positions are values in maps instead of shared objects in dictionaries, so their order in the dictionary is not modelled: no step
  depends on it. The list of closed positions is a map by trade id.
- Columns and fields for display only (R multiple, unrealized result, extremes, setup score, notes) are not persisted by the source
  and are ignored by the restart theorems.
- Trade ids (uuid) are inputs that are never used twice. An unknown timeframe text, a negative warm-up and a warm-up argument other
  than the default are not modelled. A backtest without contract specs, which sizes every trade to zero, is not modelled.
- Analyzer.AnalyzeCandles: the copied candle columns, the supertrend line and the volume delta of the result are left out; the
  loops that compute the last two are `Indicators.SupertrendSeries` and `Indicators.CvdSeries`.
- `norm_cdf`, `norm_inv`, `calc_dsr`, `selection_objective`: the sigmoid prior is any ten values strictly between 0 and 1, and the
  fold evaluations and DSR of the walk-forward report are left out.
- `macro_adjust`, funding, open interest and basis biases, Kelly and leverage advice, `regime_of`, `dynamic_tp1_at`: single clamps.
- `reconcile_accounting`'s flag compares a value with itself; only its expected equity is modelled.
- Legacy import, login limiter, logging, `get_ttl` and `parse_depth_metrics` would only add easy members.
- The worker's objects are split by concern: `WorkerCycle.ControlPlane` holds commands and states, `WorkerProcess.BarProcessor` the
  bars, closes and resets; `Worker` joins the two machines they are runs of. `set_config` changes the master's
  limits while it runs; the bar machine takes the limit on positions from a bar's job and keeps each engine's configuration
  fixed, so the effect of that command on a run is not modelled.
- `_restore_persisted_state` swallows an exception of its own queries and then restores no halt; that failure is not modelled.
- The crash machine has one worker process; two workers on one database are not modelled.
- An exchange status or error text counts as stale through a flag instead of its letters; `vol_24h`, timestamps of failures and raw
  hashes of the market tables are left out.
