# Verified model of the trading-bot backtester

A Dafny 4.11 model of a historical trading simulator and of what it depends on: the event-driven simulation with
its accounting, costs and metrics; the baseline trend and momentum strategy that drives it; the causal feature
kernel; the calendar's slot grid; and the ingestion of historical candles. `dafny verify dfyconfig.toml` checks it.

## How it is built

The simulator is modelled twice. Module `Engine` is a pure machine: a state, one function per operation, one step
per clock tick, and the state after any number of ticks. Class `Simulations.Simulation` has the program's own form,
with fields that are appended to and overwritten and loops that count down the remaining volume; each of its methods
ends in exactly the state, or the error, the pure machine prescribes. `Portfolios.Portfolio`,
`Strategies.StrategyRuntime`, `Baseline.BaselineTrendMomentumStrategy`, the array routines of `Numerics`, the loops of
`Segments`, `Metrics`, `Calendars`, `Clock` and `Ingestion.IngestionService` are related to their specifications in the
same way. Theorems over whole runs and over pairs of runs are proved on the pure form.

| modules | content |
|---|---|
| Common, Texts, Rounding | errors, time, decimal text, half-up rounding |
| Orders, Costs, CostBounds, Execution, Accounting, Trades, Portfolios, Statistics, Metrics | orders, charges and their growth, prices, books, trade ledger, report |
| Calendars, Clock, FeatureRows, Strategies, Engine, Simulations | slots, ticks, strategy contracts, the simulator |
| Ledger, Safety, Grids, Admission, Operations, Runs, Reconciliation, Marks, Example | the joint invariant of orders, fills and book, accepted inputs, each operation in values, whole runs, their marks and their reports |
| Timing, Flattening, Closing, Exclusivity, Causality, Liquidity | time, liquidation, closes that cannot fail, one-cancels-other, no look-ahead, volume |
| Prices, Solvency, Boundaries, Scenarios, TwoDays | prices inside the candle, when cash stays non-negative, the exact limits of the guarantees, and inputs and whole runs beyond them |
| Baseline, Decisions, References, Numbering, ClosedLoop, Protection, BaselineRuns, Guarantees | the baseline strategy, its decisions in values, and in closed loop with the simulator |
| Numerics, Registry, Formulas, Segments, FeatureLaws | the feature kernel and what each feature is worth |
| Ingestion | classification, merge and counters |

## Conventions

* Decimal amounts are `real`; quantisation to the paisa and to ten decimals is explicit. Times are microseconds.
  NaN is `None`.
* On a partial exit the average-cost division may release any value (`Release`); conservation and reconciliation hold
  whatever it is. A full exit releases the exact residual, as the program does.
* Sums over dictionaries are shown not to depend on their order.
* Sessions are a given list in which each closes strictly before the next opens (`Separated`): the calendar has one
  session per date. The slot dictionary is the ordered list of its insertions.
* References made up by the baseline are kept in parts; module `References` shows that comparing parts is what
  the program does on the text, for symbols without a colon, which is all the symbol pattern admits.
* The two runs of `Causality.NoLookAhead` list their bars in the same order.
* An ordinary order may be named `FORCED_SESSION_EXIT`, and then a strategy can cancel the liquidation of that name once
  its cutoff bar has completed. Only the last clauses of `Flattening.ForcedFlattening` ask that no order is so named
  (`NameReserved`); the baseline satisfies it (`Guarantees.SalesNeverRejected`).

## Where code and documentation differ

* The strategy guide says a cancellation cannot reach forced orders. The code matches by reference alone, so it can
  exactly when an ordinary order of the symbol bears the same name (`Boundaries.LiquidationCancellable`);
  `Boundaries.LiquidationCancelled` is a sound state and a strategy where it does. The model follows the code.
* The simulator guide speaks of 1x cash only. Only purchases are guarded: `TwoDays.CompletedOverdrawn` is a
  validated run that completes with negative cash. `Solvency.SolventExactly` says when that happens in
  a run: exactly when some sale's charges exceed the cash before it and its proceeds. A
  check of the inputs before the run rules it out (`Prices.CoveredInputsSolvent`, `CostBounds.ProfileCovers`): with the
  reference profile, candles whose lows after slippage are worth ten paise suffice (`Prices.ReferenceSolvent`).
* A holding above one billion shares cannot be liquidated: the forced intent then fails its own validation, and the run
  ends with that error, exactly at the cutoff opening of such a holding (`Boundaries.OpeningTickFailsExactly`);
  `Boundaries.HugeHoldingStuck` is a healthy state with one. No such holding arises with the baseline.
* The report divides each day's equity by the day before. A day other than the last that closes at exactly zero equity
  makes the report of an otherwise completed run fail (`Metrics.Performance`); `TwoDays.CompletedUnreported` is a
  completed run where charges have eaten all the cash.

## Model

| member | source | states |
|---|---|---|
| Reconciliation.ReportReconciles | src/trading_bot/backtesting/metrics.py:13-62 | In every completed run the report's net P&L is the sum of the trades' net P&L, the sum of the daily P&L, and execution P&L less all costs; gross P&L is sales less purchases at base prices over all fills; profit less loss is net P&L; exposure lies within the observed time. |
| Reconciliation.StatisticsReconcile | src/trading_bot/backtesting/metrics.py:62-84 | In every completed run the reported maximum drawdown is the deepest fall from any point of the equity curve to a later one; expectancy times the number of trades is the net P&L; the profit factor exceeds one exactly when money was made; turnover is purchases plus sales; exposure is a percentage. |
| Reconciliation.DeepestFall | src/trading_bot/backtesting/accounting.py:107-121 | On a sound curve the maximum drawdown is attained as a fall between two points and bounds all such falls; its percentage is the steepest fall from a point to a later one that it overlooks. |
| Reconciliation.CompletedRun | src/trading_bot/backtesting/engine.py:457-551 | A completed run holds nothing and has no active order; its curve starts at the capital and never runs backwards; the change in equity is the trades' net P&L, which is execution P&L less fees. |
| Reconciliation.TradesReconcile | src/trading_bot/backtesting/accounting.py:77-99 | In every reachable state there is one trade per flat-to-flat group of fills, in order; it reports exactly its own fills, and its gross P&L is their P&L at base prices. |
| Reconciliation.OrderBookConsistent | src/trading_bot/backtesting/engine.py:270-365 | In every reachable state an order's own fills add up to its filled quantity and turnover, FILLED means nothing remains, only stops trigger, and its fills' charges add up, component by component, to one cumulative charge. |
| Reconciliation.OrdersSettle | src/trading_bot/backtesting/orders.py:120-131 | Along a run a terminal order never changes again, and a triggered stop keeps being priced at the market open. |
| Reconciliation.GuardsNeverFire | src/trading_bot/backtesting/engine.py:286-339 | In any run, every prefix of the recorded fills is accepted by the accounting; no position is ever short and no purchase leaves negative cash. |
| Reconciliation.CompletionNeverRaises | src/trading_bot/backtesting/engine.py:232-380 | Completing a bar in a sound state raises nothing up to the moment the strategy is asked. |
| Reconciliation.MarksReconcile | src/trading_bot/backtesting/engine.py:452-455 | Each recorded equity is capital plus realized and unrealized P&L less all fees so far. |
| Marks.ReachablePrices | src/trading_bot/backtesting/engine.py:377-377 | In every reachable state a symbol's mark price is the close of its candle that completed last, and there is none before its first completion. |
| Marks.MarkedAtCompletion | src/trading_bot/backtesting/engine.py:377-379 | Every completed candle adds one point, at its completion, whose market value is the sum over positions of quantity times that close; its equity is cash plus market value, its unrealized P&L market value less open bases. |
| Marks.OtherPoints | src/trading_bot/backtesting/engine.py:505-519 | No other tick adds a point, except a session close and a session opening that the curve does not already end with. |
| Marks.ShownExactly | src/trading_bot/backtesting/engine.py:382-421 | The context shown to a strategy holds the settled state: the cash, the equity at the last closes, the symbol's own position with average price, and its orders in turn, each as it then is. |
| Reconciliation.LastTickCloses | src/trading_bot/backtesting/clock.py:19-41 | The last tick of a validated run is a session close. |
| Reconciliation.EquityChronological | src/trading_bot/backtesting/engine.py:452-519 | The equity curve starts at the capital at the first opening, is in time order, and is never later than the clock. |
| Accounting.Conservation | src/trading_bot/backtesting/accounting.py:44-76 | Over any bookable fills, cash plus open bases is capital plus realized less fees, whatever the average-cost division releases on partial exits; realized and fees split into closed trades and open positions. |
| Accounting.MarkReconciles | src/trading_bot/backtesting/accounting.py:101-121 | A mark's equity is capital plus realized plus unrealized less fees, and drawdown is peak less equity and not negative. |
| Accounting.ApplySucceeds | src/trading_bot/backtesting/accounting.py:44-60 | A fill of positive quantity succeeds exactly when a purchase fits the cash or a sale fits the holding; only its own symbol changes, by the signed quantity; a purchase leaves no negative cash. |
| Accounting.SumExtract | src/trading_bot/backtesting/accounting.py:101-106 | Summing over the position dictionary does not depend on its order. |
| Trades.LedgerAudit | src/trading_bot/backtesting/accounting.py:77-99 | The trade list is the flat-to-flat decomposition of the fills, and open positions sum up the fills since flat. |
| Trades.TradeGrossAtBase | src/trading_bot/backtesting/accounting.py:86-92 | A trade's gross P&L is its fills' P&L at base prices when every fill is on the adverse side of base. |
| Trades.GrossAtBase | src/trading_bot/backtesting/metrics.py:49-54 | Over any adverse fills, execution P&L plus slippage is P&L at base prices. |
| Trades.FlatReconciles | src/trading_bot/backtesting/accounting.py:44-99 | In a flat book the trades' net P&L is the change in cash, and gross P&L is the P&L at base prices. |
| Portfolios.Portfolio.Apply | src/trading_bot/backtesting/accounting.py:44-99 | The in-place update leaves exactly the book the accounting machine prescribes, or raises the same error. |
| Portfolios.Portfolio.Mark | src/trading_bot/backtesting/accounting.py:101-121 | Marking returns the prescribed equity point, or a missing price, and raises the peak. |
| Portfolios.Portfolio.SumPositions | src/trading_bot/backtesting/accounting.py:102-106 | The loop over positions yields market value and open basis in any order, and fails exactly when a held symbol has no price. |
| Costs.SplittingInvariance | src/trading_bot/backtesting/costs.py:100-130 | However an order is cut into fills, the increments sum, component by component, to one charge on the final turnover, and no increment is negative. |
| Costs.CumulativeMonotone | src/trading_bot/backtesting/costs.py:100-130 | Every rounded charge grows with turnover and is not negative, through caps, minimum, square-off charge and GST on rounded parts. |
| Costs.ChargesExact | src/trading_bot/backtesting/costs.py:100-130 | Each component in values: brokerage the nearest paisa of the greater of min(cap, rate x turnover) and min(minimum, small rate x turnover), STT on sales only, stamp duty on purchases only, square-off on forced orders only, GST on the listed rounded charges; nothing without turnover, an error below zero. |
| Costs.DocumentedCharges | docs/backtesting.md:180-181 | On a turnover of 10,000 the reference profile charges 12.48 to buy and 14.68 to sell, component by component as documented. |
| CostBounds.ChargeBound | src/trading_bot/backtesting/costs.py:100-130 | A further sale adds to its order's cumulative charge at most the profile's total rate, GST on it included, times the sale's value, plus a constant for brokerage, square-off and rounding. |
| CostBounds.ProfileCovers | src/trading_bot/backtesting/costs.py:100-130 | If that rate is at most one and the bound fits a least sale value, then no sale of at least that value adds more charges than it brings in. |
| CostBounds.ReferenceCovers | config/groww_nse_intraday_reference_v1.yaml:16-29 | The reference profile passes that check for every sale worth ten paise or more. |
| Rounding.PaisaNearest | src/trading_bot/backtesting/costs.py:109-110 | Half-up rounding to the paisa: the unique whole number of paise within half a paisa, ties away from zero. |
| Rounding.PaisaMonotone | src/trading_bot/backtesting/costs.py:109-110 | Rounding keeps order and sign. |
| Ledger.PartialWithinWhole | src/trading_bot/backtesting/engine.py:296-323 | The pre-check on the whole remainder covers the value and the charges of any partial fill. |
| Metrics.Performance | src/trading_bot/backtesting/metrics.py:13-90 | The report, with all its figures, is computed by loops over fills, trades, days and intervals; it exists exactly unless some return would be taken on a zero equity. |
| Statistics.Ratios | src/trading_bot/backtesting/metrics.py:34-39 | The Sharpe ratio exists exactly from twenty days whose returns are not all equal, the Sortino ratio if moreover some day lost; each is the annualised mean over its risk and has the mean's sign, for any square root. |
| Statistics.RatiosExact | src/trading_bot/backtesting/metrics.py:34-39 | The Sharpe ratio times the root of the sample variance, and the Sortino ratio times the root of the mean squared loss, is the mean return times the root of 252; both need twenty days. |
| Statistics.TradesSummed | src/trading_bot/backtesting/metrics.py:65-75 | Expectancy times the number of trades is their net P&L; the profit factor exists exactly with a loser and exceeds one exactly when net P&L is positive; average winner and loser exist exactly with the largest ones and lie between them and zero. |
| Statistics.TradingStatistics | src/trading_bot/backtesting/metrics.py:20-22 | Winners, losers, averages and extremes computed over the trades, break-even trades being neither. |
| Metrics.DailyPnl | src/trading_bot/backtesting/metrics.py:25-33 | One entry per day in date order, each the day's closing equity less the previous day's (or the initial) equity. |
| Metrics.CloseDays | src/trading_bot/backtesting/metrics.py:25-27 | The day dictionary holds the last equity of each day. |
| Metrics.Exposure | src/trading_bot/backtesting/metrics.py:40-48 | Exposed and observed time over consecutive points of one day. |
| Metrics.DailySums | src/trading_bot/backtesting/metrics.py:25-33 | On a curve in time order the daily P&L adds up to the whole change in equity. |
| Execution.Reachability | src/trading_bot/backtesting/execution.py:10-28 | Exactly when the bar's range touches its level an untriggered limit or stop is reached, and its base is the open if already crossed there, else the level; a market order or a triggered stop is priced at the open. |
| Execution.ExecutionAdverse | src/trading_bot/backtesting/execution.py:31-38 | The executed price is, exactly, the base times (10000 + bps) / 10000 for a purchase and (10000 - bps) / 10000 for a sale, or the limit where that is beyond it; so it is positive, on the adverse side of base and within the limit. |
| Ledger.AttemptSound | src/trading_bot/backtesting/engine.py:286-376 | An attempt to fill a reachable order raises nothing: it rejects the order or books a fill that keeps orders, fills, charges and book consistent. |
| Ledger.Book1Exact | src/trading_bot/backtesting/engine.py:339-376 | A booked fill changes the filled order and cancels exactly its active one-cancels-other siblings of the symbol. |
| Ledger.VisitAllKeeps | src/trading_bot/backtesting/engine.py:280-376 | The whole fill loop succeeds, keeps the joint invariant of orders, fills and book, and any property each visit keeps. |
| Ledger.MoveWhereExact | src/trading_bot/backtesting/engine.py:366-376 | A transition loop moves exactly the picked active orders, once each, and touches nothing else but the log. |
| Operations.FillingExact | src/trading_bot/backtesting/engine.py:293-376 | An attempt on a reached order, in values: refused, with the reason, if and only if remaining x price plus the charges it adds exceed the cash, or the remainder the holding; else the fill with its price, slippage and charges, the cash it moves, the order's new totals and status, and the cancelled siblings. |
| Operations.PlacementExact | src/trading_bot/backtesting/engine.py:172-217 | A new order passes CREATED, ACCEPTED, PENDING at one instant and is rejected, with the reason, if and only if it comes at or after the cutoff unforced or sells more than is held; it waits for the earliest permitted opening. |
| Operations.WithdrawalExact | src/trading_bot/backtesting/engine.py:441-448 | A withdrawal cancels exactly the working orders of its symbol that it names, with its reason, and changes nothing else. |
| Operations.FlattenExact | src/trading_bot/backtesting/engine.py:483-504 | At the cutoff opening of a held symbol its working orders are cancelled and one forced market sale of the whole holding waits from that opening on; this fails only above one billion shares. |
| Operations.CloseExact | src/trading_bot/backtesting/engine.py:509-519 | A session close expires exactly the working orders, and fails if anything is held. |
| Liquidity.QueueExact | src/trading_bot/backtesting/engine.py:236-269 | Processed are exactly the active eligible orders, without the reached exit limits that compete with a reached exit stop of a held symbol; reached exit stops first, then by age. |
| Liquidity.AttemptExact | src/trading_bot/backtesting/engine.py:292-365 | An order is rejected if and only if its whole remainder exceeds cash or holding; otherwise exactly the offered quantity fills at the execution price. |
| Liquidity.NoLiquidityWasted | src/trading_bot/backtesting/engine.py:270-365 | An order the bar reached is still working afterwards only if less than one further share is permitted by volume times rate. |
| Liquidity.CutoffBarFlattens | src/trading_bot/backtesting/engine.py:232-380 | When a symbol's cutoff bar completes with a cap that covers the holding, or no cap, nothing of the symbol is held afterwards. |
| Liquidity.CompletionDrains | src/trading_bot/backtesting/engine.py:270-365 | A bar that completes at or after its symbol's cutoff leaves of a covered holding exactly what its volume does not permit to sell. |
| Closing.ValidateComplete | src/trading_bot/backtesting/engine.py:141-153 | Validation guarantees every symbol a cutoff bar in every session. |
| Closing.CloseFailsExactly | src/trading_bot/backtesting/engine.py:478-519 | A session close fails if and only if, at the cutoff opening of some symbol, more of it was held than its bars permit to sell from there to the close, counting the bars that complete while its liquidation is working; never without a participation rate. |
| Closing.HeldSinceCutoff | src/trading_bot/backtesting/engine.py:270-365 | From its cutoff opening on a holding goes down by exactly those shares, until nothing is left. |
| Closing.ClosesPass | src/trading_bot/backtesting/engine.py:509-519 | If each cutoff bar's volume share covers what is held when it completes, every session close that a run reaches passes. |
| Closing.NeverIncomplete | src/trading_bot/backtesting/engine.py:478-519 | A validated run of any strategy, without a participation cap or with shares that cover, never ends with FORCED_EXIT_INCOMPLETE. |
| Closing.BaselineNeverIncomplete | src/trading_bot/strategies/baseline.py:158-160 | A validated baseline run without a cap, or whose cutoff bars' shares cover the configured quantity, fails only for late features, a nonpositive stop or the intent limit. |
| Closing.OnlyLiquidationsFill | src/trading_bot/backtesting/engine.py:478-502 | From the opening of a symbol's cutoff bar for as long as the session is open, every fill of the symbol is a liquidation's. |
| Runs.ReachableSound | src/trading_bot/backtesting/engine.py:457-519 | Every reachable state is sound; a run that stops early stopped for an incomplete forced exit, an oversized liquidation, or a fault of the strategy on the context it was actually shown. |
| Runs.HistoryExtends | src/trading_bot/backtesting/engine.py:457-519 | Between any two points of a run the fills, trades and equity of the earlier are a prefix of the later, and settled orders stay. |
| Runs.StepSound | src/trading_bot/backtesting/engine.py:457-519 | One tick keeps the invariant and extends the history, or fails in a permitted way; the context shown to a strategy is never rejected. |
| Runs.EvaluatedFault | src/trading_bot/strategies/runtime.py:28-68 | On a valid context an evaluation fails for the strategy's own error, for a batch too long, or because some request is at fault. |
| Runs.CloseSound | src/trading_bot/backtesting/engine.py:507-519 | A session close fails exactly when something is held; otherwise the book is flat, no order is active and equity is cash. |
| Grids.ValidateSound | src/trading_bot/backtesting/engine.py:124-170 | Successful validation puts every bar on one slot of one session with its feature row, and gives every session its openings and a cutoff among them. |
| Admission.ValidationExact | src/trading_bot/backtesting/engine.py:124-161 | Validation succeeds if and only if the timeframe is intraday, the sessions are whole, there is one candle with its completion and one feature row for each symbol and slot and none besides, and every scripted decision's features are available, valued, and inside a session. |
| Admission.GridExact | src/trading_bot/backtesting/engine.py:147-153 | A validated session's openings are exactly its slots' in order, and its cutoff is the first one from the configured time before the close on, else the last. |
| Example.ThreeCandlesValidate | src/trading_bot/backtesting/engine.py:124-164 | A session of three candles validates: the hypotheses of the run theorems can be met. |
| TwoDays.CompletesExactly | src/trading_bot/backtesting/engine.py:457-519 | A run of five candles over two days, followed through all its fifteen ticks, buys a share, squares it off and completes; its cash is the capital less the square-off charge, whatever the charge. |
| TwoDays.CompletedOverdrawn | src/trading_bot/backtesting/accounting.py:67-67 | With a large charge that run completes with negative cash. |
| TwoDays.CompletedUnreported | src/trading_bot/backtesting/metrics.py:25-33 | With a charge of all the cash that run completes, and its report divides by the zero close of the first day. |
| Grids.CutoffExact | src/trading_bot/backtesting/engine.py:153-156 | The cutoff is the first opening at or after the desired instant, else the last opening. |
| Grids.CutoffDefined | src/trading_bot/backtesting/engine.py:152-156 | The fallback to the last opening is never taken of an empty list. |
| Grids.EligibleExact | src/trading_bot/backtesting/engine.py:176-181 | An ordinary order becomes eligible at the next opening, strictly later, a forced one at the current opening. |
| Safety.ExecuteKeeps | src/trading_bot/backtesting/engine.py:236-376 | Executing a bar succeeds, and its fills are that bar's and take together at most volume times rate shares. |
| Safety.CapacityExact | src/trading_bot/backtesting/engine.py:271-275 | With a participation rate the shares to give out are the whole number n with n <= volume x rate < n + 1; without one there is no cap. |
| Safety.SettledKeeps | src/trading_bot/backtesting/engine.py:232-379 | A completed bar up to its equity point succeeds in every healthy state and keeps it healthy. |
| Flattening.StrictCausality | src/trading_bot/backtesting/engine.py:172-244 | Every ordinary fill: created before eligible, eligible by the bar's opening, the opening before its own session's cutoff and before publication; a forced fill: created at the cutoff, no later than the bar's opening. |
| Flattening.ForcedFlattening | src/trading_bot/backtesting/engine.py:478-502 | In every reachable state: a liquidation is never rejected or expired; while active it is its symbol's only active order and covers the whole holding; from the cutoff opening to the close a held symbol has one, unless the strategy cancelled it after the cutoff bar completed, which cannot happen while no ordinary order bears its name. |
| Flattening.FlatAfterClose | src/trading_bot/backtesting/engine.py:503-519 | After every session close passed, nothing is held, no order is active, and equity is cash. |
| Flattening.EventsChronological | src/trading_bot/backtesting/engine.py:105-122 | Events are numbered consecutively and never go back in time. |
| Clock.TimelineExact | src/trading_bot/backtesting/clock.py:19-41 | The timeline is sorted and lists every session, bar and decision event exactly once and nothing else. |
| Clock.SortedUnique | src/trading_bot/backtesting/clock.py:41-41 | There is only one sorted arrangement of the ticks, whatever the sorting method. |
| Clock.BuildTimeline | src/trading_bot/backtesting/clock.py:19-41 | The loops that collect the ticks yield that timeline. |
| Clock.BeforeTotal | src/trading_bot/backtesting/clock.py:11-16 | Tick order is total and antisymmetric. |
| Clock.BeforeExact | src/trading_bot/backtesting/clock.py:11-41 | Ticks are ordered by time, then as session opening, completion, decision, bar opening, session close, then by the decimal texts of their indexes (a prefix, or smaller at the first difference); so index 10 comes before index 9. |
| Texts.AtMostExact | src/trading_bot/backtesting/clock.py:11-16 | Text order: one is a prefix of the other, or has the smaller character at the first difference. |
| Texts.DigitsRoundTrip | src/trading_bot/backtesting/clock.py:28-40 | The decimal text of an index reads back as the index, holds digits only, and has no leading zero. |
| Causality.NoLookAhead | src/trading_bot/backtesting/engine.py:457-519 | Two validated runs of one configuration and strategy that agree on everything opening before T are identical, state for state, after all ticks before T. |
| Exclusivity.OcoExclusive | src/trading_bot/backtesting/engine.py:366-376 | Of two orders of a symbol's group that are both unfilled at some point of the run, at most one ever fills, and the other is terminal and unfilled from then on. |
| Exclusivity.VolumeShared | src/trading_bot/backtesting/engine.py:270-274 | In every reachable state the fills against one candle take together at most the candle's volume times the rate. |
| Simulations.Simulation.Run | src/trading_bot/backtesting/engine.py:457-519 | The mutable run ends in exactly the state, or the error, of the pure machine. |
| Simulations.Simulation.RunAndReport | src/trading_bot/backtesting/engine.py:457-551 | A finished run is reported on its own curve, fills and trades, and the report reconciles. |
| Simulations.Simulation.ExecuteBar | src/trading_bot/backtesting/engine.py:232-376 | The loop over eligible orders with shared remaining volume computes the prescribed execution. |
| Simulations.Simulation.Prioritise | src/trading_bot/backtesting/engine.py:236-269 | Eligibility, ambiguity warning and sorting give the prescribed queue. |
| Simulations.Simulation.VisitOrder | src/trading_bot/backtesting/engine.py:275-365 | One loop body: trigger, attempt, and the volume left. |
| Simulations.Simulation.AttemptFill | src/trading_bot/backtesting/engine.py:286-347 | Pre-checks, incremental costs and the fill, as `Operations.FillingExact` writes them out. |
| Simulations.Simulation.BookFill | src/trading_bot/backtesting/engine.py:339-376 | Apply, record, publish, move the order, cancel its group. |
| Simulations.Simulation.EvaluateStrategy | src/trading_bot/backtesting/engine.py:382-450 | The strategy is shown its symbol's view and its checked batch is served in order. |
| Simulations.Simulation.Complete | src/trading_bot/backtesting/engine.py:232-380 | A completed bar, including the strategy, ends in the state whose marks are `Marks.MarkedAtCompletion`. |
| Simulations.Simulation.OpenBar | src/trading_bot/backtesting/engine.py:478-502 | At the cutoff opening a held symbol's orders are cancelled and its liquidation is placed. |
| Simulations.Simulation.CloseSession | src/trading_bot/backtesting/engine.py:503-519 | Expire, refuse to carry inventory, mark. |
| Simulations.Simulation.PlaceOrder | src/trading_bot/backtesting/engine.py:172-217 | The appended order is the one `Operations.PlacementExact` writes out. |
| Simulations.Simulation.TransitionWhere | src/trading_bot/backtesting/engine.py:219-230 | The loop of transitions over all orders. |
| Simulations.Simulation.RecordEquity | src/trading_bot/backtesting/engine.py:452-455 | Mark, append, publish. |
| Simulations.Simulation.Validate | src/trading_bot/backtesting/engine.py:124-164 | Same verdict, openings and cutoffs as the pure validation. |
| Strategies.CheckedExact | src/trading_bot/strategies/runtime.py:35-68 | A batch passes exactly when no request is at fault, each judged with the references before it, and then all references are recorded. |
| Admission.FaultExact | src/trading_bot/strategies/runtime.py:45-64 | A request passes if and only if it has the context's symbol and times, before the close, under a new name; a placement has its features, a withdrawal a reason and only ordinary orders of the symbol as targets. |
| Admission.ReleasedExact | src/trading_bot/strategies/runtime.py:28-68 | A batch is released if and only if the context is proper, the strategy replies, at most ten thousand names are taken in all, and every request passes with the names before it taken. |
| Strategies.CheckedBatch | src/trading_bot/strategies/runtime.py:37-68 | An accepted batch has new, pairwise different references, the context's symbol and times before the close, and cancels only unforced orders of the symbol. |
| Strategies.StrategyRuntime.Evaluate | src/trading_bot/strategies/runtime.py:28-68 | The checking loop releases the batch and records its references, or raises and leaves the references alone. |
| Baseline.BaselineTrendMomentumStrategy.Evaluate | src/trading_bot/strategies/baseline.py:125-306 | The object returns the prescribed requests or error and ends in the prescribed state. |
| Baseline.BaselineTrendMomentumStrategy.Hold | src/trading_bot/strategies/baseline.py:158-255 | The loop form of the branch of a held position, tied to the decision that `Decisions.HoldingExact` writes out. |
| Baseline.BaselineTrendMomentumStrategy.Protect | src/trading_bot/strategies/baseline.py:214-255 | Stop and target in a fresh group, or an error for a nonpositive stop. |
| Baseline.BaselineTrendMomentumStrategy.Finish | src/trading_bot/strategies/baseline.py:257-278 | The branch of a flat symbol with an entry on record. |
| Baseline.BaselineTrendMomentumStrategy.Enter | src/trading_bot/strategies/baseline.py:279-306 | The branch that may enter. |
| Decisions.HoldingExact | src/trading_bot/strategies/baseline.py:158-255 | What is decided for a held position, in terms of the context: nothing while a market exit is under way; else, if ema_10 and ema_20 are both available and ema_10 <= ema_20, everything is withdrawn and sold; else the remainder of a stop that began to fill is sold unless it still covers all; else a fitting pair is left alone and any other is replaced by one at the prices nearest to average entry minus and plus ATR multiples. |
| Decisions.ReversalIff | src/trading_bot/strategies/baseline.py:161-181 | A REVERSAL sale of the whole holding is requested if and only if no market exit is under way and both averages are available with ema_10 <= ema_20. |
| Decisions.FlatExact | src/trading_bot/strategies/baseline.py:257-278 | Without a holding but with an entry on record: when nothing happens, when the leftovers are withdrawn, and when the entry is forgotten. |
| Decisions.EnteringExact | src/trading_bot/strategies/baseline.py:279-306 | One market purchase of the configured quantity if the entry is due, with the ATR, time and name put on record; else nothing. |
| Decisions.SignalExact | src/trading_bot/strategies/baseline.py:136-146 | The signal's comparisons on the seven features, none of them unavailable. |
| Decisions.AsideExact | src/trading_bot/strategies/baseline.py:145-154 | At or after the cutoff, or the close, nothing is requested and only the arming changes. |
| Guarantees.Coverage | src/trading_bot/strategies/baseline.py:158-255 | After every evaluation before the cutoff the symbol's working sales are exactly one market exit for the holding, one part-filled stop for the holding, or an unfilled stop and target in one group, each for the holding, priced at the frozen ATR's distances from the average entry price. |
| Guarantees.NeverPyramids | src/trading_bot/strategies/baseline.py:256-306 | In every reachable state a symbol has at most one working purchase, which with the holding stays within the configured quantity; a held symbol has a positive entry ATR. |
| Guarantees.SalesNeverRejected | src/trading_bot/backtesting/engine.py:312-365 | In every reachable state of a baseline run no sale was rejected, at most one leg of every pair has a fill, and no ordinary order is named FORCED_SESSION_EXIT. |
| Guarantees.BaselineOutcome | src/trading_bot/strategies/baseline.py:158-160 | A validated baseline run fails only for late features, a nonpositive stop, the intent limit or an incomplete forced exit; the missing-ATR error is unreachable. |
| Guarantees.HeldStateFrozen | src/trading_bot/strategies/baseline.py:158-255 | While the symbol is held the entry ATR, cycle, entry reference and entry time do not change. |
| Guarantees.EntriesExact | src/trading_bot/strategies/baseline.py:279-306 | A purchase is requested if and only if the entry is due: the signal's conditions on the features, armed, inside the window of local time, in time, nothing held, working or on record; then it is one market order for the configured quantity, and exactly an evaluation without a signal arms the strategy again. |
| Protection.EvaluationJoint | src/trading_bot/strategies/baseline.py:125-306 | One evaluation served by the simulator keeps the joint invariant of strategy state, working orders and inventory, and protects what is held. |
| ClosedLoop.VisitedJoint | src/trading_bot/backtesting/engine.py:275-376 | Every visit of the fill loop keeps that joint invariant and never rejects a working sale. |
| BaselineRuns.ReachableLoop | src/trading_bot/backtesting/engine.py:457-519 | The joint invariant holds of every symbol in every reachable state. |
| Numbering.BatchAccepted | src/trading_bot/strategies/runtime.py:35-68 | The runtime accepts every batch the baseline produces before the close. |
| Numbering.EvaluationNumbered | src/trading_bot/strategies/baseline.py:84-86 | References within a batch are numbered upwards from the symbol's counter. |
| References.RenderInjective | src/trading_bot/strategies/baseline.py:84-86 | Different references have different texts, none of which is FORCED_SESSION_EXIT. |
| References.TagTestIsTextTest | src/trading_bot/strategies/baseline.py:166-192 | ":TAG:" occurs in a reference's text exactly when TAG is its tag. |
| References.CycleTestIsTextTest | src/trading_bot/strategies/baseline.py:181-186 | The text starts with "symbol:cycle:" exactly when these are its symbol and cycle. |
| Boundaries.LiquidationCancellable | src/trading_bot/backtesting/engine.py:441-448 | As long as the run has intents left, some batch that the runtime lets pass cancels a liquidation if and only if some ordinary order of the symbol bears its name. |
| Boundaries.LiquidationCancelled | src/trading_bot/strategies/runtime.py:28-68 | A sound state with an active liquidation, and a strategy whose first evaluation there is released by the runtime and cancels it. |
| Boundaries.FlattenFailsExactly | src/trading_bot/backtesting/engine.py:493-504 | Placing a liquidation fails, with an invalid intent, if and only if the holding exceeds one billion shares. |
| Boundaries.OpenBarFailsExactly | src/trading_bot/backtesting/engine.py:478-504 | In a healthy state a bar opening fails if and only if it is the cutoff opening of a symbol so held. |
| Boundaries.OpeningTickFailsExactly | src/trading_bot/backtesting/engine.py:478-504 | The same of the run's tick: it ends the run if and only if that is so. |
| Boundaries.HugeHoldingStuck | src/trading_bot/backtesting/orders.py:51-51 | Two purchases of a billion shares each leave a healthy state whose liquidation fails. |
| Solvency.SaleCashExact | src/trading_bot/backtesting/accounting.py:58-74 | A sale leaves non-negative cash if and only if its charges are covered by the cash before it and its proceeds. |
| Solvency.CashExact | src/trading_bot/backtesting/accounting.py:44-74 | Over any bookable fills cash never goes negative if and only if every sale is covered so. |
| Solvency.SolventExactly | src/trading_bot/backtesting/engine.py:457-519 | In every reachable state of every run: no point of its history had negative cash if and only if every sale in it was covered. |
| Solvency.ReachableCharged | src/trading_bot/backtesting/engine.py:324-338 | In every reachable state each fill's charges are what its value adds to the cumulative charge of its own order. |
| Solvency.CoveredRunsSolvent | src/trading_bot/backtesting/engine.py:457-519 | If the cost model covers sales of some least value, then no run whose sales reach it ever has negative cash. |
| Prices.ReachablePriced | src/trading_bot/backtesting/engine.py:270-346 | In every reachable state each fill's base is what the candle it names offers its order (the open, the level, or the open beyond the level), its price is exactly that base with the configured slippage, or the limit, and stops with fills were triggered. |
| Prices.TriggeringExact | src/trading_bot/backtesting/engine.py:281-285 | A reached stop that was never triggered records its trigger now, once; no other order does. |
| Prices.CoveredInputsSolvent | src/trading_bot/backtesting/engine.py:457-519 | A check of the inputs alone: if moreover one share at any candle's low, slipped, reaches that value, no run on these candles ever has negative cash, whatever the strategy does. |
| Prices.ReferenceSolvent | config/groww_nse_intraday_reference_v1.yaml:16-29 | With the reference profile, candles whose slipped lows are worth ten paise never lead to negative cash. |
| Solvency.ZeroCostsSolvent | src/trading_bot/backtesting/costs.py:79-86 | Without costs no reachable state has negative cash. |
| Calendars.WholeSessionsTiled | src/trading_bot/data/calendar.py:186-203 | In a list of whole sessions, the slots that open in a session are exactly that session's tiles, adjacent and half-open, and the session's only ones. |
| Calendars.ShorteningEnd | src/trading_bot/data/calendar.py:200-201 | Shortening the range keeps exactly the slots that complete by the new end. |
| Calendars.ExpectedAscend | src/trading_bot/data/calendar.py:186-203 | Expected slots come in time order and do not overlap. |
| Calendars.ExpectedInside | src/trading_bot/data/calendar.py:200-201 | Every expected slot lies in the range and in one session. |
| Calendars.ExpectedBars | src/trading_bot/data/calendar.py:186-203 | The nested loops terminate and yield the expected slots. |
| Calendars.NextBar | src/trading_bot/data/calendar.py:205-214 | The earliest expected opening after an instant, or none. |
| Calendars.BoundCoversSlots | src/trading_bot/features/engine.py:48-53 | The feature engine's pre-check bound is never below the number of slots. |
| Formulas.LookbackExact | src/trading_bot/features/registry.py:57-77 | For every accepted specification other than the three clock features, on positive prices and non-negative volumes, the calculation never raises and is undefined exactly before the declared look-back or for a zero volume denominator. |
| Segments.OutputExact | src/trading_bot/features/engine.py:193-232 | The same for every accepted specification, the clock features included, on a run of aligned candles. |
| Formulas.CalculateCausal | src/trading_bot/features/price.py:9-52 | Cutting off later candles leaves every earlier value of every formula as it was. |
| Formulas.StrengthBounded | src/trading_bot/features/price.py:26-33 | RSI is defined from its period on and lies within 0 and 100. |
| Formulas.VolumeRatioDefined | src/trading_bot/features/volume.py:7-11 | The volume ratio is defined exactly when its window is complete and not all zero. |
| Registry.ResolvedShape | src/trading_bot/features/registry.py:49-77 | An accepted specification is registered, has exactly its parameters within 1 and 500, and fast before slow. |
| Numerics.Lag | src/trading_bot/features/numerics.py:11-15 | The array is filled with the lagged series. |
| Numerics.Rolling | src/trading_bot/features/numerics.py:18-25 | The array is filled with the reductions of the sliding windows. |
| Numerics.Smooth | src/trading_bot/features/numerics.py:28-39 | The array is filled, in one pass, with the series whose law is `FeatureLaws.SmoothedExact`. |
| Numerics.Divide | src/trading_bot/features/numerics.py:42-46 | The array is filled with quotients, undefined at zero denominators. |
| Numerics.SmoothedDefined | src/trading_bot/features/numerics.py:28-39 | A smoothed series is defined exactly from offset + period - 1 on. |
| FeatureLaws.SmoothedExact | src/trading_bot/features/numerics.py:28-39 | At the seed period times the value is the sum of the window; after it an EMA satisfies (period + 1)(s[i] - s[i-1]) = 2(x[i] - s[i-1]) and Wilder's mean period (s[i] - s[i-1]) = x[i] - s[i-1]. |
| FeatureLaws.FeatureExact | src/trading_bot/features/price.py:9-52 | For each of the twenty price and volume features the law its values obey on the candles, from returns, means and window extremes attained in the window to RSI, volatility and ATR, each for every index at which it is defined. |
| FeatureLaws.RowMeans | src/trading_bot/features/engine.py:193-271 | Every published row copies its candle's symbol, times and close, and each of its values obeys its feature's law on the candles of its own run, the three clock features included. |
| Numerics.RolledDefined | src/trading_bot/features/numerics.py:18-25 | A rolled series is defined exactly when its whole window is. |
| Segments.RowExact | src/trading_bot/features/engine.py:233-270 | No row is ever rejected; each output is null exactly before its look-back or on a zero volume denominator, with exactly that reason. |
| Segments.RowCausal | src/trading_bot/features/engine.py:193-271 | A row depends on its run only up to its own candle. |
| Segments.SeriesCausal | src/trading_bot/features/engine.py:116-134 | Two series that agree on their first k candles have the same first k rows, however they go on. |
| Segments.RunsMaximal | src/trading_bot/features/engine.py:120-126 | Runs consist of consecutive slots and are not continued from before. |
| Segments.SeriesRows | src/trading_bot/features/engine.py:116-134 | The segmentation loop yields one row per candle, each made from its own run. |
| Segments.SegmentRows | src/trading_bot/features/engine.py:193-271 | The rows of one run, none of them an error. |
| Segments.BuildRow | src/trading_bot/features/engine.py:234-270 | The loop over the outputs fills values and reasons of one validated row. |
| Segments.FilledValidates | src/trading_bot/features/validation.py:8-26 | The row validation accepts every row so made. |
| Ingestion.IngestionService.Ingest | src/trading_bot/data/ingestion.py:143-289 | All or nothing; on success received = inserted + skipped + rejected, every rejection and repeat has its issue, MISSING_BAR issues name exactly the unobserved slots, the store is merged by first observation, and a stored candle becomes available at the completion of the slot it opens. |
| Ingestion.IngestionService.Classify | src/trading_bot/data/ingestion.py:149-192 | The row loop collects exactly the valid candles and counts the rest as rejected. |
| Ingestion.IngestionService.Merge | src/trading_bot/data/ingestion.py:218-275 | The merge loop inserts exactly first observations and counts repeats and conflicts. |
| Ingestion.IngestionService.NoteGaps | src/trading_bot/data/quality.py:8-34 | Every expected slot without a valid candle is noted, and no other. |
| Ingestion.IngestionService.SymbolIssues | src/trading_bot/data/ingestion.py:201-211 | Of one symbol it is noted first that it is missing altogether, if so, and then its gaps; a large gap is noted exactly from three missing slots on. |
| Ingestion.FirstObservationWins | src/trading_bot/data/ingestion.py:218-275 | Each key keeps its stored candle, or else the first valid incoming one. |
| Ingestion.CompletionsExact | src/trading_bot/data/ingestion.py:124-126 | The expected timestamps are exactly the slots' openings, each with the completion of such a slot. |
| Ingestion.StoreMerged | src/trading_bot/data/ingestion.py:204-275 | The store keeps all old candles and gains exactly first observations, although only stored candles in the requested range were loaded. |
| Ingestion.ReingestIdempotent | src/trading_bot/data/ingestion.py:204-275 | Ingesting the same candles again inserts nothing and leaves the store as it is. |

## Left out

- Databases, advisory locks, migrations, repositories and file or network providers; the candle store is a map, and a failed ingestion leaves it as it was.
- Digests, manifests, identities and provenance checks, including those of the feature engine's input.
- The exchange schedule, time zones and the calendar policy that produce the session list.
- Metrics.Performance: ratios are exact and the square root is any function that is positive exactly where its argument is; the program rounds to floating point. Holding times are in microseconds, and the text of the ratio policy is left out.
- Floating-point rounding, overflow, and the values of logarithm and square root: the feature claims hold for any functions in their place.
- The 40-digit decimal context, apart from the explicit quantisations.
- Size limits of the schema (patterns, lengths, decimal digits, ten thousand targets of one cancellation); quantity, price, reference and reason rules are modelled.
- Event details and order and fill identifiers as text: events carry typed payloads and identifiers are numbers.
- Warnings raised by cost and calendar metadata are an opaque set given to the run; ingestion's calendar and provider warnings are left out.
- Grouping of candles by symbol before, and the final sort of rows after, the per-symbol feature loop.
- NoOp strategy, strategy registry and command line: no behaviour of their own.
- Engine: positions are values in a map rather than objects, so aliasing of a position between two dictionaries is not modelled.
- Simulations.Simulation.Run: on an error only the error is specified, not the abandoned state.
