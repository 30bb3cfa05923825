/** Whole runs and their reports: the books, the trades, the equity curve and the daily P&L agree. */
module Reconciliation {
  import opened Common
  import opened Orders
  import opened Costs
  import opened Accounting
  import opened Trades
  import opened Calendars
  import opened Clock
  import opened FeatureRows
  import opened Strategies
  import opened Engine
  import opened Ledger
  import opened Safety
  import opened Grids
  import opened Runs
  import opened Timing
  import opened Flattening
  import opened Statistics
  import opened Metrics

  // ----- the clock's last tick

  /** The run's last tick is a session close. */
  lemma LastTickCloses(env: Env, grid: Grid)
    requires GridSound(env, grid)
    ensures |Ticks(env)| > 0 && Ticks(env)[|Ticks(env)| - 1].kind == SessionClose
  {
    hide OnGrid, Timeline;
    TimelineExact(env.bars, env.sessions, env.script);
    var n := |env.sessions| - 1;
    var closing := Tick(env.sessions[n].closes, SessionClose, n);
    assert closing in Ticks(env);
    var last := Ticks(env)[|Ticks(env)| - 1];
    var i :| 0 <= i < |Ticks(env)| && Ticks(env)[i] == closing;
    assert last in Ticks(env);
    assert last.timestamp <= closing.timestamp by { NothingLater(env, grid, last); }
    if i < |Ticks(env)| - 1 {
      assert Before(closing, last);
    }
  }

  lemma NothingLater(env: Env, grid: Grid, t: Tick)
    requires GridSound(env, grid) && Scheduled(env.bars, env.sessions, env.script, t)
    ensures t.timestamp <= env.sessions[|env.sessions| - 1].closes
  {
    hide OnGrid;
    match t.kind {
      case BarOpen => var s := BarSession(env, grid, t.index); ClosesBy(env.sessions, s);
      case BarComplete => var s := BarSession(env, grid, t.index); ClosesBy(env.sessions, s);
      case Decision =>
        SessionAtExact(env.sessions, env.script[t.index].createdAt);
        ClosesBy(env.sessions, SessionAt(env.sessions, env.script[t.index].createdAt).value);
      case SessionOpen => ClosesBy(env.sessions, env.sessions[t.index]);
      case SessionClose => ClosesBy(env.sessions, env.sessions[t.index]);
    }
  }

  lemma ClosesBy(sessions: seq<Session>, s: Session)
    requires Separated(sessions) && s in sessions
    ensures s.opens < s.closes <= sessions[|sessions| - 1].closes
  {
  }

  // ----- the equity curve

  /** New equity points are all of one instant. */
  ghost predicate Marked(st: Sim, r: Sim, now: Time) {
    && |st.equity| <= |r.equity|
    && forall i | |st.equity| <= i < |r.equity| :: r.equity[i].timestamp == now
  }

  lemma RecordMarks(st: Sim, now: Time)
    ensures var r := RecordEquity(st, now); r.Ok? ==> Marked(st, r.value, now)
  {
  }

  lemma StepMarks<S>(env: Env, grid: Grid, plan: Plan<S>, w: World<S>, tick: Tick)
    requires GridSound(env, grid) && WorldSound(env, w) && Scheduled(env.bars, env.sessions, env.script, tick)
    requires Step(env, grid, plan, w, tick).Ok?
    ensures Marked(w.sim, Step(env, grid, plan, w, tick).value.sim, tick.timestamp)
  {
    hide Healthy, RecordEquity, MoveWhere, Flatten, NewOrder, OnGrid, Engine.Complete, OpenBar, Extends, Logged;
    match tick.kind {
      case BarComplete => CompleteMarks(env, grid, plan, w, tick.index);
      case Decision => DecideSound(env, grid, w.sim, tick.index);
      case BarOpen => OpenBarSound(env, grid, w.sim, tick.index);
      case SessionOpen => RecordMarks(Emit(w.sim, tick.timestamp, SessionOpened), tick.timestamp);
      case SessionClose =>
        var told := Emit(w.sim, tick.timestamp, SessionClosed);
        MoveWhereExact(told, Anyone(), Expired, tick.timestamp, Text("DAY_SESSION_ENDED"), 0);
        RecordMarks(MoveWhere(told, Anyone(), Expired, tick.timestamp, Text("DAY_SESSION_ENDED"), 0), tick.timestamp);
    }
  }

  lemma CompleteMarks<S>(env: Env, grid: Grid, plan: Plan<S>, w: World<S>, i: nat)
    requires GridSound(env, grid) && WorldSound(env, w) && i < |env.bars|
    requires Engine.Complete(env, grid, plan, w, env.bars[i]).Ok?
    ensures Marked(w.sim, Engine.Complete(env, grid, plan, w, env.bars[i]).value.sim, env.bars[i].availableAt)
  {
    hide Healthy, Settled, EvaluateStrategy, Extends, Logged, Visited, OnGrid, BarFills;
    var s := BarSession(env, grid, i);
    var cutoff := grid.cutoffs[s.opens];
    SettledKeeps(env, w.sim, env.bars[i], cutoff, (x: Sim) => true);
    EvaluateSound(env, grid, plan, World(Settled(env, w.sim, env.bars[i], cutoff).value, w.runtime), i, s, cutoff);
  }

  /** The curve starts at the capital, never runs backwards, and is up to date. */
  ghost predicate CurveTimed(env: Env, k: nat, equity: seq<EquityPoint>)
    requires env.sessions != [] && k <= |Ticks(env)|
  {
    && equity != [] && equity[0].equity == env.capital && equity[0].timestamp == env.sessions[0].opens
    && InOrder(equity) && forall i | 0 <= i < |equity| :: equity[i].timestamp <= Now(env, k)
  }

  lemma CurveGrows(env: Env, k: nat, st: Sim, r: Sim)
    requires env.sessions != [] && k < |Ticks(env)| && CurveTimed(env, k, st.equity)
    requires Extends(st, r) && Marked(st, r, Ticks(env)[k].timestamp) && Now(env, k) <= Ticks(env)[k].timestamp
    ensures CurveTimed(env, k + 1, r.equity)
  {
    hide Timeline, Carried;
    assert forall i | 0 <= i < |st.equity| :: r.equity[i] == st.equity[i];
  }

  lemma {:induction false} EquityChronological<S>(env: Env, grid: Grid, plan: Plan<S>, k: nat)
    requires GridSound(env, grid) && k <= |Ticks(env)| && After(env, grid, plan, k).Ok?
    ensures CurveTimed(env, k, After(env, grid, plan, k).value.sim.equity)
  {
    hide WorldSound, Step, Timeline, Extends, GridSound, CurveTimed, Marked;
    GridHasSessions(env, grid);
    if k == 0 {
      StartSound(env, plan);
      CurveStarts(env, After(env, grid, plan, 0).value.sim.equity);
    } else {
      HistoryExtends(env, grid, plan, k - 1, k);
      EquityChronological(env, grid, plan, k - 1);
      ReachableSound(env, grid, plan, k - 1);
      TickScheduled(env, k - 1);
      StepMarks(env, grid, plan, After(env, grid, plan, k - 1).value, Ticks(env)[k - 1]);
      EventsChronological(env, grid, plan, k - 1);
      TicksFrom(env, grid, k - 1);
      CurveGrows(env, k - 1, After(env, grid, plan, k - 1).value.sim, After(env, grid, plan, k).value.sim);
    }
  }

  lemma CurveStarts(env: Env, equity: seq<EquityPoint>)
    requires env.sessions != [] && |equity| == 1 && equity[0].equity == env.capital && equity[0].timestamp == env.sessions[0].opens
    ensures CurveTimed(env, 0, equity)
  {
    hide Timeline;
  }

  // ----- completed runs

  /** The final state of a completed run is the state after all its ticks, the last of which closed the last session. */
  lemma RunReaches<S>(env: Env, plan: Plan<S>) returns (grid: Grid)
    requires Separated(env.sessions) && Run(env, plan).Ok?
    ensures GridSound(env, grid) && |Ticks(env)| > 0 && Ticks(env)[|Ticks(env)| - 1].kind == SessionClose
    ensures After(env, grid, plan, |Ticks(env)|) == Run(env, plan)
  {
    hide Validate, Timeline, Ticks, After, GridSound;
    grid := Validate(env).value;
    ValidateSound(env);
    GridHasSessions(env, grid);
    LastTickCloses(env, grid);
  }

  /**
   * A completed run holds nothing, has no active order, and its books agree with its fills: the trades' net P&L
   * is the change in equity, which is execution P&L less all charges.
   */
  lemma CompletedRun<S>(env: Env, plan: Plan<S>)
    requires Separated(env.sessions) && Run(env, plan).Ok?
    ensures var st := Run(env, plan).value.sim;
            && Flat(st.book) && (forall i | 0 <= i < |st.orders| :: !st.orders[i].Active())
            && st.equity != [] && st.equity[0].equity == env.capital && InOrder(st.equity)
            && var ending := st.equity[|st.equity| - 1].equity;
               && ending == st.book.cash
               && ending - env.capital == Sum(st.book.trades, NetOf) == Sum(st.book.trades, ExecutionOf) - Sum(st.fills, Fee)
               && Sum(st.book.trades, ExecutionOf) == Sum(st.fills, SellValue) - Sum(st.fills, BuyValue)
               && ending - env.capital + Sum(st.fills, Fee) + Sum(st.fills, SlippageOf)
                  == Sum(st.fills, SellBase) - Sum(st.fills, BuyBase)
  {
    hide Run, Timeline, Ticks, After, GridSound, Flat, Healthy, Adverse, Replay, Positive, Sum, WorldSound;
    var grid := RunReaches(env, plan);
    var k := |Ticks(env)|;
    var st := Run(env, plan).value.sim;
    GridHasSessions(env, grid);
    FlatAfterClose(env, grid, plan, k);
    EquityChronological(env, grid, plan, k);
    ReachableSound(env, grid, plan, k);
    WorldHealthy(env, Run(env, plan).value);
    HealthySound(env, st);
    BooksReplayed(env, st);
    SoundPositive(env, st);
    FlatReconciles(env.release, env.capital, st.fills);
  }

  lemma BooksReplayed(env: Env, st: Sim)
    requires Sound(env, st)
    ensures Replay(env.release, env.capital, st.fills) == Ok(st.book)
  {
  }

  /**
   * The report of a completed run reconciles: net P&L is the sum of the trades' net P&L and of the daily P&L, and is
   * execution P&L less costs; execution P&L is sales less purchases; gross P&L is sales less purchases at base
   * prices; profit less loss is net P&L; and exposure is part of the observed time.
   */
  lemma ReportReconciles<S>(env: Env, plan: Plan<S>, root: real -> real, report: Report)
    requires Separated(env.sessions) && Run(env, plan).Ok?
    requires var st := Run(env, plan).value.sim; Reported(root, st.equity, st.fills, st.book.trades, report)
    ensures var st := Run(env, plan).value.sim;
            && report.startingCapital == env.capital
            && report.netPnl == Sum(st.book.trades, NetOf) == Sum(report.dailyPnl, Amount) == report.executionPnl - report.costs.Total()
            && report.executionPnl == Sum(st.book.trades, ExecutionOf) == Sum(st.fills, SellValue) - Sum(st.fills, BuyValue)
            && report.grossPnl == Sum(st.fills, SellBase) - Sum(st.fills, BuyBase)
            && report.grossProfit - report.grossLoss == report.netPnl
            && report.winners + report.losers <= |st.book.trades|
            && 0 <= report.exposed <= report.total
  {
    hide Run, DailyLedger, Sum, SumInt, SumBreakdown, Quotient, CostBreakdown.Total, Observed, Exposed, Flat;
    var st := Run(env, plan).value.sim;
    CompletedRun(env, plan);
    BreakdownTotals(st.fills);
    DailySums(st.equity, report.dailyPnl);
    Counted(st.book.trades);
    ExposureWithin(st.equity, |st.equity| - 1);
  }

  // ----- the report's statistics

  /** No point up to j stands above point i. */
  ghost predicate HighUntil(equity: seq<EquityPoint>, i: int, j: int) {
    0 <= i <= j < |equity| && forall k | 0 <= k <= j :: equity[k].equity <= equity[i].equity
  }

  /** The peak recorded with point j of a sound curve is the highest equity so far. */
  lemma {:induction false} PeakReached(capital: real, equity: seq<EquityPoint>, j: nat) returns (h: nat)
    requires CurveSound(capital, equity) && j < |equity| && equity[0].equity == capital
    ensures HighUntil(equity, h, j) && equity[j].peak == equity[h].equity
  {
    hide CurveSound, PeakOf;
    PeakGrows(capital, equity, j);
    h := j;
    if j > 0 {
      var before := PeakReached(capital, equity, j - 1);
      assert MaxReal(equity[before].equity, equity[j].equity) == equity[j].peak;
      if equity[before].equity > equity[j].equity {
        h := before;
      }
    }
  }

  lemma PeakGrows(capital: real, equity: seq<EquityPoint>, j: nat)
    requires CurveSound(capital, equity) && j < |equity| && equity[0].equity == capital
    ensures equity[j].peak == MaxReal(if j == 0 then capital else equity[j - 1].peak, equity[j].equity)
  {
    assert equity[..j + 1][..j] == equity[..j];
    assert j > 0 ==> equity[j - 1].peak == PeakOf(capital, equity[..j]);
  }

  /** A fall from i to a later j, absolute and as a share of the height. */
  function Fall(equity: seq<EquityPoint>, i: nat, j: nat): real
    requires i < |equity| && j < |equity|
  {
    equity[i].equity - equity[j].equity
  }

  lemma DrawdownIsFall(capital: real, equity: seq<EquityPoint>, i: nat, j: nat)
    requires CurveSound(capital, equity) && equity != [] && equity[0].equity == capital && HighUntil(equity, i, j)
    ensures equity[j].drawdown == Fall(equity, i, j) && equity[i].equity > 0.0
    ensures equity[j].drawdownPct == Quotient(Fall(equity, i, j), equity[i].equity)
  {
    var h := PeakReached(capital, equity, j);
    hide PeakOf, Quotient;
    assert equity[h].equity <= equity[i].equity <= equity[h].equity;
  }

  /**
   * The maximum drawdown of a sound curve is the deepest fall from any point to a later one, and its percentage the
   * steepest fall from a point to a later one that it overlooks.
   */
  lemma DeepestFall(capital: real, equity: seq<EquityPoint>, deepest: real, steepest: real)
    requires CurveSound(capital, equity) && equity != [] && equity[0].equity == capital
    requires IsGreatest(equity, Drawdown, deepest) && IsGreatest(equity, DrawdownPct, steepest)
    ensures forall i: nat, j: nat | i <= j < |equity| :: Fall(equity, i, j) <= deepest
    ensures exists i: nat, j: nat :: i <= j < |equity| && Fall(equity, i, j) == deepest
    ensures forall i: nat, j: nat | HighUntil(equity, i, j) && equity[i].equity > 0.0 :: Quotient(Fall(equity, i, j), equity[i].equity) <= steepest
    ensures exists i: nat, j: nat :: HighUntil(equity, i, j) && equity[i].equity > 0.0 && Quotient(Fall(equity, i, j), equity[i].equity) == steepest
  {
    hide CurveSound, Quotient;
    forall i: nat, j: nat | i <= j < |equity|
      ensures Fall(equity, i, j) <= deepest
    {
      var h := PeakReached(capital, equity, j);
      DrawdownIsFall(capital, equity, h, j);
      assert Drawdown(equity[j]) <= deepest;
    }
    forall i: nat, j: nat | HighUntil(equity, i, j) && equity[i].equity > 0.0
      ensures Quotient(Fall(equity, i, j), equity[i].equity) <= steepest
    {
      DrawdownIsFall(capital, equity, i, j);
      assert DrawdownPct(equity[j]) <= steepest;
    }
    var a: nat :| a < |equity| && Drawdown(equity[a]) == deepest;
    var b: nat :| b < |equity| && DrawdownPct(equity[b]) == steepest;
    var ha := PeakReached(capital, equity, a);
    var hb := PeakReached(capital, equity, b);
    DrawdownIsFall(capital, equity, ha, a);
    DrawdownIsFall(capital, equity, hb, b);
    assert Fall(equity, ha, a) == deepest;
  }

  /**
   * The statistics of a completed run: drawdown is the deepest fall along the whole curve; expectancy times the number
   * of trades is the net P&L; money was made exactly when the profit factor exceeds one; turnover is purchases plus
   * sales; and exposure is a percentage.
   */
  lemma StatisticsReconcile<S>(env: Env, plan: Plan<S>, root: real -> real, report: Report)
    requires Separated(env.sessions) && Run(env, plan).Ok?
    requires var st := Run(env, plan).value.sim; Reported(root, st.equity, st.fills, st.book.trades, report)
    ensures var st := Run(env, plan).value.sim;
            && (forall i: nat, j: nat | i <= j < |st.equity| :: Fall(st.equity, i, j) <= report.maxDrawdown)
            && (exists i: nat, j: nat :: i <= j < |st.equity| && Fall(st.equity, i, j) == report.maxDrawdown)
            && (report.trading.expectancy.Some? ==> report.trading.expectancy.value * |st.book.trades| as real == report.netPnl)
            && (report.trading.expectancy.None? ==> report.netPnl == 0.0)
            && (report.trading.profitFactor.Some? ==> (report.trading.profitFactor.value > 1.0 <==> report.endingEquity > env.capital))
            && report.turnover == Sum(st.fills, BuyValue) + Sum(st.fills, SellValue)
            && 0.0 <= report.exposurePercentage <= 100.0
  {
    hide Run, DailyLedger, Sum, SumInt, SumBreakdown, Quotient, CostBreakdown.Total, Observed, Exposed, Flat, Fall, Rated;
    hide IsGreatest, CurveSound, Summarises, Returns;
    var st := Run(env, plan).value.sim;
    CompletedRun(env, plan);
    CompletedCurve(env, plan);
    DeepestFall(env.capital, st.equity, report.maxDrawdown, report.maxDrawdownPct);
    TradesSummed(st.book.trades, report.trading);
    TurnoverSplits(st.fills);
    ExposureWithin(st.equity, |st.equity| - 1);
    PercentageWithin(report.exposed, report.total);
    NothingSummed(st.book.trades);
  }

  lemma NothingSummed(trades: seq<Trade>)
    ensures trades == [] ==> Sum(trades, NetOf) == 0.0
  {
  }

  lemma CompletedCurve<S>(env: Env, plan: Plan<S>)
    requires Separated(env.sessions) && Run(env, plan).Ok?
    ensures CurveSound(env.capital, Run(env, plan).value.sim.equity)
  {
    hide Run, After, Ticks, GridSound, WorldSound, CurveSound;
    var grid := RunReaches(env, plan);
    GridHasSessions(env, grid);
    ReachableSound(env, grid, plan, |Ticks(env)|);
    WorldHealthy(env, Run(env, plan).value);
  }

  /**
   * Every trade of a reachable state reports exactly its own fills: its execution P&L is their sale value less their
   * purchase value, and its gross P&L is the same at base prices, because every fill is on the adverse side of base.
   */
  lemma TradesReconcile<S>(env: Env, grid: Grid, plan: Plan<S>, k: nat, i: nat)
    requires GridSound(env, grid) && k <= |Ticks(env)| && After(env, grid, plan, k).Ok?
    requires i < |After(env, grid, plan, k).value.sim.book.trades|
    ensures var st := After(env, grid, plan, k).value.sim;
            && |ClosedGroups(st.fills)| == |st.book.trades|
            && var group, t := ClosedGroups(st.fills)[i], st.book.trades[i];
               && Reports(t, group)
               && t.grossPnl == Sum(group, SellBase) - Sum(group, BuyBase)
  {
    hide After, Timeline, Ticks, GridSound, WorldSound, Healthy, Adverse, Replay, Positive, Sum, Reports, ClosedGroups;
    GridHasSessions(env, grid);
    ReachableSound(env, grid, plan, k);
    var w := After(env, grid, plan, k).value;
    WorldHealthy(env, w);
    HealthySound(env, w.sim);
    BooksReplayed(env, w.sim);
    SoundPositive(env, w.sim);
    TradeGrossAtBase(env.release, env.capital, w.sim.fills, i);
    LedgerAudit(env.release, env.capital, w.sim.fills);
  }

  /** Every recorded equity is capital plus realized and unrealized P&L less fees, at the moment it is recorded. */
  lemma MarksReconcile(env: Env, st: Sim, now: Time)
    requires Healthy(env, st)
    ensures var r := RecordEquity(st, now);
            && r.Ok? && |r.value.equity| == |st.equity| + 1
            && var point := r.value.equity[|st.equity|];
               point.equity == env.capital + point.realizedPnl + point.unrealizedPnl - Sum(st.fills, Fee)
  {
    hide Sound, CurveSound, Replay, Positive, Mark, MarketValue, SumOver, Adverse, Sum;
    RecordSound(env, st, now);
    BooksReplayed(env, st);
    SoundPositive(env, st);
    Conservation(env.release, env.capital, st.fills);
    MarkReconciles(env.release, env.capital, st.fills, st.peak, now, st.prices);
  }

  // ----- the order book of a reachable state

  /** The fills of one order, in sequence. */
  function FillsOf(fills: seq<Fill>, id: nat): seq<Fill> {
    if fills == [] then []
    else FillsOf(fills[..|fills| - 1], id) + if fills[|fills| - 1].orderId == id then [fills[|fills| - 1]] else []
  }

  function Quantity(f: Fill): int { f.quantity }
  function Turnover(f: Fill): real { Value(f.quantity, f.price) }

  lemma {:induction false} FillsOfSums(fills: seq<Fill>, id: nat)
    ensures SumInt(fills, SharesFor(id)) == SumInt(FillsOf(fills, id), Quantity)
    ensures Sum(fills, ValueFor(id)) == Sum(FillsOf(fills, id), Turnover)
    ensures CostsFor(fills, id) == SumBreakdown(FillsOf(fills, id))
  {
    hide Value, CostBreakdown.Plus;
    if fills != [] {
      var n := |fills| - 1;
      FillsOfSums(fills[..n], id);
      if fills[n].orderId == id {
        SumIntPush(FillsOf(fills[..n], id), fills[n], Quantity);
        SumPush(FillsOf(fills[..n], id), fills[n], Turnover);
        SumBreakdownPush(FillsOf(fills[..n], id), fills[n]);
      } else {
        assert FillsOf(fills, id) == FillsOf(fills[..n], id);
      }
    }
  }

  /**
   * Order-book consistency, in every reachable state: an order's own fills add up to its filled quantity and
   * turnover, FILLED means nothing remains, only stops are ever triggered, and however it was cut into fills
   * their charges add up, component by component, to one cumulative charge on its turnover.
   */
  lemma OrderBookConsistent<S>(env: Env, grid: Grid, plan: Plan<S>, k: nat, i: nat)
    requires GridSound(env, grid) && k <= |Ticks(env)| && After(env, grid, plan, k).Ok?
    requires i < |After(env, grid, plan, k).value.sim.orders|
    ensures var st := After(env, grid, plan, k).value.sim;
            var o, own := st.orders[i], FillsOf(st.fills, i + 1);
            && o.orderId == i + 1 && 0 <= o.filledQuantity <= o.intent.quantity
            && o.filledQuantity == SumInt(own, Quantity) && o.executedTurnover == Sum(own, Turnover)
            && (o.status == Filled <==> o.Remaining() == 0)
            && (o.EverTriggered() ==> o.intent.orderType == StopMarket)
            && Cumulative(env.costs, o.intent.side, o.executedTurnover, o.forced) == Ok(SumBreakdown(own))
            && forall j | 0 <= j < |st.fills| :: NO_COSTS.AtMost(st.fills[j].costs)
  {
    hide After, Timeline, Ticks, GridSound, WorldSound, Healthy, Adverse, Replay, Cumulative, FillsOf, Sum, SumInt, SumBreakdown, CostsFor;
    GridHasSessions(env, grid);
    ReachableSound(env, grid, plan, k);
    var w := After(env, grid, plan, k).value;
    WorldHealthy(env, w);
    HealthySound(env, w.sim);
    SoundOrder(env, w.sim, i);
    FillsOfSums(w.sim.fills, i + 1);
    forall j | 0 <= j < |w.sim.fills|
      ensures NO_COSTS.AtMost(w.sim.fills[j].costs)
    {
      assert FillSound(w.sim.orders, w.sim.fills[j]);
    }
  }

  /** Once terminal, an order never changes again; once triggered, it stays triggered and hence priced at market. */
  lemma OrdersSettle<S>(env: Env, grid: Grid, plan: Plan<S>, j: nat, k: nat, i: nat, bar: Execution.Bar)
    requires GridSound(env, grid) && j <= k <= |Ticks(env)| && After(env, grid, plan, k).Ok?
    requires After(env, grid, plan, j).Ok? ==> i < |After(env, grid, plan, j).value.sim.orders|
    ensures After(env, grid, plan, j).Ok? && i < |After(env, grid, plan, k).value.sim.orders|
    ensures var before, later := After(env, grid, plan, j).value.sim.orders[i], After(env, grid, plan, k).value.sim.orders[i];
            && later.intent == before.intent
            && (!before.Active() ==> later == before)
            && (before.EverTriggered() ==> Execution.BasePrice(later, bar) == Some(bar.open))
  {
    hide After, Timeline, Ticks, GridSound, WorldSound;
    GridHasSessions(env, grid);
    HistoryExtends(env, grid, plan, j, k);
    var before, later := After(env, grid, plan, j).value.sim.orders[i], After(env, grid, plan, k).value.sim.orders[i];
    assert Carried(before, later);
  }

  /** A history that can be booked can be booked up to any point, and no purchase in it leaves negative cash. */
  lemma {:induction false} ReplayPrefix(release: Release, capital: real, fills: seq<Fill>, n: nat)
    requires Positive(fills) && Replay(release, capital, fills).Ok? && n <= |fills|
    ensures Replay(release, capital, fills[..n]).Ok? && WellKept(Replay(release, capital, fills[..n]).value)
    ensures n > 0 && fills[n - 1].side == Buy ==> Replay(release, capital, fills[..n]).value.cash >= 0.0
    decreases |fills| - n, |fills|
  {
    hide Apply;
    if n == |fills| {
      assert fills[..n] == fills;
      ReplayKept(release, capital, fills);
      if n > 0 {
        ReplayKept(release, capital, fills[..n - 1]);
        ApplySucceeds(release, Replay(release, capital, fills[..n - 1]).value, fills[n - 1]);
      }
    } else {
      var m := |fills| - 1;
      assert fills[..m][..n] == fills[..n];
      ReplayPrefix(release, capital, fills[..m], n);
    }
  }

  /**
   * The accounting guards never fire, in any run: the books accepted every fill the simulator recorded, one by one;
   * at no point was a position short, and no purchase left negative cash.
   */
  lemma GuardsNeverFire<S>(env: Env, grid: Grid, plan: Plan<S>, k: nat, n: nat)
    requires GridSound(env, grid) && k <= |Ticks(env)| && After(env, grid, plan, k).Ok?
    requires n <= |After(env, grid, plan, k).value.sim.fills|
    ensures var fills := After(env, grid, plan, k).value.sim.fills;
            var book := Replay(env.release, env.capital, fills[..n]);
            && book.Ok? && (forall y :: book.value.Held(y) >= 0)
            && (n > 0 && fills[n - 1].side == Buy ==> book.value.cash >= 0.0)
            && (n == |fills| ==> book.value == After(env, grid, plan, k).value.sim.book)
  {
    hide After, Timeline, Ticks, GridSound, WorldSound, Healthy, Adverse, Replay, Positive;
    GridHasSessions(env, grid);
    ReachableSound(env, grid, plan, k);
    var w := After(env, grid, plan, k).value;
    WorldHealthy(env, w);
    HealthySound(env, w.sim);
    BooksReplayed(env, w.sim);
    SoundPositive(env, w.sim);
    ReplayPrefix(env.release, env.capital, w.sim.fills, n);
    assert w.sim.fills[..|w.sim.fills|] == w.sim.fills;
  }

  /** Completing a bar in a sound state never raises, up to the moment the strategy is asked. */
  lemma CompletionNeverRaises<S>(env: Env, grid: Grid, w: World<S>, c: nat)
    requires GridSound(env, grid) && WorldSound(env, w) && c < |env.bars|
    ensures var s := SessionAt(env.sessions, env.bars[c].bar.timestamp);
            s.Some? && s.value.opens in grid.cutoffs && Settled(env, w.sim, env.bars[c], grid.cutoffs[s.value.opens]).Ok?
  {
    hide Healthy, Settled, Visited, OnGrid, Extends, Logged, BarFills;
    var s := BarSession(env, grid, c);
    SettledKeeps(env, w.sim, env.bars[c], grid.cutoffs[s.opens], (x: Sim) => true);
  }
}
