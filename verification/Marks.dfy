/** What the book is marked at: at any time the last close of each symbol; and what a strategy is shown of it. */
module Marks {
  import opened Common
  import opened Orders
  import opened Execution
  import opened Accounting
  import opened Calendars
  import opened Clock
  import opened FeatureRows
  import opened Strategies
  import opened Engine
  import opened Ledger
  import opened Safety
  import opened Grids
  import opened Runs
  import opened Flattening

  // ----- the prices of a run

  /** The close of the symbol's candle that completed last among the first k ticks. */
  function LastClose(env: Env, k: nat, y: Symbol): Option<real>
    requires k <= |Ticks(env)|
  {
    if k == 0 then None
    else
      var t := Ticks(env)[k - 1];
      if t.kind == BarComplete && t.index < |env.bars| && env.bars[t.index].bar.symbol == y then Some(env.bars[t.index].bar.close)
      else LastClose(env, k - 1, y)
  }

  /** The prices known after k ticks are these closes, and no others. */
  ghost predicate AtCloses(env: Env, k: nat, prices: Prices)
    requires k <= |Ticks(env)|
  {
    forall y: Symbol :: (y in prices <==> LastClose(env, k, y).Some?) && (y in prices ==> prices[y] == LastClose(env, k, y).value)
  }

  /** Of a completed bar: one equity point, marked with the bar's close for its symbol and older closes for the others. */
  lemma SettledShape(env: Env, st: Sim, item: SnapshotBar, cutoff: Time)
    requires Healthy(env, st)
    ensures var r := Settled(env, st, item, cutoff);
            && r.Ok? && |r.value.equity| == |st.equity| + 1
            && r.value.prices == st.prices[item.bar.symbol := item.bar.close]
            && Mark(r.value.book, st.peak, item.availableAt, r.value.prices) == Ok(r.value.equity[|st.equity|])
  {
    hide Healthy, Sound, Execute, Extends, Logged, Mark, Visited, BarFills;
    var bar, now := item.bar, item.availableAt;
    SettledKeeps(env, st, item, cutoff, (x: Sim) => true);
    var told := Emit(st, now, BarCompleted(bar.symbol, bar.timestamp));
    EmitKeeps(env, st, now, BarCompleted(bar.symbol, bar.timestamp));
    HealthySound(env, told);
    ExecuteKeeps(env, told, item, cutoff, (x: Sim) => true);
  }

  lemma CompletePrices<S>(env: Env, grid: Grid, plan: Plan<S>, w: World<S>, b: nat)
    requires GridSound(env, grid) && WorldSound(env, w) && b < |env.bars| && Complete(env, grid, plan, w, env.bars[b]).Ok?
    ensures var r, item := Complete(env, grid, plan, w, env.bars[b]).value.sim, env.bars[b];
            && |r.equity| == |w.sim.equity| + 1
            && r.prices == w.sim.prices[item.bar.symbol := item.bar.close]
            && Mark(r.book, w.sim.peak, item.availableAt, r.prices) == Ok(r.equity[|w.sim.equity|])
  {
    hide Healthy, Settled, EvaluateStrategy, Extends, Logged, Visited, OnGrid, BarFills, GridSound, InTile, Mark;
    var item := env.bars[b];
    var s := BarSession(env, grid, b);
    var cutoff := grid.cutoffs[s.opens];
    SettledKeeps(env, w.sim, item, cutoff, (x: Sim) => true);
    SettledShape(env, w.sim, item, cutoff);
    EvaluateSound(env, grid, plan, World(Settled(env, w.sim, item, cutoff).value, w.runtime), b, s, cutoff);
  }

  /** No other tick changes a price. */
  lemma OtherPrices<S>(env: Env, grid: Grid, plan: Plan<S>, w: World<S>, tick: Tick)
    requires GridSound(env, grid) && WorldSound(env, w) && Scheduled(env.bars, env.sessions, env.script, tick)
    requires tick.kind != BarComplete && Step(env, grid, plan, w, tick).Ok?
    ensures Step(env, grid, plan, w, tick).value.sim.prices == w.sim.prices
  {
    hide Healthy, MoveWhere, Mark, OnGrid, GridSound, Extends, Logged, OpenBar, Decide, AnyHeld;
    match tick.kind {
      case Decision => DecideSound(env, grid, w.sim, tick.index);
      case BarOpen => OpenBarSound(env, grid, w.sim, tick.index);
      case SessionOpen =>
      case SessionClose =>
        MoveWhereExact(Emit(w.sim, tick.timestamp, SessionClosed), Anyone(), Expired, tick.timestamp, Text("DAY_SESSION_ENDED"), 0);
    }
  }

  lemma CompletionStep<S>(env: Env, grid: Grid, plan: Plan<S>, w: World<S>, tick: Tick)
    requires tick.kind == BarComplete && Scheduled(env.bars, env.sessions, env.script, tick)
    ensures tick.index < |env.bars| && tick.timestamp == env.bars[tick.index].availableAt
    ensures Step(env, grid, plan, w, tick) == Complete(env, grid, plan, w, env.bars[tick.index])
  {
    hide Complete;
  }

  /** In every reachable state the price of a symbol is the close of its last completed candle, and there is none before the first. */
  lemma {:induction false} ReachablePrices<S>(env: Env, grid: Grid, plan: Plan<S>, k: nat)
    requires GridSound(env, grid) && k <= |Ticks(env)| && After(env, grid, plan, k).Ok?
    ensures AtCloses(env, k, After(env, grid, plan, k).value.sim.prices)
  {
    hide After, Step, Timeline, Ticks, GridSound, WorldSound, Start, Complete, Scheduled, Mark;
    GridHasSessions(env, grid);
    if k == 0 {
      AfterNone(env, grid, plan);
      NoPrices(env, plan);
    } else {
      Stepped(env, grid, plan, k);
      ReachablePrices(env, grid, plan, k - 1);
      ReachableSound(env, grid, plan, k - 1);
      TickScheduled(env, k - 1);
      var w := After(env, grid, plan, k - 1).value;
      if Ticks(env)[k - 1].kind == BarComplete {
        CompletionStep(env, grid, plan, w, Ticks(env)[k - 1]);
        CompletePrices(env, grid, plan, w, Ticks(env)[k - 1].index);
      } else {
        OtherPrices(env, grid, plan, w, Ticks(env)[k - 1]);
      }
    }
  }

  lemma NoPrices<S>(env: Env, plan: Plan<S>)
    requires env.sessions != [] && Start(env, plan).Ok?
    ensures Start(env, plan).value.sim.prices == map[]
  {
    hide Mark;
  }

  // ----- the recorded points

  /** Shares times the last close. */
  function AtLastClose(env: Env, k: nat): (Symbol, Position) -> real
    requires k <= |Ticks(env)|
  {
    (y: Symbol, p: Position) => match LastClose(env, k, y) case Some(close) => p.quantity as real * close case None => 0.0
  }

  lemma {:induction false} SumAgrees(m: map<Symbol, Position>, f: (Symbol, Position) -> real, g: (Symbol, Position) -> real)
    requires forall y | y in m :: f(y, m[y]) == g(y, m[y])
    ensures SumOver(m, f) == SumOver(m, g)
    decreases |m|
  {
    if m != map[] {
      var y :| y in m;
      SumExtract(m, f, y);
      SumExtract(m, g, y);
      SumAgrees(m - {y}, f, g);
    }
  }

  lemma MarkedExactly(prices: Prices, y: Symbol, p: Position)
    requires y in prices && p.quantity != 0
    ensures MarkedAt(prices)(y, p) == p.quantity as real * prices[y]
  {
    assert Value(p.quantity, prices[y]) == p.quantity as real * prices[y];
  }

  lemma NothingHeld(close: real)
    ensures 0 as real * close == 0.0
  {
  }

  lemma MarkedAtCloses(env: Env, k: nat, book: Book, prices: Prices)
    requires k <= |Ticks(env)| && AtCloses(env, k, prices) && Priced(book, prices)
    ensures MarketValue(book, prices) == SumOver(book.positions, AtLastClose(env, k))
  {
    hide Ticks, LastClose;
    forall y | y in book.positions
      ensures MarkedAt(prices)(y, book.positions[y]) == AtLastClose(env, k)(y, book.positions[y])
    {
      var p := book.positions[y];
      if LastClose(env, k, y).Some? {
        NothingHeld(LastClose(env, k, y).value);
        assert AtLastClose(env, k)(y, p) == p.quantity as real * LastClose(env, k, y).value;
        if p.quantity != 0 {
          assert prices[y] == LastClose(env, k, y).value;
          MarkedExactly(prices, y, p);
        }
      } else {
        assert y !in prices && p.quantity == 0;
      }
    }
    SumAgrees(book.positions, MarkedAt(prices), AtLastClose(env, k));
  }

  lemma MarkPriced(book: Book, peak: real, now: Time, prices: Prices)
    requires Mark(book, peak, now, prices).Ok?
    ensures Priced(book, prices)
    ensures var p := Mark(book, peak, now, prices).value;
            && p.timestamp == now && p.cash == book.cash && p.marketValue == MarketValue(book, prices) && p.equity == p.cash + p.marketValue
            && p.realizedPnl == book.realized && p.unrealizedPnl == p.marketValue - SumOver(book.positions, BasisOf)
  {
    hide SumOver, MarketValue, Quotient;
  }

  /**
   * The point recorded when a candle completes: its cash is the book's, and its market value the shares held of each symbol
   * times the close of the symbol's last completed candle, for this symbol that of the candle itself.
   */
  lemma MarkedAtCompletion<S>(env: Env, grid: Grid, plan: Plan<S>, k: nat)
    requires GridSound(env, grid) && k < |Ticks(env)| && Ticks(env)[k].kind == BarComplete && After(env, grid, plan, k + 1).Ok?
    ensures After(env, grid, plan, k).Ok? && Ticks(env)[k].index < |env.bars|
    ensures var before, st := After(env, grid, plan, k).value.sim, After(env, grid, plan, k + 1).value.sim;
            var item := env.bars[Ticks(env)[k].index];
            && |st.equity| == |before.equity| + 1 && before.equity <= st.equity
            && LastClose(env, k + 1, item.bar.symbol) == Some(item.bar.close)
            && var p := st.equity[|before.equity|];
               && p.timestamp == item.availableAt && p.cash == st.book.cash
               && p.marketValue == SumOver(st.book.positions, AtLastClose(env, k + 1)) && p.equity == p.cash + p.marketValue
               && p.realizedPnl == st.book.realized && p.unrealizedPnl == p.marketValue - SumOver(st.book.positions, BasisOf)
  {
    hide After, Step, Timeline, Ticks, GridSound, WorldSound, Complete, Scheduled, Mark, MarketValue, SumOver, AtCloses, AtLastClose;
    GridHasSessions(env, grid);
    Stepped(env, grid, plan, k + 1);
    HistoryExtends(env, grid, plan, k, k + 1);
    ReachableSound(env, grid, plan, k);
    TickScheduled(env, k);
    var w := After(env, grid, plan, k).value;
    CompletionStep(env, grid, plan, w, Ticks(env)[k]);
    CompletePrices(env, grid, plan, w, Ticks(env)[k].index);
    ReachablePrices(env, grid, plan, k + 1);
    var st := After(env, grid, plan, k + 1).value.sim;
    var item := env.bars[Ticks(env)[k].index];
    MarkPriced(st.book, w.sim.peak, item.availableAt, st.prices);
    MarkedAtCloses(env, k + 1, st.book, st.prices);
  }

  /** Elsewhere, one point at each session close, one at each session opening that the curve does not already end with, and none else. */
  lemma OtherPoints<S>(env: Env, grid: Grid, plan: Plan<S>, w: World<S>, tick: Tick)
    requires GridSound(env, grid) && WorldSound(env, w) && Scheduled(env.bars, env.sessions, env.script, tick)
    requires tick.kind != BarComplete && Step(env, grid, plan, w, tick).Ok?
    ensures var before, later := w.sim.equity, Step(env, grid, plan, w, tick).value.sim.equity;
            var recorded := tick.kind == SessionClose || (tick.kind == SessionOpen && before[|before| - 1].timestamp != tick.timestamp);
            if !recorded then later == before
            else |later| == |before| + 1 && before <= later && later[|before|].timestamp == tick.timestamp && later[|before|].cash == w.sim.book.cash
  {
    hide Healthy, MoveWhere, RecordEquity, OnGrid, GridSound, Extends, Logged, OpenBar, Decide, AnyHeld, SimOrder.EverTriggered;
    match tick.kind {
      case Decision => DecideSound(env, grid, w.sim, tick.index);
      case BarOpen => OpenBarSound(env, grid, w.sim, tick.index);
      case SessionOpen => RecordPoint(Emit(w.sim, tick.timestamp, SessionOpened), tick.timestamp);
      case SessionClose =>
        var told := Emit(w.sim, tick.timestamp, SessionClosed);
        MoveWhereExact(told, Anyone(), Expired, tick.timestamp, Text("DAY_SESSION_ENDED"), 0);
        RecordPoint(MoveWhere(told, Anyone(), Expired, tick.timestamp, Text("DAY_SESSION_ENDED"), 0), tick.timestamp);
    }
  }

  lemma RecordPoint(st: Sim, now: Time)
    ensures var r := RecordEquity(st, now);
            r.Ok? ==> && |r.value.equity| == |st.equity| + 1 && st.equity <= r.value.equity
                      && r.value.equity[|st.equity|].timestamp == now && r.value.equity[|st.equity|].cash == st.book.cash
  {
    hide Priced, MarketValue, SumOver, Quotient;
  }

  // ----- what a strategy is shown

  /** What an order looks like from outside. */
  ghost predicate Shows(x: OrderSnapshot, o: SimOrder) {
    && x.reference == o.intent.reference && x.side == o.intent.side && x.status == o.status && x.forced == o.forced
    && (x.active <==> o.status in {Accepted, Pending, Triggered, PartiallyFilled})
    && x.filledQuantity == o.filledQuantity && x.remaining == o.intent.quantity - o.filledQuantity
  }

  /** Exactly the symbol's orders, in the order in which they were made. */
  ghost predicate ShowsOrders(shown: seq<OrderSnapshot>, orders: seq<SimOrder>, y: Symbol) {
    if orders == [] then shown == []
    else
      var n := |orders| - 1;
      if orders[n].intent.symbol != y then ShowsOrders(shown, orders[..n], y)
      else shown != [] && Shows(shown[|shown| - 1], orders[n]) && ShowsOrders(shown[..|shown| - 1], orders[..n], y)
  }

  lemma {:induction false} SnapshotsShow(orders: seq<SimOrder>, y: Symbol)
    ensures ShowsOrders(Snapshots(orders, y), orders, y)
  {
    if orders != [] {
      var n := |orders| - 1;
      SnapshotsShow(orders[..n], y);
      if orders[n].intent.symbol != y {
        assert Snapshots(orders, y) == Snapshots(orders[..n], y);
      } else {
        var shown := Snapshots(orders, y);
        assert shown == Snapshots(orders[..n], y) + [Snapshot(orders[n])];
        assert shown[..|shown| - 1] == Snapshots(orders[..n], y);
        assert Shows(Snapshot(orders[n]), orders[n]);
        assert shown[|shown| - 1] == Snapshot(orders[n]);
        assert ShowsOrders(shown[..|shown| - 1], orders[..n], y);
      }
    }
  }

  /**
   * The context of an evaluation, after its candle settled: the candle and its features, the shares held of the symbol and
   * what they cost on average, the cash, the equity at the closes known by now, the session and its cutoff, and the orders.
   */
  ghost predicate ShowsState(env: Env, k: nat, st: Sim, item: SnapshotBar, row: FeatureRow, session: Session, cutoff: Time, ctx: Context)
    requires k <= |Ticks(env)|
  {
    var y := item.bar.symbol;
    var p := if y in st.book.positions then st.book.positions[y] else NO_POSITION;
    && ctx.bar == item.bar && ctx.currentTime == item.availableAt
    && ctx.availableAt >= item.availableAt && ctx.availableAt >= row.availableAt && ctx.availableAt in {item.availableAt, row.availableAt}
    && ctx.features == row.values && ctx.unavailable == row.unavailable.Keys
    && ctx.positionQuantity == p.quantity
    && (if p.quantity == 0 then ctx.averageEntryPrice == 0.0 else ctx.averageEntryPrice * p.quantity as real == p.basis)
    && ctx.cash == st.book.cash && ctx.equity == st.book.cash + SumOver(st.book.positions, AtLastClose(env, k))
    && ctx.sessionOpen == session.opens && ctx.sessionClose == session.closes && ctx.executionCutoff == Some(cutoff)
    && ShowsOrders(ctx.orders, st.orders, y)
  }

  lemma AverageExact(p: Position)
    ensures if p.quantity == 0 then p.AveragePrice() == 0.0 else p.AveragePrice() * p.quantity as real == p.basis
  {
  }

  /** In every run, the context shown when candle b completes is that of the state just settled. */
  lemma ShownExactly<S>(env: Env, grid: Grid, plan: Plan<S>, k: nat, b: nat, session: Session)
    requires GridSound(env, grid) && k < |Ticks(env)| && b < |env.bars| && Ticks(env)[k] == Tick(env.bars[b].availableAt, BarComplete, b)
    requires After(env, grid, plan, k).Ok? && session.opens in grid.cutoffs && Key(env.bars[b]) in env.features
    ensures var settled := Settled(env, After(env, grid, plan, k).value.sim, env.bars[b], grid.cutoffs[session.opens]);
            var row := env.features[Key(env.bars[b])];
            && settled.Ok? && settled.value.equity != []
            && ShowsState(env, k + 1, settled.value, env.bars[b], row, session, grid.cutoffs[session.opens],
                          ContextOf(settled.value, env.bars[b], row, session, grid.cutoffs[session.opens]))
  {
    hide After, Step, Timeline, Ticks, GridSound, Settled, Mark, MarketValue, SumOver, AtCloses, AtLastClose, Snapshots, ShowsOrders, Quotient, Healthy;
    GridHasSessions(env, grid);
    ReachableSound(env, grid, plan, k);
    ReachablePrices(env, grid, plan, k);
    var w := After(env, grid, plan, k).value;
    var item, cutoff := env.bars[b], grid.cutoffs[session.opens];
    SettledShape(env, w.sim, item, cutoff);
    var st := Settled(env, w.sim, item, cutoff).value;
    PricesNext(env, k, b, w.sim.prices);
    MarkPriced(st.book, w.sim.peak, item.availableAt, st.prices);
    MarkedAtCloses(env, k + 1, st.book, st.prices);
    SnapshotsShow(st.orders, item.bar.symbol);
    AverageExact(st.book.PositionOf(item.bar.symbol));
  }

  lemma PricesNext(env: Env, k: nat, b: nat, prices: Prices)
    requires k < |Ticks(env)| && b < |env.bars| && Ticks(env)[k] == Tick(env.bars[b].availableAt, BarComplete, b) && AtCloses(env, k, prices)
    ensures AtCloses(env, k + 1, prices[env.bars[b].bar.symbol := env.bars[b].bar.close])
  {
    hide Ticks;
  }
}
