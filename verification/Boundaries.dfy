/** Where the guarantees end: exactly when, and with an input that shows it. */
module Boundaries {
  import opened Common
  import opened Orders
  import opened Costs
  import opened Execution
  import opened Accounting
  import opened Trades
  import opened Calendars
  import opened Clock
  import opened FeatureRows
  import opened Strategies
  import opened Engine
  import opened Ledger
  import opened Safety
  import opened Grids
  import opened Runs
  import opened Flattening
  import opened Metrics
  import opened Scenarios

  // ----- cancelling a liquidation

  /** The runtime lets the batch pass, and serving it cancels order i. */
  ghost predicate BatchCancels(env: Env, grid: Grid, st: Sim, ctx: Context, references: set<Reference>, requests: seq<Request>, i: nat)
    requires i < |st.orders|
  {
    && |requests| + |references| <= INTENT_LIMIT && Checked(ctx, requests, references).Ok?
    && var r := RequestAll(env, grid, st, ctx.bar.symbol, ctx.currentTime, requests);
       r.Ok? && i < |r.value.orders| && r.value.orders[i].status == Cancelled
  }

  /** Serving requests of which none names an order leaves that order as it is. */
  lemma {:induction false} UnnamedSpared(env: Env, grid: Grid, st: Sim, symbol: Symbol, now: Time, requests: seq<Request>, i: nat)
    requires i < |st.orders|
    requires forall r | r in requests && r.Withdraw? :: st.orders[i].intent.reference !in r.cancel.targets
    ensures var r := RequestAll(env, grid, st, symbol, now, requests);
            r.Ok? ==> i < |r.value.orders| && r.value.orders[i] == st.orders[i]
    decreases requests
  {
    hide Request1;
    if requests != [] {
      assert requests[0] in requests;
      var next := Request1(env, grid, st, symbol, now, requests[0]);
      RequestSpares(env, grid, st, symbol, now, requests[0], i);
      if next.Ok? {
        UnnamedSpared(env, grid, next.value, symbol, now, requests[1..], i);
      }
    }
  }

  lemma RequestSpares(env: Env, grid: Grid, st: Sim, symbol: Symbol, now: Time, request: Request, i: nat)
    requires i < |st.orders| && (request.Withdraw? ==> st.orders[i].intent.reference !in request.cancel.targets)
    ensures var r := Request1(env, grid, st, symbol, now, request); r.Ok? ==> i < |r.value.orders| && r.value.orders[i] == st.orders[i]
  {
    hide MadeOrder, EligibleFrom, MoveWhere;
    if request.Withdraw? {
      var c := request.cancel;
      var told := Emit(st, now, Decided(symbol, c.reference, c.featureTimestamp));
      MoveWhereExact(told, Targeted(symbol, c.targets), Cancelled, now, Text(c.reason), 0);
    }
  }

  /** The cancellation of one reference. */
  function CancelOne(ctx: Context, name: Reference, target: Reference): CancelIntent {
    CancelIntent(name, ctx.bar.symbol, ctx.currentTime, ctx.bar.timestamp, [target], "WITHDRAWN")
  }

  lemma CancelOneWorks(env: Env, grid: Grid, st: Sim, ctx: Context, references: set<Reference>, name: Reference, i: nat)
    requires i < |st.orders| && st.orders[i].Active() && st.orders[i].intent.symbol == ctx.bar.symbol
    requires ctx.currentTime < ctx.sessionClose && name !in references && |references| < INTENT_LIMIT
    requires st.orders[i].intent.reference in Known(ctx.orders)
    ensures BatchCancels(env, grid, st, ctx, references, [Withdraw(CancelOne(ctx, name, st.orders[i].intent.reference))], i)
  {
    hide Checked, RequestAll, CancelOne;
    CancelOnePasses(ctx, name, st.orders[i].intent.reference, references);
    CancelOneServed(env, grid, st, ctx, name, i);
  }

  lemma CancelOnePasses(ctx: Context, name: Reference, target: Reference, references: set<Reference>)
    requires ctx.currentTime < ctx.sessionClose && name !in references && target in Known(ctx.orders)
    ensures Checked(ctx, [Withdraw(CancelOne(ctx, name, target))], references).Ok?
  {
    hide Known;
    var request := Withdraw(CancelOne(ctx, name, target));
    assert [request][1..] == [];
    assert Fault(ctx, request, references).None?;
    hide Fault;
    assert Checked(ctx, [], references + {request.Ref()}).Ok?;
  }

  lemma CancelOneServed(env: Env, grid: Grid, st: Sim, ctx: Context, name: Reference, i: nat)
    requires i < |st.orders| && st.orders[i].Active() && st.orders[i].intent.symbol == ctx.bar.symbol
    ensures var r := RequestAll(env, grid, st, ctx.bar.symbol, ctx.currentTime, [Withdraw(CancelOne(ctx, name, st.orders[i].intent.reference))]);
            r.Ok? && |r.value.orders| == |st.orders| && r.value.orders[i].status == Cancelled
  {
    hide MoveWhere;
    var c := CancelOne(ctx, name, st.orders[i].intent.reference);
    var told := Emit(st, ctx.currentTime, Decided(ctx.bar.symbol, c.reference, c.featureTimestamp));
    MoveWhereExact(told, Targeted(ctx.bar.symbol, c.targets), Cancelled, ctx.currentTime, Text(c.reason), 0);
    assert [Withdraw(c)][1..] == [];
  }

  /**
   * Cancellations match by reference alone. So, as long as the run has intents left, some batch that passes the runtime's
   * checks cancels a symbol's liquidation if and only if some ordinary order of the symbol bears the liquidation's name.
   */
  lemma LiquidationCancellable(env: Env, grid: Grid, st: Sim, ctx: Context, references: set<Reference>, unused: Reference, i: nat)
    requires ctx.orders == Snapshots(st.orders, ctx.bar.symbol) && ctx.currentTime < ctx.sessionClose
    requires unused !in references && |references| < INTENT_LIMIT
    requires i < |st.orders| && st.orders[i].forced && st.orders[i].Active()
    requires st.orders[i].intent.symbol == ctx.bar.symbol && st.orders[i].intent.reference == FORCED_EXIT
    ensures (exists requests: seq<Request> :: BatchCancels(env, grid, st, ctx, references, requests, i)) <==> OrdinaryNamesake(st, ctx.bar.symbol)
  {
    hide BatchCancels, Snapshots;
    SnapshotsExact(st.orders, ctx.bar.symbol);
    if requests: seq<Request> :| BatchCancels(env, grid, st, ctx, references, requests, i) {
      if !OrdinaryNamesake(st, ctx.bar.symbol) {
        NoBatchCancels(env, grid, st, ctx, references, requests, i);
      }
    }
    if OrdinaryNamesake(st, ctx.bar.symbol) {
      var j :| 0 <= j < |st.orders| && !st.orders[j].forced && st.orders[j].intent.symbol == ctx.bar.symbol
               && st.orders[j].intent.reference == FORCED_EXIT;
      assert Snapshot(st.orders[j]) in ctx.orders;
      CancelOneWorks(env, grid, st, ctx, references, unused, i);
    }
  }

  /** An ordinary order of the symbol bears the liquidation's name. */
  ghost predicate OrdinaryNamesake(st: Sim, symbol: Symbol) {
    exists j :: 0 <= j < |st.orders| && !st.orders[j].forced && st.orders[j].intent.symbol == symbol && st.orders[j].intent.reference == FORCED_EXIT
  }

  lemma NoBatchCancels(env: Env, grid: Grid, st: Sim, ctx: Context, references: set<Reference>, requests: seq<Request>, i: nat)
    requires ctx.orders == Snapshots(st.orders, ctx.bar.symbol) && !OrdinaryNamesake(st, ctx.bar.symbol)
    requires i < |st.orders| && st.orders[i].Active() && st.orders[i].intent.reference == FORCED_EXIT
    ensures !BatchCancels(env, grid, st, ctx, references, requests, i)
  {
    hide Snapshots, RequestAll, Checked;
    if Checked(ctx, requests, references).Ok? {
      CheckedBatch(ctx, requests, references);
      SnapshotsExact(st.orders, ctx.bar.symbol);
      assert FORCED_EXIT !in Known(ctx.orders);
      UnnamedSpared(env, grid, st, ctx.bar.symbol, ctx.currentTime, requests, i);
    }
  }

  /** A purchase named like the liquidation, filled in full. */
  function NamesakeState(env: Env): Result<Sim> {
    Served(env, InitialSim(env), MarketIntent(FORCED_EXIT, Buy, 1, MINUTE), MINUTE, 10.0, false)
  }

  /** What the strategy is shown later of such a symbol. */
  function LateView(st: Sim): Context {
    Context(5 * MINUTE, FlatBar(4 * MINUTE, 10.0), 5 * MINUTE, map[], {}, 1, 10.0, 0.0, 10.0, 0, 6 * MINUTE, Snapshots(st.orders, "A"), Some(3 * MINUTE))
  }

  /** The purchase that bears the liquidation's name, and the liquidation itself, pending. */
  function LiquidatingState(env: Env): Result<Sim> {
    var held :- NamesakeState(env);
    Ok(WithOrder(held, MarketIntent(FORCED_EXIT, Sell, 1, 3 * MINUTE), 3 * MINUTE, true))
  }

  lemma LiquidatingSound(env: Env)
    requires env.costs == ZeroCosts && env.bps == 0.0 && env.capital == 10.0
    ensures LiquidatingState(env).Ok?
    ensures var st := LiquidatingState(env).value;
            && Sound(env, st) && |st.orders| == 2 && st.book.Held("A") == 1
            && !st.orders[0].forced && st.orders[0].intent.symbol == "A" && st.orders[0].intent.reference == FORCED_EXIT
            && st.orders[1].forced && st.orders[1].Active() && st.orders[1].intent.symbol == "A" && st.orders[1].intent.reference == FORCED_EXIT
  {
    hide Sound, Served, WholeCharge, CostBreakdown.Total;
    StartsSound(env);
    FreeCharge(env, Buy, 10.0, false);
    assert Value(1, 10.0) == 10.0;
    hide Value;
    ServedExactly(env, InitialSim(env), MarketIntent(FORCED_EXIT, Buy, 1, MINUTE), MINUTE, 10.0, false);
    WithOrderSound(env, NamesakeState(env).value, MarketIntent(FORCED_EXIT, Sell, 1, 3 * MINUTE), 3 * MINUTE, true);
  }

  /** The strategy that withdraws the order of that name, whatever it is shown. */
  function Withdrawing(ctx: Context): Plan<int> {
    Plan(0, (state: int, view: Context) => Ok((state, [Withdraw(CancelOne(ctx, Text("withdrawal"), FORCED_EXIT))])))
  }

  /** The first evaluation of a strategy, released by the runtime and served, cancels order i. */
  ghost predicate EvaluationCancels<S>(env: Env, grid: Grid, st: Sim, ctx: Context, plan: Plan<S>, i: nat) {
    var e := Evaluated(plan, Started(plan, [ctx.bar.symbol]), ctx);
    && e.Ok?
    && var r := RequestAll(env, grid, st, ctx.bar.symbol, ctx.currentTime, e.value.1);
       r.Ok? && i < |r.value.orders| && r.value.orders[i].status == Cancelled
  }

  /** In a sound state with an active liquidation, that strategy cancels it. */
  lemma LiquidationCancelled(env: Env, grid: Grid, st: Sim)
    requires env.costs == ZeroCosts && env.bps == 0.0 && env.capital == 10.0 && LiquidatingState(env) == Ok(st)
    ensures Sound(env, st) && |st.orders| == 2 && st.orders[1].forced && st.orders[1].Active()
    ensures EvaluationCancels(env, grid, st, LateView(st), Withdrawing(LateView(st)), 1)
  {
    hide Sound, LiquidatingState, Snapshots, RequestAll, Checked, CancelOne, EvaluationCancels, SimOrder.Active;
    LiquidatingSound(env);
    SnapshotsExact(st.orders, "A");
    assert Snapshot(st.orders[0]) in LateView(st).orders;
    WithdrawalWorks(env, grid, st, LateView(st), 1);
  }

  lemma WithdrawalWorks(env: Env, grid: Grid, st: Sim, ctx: Context, i: nat)
    requires ctx.Valid() && ctx.currentTime < ctx.sessionClose && FORCED_EXIT in Known(ctx.orders)
    requires i < |st.orders| && st.orders[i].Active() && st.orders[i].intent.symbol == ctx.bar.symbol && st.orders[i].intent.reference == FORCED_EXIT
    ensures EvaluationCancels(env, grid, st, ctx, Withdrawing(ctx), i)
  {
    hide RequestAll, Checked, CancelOne, SimOrder.Active;
    CancelOnePasses(ctx, Text("withdrawal"), FORCED_EXIT, {});
    CancelOneServed(env, grid, st, ctx, Text("withdrawal"), i);
  }

  lemma FreeCharge(env: Env, side: Side, value: real, forced: bool)
    requires env.costs == ZeroCosts
    ensures WholeCharge(env, side, value, forced).Total() == 0.0
  {
    hide CostBreakdown.Total;
    NoCostsTotal();
    ZeroCharge(side, value, forced);
    hide Cumulative;
  }

  lemma ZeroCharge(side: Side, value: real, forced: bool)
    ensures Cumulative(ZeroCosts, side, value, forced) == Ok(NO_COSTS)
  {
  }

  // ----- holdings too large to liquidate

  /** The liquidation of a holding fails if and only if the holding exceeds the largest quantity an intent may have. */
  lemma FlattenFailsExactly(env: Env, grid: Grid, st: Sim, symbol: Symbol, now: Time)
    requires Healthy(env, st) && SessionAt(env.sessions, now).Some?
    requires SessionAt(env.sessions, now).value.opens in grid.openings && SessionAt(env.sessions, now).value.opens in grid.cutoffs
    ensures Flatten(env, grid, st, symbol, now).Err? <==> st.book.Held(symbol) > MAX_QUANTITY
    ensures Flatten(env, grid, st, symbol, now).Err? ==> Flatten(env, grid, st, symbol, now).error == InvalidIntent
  {
    hide Healthy, NewOrder, MoveWhere, Extends, Logged, BooksKept;
    FlattenSound(env, grid, st, symbol, now);
    HeldNatural(env, st, symbol);
    if st.book.Held(symbol) > MAX_QUANTITY {
      assert !ForcedIntent(symbol, st.book.Held(symbol), now).Valid();
    }
  }

  /** A bar opening fails exactly at the cutoff of a symbol held beyond that quantity. */
  lemma OpenBarFailsExactly(env: Env, grid: Grid, st: Sim, i: nat)
    requires GridSound(env, grid) && Healthy(env, st) && i < |env.bars|
    ensures var r, s := OpenBar(env, grid, st, env.bars[i]), SessionAt(env.sessions, env.bars[i].bar.timestamp);
            && s.Some? && s.value.opens in grid.cutoffs
            && (r.Err? <==> env.bars[i].bar.timestamp == grid.cutoffs[s.value.opens] && st.book.Held(env.bars[i].bar.symbol) > MAX_QUANTITY)
            && (r.Err? ==> r.error == InvalidIntent)
  {
    hide Healthy, Flatten, Extends, Logged, OnGrid;
    var symbol, now := env.bars[i].bar.symbol, env.bars[i].bar.timestamp;
    var s := BarSession(env, grid, i);
    var told := Emit(st, now, BarOpened(symbol, env.bars[i].bar.open));
    EmitKeeps(env, st, now, BarOpened(symbol, env.bars[i].bar.open));
    FlattenFailsExactly(env, grid, told, symbol, now);
  }

  /** The tick of a run: a bar opening in a sound world fails exactly then. */
  lemma OpeningTickFailsExactly<S>(env: Env, grid: Grid, plan: Plan<S>, w: World<S>, tick: Tick)
    requires GridSound(env, grid) && WorldSound(env, w) && tick.kind == BarOpen && tick.index < |env.bars|
    ensures var item := env.bars[tick.index];
            var s := SessionAt(env.sessions, item.bar.timestamp);
            && s.Some? && s.value.opens in grid.cutoffs
            && (Step(env, grid, plan, w, tick).Err?
                <==> item.bar.timestamp == grid.cutoffs[s.value.opens] && w.sim.book.Held(item.bar.symbol) > MAX_QUANTITY)
  {
    hide WorldSound, OpenBar, GridSound;
    WorldHealthy(env, w);
    OpenBarFailsExactly(env, grid, w.sim, tick.index);
  }

  /** One purchase of the largest quantity, and a second one. */
  function OneHuge(env: Env): Result<Sim> {
    Served(env, InitialSim(env).(prices := map["A" := 1.0]), MarketIntent(Text("first"), Buy, MAX_QUANTITY, MINUTE), MINUTE, 1.0, false)
  }

  function TwoHuge(env: Env): Result<Sim> {
    var st :- OneHuge(env);
    Served(env, st, MarketIntent(Text("second"), Buy, MAX_QUANTITY, 3 * MINUTE), 3 * MINUTE, 1.0, false)
  }

  /** Two purchases of a billion shares each leave a healthy state whose holding cannot be liquidated. */
  lemma HugeHoldingStuck(env: Env, grid: Grid, now: Time)
    requires env.costs == ZeroCosts && env.bps == 0.0 && env.capital == 2_000_000_000.0
    requires SessionAt(env.sessions, now).Some?
    requires SessionAt(env.sessions, now).value.opens in grid.openings && SessionAt(env.sessions, now).value.opens in grid.cutoffs
    ensures TwoHuge(env).Ok? && Healthy(env, TwoHuge(env).value) && TwoHuge(env).value.book.Held("A") == 2 * MAX_QUANTITY
    ensures Flatten(env, grid, TwoHuge(env).value, "A", now) == Err(InvalidIntent)
  {
    hide Sound, Served, Flatten, WholeCharge, CostBreakdown.Total;
    var start := InitialSim(env).(prices := map["A" := 1.0]);
    StartsSound(env);
    SoundIgnores(env, InitialSim(env), start);
    FreeCharge(env, Buy, Value(MAX_QUANTITY, 1.0), false);
    assert Value(MAX_QUANTITY, 1.0) == 1_000_000_000.0;
    ServedExactly(env, start, MarketIntent(Text("first"), Buy, MAX_QUANTITY, MINUTE), MINUTE, 1.0, false);
    var one := OneHuge(env).value;
    ServedExactly(env, one, MarketIntent(Text("second"), Buy, MAX_QUANTITY, 3 * MINUTE), 3 * MINUTE, 1.0, false);
    var two := TwoHuge(env).value;
    HugeHealthy(env, start, one, two);
    FlattenFailsExactly(env, grid, two, "A", now);
  }

  lemma HugeHealthy(env: Env, start: Sim, one: Sim, two: Sim)
    requires Sound(env, two) && start == InitialSim(env).(prices := map["A" := 1.0])
    requires forall y | y != "A" :: one.book.PositionOf(y) == start.book.PositionOf(y)
    requires forall y | y != "A" :: two.book.PositionOf(y) == one.book.PositionOf(y)
    requires two.prices == one.prices == start.prices && two.equity == one.equity == start.equity && two.peak == one.peak == start.peak
    ensures Healthy(env, two)
  {
    hide Sound;
    forall y | y in two.book.positions && y != "A"
      ensures two.book.positions[y].quantity == 0
    {
      assert two.book.PositionOf(y) == start.book.PositionOf(y);
    }
  }
}
