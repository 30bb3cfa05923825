/** Whole runs: what holds of every state a run can reach, and the only ways a run can fail. */
module Runs {
  import opened Common
  import opened Orders
  import opened Costs
  import opened Execution
  import opened Accounting
  import opened Trades
  import opened Calendars
  import opened Clock
  import opened FeatureRows
  import opened Strategies
  import opened Engine
  import opened Ledger
  import opened Safety
  import opened Grids

  ghost predicate WorldSound<S>(env: Env, w: World<S>) {
    && Healthy(env, w.sim)
    && w.sim.equity != []
    && (env.strategic <==> w.runtime.Some?)
    && (w.runtime.Some? ==> forall s | s in env.symbols :: s in w.runtime.value.instances)
  }

  /**
   * A fault of the strategy side, on the context it was actually shown: the features came late, the strategy itself
   * raised, or its batch was too long or contained a request at fault.
   */
  ghost predicate StrategyFault<S>(env: Env, plan: Plan<S>, w: World<S>, item: SnapshotBar, session: Session, cutoff: Time, error: Error) {
    && w.runtime.Some? && w.sim.equity != [] && Key(item) in env.features && item.bar.symbol in w.runtime.value.instances
    && if env.features[Key(item)].availableAt > item.availableAt then error == FeatureLate
       else BatchFault(plan, w.runtime.value, ContextOf(w.sim, item, env.features[Key(item)], session, cutoff), error)
  }

  ghost predicate BatchFault<S>(plan: Plan<S>, runtime: Runtime<S>, ctx: Context, error: Error)
    requires ctx.bar.symbol in runtime.instances
  {
    match plan.evaluate(runtime.instances[ctx.bar.symbol], ctx)
    case Err(raised) => error == raised
    case Ok((_, requests)) =>
      if |requests| + |runtime.references| > INTENT_LIMIT then error == IntentLimitExceeded
      else
        && error in {InvalidIntent, IntentViolatesContext, UnknownCancelTarget, IntentFeatureMissing}
        && !Faultless(ctx, requests, runtime.references)
  }

  /** A completing bar's fault: whatever precedes the strategy succeeded. */
  ghost predicate CompletionFault<S>(env: Env, grid: Grid, plan: Plan<S>, w: World<S>, item: SnapshotBar, error: Error) {
    var at := SessionAt(env.sessions, item.bar.timestamp);
    && at.Some? && at.value.opens in grid.cutoffs
    && var cutoff := grid.cutoffs[at.value.opens];
       var settled := Settled(env, w.sim, item, cutoff);
       settled.Ok? && StrategyFault(env, plan, World(settled.value, w.runtime), item, at.value, cutoff, error)
  }

  /** The only ways a tick can fail. */
  ghost predicate PermittedFault<S>(env: Env, grid: Grid, plan: Plan<S>, w: World<S>, tick: Tick, error: Error) {
    || (tick.kind == SessionClose && error == ForcedExitIncomplete && AnyHeld(w.sim.book))
    || (tick.kind == BarOpen && error == InvalidIntent && tick.index < |env.bars|
        && w.sim.book.Held(env.bars[tick.index].bar.symbol) > MAX_QUANTITY)
    || (tick.kind == BarComplete && tick.index < |env.bars| && CompletionFault(env, grid, plan, w, env.bars[tick.index], error))
  }

  lemma {:induction false} RequestAllSucceeds(env: Env, grid: Grid, st: Sim, symbol: Symbol, now: Time, requests: seq<Request>)
    requires SessionAt(env.sessions, now).Some?
    requires SessionAt(env.sessions, now).value.opens in grid.openings && SessionAt(env.sessions, now).value.opens in grid.cutoffs
    ensures RequestAll(env, grid, st, symbol, now, requests).Ok?
    decreases requests
  {
    hide MadeOrder, EligibleFrom, MoveWhere;
    if requests != [] {
      assert Request1(env, grid, st, symbol, now, requests[0]).Ok?;
      RequestAllSucceeds(env, grid, Request1(env, grid, st, symbol, now, requests[0]).value, symbol, now, requests[1..]);
    }
  }

  lemma EvaluateSound<S>(env: Env, grid: Grid, plan: Plan<S>, w: World<S>, i: nat, session: Session, cutoff: Time)
    requires GridSound(env, grid) && WorldSound(env, w) && i < |env.bars|
    requires session in env.sessions && InTile(grid, session, env.bars[i])
    ensures var r := EvaluateStrategy(env, grid, plan, w, env.bars[i], session, cutoff);
            && (r.Err? ==> StrategyFault(env, plan, w, env.bars[i], session, cutoff, r.error))
            && (r.Ok? ==> WorldSound(env, r.value) && Extends(w.sim, r.value.sim) && BooksKept(w.sim, r.value.sim)
                          && Logged(w.sim.events, r.value.sim.events, env.bars[i].availableAt))
  {
    hide Healthy, RequestAll, Extends, Logged, OnGrid, Evaluated, Snapshots, GridSound, InTile;
    FeatureThere(env, grid, i);
    var item := env.bars[i];
    if w.runtime.Some? && env.features[Key(item)].availableAt <= item.availableAt {
      var ctx := ContextOf(w.sim, item, env.features[Key(item)], session, cutoff);
      var e := Evaluated(plan, w.runtime.value, ctx);
      ShownValid(env, grid, w.sim, i, session, cutoff);
      if e.Err? {
        EvaluatedFault(plan, w.runtime.value, ctx);
      } else {
        var (runtime, requests) := e.value;
        EvaluatedRuntime(plan, w.runtime.value, ctx);
        ServedSound(env, grid, w.sim, i, session, requests, StrategyRan(item.bar.symbol, item.bar.timestamp, ctx.availableAt, |requests|), ctx, w.runtime.value.references);
      }
    } else {
      SelfExtends(w.sim);
      LoggedSelf(w.sim.events, item.availableAt);
      BooksSelf(w.sim);
    }
  }

  /** What a strategy is shown passes the context's own check. */
  lemma ShownValid(env: Env, grid: Grid, st: Sim, i: nat, session: Session, cutoff: Time)
    requires GridSound(env, grid) && i < |env.bars| && InTile(grid, session, env.bars[i]) && st.equity != []
    requires Key(env.bars[i]) in env.features && env.features[Key(env.bars[i])].availableAt <= env.bars[i].availableAt
    ensures ContextOf(st, env.bars[i], env.features[Key(env.bars[i])], session, cutoff).Valid()
  {
    hide OnGrid;
  }

  /** On a valid context an evaluation fails for the strategy's own error, a batch too long, or a request at fault. */
  lemma EvaluatedFault<S>(plan: Plan<S>, runtime: Runtime<S>, ctx: Context)
    requires ctx.Valid() && ctx.bar.symbol in runtime.instances && Evaluated(plan, runtime, ctx).Err?
    ensures BatchFault(plan, runtime, ctx, Evaluated(plan, runtime, ctx).error)
  {
    hide Faultless, Checked;
    var reply := plan.evaluate(runtime.instances[ctx.bar.symbol], ctx);
    if reply.Ok? {
      CheckedExact(ctx, reply.value.1, runtime.references);
      CheckedErrors(ctx, reply.value.1, runtime.references);
    }
  }

  lemma {:induction false} CheckedErrors(ctx: Context, requests: seq<Request>, references: set<Reference>)
    ensures Checked(ctx, requests, references).Err? ==>
              Checked(ctx, requests, references).error in {InvalidIntent, IntentViolatesContext, UnknownCancelTarget, IntentFeatureMissing}
  {
    if requests != [] {
      CheckedErrors(ctx, requests[1..], references + {requests[0].Ref()});
    }
  }

  lemma FeatureThere(env: Env, grid: Grid, i: nat)
    requires GridSound(env, grid) && i < |env.bars|
    ensures Key(env.bars[i]) in env.features && env.bars[i].bar.symbol in env.symbols
  {
    hide OnGrid;
  }

  lemma BooksSelf(st: Sim)
    ensures BooksKept(st, st)
  {
  }

  /** The batch of a successful evaluation was checked, and the symbols with an instance stay. */
  lemma EvaluatedRuntime<S>(plan: Plan<S>, runtime: Runtime<S>, ctx: Context)
    requires Evaluated(plan, runtime, ctx).Ok?
    ensures var (later, requests) := Evaluated(plan, runtime, ctx).value;
            && Checked(ctx, requests, runtime.references).Ok?
            && forall y | y in runtime.instances :: y in later.instances
  {
    hide Checked;
  }

  /** Serving a checked batch succeeds and keeps the invariant. */
  lemma ServedSound(env: Env, grid: Grid, st: Sim, i: nat, session: Session, requests: seq<Request>, body: EventBody, ctx: Context, references: set<Reference>)
    requires GridSound(env, grid) && Healthy(env, st) && i < |env.bars| && session in env.sessions && InTile(grid, session, env.bars[i])
    requires Checked(ctx, requests, references).Ok? && ctx.currentTime == env.bars[i].availableAt && ctx.sessionClose == session.closes
    ensures var r := RequestAll(env, grid, Emit(st, env.bars[i].availableAt, body), env.bars[i].bar.symbol, env.bars[i].availableAt, requests);
            r.Ok? && Healthy(env, r.value) && Extends(st, r.value) && BooksKept(st, r.value) && Logged(st.events, r.value.events, env.bars[i].availableAt)
  {
    hide Healthy, RequestAll, Extends, Logged, OnGrid, Checked;
    var symbol, now := env.bars[i].bar.symbol, env.bars[i].availableAt;
    var ran := Emit(st, now, body);
    EmitKeeps(env, st, now, body);
    RequestAllKeeps(env, grid, ran, symbol, now, requests);
    if requests != [] {
      CheckedBatch(ctx, requests, references);
      assert requests[0] in requests;
      SessionAtExact(env.sessions, now);
      RequestAllSucceeds(env, grid, ran, symbol, now, requests);
    }
    var r := RequestAll(env, grid, ran, symbol, now, requests).value;
    ExtendsTransitive(st, ran, r);
    LoggedTransitive(st.events, ran.events, r.events, now);
  }

  lemma CompleteSound<S>(env: Env, grid: Grid, plan: Plan<S>, w: World<S>, i: nat)
    requires GridSound(env, grid) && WorldSound(env, w) && i < |env.bars|
    ensures var r := Complete(env, grid, plan, w, env.bars[i]);
            && (r.Err? ==> CompletionFault(env, grid, plan, w, env.bars[i], r.error))
            && (r.Ok? ==> WorldSound(env, r.value) && Extends(w.sim, r.value.sim)
                          && Logged(w.sim.events, r.value.sim.events, env.bars[i].availableAt)
                          && BarFills(env, w.sim, r.value.sim, env.bars[i]))
  {
    hide Healthy, Settled, EvaluateStrategy, Extends, Logged, Visited, OnGrid;
    var item := env.bars[i];
    var s := BarSession(env, grid, i);
    var cutoff := grid.cutoffs[s.opens];
    SettledKeeps(env, w.sim, item, cutoff, (x: Sim) => true);
    var settled := Settled(env, w.sim, item, cutoff).value;
    EvaluateSound(env, grid, plan, World(settled, w.runtime), i, s, cutoff);
    var r := EvaluateStrategy(env, grid, plan, World(settled, w.runtime), item, s, cutoff);
    if r.Ok? {
      ExtendsTransitive(w.sim, settled, r.value.sim);
      LoggedTransitive(w.sim.events, settled.events, r.value.sim.events, item.availableAt);
    }
  }

  lemma FlattenSound(env: Env, grid: Grid, st: Sim, symbol: Symbol, now: Time)
    requires Healthy(env, st)
    requires SessionAt(env.sessions, now).Some?
    requires SessionAt(env.sessions, now).value.opens in grid.openings && SessionAt(env.sessions, now).value.opens in grid.cutoffs
    ensures var r := Flatten(env, grid, st, symbol, now);
            && (r.Err? ==> r.error == InvalidIntent && st.book.Held(symbol) > MAX_QUANTITY)
            && (r.Ok? ==> Healthy(env, r.value) && Extends(st, r.value) && BooksKept(st, r.value) && Logged(st.events, r.value.events, now))
  {
    hide Healthy, NewOrder, MoveWhere, Extends, Logged;
    var quantity := st.book.Held(symbol);
    HeldNatural(env, st, symbol);
    if quantity == 0 {
      SelfExtends(st);
      LoggedSelf(st.events, now);
    } else {
      MoveWhereKeeps(env, st, OfSymbol(symbol), Cancelled, now, Text("SESSION_EXIT_CUTOFF"));
      var cleared := MoveWhere(st, OfSymbol(symbol), Cancelled, now, Text("SESSION_EXIT_CUTOFF"), 0);
      var warned := cleared.(warnings := cleared.warnings + {ForcedSessionExit});
      HealthyIgnoresWarnings(env, cleared, warned);
      var intent := Validated(ForcedIntent(symbol, quantity, now));
      if intent.Ok? {
        NewOrderKeeps(env, grid, warned, intent.value, now, true);
        NewOrderExact(env, grid, warned, intent.value, now, true);
        var r := NewOrder(env, grid, warned, intent.value, now, true).value;
        ExtendsTransitive(st, cleared, warned);
        ExtendsTransitive(st, warned, r);
        LoggedTransitive(st.events, warned.events, r.events, now);
      }
    }
  }

  lemma LoggedSelf(events: seq<Event>, now: Time)
    ensures Logged(events, events, now)
  {
  }

  lemma HeldNatural(env: Env, st: Sim, symbol: Symbol)
    requires Healthy(env, st)
    ensures st.book.Held(symbol) >= 0
  {
    SoundPositive(env, st);
  }

  lemma HealthyIgnoresWarnings(env: Env, st: Sim, r: Sim)
    requires Healthy(env, st) && r == st.(warnings := r.warnings)
    ensures Healthy(env, r) && Extends(st, r)
  {
    SoundIgnores(env, st, r);
  }

  lemma OpenBarSound(env: Env, grid: Grid, st: Sim, i: nat)
    requires GridSound(env, grid) && Healthy(env, st) && i < |env.bars|
    ensures var r := OpenBar(env, grid, st, env.bars[i]);
            && (r.Err? ==> r.error == InvalidIntent && st.book.Held(env.bars[i].bar.symbol) > MAX_QUANTITY)
            && (r.Ok? ==> Healthy(env, r.value) && Extends(st, r.value) && BooksKept(st, r.value)
                          && Logged(st.events, r.value.events, env.bars[i].bar.timestamp))
  {
    hide Healthy, Flatten, Extends, Logged, OnGrid;
    var item := env.bars[i];
    var now := item.bar.timestamp;
    var s := BarSession(env, grid, i);
    var told := Emit(st, now, BarOpened(item.bar.symbol, item.bar.open));
    EmitKeeps(env, st, now, BarOpened(item.bar.symbol, item.bar.open));
    FlattenSound(env, grid, told, item.bar.symbol, now);
    var r := OpenBar(env, grid, st, item);
    SelfExtends(told);
    LoggedSelf(told.events, now);
    if r.Ok? {
      ExtendsTransitive(st, told, r.value);
      LoggedTransitive(st.events, told.events, r.value.events, now);
    }
  }

  lemma DecideSound(env: Env, grid: Grid, st: Sim, i: nat)
    requires GridSound(env, grid) && Healthy(env, st) && i < |env.script|
    ensures var r := Decide(env, grid, st, env.script[i], env.script[i].createdAt);
            && r.Ok? && Healthy(env, r.value) && Extends(st, r.value) && BooksKept(st, r.value)
            && Logged(st.events, r.value.events, env.script[i].createdAt)
  {
    hide Healthy, NewOrder, Extends, Logged, OnGrid;
    var intent := env.script[i];
    var now := intent.createdAt;
    SessionAtExact(env.sessions, now);
    assert SessionGrid(grid, SessionAt(env.sessions, now).value);
    var told := Emit(st, now, Decided(intent.symbol, intent.reference, intent.featureTimestamp));
    EmitKeeps(env, st, now, Decided(intent.symbol, intent.reference, intent.featureTimestamp));
    NewOrderKeeps(env, grid, told, intent, now, false);
    NewOrderExact(env, grid, told, intent, now, false);
    var r := NewOrder(env, grid, told, intent, now, false).value;
    ExtendsTransitive(st, told, r);
    LoggedTransitive(st.events, told.events, r.events, now);
  }

  lemma CloseSound(env: Env, st: Sim, now: Time)
    requires Healthy(env, st)
    ensures var r := CloseSession(st, now);
            && (r.Err? <==> AnyHeld(st.book)) && (r.Err? ==> r.error == ForcedExitIncomplete)
            && (r.Ok? ==> Healthy(env, r.value) && Extends(st, r.value) && Logged(st.events, r.value.events, now)
                          && |r.value.equity| == |st.equity| + 1
                          && r.value.book == st.book && r.value.fills == st.fills
                          && Flat(r.value.book) && (forall i | 0 <= i < |r.value.orders| :: !r.value.orders[i].Active())
                          && r.value.equity[|st.equity|].equity == r.value.book.cash)
  {
    hide Healthy, MoveWhere, Extends, Logged, AnyHeld, SimOrder.EverTriggered, MarketValue, Flat;
    var told := Emit(st, now, SessionClosed);
    EmitKeeps(env, st, now, SessionClosed);
    MoveWhereKeeps(env, told, Anyone(), Expired, now, Text("DAY_SESSION_ENDED"));
    MoveWhereExact(told, Anyone(), Expired, now, Text("DAY_SESSION_ENDED"), 0);
    var expired := MoveWhere(told, Anyone(), Expired, now, Text("DAY_SESSION_ENDED"), 0);
    RecordSound(env, expired, now);
    if !AnyHeld(st.book) {
      var r := RecordEquity(expired, now).value;
      assert CloseSession(st, now) == Ok(r);
      NotHeldFlat(st.book);
      MarkEquity(expired.book, expired.peak, now, expired.prices);
      FlatWorthless(expired.book, expired.prices);
      ExtendsTransitive(st, told, expired);
      ExtendsTransitive(st, expired, r);
      LoggedTransitive(st.events, told.events, expired.events, now);
      LoggedTransitive(st.events, expired.events, r.events, now);
    }
  }

  lemma MarkEquity(book: Book, peak: real, now: Time, prices: Prices)
    requires Mark(book, peak, now, prices).Ok?
    ensures Mark(book, peak, now, prices).value.equity == book.cash + MarketValue(book, prices)
  {
  }

  lemma NotHeldFlat(book: Book)
    requires !AnyHeld(book)
    ensures Flat(book)
  {
  }

  lemma FlatWorthless(book: Book, prices: Prices)
    requires Flat(book)
    ensures MarketValue(book, prices) == 0.0
  {
    EmptySums(book.positions, MarkedAt(prices));
  }

  lemma OpenSound(env: Env, st: Sim, now: Time)
    requires Healthy(env, st) && st.equity != []
    ensures var r := OpenSession(st, now);
            && r.Ok? && Healthy(env, r.value) && Extends(st, r.value) && Logged(st.events, r.value.events, now)
            && r.value.equity != [] && r.value.orders == st.orders && r.value.fills == st.fills && r.value.book == st.book
  {
    hide Healthy, Extends, Logged, RecordEquity;
    var told := Emit(st, now, SessionOpened);
    EmitKeeps(env, st, now, SessionOpened);
    if st.equity[|st.equity| - 1].timestamp != now {
      RecordSound(env, told, now);
      var r := RecordEquity(told, now).value;
      ExtendsTransitive(st, told, r);
      LoggedTransitive(st.events, told.events, r.events, now);
    }
  }

  /** One tick of a validated run keeps the invariant and extends the history, or fails in a permitted way. */
  lemma StepSound<S>(env: Env, grid: Grid, plan: Plan<S>, w: World<S>, tick: Tick)
    requires GridSound(env, grid) && WorldSound(env, w) && Scheduled(env.bars, env.sessions, env.script, tick)
    ensures var r := Step(env, grid, plan, w, tick);
            && (r.Err? ==> PermittedFault(env, grid, plan, w, tick, r.error))
            && (r.Ok? ==> WorldSound(env, r.value) && Extends(w.sim, r.value.sim) && Logged(w.sim.events, r.value.sim.events, tick.timestamp))
            && (r.Ok? && tick.kind == BarComplete ==> BarFills(env, w.sim, r.value.sim, env.bars[tick.index]))
            && (r.Ok? && tick.kind != BarComplete ==> r.value.sim.fills == w.sim.fills && r.value.sim.book == w.sim.book)
  {
    hide Healthy, Extends, Logged, OpenSession, CloseSession, OpenBar, Decide, Complete, OnGrid;
    match tick.kind {
      case BarComplete => CompleteSound(env, grid, plan, w, tick.index);
      case Decision => DecideSound(env, grid, w.sim, tick.index);
      case BarOpen => OpenBarSound(env, grid, w.sim, tick.index);
      case SessionOpen => OpenSound(env, w.sim, tick.timestamp);
      case SessionClose => CloseSound(env, w.sim, tick.timestamp);
    }
  }

  lemma StartSound<S>(env: Env, plan: Plan<S>)
    requires env.sessions != []
    ensures Start(env, plan).Ok? && WorldSound(env, Start(env, plan).value)
    ensures var st := Start(env, plan).value.sim;
            && st.orders == [] && st.fills == [] && st.book == Opening(env.capital)
            && Logged([], st.events, env.sessions[0].opens) && |st.equity| == 1 && st.equity[0].equity == env.capital
            && st.equity[0].timestamp == env.sessions[0].opens
  {
    var st := InitialSim(env);
    assert MarketValue(st.book, st.prices) == 0.0;
    RecordSound(env, st, env.sessions[0].opens);
  }

  lemma AfterNone<S>(env: Env, grid: Grid, plan: Plan<S>)
    requires env.sessions != []
    ensures After(env, grid, plan, 0) == Start(env, plan)
  {
    hide Start, Timeline;
  }

  lemma Stepped<S>(env: Env, grid: Grid, plan: Plan<S>, k: nat)
    requires env.sessions != [] && 0 < k <= |Ticks(env)| && After(env, grid, plan, k).Ok?
    ensures After(env, grid, plan, k - 1).Ok?
    ensures After(env, grid, plan, k) == Step(env, grid, plan, After(env, grid, plan, k - 1).value, Ticks(env)[k - 1])
  {
    hide Step, Timeline;
  }

  lemma AfterStep<S>(env: Env, grid: Grid, plan: Plan<S>, k: nat)
    requires env.sessions != [] && 0 < k <= |Ticks(env)|
    ensures After(env, grid, plan, k) == var before := After(env, grid, plan, k - 1);
            if before.Ok? then Step(env, grid, plan, before.value, Ticks(env)[k - 1]) else before
  {
    hide Step, Timeline;
  }

  lemma TickScheduled(env: Env, k: nat)
    requires k < |Ticks(env)|
    ensures Scheduled(env.bars, env.sessions, env.script, Ticks(env)[k])
  {
    TimelineExact(env.bars, env.sessions, env.script);
    assert Ticks(env)[k] in Ticks(env);
  }

  /**
   * Every reachable state of a validated run is sound, and a run that stops early stopped for a permitted
   * reason: forced exit incomplete, an oversized liquidation, or a fault of the strategy.
   */
  lemma {:induction false} ReachableSound<S>(env: Env, grid: Grid, plan: Plan<S>, k: nat)
    requires GridSound(env, grid) && k <= |Ticks(env)|
    ensures After(env, grid, plan, k).Ok? ==> WorldSound(env, After(env, grid, plan, k).value)
    ensures After(env, grid, plan, k).Err? ==>
              exists j | 0 <= j < k :: After(env, grid, plan, j).Ok?
                && PermittedFault(env, grid, plan, After(env, grid, plan, j).value, Ticks(env)[j], After(env, grid, plan, k).error)
  {
    hide WorldSound, Step, Scheduled, PermittedFault, GridSound, Timeline;
    if k == 0 {
      GridHasSessions(env, grid);
      StartSound(env, plan);
    } else {
      GridHasSessions(env, grid);
      ReachableSound(env, grid, plan, k - 1);
      var before := After(env, grid, plan, k - 1);
      if before.Ok? {
        TickScheduled(env, k - 1);
        StepSound(env, grid, plan, before.value, Ticks(env)[k - 1]);
      }
    }
  }

  lemma GridHasSessions(env: Env, grid: Grid)
    requires GridSound(env, grid)
    ensures env.sessions != []
  {
  }

  /** From any reachable state on, history is only ever extended: settled orders, fills, trades and equity stay. */
  lemma {:induction false} HistoryExtends<S>(env: Env, grid: Grid, plan: Plan<S>, j: nat, k: nat)
    requires GridSound(env, grid) && j <= k <= |Ticks(env)| && After(env, grid, plan, k).Ok?
    ensures After(env, grid, plan, j).Ok? && Extends(After(env, grid, plan, j).value.sim, After(env, grid, plan, k).value.sim)
    decreases k
  {
    hide WorldSound, Step, Scheduled, PermittedFault, GridSound, Timeline, Extends;
    GridHasSessions(env, grid);
    if j == k {
      SelfExtends(After(env, grid, plan, k).value.sim);
    } else {
      HistoryExtends(env, grid, plan, j, k - 1);
      ReachableSound(env, grid, plan, k - 1);
      TickScheduled(env, k - 1);
      StepSound(env, grid, plan, After(env, grid, plan, k - 1).value, Ticks(env)[k - 1]);
      ExtendsTransitive(After(env, grid, plan, j).value.sim, After(env, grid, plan, k - 1).value.sim, After(env, grid, plan, k).value.sim);
    }
  }
}
