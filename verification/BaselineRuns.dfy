/** Whole runs of the baseline strategy: protection, no pyramiding, exclusive pairs, and the only ways to fail. */
module BaselineRuns {
  import opened Common
  import opened Orders
  import opened Costs
  import opened Execution
  import opened Accounting
  import opened Trades
  import opened Calendars
  import opened Clock
  import opened FeatureRows
  import opened Strategies
  import opened Baseline
  import opened Engine
  import opened Ledger
  import opened Safety
  import opened Grids
  import opened Runs
  import opened Timing
  import opened Flattening
  import opened Exclusivity
  import opened ClosedLoop
  import opened Protection
  import opened Numbering

  ghost predicate Kept(st: Sim, symbol: Symbol, p: Parameters, state: State) {
    exists buy: Option<nat>, shape: Shape :: Joint(st, symbol, p, state, buy, shape)
  }

  ghost predicate AllKept(env: Env, p: Parameters, st: Sim, instances: map<Symbol, State>) {
    forall y | y in env.symbols :: y in instances && Kept(st, y, p, instances[y])
  }

  /** No sale of the strategy was ever rejected. */
  ghost predicate SalesStand(st: Sim) {
    forall i | 0 <= i < |st.orders| && !st.orders[i].forced && st.orders[i].intent.side == Sell :: st.orders[i].status != Rejected
  }

  /** Of two orders of one group at most one has a fill. */
  ghost predicate PairsExclusive(st: Sim) {
    forall i: nat, j: nat | i < j < |st.orders| && SameGroup(st.orders[i], st.orders[j]) :: Exclusive(st.orders[i], st.orders[j])
  }

  ghost predicate SymbolsKnown(env: Env, st: Sim) {
    forall i | 0 <= i < |st.orders| :: st.orders[i].intent.symbol in env.symbols
  }

  ghost predicate Loop(env: Env, p: Parameters, st: Sim, instances: map<Symbol, State>) {
    AllKept(env, p, st, instances) && SalesStand(st) && PairsExclusive(st) && SymbolsKnown(env, st)
  }

  // ----- the fill loop

  lemma VisitedKept(env: Env, st: Sim, r: Sim, index: nat, base: Option<real>, bar: Bar, now: Time, left: Option<int>, symbol: Symbol, p: Parameters, state: State)
    requires Sound(env, st) && index < |st.orders| && st.orders[index].intent.symbol == bar.symbol
    requires Visited(env, st, r, index, base, bar, now, left)
    requires ForcedAlone(st) && (st.orders[index].forced ==> st.orders[index].intent.side == Sell)
    requires Kept(st, symbol, p, state)
    ensures Kept(r, symbol, p, state)
    ensures |r.orders| == |st.orders|
    ensures st.orders[index].Active() && !st.orders[index].forced && st.orders[index].intent.side == Sell && symbol == bar.symbol ==>
              r.orders[index].status != Rejected
  {
    hide Joint, Sound, Visited, ForcedAlone;
    var buy: Option<nat>, shape: Shape :| Joint(st, symbol, p, state, buy, shape);
    var laterBuy, laterShape := VisitedJoint(env, st, r, index, base, bar, now, left, symbol, p, state, buy, shape);
  }

  lemma VisitedSales(env: Env, st: Sim, r: Sim, index: nat, base: Option<real>, bar: Bar, now: Time, left: Option<int>)
    requires Sound(env, st) && index < |st.orders| && st.orders[index].intent.symbol == bar.symbol
    requires Visited(env, st, r, index, base, bar, now, left) && SalesStand(st)
    requires |r.orders| == |st.orders|
    requires st.orders[index].Active() && !st.orders[index].forced && st.orders[index].intent.side == Sell ==> r.orders[index].status != Rejected
    ensures SalesStand(r)
  {
    hide Sound, Visited, Signed;
    VisitedSummary(env, st, r, index, base, bar, now, left);
  }

  lemma VisitedPairs(env: Env, st: Sim, r: Sim, index: nat, base: Option<real>, bar: Bar, now: Time, left: Option<int>, cutoff: Time)
    requires Sound(env, st) && Sound(env, r) && index < |st.orders| && MayFill(st.orders[index], bar, cutoff)
    requires Visited(env, st, r, index, base, bar, now, left) && PairsExclusive(st) && |r.orders| == |st.orders|
    requires forall i | 0 <= i < |st.orders| :: r.orders[i].intent == st.orders[i].intent
    ensures PairsExclusive(r)
  {
    hide Sound, Visited;
    forall i: nat, j: nat | i < j < |r.orders| && SameGroup(r.orders[i], r.orders[j])
      ensures Exclusive(r.orders[i], r.orders[j])
    {
      assert SameGroup(st.orders[i], st.orders[j]);
      VisitedExclusive(env, st, r, index, base, bar, now, left, cutoff, i, j);
    }
  }

  lemma VisitedIntents(env: Env, st: Sim, r: Sim, index: nat, base: Option<real>, bar: Bar, now: Time, left: Option<int>)
    requires Sound(env, st) && index < |st.orders| && st.orders[index].intent.symbol == bar.symbol
    requires Visited(env, st, r, index, base, bar, now, left)
    ensures |r.orders| == |st.orders| && forall i | 0 <= i < |st.orders| :: r.orders[i].intent == st.orders[i].intent
  {
    hide Sound, Visited, Signed;
    VisitedSummary(env, st, r, index, base, bar, now, left);
  }

  lemma VisitedLoop(env: Env, st: Sim, r: Sim, index: nat, base: Option<real>, bar: Bar, now: Time, left: Option<int>, cutoff: Time,
                    p: Parameters, instances: map<Symbol, State>)
    requires Sound(env, st) && Sound(env, r) && index < |st.orders| && MayFill(st.orders[index], bar, cutoff)
    requires Visited(env, st, r, index, base, bar, now, left) && Loop(env, p, st, instances)
    requires ForcedAlone(st) && (st.orders[index].forced ==> st.orders[index].intent.side == Sell)
    ensures Loop(env, p, r, instances)
  {
    hide Sound, Visited, ForcedAlone, Kept, PairsExclusive, SalesStand;
    VisitedIntents(env, st, r, index, base, bar, now, left);
    forall y | y in env.symbols
      ensures Kept(r, y, p, instances[y])
    {
      VisitedKept(env, st, r, index, base, bar, now, left, y, p, instances[y]);
    }
    assert bar.symbol in env.symbols;
    VisitedKept(env, st, r, index, base, bar, now, left, bar.symbol, p, instances[bar.symbol]);
    VisitedSales(env, st, r, index, base, bar, now, left);
    VisitedPairs(env, st, r, index, base, bar, now, left, cutoff);
  }

  lemma SameOrdersLoop(env: Env, p: Parameters, st: Sim, r: Sim, instances: map<Symbol, State>)
    requires Loop(env, p, st, instances) && r.orders == st.orders && r.book == st.book
    ensures Loop(env, p, r, instances)
  {
    hide Joint;
    forall y | y in env.symbols
      ensures Kept(r, y, p, instances[y])
    {
      var buy: Option<nat>, shape: Shape :| Joint(st, y, p, instances[y], buy, shape);
      JointFrame(st, r, y, p, instances[y], buy, shape);
    }
  }

  lemma SettledLoop(env: Env, grid: Grid, k: nat, c: nat, s: Session, st: Sim, p: Parameters, instances: map<Symbol, State>)
    requires GridSound(env, grid) && k < |Ticks(env)| && c < |env.bars| && Ticks(env)[k] == Tick(env.bars[c].availableAt, BarComplete, c)
    requires s in env.sessions && InTile(grid, s, env.bars[c]) && SessionGrid(grid, s)
    requires Healthy(env, st) && InCharge(env, grid, k, st) && Loop(env, p, st, instances)
    ensures var r := Settled(env, st, env.bars[c], grid.cutoffs[s.opens]);
            r.Ok? && Healthy(env, r.value) && InCharge(env, grid, k, r.value) && Loop(env, p, r.value, instances)
  {
    hide Timeline, Ticks, Healthy, Settled, Extends, Logged, OnGrid, Sound, InCharge, Visited, GridSound, BarFills, Loop;
    GridHasSessions(env, grid);
    var item := env.bars[c];
    var P := (x: Sim) => InCharge(env, grid, k, x) && Loop(env, p, x, instances);
    forall x, y | OnlyLogs(x, y, item.availableAt) && P(x)
      ensures P(y)
    {
      SameOrdersInCharge(env, grid, k, x, y);
      SameOrdersLoop(env, p, x, y, instances);
    }
    forall x: Sim, r: Sim, n: nat, base: Option<real>, l {:trigger Visited(env, x, r, n, base, item.bar, item.availableAt, l)} |
      Sound(env, x) && P(x) && n < |x.orders| && MayFill(x.orders[n], item.bar, grid.cutoffs[s.opens])
      && Visited(env, x, r, n, base, item.bar, item.availableAt, l) && Sound(env, r)
      ensures P(r)
    {
      VisitedInCharge(env, grid, k, c, s, x, r, n, base, l);
      ForcedSells(env, grid, k, x);
      VisitedLoop(env, x, r, n, base, item.bar, item.availableAt, l, grid.cutoffs[s.opens], p, instances);
    }
    SettledKeeps(env, st, item, grid.cutoffs[s.opens], P);
    var settled := Settled(env, st, item, grid.cutoffs[s.opens]).value;
    var x :| P(x) && x.book == settled.book && x.orders == settled.orders && x.fills == settled.fills;
    SameOrdersInCharge(env, grid, k, x, settled);
    SameOrdersLoop(env, p, x, settled, instances);
  }

  lemma ForcedSells(env: Env, grid: Grid, k: nat, st: Sim)
    requires env.sessions != [] && k <= |Ticks(env)| && InCharge(env, grid, k, st)
    ensures ForcedAlone(st)
    ensures forall i | 0 <= i < |st.orders| && st.orders[i].forced :: st.orders[i].intent.side == Sell && st.orders[i].intent.ocoGroup == None
  {
    hide Timeline, Ticks, FillTimed;
    forall i | 0 <= i < |st.orders| && st.orders[i].forced
      ensures st.orders[i].intent.side == Sell && st.orders[i].intent.ocoGroup == None
    {
      assert OrderTimed(env, grid, k, st.orders[i]);
    }
  }

  // ----- evaluation

  lemma LeavesPairs(st: Sim, r: Sim, symbol: Symbol, p: Parameters, state: State, from: nat)
    requires Appendix(st, r, symbol, from) && PairsExclusive(st) && AllOwned(st, symbol, state) && from == state.sequence
    requires forall i | 0 <= i < |st.orders| && st.orders[i].forced :: st.orders[i].intent.ocoGroup == None
    ensures PairsExclusive(r)
  {
    hide SimOrder.Active;
    forall i: nat, j: nat | i < j < |r.orders| && SameGroup(r.orders[i], r.orders[j])
      ensures Exclusive(r.orders[i], r.orders[j])
    {
      if j < |st.orders| {
        assert SameGroup(st.orders[i], st.orders[j]);
        assert Exclusive(st.orders[i], st.orders[j]);
      }
    }
  }

  lemma LeavesLoop(env: Env, st: Sim, r: Sim, symbol: Symbol, p: Parameters, instances: map<Symbol, State>, later: State, buy: Option<nat>, shape: Shape)
    requires Loop(env, p, st, instances) && symbol in env.symbols && r.book == st.book
    requires Appendix(st, r, symbol, instances[symbol].sequence) && Joint(r, symbol, p, later, buy, shape)
    requires forall i | 0 <= i < |st.orders| && st.orders[i].forced :: st.orders[i].intent.ocoGroup == None
    ensures Loop(env, p, r, instances[symbol := later])
  {
    hide Joint, PairsExclusive, SimOrder.Active;
    forall y | y in env.symbols
      ensures Kept(r, y, p, instances[symbol := later][y])
    {
      if y != symbol {
        var b: Option<nat>, h: Shape :| Joint(st, y, p, instances[y], b, h);
        JointFrame(st, r, y, p, instances[y], b, h);
      }
    }
    var b: Option<nat>, h: Shape :| Joint(st, symbol, p, instances[symbol], b, h);
    JointParts(st, symbol, p, instances[symbol], b, h);
    LeavesPairs(st, r, symbol, p, instances[symbol], instances[symbol].sequence);
  }

  /** No reference is numbered above its symbol's counter. */
  ghost predicate ReferencesBounded(env: Env, runtime: Runtime<State>) {
    forall y | y in env.symbols && y in runtime.instances :: Bounded(runtime.references, y, runtime.instances[y].sequence)
  }

  /** The whole holding is protected, by working sales that the invariant accounts for. */
  ghost predicate Secured(st: Sim, symbol: Symbol, p: Parameters, state: State) {
    exists buy: Option<nat>, shape: Shape :: Joint(st, symbol, p, state, buy, shape) && Protected(st, symbol, state, shape)
  }

  predicate BaselineFault(error: Error) { error in {FeatureLate, NonpositiveStop, IntentLimitExceeded} }

  lemma EvaluateLoop(env: Env, grid: Grid, p: Parameters, w: World<State>, c: nat, s: Session)
    requires GridSound(env, grid) && WorldSound(env, w) && w.runtime.Some? && c < |env.bars|
    requires s in env.sessions && InTile(grid, s, env.bars[c]) && SessionGrid(grid, s)
    requires Loop(env, p, w.sim, w.runtime.value.instances) && ReferencesBounded(env, w.runtime.value)
    requires forall i | 0 <= i < |w.sim.orders| && w.sim.orders[i].forced :: w.sim.orders[i].intent.ocoGroup == None
    ensures var r := EvaluateStrategy(env, grid, PlanOf(p), w, env.bars[c], s, grid.cutoffs[s.opens]);
            && (r.Err? ==> BaselineFault(r.error))
            && (r.Ok? ==> r.value.runtime.Some? && Loop(env, p, r.value.sim, r.value.runtime.value.instances)
                          && ReferencesBounded(env, r.value.runtime.value))
            && (r.Ok? && env.bars[c].availableAt < grid.cutoffs[s.opens] ==>
                  var y := env.bars[c].bar.symbol; y in r.value.runtime.value.instances && Secured(r.value.sim, y, p, r.value.runtime.value.instances[y]))
  {
    hide Healthy, RequestAll, OnGrid, Loop, Evaluation, Checked, Joint, Bounded, Appendix, Protected, Snapshots;
    var item := env.bars[c];
    var y, now := item.bar.symbol, item.availableAt;
    var runtime := w.runtime.value;
    if env.features[Key(item)].availableAt <= now {
      var ctx := ContextOf(w.sim, item, env.features[Key(item)], s, grid.cutoffs[s.opens]);
      var state := runtime.instances[y];
      assert Shown(env, grid, w.sim, ctx, s);
      LoopKept(env, p, w.sim, runtime.instances, y);
      var buy: Option<nat>, shape: Shape :| Joint(w.sim, y, p, state, buy, shape);
      var e := Evaluation(p, state, ctx);
      var ran := Emit(w.sim, now, StrategyRan(y, item.bar.timestamp, ctx.availableAt, if e.Ok? then |e.value.1| else 0));
      JointFrame(w.sim, ran, y, p, state, buy, shape);
      SameOrdersLoop(env, p, w.sim, ran, runtime.instances);
      var laterBuy, laterShape := EvaluationJoint(env, grid, ran, ctx, s, p, state, buy, shape, state.sequence);
      if e.Ok? {
        var (later, requests) := e.value;
        BatchBeforeClose(p, state, ctx);
        BatchAccepted(p, state, ctx, runtime.references);
        BatchBounded(env, runtime, y, later, Checked(ctx, requests, runtime.references).value, state.sequence, p, state, ctx);
        var r := RequestAll(env, grid, ran, y, now, requests).value;
        LeavesLoop(env, ran, r, y, p, runtime.instances, later, laterBuy, laterShape);
        assert now < grid.cutoffs[s.opens] ==> !StandsAside(ctx) by { assert SessionGrid(grid, s); }
      }
    }
  }

  lemma LoopKept(env: Env, p: Parameters, st: Sim, instances: map<Symbol, State>, y: Symbol)
    requires Loop(env, p, st, instances) && y in env.symbols
    ensures y in instances && Kept(st, y, p, instances[y])
  {
  }

  /** Requests are made only before the session's close. */
  lemma BatchBeforeClose(p: Parameters, state: State, ctx: Context)
    requires Evaluation(p, state, ctx).Ok?
    ensures Evaluation(p, state, ctx).value.1 != [] ==> ctx.currentTime < ctx.sessionClose
  {
    hide Holding, Finishing, Entering, Signal;
  }

  lemma BatchBounded(env: Env, runtime: Runtime<State>, y: Symbol, later: State, references: set<Reference>, from: nat, p: Parameters, state: State, ctx: Context)
    requires ReferencesBounded(env, runtime) && y in runtime.instances
    requires Bounded(references, y, later.sequence)
    requires forall r | r in references && r !in runtime.references :: r.Lifecycle? && r.symbol == y
    ensures ReferencesBounded(env, Runtime(runtime.instances[y := later], references))
  {
    forall x | x in env.symbols && x in runtime.instances[y := later].Keys
      ensures Bounded(references, x, runtime.instances[y := later][x].sequence)
    {
      if x != y {
        assert Bounded(runtime.references, x, runtime.instances[x].sequence);
      }
    }
  }

  // ----- ticks

  ghost predicate LoopWorld(env: Env, p: Parameters, w: World<State>) {
    && w.runtime.Some?
    && Loop(env, p, w.sim, w.runtime.value.instances)
    && ReferencesBounded(env, w.runtime.value)
  }

  lemma LoopReservesName(env: Env, p: Parameters, w: World<State>)
    requires LoopWorld(env, p, w)
    ensures NameReserved(w.sim)
  {
    hide SimOrder.Active;
    forall i | 0 <= i < |w.sim.orders| && !w.sim.orders[i].forced
      ensures w.sim.orders[i].intent.reference != FORCED_EXIT
    {
      var y := w.sim.orders[i].intent.symbol;
      LoopKept(env, p, w.sim, w.runtime.value.instances, y);
      var buy: Option<nat>, shape: Shape :| Joint(w.sim, y, p, w.runtime.value.instances[y], buy, shape);
      assert Owned(w.sim.orders[i], y, w.runtime.value.instances[y]);
    }
  }

  lemma CompleteLoop(env: Env, grid: Grid, p: Parameters, k: nat, w: World<State>, c: nat)
    requires GridSound(env, grid) && WorldSound(env, w) && k < |Ticks(env)| && c < |env.bars|
    requires Ticks(env)[k] == Tick(env.bars[c].availableAt, BarComplete, c)
    requires InCharge(env, grid, k, w.sim) && LoopWorld(env, p, w)
    ensures var r := Complete(env, grid, PlanOf(p), w, env.bars[c]);
            && (r.Err? ==> BaselineFault(r.error))
            && (r.Ok? ==> LoopWorld(env, p, r.value))
            && (r.Ok? ==> forall s | s in env.sessions && InTile(grid, s, env.bars[c]) && SessionGrid(grid, s) && env.bars[c].availableAt < grid.cutoffs[s.opens] ::
                  var y := env.bars[c].bar.symbol; y in r.value.runtime.value.instances && Secured(r.value.sim, y, p, r.value.runtime.value.instances[y]))
  {
    hide Timeline, Ticks, Healthy, Settled, EvaluateStrategy, OnGrid, Extends, Logged, Loop, InCharge, BarFills, ReferencesBounded, Visited, GridSound, Secured;
    GridHasSessions(env, grid);
    var s := BarSession(env, grid, c);
    SettledLoop(env, grid, k, c, s, w.sim, p, w.runtime.value.instances);
    SettledKeeps(env, w.sim, env.bars[c], grid.cutoffs[s.opens], (x: Sim) => true);
    var settled := Settled(env, w.sim, env.bars[c], grid.cutoffs[s.opens]).value;
    ForcedSells(env, grid, k, settled);
    EvaluateLoop(env, grid, p, World(settled, w.runtime), c, s);
    forall t | t in env.sessions && InTile(grid, t, env.bars[c])
      ensures t == s
    {
      GridOrdered(env, grid);
      SessionAtExact(env.sessions, env.bars[c].bar.timestamp);
    }
  }

  lemma GridOrdered(env: Env, grid: Grid)
    requires GridSound(env, grid)
    ensures Ordered(env.sessions)
  {
  }

  /** With none of the symbol's ordinary orders working, only the state and the holding matter. */
  lemma IdleKept(st: Sim, r: Sim, symbol: Symbol, p: Parameters, state: State)
    requires Kept(st, symbol, p, state) && r.book == st.book && |st.orders| <= |r.orders|
    requires forall i | 0 <= i < |st.orders| :: r.orders[i].intent == st.orders[i].intent && r.orders[i].forced == st.orders[i].forced
    requires forall i | |st.orders| <= i < |r.orders| :: r.orders[i].forced
    requires forall i | 0 <= i < |r.orders| :: !Working(r.orders[i], symbol)
    ensures Kept(r, symbol, p, state)
  {
    var buy: Option<nat>, shape: Shape :| Joint(st, symbol, p, state, buy, shape);
    forall i: nat | i < |r.orders| && r.orders[i].intent.symbol == symbol && !r.orders[i].forced
      ensures Owned(r.orders[i], symbol, state)
    {
      assert Owned(st.orders[i], symbol, state);
    }
    assert Joint(r, symbol, p, state, None, Bare);
  }

  /** Ticks without fills keep pairs exclusive; they add at most liquidations. */
  lemma TickPairs(env: Env, st: Sim, r: Sim)
    requires Sound(env, st) && Sound(env, r) && Extends(st, r) && r.fills == st.fills && PairsExclusive(st)
    requires forall i | |st.orders| <= i < |r.orders| :: r.orders[i].intent.ocoGroup.None?
    ensures PairsExclusive(r)
  {
    hide Sound;
    forall i: nat, j: nat | i < j < |r.orders| && SameGroup(r.orders[i], r.orders[j])
      ensures Exclusive(r.orders[i], r.orders[j])
    {
      assert j < |st.orders|;
      assert Carried(st.orders[i], r.orders[i]) && Carried(st.orders[j], r.orders[j]);
      SameFillsExclusive(env, st, r, i, j);
    }
  }

  lemma CloseLoop(env: Env, p: Parameters, w: World<State>, now: Time)
    requires WorldSound(env, w) && LoopWorld(env, p, w)
    ensures var r := CloseSession(w.sim, now);
            && (r.Err? ==> r.error == ForcedExitIncomplete)
            && (r.Ok? ==> LoopWorld(env, p, World(r.value, w.runtime)))
  {
    hide Healthy, MoveWhere, RecordEquity, Joint, AnyHeld, Flat, PairsExclusive, ReferencesBounded;
    CloseSound(env, w.sim, now);
    var r := CloseSession(w.sim, now);
    if r.Ok? {
      var told := Emit(w.sim, now, SessionClosed);
      MoveWhereExact(told, Anyone(), Expired, now, Text("DAY_SESSION_ENDED"), 0);
      var expired := MoveWhere(told, Anyone(), Expired, now, Text("DAY_SESSION_ENDED"), 0);
      EmitKeeps(env, w.sim, now, SessionClosed);
      MoveWhereKeeps(env, told, Anyone(), Expired, now, Text("DAY_SESSION_ENDED"));
      RecordSound(env, expired, now);
      forall y | y in env.symbols
        ensures Kept(r.value, y, p, w.runtime.value.instances[y])
      {
        IdleKept(w.sim, r.value, y, p, w.runtime.value.instances[y]);
      }
      HealthySound(env, w.sim);
      HealthySound(env, r.value);
      TickPairs(env, w.sim, r.value);
    }
  }

  lemma OpenLoop(env: Env, p: Parameters, w: World<State>, now: Time)
    requires WorldSound(env, w) && LoopWorld(env, p, w)
    ensures var r := OpenSession(w.sim, now); r.Ok? && LoopWorld(env, p, World(r.value, w.runtime))
  {
    hide Healthy, Loop, OpenSession, ReferencesBounded;
    OpenSound(env, w.sim, now);
    SameOrdersLoop(env, p, w.sim, OpenSession(w.sim, now).value, w.runtime.value.instances);
  }

  /** The effect of a flattening, order by order. */
  lemma FlattenOrders(env: Env, grid: Grid, st: Sim, symbol: Symbol, now: Time)
    requires Flatten(env, grid, st, symbol, now).Ok? && st.book.Held(symbol) != 0
    requires SessionAt(env.sessions, now).Some?
    requires var opens := SessionAt(env.sessions, now).value.opens; opens in grid.openings && opens in grid.cutoffs
    ensures var r := Flatten(env, grid, st, symbol, now).value;
            && r.book == st.book && r.fills == st.fills && |r.orders| == |st.orders| + 1
            && (forall i | 0 <= i < |st.orders| ::
                  r.orders[i] == if st.orders[i].Active() && st.orders[i].intent.symbol == symbol
                                 then st.orders[i].Moved(Cancelled, now, Text("SESSION_EXIT_CUTOFF")) else st.orders[i])
            && r.orders[|st.orders|].forced && r.orders[|st.orders|].intent.ocoGroup.None? && r.orders[|st.orders|].intent.symbol == symbol
  {
    hide SessionAt, MadeOrder, EligibleFrom, MoveWhere, NewOrder, SimOrder.Active;
    var cleared := MoveWhere(st, OfSymbol(symbol), Cancelled, now, Text("SESSION_EXIT_CUTOFF"), 0);
    MoveWhereExact(st, OfSymbol(symbol), Cancelled, now, Text("SESSION_EXIT_CUTOFF"), 0);
    var warned := cleared.(warnings := cleared.warnings + {ForcedSessionExit});
    var intent := Validated(ForcedIntent(symbol, st.book.Held(symbol), now)).value;
    NewOrderExact(env, grid, warned, intent, now, true);
    var opens := SessionAt(env.sessions, now).value.opens;
    MadeShape(env, intent, |st.orders| + 1, EligibleFrom(grid.openings[opens], now, true), now, true, now >= grid.cutoffs[opens], st.book.Held(symbol));
  }

  lemma FlattenLoop(env: Env, grid: Grid, p: Parameters, st: Sim, r: Sim, symbol: Symbol, now: Time, instances: map<Symbol, State>)
    requires Loop(env, p, st, instances) && symbol in env.symbols && Sound(env, st) && Sound(env, r) && Extends(st, r)
    requires r.book == st.book && r.fills == st.fills && |r.orders| == |st.orders| + 1
    requires forall i | 0 <= i < |st.orders| ::
               r.orders[i] == if st.orders[i].Active() && st.orders[i].intent.symbol == symbol
                              then st.orders[i].Moved(Cancelled, now, Text("SESSION_EXIT_CUTOFF")) else st.orders[i]
    requires r.orders[|st.orders|].forced && r.orders[|st.orders|].intent.ocoGroup.None? && r.orders[|st.orders|].intent.symbol == symbol
    ensures Loop(env, p, r, instances)
  {
    hide Sound, Extends, Joint, PairsExclusive;
    forall y | y in env.symbols
      ensures Kept(r, y, p, instances[y])
    {
      if y == symbol {
        IdleKept(st, r, y, p, instances[y]);
      } else {
        var buy: Option<nat>, shape: Shape :| Joint(st, y, p, instances[y], buy, shape);
        JointFrame(st, r, y, p, instances[y], buy, shape);
      }
    }
    TickPairs(env, st, r);
  }

  /** A holding of the baseline is never too large to liquidate. */
  lemma HeldBounded(env: Env, p: Parameters, st: Sim, instances: map<Symbol, State>, y: Symbol)
    requires Loop(env, p, st, instances) && y in env.symbols
    ensures 0 <= st.book.Held(y) <= p.quantity <= MAX_QUANTITY
  {
    LoopKept(env, p, st, instances, y);
    var buy: Option<nat>, shape: Shape :| Joint(st, y, p, instances[y], buy, shape);
  }

  lemma OpenBarLoop(env: Env, grid: Grid, p: Parameters, w: World<State>, c: nat)
    requires GridSound(env, grid) && WorldSound(env, w) && LoopWorld(env, p, w) && c < |env.bars|
    ensures var r := OpenBar(env, grid, w.sim, env.bars[c]); r.Ok? && LoopWorld(env, p, World(r.value, w.runtime))
  {
    hide Healthy, Loop, OnGrid, Flatten, ReferencesBounded, Logged, Extends;
    var item := env.bars[c];
    var symbol, now := item.bar.symbol, item.bar.timestamp;
    var s := BarSession(env, grid, c);
    var told := Emit(w.sim, now, BarOpened(symbol, item.bar.open));
    OpenBarSound(env, grid, w.sim, c);
    EmitKeeps(env, w.sim, now, BarOpened(symbol, item.bar.open));
    SameOrdersLoop(env, p, w.sim, told, w.runtime.value.instances);
    HeldBounded(env, p, told, w.runtime.value.instances, symbol);
    FlattenSound(env, grid, told, symbol, now);
    if now == grid.cutoffs[s.opens] && told.book.Held(symbol) != 0 {
      FlattenOrders(env, grid, told, symbol, now);
      var r := Flatten(env, grid, told, symbol, now).value;
      HealthySound(env, told);
      HealthySound(env, r);
      FlattenLoop(env, grid, p, told, r, symbol, now, w.runtime.value.instances);
    } else {
      FlattenNothing(env, grid, told, symbol, now);
    }
  }

  lemma FlattenNothing(env: Env, grid: Grid, st: Sim, symbol: Symbol, now: Time)
    ensures st.book.Held(symbol) == 0 ==> Flatten(env, grid, st, symbol, now) == Ok(st)
  {
  }

  predicate RunFault(error: Error) { BaselineFault(error) || error == ForcedExitIncomplete }

  lemma StepLoop(env: Env, grid: Grid, p: Parameters, k: nat, w: World<State>)
    requires GridSound(env, grid) && WorldSound(env, w) && k < |Ticks(env)| && env.script == []
    requires InCharge(env, grid, k, w.sim) && LoopWorld(env, p, w)
    ensures var r := Step(env, grid, PlanOf(p), w, Ticks(env)[k]);
            && (r.Err? ==> RunFault(r.error) && (Ticks(env)[k].kind != SessionClose ==> BaselineFault(r.error)))
            && (r.Ok? ==> LoopWorld(env, p, r.value))
  {
    hide Timeline, OnGrid, InCharge, WorldSound, Engine.Complete, OpenBar, CloseSession, OpenSession, LoopWorld, GridSound;
    TicksFrom(env, grid, k);
    match Ticks(env)[k].kind {
      case BarComplete => CompleteLoop(env, grid, p, k, w, Ticks(env)[k].index);
      case BarOpen =>
        OpenBarLoop(env, grid, p, w, Ticks(env)[k].index);
        Rewrapped(w, OpenBar(env, grid, w.sim, env.bars[Ticks(env)[k].index]), p, env);
      case SessionClose =>
        CloseLoop(env, p, w, Ticks(env)[k].timestamp);
        Rewrapped(w, CloseSession(w.sim, Ticks(env)[k].timestamp), p, env);
      case SessionOpen =>
        OpenLoop(env, p, w, Ticks(env)[k].timestamp);
        Rewrapped(w, OpenSession(w.sim, Ticks(env)[k].timestamp), p, env);
      case Decision =>
    }
  }

  lemma Rewrapped(w: World<State>, sim: Result<Sim>, p: Parameters, env: Env)
    ensures sim.Ok? ==> Rewrap(w, sim) == Ok(World(sim.value, w.runtime))
  {
  }

  lemma StartLoop(env: Env, p: Parameters)
    requires env.sessions != [] && env.strategic
    ensures Start(env, PlanOf(p)).Ok? && LoopWorld(env, p, Start(env, PlanOf(p)).value)
  {
    StartSound(env, PlanOf(p));
    var w := Start(env, PlanOf(p)).value;
    forall y | y in env.symbols
      ensures y in w.runtime.value.instances && Kept(w.sim, y, p, w.runtime.value.instances[y])
    {
      assert Joint(w.sim, y, p, FRESH, None, Bare);
    }
  }

  /** Every reachable state of a baseline run satisfies the joint invariants, and a run can fail only as listed. */
  lemma {:induction false} ReachableLoop(env: Env, grid: Grid, p: Parameters, k: nat)
    requires GridSound(env, grid) && env.strategic && env.script == [] && k <= |Ticks(env)|
    ensures var r := After(env, grid, PlanOf(p), k);
            && (r.Err? ==> RunFault(r.error))
            && (r.Ok? ==> LoopWorld(env, p, r.value) && WorldSound(env, r.value) && InCharge(env, grid, k, r.value.sim))
  {
    hide WorldSound, Step, Timeline, InCharge, GridSound, LoopWorld, NameReserved, RunFault;
    GridHasSessions(env, grid);
    if k == 0 {
      StartSound(env, PlanOf(p));
      StartLoop(env, p);
      NothingInCharge(env, grid, After(env, grid, PlanOf(p), 0).value.sim);
    } else {
      ReachableLoop(env, grid, p, k - 1);
      var before := After(env, grid, PlanOf(p), k - 1);
      if before.Ok? {
        StepLoop(env, grid, p, k - 1, before.value);
        ReachableSound(env, grid, PlanOf(p), k);
        LoopReservesName(env, p, before.value);
        if After(env, grid, PlanOf(p), k).Ok? {
          StepInCharge(env, grid, PlanOf(p), k - 1, before.value);
        }
      }
    }
  }
}
