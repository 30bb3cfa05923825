/** What a user of the baseline strategy may rely on, stated on the simulator's state alone. */
module Guarantees {
  import opened Common
  import opened Orders
  import opened Accounting
  import opened Calendars
  import opened Clock
  import opened Strategies
  import opened Baseline
  import opened Decisions
  import opened Engine
  import opened Ledger
  import opened Grids
  import opened Runs
  import opened Timing
  import opened Flattening
  import opened Exclusivity
  import opened ClosedLoop
  import opened Protection
  import opened BaselineRuns

  /** The symbol's active ordinary orders of one side, by index. */
  function WorkingOrders(st: Sim, symbol: Symbol, side: Side): set<nat> {
    set i: nat | i < |st.orders| && WorkingSide(st.orders[i], symbol, side)
  }

  predicate Tagged(o: SimOrder, tags: set<Tag>) { o.intent.reference.Lifecycle? && o.intent.reference.tag in tags }

  ghost predicate ExitCovers(st: Sim, symbol: Symbol, m: nat) {
    && WorkingOrders(st, symbol, Sell) == {m} && m < |st.orders|
    && Tagged(st.orders[m], {Reversal, StopRemainder}) && st.orders[m].intent.orderType == Market
    && st.orders[m].Remaining() == st.book.Held(symbol)
  }

  ghost predicate StopCovers(st: Sim, symbol: Symbol, s: nat) {
    && WorkingOrders(st, symbol, Sell) == {s} && s < |st.orders|
    && Tagged(st.orders[s], {Stop}) && st.orders[s].intent.orderType == StopMarket
    && st.orders[s].filledQuantity > 0 && st.orders[s].Remaining() == st.book.Held(symbol)
  }

  ghost predicate PairCovers(st: Sim, symbol: Symbol, p: Parameters, atr: real, s: nat, t: nat) {
    && WorkingOrders(st, symbol, Sell) == {s, t} && s < t < |st.orders|
    && Tagged(st.orders[s], {Stop}) && st.orders[s].intent.orderType == StopMarket
    && Tagged(st.orders[t], {Target}) && st.orders[t].intent.orderType == Limit
    && SameGroup(st.orders[s], st.orders[t])
    && st.orders[s].filledQuantity == 0 == st.orders[t].filledQuantity
    && st.orders[s].Remaining() == st.book.Held(symbol) == st.orders[t].Remaining()
    && var average := st.book.PositionOf(symbol).AveragePrice();
       && st.orders[s].intent.triggerPrice == Some(StopPrice(p, average, atr))
       && st.orders[t].intent.limitPrice == Some(TargetPrice(p, average, atr))
  }

  /** What is for sale covers exactly what is held, in one of the three permitted ways. */
  ghost predicate FullyProtected(st: Sim, symbol: Symbol, p: Parameters, atr: Option<real>) {
    st.book.Held(symbol) > 0 ==>
      atr.Some? && atr.value > 0.0
      && ((exists m: nat :: ExitCovers(st, symbol, m))
          || (exists s: nat :: StopCovers(st, symbol, s))
          || (exists s: nat, t: nat :: PairCovers(st, symbol, p, atr.value, s, t)))
  }

  lemma SecuredProtects(st: Sim, symbol: Symbol, p: Parameters, state: State)
    requires Secured(st, symbol, p, state)
    ensures FullyProtected(st, symbol, p, state.entryAtr)
  {
    hide StopPrice, TargetPrice, SimOrder.Active, Position.AveragePrice;
    var buy: Option<nat>, shape: Shape :| Joint(st, symbol, p, state, buy, shape) && Protected(st, symbol, state, shape);
    if st.book.Held(symbol) > 0 {
      assert WorkingOrders(st, symbol, Sell) == shape.Members() by { SalesAreMembers(st, symbol, p, state, buy, shape); }
      match shape {
        case Exiting(m) =>
          assert Owned(st.orders[m], symbol, state);
          assert ExitCovers(st, symbol, m);
        case Stopping(s) =>
          assert Owned(st.orders[s], symbol, state);
          assert StopCovers(st, symbol, s);
        case Paired(s, t) =>
          assert Owned(st.orders[s], symbol, state) && Owned(st.orders[t], symbol, state);
          assert PairCovers(st, symbol, p, state.entryAtr.value, s, t);
        case Bare =>
        case Taking(_) =>
      }
    }
  }

  lemma SalesAreMembers(st: Sim, symbol: Symbol, p: Parameters, state: State, buy: Option<nat>, shape: Shape)
    requires Joint(st, symbol, p, state, buy, shape)
    ensures WorkingOrders(st, symbol, Sell) == shape.Members()
  {
    hide SimOrder.Active, SimOrder.Remaining, Owned;
  }

  /**
   * Protection coverage: right after the strategy was asked at a bar that completed before its session's cutoff,
   * whatever is held of the symbol is covered in full by a market exit, by a part-filled stop, or by an unfilled
   * one-cancels-other pair at the frozen ATR's distances from the average entry price.
   */
  lemma Coverage(env: Env, grid: Grid, p: Parameters, k: nat, c: nat, s: Session)
    requires GridSound(env, grid) && env.strategic && env.script == [] && 0 < k <= |Ticks(env)|
    requires c < |env.bars| && Ticks(env)[k - 1] == Tick(env.bars[c].availableAt, BarComplete, c)
    requires SessionAt(env.sessions, env.bars[c].bar.timestamp) == Some(s)
    requires s.opens in grid.cutoffs && env.bars[c].availableAt < grid.cutoffs[s.opens]
    requires After(env, grid, PlanOf(p), k).Ok?
    ensures var w := After(env, grid, PlanOf(p), k).value;
            var y := env.bars[c].bar.symbol;
            w.runtime.Some? && y in w.runtime.value.instances
            && FullyProtected(w.sim, y, p, w.runtime.value.instances[y].entryAtr)
  {
    hide WorldSound, Timeline, InCharge, GridSound, LoopWorld, RunFault, Step, Engine.Complete, Secured, FullyProtected, Ticks;
    GridHasSessions(env, grid);
    ReachableLoop(env, grid, p, k - 1);
    var before := After(env, grid, PlanOf(p), k - 1).value;
    var own := BarSession(env, grid, c);
    CompleteLoop(env, grid, p, k - 1, before, c);
    CompletingStep(env, grid, PlanOf(p), before, Ticks(env)[k - 1]);
    assert Step(env, grid, PlanOf(p), before, Ticks(env)[k - 1]) == After(env, grid, PlanOf(p), k);
    var w := After(env, grid, PlanOf(p), k).value;
    var y := env.bars[c].bar.symbol;
    LoopRuntime(env, p, w);
    SecuredProtects(w.sim, y, p, w.runtime.value.instances[y]);
  }

  lemma CompletingStep<S>(env: Env, grid: Grid, plan: Plan<S>, w: World<S>, tick: Tick)
    requires tick.kind == BarComplete && tick.index < |env.bars|
    ensures Step(env, grid, plan, w, tick) == Engine.Complete(env, grid, plan, w, env.bars[tick.index])
  {
  }

  lemma LoopRuntime(env: Env, p: Parameters, w: World<State>)
    requires LoopWorld(env, p, w)
    ensures w.runtime.Some? && Loop(env, p, w.sim, w.runtime.value.instances)
  {
  }

  /**
   * No pyramiding: in every reachable state a symbol has at most one working purchase, which together with the
   * holding stays within the configured size; and a held symbol has a positive entry ATR on record.
   */
  lemma NeverPyramids(env: Env, grid: Grid, p: Parameters, k: nat, y: Symbol)
    requires GridSound(env, grid) && env.strategic && env.script == [] && k <= |Ticks(env)| && y in env.symbols
    requires After(env, grid, PlanOf(p), k).Ok?
    ensures var w := After(env, grid, PlanOf(p), k).value;
            && w.runtime.Some? && y in w.runtime.value.instances
            && (forall i, j | i in WorkingOrders(w.sim, y, Buy) && j in WorkingOrders(w.sim, y, Buy) :: i == j)
            && (forall i | i in WorkingOrders(w.sim, y, Buy) :: w.sim.book.Held(y) + w.sim.orders[i].Remaining() <= p.quantity)
            && 0 <= w.sim.book.Held(y) <= p.quantity
            && (w.sim.book.Held(y) > 0 ==>
                  w.runtime.value.instances[y].entryAtr.Some? && w.runtime.value.instances[y].entryAtr.value > 0.0)
  {
    hide WorldSound, Timeline, InCharge, GridSound, RunFault, Step, Loop, ReferencesBounded, After, ShapeFits, AllOwned, PairPriced;
    GridHasSessions(env, grid);
    ReachableLoop(env, grid, p, k);
    var w := After(env, grid, PlanOf(p), k).value;
    LoopKept(env, p, w.sim, w.runtime.value.instances, y);
    var buy: Option<nat>, shape: Shape :| Joint(w.sim, y, p, w.runtime.value.instances[y], buy, shape);
  }

  /** What an evaluation leaves of the record of the entry. */
  predicate SameEntry(state: State, later: State) {
    && later.entryAtr == state.entryAtr && later.cycle == state.cycle
    && later.entryReference == state.entryReference && later.entryTime == state.entryTime && later.armed == state.armed
  }

  lemma RequestsKeepEntry(p: Parameters, state: State, ctx: Context)
    ensures forall targets, reason :: SameEntry(state, Cancelling(state, ctx, targets, reason).0)
    ensures forall tag | MarketExit(state, ctx, tag).Ok? :: SameEntry(state, MarketExit(state, ctx, tag).value.0)
    ensures forall atr | Protecting(p, state, ctx, atr).Ok? :: SameEntry(state, Protecting(p, state, ctx, atr).value.0)
  {
    hide StopPrice, TargetPrice;
  }

  lemma DefendingKeepsEntry(p: Parameters, state: State, ctx: Context, atr: real)
    requires Defending(p, state, ctx, atr).Ok?
    ensures SameEntry(state, Defending(p, state, ctx, atr).value.0)
  {
    hide ActiveRefs, Exited, FillingStop, Protecting, MarketExit, Cancelling;
    var sells := ActiveRefs(ctx.orders, Sell);
    RequestsKeepEntry(p, state, ctx);
    var s1 := Cancelling(state, ctx, if Exited(state, ctx) then ActiveRefs(ctx.orders, Buy) else [], "EXIT_STARTED").0;
    RequestsKeepEntry(p, s1, ctx);
    RequestsKeepEntry(p, Cancelling(s1, ctx, sells, "STOP_REMAINDER").0, ctx);
    RequestsKeepEntry(p, Cancelling(s1, ctx, sells, "REPLACE_PROTECTION").0, ctx);
  }

  /** The entry ATR and the cycle are frozen for as long as the symbol is held. */
  lemma HeldStateFrozen(p: Parameters, state: State, ctx: Context)
    requires ctx.positionQuantity != 0 && Evaluation(p, state, ctx).Ok?
    ensures SameEntry(Rearmed(p, state, ctx), Evaluation(p, state, ctx).value.0)
  {
    hide Signal, ActiveRefs, Reversing, HasTag, Defending, MarketExit, Cancelling;
    var s := Rearmed(p, state, ctx);
    if s.entryAtr.Some? && Defending(p, s, ctx, s.entryAtr.value).Ok? {
      DefendingKeepsEntry(p, s, ctx, s.entryAtr.value);
    }
    RequestsKeepEntry(p, s, ctx);
    RequestsKeepEntry(p, Cancelling(s, ctx, ActiveRefs(ctx.orders, Buy) + ActiveRefs(ctx.orders, Sell), "TREND_REVERSAL").0, ctx);
  }

  predicate Enters(requests: seq<Request>) { exists i :: 0 <= i < |requests| && requests[i].Place? && requests[i].intent.side == Buy }

  lemma OnlySales(p: Parameters, state: State, ctx: Context)
    ensures forall targets, reason :: !Enters(Cancelling(state, ctx, targets, reason).1)
    ensures forall tag | MarketExit(state, ctx, tag).Ok? :: !Enters(MarketExit(state, ctx, tag).value.1)
    ensures forall atr | Protecting(p, state, ctx, atr).Ok? :: !Enters(Protecting(p, state, ctx, atr).value.1)
  {
    hide StopPrice, TargetPrice;
  }

  lemma NoEntryConcat(a: seq<Request>, b: seq<Request>)
    requires !Enters(a) && !Enters(b)
    ensures !Enters(a + b)
  {
  }

  lemma HoldingNeverEnters(p: Parameters, state: State, ctx: Context)
    requires Holding(p, state, ctx).Ok?
    ensures !Enters(Holding(p, state, ctx).value.1) && Holding(p, state, ctx).value.0.armed == state.armed
  {
    hide ActiveRefs, Reversing, HasTag, Defending, MarketExit, Cancelling, Enters;
    NothingEnters();
    OnlySales(p, state, ctx);
    RequestsKeepEntry(p, state, ctx);
    var s1 := Cancelling(state, ctx, ActiveRefs(ctx.orders, Buy) + ActiveRefs(ctx.orders, Sell), "TREND_REVERSAL");
    OnlySales(p, s1.0, ctx);
    RequestsKeepEntry(p, s1.0, ctx);
    if MarketExit(s1.0, ctx, Reversal).Ok? {
      NoEntryConcat(s1.1, MarketExit(s1.0, ctx, Reversal).value.1);
    }
    if state.entryAtr.Some? && Defending(p, state, ctx, state.entryAtr.value).Ok? {
      DefendingNeverEnters(p, state, ctx, state.entryAtr.value);
    }
  }

  lemma NothingEnters()
    ensures !Enters([])
  {
  }

  lemma DefendingNeverEnters(p: Parameters, state: State, ctx: Context, atr: real)
    requires Defending(p, state, ctx, atr).Ok?
    ensures !Enters(Defending(p, state, ctx, atr).value.1) && Defending(p, state, ctx, atr).value.0.armed == state.armed
  {
    hide ActiveRefs, Exited, FillingStop, Protecting, MarketExit, Cancelling, Enters;
    var sells := ActiveRefs(ctx.orders, Sell);
    OnlySales(p, state, ctx);
    RequestsKeepEntry(p, state, ctx);
    var u := Cancelling(state, ctx, if Exited(state, ctx) then ActiveRefs(ctx.orders, Buy) else [], "EXIT_STARTED");
    OnlySales(p, u.0, ctx);
    RequestsKeepEntry(p, u.0, ctx);
    var a, b := Cancelling(u.0, ctx, sells, "STOP_REMAINDER"), Cancelling(u.0, ctx, sells, "REPLACE_PROTECTION");
    OnlySales(p, a.0, ctx);
    OnlySales(p, b.0, ctx);
    RequestsKeepEntry(p, a.0, ctx);
    RequestsKeepEntry(p, b.0, ctx);
    NoEntryConcat(u.1, a.1);
    NoEntryConcat(u.1, b.1);
    if MarketExit(a.0, ctx, StopRemainder).Ok? {
      NoEntryConcat(u.1 + a.1, MarketExit(a.0, ctx, StopRemainder).value.1);
    }
    if Protecting(p, b.0, ctx, atr).Ok? {
      NoEntryConcat(u.1 + b.1, Protecting(p, b.0, ctx, atr).value.1);
    }
  }

  lemma FinishingNeverEnters(state: State, ctx: Context)
    requires state.entryReference.Some?
    ensures !Enters(Finishing(state, ctx).1) && Finishing(state, ctx).0.armed == state.armed
  {
    hide ActiveRefs, Exited;
  }

  /**
   * Entries, exactly: an evaluation requests a purchase if and only if the entry is due, and then nothing but one market
   * order for the configured quantity. It disarms the strategy, and only an evaluation without a signal arms it again,
   * so an unbroken signal enters at most once.
   */
  lemma EntriesExact(p: Parameters, state: State, ctx: Context)
    requires Evaluation(p, state, ctx).Ok?
    ensures var (later, requests) := Evaluation(p, state, ctx).value;
            var armed := state.(armed := state.armed || !SignalGiven(p, ctx));
            && (Enters(requests) <==> EntryDue(p, armed, ctx))
            && (EntryDue(p, armed, ctx) ==>
                  |requests| == 1 && requests[0].Place? && EntersWith(requests[0].intent, p, ctx)
                  && later == armed.(cycle := state.cycle + 1, sequence := later.sequence, armed := false, entryAtr := ctx.features["atr_14"],
                                     entryTime := Some(ctx.currentTime), entryReference := Some(requests[0].intent.reference)))
            && later.armed == (armed.armed && !EntryDue(p, armed, ctx))
  {
    hide Signal, SignalGiven, ActiveRefs, Holding, Finishing, Entering, Enters, Feature, EntersWith, InWindow;
    NothingEnters();
    SignalExact(p, ctx);
    var s := Rearmed(p, state, ctx);
    assert s == state.(armed := state.armed || !SignalGiven(p, ctx));
    DueInTime(p, s, ctx);
    if ctx.positionQuantity != 0 && Holding(p, s, ctx).Ok? {
      HoldingNeverEnters(p, s, ctx);
    } else if s.entryReference.Some? {
      FinishingNeverEnters(s, ctx);
    } else if InTime(ctx) {
      EnteringExact(p, s, ctx);
      if EntryDue(p, s, ctx) {
        OneEntry(Evaluation(p, state, ctx).value.1, p, ctx);
      }
    }
  }

  lemma DueInTime(p: Parameters, state: State, ctx: Context)
    ensures EntryDue(p, state, ctx) ==> InTime(ctx) && ctx.positionQuantity == 0 && state.entryReference.None? && SignalGiven(p, ctx) && state.armed
  {
    hide SignalGiven, InWindow;
  }

  lemma OneEntry(requests: seq<Request>, p: Parameters, ctx: Context)
    requires |requests| == 1 && requests[0].Place? && EntersWith(requests[0].intent, p, ctx)
    ensures Enters(requests)
  {
  }

  /**
   * In every reachable state of a baseline run no sale was ever rejected, so none lacked inventory; of the two legs of
   * every pair at most one has a fill; and no ordinary order borrows the liquidation's name.
   */
  lemma SalesNeverRejected(env: Env, grid: Grid, p: Parameters, k: nat)
    requires GridSound(env, grid) && env.strategic && env.script == [] && k <= |Ticks(env)|
    requires After(env, grid, PlanOf(p), k).Ok?
    ensures var st := After(env, grid, PlanOf(p), k).value.sim;
            && (forall i | 0 <= i < |st.orders| && st.orders[i].intent.side == Sell :: st.orders[i].status != Rejected)
            && (forall i: nat, j: nat | i < j < |st.orders| && SameGroup(st.orders[i], st.orders[j]) ::
                  Exclusive(st.orders[i], st.orders[j]))
            && NameReserved(st)
  {
    hide WorldSound, Timeline, InCharge, GridSound, RunFault, Step, ReferencesBounded, After, AllKept, Ticks, NameReserved, Exclusive, ForcedAlone;
    ReachableLoop(env, grid, p, k);
    GridHasSessions(env, grid);
    var w := After(env, grid, PlanOf(p), k).value;
    LoopReservesName(env, p, w);
    ForcedFlattening(env, grid, PlanOf(p), k);
    forall i | 0 <= i < |w.sim.orders| && w.sim.orders[i].intent.side == Sell
      ensures w.sim.orders[i].status != Rejected
    {
    }
  }

  /**
   * A baseline run that passes validation completes, or stops for one of four reasons: late features, a stop that
   * would not be positive, too many intents, or a liquidation the market did not absorb before the close.
   * In particular the entry ATR is never missing, no accounting guard fires and no request is refused.
   */
  lemma BaselineOutcome(env: Env, p: Parameters)
    requires Separated(env.sessions) && env.strategic && env.script == [] && Validate(env).Ok?
    ensures Run(env, PlanOf(p)).Err? ==>
              Run(env, PlanOf(p)).error in {FeatureLate, NonpositiveStop, IntentLimitExceeded, ForcedExitIncomplete}
    ensures Run(env, PlanOf(p)).Ok? ==>
              var st := Run(env, PlanOf(p)).value.sim;
              && forall y | y in env.symbols :: 0 <= st.book.Held(y) <= p.quantity
  {
    hide Validate, Timeline, InCharge, WorldSound, GridSound, After, LoopWorld;
    var grid := Validate(env).value;
    ValidateSound(env);
    GridHasSessions(env, grid);
    ReachableLoop(env, grid, p, |Ticks(env)|);
    if Run(env, PlanOf(p)).Ok? {
      forall y | y in env.symbols
        ensures 0 <= Run(env, PlanOf(p)).value.sim.book.Held(y) <= p.quantity
      {
        NeverPyramids(env, grid, p, |Ticks(env)|, y);
      }
    }
  }
}
