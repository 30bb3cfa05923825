/** No look-ahead: the run up to an instant depends on nothing that opens at or after it. */
module Causality {
  import opened Common
  import opened Orders
  import opened Costs
  import opened Execution
  import opened Accounting
  import opened Calendars
  import opened Clock
  import opened FeatureRows
  import opened Strategies
  import opened Engine
  import opened Grids
  import opened Runs

  /** Two inputs of one configuration that agree on every bar and feature row opening before an instant. */
  ghost predicate AgreeBefore(a: Env, b: Env, until: Time) {
    && b == a.(bars := b.bars, features := b.features)
    && |a.bars| == |b.bars|
    && (forall i | 0 <= i < |a.bars| :: Key(a.bars[i]) == Key(b.bars[i]))
    && (forall i | 0 <= i < |a.bars| && a.bars[i].bar.timestamp < until :: a.bars[i] == b.bars[i])
    && (forall key: (Symbol, Time) | key.1 < until :: key in a.features <==> key in b.features)
    && (forall key | key in a.features && key.1 < until :: a.features[key] == b.features[key])
  }

  lemma {:induction false} SameBarTicks(a: seq<SnapshotBar>, b: seq<SnapshotBar>)
    requires |a| == |b| && forall i | 0 <= i < |a| :: Key(a[i]) == Key(b[i]) && a[i].availableAt == b[i].availableAt
    ensures BarTicks(a) == BarTicks(b)
  {
    if a != [] {
      SameBarTicks(a[..|a| - 1], b[..|b| - 1]);
    }
  }

  lemma {:induction false} SameVisitAll(a: Env, b: Env, st: Sim, queue: seq<nat>, bases: nat -> Option<real>, bar: Bar, now: Time, left: Option<int>)
    requires InRange(queue, |st.orders|) && b == a.(bars := b.bars, features := b.features)
    ensures VisitAll(a, st, queue, bases, bar, now, left) == VisitAll(b, st, queue, bases, bar, now, left)
    decreases queue
  {
    hide Cumulative, Value, ExecutionPrice, Apply, MoveWhere, SimOrder.EverTriggered, AfterFill;
    if queue != [] {
      SameVisit(a, b, st, queue[0], bases(queue[0]), bar, now, left);
      var v := Visit(a, st, queue[0], bases(queue[0]), bar, now, left);
      if v.Ok? {
        VisitLength(a, st, queue[0], bases(queue[0]), bar, now, left);
        SameVisitAll(a, b, v.value.0, queue[1..], bases, bar, now, v.value.1);
      }
    }
  }

  lemma SameVisit(a: Env, b: Env, st: Sim, index: nat, base: Option<real>, bar: Bar, now: Time, left: Option<int>)
    requires index < |st.orders| && b == a.(bars := b.bars, features := b.features)
    ensures Visit(a, st, index, base, bar, now, left) == Visit(b, st, index, base, bar, now, left)
  {
    hide Attempt, SimOrder.EverTriggered;
    if st.orders[index].Active() && base.Some? {
      var ready := Triggering(st, index, now);
      var remaining := ready.orders[index].Remaining();
      SameAttempt(a, b, ready, index, base.value, if left.Some? then Min(remaining, left.value) else remaining, bar, now);
    }
  }

  lemma SameAttempt(a: Env, b: Env, st: Sim, index: nat, base: real, quantity: int, bar: Bar, now: Time)
    requires index < |st.orders| && st.orders[index].Active() && b == a.(bars := b.bars, features := b.features)
    ensures Attempt(a, st, index, base, quantity, bar, now) == Attempt(b, st, index, base, quantity, bar, now)
  {
    hide Cumulative, Value, ExecutionPrice, Apply, MoveWhere, AfterFill, CostBreakdown.Total, CostBreakdown.Difference, Move;
  }

  lemma {:induction false} SameRequestAll(a: Env, b: Env, grid: Grid, st: Sim, symbol: Symbol, now: Time, requests: seq<Request>)
    requires b == a.(bars := b.bars, features := b.features)
    ensures RequestAll(a, grid, st, symbol, now, requests) == RequestAll(b, grid, st, symbol, now, requests)
    decreases requests
  {
    hide MoveWhere, EligibleFrom, SimOrder.Moved;
    if requests != [] {
      var next := Request1(a, grid, st, symbol, now, requests[0]);
      assert next == Request1(b, grid, st, symbol, now, requests[0]);
      if next.Ok? {
        SameRequestAll(a, b, grid, next.value, symbol, now, requests[1..]);
      }
    }
  }

  lemma SameComplete<S>(a: Env, b: Env, grid: Grid, plan: Plan<S>, w: World<S>, item: SnapshotBar, until: Time)
    requires AgreeBefore(a, b, until) && item.bar.timestamp < until
    ensures Complete(a, grid, plan, w, item) == Complete(b, grid, plan, w, item)
  {
    hide Queue, VisitAll, RequestAll, Mark, Warned, Bases, Evaluated, Snapshots, CapacityOf;
    var at := SessionAt(a.sessions, item.bar.timestamp);
    if at.Some? && at.value.opens in grid.cutoffs {
      var cutoff := grid.cutoffs[at.value.opens];
      var told := Emit(w.sim, item.availableAt, BarCompleted(item.bar.symbol, item.bar.timestamp));
      QueueInRange(told, item.bar, cutoff);
      WarnedLength(told, item.bar, cutoff, item.availableAt);
      SameVisitAll(a, b, Warned(told, item.bar, cutoff, item.availableAt), Queue(told, item.bar, cutoff), Bases(told.orders, item.bar),
                   item.bar, item.availableAt, Capacity(a, item.bar));
      assert Capacity(a, item.bar) == Capacity(b, item.bar);
      assert Execute(a, told, item, cutoff) == Execute(b, told, item, cutoff);
      var settled := Settled(a, w.sim, item, cutoff);
      assert settled == Settled(b, w.sim, item, cutoff);
      if settled.Ok? {
        SameEvaluate(a, b, grid, plan, World(settled.value, w.runtime), item, at.value, cutoff, until);
      }
    }
  }

  lemma WarnedLength(st: Sim, bar: Bar, cutoff: Time, now: Time)
    ensures Warned(st, bar, cutoff, now).orders == st.orders
  {
  }

  lemma SameEvaluate<S>(a: Env, b: Env, grid: Grid, plan: Plan<S>, w: World<S>, item: SnapshotBar, session: Session, cutoff: Time, until: Time)
    requires AgreeBefore(a, b, until) && item.bar.timestamp < until
    ensures EvaluateStrategy(a, grid, plan, w, item, session, cutoff) == EvaluateStrategy(b, grid, plan, w, item, session, cutoff)
  {
    hide RequestAll, Evaluated, Snapshots;
    var key := Key(item);
    if w.runtime.Some? && key in a.features && w.sim.equity != [] && a.features[key].availableAt <= item.availableAt {
      var e := Evaluated(plan, w.runtime.value, ContextOf(w.sim, item, a.features[key], session, cutoff));
      if e.Ok? {
        var ran := Emit(w.sim, item.availableAt, StrategyRan(item.bar.symbol, item.bar.timestamp,
          ContextOf(w.sim, item, a.features[key], session, cutoff).availableAt, |e.value.1|));
        SameRequestAll(a, b, grid, ran, item.bar.symbol, item.availableAt, e.value.1);
      }
    }
  }

  lemma SameStep<S>(a: Env, b: Env, grid: Grid, plan: Plan<S>, w: World<S>, tick: Tick, until: Time)
    requires AgreeBefore(a, b, until) && GridSound(a, grid)
    requires Scheduled(a.bars, a.sessions, a.script, tick) && tick.timestamp < until
    ensures Step(a, grid, plan, w, tick) == Step(b, grid, plan, w, tick)
  {
    hide Complete, NewOrder, MoveWhere, Mark, OnGrid;
    match tick.kind {
      case BarComplete =>
        var s := BarSession(a, grid, tick.index);
        SameComplete(a, b, grid, plan, w, a.bars[tick.index], until);
      case BarOpen =>
        forall st, intent, now, forced
          ensures NewOrder(a, grid, st, intent, now, forced) == NewOrder(b, grid, st, intent, now, forced)
        {
          SameNewOrder(a, b, grid, st, intent, now, forced);
        }
      case Decision =>
        var told := Emit(w.sim, tick.timestamp, Decided(a.script[tick.index].symbol, a.script[tick.index].reference, a.script[tick.index].featureTimestamp));
        SameNewOrder(a, b, grid, told, a.script[tick.index], tick.timestamp, false);
      case _ =>
    }
  }

  lemma SameNewOrder(a: Env, b: Env, grid: Grid, st: Sim, intent: TradeIntent, now: Time, forced: bool)
    requires b == a.(bars := b.bars, features := b.features)
    ensures NewOrder(a, grid, st, intent, now, forced) == NewOrder(b, grid, st, intent, now, forced)
  {
    hide EligibleFrom, SimOrder.Moved;
  }

  /** Validated candles of the same slots complete at the same times. */
  lemma SameTicks(a: Env, b: Env, until: Time)
    requires Validate(a).Ok? && Validate(b).Ok? && AgreeBefore(a, b, until)
    ensures Ticks(a) == Ticks(b)
  {
    hide Validate, GridOf, ExpectedSlots, ActualSlots, RequiredSlots, ScriptFault;
    ValidateParts(a);
    ValidateParts(b);
    ActualExact(a.bars);
    ActualExact(b.bars);
    forall i | 0 <= i < |a.bars|
      ensures a.bars[i].availableAt == b.bars[i].availableAt
    {
      assert ActualSlots(a.bars)[Key(a.bars[i])] == ActualSlots(b.bars)[Key(b.bars[i])];
    }
    SameBarTicks(a.bars, b.bars);
  }

  /**
   * No look-ahead: validate two inputs of one configuration and strategy that agree on everything opening before
   * an instant. Then they have the same grid and clock, and after any ticks all earlier than that instant their
   * orders, fills, events, equity, portfolio and strategy state (or their error) are identical.
   */
  lemma {:induction false} NoLookAhead<S>(a: Env, b: Env, plan: Plan<S>, until: Time, k: nat)
    requires Separated(a.sessions) && Validate(a).Ok? && Validate(b).Ok? && AgreeBefore(a, b, until)
    requires k <= |Ticks(a)| && forall j | 0 <= j < k :: Ticks(a)[j].timestamp < until
    ensures Validate(a) == Validate(b) && Ticks(a) == Ticks(b) && a.sessions != [] && b.sessions != []
    ensures After(a, Validate(a).value, plan, k) == After(b, Validate(b).value, plan, k)
  {
    hide Validate, Step, Timeline, AgreeBefore, GridSound, Scheduled, Ticks, Start;
    SameGrid(a, b, until);
    var grid := Validate(a).value;
    SameTicks(a, b, until);
    if k == 0 {
      SameStart(a, b, plan, until);
    } else {
      NoLookAhead(a, b, plan, until, k - 1);
      var before := After(a, grid, plan, k - 1);
      if before.Ok? {
        ValidateSound(a);
        TickScheduled(a, k - 1);
        SameStep(a, b, grid, plan, before.value, Ticks(a)[k - 1], until);
      }
    }
  }

  lemma SameGrid(a: Env, b: Env, until: Time)
    requires Validate(a).Ok? && Validate(b).Ok? && AgreeBefore(a, b, until)
    ensures Validate(a) == Validate(b) && a.sessions != [] && b.sessions != []
  {
    hide Validate, GridOf, ExpectedSlots, ActualSlots, RequiredSlots, ScriptFault;
    ValidateParts(a);
    ValidateParts(b);
  }

  lemma SameStart<S>(a: Env, b: Env, plan: Plan<S>, until: Time)
    requires AgreeBefore(a, b, until) && a.sessions != []
    ensures b.sessions == a.sessions && Start(a, plan) == Start(b, plan)
  {
    hide Mark;
  }
}
