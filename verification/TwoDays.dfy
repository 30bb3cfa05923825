/**
 * A whole run of two days, tick by tick: one share is bought and squared off on the first day, and the charge is what the
 * profile says. With a large charge the run completes with negative cash; with a charge of all the cash it has no report.
 */
module TwoDays {
  import opened Common
  import opened Orders
  import opened Costs
  import opened Execution
  import opened Accounting
  import opened Trades
  import opened Calendars
  import opened Clock
  import opened FeatureRows
  import opened Strategies
  import opened Engine
  import opened Ledger
  import opened Safety
  import opened Grids
  import opened Runs
  import opened Timing
  import opened Flattening
  import opened Liquidity
  import opened Example
  import opened Scenarios
  import opened Metrics
  import Reconciliation

  // ----- the input

  const CLOSE := 4 * STEP
  const NEXT := 288

  const ENTRY: TradeIntent := RawIntent(Text("entry"), "A", Buy, 1, Market, STEP, 0, None, None, None, [])

  /** Four candles on the first day and one on the next; the decision to buy a share is made after the first candle. */
  function Input(charge: real): Env
    requires charge >= 0.0
  {
    Env([Candle(0), Candle(1), Candle(2), Candle(3), Candle(NEXT)],
        map[("A", 0) := Row(0), ("A", STEP) := Row(1), ("A", 2 * STEP) := Row(2), ("A", 3 * STEP) := Row(3), ("A", NEXT * STEP) := Row(NEXT)],
        ["A"], [Session(0, CLOSE), Session(NEXT * STEP, (NEXT + 1) * STEP)], 0, (NEXT + 1) * STEP, Min5, 10.0, None, 0, [ENTRY], false, {},
        ReferenceCosts(SquareOff(charge)), 0.0, (basis: real, sold: int, held: int) => basis)
  }

  const SLOTS := [Slot(0, STEP), Slot(STEP, 2 * STEP), Slot(2 * STEP, 3 * STEP), Slot(3 * STEP, CLOSE), Slot(NEXT * STEP, (NEXT + 1) * STEP)]

  const GRID := Grid(map[0 := [0, STEP, 2 * STEP, 3 * STEP], NEXT * STEP := [NEXT * STEP]], map[0 := 3 * STEP, NEXT * STEP := NEXT * STEP])

  lemma FiveSlots()
    ensures ExpectedSlots([Session(0, CLOSE), Session(NEXT * STEP, (NEXT + 1) * STEP)], 0, (NEXT + 1) * STEP, Min5) == SLOTS
  {
    var a, b := Session(0, CLOSE), Session(NEXT * STEP, (NEXT + 1) * STEP);
    WholeHead([a, b], 0, (NEXT + 1) * STEP, Min5);
    WholeHead([b], 0, (NEXT + 1) * STEP, Min5);
    assert [a, b][1..] == [b] && [b][1..] == [];
    assert SlotsFrom(a, Min5, CLOSE) == [];
    assert SlotsFrom(a, Min5, 3 * STEP) == [Slot(3 * STEP, CLOSE)];
    assert SlotsFrom(a, Min5, 2 * STEP) == [Slot(2 * STEP, 3 * STEP), Slot(3 * STEP, CLOSE)];
    assert SlotsFrom(a, Min5, STEP) == [Slot(STEP, 2 * STEP), Slot(2 * STEP, 3 * STEP), Slot(3 * STEP, CLOSE)];
    assert SlotsFrom(b, Min5, (NEXT + 1) * STEP) == [];
    assert SlotsFrom(b, Min5, NEXT * STEP) == [Slot(NEXT * STEP, (NEXT + 1) * STEP)];
  }

  lemma FiveKeys(a: SnapshotBar, b: SnapshotBar, c: SnapshotBar, d: SnapshotBar, e: SnapshotBar)
    ensures ActualSlots([a, b, c, d, e])
            == map[][Key(a) := a.availableAt][Key(b) := b.availableAt][Key(c) := c.availableAt][Key(d) := d.availableAt][Key(e) := e.availableAt]
  {
    hide ActualSlots;
    ActualPush([], a);
    ActualPush([a], b);
    ActualPush([a, b], c);
    ActualPush([a, b, c], d);
    ActualPush([a, b, c, d], e);
    assert [] + [a] == [a] && [a] + [b] == [a, b] && [a, b] + [c] == [a, b, c];
    assert [a, b, c] + [d] == [a, b, c, d] && [a, b, c, d] + [e] == [a, b, c, d, e];
  }

  lemma FiveRequired(y: Symbol, a: Slot, b: Slot, c: Slot, d: Slot, e: Slot)
    ensures RequiredSlots([y], [a, b, c, d, e])
            == map[][(y, a.opening) := a.closing][(y, b.opening) := b.closing][(y, c.opening) := c.closing][(y, d.opening) := d.closing][(y, e.opening) := e.closing]
  {
    hide SymbolSlots, RequiredSlots;
    SymbolPush(y, [], a);
    SymbolPush(y, [a], b);
    SymbolPush(y, [a, b], c);
    SymbolPush(y, [a, b, c], d);
    SymbolPush(y, [a, b, c, d], e);
    RequiredOne(y, [a, b, c, d, e]);
    assert [] + [a] == [a] && [a] + [b] == [a, b] && [a, b] + [c] == [a, b, c];
    assert [a, b, c] + [d] == [a, b, c, d] && [a, b, c, d] + [e] == [a, b, c, d, e];
  }

  const KEYED: map<(Symbol, Time), Time> :=
    map[][("A", 0) := STEP][("A", STEP) := 2 * STEP][("A", 2 * STEP) := 3 * STEP][("A", 3 * STEP) := CLOSE][("A", NEXT * STEP) := (NEXT + 1) * STEP]

  lemma FiveKeyed()
    ensures |KEYED| == 5
    ensures KEYED.Keys == {("A", 0), ("A", STEP), ("A", 2 * STEP), ("A", 3 * STEP), ("A", NEXT * STEP)}
  {
  }

  lemma Keyed(env: Env, charge: real)
    requires charge >= 0.0 && env == Input(charge)
    ensures ActualSlots(env.bars) == RequiredSlots(env.symbols, SLOTS) == KEYED
  {
    hide ActualSlots, SymbolSlots, RequiredSlots;
    FiveKeys(Candle(0), Candle(1), Candle(2), Candle(3), Candle(NEXT));
    FiveRequired("A", SLOTS[0], SLOTS[1], SLOTS[2], SLOTS[3], SLOTS[4]);
    assert SLOTS == [SLOTS[0], SLOTS[1], SLOTS[2], SLOTS[3], SLOTS[4]];
  }

  lemma Openings()
    ensures SessionOpenings(SLOTS, Session(0, CLOSE)) == [0, STEP, 2 * STEP, 3 * STEP]
    ensures SessionOpenings(SLOTS, Session(NEXT * STEP, (NEXT + 1) * STEP)) == [NEXT * STEP]
  {
    OpeningsFrom(Session(0, CLOSE), 5, []);
    OpeningsFrom(Session(0, CLOSE), 4, []);
    OpeningsFrom(Session(0, CLOSE), 3, [3 * STEP]);
    OpeningsFrom(Session(0, CLOSE), 2, [2 * STEP, 3 * STEP]);
    OpeningsFrom(Session(0, CLOSE), 1, [STEP, 2 * STEP, 3 * STEP]);
    OpeningsFrom(Session(0, CLOSE), 0, [0, STEP, 2 * STEP, 3 * STEP]);
    var b := Session(NEXT * STEP, (NEXT + 1) * STEP);
    OpeningsFrom(b, 5, []);
    OpeningsFrom(b, 4, [NEXT * STEP]);
    OpeningsFrom(b, 3, [NEXT * STEP]);
    OpeningsFrom(b, 2, [NEXT * STEP]);
    OpeningsFrom(b, 1, [NEXT * STEP]);
    OpeningsFrom(b, 0, [NEXT * STEP]);
    assert SLOTS[0..] == SLOTS;
  }

  lemma OpeningsFrom(s: Session, i: nat, from: seq<Time>)
    requires i <= 5
    requires i == 5 ==> from == []
    requires i < 5 ==> from == (if s.opens <= SLOTS[i].opening < s.closes then [SLOTS[i].opening] else []) + SessionOpenings(SLOTS[i + 1..], s)
    ensures SessionOpenings(SLOTS[i..], s) == from
  {
    assert i < 5 ==> SLOTS[i..][1..] == SLOTS[i + 1..];
  }

  lemma Cutoffs()
    ensures CutoffOf([0, STEP, 2 * STEP, 3 * STEP], CLOSE) == 3 * STEP && CutoffOf([NEXT * STEP], (NEXT + 1) * STEP) == NEXT * STEP
  {
    assert [0, STEP, 2 * STEP, 3 * STEP][1..] == [STEP, 2 * STEP, 3 * STEP];
    assert [STEP, 2 * STEP, 3 * STEP][1..] == [2 * STEP, 3 * STEP];
    assert [2 * STEP, 3 * STEP][1..] == [3 * STEP];
    assert CutoffOf([3 * STEP], CLOSE) == 3 * STEP;
    assert CutoffOf([2 * STEP, 3 * STEP], CLOSE) == 3 * STEP;
    assert CutoffOf([STEP, 2 * STEP, 3 * STEP], CLOSE) == 3 * STEP;
  }

  lemma Gridded5(sessions: seq<Session>)
    requires sessions == [Session(0, CLOSE), Session(NEXT * STEP, (NEXT + 1) * STEP)]
    ensures GridOf(sessions, SLOTS, 0) == Ok(GRID)
  {
    var a, b := sessions[0], sessions[1];
    Openings();
    Cutoffs();
    hide SessionOpenings, CutoffOf;
    assert sessions[..1] == [a] && [a][..0] == [];
    assert GridOf([], SLOTS, 0) == Ok(Grid(map[], map[]));
    var one := Grid(map[0 := [0, STEP, 2 * STEP, 3 * STEP]], map[0 := 3 * STEP]);
    assert map[][0 := [0, STEP, 2 * STEP, 3 * STEP]] == one.openings && map[][0 := 3 * STEP] == one.cutoffs;
    assert GridOf([a], SLOTS, 0) == Ok(one);
    assert one.openings[NEXT * STEP := [NEXT * STEP]] == GRID.openings && one.cutoffs[NEXT * STEP := NEXT * STEP] == GRID.cutoffs;
  }

  lemma InputValidates(env: Env, charge: real)
    requires charge >= 0.0 && env == Input(charge)
    ensures Separated(env.sessions) && Validate(env) == Ok(GRID) && GridSound(env, GRID)
  {
    hide GridOf, ActualSlots, RequiredSlots, ExpectedSlots, GridSound, ScriptFault, Validate;
    FiveSlots();
    Keyed(env, charge);
    FeatureKeys(env, charge);
    Gridded5(env.sessions);
    EntryFits(env, charge);
    Accepts(env, SLOTS, GRID);
    ValidateSound(env);
  }

  lemma FeatureKeys(env: Env, charge: real)
    requires charge >= 0.0 && env == Input(charge)
    ensures env.features.Keys == KEYED.Keys && |KEYED| == 5
  {
    FiveKeyed();
  }

  lemma EntryFits(env: Env, charge: real)
    requires charge >= 0.0 && env == Input(charge)
    ensures ScriptFault(env, env.script) == None
  {
    assert SessionAt(env.sessions, STEP) == Some(Session(0, CLOSE));
    assert env.script[1..] == [];
  }

  // ----- its clock

  const CLOCK := [
    Tick(0, SessionOpen, 0), Tick(0, BarOpen, 0), Tick(STEP, BarComplete, 0), Tick(STEP, Decision, 0), Tick(STEP, BarOpen, 1),
    Tick(2 * STEP, BarComplete, 1), Tick(2 * STEP, BarOpen, 2), Tick(3 * STEP, BarComplete, 2), Tick(3 * STEP, BarOpen, 3),
    Tick(CLOSE, BarComplete, 3), Tick(CLOSE, SessionClose, 0), Tick(NEXT * STEP, SessionOpen, 1), Tick(NEXT * STEP, BarOpen, 4),
    Tick((NEXT + 1) * STEP, BarComplete, 4), Tick((NEXT + 1) * STEP, SessionClose, 1)]

  function Rank(t: Tick): int { t.timestamp * 5 + t.kind.Priority() }

  ghost predicate Rising(ticks: seq<Tick>) { forall i | 0 < i < |ticks| :: Rank(ticks[i - 1]) < Rank(ticks[i]) }

  lemma {:induction false} RisingAcross(ticks: seq<Tick>, i: nat, j: nat)
    requires Rising(ticks) && i < j < |ticks|
    ensures Rank(ticks[i]) < Rank(ticks[j])
  {
    if i < j - 1 {
      RisingAcross(ticks, i, j - 1);
    }
  }

  lemma RankEarlier(a: Tick, b: Tick)
    requires Rank(a) < Rank(b)
    ensures Earlier(a, b) && a != b
  {
  }

  /** Ticks in strictly rising order, and the same events, are the timeline. */
  lemma RisingIsTimeline(env: Env, ticks: seq<Tick>)
    requires Rising(ticks) && forall t :: t in ticks <==> Scheduled(env.bars, env.sessions, env.script, t)
    ensures Ticks(env) == ticks
  {
    hide Timeline, Scheduled, Rising, Earlier, Rank;
    TimelineExact(env.bars, env.sessions, env.script);
    forall i, j | 0 <= i < j < |ticks|
      ensures Before(ticks[i], ticks[j]) && ticks[i] != ticks[j]
    {
      RisingAcross(ticks, i, j);
      RankEarlier(ticks[i], ticks[j]);
    }
    DistinctCountsOnce(ticks);
    DistinctCountsOnce(Ticks(env));
    SameCounts(ticks, Ticks(env));
    SortedUnique(ticks, Ticks(env));
  }

  lemma SameCounts<T>(a: seq<T>, b: seq<T>)
    requires forall x :: multiset(a)[x] <= 1 && multiset(b)[x] <= 1
    requires forall x :: x in a <==> x in b
    ensures multiset(a) == multiset(b)
  {
    forall x
      ensures multiset(a)[x] == multiset(b)[x]
    {
      assert x in a <==> x in multiset(a);
      assert x in b <==> x in multiset(b);
    }
  }

  lemma ClockTicks(env: Env, charge: real)
    requires charge >= 0.0 && env == Input(charge)
    ensures Ticks(env) == CLOCK
  {
    hide Timeline, Ticks, Rising, Scheduled, Rank;
    ClockRises();
    forall t
      ensures t in CLOCK <==> Scheduled(env.bars, env.sessions, env.script, t)
    {
      if t.kind in {SessionOpen, SessionClose} {
        OfSession(env, charge, t);
      } else if t.kind in {BarOpen, BarComplete} {
        OfBar(env, charge, t);
      } else {
        OfScript(env, charge, t);
      }
    }
    RisingIsTimeline(env, CLOCK);
  }

  lemma ClockRises()
    ensures Rising(CLOCK)
  {
  }

  lemma OfScript(env: Env, charge: real, t: Tick)
    requires charge >= 0.0 && env == Input(charge) && t.kind == Decision
    ensures t in CLOCK <==> Scheduled(env.bars, env.sessions, env.script, t)
  {
    assert t in CLOCK <==> t == CLOCK[3];
  }

  lemma OfSession(env: Env, charge: real, t: Tick)
    requires charge >= 0.0 && env == Input(charge) && t.kind in {SessionOpen, SessionClose}
    ensures t in CLOCK <==> Scheduled(env.bars, env.sessions, env.script, t)
  {
    assert t in CLOCK <==> t in {CLOCK[0], CLOCK[10], CLOCK[11], CLOCK[14]};
  }

  lemma OfBar(env: Env, charge: real, t: Tick)
    requires charge >= 0.0 && env == Input(charge) && t.kind in {BarOpen, BarComplete}
    ensures t in CLOCK <==> Scheduled(env.bars, env.sessions, env.script, t)
  {
    assert t in CLOCK <==> t in {CLOCK[1], CLOCK[2], CLOCK[4], CLOCK[5], CLOCK[6], CLOCK[7], CLOCK[8], CLOCK[9], CLOCK[12], CLOCK[13]};
  }

  // ----- one tick

  /** Orders, fills and book are as before. */
  ghost predicate Quiet(st: Sim, r: Sim) { r.orders == st.orders && r.fills == st.fills && r.book == st.book }

  lemma OpenQuiet<S>(env: Env, grid: Grid, plan: Plan<S>, w: World<S>, tick: Tick, s: Session)
    requires GridSound(env, grid) && tick.kind == BarOpen && tick.index < |env.bars|
    requires SessionAt(env.sessions, env.bars[tick.index].bar.timestamp) == Some(s) && s.opens in grid.cutoffs
    requires env.bars[tick.index].bar.timestamp != grid.cutoffs[s.opens] || w.sim.book.Held(env.bars[tick.index].bar.symbol) == 0
    ensures var r := Step(env, grid, plan, w, tick); r.Ok? && r.value.runtime == w.runtime && Quiet(w.sim, r.value.sim)
  {
    hide OnGrid, GridSound, MoveWhere, NewOrder;
  }

  lemma OpeningQuiet<S>(env: Env, grid: Grid, plan: Plan<S>, w: World<S>, tick: Tick)
    requires WorldSound(env, w) && tick.kind == SessionOpen
    ensures var r := Step(env, grid, plan, w, tick); r.Ok? && r.value.runtime == w.runtime && Quiet(w.sim, r.value.sim)
  {
    hide Healthy, OpenSession, Extends, Logged;
    OpenSound(env, w.sim, tick.timestamp);
  }

  /** A close with nothing held and no order working. */
  lemma ClosingQuiet<S>(env: Env, grid: Grid, plan: Plan<S>, w: World<S>, tick: Tick)
    requires WorldSound(env, w) && tick.kind == SessionClose && Flat(w.sim.book)
    requires forall i | 0 <= i < |w.sim.orders| :: !w.sim.orders[i].Active()
    ensures var r := Step(env, grid, plan, w, tick);
            && r.Ok? && r.value.runtime == w.runtime && Quiet(w.sim, r.value.sim)
            && |r.value.sim.equity| == |w.sim.equity| + 1 && r.value.sim.equity[|w.sim.equity|].equity == w.sim.book.cash
  {
    hide Healthy, MoveWhere, RecordEquity, Logged, SimOrder.EverTriggered, CloseSession, Extends;
    CloseSound(env, w.sim, tick.timestamp);
    ClosedOrders(w.sim, tick.timestamp);
  }

  lemma ClosedOrders(st: Sim, now: Time)
    requires forall i | 0 <= i < |st.orders| :: !st.orders[i].Active()
    ensures var r := CloseSession(st, now); r.Ok? ==> r.value.orders == st.orders
  {
    hide MoveWhere, Mark, AnyHeld, SimOrder.EverTriggered;
    MoveWhereExact(Emit(st, now, SessionClosed), Anyone(), Expired, now, Text("DAY_SESSION_ENDED"), 0);
  }

  /** A completing bar that no working order may fill in. */
  lemma CompleteQuiet<S>(env: Env, grid: Grid, plan: Plan<S>, w: World<S>, tick: Tick, s: Session)
    requires GridSound(env, grid) && WorldSound(env, w) && w.runtime.None? && tick.kind == BarComplete && tick.index < |env.bars|
    requires SessionAt(env.sessions, env.bars[tick.index].bar.timestamp) == Some(s) && s.opens in grid.cutoffs
    requires forall i | 0 <= i < |w.sim.orders| && w.sim.orders[i].Active() :: !MayFill(w.sim.orders[i], env.bars[tick.index].bar, grid.cutoffs[s.opens])
    ensures var r := Step(env, grid, plan, w, tick); r.Ok? && r.value.runtime.None? && Quiet(w.sim, r.value.sim)
  {
    hide Healthy, Settled, Extends, Logged, OnGrid, GridSound, Sound, BarFills, MayFill;
    var item, cutoff := env.bars[tick.index], grid.cutoffs[s.opens];
    SettledKeeps(env, w.sim, item, cutoff, (x: Sim) => Quiet(w.sim, x));
  }

  // ----- a bar that serves one order

  lemma TailOnly(queue: seq<nat>, n: nat)
    requires queue != [] && forall i | i in queue :: i == n
    ensures forall i | i in queue[1..] :: i == n
  {
    forall i | i in queue[1..]
      ensures i == n
    {
      assert i in queue;
    }
  }

  lemma {:induction false} IdleQueue(env: Env, st: Sim, queue: seq<nat>, bases: nat -> Option<real>, bar: Bar, now: Time, n: nat)
    requires n < |st.orders| && !st.orders[n].Active() && (forall i | i in queue :: i == n) && InRange(queue, |st.orders|)
    ensures VisitAll(env, st, queue, bases, bar, now, None) == Ok(st)
    decreases queue
  {
    if queue != [] {
      assert queue[0] in queue;
      TailOnly(queue, n);
      IdleQueue(env, st, queue[1..], bases, bar, now, n);
    }
  }

  /** The loop over a queue that holds this order alone serves it in full. */
  lemma ServeQueue(env: Env, st: Sim, queue: seq<nat>, bases: nat -> Option<real>, bar: Bar, now: Time, n: nat, price: real)
    requires Sound(env, st) && env.bps == 0.0 && price > 0.0 && n < |st.orders| && IsFresh(st.orders[n]) && bar.symbol == "A"
    requires Affords(env, st.book, st.orders[n].intent, price, st.orders[n].forced) && bases(n) == Some(price)
    requires queue != [] && (forall i | i in queue :: i == n) && InRange(queue, |st.orders|)
    ensures var r := VisitAll(env, st, queue, bases, bar, now, None); r.Ok? && FilledFresh(env, st, r.value, n, price)
  {
    hide Sound, Attempt, Affords, FilledFresh, SimOrder.EverTriggered;
    assert queue[0] in queue;
    FreshExactly(env, st, n, price, bar, now);
    var r := Attempt(env, st, n, price, st.orders[n].intent.quantity, bar, now).value;
    assert Visit(env, st, n, bases(n), bar, now, None) == Ok((r, None));
    FilledLength(env, st, r, n, price);
    TailOnly(queue, n);
    IdleQueue(env, r, queue[1..], bases, bar, now, n);
  }

  lemma FilledLength(env: Env, st: Sim, r: Sim, n: nat, price: real)
    requires n < |st.orders| && FilledFresh(env, st, r, n, price)
    ensures |r.orders| == |st.orders| && !r.orders[n].Active()
  {
  }

  lemma QueueOfOne(st: Sim, bar: Bar, cutoff: Time, n: nat)
    requires n < |st.orders| && IsFresh(st.orders[n]) && MayFill(st.orders[n], bar, cutoff)
    requires forall i | 0 <= i < |st.orders| && i != n && st.orders[i].Active() :: !MayFill(st.orders[i], bar, cutoff)
    ensures Queue(st, bar, cutoff) != [] && InRange(Queue(st, bar, cutoff), |st.orders|)
    ensures forall i | i in Queue(st, bar, cutoff) :: i == n
  {
    hide Queue, MayFill, Contested;
    CandidateMayFill(st, bar, cutoff);
    QueueExact(st, bar, cutoff);
    QueueInRange(st, bar, cutoff);
    assert n in Queue(st, bar, cutoff);
  }

  lemma CompleteServes<S>(env: Env, grid: Grid, plan: Plan<S>, w: World<S>, tick: Tick, s: Session, n: nat)
    requires GridSound(env, grid) && WorldSound(env, w) && w.runtime.None? && tick.kind == BarComplete && tick.index < |env.bars|
    requires SessionAt(env.sessions, env.bars[tick.index].bar.timestamp) == Some(s) && s.opens in grid.cutoffs
    requires env.bps == 0.0 && env.participation.None? && env.bars[tick.index].bar.symbol == "A"
    requires n < |w.sim.orders| && IsFresh(w.sim.orders[n]) && MayFill(w.sim.orders[n], env.bars[tick.index].bar, grid.cutoffs[s.opens])
    requires forall i | 0 <= i < |w.sim.orders| && i != n && w.sim.orders[i].Active() :: !MayFill(w.sim.orders[i], env.bars[tick.index].bar, grid.cutoffs[s.opens])
    requires Affords(env, w.sim.book, w.sim.orders[n].intent, env.bars[tick.index].bar.open, w.sim.orders[n].forced)
    ensures var r := Step(env, grid, plan, w, tick);
            && r.Ok? && r.value.runtime.None? && FilledFresh(env, w.sim, r.value.sim, n, env.bars[tick.index].bar.open)
  {
    hide Healthy, Extends, Logged, OnGrid, GridSound, Sound, BarFills, MayFill, Queue, VisitAll, Warned, Affords, IsFresh, RecordEquity;
    var item, cutoff := env.bars[tick.index], grid.cutoffs[s.opens];
    var bar, now := item.bar, item.availableAt;
    var told := Emit(w.sim, now, BarCompleted(bar.symbol, bar.timestamp));
    EmitKeeps(env, w.sim, now, BarCompleted(bar.symbol, bar.timestamp));
    HealthySound(env, told);
    QueueOfOne(told, bar, cutoff, n);
    var warned := Warned(told, bar, cutoff, now);
    WarnedOnlyLogs(told, bar, cutoff, now);
    OnlyLogsSound(env, told, warned, now);
    FreshBase(told, bar, n);
    ServeQueue(env, warned, Queue(told, bar, cutoff), Bases(told.orders, bar), bar, now, n, bar.open);
    SettledKeeps(env, w.sim, item, cutoff, (x: Sim) => true);
    var executed := Execute(env, told, item, cutoff).value;
    var settled := Settled(env, w.sim, item, cutoff).value;
    RecordedSame(Emit(executed.(prices := executed.prices[bar.symbol := bar.close]), now, FeaturePublished(bar.symbol, bar.timestamp)), now);
    FilledLater(env, w.sim, warned, executed, settled, n, bar.open);
  }

  lemma WarnedOnlyLogs(st: Sim, bar: Bar, cutoff: Time, now: Time)
    ensures OnlyLogs(st, Warned(st, bar, cutoff, now), now)
  {
    hide Ambiguous;
  }

  lemma FreshBase(st: Sim, bar: Bar, n: nat)
    requires n < |st.orders| && IsFresh(st.orders[n])
    ensures Bases(st.orders, bar)(n) == Some(bar.open)
  {
  }

  lemma RecordedSame(st: Sim, now: Time)
    ensures var r := RecordEquity(st, now); r.Ok? ==> Quiet(st, r.value)
  {
    hide Mark;
  }

  lemma FilledLater(env: Env, st: Sim, warned: Sim, executed: Sim, settled: Sim, n: nat, price: real)
    requires n < |st.orders| && warned.orders == st.orders && warned.book == st.book && FilledFresh(env, warned, executed, n, price)
    requires settled.orders == executed.orders && settled.book == executed.book
    ensures FilledFresh(env, st, settled, n, price)
  {
  }

  // ----- the orders of the run

  /** A pending market order, not yet filled, from this opening on. */
  ghost predicate Awaiting(o: SimOrder, side: Side, forced: bool, from: Time) {
    IsFresh(o) && o.intent.side == side && o.intent.quantity == 1 && o.forced == forced && o.eligibleFrom == Some(from)
  }

  /** Nothing happened yet; the entry is pending; a share is held; its liquidation is pending; it is sold. */
  ghost predicate Untouched(st: Sim) { st.orders == [] && st.book == Opening(10.0) }

  ghost predicate Entered(st: Sim) { |st.orders| == 1 && Awaiting(st.orders[0], Buy, false, 2 * STEP) && st.book == Opening(10.0) }

  ghost predicate Bought(st: Sim) {
    && |st.orders| == 1 && !st.orders[0].Active()
    && st.book.cash == 0.0 && st.book.Held("A") == 1 && forall y | y != "A" :: st.book.PositionOf(y) == NO_POSITION
  }

  ghost predicate Leaving(st: Sim) {
    && |st.orders| == 2 && !st.orders[0].Active() && Awaiting(st.orders[1], Sell, true, 3 * STEP)
    && st.book.cash == 0.0 && st.book.Held("A") == 1 && forall y | y != "A" :: st.book.PositionOf(y) == NO_POSITION
  }

  ghost predicate Sold(st: Sim, charge: real) {
    && (forall i | 0 <= i < |st.orders| :: !st.orders[i].Active())
    && st.book.cash == 10.0 - charge && st.book.Held("A") == 0 && forall y | y != "A" :: st.book.PositionOf(y) == NO_POSITION
  }

  lemma SoldFlat(st: Sim, charge: real)
    requires Sold(st, charge)
    ensures Flat(st.book)
  {
    forall y | y in st.book.positions
      ensures st.book.positions[y].quantity == 0
    {
      assert y != "A" ==> st.book.PositionOf(y) == NO_POSITION;
    }
  }

  lemma Sessions(env: Env, charge: real)
    requires charge >= 0.0 && env == Input(charge)
    ensures |env.bars| == 5
    ensures forall i: nat | i < 4 :: env.bars[i] == Candle(i) && SessionAt(env.sessions, i * STEP) == Some(Session(0, CLOSE))
    ensures env.bars[4] == Candle(NEXT) && SessionAt(env.sessions, NEXT * STEP) == Some(Session(NEXT * STEP, (NEXT + 1) * STEP))
  {
  }

  lemma Decides(env: Env, charge: real, st: Sim)
    requires charge >= 0.0 && env == Input(charge) && GridSound(env, GRID) && Untouched(st)
    ensures var r := Decide(env, GRID, st, ENTRY, STEP); r.Ok? && Entered(r.value)
  {
    hide MadeOrder, EligibleFrom, NewOrder, GridSound;
    Sessions(env, charge);
    var told := Emit(st, STEP, Decided(ENTRY.symbol, ENTRY.reference, ENTRY.featureTimestamp));
    assert SessionAt(env.sessions, STEP) == Some(Session(0, CLOSE)) by { assert SessionAt(env.sessions, 1 * STEP).Some?; }
    NewOrderExact(env, GRID, told, ENTRY, STEP, false);
    MadeShape(env, ENTRY, 1, EligibleFrom(GRID.openings[0], STEP, false), STEP, false, STEP >= GRID.cutoffs[0], 0);
    NextOpening();
  }

  lemma NextOpening()
    ensures EligibleFrom([0, STEP, 2 * STEP, 3 * STEP], STEP, false) == Some(2 * STEP)
    ensures EligibleFrom([0, STEP, 2 * STEP, 3 * STEP], 3 * STEP, true) == Some(3 * STEP)
  {
    hide EligibleFrom;
    var openings := [0, STEP, 2 * STEP, 3 * STEP];
    assert openings[2] == 2 * STEP && openings[3] == 3 * STEP;
    assert 2 * STEP in openings && 3 * STEP in openings;
    EligibleExact(openings, STEP, false);
    assert EligibleFrom(openings, STEP, false).value in openings;
    EligibleExact(openings, 3 * STEP, true);
  }

  /** At the cutoff the held share's liquidation is placed. */
  lemma Leaves(env: Env, charge: real, st: Sim)
    requires charge >= 0.0 && env == Input(charge) && GridSound(env, GRID) && Bought(st)
    ensures var r := OpenBar(env, GRID, st, env.bars[3]); r.Ok? && Leaving(r.value)
  {
    hide MadeOrder, EligibleFrom, NewOrder, GridSound, MoveWhere, SimOrder.EverTriggered;
    Sessions(env, charge);
    var now := 3 * STEP;
    var told := Emit(st, now, BarOpened("A", 10.0));
    MoveWhereExact(told, OfSymbol("A"), Cancelled, now, Text("SESSION_EXIT_CUTOFF"), 0);
    var cleared := MoveWhere(told, OfSymbol("A"), Cancelled, now, Text("SESSION_EXIT_CUTOFF"), 0);
    var warned := cleared.(warnings := cleared.warnings + {ForcedSessionExit});
    var intent := Validated(ForcedIntent("A", 1, now)).value;
    NewOrderExact(env, GRID, warned, intent, now, true);
    MadeShape(env, intent, 2, EligibleFrom(GRID.openings[0], now, true), now, true, true, 1);
    NextOpening();
    assert cleared.orders == told.orders;
  }

  lemma Charges(env: Env, charge: real, paise: int)
    requires charge >= 0.0 && env == Input(charge) && charge == paise as real / 100.0
    ensures WholeCharge(env, Buy, 10.0, false).Total() == 0.0 && WholeCharge(env, Sell, 10.0, true).Total() == charge
    ensures Value(1, 10.0) == 10.0
  {
    hide Cumulative, CostBreakdown.Total;
    SquareOffCharge(SquareOff(charge), Buy, 10.0, charge, false, paise);
    SquareOffCharge(SquareOff(charge), Sell, 10.0, charge, true, paise);
    assert NO_COSTS.(other := 0.0) == NO_COSTS;
    NoCostsTotal();
  }

  // ----- the run

  /** The state after k ticks is that of the machine, and so is the next. */
  lemma Ticking<S>(env: Env, charge: real, plan: Plan<S>, k: nat)
    requires charge >= 0.0 && env == Input(charge) && k < |CLOCK|
    ensures env.sessions != [] && Ticks(env) == CLOCK && GridSound(env, GRID)
    ensures After(env, GRID, plan, k).Ok? ==>
              && WorldSound(env, After(env, GRID, plan, k).value)
              && After(env, GRID, plan, k + 1) == Step(env, GRID, plan, After(env, GRID, plan, k).value, CLOCK[k])
  {
    hide Ticks, Timeline, After, Step, WorldSound, GridSound, Start, Validate;
    ClockTicks(env, charge);
    InputValidates(env, charge);
    ReachableSound(env, GRID, plan, k);
    AfterStep(env, GRID, plan, k + 1);
  }

  /** After k ticks the run is at this stage. */
  ghost predicate Stage<S>(env: Env, plan: Plan<S>, k: nat, P: Sim -> bool)
    requires env.sessions != [] && k <= |Ticks(env)|
  {
    var r := After(env, GRID, plan, k);
    r.Ok? && r.value.runtime.None? && P(r.value.sim)
  }

  /** Tick k has nothing to do in this state: nothing to fill, to liquidate, to expire or to decide. */
  ghost predicate Undisturbed(env: Env, st: Sim, k: nat)
    requires k < |CLOCK| && |env.bars| == 5
  {
    match CLOCK[k].kind
    case SessionOpen => true
    case SessionClose => Flat(st.book) && forall i | 0 <= i < |st.orders| :: !st.orders[i].Active()
    case BarOpen => k != 8 && (k == 12 ==> st.book.Held("A") == 0)
    case BarComplete =>
      forall i | 0 <= i < |st.orders| && st.orders[i].Active() ::
        !MayFill(st.orders[i], env.bars[CLOCK[k].index].bar, if k == 13 then NEXT * STEP else 3 * STEP)
    case Decision => false
  }

  /** Such a tick leaves orders, fills and book alone, and with them the stage. */
  lemma Remains<S>(env: Env, charge: real, plan: Plan<S>, k: nat, P: Sim -> bool)
    requires charge >= 0.0 && env == Input(charge) && k < |CLOCK| && Ticks(env) == CLOCK && Stage(env, plan, k, P)
    requires forall x, y | Quiet(x, y) && P(x) :: P(y)
    requires Undisturbed(env, After(env, GRID, plan, k).value.sim, k)
    ensures Stage(env, plan, k + 1, P)
  {
    hide Ticks, Timeline, After, Step, WorldSound, GridSound, Quiet, MayFill, SimOrder.Active, Flat;
    Ticking(env, charge, plan, k);
    Sessions(env, charge);
    var w := After(env, GRID, plan, k).value;
    var s := if k < 11 then Session(0, CLOSE) else Session(NEXT * STEP, (NEXT + 1) * STEP);
    match CLOCK[k].kind {
      case SessionOpen => OpeningQuiet(env, GRID, plan, w, CLOCK[k]);
      case SessionClose => ClosingQuiet(env, GRID, plan, w, CLOCK[k]);
      case BarOpen => OpenQuiet(env, GRID, plan, w, CLOCK[k], s);
      case BarComplete => CompleteQuiet(env, GRID, plan, w, CLOCK[k], s);
    }
    assert Quiet(w.sim, After(env, GRID, plan, k + 1).value.sim);
  }

  lemma Morning<S>(env: Env, charge: real, plan: Plan<S>)
    requires charge >= 0.0 && env == Input(charge) && env.sessions != [] && Ticks(env) == CLOCK
    ensures Stage(env, plan, 3, (x: Sim) => Untouched(x))
  {
    hide Ticks, Timeline, After, Step, WorldSound, Start;
    var P := (x: Sim) => Untouched(x);
    StartSound(env, plan);
    AfterNone(env, GRID, plan);
    Starts(env, plan);
    Remains(env, charge, plan, 0, P);
    Remains(env, charge, plan, 1, P);
    Remains(env, charge, plan, 2, P);
  }

  lemma Starts<S>(env: Env, plan: Plan<S>)
    requires env.sessions != [] && !env.strategic && Start(env, plan).Ok?
    ensures Start(env, plan).value.runtime.None?
  {
    hide Mark;
  }

  lemma Entry<S>(env: Env, charge: real, plan: Plan<S>)
    requires charge >= 0.0 && env == Input(charge) && env.sessions != [] && Ticks(env) == CLOCK
    ensures Stage(env, plan, 7, (x: Sim) => Entered(x))
  {
    hide Ticks, Timeline, After, WorldSound, GridSound, Decide, Entered;
    Morning(env, charge, plan);
    Ticking(env, charge, plan, 3);
    Decides(env, charge, After(env, GRID, plan, 3).value.sim);
    var P := (x: Sim) => Entered(x);
    hide Step;
    forall x, y | Quiet(x, y) && P(x)
      ensures P(y)
    {
      EnteredStays(x, y);
    }
    Remains(env, charge, plan, 4, P);
    NotYetEligible(env, charge, After(env, GRID, plan, 5).value.sim);
    Remains(env, charge, plan, 5, P);
    Remains(env, charge, plan, 6, P);
  }

  lemma EnteredStays(x: Sim, y: Sim)
    requires Quiet(x, y) && Entered(x)
    ensures Entered(y)
  {
  }

  lemma NotYetEligible(env: Env, charge: real, st: Sim)
    requires charge >= 0.0 && env == Input(charge) && Entered(st)
    ensures forall i | 0 <= i < |st.orders| && st.orders[i].Active() :: !MayFill(st.orders[i], env.bars[1].bar, 3 * STEP)
  {
  }

  /** The second day's first opening finds the share bought on the first. */
  lemma Purchase<S>(env: Env, charge: real, plan: Plan<S>, paise: int)
    requires charge >= 0.0 && env == Input(charge) && charge == paise as real / 100.0 && env.sessions != [] && Ticks(env) == CLOCK
    ensures Stage(env, plan, 8, (x: Sim) => Bought(x))
  {
    hide Ticks, Timeline, After, WorldSound, GridSound, Step, FilledFresh, WholeCharge, CostBreakdown.Total, Value;
    Entry(env, charge, plan);
    Ticking(env, charge, plan, 7);
    Sessions(env, charge);
    Charges(env, charge, paise);
    var w := After(env, GRID, plan, 7).value;
    CompleteServes(env, GRID, plan, w, CLOCK[7], Session(0, CLOSE), 0);
    BoughtNow(env, charge, w.sim, After(env, GRID, plan, 8).value.sim);
  }

  lemma BoughtNow(env: Env, charge: real, st: Sim, r: Sim)
    requires Entered(st) && FilledFresh(env, st, r, 0, 10.0) && Value(1, 10.0) == 10.0 && WholeCharge(env, Buy, 10.0, false).Total() == 0.0
    ensures Bought(r)
  {
    hide WholeCharge, CostBreakdown.Total, Value;
  }

  lemma Liquidated<S>(env: Env, charge: real, plan: Plan<S>, paise: int)
    requires charge >= 0.0 && env == Input(charge) && charge == paise as real / 100.0 && env.sessions != [] && Ticks(env) == CLOCK
    ensures Stage(env, plan, 9, (x: Sim) => Leaving(x))
  {
    hide Ticks, Timeline, After, WorldSound, GridSound, OpenBar, Bought, Leaving;
    Purchase(env, charge, plan, paise);
    Ticking(env, charge, plan, 8);
    Leaves(env, charge, After(env, GRID, plan, 8).value.sim);
  }

  lemma SquaredOff<S>(env: Env, charge: real, plan: Plan<S>, paise: int)
    requires charge >= 0.0 && env == Input(charge) && charge == paise as real / 100.0 && env.sessions != [] && Ticks(env) == CLOCK
    ensures Stage(env, plan, 10, (x: Sim) => Sold(x, charge))
  {
    hide Ticks, Timeline, After, WorldSound, GridSound, FilledFresh, WholeCharge, CostBreakdown.Total, Value, Step, Leaving, Affords, MayFill, IsFresh;
    Liquidated(env, charge, plan, paise);
    Ticking(env, charge, plan, 9);
    Sessions(env, charge);
    Charges(env, charge, paise);
    var w := After(env, GRID, plan, 9).value;
    LeavingServed(env, charge, w.sim);
    CompleteServes(env, GRID, plan, w, CLOCK[9], Session(0, CLOSE), 1);
    SoldNow(env, charge, w.sim, After(env, GRID, plan, 10).value.sim);
  }

  lemma LeavingServed(env: Env, charge: real, st: Sim)
    requires charge >= 0.0 && env == Input(charge) && Leaving(st)
    ensures |st.orders| == 2 && IsFresh(st.orders[1]) && MayFill(st.orders[1], env.bars[3].bar, 3 * STEP) && !st.orders[0].Active()
    ensures Affords(env, st.book, st.orders[1].intent, 10.0, st.orders[1].forced)
  {
    hide WholeCharge, CostBreakdown.Total, Value;
  }

  lemma SoldNow(env: Env, charge: real, st: Sim, r: Sim)
    requires Leaving(st) && FilledFresh(env, st, r, 1, 10.0) && Value(1, 10.0) == 10.0 && WholeCharge(env, Sell, 10.0, true).Total() == charge
    ensures Sold(r, charge)
  {
    hide WholeCharge, CostBreakdown.Total, Value;
  }

  lemma SoldStays(x: Sim, y: Sim, charge: real)
    requires Quiet(x, y) && Sold(x, charge)
    ensures Sold(y, charge)
  {
  }

  /** The position is closed by the first day's close, and nothing happens afterwards. */
  lemma Finishes<S>(env: Env, charge: real, plan: Plan<S>, paise: int)
    requires charge >= 0.0 && env == Input(charge) && charge == paise as real / 100.0
    ensures env.sessions != [] && Ticks(env) == CLOCK
    ensures Stage(env, plan, 10, (x: Sim) => Sold(x, charge)) && Stage(env, plan, |CLOCK|, (x: Sim) => Sold(x, charge))
  {
    hide Ticks, Timeline, After, WorldSound, GridSound, Step, Sold, Stage;
    Ticking(env, charge, plan, 0);
    SquaredOff(env, charge, plan, paise);
    SoldAgain(env, charge, plan, 10);
    SoldAgain(env, charge, plan, 11);
    SoldAgain(env, charge, plan, 12);
    SoldAgain(env, charge, plan, 13);
    SoldAgain(env, charge, plan, 14);
  }

  lemma SoldAgain<S>(env: Env, charge: real, plan: Plan<S>, k: nat)
    requires charge >= 0.0 && env == Input(charge) && env.sessions != [] && Ticks(env) == CLOCK && 10 <= k < |CLOCK|
    requires Stage(env, plan, k, (x: Sim) => Sold(x, charge))
    ensures Stage(env, plan, k + 1, (x: Sim) => Sold(x, charge))
  {
    hide Ticks, Timeline, After, WorldSound, GridSound, Step, MayFill;
    var P := (x: Sim) => Sold(x, charge);
    forall x, y | Quiet(x, y) && P(x)
      ensures P(y)
    {
      SoldStays(x, y, charge);
    }
    SoldFlat(After(env, GRID, plan, k).value.sim, charge);
    hide SimOrder.Active;
    Remains(env, charge, plan, k, P);
  }

  /**
   * A validated run that completes. What is left of the capital is what the square-off charge leaves of it, be that
   * less than nothing.
   */
  lemma CompletesExactly<S>(env: Env, charge: real, plan: Plan<S>, paise: int)
    requires charge >= 0.0 && env == Input(charge) && charge == paise as real / 100.0
    ensures Separated(env.sessions) && Run(env, plan).Ok? && Run(env, plan).value.sim.book.cash == 10.0 - charge
  {
    hide Ticks, Timeline, After, Validate, GridSound;
    InputValidates(env, charge);
    Finishes(env, charge, plan, paise);
  }

  /** A square-off charge of 50 leaves 40 owed at the end of a completed run. */
  lemma CompletedOverdrawn<S>(env: Env, plan: Plan<S>)
    requires env == Input(50.0)
    ensures Separated(env.sessions) && Run(env, plan).Ok? && Run(env, plan).value.sim.book.cash == -40.0
  {
    hide Run;
    CompletesExactly(env, 50.0, plan, 5000);
  }


  // ----- a completed run without a report

  /** The curve goes on with points of the second day. */
  ghost predicate GoesOn(first: seq<EquityPoint>, equity: seq<EquityPoint>) {
    first <= equity && forall i | |first| <= i < |equity| :: IstDay(equity[i].timestamp) == 1
  }

  lemma NextDay<S>(env: Env, charge: real, plan: Plan<S>, k: nat, first: seq<EquityPoint>)
    requires charge >= 0.0 && env == Input(charge) && env.sessions != [] && Ticks(env) == CLOCK && 11 <= k < |CLOCK|
    requires After(env, GRID, plan, k + 1).Ok? && After(env, GRID, plan, k).Ok? && GoesOn(first, After(env, GRID, plan, k).value.sim.equity)
    ensures GoesOn(first, After(env, GRID, plan, k + 1).value.sim.equity)
  {
    hide Ticks, Timeline, After, WorldSound, GridSound, Step, Scheduled;
    Ticking(env, charge, plan, k);
    TickScheduled(env, k);
    var w := After(env, GRID, plan, k).value;
    Reconciliation.StepMarks(env, GRID, plan, w, CLOCK[k]);
    StepSound(env, GRID, plan, w, CLOCK[k]);
    SecondDay(k);
    CurveGoesOn(first, w.sim, After(env, GRID, plan, k + 1).value.sim, CLOCK[k].timestamp);
  }

  lemma SecondDay(k: nat)
    requires 11 <= k < |CLOCK|
    ensures IstDay(CLOCK[k].timestamp) == 1 && IstDay(CLOSE) == 0
  {
  }

  lemma CurveGoesOn(first: seq<EquityPoint>, st: Sim, r: Sim, now: Time)
    requires GoesOn(first, st.equity) && Extends(st, r) && Reconciliation.Marked(st, r, now) && IstDay(now) == 1
    ensures GoesOn(first, r.equity)
  {
    hide Carried;
    assert forall i | 0 <= i < |st.equity| :: r.equity[i] == st.equity[i];
  }

  /** The first day's close records the remaining cash. */
  lemma FirstClose<S>(env: Env, charge: real, plan: Plan<S>)
    requires charge >= 0.0 && env == Input(charge) && env.sessions != [] && Ticks(env) == CLOCK
    requires Stage(env, plan, 10, (x: Sim) => Sold(x, charge))
    ensures After(env, GRID, plan, 11).Ok?
    ensures var equity := After(env, GRID, plan, 11).value.sim.equity;
            && |equity| > 1 && equity[|equity| - 1].equity == 10.0 - charge && equity[|equity| - 1].timestamp == CLOSE
  {
    hide Ticks, Timeline, After, WorldSound, GridSound, Step, Scheduled, Healthy;
    Ticking(env, charge, plan, 10);
    TickScheduled(env, 10);
    var w := After(env, GRID, plan, 10).value;
    SoldFlat(w.sim, charge);
    NonEmptyCurve(env, w);
    ClosingQuiet(env, GRID, plan, w, CLOCK[10]);
    Reconciliation.StepMarks(env, GRID, plan, w, CLOCK[10]);
  }

  lemma NonEmptyCurve<S>(env: Env, w: World<S>)
    requires WorldSound(env, w)
    ensures w.sim.equity != []
  {
  }

  /** The second day's close records a point as well. */
  lemma SecondClose<S>(env: Env, charge: real, plan: Plan<S>)
    requires charge >= 0.0 && env == Input(charge) && env.sessions != [] && Ticks(env) == CLOCK
    requires Stage(env, plan, 14, (x: Sim) => Sold(x, charge))
    ensures After(env, GRID, plan, |CLOCK|).Ok?
    ensures |After(env, GRID, plan, |CLOCK|).value.sim.equity| == |After(env, GRID, plan, 14).value.sim.equity| + 1
  {
    hide Ticks, Timeline, After, WorldSound, GridSound, Step;
    Ticking(env, charge, plan, 14);
    var w := After(env, GRID, plan, 14).value;
    SoldFlat(w.sim, charge);
    ClosingQuiet(env, GRID, plan, w, CLOCK[14]);
  }

  /** Points of one day after those of another do not change what the other closed at. */
  lemma {:induction false} DaysApart(first: seq<EquityPoint>, points: seq<EquityPoint>)
    requires first != [] && IstDay(first[|first| - 1].timestamp) == 0 && GoesOn(first, points)
    ensures ClosingOn(points, 0) == Some(first[|first| - 1].equity)
    ensures |points| > |first| ==> ClosingOn(points, 1).Some?
  {
    if |points| > |first| {
      var shorter := points[..|points| - 1];
      assert first <= shorter;
      assert forall i | 0 <= i < |shorter| :: shorter[i] == points[i];
      DaysApart(first, shorter);
    } else {
      assert points == first;
    }
  }

  /** A square-off charge of all the cash closes the first day at zero: the run completes, and its report cannot be made. */
  lemma CompletedUnreported<S>(env: Env, plan: Plan<S>)
    requires env == Input(10.0)
    ensures Separated(env.sessions) && Run(env, plan).Ok?
    ensures var equity := Run(env, plan).value.sim.equity; equity != [] && ZeroBase(equity[0].equity, equity[1..])
  {
    hide Ticks, Timeline, After, WorldSound, GridSound, Step, Sold, ClosingOn, Run, Stage, GoesOn;
    CompletesExactly(env, 10.0, plan, 1000);
    Finishes(env, 10.0, plan, 1000);
    FirstClose(env, 10.0, plan);
    SoldAgain(env, 10.0, plan, 10);
    SoldAgain(env, 10.0, plan, 11);
    SoldAgain(env, 10.0, plan, 12);
    SoldAgain(env, 10.0, plan, 13);
    SecondClose(env, 10.0, plan);
    StageOk(env, plan, 12, (x: Sim) => Sold(x, 10.0));
    StageOk(env, plan, 13, (x: Sim) => Sold(x, 10.0));
    StageOk(env, plan, 14, (x: Sim) => Sold(x, 10.0));
    var first := After(env, GRID, plan, 11).value.sim.equity;
    OnItself(first);
    NextDay(env, 10.0, plan, 11, first);
    NextDay(env, 10.0, plan, 12, first);
    NextDay(env, 10.0, plan, 13, first);
    NextDay(env, 10.0, plan, 14, first);
    RunEnds(env, 10.0, plan);
    SecondDay(11);
    ZeroClose(first, After(env, GRID, plan, |CLOCK|).value.sim.equity, After(env, GRID, plan, 14).value.sim.equity);
  }

  lemma OnItself(first: seq<EquityPoint>)
    ensures GoesOn(first, first)
  {
  }

  lemma StageOk<S>(env: Env, plan: Plan<S>, k: nat, P: Sim -> bool)
    requires env.sessions != [] && k <= |Ticks(env)| && Stage(env, plan, k, P)
    ensures After(env, GRID, plan, k).Ok?
  {
    hide After, Ticks;
  }

  lemma RunEnds<S>(env: Env, charge: real, plan: Plan<S>)
    requires charge >= 0.0 && env == Input(charge) && env.sessions != [] && Ticks(env) == CLOCK
    ensures Run(env, plan) == After(env, GRID, plan, |CLOCK|)
  {
    hide Ticks, After, Validate, GridSound;
    InputValidates(env, charge);
  }

  lemma ZeroClose(first: seq<EquityPoint>, equity: seq<EquityPoint>, before: seq<EquityPoint>)
    requires |first| > 1 && first[|first| - 1].equity == 0.0 && IstDay(first[|first| - 1].timestamp) == 0
    requires GoesOn(first, equity) && GoesOn(first, before) && |equity| == |before| + 1
    ensures equity != [] && ZeroBase(equity[0].equity, equity[1..])
  {
    hide ClosingOn;
    assert first[1..] <= equity[1..];
    assert forall i | 0 <= i < |equity[1..]| :: equity[1..][i] == equity[i + 1];
    DaysApart(first[1..], equity[1..]);
  }
}
