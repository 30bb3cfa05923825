/**
 * Causal execution and forced flattening over whole runs: when orders may fill, and that from a symbol's
 * cutoff on its liquidation is in sole charge of its inventory.
 */
module Timing {
  import opened Common
  import opened Orders
  import opened Costs
  import opened Execution
  import opened Accounting
  import opened Trades
  import opened Calendars
  import opened Clock
  import opened FeatureRows
  import opened Strategies
  import opened Engine
  import opened Ledger
  import opened Safety
  import opened Grids
  import opened Runs

  /** The simulated time after k ticks. */
  function Now(env: Env, k: nat): Time
    requires env.sessions != [] && k <= |Ticks(env)|
  {
    if k == 0 then env.sessions[0].opens else Ticks(env)[k - 1].timestamp
  }

  /** The session's close is not among the first k ticks. */
  ghost predicate Live(env: Env, k: nat, s: Session)
    requires k <= |Ticks(env)|
  {
    forall j | 0 <= j < k :: Ticks(env)[j].kind == SessionClose ==> Ticks(env)[j].timestamp != s.closes
  }

  /** The symbol's bar with this opening has opened among the first k ticks. */
  ghost predicate OpenedAt(env: Env, k: nat, symbol: Symbol, t: Time)
    requires k <= |Ticks(env)|
  {
    exists j | 0 <= j < k ::
      Ticks(env)[j].kind == BarOpen && Ticks(env)[j].index < |env.bars| && Key(env.bars[Ticks(env)[j].index]) == (symbol, t)
  }

  /** Bar c has completed among the first k ticks. */
  ghost predicate CompletedBy(env: Env, k: nat, c: nat)
    requires k <= |Ticks(env)|
  {
    c < |env.bars| && exists j | 0 <= j < k :: Ticks(env)[j] == Tick(env.bars[c].availableAt, BarComplete, c)
  }

  /** What becomes of a liquidation: never rejected, never expired. */
  predicate Settles(status: Status) { status in {Pending, PartiallyFilled, Filled, Cancelled} }

  ghost predicate ForcedTimed(env: Env, grid: Grid, k: nat, o: SimOrder, s: Session)
    requires k <= |Ticks(env)| && s.opens in grid.cutoffs
  {
    && o.intent.createdAt == grid.cutoffs[s.opens]
    && o.eligibleFrom == Some(o.intent.createdAt)
    && o.intent.reference == FORCED_EXIT && o.intent.side == Sell && o.intent.orderType == Market
    && o.intent.ocoGroup == None
    && Settles(o.status)
    && OpenedAt(env, k, o.intent.symbol, o.intent.createdAt)
  }

  /** An order after k ticks: created in a session, active only while that session is open, eligible strictly later unless forced. */
  ghost predicate OrderTimed(env: Env, grid: Grid, k: nat, o: SimOrder)
    requires env.sessions != [] && k <= |Ticks(env)|
  {
    var at := SessionAt(env.sessions, o.intent.createdAt);
    && at.Some? && at.value.opens in grid.cutoffs
    && o.intent.createdAt <= Now(env, k)
    && (o.Active() ==> Live(env, k, at.value))
    && (if o.forced then ForcedTimed(env, grid, k, o, at.value)
        else o.eligibleFrom.Some? ==> o.eligibleFrom.value > o.intent.createdAt)
  }

  /** A fill: inside its order's own session, after the order, and before the cutoff unless forced. */
  ghost predicate FillTimed(env: Env, grid: Grid, o: SimOrder, f: Fill) {
    var at := SessionAt(env.sessions, o.intent.createdAt);
    && at.Some? && at.value.opens in grid.cutoffs && o.eligibleFrom.Some?
    && at.value.opens <= f.barOpen < f.timestamp <= at.value.closes
    && (if o.forced then o.intent.createdAt <= f.barOpen
        else o.intent.createdAt < o.eligibleFrom.value <= f.barOpen < grid.cutoffs[at.value.opens])
  }

  /** An active liquidation is its symbol's only active order and covers the whole holding. */
  ghost predicate ForcedAlone(st: Sim) {
    forall i | 0 <= i < |st.orders| && st.orders[i].forced && st.orders[i].Active() ::
      && st.orders[i].Remaining() == st.book.Held(st.orders[i].intent.symbol)
      && (forall j | 0 <= j < |st.orders| && j != i && st.orders[j].intent.symbol == st.orders[i].intent.symbol :: !st.orders[j].Active())
  }

  ghost predicate Timed(env: Env, grid: Grid, k: nat, st: Sim)
    requires env.sessions != [] && k <= |Ticks(env)|
  {
    && (forall i | 0 <= i < |st.orders| :: OrderTimed(env, grid, k, st.orders[i]))
    && (forall j | 0 <= j < |st.fills| ::
          1 <= st.fills[j].orderId <= |st.orders| && FillTimed(env, grid, st.orders[st.fills[j].orderId - 1], st.fills[j]))
    && ForcedAlone(st)
  }

  /** No ordinary order borrows the liquidation's name. */
  ghost predicate NameReserved(st: Sim) {
    forall i | 0 <= i < |st.orders| && !st.orders[i].forced :: st.orders[i].intent.reference != FORCED_EXIT
  }

  /** No liquidation was cancelled. */
  ghost predicate Unwithdrawn(st: Sim) { forall i | 0 <= i < |st.orders| && st.orders[i].forced :: st.orders[i].status != Cancelled }

  // ----- the clock

  lemma TicksFrom(env: Env, grid: Grid, k: nat)
    requires GridSound(env, grid) && k < |Ticks(env)|
    ensures Now(env, k) <= Ticks(env)[k].timestamp
    ensures Scheduled(env.bars, env.sessions, env.script, Ticks(env)[k])
    ensures forall j | 0 <= j < k :: Before(Ticks(env)[j], Ticks(env)[k]) && Ticks(env)[j] != Ticks(env)[k]
    ensures forall t: Tick | Scheduled(env.bars, env.sessions, env.script, t) && Earlier(t, Ticks(env)[k]) ::
              exists j | 0 <= j < k :: Ticks(env)[j] == t
  {
    hide Timeline, OnGrid;
    TimelineExact(env.bars, env.sessions, env.script);
    var tick := Ticks(env)[k];
    assert tick in Ticks(env);
    if k == 0 {
      ScheduledLater(env, grid, tick);
    }
    forall t: Tick | Scheduled(env.bars, env.sessions, env.script, t) && Earlier(t, tick)
      ensures exists j | 0 <= j < k :: Ticks(env)[j] == t
    {
      assert t in Ticks(env);
      var j :| 0 <= j < |Ticks(env)| && Ticks(env)[j] == t;
      assert j > k ==> Before(tick, t);
    }
  }

  lemma ScheduledLater(env: Env, grid: Grid, tick: Tick)
    requires GridSound(env, grid) && Scheduled(env.bars, env.sessions, env.script, tick)
    ensures env.sessions[0].opens <= tick.timestamp
  {
    forall s | s in env.sessions
      ensures env.sessions[0].opens <= s.opens < s.closes
    {
      var i :| 0 <= i < |env.sessions| && env.sessions[i] == s;
    }
    match tick.kind {
      case BarOpen => var s := BarSession(env, grid, tick.index);
      case BarComplete => var s := BarSession(env, grid, tick.index);
      case Decision => SessionAtExact(env.sessions, env.script[tick.index].createdAt);
      case _ =>
    }
  }

  /** A session that closed strictly before the current tick is not live. */
  lemma ClosedNotLive(env: Env, grid: Grid, k: nat, s: Session)
    requires GridSound(env, grid) && k < |Ticks(env)| && s in env.sessions
    requires s.closes < Ticks(env)[k].timestamp
    ensures !Live(env, k, s)
  {
    hide Timeline, OnGrid;
    TicksFrom(env, grid, k);
    var i :| 0 <= i < |env.sessions| && env.sessions[i] == s;
    var close := Tick(s.closes, SessionClose, i);
    assert Scheduled(env.bars, env.sessions, env.script, close) && Earlier(close, Ticks(env)[k]);
  }

  /** A live session that had begun by now is the session in which the current tick falls. */
  lemma LiveIsCurrent(env: Env, grid: Grid, k: nat, live: Session, s: Session)
    requires GridSound(env, grid) && k < |Ticks(env)| && live in env.sessions && s in env.sessions
    requires Live(env, k, live) && live.opens <= Ticks(env)[k].timestamp
    requires s.opens <= Ticks(env)[k].timestamp <= s.closes
    ensures live == s
  {
    hide Timeline, OnGrid;
    TicksFrom(env, grid, k);
    var i :| 0 <= i < |env.sessions| && env.sessions[i] == live;
    var j :| 0 <= j < |env.sessions| && env.sessions[j] == s;
    if i < j {
      ClosedNotLive(env, grid, k, live);
    }
  }

  /** A session holding the current tick strictly before its close is live, before and after the tick. */
  lemma CurrentIsLive(env: Env, grid: Grid, k: nat, s: Session)
    requires GridSound(env, grid) && k < |Ticks(env)| && s in env.sessions && Ticks(env)[k].timestamp < s.closes
    ensures Live(env, k, s) && Live(env, k + 1, s)
  {
    hide Timeline, OnGrid;
    TicksFrom(env, grid, k);
    forall j | 0 <= j < k + 1 && Ticks(env)[j].kind == SessionClose
      ensures Ticks(env)[j].timestamp != s.closes
    {
      assert j < k ==> Before(Ticks(env)[j], Ticks(env)[k]);
    }
  }

  // ----- one visit of the fill loop

  /** An active order that is eligible for a completing bar was created in that bar's session. */
  lemma OwnSession(env: Env, grid: Grid, k: nat, b: nat, o: SimOrder, s: Session)
    requires GridSound(env, grid) && k < |Ticks(env)| && b < |env.bars| && Ticks(env)[k] == Tick(env.bars[b].availableAt, BarComplete, b)
    requires s in env.sessions && InTile(grid, s, env.bars[b]) && SessionGrid(grid, s)
    requires OrderTimed(env, grid, k, o) && o.Active() && MayFill(o, env.bars[b].bar, grid.cutoffs[s.opens])
    ensures SessionAt(env.sessions, o.intent.createdAt) == Some(s)
  {
    hide Timeline, OnGrid;
    SessionAtExact(env.sessions, o.intent.createdAt);
    TicksFrom(env, grid, k);
    LiveIsCurrent(env, grid, k, SessionAt(env.sessions, o.intent.createdAt).value, s);
  }

  lemma VisitedTimed(env: Env, grid: Grid, k: nat, b: nat, s: Session, st: Sim, r: Sim, index: nat, base: Option<real>, left: Option<int>)
    requires GridSound(env, grid) && k < |Ticks(env)| && b < |env.bars| && Ticks(env)[k] == Tick(env.bars[b].availableAt, BarComplete, b)
    requires s in env.sessions && InTile(grid, s, env.bars[b]) && SessionGrid(grid, s)
    requires Sound(env, st) && Timed(env, grid, k, st) && index < |st.orders|
    requires MayFill(st.orders[index], env.bars[b].bar, grid.cutoffs[s.opens])
    requires Visited(env, st, r, index, base, env.bars[b].bar, env.bars[b].availableAt, left)
    ensures Timed(env, grid, k, r)
  {
    hide Timeline, Ticks, OnGrid, Visited, Sound, GridSound, OrderTimed, FillTimed, ForcedAlone, Unfilled, FilledOne;
    var item := env.bars[b];
    VisitedSummary(env, st, r, index, base, item.bar, item.availableAt, left);
    VisitedMoves(env, grid, k, st, r, index, item.bar, item.availableAt);
    forall i | 0 <= i < |st.orders|
      ensures OrderTimed(env, grid, k, r.orders[i])
    {
      OrderStaysTimed(env, grid, k, st.orders[i], r.orders[i]);
    }
    if FilledOne(st, r, index, item.bar, item.availableAt) {
      NewFillTimed(env, grid, k, b, s, st, r, index);
    } else {
      UnfilledFills(st, r, index);
    }
    FillsStayTimed(env, grid, st, r);
    VisitedAlone(st, r, index, item.bar, item.availableAt);
  }

  /** An order later in the run, as far as its times are concerned. */
  ghost predicate Moves(o: SimOrder, later: SimOrder) {
    && later.intent == o.intent && later.forced == o.forced && later.eligibleFrom == o.eligibleFrom
    && (later.Active() ==> o.Active())
    && (o.forced ==> Settles(later.status))
  }

  lemma OrderStaysTimed(env: Env, grid: Grid, k: nat, o: SimOrder, later: SimOrder)
    requires env.sessions != [] && k <= |Ticks(env)| && OrderTimed(env, grid, k, o) && Moves(o, later)
    ensures OrderTimed(env, grid, k, later)
  {
    hide Timeline, Ticks, Live, Now, OpenedAt;
  }

  lemma LiquidationShape(env: Env, grid: Grid, k: nat, o: SimOrder)
    requires env.sessions != [] && k <= |Ticks(env)| && OrderTimed(env, grid, k, o) && o.forced
    ensures Settles(o.status) && o.intent.side == Sell && o.intent.orderType == Market && o.intent.ocoGroup == None
  {
    hide Timeline, Ticks, Live, Now, OpenedAt;
  }

  /** A visit moves every order as time allows; a liquidation is not rejected by it. */
  lemma VisitedMoves(env: Env, grid: Grid, k: nat, st: Sim, r: Sim, index: nat, bar: Bar, now: Time)
    requires env.sessions != [] && k <= |Ticks(env)| && Timed(env, grid, k, st)
    requires index < |st.orders| && |r.orders| == |st.orders| && st.orders[index].intent.symbol == bar.symbol
    requires Unfilled(st, r, index) || FilledOne(st, r, index, bar, now)
    ensures forall i | 0 <= i < |st.orders| :: Moves(st.orders[i], r.orders[i])
    ensures forall i | 0 <= i < |st.orders| && st.orders[i].forced :: st.orders[i].intent.side == Sell
  {
    hide Timeline, Ticks, OrderTimed, FillTimed, Signed;
    forall i | 0 <= i < |st.orders| && st.orders[i].forced
      ensures st.orders[i].intent.side == Sell && Settles(st.orders[i].status)
      ensures st.orders[i].intent.orderType == Market && st.orders[i].intent.ocoGroup == None
    {
      LiquidationShape(env, grid, k, st.orders[i]);
    }
  }

  lemma UnfilledFills(st: Sim, r: Sim, index: nat)
    requires index < |st.orders| && |r.orders| == |st.orders| && Unfilled(st, r, index)
    ensures r.fills == st.fills
  {
  }

  /** Fills look at their order's intent, kind and eligibility only. */
  lemma FillsStayTimed(env: Env, grid: Grid, st: Sim, r: Sim)
    requires |r.orders| == |st.orders| && forall i | 0 <= i < |st.orders| :: Moves(st.orders[i], r.orders[i])
    requires forall j | 0 <= j < |st.fills| ::
               1 <= st.fills[j].orderId <= |st.orders| && FillTimed(env, grid, st.orders[st.fills[j].orderId - 1], st.fills[j])
    requires st.fills <= r.fills
    requires forall j | |st.fills| <= j < |r.fills| ::
               1 <= r.fills[j].orderId <= |r.orders| && FillTimed(env, grid, r.orders[r.fills[j].orderId - 1], r.fills[j])
    ensures forall j | 0 <= j < |r.fills| ::
              1 <= r.fills[j].orderId <= |r.orders| && FillTimed(env, grid, r.orders[r.fills[j].orderId - 1], r.fills[j])
  {
    hide FillTimed;
    forall j | 0 <= j < |st.fills|
      ensures 1 <= r.fills[j].orderId <= |r.orders| && FillTimed(env, grid, r.orders[r.fills[j].orderId - 1], r.fills[j])
    {
      assert r.fills[j] == st.fills[j];
      FillStaysTimed(env, grid, st.orders[st.fills[j].orderId - 1], r.orders[st.fills[j].orderId - 1], st.fills[j]);
    }
  }

  lemma FillStaysTimed(env: Env, grid: Grid, o: SimOrder, later: SimOrder, f: Fill)
    requires FillTimed(env, grid, o, f) && Moves(o, later)
    ensures FillTimed(env, grid, later, f)
  {
  }

  lemma NewFillTimed(env: Env, grid: Grid, k: nat, b: nat, s: Session, st: Sim, r: Sim, index: nat)
    requires GridSound(env, grid) && k < |Ticks(env)| && b < |env.bars| && Ticks(env)[k] == Tick(env.bars[b].availableAt, BarComplete, b)
    requires s in env.sessions && InTile(grid, s, env.bars[b]) && SessionGrid(grid, s)
    requires Sound(env, st) && Timed(env, grid, k, st) && index < |st.orders| && |r.orders| == |st.orders|
    requires MayFill(st.orders[index], env.bars[b].bar, grid.cutoffs[s.opens])
    requires FilledOne(st, r, index, env.bars[b].bar, env.bars[b].availableAt)
    ensures |r.fills| == |st.fills| + 1 && st.fills <= r.fills
    ensures r.fills[|st.fills|].orderId == index + 1 && FillTimed(env, grid, r.orders[index], r.fills[|st.fills|])
  {
    hide Timeline, Ticks, OnGrid, Sound, GridSound, Live, Now, OpenedAt, Signed;
    var o := st.orders[index];
    OwnSession(env, grid, k, b, o, s);
    SoundOrderId(env, st, index);
    assert OrderTimed(env, grid, k, o);
  }

  lemma SoundOrderId(env: Env, st: Sim, index: nat)
    requires Sound(env, st) && index < |st.orders|
    ensures st.orders[index].orderId == index + 1
  {
  }

  lemma VisitedAlone(st: Sim, r: Sim, index: nat, bar: Bar, now: Time)
    requires index < |st.orders| && |r.orders| == |st.orders| && st.orders[index].intent.symbol == bar.symbol
    requires Unfilled(st, r, index) || FilledOne(st, r, index, bar, now)
    requires ForcedAlone(st) && forall i | 0 <= i < |st.orders| && st.orders[i].forced :: st.orders[i].intent.side == Sell
    ensures ForcedAlone(r)
  {
    if FilledOne(st, r, index, bar, now) {
      forall i | 0 <= i < |r.orders| && r.orders[i].forced && r.orders[i].Active()
        ensures r.orders[i].Remaining() == r.book.Held(r.orders[i].intent.symbol)
        ensures forall j | 0 <= j < |r.orders| && j != i && r.orders[j].intent.symbol == r.orders[i].intent.symbol :: !r.orders[j].Active()
      {
        assert st.orders[i].forced && st.orders[i].Active();
        if i != index {
          assert st.orders[index].intent.symbol != st.orders[i].intent.symbol;
        }
      }
    }
  }

  // ----- the other operations

  /** Time passes a tick that is not a session close. */
  lemma TimedLater(env: Env, grid: Grid, k: nat, st: Sim)
    requires GridSound(env, grid) && k < |Ticks(env)| && Timed(env, grid, k, st) && Ticks(env)[k].kind != SessionClose
    ensures Timed(env, grid, k + 1, st)
  {
    hide Timeline, Ticks, OnGrid, FillTimed, ForcedAlone;
    TicksFrom(env, grid, k);
    forall i | 0 <= i < |st.orders|
      ensures OrderTimed(env, grid, k + 1, st.orders[i])
    {
      assert OrderTimed(env, grid, k, st.orders[i]);
    }
  }

  /** A session close leaves no order active. */
  lemma TimedClosed(env: Env, grid: Grid, k: nat, st: Sim)
    requires GridSound(env, grid) && k < |Ticks(env)| && Timed(env, grid, k, st)
    requires forall i | 0 <= i < |st.orders| :: !st.orders[i].Active()
    ensures Timed(env, grid, k + 1, st)
  {
    hide Timeline, Ticks, OnGrid, FillTimed, Live;
    TicksFrom(env, grid, k);
    forall i | 0 <= i < |st.orders|
      ensures OrderTimed(env, grid, k + 1, st.orders[i])
    {
      assert OrderTimed(env, grid, k, st.orders[i]);
    }
  }

  /** Cancelling orders, or expiring them as long as no active liquidation is among them. */
  lemma MoveWhereTimed(env: Env, grid: Grid, k: nat, st: Sim, pick: (nat, SimOrder) -> bool, status: Status, now: Time, reason: Reference)
    requires env.sessions != [] && k <= |Ticks(env)| && Timed(env, grid, k, st) && status in {Cancelled, Expired}
    requires status == Cancelled || forall i: nat | i < |st.orders| && st.orders[i].forced && st.orders[i].Active() :: !pick(i, st.orders[i])
    ensures Timed(env, grid, k, MoveWhere(st, pick, status, now, reason, 0))
  {
    hide Timeline, Ticks, OrderTimed, FillTimed, MoveWhere, SimOrder.EverTriggered;
    MoveWhereExact(st, pick, status, now, reason, 0);
    var r := MoveWhere(st, pick, status, now, reason, 0);
    forall i | 0 <= i < |st.orders|
      ensures OrderTimed(env, grid, k, r.orders[i]) && Moves(st.orders[i], r.orders[i])
    {
      assert OrderTimed(env, grid, k, st.orders[i]);
      if st.orders[i].forced {
        LiquidationShape(env, grid, k, st.orders[i]);
      }
      OrderStaysTimed(env, grid, k, st.orders[i], r.orders[i]);
    }
    FillsStayTimed(env, grid, st, r);
    assert ForcedAlone(r);
  }

  /** The session of an active liquidation is the current one, so its cutoff has passed. */
  lemma LiquidationIsCurrent(env: Env, grid: Grid, k: nat, o: SimOrder, s: Session)
    requires GridSound(env, grid) && k < |Ticks(env)| && s in env.sessions
    requires OrderTimed(env, grid, k + 1, o) && o.forced && o.Active()
    requires s.opens <= Ticks(env)[k].timestamp <= s.closes
    ensures s.opens in grid.cutoffs && o.intent.createdAt == grid.cutoffs[s.opens] <= Ticks(env)[k].timestamp
  {
    hide Timeline, OnGrid;
    SessionAtExact(env.sessions, o.intent.createdAt);
    LiveIsCurrent(env, grid, k, SessionAt(env.sessions, o.intent.createdAt).value, s);
  }

  lemma AppendTimed(env: Env, grid: Grid, k: nat, st: Sim, r: Sim, o: SimOrder)
    requires env.sessions != [] && k <= |Ticks(env)| && Timed(env, grid, k, st)
    requires r.orders == st.orders + [o] && r.fills == st.fills && r.book == st.book
    requires OrderTimed(env, grid, k, o) && ForcedAlone(r)
    ensures Timed(env, grid, k, r)
  {
    hide Timeline, Ticks, OrderTimed;
    forall j | 0 <= j < |r.fills|
      ensures 1 <= r.fills[j].orderId <= |r.orders| && FillTimed(env, grid, r.orders[r.fills[j].orderId - 1], r.fills[j])
    {
      assert FillTimed(env, grid, st.orders[st.fills[j].orderId - 1], st.fills[j]);
    }
  }

  /** An ordinary order placed at the current tick, inside a session. */
  lemma PlacedTimed(env: Env, grid: Grid, k: nat, st: Sim, intent: TradeIntent, s: Session)
    requires GridSound(env, grid) && k < |Ticks(env)| && Timed(env, grid, k + 1, st)
    requires intent.createdAt == Ticks(env)[k].timestamp && s in env.sessions && s.opens <= intent.createdAt < s.closes
    ensures var r := NewOrder(env, grid, st, intent, intent.createdAt, false);
            r.Ok? && Timed(env, grid, k + 1, r.value)
  {
    hide Timeline, Ticks, OnGrid, MadeOrder, EligibleFrom, Live, FillTimed, NewOrder;
    var now := intent.createdAt;
    SessionAtExact(env.sessions, now);
    assert SessionGrid(grid, s);
    NewOrderExact(env, grid, st, intent, now, false);
    var r := NewOrder(env, grid, st, intent, now, false).value;
    var eligible := EligibleFrom(grid.openings[s.opens], now, false);
    EligibleExact(grid.openings[s.opens], now, false);
    var o := MadeOrder(env, intent, |st.orders| + 1, eligible, now, false, now >= grid.cutoffs[s.opens], st.book.Held(intent.symbol));
    MadeShape(env, intent, |st.orders| + 1, eligible, now, false, now >= grid.cutoffs[s.opens], st.book.Held(intent.symbol));
    CurrentIsLive(env, grid, k, s);
    assert OrderTimed(env, grid, k + 1, o);
    forall i | 0 <= i < |r.orders| && r.orders[i].forced && r.orders[i].Active()
      ensures r.orders[i].Remaining() == r.book.Held(r.orders[i].intent.symbol)
      ensures forall j | 0 <= j < |r.orders| && j != i && r.orders[j].intent.symbol == r.orders[i].intent.symbol :: !r.orders[j].Active()
    {
      assert r.orders[i] == st.orders[i];
      LiquidationIsCurrent(env, grid, k, st.orders[i], s);
    }
    AppendTimed(env, grid, k + 1, st, r, o);
  }

  lemma EmitTimed(env: Env, grid: Grid, k: nat, st: Sim, r: Sim)
    requires env.sessions != [] && k <= |Ticks(env)| && Timed(env, grid, k, st)
    requires r.orders == st.orders && r.fills == st.fills && r.book == st.book
    ensures Timed(env, grid, k, r)
  {
    hide Timeline, Ticks, OrderTimed, FillTimed;
  }

  /** Whatever the strategy requests at this tick, its times stay in order. */
  lemma {:induction false} RequestAllTimed(env: Env, grid: Grid, k: nat, st: Sim, symbol: Symbol, requests: seq<Request>, s: Session)
    requires GridSound(env, grid) && k < |Ticks(env)| && Timed(env, grid, k + 1, st)
    requires s in env.sessions && s.opens <= Ticks(env)[k].timestamp
    requires requests != [] ==> Ticks(env)[k].timestamp < s.closes
    requires forall r | r in requests :: r.CreatedAt() == Ticks(env)[k].timestamp
    ensures var r := RequestAll(env, grid, st, symbol, Ticks(env)[k].timestamp, requests);
            r.Ok? ==> Timed(env, grid, k + 1, r.value)
    decreases requests
  {
    hide Timeline, Ticks, OnGrid, Timed, NewOrder, MoveWhere, GridSound;
    if requests != [] {
      var now, request := Ticks(env)[k].timestamp, requests[0];
      assert request in requests;
      var told := Emit(st, now, Decided(symbol, request.Ref(), request.FeatureTimestamp()));
      GridHasSessions(env, grid);
      EmitTimed(env, grid, k + 1, st, told);
      match request {
        case Withdraw(c) => MoveWhereTimed(env, grid, k + 1, told, Targeted(symbol, c.targets), Cancelled, now, Text(c.reason));
        case Place(intent) => PlacedTimed(env, grid, k, told, intent, s);
      }
      var next := Request1(env, grid, st, symbol, now, request).value;
      RequestAllTimed(env, grid, k, next, symbol, requests[1..], s);
    }
  }

  lemma ForcedNamed(env: Env, grid: Grid, k: nat, st: Sim)
    requires env.sessions != [] && k <= |Ticks(env)| && Timed(env, grid, k, st)
    ensures forall i | 0 <= i < |st.orders| && st.orders[i].forced :: st.orders[i].intent.reference == FORCED_EXIT && st.orders[i].intent.side == Sell
  {
    hide Timeline, Ticks, FillTimed, ForcedAlone;
    forall i | 0 <= i < |st.orders| && st.orders[i].forced
      ensures st.orders[i].intent.reference == FORCED_EXIT && st.orders[i].intent.side == Sell
    {
      assert OrderTimed(env, grid, k, st.orders[i]);
    }
  }
}
