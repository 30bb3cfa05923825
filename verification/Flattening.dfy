/** The whole-run theorems about time: strict causal fills, the event log, and forced flattening. */
module Flattening {
  import opened Common
  import opened Orders
  import opened Execution
  import opened Accounting
  import opened Trades
  import opened Calendars
  import opened Clock
  import opened FeatureRows
  import opened Strategies
  import opened Engine
  import opened Ledger
  import opened Safety
  import opened Grids
  import opened Runs
  import opened Timing

  lemma {:induction false} SnapshotsExact(orders: seq<SimOrder>, symbol: Symbol)
    ensures forall x | x in Snapshots(orders, symbol) ::
              exists i :: 0 <= i < |orders| && orders[i].intent.symbol == symbol && x == Snapshot(orders[i])
    ensures forall i | 0 <= i < |orders| && orders[i].intent.symbol == symbol :: Snapshot(orders[i]) in Snapshots(orders, symbol)
  {
    if orders != [] {
      var n := |orders| - 1;
      SnapshotsExact(orders[..n], symbol);
      forall x | x in Snapshots(orders, symbol)
        ensures exists i :: 0 <= i < |orders| && orders[i].intent.symbol == symbol && x == Snapshot(orders[i])
      {
        if x in Snapshots(orders[..n], symbol) {
          var i :| 0 <= i < n && orders[..n][i].intent.symbol == symbol && x == Snapshot(orders[..n][i]);
          assert x == Snapshot(orders[i]);
        }
      }
      forall i | 0 <= i < |orders| && orders[i].intent.symbol == symbol
        ensures Snapshot(orders[i]) in Snapshots(orders, symbol)
      {
        if i < n {
          assert orders[..n][i] == orders[i];
        }
      }
    }
  }

  lemma TargetsHarmless(env: Env, st: Sim, ctx: Context, requests: seq<Request>, references: set<Reference>)
    requires NameReserved(st) && ctx.orders == Snapshots(st.orders, ctx.bar.symbol)
    requires Checked(ctx, requests, references).Ok?
    ensures forall r | r in requests && r.Withdraw? :: FORCED_EXIT !in r.cancel.targets
  {
    CheckedBatch(ctx, requests, references);
    SnapshotsExact(st.orders, ctx.bar.symbol);
    assert FORCED_EXIT !in Known(ctx.orders);
  }

  lemma TimesMatch(ctx: Context, requests: seq<Request>, references: set<Reference>)
    requires Checked(ctx, requests, references).Ok?
    ensures forall r | r in requests :: r.CreatedAt() == ctx.currentTime
    ensures requests != [] ==> ctx.currentTime < ctx.sessionClose
  {
    CheckedBatch(ctx, requests, references);
    if requests != [] {
      assert requests[0] in requests;
    }
  }

  // ----- liquidation in charge

  /** The symbol is flat, or an active liquidation covers it. */
  ghost predicate Covered(st: Sim, symbol: Symbol) {
    st.book.Held(symbol) == 0
    || exists i :: 0 <= i < |st.orders| && st.orders[i].forced && st.orders[i].Active() && st.orders[i].intent.symbol == symbol
  }

  /** A liquidation of the symbol, made at this time, was cancelled. */
  ghost predicate Withdrawn(st: Sim, symbol: Symbol, t: Time) {
    exists i :: 0 <= i < |st.orders| && IsWithdrawn(st.orders[i], symbol, t)
  }

  predicate IsWithdrawn(o: SimOrder, symbol: Symbol, t: Time) {
    o.forced && o.intent.symbol == symbol && o.intent.createdAt == t && o.status == Cancelled
  }

  /** A cutoff bar's symbol is covered, unless the bar has completed and the liquidation was cancelled since. */
  ghost predicate Attended(env: Env, k: nat, st: Sim, b: nat)
    requires k <= |Ticks(env)| && b < |env.bars|
  {
    Covered(st, env.bars[b].bar.symbol)
    || (CompletedBy(env, k, b) && Withdrawn(st, env.bars[b].bar.symbol, env.bars[b].bar.timestamp))
  }

  /** The bar opened at its session's cutoff, and that session is still open. */
  ghost predicate PastCutoff(env: Env, grid: Grid, k: nat, b: nat)
    requires k <= |Ticks(env)|
  {
    && b < |env.bars|
    && var at := SessionAt(env.sessions, env.bars[b].bar.timestamp);
       && at.Some? && at.value.opens in grid.cutoffs && env.bars[b].bar.timestamp == grid.cutoffs[at.value.opens]
       && OpenedAt(env, k, env.bars[b].bar.symbol, env.bars[b].bar.timestamp)
       && Live(env, k, at.value)
  }

  ghost predicate Liquidating(env: Env, grid: Grid, k: nat, st: Sim)
    requires k <= |Ticks(env)|
  {
    forall b: nat | b < |env.bars| && PastCutoff(env, grid, k, b) :: Attended(env, k, st, b)
  }

  /** A bar that completes after its symbol's cutoff opening did not open before that cutoff. */
  lemma CompletesAfterCutoff(env: Env, grid: Grid, k: nat, b: nat, c: nat, s: Session)
    requires GridSound(env, grid) && k < |Ticks(env)| && c < |env.bars| && Ticks(env)[k] == Tick(env.bars[c].availableAt, BarComplete, c)
    requires s in env.sessions && InTile(grid, s, env.bars[c]) && SessionGrid(grid, s)
    requires PastCutoff(env, grid, k, b)
    ensures env.bars[c].bar.timestamp >= grid.cutoffs[s.opens]
  {
    hide Timeline, OnGrid;
    TicksFrom(env, grid, k);
    var t := env.bars[b].bar.timestamp;
    SessionAtExact(env.sessions, t);
    var sb := SessionAt(env.sessions, t).value;
    var j :| 0 <= j < k && Ticks(env)[j].kind == BarOpen && Ticks(env)[j].index < |env.bars|
             && Key(env.bars[Ticks(env)[j].index]) == (env.bars[b].bar.symbol, t);
    TicksFrom(env, grid, j);
    assert Before(Ticks(env)[j], Ticks(env)[k]);
    LiveIsCurrent(env, grid, k, sb, s);
  }

  /** Visiting an order keeps the symbol covered once only liquidations may fill. */
  lemma VisitedCovered(env: Env, grid: Grid, k: nat, st: Sim, r: Sim, index: nat, base: Option<real>, bar: Bar, now: Time, left: Option<int>, cutoff: Time, symbol: Symbol)
    requires env.sessions != [] && k <= |Ticks(env)| && Timed(env, grid, k, st) && Sound(env, st) && index < |st.orders|
    requires MayFill(st.orders[index], bar, cutoff) && bar.timestamp >= cutoff
    requires Visited(env, st, r, index, base, bar, now, left) && Covered(st, symbol)
    ensures Covered(r, symbol)
  {
    hide Timeline, Ticks, Sound, Visited, FillTimed, Now, Live, OpenedAt;
    VisitedSummary(env, st, r, index, base, bar, now, left);
    assert OrderTimed(env, grid, k, st.orders[index]);
    if st.book.Held(symbol) != 0 {
      var i :| 0 <= i < |st.orders| && st.orders[i].forced && st.orders[i].Active() && st.orders[i].intent.symbol == symbol;
      assert OrderTimed(env, grid, k, st.orders[i]);
      if i != index {
        assert r.orders[i].forced && r.orders[i].Active() && r.orders[i].intent.symbol == symbol;
      } else if Unfilled(st, r, index) {
        assert r.orders[i].forced && r.orders[i].Active() && r.orders[i].intent.symbol == symbol;
      } else if r.orders[index].status == PartiallyFilled {
        assert r.orders[i].forced && r.orders[i].Active() && r.orders[i].intent.symbol == symbol;
      }
    }
  }

  /** What one bar completion keeps, before the strategy is asked. */
  ghost predicate InCharge(env: Env, grid: Grid, k: nat, st: Sim)
    requires env.sessions != [] && k <= |Ticks(env)|
  {
    Timed(env, grid, k, st) && Liquidating(env, grid, k, st)
  }

  lemma SameOrdersInCharge(env: Env, grid: Grid, k: nat, st: Sim, r: Sim)
    requires env.sessions != [] && k <= |Ticks(env)| && InCharge(env, grid, k, st)
    requires r.orders == st.orders && r.fills == st.fills && r.book == st.book
    ensures InCharge(env, grid, k, r)
  {
    hide Timeline, Ticks, PastCutoff, CompletedBy;
    EmitTimed(env, grid, k, st, r);
    forall b: nat | b < |env.bars| && PastCutoff(env, grid, k, b)
      ensures Attended(env, k, r, b)
    {
      assert Attended(env, k, st, b);
    }
  }

  lemma WithdrawnKept(st: Sim, r: Sim, symbol: Symbol, t: Time)
    requires Withdrawn(st, symbol, t) && |st.orders| <= |r.orders|
    requires forall i | 0 <= i < |st.orders| && !st.orders[i].Active() :: r.orders[i] == st.orders[i]
    ensures Withdrawn(r, symbol, t)
  {
    var i :| 0 <= i < |st.orders| && IsWithdrawn(st.orders[i], symbol, t);
    assert IsWithdrawn(r.orders[i], symbol, t);
  }

  lemma VisitedInactive(st: Sim, r: Sim, index: nat, bar: Bar, now: Time)
    requires index < |st.orders| && |r.orders| == |st.orders| && (Unfilled(st, r, index) || FilledOne(st, r, index, bar, now))
    ensures forall i | 0 <= i < |st.orders| && !st.orders[i].Active() :: r.orders[i] == st.orders[i]
  {
    hide Signed, SimOrder.EverTriggered;
  }

  lemma VisitedInCharge(env: Env, grid: Grid, k: nat, c: nat, s: Session, st: Sim, r: Sim, index: nat, base: Option<real>, left: Option<int>)
    requires GridSound(env, grid) && k < |Ticks(env)| && c < |env.bars| && Ticks(env)[k] == Tick(env.bars[c].availableAt, BarComplete, c)
    requires s in env.sessions && InTile(grid, s, env.bars[c]) && SessionGrid(grid, s)
    requires Sound(env, st) && InCharge(env, grid, k, st) && index < |st.orders|
    requires MayFill(st.orders[index], env.bars[c].bar, grid.cutoffs[s.opens])
    requires Visited(env, st, r, index, base, env.bars[c].bar, env.bars[c].availableAt, left)
    ensures InCharge(env, grid, k, r)
  {
    hide Timeline, Ticks, PastCutoff, Sound, Visited, Timed, Covered, OnGrid, CompletedBy, Unfilled, FilledOne, Withdrawn;
    GridHasSessions(env, grid);
    VisitedTimed(env, grid, k, c, s, st, r, index, base, left);
    VisitedSummary(env, st, r, index, base, env.bars[c].bar, env.bars[c].availableAt, left);
    VisitedInactive(st, r, index, env.bars[c].bar, env.bars[c].availableAt);
    forall b: nat | b < |env.bars| && PastCutoff(env, grid, k, b)
      ensures Attended(env, k, r, b)
    {
      assert Attended(env, k, st, b);
      if !Covered(st, env.bars[b].bar.symbol) {
        WithdrawnKept(st, r, env.bars[b].bar.symbol, env.bars[b].bar.timestamp);
      } else {
        CompletesAfterCutoff(env, grid, k, b, c, s);
        VisitedCovered(env, grid, k, st, r, index, base, env.bars[c].bar, env.bars[c].availableAt, left, grid.cutoffs[s.opens], env.bars[b].bar.symbol);
      }
    }
  }

  lemma SettledInCharge(env: Env, grid: Grid, k: nat, c: nat, s: Session, st: Sim)
    requires GridSound(env, grid) && k < |Ticks(env)| && c < |env.bars| && Ticks(env)[k] == Tick(env.bars[c].availableAt, BarComplete, c)
    requires s in env.sessions && InTile(grid, s, env.bars[c]) && SessionGrid(grid, s)
    requires Healthy(env, st) && InCharge(env, grid, k, st)
    ensures var r := Settled(env, st, env.bars[c], grid.cutoffs[s.opens]); r.Ok? && InCharge(env, grid, k, r.value)
  {
    hide Timeline, Ticks, Healthy, Settled, Extends, Logged, OnGrid, Sound, InCharge, Visited, GridSound, BarFills;
    GridHasSessions(env, grid);
    var item := env.bars[c];
    var P := (x: Sim) => InCharge(env, grid, k, x);
    forall x, y | OnlyLogs(x, y, item.availableAt) && P(x)
      ensures P(y)
    {
      SameOrdersInCharge(env, grid, k, x, y);
    }
    forall x: Sim, r: Sim, n: nat, base: Option<real>, l {:trigger Visited(env, x, r, n, base, item.bar, item.availableAt, l)} |
      Sound(env, x) && P(x) && n < |x.orders| && MayFill(x.orders[n], item.bar, grid.cutoffs[s.opens])
      && Visited(env, x, r, n, base, item.bar, item.availableAt, l) && Sound(env, r)
      ensures P(r)
    {
      VisitedInCharge(env, grid, k, c, s, x, r, n, base, l);
    }
    SettledKeeps(env, st, item, grid.cutoffs[s.opens], P);
    var settled := Settled(env, st, item, grid.cutoffs[s.opens]).value;
    var x :| P(x) && x.book == settled.book && x.orders == settled.orders && x.fills == settled.fills;
    SameOrdersInCharge(env, grid, k, x, settled);
  }

  /** The condition on bars only grows with a bar opening. */
  lemma PastCutoffLater(env: Env, grid: Grid, k: nat, b: nat)
    requires k < |Ticks(env)| && PastCutoff(env, grid, k + 1, b)
    ensures PastCutoff(env, grid, k, b)
            || (Ticks(env)[k].kind == BarOpen && Ticks(env)[k].index < |env.bars| && Key(env.bars[Ticks(env)[k].index]) == Key(env.bars[b]))
  {
    hide Timeline, Ticks;
  }

  /** Liquidations survive whatever leaves the fills and all liquidations alone. */
  lemma CoveredKept(env: Env, grid: Grid, k: nat, st: Sim, r: Sim)
    requires k <= |Ticks(env)| && Liquidating(env, grid, k, st)
    requires r.book == st.book && |st.orders| <= |r.orders|
    requires forall i | 0 <= i < |st.orders| && st.orders[i].forced :: r.orders[i] == st.orders[i]
    ensures Liquidating(env, grid, k, r)
  {
    hide Timeline, Ticks, PastCutoff, CompletedBy;
    forall b: nat | b < |env.bars| && PastCutoff(env, grid, k, b)
      ensures Attended(env, k, r, b)
    {
      AttendedKept(env, k, st, r, b);
    }
  }

  lemma AttendedKept(env: Env, k: nat, st: Sim, r: Sim, b: nat)
    requires k <= |Ticks(env)| && b < |env.bars| && Attended(env, k, st, b)
    requires r.book == st.book && |st.orders| <= |r.orders|
    requires forall i | 0 <= i < |st.orders| && st.orders[i].forced && st.orders[i].intent.symbol == env.bars[b].bar.symbol :: r.orders[i] == st.orders[i]
    ensures Attended(env, k, r, b)
  {
    hide Timeline, Ticks, CompletedBy;
    var symbol, t := env.bars[b].bar.symbol, env.bars[b].bar.timestamp;
    if Covered(st, symbol) {
      if st.book.Held(symbol) != 0 {
        var i :| 0 <= i < |st.orders| && st.orders[i].forced && st.orders[i].Active() && st.orders[i].intent.symbol == symbol;
        assert r.orders[i] == st.orders[i];
      }
    } else {
      var i :| 0 <= i < |st.orders| && IsWithdrawn(st.orders[i], symbol, t);
      assert r.orders[i] == st.orders[i];
    }
  }

  lemma LiquidatingLater(env: Env, grid: Grid, k: nat, st: Sim)
    requires k < |Ticks(env)| && Liquidating(env, grid, k, st) && Ticks(env)[k].kind != BarOpen
    ensures Liquidating(env, grid, k + 1, st)
  {
    hide Timeline, Ticks, PastCutoff, Covered, Withdrawn, CompletedBy;
    var next := k + 1;
    forall b: nat | b < |env.bars| && PastCutoff(env, grid, next, b)
      ensures Attended(env, next, st, b)
    {
      PastCutoffLater(env, grid, k, b);
      AttendedLater(env, k, st, b);
    }
  }

  lemma AttendedLater(env: Env, k: nat, st: Sim, b: nat)
    requires k < |Ticks(env)| && b < |env.bars| && Attended(env, k, st, b)
    ensures Attended(env, k + 1, st, b)
  {
    hide Timeline, Ticks, Covered, Withdrawn;
  }

  // ----- what requests can do to a liquidation

  /** Cancelled, or left as it is. */
  predicate Spared(o: SimOrder, later: SimOrder) {
    later == o || (o.Active() && later.intent == o.intent && later.forced == o.forced && later.status == Cancelled)
  }

  /** Requests of a symbol's strategy touch no other symbol, and do nothing to an order but cancel it. */
  lemma {:induction false} RequestAllSpares(env: Env, grid: Grid, st: Sim, symbol: Symbol, now: Time, requests: seq<Request>)
    ensures var r := RequestAll(env, grid, st, symbol, now, requests);
            r.Ok? ==> && r.value.book == st.book && |st.orders| <= |r.value.orders|
                      && (forall i | 0 <= i < |st.orders| && st.orders[i].intent.symbol != symbol :: r.value.orders[i] == st.orders[i])
                      && (forall i | 0 <= i < |st.orders| :: Spared(st.orders[i], r.value.orders[i]))
    decreases requests
  {
    hide Request1, Spared, SimOrder.Active;
    if requests == [] {
      forall i | 0 <= i < |st.orders|
        ensures Spared(st.orders[i], st.orders[i])
      {
        SparedSelf(st.orders[i]);
      }
    } else {
      var next := Request1(env, grid, st, symbol, now, requests[0]);
      RequestSpares(env, grid, st, symbol, now, requests[0]);
      if next.Ok? {
        RequestAllSpares(env, grid, next.value, symbol, now, requests[1..]);
        var r := RequestAll(env, grid, st, symbol, now, requests);
        if r.Ok? {
          forall i | 0 <= i < |st.orders|
            ensures Spared(st.orders[i], r.value.orders[i])
          {
            SparedTwice(st.orders[i], next.value.orders[i], r.value.orders[i]);
          }
        }
      }
    }
  }

  lemma SparedSelf(o: SimOrder)
    ensures Spared(o, o)
  {
  }

  lemma SparedTwice(o: SimOrder, p: SimOrder, q: SimOrder)
    requires Spared(o, p) && Spared(p, q)
    ensures Spared(o, q)
  {
  }

  lemma RequestSpares(env: Env, grid: Grid, st: Sim, symbol: Symbol, now: Time, request: Request)
    ensures var r := Request1(env, grid, st, symbol, now, request);
            r.Ok? ==> && r.value.book == st.book && |st.orders| <= |r.value.orders|
                      && (forall i | 0 <= i < |st.orders| && st.orders[i].intent.symbol != symbol :: r.value.orders[i] == st.orders[i])
                      && (forall i | 0 <= i < |st.orders| :: Spared(st.orders[i], r.value.orders[i]))
  {
    hide MadeOrder, EligibleFrom, MoveWhere, SimOrder.EverTriggered;
    var told := Emit(st, now, Decided(symbol, request.Ref(), request.FeatureTimestamp()));
    if request.Withdraw? {
      MoveWhereExact(told, Targeted(symbol, request.cancel.targets), Cancelled, now, Text(request.cancel.reason), 0);
    }
  }

  /** A cutoff bar of the completing bar's own symbol has completed with this tick, if not before. */
  lemma CutoffBarCompleted(env: Env, grid: Grid, k: nat, b: nat, c: nat, s: Session)
    requires GridSound(env, grid) && k < |Ticks(env)| && c < |env.bars| && Ticks(env)[k] == Tick(env.bars[c].availableAt, BarComplete, c)
    requires s in env.sessions && InTile(grid, s, env.bars[c]) && SessionGrid(grid, s)
    requires PastCutoff(env, grid, k, b) && env.bars[b].bar.symbol == env.bars[c].bar.symbol
    ensures CompletedBy(env, k + 1, b)
  {
    hide Timeline, OnGrid;
    TicksFrom(env, grid, k);
    CompletesAfterCutoff(env, grid, k, b, c, s);
    if b != c {
      var own := PastCutoffSession(env, grid, k, b, s);
      assert Key(env.bars[b]) != Key(env.bars[c]);
      var done := Tick(env.bars[b].availableAt, BarComplete, b);
      assert env.bars[b].availableAt <= env.bars[c].bar.timestamp;
      assert Scheduled(env.bars, env.sessions, env.script, done) && Earlier(done, Ticks(env)[k]);
    }
  }

  /** A bar past its cutoff while another completes lies in the other's session. */
  lemma PastCutoffSession(env: Env, grid: Grid, k: nat, b: nat, s: Session) returns (own: Session)
    requires GridSound(env, grid) && k < |Ticks(env)| && PastCutoff(env, grid, k, b) && s in env.sessions
    requires s.opens <= Ticks(env)[k].timestamp <= s.closes
    ensures own == s && InTile(grid, own, env.bars[b]) && env.bars[b].bar.timestamp == grid.cutoffs[s.opens]
  {
    hide Timeline, OnGrid;
    own := BarSession(env, grid, b);
    TicksFrom(env, grid, k);
    var j :| 0 <= j < k && Ticks(env)[j].kind == BarOpen && Ticks(env)[j].index < |env.bars|
             && Key(env.bars[Ticks(env)[j].index]) == (env.bars[b].bar.symbol, env.bars[b].bar.timestamp);
    TicksFrom(env, grid, j);
    assert Before(Ticks(env)[j], Ticks(env)[k]);
    LiveIsCurrent(env, grid, k, own, s);
  }

  /** Whatever the strategy requests of its own symbol, each cutoff bar stays attended. */
  lemma RequestsAttended(env: Env, grid: Grid, k: nat, st: Sim, r: Sim, c: nat, s: Session, b: nat)
    requires GridSound(env, grid) && k < |Ticks(env)| && c < |env.bars| && Ticks(env)[k] == Tick(env.bars[c].availableAt, BarComplete, c)
    requires s in env.sessions && InTile(grid, s, env.bars[c]) && SessionGrid(grid, s)
    requires Timed(env, grid, k + 1, st) && b < |env.bars| && PastCutoff(env, grid, k, b) && Attended(env, k + 1, st, b)
    requires r.book == st.book && |st.orders| <= |r.orders|
    requires forall i | 0 <= i < |st.orders| && st.orders[i].intent.symbol != env.bars[c].bar.symbol :: r.orders[i] == st.orders[i]
    requires forall i | 0 <= i < |st.orders| :: Spared(st.orders[i], r.orders[i])
    ensures Attended(env, k + 1, r, b)
  {
    hide Timeline, Ticks, GridSound, FillTimed, OrderTimed, ForcedAlone, PastCutoff, CompletedBy, OnGrid, InTile, SessionGrid;
    var symbol, t := env.bars[b].bar.symbol, env.bars[b].bar.timestamp;
    if symbol != env.bars[c].bar.symbol {
      AttendedKept(env, k + 1, st, r, b);
    } else if Covered(st, symbol) && st.book.Held(symbol) != 0 {
      CutoffBarCompleted(env, grid, k, b, c, s);
      var i :| 0 <= i < |st.orders| && st.orders[i].forced && st.orders[i].Active() && st.orders[i].intent.symbol == symbol;
      assert OrderTimed(env, grid, k + 1, st.orders[i]);
      CovererMade(env, grid, k, b, c, s, st.orders[i]);
      if r.orders[i].status == Cancelled {
        assert IsWithdrawn(r.orders[i], symbol, t);
      } else {
        assert r.orders[i] == st.orders[i];
      }
    } else if !Covered(st, symbol) {
      var i :| 0 <= i < |st.orders| && IsWithdrawn(st.orders[i], symbol, t);
      assert IsWithdrawn(r.orders[i], symbol, t);
    }
  }

  /** An active liquidation seen while a cutoff is past was made at that cutoff. */
  lemma CovererMade(env: Env, grid: Grid, k: nat, b: nat, c: nat, s: Session, o: SimOrder)
    requires GridSound(env, grid) && k < |Ticks(env)| && c < |env.bars| && Ticks(env)[k] == Tick(env.bars[c].availableAt, BarComplete, c)
    requires s in env.sessions && InTile(grid, s, env.bars[c]) && SessionGrid(grid, s)
    requires PastCutoff(env, grid, k, b) && OrderTimed(env, grid, k + 1, o) && o.forced && o.Active()
    ensures o.intent.createdAt == env.bars[b].bar.timestamp
  {
    hide Timeline, Ticks, OnGrid, PastCutoff, OpenedAt, Live;
    var own := PastCutoffSession(env, grid, k, b, s);
    LiquidationIsCurrent(env, grid, k, o, s);
  }

  lemma CompleteInCharge<S>(env: Env, grid: Grid, plan: Plan<S>, k: nat, w: World<S>, c: nat)
    requires GridSound(env, grid) && WorldSound(env, w) && k < |Ticks(env)| && c < |env.bars|
    requires Ticks(env)[k] == Tick(env.bars[c].availableAt, BarComplete, c)
    requires InCharge(env, grid, k, w.sim)
    requires Complete(env, grid, plan, w, env.bars[c]).Ok?
    ensures InCharge(env, grid, k + 1, Complete(env, grid, plan, w, env.bars[c]).value.sim)
  {
    hide Timeline, Ticks, Healthy, Settled, Extends, Logged, OnGrid, GridSound, BarFills, Timed, Liquidating, RequestAll, Visited, Spared, PastCutoff, Attended;
    GridHasSessions(env, grid);
    var item := env.bars[c];
    var s := BarSession(env, grid, c);
    var cutoff := grid.cutoffs[s.opens];
    SettledInCharge(env, grid, k, c, s, w.sim);
    SettledKeeps(env, w.sim, item, cutoff, (x: Sim) => true);
    var settled := Settled(env, w.sim, item, cutoff).value;
    TimedLater(env, grid, k, settled);
    LiquidatingLater(env, grid, k, settled);
    if w.runtime.Some? {
      var ctx := ContextOf(settled, item, env.features[Key(item)], s, cutoff);
      var (runtime, requests) := Evaluated(plan, w.runtime.value, ctx).value;
      var ran := Emit(settled, item.availableAt, StrategyRan(item.bar.symbol, item.bar.timestamp, ctx.availableAt, |requests|));
      TimesMatch(ctx, requests, w.runtime.value.references);
      SameOrdersInCharge(env, grid, k + 1, settled, ran);
      RequestsInCharge(env, grid, k, c, s, ran, requests);
    }
  }

  lemma RequestsInCharge(env: Env, grid: Grid, k: nat, c: nat, s: Session, st: Sim, requests: seq<Request>)
    requires GridSound(env, grid) && k < |Ticks(env)| && c < |env.bars| && Ticks(env)[k] == Tick(env.bars[c].availableAt, BarComplete, c)
    requires s in env.sessions && InTile(grid, s, env.bars[c]) && SessionGrid(grid, s) && InCharge(env, grid, k + 1, st)
    requires requests != [] ==> env.bars[c].availableAt < s.closes
    requires forall r | r in requests :: r.CreatedAt() == env.bars[c].availableAt
    ensures var r := RequestAll(env, grid, st, env.bars[c].bar.symbol, env.bars[c].availableAt, requests);
            r.Ok? ==> InCharge(env, grid, k + 1, r.value)
  {
    hide Timeline, Ticks, OnGrid, GridSound, Timed, RequestAll, Spared, PastCutoff, Attended;
    RequestAllTimed(env, grid, k, st, env.bars[c].bar.symbol, requests, s);
    RequestAllSpares(env, grid, st, env.bars[c].bar.symbol, env.bars[c].availableAt, requests);
    var r := RequestAll(env, grid, st, env.bars[c].bar.symbol, env.bars[c].availableAt, requests);
    if r.Ok? {
      var next := k + 1;
      forall b: nat | b < |env.bars| && PastCutoff(env, grid, next, b)
        ensures Attended(env, next, r.value, b)
      {
        PastCutoffLater(env, grid, k, b);
        RequestsAttended(env, grid, k, st, r.value, c, s, b);
      }
    }
  }

  lemma NameStaysReserved(st: Sim, r: Sim)
    requires NameReserved(st) && |r.orders| == |st.orders| && Extends(st, r)
    ensures NameReserved(r)
  {
    forall i | 0 <= i < |r.orders| && !r.orders[i].forced
      ensures r.orders[i].intent.reference != FORCED_EXIT
    {
      assert Carried(st.orders[i], r.orders[i]);
    }
  }

  /** Before a symbol's cutoff bar opens, the symbol has no active liquidation. */
  lemma NoLiquidationYet(env: Env, grid: Grid, k: nat, c: nat, s: Session, st: Sim)
    requires GridSound(env, grid) && k < |Ticks(env)| && c < |env.bars| && Ticks(env)[k] == Tick(env.bars[c].bar.timestamp, BarOpen, c)
    requires s in env.sessions && InTile(grid, s, env.bars[c]) && SessionGrid(grid, s)
    requires env.bars[c].bar.timestamp == grid.cutoffs[s.opens] && Timed(env, grid, k, st)
    ensures forall i | 0 <= i < |st.orders| && st.orders[i].forced && st.orders[i].intent.symbol == env.bars[c].bar.symbol :: !st.orders[i].Active()
  {
    hide Timeline, OnGrid, FillTimed, ForcedAlone;
    TicksFrom(env, grid, k);
    forall i | 0 <= i < |st.orders| && st.orders[i].forced && st.orders[i].intent.symbol == env.bars[c].bar.symbol
      ensures !st.orders[i].Active()
    {
      var o := st.orders[i];
      assert OrderTimed(env, grid, k, o);
      if o.Active() {
        SessionAtExact(env.sessions, o.intent.createdAt);
        LiveIsCurrent(env, grid, k, SessionAt(env.sessions, o.intent.createdAt).value, s);
        var j :| 0 <= j < k && Ticks(env)[j].kind == BarOpen && Ticks(env)[j].index < |env.bars|
                 && Key(env.bars[Ticks(env)[j].index]) == (o.intent.symbol, o.intent.createdAt);
        TicksFrom(env, grid, j);
        assert false;
      }
    }
  }

  /** The liquidation takes over: everything else of the symbol is cancelled, and it covers the whole holding. */
  lemma FlattenInCharge(env: Env, grid: Grid, k: nat, c: nat, s: Session, st: Sim)
    requires GridSound(env, grid) && k < |Ticks(env)| && c < |env.bars| && Ticks(env)[k] == Tick(env.bars[c].bar.timestamp, BarOpen, c)
    requires s in env.sessions && InTile(grid, s, env.bars[c]) && SessionGrid(grid, s)
    requires SessionAt(env.sessions, env.bars[c].bar.timestamp) == Some(s)
    requires env.bars[c].bar.timestamp == grid.cutoffs[s.opens] && Timed(env, grid, k, st)
    requires Flatten(env, grid, st, env.bars[c].bar.symbol, env.bars[c].bar.timestamp).Ok?
    ensures var r := Flatten(env, grid, st, env.bars[c].bar.symbol, env.bars[c].bar.timestamp).value;
            && Timed(env, grid, k + 1, r)
            && Covered(r, env.bars[c].bar.symbol)
            && r.book == st.book && |st.orders| <= |r.orders|
            && (forall i | 0 <= i < |st.orders| && st.orders[i].forced :: r.orders[i] == st.orders[i])
            && (forall i | |st.orders| <= i < |r.orders| :: r.orders[i].status == Pending)
  {
    hide Timeline, Ticks, OnGrid, GridSound, Timed, Live, MadeOrder, EligibleFrom, MoveWhere, NewOrder, OpenedAt, Now, Added, SimOrder.EverTriggered;
    GridHasSessions(env, grid);
    var symbol, now := env.bars[c].bar.symbol, env.bars[c].bar.timestamp;
    TimedLater(env, grid, k, st);
    NoLiquidationYet(env, grid, k, c, s, st);
    var quantity := st.book.Held(symbol);
    if quantity != 0 {
      MoveWhereTimed(env, grid, k + 1, st, OfSymbol(symbol), Cancelled, now, Text("SESSION_EXIT_CUTOFF"));
      MoveWhereExact(st, OfSymbol(symbol), Cancelled, now, Text("SESSION_EXIT_CUTOFF"), 0);
      var cleared := MoveWhere(st, OfSymbol(symbol), Cancelled, now, Text("SESSION_EXIT_CUTOFF"), 0);
      var warned := cleared.(warnings := cleared.warnings + {ForcedSessionExit});
      EmitTimed(env, grid, k + 1, cleared, warned);
      var intent := Validated(ForcedIntent(symbol, quantity, now)).value;
      NewOrderExact(env, grid, warned, intent, now, true);
      var r := NewOrder(env, grid, warned, intent, now, true).value;
      var eligible := EligibleFrom(grid.openings[s.opens], now, true);
      EligibleExact(grid.openings[s.opens], now, true);
      MadeShape(env, intent, |st.orders| + 1, eligible, now, true, true, quantity);
      var o := MadeOrder(env, intent, |st.orders| + 1, eligible, now, true, true, quantity);
      AddedOrders(env, warned, r, intent, now, true, eligible, true);
      LiquidationTimed(env, grid, k, c, s, o);
      assert Timed(env, grid, k + 1, st) ==> ForcedAlone(st) by { TimedAlone(env, grid, k + 1, st); }
      AloneAfterClearing(st, warned, r, o);
      AppendTimed(env, grid, k + 1, warned, r, o);
      assert r.orders[|st.orders|] == o;
    }
  }

  lemma TimedAlone(env: Env, grid: Grid, k: nat, st: Sim)
    requires env.sessions != [] && k <= |Ticks(env)|
    ensures Timed(env, grid, k, st) ==> ForcedAlone(st)
  {
  }

  lemma AddedOrders(env: Env, st: Sim, r: Sim, intent: TradeIntent, now: Time, forced: bool, eligible: Option<Time>, pastCutoff: bool)
    requires Added(env, st, r, intent, now, forced, eligible, pastCutoff)
    ensures r.orders == st.orders + [MadeOrder(env, intent, |st.orders| + 1, eligible, now, forced, pastCutoff, st.book.Held(intent.symbol))]
    ensures r.fills == st.fills && r.book == st.book
  {
  }

  /** Once a symbol's active orders are cancelled, its new liquidation is alone. */
  lemma AloneAfterClearing(st: Sim, cleared: Sim, r: Sim, o: SimOrder)
    requires ForcedAlone(st) && |cleared.orders| == |st.orders| && cleared.book == st.book && r.book == st.book
    requires forall i | 0 <= i < |st.orders| ::
               if st.orders[i].intent.symbol == o.intent.symbol then !cleared.orders[i].Active() && cleared.orders[i].intent == st.orders[i].intent
               else cleared.orders[i] == st.orders[i]
    requires r.orders == cleared.orders + [o] && o.Remaining() == st.book.Held(o.intent.symbol)
    ensures ForcedAlone(r)
  {
    forall i | 0 <= i < |r.orders| && r.orders[i].forced && r.orders[i].Active()
      ensures r.orders[i].Remaining() == r.book.Held(r.orders[i].intent.symbol)
      ensures forall j | 0 <= j < |r.orders| && j != i && r.orders[j].intent.symbol == r.orders[i].intent.symbol :: !r.orders[j].Active()
    {
      if i < |st.orders| {
        assert r.orders[i] == st.orders[i];
      }
    }
  }

  lemma LiquidationTimed(env: Env, grid: Grid, k: nat, c: nat, s: Session, o: SimOrder)
    requires GridSound(env, grid) && k < |Ticks(env)| && c < |env.bars| && Ticks(env)[k] == Tick(env.bars[c].bar.timestamp, BarOpen, c)
    requires s in env.sessions && SessionAt(env.sessions, env.bars[c].bar.timestamp) == Some(s) && s.opens in grid.cutoffs
    requires s.opens <= env.bars[c].bar.timestamp < s.closes
    requires env.bars[c].bar.timestamp == grid.cutoffs[s.opens] == o.intent.createdAt && o.eligibleFrom == Some(o.intent.createdAt)
    requires o.intent.reference == FORCED_EXIT && o.intent.side == Sell && o.intent.orderType == Market && o.intent.ocoGroup == None
    requires o.forced && o.status == Pending && o.intent.symbol == env.bars[c].bar.symbol
    ensures OrderTimed(env, grid, k + 1, o)
  {
    hide Timeline, Ticks, OnGrid, GridSound;
    CurrentIsLive(env, grid, k, s);
    assert Ticks(env)[k].kind == BarOpen && Key(env.bars[Ticks(env)[k].index]) == (o.intent.symbol, o.intent.createdAt);
  }

  // ----- ticks

  lemma OpenBarInCharge(env: Env, grid: Grid, k: nat, st: Sim)
    requires GridSound(env, grid) && Healthy(env, st) && k < |Ticks(env)| && Ticks(env)[k].kind == BarOpen
    requires InCharge(env, grid, k, st) && Ticks(env)[k].index < |env.bars| && OpenBar(env, grid, st, env.bars[Ticks(env)[k].index]).Ok?
    ensures InCharge(env, grid, k + 1, OpenBar(env, grid, st, env.bars[Ticks(env)[k].index]).value)
  {
    hide Timeline, Healthy, OnGrid, Flatten, Timed, Covered, PastCutoff, Withdrawn, CompletedBy;
    TicksFrom(env, grid, k);
    var c := Ticks(env)[k].index;
    var item := env.bars[c];
    var symbol, now := item.bar.symbol, item.bar.timestamp;
    var s := BarSession(env, grid, c);
    var told := Emit(st, now, BarOpened(symbol, item.bar.open));
    SameOrdersInCharge(env, grid, k, st, told);
    var r := OpenBar(env, grid, st, item).value;
    if now == grid.cutoffs[s.opens] {
      FlattenInCharge(env, grid, k, c, s, told);
      CoveredKept(env, grid, k, told, r);
    } else {
      TimedLater(env, grid, k, told);
    }
    var next := k + 1;
    forall b: nat | b < |env.bars| && PastCutoff(env, grid, next, b)
      ensures Attended(env, next, r, b)
    {
      PastCutoffLater(env, grid, k, b);
      if PastCutoff(env, grid, k, b) {
        assert Attended(env, k, r, b);
        AttendedLater(env, k, r, b);
      } else {
        assert b == c;
        CutoffBar(env, grid, k + 1, b, s);
      }
    }
  }

  lemma CutoffBar(env: Env, grid: Grid, k: nat, b: nat, s: Session)
    requires k <= |Ticks(env)| && PastCutoff(env, grid, k, b) && SessionAt(env.sessions, env.bars[b].bar.timestamp) == Some(s)
    ensures s.opens in grid.cutoffs && env.bars[b].bar.timestamp == grid.cutoffs[s.opens]
  {
    hide Timeline, Ticks;
  }

  lemma DecideInCharge(env: Env, grid: Grid, k: nat, st: Sim)
    requires GridSound(env, grid) && k < |Ticks(env)| && Ticks(env)[k].kind == Decision && InCharge(env, grid, k, st)
    requires Ticks(env)[k].index < |env.script|
    ensures var r := Decide(env, grid, st, env.script[Ticks(env)[k].index], Ticks(env)[k].timestamp);
            r.Ok? ==> InCharge(env, grid, k + 1, r.value)
  {
    hide Timeline, OnGrid, NewOrder, Timed, Liquidating, MadeOrder, EligibleFrom;
    TicksFrom(env, grid, k);
    var intent := env.script[Ticks(env)[k].index];
    var now := Ticks(env)[k].timestamp;
    var told := Emit(st, now, Decided(intent.symbol, intent.reference, intent.featureTimestamp));
    SessionAtExact(env.sessions, now);
    var s := SessionAt(env.sessions, now).value;
    assert SessionGrid(grid, s);
    SameOrdersInCharge(env, grid, k, st, told);
    TimedLater(env, grid, k, told);
    LiquidatingLater(env, grid, k, told);
    PlacedTimed(env, grid, k, told, intent, s);
    NewOrderExact(env, grid, told, intent, now, false);
    CoveredKept(env, grid, k + 1, told, NewOrder(env, grid, told, intent, now, false).value);
  }

  lemma CloseInCharge(env: Env, grid: Grid, k: nat, st: Sim)
    requires GridSound(env, grid) && Healthy(env, st) && k < |Ticks(env)| && Ticks(env)[k].kind == SessionClose && InCharge(env, grid, k, st)
    ensures var r := CloseSession(st, Ticks(env)[k].timestamp); r.Ok? ==> InCharge(env, grid, k + 1, r.value)
  {
    hide Timeline, Ticks, OnGrid, Timed, Liquidating, Healthy, MoveWhere, RecordEquity, GridSound;
    GridHasSessions(env, grid);
    var now := Ticks(env)[k].timestamp;
    CloseSound(env, st, now);
    var told := Emit(st, now, SessionClosed);
    var r := CloseSession(st, now);
    if r.Ok? {
      SameOrdersInCharge(env, grid, k, st, told);
      EmitKeeps(env, st, now, SessionClosed);
      HealthySound(env, told);
      NoLiquidationWhenFlat(env, grid, k, told);
      MoveWhereTimed(env, grid, k, told, Anyone(), Expired, now, Text("DAY_SESSION_ENDED"));
      var expired := MoveWhere(told, Anyone(), Expired, now, Text("DAY_SESSION_ENDED"), 0);
      MoveWhereKeeps(env, told, Anyone(), Expired, now, Text("DAY_SESSION_ENDED"));
      RecordSound(env, expired, now);
      EmitTimed(env, grid, k, expired, r.value);
      TimedClosed(env, grid, k, r.value);
      FlatCovered(env, grid, k + 1, r.value);
    }
  }

  lemma NoLiquidationWhenFlat(env: Env, grid: Grid, k: nat, st: Sim)
    requires env.sessions != [] && k <= |Ticks(env)| && Timed(env, grid, k, st) && Flat(st.book)
    requires Sound(env, st)
    ensures forall i: nat | i < |st.orders| && st.orders[i].forced && st.orders[i].Active() :: !Anyone()(i, st.orders[i])
  {
    hide Timeline, Ticks, Sound, OrderTimed, FillTimed;
    forall i: nat | i < |st.orders| && st.orders[i].forced
      ensures !st.orders[i].Active()
    {
      if st.orders[i].Active() {
        RemainingPositive(env, st, i);
        assert false;
      }
    }
  }

  lemma FlatCovered(env: Env, grid: Grid, k: nat, st: Sim)
    requires k <= |Ticks(env)| && Flat(st.book)
    ensures Liquidating(env, grid, k, st)
  {
    hide Timeline, Ticks, PastCutoff, CompletedBy, Withdrawn;
  }

  lemma StepInCharge<S>(env: Env, grid: Grid, plan: Plan<S>, k: nat, w: World<S>)
    requires GridSound(env, grid) && WorldSound(env, w) && k < |Ticks(env)|
    requires InCharge(env, grid, k, w.sim) && Step(env, grid, plan, w, Ticks(env)[k]).Ok?
    ensures InCharge(env, grid, k + 1, Step(env, grid, plan, w, Ticks(env)[k]).value.sim)
  {
    hide Timeline, OnGrid, InCharge, Healthy, Complete, OpenBar, Decide, CloseSession, OpenSession;
    TicksFrom(env, grid, k);
    match Ticks(env)[k].kind {
      case BarComplete => CompleteInCharge(env, grid, plan, k, w, Ticks(env)[k].index);
      case Decision => DecideInCharge(env, grid, k, w.sim);
      case BarOpen => OpenBarInCharge(env, grid, k, w.sim);
      case SessionClose => CloseInCharge(env, grid, k, w.sim);
      case SessionOpen =>
        OpenSound(env, w.sim, Ticks(env)[k].timestamp);
        var r := OpenSession(w.sim, Ticks(env)[k].timestamp).value;
        SameOrdersInCharge(env, grid, k, w.sim, r);
        OpenLater(env, grid, k, r);
    }
  }

  lemma OpenLater(env: Env, grid: Grid, k: nat, st: Sim)
    requires GridSound(env, grid) && k < |Ticks(env)| && Ticks(env)[k].kind == SessionOpen && InCharge(env, grid, k, st)
    ensures InCharge(env, grid, k + 1, st)
  {
    hide Timed, Liquidating, Timeline, Ticks, OnGrid;
    TimedLater(env, grid, k, st);
    LiquidatingLater(env, grid, k, st);
  }

  lemma NameReservedEarlier(st: Sim, r: Sim)
    requires Extends(st, r) && NameReserved(r)
    ensures NameReserved(st)
  {
    forall i | 0 <= i < |st.orders| && !st.orders[i].forced
      ensures st.orders[i].intent.reference != FORCED_EXIT
    {
      assert Carried(st.orders[i], r.orders[i]);
      assert r.orders[i].intent.reference != FORCED_EXIT;
    }
  }

  lemma {:induction false} ReachableInCharge<S>(env: Env, grid: Grid, plan: Plan<S>, k: nat)
    requires GridSound(env, grid) && k <= |Ticks(env)| && After(env, grid, plan, k).Ok?
    ensures InCharge(env, grid, k, After(env, grid, plan, k).value.sim)
  {
    hide WorldSound, Step, Timeline, Ticks, Extends, InCharge, GridSound, After, Start;
    GridHasSessions(env, grid);
    if k == 0 {
      StartSound(env, plan);
      AfterNone(env, grid, plan);
      NothingInCharge(env, grid, After(env, grid, plan, 0).value.sim);
    } else {
      Stepped(env, grid, plan, k);
      ReachableInCharge(env, grid, plan, k - 1);
      ReachableSound(env, grid, plan, k - 1);
      StepInCharge(env, grid, plan, k - 1, After(env, grid, plan, k - 1).value);
    }
  }

  lemma NothingInCharge(env: Env, grid: Grid, st: Sim)
    requires env.sessions != [] && st.orders == [] && st.fills == [] && st.book == Opening(env.capital)
    ensures InCharge(env, grid, 0, st)
  {
    hide Timeline;
  }

  // ----- the theorems

  /**
   * Strict causal execution, in every reachable state: an ordinary fill uses a bar that opened no earlier than
   * the order's eligible opening, which is strictly later than the order, and before the cutoff of the
   * order's own session; a liquidation fills no earlier than it was made; and a fill is published after its
   * bar opened and within the session.
   */
  lemma StrictCausality<S>(env: Env, grid: Grid, plan: Plan<S>, k: nat, j: nat)
    requires GridSound(env, grid) && k <= |Ticks(env)| && After(env, grid, plan, k).Ok?
    requires j < |After(env, grid, plan, k).value.sim.fills|
    ensures var st := After(env, grid, plan, k).value.sim;
            var f := st.fills[j];
            1 <= f.orderId <= |st.orders| && CausalFill(env, grid, st.orders[f.orderId - 1], f)
  {
    hide Timeline, Ticks, GridSound, After;
    GridHasSessions(env, grid);
    ReachableInCharge(env, grid, plan, k);
    var st := After(env, grid, plan, k).value.sim;
    var o := st.orders[st.fills[j].orderId - 1];
    assert FillTimed(env, grid, o, st.fills[j]) && OrderTimed(env, grid, k, o);
  }

  /** Within its order's own session: created, eligible, opened, before the cutoff unless forced, and published, in this order. */
  ghost predicate CausalFill(env: Env, grid: Grid, o: SimOrder, f: Fill) {
    var at := SessionAt(env.sessions, o.intent.createdAt);
    && at.Some? && at.value.opens <= f.barOpen < f.timestamp <= at.value.closes
    && at.value.opens in grid.cutoffs
    && (if o.forced then o.intent.createdAt == grid.cutoffs[at.value.opens] <= f.barOpen
        else o.eligibleFrom.Some?
             && o.intent.createdAt < o.eligibleFrom.value <= f.barOpen < grid.cutoffs[at.value.opens])
  }

  // ----- when nothing is withdrawn

  lemma VisitedUnwithdrawn(env: Env, grid: Grid, k: nat, st: Sim, r: Sim, index: nat, base: Option<real>, bar: Bar, now: Time, left: Option<int>)
    requires env.sessions != [] && k <= |Ticks(env)| && Sound(env, st) && Timed(env, grid, k, st) && Unwithdrawn(st)
    requires index < |st.orders| && st.orders[index].intent.symbol == bar.symbol && Visited(env, st, r, index, base, bar, now, left)
    ensures Unwithdrawn(r)
  {
    hide Timeline, Ticks, Sound, Visited, OrderTimed, FillTimed, ForcedAlone, Signed, SimOrder.EverTriggered;
    VisitedSummary(env, st, r, index, base, bar, now, left);
    forall i | 0 <= i < |r.orders| && r.orders[i].forced
      ensures r.orders[i].status != Cancelled
    {
      assert st.orders[i].forced;
      LiquidationShape(env, grid, k, st.orders[i]);
    }
  }

  lemma SettledUnwithdrawn(env: Env, grid: Grid, k: nat, c: nat, s: Session, st: Sim)
    requires GridSound(env, grid) && k < |Ticks(env)| && c < |env.bars| && Ticks(env)[k] == Tick(env.bars[c].availableAt, BarComplete, c)
    requires s in env.sessions && InTile(grid, s, env.bars[c]) && SessionGrid(grid, s)
    requires Healthy(env, st) && Timed(env, grid, k, st) && Unwithdrawn(st)
    ensures var r := Settled(env, st, env.bars[c], grid.cutoffs[s.opens]); r.Ok? && Unwithdrawn(r.value)
  {
    hide Timeline, Ticks, Healthy, Settled, Extends, Logged, OnGrid, Sound, Timed, Visited, GridSound, BarFills, Unwithdrawn, MayFill;
    GridHasSessions(env, grid);
    var item := env.bars[c];
    var P := (x: Sim) => Timed(env, grid, k, x) && Unwithdrawn(x);
    forall x, y | OnlyLogs(x, y, item.availableAt) && P(x)
      ensures P(y)
    {
      EmitTimed(env, grid, k, x, y);
      SameUnwithdrawn(x, y);
    }
    forall x: Sim, r: Sim, n: nat, base: Option<real>, l {:trigger Visited(env, x, r, n, base, item.bar, item.availableAt, l)} |
      Sound(env, x) && P(x) && n < |x.orders| && MayFill(x.orders[n], item.bar, grid.cutoffs[s.opens])
      && Visited(env, x, r, n, base, item.bar, item.availableAt, l) && Sound(env, r)
      ensures P(r)
    {
      VisitedTimed(env, grid, k, c, s, x, r, n, base, l);
      FillsOwnSymbol(x.orders[n], item.bar, grid.cutoffs[s.opens]);
      VisitedUnwithdrawn(env, grid, k, x, r, n, base, item.bar, item.availableAt, l);
    }
    SettledKeeps(env, st, item, grid.cutoffs[s.opens], P);
    var settled := Settled(env, st, item, grid.cutoffs[s.opens]).value;
    var x :| P(x) && x.book == settled.book && x.orders == settled.orders && x.fills == settled.fills;
    SameUnwithdrawn(x, settled);
  }

  lemma FillsOwnSymbol(o: SimOrder, bar: Bar, cutoff: Time)
    requires MayFill(o, bar, cutoff)
    ensures o.intent.symbol == bar.symbol
  {
  }

  lemma SameUnwithdrawn(st: Sim, r: Sim)
    requires Unwithdrawn(st) && r.orders == st.orders
    ensures Unwithdrawn(r)
  {
  }

  /** Requests that do not name the liquidation leave it alone. */
  lemma {:induction false} RequestAllUnwithdrawn(env: Env, grid: Grid, st: Sim, symbol: Symbol, now: Time, requests: seq<Request>)
    requires Unwithdrawn(st) && LiquidationsNamed(st)
    requires forall r | r in requests && r.Withdraw? :: FORCED_EXIT !in r.cancel.targets
    ensures var r := RequestAll(env, grid, st, symbol, now, requests); r.Ok? ==> Unwithdrawn(r.value)
    decreases requests
  {
    hide Unwithdrawn, LiquidationsNamed, Request1;
    if requests != [] {
      assert requests[0] in requests;
      RequestUnwithdrawn(env, grid, st, symbol, now, requests[0]);
      var next := Request1(env, grid, st, symbol, now, requests[0]);
      if next.Ok? {
        RequestAllUnwithdrawn(env, grid, next.value, symbol, now, requests[1..]);
      }
    }
  }

  ghost predicate LiquidationsNamed(st: Sim) { forall i | 0 <= i < |st.orders| && st.orders[i].forced :: st.orders[i].intent.reference == FORCED_EXIT }

  lemma RequestUnwithdrawn(env: Env, grid: Grid, st: Sim, symbol: Symbol, now: Time, request: Request)
    requires Unwithdrawn(st) && LiquidationsNamed(st)
    requires request.Withdraw? ==> FORCED_EXIT !in request.cancel.targets
    ensures var r := Request1(env, grid, st, symbol, now, request); r.Ok? ==> Unwithdrawn(r.value) && LiquidationsNamed(r.value)
  {
    hide EligibleFrom, MoveWhere, SimOrder.EverTriggered;
    var told := Emit(st, now, Decided(symbol, request.Ref(), request.FeatureTimestamp()));
    if request.Withdraw? {
      MoveWhereExact(told, Targeted(symbol, request.cancel.targets), Cancelled, now, Text(request.cancel.reason), 0);
    }
  }

  lemma CompleteUnwithdrawn<S>(env: Env, grid: Grid, plan: Plan<S>, k: nat, w: World<S>, c: nat)
    requires GridSound(env, grid) && WorldSound(env, w) && k < |Ticks(env)| && c < |env.bars|
    requires Ticks(env)[k] == Tick(env.bars[c].availableAt, BarComplete, c)
    requires InCharge(env, grid, k, w.sim) && NameReserved(w.sim) && Unwithdrawn(w.sim)
    requires Complete(env, grid, plan, w, env.bars[c]).Ok?
    ensures Unwithdrawn(Complete(env, grid, plan, w, env.bars[c]).value.sim)
  {
    hide Timeline, Ticks, Healthy, Settled, Extends, Logged, OnGrid, GridSound, BarFills, Timed, Liquidating, RequestAll, Visited, NameReserved, Unwithdrawn;
    GridHasSessions(env, grid);
    var item := env.bars[c];
    var s := BarSession(env, grid, c);
    var cutoff := grid.cutoffs[s.opens];
    SettledInCharge(env, grid, k, c, s, w.sim);
    SettledKeeps(env, w.sim, item, cutoff, (x: Sim) => true);
    SettledUnwithdrawn(env, grid, k, c, s, w.sim);
    var settled := Settled(env, w.sim, item, cutoff).value;
    NameStaysReserved(w.sim, settled);
    ForcedNamed(env, grid, k, settled);
    if w.runtime.Some? {
      var ctx := ContextOf(settled, item, env.features[Key(item)], s, cutoff);
      var (runtime, requests) := Evaluated(plan, w.runtime.value, ctx).value;
      var ran := Emit(settled, item.availableAt, StrategyRan(item.bar.symbol, item.bar.timestamp, ctx.availableAt, |requests|));
      TargetsHarmless(env, settled, ctx, requests, w.runtime.value.references);
      SameUnwithdrawn(settled, ran);
      RequestAllUnwithdrawn(env, grid, ran, item.bar.symbol, item.availableAt, requests);
    }
  }

  lemma OpenBarUnwithdrawn(env: Env, grid: Grid, k: nat, st: Sim)
    requires GridSound(env, grid) && Healthy(env, st) && k < |Ticks(env)| && Ticks(env)[k].kind == BarOpen && Unwithdrawn(st)
    requires InCharge(env, grid, k, st) && Ticks(env)[k].index < |env.bars| && OpenBar(env, grid, st, env.bars[Ticks(env)[k].index]).Ok?
    ensures Unwithdrawn(OpenBar(env, grid, st, env.bars[Ticks(env)[k].index]).value)
  {
    hide Timeline, Healthy, OnGrid, Flatten, Timed, Covered, Liquidating;
    TicksFrom(env, grid, k);
    var c := Ticks(env)[k].index;
    var item := env.bars[c];
    var s := BarSession(env, grid, c);
    var told := Emit(st, item.bar.timestamp, BarOpened(item.bar.symbol, item.bar.open));
    EmitTimed(env, grid, k, st, told);
    EmitKeeps(env, st, item.bar.timestamp, BarOpened(item.bar.symbol, item.bar.open));
    if item.bar.timestamp == grid.cutoffs[s.opens] {
      FlattenInCharge(env, grid, k, c, s, told);
      var r := Flatten(env, grid, told, item.bar.symbol, item.bar.timestamp).value;
      forall i | 0 <= i < |r.orders| && r.orders[i].forced
        ensures r.orders[i].status != Cancelled
      {
        if i < |st.orders| {
          FlattenCarries(env, grid, told, item.bar.symbol, item.bar.timestamp, i);
        }
      }
    }
  }

  lemma FlattenCarries(env: Env, grid: Grid, st: Sim, symbol: Symbol, now: Time, i: nat)
    requires Healthy(env, st) && i < |st.orders| && Flatten(env, grid, st, symbol, now).Ok?
    requires SessionAt(env.sessions, now).Some?
    requires SessionAt(env.sessions, now).value.opens in grid.openings && SessionAt(env.sessions, now).value.opens in grid.cutoffs
    ensures var r := Flatten(env, grid, st, symbol, now).value; i < |r.orders| && r.orders[i].forced == st.orders[i].forced
  {
    hide Healthy, Flatten, SimOrder.Active, SimOrder.EverTriggered;
    FlattenSound(env, grid, st, symbol, now);
    assert Carried(st.orders[i], Flatten(env, grid, st, symbol, now).value.orders[i]);
  }

  lemma StepUnwithdrawn<S>(env: Env, grid: Grid, plan: Plan<S>, k: nat, w: World<S>)
    requires GridSound(env, grid) && WorldSound(env, w) && k < |Ticks(env)|
    requires InCharge(env, grid, k, w.sim) && NameReserved(w.sim) && Unwithdrawn(w.sim) && Step(env, grid, plan, w, Ticks(env)[k]).Ok?
    ensures Unwithdrawn(Step(env, grid, plan, w, Ticks(env)[k]).value.sim)
  {
    hide Timeline, OnGrid, InCharge, Healthy, Complete, OpenBar, MoveWhere, NameReserved, EligibleFrom, OpenSession, RecordEquity, SimOrder.EverTriggered;
    TicksFrom(env, grid, k);
    match Ticks(env)[k].kind {
      case BarComplete => CompleteUnwithdrawn(env, grid, plan, k, w, Ticks(env)[k].index);
      case Decision =>
      case BarOpen => OpenBarUnwithdrawn(env, grid, k, w.sim);
      case SessionClose => CloseUnwithdrawn(w.sim, Ticks(env)[k].timestamp);
      case SessionOpen => OpenSound(env, w.sim, Ticks(env)[k].timestamp);
    }
  }

  lemma CloseUnwithdrawn(st: Sim, now: Time)
    requires Unwithdrawn(st)
    ensures CloseSession(st, now).Ok? ==> Unwithdrawn(CloseSession(st, now).value)
  {
    hide MoveWhere, Mark, AnyHeld, SimOrder.EverTriggered;
    MoveWhereExact(Emit(st, now, SessionClosed), Anyone(), Expired, now, Text("DAY_SESSION_ENDED"), 0);
  }

  /** While no ordinary order bears the liquidation's name, no liquidation is cancelled. */
  lemma {:induction false} ReservedUnwithdrawn<S>(env: Env, grid: Grid, plan: Plan<S>, k: nat)
    requires GridSound(env, grid) && k <= |Ticks(env)| && After(env, grid, plan, k).Ok?
    requires NameReserved(After(env, grid, plan, k).value.sim)
    ensures Unwithdrawn(After(env, grid, plan, k).value.sim)
  {
    hide WorldSound, Step, Timeline, Ticks, Extends, InCharge, NameReserved, GridSound, After, Start;
    GridHasSessions(env, grid);
    if k == 0 {
      StartSound(env, plan);
      AfterNone(env, grid, plan);
    } else {
      Stepped(env, grid, plan, k);
      HistoryExtends(env, grid, plan, k - 1, k);
      NameReservedEarlier(After(env, grid, plan, k - 1).value.sim, After(env, grid, plan, k).value.sim);
      ReservedUnwithdrawn(env, grid, plan, k - 1);
      ReachableInCharge(env, grid, plan, k - 1);
      ReachableSound(env, grid, plan, k - 1);
      StepUnwithdrawn(env, grid, plan, k - 1, After(env, grid, plan, k - 1).value);
    }
  }

  /**
   * Forced flattening, in every reachable state: a liquidation is never rejected and never expires; while active it is
   * its symbol's only active order and its remainder is the whole holding; and once a symbol's cutoff bar has opened,
   * until the session closes, a symbol that is held has such a liquidation, unless the strategy has cancelled it, which
   * it cannot do before the cutoff bar has completed, nor at all while no ordinary order bears the liquidation's name.
   */
  lemma ForcedFlattening<S>(env: Env, grid: Grid, plan: Plan<S>, k: nat)
    requires GridSound(env, grid) && k <= |Ticks(env)| && After(env, grid, plan, k).Ok?
    ensures var st := After(env, grid, plan, k).value.sim;
            && ForcedAlone(st)
            && (forall i | 0 <= i < |st.orders| && st.orders[i].forced :: Settles(st.orders[i].status))
            && (forall b: nat | b < |env.bars| && PastCutoff(env, grid, k, b) :: Attended(env, k, st, b))
            && (NameReserved(st) ==> Unwithdrawn(st))
            && (Unwithdrawn(st) ==> forall b: nat | b < |env.bars| && PastCutoff(env, grid, k, b) :: Covered(st, env.bars[b].bar.symbol))
  {
    hide Timeline, Ticks, OnGrid, After, PastCutoff, Covered, FillTimed, NameReserved, CompletedBy;
    ReachableInCharge(env, grid, plan, k);
    var st := After(env, grid, plan, k).value.sim;
    forall i | 0 <= i < |st.orders| && st.orders[i].forced
      ensures Settles(st.orders[i].status)
    {
      assert OrderTimed(env, grid, k, st.orders[i]);
    }
    if NameReserved(st) {
      ReservedUnwithdrawn(env, grid, plan, k);
    }
    if Unwithdrawn(st) {
      forall b: nat | b < |env.bars| && PastCutoff(env, grid, k, b)
        ensures Covered(st, env.bars[b].bar.symbol)
      {
        assert Attended(env, k, st, b);
      }
    }
  }

  /** After every session close the run passes, nothing is held and no order is active; equity is cash. */
  lemma FlatAfterClose<S>(env: Env, grid: Grid, plan: Plan<S>, k: nat)
    requires GridSound(env, grid) && 0 < k <= |Ticks(env)| && After(env, grid, plan, k).Ok? && Ticks(env)[k - 1].kind == SessionClose
    ensures var st := After(env, grid, plan, k).value.sim;
            && Flat(st.book) && (forall i | 0 <= i < |st.orders| :: !st.orders[i].Active())
            && st.equity != [] && st.equity[|st.equity| - 1].equity == st.book.cash
  {
    hide WorldSound, Timeline, Ticks, CloseSession, After, Step, GridSound, Healthy, Flat, Extends, Logged, SimOrder.Active;
    GridHasSessions(env, grid);
    Stepped(env, grid, plan, k);
    ReachableSound(env, grid, plan, k - 1);
    var w := After(env, grid, plan, k - 1).value;
    WorldHealthy(env, w);
    CloseSound(env, w.sim, Ticks(env)[k - 1].timestamp);
    ClosingStep(env, grid, plan, w, Ticks(env)[k - 1]);
  }

  lemma ClosingStep<S>(env: Env, grid: Grid, plan: Plan<S>, w: World<S>, tick: Tick)
    requires tick.kind == SessionClose
    ensures Step(env, grid, plan, w, tick) == Rewrap(w, CloseSession(w.sim, tick.timestamp))
  {
  }

  lemma WorldHealthy<S>(env: Env, w: World<S>)
    requires WorldSound(env, w)
    ensures Healthy(env, w.sim)
  {
  }

  /** Events are numbered consecutively and never go back in time. */
  ghost predicate Chronological(events: seq<Event>, from: Time, until: Time) {
    && (forall j | 0 <= j < |events| :: events[j].sequence == j && from <= events[j].timestamp <= until)
    && (forall i, j | 0 <= i < j < |events| :: events[i].timestamp <= events[j].timestamp)
  }

  lemma LoggedChronological(events: seq<Event>, later: seq<Event>, from: Time, before: Time, now: Time)
    requires Chronological(events, from, before) && from <= before <= now && Logged(events, later, now)
    ensures Chronological(later, from, now)
  {
    forall j | 0 <= j < |events|
      ensures later[j] == events[j]
    {
      assert later[..|events|][j] == later[j];
    }
  }

  lemma {:induction false} EventsChronological<S>(env: Env, grid: Grid, plan: Plan<S>, k: nat)
    requires GridSound(env, grid) && k <= |Ticks(env)| && After(env, grid, plan, k).Ok?
    ensures env.sessions[0].opens <= Now(env, k)
    ensures Chronological(After(env, grid, plan, k).value.sim.events, env.sessions[0].opens, Now(env, k))
  {
    hide WorldSound, Step, Timeline, Ticks, Extends, GridSound, Chronological, Logged, BarFills, Scheduled, PermittedFault;
    GridHasSessions(env, grid);
    if k == 0 {
      StartSound(env, plan);
      LoggedChronological([], After(env, grid, plan, 0).value.sim.events, env.sessions[0].opens, env.sessions[0].opens, env.sessions[0].opens) by {
        assert Chronological([], env.sessions[0].opens, env.sessions[0].opens) by { EmptyChronological(env.sessions[0].opens); }
      }
    } else {
      HistoryExtends(env, grid, plan, k - 1, k);
      EventsChronological(env, grid, plan, k - 1);
      ReachableSound(env, grid, plan, k - 1);
      TicksFrom(env, grid, k - 1);
      StepSound(env, grid, plan, After(env, grid, plan, k - 1).value, Ticks(env)[k - 1]);
      LoggedChronological(After(env, grid, plan, k - 1).value.sim.events, After(env, grid, plan, k).value.sim.events,
                          env.sessions[0].opens, Now(env, k - 1), Now(env, k));
    }
  }

  lemma EmptyChronological(t: Time)
    ensures Chronological([], t, t)
  {
  }
}
