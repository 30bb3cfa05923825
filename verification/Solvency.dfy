/** When cash stays non-negative: the exact condition fill by fill, and conditions on the cost model alone. */
module Solvency {
  import opened Common
  import opened Rounding
  import opened Orders
  import opened Costs
  import opened CostBounds
  import opened Execution
  import opened Accounting
  import opened Trades
  import opened Calendars
  import opened Clock
  import opened FeatureRows
  import opened Strategies
  import opened Engine
  import opened Ledger
  import opened Safety
  import opened Grids
  import opened Runs
  import opened Reconciliation

  // ----- the exact condition

  lemma FillCash(release: Release, book: Book, fill: Fill)
    requires Apply(release, book, fill).Ok?
    ensures Apply(release, book, fill).value.cash
            == (if fill.side == Buy then book.cash - Value(fill.quantity, fill.price) else book.cash + Value(fill.quantity, fill.price))
               - fill.costs.Total()
  {
    hide Value, CostBreakdown.Total, CostBreakdown.Plus, Quotient;
  }

  /** A sale leaves non-negative cash exactly when its charges are covered by the cash and its proceeds. */
  lemma SaleCashExact(release: Release, book: Book, fill: Fill)
    requires WellKept(book) && fill.side == Sell && 0 < fill.quantity <= book.Held(fill.symbol)
    ensures Apply(release, book, fill).Ok?
    ensures Apply(release, book, fill).value.cash >= 0.0 <==> fill.costs.Total() <= book.cash + Value(fill.quantity, fill.price)
  {
    hide Apply, Value, CostBreakdown.Total;
    ApplySucceeds(release, book, fill);
    FillCash(release, book, fill);
  }

  /** The cash after the first n fills. */
  function CashAfter(release: Release, capital: real, fills: seq<Fill>, n: nat): real
    requires n <= |fills|
  {
    match Replay(release, capital, fills[..n])
    case Ok(book) => book.cash
    case Err(_) => 0.0
  }

  /** Fill n is a purchase, or a sale whose charges the cash before it and its proceeds cover. */
  ghost predicate Covers(release: Release, capital: real, fills: seq<Fill>, n: nat)
    requires n < |fills|
  {
    fills[n].side == Sell ==>
      fills[n].costs.Total() <= CashAfter(release, capital, fills, n) + Value(fills[n].quantity, fills[n].price)
  }

  lemma CashStep(release: Release, capital: real, fills: seq<Fill>, n: nat)
    requires Positive(fills) && Replay(release, capital, fills).Ok? && n < |fills|
    ensures CashAfter(release, capital, fills, n + 1) >= 0.0 <==> Covers(release, capital, fills, n)
    ensures fills[n].side == Sell ==>
              CashAfter(release, capital, fills, n + 1)
              == CashAfter(release, capital, fills, n) + Value(fills[n].quantity, fills[n].price) - fills[n].costs.Total()
  {
    hide Replay, Apply, Value, CostBreakdown.Total;
    ReplayPrefix(release, capital, fills, n);
    ReplayPrefix(release, capital, fills, n + 1);
    assert fills[..n + 1] == fills[..n] + [fills[n]];
    ReplayPush(release, capital, fills[..n], Replay(release, capital, fills[..n]).value, fills[n]);
    FillCash(release, Replay(release, capital, fills[..n]).value, fills[n]);
  }

  /** Over any bookable fills: cash never goes negative if and only if every sale is covered. */
  lemma CashExact(release: Release, capital: real, fills: seq<Fill>)
    requires Positive(fills) && Replay(release, capital, fills).Ok? && capital >= 0.0
    ensures (forall n: nat | n <= |fills| :: CashAfter(release, capital, fills, n) >= 0.0)
            <==> (forall n: nat | n < |fills| :: Covers(release, capital, fills, n))
  {
    hide Covers, CashAfter;
    assert CashAfter(release, capital, fills, 0) == capital by { CashAtFirst(release, capital, fills); }
    forall n: nat | n < |fills|
      ensures CashAfter(release, capital, fills, n + 1) >= 0.0 <==> Covers(release, capital, fills, n)
    {
      CashStep(release, capital, fills, n);
    }
    if forall n: nat | n < |fills| :: Covers(release, capital, fills, n) {
      forall n: nat | n <= |fills|
        ensures CashAfter(release, capital, fills, n) >= 0.0
      {
        if n > 0 {
          assert Covers(release, capital, fills, n - 1);
        }
      }
    }
    if forall n: nat | n <= |fills| :: CashAfter(release, capital, fills, n) >= 0.0 {
      forall n: nat | n < |fills|
        ensures Covers(release, capital, fills, n)
      {
        assert CashAfter(release, capital, fills, n + 1) >= 0.0;
      }
    }
  }

  lemma CashAtFirst(release: Release, capital: real, fills: seq<Fill>)
    ensures CashAfter(release, capital, fills, 0) == capital
  {
    assert fills[..0] == [];
  }

  /** In every reachable state: no point of the history has negative cash if and only if every sale in it is covered. */
  lemma SolventExactly<S>(env: Env, grid: Grid, plan: Plan<S>, k: nat)
    requires GridSound(env, grid) && k <= |Ticks(env)| && After(env, grid, plan, k).Ok?
    ensures var fills := After(env, grid, plan, k).value.sim.fills;
            (forall n: nat | n <= |fills| :: CashAfter(env.release, env.capital, fills, n) >= 0.0)
            <==> (forall n: nat | n < |fills| :: Covers(env.release, env.capital, fills, n))
  {
    hide After, Ticks, GridSound, WorldSound, Healthy, Adverse, Replay, Positive, Covers, CashAfter;
    GridHasSessions(env, grid);
    ReachableSound(env, grid, plan, k);
    var w := After(env, grid, plan, k).value;
    Flattening.WorldHealthy(env, w);
    HealthySound(env, w.sim);
    BooksReplayed(env, w.sim);
    SoundPositive(env, w.sim);
    CashExact(env.release, env.capital, w.sim.fills);
  }

  // ----- every fill pays one step of its order's cumulative charge

  /** Just before and just after fill j, its order's charges are one cumulative charge. */
  ghost predicate ChargedAt(env: Env, orders: seq<SimOrder>, fills: seq<Fill>, j: nat)
    requires j < |fills|
  {
    var id := fills[j].orderId;
    && 1 <= id <= |orders|
    && var o := orders[id - 1];
       && fills[j].side == o.intent.side && Sum(fills[..j], ValueFor(id)) >= 0.0
       && Cumulative(env.costs, o.intent.side, Sum(fills[..j], ValueFor(id)), o.forced) == Ok(CostsFor(fills[..j], id))
       && Cumulative(env.costs, o.intent.side, Sum(fills[..j + 1], ValueFor(id)), o.forced) == Ok(CostsFor(fills[..j + 1], id))
  }

  ghost predicate AllCharged(env: Env, st: Sim) {
    forall j: nat | j < |st.fills| :: ChargedAt(env, st.orders, st.fills, j)
  }

  lemma ChargedFrame(env: Env, orders: seq<SimOrder>, fills: seq<Fill>, later: seq<SimOrder>, more: seq<Fill>, j: nat)
    requires j < |fills| <= |more| && more[..|fills|] == fills && ChargedAt(env, orders, fills, j) && |orders| <= |later|
    requires forall i | 0 <= i < |orders| :: later[i].intent == orders[i].intent && later[i].forced == orders[i].forced
    ensures ChargedAt(env, later, more, j)
  {
    hide Cumulative, Sum, CostsFor;
    assert more[j] == more[..|fills|][j];
    assert more[..j] == fills[..j] && more[..j + 1] == fills[..j + 1];
  }

  lemma ChargedKept(env: Env, st: Sim, r: Sim)
    requires AllCharged(env, st) && r.fills == st.fills && |st.orders| <= |r.orders|
    requires forall i | 0 <= i < |st.orders| :: r.orders[i].intent == st.orders[i].intent && r.orders[i].forced == st.orders[i].forced
    ensures AllCharged(env, r)
  {
    hide ChargedAt;
    forall j: nat | j < |r.fills|
      ensures ChargedAt(env, r.orders, r.fills, j)
    {
      assert st.fills[..|st.fills|] == st.fills;
      ChargedFrame(env, st.orders, st.fills, r.orders, r.fills, j);
    }
  }

  lemma VisitedCharged(env: Env, st: Sim, r: Sim, index: nat, base: Option<real>, bar: Bar, now: Time, left: Option<int>)
    requires Sound(env, st) && Sound(env, r) && AllCharged(env, st) && index < |st.orders| && st.orders[index].intent.symbol == bar.symbol
    requires Visited(env, st, r, index, base, bar, now, left)
    ensures AllCharged(env, r)
  {
    hide Sound, Visited, ChargedAt, AllCharged, Unfilled, FilledOne;
    VisitedSummary(env, st, r, index, base, bar, now, left);
    VisitedSame(st, r, index, bar, now);
    if Unfilled(st, r, index) {
      UnfilledSame(st, r, index);
      ChargedKept(env, st, r);
    } else {
      FilledCharged(env, st, r, index, bar, now);
    }
  }

  lemma VisitedSame(st: Sim, r: Sim, index: nat, bar: Bar, now: Time)
    requires index < |st.orders| && |r.orders| == |st.orders| && (Unfilled(st, r, index) || FilledOne(st, r, index, bar, now))
    ensures forall i | 0 <= i < |st.orders| :: r.orders[i].intent == st.orders[i].intent && r.orders[i].forced == st.orders[i].forced
  {
    hide Signed, SimOrder.Active, SimOrder.Remaining;
  }

  lemma UnfilledSame(st: Sim, r: Sim, index: nat)
    requires index < |st.orders| && |r.orders| == |st.orders| && Unfilled(st, r, index)
    ensures r.fills == st.fills
  {
  }

  lemma FilledCharged(env: Env, st: Sim, r: Sim, index: nat, bar: Bar, now: Time)
    requires Sound(env, st) && Sound(env, r) && AllCharged(env, st) && index < |st.orders| && |r.orders| == |st.orders|
    requires forall i | 0 <= i < |st.orders| :: r.orders[i].intent == st.orders[i].intent && r.orders[i].forced == st.orders[i].forced
    requires FilledOne(st, r, index, bar, now)
    ensures AllCharged(env, r)
  {
    hide Sound, ChargedAt, FilledOne, OrderSound;
    var n := |st.fills|;
    FilledFacts(st, r, index, bar, now);
    forall j: nat | j < |r.fills|
      ensures ChargedAt(env, r.orders, r.fills, j)
    {
      if j < n {
        assert ChargedAt(env, st.orders, st.fills, j);
        ChargedFrame(env, st.orders, st.fills, r.orders, r.fills, j);
      } else {
        SoundOrder(env, st, index);
        SoundOrder(env, r, index);
        LastCharged(env, st, r, index);
      }
    }
  }

  lemma FilledFacts(st: Sim, r: Sim, index: nat, bar: Bar, now: Time)
    requires index < |st.orders| && |r.orders| == |st.orders| && FilledOne(st, r, index, bar, now)
    ensures |r.fills| == |st.fills| + 1 && r.fills[..|st.fills|] == st.fills
    ensures r.fills[|st.fills|].orderId == st.orders[index].orderId && r.fills[|st.fills|].side == st.orders[index].intent.side
  {
  }

  lemma LastCharged(env: Env, st: Sim, r: Sim, index: nat)
    requires index < |st.orders| == |r.orders| && r.orders[index].intent == st.orders[index].intent && r.orders[index].forced == st.orders[index].forced
    requires |r.fills| == |st.fills| + 1 && r.fills[..|st.fills|] == st.fills
    requires r.fills[|st.fills|].orderId == st.orders[index].orderId && r.fills[|st.fills|].side == st.orders[index].intent.side
    requires OrderSound(env, st.fills, st.orders[index], index + 1) && OrderSound(env, r.fills, r.orders[index], index + 1)
    ensures ChargedAt(env, r.orders, r.fills, |st.fills|)
  {
    hide Cumulative, Sum, SumInt, CostsFor, SimOrder.EverTriggered;
    assert r.fills[..|st.fills| + 1] == r.fills;
  }

  lemma CompleteCharged<S>(env: Env, grid: Grid, plan: Plan<S>, w: World<S>, b: nat)
    requires GridSound(env, grid) && WorldSound(env, w) && b < |env.bars| && Engine.Complete(env, grid, plan, w, env.bars[b]).Ok?
    requires AllCharged(env, w.sim)
    ensures AllCharged(env, Engine.Complete(env, grid, plan, w, env.bars[b]).value.sim)
  {
    hide Healthy, Settled, EvaluateStrategy, Extends, Logged, OnGrid, Sound, AllCharged, Visited, BarFills, InTile, GridSound;
    var item := env.bars[b];
    var s := BarSession(env, grid, b);
    CutoffThere(grid, s);
    var cutoff := grid.cutoffs[s.opens];
    var P := (x: Sim) => AllCharged(env, x);
    forall x, y | OnlyLogs(x, y, item.availableAt) && P(x)
      ensures P(y)
    {
      ChargedKept(env, x, y);
    }
    forall x: Sim, r: Sim, n: nat, base: Option<real>, l {:trigger Visited(env, x, r, n, base, item.bar, item.availableAt, l)} |
      Sound(env, x) && P(x) && n < |x.orders| && MayFill(x.orders[n], item.bar, cutoff)
      && Visited(env, x, r, n, base, item.bar, item.availableAt, l) && Sound(env, r)
      ensures P(r)
    {
      VisitedCharged(env, x, r, n, base, item.bar, item.availableAt, l);
    }
    SettledKeeps(env, w.sim, item, cutoff, P);
    var settled := Settled(env, w.sim, item, cutoff).value;
    var x :| P(x) && x.book == settled.book && x.orders == settled.orders && x.fills == settled.fills;
    ChargedKept(env, x, settled);
    EvaluateSound(env, grid, plan, World(settled, w.runtime), b, s, cutoff);
    var r := EvaluateStrategy(env, grid, plan, World(settled, w.runtime), item, s, cutoff).value;
    ExtendedSame(settled, r.sim);
    ChargedKept(env, settled, r.sim);
  }

  lemma CutoffThere(grid: Grid, s: Session)
    requires SessionGrid(grid, s)
    ensures s.opens in grid.cutoffs
  {
  }

  lemma ExtendedSame(st: Sim, r: Sim)
    requires Extends(st, r)
    ensures |st.orders| <= |r.orders|
    ensures forall i | 0 <= i < |st.orders| :: r.orders[i].intent == st.orders[i].intent && r.orders[i].forced == st.orders[i].forced
  {
    hide SimOrder.Active, SimOrder.EverTriggered;
    forall i | 0 <= i < |st.orders|
      ensures r.orders[i].intent == st.orders[i].intent && r.orders[i].forced == st.orders[i].forced
    {
      assert Carried(st.orders[i], r.orders[i]);
    }
  }

  lemma StepCharged<S>(env: Env, grid: Grid, plan: Plan<S>, w: World<S>, tick: Tick)
    requires GridSound(env, grid) && WorldSound(env, w) && Scheduled(env.bars, env.sessions, env.script, tick)
    requires Step(env, grid, plan, w, tick).Ok? && AllCharged(env, w.sim)
    ensures AllCharged(env, Step(env, grid, plan, w, tick).value.sim)
  {
    hide WorldSound, Engine.Complete, Extends, Logged, GridSound, AllCharged, BarFills;
    StepSound(env, grid, plan, w, tick);
    if tick.kind == BarComplete {
      CompleteCharged(env, grid, plan, w, tick.index);
    } else {
      var r := Step(env, grid, plan, w, tick).value;
      ExtendedSame(w.sim, r.sim);
      ChargedKept(env, w.sim, r.sim);
    }
  }

  lemma {:induction false} ReachableCharged<S>(env: Env, grid: Grid, plan: Plan<S>, k: nat)
    requires GridSound(env, grid) && k <= |Ticks(env)| && After(env, grid, plan, k).Ok?
    ensures AllCharged(env, After(env, grid, plan, k).value.sim)
  {
    hide WorldSound, Step, Scheduled, GridSound, Timeline, Ticks, AllCharged, After, Start;
    GridHasSessions(env, grid);
    if k == 0 {
      AfterNone(env, grid, plan);
      StartSound(env, plan);
      NothingCharged(env, Start(env, plan).value.sim);
    } else {
      Stepped(env, grid, plan, k);
      ReachableCharged(env, grid, plan, k - 1);
      ReachableSound(env, grid, plan, k - 1);
      TickScheduled(env, k - 1);
      StepCharged(env, grid, plan, After(env, grid, plan, k - 1).value, Ticks(env)[k - 1]);
    }
  }

  lemma NothingCharged(env: Env, st: Sim)
    requires st.fills == []
    ensures AllCharged(env, st)
  {
  }

  /** The charges of fill j are what its value adds to the cumulative charge of its order. */
  lemma ChargeIsStep(env: Env, st: Sim, j: nat) returns (from: real, forced: bool)
    requires AllCharged(env, st) && j < |st.fills|
    ensures var f := st.fills[j];
            && from >= 0.0
            && f.costs.Total() == ChargeTotal(env.costs, f.side, from + Value(f.quantity, f.price), forced) - ChargeTotal(env.costs, f.side, from, forced)
  {
    hide Cumulative, Sum, CostsFor, Value, CostBreakdown.Plus, CostBreakdown.Total;
    assert ChargedAt(env, st.orders, st.fills, j);
    var f := st.fills[j];
    var id := f.orderId;
    from, forced := Sum(st.fills[..j], ValueFor(id)), st.orders[id - 1].forced;
    assert st.fills[..j + 1] == st.fills[..j] + [f];
    SumPush(st.fills[..j], f, ValueFor(id));
    CostsForPush(st.fills[..j], f, id);
    PlusTotal(CostsFor(st.fills[..j], id), f.costs);
  }

  // ----- checks before the run

  lemma {:induction false} SolventUpTo(release: Release, capital: real, fills: seq<Fill>, n: nat)
    requires Positive(fills) && Replay(release, capital, fills).Ok? && capital >= 0.0 && n <= |fills|
    requires forall j | 0 <= j < |fills| && fills[j].side == Sell :: fills[j].costs.Total() <= Value(fills[j].quantity, fills[j].price)
    ensures CashAfter(release, capital, fills, n) >= 0.0
  {
    hide Replay, Value, CostBreakdown.Total, CashAfter;
    if n == 0 {
      CashAtFirst(release, capital, fills);
    } else {
      SolventUpTo(release, capital, fills, n - 1);
      CashStep(release, capital, fills, n - 1);
    }
  }

  /**
   * A check before the run: if the cost model covers sales of some least value, then no run in which every sale reaches that
   * value ever has negative cash.
   */
  lemma CoveredRunsSolvent<S>(env: Env, grid: Grid, plan: Plan<S>, k: nat, least: real)
    requires GridSound(env, grid) && k <= |Ticks(env)| && After(env, grid, plan, k).Ok? && SalesCovered(env.costs, least)
    requires var fills := After(env, grid, plan, k).value.sim.fills;
             forall j | 0 <= j < |fills| && fills[j].side == Sell :: Value(fills[j].quantity, fills[j].price) >= least
    ensures var st := After(env, grid, plan, k).value.sim;
            && st.book.cash >= 0.0
            && forall n: nat | n <= |st.fills| :: CashAfter(env.release, env.capital, st.fills, n) >= 0.0
  {
    hide After, Ticks, GridSound, WorldSound, Healthy, Adverse, Replay, Positive, Value, AllCharged, ChargeTotal, CostBreakdown.Total, SalesCovered;
    GridHasSessions(env, grid);
    ReachableSound(env, grid, plan, k);
    ReachableCharged(env, grid, plan, k);
    var w := After(env, grid, plan, k).value;
    var fills := w.sim.fills;
    Flattening.WorldHealthy(env, w);
    HealthySound(env, w.sim);
    BooksReplayed(env, w.sim);
    SoundPositive(env, w.sim);
    forall j: nat | j < |fills| && fills[j].side == Sell
      ensures fills[j].costs.Total() <= Value(fills[j].quantity, fills[j].price)
    {
      var from, forced := ChargeIsStep(env, w.sim, j);
      CoveredStep(env.costs, least, from, Value(fills[j].quantity, fills[j].price), forced);
    }
    forall n: nat | n <= |fills|
      ensures CashAfter(env.release, env.capital, fills, n) >= 0.0
    {
      SolventUpTo(env.release, env.capital, fills, n);
    }
    assert fills[..|fills|] == fills;
    assert CashAfter(env.release, env.capital, fills, |fills|) >= 0.0;
  }

  /** Without costs every sale is covered, so no reachable state has negative cash. */
  lemma ZeroCostsSolvent<S>(env: Env, grid: Grid, plan: Plan<S>, k: nat)
    requires GridSound(env, grid) && k <= |Ticks(env)| && After(env, grid, plan, k).Ok? && env.costs == ZeroCosts
    ensures After(env, grid, plan, k).value.sim.book.cash >= 0.0
  {
    hide After, Ticks, GridSound, WorldSound, Healthy, Value, SalesCovered;
    ZeroCovered();
    GridHasSessions(env, grid);
    ReachableSound(env, grid, plan, k);
    var w := After(env, grid, plan, k).value;
    Flattening.WorldHealthy(env, w);
    HealthySound(env, w.sim);
    forall j | 0 <= j < |w.sim.fills|
      ensures Value(w.sim.fills[j].quantity, w.sim.fills[j].price) >= 0.0
    {
      FillValue(env, w.sim, j);
    }
    CoveredRunsSolvent(env, grid, plan, k, 0.0);
  }

  lemma FillValue(env: Env, st: Sim, j: nat)
    requires Sound(env, st) && j < |st.fills|
    ensures Value(st.fills[j].quantity, st.fills[j].price) >= 0.0
  {
    hide Replay, OrderSound, Adverse, Value;
    assert FillSound(st.orders, st.fills[j]);
    ValueMonotone(0, st.fills[j].quantity, st.fills[j].price);
  }
}
