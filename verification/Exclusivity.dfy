/** One-cancels-other groups and the shared volume of a bar, over whole runs. */
module Exclusivity {
  import opened Common
  import opened Orders
  import opened Costs
  import opened Execution
  import opened Accounting
  import opened Calendars
  import opened Clock
  import opened Strategies
  import opened Engine
  import opened Ledger
  import opened Safety
  import opened Grids
  import opened Runs

  // ----- one cancels the other

  /** As soon as one of the two has a fill, the other is unfilled and terminal. */
  predicate Exclusive(a: SimOrder, b: SimOrder) {
    && (a.filledQuantity > 0 ==> b.filledQuantity == 0 && !b.Active())
    && (b.filledQuantity > 0 ==> a.filledQuantity == 0 && !a.Active())
  }

  ghost predicate PairExclusive(st: Sim, i: nat, j: nat) {
    && i != j && i < |st.orders| && j < |st.orders|
    && SameGroup(st.orders[i], st.orders[j]) && Exclusive(st.orders[i], st.orders[j])
  }

  lemma VisitedExclusive(env: Env, st: Sim, r: Sim, index: nat, base: Option<real>, bar: Bar, now: Time, left: Option<int>, cutoff: Time, i: nat, j: nat)
    requires Sound(env, st) && Sound(env, r) && PairExclusive(st, i, j) && index < |st.orders|
    requires MayFill(st.orders[index], bar, cutoff) && Visited(env, st, r, index, base, bar, now, left)
    ensures PairExclusive(r, i, j)
  {
    hide Sound, Visited, Unfilled, FilledOne, OrderSound, SameGroup, Exclusive;
    VisitedSummary(env, st, r, index, base, bar, now, left);
    if Unfilled(st, r, index) {
      UnfilledExclusive(st, r, index, i, j);
    } else {
      NaturalFills(env, st, i);
      NaturalFills(env, st, j);
      FilledExclusive(st, r, index, bar, now, i, j);
    }
  }

  lemma NaturalFills(env: Env, st: Sim, i: nat)
    requires Sound(env, st) && i < |st.orders|
    ensures st.orders[i].filledQuantity >= 0
  {
    hide Sound, Cumulative;
    SoundOrder(env, st, i);
  }

  lemma UnfilledExclusive(st: Sim, r: Sim, index: nat, i: nat, j: nat)
    requires index < |st.orders| && |r.orders| == |st.orders| && Unfilled(st, r, index) && PairExclusive(st, i, j)
    ensures PairExclusive(r, i, j)
  {
    hide SimOrder.Remaining;
  }

  lemma FilledExclusive(st: Sim, r: Sim, index: nat, bar: Bar, now: Time, i: nat, j: nat)
    requires index < |st.orders| && |r.orders| == |st.orders| && FilledOne(st, r, index, bar, now) && PairExclusive(st, i, j)
    requires st.orders[i].filledQuantity >= 0 && st.orders[j].filledQuantity >= 0
    ensures PairExclusive(r, i, j)
  {
    hide SimOrder.Remaining, Signed;
  }

  /** Between states with the same fills, fills per order are the same and terminal orders stay. */
  lemma SameFillsExclusive(env: Env, st: Sim, r: Sim, i: nat, j: nat)
    requires Sound(env, st) && Sound(env, r) && Extends(st, r) && r.fills == st.fills && PairExclusive(st, i, j)
    ensures PairExclusive(r, i, j)
  {
    hide Cumulative, Replay, FillSound;
    forall x | x == i || x == j
      ensures Carried(st.orders[x], r.orders[x]) && r.orders[x].filledQuantity == st.orders[x].filledQuantity
    {
      assert OrderSound(env, st.fills, st.orders[x], x + 1) && OrderSound(env, r.fills, r.orders[x], x + 1);
    }
  }

  lemma CompleteExclusive<S>(env: Env, grid: Grid, plan: Plan<S>, w: World<S>, b: nat, i: nat, j: nat)
    requires GridSound(env, grid) && WorldSound(env, w) && b < |env.bars| && Complete(env, grid, plan, w, env.bars[b]).Ok?
    requires PairExclusive(w.sim, i, j)
    ensures PairExclusive(Complete(env, grid, plan, w, env.bars[b]).value.sim, i, j)
  {
    hide Healthy, Settled, EvaluateStrategy, Extends, Logged, OnGrid, Sound, PairExclusive, Visited, OnlyLogs;
    var item := env.bars[b];
    var s := BarSession(env, grid, b);
    var cutoff := grid.cutoffs[s.opens];
    var P := (x: Sim) => PairExclusive(x, i, j);
    forall x, y | OnlyLogs(x, y, item.availableAt) && P(x)
      ensures P(y)
    {
      LogsExclusive(x, y, item.availableAt, i, j);
    }
    forall x: Sim, r: Sim, n: nat, base: Option<real>, l {:trigger Visited(env, x, r, n, base, item.bar, item.availableAt, l)} |
      Sound(env, x) && P(x) && n < |x.orders| && MayFill(x.orders[n], item.bar, cutoff)
      && Visited(env, x, r, n, base, item.bar, item.availableAt, l) && Sound(env, r)
      ensures P(r)
    {
      VisitedExclusive(env, x, r, n, base, item.bar, item.availableAt, l, cutoff, i, j);
    }
    HealthySound(env, w.sim);
    SettledKeeps(env, w.sim, item, cutoff, P);
    var settled := Settled(env, w.sim, item, cutoff).value;
    var x :| P(x) && x.book == settled.book && x.orders == settled.orders && x.fills == settled.fills;
    OrdersExclusive(x, settled, i, j);
    EvaluateSound(env, grid, plan, World(settled, w.runtime), b, s, cutoff);
    var r := EvaluateStrategy(env, grid, plan, World(settled, w.runtime), item, s, cutoff).value;
    HealthySound(env, settled);
    HealthySound(env, r.sim);
    SameFillsExclusive(env, settled, r.sim, i, j);
  }

  lemma LogsExclusive(st: Sim, r: Sim, now: Time, i: nat, j: nat)
    requires OnlyLogs(st, r, now) && PairExclusive(st, i, j)
    ensures PairExclusive(r, i, j)
  {
  }

  lemma OrdersExclusive(st: Sim, r: Sim, i: nat, j: nat)
    requires r.orders == st.orders && PairExclusive(st, i, j)
    ensures PairExclusive(r, i, j)
  {
  }

  lemma StepExclusive<S>(env: Env, grid: Grid, plan: Plan<S>, w: World<S>, tick: Tick, i: nat, j: nat)
    requires GridSound(env, grid) && WorldSound(env, w) && Scheduled(env.bars, env.sessions, env.script, tick)
    requires Step(env, grid, plan, w, tick).Ok? && PairExclusive(w.sim, i, j)
    ensures PairExclusive(Step(env, grid, plan, w, tick).value.sim, i, j)
  {
    hide Healthy, Complete, Extends, Logged, OnGrid, PairExclusive, Sound, BarFills;
    StepSound(env, grid, plan, w, tick);
    if tick.kind == BarComplete {
      CompleteExclusive(env, grid, plan, w, tick.index, i, j);
    } else {
      var r := Step(env, grid, plan, w, tick).value;
      HealthySound(env, w.sim);
      HealthySound(env, r.sim);
      SameFillsExclusive(env, w.sim, r.sim, i, j);
    }
  }

  /**
   * OCO exclusivity over whole runs: of two orders of a symbol's group that are both unfilled at some point
   * of the run, at most one ever fills, and from its first fill on the other is terminal without a fill.
   */
  lemma {:induction false} OcoExclusive<S>(env: Env, grid: Grid, plan: Plan<S>, m: nat, k: nat, i: nat, j: nat)
    requires GridSound(env, grid) && m <= k <= |Ticks(env)| && After(env, grid, plan, k).Ok?
    requires After(env, grid, plan, m).Ok? ==>
               var st := After(env, grid, plan, m).value.sim;
               i != j && i < |st.orders| && j < |st.orders| && SameGroup(st.orders[i], st.orders[j])
               && st.orders[i].filledQuantity == 0 && st.orders[j].filledQuantity == 0
    ensures PairExclusive(After(env, grid, plan, k).value.sim, i, j)
    decreases k
  {
    hide WorldSound, Step, Scheduled, PermittedFault, GridSound, Timeline, Extends;
    GridHasSessions(env, grid);
    HistoryExtends(env, grid, plan, m, k);
    if m < k {
      OcoExclusive(env, grid, plan, m, k - 1, i, j);
      ReachableSound(env, grid, plan, k - 1);
      TickScheduled(env, k - 1);
      StepExclusive(env, grid, plan, After(env, grid, plan, k - 1).value, Ticks(env)[k - 1], i, j);
    }
  }

  // ----- shared volume

  function SharesIn(symbol: Symbol, opening: Time): Fill -> int {
    (f: Fill) => if f.symbol == symbol && f.barOpen == opening then f.quantity else 0
  }

  /** Shares filled against one candle by all orders of the symbol. */
  function BarVolume(fills: seq<Fill>, symbol: Symbol, opening: Time): int { SumInt(fills, SharesIn(symbol, opening)) }

  lemma {:induction false} VolumeElsewhere(fills: seq<Fill>, symbol: Symbol, opening: Time)
    requires forall f | f in fills :: f.symbol != symbol || f.barOpen != opening
    ensures BarVolume(fills, symbol, opening) == 0
  {
    if fills != [] {
      VolumeElsewhere(fills[..|fills| - 1], symbol, opening);
    }
  }

  lemma {:induction false} VolumeHere(fills: seq<Fill>, symbol: Symbol, opening: Time)
    requires forall f | f in fills :: f.symbol == symbol && f.barOpen == opening
    ensures BarVolume(fills, symbol, opening) == SumInt(fills, Shares)
  {
    if fills != [] {
      VolumeHere(fills[..|fills| - 1], symbol, opening);
    }
  }

  /** The fill was made by the completion of the candle it names, among the first k ticks. */
  ghost predicate FromCompleted(env: Env, k: nat, f: Fill) {
    exists j | 0 <= j < k && j < |Ticks(env)| ::
      && Ticks(env)[j].kind == BarComplete && Ticks(env)[j].index < |env.bars|
      && Key(env.bars[Ticks(env)[j].index]) == (f.symbol, f.barOpen)
  }

  ghost predicate VolumeKept(env: Env, k: nat, fills: seq<Fill>) {
    && (forall f | f in fills :: FromCompleted(env, k, f))
    && (forall b | 0 <= b < |env.bars| ::
          WithinRate(env.participation, env.bars[b].bar.volume, BarVolume(fills, env.bars[b].bar.symbol, env.bars[b].bar.timestamp)))
  }

  lemma NotYetFilled(env: Env, grid: Grid, k: nat, fills: seq<Fill>)
    requires GridSound(env, grid) && k < |Ticks(env)| && Ticks(env)[k].kind == BarComplete
    requires Scheduled(env.bars, env.sessions, env.script, Ticks(env)[k])
    requires forall f | f in fills :: FromCompleted(env, k, f)
    ensures forall f | f in fills :: Key(env.bars[Ticks(env)[k].index]) != (f.symbol, f.barOpen)
  {
    hide Timeline, OnGrid;
    TimelineExact(env.bars, env.sessions, env.script);
    forall f | f in fills
      ensures Key(env.bars[Ticks(env)[k].index]) != (f.symbol, f.barOpen)
    {
      var j :| 0 <= j < k && Ticks(env)[j].kind == BarComplete && Ticks(env)[j].index < |env.bars|
               && Key(env.bars[Ticks(env)[j].index]) == (f.symbol, f.barOpen);
      assert Ticks(env)[j] in Ticks(env);
      assert Scheduled(env.bars, env.sessions, env.script, Ticks(env)[j]);
      assert Ticks(env)[j] != Ticks(env)[k];
      assert Ticks(env)[j].index != Ticks(env)[k].index;
    }
  }

  lemma VolumeStep(env: Env, grid: Grid, k: nat, st: Sim, r: Sim)
    requires GridSound(env, grid) && k < |Ticks(env)| && Ticks(env)[k].kind == BarComplete
    requires Scheduled(env.bars, env.sessions, env.script, Ticks(env)[k])
    requires VolumeKept(env, k, st.fills) && BarFills(env, st, r, env.bars[Ticks(env)[k].index])
    ensures VolumeKept(env, k + 1, r.fills)
  {
    hide Timeline, OnGrid, WithinRate;
    var item := env.bars[Ticks(env)[k].index];
    var added := r.fills[|st.fills|..];
    assert r.fills == st.fills + added;
    NotYetFilled(env, grid, k, st.fills);
    forall f | f in r.fills
      ensures FromCompleted(env, k + 1, f)
    {
      if f in st.fills {
        assert FromCompleted(env, k, f);
      } else {
        assert f in added;
        assert Key(env.bars[Ticks(env)[k].index]) == (f.symbol, f.barOpen);
      }
    }
    forall b | 0 <= b < |env.bars|
      ensures WithinRate(env.participation, env.bars[b].bar.volume, BarVolume(r.fills, env.bars[b].bar.symbol, env.bars[b].bar.timestamp))
    {
      var symbol, opening := env.bars[b].bar.symbol, env.bars[b].bar.timestamp;
      SumIntConcat(st.fills, added, SharesIn(symbol, opening));
      if Key(env.bars[b]) == Key(item) {
        assert b == Ticks(env)[k].index;
        VolumeElsewhere(st.fills, symbol, opening);
        VolumeHere(added, symbol, opening);
      } else {
        VolumeElsewhere(added, symbol, opening);
      }
    }
  }

  /** In every reachable state, the fills against one candle take at most floor(volume x rate) shares together. */
  lemma {:induction false} VolumeShared<S>(env: Env, grid: Grid, plan: Plan<S>, k: nat)
    requires GridSound(env, grid) && k <= |Ticks(env)| && After(env, grid, plan, k).Ok?
    ensures VolumeKept(env, k, After(env, grid, plan, k).value.sim.fills)
  {
    hide WorldSound, Step, PermittedFault, GridSound, Timeline, Extends, Scheduled, BarFills, VolumeKept;
    GridHasSessions(env, grid);
    if k == 0 {
      StartSound(env, plan);
      NoVolume(env);
    } else {
      HistoryExtends(env, grid, plan, k - 1, k);
      VolumeShared(env, grid, plan, k - 1);
      ReachableSound(env, grid, plan, k - 1);
      TickScheduled(env, k - 1);
      var before, after := After(env, grid, plan, k - 1).value, After(env, grid, plan, k).value;
      StepSound(env, grid, plan, before, Ticks(env)[k - 1]);
      if Ticks(env)[k - 1].kind == BarComplete {
        VolumeStep(env, grid, k - 1, before.sim, after.sim);
      } else {
        VolumeLater(env, k - 1, before.sim.fills);
      }
    }
  }

  lemma NoneWithin(rate: Option<Rate>, volume: nat)
    ensures WithinRate(rate, volume, 0)
  {
    if rate.Some? {
      assert volume as real * rate.value >= 0.0;
    }
  }

  lemma NoVolume(env: Env)
    ensures VolumeKept(env, 0, [])
  {
    forall b | 0 <= b < |env.bars|
      ensures WithinRate(env.participation, env.bars[b].bar.volume, BarVolume([], env.bars[b].bar.symbol, env.bars[b].bar.timestamp))
    {
      NoneWithin(env.participation, env.bars[b].bar.volume);
    }
  }

  lemma VolumeLater(env: Env, k: nat, fills: seq<Fill>)
    requires VolumeKept(env, k, fills)
    ensures VolumeKept(env, k + 1, fills)
  {
    hide Timeline;
    forall f | f in fills
      ensures FromCompleted(env, k + 1, f)
    {
      assert FromCompleted(env, k, f);
    }
  }
}
