/** From the cutoff to the close: only liquidations fill, and with enough volume the close always finds nothing held. */
module Closing {
  import Reconciliation
  import opened Common
  import opened Orders
  import opened Costs
  import opened Execution
  import opened Accounting
  import opened Trades
  import opened Calendars
  import opened Clock
  import opened FeatureRows
  import opened Strategies
  import opened Baseline
  import opened Engine
  import opened Ledger
  import opened Safety
  import opened Grids
  import opened Runs
  import opened Timing
  import opened Flattening
  import opened Exclusivity
  import opened Liquidity
  import opened BaselineRuns

  // ----- the cutoff bar of every symbol

  /** Bar c is its symbol's cutoff bar in this session. */
  ghost predicate CutoffBarOf(env: Env, grid: Grid, c: nat, s: Session) {
    && c < |env.bars| && SessionAt(env.sessions, env.bars[c].bar.timestamp) == Some(s)
    && s.opens in grid.cutoffs && env.bars[c].bar.timestamp == grid.cutoffs[s.opens]
  }

  /** Every symbol has a cutoff bar in every session. */
  ghost predicate CutoffBars(env: Env, grid: Grid) {
    forall y, s | y in env.symbols && s in env.sessions :: HasCutoffBar(env, grid, y, s)
  }

  ghost predicate HasCutoffBar(env: Env, grid: Grid, y: Symbol, s: Session) {
    exists c: nat :: CutoffBarOf(env, grid, c, s) && env.bars[c].bar.symbol == y
  }

  lemma {:induction false} ActualListed(bars: seq<SnapshotBar>, key: (Symbol, Time))
    requires key in ActualSlots(bars)
    ensures exists c: nat :: c < |bars| && Key(bars[c]) == key
  {
    var n := |bars| - 1;
    if Key(bars[n]) != key {
      ActualListed(bars[..n], key);
      var c: nat :| c < n && Key(bars[..n][c]) == key;
      assert Key(bars[c]) == key;
    }
  }

  lemma {:induction false} SymbolSlotsComplete(symbol: Symbol, slots: seq<Slot>, slot: Slot)
    requires slot in slots
    ensures (symbol, slot.opening) in SymbolSlots(symbol, slots)
  {
    var n := |slots| - 1;
    if slots[n] != slot {
      assert slots == slots[..n] + [slots[n]];
      SymbolSlotsComplete(symbol, slots[..n], slot);
    }
  }

  lemma {:induction false} RequiredComplete(symbols: seq<Symbol>, slots: seq<Slot>, y: Symbol, slot: Slot)
    requires y in symbols && slot in slots
    ensures (y, slot.opening) in RequiredSlots(symbols, slots)
  {
    var n := |symbols| - 1;
    if symbols[n] == y {
      SymbolSlotsComplete(y, slots, slot);
    } else {
      assert symbols == symbols[..n] + [symbols[n]];
      RequiredComplete(symbols[..n], slots, y, slot);
    }
  }

  /** Validation demands a candle for every symbol and slot, so every cutoff has its bars. */
  lemma ValidateComplete(env: Env)
    requires Separated(env.sessions) && Validate(env).Ok?
    ensures CutoffBars(env, Validate(env).value)
  {
    hide Validate, ExpectedSlots, ActualSlots, RequiredSlots, GridOf, SessionOpenings, CutoffOf, ScriptFault, Ascending, Gridded, HasCutoffBar;
    var grid, slots := Validate(env).value, ExpectedSlots(env.sessions, env.start, env.end, env.timeframe);
    ValidateParts(env);
    SlotsFacts(env);
    GridOfExact(env.sessions, slots, env.exitBefore);
    forall y, s | y in env.symbols && s in env.sessions
      ensures HasCutoffBar(env, grid, y, s)
    {
      CutoffSlot(grid, s, slots, env.exitBefore);
      var slot :| slot in slots && slot.opening == grid.cutoffs[s.opens] && s.opens <= slot.opening < s.closes;
      RequiredComplete(env.symbols, slots, y, slot);
      ActualListed(env.bars, (y, slot.opening));
      var c: nat :| c < |env.bars| && Key(env.bars[c]) == (y, slot.opening);
      SessionAtExact(env.sessions, slot.opening);
      HasOne(env, grid, y, s, c);
    }
  }

  lemma HasOne(env: Env, grid: Grid, y: Symbol, s: Session, c: nat)
    requires CutoffBarOf(env, grid, c, s) && env.bars[c].bar.symbol == y
    ensures HasCutoffBar(env, grid, y, s)
  {
  }

  lemma CutoffSlot(grid: Grid, s: Session, slots: seq<Slot>, exitBefore: Time)
    requires Ascending(slots) && (forall slot | slot in slots :: slot.opening < slot.closing) && Gridded(grid, s, slots, exitBefore)
    ensures s.opens in grid.cutoffs
    ensures exists slot :: slot in slots && slot.opening == grid.cutoffs[s.opens] && s.opens <= slot.opening < s.closes
  {
    hide SessionOpenings, CutoffOf, Strict, Ascending;
    OpeningsExact(slots, s);
    CutoffExact(SessionOpenings(slots, s), s.closes - exitBefore);
    assert OpensAt(slots, grid.cutoffs[s.opens]);
  }

  // ----- only held symbols of the run

  lemma {:induction false} HeldHasFill(release: Release, capital: real, fills: seq<Fill>, y: Symbol)
    requires Positive(fills) && Replay(release, capital, fills).Ok? && forall f | f in fills :: f.symbol != y
    ensures Replay(release, capital, fills).value.PositionOf(y) == NO_POSITION
  {
    if fills != [] {
      hide Apply, WellKept;
      var n := |fills| - 1;
      HeldHasFill(release, capital, fills[..n], y);
      ReplayKept(release, capital, fills[..n]);
      ApplySucceeds(release, Replay(release, capital, fills[..n]).value, fills[n]);
    }
  }

  /** What is held is held of a symbol of the run. */
  lemma HeldListed<S>(env: Env, grid: Grid, plan: Plan<S>, k: nat, y: Symbol)
    requires GridSound(env, grid) && k <= |Ticks(env)| && After(env, grid, plan, k).Ok?
    requires After(env, grid, plan, k).value.sim.book.Held(y) != 0
    ensures y in env.symbols
  {
    hide After, Ticks, WorldSound, Healthy, Adverse, Replay, Positive, VolumeKept, OnGrid;
    GridHasSessions(env, grid);
    ReachableSound(env, grid, plan, k);
    VolumeShared(env, grid, plan, k);
    var st := After(env, grid, plan, k).value.sim;
    WorldHealthy(env, After(env, grid, plan, k).value);
    HealthySound(env, st);
    Reconciliation.BooksReplayed(env, st);
    SoundPositive(env, st);
    if forall f | f in st.fills :: f.symbol != y {
      HeldHasFill(env.release, env.capital, st.fills, y);
    }
    var f :| f in st.fills && f.symbol == y;
    FillListed(env, k, st.fills, f);
  }

  lemma FillListed(env: Env, k: nat, fills: seq<Fill>, f: Fill)
    requires VolumeKept(env, k, fills) && f in fills
    requires forall i | 0 <= i < |env.bars| :: env.bars[i].bar.symbol in env.symbols
    ensures f.symbol in env.symbols
  {
    hide Timeline;
    assert FromCompleted(env, k, f);
  }

  // ----- emptied at the cutoff bar, and empty from then on

  /** Every symbol whose cutoff bar has completed in a live session is flat. */
  ghost predicate Emptied(env: Env, grid: Grid, k: nat, st: Sim)
    requires k <= |Ticks(env)|
  {
    forall c: nat, s | CutoffBarOf(env, grid, c, s) && CompletedBy(env, k, c) && Live(env, k, s) :: st.book.Held(env.bars[c].bar.symbol) == 0
  }

  /** When a cutoff bar completes, its volume share covers what is then held. */
  ghost predicate CapsCover<S>(env: Env, grid: Grid, plan: Plan<S>, k: nat)
    requires env.sessions != [] && k <= |Ticks(env)|
  {
    forall j, c: nat, s | 0 <= j < k && CutoffBarOf(env, grid, c, s) && Ticks(env)[j] == Tick(env.bars[c].availableAt, BarComplete, c)
                     && After(env, grid, plan, j).Ok? && Capacity(env, env.bars[c].bar).Some? ::
      Capacity(env, env.bars[c].bar).value >= After(env, grid, plan, j).value.sim.book.Held(env.bars[c].bar.symbol)
  }

  lemma LiveBefore(env: Env, k: nat, s: Session)
    requires k < |Ticks(env)| && Live(env, k + 1, s)
    ensures Live(env, k, s)
  {
    hide Ticks;
  }

  lemma CompletedNow(env: Env, k: nat, c: nat)
    requires k < |Ticks(env)| && CompletedBy(env, k + 1, c)
    ensures CompletedBy(env, k, c) || Ticks(env)[k] == Tick(env.bars[c].availableAt, BarComplete, c)
  {
    hide Ticks;
  }

  /** A tick that books nothing keeps it. */
  lemma EmptiedKept(env: Env, grid: Grid, k: nat, st: Sim, r: Sim)
    requires k < |Ticks(env)| && Emptied(env, grid, k, st) && r.book == st.book && Ticks(env)[k].kind != BarComplete
    ensures Emptied(env, grid, k + 1, r)
  {
    hide Ticks, Live, CompletedBy;
    forall c: nat, s | CutoffBarOf(env, grid, c, s) && CompletedBy(env, k + 1, c) && Live(env, k + 1, s)
      ensures r.book.Held(env.bars[c].bar.symbol) == 0
    {
      LiveBefore(env, k, s);
      CompletedNow(env, k, c);
      CutoffBarListed(env, grid, c, s);
    }
  }

  lemma CutoffBarListed(env: Env, grid: Grid, c: nat, s: Session)
    requires CutoffBarOf(env, grid, c, s)
    ensures c < |env.bars|
  {
  }

  /** A bar that completes after its symbol's cutoff bar did, in the same live session, leaves the symbol flat. */
  lemma LaterCompletion(env: Env, grid: Grid, k: nat, c: nat, s: Session, d: nat, st: Sim)
    requires GridSound(env, grid) && k < |Ticks(env)| && d < |env.bars| && Ticks(env)[k] == Tick(env.bars[d].availableAt, BarComplete, d)
    requires CutoffBarOf(env, grid, c, s) && CompletedBy(env, k, c) && Live(env, k, s) && env.bars[d].bar.symbol == env.bars[c].bar.symbol
    requires Healthy(env, st) && InCharge(env, grid, k, st) && st.book.Held(env.bars[c].bar.symbol) == 0
    ensures SessionAt(env.sessions, env.bars[d].bar.timestamp) == Some(s)
    ensures var r := Settled(env, st, env.bars[d], grid.cutoffs[s.opens]); r.Ok? ==> r.value.book.Held(env.bars[d].bar.symbol) == 0
  {
    hide Timeline, Ticks, Healthy, Execute, Sound, InCharge, GridSound, Mark, Extends, Logged, Live, CompletedBy;
    GridHasSessions(env, grid);
    SameSession(env, grid, k, c, s, d);
    var item := env.bars[d];
    var told := Emit(st, item.availableAt, BarCompleted(item.bar.symbol, item.bar.timestamp));
    SameOrdersInCharge(env, grid, k, st, told);
    EmitKeeps(env, st, item.availableAt, BarCompleted(item.bar.symbol, item.bar.timestamp));
    HealthySound(env, told);
    FlatStaysFlat(env, grid, k, d, s, told);
  }

  lemma SameSession(env: Env, grid: Grid, k: nat, c: nat, s: Session, d: nat)
    requires GridSound(env, grid) && k < |Ticks(env)| && d < |env.bars| && Ticks(env)[k] == Tick(env.bars[d].availableAt, BarComplete, d)
    requires CutoffBarOf(env, grid, c, s) && CompletedBy(env, k, c) && Live(env, k, s) && env.bars[d].bar.symbol == env.bars[c].bar.symbol
    ensures SessionAt(env.sessions, env.bars[d].bar.timestamp) == Some(s) && env.bars[d].bar.timestamp >= grid.cutoffs[s.opens]
  {
    hide Timeline, Live, OnGrid;
    TicksFrom(env, grid, k);
    var own := BarSession(env, grid, d);
    var cs := BarSession(env, grid, c);
    var j :| 0 <= j < k && Ticks(env)[j] == Tick(env.bars[c].availableAt, BarComplete, c);
    TicksFrom(env, grid, j);
    assert Before(Ticks(env)[j], Ticks(env)[k]);
    LiveIsCurrent(env, grid, k, s, own);
    var open := Tick(env.bars[c].bar.timestamp, BarOpen, c);
    assert Scheduled(env.bars, env.sessions, env.script, open) && Earlier(open, Ticks(env)[k]);
    var i :| 0 <= i < k && Ticks(env)[i] == open;
    assert OpenedAt(env, k, env.bars[c].bar.symbol, env.bars[c].bar.timestamp);
    assert PastCutoff(env, grid, k, c);
    CompletesAfterCutoff(env, grid, k, c, d, own);
  }

  lemma CompleteEmptied<S>(env: Env, grid: Grid, plan: Plan<S>, k: nat, d: nat, w: World<S>)
    requires GridSound(env, grid) && k < |Ticks(env)| && d < |env.bars| && Ticks(env)[k] == Tick(env.bars[d].availableAt, BarComplete, d)
    requires WorldSound(env, w) && InCharge(env, grid, k, w.sim) && Step(env, grid, plan, w, Ticks(env)[k]).Ok?
    requires Emptied(env, grid, k, w.sim)
    requires forall s | CutoffBarOf(env, grid, d, s) && Capacity(env, env.bars[d].bar).Some? ::
               Capacity(env, env.bars[d].bar).value >= w.sim.book.Held(env.bars[d].bar.symbol)
    ensures Emptied(env, grid, k + 1, Step(env, grid, plan, w, Ticks(env)[k]).value.sim)
  {
    hide Timeline, Ticks, WorldSound, InCharge, GridSound, Live, CompletedBy, Step, Capacity;
    var r := Step(env, grid, plan, w, Ticks(env)[k]).value;
    forall c: nat, s | CutoffBarOf(env, grid, c, s) && CompletedBy(env, k + 1, c) && Live(env, k + 1, s)
      ensures r.sim.book.Held(env.bars[c].bar.symbol) == 0
    {
      LiveBefore(env, k, s);
      CompletedNow(env, k, c);
      CutoffBarListed(env, grid, c, s);
      if Ticks(env)[k] == Tick(env.bars[c].availableAt, BarComplete, c) {
        OwnCompletion(env, grid, plan, k, c, s, w);
      } else {
        OtherCompletion(env, grid, plan, k, c, s, d, w);
      }
    }
  }

  lemma OwnCompletion<S>(env: Env, grid: Grid, plan: Plan<S>, k: nat, c: nat, s: Session, w: World<S>)
    requires GridSound(env, grid) && k < |Ticks(env)| && CutoffBarOf(env, grid, c, s) && Ticks(env)[k] == Tick(env.bars[c].availableAt, BarComplete, c)
    requires WorldSound(env, w) && InCharge(env, grid, k, w.sim) && Step(env, grid, plan, w, Ticks(env)[k]).Ok?
    requires Capacity(env, env.bars[c].bar).Some? ==> Capacity(env, env.bars[c].bar).value >= w.sim.book.Held(env.bars[c].bar.symbol)
    ensures Step(env, grid, plan, w, Ticks(env)[k]).value.sim.book.Held(env.bars[c].bar.symbol) == 0
  {
    hide Timeline, Ticks, WorldSound, InCharge, GridSound, Step, Capacity;
    CompletionFlattens(env, grid, plan, k, c, s, w);
  }

  lemma OtherCompletion<S>(env: Env, grid: Grid, plan: Plan<S>, k: nat, c: nat, s: Session, d: nat, w: World<S>)
    requires GridSound(env, grid) && k < |Ticks(env)| && d < |env.bars| && Ticks(env)[k] == Tick(env.bars[d].availableAt, BarComplete, d)
    requires WorldSound(env, w) && InCharge(env, grid, k, w.sim) && Step(env, grid, plan, w, Ticks(env)[k]).Ok?
    requires Emptied(env, grid, k, w.sim) && CutoffBarOf(env, grid, c, s) && CompletedBy(env, k, c) && Live(env, k, s)
    ensures Step(env, grid, plan, w, Ticks(env)[k]).value.sim.book.Held(env.bars[c].bar.symbol) == 0
  {
    hide Timeline, Ticks, Healthy, Settled, EvaluateStrategy, Extends, Logged, Visited, OnGrid, InCharge, Live, CompletedBy, GridSound;
    var item := env.bars[d];
    var own := BarSession(env, grid, d);
    CutoffOwned(grid, own);
    var cutoff := grid.cutoffs[own.opens];
    SettledKeeps(env, w.sim, item, cutoff, (x: Sim) => true);
    var settled := Settled(env, w.sim, item, cutoff).value;
    EvaluateSound(env, grid, plan, World(settled, w.runtime), d, own, cutoff);
    if item.bar.symbol == env.bars[c].bar.symbol {
      LaterCompletion(env, grid, k, c, s, d, w.sim);
    } else {
      assert settled.book.PositionOf(env.bars[c].bar.symbol) == w.sim.book.PositionOf(env.bars[c].bar.symbol);
    }
  }

  lemma CutoffOwned(grid: Grid, s: Session)
    requires SessionGrid(grid, s)
    ensures s.opens in grid.cutoffs
  {
  }

  lemma {:induction false} ReachableEmptied<S>(env: Env, grid: Grid, plan: Plan<S>, k: nat)
    requires GridSound(env, grid) && k <= |Ticks(env)| && After(env, grid, plan, k).Ok?
    requires CapsCover(env, grid, plan, k)
    ensures Emptied(env, grid, k, After(env, grid, plan, k).value.sim)
  {
    hide WorldSound, Step, Timeline, Ticks, GridSound, InCharge, Emptied, After, Start, Extends, CapsCover, Scheduled;
    GridHasSessions(env, grid);
    if k == 0 {
      NothingCompleted(env, grid, After(env, grid, plan, 0).value.sim);
    } else {
      Stepped(env, grid, plan, k);
      HistoryExtends(env, grid, plan, k - 1, k);
      var w := After(env, grid, plan, k - 1).value;
      CapsCoverEarlier(env, grid, plan, k - 1);
      ReachableEmptied(env, grid, plan, k - 1);
      ReachableSound(env, grid, plan, k - 1);
      ReachableInCharge(env, grid, plan, k - 1);
      EmptiedStep(env, grid, plan, k - 1, w);
    }
  }

  lemma NothingCompleted(env: Env, grid: Grid, st: Sim)
    ensures Emptied(env, grid, 0, st)
  {
    hide Ticks;
  }

  lemma CapsCoverEarlier<S>(env: Env, grid: Grid, plan: Plan<S>, k: nat)
    requires env.sessions != [] && k < |Ticks(env)| && CapsCover(env, grid, plan, k + 1)
    ensures CapsCover(env, grid, plan, k)
  {
    hide Ticks, After, CutoffBarOf, Capacity;
  }

  lemma EmptiedStep<S>(env: Env, grid: Grid, plan: Plan<S>, k: nat, w: World<S>)
    requires GridSound(env, grid) && k < |Ticks(env)| && After(env, grid, plan, k) == Ok(w) && CapsCover(env, grid, plan, k + 1)
    requires WorldSound(env, w) && InCharge(env, grid, k, w.sim) && Step(env, grid, plan, w, Ticks(env)[k]).Ok? && Emptied(env, grid, k, w.sim)
    ensures Emptied(env, grid, k + 1, Step(env, grid, plan, w, Ticks(env)[k]).value.sim)
  {
    hide WorldSound, Step, Timeline, Ticks, GridSound, InCharge, Emptied, After, Extends, Logged, BarFills, CutoffBarOf, Capacity;
    TickScheduled(env, k);
    if Ticks(env)[k].kind == BarComplete {
      CompletionScheduled(env, k);
      CompleteEmptied(env, grid, plan, k, Ticks(env)[k].index, w);
    } else {
      StepSound(env, grid, plan, w, Ticks(env)[k]);
      EmptiedKept(env, grid, k, w.sim, Step(env, grid, plan, w, Ticks(env)[k]).value.sim);
    }
  }

  lemma CompletionScheduled(env: Env, k: nat)
    requires k < |Ticks(env)| && Ticks(env)[k].kind == BarComplete && Scheduled(env.bars, env.sessions, env.script, Ticks(env)[k])
    ensures Ticks(env)[k].index < |env.bars|
    ensures Ticks(env)[k] == Tick(env.bars[Ticks(env)[k].index].availableAt, BarComplete, Ticks(env)[k].index)
  {
    hide Ticks;
  }

  // ----- the close

  /** At a session's close tick every cutoff bar of the session has completed, and the session was live until now. */
  lemma ClosingFacts(env: Env, grid: Grid, k: nat, s: Session, c: nat)
    requires GridSound(env, grid) && k < |Ticks(env)| && Ticks(env)[k].kind == SessionClose && Ticks(env)[k].timestamp == s.closes && s in env.sessions
    requires CutoffBarOf(env, grid, c, s)
    ensures CompletedBy(env, k, c) && Live(env, k, s)
  {
    hide Timeline, OnGrid;
    TicksFrom(env, grid, k);
    var own := BarSession(env, grid, c);
    var done := Tick(env.bars[c].availableAt, BarComplete, c);
    assert Scheduled(env.bars, env.sessions, env.script, done) && Earlier(done, Ticks(env)[k]);
    forall j | 0 <= j < k && Ticks(env)[j].kind == SessionClose
      ensures Ticks(env)[j].timestamp != s.closes
    {
      TicksFrom(env, grid, j);
      ClosesOnce(env, Ticks(env)[j], Ticks(env)[k]);
    }
  }

  lemma ClosesOnce(env: Env, a: Tick, b: Tick)
    requires Separated(env.sessions) && a.kind == SessionClose == b.kind && a != b
    requires Scheduled(env.bars, env.sessions, env.script, a) && Scheduled(env.bars, env.sessions, env.script, b)
    ensures a.timestamp != b.timestamp
  {
  }

  /**
   * With volume enough no close ever fails: if the cutoff bars' shares cover what is held, every session close that a run
   * reaches passes, so the run never ends for an incomplete forced exit.
   */
  lemma ClosesPass<S>(env: Env, grid: Grid, plan: Plan<S>, k: nat)
    requires GridSound(env, grid) && CutoffBars(env, grid) && k < |Ticks(env)| && Ticks(env)[k].kind == SessionClose
    requires After(env, grid, plan, k).Ok? && CapsCover(env, grid, plan, k)
    ensures Step(env, grid, plan, After(env, grid, plan, k).value, Ticks(env)[k]).Ok?
  {
    hide WorldSound, Timeline, Ticks, GridSound, Emptied, After, CapsCover, CutoffBars, CloseSession, Extends, Logged, Healthy;
    GridHasSessions(env, grid);
    ReachableSound(env, grid, plan, k);
    ReachableEmptied(env, grid, plan, k);
    var w := After(env, grid, plan, k).value;
    WorldHealthy(env, w);
    CloseSound(env, w.sim, Ticks(env)[k].timestamp);
    if AnyHeld(w.sim.book) {
      var y :| y in w.sim.book.positions && w.sim.book.positions[y].quantity != 0;
      HeldListed(env, grid, plan, k, y);
      NothingHeldAtClose(env, grid, k, w.sim, y);
    }
  }

  lemma NothingHeldAtClose(env: Env, grid: Grid, k: nat, st: Sim, y: Symbol)
    requires GridSound(env, grid) && CutoffBars(env, grid) && k < |Ticks(env)| && Ticks(env)[k].kind == SessionClose
    requires Emptied(env, grid, k, st) && y in env.symbols
    ensures st.book.Held(y) == 0
  {
    hide Timeline, Ticks, GridSound, Live, CompletedBy;
    TickScheduled(env, k);
    var s := ClosingSession(env, k);
    assert HasCutoffBar(env, grid, y, s);
    var c: nat :| CutoffBarOf(env, grid, c, s) && env.bars[c].bar.symbol == y;
    ClosingFacts(env, grid, k, s, c);
  }

  lemma ClosingSession(env: Env, k: nat) returns (s: Session)
    requires k < |Ticks(env)| && Ticks(env)[k].kind == SessionClose && Scheduled(env.bars, env.sessions, env.script, Ticks(env)[k])
    ensures s in env.sessions && Ticks(env)[k].timestamp == s.closes
  {
    hide Ticks;
    s := env.sessions[Ticks(env)[k].index];
  }

  /** Without a participation rate the shares are not capped. */
  lemma UncappedCovers<S>(env: Env, grid: Grid, plan: Plan<S>, k: nat)
    requires env.sessions != [] && k <= |Ticks(env)| && env.participation.None?
    ensures CapsCover(env, grid, plan, k)
  {
    hide Ticks, After, CutoffBarOf;
  }

  /**
   * A validated run of any strategy whose cutoff bars' shares cover what is then held, or are not capped, never ends for an
   * incomplete forced exit: no session close it reaches fails.
   */
  lemma NeverIncomplete<S>(env: Env, plan: Plan<S>, k: nat)
    requires Separated(env.sessions) && Validate(env).Ok? && env.sessions != []
    requires var grid := Validate(env).value;
             && k < |Ticks(env)| && Ticks(env)[k].kind == SessionClose && After(env, grid, plan, k).Ok?
             && (env.participation.None? || CapsCover(env, grid, plan, k))
    ensures Step(env, Validate(env).value, plan, After(env, Validate(env).value, plan, k).value, Ticks(env)[k]).Ok?
  {
    hide Validate, Timeline, Ticks, GridSound, After, CapsCover, CutoffBars, Step;
    ValidateSound(env);
    ValidateComplete(env);
    if env.participation.None? {
      UncappedCovers(env, Validate(env).value, plan, k);
    }
    ClosesPass(env, Validate(env).value, plan, k);
  }

  // ----- exactly when a close fails

  /** A liquidation of the symbol is working. */
  ghost predicate Selling(st: Sim, y: Symbol) {
    exists i :: 0 <= i < |st.orders| && st.orders[i].forced && st.orders[i].Active() && st.orders[i].intent.symbol == y
  }

  ghost predicate SellingAfter<S>(env: Env, grid: Grid, plan: Plan<S>, k: nat, y: Symbol)
    requires env.sessions != [] && k <= |Ticks(env)|
  {
    After(env, grid, plan, k).Ok? && Selling(After(env, grid, plan, k).value.sim, y)
  }

  /** The shares that the symbol's bars permit, among the completions at ticks j to k, while its liquidation is working. */
  ghost function Offered<S>(env: Env, grid: Grid, plan: Plan<S>, j: nat, k: nat, y: Symbol): int
    requires env.sessions != [] && j <= k <= |Ticks(env)|
    decreases k
  {
    if j == k then 0
    else
      Offered(env, grid, plan, j, k - 1, y)
      + if SellingAfter(env, grid, plan, k - 1, y) then OfferedAt(env, Ticks(env)[k - 1], y) else 0
  }

  function OfferedAt(env: Env, tick: Tick, y: Symbol): int {
    if tick.kind == BarComplete && tick.index < |env.bars| && env.bars[tick.index].bar.symbol == y && env.participation.Some? then
      (env.bars[tick.index].bar.volume as real * env.participation.value).Floor
    else 0
  }

  /** The part of a holding beyond an offer. */
  function Excess(held: int, offer: int): int { if held <= offer then 0 else held - offer }

  /** One tick after the cutoff opening takes from the holding what its bar, if it is the symbol's, permits its liquidation to sell. */
  lemma TickDrains<S>(env: Env, grid: Grid, plan: Plan<S>, k: nat, c: nat, s: Session, w: World<S>)
    requires GridSound(env, grid) && k < |Ticks(env)| && CutoffBarOf(env, grid, c, s) && PastCutoff(env, grid, k, c) && env.participation.Some?
    requires WorldSound(env, w) && InCharge(env, grid, k, w.sim) && Step(env, grid, plan, w, Ticks(env)[k]).Ok?
    ensures Step(env, grid, plan, w, Ticks(env)[k]).value.sim.book.Held(env.bars[c].bar.symbol)
            == Excess(w.sim.book.Held(env.bars[c].bar.symbol),
                      if Selling(w.sim, env.bars[c].bar.symbol) then OfferedAt(env, Ticks(env)[k], env.bars[c].bar.symbol) else 0)
    ensures OfferedAt(env, Ticks(env)[k], env.bars[c].bar.symbol) >= 0 && w.sim.book.Held(env.bars[c].bar.symbol) >= 0
  {
    hide WorldSound, Step, Timeline, Ticks, GridSound, InCharge, Extends, Logged, BarFills, PastCutoff, Selling, Capacity;
    TickScheduled(env, k);
    StepSound(env, grid, plan, w, Ticks(env)[k]);
    NaturalHolding(env, w, env.bars[c].bar.symbol);
    if Ticks(env)[k].kind == BarComplete {
      CompletionScheduled(env, k);
      var d := Ticks(env)[k].index;
      CapacityNatural(env, env.bars[d].bar);
      CapacityThere(env, env.bars[d].bar);
      CapacityExact(env, env.bars[d].bar);
      if env.bars[d].bar.symbol == env.bars[c].bar.symbol {
        OwnBarDrains(env, grid, plan, k, c, s, d, w);
      } else {
        OtherBarKeeps(env, w.sim, Step(env, grid, plan, w, Ticks(env)[k]).value.sim, env.bars[d], env.bars[c].bar.symbol);
      }
    }
  }

  lemma NaturalHolding<S>(env: Env, w: World<S>, y: Symbol)
    requires WorldSound(env, w)
    ensures w.sim.book.Held(y) >= 0
  {
    hide Healthy;
    HeldNatural(env, w.sim, y);
  }

  lemma CapacityThere(env: Env, bar: Bar)
    requires env.participation.Some?
    ensures Capacity(env, bar).Some?
  {
  }

  lemma OtherBarKeeps(env: Env, st: Sim, r: Sim, item: SnapshotBar, y: Symbol)
    requires BarFills(env, st, r, item) && y != item.bar.symbol
    ensures r.book.Held(y) == st.book.Held(y)
  {
  }

  lemma OwnBarDrains<S>(env: Env, grid: Grid, plan: Plan<S>, k: nat, c: nat, s: Session, d: nat, w: World<S>)
    requires GridSound(env, grid) && k < |Ticks(env)| && CutoffBarOf(env, grid, c, s) && PastCutoff(env, grid, k, c)
    requires d < |env.bars| && Ticks(env)[k] == Tick(env.bars[d].availableAt, BarComplete, d) && env.bars[d].bar.symbol == env.bars[c].bar.symbol
    requires WorldSound(env, w) && InCharge(env, grid, k, w.sim) && Step(env, grid, plan, w, Ticks(env)[k]).Ok?
    ensures var held := w.sim.book.Held(env.bars[c].bar.symbol);
            Step(env, grid, plan, w, Ticks(env)[k]).value.sim.book.Held(env.bars[c].bar.symbol)
            == if held == 0 || Selling(w.sim, env.bars[c].bar.symbol) then LeftOver(held, Capacity(env, env.bars[d].bar)) else held
  {
    hide WorldSound, Step, Timeline, Ticks, GridSound, InCharge, PastCutoff, Selling, Capacity, OnGrid;
    var own := BarSession(env, grid, d);
    CompletesAfterCutoff(env, grid, k, c, d, own);
    if w.sim.book.Held(env.bars[c].bar.symbol) == 0 || Selling(w.sim, env.bars[c].bar.symbol) {
      SellingCovers(w.sim, env.bars[c].bar.symbol);
      CompletionDrains(env, grid, plan, k, d, own, w);
    } else {
      CompletionKeeps(env, grid, plan, k, d, own, w);
    }
  }

  lemma SellingCovers(st: Sim, y: Symbol)
    requires st.book.Held(y) == 0 || Selling(st, y)
    ensures Covered(st, y)
  {
  }

  /** With no liquidation working, a bar at or after the cutoff leaves the holding as it is. */
  lemma CompletionKeeps<S>(env: Env, grid: Grid, plan: Plan<S>, k: nat, d: nat, s: Session, w: World<S>)
    requires GridSound(env, grid) && k < |Ticks(env)| && d < |env.bars| && Ticks(env)[k] == Tick(env.bars[d].availableAt, BarComplete, d)
    requires SessionAt(env.sessions, env.bars[d].bar.timestamp) == Some(s) && s.opens in grid.cutoffs
    requires env.bars[d].bar.timestamp >= grid.cutoffs[s.opens]
    requires WorldSound(env, w) && Step(env, grid, plan, w, Ticks(env)[k]).Ok? && !Selling(w.sim, env.bars[d].bar.symbol)
    ensures Step(env, grid, plan, w, Ticks(env)[k]).value.sim.book.Held(env.bars[d].bar.symbol) == w.sim.book.Held(env.bars[d].bar.symbol)
  {
    hide Timeline, Healthy, Settled, EvaluateStrategy, Extends, Logged, Visited, OnGrid, BarFills, MayFill, Ticks, GridSound, Selling, Sound;
    var item := env.bars[d];
    var own := BarSession(env, grid, d);
    var cutoff := grid.cutoffs[s.opens];
    var P := (x: Sim) => x.book.Held(item.bar.symbol) == w.sim.book.Held(item.bar.symbol) && !Selling(x, item.bar.symbol);
    forall x, y | OnlyLogs(x, y, item.availableAt) && P(x)
      ensures P(y)
    {
      SellingLogged(x, y, item.bar.symbol, item.availableAt);
    }
    forall x: Sim, r: Sim, n: nat, base: Option<real>, l {:trigger Visited(env, x, r, n, base, item.bar, item.availableAt, l)} |
      Sound(env, x) && P(x) && n < |x.orders| && MayFill(x.orders[n], item.bar, cutoff)
      && Visited(env, x, r, n, base, item.bar, item.availableAt, l) && Sound(env, r)
      ensures P(r)
    {
      UnsoldVisited(env, x, r, n, base, item.bar, item.availableAt, l, cutoff);
    }
    SettledKeeps(env, w.sim, item, cutoff, P);
    var settled := Settled(env, w.sim, item, cutoff).value;
    EvaluateSound(env, grid, plan, World(settled, w.runtime), d, own, cutoff);
  }

  lemma SellingLogged(x: Sim, y: Sim, symbol: Symbol, now: Time)
    requires OnlyLogs(x, y, now)
    ensures Selling(y, symbol) == Selling(x, symbol) && y.book == x.book
  {
  }

  lemma UnsoldVisited(env: Env, x: Sim, r: Sim, n: nat, base: Option<real>, bar: Bar, now: Time, left: Option<int>, cutoff: Time)
    requires n < |x.orders| && MayFill(x.orders[n], bar, cutoff) && bar.timestamp >= cutoff && !Selling(x, bar.symbol)
    requires Visited(env, x, r, n, base, bar, now, left)
    ensures r == x
  {
    assert !x.orders[n].Active();
  }

  /**
   * From its cutoff opening on, a holding goes down by the shares that the symbol's completing bars permit while its
   * liquidation is working, until nothing is left.
   */
  lemma {:induction false} HeldSinceCutoff<S>(env: Env, grid: Grid, plan: Plan<S>, j: nat, k: nat, c: nat, s: Session)
    requires GridSound(env, grid) && j < k <= |Ticks(env)| && After(env, grid, plan, k).Ok?
    requires CutoffBarOf(env, grid, c, s) && Ticks(env)[j] == Tick(env.bars[c].bar.timestamp, BarOpen, c) && Live(env, k, s)
    requires env.participation.Some?
    ensures After(env, grid, plan, j).Ok? && Offered(env, grid, plan, j, k, env.bars[c].bar.symbol) >= 0
    ensures After(env, grid, plan, k).value.sim.book.Held(env.bars[c].bar.symbol)
            == Excess(After(env, grid, plan, j).value.sim.book.Held(env.bars[c].bar.symbol), Offered(env, grid, plan, j, k, env.bars[c].bar.symbol))
    decreases k
  {
    hide WorldSound, Step, Timeline, Ticks, GridSound, InCharge, After, Extends, Logged, BarFills, PastCutoff, Selling, Live, OfferedAt, Scheduled;
    GridHasSessions(env, grid);
    Stepped(env, grid, plan, k);
    ReachableSound(env, grid, plan, k - 1);
    TickScheduled(env, k - 1);
    var w := After(env, grid, plan, k - 1).value;
    StepSound(env, grid, plan, w, Ticks(env)[k - 1]);
    if k == j + 1 {
      NaturalHolding(env, w, env.bars[c].bar.symbol);
      OpeningOffersNothing(env, Ticks(env)[j], env.bars[c].bar.symbol);
    } else {
      LiveBefore(env, k - 1, s);
      HeldSinceCutoff(env, grid, plan, j, k - 1, c, s);
      ReachableInCharge(env, grid, plan, k - 1);
      OpenedPast(env, grid, j, k - 1, c, s);
      TickDrains(env, grid, plan, k - 1, c, s, w);
    }
  }

  lemma OpeningOffersNothing(env: Env, tick: Tick, y: Symbol)
    requires tick.kind == BarOpen
    ensures OfferedAt(env, tick, y) == 0
  {
  }

  lemma OpenedPast(env: Env, grid: Grid, j: nat, k: nat, c: nat, s: Session)
    requires j < k <= |Ticks(env)| && CutoffBarOf(env, grid, c, s) && Ticks(env)[j] == Tick(env.bars[c].bar.timestamp, BarOpen, c) && Live(env, k, s)
    ensures PastCutoff(env, grid, k, c)
  {
    hide Ticks, Live;
    assert OpenedAt(env, k, env.bars[c].bar.symbol, env.bars[c].bar.timestamp);
  }

  /**
   * At the opening of the session's cutoff bar c more is held than its symbol's bars permit to sell from there to tick k,
   * while the liquidation is working.
   */
  ghost predicate Overfull<S>(env: Env, grid: Grid, plan: Plan<S>, k: nat, s: Session, c: nat)
    requires env.sessions != [] && k <= |Ticks(env)|
  {
    && CutoffBarOf(env, grid, c, s) && env.participation.Some?
    && exists j: nat :: j < k && OverfullAt(env, grid, plan, j, k, c)
  }

  ghost predicate OverfullAt<S>(env: Env, grid: Grid, plan: Plan<S>, j: nat, k: nat, c: nat)
    requires env.sessions != [] && j < k <= |Ticks(env)| && c < |env.bars|
  {
    && Ticks(env)[j] == Tick(env.bars[c].bar.timestamp, BarOpen, c) && After(env, grid, plan, j).Ok?
    && After(env, grid, plan, j).value.sim.book.Held(env.bars[c].bar.symbol) > Offered(env, grid, plan, j, k, env.bars[c].bar.symbol)
  }

  /**
   * A session close fails if and only if, at the cutoff opening of some symbol, more of it was held than its bars permit
   * to sell from there to the close, counting the bars that complete while its liquidation is working. Without a
   * participation rate it never fails.
   */
  lemma CloseFailsExactly<S>(env: Env, grid: Grid, plan: Plan<S>, k: nat, s: Session)
    requires GridSound(env, grid) && CutoffBars(env, grid) && k < |Ticks(env)| && Ticks(env)[k].kind == SessionClose
    requires s in env.sessions && Ticks(env)[k].timestamp == s.closes
    requires After(env, grid, plan, k).Ok?
    ensures Step(env, grid, plan, After(env, grid, plan, k).value, Ticks(env)[k]).Err?
            <==> exists c: nat :: Overfull(env, grid, plan, k, s, c)
  {
    hide WorldSound, Timeline, Ticks, GridSound, After, CutoffBars, CloseSession, Extends, Logged, Healthy, Overfull, CapsCover;
    GridHasSessions(env, grid);
    ReachableSound(env, grid, plan, k);
    var w := After(env, grid, plan, k).value;
    WorldHealthy(env, w);
    CloseSound(env, w.sim, Ticks(env)[k].timestamp);
    if AnyHeld(w.sim.book) {
      if env.participation.None? {
        UncappedCovers(env, grid, plan, k);
        ClosesPass(env, grid, plan, k);
        assert false;
      } else {
        var y :| y in w.sim.book.positions && w.sim.book.positions[y].quantity != 0;
        HeldListed(env, grid, plan, k, y);
        var c := HeldOverfull(env, grid, plan, k, s, y);
      }
    }
    if c: nat :| Overfull(env, grid, plan, k, s, c) {
      OverfullHeld(env, grid, plan, k, s, c);
      StillHeld(w.sim.book, env.bars[c].bar.symbol);
    }
  }

  lemma StillHeld(book: Book, y: Symbol)
    requires book.Held(y) != 0
    ensures AnyHeld(book)
  {
  }

  /** What is held at the close was too much at its cutoff. */
  lemma HeldOverfull<S>(env: Env, grid: Grid, plan: Plan<S>, k: nat, s: Session, y: Symbol) returns (c: nat)
    requires GridSound(env, grid) && CutoffBars(env, grid) && k < |Ticks(env)| && Ticks(env)[k].kind == SessionClose
    requires s in env.sessions && Ticks(env)[k].timestamp == s.closes && y in env.symbols && env.participation.Some?
    requires After(env, grid, plan, k).Ok?
    requires After(env, grid, plan, k).value.sim.book.Held(y) != 0
    ensures Overfull(env, grid, plan, k, s, c)
  {
    hide Timeline, Ticks, GridSound, After, Live, CompletedBy, Offered;
    GridHasSessions(env, grid);
    assert HasCutoffBar(env, grid, y, s);
    c :| CutoffBarOf(env, grid, c, s) && env.bars[c].bar.symbol == y;
    CutoffBarListed(env, grid, c, s);
    ClosingFacts(env, grid, k, s, c);
    var j := CutoffOpening(env, grid, k, s, c);
    HeldSinceCutoff(env, grid, plan, j, k, c, s);
    assert OverfullAt(env, grid, plan, j, k, c);
  }

  lemma OverfullHeld<S>(env: Env, grid: Grid, plan: Plan<S>, k: nat, s: Session, c: nat)
    requires GridSound(env, grid) && k < |Ticks(env)| && Ticks(env)[k].kind == SessionClose
    requires s in env.sessions && Ticks(env)[k].timestamp == s.closes && Overfull(env, grid, plan, k, s, c)
    requires After(env, grid, plan, k).Ok?
    ensures c < |env.bars| && After(env, grid, plan, k).value.sim.book.Held(env.bars[c].bar.symbol) != 0
  {
    hide Timeline, Ticks, GridSound, After, Live, CompletedBy, Offered;
    GridHasSessions(env, grid);
    CutoffBarListed(env, grid, c, s);
    ClosingFacts(env, grid, k, s, c);
    var j: nat :| j < k && OverfullAt(env, grid, plan, j, k, c);
    HeldSinceCutoff(env, grid, plan, j, k, c, s);
  }

  /** The cutoff bar opens before the close. */
  lemma CutoffOpening(env: Env, grid: Grid, k: nat, s: Session, c: nat) returns (j: nat)
    requires GridSound(env, grid) && k < |Ticks(env)| && Ticks(env)[k].kind == SessionClose && Ticks(env)[k].timestamp == s.closes && s in env.sessions
    requires CutoffBarOf(env, grid, c, s)
    ensures j < k && c < |env.bars| && Ticks(env)[j] == Tick(env.bars[c].bar.timestamp, BarOpen, c)
  {
    hide Timeline, OnGrid;
    TicksFrom(env, grid, k);
    var own := BarSession(env, grid, c);
    var open := Tick(env.bars[c].bar.timestamp, BarOpen, c);
    assert Scheduled(env.bars, env.sessions, env.script, open) && Earlier(open, Ticks(env)[k]);
    j :| j < k && Ticks(env)[j] == open;
  }

  // ----- the baseline with enough volume

  /** The shares of the bars of every session's cutoff cover a quantity. */
  ghost predicate SharesCover(env: Env, grid: Grid, quantity: int) {
    forall c: nat, s | CutoffBarOf(env, grid, c, s) && Capacity(env, env.bars[c].bar).Some? :: Capacity(env, env.bars[c].bar).value >= quantity
  }

  lemma BaselineCovers(env: Env, grid: Grid, p: Parameters, k: nat)
    requires GridSound(env, grid) && env.strategic && env.script == [] && k <= |Ticks(env)| && SharesCover(env, grid, p.quantity)
    ensures CapsCover(env, grid, PlanOf(p), k)
  {
    hide Timeline, Ticks, GridSound, After, LoopWorld, WorldSound, InCharge, RunFault, Capacity;
    GridHasSessions(env, grid);
    forall j, c: nat, s | 0 <= j < k && CutoffBarOf(env, grid, c, s) && Ticks(env)[j] == Tick(env.bars[c].availableAt, BarComplete, c)
                          && After(env, grid, PlanOf(p), j).Ok? && Capacity(env, env.bars[c].bar).Some?
      ensures Capacity(env, env.bars[c].bar).value >= After(env, grid, PlanOf(p), j).value.sim.book.Held(env.bars[c].bar.symbol)
    {
      ReachableLoop(env, grid, p, j);
      BaselineHeld(env, grid, p, After(env, grid, PlanOf(p), j).value, c);
    }
  }

  lemma BaselineHeld(env: Env, grid: Grid, p: Parameters, w: World<State>, c: nat)
    requires GridSound(env, grid) && LoopWorld(env, p, w) && c < |env.bars|
    ensures w.sim.book.Held(env.bars[c].bar.symbol) <= p.quantity
  {
    hide Loop, OnGrid, ReferencesBounded;
    HeldBounded(env, p, w.sim, w.runtime.value.instances, env.bars[c].bar.symbol);
  }

  lemma {:induction false} BaselineFaults(env: Env, grid: Grid, p: Parameters, k: nat)
    requires GridSound(env, grid) && CutoffBars(env, grid) && env.strategic && env.script == [] && k <= |Ticks(env)|
    requires SharesCover(env, grid, p.quantity)
    ensures var r := After(env, grid, PlanOf(p), k); r.Err? ==> BaselineFault(r.error)
  {
    hide WorldSound, Step, Timeline, Ticks, InCharge, GridSound, LoopWorld, After, Start, CutoffBars, SharesCover, CapsCover;
    GridHasSessions(env, grid);
    if k == 0 {
      AfterNone(env, grid, PlanOf(p));
      StartSound(env, PlanOf(p));
    } else {
      BaselineFaults(env, grid, p, k - 1);
      AfterStep(env, grid, PlanOf(p), k);
      if After(env, grid, PlanOf(p), k - 1).Ok? {
        ReachableLoop(env, grid, p, k - 1);
        var w := After(env, grid, PlanOf(p), k - 1).value;
        if Ticks(env)[k - 1].kind == SessionClose {
          BaselineCovers(env, grid, p, k - 1);
          ClosesPass(env, grid, PlanOf(p), k - 1);
        } else {
          StepLoop(env, grid, p, k - 1, w);
        }
      }
    }
  }

  /**
   * A validated baseline run without a participation cap, or whose cutoff bars' shares cover the configured quantity, fails for
   * late features, a nonpositive stop or too many intents, and for nothing else.
   */
  lemma BaselineNeverIncomplete(env: Env, p: Parameters)
    requires Separated(env.sessions) && env.strategic && env.script == [] && Validate(env).Ok?
    requires env.participation.None? || SharesCover(env, Validate(env).value, p.quantity)
    ensures Run(env, PlanOf(p)).Err? ==> Run(env, PlanOf(p)).error in {FeatureLate, NonpositiveStop, IntentLimitExceeded}
  {
    hide Validate, Timeline, Ticks, GridSound, After, CutoffBars;
    var grid := Validate(env).value;
    ValidateSound(env);
    ValidateComplete(env);
    GridHasSessions(env, grid);
    BaselineFaults(env, grid, p, |Ticks(env)|);
  }

  // ----- only liquidations fill after the cutoff

  lemma PastCutoffStays(env: Env, grid: Grid, j: nat, k: nat, b: nat)
    requires j <= k <= |Ticks(env)| && PastCutoff(env, grid, j, b) && Live(env, k, SessionAt(env.sessions, env.bars[b].bar.timestamp).value)
    ensures PastCutoff(env, grid, k, b)
  {
    hide Ticks;
  }

  lemma LiveSince(env: Env, j: nat, k: nat, s: Session)
    requires j <= k <= |Ticks(env)| && Live(env, k, s)
    ensures Live(env, j, s)
  {
    hide Ticks;
  }

  /** Every fill of the symbol between two points of a run belongs to a liquidation. */
  ghost predicate OnlyLiquidations(st: Sim, later: Sim, symbol: Symbol) {
    && |st.fills| <= |later.fills|
    && forall n | |st.fills| <= n < |later.fills| && later.fills[n].symbol == symbol ::
         1 <= later.fills[n].orderId <= |later.orders| && later.orders[later.fills[n].orderId - 1].forced
  }

  /**
   * From the moment a symbol's cutoff bar has opened, for as long as its session is open, every fill of the symbol is a
   * liquidation's.
   */
  lemma {:induction false} OnlyLiquidationsFill<S>(env: Env, grid: Grid, plan: Plan<S>, j: nat, k: nat, b: nat)
    requires GridSound(env, grid) && j <= k <= |Ticks(env)| && After(env, grid, plan, k).Ok?
    requires PastCutoff(env, grid, j, b) && Live(env, k, SessionAt(env.sessions, env.bars[b].bar.timestamp).value)
    ensures After(env, grid, plan, j).Ok?
    ensures OnlyLiquidations(After(env, grid, plan, j).value.sim, After(env, grid, plan, k).value.sim, env.bars[b].bar.symbol)
    decreases k
  {
    hide WorldSound, Step, Timeline, Ticks, GridSound, After, Extends, Live, OnlyLiquidations, PastCutoff, CausalFill;
    GridHasSessions(env, grid);
    HistoryExtends(env, grid, plan, j, k);
    PastCutoffShape(env, grid, j, b);
    if j == k {
      SelfLiquidations(After(env, grid, plan, k).value.sim, env.bars[b].bar.symbol);
    } else {
      Stepped(env, grid, plan, k);
      HistoryExtends(env, grid, plan, k - 1, k);
      var before, later := After(env, grid, plan, k - 1).value, After(env, grid, plan, k).value;
      LiveSince(env, k - 1, k, SessionAt(env.sessions, env.bars[b].bar.timestamp).value);
      OnlyLiquidationsFill(env, grid, plan, j, k - 1, b);
      PastCutoffStays(env, grid, j, k - 1, b);
      ReachableSound(env, grid, plan, k - 1);
      TickLiquidations(env, grid, plan, k, b, before, later);
      LiquidationsGrow(After(env, grid, plan, j).value.sim, before.sim, later.sim, env.bars[b].bar.symbol);
    }
  }

  lemma PastCutoffShape(env: Env, grid: Grid, k: nat, b: nat)
    requires k <= |Ticks(env)| && PastCutoff(env, grid, k, b)
    ensures b < |env.bars| && SessionAt(env.sessions, env.bars[b].bar.timestamp).Some?
  {
    hide Ticks;
  }

  lemma SelfLiquidations(st: Sim, symbol: Symbol)
    ensures OnlyLiquidations(st, st, symbol)
  {
  }

  lemma LiquidationsGrow(a: Sim, b: Sim, c: Sim, symbol: Symbol)
    requires OnlyLiquidations(a, b, symbol) && OnlyLiquidations(b, c, symbol) && Extends(b, c)
    ensures OnlyLiquidations(a, c, symbol)
  {
    hide SimOrder.Active, SimOrder.EverTriggered;
    forall n | |a.fills| <= n < |c.fills| && c.fills[n].symbol == symbol
      ensures 1 <= c.fills[n].orderId <= |c.orders| && c.orders[c.fills[n].orderId - 1].forced
    {
      if n < |b.fills| {
        assert c.fills[n] == b.fills[n];
        assert Carried(b.orders[b.fills[n].orderId - 1], c.orders[b.fills[n].orderId - 1]);
      }
    }
  }

  lemma TickLiquidations<S>(env: Env, grid: Grid, plan: Plan<S>, k: nat, b: nat, before: World<S>, later: World<S>)
    requires GridSound(env, grid) && 0 < k <= |Ticks(env)| && After(env, grid, plan, k) == Ok(later) && WorldSound(env, before)
    requires Step(env, grid, plan, before, Ticks(env)[k - 1]) == Ok(later) && PastCutoff(env, grid, k - 1, b)
    ensures b < |env.bars| && OnlyLiquidations(before.sim, later.sim, env.bars[b].bar.symbol)
  {
    hide WorldSound, Step, Timeline, Ticks, GridSound, After, Extends, Logged, PastCutoff, CausalFill;
    GridHasSessions(env, grid);
    PastCutoffShape(env, grid, k - 1, b);
    TickScheduled(env, k - 1);
    StepSound(env, grid, plan, before, Ticks(env)[k - 1]);
    if Ticks(env)[k - 1].kind == BarComplete {
      CompletionScheduled(env, k - 1);
      var d := Ticks(env)[k - 1].index;
      forall n: nat | |before.sim.fills| <= n < |later.sim.fills| && later.sim.fills[n].symbol == env.bars[b].bar.symbol
        ensures 1 <= later.sim.fills[n].orderId <= |later.sim.orders| && later.sim.orders[later.sim.fills[n].orderId - 1].forced
      {
        var f := later.sim.fills[n];
        assert f == later.sim.fills[|before.sim.fills|..][n - |before.sim.fills|];
        StrictCausality(env, grid, plan, k, n);
        LateFillForced(env, grid, k - 1, b, d, later.sim.orders[f.orderId - 1], f);
      }
    }
  }

  /** A fill in a bar that completes after the cutoff opening cannot be an ordinary order's. */
  lemma LateFillForced(env: Env, grid: Grid, k: nat, b: nat, d: nat, o: SimOrder, f: Fill)
    requires GridSound(env, grid) && k < |Ticks(env)| && d < |env.bars| && Ticks(env)[k] == Tick(env.bars[d].availableAt, BarComplete, d)
    requires PastCutoff(env, grid, k, b) && f.barOpen == env.bars[d].bar.timestamp && CausalFill(env, grid, o, f)
    ensures o.forced
  {
    hide Timeline, Ticks, OnGrid, PastCutoff;
    var s := BarSession(env, grid, d);
    CompletesAfterCutoff(env, grid, k, b, d, s);
    SessionAtExact(env.sessions, o.intent.createdAt);
    FillSession(env, o, f, s);
  }

  lemma FillSession(env: Env, o: SimOrder, f: Fill, s: Session)
    requires Separated(env.sessions) && s in env.sessions && s.opens <= f.barOpen < s.closes
    requires var at := SessionAt(env.sessions, o.intent.createdAt); at.Some? && at.value in env.sessions && at.value.opens <= f.barOpen < at.value.closes
    ensures SessionAt(env.sessions, o.intent.createdAt) == Some(s)
  {
    SessionAtExact(env.sessions, f.barOpen);
  }
}
