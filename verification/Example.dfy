/** A smallest input: the hypotheses under which runs are studied are met. */
module Example {
  import opened Common
  import opened Orders
  import opened Costs
  import opened Execution
  import opened Accounting
  import opened Calendars
  import opened FeatureRows
  import opened Strategies
  import opened Engine
  import opened Grids

  const STEP := 5 * MINUTE

  function Candle(i: nat): SnapshotBar {
    SnapshotBar(RawBar("A", i * STEP, 10.0, 11.0, 9.0, 10.0, 100), (i + 1) * STEP)
  }

  function Row(i: nat): FeatureRow {
    FeatureRow("A", i * STEP, (i + 1) * STEP, 10.0, map[], map[], true, false)
  }

  /** One symbol, one session of three candles, ordinary configuration, and a strategy to run. */
  function ThreeCandles(): Env {
    Env([Candle(0), Candle(1), Candle(2)],
        map[("A", 0) := Row(0), ("A", STEP) := Row(1), ("A", 2 * STEP) := Row(2)],
        ["A"], [Session(0, 3 * STEP)], 0, 3 * STEP, Min5, 1000.0, Some(0.1), 0, [], true, {},
        ZeroCosts, 5.0, (basis: real, sold: int, held: int) => basis)
  }

  lemma ThreeSlots()
    ensures ExpectedSlots([Session(0, 3 * STEP)], 0, 3 * STEP, Min5) == [Slot(0, STEP), Slot(STEP, 2 * STEP), Slot(2 * STEP, 3 * STEP)]
  {
    var s := Session(0, 3 * STEP);
    WholeSessionTiled(s, 0, 3 * STEP, Min5);
    assert SlotsFrom(s, Min5, 3 * STEP) == [];
    assert SlotsFrom(s, Min5, 2 * STEP) == [Slot(2 * STEP, 3 * STEP)];
    assert SlotsFrom(s, Min5, STEP) == [Slot(STEP, 2 * STEP), Slot(2 * STEP, 3 * STEP)];
    assert SlotsFrom(s, Min5, 0) == [Slot(0, STEP), Slot(STEP, 2 * STEP), Slot(2 * STEP, 3 * STEP)];
  }

  /** The input validates; its cutoff is the opening of the last candle, so two candles complete by then. */
  lemma ThreeCandlesValidate(env: Env)
    requires env == ThreeCandles()
    ensures Separated(env.sessions) && Validate(env).Ok? && GridSound(env, Validate(env).value)
    ensures Validate(env).value.cutoffs == map[0 := 2 * STEP]
    ensures |env.bars| == 3 && env.bars[0].availableAt < 2 * STEP
  {
    hide Validate, GridOf, ActualSlots, RequiredSlots, ScriptFault, ExpectedSlots, GridSound;
    ThreeSlots();
    var slots := [Slot(0, STEP), Slot(STEP, 2 * STEP), Slot(2 * STEP, 3 * STEP)];
    Slotted(env, slots);
    Gridded3(env, slots);
    NoScript(env);
    Accepts(env, slots, Grid(map[0 := [0, STEP, 2 * STEP]], map[0 := 2 * STEP]));
    ValidateSound(env);
  }

  lemma NoScript(env: Env)
    requires env.script == []
    ensures ScriptFault(env, env.script) == None
  {
  }

  /** Validation passes when every part of it does. */
  lemma Accepts(env: Env, slots: seq<Slot>, grid: Grid)
    requires env.timeframe != Day1 && env.sessions != [] && forall s | s in env.sessions :: env.start <= s.opens && s.closes <= env.end
    requires slots == ExpectedSlots(env.sessions, env.start, env.end, env.timeframe)
    requires ActualSlots(env.bars) == RequiredSlots(env.symbols, slots) && |ActualSlots(env.bars)| == |env.bars|
    requires env.features.Keys == RequiredSlots(env.symbols, slots).Keys
    requires GridOf(env.sessions, slots, env.exitBefore) == Ok(grid) && ScriptFault(env, env.script) == None
    ensures Validate(env) == Ok(grid)
  {
    hide GridOf, ActualSlots, RequiredSlots, ExpectedSlots, ScriptFault;
  }

  lemma Slotted(env: Env, slots: seq<Slot>)
    requires env == ThreeCandles() && slots == [Slot(0, STEP), Slot(STEP, 2 * STEP), Slot(2 * STEP, 3 * STEP)]
    ensures ActualSlots(env.bars) == RequiredSlots(env.symbols, slots)
            == map[("A", 0) := STEP, ("A", STEP) := 2 * STEP, ("A", 2 * STEP) := 3 * STEP]
    ensures |ActualSlots(env.bars)| == 3
  {
    hide ActualSlots, SymbolSlots, RequiredSlots, Candle;
    var a, b, c := Candle(0), Candle(1), Candle(2);
    assert env.bars == [a] + [b] + [c] && slots == [slots[0]] + [slots[1]] + [slots[2]];
    CandleFacts();
    ActualPush([], a);
    ActualPush([a], b);
    ActualPush([a, b], c);
    SymbolPush("A", [], slots[0]);
    SymbolPush("A", [slots[0]], slots[1]);
    SymbolPush("A", [slots[0], slots[1]], slots[2]);
    RequiredOne("A", slots);
    assert [] + [a] == [a] && [a] + [b] == [a, b] && [a, b] + [c] == env.bars;
    assert [] + [slots[0]] == [slots[0]] && [slots[0]] + [slots[1]] == [slots[0], slots[1]] && [slots[0], slots[1]] + [slots[2]] == slots;
  }

  lemma CandleFacts()
    ensures forall i: nat :: Candle(i).bar.symbol == "A" && Candle(i).bar.timestamp == i * STEP && Candle(i).availableAt == (i + 1) * STEP
  {
  }

  lemma ActualPush(bars: seq<SnapshotBar>, last: SnapshotBar)
    ensures ActualSlots(bars + [last]) == ActualSlots(bars)[(last.bar.symbol, last.bar.timestamp) := last.availableAt]
    ensures ActualSlots([]) == map[]
  {
    assert (bars + [last])[..|bars|] == bars;
  }

  lemma SymbolPush(symbol: Symbol, slots: seq<Slot>, last: Slot)
    ensures SymbolSlots(symbol, slots + [last]) == SymbolSlots(symbol, slots)[(symbol, last.opening) := last.closing]
    ensures SymbolSlots(symbol, []) == map[]
  {
    assert (slots + [last])[..|slots|] == slots;
  }

  lemma RequiredOne(symbol: Symbol, slots: seq<Slot>)
    ensures RequiredSlots([symbol], slots) == SymbolSlots(symbol, slots)
  {
    hide SymbolSlots;
    assert [symbol][..0] == [] && RequiredSlots([], slots) == map[];
  }

  lemma Gridded3(env: Env, slots: seq<Slot>)
    requires env == ThreeCandles() && slots == [Slot(0, STEP), Slot(STEP, 2 * STEP), Slot(2 * STEP, 3 * STEP)]
    ensures GridOf(env.sessions, slots, env.exitBefore) == Ok(Grid(map[0 := [0, STEP, 2 * STEP]], map[0 := 2 * STEP]))
  {
    var s := Session(0, 3 * STEP);
    assert slots[1..] == [Slot(STEP, 2 * STEP), Slot(2 * STEP, 3 * STEP)] && slots[1..][1..] == [Slot(2 * STEP, 3 * STEP)];
    assert SessionOpenings([Slot(2 * STEP, 3 * STEP)], s) == [2 * STEP];
    assert SessionOpenings(slots[1..], s) == [STEP, 2 * STEP];
    assert SessionOpenings(slots, s) == [0, STEP, 2 * STEP];
    CutoffIsLast();
    assert env.sessions[..0] == [];
    assert GridOf([], slots, env.exitBefore) == Ok(Grid(map[], map[]));
    hide SessionOpenings, CutoffOf;
    assert env.sessions == [s] && env.exitBefore == 0;
    assert map[][0 := [0, STEP, 2 * STEP]] == map[0 := [0, STEP, 2 * STEP]] && map[][0 := 2 * STEP] == map[0 := 2 * STEP];
  }

  lemma CutoffIsLast()
    ensures CutoffOf([0, STEP, 2 * STEP], 3 * STEP) == 2 * STEP
  {
    assert [STEP, 2 * STEP][1..] == [2 * STEP];
    assert [0, STEP, 2 * STEP][1..] == [STEP, 2 * STEP];
    assert CutoffOf([2 * STEP], 3 * STEP) == 2 * STEP;
    assert CutoffOf([STEP, 2 * STEP], 3 * STEP) == 2 * STEP;
  }
}
