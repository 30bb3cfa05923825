/** What validation establishes about bars, openings and cutoffs, for sessions the calendar lists in order. */
module Grids {
  import opened Common
  import opened Orders
  import opened Execution
  import opened Calendars
  import opened FeatureRows
  import opened Engine

  // ----- sessions

  /** In an ordered list the session of an instant is unique. */
  lemma {:induction false} SessionAtExact(sessions: seq<Session>, t: Time)
    requires Ordered(sessions)
    ensures forall s | s in sessions && s.opens <= t < s.closes :: SessionAt(sessions, t) == Some(s)
    ensures SessionAt(sessions, t).Some? ==>
              SessionAt(sessions, t).value in sessions && SessionAt(sessions, t).value.opens <= t < SessionAt(sessions, t).value.closes
  {
    if sessions != [] {
      SessionAtExact(sessions[1..], t);
      forall s | s in sessions && s.opens <= t < s.closes
        ensures SessionAt(sessions, t) == Some(s)
      {
        var i :| 0 <= i < |sessions| && sessions[i] == s;
        assert i > 0 ==> s in sessions[1..];
      }
    }
  }

  // ----- openings and cutoffs

  ghost predicate Strict(openings: seq<Time>) {
    forall i, j | 0 <= i < j < |openings| :: openings[i] < openings[j]
  }

  ghost predicate OpensAt(slots: seq<Slot>, t: Time) { exists slot :: slot in slots && slot.opening == t }

  lemma {:induction false} OpeningsExact(slots: seq<Slot>, session: Session)
    requires Ascending(slots) && forall slot | slot in slots :: slot.opening < slot.closing
    ensures forall t :: t in SessionOpenings(slots, session) <==> session.opens <= t < session.closes && OpensAt(slots, t)
    ensures Strict(SessionOpenings(slots, session))
  {
    if slots != [] {
      var rest := SessionOpenings(slots[1..], session);
      OpeningsExact(slots[1..], session);
      forall t
        ensures OpensAt(slots, t) <==> slots[0].opening == t || OpensAt(slots[1..], t)
      {
        assert forall slot :: slot in slots <==> slot == slots[0] || slot in slots[1..];
      }
      forall j | 0 <= j < |rest|
        ensures slots[0].opening < rest[j]
      {
        assert rest[j] in rest;
        var slot :| slot in slots[1..] && slot.opening == rest[j];
        assert slots[0] in slots;
      }
    }
  }

  /** The cutoff is the first opening at or after the desired instant, or the last opening when there is none. */
  lemma {:induction false} CutoffExact(openings: seq<Time>, desired: Time)
    requires openings != [] && Strict(openings)
    ensures CutoffOf(openings, desired) in openings
    ensures forall t | t in openings && t < CutoffOf(openings, desired) :: t < desired
    ensures CutoffOf(openings, desired) < desired ==> forall t | t in openings :: t <= CutoffOf(openings, desired)
  {
    if openings[0] >= desired || |openings| == 1 {
    } else {
      CutoffExact(openings[1..], desired);
      assert forall t :: t in openings <==> t == openings[0] || t in openings[1..];
    }
  }

  ghost predicate Gridded(grid: Grid, s: Session, slots: seq<Slot>, exitBefore: Time) {
    && SessionOpenings(slots, s) != []
    && s.opens in grid.openings && grid.openings[s.opens] == SessionOpenings(slots, s)
    && s.opens in grid.cutoffs && grid.cutoffs[s.opens] == CutoffOf(SessionOpenings(slots, s), s.closes - exitBefore)
  }

  lemma GridOfStep(sessions: seq<Session>, slots: seq<Slot>, exitBefore: Time)
    requires sessions != [] && GridOf(sessions, slots, exitBefore).Ok?
    ensures var n := |sessions| - 1;
            var before := GridOf(sessions[..n], slots, exitBefore);
            var grid := GridOf(sessions, slots, exitBefore).value;
            && before.Ok? && Gridded(grid, sessions[n], slots, exitBefore)
            && forall s: Session | s.opens != sessions[n].opens && Gridded(before.value, s, slots, exitBefore) ::
                 Gridded(grid, s, slots, exitBefore)
  {
    hide SessionOpenings, CutoffOf;
  }

  lemma {:induction false} GridOfExact(sessions: seq<Session>, slots: seq<Slot>, exitBefore: Time)
    requires Ordered(sessions) && GridOf(sessions, slots, exitBefore).Ok?
    ensures forall s | s in sessions :: Gridded(GridOf(sessions, slots, exitBefore).value, s, slots, exitBefore)
  {
    hide GridOf, Gridded;
    if sessions != [] {
      var n := |sessions| - 1;
      GridOfStep(sessions, slots, exitBefore);
      GridOfExact(sessions[..n], slots, exitBefore);
      forall s | s in sessions && s != sessions[n]
        ensures s in sessions[..n] && s.opens != sessions[n].opens
      {
        var i :| 0 <= i < |sessions| && sessions[i] == s;
        assert sessions[..n][i] == s;
      }
    }
  }

  lemma {:induction false} GridOfFails(sessions: seq<Session>, slots: seq<Slot>, exitBefore: Time)
    requires forall s | s in sessions :: SessionOpenings(slots, s) != []
    ensures GridOf(sessions, slots, exitBefore).Ok?
  {
    if sessions != [] {
      GridOfFails(sessions[..|sessions| - 1], slots, exitBefore);
    }
  }

  // ----- bars

  function Key(item: SnapshotBar): (Symbol, Time) { (item.bar.symbol, item.bar.timestamp) }

  lemma {:induction false} ActualExact(bars: seq<SnapshotBar>)
    ensures |ActualSlots(bars)| <= |bars|
    ensures forall i | 0 <= i < |bars| :: Key(bars[i]) in ActualSlots(bars)
    ensures |ActualSlots(bars)| == |bars| ==>
              && (forall i | 0 <= i < |bars| :: ActualSlots(bars)[Key(bars[i])] == bars[i].availableAt)
              && (forall i, j | 0 <= i < j < |bars| :: Key(bars[i]) != Key(bars[j]))
  {
    if bars != [] {
      var n := |bars| - 1;
      ActualExact(bars[..n]);
      var before, key := ActualSlots(bars[..n]), Key(bars[n]);
      assert forall i | 0 <= i < n :: bars[..n][i] == bars[i];
      if key in before {
        assert before[key := bars[n].availableAt].Keys == before.Keys;
      }
    }
  }

  lemma {:induction false} SymbolSlotsExact(symbol: Symbol, slots: seq<Slot>)
    ensures forall k | k in SymbolSlots(symbol, slots) ::
              k.0 == symbol && Slot(k.1, SymbolSlots(symbol, slots)[k]) in slots
  {
    if slots != [] {
      SymbolSlotsExact(symbol, slots[..|slots| - 1]);
    }
  }

  lemma {:induction false} RequiredExact(symbols: seq<Symbol>, slots: seq<Slot>)
    ensures forall k | k in RequiredSlots(symbols, slots) ::
              k.0 in symbols && Slot(k.1, RequiredSlots(symbols, slots)[k]) in slots
  {
    if symbols != [] {
      RequiredExact(symbols[..|symbols| - 1], slots);
      SymbolSlotsExact(symbols[|symbols| - 1], slots);
    }
  }

  lemma {:induction false} ScriptExact(env: Env, script: seq<TradeIntent>)
    requires ScriptFault(env, script).None?
    ensures forall i | 0 <= i < |script| :: IntentFault(env, script[i]).None?
  {
    if script != [] {
      ScriptExact(env, script[1..]);
      assert forall i | 1 <= i < |script| :: script[i] == script[1..][i - 1];
    }
  }

  // ----- the grid of a validated run

  /** The bar lies in a session, opens on one of its openings, and completes by the next one. */
  ghost predicate OnGrid(env: Env, grid: Grid, item: SnapshotBar) {
    exists s :: s in env.sessions && InTile(grid, s, item)
  }

  ghost predicate InTile(grid: Grid, s: Session, item: SnapshotBar) {
    && s.opens <= item.bar.timestamp < item.availableAt <= s.closes
    && s.opens in grid.openings
    && item.bar.timestamp in grid.openings[s.opens]
    && (forall t | t in grid.openings[s.opens] && t > item.bar.timestamp :: item.availableAt <= t)
  }

  ghost predicate SessionGrid(grid: Grid, s: Session) {
    && s.opens in grid.openings && s.opens in grid.cutoffs
    && Strict(grid.openings[s.opens])
    && (forall t | t in grid.openings[s.opens] :: s.opens <= t < s.closes)
    && grid.cutoffs[s.opens] in grid.openings[s.opens]
  }

  ghost predicate GridSound(env: Env, grid: Grid) {
    && Separated(env.sessions) && env.sessions != []
    && (forall s | s in env.sessions :: SessionGrid(grid, s))
    && (forall i | 0 <= i < |env.bars| :: OnGrid(env, grid, env.bars[i]) && env.bars[i].bar.symbol in env.symbols && Key(env.bars[i]) in env.features)
    && (forall i, j | 0 <= i < j < |env.bars| :: Key(env.bars[i]) != Key(env.bars[j]))
    && (forall i | 0 <= i < |env.script| :: SessionAt(env.sessions, env.script[i].createdAt).Some?)
  }

  lemma SlotsFacts(env: Env)
    requires Ordered(env.sessions)
    ensures var slots := ExpectedSlots(env.sessions, env.start, env.end, env.timeframe);
            && Ascending(slots) && (forall slot | slot in slots :: slot.opening < slot.closing && InSession(env.sessions, slot))
  {
    ExpectedAscend(env.sessions, env.start, env.end, env.timeframe);
    ExpectedInside(env.sessions, env.start, env.end, env.timeframe);
  }

  lemma SlotsApart(slots: seq<Slot>, a: Slot, b: Slot)
    requires Ascending(slots) && a in slots && b in slots && a.opening < b.opening
    requires a.opening < a.closing && b.opening < b.closing
    ensures a.closing <= b.opening
  {
    var i :| 0 <= i < |slots| && slots[i] == a;
    var j :| 0 <= j < |slots| && slots[j] == b;
  }

  lemma BarOnGrid(env: Env, grid: Grid, slots: seq<Slot>, item: SnapshotBar)
    requires Ordered(env.sessions) && Ascending(slots)
    requires forall slot | slot in slots :: slot.opening < slot.closing && InSession(env.sessions, slot)
    requires GridOf(env.sessions, slots, env.exitBefore) == Ok(grid)
    requires Slot(item.bar.timestamp, item.availableAt) in slots
    ensures OnGrid(env, grid, item)
  {
    hide GridOf, CutoffOf, SessionOpenings, Strict, Ascending;
    var slot := Slot(item.bar.timestamp, item.availableAt);
    var s :| s in env.sessions && s.opens <= slot.opening && slot.closing <= s.closes;
    GridOfExact(env.sessions, slots, env.exitBefore);
    OpeningsExact(slots, s);
    forall t | t in grid.openings[s.opens] && t > item.bar.timestamp
      ensures item.availableAt <= t
    {
      var other :| other in slots && other.opening == t;
      SlotsApart(slots, slot, other);
    }
    assert InTile(grid, s, item);
  }

  lemma ValidateParts(env: Env)
    requires Validate(env).Ok?
    ensures var slots := ExpectedSlots(env.sessions, env.start, env.end, env.timeframe);
            && env.sessions != []
            && GridOf(env.sessions, slots, env.exitBefore) == Ok(Validate(env).value)
            && ActualSlots(env.bars) == RequiredSlots(env.symbols, slots) && |ActualSlots(env.bars)| == |env.bars|
            && env.features.Keys == RequiredSlots(env.symbols, slots).Keys
            && ScriptFault(env, env.script).None?
  {
  }

  lemma BarsSound(env: Env, grid: Grid, slots: seq<Slot>)
    requires Ordered(env.sessions) && Ascending(slots)
    requires forall slot | slot in slots :: slot.opening < slot.closing && InSession(env.sessions, slot)
    requires GridOf(env.sessions, slots, env.exitBefore) == Ok(grid)
    requires ActualSlots(env.bars) == RequiredSlots(env.symbols, slots) && |ActualSlots(env.bars)| == |env.bars|
    requires env.features.Keys == RequiredSlots(env.symbols, slots).Keys
    ensures forall i | 0 <= i < |env.bars| ::
              OnGrid(env, grid, env.bars[i]) && env.bars[i].bar.symbol in env.symbols && Key(env.bars[i]) in env.features
    ensures forall i, j | 0 <= i < j < |env.bars| :: Key(env.bars[i]) != Key(env.bars[j])
  {
    hide GridOf, Ascending, InSession, OnGrid;
    ActualExact(env.bars);
    RequiredExact(env.symbols, slots);
    forall i | 0 <= i < |env.bars|
      ensures OnGrid(env, grid, env.bars[i]) && env.bars[i].bar.symbol in env.symbols && Key(env.bars[i]) in env.features
    {
      assert Key(env.bars[i]) in RequiredSlots(env.symbols, slots);
      BarOnGrid(env, grid, slots, env.bars[i]);
    }
  }

  lemma GriddedSound(grid: Grid, s: Session, slots: seq<Slot>, exitBefore: Time)
    requires Ascending(slots) && (forall slot | slot in slots :: slot.opening < slot.closing) && Gridded(grid, s, slots, exitBefore)
    ensures SessionGrid(grid, s)
  {
    hide SessionOpenings, CutoffOf, Strict, Ascending;
    OpeningsExact(slots, s);
    CutoffExact(SessionOpenings(slots, s), s.closes - exitBefore);
  }

  /** Validation succeeds only on a sound grid. */
  lemma ValidateSound(env: Env)
    requires Separated(env.sessions) && Validate(env).Ok?
    ensures GridSound(env, Validate(env).value)
  {
    hide Validate, OnGrid, Ascending, InSession, CutoffOf, ActualSlots, RequiredSlots, GridOf, SessionOpenings, SessionGrid, Gridded,
         ExpectedSlots, ScriptFault;
    var slots := ExpectedSlots(env.sessions, env.start, env.end, env.timeframe);
    var grid := Validate(env).value;
    ValidateParts(env);
    SlotsFacts(env);
    GridOfExact(env.sessions, slots, env.exitBefore);
    forall s | s in env.sessions
      ensures SessionGrid(grid, s)
    {
      GriddedSound(grid, s, slots, env.exitBefore);
    }
    BarsSound(env, grid, slots);
    ScriptExact(env, env.script);
  }

  /** The index openings[-1] is never taken of an empty list: a complete session always has an opening. */
  lemma CutoffDefined(env: Env)
    requires Ordered(env.sessions) && Validate(env).Err?
    ensures Validate(env).error != NoSession
  {
    hide SessionOpenings, ExpectedSlots, GridOf, ActualSlots, RequiredSlots, ScriptFault;
    var slots := ExpectedSlots(env.sessions, env.start, env.end, env.timeframe);
    if forall s | s in env.sessions :: env.start <= s.opens && s.closes <= env.end {
      forall s | s in env.sessions
        ensures SessionOpenings(slots, s) != []
      {
        OpeningExists(env, s);
      }
      GridOfFails(env.sessions, slots, env.exitBefore);
    }
    ScriptErrors(env, env.script);
  }

  /** A complete session has an opening. */
  lemma OpeningExists(env: Env, s: Session)
    requires Ordered(env.sessions) && s in env.sessions && env.start <= s.opens && s.closes <= env.end
    ensures SessionOpenings(ExpectedSlots(env.sessions, env.start, env.end, env.timeframe), s) != []
  {
    hide SessionOpenings, ExpectedSlots, Ascending, Strict;
    var slots := ExpectedSlots(env.sessions, env.start, env.end, env.timeframe);
    SlotsFacts(env);
    OpeningsExact(slots, s);
    FirstSlotExpected(env.sessions, s, env.start, env.end, env.timeframe);
    assert OpensAt(slots, s.opens);
    assert s.opens < s.closes by {
      var i :| 0 <= i < |env.sessions| && env.sessions[i] == s;
    }
    assert s.opens in SessionOpenings(slots, s);
  }

  lemma {:induction false} ScriptErrors(env: Env, script: seq<TradeIntent>)
    ensures ScriptFault(env, script).Some? ==> ScriptFault(env, script).value != NoSession
  {
    if script != [] {
      ScriptErrors(env, script[1..]);
    }
  }

  lemma {:induction false} FirstSlotExpected(sessions: seq<Session>, s: Session, start: Time, end: Time, timeframe: Timeframe)
    requires Ordered(sessions) && s in sessions && start <= s.opens && s.closes <= end
    ensures exists slot :: slot in ExpectedSlots(sessions, start, end, timeframe) && slot.opening == s.opens
  {
    if s == sessions[0] {
      WholeSessionTiled(s, start, end, timeframe);
      assert [sessions[0]] + sessions[1..] == sessions;
      ExpectedConcat([sessions[0]], sessions[1..], start, end, timeframe);
      assert ExpectedSlots([s], start, end, timeframe)[0] in ExpectedSlots(sessions, start, end, timeframe);
    } else {
      FirstSlotExpected(sessions[1..], s, start, end, timeframe);
      var slot :| slot in ExpectedSlots(sessions[1..], start, end, timeframe) && slot.opening == s.opens;
      assert slot in ExpectedSlots(sessions, start, end, timeframe);
    }
  }

  /** The session, opening and cutoff of a bar on the grid. */
  lemma BarSession(env: Env, grid: Grid, i: nat) returns (s: Session)
    requires GridSound(env, grid) && i < |env.bars|
    ensures s in env.sessions && InTile(grid, s, env.bars[i]) && SessionGrid(grid, s)
    ensures SessionAt(env.sessions, env.bars[i].bar.timestamp) == Some(s)
  {
    assert OnGrid(env, grid, env.bars[i]);
    s :| s in env.sessions && InTile(grid, s, env.bars[i]);
    SessionAtExact(env.sessions, env.bars[i].bar.timestamp);
  }

  // ----- bisection

  /** Right bisection finds the first opening strictly later; left bisection the first not earlier. */
  lemma {:induction false} BisectExact(openings: seq<Time>, t: Time)
    requires Strict(openings)
    ensures var right, left := BisectRight(openings, t), BisectLeft(openings, t);
            && left <= |openings| && right <= |openings|
            && (forall i | 0 <= i < right :: openings[i] <= t) && (forall i | right <= i < |openings| :: openings[i] > t)
            && (forall i | 0 <= i < left :: openings[i] < t) && (forall i | left <= i < |openings| :: openings[i] >= t)
  {
    if openings != [] {
      BisectExact(openings[1..], t);
      assert forall i | 1 <= i < |openings| :: openings[i] == openings[1..][i - 1];
    }
  }

  lemma EligibleExact(openings: seq<Time>, now: Time, forced: bool)
    requires Strict(openings)
    ensures var e := EligibleFrom(openings, now, forced);
            && (e.Some? ==> e.value in openings && (if forced then e.value >= now else e.value > now))
            && (e.Some? ==> forall t | t in openings && (if forced then t >= now else t > now) :: e.value <= t)
            && (forced && now in openings ==> e == Some(now))
            && (!forced && (exists t :: t in openings && t > now) ==> e.Some?)
  {
    BisectExact(openings, now);
  }
}
