/** Exactly which inputs a run accepts, the openings and cutoffs it then has, and which requests a strategy may make. */
module Admission {
  import opened Common
  import opened Orders
  import opened Execution
  import opened Calendars
  import opened FeatureRows
  import opened Strategies
  import opened Engine
  import opened Grids

  // ----- complete data

  ghost predicate Supplied(bars: seq<SnapshotBar>, y: Symbol, t: Time) {
    exists i :: 0 <= i < |bars| && bars[i].bar.symbol == y && bars[i].bar.timestamp == t
  }

  /** One candle for every symbol and slot, complete when the slot is, and none besides. */
  ghost predicate CompleteCandles(bars: seq<SnapshotBar>, symbols: seq<Symbol>, slots: seq<Slot>) {
    && (forall i | 0 <= i < |bars| :: bars[i].bar.symbol in symbols && Slot(bars[i].bar.timestamp, bars[i].availableAt) in slots)
    && (forall i, j | 0 <= i < j < |bars| :: bars[i].bar.symbol != bars[j].bar.symbol || bars[i].bar.timestamp != bars[j].bar.timestamp)
    && (forall y, slot | y in symbols && slot in slots :: Supplied(bars, y, slot.opening))
  }

  /** One feature row for every symbol and slot, and none besides. */
  ghost predicate CompleteRows(features: map<(Symbol, Time), FeatureRow>, symbols: seq<Symbol>, slots: seq<Slot>) {
    forall k: (Symbol, Time) :: k in features <==> k.0 in symbols && OpensAt(slots, k.1)
  }

  lemma SuppliedPush(bars: seq<SnapshotBar>, last: SnapshotBar, y: Symbol, t: Time)
    ensures Supplied(bars + [last], y, t) <==> Supplied(bars, y, t) || (last.bar.symbol == y && last.bar.timestamp == t)
  {
    var all := bars + [last];
    assert all[|bars|] == last;
    if Supplied(bars, y, t) {
      var i :| 0 <= i < |bars| && bars[i].bar.symbol == y && bars[i].bar.timestamp == t;
      assert all[i] == bars[i];
    }
    if Supplied(all, y, t) {
      var i :| 0 <= i < |all| && all[i].bar.symbol == y && all[i].bar.timestamp == t;
      assert i < |bars| ==> bars[i] == all[i];
    }
  }

  lemma {:induction false} ActualConverse(bars: seq<SnapshotBar>)
    ensures forall k :: k in ActualSlots(bars) <==> Supplied(bars, k.0, k.1)
  {
    hide Supplied;
    if bars != [] {
      var n := |bars| - 1;
      ActualConverse(bars[..n]);
      assert bars == bars[..n] + [bars[n]];
      forall k
        ensures k in ActualSlots(bars) <==> Supplied(bars, k.0, k.1)
      {
        SuppliedPush(bars[..n], bars[n], k.0, k.1);
        assert k == (k.0, k.1);
      }
    } else {
      assert forall k: (Symbol, Time) :: !Supplied(bars, k.0, k.1) by { NoneSupplied(); }
    }
  }

  lemma NoneSupplied()
    ensures forall y, t :: !Supplied([], y, t)
  {
  }

  lemma {:induction false} ActualDistinct(bars: seq<SnapshotBar>)
    requires forall i, j | 0 <= i < j < |bars| :: Key(bars[i]) != Key(bars[j])
    ensures |ActualSlots(bars)| == |bars|
  {
    hide Supplied;
    if bars != [] {
      var n := |bars| - 1;
      ActualDistinct(bars[..n]);
      ActualConverse(bars[..n]);
      Unsupplied(bars, n);
    }
  }

  lemma Unsupplied(bars: seq<SnapshotBar>, n: nat)
    requires n < |bars| && forall i, j | 0 <= i < j < |bars| :: Key(bars[i]) != Key(bars[j])
    ensures !Supplied(bars[..n], Key(bars[n]).0, Key(bars[n]).1)
  {
    assert forall i | 0 <= i < n :: bars[..n][i] == bars[i] && Key(bars[i]) != Key(bars[n]);
  }

  lemma {:induction false} SymbolConverse(symbol: Symbol, slots: seq<Slot>)
    ensures forall slot | slot in slots :: (symbol, slot.opening) in SymbolSlots(symbol, slots)
  {
    if slots != [] {
      SymbolConverse(symbol, slots[..|slots| - 1]);
      assert slots == slots[..|slots| - 1] + [slots[|slots| - 1]];
    }
  }

  lemma {:induction false} RequiredConverse(symbols: seq<Symbol>, slots: seq<Slot>)
    ensures forall y, slot | y in symbols && slot in slots :: (y, slot.opening) in RequiredSlots(symbols, slots)
  {
    hide SymbolSlots;
    if symbols != [] {
      var n := |symbols| - 1;
      RequiredConverse(symbols[..n], slots);
      SymbolConverse(symbols[n], slots);
      assert symbols == symbols[..n] + [symbols[n]];
    }
  }

  lemma SlotOf(slots: seq<Slot>, a: Slot, b: Slot)
    requires Ascending(slots) && (forall slot | slot in slots :: slot.opening < slot.closing)
    requires a in slots && b in slots && a.opening == b.opening
    ensures a == b
  {
    var i :| 0 <= i < |slots| && slots[i] == a;
    var j :| 0 <= j < |slots| && slots[j] == b;
  }

  lemma CandlesExact(bars: seq<SnapshotBar>, symbols: seq<Symbol>, slots: seq<Slot>)
    requires Ascending(slots) && forall slot | slot in slots :: slot.opening < slot.closing
    ensures ActualSlots(bars) == RequiredSlots(symbols, slots) && |ActualSlots(bars)| == |bars| <==> CompleteCandles(bars, symbols, slots)
  {
    hide ActualSlots, RequiredSlots, Ascending, Supplied;
    var actual, required := ActualSlots(bars), RequiredSlots(symbols, slots);
    ActualExact(bars);
    ActualConverse(bars);
    RequiredExact(symbols, slots);
    RequiredConverse(symbols, slots);
    if actual == required && |actual| == |bars| {
      forall i | 0 <= i < |bars|
        ensures bars[i].bar.symbol in symbols && Slot(bars[i].bar.timestamp, bars[i].availableAt) in slots
      {
        assert Key(bars[i]) in required;
      }
      forall i, j | 0 <= i < j < |bars|
        ensures bars[i].bar.symbol != bars[j].bar.symbol || bars[i].bar.timestamp != bars[j].bar.timestamp
      {
        assert Key(bars[i]) != Key(bars[j]);
      }
    }
    if CompleteCandles(bars, symbols, slots) {
      CandlesRequired(bars, symbols, slots);
    }
  }

  lemma CandlesRequired(bars: seq<SnapshotBar>, symbols: seq<Symbol>, slots: seq<Slot>)
    requires Ascending(slots) && forall slot | slot in slots :: slot.opening < slot.closing
    requires CompleteCandles(bars, symbols, slots)
    ensures ActualSlots(bars) == RequiredSlots(symbols, slots) && |ActualSlots(bars)| == |bars|
  {
    hide ActualSlots, RequiredSlots, Ascending, CompleteCandles;
    KeysDiffer(bars, symbols, slots);
    ActualDistinct(bars);
    forall k
      ensures k in ActualSlots(bars) <==> k in RequiredSlots(symbols, slots)
      ensures k in ActualSlots(bars) ==> ActualSlots(bars)[k] == RequiredSlots(symbols, slots)[k]
    {
      CandleRequired(bars, symbols, slots, k);
    }
  }

  lemma KeysDiffer(bars: seq<SnapshotBar>, symbols: seq<Symbol>, slots: seq<Slot>)
    requires CompleteCandles(bars, symbols, slots)
    ensures forall i, j | 0 <= i < j < |bars| :: Key(bars[i]) != Key(bars[j])
  {
    hide Supplied;
  }

  lemma CandleRequired(bars: seq<SnapshotBar>, symbols: seq<Symbol>, slots: seq<Slot>, k: (Symbol, Time))
    requires Ascending(slots) && forall slot | slot in slots :: slot.opening < slot.closing
    requires CompleteCandles(bars, symbols, slots) && |ActualSlots(bars)| == |bars|
    ensures k in ActualSlots(bars) <==> k in RequiredSlots(symbols, slots)
    ensures k in ActualSlots(bars) ==> ActualSlots(bars)[k] == RequiredSlots(symbols, slots)[k]
  {
    hide ActualSlots, RequiredSlots, Ascending, Supplied;
    ActualExact(bars);
    ActualConverse(bars);
    RequiredExact(symbols, slots);
    RequiredConverse(symbols, slots);
    if k in RequiredSlots(symbols, slots) {
      assert Supplied(bars, k.0, Slot(k.1, RequiredSlots(symbols, slots)[k]).opening);
    }
    if k in ActualSlots(bars) {
      var i := Suppliers(bars, k);
      assert k == (k.0, Slot(bars[i].bar.timestamp, bars[i].availableAt).opening);
      SlotOf(slots, Slot(k.1, ActualSlots(bars)[k]), Slot(k.1, RequiredSlots(symbols, slots)[k]));
    }
  }

  lemma Suppliers(bars: seq<SnapshotBar>, k: (Symbol, Time)) returns (i: nat)
    requires Supplied(bars, k.0, k.1)
    ensures i < |bars| && Key(bars[i]) == k
  {
    i :| 0 <= i < |bars| && bars[i].bar.symbol == k.0 && bars[i].bar.timestamp == k.1;
  }

  lemma RowsExact(features: map<(Symbol, Time), FeatureRow>, symbols: seq<Symbol>, slots: seq<Slot>)
    ensures features.Keys == RequiredSlots(symbols, slots).Keys <==> CompleteRows(features, symbols, slots)
  {
    hide RequiredSlots;
    var required := RequiredSlots(symbols, slots);
    RequiredExact(symbols, slots);
    RequiredConverse(symbols, slots);
    forall k: (Symbol, Time)
      ensures k in required <==> k.0 in symbols && OpensAt(slots, k.1)
    {
      if k in required {
        assert Slot(k.1, required[k]) in slots;
      }
      if k.0 in symbols && OpensAt(slots, k.1) {
        var slot :| slot in slots && slot.opening == k.1;
        assert (k.0, slot.opening) == k;
      }
    }
    if CompleteRows(features, symbols, slots) {
      assert forall k: (Symbol, Time) :: k in features <==> k in required;
    }
  }

  // ----- scripted decisions

  /** Its features are there and available, each it requires has a value, and it is made in a session. */
  ghost predicate Admissible(env: Env, intent: TradeIntent) {
    var key := (intent.symbol, intent.featureTimestamp);
    && key in env.features && env.features[key].availableAt <= intent.createdAt
    && (forall f | f in intent.requiredFeatures :: f in env.features[key].values && env.features[key].values[f].Some?)
    && exists s :: s in env.sessions && s.opens <= intent.createdAt < s.closes
  }

  lemma IntentExact(env: Env, intent: TradeIntent)
    requires Ordered(env.sessions)
    ensures IntentFault(env, intent).None? <==> Admissible(env, intent)
  {
    SessionAtExact(env.sessions, intent.createdAt);
  }

  lemma {:induction false} ScriptAdmissible(env: Env, script: seq<TradeIntent>)
    requires Ordered(env.sessions)
    ensures ScriptFault(env, script).None? <==> forall i | 0 <= i < |script| :: Admissible(env, script[i])
  {
    hide IntentFault, Admissible;
    if script != [] {
      IntentExact(env, script[0]);
      ScriptAdmissible(env, script[1..]);
      assert forall i | 1 <= i < |script| :: script[i] == script[1..][i - 1];
      if forall i | 0 <= i < |script| :: Admissible(env, script[i]) {
        forall i | 0 <= i < |script[1..]|
          ensures Admissible(env, script[1..][i])
        {
          assert script[1..][i] == script[i + 1];
        }
      }
    }
  }

  // ----- validation

  /** Whole sessions of an intraday timeframe, complete candles and rows, and admissible decisions. */
  ghost predicate Acceptable(env: Env) {
    var slots := ExpectedSlots(env.sessions, env.start, env.end, env.timeframe);
    && env.timeframe != Day1 && env.sessions != []
    && (forall s | s in env.sessions :: env.start <= s.opens && s.closes <= env.end)
    && CompleteCandles(env.bars, env.symbols, slots) && CompleteRows(env.features, env.symbols, slots)
    && forall i | 0 <= i < |env.script| :: Admissible(env, env.script[i])
  }

  /** Validation succeeds exactly on acceptable input. */
  lemma ValidationExact(env: Env)
    requires Ordered(env.sessions)
    ensures Validate(env).Ok? <==> Acceptable(env)
  {
    hide ExpectedSlots, GridOf, ActualSlots, RequiredSlots, ScriptFault, CompleteCandles, CompleteRows, Admissible, SessionOpenings;
    var slots := ExpectedSlots(env.sessions, env.start, env.end, env.timeframe);
    SlotsFacts(env);
    CandlesExact(env.bars, env.symbols, slots);
    RowsExact(env.features, env.symbols, slots);
    ScriptAdmissible(env, env.script);
    if forall s | s in env.sessions :: env.start <= s.opens && s.closes <= env.end {
      forall s | s in env.sessions
        ensures SessionOpenings(slots, s) != []
      {
        OpeningExists(env, s);
      }
      GridOfFails(env.sessions, slots, env.exitBefore);
    }
  }

  /** The openings of a session are its slots', in order, and its cutoff the first not earlier than so long before the close, or the last. */
  ghost predicate GridFor(env: Env, grid: Grid, s: Session, slots: seq<Slot>) {
    && s.opens in grid.openings && s.opens in grid.cutoffs
    && var openings, cutoff := grid.openings[s.opens], grid.cutoffs[s.opens];
       && Strict(openings) && (forall t :: t in openings <==> s.opens <= t < s.closes && OpensAt(slots, t))
       && cutoff in openings
       && (forall t | t in openings && t < cutoff :: t + env.exitBefore < s.closes)
       && (cutoff + env.exitBefore < s.closes ==> forall t | t in openings :: t <= cutoff)
  }

  lemma GridExact(env: Env, s: Session)
    requires Ordered(env.sessions) && Validate(env).Ok? && s in env.sessions
    ensures GridFor(env, Validate(env).value, s, ExpectedSlots(env.sessions, env.start, env.end, env.timeframe))
  {
    hide ExpectedSlots, GridOf, Validate, SessionOpenings, CutoffOf, Strict, OpensAt, Ascending;
    var slots := ExpectedSlots(env.sessions, env.start, env.end, env.timeframe);
    ValidateParts(env);
    SlotsFacts(env);
    GridOfExact(env.sessions, slots, env.exitBefore);
    OpeningsExact(slots, s);
    CutoffExact(SessionOpenings(slots, s), s.closes - env.exitBefore);
  }

  // ----- a strategy's requests

  /** The symbol and times of the context, before the close, under a new name. */
  ghost predicate Belongs(ctx: Context, request: Request, references: set<Reference>) {
    match request
    case Place(i) => i.symbol == ctx.bar.symbol && i.createdAt == ctx.currentTime < ctx.sessionClose && i.featureTimestamp == ctx.bar.timestamp && i.reference !in references
    case Withdraw(c) => c.symbol == ctx.bar.symbol && c.createdAt == ctx.currentTime < ctx.sessionClose && c.featureTimestamp == ctx.bar.timestamp && c.reference !in references
  }

  /** A purchase or sale needs its required features; a withdrawal names, with a reason, ordinary orders of the symbol. */
  ghost predicate Permitted(ctx: Context, request: Request, references: set<Reference>) {
    && Belongs(ctx, request, references)
    && match request
       case Place(i) => forall f | f in i.requiredFeatures :: f in ctx.features && ctx.features[f].Some?
       case Withdraw(c) =>
         && c.targets != [] && c.reason != ""
         && forall t | t in c.targets :: exists k :: 0 <= k < |ctx.orders| && ctx.orders[k].reference == t && !ctx.orders[k].forced
  }

  /** Judged with the names taken before it. */
  ghost predicate PermittedAt(ctx: Context, requests: seq<Request>, references: set<Reference>, i: nat)
    requires i < |requests|
  {
    Permitted(ctx, requests[i], references) && forall j | 0 <= j < i :: requests[j].Ref() != requests[i].Ref()
  }

  lemma KnownExact(orders: seq<OrderSnapshot>, t: Reference)
    ensures t in Known(orders) <==> exists k :: 0 <= k < |orders| && orders[k].reference == t && !orders[k].forced
  {
    if t in Known(orders) {
      var o :| o in orders && !o.forced && o.reference == t;
      var k :| 0 <= k < |orders| && orders[k] == o;
    }
  }

  lemma FaultExact(ctx: Context, request: Request, references: set<Reference>)
    ensures Fault(ctx, request, references).None? <==> Permitted(ctx, request, references)
  {
    hide Known;
    if request.Withdraw? {
      forall t | t in request.cancel.targets
        ensures t in Known(ctx.orders) <==> exists k :: 0 <= k < |ctx.orders| && ctx.orders[k].reference == t && !ctx.orders[k].forced
      {
        KnownExact(ctx.orders, t);
      }
    }
  }

  lemma FaultAt(ctx: Context, requests: seq<Request>, references: set<Reference>, i: nat)
    requires i < |requests|
    ensures Fault(ctx, requests[i], references + Refs(requests[..i])).None? <==> PermittedAt(ctx, requests, references, i)
  {
    hide Fault;
    FaultExact(ctx, requests[i], references + Refs(requests[..i]));
    assert requests[i].Ref() in Refs(requests[..i]) <==> exists j :: 0 <= j < i && requests[j].Ref() == requests[i].Ref() by {
      RefsExact(requests, i, requests[i].Ref());
    }
  }

  lemma RefsExact(requests: seq<Request>, i: nat, r: Reference)
    requires i <= |requests|
    ensures r in Refs(requests[..i]) <==> exists j :: 0 <= j < i && requests[j].Ref() == r
  {
    if r in Refs(requests[..i]) {
      var q :| q in requests[..i] && q.Ref() == r;
      var j :| 0 <= j < i && requests[..i][j] == q;
      assert requests[j].Ref() == r;
    }
    if exists j :: 0 <= j < i && requests[j].Ref() == r {
      var j :| 0 <= j < i && requests[j].Ref() == r;
      assert requests[j] in requests[..i];
    }
  }

  /**
   * A batch is released exactly if the context is proper, the symbol has an instance, the strategy replies, no more than
   * ten thousand names are taken in all, and every request is permitted.
   */
  lemma ReleasedExact<S>(plan: Plan<S>, runtime: Runtime<S>, ctx: Context)
    ensures Evaluated(plan, runtime, ctx).Ok? <==>
            && ctx.bar.timestamp < ctx.availableAt <= ctx.currentTime <= ctx.sessionClose && ctx.sessionOpen <= ctx.bar.timestamp < ctx.sessionClose
            && ctx.bar.symbol in runtime.instances
            && var reply := plan.evaluate(runtime.instances[ctx.bar.symbol], ctx);
               && reply.Ok? && |reply.value.1| + |runtime.references| <= 10_000
               && forall i: nat | i < |reply.value.1| :: PermittedAt(ctx, reply.value.1, runtime.references, i)
  {
    hide Fault, PermittedAt, Checked;
    if ctx.bar.symbol in runtime.instances {
      var reply := plan.evaluate(runtime.instances[ctx.bar.symbol], ctx);
      if reply.Ok? {
        CheckedExact(ctx, reply.value.1, runtime.references);
        forall i: nat | i < |reply.value.1|
          ensures Fault(ctx, reply.value.1[i], runtime.references + Refs(reply.value.1[..i])).None? <==> PermittedAt(ctx, reply.value.1, runtime.references, i)
        {
          FaultAt(ctx, reply.value.1, runtime.references, i);
        }
      }
    }
  }
}
