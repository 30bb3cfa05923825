/** The mutable state of one run. Every method computes what the machine of module Engine prescribes. */
module Simulations {
  import opened Common
  import opened Orders
  import opened Costs
  import opened Execution
  import opened Accounting
  import opened Portfolios
  import opened Calendars
  import opened Clock
  import opened FeatureRows
  import opened Strategies
  import opened Engine
  import opened Statistics
  import opened Metrics
  import Ledger
  import Reconciliation
  import opened Grids

  /** Selections that agree on every order select the same indexes. */
  lemma {:induction false} IndexesSame(orders: seq<SimOrder>, from: seq<nat>, f: SimOrder -> bool, g: SimOrder -> bool)
    requires InRange(from, |orders|) && forall i | i in from :: f(orders[i]) == g(orders[i])
    ensures Indexes(orders, from, f) == Indexes(orders, from, g)
  {
    if from != [] {
      IndexesSame(orders, from[1..], f, g);
    }
  }

  lemma {:induction false} IndexesAll(orders: seq<SimOrder>, from: seq<nat>, f: SimOrder -> bool)
    requires InRange(from, |orders|) && forall i | i in from :: f(orders[i])
    ensures Indexes(orders, from, f) == from
  {
    if from != [] {
      IndexesAll(orders, from[1..], f);
    }
  }

  class Simulation<S(!new)> {
    const env: Env
    const plan: Plan<S>
    const portfolio: Portfolio
    var runtime: StrategyRuntime?<S>
    var orders: seq<SimOrder>
    var fills: seq<Fill>
    var events: seq<Event>
    var equity: seq<EquityPoint>
    var prices: Prices
    var warnings: set<Warning>
    var openings: map<Time, seq<Time>>
    var cutoffs: map<Time, Time>

    ghost function State(): Sim
      reads this, portfolio
    {
      Sim(portfolio.Contents(), portfolio.peak, orders, fills, events, equity, prices, warnings)
    }

    ghost function Contents(): World<S>
      reads this, portfolio, runtime
    {
      World(State(), if runtime == null then None else Some(runtime.Contents()))
    }

    ghost function Slots(): Grid
      reads this
    {
      Grid(openings, cutoffs)
    }

    ghost predicate Valid()
      reads this, runtime
    {
      portfolio.release == env.release && (runtime != null ==> runtime.plan == plan)
    }

    constructor (env: Env, plan: Plan<S>)
      ensures this.env == env && this.plan == plan && fresh(portfolio)
      ensures Valid() && runtime == null && State() == InitialSim(env)
    {
      this.env, this.plan, this.runtime := env, plan, null;
      portfolio := new Portfolio(env.release, env.capital as real);
      orders, fills, events, equity := [], [], [], [];
      prices, warnings, openings, cutoffs := map[], env.notices, map[], map[];
    }

    method Emit(now: Time, body: EventBody)
      modifies this`events
      ensures State() == Engine.Emit(old(State()), now, body)
    {
      events := events + [Event(|events|, now, body)];
    }

    // ----- validation

    /** Fills the openings and cutoffs of every session. */
    method PrepareSessions(slots: seq<Slot>) returns (outcome: Result<()>)
      modifies this`openings, this`cutoffs
      ensures match GridOf(env.sessions, slots, env.exitBefore)
              case Ok(grid) => outcome.Ok? && Slots() == grid
              case Err(error) => outcome == Err(error)
    {
      hide SessionOpenings, CutoffOf;
      openings, cutoffs := map[], map[];
      for i := 0 to |env.sessions|
        invariant GridOf(env.sessions[..i], slots, env.exitBefore) == Ok(Slots())
      {
        var session := env.sessions[i];
        assert env.sessions[..i + 1][..i] == env.sessions[..i];
        var times := SessionOpenings(slots, session);
        if times == [] {
          GridFails(slots, i);
          return Err(NoSession);
        }
        openings := openings[session.opens := times];
        cutoffs := cutoffs[session.opens := CutoffOf(times, session.closes - env.exitBefore)];
      }
      assert env.sessions[..|env.sessions|] == env.sessions;
      outcome := Ok(());
    }

    /** A session without openings fails the whole validation. */
    lemma {:induction false} GridFails(slots: seq<Slot>, i: nat, n: nat := |env.sessions|)
      requires i < n <= |env.sessions| && SessionOpenings(slots, env.sessions[i]) == []
      requires GridOf(env.sessions[..i], slots, env.exitBefore).Ok?
      ensures GridOf(env.sessions[..n], slots, env.exitBefore) == Err(NoSession)
      ensures env.sessions[..|env.sessions|] == env.sessions
    {
      hide SessionOpenings, CutoffOf;
      assert env.sessions[..n][..n - 1] == env.sessions[..n - 1];
      if i < n - 1 {
        GridFails(slots, i, n - 1);
      }
    }

    method CheckScript() returns (fault: Option<Error>)
      ensures fault == ScriptFault(env, env.script)
    {
      hide IntentFault;
      for i := 0 to |env.script|
        invariant ScriptFault(env, env.script[i..]) == ScriptFault(env, env.script)
      {
        assert env.script[i..][1..] == env.script[i + 1..];
        fault := IntentFault(env, env.script[i]);
        if fault.Some? {
          return;
        }
      }
      fault := None;
    }

    method Validate() returns (outcome: Result<()>)
      modifies this`openings, this`cutoffs
      ensures match Engine.Validate(env)
              case Ok(grid) => outcome.Ok? && Slots() == grid
              case Err(error) => outcome == Err(error)
    {
      hide GridOf, ScriptFault, ExpectedSlots, ActualSlots, RequiredSlots;
      if env.timeframe == Day1 || env.sessions == [] {
        return Err(RunShapeRejected);
      }
      if exists s | s in env.sessions :: s.opens < env.start || s.closes > env.end {
        return Err(RunShapeRejected);
      }
      var slots := ExpectedBars(env.sessions, env.start, env.end, env.timeframe);
      var actual := ActualSlots(env.bars);
      var expected := RequiredSlots(env.symbols, slots);
      if actual != expected || |actual| != |env.bars| {
        return Err(MissingMarketData);
      }
      if env.features.Keys != expected.Keys {
        return Err(MissingFeatureRows);
      }
      var prepared := PrepareSessions(slots);
      if prepared.Err? {
        return prepared;
      }
      var fault := CheckScript();
      if fault.Some? {
        return Err(fault.value);
      }
      outcome := Ok(());
    }

    // ----- orders

    method Transition(index: nat, status: Status, now: Time, reason: Reference)
      requires index < |orders| && orders[index].Active()
      modifies this`orders, this`events
      ensures State() == Move(old(State()), index, status, now, reason)
    {
      var moved := orders[index].To(status, now, reason);
      orders := orders[index := moved.value];
      Emit(now, OrderMoved(orders[index].intent.symbol, orders[index].orderId, status, reason));
    }

    /** The loop over all orders that moves the active ones a condition picks. */
    method TransitionWhere(pick: (nat, SimOrder) -> bool, status: Status, now: Time, reason: Reference)
      modifies this`orders, this`events
      ensures State() == MoveWhere(old(State()), pick, status, now, reason, 0)
      ensures |orders| == |old(orders)|
    {
      var n := |orders|;
      for index := 0 to n
        invariant |orders| == n
        invariant MoveWhere(State(), pick, status, now, reason, index) == MoveWhere(old(State()), pick, status, now, reason, 0)
      {
        if orders[index].Active() && pick(index, orders[index]) {
          Transition(index, status, now, reason);
        }
      }
    }

    method PlaceOrder(intent: TradeIntent, now: Time, forced: bool) returns (outcome: Result<()>)
      modifies this`orders, this`events
      ensures match NewOrder(env, Slots(), old(State()), intent, now, forced)
              case Ok(st) => outcome.Ok? && State() == st
              case Err(error) => outcome == Err(error)
    {
      hide EligibleFrom, SessionAt, SimOrder.Moved;
      var session := SessionAt(env.sessions, now);
      if session.None? || session.value.opens !in openings || session.value.opens !in cutoffs {
        return Err(NoSession);
      }
      var eligible := EligibleFrom(openings[session.value.opens], now, forced);
      var order := SimOrder(|orders| + 1, intent, eligible, Created, 0, 0.0, [], forced);
      order := order.Moved(Status.Created, now,
        if forced then FORCED_EXIT else if env.strategic then Text("STRATEGY_INTENT") else Text("SCRIPTED_TEST_INTENT"));
      order := order.Moved(Status.Accepted, now, Text("SIMULATED_ONLY"));
      order := order.Moved(Pending, now, Text("WAIT_FOR_ELIGIBLE_BAR"));
      if !forced && now >= cutoffs[session.value.opens] {
        order := order.Moved(Rejected, now, Text("SESSION_EXIT_CUTOFF"));
      } else if intent.side == Sell && intent.quantity > portfolio.Quantity(intent.symbol) {
        order := order.Moved(Rejected, now, Text("INSUFFICIENT_LONG_INVENTORY"));
      }
      orders := orders + [order];
      Emit(now, OrderPlaced(intent.symbol, order.orderId, order.status, eligible));
      outcome := Ok(());
    }

    // ----- a completed bar

    /** Book one fill, move its order, cancel its one-cancels-other siblings. */
    method BookFill(index: nat, fill: Fill, turnover: real, now: Time) returns (outcome: Result<()>)
      requires Valid() && index < |orders| && orders[index].Active()
      modifies this`orders, this`events, this`fills, portfolio
      ensures match Book1(env, old(State()), index, fill, turnover, now)
              case Ok(st) => outcome.Ok? && State() == st && |orders| == |old(orders)|
              case Err(error) => outcome == Err(error)
    {
      hide Accounting.Apply, MoveWhere;
      var order := orders[index];
      var applied := portfolio.Apply(fill);
      if applied.Err? {
        return applied;
      }
      fills := fills + [fill];
      Emit(now, FillBooked(fill));
      var filled := order.(filledQuantity := order.filledQuantity + fill.quantity, executedTurnover := turnover);
      orders := orders[index := filled];
      var status := if filled.Remaining() == 0 then Filled else PartiallyFilled;
      assert orders[index := filled.Moved(status, now, fill.reason)] == old(orders)[index := AfterFill(order, fill.quantity, turnover, now, fill.reason)];
      orders := orders[index := filled.Moved(status, now, fill.reason)];
      Emit(now, OrderMoved(order.intent.symbol, order.orderId, status, fill.reason));
      if order.intent.ocoGroup.Some? {
        TransitionWhere(Siblings(index, fill.symbol, order.intent.ocoGroup.value), Cancelled, now, Text("OCO_SIBLING_FILLED"));
      }
      outcome := Ok(());
    }

    /** One visit of the fill loop: the volume left, or the error that ends the run. */
    method VisitOrder(index: nat, base: Option<real>, bar: Bar, now: Time, remainingVolume: Option<int>) returns (outcome: Result<Option<int>>)
      requires Valid() && index < |orders|
      modifies this`orders, this`events, this`fills, portfolio
      ensures match Visit(env, old(State()), index, base, bar, now, remainingVolume)
              case Ok((st, left)) => outcome == Ok(left) && State() == st && |orders| == |old(orders)|
              case Err(error) => outcome == Err(error)
    {
      hide Attempt, Book1, Cumulative, Value, ExecutionPrice, CostBreakdown.Difference, CostBreakdown.Total, SimOrder.EverTriggered, MoveWhere;
      if !orders[index].Active() || base.None? {
        return Ok(remainingVolume);
      }
      if orders[index].intent.orderType == StopMarket && !orders[index].EverTriggered() {
        Transition(index, Triggered, now, Text("STOP_REACHED"));
      }
      ghost var ready := State();
      var order := orders[index];
      var quantity := if remainingVolume.Some? then Min(order.Remaining(), remainingVolume.value) else order.Remaining();
      if quantity == 0 {
        return Ok(remainingVolume);
      }
      var attempted := AttemptFill(index, base.value, quantity, bar, now);
      if attempted.Err? {
        return Err(attempted.error);
      }
      outcome := Ok(if attempted.value && remainingVolume.Some? then Some(remainingVolume.value - quantity) else remainingVolume);
    }

    /** The pre-checks and the fill; tells whether a fill was booked. */
    method AttemptFill(index: nat, base: real, quantity: int, bar: Bar, now: Time) returns (outcome: Result<bool>)
      requires Valid() && index < |orders| && orders[index].Active()
      modifies this`orders, this`events, this`fills, portfolio
      ensures match Attempt(env, old(State()), index, base, quantity, bar, now)
              case Ok(st) => outcome == Ok(|st.fills| > |old(fills)|) && State() == st && |orders| == |old(orders)|
              case Err(error) => outcome == Err(error)
    {
      hide Cumulative, Value, ExecutionPrice, CostBreakdown.Difference, CostBreakdown.Total, Book1;
      var order := orders[index];
      var price := ExecutionPrice(order.intent, base, env.bps);
      if price <= 0.0 {
        return Err(InvalidExecutionPrice);
      }
      var previous := Cumulative(env.costs, order.intent.side, order.executedTurnover, order.forced);
      if previous.Err? {
        return Err(previous.error);
      }
      var whole := Value(order.Remaining(), price);
      var target := Cumulative(env.costs, order.intent.side, order.executedTurnover + whole, order.forced);
      if target.Err? {
        return Err(target.error);
      }
      var full := target.value.Difference(previous.value);
      if order.intent.side == Buy && whole + full.Total() > portfolio.cash {
        Transition(index, Rejected, now, Text("INSUFFICIENT_CASH_NO_LEVERAGE"));
        return Ok(false);
      }
      if order.intent.side == Sell && order.Remaining() > portfolio.Quantity(bar.symbol) {
        Transition(index, Rejected, now, Text("INSUFFICIENT_LONG_INVENTORY"));
        return Ok(false);
      }
      var cumulative := order.executedTurnover + Value(quantity, price);
      var reached := Cumulative(env.costs, order.intent.side, cumulative, order.forced);
      if reached.Err? {
        return Err(reached.error);
      }
      var costs := reached.value.Difference(previous.value);
      var reason := if order.forced then FORCED_EXIT else order.intent.reference;
      var fill := Fill(|fills| + 1, order.orderId, bar.symbol, order.intent.side, quantity, now, bar.timestamp,
                       base, price, costs, Value(quantity, Abs(price - base)), reason);
      FillCounted(State(), index, fill, cumulative, now);
      var booked := BookFill(index, fill, cumulative, now);
      if booked.Err? {
        return Err(booked.error);
      }
      outcome := Ok(true);
    }

    lemma FillCounted(st: Sim, index: nat, fill: Fill, turnover: real, now: Time)
      requires index < |st.orders| && st.orders[index].Active()
      ensures var r := Book1(env, st, index, fill, turnover, now); r.Ok? ==> |r.value.fills| == |st.fills| + 1
    {
      hide Accounting.Apply;
      forall s: Sim, pick
        ensures MoveWhere(s, pick, Cancelled, now, Text("OCO_SIBLING_FILLED"), 0).fills == s.fills
      {
        Ledger.MoveWhereExact(s, pick, Cancelled, now, Text("OCO_SIBLING_FILLED"), 0);
      }
    }

    /** Eligibility, ambiguity and priority: the orders to process, with the ambiguity warning emitted. */
    method Prioritise(bar: Bar, now: Time, cutoff: Time) returns (eligible: seq<nat>)
      modifies this`events, this`warnings
      ensures State() == Warned(old(State()), bar, cutoff, now)
      ensures eligible == Queue(old(State()), bar, cutoff)
      ensures InRange(eligible, |orders|)
    {
      hide BasePrice;
      eligible := EligibleIndexes(orders, bar, cutoff);
      EligibleInRange(orders, bar, cutoff);
      var stops := Indexes(orders, eligible, (o: SimOrder) => ReachedExit(o, bar, StopMarket));
      var limits := Indexes(orders, eligible, (o: SimOrder) => ReachedExit(o, bar, Limit));
      IndexesExact(orders, eligible, (o: SimOrder) => ReachedExit(o, bar, StopMarket));
      IndexesExact(orders, eligible, (o: SimOrder) => ReachedExit(o, bar, Limit));
      ghost var candidates := eligible;
      ghost var ambiguous := Ambiguous(State(), candidates, bar);
      ReachableBoth(candidates, bar, stops, limits);
      if stops != [] && limits != [] && portfolio.Quantity(bar.symbol) > 0 {
        warnings := warnings + {IntrabarAmbiguity};
        Emit(now, AmbiguityWarned(bar.symbol));
        eligible := Indexes(orders, eligible, (o: SimOrder) => !ReachedExit(o, bar, Limit));
      }
      SuppressionAgrees(candidates, bar, ambiguous);
      QueueInRange(old(State()), bar, cutoff);
      IndexesExact(orders, candidates, (o: SimOrder) => !(ambiguous && ReachedExit(o, bar, Limit)));
      eligible := Indexes(orders, eligible, (o: SimOrder) => ReachedExit(o, bar, StopMarket))
                  + Indexes(orders, eligible, (o: SimOrder) => !ReachedExit(o, bar, StopMarket));
    }

    lemma ReachableBoth(candidates: seq<nat>, bar: Bar, stops: seq<nat>, limits: seq<nat>)
      requires InRange(candidates, |orders|)
      requires forall i: nat :: i in stops <==> i in candidates && i < |orders| && ReachedExit(orders[i], bar, StopMarket)
      requires forall i: nat :: i in limits <==> i in candidates && i < |orders| && ReachedExit(orders[i], bar, Limit)
      ensures Ambiguous(State(), candidates, bar) <==> stops != [] && limits != [] && portfolio.Contents().Held(bar.symbol) > 0
    {
      if stops != [] {
        assert stops[0] in stops;
      }
      if limits != [] {
        assert limits[0] in limits;
      }
    }

    lemma SuppressionAgrees(candidates: seq<nat>, bar: Bar, ambiguous: bool)
      requires InRange(candidates, |orders|)
      ensures Indexes(orders, candidates, (o: SimOrder) => !(ambiguous && ReachedExit(o, bar, Limit)))
              == if ambiguous then Indexes(orders, candidates, (o: SimOrder) => !ReachedExit(o, bar, Limit)) else candidates
    {
      if ambiguous {
        IndexesSame(orders, candidates, (o: SimOrder) => !(ambiguous && ReachedExit(o, bar, Limit)),
                    (o: SimOrder) => !ReachedExit(o, bar, Limit));
      } else {
        IndexesAll(orders, candidates, (o: SimOrder) => !(ambiguous && ReachedExit(o, bar, Limit)));
      }
    }

    /** Everything a bar completion does to orders, fills and the book. */
    method ExecuteBar(item: SnapshotBar, cutoff: Time) returns (outcome: Result<()>)
      requires Valid()
      modifies this`orders, this`events, this`fills, this`warnings, portfolio
      ensures match Execute(env, old(State()), item, cutoff)
              case Ok(st) => outcome.Ok? && State() == st
              case Err(error) => outcome == Err(error)
    {
      hide Visit, Queue, BasePrice, CapacityOf, Warned;
      var bar, now := item.bar, item.availableAt;
      var reachable := orders;
      var eligible := Prioritise(bar, now, cutoff);
      ghost var warned := State();
      var remainingVolume := Capacity(env, bar);
      ghost var bases := Bases(reachable, bar);
      assert eligible[0..] == eligible;
      for n := 0 to |eligible|
        invariant |orders| == |reachable|
        invariant VisitAll(env, State(), eligible[n..], bases, bar, now, remainingVolume)
                  == VisitAll(env, warned, eligible, bases, bar, now, Capacity(env, bar))
      {
        assert eligible[n..][0] == eligible[n] && eligible[n..][1..] == eligible[n + 1..];
        var index := eligible[n];
        var visited := VisitOrder(index, BasePrice(reachable[index], bar), bar, now, remainingVolume);
        if visited.Err? {
          return Err(visited.error);
        }
        remainingVolume := visited.value;
      }
      outcome := Ok(());
    }

    method RecordEquity(now: Time) returns (outcome: Result<()>)
      modifies this`equity, this`events, portfolio`peak
      ensures match Engine.RecordEquity(old(State()), now)
              case Ok(st) => outcome.Ok? && State() == st
              case Err(error) => outcome == Err(error)
    {
      hide Accounting.Mark;
      var point := portfolio.Mark(now, prices);
      if point.Err? {
        return Err(point.error);
      }
      MarkKeepsPeak(old(portfolio.Contents()), old(portfolio.peak), now);
      equity := equity + [point.value];
      Emit(now, PortfolioMarked(point.value.equity, point.value.cash));
      outcome := Ok(());
    }

    lemma MarkKeepsPeak(book: Book, peak: real, now: Time)
      ensures Accounting.Mark(book, peak, now, prices).Ok? ==> Accounting.Mark(book, peak, now, prices).value.cash == book.cash
    {
      hide MarketValue, SumOver, Quotient;
    }

    /** Up to and including the equity point of a completed bar. */
    method SettleBar(item: SnapshotBar, cutoff: Time) returns (outcome: Result<()>)
      requires Valid()
      modifies this`orders, this`events, this`fills, this`warnings, this`prices, this`equity, portfolio
      ensures match Settled(env, old(State()), item, cutoff)
              case Ok(st) => outcome.Ok? && State() == st
              case Err(error) => outcome == Err(error)
    {
      hide Execute, Engine.RecordEquity;
      var bar, now := item.bar, item.availableAt;
      Emit(now, BarCompleted(bar.symbol, bar.timestamp));
      var executed := ExecuteBar(item, cutoff);
      if executed.Err? {
        return executed;
      }
      prices := prices[bar.symbol := bar.close];
      Emit(now, FeaturePublished(bar.symbol, bar.timestamp));
      outcome := RecordEquity(now);
    }

    // ----- the strategy

    method Serve(symbol: Symbol, now: Time, request: Request) returns (outcome: Result<()>)
      modifies this`orders, this`events
      ensures match Request1(env, Slots(), old(State()), symbol, now, request)
              case Ok(st) => outcome.Ok? && State() == st
              case Err(error) => outcome == Err(error)
    {
      hide NewOrder, MoveWhere;
      Emit(now, Decided(symbol, request.Ref(), request.FeatureTimestamp()));
      match request {
        case Withdraw(c) =>
          TransitionWhere(Targeted(symbol, c.targets), Cancelled, now, Text(c.reason));
          outcome := Ok(());
        case Place(intent) =>
          outcome := PlaceOrder(intent, now, false);
      }
    }

    method ServeAll(symbol: Symbol, now: Time, requests: seq<Request>) returns (outcome: Result<()>)
      modifies this`orders, this`events
      ensures match RequestAll(env, Slots(), old(State()), symbol, now, requests)
              case Ok(st) => outcome.Ok? && State() == st
              case Err(error) => outcome == Err(error)
    {
      hide Request1;
      assert requests[0..] == requests;
      for n := 0 to |requests|
        invariant RequestAll(env, Slots(), State(), symbol, now, requests[n..]) == RequestAll(env, Slots(), old(State()), symbol, now, requests)
        invariant Slots() == old(Slots())
      {
        assert requests[n..][0] == requests[n] && requests[n..][1..] == requests[n + 1..];
        outcome := Serve(symbol, now, requests[n]);
        if outcome.Err? {
          return;
        }
      }
      outcome := Ok(());
    }

    /** Show the strategy its view of the candle, and serve what it asks for. */
    method EvaluateStrategy(item: SnapshotBar, session: Session, cutoff: Time) returns (outcome: Result<()>)
      requires Valid()
      modifies this`orders, this`events, runtime
      ensures Valid()
      ensures match Engine.EvaluateStrategy(env, Slots(), plan, old(Contents()), item, session, cutoff)
              case Ok(w) => outcome.Ok? && Contents() == w
              case Err(error) => outcome == Err(error)
    {
      hide Evaluated, RequestAll, Snapshots, Position.AveragePrice;
      if runtime == null {
        return Ok(());
      }
      var bar, now := item.bar, item.availableAt;
      if (bar.symbol, bar.timestamp) !in env.features || equity == [] {
        return Err(UnknownSymbol);
      }
      var row := env.features[(bar.symbol, bar.timestamp)];
      if row.availableAt > now {
        return Err(FeatureLate);
      }
      var position := portfolio.PositionOf(bar.symbol);
      var context := Context(now, bar, if now >= row.availableAt then now else row.availableAt,
        row.values, row.unavailable.Keys, position.quantity, position.AveragePrice(), portfolio.cash,
        equity[|equity| - 1].equity, session.opens, session.closes, Snapshots(orders, bar.symbol), Some(cutoff));
      assert context == ContextOf(State(), item, row, session, cutoff);
      ghost var before := runtime.Contents();
      var intents := runtime.Evaluate(context);
      if intents.Err? {
        return Err(intents.error);
      }
      Emit(now, StrategyRan(bar.symbol, bar.timestamp, context.availableAt, |intents.value|));
      outcome := ServeAll(bar.symbol, now, intents.value);
    }

    method Complete(item: SnapshotBar) returns (outcome: Result<()>)
      requires Valid()
      modifies this`orders, this`events, this`fills, this`warnings, this`prices, this`equity, portfolio, runtime
      ensures Valid()
      ensures match Engine.Complete(env, Slots(), plan, old(Contents()), item)
              case Ok(w) => outcome.Ok? && Contents() == w
              case Err(error) => outcome == Err(error)
    {
      hide Settled, Engine.EvaluateStrategy;
      var session := SessionAt(env.sessions, item.bar.timestamp);
      if session.None? || session.value.opens !in cutoffs {
        return Err(NoSession);
      }
      var cutoff := cutoffs[session.value.opens];
      outcome := SettleBar(item, cutoff);
      if outcome.Ok? {
        outcome := EvaluateStrategy(item, session.value, cutoff);
      }
    }

    // ----- the other ticks

    method Decide(intent: TradeIntent, now: Time) returns (outcome: Result<()>)
      modifies this`orders, this`events
      ensures match Engine.Decide(env, Slots(), old(State()), intent, now)
              case Ok(st) => outcome.Ok? && State() == st
              case Err(error) => outcome == Err(error)
    {
      hide NewOrder;
      Emit(now, Decided(intent.symbol, intent.reference, intent.featureTimestamp));
      outcome := PlaceOrder(intent, now, false);
    }

    /** A bar opens; at its session's cutoff a held symbol is handed over to a liquidation. */
    method OpenBar(item: SnapshotBar) returns (outcome: Result<()>)
      modifies this`orders, this`events, this`warnings
      ensures match Engine.OpenBar(env, Slots(), old(State()), item)
              case Ok(st) => outcome.Ok? && State() == st
              case Err(error) => outcome == Err(error)
    {
      hide NewOrder, MoveWhere;
      var symbol, now := item.bar.symbol, item.bar.timestamp;
      Emit(now, BarOpened(symbol, item.bar.open));
      var session := SessionAt(env.sessions, now);
      if session.None? || session.value.opens !in cutoffs {
        return Err(NoSession);
      }
      if now != cutoffs[session.value.opens] {
        return Ok(());
      }
      var quantity := portfolio.Quantity(symbol);
      if quantity == 0 {
        return Ok(());
      }
      TransitionWhere(OfSymbol(symbol), Cancelled, now, Text("SESSION_EXIT_CUTOFF"));
      warnings := warnings + {ForcedSessionExit};
      var intent := Validated(ForcedIntent(symbol, quantity, now));
      if intent.Err? {
        return Err(intent.error);
      }
      outcome := PlaceOrder(intent.value, now, true);
    }

    method OpenSession(now: Time) returns (outcome: Result<()>)
      modifies this`equity, this`events, portfolio`peak
      ensures match Engine.OpenSession(old(State()), now)
              case Ok(st) => outcome.Ok? && State() == st
              case Err(error) => outcome == Err(error)
    {
      hide Engine.RecordEquity;
      Emit(now, SessionOpened);
      if equity == [] {
        return Err(UnknownSymbol);
      }
      if equity[|equity| - 1].timestamp != now {
        outcome := RecordEquity(now);
      } else {
        outcome := Ok(());
      }
    }

    method CloseSession(now: Time) returns (outcome: Result<()>)
      modifies this`orders, this`equity, this`events, portfolio`peak
      ensures match Engine.CloseSession(old(State()), now)
              case Ok(st) => outcome.Ok? && State() == st
              case Err(error) => outcome == Err(error)
    {
      hide Engine.RecordEquity, MoveWhere, AnyHeld;
      Emit(now, SessionClosed);
      TransitionWhere(Anyone(), Expired, now, Text("DAY_SESSION_ENDED"));
      ghost var book := portfolio.Contents();
      var held := AnyHeld(Book(portfolio.cash, portfolio.positions, portfolio.realized, portfolio.fees,
                               portfolio.cashSpent, portfolio.cashReceived, portfolio.trades));
      if held {
        return Err(ForcedExitIncomplete);
      }
      outcome := RecordEquity(now);
    }

    method Advance(tick: Tick) returns (outcome: Result<()>)
      requires Valid()
      modifies this`orders, this`events, this`fills, this`warnings, this`prices, this`equity, portfolio, runtime
      ensures Valid()
      ensures match Step(env, Slots(), plan, old(Contents()), tick)
              case Ok(w) => outcome.Ok? && Contents() == w
              case Err(error) => outcome == Err(error)
    {
      hide Engine.Complete, Engine.Decide, Engine.OpenBar, Engine.OpenSession, Engine.CloseSession;
      match tick.kind {
        case BarComplete =>
          if tick.index >= |env.bars| {
            return Err(UnknownSymbol);
          }
          outcome := Complete(env.bars[tick.index]);
        case Decision =>
          if tick.index >= |env.script| {
            return Err(UnknownSymbol);
          }
          outcome := Decide(env.script[tick.index], tick.timestamp);
        case BarOpen =>
          if tick.index >= |env.bars| {
            return Err(UnknownSymbol);
          }
          outcome := OpenBar(env.bars[tick.index]);
        case SessionOpen => outcome := OpenSession(tick.timestamp);
        case SessionClose => outcome := CloseSession(tick.timestamp);
      }
    }

    // ----- the whole run

    /** A failed tick fails every later state. */
    lemma {:induction false} FailureStays(grid: Grid, k: nat, n: nat, error: Error)
      requires env.sessions != [] && k <= n <= |Ticks(env)| && After(env, grid, plan, k) == Err(error)
      ensures After(env, grid, plan, n) == Err(error)
    {
      hide Step, Timeline;
      if k < n {
        FailureStays(grid, k, n - 1, error);
      }
    }

    /** The whole run: the machine's final state, or the machine's error. */
    method Run() returns (outcome: Result<()>)
      requires Valid() && runtime == null && State() == InitialSim(env)
      modifies this, portfolio
      ensures match Engine.Run(env, plan)
              case Ok(w) => outcome.Ok? && Contents() == w
              case Err(error) => outcome == Err(error)
    {
      hide Step, Engine.RecordEquity, Timeline, Started, Engine.Validate, InitialSim;
      if env.strategic && env.script != [] {
        return Err(DecisionsExclusive);
      }
      var validated := Validate();
      if validated.Err? {
        return validated;
      }
      if env.sessions == [] {
        return Err(RunShapeRejected);
      }
      if env.strategic {
        runtime := new StrategyRuntime(plan, env.symbols);
      }
      var begun := RecordEquity(env.sessions[0].opens);
      ghost var grid := Slots();
      var ticks := BuildTimeline(env.bars, env.sessions, env.script);
      if begun.Err? {
        FailureStays(grid, 0, |ticks|, begun.error);
        return begun;
      }
      outcome := Follow(ticks);
    }

    /** Every tick in turn, up to the first that raises. */
    method Follow(ticks: seq<Tick>) returns (outcome: Result<()>)
      requires Valid() && env.sessions != [] && ticks == Ticks(env)
      requires After(env, Slots(), plan, 0) == Ok(Contents())
      modifies this`orders, this`events, this`fills, this`warnings, this`prices, this`equity, portfolio, runtime
      ensures Valid()
      ensures match After(env, old(Slots()), plan, |ticks|)
              case Ok(w) => outcome.Ok? && Contents() == w
              case Err(error) => outcome == Err(error)
    {
      hide Step, Timeline, Ticks;
      ghost var grid := Slots();
      for k := 0 to |ticks|
        invariant Valid() && Slots() == grid
        invariant After(env, grid, plan, k) == Ok(Contents())
      {
        var advanced := Advance(ticks[k]);
        if advanced.Err? {
          FailureStays(grid, k + 1, |ticks|, advanced.error);
          return advanced;
        }
      }
      outcome := Ok(());
    }

    /** Run, then report on the curve, the fills and the trades the run left behind. */
    method RunAndReport(root: real -> real) returns (outcome: Result<Report>)
      requires Separated(env.sessions) && IsRoot(root)
      requires Valid() && runtime == null && State() == InitialSim(env)
      modifies this, portfolio
      ensures Engine.Run(env, plan).Err? ==> outcome == Err(Engine.Run(env, plan).error)
      ensures Engine.Run(env, plan).Ok? ==>
                var st := Engine.Run(env, plan).value.sim;
                && State() == st
                && st.equity != []
                && (outcome.Ok? <==> !ZeroBase(st.equity[0].equity, st.equity[1..]))
                && (outcome.Ok? ==>
                      && Reported(root, st.equity, st.fills, st.book.trades, outcome.value)
                      && outcome.value.netPnl == Sum(st.book.trades, NetOf) == Sum(outcome.value.dailyPnl, Amount)
                      && outcome.value.grossPnl == Sum(st.fills, SellBase) - Sum(st.fills, BuyBase))
    {
      hide Engine.Run, Reported, ZeroBase;
      var ran := Run();
      if ran.Err? {
        return Err(ran.error);
      }
      Reconciliation.CompletedRun(env, plan);
      outcome := Performance(root, equity, fills, portfolio.trades);
      if outcome.Ok? {
        Reconciliation.ReportReconciles(env, plan, root, outcome.value);
      }
    }
  }
}
