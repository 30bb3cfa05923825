/**
 * The backtest simulator as a pure machine: a state, one function per operation of the simulation, one
 * step per clock tick, and the state after any number of ticks. Class Simulation computes exactly this.
 */
module Engine {
  import opened Common
  import opened Orders
  import opened Costs
  import opened Execution
  import opened Accounting
  import opened Calendars
  import opened Clock
  import opened FeatureRows
  import opened Strategies

  datatype EventBody =
    | SessionOpened
    | SessionClosed
    | BarOpened(symbol: Symbol, open: real)
    | BarCompleted(symbol: Symbol, opening: Time)
    | FeaturePublished(symbol: Symbol, opening: Time)
    | Decided(symbol: Symbol, reference: Reference, featureTimestamp: Time)
    | StrategyRan(symbol: Symbol, featureTimestamp: Time, availableAt: Time, intentCount: nat)
    | OrderPlaced(symbol: Symbol, orderId: nat, status: Status, eligibleFrom: Option<Time>)
    | OrderMoved(symbol: Symbol, orderId: nat, status: Status, reason: Reference)
    | FillBooked(fill: Fill)
    | PortfolioMarked(equity: real, cash: real)
    | AmbiguityWarned(symbol: Symbol)

  datatype Event = Event(sequence: nat, timestamp: Time, body: EventBody)

  datatype Warning = IntrabarAmbiguity | ForcedSessionExit | Notice(text: string)

  /** Configuration bounds: positive capital, and a participation rate in (0, 1]. */
  type Capital = c: real | c > 0.0 witness 1.0
  type Rate = r: real | 0.0 < r <= 1.0 witness 1.0

  /** Everything a run is given: market data, calendar, configuration, decisions and models. */
  datatype Env = Env(
    bars: seq<SnapshotBar>,
    features: map<(Symbol, Time), FeatureRow>,
    symbols: seq<Symbol>,
    sessions: seq<Session>,
    start: Time,
    end: Time,
    timeframe: Timeframe,
    capital: Capital,
    participation: Option<Rate>,
    exitBefore: Time,
    script: seq<TradeIntent>,
    strategic: bool,
    notices: set<Warning>,
    costs: CostModel,
    bps: Bps,
    release: Release)

  /** Per session, keyed by its opening: the bar openings and the exit cutoff. */
  datatype Grid = Grid(openings: map<Time, seq<Time>>, cutoffs: map<Time, Time>)

  datatype Sim = Sim(
    book: Book, peak: real, orders: seq<SimOrder>, fills: seq<Fill>, events: seq<Event>,
    equity: seq<EquityPoint>, prices: Prices, warnings: set<Warning>)

  datatype World<S> = World(sim: Sim, runtime: Option<Runtime<S>>)

  // ----- validation

  /** Keys of the stored candles; a repeated key is stored once, as in a dictionary. */
  function ActualSlots(bars: seq<SnapshotBar>): map<(Symbol, Time), Time> {
    if bars == [] then map[]
    else
      var last := bars[|bars| - 1];
      ActualSlots(bars[..|bars| - 1])[(last.bar.symbol, last.bar.timestamp) := last.availableAt]
  }

  function SymbolSlots(symbol: Symbol, slots: seq<Slot>): map<(Symbol, Time), Time> {
    if slots == [] then map[]
    else
      var last := slots[|slots| - 1];
      SymbolSlots(symbol, slots[..|slots| - 1])[(symbol, last.opening) := last.closing]
  }

  function RequiredSlots(symbols: seq<Symbol>, slots: seq<Slot>): map<(Symbol, Time), Time> {
    if symbols == [] then map[]
    else RequiredSlots(symbols[..|symbols| - 1], slots) + SymbolSlots(symbols[|symbols| - 1], slots)
  }

  /** sorted(t for t in slots if opens <= t < closes); the slots are listed in time order already. */
  function SessionOpenings(slots: seq<Slot>, session: Session): seq<Time> {
    if slots == [] then []
    else (if session.opens <= slots[0].opening < session.closes then [slots[0].opening] else [])
         + SessionOpenings(slots[1..], session)
  }

  /** The first opening at or after the desired instant, else the last opening. */
  function CutoffOf(openings: seq<Time>, desired: Time): Time
    requires openings != []
  {
    if openings[0] >= desired || |openings| == 1 then openings[0] else CutoffOf(openings[1..], desired)
  }

  function GridOf(sessions: seq<Session>, slots: seq<Slot>, exitBefore: Time): Result<Grid> {
    if sessions == [] then Ok(Grid(map[], map[]))
    else
      var grid :- GridOf(sessions[..|sessions| - 1], slots, exitBefore);
      var session := sessions[|sessions| - 1];
      var openings := SessionOpenings(slots, session);
      if openings == [] then Err(NoSession)
      else Ok(Grid(grid.openings[session.opens := openings],
                   grid.cutoffs[session.opens := CutoffOf(openings, session.closes - exitBefore)]))
  }

  function SessionAt(sessions: seq<Session>, t: Time): Option<Session> {
    if sessions == [] then None
    else if sessions[0].opens <= t < sessions[0].closes then Some(sessions[0])
    else SessionAt(sessions[1..], t)
  }

  function IntentFault(env: Env, intent: TradeIntent): Option<Error> {
    var key := (intent.symbol, intent.featureTimestamp);
    if key !in env.features || env.features[key].availableAt > intent.createdAt then Some(DecisionFeatureUnavailable)
    else if exists f | f in intent.requiredFeatures ::
      (f !in env.features[key].values || env.features[key].values[f].None?) then Some(DecisionFeatureUnavailable)
    else if SessionAt(env.sessions, intent.createdAt).None? then Some(DecisionOutsideSessions)
    else None
  }

  function ScriptFault(env: Env, script: seq<TradeIntent>): Option<Error> {
    if script == [] then None
    else match IntentFault(env, script[0])
      case Some(error) => Some(error)
      case None => ScriptFault(env, script[1..])
  }

  function Validate(env: Env): Result<Grid> {
    if env.timeframe == Day1 || env.sessions == [] then Err(RunShapeRejected)
    else if exists s | s in env.sessions :: s.opens < env.start || s.closes > env.end then Err(RunShapeRejected)
    else
      var slots := ExpectedSlots(env.sessions, env.start, env.end, env.timeframe);
      var actual := ActualSlots(env.bars);
      var required := RequiredSlots(env.symbols, slots);
      if actual != required || |actual| != |env.bars| then Err(MissingMarketData)
      else if env.features.Keys != required.Keys then Err(MissingFeatureRows)
      else
        var grid :- GridOf(env.sessions, slots, env.exitBefore);
        match ScriptFault(env, env.script)
        case Some(error) => Err(error)
        case None => Ok(grid)
  }

  // ----- events and order transitions

  function Emit(st: Sim, now: Time, body: EventBody): Sim {
    st.(events := st.events + [Event(|st.events|, now, body)])
  }

  /** Simulation.transition of an active order. */
  function Move(st: Sim, index: nat, status: Status, now: Time, reason: Reference): Sim
    requires index < |st.orders| && st.orders[index].Active()
  {
    var moved := st.orders[index].Moved(status, now, reason);
    Emit(st.(orders := st.orders[index := moved]), now, OrderMoved(moved.intent.symbol, moved.orderId, status, reason))
  }

  /** The loop "for index, order in enumerate(orders): if active and ...: transition(...)", from an index on. */
  function MoveWhere(st: Sim, pick: (nat, SimOrder) -> bool, status: Status, now: Time, reason: Reference, from: nat): Sim
    decreases |st.orders| - from
  {
    if from >= |st.orders| then st
    else
      var next := if st.orders[from].Active() && pick(from, st.orders[from]) then Move(st, from, status, now, reason) else st;
      MoveWhere(next, pick, status, now, reason, from + 1)
  }

  // ----- new orders

  function BisectLeft(openings: seq<Time>, t: Time): nat {
    if openings == [] || openings[0] >= t then 0 else 1 + BisectLeft(openings[1..], t)
  }

  function BisectRight(openings: seq<Time>, t: Time): nat {
    if openings == [] || openings[0] > t then 0 else 1 + BisectRight(openings[1..], t)
  }

  /** The order a request becomes, already through CREATED, ACCEPTED and PENDING, or REJECTED. */
  function MadeOrder(env: Env, intent: TradeIntent, id: nat, eligible: Option<Time>, now: Time, forced: bool,
                    pastCutoff: bool, held: int): SimOrder
  {
    var made := SimOrder(id, intent, eligible, Created, 0, 0.0, [], forced);
    var pending := made
      .Moved(Status.Created, now, if forced then FORCED_EXIT else if env.strategic then Text("STRATEGY_INTENT") else Text("SCRIPTED_TEST_INTENT"))
      .Moved(Status.Accepted, now, Text("SIMULATED_ONLY"))
      .Moved(Pending, now, Text("WAIT_FOR_ELIGIBLE_BAR"));
    if !forced && pastCutoff then pending.Moved(Rejected, now, Text("SESSION_EXIT_CUTOFF"))
    else if intent.side == Sell && intent.quantity > held then pending.Moved(Rejected, now, Text("INSUFFICIENT_LONG_INVENTORY"))
    else pending
  }

  /** Where an order becomes eligible: the next opening, strictly later unless it is forced. */
  function EligibleFrom(openings: seq<Time>, now: Time, forced: bool): Option<Time> {
    var index := if forced then BisectLeft(openings, now) else BisectRight(openings, now);
    if index < |openings| then Some(openings[index]) else None
  }

  function NewOrder(env: Env, grid: Grid, st: Sim, intent: TradeIntent, now: Time, forced: bool): Result<Sim> {
    match SessionAt(env.sessions, now)
    case None => Err(NoSession)
    case Some(session) =>
      if session.opens !in grid.openings || session.opens !in grid.cutoffs then Err(NoSession)
      else
        var eligible := EligibleFrom(grid.openings[session.opens], now, forced);
        var order := MadeOrder(env, intent, |st.orders| + 1, eligible, now, forced,
                              now >= grid.cutoffs[session.opens], st.book.Held(intent.symbol));
        Ok(Emit(st.(orders := st.orders + [order]), now,
                OrderPlaced(intent.symbol, order.orderId, order.status, eligible)))
  }

  // ----- a completed bar

  /** Eligibility for a bar, apart from being active. */
  predicate MayFill(order: SimOrder, bar: Bar, cutoff: Time) {
    && order.intent.symbol == bar.symbol
    && order.eligibleFrom.Some? && order.eligibleFrom.value <= bar.timestamp
    && (order.forced || bar.timestamp < cutoff)
  }

  function EligibleIndexes(orders: seq<SimOrder>, bar: Bar, cutoff: Time): seq<nat> {
    if orders == [] then []
    else
      var n := |orders| - 1;
      EligibleIndexes(orders[..n], bar, cutoff) + if orders[n].Active() && MayFill(orders[n], bar, cutoff) then [n] else []
  }

  predicate ReachedExit(order: SimOrder, bar: Bar, orderType: OrderType) {
    order.intent.side == Sell && order.intent.orderType == orderType && BasePrice(order, bar).Some?
  }

  predicate InRange(indexes: seq<nat>, n: nat) { forall k | 0 <= k < |indexes| :: indexes[k] < n }

  function Indexes(orders: seq<SimOrder>, from: seq<nat>, keep: SimOrder -> bool): seq<nat>
    requires InRange(from, |orders|)
  {
    if from == [] then []
    else (if keep(orders[from[0]]) then [from[0]] else []) + Indexes(orders, from[1..], keep)
  }

  lemma {:induction false} EligibleInRange(orders: seq<SimOrder>, bar: Bar, cutoff: Time)
    ensures InRange(EligibleIndexes(orders, bar, cutoff), |orders|)
    ensures forall i: nat :: i in EligibleIndexes(orders, bar, cutoff) <==>
              i < |orders| && orders[i].Active() && MayFill(orders[i], bar, cutoff)
  {
    if orders != [] {
      var n := |orders| - 1;
      EligibleInRange(orders[..n], bar, cutoff);
      assert forall i: nat | i < n :: orders[..n][i] == orders[i];
    }
  }

  lemma {:induction false} IndexesExact(orders: seq<SimOrder>, from: seq<nat>, keep: SimOrder -> bool)
    requires InRange(from, |orders|)
    ensures InRange(Indexes(orders, from, keep), |orders|)
    ensures forall i: nat :: i in Indexes(orders, from, keep) <==> i in from && i < |orders| && keep(orders[i])
  {
    if from != [] {
      IndexesExact(orders, from[1..], keep);
      assert forall i: nat :: i in from <==> i == from[0] || i in from[1..];
    }
  }

  /** A stop and a favourable limit of a held position are both in reach of the bar. */
  predicate Ambiguous(st: Sim, eligible: seq<nat>, bar: Bar)
    requires InRange(eligible, |st.orders|)
  {
    && (exists i: nat | i in eligible && i < |st.orders| :: ReachedExit(st.orders[i], bar, StopMarket))
    && (exists i: nat | i in eligible && i < |st.orders| :: ReachedExit(st.orders[i], bar, Limit))
    && st.book.Held(bar.symbol) > 0
  }

  /** The processing order: reached exit stops first, reached exit limits dropped if ambiguous, else by index. */
  function Queue(st: Sim, bar: Bar, cutoff: Time): seq<nat>
  {
    var eligible := EligibleIndexes(st.orders, bar, cutoff);
    EligibleInRange(st.orders, bar, cutoff);
    var ambiguous := Ambiguous(st, eligible, bar);
    var allowed := Indexes(st.orders, eligible, (o: SimOrder) => !(ambiguous && ReachedExit(o, bar, Limit)));
    IndexesExact(st.orders, eligible, (o: SimOrder) => !(ambiguous && ReachedExit(o, bar, Limit)));
    Indexes(st.orders, allowed, (o: SimOrder) => ReachedExit(o, bar, StopMarket))
    + Indexes(st.orders, allowed, (o: SimOrder) => !ReachedExit(o, bar, StopMarket))
  }

  /** Shares of the bar that all orders of the symbol may take together. */
  function Capacity(env: Env, bar: Bar): Option<int> { CapacityOf(env.participation, bar.volume) }

  function CapacityOf(participation: Option<Rate>, volume: nat): Option<int> {
    match participation
    case None => None
    case Some(rate) => Some((volume as real * rate).Floor)
  }

  function Siblings(index: nat, symbol: Symbol, group: Reference): (nat, SimOrder) -> bool {
    (other: nat, o: SimOrder) => other != index && o.intent.symbol == symbol && o.intent.ocoGroup == Some(group)
  }

  /** An order after a fill: quantities and the status they imply. */
  function AfterFill(order: SimOrder, quantity: int, turnover: real, now: Time, reason: Reference): SimOrder {
    var filled := order.(filledQuantity := order.filledQuantity + quantity, executedTurnover := turnover);
    filled.Moved(if filled.Remaining() == 0 then Filled else PartiallyFilled, now, reason)
  }

  /** Apply, record and publish one fill, move its order, and cancel its one-cancels-other siblings. */
  function Book1(env: Env, st: Sim, index: nat, fill: Fill, turnover: real, now: Time): Result<Sim>
    requires index < |st.orders| && st.orders[index].Active()
  {
    var order := st.orders[index];
    var book :- Apply(env.release, st.book, fill);
    var published := Emit(st.(book := book, fills := st.fills + [fill]), now, FillBooked(fill));
    var after := AfterFill(order, fill.quantity, turnover, now, fill.reason);
    var moved := Emit(published.(orders := st.orders[index := after]), now,
                      OrderMoved(order.intent.symbol, order.orderId, after.status, fill.reason));
    match order.intent.ocoGroup
    case None => Ok(moved)
    case Some(group) =>
      Ok(MoveWhere(moved, Siblings(index, fill.symbol, group), Cancelled, now, Text("OCO_SIBLING_FILLED"), 0))
  }

  /** STOP_MARKET orders record their trigger the first time they are reached. */
  function Triggering(st: Sim, index: nat, now: Time): Sim
    requires index < |st.orders| && st.orders[index].Active()
  {
    if st.orders[index].intent.orderType == StopMarket && !st.orders[index].EverTriggered() then
      Move(st, index, Triggered, now, Text("STOP_REACHED"))
    else st
  }

  /** The cash and inventory pre-checks on the whole remaining quantity, then the fill of what volume allows. */
  function Attempt(env: Env, st: Sim, index: nat, base: real, quantity: int, bar: Bar, now: Time): Result<Sim>
    requires index < |st.orders| && st.orders[index].Active()
  {
    var order := st.orders[index];
    var intent := order.intent;
    var price := ExecutionPrice(intent, base, env.bps);
    if price <= 0.0 then Err(InvalidExecutionPrice)
    else
      var previous :- Cumulative(env.costs, intent.side, order.executedTurnover, order.forced);
      var whole := Value(order.Remaining(), price);
      var target :- Cumulative(env.costs, intent.side, order.executedTurnover + whole, order.forced);
      if intent.side == Buy && whole + target.Difference(previous).Total() > st.book.cash then
        Ok(Move(st, index, Rejected, now, Text("INSUFFICIENT_CASH_NO_LEVERAGE")))
      else if intent.side == Sell && order.Remaining() > st.book.Held(bar.symbol) then
        Ok(Move(st, index, Rejected, now, Text("INSUFFICIENT_LONG_INVENTORY")))
      else
        var turnover := order.executedTurnover + Value(quantity, price);
        var reached :- Cumulative(env.costs, intent.side, turnover, order.forced);
        var fill := Fill(|st.fills| + 1, order.orderId, bar.symbol, intent.side, quantity, now, bar.timestamp,
                         base, price, reached.Difference(previous), Value(quantity, Abs(price - base)),
                         if order.forced then FORCED_EXIT else intent.reference);
        Book1(env, st, index, fill, turnover, now)
  }

  /** One visit of the loop over eligible orders: the new state and the volume left. */
  function Visit(env: Env, st: Sim, index: nat, base: Option<real>, bar: Bar, now: Time, left: Option<int>): Result<(Sim, Option<int>)>
    requires index < |st.orders|
  {
    if !st.orders[index].Active() || base.None? then Ok((st, left))
    else
      var ready := Triggering(st, index, now);
      var remaining := ready.orders[index].Remaining();
      var quantity := if left.Some? then Min(remaining, left.value) else remaining;
      if quantity == 0 then Ok((ready, left))
      else
        var next :- Attempt(env, ready, index, base.value, quantity, bar, now);
        var filled := |next.fills| > |ready.fills|;
        Ok((next, if filled && left.Some? then Some(left.value - quantity) else left))
  }

  lemma {:induction false} MoveWhereLength(st: Sim, pick: (nat, SimOrder) -> bool, status: Status, now: Time, reason: Reference, from: nat)
    ensures |MoveWhere(st, pick, status, now, reason, from).orders| == |st.orders|
    decreases |st.orders| - from
  {
    if from < |st.orders| {
      var next := if st.orders[from].Active() && pick(from, st.orders[from]) then Move(st, from, status, now, reason) else st;
      MoveWhereLength(next, pick, status, now, reason, from + 1);
    }
  }

  lemma VisitLength(env: Env, st: Sim, index: nat, base: Option<real>, bar: Bar, now: Time, left: Option<int>)
    requires index < |st.orders|
    ensures var r := Visit(env, st, index, base, bar, now, left); r.Ok? ==> |r.value.0.orders| == |st.orders|
  {
    hide Cumulative, Value, ExecutionPrice, Apply;
    if st.orders[index].Active() && base.Some? {
      var ready := Triggering(st, index, now);
      forall s: Sim, pick | |s.orders| == |ready.orders|
        ensures |MoveWhere(s, pick, Cancelled, now, Text("OCO_SIBLING_FILLED"), 0).orders| == |ready.orders|
      {
        MoveWhereLength(s, pick, Cancelled, now, Text("OCO_SIBLING_FILLED"), 0);
      }
    }
  }

  /** The loop over the queue; base prices were fixed from the orders as they stood before it. */
  function VisitAll(env: Env, st: Sim, queue: seq<nat>, bases: nat -> Option<real>, bar: Bar, now: Time, left: Option<int>): Result<Sim>
    requires InRange(queue, |st.orders|)
    decreases queue
  {
    if queue == [] then Ok(st)
    else
      var (next, rest) :- Visit(env, st, queue[0], bases(queue[0]), bar, now, left);
      VisitLength(env, st, queue[0], bases(queue[0]), bar, now, left);
      VisitAll(env, next, queue[1..], bases, bar, now, rest)
  }

  function Bases(orders: seq<SimOrder>, bar: Bar): nat -> Option<real> {
    (i: nat) => if i < |orders| then BasePrice(orders[i], bar) else None
  }

  function Warned(st: Sim, bar: Bar, cutoff: Time, now: Time): Sim {
    EligibleInRange(st.orders, bar, cutoff);
    if Ambiguous(st, EligibleIndexes(st.orders, bar, cutoff), bar) then
      Emit(st.(warnings := st.warnings + {IntrabarAmbiguity}), now, AmbiguityWarned(bar.symbol))
    else st
  }

  lemma QueueInRange(st: Sim, bar: Bar, cutoff: Time)
    ensures InRange(Queue(st, bar, cutoff), |st.orders|)
    ensures forall i: nat | i in Queue(st, bar, cutoff) :: i < |st.orders| && st.orders[i].Active() && MayFill(st.orders[i], bar, cutoff)
  {
    var eligible := EligibleIndexes(st.orders, bar, cutoff);
    EligibleInRange(st.orders, bar, cutoff);
    var ambiguous := Ambiguous(st, eligible, bar);
    var keep := (o: SimOrder) => !(ambiguous && ReachedExit(o, bar, Limit));
    var allowed := Indexes(st.orders, eligible, keep);
    IndexesExact(st.orders, eligible, keep);
    IndexesExact(st.orders, allowed, (o: SimOrder) => ReachedExit(o, bar, StopMarket));
    IndexesExact(st.orders, allowed, (o: SimOrder) => !ReachedExit(o, bar, StopMarket));
  }

  /** Everything a bar completion does to orders, fills and the book. */
  function Execute(env: Env, st: Sim, item: SnapshotBar, cutoff: Time): Result<Sim> {
    var bar, now := item.bar, item.availableAt;
    QueueInRange(st, bar, cutoff);
    VisitAll(env, Warned(st, bar, cutoff, now), Queue(st, bar, cutoff), Bases(st.orders, bar), bar, now, Capacity(env, bar))
  }

  ghost function RecordEquity(st: Sim, now: Time): Result<Sim> {
    var point :- Mark(st.book, st.peak, now, st.prices);
    Ok(Emit(st.(equity := st.equity + [point], peak := point.peak), now, PortfolioMarked(point.equity, point.cash)))
  }

  /** Bar completion up to and including the equity point; the strategy is evaluated after it. */
  ghost function Settled(env: Env, st: Sim, item: SnapshotBar, cutoff: Time): Result<Sim> {
    var bar, now := item.bar, item.availableAt;
    var executed :- Execute(env, Emit(st, now, BarCompleted(bar.symbol, bar.timestamp)), item, cutoff);
    RecordEquity(Emit(executed.(prices := executed.prices[bar.symbol := bar.close]), now, FeaturePublished(bar.symbol, bar.timestamp)), now)
  }

  // ----- strategy evaluation

  function Snapshot(o: SimOrder): OrderSnapshot {
    OrderSnapshot(o.intent.reference, o.intent.side, o.status, o.Active(), o.filledQuantity, o.Remaining(), o.forced)
  }

  function Snapshots(orders: seq<SimOrder>, symbol: Symbol): seq<OrderSnapshot> {
    if orders == [] then []
    else
      var last := orders[|orders| - 1];
      Snapshots(orders[..|orders| - 1], symbol) + if last.intent.symbol == symbol then [Snapshot(last)] else []
  }

  function ContextOf(st: Sim, item: SnapshotBar, row: FeatureRow, session: Session, cutoff: Time): Context
    requires st.equity != []
  {
    var position := st.book.PositionOf(item.bar.symbol);
    Context(item.availableAt, item.bar, if item.availableAt >= row.availableAt then item.availableAt else row.availableAt,
      row.values, row.unavailable.Keys, position.quantity, position.AveragePrice(), st.book.cash,
      st.equity[|st.equity| - 1].equity, session.opens, session.closes,
      Snapshots(st.orders, item.bar.symbol), Some(cutoff))
  }

  function Targeted(symbol: Symbol, targets: seq<Reference>): (nat, SimOrder) -> bool {
    (i: nat, o: SimOrder) => o.intent.symbol == symbol && o.intent.reference in targets
  }

  function Request1(env: Env, grid: Grid, st: Sim, symbol: Symbol, now: Time, request: Request): Result<Sim> {
    var told := Emit(st, now, Decided(symbol, request.Ref(), request.FeatureTimestamp()));
    match request
    case Withdraw(c) => Ok(MoveWhere(told, Targeted(symbol, c.targets), Cancelled, now, Text(c.reason), 0))
    case Place(intent) => NewOrder(env, grid, told, intent, now, false)
  }

  function RequestAll(env: Env, grid: Grid, st: Sim, symbol: Symbol, now: Time, requests: seq<Request>): Result<Sim>
    decreases requests
  {
    if requests == [] then Ok(st)
    else
      var next :- Request1(env, grid, st, symbol, now, requests[0]);
      RequestAll(env, grid, next, symbol, now, requests[1..])
  }

  function EvaluateStrategy<S>(env: Env, grid: Grid, plan: Plan<S>, w: World<S>, item: SnapshotBar, session: Session, cutoff: Time)
    : Result<World<S>>
  {
    if w.runtime.None? then Ok(w)
    else
      var bar, now := item.bar, item.availableAt;
      if (bar.symbol, bar.timestamp) !in env.features || w.sim.equity == [] then Err(UnknownSymbol)
      else
        var row := env.features[(bar.symbol, bar.timestamp)];
        if row.availableAt > now then Err(FeatureLate)
        else
          var ctx := ContextOf(w.sim, item, row, session, cutoff);
          var (runtime, requests) :- Evaluated(plan, w.runtime.value, ctx);
          var ran := Emit(w.sim, now, StrategyRan(bar.symbol, bar.timestamp, ctx.availableAt, |requests|));
          var sim :- RequestAll(env, grid, ran, bar.symbol, now, requests);
          Ok(World(sim, Some(runtime)))
  }

  ghost function Complete<S>(env: Env, grid: Grid, plan: Plan<S>, w: World<S>, item: SnapshotBar): Result<World<S>> {
    match SessionAt(env.sessions, item.bar.timestamp)
    case None => Err(NoSession)
    case Some(session) =>
      if session.opens !in grid.cutoffs then Err(NoSession)
      else
        var cutoff := grid.cutoffs[session.opens];
        var settled :- Settled(env, w.sim, item, cutoff);
        EvaluateStrategy(env, grid, plan, World(settled, w.runtime), item, session, cutoff)
  }

  // ----- the other ticks

  function Decide(env: Env, grid: Grid, st: Sim, intent: TradeIntent, now: Time): Result<Sim> {
    NewOrder(env, grid, Emit(st, now, Decided(intent.symbol, intent.reference, intent.featureTimestamp)), intent, now, false)
  }

  function ForcedIntent(symbol: Symbol, quantity: int, now: Time): RawIntent {
    RawIntent(FORCED_EXIT, symbol, Sell, quantity, Market, now, now - 1, None, None, None, [])
  }

  function OfSymbol(symbol: Symbol): (nat, SimOrder) -> bool {
    (i: nat, o: SimOrder) => o.intent.symbol == symbol
  }

  /** At the cutoff opening of a held symbol: cancel its orders and schedule its liquidation. */
  function Flatten(env: Env, grid: Grid, st: Sim, symbol: Symbol, now: Time): Result<Sim> {
    var quantity := st.book.Held(symbol);
    if quantity == 0 then Ok(st)
    else
      var cleared := MoveWhere(st, OfSymbol(symbol), Cancelled, now, Text("SESSION_EXIT_CUTOFF"), 0);
      var intent :- Validated(ForcedIntent(symbol, quantity, now));
      NewOrder(env, grid, cleared.(warnings := cleared.warnings + {ForcedSessionExit}), intent, now, true)
  }

  function OpenBar(env: Env, grid: Grid, st: Sim, item: SnapshotBar): Result<Sim> {
    var symbol, now := item.bar.symbol, item.bar.timestamp;
    var told := Emit(st, now, BarOpened(symbol, item.bar.open));
    match SessionAt(env.sessions, now)
    case None => Err(NoSession)
    case Some(session) =>
      if session.opens !in grid.cutoffs then Err(NoSession)
      else if now == grid.cutoffs[session.opens] then Flatten(env, grid, told, symbol, now)
      else Ok(told)
  }

  ghost function OpenSession(st: Sim, now: Time): Result<Sim> {
    var told := Emit(st, now, SessionOpened);
    if st.equity == [] then Err(UnknownSymbol)
    else if st.equity[|st.equity| - 1].timestamp != now then RecordEquity(told, now)
    else Ok(told)
  }

  function Anyone(): (nat, SimOrder) -> bool { (i: nat, o: SimOrder) => true }

  predicate AnyHeld(book: Book) { exists s | s in book.positions :: book.positions[s].quantity != 0 }

  ghost function CloseSession(st: Sim, now: Time): Result<Sim> {
    var expired := MoveWhere(Emit(st, now, SessionClosed), Anyone(), Expired, now, Text("DAY_SESSION_ENDED"), 0);
    if AnyHeld(st.book) then Err(ForcedExitIncomplete) else RecordEquity(expired, now)
  }

  /** One clock tick. */
  ghost function Step<S>(env: Env, grid: Grid, plan: Plan<S>, w: World<S>, tick: Tick): Result<World<S>> {
    match tick.kind
    case BarComplete =>
      if tick.index >= |env.bars| then Err(UnknownSymbol)
      else Complete(env, grid, plan, w, env.bars[tick.index])
    case Decision =>
      if tick.index >= |env.script| then Err(UnknownSymbol)
      else Rewrap(w, Decide(env, grid, w.sim, env.script[tick.index], tick.timestamp))
    case BarOpen =>
      if tick.index >= |env.bars| then Err(UnknownSymbol)
      else Rewrap(w, OpenBar(env, grid, w.sim, env.bars[tick.index]))
    case SessionOpen => Rewrap(w, OpenSession(w.sim, tick.timestamp))
    case SessionClose => Rewrap(w, CloseSession(w.sim, tick.timestamp))
  }

  function Rewrap<S>(w: World<S>, sim: Result<Sim>): Result<World<S>> {
    match sim
    case Ok(st) => Ok(w.(sim := st))
    case Err(error) => Err(error)
  }

  // ----- whole runs

  function InitialSim(env: Env): Sim {
    Sim(Opening(env.capital), env.capital as real, [], [], [], [], map[], env.notices)
  }

  ghost function Start<S>(env: Env, plan: Plan<S>): Result<World<S>>
    requires env.sessions != []
  {
    var sim :- RecordEquity(InitialSim(env), env.sessions[0].opens);
    Ok(World(sim, if env.strategic then Some(Started(plan, env.symbols)) else None))
  }

  function Ticks(env: Env): seq<Tick> { Timeline(env.bars, env.sessions, env.script) }

  /** The state after the first k ticks. */
  ghost function After<S>(env: Env, grid: Grid, plan: Plan<S>, k: nat): Result<World<S>>
    requires env.sessions != [] && k <= |Ticks(env)|
  {
    if k == 0 then Start(env, plan)
    else
      var w :- After(env, grid, plan, k - 1);
      Step(env, grid, plan, w, Ticks(env)[k - 1])
  }

  /** A whole run: validate, then every tick. */
  ghost function Run<S>(env: Env, plan: Plan<S>): Result<World<S>> {
    if env.strategic && env.script != [] then Err(DecisionsExclusive)
    else
      var grid :- Validate(env);
      if env.sessions == [] then Err(RunShapeRejected)
      else After(env, grid, plan, |Ticks(env)|)
  }
}
