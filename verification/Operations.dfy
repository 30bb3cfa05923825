/** What each operation of the simulator does to the orders, the money and the input, written out in values. */
module Operations {
  import opened Common
  import opened Orders
  import opened Costs
  import opened Execution
  import opened Accounting
  import opened Calendars
  import opened FeatureRows
  import opened Strategies
  import opened Engine
  import opened Ledger
  import opened Safety
  import opened Grids

  // ----- transitions

  predicate Working(o: SimOrder) { o.status == Accepted || o.status == Pending || o.status == Triggered || o.status == PartiallyFilled }

  /** The same order with one transition more. */
  predicate Became(o: SimOrder, later: SimOrder, status: Status, now: Time, reason: Reference) {
    && later.status == status && later.transitions == o.transitions + [Transition(now, status, reason)]
    && later.orderId == o.orderId && later.intent == o.intent && later.eligibleFrom == o.eligibleFrom
    && later.filledQuantity == o.filledQuantity && later.executedTurnover == o.executedTurnover && later.forced == o.forced
  }

  /** Orders and events may differ, and warnings; nothing else. */
  ghost predicate OnlyOrders(st: Sim, r: Sim) {
    && r.book == st.book && r.peak == st.peak && r.fills == st.fills && r.equity == st.equity && r.prices == st.prices
    && st.events <= r.events
  }

  lemma MovedBecame(o: SimOrder, status: Status, now: Time, reason: Reference)
    ensures Became(o, o.Moved(status, now, reason), status, now, reason)
  {
  }

  // ----- a new order

  /** The order went through these stages, all at one instant. */
  predicate PassedThrough(o: SimOrder, stages: seq<Status>, now: Time) {
    |o.transitions| == |stages| && forall i | 0 <= i < |stages| :: o.transitions[i].status == stages[i] && o.transitions[i].timestamp == now
  }

  /** The earliest opening of the session at which the order may be filled: a later one, or for a liquidation this one. */
  ghost predicate EarliestFrom(openings: seq<Time>, now: Time, forced: bool, eligible: Option<Time>) {
    match eligible
    case None => forall t | t in openings :: if forced then t < now else t <= now
    case Some(first) =>
      && first in openings && (if forced then first >= now else first > now)
      && forall t | t in openings && t < first :: if forced then t < now else t <= now
  }

  /**
   * A new order is numbered, created, accepted and pending; after the cutoff, unless it is forced, and for a sale of more
   * than is held, it is rejected with the reason.
   */
  ghost predicate Placed(st: Sim, r: Sim, intent: TradeIntent, now: Time, forced: bool, openings: seq<Time>, cutoff: Time) {
    var late := !forced && cutoff <= now;
    var short := intent.side == Sell && intent.quantity > st.book.Held(intent.symbol);
    && OnlyOrders(st, r) && r.warnings == st.warnings
    && |r.orders| == |st.orders| + 1 && r.orders[..|st.orders|] == st.orders
    && var o := r.orders[|st.orders|];
       && o.orderId == |st.orders| + 1 && o.intent == intent && o.forced == forced
       && o.filledQuantity == 0 && o.executedTurnover == 0.0 && EarliestFrom(openings, now, forced, o.eligibleFrom)
       && (if late || short then
             && o.status == Rejected && PassedThrough(o, [Status.Created, Status.Accepted, Pending, Rejected], now)
             && o.transitions[3].reason == Text(if late then "SESSION_EXIT_CUTOFF" else "INSUFFICIENT_LONG_INVENTORY")
           else o.status == Pending && PassedThrough(o, [Status.Created, Status.Accepted, Pending], now))
  }

  lemma EarliestExact(openings: seq<Time>, now: Time, forced: bool)
    requires Strict(openings)
    ensures EarliestFrom(openings, now, forced, EligibleFrom(openings, now, forced))
  {
    BisectExact(openings, now);
  }

  lemma PlacementExact(env: Env, grid: Grid, st: Sim, s: Session, intent: TradeIntent, now: Time, forced: bool)
    requires Ordered(env.sessions) && s in env.sessions && s.opens <= now < s.closes && SessionGrid(grid, s)
    ensures var r := NewOrder(env, grid, st, intent, now, forced);
            r.Ok? && Placed(st, r.value, intent, now, forced, grid.openings[s.opens], grid.cutoffs[s.opens])
  {
    hide EligibleFrom, EarliestFrom, Strict;
    SessionAtExact(env.sessions, now);
    EarliestExact(grid.openings[s.opens], now, forced);
  }

  // ----- withdrawing, and the end of a session

  /** Every working order of a kind becomes cancelled or expired, and no other order changes. */
  ghost predicate Ended(st: Sim, r: Sim, chosen: SimOrder -> bool, status: Status, now: Time, reason: Reference) {
    && |r.orders| == |st.orders|
    && forall j | 0 <= j < |st.orders| ::
         if Working(st.orders[j]) && chosen(st.orders[j]) then Became(st.orders[j], r.orders[j], status, now, reason)
         else r.orders[j] == st.orders[j]
  }

  lemma EndedBy(st: Sim, pick: (nat, SimOrder) -> bool, chosen: SimOrder -> bool, status: Status, now: Time, reason: Reference)
    requires forall j: nat, o :: pick(j, o) <==> chosen(o)
    ensures var r := MoveWhere(st, pick, status, now, reason, 0);
            Ended(st, r, chosen, status, now, reason) && OnlyOrders(st, r) && r.warnings == st.warnings
  {
    hide MoveWhere;
    MoveWhereExact(st, pick, status, now, reason, 0);
  }

  /** A withdrawal cancels the working orders of its symbol that it names. */
  lemma WithdrawalExact(env: Env, grid: Grid, st: Sim, symbol: Symbol, now: Time, c: CancelIntent)
    ensures var r := Request1(env, grid, st, symbol, now, Withdraw(c));
            && r.Ok? && OnlyOrders(st, r.value) && r.value.warnings == st.warnings
            && Ended(st, r.value, (o: SimOrder) => o.intent.symbol == symbol && o.intent.reference in c.targets, Cancelled, now, Text(c.reason))
  {
    hide MoveWhere, Ended;
    var told := Emit(st, now, Decided(symbol, c.reference, c.featureTimestamp));
    var chosen := (o: SimOrder) => o.intent.symbol == symbol && o.intent.reference in c.targets;
    EndedBy(told, Targeted(symbol, c.targets), chosen, Cancelled, now, Text(c.reason));
    EndedSame(st, told, Request1(env, grid, st, symbol, now, Withdraw(c)).value, chosen, Cancelled, now, Text(c.reason));
  }

  lemma EndedSame(st: Sim, told: Sim, r: Sim, chosen: SimOrder -> bool, status: Status, now: Time, reason: Reference)
    requires told.orders == st.orders && Ended(told, r, chosen, status, now, reason)
    ensures Ended(st, r, chosen, status, now, reason)
  {
  }

  /** The close of a session expires every working order; with inventory left it fails. */
  lemma CloseExact(st: Sim, now: Time)
    ensures (exists s :: s in st.book.positions && st.book.positions[s].quantity != 0) ==> CloseSession(st, now) == Err(ForcedExitIncomplete)
    ensures CloseSession(st, now).Ok? ==>
              var r := CloseSession(st, now).value;
              && Ended(st, r, (o: SimOrder) => true, Expired, now, Text("DAY_SESSION_ENDED"))
              && r.book == st.book && r.fills == st.fills && r.prices == st.prices && r.warnings == st.warnings
  {
    hide MoveWhere, Ended, Mark;
    var told := Emit(st, now, SessionClosed);
    var chosen := (o: SimOrder) => true;
    EndedBy(told, Anyone(), chosen, Expired, now, Text("DAY_SESSION_ENDED"));
    if CloseSession(st, now).Ok? {
      var r := CloseSession(st, now).value;
      EndedSame(st, told, MoveWhere(told, Anyone(), Expired, now, Text("DAY_SESSION_ENDED"), 0), chosen, Expired, now, Text("DAY_SESSION_ENDED"));
      EndedLater(st, MoveWhere(told, Anyone(), Expired, now, Text("DAY_SESSION_ENDED"), 0), r, chosen, Expired, now, Text("DAY_SESSION_ENDED"));
    }
  }

  lemma EndedLater(st: Sim, r: Sim, later: Sim, chosen: SimOrder -> bool, status: Status, now: Time, reason: Reference)
    requires later.orders == r.orders && Ended(st, r, chosen, status, now, reason)
    ensures Ended(st, later, chosen, status, now, reason)
  {
  }

  // ----- the liquidation

  /** A market sale of so many shares, in the name of the forced exit. */
  predicate Liquidates(intent: TradeIntent, symbol: Symbol, quantity: int, now: Time) {
    && intent.reference == Text("FORCED_SESSION_EXIT") && intent.symbol == symbol && intent.side == Sell && intent.orderType == Market
    && intent.quantity == quantity && intent.createdAt == now && intent.featureTimestamp == now - 1
    && intent.limitPrice.None? && intent.triggerPrice.None? && intent.ocoGroup.None? && intent.requiredFeatures == []
  }

  /** The working orders of the symbol are cancelled, and one liquidation of the whole holding waits from this opening on. */
  ghost predicate Flattened(st: Sim, r: Sim, symbol: Symbol, now: Time) {
    && OnlyOrders(st, r) && r.warnings == st.warnings + {ForcedSessionExit}
    && |r.orders| == |st.orders| + 1
    && Ended(st, r.(orders := r.orders[..|st.orders|]), (o: SimOrder) => o.intent.symbol == symbol, Cancelled, now, Text("SESSION_EXIT_CUTOFF"))
    && var o := r.orders[|st.orders|];
       && o.forced && o.status == Pending && o.eligibleFrom == Some(now) && o.filledQuantity == 0
       && Liquidates(o.intent, symbol, st.book.Held(symbol), now)
  }

  lemma FlattenExact(env: Env, grid: Grid, st: Sim, s: Session, symbol: Symbol, now: Time)
    requires Ordered(env.sessions) && s in env.sessions && s.opens <= now < s.closes && SessionGrid(grid, s) && now in grid.openings[s.opens]
    requires st.book.Held(symbol) >= 0
    ensures var r := Flatten(env, grid, st, symbol, now);
            && (r.Ok? <==> st.book.Held(symbol) <= 1_000_000_000)
            && (r.Ok? ==> if st.book.Held(symbol) == 0 then r.value == st else Flattened(st, r.value, symbol, now))
  {
    hide MoveWhere, Ended, NewOrder, Strict, EarliestFrom;
    var quantity := st.book.Held(symbol);
    if 0 < quantity <= 1_000_000_000 {
      var chosen := (o: SimOrder) => o.intent.symbol == symbol;
      var cleared := MoveWhere(st, OfSymbol(symbol), Cancelled, now, Text("SESSION_EXIT_CUTOFF"), 0);
      EndedBy(st, OfSymbol(symbol), chosen, Cancelled, now, Text("SESSION_EXIT_CUTOFF"));
      ClearedLength(st, symbol, now);
      var intent := Validated(ForcedIntent(symbol, quantity, now)).value;
      var warned := cleared.(warnings := cleared.warnings + {ForcedSessionExit});
      PlacementExact(env, grid, warned, s, intent, now, true);
      var r := NewOrder(env, grid, warned, intent, now, true).value;
      EligibleNow(grid.openings[s.opens], now, r.orders[|st.orders|].eligibleFrom);
      EndedLater(st, cleared, r.(orders := r.orders[..|st.orders|]), chosen, Cancelled, now, Text("SESSION_EXIT_CUTOFF"));
    }
  }

  lemma ClearedLength(st: Sim, symbol: Symbol, now: Time)
    ensures |MoveWhere(st, OfSymbol(symbol), Cancelled, now, Text("SESSION_EXIT_CUTOFF"), 0).orders| == |st.orders|
  {
    MoveWhereLength(st, OfSymbol(symbol), Cancelled, now, Text("SESSION_EXIT_CUTOFF"), 0);
  }

  lemma EligibleNow(openings: seq<Time>, now: Time, eligible: Option<Time>)
    requires now in openings && EarliestFrom(openings, now, true, eligible)
    ensures eligible == Some(now)
  {
  }

  // ----- one attempt to fill

  /** What an order has been charged in all, when it has been served so much. */
  ghost predicate ChargedUpTo(env: Env, o: SimOrder, turnover: real, charge: CostBreakdown) {
    Cumulative(env.costs, o.intent.side, turnover, o.forced) == Ok(charge)
  }

  /** Buying so many more shares at this price would take more than the cash there is, charges included. */
  ghost predicate Unaffordable(env: Env, cash: real, o: SimOrder, quantity: int, price: real) {
    var worth := quantity as real * price;
    var turnover := o.executedTurnover + worth;
    exists before, after ::
      ChargedUpTo(env, o, o.executedTurnover, before) && ChargedUpTo(env, o, turnover, after) && worth + after.Total() - before.Total() > cash
  }

  /** With these charges the order has been charged for so many more shares. */
  ghost predicate ChargedFor(env: Env, o: SimOrder, quantity: int, price: real, costs: CostBreakdown) {
    ChargedOn(env, o, o.executedTurnover + quantity as real * price, costs)
  }

  ghost predicate ChargedOn(env: Env, o: SimOrder, turnover: real, costs: CostBreakdown) {
    exists before, after :: ChargedUpTo(env, o, o.executedTurnover, before) && ChargedUpTo(env, o, turnover, after) && before.Plus(costs) == after
  }

  predicate IsSlippage(quantity: int, base: real, price: real, slippage: real) {
    slippage == quantity as real * (if price >= base then price - base else base - price)
  }

  /** The fill as it is recorded. */
  ghost predicate Recorded1(env: Env, st: Sim, o: SimOrder, base: real, quantity: int, bar: RawBar, now: Time, f: Fill) {
    && f.fillId == |st.fills| + 1 && f.orderId == o.orderId && f.symbol == bar.symbol && f.side == o.intent.side
    && f.quantity == quantity && f.timestamp == now && f.barOpen == bar.timestamp
    && f.basePrice == base && PaidFor(o.intent, base, env.bps, f.price)
    && IsSlippage(quantity, base, f.price, f.slippageCost)
    && f.reason == (if o.forced then Text("FORCED_SESSION_EXIT") else o.intent.reference)
    && ChargedFor(env, o, quantity, f.price, f.costs)
  }

  /** The money and the shares that change hands. */
  ghost predicate Settles1(st: Sim, r: Sim, f: Fill) {
    var worth := f.quantity as real * f.price;
    && r.book.cash == (if f.side == Buy then st.book.cash - worth else st.book.cash + worth) - f.costs.Total()
    && r.book.fees == st.book.fees + f.costs.Total()
    && r.book.Held(f.symbol) == (if f.side == Buy then st.book.Held(f.symbol) + f.quantity else st.book.Held(f.symbol) - f.quantity)
    && forall y | y != f.symbol :: r.book.PositionOf(y) == st.book.PositionOf(y)
  }

  /** The filled order counts the shares and their value, and is filled once nothing remains. */
  ghost predicate Progressed(o: SimOrder, later: SimOrder, f: Fill, now: Time) {
    && later.orderId == o.orderId && later.intent == o.intent && later.eligibleFrom == o.eligibleFrom && later.forced == o.forced
    && later.filledQuantity == o.filledQuantity + f.quantity && later.executedTurnover == o.executedTurnover + f.quantity as real * f.price
    && later.status == (if o.filledQuantity + f.quantity == o.intent.quantity then Filled else PartiallyFilled)
    && later.transitions == o.transitions + [Transition(now, later.status, f.reason)]
  }

  /** The filled order advances, and the other working orders of its group and symbol are cancelled. */
  ghost predicate Advanced(st: Sim, r: Sim, index: nat, f: Fill, now: Time)
    requires index < |st.orders|
  {
    var o := st.orders[index];
    && |r.orders| == |st.orders|
    && Progressed(o, r.orders[index], f, now)
    && forall j | 0 <= j < |st.orders| && j != index ::
         var other := st.orders[j];
         if Working(other) && other.intent.symbol == f.symbol && o.intent.ocoGroup.Some? && other.intent.ocoGroup == o.intent.ocoGroup
         then Became(other, r.orders[j], Cancelled, now, Text("OCO_SIBLING_FILLED"))
         else r.orders[j] == other
  }

  lemma RefusedWritten(env: Env, st: Sim, o: SimOrder, price: real)
    requires o.executedTurnover >= 0.0 && o.Remaining() >= 0 && price > 0.0
    ensures Refused(env, st, o, price) <==>
            if o.intent.side == Buy then Unaffordable(env, st.book.cash, o, o.intent.quantity - o.filledQuantity, price)
            else o.intent.quantity - o.filledQuantity > st.book.Held(o.intent.symbol)
  {
    hide Cumulative, CostBreakdown.Total, CostBreakdown.Difference;
    if o.intent.side == Buy {
      PartialWithinWhole(env.costs, o.intent.side, o.forced, o.executedTurnover, o.Remaining(), o.Remaining(), price);
      var before := Cumulative(env.costs, o.intent.side, o.executedTurnover, o.forced).value;
      var after := Cumulative(env.costs, o.intent.side, o.executedTurnover + Value(o.Remaining(), price), o.forced).value;
      DifferenceTotal(before, after);
      assert ChargedUpTo(env, o, o.executedTurnover, before);
      var turnover := o.executedTurnover + o.Remaining() as real * price;
      assert ChargedUpTo(env, o, turnover, after);
    }
  }

  lemma DifferenceTotal(before: CostBreakdown, after: CostBreakdown)
    ensures after.Difference(before).Total() == after.Total() - before.Total()
    ensures before.Plus(after.Difference(before)) == after
  {
  }

  lemma FillWritten(env: Env, st: Sim, index: nat, base: real, quantity: int, bar: Bar, now: Time)
    requires index < |st.orders| && st.orders[index].executedTurnover >= 0.0 && quantity > 0
    requires Reached(st.orders[index].intent, base) && ExecutionPrice(st.orders[index].intent, base, env.bps) > 0.0
    ensures Recorded1(env, st, st.orders[index], base, quantity, bar, now, FillFor(env, st, index, base, quantity, bar, now))
  {
    hide ChargedFor, IsSlippage, ChargeFor, Value, ExecutionPrice, PaidFor, Reached;
    var o := st.orders[index];
    var price := ExecutionPrice(o.intent, base, env.bps);
    ExecutionAdverse(o.intent, base, env.bps);
    ChargeWritten(env, o, quantity, price);
    SlippageWritten(quantity, base, price);
  }

  lemma SlippageWritten(quantity: int, base: real, price: real)
    ensures IsSlippage(quantity, base, price, Value(quantity, Abs(price - base)))
  {
  }

  lemma ChargeWritten(env: Env, o: SimOrder, quantity: int, price: real)
    requires o.executedTurnover >= 0.0 && quantity >= 0 && price > 0.0
    ensures ChargedFor(env, o, quantity, price, ChargeFor(env, o, quantity, price))
  {
    hide Cumulative, CostBreakdown.Plus, CostBreakdown.Difference;
    PartialWithinWhole(env.costs, o.intent.side, o.forced, o.executedTurnover, quantity, quantity, price);
    var turnover := o.executedTurnover + quantity as real * price;
    assert turnover == o.executedTurnover + Value(quantity, price);
    var before, after := Cumulative(env.costs, o.intent.side, o.executedTurnover, o.forced), Cumulative(env.costs, o.intent.side, turnover, o.forced);
    assert ChargeFor(env, o, quantity, price) == after.value.Difference(before.value);
    DifferenceTotal(before.value, after.value);
    assert ChargedUpTo(env, o, o.executedTurnover, before.value);
    assert ChargedUpTo(env, o, turnover, after.value);
    assert ChargedOn(env, o, turnover, ChargeFor(env, o, quantity, price));
  }

  lemma SettlesWritten(env: Env, st: Sim, r: Sim, f: Fill)
    requires WellKept(st.book) && f.quantity > 0 && Apply(env.release, st.book, f) == Ok(r.book)
    ensures Settles1(st, r, f)
  {
    hide CostBreakdown.Plus, CostBreakdown.Total, WellKept;
    ApplySucceeds(env.release, st.book, f);
  }

  lemma AdvancedWritten(st: Sim, r: Sim, index: nat, f: Fill, now: Time)
    requires index < |st.orders| && Booked(st, r, index, f, st.orders[index].executedTurnover + Value(f.quantity, f.price), now)
    ensures Advanced(st, r, index, f, now)
  {
    hide SimOrder.Moved, Became, Value, AfterFill, Progressed;
    var o := st.orders[index];
    ProgressWritten(o, f, now);
    forall j | 0 <= j < |st.orders| && j != index
      ensures Became(st.orders[j], st.orders[j].Moved(Cancelled, now, Text("OCO_SIBLING_FILLED")), Cancelled, now, Text("OCO_SIBLING_FILLED"))
    {
      MovedBecame(st.orders[j], Cancelled, now, Text("OCO_SIBLING_FILLED"));
    }
  }

  lemma ProgressWritten(o: SimOrder, f: Fill, now: Time)
    ensures Progressed(o, AfterFill(o, f.quantity, o.executedTurnover + Value(f.quantity, f.price), now, f.reason), f, now)
  {
  }

  /** The order is rejected with the reason, and nothing else changes. */
  ghost predicate Turned(st: Sim, r: Sim, index: nat, now: Time)
    requires index < |st.orders|
  {
    var o := st.orders[index];
    && r.book == st.book && r.fills == st.fills && |r.orders| == |st.orders|
    && (forall j | 0 <= j < |st.orders| && j != index :: r.orders[j] == st.orders[j])
    && Became(o, r.orders[index], Rejected, now, Text(if o.intent.side == Buy then "INSUFFICIENT_CASH_NO_LEVERAGE" else "INSUFFICIENT_LONG_INVENTORY"))
  }

  /** One fill more, recorded and settled, and the orders advanced. */
  ghost predicate Served(env: Env, st: Sim, r: Sim, index: nat, base: real, quantity: int, price: real, bar: RawBar, now: Time)
    requires index < |st.orders|
  {
    && |r.fills| == |st.fills| + 1 && r.fills[..|st.fills|] == st.fills
    && var f := r.fills[|st.fills|];
       && f.price == price && Recorded1(env, st, st.orders[index], base, quantity, bar, now, f)
       && Settles1(st, r, f) && Advanced(st, r, index, f, now)
  }

  /** An order is turned away if its whole remainder is beyond the cash, or the holding; else so many shares are served. */
  ghost predicate Attempted(env: Env, st: Sim, r: Sim, index: nat, base: real, quantity: int, price: real, bar: RawBar, now: Time)
    requires index < |st.orders|
  {
    var o := st.orders[index];
    var rest := o.intent.quantity - o.filledQuantity;
    if (if o.intent.side == Buy then Unaffordable(env, st.book.cash, o, rest, price) else rest > st.book.Held(bar.symbol))
    then Turned(st, r, index, now)
    else Served(env, st, r, index, base, quantity, price, bar, now)
  }

  /** Every attempt on a reached order, at the price that slippage and limit leave of what the bar offers. */
  lemma FillingExact(env: Env, st: Sim, index: nat, base: real, quantity: int, bar: Bar, now: Time)
    requires Sound(env, st) && index < |st.orders| && st.orders[index].Active()
    requires Reached(st.orders[index].intent, base) && st.orders[index].intent.symbol == bar.symbol
    requires 0 < quantity <= st.orders[index].Remaining()
    ensures var r := Attempt(env, st, index, base, quantity, bar, now);
            r.Ok? && exists price :: PaidFor(st.orders[index].intent, base, env.bps, price) && Attempted(env, st, r.value, index, base, quantity, price, bar, now)
  {
    hide Value, Apply, ExecutionPrice, Sound, Book1, Attempt, Refused, Unaffordable, Reached, PaidFor, FillFor, Move, OrderSound, FillSound,
         Turned, Served;
    var o := st.orders[index];
    var price := ExecutionPrice(o.intent, base, env.bps);
    SoundOrder(env, st, index);
    SoundTotals(env, st.fills, o, index + 1);
    ExecutionAdverse(o.intent, base, env.bps);
    AttemptUnfolds(env, st, index, base, quantity, bar, now);
    RefusedWritten(env, st, o, price);
    if Refused(env, st, o, price) {
      RejectedWritten(st, index, now);
    } else {
      ServedWritten(env, st, index, base, quantity, bar, now);
    }
    assert PaidFor(o.intent, base, env.bps, price) && Attempted(env, st, Attempt(env, st, index, base, quantity, bar, now).value, index, base, quantity, price, bar, now);
  }

  lemma ServedWritten(env: Env, st: Sim, index: nat, base: real, quantity: int, bar: Bar, now: Time)
    requires Sound(env, st) && index < |st.orders| && st.orders[index].Active()
    requires Reached(st.orders[index].intent, base) && st.orders[index].intent.symbol == bar.symbol
    requires 0 < quantity <= st.orders[index].Remaining() && st.orders[index].executedTurnover >= 0.0
    requires ExecutionPrice(st.orders[index].intent, base, env.bps) > 0.0
    requires !Refused(env, st, st.orders[index], ExecutionPrice(st.orders[index].intent, base, env.bps))
    ensures Attempt(env, st, index, base, quantity, bar, now).Ok?
    ensures Served(env, st, Attempt(env, st, index, base, quantity, bar, now).value, index, base, quantity,
                   ExecutionPrice(st.orders[index].intent, base, env.bps), bar, now)
  {
    hide Value, Apply, ExecutionPrice, Sound, Book1, Attempt, Refused, Reached, OrderSound, FillSound, Recorded1, Settles1, Advanced, WellKept,
         GoodFill, GoodRejection, Booked, Extends;
    AttemptUnfolds(env, st, index, base, quantity, bar, now);
    AttemptSound(env, st, index, base, quantity, bar, now);
    SoundPositive(env, st);
    FillWritten(env, st, index, base, quantity, bar, now);
    var fill, turnover := FillFor(env, st, index, base, quantity, bar, now), st.orders[index].executedTurnover + Value(quantity, ExecutionPrice(st.orders[index].intent, base, env.bps));
    Book1Exact(env, st, index, fill, turnover, now);
    var r := Book1(env, st, index, fill, turnover, now).value;
    SettlesWritten(env, st, r, fill);
    AdvancedWritten(st, r, index, fill, now);
    BookedFills(st, r, index, fill, turnover, now);
  }

  lemma BookedFills(st: Sim, r: Sim, index: nat, fill: Fill, turnover: real, now: Time)
    requires index < |st.orders| && Booked(st, r, index, fill, turnover, now)
    ensures r.fills == st.fills + [fill]
  {
  }

  lemma RejectedWritten(st: Sim, index: nat, now: Time)
    requires index < |st.orders| && st.orders[index].Active()
    ensures Turned(st, Move(st, index, Rejected, now, RefusalReason(st.orders[index])), index, now)
  {
  }
}
