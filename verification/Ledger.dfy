/**
 * What every operation of the simulator keeps: the order book, the fills and the portfolio tell one story,
 * the accounting guards never fire, and nothing already settled is rewritten.
 */
module Ledger {
  import opened Common
  import opened Orders
  import opened Costs
  import opened Execution
  import opened Accounting
  import opened Trades
  import opened Engine

  // ----- how orders, fills and events evolve

  /** An order later in the run: identity fixed, fills only added, terminal orders frozen, triggers kept. */
  ghost predicate Carried(o: SimOrder, later: SimOrder) {
    && later.intent == o.intent && later.orderId == o.orderId
    && later.eligibleFrom == o.eligibleFrom && later.forced == o.forced
    && later.filledQuantity >= o.filledQuantity
    && (!o.Active() ==> later == o)
    && (o.EverTriggered() ==> later.EverTriggered())
  }

  /** Events are appended, numbered consecutively, all at one instant. */
  ghost predicate Logged(events: seq<Event>, later: seq<Event>, now: Time) {
    && |events| <= |later| && later[..|events|] == events
    && forall j | |events| <= j < |later| :: later[j].sequence == j && later[j].timestamp == now
  }

  /** The history so far is a prefix of the later history. */
  ghost predicate Extends(st: Sim, later: Sim) {
    && |st.orders| <= |later.orders|
    && (forall i | 0 <= i < |st.orders| :: Carried(st.orders[i], later.orders[i]))
    && st.fills <= later.fills
    && st.book.trades <= later.book.trades
    && st.equity <= later.equity
  }

  lemma ExtendsTransitive(a: Sim, b: Sim, c: Sim)
    requires Extends(a, b) && Extends(b, c)
    ensures Extends(a, c)
  {
    forall i | 0 <= i < |a.orders|
      ensures Carried(a.orders[i], c.orders[i])
    {
      assert Carried(a.orders[i], b.orders[i]) && Carried(b.orders[i], c.orders[i]);
    }
  }

  lemma MovedCarried(o: SimOrder, status: Status, now: Time, reason: Reference)
    requires o.Active()
    ensures Carried(o, o.Moved(status, now, reason))
  {
    MovedTrigger(o, status, now, reason);
  }

  /** A transition loop moves exactly the picked active orders and touches nothing else but the event log. */
  lemma {:induction false} MoveWhereExact(st: Sim, pick: (nat, SimOrder) -> bool, status: Status, now: Time, reason: Reference, from: nat)
    ensures var r := MoveWhere(st, pick, status, now, reason, from);
            && r == st.(orders := r.orders, events := r.events)
            && Logged(st.events, r.events, now)
            && |r.orders| == |st.orders|
            && (forall j | 0 <= j < |st.orders| ::
                  r.orders[j] == if j >= from && st.orders[j].Active() && pick(j, st.orders[j])
                                 then st.orders[j].Moved(status, now, reason) else st.orders[j])
    decreases |st.orders| - from
  {
    hide SimOrder.Moved, SimOrder.Active;
    if from < |st.orders| {
      var next := if st.orders[from].Active() && pick(from, st.orders[from]) then Move(st, from, status, now, reason) else st;
      MoveWhereExact(next, pick, status, now, reason, from + 1);
      MoveOne(st, from, status, now, reason);
      var r := MoveWhere(st, pick, status, now, reason, from);
      LoggedTransitive(st.events, next.events, r.events, now);
    } else {
      LoggedOne(st.events, now);
    }
  }

  lemma LoggedOne(events: seq<Event>, now: Time)
    ensures Logged(events, events, now)
  {
  }

  /** One transition changes one order and appends one event. */
  lemma MoveOne(st: Sim, index: nat, status: Status, now: Time, reason: Reference)
    requires index < |st.orders|
    ensures Logged(st.events, st.events, now)
    ensures st.orders[index].Active() ==>
              var r := Move(st, index, status, now, reason);
              && r == st.(orders := r.orders, events := r.events) && Logged(st.events, r.events, now)
              && r.orders == st.orders[index := st.orders[index].Moved(status, now, reason)]
  {
    hide SimOrder.Moved;
  }

  lemma MoveWhereExtends(st: Sim, pick: (nat, SimOrder) -> bool, status: Status, now: Time, reason: Reference)
    ensures Extends(st, MoveWhere(st, pick, status, now, reason, 0))
  {
    MoveWhereExact(st, pick, status, now, reason, 0);
    forall j | 0 <= j < |st.orders| && st.orders[j].Active()
      ensures Carried(st.orders[j], st.orders[j].Moved(status, now, reason))
    {
      MovedCarried(st.orders[j], status, now, reason);
    }
  }

  // ----- the joint invariant of orders, fills and book

  function SharesFor(id: nat): Fill -> int { (f: Fill) => if f.orderId == id then f.quantity else 0 }

  function ValueFor(id: nat): Fill -> real { (f: Fill) => if f.orderId == id then Value(f.quantity, f.price) else 0.0 }

  function CostsFor(fills: seq<Fill>, id: nat): CostBreakdown {
    if fills == [] then NO_COSTS
    else
      var before := CostsFor(fills[..|fills| - 1], id);
      if fills[|fills| - 1].orderId == id then before.Plus(fills[|fills| - 1].costs) else before
  }

  lemma CostsForPush(fills: seq<Fill>, fill: Fill, id: nat)
    ensures CostsFor(fills + [fill], id) == if fill.orderId == id then CostsFor(fills, id).Plus(fill.costs) else CostsFor(fills, id)
  {
    assert (fills + [fill])[..|fills|] == fills;
  }

  /** One order against the fills: its totals are sums of its fills, and its costs are one cumulative charge. */
  ghost predicate OrderSound(env: Env, fills: seq<Fill>, o: SimOrder, id: nat) {
    && o.orderId == id
    && 0 <= o.filledQuantity <= o.intent.quantity
    && o.status != Created
    && (o.status == Filled <==> o.filledQuantity == o.intent.quantity)
    && (o.EverTriggered() ==> o.intent.orderType == StopMarket)
    && o.filledQuantity == SumInt(fills, SharesFor(id))
    && o.executedTurnover == Sum(fills, ValueFor(id))
    && o.executedTurnover >= 0.0
    && Cumulative(env.costs, o.intent.side, o.executedTurnover, o.forced) == Ok(CostsFor(fills, id))
  }

  /** One fill against its order: adverse price within the limit, positive quantity, no negative charge. */
  ghost predicate FillSound(orders: seq<SimOrder>, f: Fill) {
    && 1 <= f.orderId <= |orders|
    && var intent := orders[f.orderId - 1].intent;
       && f.symbol == intent.symbol && f.side == intent.side
       && 0 < f.quantity && f.basePrice > 0.0 && f.price > 0.0
       && Adverse(f)
       && (intent.limitPrice.Some? ==>
             if f.side == Buy then f.price <= intent.limitPrice.value else f.price >= intent.limitPrice.value)
       && NO_COSTS.AtMost(f.costs)
       && f.reason == (if orders[f.orderId - 1].forced then FORCED_EXIT else intent.reference)
  }

  ghost predicate Sound(env: Env, st: Sim) {
    && Replay(env.release, env.capital, st.fills) == Ok(st.book)
    && (forall i | 0 <= i < |st.orders| :: OrderSound(env, st.fills, st.orders[i], i + 1))
    && (forall j | 0 <= j < |st.fills| :: FillSound(st.orders, st.fills[j]) && st.fills[j].fillId == j + 1)
  }

  lemma SoundPositive(env: Env, st: Sim)
    requires Sound(env, st)
    ensures Positive(st.fills) && (forall f | f in st.fills :: Adverse(f)) && WellKept(st.book)
  {
    forall f | f in st.fills
      ensures f.quantity > 0 && Adverse(f)
    {
      var j :| 0 <= j < |st.fills| && st.fills[j] == f;
      assert FillSound(st.orders, st.fills[j]);
    }
    ReplayKept(env.release, env.capital, st.fills);
  }

  lemma MovedSound(env: Env, fills: seq<Fill>, o: SimOrder, id: nat, status: Status, now: Time, reason: Reference)
    requires OrderSound(env, fills, o, id) && o.Active()
    requires status in {Triggered, Cancelled, Rejected, Expired} && (status == Triggered ==> o.intent.orderType == StopMarket)
    ensures OrderSound(env, fills, o.Moved(status, now, reason), id)
  {
    hide Cumulative;
    MovedTrigger(o, status, now, reason);
  }

  lemma FillsStaySound(orders: seq<SimOrder>, later: seq<SimOrder>, fills: seq<Fill>)
    requires |orders| <= |later| && forall i | 0 <= i < |orders| :: Carried(orders[i], later[i])
    requires forall j | 0 <= j < |fills| :: FillSound(orders, fills[j])
    ensures forall j | 0 <= j < |fills| :: FillSound(later, fills[j])
  {
    hide Adverse;
    forall j | 0 <= j < |fills|
      ensures FillSound(later, fills[j])
    {
      assert FillSound(orders, fills[j]);
      assert Carried(orders[fills[j].orderId - 1], later[fills[j].orderId - 1]);
    }
  }

  lemma MoveWhereSound(env: Env, st: Sim, pick: (nat, SimOrder) -> bool, status: Status, now: Time, reason: Reference)
    requires Sound(env, st) && status in {Cancelled, Expired}
    ensures Sound(env, MoveWhere(st, pick, status, now, reason, 0))
  {
    hide Cumulative, FillSound, Replay, OrderSound, MoveWhere, Carried, SimOrder.Moved;
    MoveWhereExact(st, pick, status, now, reason, 0);
    MoveWhereExtends(st, pick, status, now, reason);
    var r := MoveWhere(st, pick, status, now, reason, 0);
    forall i | 0 <= i < |st.orders|
      ensures OrderSound(env, st.fills, r.orders[i], i + 1)
    {
      SoundOrder(env, st, i);
      if st.orders[i].Active() {
        MovedSound(env, st.fills, st.orders[i], i + 1, status, now, reason);
      }
    }
    FillsStaySound(st.orders, r.orders, st.fills);
  }

  // ----- one visit of the fill loop

  lemma ValueMonotone(m: int, n: int, price: real)
    requires 0 <= m <= n && price > 0.0
    ensures 0.0 <= Value(m, price) <= Value(n, price)
  {
    assert Value(n, price) - Value(m, price) == (n - m) as real * price;
  }

  lemma TotalMonotone(c: CostBreakdown, d: CostBreakdown, e: CostBreakdown)
    requires c.AtMost(d) && d.AtMost(e)
    ensures d.Difference(c).Total() <= e.Difference(c).Total()
    ensures NO_COSTS.AtMost(d.Difference(c))
    ensures c.Plus(d.Difference(c)) == d
  {
  }

  /**
   * The pre-check on the full remaining quantity covers the partial fill actually booked: its value and its
   * incremental charges are no larger, because each rounded charge grows with turnover.
   */
  lemma PartialWithinWhole(model: CostModel, side: Side, forced: bool, turnover: real, quantity: int, remaining: int, price: real)
    requires 0.0 <= turnover && 0 <= quantity <= remaining && price > 0.0
    ensures var previous := Cumulative(model, side, turnover, forced);
            var reached := Cumulative(model, side, turnover + Value(quantity, price), forced);
            var target := Cumulative(model, side, turnover + Value(remaining, price), forced);
            && previous.Ok? && reached.Ok? && target.Ok?
            && 0.0 <= Value(quantity, price) <= Value(remaining, price)
            && reached.value.Difference(previous.value).Total() <= target.value.Difference(previous.value).Total()
            && NO_COSTS.AtMost(reached.value.Difference(previous.value))
            && previous.value.Plus(reached.value.Difference(previous.value)) == reached.value
  {
    hide Cumulative, Value;
    ValueMonotone(quantity, remaining, price);
    CumulativeMonotone(model, side, turnover, turnover + Value(quantity, price), forced);
    CumulativeMonotone(model, side, turnover + Value(quantity, price), turnover + Value(remaining, price), forced);
    TotalMonotone(Cumulative(model, side, turnover, forced).value,
                  Cumulative(model, side, turnover + Value(quantity, price), forced).value,
                  Cumulative(model, side, turnover + Value(remaining, price), forced).value);
  }

  /** The order a fill leaves behind. */
  lemma AfterFillSound(env: Env, fills: seq<Fill>, o: SimOrder, id: nat, fill: Fill, turnover: real, now: Time)
    requires OrderSound(env, fills, o, id) && o.Active()
    requires fill.orderId == id && 0 < fill.quantity <= o.Remaining()
    requires turnover == o.executedTurnover + Value(fill.quantity, fill.price) >= 0.0
    requires Cumulative(env.costs, o.intent.side, turnover, o.forced) == Ok(CostsFor(fills, id).Plus(fill.costs))
    ensures OrderSound(env, fills + [fill], AfterFill(o, fill.quantity, turnover, now, fill.reason), id)
    ensures Carried(o, AfterFill(o, fill.quantity, turnover, now, fill.reason))
  {
    hide Cumulative, Value, CostBreakdown.Plus;
    SumIntPush(fills, fill, SharesFor(id));
    SumPush(fills, fill, ValueFor(id));
    CostsForPush(fills, fill, id);
    var filled := o.(filledQuantity := o.filledQuantity + fill.quantity, executedTurnover := turnover);
    MovedTrigger(filled, if filled.Remaining() == 0 then Filled else PartiallyFilled, now, fill.reason);
  }

  lemma OtherOrderSound(env: Env, fills: seq<Fill>, o: SimOrder, id: nat, fill: Fill)
    requires OrderSound(env, fills, o, id) && fill.orderId != id
    ensures OrderSound(env, fills + [fill], o, id)
  {
    hide Cumulative, Value;
    SumIntPush(fills, fill, SharesFor(id));
    SumPush(fills, fill, ValueFor(id));
    CostsForPush(fills, fill, id);
  }

  /** The outcome of a fill, order by order: the filled one, its cancelled siblings, and the untouched rest. */
  ghost predicate Booked(st: Sim, r: Sim, index: nat, fill: Fill, turnover: real, now: Time)
    requires index < |st.orders|
  {
    var order := st.orders[index];
    && r.fills == st.fills + [fill]
    && r == st.(book := r.book, fills := r.fills, orders := r.orders, events := r.events)
    && Logged(st.events, r.events, now)
    && |r.orders| == |st.orders|
    && r.orders[index] == AfterFill(order, fill.quantity, turnover, now, fill.reason)
    && (forall j | 0 <= j < |st.orders| && j != index ::
          r.orders[j] == if st.orders[j].Active() && order.intent.ocoGroup.Some?
                            && Siblings(index, fill.symbol, order.intent.ocoGroup.value)(j, st.orders[j])
                         then st.orders[j].Moved(Cancelled, now, Text("OCO_SIBLING_FILLED")) else st.orders[j])
  }

  lemma Book1Exact(env: Env, st: Sim, index: nat, fill: Fill, turnover: real, now: Time)
    requires index < |st.orders| && st.orders[index].Active()
    ensures var r := Book1(env, st, index, fill, turnover, now);
            && (r.Ok? <==> Apply(env.release, st.book, fill).Ok?)
            && (r.Ok? ==> r.value.book == Apply(env.release, st.book, fill).value && Booked(st, r.value, index, fill, turnover, now))
  {
    hide Apply, Value, AfterFill, Booked, Recorded, MoveWhere, SimOrder.EverTriggered;
    if Apply(env.release, st.book, fill).Ok? {
      var order := st.orders[index];
      var book := Apply(env.release, st.book, fill).value;
      var published := Emit(st.(book := book, fills := st.fills + [fill]), now, FillBooked(fill));
      var after := AfterFill(order, fill.quantity, turnover, now, fill.reason);
      var moved := Emit(published.(orders := st.orders[index := after]), now,
                        OrderMoved(order.intent.symbol, order.orderId, after.status, fill.reason));
      assert Recorded(st, moved, index, fill, turnover, now) by { RecordedBy(st, moved, index, fill, turnover, now, book); }
      if order.intent.ocoGroup.Some? {
        var siblings := Siblings(index, fill.symbol, order.intent.ocoGroup.value);
        MoveWhereExact(moved, siblings, Cancelled, now, Text("OCO_SIBLING_FILLED"), 0);
        GroupBooked(st, moved, MoveWhere(moved, siblings, Cancelled, now, Text("OCO_SIBLING_FILLED"), 0), index, fill, turnover, now);
      } else {
        AloneBooked(st, moved, index, fill, turnover, now);
      }
    }
  }

  /** The fill is in, its order has moved, its siblings are still to be cancelled. */
  ghost predicate Recorded(st: Sim, moved: Sim, index: nat, fill: Fill, turnover: real, now: Time)
    requires index < |st.orders|
  {
    && moved == st.(book := moved.book, fills := st.fills + [fill], orders := moved.orders, events := moved.events)
    && moved.orders == st.orders[index := AfterFill(st.orders[index], fill.quantity, turnover, now, fill.reason)]
    && Logged(st.events, moved.events, now)
  }

  lemma RecordedBy(st: Sim, moved: Sim, index: nat, fill: Fill, turnover: real, now: Time, book: Book)
    requires index < |st.orders|
    requires var after := AfterFill(st.orders[index], fill.quantity, turnover, now, fill.reason);
             moved == Emit(Emit(st.(book := book, fills := st.fills + [fill]), now, FillBooked(fill)).(orders := st.orders[index := after]), now,
                           OrderMoved(st.orders[index].intent.symbol, st.orders[index].orderId, after.status, fill.reason))
    ensures Recorded(st, moved, index, fill, turnover, now)
  {
    hide AfterFill;
  }

  lemma AloneBooked(st: Sim, moved: Sim, index: nat, fill: Fill, turnover: real, now: Time)
    requires index < |st.orders| && Recorded(st, moved, index, fill, turnover, now) && st.orders[index].intent.ocoGroup.None?
    ensures Booked(st, moved, index, fill, turnover, now)
  {
    hide AfterFill, Logged;
  }

  lemma GroupBooked(st: Sim, moved: Sim, r: Sim, index: nat, fill: Fill, turnover: real, now: Time)
    requires index < |st.orders| && Recorded(st, moved, index, fill, turnover, now) && st.orders[index].intent.ocoGroup.Some?
    requires r == moved.(orders := r.orders, events := r.events) && Logged(moved.events, r.events, now) && |r.orders| == |moved.orders|
    requires forall j | 0 <= j < |moved.orders| ::
               r.orders[j] == if moved.orders[j].Active() && Siblings(index, fill.symbol, st.orders[index].intent.ocoGroup.value)(j, moved.orders[j])
                              then moved.orders[j].Moved(Cancelled, now, Text("OCO_SIBLING_FILLED")) else moved.orders[j]
    ensures Booked(st, r, index, fill, turnover, now)
  {
    hide AfterFill, Logged, SimOrder.Moved, SimOrder.Active;
    LoggedTransitive(st.events, moved.events, r.events, now);
  }

  lemma BookedSound(env: Env, st: Sim, r: Sim, index: nat, fill: Fill, turnover: real, now: Time)
    requires Sound(env, st) && index < |st.orders| && st.orders[index].Active()
    requires Booked(st, r, index, fill, turnover, now) && Apply(env.release, st.book, fill) == Ok(r.book)
    requires fill.orderId == index + 1 && 0 < fill.quantity <= st.orders[index].Remaining()
    requires turnover == st.orders[index].executedTurnover + Value(fill.quantity, fill.price) >= 0.0
    requires Cumulative(env.costs, st.orders[index].intent.side, turnover, st.orders[index].forced)
             == Ok(CostsFor(st.fills, index + 1).Plus(fill.costs))
    requires fill.fillId == |st.fills| + 1 && FillSound(st.orders, fill)
    ensures Sound(env, r) && Extends(st, r)
  {
    hide Cumulative, Value, Apply, CostBreakdown.Plus, Replay, FillSound, OrderSound, AfterFill, Carried, Siblings;
    SoundOrder(env, st, index);
    AfterFillSound(env, st.fills, st.orders[index], index + 1, fill, turnover, now);
    forall j | 0 <= j < |st.orders|
      ensures OrderSound(env, r.fills, r.orders[j], j + 1) && Carried(st.orders[j], r.orders[j])
    {
      if j != index {
        BystanderSound(env, st, j, fill, now);
      }
    }
    FillsStaySound(st.orders, r.orders, r.fills);
    TradesGrow(env, st.book, fill);
    ReplayPush(env.release, env.capital, st.fills, st.book, fill);
  }

  lemma ReplayPush(release: Release, capital: real, fills: seq<Fill>, book: Book, fill: Fill)
    requires Replay(release, capital, fills) == Ok(book)
    ensures Replay(release, capital, fills + [fill]) == Apply(release, book, fill)
  {
    hide Apply;
    assert (fills + [fill])[..|fills|] == fills;
  }

  /** An order that another order's fill leaves alone, or cancels. */
  lemma BystanderSound(env: Env, st: Sim, j: nat, fill: Fill, now: Time)
    requires Sound(env, st) && j < |st.orders| && fill.orderId != j + 1
    ensures OrderSound(env, st.fills + [fill], st.orders[j], j + 1) && Carried(st.orders[j], st.orders[j])
    ensures st.orders[j].Active() ==>
              var after := st.orders[j].Moved(Cancelled, now, Text("OCO_SIBLING_FILLED"));
              OrderSound(env, st.fills + [fill], after, j + 1) && Carried(st.orders[j], after)
  {
    hide Sound, OrderSound;
    SoundOrder(env, st, j);
    var o := st.orders[j];
    OtherOrderSound(env, st.fills, o, j + 1, fill);
    if o.Active() {
      MovedSound(env, st.fills + [fill], o, j + 1, Cancelled, now, Text("OCO_SIBLING_FILLED"));
      MovedCarried(o, Cancelled, now, Text("OCO_SIBLING_FILLED"));
    }
  }

  lemma TradesGrow(env: Env, book: Book, fill: Fill)
    requires Apply(env.release, book, fill).Ok?
    ensures book.trades <= Apply(env.release, book, fill).value.trades
  {
    hide Value, CostBreakdown.Plus, CostBreakdown.Total;
  }

  /** The fill booked by an attempt, judged against the state before it. */
  ghost predicate GoodFill(env: Env, st: Sim, r: Sim, index: nat, base: real, quantity: int, bar: RawBar, now: Time, fill: Fill)
    requires index < |st.orders|
  {
    var order := st.orders[index];
    && Booked(st, r, index, fill, order.executedTurnover + Value(quantity, fill.price), now)
    && Apply(env.release, st.book, fill) == Ok(r.book)
    && fill.orderId == order.orderId && fill.symbol == bar.symbol && fill.side == order.intent.side
    && fill.quantity == quantity && fill.timestamp == now && fill.barOpen == bar.timestamp
    && fill.basePrice == base && fill.price == ExecutionPrice(order.intent, base, env.bps)
    && (fill.side == Buy ==> r.book.cash >= 0.0)
    && (fill.side == Sell ==> order.Remaining() <= st.book.Held(bar.symbol))
    && r.book.Held(bar.symbol) == st.book.Held(bar.symbol) + Signed(fill)
    && (forall s | s != bar.symbol :: r.book.PositionOf(s) == st.book.PositionOf(s))
  }

  /** A rejected attempt: one transition, and for a sale the reason that the inventory is too small. */
  ghost predicate GoodRejection(st: Sim, r: Sim, index: nat, bar: RawBar, now: Time)
    requires index < |st.orders| && st.orders[index].Active()
  {
    var order := st.orders[index];
    exists reason ::
      && r == Move(st, index, Rejected, now, reason)
      && (order.intent.side == Sell ==> order.Remaining() > st.book.Held(bar.symbol))
  }

  /**
   * The accounting guards never fire: an attempt on a reachable order raises nothing. It either rejects the
   * order or books a fill that keeps every order, fill and position consistent.
   */
  lemma AttemptSound(env: Env, st: Sim, index: nat, base: real, quantity: int, bar: Bar, now: Time)
    requires Sound(env, st) && index < |st.orders| && st.orders[index].Active()
    requires Reached(st.orders[index].intent, base) && st.orders[index].intent.symbol == bar.symbol
    requires 0 < quantity <= st.orders[index].Remaining()
    ensures var r := Attempt(env, st, index, base, quantity, bar, now);
            && r.Ok? && Sound(env, r.value) && Extends(st, r.value)
            && (|r.value.fills| == |st.fills| ==> GoodRejection(st, r.value, index, bar, now))
            && (|r.value.fills| != |st.fills| ==>
                  |r.value.fills| == |st.fills| + 1
                  && GoodFill(env, st, r.value, index, base, quantity, bar, now, r.value.fills[|st.fills|]))
  {
    hide Cumulative, Value, ExecutionPrice, Attempt, Refused, FillFor, Replay, Book1, Sound, GoodFill, GoodRejection, Extends, Move,
         FillSound, OrderSound, Reached;
    var o := st.orders[index];
    var price := ExecutionPrice(o.intent, base, env.bps);
    SoundOrder(env, st, index);
    SoundTotals(env, st.fills, o, index + 1);
    ExecutionAdverse(o.intent, base, env.bps);
    AttemptUnfolds(env, st, index, base, quantity, bar, now);
    if Refused(env, st, o, price) {
      RejectionGood(env, st, index, price, bar, now);
    } else {
      FillForSound(env, st, index, base, quantity, bar, now);
      RefusedCovers(env, st, index, base, quantity, bar, now);
      BookingGood(env, st, index, bar, FillFor(env, st, index, base, quantity, bar, now), o.executedTurnover + Value(quantity, price), now);
    }
  }

  lemma SoundTotals(env: Env, fills: seq<Fill>, o: SimOrder, id: nat)
    requires OrderSound(env, fills, o, id)
    ensures o.executedTurnover >= 0.0 && o.Remaining() >= 0 && o.orderId == id
    ensures Cumulative(env.costs, o.intent.side, o.executedTurnover, o.forced) == Ok(CostsFor(fills, id))
  {
    hide Cumulative, CostsFor;
  }

  // ----- one attempt, in terms of what it decides

  /** The charges that more shares at this price add to an order. */
  function ChargeFor(env: Env, o: SimOrder, quantity: int, price: real): CostBreakdown
    requires o.executedTurnover >= 0.0 && quantity >= 0 && price > 0.0
  {
    PartialWithinWhole(env.costs, o.intent.side, o.forced, o.executedTurnover, quantity, quantity, price);
    Cumulative(env.costs, o.intent.side, o.executedTurnover + Value(quantity, price), o.forced).value
      .Difference(Cumulative(env.costs, o.intent.side, o.executedTurnover, o.forced).value)
  }

  /** What an order's remaining shares cost to buy now: their value and the charges they add. */
  function Outlay(env: Env, o: SimOrder, price: real): real
    requires o.executedTurnover >= 0.0 && o.Remaining() >= 0 && price > 0.0
  {
    Value(o.Remaining(), price) + ChargeFor(env, o, o.Remaining(), price).Total()
  }

  /** The order cannot be served at this price: a purchase beyond the cash, a sale beyond the holding. */
  ghost predicate Refused(env: Env, st: Sim, o: SimOrder, price: real)
    requires o.executedTurnover >= 0.0 && o.Remaining() >= 0 && price > 0.0
  {
    if o.intent.side == Buy then Outlay(env, o, price) > st.book.cash else o.Remaining() > st.book.Held(o.intent.symbol)
  }

  function RefusalReason(o: SimOrder): Reference {
    Text(if o.intent.side == Buy then "INSUFFICIENT_CASH_NO_LEVERAGE" else "INSUFFICIENT_LONG_INVENTORY")
  }

  /** The fill of a number of shares of an order that is not refused. */
  function FillFor(env: Env, st: Sim, index: nat, base: real, quantity: int, bar: RawBar, now: Time): Fill
    requires index < |st.orders| && st.orders[index].executedTurnover >= 0.0 && quantity >= 0
    requires ExecutionPrice(st.orders[index].intent, base, env.bps) > 0.0
  {
    var o := st.orders[index];
    var price := ExecutionPrice(o.intent, base, env.bps);
    Fill(|st.fills| + 1, o.orderId, bar.symbol, o.intent.side, quantity, now, bar.timestamp, base, price,
         ChargeFor(env, o, quantity, price), Value(quantity, Abs(price - base)), if o.forced then FORCED_EXIT else o.intent.reference)
  }

  lemma AttemptUnfolds(env: Env, st: Sim, index: nat, base: real, quantity: int, bar: Bar, now: Time)
    requires index < |st.orders| && st.orders[index].Active() && st.orders[index].executedTurnover >= 0.0
    requires st.orders[index].intent.symbol == bar.symbol && 0 <= quantity <= st.orders[index].Remaining()
    requires ExecutionPrice(st.orders[index].intent, base, env.bps) > 0.0
    ensures var o := st.orders[index];
            var price := ExecutionPrice(o.intent, base, env.bps);
            Attempt(env, st, index, base, quantity, bar, now)
            == if Refused(env, st, o, price) then Ok(Move(st, index, Rejected, now, RefusalReason(o)))
               else Book1(env, st, index, FillFor(env, st, index, base, quantity, bar, now), o.executedTurnover + Value(quantity, price), now)
  {
    hide Cumulative, Value, ExecutionPrice, CostBreakdown.Difference, CostBreakdown.Total, Book1, Move;
    var o := st.orders[index];
    PartialWithinWhole(env.costs, o.intent.side, o.forced, o.executedTurnover, quantity, o.Remaining(), ExecutionPrice(o.intent, base, env.bps));
  }

  lemma RejectionGood(env: Env, st: Sim, index: nat, price: real, bar: Bar, now: Time)
    requires Sound(env, st) && index < |st.orders| && st.orders[index].Active() && st.orders[index].executedTurnover >= 0.0
    requires st.orders[index].Remaining() >= 0 && price > 0.0 && st.orders[index].intent.symbol == bar.symbol
    requires Refused(env, st, st.orders[index], price)
    ensures var r := Move(st, index, Rejected, now, RefusalReason(st.orders[index]));
            Sound(env, r) && Extends(st, r) && r.fills == st.fills && GoodRejection(st, r, index, bar, now)
  {
    hide Sound, Extends, Outlay, Move;
    RejectionSound(env, st, index, now, RefusalReason(st.orders[index]));
    MoveFills(st, index, Rejected, now, RefusalReason(st.orders[index]));
  }

  /** The fill is sound: adverse, within its limit, and charged as one more step of the order's cumulative charge. */
  lemma FillForSound(env: Env, st: Sim, index: nat, base: real, quantity: int, bar: Bar, now: Time)
    requires Sound(env, st) && index < |st.orders| && st.orders[index].executedTurnover >= 0.0
    requires Reached(st.orders[index].intent, base) && st.orders[index].intent.symbol == bar.symbol
    requires 0 < quantity && ExecutionPrice(st.orders[index].intent, base, env.bps) > 0.0
    ensures var o := st.orders[index];
            var fill := FillFor(env, st, index, base, quantity, bar, now);
            && FillSound(st.orders, fill) && fill.orderId == o.orderId == index + 1 && fill.fillId == |st.fills| + 1
            && fill.timestamp == now && fill.barOpen == bar.timestamp && fill.quantity == quantity && fill.basePrice == base
            && fill.side == o.intent.side && fill.price == ExecutionPrice(o.intent, base, env.bps)
            && o.executedTurnover + Value(quantity, fill.price) >= 0.0
            && Cumulative(env.costs, o.intent.side, o.executedTurnover + Value(quantity, fill.price), o.forced)
               == Ok(CostsFor(st.fills, index + 1).Plus(fill.costs))
  {
    hide Cumulative, Value, ExecutionPrice, CostBreakdown.Plus, CostBreakdown.Difference, CostBreakdown.Total, Sound, OrderSound, CostsFor;
    var o := st.orders[index];
    SoundOrder(env, st, index);
    SoundTotals(env, st.fills, o, index + 1);
    ExecutionAdverse(o.intent, base, env.bps);
    PartialWithinWhole(env.costs, o.intent.side, o.forced, o.executedTurnover, quantity, quantity, ExecutionPrice(o.intent, base, env.bps));
  }

  /** An order not refused on its whole remainder can pay for, or deliver, any part of it. */
  lemma RefusedCovers(env: Env, st: Sim, index: nat, base: real, quantity: int, bar: Bar, now: Time)
    requires index < |st.orders| && st.orders[index].executedTurnover >= 0.0
    requires 0 < quantity <= st.orders[index].Remaining() && ExecutionPrice(st.orders[index].intent, base, env.bps) > 0.0
    requires !Refused(env, st, st.orders[index], ExecutionPrice(st.orders[index].intent, base, env.bps))
    ensures var fill := FillFor(env, st, index, base, quantity, bar, now);
            && (fill.side == Buy ==> Value(fill.quantity, fill.price) + fill.costs.Total() <= st.book.cash)
            && (fill.side == Sell ==> st.orders[index].Remaining() <= st.book.Held(st.orders[index].intent.symbol))
  {
    hide Cumulative, Value, ExecutionPrice, CostBreakdown.Difference, CostBreakdown.Total;
    var o := st.orders[index];
    PartialWithinWhole(env.costs, o.intent.side, o.forced, o.executedTurnover, quantity, o.Remaining(), ExecutionPrice(o.intent, base, env.bps));
  }

  lemma SoundOrder(env: Env, st: Sim, index: nat)
    requires Sound(env, st) && index < |st.orders|
    ensures OrderSound(env, st.fills, st.orders[index], index + 1)
  {
  }

  lemma MoveFills(st: Sim, index: nat, status: Status, now: Time, reason: Reference)
    requires index < |st.orders| && st.orders[index].Active()
    ensures Move(st, index, status, now, reason).fills == st.fills
  {
  }

  lemma BookingGood(env: Env, st: Sim, index: nat, bar: Bar, fill: Fill, turnover: real, now: Time)
    requires Sound(env, st) && index < |st.orders| && st.orders[index].Active()
    requires st.orders[index].intent.symbol == bar.symbol
    requires fill.orderId == st.orders[index].orderId && fill.fillId == |st.fills| + 1 && FillSound(st.orders, fill)
    requires fill.timestamp == now && fill.barOpen == bar.timestamp && 0 < fill.quantity <= st.orders[index].Remaining()
    requires fill.price == ExecutionPrice(st.orders[index].intent, fill.basePrice, env.bps)
    requires turnover == st.orders[index].executedTurnover + Value(fill.quantity, fill.price) >= 0.0
    requires Cumulative(env.costs, st.orders[index].intent.side, turnover, st.orders[index].forced)
             == Ok(CostsFor(st.fills, index + 1).Plus(fill.costs))
    requires fill.side == Buy ==> Value(fill.quantity, fill.price) + fill.costs.Total() <= st.book.cash
    requires fill.side == Sell ==> st.orders[index].Remaining() <= st.book.Held(bar.symbol)
    ensures var r := Book1(env, st, index, fill, turnover, now);
            && r.Ok? && Sound(env, r.value) && Extends(st, r.value)
            && r.value.fills == st.fills + [fill]
            && GoodFill(env, st, r.value, index, fill.basePrice, fill.quantity, bar, now, fill)
  {
    hide Cumulative, Value, Apply, CostBreakdown.Plus, CostBreakdown.Total, Replay, Book1, Sound, Booked, Extends, Adverse;
    SoundOrder(env, st, index);
    SoundPositive(env, st);
    ApplySucceeds(env.release, st.book, fill);
    Book1Exact(env, st, index, fill, turnover, now);
    BookedSound(env, st, Book1(env, st, index, fill, turnover, now).value, index, fill, turnover, now);
    BookedFills(st, Book1(env, st, index, fill, turnover, now).value, index, fill, turnover, now);
  }

  lemma BookedFills(st: Sim, r: Sim, index: nat, fill: Fill, turnover: real, now: Time)
    requires index < |st.orders| && Booked(st, r, index, fill, turnover, now)
    ensures r.fills == st.fills + [fill]
  {
    hide AfterFill, Siblings;
  }

  lemma RejectionSound(env: Env, st: Sim, index: nat, now: Time, reason: Reference)
    requires Sound(env, st) && index < |st.orders| && st.orders[index].Active()
    ensures Sound(env, Move(st, index, Rejected, now, reason)) && Extends(st, Move(st, index, Rejected, now, reason))
  {
    MoveSound(env, st, index, Rejected, now, reason);
  }

  lemma MoveSound(env: Env, st: Sim, index: nat, status: Status, now: Time, reason: Reference)
    requires Sound(env, st) && index < |st.orders| && st.orders[index].Active()
    requires status in {Triggered, Cancelled, Rejected, Expired} && (status == Triggered ==> st.orders[index].intent.orderType == StopMarket)
    ensures Sound(env, Move(st, index, status, now, reason)) && Extends(st, Move(st, index, status, now, reason))
    ensures Logged(st.events, Move(st, index, status, now, reason).events, now)
  {
    hide Cumulative, FillSound, Replay;
    var r := Move(st, index, status, now, reason);
    MovedSound(env, st.fills, st.orders[index], index + 1, status, now, reason);
    MovedCarried(st.orders[index], status, now, reason);
    FillsStaySound(st.orders, r.orders, st.fills);
  }

  // ----- the fill loop

  /** The effect of one visit, for whatever else is to be proved about it. */
  ghost predicate Visited(env: Env, st: Sim, r: Sim, index: nat, base: Option<real>, bar: RawBar, now: Time, left: Option<int>)
    requires index < |st.orders|
  {
    if !st.orders[index].Active() || base.None? then r == st
    else
      var ready := Triggering(st, index, now);
      || r == ready
      || GoodRejection(ready, r, index, bar, now)
      || (|r.fills| == |st.fills| + 1
          && var fill := r.fills[|st.fills|];
             && 0 < fill.quantity <= ready.orders[index].Remaining()
             && (left.Some? ==> fill.quantity <= left.value)
             && GoodFill(env, ready, r, index, base.value, fill.quantity, bar, now, fill))
  }

  lemma TriggeringSound(env: Env, st: Sim, index: nat, now: Time)
    requires Sound(env, st) && index < |st.orders| && st.orders[index].Active()
    ensures var ready := Triggering(st, index, now);
            && Sound(env, ready) && Extends(st, ready) && Logged(st.events, ready.events, now)
            && ready == st.(orders := ready.orders, events := ready.events)
            && |ready.orders| == |st.orders| && ready.orders[index].Active()
            && ready.orders[index] == st.orders[index].(status := ready.orders[index].status, transitions := ready.orders[index].transitions)
            && (forall j | 0 <= j < |st.orders| && j != index :: ready.orders[j] == st.orders[j])
  {
    hide Cumulative, FillSound, Replay, OrderSound;
    if st.orders[index].intent.orderType == StopMarket && !st.orders[index].EverTriggered() {
      MoveSound(env, st, index, Triggered, now, Text("STOP_REACHED"));
    }
  }

  lemma VisitSound(env: Env, st: Sim, index: nat, base: Option<real>, bar: Bar, now: Time, left: Option<int>)
    requires Sound(env, st) && index < |st.orders| && st.orders[index].intent.symbol == bar.symbol
    requires base.Some? ==> Reached(st.orders[index].intent, base.value)
    requires left.Some? ==> left.value >= 0
    ensures var v := Visit(env, st, index, base, bar, now, left);
            && v.Ok? && Sound(env, v.value.0) && Extends(st, v.value.0)
            && Visited(env, st, v.value.0, index, base, bar, now, left)
            && Logged(st.events, v.value.0.events, now)
            && (left.Some? <==> v.value.1.Some?)
            && (left.Some? ==>
                  v.value.1.value == left.value - if |v.value.0.fills| > |st.fills| then v.value.0.fills[|st.fills|].quantity else 0)
            && (left.Some? ==> v.value.1.value >= 0)
  {
    hide Sound, Attempt, Reached, Booked, GoodFill, GoodRejection, Extends, Triggering, SimOrder.EverTriggered;
    if st.orders[index].Active() && base.Some? {
      TriggeringSound(env, st, index, now);
      var ready := Triggering(st, index, now);
      var remaining := ready.orders[index].Remaining();
      RemainingPositive(env, ready, index);
      var quantity := if left.Some? then Min(remaining, left.value) else remaining;
      if quantity != 0 {
        AttemptSound(env, ready, index, base.value, quantity, bar, now);
        var r := Attempt(env, ready, index, base.value, quantity, bar, now).value;
        if |r.fills| != |ready.fills| {
          GoodQuantity(env, ready, r, index, base.value, quantity, bar, now, r.fills[|ready.fills|]);
        }
        ExtendsTransitive(st, ready, r);
        AttemptLogged(env, ready, r, index, base.value, quantity, bar, now);
        LoggedTransitive(st.events, ready.events, r.events, now);
      }
    } else {
      SelfExtends(st);
      LoggedOne(st.events, now);
    }
  }

  lemma GoodQuantity(env: Env, st: Sim, r: Sim, index: nat, base: real, quantity: int, bar: Bar, now: Time, fill: Fill)
    requires index < |st.orders| && GoodFill(env, st, r, index, base, quantity, bar, now, fill)
    ensures fill.quantity == quantity && |r.orders| == |st.orders|
  {
    hide Apply, Value, Siblings, AfterFill;
  }

  lemma SelfExtends(st: Sim)
    ensures Extends(st, st)
  {
  }

  lemma RemainingPositive(env: Env, st: Sim, index: nat)
    requires Sound(env, st) && index < |st.orders| && st.orders[index].Active()
    ensures st.orders[index].Remaining() > 0
  {
    hide Cumulative, Replay, FillSound;
    assert OrderSound(env, st.fills, st.orders[index], index + 1);
  }

  lemma AttemptLogged(env: Env, st: Sim, r: Sim, index: nat, base: real, quantity: int, bar: Bar, now: Time)
    requires index < |st.orders| && st.orders[index].Active()
    requires |r.fills| == |st.fills| ==> GoodRejection(st, r, index, bar, now)
    requires |r.fills| != |st.fills| ==>
               (|r.fills| == |st.fills| + 1 && GoodFill(env, st, r, index, base, quantity, bar, now, r.fills[|st.fills|]))
    ensures Logged(st.events, r.events, now)
  {
    hide Apply, Value;
  }

  /** Every queued order belongs to the bar and is eligible for it; its base price, if any, is what the bar offers it. */
  ghost predicate QueueReady(orders: seq<SimOrder>, queue: seq<nat>, bases: nat -> Option<real>, bar: RawBar, cutoff: Time) {
    forall i: nat | i in queue ::
      && i < |orders| && bar.Valid() && MayFill(orders[i], bar, cutoff)
      && (bases(i).Some? ==> Offers(bar, orders[i].intent, bases(i).value))
  }

  predicate SameGroup(a: SimOrder, b: SimOrder) {
    a.intent.ocoGroup.Some? && a.intent.ocoGroup == b.intent.ocoGroup && a.intent.symbol == b.intent.symbol
  }

  /** A visit without a fill: the order may have been triggered, or rejected for cash or missing inventory. */
  ghost predicate Unfilled(st: Sim, r: Sim, index: nat)
    requires index < |st.orders| && |r.orders| == |st.orders|
  {
    var o, p := st.orders[index], r.orders[index];
    && r.fills == st.fills && r.book == st.book
    && (forall j | 0 <= j < |st.orders| && j != index :: r.orders[j] == st.orders[j])
    && p == o.(status := p.status, transitions := p.transitions)
    && (!o.Active() ==> p == o)
    && (o.Active() ==>
          p.status == o.status || p.status == Triggered
          || (p.status == Rejected && (o.intent.side == Sell ==> o.Remaining() > st.book.Held(o.intent.symbol))))
    && (p.status == Triggered && o.status != Triggered ==> o.intent.orderType == StopMarket)
  }

  /** A visit with a fill: one more fill for this order, its inventory effect, and its group cancelled. */
  ghost predicate FilledOne(st: Sim, r: Sim, index: nat, bar: RawBar, now: Time)
    requires index < |st.orders| && |r.orders| == |st.orders|
  {
    var o, p := st.orders[index], r.orders[index];
    && o.Active()
    && |r.fills| == |st.fills| + 1 && r.fills[..|st.fills|] == st.fills
    && var f := r.fills[|st.fills|];
       && f.orderId == o.orderId && f.symbol == bar.symbol && f.side == o.intent.side
       && 0 < f.quantity <= o.Remaining() && f.timestamp == now && f.barOpen == bar.timestamp
       && (f.side == Sell ==> o.Remaining() <= st.book.Held(bar.symbol))
       && r.book.Held(bar.symbol) == st.book.Held(bar.symbol) + Signed(f)
       && (forall s | s != bar.symbol :: r.book.PositionOf(s) == st.book.PositionOf(s))
       && p == o.(status := p.status, transitions := p.transitions, filledQuantity := o.filledQuantity + f.quantity,
                  executedTurnover := p.executedTurnover)
       && p.status == (if f.quantity == o.Remaining() then Filled else PartiallyFilled)
       && (forall j | 0 <= j < |st.orders| && j != index ::
             r.orders[j] == if st.orders[j].Active() && SameGroup(o, st.orders[j])
                            then st.orders[j].Moved(Cancelled, now, Text("OCO_SIBLING_FILLED")) else st.orders[j])
  }

  /** Every visit is one of the two. */
  lemma VisitedSummary(env: Env, st: Sim, r: Sim, index: nat, base: Option<real>, bar: Bar, now: Time, left: Option<int>)
    requires Sound(env, st) && index < |st.orders| && st.orders[index].intent.symbol == bar.symbol
    requires Visited(env, st, r, index, base, bar, now, left)
    ensures |r.orders| == |st.orders|
    ensures Unfilled(st, r, index) || FilledOne(st, r, index, bar, now)
  {
    hide Sound, GoodFill, GoodRejection, Unfilled, FilledOne, Triggering, SimOrder.EverTriggered;
    if st.orders[index].Active() && base.Some? {
      TriggeringSound(env, st, index, now);
      TriggeredStatus(st, index, now);
      var ready := Triggering(st, index, now);
      if r == ready {
        TriggeredUnfilled(st, r, index);
      } else if GoodRejection(ready, r, index, bar, now) {
        RejectedUnfilled(st, ready, r, index, bar, now);
      } else {
        var fill := r.fills[|st.fills|];
        GoodFilledOne(env, st, ready, r, index, base.value, bar, now, fill);
      }
    } else {
      NothingUnfilled(st, index);
    }
  }

  /** Ready is the order's state after a possible trigger. */
  ghost predicate Readied(st: Sim, ready: Sim, index: nat)
    requires index < |st.orders|
  {
    && ready == st.(orders := ready.orders, events := ready.events)
    && |ready.orders| == |st.orders| && st.orders[index].Active() && ready.orders[index].Active()
    && ready.orders[index] == st.orders[index].(status := ready.orders[index].status, transitions := ready.orders[index].transitions)
    && (forall j | 0 <= j < |st.orders| && j != index :: ready.orders[j] == st.orders[j])
    && (ready.orders[index].status == st.orders[index].status
        || (ready.orders[index].status == Triggered && st.orders[index].intent.orderType == StopMarket))
  }

  lemma NothingUnfilled(st: Sim, index: nat)
    requires index < |st.orders|
    ensures Unfilled(st, st, index)
  {
  }

  lemma TriggeredUnfilled(st: Sim, ready: Sim, index: nat)
    requires index < |st.orders| && Readied(st, ready, index)
    ensures Unfilled(st, ready, index)
  {
  }

  lemma RejectedUnfilled(st: Sim, ready: Sim, r: Sim, index: nat, bar: Bar, now: Time)
    requires index < |st.orders| && Readied(st, ready, index) && GoodRejection(ready, r, index, bar, now)
    requires st.orders[index].intent.symbol == bar.symbol
    ensures |r.orders| == |st.orders| && Unfilled(st, r, index)
  {
  }

  lemma GoodFilledOne(env: Env, st: Sim, ready: Sim, r: Sim, index: nat, base: real, bar: Bar, now: Time, fill: Fill)
    requires index < |st.orders| && Readied(st, ready, index) && st.orders[index].intent.symbol == bar.symbol
    requires 0 < fill.quantity <= ready.orders[index].Remaining() && GoodFill(env, ready, r, index, base, fill.quantity, bar, now, fill)
    ensures |r.orders| == |st.orders| && FilledOne(st, r, index, bar, now)
  {
    hide Apply, Value, Signed, SimOrder.EverTriggered;
  }

  lemma TriggeredStatus(st: Sim, index: nat, now: Time)
    requires index < |st.orders| && st.orders[index].Active()
    ensures var ready := Triggering(st, index, now);
            && |ready.orders| == |st.orders|
            && (ready.orders[index].status == st.orders[index].status
                || (ready.orders[index].status == Triggered && st.orders[index].intent.orderType == StopMarket))
  {
  }

  function Shares(f: Fill): int { f.quantity }

  /** What the loop leaves alone, and how much of the bar's volume its fills take. */
  ghost predicate WithinBar(st: Sim, r: Sim, bar: RawBar, now: Time, left: Option<int>) {
    && r == st.(book := r.book, orders := r.orders, fills := r.fills, events := r.events)
    && |r.orders| == |st.orders|
    && Logged(st.events, r.events, now)
    && st.fills <= r.fills
    && (forall f | f in r.fills[|st.fills|..] :: f.symbol == bar.symbol && f.barOpen == bar.timestamp && f.timestamp == now)
    && (left.Some? ==> SumInt(r.fills[|st.fills|..], Shares) <= left.value)
    && (forall s | s != bar.symbol :: r.book.PositionOf(s) == st.book.PositionOf(s))
  }

  lemma VisitedWithin(env: Env, st: Sim, r: Sim, index: nat, base: Option<real>, bar: Bar, now: Time, left: Option<int>)
    requires Sound(env, st) && index < |st.orders| && Visited(env, st, r, index, base, bar, now, left)
    requires left.Some? ==> left.value >= 0
    requires Logged(st.events, r.events, now)
    ensures WithinBar(st, r, bar, now, left)
    ensures |r.fills| <= |st.fills| + 1
    ensures |r.fills| == |st.fills| + 1 ==> r.fills == st.fills + [r.fills[|st.fills|]]
  {
    hide Sound, GoodFill, GoodRejection, Triggering, WithinBar, Logged, SimOrder.EverTriggered;
    if st.orders[index].Active() && base.Some? {
      TriggeringSound(env, st, index, now);
      var ready := Triggering(st, index, now);
      if r == ready {
        UnfilledWithin(st, r, bar, now, left);
      } else if GoodRejection(ready, r, index, bar, now) {
        RejectedFrame(ready, r, index, bar, now);
        UnfilledWithin(st, r, bar, now, left);
      } else {
        GoodWithin(env, st, ready, r, index, base.value, bar, now, left);
      }
    } else {
      UnfilledWithin(st, r, bar, now, left);
    }
  }

  lemma RejectedFrame(st: Sim, r: Sim, index: nat, bar: Bar, now: Time)
    requires index < |st.orders| && st.orders[index].Active() && GoodRejection(st, r, index, bar, now)
    ensures r == st.(orders := r.orders, events := r.events) && |r.orders| == |st.orders|
  {
  }

  lemma UnfilledWithin(st: Sim, r: Sim, bar: Bar, now: Time, left: Option<int>)
    requires r == st.(orders := r.orders, events := r.events) && |r.orders| == |st.orders| && Logged(st.events, r.events, now)
    requires left.Some? ==> left.value >= 0
    ensures WithinBar(st, r, bar, now, left)
  {
    hide Logged;
    assert r.fills[|st.fills|..] == [];
  }

  lemma GoodWithin(env: Env, st: Sim, ready: Sim, r: Sim, index: nat, base: real, bar: Bar, now: Time, left: Option<int>)
    requires index < |st.orders| && ready == st.(orders := ready.orders, events := ready.events) && |ready.orders| == |st.orders|
    requires |r.fills| == |st.fills| + 1 && Logged(st.events, r.events, now)
    requires var fill := r.fills[|st.fills|];
             && (left.Some? ==> fill.quantity <= left.value)
             && GoodFill(env, ready, r, index, base, fill.quantity, bar, now, fill)
    ensures WithinBar(st, r, bar, now, left)
    ensures r.fills == st.fills + [r.fills[|st.fills|]]
  {
    hide Apply, Value, Siblings, AfterFill, Logged, SimOrder.Moved;
    assert r.fills[|st.fills|..] == [r.fills[|st.fills|]];
    assert SumInt(r.fills[|st.fills|..], Shares) == r.fills[|st.fills|].quantity;
  }

  lemma WithinTransitive(a: Sim, b: Sim, c: Sim, bar: Bar, now: Time, left: Option<int>, rest: Option<int>)
    requires |b.fills| <= |a.fills| + 1
    requires WithinBar(a, b, bar, now, left) && WithinBar(b, c, bar, now, rest)
    requires left.Some? <==> rest.Some?
    requires left.Some? ==> rest.value == left.value - if |b.fills| > |a.fills| then b.fills[|a.fills|].quantity else 0
    ensures WithinBar(a, c, bar, now, left)
  {
    LoggedTransitive(a.events, b.events, c.events, now);
    var added, later := b.fills[|a.fills|..], c.fills[|b.fills|..];
    assert c.fills[|a.fills|..] == added + later;
    SumIntConcat(added, later, Shares);
    if |b.fills| > |a.fills| {
      assert added == [b.fills[|a.fills|]];
      assert SumInt(added, Shares) == b.fills[|a.fills|].quantity;
    } else {
      assert added == [];
    }
  }

  lemma {:induction false} SumIntConcat<T>(a: seq<T>, b: seq<T>, f: T -> int)
    ensures SumInt(a + b, f) == SumInt(a, f) + SumInt(b, f)
  {
    if b == [] {
      assert a + b == a;
    } else {
      var n := |b| - 1;
      SumIntConcat(a, b[..n], f);
      assert (a + b)[..|a + b| - 1] == a + b[..n];
    }
  }

  lemma LoggedTransitive(a: seq<Event>, b: seq<Event>, c: seq<Event>, now: Time)
    requires Logged(a, b, now) && Logged(b, c, now)
    ensures Logged(a, c, now)
  {
    assert c[..|a|] == c[..|b|][..|a|];
    forall j | |a| <= j < |c|
      ensures c[j].sequence == j && c[j].timestamp == now
    {
      if j < |b| {
        assert c[j] == c[..|b|][j];
      }
    }
  }

  lemma QueueStaysReady(orders: seq<SimOrder>, later: seq<SimOrder>, queue: seq<nat>, bases: nat -> Option<real>, bar: RawBar, cutoff: Time)
    requires queue != [] && QueueReady(orders, queue, bases, bar, cutoff)
    requires |orders| <= |later| && forall i | 0 <= i < |orders| :: Carried(orders[i], later[i])
    ensures QueueReady(later, queue[1..], bases, bar, cutoff)
  {
    forall i: nat | i in queue[1..]
      ensures i < |later| && MayFill(later[i], bar, cutoff)
      ensures bases(i).Some? ==> Offers(bar, later[i].intent, bases(i).value)
    {
      assert i in queue && Carried(orders[i], later[i]);
    }
  }

  /**
   * The fill loop as a whole raises nothing and keeps the joint invariant; and it keeps any further property
   * that each single visit of an eligible order keeps.
   */
  lemma {:induction false} VisitAllKeeps(env: Env, st: Sim, queue: seq<nat>, bases: nat -> Option<real>, bar: Bar, now: Time,
                                         left: Option<int>, cutoff: Time, P: Sim -> bool)
    requires Sound(env, st) && InRange(queue, |st.orders|) && QueueReady(st.orders, queue, bases, bar, cutoff)
    requires left.Some? ==> left.value >= 0
    requires P(st)
    requires forall s: Sim, r: Sim, i: nat, base: Option<real>, l {:trigger Visited(env, s, r, i, base, bar, now, l)} ::
               (Sound(env, s) && P(s) && i < |s.orders| && MayFill(s.orders[i], bar, cutoff)
               && (base.Some? ==> Offers(bar, s.orders[i].intent, base.value))
               && Visited(env, s, r, i, base, bar, now, l) && Sound(env, r)) ==> P(r)
    ensures var r := VisitAll(env, st, queue, bases, bar, now, left);
            && r.Ok? && Sound(env, r.value) && Extends(st, r.value) && WithinBar(st, r.value, bar, now, left) && P(r.value)
    decreases queue
  {
    hide Sound, Visited, WithinBar, Extends, Reached, Offers, Visit;
    if queue == [] {
      SelfExtends(st);
      SelfWithin(st, bar, now, left);
    } else {
      var i := queue[0];
      assert i in queue;
      if bases(i).Some? {
        OffersReached(bar, st.orders[i].intent, bases(i).value);
      }
      VisitSound(env, st, i, bases(i), bar, now, left);
      var (next, rest) := Visit(env, st, i, bases(i), bar, now, left).value;
      VisitedWithin(env, st, next, i, bases(i), bar, now, left);
      VisitLength(env, st, i, bases(i), bar, now, left);
      ExtendsCarries(st, next);
      QueueStaysReady(st.orders, next.orders, queue, bases, bar, cutoff);
      VisitAllKeeps(env, next, queue[1..], bases, bar, now, rest, cutoff, P);
      var last := VisitAll(env, next, queue[1..], bases, bar, now, rest).value;
      ExtendsTransitive(st, next, last);
      WithinTransitive(st, next, last, bar, now, left, rest);
    }
  }

  lemma ExtendsCarries(st: Sim, r: Sim)
    requires Extends(st, r)
    ensures |st.orders| <= |r.orders| && forall i | 0 <= i < |st.orders| :: Carried(st.orders[i], r.orders[i])
  {
  }

  lemma SelfWithin(st: Sim, bar: Bar, now: Time, left: Option<int>)
    requires left.Some? ==> left.value >= 0
    ensures WithinBar(st, st, bar, now, left)
  {
    assert st.fills[|st.fills|..] == [];
  }
}
