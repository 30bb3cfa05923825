/** Small states of the simulator, made by its own operations: for the examples that show where a guarantee ends. */
module Scenarios {
  import opened Common
  import opened Rounding
  import opened Orders
  import opened Costs
  import opened Execution
  import opened Accounting
  import opened Trades
  import opened FeatureRows
  import opened Strategies
  import opened Engine
  import opened Ledger
  import opened Safety
  import opened Solvency

  /** A candle in which everything happens at one price. */
  function FlatBar(t: Time, price: real): Bar
    requires price > 0.0
  {
    RawBar("A", t, price, price, price, price, 0)
  }

  /** A market order of the symbol, by name. */
  function MarketIntent(reference: Reference, side: Side, quantity: int, t: Time): TradeIntent
    requires 0 < quantity <= MAX_QUANTITY
  {
    RawIntent(reference, "A", side, quantity, Market, t, t - 1, None, None, None, [])
  }

  /** The order such an intent becomes, pending. */
  function PendingOrder(id: nat, intent: TradeIntent, t: Time, forced: bool): SimOrder {
    SimOrder(id, intent, Some(t), Pending, 0, 0.0, [], forced)
  }

  function WithOrder(st: Sim, intent: TradeIntent, t: Time, forced: bool): Sim {
    st.(orders := st.orders + [PendingOrder(|st.orders| + 1, intent, t, forced)])
  }

  lemma WithOrderSound(env: Env, st: Sim, intent: TradeIntent, t: Time, forced: bool)
    requires Sound(env, st)
    ensures Sound(env, WithOrder(st, intent, t, forced))
  {
    hide Sound;
    AddedSound(env, st, PendingOrder(|st.orders| + 1, intent, t, forced));
  }

  /** What serving a new order in full at the bar's price leads to. */
  function Served(env: Env, st: Sim, intent: TradeIntent, t: Time, price: real, forced: bool): Result<Sim>
    requires price > 0.0
  {
    Attempt(env, WithOrder(st, intent, t, forced), |st.orders|, price, intent.quantity, FlatBar(t, price), t + MINUTE)
  }

  /** The whole charge of the order. */
  function WholeCharge(env: Env, side: Side, value: real, forced: bool): CostBreakdown {
    match Cumulative(env.costs, side, value, forced)
    case Ok(c) => c
    case Err(_) => NO_COSTS
  }

  /** A market order of the symbol of which nothing has been filled. */
  ghost predicate IsFresh(o: SimOrder) {
    && o.Active() && o.executedTurnover == 0.0 && o.filledQuantity == 0
    && o.intent.symbol == "A" && o.intent.orderType == Market && o.intent.limitPrice == None
  }

  /** The order's whole value and charge fit the cash, or its quantity the holding. */
  ghost predicate Affords(env: Env, book: Book, intent: TradeIntent, price: real, forced: bool) {
    var value := Value(intent.quantity, price);
    if intent.side == Buy then value + WholeCharge(env, Buy, value, forced).Total() <= book.cash
    else intent.quantity <= book.Held("A")
  }

  /** Order n has been filled in full at the price, and its whole charge paid; other settled orders are as they were. */
  ghost predicate FilledFresh(env: Env, st: Sim, r: Sim, n: nat, price: real)
    requires n < |st.orders|
  {
    var intent, forced := st.orders[n].intent, st.orders[n].forced;
    var value := Value(intent.quantity, price);
    && |r.orders| == |st.orders|
    && r.orders[n].intent == intent && r.orders[n].forced == forced && r.orders[n].status == Filled
    && (forall i | 0 <= i < |st.orders| && i != n && !st.orders[i].Active() :: r.orders[i] == st.orders[i])
    && r.book.cash == (if intent.side == Buy then st.book.cash - value else st.book.cash + value) - WholeCharge(env, intent.side, value, forced).Total()
    && r.book.Held("A") == st.book.Held("A") + (if intent.side == Buy then intent.quantity else -intent.quantity)
    && (forall y | y != "A" :: r.book.PositionOf(y) == st.book.PositionOf(y))
  }

  /** Without slippage and within cash or holding, a fresh order is filled in full at the price, and its charge is paid. */
  lemma FreshExactly(env: Env, st: Sim, n: nat, price: real, bar: Bar, now: Time)
    requires Sound(env, st) && env.bps == 0.0 && price > 0.0 && n < |st.orders| && IsFresh(st.orders[n]) && bar.symbol == "A"
    requires Affords(env, st.book, st.orders[n].intent, price, st.orders[n].forced)
    ensures var r := Attempt(env, st, n, price, st.orders[n].intent.quantity, bar, now);
            && r.Ok? && Sound(env, r.value) && FilledFresh(env, st, r.value, n, price)
            && r.value.prices == st.prices && r.value.equity == st.equity && r.value.peak == st.peak
  {
    hide Sound, Attempt, Refused, FillFor, Cumulative, Value, Apply, Book1, Extends, GoodFill, GoodRejection, ExecutionPrice, FillSound, Booked,
         CostBreakdown.Total, SimOrder.EverTriggered;
    var o := st.orders[n];
    var quantity := o.intent.quantity;
    NoSlippage(env, o.intent, price);
    FirstCharge(env, o, price);
    AttemptUnfolds(env, st, n, price, quantity, bar, now);
    NotRefused(env, st, o, price);
    AttemptSound(env, st, n, price, quantity, bar, now);
    var fill := FillFor(env, st, n, price, quantity, bar, now);
    var turnover := o.executedTurnover + Value(quantity, price);
    FillForSound(env, st, n, price, quantity, bar, now);
    Book1Exact(env, st, n, fill, turnover, now);
    var r := Book1(env, st, n, fill, turnover, now).value;
    BookedState(st, r, n, fill, turnover, now);
    SoundPositive(env, st);
    ApplySucceeds(env.release, st.book, fill);
    FillCash(env.release, st.book, fill);
    FillForCharge(env, st, n, price, quantity, bar, now);
  }

  /** So it is with a new order. */
  lemma ServedExactly(env: Env, st: Sim, intent: TradeIntent, t: Time, price: real, forced: bool)
    requires Sound(env, st) && env.bps == 0.0 && price > 0.0
    requires intent.symbol == "A" && intent.orderType == Market && intent.limitPrice == None
    requires Affords(env, st.book, intent, price, forced)
    ensures var r := Served(env, st, intent, t, price, forced);
            && r.Ok? && Sound(env, r.value) && FilledFresh(env, WithOrder(st, intent, t, forced), r.value, |st.orders|, price)
            && r.value.prices == st.prices && r.value.equity == st.equity && r.value.peak == st.peak
  {
    hide Sound, Attempt, Value, FilledFresh, WholeCharge, CostBreakdown.Total, SimOrder.EverTriggered;
    WithOrderSound(env, st, intent, t, forced);
    FreshExactly(env, WithOrder(st, intent, t, forced), |st.orders|, price, FlatBar(t, price), t + MINUTE);
  }

  lemma NoSlippage(env: Env, intent: TradeIntent, price: real)
    requires env.bps == 0.0 && price > 0.0 && intent.limitPrice == None
    ensures ExecutionPrice(intent, price, env.bps) == price && Reached(intent, price)
  {
    assert Slipped(env.bps, price, intent.side) == price by {
      assert price * (1.0 + 0.0) == price;
    }
  }

  /** A fresh order pays the whole charge on its value. */
  lemma FirstCharge(env: Env, o: SimOrder, price: real)
    requires o.executedTurnover == 0.0 && o.filledQuantity == 0 && price > 0.0
    ensures var value := Value(o.intent.quantity, price);
            && value >= 0.0 && ChargeFor(env, o, o.intent.quantity, price) == WholeCharge(env, o.intent.side, value, o.forced)
  {
    hide Value;
    ValueMonotone(0, o.intent.quantity, price);
    NothingYet(env.costs, o.intent.side, o.forced);
    hide Cumulative;
    PartialWithinWhole(env.costs, o.intent.side, o.forced, 0.0, o.intent.quantity, o.intent.quantity, price);
    NothingBefore(WholeCharge(env, o.intent.side, Value(o.intent.quantity, price), o.forced));
  }

  lemma NothingYet(model: CostModel, side: Side, forced: bool)
    ensures Cumulative(model, side, 0.0, forced) == Ok(NO_COSTS)
  {
  }

  lemma NothingBefore(c: CostBreakdown)
    ensures c.Difference(NO_COSTS) == c
  {
  }

  lemma NotRefused(env: Env, st: Sim, o: SimOrder, price: real)
    requires o.executedTurnover == 0.0 && o.filledQuantity == 0 && price > 0.0 && o.intent.symbol == "A"
    requires var value := Value(o.intent.quantity, price);
             if o.intent.side == Buy then value + WholeCharge(env, Buy, value, o.forced).Total() <= st.book.cash
             else o.intent.quantity <= st.book.Held("A")
    ensures !Refused(env, st, o, price)
  {
    hide Value, CostBreakdown.Total, ChargeFor, WholeCharge;
    FirstCharge(env, o, price);
  }

  lemma FillForCharge(env: Env, st: Sim, n: nat, price: real, quantity: int, bar: Bar, now: Time)
    requires n < |st.orders| && st.orders[n].executedTurnover == 0.0 && st.orders[n].filledQuantity == 0 && price > 0.0
    requires quantity == st.orders[n].intent.quantity && ExecutionPrice(st.orders[n].intent, price, env.bps) == price
    ensures var fill := FillFor(env, st, n, price, quantity, bar, now);
            fill.costs == WholeCharge(env, st.orders[n].intent.side, Value(quantity, price), st.orders[n].forced) && fill.symbol == bar.symbol
  {
    hide ExecutionPrice, Value, ChargeFor, WholeCharge;
    FirstCharge(env, st.orders[n], price);
  }

  lemma BookedState(st: Sim, r: Sim, n: nat, fill: Fill, turnover: real, now: Time)
    requires n < |st.orders| && Booked(st, r, n, fill, turnover, now) && fill.quantity == st.orders[n].Remaining()
    ensures |r.orders| == |st.orders| && r.orders[n].intent == st.orders[n].intent && r.orders[n].forced == st.orders[n].forced
    ensures r.orders[n].status == Filled
    ensures r.prices == st.prices && r.equity == st.equity && r.peak == st.peak
    ensures forall i | 0 <= i < |st.orders| && i != n && !st.orders[i].Active() :: r.orders[i] == st.orders[i]
  {
    hide Siblings;
  }

  lemma StartsSound(env: Env)
    ensures Sound(env, InitialSim(env)) && InitialSim(env).book.Held("A") == 0
  {
  }

  // ----- charges of the square-off profile

  /** No charges but one for squaring off a position. */
  function SquareOff(charge: real): CostProfile
    requires charge >= 0.0
  {
    RawProfile(0.0, 0.0, 0.0, 0.0, 0.0, 0.0, 0.0, 0.0, 0.0, 0.0, [], 0.0, charge)
  }

  /** Purchases and ordinary sales are free; a forced sale pays the square-off charge. */
  lemma SquareOffCharge(p: CostProfile, side: Side, value: real, charge: real, forced: bool, paise: int)
    requires charge >= 0.0 && p == SquareOff(charge) && value > 0.0 && charge == paise as real / 100.0
    ensures Cumulative(ReferenceCosts(p), side, value, forced) == Ok(NO_COSTS.(other := if forced then charge else 0.0))
    ensures NO_COSTS.(other := charge).Total() == charge
  {
    PaisaNearest(charge, paise);
    PaisaNearest(0.0, 0);
    assert Paisa(charge) == charge && Paisa(0.0) == 0.0;
    hide Paisa;
    assert Proportional(p, value) == Amounts(0.0, 0.0, 0.0, 0.0, 0.0, 0.0, 0.0, 0.0);
    hide Proportional;
    assert GstBase(Rounded(p, side, Proportional(p, value), forced), []) == 0.0;
  }
}
