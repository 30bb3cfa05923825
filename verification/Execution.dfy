/** Which price an order reaches in a completed bar, and what slippage and limits do to it. */
module Execution {
  import opened Common
  import opened Orders

  datatype RawBar = RawBar(
    symbol: Symbol, timestamp: Time, open: real, high: real, low: real, close: real, volume: nat)
  {
    predicate Valid() {
      0.0 < low <= MinReal(open, close) <= MaxReal(open, close) <= high
    }
  }

  type Bar = b: RawBar | b.Valid() witness RawBar("A", 0, 1.0, 1.0, 1.0, 1.0, 0)

  /** A stored candle with its completion time. */
  datatype SnapshotBar = SnapshotBar(bar: Bar, availableAt: Time)

  /** Slippage in basis points, as the slippage model's constructor accepts it. */
  type Bps = b: real | 0.0 <= b < 10000.0

  function BasePrice(order: SimOrder, bar: Bar): Option<real> {
    var intent := order.intent;
    if intent.orderType == Market || order.EverTriggered() then Some(bar.open)
    else if intent.orderType == Limit then
      if intent.side == Buy && bar.low <= intent.limitPrice.value then
        Some(MinReal(bar.open, intent.limitPrice.value))
      else if intent.side == Sell && bar.high >= intent.limitPrice.value then
        Some(MaxReal(bar.open, intent.limitPrice.value))
      else None
    else
      if intent.side == Buy && bar.high >= intent.triggerPrice.value then
        Some(MaxReal(bar.open, intent.triggerPrice.value))
      else if intent.side == Sell && bar.low <= intent.triggerPrice.value then
        Some(MinReal(bar.open, intent.triggerPrice.value))
      else None
  }

  function Slipped(bps: Bps, price: real, side: Side): real {
    price * (1.0 + (if side == Buy then bps as real else -(bps as real)) / 10000.0)
  }

  function ExecutionPrice(intent: TradeIntent, base: real, bps: Bps): real {
    var price := Slipped(bps, base, intent.side);
    match intent.limitPrice
    case None => price
    case Some(limit) => if intent.side == Buy then MinReal(price, limit) else MaxReal(price, limit)
  }

  /**
   * The price a bar offers an order: the open for a market order or a stop triggered before; else the level, or the open
   * if the bar opened beyond it.
   */
  ghost predicate Offers(bar: RawBar, intent: TradeIntent, base: real) {
    match intent.orderType
    case Market => base == bar.open
    case Limit =>
      var limit := intent.limitPrice.value;
      if intent.side == Buy then bar.low <= limit && base == (if bar.open <= limit then bar.open else limit)
      else bar.high >= limit && base == (if bar.open >= limit then bar.open else limit)
    case StopMarket =>
      var trigger := intent.triggerPrice.value;
      || base == bar.open
      || (if intent.side == Buy then bar.high >= trigger && base == (if bar.open >= trigger then bar.open else trigger)
          else bar.low <= trigger && base == (if bar.open <= trigger then bar.open else trigger))
  }

  /**
   * The price paid for an offered one: the offer raised, for a purchase, or lowered, for a sale, by so many ten-thousandths;
   * a limit order pays its limit where that would be beyond it.
   */
  ghost predicate PaidFor(intent: TradeIntent, base: real, bps: real, price: real) {
    var slipped := if intent.side == Buy then base * (10000.0 + bps) else base * (10000.0 - bps);
    if intent.limitPrice.None? then price * 10000.0 == slipped
    else
      var limit := intent.limitPrice.value;
      if (if intent.side == Buy then slipped <= limit * 10000.0 else slipped >= limit * 10000.0) then price * 10000.0 == slipped
      else price == limit
  }

  /** What a reached base price satisfies: positive, and within the limit of a limit order. */
  predicate Reached(intent: TradeIntent, base: real) {
    && base > 0.0
    && (intent.limitPrice.Some? ==>
          if intent.side == Buy then base <= intent.limitPrice.value else base >= intent.limitPrice.value)
  }

  /** Only stop orders ever trigger, so a limit order's base price respects its limit. */
  lemma BaseReached(order: SimOrder, bar: Bar)
    requires order.EverTriggered() ==> order.intent.orderType == StopMarket
    requires BasePrice(order, bar).Some?
    ensures Offers(bar, order.intent, BasePrice(order, bar).value)
  {
  }

  /** Such a price is positive, inside the order's limit and the bar's range. */
  lemma OffersReached(bar: Bar, intent: TradeIntent, base: real)
    requires Offers(bar, intent, base)
    ensures Reached(intent, base) && bar.low <= base <= bar.high
  {
  }

  lemma ScaledOrder(a: real, b: real, factor: real)
    requires a <= b && factor >= 0.0
    ensures a * factor <= b * factor
  {
    assert (b - a) * factor >= 0.0;
    assert (b - a) * factor == b * factor - a * factor;
  }

  /** A sale never brings in less than the bar's low, slipped. */
  lemma SaleAboveLow(intent: TradeIntent, base: real, low: real, bps: Bps, price: real)
    requires intent.side == Sell && low <= base && PaidFor(intent, base, bps, price)
    ensures price * 10000.0 >= low * (10000.0 - bps)
  {
    ScaledOrder(low, base, 10000.0 - bps);
  }

  /**
   * The executed price is positive, never better than the base price for the order's side, never beyond
   * the limit of a limit order, and off the base by at most the configured fraction.
   */
  lemma ExecutionAdverse(intent: TradeIntent, base: real, bps: Bps)
    requires Reached(intent, base)
    ensures ExecutionPrice(intent, base, bps) > 0.0
    ensures intent.side == Buy ==> ExecutionPrice(intent, base, bps) >= base
    ensures intent.side == Sell ==> ExecutionPrice(intent, base, bps) <= base
    ensures intent.limitPrice.Some? && intent.side == Buy ==> ExecutionPrice(intent, base, bps) <= intent.limitPrice.value
    ensures intent.limitPrice.Some? && intent.side == Sell ==> ExecutionPrice(intent, base, bps) >= intent.limitPrice.value
    ensures Abs(ExecutionPrice(intent, base, bps) - base) * 10000.0 <= base * bps
    ensures PaidFor(intent, base, bps, ExecutionPrice(intent, base, bps))
  {
    var f: real := bps / 10000.0;
    assert 0.0 <= f < 1.0;
    assert Slipped(bps, base, Buy) == base + base * f;
    assert Slipped(bps, base, Sell) == base - base * f by {
      assert -(bps as real) / 10000.0 == -f;
      assert base * (1.0 + -f) == base - base * f;
    }
    assert 0.0 <= base * f < base by {
      assert base - base * f == base * (1.0 - f);
    }
    assert base * f * 10000.0 == base * bps;
  }

  /** The documented reachability: exactly when the bar's range touches the order's level. */
  lemma Reachability(order: SimOrder, bar: Bar)
    ensures order.intent.orderType == Market || order.EverTriggered() ==> BasePrice(order, bar) == Some(bar.open)
    ensures !order.EverTriggered() && order.intent.orderType == Limit ==>
              (BasePrice(order, bar).Some? <==>
                 if order.intent.side == Buy then bar.low <= order.intent.limitPrice.value
                 else bar.high >= order.intent.limitPrice.value)
    ensures !order.EverTriggered() && order.intent.orderType == StopMarket ==>
              (BasePrice(order, bar).Some? <==>
                 if order.intent.side == Buy then bar.high >= order.intent.triggerPrice.value
                 else bar.low <= order.intent.triggerPrice.value)
    // Reached already at the open, an order is priced at the open; reached later, at its level.
    ensures !order.EverTriggered() && order.intent.orderType != Market && BasePrice(order, bar).Some? ==>
              var level := if order.intent.orderType == Limit then order.intent.limitPrice.value else order.intent.triggerPrice.value;
              var fromBelow := (order.intent.side == Buy) == (order.intent.orderType == StopMarket);
              BasePrice(order, bar).value == if (if fromBelow then bar.open >= level else bar.open <= level) then bar.open else level
    // A gap through the stop fills at the adverse open, never at the better trigger.
    ensures !order.EverTriggered() && order.intent.orderType == StopMarket && order.intent.side == Sell && BasePrice(order, bar).Some? ==>
              BasePrice(order, bar).value <= bar.open && BasePrice(order, bar).value <= order.intent.triggerPrice.value
    ensures BasePrice(order, bar).Some? ==>
              bar.low <= BasePrice(order, bar).value <= bar.high
  {
  }
}
