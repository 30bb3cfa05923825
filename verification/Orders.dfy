/** Simulated orders, intents and the order life cycle. */
module Orders {
  import opened Common

  type Symbol = string

  datatype Side = Buy | Sell

  datatype OrderType = Market | Limit | StopMarket

  datatype Status =
    | Created | Accepted | Pending | Triggered | PartiallyFilled
    | Filled | Cancelled | Rejected | Expired

  /** The word inside a baseline reference, "<symbol>:<cycle>:<TAG>:<sequence>". */
  datatype Tag = Entry | Stop | Target | Reversal | StopRemainder | Cancel | Oco

  /**
   * References are strings. Those the baseline strategy makes up are kept in parts; module
   * References shows that testing the parts is testing the text.
   */
  datatype Reference =
    | Lifecycle(symbol: Symbol, cycle: nat, tag: Tag, sequence: nat)
    | Text(text: string)

  const FORCED_EXIT := Text("FORCED_SESSION_EXIT")

  const MAX_QUANTITY := 1_000_000_000

  datatype RawIntent = RawIntent(
    reference: Reference,
    symbol: Symbol,
    side: Side,
    quantity: int,
    orderType: OrderType,
    createdAt: Time,
    featureTimestamp: Time,
    limitPrice: Option<real>,
    triggerPrice: Option<real>,
    ocoGroup: Option<Reference>,
    requiredFeatures: seq<string>)
  {
    /** The field bounds and the model validator of TradeIntent. */
    predicate Valid() {
      && 0 < quantity <= MAX_QUANTITY
      && (limitPrice.Some? ==> limitPrice.value > 0.0)
      && (triggerPrice.Some? ==> triggerPrice.value > 0.0)
      && (orderType == Limit <==> limitPrice.Some?)
      && (orderType == StopMarket <==> triggerPrice.Some?)
      && featureTimestamp < createdAt
      && (ocoGroup.Some? ==> side == Sell)
    }
  }

  const MINIMAL_INTENT :=
    RawIntent(FORCED_EXIT, "A", Sell, 1, Market, 1, 0, None, None, None, [])

  /** An intent exists only once its validator accepted it. */
  type TradeIntent = i: RawIntent | i.Valid() witness MINIMAL_INTENT

  function Validated(raw: RawIntent): Result<TradeIntent> {
    if raw.Valid() then Ok(raw) else Err(InvalidIntent)
  }

  datatype Transition = Transition(timestamp: Time, status: Status, reason: Reference)

  datatype SimOrder = SimOrder(
    orderId: nat,
    intent: TradeIntent,
    eligibleFrom: Option<Time>,
    status: Status,
    filledQuantity: int,
    executedTurnover: real,
    transitions: seq<Transition>,
    forced: bool)
  {
    function Remaining(): int { intent.quantity - filledQuantity }

    predicate Active() {
      status in {Accepted, Pending, Triggered, PartiallyFilled}
    }

    predicate EverTriggered() { exists t | t in transitions :: t.status == Triggered }

    /** A terminal order cannot move again. */
    function To(next: Status, timestamp: Time, reason: Reference): Result<SimOrder> {
      if !Active() && status != Created then Err(TerminalOrder)
      else Ok(Moved(next, timestamp, reason))
    }

    /** The copy a successful transition returns. */
    function Moved(next: Status, timestamp: Time, reason: Reference): SimOrder {
      this.(status := next, transitions := transitions + [Transition(timestamp, next, reason)])
    }
  }

  /** A trigger, once recorded, survives every later transition; a new one appears only by moving to TRIGGERED. */
  lemma MovedTrigger(o: SimOrder, next: Status, now: Time, reason: Reference)
    ensures o.Moved(next, now, reason).EverTriggered() <==> (o.EverTriggered() || next == Triggered)
  {
    var moved := o.Moved(next, now, reason);
    assert moved.transitions[|o.transitions|] == Transition(now, next, reason);
    assert forall t :: t in o.transitions ==> t in moved.transitions;
  }
}
