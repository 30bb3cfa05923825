/**
 * The baseline strategy and the simulator together: the joint invariant of one symbol's strategy state,
 * working orders and inventory, kept by every operation of either side.
 */
module ClosedLoop {
  import opened Common
  import opened Orders
  import opened Costs
  import opened Execution
  import opened Accounting
  import opened Calendars
  import opened FeatureRows
  import opened Strategies
  import opened Baseline
  import opened Engine
  import opened Ledger
  import opened Safety
  import opened Grids
  import opened Timing
  import opened Flattening

  /** An active ordinary order of the symbol. */
  predicate Working(o: SimOrder, symbol: Symbol) { o.intent.symbol == symbol && !o.forced && o.Active() }

  /** What the working sales of a symbol can be, by order index. */
  datatype Shape =
    | Bare
    | Exiting(exit: nat)
    | Stopping(stop: nat)
    | Taking(target: nat)
    | Paired(stop: nat, target: nat)
  {
    function Members(): set<nat> {
      match this
      case Bare => {}
      case Exiting(m) => {m}
      case Stopping(s) => {s}
      case Taking(t) => {t}
      case Paired(s, t) => {s, t}
    }
  }

  /** The order type each kind of request has. */
  function TypeOf(tag: Tag): OrderType {
    match tag
    case Stop => StopMarket
    case Target => Limit
    case _ => Market
  }

  /** An ordinary order of the symbol bears a reference, and a group, that the strategy made up for it. */
  ghost predicate Owned(o: SimOrder, symbol: Symbol, state: State) {
    var r := o.intent.reference;
    && r.Lifecycle? && r.symbol == symbol && r.cycle <= state.cycle && r.sequence <= state.sequence
    && (r.tag == Entry <==> o.intent.side == Buy) && o.intent.orderType == TypeOf(r.tag)
    && (o.intent.ocoGroup.Some? ==>
          var g := o.intent.ocoGroup.value;
          g.Lifecycle? && g.symbol == symbol && g.tag == Oco && g.sequence <= state.sequence)
  }

  ghost predicate SaleFits(st: Sim, symbol: Symbol, state: State, i: nat, tags: set<Tag>) {
    && i < |st.orders| && Working(st.orders[i], symbol) && st.orders[i].intent.side == Sell
    && st.orders[i].intent.reference.Lifecycle? && st.orders[i].intent.reference.tag in tags
    && 0 < st.orders[i].Remaining() <= st.book.Held(symbol)
  }

  ghost predicate OfThisCycle(o: SimOrder, state: State) {
    o.intent.reference.Lifecycle? && o.intent.reference.cycle == state.cycle
  }

  /** The working sales never ask for more than is held, and are one exit, one part-filled leg, or a whole pair. */
  ghost predicate ShapeFits(st: Sim, symbol: Symbol, state: State, shape: Shape, buy: Option<nat>) {
    match shape
    case Bare => true
    case Exiting(m) =>
      SaleFits(st, symbol, state, m, {Reversal, StopRemainder}) && st.orders[m].Remaining() == st.book.Held(symbol) && buy == None
    case Stopping(s) =>
      SaleFits(st, symbol, state, s, {Stop}) && st.orders[s].filledQuantity > 0 && OfThisCycle(st.orders[s], state)
    case Taking(t) =>
      SaleFits(st, symbol, state, t, {Target}) && st.orders[t].filledQuantity > 0 && OfThisCycle(st.orders[t], state)
    case Paired(s, t) =>
      && SaleFits(st, symbol, state, s, {Stop}) && SaleFits(st, symbol, state, t, {Target}) && s < t
      && SameGroup(st.orders[s], st.orders[t])
      && st.orders[s].filledQuantity == 0 && st.orders[t].filledQuantity == 0
      && OfThisCycle(st.orders[s], state) && OfThisCycle(st.orders[t], state)
      && st.orders[s].intent.quantity == st.orders[t].intent.quantity
      && state.protection.Some? && state.protection.value.0 == st.orders[s].intent.quantity
  }

  /** A pair stands at the frozen ATR's distances from the average it was made for. */
  ghost predicate PairPriced(st: Sim, p: Parameters, state: State, shape: Shape) {
    shape.Paired? ==>
      && shape.stop < |st.orders| && shape.target < |st.orders| && state.protection.Some? && state.entryAtr.Some?
      && st.orders[shape.stop].intent.triggerPrice == Some(StopPrice(p, state.protection.value.1, state.entryAtr.value))
      && st.orders[shape.target].intent.limitPrice == Some(TargetPrice(p, state.protection.value.1, state.entryAtr.value))
  }

  /** The working purchase is the entry on record, and together with the holding stays within the size. */
  ghost predicate BuyFits(st: Sim, symbol: Symbol, p: Parameters, state: State, buy: Option<nat>) {
    buy.Some? ==>
      && buy.value < |st.orders| && Working(st.orders[buy.value], symbol) && st.orders[buy.value].intent.side == Buy
      && state.entryReference == Some(st.orders[buy.value].intent.reference)
      && state.entryAtr.Some?
      && st.book.Held(symbol) + st.orders[buy.value].Remaining() <= p.quantity
  }

  /** Every working order of the symbol is accounted for. */
  ghost predicate Accounted(st: Sim, symbol: Symbol, buy: Option<nat>, shape: Shape) {
    forall i: nat | i < |st.orders| && Working(st.orders[i], symbol) ::
      if st.orders[i].intent.side == Buy then buy == Some(i) else i in shape.Members()
  }

  ghost predicate AllOwned(st: Sim, symbol: Symbol, state: State) {
    forall i: nat | i < |st.orders| && st.orders[i].intent.symbol == symbol && !st.orders[i].forced :: Owned(st.orders[i], symbol, state)
  }

  ghost predicate StateFits(st: Sim, symbol: Symbol, p: Parameters, state: State) {
    && 0 <= st.book.Held(symbol) <= p.quantity
    && (st.book.Held(symbol) > 0 ==> state.entryAtr.Some?)
    && (state.entryAtr.Some? ==> state.entryAtr.value > 0.0)
  }

  ghost predicate Joint(st: Sim, symbol: Symbol, p: Parameters, state: State, buy: Option<nat>, shape: Shape) {
    && StateFits(st, symbol, p, state)
    && AllOwned(st, symbol, state)
    && Accounted(st, symbol, buy, shape)
    && BuyFits(st, symbol, p, state, buy)
    && ShapeFits(st, symbol, state, shape, buy)
    && PairPriced(st, p, state, shape)
  }

  // ----- the fill loop

  /** A visit to another symbol's order. */
  lemma VisitedElsewhere(st: Sim, r: Sim, index: nat, bar: Bar, now: Time, symbol: Symbol, p: Parameters, state: State, buy: Option<nat>, shape: Shape)
    requires index < |st.orders| && |r.orders| == |st.orders| && st.orders[index].intent.symbol == bar.symbol != symbol
    requires Unfilled(st, r, index) || FilledOne(st, r, index, bar, now)
    requires Joint(st, symbol, p, state, buy, shape)
    ensures Joint(r, symbol, p, state, buy, shape)
  {
    hide Signed, Joint, SimOrder.Remaining;
    assert forall i | 0 <= i < |st.orders| :: r.orders[i].intent.symbol == st.orders[i].intent.symbol;
    assert forall i | 0 <= i < |st.orders| && st.orders[i].intent.symbol == symbol :: r.orders[i] == st.orders[i];
    JointFrame(st, r, symbol, p, state, buy, shape);
  }

  /** The invariant of a symbol looks at that symbol's orders and holding only. */
  lemma JointFrame(st: Sim, r: Sim, symbol: Symbol, p: Parameters, state: State, buy: Option<nat>, shape: Shape)
    requires Joint(st, symbol, p, state, buy, shape)
    requires |st.orders| <= |r.orders| && r.book.Held(symbol) == st.book.Held(symbol)
    requires forall i | 0 <= i < |st.orders| && (st.orders[i].intent.symbol == symbol || r.orders[i].intent.symbol == symbol) :: r.orders[i] == st.orders[i]
    requires forall i | |st.orders| <= i < |r.orders| :: r.orders[i].intent.symbol != symbol || r.orders[i].forced
    ensures Joint(r, symbol, p, state, buy, shape)
  {
    hide Joint, Owned, ShapeFits, PairPriced, BuyFits, Accounted, SimOrder.Remaining, SimOrder.Active;
    JointParts(st, symbol, p, state, buy, shape);
    forall i: nat | i < |r.orders| && r.orders[i].intent.symbol == symbol && !r.orders[i].forced
      ensures Owned(r.orders[i], symbol, state)
    {
      assert Owned(st.orders[i], symbol, state);
    }
    ShapeFrame(st, r, symbol, state, shape, buy);
    PairFrame(st, r, symbol, p, state, shape, buy);
    BuyFrame(st, r, symbol, p, state, buy, shape);
    JointWhole(r, symbol, p, state, buy, shape);
  }

  lemma PairFrame(st: Sim, r: Sim, symbol: Symbol, p: Parameters, state: State, shape: Shape, buy: Option<nat>)
    requires ShapeFits(st, symbol, state, shape, buy) && PairPriced(st, p, state, shape) && |st.orders| <= |r.orders|
    requires forall i | 0 <= i < |st.orders| && st.orders[i].intent.symbol == symbol :: r.orders[i] == st.orders[i]
    ensures PairPriced(r, p, state, shape)
  {
    hide SimOrder.Remaining, SimOrder.Active, StopPrice, TargetPrice;
  }

  lemma BuyFrame(st: Sim, r: Sim, symbol: Symbol, p: Parameters, state: State, buy: Option<nat>, shape: Shape)
    requires BuyFits(st, symbol, p, state, buy) && Accounted(st, symbol, buy, shape)
    requires |st.orders| <= |r.orders| && r.book.Held(symbol) == st.book.Held(symbol)
    requires forall i | 0 <= i < |st.orders| && (st.orders[i].intent.symbol == symbol || r.orders[i].intent.symbol == symbol) :: r.orders[i] == st.orders[i]
    requires forall i | |st.orders| <= i < |r.orders| :: r.orders[i].intent.symbol != symbol || r.orders[i].forced
    ensures BuyFits(r, symbol, p, state, buy) && Accounted(r, symbol, buy, shape)
  {
    hide SimOrder.Remaining, SimOrder.Active;
  }

  lemma ShapeFrame(st: Sim, r: Sim, symbol: Symbol, state: State, shape: Shape, buy: Option<nat>)
    requires ShapeFits(st, symbol, state, shape, buy)
    requires |st.orders| <= |r.orders| && r.book.Held(symbol) == st.book.Held(symbol)
    requires forall i | 0 <= i < |st.orders| && st.orders[i].intent.symbol == symbol :: r.orders[i] == st.orders[i]
    ensures ShapeFits(r, symbol, state, shape, buy)
  {
    hide SimOrder.Remaining, SimOrder.Active;
  }

  lemma SameOwned(st: Sim, r: Sim, symbol: Symbol, state: State)
    requires |r.orders| == |st.orders| && AllOwned(st, symbol, state)
    requires forall i | 0 <= i < |st.orders| :: r.orders[i].intent == st.orders[i].intent && r.orders[i].forced == st.orders[i].forced
    ensures AllOwned(r, symbol, state)
  {
    forall i: nat | i < |r.orders| && r.orders[i].intent.symbol == symbol && !r.orders[i].forced
      ensures Owned(r.orders[i], symbol, state)
    {
      assert Owned(st.orders[i], symbol, state);
    }
  }

  /** A liquidation's fill: it was alone, so nothing of the strategy was working. */
  lemma ForcedVisited(st: Sim, r: Sim, index: nat, bar: Bar, now: Time, p: Parameters, state: State, buy: Option<nat>, shape: Shape)
    requires index < |st.orders| && |r.orders| == |st.orders| && st.orders[index].intent.symbol == bar.symbol
    requires st.orders[index].forced && st.orders[index].Active() && st.orders[index].intent.side == Sell && ForcedAlone(st)
    requires Unfilled(st, r, index) || FilledOne(st, r, index, bar, now)
    requires Joint(st, bar.symbol, p, state, buy, shape)
    ensures Joint(r, bar.symbol, p, state, None, Bare)
  {
    hide Owned;
    var symbol := bar.symbol;
    assert forall j | 0 <= j < |st.orders| && j != index && st.orders[j].intent.symbol == symbol :: !st.orders[j].Active();
    assert forall j | 0 <= j < |st.orders| && st.orders[j].intent.symbol == symbol :: !Working(r.orders[j], symbol);
    SameOwned(st, r, symbol, state);
  }

  /** Orders the invariant cannot tell apart. */
  ghost predicate Alike(a: SimOrder, b: SimOrder, symbol: Symbol) {
    b.intent == a.intent && b.forced == a.forced && b.filledQuantity == a.filledQuantity && (Working(a, symbol) <==> Working(b, symbol))
  }

  lemma JointAlike(st: Sim, r: Sim, symbol: Symbol, p: Parameters, state: State, buy: Option<nat>, shape: Shape)
    requires Joint(st, symbol, p, state, buy, shape) && |r.orders| == |st.orders| && r.book.Held(symbol) == st.book.Held(symbol)
    requires forall i | 0 <= i < |st.orders| :: Alike(st.orders[i], r.orders[i], symbol)
    ensures Joint(r, symbol, p, state, buy, shape)
  {
    hide Joint, Owned, Accounted, BuyFits, ShapeFits, PairPriced, SimOrder.Active, SimOrder.Remaining;
    JointParts(st, symbol, p, state, buy, shape);
    SameOwned(st, r, symbol, state);
    BuyAlike(st, r, symbol, p, state, buy, shape);
    ShapeAlike(st, r, symbol, p, state, buy, shape);
    JointWhole(r, symbol, p, state, buy, shape);
  }

  lemma BuyAlike(st: Sim, r: Sim, symbol: Symbol, p: Parameters, state: State, buy: Option<nat>, shape: Shape)
    requires Accounted(st, symbol, buy, shape) && BuyFits(st, symbol, p, state, buy)
    requires |r.orders| == |st.orders| && r.book.Held(symbol) == st.book.Held(symbol)
    requires forall i | 0 <= i < |st.orders| :: Alike(st.orders[i], r.orders[i], symbol)
    ensures Accounted(r, symbol, buy, shape) && BuyFits(r, symbol, p, state, buy)
  {
    hide Working;
  }

  lemma ShapeAlike(st: Sim, r: Sim, symbol: Symbol, p: Parameters, state: State, buy: Option<nat>, shape: Shape)
    requires ShapeFits(st, symbol, state, shape, buy) && PairPriced(st, p, state, shape)
    requires |r.orders| == |st.orders| && r.book.Held(symbol) == st.book.Held(symbol)
    requires forall i | 0 <= i < |st.orders| :: Alike(st.orders[i], r.orders[i], symbol)
    ensures ShapeFits(r, symbol, state, shape, buy) && PairPriced(r, p, state, shape)
  {
    hide Working, StopPrice, TargetPrice;
  }

  /** A visit without a fill that leaves the order active. */
  lemma UnfilledAlike(st: Sim, r: Sim, index: nat, symbol: Symbol)
    requires index < |st.orders| && |r.orders| == |st.orders| && Unfilled(st, r, index)
    requires st.orders[index].Active() ==> r.orders[index].Active()
    ensures r.book == st.book && forall i | 0 <= i < |st.orders| :: Alike(st.orders[i], r.orders[i], symbol)
  {
  }

  // ----- a visit to the entry order

  /** What a purchase leaves: the other orders as they were, and as many shares more held as fewer remain. */
  ghost predicate Acquired(st: Sim, r: Sim, index: nat, symbol: Symbol) {
    && index < |st.orders| == |r.orders|
    && (forall j | 0 <= j < |st.orders| :: r.orders[j].intent == st.orders[j].intent && r.orders[j].forced == st.orders[j].forced)
    && (forall j | 0 <= j < |st.orders| && j != index :: r.orders[j] == st.orders[j])
    && r.book.Held(symbol) - st.book.Held(symbol) == st.orders[index].Remaining() - r.orders[index].Remaining() >= 0
    && r.orders[index].Remaining() >= 0
  }

  lemma BuyEffect(st: Sim, r: Sim, index: nat, bar: Bar, now: Time)
    requires index < |st.orders| && |r.orders| == |st.orders| && Working(st.orders[index], bar.symbol) && st.orders[index].intent.side == Buy
    requires Unfilled(st, r, index) || FilledOne(st, r, index, bar, now)
    requires st.orders[index].Remaining() >= 0
    ensures Acquired(st, r, index, bar.symbol)
  {
  }

  /** A visit to the entry order. */
  lemma BuyVisited(st: Sim, r: Sim, index: nat, bar: Bar, now: Time, p: Parameters, state: State, buy: Option<nat>, shape: Shape) returns (laterBuy: Option<nat>)
    requires index < |st.orders| && |r.orders| == |st.orders| && Working(st.orders[index], bar.symbol) && st.orders[index].intent.side == Buy
    requires Unfilled(st, r, index) || FilledOne(st, r, index, bar, now)
    requires st.orders[index].Remaining() >= 0
    requires Joint(st, bar.symbol, p, state, buy, shape)
    ensures Joint(r, bar.symbol, p, state, laterBuy, shape)
  {
    hide Joint, Owned, Unfilled, FilledOne, Acquired, BuyFits, ShapeFits, PairPriced, SimOrder.Active, SimOrder.Remaining;
    var symbol := bar.symbol;
    JointParts(st, symbol, p, state, buy, shape);
    assert buy == Some(index);
    laterBuy := if r.orders[index].Active() then buy else None;
    BuyEffect(st, r, index, bar, now);
    AcquiredState(st, r, index, symbol, p, state);
    SameOwned(st, r, symbol, state) by { AcquiredIntents(st, r, index, symbol); }
    AcquiredOrders(st, r, index, symbol, p, state, laterBuy, shape);
    AcquiredShape(st, r, index, symbol, p, state, laterBuy, shape);
    JointWhole(r, symbol, p, state, laterBuy, shape);
  }

  lemma AcquiredIntents(st: Sim, r: Sim, index: nat, symbol: Symbol)
    requires Acquired(st, r, index, symbol)
    ensures forall j | 0 <= j < |st.orders| :: r.orders[j].intent == st.orders[j].intent && r.orders[j].forced == st.orders[j].forced
  {
  }

  lemma AcquiredState(st: Sim, r: Sim, index: nat, symbol: Symbol, p: Parameters, state: State)
    requires Acquired(st, r, index, symbol) && StateFits(st, symbol, p, state) && BuyFits(st, symbol, p, state, Some(index))
    ensures StateFits(r, symbol, p, state)
  {
  }

  lemma AcquiredOrders(st: Sim, r: Sim, index: nat, symbol: Symbol, p: Parameters, state: State, buy: Option<nat>, shape: Shape)
    requires Acquired(st, r, index, symbol) && st.orders[index].intent.side == Buy
    requires Accounted(st, symbol, Some(index), shape) && BuyFits(st, symbol, p, state, Some(index))
    requires buy == if r.orders[index].Active() then Some(index) else None
    ensures Accounted(r, symbol, buy, shape) && BuyFits(r, symbol, p, state, buy)
  {
  }

  lemma AcquiredShape(st: Sim, r: Sim, index: nat, symbol: Symbol, p: Parameters, state: State, buy: Option<nat>, shape: Shape)
    requires Acquired(st, r, index, symbol) && st.orders[index].intent.side == Buy
    requires ShapeFits(st, symbol, state, shape, Some(index)) && PairPriced(st, p, state, shape)
    ensures ShapeFits(r, symbol, state, shape, buy) && PairPriced(r, p, state, shape)
  {
    hide SimOrder.Remaining, SimOrder.Active, StopPrice, TargetPrice;
  }

  // ----- a visit to a working sale

  /** What a sale leaves: its group is terminal, purchases are untouched, and as many shares fewer held as remain. */
  ghost predicate Sold(st: Sim, r: Sim, index: nat, symbol: Symbol) {
    && index < |st.orders| == |r.orders|
    && (forall j | 0 <= j < |st.orders| :: r.orders[j].intent == st.orders[j].intent && r.orders[j].forced == st.orders[j].forced)
    && (forall j | 0 <= j < |st.orders| && j != index && Working(r.orders[j], symbol) :: r.orders[j] == st.orders[j])
    && (forall j | 0 <= j < |st.orders| && j != index && st.orders[j].intent.ocoGroup.None? :: r.orders[j] == st.orders[j])
    && (forall j | 0 <= j < |st.orders| && j != index && st.orders[j].Active() && SameGroup(st.orders[index], st.orders[j]) :: !r.orders[j].Active())
    && r.orders[index].Remaining() - st.orders[index].Remaining() == r.book.Held(symbol) - st.book.Held(symbol) < 0
    && r.orders[index].filledQuantity > st.orders[index].filledQuantity && r.orders[index].Remaining() >= 0
    && (r.orders[index].Active() <==> r.orders[index].Remaining() > 0)
    && r.orders[index].status != Rejected
  }

  lemma SaleSold(st: Sim, r: Sim, index: nat, bar: Bar, now: Time)
    requires index < |st.orders| && |r.orders| == |st.orders| && Working(st.orders[index], bar.symbol) && st.orders[index].intent.side == Sell
    requires FilledOne(st, r, index, bar, now)
    ensures Sold(st, r, index, bar.symbol)
  {
  }

  lemma SaleUnfilled(st: Sim, r: Sim, index: nat, symbol: Symbol)
    requires index < |st.orders| && |r.orders| == |st.orders| && Working(st.orders[index], symbol) && st.orders[index].intent.side == Sell
    requires Unfilled(st, r, index) && st.orders[index].Remaining() <= st.book.Held(symbol)
    ensures r.orders[index].Active() && r.orders[index].status != Rejected
  {
  }

  /** The laterShapes members are the working sales; each asks for no more than is held. */
  lemma MemberFits(st: Sim, index: nat, symbol: Symbol, p: Parameters, state: State, buy: Option<nat>, shape: Shape)
    requires Joint(st, symbol, p, state, buy, shape)
    requires index < |st.orders| && Working(st.orders[index], symbol) && st.orders[index].intent.side == Sell
    ensures index in shape.Members() && st.orders[index].Remaining() <= st.book.Held(symbol)
  {
    hide Owned, AllOwned, SimOrder.Active, SimOrder.Remaining, PairPriced;
  }

  /** The shape after a sale of a member. */
  function AfterSale(shape: Shape, index: nat, active: bool): Shape {
    if !active then Bare
    else match shape
      case Paired(s, t) => if index == s then Stopping(s) else Taking(t)
      case other => other
  }

  /** A visit to a working sale: it is never rejected, and its fill takes as much from the holding as from the order. */
  lemma SaleVisited(st: Sim, r: Sim, index: nat, bar: Bar, now: Time, p: Parameters, state: State, buy: Option<nat>, shape: Shape) returns (laterShape: Shape)
    requires index < |st.orders| && |r.orders| == |st.orders| && Working(st.orders[index], bar.symbol) && st.orders[index].intent.side == Sell
    requires Unfilled(st, r, index) || FilledOne(st, r, index, bar, now)
    requires st.orders[index].filledQuantity >= 0
    requires Joint(st, bar.symbol, p, state, buy, shape)
    ensures Joint(r, bar.symbol, p, state, buy, laterShape)
    ensures r.orders[index].status != Rejected
  {
    hide Joint, Unfilled, FilledOne, Sold, SimOrder.Active, SimOrder.Remaining;
    var symbol := bar.symbol;
    MemberFits(st, index, symbol, p, state, buy, shape);
    if Unfilled(st, r, index) {
      SaleUnfilled(st, r, index, symbol);
      UnfilledAlike(st, r, index, symbol);
      JointAlike(st, r, symbol, p, state, buy, shape);
      laterShape := shape;
    } else {
      SaleSold(st, r, index, bar, now);
      SoldJoint(st, r, index, symbol, p, state, buy, shape);
      laterShape := AfterSale(shape, index, r.orders[index].Active());
    }
  }

  lemma SoldJoint(st: Sim, r: Sim, index: nat, symbol: Symbol, p: Parameters, state: State, buy: Option<nat>, shape: Shape)
    requires Sold(st, r, index, symbol) && index in shape.Members() && st.orders[index].filledQuantity >= 0
    requires st.orders[index].intent.side == Sell
    requires Joint(st, symbol, p, state, buy, shape)
    ensures r.orders[index].status != Rejected
    ensures Joint(r, symbol, p, state, buy, AfterSale(shape, index, r.orders[index].Active()))
  {
    hide Joint, Owned, Sold, BuyFits, ShapeFits, PairPriced, SimOrder.Active, SimOrder.Remaining;
    SoldFacts(st, r, index, symbol);
    var later := AfterSale(shape, index, r.orders[index].Active());
    JointParts(st, symbol, p, state, buy, shape);
    SameOwned(st, r, symbol, state);
    SoldState(st, r, index, symbol, p, state, shape, buy);
    SoldBuy(st, r, index, symbol, p, state, buy);
    SoldAccounted(st, r, index, symbol, state, buy, shape);
    SoldShape(st, r, index, symbol, p, state, buy, shape);
    JointWhole(r, symbol, p, state, buy, later);
  }

  lemma SoldFacts(st: Sim, r: Sim, index: nat, symbol: Symbol)
    requires Sold(st, r, index, symbol)
    ensures |r.orders| == |st.orders| && index < |st.orders| && r.orders[index].status != Rejected
    ensures forall j | 0 <= j < |st.orders| :: r.orders[j].intent == st.orders[j].intent && r.orders[j].forced == st.orders[j].forced
  {
    hide SimOrder.Active, SimOrder.Remaining;
  }

  lemma SoldState(st: Sim, r: Sim, index: nat, symbol: Symbol, p: Parameters, state: State, shape: Shape, buy: Option<nat>)
    requires Sold(st, r, index, symbol) && index in shape.Members()
    requires StateFits(st, symbol, p, state) && ShapeFits(st, symbol, state, shape, buy)
    ensures StateFits(r, symbol, p, state)
  {
    hide SimOrder.Active, SimOrder.Remaining;
  }

  lemma SoldBuy(st: Sim, r: Sim, index: nat, symbol: Symbol, p: Parameters, state: State, buy: Option<nat>)
    requires Sold(st, r, index, symbol) && BuyFits(st, symbol, p, state, buy) && st.orders[index].intent.side == Sell
    ensures BuyFits(r, symbol, p, state, buy)
  {
    hide SimOrder.Active, SimOrder.Remaining;
  }

  lemma SoldAccounted(st: Sim, r: Sim, index: nat, symbol: Symbol, state: State, buy: Option<nat>, shape: Shape)
    requires Sold(st, r, index, symbol) && index in shape.Members()
    requires Accounted(st, symbol, buy, shape) && ShapeFits(st, symbol, state, shape, buy)
    ensures Accounted(r, symbol, buy, AfterSale(shape, index, r.orders[index].Active()))
  {
    hide SimOrder.Active, SimOrder.Remaining;
  }

  lemma SoldShape(st: Sim, r: Sim, index: nat, symbol: Symbol, p: Parameters, state: State, buy: Option<nat>, shape: Shape)
    requires Sold(st, r, index, symbol) && index in shape.Members() && st.orders[index].filledQuantity >= 0
    requires ShapeFits(st, symbol, state, shape, buy)
    ensures ShapeFits(r, symbol, state, AfterSale(shape, index, r.orders[index].Active()), buy)
    ensures PairPriced(r, p, state, AfterSale(shape, index, r.orders[index].Active()))
  {
    hide SimOrder.Active, SimOrder.Remaining, SameGroup;
  }

  lemma VisitedJoint(env: Env, st: Sim, r: Sim, index: nat, base: Option<real>, bar: Bar, now: Time, left: Option<int>,
                     symbol: Symbol, p: Parameters, state: State, buy: Option<nat>, shape: Shape)
    returns (laterBuy: Option<nat>, laterShape: Shape)
    requires Sound(env, st) && index < |st.orders| && st.orders[index].intent.symbol == bar.symbol
    requires Visited(env, st, r, index, base, bar, now, left)
    requires ForcedAlone(st) && (st.orders[index].forced ==> st.orders[index].intent.side == Sell)
    requires Joint(st, symbol, p, state, buy, shape)
    ensures Joint(r, symbol, p, state, laterBuy, laterShape)
    ensures |r.orders| == |st.orders|
    ensures st.orders[index].Active() && !st.orders[index].forced && st.orders[index].intent.side == Sell && symbol == bar.symbol ==>
              r.orders[index].status != Rejected
  {
    hide Sound, Visited, Joint, Unfilled, FilledOne, Cumulative, ForcedAlone;
    VisitedSummary(env, st, r, index, base, bar, now, left);
    laterBuy, laterShape := buy, shape;
    if bar.symbol != symbol {
      VisitedElsewhere(st, r, index, bar, now, symbol, p, state, buy, shape);
    } else if !st.orders[index].Active() {
      InactiveVisited(st, r, index, bar, now, p, state, buy, shape);
    } else if st.orders[index].forced {
      ForcedVisited(st, r, index, bar, now, p, state, buy, shape);
      laterBuy, laterShape := None, Bare;
    } else if st.orders[index].intent.side == Buy {
      RemainingPositive(env, st, index);
      laterBuy := BuyVisited(st, r, index, bar, now, p, state, buy, shape);
    } else {
      FilledNatural(env, st);
      laterShape := SaleVisited(st, r, index, bar, now, p, state, buy, shape);
    }
  }

  lemma FilledNatural(env: Env, st: Sim)
    requires Sound(env, st)
    ensures forall i: nat | i < |st.orders| && st.orders[i].Active() :: st.orders[i].filledQuantity >= 0
  {
    hide Cumulative, Replay, FillSound;
    forall i: nat | i < |st.orders|
      ensures st.orders[i].filledQuantity >= 0
    {
      assert OrderSound(env, st.fills, st.orders[i], i + 1);
    }
  }

  lemma InactiveVisited(st: Sim, r: Sim, index: nat, bar: Bar, now: Time, p: Parameters, state: State, buy: Option<nat>, shape: Shape)
    requires index < |st.orders| && |r.orders| == |st.orders| && !st.orders[index].Active()
    requires Unfilled(st, r, index) || FilledOne(st, r, index, bar, now)
    requires Joint(st, bar.symbol, p, state, buy, shape)
    ensures Joint(r, bar.symbol, p, state, buy, shape)
  {
    hide Joint, Signed;
    assert r.orders == st.orders;
    JointFrame(st, r, bar.symbol, p, state, buy, shape);
  }

  // ----- what the strategy sees

  lemma ActiveRefsPush(orders: seq<OrderSnapshot>, o: OrderSnapshot, side: Side)
    ensures ActiveRefs(orders + [o], side) == ActiveRefs(orders, side) + if Ordinary(o) && o.side == side then [o.reference] else []
  {
    assert (orders + [o])[..|orders|] == orders;
  }

  predicate WorkingSide(o: SimOrder, symbol: Symbol, side: Side) { Working(o, symbol) && o.intent.side == side }

  lemma RefsPush(orders: seq<SimOrder>, symbol: Symbol, side: Side)
    requires orders != []
    ensures var n := |orders| - 1;
            ActiveRefs(Snapshots(orders, symbol), side)
            == ActiveRefs(Snapshots(orders[..n], symbol), side)
               + if WorkingSide(orders[n], symbol, side) then [orders[n].intent.reference] else []
  {
    var n := |orders| - 1;
    if orders[n].intent.symbol == symbol {
      ActiveRefsPush(Snapshots(orders[..n], symbol), Snapshot(orders[n]), side);
    } else {
      assert Snapshots(orders, symbol) == Snapshots(orders[..n], symbol);
    }
  }

  /** Some working order of the side bears the reference. */
  ghost predicate Bears(orders: seq<SimOrder>, symbol: Symbol, side: Side, r: Reference) {
    exists i: nat :: i < |orders| && WorkingSide(orders[i], symbol, side) && orders[i].intent.reference == r
  }

  lemma BearsPush(orders: seq<SimOrder>, symbol: Symbol, side: Side, r: Reference)
    requires orders != []
    ensures var n := |orders| - 1;
            Bears(orders, symbol, side, r)
            <==> Bears(orders[..n], symbol, side, r) || (WorkingSide(orders[n], symbol, side) && orders[n].intent.reference == r)
  {
    hide WorkingSide;
    var n := |orders| - 1;
    if Bears(orders[..n], symbol, side, r) {
      var i: nat :| i < n && WorkingSide(orders[..n][i], symbol, side) && orders[..n][i].intent.reference == r;
      assert orders[i] == orders[..n][i];
    }
    if Bears(orders, symbol, side, r) {
      var i: nat :| i < |orders| && WorkingSide(orders[i], symbol, side) && orders[i].intent.reference == r;
      if i < n {
        assert orders[..n][i] == orders[i];
      }
    }
  }

  /** The strategy's list of active references is that of the working orders. */
  lemma {:induction false} RefsExact(orders: seq<SimOrder>, symbol: Symbol, side: Side, r: Reference)
    ensures r in ActiveRefs(Snapshots(orders, symbol), side) <==> Bears(orders, symbol, side, r)
  {
    if orders != [] {
      hide ActiveRefs, Snapshots, WorkingSide, Bears;
      RefsExact(orders[..|orders| - 1], symbol, side, r);
      RefsPush(orders, symbol, side);
      BearsPush(orders, symbol, side, r);
    }
  }

  /** With at most one working order of a side, the list has at most one entry. */
  lemma {:induction false} RefsAtMostOne(orders: seq<SimOrder>, symbol: Symbol, side: Side, only: nat)
    requires forall i: nat | i < |orders| && WorkingSide(orders[i], symbol, side) :: i == only
    ensures |ActiveRefs(Snapshots(orders, symbol), side)| <= if only < |orders| then 1 else 0
  {
    if orders != [] {
      var n := |orders| - 1;
      assert forall i: nat | i < n :: orders[..n][i] == orders[i];
      RefsAtMostOne(orders[..n], symbol, side, only);
      RefsPush(orders, symbol, side);
    }
  }

  lemma {:induction false} FillingStopExact(orders: seq<OrderSnapshot>)
    ensures FillingStop(orders).Some? ==>
              var o := FillingStop(orders).value; o in orders && Ordinary(o) && HasTag(o.reference, Stop) && o.filledQuantity > 0
    ensures FillingStop(orders).None? ==>
              forall o | o in orders :: !(Ordinary(o) && HasTag(o.reference, Stop) && o.filledQuantity > 0)
  {
    hide HasTag;
    if orders != [] {
      FillingStopExact(orders[1..]);
    }
  }

  // ----- requests and their effect

  lemma {:induction false} RequestConcat(env: Env, grid: Grid, st: Sim, symbol: Symbol, now: Time, a: seq<Request>, b: seq<Request>)
    ensures var first := RequestAll(env, grid, st, symbol, now, a);
            RequestAll(env, grid, st, symbol, now, a + b)
            == if first.Ok? then RequestAll(env, grid, first.value, symbol, now, b) else first
    decreases a
  {
    hide Request1;
    if a == [] {
      assert a + b == b;
    } else {
      assert (a + b)[1..] == a[1..] + b;
      var next := Request1(env, grid, st, symbol, now, a[0]);
      if next.Ok? {
        RequestConcat(env, grid, next.value, symbol, now, a[1..], b);
      }
    }
  }

  /** Exactly the symbol's active orders named by the targets are cancelled. */
  ghost predicate Thinned(st: Sim, r: Sim, symbol: Symbol, targets: seq<Reference>, now: Time, reason: string) {
    && r.book == st.book && r.fills == st.fills && |r.orders| == |st.orders|
    && (forall i | 0 <= i < |st.orders| ::
          r.orders[i] == if st.orders[i].Active() && st.orders[i].intent.symbol == symbol && st.orders[i].intent.reference in targets
                         then st.orders[i].Moved(Cancelled, now, Text(reason)) else st.orders[i])
  }

  lemma CancelApplied(env: Env, grid: Grid, st: Sim, ctx: Context, state: State, targets: seq<Reference>, reason: string)
    ensures var requests := Cancelling(state, ctx, targets, reason).1;
            var r := RequestAll(env, grid, st, ctx.bar.symbol, ctx.currentTime, requests);
            r.Ok? && Thinned(st, r.value, ctx.bar.symbol, targets, ctx.currentTime, reason)
  {
    var requests := Cancelling(state, ctx, targets, reason).1;
    if targets != [] {
      var c := requests[0].cancel;
      var told := Emit(st, ctx.currentTime, Decided(ctx.bar.symbol, c.reference, c.featureTimestamp));
      MoveWhereExact(told, Targeted(ctx.bar.symbol, targets), Cancelled, ctx.currentTime, Text(reason), 0);
      var r := MoveWhere(told, Targeted(ctx.bar.symbol, targets), Cancelled, ctx.currentTime, Text(reason), 0);
      assert requests[1..] == [];
      assert RequestAll(env, grid, st, ctx.bar.symbol, ctx.currentTime, requests) == Ok(r);
    }
  }

  /** The targets are the working purchases, the working sales, or both. */
  ghost predicate Names(st: Sim, symbol: Symbol, targets: seq<Reference>, buys: bool, sells: bool) {
    forall i: nat | i < |st.orders| && Working(st.orders[i], symbol) ::
      st.orders[i].intent.reference in targets <==> if st.orders[i].intent.side == Buy then buys else sells
  }

  lemma ThinnedJoint(st: Sim, r: Sim, symbol: Symbol, p: Parameters, state: State, buy: Option<nat>, shape: Shape,
                     targets: seq<Reference>, now: Time, reason: string, buys: bool, sells: bool)
    requires Joint(st, symbol, p, state, buy, shape) && Thinned(st, r, symbol, targets, now, reason) && Names(st, symbol, targets, buys, sells)
    ensures Joint(r, symbol, p, state, if buys then None else buy, if sells then Bare else shape)
  {
    hide Owned, SimOrder.Remaining, SimOrder.Active, Joint, Thinned, Names, ShapeFits;
    JointParts(st, symbol, p, state, buy, shape);
    ThinnedFacts(st, r, symbol, targets, now, reason, buys, sells);
    SameOwned(st, r, symbol, state);
    if !sells {
      ShapeSurvives(st, r, symbol, state, shape, buy, if buys then None else buy);
    } else {
      BareFits(r, symbol, state, if buys then None else buy);
    }
    JointWhole(r, symbol, p, state, if buys then None else buy, if sells then Bare else shape);
  }

  lemma BareFits(st: Sim, symbol: Symbol, state: State, buy: Option<nat>)
    ensures ShapeFits(st, symbol, state, Bare, buy)
  {
  }

  lemma ThinnedFacts(st: Sim, r: Sim, symbol: Symbol, targets: seq<Reference>, now: Time, reason: string, buys: bool, sells: bool)
    requires Thinned(st, r, symbol, targets, now, reason) && Names(st, symbol, targets, buys, sells)
    ensures r.book == st.book && |r.orders| == |st.orders|
    ensures forall i | 0 <= i < |st.orders| :: r.orders[i].intent == st.orders[i].intent && r.orders[i].forced == st.orders[i].forced
    ensures forall i: nat | i < |st.orders| && Working(r.orders[i], symbol) ::
              r.orders[i] == st.orders[i] && if st.orders[i].intent.side == Buy then !buys else !sells
    ensures forall i: nat | i < |st.orders| && Working(st.orders[i], symbol) && (if st.orders[i].intent.side == Buy then !buys else !sells) ::
              r.orders[i] == st.orders[i]
  {
    hide SimOrder.Remaining;
  }

  lemma JointParts(st: Sim, symbol: Symbol, p: Parameters, state: State, buy: Option<nat>, shape: Shape)
    requires Joint(st, symbol, p, state, buy, shape)
    ensures StateFits(st, symbol, p, state) && AllOwned(st, symbol, state) && Accounted(st, symbol, buy, shape)
    ensures BuyFits(st, symbol, p, state, buy) && ShapeFits(st, symbol, state, shape, buy) && PairPriced(st, p, state, shape)
  {
  }

  lemma JointWhole(st: Sim, symbol: Symbol, p: Parameters, state: State, buy: Option<nat>, shape: Shape)
    requires StateFits(st, symbol, p, state) && AllOwned(st, symbol, state) && Accounted(st, symbol, buy, shape)
    requires BuyFits(st, symbol, p, state, buy) && ShapeFits(st, symbol, state, shape, buy) && PairPriced(st, p, state, shape)
    ensures Joint(st, symbol, p, state, buy, shape)
  {
  }

  lemma ShapeSurvives(st: Sim, r: Sim, symbol: Symbol, state: State, shape: Shape, buy: Option<nat>, laterBuy: Option<nat>)
    requires ShapeFits(st, symbol, state, shape, buy) && |r.orders| == |st.orders| && r.book == st.book
    requires laterBuy == None || laterBuy == buy
    requires forall i: nat | i < |st.orders| && Working(st.orders[i], symbol) && st.orders[i].intent.side == Sell :: r.orders[i] == st.orders[i]
    ensures ShapeFits(r, symbol, state, shape, laterBuy)
  {
    hide SimOrder.Remaining, Owned;
  }

  /** The lists the strategy cancels from do name the working orders of their side and no others. */
  lemma ListsName(st: Sim, ctx: Context, p: Parameters, state: State, buy: Option<nat>, shape: Shape)
    requires Joint(st, ctx.bar.symbol, p, state, buy, shape) && ctx.orders == Snapshots(st.orders, ctx.bar.symbol)
    ensures Names(st, ctx.bar.symbol, ActiveRefs(ctx.orders, Buy), true, false)
    ensures Names(st, ctx.bar.symbol, ActiveRefs(ctx.orders, Sell), false, true)
    ensures Names(st, ctx.bar.symbol, ActiveRefs(ctx.orders, Buy) + ActiveRefs(ctx.orders, Sell), true, true)
    ensures Names(st, ctx.bar.symbol, [], false, false)
    ensures ActiveRefs(ctx.orders, Buy) == [] ==> buy == None
    ensures buy == None ==> ActiveRefs(ctx.orders, Buy) == []
    ensures shape == Bare ==> ActiveRefs(ctx.orders, Sell) == []
    ensures |ActiveRefs(ctx.orders, Sell)| == 2 ==> shape.Paired?
  {
    hide Joint, Names, ActiveRefs, Snapshots, AllOwned, BuyFits, ShapeFits, PairPriced, StateFits, WorkingSide, Working;
    var symbol := ctx.bar.symbol;
    JointParts(st, symbol, p, state, buy, shape);
    SidesDiffer(st, symbol, state);
    ListsCover(st, symbol);
    PurchaseListed(st, symbol, p, state, buy, shape);
    SalesListed(st, symbol, buy, shape);
  }

  lemma ListsCover(st: Sim, symbol: Symbol)
    requires forall i: nat, j: nat | i < |st.orders| && j < |st.orders| && Working(st.orders[i], symbol) && Working(st.orders[j], symbol)
                                     && st.orders[i].intent.reference == st.orders[j].intent.reference ::
               st.orders[i].intent.side == st.orders[j].intent.side
    ensures Names(st, symbol, ActiveRefs(Snapshots(st.orders, symbol), Buy), true, false)
    ensures Names(st, symbol, ActiveRefs(Snapshots(st.orders, symbol), Sell), false, true)
    ensures Names(st, symbol, ActiveRefs(Snapshots(st.orders, symbol), Buy) + ActiveRefs(Snapshots(st.orders, symbol), Sell), true, true)
    ensures Names(st, symbol, [], false, false)
  {
    hide Working, ActiveRefs, Snapshots;
    var buys, sells := ActiveRefs(Snapshots(st.orders, symbol), Buy), ActiveRefs(Snapshots(st.orders, symbol), Sell);
    forall i: nat | i < |st.orders| && Working(st.orders[i], symbol)
      ensures st.orders[i].intent.reference in buys <==> st.orders[i].intent.side == Buy
      ensures st.orders[i].intent.reference in sells <==> st.orders[i].intent.side == Sell
    {
      RefsExact(st.orders, symbol, Buy, st.orders[i].intent.reference);
      RefsExact(st.orders, symbol, Sell, st.orders[i].intent.reference);
      assert WorkingSide(st.orders[i], symbol, st.orders[i].intent.side);
    }
  }

  lemma PurchaseListed(st: Sim, symbol: Symbol, p: Parameters, state: State, buy: Option<nat>, shape: Shape)
    requires Accounted(st, symbol, buy, shape) && BuyFits(st, symbol, p, state, buy)
    ensures ActiveRefs(Snapshots(st.orders, symbol), Buy) == [] <==> buy == None
  {
    hide Working, ActiveRefs, Snapshots;
    if buy == None {
      RefsAtMostOne(st.orders, symbol, Buy, |st.orders|);
    } else {
      RefsExact(st.orders, symbol, Buy, st.orders[buy.value].intent.reference);
      assert WorkingSide(st.orders[buy.value], symbol, Buy);
    }
  }

  lemma SalesListed(st: Sim, symbol: Symbol, buy: Option<nat>, shape: Shape)
    requires Accounted(st, symbol, buy, shape)
    ensures shape == Bare ==> ActiveRefs(Snapshots(st.orders, symbol), Sell) == []
    ensures |ActiveRefs(Snapshots(st.orders, symbol), Sell)| == 2 ==> shape.Paired?
  {
    hide Working, ActiveRefs, Snapshots;
    match shape {
      case Exiting(m) => RefsAtMostOne(st.orders, symbol, Sell, m);
      case Stopping(m) => RefsAtMostOne(st.orders, symbol, Sell, m);
      case Taking(m) => RefsAtMostOne(st.orders, symbol, Sell, m);
      case Bare => RefsAtMostOne(st.orders, symbol, Sell, |st.orders|);
      case Paired(_, _) =>
    }
  }

  /** Entries and exits never share a reference. */
  lemma SidesDiffer(st: Sim, symbol: Symbol, state: State)
    requires AllOwned(st, symbol, state)
    ensures forall i: nat, j: nat | i < |st.orders| && j < |st.orders| && Working(st.orders[i], symbol) && Working(st.orders[j], symbol)
                                    && st.orders[i].intent.reference == st.orders[j].intent.reference ::
              st.orders[i].intent.side == st.orders[j].intent.side
  {
    hide SimOrder.Active;
    forall i: nat, j: nat | i < |st.orders| && j < |st.orders| && Working(st.orders[i], symbol) && Working(st.orders[j], symbol)
                            && st.orders[i].intent.reference == st.orders[j].intent.reference
      ensures st.orders[i].intent.side == st.orders[j].intent.side
    {
      assert Owned(st.orders[i], symbol, state) && Owned(st.orders[j], symbol, state);
    }
  }

  // ----- placing orders

  /** The strategy acts before the cutoff, so what it places is pending unless it oversells. */
  lemma PlaceApplied(env: Env, grid: Grid, st: Sim, symbol: Symbol, intent: TradeIntent, s: Session)
    requires SessionAt(env.sessions, intent.createdAt) == Some(s) && SessionGrid(grid, s)
    requires intent.createdAt < grid.cutoffs[s.opens] && (intent.side == Sell ==> intent.quantity <= st.book.Held(intent.symbol))
    ensures var r := RequestAll(env, grid, st, symbol, intent.createdAt, [Place(intent)]);
            && r.Ok? && r.value.book == st.book && r.value.fills == st.fills
            && |r.value.orders| == |st.orders| + 1 && r.value.orders[..|st.orders|] == st.orders
            && Placed(r.value.orders[|st.orders|], intent)
  {
    hide MadeOrder, EligibleFrom;
    var now := intent.createdAt;
    var told := Emit(st, now, Decided(symbol, intent.reference, intent.featureTimestamp));
    NewOrderExact(env, grid, told, intent, now, false);
    var eligible := EligibleFrom(grid.openings[s.opens], now, false);
    MadeShape(env, intent, |st.orders| + 1, eligible, now, false, false, st.book.Held(intent.symbol));
    assert [Place(intent)][1..] == [];
  }

  ghost predicate Placed(o: SimOrder, intent: TradeIntent) {
    o.intent == intent && !o.forced && o.Active() && o.filledQuantity == 0
  }

  /** Strategy states may move on as long as what the invariant reads is kept or no longer needed. */
  lemma StateMoves(st: Sim, symbol: Symbol, p: Parameters, state: State, later: State, buy: Option<nat>, shape: Shape)
    requires Joint(st, symbol, p, state, buy, shape)
    requires later.sequence >= state.sequence && later.cycle >= state.cycle
    requires later.entryAtr.Some? ==> later.entryAtr.value > 0.0
    requires st.book.Held(symbol) > 0 || buy.Some? ==> later.entryAtr.Some?
    requires buy.Some? ==> later.entryReference == state.entryReference
    requires !(shape.Bare? || shape.Exiting?) ==> later.cycle == state.cycle && later.protection == state.protection && later.entryAtr == state.entryAtr
    ensures Joint(st, symbol, p, later, buy, shape)
  {
    hide SimOrder.Remaining;
    forall i: nat | i < |st.orders| && st.orders[i].intent.symbol == symbol && !st.orders[i].forced
      ensures Owned(st.orders[i], symbol, later)
    {
      assert Owned(st.orders[i], symbol, state);
    }
  }
}
