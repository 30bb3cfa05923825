/** One evaluation of the baseline strategy and the simulator's answer keep the joint invariant and protect the position. */
module Protection {
  import opened Common
  import opened Rounding
  import opened Orders
  import opened Execution
  import opened Accounting
  import opened Calendars
  import opened Strategies
  import opened Baseline
  import opened Engine
  import opened Ledger
  import opened Grids
  import opened Flattening
  import opened ClosedLoop

  /** What the strategy is shown is the symbol's state, before the session's cutoff. */
  ghost predicate Observed(env: Env, grid: Grid, st: Sim, ctx: Context, s: Session) {
    && ctx.Valid()
    && ctx.orders == Snapshots(st.orders, ctx.bar.symbol)
    && ctx.positionQuantity == st.book.Held(ctx.bar.symbol)
    && ctx.averageEntryPrice == st.book.PositionOf(ctx.bar.symbol).AveragePrice()
    && SessionAt(env.sessions, ctx.currentTime) == Some(s) && SessionGrid(grid, s)
    && ctx.currentTime < grid.cutoffs[s.opens]
  }

  /** The working sales cover the whole holding: one market exit, one part-filled stop, or an unfilled pair. */
  ghost predicate Protected(st: Sim, symbol: Symbol, state: State, shape: Shape) {
    st.book.Held(symbol) > 0 ==>
      match shape
      case Bare => false
      case Taking(_) => false
      case Exiting(m) => true
      case Stopping(s) => s < |st.orders| && st.orders[s].Remaining() == st.book.Held(symbol)
      case Paired(s, t) => state.protection == Some((st.book.Held(symbol), st.book.PositionOf(symbol).AveragePrice()))
  }

  /** Applying a list of requests succeeds and leaves the invariant with the new state; the holding is untouched. */
  ghost predicate Leaves(env: Env, grid: Grid, st: Sim, ctx: Context, requests: seq<Request>, p: Parameters, state: State,
                         buy: Option<nat>, shape: Shape, from: nat)
  {
    var r := RequestAll(env, grid, st, ctx.bar.symbol, ctx.currentTime, requests);
    && r.Ok? && r.value.book == st.book && Joint(r.value, ctx.bar.symbol, p, state, buy, shape)
    && Appendix(st, r.value, ctx.bar.symbol, from)
  }

  /** Old orders keep their fills and are not rejected; new ones are the symbol's, unfilled, not rejected, in fresh groups. */
  ghost predicate Appendix(st: Sim, r: Sim, symbol: Symbol, from: nat) {
    && |st.orders| <= |r.orders|
    && (forall i | 0 <= i < |st.orders| ::
          && r.orders[i].intent == st.orders[i].intent && r.orders[i].forced == st.orders[i].forced
          && r.orders[i].filledQuantity == st.orders[i].filledQuantity
          && (st.orders[i].intent.symbol != symbol ==> r.orders[i] == st.orders[i])
          && (!st.orders[i].Active() ==> !r.orders[i].Active())
          && (r.orders[i].status == Rejected ==> st.orders[i].status == Rejected))
    && (forall i | |st.orders| <= i < |r.orders| ::
          && r.orders[i].intent.symbol == symbol && !r.orders[i].forced && r.orders[i].filledQuantity == 0
          && r.orders[i].status != Rejected
          && (r.orders[i].intent.ocoGroup.Some? ==>
                r.orders[i].intent.ocoGroup.value.Lifecycle? && r.orders[i].intent.ocoGroup.value.sequence > from))
  }

  lemma AppendixTransitive(a: Sim, b: Sim, c: Sim, symbol: Symbol, from: nat)
    requires Appendix(a, b, symbol, from) && Appendix(b, c, symbol, from)
    ensures Appendix(a, c, symbol, from)
  {
    hide SimOrder.Active;
    forall i | 0 <= i < |c.orders|
      ensures i >= |a.orders| ==> c.orders[i].intent.symbol == symbol && !c.orders[i].forced && c.orders[i].filledQuantity == 0
    {
    }
  }

  function Applied(env: Env, grid: Grid, st: Sim, ctx: Context, requests: seq<Request>): Result<Sim> {
    RequestAll(env, grid, st, ctx.bar.symbol, ctx.currentTime, requests)
  }

  lemma NamesKept(st: Sim, r: Sim, symbol: Symbol, targets: seq<Reference>, now: Time, reason: string, names: seq<Reference>, buys: bool, sells: bool)
    requires Thinned(st, r, symbol, targets, now, reason) && Names(st, symbol, names, buys, sells)
    ensures Names(r, symbol, names, buys, sells)
  {
    hide SimOrder.Remaining;
  }

  /** A cancellation drops the named sides and nothing else. */
  lemma CancelJoint(env: Env, grid: Grid, st: Sim, ctx: Context, p: Parameters, state: State, buy: Option<nat>, shape: Shape,
                    targets: seq<Reference>, reason: string, buys: bool, sells: bool, from: nat)
    requires Joint(st, ctx.bar.symbol, p, state, buy, shape) && Names(st, ctx.bar.symbol, targets, buys, sells)
    ensures var (later, requests) := Cancelling(state, ctx, targets, reason);
            && Leaves(env, grid, st, ctx, requests, p, later, if buys then None else buy, if sells then Bare else shape, from)
            && Thinned(st, Applied(env, grid, st, ctx, requests).value, ctx.bar.symbol, targets, ctx.currentTime, reason)
  {
    hide RequestAll, Joint, Names, Thinned;
    var (later, requests) := Cancelling(state, ctx, targets, reason);
    CancelApplied(env, grid, st, ctx, state, targets, reason);
    var r := Applied(env, grid, st, ctx, requests).value;
    ThinnedJoint(st, r, ctx.bar.symbol, p, state, buy, shape, targets, ctx.currentTime, reason, buys, sells);
    ThinnedBook(st, r, ctx.bar.symbol, targets, ctx.currentTime, reason);
    ThinnedAppendix(st, r, ctx.bar.symbol, targets, ctx.currentTime, reason, from);
    StateKept(r, ctx.bar.symbol, p, state, later, if buys then None else buy, if sells then Bare else shape);
  }

  lemma ThinnedAppendix(st: Sim, r: Sim, symbol: Symbol, targets: seq<Reference>, now: Time, reason: string, from: nat)
    requires Thinned(st, r, symbol, targets, now, reason)
    ensures Appendix(st, r, symbol, from)
  {
  }

  lemma ThinnedBook(st: Sim, r: Sim, symbol: Symbol, targets: seq<Reference>, now: Time, reason: string)
    requires Thinned(st, r, symbol, targets, now, reason)
    ensures r.book == st.book && |r.orders| == |st.orders|
  {
  }

  /** Using up a number, or re-arming, changes nothing the invariant reads. */
  lemma StateKept(st: Sim, symbol: Symbol, p: Parameters, state: State, later: State, buy: Option<nat>, shape: Shape)
    requires Joint(st, symbol, p, state, buy, shape)
    requires later.sequence >= state.sequence && later == state.(sequence := later.sequence, armed := later.armed)
    ensures Joint(st, symbol, p, later, buy, shape)
  {
    StateMoves(st, symbol, p, state, later, buy, shape);
  }

  // ----- new exits

  lemma ExitPlaced(st: Sim, r: Sim, symbol: Symbol, p: Parameters, state: State, intent: TradeIntent, tag: Tag)
    requires Joint(st, symbol, p, state, None, Bare) && st.book.Held(symbol) > 0 && tag in {Reversal, StopRemainder}
    requires intent.symbol == symbol && intent.side == Sell && intent.quantity == st.book.Held(symbol) && intent.ocoGroup.None?
    requires intent.orderType == Market
    requires intent.reference == Lifecycle(symbol, state.cycle, tag, state.sequence + 1)
    requires r.book == st.book && |r.orders| == |st.orders| + 1 && r.orders[..|st.orders|] == st.orders && Placed(r.orders[|st.orders|], intent)
    ensures Joint(r, symbol, p, Counted(state), None, Exiting(|st.orders|))
  {
    AppendFacts(st, r, symbol, p, state, Counted(state), None);
  }

  /** What appending one order keeps of the symbol's invariant. */
  lemma AppendFacts(st: Sim, r: Sim, symbol: Symbol, p: Parameters, state: State, later: State, buy: Option<nat>)
    requires Joint(st, symbol, p, state, buy, Bare)
    requires later.sequence >= state.sequence && later.cycle >= state.cycle
    requires |r.orders| > |st.orders| && r.orders[..|st.orders|] == st.orders
    requires forall i: nat | |st.orders| <= i < |r.orders| && r.orders[i].intent.symbol == symbol && !r.orders[i].forced :: Owned(r.orders[i], symbol, later)
    ensures AllOwned(r, symbol, later)
    ensures forall i: nat | i < |st.orders| :: r.orders[i] == st.orders[i]
    ensures forall i: nat | i < |st.orders| && Working(r.orders[i], symbol) :: buy == Some(i) && r.orders[i].intent.side == Buy
  {
    hide SimOrder.Active, SimOrder.Remaining;
    assert forall i: nat | i < |st.orders| :: r.orders[i] == r.orders[..|st.orders|][i];
    forall i: nat | i < |r.orders| && r.orders[i].intent.symbol == symbol && !r.orders[i].forced
      ensures Owned(r.orders[i], symbol, later)
    {
      if i < |st.orders| {
        assert Owned(st.orders[i], symbol, state);
      }
    }
  }

  /** A market exit for the whole holding, with nothing else working. */
  lemma MarketExitJoint(env: Env, grid: Grid, st: Sim, ctx: Context, s: Session, p: Parameters, state: State, tag: Tag, from: nat)
    requires SessionAt(env.sessions, ctx.currentTime) == Some(s) && SessionGrid(grid, s) && ctx.currentTime < grid.cutoffs[s.opens] && ctx.Valid()
    requires Joint(st, ctx.bar.symbol, p, state, None, Bare) && ctx.positionQuantity == st.book.Held(ctx.bar.symbol) > 0
    requires tag in {Reversal, StopRemainder}
    ensures var e := MarketExit(state, ctx, tag);
            e.Ok? && Leaves(env, grid, st, ctx, e.value.1, p, e.value.0, None, Exiting(|st.orders|), from)
  {
    hide RequestAll, Joint;
    JointParts(st, ctx.bar.symbol, p, state, None, Bare);
    var e := MarketExit(state, ctx, tag).value;
    var intent := e.1[0].intent;
    PlaceApplied(env, grid, st, ctx.bar.symbol, intent, s);
    assert e.1 == [Place(intent)];
    ExitPlaced(st, Applied(env, grid, st, ctx, e.1).value, ctx.bar.symbol, p, state, intent, tag);
  }

  // ----- a new pair

  ghost predicate PairPlaced(st: Sim, r: Sim, stop: TradeIntent, target: TradeIntent) {
    && r.book == st.book && |r.orders| == |st.orders| + 2 && r.orders[..|st.orders|] == st.orders
    && Placed(r.orders[|st.orders|], stop) && Placed(r.orders[|st.orders| + 1], target)
  }

  ghost predicate Leg(intent: TradeIntent, symbol: Symbol, state: State, tag: Tag, number: nat, quantity: int, price: real, group: Reference) {
    && intent.orderType == TypeOf(tag) && (if tag == Stop then intent.triggerPrice else intent.limitPrice) == Some(price)
    && intent.symbol == symbol && intent.side == Sell && intent.quantity == quantity
    && intent.reference == Lifecycle(symbol, state.cycle, tag, number) && intent.ocoGroup == Some(group)
  }

  lemma PairJoint(st: Sim, r: Sim, symbol: Symbol, p: Parameters, state: State, later: State, buy: Option<nat>, stop: TradeIntent, target: TradeIntent,
                  average: real, atr: real)
    requires state.entryAtr == Some(atr)
    requires Joint(st, symbol, p, state, buy, Bare) && st.book.Held(symbol) > 0
    requires PairPlaced(st, r, stop, target)
    requires var group := Lifecycle(symbol, state.cycle, Oco, state.sequence + 1);
             && Leg(stop, symbol, state, Stop, state.sequence + 2, st.book.Held(symbol), StopPrice(p, average, atr), group)
             && Leg(target, symbol, state, Target, state.sequence + 3, st.book.Held(symbol), TargetPrice(p, average, atr), group)
    requires later == state.(sequence := state.sequence + 3, protection := later.protection)
    requires later.protection == Some((st.book.Held(symbol), average))
    ensures Joint(r, symbol, p, later, buy, Paired(|st.orders|, |st.orders| + 1))
  {
    hide Joint, StateFits, AllOwned, StopPrice, TargetPrice;
    var n := |st.orders|;
    var shape := Paired(n, n + 1);
    JointParts(st, symbol, p, state, buy, Bare);
    PairOwned(st, r, symbol, state, later, stop, target, StopPrice(p, average, atr), TargetPrice(p, average, atr));
    AppendFacts(st, r, symbol, p, state, later, buy);
    PairShape(st, r, symbol, p, later, buy, stop, target);
    assert StateFits(r, symbol, p, later) by { SameState(st, r, symbol, p, state, later); }
    assert PairPriced(r, p, later, shape);
    JointWhole(r, symbol, p, later, buy, shape);
  }

  lemma SameState(st: Sim, r: Sim, symbol: Symbol, p: Parameters, state: State, later: State)
    requires StateFits(st, symbol, p, state) && r.book == st.book && later.entryAtr == state.entryAtr
    ensures StateFits(r, symbol, p, later)
  {
  }

  lemma PairOwned(st: Sim, r: Sim, symbol: Symbol, state: State, later: State, stop: TradeIntent, target: TradeIntent, low: real, high: real)
    requires PairPlaced(st, r, stop, target) && later.cycle == state.cycle && later.sequence == state.sequence + 3
    requires var group := Lifecycle(symbol, state.cycle, Oco, state.sequence + 1);
             && Leg(stop, symbol, state, Stop, state.sequence + 2, stop.quantity, low, group)
             && Leg(target, symbol, state, Target, state.sequence + 3, target.quantity, high, group)
    ensures forall i: nat | |st.orders| <= i < |r.orders| :: Owned(r.orders[i], symbol, later)
  {
    hide SimOrder.Active;
    forall i: nat | |st.orders| <= i < |r.orders|
      ensures Owned(r.orders[i], symbol, later)
    {
      assert i == |st.orders| || i == |st.orders| + 1;
    }
  }

  /** The new legs are the only working sales. */
  lemma PairShape(st: Sim, r: Sim, symbol: Symbol, p: Parameters, later: State, buy: Option<nat>, stop: TradeIntent, target: TradeIntent)
    requires PairPlaced(st, r, stop, target) && st.book.Held(symbol) > 0
    requires stop.symbol == target.symbol == symbol && stop.side == target.side == Sell
    requires stop.quantity == target.quantity == st.book.Held(symbol) && stop.ocoGroup.Some? && stop.ocoGroup == target.ocoGroup
    requires stop.reference.Lifecycle? && stop.reference.tag == Stop && target.reference.Lifecycle? && target.reference.tag == Target
    requires stop.reference.cycle == target.reference.cycle == later.cycle
    requires later.protection.Some? && later.protection.value.0 == stop.quantity
    requires BuyFits(st, symbol, p, later, buy)
    requires forall i: nat | i < |st.orders| :: r.orders[i] == st.orders[i]
    requires forall i: nat | i < |st.orders| && Working(r.orders[i], symbol) :: buy == Some(i) && r.orders[i].intent.side == Buy
    ensures var shape := Paired(|st.orders|, |st.orders| + 1);
            ShapeFits(r, symbol, later, shape, buy) && Accounted(r, symbol, buy, shape) && BuyFits(r, symbol, p, later, buy)
  {
    assert forall i: nat | |st.orders| <= i < |r.orders| :: r.orders[i] == r.orders[|st.orders|] || r.orders[i] == r.orders[|st.orders| + 1];
  }

  lemma Protects(env: Env, grid: Grid, st: Sim, ctx: Context, s: Session, p: Parameters, state: State, buy: Option<nat>, atr: real, from: nat)
    requires from <= state.sequence
    requires SessionAt(env.sessions, ctx.currentTime) == Some(s) && SessionGrid(grid, s) && ctx.currentTime < grid.cutoffs[s.opens] && ctx.Valid()
    requires Joint(st, ctx.bar.symbol, p, state, buy, Bare) && ctx.positionQuantity == st.book.Held(ctx.bar.symbol) > 0 && atr > 0.0
    requires ctx.averageEntryPrice == st.book.PositionOf(ctx.bar.symbol).AveragePrice() && state.entryAtr == Some(atr)
    ensures var e := Protecting(p, state, ctx, atr);
            && (e.Err? ==> e.error == NonpositiveStop)
            && (e.Ok? ==> Leaves(env, grid, st, ctx, e.value.1, p, e.value.0, buy, Paired(|st.orders|, |st.orders| + 1), from))
            && (e.Ok? ==> Protected(Applied(env, grid, st, ctx, e.value.1).value, ctx.bar.symbol, e.value.0, Paired(|st.orders|, |st.orders| + 1)))
  {
    hide Applied, Leaves, Joint, Protecting, Leg, Placed, StopPrice, TargetPrice, SessionGrid;
    JointParts(st, ctx.bar.symbol, p, state, buy, Bare);
    var e := Protecting(p, state, ctx, atr);
    PairRequested(p, state, ctx, atr);
    if e.Ok? {
      var stop, target := e.value.1[0].intent, e.value.1[1].intent;
      LegFacts(stop, ctx, state, Stop, state.sequence + 2, StopPrice(p, ctx.averageEntryPrice, atr), Lifecycle(ctx.bar.symbol, state.cycle, Oco, state.sequence + 1));
      LegFacts(target, ctx, state, Target, state.sequence + 3, TargetPrice(p, ctx.averageEntryPrice, atr), Lifecycle(ctx.bar.symbol, state.cycle, Oco, state.sequence + 1));
      PairApplied(env, grid, st, ctx, s, stop, target);
      assert [Place(stop), Place(target)] == e.value.1;
      var r := Applied(env, grid, st, ctx, e.value.1).value;
      PairJoint(st, r, ctx.bar.symbol, p, state, e.value.0, buy, stop, target, ctx.averageEntryPrice, atr);
      PairAppendix(st, r, ctx.bar.symbol, state, stop, target, from);
      LeavesWhole(env, grid, st, ctx, e.value.1, p, e.value.0, buy, Paired(|st.orders|, |st.orders| + 1), from);
      PairProtected(r, ctx.bar.symbol, e.value.0, Paired(|st.orders|, |st.orders| + 1));
    }
  }

  lemma LegFacts(intent: TradeIntent, ctx: Context, state: State, tag: Tag, number: nat, price: real, group: Reference)
    requires Leg(intent, ctx.bar.symbol, state, tag, number, ctx.positionQuantity, price, group)
    ensures intent.symbol == ctx.bar.symbol && intent.side == Sell && intent.quantity == ctx.positionQuantity && intent.ocoGroup == Some(group)
  {
  }

  lemma LeavesWhole(env: Env, grid: Grid, st: Sim, ctx: Context, requests: seq<Request>, p: Parameters, state: State, buy: Option<nat>, shape: Shape, from: nat)
    requires var r := Applied(env, grid, st, ctx, requests);
             r.Ok? && r.value.book == st.book && Joint(r.value, ctx.bar.symbol, p, state, buy, shape) && Appendix(st, r.value, ctx.bar.symbol, from)
    ensures Leaves(env, grid, st, ctx, requests, p, state, buy, shape, from)
  {
    hide RequestAll, Joint, Appendix;
  }

  /** Both legs are taken in, one after the other. */
  lemma PairApplied(env: Env, grid: Grid, st: Sim, ctx: Context, s: Session, stop: TradeIntent, target: TradeIntent)
    requires SessionAt(env.sessions, ctx.currentTime) == Some(s) && SessionGrid(grid, s) && ctx.currentTime < grid.cutoffs[s.opens]
    requires stop.createdAt == target.createdAt == ctx.currentTime && stop.symbol == target.symbol == ctx.bar.symbol
    requires stop.quantity <= st.book.Held(ctx.bar.symbol) && target.quantity <= st.book.Held(ctx.bar.symbol)
    ensures var r := Applied(env, grid, st, ctx, [Place(stop), Place(target)]);
            r.Ok? && PairPlaced(st, r.value, stop, target)
  {
    hide RequestAll, Placed, SessionGrid;
    PlaceApplied(env, grid, st, ctx.bar.symbol, stop, s);
    var half := Applied(env, grid, st, ctx, [Place(stop)]).value;
    PlaceApplied(env, grid, half, ctx.bar.symbol, target, s);
    RequestConcat(env, grid, st, ctx.bar.symbol, ctx.currentTime, [Place(stop)], [Place(target)]);
    assert [Place(stop)] + [Place(target)] == [Place(stop), Place(target)];
    var r := Applied(env, grid, st, ctx, [Place(stop), Place(target)]).value;
    assert r.orders[..|st.orders|] == half.orders[..|st.orders|];
    assert r.orders[|st.orders|] == r.orders[..|half.orders|][|st.orders|];
  }

  lemma PairAppendix(st: Sim, r: Sim, symbol: Symbol, state: State, stop: TradeIntent, target: TradeIntent, from: nat)
    requires PairPlaced(st, r, stop, target) && from <= state.sequence && stop.symbol == target.symbol == symbol
    requires stop.ocoGroup == target.ocoGroup == Some(Lifecycle(symbol, state.cycle, Oco, state.sequence + 1))
    ensures Appendix(st, r, symbol, from)
  {
    assert forall i | 0 <= i < |st.orders| :: r.orders[i] == r.orders[..|st.orders|][i];
    assert forall i | |st.orders| <= i < |r.orders| :: r.orders[i] == r.orders[|st.orders|] || r.orders[i] == r.orders[|st.orders| + 1];
  }

  /** The two requests of a protection: same fresh group, whole position, consecutive numbers. */
  lemma PairRequested(p: Parameters, state: State, ctx: Context, atr: real)
    requires ctx.Valid() && 0 < ctx.positionQuantity <= MAX_QUANTITY && atr > 0.0
    ensures var e := Protecting(p, state, ctx, atr);
            && (e.Err? ==> e.error == NonpositiveStop)
            && (e.Ok? ==>
                  && |e.value.1| == 2 && e.value.1[0].Place? && e.value.1[1].Place?
                  && var group := Lifecycle(ctx.bar.symbol, state.cycle, Oco, state.sequence + 1);
                     && Leg(e.value.1[0].intent, ctx.bar.symbol, state, Stop, state.sequence + 2, ctx.positionQuantity, StopPrice(p, ctx.averageEntryPrice, atr), group)
                     && Leg(e.value.1[1].intent, ctx.bar.symbol, state, Target, state.sequence + 3, ctx.positionQuantity, TargetPrice(p, ctx.averageEntryPrice, atr), group)
                     && e.value.1[0].intent.createdAt == e.value.1[1].intent.createdAt == ctx.currentTime
                     && e.value.0 == state.(sequence := state.sequence + 3, protection := Some((ctx.positionQuantity, ctx.averageEntryPrice))))
  {
    hide StopPrice, TargetPrice;
    PricesOrdered(p, ctx.averageEntryPrice, atr);
  }

  /** A positive stop price has a positive target price above it. */
  lemma PricesOrdered(p: Parameters, average: real, atr: real)
    requires atr > 0.0
    ensures StopPrice(p, average, atr) <= TargetPrice(p, average, atr)
  {
    hide TenDecimals;
    var low: real, high: real := average - atr * p.stopMultiple, average + atr * p.targetMultiple;
    assert low <= high by { Spread(atr, p.stopMultiple, p.targetMultiple); }
    TenDecimalsMonotone(low, high);
  }

  lemma Spread(atr: real, below: real, above: real)
    requires atr > 0.0 && below > 0.0 && above > 0.0
    ensures -(atr * below) <= atr * above
  {
    assert atr * below > 0.0;
    assert atr * above > 0.0;
  }

  // ----- reading the shape off the observation

  lemma SnapshotSource(orders: seq<SimOrder>, symbol: Symbol, x: OrderSnapshot) returns (i: nat)
    requires x in Snapshots(orders, symbol)
    ensures i < |orders| && orders[i].intent.symbol == symbol && x == Snapshot(orders[i])
  {
    hide Snapshots, Snapshot;
    SnapshotsExact(orders, symbol);
    i :| 0 <= i < |orders| && orders[i].intent.symbol == symbol && x == Snapshot(orders[i]);
  }

  lemma SnapshotListed(orders: seq<SimOrder>, symbol: Symbol, i: nat)
    requires i < |orders| && orders[i].intent.symbol == symbol
    ensures Snapshot(orders[i]) in Snapshots(orders, symbol)
  {
    hide Snapshots, Snapshot;
    SnapshotsExact(orders, symbol);
  }

  /** The tag and the fills of a working sale tell the shape. */
  lemma SaleTellsShape(st: Sim, symbol: Symbol, p: Parameters, state: State, buy: Option<nat>, shape: Shape, i: nat)
    requires Joint(st, symbol, p, state, buy, shape)
    requires i < |st.orders| && Working(st.orders[i], symbol) && st.orders[i].intent.side == Sell
    ensures i in shape.Members() && st.orders[i].intent.reference.Lifecycle?
    ensures st.orders[i].intent.reference.tag in {Reversal, StopRemainder} <==> shape.Exiting?
    ensures st.orders[i].intent.reference.tag == Stop && st.orders[i].filledQuantity > 0 <==> shape.Stopping?
  {
    hide SimOrder.Active, SimOrder.Remaining, StateFits, AllOwned, BuyFits, PairPriced;
  }

  lemma PurchaseTag(st: Sim, symbol: Symbol, p: Parameters, state: State, buy: Option<nat>, shape: Shape, i: nat)
    requires Joint(st, symbol, p, state, buy, shape) && i < |st.orders| && Working(st.orders[i], symbol) && st.orders[i].intent.side == Buy
    ensures st.orders[i].intent.reference.Lifecycle? && st.orders[i].intent.reference.tag == Entry
  {
    hide SimOrder.Active, SimOrder.Remaining, StateFits, BuyFits, ShapeFits, PairPriced;
    assert Owned(st.orders[i], symbol, state);
  }

  /** A member of the shape is a working sale. */
  lemma MemberWorks(st: Sim, symbol: Symbol, p: Parameters, state: State, buy: Option<nat>, shape: Shape, i: nat)
    requires Joint(st, symbol, p, state, buy, shape) && i in shape.Members()
    ensures i < |st.orders| && Working(st.orders[i], symbol) && st.orders[i].intent.side == Sell
    ensures shape.Stopping? || shape.Taking? ==> st.orders[i].filledQuantity > 0 && OfThisCycle(st.orders[i], state)
  {
    hide SimOrder.Active, SimOrder.Remaining, StateFits, AllOwned, BuyFits, PairPriced, Accounted;
  }

  /** A part-filled stop shows itself, and is the one the invariant knows. */
  lemma StopSeen(st: Sim, ctx: Context, p: Parameters, state: State, buy: Option<nat>, shape: Shape)
    requires Joint(st, ctx.bar.symbol, p, state, buy, shape) && ctx.orders == Snapshots(st.orders, ctx.bar.symbol)
    ensures FillingStop(ctx.orders).Some? <==> shape.Stopping?
    ensures shape.Stopping? ==> FillingStop(ctx.orders).value.remaining == st.orders[shape.stop].Remaining()
  {
    hide Snapshots, FillingStop, Joint, SimOrder.Active, SimOrder.Remaining;
    var symbol := ctx.bar.symbol;
    FillingStopExact(ctx.orders);
    if FillingStop(ctx.orders).Some? {
      var i := SnapshotSource(st.orders, symbol, FillingStop(ctx.orders).value);
      if st.orders[i].intent.side == Sell {
        SaleTellsShape(st, symbol, p, state, buy, shape, i);
      } else {
        PurchaseTag(st, symbol, p, state, buy, shape, i);
      }
    }
    if shape.Stopping? {
      MemberWorks(st, symbol, p, state, buy, shape, shape.stop);
      SaleTellsShape(st, symbol, p, state, buy, shape, shape.stop);
      SnapshotListed(st.orders, symbol, shape.stop);
    }
  }

  lemma ExitSeen(st: Sim, ctx: Context, p: Parameters, state: State, buy: Option<nat>, shape: Shape)
    requires Joint(st, ctx.bar.symbol, p, state, buy, shape) && ctx.orders == Snapshots(st.orders, ctx.bar.symbol)
    ensures (exists r | r in ActiveRefs(ctx.orders, Sell) :: HasTag(r, Reversal) || HasTag(r, StopRemainder)) <==> shape.Exiting?
  {
    hide Snapshots, ActiveRefs, Joint, Working;
    var symbol := ctx.bar.symbol;
    if r :| r in ActiveRefs(ctx.orders, Sell) && (HasTag(r, Reversal) || HasTag(r, StopRemainder)) {
      RefsExact(st.orders, symbol, Sell, r);
      var i: nat :| i < |st.orders| && WorkingSide(st.orders[i], symbol, Sell) && st.orders[i].intent.reference == r;
      SaleTellsShape(st, symbol, p, state, buy, shape, i);
    }
    if shape.Exiting? {
      MemberWorks(st, symbol, p, state, buy, shape, shape.exit);
      SaleTellsShape(st, symbol, p, state, buy, shape, shape.exit);
      assert WorkingSide(st.orders[shape.exit], symbol, Sell);
      RefsExact(st.orders, symbol, Sell, st.orders[shape.exit].intent.reference);
    }
  }

  lemma ExitedSeen(st: Sim, ctx: Context, p: Parameters, state: State, buy: Option<nat>, shape: Shape)
    requires Joint(st, ctx.bar.symbol, p, state, buy, shape) && ctx.orders == Snapshots(st.orders, ctx.bar.symbol)
    ensures shape.Stopping? || shape.Taking? ==> Exited(state, ctx)
  {
    hide Snapshots, Joint;
    if shape.Stopping? || shape.Taking? {
      var i := if shape.Stopping? then shape.stop else shape.target;
      MemberWorks(st, ctx.bar.symbol, p, state, buy, shape, i);
      OwnReference(st, ctx.bar.symbol, p, state, buy, shape, i);
      SnapshotListed(st.orders, ctx.bar.symbol, i);
    }
  }

  lemma OwnReference(st: Sim, symbol: Symbol, p: Parameters, state: State, buy: Option<nat>, shape: Shape, i: nat)
    requires Joint(st, symbol, p, state, buy, shape) && i < |st.orders| && Working(st.orders[i], symbol)
    ensures st.orders[i].intent.reference.Lifecycle? && st.orders[i].intent.reference.symbol == symbol
  {
    hide SimOrder.Active, SimOrder.Remaining, StateFits, BuyFits, ShapeFits, PairPriced;
    assert Owned(st.orders[i], symbol, state);
  }

  // ----- the three situations

  /** A cancellation followed by more requests. */
  lemma ThenLeaves(env: Env, grid: Grid, st: Sim, mid: Sim, ctx: Context, first: seq<Request>, rest: seq<Request>, p: Parameters, state: State,
                   buy: Option<nat>, shape: Shape, from: nat)
    requires Applied(env, grid, st, ctx, first) == Ok(mid) && mid.book == st.book
    requires Appendix(st, mid, ctx.bar.symbol, from)
    requires Leaves(env, grid, mid, ctx, rest, p, state, buy, shape, from)
    ensures Leaves(env, grid, st, ctx, first + rest, p, state, buy, shape, from)
    ensures Applied(env, grid, st, ctx, first + rest) == Applied(env, grid, mid, ctx, rest)
  {
    hide Appendix, RequestAll, Joint;
    AppendixTransitive(st, mid, Applied(env, grid, mid, ctx, rest).value, ctx.bar.symbol, from);
    RequestConcat(env, grid, st, ctx.bar.symbol, ctx.currentTime, first, rest);
  }

  lemma ReversalJoint(env: Env, grid: Grid, st: Sim, ctx: Context, s: Session, p: Parameters, state: State, buy: Option<nat>, shape: Shape, from: nat)
    requires Observed(env, grid, st, ctx, s) && Joint(st, ctx.bar.symbol, p, state, buy, shape) && ctx.positionQuantity > 0
    ensures var (s1, cancels) := Cancelling(state, ctx, ActiveRefs(ctx.orders, Buy) + ActiveRefs(ctx.orders, Sell), "TREND_REVERSAL");
            var e := MarketExit(s1, ctx, Reversal);
            e.Ok? && Leaves(env, grid, st, ctx, cancels + e.value.1, p, e.value.0, None, Exiting(|st.orders|), from)
  {
    hide Appendix, RequestAll, Joint, MarketExit, ActiveRefs, Names, Thinned;
    var targets := ActiveRefs(ctx.orders, Buy) + ActiveRefs(ctx.orders, Sell);
    ListsName(st, ctx, p, state, buy, shape);
    var (s1, cancels) := Cancelling(state, ctx, targets, "TREND_REVERSAL");
    CancelJoint(env, grid, st, ctx, p, state, buy, shape, targets, "TREND_REVERSAL", true, true, from);
    var mid := Applied(env, grid, st, ctx, cancels).value;
    ThinnedBook(st, mid, ctx.bar.symbol, targets, ctx.currentTime, "TREND_REVERSAL");
    MarketExitJoint(env, grid, mid, ctx, s, p, s1, Reversal, from);
    var e := MarketExit(s1, ctx, Reversal).value;
    ThenLeaves(env, grid, st, mid, ctx, cancels, e.1, p, e.0, None, Exiting(|st.orders|), from);
  }

  lemma RemainderJoint(env: Env, grid: Grid, st: Sim, ctx: Context, s: Session, p: Parameters, state: State, shape: Shape, sells: seq<Reference>, from: nat)
    requires SessionAt(env.sessions, ctx.currentTime) == Some(s) && SessionGrid(grid, s) && ctx.currentTime < grid.cutoffs[s.opens] && ctx.Valid()
    requires Joint(st, ctx.bar.symbol, p, state, None, shape) && ctx.positionQuantity == st.book.Held(ctx.bar.symbol) > 0
    requires Names(st, ctx.bar.symbol, sells, false, true)
    ensures var (s2, unsell) := Cancelling(state, ctx, sells, "STOP_REMAINDER");
            var e := MarketExit(s2, ctx, StopRemainder);
            e.Ok? && Leaves(env, grid, st, ctx, unsell + e.value.1, p, e.value.0, None, Exiting(|st.orders|), from)
  {
    hide Appendix, RequestAll, Joint, MarketExit, Names, Thinned;
    var (s2, unsell) := Cancelling(state, ctx, sells, "STOP_REMAINDER");
    CancelJoint(env, grid, st, ctx, p, state, None, shape, sells, "STOP_REMAINDER", false, true, from);
    var mid := Applied(env, grid, st, ctx, unsell).value;
    ThinnedBook(st, mid, ctx.bar.symbol, sells, ctx.currentTime, "STOP_REMAINDER");
    MarketExitJoint(env, grid, mid, ctx, s, p, s2, StopRemainder, from);
    var e := MarketExit(s2, ctx, StopRemainder).value;
    ThenLeaves(env, grid, st, mid, ctx, unsell, e.1, p, e.0, None, Exiting(|st.orders|), from);
  }

  lemma ReplaceJoint(env: Env, grid: Grid, st: Sim, ctx: Context, s: Session, p: Parameters, state: State, buy: Option<nat>, shape: Shape, sells: seq<Reference>, atr: real, from: nat)
    requires from <= state.sequence
    requires SessionAt(env.sessions, ctx.currentTime) == Some(s) && SessionGrid(grid, s) && ctx.currentTime < grid.cutoffs[s.opens] && ctx.Valid()
    requires Joint(st, ctx.bar.symbol, p, state, buy, shape) && ctx.positionQuantity == st.book.Held(ctx.bar.symbol) > 0
    requires Names(st, ctx.bar.symbol, sells, false, true) && atr > 0.0
    requires ctx.averageEntryPrice == st.book.PositionOf(ctx.bar.symbol).AveragePrice() && state.entryAtr == Some(atr)
    ensures var (s2, unsell) := Cancelling(state, ctx, sells, "REPLACE_PROTECTION");
            var e := Protecting(p, s2, ctx, atr);
            && (e.Err? ==> e.error == NonpositiveStop)
            && (e.Ok? ==> Leaves(env, grid, st, ctx, unsell + e.value.1, p, e.value.0, buy, Paired(|st.orders|, |st.orders| + 1), from))
            && (e.Ok? ==> Protected(Applied(env, grid, st, ctx, unsell + e.value.1).value, ctx.bar.symbol, e.value.0, Paired(|st.orders|, |st.orders| + 1)))
  {
    hide Appendix, RequestAll, Joint, Protecting, Names, Thinned, Protected;
    var (s2, unsell) := Cancelling(state, ctx, sells, "REPLACE_PROTECTION");
    CancelJoint(env, grid, st, ctx, p, state, buy, shape, sells, "REPLACE_PROTECTION", false, true, from);
    CancelCounts(state, ctx, sells, "REPLACE_PROTECTION");
    var mid := Applied(env, grid, st, ctx, unsell).value;
    ThinnedBook(st, mid, ctx.bar.symbol, sells, ctx.currentTime, "REPLACE_PROTECTION");
    Protects(env, grid, mid, ctx, s, p, s2, buy, atr, from);
    var e := Protecting(p, s2, ctx, atr);
    if e.Ok? {
      ThenLeaves(env, grid, st, mid, ctx, unsell, e.value.1, p, e.value.0, buy, Paired(|st.orders|, |st.orders| + 1), from);
    }
  }

  /** Cancelling leftover purchases once an exit has started. */
  lemma UnbuyJoint(env: Env, grid: Grid, st: Sim, ctx: Context, p: Parameters, state: State, buy: Option<nat>, shape: Shape, from: nat)
    requires Joint(st, ctx.bar.symbol, p, state, buy, shape) && ctx.orders == Snapshots(st.orders, ctx.bar.symbol)
    ensures var exited := Exited(state, ctx);
            var (s1, unbuy) := Cancelling(state, ctx, if exited then ActiveRefs(ctx.orders, Buy) else [], "EXIT_STARTED");
            && Leaves(env, grid, st, ctx, unbuy, p, s1, if exited then None else buy, shape, from)
            && Names(Applied(env, grid, st, ctx, unbuy).value, ctx.bar.symbol, ActiveRefs(ctx.orders, Sell), false, true)
            && |Applied(env, grid, st, ctx, unbuy).value.orders| == |st.orders|
            && (shape.Stopping? ==> shape.stop < |st.orders| && Applied(env, grid, st, ctx, unbuy).value.orders[shape.stop] == st.orders[shape.stop])
            && (shape.Paired? ==> shape.stop < |st.orders| && Applied(env, grid, st, ctx, unbuy).value.orders[shape.stop] == st.orders[shape.stop])
  {
    hide Leaves, Applied, Joint, ActiveRefs, Names, Exited, Thinned;
    ListsName(st, ctx, p, state, buy, shape);
    var exited := Exited(state, ctx);
    var targets := if exited then ActiveRefs(ctx.orders, Buy) else [];
    assert Names(st, ctx.bar.symbol, targets, exited, false);
    CancelJoint(env, grid, st, ctx, p, state, buy, shape, targets, "EXIT_STARTED", exited, false, from);
    var (s1, unbuy) := Cancelling(state, ctx, targets, "EXIT_STARTED");
    LeavesParts(env, grid, st, ctx, unbuy, p, s1, if exited then None else buy, shape, from);
    var mid := Applied(env, grid, st, ctx, unbuy).value;
    NamesKept(st, mid, ctx.bar.symbol, targets, ctx.currentTime, "EXIT_STARTED", ActiveRefs(ctx.orders, Sell), false, true);
    ThinnedBook(st, mid, ctx.bar.symbol, targets, ctx.currentTime, "EXIT_STARTED");
    if shape.Stopping? || shape.Paired? {
      MemberWorks(st, ctx.bar.symbol, p, state, buy, shape, shape.stop);
      ThinnedSale(st, mid, ctx.bar.symbol, targets, ctx.currentTime, "EXIT_STARTED", exited, shape.stop);
    }
  }

  lemma ThinnedSale(st: Sim, r: Sim, symbol: Symbol, targets: seq<Reference>, now: Time, reason: string, buys: bool, i: nat)
    requires Thinned(st, r, symbol, targets, now, reason) && Names(st, symbol, targets, buys, false)
    requires i < |st.orders| && Working(st.orders[i], symbol) && st.orders[i].intent.side == Sell
    ensures |r.orders| == |st.orders| && r.orders[i] == st.orders[i]
  {
    hide SimOrder.Active, SimOrder.Moved;
  }

  /** A part-filled stop is kept if it covers the holding, else replaced by a market exit for it. */
  lemma StoppingJoint(env: Env, grid: Grid, st: Sim, ctx: Context, s: Session, p: Parameters, state: State, buy: Option<nat>, shape: Shape, atr: real, from: nat)
    returns (laterShape: Shape)
    requires Observed(env, grid, st, ctx, s) && Joint(st, ctx.bar.symbol, p, state, buy, shape) && ctx.positionQuantity > 0 && shape.Stopping?
    ensures var e := Defending(p, state, ctx, atr);
            && e.Ok? && Leaves(env, grid, st, ctx, e.value.1, p, e.value.0, None, laterShape, from)
            && Protected(Applied(env, grid, st, ctx, e.value.1).value, ctx.bar.symbol, e.value.0, laterShape)
  {
    hide Appendix, RequestAll, Joint, ActiveRefs, Names, Exited, MarketExit, Cancelling, FillingStop, Snapshots, SimOrder.Remaining;
    StopSeen(st, ctx, p, state, buy, shape);
    ExitedSeen(st, ctx, p, state, buy, shape);
    UnbuyJoint(env, grid, st, ctx, p, state, buy, shape, from);
    var sells := ActiveRefs(ctx.orders, Sell);
    var (s1, unbuy) := Cancelling(state, ctx, if Exited(state, ctx) then ActiveRefs(ctx.orders, Buy) else [], "EXIT_STARTED");
    var mid := Applied(env, grid, st, ctx, unbuy).value;
    laterShape := shape;
    if st.orders[shape.stop].Remaining() != ctx.positionQuantity {
      RemainderJoint(env, grid, mid, ctx, s, p, s1, shape, sells, from);
      var (s2, unsell) := Cancelling(s1, ctx, sells, "STOP_REMAINDER");
      var x := MarketExit(s2, ctx, StopRemainder).value;
      ThenLeaves(env, grid, st, mid, ctx, unbuy, unsell + x.1, p, x.0, None, Exiting(|mid.orders|), from);
      assert unbuy + unsell + x.1 == unbuy + (unsell + x.1);
      laterShape := Exiting(|mid.orders|);
    }
  }

  /** A pair for the same holding and average is kept; anything else is replaced by a new pair. */
  lemma RenewingJoint(env: Env, grid: Grid, st: Sim, ctx: Context, s: Session, p: Parameters, state: State, buy: Option<nat>, shape: Shape, atr: real, from: nat)
    returns (laterBuy: Option<nat>, laterShape: Shape)
    requires from <= state.sequence
    requires Observed(env, grid, st, ctx, s) && Joint(st, ctx.bar.symbol, p, state, buy, shape) && ctx.positionQuantity > 0
    requires !shape.Stopping? && atr > 0.0 && state.entryAtr == Some(atr)
    ensures var e := Defending(p, state, ctx, atr);
            && (e.Err? ==> e.error == NonpositiveStop)
            && (e.Ok? ==> Leaves(env, grid, st, ctx, e.value.1, p, e.value.0, laterBuy, laterShape, from)
                          && Protected(Applied(env, grid, st, ctx, e.value.1).value, ctx.bar.symbol, e.value.0, laterShape))
  {
    hide Leaves, Applied, Joint, ActiveRefs, Names, Exited, Protecting, Cancelling, FillingStop, Snapshots, Protected;
    StopSeen(st, ctx, p, state, buy, shape);
    UnbuyJoint(env, grid, st, ctx, p, state, buy, shape, from);
    ListsName(st, ctx, p, state, buy, shape);
    var sells := ActiveRefs(ctx.orders, Sell);
    var targets := if Exited(state, ctx) then ActiveRefs(ctx.orders, Buy) else [];
    var (s1, unbuy) := Cancelling(state, ctx, targets, "EXIT_STARTED");
    laterBuy, laterShape := if Exited(state, ctx) then None else buy, shape;
    CancelCounts(state, ctx, targets, "EXIT_STARTED");
    LeavesParts(env, grid, st, ctx, unbuy, p, s1, laterBuy, shape, from);
    var mid := Applied(env, grid, st, ctx, unbuy).value;
    if state.protection == Some((ctx.positionQuantity, ctx.averageEntryPrice)) && |sells| == 2 {
      PairProtected(mid, ctx.bar.symbol, s1, shape);
    } else {
      ReplaceJoint(env, grid, mid, ctx, s, p, s1, laterBuy, shape, sells, atr, from);
      var (s2, unsell) := Cancelling(s1, ctx, sells, "REPLACE_PROTECTION");
      var x := Protecting(p, s2, ctx, atr);
      if x.Ok? {
        ThenLeaves(env, grid, st, mid, ctx, unbuy, unsell + x.value.1, p, x.value.0, laterBuy, Paired(|mid.orders|, |mid.orders| + 1), from);
        assert unbuy + unsell + x.value.1 == unbuy + (unsell + x.value.1);
        laterShape := Paired(|mid.orders|, |mid.orders| + 1);
      }
    }
  }

  lemma PairProtected(st: Sim, symbol: Symbol, state: State, shape: Shape)
    requires shape.Paired? && state.protection == Some((st.book.Held(symbol), st.book.PositionOf(symbol).AveragePrice()))
    ensures Protected(st, symbol, state, shape)
  {
  }

  lemma LeavesParts(env: Env, grid: Grid, st: Sim, ctx: Context, requests: seq<Request>, p: Parameters, state: State, buy: Option<nat>, shape: Shape, from: nat)
    requires Leaves(env, grid, st, ctx, requests, p, state, buy, shape, from)
    ensures var r := Applied(env, grid, st, ctx, requests);
            r.Ok? && r.value.book == st.book && Joint(r.value, ctx.bar.symbol, p, state, buy, shape) && Appendix(st, r.value, ctx.bar.symbol, from)
  {
    hide RequestAll, Joint, Appendix;
  }

  /** The symbol is held: after the evaluation its whole holding is protected. */
  lemma HoldingJoint(env: Env, grid: Grid, st: Sim, ctx: Context, s: Session, p: Parameters, state: State, buy: Option<nat>, shape: Shape, from: nat)
    returns (laterBuy: Option<nat>, laterShape: Shape)
    requires from <= state.sequence
    requires Observed(env, grid, st, ctx, s) && Joint(st, ctx.bar.symbol, p, state, buy, shape) && ctx.positionQuantity > 0
    ensures var e := Holding(p, state, ctx);
            && (e.Err? ==> e.error == NonpositiveStop)
            && (e.Ok? ==> Leaves(env, grid, st, ctx, e.value.1, p, e.value.0, laterBuy, laterShape, from)
                          && Protected(Applied(env, grid, st, ctx, e.value.1).value, ctx.bar.symbol, e.value.0, laterShape))
  {
    hide Appendix, RequestAll, Joint, ActiveRefs, MarketExit, Cancelling, Reversing, HasTag, Snapshots, SimOrder.Remaining, Defending, SaleFits;
    JointParts(st, ctx.bar.symbol, p, state, buy, shape);
    ExitSeen(st, ctx, p, state, buy, shape);
    laterBuy, laterShape := buy, shape;
    if shape.Exiting? {
      NoRequests(env, grid, st, ctx, from);
    } else if Reversing(ctx) {
      ReversalJoint(env, grid, st, ctx, s, p, state, buy, shape, from);
      laterBuy, laterShape := None, Exiting(|st.orders|);
    } else if shape.Stopping? {
      laterBuy := None;
      laterShape := StoppingJoint(env, grid, st, ctx, s, p, state, buy, shape, state.entryAtr.value, from);
    } else {
      laterBuy, laterShape := RenewingJoint(env, grid, st, ctx, s, p, state, buy, shape, state.entryAtr.value, from);
    }
  }

  lemma NoRequests(env: Env, grid: Grid, st: Sim, ctx: Context, from: nat)
    ensures Applied(env, grid, st, ctx, []) == Ok(st) && Appendix(st, st, ctx.bar.symbol, from)
  {
  }

  /** Nothing is held, so nothing of the strategy's is for sale. */
  lemma FlatIsBare(st: Sim, symbol: Symbol, p: Parameters, state: State, buy: Option<nat>, shape: Shape)
    requires Joint(st, symbol, p, state, buy, shape) && st.book.Held(symbol) == 0
    ensures shape == Bare
  {
  }

  /** Flat with an entry on record: leftovers are cancelled and the entry is forgotten only once nothing can reopen it. */
  lemma FinishingJoint(env: Env, grid: Grid, st: Sim, ctx: Context, p: Parameters, state: State, buy: Option<nat>, shape: Shape, from: nat) returns (laterBuy: Option<nat>)
    requires ctx.orders == Snapshots(st.orders, ctx.bar.symbol) && st.book.Held(ctx.bar.symbol) == 0
    requires Joint(st, ctx.bar.symbol, p, state, buy, shape) && state.entryReference.Some?
    ensures var (later, requests) := Finishing(state, ctx); Leaves(env, grid, st, ctx, requests, p, later, laterBuy, Bare, from)
  {
    hide Appendix, RequestAll, Joint, ActiveRefs, Names, Exited, Cancelling, Thinned;
    FlatIsBare(st, ctx.bar.symbol, p, state, buy, shape);
    ListsName(st, ctx, p, state, buy, shape);
    NoRequests(env, grid, st, ctx, from);
    var buys, sells := ActiveRefs(ctx.orders, Buy), ActiveRefs(ctx.orders, Sell);
    var exited := Exited(state, ctx);
    laterBuy := buy;
    if exited || buys == [] {
      var targets := if exited then buys + sells else sells;
      var (s1, cancels) := Cancelling(state, ctx, targets, "POSITION_FLAT");
      CancelCounts(state, ctx, targets, "POSITION_FLAT");
      StateKept(st, ctx.bar.symbol, p, state, s1, buy, Bare);
      if exists o | o in ctx.orders :: o.reference == state.entryReference.value {
        laterBuy := None;
        CancelJoint(env, grid, st, ctx, p, state, buy, shape, targets, "POSITION_FLAT", exited, true, from);
        var r := Applied(env, grid, st, ctx, cancels).value;
        var later := s1.(entryReference := None, entryAtr := None, protection := None);
        StateMoves(r, ctx.bar.symbol, p, s1, later, None, Bare);
      }
    }
  }

  lemma CancelCounts(state: State, ctx: Context, targets: seq<Reference>, reason: string)
    ensures var later := Cancelling(state, ctx, targets, reason).0;
            state.sequence <= later.sequence && later == state.(sequence := later.sequence)
  {
  }

  lemma EntryPlaced(st: Sim, r: Sim, symbol: Symbol, p: Parameters, state: State, later: State, intent: TradeIntent)
    requires Joint(st, symbol, p, state, None, Bare) && st.book.Held(symbol) == 0
    requires intent.symbol == symbol && intent.side == Buy && intent.quantity == p.quantity && intent.ocoGroup.None? && intent.orderType == Market
    requires intent.reference == Lifecycle(symbol, state.cycle + 1, Entry, state.sequence + 1)
    requires later.sequence == state.sequence + 1 && later.cycle == state.cycle + 1
    requires later.entryReference == Some(intent.reference) && later.entryAtr.Some? && later.entryAtr.value > 0.0
    requires r.book == st.book && |r.orders| == |st.orders| + 1 && r.orders[..|st.orders|] == st.orders && Placed(r.orders[|st.orders|], intent)
    ensures Joint(r, symbol, p, later, Some(|st.orders|), Bare)
  {
    AppendFacts(st, r, symbol, p, state, later, None);
  }

  /** Flat with nothing working: at most one entry, of the configured size, with its ATR frozen. */
  lemma EnteringJoint(env: Env, grid: Grid, st: Sim, ctx: Context, s: Session, p: Parameters, state: State, buy: Option<nat>, shape: Shape, from: nat) returns (laterBuy: Option<nat>)
    requires Observed(env, grid, st, ctx, s) && Joint(st, ctx.bar.symbol, p, state, buy, shape) && ctx.positionQuantity == 0
    ensures var e := Entering(p, state, ctx); e.Ok? && Leaves(env, grid, st, ctx, e.value.1, p, e.value.0, laterBuy, Bare, from)
  {
    hide RequestAll, Joint, ActiveRefs, Names, Feature, Snapshots;
    FlatIsBare(st, ctx.bar.symbol, p, state, buy, shape);
    ListsName(st, ctx, p, state, buy, shape);
    NoRequests(env, grid, st, ctx, from);
    laterBuy := buy;
    var e := Entering(p, state, ctx).value;
    if e.1 != [] {
      var intent := e.1[0].intent;
      assert e.1 == [Place(intent)];
      PlaceApplied(env, grid, st, ctx.bar.symbol, intent, s);
      EntryPlaced(st, Applied(env, grid, st, ctx, e.1).value, ctx.bar.symbol, p, state, e.0, intent);
      laterBuy := Some(|st.orders|);
    }
  }

  /** What an evaluation is given during a run. */
  ghost predicate Shown(env: Env, grid: Grid, st: Sim, ctx: Context, s: Session) {
    && ctx.Valid()
    && ctx.orders == Snapshots(st.orders, ctx.bar.symbol)
    && ctx.positionQuantity == st.book.Held(ctx.bar.symbol)
    && ctx.averageEntryPrice == st.book.PositionOf(ctx.bar.symbol).AveragePrice()
    && Ordered(env.sessions) && s in env.sessions && SessionGrid(grid, s)
    && s.opens <= ctx.currentTime && ctx.sessionClose == s.closes && ctx.executionCutoff == Some(grid.cutoffs[s.opens])
  }

  /**
   * One evaluation of the baseline strategy, applied by the simulator: it can fail only for a nonpositive stop;
   * the joint invariant holds of the new strategy state; and unless the strategy stands aside, a held position
   * is protected in full.
   */
  lemma EvaluationJoint(env: Env, grid: Grid, st: Sim, ctx: Context, s: Session, p: Parameters, state: State, buy: Option<nat>, shape: Shape, from: nat)
    returns (laterBuy: Option<nat>, laterShape: Shape)
    requires from <= state.sequence
    requires Shown(env, grid, st, ctx, s) && Joint(st, ctx.bar.symbol, p, state, buy, shape)
    ensures var e := Evaluation(p, state, ctx);
            && (e.Err? ==> e.error == NonpositiveStop)
            && (e.Ok? ==> Leaves(env, grid, st, ctx, e.value.1, p, e.value.0, laterBuy, laterShape, from))
            && (e.Ok? && !StandsAside(ctx) ==> Protected(Applied(env, grid, st, ctx, e.value.1).value, ctx.bar.symbol, e.value.0, laterShape))
  {
    hide RequestAll, Joint, Holding, Finishing, Entering, Signal, Snapshots, Protected;
    JointParts(st, ctx.bar.symbol, p, state, buy, shape);
    var armed := Rearmed(p, state, ctx);
    StateKept(st, ctx.bar.symbol, p, state, armed, buy, shape);
    NoRequests(env, grid, st, ctx, from);
    laterBuy, laterShape := buy, shape;
    if !StandsAside(ctx) {
      SessionAtExact(env.sessions, ctx.currentTime);
      if ctx.positionQuantity != 0 {
        laterBuy, laterShape := HoldingJoint(env, grid, st, ctx, s, p, armed, buy, shape, from);
      } else if armed.entryReference.Some? {
        laterBuy := FinishingJoint(env, grid, st, ctx, p, armed, buy, shape, from);
        laterShape := Bare;
        var e := Finishing(armed, ctx);
        FlatProtected(Applied(env, grid, st, ctx, e.1).value, ctx.bar.symbol, e.0, Bare);
      } else {
        laterBuy := EnteringJoint(env, grid, st, ctx, s, p, armed, buy, shape, from);
        laterShape := Bare;
        var e := Entering(p, armed, ctx).value;
        FlatProtected(Applied(env, grid, st, ctx, e.1).value, ctx.bar.symbol, e.0, Bare);
      }
    }
  }

  lemma FlatProtected(st: Sim, symbol: Symbol, state: State, shape: Shape)
    requires st.book.Held(symbol) == 0
    ensures Protected(st, symbol, state, shape)
  {
  }
}
