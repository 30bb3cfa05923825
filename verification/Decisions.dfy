/** What the baseline decides, written out on the context it is shown: when it exits, protects, lets be, tidies up and enters. */
module Decisions {
  import opened Common
  import opened Rounding
  import opened Orders
  import opened Execution
  import opened Strategies
  import opened Baseline

  // ----- the observations

  /** The feature is there and not marked unavailable. */
  predicate Available(ctx: Context, name: string) {
    name in ctx.features && name !in ctx.unavailable && ctx.features[name].Some?
  }

  /** The fast mean is no longer above the slow one. */
  predicate TrendTurned(ctx: Context) {
    Available(ctx, "ema_10") && Available(ctx, "ema_20") && ctx.features["ema_10"].value <= ctx.features["ema_20"].value
  }

  /** A working ordinary order of this side. */
  predicate Works(o: OrderSnapshot, side: Side) { o.active && !o.forced && o.side == side }

  ghost predicate IsWorking(ctx: Context, side: Side, r: Reference) {
    exists i :: 0 <= i < |ctx.orders| && Works(ctx.orders[i], side) && ctx.orders[i].reference == r
  }

  /** A market exit is under way. */
  ghost predicate Leaving(ctx: Context) {
    exists i :: 0 <= i < |ctx.orders| && Works(ctx.orders[i], Sell)
                && (HasTag(ctx.orders[i].reference, Reversal) || HasTag(ctx.orders[i].reference, StopRemainder))
  }

  /** Some sale of the current cycle has filled. */
  ghost predicate SomethingSold(state: State, ctx: Context) {
    exists i :: 0 <= i < |ctx.orders| && ctx.orders[i].side == Sell && ctx.orders[i].filledQuantity > 0
                && InCycle(ctx.orders[i].reference, ctx.bar.symbol, state.cycle)
  }

  /** Order i is the first working ordinary stop that has begun to fill. */
  ghost predicate FirstFillingStop(ctx: Context, i: nat) {
    && i < |ctx.orders| && IsFillingStop(ctx.orders[i])
    && forall j | 0 <= j < i :: !IsFillingStop(ctx.orders[j])
  }

  predicate IsFillingStop(o: OrderSnapshot) { o.active && !o.forced && HasTag(o.reference, Stop) && o.filledQuantity > 0 }

  function WorkingSales(orders: seq<OrderSnapshot>): nat {
    if orders == [] then 0
    else WorkingSales(orders[..|orders| - 1]) + if Works(orders[|orders| - 1], Sell) then 1 else 0
  }

  // ----- a batch: what it places, and what it withdraws

  function Placed(requests: seq<Request>): seq<TradeIntent> {
    if requests == [] then [] else PlacedBy(requests[0]) + Placed(requests[1..])
  }

  function PlacedBy(request: Request): seq<TradeIntent> { if request.Place? then [request.intent] else [] }

  /** The reference is named by some withdrawal of the batch. */
  ghost predicate Withdraws(requests: seq<Request>, r: Reference) {
    exists i :: 0 <= i < |requests| && requests[i].Withdraw? && r in requests[i].cancel.targets
  }

  /** No withdrawal follows a placement. */
  ghost predicate WithdrawsFirst(requests: seq<Request>) {
    forall i, j | 0 <= i < j < |requests| && requests[i].Place? :: requests[j].Place?
  }

  lemma {:induction false} PlacedConcat(a: seq<Request>, b: seq<Request>)
    ensures Placed(a + b) == Placed(a) + Placed(b)
  {
    hide PlacedBy, Placed;
    if a == [] {
      PlacedNone();
      assert a + b == b && [] + Placed(b) == Placed(b);
    } else {
      PlacedConcat(a[1..], b);
      PlacedFirst(a);
      PlacedFirst(a + b);
      assert (a + b)[1..] == a[1..] + b && (a + b)[0] == a[0];
      Associates(PlacedBy(a[0]), Placed(a[1..]), Placed(b));
    }
  }

  lemma PlacedNone()
    ensures Placed([]) == []
  {
  }

  lemma PlacedFirst(requests: seq<Request>)
    requires requests != []
    ensures Placed(requests) == PlacedBy(requests[0]) + Placed(requests[1..])
  {
  }

  lemma Associates<T>(a: seq<T>, b: seq<T>, c: seq<T>)
    ensures a + (b + c) == (a + b) + c
  {
  }

  lemma PlacedOne(request: Request)
    ensures Placed([request]) == PlacedBy(request)
  {
    assert [request][1..] == [];
  }

  lemma WithdrawsConcat(a: seq<Request>, b: seq<Request>, r: Reference)
    ensures Withdraws(a + b, r) <==> Withdraws(a, r) || Withdraws(b, r)
  {
    var c := a + b;
    if Withdraws(a, r) {
      var i :| 0 <= i < |a| && a[i].Withdraw? && r in a[i].cancel.targets;
      assert c[i] == a[i];
    }
    if Withdraws(b, r) {
      var i :| 0 <= i < |b| && b[i].Withdraw? && r in b[i].cancel.targets;
      assert c[|a| + i] == b[i];
    }
  }

  lemma {:induction false} ActiveRefsWork(orders: seq<OrderSnapshot>, side: Side)
    ensures forall r :: r in ActiveRefs(orders, side) <==> exists i :: 0 <= i < |orders| && Works(orders[i], side) && orders[i].reference == r
    ensures side == Sell ==> |ActiveRefs(orders, side)| == WorkingSales(orders)
  {
    if orders != [] {
      var n := |orders| - 1;
      ActiveRefsWork(orders[..n], side);
      forall r
        ensures r in ActiveRefs(orders, side) <==> exists i :: 0 <= i < |orders| && Works(orders[i], side) && orders[i].reference == r
      {
        if r in ActiveRefs(orders[..n], side) {
          var i :| 0 <= i < n && Works(orders[..n][i], side) && orders[..n][i].reference == r;
          assert orders[i] == orders[..n][i];
        }
        if exists i :: 0 <= i < |orders| && Works(orders[i], side) && orders[i].reference == r {
          var i :| 0 <= i < |orders| && Works(orders[i], side) && orders[i].reference == r;
          if i < n {
            assert orders[..n][i] == orders[i];
          }
        }
      }
    }
  }

  lemma WorkingRefs(ctx: Context, side: Side)
    ensures forall r :: r in ActiveRefs(ctx.orders, side) <==> IsWorking(ctx, side, r)
    ensures side == Sell ==> |ActiveRefs(ctx.orders, side)| == WorkingSales(ctx.orders)
  {
    ActiveRefsWork(ctx.orders, side);
  }

  /** A cancellation places nothing and withdraws exactly its targets. */
  lemma CancellingExact(state: State, ctx: Context, targets: seq<Reference>, reason: string)
    ensures var (s, batch) := Cancelling(state, ctx, targets, reason);
            && Placed(batch) == [] && (forall r :: Withdraws(batch, r) <==> r in targets)
            && (forall i | 0 <= i < |batch| :: batch[i].Withdraw? && batch[i].cancel.reason == reason)
            && s == state.(sequence := s.sequence)
  {
    var (s, batch) := Cancelling(state, ctx, targets, reason);
    if targets != [] {
      assert Placed(batch) == Placed(batch[1..]);
      forall r
        ensures Withdraws(batch, r) <==> r in targets
      {
        assert batch[0].Withdraw? && batch[0].cancel.targets == targets;
      }
    }
  }

  // ----- the orders it places

  /** A market sale of the whole position. */
  ghost predicate SellsAll(intent: TradeIntent, ctx: Context, state: State, tag: Tag) {
    && intent.reference.Lifecycle? && intent.reference.symbol == ctx.bar.symbol && intent.reference.cycle == state.cycle
    && intent.reference.tag == tag
    && intent.symbol == ctx.bar.symbol && intent.side == Sell && intent.quantity == ctx.positionQuantity
    && intent.orderType == Market && intent.ocoGroup == None
    && intent.createdAt == ctx.currentTime && intent.featureTimestamp == ctx.bar.timestamp
  }

  /** The price of ten decimals nearest to a value, half-way cases away from zero. */
  ghost predicate NearestPrice(value: real, price: real) {
    && ((price * 10_000_000_000.0).Floor as real == price * 10_000_000_000.0)
    && (if value >= 0.0 then price * 10_000_000_000.0 - 0.5 <= value * 10_000_000_000.0 < price * 10_000_000_000.0 + 0.5
        else price * 10_000_000_000.0 - 0.5 < value * 10_000_000_000.0 <= price * 10_000_000_000.0 + 0.5)
  }

  lemma TenDecimalsNearest(value: real)
    ensures NearestPrice(value, TenDecimals(value))
  {
    var units := HalfUp(value * 10_000_000_000.0);
    assert TenDecimals(value) * 10_000_000_000.0 == units as real;
  }

  /** A stop and a target in one group, each for the whole position, at the prices nearest to two values. */
  ghost predicate PairAt(placed: seq<TradeIntent>, ctx: Context, cycle: nat, below: real, above: real) {
    && |placed| == 2
    && var stop, target := placed[0], placed[1];
       && IsLeg(stop, ctx, cycle, Stop) && IsLeg(target, ctx, cycle, Target)
       && stop.ocoGroup.Some? && stop.ocoGroup == target.ocoGroup
       && stop.orderType == StopMarket && target.orderType == Limit
       && NearestPrice(below, stop.triggerPrice.value) && NearestPrice(above, target.limitPrice.value)
  }

  ghost predicate IsLeg(intent: TradeIntent, ctx: Context, cycle: nat, tag: Tag) {
    && intent.reference.Lifecycle? && intent.reference.symbol == ctx.bar.symbol && intent.reference.cycle == cycle && intent.reference.tag == tag
    && intent.symbol == ctx.bar.symbol && intent.side == Sell && intent.quantity == ctx.positionQuantity
    && intent.createdAt == ctx.currentTime && intent.featureTimestamp == ctx.bar.timestamp
  }

  /** Such a pair at the multiples of the frozen ATR below and above the average price. */
  ghost predicate ProtectsAll(placed: seq<TradeIntent>, p: Parameters, ctx: Context, cycle: nat, atr: Option<real>) {
    && atr.Some?
    && PairAt(placed, ctx, cycle, ctx.averageEntryPrice - atr.value * p.stopMultiple, ctx.averageEntryPrice + atr.value * p.targetMultiple)
  }

  /** One more numbered order. */
  lemma RequestingExact(state: State, ctx: Context, tag: Tag, side: Side, quantity: int, orderType: OrderType,
                        limit: Option<real>, trigger: Option<real>, group: Option<Reference>, required: seq<string>)
    requires Requesting(state, ctx, tag, side, quantity, orderType, limit, trigger, group, required).Ok?
    ensures var (s, batch) := Requesting(state, ctx, tag, side, quantity, orderType, limit, trigger, group, required).value;
            && |batch| == 1 && batch[0].Place? && Placed(batch) == [batch[0].intent]
            && s == state.(sequence := s.sequence)
            && var intent := batch[0].intent;
               && intent.reference.Lifecycle? && intent.reference.symbol == ctx.bar.symbol && intent.reference.cycle == state.cycle
               && intent.reference.tag == tag && intent.symbol == ctx.bar.symbol && intent.side == side && intent.quantity == quantity
               && intent.orderType == orderType && intent.limitPrice == limit && intent.triggerPrice == trigger
               && intent.ocoGroup == group && intent.createdAt == ctx.currentTime && intent.featureTimestamp == ctx.bar.timestamp
               && intent.requiredFeatures == required
  {
    var (s, batch) := Requesting(state, ctx, tag, side, quantity, orderType, limit, trigger, group, required).value;
    PlacedOne(batch[0]);
    assert batch == [batch[0]];
  }

  lemma NothingWithdrawn(batch: seq<Request>)
    requires forall i | 0 <= i < |batch| :: batch[i].Place?
    ensures forall r :: !Withdraws(batch, r)
  {
  }

  lemma MarketExitExact(state: State, ctx: Context, tag: Tag)
    requires MarketExit(state, ctx, tag).Ok?
    ensures var (s, batch) := MarketExit(state, ctx, tag).value;
            && |batch| == 1 && batch[0].Place? && |Placed(batch)| == 1 && SellsAll(Placed(batch)[0], ctx, state, tag)
            && (forall r :: !Withdraws(batch, r)) && s == state.(sequence := s.sequence)
  {
    hide Requesting, Placed;
    RequestingExact(state, ctx, tag, Sell, ctx.positionQuantity, Market, None, None, None, []);
    NothingWithdrawn(MarketExit(state, ctx, tag).value.1);
  }

  /** The two orders of a fresh pair, one after the other. */
  lemma ProtectingShape(p: Parameters, state: State, ctx: Context, atr: real) returns (s1: State, stops: seq<Request>, s2: State, targets: seq<Request>)
    requires Protecting(p, state, ctx, atr).Ok?
    ensures var group := Some(Named(state, ctx, Oco));
            && Requesting(Counted(state), ctx, Stop, Sell, ctx.positionQuantity, StopMarket, None,
                          Some(StopPrice(p, ctx.averageEntryPrice, atr)), group, []) == Ok((s1, stops))
            && Requesting(s1, ctx, Target, Sell, ctx.positionQuantity, Limit,
                          Some(TargetPrice(p, ctx.averageEntryPrice, atr)), None, group, []) == Ok((s2, targets))
    ensures Protecting(p, state, ctx, atr) == Ok((s2.(protection := Some((ctx.positionQuantity, ctx.averageEntryPrice))), stops + targets))
  {
    hide StopPrice, TargetPrice, Requesting;
    var group := Some(Named(state, ctx, Oco));
    var first := Requesting(Counted(state), ctx, Stop, Sell, ctx.positionQuantity, StopMarket, None,
                              Some(StopPrice(p, ctx.averageEntryPrice, atr)), group, []).value;
    s1, stops := first.0, first.1;
    var second := Requesting(s1, ctx, Target, Sell, ctx.positionQuantity, Limit,
                                Some(TargetPrice(p, ctx.averageEntryPrice, atr)), None, group, []).value;
    s2, targets := second.0, second.1;
  }

  lemma StopAt(p: Parameters, average: real, atr: real, value: real)
    requires value == average - atr * p.stopMultiple
    ensures NearestPrice(value, StopPrice(p, average, atr))
  {
    TenDecimalsNearest(value);
    hide NearestPrice, TenDecimals;
  }

  lemma TargetAt(p: Parameters, average: real, atr: real, value: real)
    requires value == average + atr * p.targetMultiple
    ensures NearestPrice(value, TargetPrice(p, average, atr))
  {
    TenDecimalsNearest(value);
    hide NearestPrice, TenDecimals;
  }

  lemma PairFits(ctx: Context, state: State, s1: State, stop: real, target: real, below: real, above: real, stops: seq<Request>, targets: seq<Request>)
    requires NearestPrice(below, stop) && NearestPrice(above, target)
    requires var group := Some(Named(state, ctx, Oco));
             && Requesting(Counted(state), ctx, Stop, Sell, ctx.positionQuantity, StopMarket, None, Some(stop), group, []).Ok?
             && Requesting(Counted(state), ctx, Stop, Sell, ctx.positionQuantity, StopMarket, None, Some(stop), group, []).value == (s1, stops)
             && Requesting(s1, ctx, Target, Sell, ctx.positionQuantity, Limit, Some(target), None, group, []).Ok?
             && Requesting(s1, ctx, Target, Sell, ctx.positionQuantity, Limit, Some(target), None, group, []).value.1 == targets
    ensures PairAt(Placed(stops + targets), ctx, state.cycle, below, above) && (forall r :: !Withdraws(stops + targets, r))
    ensures |stops + targets| == 2 && (stops + targets)[0].Place? && (stops + targets)[1].Place?
    ensures s1 == state.(sequence := s1.sequence)
  {
    hide NearestPrice, Requesting, Placed, Withdraws;
    var group := Some(Named(state, ctx, Oco));
    RequestingExact(Counted(state), ctx, Stop, Sell, ctx.positionQuantity, StopMarket, None, Some(stop), group, []);
    RequestingExact(s1, ctx, Target, Sell, ctx.positionQuantity, Limit, Some(target), None, group, []);
    PlacedConcat(stops, targets);
    NothingWithdrawn(stops + targets);
    assert Placed(stops) + Placed(targets) == [stops[0].intent, targets[0].intent];
  }

  lemma ProtectingExact(p: Parameters, state: State, ctx: Context, atr: real)
    requires Protecting(p, state, ctx, atr).Ok? && state.entryAtr == Some(atr)
    ensures var (s, batch) := Protecting(p, state, ctx, atr).value;
            && |batch| == 2 && batch[0].Place? && batch[1].Place?
            && ProtectsAll(Placed(batch), p, ctx, state.cycle, state.entryAtr) && (forall r :: !Withdraws(batch, r))
            && s == state.(sequence := s.sequence, protection := Some((ctx.positionQuantity, ctx.averageEntryPrice)))
  {
    hide NearestPrice, StopPrice, TargetPrice, Requesting, Placed, Protecting, Withdraws, PairAt;
    var s1, stops, s2, targets := ProtectingShape(p, state, ctx, atr);
    var below, above := ctx.averageEntryPrice - atr * p.stopMultiple, ctx.averageEntryPrice + atr * p.targetMultiple;
    StopAt(p, ctx.averageEntryPrice, atr, below);
    TargetAt(p, ctx.averageEntryPrice, atr, above);
    PairFits(ctx, state, s1, StopPrice(p, ctx.averageEntryPrice, atr), TargetPrice(p, ctx.averageEntryPrice, atr), below, above, stops, targets);
    RequestingExact(s1, ctx, Target, Sell, ctx.positionQuantity, Limit, Some(TargetPrice(p, ctx.averageEntryPrice, atr)), None, Some(Named(state, ctx, Oco)), []);
  }

  // ----- the decision for a held position

  lemma ReversingExact(ctx: Context)
    ensures Reversing(ctx) <==> TrendTurned(ctx)
  {
  }

  lemma LeavingExact(ctx: Context)
    ensures (exists r | r in ActiveRefs(ctx.orders, Sell) :: HasTag(r, Reversal) || HasTag(r, StopRemainder)) <==> Leaving(ctx)
  {
    hide HasTag;
    WorkingRefs(ctx, Sell);
    if r :| r in ActiveRefs(ctx.orders, Sell) && (HasTag(r, Reversal) || HasTag(r, StopRemainder)) {
      assert IsWorking(ctx, Sell, r);
    }
    if Leaving(ctx) {
      var i :| 0 <= i < |ctx.orders| && Works(ctx.orders[i], Sell)
               && (HasTag(ctx.orders[i].reference, Reversal) || HasTag(ctx.orders[i].reference, StopRemainder));
      assert IsWorking(ctx, Sell, ctx.orders[i].reference);
    }
  }

  lemma ExitedExact(state: State, ctx: Context)
    ensures Exited(state, ctx) <==> SomethingSold(state, ctx)
  {
    hide InCycle;
    if Exited(state, ctx) {
      var o :| o in ctx.orders && o.side == Sell && o.filledQuantity > 0 && InCycle(o.reference, ctx.bar.symbol, state.cycle);
      var i :| 0 <= i < |ctx.orders| && ctx.orders[i] == o;
      assert SomethingSold(state, ctx);
    }
    if SomethingSold(state, ctx) {
      var i :| 0 <= i < |ctx.orders| && ctx.orders[i].side == Sell && ctx.orders[i].filledQuantity > 0
               && InCycle(ctx.orders[i].reference, ctx.bar.symbol, state.cycle);
      assert ctx.orders[i] in ctx.orders;
    }
  }

  lemma {:induction false} FillingStopFirst(orders: seq<OrderSnapshot>)
    ensures match FillingStop(orders)
            case None => forall j | 0 <= j < |orders| :: !IsFillingStop(orders[j])
            case Some(stop) => exists i :: 0 <= i < |orders| && orders[i] == stop && IsFillingStop(stop) && forall j | 0 <= j < i :: !IsFillingStop(orders[j])
  {
    hide HasTag;
    if orders != [] && !IsFillingStop(orders[0]) {
      FillingStopFirst(orders[1..]);
      if FillingStop(orders).Some? {
        var stop := FillingStop(orders).value;
        var i :| 0 <= i < |orders[1..]| && orders[1..][i] == stop && IsFillingStop(stop) && forall j | 0 <= j < i :: !IsFillingStop(orders[1..][j]);
        assert orders[i + 1] == stop;
        forall j | 0 <= j < i + 1
          ensures !IsFillingStop(orders[j])
        {
          assert j > 0 ==> orders[j] == orders[1..][j - 1];
        }
      }
    }
  }

  /** Left alone, but for entries once an exit has started. */
  ghost predicate LetsBe(requests: seq<Request>, state: State, ctx: Context) {
    && Placed(requests) == []
    && forall r :: Withdraws(requests, r) <==> SomethingSold(state, ctx) && IsWorking(ctx, Buy, r)
  }

  /** All working sales are withdrawn, and the entries too once an exit has started. */
  ghost predicate ClearsSales(requests: seq<Request>, state: State, ctx: Context) {
    forall r :: Withdraws(requests, r) <==> IsWorking(ctx, Sell, r) || (SomethingSold(state, ctx) && IsWorking(ctx, Buy, r))
  }

  /** What the strategy does about a held position when no market exit is under way. */
  ghost predicate DecidesHolding(p: Parameters, state: State, ctx: Context, requests: seq<Request>) {
    if TrendTurned(ctx) then
      && |Placed(requests)| == 1 && SellsAll(Placed(requests)[0], ctx, state, Reversal)
      && forall r :: Withdraws(requests, r) <==> IsWorking(ctx, Buy, r) || IsWorking(ctx, Sell, r)
    else if exists i :: FirstFillingStop(ctx, i) then
      var i: nat :| FirstFillingStop(ctx, i);
      if ctx.orders[i].remaining == ctx.positionQuantity then LetsBe(requests, state, ctx)
      else |Placed(requests)| == 1 && SellsAll(Placed(requests)[0], ctx, state, StopRemainder) && ClearsSales(requests, state, ctx)
    else if state.protection == Some((ctx.positionQuantity, ctx.averageEntryPrice)) && WorkingSales(ctx.orders) == 2 then
      LetsBe(requests, state, ctx)
    else ProtectsAll(Placed(requests), p, ctx, state.cycle, state.entryAtr) && ClearsSales(requests, state, ctx)
  }

  lemma ReversalExact(p: Parameters, state: State, ctx: Context)
    requires Holding(p, state, ctx).Ok? && state.entryAtr.Some? && !Leaving(ctx) && TrendTurned(ctx)
    ensures var (after, requests) := Holding(p, state, ctx).value;
            DecidesHolding(p, state, ctx, requests) && WithdrawsFirst(requests) && after == state.(sequence := after.sequence)
  {
    hide Requesting, Cancelling, ActiveRefs, Withdraws, Placed, HasTag, MarketExit, SellsAll, Defending, TrendTurned, Reversing, IsWorking, FillingStop;
    LeavingExact(ctx);
    ReversingExact(ctx);
    WorkingRefs(ctx, Buy);
    WorkingRefs(ctx, Sell);
    var targets := ActiveRefs(ctx.orders, Buy) + ActiveRefs(ctx.orders, Sell);
    CancellingExact(state, ctx, targets, "TREND_REVERSAL");
    var (s1, cancels) := Cancelling(state, ctx, targets, "TREND_REVERSAL");
    MarketExitExact(s1, ctx, Reversal);
    var (s2, exit) := MarketExit(s1, ctx, Reversal).value;
    PlacedConcat(cancels, exit);
    SameSale(Placed(exit)[0], ctx, state, s1, Reversal);
    forall r
      ensures Withdraws(cancels + exit, r) <==> IsWorking(ctx, Buy, r) || IsWorking(ctx, Sell, r)
    {
      WithdrawsConcat(cancels, exit, r);
    }
  }

  lemma SameSale(intent: TradeIntent, ctx: Context, state: State, later: State, tag: Tag)
    requires later.cycle == state.cycle
    ensures SellsAll(intent, ctx, later, tag) <==> SellsAll(intent, ctx, state, tag)
  {
  }

  /** The entries are withdrawn once an exit has started. */
  lemma UnbuyExact(state: State, ctx: Context)
    ensures var (s1, unbuy) := Cancelling(state, ctx, if Exited(state, ctx) then ActiveRefs(ctx.orders, Buy) else [], "EXIT_STARTED");
            && LetsBe(unbuy, state, ctx) && (forall i | 0 <= i < |unbuy| :: unbuy[i].Withdraw?) && s1 == state.(sequence := s1.sequence)
  {
    hide Cancelling, Placed, Withdraws, IsWorking, ActiveRefs, SomethingSold, Exited;
    ExitedExact(state, ctx);
    WorkingRefs(ctx, Buy);
    CancellingExact(state, ctx, if Exited(state, ctx) then ActiveRefs(ctx.orders, Buy) else [], "EXIT_STARTED");
  }

  /** And then the sales, and something is placed. */
  lemma ClearedExact(state: State, ctx: Context, unbuy: seq<Request>, s1: State, reason: string, placed: seq<Request>)
    requires LetsBe(unbuy, state, ctx) && (forall i | 0 <= i < |unbuy| :: unbuy[i].Withdraw?)
    requires (forall i | 0 <= i < |placed| :: placed[i].Place?)
    ensures var (s2, unsell) := Cancelling(s1, ctx, ActiveRefs(ctx.orders, Sell), reason);
            && s2 == s1.(sequence := s2.sequence)
            && ClearsSales(unbuy + unsell + placed, state, ctx) && WithdrawsFirst(unbuy + unsell + placed)
            && Placed(unbuy + unsell + placed) == Placed(placed)
  {
    hide Cancelling, Placed, Withdraws, IsWorking, ActiveRefs, SomethingSold;
    WorkingRefs(ctx, Sell);
    CancellingExact(s1, ctx, ActiveRefs(ctx.orders, Sell), reason);
    var (s2, unsell) := Cancelling(s1, ctx, ActiveRefs(ctx.orders, Sell), reason);
    NothingWithdrawn(placed);
    PlacedConcat(unbuy, unsell);
    PlacedConcat(unbuy + unsell, placed);
    forall r
      ensures Withdraws(unbuy + unsell + placed, r) <==> IsWorking(ctx, Sell, r) || (SomethingSold(state, ctx) && IsWorking(ctx, Buy, r))
    {
      WithdrawsConcat(unbuy, unsell, r);
      WithdrawsConcat(unbuy + unsell, placed, r);
    }
  }

  /** The case of a stop that has begun to fill. */
  lemma RemainderExact(p: Parameters, state: State, ctx: Context, atr: real)
    requires Defending(p, state, ctx, atr).Ok? && FillingStop(ctx.orders).Some? && !TrendTurned(ctx)
    ensures var (after, requests) := Defending(p, state, ctx, atr).value;
            DecidesHolding(p, state, ctx, requests) && WithdrawsFirst(requests) && after == state.(sequence := after.sequence)
  {
    hide Cancelling, ActiveRefs, Withdraws, Placed, HasTag, MarketExit, SellsAll, TrendTurned, IsWorking, SomethingSold, Exited, LetsBe, ClearsSales;
    var (s1, unbuy) := Cancelling(state, ctx, if Exited(state, ctx) then ActiveRefs(ctx.orders, Buy) else [], "EXIT_STARTED");
    UnbuyExact(state, ctx);
    FillingStopFirst(ctx.orders);
    var stop := FillingStop(ctx.orders).value;
    var k: nat :| k < |ctx.orders| && ctx.orders[k] == stop && IsFillingStop(stop) && forall j | 0 <= j < k :: !IsFillingStop(ctx.orders[j]);
    assert FirstFillingStop(ctx, k);
    OneFirst(ctx, k);
    if stop.remaining != ctx.positionQuantity {
      var (s2, unsell) := Cancelling(s1, ctx, ActiveRefs(ctx.orders, Sell), "STOP_REMAINDER");
      var (s3, exit) := MarketExit(s2, ctx, StopRemainder).value;
      MarketExitExact(s2, ctx, StopRemainder);
      ClearedExact(state, ctx, unbuy, s1, "STOP_REMAINDER", exit);
      SameSale(Placed(exit)[0], ctx, state, s2, StopRemainder);
    }
  }

  lemma OneFirst(ctx: Context, k: nat)
    requires FirstFillingStop(ctx, k)
    ensures forall i: nat | FirstFillingStop(ctx, i) :: i == k
  {
    hide IsFillingStop;
  }

  /** The case without one: keep the pair, or renew it. */
  lemma PairExact(p: Parameters, state: State, ctx: Context, atr: real)
    requires Defending(p, state, ctx, atr).Ok? && FillingStop(ctx.orders).None? && !TrendTurned(ctx) && state.entryAtr == Some(atr)
    ensures var (after, requests) := Defending(p, state, ctx, atr).value;
            && DecidesHolding(p, state, ctx, requests) && WithdrawsFirst(requests)
            && after == state.(sequence := after.sequence, protection := Some((ctx.positionQuantity, ctx.averageEntryPrice)))
  {
    hide Cancelling, ActiveRefs, Withdraws, Placed, HasTag, Protecting, ProtectsAll, TrendTurned, IsWorking, SomethingSold, Exited, LetsBe, ClearsSales;
    var sells := ActiveRefs(ctx.orders, Sell);
    var (s1, unbuy) := Cancelling(state, ctx, if Exited(state, ctx) then ActiveRefs(ctx.orders, Buy) else [], "EXIT_STARTED");
    UnbuyExact(state, ctx);
    FillingStopFirst(ctx.orders);
    WorkingRefs(ctx, Sell);
    if !(state.protection == Some((ctx.positionQuantity, ctx.averageEntryPrice)) && |sells| == 2) {
      var (s2, unsell) := Cancelling(s1, ctx, sells, "REPLACE_PROTECTION");
      var (s3, pair) := Protecting(p, s2, ctx, atr).value;
      ClearedExact(state, ctx, unbuy, s1, "REPLACE_PROTECTION", []);
      ProtectingExact(p, s2, ctx, atr);
      ClearedExact(state, ctx, unbuy, s1, "REPLACE_PROTECTION", pair);
    }
  }

  /** Before the close and the cutoff. */
  predicate InTime(ctx: Context) {
    ctx.currentTime < ctx.sessionClose && (ctx.executionCutoff.Some? ==> ctx.currentTime < ctx.executionCutoff.value)
  }

  /**
   * A successful evaluation of a held position, in time: while a market exit is under way, nothing; else, if the trend has
   * turned, all working orders are withdrawn and everything is sold; else, of a stop that has begun to fill, the remainder is
   * sold at market unless the stop still covers everything; else a pair that fits the position is left alone and any other
   * replaced. Apart from numbering, arming and the basis of protection the strategy's record stays.
   */
  lemma HoldingExact(p: Parameters, before: State, ctx: Context)
    requires Evaluation(p, before, ctx).Ok? && ctx.positionQuantity != 0 && InTime(ctx)
    ensures var (after, requests) := Evaluation(p, before, ctx).value;
            && (if Leaving(ctx) then requests == [] else DecidesHolding(p, before, ctx, requests) && WithdrawsFirst(requests))
            && after == before.(sequence := after.sequence, armed := after.armed, protection := after.protection)
            && after.protection in {before.protection, Some((ctx.positionQuantity, ctx.averageEntryPrice))}
  {
    hide Signal, Holding, DecidesHolding, WithdrawsFirst, Leaving, TrendTurned;
    var state := Rearmed(p, before, ctx);
    assert Evaluation(p, before, ctx) == Holding(p, state, ctx);
    HeldExact(p, state, ctx);
    SameDecision(p, before, state, ctx, Evaluation(p, before, ctx).value.1);
  }

  lemma HeldExact(p: Parameters, state: State, ctx: Context)
    requires Holding(p, state, ctx).Ok?
    ensures var (after, requests) := Holding(p, state, ctx).value;
            && (if Leaving(ctx) then requests == [] else DecidesHolding(p, state, ctx, requests) && WithdrawsFirst(requests))
            && after == state.(sequence := after.sequence, protection := after.protection)
            && after.protection in {state.protection, Some((ctx.positionQuantity, ctx.averageEntryPrice))}
  {
    hide DecidesHolding, WithdrawsFirst, Leaving, TrendTurned, Reversing, HasTag, ActiveRefs, Defending, MarketExit, Cancelling, FillingStop;
    LeavingExact(ctx);
    ReversingExact(ctx);
    if !Leaving(ctx) {
      if TrendTurned(ctx) {
        ReversalExact(p, state, ctx);
      } else if FillingStop(ctx.orders).Some? {
        RemainderExact(p, state, ctx, state.entryAtr.value);
      } else {
        PairExact(p, state, ctx, state.entryAtr.value);
      }
    }
  }

  lemma SameDecision(p: Parameters, before: State, state: State, ctx: Context, requests: seq<Request>)
    requires state == before.(armed := state.armed)
    ensures DecidesHolding(p, state, ctx, requests) <==> DecidesHolding(p, before, ctx, requests)
  {
    hide ProtectsAll, IsWorking, Placed, Withdraws, TrendTurned, FirstFillingStop, InCycle;
    assert SomethingSold(state, ctx) == SomethingSold(before, ctx);
  }

  /** So a held position is sold for a reversal if and only if none is under way and the trend has turned. */
  lemma ReversalIff(p: Parameters, before: State, ctx: Context)
    requires Evaluation(p, before, ctx).Ok? && ctx.positionQuantity != 0 && InTime(ctx)
    ensures var placed := Placed(Evaluation(p, before, ctx).value.1);
            (|placed| == 1 && SellsAll(placed[0], ctx, before, Reversal)) <==> !Leaving(ctx) && TrendTurned(ctx)
  {
    hide Leaving, TrendTurned, Evaluation, Withdraws, FirstFillingStop, WithdrawsFirst, NearestPrice;
    PlacedNone();
    HoldingExact(p, before, ctx);
  }

  // ----- flat, with an entry on record

  /** The entry on record has become an order. */
  ghost predicate EntrySeen(state: State, ctx: Context) {
    exists i :: 0 <= i < |ctx.orders| && Some(ctx.orders[i].reference) == state.entryReference
  }

  /**
   * Nothing is held, but an entry is on record: nothing is placed. While the entry works and nothing was sold, and until it
   * is seen, nothing is withdrawn either; else all working sales are, and once something was sold the entries too, and the
   * entry with its ATR and protection is forgotten.
   */
  lemma FlatExact(p: Parameters, before: State, ctx: Context)
    requires Evaluation(p, before, ctx).Ok? && ctx.positionQuantity == 0 && before.entryReference.Some? && InTime(ctx)
    ensures var (after, requests) := Evaluation(p, before, ctx).value;
            var waiting := !SomethingSold(before, ctx) && exists r :: IsWorking(ctx, Buy, r);
            && Placed(requests) == []
            && (waiting || !EntrySeen(before, ctx) ==> requests == [] && after == before.(sequence := after.sequence, armed := after.armed))
            && (!waiting && EntrySeen(before, ctx) ==>
                  && (forall r :: Withdraws(requests, r) <==> IsWorking(ctx, Sell, r) || (SomethingSold(before, ctx) && IsWorking(ctx, Buy, r)))
                  && after == before.(sequence := after.sequence, armed := after.armed, entryReference := None, entryAtr := None, protection := None))
  {
    hide Signal, ActiveRefs, Cancelling, Placed, Withdraws, IsWorking, SomethingSold, Exited;
    PlacedNone();
    ExitedExact(before, ctx);
    ExitedRearmed(p, before, ctx);
    WorkingRefs(ctx, Buy);
    WorkingRefs(ctx, Sell);
    var state := Rearmed(p, before, ctx);
    var buys, sells := ActiveRefs(ctx.orders, Buy), ActiveRefs(ctx.orders, Sell);
    assert (exists r :: IsWorking(ctx, Buy, r)) <==> buys != [] by {
      if buys != [] {
        assert buys[0] in buys;
      }
    }
    SeenExact(state, ctx);
    CancellingExact(state, ctx, if Exited(state, ctx) then buys + sells else sells, "POSITION_FLAT");
  }

  lemma ExitedRearmed(p: Parameters, before: State, ctx: Context)
    ensures Exited(Rearmed(p, before, ctx), ctx) == Exited(before, ctx)
  {
    hide Signal, InCycle;
  }

  lemma SeenExact(state: State, ctx: Context)
    requires state.entryReference.Some?
    ensures (exists o | o in ctx.orders :: o.reference == state.entryReference.value) <==> EntrySeen(state, ctx)
  {
    if o :| o in ctx.orders && o.reference == state.entryReference.value {
      var i :| 0 <= i < |ctx.orders| && ctx.orders[i] == o;
      assert EntrySeen(state, ctx);
    }
  }

  // ----- flat, with none

  /** Trend up, momentum up, strength and volume within bounds, and every feature available. */
  predicate SignalGiven(p: Parameters, ctx: Context) {
    && Available(ctx, "ema_10") && Available(ctx, "ema_20") && Available(ctx, "momentum_5") && Available(ctx, "rsi_14")
    && Available(ctx, "atr_14") && Available(ctx, "volume_ratio") && Available(ctx, "session_progress")
    && ctx.features["ema_10"].value > ctx.features["ema_20"].value
    && ctx.features["momentum_5"].value > 0.0
    && p.rsiMin <= ctx.features["rsi_14"].value <= p.rsiMax
    && ctx.features["volume_ratio"].value >= p.minVolumeRatio
    && ctx.features["atr_14"].value > 0.0
    && 0.0 <= ctx.features["session_progress"].value <= 1.0
  }

  /** Between the first and the last entry time, by the clock of UTC+05:30. */
  predicate InWindow(p: Parameters, t: Time) {
    p.entryStart <= (t + 19_800_000_000) % 86_400_000_000 <= p.lastEntry
  }

  lemma SignalExact(p: Parameters, ctx: Context)
    ensures Signal(p, ctx) <==> SignalGiven(p, ctx)
  {
    assert "ema_10" in REQUIRED && "ema_20" in REQUIRED && "momentum_5" in REQUIRED && "rsi_14" in REQUIRED;
    assert "atr_14" in REQUIRED && "volume_ratio" in REQUIRED && "session_progress" in REQUIRED;
  }

  lemma WindowExact(p: Parameters, t: Time)
    ensures p.entryStart <= IstTimeOfDay(t) <= p.lastEntry <==> InWindow(p, t)
  {
  }

  /** All documented entry conditions: a signal on the rising edge, inside the window, in time, nothing held, working or on record. */
  ghost predicate EntryDue(p: Parameters, state: State, ctx: Context) {
    && SignalGiven(p, ctx) && state.armed && InWindow(p, ctx.currentTime) && InTime(ctx)
    && ctx.positionQuantity == 0 && state.entryReference.None?
    && forall i | 0 <= i < |ctx.orders| :: !ctx.orders[i].active || ctx.orders[i].forced
  }

  /** A market purchase of the configured quantity that asks for all the features of the signal. */
  ghost predicate EntersWith(intent: TradeIntent, p: Parameters, ctx: Context) {
    && intent.symbol == ctx.bar.symbol && intent.side == Buy && intent.quantity == p.quantity && intent.orderType == Market
    && intent.createdAt == ctx.currentTime && intent.featureTimestamp == ctx.bar.timestamp
    && intent.requiredFeatures == ["ema_10", "ema_20", "momentum_5", "rsi_14", "atr_14", "volume_ratio", "session_progress"]
  }

  lemma NoneWorking(ctx: Context)
    ensures ActiveRefs(ctx.orders, Buy) == [] && ActiveRefs(ctx.orders, Sell) == []
            <==> forall i | 0 <= i < |ctx.orders| :: !ctx.orders[i].active || ctx.orders[i].forced
  {
    WorkingRefs(ctx, Buy);
    WorkingRefs(ctx, Sell);
    var buys, sells := ActiveRefs(ctx.orders, Buy), ActiveRefs(ctx.orders, Sell);
    if buys == [] && sells == [] {
      forall i | 0 <= i < |ctx.orders|
        ensures !ctx.orders[i].active || ctx.orders[i].forced
      {
        assert !IsWorking(ctx, Buy, ctx.orders[i].reference) && !IsWorking(ctx, Sell, ctx.orders[i].reference);
      }
    } else {
      if buys != [] {
        assert IsWorking(ctx, Buy, buys[0]);
      } else {
        assert IsWorking(ctx, Sell, sells[0]);
      }
    }
  }

  /** When nothing is held and no entry is on record: one entry if it is due, and else nothing. */
  lemma EnteringExact(p: Parameters, state: State, ctx: Context)
    requires Entering(p, state, ctx).Ok? && ctx.positionQuantity == 0 && state.entryReference.None? && InTime(ctx)
    ensures var (after, requests) := Entering(p, state, ctx).value;
            if EntryDue(p, state, ctx) then
              && |requests| == 1 && requests[0].Place? && EntersWith(requests[0].intent, p, ctx)
              && after == state.(cycle := state.cycle + 1, sequence := after.sequence, armed := false, entryAtr := ctx.features["atr_14"],
                                 entryTime := Some(ctx.currentTime), entryReference := Some(requests[0].intent.reference))
            else requests == [] && after == state
  {
    hide Signal, ActiveRefs, IstTimeOfDay, Requesting, SignalGiven, InWindow;
    SignalExact(p, ctx);
    WindowExact(p, ctx.currentTime);
    NoneWorking(ctx);
    if EntryDue(p, state, ctx) {
      AtrGiven(p, ctx);
      var started := state.(cycle := state.cycle + 1, armed := false, entryAtr := Feature(ctx, "atr_14"), entryTime := Some(ctx.currentTime));
      RequestingExact(started, ctx, Entry, Buy, p.quantity, Market, None, None, None, REQUIRED);
      EntryNamed(started, ctx, p.quantity);
    }
  }

  lemma AtrGiven(p: Parameters, ctx: Context)
    requires SignalGiven(p, ctx)
    ensures "atr_14" in ctx.features && Feature(ctx, "atr_14") == ctx.features["atr_14"]
  {
  }

  lemma EntryNamed(state: State, ctx: Context, quantity: int)
    requires Requesting(state, ctx, Entry, Buy, quantity, Market, None, None, None, REQUIRED).Ok?
    ensures var batch := Requesting(state, ctx, Entry, Buy, quantity, Market, None, None, None, REQUIRED).value.1;
            batch[0].intent.reference == Named(state, ctx, Entry)
  {
  }

  /** Out of time nothing is requested, and only the arming may change. */
  lemma AsideExact(p: Parameters, before: State, ctx: Context)
    requires Evaluation(p, before, ctx).Ok? && !InTime(ctx)
    ensures var (after, requests) := Evaluation(p, before, ctx).value;
            requests == [] && after == before.(armed := before.armed || !SignalGiven(p, ctx))
  {
    SignalExact(p, ctx);
    hide Signal, SignalGiven;
  }
}
