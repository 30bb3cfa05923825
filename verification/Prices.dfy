/** Every fill of a run is priced inside its own candle; hence what a sale brings in at least, and runs that stay solvent. */
module Prices {
  import opened Common
  import opened Orders
  import opened Costs
  import opened CostBounds
  import opened Execution
  import opened Accounting
  import opened Trades
  import opened Calendars
  import opened Clock
  import opened FeatureRows
  import opened Strategies
  import opened Engine
  import opened Ledger
  import opened Safety
  import opened Grids
  import opened Runs
  import opened Solvency
  import Flattening

  /** The fill's base price is what this bar offered its order, and its price is what such an offer costs. */
  ghost predicate PricedBy(env: Env, bar: Bar, o: SimOrder, f: Fill) {
    && (f.symbol, f.barOpen) == (bar.symbol, bar.timestamp) && f.side == o.intent.side
    && Offers(bar, o.intent, f.basePrice) && bar.low <= f.basePrice <= bar.high
    && PaidFor(o.intent, f.basePrice, env.bps, f.price)
  }

  ghost predicate PricedInside(env: Env, orders: seq<SimOrder>, f: Fill) {
    && 1 <= f.orderId <= |orders|
    && (exists b :: 0 <= b < |env.bars| && PricedBy(env, env.bars[b].bar, orders[f.orderId - 1], f))
    && (orders[f.orderId - 1].intent.orderType == StopMarket ==> orders[f.orderId - 1].EverTriggered())
  }

  ghost predicate AllPriced(env: Env, st: Sim) { forall j | 0 <= j < |st.fills| :: PricedInside(env, st.orders, st.fills[j]) }

  /** Orders keep their intents, and their triggers once recorded. */
  ghost predicate Lasting(orders: seq<SimOrder>, later: seq<SimOrder>) {
    && |orders| <= |later|
    && forall i | 0 <= i < |orders| :: later[i].intent == orders[i].intent && (orders[i].EverTriggered() ==> later[i].EverTriggered())
  }

  lemma PricedCarried(env: Env, orders: seq<SimOrder>, later: seq<SimOrder>, f: Fill)
    requires PricedInside(env, orders, f)
    requires Lasting(orders, later)
    ensures PricedInside(env, later, f)
  {
    hide Offers, PaidFor, SimOrder.EverTriggered;
    var b :| 0 <= b < |env.bars| && PricedBy(env, env.bars[b].bar, orders[f.orderId - 1], f);
    assert PricedBy(env, env.bars[b].bar, later[f.orderId - 1], f);
  }

  lemma ExtendsLasting(st: Sim, r: Sim)
    requires Extends(st, r)
    ensures Lasting(st.orders, r.orders)
  {
    hide SimOrder.Active, SimOrder.EverTriggered;
    forall i | 0 <= i < |st.orders|
      ensures r.orders[i].intent == st.orders[i].intent && (st.orders[i].EverTriggered() ==> r.orders[i].EverTriggered())
    {
      assert Carried(st.orders[i], r.orders[i]);
    }
  }

  lemma PricedKept(env: Env, st: Sim, r: Sim)
    requires AllPriced(env, st) && Extends(st, r) && r.fills == st.fills
    ensures AllPriced(env, r)
  {
    hide Extends, PricedInside, Lasting;
    ExtendsLasting(st, r);
    forall j | 0 <= j < |r.fills|
      ensures PricedInside(env, r.orders, r.fills[j])
    {
      PricedCarried(env, st.orders, r.orders, r.fills[j]);
    }
  }

  /** A visit books at most one fill, priced in the bar. */
  lemma VisitedPriced(env: Env, st: Sim, r: Sim, index: nat, base: Option<real>, b: nat, now: Time, left: Option<int>)
    requires b < |env.bars| && Sound(env, st) && AllPriced(env, st) && index < |st.orders| && st.orders[index].intent.symbol == env.bars[b].bar.symbol
    requires Visited(env, st, r, index, base, env.bars[b].bar, now, left) && (base.Some? ==> Offers(env.bars[b].bar, st.orders[index].intent, base.value))
    ensures AllPriced(env, r)
  {
    hide Sound, PricedInside, Visited, Unfilled, FilledOne, Lasting, Offers;
    var bar := env.bars[b].bar;
    VisitedSummary(env, st, r, index, base, bar, now, left);
    VisitFills(st, r, index, bar, now);
    VisitedTriggers(env, st, r, index, base, bar, now, left);
    forall j | 0 <= j < |r.fills|
      ensures PricedInside(env, r.orders, r.fills[j])
    {
      if j < |st.fills| {
        assert r.fills[j] == st.fills[j];
        PricedCarried(env, st.orders, r.orders, st.fills[j]);
      } else {
        NewFillPriced(env, st, r, index, base, b, now, left);
      }
    }
  }

  lemma VisitFills(st: Sim, r: Sim, index: nat, bar: Bar, now: Time)
    requires index < |st.orders| && |r.orders| == |st.orders| && (Unfilled(st, r, index) || FilledOne(st, r, index, bar, now))
    ensures st.fills <= r.fills && |r.fills| <= |st.fills| + 1
  {
    hide Signed, SimOrder.Active, SimOrder.EverTriggered;
  }

  /** A stop the bar reaches records its trigger, and nothing else does. */
  lemma TriggeringExact(st: Sim, index: nat, now: Time)
    requires index < |st.orders| && st.orders[index].Active()
    ensures var ready := Triggering(st, index, now);
            && |ready.orders| == |st.orders|
            && (forall i | 0 <= i < |st.orders| :: ready.orders[i].intent == st.orders[i].intent)
            && (forall i | 0 <= i < |st.orders| ::
                  ready.orders[i].EverTriggered() <==> st.orders[i].EverTriggered() || (i == index && st.orders[index].intent.orderType == StopMarket))
  {
    MovedTrigger(st.orders[index], Triggered, now, Text("STOP_REACHED"));
    hide SimOrder.EverTriggered;
  }

  lemma VisitedTriggers(env: Env, st: Sim, r: Sim, index: nat, base: Option<real>, bar: Bar, now: Time, left: Option<int>)
    requires index < |st.orders| && Visited(env, st, r, index, base, bar, now, left)
    ensures Lasting(st.orders, r.orders)
    ensures index < |r.orders|
    ensures st.orders[index].Active() && base.Some? && st.orders[index].intent.orderType == StopMarket ==> r.orders[index].EverTriggered()
  {
    if st.orders[index].Active() && base.Some? {
      TriggeringExact(st, index, now);
      ReadyActive(st, index, now);
      var ready := Triggering(st, index, now);
      hide Triggering, SimOrder.EverTriggered;
      if r == ready {
      } else if GoodRejection(ready, r, index, bar, now) {
        RejectionTriggers(ready, r, index, bar, now);
      } else {
        BookingTriggers(env, ready, r, index, base.value, bar, now, r.fills[|st.fills|]);
      }
    }
  }

  lemma ReadyActive(st: Sim, index: nat, now: Time)
    requires index < |st.orders| && st.orders[index].Active()
    ensures var ready := Triggering(st, index, now); |ready.orders| == |st.orders| && ready.orders[index].Active()
  {
  }

  lemma RejectionTriggers(st: Sim, r: Sim, index: nat, bar: Bar, now: Time)
    requires index < |st.orders| && st.orders[index].Active() && GoodRejection(st, r, index, bar, now)
    ensures |r.orders| == |st.orders| && Lasting(st.orders, r.orders)
  {
    hide SimOrder.EverTriggered;
    var reason :| r == Move(st, index, Rejected, now, reason);
    MovedTrigger(st.orders[index], Rejected, now, reason);
  }

  lemma BookingTriggers(env: Env, st: Sim, r: Sim, index: nat, base: real, bar: Bar, now: Time, fill: Fill)
    requires index < |st.orders| && GoodFill(env, st, r, index, base, fill.quantity, bar, now, fill)
    ensures |r.orders| == |st.orders| && Lasting(st.orders, r.orders)
  {
    hide Apply, Value, Signed, SimOrder.EverTriggered, Siblings, SimOrder.Moved, PaidFor, ExecutionPrice, Logged;
    var order := st.orders[index];
    forall i | 0 <= i < |st.orders|
      ensures r.orders[i].intent == st.orders[i].intent && (st.orders[i].EverTriggered() ==> r.orders[i].EverTriggered())
    {
      if i == index {
        FilledTriggers(order, fill.quantity, order.executedTurnover + Value(fill.quantity, fill.price), now, fill.reason);
      } else {
        CancelledTriggers(st.orders[i], now);
      }
    }
  }

  lemma FilledTriggers(o: SimOrder, quantity: int, turnover: real, now: Time, reason: Reference)
    ensures AfterFill(o, quantity, turnover, now, reason).intent == o.intent
    ensures o.EverTriggered() ==> AfterFill(o, quantity, turnover, now, reason).EverTriggered()
  {
    var filled := o.(filledQuantity := o.filledQuantity + quantity, executedTurnover := turnover);
    MovedTrigger(filled, if filled.Remaining() == 0 then Filled else PartiallyFilled, now, reason);
    assert filled.EverTriggered() == o.EverTriggered();
  }

  lemma CancelledTriggers(o: SimOrder, now: Time)
    ensures var p := o.Moved(Cancelled, now, Text("OCO_SIBLING_FILLED")); p.intent == o.intent && (o.EverTriggered() ==> p.EverTriggered())
  {
    MovedTrigger(o, Cancelled, now, Text("OCO_SIBLING_FILLED"));
  }

  lemma NewFillPriced(env: Env, st: Sim, r: Sim, index: nat, base: Option<real>, b: nat, now: Time, left: Option<int>)
    requires b < |env.bars| && Sound(env, st) && index < |st.orders| && |r.orders| == |st.orders| && |r.fills| > |st.fills|
    requires Visited(env, st, r, index, base, env.bars[b].bar, now, left)
    requires base.Some? ==> Offers(env.bars[b].bar, st.orders[index].intent, base.value)
    requires Lasting(st.orders, r.orders)
    requires st.orders[index].Active() && base.Some? && st.orders[index].intent.orderType == StopMarket ==> r.orders[index].EverTriggered()
    ensures PricedInside(env, r.orders, r.fills[|st.fills|])
  {
    hide Sound, Booked, Apply, Signed, SimOrder.EverTriggered, ExecutionPrice, CostBreakdown.Total, Value, Offers, PaidFor;
    SoundId(env, st, index);
    OffersReached(env.bars[b].bar, st.orders[index].intent, base.value);
    ExecutionAdverse(st.orders[index].intent, base.value, env.bps);
    assert PricedBy(env, env.bars[b].bar, r.orders[index], r.fills[|st.fills|]);
  }

  lemma SoundId(env: Env, st: Sim, index: nat)
    requires Sound(env, st) && index < |st.orders|
    ensures st.orders[index].orderId == index + 1
  {
  }

  lemma CompletePriced<S>(env: Env, grid: Grid, plan: Plan<S>, w: World<S>, b: nat)
    requires GridSound(env, grid) && WorldSound(env, w) && b < |env.bars| && Complete(env, grid, plan, w, env.bars[b]).Ok?
    requires AllPriced(env, w.sim)
    ensures AllPriced(env, Complete(env, grid, plan, w, env.bars[b]).value.sim)
  {
    hide Healthy, Settled, EvaluateStrategy, Extends, Logged, Visited, OnGrid, BarFills, MayFill, AllPriced, Sound, GridSound, InTile;
    var item := env.bars[b];
    var s := BarSession(env, grid, b);
    CutoffThere(grid, s);
    var cutoff := grid.cutoffs[s.opens];
    var P := (x: Sim) => AllPriced(env, x);
    forall x, y | OnlyLogs(x, y, item.availableAt) && P(x)
      ensures P(y)
    {
      OnlyLogsSound(env, x, y, item.availableAt);
      PricedKept(env, x, y);
    }
    forall x: Sim, r: Sim, n: nat, base: Option<real>, l {:trigger Visited(env, x, r, n, base, item.bar, item.availableAt, l)} |
      Sound(env, x) && P(x) && n < |x.orders| && MayFill(x.orders[n], item.bar, cutoff)
      && (base.Some? ==> Offers(item.bar, x.orders[n].intent, base.value))
      && Visited(env, x, r, n, base, item.bar, item.availableAt, l) && Sound(env, r)
      ensures P(r)
    {
      MayFillOwn(x.orders[n], item.bar, cutoff);
      VisitedPriced(env, x, r, n, base, b, item.availableAt, l);
    }
    SettledKeeps(env, w.sim, item, cutoff, P);
    var settled := Settled(env, w.sim, item, cutoff).value;
    var x :| P(x) && x.book == settled.book && x.orders == settled.orders && x.fills == settled.fills;
    SamePriced(env, x, settled);
    EvaluateSound(env, grid, plan, World(settled, w.runtime), b, s, cutoff);
    var r := EvaluateStrategy(env, grid, plan, World(settled, w.runtime), item, s, cutoff).value;
    PricedKept(env, settled, r.sim);
  }

  lemma MayFillOwn(o: SimOrder, bar: Bar, cutoff: Time)
    requires MayFill(o, bar, cutoff)
    ensures o.intent.symbol == bar.symbol
  {
  }

  lemma SamePriced(env: Env, st: Sim, r: Sim)
    requires AllPriced(env, st) && r.orders == st.orders && r.fills == st.fills
    ensures AllPriced(env, r)
  {
    hide PricedInside;
  }

  /** In every reachable state every fill is priced inside a candle of its own symbol and opening. */
  lemma {:induction false} ReachablePriced<S>(env: Env, grid: Grid, plan: Plan<S>, k: nat)
    requires GridSound(env, grid) && k <= |Ticks(env)| && After(env, grid, plan, k).Ok?
    ensures AllPriced(env, After(env, grid, plan, k).value.sim)
  {
    hide After, Step, Timeline, Ticks, GridSound, WorldSound, Extends, Logged, BarFills, Scheduled, AllPriced, Start, Complete;
    GridHasSessions(env, grid);
    if k == 0 {
      AfterNone(env, grid, plan);
      StartSound(env, plan);
      NothingPriced(env, Start(env, plan).value.sim);
    } else {
      Stepped(env, grid, plan, k);
      ReachablePriced(env, grid, plan, k - 1);
      ReachableSound(env, grid, plan, k - 1);
      TickScheduled(env, k - 1);
      var w := After(env, grid, plan, k - 1).value;
      StepSound(env, grid, plan, w, Ticks(env)[k - 1]);
      if Ticks(env)[k - 1].kind == BarComplete {
        CompletionStep(env, grid, plan, w, Ticks(env)[k - 1]);
        CompletePriced(env, grid, plan, w, Ticks(env)[k - 1].index);
      } else {
        PricedKept(env, w.sim, After(env, grid, plan, k).value.sim);
      }
    }
  }

  lemma NothingPriced(env: Env, st: Sim)
    requires st.fills == []
    ensures AllPriced(env, st)
  {
  }

  lemma CompletionStep<S>(env: Env, grid: Grid, plan: Plan<S>, w: World<S>, tick: Tick)
    requires tick.kind == BarComplete && Scheduled(env.bars, env.sessions, env.script, tick)
    ensures tick.index < |env.bars| && Step(env, grid, plan, w, tick) == Complete(env, grid, plan, w, env.bars[tick.index])
  {
    hide Complete;
  }

  // ----- what a sale brings in

  /** One share at the low of any candle, slipped, is worth at least this much. */
  ghost predicate LowsReach(env: Env, least: real) {
    forall b | 0 <= b < |env.bars| :: env.bars[b].bar.low * (10000.0 - env.bps) >= least * 10000.0
  }

  lemma SaleReaches(env: Env, st: Sim, j: nat, least: real)
    requires Sound(env, st) && AllPriced(env, st) && LowsReach(env, least) && j < |st.fills| && st.fills[j].side == Sell
    ensures Value(st.fills[j].quantity, st.fills[j].price) >= least
  {
    hide Sound, PricedBy, LowsReach, Value;
    var f := st.fills[j];
    assert PricedInside(env, st.orders, f);
    var o := st.orders[f.orderId - 1];
    var b :| 0 <= b < |env.bars| && PricedBy(env, env.bars[b].bar, o, f);
    SoldAboveLow(env, o, f, b, least);
    WholeShares(env, st, j);
    AtLeastOne(f.quantity, f.price);
  }

  lemma SoldAboveLow(env: Env, o: SimOrder, f: Fill, b: nat, least: real)
    requires b < |env.bars| && PricedBy(env, env.bars[b].bar, o, f) && f.side == Sell && LowsReach(env, least)
    ensures f.price >= least
  {
    SaleAboveLow(o.intent, f.basePrice, env.bars[b].bar.low, env.bps, f.price);
    hide PaidFor, Offers;
  }

  lemma WholeShares(env: Env, st: Sim, j: nat)
    requires Sound(env, st) && j < |st.fills|
    ensures st.fills[j].quantity >= 1 && st.fills[j].price > 0.0
  {
    hide Replay, OrderSound, Adverse;
    assert FillSound(st.orders, st.fills[j]);
  }

  lemma AtLeastOne(quantity: int, price: real)
    requires quantity >= 1 && price > 0.0
    ensures Value(quantity, price) >= price
  {
    assert (quantity - 1) as real * price >= 0.0;
    assert quantity as real * price == price + (quantity - 1) as real * price;
  }

  /**
   * A check of the inputs alone: if the cost model covers sales of some least value, and one share at the low of any candle,
   * slipped, is worth that much, then no run on these candles ever has negative cash, whatever the strategy does.
   */
  lemma CoveredInputsSolvent<S>(env: Env, grid: Grid, plan: Plan<S>, k: nat, least: real)
    requires GridSound(env, grid) && k <= |Ticks(env)| && After(env, grid, plan, k).Ok?
    requires SalesCovered(env.costs, least) && LowsReach(env, least)
    ensures var st := After(env, grid, plan, k).value.sim;
            && st.book.cash >= 0.0
            && forall n: nat | n <= |st.fills| :: CashAfter(env.release, env.capital, st.fills, n) >= 0.0
  {
    hide After, Ticks, GridSound, WorldSound, Healthy, SalesCovered, LowsReach, AllPriced, Value, Sound, CashAfter;
    GridHasSessions(env, grid);
    ReachableSound(env, grid, plan, k);
    ReachablePriced(env, grid, plan, k);
    var w := After(env, grid, plan, k).value;
    Flattening.WorldHealthy(env, w);
    HealthySound(env, w.sim);
    forall j | 0 <= j < |w.sim.fills| && w.sim.fills[j].side == Sell
      ensures Value(w.sim.fills[j].quantity, w.sim.fills[j].price) >= least
    {
      SaleReaches(env, w.sim, j, least);
    }
    CoveredRunsSolvent(env, grid, plan, k, least);
  }

  /** With the reference profile: candles whose lows, slipped, are worth ten paise never lead to negative cash. */
  lemma ReferenceSolvent<S>(env: Env, grid: Grid, plan: Plan<S>, k: nat)
    requires GridSound(env, grid) && k <= |Ticks(env)| && After(env, grid, plan, k).Ok?
    requires env.costs == ReferenceCosts(REFERENCE) && LowsReach(env, 0.1)
    ensures After(env, grid, plan, k).value.sim.book.cash >= 0.0
  {
    hide After, Ticks, GridSound, SalesCovered, LowsReach, CashAfter;
    GridHasSessions(env, grid);
    ReferenceCovers(REFERENCE);
    CoveredInputsSolvent(env, grid, plan, k, 0.1);
  }
}
