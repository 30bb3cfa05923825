/** What a completed bar does with the volume it offers: whom it serves first, exactly how much, and when orders stay open. */
module Liquidity {
  import opened Common
  import opened Orders
  import opened Costs
  import opened Execution
  import opened Accounting
  import opened Trades
  import opened Calendars
  import opened Clock
  import opened FeatureRows
  import opened Strategies
  import opened Engine
  import opened Ledger
  import opened Safety
  import opened Grids
  import opened Runs
  import opened Timing
  import opened Flattening

  // ----- whom it serves first

  ghost predicate Rising(indexes: seq<nat>) { forall a, b | 0 <= a < b < |indexes| :: indexes[a] < indexes[b] }

  lemma {:induction false} EligibleRising(orders: seq<SimOrder>, bar: Bar, cutoff: Time)
    ensures Rising(EligibleIndexes(orders, bar, cutoff))
  {
    if orders != [] {
      EligibleRising(orders[..|orders| - 1], bar, cutoff);
      EligibleInRange(orders[..|orders| - 1], bar, cutoff);
    }
  }

  lemma {:induction false} IndexesRising(orders: seq<SimOrder>, from: seq<nat>, keep: SimOrder -> bool)
    requires InRange(from, |orders|) && Rising(from)
    ensures Rising(Indexes(orders, from, keep))
  {
    if from != [] {
      IndexesRising(orders, from[1..], keep);
      IndexesExact(orders, from[1..], keep);
      var rest := Indexes(orders, from[1..], keep);
      forall b | 0 <= b < |rest|
        ensures from[0] < rest[b]
      {
        assert rest[b] in from[1..];
      }
    }
  }

  /** A working order of the symbol, eligible by the bar's opening, and before the cutoff unless forced. */
  predicate Candidate(st: Sim, bar: Bar, cutoff: Time, i: nat) {
    && i < |st.orders|
    && var o := st.orders[i];
       && o.status in {Accepted, Pending, Triggered, PartiallyFilled} && o.intent.symbol == bar.symbol
       && o.eligibleFrom.Some? && o.eligibleFrom.value <= bar.timestamp
       && (o.forced || bar.timestamp < cutoff)
  }

  /** A sale of this type at a price of its own, which the bar reached. */
  predicate ExitReached(o: SimOrder, bar: Bar, orderType: OrderType) {
    o.intent.side == Sell && o.intent.orderType == orderType && BasePrice(o, bar).Some?
  }

  lemma CandidateMayFill(st: Sim, bar: Bar, cutoff: Time)
    ensures forall i: nat :: Candidate(st, bar, cutoff, i) <==> i < |st.orders| && st.orders[i].Active() && MayFill(st.orders[i], bar, cutoff)
    ensures forall o: SimOrder, t :: ExitReached(o, bar, t) <==> ReachedExit(o, bar, t)
  {
    hide BasePrice;
  }

  /** A reached exit stop and a reached exit limit of a held symbol compete within the bar. */
  ghost predicate Contested(st: Sim, bar: Bar, cutoff: Time) {
    && st.book.Held(bar.symbol) > 0
    && (exists i: nat :: Candidate(st, bar, cutoff, i) && ExitReached(st.orders[i], bar, StopMarket))
    && (exists i: nat :: Candidate(st, bar, cutoff, i) && ExitReached(st.orders[i], bar, Limit))
  }

  /** Reached exit stops before everything else, and older orders before newer ones. */
  predicate ServedBefore(st: Sim, bar: Bar, i: nat, j: nat)
    requires i < |st.orders| && j < |st.orders|
  {
    var a, b := ExitReached(st.orders[i], bar, StopMarket), ExitReached(st.orders[j], bar, StopMarket);
    (a && !b) || (a == b && i < j)
  }

  lemma ContestedIsAmbiguous(st: Sim, bar: Bar, cutoff: Time)
    ensures InRange(EligibleIndexes(st.orders, bar, cutoff), |st.orders|)
    ensures Ambiguous(st, EligibleIndexes(st.orders, bar, cutoff), bar) <==> Contested(st, bar, cutoff)
  {
    CandidateMayFill(st, bar, cutoff);
    hide BasePrice, MayFill, SimOrder.Active, Candidate, ExitReached, ReachedExit;
    EligibleInRange(st.orders, bar, cutoff);
    var eligible := EligibleIndexes(st.orders, bar, cutoff);
    assert forall i: nat :: i in eligible <==> Candidate(st, bar, cutoff, i);
  }

  /**
   * The queue holds exactly the active, eligible orders of the bar, except that while a stop and a limit compete
   * the reached favourable limits stay out; and it is in serving order.
   */
  lemma QueueExact(st: Sim, bar: Bar, cutoff: Time)
    ensures var queue := Queue(st, bar, cutoff);
            && (forall i: nat :: i in queue <==>
                  Candidate(st, bar, cutoff, i) && !(Contested(st, bar, cutoff) && ExitReached(st.orders[i], bar, Limit)))
            && InRange(queue, |st.orders|)
            && (forall a, b | 0 <= a < b < |queue| :: ServedBefore(st, bar, queue[a], queue[b]))
    ensures Warned(st, bar, cutoff, bar.timestamp).warnings == st.warnings + if Contested(st, bar, cutoff) then {IntrabarAmbiguity} else {}
  {
    CandidateMayFill(st, bar, cutoff);
    hide BasePrice, MayFill, SimOrder.Active, Contested, Ambiguous, Indexes, Candidate, ExitReached, ReachedExit;
    ContestedIsAmbiguous(st, bar, cutoff);
    QueueInRange(st, bar, cutoff);
    var eligible := EligibleIndexes(st.orders, bar, cutoff);
    EligibleInRange(st.orders, bar, cutoff);
    EligibleRising(st.orders, bar, cutoff);
    var ambiguous := Ambiguous(st, eligible, bar);
    var keep := (o: SimOrder) => !(ambiguous && ReachedExit(o, bar, Limit));
    var allowed := Indexes(st.orders, eligible, keep);
    IndexesExact(st.orders, eligible, keep);
    IndexesRising(st.orders, eligible, keep);
    var isStop := (o: SimOrder) => ReachedExit(o, bar, StopMarket);
    var notStop := (o: SimOrder) => !ReachedExit(o, bar, StopMarket);
    IndexesExact(st.orders, allowed, isStop);
    IndexesExact(st.orders, allowed, notStop);
    IndexesRising(st.orders, allowed, isStop);
    IndexesRising(st.orders, allowed, notStop);
    var stops, others := Indexes(st.orders, allowed, isStop), Indexes(st.orders, allowed, notStop);
    assert Queue(st, bar, cutoff) == stops + others;
    StopsFirst(st, bar, stops, others);
    forall i: nat
      ensures i in Queue(st, bar, cutoff) <==> i in allowed
    {
    }
  }

  lemma StopsFirst(st: Sim, bar: Bar, stops: seq<nat>, others: seq<nat>)
    requires InRange(stops, |st.orders|) && InRange(others, |st.orders|) && Rising(stops) && Rising(others)
    requires forall i | i in stops :: ExitReached(st.orders[i], bar, StopMarket)
    requires forall i | i in others :: !ExitReached(st.orders[i], bar, StopMarket)
    ensures forall a, b | 0 <= a < b < |stops + others| :: ServedBefore(st, bar, (stops + others)[a], (stops + others)[b])
  {
    hide ExitReached;
    var queue := stops + others;
    forall a, b | 0 <= a < b < |queue|
      ensures ServedBefore(st, bar, queue[a], queue[b])
    {
      assert queue[a] == if a < |stops| then stops[a] else others[a - |stops|];
      assert queue[b] == if b < |stops| then stops[b] else others[b - |stops|];
    }
  }

  // ----- exactly how much

  /**
   * One attempt, exactly: the order is rejected if and only if it is refused on its whole remainder; otherwise one fill
   * of the offered quantity is booked at the execution price for the base.
   */
  lemma AttemptExact(env: Env, st: Sim, index: nat, base: real, quantity: int, bar: Bar, now: Time)
    requires Sound(env, st) && index < |st.orders| && st.orders[index].Active()
    requires Reached(st.orders[index].intent, base) && st.orders[index].intent.symbol == bar.symbol
    requires 0 < quantity <= st.orders[index].Remaining()
    ensures var o := st.orders[index];
            var price := ExecutionPrice(o.intent, base, env.bps);
            var r := Attempt(env, st, index, base, quantity, bar, now);
            && o.executedTurnover >= 0.0 && price > 0.0 && r.Ok? && |r.value.orders| == |st.orders|
            && (if Refused(env, st, o, price) then r.value.fills == st.fills && r.value.orders[index].status == Rejected
                else
                  && |r.value.fills| == |st.fills| + 1 && r.value.fills[..|st.fills|] == st.fills
                  && r.value.fills[|st.fills|].quantity == quantity && r.value.fills[|st.fills|].price == price
                  && r.value.fills[|st.fills|].basePrice == base
                  && r.value.orders[index].filledQuantity == o.filledQuantity + quantity
                  && r.value.orders[index].status == (if quantity == o.Remaining() then Filled else PartiallyFilled))
  {
    hide Value, Apply, ExecutionPrice, Sound, Book1, Extends, Attempt, GoodFill, GoodRejection, Refused, Reached, FillFor, Move, OrderSound, FillSound;
    var o := st.orders[index];
    var price := ExecutionPrice(o.intent, base, env.bps);
    SoundOrder(env, st, index);
    SoundTotals(env, st.fills, o, index + 1);
    ExecutionAdverse(o.intent, base, env.bps);
    AttemptUnfolds(env, st, index, base, quantity, bar, now);
    AttemptSound(env, st, index, base, quantity, bar, now);
    if Refused(env, st, o, price) {
      MovedOrder(st, index, now, RefusalReason(o));
    } else {
      FillForSound(env, st, index, base, quantity, bar, now);
      var fill, turnover := FillFor(env, st, index, base, quantity, bar, now), o.executedTurnover + Value(quantity, price);
      Book1Exact(env, st, index, fill, turnover, now);
      BookedOrder(st, Book1(env, st, index, fill, turnover, now).value, index, fill, turnover, now);
    }
  }

  lemma MovedOrder(st: Sim, index: nat, now: Time, reason: Reference)
    requires index < |st.orders| && st.orders[index].Active()
    ensures var r := Move(st, index, Rejected, now, reason);
            |r.orders| == |st.orders| && r.fills == st.fills && r.orders[index].status == Rejected
  {
  }

  lemma BookedOrder(st: Sim, r: Sim, index: nat, fill: Fill, turnover: real, now: Time)
    requires index < |st.orders| && Booked(st, r, index, fill, turnover, now)
    ensures |r.orders| == |st.orders| && r.fills == st.fills + [fill]
    ensures r.orders[index].filledQuantity == st.orders[index].filledQuantity + fill.quantity
    ensures r.orders[index].status == if fill.quantity == st.orders[index].Remaining() then Filled else PartiallyFilled
  {
    hide Siblings;
  }

  /** What is left open after a visit was left open because the volume ran out. */
  lemma VisitGreedy(env: Env, st: Sim, index: nat, base: Option<real>, bar: Bar, now: Time, left: Option<int>)
    requires Sound(env, st) && index < |st.orders| && st.orders[index].intent.symbol == bar.symbol
    requires base.Some? && Reached(st.orders[index].intent, base.value)
    requires left.Some? ==> left.value >= 0
    ensures var v := Visit(env, st, index, base, bar, now, left);
            && v.Ok? && |v.value.0.orders| == |st.orders|
            && (v.value.0.orders[index].Active() ==> v.value.1 == Some(0))
  {
    hide Sound, Attempt, Reached, Refused, SimOrder.EverTriggered;
    VisitSound(env, st, index, base, bar, now, left);
    VisitLength(env, st, index, base, bar, now, left);
    if st.orders[index].Active() {
      TriggeringSound(env, st, index, now);
      var ready := Triggering(st, index, now);
      RemainingPositive(env, ready, index);
      var remaining := ready.orders[index].Remaining();
      var quantity := if left.Some? then Min(remaining, left.value) else remaining;
      if quantity != 0 {
        AttemptExact(env, ready, index, base.value, quantity, bar, now);
      }
    }
  }

  lemma {:induction false} FillsNatural(fills: seq<Fill>)
    requires forall f | f in fills :: f.quantity > 0
    ensures SumInt(fills, Shares) >= 0
  {
    if fills != [] {
      FillsNatural(fills[..|fills| - 1]);
    }
  }

  lemma NewFillsNatural(env: Env, st: Sim, r: Sim)
    requires Sound(env, r) && st.fills <= r.fills
    ensures SumInt(r.fills[|st.fills|..], Shares) >= 0
  {
    hide Sound;
    SoundPositive(env, r);
    FillsNatural(r.fills[|st.fills|..]);
  }

  /** All the volume the loop may take was taken. */
  ghost predicate Exhausted(st: Sim, r: Sim, left: Option<int>) {
    left.Some? && st.fills <= r.fills && SumInt(r.fills[|st.fills|..], Shares) == left.value
  }

  lemma {:induction false} LoopGreedy(env: Env, st: Sim, queue: seq<nat>, bases: nat -> Option<real>, bar: Bar, now: Time,
                                      left: Option<int>, cutoff: Time)
    requires Sound(env, st) && InRange(queue, |st.orders|) && QueueReady(st.orders, queue, bases, bar, cutoff)
    requires left.Some? ==> left.value >= 0
    ensures var r := VisitAll(env, st, queue, bases, bar, now, left);
            && r.Ok? && |r.value.orders| == |st.orders|
            && forall i: nat | i in queue && bases(i).Some? && r.value.orders[i].Active() :: Exhausted(st, r.value, left)
    decreases queue
  {
    hide Sound, Visited, WithinBar, Extends, Reached, Offers, Visit, Exhausted;
    VisitAllKeeps(env, st, queue, bases, bar, now, left, cutoff, (x: Sim) => true);
    WithinLength(st, VisitAll(env, st, queue, bases, bar, now, left).value, bar, now, left);
    if queue != [] {
      var i := queue[0];
      assert i in queue;
      if bases(i).Some? {
        OffersReached(bar, st.orders[i].intent, bases(i).value);
      }
      VisitSound(env, st, i, bases(i), bar, now, left);
      var (next, rest) := Visit(env, st, i, bases(i), bar, now, left).value;
      VisitedWithin(env, st, next, i, bases(i), bar, now, left);
      VisitLength(env, st, i, bases(i), bar, now, left);
      ExtendsCarries(st, next);
      QueueStaysReady(st.orders, next.orders, queue, bases, bar, cutoff);
      LoopGreedy(env, next, queue[1..], bases, bar, now, rest, cutoff);
      VisitAllKeeps(env, next, queue[1..], bases, bar, now, rest, cutoff, (x: Sim) => true);
      var r := VisitAll(env, next, queue[1..], bases, bar, now, rest).value;
      NewFillsNatural(env, next, r) by { WithinLength(next, r, bar, now, rest); }
      Accumulates(st, next, r, bar, now, left, rest);
      if bases(i).Some? {
        VisitGreedy(env, st, i, bases(i), bar, now, left);
        StaysTerminal(next, r, i);
      }
      forall j: nat | j in queue && bases(j).Some? && r.orders[j].Active()
        ensures Exhausted(st, r, left)
      {
        assert j == i || j in queue[1..];
      }
    }
  }

  lemma WithinLength(st: Sim, r: Sim, bar: Bar, now: Time, left: Option<int>)
    requires WithinBar(st, r, bar, now, left)
    ensures |r.orders| == |st.orders| && st.fills <= r.fills
    ensures left.Some? ==> SumInt(r.fills[|st.fills|..], Shares) <= left.value
  {
  }

  lemma StaysTerminal(st: Sim, r: Sim, i: nat)
    requires Extends(st, r) && i < |st.orders| && i < |r.orders|
    ensures r.orders[i].Active() ==> st.orders[i].Active()
  {
    hide SimOrder.EverTriggered;
    assert Carried(st.orders[i], r.orders[i]);
  }

  /** Volume taken by the first visit and by the rest of the loop. */
  lemma Accumulates(st: Sim, next: Sim, r: Sim, bar: Bar, now: Time, left: Option<int>, rest: Option<int>)
    requires WithinBar(st, next, bar, now, left) && WithinBar(next, r, bar, now, rest) && |next.fills| <= |st.fills| + 1
    requires left.Some? <==> rest.Some?
    requires left.Some? ==> rest.value == left.value - if |next.fills| > |st.fills| then next.fills[|st.fills|].quantity else 0
    requires SumInt(r.fills[|next.fills|..], Shares) >= 0
    ensures Exhausted(next, r, rest) ==> Exhausted(st, r, left)
    ensures rest == Some(0) ==> Exhausted(st, r, left)
  {
    var added, later := next.fills[|st.fills|..], r.fills[|next.fills|..];
    assert r.fills[|st.fills|..] == added + later;
    SumIntConcat(added, later, Shares);
    if |next.fills| > |st.fills| {
      assert added == [next.fills[|st.fills|]];
      assert SumInt(added, Shares) == next.fills[|st.fills|].quantity;
    } else {
      assert added == [];
    }
  }

  /**
   * No wasted liquidity: after a completed bar, an order that was in the queue and whose price the bar reached is
   * still working only if the fills took every whole share that the rate permits of the bar's volume.
   */
  lemma NoLiquidityWasted(env: Env, st: Sim, item: SnapshotBar, cutoff: Time, i: nat)
    requires Sound(env, st) && i in Queue(st, item.bar, cutoff) && i < |st.orders| && BasePrice(st.orders[i], item.bar).Some?
    ensures var r := Execute(env, st, item, cutoff);
            && r.Ok? && |r.value.orders| == |st.orders|
            && (r.value.orders[i].Active() ==> Exhausted(st, r.value, Capacity(env, item.bar)))
            && (r.value.orders[i].Active() ==> UsesUp(env.participation, item.bar.volume, SumInt(r.value.fills[|st.fills|..], Shares)))
  {
    hide Sound, Queue, VisitAll, Extends, Carried, BasePrice, CapacityOf, SimOrder.Active;
    var bar, now := item.bar, item.availableAt;
    var warned := Warned(st, bar, cutoff, now);
    assert OnlyLogs(st, warned, now);
    OnlyLogsSound(env, st, warned, now);
    CapacityNatural(env, bar);
    CapacityExact(env, bar);
    QueueStartsReady(env, st, bar, cutoff);
    LoopGreedy(env, warned, Queue(st, bar, cutoff), Bases(st.orders, bar), bar, now, Capacity(env, bar), cutoff);
  }

  // ----- the liquidation at the cutoff bar

  /** Order i alone liquidates the symbol: what it has left is what is held. */
  ghost predicate Liquidates(x: Sim, i: nat, symbol: Symbol) {
    && i < |x.orders| && x.orders[i].forced && x.orders[i].intent.symbol == symbol && x.orders[i].intent.side == Sell
    && x.orders[i].intent.orderType == Market && x.orders[i].intent.ocoGroup.None?
    && x.orders[i].Remaining() == x.book.Held(symbol)
    && x.orders[i].status in {Pending, PartiallyFilled, Filled}
    && forall j | 0 <= j < |x.orders| && j != i && x.orders[j].intent.symbol == symbol :: !x.orders[j].Active()
  }

  /** The holding went down by exactly the shares filled since. */
  ghost predicate Draining(st: Sim, x: Sim, i: nat, symbol: Symbol) {
    && Liquidates(x, i, symbol) && |x.orders| == |st.orders|
    && st.fills <= x.fills && x.book.Held(symbol) == st.book.Held(symbol) - SumInt(x.fills[|st.fills|..], Shares)
  }

  lemma DrainingStep(env: Env, st: Sim, x: Sim, r: Sim, i: nat, n: nat, base: Option<real>, bar: Bar, now: Time, left: Option<int>)
    requires Sound(env, x) && n < |x.orders| && x.orders[n].intent.symbol == bar.symbol
    requires Draining(st, x, i, bar.symbol) && Visited(env, x, r, n, base, bar, now, left)
    ensures Draining(st, r, i, bar.symbol)
  {
    hide Sound, Visited, Unfilled, FilledOne, Liquidates;
    VisitedSummary(env, x, r, n, base, bar, now, left);
    if n != i {
      LiquidatorAlone(x, i, n, bar.symbol);
      IdleVisit(x, r, n, bar, now);
      LiquidatorKept(x, r, i, bar.symbol);
    } else if Unfilled(x, r, n) {
      LiquidatorUnfilled(x, r, i, bar.symbol);
    } else {
      LiquidatorFilled(x, r, i, bar, now);
      var f := r.fills[|x.fills|];
      assert r.fills[|st.fills|..] == x.fills[|st.fills|..] + [f];
      SumIntPush(x.fills[|st.fills|..], f, Shares);
    }
  }

  lemma LiquidatorAlone(x: Sim, i: nat, n: nat, symbol: Symbol)
    requires Liquidates(x, i, symbol) && n < |x.orders| && n != i && x.orders[n].intent.symbol == symbol
    ensures !x.orders[n].Active()
  {
  }

  lemma LiquidatorKept(x: Sim, r: Sim, i: nat, symbol: Symbol)
    requires Liquidates(x, i, symbol) && r.orders == x.orders && r.book == x.book
    ensures Liquidates(r, i, symbol)
  {
  }

  lemma LiquidatorUnfilled(x: Sim, r: Sim, i: nat, symbol: Symbol)
    requires Liquidates(x, i, symbol) && |r.orders| == |x.orders| && Unfilled(x, r, i)
    ensures Liquidates(r, i, symbol) && r.fills == x.fills && r.book == x.book
  {
  }

  lemma LiquidatorFilled(x: Sim, r: Sim, i: nat, bar: Bar, now: Time)
    requires Liquidates(x, i, bar.symbol) && |r.orders| == |x.orders| && FilledOne(x, r, i, bar, now)
    ensures Liquidates(r, i, bar.symbol) && |r.fills| == |x.fills| + 1 && r.fills[..|x.fills|] == x.fills
    ensures r.book.Held(bar.symbol) == x.book.Held(bar.symbol) - r.fills[|x.fills|].quantity
  {
  }

  /** Visiting an order that is not active does nothing. */
  lemma IdleVisit(x: Sim, r: Sim, n: nat, bar: Bar, now: Time)
    requires n < |x.orders| && |r.orders| == |x.orders| && !x.orders[n].Active()
    requires Unfilled(x, r, n) || FilledOne(x, r, n, bar, now)
    ensures r.orders == x.orders && r.fills == x.fills && r.book == x.book
  {
    hide Signed;
  }

  lemma DrainingLogs(st: Sim, x: Sim, r: Sim, i: nat, symbol: Symbol, now: Time)
    requires OnlyLogs(x, r, now) && Draining(st, x, i, symbol)
    ensures Draining(st, r, i, symbol)
  {
  }

  lemma DrainingStarts(st: Sim, i: nat, symbol: Symbol)
    requires Liquidates(st, i, symbol)
    ensures Draining(st, st, i, symbol)
  {
    assert st.fills[|st.fills|..] == [];
  }

  /** What is left of a holding after a bar that permits so many shares, or any number. */
  function LeftOver(held: int, share: Option<int>): int {
    if share.None? || share.value >= held then 0 else held - share.value
  }

  /** A bar takes of the liquidation it serves all that its volume permits, and no more. */
  lemma LiquidationDrains(env: Env, st: Sim, item: SnapshotBar, cutoff: Time, i: nat)
    requires Sound(env, st) && Liquidates(st, i, item.bar.symbol) && st.orders[i].Active() && MayFill(st.orders[i], item.bar, cutoff)
    ensures var r := Execute(env, st, item, cutoff);
            r.Ok? && r.value.book.Held(item.bar.symbol) == LeftOver(st.book.Held(item.bar.symbol), Capacity(env, item.bar))
  {
    hide Sound, Queue, Visited, Execute, Extends, Draining, MayFill, Contested, BarFills, CapacityOf, Logged;
    var symbol := item.bar.symbol;
    var P := (x: Sim) => Draining(st, x, i, symbol);
    DrainingStarts(st, i, symbol);
    forall x, y | OnlyLogs(x, y, item.availableAt) && P(x)
      ensures P(y)
    {
      DrainingLogs(st, x, y, i, symbol, item.availableAt);
    }
    forall x: Sim, r: Sim, n: nat, base: Option<real>, l {:trigger Visited(env, x, r, n, base, item.bar, item.availableAt, l)} |
      Sound(env, x) && P(x) && n < |x.orders| && MayFill(x.orders[n], item.bar, cutoff)
      && Visited(env, x, r, n, base, item.bar, item.availableAt, l) && Sound(env, r)
      ensures P(r)
    {
      MayFillSymbol(x.orders[n], item.bar, cutoff);
      DrainingStep(env, st, x, r, i, n, base, item.bar, item.availableAt, l);
    }
    ExecuteKeeps(env, st, item, cutoff, P);
    CandidateMayFill(st, item.bar, cutoff);
    QueueExact(st, item.bar, cutoff);
    NoLiquidityWasted(env, st, item, cutoff, i);
    var r := Execute(env, st, item, cutoff).value;
    DrainedAway(env, st, r, item, i);
  }

  lemma MayFillSymbol(o: SimOrder, bar: Bar, cutoff: Time)
    requires MayFill(o, bar, cutoff)
    ensures o.intent.symbol == bar.symbol
  {
  }

  lemma DrainedAway(env: Env, st: Sim, r: Sim, item: SnapshotBar, i: nat)
    requires Sound(env, r) && Draining(st, r, i, item.bar.symbol) && BarFills(env, st, r, item)
    requires r.orders[i].Active() ==> Exhausted(st, r, Capacity(env, item.bar))
    ensures r.book.Held(item.bar.symbol) == LeftOver(st.book.Held(item.bar.symbol), Capacity(env, item.bar))
  {
    hide Sound, CapacityOf;
    SoundOrder(env, r, i);
    CapacityExact(env, item.bar);
    if r.orders[i].Active() {
      RemainingPositive(env, r, i);
    }
  }

  /** Before a session's close tick the session is live. */
  lemma LiveUntilClose(env: Env, grid: Grid, k: nat, s: Session)
    requires GridSound(env, grid) && k < |Ticks(env)| && s in env.sessions
    requires Ticks(env)[k].timestamp <= s.closes && Ticks(env)[k].kind != SessionClose
    ensures Live(env, k, s)
  {
    hide Timeline, OnGrid;
    TicksFrom(env, grid, k);
    forall j | 0 <= j < k && Ticks(env)[j].kind == SessionClose
      ensures Ticks(env)[j].timestamp != s.closes
    {
      assert Before(Ticks(env)[j], Ticks(env)[k]);
    }
  }

  /** A bar of the cutoff or later may fill the liquidation that covers its symbol. */
  lemma CutoffCovered(env: Env, grid: Grid, k: nat, c: nat, s: Session, st: Sim) returns (i: nat)
    requires GridSound(env, grid) && k < |Ticks(env)| && c < |env.bars| && Ticks(env)[k] == Tick(env.bars[c].availableAt, BarComplete, c)
    requires SessionAt(env.sessions, env.bars[c].bar.timestamp) == Some(s) && s.opens in grid.cutoffs
    requires env.bars[c].bar.timestamp >= grid.cutoffs[s.opens]
    requires InCharge(env, grid, k, st) && Covered(st, env.bars[c].bar.symbol) && st.book.Held(env.bars[c].bar.symbol) != 0
    ensures Liquidates(st, i, env.bars[c].bar.symbol) && st.orders[i].Active() && MayFill(st.orders[i], env.bars[c].bar, grid.cutoffs[s.opens])
  {
    hide Timeline, Ticks, GridSound, FillTimed, OrderTimed, PastCutoff, Covered, Liquidates, ForcedAlone, MayFill;
    GridHasSessions(env, grid);
    i := Coverer(st, env.bars[c].bar.symbol);
    assert OrderTimed(env, grid, k, st.orders[i]);
    CoverLiquidates(env, grid, k, c, s, st, i);
  }

  /** When a cutoff bar completes, its symbol is held only under a liquidation. */
  lemma CutoffAttended(env: Env, grid: Grid, k: nat, c: nat, s: Session, st: Sim)
    requires GridSound(env, grid) && k < |Ticks(env)| && c < |env.bars| && Ticks(env)[k] == Tick(env.bars[c].availableAt, BarComplete, c)
    requires SessionAt(env.sessions, env.bars[c].bar.timestamp) == Some(s) && s.opens in grid.cutoffs
    requires env.bars[c].bar.timestamp == grid.cutoffs[s.opens] && InCharge(env, grid, k, st)
    ensures Covered(st, env.bars[c].bar.symbol)
  {
    hide Timeline, Ticks, GridSound, Timed, PastCutoff, Covered, CompletedBy, Withdrawn;
    GridHasSessions(env, grid);
    CutoffPassed(env, grid, k, c, s);
    NotYetCompleted(env, grid, k, c);
    assert Attended(env, k, st, c);
  }

  lemma NotYetCompleted(env: Env, grid: Grid, k: nat, c: nat)
    requires GridSound(env, grid) && k < |Ticks(env)| && c < |env.bars| && Ticks(env)[k] == Tick(env.bars[c].availableAt, BarComplete, c)
    ensures !CompletedBy(env, k, c)
  {
    hide Timeline, GridSound;
    TicksFrom(env, grid, k);
  }

  lemma Coverer(st: Sim, symbol: Symbol) returns (i: nat)
    requires Covered(st, symbol) && st.book.Held(symbol) != 0
    ensures i < |st.orders| && st.orders[i].forced && st.orders[i].Active() && st.orders[i].intent.symbol == symbol
  {
    i :| 0 <= i < |st.orders| && st.orders[i].forced && st.orders[i].Active() && st.orders[i].intent.symbol == symbol;
  }

  /** When the cutoff bar completes, it has opened, and its session is live. */
  lemma CutoffPassed(env: Env, grid: Grid, k: nat, c: nat, s: Session)
    requires GridSound(env, grid) && k < |Ticks(env)| && c < |env.bars| && Ticks(env)[k] == Tick(env.bars[c].availableAt, BarComplete, c)
    requires SessionAt(env.sessions, env.bars[c].bar.timestamp) == Some(s) && s.opens in grid.cutoffs
    requires env.bars[c].bar.timestamp == grid.cutoffs[s.opens]
    ensures PastCutoff(env, grid, k, c)
  {
    hide Timeline, OnGrid;
    var symbol := env.bars[c].bar.symbol;
    var own := BarSession(env, grid, c);
    TicksFrom(env, grid, k);
    LiveUntilClose(env, grid, k, s);
    var open := Tick(env.bars[c].bar.timestamp, BarOpen, c);
    assert Scheduled(env.bars, env.sessions, env.script, open) && Earlier(open, Ticks(env)[k]);
    var j :| 0 <= j < k && Ticks(env)[j] == open;
    assert OpenedAt(env, k, symbol, env.bars[c].bar.timestamp);
  }

  lemma CoverLiquidates(env: Env, grid: Grid, k: nat, c: nat, s: Session, st: Sim, i: nat)
    requires GridSound(env, grid) && k < |Ticks(env)| && c < |env.bars| && Ticks(env)[k] == Tick(env.bars[c].availableAt, BarComplete, c)
    requires SessionAt(env.sessions, env.bars[c].bar.timestamp) == Some(s) && s.opens in grid.cutoffs
    requires env.bars[c].bar.timestamp >= grid.cutoffs[s.opens]
    requires ForcedAlone(st) && i < |st.orders| && st.orders[i].forced && st.orders[i].Active()
    requires st.orders[i].intent.symbol == env.bars[c].bar.symbol && OrderTimed(env, grid, k, st.orders[i])
    ensures Liquidates(st, i, env.bars[c].bar.symbol) && MayFill(st.orders[i], env.bars[c].bar, grid.cutoffs[s.opens])
  {
    hide Timeline, Ticks, OnGrid, OpenedAt;
    var own := BarSession(env, grid, c);
    SessionAtExact(env.sessions, st.orders[i].intent.createdAt);
    LiveIsCurrent(env, grid, k, SessionAt(env.sessions, st.orders[i].intent.createdAt).value, s) by { TicksFrom(env, grid, k); }
  }

  /**
   * The cutoff bar liquidates: when a symbol's cutoff bar completes and its volume is not capped, or the cap covers the
   * holding, nothing of the symbol is held afterwards.
   */
  lemma CutoffBarFlattens<S>(env: Env, grid: Grid, plan: Plan<S>, k: nat, c: nat, s: Session)
    requires GridSound(env, grid) && 0 < k <= |Ticks(env)|
    requires c < |env.bars| && Ticks(env)[k - 1] == Tick(env.bars[c].availableAt, BarComplete, c)
    requires SessionAt(env.sessions, env.bars[c].bar.timestamp) == Some(s) && s.opens in grid.cutoffs
    requires env.bars[c].bar.timestamp == grid.cutoffs[s.opens]
    requires After(env, grid, plan, k).Ok?
    requires Capacity(env, env.bars[c].bar).None? || After(env, grid, plan, k - 1).Err?
             || Capacity(env, env.bars[c].bar).value >= After(env, grid, plan, k - 1).value.sim.book.Held(env.bars[c].bar.symbol)
    ensures After(env, grid, plan, k).value.sim.book.Held(env.bars[c].bar.symbol) == 0
  {
    hide WorldSound, Timeline, Extends, GridSound, InCharge, Step, Ticks, Healthy, Capacity, Liquidates, MayFill, After;
    GridHasSessions(env, grid);
    HistoryExtends(env, grid, plan, k - 1, k);
    var w := After(env, grid, plan, k - 1).value;
    ReachableInCharge(env, grid, plan, k - 1);
    ReachableSound(env, grid, plan, k - 1);
    Stepped(env, grid, plan, k);
    CompletionFlattens(env, grid, plan, k - 1, c, s, w);
  }

  lemma CompletionFlattens<S>(env: Env, grid: Grid, plan: Plan<S>, k: nat, c: nat, s: Session, w: World<S>)
    requires GridSound(env, grid) && k < |Ticks(env)| && c < |env.bars| && Ticks(env)[k] == Tick(env.bars[c].availableAt, BarComplete, c)
    requires SessionAt(env.sessions, env.bars[c].bar.timestamp) == Some(s) && s.opens in grid.cutoffs
    requires env.bars[c].bar.timestamp == grid.cutoffs[s.opens]
    requires WorldSound(env, w) && InCharge(env, grid, k, w.sim) && Step(env, grid, plan, w, Ticks(env)[k]).Ok?
    requires Capacity(env, env.bars[c].bar).Some? ==> Capacity(env, env.bars[c].bar).value >= w.sim.book.Held(env.bars[c].bar.symbol)
    ensures Step(env, grid, plan, w, Ticks(env)[k]).value.sim.book.Held(env.bars[c].bar.symbol) == 0
  {
    hide Timeline, WorldSound, InCharge, Covered, Capacity, Ticks, GridSound, Step;
    CutoffAttended(env, grid, k, c, s, w.sim);
    CompletionDrains(env, grid, plan, k, c, s, w);
  }

  /** A bar that completes at or after its symbol's cutoff leaves of a covered holding what its volume does not permit to sell. */
  lemma CompletionDrains<S>(env: Env, grid: Grid, plan: Plan<S>, k: nat, c: nat, s: Session, w: World<S>)
    requires GridSound(env, grid) && k < |Ticks(env)| && c < |env.bars| && Ticks(env)[k] == Tick(env.bars[c].availableAt, BarComplete, c)
    requires SessionAt(env.sessions, env.bars[c].bar.timestamp) == Some(s) && s.opens in grid.cutoffs
    requires env.bars[c].bar.timestamp >= grid.cutoffs[s.opens]
    requires WorldSound(env, w) && InCharge(env, grid, k, w.sim) && Step(env, grid, plan, w, Ticks(env)[k]).Ok?
    requires Covered(w.sim, env.bars[c].bar.symbol)
    ensures Step(env, grid, plan, w, Ticks(env)[k]).value.sim.book.Held(env.bars[c].bar.symbol)
            == LeftOver(w.sim.book.Held(env.bars[c].bar.symbol), Capacity(env, env.bars[c].bar))
  {
    hide Timeline, Healthy, Settled, EvaluateStrategy, Extends, Logged, Visited, OnGrid, BarFills, InCharge, Capacity, MayFill, Ticks, GridSound, Covered;
    var item := env.bars[c];
    var own := BarSession(env, grid, c);
    var cutoff := grid.cutoffs[s.opens];
    SettledKeeps(env, w.sim, item, cutoff, (x: Sim) => true);
    var settled := Settled(env, w.sim, item, cutoff).value;
    EvaluateSound(env, grid, plan, World(settled, w.runtime), c, own, cutoff);
    SettledDrains(env, grid, k, c, s, w.sim);
  }

  lemma SettledDrains(env: Env, grid: Grid, k: nat, c: nat, s: Session, st: Sim)
    requires GridSound(env, grid) && k < |Ticks(env)| && c < |env.bars| && Ticks(env)[k] == Tick(env.bars[c].availableAt, BarComplete, c)
    requires SessionAt(env.sessions, env.bars[c].bar.timestamp) == Some(s) && s.opens in grid.cutoffs
    requires env.bars[c].bar.timestamp >= grid.cutoffs[s.opens]
    requires Healthy(env, st) && InCharge(env, grid, k, st) && Covered(st, env.bars[c].bar.symbol)
    ensures var r := Settled(env, st, env.bars[c], grid.cutoffs[s.opens]);
            r.Ok? ==> r.value.book.Held(env.bars[c].bar.symbol) == LeftOver(st.book.Held(env.bars[c].bar.symbol), Capacity(env, env.bars[c].bar))
  {
    hide Timeline, Healthy, Execute, Sound, InCharge, Capacity, MayFill, Ticks, GridSound, Liquidates, Mark, Extends, Logged;
    var item := env.bars[c];
    var symbol, now, cutoff := item.bar.symbol, item.availableAt, grid.cutoffs[s.opens];
    GridHasSessions(env, grid);
    var told := Emit(st, now, BarCompleted(symbol, item.bar.timestamp));
    SameOrdersInCharge(env, grid, k, st, told);
    EmitKeeps(env, st, now, BarCompleted(symbol, item.bar.timestamp));
    HealthySound(env, told);
    CapacityNatural(env, item.bar);
    if told.book.Held(symbol) != 0 {
      var i := CutoffCovered(env, grid, k, c, s, told);
      LiquidationDrains(env, told, item, cutoff, i);
    } else {
      FlatStaysFlat(env, grid, k, c, s, told);
    }
  }

  /** Nothing is bought at or after the cutoff. */
  lemma FlatStaysFlat(env: Env, grid: Grid, k: nat, c: nat, s: Session, st: Sim)
    requires GridSound(env, grid) && k < |Ticks(env)| && c < |env.bars| && Ticks(env)[k] == Tick(env.bars[c].availableAt, BarComplete, c)
    requires SessionAt(env.sessions, env.bars[c].bar.timestamp) == Some(s) && s.opens in grid.cutoffs
    requires env.bars[c].bar.timestamp >= grid.cutoffs[s.opens]
    requires Sound(env, st) && InCharge(env, grid, k, st) && st.book.Held(env.bars[c].bar.symbol) == 0
    ensures var r := Execute(env, st, env.bars[c], grid.cutoffs[s.opens]); r.Ok? && r.value.book.Held(env.bars[c].bar.symbol) == 0
  {
    hide Timeline, Execute, Sound, Ticks, GridSound, Extends, Logged, Visited, BarFills, FillTimed, OnGrid;
    var item := env.bars[c];
    var symbol := item.bar.symbol;
    GridHasSessions(env, grid);
    var P := (x: Sim) => x.book.Held(symbol) == 0 && ForcedSellsOnly(x);
    forall i | 0 <= i < |st.orders| && st.orders[i].forced
      ensures st.orders[i].intent.side == Sell
    {
      assert OrderTimed(env, grid, k, st.orders[i]);
    }
    forall x: Sim, r: Sim, n: nat, base: Option<real>, l {:trigger Visited(env, x, r, n, base, item.bar, item.availableAt, l)} |
      Sound(env, x) && P(x) && n < |x.orders| && MayFill(x.orders[n], item.bar, grid.cutoffs[s.opens])
      && Visited(env, x, r, n, base, item.bar, item.availableAt, l) && Sound(env, r)
      ensures P(r)
    {
      FlatVisited(env, x, r, n, base, item.bar, item.availableAt, l, grid.cutoffs[s.opens]);
    }
    ExecuteKeeps(env, st, item, grid.cutoffs[s.opens], P);
  }

  ghost predicate ForcedSellsOnly(st: Sim) { forall i | 0 <= i < |st.orders| && st.orders[i].forced :: st.orders[i].intent.side == Sell }

  lemma FlatVisited(env: Env, x: Sim, r: Sim, n: nat, base: Option<real>, bar: Bar, now: Time, left: Option<int>, cutoff: Time)
    requires Sound(env, x) && n < |x.orders| && MayFill(x.orders[n], bar, cutoff) && bar.timestamp >= cutoff
    requires x.book.Held(bar.symbol) == 0 && ForcedSellsOnly(x) && Visited(env, x, r, n, base, bar, now, left)
    ensures r.book.Held(bar.symbol) == 0 && ForcedSellsOnly(r)
  {
    hide Sound, Visited;
    VisitedSummary(env, x, r, n, base, bar, now, left);
  }
}
