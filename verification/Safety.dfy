/**
 * Safety of whole steps: every operation of the simulator keeps the joint invariant, extends the history,
 * and can fail only for the reasons listed here.
 */
module Safety {
  import opened Common
  import opened Orders
  import opened Costs
  import opened Execution
  import opened Accounting
  import opened Trades
  import opened Calendars
  import opened Clock
  import opened FeatureRows
  import opened Strategies
  import opened Engine
  import opened Ledger

  lemma ShareWithin(volume: nat, rate: Rate)
    ensures 0 <= (volume as real * rate).Floor <= volume
  {
    var taken: real := volume as real * rate;
    assert volume as real - taken == volume as real * (1.0 - rate);
    assert 0.0 <= taken <= volume as real;
  }

  /** What a bar shares out is the volume times the rate, rounded down to whole shares, and everything without a rate. */
  lemma CapacityExact(env: Env, bar: Bar)
    ensures Capacity(env, bar).Some? <==> env.participation.Some?
    ensures Capacity(env, bar).Some? ==> UsesUp(env.participation, bar.volume, Capacity(env, bar).value)
  {
  }

  lemma CapacityNatural(env: Env, bar: Bar)
    ensures Capacity(env, bar).Some? ==> 0 <= Capacity(env, bar).value
    ensures Capacity(env, bar).Some? ==> Capacity(env, bar).value <= bar.volume
  {
    if env.participation.Some? {
      ShareWithin(bar.volume, env.participation.value);
    }
  }

  lemma QueueStartsReady(env: Env, st: Sim, bar: Bar, cutoff: Time)
    requires Sound(env, st)
    ensures QueueReady(st.orders, Queue(st, bar, cutoff), Bases(st.orders, bar), bar, cutoff)
    ensures InRange(Queue(st, bar, cutoff), |st.orders|)
  {
    hide Queue, Cumulative, FillSound, Replay;
    QueueInRange(st, bar, cutoff);
    forall i: nat | i in Queue(st, bar, cutoff) && Bases(st.orders, bar)(i).Some?
      ensures Offers(bar, st.orders[i].intent, Bases(st.orders, bar)(i).value)
    {
      assert OrderSound(env, st.fills, st.orders[i], i + 1);
      BaseReached(st.orders[i], bar);
    }
  }

  /** Only the event log and the warnings change. */
  ghost predicate OnlyLogs(st: Sim, r: Sim, now: Time) {
    && r == st.(events := r.events, warnings := r.warnings)
    && Logged(st.events, r.events, now)
  }

  lemma OnlyLogsSound(env: Env, st: Sim, r: Sim, now: Time)
    requires OnlyLogs(st, r, now)
    ensures Sound(env, st) ==> Sound(env, r)
    ensures Extends(st, r)
  {
    hide Cumulative, FillSound, Replay, OrderSound;
  }

  /** Executing a completed bar raises nothing, keeps the invariant and whatever each visit keeps. */
  lemma ExecuteKeeps(env: Env, st: Sim, item: SnapshotBar, cutoff: Time, P: Sim -> bool)
    requires Sound(env, st) && P(st)
    requires forall s, w :: OnlyLogs(s, w, item.availableAt) && P(s) ==> P(w)
    requires forall s: Sim, r: Sim, i: nat, base: Option<real>, l {:trigger Visited(env, s, r, i, base, item.bar, item.availableAt, l)} ::
               (Sound(env, s) && P(s) && i < |s.orders| && MayFill(s.orders[i], item.bar, cutoff)
               && (base.Some? ==> Offers(item.bar, s.orders[i].intent, base.value))
               && Visited(env, s, r, i, base, item.bar, item.availableAt, l) && Sound(env, r)) ==> P(r)
    ensures var r := Execute(env, st, item, cutoff);
            && r.Ok? && Sound(env, r.value) && Extends(st, r.value) && P(r.value)
            && |r.value.orders| == |st.orders|
            && Logged(st.events, r.value.events, item.availableAt)
            && r.value == st.(book := r.value.book, orders := r.value.orders, fills := r.value.fills,
                              events := r.value.events, warnings := r.value.warnings)
            && BarFills(env, st, r.value, item)
  {
    hide Sound, Visited, Queue, VisitAll, Extends, Carried;
    var bar, now := item.bar, item.availableAt;
    var warned := Warned(st, bar, cutoff, now);
    assert OnlyLogs(st, warned, now);
    OnlyLogsSound(env, st, warned, now);
    CapacityNatural(env, bar);
    CapacityExact(env, bar);
    QueueStartsReady(env, st, bar, cutoff);
    QueueInRange(st, bar, cutoff);
    VisitAllKeeps(env, warned, Queue(st, bar, cutoff), Bases(st.orders, bar), bar, now, Capacity(env, bar), cutoff, P);
    var r := VisitAll(env, warned, Queue(st, bar, cutoff), Bases(st.orders, bar), bar, now, Capacity(env, bar)).value;
    ExtendsTransitive(st, warned, r);
    LoggedTransitive(st.events, warned.events, r.events, now);
  }

  /** So many shares are within the permitted rate of a volume. */
  ghost predicate WithinRate(rate: Option<Rate>, volume: nat, shares: int) {
    rate.Some? ==> shares as real <= volume as real * rate.value
  }

  /** One share more would not be. */
  ghost predicate UsesUp(rate: Option<Rate>, volume: nat, shares: int) {
    rate.Some? && shares as real <= volume as real * rate.value < (shares + 1) as real
  }

  /** All new fills are this bar's, and together they take at most the permitted share of its volume. */
  ghost predicate BarFills(env: Env, st: Sim, r: Sim, item: SnapshotBar) {
    && st.fills <= r.fills
    && (forall f | f in r.fills[|st.fills|..] ::
          f.symbol == item.bar.symbol && f.barOpen == item.bar.timestamp && f.timestamp == item.availableAt)
    && WithinRate(env.participation, item.bar.volume, SumInt(r.fills[|st.fills|..], Shares))
    && (forall s | s != item.bar.symbol :: r.book.PositionOf(s) == st.book.PositionOf(s))
  }

  // ----- marking

  /** The running peak over the starting capital and the equity points. */
  function PeakOf(capital: real, equity: seq<EquityPoint>): real {
    if equity == [] then capital else MaxReal(PeakOf(capital, equity[..|equity| - 1]), equity[|equity| - 1].equity)
  }

  ghost predicate CurveSound(capital: real, equity: seq<EquityPoint>) {
    forall j | 0 <= j < |equity| ::
      && equity[j].equity == equity[j].cash + equity[j].marketValue
      && equity[j].peak == PeakOf(capital, equity[..j + 1])
      && equity[j].drawdown == equity[j].peak - equity[j].equity && equity[j].drawdown >= 0.0
      && equity[j].peak > 0.0 && equity[j].drawdownPct == Quotient(equity[j].drawdown, equity[j].peak)
  }

  /** The invariant between ticks: the joint invariant, a price for every holding, and a sound equity curve. */
  ghost predicate Healthy(env: Env, st: Sim) {
    && Sound(env, st)
    && Priced(st.book, st.prices)
    && CurveSound(env.capital, st.equity)
    && st.peak == PeakOf(env.capital, st.equity) && st.peak > 0.0
  }

  lemma HealthySound(env: Env, st: Sim)
    requires Healthy(env, st)
    ensures Sound(env, st)
  {
  }

  lemma RecordSound(env: Env, st: Sim, now: Time)
    requires Healthy(env, st)
    ensures var r := RecordEquity(st, now);
            && r.Ok? && Healthy(env, r.value) && Extends(st, r.value) && Logged(st.events, r.value.events, now)
            && |r.value.equity| == |st.equity| + 1
            && r.value == st.(equity := r.value.equity, peak := r.value.peak, events := r.value.events)
            && r.value.equity[|st.equity|] == Mark(st.book, st.peak, now, st.prices).value
  {
    hide Sound, Priced, CurveSound, PeakOf, Mark;
    MarkShape(st.book, st.peak, now, st.prices);
    var r := RecordEquity(st, now).value;
    CurveStep(env.capital, st.equity, r.equity[|st.equity|]);
    SoundIgnores(env, st, r);
    LoggedOne(st.events, now);
  }

  /** A priced book with a positive peak can always be marked. */
  lemma MarkShape(book: Book, peak: real, now: Time, prices: Prices)
    requires Priced(book, prices) && peak > 0.0
    ensures var m := Mark(book, peak, now, prices);
            && m.Ok? && m.value.timestamp == now && m.value.cash == book.cash && m.value.equity == m.value.cash + m.value.marketValue
            && m.value.peak == MaxReal(peak, m.value.equity) > 0.0 && m.value.drawdown == m.value.peak - m.value.equity
            && m.value.drawdownPct == Quotient(m.value.drawdown, m.value.peak)
  {
    hide MarketValue, SumOver, Quotient, Priced;
  }

  /** One more point keeps the curve sound. */
  lemma CurveStep(capital: real, equity: seq<EquityPoint>, point: EquityPoint)
    requires CurveSound(capital, equity) && point.equity == point.cash + point.marketValue
    requires point.peak == MaxReal(PeakOf(capital, equity), point.equity) && point.drawdown == point.peak - point.equity
    requires point.peak > 0.0 && point.drawdownPct == Quotient(point.drawdown, point.peak)
    ensures CurveSound(capital, equity + [point]) && point.peak == PeakOf(capital, equity + [point])
  {
    var longer := equity + [point];
    PeakPush(capital, equity, point);
    hide PeakOf, Quotient;
    forall j | 0 <= j < |longer|
      ensures longer[j].peak == PeakOf(capital, longer[..j + 1])
      ensures longer[j].equity == longer[j].cash + longer[j].marketValue
      ensures longer[j].drawdown == longer[j].peak - longer[j].equity && longer[j].drawdown >= 0.0
      ensures longer[j].peak > 0.0 && longer[j].drawdownPct == Quotient(longer[j].drawdown, longer[j].peak)
    {
      if j < |equity| {
        assert longer[..j + 1] == equity[..j + 1];
      } else {
        assert longer[..j + 1] == longer;
      }
    }
  }

  lemma PeakPush(capital: real, equity: seq<EquityPoint>, point: EquityPoint)
    ensures PeakOf(capital, equity + [point]) == MaxReal(PeakOf(capital, equity), point.equity)
  {
    assert (equity + [point])[..|equity|] == equity;
  }

  /** Prices, equity, peak, events and warnings are no part of the joint invariant. */
  lemma SoundIgnores(env: Env, st: Sim, r: Sim)
    requires r.book == st.book && r.orders == st.orders && r.fills == st.fills
    ensures Sound(env, st) ==> Sound(env, r)
    ensures st.equity <= r.equity ==> Extends(st, r)
  {
    hide Cumulative, FillSound, Replay, OrderSound;
  }

  lemma SettledKeeps(env: Env, st: Sim, item: SnapshotBar, cutoff: Time, P: Sim -> bool)
    requires Healthy(env, st) && P(st)
    requires forall s, w :: OnlyLogs(s, w, item.availableAt) && P(s) ==> P(w)
    requires forall s: Sim, r: Sim, i: nat, base: Option<real>, l {:trigger Visited(env, s, r, i, base, item.bar, item.availableAt, l)} ::
               (Sound(env, s) && P(s) && i < |s.orders| && MayFill(s.orders[i], item.bar, cutoff)
               && (base.Some? ==> Offers(item.bar, s.orders[i].intent, base.value))
               && Visited(env, s, r, i, base, item.bar, item.availableAt, l) && Sound(env, r)) ==> P(r)
    ensures var r := Settled(env, st, item, cutoff);
            && r.Ok? && Healthy(env, r.value) && Extends(st, r.value)
            && Logged(st.events, r.value.events, item.availableAt)
            && |r.value.orders| == |st.orders|
            && |r.value.equity| == |st.equity| + 1 && r.value.equity[|st.equity|].timestamp == item.availableAt
            && BarFills(env, st, r.value, item)
            && exists x :: P(x) && x.book == r.value.book && x.orders == r.value.orders && x.fills == r.value.fills
  {
    hide Sound, Execute, Visited, Extends, CurveSound, Capacity;
    var bar, now := item.bar, item.availableAt;
    var told := Emit(st, now, BarCompleted(bar.symbol, bar.timestamp));
    assert OnlyLogs(st, told, now);
    OnlyLogsSound(env, st, told, now);
    ExecuteKeeps(env, told, item, cutoff, P);
    var executed := Execute(env, told, item, cutoff).value;
    var priced := Emit(executed.(prices := executed.prices[bar.symbol := bar.close]), now, FeaturePublished(bar.symbol, bar.timestamp));
    SoundIgnores(env, executed, priced);
    forall s | s in priced.book.positions && priced.book.positions[s].quantity != 0
      ensures s in priced.prices
    {
      if s != bar.symbol {
        assert priced.book.PositionOf(s) == st.book.PositionOf(s);
      }
    }
    RecordSound(env, priced, now);
    var r := RecordEquity(priced, now).value;
    ExtendsTransitive(st, told, executed);
    ExtendsTransitive(st, executed, priced);
    ExtendsTransitive(st, priced, r);
    LoggedTransitive(st.events, told.events, executed.events, now);
    LoggedTransitive(st.events, executed.events, priced.events, now);
    LoggedTransitive(st.events, priced.events, r.events, now);
  }

  // ----- new orders and requests

  lemma {:induction false} NoFillsYet(orders: seq<SimOrder>, fills: seq<Fill>, id: nat)
    requires id > |orders| && forall j | 0 <= j < |fills| :: FillSound(orders, fills[j])
    ensures SumInt(fills, SharesFor(id)) == 0 && Sum(fills, ValueFor(id)) == 0.0 && CostsFor(fills, id) == NO_COSTS
  {
    hide Value, Adverse;
    if fills != [] {
      NoFillsYet(orders, fills[..|fills| - 1], id);
      assert FillSound(orders, fills[|fills| - 1]);
    }
  }

  lemma AddedSound(env: Env, st: Sim, order: SimOrder)
    requires Sound(env, st)
    requires order.orderId == |st.orders| + 1 && order.filledQuantity == 0 && order.executedTurnover == 0.0
    requires order.status in {Pending, Rejected} && !order.EverTriggered()
    ensures Sound(env, st.(orders := st.orders + [order])) && Extends(st, st.(orders := st.orders + [order]))
  {
    hide Replay, FillSound;
    var r := st.(orders := st.orders + [order]);
    NoFillsYet(st.orders, st.fills, order.orderId);
    FillsStaySound(st.orders, r.orders, st.fills);
  }

  /** What a new order looks like, and that nothing else changes but the event log. */
  ghost predicate Added(env: Env, st: Sim, r: Sim, intent: TradeIntent, now: Time, forced: bool, eligible: Option<Time>, pastCutoff: bool) {
    && r.orders == st.orders + [MadeOrder(env, intent, |st.orders| + 1, eligible, now, forced, pastCutoff, st.book.Held(intent.symbol))]
    && r == st.(orders := r.orders, events := r.events)
    && Logged(st.events, r.events, now)
  }

  lemma NewOrderExact(env: Env, grid: Grid, st: Sim, intent: TradeIntent, now: Time, forced: bool)
    requires SessionAt(env.sessions, now).Some?
    requires var opens := SessionAt(env.sessions, now).value.opens; opens in grid.openings && opens in grid.cutoffs
    ensures var opens := SessionAt(env.sessions, now).value.opens;
            var r := NewOrder(env, grid, st, intent, now, forced);
            && r.Ok?
            && Added(env, st, r.value, intent, now, forced, EligibleFrom(grid.openings[opens], now, forced), now >= grid.cutoffs[opens])
  {
  }

  lemma MadeShape(env: Env, intent: TradeIntent, id: nat, eligible: Option<Time>, now: Time, forced: bool, pastCutoff: bool, held: int)
    ensures var o := MadeOrder(env, intent, id, eligible, now, forced, pastCutoff, held);
            && o.intent == intent && o.orderId == id && o.eligibleFrom == eligible && o.forced == forced
            && o.filledQuantity == 0 && o.executedTurnover == 0.0 && !o.EverTriggered()
            && o.status == if (!forced && pastCutoff) || (intent.side == Sell && intent.quantity > held) then Rejected else Pending
  {
  }

  lemma AddedKeeps(env: Env, st: Sim, r: Sim, intent: TradeIntent, now: Time, forced: bool, eligible: Option<Time>, pastCutoff: bool)
    requires Added(env, st, r, intent, now, forced, eligible, pastCutoff)
    ensures Sound(env, st) ==> Sound(env, r)
    ensures Sound(env, st) ==> Extends(st, r)
  {
    hide Sound, MadeOrder;
    var order := MadeOrder(env, intent, |st.orders| + 1, eligible, now, forced, pastCutoff, st.book.Held(intent.symbol));
    MadeShape(env, intent, |st.orders| + 1, eligible, now, forced, pastCutoff, st.book.Held(intent.symbol));
    if Sound(env, st) {
      AddedSound(env, st, order);
      SoundIgnores(env, st.(orders := st.orders + [order]), r);
    }
  }

  /** Orders and events may change; the books, prices and curve may not. */
  ghost predicate BooksKept(st: Sim, r: Sim) {
    r == st.(orders := r.orders, events := r.events, warnings := r.warnings)
  }

  lemma HealthyKept(env: Env, st: Sim, r: Sim)
    requires Healthy(env, st) && Sound(env, r) && BooksKept(st, r)
    ensures Healthy(env, r)
  {
    hide Sound, CurveSound;
  }

  /** A new order at any instant of a session is taken in without an error. */
  lemma NewOrderKeeps(env: Env, grid: Grid, st: Sim, intent: TradeIntent, now: Time, forced: bool)
    requires Healthy(env, st)
    ensures var r := NewOrder(env, grid, st, intent, now, forced);
            && (r.Err? ==> r.error == NoSession)
            && (r.Ok? ==> Healthy(env, r.value) && Extends(st, r.value) && BooksKept(st, r.value) && Logged(st.events, r.value.events, now))
  {
    hide Sound, MadeOrder, EligibleFrom;
    var r := NewOrder(env, grid, st, intent, now, forced);
    if r.Ok? {
      var opens := SessionAt(env.sessions, now).value.opens;
      NewOrderExact(env, grid, st, intent, now, forced);
      AddedKeeps(env, st, r.value, intent, now, forced, EligibleFrom(grid.openings[opens], now, forced), now >= grid.cutoffs[opens]);
      HealthyKept(env, st, r.value);
    }
  }

  lemma MoveWhereKeeps(env: Env, st: Sim, pick: (nat, SimOrder) -> bool, status: Status, now: Time, reason: Reference)
    requires Healthy(env, st) && status in {Cancelled, Expired}
    ensures var r := MoveWhere(st, pick, status, now, reason, 0);
            Healthy(env, r) && Extends(st, r) && BooksKept(st, r) && Logged(st.events, r.events, now)
  {
    hide Sound;
    MoveWhereSound(env, st, pick, status, now, reason);
    MoveWhereExact(st, pick, status, now, reason, 0);
    MoveWhereExtends(st, pick, status, now, reason);
    HealthyKept(env, st, MoveWhere(st, pick, status, now, reason, 0));
  }

  lemma EmitKeeps(env: Env, st: Sim, now: Time, body: EventBody)
    requires Healthy(env, st)
    ensures var r := Emit(st, now, body); Healthy(env, r) && Extends(st, r) && BooksKept(st, r) && Logged(st.events, r.events, now)
  {
    hide Sound;
    SoundIgnores(env, st, Emit(st, now, body));
    HealthyKept(env, st, Emit(st, now, body));
  }

  lemma RequestKeeps(env: Env, grid: Grid, st: Sim, symbol: Symbol, now: Time, request: Request)
    requires Healthy(env, st)
    ensures var r := Request1(env, grid, st, symbol, now, request);
            && (r.Err? ==> r.error == NoSession)
            && (r.Ok? ==> Healthy(env, r.value) && Extends(st, r.value) && BooksKept(st, r.value) && Logged(st.events, r.value.events, now))
  {
    hide Healthy, NewOrder, MoveWhere, Extends;
    var told := Emit(st, now, Decided(symbol, request.Ref(), request.FeatureTimestamp()));
    EmitKeeps(env, st, now, Decided(symbol, request.Ref(), request.FeatureTimestamp()));
    match request {
      case Withdraw(c) => MoveWhereKeeps(env, told, Targeted(symbol, c.targets), Cancelled, now, Text(c.reason));
      case Place(intent) => NewOrderKeeps(env, grid, told, intent, now, false);
    }
    var r := Request1(env, grid, st, symbol, now, request);
    if r.Ok? {
      ExtendsTransitive(st, told, r.value);
      LoggedTransitive(st.events, told.events, r.value.events, now);
    }
  }

  lemma {:induction false} RequestAllKeeps(env: Env, grid: Grid, st: Sim, symbol: Symbol, now: Time, requests: seq<Request>)
    requires Healthy(env, st)
    ensures var r := RequestAll(env, grid, st, symbol, now, requests);
            && (requests == [] ==> r == Ok(st))
            && (r.Err? ==> r.error == NoSession)
            && (r.Ok? ==> Healthy(env, r.value) && Extends(st, r.value) && BooksKept(st, r.value) && Logged(st.events, r.value.events, now))
    decreases requests
  {
    hide Healthy, Request1, Extends;
    if requests == [] {
      SelfExtends(st);
    } else {
      RequestKeeps(env, grid, st, symbol, now, requests[0]);
      var next := Request1(env, grid, st, symbol, now, requests[0]);
      if next.Ok? {
        RequestAllKeeps(env, grid, next.value, symbol, now, requests[1..]);
        var r := RequestAll(env, grid, next.value, symbol, now, requests[1..]);
        if r.Ok? {
          ExtendsTransitive(st, next.value, r.value);
          LoggedTransitive(st.events, next.value.events, r.value.events, now);
        }
      }
    }
  }
}
