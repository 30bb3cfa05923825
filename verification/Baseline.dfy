/** The baseline trend and momentum strategy: its evaluation as a function, and the object that computes it. */
module Baseline {
  import opened Common
  import opened Rounding
  import opened Texts
  import opened Orders
  import opened Execution
  import opened Strategies

  datatype RawParameters = RawParameters(
    quantity: int, rsiMin: real, rsiMax: real, minVolumeRatio: real,
    entryStart: Time, lastEntry: Time, stopMultiple: real, targetMultiple: real)
  {
    predicate Valid() {
      && 0 < quantity <= MAX_QUANTITY
      && 0.0 <= rsiMin < rsiMax <= 100.0 && 0.0 <= minVolumeRatio
      && 0 <= entryStart < lastEntry < DAY
      && 0.0 < stopMultiple && 0.0 < targetMultiple
    }
  }

  type Parameters = p: RawParameters | p.Valid()
    witness RawParameters(10, 55.0, 70.0, 1.0, 570 * MINUTE, 885 * MINUTE, 1.5, 2.0)

  datatype State = State(
    cycle: nat, sequence: nat, entryReference: Option<Reference>, entryAtr: Option<real>,
    entryTime: Option<Time>, protection: Option<(int, real)>, armed: bool)

  const FRESH := State(0, 0, None, None, None, None, true)

  const REQUIRED: seq<string> :=
    ["ema_10", "ema_20", "momentum_5", "rsi_14", "atr_14", "volume_ratio", "session_progress"]

  // ----- observations

  function TagText(tag: Tag): string {
    match tag
    case Entry => "ENTRY"
    case Stop => "STOP"
    case Target => "TARGET"
    case Reversal => "REVERSAL"
    case StopRemainder => "STOP_REMAINDER"
    case Cancel => "CANCEL"
    case Oco => "OCO"
  }

  /** ":TAG:" in reference */
  predicate HasTag(r: Reference, tag: Tag) {
    match r
    case Lifecycle(_, _, t, _) => t == tag
    case Text(text) => Contains(text, ":" + TagText(tag) + ":")
  }

  /** reference.startswith(f"{symbol}:{cycle}:") */
  predicate InCycle(r: Reference, symbol: Symbol, cycle: nat) {
    match r
    case Lifecycle(s, c, _, _) => s == symbol && c == cycle
    case Text(text) => StartsWith(text, symbol + ":" + Digits(cycle) + ":")
  }

  /** A feature value counts only if it is present and not marked unavailable. */
  function Feature(ctx: Context, name: string): Option<real> {
    if name in ctx.features && name !in ctx.unavailable then ctx.features[name] else None
  }

  predicate Signal(p: Parameters, ctx: Context) {
    && (forall name | name in REQUIRED :: Feature(ctx, name).Some?)
    && Feature(ctx, "ema_10").Some? && Feature(ctx, "ema_20").Some? && Feature(ctx, "momentum_5").Some?
    && Feature(ctx, "rsi_14").Some? && Feature(ctx, "volume_ratio").Some? && Feature(ctx, "atr_14").Some?
    && Feature(ctx, "session_progress").Some?
    && Feature(ctx, "ema_10").value > Feature(ctx, "ema_20").value
    && Feature(ctx, "momentum_5").value > 0.0
    && p.rsiMin <= Feature(ctx, "rsi_14").value <= p.rsiMax
    && Feature(ctx, "volume_ratio").value >= p.minVolumeRatio
    && Feature(ctx, "atr_14").value > 0.0
    && 0.0 <= Feature(ctx, "session_progress").value <= 1.0
  }

  predicate Ordinary(o: OrderSnapshot) { o.active && !o.forced }

  /** References of the active ordinary orders of one side, in order. */
  function ActiveRefs(orders: seq<OrderSnapshot>, side: Side): seq<Reference> {
    if orders == [] then []
    else
      var last := orders[|orders| - 1];
      ActiveRefs(orders[..|orders| - 1], side) + if Ordinary(last) && last.side == side then [last.reference] else []
  }

  /** Some sale of the current cycle has filled. */
  predicate Exited(state: State, ctx: Context) {
    exists o | o in ctx.orders :: o.side == Sell && o.filledQuantity > 0 && InCycle(o.reference, ctx.bar.symbol, state.cycle)
  }

  /** The first active stop that has begun to fill. */
  function FillingStop(orders: seq<OrderSnapshot>): Option<OrderSnapshot> {
    if orders == [] then None
    else if Ordinary(orders[0]) && HasTag(orders[0].reference, Stop) && orders[0].filledQuantity > 0 then Some(orders[0])
    else FillingStop(orders[1..])
  }

  predicate Reversing(ctx: Context) {
    var fast, slow := Feature(ctx, "ema_10"), Feature(ctx, "ema_20");
    fast.Some? && slow.Some? && fast.value <= slow.value
  }

  // ----- requests

  function Named(state: State, ctx: Context, tag: Tag): Reference {
    Lifecycle(ctx.bar.symbol, state.cycle, tag, state.sequence + 1)
  }

  function Counted(state: State): State { state.(sequence := state.sequence + 1) }

  /** A cancellation of the targets, or nothing (and no number used up) when there are none. */
  function Cancelling(state: State, ctx: Context, targets: seq<Reference>, reason: string): (State, seq<Request>) {
    if targets == [] then (state, [])
    else (Counted(state),
          [Withdraw(CancelIntent(Named(state, ctx, Cancel), ctx.bar.symbol, ctx.currentTime, ctx.bar.timestamp, targets, reason))])
  }

  function Requesting(state: State, ctx: Context, tag: Tag, side: Side, quantity: int, orderType: OrderType,
                      limit: Option<real>, trigger: Option<real>, group: Option<Reference>, required: seq<string>)
    : Result<(State, seq<Request>)>
  {
    var intent :- Validated(RawIntent(Named(state, ctx, tag), ctx.bar.symbol, side, quantity, orderType,
                                      ctx.currentTime, ctx.bar.timestamp, limit, trigger, group, required));
    Ok((Counted(state), [Place(intent)]))
  }

  function MarketExit(state: State, ctx: Context, tag: Tag): Result<(State, seq<Request>)> {
    Requesting(state, ctx, tag, Sell, ctx.positionQuantity, Market, None, None, None, [])
  }

  function StopPrice(p: Parameters, average: real, atr: real): real { TenDecimals(average - atr * p.stopMultiple) }

  function TargetPrice(p: Parameters, average: real, atr: real): real { TenDecimals(average + atr * p.targetMultiple) }

  /** A stop and a target in a fresh group, each for the whole position, at distances of the frozen ATR. */
  function Protecting(p: Parameters, state: State, ctx: Context, atr: real): Result<(State, seq<Request>)> {
    var stop := StopPrice(p, ctx.averageEntryPrice, atr);
    var target := TargetPrice(p, ctx.averageEntryPrice, atr);
    if stop <= 0.0 then Err(NonpositiveStop)
    else
      var group := Named(state, ctx, Oco);
      var (s1, stops) :- Requesting(Counted(state), ctx, Stop, Sell, ctx.positionQuantity, StopMarket, None, Some(stop), Some(group), []);
      var (s2, targets) :- Requesting(s1, ctx, Target, Sell, ctx.positionQuantity, Limit, Some(target), None, Some(group), []);
      Ok((s2.(protection := Some((ctx.positionQuantity, ctx.averageEntryPrice))), stops + targets))
  }

  // ----- evaluation

  /** A held position without a market exit under way and without a reversal: keep or renew its protection. */
  function Defending(p: Parameters, state: State, ctx: Context, atr: real): Result<(State, seq<Request>)> {
    var buys, sells := ActiveRefs(ctx.orders, Buy), ActiveRefs(ctx.orders, Sell);
    var (s1, unbuy) := Cancelling(state, ctx, if Exited(state, ctx) then buys else [], "EXIT_STARTED");
    match FillingStop(ctx.orders)
    case Some(stop) =>
      if stop.remaining == ctx.positionQuantity then Ok((s1, unbuy))
      else
        var (s2, unsell) := Cancelling(s1, ctx, sells, "STOP_REMAINDER");
        var (s3, exit) :- MarketExit(s2, ctx, StopRemainder);
        Ok((s3, unbuy + unsell + exit))
    case None =>
      if state.protection == Some((ctx.positionQuantity, ctx.averageEntryPrice)) && |sells| == 2 then Ok((s1, unbuy))
      else
        var (s2, unsell) := Cancelling(s1, ctx, sells, "REPLACE_PROTECTION");
        var (s3, pair) :- Protecting(p, s2, ctx, atr);
        Ok((s3, unbuy + unsell + pair))
  }

  /** A position is held. */
  function Holding(p: Parameters, state: State, ctx: Context): Result<(State, seq<Request>)> {
    var buys, sells := ActiveRefs(ctx.orders, Buy), ActiveRefs(ctx.orders, Sell);
    if state.entryAtr.None? then Err(LacksEntryAtr)
    else if exists r | r in sells :: HasTag(r, Reversal) || HasTag(r, StopRemainder) then Ok((state, []))
    else if Reversing(ctx) then
      var (s1, cancels) := Cancelling(state, ctx, buys + sells, "TREND_REVERSAL");
      var (s2, exit) :- MarketExit(s1, ctx, Reversal);
      Ok((s2, cancels + exit))
    else Defending(p, state, ctx, state.entryAtr.value)
  }

  /** Nothing is held but an entry is on record: tidy up, and forget it once it can no longer fill. */
  function Finishing(state: State, ctx: Context): (State, seq<Request>)
    requires state.entryReference.Some?
  {
    var buys, sells := ActiveRefs(ctx.orders, Buy), ActiveRefs(ctx.orders, Sell);
    if !Exited(state, ctx) && buys != [] then (state, [])
    else
      var (s1, cancels) := Cancelling(state, ctx, if Exited(state, ctx) then buys + sells else sells, "POSITION_FLAT");
      if exists o | o in ctx.orders :: o.reference == state.entryReference.value then
        (s1.(entryReference := None, entryAtr := None, protection := None), cancels)
      else (s1, [])
  }

  /** Nothing is held and no entry is on record: perhaps enter. */
  function Entering(p: Parameters, state: State, ctx: Context): Result<(State, seq<Request>)> {
    if ActiveRefs(ctx.orders, Buy) != [] || ActiveRefs(ctx.orders, Sell) != [] then Ok((state, []))
    else if !(Signal(p, ctx) && state.armed && p.entryStart <= IstTimeOfDay(ctx.currentTime) <= p.lastEntry) then Ok((state, []))
    else
      var started := state.(cycle := state.cycle + 1, armed := false, entryAtr := Feature(ctx, "atr_14"), entryTime := Some(ctx.currentTime));
      var (s1, entry) :- Requesting(started, ctx, Entry, Buy, p.quantity, Market, None, None, None, REQUIRED);
      Ok((s1.(entryReference := Some(Named(started, ctx, Entry))), entry))
  }

  /** The strategy stays out once the session has ended or its exit cutoff has come. */
  predicate StandsAside(ctx: Context) {
    ctx.currentTime >= ctx.sessionClose || (ctx.executionCutoff.Some? && ctx.currentTime >= ctx.executionCutoff.value)
  }

  function Rearmed(p: Parameters, state: State, ctx: Context): State {
    if Signal(p, ctx) then state else state.(armed := true)
  }

  function Evaluation(p: Parameters, before: State, ctx: Context): Result<(State, seq<Request>)> {
    if !ctx.Valid() then Err(ContextRejected)
    else
      var state := Rearmed(p, before, ctx);
      if StandsAside(ctx) then Ok((state, []))
      else if ctx.positionQuantity != 0 then Holding(p, state, ctx)
      else if state.entryReference.Some? then Ok(Finishing(state, ctx))
      else Entering(p, state, ctx)
  }

  function PlanOf(p: Parameters): Plan<State> {
    Plan(FRESH, (state: State, ctx: Context) => Evaluation(p, state, ctx))
  }

  // ----- the object

  class BaselineTrendMomentumStrategy {
    const parameters: Parameters
    var cycle: nat
    var sequence: nat
    var entryReference: Option<Reference>
    var entryAtr: Option<real>
    var entryTime: Option<Time>
    var protection: Option<(int, real)>
    var armed: bool

    ghost function Contents(): State
      reads this
    {
      State(cycle, sequence, entryReference, entryAtr, entryTime, protection, armed)
    }

    constructor (parameters: Parameters)
      ensures this.parameters == parameters && Contents() == FRESH
    {
      this.parameters := parameters;
      cycle, sequence, entryReference, entryAtr := 0, 0, None, None;
      entryTime, protection, armed := None, None, true;
    }

    method NextReference(context: Context, tag: Tag) returns (reference: Reference)
      modifies this`sequence
      ensures Contents() == Counted(old(Contents())) && reference == Named(old(Contents()), context, tag)
    {
      sequence := sequence + 1;
      reference := Lifecycle(context.bar.symbol, cycle, tag, sequence);
    }

    method CancelOrders(context: Context, targets: seq<Reference>, reason: string) returns (requests: seq<Request>)
      modifies this`sequence
      ensures (Contents(), requests) == Cancelling(old(Contents()), context, targets, reason)
    {
      if targets == [] {
        return [];
      }
      var reference := NextReference(context, Cancel);
      requests := [Withdraw(CancelIntent(reference, context.bar.symbol, context.currentTime, context.bar.timestamp, targets, reason))];
    }

    method RequestOrder(context: Context, tag: Tag, side: Side, quantity: int, orderType: OrderType,
                        limit: Option<real>, trigger: Option<real>, group: Option<Reference>, required: seq<string>)
      returns (reply: Result<seq<Request>>)
      modifies this`sequence
      ensures match Requesting(old(Contents()), context, tag, side, quantity, orderType, limit, trigger, group, required)
              case Ok((state, requests)) => reply == Ok(requests) && Contents() == state
              case Err(error) => reply == Err(error)
    {
      var reference := NextReference(context, tag);
      var raw := RawIntent(reference, context.bar.symbol, side, quantity, orderType,
                           context.currentTime, context.bar.timestamp, limit, trigger, group, required);
      if !raw.Valid() {
        return Err(InvalidIntent);
      }
      reply := Ok([Place(raw)]);
    }

    /** Same requests, same error, same new state as the function prescribes. */
    method Evaluate(context: Context) returns (reply: Result<seq<Request>>)
      modifies this
      ensures match Evaluation(parameters, old(Contents()), context)
              case Ok((state, requests)) => reply == Ok(requests) && Contents() == state
              case Err(error) => reply == Err(error)
    {
      hide Signal, ActiveRefs, Exited, FillingStop, Reversing, Feature, HasTag, TenDecimals, IstTimeOfDay;
      if !context.Valid() {
        return Err(ContextRejected);
      }
      var signal := Signal(parameters, context);
      if !signal {
        armed := true;
      }
      if StandsAside(context) {
        return Ok([]);
      }
      if context.positionQuantity != 0 {
        reply := Hold(context);
        return;
      }
      if entryReference.Some? {
        var requests := Finish(context);
        return Ok(requests);
      }
      reply := Enter(context, signal);
    }

    method Finish(context: Context) returns (requests: seq<Request>)
      requires entryReference.Some?
      modifies this
      ensures (Contents(), requests) == Finishing(old(Contents()), context)
    {
      hide ActiveRefs, Exited;
      var buys, sells := ActiveRefs(context.orders, Buy), ActiveRefs(context.orders, Sell);
      var exited := exists o | o in context.orders ::
        o.side == Sell && o.filledQuantity > 0 && InCycle(o.reference, context.bar.symbol, cycle);
      assert exited == Exited(Contents(), context) by { ExitedUnfolds(Contents(), context); }
      if !exited && buys != [] {
        return [];
      }
      var output := CancelOrders(context, if exited then buys + sells else sells, "POSITION_FLAT");
      if !exists o | o in context.orders :: o.reference == entryReference.value {
        return [];
      }
      entryReference, entryAtr, protection := None, None, None;
      requests := output;
    }

    method Enter(context: Context, signal: bool) returns (reply: Result<seq<Request>>)
      requires signal == Signal(parameters, context)
      modifies this
      ensures match Entering(parameters, old(Contents()), context)
              case Ok((state, requests)) => reply == Ok(requests) && Contents() == state
              case Err(error) => reply == Err(error)
    {
      hide Signal, ActiveRefs, Feature, IstTimeOfDay;
      if ActiveRefs(context.orders, Buy) != [] || ActiveRefs(context.orders, Sell) != [] {
        return Ok([]);
      }
      var localTime := IstTimeOfDay(context.currentTime);
      if !(signal && armed && parameters.entryStart <= localTime <= parameters.lastEntry) {
        return Ok([]);
      }
      cycle := cycle + 1;
      armed := false;
      entryAtr := Feature(context, "atr_14");
      entryTime := Some(context.currentTime);
      ghost var started := Contents();
      reply := RequestOrder(context, Entry, Buy, parameters.quantity, Market, None, None, None, REQUIRED);
      if reply.Ok? {
        assert reply.value[0].Place? && reply.value[0].intent.reference == Named(started, context, Entry);
        entryReference := Some(reply.value[0].Ref());
      }
    }

    method Hold(context: Context) returns (reply: Result<seq<Request>>)
      modifies this
      ensures match Holding(parameters, old(Contents()), context)
              case Ok((state, requests)) => reply == Ok(requests) && Contents() == state
              case Err(error) => reply == Err(error)
    {
      hide ActiveRefs, Exited, FillingStop, Reversing, HasTag, TenDecimals, Requesting, Cancelling, Protecting;
      if entryAtr.None? {
        return Err(LacksEntryAtr);
      }
      var buys, sells := ActiveRefs(context.orders, Buy), ActiveRefs(context.orders, Sell);
      if exists r | r in sells :: HasTag(r, Reversal) || HasTag(r, StopRemainder) {
        return Ok([]);
      }
      if Reversing(context) {
        var cancels := CancelOrders(context, buys + sells, "TREND_REVERSAL");
        var exit := RequestOrder(context, Reversal, Sell, context.positionQuantity, Market, None, None, None, []);
        if exit.Err? {
          return exit;
        }
        return Ok(cancels + exit.value);
      }
      var exited := exists o | o in context.orders ::
        o.side == Sell && o.filledQuantity > 0 && InCycle(o.reference, context.bar.symbol, cycle);
      assert exited == Exited(Contents(), context) by { ExitedUnfolds(Contents(), context); }
      var output := CancelOrders(context, if exited then buys else [], "EXIT_STARTED");
      var stop := FillingStop(context.orders);
      if stop.Some? {
        if stop.value.remaining == context.positionQuantity {
          return Ok(output);
        }
        var unsell := CancelOrders(context, sells, "STOP_REMAINDER");
        var exit := RequestOrder(context, StopRemainder, Sell, context.positionQuantity, Market, None, None, None, []);
        if exit.Err? {
          return exit;
        }
        return Ok(output + unsell + exit.value);
      }
      if protection == Some((context.positionQuantity, context.averageEntryPrice)) && |sells| == 2 {
        return Ok(output);
      }
      var unsell := CancelOrders(context, sells, "REPLACE_PROTECTION");
      var pair := Protect(context);
      if pair.Err? {
        return pair;
      }
      reply := Ok(output + unsell + pair.value);
    }

    method Protect(context: Context) returns (reply: Result<seq<Request>>)
      requires entryAtr.Some?
      modifies this`sequence, this`protection
      ensures match Protecting(parameters, old(Contents()), context, old(entryAtr.value))
              case Ok((state, requests)) => reply == Ok(requests) && Contents() == state
              case Err(error) => reply == Err(error)
    {
      hide TenDecimals, Requesting;
      var stop := TenDecimals(context.averageEntryPrice - entryAtr.value * parameters.stopMultiple);
      var target := TenDecimals(context.averageEntryPrice + entryAtr.value * parameters.targetMultiple);
      if stop <= 0.0 {
        return Err(NonpositiveStop);
      }
      var group := NextReference(context, Oco);
      var stops := RequestOrder(context, Stop, Sell, context.positionQuantity, StopMarket, None, Some(stop), Some(group), []);
      if stops.Err? {
        return stops;
      }
      var targets := RequestOrder(context, Target, Sell, context.positionQuantity, Limit, Some(target), None, Some(group), []);
      if targets.Err? {
        return targets;
      }
      protection := Some((context.positionQuantity, context.averageEntryPrice));
      reply := Ok(stops.value + targets.value);
    }
  }

  lemma ExitedUnfolds(state: State, ctx: Context)
    ensures Exited(state, ctx) <==>
            exists o | o in ctx.orders :: o.side == Sell && o.filledQuantity > 0 && InCycle(o.reference, ctx.bar.symbol, state.cycle)
  {
  }
}
