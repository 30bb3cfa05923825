/** The baseline's requests always pass the runtime's checks: fresh increasing references, right context, known targets. */
module Numbering {
  import opened Common
  import Rounding
  import opened Orders
  import opened Execution
  import opened Strategies
  import opened Baseline

  /** A request addressed to the context, with a reference numbered in (from, to]. */
  ghost predicate Addressed(r: Request, ctx: Context, from: nat, to: nat) {
    && r.Ref().Lifecycle? && r.Ref().symbol == ctx.bar.symbol && from < r.Ref().sequence <= to
    && r.Symbol() == ctx.bar.symbol && r.CreatedAt() == ctx.currentTime && r.FeatureTimestamp() == ctx.bar.timestamp
    && (r.Withdraw? ==> r.cancel.Valid() && forall t | t in r.cancel.targets :: t in Known(ctx.orders))
    && (r.Place? ==> forall f | f in r.intent.requiredFeatures :: f in ctx.features && ctx.features[f].Some?)
  }

  ghost predicate Numbered(requests: seq<Request>, ctx: Context, from: nat, to: nat) {
    && from <= to
    && (forall i | 0 <= i < |requests| :: Addressed(requests[i], ctx, from, to))
    && (forall i, j | 0 <= i < j < |requests| :: requests[i].Ref().Lifecycle? && requests[j].Ref().Lifecycle?
          && requests[i].Ref().sequence < requests[j].Ref().sequence)
  }

  lemma NumberedConcat(a: seq<Request>, b: seq<Request>, ctx: Context, from: nat, mid: nat, to: nat)
    requires Numbered(a, ctx, from, mid) && Numbered(b, ctx, mid, to)
    ensures Numbered(a + b, ctx, from, to)
  {
    forall i | 0 <= i < |a + b|
      ensures Addressed((a + b)[i], ctx, from, to)
    {
      if i < |a| {
        assert Addressed(a[i], ctx, from, mid);
      } else {
        assert Addressed(b[i - |a|], ctx, mid, to);
      }
    }
    forall i, j | 0 <= i < j < |a + b|
      ensures (a + b)[i].Ref().Lifecycle? && (a + b)[j].Ref().Lifecycle? && (a + b)[i].Ref().sequence < (a + b)[j].Ref().sequence
    {
      if i < |a| <= j {
        assert Addressed(a[i], ctx, from, mid) && Addressed(b[j - |a|], ctx, mid, to);
      }
    }
  }

  lemma {:induction false} ActiveRefsKnown(orders: seq<OrderSnapshot>, side: Side)
    ensures forall r | r in ActiveRefs(orders, side) :: r in Known(orders)
  {
    if orders != [] {
      var before := orders[..|orders| - 1];
      ActiveRefsKnown(before, side);
      forall r | r in Known(before)
        ensures r in Known(orders)
      {
        var o :| o in before && !o.forced && o.reference == r;
        assert o in orders;
      }
      assert orders[|orders| - 1] in orders;
    }
  }

  lemma CancellingNumbered(state: State, ctx: Context, targets: seq<Reference>, reason: string)
    requires reason != "" && forall t | t in targets :: t in Known(ctx.orders)
    ensures Numbered(Cancelling(state, ctx, targets, reason).1, ctx, state.sequence, Cancelling(state, ctx, targets, reason).0.sequence)
  {
  }

  lemma RequestingNumbered(state: State, ctx: Context, tag: Tag, side: Side, quantity: int, orderType: OrderType,
                           limit: Option<real>, trigger: Option<real>, group: Option<Reference>, required: seq<string>)
    requires forall f | f in required :: f in ctx.features && ctx.features[f].Some?
    ensures var e := Requesting(state, ctx, tag, side, quantity, orderType, limit, trigger, group, required);
            e.Ok? ==> Numbered(e.value.1, ctx, state.sequence, e.value.0.sequence)
  {
  }

  lemma ProtectingNumbered(p: Parameters, state: State, ctx: Context, atr: real)
    ensures var e := Protecting(p, state, ctx, atr); e.Ok? ==> Numbered(e.value.1, ctx, state.sequence, e.value.0.sequence)
  {
    hide Requesting, Numbered, Rounding.TenDecimals;
    var e := Protecting(p, state, ctx, atr);
    if e.Ok? {
      var stop := StopPrice(p, ctx.averageEntryPrice, atr);
      var target := TargetPrice(p, ctx.averageEntryPrice, atr);
      var group := Named(state, ctx, Oco);
      RequestingNumbered(Counted(state), ctx, Stop, Sell, ctx.positionQuantity, StopMarket, None, Some(stop), Some(group), []);
      var s1 := Requesting(Counted(state), ctx, Stop, Sell, ctx.positionQuantity, StopMarket, None, Some(stop), Some(group), []).value;
      RequestingNumbered(s1.0, ctx, Target, Sell, ctx.positionQuantity, Limit, Some(target), None, Some(group), []);
      var s2 := Requesting(s1.0, ctx, Target, Sell, ctx.positionQuantity, Limit, Some(target), None, Some(group), []).value;
      NumberedConcat(s1.1, s2.1, ctx, state.sequence + 1, s1.0.sequence, s2.0.sequence);
      NumberedFrom(s1.1 + s2.1, ctx, state.sequence, state.sequence + 1, s2.0.sequence);
    }
  }

  lemma NumberedFrom(requests: seq<Request>, ctx: Context, from: nat, later: nat, to: nat)
    requires Numbered(requests, ctx, later, to) && from <= later
    ensures Numbered(requests, ctx, from, to)
  {
    forall i | 0 <= i < |requests|
      ensures Addressed(requests[i], ctx, from, to)
    {
      assert Addressed(requests[i], ctx, later, to);
    }
  }

  lemma NoneNumbered(ctx: Context, from: nat, to: nat)
    requires from <= to
    ensures Numbered([], ctx, from, to)
  {
  }

  lemma DefendingNumbered(p: Parameters, state: State, ctx: Context, atr: real)
    ensures var e := Defending(p, state, ctx, atr); e.Ok? ==> Numbered(e.value.1, ctx, state.sequence, e.value.0.sequence)
  {
    hide Requesting, Cancelling, Protecting, Numbered, ActiveRefs, Exited, FillingStop, Known;
    ActiveRefsKnown(ctx.orders, Buy);
    ActiveRefsKnown(ctx.orders, Sell);
    var buys, sells := ActiveRefs(ctx.orders, Buy), ActiveRefs(ctx.orders, Sell);
    var targets := if Exited(state, ctx) then buys else [];
    CancellingNumbered(state, ctx, targets, "EXIT_STARTED");
    var (s1, unbuy) := Cancelling(state, ctx, targets, "EXIT_STARTED");
    CancellingNumbered(s1, ctx, sells, "STOP_REMAINDER");
    var (s2, unsell) := Cancelling(s1, ctx, sells, "STOP_REMAINDER");
    NumberedConcat(unbuy, unsell, ctx, state.sequence, s1.sequence, s2.sequence);
    RequestingNumbered(s2, ctx, StopRemainder, Sell, ctx.positionQuantity, Market, None, None, None, []);
    var exit := MarketExit(s2, ctx, StopRemainder);
    if exit.Ok? {
      NumberedConcat(unbuy + unsell, exit.value.1, ctx, state.sequence, s2.sequence, exit.value.0.sequence);
    }
    CancellingNumbered(s1, ctx, sells, "REPLACE_PROTECTION");
    var (t2, unprotect) := Cancelling(s1, ctx, sells, "REPLACE_PROTECTION");
    NumberedConcat(unbuy, unprotect, ctx, state.sequence, s1.sequence, t2.sequence);
    ProtectingNumbered(p, t2, ctx, atr);
    var pair := Protecting(p, t2, ctx, atr);
    if pair.Ok? {
      NumberedConcat(unbuy + unprotect, pair.value.1, ctx, state.sequence, t2.sequence, pair.value.0.sequence);
    }
  }

  lemma HoldingNumbered(p: Parameters, state: State, ctx: Context)
    ensures var e := Holding(p, state, ctx); e.Ok? ==> Numbered(e.value.1, ctx, state.sequence, e.value.0.sequence)
  {
    hide Requesting, Cancelling, Defending, Numbered, ActiveRefs, HasTag, Reversing, Known;
    ActiveRefsKnown(ctx.orders, Buy);
    ActiveRefsKnown(ctx.orders, Sell);
    NoneNumbered(ctx, state.sequence, state.sequence);
    var targets := ActiveRefs(ctx.orders, Buy) + ActiveRefs(ctx.orders, Sell);
    CancellingNumbered(state, ctx, targets, "TREND_REVERSAL");
    var (s1, cancels) := Cancelling(state, ctx, targets, "TREND_REVERSAL");
    RequestingNumbered(s1, ctx, Reversal, Sell, ctx.positionQuantity, Market, None, None, None, []);
    var exit := MarketExit(s1, ctx, Reversal);
    if exit.Ok? {
      NumberedConcat(cancels, exit.value.1, ctx, state.sequence, s1.sequence, exit.value.0.sequence);
    }
    if state.entryAtr.Some? {
      DefendingNumbered(p, state, ctx, state.entryAtr.value);
    }
  }

  lemma FinishingNumbered(state: State, ctx: Context)
    requires state.entryReference.Some?
    ensures Numbered(Finishing(state, ctx).1, ctx, state.sequence, Finishing(state, ctx).0.sequence)
  {
    hide Cancelling, Numbered, ActiveRefs, Exited, Known;
    ActiveRefsKnown(ctx.orders, Buy);
    ActiveRefsKnown(ctx.orders, Sell);
    var buys, sells := ActiveRefs(ctx.orders, Buy), ActiveRefs(ctx.orders, Sell);
    var targets := if Exited(state, ctx) then buys + sells else sells;
    CancellingNumbered(state, ctx, targets, "POSITION_FLAT");
    var s1 := Cancelling(state, ctx, targets, "POSITION_FLAT").0;
    NumberedGrows(Cancelling(state, ctx, targets, "POSITION_FLAT").1, ctx, state.sequence, s1.sequence);
    NoneNumbered(ctx, state.sequence, state.sequence);
    NoneNumbered(ctx, state.sequence, s1.sequence);
  }

  lemma NumberedGrows(requests: seq<Request>, ctx: Context, from: nat, to: nat)
    requires Numbered(requests, ctx, from, to)
    ensures from <= to
  {
  }

  lemma EnteringNumbered(p: Parameters, state: State, ctx: Context)
    ensures var e := Entering(p, state, ctx); e.Ok? ==> Numbered(e.value.1, ctx, state.sequence, e.value.0.sequence)
  {
    hide Requesting, Numbered, ActiveRefs, IstTimeOfDay;
    NoneNumbered(ctx, state.sequence, state.sequence);
    if Signal(p, ctx) {
      var started := state.(cycle := state.cycle + 1, armed := false, entryAtr := Feature(ctx, "atr_14"), entryTime := Some(ctx.currentTime));
      forall f | f in REQUIRED
        ensures f in ctx.features && ctx.features[f].Some?
      {
        assert Feature(ctx, f).Some?;
      }
      RequestingNumbered(started, ctx, Entry, Buy, p.quantity, Market, None, None, None, REQUIRED);
    }
  }

  lemma EvaluationNumbered(p: Parameters, state: State, ctx: Context)
    ensures var e := Evaluation(p, state, ctx); e.Ok? ==> Numbered(e.value.1, ctx, state.sequence, e.value.0.sequence)
  {
    hide Holding, Finishing, Entering, Numbered, Signal;
    var armed := Rearmed(p, state, ctx);
    NoneNumbered(ctx, state.sequence, state.sequence);
    HoldingNumbered(p, armed, ctx);
    if armed.entryReference.Some? {
      FinishingNumbered(armed, ctx);
    }
    EnteringNumbered(p, armed, ctx);
  }

  /** No reference of the run so far is numbered above its symbol's counter. */
  ghost predicate Bounded(references: set<Reference>, symbol: Symbol, sequence: nat) {
    forall r | r in references && r.Lifecycle? && r.symbol == symbol :: r.sequence <= sequence
  }

  /** The runtime accepts every batch of the baseline before the session's close. */
  lemma BatchAccepted(p: Parameters, state: State, ctx: Context, references: set<Reference>)
    requires Evaluation(p, state, ctx).Ok? && Bounded(references, ctx.bar.symbol, state.sequence)
    requires Evaluation(p, state, ctx).value.1 != [] ==> ctx.currentTime < ctx.sessionClose
    ensures var (later, requests) := Evaluation(p, state, ctx).value;
            && Checked(ctx, requests, references).Ok?
            && Bounded(Checked(ctx, requests, references).value, ctx.bar.symbol, later.sequence)
            && (forall r | r in Checked(ctx, requests, references).value && r !in references :: r.Lifecycle? && r.symbol == ctx.bar.symbol)
  {
    hide Evaluation, Numbered, Bounded, Checked;
    var (later, requests) := Evaluation(p, state, ctx).value;
    EvaluationNumbered(p, state, ctx);
    NumberedFaultless(ctx, requests, references, state.sequence, later.sequence);
    CheckedExact(ctx, requests, references);
    NumberedBounded(ctx, requests, references, state.sequence, later.sequence);
  }

  lemma NumberedFaultless(ctx: Context, requests: seq<Request>, references: set<Reference>, from: nat, to: nat)
    requires Numbered(requests, ctx, from, to) && Bounded(references, ctx.bar.symbol, from)
    requires requests != [] ==> ctx.currentTime < ctx.sessionClose
    ensures Faultless(ctx, requests, references)
  {
    forall i | 0 <= i < |requests|
      ensures Fault(ctx, requests[i], references + Refs(requests[..i])).None?
    {
      assert Addressed(requests[i], ctx, from, to);
      NotBefore(ctx, requests, from, to, i);
    }
  }

  lemma NotBefore(ctx: Context, requests: seq<Request>, from: nat, to: nat, i: nat)
    requires Numbered(requests, ctx, from, to) && i < |requests|
    ensures requests[i].Ref() !in Refs(requests[..i])
  {
    hide Addressed;
    forall q | q in requests[..i]
      ensures q.Ref() != requests[i].Ref()
    {
    }
  }

  lemma NumberedBounded(ctx: Context, requests: seq<Request>, references: set<Reference>, from: nat, to: nat)
    requires Numbered(requests, ctx, from, to) && Bounded(references, ctx.bar.symbol, from)
    ensures Bounded(references + Refs(requests), ctx.bar.symbol, to)
    ensures forall r | r in Refs(requests) :: r.Lifecycle? && r.symbol == ctx.bar.symbol
  {
    forall r | r in Refs(requests)
      ensures r.Lifecycle? && r.symbol == ctx.bar.symbol && r.sequence <= to
    {
      var q :| q in requests && q.Ref() == r;
      var i :| 0 <= i < |requests| && requests[i] == q;
      assert Addressed(requests[i], ctx, from, to);
    }
  }
}
