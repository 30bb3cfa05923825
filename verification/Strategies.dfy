/** Strategy contracts and the per-run strategy runtime that checks every request batch. */
module Strategies {
  import opened Common
  import opened Orders
  import opened Execution
  import opened FeatureRows

  datatype OrderSnapshot = OrderSnapshot(
    reference: Reference, side: Side, status: Status, active: bool,
    filledQuantity: int, remaining: int, forced: bool)

  datatype CancelIntent = CancelIntent(
    reference: Reference, symbol: Symbol, createdAt: Time, featureTimestamp: Time,
    targets: seq<Reference>, reason: string)
  {
    /** Something to cancel, and a reason for it. */
    predicate Valid() { targets != [] && reason != "" }
  }

  datatype Request = Place(intent: TradeIntent) | Withdraw(cancel: CancelIntent)
  {
    function Ref(): Reference { match this case Place(i) => i.reference case Withdraw(c) => c.reference }

    function Symbol(): Symbol { match this case Place(i) => i.symbol case Withdraw(c) => c.symbol }

    function CreatedAt(): Time { match this case Place(i) => i.createdAt case Withdraw(c) => c.createdAt }

    function FeatureTimestamp(): Time {
      match this case Place(i) => i.featureTimestamp case Withdraw(c) => c.featureTimestamp
    }
  }

  /** What a strategy sees at the completion of a candle: nothing of other symbols, nothing later. */
  datatype Context = Context(
    currentTime: Time, bar: Bar, availableAt: Time,
    features: map<string, Option<real>>, unavailable: set<string>,
    positionQuantity: int, averageEntryPrice: real, cash: real, equity: real,
    sessionOpen: Time, sessionClose: Time, orders: seq<OrderSnapshot>, executionCutoff: Option<Time>)
  {
    predicate Valid() {
      && bar.timestamp < availableAt <= currentTime
      && sessionOpen <= bar.timestamp < sessionClose
      && currentTime <= sessionClose
    }
  }

  type Reply<S> = Result<(S, seq<Request>)>

  /** A deterministic strategy: the state of a fresh instance and one evaluation. */
  datatype Plan<!S> = Plan(initial: S, evaluate: (S, Context) -> Reply<S>)

  /** Per-symbol instances and the references used so far in the run. */
  datatype Runtime<S> = Runtime(instances: map<Symbol, S>, references: set<Reference>)

  const INTENT_LIMIT := 10000

  /** References of the symbol's orders that a cancellation may name. */
  function Known(orders: seq<OrderSnapshot>): set<Reference> {
    set o | o in orders && !o.forced :: o.reference
  }

  /** The first check a request fails: its own shape, the context, its targets, its features. */
  function Fault(ctx: Context, request: Request, references: set<Reference>): Option<Error> {
    if request.Withdraw? && !request.cancel.Valid() then Some(InvalidIntent)
    else if request.Symbol() != ctx.bar.symbol || request.CreatedAt() != ctx.currentTime
         || request.FeatureTimestamp() != ctx.bar.timestamp || request.Ref() in references
         || ctx.currentTime >= ctx.sessionClose then Some(IntentViolatesContext)
    else if request.Withdraw? && !(forall t | t in request.cancel.targets :: t in Known(ctx.orders)) then
      Some(UnknownCancelTarget)
    else if request.Place? && exists f | f in request.intent.requiredFeatures ::
         (f !in ctx.features || ctx.features[f].None?) then Some(IntentFeatureMissing)
    else None
  }

  /** The references after a whole batch, or the first fault in it. */
  function Checked(ctx: Context, requests: seq<Request>, references: set<Reference>): Result<set<Reference>> {
    if requests == [] then Ok(references)
    else
      match Fault(ctx, requests[0], references)
      case Some(error) => Err(error)
      case None => Checked(ctx, requests[1..], references + {requests[0].Ref()})
  }

  /** One evaluation: the new runtime and the batch to apply, or an error and no batch at all. */
  function Evaluated<S>(plan: Plan<S>, runtime: Runtime<S>, ctx: Context): Result<(Runtime<S>, seq<Request>)> {
    if !ctx.Valid() then Err(ContextRejected)
    else if ctx.bar.symbol !in runtime.instances then Err(UnknownSymbol)
    else
      var (state, requests) :- plan.evaluate(runtime.instances[ctx.bar.symbol], ctx);
      if |requests| + |runtime.references| > INTENT_LIMIT then Err(IntentLimitExceeded)
      else
        var references :- Checked(ctx, requests, runtime.references);
        Ok((Runtime(runtime.instances[ctx.bar.symbol := state], references), requests))
  }

  /** No request of the batch is at fault, each judged with the references of those before it. */
  ghost predicate Faultless(ctx: Context, requests: seq<Request>, references: set<Reference>) {
    forall i | 0 <= i < |requests| :: Fault(ctx, requests[i], references + Refs(requests[..i])).None?
  }

  lemma RefsStep(requests: seq<Request>, references: set<Reference>, i: nat)
    requires requests != [] && i <= |requests| - 1
    ensures references + Refs(requests[..i + 1]) == (references + {requests[0].Ref()}) + Refs(requests[1..][..i])
  {
    assert requests[..i + 1] == [requests[0]] + requests[1..][..i];
  }

  /** Judging a batch is judging its first request, and then the rest with one more reference taken. */
  lemma FaultlessStep(ctx: Context, requests: seq<Request>, references: set<Reference>)
    requires requests != []
    ensures Faultless(ctx, requests, references) <==>
            Fault(ctx, requests[0], references).None? && Faultless(ctx, requests[1..], references + {requests[0].Ref()})
  {
    hide Fault;
    var rest, grown := requests[1..], references + {requests[0].Ref()};
    assert references + Refs(requests[..0]) == references;
    forall i: nat | i < |rest|
      ensures Fault(ctx, requests[i + 1], references + Refs(requests[..i + 1])) == Fault(ctx, rest[i], grown + Refs(rest[..i]))
    {
      RefsStep(requests, references, i);
    }
    if Fault(ctx, requests[0], references).None? && Faultless(ctx, rest, grown) {
      forall i | 0 <= i < |requests|
        ensures Fault(ctx, requests[i], references + Refs(requests[..i])).None?
      {
        if i > 0 {
          assert Fault(ctx, rest[i - 1], grown + Refs(rest[..i - 1])).None?;
        }
      }
    }
    if Faultless(ctx, requests, references) {
      assert Fault(ctx, requests[0], references + Refs(requests[..0])).None?;
      forall i | 0 <= i < |rest|
        ensures Fault(ctx, rest[i], grown + Refs(rest[..i])).None?
      {
        assert Fault(ctx, requests[i + 1], references + Refs(requests[..i + 1])).None?;
      }
    }
  }

  lemma {:induction false} CheckedExact(ctx: Context, requests: seq<Request>, references: set<Reference>)
    ensures Checked(ctx, requests, references).Ok? <==> Faultless(ctx, requests, references)
    ensures Checked(ctx, requests, references).Ok? ==> Checked(ctx, requests, references).value == references + Refs(requests)
  {
    hide Fault;
    if requests != [] {
      hide Faultless;
      CheckedExact(ctx, requests[1..], references + {requests[0].Ref()});
      FaultlessStep(ctx, requests, references);
      RefsStep(requests, references, |requests| - 1);
      assert requests[..|requests|] == requests && requests[1..][..|requests| - 1] == requests[1..];
    }
  }

  /**
   * An accepted batch: the references are new, pairwise different and all recorded; each request carries the
   * context's symbol and times, before the close; cancellations name unforced orders of the symbol only.
   */
  lemma CheckedBatch(ctx: Context, requests: seq<Request>, references: set<Reference>)
    requires Checked(ctx, requests, references).Ok?
    ensures Checked(ctx, requests, references).value == references + Refs(requests)
    ensures forall i, j | 0 <= i < j < |requests| :: requests[i].Ref() != requests[j].Ref()
    ensures forall r | r in requests ::
              && r.Ref() !in references
              && r.Symbol() == ctx.bar.symbol && r.CreatedAt() == ctx.currentTime < ctx.sessionClose
              && r.FeatureTimestamp() == ctx.bar.timestamp
              && (r.Withdraw? ==> forall t | t in r.cancel.targets :: t in Known(ctx.orders))
  {
    CheckedExact(ctx, requests, references);
    forall i, j | 0 <= i < j < |requests|
      ensures requests[i].Ref() != requests[j].Ref()
    {
      assert Fault(ctx, requests[j], references + Refs(requests[..j])).None?;
      assert requests[i] in requests[..j];
    }
    forall r | r in requests
      ensures Fault(ctx, r, references).None?
    {
      var i :| 0 <= i < |requests| && requests[i] == r;
      assert Fault(ctx, requests[i], references + Refs(requests[..i])).None?;
    }
  }

  function Refs(requests: seq<Request>): set<Reference> { set r | r in requests :: r.Ref() }

  class StrategyRuntime<S(!new)> {
    const plan: Plan<S>
    var instances: map<Symbol, S>
    var references: set<Reference>

    ghost function Contents(): Runtime<S>
      reads this
    {
      Runtime(instances, references)
    }

    constructor (plan: Plan<S>, symbols: seq<Symbol>)
      ensures this.plan == plan
      ensures Contents() == Started(plan, symbols)
    {
      this.plan := plan;
      instances, references := map s | s in symbols :: plan.initial, {};
    }

    /** Evaluate, then check the whole batch before any of it is released; a rejected batch leaves the references alone. */
    method Evaluate(context: Context) returns (reply: Result<seq<Request>>)
      modifies this
      ensures match Evaluated(plan, old(Contents()), context)
              case Ok((runtime, requests)) => reply == Ok(requests) && Contents() == runtime
              case Err(error) => reply == Err(error) && references == old(references)
    {
      if !context.Valid() {
        return Err(ContextRejected);
      }
      if context.bar.symbol !in instances {
        return Err(UnknownSymbol);
      }
      var output := plan.evaluate(instances[context.bar.symbol], context);
      if output.Err? {
        return Err(output.error);
      }
      var (state, requests) := output.value;
      instances := instances[context.bar.symbol := state];
      if |requests| + |references| > INTENT_LIMIT {
        return Err(IntentLimitExceeded);
      }
      var result: seq<Request> := [];
      var grown := references;
      for i := 0 to |requests|
        invariant references == old(references) && instances == old(instances)[context.bar.symbol := state]
        invariant result == requests[..i]
        invariant Checked(context, requests[i..], grown) == Checked(context, requests, references)
      {
        assert requests[i..][1..] == requests[i + 1..];
        var fault := Fault(context, requests[i], grown);
        if fault.Some? {
          return Err(fault.value);
        }
        grown := grown + {requests[i].Ref()};
        result := result + [requests[i]];
      }
      assert requests[|requests|..] == [] && requests[..|requests|] == requests;
      references := grown;
      reply := Ok(result);
    }
  }

  function Started<S>(plan: Plan<S>, symbols: seq<Symbol>): Runtime<S> {
    Runtime(map s | s in symbols :: plan.initial, {})
  }
}
