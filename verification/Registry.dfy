/** The closed feature registry: parameters, and the declared look-back of every feature. */
module Registry {
  import opened Common

  /** The registered names; any other text is Unregistered. */
  datatype Name =
    | Return | LogReturn | Sma | Ema | SmaDistance | EmaSpread | Momentum | Rsi | Volatility | Atr
    | RangePct | TrueRange | VolumeChange | VolumeMean | VolumeRatio | RollingHigh | RollingLow
    | HighDistance | LowDistance | BreakoutDistance | MinutesSinceOpen | MinutesUntilClose | SessionProgress
    | Unregistered(text: string)
  {
    predicate Clock() { this in {MinutesSinceOpen, MinutesUntilClose, SessionProgress} }

    predicate Volumes() { this in {VolumeChange, VolumeMean, VolumeRatio} }

    predicate Plain() { Clock() || this in {RangePct, TrueRange, VolumeChange} }
  }

  datatype Spec = Spec(name: Name, output: string, params: map<string, int>)

  datatype Definition = Definition(name: Name, requiredLookback: nat, params: map<string, int>)

  const LONGEST := 500

  function Accepted(name: Name): set<string> {
    if name == EmaSpread then {"fast", "slow"} else if name.Plain() then {} else {"period"}
  }

  function Period(spec: Spec): int { if "period" in spec.params then spec.params["period"] else 1 }

  function Resolve(spec: Spec): Result<Definition> {
    if spec.name.Unregistered? then Err(UnknownFeature)
    else if spec.params.Keys != Accepted(spec.name) then Err(WrongParameters)
    else if exists k | k in spec.params :: !(1 <= spec.params[k] <= LONGEST) then Err(PeriodOutOfRange)
    else
      var period := Period(spec);
      match spec.name
        case EmaSpread =>
          if spec.params["fast"] >= spec.params["slow"] then Err(FastNotBeforeSlow)
          else Ok(Definition(spec.name, spec.params["slow"] - 1, spec.params))
        case Return | LogReturn | Momentum | Rsi | Atr | Volatility | BreakoutDistance =>
          Ok(Definition(spec.name, period, spec.params))
        case TrueRange | VolumeChange => Ok(Definition(spec.name, 1, spec.params))
        case _ => Ok(Definition(spec.name, if "period" in Accepted(spec.name) then period - 1 else 0, spec.params))
  }

  /** What an accepted specification is like. */
  lemma ResolvedShape(spec: Spec)
    requires Resolve(spec).Ok?
    ensures !spec.name.Unregistered? && spec.params.Keys == Accepted(spec.name) && 1 <= Period(spec) <= LONGEST
    ensures spec.name == EmaSpread ==> 1 <= spec.params["fast"] < spec.params["slow"] <= LONGEST
    ensures Resolve(spec).value.requiredLookback <= LONGEST
  {
  }
}
