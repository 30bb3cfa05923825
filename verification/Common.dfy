/** Values shared by every module: optional values, raised errors and clock time. */
module Common {

  datatype Option<+T> = None | Some(value: T)

  /** Every exception the modelled code can raise, one constructor per message. */
  datatype Error =
    // backtesting
    | TerminalOrder
    | InvalidTurnover
    | InsufficientCash
    | ShortSelling
    | UnopenedPosition
    | DivisionByZero
    | InvalidExecutionPrice
    | MissingPrice
    | UnknownSymbol
    | NoSession
    | InvalidIntent
    | ForcedExitIncomplete
    | RunShapeRejected
    | MissingMarketData
    | MissingFeatureRows
    | DecisionFeatureUnavailable
    | DecisionOutsideSessions
    | DecisionsExclusive
    // strategies
    | FeatureLate
    | ContextRejected
    | IntentLimitExceeded
    | IntentViolatesContext
    | UnknownCancelTarget
    | IntentFeatureMissing
    | LacksEntryAtr
    | NonpositiveStop
    // features
    | UnknownFeature
    | WrongParameters
    | PeriodOutOfRange
    | FastNotBeforeSlow
    | NonFiniteFeature
    | RowRejected
    // ingestion
    | TooManyRows

  /** The outcome of an operation that can raise. */
  datatype Result<+T> = Ok(value: T) | Err(error: Error) {
    predicate IsFailure() { Err? }

    function PropagateFailure<U>(): Result<U>
      requires Err?
    {
      Err(error)
    }

    function Extract(): T
      requires Ok?
    {
      value
    }
  }

  /** Instants are microseconds since the epoch, in UTC. */
  type Time = int

  const SECOND := 1_000_000
  const MINUTE := 60 * SECOND
  const DAY := 24 * 60 * MINUTE
  /** Asia/Kolkata is UTC+05:30 all year. */
  const IST_OFFSET := 330 * MINUTE

  function IstDay(t: Time): int { (t + IST_OFFSET) / DAY }

  function IstTimeOfDay(t: Time): int { (t + IST_OFFSET) % DAY }

  /** Five and a half hours later than UTC, in microseconds: the whole days, and what is left of the last one. */
  lemma IstExact(t: Time)
    ensures 0 <= IstTimeOfDay(t) < 86_400_000_000
    ensures IstDay(t) * 86_400_000_000 + IstTimeOfDay(t) == t + 19_800_000_000
  {
    var local := t + IST_OFFSET;
    assert local == local / DAY * DAY + local % DAY;
  }

  function Min(a: int, b: int): int { if a <= b then a else b }

  function MinReal(a: real, b: real): real { if a <= b then a else b }

  function MaxReal(a: real, b: real): real { if a <= b then b else a }

  function Abs(a: real): real { if a < 0.0 then -a else a }
}
