/** The price and volume formulas, where each is defined, and that none of them looks ahead. */
module Formulas {
  import opened Common
  import opened Numerics
  import opened Registry

  /** Natural logarithm and square root stay abstract: the claims hold whatever they compute. */
  datatype Math = Math(log: real -> real, sqrt: real -> real)

  /** The columns of one run of consecutive candles. */
  datatype Columns = Columns(close: Series, high: Series, low: Series, volume: Series)
  {
    predicate SameLength() { |close| == |high| == |low| == |volume| }

    function First(k: nat): Columns
      requires SameLength() && k <= |close|
    {
      Columns(close[..k], high[..k], low[..k], volume[..k])
    }
  }

  // ----- elementwise arithmetic

  function Map1(f: real -> real, a: Series): (r: Series)
    ensures |r| == |a|
  {
    seq(|a|, i requires 0 <= i < |a| => if a[i].Some? then Some(f(a[i].value)) else None)
  }

  function Map2(f: (real, real) -> real, a: Series, b: Series): (r: Series)
    requires |a| == |b|
    ensures |r| == |a|
  {
    seq(|a|, i requires 0 <= i < |a| => if a[i].Some? && b[i].Some? then Some(f(a[i].value, b[i].value)) else None)
  }

  function Add(x: real, y: real): real { x + y }
  function Sub(x: real, y: real): real { x - y }
  function Larger(x: real, y: real): real { MaxReal(x, y) }
  function Distance(x: real, y: real): real { Abs(x - y) }
  function LessOne(x: real): real { x - 1.0 }
  function Rise(x: real): real { MaxReal(x, 0.0) }
  function Fall(x: real): real { MaxReal(-x, 0.0) }
  function Percent(x: real): real { 100.0 * x }

  predicate ZeroDivision(a: Series, b: Series)
    requires |a| == |b|
  {
    exists i | 0 <= i < |a| :: a[i].Some? && b[i] == Some(0.0)
  }

  /** A plain division raises on a zero denominator. */
  function Ratios(a: Series, b: Series): Result<Series>
    requires |a| == |b|
  {
    if ZeroDivision(a, b) then Err(NonFiniteFeature) else Ok(Divided(a, b))
  }

  function RatiosLessOne(a: Series, b: Series): Result<Series>
    requires |a| == |b|
  {
    var r :- Ratios(a, b);
    Ok(Map1(LessOne, r))
  }

  // ----- the formulas

  /** result[total == 0] = 50 */
  function Masked(result: Series, total: Series): (r: Series)
    requires |result| == |total|
    ensures |r| == |result|
  {
    seq(|result|, i requires 0 <= i < |result| => if total[i] == Some(0.0) then Some(50.0) else result[i])
  }

  function StrengthIndex(close: Series, p: nat): Series
    requires p > 0
  {
    var delta := Map2(Sub, close, Lagged(close, 1));
    var gains := Smoothed(Map1(Rise, delta), p, true, 1);
    var losses := Smoothed(Map1(Fall, delta), p, true, 1);
    var total := Map2(Add, gains, losses);
    Masked(Map1(Percent, Divided(gains, total)), total)
  }

  function TrueRanges(c: Columns): (r: Series)
    requires c.SameLength()
    ensures |r| == |c.close|
  {
    var previous := Lagged(c.close, 1);
    Map2(Larger, Map2(Sub, c.high, c.low), Map2(Larger, Map2(Distance, c.high, previous), Map2(Distance, c.low, previous)))
  }

  function PriceFormula(spec: Spec, c: Columns, m: Math): Result<Series>
    requires Resolve(spec).Ok? && c.SameLength() && !spec.name.Clock() && !spec.name.Volumes()
  {
    ResolvedShape(spec);
    var p: nat := Period(spec);
    match spec.name
    case Return => RatiosLessOne(c.close, Lagged(c.close, p))
    case LogReturn =>
      var ratio :- Ratios(c.close, Lagged(c.close, p));
      Ok(Map1(m.log, ratio))
    case Momentum => Ok(Map2(Sub, c.close, Lagged(c.close, p)))
    case Sma => Ok(Rolled(c.close, p, Mean, m.sqrt))
    case SmaDistance => RatiosLessOne(c.close, Rolled(c.close, p, Mean, m.sqrt))
    case Ema => Ok(Smoothed(c.close, p, false, 0))
    case EmaSpread =>
      Ratios(Map2(Sub, Smoothed(c.close, spec.params["fast"], false, 0), Smoothed(c.close, spec.params["slow"], false, 0)), c.close)
    case Rsi => Ok(StrengthIndex(c.close, p))
    case Volatility =>
      var simple :- RatiosLessOne(c.close, Lagged(c.close, 1));
      Ok(Rolled(simple, p, Std, m.sqrt))
    case RangePct => Ratios(Map2(Sub, c.high, c.low), c.close)
    case TrueRange => Ok(TrueRanges(c))
    case Atr => Ok(Smoothed(TrueRanges(c), p, true, 1))
    case RollingHigh => Ok(Rolled(c.high, p, Highest, m.sqrt))
    case HighDistance => RatiosLessOne(c.close, Rolled(c.high, p, Highest, m.sqrt))
    case BreakoutDistance => RatiosLessOne(c.close, Lagged(Rolled(c.high, p, Highest, m.sqrt), 1))
    case RollingLow => Ok(Rolled(c.low, p, Lowest, m.sqrt))
    case LowDistance => RatiosLessOne(c.close, Rolled(c.low, p, Lowest, m.sqrt))
  }

  function VolumeFormula(spec: Spec, volume: Series, m: Math): Series
    requires Resolve(spec).Ok? && spec.name.Volumes()
  {
    ResolvedShape(spec);
    if spec.name == VolumeChange then Map1(LessOne, Divided(volume, Lagged(volume, 1)))
    else
      var mean := Rolled(volume, Period(spec), Mean, m.sqrt);
      if spec.name == VolumeMean then mean else Divided(volume, mean)
  }

  function Calculate(spec: Spec, c: Columns, m: Math): Result<Series>
    requires Resolve(spec).Ok? && c.SameLength() && !spec.name.Clock()
  {
    if spec.name.Volumes() then Ok(VolumeFormula(spec, c.volume, m)) else PriceFormula(spec, c, m)
  }

  // ----- exactly where they are defined

  predicate Above(v: Series, floor: real) { forall i | 0 <= i < |v| :: v[i].Some? ==> v[i].value > floor }

  predicate AtLeastZero(v: Series) { forall i | 0 <= i < |v| :: v[i].Some? ==> v[i].value >= 0.0 }

  /** Prices are positive and volumes natural, as validated candles have them. */
  predicate Market(c: Columns) {
    && c.SameLength()
    && AllDefined(c.close) && AllDefined(c.high) && AllDefined(c.low) && AllDefined(c.volume)
    && Above(c.close, 0.0) && Above(c.high, 0.0) && Above(c.low, 0.0) && AtLeastZero(c.volume)
  }

  lemma {:induction false} TotalSign(v: Series)
    requires AllDefined(v) && AtLeastZero(v)
    ensures Total(v) >= 0.0
    ensures Total(v) == 0.0 <==> forall i | 0 <= i < |v| :: v[i].value == 0.0
  {
    if v != [] {
      TotalSign(v[..|v| - 1]);
    }
  }

  lemma RatioSign(a: real, b: real)
    requires a >= 0.0 && b > 0.0
    ensures Ratio(a, b) >= 0.0 && (Ratio(a, b) == 0.0 <==> a == 0.0)
  {
    assert Ratio(a, b) * b == a;
  }

  lemma MeanSign(v: Series)
    requires v != [] && AllDefined(v) && AtLeastZero(v)
    ensures MeanOf(v) >= 0.0
    ensures MeanOf(v) == 0.0 <==> forall i | 0 <= i < |v| :: v[i].value == 0.0
  {
    TotalSign(v);
    RatioSign(Total(v), |v| as real);
  }

  lemma {:induction false} ExtremesAbove(v: Series, floor: real)
    requires v != [] && AllDefined(v) && Above(v, floor)
    ensures HighestOf(v) > floor && LowestOf(v) > floor
  {
    if |v| > 1 {
      ExtremesAbove(v[..|v| - 1], floor);
    }
  }

  /** Means, highs and lows of positive windows are positive. */
  lemma RolledAbove(v: Series, p: nat, operation: Operation, sqrt: real -> real)
    requires p > 0 && Above(v, 0.0) && operation != Std
    ensures Above(Rolled(v, p, operation, sqrt), 0.0)
  {
    hide MeanOf, HighestOf, LowestOf;
    forall i: nat | i < |v| && RollAt(v, p, operation, sqrt, i).Some?
      ensures RollAt(v, p, operation, sqrt, i).value > 0.0
    {
      var window := v[i + 1 - p..i + 1];
      MeanSign(window);
      ExtremesAbove(window, 0.0);
      assert window[0].value > 0.0;
    }
  }

  lemma AboveDivides(a: Series, b: Series)
    requires |a| == |b| && Above(b, 0.0)
    ensures !ZeroDivision(a, b)
  {
  }

  lemma DividedDefined(a: Series, b: Series, from: nat)
    requires |a| == |b| && AllDefined(a) && DefinedFrom(b, from) && Above(b, 0.0)
    ensures Ratios(a, b).Ok? && |Ratios(a, b).value| == |a| && DefinedFrom(Ratios(a, b).value, from)
    ensures RatiosLessOne(a, b).Ok? && |RatiosLessOne(a, b).value| == |a| && DefinedFrom(RatiosLessOne(a, b).value, from)
  {
    hide Ratio;
  }

  lemma TrueRangesDefined(c: Columns)
    requires Market(c)
    ensures DefinedFrom(TrueRanges(c), 1)
  {
  }

  lemma {:induction false} SmoothSign(v: Series, p: nat, offset: nat, i: nat)
    requires p > 0 && i < |v| && AtLeastZero(v)
    ensures SmoothAt(v, p, true, offset, i).Some? ==> SmoothAt(v, p, true, offset, i).value >= 0.0
  {
    hide MeanOf;
    if i == offset + p - 1 {
      if AllDefined(v[offset..i + 1]) {
        MeanSign(v[offset..i + 1]);
      }
    } else if i > offset + p - 1 {
      SmoothSign(v, p, offset, i - 1);
      var earlier := SmoothAt(v, p, true, offset, i - 1);
      RatioSign(1.0, p as real);
      assert Ratio(1.0, p as real) <= 1.0 by { RatioWithin(p); }
      if v[i].Some? && earlier.Some? {
        BlendSign(Alpha(p, true), v[i].value, earlier.value);
      }
    }
  }

  lemma RatioWithin(p: nat)
    requires p > 0
    ensures 0.0 < Ratio(1.0, p as real) <= 1.0
  {
    assert Ratio(1.0, p as real) * p as real == 1.0;
  }

  lemma BlendSign(alpha: real, x: real, y: real)
    requires 0.0 <= alpha <= 1.0 && x >= 0.0 && y >= 0.0
    ensures Blend(alpha, Some(x), Some(y)).value >= 0.0
  {
    assert Product(alpha, x) >= 0.0;
    assert Product(1.0 - alpha, y) >= 0.0;
  }

  lemma SharePercent(gain: real, total: real)
    requires 0.0 <= gain <= total && total > 0.0
    ensures 0.0 <= Percent(Ratio(gain, total)) <= 100.0
  {
    assert Ratio(gain, total) * total == gain;
  }

  /** The strength index is defined from its period on, always within 0 and 100, and 50 when nothing moved. */
  lemma StrengthBounded(close: Series, p: nat)
    requires p > 0 && AllDefined(close)
    ensures |StrengthIndex(close, p)| == |close| && DefinedFrom(StrengthIndex(close, p), p)
    ensures forall i | 0 <= i < |close| && StrengthIndex(close, p)[i].Some? :: 0.0 <= StrengthIndex(close, p)[i].value <= 100.0
  {
    hide SmoothAt, Ratio;
    var delta := Map2(Sub, close, Lagged(close, 1));
    var rises, falls := Map1(Rise, delta), Map1(Fall, delta);
    assert AtLeastZero(rises);
    assert AtLeastZero(falls);
    SmoothedDefined(rises, p, true, 1);
    SmoothedDefined(falls, p, true, 1);
    var gains, losses := Smoothed(rises, p, true, 1), Smoothed(falls, p, true, 1);
    forall i: nat | i < |close| && i >= p
      ensures gains[i].value >= 0.0 && losses[i].value >= 0.0
    {
      SmoothSign(rises, p, 1, i);
      SmoothSign(falls, p, 1, i);
    }
    var total := Map2(Add, gains, losses);
    forall i | 0 <= i < |close| && StrengthIndex(close, p)[i].Some?
      ensures 0.0 <= StrengthIndex(close, p)[i].value <= 100.0
    {
      if total[i] != Some(0.0) {
        SharePercent(gains[i].value, total[i].value);
      }
    }
  }

  /** The two cases in which a volume feature has no value although its look-back is there. */
  predicate ZeroVolume(spec: Spec, volume: Series, i: nat)
    requires Resolve(spec).Ok? && i < |volume|
  {
    ResolvedShape(spec);
    || (spec.name == VolumeChange && i >= 1 && volume[i - 1] == Some(0.0))
    || (spec.name == VolumeRatio && i + 1 >= Period(spec) && forall j | i + 1 - Period(spec) <= j <= i :: volume[j] == Some(0.0))
  }

  lemma VolumeRatioDefined(volume: Series, p: nat, m: Math, i: nat)
    requires p > 0 && AllDefined(volume) && AtLeastZero(volume) && i < |volume|
    ensures Divided(volume, Rolled(volume, p, Mean, m.sqrt))[i].Some? <==>
            i + 1 >= p && !(forall j | i + 1 - p <= j <= i :: volume[j] == Some(0.0))
  {
    hide MeanOf, Ratio;
    if i + 1 >= p {
      var window := volume[i + 1 - p..i + 1];
      assert forall k | 0 <= k < p :: window[k] == volume[i + 1 - p + k];
      MeanSign(window);
      if forall k | 0 <= k < p :: window[k].value == 0.0 {
        forall j | i + 1 - p <= j <= i
          ensures volume[j] == Some(0.0)
        {
          assert window[j - (i + 1 - p)] == volume[j];
        }
      }
    }
  }

  /**
   * Look-back exactness: for every accepted specification on positive prices and non-negative volumes the calculation
   * never raises, and the result is undefined exactly before the declared look-back or for a zero volume.
   */
  lemma LookbackExact(spec: Spec, c: Columns, m: Math)
    requires Resolve(spec).Ok? && !spec.name.Clock() && Market(c)
    ensures var r := Calculate(spec, c, m);
            && r.Ok? && |r.value| == |c.close|
            && forall i: nat | i < |c.close| ::
                 r.value[i].Some? <==> i >= Resolve(spec).value.requiredLookback && !ZeroVolume(spec, c.volume, i)
  {
    hide RollAt, SmoothAt, Ratio, Market;
    ResolvedShape(spec);
    MarketParts(c);
    if spec.name.Volumes() {
      VolumesExact(spec, c, m);
    } else if spec.name in {Return, LogReturn, Momentum, Volatility, RangePct} {
      ReturnsExact(spec, c, m);
    } else if spec.name in {Ema, EmaSpread, Rsi, Atr, TrueRange} {
      SmoothsExact(spec, c, m);
    } else {
      WindowsExact(spec, c, m);
    }
  }

  lemma MarketParts(c: Columns)
    requires Market(c)
    ensures c.SameLength()
    ensures DefinedFrom(c.close, 0) && DefinedFrom(c.high, 0) && DefinedFrom(c.low, 0)
    ensures AllDefined(c.close) && AllDefined(c.high) && AllDefined(c.low) && AllDefined(c.volume)
    ensures Above(c.close, 0.0) && Above(c.high, 0.0) && Above(c.low, 0.0) && AtLeastZero(c.volume)
  {
  }

  lemma VolumesExact(spec: Spec, c: Columns, m: Math)
    requires Resolve(spec).Ok? && spec.name.Volumes() && Market(c)
    ensures var r := Calculate(spec, c, m);
            && r.Ok? && |r.value| == |c.close|
            && forall i: nat | i < |c.close| ::
                 r.value[i].Some? <==> i >= Resolve(spec).value.requiredLookback && !ZeroVolume(spec, c.volume, i)
  {
    hide RollAt, SmoothAt, Ratio;
    ResolvedShape(spec);
    if spec.name == VolumeMean {
      RolledDefined(c.volume, Period(spec), Mean, m.sqrt, 0);
    } else if spec.name == VolumeRatio {
      forall i: nat | i < |c.close|
        ensures Calculate(spec, c, m).value[i].Some? <==> i >= Resolve(spec).value.requiredLookback && !ZeroVolume(spec, c.volume, i)
      {
        VolumeRatioDefined(c.volume, Period(spec), m, i);
      }
    }
  }

  lemma ReturnsExact(spec: Spec, c: Columns, m: Math)
    requires Resolve(spec).Ok? && Market(c) && spec.name in {Return, LogReturn, Momentum, Volatility, RangePct}
    ensures Calculate(spec, c, m).Ok? && |Calculate(spec, c, m).value| == |c.close|
    ensures DefinedFrom(Calculate(spec, c, m).value, Resolve(spec).value.requiredLookback)
  {
    hide Rolled, Ratios, RatiosLessOne, Ratio, Market;
    ResolvedShape(spec);
    MarketParts(c);
    var p: nat := Period(spec);
    match spec.name {
      case Return => DividedDefined(c.close, Lagged(c.close, p), p);
      case LogReturn => DividedDefined(c.close, Lagged(c.close, p), p);
      case Momentum =>
      case Volatility =>
        DividedDefined(c.close, Lagged(c.close, 1), 1);
        RolledDefined(RatiosLessOne(c.close, Lagged(c.close, 1)).value, p, Std, m.sqrt, 1);
      case RangePct => DividedDefined(Map2(Sub, c.high, c.low), c.close, 0);
    }
  }

  lemma SmoothsExact(spec: Spec, c: Columns, m: Math)
    requires Resolve(spec).Ok? && Market(c) && spec.name in {Ema, EmaSpread, Rsi, Atr, TrueRange}
    ensures Calculate(spec, c, m).Ok? && |Calculate(spec, c, m).value| == |c.close|
    ensures DefinedFrom(Calculate(spec, c, m).value, Resolve(spec).value.requiredLookback)
  {
    hide RollAt, SmoothAt, Ratio, Market, StrengthIndex, TrueRanges;
    ResolvedShape(spec);
    MarketParts(c);
    var p: nat := Period(spec);
    match spec.name {
      case Ema => SmoothedDefined(c.close, p, false, 0);
      case EmaSpread =>
        SmoothedDefined(c.close, spec.params["fast"], false, 0);
        SmoothedDefined(c.close, spec.params["slow"], false, 0);
        SpreadDefined(Map2(Sub, Smoothed(c.close, spec.params["fast"], false, 0), Smoothed(c.close, spec.params["slow"], false, 0)),
                      c.close, spec.params["slow"] - 1);
      case Rsi => StrengthBounded(c.close, p);
      case Atr =>
        TrueRangesDefined(c);
        SmoothedDefined(TrueRanges(c), p, true, 1);
      case TrueRange => TrueRangesDefined(c);
    }
  }

  lemma SpreadDefined(a: Series, b: Series, from: nat)
    requires |a| == |b| && DefinedFrom(a, from) && AllDefined(b) && Above(b, 0.0)
    ensures Ratios(a, b).Ok? && DefinedFrom(Ratios(a, b).value, from)
  {
    hide Ratio;
  }

  lemma WindowsExact(spec: Spec, c: Columns, m: Math)
    requires Resolve(spec).Ok? && Market(c)
    requires spec.name in {Sma, SmaDistance, RollingHigh, RollingLow, HighDistance, LowDistance, BreakoutDistance}
    ensures Calculate(spec, c, m).Ok? && |Calculate(spec, c, m).value| == |c.close|
    ensures DefinedFrom(Calculate(spec, c, m).value, Resolve(spec).value.requiredLookback)
  {
    hide Rolled, Lagged, DefinedFrom, Market, Ratios, RatiosLessOne, AllDefined, Above, AtLeastZero;
    ResolvedShape(spec);
    MarketParts(c);
    var p: nat := Period(spec);
    match spec.name {
      case Sma => RolledDefined(c.close, p, Mean, m.sqrt, 0);
      case RollingHigh => RolledDefined(c.high, p, Highest, m.sqrt, 0);
      case RollingLow => RolledDefined(c.low, p, Lowest, m.sqrt, 0);
      case SmaDistance => WindowRatio(c.close, c.close, p, Mean, m);
      case HighDistance => WindowRatio(c.close, c.high, p, Highest, m);
      case LowDistance => WindowRatio(c.close, c.low, p, Lowest, m);
      case BreakoutDistance => WindowRatio(c.close, c.high, p, Highest, m);
    }
  }

  /** A price over a positive rolling value, or over that value one candle earlier. */
  lemma WindowRatio(close: Series, v: Series, p: nat, operation: Operation, m: Math)
    requires |v| == |close| && AllDefined(close) && DefinedFrom(v, 0) && Above(v, 0.0) && p > 0 && operation != Std
    ensures var r := RatiosLessOne(close, Rolled(v, p, operation, m.sqrt));
            r.Ok? && |r.value| == |close| && DefinedFrom(r.value, p - 1)
    ensures var r := RatiosLessOne(close, Lagged(Rolled(v, p, operation, m.sqrt), 1));
            r.Ok? && |r.value| == |close| && DefinedFrom(r.value, p)
  {
    hide Rolled, Lagged, DefinedFrom, Ratios, RatiosLessOne, AllDefined, Above;
    var rolled := Rolled(v, p, operation, m.sqrt);
    RolledDefined(v, p, operation, m.sqrt, 0);
    RolledAbove(v, p, operation, m.sqrt);
    DividedDefined(close, rolled, p - 1);
    LaggedDefined(rolled, 1, p - 1);
    LaggedAbove(rolled);
    DividedDefined(close, Lagged(rolled, 1), p);
  }

  lemma LaggedAbove(v: Series)
    requires Above(v, 0.0)
    ensures Above(Lagged(v, 1), 0.0)
  {
  }

  // ----- no formula looks ahead

  lemma MapCausal(f: real -> real, a: Series, k: nat)
    requires k <= |a|
    ensures Map1(f, a[..k]) == Map1(f, a)[..k]
  {
  }

  lemma Map2Causal(f: (real, real) -> real, a: Series, b: Series, k: nat)
    requires |a| == |b| && k <= |a|
    ensures Map2(f, a[..k], b[..k]) == Map2(f, a, b)[..k]
  {
  }

  lemma RatiosCausal(a: Series, b: Series, k: nat)
    requires |a| == |b| && k <= |a| && Ratios(a, b).Ok?
    ensures Ratios(a[..k], b[..k]) == Ok(Ratios(a, b).value[..k])
    ensures RatiosLessOne(a[..k], b[..k]) == Ok(RatiosLessOne(a, b).value[..k])
  {
    hide DivideAt;
    DivideCausal(a, b, k);
    MapCausal(LessOne, Ratios(a, b).value, k);
  }

  lemma StrengthCausal(close: Series, p: nat, k: nat)
    requires p > 0 && k <= |close|
    ensures |StrengthIndex(close, p)| == |close| && StrengthIndex(close[..k], p) == StrengthIndex(close, p)[..k]
  {
    hide SmoothAt, Ratio, Lagged, Map1, Map2, Divided, Smoothed;
    var delta := Map2(Sub, close, Lagged(close, 1));
    LagCausal(close, k, 1);
    Map2Causal(Sub, close, Lagged(close, 1), k);
    var gains, losses := Smoothed(Map1(Rise, delta), p, true, 1), Smoothed(Map1(Fall, delta), p, true, 1);
    MapCausal(Rise, delta, k);
    MapCausal(Fall, delta, k);
    SmoothCausal(Map1(Rise, delta), k, p, true, 1);
    SmoothCausal(Map1(Fall, delta), k, p, true, 1);
    var total := Map2(Add, gains, losses);
    Map2Causal(Add, gains, losses, k);
    DivideCausal(gains, total, k);
    MapCausal(Percent, Divided(gains, total), k);
  }

  lemma TrueRangesCausal(c: Columns, k: nat)
    requires c.SameLength() && k <= |c.close|
    ensures TrueRanges(c.First(k)) == TrueRanges(c)[..k]
  {
    hide Lagged, Map2;
    var previous := Lagged(c.close, 1);
    LagCausal(c.close, k, 1);
    Map2Causal(Sub, c.high, c.low, k);
    Map2Causal(Distance, c.high, previous, k);
    Map2Causal(Distance, c.low, previous, k);
    Map2Causal(Larger, Map2(Distance, c.high, previous), Map2(Distance, c.low, previous), k);
    Map2Causal(Larger, Map2(Sub, c.high, c.low), Map2(Larger, Map2(Distance, c.high, previous), Map2(Distance, c.low, previous)), k);
  }

  lemma RolledRatioCausal(a: Series, v: Series, k: nat, p: nat, operation: Operation, sqrt: real -> real)
    requires |a| == |v| && k <= |a| && p > 0 && Ratios(a, Rolled(v, p, operation, sqrt)).Ok?
    ensures RatiosLessOne(a[..k], Rolled(v[..k], p, operation, sqrt)) == Ok(RatiosLessOne(a, Rolled(v, p, operation, sqrt)).value[..k])
  {
    hide Rolled, Ratios, RatiosLessOne;
    RollCausal(v, k, p, operation, sqrt);
    RatiosCausal(a, Rolled(v, p, operation, sqrt), k);
  }

  /** Cutting off later candles leaves every earlier value as it was. */
  lemma CalculateCausal(spec: Spec, c: Columns, m: Math, k: nat)
    requires Resolve(spec).Ok? && !spec.name.Clock() && Market(c) && k <= |c.close|
    ensures Calculate(spec, c, m).Ok? && |Calculate(spec, c, m).value| == |c.close|
    ensures Calculate(spec, c.First(k), m) == Ok(Calculate(spec, c, m).value[..k])
  {
    hide Market, Calculate;
    LookbackExact(spec, c, m);
    MarketParts(c);
    if spec.name.Volumes() {
      VolumesCausal(spec, c, m, k);
    } else if spec.name in {Return, LogReturn, Momentum, Volatility, RangePct} {
      ReturnsCausal(spec, c, m, k);
    } else if spec.name in {Ema, EmaSpread, Rsi, Atr, TrueRange} {
      SmoothsCausal(spec, c, m, k);
    } else {
      WindowsCausal(spec, c, m, k);
    }
  }

  lemma VolumesCausal(spec: Spec, c: Columns, m: Math, k: nat)
    requires Resolve(spec).Ok? && spec.name.Volumes() && c.SameLength() && k <= |c.close|
    ensures Calculate(spec, c, m).Ok? && |Calculate(spec, c, m).value| == |c.close|
    ensures Calculate(spec, c.First(k), m) == Ok(Calculate(spec, c, m).value[..k])
  {
    hide Lagged, Rolled, Divided, Map1, Resolve;
    ResolvedShape(spec);
    var v := c.volume;
    LagCausal(v, k, 1);
    DivideCausal(v, Lagged(v, 1), k);
    MapCausal(LessOne, Divided(v, Lagged(v, 1)), k);
    RollCausal(v, k, Period(spec), Mean, m.sqrt);
    DivideCausal(v, Rolled(v, Period(spec), Mean, m.sqrt), k);
  }

  lemma ReturnsCausal(spec: Spec, c: Columns, m: Math, k: nat)
    requires Resolve(spec).Ok? && Market(c) && k <= |c.close| && spec.name in {Return, LogReturn, Momentum, Volatility, RangePct}
    requires Calculate(spec, c, m).Ok?
    ensures |Calculate(spec, c, m).value| == |c.close|
    ensures Calculate(spec, c.First(k), m) == Ok(Calculate(spec, c, m).value[..k])
  {
    hide Lagged, Rolled, Ratios, RatiosLessOne, Map1, Map2, Market, Resolve;
    ResolvedShape(spec);
    MarketParts(c);
    var p: nat := Period(spec);
    LagCausal(c.close, k, p);
    LagCausal(c.close, k, 1);
    match spec.name {
      case Return =>
        ReturnsDivide(c, p);
        RatiosCausal(c.close, Lagged(c.close, p), k);
      case LogReturn =>
        ReturnsDivide(c, p);
        RatiosCausal(c.close, Lagged(c.close, p), k);
        MapCausal(m.log, Ratios(c.close, Lagged(c.close, p)).value, k);
      case Momentum => Map2Causal(Sub, c.close, Lagged(c.close, p), k);
      case Volatility =>
        ReturnsDivide(c, 1);
        RatiosCausal(c.close, Lagged(c.close, 1), k);
        RollCausal(RatiosLessOne(c.close, Lagged(c.close, 1)).value, k, p, Std, m.sqrt);
      case RangePct =>
        Map2Causal(Sub, c.high, c.low, k);
        RangeDivides(c);
        RatiosCausal(Map2(Sub, c.high, c.low), c.close, k);
    }
  }

  lemma ReturnsDivide(c: Columns, p: nat)
    requires Market(c)
    ensures Ratios(c.close, Lagged(c.close, p)).Ok? && |Ratios(c.close, Lagged(c.close, p)).value| == |c.close|
    ensures RatiosLessOne(c.close, Lagged(c.close, p)).Ok? && |RatiosLessOne(c.close, Lagged(c.close, p)).value| == |c.close|
  {
    DividedDefined(c.close, Lagged(c.close, p), p);
  }

  lemma RangeDivides(c: Columns)
    requires Market(c)
    ensures Ratios(Map2(Sub, c.high, c.low), c.close).Ok? && |Ratios(Map2(Sub, c.high, c.low), c.close).value| == |c.close|
  {
    DividedDefined(Map2(Sub, c.high, c.low), c.close, 0);
  }

  lemma SmoothsCausal(spec: Spec, c: Columns, m: Math, k: nat)
    requires Resolve(spec).Ok? && Market(c) && k <= |c.close| && spec.name in {Ema, EmaSpread, Rsi, Atr, TrueRange}
    requires Calculate(spec, c, m).Ok? && |Calculate(spec, c, m).value| == |c.close|
    ensures Calculate(spec, c.First(k), m) == Ok(Calculate(spec, c, m).value[..k])
  {
    hide Lagged, Smoothed, Ratios, StrengthIndex, TrueRanges, Map2, Market, Resolve;
    ResolvedShape(spec);
    MarketParts(c);
    var p: nat := Period(spec);
    match spec.name {
      case Ema => SmoothCausal(c.close, k, p, false, 0);
      case EmaSpread =>
        var fast, slow := Smoothed(c.close, spec.params["fast"], false, 0), Smoothed(c.close, spec.params["slow"], false, 0);
        SmoothCausal(c.close, k, spec.params["fast"], false, 0);
        SmoothCausal(c.close, k, spec.params["slow"], false, 0);
        Map2Causal(Sub, fast, slow, k);
        RatiosCausal(Map2(Sub, fast, slow), c.close, k);
      case Rsi => StrengthCausal(c.close, p, k);
      case Atr =>
        TrueRangesCausal(c, k);
        SmoothCausal(TrueRanges(c), k, p, true, 1);
      case TrueRange => TrueRangesCausal(c, k);
    }
  }

  lemma WindowsCausal(spec: Spec, c: Columns, m: Math, k: nat)
    requires Resolve(spec).Ok? && Market(c) && k <= |c.close|
    requires spec.name in {Sma, SmaDistance, RollingHigh, RollingLow, HighDistance, LowDistance, BreakoutDistance}
    requires Calculate(spec, c, m).Ok? && |Calculate(spec, c, m).value| == |c.close|
    ensures Calculate(spec, c.First(k), m) == Ok(Calculate(spec, c, m).value[..k])
  {
    hide Lagged, Rolled, Ratios, RatiosLessOne, Market, Resolve;
    ResolvedShape(spec);
    MarketParts(c);
    var p: nat := Period(spec);
    match spec.name {
      case Sma => RollCausal(c.close, k, p, Mean, m.sqrt);
      case SmaDistance => WindowDivides(c, c.close, p, Mean, m); RolledRatioCausal(c.close, c.close, k, p, Mean, m.sqrt);
      case RollingHigh => RollCausal(c.high, k, p, Highest, m.sqrt);
      case HighDistance => WindowDivides(c, c.high, p, Highest, m); RolledRatioCausal(c.close, c.high, k, p, Highest, m.sqrt);
      case RollingLow => RollCausal(c.low, k, p, Lowest, m.sqrt);
      case LowDistance => WindowDivides(c, c.low, p, Lowest, m); RolledRatioCausal(c.close, c.low, k, p, Lowest, m.sqrt);
      case BreakoutDistance =>
        WindowDivides(c, c.high, p, Highest, m);
        RollCausal(c.high, k, p, Highest, m.sqrt);
        LagCausal(Rolled(c.high, p, Highest, m.sqrt), k, 1);
        RatiosCausal(c.close, Lagged(Rolled(c.high, p, Highest, m.sqrt), 1), k);
    }
  }

  lemma WindowDivides(c: Columns, v: Series, p: nat, operation: Operation, m: Math)
    requires Market(c) && |v| == |c.close| && Above(v, 0.0) && AllDefined(v) && p > 0 && operation != Std
    ensures Ratios(c.close, Rolled(v, p, operation, m.sqrt)).Ok?
    ensures Ratios(c.close, Lagged(Rolled(v, p, operation, m.sqrt), 1)).Ok?
  {
    hide RollAt;
    RolledAbove(v, p, operation, m.sqrt);
    AboveDivides(c.close, Rolled(v, p, operation, m.sqrt));
    AboveDivides(c.close, Lagged(Rolled(v, p, operation, m.sqrt), 1));
  }
}
