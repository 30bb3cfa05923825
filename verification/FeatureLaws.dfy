/** What every registered feature is worth, as a law between its values and the candles', without the formulas themselves. */
module FeatureLaws {
  import opened Common
  import opened Numerics
  import opened Registry
  import opened Formulas
  import opened Execution
  import opened Calendars
  import opened FeatureRows
  import Segments

  // ----- sums, windows and smoothed series

  /** The sum of the values from an index up to another, all of them there. */
  function SumFrom(v: Series, from: nat, to: nat): real
    requires from <= to <= |v|
  {
    if from == to then 0.0 else SumFrom(v, from, to - 1) + if v[to - 1].Some? then v[to - 1].value else 0.0
  }

  /** The sum of squared distances from a centre, likewise. */
  function SquaresFrom(v: Series, centre: real, from: nat, to: nat): real
    requires from <= to <= |v|
  {
    if from == to then 0.0
    else SquaresFrom(v, centre, from, to - 1)
         + if v[to - 1].Some? then (v[to - 1].value - centre) * (v[to - 1].value - centre) else 0.0
  }

  /** Period times the value is the sum of the window of this length that ends at i. */
  ghost predicate IsMeanAt(v: Series, p: nat, i: nat, mean: real) {
    p > 0 && i < |v| && i + 1 >= p && mean * p as real == SumFrom(v, i + 1 - p, i + 1)
  }

  /** The mean squared distance from the mean of that window. */
  ghost predicate IsVarianceAt(v: Series, p: nat, i: nat, variance: real) {
    && p > 0 && i < |v| && i + 1 >= p
    && exists mean :: IsMeanAt(v, p, i, mean) && variance * p as real == SquaresFrom(v, mean, i + 1 - p, i + 1)
  }

  /** The greatest value of the window that ends at i. */
  ghost predicate IsHighestAt(v: Series, p: nat, i: nat, highest: real) {
    && i < |v| && i + 1 >= p
    && (exists j :: i + 1 - p <= j <= i && v[j] == Some(highest))
    && forall j | i + 1 - p <= j <= i :: v[j].Some? && v[j].value <= highest
  }

  ghost predicate IsLowestAt(v: Series, p: nat, i: nat, lowest: real) {
    && i < |v| && i + 1 >= p
    && (exists j :: i + 1 - p <= j <= i && v[j] == Some(lowest))
    && forall j | i + 1 - p <= j <= i :: v[j].Some? && v[j].value >= lowest
  }

  /** Seeded with the mean of the first full window from an offset, and then moved towards each value by part/whole of the way. */
  ghost predicate IsSmoothed(v: Series, p: nat, offset: nat, part: real, whole: real, s: Series) {
    && |s| == |v| && p > 0
    && (forall i: nat | i < |v| && i < offset + p - 1 :: s[i] == None)
    && (forall i: nat | i < |v| && i == offset + p - 1 :: s[i].Some? && IsMeanAt(v, p, i, s[i].value))
    && (forall i: nat | offset + p <= i < |v| :: MovesAt(v, s, i, part, whole))
  }

  ghost predicate MovesAt(v: Series, s: Series, i: nat, part: real, whole: real)
    requires |s| == |v| && 0 < i < |v|
  {
    s[i - 1].Some? && s[i].Some? && v[i].Some? && (s[i].value - s[i - 1].value) * whole == (v[i].value - s[i - 1].value) * part
  }

  /** An exponential mean moves 2/(period + 1) of the way, Wilder's 1/period. */
  ghost predicate IsEma(v: Series, p: nat, s: Series) { IsSmoothed(v, p, 0, 2.0, (p + 1) as real, s) }

  ghost predicate IsWilder(v: Series, p: nat, s: Series) { IsSmoothed(v, p, 1, 1.0, p as real, s) }

  // ----- the primitives obey them

  lemma {:induction false} TotalIsSum(v: Series, from: nat, to: nat)
    requires from <= to <= |v| && AllDefined(v[from..to])
    ensures Total(v[from..to]) == SumFrom(v, from, to)
  {
    if from < to {
      var w := v[from..to];
      assert w[..|w| - 1] == v[from..to - 1] && w[|w| - 1] == v[to - 1];
      TotalIsSum(v, from, to - 1);
    }
  }

  lemma {:induction false} SpreadIsSquares(v: Series, centre: real, from: nat, to: nat)
    requires from <= to <= |v| && AllDefined(v[from..to])
    ensures Spread(v[from..to], centre) == SquaresFrom(v, centre, from, to)
  {
    if from < to {
      var w := v[from..to];
      assert w[..|w| - 1] == v[from..to - 1] && w[|w| - 1] == v[to - 1];
      SpreadIsSquares(v, centre, from, to - 1);
    }
  }

  lemma RatioTimes(a: real, b: real)
    requires b != 0.0
    ensures Ratio(a, b) * b == a
  {
  }

  lemma MeanExact(v: Series, p: nat, i: nat)
    requires p > 0 && i < |v| && i + 1 >= p && AllDefined(v[i + 1 - p..i + 1])
    ensures IsMeanAt(v, p, i, MeanOf(v[i + 1 - p..i + 1]))
  {
    hide Ratio;
    TotalIsSum(v, i + 1 - p, i + 1);
    RatioTimes(Total(v[i + 1 - p..i + 1]), p as real);
  }

  lemma {:induction false} ExtremesExact(w: Series)
    requires w != [] && AllDefined(w)
    ensures Some(HighestOf(w)) in w && Some(LowestOf(w)) in w
    ensures forall j | 0 <= j < |w| :: LowestOf(w) <= w[j].value <= HighestOf(w)
  {
    if |w| > 1 {
      ExtremesExact(w[..|w| - 1]);
    }
  }

  lemma WindowExact(v: Series, p: nat, i: nat)
    requires p > 0 && i < |v| && i + 1 >= p && AllDefined(v[i + 1 - p..i + 1])
    ensures IsHighestAt(v, p, i, HighestOf(v[i + 1 - p..i + 1])) && IsLowestAt(v, p, i, LowestOf(v[i + 1 - p..i + 1]))
  {
    hide HighestOf, LowestOf;
    var w := v[i + 1 - p..i + 1];
    ExtremesExact(w);
    forall j | i + 1 - p <= j <= i
      ensures v[j].Some? && LowestOf(w) <= v[j].value <= HighestOf(w)
    {
      assert v[j] == w[j - (i + 1 - p)];
    }
    var a :| 0 <= a < |w| && w[a] == Some(HighestOf(w));
    var b :| 0 <= b < |w| && w[b] == Some(LowestOf(w));
    assert v[i + 1 - p + a] == Some(HighestOf(w)) && v[i + 1 - p + b] == Some(LowestOf(w));
  }

  /** One step of the recurrence moves the share alpha of the way. */
  lemma BlendMoves(alpha: real, part: real, whole: real, x: real, previous: real)
    requires alpha * whole == part
    ensures (Blend(alpha, Some(x), Some(previous)).value - previous) * whole == (x - previous) * part
  {
    var next := Product(alpha, x) + Product(1.0 - alpha, previous);
    assert next - previous == alpha * (x - previous);
    assert (alpha * (x - previous)) * whole == (alpha * whole) * (x - previous);
  }

  lemma AlphaExact(p: nat, wilder: bool)
    requires p > 0
    ensures Alpha(p, wilder) * (if wilder then p as real else (p + 1) as real) == if wilder then 1.0 else 2.0
  {
    RatioTimes(1.0, p as real);
    RatioTimes(2.0, (p + 1) as real);
    hide Ratio;
  }

  lemma SmoothStep(v: Series, p: nat, wilder: bool, offset: nat, i: nat)
    requires DefinedFrom(v, offset) && p > 0 && offset + p <= i < |v|
    ensures SmoothAt(v, p, wilder, offset, i - 1).Some? && SmoothAt(v, p, wilder, offset, i).Some? && v[i].Some?
    ensures var before, after := SmoothAt(v, p, wilder, offset, i - 1).value, SmoothAt(v, p, wilder, offset, i).value;
            if wilder then (after - before) * p as real == (v[i].value - before) * 1.0
            else (after - before) * (p + 1) as real == (v[i].value - before) * 2.0
  {
    hide Alpha, Blend, Averaged;
    SmoothDefined(v, p, wilder, offset, i - 1);
    SmoothDefined(v, p, wilder, offset, i);
    AlphaExact(p, wilder);
    var before := SmoothAt(v, p, wilder, offset, i - 1).value;
    BlendMoves(Alpha(p, wilder), if wilder then 1.0 else 2.0, if wilder then p as real else (p + 1) as real, v[i].value, before);
  }

  lemma SmoothSeed(v: Series, p: nat, wilder: bool, offset: nat)
    requires DefinedFrom(v, offset) && p > 0 && offset + p - 1 < |v|
    ensures var i := offset + p - 1;
            SmoothAt(v, p, wilder, offset, i).Some? && IsMeanAt(v, p, i, SmoothAt(v, p, wilder, offset, i).value)
  {
    hide MeanOf;
    var i := offset + p - 1;
    var w := v[offset..i + 1];
    assert AllDefined(w);
    MeanExact(v, p, i);
  }

  /** The law of the smoothed series: its seed and its recurrence. */
  lemma SmoothedExact(v: Series, p: nat, wilder: bool, offset: nat)
    requires DefinedFrom(v, offset) && p > 0
    ensures IsSmoothed(v, p, offset, if wilder then 1.0 else 2.0, if wilder then p as real else (p + 1) as real, Smoothed(v, p, wilder, offset))
  {
    hide SmoothAt, IsMeanAt, MovesAt;
    var s := Smoothed(v, p, wilder, offset);
    SmoothedDefined(v, p, wilder, offset);
    if offset + p - 1 < |v| {
      SmoothSeed(v, p, wilder, offset);
    }
    var part, whole := if wilder then 1.0 else 2.0, if wilder then p as real else (p + 1) as real;
    forall i: nat | offset + p <= i < |v|
      ensures MovesAt(v, s, i, part, whole)
    {
      SmoothMoves(v, p, wilder, offset, i);
    }
  }

  lemma SmoothMoves(v: Series, p: nat, wilder: bool, offset: nat, i: nat)
    requires DefinedFrom(v, offset) && p > 0 && offset + p <= i < |v|
    ensures MovesAt(v, Smoothed(v, p, wilder, offset), i, if wilder then 1.0 else 2.0, if wilder then p as real else (p + 1) as real)
  {
    hide SmoothAt;
    SmoothStep(v, p, wilder, offset, i);
  }

  // ----- the laws

  /** Multiplied back it gives the numerator. */
  predicate IsQuotient(q: real, a: real, b: real) { q * b == a }

  /** The changes from one value to the next, upwards and downwards; there is none at the first. */
  ghost predicate AreChanges(v: Series, rises: Series, falls: Series) {
    && |rises| == |falls| == |v|
    && (forall i: nat | i < |v| && i == 0 :: rises[i] == None && falls[i] == None)
    && forall i: nat | 0 < i < |v| && v[i].Some? && v[i - 1].Some? ::
         var change := v[i].value - v[i - 1].value;
         rises[i] == Some(if change > 0.0 then change else 0.0) && falls[i] == Some(if change < 0.0 then -change else 0.0)
  }

  ghost predicate AreReturns(v: Series, simple: Series) {
    && |simple| == |v|
    && (forall i: nat | i < |v| && i == 0 :: simple[i] == None)
    && forall i: nat | 0 < i < |v| && v[i].Some? && v[i - 1].Some? ::
         simple[i].Some? && IsQuotient(simple[i].value + 1.0, v[i].value, v[i - 1].value)
  }

  /** The greatest of the range, and the distances of its ends from the previous close. */
  ghost predicate IsTrueRangeAt(c: Columns, i: nat, x: real) {
    && c.SameLength() && 0 < i < |c.close| && c.high[i].Some? && c.low[i].Some? && c.close[i - 1].Some?
    && var high, low, previous := c.high[i].value, c.low[i].value, c.close[i - 1].value;
       && x >= high - low && x >= high - previous && x >= previous - high && x >= low - previous && x >= previous - low
       && (x == high - low || x == high - previous || x == previous - high || x == low - previous || x == previous - low)
  }

  ghost predicate AreTrueRanges(c: Columns, ranges: Series) {
    && |ranges| == |c.close|
    && forall i: nat | i < |c.close| :: if i == 0 then ranges[i] == None else ranges[i].Some? && IsTrueRangeAt(c, i, ranges[i].value)
  }

  /** The percentage that Wilder's mean rise has of the mean change either way, or fifty if there is no change. */
  ghost predicate IsStrengthAt(close: Series, p: nat, i: nat, x: real) {
    exists rises: Series, falls: Series, gains: Series, losses: Series ::
      && AreChanges(close, rises, falls) && IsWilder(rises, p, gains) && IsWilder(falls, p, losses)
      && i < |gains| == |losses| && gains[i].Some? && losses[i].Some?
      && var total := gains[i].value + losses[i].value;
         if total == 0.0 then x == 50.0 else x * total == 100.0 * gains[i].value
  }

  /** What a feature's value at a candle means. */
  ghost predicate Law(spec: Spec, c: Columns, m: Math, i: nat, x: real)
    requires Resolve(spec).Ok? && !spec.name.Clock() && Market(c) && i < |c.close|
  {
    ResolvedShape(spec);
    var close := c.close[i].value;
    var p: nat := if "period" in spec.params then spec.params["period"] else 1;
    match spec.name
    case Return => p <= i && IsQuotient(x + 1.0, close, c.close[i - p].value)
    case LogReturn => p <= i && exists q :: IsQuotient(q, close, c.close[i - p].value) && x == m.log(q)
    case Momentum => p <= i && x == close - c.close[i - p].value
    case Sma => IsMeanAt(c.close, p, i, x)
    case SmaDistance => exists mean :: IsMeanAt(c.close, p, i, mean) && IsQuotient(x + 1.0, close, mean)
    case Ema => exists s: Series :: IsEma(c.close, p, s) && s[i] == Some(x)
    case EmaSpread =>
      exists fast: Series, slow: Series ::
        && IsEma(c.close, spec.params["fast"], fast) && IsEma(c.close, spec.params["slow"], slow)
        && fast[i].Some? && slow[i].Some? && x * close == fast[i].value - slow[i].value
    case Rsi => IsStrengthAt(c.close, p, i, x)
    case Volatility =>
      exists simple: Series, variance: real ::
        AreReturns(c.close, simple) && IsVarianceAt(simple, p, i, variance) && x == m.sqrt(variance)
    case RangePct => x * close == c.high[i].value - c.low[i].value
    case TrueRange => IsTrueRangeAt(c, i, x)
    case Atr => exists ranges: Series, s: Series :: AreTrueRanges(c, ranges) && IsWilder(ranges, p, s) && s[i] == Some(x)
    case RollingHigh => IsHighestAt(c.high, p, i, x)
    case RollingLow => IsLowestAt(c.low, p, i, x)
    case HighDistance => exists highest :: IsHighestAt(c.high, p, i, highest) && IsQuotient(x + 1.0, close, highest)
    case LowDistance => exists lowest :: IsLowestAt(c.low, p, i, lowest) && IsQuotient(x + 1.0, close, lowest)
    case BreakoutDistance => i > 0 && var before: nat := i - 1; exists highest :: IsHighestAt(c.high, p, before, highest) && IsQuotient(x + 1.0, close, highest)
    case VolumeChange => i > 0 && IsQuotient(x + 1.0, c.volume[i].value, c.volume[i - 1].value)
    case VolumeMean => IsMeanAt(c.volume, p, i, x)
    case VolumeRatio => exists mean :: IsMeanAt(c.volume, p, i, mean) && IsQuotient(x, c.volume[i].value, mean)
  }

  // ----- element by element

  lemma LaggedAt(v: Series, p: nat, i: nat)
    requires i < |v|
    ensures Lagged(v, p)[i] == if i < p then None else v[i - p]
  {
  }

  lemma DividedAt(a: Series, b: Series, i: nat)
    requires |a| == |b| && i < |a|
    ensures Divided(a, b)[i].Some? ==> a[i].Some? && b[i].Some? && IsQuotient(Divided(a, b)[i].value, a[i].value, b[i].value)
    ensures Divided(a, b)[i] == DivideAt(a[i], b[i])
  {
    if DivideAt(a[i], b[i]).Some? {
      RatioTimes(a[i].value, b[i].value);
    }
  }

  lemma MinusOneAt(a: Series, b: Series, i: nat)
    requires |a| == |b| && i < |a| && RatiosLessOne(a, b).Ok?
    ensures |RatiosLessOne(a, b).value| == |a| && (RatiosLessOne(a, b).value[i].Some? <==> Divided(a, b)[i].Some?)
    ensures RatiosLessOne(a, b).value[i].Some? ==>
              a[i].Some? && b[i].Some? && IsQuotient(RatiosLessOne(a, b).value[i].value + 1.0, a[i].value, b[i].value)
  {
    hide ZeroDivision, Divided, Map1, IsQuotient;
    assert RatiosLessOne(a, b).value == Map1(LessOne, Divided(a, b));
    DividedAt(a, b, i);
    Map1At(LessOne, Divided(a, b), i);
  }

  lemma Map2At(f: (real, real) -> real, a: Series, b: Series, i: nat)
    requires |a| == |b| && i < |a|
    ensures Map2(f, a, b)[i] == if a[i].Some? && b[i].Some? then Some(f(a[i].value, b[i].value)) else None
  {
  }

  lemma Map1At(f: real -> real, a: Series, i: nat)
    requires i < |a|
    ensures Map1(f, a)[i] == if a[i].Some? then Some(f(a[i].value)) else None
  {
  }

  lemma RolledAt(v: Series, p: nat, operation: Operation, sqrt: real -> real, i: nat)
    requires p > 0 && i < |v| && Rolled(v, p, operation, sqrt)[i].Some?
    ensures i + 1 >= p && AllDefined(v[i + 1 - p..i + 1])
    ensures match operation
            case Mean => IsMeanAt(v, p, i, Rolled(v, p, operation, sqrt)[i].value)
            case Highest => IsHighestAt(v, p, i, Rolled(v, p, operation, sqrt)[i].value)
            case Lowest => IsLowestAt(v, p, i, Rolled(v, p, operation, sqrt)[i].value)
            case Std => true
  {
    assert Rolled(v, p, operation, sqrt)[i] == RollAt(v, p, operation, sqrt, i);
    hide MeanOf, HighestOf, LowestOf, IsMeanAt, IsHighestAt, IsLowestAt, Spread;
    MeanExact(v, p, i);
    WindowExact(v, p, i);
  }

  lemma PercentTimes(q: real, b: real, a: real)
    requires IsQuotient(q, a, b)
    ensures Percent(q) * b == 100.0 * a
  {
    assert (100.0 * q) * b == 100.0 * (q * b);
  }

  /** The strength index at a candle, from the smoothed gains and losses there. */
  lemma StrengthAt(gains: Series, losses: Series, i: nat)
    requires |gains| == |losses| && i < |gains|
    ensures var total := Map2(Add, gains, losses);
            var x := Masked(Map1(Percent, Divided(gains, total)), total)[i];
            x.Some? ==> && gains[i].Some? && losses[i].Some?
                        && if gains[i].value + losses[i].value == 0.0 then x.value == 50.0
                           else x.value * (gains[i].value + losses[i].value) == 100.0 * gains[i].value
  {
    var total := Map2(Add, gains, losses);
    var shares := Divided(gains, total);
    Map2At(Add, gains, losses, i);
    DividedAt(gains, total, i);
    Map1At(Percent, shares, i);
    MaskedAt(Map1(Percent, shares), total, i);
    hide Masked, Map1, Map2, Divided;
    if shares[i].Some? {
      PercentTimes(shares[i].value, total[i].value, gains[i].value);
    }
  }

  lemma MaskedAt(v: Series, total: Series, i: nat)
    requires |v| == |total| && i < |v|
    ensures Masked(v, total)[i] == if total[i] == Some(0.0) then Some(50.0) else v[i]
  {
  }

  lemma ChangesExact(close: Series)
    requires AllDefined(close)
    ensures var delta := Map2(Sub, close, Lagged(close, 1));
            AreChanges(close, Map1(Rise, delta), Map1(Fall, delta)) && DefinedFrom(Map1(Rise, delta), 1) && DefinedFrom(Map1(Fall, delta), 1)
  {
    var delta := Map2(Sub, close, Lagged(close, 1));
    forall i: nat | i < |close|
      ensures delta[i] == if i == 0 then None else Some(close[i].value - close[i - 1].value)
    {
      LaggedAt(close, 1, i);
      Map2At(Sub, close, Lagged(close, 1), i);
    }
    assert |delta| == |close|;
    hide Map2, Lagged;
    forall i: nat | i < |close|
      ensures Map1(Rise, delta)[i] == if delta[i].Some? then Some(Rise(delta[i].value)) else None
      ensures Map1(Fall, delta)[i] == if delta[i].Some? then Some(Fall(delta[i].value)) else None
    {
      Map1At(Rise, delta, i);
      Map1At(Fall, delta, i);
    }
    hide Map1;
  }

  lemma SimpleReturns(close: Series)
    requires AllDefined(close) && Above(close, 0.0)
    ensures RatiosLessOne(close, Lagged(close, 1)).Ok? && AreReturns(close, RatiosLessOne(close, Lagged(close, 1)).value)
  {
    var before := Lagged(close, 1);
    forall i: nat | i < |close|
      ensures before[i] == if i == 0 then None else close[i - 1]
    {
      LaggedAt(close, 1, i);
    }
    AboveDivides(close, before);
    hide Lagged;
    var simple := RatiosLessOne(close, before).value;
    forall i: nat | i < |close|
      ensures simple[i].Some? <==> i > 0
      ensures i > 0 ==> IsQuotient(simple[i].value + 1.0, close[i].value, close[i - 1].value)
    {
      MinusOneAt(close, before, i);
      DividedAt(close, before, i);
    }
  }

  lemma TrueRangesExact(c: Columns)
    requires Market(c)
    ensures AreTrueRanges(c, TrueRanges(c))
  {
    var previous := Lagged(c.close, 1);
    var spans, ups, downs := Map2(Sub, c.high, c.low), Map2(Distance, c.high, previous), Map2(Distance, c.low, previous);
    var outer := Map2(Larger, ups, downs);
    forall i: nat | i < |c.close|
      ensures if i == 0 then TrueRanges(c)[i] == None else TrueRanges(c)[i].Some? && IsTrueRangeAt(c, i, TrueRanges(c)[i].value)
    {
      LaggedAt(c.close, 1, i);
      Map2At(Sub, c.high, c.low, i);
      Map2At(Distance, c.high, previous, i);
      Map2At(Distance, c.low, previous, i);
      Map2At(Larger, ups, downs, i);
      Map2At(Larger, spans, outer, i);
      hide Map2, Lagged;
    }
  }

  lemma DeviationAt(v: Series, p: nat, sqrt: real -> real, i: nat) returns (variance: real)
    requires p > 0 && i < |v| && Rolled(v, p, Std, sqrt)[i].Some?
    ensures IsVarianceAt(v, p, i, variance) && Rolled(v, p, Std, sqrt)[i].value == sqrt(variance)
  {
    assert Rolled(v, p, Std, sqrt)[i] == RollAt(v, p, Std, sqrt, i);
    hide MeanOf, IsMeanAt, Ratio;
    var w := v[i + 1 - p..i + 1];
    MeanExact(v, p, i);
    var mean := MeanOf(w);
    SpreadIsSquares(v, mean, i + 1 - p, i + 1);
    variance := Ratio(Spread(w, mean), |w| as real);
    RatioTimes(Spread(w, mean), p as real);
  }

  // ----- feature by feature

  lemma LaggedLaw(spec: Spec, c: Columns, m: Math, i: nat)
    requires Resolve(spec).Ok? && Market(c) && i < |c.close| && spec.name in {Return, LogReturn, Momentum}
    requires Calculate(spec, c, m).Ok? && |Calculate(spec, c, m).value| == |c.close| && Calculate(spec, c, m).value[i].Some?
    ensures Law(spec, c, m, i, Calculate(spec, c, m).value[i].value)
  {
    hide Lagged, Ratios, RatiosLessOne, Divided, Map1, Map2, Market, Resolve, IsQuotient;
    ResolvedShape(spec);
    MarketParts(c);
    var p: nat := Period(spec);
    LaggedAt(c.close, p, i);
    match spec.name {
      case Return => MinusOneAt(c.close, Lagged(c.close, p), i);
      case LogReturn =>
        QuotientsAt(c.close, Lagged(c.close, p), i);
        Map1At(m.log, Ratios(c.close, Lagged(c.close, p)).value, i);
      case Momentum => Map2At(Sub, c.close, Lagged(c.close, p), i);
    }
  }

  lemma QuotientsAt(a: Series, b: Series, i: nat)
    requires |a| == |b| && i < |a| && Ratios(a, b).Ok?
    ensures |Ratios(a, b).value| == |a|
    ensures Ratios(a, b).value[i].Some? ==> a[i].Some? && b[i].Some? && IsQuotient(Ratios(a, b).value[i].value, a[i].value, b[i].value)
  {
    hide ZeroDivision, Divided, IsQuotient;
    DividedAt(a, b, i);
  }

  lemma WindowLaw(spec: Spec, c: Columns, m: Math, i: nat)
    requires Resolve(spec).Ok? && Market(c) && i < |c.close| && spec.name in {Sma, RollingHigh, RollingLow, VolumeMean}
    requires Calculate(spec, c, m).Ok? && |Calculate(spec, c, m).value| == |c.close| && Calculate(spec, c, m).value[i].Some?
    ensures Law(spec, c, m, i, Calculate(spec, c, m).value[i].value)
  {
    hide Rolled, Market, Resolve, IsMeanAt, IsHighestAt, IsLowestAt;
    ResolvedShape(spec);
    MarketParts(c);
    var p: nat := Period(spec);
    match spec.name {
      case Sma => RolledAt(c.close, p, Mean, m.sqrt, i);
      case RollingHigh => RolledAt(c.high, p, Highest, m.sqrt, i);
      case RollingLow => RolledAt(c.low, p, Lowest, m.sqrt, i);
      case VolumeMean => RolledAt(c.volume, p, Mean, m.sqrt, i);
    }
  }

  /** A price over a window's value there, less one. */
  lemma DistanceAt(close: Series, v: Series, p: nat, operation: Operation, m: Math, i: nat) returns (x: real)
    requires |v| == |close| && p > 0 && i < |v|
    requires RatiosLessOne(close, Rolled(v, p, operation, m.sqrt)).Ok?
    requires |RatiosLessOne(close, Rolled(v, p, operation, m.sqrt)).value| == |v|
    requires RatiosLessOne(close, Rolled(v, p, operation, m.sqrt)).value[i].Some?
    ensures close[i].Some? && IsQuotient(RatiosLessOne(close, Rolled(v, p, operation, m.sqrt)).value[i].value + 1.0, close[i].value, x)
    ensures operation == Mean ==> IsMeanAt(v, p, i, x)
    ensures operation == Highest ==> IsHighestAt(v, p, i, x)
    ensures operation == Lowest ==> IsLowestAt(v, p, i, x)
  {
    hide Rolled, RatiosLessOne, Divided, IsMeanAt, IsHighestAt, IsLowestAt, IsQuotient;
    MinusOneAt(close, Rolled(v, p, operation, m.sqrt), i);
    RolledAt(v, p, operation, m.sqrt, i);
    x := Rolled(v, p, operation, m.sqrt)[i].value;
  }

  lemma DistanceLaw(spec: Spec, c: Columns, m: Math, i: nat)
    requires Resolve(spec).Ok? && Market(c) && i < |c.close| && spec.name in {SmaDistance, HighDistance, LowDistance}
    requires Calculate(spec, c, m).Ok? && |Calculate(spec, c, m).value| == |c.close| && Calculate(spec, c, m).value[i].Some?
    ensures Law(spec, c, m, i, Calculate(spec, c, m).value[i].value)
  {
    hide Rolled, RatiosLessOne, Market, Resolve, IsMeanAt, IsHighestAt, IsLowestAt, IsQuotient;
    ResolvedShape(spec);
    MarketParts(c);
    var p: nat := Period(spec);
    match spec.name {
      case SmaDistance => var x := DistanceAt(c.close, c.close, p, Mean, m, i);
      case HighDistance => var x := DistanceAt(c.close, c.high, p, Highest, m, i);
      case LowDistance => var x := DistanceAt(c.close, c.low, p, Lowest, m, i);
    }
  }

  lemma BreakoutLaw(spec: Spec, c: Columns, m: Math, i: nat)
    requires Resolve(spec).Ok? && Market(c) && i < |c.close| && spec.name == BreakoutDistance
    requires Calculate(spec, c, m).Ok? && |Calculate(spec, c, m).value| == |c.close| && Calculate(spec, c, m).value[i].Some?
    ensures Law(spec, c, m, i, Calculate(spec, c, m).value[i].value)
  {
    hide Rolled, Lagged, RatiosLessOne, Divided, Market, Resolve, IsHighestAt, IsQuotient;
    ResolvedShape(spec);
    MarketParts(c);
    var p: nat := Period(spec);
    var rolled := Rolled(c.high, p, Highest, m.sqrt);
    MinusOneAt(c.close, Lagged(rolled, 1), i);
    LaggedAt(rolled, 1, i);
    RolledAt(c.high, p, Highest, m.sqrt, i - 1);
  }

  lemma VolumeLaw(spec: Spec, c: Columns, m: Math, i: nat)
    requires Resolve(spec).Ok? && Market(c) && i < |c.close| && spec.name in {VolumeChange, VolumeRatio}
    requires Calculate(spec, c, m).Ok? && |Calculate(spec, c, m).value| == |c.close| && Calculate(spec, c, m).value[i].Some?
    ensures Law(spec, c, m, i, Calculate(spec, c, m).value[i].value)
  {
    hide Rolled, Lagged, Divided, Map1, Market, Resolve, IsMeanAt, IsQuotient;
    ResolvedShape(spec);
    MarketParts(c);
    var p: nat := Period(spec);
    match spec.name {
      case VolumeChange =>
        Map1At(LessOne, Divided(c.volume, Lagged(c.volume, 1)), i);
        DividedAt(c.volume, Lagged(c.volume, 1), i);
        LaggedAt(c.volume, 1, i);
      case VolumeRatio =>
        DividedAt(c.volume, Rolled(c.volume, p, Mean, m.sqrt), i);
        RolledAt(c.volume, p, Mean, m.sqrt, i);
    }
  }

  lemma EmaLaw(spec: Spec, c: Columns, m: Math, i: nat)
    requires Resolve(spec).Ok? && Market(c) && i < |c.close| && spec.name == Ema
    requires Calculate(spec, c, m).Ok? && |Calculate(spec, c, m).value| == |c.close| && Calculate(spec, c, m).value[i].Some?
    ensures Law(spec, c, m, i, Calculate(spec, c, m).value[i].value)
  {
    hide Smoothed, Market, Resolve, IsSmoothed;
    ResolvedShape(spec);
    MarketParts(c);
    SmoothedExact(c.close, Period(spec), false, 0);
    assert IsEma(c.close, Period(spec), Smoothed(c.close, Period(spec), false, 0));
  }

  lemma SpreadLaw(spec: Spec, c: Columns, m: Math, i: nat)
    requires Resolve(spec).Ok? && Market(c) && i < |c.close| && spec.name == EmaSpread
    requires Calculate(spec, c, m).Ok? && |Calculate(spec, c, m).value| == |c.close| && Calculate(spec, c, m).value[i].Some?
    ensures Law(spec, c, m, i, Calculate(spec, c, m).value[i].value)
  {
    hide Smoothed, Ratios, Map2, Market, Resolve, IsSmoothed;
    ResolvedShape(spec);
    MarketParts(c);
    var p, q: nat := spec.params["fast"], spec.params["slow"];
    var fast, slow := Smoothed(c.close, p, false, 0), Smoothed(c.close, q, false, 0);
    SmoothedExact(c.close, p, false, 0);
    SmoothedExact(c.close, q, false, 0);
    assert IsEma(c.close, p, fast) && IsEma(c.close, q, slow);
    QuotientsAt(Map2(Sub, fast, slow), c.close, i);
    Map2At(Sub, fast, slow, i);
  }

  lemma StrengthExact(close: Series, p: nat, i: nat)
    requires p > 0 && AllDefined(close) && i < |close| && |StrengthIndex(close, p)| == |close| && StrengthIndex(close, p)[i].Some?
    ensures IsStrengthAt(close, p, i, StrengthIndex(close, p)[i].value)
  {
    hide Smoothed, Masked, Divided, Map1, Map2, Lagged, IsWilder, AreChanges;
    var delta := Map2(Sub, close, Lagged(close, 1));
    var rises, falls := Map1(Rise, delta), Map1(Fall, delta);
    ChangesExact(close);
    var gains, losses := Smoothed(rises, p, true, 1), Smoothed(falls, p, true, 1);
    WilderExact(rises, p);
    WilderExact(falls, p);
    StrengthAt(gains, losses, i);
  }

  lemma WilderExact(v: Series, p: nat)
    requires DefinedFrom(v, 1) && p > 0
    ensures IsWilder(v, p, Smoothed(v, p, true, 1))
  {
    hide Smoothed, IsSmoothed;
    SmoothedExact(v, p, true, 1);
  }

  lemma StrengthLaw(spec: Spec, c: Columns, m: Math, i: nat)
    requires Resolve(spec).Ok? && Market(c) && i < |c.close| && spec.name == Rsi
    requires Calculate(spec, c, m).Ok? && |Calculate(spec, c, m).value| == |c.close| && Calculate(spec, c, m).value[i].Some?
    ensures Law(spec, c, m, i, Calculate(spec, c, m).value[i].value)
  {
    hide StrengthIndex, Market, Resolve, IsStrengthAt;
    ResolvedShape(spec);
    MarketParts(c);
    StrengthExact(c.close, Period(spec), i);
  }

  lemma VolatilityLaw(spec: Spec, c: Columns, m: Math, i: nat)
    requires Resolve(spec).Ok? && Market(c) && i < |c.close| && spec.name == Volatility
    requires Calculate(spec, c, m).Ok? && |Calculate(spec, c, m).value| == |c.close| && Calculate(spec, c, m).value[i].Some?
    ensures Law(spec, c, m, i, Calculate(spec, c, m).value[i].value)
  {
    hide Rolled, RatiosLessOne, Lagged, Market, Resolve, IsVarianceAt, AreReturns;
    ResolvedShape(spec);
    MarketParts(c);
    SimpleReturns(c.close);
    var simple := RatiosLessOne(c.close, Lagged(c.close, 1)).value;
    var variance := DeviationAt(simple, Period(spec), m.sqrt, i);
  }

  lemma RangeLaw(spec: Spec, c: Columns, m: Math, i: nat)
    requires Resolve(spec).Ok? && Market(c) && i < |c.close| && spec.name in {RangePct, TrueRange, Atr}
    requires Calculate(spec, c, m).Ok? && |Calculate(spec, c, m).value| == |c.close| && Calculate(spec, c, m).value[i].Some?
    ensures Law(spec, c, m, i, Calculate(spec, c, m).value[i].value)
  {
    hide Smoothed, Ratios, Map2, TrueRanges, Market, Resolve, IsWilder, IsTrueRangeAt, DefinedFrom;
    ResolvedShape(spec);
    MarketParts(c);
    var p: nat := Period(spec);
    TrueRangesExact(c);
    match spec.name {
      case RangePct =>
        QuotientsAt(Map2(Sub, c.high, c.low), c.close, i);
        Map2At(Sub, c.high, c.low, i);
      case TrueRange =>
      case Atr =>
        TrueRangesDefined(c);
        WilderExact(TrueRanges(c), p);
    }
  }

  /** Every defined value of every registered formula obeys its law. */
  lemma FeatureExact(spec: Spec, c: Columns, m: Math, i: nat)
    requires Resolve(spec).Ok? && !spec.name.Clock() && Market(c) && i < |c.close|
    ensures Calculate(spec, c, m).Ok? && |Calculate(spec, c, m).value| == |c.close|
    ensures Calculate(spec, c, m).value[i].Some? ==> Law(spec, c, m, i, Calculate(spec, c, m).value[i].value)
  {
    hide Law, Calculate, Market, ZeroVolume;
    LookbackExact(spec, c, m);
    ResolvedShape(spec);
    MarketParts(c);
    if Calculate(spec, c, m).value[i].Some? {
      match spec.name {
        case Return | LogReturn | Momentum => LaggedLaw(spec, c, m, i);
        case Sma | RollingHigh | RollingLow | VolumeMean => WindowLaw(spec, c, m, i);
        case SmaDistance | HighDistance | LowDistance => DistanceLaw(spec, c, m, i);
        case BreakoutDistance => BreakoutLaw(spec, c, m, i);
        case VolumeChange | VolumeRatio => VolumeLaw(spec, c, m, i);
        case Ema => EmaLaw(spec, c, m, i);
        case EmaSpread => SpreadLaw(spec, c, m, i);
        case Rsi => StrengthLaw(spec, c, m, i);
        case Volatility => VolatilityLaw(spec, c, m, i);
        case RangePct | TrueRange | Atr => RangeLaw(spec, c, m, i);
      }
    }
  }

  // ----- the rows that are published

  /** The session's clock features, in minutes of sixty million microseconds and as a share of the session. */
  predicate ClockLaw(name: Name, t: Time, s: Session, x: real) {
    match name
    case MinutesSinceOpen => x * 60_000_000.0 == (t - s.opens) as real
    case MinutesUntilClose => x * 60_000_000.0 == (s.closes - t) as real
    case _ => x * (s.closes - s.opens) as real == (t - s.opens) as real
  }

  lemma MinutesTimes(span: Time)
    ensures Segments.Minutes(span) * 60_000_000.0 == span as real
  {
    RatioTimes(span as real, MINUTE as real);
  }

  lemma ClockExact(name: Name, t: Time, s: Session)
    requires name.Clock() && Segments.ClockValue(name, t, s).Some?
    ensures ClockLaw(name, t, s, Segments.ClockValue(name, t, s).value)
  {
    hide Ratio, Segments.Minutes;
    MinutesTimes(t - s.opens);
    MinutesTimes(s.closes - t);
    var since, until := Segments.Minutes(t - s.opens), Segments.Minutes(s.closes - t);
    if name == SessionProgress {
      RatioTimes(since, since + until);
      var x := Ratio(since, since + until);
      assert x * ((since + until) * 60_000_000.0) == (x * (since + until)) * 60_000_000.0;
    }
  }

  /** The columns hold the candles' values, in order. */
  ghost predicate Shows(run: seq<SnapshotBar>, c: Columns) {
    && |c.close| == |c.high| == |c.low| == |c.volume| == |run|
    && forall j: nat | j < |run| ::
         && c.close[j] == Some(run[j].bar.close) && c.high[j] == Some(run[j].bar.high)
         && c.low[j] == Some(run[j].bar.low) && c.volume[j] == Some(run[j].bar.volume as real)
  }

  /** What a published value means, for the candles of its run. */
  ghost predicate Means(setup: Segments.Setup, spec: Spec, run: seq<SnapshotBar>, i: nat, x: real)
    requires Resolve(spec).Ok? && i < |run| && Segments.AllAligned(setup, run)
  {
    assert Segments.Aligned(setup, run[i]);
    if spec.name.Clock() then ClockLaw(spec.name, run[i].bar.timestamp, setup.sessions[run[i].bar.timestamp], x)
    else exists c: Columns :: Shows(run, c) && Market(c) && Law(spec, c, setup.math, i, x)
  }

  lemma CellMeans(setup: Segments.Setup, spec: Spec, run: seq<SnapshotBar>, i: nat, gap: bool)
    requires Resolve(spec).Ok? && i < |run| && Segments.AllAligned(setup, run)
    ensures var values := Segments.SpecSeries(setup, spec, run);
            && values.Ok?
            && var cell := Segments.CellOf(spec, run, values.value, i, gap);
               cell.Ok? && (cell.value.value.Some? ==> Means(setup, spec, run, i, cell.value.value.value))
  {
    hide Calculate, ZeroVolume, Resolve, Law, ClockLaw, Segments.ClockValue, Market;
    Segments.CellExact(setup, spec, run, i, gap);
    Segments.RunMarket(run);
    assert Segments.Aligned(setup, run[i]);
    var c := Segments.ColumnsOf(run);
    if spec.name.Clock() {
      var t := run[i].bar.timestamp;
      if Segments.ClockValue(spec.name, t, setup.sessions[t]).Some? {
        ClockExact(spec.name, t, setup.sessions[t]);
      }
    } else {
      FeatureExact(spec, c, setup.math, i);
      assert Shows(run, c);
    }
  }

  ghost predicate AllMean(setup: Segments.Setup, specs: seq<Spec>, run: seq<SnapshotBar>, i: nat, values: map<string, Option<real>>)
    requires i < |run| && Segments.AllAligned(setup, run) && forall s | 0 <= s < |specs| :: Resolve(specs[s]).Ok?
  {
    forall s | 0 <= s < |specs| ::
      && specs[s].output in values
      && (values[specs[s].output].Some? ==> Means(setup, specs[s], run, i, values[specs[s].output].value))
  }

  lemma {:induction false} FillMeans(setup: Segments.Setup, specs: seq<Spec>, run: seq<SnapshotBar>, i: nat, gap: bool)
    requires i < |run| && Segments.AllAligned(setup, run) && forall s | 0 <= s < |specs| :: Resolve(specs[s]).Ok?
    requires forall s, u | 0 <= s < u < |specs| :: specs[s].output != specs[u].output
    ensures Segments.Fill(setup, specs, run, i, gap).Ok?
    ensures AllMean(setup, specs, run, i, Segments.Fill(setup, specs, run, i, gap).value.0)
  {
    hide Resolve, Segments.SpecSeries, Segments.CellOf, Segments.AllAligned, Means;
    if specs != [] {
      var n := |specs| - 1;
      FillMeans(setup, specs[..n], run, i, gap);
      CellMeans(setup, specs[n], run, i, gap);
      var before := Segments.Fill(setup, specs[..n], run, i, gap).value.0;
      var after := Segments.Fill(setup, specs, run, i, gap).value.0;
      forall s | 0 <= s < |specs|
        ensures specs[s].output in after
        ensures after[specs[s].output].Some? ==> Means(setup, specs[s], run, i, after[specs[s].output].value)
      {
        if s < n {
          assert specs[..n][s] == specs[s];
          assert specs[s].output in before;
        }
      }
    }
  }

  /**
   * Every published row copies its candle's symbol, times and close, and whatever it has a value for obeys its feature's
   * law on the candles of its own run; its history is sufficient exactly while nothing warms up.
   */
  lemma RowMeans(setup: Segments.Setup, run: seq<SnapshotBar>, i: nat, gap: bool)
    requires setup.Accepted() && i < |run| && Segments.AllAligned(setup, run)
    ensures var r := Segments.SegmentRow(setup, run, i, gap);
            && r.Ok? && AllMean(setup, setup.specs, run, i, r.value.values)
            && r.value.symbol == run[i].bar.symbol && r.value.timestamp == run[i].bar.timestamp
            && r.value.availableAt == run[i].availableAt && r.value.close == run[i].bar.close
            && (r.value.sufficientHistory <==> forall k | k in r.value.unavailable :: r.value.unavailable[k] == ZeroDenominator)
  {
    hide Resolve, AllMean, Segments.AllAligned, Segments.Fill, Segments.ValidateRow;
    Segments.RowExact(setup, run, i, gap);
    FillMeans(setup, setup.specs, run, i, gap);
  }
}
