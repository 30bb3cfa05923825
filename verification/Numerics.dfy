/** Causal array primitives of the feature engine. An undefined element is None; floating point is real arithmetic. */
module Numerics {
  import opened Common

  type Series = seq<Option<real>>

  datatype Operation = Mean | Std | Highest | Lowest

  function Ratio(a: real, b: real): real
    requires b != 0.0
  {
    a / b
  }

  function Product(a: real, b: real): real { a * b }

  predicate AllDefined(v: Series) { forall i | 0 <= i < |v| :: v[i].Some? }

  function Total(v: Series): real
    requires AllDefined(v)
  {
    if v == [] then 0.0 else Total(v[..|v| - 1]) + v[|v| - 1].value
  }

  function MeanOf(v: Series): real
    requires v != [] && AllDefined(v)
  {
    Ratio(Total(v), |v| as real)
  }

  function HighestOf(v: Series): real
    requires v != [] && AllDefined(v)
  {
    if |v| == 1 then v[0].value else MaxReal(HighestOf(v[..|v| - 1]), v[|v| - 1].value)
  }

  function LowestOf(v: Series): real
    requires v != [] && AllDefined(v)
  {
    if |v| == 1 then v[0].value else MinReal(LowestOf(v[..|v| - 1]), v[|v| - 1].value)
  }

  /** Sum of squared deviations from a centre. */
  function Spread(v: Series, centre: real): real
    requires AllDefined(v)
  {
    if v == [] then 0.0
    else Spread(v[..|v| - 1], centre) + Product(v[|v| - 1].value - centre, v[|v| - 1].value - centre)
  }

  /** The mean of a window; an undefined element makes the whole window undefined. */
  function Averaged(window: Series): Option<real>
    requires window != []
  {
    if AllDefined(window) then Some(MeanOf(window)) else None
  }

  /** The reduction of one window, likewise. The deviation is the population's. */
  function Reduced(window: Series, operation: Operation, sqrt: real -> real): Option<real>
    requires window != []
  {
    match operation
    case Mean => Averaged(window)
    case Std => if AllDefined(window) then Some(sqrt(Ratio(Spread(window, MeanOf(window)), |window| as real))) else None
    case Highest => if AllDefined(window) then Some(HighestOf(window)) else None
    case Lowest => if AllDefined(window) then Some(LowestOf(window)) else None
  }

  // ----- the primitives, element by element

  function LagAt(v: Series, period: nat, i: nat): Option<real>
    requires i < |v|
  {
    if i < period then None else v[i - period]
  }

  function RollAt(v: Series, period: nat, operation: Operation, sqrt: real -> real, i: nat): Option<real>
    requires i < |v| && period > 0
  {
    if i + 1 < period then None else Reduced(v[i + 1 - period..i + 1], operation, sqrt)
  }

  function Alpha(period: nat, wilder: bool): real
    requires period > 0
  {
    if wilder then Ratio(1.0, period as real) else Ratio(2.0, (period + 1) as real)
  }

  function Blend(alpha: real, x: Option<real>, previous: Option<real>): Option<real> {
    if x.Some? && previous.Some? then Some(Product(alpha, x.value) + Product(1.0 - alpha, previous.value)) else None
  }

  function SmoothAt(v: Series, period: nat, wilder: bool, offset: nat, i: nat): Option<real>
    requires i < |v| && period > 0
  {
    var seed := offset + period - 1;
    if i < seed then None
    else if i == seed then Averaged(v[offset..seed + 1])
    else Blend(Alpha(period, wilder), v[i], SmoothAt(v, period, wilder, offset, i - 1))
  }

  function DivideAt(a: Option<real>, b: Option<real>): Option<real> {
    if a.Some? && b.Some? && b.value != 0.0 then Some(Ratio(a.value, b.value)) else None
  }

  function Lagged(v: Series, period: nat): (r: Series)
    ensures |r| == |v|
  {
    seq(|v|, i requires 0 <= i < |v| => LagAt(v, period, i))
  }

  function Rolled(v: Series, period: nat, operation: Operation, sqrt: real -> real): (r: Series)
    requires period > 0
    ensures |r| == |v|
  {
    seq(|v|, i requires 0 <= i < |v| => RollAt(v, period, operation, sqrt, i))
  }

  function Smoothed(v: Series, period: nat, wilder: bool, offset: nat): (r: Series)
    requires period > 0
    ensures |r| == |v|
  {
    seq(|v|, i requires 0 <= i < |v| => SmoothAt(v, period, wilder, offset, i))
  }

  function Divided(a: Series, b: Series): (r: Series)
    requires |a| == |b|
    ensures |r| == |a|
  {
    seq(|a|, i requires 0 <= i < |a| => DivideAt(a[i], b[i]))
  }

  // ----- computing them in place

  method Undefined(n: nat) returns (result: array<Option<real>>)
    ensures fresh(result) && result.Length == n && forall i | 0 <= i < n :: result[i] == None
  {
    result := new Option<real>[n](_ => None);
  }

  method Lag(values: array<Option<real>>, period: nat) returns (result: array<Option<real>>)
    requires period > 0
    ensures fresh(result) && result[..] == Lagged(values[..], period)
  {
    result := Undefined(values.Length);
    if period < values.Length {
      for i := period to values.Length
        invariant forall j | 0 <= j < period || i <= j < values.Length :: result[j] == None
        invariant forall j | period <= j < i :: result[j] == values[j - period]
      {
        result[i] := values[i - period];
      }
    }
  }

  method Rolling(values: array<Option<real>>, period: nat, operation: Operation, sqrt: real -> real) returns (result: array<Option<real>>)
    requires period > 0
    ensures fresh(result) && result[..] == Rolled(values[..], period, operation, sqrt)
  {
    hide Reduced;
    result := Undefined(values.Length);
    if values.Length >= period {
      for i := period - 1 to values.Length
        invariant forall j | 0 <= j < period - 1 || i <= j < values.Length :: result[j] == None
        invariant forall j | period - 1 <= j < i :: result[j] == RollAt(values[..], period, operation, sqrt, j)
      {
        assert values[i + 1 - period..i + 1] == values[..][i + 1 - period..i + 1];
        result[i] := Reduced(values[i + 1 - period..i + 1], operation, sqrt);
      }
    }
  }

  /** Seed with the mean of the first full window, then the recurrence, one pass. */
  method Smooth(values: array<Option<real>>, period: nat, wilder: bool, offset: nat) returns (result: array<Option<real>>)
    requires period > 0
    ensures fresh(result) && result[..] == Smoothed(values[..], period, wilder, offset)
  {
    hide Averaged, Alpha, Blend;
    result := Undefined(values.Length);
    var seed := offset + period - 1;
    if seed < values.Length {
      assert values[offset..seed + 1] == values[..][offset..seed + 1];
      result[seed] := Averaged(values[offset..seed + 1]);
      var alpha := Alpha(period, wilder);
      for i := seed + 1 to values.Length
        invariant forall j | 0 <= j < seed || i <= j < values.Length :: result[j] == None
        invariant forall j | seed <= j < i :: result[j] == SmoothAt(values[..], period, wilder, offset, j)
      {
        result[i] := Blend(alpha, values[i], result[i - 1]);
      }
    }
  }

  method Divide(numerator: array<Option<real>>, denominator: array<Option<real>>) returns (result: array<Option<real>>)
    requires numerator.Length == denominator.Length
    ensures fresh(result) && result[..] == Divided(numerator[..], denominator[..])
  {
    hide DivideAt;
    result := Undefined(numerator.Length);
    for i := 0 to numerator.Length
      invariant forall j | 0 <= j < i :: result[j] == DivideAt(numerator[j], denominator[j])
    {
      result[i] := DivideAt(numerator[i], denominator[i]);
    }
  }

  // ----- where they are defined, and that they look back only

  /** Defined exactly from an index on. */
  predicate DefinedFrom(v: Series, from: nat) { forall i | 0 <= i < |v| :: v[i].Some? <==> i >= from }

  lemma LaggedDefined(v: Series, period: nat, from: nat)
    requires DefinedFrom(v, from)
    ensures DefinedFrom(Lagged(v, period), from + period)
  {
  }

  lemma RolledDefined(v: Series, period: nat, operation: Operation, sqrt: real -> real, from: nat)
    requires DefinedFrom(v, from) && period > 0
    ensures DefinedFrom(Rolled(v, period, operation, sqrt), from + period - 1)
  {
    hide MeanOf, Spread, HighestOf, LowestOf, Ratio;
    forall i | 0 <= i < |v|
      ensures RollAt(v, period, operation, sqrt, i).Some? <==> i >= from + period - 1
    {
      if i + 1 >= period {
        var window := v[i + 1 - period..i + 1];
        if i < from + period - 1 {
          assert window[0] == v[i + 1 - period];
        }
      }
    }
  }

  lemma {:induction false} SmoothDefined(v: Series, period: nat, wilder: bool, offset: nat, i: nat)
    requires DefinedFrom(v, offset) && period > 0 && i < |v|
    ensures SmoothAt(v, period, wilder, offset, i).Some? <==> i >= offset + period - 1
  {
    hide MeanOf, Ratio, Product, Alpha;
    if i > offset + period - 1 {
      SmoothDefined(v, period, wilder, offset, i - 1);
    }
  }

  lemma SmoothedDefined(v: Series, period: nat, wilder: bool, offset: nat)
    requires DefinedFrom(v, offset) && period > 0
    ensures DefinedFrom(Smoothed(v, period, wilder, offset), offset + period - 1)
  {
    hide SmoothAt;
    forall i: nat | i < |v|
      ensures SmoothAt(v, period, wilder, offset, i).Some? <==> i >= offset + period - 1
    {
      SmoothDefined(v, period, wilder, offset, i);
    }
  }

  lemma RollCausal(v: Series, k: nat, period: nat, operation: Operation, sqrt: real -> real)
    requires k <= |v| && period > 0
    ensures Rolled(v[..k], period, operation, sqrt) == Rolled(v, period, operation, sqrt)[..k]
  {
    hide Reduced;
    forall i: nat | i < k
      ensures RollAt(v[..k], period, operation, sqrt, i) == RollAt(v, period, operation, sqrt, i)
    {
      if i + 1 >= period {
        assert v[..k][i + 1 - period..i + 1] == v[i + 1 - period..i + 1];
      }
    }
  }

  lemma LagCausal(v: Series, k: nat, period: nat)
    requires k <= |v|
    ensures Lagged(v[..k], period) == Lagged(v, period)[..k]
  {
  }

  lemma {:induction false} SmoothAtCausal(v: Series, k: nat, period: nat, wilder: bool, offset: nat, i: nat)
    requires i < k <= |v| && period > 0
    ensures SmoothAt(v[..k], period, wilder, offset, i) == SmoothAt(v, period, wilder, offset, i)
  {
    hide Averaged, Blend, Alpha;
    var seed := offset + period - 1;
    if i == seed {
      assert v[..k][offset..seed + 1] == v[offset..seed + 1];
    } else if i > seed {
      SmoothAtCausal(v, k, period, wilder, offset, i - 1);
    }
  }

  lemma SmoothCausal(v: Series, k: nat, period: nat, wilder: bool, offset: nat)
    requires k <= |v| && period > 0
    ensures Smoothed(v[..k], period, wilder, offset) == Smoothed(v, period, wilder, offset)[..k]
  {
    hide SmoothAt;
    forall i: nat | i < k
      ensures SmoothAt(v[..k], period, wilder, offset, i) == SmoothAt(v, period, wilder, offset, i)
    {
      SmoothAtCausal(v, k, period, wilder, offset, i);
    }
  }

  lemma DivideCausal(a: Series, b: Series, k: nat)
    requires |a| == |b| && k <= |a|
    ensures Divided(a[..k], b[..k]) == Divided(a, b)[..k]
  {
  }
}
