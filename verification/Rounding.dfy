/** Decimal quantisation with ROUND_HALF_UP: to the paisa for money, to ten decimals for prices. */
module Rounding {

  /** Nearest integer; ties move away from zero, as Python's ROUND_HALF_UP does. */
  function HalfUp(value: real): int {
    if value >= 0.0 then (value + 0.5).Floor else -((-value + 0.5).Floor)
  }

  /** value.quantize(Decimal("0.01")) */
  function Paisa(value: real): real { HalfUp(value * 100.0) as real / 100.0 }

  /** value.quantize(Decimal("0.0000000001")) */
  function TenDecimals(value: real): real { HalfUp(value * 10_000_000_000.0) as real / 10_000_000_000.0 }

  /** Rounding keeps order: the fact that lets a pre-check on a full order cover every partial fill. */
  lemma PaisaMonotone(a: real, b: real)
    requires a <= b
    ensures Paisa(a) <= Paisa(b)
    ensures 0.0 <= a ==> 0.0 <= Paisa(a)
  {
    var x, y := a * 100.0, b * 100.0;
    assert x <= y;
    assert HalfUp(x) <= HalfUp(y);
  }

  /**
   * What half-up means: the result is a whole number of paise within half a paisa of the value, and a
   * half-way value moves away from zero. These conditions leave no other choice.
   */
  lemma PaisaNearest(value: real, paise: int)
    ensures (if value >= 0.0 then paise as real - 0.5 <= value * 100.0 < paise as real + 0.5
             else paise as real - 0.5 < value * 100.0 <= paise as real + 0.5)
            <==> Paisa(value) == paise as real / 100.0
  {
    var x := value * 100.0;
    assert HalfUp(x) == paise <==> Paisa(value) == paise as real / 100.0;
  }

  /** Rounding to ten decimals keeps order, and only a positive price rounds to a positive price. */
  lemma TenDecimalsMonotone(a: real, b: real)
    requires a <= b
    ensures TenDecimals(a) <= TenDecimals(b)
    ensures TenDecimals(b) > 0.0 ==> b > 0.0
  {
    var x, y := a * 10_000_000_000.0, b * 10_000_000_000.0;
    assert HalfUp(x) <= HalfUp(y);
    assert y <= 0.0 ==> HalfUp(y) <= 0;
  }
}
