/** How much a sale can add to its order's charges: a linear bound that a profile's owner can check. */
module CostBounds {
  import opened Common
  import opened Rounding
  import opened Orders
  import opened Costs

  function ChargeTotal(model: CostModel, side: Side, turnover: real, forced: bool): real {
    match Cumulative(model, side, turnover, forced)
    case Ok(c) => c.Total()
    case Err(_) => 0.0
  }

  /** A sale of at least this value never adds more to its order's charges than it brings in. */
  ghost predicate SalesCovered(model: CostModel, least: real) {
    forall a: real, b: real, forced | 0.0 <= a && a + least <= b ::
      ChargeTotal(model, Sell, b, forced) - ChargeTotal(model, Sell, a, forced) <= b - a
  }

  lemma CoveredStep(model: CostModel, least: real, from: real, value: real, forced: bool)
    requires SalesCovered(model, least) && from >= 0.0 && value >= least
    ensures ChargeTotal(model, Sell, from + value, forced) - ChargeTotal(model, Sell, from, forced) <= value
  {
    hide ChargeTotal;
  }

  lemma ZeroCovered()
    ensures SalesCovered(ZeroCosts, 0.0)
  {
  }

  // ----- rounding and rates

  lemma PaisaClose(x: real)
    ensures -0.005 <= Paisa(x) - x <= 0.005
  {
    var y := x * 100.0;
    assert -0.5 <= HalfUp(y) as real - y <= 0.5;
  }

  lemma PaisaStep(a: real, b: real, step: real)
    requires b - a <= step
    ensures Paisa(b) - Paisa(a) <= step + 0.01
  {
    hide Paisa;
    PaisaClose(a);
    PaisaClose(b);
  }

  lemma AtSplit(rate: real, a: real, b: real)
    ensures At(rate, a + b) == At(rate, a) + At(rate, b)
  {
    assert (a + b) * rate == a * rate + b * rate;
  }

  lemma AtRates(r: real, s: real, x: real)
    requires r <= s && 0.0 <= x
    ensures At(r, x) <= At(s, x)
  {
    assert x * s - x * r == x * (s - r);
  }

  lemma AtPlus(r: real, s: real, x: real)
    ensures At(r + s, x) == At(r, x) + At(s, x)
  {
    assert x * (r + s) == x * r + x * s;
  }

  // ----- component by component

  /** The rates at which the components of a sale's charge can grow. */
  function Slopes(p: CostProfile): CostBreakdown {
    CostBreakdown(MaxReal(p.brokerageRate, p.minimumTurnoverCap), p.sttSell, 0.0, p.exchangeRate, p.sebiRate, p.ipftRate, 0.0, p.otherRate)
  }

  /** What rounding, and the square-off charge on an order's first fill, can add on top. */
  function Slacks(p: CostProfile): CostBreakdown {
    CostBreakdown(0.01, 0.01, 0.0, 0.01, 0.01, 0.01, 0.0, 0.01 + p.squareOffCharge)
  }

  /** The growth that turnover allows each component. */
  function Growth(p: CostProfile, step: real): CostBreakdown {
    var s := Slopes(p);
    CostBreakdown(At(s.brokerage, step), At(s.stt, step), 0.0, At(s.exchange, step), At(s.sebi, step), At(s.ipft, step), 0.0, At(s.other, step))
      .Plus(Slacks(p))
  }

  lemma BrokerageStep(p: CostProfile, m: Amounts, n: Amounts, step: real)
    requires n.brokerage - m.brokerage <= step && n.smallTurnover - m.smallTurnover <= step && step >= 0.0
    ensures Brokerage(p, n) - Brokerage(p, m) <= step
  {
  }

  lemma AmountsStep(p: CostProfile, a: real, step: real)
    requires a >= 0.0 && step >= 0.0
    ensures var m, n, s := Proportional(p, a), Proportional(p, a + step), Slopes(p);
            && Brokerage(p, n) - Brokerage(p, m) <= At(s.brokerage, step)
            && n.stt - m.stt == At(s.stt, step) && n.exchange - m.exchange == At(s.exchange, step)
            && n.sebi - m.sebi == At(s.sebi, step) && n.ipft - m.ipft == At(s.ipft, step) && n.other - m.other == At(s.other, step)
  {
    hide At, Brokerage;
    AtSplit(p.brokerageRate, a, step);
    AtSplit(p.minimumTurnoverCap, a, step);
    AtSplit(p.sttSell, a, step);
    AtSplit(p.exchangeRate, a, step);
    AtSplit(p.sebiRate, a, step);
    AtSplit(p.ipftRate, a, step);
    AtSplit(p.otherRate, a, step);
    var slope := Slopes(p).brokerage;
    AtRates(p.brokerageRate, slope, step);
    AtRates(p.minimumTurnoverCap, slope, step);
    AtRates(0.0, slope, step);
    assert At(0.0, step) == 0.0 by { AtNothing(step); }
    BrokerageStep(p, Proportional(p, a), Proportional(p, a + step), At(slope, step));
  }

  lemma AtNothing(x: real)
    ensures At(0.0, x) == 0.0 && At(x, 0.0) == 0.0
  {
  }

  /** Every component but GST, from one turnover to a later one; the later one may bear the square-off charge. */
  lemma RoundedStep(p: CostProfile, a: real, step: real, before: bool, after: bool)
    requires a >= 0.0 && step >= 0.0 && (before ==> after)
    ensures var c, d := Rounded(p, Sell, Proportional(p, a), before), Rounded(p, Sell, Proportional(p, a + step), after);
            var v := Growth(p, step);
            && d.brokerage - c.brokerage <= v.brokerage && d.stt - c.stt <= v.stt && d.stampDuty == c.stampDuty == 0.0
            && d.exchange - c.exchange <= v.exchange && d.sebi - c.sebi <= v.sebi && d.ipft - c.ipft <= v.ipft
            && d.gst == c.gst == 0.0 && d.other - c.other <= v.other
  {
    hide At, Paisa, Brokerage, Proportional, Slopes;
    var m, n, s := Proportional(p, a), Proportional(p, a + step), Slopes(p);
    AmountsStep(p, a, step);
    PaisaStep(Brokerage(p, m), Brokerage(p, n), At(s.brokerage, step));
    PaisaStep(m.stt, n.stt, At(s.stt, step));
    PaisaStep(m.exchange, n.exchange, At(s.exchange, step));
    PaisaStep(m.sebi, n.sebi, At(s.sebi, step));
    PaisaStep(m.ipft, n.ipft, At(s.ipft, step));
    PaisaStep(m.other + (if before then p.squareOffCharge else 0.0), n.other + (if after then p.squareOffCharge else 0.0),
              At(s.other, step) + p.squareOffCharge);
  }

  // ----- GST and the total

  lemma {:induction false} GstBaseStep(c: CostBreakdown, d: CostBreakdown, v: CostBreakdown, components: seq<GstComponent>)
    requires d.brokerage - c.brokerage <= v.brokerage && d.exchange - c.exchange <= v.exchange && d.sebi - c.sebi <= v.sebi
    requires d.ipft - c.ipft <= v.ipft && d.other - c.other <= v.other
    ensures GstBase(d, components) - GstBase(c, components) <= GstBase(v, components)
  {
    if components != [] {
      GstBaseStep(c, d, v, components[1..]);
    }
  }

  /** GST is due on growth in proportion, and on slack. */
  lemma {:induction false} GstBaseGrowth(p: CostProfile, step: real, components: seq<GstComponent>)
    ensures GstBase(Growth(p, step), components) == At(GstBase(Slopes(p), components), step) + GstBase(Slacks(p), components)
  {
    hide At, Slopes, Slacks;
    if components == [] {
      AtNothing(step);
    } else {
      GstBaseGrowth(p, step, components[1..]);
      AtPlus(Component(Slopes(p), components[0]), GstBase(Slopes(p), components[1..]), step);
    }
  }

  /** The share of a sale's value that its charges can take, and the most they can take besides. */
  function Slope(p: CostProfile): real { Slopes(p).Total() + At(p.gstRate, GstBase(Slopes(p), p.gstComponents)) }

  function Slack(p: CostProfile): real { Slacks(p).Total() + At(p.gstRate, GstBase(Slacks(p), p.gstComponents)) + 0.01 }

  lemma GrowthTotal(p: CostProfile, step: real)
    ensures Growth(p, step).Total() == At(Slopes(p).Total(), step) + Slacks(p).Total()
  {
    hide At;
    var s := Slopes(p);
    AtPlus(s.brokerage, s.stt, step);
    AtPlus(s.brokerage + s.stt, s.exchange, step);
    AtPlus(s.brokerage + s.stt + s.exchange, s.sebi, step);
    AtPlus(s.brokerage + s.stt + s.exchange + s.sebi, s.ipft, step);
    AtPlus(s.brokerage + s.stt + s.exchange + s.sebi + s.ipft, s.other, step);
    assert s.Total() == s.brokerage + s.stt + s.exchange + s.sebi + s.ipft + s.other;
  }

  lemma AtTwice(r: real, s: real, x: real)
    ensures At(r, At(s, x)) == At(At(r, s), x)
  {
    assert (x * s) * r == x * (s * r);
  }

  /** GST on whatever the other components grew by. */
  lemma GstStepBound(p: CostProfile, c: CostBreakdown, d: CostBreakdown, step: real)
    requires GstBase(d, p.gstComponents) - GstBase(c, p.gstComponents) <= GstBase(Growth(p, step), p.gstComponents)
    ensures WithGst(p, d).gst - WithGst(p, c).gst
            <= At(At(p.gstRate, GstBase(Slopes(p), p.gstComponents)), step) + At(p.gstRate, GstBase(Slacks(p), p.gstComponents)) + 0.01
  {
    hide At, Paisa, GstBase, Growth, Slopes, Slacks;
    var x, y := GstBase(c, p.gstComponents), GstBase(d, p.gstComponents);
    var s, k := GstBase(Slopes(p), p.gstComponents), GstBase(Slacks(p), p.gstComponents);
    GstBaseGrowth(p, step, p.gstComponents);
    AtSplit(p.gstRate, At(s, step), k);
    AtTwice(p.gstRate, s, step);
    AtGap(p.gstRate, x, y, At(s, step) + k);
    PaisaStep(At(p.gstRate, x), At(p.gstRate, y), At(p.gstRate, At(s, step) + k));
  }

  lemma AtGap(rate: real, x: real, y: real, gap: real)
    requires y - x <= gap && rate >= 0.0
    ensures At(rate, y) - At(rate, x) <= At(rate, gap)
  {
    assert gap * rate - (y * rate - x * rate) == (gap - (y - x)) * rate;
  }

  lemma StepTotal(p: CostProfile, a: real, step: real, before: bool, after: bool)
    requires a >= 0.0 && step >= 0.0 && (before ==> after)
    ensures var c, d := Rounded(p, Sell, Proportional(p, a), before), Rounded(p, Sell, Proportional(p, a + step), after);
            WithGst(p, d).Total() - WithGst(p, c).Total() <= At(Slope(p), step) + Slack(p)
  {
    hide At, Paisa, Rounded, Proportional, Slopes, Slacks, GstBase, Growth;
    var c, d := Rounded(p, Sell, Proportional(p, a), before), Rounded(p, Sell, Proportional(p, a + step), after);
    RoundedStep(p, a, step, before, after);
    GstBaseStep(c, d, Growth(p, step), p.gstComponents);
    GstStepBound(p, c, d, step);
    GrowthTotal(p, step);
    GrowthBlank(p, step);
    AtPlus(Slopes(p).Total(), At(p.gstRate, GstBase(Slopes(p), p.gstComponents)), step);
  }

  lemma GrowthBlank(p: CostProfile, step: real)
    ensures Growth(p, step).stampDuty == 0.0 == Growth(p, step).gst
  {
  }

  /** Nothing executed is charged like a turnover of zero without square-off. */
  lemma NothingCharged(p: CostProfile)
    ensures WithGst(p, Rounded(p, Sell, Proportional(p, 0.0), false)) == NO_COSTS
  {
    assert Paisa(0.0) == 0.0 by { PaisaNearest(0.0, 0); }
    hide Paisa;
    NothingProportional(p);
    assert Rounded(p, Sell, Proportional(p, 0.0), false) == NO_COSTS;
    NothingGst(p.gstComponents);
    AtNothing(p.gstRate);
  }

  lemma NothingProportional(p: CostProfile)
    ensures Proportional(p, 0.0) == Amounts(0.0, 0.0, 0.0, 0.0, 0.0, 0.0, 0.0, 0.0)
  {
  }

  lemma {:induction false} NothingGst(components: seq<GstComponent>)
    ensures GstBase(NO_COSTS, components) == 0.0
  {
    if components != [] {
      NothingGst(components[1..]);
    }
  }

  /** The linear bound: a sale of this value adds at most its share and the slack to its order's charges. */
  lemma ChargeBound(p: CostProfile, a: real, step: real, forced: bool)
    requires a >= 0.0 && step >= 0.0
    ensures ChargeTotal(ReferenceCosts(p), Sell, a + step, forced) - ChargeTotal(ReferenceCosts(p), Sell, a, forced) <= At(Slope(p), step) + Slack(p)
  {
    hide At, Paisa, Rounded, Proportional, Slope, Slack, WithGst, CostBreakdown.Total;
    NothingCharged(p);
    StepTotal(p, a, step, forced && a > 0.0, forced && a + step > 0.0);
    assert a + step == 0.0 ==> a == 0.0;
  }

  /**
   * A profile covers every sale of a least value at which its share and slack stay within the value: an inequality between
   * the profile's own numbers.
   */
  lemma ProfileCovers(p: CostProfile, least: real)
    requires 0.0 <= least && Slope(p) <= 1.0 && At(Slope(p), least) + Slack(p) <= least
    ensures SalesCovered(ReferenceCosts(p), least)
  {
    hide At, Slope, Slack, ChargeTotal;
    forall a: real, b: real, forced | 0.0 <= a && a + least <= b
      ensures ChargeTotal(ReferenceCosts(p), Sell, b, forced) - ChargeTotal(ReferenceCosts(p), Sell, a, forced) <= b - a
    {
      ChargeBound(p, a, b - a, forced);
      AtSplit(Slope(p), least, b - a - least);
      AtRates(Slope(p), 1.0, b - a - least);
      assert At(1.0, b - a - least) == b - a - least by { AtWhole(b - a - least); }
    }
  }

  lemma AtWhole(x: real)
    ensures At(1.0, x) == x
  {
  }

  /** The reference profile covers every sale worth at least ten paise. */
  lemma ReferenceCovers(p: CostProfile)
    requires p == REFERENCE
    ensures SalesCovered(ReferenceCosts(p), 0.1)
  {
    ReferenceGstBase(p, Slopes(p));
    ReferenceGstBase(p, Slacks(p));
    assert At(p.gstRate, 0.0250317) == 0.004505706 && At(p.gstRate, 0.05) == 0.009;
    assert Slope(p) == 0.029787406 && Slack(p) == 0.079;
    assert At(0.029787406, 0.1) == 0.0029787406;
    ProfileCovers(p, 0.1);
  }
}
