/** Reference transaction costs, charged cumulatively per order. */
module Costs {
  import opened Common
  import opened Orders
  import opened Rounding

  datatype CostBreakdown = CostBreakdown(
    brokerage: real, stt: real, stampDuty: real, exchange: real,
    sebi: real, ipft: real, gst: real, other: real)
  {
    function Total(): real {
      brokerage + stt + stampDuty + exchange + sebi + ipft + gst + other
    }

    function Difference(previous: CostBreakdown): CostBreakdown {
      CostBreakdown(
        brokerage - previous.brokerage, stt - previous.stt, stampDuty - previous.stampDuty,
        exchange - previous.exchange, sebi - previous.sebi, ipft - previous.ipft,
        gst - previous.gst, other - previous.other)
    }

    function Plus(added: CostBreakdown): CostBreakdown {
      CostBreakdown(
        brokerage + added.brokerage, stt + added.stt, stampDuty + added.stampDuty,
        exchange + added.exchange, sebi + added.sebi, ipft + added.ipft,
        gst + added.gst, other + added.other)
    }

    /** Component by component; in particular no component is negative when NO_COSTS is below. */
    predicate AtMost(bound: CostBreakdown) {
      && brokerage <= bound.brokerage && stt <= bound.stt && stampDuty <= bound.stampDuty
      && exchange <= bound.exchange && sebi <= bound.sebi && ipft <= bound.ipft
      && gst <= bound.gst && other <= bound.other
    }
  }

  const NO_COSTS := CostBreakdown(0.0, 0.0, 0.0, 0.0, 0.0, 0.0, 0.0, 0.0)

  datatype GstComponent = OnBrokerage | OnExchange | OnSebi | OnIpft | OnOther

  datatype RawProfile = RawProfile(
    brokerageRate: real, brokerageCap: real, brokerageMinimum: real, minimumTurnoverCap: real,
    sttSell: real, stampBuy: real, exchangeRate: real, sebiRate: real, ipftRate: real,
    gstRate: real, gstComponents: seq<GstComponent>, otherRate: real, squareOffCharge: real)
  {
    predicate Valid() {
      && 0.0 <= brokerageRate <= 1.0 && 0.0 <= brokerageCap && 0.0 <= brokerageMinimum
      && 0.0 <= minimumTurnoverCap <= 1.0 && 0.0 <= sttSell <= 1.0 && 0.0 <= stampBuy <= 1.0
      && 0.0 <= exchangeRate <= 1.0 && 0.0 <= sebiRate <= 1.0 && 0.0 <= ipftRate <= 1.0
      && 0.0 <= gstRate <= 1.0 && 0.0 <= otherRate <= 1.0 && 0.0 <= squareOffCharge
    }
  }

  type CostProfile = p: RawProfile | p.Valid()
    witness RawProfile(0.0, 0.0, 0.0, 0.0, 0.0, 0.0, 0.0, 0.0, 0.0, 0.0, [], 0.0, 0.0)

  datatype CostModel = ZeroCosts | ReferenceCosts(profile: CostProfile)

  function At(rate: real, amount: real): real { amount * rate }

  /** Turnover times each rate, before caps and rounding. */
  datatype Amounts = Amounts(
    brokerage: real, smallTurnover: real, stt: real, stamp: real,
    exchange: real, sebi: real, ipft: real, other: real)

  function Proportional(p: CostProfile, turnover: real): Amounts {
    Amounts(
      At(p.brokerageRate, turnover), At(p.minimumTurnoverCap, turnover), At(p.sttSell, turnover), At(p.stampBuy, turnover),
      At(p.exchangeRate, turnover), At(p.sebiRate, turnover), At(p.ipftRate, turnover), At(p.otherRate, turnover))
  }

  function Brokerage(p: CostProfile, m: Amounts): real {
    MaxReal(MinReal(p.brokerageCap, m.brokerage), MinReal(p.brokerageMinimum, m.smallTurnover))
  }

  /** Every component but GST, each rounded to the paisa. */
  function Rounded(p: CostProfile, side: Side, m: Amounts, forced: bool): CostBreakdown {
    CostBreakdown(
      Paisa(Brokerage(p, m)),
      if side == Sell then Paisa(m.stt) else 0.0,
      if side == Buy then Paisa(m.stamp) else 0.0,
      Paisa(m.exchange),
      Paisa(m.sebi),
      Paisa(m.ipft),
      0.0,
      Paisa(m.other + if forced then p.squareOffCharge else 0.0))
  }

  function Component(c: CostBreakdown, k: GstComponent): real {
    match k
    case OnBrokerage => c.brokerage
    case OnExchange => c.exchange
    case OnSebi => c.sebi
    case OnIpft => c.ipft
    case OnOther => c.other
  }

  /** The rounded components GST is due on; a component listed twice counts twice. */
  function GstBase(c: CostBreakdown, components: seq<GstComponent>): real {
    if components == [] then 0.0
    else Component(c, components[0]) + GstBase(c, components[1..])
  }

  function WithGst(p: CostProfile, c: CostBreakdown): CostBreakdown {
    c.(gst := Paisa(At(p.gstRate, GstBase(c, p.gstComponents))))
  }

  /** Charges on everything an order has executed so far. */
  function Cumulative(model: CostModel, side: Side, turnover: real, forced: bool): Result<CostBreakdown> {
    match model
    case ZeroCosts => Ok(NO_COSTS)
    case ReferenceCosts(p) =>
      if turnover < 0.0 then Err(InvalidTurnover)
      else if turnover == 0.0 then Ok(NO_COSTS)
      else
        Ok(WithGst(p, Rounded(p, side, Proportional(p, turnover), forced)))
  }

  lemma AtMonotone(rate: real, a: real, b: real)
    requires 0.0 <= a <= b && 0.0 <= rate
    ensures 0.0 <= At(rate, a) <= At(rate, b)
  {
    assert b * rate - a * rate == (b - a) * rate;
  }

  predicate Below(m: Amounts, n: Amounts) {
    && 0.0 <= m.brokerage <= n.brokerage && 0.0 <= m.smallTurnover <= n.smallTurnover
    && 0.0 <= m.stt <= n.stt && 0.0 <= m.stamp <= n.stamp && 0.0 <= m.exchange <= n.exchange
    && 0.0 <= m.sebi <= n.sebi && 0.0 <= m.ipft <= n.ipft && 0.0 <= m.other <= n.other
  }

  lemma ProportionalMonotone(p: CostProfile, a: real, b: real)
    requires 0.0 <= a <= b
    ensures Below(Proportional(p, a), Proportional(p, b))
  {
    hide At;
    AtMonotone(p.brokerageRate, a, b);
    AtMonotone(p.minimumTurnoverCap, a, b);
    AtMonotone(p.sttSell, a, b);
    AtMonotone(p.stampBuy, a, b);
    AtMonotone(p.exchangeRate, a, b);
    AtMonotone(p.sebiRate, a, b);
    AtMonotone(p.ipftRate, a, b);
    AtMonotone(p.otherRate, a, b);
  }

  lemma RoundedMonotone(p: CostProfile, side: Side, m: Amounts, n: Amounts, forced: bool)
    requires Below(m, n)
    ensures NO_COSTS.AtMost(Rounded(p, side, m, forced))
    ensures Rounded(p, side, m, forced).AtMost(Rounded(p, side, n, forced))
  {
    PaisaMonotone(Brokerage(p, m), Brokerage(p, n));
    PaisaMonotone(m.stt, n.stt);
    PaisaMonotone(m.stamp, n.stamp);
    PaisaMonotone(m.exchange, n.exchange);
    PaisaMonotone(m.sebi, n.sebi);
    PaisaMonotone(m.ipft, n.ipft);
    var extra := if forced then p.squareOffCharge else 0.0;
    PaisaMonotone(m.other + extra, n.other + extra);
  }

  lemma {:induction false} GstBaseMonotone(c: CostBreakdown, d: CostBreakdown, components: seq<GstComponent>)
    requires NO_COSTS.AtMost(c) && c.AtMost(d)
    ensures 0.0 <= GstBase(c, components) <= GstBase(d, components)
  {
    if components != [] {
      GstBaseMonotone(c, d, components[1..]);
    }
  }

  lemma GstMonotone(p: CostProfile, c: CostBreakdown, d: CostBreakdown)
    requires NO_COSTS.AtMost(c) && c.AtMost(d)
    ensures 0.0 <= WithGst(p, c).gst <= WithGst(p, d).gst
  {
    hide At, Paisa;
    GstBaseMonotone(c, d, p.gstComponents);
    var x, y := GstBase(c, p.gstComponents), GstBase(d, p.gstComponents);
    AtMonotone(p.gstRate, x, y);
    PaisaMonotone(At(p.gstRate, x), At(p.gstRate, y));
  }

  /**
   * Every rounded component grows with turnover and none is negative. Rounding, the brokerage cap and
   * minimum, the square-off charge and GST on rounded parts do not spoil it.
   */
  lemma CumulativeMonotone(model: CostModel, side: Side, a: real, b: real, forced: bool)
    requires 0.0 <= a <= b
    ensures Cumulative(model, side, a, forced).Ok? && Cumulative(model, side, b, forced).Ok?
    ensures NO_COSTS.AtMost(Cumulative(model, side, a, forced).value)
    ensures Cumulative(model, side, a, forced).value.AtMost(Cumulative(model, side, b, forced).value)
  {
    if model.ReferenceCosts? {
      var p := model.profile;
      var m, n := Proportional(p, a), Proportional(p, b);
      ProportionalMonotone(p, a, b);
      RoundedMonotone(p, side, m, n, forced);
      RoundedMonotone(p, side, n, n, forced);
      GstMonotone(p, NO_COSTS, Rounded(p, side, m, forced));
      GstMonotone(p, Rounded(p, side, m, forced), Rounded(p, side, n, forced));
    }
  }

  lemma DifferenceTelescopes(before: CostBreakdown, after: CostBreakdown, rest: CostBreakdown)
    ensures before.Plus(after.Difference(before).Plus(rest)) == after.Plus(rest)
    ensures before.AtMost(after) ==> NO_COSTS.AtMost(after.Difference(before))
  {
  }

  /** The charges of consecutive fills of one order, given the turnover after each fill. */
  function Increments(model: CostModel, side: Side, forced: bool, from: real, turnovers: seq<real>)
    : Result<seq<CostBreakdown>>
    decreases turnovers
  {
    if turnovers == [] then Ok([])
    else
      var previous :- Cumulative(model, side, from, forced);
      var next :- Cumulative(model, side, turnovers[0], forced);
      var rest :- Increments(model, side, forced, turnovers[0], turnovers[1..]);
      Ok([next.Difference(previous)] + rest)
  }

  function SumCosts(costs: seq<CostBreakdown>): CostBreakdown {
    if costs == [] then NO_COSTS else costs[0].Plus(SumCosts(costs[1..]))
  }

  /**
   * Fee splitting: however an order is cut into fills of growing turnover, the increments add up, component
   * by component, to one charge on the final turnover, and no increment has a negative component.
   */
  lemma {:induction false} SplittingInvariance(model: CostModel, side: Side, forced: bool, from: real, turnovers: seq<real>)
    requires 0.0 <= from
    requires turnovers != [] ==> from <= turnovers[0]
    requires forall i | 0 <= i < |turnovers| - 1 :: turnovers[i] <= turnovers[i + 1]
    decreases turnovers
    ensures var final := if turnovers == [] then from else turnovers[|turnovers| - 1];
            var charged := Increments(model, side, forced, from, turnovers);
            && final >= from
            && charged.Ok? && |charged.value| == |turnovers|
            && (forall c | c in charged.value :: NO_COSTS.AtMost(c))
            && Cumulative(model, side, from, forced).Ok? && Cumulative(model, side, final, forced).Ok?
            && Cumulative(model, side, from, forced).value.Plus(SumCosts(charged.value))
               == Cumulative(model, side, final, forced).value
  {
    hide Cumulative;
    if turnovers == [] {
      CumulativeMonotone(model, side, from, from, forced);
    } else {
      hide CostBreakdown.Plus, CostBreakdown.Difference, CostBreakdown.AtMost;
      var next := turnovers[0];
      CumulativeMonotone(model, side, from, next, forced);
      SplittingInvariance(model, side, forced, next, turnovers[1..]);
      var before, after := Cumulative(model, side, from, forced).value, Cumulative(model, side, next, forced).value;
      var charged := Increments(model, side, forced, from, turnovers).value;
      assert charged[1..] == Increments(model, side, forced, next, turnovers[1..]).value;
      assert SumCosts(charged) == charged[0].Plus(SumCosts(charged[1..]));
      DifferenceTelescopes(before, after, SumCosts(charged[1..]));
    }
  }

  // ----- every charge, written out

  /** A whole number of paise within half a paisa of the amount, ties away from zero. */
  ghost predicate NearestPaisa(amount: real, charge: real) {
    && (charge * 100.0).Floor as real == charge * 100.0
    && (if amount >= 0.0 then charge * 100.0 - 0.5 <= amount * 100.0 < charge * 100.0 + 0.5
        else charge * 100.0 - 0.5 < amount * 100.0 <= charge * 100.0 + 0.5)
  }

  /** A rate's share of an amount and an extra charge, to the nearest paisa. */
  ghost predicate Share(rate: real, amount: real, extra: real, charge: real) { NearestPaisa(amount * rate + extra, charge) }

  lemma PaisaIsNearest(amount: real)
    ensures NearestPaisa(amount, Paisa(amount))
  {
    var paise := HalfUp(amount * 100.0);
    assert Paisa(amount) * 100.0 == paise as real;
  }

  /** A rate's share up to the cap, but no less than the smaller of the minimum and the small-turnover share. */
  ghost predicate BrokerageDue(p: CostProfile, turnover: real, due: real) {
    && (due >= p.brokerageCap || due >= turnover * p.brokerageRate)
    && (due >= p.brokerageMinimum || due >= turnover * p.minimumTurnoverCap)
    && (|| (due <= p.brokerageCap && due <= turnover * p.brokerageRate)
        || (due <= p.brokerageMinimum && due <= turnover * p.minimumTurnoverCap))
  }

  /** A charge as often as its component is listed. */
  function Often(components: seq<GstComponent>, k: GstComponent, charge: real): real { Manifold(multiset(components)[k], charge) }

  function Manifold(times: nat, charge: real): real { times as real * charge }

  /** Every charge on a positive turnover, from the rates. */
  ghost predicate ChargedBy(p: CostProfile, side: Side, turnover: real, forced: bool, c: CostBreakdown) {
    && (exists due :: BrokerageDue(p, turnover, due) && NearestPaisa(due, c.brokerage))
    && (if side == Sell then Share(p.sttSell, turnover, 0.0, c.stt) else c.stt == 0.0)
    && (if side == Buy then Share(p.stampBuy, turnover, 0.0, c.stampDuty) else c.stampDuty == 0.0)
    && Share(p.exchangeRate, turnover, 0.0, c.exchange)
    && Share(p.sebiRate, turnover, 0.0, c.sebi)
    && Share(p.ipftRate, turnover, 0.0, c.ipft)
    && Share(p.otherRate, turnover, if forced then p.squareOffCharge else 0.0, c.other)
    && exists base :: GstDue(p.gstComponents, c, base) && Share(p.gstRate, base, 0.0, c.gst)
  }

  /** The listed charges, as rounded, each as often as it is listed. */
  ghost predicate GstDue(components: seq<GstComponent>, c: CostBreakdown, base: real) {
    base == Often(components, OnBrokerage, c.brokerage) + Often(components, OnExchange, c.exchange)
            + Often(components, OnSebi, c.sebi) + Often(components, OnIpft, c.ipft) + Often(components, OnOther, c.other)
  }

  lemma {:induction false} GstBaseExact(c: CostBreakdown, components: seq<GstComponent>)
    ensures GstDue(components, c, GstBase(c, components))
  {
    hide GstDue;
    if components == [] {
      assert GstDue([], c, 0.0) by { NoneDue(c); }
    } else {
      GstBaseExact(c, components[1..]);
      GstDueStep(components, c, GstBase(c, components[1..]));
    }
  }

  lemma NoneDue(c: CostBreakdown)
    ensures GstDue([], c, 0.0)
  {
  }

  lemma GstDueStep(components: seq<GstComponent>, c: CostBreakdown, rest: real)
    requires components != [] && GstDue(components[1..], c, rest)
    ensures GstDue(components, c, Component(c, components[0]) + rest)
  {
    hide Often;
    OftenStep(components, OnBrokerage, c.brokerage);
    OftenStep(components, OnExchange, c.exchange);
    OftenStep(components, OnSebi, c.sebi);
    OftenStep(components, OnIpft, c.ipft);
    OftenStep(components, OnOther, c.other);
  }

  lemma OftenStep(components: seq<GstComponent>, k: GstComponent, x: real)
    requires components != []
    ensures Often(components, k, x) == Often(components[1..], k, x) + if components[0] == k then x else 0.0
  {
    hide Manifold;
    assert components == [components[0]] + components[1..];
    var before := multiset(components[1..])[k];
    assert multiset(components)[k] == before + if components[0] == k then 1 else 0;
    OnceMore(before, x);
  }

  lemma OnceMore(times: nat, charge: real)
    ensures Manifold(times + 1, charge) == Manifold(times, charge) + charge
  {
  }

  lemma BrokerageExact(p: CostProfile, turnover: real)
    ensures BrokerageDue(p, turnover, Brokerage(p, Proportional(p, turnover)))
  {
    var rated, small := turnover * p.brokerageRate, turnover * p.minimumTurnoverCap;
    assert Proportional(p, turnover).brokerage == rated && Proportional(p, turnover).smallTurnover == small;
  }

  /**
   * The cumulative charge of an order, component by component: an error on a negative turnover, nothing without turnover
   * or costs, and otherwise the nearest paisa of each share, with GST on the listed rounded charges.
   */
  lemma ChargesExact(model: CostModel, side: Side, turnover: real, forced: bool)
    ensures Cumulative(model, side, turnover, forced).Err? <==> model.ReferenceCosts? && turnover < 0.0
    ensures model.ZeroCosts? || turnover == 0.0 ==> Cumulative(model, side, turnover, forced) == Ok(NO_COSTS)
    ensures model.ReferenceCosts? && turnover > 0.0 ==> ChargedBy(model.profile, side, turnover, forced, Cumulative(model, side, turnover, forced).value)
  {
    if model.ReferenceCosts? && turnover > 0.0 {
      SharesExact(model.profile, side, turnover, forced);
    }
  }

  lemma ShareExact(rate: real, amount: real, extra: real)
    ensures Share(rate, amount, extra, Paisa(At(rate, amount) + extra)) && Paisa(At(rate, amount) + 0.0) == Paisa(At(rate, amount))
  {
    hide NearestPaisa, Paisa;
    PaisaIsNearest(At(rate, amount) + extra);
  }

  lemma SharesExact(p: CostProfile, side: Side, turnover: real, forced: bool)
    ensures ChargedBy(p, side, turnover, forced, WithGst(p, Rounded(p, side, Proportional(p, turnover), forced)))
  {
    hide Share, At, NearestPaisa, Paisa, BrokerageDue, GstDue, GstBase, Brokerage;
    var m := Proportional(p, turnover);
    var c := Rounded(p, side, m, forced);
    BrokerageExact(p, turnover);
    PaisaIsNearest(Brokerage(p, m));
    ShareExact(p.sttSell, turnover, 0.0);
    ShareExact(p.stampBuy, turnover, 0.0);
    ShareExact(p.exchangeRate, turnover, 0.0);
    ShareExact(p.sebiRate, turnover, 0.0);
    ShareExact(p.ipftRate, turnover, 0.0);
    ShareExact(p.otherRate, turnover, if forced then p.squareOffCharge else 0.0);
    var base := GstBase(c, p.gstComponents);
    GstBaseExact(c, p.gstComponents);
    GstUnchanged(p.gstComponents, c, base, Paisa(At(p.gstRate, base)));
    ShareExact(p.gstRate, base, 0.0);
  }

  lemma GstUnchanged(components: seq<GstComponent>, c: CostBreakdown, base: real, gst: real)
    requires GstDue(components, c, base)
    ensures GstDue(components, c.(gst := gst), base)
  {
  }

  // ----- the documented example

  const REFERENCE: CostProfile :=
    RawProfile(0.001, 20.0, 5.0, 0.025, 0.00025, 0.00003, 0.0000297, 0.000001, 0.000001,
               0.18, [OnBrokerage, OnExchange, OnSebi, OnIpft, OnOther], 0.0, 0.0)

  lemma ReferenceAmounts(turnover: real)
    requires turnover == 10_000.0
    ensures Proportional(REFERENCE, turnover) == Amounts(10.0, 250.0, 2.5, 0.3, 0.297, 0.01, 0.01, 0.0)
  {
  }

  lemma ReferencePaise()
    ensures Paisa(10.0) == 10.0 && Paisa(2.5) == 2.5 && Paisa(0.3) == 0.3 && Paisa(0.297) == 0.3 && Paisa(0.01) == 0.01
    ensures Paisa(0.0) == 0.0 && Paisa(1.8576) == 1.86
  {
    PaisaNearest(10.0, 1000);
    PaisaNearest(2.5, 250);
    PaisaNearest(0.3, 30);
    PaisaNearest(0.297, 30);
    PaisaNearest(0.01, 1);
    PaisaNearest(0.0, 0);
    PaisaNearest(1.8576, 186);
  }

  lemma GstStep(c: CostBreakdown, k: GstComponent, rest: seq<GstComponent>)
    ensures GstBase(c, [k] + rest) == Component(c, k) + GstBase(c, rest)
    ensures GstBase(c, []) == 0.0
  {
    assert ([k] + rest)[1..] == rest;
  }

  lemma ReferenceGstBase(p: CostProfile, c: CostBreakdown)
    requires p == REFERENCE
    ensures GstBase(c, p.gstComponents) == c.brokerage + c.exchange + c.sebi + c.ipft + c.other
  {
    GstStep(c, OnOther, []);
    GstStep(c, OnIpft, [OnOther]);
    GstStep(c, OnSebi, [OnIpft, OnOther]);
    GstStep(c, OnExchange, [OnSebi, OnIpft, OnOther]);
    GstStep(c, OnBrokerage, [OnExchange, OnSebi, OnIpft, OnOther]);
    assert p.gstComponents == [OnBrokerage] + [OnExchange, OnSebi, OnIpft, OnOther];
    assert [OnExchange, OnSebi, OnIpft, OnOther] == [OnExchange] + [OnSebi, OnIpft, OnOther];
    assert [OnSebi, OnIpft, OnOther] == [OnSebi] + [OnIpft, OnOther];
    assert [OnIpft, OnOther] == [OnIpft] + [OnOther];
    assert [OnOther] == [OnOther] + [];
  }

  lemma ReferenceGst(p: CostProfile, c: CostBreakdown)
    requires p == REFERENCE && c.brokerage == 10.0 && c.exchange == 0.3 && c.sebi == 0.01 && c.ipft == 0.01 && c.other == 0.0
    ensures WithGst(p, c).gst == 1.86
  {
    hide Paisa, GstBase;
    ReferencePaise();
    ReferenceGstBase(p, c);
    assert At(p.gstRate, 10.32) == 1.8576;
  }

  /** The documented charges on a turnover of 10,000 under the reference profile: 12.48 to buy, 14.68 to sell. */
  lemma DocumentedCharges(turnover: real)
    requires turnover == 10_000.0
    ensures Cumulative(ReferenceCosts(REFERENCE), Buy, turnover, false) == Ok(CostBreakdown(10.0, 0.0, 0.3, 0.3, 0.01, 0.01, 1.86, 0.0))
    ensures Cumulative(ReferenceCosts(REFERENCE), Sell, turnover, false) == Ok(CostBreakdown(10.0, 2.5, 0.0, 0.3, 0.01, 0.01, 1.86, 0.0))
    ensures CostBreakdown(10.0, 0.0, 0.3, 0.3, 0.01, 0.01, 1.86, 0.0).Total() == 12.48
    ensures CostBreakdown(10.0, 2.5, 0.0, 0.3, 0.01, 0.01, 1.86, 0.0).Total() == 14.68
  {
    hide Paisa, Proportional, GstBase, At;
    ReferenceAmounts(turnover);
    ReferencePaise();
    var m := Proportional(REFERENCE, turnover);
    ReferenceGst(REFERENCE, Rounded(REFERENCE, Buy, m, false));
    ReferenceGst(REFERENCE, Rounded(REFERENCE, Sell, m, false));
  }
}
