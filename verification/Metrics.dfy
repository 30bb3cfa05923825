/** The performance report of a run: totals, daily P&L and exposure, and how they reconcile. */
module Metrics {
  import opened Common
  import opened Costs
  import opened Accounting
  import opened Statistics

  datatype Report = Report(
    startingCapital: real, endingEquity: real, grossPnl: real, executionPnl: real, netPnl: real,
    costs: CostBreakdown, slippage: real, totalReturn: real, winners: int, losers: int,
    grossProfit: real, grossLoss: real, trading: TradeStatistics, maxDrawdown: real, maxDrawdownPct: real, turnover: real,
    exposed: Time, total: Time, exposurePercentage: real, sharpe: Option<real>, sortino: Option<real>,
    dailyPnl: seq<(int, real)>)

  // ----- what the report is about

  /** The equity of the last point of a day. */
  function ClosingOn(points: seq<EquityPoint>, day: int): Option<real> {
    if points == [] then None
    else
      var last := points[|points| - 1];
      if IstDay(last.timestamp) == day then Some(last.equity) else ClosingOn(points[..|points| - 1], day)
  }

  function BaseOf(initial: real, points: seq<EquityPoint>, pnl: seq<(int, real)>, i: nat): Option<real>
    requires i < |pnl|
  {
    if i == 0 then Some(initial) else ClosingOn(points, pnl[i - 1].0)
  }

  predicate Entered(pnl: seq<(int, real)>, day: int) { exists i :: 0 <= i < |pnl| && pnl[i].0 == day }

  /** One entry per day with a point, in order: the day's closing equity less that of the day before. */
  ghost predicate DailyLedger(initial: real, points: seq<EquityPoint>, pnl: seq<(int, real)>) {
    && (forall i, j | 0 <= i < j < |pnl| :: pnl[i].0 < pnl[j].0)
    && (forall day :: ClosingOn(points, day).Some? <==> Entered(pnl, day))
    && (forall i: nat | i < |pnl| ::
          && ClosingOn(points, pnl[i].0).Some? && BaseOf(initial, points, pnl, i).Some?
          && pnl[i].1 == ClosingOn(points, pnl[i].0).value - BaseOf(initial, points, pnl, i).value)
  }

  /** A return is taken on a zero equity: the start, or the close of a day that is not the last. */
  ghost predicate ZeroBase(initial: real, points: seq<EquityPoint>) {
    initial == 0.0 || exists day, later: int | day < later :: ClosingOn(points, day) == Some(0.0) && ClosingOn(points, later).Some?
  }

  function SameDay(equity: seq<EquityPoint>, i: nat): bool
    requires i + 1 < |equity|
  {
    IstDay(equity[i].timestamp) == IstDay(equity[i + 1].timestamp)
  }

  /** Time between consecutive points of one day, among the first n intervals; and the part of it with inventory. */
  function Observed(equity: seq<EquityPoint>, n: nat): Time
    requires n < |equity|
  {
    if n == 0 then 0
    else Observed(equity, n - 1) + if SameDay(equity, n - 1) then equity[n].timestamp - equity[n - 1].timestamp else 0
  }

  function Exposed(equity: seq<EquityPoint>, n: nat): Time
    requires n < |equity|
  {
    if n == 0 then 0
    else Exposed(equity, n - 1)
         + if SameDay(equity, n - 1) && equity[n - 1].marketValue > 0.0 then equity[n].timestamp - equity[n - 1].timestamp else 0
  }

  /** The return on a base, which is never zero where it is asked for. */
  function RateOf(closing: Option<real>, base: Option<real>): real {
    if closing.Some? && base.Some? && base.value != 0.0 then Quotient(closing.value, base.value) - 1.0 else 0.0
  }

  function Returns(initial: real, points: seq<EquityPoint>, pnl: seq<(int, real)>): seq<real> {
    seq(|pnl|, i requires 0 <= i < |pnl| => RateOf(ClosingOn(points, pnl[i].0), BaseOf(initial, points, pnl, i)))
  }

  function TurnoverOf(fill: Fill): real { Value(fill.quantity, fill.price) }

  function Percentage(exposed: Time, total: Time): real {
    if total == 0 then 0.0 else Quotient(100.0 * exposed as real, total as real)
  }

  function Amount(entry: (int, real)): real { entry.1 }

  ghost predicate Reported(root: real -> real, equity: seq<EquityPoint>, fills: seq<Fill>, trades: seq<Trade>, r: Report) {
    equity != []
    && var initial, ending := equity[0].equity, equity[|equity| - 1].equity;
       && r.startingCapital == initial && r.endingEquity == ending && r.netPnl == ending - initial
       && r.costs == SumBreakdown(fills) && r.slippage == Sum(fills, SlippageOf)
       && r.executionPnl == r.netPnl + r.costs.Total() && r.grossPnl == r.executionPnl + r.slippage
       && initial != 0.0 && r.totalReturn == Quotient(r.netPnl, initial)
       && r.winners == SumInt(trades, Winner) && r.losers == SumInt(trades, Loser)
       && r.grossProfit == Sum(trades, ProfitOf) && r.grossLoss == -Sum(trades, LossOf)
       && r.exposed == Exposed(equity, |equity| - 1) && r.total == Observed(equity, |equity| - 1)
       && DailyLedger(initial, equity[1..], r.dailyPnl)
       && Summarises(trades, r.trading)
       && IsGreatest(equity, Drawdown, r.maxDrawdown) && IsGreatest(equity, DrawdownPct, r.maxDrawdownPct)
       && r.turnover == Sum(fills, TurnoverOf) && r.exposurePercentage == Percentage(r.exposed, r.total)
       && Rated(root, Returns(initial, equity[1..], r.dailyPnl), r.sharpe, r.sortino)
  }

  // ----- computing it

  function InsertDay(day: int, days: seq<int>): seq<int> {
    if days == [] || day < days[0] then [day] + days
    else if day == days[0] then days
    else [days[0]] + InsertDay(day, days[1..])
  }

  ghost predicate Ascending(days: seq<int>) { forall i, j | 0 <= i < j < |days| :: days[i] < days[j] }

  lemma {:induction false} InsertDayExact(day: int, days: seq<int>)
    requires Ascending(days)
    ensures Ascending(InsertDay(day, days))
    ensures forall d :: d in InsertDay(day, days) <==> d == day || d in days
    ensures InsertDay(day, days) != [] && (InsertDay(day, days)[0] == day || (days != [] && InsertDay(day, days)[0] == days[0]))
  {
    if days != [] && day > days[0] {
      InsertDayExact(day, days[1..]);
      assert forall d | d in InsertDay(day, days[1..]) :: days[0] < d;
    }
  }

  /** daily[date] = equity, point by point; the dates are kept in sorted order beside the dictionary. */
  method CloseDays(points: seq<EquityPoint>) returns (daily: map<int, real>, days: seq<int>)
    ensures forall day :: ClosingOn(points, day) == if day in daily then Some(daily[day]) else None
    ensures Ascending(days) && forall day :: day in days <==> day in daily
  {
    daily, days := map[], [];
    for i := 0 to |points|
      invariant forall day :: ClosingOn(points[..i], day) == if day in daily then Some(daily[day]) else None
      invariant Ascending(days) && forall day :: day in days <==> day in daily
    {
      assert points[..i + 1][..i] == points[..i];
      InsertDayExact(IstDay(points[i].timestamp), days);
      days := InsertDay(IstDay(points[i].timestamp), days);
      daily := daily[IstDay(points[i].timestamp) := points[i].equity];
    }
    assert points[..|points|] == points;
  }

  /** The first n entries of the daily ledger, none of them taken on a zero base. */
  ghost predicate LedgerPrefix(initial: real, points: seq<EquityPoint>, days: seq<int>, pnl: seq<(int, real)>, n: nat) {
    && n == |pnl| <= |days|
    && forall i: nat | i < n ::
         && pnl[i].0 == days[i]
         && ClosingOn(points, pnl[i].0).Some? && BaseOf(initial, points, pnl, i).Some?
         && BaseOf(initial, points, pnl, i).value != 0.0
         && pnl[i].1 == ClosingOn(points, pnl[i].0).value - BaseOf(initial, points, pnl, i).value
  }

  lemma NoLedger(initial: real, points: seq<EquityPoint>, days: seq<int>)
    ensures LedgerPrefix(initial, points, days, [], 0)
  {
  }

  lemma NoReturns(initial: real, points: seq<EquityPoint>)
    ensures Returns(initial, points, []) == []
  {
  }

  lemma LedgerGrows(initial: real, points: seq<EquityPoint>, days: seq<int>, pnl: seq<(int, real)>, closing: real, previous: real)
    requires LedgerPrefix(initial, points, days, pnl, |pnl|) && |pnl| < |days|
    requires ClosingOn(points, days[|pnl|]) == Some(closing) && previous != 0.0
    requires Some(previous) == if pnl == [] then Some(initial) else ClosingOn(points, pnl[|pnl| - 1].0)
    ensures LedgerPrefix(initial, points, days, pnl + [(days[|pnl|], closing - previous)], |pnl| + 1)
  {
    hide ClosingOn;
    var grown := pnl + [(days[|pnl|], closing - previous)];
    assert forall i: nat | i < |pnl| :: BaseOf(initial, points, grown, i) == BaseOf(initial, points, pnl, i);
  }

  lemma LedgerWhole(initial: real, points: seq<EquityPoint>, days: seq<int>, pnl: seq<(int, real)>)
    requires LedgerPrefix(initial, points, days, pnl, |days|) && Ascending(days)
    requires forall day :: day in days <==> ClosingOn(points, day).Some?
    ensures DailyLedger(initial, points, pnl)
    ensures initial != 0.0 ==> !ZeroBase(initial, points)
  {
    hide ClosingOn, BaseOf;
    forall day
      ensures ClosingOn(points, day).Some? <==> Entered(pnl, day)
    {
      if day in days {
        var i :| 0 <= i < |days| && days[i] == day;
        assert pnl[i].0 == day;
      }
    }
    if ZeroBase(initial, points) && initial != 0.0 {
      ZeroBaseMet(initial, points, pnl);
      assert false;
    }
  }

  lemma ReturnsGrow(initial: real, points: seq<EquityPoint>, pnl: seq<(int, real)>, entry: (int, real), closing: real, previous: real)
    requires ClosingOn(points, entry.0) == Some(closing) && previous != 0.0
    requires Some(previous) == if pnl == [] then Some(initial) else ClosingOn(points, pnl[|pnl| - 1].0)
    ensures Returns(initial, points, pnl + [entry]) == Returns(initial, points, pnl) + [Quotient(closing, previous) - 1.0]
  {
    hide ClosingOn, Quotient;
    var grown := pnl + [entry];
    assert forall i: nat | i < |pnl| :: BaseOf(initial, points, grown, i) == BaseOf(initial, points, pnl, i);
  }

  /** The loop over sorted(daily.items()), which also collects the daily returns. */
  method DailyPnl(initial: real, ghost points: seq<EquityPoint>, daily: map<int, real>, days: seq<int>)
    returns (outcome: Result<seq<(int, real)>>, rates: seq<real>)
    requires forall day :: ClosingOn(points, day) == if day in daily then Some(daily[day]) else None
    requires Ascending(days) && forall day :: day in days <==> day in daily
    ensures outcome.Ok? ==> DailyLedger(initial, points, outcome.value) && rates == Returns(initial, points, outcome.value)
    ensures outcome.Err? ==> outcome.error == DivisionByZero && ZeroBase(initial, points)
    ensures ZeroBase(initial, points) && initial != 0.0 ==> outcome.Err?
  {
    hide ClosingOn, LedgerPrefix, DailyLedger, Returns, Quotient;
    var pnl: seq<(int, real)> := [];
    rates := [];
    var previous := initial;
    NoLedger(initial, points, days);
    NoReturns(initial, points);
    for n := 0 to |days|
      invariant LedgerPrefix(initial, points, days, pnl, n) && |pnl| == n
      invariant n > 0 ==> pnl[n - 1].0 == days[n - 1]
      invariant rates == Returns(initial, points, pnl)
      invariant Some(previous) == if n == 0 then Some(initial) else ClosingOn(points, days[n - 1])
    {
      var day := days[n];
      if previous == 0.0 {
        assert n > 0 ==> days[n - 1] < day && ClosingOn(points, days[n - 1]) == Some(0.0);
        assert ClosingOn(points, day).Some?;
        return Err(DivisionByZero), rates;
      }
      ReturnsGrow(initial, points, pnl, (day, daily[day] - previous), daily[day], previous);
      LedgerGrows(initial, points, days, pnl, daily[day], previous);
      pnl := pnl + [(day, daily[day] - previous)];
      rates := rates + [Quotient(daily[day], previous) - 1.0];
      previous := daily[day];
    }
    LedgerWhole(initial, points, days, pnl);
    outcome := Ok(pnl);
  }

  /** A day but the last that closed at zero is some later day's base. */
  lemma ZeroBaseMet(initial: real, points: seq<EquityPoint>, pnl: seq<(int, real)>)
    requires DailyLedger(initial, points, pnl) && initial != 0.0 && ZeroBase(initial, points)
    ensures exists i: nat | i < |pnl| :: BaseOf(initial, points, pnl, i) == Some(0.0)
  {
    hide ClosingOn;
    var day, later: int :| day < later && ClosingOn(points, day) == Some(0.0) && ClosingOn(points, later).Some?;
    Follows(initial, points, pnl, day, later);
  }

  lemma Follows(initial: real, points: seq<EquityPoint>, pnl: seq<(int, real)>, day: int, later: int)
    requires forall i, j | 0 <= i < j < |pnl| :: pnl[i].0 < pnl[j].0
    requires Entered(pnl, day) && Entered(pnl, later) && day < later && ClosingOn(points, day) == Some(0.0)
    ensures exists i: nat | i < |pnl| :: BaseOf(initial, points, pnl, i) == Some(0.0)
  {
    hide ClosingOn;
    var i: int :| 0 <= i < |pnl| && pnl[i].0 == day;
    var j: int :| 0 <= j < |pnl| && pnl[j].0 == later;
    assert i + 1 < |pnl|;
    assert BaseOf(initial, points, pnl, i + 1) == Some(0.0);
  }

  method Exposure(equity: seq<EquityPoint>) returns (exposed: Time, total: Time)
    requires equity != []
    ensures exposed == Exposed(equity, |equity| - 1) && total == Observed(equity, |equity| - 1)
  {
    exposed, total := 0, 0;
    for i := 0 to |equity| - 1
      invariant exposed == Exposed(equity, i) && total == Observed(equity, i)
    {
      var left, right := equity[i], equity[i + 1];
      if IstDay(left.timestamp) == IstDay(right.timestamp) {
        var duration := right.timestamp - left.timestamp;
        total := total + duration;
        if left.marketValue > 0.0 {
          exposed := exposed + duration;
        }
      }
    }
  }

  method AllCosts(fills: seq<Fill>) returns (costs: CostBreakdown)
    ensures costs == SumBreakdown(fills)
  {
    hide CostBreakdown.Plus;
    costs := NO_COSTS;
    for i := 0 to |fills|
      invariant costs == SumBreakdown(fills[..i])
    {
      assert fills[..i + 1][..i] == fills[..i];
      costs := costs.Plus(fills[i].costs);
    }
    assert fills[..|fills|] == fills;
  }

  /** The report exists unless some return would be taken on a zero equity. */
  method Performance(root: real -> real, equity: seq<EquityPoint>, fills: seq<Fill>, trades: seq<Trade>) returns (outcome: Result<Report>)
    requires equity != [] && IsRoot(root)
    ensures outcome.Ok? <==> !ZeroBase(equity[0].equity, equity[1..])
    ensures outcome.Ok? ==> Reported(root, equity, fills, trades, outcome.value)
    ensures outcome.Err? ==> outcome.error == DivisionByZero
  {
    hide Quotient, CostBreakdown.Total, ClosingOn, DailyLedger, Observed, Exposed, Sum, SumInt, SumBreakdown;
    hide Returns, Rated, Summarises, IsGreatest;
    var initial, ending := equity[0].equity, equity[|equity| - 1].equity;
    var costs := AllCosts(fills);
    var slip := Sum(fills, SlippageOf);
    var daily, days := CloseDays(equity[1..]);
    var pnl, rates := DailyPnl(initial, equity[1..], daily, days);
    if pnl.Err? {
      return Err(pnl.error);
    }
    var sharpe, sortino := Ratios(root, rates);
    var exposed, total := Exposure(equity);
    if initial == 0.0 {
      return Err(DivisionByZero);
    }
    var trading := TradingStatistics(trades);
    var deepest := Greatest(equity, Drawdown);
    var steepest := Greatest(equity, DrawdownPct);
    outcome := Ok(Report(
      initial, ending, ending - initial + costs.Total() + slip, ending - initial + costs.Total(), ending - initial,
      costs, slip, Quotient(ending - initial, initial), SumInt(trades, Winner), SumInt(trades, Loser),
      Sum(trades, ProfitOf), -Sum(trades, LossOf), trading, deepest, steepest, Sum(fills, TurnoverOf),
      exposed, total, Percentage(exposed, total), sharpe, sortino, pnl.value));
  }

  // ----- how it reconciles

  /** The clock never runs backwards along the curve. */
  ghost predicate InOrder(points: seq<EquityPoint>) {
    forall i, j | 0 <= i < j < |points| :: points[i].timestamp <= points[j].timestamp
  }

  lemma {:induction false} ClosingExists(points: seq<EquityPoint>, day: int)
    ensures ClosingOn(points, day).Some? <==> exists i :: 0 <= i < |points| && IstDay(points[i].timestamp) == day
  {
    if points != [] {
      ClosingExists(points[..|points| - 1], day);
    }
  }

  lemma {:induction false} DailyTelescopes(initial: real, points: seq<EquityPoint>, pnl: seq<(int, real)>, n: nat)
    requires DailyLedger(initial, points, pnl) && n <= |pnl|
    ensures Sum(pnl[..n], Amount) == if n == 0 then 0.0 else ClosingOn(points, pnl[n - 1].0).value - initial
  {
    hide ClosingOn, DailyLedger, BaseOf;
    if n > 0 {
      DailyTelescopes(initial, points, pnl, n - 1);
      assert pnl[..n][..n - 1] == pnl[..n - 1];
      LedgerEntry(initial, points, pnl, n - 1);
    } else {
      assert pnl[..0] == [];
    }
  }

  lemma LedgerEntry(initial: real, points: seq<EquityPoint>, pnl: seq<(int, real)>, i: nat)
    requires DailyLedger(initial, points, pnl) && i < |pnl|
    ensures ClosingOn(points, pnl[i].0).Some?
    ensures pnl[i].1 == ClosingOn(points, pnl[i].0).value - if i == 0 then initial else ClosingOn(points, pnl[i - 1].0).value
    ensures i > 0 ==> ClosingOn(points, pnl[i - 1].0).Some?
  {
    hide ClosingOn, Entered;
  }

  lemma NotAfterLast(points: seq<EquityPoint>, day: int)
    requires points != [] && InOrder(points) && exists i :: 0 <= i < |points| && IstDay(points[i].timestamp) == day
    ensures day <= IstDay(points[|points| - 1].timestamp)
  {
  }

  lemma LastIsGreatest(pnl: seq<(int, real)>, day: int)
    requires forall i, j | 0 <= i < j < |pnl| :: pnl[i].0 < pnl[j].0
    requires Entered(pnl, day)
    ensures day <= pnl[|pnl| - 1].0
  {
  }

  /** The last day in the ledger is the day of the last point. */
  lemma LastDay(initial: real, points: seq<EquityPoint>, pnl: seq<(int, real)>)
    requires points != [] && InOrder(points) && DailyLedger(initial, points, pnl)
    ensures pnl != [] && pnl[|pnl| - 1].0 == IstDay(points[|points| - 1].timestamp)
    ensures ClosingOn(points, pnl[|pnl| - 1].0) == Some(points[|points| - 1].equity)
  {
    var last := IstDay(points[|points| - 1].timestamp);
    assert ClosingOn(points, last) == Some(points[|points| - 1].equity);
    hide ClosingOn, BaseOf;
    assert Entered(pnl, last);
    var final := pnl[|pnl| - 1].0;
    assert ClosingOn(points, final).Some?;
    ClosingExists(points, final);
    NotAfterLast(points, final);
    LastIsGreatest(pnl, last);
  }

  /** The days' P&L add up to the whole change in equity. */
  lemma DailySums(equity: seq<EquityPoint>, pnl: seq<(int, real)>)
    requires equity != [] && InOrder(equity) && DailyLedger(equity[0].equity, equity[1..], pnl)
    ensures Sum(pnl, Amount) == equity[|equity| - 1].equity - equity[0].equity
  {
    hide DailyLedger, ClosingOn;
    var points := equity[1..];
    DailyTelescopes(equity[0].equity, points, pnl, |pnl|);
    assert pnl[..|pnl|] == pnl;
    if points == [] {
      NoDays(equity[0].equity, pnl);
    } else {
      LastDay(equity[0].equity, points, pnl);
    }
  }

  lemma NoDays(initial: real, pnl: seq<(int, real)>)
    requires DailyLedger(initial, [], pnl)
    ensures pnl == []
  {
    assert |pnl| > 0 ==> ClosingOn([], pnl[0].0).Some?;
  }

  lemma {:induction false} ExposureWithin(equity: seq<EquityPoint>, n: nat)
    requires n < |equity| && InOrder(equity)
    ensures 0 <= Exposed(equity, n) <= Observed(equity, n)
  {
    if n > 0 {
      ExposureWithin(equity, n - 1);
    }
  }

  lemma {:induction false} TurnoverSplits(fills: seq<Fill>)
    ensures Sum(fills, TurnoverOf) == Sum(fills, BuyValue) + Sum(fills, SellValue)
  {
    if fills != [] {
      TurnoverSplits(fills[..|fills| - 1]);
    }
  }

  lemma PercentageWithin(exposed: Time, total: Time)
    requires 0 <= exposed <= total
    ensures 0.0 <= Percentage(exposed, total) <= 100.0
  {
    if total > 0 {
      AtMost(100.0 * exposed as real, total as real, 100.0);
      Above(100.0 * exposed as real, total as real);
    }
  }

  lemma {:induction false} BreakdownTotals(fills: seq<Fill>)
    ensures SumBreakdown(fills).Total() == Sum(fills, Fee)
  {
    if fills == [] {
      NoCostsTotal();
    } else {
      hide CostBreakdown.Plus, CostBreakdown.Total;
      BreakdownTotals(fills[..|fills| - 1]);
      PlusTotal(SumBreakdown(fills[..|fills| - 1]), fills[|fills| - 1].costs);
    }
  }
}
