/** The report's statistics: of closed trades, of falls from a peak, and of daily returns. */
module Statistics {
  import opened Common
  import opened Accounting

  function Winner(t: Trade): int { if t.netPnl > 0.0 then 1 else 0 }
  function Loser(t: Trade): int { if t.netPnl < 0.0 then 1 else 0 }
  function ProfitOf(t: Trade): real { if t.netPnl > 0.0 then t.netPnl else 0.0 }
  function LossOf(t: Trade): real { if t.netPnl < 0.0 then t.netPnl else 0.0 }
  function HoldingOf(t: Trade): real { t.holding as real }

  /** total / count, when there is anything to divide by. */
  function Average(total: real, count: int): Option<real> {
    if count == 0 then None else Some(Quotient(total, count as real))
  }

  lemma QuotientTimes(a: real, b: real)
    requires b != 0.0
    ensures Quotient(a, b) * b == a
  {
  }

  // ----- trades

  /** Averages are taken over all trades, over winners, or over losers. Holding times are in microseconds. */
  datatype TradeStatistics = TradeStatistics(
    winRate: Option<real>, profitFactor: Option<real>, averageWinner: Option<real>, averageLoser: Option<real>,
    expectancy: Option<real>, largestWinner: Option<real>, largestLoser: Option<real>, averageHolding: Option<real>)

  /** The greatest net P&L among winners. */
  ghost predicate IsLargestWinner(trades: seq<Trade>, largest: Option<real>) {
    match largest
    case None => forall i | 0 <= i < |trades| :: trades[i].netPnl <= 0.0
    case Some(m) =>
      && m > 0.0 && (exists i :: 0 <= i < |trades| && trades[i].netPnl == m)
      && forall i | 0 <= i < |trades| :: trades[i].netPnl <= m
  }

  /** The least net P&L among losers. */
  ghost predicate IsLargestLoser(trades: seq<Trade>, largest: Option<real>) {
    match largest
    case None => forall i | 0 <= i < |trades| :: trades[i].netPnl >= 0.0
    case Some(m) =>
      && m < 0.0 && (exists i :: 0 <= i < |trades| && trades[i].netPnl == m)
      && forall i | 0 <= i < |trades| :: trades[i].netPnl >= m
  }

  ghost predicate Summarises(trades: seq<Trade>, t: TradeStatistics) {
    && t.winRate == Average(SumInt(trades, Winner) as real, |trades|)
    && t.averageWinner == Average(Sum(trades, ProfitOf), SumInt(trades, Winner))
    && t.averageLoser == Average(Sum(trades, LossOf), SumInt(trades, Loser))
    && t.expectancy == Average(Sum(trades, NetOf), |trades|)
    && t.averageHolding == Average(Sum(trades, HoldingOf), |trades|)
    && t.profitFactor == (if Sum(trades, LossOf) == 0.0 then None else Some(Quotient(Sum(trades, ProfitOf), -Sum(trades, LossOf))))
    && IsLargestWinner(trades, t.largestWinner) && IsLargestLoser(trades, t.largestLoser)
  }

  /** The greatest winner and the greatest loser, in one pass. */
  method Extremes(trades: seq<Trade>) returns (winner: Option<real>, loser: Option<real>)
    ensures IsLargestWinner(trades, winner) && IsLargestLoser(trades, loser)
  {
    winner, loser := None, None;
    for n := 0 to |trades|
      invariant IsLargestWinner(trades[..n], winner) && IsLargestLoser(trades[..n], loser)
    {
      assert trades[..n + 1] == trades[..n] + [trades[n]];
      var net := trades[n].netPnl;
      WinnerPush(trades[..n], trades[n], winner);
      LoserPush(trades[..n], trades[n], loser);
      if net > 0.0 {
        winner := Some(if winner.Some? then MaxReal(winner.value, net) else net);
      } else if net < 0.0 {
        loser := Some(if loser.Some? then MinReal(loser.value, net) else net);
      }
    }
    assert trades[..|trades|] == trades;
  }

  lemma WinnerPush(trades: seq<Trade>, t: Trade, largest: Option<real>)
    requires IsLargestWinner(trades, largest)
    ensures IsLargestWinner(trades + [t], if t.netPnl <= 0.0 then largest
                                          else Some(if largest.Some? then MaxReal(largest.value, t.netPnl) else t.netPnl))
  {
    var longer := trades + [t];
    assert longer[|trades|] == t;
    if largest.Some? {
      var i :| 0 <= i < |trades| && trades[i].netPnl == largest.value;
      assert longer[i] == trades[i];
    }
  }

  lemma LoserPush(trades: seq<Trade>, t: Trade, largest: Option<real>)
    requires IsLargestLoser(trades, largest)
    ensures IsLargestLoser(trades + [t], if t.netPnl >= 0.0 then largest
                                         else Some(if largest.Some? then MinReal(largest.value, t.netPnl) else t.netPnl))
  {
    var longer := trades + [t];
    assert longer[|trades|] == t;
    if largest.Some? {
      var i :| 0 <= i < |trades| && trades[i].netPnl == largest.value;
      assert longer[i] == trades[i];
    }
  }

  method TradingStatistics(trades: seq<Trade>) returns (t: TradeStatistics)
    ensures Summarises(trades, t)
  {
    hide Sum, SumInt, Quotient;
    var profit, loss := Sum(trades, ProfitOf), Sum(trades, LossOf);
    var winners, losers := SumInt(trades, Winner), SumInt(trades, Loser);
    var winner, loser := Extremes(trades);
    t := TradeStatistics(
      Average(winners as real, |trades|), if loss == 0.0 then None else Some(Quotient(profit, -loss)),
      Average(profit, winners), Average(loss, losers), Average(Sum(trades, NetOf), |trades|),
      winner, loser, Average(Sum(trades, HoldingOf), |trades|));
  }

  function Times(count: int, each: real): real { count as real * each }

  /** Profits are at most the largest winner each, and losses at least the largest loser each. */
  lemma {:induction false} WithinExtremes(trades: seq<Trade>, winner: real, loser: real)
    requires winner >= 0.0 >= loser && forall i | 0 <= i < |trades| :: loser <= trades[i].netPnl <= winner
    ensures Sum(trades, ProfitOf) <= Times(SumInt(trades, Winner), winner)
    ensures Times(SumInt(trades, Loser), loser) <= Sum(trades, LossOf)
  {
    if trades != [] {
      var shorter, t := trades[..|trades| - 1], trades[|trades| - 1];
      WithinExtremes(shorter, winner, loser);
      OneMore(SumInt(shorter, Winner), winner);
      OneMore(SumInt(shorter, Loser), loser);
      hide Times;
    }
  }

  lemma OneMore(count: int, each: real)
    ensures Times(count + 1, each) == Times(count, each) + each
  {
  }

  /** Winners make the profit, losers the loss, and between them the net P&L. */
  lemma {:induction false} Counted(trades: seq<Trade>)
    ensures 0 <= SumInt(trades, Winner) && 0 <= SumInt(trades, Loser)
    ensures SumInt(trades, Winner) + SumInt(trades, Loser) <= |trades|
    ensures 0.0 <= Sum(trades, ProfitOf) && (Sum(trades, ProfitOf) > 0.0 <==> SumInt(trades, Winner) > 0)
    ensures Sum(trades, LossOf) <= 0.0 && (Sum(trades, LossOf) < 0.0 <==> SumInt(trades, Loser) > 0)
    ensures Sum(trades, ProfitOf) + Sum(trades, LossOf) == Sum(trades, NetOf)
  {
    if trades != [] {
      Counted(trades[..|trades| - 1]);
    }
  }

  lemma Negated(count: int, each: real)
    ensures Times(count, -each) == -Times(count, each)
  {
  }

  lemma AverageWithin(total: real, count: int, most: real)
    requires count > 0 && 0.0 < total <= Times(count, most)
    ensures 0.0 < Quotient(total, count as real) <= most
  {
  }

  lemma Above(a: real, b: real)
    requires b > 0.0
    ensures (Quotient(a, b) > 1.0 <==> a > b) && (Quotient(a, b) > 0.0 <==> a > 0.0) && (a >= 0.0 ==> Quotient(a, b) >= 0.0)
    ensures Quotient(-a, b) == -Quotient(a, b)
  {
    var q := Quotient(a, b);
    assert q * b == a;
    hide Quotient;
    ProductSign(q, b);
    ProductSign(q - 1.0, b);
    assert (q - 1.0) * b == q * b - b;
    QuotientTimes(-a, b);
    Cancel(Quotient(-a, b), -q, b);
  }

  lemma AtMost(a: real, b: real, most: real)
    requires b > 0.0
    ensures Quotient(a, b) <= most <==> a <= most * b
  {
    QuotientTimes(a, b);
    hide Quotient;
    ProductSign(Quotient(a, b) - most, b);
    assert (Quotient(a, b) - most) * b == a - most * b;
  }

  lemma ProductSign(x: real, b: real)
    requires b > 0.0
    ensures (x * b > 0.0 <==> x > 0.0) && (x * b == 0.0 <==> x == 0.0)
  {
    if x > 0.0 {
      assert x * b > 0.0;
    } else if x < 0.0 {
      assert (-x) * b > 0.0;
    }
  }

  lemma Cancel(x: real, y: real, b: real)
    requires b > 0.0 && x * b == y * b
    ensures x == y
  {
    assert (x - y) * b == 0.0;
  }

  /**
   * How the statistics of trades agree: expectancy times the number of trades is the net P&L; the profit factor
   * exceeds one exactly when money was made; averages lie between zero and the extremes and exist with them.
   */
  lemma TradesSummed(trades: seq<Trade>, t: TradeStatistics)
    requires Summarises(trades, t)
    ensures t.expectancy.Some? <==> trades != []
    ensures t.expectancy.Some? ==> t.expectancy.value * |trades| as real == Sum(trades, NetOf)
    ensures t.profitFactor.Some? <==> SumInt(trades, Loser) > 0
    ensures t.profitFactor.Some? ==> (t.profitFactor.value > 1.0 <==> Sum(trades, NetOf) > 0.0)
    ensures t.averageWinner.Some? <==> t.largestWinner.Some?
    ensures t.averageWinner.Some? ==> 0.0 < t.averageWinner.value <= t.largestWinner.value
    ensures t.averageLoser.Some? <==> t.largestLoser.Some?
    ensures t.averageLoser.Some? ==> t.largestLoser.value <= t.averageLoser.value < 0.0
    ensures t.winRate.Some? <==> trades != []
    ensures t.winRate.Some? ==> 0.0 <= t.winRate.value <= 1.0
  {
    hide Quotient, Sum, SumInt, Times;
    var winner := if t.largestWinner.Some? then t.largestWinner.value else 0.0;
    var loser := if t.largestLoser.Some? then t.largestLoser.value else 0.0;
    WithinExtremes(trades, winner, loser);
    Counted(trades);
    var profit, loss := Sum(trades, ProfitOf), Sum(trades, LossOf);
    var winners, losers := SumInt(trades, Winner), SumInt(trades, Loser);
    if t.largestWinner.Some? {
      SomeWinner(trades);
      AverageWithin(profit, winners, winner);
    } else {
      Negated(winners, 0.0);
    }
    if t.largestLoser.Some? {
      SomeLoser(trades);
      Negated(losers, loser);
      AverageWithin(-loss, losers, -loser);
      Above(loss, losers as real);
      Above(profit, -loss);
    } else {
      Negated(losers, 0.0);
    }
    if trades != [] {
      QuotientTimes(Sum(trades, NetOf), |trades| as real);
      Above(winners as real, |trades| as real);
    }
  }

  lemma {:induction false} SomeWinner(trades: seq<Trade>)
    requires exists i :: 0 <= i < |trades| && trades[i].netPnl > 0.0
    ensures SumInt(trades, Winner) > 0
  {
    Counted(trades[..|trades| - 1]);
    if trades[|trades| - 1].netPnl <= 0.0 {
      var i :| 0 <= i < |trades| && trades[i].netPnl > 0.0;
      assert trades[..|trades| - 1][i] == trades[i];
      SomeWinner(trades[..|trades| - 1]);
    }
  }

  lemma {:induction false} SomeLoser(trades: seq<Trade>)
    requires exists i :: 0 <= i < |trades| && trades[i].netPnl < 0.0
    ensures SumInt(trades, Loser) > 0
  {
    Counted(trades[..|trades| - 1]);
    if trades[|trades| - 1].netPnl >= 0.0 {
      var i :| 0 <= i < |trades| && trades[i].netPnl < 0.0;
      assert trades[..|trades| - 1][i] == trades[i];
      SomeLoser(trades[..|trades| - 1]);
    }
  }

  // ----- falls from a peak

  /** The greatest value of a figure over the points, attained at one of them. */
  ghost predicate IsGreatest(points: seq<EquityPoint>, figure: EquityPoint -> real, m: real) {
    (exists i :: 0 <= i < |points| && figure(points[i]) == m) && forall i | 0 <= i < |points| :: figure(points[i]) <= m
  }

  function Drawdown(p: EquityPoint): real { p.drawdown }
  function DrawdownPct(p: EquityPoint): real { p.drawdownPct }

  method Greatest(points: seq<EquityPoint>, figure: EquityPoint -> real) returns (m: real)
    requires points != []
    ensures IsGreatest(points, figure, m)
  {
    m := figure(points[0]);
    for n := 1 to |points|
      invariant IsGreatest(points[..n], figure, m)
    {
      assert points[..n + 1] == points[..n] + [points[n]];
      GreatestPush(points[..n], points[n], figure, m);
      m := MaxReal(m, figure(points[n]));
    }
    assert points[..|points|] == points;
  }

  lemma GreatestPush(points: seq<EquityPoint>, p: EquityPoint, figure: EquityPoint -> real, m: real)
    requires IsGreatest(points, figure, m)
    ensures IsGreatest(points + [p], figure, MaxReal(m, figure(p)))
  {
    var longer := points + [p];
    assert longer[|points|] == p;
    var i :| 0 <= i < |points| && figure(points[i]) == m;
    assert longer[i] == points[i];
  }

  // ----- daily returns

  const SESSIONS_PER_YEAR := 252.0
  const MIN_SESSIONS := 20

  /** What is asked of a square root: not negative, and zero at zero alone. */
  ghost predicate IsRoot(root: real -> real) {
    forall x | x >= 0.0 :: root(x) >= 0.0 && (root(x) == 0.0 <==> x == 0.0)
  }

  function Same(r: real): real { r }
  function Square(r: real): real { r * r }

  /** Sum of squared distances from a centre. */
  function Spread(rates: seq<real>, centre: real): real {
    if rates == [] then 0.0 else Spread(rates[..|rates| - 1], centre) + Square(rates[|rates| - 1] - centre)
  }

  /** Sum of squared losses. */
  function Downside(rates: seq<real>): real {
    if rates == [] then 0.0 else Downside(rates[..|rates| - 1]) + Square(MinReal(rates[|rates| - 1], 0.0))
  }

  function MeanOf(rates: seq<real>): real
    requires rates != []
  {
    Quotient(Sum(rates, Same), |rates| as real)
  }

  /** The sample's standard deviation. */
  function Deviation(root: real -> real, rates: seq<real>): real
    requires |rates| > 1
  {
    root(Quotient(Spread(rates, MeanOf(rates)), (|rates| - 1) as real))
  }

  function Semideviation(root: real -> real, rates: seq<real>): real
    requires rates != []
  {
    root(Quotient(Downside(rates), |rates| as real))
  }

  ghost predicate Varied(rates: seq<real>) { exists i, j :: 0 <= i < j < |rates| && rates[i] != rates[j] }

  ghost predicate SomeLoss(rates: seq<real>) { exists i :: 0 <= i < |rates| && rates[i] < 0.0 }

  lemma SquareSign(r: real)
    ensures Square(r) >= 0.0 && (Square(r) == 0.0 <==> r == 0.0)
  {
    if r > 0.0 {
      ProductSign(r, r);
    } else if r < 0.0 {
      ProductSign(-r, -r);
      assert (-r) * (-r) == r * r;
    }
  }

  lemma {:induction false} SpreadSign(rates: seq<real>, centre: real)
    ensures Spread(rates, centre) >= 0.0
    ensures Spread(rates, centre) == 0.0 <==> forall i | 0 <= i < |rates| :: rates[i] == centre
  {
    hide Square;
    if rates != [] {
      var n := |rates| - 1;
      SpreadSign(rates[..n], centre);
      SquareSign(rates[n] - centre);
      assert forall i | 0 <= i < n :: rates[..n][i] == rates[i];
    }
  }

  lemma {:induction false} DownsideSign(rates: seq<real>)
    ensures Downside(rates) >= 0.0 && (Downside(rates) > 0.0 <==> SomeLoss(rates))
  {
    hide Square;
    if rates != [] {
      var n := |rates| - 1;
      DownsideSign(rates[..n]);
      SquareSign(MinReal(rates[n], 0.0));
      assert forall i | 0 <= i < n :: rates[..n][i] == rates[i];
    }
  }

  lemma {:induction false} ConstantSum(rates: seq<real>, r: real)
    requires forall i | 0 <= i < |rates| :: rates[i] == r
    ensures Sum(rates, Same) == |rates| as real * r
  {
    if rates != [] {
      ConstantSum(rates[..|rates| - 1], r);
    }
  }

  /** Returns spread around their mean exactly when they are not all equal. */
  lemma SpreadVaries(rates: seq<real>)
    requires rates != []
    ensures Spread(rates, MeanOf(rates)) >= 0.0 && (Spread(rates, MeanOf(rates)) > 0.0 <==> Varied(rates))
  {
    hide Spread;
    SpreadSign(rates, MeanOf(rates));
    if !Varied(rates) {
      forall i | 0 <= i < |rates|
        ensures rates[i] == rates[0]
      {
        assert i > 0 ==> rates[0] == rates[i];
      }
      ConstantSum(rates, rates[0]);
    }
  }

  lemma RootOfShare(root: real -> real, total: real, n: int)
    requires IsRoot(root) && total >= 0.0 && n > 0
    ensures root(Quotient(total, n as real)) >= 0.0 && (root(Quotient(total, n as real)) > 0.0 <==> total > 0.0)
  {
    assert Quotient(total, n as real) >= 0.0;
  }

  /**
   * The Sharpe and the Sortino ratio. The first exists exactly from twenty days that did not all return the same, the
   * second if moreover some day lost; each has the sign of the mean return.
   */
  ghost predicate Rated(root: real -> real, rates: seq<real>, sharpe: Option<real>, sortino: Option<real>) {
    && (sharpe.Some? <==> |rates| >= MIN_SESSIONS && Varied(rates))
    && (sortino.Some? <==> |rates| >= MIN_SESSIONS && Varied(rates) && SomeLoss(rates))
    && (sharpe.Some? ==> RatioTo(root, rates, Deviation(root, rates), sharpe.value))
    && (sortino.Some? ==> RatioTo(root, rates, Semideviation(root, rates), sortino.value))
  }

  /** Mean return over a positive risk, per year. */
  ghost predicate RatioTo(root: real -> real, rates: seq<real>, risk: real, ratio: real)
    requires rates != []
  {
    && risk > 0.0 && ratio == Quotient(MeanOf(rates), risk) * root(SESSIONS_PER_YEAR)
    && (ratio > 0.0 <==> Sum(rates, Same) > 0.0)
  }

  method Ratios(root: real -> real, rates: seq<real>) returns (sharpe: Option<real>, sortino: Option<real>)
    requires IsRoot(root)
    ensures Rated(root, rates, sharpe, sortino)
  {
    hide Quotient, Sum, Spread, Downside, Varied, SomeLoss;
    sharpe, sortino := None, None;
    if |rates| >= MIN_SESSIONS {
      SpreadVaries(rates);
      DownsideSign(rates);
      RootOfShare(root, Spread(rates, MeanOf(rates)), |rates| - 1);
      RootOfShare(root, Downside(rates), |rates|);
      Above(Sum(rates, Same), |rates| as real);
      var deviation := Deviation(root, rates);
      if deviation > 0.0 {
        Scaled(MeanOf(rates), deviation, root(SESSIONS_PER_YEAR));
        sharpe := Some(Quotient(MeanOf(rates), deviation) * root(SESSIONS_PER_YEAR));
        var downside := Semideviation(root, rates);
        if downside > 0.0 {
          Scaled(MeanOf(rates), downside, root(SESSIONS_PER_YEAR));
          sortino := Some(Quotient(MeanOf(rates), downside) * root(SESSIONS_PER_YEAR));
        }
      }
    }
  }

  lemma Scaled(a: real, b: real, c: real)
    requires b > 0.0 && c > 0.0
    ensures Quotient(a, b) * c > 0.0 <==> a > 0.0
  {
    Above(a, b);
    ProductSign(Quotient(a, b), c);
    hide Quotient;
  }

  // ----- the ratios, written out

  function DistanceSquare(r: real, centre: real): real { (r - centre) * (r - centre) }

  lemma SquaredDistance(r: real, centre: real)
    ensures Square(r - centre) == DistanceSquare(r, centre)
  {
  }

  /** The squared distances from a centre, and the squared losses, return by return. */
  ghost predicate SquaresOf(rates: seq<real>, centre: real, squares: seq<real>) {
    |squares| == |rates| && forall i | 0 <= i < |rates| :: squares[i] == DistanceSquare(rates[i], centre)
  }

  /** A loss counts with its square. */
  function LossSquare(r: real): real { if r < 0.0 then r * r else 0.0 }

  ghost predicate LossSquares(rates: seq<real>, squares: seq<real>) {
    |squares| == |rates| && forall i | 0 <= i < |rates| :: squares[i] == LossSquare(rates[i])
  }

  ghost predicate IsMean(rates: seq<real>, mean: real) { mean * |rates| as real == Sum(rates, Same) }

  /** Mean return over the sample's deviation, per root of 252 sessions. */
  ghost predicate IsSharpe(root: real -> real, rates: seq<real>, ratio: real) {
    exists mean, variance, squares ::
      && IsMean(rates, mean) && SquaresOf(rates, mean, squares)
      && variance * (|rates| - 1) as real == Sum(squares, Same)
      && ratio * root(variance) == mean * root(252.0)
  }

  /** Mean return over the root of the mean squared loss, likewise. */
  ghost predicate IsSortino(root: real -> real, rates: seq<real>, ratio: real) {
    exists mean, variance, squares ::
      && IsMean(rates, mean) && LossSquares(rates, squares)
      && variance * |rates| as real == Sum(squares, Same)
      && ratio * root(variance) == mean * root(252.0)
  }

  lemma {:induction false} SpreadSummed(rates: seq<real>, centre: real) returns (squares: seq<real>)
    ensures SquaresOf(rates, centre, squares) && Sum(squares, Same) == Spread(rates, centre)
  {
    hide Square, DistanceSquare;
    squares := [];
    if rates != [] {
      var n := |rates| - 1;
      var before := SpreadSummed(rates[..n], centre);
      assert forall i | 0 <= i < n :: rates[..n][i] == rates[i];
      SquaredDistance(rates[n], centre);
      squares := before + [DistanceSquare(rates[n], centre)];
      assert squares[..n] == before;
    }
  }

  lemma SquaredLoss(r: real)
    ensures Square(MinReal(r, 0.0)) == LossSquare(r)
  {
  }

  lemma {:induction false} DownsideSummed(rates: seq<real>) returns (squares: seq<real>)
    ensures LossSquares(rates, squares) && Sum(squares, Same) == Downside(rates)
  {
    hide Square, LossSquare;
    squares := [];
    if rates != [] {
      var n := |rates| - 1;
      var before := DownsideSummed(rates[..n]);
      assert forall i | 0 <= i < n :: rates[..n][i] == rates[i];
      SquaredLoss(rates[n]);
      squares := before + [LossSquare(rates[n])];
      assert squares[..n] == before;
    }
  }

  lemma ScaledTimes(mean: real, risk: real, year: real)
    requires risk != 0.0
    ensures (Quotient(mean, risk) * year) * risk == mean * year
  {
    QuotientTimes(mean, risk);
    assert (Quotient(mean, risk) * year) * risk == (Quotient(mean, risk) * risk) * year;
  }

  lemma SharpeExact(root: real -> real, rates: seq<real>, sharpe: real)
    requires |rates| > 1 && RatioTo(root, rates, Deviation(root, rates), sharpe)
    ensures IsSharpe(root, rates, sharpe)
  {
    hide Sum, Spread, Quotient, SquaresOf;
    var mean := MeanOf(rates);
    QuotientTimes(Sum(rates, Same), |rates| as real);
    var squares := SpreadSummed(rates, mean);
    var variance := Quotient(Spread(rates, mean), (|rates| - 1) as real);
    QuotientTimes(Spread(rates, mean), (|rates| - 1) as real);
    ScaledTimes(mean, root(variance), root(252.0));
    assert IsMean(rates, mean) && SquaresOf(rates, mean, squares);
  }

  lemma SortinoExact(root: real -> real, rates: seq<real>, sortino: real)
    requires |rates| > 1 && RatioTo(root, rates, Semideviation(root, rates), sortino)
    ensures IsSortino(root, rates, sortino)
  {
    hide Sum, Downside, Quotient, LossSquares;
    var mean := MeanOf(rates);
    QuotientTimes(Sum(rates, Same), |rates| as real);
    var squares := DownsideSummed(rates);
    var variance := Quotient(Downside(rates), |rates| as real);
    QuotientTimes(Downside(rates), |rates| as real);
    ScaledTimes(mean, root(variance), root(252.0));
    assert IsMean(rates, mean) && LossSquares(rates, squares);
  }

  /** From twenty days that did not all return the same there is a Sharpe ratio, and with a loss a Sortino ratio; these are their values. */
  lemma RatiosExact(root: real -> real, rates: seq<real>, sharpe: Option<real>, sortino: Option<real>)
    requires Rated(root, rates, sharpe, sortino)
    ensures sharpe.Some? <==> |rates| >= 20 && Varied(rates)
    ensures sortino.Some? <==> |rates| >= 20 && Varied(rates) && SomeLoss(rates)
    ensures sharpe.Some? ==> IsSharpe(root, rates, sharpe.value)
    ensures sortino.Some? ==> IsSortino(root, rates, sortino.value)
  {
    hide RatioTo, IsSharpe, IsSortino, Deviation, Semideviation, Varied, SomeLoss;
    if sharpe.Some? {
      SharpeExact(root, rates, sharpe.value);
    }
    if sortino.Some? {
      SortinoExact(root, rates, sortino.value);
    }
  }
}
