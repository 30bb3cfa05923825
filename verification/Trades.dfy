/**
 * An independent account of the trade ledger: which fills form each flat-to-flat trade, and what the
 * published trades say about exactly those fills.
 */
module Trades {
  import opened Common
  import opened Orders
  import opened Costs
  import opened Accounting

  function Net(fills: seq<Fill>): int { SumInt(fills, Signed) }

  /** The fills of a symbol since it was last flat. */
  function OpenFills(fills: seq<Fill>, symbol: Symbol): seq<Fill> {
    if fills == [] then []
    else
      var before := OpenFills(fills[..|fills| - 1], symbol);
      var last := fills[|fills| - 1];
      if last.symbol != symbol then before
      else if Net(before + [last]) == 0 then [] else before + [last]
  }

  /** The flat-to-flat groups of fills, in the order in which they closed. */
  function ClosedGroups(fills: seq<Fill>): seq<seq<Fill>> {
    if fills == [] then []
    else
      var before := fills[..|fills| - 1];
      var last := fills[|fills| - 1];
      var group := OpenFills(before, last.symbol) + [last];
      if Net(group) == 0 then ClosedGroups(before) + [group] else ClosedGroups(before)
  }

  ghost predicate Totals(group: seq<Fill>, bought: int, buyValue: real, sellValue: real, costs: CostBreakdown, slippage: real) {
    && bought == SumInt(group, BoughtShares)
    && buyValue == Sum(group, BuyValue)
    && sellValue == Sum(group, SellValue)
    && costs == SumBreakdown(group)
    && slippage == Sum(group, SlippageOf)
  }

  /** A position sums up the fills since flat; realized P&L and remaining basis share out the purchase value. */
  ghost predicate SumsUp(p: Position, open: seq<Fill>) {
    && p.quantity == Net(open)
    && (p.quantity == 0 <==> open == [])
    && Totals(open, p.bought, p.buyValue, p.sellValue, p.costs, p.slippage)
    && p.realized == p.sellValue - p.buyValue + p.basis
    && (open != [] ==> p.enteredAt == Some(open[0].timestamp))
  }

  /** What a published trade says of the fills of its group. */
  ghost predicate Reports(t: Trade, group: seq<Fill>) {
    && group != []
    && Net(group) == 0
    && (forall f | f in group :: f.symbol == t.symbol)
    && t.entryTime == group[0].timestamp && t.exitTime == group[|group| - 1].timestamp
    && t.holding == t.exitTime - t.entryTime
    && t.exitReason == group[|group| - 1].reason
    && t.entryQuantity == SumInt(group, BoughtShares)
    && t.executionPnl == Sum(group, SellValue) - Sum(group, BuyValue)
    && t.slippageCost == Sum(group, SlippageOf)
    && t.costs == SumBreakdown(group)
    && t.grossPnl == t.executionPnl + t.slippageCost
    && t.netPnl == t.executionPnl - t.costs.Total()
    && t.entryQuantity != 0
    && t.entryPrice == Quotient(Sum(group, BuyValue), t.entryQuantity as real)
    && t.exitPrice == Quotient(Sum(group, SellValue), t.entryQuantity as real)
  }

  ghost predicate Audited(book: Book, fills: seq<Fill>) {
    && (forall s: Symbol :: SumsUp(book.PositionOf(s), OpenFills(fills, s)))
    && |book.trades| == |ClosedGroups(fills)|
    && (forall i | 0 <= i < |book.trades| ::
          book.trades[i].tradeId == i + 1 && Reports(book.trades[i], ClosedGroups(fills)[i]))
  }

  lemma {:induction false} OpenFillsSymbol(fills: seq<Fill>, symbol: Symbol)
    ensures forall f | f in OpenFills(fills, symbol) :: f.symbol == symbol
  {
    if fills != [] {
      OpenFillsSymbol(fills[..|fills| - 1], symbol);
    }
  }

  lemma PushTotals(group: seq<Fill>, fill: Fill)
    ensures Net(group + [fill]) == Net(group) + Signed(fill)
    ensures SumInt(group + [fill], BoughtShares) == SumInt(group, BoughtShares) + BoughtShares(fill)
    ensures Sum(group + [fill], BuyValue) == Sum(group, BuyValue) + BuyValue(fill)
    ensures Sum(group + [fill], SellValue) == Sum(group, SellValue) + SellValue(fill)
    ensures Sum(group + [fill], SlippageOf) == Sum(group, SlippageOf) + SlippageOf(fill)
    ensures SumBreakdown(group + [fill]) == SumBreakdown(group).Plus(fill.costs)
  {
    SumIntPush(group, fill, Signed);
    SumIntPush(group, fill, BoughtShares);
    SumPush(group, fill, BuyValue);
    SumPush(group, fill, SellValue);
    SumPush(group, fill, SlippageOf);
    SumBreakdownPush(group, fill);
  }

  /** The position a fill produces, before a flat one is reset. */
  function Updated(release: Release, p: Position, fill: Fill): Position {
    Charged(if fill.side == Buy then AfterBuy(p, fill) else AfterSell(release, p, fill), fill)
  }

  lemma UpdateSumsUp(release: Release, p: Position, open: seq<Fill>, fill: Fill)
    requires SumsUp(p, open) && fill.quantity > 0
    requires fill.side == Sell ==> fill.quantity <= p.quantity
    requires p.quantity >= 0
    ensures var q := Updated(release, p, fill);
            && q.quantity == Net(open + [fill])
            && Totals(open + [fill], q.bought, q.buyValue, q.sellValue, q.costs, q.slippage)
            && q.realized == q.sellValue - q.buyValue + q.basis
            && q.enteredAt == Some((open + [fill])[0].timestamp)
            && (q.quantity == 0 ==> q.basis == 0.0)
  {
    hide Value, Quotient, CostBreakdown.Plus, CostBreakdown.Total;
    PushTotals(open, fill);
  }

  lemma ApplyAudited(release: Release, capital: real, before: seq<Fill>, book: Book, fill: Fill)
    requires WellKept(book) && Audited(book, before) && fill.quantity > 0
    requires Apply(release, book, fill).Ok?
    ensures Audited(Apply(release, book, fill).value, before + [fill])
  {
    hide Apply, SumsUp, Reports, OpenFills, ClosedGroups, Updated, Net;
    var next := Apply(release, book, fill).value;
    var fills := before + [fill];
    var p, open := book.PositionOf(fill.symbol), OpenFills(before, fill.symbol);
    assert SumsUp(p, open);
    ApplyUpdates(release, book, fill);
    UpdatedStored(release, p, open, fill);
    OpenPush(before, fill);
    forall s: Symbol
      ensures SumsUp(next.PositionOf(s), OpenFills(fills, s))
    {
      assert SumsUp(book.PositionOf(s), OpenFills(before, s));
    }
    if Net(open + [fill]) == 0 {
      OpenFillsSymbol(before, fill.symbol);
      UpdatedReports(release, p, open, fill, |book.trades| + 1);
    }
  }

  /** What booking a fill does, in terms of its updated position. */
  lemma ApplyUpdates(release: Release, book: Book, fill: Fill)
    requires WellKept(book) && fill.quantity > 0 && Apply(release, book, fill).Ok?
    ensures var p, next := book.PositionOf(fill.symbol), Apply(release, book, fill).value;
            var q := Updated(release, p, fill);
            && p.quantity >= 0 && (fill.side == Sell ==> fill.quantity <= p.quantity)
            && next.PositionOf(fill.symbol) == (if q.quantity == 0 then NO_POSITION else q)
            && (forall s | s != fill.symbol :: next.PositionOf(s) == book.PositionOf(s))
            && (q.quantity == 0 ==> q.enteredAt.Some? && q.bought != 0)
            && next.trades == book.trades + if q.quantity == 0 then [TradeOf(|book.trades| + 1, q, fill)] else []
  {
    hide Value, Quotient, CostBreakdown.Plus, CostBreakdown.Total, TradeOf;
  }

  lemma OpenPush(before: seq<Fill>, fill: Fill)
    ensures var open := OpenFills(before, fill.symbol) + [fill];
            && OpenFills(before + [fill], fill.symbol) == (if Net(open) == 0 then [] else open)
            && (forall s: Symbol | s != fill.symbol :: OpenFills(before + [fill], s) == OpenFills(before, s))
            && ClosedGroups(before + [fill]) == ClosedGroups(before) + if Net(open) == 0 then [open] else []
  {
    hide Net;
    assert (before + [fill])[..|before|] == before;
  }

  /** The stored position sums up the fills that are open after this one. */
  lemma UpdatedStored(release: Release, p: Position, open: seq<Fill>, fill: Fill)
    requires SumsUp(p, open) && fill.quantity > 0 && p.quantity >= 0
    requires fill.side == Sell ==> fill.quantity <= p.quantity
    ensures var q := Updated(release, p, fill);
            && q.quantity == Net(open + [fill])
            && (if q.quantity == 0 then SumsUp(NO_POSITION, []) else SumsUp(q, open + [fill]))
  {
    hide Updated, Net, Totals;
    UpdateSumsUp(release, p, open, fill);
    EmptyTotals();
  }

  lemma UpdatedReports(release: Release, p: Position, open: seq<Fill>, fill: Fill, id: nat)
    requires SumsUp(p, open) && fill.quantity > 0 && p.quantity >= 0
    requires fill.side == Sell ==> fill.quantity <= p.quantity
    requires Net(open + [fill]) == 0 && forall f | f in open :: f.symbol == fill.symbol
    requires var q := Updated(release, p, fill); q.enteredAt.Some? && q.bought != 0
    ensures Reports(TradeOf(id, Updated(release, p, fill), fill), open + [fill])
  {
    hide Updated, Quotient, Net, CostBreakdown.Total, Sum, SumInt, SumBreakdown;
    UpdateSumsUp(release, p, open, fill);
  }

  lemma EmptyTotals()
    ensures SumsUp(NO_POSITION, [])
  {
  }

  /**
   * The ledger is exactly the flat-to-flat decomposition of the fills: one trade per closed group, in order,
   * with execution P&L equal to sale value less purchase value of its own fills.
   */
  lemma {:induction false} LedgerAudit(release: Release, capital: real, fills: seq<Fill>)
    requires Positive(fills) && Replay(release, capital, fills).Ok?
    ensures Audited(Replay(release, capital, fills).value, fills)
  {
    if fills == [] {
      EmptyTotals();
    } else {
      hide Apply, Audited, WellKept;
      var n := |fills| - 1;
      var book := Replay(release, capital, fills[..n]).value;
      ReplayKept(release, capital, fills[..n]);
      LedgerAudit(release, capital, fills[..n]);
      ApplyAudited(release, capital, fills[..n], book, fills[n]);
      assert fills[..n] + [fills[n]] == fills;
    }
  }

  // ----- P&L at base prices

  /** Executed on the adverse side of the base price, with the slippage charged accordingly. */
  predicate Adverse(f: Fill) {
    && (if f.side == Buy then f.price >= f.basePrice else f.price <= f.basePrice)
    && f.slippageCost == Value(f.quantity, Abs(f.price - f.basePrice))
  }

  lemma AdverseSlippage(f: Fill)
    requires Adverse(f)
    ensures SellValue(f) - BuyValue(f) + SlippageOf(f) == SellBase(f) - BuyBase(f)
  {
    var q := f.quantity as real;
    assert q * (f.price - f.basePrice) == q * f.price - q * f.basePrice;
    assert q * (f.basePrice - f.price) == q * f.basePrice - q * f.price;
  }

  /** Adding slippage back to execution P&L gives P&L at base prices, over any adverse fills. */
  lemma {:induction false} GrossAtBase(fills: seq<Fill>)
    requires forall f | f in fills :: Adverse(f)
    ensures Sum(fills, SellValue) - Sum(fills, BuyValue) + Sum(fills, SlippageOf) == Sum(fills, SellBase) - Sum(fills, BuyBase)
  {
    if fills != [] {
      GrossAtBase(fills[..|fills| - 1]);
      AdverseSlippage(fills[|fills| - 1]);
    }
  }

  lemma {:induction false} GroupsAreFills(fills: seq<Fill>)
    ensures forall g, f | g in ClosedGroups(fills) && f in g :: f in fills
    ensures forall s, f | f in OpenFills(fills, s) :: f in fills
  {
    if fills != [] {
      var before := fills[..|fills| - 1];
      GroupsAreFills(before);
      assert forall f | f in before :: f in fills;
      forall g | g in ClosedGroups(fills)
        ensures forall f | f in g :: f in fills
      {
        if g !in ClosedGroups(before) {
          assert g == OpenFills(before, fills[|before|].symbol) + [fills[|before|]];
        }
      }
      forall s
        ensures forall f | f in OpenFills(fills, s) :: f in fills
      {
        assert forall f | f in OpenFills(before, s) :: f in before;
      }
    }
  }

  /** Each closed trade's gross P&L is the P&L of its own fills at base prices. */
  lemma TradeGrossAtBase(release: Release, capital: real, fills: seq<Fill>, i: nat)
    requires Positive(fills) && (forall f | f in fills :: Adverse(f))
    requires Replay(release, capital, fills).Ok? && i < |Replay(release, capital, fills).value.trades|
    ensures |ClosedGroups(fills)| == |Replay(release, capital, fills).value.trades|
    ensures var group := ClosedGroups(fills)[i];
            Replay(release, capital, fills).value.trades[i].grossPnl == Sum(group, SellBase) - Sum(group, BuyBase)
  {
    LedgerAudit(release, capital, fills);
    GroupsAreFills(fills);
    var group := ClosedGroups(fills)[i];
    assert group in ClosedGroups(fills);
    GrossAtBase(group);
    assert Reports(Replay(release, capital, fills).value.trades[i], group);
  }

  // ----- flat books

  ghost predicate Flat(book: Book) { forall s | s in book.positions :: book.positions[s].quantity == 0 }

  lemma {:induction false} EmptySums(m: map<Symbol, Position>, f: (Symbol, Position) -> real)
    requires forall s | s in m :: f(s, m[s]) == 0.0
    ensures SumOver(m, f) == 0.0
    decreases |m|
  {
    if m != map[] {
      var k :| k in m;
      SumExtract(m, f, k);
      EmptySums(m - {k}, f);
    }
  }

  lemma {:induction false} NetIsExecutionLessCosts(trades: seq<Trade>)
    requires forall t | t in trades :: t.netPnl == t.executionPnl - t.costs.Total()
    ensures Sum(trades, NetOf) == Sum(trades, ExecutionOf) - Sum(trades, TradeCosts)
  {
    if trades != [] {
      NetIsExecutionLessCosts(trades[..|trades| - 1]);
    }
  }

  /**
   * Ledger reconciliation of a flat book: the trades' net P&L is the change in cash, which is execution P&L
   * less all costs; and adding costs and slippage back gives sales less purchases at base prices.
   */
  lemma FlatReconciles(release: Release, capital: real, fills: seq<Fill>)
    requires Positive(fills) && (forall f | f in fills :: Adverse(f))
    requires Replay(release, capital, fills).Ok? && Flat(Replay(release, capital, fills).value)
    ensures var book := Replay(release, capital, fills).value;
            && book.cash == capital + Sum(book.trades, NetOf)
            && Sum(book.trades, NetOf) == Sum(book.trades, ExecutionOf) - Sum(fills, Fee)
            && book.realized == Sum(book.trades, ExecutionOf) == Sum(fills, SellValue) - Sum(fills, BuyValue)
            && book.cash - capital + Sum(fills, Fee) + Sum(fills, SlippageOf) == Sum(fills, SellBase) - Sum(fills, BuyBase)
  {
    hide Value;
    var book := Replay(release, capital, fills).value;
    Conservation(release, capital, fills);
    ReplayKept(release, capital, fills);
    LedgerAudit(release, capital, fills);
    NoCostsTotal();
    EmptySums(book.positions, BasisOf);
    EmptySums(book.positions, RealizedOf);
    EmptySums(book.positions, CostsOf);
    forall t | t in book.trades
      ensures t.netPnl == t.executionPnl - t.costs.Total()
    {
      var i :| 0 <= i < |book.trades| && book.trades[i] == t;
      assert Reports(t, ClosedGroups(fills)[i]);
    }
    NetIsExecutionLessCosts(book.trades);
    GrossAtBase(fills);
  }
}
