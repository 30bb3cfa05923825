/**
 * Long inventory and flat-to-flat trade accounting as a pure machine: Apply is one fill, Replay a whole
 * history. The value that the average-cost division releases on a partial exit is left arbitrary.
 */
module Accounting {
  import opened Common
  import opened Orders
  import opened Costs

  /** Shares times a price. */
  function Value(quantity: int, price: real): real { quantity as real * price }

  function Quotient(a: real, b: real): real
    requires b != 0.0
  {
    a / b
  }

  datatype Fill = Fill(
    fillId: nat, orderId: nat, symbol: Symbol, side: Side, quantity: int, timestamp: Time, barOpen: Time,
    basePrice: real, price: real, costs: CostBreakdown, slippageCost: real, reason: Reference)

  datatype Position = Position(
    quantity: int, basis: real, enteredAt: Option<Time>, bought: int, buyValue: real, sellValue: real,
    realized: real, costs: CostBreakdown, slippage: real)
  {
    function AveragePrice(): real { if quantity == 0 then 0.0 else Quotient(basis, quantity as real) }
  }

  const NO_POSITION := Position(0, 0.0, None, 0, 0.0, 0.0, 0.0, NO_COSTS, 0.0)

  datatype Trade = Trade(
    tradeId: nat, symbol: Symbol, entryTime: Time, exitTime: Time, entryPrice: real, exitPrice: real,
    entryQuantity: int, grossPnl: real, executionPnl: real, costs: CostBreakdown, slippageCost: real,
    netPnl: real, holding: Time, exitReason: Reference)

  datatype Book = Book(
    cash: real, positions: map<Symbol, Position>, realized: real, fees: real, cashSpent: real,
    cashReceived: real, trades: seq<Trade>)
  {
    function PositionOf(symbol: Symbol): Position {
      if symbol in positions then positions[symbol] else NO_POSITION
    }

    function Held(symbol: Symbol): int { PositionOf(symbol).quantity }
  }

  /** release(basis, sold, held): what the 40-digit division basis * sold / held yields. */
  type Release = (real, int, int) -> real

  function Opening(capital: real): Book { Book(capital, map[], 0.0, 0.0, 0.0, 0.0, []) }

  function AfterBuy(p: Position, fill: Fill): Position {
    var turnover := Value(fill.quantity, fill.price);
    p.(enteredAt := if p.quantity == 0 then Some(fill.timestamp) else p.enteredAt,
       quantity := p.quantity + fill.quantity, basis := p.basis + turnover,
       bought := p.bought + fill.quantity, buyValue := p.buyValue + turnover)
  }

  function ReleasedBasis(release: Release, p: Position, quantity: int): real {
    if quantity == p.quantity then p.basis else release(p.basis, quantity, p.quantity)
  }

  function AfterSell(release: Release, p: Position, fill: Fill): Position {
    var turnover := Value(fill.quantity, fill.price);
    var basis := ReleasedBasis(release, p, fill.quantity);
    p.(realized := p.realized + (turnover - basis), basis := p.basis - basis,
       quantity := p.quantity - fill.quantity, sellValue := p.sellValue + turnover)
  }

  /** Charge the fill to its position, as every fill does after its buy or sell update. */
  function Charged(p: Position, fill: Fill): Position {
    p.(costs := p.costs.Plus(fill.costs), slippage := p.slippage + fill.slippageCost)
  }

  function TradeOf(id: nat, p: Position, fill: Fill): Trade
    requires p.enteredAt.Some? && p.bought != 0
  {
    Trade(id, fill.symbol, p.enteredAt.value, fill.timestamp,
      Quotient(p.buyValue, p.bought as real), Quotient(p.sellValue, p.bought as real), p.bought,
      p.realized + p.slippage, p.realized, p.costs, p.slippage, p.realized - p.costs.Total(),
      fill.timestamp - p.enteredAt.value, fill.reason)
  }

  /** The common tail of a fill: fees, the position's charges, and the closing of a flat trade. */
  function Settle(book: Book, p: Position, fill: Fill): Result<Book> {
    var charged := Charged(p, fill);
    var paid := book.(fees := book.fees + fill.costs.Total());
    if charged.quantity != 0 then Ok(paid.(positions := book.positions[fill.symbol := charged]))
    else if charged.enteredAt.None? then Err(UnopenedPosition)
    else if charged.bought == 0 then Err(DivisionByZero)
    else Ok(paid.(positions := book.positions[fill.symbol := NO_POSITION],
                  trades := book.trades + [TradeOf(|book.trades| + 1, charged, fill)]))
  }

  function Apply(release: Release, book: Book, fill: Fill): Result<Book> {
    var p := book.PositionOf(fill.symbol);
    var turnover := Value(fill.quantity, fill.price);
    var fee := fill.costs.Total();
    if fill.side == Buy then
      if turnover + fee > book.cash then Err(InsufficientCash)
      else Settle(book.(cash := book.cash - (turnover + fee), cashSpent := book.cashSpent + turnover),
                  AfterBuy(p, fill), fill)
    else
      if fill.quantity > p.quantity then Err(ShortSelling)
      else
        var basis := ReleasedBasis(release, p, fill.quantity);
        Settle(book.(cash := book.cash + (turnover - fee), cashReceived := book.cashReceived + turnover,
                     realized := book.realized + (turnover - basis)),
               AfterSell(release, p, fill), fill)
  }

  /** The book after a whole history of fills. */
  function Replay(release: Release, capital: real, fills: seq<Fill>): Result<Book> {
    if fills == [] then Ok(Opening(capital))
    else
      var book :- Replay(release, capital, fills[..|fills| - 1]);
      Apply(release, book, fills[|fills| - 1])
  }

  // ----- sums over positions, fills and trades

  ghost function SumOver(m: map<Symbol, Position>, f: (Symbol, Position) -> real): real
    decreases |m|
  {
    if m == map[] then 0.0
    else
      var k :| k in m;
      f(k, m[k]) + SumOver(m - {k}, f)
  }

  /** The order in which a dictionary is summed does not matter. */
  lemma {:induction false} SumExtract(m: map<Symbol, Position>, f: (Symbol, Position) -> real, k: Symbol)
    requires k in m
    ensures SumOver(m, f) == f(k, m[k]) + SumOver(m - {k}, f)
    decreases |m|
  {
    var c :| c in m && SumOver(m, f) == f(c, m[c]) + SumOver(m - {c}, f);
    if c != k {
      SumExtract(m - {c}, f, k);
      SumExtract(m - {k}, f, c);
      assert m - {c} - {k} == m - {k} - {c};
    }
  }

  /** Storing a position replaces its old contribution (an absent symbol contributes like an empty position). */
  lemma SumStore(m: map<Symbol, Position>, f: (Symbol, Position) -> real, k: Symbol, p: Position)
    requires f(k, NO_POSITION) == 0.0
    ensures SumOver(m[k := p], f) == SumOver(m, f) - f(k, if k in m then m[k] else NO_POSITION) + f(k, p)
  {
    SumExtract(m[k := p], f, k);
    assert m[k := p] - {k} == m - {k};
    if k in m {
      SumExtract(m, f, k);
    } else {
      assert m - {k} == m;
    }
  }

  function Sum<T>(items: seq<T>, f: T -> real): real {
    if items == [] then 0.0 else Sum(items[..|items| - 1], f) + f(items[|items| - 1])
  }

  function SumInt<T>(items: seq<T>, f: T -> int): int {
    if items == [] then 0 else SumInt(items[..|items| - 1], f) + f(items[|items| - 1])
  }

  function SumBreakdown(fills: seq<Fill>): CostBreakdown {
    if fills == [] then NO_COSTS else SumBreakdown(fills[..|fills| - 1]).Plus(fills[|fills| - 1].costs)
  }

  lemma SumPush<T>(items: seq<T>, item: T, f: T -> real)
    ensures Sum(items + [item], f) == Sum(items, f) + f(item)
  {
    assert (items + [item])[..|items|] == items;
  }

  lemma SumIntPush<T>(items: seq<T>, item: T, f: T -> int)
    ensures SumInt(items + [item], f) == SumInt(items, f) + f(item)
  {
    assert (items + [item])[..|items|] == items;
  }

  lemma SumBreakdownPush(fills: seq<Fill>, fill: Fill)
    ensures SumBreakdown(fills + [fill]) == SumBreakdown(fills).Plus(fill.costs)
  {
    assert (fills + [fill])[..|fills|] == fills;
  }

  function Fee(f: Fill): real { f.costs.Total() }
  function BuyValue(f: Fill): real { if f.side == Buy then Value(f.quantity, f.price) else 0.0 }
  function SellValue(f: Fill): real { if f.side == Sell then Value(f.quantity, f.price) else 0.0 }
  function BuyBase(f: Fill): real { if f.side == Buy then Value(f.quantity, f.basePrice) else 0.0 }
  function SellBase(f: Fill): real { if f.side == Sell then Value(f.quantity, f.basePrice) else 0.0 }
  function SlippageOf(f: Fill): real { f.slippageCost }
  function Signed(f: Fill): int { if f.side == Buy then f.quantity else -f.quantity }
  function BoughtShares(f: Fill): int { if f.side == Buy then f.quantity else 0 }

  function BasisOf(s: Symbol, p: Position): real { p.basis }
  function RealizedOf(s: Symbol, p: Position): real { p.realized }
  function CostsOf(s: Symbol, p: Position): real { p.costs.Total() }
  function NetOf(t: Trade): real { t.netPnl }
  function ExecutionOf(t: Trade): real { t.executionPnl }
  function TradeCosts(t: Trade): real { t.costs.Total() }

  // ----- well-formed books: no shorts, and a flat position is an empty one

  ghost predicate WellKept(book: Book) {
    forall s | s in book.positions ::
      var p := book.positions[s];
      && 0 <= p.quantity <= p.bought
      && (p.quantity == 0 ==> p == NO_POSITION)
      && (p.quantity > 0 ==> p.enteredAt.Some?)
  }

  predicate Positive(fills: seq<Fill>) { forall f | f in fills :: f.quantity > 0 }

  /** What can make a fill of positive quantity fail: the cash test for a buy, the inventory test for a sell. */
  lemma ApplySucceeds(release: Release, book: Book, fill: Fill)
    requires WellKept(book) && fill.quantity > 0
    ensures Apply(release, book, fill).Ok? <==>
            if fill.side == Buy then Value(fill.quantity, fill.price) + fill.costs.Total() <= book.cash
            else fill.quantity <= book.Held(fill.symbol)
    ensures Apply(release, book, fill).Ok? ==>
              var next := Apply(release, book, fill).value;
              && WellKept(next)
              && next.Held(fill.symbol) == book.Held(fill.symbol) + Signed(fill)
              && (forall s | s != fill.symbol :: next.PositionOf(s) == book.PositionOf(s))
              && (fill.side == Buy ==> next.cash >= 0.0)
  {
    hide Value, CostBreakdown.Plus, CostBreakdown.Total;
  }

  /** No position is ever short, and the held quantity is the net of the fills. */
  lemma {:induction false} ReplayKept(release: Release, capital: real, fills: seq<Fill>)
    requires Positive(fills) && Replay(release, capital, fills).Ok?
    ensures WellKept(Replay(release, capital, fills).value)
  {
    if fills != [] {
      var n := |fills| - 1;
      ReplayKept(release, capital, fills[..n]);
      ApplySucceeds(release, Replay(release, capital, fills[..n]).value, fills[n]);
    }
  }

  // ----- conservation

  /** Money is neither made nor lost by the books. */
  ghost predicate Conserved(book: Book, capital: real) {
    && book.cash + SumOver(book.positions, BasisOf) == capital + book.realized - book.fees
    && book.realized == Sum(book.trades, ExecutionOf) + SumOver(book.positions, RealizedOf)
    && book.fees == Sum(book.trades, TradeCosts) + SumOver(book.positions, CostsOf)
    && book.cash == capital - book.cashSpent + book.cashReceived - book.fees
  }

  lemma PlusTotal(c: CostBreakdown, d: CostBreakdown)
    ensures c.Plus(d).Total() == c.Total() + d.Total()
  {
  }

  lemma ApplyConserves(release: Release, capital: real, book: Book, fill: Fill)
    requires Conserved(book, capital) && WellKept(book) && fill.quantity > 0 && Apply(release, book, fill).Ok?
    ensures Conserved(Apply(release, book, fill).value, capital)
  {
    hide Value, CostBreakdown.Plus, CostBreakdown.Total;
    var next := Apply(release, book, fill).value;
    var p := book.PositionOf(fill.symbol);
    var moved := if fill.side == Buy then AfterBuy(p, fill) else AfterSell(release, p, fill);
    var charged := Charged(moved, fill);
    PlusTotal(moved.costs, fill.costs);
    var stored := if charged.quantity != 0 then charged else NO_POSITION;
    assert next.positions == book.positions[fill.symbol := stored];
    assert NO_COSTS.Total() == 0.0 by { NoCostsTotal(); }
    SumStore(book.positions, BasisOf, fill.symbol, stored);
    SumStore(book.positions, RealizedOf, fill.symbol, stored);
    SumStore(book.positions, CostsOf, fill.symbol, stored);
    if charged.quantity == 0 {
      var t := TradeOf(|book.trades| + 1, charged, fill);
      SumPush(book.trades, t, ExecutionOf);
      SumPush(book.trades, t, TradeCosts);
    }
  }

  lemma NoCostsTotal()
    ensures NO_COSTS.Total() == 0.0
  {
  }

  /**
   * Conservation over any sequence of fills: cash plus open bases is the starting capital plus realized P&L less
   * fees, whatever the division released on partial exits; realized P&L and fees are those of the closed
   * trades plus those of the open positions; and cash is capital less purchases plus sales less all fees.
   */
  lemma {:induction false} Conservation(release: Release, capital: real, fills: seq<Fill>)
    requires Positive(fills) && Replay(release, capital, fills).Ok?
    ensures Conserved(Replay(release, capital, fills).value, capital)
    ensures var book := Replay(release, capital, fills).value;
            && book.fees == Sum(fills, Fee)
            && book.cashSpent == Sum(fills, BuyValue)
            && book.cashReceived == Sum(fills, SellValue)
  {
    if fills != [] {
      hide Apply, Conserved, WellKept;
      var n := |fills| - 1;
      var book := Replay(release, capital, fills[..n]).value;
      Conservation(release, capital, fills[..n]);
      ReplayKept(release, capital, fills[..n]);
      ApplyConserves(release, capital, book, fills[n]);
      ApplyTotals(release, book, fills[n]);
    } else {
      NothingConserved(capital);
    }
  }

  lemma NothingConserved(capital: real)
    ensures Conserved(Opening(capital), capital)
  {
  }

  lemma ApplyTotals(release: Release, book: Book, fill: Fill)
    requires Apply(release, book, fill).Ok?
    ensures var next := Apply(release, book, fill).value;
            && next.fees == book.fees + Fee(fill)
            && next.cashSpent == book.cashSpent + BuyValue(fill) && next.cashReceived == book.cashReceived + SellValue(fill)
  {
    hide Value, CostBreakdown.Plus, CostBreakdown.Total;
  }

  // ----- marking to market

  datatype EquityPoint = EquityPoint(
    timestamp: Time, cash: real, marketValue: real, equity: real, realizedPnl: real, unrealizedPnl: real,
    peak: real, drawdown: real, drawdownPct: real)

  type Prices = map<Symbol, real>

  ghost function MarketValue(book: Book, prices: Prices): real {
    SumOver(book.positions, MarkedAt(prices))
  }

  function MarkedAt(prices: Prices): (Symbol, Position) -> real {
    (s: Symbol, p: Position) => if p.quantity != 0 && s in prices then Value(p.quantity, prices[s]) else 0.0
  }

  ghost predicate Priced(book: Book, prices: Prices) {
    forall s | s in book.positions && book.positions[s].quantity != 0 :: s in prices
  }

  /** The equity point of an instant; its peak field is the portfolio's peak afterwards. */
  ghost function Mark(book: Book, peak: real, now: Time, prices: Prices): Result<EquityPoint> {
    if !Priced(book, prices) then Err(MissingPrice)
    else
      var value := MarketValue(book, prices);
      var equity := book.cash + value;
      var top := MaxReal(peak, equity);
      if top == 0.0 then Err(DivisionByZero)
      else Ok(EquityPoint(now, book.cash, value, equity, book.realized,
                          value - SumOver(book.positions, BasisOf), top, top - equity, Quotient(top - equity, top)))
  }

  /** Every marked equity is starting capital plus realized and unrealized P&L less fees. */
  lemma MarkReconciles(release: Release, capital: real, fills: seq<Fill>, peak: real, now: Time, prices: Prices)
    requires Positive(fills) && Replay(release, capital, fills).Ok?
    requires Mark(Replay(release, capital, fills).value, peak, now, prices).Ok?
    ensures var point := Mark(Replay(release, capital, fills).value, peak, now, prices).value;
            && point.equity == point.cash + point.marketValue
            && point.equity == capital + point.realizedPnl + point.unrealizedPnl - Sum(fills, Fee)
            && point.equity == point.peak - point.drawdown && point.drawdown >= 0.0 && point.peak >= peak
  {
    Conservation(release, capital, fills);
  }
}
