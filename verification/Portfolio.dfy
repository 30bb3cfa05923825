/** The portfolio object of a run: cash, positions and trades updated in place. */
module Portfolios {
  import opened Common
  import opened Orders
  import opened Costs
  import opened Accounting

  class Portfolio {
    const release: Release
    const startingCash: real
    var cash: real
    var positions: map<Symbol, Position>
    var realized: real
    var fees: real
    var cashSpent: real
    var cashReceived: real
    var peak: real
    var trades: seq<Trade>

    /** The abstract book this object holds. */
    ghost function Contents(): Book
      reads this
    {
      Book(cash, positions, realized, fees, cashSpent, cashReceived, trades)
    }

    constructor (release: Release, startingCash: real)
      ensures this.release == release && this.startingCash == startingCash
      ensures Contents() == Opening(startingCash) && peak == startingCash
    {
      this.release, this.startingCash := release, startingCash;
      cash, positions, realized, fees := startingCash, map[], 0.0, 0.0;
      cashSpent, cashReceived, peak, trades := 0.0, 0.0, startingCash, [];
    }

    function PositionOf(symbol: Symbol): (p: Position)
      reads this
      ensures p == Contents().PositionOf(symbol)
    {
      if symbol in positions then positions[symbol] else NO_POSITION
    }

    function Quantity(symbol: Symbol): (q: int)
      reads this
      ensures q == Contents().Held(symbol)
    {
      PositionOf(symbol).quantity
    }

    /** Book one fill; the book afterwards is the one the accounting machine prescribes, or the same error is raised. */
    method Apply(fill: Fill) returns (outcome: Result<()>)
      modifies this
      ensures peak == old(peak)
      ensures var next := Accounting.Apply(release, old(Contents()), fill);
              if next.Ok? then outcome.Ok? && Contents() == next.value else outcome == Err(next.error)
    {
      hide Value, Accounting.Settle;
      var position := PositionOf(fill.symbol);
      var turnover := Value(fill.quantity, fill.price);
      var fee := fill.costs.Total();
      if fill.side == Buy {
        if turnover + fee > cash {
          return Err(InsufficientCash);
        }
        cash := cash - (turnover + fee);
        cashSpent := cashSpent + turnover;
        if position.quantity == 0 {
          position := position.(enteredAt := Some(fill.timestamp));
        }
        position := position.(quantity := position.quantity + fill.quantity, basis := position.basis + turnover);
        position := position.(bought := position.bought + fill.quantity, buyValue := position.buyValue + turnover);
      } else {
        if fill.quantity > position.quantity {
          return Err(ShortSelling);
        }
        var basis := if fill.quantity == position.quantity then position.basis
                     else release(position.basis, fill.quantity, position.quantity);
        var pnl := turnover - basis;
        cash := cash + (turnover - fee);
        cashReceived := cashReceived + turnover;
        realized := realized + pnl;
        position := position.(realized := position.realized + pnl, basis := position.basis - basis);
        position := position.(quantity := position.quantity - fill.quantity, sellValue := position.sellValue + turnover);
      }
      outcome := Settle(position, fill);
    }

    /** The tail of Apply: fees and slippage, then closing the trade if the position is flat. */
    method Settle(moved: Position, fill: Fill) returns (outcome: Result<()>)
      modifies this
      ensures peak == old(peak)
      ensures var next := Accounting.Settle(old(Contents()), moved, fill);
              if next.Ok? then outcome.Ok? && Contents() == next.value else outcome == Err(next.error)
    {
      hide Quotient, CostBreakdown.Plus, CostBreakdown.Total;
      fees := fees + fill.costs.Total();
      var position := moved.(costs := moved.costs.Plus(fill.costs), slippage := moved.slippage + fill.slippageCost);
      positions := positions[fill.symbol := position];
      if position.quantity == 0 {
        if position.enteredAt.None? {
          return Err(UnopenedPosition);
        }
        if position.bought == 0 {
          return Err(DivisionByZero);
        }
        trades := trades + [
          Trade(|trades| + 1, fill.symbol, position.enteredAt.value, fill.timestamp,
            Quotient(position.buyValue, position.bought as real),
            Quotient(position.sellValue, position.bought as real), position.bought,
            position.realized + position.slippage, position.realized, position.costs,
            position.slippage, position.realized - position.costs.Total(),
            fill.timestamp - position.enteredAt.value, fill.reason)];
        positions := positions[fill.symbol := NO_POSITION];
      }
      outcome := Ok(());
    }

    /** The two sums over the open positions, in any order; a held symbol without a price is an error. */
    method SumPositions(prices: Prices) returns (outcome: Result<(real, real)>)
      ensures outcome == if Priced(Contents(), prices)
                         then Ok((MarketValue(Contents(), prices), SumOver(positions, BasisOf)))
                         else Err(MissingPrice)
    {
      hide Value;
      var value, basis := 0.0, 0.0;
      var rest := positions;
      while rest != map[]
        invariant forall s | s in rest :: s in positions && rest[s] == positions[s]
        invariant forall s | s in positions && s !in rest && positions[s].quantity != 0 :: s in prices
        invariant value + SumOver(rest, MarkedAt(prices)) == MarketValue(Contents(), prices)
        invariant basis + SumOver(rest, BasisOf) == SumOver(positions, BasisOf)
        decreases |rest|
      {
        var s :| s in rest;
        SumExtract(rest, MarkedAt(prices), s);
        SumExtract(rest, BasisOf, s);
        if rest[s].quantity != 0 {
          if s !in prices {
            return Err(MissingPrice);
          }
          value := value + Value(rest[s].quantity, prices[s]);
        }
        basis := basis + rest[s].basis;
        rest := rest - {s};
      }
      outcome := Ok((value, basis));
    }

    /** Mark to the known prices and raise the peak. */
    method Mark(timestamp: Time, prices: Prices) returns (outcome: Result<EquityPoint>)
      modifies this`peak
      ensures outcome == Accounting.Mark(Contents(), old(peak), timestamp, prices)
      ensures outcome.Ok? ==> peak == outcome.value.peak
    {
      hide SumOver, MarketValue, Quotient;
      var sums := SumPositions(prices);
      if sums.Err? {
        return Err(sums.error);
      }
      var (value, basis) := sums.value;
      var equity := cash + value;
      peak := MaxReal(peak, equity);
      if peak == 0.0 {
        return Err(DivisionByZero);
      }
      outcome := Ok(EquityPoint(timestamp, cash, value, equity, realized, value - basis,
                                peak, peak - equity, Quotient(peak - equity, peak)));
    }
  }
}
