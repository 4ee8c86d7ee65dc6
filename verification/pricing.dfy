/** Fill prices, trade values and fees, on plain reals. */
module Pricing {
  import opened BrokerModels
  import opened Reals

  function BuyPrice(reference: real, slippage: real): real {
    reference * (1.0 + slippage)
  }

  function SellPrice(reference: real, slippage: real): real {
    reference * (1.0 - slippage)
  }

  /** The price a market order fills at; a limit order fills at its reference. */
  function MarketPrice(side: Side, reference: real, slippage: real): real {
    if side == Buy then BuyPrice(reference, slippage) else SellPrice(reference, slippage)
  }

  function Times(x: real, y: real): real {
    x * y
  }

  function Fee(value: real, rate: real): real {
    Times(Abs(value), rate)
  }

  /** Average cost after adding `q` at `price` to `n` at `avg` in the same direction. */
  function AverageCost(avg: real, n: real, price: real, q: real): real
    requires n + q != 0.0
  {
    (avg * Abs(n) + price * Abs(q)) / Abs(n + q)
  }

  lemma PricesPositive(reference: real, slippage: real)
    requires reference > 0.0 && 0.0 <= slippage < 1.0
    ensures SellPrice(reference, slippage) > 0.0
    ensures BuyPrice(reference, slippage) >= reference >= SellPrice(reference, slippage)
  {
    MulPos(reference, 1.0 - slippage);
    MulNonNeg(reference, slippage);
    assert BuyPrice(reference, slippage) == reference + reference * slippage;
    assert SellPrice(reference, slippage) == reference - reference * slippage;
  }

  lemma FractionBounds(amount: real, rate: real)
    requires amount >= 0.0 && 0.0 <= rate < 1.0
    ensures 0.0 <= Times(amount, rate) <= amount
  {
    MulNonNeg(amount, rate);
    MulNonNeg(amount, 1.0 - rate);
    assert amount * (1.0 - rate) == amount - amount * rate;
  }

  lemma FeeBounds(value: real, rate: real)
    requires 0.0 <= rate < 1.0
    ensures 0.0 <= Fee(value, rate) <= Abs(value)
  {
    FractionBounds(Abs(value), rate);
  }

  /** The average cost is the cost of the holding divided by its size. */
  lemma AverageCostTotal(avg: real, n: real, price: real, q: real)
    requires n > 0.0 && q > 0.0
    ensures Times(AverageCost(avg, n, price, q), n + q) == Times(avg, n) + Times(price, q)
  {
  }
}
