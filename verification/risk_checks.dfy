/** The pre-trade risk checker (broker/risk_checks.py). */
module RiskChecks {
  import opened BrokerModels
  import opened Positions
  import opened Pricing

  datatype Reason =
    | QuantityNotPositive
    | LimitPriceNotPositive
    | ShortSellingDisabled
    | InsufficientCash
    | MaxPositionExceeded

  datatype Verdict = Pass | Fail(reason: Reason)

  /** The price an order is assumed to fill at: slipped for a market order. */
  function EstimatedPrice(cfg: Config, o: Order, reference: real): real {
    if o.kind == Market then MarketPrice(o.side, reference, cfg.slippage) else reference
  }

  function ProjectedShares(o: Order, book: Book): real {
    Shares(book, o.ticker) + Signed(o.side, o.qty)
  }

  function ProjectedEquity(cfg: Config, o: Order, equity: real, reference: real): real {
    var price := EstimatedPrice(cfg, o, reference);
    equity - Fee(Times(price, o.qty), cfg.commission) - Times(Abs(price - reference), o.qty)
  }

  function ProjectedValue(o: Order, book: Book, reference: real): real {
    Times(Abs(ProjectedShares(o, book)), reference)
  }

  function Check(cfg: Config, o: Order, cash: real, equity: real, book: Book,
      reference: Option<real>): Verdict {
    if o.qty <= 0.0 then Fail(QuantityNotPositive)
    else if o.kind == Limit && (o.limitPrice == None || o.limitPrice.value <= 0.0) then
      Fail(LimitPriceNotPositive)
    else if o.side == Sell && !cfg.allowShort && o.qty > Shares(book, o.ticker) then
      Fail(ShortSellingDisabled)
    else
      match reference
      case None => Pass
      case Some(price) =>
        var value := Times(EstimatedPrice(cfg, o, price), o.qty);
        if o.side == Buy && value + Times(value, cfg.commission) > cash then Fail(InsufficientCash)
        else
          var equityAfter := ProjectedEquity(cfg, o, equity, price);
          if equityAfter > 0.0
             && ProjectedValue(o, book, price) / equityAfter > cfg.maxPosition
          then Fail(MaxPositionExceeded)
          else Pass
  }
}
