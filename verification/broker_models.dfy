/** The records the broker core passes around (broker/models.py, broker/config.py).
    Identifiers are only ever compared for equality, so they are opaque tokens of
    type `Name`; the empty `client_order_id` is `None`.  Money, prices and share
    quantities are exact reals. */
module BrokerModels {

  type Name = int

  datatype Option<+T> = None | Some(value: T)

  datatype Timing = CloseBar | NextOpen

  datatype Config = Config(
    initialCash: real,
    commission: real,
    slippage: real,
    timing: Timing,
    maxPosition: real,
    allowShort: bool)

  /** The rates the frozen run specification uses, and more: anything in [0, 1). */
  predicate SaneRates(cfg: Config) {
    && 0.0 <= cfg.commission < 1.0
    && 0.0 <= cfg.slippage < 1.0
  }

  datatype Bar = Bar(open: real, high: real, low: real, close: real)

  predicate PositiveBar(b: Bar) {
    b.open > 0.0 && b.high > 0.0 && b.low > 0.0 && b.close > 0.0
  }

  datatype Side = Buy | Sell

  datatype OrderType = Market | Limit

  datatype Status = New | PartiallyFilled | Filled | Canceled | Rejected

  /** The action a decision is reported with. */
  datatype Move = BUY | SELL | HOLD

  /** The (strategy, session) pair that every broker record carries. */
  datatype Owner = Owner(strategy: Name, session: Name)

  datatype Order = Order(
    id: Name,
    account: Name,
    ticker: Name,
    side: Side,
    kind: OrderType,
    qty: real,
    limitPrice: Option<real>,
    status: Status,
    owner: Owner,
    decision: Name,
    clientOrderId: Option<Name>)

  datatype Position = Position(ticker: Name, shares: real, avgCost: real)

  datatype Fill = Fill(
    orderId: Name,
    price: real,
    qty: real,
    fee: real,
    slippage: real,
    time: int,
    owner: Owner,
    account: Name,
    decision: Name)

  /** What one fill hands to every on-fill callback: the fill, the position and the
      account right after it.  `side` is the side of the filled order. */
  datatype FillReport = FillReport(
    fill: Fill,
    ticker: Name,
    side: Side,
    sharesAfter: real,
    avgCostAfter: real,
    cashAfter: real,
    equityAfter: real)

  function Abs(x: real): real {
    if x < 0.0 then -x else x
  }

  function Min(x: real, y: real): real {
    if x <= y then x else y
  }

  function Max(x: real, y: real): real {
    if x >= y then x else y
  }

  function Signed(side: Side, qty: real): real {
    if side == Buy then qty else -qty
  }

  function SignedQty(r: FillReport): real {
    Signed(r.side, r.fill.qty)
  }

  /** `math.isclose(a, b, rel_tol=rel, abs_tol=abs)` on exact reals. */
  predicate IsClose(a: real, b: real, rel: real, abs: real) {
    a == b || Abs(a - b) <= Max(rel * Max(Abs(a), Abs(b)), abs)
  }
}
