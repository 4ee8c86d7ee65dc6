/** What one fill does to a position book and to the cash, and what a passed
    pre-trade check guarantees about it. */
module FillLaws {
  import opened BrokerModels
  import opened Reals
  import opened Positions
  import opened Pricing
  import opened RiskChecks
  import opened Engine

  /** A fill moves the shares of its own ticker by the signed quantity, and nothing else. */
  lemma NextBookEffect(book: Book, ticker: Name, signed: real, price: real)
    requires WellFormed(book) && signed != 0.0
    ensures
      var next := NextBook(book, ticker, signed, price);
      && WellFormed(next)
      && Shares(next, ticker) == Shares(book, ticker) + signed
      && (forall t :: t != ticker ==> Find(next, t) == Find(book, t))
      && (Shares(next, ticker) == 0.0 <==> Find(next, ticker) == None)
  {
    var flat := (p: Position) => 0.0;
    FoundIsHeld(book, ticker);
    match NextPosition(Find(book, ticker), ticker, signed, price)
    case None => DropEffect(book, ticker, flat);
    case Some(p) => PutEffect(book, p, flat);
  }

  lemma FoundIsHeld(book: Book, ticker: Name)
    requires NoFlatEntry(book)
    ensures Find(book, ticker).Some? ==> Find(book, ticker).value.shares != 0.0
    ensures Find(book, ticker).Some? ==> Find(book, ticker).value.ticker == ticker
    ensures Find(book, ticker) == None <==> Shares(book, ticker) == 0.0
  {
  }

  /** Book values: the fill replaces the old value of its ticker by the new one. */
  lemma NextBookTotal(book: Book, ticker: Name, signed: real, price: real, value: Position -> real)
    requires WellFormed(book) && signed != 0.0
    ensures
      var next := NextBook(book, ticker, signed, price);
      Total(next, value) == Total(book, value) - Part(book, ticker, value) + Part(next, ticker, value)
  {
    FoundIsHeld(book, ticker);
    match NextPosition(Find(book, ticker), ticker, signed, price)
    case None => DropEffect(book, ticker, value);
    case Some(p) => PutEffect(book, p, value);
  }

  lemma {:induction false} MarketValueIsTotal(book: Book, latest: Prices, value: Position -> real)
    requires forall i :: 0 <= i < |book| ==> value(book[i]) == MarkedValue(latest, book[i])
    ensures MarketValue(book, latest) == Total(book, value)
  {
    if |book| > 0 {
      assert forall i :: 0 <= i < |book[1..]| ==> book[1..][i] == book[i + 1];
      MarketValueIsTotal(book[1..], latest, value);
    }
  }

  /** Marked at the reference price, a fill moves the market value by signed * reference. */
  lemma MarketValueMoves(book: Book, latest: Prices, ticker: Name, signed: real, price: real)
    requires WellFormed(book) && signed != 0.0 && ticker in latest
    ensures
      MarketValue(NextBook(book, ticker, signed, price), latest)
        == MarketValue(book, latest) + Times(signed, latest[ticker].close)
  {
    var value := (p: Position) => MarkedValue(latest, p);
    var next := NextBook(book, ticker, signed, price);
    NextBookTotal(book, ticker, signed, price, value);
    NextBookEffect(book, ticker, signed, price);
    MarketValueIsTotal(book, latest, value);
    MarketValueIsTotal(next, latest, value);
    PartIsValue(book, latest, ticker, value);
    PartIsValue(next, latest, ticker, value);
    Distributes(Shares(book, ticker), signed, latest[ticker].close);
  }

  lemma PartIsValue(book: Book, latest: Prices, ticker: Name, value: Position -> real)
    requires ticker in latest
    requires forall p :: value(p) == MarkedValue(latest, p)
    ensures Part(book, ticker, value) == Times(Shares(book, ticker), latest[ticker].close)
  {
  }

  lemma Distributes(x: real, y: real, z: real)
    ensures Times(x + y, z) == Times(x, z) + Times(y, z)
  {
  }

  /** The rules of the check that need no price. */
  predicate WellPlaced(cfg: Config, o: Order, book: Book) {
    && o.qty > 0.0
    && (o.kind == Limit ==> o.limitPrice.Some? && o.limitPrice.value > 0.0)
    && (o.side == Sell && !cfg.allowShort ==> o.qty <= Shares(book, o.ticker))
  }

  /** The rules that do: a purchase is covered by the cash with its fee, and the holding
      it leads to is within the maximum of the equity it leaves, if it leaves any. */
  predicate WellFunded(cfg: Config, o: Order, cash: real, equity: real, book: Book, reference: real) {
    var value := Times(EstimatedPrice(cfg, o, reference), o.qty);
    var after := ProjectedEquity(cfg, o, equity, reference);
    && (o.side == Buy ==> value + Times(value, cfg.commission) <= cash)
    && (after > 0.0 ==> ProjectedValue(o, book, reference) <= Times(cfg.maxPosition, after))
  }

  /** Exactly when an order passes, stated without the division of the source. */
  lemma PassesExactly(cfg: Config, o: Order, cash: real, equity: real, book: Book, reference: Option<real>)
    ensures Check(cfg, o, cash, equity, book, reference) == Pass <==>
      WellPlaced(cfg, o, book) && (reference.Some? ==> WellFunded(cfg, o, cash, equity, book, reference.value))
  {
    if reference.Some? {
      var after := ProjectedEquity(cfg, o, equity, reference.value);
      if after > 0.0 {
        QuotientBound(ProjectedValue(o, book, reference.value), after, cfg.maxPosition);
      }
    }
  }

  /** Everything a passed check promises when a price is known. */
  lemma PassMeans(cfg: Config, o: Order, cash: real, equity: real, book: Book, reference: real)
    requires Check(cfg, o, cash, equity, book, Some(reference)) == Pass
    ensures o.qty > 0.0
    ensures o.kind == Limit ==> o.limitPrice.Some? && o.limitPrice.value > 0.0
    ensures o.side == Sell && !cfg.allowShort ==> o.qty <= Shares(book, o.ticker)
    ensures o.side == Buy ==>
      var value := Times(EstimatedPrice(cfg, o, reference), o.qty);
      value + Times(value, cfg.commission) <= cash
  {
  }

  /** The checker's projection is exact: filling a market order at its estimated price
      leaves precisely the projected equity and position value, marked at the reference. */
  lemma ProjectionIsExact(cfg: Config, a: Account, latest: Prices, i: nat, time: int)
    requires SaneRates(cfg) && WellFormed(a.book) && i < |a.orders|
    requires a.orders[i].kind == Market && a.orders[i].qty > 0.0
    requires a.orders[i].ticker in latest && latest[a.orders[i].ticker].close > 0.0
    ensures
      var o := a.orders[i];
      var reference := latest[o.ticker].close;
      var after := ExecuteFill(cfg, a, latest, i, MarketPrice(o.side, reference, cfg.slippage), reference, time);
      && ProjectedEquity(cfg, o, Equity(a, latest), reference) == Equity(after, latest)
      && ProjectedShares(o, a.book) == Shares(after.book, o.ticker)
      && ProjectedValue(o, a.book, reference)
           == Abs(MarkedValue(latest, Position(o.ticker, Shares(after.book, o.ticker), 0.0)))
      && after.reports[|a.reports|].equityAfter == Equity(after, latest)
  {
    var o := a.orders[i];
    var reference := latest[o.ticker].close;
    var price := MarketPrice(o.side, reference, cfg.slippage);
    var signed := Signed(o.side, o.qty);
    NextBookEffect(a.book, o.ticker, signed, price);
    MarketValueMoves(a.book, latest, o.ticker, signed, price);
    PricesPositive(reference, cfg.slippage);
    SlippageCost(o.side, price, reference, o.qty);
    SameFee(o.side, price, o.qty, cfg.commission);
    AbsTimes(Shares(a.book, o.ticker) + signed, reference);
  }

  /** What a market fill costs: the commission on its value, and the slippage rate on its
      value at the reference. */
  lemma MarketFillCosts(cfg: Config, o: Order, reference: real, time: int)
    requires SaneRates(cfg) && o.qty > 0.0 && reference > 0.0
    ensures
      var fill := MakeFill(cfg, o, MarketPrice(o.side, reference, cfg.slippage), reference, time);
      && fill.fee == Times(Times(fill.price, o.qty), cfg.commission) >= 0.0
      && fill.slippage == Times(Times(reference, o.qty), cfg.slippage) >= 0.0
      && (o.side == Buy ==> fill.price >= reference) && (o.side == Sell ==> fill.price <= reference)
  {
    var price := MarketPrice(o.side, reference, cfg.slippage);
    PricesPositive(reference, cfg.slippage);
    MulPos(price, o.qty);
    SameFee(o.side, price, o.qty, cfg.commission);
    FeeBounds(Times(price, o.qty), cfg.commission);
    SlippedValue(o.side, reference, o.qty, cfg.slippage);
  }

  lemma SlippedValue(side: Side, reference: real, qty: real, s: real)
    requires qty > 0.0 && reference > 0.0 && 0.0 <= s < 1.0
    ensures Abs(Times(reference, Signed(side, qty)) - Times(MarketPrice(side, reference, s), Signed(side, qty)))
         == Times(Times(reference, qty), s)
    ensures Times(Times(reference, qty), s) >= 0.0
  {
    MulPos(reference, qty);
    MulNonNeg(Times(reference, qty), s);
    if side == Buy {
      assert Times(BuyPrice(reference, s), qty) == Times(reference, qty) + Times(Times(reference, qty), s);
    } else {
      assert Times(SellPrice(reference, s), -qty) == Times(reference, -qty) + Times(Times(reference, qty), s);
    }
  }

  lemma SlippageCost(side: Side, price: real, reference: real, qty: real)
    requires side == Buy ==> price >= reference
    requires side == Sell ==> price <= reference
    ensures Times(Abs(price - reference), qty)
         == Times(price, Signed(side, qty)) - Times(Signed(side, qty), reference)
  {
  }

  lemma SameFee(side: Side, price: real, qty: real, rate: real)
    ensures Fee(Times(price, Signed(side, qty)), rate) == Fee(Times(price, qty), rate)
  {
    assert price * -qty == -(price * qty);
    assert Times(price, -qty) == -Times(price, qty);
  }

  lemma AbsTimes(x: real, y: real)
    requires y > 0.0
    ensures Times(Abs(x), y) == Abs(Times(x, y))
  {
    if x < 0.0 {
      MulPos(-x, y);
      assert -x * y == -(x * y);
    } else {
      MulNonNeg(x, y);
    }
  }
}
