/** One execution of a target at the open: sizing, risk check and fill agree. */
module SimulationFills {
  import opened BrokerModels
  import opened Reals
  import opened Positions
  import opened Pricing
  import opened RiskChecks
  import opened Engine
  import opened FillLaws
  import opened Sizing
  import opened Simulation

  /** What a frozen configuration guarantees, and more: any rates in [0, 1). */
  ghost predicate GoodSetup(run: Setup) {
    && SaneRates(run.cfg)
    && run.cfg.timing == NextOpen && !run.cfg.allowShort
    && 0.0 <= run.cfg.maxPosition <= 1.0
    && run.cfg.initialCash > 0.0
    && (forall i: nat, j: nat :: run.orderIds(i) == run.orderIds(j) ==> i == j)
  }

  /** Between bars: whole non-negative shares of one ticker, cash that is not negative,
      something left, and no order waiting. */
  ghost predicate Steady(run: Setup, a: Account) {
    && WellFormed(a.book)
    && (forall i :: 0 <= i < |a.book| ==> a.book[i].ticker == run.ticker)
    && Have(a, run.ticker) >= 0
    && Shares(a.book, run.ticker) == Have(a, run.ticker) as real
    && a.cash >= 0.0
    && (a.cash > 0.0 || Have(a, run.ticker) > 0)
    && (forall i :: 0 <= i < |a.orders| ==> a.orders[i].status == Filled)
  }

  predicate TargetAllowed(run: Setup, target: real) {
    0.0 <= target <= run.cfg.maxPosition * 100.0
  }

  // ---- money -------------------------------------------------------------------------

  lemma BuyMoney(open: real, s: real, c: real, q: real)
    requires open > 0.0 && q >= 0.0 && 0.0 <= s < 1.0 && 0.0 <= c < 1.0
    ensures Times(BuyPrice(open, s), q) + Times(Times(BuyPrice(open, s), q), c) == q * (open + BuyCost(open, s, c))
    ensures Fee(Times(BuyPrice(open, s), q), c) == Times(Times(BuyPrice(open, s), q), c)
    ensures Times(Abs(BuyPrice(open, s) - open), q) + Fee(Times(BuyPrice(open, s), q), c) == q * BuyCost(open, s, c)
  {
    var p := BuyPrice(open, s);
    PricesPositive(open, s);
    MulNonNeg(p, q);
    Thrice(p, q, c);
    assert p == open + open * s;
    SplitCost(open * s, p * c, q);
  }

  lemma Thrice(p: real, q: real, c: real)
    ensures Times(Times(p, q), c) == q * (p * c)
  {
    assert Times(p, q) == p * q;
    assert (p * q) * c == q * (p * c);
  }

  lemma SplitCost(x: real, y: real, q: real)
    ensures q * (x + y) == q * x + q * y
  {
  }

  lemma SellMoney(open: real, s: real, c: real, q: real)
    requires open > 0.0 && q >= 0.0 && 0.0 <= s < 1.0 && 0.0 <= c < 1.0
    ensures Times(SellPrice(open, s), q) - Times(Times(SellPrice(open, s), q), c) == q * (open - SellCost(open, s, c))
    ensures Fee(Times(SellPrice(open, s), q), c) == Times(Times(SellPrice(open, s), q), c)
    ensures Times(Abs(SellPrice(open, s) - open), q) + Fee(Times(SellPrice(open, s), q), c) == q * SellCost(open, s, c)
  {
    var p := SellPrice(open, s);
    PricesPositive(open, s);
    MulNonNeg(p, q);
    Thrice(p, q, c);
    assert p == open - open * s;
    SplitCost(open * s, p * c, q);
  }

  // ---- sizing ------------------------------------------------------------------------

  function Buying(cfg: Config, open: real): real {
    BuyCost(open, cfg.slippage, cfg.commission)
  }

  function Selling(cfg: Config, open: real): real {
    SellCost(open, cfg.slippage, cfg.commission)
  }

  function PrefillEquity(a: Account, ticker: Name, open: real): real {
    a.cash + Times(Have(a, ticker) as real, open)
  }

  lemma InputsSizable(run: Setup, a: Account, open: real, target: real)
    requires GoodSetup(run) && Steady(run, a) && open > 0.0 && TargetAllowed(run, target)
    ensures Sizable(Buying(run.cfg, open), Selling(run.cfg, open), open, PrefillEquity(a, run.ticker, open),
                    target / 100.0, Have(a, run.ticker))
    ensures target / 100.0 <= run.cfg.maxPosition
  {
    CostBounds(open, run.cfg.slippage, run.cfg.commission);
  }

  /** The target is the largest whole number of shares whose weight, after costs, is
      within the target fraction. */
  lemma TargetIsLargest(run: Setup, a: Account, open: real, target: real)
    requires GoodSetup(run) && Steady(run, a) && open > 0.0 && TargetAllowed(run, target)
    ensures IsLargestWithin(Buying(run.cfg, open), Selling(run.cfg, open), open, PrefillEquity(a, run.ticker, open),
                            target / 100.0, Have(a, run.ticker),
                            TargetShares(run.cfg, a.cash, Have(a, run.ticker), open, target))
  {
    InputsSizable(run, a, open, target);
    DesiredIsLargest(Buying(run.cfg, open), Selling(run.cfg, open), open, a.cash, PrefillEquity(a, run.ticker, open),
                     target / 100.0, Have(a, run.ticker));
  }

  /** Moving from `have` to `want` whole shares at the open. */
  ghost predicate Moves(run: Setup, a: Account, o: Order, want: int) {
    && o.kind == Market && o.ticker == run.ticker
    && want >= 0 && want != Have(a, run.ticker)
    && (want > Have(a, run.ticker) ==> o.side == Buy && o.qty == (want - Have(a, run.ticker)) as real)
    && (want < Have(a, run.ticker) ==> o.side == Sell && o.qty == (Have(a, run.ticker) - want) as real)
  }

  lemma OrderMoves(run: Setup, a: Account, intent: Intent, row: Row)
    requires GoodSetup(run) && Steady(run, a) && row.bar.open > 0.0 && TargetAllowed(run, intent.target)
    requires Place(run, a, Some(intent), row).Ordered?
    ensures
      var want := TargetShares(run.cfg, a.cash, Have(a, run.ticker), row.bar.open, intent.target);
      Moves(run, a, Place(run, a, Some(intent), row).order, want)
  {
    TargetIsLargest(run, a, row.bar.open, intent.target);
  }

  /** The checker's projected equity is the equity after the costs the sizing counts. */
  lemma ProjectionMatchesSizing(run: Setup, a: Account, o: Order, open: real, want: int)
    requires GoodSetup(run) && Steady(run, a) && open > 0.0 && Moves(run, a, o, want)
    ensures ProjectedEquity(run.cfg, o, PrefillEquity(a, run.ticker, open), open)
         == EquityAfter(Buying(run.cfg, open), Selling(run.cfg, open), PrefillEquity(a, run.ticker, open),
                        Have(a, run.ticker), want)
    ensures ProjectedValue(o, a.book, open) == want as real * open
  {
    if o.side == Buy {
      BuyMoney(open, run.cfg.slippage, run.cfg.commission, o.qty);
    } else {
      SellMoney(open, run.cfg.slippage, run.cfg.commission, o.qty);
    }
    assert ProjectedShares(o, a.book) == want as real;
  }

  /** A purchase within its target is covered by the cash. */
  lemma CashSuffices(run: Setup, a: Account, o: Order, open: real, target: real, want: int)
    requires GoodSetup(run) && Steady(run, a) && open > 0.0 && TargetAllowed(run, target)
    requires Moves(run, a, o, want) && o.side == Buy
    requires WithinTarget(Buying(run.cfg, open), Selling(run.cfg, open), open,
                          PrefillEquity(a, run.ticker, open), target / 100.0, Have(a, run.ticker), want)
    ensures
      var value := Times(BuyPrice(open, run.cfg.slippage), o.qty);
      value + Times(value, run.cfg.commission) <= a.cash
  {
    InputsSizable(run, a, open, target);
    WithinIsAffordable(Buying(run.cfg, open), Selling(run.cfg, open), open, a.cash, PrefillEquity(a, run.ticker, open),
                       target / 100.0, Have(a, run.ticker), want);
    BuyMoney(open, run.cfg.slippage, run.cfg.commission, o.qty);
  }

  /** A holding within its target is within the maximum position. */
  lemma MaximumHolds(run: Setup, a: Account, o: Order, open: real, target: real, want: int)
    requires GoodSetup(run) && Steady(run, a) && open > 0.0 && TargetAllowed(run, target)
    requires Moves(run, a, o, want)
    requires WithinTarget(Buying(run.cfg, open), Selling(run.cfg, open), open,
                          PrefillEquity(a, run.ticker, open), target / 100.0, Have(a, run.ticker), want)
    ensures
      var after := ProjectedEquity(run.cfg, o, PrefillEquity(a, run.ticker, open), open);
      after > 0.0 ==> ProjectedValue(o, a.book, open) / after <= run.cfg.maxPosition
  {
    InputsSizable(run, a, open, target);
    ProjectionMatchesSizing(run, a, o, open, want);
    var after := ProjectedEquity(run.cfg, o, PrefillEquity(a, run.ticker, open), open);
    if after > 0.0 {
      MulMono(target / 100.0, run.cfg.maxPosition, after);
      QuotientBound(ProjectedValue(o, a.book, open), after, run.cfg.maxPosition);
    }
  }

  /** Every order that is within its target passes the pre-trade check. */
  lemma WithinTargetPasses(run: Setup, a: Account, o: Order, open: real, target: real, want: int)
    requires GoodSetup(run) && Steady(run, a) && open > 0.0 && TargetAllowed(run, target)
    requires Moves(run, a, o, want)
    requires WithinTarget(Buying(run.cfg, open), Selling(run.cfg, open), open,
                          PrefillEquity(a, run.ticker, open), target / 100.0, Have(a, run.ticker), want)
    ensures Check(run.cfg, o, a.cash, PrefillEquity(a, run.ticker, open), a.book, Some(open)) == Pass
  {
    MaximumHolds(run, a, o, open, target, want);
    if o.side == Buy {
      CashSuffices(run, a, o, open, target, want);
    }
  }

  // ---- the fill ------------------------------------------------------------------------

  /** What a sale brings in, after slippage and commission. */
  lemma SellProceeds(open: real, s: real, c: real, q: real)
    requires open > 0.0 && q >= 0.0 && 0.0 <= s < 1.0 && 0.0 <= c < 1.0
    ensures -Times(SellPrice(open, s), -q) - Fee(Times(SellPrice(open, s), -q), c) == q * (open - SellCost(open, s, c))
  {
    SellMoney(open, s, c, q);
    SoldValue(SellPrice(open, s), q, c);
  }

  lemma CostOfBuying(buy: real, sell: real, equity: real, have: int, want: int, q: real)
    requires want > have && q == (want - have) as real
    ensures EquityAfter(buy, sell, equity, have, want) == equity - q * buy
  {
  }

  lemma CostOfSelling(buy: real, sell: real, equity: real, have: int, want: int, q: real)
    requires want < have && q == (have - want) as real
    ensures EquityAfter(buy, sell, equity, have, want) == equity - q * sell
  {
  }

  /** Cash and shares after a purchase, on plain numbers. */
  lemma BoughtFor(after: real, cash: real, have: int, want: int, q: real, open: real, buy: real, sell: real)
    requires want > have && q == (want - have) as real && after == cash - q * (open + buy)
    ensures after + want as real * open == EquityAfter(buy, sell, cash + Times(have as real, open), have, want)
  {
    Shift(cash, have as real, want as real, q, open, buy);
    CostOfBuying(buy, sell, cash + Times(have as real, open), have, want, q);
  }

  lemma SoldFor(after: real, cash: real, have: int, want: int, q: real, open: real, buy: real, sell: real)
    requires want < have && q == (have - want) as real && after == cash + q * (open - sell)
    ensures after + want as real * open == EquityAfter(buy, sell, cash + Times(have as real, open), have, want)
  {
    Shift(cash, have as real, want as real, -q, open, -sell);
    NegatedProduct(q, open, sell);
    CostOfSelling(buy, sell, cash + Times(have as real, open), have, want, q);
  }

  /** The cash a fill leaves, from its price and its signed quantity. */
  lemma FillCashIs(run: Setup, a: Account, o: Order, open: real, time: int)
    ensures FillAtOpen(run, a, o, open, time).cash
         == CashAfter(a.cash, MarketPrice(o.side, open, run.cfg.slippage), Signed(o.side, o.qty), run.cfg.commission)
  {
  }

  function CashAfter(cash: real, price: real, signed: real, commission: real): real {
    cash - Times(price, signed) - Fee(Times(price, signed), commission)
  }

  lemma PurchaseLeaves(cash: real, open: real, s: real, c: real, have: int, want: int, q: real)
    requires open > 0.0 && 0.0 <= s < 1.0 && 0.0 <= c < 1.0 && want > have && q == (want - have) as real
    ensures CashAfter(cash, BuyPrice(open, s), q, c) + want as real * open
         == EquityAfter(BuyCost(open, s, c), SellCost(open, s, c), cash + Times(have as real, open), have, want)
  {
    BuyMoney(open, s, c, q);
    BoughtFor(CashAfter(cash, BuyPrice(open, s), q, c),
              cash, have, want, q, open, BuyCost(open, s, c), SellCost(open, s, c));
  }

  lemma SaleLeaves(cash: real, open: real, s: real, c: real, have: int, want: int, q: real)
    requires open > 0.0 && 0.0 <= s < 1.0 && 0.0 <= c < 1.0 && want < have && q == (have - want) as real
    ensures CashAfter(cash, SellPrice(open, s), -q, c) + want as real * open
         == EquityAfter(BuyCost(open, s, c), SellCost(open, s, c), cash + Times(have as real, open), have, want)
  {
    SellProceeds(open, s, c, q);
    SoldFor(CashAfter(cash, SellPrice(open, s), -q, c),
            cash, have, want, q, open, BuyCost(open, s, c), SellCost(open, s, c));
  }

  lemma FillCash(run: Setup, a: Account, o: Order, open: real, time: int, want: int)
    requires GoodSetup(run) && Steady(run, a) && open > 0.0 && Moves(run, a, o, want)
    ensures FillAtOpen(run, a, o, open, time).cash + want as real * open
         == EquityAfter(Buying(run.cfg, open), Selling(run.cfg, open), PrefillEquity(a, run.ticker, open),
                        Have(a, run.ticker), want)
  {
    FillCashIs(run, a, o, open, time);
    if want > Have(a, run.ticker) {
      PurchaseLeaves(a.cash, open, run.cfg.slippage, run.cfg.commission, Have(a, run.ticker), want, o.qty);
    } else {
      SaleLeaves(a.cash, open, run.cfg.slippage, run.cfg.commission, Have(a, run.ticker), want, o.qty);
    }
  }

  lemma Shift(cash: real, h: real, w: real, q: real, open: real, cost: real)
    requires w == h + q
    ensures cash - q * (open + cost) + w * open == cash + Times(h, open) - q * cost
  {
  }

  lemma NegatedProduct(q: real, open: real, cost: real)
    ensures -q * (open + -cost) == -(q * (open - cost))
    ensures -q * -cost == q * cost
  {
  }

  lemma SoldValue(p: real, q: real, c: real)
    ensures Times(p, -q) == -Times(p, q)
    ensures Fee(Times(p, -q), c) == Fee(Times(p, q), c)
  {
    assert p * -q == -(p * q);
  }

  /** What a fill at the open leaves. */
  lemma FillBook(run: Setup, a: Account, o: Order, open: real, time: int, want: int)
    requires GoodSetup(run) && Steady(run, a) && open > 0.0 && Moves(run, a, o, want)
    ensures
      var after := FillAtOpen(run, a, o, open, time);
      && WellFormed(after.book)
      && (forall i :: 0 <= i < |after.book| ==> after.book[i].ticker == run.ticker)
      && Shares(after.book, run.ticker) == want as real
      && Have(after, run.ticker) == want
      && Equity(after, map[run.ticker := FlatBar(open)]) == after.cash + want as real * open
  {
    var after := FillAtOpen(run, a, o, open, time);
    var signed := Signed(o.side, o.qty);
    var price := MarketPrice(o.side, open, run.cfg.slippage);
    NextBookEffect(a.book, run.ticker, signed, price);
    SameTicker(a.book, run.ticker, signed, price);
    OneTickerValue(after.book, run.ticker, map[run.ticker := FlatBar(open)]);
  }

  lemma SameTicker(book: Book, ticker: Name, signed: real, price: real)
    requires WellFormed(book) && forall i :: 0 <= i < |book| ==> book[i].ticker == ticker
    ensures forall i :: 0 <= i < |NextBook(book, ticker, signed, price)| ==>
      NextBook(book, ticker, signed, price)[i].ticker == ticker
  {
    FoundIsHeld(book, ticker);
  }

  lemma TickersDiffer(book: Book, i: nat, j: nat)
    requires Distinct(book) && i < j < |book|
    ensures book[i].ticker != book[j].ticker
  {
  }

  /** With one ticker the market value is its shares at its mark. */
  lemma OneTickerValue(book: Book, ticker: Name, latest: Prices)
    requires Distinct(book) && ticker in latest
    requires forall i :: 0 <= i < |book| ==> book[i].ticker == ticker
    ensures |book| <= 1
    ensures MarketValue(book, latest) == Times(Shares(book, ticker), latest[ticker].close)
  {
    if |book| > 1 {
      TickersDiffer(book, 0, 1);
    }
    if |book| == 1 {
      assert book[1..] == [];
    }
  }

  /** Something is left after a move within the target. */
  lemma LeftPositive(run: Setup, a: Account, open: real, target: real, want: int)
    requires GoodSetup(run) && Steady(run, a) && open > 0.0 && TargetAllowed(run, target)
    requires want >= 0 && want != Have(a, run.ticker)
    requires WithinTarget(Buying(run.cfg, open), Selling(run.cfg, open), open,
                          PrefillEquity(a, run.ticker, open), target / 100.0, Have(a, run.ticker), want)
    ensures EquityAfter(Buying(run.cfg, open), Selling(run.cfg, open), PrefillEquity(a, run.ticker, open),
                        Have(a, run.ticker), want) > 0.0
  {
    var have, equity := Have(a, run.ticker), PrefillEquity(a, run.ticker, open);
    InputsSizable(run, a, open, target);
    if want > 0 {
      MulPos(want as real, open);
      PositiveFactor(target / 100.0,
                     EquityAfter(Buying(run.cfg, open), Selling(run.cfg, open), equity, have, want),
                     want as real * open);
    } else {
      MulStrict(Selling(run.cfg, open), open, have as real);
      NothingLeft(equity, a.cash, have as real, open, Selling(run.cfg, open));
    }
  }

  /** The weight right after the fill, marked at the open it filled at, is at most the
      target, the equity is positive, and the account is steady again. */
  lemma FillKeepsSteady(run: Setup, a: Account, o: Order, open: real, time: int, target: real, want: int)
    requires GoodSetup(run) && Steady(run, a) && open > 0.0 && TargetAllowed(run, target)
    requires Moves(run, a, o, want)
    requires WithinTarget(Buying(run.cfg, open), Selling(run.cfg, open), open,
                          PrefillEquity(a, run.ticker, open), target / 100.0, Have(a, run.ticker), want)
    ensures Steady(run, FillAtOpen(run, a, o, open, time))
    ensures Have(FillAtOpen(run, a, o, open, time), run.ticker) == want
    ensures want as real * open
         <= target / 100.0 * Equity(FillAtOpen(run, a, o, open, time), map[run.ticker := FlatBar(open)])
    ensures Equity(FillAtOpen(run, a, o, open, time), map[run.ticker := FlatBar(open)]) > 0.0
  {
    var left := EquityAfter(Buying(run.cfg, open), Selling(run.cfg, open), PrefillEquity(a, run.ticker, open),
                            Have(a, run.ticker), want);
    FillBook(run, a, o, open, time, want);
    FillCash(run, a, o, open, time, want);
    LeftPositive(run, a, open, target, want);
    CoveredByLeft(run, want, open, target, left);
    FillIsSteady(run, a, o, open, time, want, want as real * open, left);
  }

  /** A value within the target fraction of something positive is covered by it. */
  lemma CoveredByLeft(run: Setup, want: int, open: real, target: real, left: real)
    requires GoodSetup(run) && want >= 0 && open > 0.0 && TargetAllowed(run, target)
    requires want as real * open <= target / 100.0 * left && left > 0.0
    ensures 0.0 <= want as real * open <= left
  {
    MulNonNeg(want as real, open);
    FractionBelow(target / 100.0, left, want as real * open);
  }

  lemma FillIsSteady(run: Setup, a: Account, o: Order, open: real, time: int, want: int,
      value: real, left: real)
    requires GoodSetup(run) && Steady(run, a) && open > 0.0 && Moves(run, a, o, want)
    requires FillAtOpen(run, a, o, open, time).cash + value == left > 0.0 && 0.0 <= value <= left
    requires want == 0 ==> value == 0.0
    ensures Steady(run, FillAtOpen(run, a, o, open, time))
  {
    FillBook(run, a, o, open, time, want);
  }

  lemma NothingLeft(equity: real, cash: real, h: real, open: real, cost: real)
    requires equity == cash + Times(h, open) && cash >= 0.0 && cost * h < open * h
    ensures Less(equity, h, cost) > 0.0
  {
  }

  lemma PositiveFactor(t: real, x: real, y: real)
    requires 0.0 <= t <= 1.0 && 0.0 < y <= t * x
    ensures x > 0.0
  {
    if x <= 0.0 {
      NotPositive(t, x);
    }
  }

  lemma NotPositive(t: real, x: real)
    requires t >= 0.0 && x <= 0.0
    ensures t * x <= 0.0
  {
    MulNonNeg(t, -x);
    assert t * -x == -(t * x);
  }
}
