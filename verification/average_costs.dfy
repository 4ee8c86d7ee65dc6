/** What the engine's average costs mean, with and without shorting: shares at their
    average cost are what was spent on them, once the gross P&L of every fill that closed
    some is taken out. */
module AverageCosts {
  import opened BrokerModels
  import opened Positions
  import opened Pricing
  import opened Engine
  import opened FillLaws
  import opened Ledger

  /** The position in a ticker after the last fill reported for it. */
  function Lately(rs: seq<FillReport>, ticker: Name): Holding {
    if |rs| == 0 then Holding(0.0, 0.0)
    else
      var last := rs[|rs| - 1];
      if last.ticker == ticker then Holding(last.sharesAfter, last.avgCostAfter)
      else Lately(rs[..|rs| - 1], ticker)
  }

  /** The shares a fill closes: none when it opens a position or adds to it. */
  function Closed(before: real, signed: real): real {
    if ClosesSome(before, signed) then Min(Abs(before), Abs(signed)) else 0.0
  }

  predicate ClosesSome(before: real, signed: real) {
    (before > 0.0 && signed < 0.0) || (before < 0.0 && signed > 0.0)
  }

  /** Before fees: for a long position what the price is over its average cost, for each
      share closed, for a short one what it is under. */
  function GrossPnl(before: Holding, signed: real, price: real): real {
    Times(if before.shares > 0.0 then price - before.avgCost else before.avgCost - price,
          Closed(before.shares, signed))
  }

  ghost function GrossPnls(rs: seq<FillReport>): real {
    if |rs| == 0 then 0.0
    else
      var front, last := rs[..|rs| - 1], rs[|rs| - 1];
      GrossPnls(front) + GrossPnl(Lately(front, last.ticker), SignedQty(last), last.fill.price)
  }

  ghost function SignedValues(rs: seq<FillReport>): real {
    if |rs| == 0 then 0.0
    else SignedValues(rs[..|rs| - 1]) + Times(rs[|rs| - 1].fill.price, SignedQty(rs[|rs| - 1]))
  }

  function Cost(p: Position): real {
    Times(p.shares, p.avgCost)
  }

  /** The book is as last reported, and its shares at cost are what was paid for them less
      what was received, plus the gross P&L. */
  ghost predicate Costed(book: Book, rs: seq<FillReport>) {
    && (forall t :: Lately(rs, t) == Holding(Shares(book, t), AvgCost(book, t)))
    && Total(book, Cost) == SignedValues(rs) + GrossPnls(rs)
  }

  // ---- one fill ---------------------------------------------------------------------

  lemma AddsUp(avg: real, n: real, price: real, q: real)
    requires (n > 0.0 && q > 0.0) || (n < 0.0 && q < 0.0)
    ensures Times(n + q, AverageCost(avg, n, price, q)) == Times(n, avg) + Times(price, q)
  {
    var total := avg * Abs(n) + price * Abs(q);
    var size := Abs(n + q);
    assert total / size * size == total;
    assert Abs(n + q) == Abs(n) + Abs(q);
  }

  lemma Reduces(avg: real, n: real, price: real, q: real)
    ensures Times(n + q, avg) == Times(n, avg) + Times(price, q) + Times(price - avg, -q)
    ensures Times(n + q, avg) == Times(n, avg) + Times(price, q) + Times(avg - price, q)
  {
  }

  lemma TurnsAround(avg: real, n: real, price: real, q: real)
    ensures Times(n + q, price) == Times(n, avg) + Times(price, q) + Times(price - avg, n)
    ensures Times(n + q, price) == Times(n, avg) + Times(price, q) + Times(avg - price, -n)
  {
  }

  /** The position after a fill, at cost: what it was, what the fill paid, and its P&L. */
  lemma PositionCosts(existing: Option<Position>, ticker: Name, signed: real, price: real)
    requires signed != 0.0 && (existing.Some? ==> existing.value.shares != 0.0)
    ensures
      var before := match existing case None => Holding(0.0, 0.0) case Some(p) => Holding(p.shares, p.avgCost);
      var next := NextPosition(existing, ticker, signed, price);
      (if next.Some? then Cost(next.value) else 0.0)
        == Times(before.shares, before.avgCost) + Times(price, signed) + GrossPnl(before, signed, price)
  {
    if existing.Some? {
      var n, avg := existing.value.shares, existing.value.avgCost;
      if n > 0.0 <==> signed > 0.0 {
        AddsUp(avg, n, price, signed);
      } else if n + signed == 0.0 || (n > 0.0 <==> n + signed > 0.0) {
        Reduces(avg, n, price, signed);
      } else {
        TurnsAround(avg, n, price, signed);
      }
    }
  }

  lemma BookCosts(book: Book, ticker: Name, signed: real, price: real)
    requires WellFormed(book) && signed != 0.0
    ensures
      var next := NextBook(book, ticker, signed, price);
      Total(next, Cost)
        == Total(book, Cost) + Times(price, signed)
           + GrossPnl(Holding(Shares(book, ticker), AvgCost(book, ticker)), signed, price)
  {
    NextBookTotal(book, ticker, signed, price, Cost);
    NextBookEffect(book, ticker, signed, price);
    FoundIsHeld(book, ticker);
    FoundIsNext(book, ticker, signed, price);
    PositionCosts(Find(book, ticker), ticker, signed, price);
  }

  lemma FoundIsNext(book: Book, ticker: Name, signed: real, price: real)
    requires WellFormed(book) && signed != 0.0
    ensures Find(NextBook(book, ticker, signed, price), ticker)
         == NextPosition(Find(book, ticker), ticker, signed, price)
  {
    FoundIsHeld(book, ticker);
    match NextPosition(Find(book, ticker), ticker, signed, price)
    case None => DropEffect(book, ticker, Cost);
    case Some(p) => PutEffect(book, p, Cost);
  }

  lemma SumsOfOneMore(rs: seq<FillReport>, r: FillReport)
    ensures SignedValues(rs + [r]) == SignedValues(rs) + Times(r.fill.price, SignedQty(r))
    ensures GrossPnls(rs + [r]) == GrossPnls(rs) + GrossPnl(Lately(rs, r.ticker), SignedQty(r), r.fill.price)
    ensures forall t ::
      Lately(rs + [r], t) == if r.ticker == t then Holding(r.sharesAfter, r.avgCostAfter) else Lately(rs, t)
  {
    assert (rs + [r])[..|rs|] == rs;
  }

  /** A fill keeps the book costed, whatever it does to the position. */
  lemma FillCosts(book: Book, rs: seq<FillReport>, r: FillReport)
    requires WellFormed(book) && Costed(book, rs) && SignedQty(r) != 0.0
    requires
      var next := NextBook(book, r.ticker, SignedQty(r), r.fill.price);
      r.sharesAfter == Shares(next, r.ticker) && r.avgCostAfter == AvgCost(next, r.ticker)
    ensures Costed(NextBook(book, r.ticker, SignedQty(r), r.fill.price), rs + [r])
  {
    var next := NextBook(book, r.ticker, SignedQty(r), r.fill.price);
    SumsOfOneMore(rs, r);
    BookCosts(book, r.ticker, SignedQty(r), r.fill.price);
    NextBookEffect(book, r.ticker, SignedQty(r), r.fill.price);
    forall t ensures Lately(rs + [r], t) == Holding(Shares(next, t), AvgCost(next, t)) {
      if t != r.ticker {
        assert Find(next, t) == Find(book, t);
      }
    }
  }

  // ---- the ledger's own figure ---------------------------------------------------------

  /** What the ledger records for a fill is its gross P&L less its whole fee, long or short,
      and nothing unless it closes shares. */
  lemma RecordedIsGross(before: Holding, signed: real, fill: Fill)
    ensures RecordedPnl(Some(before), signed, fill)
         == if ClosesSome(before.shares, signed) then GrossPnl(before, signed, fill.price) - fill.fee else 0.0
    ensures RecordedPnl(None, signed, fill) == 0.0
    ensures !ClosesSome(before.shares, signed) ==> GrossPnl(before, signed, fill.price) == 0.0
  {
  }
}
