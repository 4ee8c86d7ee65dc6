/** Two average-cost folds, one in the engine and one in the ledger, reconciled with the
    cash.  `Coupled` relates an engine account to the reconstruction of the fills that
    account reported; `CoupledRuns` shows that every long-only run keeps it. */
module Coupling {
  import opened BrokerModels
  import opened Reals
  import opened Positions
  import opened Pricing
  import opened Engine
  import opened FillLaws
  import opened Ledger
  import opened LedgerLaws

  function AccountKey(owner: Owner, account: Name, ticker: Name): Key {
    Key(owner.session, owner.strategy, account, ticker)
  }

  /** What holding `n` shares at the engine's average cost carries in the ledger: the
      ledger's basis includes the buying commission, the engine's does not. */
  function Carry(c: real, avg: real, n: real): real {
    Times(1.0 + c, Times(avg, n))
  }

  ghost function CarryOf(c: real): Position -> real {
    (p: Position) => Carry(c, p.avgCost, p.shares)
  }

  /** The last record of a key remembers the position the engine holds now. */
  predicate Remembers(held: Option<Holding>, n: real, avg: real) {
    match held
    case None => n == 0.0
    case Some(h) => h.shares == n && (n > 0.0 ==> h.avgCost == avg)
  }

  /** The reconstructed execution list shows the open position at its ledger basis. */
  predicate Shows(executions: seq<Record>, ticker: Name, n: real, basis: real) {
    match LastOf(executions, ticker)
    case None => n == 0.0
    case Some(x) => x.sharesAfter == n && (n > 0.0 ==> x.avgCostAfter == basis)
  }

  ghost predicate KeyCoupled(c: real, log: seq<Record>, s: Recon, key: Key, n: real, avg: real) {
    && n >= 0.0
    && Remembers(LatestPosition(log, key), n, avg)
    && PrevShares(s, key) == n
    && Booked(s, key) && AllRoundTrips(s, key)
    && (n > 0.0 ==> s.open[key].remainingCost == Carry(c, avg, n))
    && Shows(s.executions, key.ticker, n, Times(1.0 + c, avg))
  }

  function Log(a: Account): seq<Record> {
    RecordFills([], a.reports)
  }

  ghost predicate Coupled(cfg: Config, owner: Owner, id: Name, a: Account) {
    var log := Log(a);
    var s := ReconAll({}, log);
    && WellFormed(a.book)
    && (forall t {:trigger AccountKey(owner, id, t)} ::
          KeyCoupled(cfg.commission, log, s, AccountKey(owner, id, t), Shares(a.book, t), AvgCost(a.book, t)))
    && MoneyCoupled(cfg, s, a.book, a.cash)
    && (forall r :: r in log ==> r.sharesAfter >= 0.0)
  }

  // ---- money ----------------------------------------------------------------

  lemma BuyCarry(c: real, avg: real, n: real, price: real, q: real)
    requires n >= 0.0 && q > 0.0 && price > 0.0
    requires c >= 0.0
    ensures
      var after := if n == 0.0 then price else AverageCost(avg, n, price, q);
      Carry(c, after, n + q) == (if n == 0.0 then 0.0 else Carry(c, avg, n)) + Times(price, q) + Fee(Times(price, q), c)
  {
    MulPos(price, q);
    if n > 0.0 {
      AverageCostTotal(avg, n, price, q);
    }
    Distribute(c, if n == 0.0 then 0.0 else Times(avg, n), Times(price, q));
  }

  lemma Distribute(c: real, x: real, y: real)
    ensures Times(1.0 + c, x + y) == Times(1.0 + c, x) + y + Times(y, c)
  {
  }

  lemma SellCarry(c: real, avg: real, n: real, sold: real)
    requires n > 0.0
    ensures Ratio(Carry(c, avg, n), n) == Times(1.0 + c, avg)
    ensures Times(Times(1.0 + c, avg), sold) == Carry(c, avg, sold)
    ensures Carry(c, avg, n) - Carry(c, avg, sold) == Carry(c, avg, n - sold)
  {
    Associate(1.0 + c, avg, n);
    Associate(1.0 + c, avg, sold);
    Associate(1.0 + c, avg, n - sold);
    Cancels(Times(1.0 + c, avg), n);
    Distributes(n - sold, sold, Times(1.0 + c, avg));
    Swap(Times(1.0 + c, avg), n);
    Swap(Times(1.0 + c, avg), sold);
    Swap(Times(1.0 + c, avg), n - sold);
  }

  lemma Associate(x: real, y: real, z: real)
    ensures Times(x, Times(y, z)) == Times(Times(x, y), z)
  {
  }

  lemma Swap(x: real, y: real)
    ensures Times(x, y) == Times(y, x)
  {
  }

  lemma Cancels(x: real, y: real)
    requires y != 0.0
    ensures Ratio(Times(x, y), y) == x
  {
  }

  // ---- one fill, other keys --------------------------------------------------

  lemma LastOfAppend(executions: seq<Record>, x: Record, ticker: Name)
    ensures LastOf(executions + [x], ticker) == if x.ticker == ticker then Some(x) else LastOf(executions, ticker)
  {
    assert (executions + [x])[..|executions|] == executions;
  }

  lemma LatestAppend(log: seq<Record>, r: Record, key: Key)
    ensures LatestPosition(log + [r], key)
         == if KeyOf(r) == key then Some(Holding(r.sharesAfter, r.avgCostAfter)) else LatestPosition(log, key)
  {
    assert (log + [r])[..|log|] == log;
  }

  lemma OtherKeyCouples(c: real, log: seq<Record>, s: Recon, r: Record, key: Key, n: real, avg: real)
    requires Sane(s) && KeyCoupled(c, log, s, key, n, avg)
    requires r.ticker != key.ticker
    ensures KeyCoupled(c, log + [r], ReconStep({}, s, r), key, n, avg)
  {
    OtherKeyStep({}, s, r, key);
    KeyFactsCarry(ReconStep({}, s, r), s, key);
    StepAppends({}, s, r);
    var x :| ReconStep({}, s, r).executions == s.executions + [x] && KeyOf(x) == KeyOf(r);
    LastOfAppend(s.executions, x, key.ticker);
    LatestAppend(log, r, key);
  }

  // ---- one fill, its own key --------------------------------------------------

  /** The execution a step appends. */
  function Appended(s: Recon, r: Record): Record
    requires Sane(s)
  {
    ReconStep({}, s, r).executions[|s.executions|]
  }

  lemma BuyCouples(c: real, log: seq<Record>, s: Recon, r: Record, n: real, avg: real, q: real)
    requires c >= 0.0 && Sane(s) && KeyCoupled(c, log, s, KeyOf(r), n, avg)
    requires q > 0.0 && r.fill.price > 0.0 && r.sharesAfter == n + q
    requires r.avgCostAfter == if n == 0.0 then r.fill.price else AverageCost(avg, n, r.fill.price, q)
    requires r.fill.fee == Fee(Times(r.fill.price, q), c)
    ensures KeyCoupled(c, log + [r], ReconStep({}, s, r), KeyOf(r), n + q, r.avgCostAfter)
    ensures ReconStep({}, s, r).executions == s.executions + [Appended(s, r)]
    ensures Appended(s, r).realizedPnl == 0.0
  {
    var key := KeyOf(r);
    StepIsBuy({}, s, r, q);
    StepKeepsBooks({}, s, r);
    LatestAppend(log, r, key);
    BuyCarry(c, avg, n, r.fill.price, q);
    var t := ReconStep({}, s, r);
    assert t.open[key].remainingCost == Carry(c, r.avgCostAfter, n + q);
    SellCarry(c, r.avgCostAfter, n + q, 0.0);
    LastOfAppend(s.executions, Appended(s, r), key.ticker);
  }

  lemma SellCouples(c: real, log: seq<Record>, s: Recon, r: Record, n: real, avg: real, sold: real)
    requires c >= 0.0 && Sane(s) && KeyCoupled(c, log, s, KeyOf(r), n, avg)
    requires 0.0 < sold <= n && r.sharesAfter == n - sold
    requires n - sold > 0.0 ==> r.avgCostAfter == avg && n - sold > DUST
    ensures KeyCoupled(c, log + [r], ReconStep({}, s, r), KeyOf(r), n - sold, r.avgCostAfter)
    ensures ReconStep({}, s, r).executions == s.executions + [Appended(s, r)]
    ensures Appended(s, r).realizedPnl == Times(r.fill.price, sold) - r.fill.fee - Carry(c, avg, sold)
  {
    var key := KeyOf(r);
    StepIsSell({}, s, r, sold);
    StepKeepsBooks({}, s, r);
    LatestAppend(log, r, key);
    SellCarry(c, avg, n, sold);
    QuotientBound(sold, sold, 1.0);
    var t := ReconStep({}, s, r);
    if n - sold > 0.0 {
      assert t.open[key].remainingCost == Carry(c, avg, n - sold);
      SellCarry(c, avg, n - sold, 0.0);
    }
    LastOfAppend(s.executions, Appended(s, r), key.ticker);
  }

  /** What the ledger recorded at the fill and what it reconstructs later differ by the
      buying commission on the shares closed. */
  lemma RecordedAgainstReconstructed(c: real, n: real, avg: real, sold: real, fill: Fill,
      held: Option<Holding>)
    requires Remembers(held, n, avg) && 0.0 < sold <= n
    ensures Times(fill.price, sold) - fill.fee - Carry(c, avg, sold)
         == RecordedPnl(held, -sold, fill) - Times(c, Times(avg, sold))
  {
    SpreadOver(fill.price, avg, sold);
    OneMore(c, Times(avg, sold));
  }

  lemma SpreadOver(x: real, y: real, z: real)
    ensures Times(x - y, z) == Times(x, z) - Times(y, z)
  {
  }

  lemma OneMore(c: real, x: real)
    ensures Times(1.0 + c, x) == x + Times(c, x)
  {
  }

  /** The engine's average cost right after a long-only fill. */
  lemma NextAverage(book: Book, ticker: Name, signed: real, price: real)
    requires WellFormed(book) && signed != 0.0
    requires Shares(book, ticker) >= 0.0 && Shares(book, ticker) + signed >= 0.0
    ensures
      var n, avg, next := Shares(book, ticker), AvgCost(book,
                                 ticker), AvgCost(NextBook(book, ticker, signed, price), ticker);
      && (signed > 0.0 ==> next == if n == 0.0 then price else AverageCost(avg, n, price, signed))
      && (signed < 0.0 && n + signed > 0.0 ==> next == avg)
  {
    NextBookEffect(book, ticker, signed, price);
    FoundIsHeld(book, ticker);
    match NextPosition(Find(book, ticker), ticker, signed, price)
    case None =>
    case Some(p) => PutEffect(book, p, (x: Position) => 0.0);
  }

  lemma PartIsCarry(book: Book, ticker: Name, c: real)
    ensures Part(book, ticker, CarryOf(c)) == Carry(c, AvgCost(book, ticker), Shares(book, ticker))
  {
  }

  /** No sale leaves a positive remainder within the ledger's closing tolerance. */
  predicate CleanSale(r: FillReport) {
    r.side == Sell ==> r.sharesAfter == 0.0 || r.sharesAfter > 0.000000000001
  }

  predicate LongFill(o: Order, book: Book) {
    && o.qty > 0.0
    && Shares(book, o.ticker) >= 0.0
    && (o.side == Sell ==> o.qty <= Shares(book, o.ticker))
  }

  lemma GrowLog(a: Account, r: FillReport)
    ensures Log(a.(reports := a.reports + [r])) == Log(a) + [NewRecord(Log(a), r)]
    ensures ReconAll({}, Log(a) + [NewRecord(Log(a), r)]) == ReconStep({}, ReconAll({}, Log(a)), NewRecord(Log(a), r))
  {
    assert (a.reports + [r])[..|a.reports|] == a.reports;
    assert (Log(a) + [NewRecord(Log(a), r)])[..|Log(a)|] == Log(a);
  }

  /** The record the ledger makes of a fill of this account. */
  lemma RecordOf(cfg: Config, owner: Owner, id: Name, a: Account, latest: Prices, i: nat,
      price: real, reference: real, time: int)
    returns (r: Record)
    requires SaneRates(cfg) && Coupled(cfg, owner, id, a) && i < |a.orders| && price > 0.0
    requires a.orders[i].owner == owner && a.orders[i].account == id && LongFill(a.orders[i], a.book)
    ensures
      var o := a.orders[i];
      var after := ExecuteFill(cfg, a, latest, i, price, reference, time);
      && Log(after) == Log(a) + [r]
      && ReconAll({}, Log(after)) == ReconStep({}, ReconAll({}, Log(a)), r)
      && KeyOf(r) == AccountKey(owner, id, o.ticker)
      && r.fill.price == price
      && r.side == o.side
      && r.realizedPnl == RecordedPnl(LatestPosition(Log(a), KeyOf(r)), Signed(o.side, o.qty), r.fill)
      && r.fill.fee == Fee(Times(price, o.qty), cfg.commission)
      && r.sharesAfter == Shares(a.book, o.ticker) + Signed(o.side, o.qty)
      && r.sharesAfter == Shares(after.book, o.ticker)
      && r.avgCostAfter == AvgCost(after.book, o.ticker)
  {
    var o := a.orders[i];
    var after := ExecuteFill(cfg, a, latest, i, price, reference, time);
    var report := after.reports[|a.reports|];
    assert after.reports == a.reports + [report];
    GrowLog(a, report);
    r := NewRecord(Log(a), report);
    assert KeyCoupled(cfg.commission, Log(a), ReconAll({}, Log(a)), AccountKey(owner, id, o.ticker),
                      Shares(a.book, o.ticker), AvgCost(a.book, o.ticker));
    NextBookEffect(a.book, o.ticker, Signed(o.side, o.qty), price);
    SameFee(o.side, price, o.qty, cfg.commission);
  }

  lemma BuyAdds(cfg: Config, book: Book, ticker: Name, price: real, q: real)
    requires SaneRates(cfg) && WellFormed(book) && q > 0.0 && price > 0.0 && Shares(book, ticker) >= 0.0
    ensures Total(NextBook(book, ticker, q, price), CarryOf(cfg.commission))
         == Total(book, CarryOf(cfg.commission)) + Times(price, q) + Fee(Times(price, q), cfg.commission)
  {
    var c, n, avg := cfg.commission, Shares(book, ticker), AvgCost(book, ticker);
    var next := NextBook(book, ticker, q, price);
    NextBookTotal(book, ticker, q, price, CarryOf(c));
    NextBookEffect(book, ticker, q, price);
    NextAverage(book, ticker, q, price);
    PartIsCarry(book, ticker, c);
    PartIsCarry(next, ticker, c);
    BuyCarry(c, avg, n, price, q);
    ZeroCarry(c, avg);
  }

  /** Buying: the coupling of the filled ticker and of the money. */
  lemma BuyFill(cfg: Config, owner: Owner, id: Name, a: Account, latest: Prices, i: nat,
      price: real, reference: real, time: int)
    requires SaneRates(cfg) && Coupled(cfg, owner, id, a) && i < |a.orders| && price > 0.0
    requires a.orders[i].owner == owner && a.orders[i].account == id && LongFill(a.orders[i], a.book)
    requires a.orders[i].side == Buy
    ensures FillCoupled(cfg, owner, id, a, a.orders[i].ticker, ExecuteFill(cfg, a, latest, i, price, reference, time))
  {
    var o := a.orders[i];
    var r := RecordOf(cfg, owner, id, a, latest, i, price, reference, time);
    CashOfPurchase(cfg, a, latest, i, price, reference, time);
    BuyAfter(cfg, owner, id, a, ExecuteFill(cfg, a, latest, i, price, reference, time), r, o.ticker, o.qty);
  }

  lemma BuyAfter(cfg: Config, owner: Owner, id: Name, a: Account, after: Account, r: Record,
      ticker: Name, q: real)
    requires SaneRates(cfg) && Coupled(cfg, owner, id, a)
    requires KeyOf(r) == AccountKey(owner, id, ticker) && Log(after) == Log(a) + [r]
    requires ReconAll({}, Log(after)) == ReconStep({}, ReconAll({}, Log(a)), r)
    requires q > 0.0 && r.fill.price > 0.0 && r.sharesAfter == Shares(a.book, ticker) + q
    requires r.fill.fee == Fee(Times(r.fill.price, q), cfg.commission)
    requires after.book == NextBook(a.book, ticker, q, r.fill.price)
    requires after.cash == a.cash - Times(r.fill.price, q) - r.fill.fee
    requires r.avgCostAfter == AvgCost(after.book, ticker)
    ensures FillCoupled(cfg, owner, id, a, ticker, after)
  {
    var s := ReconAll({}, Log(a));
    assert KeyCoupled(cfg.commission, Log(a), s, KeyOf(r), Shares(a.book, ticker), AvgCost(a.book, ticker));
    BuyMoves(cfg, Log(a), s, ReconAll({}, Log(after)), r, a.book, after.book, ticker, q, a.cash, after.cash);
  }

  /** Realized P&L against cash and what the book carries. */
  ghost predicate MoneyCoupled(cfg: Config, s: Recon, book: Book, cash: real) {
    RealizedTotal(s.executions) == cash - cfg.initialCash + Total(book, CarryOf(cfg.commission))
  }

  /** A purchase, in terms of one key of any reconstruction and of the book. */
  lemma BuyMoves(cfg: Config, log: seq<Record>, s: Recon, t: Recon, r: Record, book: Book, next: Book, ticker: Name,
      q: real, cash: real, cash': real)
    requires SaneRates(cfg) && Sane(s) && WellFormed(book) && r.ticker == ticker && t == ReconStep({}, s, r)
    requires KeyCoupled(cfg.commission, log, s, KeyOf(r), Shares(book, ticker), AvgCost(book, ticker))
    requires MoneyCoupled(cfg, s, book, cash)
    requires q > 0.0 && r.fill.price > 0.0 && r.sharesAfter == Shares(book, ticker) + q
    requires r.fill.fee == Fee(Times(r.fill.price, q), cfg.commission)
    requires next == NextBook(book, ticker, q, r.fill.price) && r.avgCostAfter == AvgCost(next, ticker)
    requires cash' == cash - Times(r.fill.price, q) - r.fill.fee
    ensures KeyCoupled(cfg.commission, log + [r], t, KeyOf(r), Shares(next, ticker), AvgCost(next, ticker))
    ensures MoneyCoupled(cfg, t, next, cash')
  {
    NextAverage(book, ticker, q, r.fill.price);
    NextBookEffect(book, ticker, q, r.fill.price);
    BuyAdds(cfg, book, ticker, r.fill.price, q);
    BuyRecorded(cfg.commission, log, s, r, Shares(book, ticker), AvgCost(book, ticker), q);
  }

  lemma CashOfPurchase(cfg: Config, a: Account, latest: Prices, i: nat, price: real,
      reference: real, time: int)
    requires i < |a.orders| && a.orders[i].side == Buy
    ensures
      var o := a.orders[i];
      var after := ExecuteFill(cfg, a, latest, i, price, reference, time);
      && after.cash == a.cash - Times(price, o.qty) - Fee(Times(price, o.qty), cfg.commission)
      && after.book == NextBook(a.book, o.ticker, o.qty, price)
  {
  }

  lemma BuyRecorded(c: real, log: seq<Record>, s: Recon, r: Record, n: real, avg: real, q: real)
    requires c >= 0.0 && Sane(s) && KeyCoupled(c, log, s, KeyOf(r), n, avg)
    requires q > 0.0 && r.fill.price > 0.0 && r.sharesAfter == n + q
    requires r.avgCostAfter == if n == 0.0 then r.fill.price else AverageCost(avg, n, r.fill.price, q)
    requires r.fill.fee == Fee(Times(r.fill.price, q), c)
    ensures KeyCoupled(c, log + [r], ReconStep({}, s, r), KeyOf(r), n + q, r.avgCostAfter)
    ensures RealizedTotal(ReconStep({}, s, r).executions) == RealizedTotal(s.executions)
  {
    BuyCouples(c, log, s, r, n, avg, q);
    LogTotalsGrow(s.executions, Appended(s, r));
  }

  /** Selling: how much carried cost leaves the book. */
  lemma SellReleases(cfg: Config, book: Book, ticker: Name, price: real, sold: real)
    requires WellFormed(book) && 0.0 < sold <= Shares(book, ticker)
    ensures Total(NextBook(book, ticker, -sold, price), CarryOf(cfg.commission))
         == Total(book, CarryOf(cfg.commission)) - Carry(cfg.commission, AvgCost(book, ticker), sold)
  {
    var c, n, avg := cfg.commission, Shares(book, ticker), AvgCost(book, ticker);
    var next := NextBook(book, ticker, -sold, price);
    NextBookTotal(book, ticker, -sold, price, CarryOf(c));
    NextBookEffect(book, ticker, -sold, price);
    NextAverage(book, ticker, -sold, price);
    PartIsCarry(book, ticker, c);
    PartIsCarry(next, ticker, c);
    SellCarry(c, avg, n, sold);
    ZeroCarry(c, AvgCost(next, ticker));
    ZeroCarry(c, avg);
  }

  lemma SellFill(cfg: Config, owner: Owner, id: Name, a: Account, latest: Prices, i: nat,
      price: real, reference: real, time: int)
    requires SaneRates(cfg) && Coupled(cfg, owner, id, a) && i < |a.orders| && price > 0.0
    requires a.orders[i].owner == owner && a.orders[i].account == id && LongFill(a.orders[i], a.book)
    requires a.orders[i].side == Sell
    requires Shares(a.book, a.orders[i].ticker) - a.orders[i].qty
         == 0.0 || Shares(a.book, a.orders[i].ticker) - a.orders[i].qty > DUST
    ensures FillCoupled(cfg, owner, id, a, a.orders[i].ticker, ExecuteFill(cfg, a, latest, i, price, reference, time))
  {
    var o := a.orders[i];
    var r := RecordOf(cfg, owner, id, a, latest, i, price, reference, time);
    CashOfSale(cfg, a, latest, i, price, reference, time);
    SellAfter(cfg, owner, id, a, ExecuteFill(cfg, a, latest, i, price, reference, time), r, o.ticker, o.qty);
  }

  lemma SellAfter(cfg: Config, owner: Owner, id: Name, a: Account, after: Account, r: Record,
      ticker: Name, sold: real)
    requires SaneRates(cfg) && Coupled(cfg, owner, id, a)
    requires KeyOf(r) == AccountKey(owner, id, ticker) && Log(after) == Log(a) + [r]
    requires ReconAll({}, Log(after)) == ReconStep({}, ReconAll({}, Log(a)), r)
    requires 0.0 < sold <= Shares(a.book, ticker) && r.sharesAfter == Shares(a.book, ticker) - sold
    requires r.sharesAfter == 0.0 || r.sharesAfter > DUST
    requires after.book == NextBook(a.book, ticker, -sold, r.fill.price)
    requires after.cash == a.cash + Times(r.fill.price, sold) - r.fill.fee
    requires r.avgCostAfter == AvgCost(after.book, ticker)
    ensures FillCoupled(cfg, owner, id, a, ticker, after)
  {
    var s := ReconAll({}, Log(a));
    assert KeyCoupled(cfg.commission, Log(a), s, KeyOf(r), Shares(a.book, ticker), AvgCost(a.book, ticker));
    SellMoves(cfg, Log(a), s, ReconAll({}, Log(after)), r, a.book, after.book, ticker, sold, a.cash, after.cash);
  }

  /** A sale, likewise. */
  lemma SellMoves(cfg: Config, log: seq<Record>, s: Recon, t: Recon, r: Record, book: Book, next: Book, ticker: Name,
      sold: real, cash: real, cash': real)
    requires SaneRates(cfg) && Sane(s) && WellFormed(book) && r.ticker == ticker && t == ReconStep({}, s, r)
    requires KeyCoupled(cfg.commission, log, s, KeyOf(r), Shares(book, ticker), AvgCost(book, ticker))
    requires MoneyCoupled(cfg, s, book, cash)
    requires 0.0 < sold <= Shares(book, ticker) && r.sharesAfter == Shares(book, ticker) - sold
    requires r.sharesAfter == 0.0 || r.sharesAfter > DUST
    requires next == NextBook(book, ticker, -sold, r.fill.price) && r.avgCostAfter == AvgCost(next, ticker)
    requires cash' == cash + Times(r.fill.price, sold) - r.fill.fee
    ensures KeyCoupled(cfg.commission, log + [r], t, KeyOf(r), Shares(next, ticker), AvgCost(next, ticker))
    ensures MoneyCoupled(cfg, t, next, cash')
  {
    NextBookEffect(book, ticker, -sold, r.fill.price);
    NextAverage(book, ticker, -sold, r.fill.price);
    SellReleases(cfg, book, ticker, r.fill.price, sold);
    SellRecorded(cfg.commission, log, s, r, Shares(book, ticker), AvgCost(book, ticker), sold);
  }

  lemma SellRecorded(c: real, log: seq<Record>, s: Recon, r: Record, n: real, avg: real, sold: real)
    requires c >= 0.0 && Sane(s) && KeyCoupled(c, log, s, KeyOf(r), n, avg)
    requires 0.0 < sold <= n && r.sharesAfter == n - sold
    requires n - sold > 0.0 ==> r.avgCostAfter == avg && n - sold > DUST
    ensures KeyCoupled(c, log + [r], ReconStep({}, s, r), KeyOf(r), n - sold, r.avgCostAfter)
    ensures RealizedTotal(ReconStep({}, s, r).executions)
         == RealizedTotal(s.executions) + Times(r.fill.price, sold) - r.fill.fee - Carry(c, avg, sold)
  {
    SellCouples(c, log, s, r, n, avg, sold);
    LogTotalsGrow(s.executions, Appended(s, r));
  }

  lemma CashOfSale(cfg: Config, a: Account, latest: Prices, i: nat, price: real, reference: real, time: int)
    requires i < |a.orders| && a.orders[i].side == Sell
    ensures
      var o := a.orders[i];
      var after := ExecuteFill(cfg, a, latest, i, price, reference, time);
      && after.cash == a.cash + Times(price, o.qty) - Fee(Times(price, o.qty), cfg.commission)
      && after.book == NextBook(a.book, o.ticker, -o.qty, price)
  {
    NegativeProduct(price, a.orders[i].qty);
    SameFee(Sell, price, a.orders[i].qty, cfg.commission);
  }

  lemma ZeroCarry(c: real, avg: real)
    ensures Carry(c, avg, 0.0) == 0.0
  {
  }

  lemma NegativeProduct(x: real, y: real)
    ensures Times(x, -y) == -Times(x, y)
  {
  }

  /** What a fill establishes about its own ticker and about the money. */
  ghost predicate FillCoupled(cfg: Config, owner: Owner, id: Name, a: Account, ticker: Name, after: Account) {
    var s := ReconAll({}, Log(after));
    && KeyCoupled(cfg.commission, Log(after), s, AccountKey(owner, id, ticker), Shares(after.book, ticker),
                  AvgCost(after.book, ticker))
    && MoneyCoupled(cfg, s, after.book, after.cash)
  }

  /** A fill keeps the account coupled to its ledger records. */
  lemma FillCouples(cfg: Config, owner: Owner, id: Name, a: Account, latest: Prices, i: nat,
      price: real, reference: real, time: int)
    requires SaneRates(cfg) && Coupled(cfg, owner, id, a) && i < |a.orders| && price > 0.0
    requires a.orders[i].owner == owner && a.orders[i].account == id && LongFill(a.orders[i], a.book)
    requires CleanSale(ExecuteFill(cfg, a, latest, i, price, reference, time).reports[|a.reports|])
    ensures Coupled(cfg, owner, id, ExecuteFill(cfg, a, latest, i, price, reference, time))
  {
    var o := a.orders[i];
    var after := ExecuteFill(cfg, a, latest, i, price, reference, time);
    var signed := Signed(o.side, o.qty);
    NextBookEffect(a.book, o.ticker, signed, price);
    if o.side == Buy {
      BuyFill(cfg, owner, id, a, latest, i, price, reference, time);
    } else {
      SellFill(cfg, owner, id, a, latest, i, price, reference, time);
    }
    var r := RecordOf(cfg, owner, id, a, latest, i, price, reference, time);
    forall t
      ensures KeyCoupled(cfg.commission, Log(after), ReconAll({}, Log(after)), AccountKey(owner, id, t),
                         Shares(after.book, t), AvgCost(after.book, t))
    {
      if t != o.ticker {
        OtherKeyCouples(cfg.commission, Log(a), ReconAll({}, Log(a)), r, AccountKey(owner, id, t),
                        Shares(a.book, t), AvgCost(a.book, t));
      }
    }
  }

  // ---- recorded against reconstructed ------------------------------------------

  /** What the engine's average cost was for the shares a record closed. */
  function ClosedCost(held: Option<Holding>, sharesAfter: real): real {
    if held.Some? && sharesAfter < held.value.shares
    then Times(held.value.avgCost, held.value.shares - sharesAfter)
    else 0.0
  }

  /** Record by record, the reconstruction has the recorded side, and realizes what was
      recorded at the fill less the buying commission on the shares closed. */
  ghost predicate Gapped(c: real, log: seq<Record>, executions: seq<Record>) {
    && |executions| == |log|
    && (forall i :: 0 <= i < |log| ==> executions[i].side == log[i].side)
    && forall i :: 0 <= i < |log| ==>
         executions[i].realizedPnl
           == log[i].realizedPnl - Times(c, ClosedCost(LatestPosition(log[..i], KeyOf(log[i])), log[i].sharesAfter))
  }

  lemma GapGrows(c: real, log: seq<Record>, executions: seq<Record>, r: Record, x: Record)
    requires Gapped(c, log, executions) && x.side == r.side
    requires x.realizedPnl == r.realizedPnl - Times(c, ClosedCost(LatestPosition(log, KeyOf(r)), r.sharesAfter))
    ensures Gapped(c, log + [r], executions + [x])
  {
    var grown := log + [r];
    forall i | 0 <= i < |grown|
      ensures (executions + [x])[i].realizedPnl
           == grown[i].realizedPnl
              - Times(c, ClosedCost(LatestPosition(grown[..i], KeyOf(grown[i])), grown[i].sharesAfter))
    {
      assert grown[..i] == log[..i];
      assert log[..|log|] == log;
    }
  }

  lemma RecordGaps(c: real, log: seq<Record>, s: Recon, r: Record, n: real, avg: real, signed: real)
    requires c >= 0.0 && Sane(s) && KeyCoupled(c, log, s, KeyOf(r), n, avg)
    requires signed != 0.0 && n + signed >= 0.0 && r.sharesAfter == n + signed
    requires r.realizedPnl == RecordedPnl(LatestPosition(log, KeyOf(r)), signed, r.fill)
    requires r.side == if signed > 0.0 then Buy else Sell
    ensures Appended(s, r).side == r.side
    ensures ReconStep({}, s, r).executions == s.executions + [Appended(s, r)]
    ensures Appended(s, r).realizedPnl
         == r.realizedPnl - Times(c, ClosedCost(LatestPosition(log, KeyOf(r)), r.sharesAfter))
  {
    if signed > 0.0 {
      StepIsBuy({}, s, r, signed);
    } else {
      StepIsSell({}, s, r, -signed);
      SellCarry(c, avg, n, -signed);
      Associate(1.0 + c, avg, -signed);
      SameUnit(-signed);
      RecordedAgainstReconstructed(c, n, avg, -signed, r.fill, LatestPosition(log, KeyOf(r)));
    }
  }

  lemma SameUnit(x: real)
    requires x != 0.0
    ensures Ratio(x, x) == 1.0
  {
  }

  lemma FillGaps(cfg: Config, owner: Owner, id: Name, a: Account, latest: Prices, i: nat,
      price: real, reference: real, time: int)
    requires SaneRates(cfg) && Coupled(cfg, owner, id, a) && i < |a.orders| && price > 0.0
    requires a.orders[i].owner == owner && a.orders[i].account == id && LongFill(a.orders[i], a.book)
    requires Gapped(cfg.commission, Log(a), ReconAll({}, Log(a)).executions)
    ensures
      var after := ExecuteFill(cfg, a, latest, i, price, reference, time);
      Gapped(cfg.commission, Log(after), ReconAll({}, Log(after)).executions)
  {
    var o := a.orders[i];
    var s := ReconAll({}, Log(a));
    var r := RecordOf(cfg, owner, id, a, latest, i, price, reference, time);
    assert KeyCoupled(cfg.commission, Log(a), s, KeyOf(r), Shares(a.book, o.ticker), AvgCost(a.book, o.ticker));
    RecordGaps(cfg.commission, Log(a), s, r, Shares(a.book, o.ticker), AvgCost(a.book, o.ticker),
               Signed(o.side, o.qty));
    GapGrows(cfg.commission, Log(a), s.executions, r, Appended(s, r));
  }
}
