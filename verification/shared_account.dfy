/** One account traded by several strategies: the engine keys positions by ticker, the
    ledger by session and strategy as well.  Exactly when the two books still agree. */
module SharedAccount {
  import opened BrokerModels
  import opened Positions
  import opened Pricing
  import opened RiskChecks
  import opened Engine
  import opened EngineLaws
  import opened Ledger
  import opened LedgerLaws

  // ---- the two books ---------------------------------------------------------------

  /** What the ledger's reconstruction holds for one key. */
  function Held(log: seq<Record>, key: Key): real {
    PrevShares(ReconAll({}, log), key)
  }

  /** The keys the log has for a ticker, one for each owner that traded it. */
  function TickerKeys(log: seq<Record>, ticker: Name): seq<Key> {
    if |log| == 0 then []
    else
      var last := log[|log| - 1];
      var rest := TickerKeys(log[..|log| - 1], ticker);
      if last.ticker == ticker && KeyOf(last) !in rest then rest + [KeyOf(last)] else rest
  }

  function SumHeld(log: seq<Record>, keys: seq<Key>): real {
    if |keys| == 0 then 0.0 else SumHeld(log, keys[..|keys| - 1]) + Held(log, keys[|keys| - 1])
  }

  /** The shares of a ticker in the ledger, over all its owners. */
  function LedgerShares(log: seq<Record>, ticker: Name): real {
    SumHeld(log, TickerKeys(log, ticker))
  }

  /** The shares of a ticker in the engine, as last reported. */
  function EngineShares(log: seq<Record>, ticker: Name): real {
    match LastOf(log, ticker)
    case None => 0.0
    case Some(x) => x.sharesAfter
  }

  ghost predicate LongOnly(log: seq<Record>) {
    forall r :: r in log ==> r.sharesAfter >= 0.0
  }

  /** After every fill the two books hold the same shares of the ticker. */
  ghost predicate BooksAgree(log: seq<Record>, ticker: Name) {
    forall k :: 0 <= k <= |log| ==> EngineShares(log[..k], ticker) == LedgerShares(log[..k], ticker)
  }

  /** The next fill of its ticker is of another owner than the last one. */
  predicate ChangesHands(log: seq<Record>, r: Record) {
    LastOf(log, r.ticker).Some? && KeyOf(LastOf(log, r.ticker).value) != KeyOf(r)
  }

  /** A fill of another owner than the last one always finds the ticker flat. */
  ghost predicate HandedOverFlat(log: seq<Record>, ticker: Name) {
    forall k :: 0 <= k < |log| && log[k].ticker == ticker && ChangesHands(log[..k], log[k]) ==>
      EngineShares(log[..k], ticker) == 0.0
  }

  // ---- one more fill ---------------------------------------------------------------

  lemma HeldGrows(log: seq<Record>, r: Record, key: Key)
    ensures Held(log + [r], key) == if KeyOf(r) == key then r.sharesAfter else Held(log, key)
  {
    assert (log + [r])[..|log|] == log;
  }

  lemma KeysGrow(log: seq<Record>, r: Record, ticker: Name)
    ensures
      var keys := TickerKeys(log, ticker);
      TickerKeys(log + [r], ticker)
        == if r.ticker == ticker && KeyOf(r) !in keys then keys + [KeyOf(r)] else keys
  {
    assert (log + [r])[..|log|] == log;
  }

  lemma EngineGrows(log: seq<Record>, r: Record, ticker: Name)
    ensures LastOf(log + [r], ticker) == if r.ticker == ticker then Some(r) else LastOf(log, ticker)
  {
    assert (log + [r])[..|log|] == log;
  }

  /** The keys of a ticker are distinct, and the last trader of the ticker is one. */
  lemma {:induction false} TickerKeysAre(log: seq<Record>, ticker: Name)
    ensures forall i, j :: 0 <= i < j < |TickerKeys(log, ticker)| ==>
      TickerKeys(log, ticker)[i] != TickerKeys(log, ticker)[j]
    ensures LastOf(log, ticker).Some? ==>
      && LastOf(log, ticker).value.ticker == ticker
      && KeyOf(LastOf(log, ticker).value) in TickerKeys(log, ticker)
      && Held(log, KeyOf(LastOf(log, ticker).value)) == EngineShares(log, ticker)
    ensures LastOf(log, ticker).None? ==> TickerKeys(log, ticker) == []
  {
    if |log| > 0 {
      var front, r := log[..|log| - 1], log[|log| - 1];
      TickerKeysAre(front, ticker);
      assert log == front + [r];
      KeysGrow(front, r, ticker);
      EngineGrows(front, r, ticker);
      if LastOf(log, ticker).Some? {
        HeldGrows(front, r, KeyOf(LastOf(log, ticker).value));
      }
    }
  }

  lemma {:induction false} UnknownHoldsNone(log: seq<Record>, key: Key)
    requires key !in TickerKeys(log, key.ticker)
    ensures Held(log, key) == 0.0
  {
    if |log| > 0 {
      var front, r := log[..|log| - 1], log[|log| - 1];
      assert log == front + [r];
      KeysGrow(front, r, key.ticker);
      HeldGrows(front, r, key);
      UnknownHoldsNone(front, key);
    }
  }

  lemma {:induction false} HeldNonNegative(log: seq<Record>, key: Key)
    requires LongOnly(log)
    ensures Held(log, key) >= 0.0
  {
    if |log| > 0 {
      var front, r := log[..|log| - 1], log[|log| - 1];
      assert log == front + [r];
      HeldNonNegative(front, key);
      HeldGrows(front, r, key);
    }
  }

  /** Recording a fill replaces what its key held. */
  lemma {:induction false} SumGrows(log: seq<Record>, r: Record, keys: seq<Key>)
    requires forall i, j :: 0 <= i < j < |keys| ==> keys[i] != keys[j]
    ensures SumHeld(log + [r], keys)
         == SumHeld(log, keys) + if KeyOf(r) in keys then r.sharesAfter - Held(log, KeyOf(r)) else 0.0
    decreases |keys|
  {
    if |keys| > 0 {
      var front := keys[..|keys| - 1];
      assert keys == front + [keys[|keys| - 1]];
      SumGrows(log, r, front);
      HeldGrows(log, r, keys[|keys| - 1]);
    }
  }

  lemma SumWithOne(log: seq<Record>, keys: seq<Key>, key: Key)
    ensures SumHeld(log, keys + [key]) == SumHeld(log, keys) + Held(log, key)
  {
    assert (keys + [key])[..|keys|] == keys;
  }

  lemma OwnTickerGrows(log: seq<Record>, r: Record)
    ensures LedgerShares(log + [r], r.ticker) == LedgerShares(log, r.ticker) + r.sharesAfter - Held(log, KeyOf(r))
  {
    var keys := TickerKeys(log, r.ticker);
    KeysGrow(log, r, r.ticker);
    TickerKeysAre(log, r.ticker);
    SumGrows(log, r, keys);
    if KeyOf(r) !in keys {
      SumWithOne(log + [r], keys, KeyOf(r));
      HeldGrows(log, r, KeyOf(r));
      UnknownHoldsNone(log, KeyOf(r));
    }
  }

  lemma OtherTickerGrows(log: seq<Record>, r: Record, ticker: Name)
    requires r.ticker != ticker
    ensures LedgerShares(log + [r], ticker) == LedgerShares(log, ticker)
  {
    KeysGrow(log, r, ticker);
    TickerKeysAre(log, ticker);
    SumGrows(log, r, TickerKeys(log, ticker));
    if KeyOf(r) in TickerKeys(log, ticker) {
      KeysAreOf(log, ticker, KeyOf(r));
    }
  }

  lemma {:induction false} KeysAreOf(log: seq<Record>, ticker: Name, key: Key)
    requires key in TickerKeys(log, ticker)
    ensures key.ticker == ticker
  {
    if |log| > 0 {
      var front, r := log[..|log| - 1], log[|log| - 1];
      assert log == front + [r];
      KeysGrow(front, r, ticker);
      if key in TickerKeys(front, ticker) {
        KeysAreOf(front, ticker, key);
      }
    }
  }

  /** No two owners hold more than all of them. */
  lemma {:induction false} TwoOfMany(log: seq<Record>, keys: seq<Key>, x: Key, y: Key)
    requires LongOnly(log) && x != y
    ensures SumHeld(log, keys) >= (if x in keys then Held(log, x) else 0.0) + (if y in keys then Held(log, y) else 0.0)
    decreases |keys|
  {
    if |keys| > 0 {
      var front, last := keys[..|keys| - 1], keys[|keys| - 1];
      assert keys == front + [last];
      TwoOfMany(log, front, x, y);
      HeldNonNegative(log, last);
      HeldNonNegative(log, x);
      HeldNonNegative(log, y);
    }
  }

  /** While the books agree, the next fill keeps them so exactly when its owner holds what
      the engine holds: it is the last trader, or the ticker is flat. */
  lemma NextAgrees(log: seq<Record>, r: Record)
    requires LongOnly(log) && EngineShares(log, r.ticker) == LedgerShares(log, r.ticker)
    ensures EngineShares(log + [r], r.ticker) == LedgerShares(log + [r], r.ticker)
       <==> (ChangesHands(log, r) ==> EngineShares(log, r.ticker) == 0.0)
  {
    var ticker, key := r.ticker, KeyOf(r);
    var keys := TickerKeys(log, ticker);
    EngineGrows(log, r, ticker);
    OwnTickerGrows(log, r);
    TickerKeysAre(log, ticker);
    if key !in keys {
      UnknownHoldsNone(log, key);
    }
    if ChangesHands(log, r) {
      var last := KeyOf(LastOf(log, ticker).value);
      TwoOfMany(log, keys, last, key);
      HeldNonNegative(log, last);
      HeldNonNegative(log, key);
    }
  }

  /** The books agree after every fill exactly when the ticker only changes hands flat. */
  lemma {:induction false} AgreeExactly(log: seq<Record>, ticker: Name)
    requires LongOnly(log)
    ensures BooksAgree(log, ticker) <==> HandedOverFlat(log, ticker)
  {
    if |log| > 0 {
      var front, r := log[..|log| - 1], log[|log| - 1];
      AgreeExactly(front, ticker);
      assert log == front + [r];
      assert forall k :: 0 <= k <= |front| ==> log[..k] == front[..k];
      assert log[..|log|] == log && front[..|front|] == front;
      SplitAgree(log, ticker);
      SplitFlat(log, ticker);
      if BooksAgree(front, ticker) {
        assert EngineShares(front[..|front|], ticker) == LedgerShares(front[..|front|], ticker);
        if r.ticker == ticker {
          NextAgrees(front, r);
        } else {
          EngineGrows(front, r, ticker);
          OtherTickerGrows(front, r, ticker);
        }
      }
    }
  }

  lemma SplitAgree(log: seq<Record>, ticker: Name)
    requires |log| > 0
    ensures BooksAgree(log, ticker)
       <==> BooksAgree(log[..|log| - 1], ticker) && EngineShares(log, ticker) == LedgerShares(log, ticker)
  {
    var front := log[..|log| - 1];
    assert forall k :: 0 <= k <= |front| ==> log[..k] == front[..k];
    assert log[..|log|] == log;
  }

  lemma SplitFlat(log: seq<Record>, ticker: Name)
    requires |log| > 0
    ensures
      var front, r := log[..|log| - 1], log[|log| - 1];
      HandedOverFlat(log, ticker)
      <==> HandedOverFlat(front, ticker)
           && (r.ticker == ticker && ChangesHands(front, r) ==> EngineShares(front, ticker) == 0.0)
  {
    var front := log[..|log| - 1];
    assert forall k :: 0 <= k < |front| ==> log[..k] == front[..k] && log[k] == front[k];
  }

  // ---- over runs -------------------------------------------------------------------

  lemma {:induction false} RecordsLong(cfg: Config, rs: seq<FillReport>)
    requires ReportsTrack(cfg, rs) && !cfg.allowShort
    ensures LongOnly(RecordFills([], rs))
    decreases |rs|
  {
    if |rs| > 0 {
      TrackShrinks(cfg, rs);
      RecordsLong(cfg, rs[..|rs| - 1]);
    }
  }

  lemma TrackShrinks(cfg: Config, rs: seq<FillReport>)
    requires ReportsTrack(cfg, rs) && |rs| > 0
    ensures ReportsTrack(cfg, rs[..|rs| - 1])
    ensures rs[|rs| - 1].sharesAfter == SignedShares(rs, rs[|rs| - 1].ticker)
  {
    var front := rs[..|rs| - 1];
    forall k | 0 <= k < |front| ensures front[k].sharesAfter == SignedShares(front[..k + 1], front[k].ticker) {
      assert front[..k + 1] == rs[..k + 1];
    }
    assert rs[..|rs|] == rs;
  }

  /** What was last reported is what the engine holds. */
  lemma {:induction false} EngineSharesAre(cfg: Config, rs: seq<FillReport>, ticker: Name)
    requires ReportsTrack(cfg, rs)
    ensures EngineShares(RecordFills([], rs), ticker) == SignedShares(rs, ticker)
    decreases |rs|
  {
    if |rs| > 0 {
      var front, r := rs[..|rs| - 1], rs[|rs| - 1];
      TrackShrinks(cfg, rs);
      EngineSharesAre(cfg, front, ticker);
      EngineGrows(RecordFills([], front), NewRecord(RecordFills([], front), r), ticker);
    }
  }

  /** Over every long-only run, whoever trades the account: its engine position of a
      ticker is what the ledger holds for all the ticker's owners together, after every
      fill, exactly when no owner ever trades a ticker that another one left held.  One
      owner per account is enough, and so are several that never overlap. */
  lemma SharedBooksAgreeExactly(cfg: Config, acts: seq<Action>, id: Name, ticker: Name)
    requires SaneRates(cfg) && cfg.initialCash >= 0.0 && !cfg.allowShort && WellformedRun(acts)
    requires id in Run(InitialState(cfg), acts).accounts
    ensures
      var a := Run(InitialState(cfg), acts).accounts[id];
      var log := RecordFills([], a.reports);
      && Shares(a.book, ticker) == EngineShares(log, ticker)
      && (BooksAgree(log, ticker) <==> HandedOverFlat(log, ticker))
  {
    RunsFromStartConserve(cfg, acts, id);
    var a := Run(InitialState(cfg), acts).accounts[id];
    var log := RecordFills([], a.reports);
    EngineSharesAre(cfg, a.reports, ticker);
    RecordsLong(cfg, a.reports);
    AgreeExactly(log, ticker);
  }

  // ---- a run in which they part ----------------------------------------------------

  predicate NoCosts(cfg: Config) {
    cfg.commission == 0.0 && cfg.slippage == 0.0
  }

  lemma FreePrice(side: Side, price: real)
    ensures MarketPrice(side, price, 0.0) == price
  {
  }

  lemma FreeFee(x: real)
    ensures Times(x, 0.0) == 0.0 && Times(x, 1.0) == x && Fee(x, 0.0) == 0.0 && Times(0.0, x) == 0.0
    ensures Times(x, -1.0) == -x && Times(1.0, x) == x
  {
  }

  /** Without costs, buying one share that the cash covers, or selling the one held,
      passes the check. */
  lemma FreePasses(cfg: Config, o: Order, cash: real, equity: real, book: Book, price: real)
    requires NoCosts(cfg) && cfg.maxPosition == 1.0 && o.kind == Market && o.qty == 1.0 && price > 0.0
    requires equity > 0.0 && (o.side == Buy ==> price <= cash && price <= equity && Shares(book, o.ticker) == 0.0)
    requires o.side == Sell ==> Shares(book, o.ticker) == 1.0
    ensures Check(cfg, o, cash, equity, book, Some(price)) == Pass
  {
    FreePrice(o.side, price);
    FreeFee(price);
    assert EstimatedPrice(cfg, o, price) == price;
    FreeProjection(cfg, o, equity, book, price);
    if o.side == Buy {
      AtMost(price, equity);
    }
  }

  lemma AtMost(x: real, y: real)
    requires y > 0.0 && x <= y
    ensures x / y <= 1.0
  {
  }

  lemma FreeProjection(cfg: Config, o: Order, equity: real, book: Book, price: real)
    requires NoCosts(cfg) && o.qty == 1.0 && EstimatedPrice(cfg, o, price) == price
    requires o.side == Buy ==> Shares(book, o.ticker) == 0.0
    requires o.side == Sell ==> Shares(book, o.ticker) == 1.0
    ensures ProjectedEquity(cfg, o, equity, price) == equity
    ensures ProjectedValue(o, book, price) == if o.side == Buy then price else 0.0
  {
    FreeFee(price);
    FreeFee(0.0);
  }

  function OneShare(id: Name, strategy: Name, side: Side): Order {
    Order(id, 0, 7, side, Market, 1.0, None, New, Owner(strategy, 0), 0, None)
  }

  function FreeFill(o: Order, price: real, time: int): Fill {
    Fill(o.id, price, 1.0, 0.0, 0.0, time, o.owner, o.account, o.decision)
  }

  /** One share bought or sold without costs. */
  lemma FreeTrade(cfg: Config, a: Account, latest: Prices, i: nat, price: real, time: int)
    requires NoCosts(cfg) && i < |a.orders| && a.orders[i].qty == 1.0
    ensures
      var o := a.orders[i];
      var book := NextBook(a.book, o.ticker, Signed(o.side, 1.0), price);
      var cash := a.cash - Signed(o.side, price);
      ExecuteFill(cfg, a, latest, i, price, price, time) ==
        Account(cash, book, a.orders[i := o.(status := Filled)],
                a.reports + [FillReport(FreeFill(o, price, time), o.ticker, o.side, Shares(book, o.ticker),
                                        AvgCost(book, o.ticker), cash, cash + MarketValue(book, latest))])
  {
    FreeFee(price);
    FreeFee(Times(price, Signed(a.orders[i].side, 1.0)));
  }

  function FlatBar(price: real): Prices {
    map[7 := Bar(price, price, price, price)]
  }

  predicate Plain(cfg: Config, p: real, q: real) {
    NoCosts(cfg) && cfg.timing == CloseBar && cfg.maxPosition == 1.0 && 0.0 < p <= cfg.initialCash && q > 0.0
  }

  /** At `p` one strategy buys a share, at `q` another one sells it. */
  function TwoTraders(p: real, q: real): seq<Action> {
    [PlayBar(FlatBar(p), 0), Place(OneShare(1, 1, Buy), 0), PlayBar(FlatBar(q), 1), Place(OneShare(2, 2, Sell), 1)]
  }

  function Done(o: Order): Order {
    o.(status := Filled)
  }

  function Bought(cfg: Config, p: real): FillReport {
    FillReport(FreeFill(OneShare(1, 1, Buy), p, 0), 7, Buy, 1.0, p, cfg.initialCash - p, cfg.initialCash)
  }

  function Sold(cfg: Config, p: real, q: real): FillReport {
    FillReport(FreeFill(OneShare(2, 2, Sell), q, 1), 7, Sell, 0.0, 0.0, cfg.initialCash - p + q,
               cfg.initialCash - p + q)
  }

  function Holding(cfg: Config, p: real): Account {
    Account(cfg.initialCash - p, [Position(7, 1.0, p)], [Done(OneShare(1, 1, Buy))], [Bought(cfg, p)])
  }

  function Flat(cfg: Config, p: real, q: real): Account {
    Account(cfg.initialCash - p + q, [], [Done(OneShare(1, 1, Buy)), Done(OneShare(2, 2, Sell))],
            [Bought(cfg, p), Sold(cfg, p, q)])
  }

  lemma Purchase(cfg: Config, p: real, q: real, a: Account)
    requires Plain(cfg, p, q) && a == FreshAccount(cfg).(orders := [OneShare(1, 1, Buy)])
    ensures Settle(cfg, a, FlatBar(p), 0, 0) == Holding(cfg, p)
  {
    var o := a.orders[0];
    FreePasses(cfg, o, a.cash, Equity(a, FlatBar(p)), a.book, p);
    FreePrice(Buy, p);
    FreeTrade(cfg, a, FlatBar(p), 0, p, 0);
    var book := Holding(cfg, p).book;
    assert NextBook([], 7, 1.0, p) == book;
    assert book[1..] == [];
    FreeFee(p);
    assert a.orders[0 := Done(o)] == [Done(o)];
    assert a.reports + [Bought(cfg, p)] == [Bought(cfg, p)];
  }

  lemma Sale(cfg: Config, p: real, q: real, a: Account)
    requires Plain(cfg, p, q) && a == Holding(cfg, p).(orders := [Done(OneShare(1, 1, Buy)), OneShare(2, 2, Sell)])
    ensures Settle(cfg, a, FlatBar(q), 1, 1) == Flat(cfg, p, q)
  {
    var o := a.orders[1];
    assert a.book == [Position(7, 1.0, p)] && a.book[1..] == [];
    FreeFee(q);
    assert MarkedValue(FlatBar(q), a.book[0]) == Times(1.0, q);
    assert MarketValue(a.book, FlatBar(q)) == q;
    FreePasses(cfg, o, a.cash, Equity(a, FlatBar(q)), a.book, q);
    FreePrice(Sell, q);
    FreeTrade(cfg, a, FlatBar(q), 1, q, 1);
    assert NextBook(a.book, 7, -1.0, q) == [];
    assert a.orders[1 := Done(o)] == Flat(cfg, p, q).orders;
  }

  function WithAccount(cfg: Config, a: Account, price: real): EngineState {
    EngineState(cfg, [0], map[0 := a], FlatBar(price), a.reports)
  }

  lemma FirstBar(cfg: Config, p: real)
    ensures Apply(InitialState(cfg), PlayBar(FlatBar(p), 0)) == InitialState(cfg).(latest := FlatBar(p))
  {
    var e := InitialState(cfg);
    assert e.latest + FlatBar(p) == FlatBar(p);
    assert e.latest + OpenOnly(FlatBar(p)) + FlatBar(p) == FlatBar(p);
  }

  lemma FirstOrder(cfg: Config, p: real, q: real)
    requires Plain(cfg, p, q)
    ensures Apply(InitialState(cfg).(latest := FlatBar(p)), Place(OneShare(1, 1, Buy), 0))
         == WithAccount(cfg, Holding(cfg, p), p)
  {
    var e := InitialState(cfg).(latest := FlatBar(p));
    var o := OneShare(1, 1, Buy);
    assert PutOrder([], o) == [o];
    Purchase(cfg, p, q, FreshAccount(cfg).(orders := [o]));
    assert Ensure(e, 0).ids == [0];
    assert Ensure(e, 0).accounts[0 := Holding(cfg, p)] == map[0 := Holding(cfg, p)];
    assert [] + Holding(cfg, p).reports[0..] == Holding(cfg, p).reports;
  }

  lemma SecondBar(cfg: Config, p: real, q: real)
    requires Plain(cfg, p, q)
    ensures Apply(WithAccount(cfg, Holding(cfg, p), p), PlayBar(FlatBar(q), 1)) == WithAccount(cfg, Holding(cfg, p), q)
  {
    var e := WithAccount(cfg, Holding(cfg, p), q);
    assert FlatBar(p) + FlatBar(q) == FlatBar(q);
    var a := Holding(cfg, p);
    assert StepOrders(cfg, a, FlatBar(q), FlatBar(q), 1, 1) == a;
    assert StepOrder(cfg, a, FlatBar(q), FlatBar(q), 0, 1) == a;
    assert a.reports[|a.reports|..] == [];
    assert e.notified + [] == e.notified;
    assert StepAccount(e, FlatBar(q), 0, 1) == e;
    assert StepAccounts(e, FlatBar(q), 1, 1) == e;
    assert WithAccount(cfg, a, p).(latest := FlatBar(p) + FlatBar(q)) == e;
  }

  lemma SecondOrder(cfg: Config, p: real, q: real)
    requires Plain(cfg, p, q)
    ensures Apply(WithAccount(cfg, Holding(cfg, p), q), Place(OneShare(2, 2, Sell), 1))
         == WithAccount(cfg, Flat(cfg, p, q), q)
  {
    var e := WithAccount(cfg, Holding(cfg, p), q);
    var o, a := OneShare(2, 2, Sell), Holding(cfg, p);
    assert OrderIndex(a.orders, 2) == 1 by {
      assert a.orders[1..] == [];
    }
    assert PutOrder(a.orders, o) == [Done(OneShare(1, 1, Buy)), o];
    Sale(cfg, p, q, a.(orders := [Done(OneShare(1, 1, Buy)), o]));
    var b := Flat(cfg, p, q);
    assert b.reports[1..] == [Sold(cfg, p, q)];
    assert a.reports + [Sold(cfg, p, q)] == b.reports;
  }

  lemma FourActions(e: EngineState, a: Action, b: Action, c: Action, d: Action)
    requires Consistent(e)
    ensures Run(e, [a, b, c, d]) == Apply(Apply(Apply(Apply(e, a), b), c), d)
  {
    assert [a, b, c, d][1..] == [b, c, d] && [b, c, d][1..] == [c, d] && [c, d][1..] == [d] && [d][1..] == [];
    var e1 := Apply(e, a);
    var e2 := Apply(e1, b);
    var e3 := Apply(e2, c);
    assert Run(e3, [d]) == Run(Apply(e3, d), []);
    assert Run(e2, [c, d]) == Run(e3, [d]);
    assert Run(e1, [b, c, d]) == Run(e2, [c, d]);
  }

  lemma TwoTradersEnd(cfg: Config, p: real, q: real)
    requires Plain(cfg, p, q)
    ensures Run(InitialState(cfg), TwoTraders(p, q)) == WithAccount(cfg, Flat(cfg, p, q), q)
  {
    FourActions(InitialState(cfg), TwoTraders(p, q)[0], TwoTraders(p, q)[1], TwoTraders(p, q)[2], TwoTraders(p, q)[3]);
    FirstBar(cfg, p);
    FirstOrder(cfg, p, q);
    SecondBar(cfg, p, q);
    SecondOrder(cfg, p, q);
  }

  /** What the ledger makes of the two fills: the sale is the first record of its key, so
      it closes nothing. */
  lemma TwoRecords(r: FillReport, s: FillReport, scope: Scope)
    requires InScope(scope, r.fill.owner, r.fill.account) && InScope(scope, s.fill.owner, s.fill.account)
    requires r.sharesAfter == 1.0 && s.sharesAfter == 0.0 && r.fill.time <= s.fill.time
    requires FillKey(r.fill, r.ticker) != FillKey(s.fill, s.ticker)
    ensures RealizedTotal(Reconstruct(RecordFills([], [r, s]), scope).executions) == 0.0
  {
    var x := NewRecord([], r);
    var y := NewRecord([x], s);
    assert [r, s][..1] == [r] && [r][..0] == [];
    assert RecordFills([], [r]) == [x];
    assert RecordFills([], [r, s]) == [x] + [y];
    TwoKeys(x, y, scope);
  }

  lemma TwoKeys(x: Record, y: Record, scope: Scope)
    requires InScope(scope, x.fill.owner, x.fill.account) && InScope(scope, y.fill.owner, y.fill.account)
    requires x.sharesAfter == 1.0 && y.sharesAfter == 0.0 && x.fill.time <= y.fill.time && KeyOf(x) != KeyOf(y)
    ensures RealizedTotal(Reconstruct([x] + [y], scope).executions) == 0.0
  {
    var log := [x] + [y];
    assert log[..1] == [x] && [x][..0] == [];
    assert LoadFills([x], scope) == [x];
    assert LoadFills(log, scope) == log;
    SortedIsFixed(log);
    assert ShortKeys(log) == {};
    var s := ReconStep({}, NOTHING, x);
    assert ReconAll({}, [x]) == s;
    var t := ReconStep({}, s, y);
    assert ReconAll({}, log) == t;
    var u, v := t.executions[0], t.executions[1];
    assert t.executions == [u] + [v];
    LogTotalsGrow([], u);
    LogTotalsGrow([u], v);
  }

  /** With two owners trading one account the reconciliation fails by what was earned: the
      run leaves the account flat and `q - p` richer, the ledger realizes nothing. */
  lemma SharedAccountBreaks(cfg: Config, p: real, q: real)
    requires Plain(cfg, p, q)
    ensures
      var e := Run(InitialState(cfg), TwoTraders(p, q));
      var log := RecordFills([], e.notified);
      && 0 in e.accounts && e.accounts[0].book == []
      && Equity(e.accounts[0], e.latest) == cfg.initialCash + (q - p)
      && RealizedTotal(Reconstruct(log, Scope(None, None, Some(0))).executions) == 0.0
      && !BooksAgree(log, 7)
  {
    TwoTradersEnd(cfg, p, q);
    TwoRecords(Bought(cfg, p), Sold(cfg, p, q), Scope(None, None, Some(0)));
    HandedOverHeld(Bought(cfg, p), Sold(cfg, p, q));
  }

  lemma HandedOverHeld(r: FillReport, s: FillReport)
    requires r.ticker == s.ticker && r.sharesAfter == 1.0 && s.sharesAfter == 0.0
    requires FillKey(r.fill, r.ticker) != FillKey(s.fill, s.ticker)
    ensures !BooksAgree(RecordFills([], [r, s]), r.ticker)
  {
    var x := NewRecord([], r);
    var y := NewRecord([x], s);
    assert [r, s][..1] == [r] && [r][..0] == [];
    assert RecordFills([], [r]) == [x];
    var log := RecordFills([], [r, s]);
    assert log == [x] + [y];
    assert log[..1] == [x];
    assert log[1].ticker == r.ticker && ChangesHands(log[..1], log[1]);
    AgreeExactly(log, r.ticker);
  }
}
