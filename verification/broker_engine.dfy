/** The broker engine object (broker/engine.py).  Every method changes the fields the
    way the source does and is proved to produce the state `Engine` describes. */
module BrokerEngine {
  import opened BrokerModels
  import opened Positions
  import opened Pricing
  import opened RiskChecks
  import opened Engine

  lemma StepsFrom(cfg: Config, a: Account, latest: Prices, bars: Prices, i: nat, time: int)
    requires i < |a.orders|
    ensures StepOrders(cfg, a, latest, bars, i, time)
         == StepOrders(cfg, StepOrder(cfg, a, latest, bars, i, time), latest, bars, i + 1, time)
  {
  }

  lemma TurnsFrom(e: EngineState, bars: Prices, k: nat, time: int)
    requires Consistent(e) && k < |e.ids|
    ensures StepAccounts(e, bars, k, time) == StepAccounts(StepAccount(e, bars, k, time), bars, k + 1, time)
  {
  }

  class MockBrokerEngine {
    var cfg: Config
    var ids: seq<Name>
    var accounts: map<Name, Account>
    var latest: Prices
    var notified: seq<FillReport>

    ghost function State(): EngineState
      reads this
    {
      EngineState(cfg, ids, accounts, latest, notified)
    }

    ghost predicate Valid()
      reads this
    {
      Consistent(State())
    }

    constructor (config: Config)
      ensures State() == InitialState(config) && Valid()
    {
      cfg := config;
      ids, accounts, latest, notified := [], map[], map[], [];
    }

    method ConfigureForBacktest(config: Config)
      requires Valid()
      modifies this
      ensures State() == old(State()).(cfg := config) && Valid()
    {
      cfg := config;
    }

    method EnsureAccount(account: Name)
      requires Valid()
      modifies this
      ensures State() == Ensure(old(State()), account) && Valid()
      ensures account in accounts
    {
      if account !in accounts {
        ids := ids + [account];
        accounts := accounts[account := Account(cfg.initialCash, [], [], [])];
      }
    }

    method ResetAccount(account: Name)
      requires Valid()
      modifies this
      ensures State() == Engine.ResetAccount(old(State()), account) && Valid()
    {
      EnsureAccount(account);
      accounts := accounts[account := Account(cfg.initialCash, [], [], [])];
    }

    method GetLatestPrice(ticker: Name) returns (price: Option<real>)
      ensures price == Reference(latest, ticker)
    {
      if ticker in latest {
        return Some(latest[ticker].close);
      }
      return None;
    }

    method GetPosition(ticker: Name, account: Name) returns (position: Option<Position>)
      requires Valid()
      modifies this
      ensures State() == Ensure(old(State()), account) && Valid()
      ensures position ==
        var found := Find(accounts[account].book, ticker);
        if found.Some? && found.value.shares == 0.0 then None else found
    {
      EnsureAccount(account);
      position := Find(accounts[account].book, ticker);
      if position.Some? && position.value.shares == 0.0 {
        position := None;
      }
    }

    /** `get_account`: the cash and the equity at the current marks. */
    method GetAccount(account: Name) returns (cash: real, equity: real)
      requires Valid()
      modifies this
      ensures State() == Ensure(old(State()), account) && Valid()
      ensures cash == accounts[account].cash
      ensures equity == Equity(accounts[account], latest)
    {
      EnsureAccount(account);
      cash := accounts[account].cash;
      equity := AccountEquity(account);
    }

    method AccountEquity(account: Name) returns (equity: real)
      requires account in accounts
      ensures equity == Equity(accounts[account], latest)
    {
      var a := accounts[account];
      var value := 0.0;
      for i := 0 to |a.book|
        invariant value + MarketValue(a.book[i..], latest) == MarketValue(a.book, latest)
      {
        assert a.book[i..][1..] == a.book[i + 1..];
        value := value + Times(a.book[i].shares, MarkPrice(latest, a.book[i].ticker, a.book[i].avgCost));
      }
      equity := a.cash + value;
    }

    /** `_account_at_open`: as `GetAccount`, but a ticker of the bar is marked at its open. */
    method AccountAtOpen(account: Name, bars: Prices) returns (equity: real)
      requires account in accounts
      ensures equity == EquityAtOpen(accounts[account], latest, bars)
    {
      var a := accounts[account];
      var value := 0.0;
      for i := 0 to |a.book|
        invariant value + ValueAtOpen(a.book[i..], latest, bars) == ValueAtOpen(a.book, latest, bars)
      {
        var p := a.book[i];
        assert a.book[i..][1..] == a.book[i + 1..];
        var mark :=
          if p.ticker in bars then bars[p.ticker].open else MarkPrice(latest, p.ticker, p.avgCost);
        value := value + Times(p.shares, mark);
      }
      equity := a.cash + value;
    }

    // ---- fills --------------------------------------------------------------

    method RejectOrder(account: Name, i: nat)
      requires account in accounts && i < |accounts[account].orders|
      modifies this`accounts
      ensures accounts == old(accounts)[account := Reject(old(accounts[account]), i)]
    {
      var a := accounts[account];
      var o := a.orders[i].(status := Rejected);
      accounts := accounts[account := a.(orders := a.orders[i := o])];
    }

    /** The fill of an order, and the book and cash it leads to. */
    method ComputeFill(a: Account, o: Order, price: real, reference: real, time: int)
      returns (fill: Fill, book: Book, cash: real)
      ensures fill == MakeFill(cfg, o, price, reference, time)
      ensures book == NextBook(a.book, o.ticker, Signed(o.side, o.qty), price)
      ensures cash == a.cash - Times(price, Signed(o.side, o.qty)) - fill.fee
    {
      var signed := if o.side == Buy then o.qty else -o.qty;
      var value := Times(price, signed);
      var fee := Fee(value, cfg.commission);
      var slippage := Abs(Times(reference, signed) - value);
      var next := NextPosition(Find(a.book, o.ticker), o.ticker, signed, price);
      book := if next == None then Drop(a.book, o.ticker) else Put(a.book, next.value);
      cash := a.cash - value;
      cash := cash - fee;
      fill := Fill(o.id, price, o.qty, fee, slippage, time, o.owner, o.account, o.decision);
    }

    method ExecuteFill(account: Name, i: nat, price: real, reference: real, time: int)
      requires account in accounts && i < |accounts[account].orders|
      modifies this`accounts, this`notified
      ensures var filled := Engine.ExecuteFill(cfg, old(accounts[account]), latest, i, price, reference, time);
        && accounts == old(accounts)[account := filled]
        && notified == old(notified) + filled.reports[|old(accounts[account]).reports|..]
    {
      var a := accounts[account];
      var o := a.orders[i];
      var fill, book, cash := ComputeFill(a, o, price, reference, time);
      var orders := a.orders[i := o.(status := Filled)];
      var held := Find(book, o.ticker);
      var after := if held == None then Position(o.ticker, 0.0, 0.0) else held.value;
      var marked := MarketValue(book, latest);
      var report := FillReport(fill, o.ticker, o.side, after.shares, after.avgCost, cash, cash + marked);
      accounts := accounts[account := Account(cash, book, orders, a.reports + [report])];
      notified := notified + [report];
      assert (a.reports + [report])[|a.reports|..] == [report];
    }

    method TryFillMarket(account: Name, i: nat, reference: real, time: int)
      requires account in accounts && i < |accounts[account].orders|
      modifies this`accounts, this`notified
      ensures
        var o := old(accounts[account]).orders[i];
        var price := MarketPrice(o.side, reference, cfg.slippage);
        var filled := Engine.ExecuteFill(cfg, old(accounts[account]), latest, i, price, reference, time);
        && accounts == old(accounts)[account := filled]
        && notified == old(notified) + filled.reports[|old(accounts[account]).reports|..]
    {
      var price;
      if accounts[account].orders[i].side == Buy {
        price := BuyPrice(reference, cfg.slippage);
      } else {
        price := SellPrice(reference, cfg.slippage);
      }
      ExecuteFill(account, i, price, reference, time);
    }

    method TryFillLimit(account: Name, i: nat, bar: Bar, time: int)
      requires account in accounts && i < |accounts[account].orders|
      modifies this`accounts, this`notified
      ensures
        var stepped := Engine.TryFillLimit(cfg, old(accounts[account]), latest, i, bar, time);
        && accounts == old(accounts)[account := stepped]
        && notified == old(notified) + stepped.reports[|old(accounts[account]).reports|..]
    {
      var a := accounts[account];
      var o := a.orders[i];
      if o.limitPrice == None {
        return;
      }
      var limit := o.limitPrice.value;
      var triggered := if o.side == Buy then bar.low <= limit else bar.high >= limit;
      if !triggered {
        return;
      }
      var equity := a.cash + MarketValue(a.book, latest);
      if Check(cfg, o, a.cash, equity, a.book, Some(limit)) != Pass {
        RejectOrder(account, i);
        return;
      }
      ExecuteFill(account, i, limit, limit, time);
    }

    // ---- bars ---------------------------------------------------------------

    method FillOrder(account: Name, bars: Prices, i: nat, time: int)
      requires account in accounts && i < |accounts[account].orders|
      modifies this`accounts, this`notified
      ensures
        var stepped := StepOrder(cfg, old(accounts[account]), latest, bars, i, time);
        && accounts == old(accounts)[account := stepped]
        && notified == old(notified) + stepped.reports[|old(accounts[account]).reports|..]
    {
      var a := accounts[account];
      var o := a.orders[i];
      if o.status != New || o.ticker !in bars {
        return;
      }
      if o.kind == Market && cfg.timing == NextOpen {
        var open := bars[o.ticker].open;
        var equity := AccountAtOpen(account, bars);
        if Check(cfg, o, a.cash, equity, a.book, Some(open)) != Pass {
          RejectOrder(account, i);
          return;
        }
        TryFillMarket(account, i, open, time);
      } else if o.kind == Limit {
        TryFillLimit(account, i, bars[o.ticker], time);
      }
    }

    method FillOrders(account: Name, bars: Prices, time: int)
      requires account in accounts
      modifies this`accounts, this`notified
      ensures
        var stepped := StepOrders(cfg, old(accounts[account]), latest, bars, 0, time);
        && accounts == old(accounts)[account := stepped]
        && notified == old(notified) + stepped.reports[|old(accounts[account]).reports|..]
    {
      ghost var before := accounts[account];
      var count := |accounts[account].orders|;
      for i := 0 to count
        invariant account in accounts
        invariant |accounts[account].orders| == count
        invariant StepOrders(cfg, accounts[account], latest, bars, i, time)
               == StepOrders(cfg, before, latest, bars, 0, time)
        invariant accounts == old(accounts)[account := accounts[account]]
        invariant |before.reports| <= |accounts[account].reports|
        invariant notified == old(notified) + accounts[account].reports[|before.reports|..]
      {
        ghost var a := accounts[account];
        StepsFrom(cfg, a, latest, bars, i, time);
        FillOrder(account, bars, i, time);
        SuffixGrows(before.reports, a.reports, accounts[account].reports);
      }
    }

    method FillAccounts(bars: Prices, time: int)
      requires Valid()
      modifies this`accounts, this`notified
      ensures State() == StepAccounts(old(State()), bars, 0, time) && Valid()
    {
      ghost var start := State();
      for k := 0 to |ids|
        invariant Valid()
        invariant StepAccounts(State(), bars, k, time) == StepAccounts(start, bars, 0, time)
      {
        ghost var before := State();
        TurnsFrom(before, bars, k, time);
        FillOrders(ids[k], bars, time);
        assert State() == StepAccount(before, bars, k, time);
      }
    }

    method OnBar(bars: Prices, time: int)
      requires Valid()
      modifies this`accounts, this`notified, this`latest
      ensures State() == Engine.OnBar(old(State()), bars, time) && Valid()
    {
      var nextOpen := cfg.timing == NextOpen;
      if nextOpen {
        latest := latest + map t | t in bars :: Bar(bars[t].open, bars[t].open, bars[t].open, bars[t].open);
      } else {
        latest := latest + bars;
      }
      FillAccounts(bars, time);
      if nextOpen {
        latest := latest + bars;
      }
    }

    // ---- orders -------------------------------------------------------------

    method PlaceOrder(o: Order, now: int)
      requires Valid()
      modifies this
      ensures State() == Engine.PlaceOrder(old(State()), o, now) && Valid()
    {
      EnsureAccount(o.account);
      var a := accounts[o.account];
      if o.clientOrderId.Some?
         && ClientIndex(a.orders, o.owner.strategy, o.clientOrderId.value) < |a.orders| {
        return;
      }
      var i := OrderIndex(a.orders, o.id);
      var orders := if i < |a.orders| then a.orders[i := o] else a.orders + [o];
      accounts := accounts[o.account := a.(orders := orders)];
      SettleOrder(o.account, i, now);
    }

    method SettleOrder(account: Name, i: nat, now: int)
      requires account in accounts && i < |accounts[account].orders|
      modifies this`accounts, this`notified
      ensures
        var settled := Settle(cfg, old(accounts[account]), latest, i, now);
        && accounts == old(accounts)[account := settled]
        && notified == old(notified) + settled.reports[|old(accounts[account]).reports|..]
    {
      var a := accounts[account];
      var o := a.orders[i];
      if o.kind == Market && cfg.timing == NextOpen {
        return;
      }
      if o.ticker !in latest {
        RejectOrder(account, i);
        return;
      }
      var reference := latest[o.ticker].close;
      var equity := AccountEquity(account);
      if Check(cfg, o, a.cash, equity, a.book, Some(reference)) != Pass {
        RejectOrder(account, i);
        return;
      }
      if o.kind == Market {
        TryFillMarket(account, i, reference, now);
      }
    }

    method CancelOrder(account: Option<Name>, id: Name) returns (known: bool)
      requires Valid()
      modifies this`accounts
      ensures known == Holder(old(State()), account, id, 0).Some?
      ensures State() == Engine.CancelOrder(old(State()), account, id) && Valid()
    {
      var owner := Holder(EngineState(cfg, ids, accounts, latest, notified), account, id, 0);
      if owner == None {
        return false;
      }
      var a := accounts[owner.value];
      var i := OrderIndex(a.orders, id);
      if a.orders[i].status == New {
        var o := a.orders[i].(status := Canceled);
        a := a.(orders := a.orders[i := o]);
      }
      accounts := accounts[owner.value := a];
      return true;
    }
  }

  /** Reports only grow, so what is new since the start is what was new, then more. */
  lemma SuffixGrows(first: seq<FillReport>, mid: seq<FillReport>, last: seq<FillReport>)
    requires |first| <= |mid| <= |last| && last[..|mid|] == mid
    ensures last[|first|..] == mid[|first|..] + last[|mid|..]
  {
    assert last == mid + last[|mid|..];
  }
}
