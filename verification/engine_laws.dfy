/** Properties of every run of the broker engine: any interleaving of placements,
    cancellations, bars and resets, over several accounts and tickers, with market
    and limit orders and with or without shorting. */
module EngineLaws {
  import opened BrokerModels
  import opened Reals
  import opened Positions
  import opened Pricing
  import opened RiskChecks
  import opened Engine
  import opened FillLaws
  import opened AverageCosts

  // ---- runs -----------------------------------------------------------------

  datatype Action =
    | Place(order: Order, now: int)
    | Cancel(account: Option<Name>, id: Name)
    | PlayBar(bars: Prices, time: int)
    | Reset(resetAccount: Name)

  function Apply(e: EngineState, act: Action): (r: EngineState)
    requires Consistent(e)
    ensures Consistent(r)
  {
    match act
    case Place(o, now) => PlaceOrder(e, o, now)
    case Cancel(account, id) => CancelOrder(e, account, id)
    case PlayBar(bars, time) => OnBar(e, bars, time)
    case Reset(account) => ResetAccount(e, account)
  }

  function Run(e: EngineState, acts: seq<Action>): (r: EngineState)
    requires Consistent(e)
    ensures Consistent(r)
    decreases |acts|
  {
    if |acts| == 0 then e else Run(Apply(e, acts[0]), acts[1..])
  }

  predicate PositivePrices(bars: Prices) {
    forall t | t in bars :: PositiveBar(bars[t])
  }

  /** Bars carry positive prices and orders arrive as the order model builds them. */
  predicate Wellformed(act: Action) {
    match act
    case Place(o, _) => o.status == New && o.qty > 0.0
    case PlayBar(bars, _) => PositivePrices(bars)
    case _ => true
  }

  ghost predicate WellformedRun(acts: seq<Action>) {
    forall i :: 0 <= i < |acts| ==> Wellformed(acts[i])
  }

  // ---- money ----------------------------------------------------------------

  ghost function Fees(rs: seq<FillReport>): real {
    if |rs| == 0 then 0.0 else Fees(rs[..|rs| - 1]) + rs[|rs| - 1].fill.fee
  }

  ghost function SignedShares(rs: seq<FillReport>, ticker: Name): real {
    if |rs| == 0 then 0.0
    else
      SignedShares(rs[..|rs| - 1], ticker)
        + if rs[|rs| - 1].ticker == ticker then SignedQty(rs[|rs| - 1]) else 0.0
  }

  /** Every callback was told the shares held right after its fill. */
  ghost predicate ReportsTrack(cfg: Config, rs: seq<FillReport>) {
    forall k :: 0 <= k < |rs| ==>
      && rs[k].sharesAfter == SignedShares(rs[..k + 1], rs[k].ticker)
      && (!cfg.allowShort ==> rs[k].sharesAfter >= 0.0)
  }

  /** Everything a run keeps about one account, its average costs included. */
  ghost predicate Conserves(cfg: Config, a: Account) {
    Balances(cfg, a) && Costed(a.book, a.reports)
  }

  ghost predicate Balances(cfg: Config, a: Account) {
    && WellFormed(a.book)
    && ReportsTrack(cfg, a.reports)
    && a.cash == cfg.initialCash - SignedValues(a.reports) - Fees(a.reports)
    && (forall t :: Shares(a.book, t) == SignedShares(a.reports, t))
    && a.cash >= 0.0
    && (!cfg.allowShort ==> forall t :: Shares(a.book, t) >= 0.0)
  }

  lemma SumsGrow(rs: seq<FillReport>, r: FillReport)
    ensures Fees(rs + [r]) == Fees(rs) + r.fill.fee
    ensures forall t :: SignedShares(rs + [r], t) == SignedShares(rs, t) + if r.ticker == t then SignedQty(r) else 0.0
  {
    assert (rs + [r])[..|rs|] == rs;
  }

  lemma TrackGrows(cfg: Config, rs: seq<FillReport>, r: FillReport)
    requires ReportsTrack(cfg, rs) && r.sharesAfter == SignedShares(rs + [r], r.ticker)
    requires !cfg.allowShort ==> r.sharesAfter >= 0.0
    ensures ReportsTrack(cfg, rs + [r])
  {
    forall k | 0 <= k < |rs| + 1
      ensures (rs + [r])[k].sharesAfter == SignedShares((rs + [r])[..k + 1], (rs + [r])[k].ticker)
    {
      if k < |rs| {
        assert (rs + [r])[..k + 1] == rs[..k + 1];
      } else {
        assert (rs + [r])[..k + 1] == rs + [r];
      }
    }
  }

  lemma CashStaysPositive(side: Side, price: real, qty: real, rate: real, cash: real)
    requires price > 0.0 && qty > 0.0 && cash >= 0.0 && 0.0 <= rate < 1.0
    requires side == Buy ==> Times(price, qty) + Times(Times(price, qty), rate) <= cash
    ensures cash - Times(price, Signed(side, qty)) - Fee(Times(price, Signed(side, qty)), rate) >= 0.0
  {
    MulPos(price, qty);
    SameFee(side, price, qty, rate);
    FeeBounds(Times(price, qty), rate);
    assert price * -qty == -(price * qty);
  }

  lemma FillBalances(cfg: Config, a: Account, latest: Prices, i: nat, price: real, reference: real,
      time: int)
    requires SaneRates(cfg) && Balances(cfg, a) && i < |a.orders|
    requires price > 0.0 && a.orders[i].qty > 0.0
    requires a.orders[i].side == Buy ==>
      Times(price, a.orders[i].qty) + Times(Times(price, a.orders[i].qty), cfg.commission) <= a.cash
    requires a.orders[i].side == Sell && !cfg.allowShort ==> a.orders[i].qty <= Shares(a.book, a.orders[i].ticker)
    ensures Balances(cfg, ExecuteFill(cfg, a, latest, i, price, reference, time))
  {
    var o := a.orders[i];
    var after := ExecuteFill(cfg, a, latest, i, price, reference, time);
    var signed := Signed(o.side, o.qty);
    NextBookEffect(a.book, o.ticker, signed, price);
    SumsGrow(a.reports, after.reports[|a.reports|]);
    SumsOfOneMore(a.reports, after.reports[|a.reports|]);
    CashStaysPositive(o.side, price, o.qty, cfg.commission, a.cash);
    forall t ensures Shares(after.book, t) == SignedShares(after.reports, t) {
      assert Shares(a.book, t) == SignedShares(a.reports, t);
    }
    TrackGrows(cfg, a.reports, after.reports[|a.reports|]);
  }

  /** A fill that passed the check keeps every conservation law. */
  lemma FillConserves(cfg: Config, a: Account, latest: Prices, i: nat, price: real, reference: real,
      time: int)
    requires SaneRates(cfg) && Conserves(cfg, a) && i < |a.orders|
    requires price > 0.0 && a.orders[i].qty > 0.0
    requires a.orders[i].side == Buy ==>
      Times(price, a.orders[i].qty) + Times(Times(price, a.orders[i].qty), cfg.commission) <= a.cash
    requires a.orders[i].side == Sell && !cfg.allowShort ==> a.orders[i].qty <= Shares(a.book, a.orders[i].ticker)
    ensures Conserves(cfg, ExecuteFill(cfg, a, latest, i, price, reference, time))
  {
    var after := ExecuteFill(cfg, a, latest, i, price, reference, time);
    FillBalances(cfg, a, latest, i, price, reference, time);
    FillCosts(a.book, a.reports, after.reports[|a.reports|]);
  }

  /** A passed check is enough for its fill: the estimate is the price it fills at. */
  lemma CheckedFillConserves(cfg: Config, a: Account, latest: Prices, i: nat, equity: real,
      reference: real, time: int)
    requires SaneRates(cfg) && Conserves(cfg, a) && i < |a.orders| && reference > 0.0
    requires Check(cfg, a.orders[i], a.cash, equity, a.book, Some(reference)) == Pass
    ensures
      var price := EstimatedPrice(cfg, a.orders[i], reference);
      Conserves(cfg, ExecuteFill(cfg, a, latest, i, price, reference, time))
  {
    PassMeans(cfg, a.orders[i], a.cash, equity, a.book, reference);
    PricesPositive(reference, cfg.slippage);
    FillConserves(cfg, a, latest, i, EstimatedPrice(cfg, a.orders[i], reference), reference, time);
  }

  lemma RejectConserves(cfg: Config, a: Account, i: nat)
    requires Conserves(cfg, a) && i < |a.orders|
    ensures Conserves(cfg, Reject(a, i))
  {
    OrdersDoNotMatter(cfg, a, Reject(a, i).orders);
  }

  lemma AtOpenConserves(cfg: Config, a: Account, latest: Prices, bars: Prices, i: nat, time: int)
    requires SaneRates(cfg) && Conserves(cfg, a) && i < |a.orders| && PositivePrices(bars)
    requires a.orders[i].ticker in bars && a.orders[i].kind == Market
    ensures Conserves(cfg, TryFillAtOpen(cfg, a, latest, bars, i, time))
  {
    var open := bars[a.orders[i].ticker].open;
    if Check(cfg, a.orders[i], a.cash, EquityAtOpen(a, latest, bars), a.book, Some(open)) == Pass {
      CheckedFillConserves(cfg, a, latest, i, EquityAtOpen(a, latest, bars), open, time);
    } else {
      RejectConserves(cfg, a, i);
    }
  }

  lemma LimitConserves(cfg: Config, a: Account, latest: Prices, i: nat, bar: Bar, time: int)
    requires SaneRates(cfg) && Conserves(cfg, a) && i < |a.orders| && a.orders[i].kind == Limit
    ensures Conserves(cfg, TryFillLimit(cfg, a, latest, i, bar, time))
  {
    var limit := a.orders[i].limitPrice;
    if limit.Some? && Triggered(a.orders[i], bar) {
      if Check(cfg, a.orders[i], a.cash, Equity(a, latest), a.book, limit) == Pass {
        PassMeans(cfg, a.orders[i], a.cash, Equity(a, latest), a.book, limit.value);
        CheckedFillConserves(cfg, a, latest, i, Equity(a, latest), limit.value, time);
      } else {
        RejectConserves(cfg, a, i);
      }
    }
  }

  lemma StepConserves(cfg: Config, a: Account, latest: Prices, bars: Prices, i: nat, time: int)
    requires SaneRates(cfg) && Conserves(cfg, a) && i < |a.orders| && PositivePrices(bars)
    ensures Conserves(cfg, StepOrder(cfg, a, latest, bars, i, time))
  {
    var o := a.orders[i];
    if o.status == New && o.ticker in bars {
      if o.kind == Market && cfg.timing == NextOpen {
        AtOpenConserves(cfg, a, latest, bars, i, time);
      } else if o.kind == Limit {
        LimitConserves(cfg, a, latest, i, bars[o.ticker], time);
      }
    }
  }

  lemma {:induction false} StepsConserve(cfg: Config, a: Account, latest: Prices, bars: Prices,
      i: nat, time: int)
    requires SaneRates(cfg) && Conserves(cfg, a) && i <= |a.orders| && PositivePrices(bars)
    ensures Conserves(cfg, StepOrders(cfg, a, latest, bars, i, time))
    decreases |a.orders| - i
  {
    if i < |a.orders| {
      StepConserves(cfg, a, latest, bars, i, time);
      StepsConserve(cfg, StepOrder(cfg, a, latest, bars, i, time), latest, bars, i + 1, time);
    }
  }

  lemma SettleConserves(cfg: Config, a: Account, latest: Prices, i: nat, now: int)
    requires SaneRates(cfg) && Conserves(cfg, a) && i < |a.orders| && PositivePrices(latest)
    ensures Conserves(cfg, Settle(cfg, a, latest, i, now))
  {
    var o := a.orders[i];
    OrdersDoNotMatter(cfg, a, Reject(a, i).orders);
    if o.ticker in latest && o.kind == Market && cfg.timing == CloseBar {
      var close := latest[o.ticker].close;
      if Check(cfg, o, a.cash, Equity(a, latest), a.book, Some(close)) == Pass {
        CheckedFillConserves(cfg, a, latest, i, Equity(a, latest), close, now);
      }
    }
  }

  ghost predicate AllConserve(e: EngineState) {
    && Consistent(e)
    && PositivePrices(e.latest)
    && forall id :: id in e.accounts ==> Conserves(e.cfg, e.accounts[id])
  }

  lemma {:induction false} AccountsConserve(e: EngineState, bars: Prices, k: nat, time: int)
    requires SaneRates(e.cfg) && AllConserve(e) && PositivePrices(bars) && k <= |e.ids|
    ensures AllConserve(StepAccounts(e, bars, k, time))
    ensures StepAccounts(e, bars, k, time).cfg == e.cfg
    ensures StepAccounts(e, bars, k, time).latest == e.latest
    decreases |e.ids| - k
  {
    if k < |e.ids| {
      var id := e.ids[k];
      assert id in e.ids;
      StepsConserve(e.cfg, e.accounts[id], e.latest, bars, 0, time);
      AccountsConserve(StepAccount(e, bars, k, time), bars, k + 1, time);
    }
  }

  lemma FreshConserves(cfg: Config)
    requires cfg.initialCash >= 0.0
    ensures Conserves(cfg, FreshAccount(cfg))
  {
  }

  lemma SetConserves(e: EngineState, account: Name, a: Account)
    requires AllConserve(e) && account in e.accounts && Conserves(e.cfg, a)
    ensures AllConserve(e.(accounts := e.accounts[account := a]))
  {
  }

  lemma EnsureConserves(e: EngineState, account: Name)
    requires e.cfg.initialCash >= 0.0 && AllConserve(e)
    ensures AllConserve(Ensure(e, account))
  {
    FreshConserves(e.cfg);
  }

  /** The laws do not mention the orders. */
  lemma OrdersDoNotMatter(cfg: Config, a: Account, orders: seq<Order>)
    requires Conserves(cfg, a)
    ensures Conserves(cfg, a.(orders := orders))
  {
  }

  lemma PlaceConserves(e: EngineState, o: Order, now: int)
    requires SaneRates(e.cfg) && e.cfg.initialCash >= 0.0 && AllConserve(e)
    ensures AllConserve(PlaceOrder(e, o, now))
  {
    EnsureConserves(e, o.account);
    var e1 := Ensure(e, o.account);
    var a := e1.accounts[o.account];
    var orders := PutOrder(a.orders, o);
    OrdersDoNotMatter(e.cfg, a, orders);
    SettleConserves(e.cfg, a.(orders := orders), e.latest, OrderIndex(a.orders, o.id), now);
    SetConserves(e1, o.account, PlaceInAccount(e.cfg, a, e.latest, o, now));
  }

  lemma CancelConserves(e: EngineState, account: Option<Name>, id: Name)
    requires AllConserve(e)
    ensures AllConserve(CancelOrder(e, account, id))
  {
    var owner := Holder(e, account, id, 0);
    if owner.Some? {
      var a := e.accounts[owner.value];
      OrdersDoNotMatter(e.cfg, a, CancelInAccount(a, id).orders);
      SetConserves(e, owner.value, CancelInAccount(a, id));
    }
  }

  lemma BarConserves(e: EngineState, bars: Prices, time: int)
    requires SaneRates(e.cfg) && AllConserve(e) && PositivePrices(bars)
    ensures AllConserve(OnBar(e, bars, time)) && OnBar(e, bars, time).cfg == e.cfg
  {
    var marked := e.(latest := e.latest + (if e.cfg.timing == NextOpen then OpenOnly(bars) else bars));
    assert AllConserve(marked);
    AccountsConserve(marked, bars, 0, time);
  }

  lemma ResetConserves(e: EngineState, account: Name)
    requires e.cfg.initialCash >= 0.0 && AllConserve(e)
    ensures AllConserve(ResetAccount(e, account))
  {
    EnsureConserves(e, account);
    FreshConserves(e.cfg);
    SetConserves(Ensure(e, account), account, FreshAccount(e.cfg));
  }

  lemma ApplyConserves(e: EngineState, act: Action)
    requires SaneRates(e.cfg) && e.cfg.initialCash >= 0.0
    requires AllConserve(e) && Wellformed(act)
    ensures AllConserve(Apply(e, act)) && Apply(e, act).cfg == e.cfg
  {
    match act
    case Place(o, now) => PlaceConserves(e, o, now);
    case Cancel(account, id) => CancelConserves(e, account, id);
    case PlayBar(bars, time) => BarConserves(e, bars, time);
    case Reset(account) => ResetConserves(e, account);
  }

  /** Every run conserves money and shares in every account: cash is the initial cash
      less the signed fill values and the fees, each share count is the signed sum of
      its fills, no flat position is kept, cash is never negative, and without shorting
      no share count is. */
  lemma {:induction false} EveryRunConserves(e: EngineState, acts: seq<Action>)
    requires SaneRates(e.cfg) && e.cfg.initialCash >= 0.0
    requires AllConserve(e) && WellformedRun(acts)
    ensures AllConserve(Run(e, acts)) && Run(e, acts).cfg == e.cfg
    decreases |acts|
  {
    if |acts| > 0 {
      ApplyConserves(e, acts[0]);
      EveryRunConserves(Apply(e, acts[0]), acts[1..]);
    }
  }

  lemma RunsFromStartConserve(cfg: Config, acts: seq<Action>, account: Name)
    requires SaneRates(cfg) && cfg.initialCash >= 0.0 && WellformedRun(acts)
    requires account in Run(InitialState(cfg), acts).accounts
    ensures
      var a := Run(InitialState(cfg), acts).accounts[account];
      && a.cash == cfg.initialCash - SignedValues(a.reports) - Fees(a.reports)
      && a.cash == cfg.initialCash - Fees(a.reports) - Total(a.book, Cost) + GrossPnls(a.reports)
      && a.cash >= 0.0
      && (forall t :: Shares(a.book, t) == SignedShares(a.reports, t))
      && ReportsTrack(cfg, a.reports)
      && NoFlatEntry(a.book)
      && (!cfg.allowShort ==> forall t :: Shares(a.book, t) >= 0.0)
  {
    EveryRunConserves(InitialState(cfg), acts);
  }
}
