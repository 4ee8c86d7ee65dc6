/** The mock broker engine (broker/engine.py): what each operation does to the state,
    as functions on values.  `BrokerEngine.MockBrokerEngine` changes its fields in
    place and is proved against these functions. */
module Engine {
  import opened BrokerModels
  import opened Positions
  import opened Pricing
  import opened RiskChecks

  type Prices = map<Name, Bar>

  /** `_AccountState`; `reports` are its fills together with what the callbacks saw. */
  datatype Account = Account(cash: real, book: Book, orders: seq<Order>, reports: seq<FillReport>)

  /** `ids` is the insertion order of the accounts dictionary, `notified` every call
      made to the on-fill callbacks so far. */
  datatype EngineState = EngineState(
    cfg: Config,
    ids: seq<Name>,
    accounts: map<Name, Account>,
    latest: Prices,
    notified: seq<FillReport>)

  ghost predicate Consistent(e: EngineState) {
    && (forall id :: id in e.ids <==> id in e.accounts)
    && (forall i, j :: 0 <= i < j < |e.ids| ==> e.ids[i] != e.ids[j])
  }

  function FreshAccount(cfg: Config): Account {
    Account(cfg.initialCash, [], [], [])
  }

  function InitialState(cfg: Config): EngineState {
    EngineState(cfg, [], map[], map[], [])
  }

  // ---- marks and equity -----------------------------------------------------

  function MarkPrice(latest: Prices, ticker: Name, fallback: real): real {
    if ticker in latest then latest[ticker].close else fallback
  }

  function MarkedValue(latest: Prices, p: Position): real {
    Times(p.shares, MarkPrice(latest, p.ticker, p.avgCost))
  }

  function OpenValue(latest: Prices, bars: Prices, p: Position): real {
    if p.ticker in bars then Times(p.shares, bars[p.ticker].open) else MarkedValue(latest, p)
  }

  function MarketValue(book: Book, latest: Prices): real {
    if |book| == 0 then 0.0 else MarkedValue(latest, book[0]) + MarketValue(book[1..], latest)
  }

  function ValueAtOpen(book: Book, latest: Prices, bars: Prices): real {
    if |book| == 0 then 0.0 else OpenValue(latest, bars, book[0]) + ValueAtOpen(book[1..], latest, bars)
  }

  /** `get_account(...).equity` */
  function Equity(a: Account, latest: Prices): real {
    a.cash + MarketValue(a.book, latest)
  }

  /** `_account_at_open(...).equity` */
  function EquityAtOpen(a: Account, latest: Prices, bars: Prices): real {
    a.cash + ValueAtOpen(a.book, latest, bars)
  }

  function Reference(latest: Prices, ticker: Name): Option<real> {
    if ticker in latest then Some(latest[ticker].close) else None
  }

  // ---- one fill -------------------------------------------------------------

  /** `_calculate_next_position`: None when the fill closes the position. */
  function NextPosition(existing: Option<Position>, ticker: Name, signed: real, price: real): Option<Position> {
    if existing == None || existing.value.shares == 0.0 then Some(Position(ticker, signed, price))
    else
      var before := existing.value.shares;
      var after := before + signed;
      if after == 0.0 then None
      else if signed != 0.0 && (before > 0.0 <==> signed > 0.0) then
        Some(Position(ticker, after, AverageCost(existing.value.avgCost, before, price, signed)))
      else if (before > 0.0 <==> after > 0.0) then Some(Position(ticker, after, existing.value.avgCost))
      else Some(Position(ticker, after, price))
  }

  function NextBook(book: Book, ticker: Name, signed: real, price: real): Book {
    match NextPosition(Find(book, ticker), ticker, signed, price)
    case None => Drop(book, ticker)
    case Some(p) => Put(book, p)
  }

  function MakeFill(cfg: Config, o: Order, price: real, reference: real, time: int): Fill {
    var signed := Signed(o.side, o.qty);
    var value := Times(price, signed);
    Fill(o.id, price, o.qty, Fee(value, cfg.commission), Abs(Times(reference, signed) - value),
         time, o.owner, o.account, o.decision)
  }

  /** `_execute_fill` for the order at index `i`. */
  function ExecuteFill(cfg: Config, a: Account, latest: Prices, i: nat, price: real,
      reference: real, time: int): Account
    requires i < |a.orders|
  {
    var o := a.orders[i];
    var fill := MakeFill(cfg, o, price, reference, time);
    var book := NextBook(a.book, o.ticker, Signed(o.side, o.qty), price);
    var cash := a.cash - Times(price, Signed(o.side, o.qty)) - fill.fee;
    var report := FillReport(fill, o.ticker, o.side, Shares(book, o.ticker), AvgCost(book, o.ticker),
                             cash, cash + MarketValue(book, latest));
    Account(cash, book, a.orders[i := o.(status := Filled)], a.reports + [report])
  }

  function Reject(a: Account, i: nat): Account
    requires i < |a.orders|
  {
    a.(orders := a.orders[i := a.orders[i].(status := Rejected)])
  }

  // ---- a bar ----------------------------------------------------------------

  predicate Triggered(o: Order, bar: Bar)
    requires o.limitPrice.Some?
  {
    if o.side == Buy then bar.low <= o.limitPrice.value else bar.high >= o.limitPrice.value
  }

  /** `_try_fill_limit` */
  function TryFillLimit(cfg: Config, a: Account, latest: Prices, i: nat, bar: Bar, time: int): Account
    requires i < |a.orders|
  {
    var o := a.orders[i];
    match o.limitPrice
    case None => a
    case Some(limit) =>
      if !Triggered(o, bar) then a
      else if Check(cfg, o, a.cash, Equity(a, latest), a.book, Some(limit)) != Pass then Reject(a, i)
      else ExecuteFill(cfg, a, latest, i, limit, limit, time)
  }

  /** A queued market order at the open of its bar. */
  function TryFillAtOpen(cfg: Config, a: Account, latest: Prices, bars: Prices, i: nat, time: int): Account
    requires i < |a.orders| && a.orders[i].ticker in bars
  {
    var o := a.orders[i];
    var open := bars[o.ticker].open;
    if Check(cfg, o, a.cash, EquityAtOpen(a, latest, bars), a.book, Some(open)) != Pass then Reject(a, i)
    else ExecuteFill(cfg, a, latest, i, MarketPrice(o.side, open, cfg.slippage), open, time)
  }

  /** The body of the order loop of `on_bar`. */
  function StepOrder(cfg: Config, a: Account, latest: Prices, bars: Prices, i: nat, time: int): (r: Account)
    requires i < |a.orders|
    ensures |r.orders| == |a.orders|
    ensures |a.reports| <= |r.reports| && r.reports[..|a.reports|] == a.reports
  {
    var o := a.orders[i];
    if o.status != New || o.ticker !in bars then a
    else if o.kind == Market && cfg.timing == NextOpen then TryFillAtOpen(cfg, a, latest, bars, i, time)
    else if o.kind == Limit then TryFillLimit(cfg, a, latest, i, bars[o.ticker], time)
    else a
  }

  function StepOrders(cfg: Config, a: Account, latest: Prices, bars: Prices, i: nat, time: int): (r: Account)
    requires i <= |a.orders|
    ensures |r.orders| == |a.orders|
    ensures |a.reports| <= |r.reports| && r.reports[..|a.reports|] == a.reports
    decreases |a.orders| - i
  {
    if i == |a.orders| then a
    else StepOrders(cfg, StepOrder(cfg, a, latest, bars, i, time), latest, bars, i + 1, time)
  }

  function StepAccount(e: EngineState, bars: Prices, k: nat, time: int): (r: EngineState)
    requires Consistent(e) && k < |e.ids|
    ensures Consistent(r) && r.ids == e.ids
  {
    var id := e.ids[k];
    var before := e.accounts[id];
    var after := StepOrders(e.cfg, before, e.latest, bars, 0, time);
    e.(accounts := e.accounts[id := after],
       notified := e.notified + after.reports[|before.reports|..])
  }

  function StepAccounts(e: EngineState, bars: Prices, k: nat, time: int): (r: EngineState)
    requires Consistent(e) && k <= |e.ids|
    ensures Consistent(r) && r.ids == e.ids
    decreases |e.ids| - k
  {
    if k == |e.ids| then e else StepAccounts(StepAccount(e, bars, k, time), bars, k + 1, time)
  }

  function OpenOnly(bars: Prices): Prices {
    map t | t in bars :: Bar(bars[t].open, bars[t].open, bars[t].open, bars[t].open)
  }

  /** `on_bar`: with next-open timing the marks are the opens while orders fill, and
      the whole bars afterwards. */
  function OnBar(e: EngineState, bars: Prices, time: int): (r: EngineState)
    requires Consistent(e)
    ensures Consistent(r) && r.ids == e.ids
  {
    var before := e.(latest := e.latest + (if e.cfg.timing == NextOpen then OpenOnly(bars) else bars));
    var filled := StepAccounts(before, bars, 0, time);
    if e.cfg.timing == NextOpen then filled.(latest := filled.latest + bars) else filled
  }

  // ---- orders ---------------------------------------------------------------

  /** Index of the order with this id, or |orders|. */
  function OrderIndex(orders: seq<Order>, id: Name): (i: nat)
    ensures i <= |orders|
    ensures i < |orders| ==> orders[i].id == id
    ensures forall j :: 0 <= j < i ==> orders[j].id != id
  {
    if |orders| == 0 then 0
    else if orders[0].id == id then 0
    else 1 + OrderIndex(orders[1..], id)
  }

  /** `orders[o.id] = o` */
  function PutOrder(orders: seq<Order>, o: Order): (r: seq<Order>)
    ensures OrderIndex(orders, o.id) < |r| && r[OrderIndex(orders, o.id)] == o
  {
    var i := OrderIndex(orders, o.id);
    if i < |orders| then orders[i := o] else orders + [o]
  }

  predicate SameClient(o: Order, strategy: Name, client: Name) {
    o.clientOrderId == Some(client) && o.owner.strategy == strategy
  }

  /** `_find_order_by_client_order_id`: index of the first match, or |orders|. */
  function ClientIndex(orders: seq<Order>, strategy: Name, client: Name): (i: nat)
    ensures i <= |orders|
    ensures i < |orders| ==> SameClient(orders[i], strategy, client)
    ensures forall j :: 0 <= j < i ==> !SameClient(orders[j], strategy, client)
  {
    if |orders| == 0 then 0
    else if SameClient(orders[0], strategy, client) then 0
    else 1 + ClientIndex(orders[1..], strategy, client)
  }

  /** `_get_account_state`: an unknown account starts with the configured cash. */
  function Ensure(e: EngineState, account: Name): (r: EngineState)
    requires Consistent(e)
    ensures Consistent(r) && account in r.accounts
  {
    if account in e.accounts then e
    else
      var r := e.(ids := e.ids + [account], accounts := e.accounts[account := FreshAccount(e.cfg)]);
      assert forall id :: id in r.ids <==> id in e.ids || id == account;
      r
  }

  function SetAccount(e: EngineState, account: Name, a: Account): (r: EngineState)
    requires Consistent(e) && account in e.accounts
    ensures Consistent(r)
  {
    var before := e.accounts[account];
    var added := if |before.reports| <= |a.reports| then a.reports[|before.reports|..] else [];
    e.(accounts := e.accounts[account := a], notified := e.notified + added)
  }

  /** What happens to an order right after it is stored at index `i`. */
  function Settle(cfg: Config, a: Account, latest: Prices, i: nat, now: int): (r: Account)
    requires i < |a.orders|
    ensures |a.reports| <= |r.reports| && r.reports[..|a.reports|] == a.reports
  {
    var o := a.orders[i];
    if o.kind == Market && cfg.timing == NextOpen then a
    else
      match Reference(latest, o.ticker)
      case None => Reject(a, i)
      case Some(price) =>
        if Check(cfg, o, a.cash, Equity(a, latest), a.book, Some(price)) != Pass then Reject(a, i)
        else if o.kind == Market then
          ExecuteFill(cfg, a, latest, i, MarketPrice(o.side, price, cfg.slippage), price, now)
        else a
  }

  /** What placing an order that is not a client-id duplicate does to its account. */
  function PlaceInAccount(cfg: Config, a: Account, latest: Prices, o: Order, now: int): (r: Account)
    ensures |a.reports| <= |r.reports| && r.reports[..|a.reports|] == a.reports
  {
    Settle(cfg, a.(orders := PutOrder(a.orders, o)), latest, OrderIndex(a.orders, o.id), now)
  }

  predicate Duplicate(a: Account, o: Order) {
    o.clientOrderId.Some? && ClientIndex(a.orders, o.owner.strategy, o.clientOrderId.value) < |a.orders|
  }

  function PlaceOrder(e: EngineState, o: Order, now: int): (r: EngineState)
    requires Consistent(e)
    ensures Consistent(r)
  {
    var e1 := Ensure(e, o.account);
    var a := e1.accounts[o.account];
    if Duplicate(a, o) then e1
    else SetAccount(e1, o.account, PlaceInAccount(e1.cfg, a, e1.latest, o, now))
  }

  function CancelInAccount(a: Account, id: Name): Account {
    var i := OrderIndex(a.orders, id);
    if i < |a.orders| && a.orders[i].status == New
    then a.(orders := a.orders[i := a.orders[i].(status := Canceled)])
    else a
  }

  predicate Holds(e: EngineState, account: Name, id: Name) {
    account in e.accounts && OrderIndex(e.accounts[account].orders, id) < |e.accounts[account].orders|
  }

  /** `_find_order_state`: the given account, or the first one that knows the id. */
  function Holder(e: EngineState, account: Option<Name>, id: Name, k: nat): (r: Option<Name>)
    requires k <= |e.ids|
    ensures r.Some? ==> Holds(e, r.value, id)
    decreases |e.ids| - k
  {
    if account.Some? then (if Holds(e, account.value, id) then account else None)
    else if k == |e.ids| then None
    else if Holds(e, e.ids[k], id) then Some(e.ids[k])
    else Holder(e, account, id, k + 1)
  }

  /** `cancel_order`; an unknown order raises and changes nothing. */
  function CancelOrder(e: EngineState, account: Option<Name>, id: Name): (r: EngineState)
    requires Consistent(e)
    ensures Consistent(r)
  {
    match Holder(e, account, id, 0)
    case None => e
    case Some(owner) => e.(accounts := e.accounts[owner := CancelInAccount(e.accounts[owner], id)])
  }

  function ResetAccount(e: EngineState, account: Name): (r: EngineState)
    requires Consistent(e)
    ensures Consistent(r) && account in r.accounts
  {
    var e1 := Ensure(e, account);
    e1.(accounts := e1.accounts[account := FreshAccount(e.cfg)])
  }
}
