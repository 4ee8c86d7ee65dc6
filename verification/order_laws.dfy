/** Order life cycle over every run of the broker engine. */
module OrderLaws {
  import opened BrokerModels
  import opened Engine
  import Pricing
  import RiskChecks
  import opened EngineLaws

  predicate Terminal(s: Status) {
    s == Filled || s == Rejected || s == Canceled
  }

  /** The reports of one order, in the order they were made. */
  function FillsOf(rs: seq<FillReport>, id: Name): seq<FillReport> {
    if |rs| == 0 then []
    else
      var rest := FillsOf(rs[..|rs| - 1], id);
      if rs[|rs| - 1].fill.orderId == id then rest + [rs[|rs| - 1]] else rest
  }

  predicate Reports(r: FillReport, o: Order) {
    && r.fill.orderId == o.id
    && r.fill.qty == o.qty
    && r.side == o.side
    && r.ticker == o.ticker
    && r.fill.owner == o.owner
    && r.fill.account == o.account
    && r.fill.decision == o.decision
  }

  /** FILLED exactly when the order has one fill, and that one is for all of it. */
  ghost predicate Accounted(o: Order, rs: seq<FillReport>) {
    && (o.status == Filled ==> |FillsOf(rs, o.id)| == 1 && Reports(FillsOf(rs, o.id)[0], o))
    && (o.status != Filled ==> FillsOf(rs, o.id) == [])
  }

  ghost predicate IdsDistinct(orders: seq<Order>) {
    forall i, j :: 0 <= i < j < |orders| ==> orders[i].id != orders[j].id
  }

  /** No client id is used twice by one strategy. */
  ghost predicate ClientsDistinct(orders: seq<Order>) {
    forall i, j :: 0 <= i < j < |orders| && orders[j].clientOrderId.Some? ==>
      !SameClient(orders[i], orders[j].owner.strategy, orders[j].clientOrderId.value)
  }

  ghost predicate Tidy(a: Account) {
    && IdsDistinct(a.orders)
    && ClientsDistinct(a.orders)
    && (forall i :: 0 <= i < |a.orders| ==> Accounted(a.orders[i], a.reports))
    && (forall k :: 0 <= k < |a.reports| ==> OrderIndex(a.orders, a.reports[k].fill.orderId) < |a.orders|)
  }

  /** An order only ever leaves NEW, once, and keeps everything but its status. */
  predicate Evolves(o: Order, later: Order) {
    later == o || (o.status == New && Terminal(later.status) && later == o.(status := later.status))
  }

  ghost predicate OrdersEvolve(a: Account, b: Account) {
    && |a.orders| <= |b.orders|
    && forall i :: 0 <= i < |a.orders| ==> Evolves(a.orders[i], b.orders[i])
  }

  lemma FillsOfAppend(rs: seq<FillReport>, r: FillReport, id: Name)
    ensures FillsOf(rs + [r], id) == if r.fill.orderId == id then FillsOf(rs, id) + [r] else FillsOf(rs, id)
  {
    assert (rs + [r])[..|rs|] == rs;
  }

  lemma {:induction false} NoFillsOfUnknown(rs: seq<FillReport>, id: Name)
    requires forall k :: 0 <= k < |rs| ==> rs[k].fill.orderId != id
    ensures FillsOf(rs, id) == []
  {
    if |rs| > 0 {
      NoFillsOfUnknown(rs[..|rs| - 1], id);
    }
  }

  lemma IndexOfDistinct(orders: seq<Order>, i: nat)
    requires IdsDistinct(orders) && i < |orders|
    ensures OrderIndex(orders, orders[i].id) == i
  {
  }

  lemma {:induction false} IndexOfSameIds(orders: seq<Order>, later: seq<Order>, id: Name)
    requires |orders| <= |later|
    requires forall i :: 0 <= i < |orders| ==> orders[i].id == later[i].id
    requires OrderIndex(orders, id) < |orders|
    ensures OrderIndex(later, id) == OrderIndex(orders, id)
  {
    var i := OrderIndex(orders, id);
    assert later[i].id == orders[i].id == id;
    assert forall j :: 0 <= j < i ==> later[j].id == orders[j].id != id;
  }

  /** A new order is closed without a fill: rejected or canceled. */
  lemma StatusTidy(a: Account, i: nat, s: Status)
    requires Tidy(a) && i < |a.orders| && a.orders[i].status == New && (s == Rejected || s == Canceled)
    ensures var b := a.(orders := a.orders[i := a.orders[i].(status := s)]); Tidy(b) && OrdersEvolve(a, b)
  {
    var b := a.(orders := a.orders[i := a.orders[i].(status := s)]);
    forall k | 0 <= k < |b.reports| ensures OrderIndex(b.orders, b.reports[k].fill.orderId) < |b.orders| {
      IndexOfSameIds(a.orders, b.orders, a.reports[k].fill.orderId);
    }
  }

  /** A new order is filled, and reported once. */
  lemma ReportTidy(a: Account, b: Account, i: nat, r: FillReport)
    requires Tidy(a) && i < |a.orders| && a.orders[i].status == New
    requires b.orders == a.orders[i := a.orders[i].(status := Filled)]
    requires b.reports == a.reports + [r] && Reports(r, a.orders[i])
    ensures Tidy(b) && OrdersEvolve(a, b)
  {
    forall j | 0 <= j < |b.orders| ensures Accounted(b.orders[j], b.reports) {
      FillsOfAppend(a.reports, r, b.orders[j].id);
      assert Accounted(a.orders[j], a.reports);
    }
    forall k | 0 <= k < |b.reports| ensures OrderIndex(b.orders, b.reports[k].fill.orderId) < |b.orders| {
      IndexOfDistinct(a.orders, i);
      IndexOfSameIds(a.orders, b.orders, b.reports[k].fill.orderId);
    }
  }

  lemma FillTidy(cfg: Config, a: Account, latest: Prices, i: nat, price: real, reference: real, time: int)
    requires Tidy(a) && i < |a.orders| && a.orders[i].status == New
    ensures var b := ExecuteFill(cfg, a, latest, i, price, reference, time); Tidy(b) && OrdersEvolve(a, b)
  {
    var b := ExecuteFill(cfg, a, latest, i, price, reference, time);
    var r := b.reports[|a.reports|];
    assert b.reports == a.reports + [r];
    ReportTidy(a, b, i, r);
  }

  lemma AtOpenTidy(cfg: Config, a: Account, latest: Prices, bars: Prices, i: nat, time: int)
    requires Tidy(a) && i < |a.orders| && a.orders[i].status == New && a.orders[i].ticker in bars
    ensures var b := TryFillAtOpen(cfg, a, latest, bars, i, time); Tidy(b) && OrdersEvolve(a, b)
  {
    var o := a.orders[i];
    var open := bars[o.ticker].open;
    StatusTidy(a, i, Rejected);
    FillTidy(cfg, a, latest, i, Pricing.MarketPrice(o.side, open, cfg.slippage), open, time);
  }

  lemma LimitTidy(cfg: Config, a: Account, latest: Prices, i: nat, bar: Bar, time: int)
    requires Tidy(a) && i < |a.orders| && a.orders[i].status == New
    ensures var b := TryFillLimit(cfg, a, latest, i, bar, time); Tidy(b) && OrdersEvolve(a, b)
  {
    var o := a.orders[i];
    LimitDoes(cfg, a, latest, i, bar, time);
    if TryFillLimit(cfg, a, latest, i, bar, time) == a {
      StaysTidy(a);
    } else {
      StatusTidy(a, i, Rejected);
      FillTidy(cfg, a, latest, i, o.limitPrice.value, o.limitPrice.value, time);
    }
  }

  lemma LimitDoes(cfg: Config, a: Account, latest: Prices, i: nat, bar: Bar, time: int)
    requires i < |a.orders|
    ensures
      var b, limit := TryFillLimit(cfg, a, latest, i, bar, time), a.orders[i].limitPrice;
      || b == a
      || (limit.Some? && (b == Reject(a, i) || b == ExecuteFill(cfg, a, latest, i, limit.value, limit.value, time)))
  {
  }

  lemma StaysTidy(a: Account)
    ensures OrdersEvolve(a, a)
  {
  }

  lemma StepTidy(cfg: Config, a: Account, latest: Prices, bars: Prices, i: nat, time: int)
    requires Tidy(a) && i < |a.orders|
    ensures Tidy(StepOrder(cfg, a, latest, bars, i, time))
    ensures OrdersEvolve(a, StepOrder(cfg, a, latest, bars, i, time))
  {
    var o := a.orders[i];
    if o.status == New && o.ticker in bars {
      AtOpenTidy(cfg, a, latest, bars, i, time);
      LimitTidy(cfg, a, latest, i, bars[o.ticker], time);
    }
  }

  lemma EvolveTransitive(a: Account, b: Account, c: Account)
    requires OrdersEvolve(a, b) && OrdersEvolve(b, c)
    ensures OrdersEvolve(a, c)
  {
    forall i | 0 <= i < |a.orders| ensures Evolves(a.orders[i], c.orders[i]) {
      assert Evolves(a.orders[i], b.orders[i]) && Evolves(b.orders[i], c.orders[i]);
    }
  }

  lemma StepsUnfold(cfg: Config, a: Account, latest: Prices, bars: Prices, i: nat, time: int)
    requires i < |a.orders|
    ensures
      var b := StepOrder(cfg, a, latest, bars, i, time);
      |b.orders| == |a.orders|
      && StepOrders(cfg, a, latest, bars, i, time) == StepOrders(cfg, b, latest, bars, i + 1, time)
  {
  }

  /** One account after another keeps its orders in order and lets them evolve. */
  ghost predicate Onward(a: Account, b: Account) {
    Tidy(b) && OrdersEvolve(a, b)
  }

  lemma OnwardTwice(a: Account, b: Account, c: Account)
    requires Onward(a, b) && Onward(b, c)
    ensures Onward(a, c)
  {
    EvolveTransitive(a, b, c);
  }

  lemma {:induction false} StepsTidy(cfg: Config, a: Account, latest: Prices, bars: Prices, i: nat, time: int)
    requires Tidy(a) && i <= |a.orders|
    ensures Onward(a, StepOrders(cfg, a, latest, bars, i, time))
    decreases |a.orders| - i
  {
    if i < |a.orders| {
      var b := StepOrder(cfg, a, latest, bars, i, time);
      StepTidy(cfg, a, latest, bars, i, time);
      StepsUnfold(cfg, a, latest, bars, i, time);
      StepsTidy(cfg, b, latest, bars, i + 1, time);
      OnwardTwice(a, b, StepOrders(cfg, b, latest, bars, i + 1, time));
    } else {
      StaysTidy(a);
    }
  }

  /** Storing a fresh order: the older ones stay where they are. */
  lemma StoreTidy(a: Account, o: Order)
    requires Tidy(a) && o.status != Filled && !Duplicate(a, o)
    requires OrderIndex(a.orders, o.id) == |a.orders|
    ensures var b := a.(orders := PutOrder(a.orders, o)); Tidy(b) && OrdersEvolve(a, b)
  {
    var b := a.(orders := PutOrder(a.orders, o));
    assert b.orders == a.orders + [o];
    forall k | 0 <= k < |a.reports|
      ensures a.reports[k].fill.orderId != o.id
      ensures OrderIndex(b.orders, a.reports[k].fill.orderId) < |b.orders|
    {
      IndexOfSameIds(a.orders, b.orders, a.reports[k].fill.orderId);
    }
    NoFillsOfUnknown(a.reports, o.id);
    forall i | 0 <= i < |b.orders| ensures Accounted(b.orders[i], b.reports) {
      if i < |a.orders| { assert Accounted(a.orders[i], a.reports); }
    }
  }

  lemma SettleTidy(cfg: Config, a: Account, latest: Prices, i: nat, now: int)
    requires Tidy(a) && i < |a.orders| && a.orders[i].status == New
    ensures Tidy(Settle(cfg, a, latest, i, now))
    ensures OrdersEvolve(a, Settle(cfg, a, latest, i, now))
  {
    var o := a.orders[i];
    StatusTidy(a, i, Rejected);
    if o.ticker in latest {
      var close := latest[o.ticker].close;
      FillTidy(cfg, a, latest, i, Pricing.MarketPrice(o.side, close, cfg.slippage), close, now);
    }
  }

  ghost predicate AllTidy(e: EngineState) {
    Consistent(e) && forall id :: id in e.accounts ==> Tidy(e.accounts[id])
  }

  ghost predicate AllEvolve(e: EngineState, r: EngineState) {
    forall id :: id in e.accounts ==> id in r.accounts && OrdersEvolve(e.accounts[id], r.accounts[id])
  }

  lemma {:induction false} AccountsTidy(e: EngineState, bars: Prices, k: nat, time: int)
    requires AllTidy(e) && k <= |e.ids|
    ensures AllTidy(StepAccounts(e, bars, k, time)) && AllEvolve(e, StepAccounts(e, bars, k, time))
    decreases |e.ids| - k
  {
    if k < |e.ids| {
      var id := e.ids[k];
      assert id in e.ids;
      StepsTidy(e.cfg, e.accounts[id], e.latest, bars, 0, time);
      var mid := StepAccount(e, bars, k, time);
      AccountsTidy(mid, bars, k + 1, time);
      var last := StepAccounts(mid, bars, k + 1, time);
      forall id | id in e.accounts ensures id in last.accounts && OrdersEvolve(e.accounts[id], last.accounts[id]) {
        EvolveTransitive(e.accounts[id], mid.accounts[id], last.accounts[id]);
      }
    }
  }

  // ---- which placements are safe -------------------------------------------------------

  /** The order would be rejected right after being stored: it is not queued for the next
      open, and its ticker has no price or the check fails. */
  predicate RejectedNow(cfg: Config, a: Account, latest: Prices, o: Order) {
    && !(o.kind == Market && cfg.timing == NextOpen)
    && (o.ticker !in latest
        || RiskChecks.Check(cfg, o, a.cash, Equity(a, latest), a.book, Some(latest[o.ticker].close)) != RiskChecks.Pass)
  }

  /** What a caller has to see to before placing an order: its id is unused in the account
      or its client id is used; or else the account's order of that id is the same order,
      and is still waiting, or was rejected and would be rejected again. */
  predicate SafeInAccount(cfg: Config, a: Account, latest: Prices, o: Order) {
    var i := OrderIndex(a.orders, o.id);
    || i == |a.orders|
    || Duplicate(a, o)
    || a.orders[i] == o
    || (a.orders[i] == o.(status := Rejected) && RejectedNow(cfg, a, latest, o))
  }

  predicate Safe(e: EngineState, act: Action) {
    act.Place? && act.order.account in e.accounts ==>
      SafeInAccount(e.cfg, e.accounts[act.order.account], e.latest, act.order)
  }

  ghost predicate AccountSafe(a: Account, b: Account) {
    Tidy(b) && OrdersEvolve(a, b)
  }

  /** Storing an order again under the id it already has changes nothing. */
  lemma StoredAgain(a: Account, o: Order)
    requires OrderIndex(a.orders, o.id) < |a.orders| && a.orders[OrderIndex(a.orders, o.id)] == o
    ensures a.(orders := PutOrder(a.orders, o)) == a
  {
    assert PutOrder(a.orders, o) == a.orders;
  }

  lemma RejectedAgain(cfg: Config, a: Account, latest: Prices, o: Order, now: int)
    requires OrderIndex(a.orders, o.id) < |a.orders| && o.status == New && RejectedNow(cfg, a, latest, o)
    requires a.orders[OrderIndex(a.orders, o.id)] == o.(status := Rejected)
    ensures PlaceInAccount(cfg, a, latest, o, now) == a
  {
    var i := OrderIndex(a.orders, o.id);
    assert a.orders[i := o][i := o.(status := Rejected)] == a.orders;
  }

  lemma EvolveRefl(a: Account)
    ensures OrdersEvolve(a, a)
  {
  }

  lemma SafePlacement(cfg: Config, a: Account, latest: Prices, o: Order, now: int)
    requires Tidy(a) && o.status == New && !Duplicate(a, o) && SafeInAccount(cfg, a, latest, o)
    ensures AccountSafe(a, PlaceInAccount(cfg, a, latest, o, now))
  {
    var i := OrderIndex(a.orders, o.id);
    var stored := a.(orders := PutOrder(a.orders, o));
    EvolveRefl(a);
    if i == |a.orders| {
      StoreTidy(a, o);
      SettleTidy(cfg, stored, latest, i, now);
      EvolveTransitive(a, stored, PlaceInAccount(cfg, a, latest, o, now));
    } else if a.orders[i] == o {
      StoredAgain(a, o);
      SettleTidy(cfg, a, latest, i, now);
    } else {
      RejectedAgain(cfg, a, latest, o, now);
    }
  }

  /** Settling a new order leaves it NEW, or fills it with one more fill, or rejects it. */
  lemma Settled(cfg: Config, a: Account, latest: Prices, i: nat, now: int)
    requires i < |a.orders| && a.orders[i].status == New
    ensures
      var o, b := a.orders[i], Settle(cfg, a, latest, i, now);
      && |b.orders| == |a.orders|
      && b.orders[i] == o.(status := b.orders[i].status)
      && (b.orders[i].status == Rejected <==> RejectedNow(cfg, a, latest, o))
      && (b.orders[i].status == Filled ==>
            |b.reports| == |a.reports| + 1 && b.reports == a.reports + [b.reports[|a.reports|]]
            && b.reports[|a.reports|].fill.orderId == o.id)
      && (b.orders[i].status == New || b.orders[i].status == Rejected || b.orders[i].status == Filled)
  {
  }

  /** Filling an order that was filled before gives it a second fill. */
  lemma FilledTwice(a: Account, b: Account, i: nat, r: FillReport)
    requires Tidy(a) && i < |a.orders| && a.orders[i].status == Filled
    requires i < |b.orders| && b.orders[i].id == a.orders[i].id
    requires b.reports == a.reports + [r] && r.fill.orderId == a.orders[i].id
    ensures !Accounted(b.orders[i], b.reports)
  {
    assert Accounted(a.orders[i], a.reports);
    FillsOfAppend(a.reports, r, a.orders[i].id);
  }

  lemma UnsafePlacement(cfg: Config, a: Account, latest: Prices, o: Order, now: int)
    requires Tidy(a) && o.status == New && !SafeInAccount(cfg, a, latest, o)
    ensures !AccountSafe(a, PlaceInAccount(cfg, a, latest, o, now))
  {
    var i := OrderIndex(a.orders, o.id);
    var stored := a.(orders := a.orders[i := o]);
    var b := PlaceInAccount(cfg, a, latest, o, now);
    Settled(cfg, stored, latest, i, now);
    assert RejectedNow(cfg, stored, latest, o) == RejectedNow(cfg, a, latest, o);
    if OrdersEvolve(a, b) {
      assert Evolves(a.orders[i], b.orders[i]);
      assert a.orders[i] == b.orders[i] && b.orders[i].status == Filled;
      FilledTwice(a, b, i, b.reports[|a.reports|]);
    }
  }

  /** Exactly which placements keep the orders in order: the safe ones.  Any other reuse
      of an id brings a finished order back, swaps a waiting one for another, or fills an
      order twice. */
  lemma PlacingIsSafeExactly(e: EngineState, o: Order, now: int)
    requires AllTidy(e) && o.status == New
    ensures AllTidy(PlaceOrder(e, o, now)) && AllEvolve(e, PlaceOrder(e, o, now)) <==> Safe(e, Place(o, now))
  {
    var e1 := Ensure(e, o.account);
    var a := e1.accounts[o.account];
    var r := PlaceOrder(e, o, now);
    if Duplicate(a, o) {
      EvolveRefl(a);
    } else {
      var b := PlaceInAccount(e.cfg, a, e.latest, o, now);
      assert r.accounts[o.account] == b;
      if SafeInAccount(e.cfg, a, e.latest, o) {
        SafePlacement(e.cfg, a, e.latest, o, now);
      } else {
        UnsafePlacement(e.cfg, a, e.latest, o, now);
      }
    }
  }

  /** In particular a finished order does not survive its id: placing another order under
      the id of a filled or canceled one puts the new order in its place. */
  lemma ReusedIdRevives(e: EngineState, o: Order, now: int, i: nat)
    requires AllTidy(e) && o.status == New && o.account in e.accounts && !Duplicate(e.accounts[o.account], o)
    requires i < |e.accounts[o.account].orders| && e.accounts[o.account].orders[i].id == o.id
    requires e.accounts[o.account].orders[i].status == Filled || e.accounts[o.account].orders[i].status == Canceled
    ensures
      var r := PlaceOrder(e, o, now);
      && i < |r.accounts[o.account].orders| && r.accounts[o.account].orders[i].(status := New) == o
      && !(AllTidy(r) && AllEvolve(e, r))
  {
    var a := e.accounts[o.account];
    IndexOfDistinct(a.orders, i);
    Settled(e.cfg, a.(orders := a.orders[i := o]), e.latest, i, now);
    PlacingIsSafeExactly(e, o, now);
  }

  lemma ApplyTidy(e: EngineState, act: Action)
    requires AllTidy(e) && Wellformed(act) && Safe(e, act)
    ensures AllTidy(Apply(e, act))
    ensures !act.Reset? ==> AllEvolve(e, Apply(e, act))
  {
    match act
    case Place(o, now) => PlacingIsSafeExactly(e, o, now);
    case Cancel(account, id) =>
      var owner := Holder(e, account, id, 0);
      if owner.Some? {
        var a := e.accounts[owner.value];
        var i := OrderIndex(a.orders, id);
        if a.orders[i].status == New {
          StatusTidy(a, i, Canceled);
        }
      }
    case PlayBar(bars, time) =>
      var marked := e.(latest := e.latest + (if e.cfg.timing == NextOpen then OpenOnly(bars) else bars));
      AccountsTidy(marked, bars, 0, time);
    case Reset(account) =>
  }

  ghost predicate NoReset(acts: seq<Action>) {
    forall i :: 0 <= i < |acts| ==> !acts[i].Reset?
  }

  /** Every placement of the run is safe when it is made. */
  ghost predicate SafeRun(e: EngineState, acts: seq<Action>)
    requires Consistent(e)
    decreases |acts|
  {
    |acts| == 0 || (Wellformed(acts[0]) && Safe(e, acts[0]) && SafeRun(Apply(e, acts[0]), acts[1..]))
  }

  lemma StartIsTidy(cfg: Config)
    ensures AllTidy(InitialState(cfg))
  {
  }

  /** In every run whose placements are safe: FILLED, REJECTED and CANCELED are absorbing,
      an order is FILLED exactly when it has one fill for its whole quantity, every fill
      belongs to an order, and no strategy's client id is stored twice. */
  lemma {:induction false} EveryRunIsTidy(e: EngineState, acts: seq<Action>)
    requires AllTidy(e) && SafeRun(e, acts)
    ensures AllTidy(Run(e, acts))
    ensures NoReset(acts) ==> AllEvolve(e, Run(e, acts))
    decreases |acts|
  {
    if |acts| > 0 {
      var next := Apply(e, acts[0]);
      ApplyTidy(e, acts[0]);
      EveryRunIsTidy(next, acts[1..]);
      if NoReset(acts) {
        var last := Run(next, acts[1..]);
        assert forall i :: 0 <= i < |acts[1..]| ==> acts[1..][i] == acts[i + 1];
        assert NoReset(acts[1..]);
        forall id | id in e.accounts ensures id in last.accounts && OrdersEvolve(e.accounts[id], last.accounts[id]) {
          EvolveTransitive(e.accounts[id], next.accounts[id], last.accounts[id]);
        }
      }
    }
  }

  /** After every step of the run the orders are in order and have only moved forward. */
  ghost predicate TidyThroughout(e: EngineState, acts: seq<Action>)
    requires Consistent(e)
    decreases |acts|
  {
    || |acts| == 0
    || (AllTidy(Apply(e, acts[0])) && (acts[0].Reset? || AllEvolve(e, Apply(e, acts[0])))
        && TidyThroughout(Apply(e, acts[0]), acts[1..]))
  }

  /** So a run keeps its orders in order throughout exactly when every placement of it is
      safe at its moment. */
  lemma {:induction false} TidyExactlyWhenSafe(e: EngineState, acts: seq<Action>)
    requires AllTidy(e) && WellformedRun(acts)
    ensures TidyThroughout(e, acts) <==> SafeRun(e, acts)
    decreases |acts|
  {
    if |acts| > 0 {
      assert Wellformed(acts[0]);
      if acts[0].Place? {
        PlacingIsSafeExactly(e, acts[0].order, acts[0].now);
      }
      if Safe(e, acts[0]) {
        ApplyTidy(e, acts[0]);
        assert forall i :: 0 <= i < |acts[1..]| ==> acts[1..][i] == acts[i + 1];
        TidyExactlyWhenSafe(Apply(e, acts[0]), acts[1..]);
      }
    }
  }

  lemma TerminalIsAbsorbing(e: EngineState, acts: seq<Action>, account: Name, i: nat)
    requires AllTidy(e) && SafeRun(e, acts) && NoReset(acts)
    requires account in e.accounts && i < |e.accounts[account].orders|
    requires Terminal(e.accounts[account].orders[i].status)
    ensures account in Run(e, acts).accounts
    ensures i < |Run(e, acts).accounts[account].orders|
    ensures Run(e, acts).accounts[account].orders[i] == e.accounts[account].orders[i]
  {
    EveryRunIsTidy(e, acts);
  }

  /** An order of the same strategy and client id is there already. */
  ghost predicate Used(orders: seq<Order>, o: Order) {
    exists k :: 0 <= k < |orders| && o.clientOrderId.Some?
      && orders[k].clientOrderId == o.clientOrderId && orders[k].owner.strategy == o.owner.strategy
  }

  lemma UsedIsDuplicate(a: Account, o: Order)
    ensures Used(a.orders, o) <==> Duplicate(a, o)
  {
    if Duplicate(a, o) {
      assert SameClient(a.orders[ClientIndex(a.orders, o.owner.strategy, o.clientOrderId.value)], o.owner.strategy,
                        o.clientOrderId.value);
    }
    if Used(a.orders, o) {
      var k :| 0 <= k < |a.orders| && o.clientOrderId.Some?
        && a.orders[k].clientOrderId == o.clientOrderId && a.orders[k].owner.strategy == o.owner.strategy;
      assert SameClient(a.orders[k], o.owner.strategy, o.clientOrderId.value);
    }
  }

  lemma SettleStores(cfg: Config, a: Account, latest: Prices, i: nat, now: int)
    requires i < |a.orders|
    ensures
      var orders := Settle(cfg, a, latest, i, now).orders;
      |orders| == |a.orders| && orders[i] == a.orders[i].(status := orders[i].status)
  {
  }

  /** Placing again under a client id the strategy already used adds nothing; under any
      other the order is stored, another strategy's use of the id notwithstanding. */
  lemma ClientIdIsIdempotent(e: EngineState, o: Order, now: int)
    requires Consistent(e) && o.account in e.accounts
    ensures Used(e.accounts[o.account].orders, o) ==> PlaceOrder(e, o, now) == e
    ensures !Used(e.accounts[o.account].orders, o) ==>
      exists i :: 0 <= i < |PlaceOrder(e, o, now).accounts[o.account].orders|
        && var stored := PlaceOrder(e, o, now).accounts[o.account].orders[i]; stored == o.(status := stored.status)
  {
    var a := e.accounts[o.account];
    UsedIsDuplicate(a, o);
    if !Duplicate(a, o) {
      var i := OrderIndex(a.orders, o.id);
      var placed := a.(orders := PutOrder(a.orders, o));
      SettleStores(e.cfg, placed, e.latest, i, now);
      var stored := PlaceOrder(e, o, now).accounts[o.account].orders[i];
      assert stored == o.(status := stored.status);
    }
  }

  /** Canceling does cancel: a known order that is NEW becomes CANCELED, nothing else in
      the engine changes, and anything finished or unknown is left alone. */
  lemma CancelTakesEffect(e: EngineState, account: Name, i: nat)
    requires Consistent(e) && account in e.accounts && i < |e.accounts[account].orders|
    requires IdsDistinct(e.accounts[account].orders)
    ensures
      var o := e.accounts[account].orders[i];
      var r := CancelOrder(e, Some(account), o.id);
      && r.accounts[account].orders[i].status == (if o.status == New then Canceled else o.status)
      && (forall j :: 0 <= j < |e.accounts[account].orders| && j != i ==>
            r.accounts[account].orders[j] == e.accounts[account].orders[j])
      && r.accounts[account].cash == e.accounts[account].cash && r.accounts[account].book == e.accounts[account].book
      && (forall other :: other in e.accounts && other != account ==>
            other in r.accounts && r.accounts[other] == e.accounts[other])
  {
    IndexOfDistinct(e.accounts[account].orders, i);
  }

  /** What becomes of an order as it is placed, with `e` the engine that has the account and
      `i` the order's place:
      - a market order waits for the next open, if that is when it fills;
      - otherwise, without a price or failing the check at the last close, it is rejected;
      - and else a limit order waits, and a market order fills at the slipped close. */
  ghost predicate PlacedAs(e: EngineState, o: Order, r: Account, i: nat)
    requires o.account in e.accounts
  {
    var a := e.accounts[o.account].(orders := PutOrder(e.accounts[o.account].orders, o));
    && i < |r.orders| == |a.orders|
    && if o.kind == Market && e.cfg.timing == NextOpen then r == a
       else if RejectedNow(e.cfg, a, e.latest, o) then
         r == a.(orders := a.orders[i := o.(status := Rejected)])
       else if o.kind == Limit then r == a
       else
         && r.orders == a.orders[i := o.(status := Filled)]
         && |r.reports| == |a.reports| + 1 && r.reports[..|a.reports|] == a.reports
         && r.reports[|a.reports|].fill.qty == o.qty
         && r.reports[|a.reports|].fill.price == Pricing.MarketPrice(o.side, e.latest[o.ticker].close, e.cfg.slippage)
  }

  lemma PlacedOrderIs(e: EngineState, o: Order, now: int)
    requires Consistent(e) && o.account in e.accounts && !Used(e.accounts[o.account].orders, o)
    ensures PlacedAs(e, o, PlaceOrder(e, o, now).accounts[o.account], OrderIndex(e.accounts[o.account].orders, o.id))
  {
    UsedIsDuplicate(e.accounts[o.account], o);
  }

  /** The order is known to the account. */
  ghost predicate Knows(e: EngineState, account: Name, id: Name) {
    account in e.accounts && exists k :: 0 <= k < |e.accounts[account].orders| && e.accounts[account].orders[k].id == id
  }

  lemma KnowsHolds(e: EngineState, account: Name, id: Name)
    ensures Knows(e, account, id) <==> Holds(e, account, id)
  {
    if Holds(e, account, id) {
      assert e.accounts[account].orders[OrderIndex(e.accounts[account].orders, id)].id == id;
    }
  }

  /** Whose order is meant: with an account given, that account's or nobody's, and without
      one that of the earliest account that knows the id. */
  lemma {:induction false} HolderIs(e: EngineState, account: Option<Name>, id: Name, k: nat)
    requires k <= |e.ids|
    ensures account.Some? ==> Holder(e, account, id, k) == if Knows(e, account.value, id) then account else None
    ensures account.None? && Holder(e, account, id, k).None? ==>
      forall j :: k <= j < |e.ids| ==> !Knows(e, e.ids[j], id)
    ensures account.None? && Holder(e, account, id, k).Some? ==>
      exists j :: k <= j < |e.ids| && Holder(e, account, id, k) == Some(e.ids[j]) && Knows(e, e.ids[j], id)
        && forall i :: k <= i < j ==> !Knows(e, e.ids[i], id)
    decreases |e.ids| - k
  {
    if account.Some? {
      KnowsHolds(e, account.value, id);
    } else if k < |e.ids| {
      KnowsHolds(e, e.ids[k], id);
      HolderIs(e, account, id, k + 1);
    }
  }

  /** An order that the given account, or without one any account, does not know changes
      nothing. */
  lemma UnknownIsNotCanceled(e: EngineState, account: Option<Name>, id: Name)
    requires Consistent(e)
    requires if account.Some? then !Knows(e, account.value, id) else forall other :: !Knows(e, other, id)
    ensures CancelOrder(e, account, id) == e
  {
    HolderIs(e, account, id, 0);
  }

  /** After a reset the account is as good as new: the initial cash, no position, no order
      and no fill; other accounts, the marks and what was reported stay. */
  lemma ResetIsFresh(e: EngineState, account: Name)
    requires Consistent(e)
    ensures
      var r := ResetAccount(e, account);
      && account in r.accounts
      && r.accounts[account] == Account(e.cfg.initialCash, [], [], [])
      && (forall other :: other in e.accounts && other != account ==>
            other in r.accounts && r.accounts[other] == e.accounts[other])
      && r.latest == e.latest && r.notified == e.notified && r.cfg == e.cfg
  {
  }

  /** A limit order is filled, rejected or kept by a bar exactly as its price is reached
      and the check decides.  It fills at its limit whatever the bar's range is: a buy
      limit above the high, or a sell limit below the low, fills at a price the bar did
      not trade at. */
  lemma LimitOrderAtBar(cfg: Config, a: Account, latest: Prices, bars: Prices, i: nat, time: int)
    requires i < |a.orders| && a.orders[i].status == New && a.orders[i].kind == Limit && a.orders[i].limitPrice.Some?
    requires a.orders[i].ticker in bars
    ensures
      var o, bar := a.orders[i], bars[a.orders[i].ticker];
      var limit := o.limitPrice.value;
      var b := StepOrder(cfg, a, latest, bars, i, time);
      var reached := if o.side == Buy then bar.low <= limit else limit <= bar.high;
      && (b.orders[i].status == New <==> !reached)
      && (b.orders[i].status == Filled ==> |b.reports| == |a.reports| + 1 && b.reports[|a.reports|].fill.price == limit)
      && (b.orders[i].status == Filled ==>
            (bar.low <= b.reports[|a.reports|].fill.price <= bar.high
             <==> if o.side == Buy then limit <= bar.high else bar.low <= limit))
      && (b.orders[i].status == Filled
          <==> reached && RiskChecks.Check(cfg, o, a.cash, Equity(a, latest), a.book, Some(limit)) == RiskChecks.Pass)
  {
  }
}
