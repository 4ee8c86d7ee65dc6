/** An induction principle for long-only runs.  A property of single accounts that a
    fresh account has, that a change of orders does not touch, and that every checked
    fill keeps, holds of every account after every run; and the callbacks get each
    account's fills in order. */
module AccountInvariants {
  import opened BrokerModels
  import opened Positions
  import opened Pricing
  import opened RiskChecks
  import opened Engine
  import opened EngineLaws
  import opened FillLaws
  import opened Coupling

  /** A property of an account, its id and the time of the last event. */
  type Property = (Name, Account, int) -> bool

  predicate OwnReport(r: FillReport, owner: Owner, id: Name) {
    r.fill.owner == owner && r.fill.account == id
  }

  ghost predicate OwnReports(rs: seq<FillReport>, owner: Owner, id: Name) {
    forall k :: 0 <= k < |rs| ==> OwnReport(rs[k], owner, id)
  }

  ghost predicate OwnOrders(orders: seq<Order>, owner: Owner, id: Name) {
    forall i :: 0 <= i < |orders| ==> orders[i].owner == owner && orders[i].account == id
  }

  ghost predicate AllClean(rs: seq<FillReport>) {
    forall k :: 0 <= k < |rs| ==> CleanSale(rs[k])
  }

  // ---- what a property must satisfy ----------------------------------------------

  ghost predicate HoldsFresh(cfg: Config, p: Property) {
    forall id, clock :: p(id, FreshAccount(cfg), clock)
  }

  ghost predicate HoldsLater(p: Property) {
    forall id, a, clock, time :: p(id, a, clock) && clock <= time ==> p(id, a, time)
  }

  ghost predicate IgnoresOrders(p: Property, ownerOf: Name -> Owner) {
    forall id, a, orders, clock :: p(id, a, clock) && OwnOrders(orders, ownerOf(id), id) ==>
      p(id, a.(orders := orders), clock)
  }

  ghost predicate KeptByFills(cfg: Config, p: Property) {
    forall id, a, latest, i, price, reference, time, clock
      {:trigger p(id, a, clock), ExecuteFill(cfg, a, latest, i, price, reference, time)} ::
      p(id, a, clock) && clock <= time && 0 <= i < |a.orders| && price > 0.0 && LongFill(a.orders[i], a.book)
      && AllClean(ExecuteFill(cfg, a, latest, i, price, reference, time).reports)
      ==> p(id, ExecuteFill(cfg, a, latest, i, price, reference, time), time)
  }

  ghost predicate Describes(p: Property, ownerOf: Name -> Owner) {
    forall id, a, clock :: p(id, a, clock) ==>
      && OwnOrders(a.orders, ownerOf(id), id)
      && OwnReports(a.reports, ownerOf(id), id)
      && forall t :: Shares(a.book, t) >= 0.0
  }

  ghost predicate Inductive(cfg: Config, p: Property, ownerOf: Name -> Owner) {
    && HoldsFresh(cfg, p)
    && HoldsLater(p)
    && IgnoresOrders(p, ownerOf)
    && KeptByFills(cfg, p)
    && Describes(p, ownerOf)
  }

  // ---- one account ---------------------------------------------------------------

  lemma CheckedFillHolds(cfg: Config, p: Property, ownerOf: Name -> Owner, id: Name, a: Account,
      latest: Prices, i: nat, equity: real, reference: real, time: int, clock: int)
    requires SaneRates(cfg) && !cfg.allowShort && Inductive(cfg, p, ownerOf) && reference > 0.0
    requires p(id, a, clock) && clock <= time && i < |a.orders|
    requires Check(cfg, a.orders[i], a.cash, equity, a.book, Some(reference)) == Pass
    requires AllClean(ExecuteFill(cfg, a, latest, i, EstimatedPrice(cfg, a.orders[i], reference), reference,
                                  time).reports)
    ensures p(id, ExecuteFill(cfg, a, latest, i, EstimatedPrice(cfg, a.orders[i], reference), reference, time), time)
  {
    PassMeans(cfg, a.orders[i], a.cash, equity, a.book, reference);
    PricesPositive(reference, cfg.slippage);
  }

  lemma StepHolds(cfg: Config, p: Property, ownerOf: Name -> Owner, id: Name, a: Account,
      latest: Prices, bars: Prices, i: nat, time: int, clock: int)
    requires SaneRates(cfg) && !cfg.allowShort && Inductive(cfg, p, ownerOf) && PositivePrices(bars)
    requires p(id, a, clock) && clock <= time && i < |a.orders|
    requires AllClean(StepOrder(cfg, a, latest, bars, i, time).reports)
    ensures p(id, StepOrder(cfg, a, latest, bars, i, time), time)
  {
    var o := a.orders[i];
    RejectHolds(cfg, p, ownerOf, id, a, i, time, clock);
    if o.status == New && o.ticker in bars {
      if o.kind == Market && cfg.timing == NextOpen {
        var open := bars[o.ticker].open;
        if Check(cfg, o, a.cash, EquityAtOpen(a, latest, bars), a.book, Some(open)) == Pass {
          CheckedFillHolds(cfg, p, ownerOf, id, a, latest, i, EquityAtOpen(a, latest, bars), open, time, clock);
        }
      } else if o.kind == Limit && o.limitPrice.Some? && Triggered(o, bars[o.ticker]) {
        var limit := o.limitPrice.value;
        if Check(cfg, o, a.cash, Equity(a, latest), a.book, Some(limit)) == Pass {
          PassMeans(cfg, o, a.cash, Equity(a, latest), a.book, limit);
          CheckedFillHolds(cfg, p, ownerOf, id, a, latest, i, Equity(a, latest), limit, time, clock);
        }
      }
    }
  }

  lemma RejectHolds(cfg: Config, p: Property, ownerOf: Name -> Owner, id: Name, a: Account, i: nat,
      time: int, clock: int)
    requires Inductive(cfg, p, ownerOf) && p(id, a, clock) && clock <= time && i < |a.orders|
    ensures p(id, Reject(a, i), time)
  {
    var orders := Reject(a, i).orders;
    assert OwnOrders(orders, ownerOf(id), id);
    assert p(id, a.(orders := orders), clock);
  }

  lemma {:induction false} StepsHold(cfg: Config, p: Property, ownerOf: Name -> Owner, id: Name,
      a: Account, latest: Prices, bars: Prices, i: nat, time: int, clock: int)
    requires SaneRates(cfg) && !cfg.allowShort && Inductive(cfg, p, ownerOf) && PositivePrices(bars)
    requires p(id, a, clock) && clock <= time && i <= |a.orders|
    requires AllClean(StepOrders(cfg, a, latest, bars, i, time).reports)
    ensures p(id, StepOrders(cfg, a, latest, bars, i, time), time)
    decreases |a.orders| - i
  {
    if i < |a.orders| {
      var b := StepOrder(cfg, a, latest, bars, i, time);
      PrefixClean(b.reports, StepOrders(cfg, b, latest, bars, i + 1, time).reports);
      StepHolds(cfg, p, ownerOf, id, a, latest, bars, i, time, clock);
      StepsHold(cfg, p, ownerOf, id, b, latest, bars, i + 1, time, time);
    }
  }

  lemma PrefixClean(rs: seq<FillReport>, more: seq<FillReport>)
    requires |rs| <= |more| && more[..|rs|] == rs && AllClean(more)
    ensures AllClean(rs)
  {
    forall k | 0 <= k < |rs| ensures CleanSale(rs[k]) {
      assert rs[k] == more[k];
    }
  }

  lemma SettleHolds(cfg: Config, p: Property, ownerOf: Name -> Owner, id: Name, a: Account,
      latest: Prices, i: nat, now: int, clock: int)
    requires SaneRates(cfg) && !cfg.allowShort && Inductive(cfg, p, ownerOf) && PositivePrices(latest)
    requires p(id, a, clock) && clock <= now && i < |a.orders|
    requires AllClean(Settle(cfg, a, latest, i, now).reports)
    ensures p(id, Settle(cfg, a, latest, i, now), now)
  {
    var o := a.orders[i];
    RejectHolds(cfg, p, ownerOf, id, a, i, now, clock);
    if o.ticker in latest && o.kind == Market && cfg.timing == CloseBar {
      var close := latest[o.ticker].close;
      if Check(cfg, o, a.cash, Equity(a, latest), a.book, Some(close)) == Pass {
        CheckedFillHolds(cfg, p, ownerOf, id, a, latest, i, Equity(a, latest), close, now, clock);
      }
    }
  }

  lemma PlacedHolds(cfg: Config, p: Property, ownerOf: Name -> Owner, a: Account, latest: Prices,
      o: Order, now: int, clock: int)
    requires SaneRates(cfg) && !cfg.allowShort && Inductive(cfg, p, ownerOf) && PositivePrices(latest)
    requires p(o.account, a, clock) && clock <= now && o.owner == ownerOf(o.account)
    requires AllClean(PlaceInAccount(cfg, a, latest, o, now).reports)
    ensures p(o.account, PlaceInAccount(cfg, a, latest, o, now), now)
  {
    var orders := PutOrder(a.orders, o);
    assert OwnOrders(orders, ownerOf(o.account), o.account);
    SettleHolds(cfg, p, ownerOf, o.account, a.(orders := orders), latest, OrderIndex(a.orders, o.id), now, clock);
  }

  lemma CanceledHolds(cfg: Config, p: Property, ownerOf: Name -> Owner, id: Name, a: Account,
      order: Name, clock: int)
    requires Inductive(cfg, p, ownerOf) && p(id, a, clock)
    ensures p(id, CancelInAccount(a, order), clock)
  {
    var orders := CancelInAccount(a, order).orders;
    assert OwnOrders(orders, ownerOf(id), id);
    assert CancelInAccount(a, order) == a.(orders := orders);
  }

  // ---- the callbacks ---------------------------------------------------------------

  /** The reports the callbacks got about one account. */
  function OfAccount(rs: seq<FillReport>, id: Name): seq<FillReport> {
    if |rs| == 0 then []
    else
      var rest := OfAccount(rs[..|rs| - 1], id);
      if rs[|rs| - 1].fill.account == id then rest + [rs[|rs| - 1]] else rest
  }

  lemma {:induction false} OfAccountSplit(rs: seq<FillReport>, more: seq<FillReport>, id: Name)
    ensures OfAccount(rs + more, id) == OfAccount(rs, id) + OfAccount(more, id)
    decreases |more|
  {
    if |more| == 0 {
      assert rs + more == rs;
    } else {
      OfAccountSplit(rs, more[..|more| - 1], id);
      assert (rs + more)[..|rs + more| - 1] == rs + more[..|more| - 1];
    }
  }

  lemma {:induction false} AllOrNone(rs: seq<FillReport>, of: Name, id: Name)
    requires forall k :: 0 <= k < |rs| ==> rs[k].fill.account == of
    ensures OfAccount(rs, id) == if id == of then rs else []
    decreases |rs|
  {
    if |rs| > 0 {
      AllOrNone(rs[..|rs| - 1], of, id);
      assert rs == rs[..|rs| - 1] + [rs[|rs| - 1]];
    }
  }

  /** The callbacks got exactly what the accounts reported, in each account's order. */
  ghost predicate Notifies(accounts: map<Name, Account>, notified: seq<FillReport>) {
    forall id :: OfAccount(notified, id) == if id in accounts then accounts[id].reports else []
  }

  lemma SetNotifies(accounts: map<Name, Account>, notified: seq<FillReport>, id: Name, a: Account,
      added: seq<FillReport>)
    requires Notifies(accounts, notified) && id in accounts
    requires a.reports == accounts[id].reports + added
    requires forall k :: 0 <= k < |added| ==> added[k].fill.account == id
    ensures Notifies(accounts[id := a], notified + added)
  {
    var after := accounts[id := a];
    forall other ensures OfAccount(notified + added, other) == if other in after then after[other].reports else [] {
      AllOrNone(added, id, other);
      OfAccountSplit(notified, added, other);
    }
  }

  /** The reports of an account are among those the callbacks got. */
  lemma {:induction false} OfAccountClean(rs: seq<FillReport>, id: Name)
    requires AllClean(rs)
    ensures AllClean(OfAccount(rs, id))
    decreases |rs|
  {
    if |rs| > 0 {
      PrefixClean(rs[..|rs| - 1], rs);
      OfAccountClean(rs[..|rs| - 1], id);
    }
  }

  // ---- all accounts ------------------------------------------------------------------

  ghost predicate AllHold(e: EngineState, p: Property, clock: int) {
    && Consistent(e)
    && PositivePrices(e.latest)
    && (forall id :: id in e.accounts ==> p(id, e.accounts[id], clock))
    && Notifies(e.accounts, e.notified)
  }

  predicate Extends(e: EngineState, r: EngineState) {
    |e.notified| <= |r.notified| && r.notified[..|e.notified|] == e.notified
  }

  predicate Grows(a: Account, b: Account) {
    |a.reports| <= |b.reports| && b.reports[..|a.reports|] == a.reports
  }

  /** Replacing one account by a later version of it, and telling the callbacks. */
  function Replace(e: EngineState, id: Name, a: Account): EngineState
    requires id in e.accounts && Grows(e.accounts[id], a)
  {
    e.(accounts := e.accounts[id := a], notified := e.notified + a.reports[|e.accounts[id].reports|..])
  }

  lemma ReplaceHolds(e: EngineState, p: Property, ownerOf: Name -> Owner, clock: int, time: int,
      id: Name, a: Account)
    requires Inductive(e.cfg, p, ownerOf) && AllHold(e, p, clock) && clock <= time
    requires id in e.accounts && Grows(e.accounts[id], a) && p(id, a, time)
    ensures AllHold(Replace(e, id, a), p, time)
  {
    var added := a.reports[|e.accounts[id].reports|..];
    assert a.reports == e.accounts[id].reports + added;
    assert OwnReports(a.reports, ownerOf(id), id);
    forall k | 0 <= k < |added| ensures added[k].fill.account == id {
      assert OwnReport(a.reports[|e.accounts[id].reports| + k], ownerOf(id), id);
    }
    SetNotifies(e.accounts, e.notified, id, a, added);
  }

  /** When the callbacks only got clean sales, so did the account being replaced. */
  lemma CleanAccount(e: EngineState, id: Name, a: Account)
    requires Notifies(e.accounts, e.notified) && id in e.accounts && Grows(e.accounts[id], a)
    requires AllClean(Replace(e, id, a).notified)
    ensures AllClean(a.reports)
  {
    var before := e.accounts[id].reports;
    var added := a.reports[|before|..];
    assert (e.notified + added)[..|e.notified|] == e.notified;
    PrefixClean(e.notified, e.notified + added);
    OfAccountClean(e.notified, id);
    forall k | 0 <= k < |a.reports| ensures CleanSale(a.reports[k]) {
      if k < |before| {
        assert a.reports[k] == before[k];
      } else {
        assert (e.notified + added)[|e.notified| + k - |before|] == a.reports[k];
      }
    }
  }

  lemma {:induction false} AccountsExtend(e: EngineState, bars: Prices, k: nat, time: int)
    requires Consistent(e) && k <= |e.ids|
    ensures Extends(e, StepAccounts(e, bars, k, time))
    decreases |e.ids| - k
  {
    if k < |e.ids| {
      AccountsExtend(StepAccount(e, bars, k, time), bars, k + 1, time);
      ExtendsTransitive(e, StepAccount(e, bars, k, time), StepAccounts(e, bars, k, time));
    }
  }

  lemma ExtendsTransitive(e: EngineState, f: EngineState, g: EngineState)
    requires Extends(e, f) && Extends(f, g)
    ensures Extends(e, g)
  {
    assert g.notified[..|e.notified|] == f.notified[..|e.notified|];
  }

  /** One account's turn in a bar. */
  lemma TurnHolds(e: EngineState, p: Property, ownerOf: Name -> Owner, bars: Prices, k: nat,
      time: int, clock: int)
    requires SaneRates(e.cfg) && !e.cfg.allowShort && Inductive(e.cfg, p, ownerOf) && PositivePrices(bars)
    requires AllHold(e, p, clock) && clock <= time && k < |e.ids|
    requires AllClean(StepAccount(e, bars, k, time).notified)
    ensures AllHold(StepAccount(e, bars, k, time), p, time)
  {
    var id := e.ids[k];
    assert id in e.ids;
    var a := StepOrders(e.cfg, e.accounts[id], e.latest, bars, 0, time);
    CleanAccount(e, id, a);
    StepsHold(e.cfg, p, ownerOf, id, e.accounts[id], e.latest, bars, 0, time, clock);
    ReplaceHolds(e, p, ownerOf, clock, time, id, a);
  }

  lemma AllHoldLater(e: EngineState, p: Property, ownerOf: Name -> Owner, clock: int, time: int)
    requires Inductive(e.cfg, p, ownerOf) && AllHold(e, p, clock) && clock <= time
    ensures AllHold(e, p, time)
  {
  }

  /** A turn of a bar, if its sales are clean, keeps the invariant. */
  ghost predicate KeepsTurn(inv: (EngineState, int) -> bool, f: EngineState, bars: Prices, j: nat,
      time: int, c: int) {
    Consistent(f) && j < |f.ids| && inv(f, c) && c <= time && AllClean(StepAccount(f, bars, j, time).notified) ==>
      inv(StepAccount(f, bars, j, time), time)
  }

  /** What each turn of a bar keeps, all its turns keep. */
  lemma {:induction false} TurnsKeep(inv: (EngineState, int) -> bool, e: EngineState, bars: Prices, k: nat,
      time: int, clock: int)
    requires Consistent(e) && inv(e, clock) && clock <= time && k <= |e.ids|
    requires forall f, c :: inv(f, c) && c <= time ==> inv(f, time)
    requires forall f, j: nat, c :: KeepsTurn(inv, f, bars, j, time, c)
    requires AllClean(StepAccounts(e, bars, k, time).notified)
    ensures inv(StepAccounts(e, bars, k, time), time)
    decreases |e.ids| - k
  {
    if k < |e.ids| {
      var mid := StepAccount(e, bars, k, time);
      AccountsExtend(mid, bars, k + 1, time);
      PrefixClean(mid.notified, StepAccounts(e, bars, k, time).notified);
      assert KeepsTurn(inv, e, bars, k, time, clock);
      TurnsKeep(inv, mid, bars, k + 1, time, time);
    }
  }

  lemma AccountsHold(e: EngineState, p: Property, ownerOf: Name -> Owner, bars: Prices, time: int, clock: int)
    requires SaneRates(e.cfg) && !e.cfg.allowShort && Inductive(e.cfg, p, ownerOf) && PositivePrices(bars)
    requires AllHold(e, p, clock) && clock <= time
    requires AllClean(StepAccounts(e, bars, 0, time).notified)
    ensures AllHold(StepAccounts(e, bars, 0, time), p, time)
  {
    var cfg := e.cfg;
    var inv := (f: EngineState, c: int) => f.cfg == cfg && AllHold(f, p, c);
    forall f, c | inv(f, c) && c <= time ensures inv(f, time) {
      AllHoldLater(f, p, ownerOf, c, time);
    }
    forall f, j: nat, c ensures KeepsTurn(inv, f, bars, j, time, c) {
      if Consistent(f) && j < |f.ids| && inv(f, c) && c <= time && AllClean(StepAccount(f, bars, j, time).notified) {
        TurnHolds(f, p, ownerOf, bars, j, time, c);
      }
    }
    TurnsKeep(inv, e, bars, 0, time, clock);
  }

  /** One owner per account, times that never go back, no resets. */
  predicate Admissible(act: Action, ownerOf: Name -> Owner, clock: int) {
    match act
    case Place(o, now) => o.owner == ownerOf(o.account) && clock <= now
    case PlayBar(bars, time) => PositivePrices(bars) && clock <= time
    case Cancel(_, _) => true
    case Reset(_) => false
  }

  function Clock(act: Action, clock: int): int {
    match act
    case Place(_, now) => now
    case PlayBar(_, time) => time
    case _ => clock
  }

  ghost predicate AdmissibleRun(acts: seq<Action>, ownerOf: Name -> Owner, clock: int)
    decreases |acts|
  {
    |acts| == 0 || (Admissible(acts[0], ownerOf, clock) && AdmissibleRun(acts[1..], ownerOf, Clock(acts[0], clock)))
  }

  function LastClock(acts: seq<Action>, clock: int): int
    decreases |acts|
  {
    if |acts| == 0 then clock else LastClock(acts[1..], Clock(acts[0], clock))
  }

  lemma PlaceHolds(e: EngineState, p: Property, ownerOf: Name -> Owner, o: Order, now: int, clock: int)
    requires SaneRates(e.cfg) && !e.cfg.allowShort && Inductive(e.cfg, p, ownerOf)
    requires AllHold(e, p, clock) && clock <= now && o.owner == ownerOf(o.account)
    requires AllClean(PlaceOrder(e, o, now).notified)
    ensures AllHold(PlaceOrder(e, o, now), p, now)
  {
    var e1 := Ensure(e, o.account);
    if !Duplicate(e1.accounts[o.account], o) {
      var b := PlaceInAccount(e.cfg, e1.accounts[o.account], e.latest, o, now);
      CleanAccount(e1, o.account, b);
      PlacedHolds(e.cfg, p, ownerOf, e1.accounts[o.account], e.latest, o, now, clock);
      ReplaceHolds(e1, p, ownerOf, clock, now, o.account, b);
    }
  }

  lemma CancelHolds(e: EngineState, p: Property, ownerOf: Name -> Owner, account: Option<Name>,
      id: Name, clock: int)
    requires Inductive(e.cfg, p, ownerOf) && AllHold(e, p, clock)
    ensures AllHold(CancelOrder(e, account, id), p, clock)
  {
    var owner := Holder(e, account, id, 0);
    if owner.Some? {
      var b := CancelInAccount(e.accounts[owner.value], id);
      CanceledHolds(e.cfg, p, ownerOf, owner.value, e.accounts[owner.value], id, clock);
      ReplaceHolds(e, p, ownerOf, clock, clock, owner.value, b);
      assert Replace(e, owner.value, b) == CancelOrder(e, account, id);
    }
  }

  /** The marks while the orders of a bar are filled. */
  function Marks(e: EngineState, bars: Prices): (m: Prices)
    ensures PositivePrices(e.latest) && PositivePrices(bars) ==> PositivePrices(m)
  {
    e.latest + (if e.cfg.timing == NextOpen then OpenOnly(bars) else bars)
  }

  lemma BarHolds(e: EngineState, p: Property, ownerOf: Name -> Owner, bars: Prices, time: int, clock: int)
    requires SaneRates(e.cfg) && !e.cfg.allowShort && Inductive(e.cfg, p, ownerOf) && PositivePrices(bars)
    requires AllHold(e, p, clock) && clock <= time
    requires AllClean(OnBar(e, bars, time).notified)
    ensures AllHold(OnBar(e, bars, time), p, time)
  {
    AccountsHold(e.(latest := Marks(e, bars)), p, ownerOf, bars, time, clock);
  }

  lemma {:induction false} SameConfig(e: EngineState, bars: Prices, k: nat, time: int)
    requires Consistent(e) && k <= |e.ids|
    ensures StepAccounts(e, bars, k, time).cfg == e.cfg
    decreases |e.ids| - k
  {
    if k < |e.ids| {
      SameConfig(StepAccount(e, bars, k, time), bars, k + 1, time);
    }
  }

  lemma ApplyExtends(e: EngineState, act: Action)
    requires Consistent(e)
    ensures Extends(e, Apply(e, act))
  {
    match act
    case Place(o, now) =>
    case Cancel(account, id) =>
    case PlayBar(bars, time) =>
      var marked := e.(latest := e.latest + (if e.cfg.timing == NextOpen then OpenOnly(bars) else bars));
      AccountsExtend(marked, bars, 0, time);
    case Reset(account) =>
  }

  lemma {:induction false} RunExtends(e: EngineState, acts: seq<Action>)
    requires Consistent(e)
    ensures Extends(e, Run(e, acts))
    decreases |acts|
  {
    if |acts| > 0 {
      ApplyExtends(e, acts[0]);
      RunExtends(Apply(e, acts[0]), acts[1..]);
      ExtendsTransitive(e, Apply(e, acts[0]), Run(e, acts));
    }
  }

  lemma ApplyHolds(e: EngineState, p: Property, ownerOf: Name -> Owner, act: Action, clock: int)
    requires SaneRates(e.cfg) && !e.cfg.allowShort && Inductive(e.cfg, p, ownerOf)
    requires AllHold(e, p, clock) && Admissible(act, ownerOf, clock)
    requires AllClean(Apply(e, act).notified)
    ensures AllHold(Apply(e, act), p, Clock(act, clock)) && Apply(e, act).cfg == e.cfg
  {
    match act
    case Place(o, now) => PlaceHolds(e, p, ownerOf, o, now, clock);
    case Cancel(account, id) => CancelHolds(e, p, ownerOf, account, id, clock);
    case PlayBar(bars, time) =>
      BarHolds(e, p, ownerOf, bars, time, clock);
      SameConfig(e.(latest := Marks(e, bars)), bars, 0, time);
  }

  /** The principle: an inductive property holds of every account after every run whose
      sales leave no dust. */
  lemma {:induction false} EveryRunHolds(e: EngineState, p: Property, ownerOf: Name -> Owner,
      acts: seq<Action>, clock: int)
    requires SaneRates(e.cfg) && !e.cfg.allowShort && Inductive(e.cfg, p, ownerOf)
    requires AllHold(e, p, clock) && AdmissibleRun(acts, ownerOf, clock)
    requires AllClean(Run(e, acts).notified)
    ensures AllHold(Run(e, acts), p, LastClock(acts, clock)) && Run(e, acts).cfg == e.cfg
    decreases |acts|
  {
    if |acts| > 0 {
      var next := Apply(e, acts[0]);
      RunExtends(next, acts[1..]);
      PrefixClean(next.notified, Run(e, acts).notified);
      ApplyHolds(e, p, ownerOf, acts[0], clock);
      EveryRunHolds(next, p, ownerOf, acts[1..], Clock(acts[0], clock));
    }
  }
}
