/** The coupling of engine and ledger holds in every long-only run. */
module CoupledRuns {
  import opened BrokerModels
  import opened Positions
  import opened Engine
  import opened Ledger
  import opened Coupling
  import opened AccountInvariants

  function ScopeOf(owner: Owner, id: Name): Scope {
    Scope(Some(owner.session), Some(owner.strategy), Some(id))
  }

  /** The account is coupled to its records, all of one owner and in time order. */
  ghost predicate Linked(cfg: Config, owner: Owner, id: Name, a: Account, clock: int) {
    && Coupled(cfg, owner, id, a)
    && Gapped(cfg.commission, Log(a), ReconAll({}, Log(a)).executions)
    && OwnOrders(a.orders, owner, id)
    && OwnReports(a.reports, owner, id)
    && InTime(a.reports, clock)
  }

  ghost predicate InTime(rs: seq<FillReport>, clock: int) {
    && (forall k :: 0 <= k < |rs| ==> rs[k].fill.time <= clock)
    && (forall j, k :: 0 <= j < k < |rs| ==> rs[j].fill.time <= rs[k].fill.time)
  }

  ghost function LinkedTo(cfg: Config, ownerOf: Name -> Owner): Property {
    (id: Name, a: Account, clock: int) => Linked(cfg, ownerOf(id), id, a, clock)
  }

  lemma FillLinks(cfg: Config, owner: Owner, id: Name, a: Account, latest: Prices, i: nat,
      price: real, reference: real, time: int, clock: int)
    requires SaneRates(cfg) && Linked(cfg, owner, id, a, clock) && clock <= time && i < |a.orders| && price > 0.0
    requires LongFill(a.orders[i], a.book)
    requires AllClean(ExecuteFill(cfg, a, latest, i, price, reference, time).reports)
    ensures Linked(cfg, owner, id, ExecuteFill(cfg, a, latest, i, price, reference, time), time)
  {
    var after := ExecuteFill(cfg, a, latest, i, price, reference, time);
    FillShape(cfg, a, latest, i, price, reference, time);
    assert CleanSale(after.reports[|a.reports|]);
    FillCouples(cfg, owner, id, a, latest, i, price, reference, time);
    FillGaps(cfg, owner, id, a, latest, i, price, reference, time);
    OneMoreReport(a.reports, after.reports, owner, id, clock, time);
    SameOwners(a.orders, after.orders, owner, id);
  }

  lemma SameOwners(orders: seq<Order>, after: seq<Order>, owner: Owner, id: Name)
    requires OwnOrders(orders, owner, id) && |after| == |orders|
    requires forall j :: 0 <= j < |orders| ==>
      after[j].owner == orders[j].owner && after[j].account == orders[j].account
    ensures OwnOrders(after, owner, id)
  {
  }

  lemma OneMoreReport(rs: seq<FillReport>, after: seq<FillReport>, owner: Owner, id: Name,
      clock: int, time: int)
    requires OwnReports(rs, owner, id) && InTime(rs, clock) && clock <= time
    requires |after| == |rs| + 1 && after[..|rs|] == rs
    requires OwnReport(after[|rs|], owner, id) && after[|rs|].fill.time == time
    ensures OwnReports(after, owner, id) && InTime(after, time)
  {
    assert forall k :: 0 <= k < |rs| ==> after[k] == rs[k];
  }

  lemma FillShape(cfg: Config, a: Account, latest: Prices, i: nat, price: real, reference: real, time: int)
    requires i < |a.orders|
    ensures
      var after := ExecuteFill(cfg, a, latest, i, price, reference, time);
      && |after.reports| == |a.reports| + 1 && after.reports[..|a.reports|] == a.reports
      && OwnReport(after.reports[|a.reports|], a.orders[i].owner, a.orders[i].account)
      && after.reports[|a.reports|].fill.time == time
      && |after.orders| == |a.orders|
      && forall j :: 0 <= j < |a.orders| ==>
           after.orders[j].owner == a.orders[j].owner && after.orders[j].account == a.orders[j].account
  {
  }

  lemma HeldIsLong(cfg: Config, owner: Owner, id: Name, a: Account, ticker: Name)
    requires Coupled(cfg, owner, id, a)
    ensures Shares(a.book, ticker) >= 0.0
  {
    assert KeyCoupled(cfg.commission, Log(a), ReconAll({}, Log(a)), AccountKey(owner, id, ticker),
                      Shares(a.book, ticker), AvgCost(a.book, ticker));
  }

  lemma FreshLinks(cfg: Config, owner: Owner, id: Name, clock: int)
    ensures Linked(cfg, owner, id, FreshAccount(cfg), clock)
  {
    assert Log(FreshAccount(cfg)) == [];
    assert ReconAll({}, []) == NOTHING;
  }

  lemma OrdersLink(cfg: Config, owner: Owner, id: Name, a: Account, orders: seq<Order>, clock: int)
    requires Linked(cfg, owner, id, a, clock) && OwnOrders(orders, owner, id)
    ensures Linked(cfg, owner, id, a.(orders := orders), clock)
  {
    assert Log(a.(orders := orders)) == Log(a);
  }

  lemma LaterLinks(cfg: Config, ownerOf: Name -> Owner)
    ensures HoldsLater(LinkedTo(cfg, ownerOf))
  {
    var p := LinkedTo(cfg, ownerOf);
    forall id, a, clock, time | p(id, a, clock) && clock <= time ensures p(id, a, time) {
      assert Linked(cfg, ownerOf(id), id, a, clock);
    }
  }

  lemma FillsKeepLinks(cfg: Config, ownerOf: Name -> Owner)
    requires SaneRates(cfg)
    ensures KeptByFills(cfg, LinkedTo(cfg, ownerOf))
  {
    var p := LinkedTo(cfg, ownerOf);
    forall id, a, latest, i, price, reference, time, clock
      {:trigger p(id, a, clock), ExecuteFill(cfg, a, latest, i, price, reference, time)} |
      p(id, a, clock) && clock <= time && 0 <= i < |a.orders| && price > 0.0 && LongFill(a.orders[i], a.book)
      && AllClean(ExecuteFill(cfg, a, latest, i, price, reference, time).reports)
      ensures p(id, ExecuteFill(cfg, a, latest, i, price, reference, time), time)
    {
      FillLinks(cfg, ownerOf(id), id, a, latest, i, price, reference, time, clock);
    }
  }

  lemma OrdersKeepLinks(cfg: Config, ownerOf: Name -> Owner)
    ensures IgnoresOrders(LinkedTo(cfg, ownerOf), ownerOf)
  {
    var p := LinkedTo(cfg, ownerOf);
    forall id, a, orders, clock | p(id, a, clock) && OwnOrders(orders, ownerOf(id), id)
      ensures p(id, a.(orders := orders), clock)
    {
      OrdersLink(cfg, ownerOf(id), id, a, orders, clock);
    }
  }

  lemma LinkedDescribes(cfg: Config, ownerOf: Name -> Owner)
    ensures Describes(LinkedTo(cfg, ownerOf), ownerOf)
  {
    var p := LinkedTo(cfg, ownerOf);
    forall id, a, clock | p(id, a, clock)
      ensures OwnOrders(a.orders, ownerOf(id), id) && OwnReports(a.reports, ownerOf(id), id)
      ensures forall t :: Shares(a.book, t) >= 0.0
    {
      forall t ensures Shares(a.book, t) >= 0.0 {
        HeldIsLong(cfg, ownerOf(id), id, a, t);
      }
    }
  }

  /** The coupling is one of the properties every run keeps. */
  lemma LinkedIsInductive(cfg: Config, ownerOf: Name -> Owner)
    requires SaneRates(cfg)
    ensures Inductive(cfg, LinkedTo(cfg, ownerOf), ownerOf)
  {
    forall id, clock ensures LinkedTo(cfg, ownerOf)(id, FreshAccount(cfg), clock) {
      FreshLinks(cfg, ownerOf(id), id, clock);
    }
    LaterLinks(cfg, ownerOf);
    FillsKeepLinks(cfg, ownerOf);
    OrdersKeepLinks(cfg, ownerOf);
    LinkedDescribes(cfg, ownerOf);
  }
}
