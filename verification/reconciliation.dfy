/** What the ledger reports about an account after any long-only run, in terms of the
    engine's cash, positions and marks. */
module Reconciliation {
  import opened BrokerModels
  import opened Positions
  import opened Pricing
  import opened Engine
  import opened EngineLaws
  import opened FillLaws
  import opened Ledger
  import opened LedgerLaws
  import opened Coupling
  import opened AccountInvariants
  import opened CoupledRuns

  // ---- from the shared fill log to one account -----------------------------------

  lemma {:induction false} ScopeKeepsLatest(log: seq<Record>, scope: Scope, key: Key)
    requires InScope(scope, Owner(key.strategy, key.session), key.account)
    ensures LatestPosition(LoadFills(log, scope), key) == LatestPosition(log, key)
    decreases |log|
  {
    if |log| > 0 {
      ScopeKeepsLatest(log[..|log| - 1], scope, key);
      var rest := LoadFills(log[..|log| - 1], scope);
      assert (rest + [log[|log| - 1]])[..|rest|] == rest;
    }
  }

  /** Each account has one owner. */
  ghost predicate Owned(rs: seq<FillReport>, id: Name, owner: Owner) {
    forall k :: 0 <= k < |rs| && rs[k].fill.account == id ==> rs[k].fill.owner == owner
  }

  /** The records in the account's scope are the records of its own reports. */
  lemma {:induction false} ScopeIsAccount(rs: seq<FillReport>, id: Name, owner: Owner)
    requires Owned(rs, id, owner)
    ensures LoadFills(RecordFills([], rs), ScopeOf(owner, id)) == RecordFills([], OfAccount(rs, id))
    decreases |rs|
  {
    if |rs| > 0 {
      var front, r := rs[..|rs| - 1], rs[|rs| - 1];
      ScopeIsAccount(front, id, owner);
      var log := RecordFills([], front);
      assert RecordFills([], rs)[..|log|] == log;
      if r.fill.account == id {
        ScopeKeepsLatest(log, ScopeOf(owner, id), FillKey(r.fill, r.ticker));
        assert (OfAccount(front, id) + [r])[..|OfAccount(front, id)|] == OfAccount(front, id);
      }
    }
  }

  lemma {:induction false} OfAccountOwned(rs: seq<FillReport>, id: Name, owner: Owner)
    requires forall k :: 0 <= k < |OfAccount(rs, id)| ==> OfAccount(rs, id)[k].fill.owner == owner
    ensures Owned(rs, id, owner)
    decreases |rs|
  {
    if |rs| > 0 {
      var front := rs[..|rs| - 1];
      forall k | 0 <= k < |OfAccount(front, id)| ensures OfAccount(front, id)[k].fill.owner == owner {
        assert OfAccount(rs, id)[k] == OfAccount(front, id)[k];
      }
      OfAccountOwned(front, id, owner);
      forall k | 0 <= k < |rs| && rs[k].fill.account == id ensures rs[k].fill.owner == owner {
        if k < |rs| - 1 {
          assert rs[k] == front[k];
        } else {
          assert OfAccount(rs, id)[|OfAccount(front, id)|] == rs[k];
        }
      }
    }
  }

  /** The record holds the position, cash and equity the callback was told. */
  predicate Keeps(x: Record, r: FillReport) {
    && x.sharesAfter == r.sharesAfter && x.avgCostAfter == r.avgCostAfter
    && x.cashAfter == r.cashAfter && x.equityAfter == r.equityAfter
  }

  lemma {:induction false} RecordsInOrder(rs: seq<FillReport>)
    ensures |RecordFills([], rs)| == |rs|
    ensures forall k :: 0 <= k < |rs| ==> RecordFills([], rs)[k].fill == rs[k].fill
    ensures forall k :: 0 <= k < |rs| ==> RecordFills([], rs)[k].ticker == rs[k].ticker
    ensures forall k :: 0 <= k < |rs| ==> Keeps(RecordFills([], rs)[k], rs[k])
    decreases |rs|
  {
    if |rs| > 0 {
      RecordsInOrder(rs[..|rs| - 1]);
    }
  }

  /** What `_reconstruct_long_only_episodes` works on for one account. */
  function AccountRecon(a: Account): Recon {
    ReconAll({}, Log(a))
  }

  lemma ScopeLoads(e: EngineState, owner: Owner, clock: int, id: Name)
    requires Notifies(e.accounts, e.notified) && id in e.accounts
    requires Linked(e.cfg, owner, id, e.accounts[id], clock)
    ensures LoadFills(RecordFills([], e.notified), ScopeOf(owner, id)) == Log(e.accounts[id])
  {
    var a := e.accounts[id];
    assert OfAccount(e.notified, id) == a.reports;
    assert forall k :: 0 <= k < |a.reports| ==> OwnReport(a.reports[k], owner, id);
    OfAccountOwned(e.notified, id, owner);
    ScopeIsAccount(e.notified, id, owner);
  }

  lemma ScopedReconstruction(e: EngineState, owner: Owner, clock: int, id: Name)
    requires Notifies(e.accounts, e.notified) && id in e.accounts
    requires Linked(e.cfg, owner, id, e.accounts[id], clock)
    ensures Reconstruct(RecordFills([], e.notified), ScopeOf(owner, id)) == AccountRecon(e.accounts[id])
  {
    ScopeLoads(e, owner, clock, id);
    SortedAccount(e.cfg, owner, id, e.accounts[id], clock);
  }

  lemma SortedAccount(cfg: Config, owner: Owner, id: Name, a: Account, clock: int)
    requires Linked(cfg, owner, id, a, clock)
    ensures SortByTime(Log(a)) == Log(a)
    ensures ShortKeys(Log(a)) == {}
  {
    RecordsInOrder(a.reports);
    SortedIsFixed(Log(a));
  }

  // ---- one account ---------------------------------------------------------------

  lemma {:induction false} TotalMinus(book: Book, f: Position -> real, g: Position -> real,
      h: Position -> real)
    requires forall i :: 0 <= i < |book| ==> h(book[i]) == f(book[i]) - g(book[i])
    ensures Total(book, h) == Total(book, f) - Total(book, g)
  {
    if |book| > 0 {
      assert forall i :: 0 <= i < |book[1..]| ==> book[1..][i] == book[i + 1];
      TotalMinus(book[1..], f, g, h);
    }
  }

  /** The unrealized P&L the ledger reports for a position at the current mark. */
  function Unrealized(executions: seq<Record>, latest: Prices, p: Position): real {
    match OpenPosition(executions, p.ticker, MarkPrice(latest, p.ticker, p.avgCost))
    case None => 0.0
    case Some(x) => x.unrealizedPnl
  }

  ghost function UnrealizedOf(executions: seq<Record>, latest: Prices): Position -> real {
    (p: Position) => Unrealized(executions, latest, p)
  }

  lemma CoupledKey(cfg: Config, owner: Owner, id: Name, a: Account, ticker: Name)
    requires Coupled(cfg, owner, id, a)
    ensures KeyCoupled(cfg.commission, Log(a), AccountRecon(a), AccountKey(owner, id, ticker),
                       Shares(a.book, ticker), AvgCost(a.book, ticker))
  {
  }

  /** Reported for an open position: its basis is the engine's average cost plus the
      buying commission, and its P&L is the mark less that basis, per share. */
  lemma OpenPositionIs(cfg: Config, owner: Owner, id: Name, a: Account, ticker: Name, mark: real)
    requires Coupled(cfg, owner, id, a)
    ensures OpenPosition(AccountRecon(a).executions, ticker, mark)
         == if Shares(a.book, ticker) > 0.0
            then Some(OpenAccounting(Times(1.0 + cfg.commission, AvgCost(a.book, ticker)),
                                     Times(mark - Times(1.0 + cfg.commission, AvgCost(a.book, ticker)),
                                           Shares(a.book, ticker))))
            else None
  {
    CoupledKey(cfg, owner, id, a, ticker);
  }

  lemma MarkLessCarry(cfg: Config, owner: Owner, id: Name, a: Account, latest: Prices, i: nat)
    requires Coupled(cfg, owner, id, a) && i < |a.book|
    ensures Unrealized(AccountRecon(a).executions, latest, a.book[i])
         == MarkedValue(latest, a.book[i]) - Carry(cfg.commission, a.book[i].avgCost, a.book[i].shares)
  {
    var p := a.book[i];
    IndexOfUnique(a.book, i);
    HeldIsLong(cfg, owner, id, a, p.ticker);
    var mark := MarkPrice(latest, p.ticker, p.avgCost);
    OpenPositionIs(cfg, owner, id, a, p.ticker, mark);
    SpreadOver(mark, Times(1.0 + cfg.commission, p.avgCost), p.shares);
    Associate(1.0 + cfg.commission, p.avgCost, p.shares);
  }

  /** Equity is the initial cash, what the reconstruction realized, and what its open
      positions are worth over their reconstructed basis. */
  lemma EquitySplits(cfg: Config, owner: Owner, id: Name, a: Account, latest: Prices)
    requires Coupled(cfg, owner, id, a)
    ensures Equity(a, latest) == cfg.initialCash + RealizedTotal(AccountRecon(a).executions)
                               + Total(a.book, UnrealizedOf(AccountRecon(a).executions, latest))
  {
    var value := (p: Position) => MarkedValue(latest, p);
    var open := UnrealizedOf(AccountRecon(a).executions, latest);
    MarketValueIsTotal(a.book, latest, value);
    forall i | 0 <= i < |a.book| ensures open(a.book[i]) == value(a.book[i]) - CarryOf(cfg.commission)(a.book[i]) {
      MarkLessCarry(cfg, owner, id, a, latest, i);
    }
    TotalMinus(a.book, value, CarryOf(cfg.commission), open);
  }

  // ---- every run -------------------------------------------------------------------

  /** A long-only run in which every account trades for one owner. */
  ghost predicate LongOnlyRun(cfg: Config, ownerOf: Name -> Owner, acts: seq<Action>, clock: int) {
    && SaneRates(cfg) && !cfg.allowShort
    && AdmissibleRun(acts, ownerOf, clock)
    && AllClean(Run(InitialState(cfg), acts).notified)
  }

  /** What the trade ledger has recorded after the run. */
  function LedgerAfter(cfg: Config, acts: seq<Action>): seq<Record> {
    RecordFills([], Run(InitialState(cfg), acts).notified)
  }

  lemma RunLinks(cfg: Config, ownerOf: Name -> Owner, acts: seq<Action>, clock: int, id: Name)
    requires LongOnlyRun(cfg, ownerOf, acts, clock)
    requires id in Run(InitialState(cfg), acts).accounts
    ensures
      var e := Run(InitialState(cfg), acts);
      && e.cfg == cfg
      && Notifies(e.accounts, e.notified)
      && Linked(cfg, ownerOf(id), id, e.accounts[id], LastClock(acts, clock))
  {
    LinkedIsInductive(cfg, ownerOf);
    var p := LinkedTo(cfg, ownerOf);
    EveryRunHolds(InitialState(cfg), p, ownerOf, acts, clock);
    assert p(id, Run(InitialState(cfg), acts).accounts[id], LastClock(acts, clock));
  }

  /** Whole-run reconciliation: the account's equity at any marks the run leaves is the
      initial cash plus all realized P&L plus, for each open position, the P&L that
      `open_long_position_accounting` reports. */
  lemma EveryRunReconciles(cfg: Config, ownerOf: Name -> Owner, acts: seq<Action>, clock: int, id: Name)
    requires LongOnlyRun(cfg, ownerOf, acts, clock)
    requires id in Run(InitialState(cfg), acts).accounts
    ensures
      var e := Run(InitialState(cfg), acts);
      var s := Reconstruct(LedgerAfter(cfg, acts), ScopeOf(ownerOf(id), id));
      Equity(e.accounts[id], e.latest)
        == cfg.initialCash + RealizedTotal(s.executions)
           + Total(e.accounts[id].book, UnrealizedOf(s.executions, e.latest))
  {
    var e := Run(InitialState(cfg), acts);
    RunLinks(cfg, ownerOf, acts, clock, id);
    ScopedReconstruction(e, ownerOf(id), LastClock(acts, clock), id);
    EquitySplits(cfg, ownerOf(id), id, e.accounts[id], e.latest);
  }

  /** An episode is open exactly while shares are held, for those shares, its cost is
      the engine's average cost plus commission, and closed trades are round trips. */
  ghost predicate FoldsAgreeOn(c: real, s: Recon, key: Key, n: real, avg: real) {
    && (key in s.open <==> n > 0.0)
    && (key in s.open ==>
          && s.open[key].remainingQty == n
          && s.open[key].remainingCost == Times(1.0 + c, Times(avg, n)))
    && AllRoundTrips(s, key)
  }

  lemma CoupledFolds(c: real, log: seq<Record>, s: Recon, key: Key, n: real, avg: real)
    requires KeyCoupled(c, log, s, key, n, avg)
    ensures FoldsAgreeOn(c, s, key, n, avg)
  {
  }

  /** The two average-cost folds agree, per ticker, in every reachable state. */
  lemma FoldsAgree(cfg: Config, ownerOf: Name -> Owner, acts: seq<Action>, clock: int, id: Name, ticker: Name)
    requires LongOnlyRun(cfg, ownerOf, acts, clock)
    requires id in Run(InitialState(cfg), acts).accounts
    ensures
      var book := Run(InitialState(cfg), acts).accounts[id].book;
      var s := Reconstruct(LedgerAfter(cfg, acts), ScopeOf(ownerOf(id), id));
      FoldsAgreeOn(cfg.commission, s, AccountKey(ownerOf(id), id, ticker), Shares(book, ticker), AvgCost(book, ticker))
  {
    var e := Run(InitialState(cfg), acts);
    var a := e.accounts[id];
    RunLinks(cfg, ownerOf, acts, clock, id);
    ScopedReconstruction(e, ownerOf(id), LastClock(acts, clock), id);
    CoupledKey(cfg, ownerOf(id), id, a, ticker);
    CoupledFolds(cfg.commission, Log(a), AccountRecon(a), AccountKey(ownerOf(id), id, ticker),
                 Shares(a.book, ticker), AvgCost(a.book, ticker));
  }

  /** Record by record, reconstructed P&L is recorded P&L less the commission rate times
      the engine's average cost of the shares closed. */
  lemma RecordedPnlReconciles(cfg: Config, ownerOf: Name -> Owner, acts: seq<Action>, clock: int, id: Name)
    requires LongOnlyRun(cfg, ownerOf, acts, clock)
    requires id in Run(InitialState(cfg), acts).accounts
    ensures
      var log := LedgerAfter(cfg, acts);
      var scope := ScopeOf(ownerOf(id), id);
      Gapped(cfg.commission, LoadFills(log, scope), Reconstruct(log, scope).executions)
  {
    var e := Run(InitialState(cfg), acts);
    RunLinks(cfg, ownerOf, acts, clock, id);
    ScopedReconstruction(e, ownerOf(id), LastClock(acts, clock), id);
    ScopeLoads(e, ownerOf(id), LastClock(acts, clock), id);
  }
}
