/** The backtest runner object (broker/backtest_runner.py): it drives a broker and a
    ledger that may hold anything from earlier runs, and produces what `Simulation` says. */
module Runners {
  import opened BrokerModels
  import opened Positions
  import opened Pricing
  import opened Engine
  import opened Ledger
  import opened TradeLedgers
  import opened Coupling
  import opened AccountInvariants
  import opened CoupledRuns
  import opened Reconciliation
  import opened Sizing
  import opened Schedule
  import opened Simulation
  import opened SimulationFills
  import opened SimulationLaws
  import opened RunnerRefinement
  import opened BrokerEngine
  import SimulationRuns
  import OrderLaws
  import EngineLaws
  import Drawdown
  import SimulationLedger
  import FillLaws

  datatype EndPosition = EndPosition(shares: real, marketValue: real, basis: real, unrealizedPnl: real)

  datatype Report = Report(
    decisions: seq<Decision>,
    unfilled: seq<Unfilled>,
    moves: seq<Move>,
    progress: Progress,
    portfolio: seq<Snapshot>,
    orders: seq<Order>,
    rejections: nat,
    executions: seq<Record>,
    closed: seq<ClosedTrade>,
    metrics: Metrics,
    endPosition: EndPosition)

  datatype RunResult = Finished(report: Report) | Failed(error: RunError)

  // ---- small facts about logs --------------------------------------------------------

  lemma {:induction false} NoFillsInScope(log: seq<Record>, owner: Owner, account: Name)
    requires forall k :: 0 <= k < |log| ==> log[k].fill.owner.session != owner.session
    ensures LoadFills(log, ScopeOf(owner, account)) == []
    decreases |log|
  {
    if |log| > 0 {
      NoFillsInScope(log[..|log| - 1], owner, account);
    }
  }

  /** All of a session, whoever's it is. */
  function SessionScope(owner: Owner): Scope {
    Scope(Some(owner.session), None, None)
  }

  lemma {:induction false} NoSnapshotsInScope(log: seq<Snapshot>, owner: Owner, account: Name)
    requires forall k :: 0 <= k < |log| ==> log[k].owner.session != owner.session
    ensures LoadSnapshots(log, ScopeOf(owner, account)) == [] == LoadSnapshots(log, SessionScope(owner))
    decreases |log|
  {
    if |log| > 0 {
      NoSnapshotsInScope(log[..|log| - 1], owner, account);
    }
  }

  lemma SnapshotAppends(log: seq<Snapshot>, s: Snapshot, owner: Owner, account: Name)
    requires s.owner == owner && s.account == account
    ensures LoadSnapshots(log + [s], ScopeOf(owner, account)) == LoadSnapshots(log, ScopeOf(owner, account)) + [s]
    ensures LoadSnapshots(log + [s], SessionScope(owner)) == LoadSnapshots(log, SessionScope(owner)) + [s]
  {
    assert (log + [s])[..|log|] == log;
  }

  lemma {:induction false} OfSessionOwned(rs: seq<FillReport>, owner: Owner, account: Name)
    requires OwnReports(OfSession(rs, owner.session), owner, account)
    ensures OneOwner(rs, owner, account)
    decreases |rs|
  {
    if |rs| > 0 {
      var front, last := rs[..|rs| - 1], rs[|rs| - 1];
      var own := OfSession(front, owner.session);
      forall k | 0 <= k < |own| ensures OwnReport(own[k], owner, account) {
        assert OfSession(rs, owner.session)[k] == own[k];
      }
      OfSessionOwned(front, owner, account);
      forall k | 0 <= k < |rs| && rs[k].fill.owner.session == owner.session ensures OwnReport(rs[k], owner, account) {
        if k < |front| {
          assert rs[k] == front[k];
        } else {
          assert OfSession(rs, owner.session)[|own|] == last;
        }
      }
    }
  }

  lemma {:induction false} AllOfSession(rs: seq<FillReport>, owner: Owner, account: Name)
    requires OwnReports(rs, owner, account)
    ensures OfSession(rs, owner.session) == rs
    decreases |rs|
  {
    if |rs| > 0 {
      assert OwnReport(rs[|rs| - 1], owner, account);
      assert OwnReports(rs[..|rs| - 1], owner, account);
      AllOfSession(rs[..|rs| - 1], owner, account);
      assert rs == rs[..|rs| - 1] + [rs[|rs| - 1]];
    }
  }

  lemma Cancel<T>(front: seq<T>, xs: seq<T>, ys: seq<T>)
    requires front + xs == front + ys
    ensures xs == ys
  {
    assert xs == (front + xs)[|front|..];
    assert ys == (front + ys)[|front|..];
  }

  /** The new reports of a session are the account's own. */
  lemma AddedAreOwn(added: seq<FillReport>, a: Account, after: Account, owner: Owner, account: Name)
    requires |a.reports| <= |after.reports| && after.reports[..|a.reports|] == a.reports
    requires OwnReports(after.reports, owner, account)
    requires OfSession(added, owner.session) == OfSession(after.reports[|a.reports|..], owner.session)
    ensures OfSession(added, owner.session) == after.reports[|a.reports|..]
    ensures OneOwner(added, owner, account)
  {
    var own := after.reports[|a.reports|..];
    forall k | 0 <= k < |own| ensures OwnReport(own[k], owner, account) {
      assert own[k] == after.reports[|a.reports| + k];
    }
    AllOfSession(own, owner, account);
    OfSessionOwned(added, owner, account);
  }

  lemma AddedOfSession(was: seq<FillReport>, added: seq<FillReport>, own: seq<FillReport>, session: Name)
    requires OfSession(was + added, session) == OfSession(was, session) + OfSession(own, session)
    ensures OfSession(added, session) == OfSession(own, session)
  {
    OfSessionSplit(was, added, session);
    Cancel(OfSession(was, session), OfSession(added, session), OfSession(own, session));
  }

  /** Recording the account's new reports, among others, in the scope of this run. */
  lemma ScopeAfterFills(log: seq<Record>, added: seq<FillReport>, a: Account, after: Account, own: seq<FillReport>,
      owner: Owner, account: Name)
    requires after.reports == a.reports + own && OwnReports(after.reports, owner, account)
    requires OfSession(added, owner.session) == OfSession(own, owner.session)
    requires LoadFills(log, ScopeOf(owner, account)) == Log(a)
    ensures LoadFills(RecordFills(log, added), ScopeOf(owner, account)) == Log(after)
  {
    assert after.reports[|a.reports|..] == own && after.reports[..|a.reports|] == a.reports;
    AddedAreOwn(added, a, after, owner, account);
    ScopeSkipsOthers(log, added, owner, account);
    RecordFillsSplit([], a.reports, own);
  }

  /** What the callbacks of one bar add to the ledger, in the scope of this run. */
  lemma ScopeAfterBar(log: seq<Record>, was: seq<FillReport>, now: seq<FillReport>, a: Account,
      after: Account, owner: Owner, account: Name)
    requires |was| <= |now| && now[..|was|] == was
    requires |a.reports| <= |after.reports| && after.reports[..|a.reports|] == a.reports
    requires OwnReports(after.reports, owner, account)
    requires OfSession(now, owner.session)
         == OfSession(was, owner.session) + OfSession(after.reports[|a.reports|..], owner.session)
    requires LoadFills(log, ScopeOf(owner, account)) == Log(a)
    ensures LoadFills(RecordFills(log, now[|was|..]), ScopeOf(owner, account)) == Log(after)
  {
    var added, own := now[|was|..], after.reports[|a.reports|..];
    assert now == was + added && after.reports == a.reports + own;
    AddedOfSession(was, added, own, owner.session);
    ScopeAfterFills(log, added, a, after, own, owner, account);
  }

  /** All orders of the account are of the session. */
  ghost predicate Mine(a: Account, session: Name) {
    forall k :: 0 <= k < |a.orders| ==> a.orders[k].owner.session == session
  }

  lemma OwnAfter<S>(run: Setup, sim: Sim<S>, placement: Placement, row: Row)
    requires GoodSetup(run) && Sound(run, sim) && row.bar.open > 0.0
    requires placement == Place(run, sim.account, sim.pending, row)
    ensures
      var after := AccountAfter(run, sim.account, placement, row);
      && |sim.account.reports| <= |after.reports| && after.reports[..|sim.account.reports|] == sim.account.reports
      && OwnReports(after.reports, run.owner, run.account)
      && Mine(after, run.owner.session)
  {
    AtOpenKeepsSound(run, sim, row);
    var after := AtOpen(run, sim, row).account;
    forall k | 0 <= k < |after.reports| ensures OwnReport(after.reports[k], run.owner, run.account) {
      assert OrderLaws.Reports(after.reports[k], after.orders[k]);
    }
  }

  /** What the broker and the scoped ledger look like after a bar. */
  ghost predicate BarPlayed(run: Setup, a: Account, after: Account, e: EngineState, r: EngineState,
      bar: Bar) {
    && r.cfg == run.cfg && run.account in r.accounts && r.accounts[run.account] == after
    && OthersForeign(r, run.account, run.owner.session)
    && run.ticker in r.latest && r.latest[run.ticker] == bar
    && |a.reports| <= |after.reports|
    && OfSession(r.notified, run.owner.session)
         == OfSession(e.notified, run.owner.session) + OfSession(after.reports[|a.reports|..], run.owner.session)
  }

  /** A bar with a queued order fills it. */
  lemma OrderedBar(run: Setup, a: Account, o: Order, e: EngineState, bar: Bar, time: int,
      target: real, want: int)
    requires GoodSetup(run) && Steady(run, a) && bar.open > 0.0 && TargetAllowed(run, target)
    requires Moves(run, a, o, want) && o.status == New
    requires WithinTarget(Buying(run.cfg, bar.open), Selling(run.cfg, bar.open), bar.open,
                          PrefillEquity(a, run.ticker, bar.open), target / 100.0, Have(a, run.ticker), want)
    requires Consistent(e) && e.cfg == run.cfg && run.account in e.accounts
    requires OthersForeign(e, run.account, run.owner.session)
    requires e.accounts[run.account] == a.(orders := a.orders + [o])
    ensures BarPlayed(run, a, FillAtOpen(run, a, o, bar.open, time), e, OnBar(e, map[run.ticker := bar], time), bar)
  {
    var bars := map[run.ticker := bar];
    BarIsolated(e, bars, time, run.account, run.owner.session);
    QueuedOrderFills(run, a, o, e.latest + OpenOnly(bars), bars, time, target, want);
    FillAppends(run, a, o, bar.open, time);
  }

  /** A bar without one leaves the account alone. */
  lemma QuietBar(run: Setup, a: Account, e: EngineState, bar: Bar, time: int)
    requires GoodSetup(run) && Steady(run, a)
    requires Consistent(e) && e.cfg == run.cfg && run.account in e.accounts
    requires OthersForeign(e, run.account, run.owner.session)
    requires e.accounts[run.account] == a
    ensures BarPlayed(run, a, a, e, OnBar(e, map[run.ticker := bar], time), bar)
  {
    var bars := map[run.ticker := bar];
    BarIsolated(e, bars, time, run.account, run.owner.session);
    SkipsTo(run.cfg, a, e.latest + OpenOnly(bars), bars, 0, |a.orders|, time);
  }

  function WithOrder(a: Account, o: Order): Account {
    a.(orders := a.orders + [o])
  }

  /** The account while its order, if any, waits for the open. */
  function Queued(a: Account, placement: Placement): Account {
    if placement.Ordered? then WithOrder(a, placement.order) else a
  }

  /** A bar played by the broker leaves the account and the ledger where the simulation
      puts them. */
  lemma BarTracks<S>(run: Setup, sim: Sim<S>, e: EngineState, log: seq<Record>, row: Row,
      placement: Placement)
    requires GoodSetup(run) && Sound(run, sim) && row.bar.open > 0.0
    requires Consistent(e) && e.cfg == run.cfg && run.account in e.accounts
    requires OthersForeign(e, run.account, run.owner.session)
    requires placement == Place(run, sim.account, sim.pending, row)
    requires e.accounts[run.account] == Queued(sim.account, placement)
    requires LoadFills(log, ScopeOf(run.owner, run.account)) == Log(sim.account)
    ensures
      var r := OnBar(e, map[run.ticker := row.bar], row.date);
      var after := AccountAfter(run, sim.account, placement, row);
      && BarPlayed(run, sim.account, after, e, r, row.bar)
      && Extends(e, r)
      && LoadFills(RecordFills(log, r.notified[|e.notified|..]), ScopeOf(run.owner, run.account)) == Log(after)
  {
    var bars := map[run.ticker := row.bar];
    if placement.Ordered? {
      var o, want := PlacedOrder(run, sim.account, sim.pending.value, row);
      OrderedBar(run, sim.account, o, e, row.bar, row.date, sim.pending.value.target, want);
    } else {
      QuietBar(run, sim.account, e, row.bar, row.date);
    }
    ApplyExtends(e, EngineLaws.PlayBar(bars, row.date));
    OwnAfter(run, sim, placement, row);
    ScopeAfterBar(log, e.notified, OnBar(e, bars, row.date).notified, sim.account,
                  AccountAfter(run, sim.account, placement, row), run.owner, run.account);
  }

  lemma OwnReportsForeign(rs: seq<FillReport>, owner: Owner, account: Name, session: Name)
    requires OwnReports(rs, owner, account) && session != owner.session
    ensures ForeignReports(rs, session)
  {
    forall k | 0 <= k < |rs| ensures rs[k].fill.owner.session != session {
      assert OwnReport(rs[k], owner, account);
    }
  }

  /** A bar of the run leaves a session that has not been used unused. */
  lemma BarSparesOthers<S>(run: Setup, sim: Sim<S>, e: EngineState, log: seq<Record>, row: Row,
      placement: Placement, session: Name)
    requires GoodSetup(run) && Sound(run, sim) && row.bar.open > 0.0 && session != run.owner.session
    requires Consistent(e) && e.cfg == run.cfg && run.account in e.accounts
    requires placement == Place(run, sim.account, sim.pending, row)
    requires Spared(e, log, run.account, session)
    requires
      var r := OnBar(e, map[run.ticker := row.bar], row.date);
      BarPlayed(run, sim.account, AccountAfter(run, sim.account, placement, row), e, r, row.bar) && Extends(e, r)
    ensures Mine(OnBar(e, map[run.ticker := row.bar], row.date).accounts[run.account], run.owner.session)
    ensures
      var r := OnBar(e, map[run.ticker := row.bar], row.date);
      Spared(r, RecordFills(log, r.notified[|e.notified|..]), run.account, session)
  {
    OwnAfter(run, sim, placement, row);
    OwnReportsForeign(AccountAfter(run, sim.account, placement, row).reports, run.owner, run.account, session);
    BarSpares(e, log, map[run.ticker := row.bar], row.date, run.account, session);
  }

  /** Broker and fill log are where the simple run is after a bar: the account and its
      records, its own orders only, and the other sessions unused. */
  ghost predicate BarLeft<S>(run: Setup, after: Sim<S>, e: EngineState, log: seq<Record>, bar: Bar,
      others: iset<Name>)
  {
    && Consistent(e) && e.cfg == run.cfg
    && run.account in e.accounts && e.accounts[run.account] == after.account
    && run.ticker in e.latest && e.latest[run.ticker] == bar
    && OthersForeign(e, run.account, run.owner.session) && Mine(after.account, run.owner.session)
    && LoadFills(log, ScopeOf(run.owner, run.account)) == Log(after.account)
    && run.owner.session !in others
    && forall session :: session in others ==> Spared(e, log, run.account, session)
  }

  /** The simple run once the bar's open is over. */
  function AfterOpening<S>(run: Setup, sim: Sim<S>, placement: Placement, row: Row): Sim<S> {
    sim.(account := AccountAfter(run, sim.account, placement, row))
  }

  /** The broker's bar, with the placement queued, ends there. */
  lemma BarLeaves<S>(run: Setup, sim: Sim<S>, e: EngineState, log: seq<Record>, row: Row,
      placement: Placement, others: iset<Name>)
    requires GoodSetup(run) && Sound(run, sim) && row.bar.open > 0.0 && run.owner.session !in others
    requires Consistent(e) && e.cfg == run.cfg && run.account in e.accounts
    requires OthersForeign(e, run.account, run.owner.session)
    requires placement == Place(run, sim.account, sim.pending, row)
    requires e.accounts[run.account] == Queued(sim.account, placement)
    requires LoadFills(log, ScopeOf(run.owner, run.account)) == Log(sim.account)
    requires forall session :: session in others ==> Spared(e, log, run.account, session)
    ensures
      var r := OnBar(e, map[run.ticker := row.bar], row.date);
      && |e.notified| <= |r.notified|
      && BarLeft(run, AfterOpening(run, sim, placement, row), r, RecordFills(log, r.notified[|e.notified|..]),
           row.bar, others)
  {
    BarTracks(run, sim, e, log, row, placement);
    OwnAfter(run, sim, placement, row);
    forall session | session in others
      ensures
        var r := OnBar(e, map[run.ticker := row.bar], row.date);
        Spared(r, RecordFills(log, r.notified[|e.notified|..]), run.account, session)
    {
      BarSparesOthers(run, sim, e, log, row, placement, session);
    }
  }

  /** The account's equity at the broker's marks is its equity at this close. */
  lemma SameCloseEquity(run: Setup, a: Account, row: Row, latest: Prices)
    requires Steady(run, a) && run.ticker in latest && latest[run.ticker] == row.bar
    ensures Equity(a, latest) == CloseEquity(run, a, row)
    ensures Find(a.book, run.ticker) == None <==> Shares(a.book, run.ticker) == 0.0
    ensures Find(a.book, run.ticker).Some? ==> Find(a.book, run.ticker).value.shares == Shares(a.book, run.ticker)
  {
    OneTickerValue(a.book, run.ticker, latest);
    OneTickerValue(a.book, run.ticker, map[run.ticker := row.bar]);
    FillLaws.FoundIsHeld(a.book, run.ticker);
  }

  lemma ScopeReconstructs(run: Setup, log: seq<Record>, a: Account, clock: int)
    requires Linked(run.cfg, run.owner, run.account, a, clock)
    requires LoadFills(log, ScopeOf(run.owner, run.account)) == Log(a)
    ensures Reconstruct(log, ScopeOf(run.owner, run.account)) == AccountRecon(a)
  {
    SortedAccount(run.cfg, run.owner, run.account, a, clock);
  }

  /** Once a bar has aborted, the run has. */
  lemma {:induction false} AbortStays<S>(run: Setup, ex: Executor<S>, rows: seq<Row>,
      history: seq<Row>, due: set<int>, i: nat, n: nat, e: RunError)
    requires i <= n <= |rows| && Play(run, ex, rows, history, due, i) == Abort(e)
    ensures Play(run, ex, rows, history, due, n) == Abort(e)
  {
    if i < n {
      AbortStays(run, ex, rows, history, due, i, n - 1, e);
    }
  }

  /** The position a run ends with, from the engine's own numbers. */
  function EndPositionIn(cfg: Config, book: Book, ticker: Name, close: real): EndPosition {
    var shares := Shares(book, ticker);
    var basis := Times(1.0 + cfg.commission, AvgCost(book, ticker));
    if shares > 0.0 then EndPosition(shares, Times(shares, close), basis, Times(close - basis, shares))
    else EndPosition(0.0, 0.0, 0.0, 0.0)
  }

  /** What the ledger reports of a held position is what the engine's numbers say. */
  lemma EndPositionIs(run: Setup, a: Account, close: real)
    requires Steady(run, a) && Coupled(run.cfg, run.owner, run.account, a)
    ensures
      var shares := Shares(a.book, run.ticker);
      var open := OpenPosition(AccountRecon(a).executions, run.ticker, close);
      && shares >= 0.0 && (open.Some? <==> shares > 0.0)
      && EndPositionIn(run.cfg, a.book, run.ticker, close) ==
         if shares > 0.0
         then EndPosition(shares, Times(shares, close), open.value.averageCostBasis, open.value.unrealizedPnl)
         else EndPosition(0.0, 0.0, 0.0, 0.0)
  {
    OpenPositionIs(run.cfg, run.owner, run.account, a, run.ticker, close);
  }

  /** It is worth what the equity is over the cash. */
  lemma EndPositionWorth(run: Setup, a: Account, row: Row)
    requires Steady(run, a) && Shares(a.book, run.ticker) >= 0.0
    ensures a.cash + EndPositionIn(run.cfg, a.book, run.ticker, row.bar.close).marketValue == CloseEquity(run, a, row)
  {
    OneTickerValue(a.book, run.ticker, map[run.ticker := row.bar]);
  }

  lemma OpenPnlIs(executions: seq<Record>, ticker: Name, close: real)
    ensures SimulationLedger.OpenPnl(executions, ticker, close) ==
      match OpenPosition(executions, ticker, close) case None => 0.0 case Some(x) => x.unrealizedPnl
  {
  }

  /** The snapshots of a run that ended on `row`. */
  ghost predicate SnapshotsEnd<S>(run: Setup, sim: Sim<S>, row: Row) {
    && |sim.snapshots| > 0 && InDateOrder(sim.snapshots)
    && sim.snapshots[|sim.snapshots| - 1].equity == CloseEquity(run, sim.account, row)
    && forall k :: 0 <= k < |sim.snapshots| ==> sim.snapshots[k].equity > 0.0
  }

  /** What a finished run reports. */
  ghost predicate Reports<S>(run: Setup, sim: Sim<S>, close: real, report: Report) {
    var s, es := AccountRecon(sim.account), Equities(sim.snapshots);
    && report.decisions == sim.decisions && report.unfilled == sim.unfilled
    && report.moves == sim.moves && report.progress == sim.progress
    && report.portfolio == sim.snapshots
    && report.orders == sim.account.orders && report.rejections == 0
    && report.executions == s.executions && report.closed == s.closed
    && |es| > 0 && Drawdown.Positive(es)
    && MetricsOf(report.metrics, run.cfg.initialCash, es, s)
    && report.metrics.maxDrawdown == Drawdown.Number(Drawdown.Peak(Drawdown.Drawdowns(es)))
    && report.metrics.unrealizedPnl == report.endPosition.unrealizedPnl
    && report.endPosition == EndPositionIn(run.cfg, sim.account.book, run.ticker, close)
    && sim.account.cash + report.endPosition.marketValue == es[|es| - 1]
  }

  lemma SnapshotDates<S>(rows: seq<Row>, due: set<int>, sim: Sim<S>)
    requires ValidFrame(rows) && SimulationRuns.Counted(rows, due, |rows|, sim)
    ensures InDateOrder(sim.snapshots)
  {
    forall i, j | 0 <= i < j < |sim.snapshots| ensures sim.snapshots[i].date <= sim.snapshots[j].date {
      SimulationRuns.FrameIncreases(rows, i, j);
    }
  }

  /** Everything the report needs of a run that did not fail. */
  lemma ReadyToReport<S>(run: Setup, ex: Executor<S>, rows: seq<Row>, history: seq<Row>, cal: Calendar,
      frequency: Frequency, due: set<int>, sim: Sim<S>)
    requires GoodSetup(run) && ValidFrame(rows) && |rows| > 0
    requires DecisionDates(Dates(rows), cal, frequency) == Some(due)
    requires Play(run, ex, rows, history, due, |rows|) == Next(sim)
    requires Simulate(run, ex, rows, history, cal, frequency) == Next(sim)
    ensures Sound(run, sim) && SnapshotsEnd(run, sim, rows[|rows| - 1])
    ensures Linked(run.cfg, run.owner, run.account, sim.account, SimulationLedger.ClockAfter(rows, |rows|))
  {
    SimulationRuns.FinishedRuns(run, ex, rows, history, cal, frequency);
    SimulationLedger.EveryBarReconciles(run, ex, rows, history, due, |rows|);
    SimulationLedger.LastSnapshot(run, ex, rows, history, due, |rows|);
    SnapshotDates(rows, due, sim);
  }

  /** The close of a bar: a decision on decision dates. */
  function AtClose<S>(run: Setup, ex: Executor<S>, sim: Sim<S>, row: Row, closes: seq<real>,
      isDue: bool): Step<S> {
    if isDue then Simulation.Decide(run, ex, sim, row, closes) else Next(sim)
  }

  /** A report put together from its parts. */
  lemma ReportsAll<S>(run: Setup, sim: Sim<S>, row: Row, report: Report, clock: int)
    requires Steady(run, sim.account) && Linked(run.cfg, run.owner, run.account, sim.account, clock)
    requires SnapshotsEnd(run, sim, row)
    requires report.decisions == sim.decisions && report.unfilled == sim.unfilled
    requires report.moves == sim.moves && report.progress == sim.progress
    requires report.portfolio == sim.snapshots && report.orders == sim.account.orders && report.rejections == 0
    requires report.executions == AccountRecon(sim.account).executions
    requires report.closed == AccountRecon(sim.account).closed
    requires MetricsOf(report.metrics, run.cfg.initialCash, Equities(sim.snapshots), AccountRecon(sim.account))
    requires report.endPosition == EndPositionIn(run.cfg, sim.account.book, run.ticker, row.bar.close)
    ensures Reports(run, sim, row.bar.close, report)
  {
    Drawdown.DeepestOfPositive(Equities(sim.snapshots));
    SimulationLedger.OneTickerReconciles(run, sim.account, row, clock);
    EndPositionIs(run, sim.account, row.bar.close);
    EndPositionWorth(run, sim.account, row);
    OpenPnlIs(AccountRecon(sim.account).executions, run.ticker, row.bar.close);
  }

  /** The result is that of the simple run. */
  ghost predicate Answers<S>(run: Setup, ex: Executor<S>, rows: seq<Row>, history: seq<Row>, cal: Calendar,
      frequency: Frequency, result: RunResult)
  {
    match Simulate(run, ex, rows, history, cal, frequency)
    case Abort(e) => result == Failed(e)
    case Next(sim) => result.Finished? && |rows| > 0 && Reports(run, sim, rows[|rows| - 1].bar.close, result.report)
  }

  /** How the run ends once its bars have been played. */
  lemma PlayedEnds<S>(run: Setup, ex: Executor<S>, rows: seq<Row>, history: seq<Row>, cal: Calendar,
      frequency: Frequency, due: set<int>)
    requires ValidFrame(rows) && |rows| > 0 && DecisionDates(Dates(rows), cal, frequency) == Some(due)
    ensures
      var played := Play(run, ex, rows, history, due, |rows|);
      Simulate(run, ex, rows, history, cal, frequency) ==
        if played.Abort? then played
        else if played.sim.sequence > 0 && played.sim.progress.completed == 0
                && played.sim.progress.notReady == played.sim.progress.eligible then Abort(InsufficientHistory)
        else played
  {
  }

  class BacktestRunner<S> {
    const cfg: Config
    const broker: MockBrokerEngine
    const ledger: TradeLedger
    const executor: Executor<S>
    var state: S

    ghost predicate Valid()
      reads this, broker
    {
      broker.Valid() && broker.cfg == cfg
    }

    /** The runner forces next-open execution without shorting, also on the broker. */
    constructor (config: Config, broker: MockBrokerEngine, ledger: TradeLedger, executor: Executor<S>)
      requires broker.Valid() && broker.cfg.timing == NextOpen
      modifies broker
      ensures this.broker == broker && this.ledger == ledger && this.executor == executor
      ensures cfg == config.(timing := NextOpen, allowShort := false) && Valid()
      ensures broker.State() == old(broker.State()).(cfg := cfg)
    {
      cfg := config.(timing := NextOpen, allowShort := false);
      this.broker := broker;
      this.ledger := ledger;
      this.executor := executor;
      state := executor.start;
      new;
      broker.ConfigureForBacktest(cfg);
      assert broker.State().cfg == broker.cfg;
    }

    /** The session shows in no order of the other accounts, and nowhere in the ledger. */
    ghost predicate Unused(account: Name, session: Name)
      reads broker, ledger
    {
      && Spared(broker.State(), ledger.fills, account, session)
      && (forall k :: 0 <= k < |ledger.snapshots| ==> ledger.snapshots[k].owner.session != session)
    }

    /** The session shows in no order at all, and nowhere in the ledger. */
    ghost predicate Unseen(session: Name)
      reads broker, ledger
    {
      forall account :: Unused(account, session)
    }

    /** While a run goes on, its account holds its own orders only, and the sessions in
        `spare` stay unused. */
    ghost predicate Apart(run: Setup, spare: iset<Name>)
      reads broker, ledger
    {
      && run.owner.session !in spare
      && run.account in broker.accounts && Mine(broker.accounts[run.account], run.owner.session)
      && (forall session :: session in spare ==> Unused(run.account, session))
    }

    /** The broker account, the scoped ledger and the executor are where `sim` says. */
    ghost predicate Tracks(run: Setup, sim: Sim<S>)
      reads this, broker, ledger
    {
      && Valid() && run.cfg == cfg
      && run.account in broker.accounts && broker.accounts[run.account] == sim.account
      && OthersForeign(broker.State(), run.account, run.owner.session)
      && LoadFills(ledger.fills, ScopeOf(run.owner, run.account)) == Log(sim.account)
      && LoadSnapshots(ledger.snapshots, ScopeOf(run.owner, run.account)) == sim.snapshots
      && LoadSnapshots(ledger.snapshots, SessionScope(run.owner)) == sim.snapshots
      && state == sim.executor
    }

    lemma UnseenAfter(run: Setup, session: Name)
      requires Unused(run.account, session) && session != run.owner.session
      requires run.account in broker.accounts && Mine(broker.accounts[run.account], run.owner.session)
      ensures Unseen(session)
    {
    }

    /** From the values of its fields, where the runner is. */
    lemma TracksNow(run: Setup, sim: Sim<S>, spare: iset<Name>, bar: Bar)
      requires BarLeft(run, sim, broker.State(), ledger.fills, bar, spare) && run.cfg == cfg && state == sim.executor
      requires LoadSnapshots(ledger.snapshots, ScopeOf(run.owner, run.account)) == sim.snapshots
      requires LoadSnapshots(ledger.snapshots, SessionScope(run.owner)) == sim.snapshots
      requires forall session, k :: session in spare && 0 <= k < |ledger.snapshots| ==>
        ledger.snapshots[k].owner.session != session
      ensures Tracks(run, sim) && Apart(run, spare)
      ensures run.ticker in broker.latest && broker.latest[run.ticker] == bar
    {
    }

    // ---- sizing ----------------------------------------------------------------------

    /** The closed form of the source, with its clamp and its cap. */
    method SizeTarget(cash: real, have: int, open: real, target: real) returns (desired: int)
      requires SaneRates(cfg) && open > 0.0
      requires Sizable(Buying(cfg, open), Selling(cfg, open), open, cash + Times(have as real, open),
                       target / 100.0, have)
      ensures desired == TargetShares(cfg, cash, have, open, target)
    {
      var prefill := cash + Times(have as real, open);
      var fraction := target / 100.0;
      var slipped := BuyPrice(open, cfg.slippage);
      var buyCost := BuyCost(open, cfg.slippage, cfg.commission);
      var sellCost := SellCost(open, cfg.slippage, cfg.commission);
      CostBounds(open, cfg.slippage, cfg.commission);
      Denominators(buyCost, sellCost, open, fraction);
      if UncostedShares(open, prefill, fraction) >= have {
        desired := BuySolution(buyCost, open, prefill, fraction, have);
      } else {
        desired := SellSolution(sellCost, open, prefill, fraction, have);
      }
      if desired < 0 {
        desired := 0;
      }
      if desired > have {
        assert slipped * (1.0 + cfg.commission) == open + buyCost;
        var affordable := (cash / (slipped * (1.0 + cfg.commission))).Floor;
        if have + affordable < desired {
          desired := have + affordable;
        }
      }
    }

    /** The size of the move an intent asks for, and the shares held. */
    method TargetMove(run: Setup, intent: Intent, open: real, ghost sim: Sim<S>)
      returns (have: int, cash: real, delta: int)
      requires Tracks(run, sim) && GoodSetup(run) && Steady(run, sim.account) && open > 0.0
      requires TargetAllowed(run, intent.target)
      modifies broker
      ensures broker.State() == old(broker.State()) && broker.Valid()
      ensures have == Have(sim.account, run.ticker) && cash == sim.account.cash
      ensures delta == TargetShares(run.cfg, cash, have, open, intent.target) - have
    {
      var position := broker.GetPosition(run.ticker, run.account);
      have := if position == None then 0 else position.value.shares.Floor;
      var equity;
      cash, equity := broker.GetAccount(run.account);
      InputsSizable(run, sim.account, open, intent.target);
      var desired := SizeTarget(cash, have, open, intent.target);
      delta := desired - have;
    }

    /** The order of an intent, stored under its fresh id and waiting for the open. */
    method QueueTargetOrder(run: Setup, intent: Intent, delta: int, ghost sim: Sim<S>) returns (o: Order)
      requires Tracks(run, sim) && GoodSetup(run) && OrdersFilled(run, sim.account, intent.sequence - 1)
      modifies broker
      ensures o == TargetOrder(run, intent, delta) && broker.Valid()
      ensures broker.State() ==
        old(broker.State()).(accounts := old(broker.accounts)[run.account := WithOrder(sim.account, o)])
    {
      o := Order(run.orderIds(intent.sequence), run.account, run.ticker, if delta > 0 then Buy else Sell, Market,
                 (if delta >= 0 then delta else -delta) as real, None, New, run.owner, intent.sequence, None);
      FreshOrderId(run, sim.account, intent.sequence);
      PlacingQueues(broker.State(), sim.account, o, intent.signalDate);
      broker.PlaceOrder(o, intent.signalDate);
    }

    /** `_place_pending_target_order` */
    method PlacePendingTargetOrder(run: Setup, pending: Option<Intent>, row: Row, ghost sim: Sim<S>)
      returns (placement: Placement)
      requires Tracks(run, sim) && GoodSetup(run) && Sound(run, sim) && pending == sim.pending && row.bar.open > 0.0
      modifies broker
      ensures placement == Place(run, sim.account, pending, row)
      ensures placement.Ordered? ==>
        broker.State() ==
          old(broker.State()).(accounts := old(broker.accounts)[run.account := WithOrder(sim.account, placement.order)])
      ensures !placement.Ordered? ==> broker.State() == old(broker.State())
      ensures broker.Valid()
    {
      if pending == None {
        return NoIntent;
      }
      var intent := pending.value;
      var have, cash, delta := TargetMove(run, intent, row.bar.open, sim);
      if delta == 0 {
        var held := Times(have as real, row.bar.open);
        var fraction := if cash + held > 0.0 then held / (cash + held) else 0.0;
        if !IsClose(fraction, intent.target / 100.0, 0.0, 0.000000000001) {
          return NotAffordable(Unfilled(intent.sequence, intent.signalDate, row.date));
        }
        return AtTarget(intent.sequence);
      }
      var o := QueueTargetOrder(run, intent, delta, sim);
      return Ordered(intent.sequence, o);
    }

    // ---- one bar ---------------------------------------------------------------------

    /** The callbacks of the fills since `from`. */
    method RecordNewFills(from: nat)
      requires from <= |broker.notified|
      modifies ledger`fills
      ensures ledger.fills == RecordFills(old(ledger.fills), broker.notified[from..])
    {
      ghost var before := ledger.fills;
      for i := from to |broker.notified|
        invariant ledger.fills == RecordFills(before, broker.notified[from..i])
      {
        assert broker.notified[from..i + 1][..i - from] == broker.notified[from..i];
        assert broker.notified[from..i + 1][i - from] == broker.notified[i];
        ledger.RecordFill(broker.notified[i]);
      }
      assert broker.notified[from..|broker.notified|] == broker.notified[from..];
    }

    /** The broker's bar and its callbacks. */
    method PlayAndRecord(bars: Prices, time: int)
      requires broker.Valid()
      modifies broker, ledger`fills
      ensures broker.Valid() && broker.State() == OnBar(old(broker.State()), bars, time)
      ensures |old(broker.notified)| <= |broker.notified|
      ensures ledger.fills == RecordFills(old(ledger.fills), broker.notified[|old(broker.notified)|..])
    {
      ApplyExtends(broker.State(), EngineLaws.PlayBar(bars, time));
      var from := |broker.notified|;
      broker.OnBar(bars, time);
      RecordNewFills(from);
    }

    /** The broker plays the bar, and the callbacks reach the ledger. */
    method PlayBrokerBar(run: Setup, row: Row, ghost sim: Sim<S>, ghost placement: Placement,
        ghost spare: iset<Name>)
      requires Valid() && run.cfg == cfg && GoodSetup(run) && Sound(run, sim) && row.bar.open > 0.0
      requires placement == Place(run, sim.account, sim.pending, row)
      requires run.account in broker.accounts && broker.accounts[run.account] == Queued(sim.account, placement)
      requires OthersForeign(broker.State(), run.account, run.owner.session)
      requires LoadFills(ledger.fills, ScopeOf(run.owner, run.account)) == Log(sim.account)
      requires LoadSnapshots(ledger.snapshots, ScopeOf(run.owner, run.account)) == sim.snapshots
      requires LoadSnapshots(ledger.snapshots, SessionScope(run.owner)) == sim.snapshots
      requires state == sim.executor && Apart(run, spare)
      modifies broker, ledger`fills
      ensures Tracks(run, AfterOpening(run, sim, placement, row)) && Apart(run, spare)
      ensures run.ticker in broker.latest && broker.latest[run.ticker] == row.bar
    {
      ghost var e, log := broker.State(), ledger.fills;
      assert forall session :: session in spare ==> Unused(run.account, session);
      BarLeaves(run, sim, e, log, row, placement, spare);
      PlayAndRecord(map[run.ticker := row.bar], row.date);
      TracksNow(run, AfterOpening(run, sim, placement, row), spare, row.bar);
    }

    /** The open of a bar: the pending intent, the broker's bar, the callbacks. */
    method PlayOpen(run: Setup, pending: Option<Intent>, row: Row, ghost sim: Sim<S>, ghost spare: iset<Name>)
      returns (placement: Placement)
      requires Tracks(run, sim) && Apart(run, spare)
      requires GoodSetup(run) && Sound(run, sim) && pending == sim.pending && row.bar.open > 0.0
      modifies broker, ledger`fills
      ensures placement == Place(run, sim.account, pending, row)
      ensures Tracks(run, AfterOpening(run, sim, placement, row)) && Apart(run, spare)
      ensures run.ticker in broker.latest && broker.latest[run.ticker] == row.bar
    {
      placement := PlacePendingTargetOrder(run, pending, row, sim);
      PlayBrokerBar(run, row, sim, placement, spare);
    }

    /** `_calculate_current_position_pct` */
    method CalculateCurrentPositionPct(run: Setup, row: Row, ghost sim: Sim<S>) returns (weight: real)
      requires Tracks(run, sim) && Steady(run, sim.account)
      requires run.ticker in broker.latest && broker.latest[run.ticker] == row.bar
      modifies broker
      ensures broker.State() == old(broker.State())
      ensures weight == Weight(Shares(sim.account.book, run.ticker), row.bar.close, CloseEquity(run, sim.account, row))
    {
      var _, equity := broker.GetAccount(run.account);
      var position := broker.GetPosition(run.ticker, run.account);
      var price := broker.GetLatestPrice(run.ticker);
      SameCloseEquity(run, sim.account, row, broker.latest);
      if position == None || price == None || equity == 0.0 {
        return 0.0;
      }
      return Times(position.value.shares, price.value) / equity * 100.0;
    }

    /** The daily snapshot of the account, at the close. */
    method RecordDailySnapshot(run: Setup, row: Row, ghost sim: Sim<S>, ghost spare: iset<Name>)
      requires Tracks(run, sim) && Apart(run, spare) && Steady(run, sim.account)
      requires run.ticker in broker.latest && broker.latest[run.ticker] == row.bar
      modifies broker, ledger`snapshots
      ensures Tracks(run, Snap(run, sim, row)) && Apart(run, spare) && broker.State() == old(broker.State())
    {
      var cash, equity := broker.GetAccount(run.account);
      SameCloseEquity(run, sim.account, row, broker.latest);
      var snapshot := Snapshot(row.date, cash, equity, run.owner, run.account);
      SnapshotAppends(ledger.snapshots, snapshot, run.owner, run.account);
      ledger.RecordDailySnapshot(snapshot);
    }

    /** The start of a run: a fresh account, executor and ledger session. */
    method Begin(run: Setup, bars: nat, decisions: nat, ghost spare: iset<Name>)
      requires Valid() && run.cfg == cfg && Unused(run.account, run.owner.session)
      requires run.owner.session !in spare && forall session :: session in spare ==> Unused(run.account, session)
      modifies this, broker, ledger`capitals
      ensures Tracks(run, Start(run, executor, bars, decisions)) && Apart(run, spare)
      ensures ledger.capitals == old(ledger.capitals) + [Capital(cfg.initialCash, run.owner, run.account)]
    {
      broker.ResetAccount(run.account);
      state := executor.start;
      ledger.RecordInitialCapital(cfg.initialCash, run.owner, run.account);
      NoFillsInScope(ledger.fills, run.owner, run.account);
      NoSnapshotsInScope(ledger.snapshots, run.owner, run.account);
    }

    // ---- the report ------------------------------------------------------------------

    /** The daily snapshots of the session, in date order. */
    method SessionPortfolio(run: Setup, ghost sim: Sim<S>) returns (portfolio: seq<Snapshot>)
      requires Tracks(run, sim) && InDateOrder(sim.snapshots)
      ensures portfolio == sim.snapshots
    {
      SortedByDateAlready(sim.snapshots);
      portfolio := ledger.PortfolioFrame(SessionScope(run.owner));
    }

    /** The run's orders and how many of them were rejected. */
    method SessionOrders(run: Setup, ghost sim: Sim<S>) returns (orders: seq<Order>, rejections: nat)
      requires Tracks(run, sim) && Sound(run, sim)
      ensures orders == sim.account.orders && rejections == 0
    {
      var all := broker.accounts[run.account].orders;
      orders := [];
      var rejected := 0;
      for i := 0 to |all|
        invariant orders == all[..i] && rejected == 0
      {
        if all[i].owner.session == run.owner.session {
          orders := orders + [all[i]];
          if all[i].status == Rejected {
            rejected := rejected + 1;
          }
        }
      }
      rejections := rejected;
    }

    /** The position and the mark that `_end_position` reads. */
    method HeldAt(run: Setup, row: Row, ghost sim: Sim<S>)
      returns (position: Option<Position>, price: Option<real>)
      requires Tracks(run, sim) && Steady(run, sim.account)
      requires run.ticker in broker.latest && broker.latest[run.ticker] == row.bar
      modifies broker
      ensures broker.State() == old(broker.State())
      ensures price == Some(row.bar.close)
      ensures position == None <==> Shares(sim.account.book, run.ticker) == 0.0
      ensures position.Some? ==> position.value.shares == Shares(sim.account.book, run.ticker)
    {
      position := broker.GetPosition(run.ticker, run.account);
      price := broker.GetLatestPrice(run.ticker);
      SameCloseEquity(run, sim.account, row, broker.latest);
    }

    /** `_end_position` */
    method EndPositionOf(run: Setup, row: Row, ghost sim: Sim<S>) returns (end: EndPosition)
      requires Tracks(run, sim) && Steady(run, sim.account)
      requires run.ticker in broker.latest && broker.latest[run.ticker] == row.bar
      requires LedgerScope(run) == AccountRecon(sim.account)
      requires Coupled(run.cfg, run.owner, run.account, sim.account)
      modifies broker
      ensures broker.State() == old(broker.State())
      ensures end == EndPositionIn(run.cfg, sim.account.book, run.ticker, row.bar.close)
    {
      EndPositionIs(run, sim.account, row.bar.close);
      var position, price := HeldAt(run, row, sim);
      if position == None || price == None {
        return EndPosition(0.0, 0.0, 0.0, 0.0);
      }
      var accounting := ledger.OpenLongPositionAccounting(run.ticker, price.value, ScopeOf(run.owner, run.account));
      var p := position.value;
      var basis, pnl := p.avgCost, 0.0;
      if p.shares > 0.0 && accounting.Some? {
        basis, pnl := accounting.value.averageCostBasis, accounting.value.unrealizedPnl;
      }
      end := EndPosition(p.shares, Times(p.shares, price.value), basis, pnl);
    }

    /** The latest capital recorded for the run is its initial cash. */
    ghost predicate StartsAt(run: Setup)
      reads ledger
    {
      forall first :: StartEquity(ledger.capitals, ScopeOf(run.owner, run.account), first) == run.cfg.initialCash
    }

    ghost function LedgerScope(run: Setup): Recon
      reads ledger
    {
      Reconstruct(ledger.fills, ScopeOf(run.owner, run.account))
    }

    /** `compute_metrics` in the scope of the run. */
    method RunMetrics(run: Setup, ghost snapshots: seq<Snapshot>, ghost s: Recon) returns (metrics: Metrics)
      requires LoadSnapshots(ledger.snapshots, ScopeOf(run.owner, run.account)) == snapshots && LedgerScope(run) == s
      requires |snapshots| > 0 && InDateOrder(snapshots)
      requires StartsAt(run)
      ensures MetricsOf(metrics, run.cfg.initialCash, Equities(snapshots), s)
    {
      SortedByDateAlready(snapshots);
      metrics := ledger.ComputeMetrics(ScopeOf(run.owner, run.account));
    }

    method BuildReport(run: Setup, row: Row, decisions: seq<Decision>, unfilled: seq<Unfilled>,
        moves: seq<Move>, progress: Progress, ghost sim: Sim<S>, ghost clock: int)
      returns (report: Report)
      requires Tracks(run, sim) && Sound(run, sim)
      requires decisions == sim.decisions && unfilled == sim.unfilled && moves == sim.moves
      requires progress == sim.progress
      requires run.ticker in broker.latest && broker.latest[run.ticker] == row.bar
      requires Linked(run.cfg, run.owner, run.account, sim.account, clock)
      requires SnapshotsEnd(run, sim, row)
      requires StartsAt(run)
      modifies broker
      ensures broker.State() == old(broker.State()) && Reports(run, sim, row.bar.close, report)
    {
      ScopeReconstructs(run, ledger.fills, sim.account, clock);
      var metrics := RunMetrics(run, sim.snapshots, AccountRecon(sim.account));
      var executions, closed := ledger.ReconstructLongOnlyEpisodes(ScopeOf(run.owner, run.account));
      var portfolio := SessionPortfolio(run, sim);
      var orders, rejections := SessionOrders(run, sim);
      var end := EndPositionOf(run, row, sim);
      report := Report(decisions, unfilled, moves, progress, portfolio, orders, rejections, executions, closed,
                       metrics, end);
      ReportsAll(run, sim, row, report, clock);
    }

    // ---- the run ---------------------------------------------------------------------

    /** The part of the loop body up to the decision. */
    method OpenSession(run: Setup, pending: Option<Intent>, decisions: seq<Decision>,
        unfilled: seq<Unfilled>, progress: Progress, row: Row, ghost sim: Sim<S>, ghost spare: iset<Name>)
      returns (decisions': seq<Decision>, unfilled': seq<Unfilled>, progress': Progress)
      requires Tracks(run, sim) && Apart(run, spare) && GoodSetup(run) && Sound(run, sim) && row.bar.open > 0.0
      requires pending == sim.pending && decisions == sim.decisions && unfilled == sim.unfilled
      requires progress == sim.progress
      modifies broker, ledger`fills
      ensures
        var filled := AtOpen(run, sim, row);
        && Tracks(run, filled)
        && decisions' == filled.decisions && unfilled' == filled.unfilled && progress' == filled.progress
      ensures run.ticker in broker.latest && broker.latest[run.ticker] == row.bar && Apart(run, spare)
    {
      var placement := PlayOpen(run, pending, row, sim, spare);
      decisions' := Executed(decisions, placement, row.date);
      unfilled' := unfilled;
      if placement.NotAffordable? {
        unfilled' := unfilled + [placement.unfilled];
      }
      progress' := progress.(barsProcessed := progress.barsProcessed + 1);
    }

    /** The decision of a session. */
    method DecideSession(run: Setup, row: Row, closes: seq<real>, sequence: nat,
        decisions: seq<Decision>, moves: seq<Move>, progress: Progress, ghost sim: Sim<S>)
      returns (error: Option<RunError>, pending': Option<Intent>, sequence': nat, decisions': seq<Decision>,
               moves': seq<Move>, progress': Progress)
      requires Tracks(run, sim) && Steady(run, sim.account) && sim.pending == None
      requires run.ticker in broker.latest && broker.latest[run.ticker] == row.bar
      requires sequence == sim.sequence && decisions == sim.decisions && moves == sim.moves
      requires progress == sim.progress
      modifies broker, this`state
      ensures broker.State() == old(broker.State())
      ensures
        match Simulation.Decide(run, executor, sim, row, closes)
        case Abort(e) => error == Some(e)
        case Next(after) =>
          && error == None && Tracks(run, after)
          && pending' == after.pending && sequence' == after.sequence && decisions' == after.decisions
          && moves' == after.moves && progress' == after.progress
    {
      error, pending', moves' := None, None, moves;
      sequence' := sequence + 1;
      progress' := progress.(eligible := progress.eligible + 1);
      decisions' := decisions;
      var weight := CalculateCurrentPositionPct(run, row, sim);
      if |closes| < executor.minimum {
        progress' := progress'.(notReady := progress'.notReady + 1);
        decisions' := decisions + [Decision(sequence', row.date, None, NotReady)];
        return;
      }
      var (next, answer) := executor.decide(state, closes, weight);
      if answer == None {
        error := Some(ExecutorRaised);
        return;
      }
      state := next;
      var target := answer.value;
      var move := MoveTo(target, weight);
      moves' := moves + [move];
      if target < 0.0 || target > cfg.maxPosition * 100.0 {
        error := Some(PositionLimit);
        return;
      }
      pending' := Some(Intent(sequence', row.date, target));
      progress' := progress'.(completed := progress'.completed + 1);
      decisions' := decisions + [Decision(sequence', row.date, None, Completed(target, move))];
    }

    /** The part of the loop body from the decision to the snapshot. */
    method CloseSession(run: Setup, row: Row, closes: seq<real>, isDue: bool, sequence: nat,
        decisions: seq<Decision>, moves: seq<Move>, progress: Progress, ghost sim: Sim<S>)
      returns (error: Option<RunError>, pending': Option<Intent>, sequence': nat, decisions': seq<Decision>,
               moves': seq<Move>, progress': Progress)
      requires Tracks(run, sim) && Steady(run, sim.account) && sim.pending == None
      requires run.ticker in broker.latest && broker.latest[run.ticker] == row.bar
      requires sequence == sim.sequence && decisions == sim.decisions && moves == sim.moves
      requires progress == sim.progress
      modifies broker, this`state
      ensures broker.State() == old(broker.State())
      ensures
        match AtClose(run, executor, sim, row, closes, isDue)
        case Abort(e) => error == Some(e)
        case Next(after) =>
          && error == None && Tracks(run, after)
          && pending' == after.pending && sequence' == after.sequence && decisions' == after.decisions
          && moves' == after.moves && progress' == after.progress
    {
      if isDue {
        error, pending', sequence', decisions', moves', progress' :=
          DecideSession(run, row, closes, sequence, decisions, moves, progress, sim);
      } else {
        error, pending', sequence', decisions', moves', progress' := None, None, sequence, decisions, moves, progress;
      }
    }

    /** One pass of the bar loop. */
    method PlaySession(run: Setup, row: Row, closes: seq<real>, isDue: bool, pending: Option<Intent>, sequence: nat,
        decisions: seq<Decision>, unfilled: seq<Unfilled>, moves: seq<Move>, progress: Progress,
        ghost sim: Sim<S>, ghost spare: iset<Name>)
      returns (error: Option<RunError>, pending': Option<Intent>, sequence': nat, decisions': seq<Decision>,
               unfilled': seq<Unfilled>, moves': seq<Move>, progress': Progress)
      requires Tracks(run, sim) && Apart(run, spare) && GoodSetup(run) && Sound(run, sim) && row.bar.open > 0.0
      requires pending == sim.pending && sequence == sim.sequence && decisions == sim.decisions
      requires unfilled == sim.unfilled && moves == sim.moves && progress == sim.progress
      modifies broker, ledger`fills, ledger`snapshots, this`state
      ensures Valid() && Apart(run, spare)
      ensures
        match PlayBar(run, executor, sim, row, closes, isDue)
        case Abort(e) => error == Some(e)
        case Next(after) =>
          && error == None && Tracks(run, after)
          && pending' == after.pending && sequence' == after.sequence && decisions' == after.decisions
          && unfilled' == after.unfilled && moves' == after.moves && progress' == after.progress
          && run.ticker in broker.latest && broker.latest[run.ticker] == row.bar
    {
      AtOpenKeepsSound(run, sim, row);
      ghost var filled := AtOpen(run, sim, row);
      decisions', unfilled', progress' := OpenSession(run, pending, decisions, unfilled, progress, row, sim, spare);
      error, pending', sequence', decisions', moves', progress' :=
        CloseSession(run, row, closes, isDue, sequence, decisions', moves, progress', filled);
      if error == None {
        RecordDailySnapshot(run, row, AtClose(run, executor, filled, row, closes, isDue).sim, spare);
      }
    }

    /** The bar loop of `_run`. */
    method PlayBars(run: Setup, rows: seq<Row>, history: seq<Row>, due: set<int>, ghost spare: iset<Name>)
      returns (error: Option<RunError>, sequence: nat, decisions: seq<Decision>, unfilled: seq<Unfilled>,
               moves: seq<Move>, progress: Progress, ghost sim: Sim<S>)
      requires GoodSetup(run) && ValidFrame(rows) && |rows| > 0
      requires Tracks(run, Start(run, executor, |rows|, |due|)) && Apart(run, spare)
      modifies broker, ledger`fills, ledger`snapshots, this`state
      ensures Valid() && Apart(run, spare)
      ensures error.Some? ==> Play(run, executor, rows, history, due, |rows|) == Abort(error.value)
      ensures error == None ==>
        && Play(run, executor, rows, history, due, |rows|) == Next(sim) && Tracks(run, sim)
        && sequence == sim.sequence && decisions == sim.decisions
        && unfilled == sim.unfilled && moves == sim.moves && progress == sim.progress
        && run.ticker in broker.latest && broker.latest[run.ticker] == rows[|rows| - 1].bar
    {
      var pending: Option<Intent> := None;
      error, sequence, decisions, unfilled, moves := None, 0, [], [], [];
      progress := Progress(|rows|, |due|, 0, 0, 0, 0);
      sim := Start(run, executor, |rows|, |due|);
      for i := 0 to |rows|
        invariant error == None
        invariant Play(run, executor, rows, history, due, i) == Next(sim)
        invariant Tracks(run, sim) && Apart(run, spare)
        invariant pending == sim.pending && sequence == sim.sequence && decisions == sim.decisions
        invariant unfilled == sim.unfilled && moves == sim.moves && progress == sim.progress
        invariant i > 0 ==> run.ticker in broker.latest && broker.latest[run.ticker] == rows[i - 1].bar
      {
        var row := rows[i];
        assert ValidBar(row.bar);
        EveryBarIsSound(run, executor, rows, history, due, i);
        error, pending, sequence, decisions, unfilled, moves, progress :=
          PlaySession(run, row, ClosesUpTo(history, row.date), row.date in due, pending, sequence, decisions, unfilled,
                      moves, progress, sim, spare);
        if error.Some? {
          AbortStays(run, executor, rows, history, due, i + 1, |rows|, error.value);
          return;
        }
        sim := PlayBar(run, executor, sim, row, ClosesUpTo(history, row.date), row.date in due).sim;
      }
    }

    /** What follows the bar loop of `_run`. */
    method Conclude(run: Setup, rows: seq<Row>, ghost history: seq<Row>, ghost cal: Calendar,
                    ghost frequency: Frequency,
        ghost due: set<int>, sequence: nat, decisions: seq<Decision>, unfilled: seq<Unfilled>, moves: seq<Move>,
        progress: Progress, ghost sim: Sim<S>)
      returns (result: RunResult)
      requires GoodSetup(run) && ValidFrame(rows) && |rows| > 0
      requires DecisionDates(Dates(rows), cal, frequency) == Some(due)
      requires Play(run, executor, rows, history, due, |rows|) == Next(sim) && Tracks(run, sim)
      requires sequence == sim.sequence && decisions == sim.decisions && unfilled == sim.unfilled
      requires moves == sim.moves && progress == sim.progress
      requires run.ticker in broker.latest && broker.latest[run.ticker] == rows[|rows| - 1].bar
      requires StartsAt(run)
      modifies broker
      ensures broker.State() == old(broker.State())
      ensures Answers(run, executor, rows, history, cal, frequency, result)
    {
      PlayedEnds(run, executor, rows, history, cal, frequency, due);
      if sequence > 0 && progress.completed == 0 && progress.notReady == progress.eligible {
        return Failed(InsufficientHistory);
      }
      ReadyToReport(run, executor, rows, history, cal, frequency, due, sim);
      var report := BuildReport(run, rows[|rows| - 1], decisions, unfilled, moves, progress, sim,
                                SimulationLedger.ClockAfter(rows, |rows|));
      return Finished(report);
    }

    /** The bar loop of `_run` and what follows it. */
    method PlayAll(run: Setup, rows: seq<Row>, history: seq<Row>, cal: Calendar,
        frequency: Frequency, due: set<int>, ghost spare: iset<Name>) returns (result: RunResult)
      requires GoodSetup(run) && ValidFrame(rows) && |rows| > 0
      requires DecisionDates(Dates(rows), cal, frequency) == Some(due)
      requires Tracks(run, Start(run, executor, |rows|, |due|)) && Apart(run, spare)
      requires StartsAt(run)
      modifies this, broker, ledger
      ensures Valid() && Apart(run, spare) && Answers(run, executor, rows, history, cal, frequency, result)
    {
      var error, sequence, decisions, unfilled, moves, progress;
      ghost var sim;
      error, sequence, decisions, unfilled, moves, progress, sim := PlayBars(run, rows, history, due, spare);
      if error.Some? {
        PlayedEnds(run, executor, rows, history, cal, frequency, due);
        return Failed(error.value);
      }
      result := Conclude(run, rows, history, cal, frequency, due, sequence, decisions, unfilled, moves, progress, sim);
    }

    /** `_run`.  Whatever the broker and the ledger hold from before, the outcome is that
        of the simple run, a function of the inputs alone; and however it ends, the runner
        can run again, under any session that was not used before. */
    method Run(run: Setup, rows: seq<Row>, history: seq<Row>, cal: Calendar, frequency: Frequency)
      returns (result: RunResult)
      requires Valid() && run.cfg == cfg && GoodSetup(run) && Unused(run.account, run.owner.session)
      modifies this, broker, ledger
      ensures Valid() && Answers(run, executor, rows, history, cal, frequency, result)
      ensures forall session :: session != run.owner.session && old(Unused(run.account, session)) ==>
        Unused(run.account, session)
      ensures forall session :: session != run.owner.session && old(Unseen(session)) ==> Unseen(session)
    {
      ghost var spare := iset session | session != run.owner.session && Unused(run.account, session);
      if !ValidFrame(rows) {
        return Failed(InvalidPrices);
      }
      if |rows| == 0 {
        return Failed(EmptyWindow);
      }
      var dates := DecisionDates(Dates(rows), cal, frequency);
      var decisionsTotal := if dates == None then 0 else |dates.value|;
      Begin(run, |rows|, decisionsTotal, spare);
      if dates == None {
        result := Failed(UnsupportedFrequency);
      } else {
        result := PlayAll(run, rows, history, cal, frequency, dates.value, spare);
      }
      forall session | session in spare ensures Unused(run.account, session) && Unseen(session) {
        UnseenAfter(run, session);
      }
    }
  }
}
