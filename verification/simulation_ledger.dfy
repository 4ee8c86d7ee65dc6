/** Simulated runs reconcile: equity, realized P&L and open basis add up. */
module SimulationLedger {
  import opened BrokerModels
  import opened Positions
  import opened Pricing
  import opened Engine
  import opened Ledger
  import opened Coupling
  import opened AccountInvariants
  import opened CoupledRuns
  import opened Reconciliation
  import opened Schedule
  import opened Simulation
  import opened SimulationFills
  import opened SimulationLaws
  import SimulationRuns

  /** The account is coupled to its ledger records, and no sale left dust. */
  ghost predicate Reconciled<S>(run: Setup, sim: Sim<S>, clock: int) {
    && Linked(run.cfg, run.owner, run.account, sim.account, clock)
    && AllClean(sim.account.reports)
  }

  lemma WholeIsClean(r: FillReport, n: int)
    requires n >= 0 && r.sharesAfter == n as real
    ensures CleanSale(r)
  {
  }

  lemma FillClean(run: Setup, a: Account, o: Order, row: Row, want: int)
    requires GoodSetup(run) && Steady(run, a) && row.bar.open > 0.0 && Moves(run, a, o, want) && AllClean(a.reports)
    ensures AllClean(FillAtOpen(run, a, o, row.bar.open, row.date).reports)
  {
    var after := FillAtOpen(run, a, o, row.bar.open, row.date);
    FillBook(run, a, o, row.bar.open, row.date, want);
    FillAppends(run, a, o, row.bar.open, row.date);
    WholeIsClean(after.reports[|a.reports|], want);
    CleanGrows(a.reports, after.reports);
  }

  lemma MovesAreLong(run: Setup, a: Account, o: Order, want: int)
    requires Steady(run, a) && Moves(run, a, o, want)
    ensures LongFill(o, a.book)
  {
  }

  /** A long fill of a queued order, at a positive price, keeps the account linked. */
  lemma QueuedFillLinks(run: Setup, a: Account, o: Order, open: real, time: int, clock: int)
    requires GoodSetup(run) && open > 0.0 && LongFill(o, a.book) && o.owner == run.owner && o.account == run.account
    requires Linked(run.cfg, run.owner, run.account, a, clock) && clock <= time
    requires AllClean(FillAtOpen(run, a, o, open, time).reports)
    ensures Linked(run.cfg, run.owner, run.account, FillAtOpen(run, a, o, open, time), time)
  {
    var queued := a.(orders := a.orders + [o]);
    assert queued.orders[|a.orders|] == o;
    OrdersLink(run.cfg, run.owner, run.account, a, queued.orders, clock);
    PricesPositive(open, run.cfg.slippage);
    FillLinks(run.cfg, run.owner, run.account, queued, map[run.ticker := FlatBar(open)], |a.orders|,
              MarketPrice(o.side, open, run.cfg.slippage), open, time, clock);
  }

  lemma FillReconciles(run: Setup, a: Account, o: Order, row: Row, want: int, clock: int)
    requires GoodSetup(run) && Steady(run, a) && row.bar.open > 0.0 && Moves(run, a, o, want)
    requires o.owner == run.owner && o.account == run.account
    requires Linked(run.cfg, run.owner, run.account, a, clock) && AllClean(a.reports) && clock <= row.date
    ensures
      var after := FillAtOpen(run, a, o, row.bar.open, row.date);
      Linked(run.cfg, run.owner, run.account, after, row.date) && AllClean(after.reports)
  {
    FillClean(run, a, o, row, want);
    MovesAreLong(run, a, o, want);
    QueuedFillLinks(run, a, o, row.bar.open, row.date, clock);
  }

  lemma CleanGrows(rs: seq<FillReport>, more: seq<FillReport>)
    requires AllClean(rs) && |more| == |rs| + 1 && more[..|rs|] == rs && CleanSale(more[|rs|])
    ensures AllClean(more)
  {
    assert forall k :: 0 <= k < |rs| ==> more[k] == rs[k];
  }

  lemma LaterClock(cfg: Config, owner: Owner, id: Name, a: Account, clock: int, time: int)
    requires Linked(cfg, owner, id, a, clock) && clock <= time
    ensures Linked(cfg, owner, id, a, time)
  {
  }

  lemma OpenReconciles<S>(run: Setup, sim: Sim<S>, row: Row, clock: int)
    requires GoodSetup(run) && Sound(run, sim) && row.bar.open > 0.0
    requires Reconciled(run, sim, clock) && clock <= row.date
    ensures Reconciled(run, AtOpen(run, sim, row), row.date)
  {
    if Place(run, sim.account, sim.pending, row).Ordered? {
      var o, want := PlacedOrder(run, sim.account, sim.pending.value, row);
      FillReconciles(run, sim.account, o, row, want, clock);
    } else {
      LaterClock(run.cfg, run.owner, run.account, sim.account, clock, row.date);
    }
  }

  lemma BarReconciles<S>(run: Setup, ex: Executor<S>, sim: Sim<S>, row: Row, closes: seq<real>,
      isDue: bool, clock: int)
    requires GoodSetup(run) && Sound(run, sim) && row.bar.open > 0.0
    requires Reconciled(run, sim, clock) && clock <= row.date
    ensures
      var result := PlayBar(run, ex, sim, row, closes, isDue);
      result.Next? ==> Reconciled(run, result.sim, row.date)
  {
    OpenReconciles(run, sim, row, clock);
    SameAccount(run, ex, sim, row, closes, isDue);
  }

  /** Deciding and taking the snapshot leave the account alone. */
  lemma SameAccount<S>(run: Setup, ex: Executor<S>, sim: Sim<S>, row: Row, closes: seq<real>, isDue: bool)
    ensures
      var result := PlayBar(run, ex, sim, row, closes, isDue);
      result.Next? ==>
        && result.sim.account == AtOpen(run, sim, row).account
        && result.sim.snapshots == sim.snapshots
             + [TradeLedgers.Snapshot(row.date, result.sim.account.cash, CloseEquity(run, result.sim.account, row),
                                      run.owner, run.account)]
  {
  }

  function ClockAfter(rows: seq<Row>, n: nat): int
    requires n <= |rows|
  {
    if n > 0 then rows[n - 1].date else if |rows| > 0 then rows[0].date else 0
  }

  lemma {:induction false} EveryBarReconciles<S>(run: Setup, ex: Executor<S>, rows: seq<Row>,
      history: seq<Row>, due: set<int>, n: nat)
    requires GoodSetup(run) && ValidFrame(rows) && n <= |rows|
    ensures
      var step := Play(run, ex, rows, history, due, n);
      step.Next? ==> Reconciled(run, step.sim, ClockAfter(rows, n))
  {
    if n == 0 {
      FreshLinks(run.cfg, run.owner, run.account, ClockAfter(rows, 0));
    } else {
      var before := Play(run, ex, rows, history, due, n - 1);
      if before.Next? {
        var row := rows[n - 1];
        assert ValidBar(row.bar);
        if n > 1 {
          SimulationRuns.FrameIncreases(rows, n - 2, n - 1);
        }
        EveryBarReconciles(run, ex, rows, history, due, n - 1);
        EveryBarIsSound(run, ex, rows, history, due, n - 1);
        BarReconciles(run, ex, before.sim, row, ClosesUpTo(history, row.date), row.date in due,
                      ClockAfter(rows, n - 1));
      }
    }
  }

  // ---- the reported numbers -------------------------------------------------------------

  /** `_end_position`'s unrealized P&L: the ledger's, while shares are held. */
  function OpenPnl(executions: seq<Record>, ticker: Name, close: real): real {
    match OpenPosition(executions, ticker, close)
    case None => 0.0
    case Some(x) => x.unrealizedPnl
  }

  /** On one ticker the reconciliation reads: net P&L less realized P&L is the open
      position's P&L at the close. */
  lemma OneTickerReconciles(run: Setup, a: Account, row: Row, clock: int)
    requires Steady(run, a) && Linked(run.cfg, run.owner, run.account, a, clock)
    ensures CloseEquity(run, a, row) - run.cfg.initialCash - RealizedTotal(AccountRecon(a).executions)
         == OpenPnl(AccountRecon(a).executions, run.ticker, row.bar.close)
  {
    var latest := map[run.ticker := row.bar];
    var open := UnrealizedOf(AccountRecon(a).executions, latest);
    EquitySplits(run.cfg, run.owner, run.account, a, latest);
    OneTickerValue(a.book, run.ticker, latest);
    if |a.book| == 1 {
      assert a.book[1..] == [];
      assert Total(a.book[1..], open) == 0.0;
      assert Total(a.book, open) == Unrealized(AccountRecon(a).executions, latest, a.book[0]);
    } else {
      OpenPositionIs(run.cfg, run.owner, run.account, a, run.ticker, row.bar.close);
    }
  }

  /** The last snapshot of a run is its account at the last close. */
  lemma LastSnapshot<S>(run: Setup, ex: Executor<S>, rows: seq<Row>, history: seq<Row>, due: set<int>, n: nat)
    requires 0 < n <= |rows| && Play(run, ex, rows, history, due, n).Next?
    ensures
      var sim := Play(run, ex, rows, history, due, n).sim;
      && |sim.snapshots| > 0
      && sim.snapshots[|sim.snapshots| - 1].equity == CloseEquity(run, sim.account, rows[n - 1])
  {
    var before := Play(run, ex, rows, history, due, n - 1);
    SameAccount(run, ex, before.sim, rows[n - 1], ClosesUpTo(history, rows[n - 1].date), rows[n - 1].date in due);
  }

  /** Whole-run reconciliation: a finished run's last equity is the initial cash plus the
      reconstructed realized P&L plus what the ledger reports for the open position. */
  lemma FinishedRunsReconcile<S>(run: Setup, ex: Executor<S>, rows: seq<Row>, history: seq<Row>,
      cal: Calendar, frequency: Frequency)
    requires GoodSetup(run) && Simulate(run, ex, rows, history, cal, frequency).Next?
    ensures
      var sim := Simulate(run, ex, rows, history, cal, frequency).sim;
      var executions := AccountRecon(sim.account).executions;
      && |rows| > 0 && |sim.snapshots| == |rows|
      && sim.snapshots[|rows| - 1].equity - run.cfg.initialCash
           == RealizedTotal(executions) + OpenPnl(executions, run.ticker, rows[|rows| - 1].bar.close)
  {
    var due := DecisionDates(Dates(rows), cal, frequency).value;
    SimulationRuns.FinishedRuns(run, ex, rows, history, cal, frequency);
    EveryBarReconciles(run, ex, rows, history, due, |rows|);
    LastSnapshot(run, ex, rows, history, due, |rows|);
    OneTickerReconciles(run, Simulate(run, ex, rows, history, cal, frequency).sim.account, rows[|rows| - 1],
                        ClockAfter(rows, |rows|));
  }
}
