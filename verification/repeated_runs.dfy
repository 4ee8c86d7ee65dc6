/** Running the same inputs again on the same runner, broker, ledger and executor. */
module RepeatedRuns {
  import opened BrokerModels
  import opened TradeLedgers
  import opened Reconciliation
  import opened Schedule
  import opened Simulation
  import opened SimulationFills
  import opened SimulationIsolation
  import opened Runners

  /** The same report, but for generated ids: decisions, metrics and end position are
      equal, the daily equity series, orders, executions and closed trades alike. */
  ghost predicate AlikeReports(r: Report, q: Report) {
    && r.decisions == q.decisions && r.unfilled == q.unfilled && r.moves == q.moves && r.progress == q.progress
    && r.rejections == q.rejections && r.metrics == q.metrics && r.endPosition == q.endPosition
    && |r.portfolio| == |q.portfolio|
    && |r.orders| == |q.orders| && |r.executions| == |q.executions| && |r.closed| == |q.closed|
    && (forall k :: 0 <= k < |r.portfolio| ==> AnonymousSnapshot(r.portfolio[k]) == AnonymousSnapshot(q.portfolio[k]))
    && (forall k :: 0 <= k < |r.orders| ==> AnonymousOrder(r.orders[k]) == AnonymousOrder(q.orders[k]))
    && (forall k :: 0 <= k < |r.executions| ==> AnonymousRecord(r.executions[k]) == AnonymousRecord(q.executions[k]))
    && (forall k :: 0 <= k < |r.closed| ==> AnonymousTrade(r.closed[k]) == AnonymousTrade(q.closed[k]))
  }

  /** The same error, or the same report but for ids. */
  ghost predicate AlikeResults(x: RunResult, y: RunResult) {
    match x
    case Failed(e) => y == Failed(e)
    case Finished(report) => y.Finished? && AlikeReports(report, y.report)
  }

  lemma EquitiesAlike<S>(s: Sim<S>, t: Sim<S>)
    requires Alike(s, t)
    ensures Equities(s.snapshots) == Equities(t.snapshots)
  {
    forall k | 0 <= k < |s.snapshots| ensures s.snapshots[k].equity == t.snapshots[k].equity {
      assert AnonymousSnapshot(s.snapshots[k]) == AnonymousSnapshot(t.snapshots[k]);
    }
  }

  lemma ReportsAlike<S>(run: Setup, other: Setup, s: Sim<S>, t: Sim<S>, close: real, r: Report, q: Report)
    requires SameInputs(run, other) && Alike(s, t)
    requires AlikeRecons(AccountRecon(s.account), AccountRecon(t.account))
    requires Reports(run, s, close, r) && Reports(other, t, close, q)
    ensures AlikeReports(r, q)
  {
    EquitiesAlike(s, t);
    TotalsAlike(AccountRecon(s.account).executions, AccountRecon(t.account).executions);
    MetricsUnique(r.metrics, q.metrics, run.cfg.initialCash, Equities(s.snapshots),
                  AccountRecon(s.account), AccountRecon(t.account));
  }

  /** Two runs that both answer what the simple run does answer alike. */
  lemma AnswersAlike<S>(run: Setup, other: Setup, ex: Executor<S>, rows: seq<Row>, history: seq<Row>,
      cal: Calendar, frequency: Frequency, first: RunResult, second: RunResult)
    requires SameInputs(run, other) && GoodSetup(run) && GoodSetup(other)
    requires Answers(run, ex, rows, history, cal, frequency, first)
    requires Answers(other, ex, rows, history, cal, frequency, second)
    ensures AlikeResults(first, second)
  {
    SameInputsRunAlike(run, other, ex, rows, history, cal, frequency);
    var x, y := Simulate(run, ex, rows, history, cal, frequency), Simulate(other, ex, rows, history, cal, frequency);
    if x.Next? {
      SameInputsSameLedger(run, other, ex, rows, history, cal, frequency, x.sim, y.sim);
      ReportsAlike(run, other, x.sim, y.sim, rows[|rows| - 1].bar.close, first.report, second.report);
    }
  }

  /** The same inputs twice, under two fresh sessions: the same error twice, or the same
      report but for ids, whatever the broker and the ledger held before. */
  method RunTwice<S>(runner: BacktestRunner<S>, run: Setup, other: Setup, rows: seq<Row>, history: seq<Row>,
      cal: Calendar, frequency: Frequency)
    returns (first: RunResult, second: RunResult)
    requires runner.Valid() && run.cfg == runner.cfg && SameInputs(run, other) && GoodSetup(run) && GoodSetup(other)
    requires run.owner.session != other.owner.session
    requires runner.Unused(run.account, run.owner.session) && runner.Unused(run.account, other.owner.session)
    modifies runner, runner.broker, runner.ledger
    ensures runner.Valid() && AlikeResults(first, second)
  {
    first := runner.Run(run, rows, history, cal, frequency);
    second := runner.Run(other, rows, history, cal, frequency);
    AnswersAlike(run, other, runner.executor, rows, history, cal, frequency, first, second);
  }

  /** And so with any run in between, of other inputs, on any account. */
  method RunBetween<S>(runner: BacktestRunner<S>, run: Setup, other: Setup, rows: seq<Row>, history: seq<Row>,
      cal: Calendar, frequency: Frequency, between: Setup, betweenRows: seq<Row>, betweenHistory: seq<Row>,
      betweenFrequency: Frequency)
    returns (first: RunResult, middle: RunResult, second: RunResult)
    requires runner.Valid() && run.cfg == runner.cfg == between.cfg && SameInputs(run, other)
    requires GoodSetup(run) && GoodSetup(between) && GoodSetup(other)
    requires run.owner.session != between.owner.session && run.owner.session != other.owner.session
    requires between.owner.session != other.owner.session
    requires runner.Unseen(run.owner.session) && runner.Unseen(between.owner.session)
    requires runner.Unseen(other.owner.session)
    modifies runner, runner.broker, runner.ledger
    ensures runner.Valid() && AlikeResults(first, second)
    ensures Answers(between, runner.executor, betweenRows, betweenHistory, cal, betweenFrequency, middle)
  {
    first := runner.Run(run, rows, history, cal, frequency);
    middle := runner.Run(between, betweenRows, betweenHistory, cal, betweenFrequency);
    second := runner.Run(other, rows, history, cal, frequency);
    AnswersAlike(run, other, runner.executor, rows, history, cal, frequency, first, second);
  }
}
