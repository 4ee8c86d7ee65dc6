/** A deterministic run never aborts: from an accepted strategy, over every valid price
    path, no error of the executor or of the position limit can be raised. */
module SimulationDeterministic {
  import opened BrokerModels
  import opened Positions
  import opened Engine
  import opened Schedule
  import opened StrategyPolicy
  import opened PolicyExecutor
  import opened Simulation
  import opened SimulationFills
  import opened SimulationLaws
  import opened SimulationHistory
  import SimulationRuns

  /** `BacktestRunDecisionExecutor` as the runner sees it. */
  function ExecutorOf(spec: RunSpec): Executor<real>
    requires ValidPolicy(spec.policy)
  {
    Executor(MinimumCloses(spec.policy), 0.0, (carried, closes, weight) => Answer(spec, carried, closes, weight))
  }

  function Answer(spec: RunSpec, carried: real, closes: seq<real>, weight: real): (real, Option<real>) {
    if !ValidPolicy(spec.policy) then (carried, None)
    else
      var (next, answer) := PolicyExecutor.Decide(spec, carried, closes, weight);
      (next, if answer.Done? then Some(answer.value) else None)
  }

  ghost predicate PositiveCloses(history: seq<Row>) {
    forall i :: 0 <= i < |history| ==> history[i].bar.close > 0.0
  }

  lemma {:induction false} ClosesArePositive(history: seq<Row>, date: int)
    requires PositiveCloses(history)
    ensures forall i :: 0 <= i < |ClosesUpTo(history, date)| ==> ClosesUpTo(history, date)[i] > 0.0
  {
    if |history| > 0 {
      ClosesArePositive(history[..|history| - 1], date);
    }
  }

  /** The calls the executor has got when a bar is played. */
  function CallsAt(run: Setup, minimum: int, filled: Account, row: Row, closes: seq<real>,
      isDue: bool): seq<Call> {
    if isDue && |closes| >= minimum
    then [Call(closes, Weight(Shares(filled.book, run.ticker), row.bar.close, CloseEquity(run, filled, row)))]
    else []
  }

  function Calls(run: Setup, ex: Executor<real>, rows: seq<Row>, history: seq<Row>, due: set<int>,
      n: nat): seq<Call>
    requires n <= |rows|
  {
    if n == 0 then []
    else
      match Play(run, ex, rows, history, due, n - 1)
      case Abort(_) => []
      case Next(sim) =>
        var row := rows[n - 1];
        Calls(run, ex, rows, history, due, n - 1)
          + CallsAt(run, ex.minimum, AtOpen(run, sim, row).account, row, ClosesUpTo(history, row.date), row.date in due)
  }

  /** The run has not aborted, and the executor carries what its calls say. */
  ghost predicate OnPolicy(run: Setup, spec: RunSpec, step: Step<real>, calls: seq<Call>)
    requires ValidPolicy(spec.policy)
  {
    && step.Next?
    && AllReady(spec.policy, calls)
    && step.sim.executor == CarriedAfter(spec, calls)
  }

  lemma {:induction false} ReadyGrows(p: Policy, calls: seq<Call>, last: Call)
    requires AllReady(p, calls) && ReadyCall(p, last)
    ensures AllReady(p, calls + [last])
  {
  }

  /** The answer to one more ready call is the carried target it leaves. */
  lemma ReadyAnswer(spec: RunSpec, calls: seq<Call>, call: Call)
    requires ValidSpec(spec) && AllReady(spec.policy, calls) && ReadyCall(spec.policy, call)
    ensures AllReady(spec.policy, calls + [call])
    ensures
      var next := CarriedAfter(spec, calls + [call]);
      && Answer(spec, CarriedAfter(spec, calls), call.closes, call.current) == (next, Some(next))
      && 0.0 <= next <= spec.broker.maxPosition * 100.0
  {
    ReadyGrows(spec.policy, calls, call);
    CarriedFollowsLastSignal(spec, calls);
    CarriedFollowsLastSignal(spec, calls + [call]);
    assert (calls + [call])[..|calls|] == calls;
    DecideFollowsSignal(spec, CarriedAfter(spec, calls), call);
    TargetStaysAllowed(spec, CarriedAfter(spec, calls + [call]));
  }

  /** A decision on an answer within the limit. */
  lemma AnswerTaken(run: Setup, spec: RunSpec, sim: Sim<real>, row: Row, closes: seq<real>,
      weight: real, next: real)
    requires ValidPolicy(spec.policy) && |closes| >= MinimumCloses(spec.policy)
    requires weight == Weight(Shares(sim.account.book, run.ticker), row.bar.close, CloseEquity(run, sim.account, row))
    requires Answer(spec, sim.executor, closes, weight) == (next, Some(next))
    requires 0.0 <= next <= run.cfg.maxPosition * 100.0
    ensures
      var step := Simulation.Decide(run, ExecutorOf(spec), sim, row, closes);
      step.Next? && step.sim.executor == next
  {
  }

  /** One decision of a deterministic executor. */
  lemma DecidesOnPolicy(run: Setup, spec: RunSpec, sim: Sim<real>, row: Row, closes: seq<real>,
      calls: seq<Call>)
    requires ValidSpec(spec) && run.cfg == spec.broker
    requires Steady(run, sim.account) && row.bar.close > 0.0
    requires forall i :: 0 <= i < |closes| ==> closes[i] > 0.0
    requires AllReady(spec.policy, calls) && sim.executor == CarriedAfter(spec, calls)
    ensures OnPolicy(run, spec, Simulation.Decide(run, ExecutorOf(spec), sim, row, closes),
                     calls + CallsAt(run, MinimumCloses(spec.policy), sim.account, row, closes, true))
  {
    WeightInRange(run, sim.account, row);
    var weight := Weight(Shares(sim.account.book, run.ticker), row.bar.close, CloseEquity(run, sim.account, row));
    if |closes| >= MinimumCloses(spec.policy) {
      var call := Call(closes, weight);
      ReadyAnswer(spec, calls, call);
      AnswerTaken(run, spec, sim, row, closes, weight, CarriedAfter(spec, calls + [call]));
    } else {
      assert calls + [] == calls;
    }
  }

  lemma TargetStaysAllowed(spec: RunSpec, carried: real)
    requires ValidSpec(spec) && (carried == 0.0 || carried == spec.policy.target * 100.0)
    ensures 0.0 <= carried <= spec.broker.maxPosition * 100.0
  {
  }

  lemma BarOnPolicy(run: Setup, spec: RunSpec, sim: Sim<real>, row: Row, closes: seq<real>,
      isDue: bool, calls: seq<Call>)
    requires ValidSpec(spec) && run.cfg == spec.broker && GoodSetup(run)
    requires Sound(run, sim) && ValidBar(row.bar)
    requires forall i :: 0 <= i < |closes| ==> closes[i] > 0.0
    requires AllReady(spec.policy, calls) && sim.executor == CarriedAfter(spec, calls)
    ensures
      var filled := AtOpen(run, sim, row);
      OnPolicy(run, spec, PlayBar(run, ExecutorOf(spec), sim, row, closes, isDue),
               calls + CallsAt(run, MinimumCloses(spec.policy), filled.account, row, closes, isDue))
  {
    AtOpenKeepsSound(run, sim, row);
    if isDue {
      DecidesOnPolicy(run, spec, AtOpen(run, sim, row), row, closes, calls);
    } else {
      assert calls + [] == calls;
    }
  }

  lemma {:induction false} EveryBarOnPolicy(run: Setup, spec: RunSpec, rows: seq<Row>,
      history: seq<Row>, due: set<int>, n: nat)
    requires ValidSpec(spec) && run.cfg == spec.broker && GoodSetup(run)
    requires ValidFrame(rows) && PositiveCloses(history) && n <= |rows|
    ensures OnPolicy(run, spec, Play(run, ExecutorOf(spec), rows, history, due, n),
                     Calls(run, ExecutorOf(spec), rows, history, due, n))
  {
    if n > 0 {
      EveryBarOnPolicy(run, spec, rows, history, due, n - 1);
      EveryBarIsSound(run, ExecutorOf(spec), rows, history, due, n - 1);
      var row := rows[n - 1];
      assert ValidBar(row.bar);
      ClosesArePositive(history, row.date);
      BarOnPolicy(run, spec, Play(run, ExecutorOf(spec), rows, history, due, n - 1).sim, row,
                  ClosesUpTo(history, row.date),
                  row.date in due, Calls(run, ExecutorOf(spec), rows, history, due, n - 1));
    }
  }

  // ---- in terms of the history ---------------------------------------------------------------

  /** Row `i` is a decision date, its history is long enough, and says this. */
  ghost predicate Says(params: Params, rows: seq<Row>, history: seq<Row>, due: set<int>, i: nat, signal: Signal)
    requires GoodParams(params) && i < |rows|
  {
    var m := |SessionsBy(history, rows[i].date)|;
    && rows[i].date in due && StoredMinimum(params) <= m <= |history|
    && StoredSignal(params, history, m) == signal
  }

  /** Some decision date of the first `n` rows says to enter, and none after it to leave. */
  ghost predicate InMarket(params: Params, rows: seq<Row>, history: seq<Row>, due: set<int>, n: nat)
    requires GoodParams(params) && n <= |rows|
  {
    exists i: nat :: i < n && Says(params, rows, history, due, i, Enter)
      && forall j: nat :: i < j < n ==> !Says(params, rows, history, due, j, Leave)
  }

  lemma InMarketGrows(params: Params, rows: seq<Row>, history: seq<Row>, due: set<int>, n: nat)
    requires GoodParams(params) && n < |rows|
    ensures InMarket(params, rows, history, due, n + 1) <==>
      || Says(params, rows, history, due, n, Enter)
      || (InMarket(params, rows, history, due, n) && !Says(params, rows, history, due, n, Leave))
  {
    if InMarket(params, rows, history, due, n + 1) && !Says(params, rows, history, due, n, Enter) {
      var i: nat :| i < n + 1 && Says(params, rows, history, due, i, Enter)
        && forall j: nat :: i < j < n + 1 ==> !Says(params, rows, history, due, j, Leave);
      assert i < n;
    }
    if InMarket(params, rows, history, due, n) && !Says(params, rows, history, due, n, Leave) {
      var i: nat :| i < n && Says(params, rows, history, due, i, Enter)
        && forall j: nat :: i < j < n ==> !Says(params, rows, history, due, j, Leave);
      assert forall j: nat :: i < j < n + 1 ==> !Says(params, rows, history, due, j, Leave);
    }
  }

  /** What a bar's call says, and what its rows say. */
  lemma CallSays(p: Policy, rows: seq<Row>, history: seq<Row>, due: set<int>, i: nat, signal: Signal)
    requires ValidPolicy(p) && InDateOrder(history) && i < |rows|
    ensures
      var closes := ClosesUpTo(history, rows[i].date);
      Says(ParamsOf(p), rows, history, due, i, signal) <==>
        rows[i].date in due && |closes| >= MinimumCloses(p) && SignalOf(p, closes) == signal
  {
    var closes := ClosesUpTo(history, rows[i].date);
    ClosesAre(history, rows[i].date);
    if |closes| >= MinimumCloses(p) {
      SignalOfRows(p, history, closes);
    }
  }

  lemma SignalsGrow(p: Policy, calls: seq<Call>, call: Call)
    requires ValidPolicy(p)
    ensures Signals(p, calls + [call]) == Signals(p, calls)
      + if |call.closes| >= MinimumCloses(p) then [SignalOf(p, call.closes)] else []
  {
    assert (calls + [call])[..|calls|] == calls;
  }

  /** A bar adds the signal of its closes, if it is due and there are enough. */
  lemma BarSignals(run: Setup, spec: RunSpec, rows: seq<Row>, history: seq<Row>, due: set<int>, n: nat)
    requires ValidPolicy(spec.policy) && 0 < n <= |rows|
    requires Play(run, ExecutorOf(spec), rows, history, due, n - 1).Next?
    ensures
      var closes := ClosesUpTo(history, rows[n - 1].date);
      Signals(spec.policy, Calls(run, ExecutorOf(spec), rows, history, due, n))
        == Signals(spec.policy, Calls(run, ExecutorOf(spec), rows, history, due, n - 1))
           + if rows[n - 1].date in due && |closes| >= MinimumCloses(spec.policy)
             then [SignalOf(spec.policy, closes)] else []
  {
    var calls := Calls(run, ExecutorOf(spec), rows, history, due, n - 1);
    var row := rows[n - 1];
    var closes := ClosesUpTo(history, row.date);
    var sim := Play(run, ExecutorOf(spec), rows, history, due, n - 1).sim;
    var own := CallsAt(run, MinimumCloses(spec.policy), AtOpen(run, sim, row).account, row, closes, row.date in due);
    if own != [] {
      assert own == [own[0]];
      SignalsGrow(spec.policy, calls, own[0]);
    } else {
      assert calls + [] == calls;
    }
  }

  /** The signals of the decision dates with enough history, by the closes seen. */
  function RowSignals(p: Policy, rows: seq<Row>, history: seq<Row>, due: set<int>, n: nat): seq<Signal>
    requires ValidPolicy(p) && n <= |rows|
  {
    if n == 0 then []
    else
      var closes := ClosesUpTo(history, rows[n - 1].date);
      RowSignals(p, rows, history, due, n - 1)
        + if rows[n - 1].date in due && |closes| >= MinimumCloses(p) then [SignalOf(p, closes)] else []
  }

  lemma NextBefore(run: Setup, ex: Executor<real>, rows: seq<Row>, history: seq<Row>, due: set<int>, n: nat)
    requires 0 < n <= |rows| && Play(run, ex, rows, history, due, n).Next?
    ensures Play(run, ex, rows, history, due, n - 1).Next?
  {
  }

  lemma {:induction false} CallsSignal(run: Setup, spec: RunSpec, rows: seq<Row>, history: seq<Row>,
      due: set<int>, n: nat)
    requires ValidPolicy(spec.policy) && n <= |rows|
    requires Play(run, ExecutorOf(spec), rows, history, due, n).Next?
    ensures Signals(spec.policy, Calls(run, ExecutorOf(spec), rows, history, due, n))
         == RowSignals(spec.policy, rows, history, due, n)
  {
    if n > 0 {
      NextBefore(run, ExecutorOf(spec), rows, history, due, n);
      CallsSignal(run, spec, rows, history, due, n - 1);
      BarSignals(run, spec, rows, history, due, n);
    }
  }

  /** Entered by those signals is in the market by the rows. */
  lemma {:induction false} EnteredByRows(p: Policy, rows: seq<Row>, history: seq<Row>, due: set<int>, n: nat)
    requires ValidPolicy(p) && InDateOrder(history) && n <= |rows|
    ensures Entered(RowSignals(p, rows, history, due, n)) <==> InMarket(ParamsOf(p), rows, history, due, n)
  {
    if n > 0 {
      EnteredByRows(p, rows, history, due, n - 1);
      InMarketGrows(ParamsOf(p), rows, history, due, n - 1);
      CallSays(p, rows, history, due, n - 1, Enter);
      CallSays(p, rows, history, due, n - 1, Leave);
      var signals := RowSignals(p, rows, history, due, n - 1);
      var closes := ClosesUpTo(history, rows[n - 1].date);
      if rows[n - 1].date in due && |closes| >= MinimumCloses(p) {
        EnteredGrows(signals, SignalOf(p, closes));
      } else {
        assert signals + [] == signals;
      }
    }
  }

  /** A deterministic decision is recorded with the target it leaves with the executor, or
      as not ready, exactly when there are too few closes. */
  lemma DecisionRecords(run: Setup, spec: RunSpec, sim: Sim<real>, row: Row, closes: seq<real>)
    requires ValidPolicy(spec.policy)
    ensures
      var step := PlayBar(run, ExecutorOf(spec), sim, row, closes, true);
      step.Next? ==>
        && |step.sim.decisions| > 0
        && var last := step.sim.decisions[|step.sim.decisions| - 1];
        && last.signalDate == row.date
        && (last.outcome.NotReady? <==> |closes| < MinimumCloses(spec.policy))
        && (last.outcome.Completed? ==> last.outcome.target == step.sim.executor)
  {
  }

  /** A decision is of its date, is not ready exactly when there are fewer sessions on or
      before it than the strategy needs, and otherwise asks for the target carried. */
  ghost predicate Records(params: Params, history: seq<Row>, date: int, d: Decision, carried: real)
    requires GoodParams(params)
  {
    && d.signalDate == date
    && (d.outcome.NotReady? <==> |SessionsBy(history, date)| < StoredMinimum(params))
    && (d.outcome.Completed? ==> d.outcome.target == carried)
  }

  /** The target carried after a bar, and the decision of the bar, if it has one. */
  ghost predicate DecidedAt(params: Params, target: real, rows: seq<Row>, history: seq<Row>, due: set<int>,
      n: nat, sim: Sim<real>)
    requires GoodParams(params) && n <= |rows|
  {
    && sim.executor == (if InMarket(params, rows, history, due, n) then target else 0.0)
    && (n > 0 && rows[n - 1].date in due ==>
          && |sim.decisions| > 0
          && Records(params, history, rows[n - 1].date, sim.decisions[|sim.decisions| - 1], sim.executor))
  }

  /** After every bar of a deterministic run the carried target is the policy's target
      while some decision date said to enter and none after it to leave, and zero otherwise;
      it is what the bar's own decision asks for, and a decision is not ready exactly when
      there are fewer sessions on or before its date than the policy needs. */
  lemma CarriedTarget(run: Setup, spec: RunSpec, rows: seq<Row>, history: seq<Row>, due: set<int>, n: nat)
    requires ValidSpec(spec) && run.cfg == spec.broker && GoodSetup(run)
    requires ValidFrame(rows) && PositiveCloses(history) && InDateOrder(history) && n <= |rows|
    ensures
      var step := Play(run, ExecutorOf(spec), rows, history, due, n);
      && step.Next?
      && DecidedAt(ParamsOf(spec.policy), spec.policy.target * 100.0, rows, history, due, n, step.sim)
  {
    TargetCarried(run, spec, rows, history, due, n);
    if n > 0 && rows[n - 1].date in due {
      BarRecords(run, spec, rows, history, due, n);
    }
  }

  lemma TargetCarried(run: Setup, spec: RunSpec, rows: seq<Row>, history: seq<Row>, due: set<int>, n: nat)
    requires ValidSpec(spec) && run.cfg == spec.broker && GoodSetup(run)
    requires ValidFrame(rows) && PositiveCloses(history) && InDateOrder(history) && n <= |rows|
    ensures
      var step := Play(run, ExecutorOf(spec), rows, history, due, n);
      && step.Next?
      && step.sim.executor ==
           if InMarket(ParamsOf(spec.policy), rows, history, due, n) then spec.policy.target * 100.0 else 0.0
  {
    EveryBarOnPolicy(run, spec, rows, history, due, n);
    CarriedFollowsLastSignal(spec, Calls(run, ExecutorOf(spec), rows, history, due, n));
    CallsSignal(run, spec, rows, history, due, n);
    EnteredByRows(spec.policy, rows, history, due, n);
  }

  lemma BarRecords(run: Setup, spec: RunSpec, rows: seq<Row>, history: seq<Row>, due: set<int>, n: nat)
    requires ValidPolicy(spec.policy) && 0 < n <= |rows| && rows[n - 1].date in due
    requires Play(run, ExecutorOf(spec), rows, history, due, n).Next?
    ensures
      var sim := Play(run, ExecutorOf(spec), rows, history, due, n).sim;
      && |sim.decisions| > 0
      && Records(ParamsOf(spec.policy), history, rows[n - 1].date, sim.decisions[|sim.decisions| - 1], sim.executor)
  {
    var row := rows[n - 1];
    DecisionRecords(run, spec, Play(run, ExecutorOf(spec), rows, history, due, n - 1).sim, row,
                    ClosesUpTo(history, row.date));
    ClosesCount(history, row.date);
  }

  // ---- whole runs --------------------------------------------------------------------------

  /** No decision date has as many sessions on or before it as the policy needs. */
  ghost predicate NeverEnough(rows: seq<Row>, history: seq<Row>, due: set<int>, minimum: int, n: nat)
    requires n <= |rows|
  {
    forall i :: 0 <= i < n && rows[i].date in due ==> |SessionsBy(history, rows[i].date)| < minimum
  }

  /** A bar completes one decision exactly when it is due and has enough history. */
  lemma BarCompletes(run: Setup, ex: Executor<real>, sim: Sim<real>, row: Row, closes: seq<real>, isDue: bool)
    ensures
      var result := PlayBar(run, ex, sim, row, closes, isDue);
      result.Next? ==>
        result.sim.progress.completed == sim.progress.completed + if isDue && |closes| >= ex.minimum then 1 else 0
  {
  }

  lemma NeverEnoughGrows(rows: seq<Row>, history: seq<Row>, due: set<int>, minimum: int, n: nat)
    requires n < |rows|
    ensures NeverEnough(rows, history, due, minimum, n + 1) <==>
      NeverEnough(rows, history, due, minimum, n)
      && (rows[n].date in due ==> |SessionsBy(history, rows[n].date)| < minimum)
  {
  }

  /** Decisions are completed exactly when there was enough history for one. */
  lemma {:induction false} CompletedExactly(run: Setup, ex: Executor<real>, rows: seq<Row>,
      history: seq<Row>, due: set<int>, n: nat)
    requires n <= |rows| && Play(run, ex, rows, history, due, n).Next?
    ensures Play(run, ex, rows, history, due, n).sim.progress.completed == 0
       <==> NeverEnough(rows, history, due, ex.minimum, n)
  {
    if n > 0 {
      CompletedExactly(run, ex, rows, history, due, n - 1);
      NeverEnoughGrows(rows, history, due, ex.minimum, n - 1);
      var row := rows[n - 1];
      ClosesCount(history, row.date);
      BarCompletes(run, ex, Play(run, ex, rows, history, due, n - 1).sim, row, ClosesUpTo(history, row.date),
                   row.date in due);
    }
  }

  /** A deterministic run over a valid window always finishes, except when there are
      decision dates and none of them has enough history. */
  lemma DeterministicRunsFinish(run: Setup, spec: RunSpec, rows: seq<Row>, history: seq<Row>,
      cal: Calendar, frequency: Frequency)
    requires ValidSpec(spec) && run.cfg == spec.broker && GoodSetup(run)
    requires ValidFrame(rows) && |rows| > 0 && PositiveCloses(history) && frequency != OtherFrequency
    ensures
      var result := Simulate(run, ExecutorOf(spec), rows, history, cal, frequency);
      var due := DecisionDates(Dates(rows), cal, frequency).value;
      && (result.Next? || result == Abort(InsufficientHistory))
      && (result == Abort(InsufficientHistory) <==>
            due != {} && NeverEnough(rows, history, due, MinimumCloses(spec.policy), |rows|))
  {
    var due := DecisionDates(Dates(rows), cal, frequency).value;
    EveryBarOnPolicy(run, spec, rows, history, due, |rows|);
    CompletedExactly(run, ExecutorOf(spec), rows, history, due, |rows|);
    SimulationRuns.EveryBarCounts(run, ExecutorOf(spec), rows, history, due, |rows|);
    AllSeen(rows, cal, frequency);
  }

  lemma AllSeen(rows: seq<Row>, cal: Calendar, frequency: Frequency)
    requires ValidFrame(rows) && |rows| > 0 && DecisionDates(Dates(rows), cal, frequency).Some?
    ensures
      var due := DecisionDates(Dates(rows), cal, frequency).value;
      SimulationRuns.Seen(rows, due, |rows|) == due
  {
    var due := DecisionDates(Dates(rows), cal, frequency).value;
    SimulationRuns.DueAreSessions(rows, cal, frequency);
    forall d ensures d in SimulationRuns.Seen(rows, due, |rows|) <==> d in due {
      SimulationRuns.SeenIsEarlier(rows, due, |rows|, d);
    }
  }

  /** From the stored strategy: whatever is accepted runs to the end without an error of
      the executor or the position limit. */
  lemma AcceptedStrategiesNeverAbort(strategy: Strategy, run: Setup, rows: seq<Row>,
      history: seq<Row>, cal: Calendar, frequency: Frequency)
    requires Freeze(strategy, run.ticker).Ok? && run.cfg == Freeze(strategy, run.ticker).value.broker
    requires forall i: nat, j: nat :: run.orderIds(i) == run.orderIds(j) ==> i == j
    requires ValidFrame(rows) && |rows| > 0 && PositiveCloses(history) && frequency != OtherFrequency
    ensures
      var result := Simulate(run, ExecutorOf(Freeze(strategy, run.ticker).value), rows, history, cal, frequency);
      result.Abort? ==> result.error == InsufficientHistory
  {
    FrozenSpecsAreValid(strategy, run.ticker);
    DeterministicRunsFinish(run, Freeze(strategy, run.ticker).value, rows, history, cal, frequency);
  }

  /** From the stored strategy to its run: the target after every bar is the stored
      percentage while the stored rule said so last, on the closes of the history. */
  lemma StoredStrategyDecides(strategy: Strategy, run: Setup, rows: seq<Row>, history: seq<Row>,
      due: set<int>, n: nat)
    requires Freeze(strategy, run.ticker).Ok? && run.cfg == Freeze(strategy, run.ticker).value.broker
    requires forall i: nat, j: nat :: run.orderIds(i) == run.orderIds(j) ==> i == j
    requires ValidFrame(rows) && PositiveCloses(history) && InDateOrder(history) && n <= |rows|
    ensures GoodParams(strategy.params)
    ensures
      var step := Play(run, ExecutorOf(Freeze(strategy, run.ticker).value), rows, history, due, n);
      step.Next? && DecidedAt(strategy.params, strategy.targetPercent.value, rows, history, due, n, step.sim)
  {
    FrozenSpecsAreValid(strategy, run.ticker);
    CarriedTarget(run, Freeze(strategy, run.ticker).value, rows, history, due, n);
  }

  /** The move the runner reports and the one the executor derives use different
      tolerances.  They agree exactly unless the distance is over the executor's absolute
      tolerance and within the runner's relative one. */
  lemma MovesAgreeExactly(target: real, weight: real, maximum: real)
    requires 0.0 <= target <= maximum <= 100.0 && 0.0 <= weight <= 100.0
    ensures DeriveTransition(weight, target, maximum) == Done(MoveTo(target, weight)) <==>
      !(0.000000001 < Abs(target - weight) <= 0.000000001 * Max(target, weight))
  {
  }

  /** Such a case: the executor buys, the runner reports a hold. */
  lemma MovesDisagree()
    ensures DeriveTransition(50.0, 50.00000001, 100.0) == Done(BUY) && MoveTo(50.00000001, 50.0) == HOLD
  {
  }
}
