/** What a run writes to the decision table while it goes on
    (agent/backtest_jobs.py, the persisting observer; broker/backtest_runner.py, its calls):
    the stored rows are the run's own decisions, execution dates included. */
module DecisionRecords {
  import opened BrokerModels
  import opened Engine
  import opened Simulation
  import opened JobTables
  import opened JobResults

  /** The row of a decision; `core` encodes target and action. */
  function RowOf(core: Simulation.Outcome -> int, d: Decision): DecisionRow {
    DecisionRow(d.signalDate, d.executionDate, if d.outcome.NotReady? then DecisionNotReady else DecisionCompleted,
                core(d.outcome), 0)
  }

  /** The sequence whose execution a placement reports, if it reports one. */
  function ExecutedSequence(placement: Placement): Option<nat> {
    match placement
    case Ordered(sequence, _) => Some(sequence)
    case NotAffordable(u) => Some(u.sequence)
    case _ => None
  }

  /** `record_execution`, for what the open of a bar executed. */
  function RecordExecution(t: Tables<Result>, id: Name, placement: Placement, date: int): Tables<Result> {
    match ExecutedSequence(placement)
    case None => t
    case Some(sequence) => UpdateExecution(t, id, sequence, date)
  }

  /** `record_decision`, for the decision a bar adds, if it adds one. */
  function RecordDecision(t: Tables<Result>, id: Name, core: Simulation.Outcome -> int, before: nat,
      decisions: seq<Decision>): Tables<Result>
  {
    if |decisions| <= before then t
    else
      var last := decisions[|decisions| - 1];
      InsertDecision(t, id, last.sequence, RowOf(core, last))
  }

  /** The tables after the first `n` bars of a run of job `id`. */
  function Observed<S>(run: Setup, ex: Executor<S>, rows: seq<Row>, history: seq<Row>, due: set<int>,
      t: Tables<Result>, id: Name, core: Simulation.Outcome -> int, n: nat): Tables<Result>
    requires n <= |rows|
  {
    if n == 0 then t
    else
      var before := Observed(run, ex, rows, history, due, t, id, core, n - 1);
      match Play(run, ex, rows, history, due, n - 1)
      case Abort(_) => before
      case Next(sim) =>
        var row := rows[n - 1];
        var filled := RecordExecution(before, id, Place(run, sim.account, sim.pending, row), row.date);
        match Play(run, ex, rows, history, due, n)
        case Abort(_) => filled
        case Next(after) => RecordDecision(filled, id, core, |sim.decisions|, after.decisions)
  }

  // ---- the invariant ------------------------------------------------------------------

  /** The job's rows are the decisions, by their sequence. */
  ghost predicate Holds(t: Tables<Result>, id: Name, core: Simulation.Outcome -> int, decisions: seq<Decision>) {
    forall s: nat ::
      && ((id, s) in t.decisions <==> 1 <= s <= |decisions|)
      && ((id, s) in t.decisions ==> t.decisions[(id, s)] == RowOf(core, decisions[s - 1]))
  }

  /** Decisions are numbered from one, and the pending intent is the last of them. */
  ghost predicate Numbered<S>(sim: Sim<S>) {
    && |sim.decisions| == sim.sequence
    && (forall i :: 0 <= i < |sim.decisions| ==> sim.decisions[i].sequence == i + 1)
    && (sim.pending.Some? ==>
          && sim.pending.value.sequence == sim.sequence > 0
          && sim.decisions[sim.sequence - 1].outcome.Completed?)
  }

  ghost predicate OthersKept(t: Tables<Result>, u: Tables<Result>, id: Name) {
    forall other: Name, s: nat :: other != id ==>
      && ((other, s) in t.decisions <==> (other, s) in u.decisions)
      && ((other, s) in t.decisions ==> t.decisions[(other, s)] == u.decisions[(other, s)])
  }

  lemma PlacedSequence(run: Setup, a: Account, pending: Option<Intent>, row: Row)
    ensures
      var sequence := ExecutedSequence(Place(run, a, pending, row));
      sequence.Some? ==> pending.Some? && sequence.value == pending.value.sequence
  {
  }

  /** Dating a completed decision dates its row. */
  lemma DateHolds(t: Tables<Result>, id: Name, core: Simulation.Outcome -> int, decisions: seq<Decision>,
      sequence: nat, date: int)
    requires Holds(t, id, core, decisions) && 1 <= sequence <= |decisions|
    requires forall i :: 0 <= i < |decisions| ==> decisions[i].sequence == i + 1
    requires decisions[sequence - 1].outcome.Completed?
    ensures CanExecute(t, id, sequence)
    ensures
      var u := UpdateExecution(t, id, sequence, date);
      Holds(u, id, core, WithExecutionDate(decisions, sequence, date)) && OthersKept(t, u, id)
  {
    assert (id, sequence) in t.decisions;
  }

  /** The open: what is executed has a completed row, which gets its date. */
  lemma OpenHolds<S>(run: Setup, sim: Sim<S>, row: Row, t: Tables<Result>, id: Name, core: Simulation.Outcome -> int)
    requires Holds(t, id, core, sim.decisions) && Numbered(sim)
    ensures
      var placement := Place(run, sim.account, sim.pending, row);
      && (ExecutedSequence(placement).Some? ==> CanExecute(t, id, ExecutedSequence(placement).value))
      && Holds(RecordExecution(t, id, placement, row.date), id, core, AtOpen(run, sim, row).decisions)
      && OthersKept(t, RecordExecution(t, id, placement, row.date), id)
    ensures Numbered(AtOpen(run, sim, row))
  {
    PlacedSequence(run, sim.account, sim.pending, row);
    var sequence := ExecutedSequence(Place(run, sim.account, sim.pending, row));
    if sequence.Some? {
      DateHolds(t, id, core, sim.decisions, sequence.value, row.date);
    }
  }

  lemma CloseShape<S>(run: Setup, ex: Executor<S>, sim: Sim<S>, row: Row, closes: seq<real>, isDue: bool)
    requires Numbered(AtOpen(run, sim, row))
    ensures
      var filled := AtOpen(run, sim, row);
      var step := PlayBar(run, ex, sim, row, closes, isDue);
      step.Next? ==>
        && Numbered(step.sim)
        && (step.sim.decisions == filled.decisions
            || (|step.sim.decisions| == |filled.decisions| + 1
                && step.sim.decisions[..|filled.decisions|] == filled.decisions))
  {
  }

  /** The close: the decision it adds gets a row. */
  lemma RecordHolds(t: Tables<Result>, id: Name, core: Simulation.Outcome -> int, before: seq<Decision>,
      after: seq<Decision>)
    requires Holds(t, id, core, before)
    requires after == before || (|after| == |before| + 1 && after[..|before|] == before
                                 && after[|before|].sequence == |before| + 1)
    ensures Holds(RecordDecision(t, id, core, |before|, after), id, core, after)
    ensures OthersKept(t, RecordDecision(t, id, core, |before|, after), id)
  {
  }

  lemma AtOpenCount<S>(run: Setup, sim: Sim<S>, row: Row)
    ensures |AtOpen(run, sim, row).decisions| == |sim.decisions|
  {
  }

  lemma {:induction false} EveryBarHolds<S>(run: Setup, ex: Executor<S>, rows: seq<Row>, history: seq<Row>,
      due: set<int>, t: Tables<Result>, id: Name, core: Simulation.Outcome -> int, n: nat)
    requires n <= |rows| && Play(run, ex, rows, history, due, n).Next? && Holds(t, id, core, [])
    ensures
      var sim := Play(run, ex, rows, history, due, n).sim;
      var stored := Observed(run, ex, rows, history, due, t, id, core, n);
      Numbered(sim) && Holds(stored, id, core, sim.decisions) && OthersKept(t, stored, id)
  {
    if n > 0 {
      EveryBarHolds(run, ex, rows, history, due, t, id, core, n - 1);
      var sim := Play(run, ex, rows, history, due, n - 1).sim;
      var before := Observed(run, ex, rows, history, due, t, id, core, n - 1);
      var row := rows[n - 1];
      OpenHolds(run, sim, row, before, id, core);
      AtOpenCount(run, sim, row);
      CloseShape(run, ex, sim, row, ClosesUpTo(history, row.date), row.date in due);
      RecordHolds(RecordExecution(before, id, Place(run, sim.account, sim.pending, row), row.date), id, core,
                  AtOpen(run, sim, row).decisions, Play(run, ex, rows, history, due, n).sim.decisions);
    }
  }

  /** One row for each decision, under its number. */
  ghost predicate AreRows(stored: map<nat, DecisionRow>, core: Simulation.Outcome -> int, decisions: seq<Decision>) {
    forall s: nat ::
      && (s in stored <==> 1 <= s <= |decisions|)
      && (s in stored ==> stored[s] == RowOf(core, decisions[s - 1]))
  }

  /** After every bar of a run of a job without decisions, what a finished result is given
      as its decisions is what the run decided: one row for each, with the execution date
      the run gave it; and no other job's rows have changed. */
  lemma StoredAsDecided<S>(run: Setup, ex: Executor<S>, rows: seq<Row>, history: seq<Row>, due: set<int>,
      t: Tables<Result>, id: Name, core: Simulation.Outcome -> int, n: nat)
    requires n <= |rows| && Play(run, ex, rows, history, due, n).Next?
    requires forall s: nat :: (id, s) !in t.decisions
    ensures
      var decisions := Play(run, ex, rows, history, due, n).sim.decisions;
      var stored := Observed(run, ex, rows, history, due, t, id, core, n);
      OthersKept(t, stored, id) && AreRows(StoredDecisions(stored, id), core, decisions)
  {
    EveryBarHolds(run, ex, rows, history, due, t, id, core, n);
    var stored := Observed(run, ex, rows, history, due, t, id, core, n);
    HeldAreRows(stored, id, core, Play(run, ex, rows, history, due, n).sim.decisions);
  }

  lemma HeldAreRows(t: Tables<Result>, id: Name, core: Simulation.Outcome -> int, decisions: seq<Decision>)
    requires Holds(t, id, core, decisions)
    ensures AreRows(StoredDecisions(t, id), core, decisions)
  {
    var stored := StoredDecisions(t, id);
    forall s: nat
      ensures s in stored <==> 1 <= s <= |decisions|
      ensures s in stored ==> stored[s] == RowOf(core, decisions[s - 1])
    {
      DecisionAt(t, id, s);
      assert (id, s) in t.decisions <==> 1 <= s <= |decisions|;
    }
  }

  /** No execution is reported for a decision that is missing or not completed, so the
      observer never fails on one. */
  lemma ExecutionsAreRecorded<S>(run: Setup, ex: Executor<S>, rows: seq<Row>, history: seq<Row>, due: set<int>,
      t: Tables<Result>, id: Name, core: Simulation.Outcome -> int, n: nat)
    requires n < |rows| && Play(run, ex, rows, history, due, n).Next?
    requires forall s: nat :: (id, s) !in t.decisions
    ensures
      var sim := Play(run, ex, rows, history, due, n).sim;
      var sequence := ExecutedSequence(Place(run, sim.account, sim.pending, rows[n]));
      sequence.Some? ==> CanExecute(Observed(run, ex, rows, history, due, t, id, core, n), id, sequence.value)
  {
    EveryBarHolds(run, ex, rows, history, due, t, id, core, n);
    OpenHolds(run, Play(run, ex, rows, history, due, n).sim, rows[n],
              Observed(run, ex, rows, history, due, t, id, core, n), id, core);
  }
}
