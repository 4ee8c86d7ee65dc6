/** Workers, submissions and restarts over one job store, in any interleaving
    (agent/backtest_jobs.py, `BacktestJobService`).

    Every event is one atomic step of one party.  Recording a decision is two events, the
    check and the insert, with anything in between; so are gathering a finished result
    and committing it. */
module JobProtocol {
  import opened BrokerModels
  import opened JobTables
  import opened JobResults

  datatype Phase =
    | Idle
    | Cleared(sequence: nat, row: DecisionRow)
    | Gathered(result: Result)
    | Gone

  /** A thread that has started a job. */
  datatype Worker = Worker(job: Name, spec: Spec, phase: Phase)

  datatype World = World(tables: Tables<Result>, workers: map<Name, Worker>)

  datatype Event =
    | Submit(id: Name, request: Text, spec: Text)
    | Begin(worker: Name, job: Name, now: int)
    | BindInput(worker: Name, hash: Hash, payload: Payload)
    | Report(worker: Name, progress: Text)
    | CheckDecision(worker: Name, sequence: nat, row: DecisionRow)
    | WriteDecision(worker: Name)
    | WriteExecution(worker: Name, sequence: nat, date: int)
    | Gather(worker: Name, outcome: Result)
    | Commit(worker: Name)
    | GiveUp(worker: Name, error: Text)
    | Restart(error: Text)

  predicate InPhase(w: World, worker: Name, idle: bool) {
    worker in w.workers && (w.workers[worker].phase == Idle) == idle
  }

  function SetPhase(w: World, worker: Name, phase: Phase): World
    requires worker in w.workers
  {
    w.(workers := w.workers[worker := w.workers[worker].(phase := phase)])
  }

  /** `BacktestJobService.create` and `create_replay` freeze the spec from the request. */
  predicate CanSubmit(env: Env, w: World, request: Text, spec: Text) {
    env.specOf(spec).Some? && env.matches(request, env.specOf(spec).value)
  }

  /** `_run_persisted_job`, its first line: only the caller that marked the job running
      goes on.  It is handed over with the spec it was submitted with, so nobody starts a
      job that an older schema left behind. */
  predicate CanBegin(env: Env, w: World, worker: Name, job: Name) {
    && worker !in w.workers && CanStart(w.tables, job) && w.tables.jobs[job].version == 1
    && w.tables.jobs[job].spec.Some? && env.specOf(w.tables.jobs[job].spec.value).Some?
  }

  function Next(env: Env, w: World, ev: Event): World {
    match ev
    case Submit(id, request, spec) =>
      if CanSubmit(env, w, request, spec) then w.(tables := Create(w.tables, id, request, spec)) else w
    case Begin(worker, job, now) =>
      if CanBegin(env, w, worker, job)
      then World(MarkRunning(w.tables, job, now),
                 w.workers[worker := Worker(job, env.specOf(w.tables.jobs[job].spec.value).value, Idle)])
      else w
    case BindInput(worker, hash, payload) =>
      if InPhase(w, worker, true)
      then w.(tables := Bind(env.digest, w.tables, w.workers[worker].job, hash, payload))
      else w
    case Report(worker, progress) =>
      if InPhase(w, worker, true) then w.(tables := UpdateProgress(w.tables, w.workers[worker].job, progress)) else w
    case CheckDecision(worker, sequence, row) =>
      if InPhase(w, worker, true) && MayRecord(w.tables, w.workers[worker].job)
      then SetPhase(w, worker, Cleared(sequence, row))
      else w
    case WriteDecision(worker) =>
      if worker in w.workers && w.workers[worker].phase.Cleared?
      then
        var cleared := w.workers[worker].phase;
        var tables := InsertDecision(w.tables, w.workers[worker].job, cleared.sequence, cleared.row);
        SetPhase(w.(tables := tables), worker, Idle)
      else w
    case WriteExecution(worker, sequence, date) =>
      if InPhase(w, worker, true)
      then w.(tables := UpdateExecution(w.tables, w.workers[worker].job, sequence, date))
      else w
    case Gather(worker, outcome) =>
      if InPhase(w, worker, true) && Consistent(outcome)
         && Finalized(env, w.tables, w.workers[worker].job, w.workers[worker].spec, outcome).Some?
      then
        SetPhase(w, worker,
                 Gathered(Finalized(env, w.tables, w.workers[worker].job, w.workers[worker].spec, outcome).value))
      else w
    case Commit(worker) =>
      if worker in w.workers && w.workers[worker].phase.Gathered?
      then
        SetPhase(w.(tables := Complete(w.tables, w.workers[worker].job, w.workers[worker].phase.result)), worker, Gone)
      else w
    case GiveUp(worker, error) =>
      if worker in w.workers && w.workers[worker].phase != Gone
      then SetPhase(w.(tables := Fail(w.tables, w.workers[worker].job, error)), worker, Gone)
      else w
    case Restart(error) => w.(tables := Recover(w.tables, error))
  }

  function Run(env: Env, w: World, events: seq<Event>): World {
    if |events| == 0 then w else Next(env, Run(env, w, events[..|events| - 1]), events[|events| - 1])
  }

  /** Tables as the schema migration leaves them: job rows of version 0 with whatever
      content they had, no snapshots and no decisions.  Empty tables are such tables. */
  ghost predicate Migrated(t: Tables<Result>) {
    && t.snapshots == map[] && t.decisions == map[]
    && forall id :: id in t.jobs ==> t.jobs[id].version == 0 && t.jobs[id].snapshotHash.None?
  }

  /** Nobody working. */
  function Start(t: Tables<Result>): World {
    World(t, map[])
  }

  /** The tables after a run. */
  function After(env: Env, t: Tables<Result>, events: seq<Event>): Tables<Result> {
    Run(env, Start(t), events).tables
  }

  // ---- the invariant ------------------------------------------------------------------

  /** A worker's job has been started, belongs to its spec, and is bound once a decision
      has been cleared or a result gathered. */
  ghost predicate WorkerValid(env: Env, t: Tables<Result>, worker: Worker) {
    && Ready(env, t, worker.job, worker.spec)
    && t.jobs[worker.job].startedAt.Some?
    && (worker.phase.Cleared? || worker.phase.Gathered? ==> t.jobs[worker.job].snapshotHash.Some?)
  }

  /** Started jobs have one worker at most, and only that worker writes for them. */
  ghost predicate WorkersValid(env: Env, w: World) {
    && (forall k :: k in w.workers ==> WorkerValid(env, w.tables, w.workers[k]))
    && (forall j, k :: j in w.workers && k in w.workers && j != k ==> w.workers[j].job != w.workers[k].job)
  }

  ghost predicate JobValid(env: Env, job: Job<Result>) {
    || job.version == 0
    || (job.version == 1 && job.spec.Some? && env.specOf(job.spec.value).Some?
        && env.matches(job.request, env.specOf(job.spec.value).value))
  }

  ghost predicate DecisionsBound(t: Tables<Result>) {
    forall k :: k in t.decisions ==> MayRecord(t, k.0)
  }

  ghost predicate TablesOk(env: Env, t: Tables<Result>) {
    && TablesValid(env.digest, t)
    && (forall id :: id in t.jobs ==> JobValid(env, t.jobs[id]))
    && DecisionsBound(t)
  }

  /** Putting `r` in as the result of the job would make it verify with `r` as read. */
  ghost predicate Acceptable(env: Env, t: Tables<Result>, id: Name, r: Result) {
    && id in t.jobs && Verify(env, Tampered(t, id, r), id).Verified?
    && Verify(env, Tampered(t, id, r), id).result == Parsed(r)
  }

  ghost predicate GatheredAcceptable(env: Env, w: World) {
    forall k :: k in w.workers && w.workers[k].phase.Gathered? ==>
      Acceptable(env, w.tables, w.workers[k].job, w.workers[k].phase.result)
  }

  predicate IsDone(t: Tables<Result>, id: Name) {
    id in t.jobs && t.jobs[id].status == Done
  }

  /** A completed job is served with the result it was completed with. */
  ghost predicate DoneServed(env: Env, t: Tables<Result>) {
    forall id :: IsDone(t, id) && t.jobs[id].version == 1 ==>
      t.jobs[id].result.Some? && Acceptable(env, t, id, t.jobs[id].result.value)
  }

  /** The worker of a completed job has gone. */
  ghost predicate DoneLeft(w: World) {
    forall k :: k in w.workers && IsDone(w.tables, w.workers[k].job) ==> w.workers[k].phase == Gone
  }

  ghost predicate Inv(env: Env, w: World) {
    && TablesOk(env, w.tables)
    && WorkersValid(env, w)
    && GatheredAcceptable(env, w)
    && DoneServed(env, w.tables)
    && DoneLeft(w)
  }

  // ---- what leaves acceptance alone -----------------------------------------------------

  /** Verification of a job looks at its request, spec and snapshot hash, at the snapshot,
      and at its decisions. */
  ghost predicate SameView(t: Tables<Result>, u: Tables<Result>, id: Name) {
    && id in t.jobs && id in u.jobs
    && u.jobs[id].version == t.jobs[id].version && u.jobs[id].request == t.jobs[id].request
    && u.jobs[id].spec == t.jobs[id].spec && u.jobs[id].snapshotHash == t.jobs[id].snapshotHash
    && SameSnapshot(t, u, t.jobs[id].snapshotHash)
    && SameRows(t, u, id)
  }

  predicate SameSnapshot(t: Tables<Result>, u: Tables<Result>, hash: Option<Hash>) {
    hash.Some? && hash.value in t.snapshots ==>
      hash.value in u.snapshots && u.snapshots[hash.value] == t.snapshots[hash.value]
  }

  lemma AcceptanceStays(env: Env, t: Tables<Result>, u: Tables<Result>, id: Name, r: Result)
    requires SameView(t, u, id) && Acceptable(env, t, id, r)
    ensures Acceptable(env, u, id, r)
  {
    SameRowsSameDecisions(t, u, id);
    var x, y := Tampered(t, id, r), Tampered(u, id, r);
    assert StoredDecisions(x, id) == StoredDecisions(t, id) && StoredDecisions(y, id) == StoredDecisions(u, id);
  }

  /** Between two tables every job but `own` looks the same and ends the same. */
  ghost predicate OnlyTouches(t: Tables<Result>, u: Tables<Result>, own: Option<Name>) {
    && (forall id :: id in t.jobs && own != Some(id) ==> SameView(t, u, id))
    && (forall id :: IsDone(u, id) ==> own != Some(id) && IsDone(t, id) && u.jobs[id] == t.jobs[id])
  }

  lemma DoneKept(env: Env, t: Tables<Result>, u: Tables<Result>, own: Option<Name>)
    requires DoneServed(env, t) && OnlyTouches(t, u, own)
    ensures DoneServed(env, u)
  {
    forall id | IsDone(u, id) && u.jobs[id].version == 1
      ensures u.jobs[id].result.Some? && Acceptable(env, u, id, u.jobs[id].result.value)
    {
      AcceptanceStays(env, t, u, id, t.jobs[id].result.value);
    }
  }

  /** The workers but `own`'s have what they gathered still accepted. */
  lemma GatheredKept(env: Env, w: World, u: Tables<Result>, own: Option<Name>)
    requires GatheredAcceptable(env, w) && OnlyTouches(w.tables, u, own)
    ensures forall k :: k in w.workers && w.workers[k].phase.Gathered? && own != Some(w.workers[k].job) ==>
      Acceptable(env, u, w.workers[k].job, w.workers[k].phase.result)
  {
    forall k | k in w.workers && w.workers[k].phase.Gathered? && own != Some(w.workers[k].job)
      ensures Acceptable(env, u, w.workers[k].job, w.workers[k].phase.result)
    {
      AcceptanceStays(env, w.tables, u, w.workers[k].job, w.workers[k].phase.result);
    }
  }

  // ---- the tables stay in order ------------------------------------------------------------

  lemma RowUpdateOk(env: Env, t: Tables<Result>, id: Name, job: Job<Result>)
    requires TablesOk(env, t) && id in t.jobs && RowAdvances(t.jobs[id], job) && RowValid(job)
    requires job.snapshotHash == t.jobs[id].snapshotHash
    ensures TablesOk(env, t.(jobs := t.jobs[id := job]))
  {
  }

  /** Updating one row that is not done and stays so touches no other. */
  lemma RowUpdateTouches(t: Tables<Result>, id: Name, job: Job<Result>)
    requires job.status != Done
    ensures OnlyTouches(t, t.(jobs := t.jobs[id := job]), Some(id))
  {
  }

  lemma SubmitTables(env: Env, t: Tables<Result>, id: Name, request: Text, spec: Text)
    requires TablesOk(env, t) && env.specOf(spec).Some? && env.matches(request, env.specOf(spec).value)
    ensures TablesOk(env, Create(t, id, request, spec))
    ensures OnlyTouches(t, Create(t, id, request, spec), None)
  {
  }

  lemma BindTables(env: Env, t: Tables<Result>, id: Name, hash: Hash, payload: Payload)
    requires TablesOk(env, t) && id in t.jobs && t.jobs[id].status != Done
    ensures TablesOk(env, Bind(env.digest, t, id, hash, payload))
    ensures OnlyTouches(t, Bind(env.digest, t, id, hash, payload), Some(id))
  {
  }

  /** Writing a decision row of a bound job touches no other job. */
  lemma DecisionTables(env: Env, t: Tables<Result>, id: Name, sequence: nat, row: DecisionRow)
    requires TablesOk(env, t) && MayRecord(t, id) && t.jobs[id].status != Done
    ensures TablesOk(env, InsertDecision(t, id, sequence, row))
    ensures TablesAdvance(t, InsertDecision(t, id, sequence, row))
    ensures OnlyTouches(t, InsertDecision(t, id, sequence, row), Some(id))
  {
  }

  lemma FailTables(env: Env, t: Tables<Result>, id: Name, error: Text)
    requires TablesOk(env, t) && id in t.jobs && t.jobs[id].status != Done
    ensures TablesOk(env, Fail(t, id, error))
    ensures OnlyTouches(t, Fail(t, id, error), Some(id))
  {
    if Unfinished(t.jobs[id]) {
      RowUpdateOk(env, t, id, FailedJob(t.jobs[id], error));
      RowUpdateTouches(t, id, FailedJob(t.jobs[id], error));
    }
  }

  lemma RecoverTables(env: Env, t: Tables<Result>, error: Text)
    requires TablesOk(env, t)
    ensures TablesOk(env, Recover(t, error))
    ensures OnlyTouches(t, Recover(t, error), None)
  {
  }

  // ---- every event keeps the invariant ----------------------------------------------------

  lemma WorkerStays(env: Env, t: Tables<Result>, u: Tables<Result>, worker: Worker)
    requires WorkerValid(env, t, worker) && TablesAdvance(t, u)
    ensures WorkerValid(env, u, worker)
  {
    assert RowAdvances(t.jobs[worker.job], u.jobs[worker.job]);
  }

  /** Tables that advance and touch nobody's job keep the invariant. */
  lemma TablesStepKeeps(env: Env, w: World, u: Tables<Result>)
    requires Inv(env, w) && TablesOk(env, u) && TablesAdvance(w.tables, u) && OnlyTouches(w.tables, u, None)
    ensures Inv(env, w.(tables := u))
  {
    DoneKept(env, w.tables, u, None);
    GatheredKept(env, w, u, None);
    forall k | k in w.workers ensures WorkerValid(env, u, w.workers[k]) {
      WorkerStays(env, w.tables, u, w.workers[k]);
    }
  }

  /** Who may write for a job: its one worker, and not once the job is done. */
  lemma OwnJobIsOpen(env: Env, w: World, worker: Name)
    requires Inv(env, w) && worker in w.workers && w.workers[worker].phase != Gone
    ensures w.workers[worker].job in w.tables.jobs && w.tables.jobs[w.workers[worker].job].status != Done
    ensures forall k :: k in w.workers && k != worker ==> w.workers[k].job != w.workers[worker].job
  {
    assert WorkerValid(env, w.tables, w.workers[worker]);
  }

  lemma StepWorkers(env: Env, w: World, worker: Name, u: Tables<Result>, phase: Phase)
    requires WorkersValid(env, w) && TablesAdvance(w.tables, u) && worker in w.workers && !phase.Gathered?
    requires phase.Cleared? ==> MayRecord(w.tables, w.workers[worker].job)
    ensures WorkersValid(env, SetPhase(w.(tables := u), worker, phase))
  {
    var v := SetPhase(w.(tables := u), worker, phase);
    forall k | k in w.workers ensures WorkerValid(env, u, v.workers[k]) {
      WorkerStays(env, w.tables, u, w.workers[k]);
      if k == worker && phase.Cleared? {
        assert RowAdvances(w.tables.jobs[w.workers[worker].job], u.jobs[w.workers[worker].job]);
      }
    }
  }

  /** A step of one worker that touches its own job only, and gathers nothing, keeps the
      invariant. */
  lemma WorkerStepKeeps(env: Env, w: World, worker: Name, u: Tables<Result>, phase: Phase)
    requires Inv(env, w) && TablesOk(env, u) && TablesAdvance(w.tables, u)
    requires worker in w.workers && w.workers[worker].phase != Gone && !phase.Gathered?
    requires OnlyTouches(w.tables, u, Some(w.workers[worker].job))
    requires phase.Cleared? ==> MayRecord(w.tables, w.workers[worker].job)
    ensures Inv(env, SetPhase(w.(tables := u), worker, phase))
  {
    var own := w.workers[worker].job;
    var v := SetPhase(w.(tables := u), worker, phase);
    DoneKept(env, w.tables, u, Some(own));
    GatheredKept(env, w, u, Some(own));
    OwnJobIsOpen(env, w, worker);
    StepWorkers(env, w, worker, u, phase);
    forall k | k in w.workers && IsDone(u, v.workers[k].job) ensures v.workers[k].phase == Gone {
      assert k != worker;
    }
  }

  lemma IdleStays(w: World, worker: Name)
    requires InPhase(w, worker, true)
    ensures w.workers[worker := w.workers[worker].(phase := Idle)] == w.workers
  {
  }

  /** The same for a worker that stays idle. */
  lemma IdleStepKeeps(env: Env, w: World, worker: Name, u: Tables<Result>)
    requires Inv(env, w) && TablesOk(env, u) && TablesAdvance(w.tables, u) && InPhase(w, worker, true)
    requires OnlyTouches(w.tables, u, Some(w.workers[worker].job))
    ensures Inv(env, w.(tables := u))
  {
    WorkerStepKeeps(env, w, worker, u, Idle);
    IdleStays(w, worker);
  }

  lemma SubmitKeeps(env: Env, w: World, id: Name, request: Text, spec: Text)
    requires Inv(env, w)
    ensures Inv(env, Next(env, w, Submit(id, request, spec)))
  {
    if CanSubmit(env, w, request, spec) {
      CreateAdvances(w.tables, id, request, spec);
      SubmitTables(env, w.tables, id, request, spec);
      TablesStepKeeps(env, w, Create(w.tables, id, request, spec));
    }
  }

  /** A pending job has no worker yet, so the new one is its only one. */
  lemma BeginWorkers(env: Env, w: World, worker: Name, job: Name, now: int)
    requires Inv(env, w) && CanBegin(env, w, worker, job)
    ensures forall k :: k in w.workers ==> w.workers[k].job != job
    ensures WorkersValid(env, Next(env, w, Begin(worker, job, now)))
  {
    var u := MarkRunning(w.tables, job, now);
    StartAdvances(w.tables, job, now);
    assert JobValid(env, w.tables.jobs[job]) && RowValid(w.tables.jobs[job]);
    forall k | k in w.workers ensures w.workers[k].job != job && WorkerValid(env, u, w.workers[k]) {
      assert WorkerValid(env, w.tables, w.workers[k]);
      WorkerStays(env, w.tables, u, w.workers[k]);
    }
  }

  lemma BeginKeeps(env: Env, w: World, worker: Name, job: Name, now: int)
    requires Inv(env, w)
    ensures Inv(env, Next(env, w, Begin(worker, job, now)))
  {
    if CanBegin(env, w, worker, job) {
      var u := MarkRunning(w.tables, job, now);
      RowUpdateOk(env, w.tables, job, u.jobs[job]);
      RowUpdateTouches(w.tables, job, u.jobs[job]);
      BeginWorkers(env, w, worker, job, now);
      DoneKept(env, w.tables, u, Some(job));
      GatheredKept(env, w, u, Some(job));
    }
  }

  lemma BindKeeps(env: Env, w: World, worker: Name, hash: Hash, payload: Payload)
    requires Inv(env, w)
    ensures Inv(env, Next(env, w, BindInput(worker, hash, payload)))
  {
    if InPhase(w, worker, true) {
      var job := w.workers[worker].job;
      OwnJobIsOpen(env, w, worker);
      BindTables(env, w.tables, job, hash, payload);
      BindAdvances(env.digest, w.tables, job, hash, payload);
      IdleStepKeeps(env, w, worker, Bind(env.digest, w.tables, job, hash, payload));
    }
  }

  lemma ReportKeeps(env: Env, w: World, worker: Name, progress: Text)
    requires Inv(env, w)
    ensures Inv(env, Next(env, w, Report(worker, progress)))
  {
    if InPhase(w, worker, true) {
      var job := w.workers[worker].job;
      OwnJobIsOpen(env, w, worker);
      assert WorkerValid(env, w.tables, w.workers[worker]);
      ProgressAdvances(w.tables, job, progress);
      RowUpdateOk(env, w.tables, job, w.tables.jobs[job].(progress := Some(progress)));
      RowUpdateTouches(w.tables, job, w.tables.jobs[job].(progress := Some(progress)));
      IdleStepKeeps(env, w, worker, UpdateProgress(w.tables, job, progress));
    }
  }

  lemma SameTables(w: World, own: Name)
    requires own in w.tables.jobs && w.tables.jobs[own].status != Done
    ensures TablesAdvance(w.tables, w.tables) && OnlyTouches(w.tables, w.tables, Some(own))
  {
  }

  lemma CheckKeeps(env: Env, w: World, worker: Name, sequence: nat, row: DecisionRow)
    requires Inv(env, w)
    ensures Inv(env, Next(env, w, CheckDecision(worker, sequence, row)))
  {
    if InPhase(w, worker, true) && MayRecord(w.tables, w.workers[worker].job) {
      OwnJobIsOpen(env, w, worker);
      SameTables(w, w.workers[worker].job);
      WorkerStepKeeps(env, w, worker, w.tables, Cleared(sequence, row));
    }
  }

  /** The insert looks at the job no more, but the job it was cleared for is still bound. */
  lemma WriteKeeps(env: Env, w: World, worker: Name)
    requires Inv(env, w)
    ensures Inv(env, Next(env, w, WriteDecision(worker)))
  {
    if worker in w.workers && w.workers[worker].phase.Cleared? {
      var job, cleared := w.workers[worker].job, w.workers[worker].phase;
      OwnJobIsOpen(env, w, worker);
      assert WorkerValid(env, w.tables, w.workers[worker]);
      DecisionTables(env, w.tables, job, cleared.sequence, cleared.row);
      WorkerStepKeeps(env, w, worker, InsertDecision(w.tables, job, cleared.sequence, cleared.row), Idle);
    }
  }

  lemma ExecutionKeeps(env: Env, w: World, worker: Name, sequence: nat, date: int)
    requires Inv(env, w)
    ensures Inv(env, Next(env, w, WriteExecution(worker, sequence, date)))
  {
    if InPhase(w, worker, true) && CanExecute(w.tables, w.workers[worker].job, sequence) {
      var job := w.workers[worker].job;
      var row := w.tables.decisions[(job, sequence)].(executionDate := Some(date));
      OwnJobIsOpen(env, w, worker);
      DecisionTables(env, w.tables, job, sequence, row);
      IdleStepKeeps(env, w, worker, InsertDecision(w.tables, job, sequence, row));
    }
  }

  lemma GiveUpKeeps(env: Env, w: World, worker: Name, error: Text)
    requires Inv(env, w)
    ensures Inv(env, Next(env, w, GiveUp(worker, error)))
  {
    if worker in w.workers && w.workers[worker].phase != Gone {
      var job := w.workers[worker].job;
      OwnJobIsOpen(env, w, worker);
      FailTables(env, w.tables, job, error);
      FailAdvances(w.tables, job, error);
      WorkerStepKeeps(env, w, worker, Fail(w.tables, job, error), Gone);
    }
  }

  lemma RestartKeeps(env: Env, w: World, error: Text)
    requires Inv(env, w)
    ensures Inv(env, Next(env, w, Restart(error)))
  {
    RecoverTables(env, w.tables, error);
    FailAdvances(w.tables, 0, error);
    TablesStepKeeps(env, w, Recover(w.tables, error));
  }

  /** What is gathered would verify, if it were committed now. */
  lemma GatheredIsAcceptable(env: Env, t: Tables<Result>, id: Name, spec: Spec, outcome: Result)
    requires Ready(env, t, id, spec) && Consistent(outcome) && Finalized(env, t, id, spec, outcome).Some?
    ensures t.jobs[id].snapshotHash.Some?
    ensures Acceptable(env, t, id, Finalized(env, t, id, spec, outcome).value)
  {
    var running := t.(jobs := t.jobs[id := t.jobs[id].(status := Running)]);
    assert StoredDecisions(running, id) == StoredDecisions(t, id);
    var r := Finalized(env, t, id, spec, outcome).value;
    assert Finalized(env, running, id, spec, outcome) == Some(r);
    FinalizedVerifies(env, running, id, spec, outcome);
    var done := Complete(running, id, r);
    assert Acceptable(env, done, id, r) by {
      assert Tampered(done, id, r) == done;
    }
    AcceptanceStays(env, done, t, id, r);
  }

  lemma GatherKeeps(env: Env, w: World, worker: Name, outcome: Result)
    requires Inv(env, w)
    ensures Inv(env, Next(env, w, Gather(worker, outcome)))
  {
    if InPhase(w, worker, true) && Consistent(outcome)
       && Finalized(env, w.tables, w.workers[worker].job, w.workers[worker].spec, outcome).Some? {
      var job, spec := w.workers[worker].job, w.workers[worker].spec;
      OwnJobIsOpen(env, w, worker);
      assert WorkerValid(env, w.tables, w.workers[worker]);
      GatheredIsAcceptable(env, w.tables, job, spec, outcome);
      GatherAddsOne(env, w, worker, Finalized(env, w.tables, job, spec, outcome).value);
    }
  }

  lemma GatherAddsOne(env: Env, w: World, worker: Name, r: Result)
    requires Inv(env, w) && InPhase(w, worker, true) && Acceptable(env, w.tables, w.workers[worker].job, r)
    requires w.tables.jobs[w.workers[worker].job].status != Done
    requires w.tables.jobs[w.workers[worker].job].snapshotHash.Some?
    ensures Inv(env, SetPhase(w, worker, Gathered(r)))
  {
    var v := SetPhase(w, worker, Gathered(r));
    forall k | k in v.workers ensures WorkerValid(env, v.tables, v.workers[k]) {
      assert WorkerValid(env, w.tables, w.workers[k]);
    }
  }

  lemma CommitTables(env: Env, t: Tables<Result>, id: Name, r: Result)
    requires TablesOk(env, t) && CanComplete(t, id) && t.jobs[id].version == 1
    ensures TablesOk(env, Complete(t, id, r))
  {
    RowUpdateOk(env, t, id, Complete(t, id, r).jobs[id]);
  }

  /** Completing a job changes nothing that verification looks at. */
  lemma CommitViews(t: Tables<Result>, id: Name, r: Result, other: Name)
    requires other in t.jobs
    ensures SameView(t, Complete(t, id, r), other)
  {
  }

  lemma CommitServes(env: Env, t: Tables<Result>, id: Name, r: Result)
    requires DoneServed(env, t) && Acceptable(env, t, id, r)
    ensures DoneServed(env, Complete(t, id, r))
  {
    var u := Complete(t, id, r);
    forall k | IsDone(u, k) && u.jobs[k].version == 1
      ensures u.jobs[k].result.Some? && Acceptable(env, u, k, u.jobs[k].result.value)
    {
      CommitViews(t, id, r, k);
      if k == id && CanComplete(t, id) {
        AcceptanceStays(env, t, u, k, r);
      } else {
        AcceptanceStays(env, t, u, k, t.jobs[k].result.value);
      }
    }
  }

  lemma CommitGathered(env: Env, w: World, id: Name, r: Result)
    requires GatheredAcceptable(env, w)
    ensures GatheredAcceptable(env, w.(tables := Complete(w.tables, id, r)))
  {
    forall k | k in w.workers && w.workers[k].phase.Gathered?
      ensures Acceptable(env, Complete(w.tables, id, r), w.workers[k].job, w.workers[k].phase.result)
    {
      CommitViews(w.tables, id, r, w.workers[k].job);
      AcceptanceStays(env, w.tables, Complete(w.tables, id, r), w.workers[k].job, w.workers[k].phase.result);
    }
  }

  lemma CommitWorkers(env: Env, w: World, worker: Name, r: Result)
    requires WorkersValid(env, w) && DoneLeft(w) && worker in w.workers
    ensures
      var v := SetPhase(w.(tables := Complete(w.tables, w.workers[worker].job, r)), worker, Gone);
      WorkersValid(env, v) && DoneLeft(v)
  {
    var u := Complete(w.tables, w.workers[worker].job, r);
    CompleteAdvances(w.tables, w.workers[worker].job, r);
    forall k | k in w.workers ensures WorkerValid(env, u, w.workers[k]) {
      WorkerStays(env, w.tables, u, w.workers[k]);
    }
  }

  lemma CommitKeeps(env: Env, w: World, worker: Name)
    requires Inv(env, w)
    ensures Inv(env, Next(env, w, Commit(worker)))
  {
    if worker in w.workers && w.workers[worker].phase.Gathered? {
      var job, r := w.workers[worker].job, w.workers[worker].phase.result;
      assert WorkerValid(env, w.tables, w.workers[worker]);
      if CanComplete(w.tables, job) {
        CommitTables(env, w.tables, job, r);
      }
      CommitServes(env, w.tables, job, r);
      CommitGathered(env, w, job, r);
      CommitWorkers(env, w, worker, r);
    }
  }

  lemma NextKeeps(env: Env, w: World, ev: Event)
    requires Inv(env, w)
    ensures Inv(env, Next(env, w, ev))
  {
    match ev
    case Submit(id, request, spec) => SubmitKeeps(env, w, id, request, spec);
    case Begin(worker, job, now) => BeginKeeps(env, w, worker, job, now);
    case BindInput(worker, hash, payload) => BindKeeps(env, w, worker, hash, payload);
    case Report(worker, progress) => ReportKeeps(env, w, worker, progress);
    case CheckDecision(worker, sequence, row) => CheckKeeps(env, w, worker, sequence, row);
    case WriteDecision(worker) => WriteKeeps(env, w, worker);
    case WriteExecution(worker, sequence, date) => ExecutionKeeps(env, w, worker, sequence, date);
    case Gather(worker, outcome) => GatherKeeps(env, w, worker, outcome);
    case Commit(worker) => CommitKeeps(env, w, worker);
    case GiveUp(worker, error) => GiveUpKeeps(env, w, worker, error);
    case Restart(error) => RestartKeeps(env, w, error);
  }

  // ---- every run ------------------------------------------------------------------------

  lemma {:induction false} EveryRunKeeps(env: Env, w: World, events: seq<Event>)
    requires Inv(env, w)
    ensures Inv(env, Run(env, w, events))
  {
    if |events| > 0 {
      EveryRunKeeps(env, w, events[..|events| - 1]);
      NextKeeps(env, Run(env, w, events[..|events| - 1]), events[|events| - 1]);
    }
  }

  lemma StartIsValid(env: Env, t: Tables<Result>)
    requires Migrated(t)
    ensures Inv(env, Start(t))
  {
  }

  lemma NextAdvances(env: Env, w: World, ev: Event)
    requires Inv(env, w)
    ensures TablesAdvance(w.tables, Next(env, w, ev).tables)
  {
    match ev
    case Submit(id, request, spec) => CreateAdvances(w.tables, id, request, spec);
    case Begin(worker, job, now) => if CanBegin(env, w, worker, job) { StartAdvances(w.tables, job, now); }
    case Restart(error) => FailAdvances(w.tables, 0, error);
    case _ => WorkerAdvances(env, w, ev);
  }

  lemma WorkerAdvances(env: Env, w: World, ev: Event)
    requires !ev.Submit? && !ev.Begin? && !ev.Restart?
    ensures TablesAdvance(w.tables, Next(env, w, ev).tables)
  {
    if ev.worker in w.workers {
      var job := w.workers[ev.worker].job;
      match ev
      case BindInput(worker, hash, payload) => BindAdvances(env.digest, w.tables, job, hash, payload);
      case Report(worker, progress) => ProgressAdvances(w.tables, job, progress);
      case Commit(worker) =>
        if w.workers[worker].phase.Gathered? {
          CompleteAdvances(w.tables, job, w.workers[worker].phase.result);
        }
      case GiveUp(worker, error) => FailAdvances(w.tables, job, error);
      case CheckDecision(_, _, _) =>
      case WriteDecision(_) =>
      case WriteExecution(_, _, _) =>
      case Gather(_, _) =>
    }
  }

  predicate StatusStep(s: JobTables.Status, later: JobTables.Status) {
    || later == s
    || (s == Pending && (later == Running || later == JobTables.Failed))
    || (s == Running && (later == Done || later == JobTables.Failed))
  }

  /** One event moves a job at most one arrow: PENDING to RUNNING or FAILED, RUNNING to
      DONE or FAILED. */
  lemma NextStatus(env: Env, w: World, ev: Event, id: Name)
    requires id in w.tables.jobs
    ensures id in Next(env, w, ev).tables.jobs
    ensures StatusStep(w.tables.jobs[id].status, Next(env, w, ev).tables.jobs[id].status)
  {
  }

  /** Status only moves forward, one start per job, hashes and outcomes never change once
      set: between any two moments of a run. */
  lemma {:induction false} EveryRunAdvances(env: Env, w: World, events: seq<Event>)
    requires Inv(env, w)
    ensures TablesAdvance(w.tables, Run(env, w, events).tables)
  {
    if |events| > 0 {
      var mid := Run(env, w, events[..|events| - 1]);
      EveryRunAdvances(env, w, events[..|events| - 1]);
      EveryRunKeeps(env, w, events[..|events| - 1]);
      NextAdvances(env, mid, events[|events| - 1]);
      AdvanceTransitive(w.tables, mid.tables, Run(env, w, events).tables);
    }
  }

  /** After any interleaving: results exactly for completed jobs, errors exactly for
      failed ones; a completed job has its snapshot stored under its hash; decisions
      belong to bound jobs; and no job was started by two workers. */
  lemma ReachableStates(env: Env, start: Tables<Result>, events: seq<Event>)
    requires Migrated(start)
    ensures
      var w := Run(env, Start(start), events);
      && TablesValid(env.digest, w.tables)
      && DecisionsBound(w.tables)
      && (forall j, k :: j in w.workers && k in w.workers && w.workers[j].job == w.workers[k].job ==> j == k)
  {
    StartIsValid(env, start);
    EveryRunKeeps(env, Start(start), events);
  }

  /** Rows of an older schema take no part: they stay as they were, but for the unfinished
      ones that a restart fails. */
  ghost predicate LegacyRow(job: Job<Result>, later: Job<Result>) {
    || later == job
    || (Unfinished(job) && later.error.Some? && later == FailedJob(job, later.error.value))
  }

  lemma NextLegacy(env: Env, w: World, ev: Event, id: Name)
    requires Inv(env, w) && id in w.tables.jobs && w.tables.jobs[id].version == 0
    ensures id in Next(env, w, ev).tables.jobs
    ensures LegacyRow(w.tables.jobs[id], Next(env, w, ev).tables.jobs[id])
  {
    if ev.Commit? && ev.worker in w.workers {
      assert WorkerValid(env, w.tables, w.workers[ev.worker]);
    } else if ev.GiveUp? && ev.worker in w.workers {
      assert WorkerValid(env, w.tables, w.workers[ev.worker]);
    }
  }

  lemma {:induction false} LegacyRowsStay(env: Env, start: Tables<Result>, events: seq<Event>, id: Name)
    requires Migrated(start) && id in start.jobs
    ensures id in After(env, start, events).jobs
    ensures LegacyRow(start.jobs[id], After(env, start, events).jobs[id])
  {
    if |events| > 0 {
      var mid := events[..|events| - 1];
      LegacyRowsStay(env, start, mid, id);
      StartIsValid(env, start);
      EveryRunKeeps(env, Start(start), mid);
      NextLegacy(env, Run(env, Start(start), mid), events[|events| - 1], id);
    }
  }

  // ---- how a job comes to be completed ----------------------------------------------------

  /** The job is completed with this result. */
  predicate Finished(t: Tables<Result>, id: Name, r: Result) {
    IsDone(t, id) && t.jobs[id].result == Some(r)
  }

  /** In this state this event is the commit of the result that the job's own worker has
      gathered, for a running job bound to its input. */
  predicate Commits(w: World, ev: Event, id: Name, r: Result) {
    && ev.Commit? && ev.worker in w.workers
    && w.workers[ev.worker].job == id && w.workers[ev.worker].phase == Gathered(r)
    && id in w.tables.jobs && w.tables.jobs[id].status == Running
    && (w.tables.jobs[id].version == 0 || w.tables.jobs[id].snapshotHash.Some?)
  }

  /** A fact that events can only bring about was there at the start or some event of the
      run brought it about. */
  lemma {:induction false} HasCause(
      run: seq<Event> -> World, fact: World -> bool, cause: (World, Event) -> bool, events: seq<Event>)
    requires forall es: seq<Event>, ev: Event :: fact(run(es + [ev])) ==> fact(run(es)) || cause(run(es), ev)
    requires fact(run(events)) && !fact(run([]))
    ensures exists n :: 0 <= n < |events| && cause(run(events[..n]), events[n])
  {
    assert |events| == 0 ==> events == [];
    if |events| > 0 {
      var before := events[..|events| - 1];
      assert events == before + [events[|events| - 1]];
      if fact(run(before)) {
        HasCause(run, fact, cause, before);
        var n :| 0 <= n < |before| && cause(run(before[..n]), before[n]);
        assert before[..n] == events[..n];
      }
    }
  }

  /** And a fact that no event undoes is there once some event has brought it about. */
  lemma {:induction false} CauseLasts(
      run: seq<Event> -> World, fact: World -> bool, cause: (World, Event) -> bool, events: seq<Event>, n: nat)
    requires forall es: seq<Event>, ev: Event :: fact(run(es)) || cause(run(es), ev) ==> fact(run(es + [ev]))
    requires n <= |events|
    requires fact(run(events[..n])) || (n < |events| && cause(run(events[..n]), events[n]))
    ensures fact(run(events))
    decreases |events| - n
  {
    if n == |events| {
      assert events[..n] == events;
    } else {
      assert events[..n + 1] == events[..n] + [events[n]];
      CauseLasts(run, fact, cause, events, n + 1);
    }
  }

  lemma NextFinishes(env: Env, w: World, ev: Event, id: Name, r: Result)
    ensures Finished(Next(env, w, ev).tables, id, r) <==> Finished(w.tables, id, r) || Commits(w, ev, id, r)
  {
  }

  lemma RunExtends(env: Env, start: World, es: seq<Event>, ev: Event)
    ensures Run(env, start, es + [ev]) == Next(env, Run(env, start, es), ev)
  {
    assert (es + [ev])[..|es|] == es;
  }

  /** A job is completed with a result exactly when it was so at the start or some event
      of the run committed that result for it: no other event completes a job, and none
      undoes it. */
  lemma DoneExactlyByCommit(env: Env, start: World, events: seq<Event>, id: Name, r: Result)
    ensures Finished(Run(env, start, events).tables, id, r)
       <==> Finished(start.tables, id, r)
            || exists n :: 0 <= n < |events| && Commits(Run(env, start, events[..n]), events[n], id, r)
  {
    var run := (es: seq<Event>) => Run(env, start, es);
    var fact := (w: World) => Finished(w.tables, id, r);
    var cause := (w: World, ev: Event) => Commits(w, ev, id, r);
    forall es: seq<Event>, ev: Event ensures fact(run(es + [ev])) <==> fact(run(es)) || cause(run(es), ev) {
      RunExtends(env, start, es, ev);
      NextFinishes(env, Run(env, start, es), ev, id, r);
    }
    ByCause(run, fact, cause, events);
  }

  lemma ByCause(run: seq<Event> -> World, fact: World -> bool, cause: (World, Event) -> bool,
      events: seq<Event>)
    requires forall es: seq<Event>, ev: Event :: fact(run(es + [ev])) <==> fact(run(es)) || cause(run(es), ev)
    ensures fact(run(events))
       <==> fact(run([])) || exists n :: 0 <= n < |events| && cause(run(events[..n]), events[n])
  {
    if fact(run([])) {
      assert events[..0] == [];
      CauseLasts(run, fact, cause, events, 0);
    } else if fact(run(events)) {
      HasCause(run, fact, cause, events);
    } else if n :| 0 <= n < |events| && cause(run(events[..n]), events[n]) {
      CauseLasts(run, fact, cause, events, n);
    }
  }

  predicate Holds(w: World, worker: Name, r: Result) {
    worker in w.workers && w.workers[worker].phase == Gathered(r)
  }

  /** The event gathers the outcome of the worker's execution, bound to the spec of its
      job, to the stored snapshot and to the stored decisions. */
  predicate Gathers(env: Env, w: World, ev: Event, worker: Name, r: Result) {
    && ev.Gather? && ev.worker == worker && worker in w.workers && Consistent(ev.outcome)
    && Finalized(env, w.tables, w.workers[worker].job, w.workers[worker].spec, ev.outcome) == Some(r)
  }

  lemma NextHolds(env: Env, w: World, ev: Event, worker: Name, r: Result)
    requires Holds(Next(env, w, ev), worker, r)
    ensures Holds(w, worker, r) || Gathers(env, w, ev, worker, r)
  {
  }

  lemma GatheredBefore(env: Env, start: Tables<Result>, events: seq<Event>, worker: Name, r: Result)
    requires Holds(Run(env, Start(start), events), worker, r)
    ensures exists m :: 0 <= m < |events| && Gathers(env, Run(env, Start(start), events[..m]), events[m], worker, r)
  {
    var run := (es: seq<Event>) => Run(env, Start(start), es);
    var fact := (w: World) => Holds(w, worker, r);
    var cause := (w: World, ev: Event) => Gathers(env, w, ev, worker, r);
    forall es: seq<Event>, ev: Event ensures fact(run(es + [ev])) ==> fact(run(es)) || cause(run(es), ev) {
      RunExtends(env, Start(start), es, ev);
      if Holds(Next(env, Run(env, Start(start), es), ev), worker, r) {
        NextHolds(env, Run(env, Start(start), es), ev, worker, r);
      }
    }
    HasCause(run, fact, cause, events);
  }

  /** At `n` of a run the worker commits for the job what it gathered at `m`. */
  ghost predicate GatheredAndCommitted(
      env: Env, start: Tables<Result>, events: seq<Event>, m: nat, n: nat, id: Name, r: Result)
    requires m < n < |events|
  {
    && Commits(Run(env, Start(start), events[..n]), events[n], id, r)
    && Gathers(env, Run(env, Start(start), events[..m]), events[m], events[n].worker, r)
  }

  /** So whatever a job of this schema is completed with was first gathered for it, and
      then committed, by one and the same worker. */
  lemma CommittedWasGathered(env: Env, start: Tables<Result>, events: seq<Event>, id: Name, r: Result)
    requires Migrated(start) && Finished(After(env, start, events), id, r)
    requires After(env, start, events).jobs[id].version == 1
    ensures exists m: nat, n: nat :: m < n < |events| && GatheredAndCommitted(env, start, events, m, n, id, r)
  {
    NotFinishedAtStart(env, start, events, id, r);
    DoneExactlyByCommit(env, Start(start), events, id, r);
    var n :| 0 <= n < |events| && Commits(Run(env, Start(start), events[..n]), events[n], id, r);
    var m := GatheredAt(env, start, events, n, events[n].worker, r);
    assert GatheredAndCommitted(env, start, events, m, n, id, r);
  }

  lemma GatheredAt(env: Env, start: Tables<Result>, events: seq<Event>, n: nat, worker: Name,
      r: Result) returns (m: nat)
    requires n < |events| && Holds(Run(env, Start(start), events[..n]), worker, r)
    ensures m < n && Gathers(env, Run(env, Start(start), events[..m]), events[m], worker, r)
  {
    var before := events[..n];
    GatheredBefore(env, start, before, worker, r);
    m :| 0 <= m < |before| && Gathers(env, Run(env, Start(start), before[..m]), before[m], worker, r);
    assert before[..m] == events[..m];
  }

  lemma NotFinishedAtStart(env: Env, start: Tables<Result>, events: seq<Event>, id: Name, r: Result)
    requires Migrated(start) && id in After(env, start, events).jobs
    requires After(env, start, events).jobs[id].version == 1
    ensures !Finished(start, id, r)
  {
    StartIsValid(env, start);
    EveryRunAdvances(env, Start(start), events);
    assert id in start.jobs ==> RowAdvances(start.jobs[id], After(env, start, events).jobs[id]);
  }

  /** How a completed job is served: with its result, verified against the snapshot it is
      bound to; or unverified, if it comes from an older schema. */
  ghost predicate ServedAsStored(env: Env, t: Tables<Result>, id: Name)
    requires id in t.jobs
  {
    var job := t.jobs[id];
    if job.version == 0 then
      Verify(env, t, id) == if job.result.Some? then Legacy(Parsed(job.result.value)) else Refused
    else
      && job.result.Some? && job.snapshotHash.Some? && job.snapshotHash.value in t.snapshots
      && Verify(env, t, id) == Verified(Parsed(job.result.value), t.snapshots[job.snapshotHash.value])
  }

  lemma ServedNow(env: Env, w: World, id: Name)
    requires Inv(env, w) && IsDone(w.tables, id)
    ensures ServedAsStored(env, w.tables, id)
  {
    assert JobValid(env, w.tables.jobs[id]) && RowValid(w.tables.jobs[id]);
    if w.tables.jobs[id].version != 0 {
      assert Acceptable(env, w.tables, id, w.tables.jobs[id].result.value);
      assert Tampered(w.tables, id, w.tables.jobs[id].result.value) == w.tables;
    }
  }

  /** Completeness of verification: whatever else has happened since, a job that a worker
      completed is served as completed, with the result that was committed; a completed
      job of an older schema is served unverified. */
  lemma CompletedIsServed(env: Env, start: Tables<Result>, events: seq<Event>, id: Name)
    requires Migrated(start) && IsDone(After(env, start, events), id)
    ensures ServedAsStored(env, After(env, start, events), id)
  {
    StartIsValid(env, start);
    EveryRunKeeps(env, Start(start), events);
    ServedNow(env, Run(env, Start(start), events), id);
  }

  /** And it goes on being served with that result in every continuation. */
  lemma ServedForever(env: Env, start: Tables<Result>, events: seq<Event>, more: seq<Event>, id: Name)
    requires Migrated(start) && IsDone(After(env, start, events), id)
    ensures
      var w := Run(env, Start(start), events);
      var t, u := w.tables, Run(env, w, more).tables;
      IsDone(u, id) && u.jobs[id].result == t.jobs[id].result && Verify(env, u, id) == Verify(env, t, id)
  {
    var w := Run(env, Start(start), events);
    StartIsValid(env, start);
    EveryRunKeeps(env, Start(start), events);
    EveryRunKeeps(env, w, more);
    EveryRunAdvances(env, w, more);
    assert RowAdvances(w.tables.jobs[id], Run(env, w, more).tables.jobs[id]);
    ServedNow(env, w, id);
    ServedNow(env, Run(env, w, more), id);
  }

  // ---- events take effect -----------------------------------------------------------------

  /** Only this job's row has changed, to `job`. */
  ghost predicate OnlyRow(t: Tables<Result>, u: Tables<Result>, id: Name, job: Job<Result>) {
    && u.decisions == t.decisions && u.jobs.Keys == t.jobs.Keys + {id}
    && u.jobs[id] == job
    && forall other :: other in t.jobs && other != id ==> other in u.jobs && u.jobs[other] == t.jobs[other]
  }

  /** A submission with a new id makes a pending job, of which nothing is known but its
      request and spec; with a used one it changes nothing. */
  lemma SubmitTakesEffect(env: Env, w: World, id: Name, request: Text, spec: Text)
    requires CanSubmit(env, w, request, spec)
    ensures
      var u := Next(env, w, Submit(id, request, spec)).tables;
      if id in w.tables.jobs then u == w.tables
      else OnlyRow(w.tables, u, id, Job(1, request, Some(spec), None, None, Pending, None, None, None))
  {
  }

  /** A pending job begins at the moment it is begun; one in any other state does not. */
  lemma BeginTakesEffect(env: Env, w: World, worker: Name, job: Name, now: int)
    requires CanBegin(env, w, worker, job) || (job in w.tables.jobs && w.tables.jobs[job].status != Pending)
    ensures
      var u := Next(env, w, Begin(worker, job, now));
      if w.tables.jobs[job].status == Pending
      then
        && OnlyRow(w.tables, u.tables, job, w.tables.jobs[job].(status := Running, startedAt := Some(now)))
        && worker in u.workers && u.workers[worker].job == job
      else u == w
  {
  }

  /** The first input snapshot whose content has its hash is stored and bound; once bound, a
      job is not bound to another, and stored content is not replaced. */
  lemma BindTakesEffect(env: Env, w: World, worker: Name, hash: Hash, payload: Payload)
    requires Inv(env, w) && InPhase(w, worker, true)
    ensures
      var id := w.workers[worker].job;
      var job := w.tables.jobs[id];
      var u := Next(env, w, BindInput(worker, hash, payload)).tables;
      if env.digest(payload) != hash || (job.snapshotHash.Some? && job.snapshotHash != Some(hash)) then u == w.tables
      else
        && OnlyRow(w.tables, u, id, job.(snapshotHash := Some(hash)))
        && hash in u.snapshots && env.digest(u.snapshots[hash]) == hash
        && forall h :: h in w.tables.snapshots ==> h in u.snapshots && u.snapshots[h] == w.tables.snapshots[h]
  {
    var id := w.workers[worker].job;
    assert WorkerValid(env, w.tables, w.workers[worker]);
    assert id in w.tables.jobs;
  }

  lemma ReportTakesEffect(env: Env, w: World, worker: Name, progress: Text)
    requires Inv(env, w) && InPhase(w, worker, true)
    ensures
      var id := w.workers[worker].job;
      var u := Next(env, w, Report(worker, progress)).tables;
      OnlyRow(w.tables, u, id, w.tables.jobs[id].(progress := Some(progress))) && u.snapshots == w.tables.snapshots
  {
    assert WorkerValid(env, w.tables, w.workers[worker]);
  }

  /** An execution dates the decision if it is stored and completed, and nothing else. */
  lemma ExecutionTakesEffect(env: Env, w: World, worker: Name, sequence: nat, date: int)
    requires InPhase(w, worker, true)
    ensures
      var key := (w.workers[worker].job, sequence);
      var u := Next(env, w, WriteExecution(worker, sequence, date)).tables;
      && u.jobs == w.tables.jobs && u.snapshots == w.tables.snapshots
      && u.decisions.Keys == w.tables.decisions.Keys
      && (forall k :: k in w.tables.decisions && k != key ==> u.decisions[k] == w.tables.decisions[k])
      && (key in w.tables.decisions ==>
            u.decisions[key] == if w.tables.decisions[key].status == DecisionCompleted
                                then w.tables.decisions[key].(executionDate := Some(date))
                                else w.tables.decisions[key])
  {
  }

  /** What failing does to a row: a pending or running job gets the error, others keep what
      they are. */
  function RowFailed(job: Job<Result>, error: Text): Job<Result> {
    match job.status
    case Pending => job.(status := Failed, error := Some(error))
    case Running => job.(status := Failed, error := Some(error))
    case _ => job
  }

  lemma FailTakesEffect(t: Tables<Result>, id: Name, error: Text)
    requires id in t.jobs
    ensures OnlyRow(t, Fail(t, id, error), id, RowFailed(t.jobs[id], error))
  {
  }

  lemma GiveUpTakesEffect(env: Env, w: World, worker: Name, error: Text)
    requires Inv(env, w) && worker in w.workers && w.workers[worker].phase != Gone
    ensures
      var id := w.workers[worker].job;
      var u := Next(env, w, GiveUp(worker, error));
      && OnlyRow(w.tables, u.tables, id, RowFailed(w.tables.jobs[id], error))
      && u.workers[worker].phase == Gone
  {
    assert WorkerValid(env, w.tables, w.workers[worker]);
    FailTakesEffect(w.tables, w.workers[worker].job, error);
  }

  /** A restart fails every unfinished job and leaves the others. */
  lemma RestartTakesEffect(env: Env, w: World, error: Text)
    ensures
      var u := Next(env, w, Restart(error)).tables;
      && u.jobs.Keys == w.tables.jobs.Keys
      && (forall id :: id in w.tables.jobs ==> u.jobs[id] == RowFailed(w.tables.jobs[id], error))
      && u.decisions == w.tables.decisions && u.snapshots == w.tables.snapshots
  {
  }
}
