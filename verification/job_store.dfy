/** The backtest job tables (storage/store.py): every method is one guarded atomic update.

    Texts and payloads are opaque tokens.  `Digest` stands for SHA-256 over the canonical
    bytes of a payload; it is a parameter, taken to be injective where that matters. */
module JobTables {
  import opened BrokerModels

  type Hash = int
  type Payload = int
  type Text = int

  datatype Status = Pending | Running | Done | Failed

  datatype DecisionStatus = DecisionCompleted | DecisionNotReady | DecisionFailed

  /** A decision row.  `core` are the fields the result hash covers, `notes` the others. */
  datatype DecisionRow = DecisionRow(
    signalDate: int,
    executionDate: Option<int>,
    status: DecisionStatus,
    core: int,
    notes: int)

  datatype Job<R> = Job(
    version: int,
    request: Text,
    spec: Option<Text>,
    snapshotHash: Option<Hash>,
    progress: Option<Text>,
    status: Status,
    result: Option<R>,
    error: Option<Text>,
    startedAt: Option<int>)

  datatype Tables<R> = Tables(
    jobs: map<Name, Job<R>>,
    snapshots: map<Hash, Payload>,
    decisions: map<(Name, nat), DecisionRow>)

  function NoTables<R>(): Tables<R> {
    Tables(map[], map[], map[])
  }

  // ---- the updates ---------------------------------------------------------------

  function NewJob<R>(request: Text, spec: Text): Job<R> {
    Job(1, request, Some(spec), None, None, Pending, None, None, None)
  }

  /** `create_backtest_job`; a used id violates the primary key. */
  function Create<R>(t: Tables<R>, id: Name, request: Text, spec: Text): Tables<R> {
    if id in t.jobs then t else t.(jobs := t.jobs[id := NewJob(request, spec)])
  }

  /** The snapshot may be bound: the job is a v1 job without another snapshot, and the
      stored content, old or new, has the digest it is filed under. */
  predicate CanBind<R>(digest: Payload -> Hash, t: Tables<R>, id: Name, hash: Hash, payload: Payload) {
    && digest(payload) == hash
    && id in t.jobs && t.jobs[id].version == 1
    && (t.jobs[id].snapshotHash.None? || t.jobs[id].snapshotHash == Some(hash))
    && (hash in t.snapshots ==> digest(t.snapshots[hash]) == hash)
  }

  /** `bind_backtest_input_snapshot`; anything else rolls back. */
  function Bind<R>(digest: Payload -> Hash, t: Tables<R>, id: Name, hash: Hash, payload: Payload): Tables<R> {
    if !CanBind(digest, t, id, hash, payload) then t
    else
      var job := t.jobs[id];
      t.(snapshots := if hash in t.snapshots then t.snapshots else t.snapshots[hash := payload],
         jobs := if job.snapshotHash.None? then t.jobs[id := job.(snapshotHash := Some(hash))] else t.jobs)
  }

  function UpdateProgress<R>(t: Tables<R>, id: Name, progress: Text): Tables<R> {
    if id in t.jobs && t.jobs[id].version == 1
    then t.(jobs := t.jobs[id := t.jobs[id].(progress := Some(progress))])
    else t
  }

  /** The check of `record_backtest_decision`, a read of its own. */
  predicate MayRecord<R>(t: Tables<R>, id: Name) {
    id in t.jobs && t.jobs[id].version == 1 && t.jobs[id].snapshotHash.Some?
  }

  /** The insert of `record_backtest_decision`, which does not look at the job again. */
  function InsertDecision<R>(t: Tables<R>, id: Name, sequence: nat, row: DecisionRow): Tables<R> {
    t.(decisions := t.decisions[(id, sequence) := row])
  }

  predicate CanExecute<R>(t: Tables<R>, id: Name, sequence: nat) {
    (id, sequence) in t.decisions && t.decisions[(id, sequence)].status == DecisionCompleted
  }

  function UpdateExecution<R>(t: Tables<R>, id: Name, sequence: nat, date: int): Tables<R> {
    if CanExecute(t, id, sequence)
    then t.(decisions := t.decisions[(id, sequence) := t.decisions[(id, sequence)].(executionDate := Some(date))])
    else t
  }

  predicate CanStart<R>(t: Tables<R>, id: Name) {
    id in t.jobs && t.jobs[id].status == Pending
  }

  function MarkRunning<R>(t: Tables<R>, id: Name, now: int): Tables<R> {
    if CanStart(t, id)
    then t.(jobs := t.jobs[id := t.jobs[id].(status := Running, startedAt := Some(now))])
    else t
  }

  predicate CanComplete<R>(t: Tables<R>, id: Name) {
    && id in t.jobs && t.jobs[id].status == Running
    && (t.jobs[id].version == 0 || t.jobs[id].snapshotHash.Some?)
  }

  function Complete<R>(t: Tables<R>, id: Name, result: R): Tables<R> {
    if CanComplete(t, id)
    then t.(jobs := t.jobs[id := t.jobs[id].(status := Done, result := Some(result), error := None)])
    else t
  }

  predicate Unfinished<R>(job: Job<R>) {
    job.status == Pending || job.status == Running
  }

  function FailedJob<R>(job: Job<R>, error: Text): Job<R> {
    job.(status := Failed, error := Some(error))
  }

  function Fail<R>(t: Tables<R>, id: Name, error: Text): Tables<R> {
    if id in t.jobs && Unfinished(t.jobs[id])
    then t.(jobs := t.jobs[id := FailedJob(t.jobs[id], error)])
    else t
  }

  /** `recover_interrupted_backtest_jobs` */
  function Recover<R>(t: Tables<R>, error: Text): Tables<R> {
    t.(jobs := map id | id in t.jobs :: if Unfinished(t.jobs[id]) then FailedJob(t.jobs[id], error) else t.jobs[id])
  }

  // ---- what every update keeps -------------------------------------------------------

  /** The row-level facts: when results and errors are set, that started jobs left
      PENDING, and that a completed job is bound.  Rows of version 0 come from a store
      migrated from an older schema; nothing is known of them but that they are unbound. */
  ghost predicate RowValid<R>(job: Job<R>) {
    if job.version == 0 then job.snapshotHash.None?
    else
      && (job.result.Some? <==> job.status == Done)
      && (job.error.Some? <==> job.status == Failed)
      && (job.status == Pending ==> job.startedAt.None?)
      && (job.status == Running || job.status == Done ==> job.startedAt.Some?)
      && (job.status == Done ==> job.snapshotHash.Some?)
  }

  ghost predicate TablesValid<R>(digest: Payload -> Hash, t: Tables<R>) {
    && (forall id :: id in t.jobs ==> RowValid(t.jobs[id]))
    && (forall h :: h in t.snapshots ==> digest(t.snapshots[h]) == h)
    && (forall id :: id in t.jobs && t.jobs[id].snapshotHash.Some? ==> t.jobs[id].snapshotHash.value in t.snapshots)
  }

  /** One row later: the status only moves forward, start, hash, spec and request stay
      once set, and a finished job keeps its outcome. */
  ghost predicate RowAdvances<R>(job: Job<R>, later: Job<R>) {
    && later.version == job.version && later.request == job.request && later.spec == job.spec
    && (job.snapshotHash.Some? ==> later.snapshotHash == job.snapshotHash)
    && (job.startedAt.Some? ==> later.startedAt == job.startedAt)
    && StatusAdvances(job.status, later.status)
    && (job.startedAt.None? && later.startedAt.Some? ==> job.status == Pending)
    && (job.status == Done || job.status == Failed ==> later.result == job.result && later.error == job.error)
  }

  predicate StatusAdvances(s: Status, later: Status) {
    match s
    case Pending => true
    case Running => later != Pending
    case Done => later == Done
    case Failed => later == Failed
  }

  ghost predicate TablesAdvance<R>(t: Tables<R>, later: Tables<R>) {
    && (forall id :: id in t.jobs ==> id in later.jobs && RowAdvances(t.jobs[id], later.jobs[id]))
    && (forall h :: h in t.snapshots ==> h in later.snapshots && later.snapshots[h] == t.snapshots[h])
  }

  lemma AdvanceTransitive<R>(t: Tables<R>, u: Tables<R>, v: Tables<R>)
    requires TablesAdvance(t, u) && TablesAdvance(u, v)
    ensures TablesAdvance(t, v)
  {
    forall id | id in t.jobs ensures id in v.jobs && RowAdvances(t.jobs[id], v.jobs[id]) {
      assert RowAdvances(t.jobs[id], u.jobs[id]) && RowAdvances(u.jobs[id], v.jobs[id]);
    }
  }

  lemma CreateAdvances<R>(t: Tables<R>, id: Name, request: Text, spec: Text)
    ensures TablesAdvance(t, Create(t, id, request, spec))
  {
  }

  lemma BindAdvances<R>(digest: Payload -> Hash, t: Tables<R>, id: Name, hash: Hash, payload: Payload)
    ensures TablesAdvance(t, Bind(digest, t, id, hash, payload))
  {
  }

  /** A row update that advances its row advances the tables. */
  lemma RowUpdateAdvances<R>(t: Tables<R>, id: Name, job: Job<R>)
    requires id in t.jobs && RowAdvances(t.jobs[id], job)
    ensures TablesAdvance(t, t.(jobs := t.jobs[id := job]))
  {
  }

  lemma StartAdvances<R>(t: Tables<R>, id: Name, now: int)
    requires id in t.jobs ==> RowValid(t.jobs[id]) && t.jobs[id].version == 1
    ensures TablesAdvance(t, MarkRunning(t, id, now))
  {
    if CanStart(t, id) {
      RowUpdateAdvances(t, id, MarkRunning(t, id, now).jobs[id]);
    }
  }

  lemma CompleteAdvances<R>(t: Tables<R>, id: Name, result: R)
    ensures TablesAdvance(t, Complete(t, id, result))
  {
    if CanComplete(t, id) {
      RowUpdateAdvances(t, id, Complete(t, id, result).jobs[id]);
    }
  }

  lemma FailAdvances<R>(t: Tables<R>, id: Name, error: Text)
    ensures TablesAdvance(t, Fail(t, id, error))
    ensures TablesAdvance(t, Recover(t, error))
  {
  }

  lemma ProgressAdvances<R>(t: Tables<R>, id: Name, progress: Text)
    ensures TablesAdvance(t, UpdateProgress(t, id, progress))
  {
  }
}

/** The store object.  Each method does its reads, its guard and its write, and reports
    what the source reports: whether a row changed. */
module JobStores {
  import opened BrokerModels
  import opened JobTables

  class BacktestJobStore<R> {
    const digest: Payload -> Hash
    var jobs: map<Name, Job<R>>
    var snapshots: map<Hash, Payload>
    var decisions: map<(Name, nat), DecisionRow>

    ghost function Contents(): Tables<R>
      reads this
    {
      Tables(jobs, snapshots, decisions)
    }

    constructor (digest: Payload -> Hash)
      ensures Contents() == NoTables<R>() && this.digest == digest
    {
      this.digest := digest;
      jobs, snapshots, decisions := map[], map[], map[];
    }

    method CreateBacktestJob(id: Name, request: Text, spec: Text) returns (created: bool)
      modifies this`jobs
      ensures created <==> id !in old(jobs)
      ensures Contents() == Create(old(Contents()), id, request, spec)
    {
      if id in jobs {
        return false;
      }
      jobs := jobs[id := Job(1, request, Some(spec), None, None, Pending, None, None, None)];
      return true;
    }

    method BindBacktestInputSnapshot(id: Name, hash: Hash, payload: Payload) returns (bound: Option<Payload>)
      modifies this`jobs, this`snapshots
      ensures Contents() == Bind(digest, old(Contents()), id, hash, payload)
      ensures bound.Some? <==> CanBind(digest, old(Contents()), id, hash, payload)
      ensures bound.Some? ==> hash in snapshots && bound.value == snapshots[hash] && digest(bound.value) == hash
    {
      if digest(payload) != hash || id !in jobs || jobs[id].version != 1 {
        return None;
      }
      var current := jobs[id].snapshotHash;
      if current.Some? && current.value != hash {
        return None;
      }
      if hash in snapshots && digest(snapshots[hash]) != hash {
        return None;
      }
      if hash !in snapshots {
        snapshots := snapshots[hash := payload];
      }
      if current.None? {
        jobs := jobs[id := jobs[id].(snapshotHash := Some(hash))];
      }
      return Some(snapshots[hash]);
    }

    method UpdateBacktestJobProgress(id: Name, progress: Text) returns (changed: bool)
      modifies this`jobs
      ensures Contents() == UpdateProgress(old(Contents()), id, progress)
      ensures changed <==> id in old(jobs) && old(jobs)[id].version == 1
    {
      changed := id in jobs && jobs[id].version == 1;
      if changed {
        jobs := jobs[id := jobs[id].(progress := Some(progress))];
      }
    }

    /** Check and insert, here without anything in between. */
    method RecordBacktestDecision(id: Name, sequence: nat, row: DecisionRow) returns (recorded: bool)
      modifies this`decisions
      ensures recorded <==> MayRecord(old(Contents()), id)
      ensures Contents() == if recorded then InsertDecision(old(Contents()), id, sequence, row) else old(Contents())
    {
      if id !in jobs || jobs[id].version != 1 || jobs[id].snapshotHash.None? {
        return false;
      }
      decisions := decisions[(id, sequence) := row];
      return true;
    }

    method UpdateBacktestDecisionExecution(id: Name, sequence: nat, date: int) returns (changed: bool)
      modifies this`decisions
      ensures changed <==> CanExecute(old(Contents()), id, sequence)
      ensures Contents() == UpdateExecution(old(Contents()), id, sequence, date)
    {
      changed := (id, sequence) in decisions && decisions[(id, sequence)].status == DecisionCompleted;
      if changed {
        decisions := decisions[(id, sequence) := decisions[(id, sequence)].(executionDate := Some(date))];
      }
    }

    method MarkBacktestJobRunning(id: Name, now: int) returns (started: bool)
      modifies this`jobs
      ensures started <==> CanStart(old(Contents()), id)
      ensures Contents() == MarkRunning(old(Contents()), id, now)
    {
      started := id in jobs && jobs[id].status == Pending;
      if started {
        jobs := jobs[id := jobs[id].(status := Running, startedAt := Some(now))];
      }
    }

    method CompleteBacktestJob(id: Name, result: R) returns (completed: bool)
      modifies this`jobs
      ensures completed <==> CanComplete(old(Contents()), id)
      ensures Contents() == Complete(old(Contents()), id, result)
    {
      completed := id in jobs && jobs[id].status == Running && (jobs[id].version == 0 || jobs[id].snapshotHash.Some?);
      if completed {
        jobs := jobs[id := jobs[id].(status := Done, result := Some(result), error := None)];
      }
    }

    method FailBacktestJob(id: Name, error: Text) returns (failed: bool)
      modifies this`jobs
      ensures failed <==> id in old(jobs) && Unfinished(old(jobs)[id])
      ensures Contents() == Fail(old(Contents()), id, error)
    {
      failed := id in jobs && (jobs[id].status == Pending || jobs[id].status == Running);
      if failed {
        jobs := jobs[id := jobs[id].(status := Failed, error := Some(error))];
      }
    }

    /** The update of every unfinished row, in one statement. */
    method RecoverInterruptedBacktestJobs(error: Text) returns (recovered: nat)
      modifies this`jobs
      ensures Contents() == Recover(old(Contents()), error)
      ensures recovered == |set id | id in old(jobs) && Unfinished(old(jobs)[id])|
      ensures forall id :: id in jobs ==> !Unfinished(jobs[id])
    {
      recovered := |set id | id in jobs && Unfinished(jobs[id])|;
      jobs := map id | id in jobs :: if Unfinished(jobs[id]) then FailedJob(jobs[id], error) else jobs[id];
    }
  }
}
