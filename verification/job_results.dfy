/** Binding a result to its job and verifying it on every read (agent/backtest_jobs.py,
    `_run_persisted_job` and `_verified_completed_result`). */
module JobResults {
  import opened BrokerModels
  import opened JobTables

  datatype Spec = Spec(strategyHash: Hash, policyHash: Hash, body: int)

  /** A result config but for its account id.  `covered` are the fields the result hash
      includes, `derived` the others; both follow from spec and snapshot. */
  datatype ConfigBody = ConfigBody(covered: int, derived: int)

  datatype ConfigView = ConfigView(account: Name, body: ConfigBody)

  datatype Provenance = Provenance(strategyHash: Hash, policyHash: Hash, dataHash: Hash, resultHash: Hash)

  datatype ResultOutcome = WithTrades | WithoutTrades

  /** An order line: `core` is covered by the result hash, the generated id is not. */
  datatype OrderLine = OrderLine(core: int, orderId: int)

  /** `BacktestResultView`.  `numbers` are metrics, equity, fills, end position, warnings
      and no-trade reasons; `extras` what the hash leaves out.  Decisions are keyed by
      their sequence, as they are ordered by it. */
  datatype Result = Result(
    config: ConfigView,
    outcome: ResultOutcome,
    numbers: int,
    closedTrades: seq<int>,
    orders: seq<OrderLine>,
    orderCount: int,
    decisions: map<nat, DecisionRow>,
    decisionCount: int,
    extras: int,
    provenance: Provenance)

  datatype DecisionCore = DecisionCore(signalDate: int, executionDate: Option<int>, status: DecisionStatus, core: int)

  /** What the economic result hash is taken over. */
  datatype Canonical = Canonical(
    strategyHash: Hash,
    policyHash: Hash,
    dataHash: Hash,
    config: int,
    outcome: ResultOutcome,
    numbers: int,
    closedTrades: seq<int>,
    orders: seq<int>,
    decisions: map<nat, DecisionCore>)

  /** The functions the service relies on: the two digests, parsing a stored spec,
      whether a request belongs to a spec, whether a snapshot can be replayed for it, and
      the config they determine. */
  datatype Env = Env(
    digest: Payload -> Hash,
    seal: Canonical -> Hash,
    specOf: Text -> Option<Spec>,
    matches: (Text, Spec) -> bool,
    replayable: (Payload, Spec) -> bool,
    bound: (Spec, Payload, Hash) -> ConfigBody)

  ghost predicate Injective(seal: Canonical -> Hash) {
    forall c, d :: seal(c) == seal(d) ==> c == d
  }

  function CoreOf(row: DecisionRow): DecisionCore {
    DecisionCore(row.signalDate, row.executionDate, row.status, row.core)
  }

  function DecisionCores(rows: map<nat, DecisionRow>): map<nat, DecisionCore> {
    map k | k in rows :: CoreOf(rows[k])
  }

  function OrderCores(orders: seq<OrderLine>): (cores: seq<int>)
    ensures |cores| == |orders| && forall i :: 0 <= i < |orders| ==> cores[i] == orders[i].core
  {
    seq(|orders|, i requires 0 <= i < |orders| => orders[i].core)
  }

  function CanonicalOf(spec: Spec, r: Result, dataHash: Hash): Canonical {
    Canonical(spec.strategyHash, spec.policyHash, dataHash, r.config.body.covered, r.outcome, r.numbers,
              r.closedTrades, OrderCores(r.orders), DecisionCores(r.decisions))
  }

  function OutcomeOf(closedTrades: seq<int>): ResultOutcome {
    if |closedTrades| > 0 then WithTrades else WithoutTrades
  }

  /** Reading a stored result recomputes its counts and its outcome. */
  function Parsed(r: Result): Result {
    r.(outcome := OutcomeOf(r.closedTrades), orderCount := |r.orders|, decisionCount := |r.decisions|)
  }

  /** `_stored_backtest_decisions` */
  function StoredDecisions(t: Tables<Result>, id: Name): map<nat, DecisionRow> {
    map k | k in t.decisions && k.0 == id :: k.1 := t.decisions[k]
  }

  /** The stored snapshot, checked on every read. */
  function LoadSnapshot(env: Env, t: Tables<Result>, hash: Hash): Option<Payload> {
    if hash in t.snapshots && env.digest(t.snapshots[hash]) == hash then Some(t.snapshots[hash]) else None
  }

  /** `_run_persisted_job` after the runner has returned: None when the job fails. */
  function Finalized(env: Env, t: Tables<Result>, id: Name, spec: Spec, result: Result): Option<Result> {
    if id !in t.jobs || t.jobs[id].snapshotHash.None? then None
    else
      var hash := t.jobs[id].snapshotHash.value;
      match LoadSnapshot(env, t, hash)
      case None => None
      case Some(payload) =>
        if !env.replayable(payload, spec) then None
        else
          var r := result.(config := ConfigView(result.config.account, env.bound(spec, payload, hash)),
                           decisions := StoredDecisions(t, id));
          var sealed := env.seal(CanonicalOf(spec, r, hash));
          Some(r.(provenance := Provenance(spec.strategyHash, spec.policyHash, hash, sealed)))
  }

  datatype Answer = Refused | Legacy(legacy: Result) | Verified(result: Result, payload: Payload)

  /** `_verified_completed_result` */
  function Verify(env: Env, t: Tables<Result>, id: Name): Answer
    requires id in t.jobs
  {
    var job := t.jobs[id];
    match job.result
    case None => Refused
    case Some(stored) =>
      var r := Parsed(stored);
      if job.version == 0 then Legacy(r)
      else if job.version != 1 || job.spec.None? || job.snapshotHash.None? then Refused
      else
        var hash := job.snapshotHash.value;
        match LoadSnapshot(env, t, hash)
        case None => Refused
        case Some(payload) =>
          match env.specOf(job.spec.value)
          case None => Refused
          case Some(spec) =>
            if !env.replayable(payload, spec) || !env.matches(job.request, spec) then Refused
            else if r.config != ConfigView(r.config.account, env.bound(spec, payload, hash)) then Refused
            else if r.provenance.strategyHash != spec.strategyHash || r.provenance.policyHash != spec.policyHash
                    || r.provenance.dataHash != hash then Refused
            else if r.decisions != StoredDecisions(t, id) then Refused
            else if env.seal(CanonicalOf(spec, r, hash)) != r.provenance.resultHash then Refused
            else Verified(r, payload)
  }

  // ---- completeness -----------------------------------------------------------------

  /** The job's own data are in order: its spec parses and belongs to its request, and it
      is bound to a stored snapshot that replays for it. */
  ghost predicate Ready(env: Env, t: Tables<Result>, id: Name, spec: Spec) {
    && id in t.jobs && t.jobs[id].version == 1 && t.jobs[id].spec.Some?
    && env.specOf(t.jobs[id].spec.value) == Some(spec)
    && env.matches(t.jobs[id].request, spec)
  }

  /** A result whose outcome agrees with its closed trades, as every constructed one. */
  predicate Consistent(r: Result) {
    r.outcome == OutcomeOf(r.closedTrades)
  }

  /** Completing a job with its finalized result makes it verify, with that result. */
  lemma FinalizedVerifies(env: Env, t: Tables<Result>, id: Name, spec: Spec, result: Result)
    requires Ready(env, t, id, spec) && t.jobs[id].status == Running && Consistent(result)
    requires Finalized(env, t, id, spec, result).Some?
    ensures
      var r := Finalized(env, t, id, spec, result).value;
      var done := Complete(t, id, r);
      && CanComplete(t, id)
      && Verify(env, done, id) == Verified(Parsed(r), t.snapshots[t.jobs[id].snapshotHash.value])
  {
    var r := Finalized(env, t, id, spec, result).value;
    var done := Complete(t, id, r);
    assert StoredDecisions(done, id) == StoredDecisions(t, id);
    SameCanonical(spec, r, t.jobs[id].snapshotHash.value);
    SameSeal(spec, result.(config := r.config, decisions := r.decisions), r, t.jobs[id].snapshotHash.value);
  }

  /** Reading back recomputes nothing the hash covers, when the outcome is consistent. */
  lemma SameCanonical(spec: Spec, r: Result, hash: Hash)
    requires Consistent(r)
    ensures CanonicalOf(spec, Parsed(r), hash) == CanonicalOf(spec, r, hash)
  {
  }

  lemma SameSeal(spec: Spec, r: Result, later: Result, hash: Hash)
    requires later == r.(provenance := later.provenance)
    ensures CanonicalOf(spec, r, hash) == CanonicalOf(spec, later, hash)
  {
  }

  /** What a served result says of itself: its counts are those of its orders and of the
      job's stored decisions, and it has trades exactly when some were closed, whatever was
      stored about that. */
  lemma ServedCounts(env: Env, t: Tables<Result>, id: Name)
    requires id in t.jobs && Verify(env, t, id).Verified?
    ensures
      var r := Verify(env, t, id).result;
      && r.orderCount == |r.orders|
      && r.decisions == StoredDecisions(t, id) && r.decisionCount == |StoredDecisions(t, id)|
      && (r.outcome == WithTrades <==> |r.closedTrades| > 0)
  {
  }

  // ---- soundness ----------------------------------------------------------------------

  /** Replace the stored result of a job. */
  function Tampered(t: Tables<Result>, id: Name, r: Result): Tables<Result>
    requires id in t.jobs
  {
    t.(jobs := t.jobs[id := t.jobs[id].(result := Some(r))])
  }

  /** A job that is served as verified. */
  ghost predicate Served(env: Env, t: Tables<Result>, id: Name) {
    id in t.jobs && Verify(env, t, id).Verified?
  }

  /** The hash a result of this job has to carry. */
  ghost function SealFor(env: Env, t: Tables<Result>, id: Name, r: Result): Hash
    requires Served(env, t, id)
  {
    env.seal(CanonicalOf(env.specOf(t.jobs[id].spec.value).value, Parsed(r), t.jobs[id].snapshotHash.value))
  }

  /** Two results agree on what is compared with the job. */
  predicate SameBinding(r: Result, s: Result) {
    && r.config.body == s.config.body
    && r.decisions == s.decisions
    && r.provenance == s.provenance.(resultHash := r.provenance.resultHash)
  }

  /** Two results agree on everything the result hash covers. */
  predicate SameCovered(r: Result, s: Result) {
    && r.numbers == s.numbers
    && r.closedTrades == s.closedTrades
    && OrderCores(r.orders) == OrderCores(s.orders)
  }

  function WithHash(r: Result, hash: Hash): Result {
    r.(provenance := r.provenance.(resultHash := hash))
  }

  /** Exactly which replacement of a served result is served: one that agrees with it on
      config, decisions and the other provenance, and carries the hash of its own
      content.  Every other one is refused. */
  lemma TamperingIsNoticed(env: Env, t: Tables<Result>, id: Name, tampered: Result)
    requires Served(env, t, id)
    ensures Verify(env, Tampered(t, id, tampered), id) ==
      if SameBinding(t.jobs[id].result.value, tampered)
         && tampered.provenance.resultHash == SealFor(env, t, id, tampered)
      then Verified(Parsed(tampered), t.snapshots[t.jobs[id].snapshotHash.value])
      else Refused
  {
    assert StoredDecisions(Tampered(t, id, tampered), id) == StoredDecisions(t, id);
  }

  /** Agreeing on what is hashed is having the same hash, when hashing is injective. */
  lemma SameSealExactly(env: Env, t: Tables<Result>, id: Name, r: Result)
    requires Injective(env.seal) && Served(env, t, id) && SameBinding(t.jobs[id].result.value, r)
    ensures SealFor(env, t, id, r) == SealFor(env, t, id, t.jobs[id].result.value)
       <==> SameCovered(t.jobs[id].result.value, r)
  {
    var spec, hash := env.specOf(t.jobs[id].spec.value).value, t.jobs[id].snapshotHash.value;
    var stored := t.jobs[id].result.value;
    assert SameCovered(stored, r) ==> CanonicalOf(spec, Parsed(stored), hash) == CanonicalOf(spec, Parsed(r), hash);
    assert CanonicalOf(spec, Parsed(stored), hash) == CanonicalOf(spec, Parsed(r), hash) ==> SameCovered(stored, r);
  }

  /** With the result hash left as it is, a changed result is served exactly when nothing
      compared or hashed has changed: what goes unnoticed is the account id, generated
      order ids, recomputed counts and the uncovered extras. */
  lemma KeptHashIsExact(env: Env, t: Tables<Result>, id: Name, tampered: Result)
    requires Injective(env.seal) && Served(env, t, id)
    ensures
      var stored := t.jobs[id].result.value;
      && Verify(env, Tampered(t, id, tampered), id).Verified?
      && tampered.provenance.resultHash == stored.provenance.resultHash
      <==>
      SameBinding(stored, tampered) && SameCovered(stored, tampered)
      && tampered.provenance.resultHash == stored.provenance.resultHash
  {
    TamperingIsNoticed(env, t, id, tampered);
    if SameBinding(t.jobs[id].result.value, tampered) {
      SameSealExactly(env, t, id, tampered);
    }
  }

  /** Changing nothing but the result hash is refused, whatever the hash function. */
  lemma ChangedHashIsRefused(env: Env, t: Tables<Result>, id: Name, hash: Hash)
    requires Served(env, t, id) && hash != t.jobs[id].result.value.provenance.resultHash
    ensures Verify(env, Tampered(t, id, WithHash(t.jobs[id].result.value, hash)), id) == Refused
  {
    var stored := t.jobs[id].result.value;
    TamperingIsNoticed(env, t, id, WithHash(stored, hash));
    assert Parsed(WithHash(stored, hash)) == WithHash(Parsed(stored), hash);
    SameSeal(env.specOf(t.jobs[id].spec.value).value, Parsed(stored), Parsed(WithHash(stored, hash)),
             t.jobs[id].snapshotHash.value);
  }

  /** The hash takes no key, so a result of any numbers, closed trades and orders is
      served once its hash is recomputed: exactly when it agrees on what is compared with
      the job. */
  lemma ResealedIsServed(env: Env, t: Tables<Result>, id: Name, other: Result)
    requires Served(env, t, id)
    ensures
      var resealed := WithHash(other, SealFor(env, t, id, other));
      && (Verify(env, Tampered(t, id, resealed), id).Verified? <==> SameBinding(t.jobs[id].result.value, other))
      && (SameBinding(t.jobs[id].result.value, other) ==>
            Verify(env, Tampered(t, id, resealed), id).result == Parsed(resealed))
  {
    var resealed := WithHash(other, SealFor(env, t, id, other));
    TamperingIsNoticed(env, t, id, resealed);
    assert Parsed(resealed) == WithHash(Parsed(other), SealFor(env, t, id, other));
    SameSeal(env.specOf(t.jobs[id].spec.value).value, Parsed(other), Parsed(resealed), t.jobs[id].snapshotHash.value);
  }

  /** The account id of the config is compared with itself and not hashed, so changing it
      is never noticed. */
  lemma AccountIdIsNotCovered(env: Env, t: Tables<Result>, id: Name, account: Name)
    requires Served(env, t, id)
    ensures
      var stored := t.jobs[id].result.value;
      var tampered := stored.(config := stored.config.(account := account));
      && Verify(env, Tampered(t, id, tampered), id).Verified?
      && Verify(env, Tampered(t, id, tampered), id).result.config.account == account
  {
    var stored := t.jobs[id].result.value;
    var tampered := stored.(config := stored.config.(account := account));
    TamperingIsNoticed(env, t, id, tampered);
    assert CanonicalOf(env.specOf(t.jobs[id].spec.value).value, Parsed(stored), t.jobs[id].snapshotHash.value)
        == CanonicalOf(env.specOf(t.jobs[id].spec.value).value, Parsed(tampered), t.jobs[id].snapshotHash.value);
  }

  /** Replace the row of a job. */
  function WithRow(t: Tables<Result>, id: Name, job: Job<Result>): Tables<Result> {
    t.(jobs := t.jobs[id := job])
  }

  /** The spec and snapshot a served job is bound to. */
  ghost function SpecFor(env: Env, t: Tables<Result>, id: Name): Spec
    requires Served(env, t, id)
  {
    env.specOf(t.jobs[id].spec.value).value
  }

  /** Another request is served exactly when it belongs to the same spec. */
  lemma RequestTamperingIsNoticed(env: Env, t: Tables<Result>, id: Name, request: Text)
    requires Served(env, t, id)
    ensures Verify(env, WithRow(t, id, t.jobs[id].(request := request)), id) ==
      if env.matches(request, SpecFor(env, t, id)) then Verify(env, t, id) else Refused
  {
    assert StoredDecisions(WithRow(t, id, t.jobs[id].(request := request)), id) == StoredDecisions(t, id);
  }

  /** A spec that is gone, does not parse, or has another strategy or policy, is refused. */
  lemma SpecTamperingIsNoticed(env: Env, t: Tables<Result>, id: Name, spec: Option<Text>)
    requires Served(env, t, id)
    requires spec.None? || env.specOf(spec.value).None?
      || env.specOf(spec.value).value.strategyHash != SpecFor(env, t, id).strategyHash
      || env.specOf(spec.value).value.policyHash != SpecFor(env, t, id).policyHash
    ensures Verify(env, WithRow(t, id, t.jobs[id].(spec := spec)), id) == Refused
  {
  }

  /** Binding a served job to another snapshot, or to none, is refused; so is taking its
      stored snapshot away, or replacing it by content of another digest. */
  lemma SnapshotTamperingIsNoticed(env: Env, t: Tables<Result>, id: Name, other: Option<Hash>, payload: Payload)
    requires Served(env, t, id)
    ensures other != t.jobs[id].snapshotHash ==>
      Verify(env, WithRow(t, id, t.jobs[id].(snapshotHash := other)), id) == Refused
    ensures
      var hash := t.jobs[id].snapshotHash.value;
      && Verify(env, t.(snapshots := t.snapshots - {hash}), id) == Refused
      && (env.digest(payload) != hash ==> Verify(env, t.(snapshots := t.snapshots[hash := payload]), id) == Refused)
      && (!env.replayable(payload, SpecFor(env, t, id)) ==>
            Verify(env, t.(snapshots := t.snapshots[hash := payload]), id) == Refused)
  {
  }

  /** The decision rows of a job are the same in two tables. */
  ghost predicate SameRows(t: Tables<Result>, u: Tables<Result>, id: Name) {
    forall s: nat ::
      && ((id, s) in t.decisions <==> (id, s) in u.decisions)
      && ((id, s) in t.decisions ==> t.decisions[(id, s)] == u.decisions[(id, s)])
  }

  lemma SameRowsSameDecisions(t: Tables<Result>, u: Tables<Result>, id: Name)
    ensures SameRows(t, u, id) <==> StoredDecisions(t, id) == StoredDecisions(u, id)
  {
    forall s: nat
      ensures s in StoredDecisions(t, id) <==> (id, s) in t.decisions
      ensures s in StoredDecisions(t, id) ==> StoredDecisions(t, id)[s] == t.decisions[(id, s)]
      ensures s in StoredDecisions(u, id) <==> (id, s) in u.decisions
      ensures s in StoredDecisions(u, id) ==> StoredDecisions(u, id)[s] == u.decisions[(id, s)]
    {
      DecisionAt(t, id, s);
      DecisionAt(u, id, s);
    }
  }

  /** However the table of decisions is changed, a served job is still served if and only
      if its own rows are untouched; one inserted, replaced or deleted row is enough for
      it to be refused. */
  lemma DecisionTamperingIsNoticed(env: Env, t: Tables<Result>, id: Name,
      decisions: map<(Name, nat), DecisionRow>)
    requires Served(env, t, id)
    ensures Verify(env, t.(decisions := decisions), id) ==
      if SameRows(t, t.(decisions := decisions), id) then Verify(env, t, id) else Refused
  {
    SameRowsSameDecisions(t, t.(decisions := decisions), id);
  }

  lemma DecisionAt(t: Tables<Result>, id: Name, sequence: nat)
    ensures sequence in StoredDecisions(t, id) <==> (id, sequence) in t.decisions
    ensures sequence in StoredDecisions(t, id) ==> StoredDecisions(t, id)[sequence] == t.decisions[(id, sequence)]
  {
    if (id, sequence) in t.decisions {
      var k := (id, sequence);
      assert k in t.decisions && k.0 == id && k.1 == sequence;
      assert k.1 in StoredDecisions(t, id);
    }
  }
}
