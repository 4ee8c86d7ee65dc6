/** Exposures from the latest decision targets (risk/exposure.py). */
module RiskExposure {
  import opened BrokerModels

  /** A stored `target_position_pct`. */
  datatype RawTarget = NotNumeric | NotFinite | Percent(value: real)

  /** A decision row, newest first; None when its ticker is blank. */
  datatype DecisionTargetRow = DecisionTargetRow(ticker: Option<Name>, target: RawTarget)

  datatype RiskStatus = Complete | Partial | Unavailable | Invalid

  datatype Target = Target(ticker: Name, percent: real, weight: real)

  datatype Exposure = Exposure(
    status: RiskStatus,
    targets: seq<Target>,
    weights: seq<Target>,
    cashWeight: Option<real>,
    grossExposure: Option<real>)

  // ---- the latest target of each ticker ------------------------------------------------

  /** The first row of a ticker is its latest. */
  function LatestTarget(rows: seq<DecisionTargetRow>, ticker: Name): Option<RawTarget> {
    if |rows| == 0 then None
    else
      match LatestTarget(rows[..|rows| - 1], ticker)
      case Some(target) => Some(target)
      case None =>
        var last := rows[|rows| - 1];
        if last.ticker == Some(ticker) then Some(last.target) else None
  }

  ghost predicate Ascending(keys: seq<Name>) {
    forall i, j :: 0 <= i < j < |keys| ==> keys[i] < keys[j]
  }

  function InsertKey(keys: seq<Name>, key: Name): seq<Name> {
    if |keys| == 0 || keys[|keys| - 1] < key then keys + [key]
    else if keys[|keys| - 1] == key then keys
    else InsertKey(keys[..|keys| - 1], key) + [keys[|keys| - 1]]
  }

  lemma {:induction false} InsertKeeps(keys: seq<Name>, key: Name)
    requires Ascending(keys)
    ensures Ascending(InsertKey(keys, key))
    ensures forall k :: k in InsertKey(keys, key) <==> k in keys || k == key
  {
    if |keys| > 0 && keys[|keys| - 1] < key {
      assert forall i :: 0 <= i < |keys| ==> keys[i] <= keys[|keys| - 1];
    } else if |keys| > 0 && keys[|keys| - 1] > key {
      var front, last := keys[..|keys| - 1], keys[|keys| - 1];
      InsertKeeps(front, key);
      assert keys == front + [last];
      var inserted := InsertKey(front, key);
      forall i | 0 <= i < |inserted| ensures inserted[i] < last {
        assert inserted[i] in inserted;
        assert inserted[i] in front ==> inserted[i] in keys;
      }
    }
  }

  predicate InRange(target: RawTarget) {
    target.Percent? && 0.0 <= target.value <= 100.0
  }

  function Weigh(ticker: Name, percent: real): Target {
    Target(ticker, percent, percent / 100.0)
  }

  function TotalWeight(targets: seq<Target>): real {
    if |targets| == 0 then 0.0 else TotalWeight(targets[..|targets| - 1]) + targets[|targets| - 1].weight
  }

  /** `target.weight > 0` */
  function WithWeight(targets: seq<Target>): seq<Target> {
    if |targets| == 0 then []
    else
      var rest, last := WithWeight(targets[..|targets| - 1]), targets[|targets| - 1];
      if last.weight > 0.0 then rest + [last] else rest
  }

  /** `_result` */
  function ResultOf(status: RiskStatus, targets: seq<Target>): Exposure {
    var weights := WithWeight(targets);
    var total := TotalWeight(weights);
    Exposure(status, targets, weights,
             if status != Invalid then Some(if 1.0 - total > 0.0 then 1.0 - total else 0.0) else None,
             if status != Invalid then Some(total) else None)
  }

  /** What a COMPLETE exposure promises to the analytics. */
  ghost predicate Invested(e: Exposure) {
    && |e.weights| > 0
    && (forall i :: 0 <= i < |e.weights| ==> 0.0 < e.weights[i].weight <= 1.0)
    && TickersAscend(e.weights)
    && 0.0 < TotalWeight(e.weights) <= 1.0
    && e.grossExposure == Some(TotalWeight(e.weights))
    && e.cashWeight == Some(1.0 - TotalWeight(e.weights))
  }

  /** The targets of every ticker with a finite number, in ticker order. */
  ghost predicate TargetsOf(rows: seq<DecisionTargetRow>, targets: seq<Target>) {
    && (forall i :: 0 <= i < |targets| ==>
          LatestTarget(rows, targets[i].ticker) == Some(Percent(targets[i].percent))
          && targets[i].weight == targets[i].percent / 100.0)
    && TickersAscend(targets)
    && (forall t :: LatestTarget(rows, t).Some? && LatestTarget(rows, t).value.Percent? ==>
          exists i :: 0 <= i < |targets| && targets[i].ticker == t)
  }

  /** Some latest target is not a percentage. */
  ghost predicate AnyBad(rows: seq<DecisionTargetRow>) {
    exists t :: LatestTarget(rows, t).Some? && !InRange(LatestTarget(rows, t).value)
  }

  ghost predicate NoTicker(rows: seq<DecisionTargetRow>) {
    forall t :: LatestTarget(rows, t) == None
  }

  /** `latest` holds the latest target of every ticker, `keys` its tickers in order. */
  ghost predicate Collected(rows: seq<DecisionTargetRow>, latest: map<Name, RawTarget>, keys: seq<Name>) {
    && Ascending(keys)
    && (forall t :: t in keys <==> t in latest)
    && (forall t :: t in latest <==> LatestTarget(rows, t).Some?)
    && (forall t :: t in latest ==> LatestTarget(rows, t) == Some(latest[t]))
  }

  /** The first loop of `resolve`. */
  method CollectLatest(rows: seq<DecisionTargetRow>) returns (latest: map<Name, RawTarget>, keys: seq<Name>)
    ensures Collected(rows, latest, keys)
  {
    latest, keys := map[], [];
    for i := 0 to |rows|
      invariant Collected(rows[..i], latest, keys)
    {
      assert rows[..i + 1][..i] == rows[..i];
      var ticker := rows[i].ticker;
      if ticker.Some? && ticker.value !in latest {
        InsertKeeps(keys, ticker.value);
        keys := InsertKey(keys, ticker.value);
        latest := latest[ticker.value := rows[i].target];
      }
    }
    assert rows[..|rows|] == rows;
  }

  ghost predicate TickersAscend(targets: seq<Target>) {
    forall i, j :: 0 <= i < j < |targets| ==> targets[i].ticker < targets[j].ticker
  }

  predicate MadeFrom(latest: map<Name, RawTarget>, keys: seq<Name>, target: Target) {
    && target.ticker in keys && target.ticker in latest
    && latest[target.ticker] == Percent(target.percent)
    && target.weight == target.percent / 100.0
  }

  ghost predicate Covers(latest: map<Name, RawTarget>, keys: seq<Name>, targets: seq<Target>) {
    forall t :: t in keys && t in latest && latest[t].Percent? ==>
      exists j :: 0 <= j < |targets| && targets[j].ticker == t
  }

  ghost predicate SomeBad(latest: map<Name, RawTarget>, keys: seq<Name>) {
    exists t :: t in keys && t in latest && !InRange(latest[t])
  }

  /** The targets made from some of the tickers. */
  ghost predicate Made(latest: map<Name, RawTarget>, keys: seq<Name>, targets: seq<Target>, invalid: bool) {
    && (forall j :: 0 <= j < |targets| ==> MadeFrom(latest, keys, targets[j]))
    && TickersAscend(targets)
    && Covers(latest, keys, targets)
    && (invalid <==> SomeBad(latest, keys))
  }

  lemma BadGrows(latest: map<Name, RawTarget>, keys: seq<Name>, key: Name)
    requires key in latest
    ensures SomeBad(latest, keys + [key]) <==> SomeBad(latest, keys) || !InRange(latest[key])
  {
    assert key in keys + [key];
    if SomeBad(latest, keys) {
      var t :| t in keys && t in latest && !InRange(latest[t]);
      assert t in keys + [key];
    }
  }

  lemma CoverGrows(latest: map<Name, RawTarget>, keys: seq<Name>, key: Name, targets: seq<Target>,
      more: seq<Target>)
    requires Covers(latest, keys, targets) && key in latest
    requires |more| >= |targets| && more[..|targets|] == targets
    requires latest[key].Percent? ==> |more| > |targets| && more[|targets|].ticker == key
    ensures Covers(latest, keys + [key], more)
  {
    forall t | t in keys + [key] && t in latest && latest[t].Percent?
      ensures exists j :: 0 <= j < |more| && more[j].ticker == t
    {
      if t == key {
        assert more[|targets|].ticker == key;
      } else {
        var j :| 0 <= j < |targets| && targets[j].ticker == t;
        assert more[j] == targets[j];
      }
    }
  }

  lemma MadeGrows(latest: map<Name, RawTarget>, keys: seq<Name>, key: Name, targets: seq<Target>,
      invalid: bool)
    requires key in latest && (forall t :: t in keys ==> t < key)
    requires Made(latest, keys, targets, invalid)
    ensures
      var target := latest[key];
      Made(latest, keys + [key], if target.Percent? then targets + [Weigh(key, target.value)] else targets,
           invalid || !InRange(target))
  {
    var target := latest[key];
    var more := if target.Percent? then targets + [Weigh(key, target.value)] else targets;
    BadGrows(latest, keys, key);
    CoverGrows(latest, keys, key, targets, more);
    forall j | 0 <= j < |more| ensures MadeFrom(latest, keys + [key], more[j]) {
      if j < |targets| {
        assert MadeFrom(latest, keys, targets[j]);
      }
    }
    forall j | 0 <= j < |targets| ensures targets[j].ticker < key {
      assert MadeFrom(latest, keys, targets[j]);
    }
  }

  /** The second loop of `resolve`. */
  method MakeTargets(latest: map<Name, RawTarget>, keys: seq<Name>)
    returns (targets: seq<Target>, invalid: bool)
    requires Ascending(keys) && forall t :: t in keys ==> t in latest
    ensures Made(latest, keys, targets, invalid)
  {
    targets, invalid := [], false;
    for i := 0 to |keys|
      invariant Made(latest, keys[..i], targets, invalid)
    {
      assert keys[..i + 1] == keys[..i] + [keys[i]];
      MadeGrows(latest, keys[..i], keys[i], targets, invalid);
      var target := latest[keys[i]];
      if !target.Percent? {
        invalid := true;
      } else {
        targets := targets + [Weigh(keys[i], target.value)];
        if !InRange(target) {
          invalid := true;
        }
      }
    }
    assert keys[..|keys|] == keys;
  }

  /** What the two loops together say about the rows. */
  lemma MadeFromRows(rows: seq<DecisionTargetRow>, latest: map<Name, RawTarget>, keys: seq<Name>,
      targets: seq<Target>, invalid: bool)
    requires Collected(rows, latest, keys) && Made(latest, keys, targets, invalid)
    ensures NoTicker(rows) <==> |keys| == 0
    ensures TargetsOf(rows, targets)
    ensures invalid <==> AnyBad(rows)
    ensures !invalid ==> forall j :: 0 <= j < |targets| ==> 0.0 <= targets[j].weight <= 1.0
  {
    if |keys| > 0 {
      assert keys[0] in keys;
      assert keys[0] in latest;
      assert LatestTarget(rows, keys[0]).Some?;
    }
    if invalid {
      var t :| t in keys && t in latest && !InRange(latest[t]);
      assert LatestTarget(rows, t) == Some(latest[t]);
    }
    if AnyBad(rows) {
      var t :| LatestTarget(rows, t).Some? && !InRange(LatestTarget(rows, t).value);
      assert t in keys && !InRange(latest[t]);
    }
    forall j | 0 <= j < |targets|
      ensures LatestTarget(rows, targets[j].ticker) == Some(Percent(targets[j].percent))
      ensures !invalid ==> 0.0 <= targets[j].weight <= 1.0
    {
      assert MadeFrom(latest, keys, targets[j]);
      if !invalid {
        assert InRange(latest[targets[j].ticker]);
      }
    }
  }

  /** How the latest targets decide the status. */
  function StatusOf(none: bool, bad: bool, total: real): RiskStatus {
    if none then Unavailable
    else if bad || total > 1.0 then Invalid
    else if total <= 0.0 then Unavailable
    else Complete
  }

  /** Each status, exactly: complete when something is invested and no more than everything. */
  lemma StatusExactly(none: bool, bad: bool, total: real)
    ensures StatusOf(none, bad, total) == Complete <==> !none && !bad && 0.0 < total <= 1.0
    ensures StatusOf(none, bad, total) == Invalid <==> !none && (bad || total > 1.0)
    ensures StatusOf(none, bad, total) == Unavailable <==> none || (!bad && total <= 0.0)
  {
  }

  /** `resolve`: the status is decided by the latest targets exactly so. */
  method Resolve(rows: seq<DecisionTargetRow>) returns (e: Exposure)
    ensures e.status == Complete ==> Invested(e)
    ensures !NoTicker(rows) ==> TargetsOf(rows, e.targets)
    ensures e.status == StatusOf(NoTicker(rows), AnyBad(rows), TotalWeight(e.targets))
    ensures e == ResultOf(e.status, e.targets)
  {
    var latest, keys := CollectLatest(rows);
    var targets, invalid := MakeTargets(latest, keys);
    MadeFromRows(rows, latest, keys, targets, invalid);
    if |keys| == 0 {
      return ResultOf(Unavailable, []);
    }
    var total := TotalWeight(targets);
    if total > 1.0 || invalid {
      return ResultOf(Invalid, targets);
    }
    if total <= 0.0 {
      return ResultOf(Unavailable, targets);
    }
    CompleteIsInvested(targets);
    e := ResultOf(Complete, targets);
  }

  lemma CompleteIsInvested(targets: seq<Target>)
    requires forall i :: 0 <= i < |targets| ==> 0.0 <= targets[i].weight <= 1.0
    requires TickersAscend(targets) && 0.0 < TotalWeight(targets) <= 1.0
    ensures Invested(ResultOf(Complete, targets))
  {
    PositiveTotal(targets);
    PositiveOrder(targets);
    SomePositive(WithWeight(targets));
    InvestedIs(targets, WithWeight(targets));
  }

  lemma InvestedIs(targets: seq<Target>, weights: seq<Target>)
    requires weights == WithWeight(targets) && |weights| > 0 && TickersAscend(weights)
    requires forall i :: 0 <= i < |weights| ==> 0.0 < weights[i].weight <= 1.0
    requires 0.0 < TotalWeight(weights) <= 1.0
    ensures Invested(ResultOf(Complete, targets))
  {
  }

  lemma SomePositive(weights: seq<Target>)
    requires TotalWeight(weights) > 0.0 && forall t :: t in weights ==> 0.0 < t.weight <= 1.0
    ensures |weights| > 0
    ensures forall i :: 0 <= i < |weights| ==> 0.0 < weights[i].weight <= 1.0
  {
    forall i | 0 <= i < |weights| ensures 0.0 < weights[i].weight <= 1.0 {
      assert weights[i] in weights;
    }
  }

  /** Leaving out zero weights does not change the total. */
  lemma {:induction false} PositiveTotal(targets: seq<Target>)
    requires forall i :: 0 <= i < |targets| ==> 0.0 <= targets[i].weight <= 1.0
    ensures TotalWeight(WithWeight(targets)) == TotalWeight(targets) >= 0.0
    ensures forall t :: t in WithWeight(targets) ==> 0.0 < t.weight <= 1.0
    decreases |targets|
  {
    if |targets| > 0 {
      var front, last := targets[..|targets| - 1], targets[|targets| - 1];
      PositiveTotal(front);
      var rest := WithWeight(front);
      assert (rest + [last])[..|rest|] == rest;
    }
  }

  lemma {:induction false} PositiveOrder(targets: seq<Target>)
    requires TickersAscend(targets)
    ensures TickersAscend(WithWeight(targets))
    ensures forall t :: t in WithWeight(targets) ==> t in targets
    decreases |targets|
  {
    if |targets| > 0 {
      var front, last := targets[..|targets| - 1], targets[|targets| - 1];
      PositiveOrder(front);
      assert targets == front + [last];
      forall t | t in WithWeight(front) ensures t.ticker < last.ticker {
        var i :| 0 <= i < |front| && front[i] == t;
        assert targets[i] == t;
      }
    }
  }
}
