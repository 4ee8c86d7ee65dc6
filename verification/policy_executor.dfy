/** The deterministic decision executor (agent/backtest_policy_executor.py) and the
    target it carries from decision to decision. */
module PolicyExecutor {
  import opened BrokerModels
  import opened Reals
  import opened StrategyPolicy

  datatype DecisionError =
    | FeaturesNotReady
    | BaseNotPositive
    | LongOnlyViolated
    | MaximumExceeded
    | DecisionOutOfRange

  datatype Attempt<+T> = Done(value: T) | Raised(error: DecisionError)

  /** `derive_position_transition` */
  function DeriveTransition(current: real, target: real, maximum: real): Attempt<Move> {
    if current < 0.0 || target < 0.0 then Raised(LongOnlyViolated)
    else if target > maximum then Raised(MaximumExceeded)
    else
      var delta := target - current;
      if IsClose(delta, 0.0, 0.000000001, 0.000000001) then Done(HOLD)
      else Done(if delta > 0.0 then BUY else SELL)
  }

  function MomentumTarget(p: Policy, closes: seq<real>, carried: real): Attempt<real>
    requires p.Momentum? && p.lookback >= 0
  {
    var required := p.lookback + 1;
    if |closes| < required then Raised(FeaturesNotReady)
    else
      var base := closes[|closes| - required];
      if base <= 0.0 then Raised(BaseNotPositive)
      else
        var momentum := closes[|closes| - 1] / base - 1.0;
        if momentum >= p.entry then Done(p.target * 100.0)
        else if momentum <= p.exit then Done(0.0)
        else Done(Min(carried, p.target * 100.0))
  }

  /** The simple average of the last `n` closes. */
  function Average(closes: seq<real>, n: int): real
    requires 0 < n <= |closes|
  {
    Sum(closes[|closes| - n..]) / n as real
  }

  function SmaTarget(p: Policy, closes: seq<real>): Attempt<real>
    requires p.Sma? && 0 < p.fast <= p.slow
  {
    if |closes| < p.slow then Raised(FeaturesNotReady)
    else if Average(closes, p.fast) > Average(closes, p.slow) then Done(p.target * 100.0)
    else Done(0.0)
  }

  /** `BacktestPolicyExecutor.decide`: the target, checked against the policy's own. */
  function PolicyDecide(p: Policy, closes: seq<real>, carried: real): Attempt<real>
    requires ValidPolicy(p)
  {
    match (if p.Momentum? then MomentumTarget(p, closes, carried) else SmaTarget(p, closes))
    case Raised(e) => Raised(e)
    case Done(target) =>
      match DeriveTransition(carried, target, p.target * 100.0)
      case Raised(e) => Raised(e)
      case Done(_) => if 0.0 <= target <= 100.0 then Done(target) else Raised(DecisionOutOfRange)
  }

  function MinimumCloses(p: Policy): int {
    match p
    case Momentum(lookback, _, _, _) => lookback + 1
    case Sma(_, slow, _) => slow
  }

  /** `BacktestRunDecisionExecutor.decide`: the carried target it leaves and its answer. */
  function Decide(spec: RunSpec, carried: real, closes: seq<real>, current: real): (real, Attempt<real>)
    requires ValidPolicy(spec.policy)
  {
    match PolicyDecide(spec.policy, closes, carried)
    case Raised(e) => (carried, Raised(e))
    case Done(target) =>
      match DeriveTransition(current, target, spec.broker.maxPosition * 100.0)
      case Raised(e) => (target, Raised(e))
      case Done(_) => (target, Done(target))
  }

  // ---- what the decisions mean ---------------------------------------------------

  datatype Signal = Enter | Leave | Stay

  /** What one close history says on its own, without divisions and without memory. */
  function SignalOf(p: Policy, closes: seq<real>): Signal
    requires ValidPolicy(p) && |closes| >= MinimumCloses(p)
  {
    match p
    case Momentum(lookback, entry, exit, _) =>
      var base, last := closes[|closes| - lookback - 1], closes[|closes| - 1];
      if last >= base * (1.0 + entry) then Enter
      else if last <= base * (1.0 + exit) then Leave
      else Stay
    case Sma(fast, slow, _) =>
      if Above(Sum(closes[|closes| - fast..]), fast, Sum(closes[|closes| - slow..]), slow) then Enter else Leave
  }

  /** The average of `m` numbers of sum `x` is over that of `n` of sum `y`. */
  predicate Above(x: real, m: int, y: real, n: int) {
    x * n as real > y * m as real
  }

  /** One call of the executor: the closes so far and the current weight. */
  datatype Call = Call(closes: seq<real>, current: real)

  predicate ReadyCall(p: Policy, call: Call) {
    && |call.closes| >= MinimumCloses(p)
    && (forall i | 0 <= i < |call.closes| :: call.closes[i] > 0.0)
    && call.current >= 0.0
  }

  /** The carried target after a run of calls, from the reset executor. */
  function CarriedAfter(spec: RunSpec, calls: seq<Call>): real
    requires ValidPolicy(spec.policy)
  {
    if |calls| == 0 then 0.0
    else
      var last := calls[|calls| - 1];
      Decide(spec, CarriedAfter(spec, calls[..|calls| - 1]), last.closes, last.current).0
  }

  ghost predicate AllReady(p: Policy, calls: seq<Call>) {
    forall i :: 0 <= i < |calls| ==> ReadyCall(p, calls[i])
  }

  /** The signals of the calls that can be answered, in order. */
  function Signals(p: Policy, calls: seq<Call>): (signals: seq<Signal>)
    requires ValidPolicy(p)
    ensures |signals| <= |calls|
  {
    if |calls| == 0 then []
    else
      var rest, last := Signals(p, calls[..|calls| - 1]), calls[|calls| - 1];
      if |last.closes| >= MinimumCloses(p) then rest + [SignalOf(p, last.closes)] else rest
  }

  /** In the market: the last signal that was not Stay was Enter. */
  ghost predicate Entered(signals: seq<Signal>) {
    exists i :: 0 <= i < |signals| && signals[i] == Enter && forall j :: i < j < |signals| ==> signals[j] == Stay
  }

  lemma MomentumSignal(p: Policy, closes: seq<real>, carried: real)
    requires ValidPolicy(p) && p.Momentum? && |closes| >= MinimumCloses(p)
    requires forall i :: 0 <= i < |closes| ==> closes[i] > 0.0
    ensures MomentumTarget(p, closes, carried) == Done(
      match SignalOf(p, closes)
      case Enter => p.target * 100.0
      case Leave => 0.0
      case Stay => Min(carried, p.target * 100.0))
  {
    var base, last := closes[|closes| - p.lookback - 1], closes[|closes| - 1];
    QuotientBound(last, base, 1.0 + p.entry);
    QuotientBound(last, base, 1.0 + p.exit);
    assert base * (1.0 + p.entry) == (1.0 + p.entry) * base;
    assert base * (1.0 + p.exit) == (1.0 + p.exit) * base;
  }

  lemma Cross(x: real, y: real, m: real, n: real)
    requires m > 0.0 && n > 0.0
    ensures x / m > y / n <==> x * n > y * m
  {
    var q := y / n;
    assert q * n == y;
    QuotientBound(x, m, q);
    assert (q * m) * n == y * m;
    if x > q * m {
      MulStrict(q * m, x, n);
    } else {
      MulMono(x, q * m, n);
    }
  }

  lemma SmaSignal(p: Policy, closes: seq<real>)
    requires ValidPolicy(p) && p.Sma? && |closes| >= MinimumCloses(p)
    ensures SignalOf(p, closes) != Stay
    ensures SmaTarget(p, closes) == Done(if SignalOf(p, closes) == Enter then p.target * 100.0 else 0.0)
  {
    Cross(Sum(closes[|closes| - p.fast..]), Sum(closes[|closes| - p.slow..]), p.fast as real, p.slow as real);
  }

  /** One ready call of an accepted strategy: it answers, and moves the carried target
      exactly as its signal says. */
  lemma DecideFollowsSignal(spec: RunSpec, carried: real, call: Call)
    requires ValidSpec(spec) && ReadyCall(spec.policy, call)
    requires carried == 0.0 || carried == spec.policy.target * 100.0
    ensures
      var next := match SignalOf(spec.policy, call.closes)
                  case Enter => spec.policy.target * 100.0
                  case Leave => 0.0
                  case Stay => carried;
      Decide(spec, carried, call.closes, call.current) == (next, Done(next))
  {
    if spec.policy.Momentum? {
      MomentumSignal(spec.policy, call.closes, carried);
    } else {
      SmaSignal(spec.policy, call.closes);
    }
  }

  /** From the stored strategy to the answer: the stored percentage when the last close is
      over the one `lookback` sessions before by the stored entry, nothing when it is not
      over it by the stored exit, and in between what was answered before. */
  lemma StoredMomentumDecides(s: Strategy, ticker: Name, carried: real, closes: seq<real>, current: real)
    requires Freeze(s, ticker).Ok? && s.params.MomentumParams?
    requires |closes| > s.params.lookback && (forall i | 0 <= i < |closes| :: closes[i] > 0.0) && current >= 0.0
    requires carried == 0.0 || Some(carried) == s.targetPercent
    ensures
      var base, last := closes[|closes| - 1 - s.params.lookback], closes[|closes| - 1];
      var target := if last >= base * (1.0 + s.params.entry) then s.targetPercent.value
                    else if last <= base * (1.0 + s.params.exit) then 0.0
                    else carried;
      Decide(Freeze(s, ticker).value, carried, closes, current) == (target, Done(target))
  {
    FrozenSpecsAreValid(s, ticker);
    DecideFollowsSignal(Freeze(s, ticker).value, carried, Call(closes, current));
  }

  /** The stored percentage when the stored fast average is over the slow one, compared
      without dividing, and nothing when it is not. */
  lemma StoredSmaDecides(s: Strategy, ticker: Name, carried: real, closes: seq<real>, current: real)
    requires Freeze(s, ticker).Ok? && s.params.SmaParams?
    requires |closes| >= s.params.slow && (forall i | 0 <= i < |closes| :: closes[i] > 0.0) && current >= 0.0
    requires carried == 0.0 || Some(carried) == s.targetPercent
    ensures
      var fast, slow := Sum(closes[|closes| - s.params.fast..]), Sum(closes[|closes| - s.params.slow..]);
      var target := if Above(fast, s.params.fast, slow, s.params.slow) then s.targetPercent.value else 0.0;
      Decide(Freeze(s, ticker).value, carried, closes, current) == (target, Done(target))
  {
    FrozenSpecsAreValid(s, ticker);
    DecideFollowsSignal(Freeze(s, ticker).value, carried, Call(closes, current));
  }

  /** Over every run of ready calls no error can be raised, and the carried target is
      the policy's while the last decisive signal was an entry, and zero otherwise. */
  lemma {:induction false} CarriedFollowsLastSignal(spec: RunSpec, calls: seq<Call>)
    requires ValidSpec(spec) && AllReady(spec.policy, calls)
    ensures CarriedAfter(spec, calls)
         == if Entered(Signals(spec.policy, calls)) then spec.policy.target * 100.0 else 0.0
    ensures |calls| > 0 ==>
      var last := calls[|calls| - 1];
      Decide(spec, CarriedAfter(spec, calls[..|calls| - 1]), last.closes,
             last.current).1 == Done(CarriedAfter(spec, calls))
  {
    if |calls| > 0 {
      var front, last := calls[..|calls| - 1], calls[|calls| - 1];
      assert AllReady(spec.policy, front);
      CarriedFollowsLastSignal(spec, front);
      assert ReadyCall(spec.policy, last);
      DecideFollowsSignal(spec, CarriedAfter(spec, front), last);
      EnteredGrows(Signals(spec.policy, front), SignalOf(spec.policy, last.closes));
    }
  }

  lemma {:induction false} EnteredGrows(signals: seq<Signal>, last: Signal)
    ensures Entered(signals + [last]) <==> last == Enter || (last == Stay && Entered(signals))
  {
    var all := signals + [last];
    assert all[|signals|] == last;
    if last == Stay && Entered(signals) {
      var i :| 0 <= i < |signals| && signals[i] == Enter && forall j :: i < j < |signals| ==> signals[j] == Stay;
      assert all[i] == Enter;
    }
    if last == Stay && Entered(all) {
      var i :| 0 <= i < |all| && all[i] == Enter && forall j :: i < j < |all| ==> all[j] == Stay;
      assert signals[i] == Enter;
      assert forall j :: i < j < |signals| ==> signals[j] == all[j];
    }
  }
}

/** The executor object, which carries its target in a field. */
module DecisionExecutor {
  import opened BrokerModels
  import opened StrategyPolicy
  import opened PolicyExecutor

  class BacktestRunDecisionExecutor {
    const spec: RunSpec
    var deterministicTarget: real

    constructor (spec: RunSpec)
      ensures this.spec == spec && deterministicTarget == 0.0
    {
      this.spec := spec;
      deterministicTarget := 0.0;
    }

    method ResetForRun()
      modifies this
      ensures deterministicTarget == 0.0
    {
      deterministicTarget := 0.0;
    }

    method Decide(closes: seq<real>, current: real) returns (answer: Attempt<real>)
      requires ValidPolicy(spec.policy)
      modifies this
      ensures (deterministicTarget, answer) == PolicyExecutor.Decide(spec, old(deterministicTarget), closes, current)
    {
      answer := PolicyDecide(spec.policy, closes, deterministicTarget);
      if answer.Raised? {
        return;
      }
      deterministicTarget := answer.value;
      var transition := DeriveTransition(current, answer.value, spec.broker.maxPosition * 100.0);
      if transition.Raised? {
        answer := Raised(transition.error);
      }
    }
  }
}
