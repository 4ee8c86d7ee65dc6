/** What a decision sees: the closes of its price history up to and including its own
    session, and the signals those closes give, in terms of the history's rows. */
module SimulationHistory {
  import opened BrokerModels
  import opened Reals
  import opened StrategyPolicy
  import opened PolicyExecutor
  import opened Simulation

  /** The sessions of the history on or before a date. */
  function SessionsBy(history: seq<Row>, date: int): set<int> {
    set i | 0 <= i < |history| && history[i].date <= date :: i
  }

  ghost predicate InDateOrder(history: seq<Row>) {
    forall i, j :: 0 <= i < j < |history| ==> history[i].date < history[j].date
  }

  lemma SessionsOfFront(history: seq<Row>, date: int)
    requires |history| > 0
    ensures
      var front := SessionsBy(history[..|history| - 1], date);
      && |history| - 1 !in front
      && SessionsBy(history, date)
           == front + if history[|history| - 1].date <= date then {|history| - 1} else {}
  {
  }

  /** A decision sees as many closes as there are sessions on or before its date. */
  lemma {:induction false} ClosesCount(history: seq<Row>, date: int)
    ensures |ClosesUpTo(history, date)| == |SessionsBy(history, date)|
    decreases |history|
  {
    if |history| > 0 {
      ClosesCount(history[..|history| - 1], date);
      SessionsOfFront(history, date);
    }
  }

  /** In date order they are the first ones. */
  lemma {:induction false} FirstCloses(history: seq<Row>, date: int, m: nat)
    requires m <= |history| && forall i :: 0 <= i < |history| ==> (history[i].date <= date <==> i < m)
    ensures |ClosesUpTo(history, date)| == m
    ensures forall i :: 0 <= i < m ==> ClosesUpTo(history, date)[i] == history[i].bar.close
    decreases |history|
  {
    if |history| > 0 {
      FirstCloses(history[..|history| - 1], date, if m < |history| then m else m - 1);
    }
  }

  /** Exactly the closes of the first sessions, as many as are on or before the date. */
  lemma ClosesAre(history: seq<Row>, date: int)
    requires InDateOrder(history)
    ensures |ClosesUpTo(history, date)| == |SessionsBy(history, date)| <= |history|
    ensures forall i :: 0 <= i < |SessionsBy(history, date)| ==> ClosesUpTo(history, date)[i] == history[i].bar.close
  {
    var m := 0;
    while m < |history| && history[m].date <= date
      invariant m <= |history| && forall i :: 0 <= i < m ==> history[i].date <= date
    {
      m := m + 1;
    }
    FirstCloses(history, date, m);
    ClosesCount(history, date);
  }

  /** A decision on a session of the history sees its close last, and every earlier one. */
  lemma ClosesOnSession(history: seq<Row>, k: nat)
    requires InDateOrder(history) && k < |history|
    ensures |ClosesUpTo(history, history[k].date)| == k + 1
    ensures forall i :: 0 <= i <= k ==> ClosesUpTo(history, history[k].date)[i] == history[i].bar.close
  {
    FirstCloses(history, history[k].date, k + 1);
  }

  // ---- signals of the rows -------------------------------------------------------------

  /** The closes of the last `n` of the first `m` sessions, added up. */
  function WindowSum(history: seq<Row>, m: nat, n: nat): real
    requires n <= m <= |history|
  {
    if n == 0 then 0.0 else history[m - n].bar.close + WindowSum(history, m, n - 1)
  }

  function MomentumOn(lookback: int, entry: real, exit: real, history: seq<Row>, m: nat): Signal
    requires 0 <= lookback < m <= |history|
  {
    var base, last := history[m - 1 - lookback].bar.close, history[m - 1].bar.close;
    if last >= base * (1.0 + entry) then Enter
    else if last <= base * (1.0 + exit) then Leave
    else Stay
  }

  function CrossingOn(fast: int, slow: int, history: seq<Row>, m: nat): Signal
    requires 0 <= fast <= slow <= m <= |history|
  {
    if Above(WindowSum(history, m, fast), fast, WindowSum(history, m, slow), slow) then Enter else Leave
  }

  /** What a stored strategy says about the first `m` sessions. */
  function StoredSignal(params: Params, history: seq<Row>, m: nat): Signal
    requires GoodParams(params) && StoredMinimum(params) <= m <= |history|
  {
    match params
    case MomentumParams(lookback, entry, exit) => MomentumOn(lookback, entry, exit, history, m)
    case SmaParams(fast, slow) => CrossingOn(fast, slow, history, m)
  }

  function StoredMinimum(params: Params): (n: int)
    requires GoodParams(params)
    ensures n > 0
  {
    match params
    case MomentumParams(lookback, _, _) => lookback + 1
    case SmaParams(_, slow) => slow
  }

  /** The parameters a policy was frozen from. */
  function ParamsOf(p: Policy): (params: Params)
    requires ValidPolicy(p)
    ensures GoodParams(params) && StoredMinimum(params) == MinimumCloses(p)
  {
    match p
    case Momentum(lookback, entry, exit, _) => MomentumParams(lookback, entry, exit)
    case Sma(fast, slow, _) => SmaParams(fast, slow)
  }

  lemma {:induction false} SumSplits(xs: seq<real>)
    requires |xs| > 0
    ensures Sum(xs) == xs[0] + Sum(xs[1..])
    decreases |xs|
  {
    if |xs| > 1 {
      var front := xs[..|xs| - 1];
      SumSplits(front);
      assert front[1..] == xs[1..][..|xs| - 2];
    }
  }

  lemma {:induction false} WindowIsSum(history: seq<Row>, closes: seq<real>, m: nat, n: nat)
    requires n <= m == |closes| <= |history|
    requires forall i :: 0 <= i < m ==> closes[i] == history[i].bar.close
    ensures Sum(closes[m - n..]) == WindowSum(history, m, n)
    decreases n
  {
    if n > 0 {
      WindowIsSum(history, closes, m, n - 1);
      SumSplits(closes[m - n..]);
      assert closes[m - n..][1..] == closes[m - (n - 1)..];
    }
  }

  lemma MomentumOfRows(p: Policy, history: seq<Row>, closes: seq<real>)
    requires ValidPolicy(p) && p.Momentum? && MinimumCloses(p) <= |closes| <= |history|
    requires forall i :: 0 <= i < |closes| ==> closes[i] == history[i].bar.close
    ensures SignalOf(p, closes) == MomentumOn(p.lookback, p.entry, p.exit, history, |closes|)
  {
    var m := |closes|;
    assert closes[m - p.lookback - 1] == history[m - 1 - p.lookback].bar.close;
    assert closes[m - 1] == history[m - 1].bar.close;
  }

  lemma CrossingOfRows(p: Policy, history: seq<Row>, closes: seq<real>)
    requires ValidPolicy(p) && p.Sma? && MinimumCloses(p) <= |closes| <= |history|
    requires forall i :: 0 <= i < |closes| ==> closes[i] == history[i].bar.close
    ensures SignalOf(p, closes) == CrossingOn(p.fast, p.slow, history, |closes|)
  {
    WindowIsSum(history, closes, |closes|, p.fast);
    WindowIsSum(history, closes, |closes|, p.slow);
  }

  /** The signal of the closes is that of the rows. */
  lemma SignalOfRows(p: Policy, history: seq<Row>, closes: seq<real>)
    requires ValidPolicy(p) && MinimumCloses(p) <= |closes| <= |history|
    requires forall i :: 0 <= i < |closes| ==> closes[i] == history[i].bar.close
    ensures SignalOf(p, closes) == StoredSignal(ParamsOf(p), history, |closes|)
  {
    if p.Momentum? {
      MomentumOfRows(p, history, closes);
    } else {
      CrossingOfRows(p, history, closes);
    }
  }
}
