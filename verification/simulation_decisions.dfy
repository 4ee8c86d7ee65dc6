/** What a run refuses, and what its executor is given and answers at every decision, for
    any executor. */
module SimulationDecisions {
  import opened BrokerModels
  import opened Positions
  import opened Pricing
  import opened Engine
  import opened Schedule
  import opened Simulation
  import opened SimulationFills
  import opened SimulationLaws
  import opened SimulationHistory

  // ---- prices ----------------------------------------------------------------------------

  /** A bar that cannot be: a price that is not positive, a high below another price, or a
      low above one. */
  predicate Impossible(b: Bar) {
    || Min(Min(b.open, b.high), Min(b.low, b.close)) <= 0.0
    || b.high < Max(b.open, Max(b.close, b.low))
    || b.low > Min(b.open, Min(b.close, b.high))
  }

  lemma {:induction false} BarsRaiseOtherErrors<S>(run: Setup, ex: Executor<S>, rows: seq<Row>, history: seq<Row>,
      due: set<int>, n: nat)
    requires n <= |rows|
    ensures Play(run, ex, rows, history, due, n).Abort? ==>
      var e := Play(run, ex, rows, history, due, n).error; e == ExecutorRaised || e == PositionLimit
  {
    if n > 0 {
      BarsRaiseOtherErrors(run, ex, rows, history, due, n - 1);
    }
  }

  /** Prices are refused exactly when some bar is impossible or dates do not increase. */
  lemma PricesRefused<S>(run: Setup, ex: Executor<S>, rows: seq<Row>, history: seq<Row>, cal: Calendar,
      frequency: Frequency)
    ensures Simulate(run, ex, rows, history, cal, frequency) == Abort(InvalidPrices) <==>
      || (exists i :: 0 <= i < |rows| && Impossible(rows[i].bar))
      || (exists i :: 0 <= i < |rows| - 1 && rows[i].date >= rows[i + 1].date)
  {
    forall i | 0 <= i < |rows| ensures ValidBar(rows[i].bar) <==> !Impossible(rows[i].bar) {
    }
    if DecisionDates(Dates(rows), cal, frequency).Some? {
      BarsRaiseOtherErrors(run, ex, rows, history, DecisionDates(Dates(rows), cal, frequency).value, |rows|);
    }
  }

  // ---- decisions ---------------------------------------------------------------------------

  /** The closes of the history's sessions on or before a date. */
  ghost predicate AreCloses(closes: seq<real>, history: seq<Row>, date: int) {
    && |closes| == |SessionsBy(history, date)| <= |history|
    && forall i :: 0 <= i < |closes| ==> closes[i] == history[i].bar.close
  }

  /** The share of the account's value at this close that is in its shares, in percent. */
  predicate IsWeight(weight: real, a: Account, ticker: Name, close: real) {
    var held := Times(Shares(a.book, ticker), close);
    a.cash + held > 0.0 && Times(weight, a.cash + held) == 100.0 * held
  }

  /** The executor was given the closes up to the date and the weight after the open, and
      its answer became the decision, the pending intent and its next state. */
  ghost predicate Answered<S>(run: Setup, ex: Executor<S>, before: Sim<S>, after: Sim<S>, row: Row,
      closes: seq<real>, weight: real, target: real)
  {
    && IsWeight(weight, after.account, run.ticker, row.bar.close)
    && ex.decide(before.executor, closes, weight) == (after.executor, Some(target))
    && 0.0 <= target <= run.cfg.maxPosition * 100.0
    && after.pending == Some(Intent(after.sequence, row.date, target))
    && |after.decisions| > 0 && |after.moves| > 0
    && after.decisions[|after.decisions| - 1]
         == Decision(after.sequence, row.date, None, Completed(target, after.moves[|after.moves| - 1]))
    && var move := after.moves[|after.moves| - 1];
       && (move == HOLD <==> Abs(target - weight) <= 0.000000001 * Max(1.0, Max(Abs(target), Abs(weight))))
       && (move == BUY ==> target > weight) && (move == SELL ==> target < weight)
  }

  lemma HoldsWithin(target: real, weight: real)
    ensures MoveTo(target, weight) == HOLD <==>
      Abs(target - weight) <= 0.000000001 * Max(1.0, Max(Abs(target), Abs(weight)))
    ensures MoveTo(target, weight) == BUY ==> target > weight
    ensures MoveTo(target, weight) == SELL ==> target < weight
  {
  }

  lemma DecisionAnswers<S>(run: Setup, ex: Executor<S>, filled: Sim<S>, row: Row, closes: seq<real>)
    returns (weight: real, target: real)
    requires Steady(run, filled.account) && row.bar.close > 0.0 && |closes| >= ex.minimum
    requires Simulation.Decide(run, ex, filled, row, closes).Next?
    ensures Answered(run, ex, filled, Simulation.Decide(run, ex, filled, row, closes).sim, row, closes, weight, target)
  {
    weight := Weight(Shares(filled.account.book, run.ticker), row.bar.close, CloseEquity(run, filled.account, row));
    target := ex.decide(filled.executor, closes, weight).1.value;
    WeightInRange(run, filled.account, row);
    OneTickerValue(filled.account.book, run.ticker, map[run.ticker := row.bar]);
    HoldsWithin(target, weight);
  }

  /** At every decision date with enough history, in every run that has not failed, the
      executor saw exactly the closes up to that session and the weight at its close, and
      the run did what it answered. */
  lemma EveryDecisionSees<S>(run: Setup, ex: Executor<S>, rows: seq<Row>, history: seq<Row>, due: set<int>, n: nat)
      returns (closes: seq<real>, weight: real, target: real)
    requires GoodSetup(run) && ValidFrame(rows) && InDateOrder(history) && 0 < n <= |rows|
    requires rows[n - 1].date in due && |SessionsBy(history, rows[n - 1].date)| >= ex.minimum
    requires Play(run, ex, rows, history, due, n).Next?
    ensures Play(run, ex, rows, history, due, n - 1).Next?
    ensures AreCloses(closes, history, rows[n - 1].date)
    ensures Answered(run, ex, Play(run, ex, rows, history, due, n - 1).sim, Play(run, ex, rows, history, due, n).sim,
                     rows[n - 1], closes, weight, target)
  {
    var row := rows[n - 1];
    closes := ClosesUpTo(history, row.date);
    ClosesAre(history, row.date);
    EveryBarIsSound(run, ex, rows, history, due, n - 1);
    var before := Play(run, ex, rows, history, due, n - 1).sim;
    assert ValidBar(row.bar);
    AtOpenKeepsSound(run, before, row);
    weight, target := DecisionAnswers(run, ex, AtOpen(run, before, row), row, closes);
  }
}
