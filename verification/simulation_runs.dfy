/** Whole simulated runs: counts, prefixes, deterministic executors, reconciliation. */
module SimulationRuns {
  import opened BrokerModels
  import opened Positions
  import opened Pricing
  import opened RiskChecks
  import opened Engine
  import opened Sizing
  import opened Schedule
  import opened Simulation
  import opened SimulationFills
  import opened SimulationLaws

  // ---- every fill ----------------------------------------------------------------------

  /** What an order does at its open: it moves to the largest count within the target,
      passes the risk check, leaves the equity and shares the checker projected, and the
      holding then weighs at most the target, marked at that open. */
  ghost predicate FillsWithin(run: Setup, a: Account, o: Order, after: Account, open: real, target: real) {
    var marks := map[run.ticker := FlatBar(open)];
    var equity := PrefillEquity(a, run.ticker, open);
    && open > 0.0
    && IsLargestWithin(Buying(run.cfg, open), Selling(run.cfg, open), open, equity, target / 100.0,
                       Have(a, run.ticker), Have(after, run.ticker))
    && Check(run.cfg, o, a.cash, equity, a.book, Some(open)) == Pass
    && Equity(after, marks) == ProjectedEquity(run.cfg, o, equity, open) > 0.0
    && Shares(after.book, run.ticker) == ProjectedShares(o, a.book)
    && Times(Shares(after.book, run.ticker), open) <= Times(target / 100.0, Equity(after, marks))
  }

  lemma OrderFillsWithin(run: Setup, a: Account, intent: Intent, row: Row)
    requires GoodSetup(run) && Steady(run, a) && row.bar.open > 0.0 && TargetAllowed(run, intent.target)
    requires Place(run, a, Some(intent), row).Ordered?
    ensures
      var o := Place(run, a, Some(intent), row).order;
      FillsWithin(run, a, o, FillAtOpen(run, a, o, row.bar.open, row.date), row.bar.open, intent.target)
  {
    var o, want := PlacedOrder(run, a, intent, row);
    MoveFillsWithin(run, a, o, row.bar.open, row.date, intent.target, want);
  }

  lemma MoveFillsWithin(run: Setup, a: Account, o: Order, open: real, time: int, target: real, want: int)
    requires GoodSetup(run) && Steady(run, a) && open > 0.0 && TargetAllowed(run, target) && Moves(run, a, o, want)
    requires IsLargestWithin(Buying(run.cfg, open), Selling(run.cfg, open), open, PrefillEquity(a, run.ticker, open),
                             target / 100.0, Have(a, run.ticker), want)
    ensures FillsWithin(run, a, o, FillAtOpen(run, a, o, open, time), open, target)
  {
    WithinTargetPasses(run, a, o, open, target, want);
    FillBook(run, a, o, open, time, want);
    FillWeighs(run, a, o, open, time, target, want);
    FillMatchesProjection(run, a, o, open, time, want);
  }

  lemma FillWeighs(run: Setup, a: Account, o: Order, open: real, time: int, target: real, want: int)
    requires GoodSetup(run) && Steady(run, a) && open > 0.0 && TargetAllowed(run, target) && Moves(run, a, o, want)
    requires WithinTarget(Buying(run.cfg, open), Selling(run.cfg, open), open, PrefillEquity(a, run.ticker, open),
                          target / 100.0, Have(a, run.ticker), want)
    ensures
      var equity := Equity(FillAtOpen(run, a, o, open, time), map[run.ticker := FlatBar(open)]);
      equity > 0.0 && Times(want as real, open) <= Times(target / 100.0, equity)
  {
    FillKeepsSteady(run, a, o, open, time, target, want);
  }

  lemma FillMatchesProjection(run: Setup, a: Account, o: Order, open: real, time: int, want: int)
    requires GoodSetup(run) && Steady(run, a) && open > 0.0 && Moves(run, a, o, want)
    ensures
      var after := FillAtOpen(run, a, o, open, time);
      && Equity(after, map[run.ticker := FlatBar(open)])
           == ProjectedEquity(run.cfg, o, PrefillEquity(a, run.ticker, open), open)
      && Shares(after.book, run.ticker) == ProjectedShares(o, a.book)
  {
    FillBook(run, a, o, open, time, want);
    FillCash(run, a, o, open, time, want);
    ProjectionMatchesSizing(run, a, o, open, want);
  }

  /** So it is whenever any run places an order. */
  lemma EveryOrderFillsWithinTarget<S>(run: Setup, ex: Executor<S>, rows: seq<Row>,
      history: seq<Row>, due: set<int>, n: nat)
    requires GoodSetup(run) && ValidFrame(rows) && n < |rows|
    requires Play(run, ex, rows, history, due, n).Next?
    requires
      var sim := Play(run, ex, rows, history, due, n).sim;
      Place(run, sim.account, sim.pending, rows[n]).Ordered?
    ensures
      var sim := Play(run, ex, rows, history, due, n).sim;
      var o := Place(run, sim.account, sim.pending, rows[n]).order;
      FillsWithin(run, sim.account, o, AtOpen(run, sim, rows[n]).account, rows[n].bar.open, sim.pending.value.target)
  {
    var sim := Play(run, ex, rows, history, due, n).sim;
    assert ValidBar(rows[n].bar);
    EveryBarIsSound(run, ex, rows, history, due, n);
    OrderFillsWithin(run, sim.account, sim.pending.value, rows[n]);
  }

  // ---- counts ----------------------------------------------------------------------------

  /** The decision dates among the first `n` sessions. */
  function Seen(rows: seq<Row>, due: set<int>, n: nat): set<int>
    requires n <= |rows|
  {
    if n == 0 then {}
    else if rows[n - 1].date in due then Seen(rows, due, n - 1) + {rows[n - 1].date}
    else Seen(rows, due, n - 1)
  }

  lemma {:induction false} SeenIsEarlier(rows: seq<Row>, due: set<int>, n: nat, date: int)
    requires n <= |rows|
    ensures date in Seen(rows, due, n) <==> date in due && exists i :: 0 <= i < n && rows[i].date == date
  {
    if n > 0 {
      SeenIsEarlier(rows, due, n - 1, date);
    }
  }

  ghost predicate Counted<S>(rows: seq<Row>, due: set<int>, n: nat, sim: Sim<S>)
    requires n <= |rows|
  {
    && sim.progress.barsProcessed == n == |sim.snapshots|
    && sim.progress.eligible == sim.sequence == |Seen(rows, due, n)|
    && sim.progress.eligible == sim.progress.notReady + sim.progress.completed
    && sim.progress.barsTotal == |rows| && sim.progress.decisionsTotal == |due|
    && |sim.moves| == sim.progress.completed
    && (forall i :: 0 <= i < n ==> sim.snapshots[i].date == rows[i].date && sim.snapshots[i].equity > 0.0)
    && (n > 0 && rows[n - 1].date !in due ==> sim.pending == None)
  }

  lemma {:induction false} FrameIncreases(rows: seq<Row>, i: nat, j: nat)
    requires ValidFrame(rows) && i < j < |rows|
    ensures rows[i].date < rows[j].date
    decreases j
  {
    assert rows[j - 1].date < rows[j - 1 + 1].date;
    if i < j - 1 {
      FrameIncreases(rows, i, j - 1);
    }
  }

  lemma NotSeenYet(rows: seq<Row>, due: set<int>, n: nat)
    requires ValidFrame(rows) && n < |rows|
    ensures rows[n].date !in Seen(rows, due, n)
  {
    SeenIsEarlier(rows, due, n, rows[n].date);
    forall i | 0 <= i < n ensures rows[i].date != rows[n].date {
      FrameIncreases(rows, i, n);
    }
  }

  /** What one bar counts. */
  ghost predicate CountsBar<S>(sim: Sim<S>, after: Sim<S>, date: int, isDue: bool) {
    var p, q := sim.progress, after.progress;
    var one := if isDue then 1 else 0;
    && q.barsTotal == p.barsTotal && q.decisionsTotal == p.decisionsTotal
    && q.barsProcessed == p.barsProcessed + 1
    && q.eligible == p.eligible + one && after.sequence == sim.sequence + one
    && q.notReady + q.completed == p.notReady + p.completed + one
    && |after.moves| - |sim.moves| == q.completed - p.completed
    && |after.snapshots| == |sim.snapshots| + 1 && after.snapshots[..|sim.snapshots|] == sim.snapshots
    && after.snapshots[|sim.snapshots|].date == date && after.snapshots[|sim.snapshots|].equity > 0.0
    && (!isDue ==> after.pending == None)
  }

  lemma BarShape<S>(run: Setup, ex: Executor<S>, sim: Sim<S>, row: Row, closes: seq<real>, isDue: bool)
    requires CloseEquity(run, AtOpen(run, sim, row).account, row) > 0.0
    ensures
      var result := PlayBar(run, ex, sim, row, closes, isDue);
      result.Next? ==> CountsBar(sim, result.sim, row.date, isDue)
  {
  }

  lemma CountedGrows<S>(rows: seq<Row>, due: set<int>, n: nat, sim: Sim<S>, after: Sim<S>)
    requires ValidFrame(rows) && n < |rows| && Counted(rows, due, n, sim)
    requires CountsBar(sim, after, rows[n].date, rows[n].date in due)
    ensures Counted(rows, due, n + 1, after)
  {
    NotSeenYet(rows, due, n);
    forall i | 0 <= i < n + 1
      ensures after.snapshots[i].date == rows[i].date && after.snapshots[i].equity > 0.0
    {
      if i < n {
        assert after.snapshots[i] == sim.snapshots[i];
      }
    }
  }

  lemma BarCounts<S>(run: Setup, ex: Executor<S>, rows: seq<Row>, due: set<int>, n: nat,
      sim: Sim<S>, closes: seq<real>)
    requires GoodSetup(run) && ValidFrame(rows) && n < |rows|
    requires Sound(run, sim) && Counted(rows, due, n, sim)
    ensures
      var result := PlayBar(run, ex, sim, rows[n], closes, rows[n].date in due);
      result.Next? ==> Counted(rows, due, n + 1, result.sim)
  {
    var row := rows[n];
    assert ValidBar(row.bar);
    AtOpenKeepsSound(run, sim, row);
    WeightInRange(run, AtOpen(run, sim, row).account, row);
    BarShape(run, ex, sim, row, closes, row.date in due);
    var result := PlayBar(run, ex, sim, row, closes, row.date in due);
    if result.Next? {
      CountedGrows(rows, due, n, sim, result.sim);
    }
  }

  lemma {:induction false} EveryBarCounts<S>(run: Setup, ex: Executor<S>, rows: seq<Row>,
      history: seq<Row>, due: set<int>, n: nat)
    requires GoodSetup(run) && ValidFrame(rows) && n <= |rows|
    ensures Play(run, ex, rows, history, due, n).Next? ==>
      Counted(rows, due, n, Play(run, ex, rows, history, due, n).sim)
  {
    if n > 0 {
      var before := Play(run, ex, rows, history, due, n - 1);
      if before.Next? {
        EveryBarCounts(run, ex, rows, history, due, n - 1);
        EveryBarIsSound(run, ex, rows, history, due, n - 1);
        BarCounts(run, ex, rows, due, n - 1, before.sim, ClosesUpTo(history, rows[n - 1].date));
      }
    }
  }

  /** A finished run has played every bar and every decision date, snapshots a positive
      equity every session, and leaves no intent pending. */
  lemma FinishedRuns<S>(run: Setup, ex: Executor<S>, rows: seq<Row>, history: seq<Row>,
      cal: Calendar, frequency: Frequency)
    requires GoodSetup(run) && Simulate(run, ex, rows, history, cal, frequency).Next?
    ensures
      var sim := Simulate(run, ex, rows, history, cal, frequency).sim;
      && DecisionDates(Dates(rows), cal, frequency).Some?
      && Counted(rows, DecisionDates(Dates(rows), cal, frequency).value, |rows|, sim)
      && sim.progress.eligible == sim.progress.decisionsTotal
      && sim.pending == None
      && Sound(run, sim)
  {
    var due := DecisionDates(Dates(rows), cal, frequency).value;
    EveryBarCounts(run, ex, rows, history, due, |rows|);
    EveryBarIsSound(run, ex, rows, history, due, |rows|);
    DueAreSessions(rows, cal, frequency);
    forall d ensures d in Seen(rows, due, |rows|) <==> d in due {
      SeenIsEarlier(rows, due, |rows|, d);
    }
    assert Seen(rows, due, |rows|) == due;
  }

  /** Decision dates are sessions, and the last session is not one. */
  lemma DueAreSessions(rows: seq<Row>, cal: Calendar, frequency: Frequency)
    requires ValidFrame(rows) && |rows| > 0 && DecisionDates(Dates(rows), cal, frequency).Some?
    ensures
      var due := DecisionDates(Dates(rows), cal, frequency).value;
      && (forall d :: d in due ==> exists i :: 0 <= i < |rows| && rows[i].date == d)
      && rows[|rows| - 1].date !in due
  {
    var due, dates := DecisionDates(Dates(rows), cal, frequency).value, Dates(rows);
    forall i, j | 0 <= i < j < |dates| ensures dates[i] < dates[j] {
      FrameIncreases(rows, i, j);
    }
    var last: nat := |dates| - 1;
    if dates[last] in due {
      DecisionsAreExecutable(dates, cal, frequency, last);
    }
    forall d | d in due ensures exists i :: 0 <= i < |rows| && rows[i].date == d {
      var i :| 0 <= i < |dates| - 1 && d == dates[i];
      assert rows[i].date == d;
    }
  }

  // ---- no look-ahead ------------------------------------------------------------------------

  /** Two histories on the same dates that agree before `date`. */
  ghost predicate AgreeBefore(history: seq<Row>, other: seq<Row>, date: int) {
    && |history| == |other|
    && forall i :: 0 <= i < |history| ==>
         history[i].date == other[i].date && (history[i].date < date ==> history[i] == other[i])
  }

  lemma {:induction false} SameCloses(history: seq<Row>, other: seq<Row>, date: int, upTo: int)
    requires AgreeBefore(history, other, date) && upTo < date
    ensures ClosesUpTo(history, upTo) == ClosesUpTo(other, upTo)
  {
    if |history| > 0 {
      SameCloses(history[..|history| - 1], other[..|other| - 1], date, upTo);
    }
  }

  /** What has happened after `n` bars depends on those bars only. */
  lemma {:induction false} PrefixDecides<S>(run: Setup, ex: Executor<S>, rows: seq<Row>,
      other: seq<Row>, history: seq<Row>, otherHistory: seq<Row>, due: set<int>, n: nat, date: int)
    requires n <= |rows| == |other|
    requires forall i :: 0 <= i < n ==> rows[i] == other[i] && rows[i].date < date
    requires AgreeBefore(history, otherHistory, date)
    ensures Play(run, ex, rows, history, due, n) == Play(run, ex, other, otherHistory, due, n)
  {
    if n > 0 {
      PrefixDecides(run, ex, rows, other, history, otherHistory, due, n - 1, date);
      SameCloses(history, otherHistory, date, rows[n - 1].date);
    }
  }

  /** Executing an intent looks at the date and the open of the bar only. */
  lemma OpenIsEnough<S>(run: Setup, sim: Sim<S>, row: Row, other: Row)
    requires row.date == other.date && row.bar.open == other.bar.open
    ensures AtOpen(run, sim, row) == AtOpen(run, sim, other)
  {
  }

  lemma DatesOrdered(rows: seq<Row>, k: nat)
    requires ValidFrame(rows) && k < |rows|
    ensures forall i :: 0 <= i < k ==> rows[i].date < rows[k].date
  {
    forall i | 0 <= i < k ensures rows[i].date < rows[k].date {
      FrameIncreases(rows, i, k);
    }
  }

  /** The same dates have the same decision dates. */
  lemma SameSchedule(rows: seq<Row>, other: seq<Row>, cal: Calendar, frequency: Frequency)
    requires |rows| == |other| && forall i :: 0 <= i < |rows| ==> rows[i].date == other[i].date
    ensures DecisionDates(Dates(other), cal, frequency) == DecisionDates(Dates(rows), cal, frequency)
  {
    assert Dates(rows) == Dates(other);
  }

  /** No look-ahead at the open.  Two runs that agree on every bar before `k` and on bar
      `k`'s open have the same orders, fills, cash and recorded equity at bar `k`,
      whatever its high, low and close and all later bars are. */
  lemma NoLookAheadAtOpen<S>(run: Setup, ex: Executor<S>, rows: seq<Row>, other: seq<Row>,
      history: seq<Row>, otherHistory: seq<Row>, due: set<int>, k: nat)
    requires ValidFrame(rows) && k < |rows| == |other|
    requires forall i :: 0 <= i < k ==> rows[i] == other[i]
    requires rows[k].date == other[k].date && rows[k].bar.open == other[k].bar.open
    requires AgreeBefore(history, otherHistory, rows[k].date)
    ensures
      var before := Play(run, ex, rows, history, due, k);
      && before == Play(run, ex, other, otherHistory, due, k)
      && (before.Next? ==> AtOpen(run, before.sim, rows[k]) == AtOpen(run, before.sim, other[k]))
  {
    DatesOrdered(rows, k);
    PrefixDecides(run, ex, rows, other, history, otherHistory, due, k, rows[k].date);
    var before := Play(run, ex, rows, history, due, k);
    if before.Next? {
      OpenIsEnough(run, before.sim, rows[k], other[k]);
    }
  }

  /** No look-ahead at the close: agreeing on the rest of bar `k` as well, they take the
      same decision on it, whatever all later bars are. */
  lemma NoLookAheadAtClose<S>(run: Setup, ex: Executor<S>, rows: seq<Row>, other: seq<Row>,
      history: seq<Row>, otherHistory: seq<Row>, due: set<int>, k: nat)
    requires ValidFrame(rows) && k < |rows| == |other|
    requires forall i :: 0 <= i <= k ==> rows[i] == other[i]
    requires AgreeBefore(history, otherHistory, rows[k].date + 1)
    ensures Play(run, ex, rows, history, due, k + 1) == Play(run, ex, other, otherHistory, due, k + 1)
  {
    DatesOrdered(rows, k);
    PrefixDecides(run, ex, rows, other, history, otherHistory, due, k + 1, rows[k].date + 1);
  }
}
