/** What becomes of every decision of a simulated run. */
module SimulationOutcomes {
  import opened BrokerModels
  import opened Positions
  import opened Pricing
  import opened Engine
  import opened Schedule
  import opened Simulation
  import opened SimulationFills
  import opened SimulationLaws
  import SimulationRuns
  import OrderLaws

  // ---- the traces of a decision ----------------------------------------------------------

  /** The fills of one decision, in the order they were made. */
  function FillsFor(reports: seq<FillReport>, sequence: int): seq<FillReport> {
    if |reports| == 0 then []
    else
      var rest, last := FillsFor(reports[..|reports| - 1], sequence), reports[|reports| - 1];
      if last.fill.decision == sequence then rest + [last] else rest
  }

  /** The records of one decision that needed no share. */
  function UnfilledFor(unfilled: seq<Unfilled>, sequence: int): seq<Unfilled> {
    if |unfilled| == 0 then []
    else
      var rest, last := UnfilledFor(unfilled[..|unfilled| - 1], sequence), unfilled[|unfilled| - 1];
      if last.sequence == sequence then rest + [last] else rest
  }

  lemma FillsForGrows(reports: seq<FillReport>, r: FillReport, sequence: int)
    ensures FillsFor(reports + [r], sequence)
         == FillsFor(reports, sequence) + if r.fill.decision == sequence then [r] else []
  {
    assert (reports + [r])[..|reports|] == reports;
  }

  lemma UnfilledForGrows(unfilled: seq<Unfilled>, u: Unfilled, sequence: int)
    ensures UnfilledFor(unfilled + [u], sequence)
         == UnfilledFor(unfilled, sequence) + if u.sequence == sequence then [u] else []
  {
    assert (unfilled + [u])[..|unfilled|] == unfilled;
  }

  lemma {:induction false} NoFillsFor(reports: seq<FillReport>, sequence: int)
    requires forall k :: 0 <= k < |reports| ==> reports[k].fill.decision != sequence
    ensures FillsFor(reports, sequence) == []
  {
    if |reports| > 0 {
      NoFillsFor(reports[..|reports| - 1], sequence);
    }
  }

  lemma {:induction false} NoUnfilledFor(unfilled: seq<Unfilled>, sequence: int)
    requires forall k :: 0 <= k < |unfilled| ==> unfilled[k].sequence != sequence
    ensures UnfilledFor(unfilled, sequence) == []
  {
    if |unfilled| > 0 {
      NoUnfilledFor(unfilled[..|unfilled| - 1], sequence);
    }
  }

  // ---- what has to become of it ----------------------------------------------------------

  function Want(run: Setup, a: Account, open: real, target: real): int {
    TargetShares(run.cfg, a.cash, Have(a, run.ticker), open, target)
  }

  /** The holding weighs the target at this open, within the runner's tolerance. */
  predicate OnTarget(run: Setup, a: Account, open: real, target: real) {
    var equity := PrefillEquity(a, run.ticker, open);
    && equity > 0.0
    && Abs(Times(Have(a, run.ticker) as real, open) / equity - target / 100.0) <= 0.000000000001
  }

  /** The fill that moves the account to `want` shares at this session's open. */
  predicate MovesTo(run: Setup, a: Account, row: Row, r: FillReport, want: int) {
    && r.fill.time == row.date
    && r.fill.price == MarketPrice(r.side, row.bar.open, run.cfg.slippage)
    && r.ticker == run.ticker && r.sharesAfter == want as real
    && r.side == (if want > Have(a, run.ticker) then Buy else Sell)
    && SignedQty(r) == (want - Have(a, run.ticker)) as real
  }

  /** A completed decision, once the account `a` has met the open of the session after it:
      - a change of shares was needed, and there is one fill, of that change, at that open;
      - no share was needed off the target, and there is one record of it, for that session;
      - the holding was on target, and there is no trace. */
  ghost predicate CarriedOut(run: Setup, a: Account, row: Row, fills: seq<FillReport>,
      missed: seq<Unfilled>, d: Decision)
    requires d.outcome.Completed?
  {
    var want := Want(run, a, row.bar.open, d.outcome.target);
    if want != Have(a, run.ticker) then
      && d.executionDate == Some(row.date) && missed == []
      && |fills| == 1 && MovesTo(run, a, row, fills[0], want)
    else if !OnTarget(run, a, row.bar.open, d.outcome.target) then
      && d.executionDate == Some(row.date) && fills == []
      && missed == [Unfilled(d.sequence, d.signalDate, row.date)]
    else
      d.executionDate == None && fills == [] && missed == []
  }

  ghost predicate Untraced(d: Decision, fills: seq<FillReport>, missed: seq<Unfilled>) {
    d.executionDate == None && fills == [] && missed == []
  }

  /** The account right before the open of each session. */
  type Accounts = int -> Account

  /** The decision was made on session `j` and executed on the next, if it was ready. */
  ghost predicate ResolvedFrom(run: Setup, rows: seq<Row>, was: Accounts, j: int, fills: seq<FillReport>,
      missed: seq<Unfilled>, d: Decision)
  {
    && 0 <= j < |rows| && rows[j].date == d.signalDate
    && match d.outcome
       case NotReady => Untraced(d, fills, missed)
       case Completed(_, _) => j + 1 < |rows| && CarriedOut(run, was(j + 1), rows[j + 1], fills, missed, d)
  }

  ghost predicate Resolved(run: Setup, rows: seq<Row>, was: Accounts, reports: seq<FillReport>,
      unfilled: seq<Unfilled>, d: Decision)
  {
    exists j :: ResolvedFrom(run, rows, was, j, FillsFor(reports, d.sequence), UnfilledFor(unfilled, d.sequence), d)
  }

  ghost predicate Listed(decisions: seq<Decision>, sequence: nat) {
    && |decisions| == sequence
    && forall i :: 0 <= i < |decisions| ==> decisions[i].sequence == i + 1
  }

  /** The first `done` decisions are resolved. */
  ghost predicate AllResolved(run: Setup, rows: seq<Row>, was: Accounts, reports: seq<FillReport>,
      unfilled: seq<Unfilled>, decisions: seq<Decision>, done: int)
  {
    forall i :: 0 <= i < |decisions| && i < done ==> Resolved(run, rows, was, reports, unfilled, decisions[i])
  }

  ghost predicate UnfilledInOrder(unfilled: seq<Unfilled>, done: int) {
    && (forall k :: 0 <= k < |unfilled| ==> 1 <= unfilled[k].sequence <= done)
    && (forall j, k :: 0 <= j < k < |unfilled| ==> unfilled[j].sequence < unfilled[k].sequence)
  }

  /** The pending intent is the last decision, made on the last bar and not executed. */
  ghost predicate PendingIsLast<S>(rows: seq<Row>, n: nat, sim: Sim<S>) {
    sim.pending.Some? ==>
      && 0 < n <= |rows| && |sim.decisions| > 0
      && var d := sim.decisions[|sim.decisions| - 1];
      && d.signalDate == sim.pending.value.signalDate == rows[n - 1].date
      && d.outcome.Completed? && d.outcome.target == sim.pending.value.target
      && Untraced(d, FillsFor(sim.account.reports, d.sequence), UnfilledFor(sim.unfilled, d.sequence))
  }

  /** Where all decisions of a run stand: every one but the pending last is resolved. */
  ghost predicate Outcomes<S>(run: Setup, rows: seq<Row>, was: Accounts, n: nat, sim: Sim<S>) {
    && Listed(sim.decisions, sim.sequence)
    && AllResolved(run, rows, was, sim.account.reports, sim.unfilled, sim.decisions, DoneUpTo(sim))
    && UnfilledInOrder(sim.unfilled, DoneUpTo(sim))
    && PendingIsLast(rows, n, sim)
  }

  // ---- placing an intent -----------------------------------------------------------------

  /** Which placement it is: an order exactly when the share count has to change, and
      otherwise at target exactly within the tolerance. */
  lemma AtTargetMeans(run: Setup, a: Account, intent: Intent, row: Row)
    requires GoodSetup(run) && Steady(run, a) && row.bar.open > 0.0 && TargetAllowed(run, intent.target)
    ensures
      var placement := Place(run, a, Some(intent), row);
      && PrefillEquity(a, run.ticker, row.bar.open) > 0.0
      && (placement.Ordered? <==> Want(run, a, row.bar.open, intent.target) != Have(a, run.ticker))
      && (placement.AtTarget? <==> !placement.Ordered? && OnTarget(run, a, row.bar.open, intent.target))
      && (placement.NotAffordable? <==> !placement.Ordered? && !OnTarget(run, a, row.bar.open, intent.target))
      && (placement.NotAffordable? ==> placement.unfilled == Unfilled(intent.sequence, intent.signalDate, row.date))
  {
    PositiveValue(Have(a, run.ticker) as real, row.bar.open);
  }

  lemma ReportedShares(run: Setup, a: Account, o: Order, open: real, time: int)
    requires o.ticker == run.ticker
    ensures
      var after := FillAtOpen(run, a, o, open, time);
      |after.reports| > 0 && after.reports[|after.reports| - 1].sharesAfter == Shares(after.book, run.ticker)
  {
  }

  /** The one fill of an order placed for an intent. */
  lemma OrderMovesTo(run: Setup, a: Account, intent: Intent, row: Row) returns (r: FillReport)
    requires GoodSetup(run) && Steady(run, a) && row.bar.open > 0.0 && TargetAllowed(run, intent.target)
    requires Place(run, a, Some(intent), row).Ordered?
    ensures AccountAfter(run, a, Place(run, a, Some(intent), row), row).reports == a.reports + [r]
    ensures r.fill.decision == intent.sequence
    ensures MovesTo(run, a, row, r, Want(run, a, row.bar.open, intent.target))
  {
    var o := Place(run, a, Some(intent), row).order;
    var want := Want(run, a, row.bar.open, intent.target);
    OrderMoves(run, a, intent, row);
    FillAppends(run, a, o, row.bar.open, row.date);
    FillBook(run, a, o, row.bar.open, row.date, want);
    ReportedShares(run, a, o, row.bar.open, row.date);
    var after := FillAtOpen(run, a, o, row.bar.open, row.date);
    r := after.reports[|a.reports|];
    assert after.reports == after.reports[..|a.reports|] + [r];
  }

  // ---- one bar -----------------------------------------------------------------------------

  /** Resolving the last decision leaves the earlier ones resolved. */
  lemma ResolveLast(run: Setup, rows: seq<Row>, was: Accounts, reports: seq<FillReport>, unfilled: seq<Unfilled>,
      decisions: seq<Decision>, reports': seq<FillReport>, unfilled': seq<Unfilled>, decisions': seq<Decision>)
    requires Listed(decisions, |decisions|) && Listed(decisions', |decisions'|) && |decisions'| == |decisions| > 0
    requires AllResolved(run, rows, was, reports, unfilled, decisions, |decisions| - 1)
    requires forall i :: 0 <= i < |decisions| - 1 ==> decisions'[i] == decisions[i]
    requires forall s :: s != |decisions| ==> FillsFor(reports', s) == FillsFor(reports, s)
    requires forall s :: s != |decisions| ==> UnfilledFor(unfilled', s) == UnfilledFor(unfilled, s)
    requires Resolved(run, rows, was, reports', unfilled', decisions'[|decisions| - 1])
    ensures AllResolved(run, rows, was, reports', unfilled', decisions', |decisions|)
  {
    forall i | 0 <= i < |decisions'| ensures Resolved(run, rows, was, reports', unfilled', decisions'[i]) {
      if i < |decisions| - 1 {
        assert Resolved(run, rows, was, reports, unfilled, decisions[i]);
      }
    }
  }

  lemma DatedList(decisions: seq<Decision>, sequence: nat, date: int)
    requires Listed(decisions, sequence) && sequence > 0
    ensures
      var after := WithExecutionDate(decisions, sequence, date);
      && Listed(after, sequence)
      && (forall i :: 0 <= i < sequence - 1 ==> after[i] == decisions[i])
      && after[sequence - 1] == decisions[sequence - 1].(executionDate := Some(date))
  {
  }

  lemma OrderedOutcomes<S>(run: Setup, rows: seq<Row>, was: Accounts, n: nat, sim: Sim<S>)
    requires GoodSetup(run) && n < |rows| && rows[n].bar.open > 0.0 && was(n) == sim.account
    requires Sound(run, sim) && Outcomes(run, rows, was, n, sim)
    requires Place(run, sim.account, sim.pending, rows[n]).Ordered?
    ensures
      var after := AtOpen(run, sim, rows[n]);
      && Listed(after.decisions, sim.sequence)
      && AllResolved(run, rows, was, after.account.reports, sim.unfilled, after.decisions, sim.sequence)
  {
    var row, intent := rows[n], sim.pending.value;
    var d := sim.decisions[sim.sequence - 1];
    var reports := AtOpen(run, sim, row).account.reports;
    AtTargetMeans(run, sim.account, intent, row);
    var r := OrderMovesTo(run, sim.account, intent, row);
    DatedList(sim.decisions, sim.sequence, row.date);
    forall s
      ensures FillsFor(reports, s) == FillsFor(sim.account.reports, s) + if r.fill.decision == s then [r] else []
    {
      FillsForGrows(sim.account.reports, r, s);
    }
    var after := WithExecutionDate(sim.decisions, sim.sequence, row.date);
    assert ResolvedFrom(run, rows, was, n - 1, FillsFor(reports, d.sequence), UnfilledFor(sim.unfilled, d.sequence),
                        after[sim.sequence - 1]);
    ResolveLast(run, rows, was, sim.account.reports, sim.unfilled, sim.decisions, reports, sim.unfilled, after);
  }

  lemma NotAffordableOutcomes<S>(run: Setup, rows: seq<Row>, was: Accounts, n: nat, sim: Sim<S>)
    requires GoodSetup(run) && n < |rows| && rows[n].bar.open > 0.0 && was(n) == sim.account
    requires Sound(run, sim) && Outcomes(run, rows, was, n, sim)
    requires Place(run, sim.account, sim.pending, rows[n]).NotAffordable?
    ensures
      var after := AtOpen(run, sim, rows[n]);
      && Listed(after.decisions, sim.sequence)
      && AllResolved(run, rows, was, sim.account.reports, after.unfilled, after.decisions, sim.sequence)
      && UnfilledInOrder(after.unfilled, sim.sequence)
  {
    var row, intent := rows[n], sim.pending.value;
    var d := sim.decisions[sim.sequence - 1];
    AtTargetMeans(run, sim.account, intent, row);
    var u := Unfilled(intent.sequence, intent.signalDate, row.date);
    var unfilled := sim.unfilled + [u];
    DatedList(sim.decisions, sim.sequence, row.date);
    forall s
      ensures UnfilledFor(unfilled, s) == UnfilledFor(sim.unfilled, s) + if u.sequence == s then [u] else []
    {
      UnfilledForGrows(sim.unfilled, u, s);
    }
    var after := WithExecutionDate(sim.decisions, sim.sequence, row.date);
    assert ResolvedFrom(run, rows, was, n - 1, FillsFor(sim.account.reports, d.sequence),
                        UnfilledFor(unfilled, d.sequence),
                        after[sim.sequence - 1]);
    ResolveLast(run, rows, was, sim.account.reports, sim.unfilled, sim.decisions, sim.account.reports, unfilled, after);
  }

  lemma AtTargetOutcomes<S>(run: Setup, rows: seq<Row>, was: Accounts, n: nat, sim: Sim<S>)
    requires GoodSetup(run) && n < |rows| && rows[n].bar.open > 0.0 && was(n) == sim.account
    requires Sound(run, sim) && Outcomes(run, rows, was, n, sim)
    requires Place(run, sim.account, sim.pending, rows[n]).AtTarget?
    ensures AllResolved(run, rows, was, sim.account.reports, sim.unfilled, sim.decisions, sim.sequence)
  {
    var d := sim.decisions[sim.sequence - 1];
    AtTargetMeans(run, sim.account, sim.pending.value, rows[n]);
    assert ResolvedFrom(run, rows, was, n - 1, FillsFor(sim.account.reports, d.sequence),
                        UnfilledFor(sim.unfilled, d.sequence), d);
    ResolveLast(run, rows, was, sim.account.reports, sim.unfilled, sim.decisions,
                sim.account.reports, sim.unfilled, sim.decisions);
  }

  lemma OpenOutcomes<S>(run: Setup, rows: seq<Row>, was: Accounts, n: nat, sim: Sim<S>)
    requires GoodSetup(run) && n < |rows| && rows[n].bar.open > 0.0 && was(n) == sim.account
    requires Sound(run, sim) && Outcomes(run, rows, was, n, sim)
    ensures Outcomes(run, rows, was, n + 1, AtOpen(run, sim, rows[n]))
  {
    assert sim.unfilled + [] == sim.unfilled;
    match Place(run, sim.account, sim.pending, rows[n])
    case Ordered(_, _) => OrderedOutcomes(run, rows, was, n, sim);
    case NotAffordable(_) => NotAffordableOutcomes(run, rows, was, n, sim);
    case NoIntent =>
    case AtTarget(_) => AtTargetOutcomes(run, rows, was, n, sim);
  }

  /** A decision that was not ready is resolved at once; another one is pending. */
  lemma DecidedOutcomes<S>(run: Setup, rows: seq<Row>, was: Accounts, n: nat, sim: Sim<S>,
      after: Sim<S>, d: Decision)
    requires n < |rows| && Sound(run, sim) && sim.pending == None && Outcomes(run, rows, was, n + 1, sim)
    requires after.account == sim.account && after.unfilled == sim.unfilled && after.sequence == sim.sequence + 1
    requires after.decisions == sim.decisions + [d] && d.sequence == after.sequence
    requires d.signalDate == rows[n].date && d.executionDate == None
    requires d.outcome.NotReady? ==> after.pending == None
    requires d.outcome.Completed? ==>
      after.pending == Some(Intent(d.sequence, d.signalDate, d.outcome.target))
    ensures Outcomes(run, rows, was, n + 1, after)
  {
    forall k | 0 <= k < |sim.account.reports| ensures sim.account.reports[k].fill.decision != d.sequence {
      assert OrderLaws.Reports(sim.account.reports[k], sim.account.orders[k]);
    }
    NoFillsFor(sim.account.reports, d.sequence);
    NoUnfilledFor(sim.unfilled, d.sequence);
    if d.outcome.NotReady? {
      assert ResolvedFrom(run, rows, was, n, FillsFor(sim.account.reports, d.sequence),
                          UnfilledFor(sim.unfilled, d.sequence), d);
    }
    forall i | 0 <= i < |after.decisions| && i < DoneUpTo(after)
      ensures Resolved(run, rows, was, sim.account.reports, sim.unfilled, after.decisions[i])
    {
      if i < |sim.decisions| {
        assert Resolved(run, rows, was, sim.account.reports, sim.unfilled, sim.decisions[i]);
      }
    }
  }

  lemma CloseOutcomes<S>(run: Setup, ex: Executor<S>, rows: seq<Row>, was: Accounts, n: nat, sim: Sim<S>,
      closes: seq<real>)
    requires n < |rows| && Sound(run, sim) && sim.pending == None && Outcomes(run, rows, was, n + 1, sim)
    ensures
      var result := Decide(run, ex, sim, rows[n], closes);
      result.Next? ==> Outcomes(run, rows, was, n + 1, result.sim)
  {
    var result := Decide(run, ex, sim, rows[n], closes);
    if result.Next? {
      DecidedOutcomes(run, rows, was, n, sim, result.sim, result.sim.decisions[|sim.decisions|]);
    }
  }

  /** Taking the snapshot changes nothing that matters here. */
  lemma SnapOutcomes<S>(run: Setup, rows: seq<Row>, was: Accounts, n: nat, sim: Sim<S>, row: Row)
    requires Outcomes(run, rows, was, n, sim)
    ensures Outcomes(run, rows, was, n, Snap(run, sim, row))
  {
  }

  lemma BarOutcomes<S>(run: Setup, ex: Executor<S>, rows: seq<Row>, was: Accounts, n: nat, sim: Sim<S>,
      closes: seq<real>, isDue: bool)
    requires GoodSetup(run) && n < |rows| && rows[n].bar.open > 0.0 && was(n) == sim.account
    requires Sound(run, sim) && Outcomes(run, rows, was, n, sim)
    ensures
      var result := PlayBar(run, ex, sim, rows[n], closes, isDue);
      result.Next? ==> Outcomes(run, rows, was, n + 1, result.sim)
  {
    var filled := AtOpen(run, sim, rows[n]);
    OpenOutcomes(run, rows, was, n, sim);
    AtOpenKeepsSound(run, sim, rows[n]);
    if !isDue {
      SnapOutcomes(run, rows, was, n + 1, filled, rows[n]);
    } else if Decide(run, ex, filled, rows[n], closes).Next? {
      CloseOutcomes(run, ex, rows, was, n, filled, closes);
      SnapOutcomes(run, rows, was, n + 1, Decide(run, ex, filled, rows[n], closes).sim, rows[n]);
    }
  }

  // ---- every run ---------------------------------------------------------------------------

  /** The account of the run right before each session's open. */
  ghost function AccountsBefore<S>(run: Setup, ex: Executor<S>, rows: seq<Row>, history: seq<Row>,
      due: set<int>): Accounts {
    (j: int) =>
      if 0 <= j <= |rows| && Play(run, ex, rows, history, due, j).Next?
      then Play(run, ex, rows, history, due, j).sim.account
      else FreshAccount(run.cfg)
  }

  ghost predicate Follows<S>(run: Setup, ex: Executor<S>, rows: seq<Row>, history: seq<Row>, due: set<int>,
      was: Accounts, j: nat)
    requires j <= |rows|
  {
    Play(run, ex, rows, history, due, j).Next? ==> was(j) == Play(run, ex, rows, history, due, j).sim.account
  }

  lemma {:induction false} OutcomesAfter<S>(run: Setup, ex: Executor<S>, rows: seq<Row>, history: seq<Row>,
      due: set<int>, was: Accounts, n: nat)
    requires GoodSetup(run) && ValidFrame(rows) && n <= |rows|
    requires forall j: nat :: j <= |rows| ==> Follows(run, ex, rows, history, due, was, j)
    ensures Play(run, ex, rows, history, due, n).Next? ==>
      Outcomes(run, rows, was, n, Play(run, ex, rows, history, due, n).sim)
  {
    if n > 0 {
      OutcomesAfter(run, ex, rows, history, due, was, n - 1);
      OneMoreBar(run, ex, rows, history, due, was, n - 1);
    }
  }

  lemma OneMoreBar<S>(run: Setup, ex: Executor<S>, rows: seq<Row>, history: seq<Row>, due: set<int>,
      was: Accounts, n: nat)
    requires GoodSetup(run) && ValidFrame(rows) && n < |rows| && Follows(run, ex, rows, history, due, was, n)
    requires Play(run, ex, rows, history, due, n).Next? ==>
      Outcomes(run, rows, was, n, Play(run, ex, rows, history, due, n).sim)
    ensures Play(run, ex, rows, history, due, n + 1).Next? ==>
      Outcomes(run, rows, was, n + 1, Play(run, ex, rows, history, due, n + 1).sim)
  {
    var before := Play(run, ex, rows, history, due, n);
    if before.Next? {
      var row := rows[n];
      assert ValidBar(row.bar);
      EveryBarIsSound(run, ex, rows, history, due, n);
      BarOutcomes(run, ex, rows, was, n, before.sim, ClosesUpTo(history, row.date), row.date in due);
    }
  }

  /** In every run, after every bar, each decision but the pending one has been resolved
      against the account as it was right before the next session's open: one fill at that
      open for exactly the shares missing to the target, or one unfilled record for that
      session, or, on target within the tolerance, no trace. */
  lemma EveryDecisionResolves<S>(run: Setup, ex: Executor<S>, rows: seq<Row>, history: seq<Row>,
      due: set<int>, n: nat)
    requires GoodSetup(run) && ValidFrame(rows) && n <= |rows|
    ensures Play(run, ex, rows, history, due, n).Next? ==>
      Outcomes(run, rows, AccountsBefore(run, ex, rows, history, due), n, Play(run, ex, rows, history, due, n).sim)
  {
    OutcomesAfter(run, ex, rows, history, due, AccountsBefore(run, ex, rows, history, due), n);
  }

  /** And so each decision of a finished run has been. */
  lemma FinishedRunsResolve<S>(run: Setup, ex: Executor<S>, rows: seq<Row>, history: seq<Row>,
      cal: Calendar, frequency: Frequency)
    requires GoodSetup(run) && Simulate(run, ex, rows, history, cal, frequency).Next?
    ensures DecisionDates(Dates(rows), cal, frequency).Some?
    ensures
      var sim := Simulate(run, ex, rows, history, cal, frequency).sim;
      var was := AccountsBefore(run, ex, rows, history, DecisionDates(Dates(rows), cal, frequency).value);
      && |sim.decisions| == sim.progress.decisionsTotal
      && forall i :: 0 <= i < |sim.decisions| ==>
           Resolved(run, rows, was, sim.account.reports, sim.unfilled, sim.decisions[i])
  {
    var due := DecisionDates(Dates(rows), cal, frequency).value;
    SimulationRuns.FinishedRuns(run, ex, rows, history, cal, frequency);
    EveryDecisionResolves(run, ex, rows, history, due, |rows|);
  }
}
