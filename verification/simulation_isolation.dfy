/** Generated ids never matter: runs of the same inputs under different session and order
    ids are alike in everything but those ids. */
module SimulationIsolation {
  import opened BrokerModels
  import opened Engine
  import opened Ledger
  import opened TradeLedgers
  import opened Schedule
  import opened Simulation
  import opened SimulationFills
  import opened Reconciliation
  import SimulationRuns
  import LedgerLaws
  import OrderLaws

  /** Everything the caller passes is the same; the generated ids may differ. */
  predicate SameInputs(run: Setup, other: Setup) {
    && run.cfg == other.cfg && run.ticker == other.ticker && run.account == other.account
    && run.owner.strategy == other.owner.strategy
  }

  function AnonymousOwner(owner: Owner): Owner {
    owner.(session := 0)
  }

  function AnonymousOrder(o: Order): Order {
    o.(id := 0, owner := AnonymousOwner(o.owner))
  }

  function AnonymousReport(r: FillReport): FillReport {
    r.(fill := r.fill.(orderId := 0, owner := AnonymousOwner(r.fill.owner)))
  }

  function AnonymousSnapshot(s: Snapshot): Snapshot {
    s.(owner := AnonymousOwner(s.owner))
  }

  ghost predicate AlikeAccounts(a: Account, b: Account) {
    && a.cash == b.cash && a.book == b.book
    && |a.orders| == |b.orders| && |a.reports| == |b.reports|
    && (forall k :: 0 <= k < |a.orders| ==> AnonymousOrder(a.orders[k]) == AnonymousOrder(b.orders[k]))
    && (forall k :: 0 <= k < |a.reports| ==> AnonymousReport(a.reports[k]) == AnonymousReport(b.reports[k]))
  }

  /** Equal but for ids: the same decisions, intents, progress and executor state, and
      alike orders, fills and snapshots. */
  ghost predicate Alike<S>(s: Sim<S>, t: Sim<S>) {
    && AlikeAccounts(s.account, t.account)
    && s.executor == t.executor && s.pending == t.pending && s.sequence == t.sequence
    && s.decisions == t.decisions && s.unfilled == t.unfilled && s.moves == t.moves && s.progress == t.progress
    && |s.snapshots| == |t.snapshots|
    && (forall k :: 0 <= k < |s.snapshots| ==> AnonymousSnapshot(s.snapshots[k]) == AnonymousSnapshot(t.snapshots[k]))
  }

  ghost predicate AlikeSteps<S>(s: Step<S>, t: Step<S>) {
    match s
    case Abort(e) => t == Abort(e)
    case Next(sim) => t.Next? && Alike(sim, t.sim)
  }

  lemma FillAlike(run: Setup, other: Setup, a: Account, b: Account, o: Order, p: Order, open: real, time: int)
    requires SameInputs(run, other) && AlikeAccounts(a, b) && AnonymousOrder(o) == AnonymousOrder(p)
    ensures AlikeAccounts(FillAtOpen(run, a, o, open, time), FillAtOpen(other, b, p, open, time))
  {
    var x, y := FillAtOpen(run, a, o, open, time), FillAtOpen(other, b, p, open, time);
    SameNumbers(run, other, a, b, o, p, open, time);
    forall k | 0 <= k < |x.orders| ensures AnonymousOrder(x.orders[k]) == AnonymousOrder(y.orders[k]) {
      if k < |a.orders| {
        assert x.orders[k] == a.orders[k] && y.orders[k] == b.orders[k];
      }
    }
    forall k | 0 <= k < |x.reports| ensures AnonymousReport(x.reports[k]) == AnonymousReport(y.reports[k]) {
      if k < |a.reports| {
        assert x.reports[k] == a.reports[k] && y.reports[k] == b.reports[k];
      }
    }
  }

  /** The numbers of a fill do not depend on the ids of its order. */
  lemma SameNumbers(run: Setup, other: Setup, a: Account, b: Account, o: Order, p: Order,
      open: real, time: int)
    requires SameInputs(run, other) && AlikeAccounts(a, b) && AnonymousOrder(o) == AnonymousOrder(p)
    ensures
      var x, y := FillAtOpen(run, a, o, open, time), FillAtOpen(other, b, p, open, time);
      && x.cash == y.cash && x.book == y.book
      && |x.orders| == |a.orders| + 1 && x.orders == a.orders + [o.(status := Filled)] && y.orders
           == b.orders + [p.(status := Filled)]
      && |x.reports| == |a.reports| + 1 == |y.reports|
      && AnonymousReport(x.reports[|a.reports|]) == AnonymousReport(y.reports[|a.reports|])
  {
    assert o.side == p.side && o.qty == p.qty && o.ticker == p.ticker && o.account == p.account && o.decision
         == p.decision;
  }

  lemma PlaceAlike(run: Setup, other: Setup, a: Account, b: Account, pending: Option<Intent>, row: Row)
    requires SameInputs(run, other) && AlikeAccounts(a, b)
    ensures
      var p, q := Place(run, a, pending, row), Place(other, b, pending, row);
      && (p.Ordered? <==> q.Ordered?)
      && (p.Ordered? ==> p.sequence == q.sequence && AnonymousOrder(p.order) == AnonymousOrder(q.order))
      && (!p.Ordered? ==> p == q)
  {
  }

  lemma OpenAlike<S>(run: Setup, other: Setup, s: Sim<S>, t: Sim<S>, row: Row)
    requires SameInputs(run, other) && Alike(s, t)
    ensures Alike(AtOpen(run, s, row), AtOpen(other, t, row))
  {
    PlaceAlike(run, other, s.account, t.account, s.pending, row);
    var p, q := Place(run, s.account, s.pending, row), Place(other, t.account, t.pending, row);
    if p.Ordered? {
      FillAlike(run, other, s.account, t.account, p.order, q.order, row.bar.open, row.date);
    }
  }

  lemma SnapAlike<S>(run: Setup, other: Setup, s: Sim<S>, t: Sim<S>, row: Row)
    requires SameInputs(run, other) && Alike(s, t)
    ensures Alike(Snap(run, s, row), Snap(other, t, row))
  {
  }

  lemma DecideAlike<S>(run: Setup, other: Setup, ex: Executor<S>, s: Sim<S>, t: Sim<S>, row: Row,
      closes: seq<real>)
    requires SameInputs(run, other) && Alike(s, t)
    ensures AlikeSteps(Decide(run, ex, s, row, closes), Decide(other, ex, t, row, closes))
  {
  }

  lemma {:induction false} EveryBarAlike<S>(run: Setup, other: Setup, ex: Executor<S>,
      rows: seq<Row>, history: seq<Row>, due: set<int>, n: nat)
    requires SameInputs(run, other) && n <= |rows|
    ensures AlikeSteps(Play(run, ex, rows, history, due, n), Play(other, ex, rows, history, due, n))
  {
    if n > 0 {
      EveryBarAlike(run, other, ex, rows, history, due, n - 1);
      var s, t := Play(run, ex, rows, history, due, n - 1), Play(other, ex, rows, history, due, n - 1);
      if s.Next? {
        BarAlike(run, other, ex, s.sim, t.sim, rows[n - 1], ClosesUpTo(history, rows[n - 1].date),
                 rows[n - 1].date in due);
      }
    }
  }

  lemma BarAlike<S>(run: Setup, other: Setup, ex: Executor<S>, s: Sim<S>, t: Sim<S>, row: Row,
      closes: seq<real>, isDue: bool)
    requires SameInputs(run, other) && Alike(s, t)
    ensures AlikeSteps(PlayBar(run, ex, s, row, closes, isDue), PlayBar(other, ex, t, row, closes, isDue))
  {
    OpenAlike(run, other, s, t, row);
    var x, y := AtOpen(run, s, row), AtOpen(other, t, row);
    if !isDue {
      SnapAlike(run, other, x, y, row);
    } else {
      DecideAlike(run, other, ex, x, y, row, closes);
      if Decide(run, ex, x, row, closes).Next? {
        SnapAlike(run, other, Decide(run, ex, x, row, closes).sim, Decide(other, ex, y, row, closes).sim, row);
      }
    }
  }

  /** Running the same inputs again, under new ids, ends the same way: the same error, or
      alike accounts, decisions and snapshots. */
  lemma SameInputsRunAlike<S>(run: Setup, other: Setup, ex: Executor<S>, rows: seq<Row>,
      history: seq<Row>, cal: Calendar, frequency: Frequency)
    requires SameInputs(run, other)
    ensures AlikeSteps(Simulate(run, ex, rows, history, cal, frequency),
                       Simulate(other, ex, rows, history, cal, frequency))
  {
    if ValidFrame(rows) && |rows| > 0 && DecisionDates(Dates(rows), cal, frequency).Some? {
      EveryBarAlike(run, other, ex, rows, history, DecisionDates(Dates(rows), cal, frequency).value, |rows|);
    }
  }

  // ---- what the ledger reports -----------------------------------------------------------

  function AnonymousKey(key: Key): Key {
    key.(session := 0)
  }

  function AnonymousRecord(r: Record): Record {
    r.(fill := r.fill.(orderId := 0, owner := AnonymousOwner(r.fill.owner)))
  }

  function AnonymousTrade(c: ClosedTrade): ClosedTrade {
    c.(key := AnonymousKey(c.key))
  }

  /** `anon` are reports of one session without their ids. */
  ghost predicate StripsReports(rs: seq<FillReport>, anon: seq<FillReport>, session: Name) {
    && |anon| == |rs|
    && forall k :: 0 <= k < |rs| ==> rs[k].fill.owner.session == session && anon[k] == AnonymousReport(rs[k])
  }

  ghost predicate StripsLog(log: seq<Record>, anon: seq<Record>, session: Name) {
    && |anon| == |log|
    && forall k :: 0 <= k < |log| ==> log[k].fill.owner.session == session && anon[k] == AnonymousRecord(log[k])
  }

  lemma {:induction false} LatestStripped(log: seq<Record>, anon: seq<Record>, key: Key)
    requires StripsLog(log, anon, key.session)
    ensures LatestPosition(anon, AnonymousKey(key)) == LatestPosition(log, key)
    decreases |log|
  {
    if |log| > 0 {
      assert anon[|log| - 1] == AnonymousRecord(log[|log| - 1]);
      LatestStripped(log[..|log| - 1], anon[..|log| - 1], key);
    }
  }

  lemma {:induction false} LogStripped(rs: seq<FillReport>, anon: seq<FillReport>, session: Name)
    requires StripsReports(rs, anon, session)
    ensures StripsLog(RecordFills([], rs), RecordFills([], anon), session)
    decreases |rs|
  {
    if |rs| > 0 {
      var front, r := rs[..|rs| - 1], rs[|rs| - 1];
      LogStripped(front, anon[..|rs| - 1], session);
      assert anon[|rs| - 1] == AnonymousReport(r);
      LatestStripped(RecordFills([], front), RecordFills([], anon[..|rs| - 1]), FillKey(r.fill, r.ticker));
    }
  }

  /** A reconstruction of one session and the same one without ids. */
  ghost predicate StripsRecon(s: Recon, t: Recon, session: Name) {
    && StripsKeys(s, t, session)
    && |t.executions| == |s.executions| && |t.closed| == |s.closed|
    && (forall k :: 0 <= k < |s.executions| ==> t.executions[k] == AnonymousRecord(s.executions[k]))
    && (forall k :: 0 <= k < |s.closed| ==> t.closed[k] == AnonymousTrade(s.closed[k]))
  }

  ghost predicate StripsKeys(s: Recon, t: Recon, session: Name) {
    forall key: Key :: key.session == session ==>
      && LedgerLaws.Lookup(t.prev, AnonymousKey(key)) == LedgerLaws.Lookup(s.prev, key)
      && LedgerLaws.Lookup(t.open, AnonymousKey(key)) == LedgerLaws.Lookup(s.open, key)
  }

  lemma KeyStripped(s: Recon, t: Recon, r: Record, session: Name)
    requires StripsKeys(s, t, session) && r.fill.owner.session == session
    ensures KeyOf(AnonymousRecord(r)) == AnonymousKey(KeyOf(r))
    ensures LedgerLaws.Lookup(t.prev, KeyOf(AnonymousRecord(r))) == LedgerLaws.Lookup(s.prev, KeyOf(r))
    ensures LedgerLaws.Lookup(t.open, KeyOf(AnonymousRecord(r))) == LedgerLaws.Lookup(s.open, KeyOf(r))
  {
    assert KeyOf(r).session == session;
  }

  lemma PurchaseStripped(s: Recon, t: Recon, r: Record, q: real, session: Name)
    requires Sane(s) && Sane(t) && StripsRecon(s, t, session) && r.fill.owner.session == session && q > 0.0
    ensures StripsRecon(StepBuy(s, r, q), StepBuy(t, AnonymousRecord(r), q), session)
  {
    KeyStripped(s, t, r, session);
  }

  lemma NothingStripped(s: Recon, t: Recon, x: Record, session: Name)
    requires StripsRecon(s, t, session)
    ensures StripsRecon(s.(executions := s.executions + [x]),
                        t.(executions := t.executions + [AnonymousRecord(x)]), session)
  {
  }

  lemma ClosingStripped(s: Recon, t: Recon, key: Key, x: Record, c: ClosedTrade, session: Name)
    requires StripsRecon(s, t, session) && key.session == session
    ensures StripsRecon(
      s.(open := s.open - {key}, executions := s.executions + [x], closed := s.closed + [c]),
      t.(open := t.open - {AnonymousKey(key)}, executions := t.executions + [AnonymousRecord(x)],
         closed := t.closed + [AnonymousTrade(c)]), session)
  {
  }

  lemma ReducingStripped(s: Recon, t: Recon, key: Key, x: Record, ep: Episode, session: Name)
    requires StripsRecon(s, t, session) && key.session == session
    ensures StripsRecon(
      s.(open := s.open[key := ep], executions := s.executions + [x]),
      t.(open := t.open[AnonymousKey(key) := ep], executions := t.executions + [AnonymousRecord(x)]), session)
  {
  }

  /** A sale in terms of the episode it leaves. */
  lemma SaleIs(s: Recon, r: Record, sold: real, ep: Episode, x: Record)
    requires Sane(s) && sold > 0.0 && KeyOf(r) in s.open && ep == Exit(s.open[KeyOf(r)], r, sold)
    requires x == SoldRecord(r, s.open[KeyOf(r)], sold)
    ensures StepSell(s, r, sold) ==
      if ep.remainingQty <= DUST
      then s.(open := s.open - {KeyOf(r)}, executions := s.executions + [x],
              closed := s.closed + [CloseTrade(KeyOf(r), ep, r)])
      else s.(open := s.open[KeyOf(r) := ep], executions := s.executions + [x])
  {
  }

  function SoldRecord(r: Record, before: Episode, sold: real): Record
    requires SaneEpisode(before) && sold > 0.0
  {
    var ep := Exit(before, r, sold);
    var x := r.(realizedPnl := ExitPnl(before, r, sold), side := Sell);
    if ep.remainingQty > 0.0 then x.(avgCostAfter := Ratio(ep.remainingCost, ep.remainingQty)) else x
  }

  lemma OpenSaleStripped(s: Recon, t: Recon, r: Record, sold: real, session: Name)
    requires Sane(s) && Sane(t) && StripsRecon(s, t, session) && r.fill.owner.session == session && sold > 0.0
    requires KeyOf(r) in s.open
    ensures StripsRecon(StepSell(s, r, sold), StepSell(t, AnonymousRecord(r), sold), session)
  {
    KeyStripped(s, t, r, session);
    var key, before := KeyOf(r), s.open[KeyOf(r)];
    var ep, x := Exit(before, r, sold), SoldRecord(r, before, sold);
    assert Exit(before, AnonymousRecord(r), sold) == ep;
    assert SoldRecord(AnonymousRecord(r), before, sold) == AnonymousRecord(x);
    SaleIs(s, r, sold, ep, x);
    SaleIs(t, AnonymousRecord(r), sold, ep, AnonymousRecord(x));
    if ep.remainingQty <= DUST {
      ClosingStripped(s, t, key, x, CloseTrade(key, ep, r), session);
    } else {
      ReducingStripped(s, t, key, x, ep, session);
    }
  }

  lemma SaleStripped(s: Recon, t: Recon, r: Record, sold: real, session: Name)
    requires Sane(s) && Sane(t) && StripsRecon(s, t, session) && r.fill.owner.session == session && sold > 0.0
    ensures StripsRecon(StepSell(s, r, sold), StepSell(t, AnonymousRecord(r), sold), session)
  {
    KeyStripped(s, t, r, session);
    if KeyOf(r) in s.open {
      OpenSaleStripped(s, t, r, sold, session);
    } else {
      NothingStripped(s, t, r.(realizedPnl := 0.0, side := Sell), session);
    }
  }

  lemma PrevStripped(s: Recon, t: Recon, u: Recon, v: Recon, key: Key, shares: real, session: Name)
    requires StripsRecon(s, t, session) && StripsRecon(u, v, session) && key.session == session
    ensures StripsRecon(u.(prev := s.prev[key := shares]), v.(prev := t.prev[AnonymousKey(key) := shares]), session)
  {
  }

  lemma BuyStepStripped(s: Recon, t: Recon, r: Record, q: real, session: Name)
    requires Sane(s) && Sane(t) && StripsRecon(s, t, session) && r.fill.owner.session == session && q > 0.0
    requires q == r.sharesAfter - PrevShares(s, KeyOf(r)) == r.sharesAfter - PrevShares(t, KeyOf(AnonymousRecord(r)))
    ensures StripsRecon(ReconStep({}, s, r), ReconStep({}, t, AnonymousRecord(r)), session)
  {
    var x := AnonymousRecord(r);
    LedgerLaws.StepIsBuy({}, s, r, q);
    LedgerLaws.StepIsBuy({}, t, x, q);
    PurchaseStripped(s, t, r, q, session);
    PrevStripped(s, t, StepBuy(s, r, q), StepBuy(t, x, q), KeyOf(r), r.sharesAfter, session);
  }

  lemma SellStepStripped(s: Recon, t: Recon, r: Record, sold: real, session: Name)
    requires Sane(s) && Sane(t) && StripsRecon(s, t, session) && r.fill.owner.session == session && sold > 0.0
    requires sold == PrevShares(s, KeyOf(r)) - r.sharesAfter == PrevShares(t, KeyOf(AnonymousRecord(r))) - r.sharesAfter
    ensures StripsRecon(ReconStep({}, s, r), ReconStep({}, t, AnonymousRecord(r)), session)
  {
    var x := AnonymousRecord(r);
    LedgerLaws.StepIsSell({}, s, r, sold);
    LedgerLaws.StepIsSell({}, t, x, sold);
    SaleStripped(s, t, r, sold, session);
    PrevStripped(s, t, StepSell(s, r, sold), StepSell(t, x, sold), KeyOf(r), r.sharesAfter, session);
  }

  lemma IdleStripped(s: Recon, t: Recon, r: Record, session: Name)
    requires Sane(s) && Sane(t) && StripsRecon(s, t, session) && r.fill.owner.session == session
    requires r.sharesAfter == PrevShares(s, KeyOf(r)) == PrevShares(t, KeyOf(AnonymousRecord(r)))
    ensures StripsRecon(ReconStep({}, s, r), ReconStep({}, t, AnonymousRecord(r)), session)
  {
    var x := r.(realizedPnl := 0.0);
    NothingStripped(s, t, x, session);
    PrevStripped(s, t, s.(executions := s.executions + [x]), t.(executions := t.executions + [AnonymousRecord(x)]),
                 KeyOf(r), r.sharesAfter, session);
  }

  lemma StepStripped(s: Recon, t: Recon, r: Record, session: Name)
    requires Sane(s) && Sane(t) && StripsRecon(s, t, session) && r.fill.owner.session == session
    ensures StripsRecon(ReconStep({}, s, r), ReconStep({}, t, AnonymousRecord(r)), session)
  {
    KeyStripped(s, t, r, session);
    var signed := r.sharesAfter - PrevShares(s, KeyOf(r));
    assert PrevShares(t, KeyOf(AnonymousRecord(r))) == PrevShares(s, KeyOf(r));
    if signed > 0.0 {
      BuyStepStripped(s, t, r, signed, session);
    } else if signed < 0.0 {
      SellStepStripped(s, t, r, -signed, session);
    } else {
      IdleStripped(s, t, r, session);
    }
  }

  lemma {:induction false} ReconStripped(log: seq<Record>, anon: seq<Record>, session: Name)
    requires StripsLog(log, anon, session)
    ensures StripsRecon(ReconAll({}, log), ReconAll({}, anon), session)
    decreases |log|
  {
    if |log| > 0 {
      var front := log[..|log| - 1];
      ReconStripped(front, anon[..|log| - 1], session);
      assert anon[|log| - 1] == AnonymousRecord(log[|log| - 1]);
      StepStripped(ReconAll({}, front), ReconAll({}, anon[..|log| - 1]), log[|log| - 1], session);
    }
  }

  /** Two reconstructions tell the same executions and closed trades, but for ids. */
  ghost predicate AlikeRecons(s: Recon, t: Recon) {
    && |s.executions| == |t.executions| && |s.closed| == |t.closed|
    && (forall k :: 0 <= k < |s.executions| ==> AnonymousRecord(s.executions[k]) == AnonymousRecord(t.executions[k]))
    && (forall k :: 0 <= k < |s.closed| ==> AnonymousTrade(s.closed[k]) == AnonymousTrade(t.closed[k]))
  }

  /** Alike accounts, each of one session, have alike reconstructions. */
  lemma AccountsReconstructAlike(a: Account, b: Account, session: Name, other: Name)
    requires AlikeAccounts(a, b)
    requires forall k :: 0 <= k < |a.reports| ==> a.reports[k].fill.owner.session == session
    requires forall k :: 0 <= k < |b.reports| ==> b.reports[k].fill.owner.session == other
    ensures AlikeRecons(AccountRecon(a), AccountRecon(b))
  {
    var anon := seq(|a.reports|, k requires 0 <= k < |a.reports| => AnonymousReport(a.reports[k]));
    assert StripsReports(b.reports, anon, other) by {
      forall k | 0 <= k < |b.reports| ensures anon[k] == AnonymousReport(b.reports[k]) {
        assert AnonymousReport(a.reports[k]) == AnonymousReport(b.reports[k]);
      }
    }
    StripsAlike(a.reports, anon, session);
    StripsAlike(b.reports, anon, other);
  }

  lemma StripsAlike(rs: seq<FillReport>, anon: seq<FillReport>, session: Name)
    requires StripsReports(rs, anon, session)
    ensures StripsRecon(ReconAll({}, RecordFills([], rs)), ReconAll({}, RecordFills([], anon)), session)
  {
    LogStripped(rs, anon, session);
    ReconStripped(RecordFills([], rs), RecordFills([], anon), session);
  }

  /** The ledger's totals do not see ids. */
  lemma {:induction false} TotalsAlike(xs: seq<Record>, ys: seq<Record>)
    requires |xs| == |ys| && forall k :: 0 <= k < |xs| ==> AnonymousRecord(xs[k]) == AnonymousRecord(ys[k])
    ensures RealizedTotal(xs) == RealizedTotal(ys)
    ensures LedgerLaws.FeeTotal(xs) == LedgerLaws.FeeTotal(ys)
    ensures LedgerLaws.SlippageTotal(xs) == LedgerLaws.SlippageTotal(ys)
    decreases |xs|
  {
    if |xs| > 0 {
      TotalsAlike(xs[..|xs| - 1], ys[..|ys| - 1]);
      assert AnonymousRecord(xs[|xs| - 1]) == AnonymousRecord(ys[|xs| - 1]);
    }
  }

  /** And the ledger tells the same: the same executions and closed trades but for ids, so
      the same realized P&L, fees and slippage. */
  lemma SameInputsSameLedger<S>(run: Setup, other: Setup, ex: Executor<S>, rows: seq<Row>,
      history: seq<Row>, cal: Calendar, frequency: Frequency, s: Sim<S>, t: Sim<S>)
    requires SameInputs(run, other) && GoodSetup(run) && GoodSetup(other)
    requires Simulate(run, ex, rows, history, cal, frequency) == Next(s)
    requires Simulate(other, ex, rows, history, cal, frequency) == Next(t)
    ensures AlikeRecons(AccountRecon(s.account), AccountRecon(t.account))
    ensures RealizedTotal(AccountRecon(s.account).executions) == RealizedTotal(AccountRecon(t.account).executions)
    ensures LedgerLaws.FeeTotal(AccountRecon(s.account).executions)
         == LedgerLaws.FeeTotal(AccountRecon(t.account).executions)
    ensures LedgerLaws.SlippageTotal(AccountRecon(s.account).executions)
         == LedgerLaws.SlippageTotal(AccountRecon(t.account).executions)
  {
    SameInputsRunAlike(run, other, ex, rows, history, cal, frequency);
    OwnSession(run, ex, rows, history, cal, frequency, s);
    OwnSession(other, ex, rows, history, cal, frequency, t);
    AccountsReconstructAlike(s.account, t.account, run.owner.session, other.owner.session);
    TotalsAlike(AccountRecon(s.account).executions, AccountRecon(t.account).executions);
  }

  lemma OwnSession<S>(run: Setup, ex: Executor<S>, rows: seq<Row>, history: seq<Row>, cal: Calendar,
      frequency: Frequency, s: Sim<S>)
    requires GoodSetup(run) && Simulate(run, ex, rows, history, cal, frequency) == Next(s)
    ensures forall k :: 0 <= k < |s.account.reports| ==> s.account.reports[k].fill.owner.session == run.owner.session
  {
    SimulationRuns.FinishedRuns(run, ex, rows, history, cal, frequency);
    forall k | 0 <= k < |s.account.reports| ensures s.account.reports[k].fill.owner.session == run.owner.session {
      assert OrderLaws.Reports(s.account.reports[k], s.account.orders[k]);
    }
  }
}
