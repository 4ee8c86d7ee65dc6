/** Reconciliation with shorting: in every run the cash, the average costs and the P&L the
    ledger records fill by fill add up, whatever is bought, sold short or turned around. */
module ShortRuns {
  import opened BrokerModels
  import opened Positions
  import opened Engine
  import opened FillLaws
  import opened AverageCosts
  import opened EngineLaws
  import opened Ledger
  import opened LedgerLaws
  import opened Coupling
  import opened AccountInvariants
  import Reconciliation

  /** The fees of the fills that closed some shares, or of those that closed none. */
  ghost function FeesOf(rs: seq<FillReport>, closing: bool): real {
    if |rs| == 0 then 0.0
    else
      var front, last := rs[..|rs| - 1], rs[|rs| - 1];
      FeesOf(front, closing)
        + if ClosesSome(Lately(front, last.ticker).shares, SignedQty(last)) == closing then last.fill.fee else 0.0
  }

  lemma {:induction false} FeesSplit(rs: seq<FillReport>)
    ensures Fees(rs) == FeesOf(rs, true) + FeesOf(rs, false)
    decreases |rs|
  {
    if |rs| > 0 {
      FeesSplit(rs[..|rs| - 1]);
    }
  }

  /** The last report of a ticker says the shares its fills add up to. */
  lemma {:induction false} LatelyTracks(cfg: Config, rs: seq<FillReport>, ticker: Name)
    requires ReportsTrack(cfg, rs)
    ensures Lately(rs, ticker).shares == SignedShares(rs, ticker)
    decreases |rs|
  {
    if |rs| > 0 {
      TrackFront(cfg, rs);
      LatelyTracks(cfg, rs[..|rs| - 1], ticker);
      assert rs[..|rs|] == rs;
    }
  }

  lemma TrackFront(cfg: Config, rs: seq<FillReport>)
    requires |rs| > 0 && ReportsTrack(cfg, rs)
    ensures ReportsTrack(cfg, rs[..|rs| - 1])
  {
    var front := rs[..|rs| - 1];
    forall k | 0 <= k < |front| ensures front[k].sharesAfter == SignedShares(front[..k + 1], front[k].ticker) {
      assert front[..k + 1] == rs[..k + 1];
    }
  }

  /** What the ledger finds as the latest position is the last one reported. */
  lemma {:induction false} LatestIsLately(rs: seq<FillReport>, owner: Owner, id: Name, ticker: Name)
    requires OwnReports(rs, owner, id)
    ensures
      var found := LatestPosition(RecordFills([], rs), AccountKey(owner, id, ticker));
      if found.Some? then found.value == Lately(rs, ticker) else Lately(rs, ticker) == Holding(0.0, 0.0)
    decreases |rs|
  {
    if |rs| > 0 {
      var front, r := rs[..|rs| - 1], rs[|rs| - 1];
      LatestIsLately(front, owner, id, ticker);
      assert OwnReport(r, owner, id);
      LatestAppend(RecordFills([], front), NewRecord(RecordFills([], front), r), AccountKey(owner, id, ticker));
    }
  }

  /** One record: its gross P&L less its fee if it closes shares, nothing otherwise, and
      the side of its order. */
  lemma RecordIsGross(cfg: Config, rs: seq<FillReport>, r: FillReport, owner: Owner, id: Name)
    requires OwnReports(rs, owner, id) && OwnReport(r, owner, id) && ReportsTrack(cfg, rs)
    requires r.sharesAfter == SignedShares(rs, r.ticker) + SignedQty(r)
    ensures
      var before := Lately(rs, r.ticker);
      NewRecord(RecordFills([], rs), r).realizedPnl
        == GrossPnl(before, SignedQty(r), r.fill.price)
           - if ClosesSome(before.shares, SignedQty(r)) then r.fill.fee else 0.0
    ensures r.fill.qty > 0.0 ==> NewRecord(RecordFills([], rs), r).side == r.side
  {
    var before := Lately(rs, r.ticker);
    LatestIsLately(rs, owner, id, r.ticker);
    LatelyTracks(cfg, rs, r.ticker);
    assert FillKey(r.fill, r.ticker) == AccountKey(owner, id, r.ticker);
    RecordedIsGross(before, SignedQty(r), r.fill);
  }

  /** All records: the gross P&L less the fees of the fills that closed shares. */
  lemma {:induction false} RecordedTotals(cfg: Config, rs: seq<FillReport>, owner: Owner, id: Name)
    requires OwnReports(rs, owner, id) && ReportsTrack(cfg, rs)
    ensures RealizedTotal(RecordFills([], rs)) == GrossPnls(rs) - FeesOf(rs, true)
    decreases |rs|
  {
    if |rs| > 0 {
      var front, r := rs[..|rs| - 1], rs[|rs| - 1];
      TrackFront(cfg, rs);
      assert OwnReports(front, owner, id);
      RecordedTotals(cfg, front, owner, id);
      assert rs[..|rs|] == rs && front + [r] == rs;
      SumsGrow(front, r);
      RecordIsGross(cfg, front, r, owner, id);
      LogTotalsGrow(RecordFills([], front), NewRecord(RecordFills([], front), r));
    }
  }

  ghost function GainOf(latest: Prices): Position -> real {
    (p: Position) => MarkedValue(latest, p) - Cost(p)
  }

  /** In every run, over any bars and orders, with any positions: cash and shares at cost
      are the initial cash, the P&L recorded for the fills, less the fees of the fills that
      only opened or added; and the equity is that and what the marks are over cost. */
  lemma ShortRunsReconcile(cfg: Config, acts: seq<Action>, owner: Owner, id: Name)
    requires SaneRates(cfg) && cfg.initialCash >= 0.0 && WellformedRun(acts)
    requires id in Run(InitialState(cfg), acts).accounts
    requires OwnReports(Run(InitialState(cfg), acts).accounts[id].reports, owner, id)
    ensures
      var e := Run(InitialState(cfg), acts);
      var a := e.accounts[id];
      var books := cfg.initialCash + RealizedTotal(RecordFills([], a.reports)) - FeesOf(a.reports, false);
      && a.cash + Total(a.book, Cost) == books
      && Equity(a, e.latest) == books + Total(a.book, GainOf(e.latest))
  {
    var e := Run(InitialState(cfg), acts);
    var a := e.accounts[id];
    RunsFromStartConserve(cfg, acts, id);
    RecordedTotals(cfg, a.reports, owner, id);
    FeesSplit(a.reports);
    var value := (p: Position) => MarkedValue(e.latest, p);
    MarketValueIsTotal(a.book, e.latest, value);
    Reconciliation.TotalMinus(a.book, value, Cost, GainOf(e.latest));
  }
}
