/** The trade ledger object (broker/ledger.py): append-only logs, and the loops that
    read them back, each proved against the functions of `Ledger`. */
module TradeLedgers {
  import opened BrokerModels
  import opened Pricing
  import opened Ledger
  import LedgerLaws
  import opened Drawdown

  /** `LedgerSnapshotRecord` */
  datatype Snapshot = Snapshot(date: int, cash: real, equity: real, owner: Owner, account: Name)

  /** `LedgerInitialCapitalRecord` */
  datatype Capital = Capital(amount: real, owner: Owner, account: Name)

  datatype Metrics = Metrics(
    totalReturn: real,
    netPnl: real,
    realizedPnl: real,
    unrealizedPnl: real,
    fees: real,
    slippage: real,
    maxDrawdown: Figure,
    maxDrawdownDuration: nat,
    fillCount: nat,
    closedTradeCount: nat)

  const NO_METRICS: Metrics := Metrics(0.0, 0.0, 0.0, 0.0, 0.0, 0.0, Number(0.0), 0, 0, 0)

  function LoadSnapshots(log: seq<Snapshot>, scope: Scope): (r: seq<Snapshot>)
    ensures forall x :: x in r ==> x in log
  {
    if |log| == 0 then []
    else
      var rest := LoadSnapshots(log[..|log| - 1], scope);
      var last := log[|log| - 1];
      if InScope(scope, last.owner, last.account) then rest + [last] else rest
  }

  lemma {:induction false} LoadsSnapshotsExactly(log: seq<Snapshot>, scope: Scope, x: Snapshot)
    ensures multiset(LoadSnapshots(log, scope))[x]
         == if LedgerLaws.Wanted(scope, x.owner, x.account) then multiset(log)[x] else 0
    decreases |log|
  {
    if |log| > 0 {
      LoadsSnapshotsExactly(log[..|log| - 1], scope, x);
      assert log == log[..|log| - 1] + [log[|log| - 1]];
    }
  }

  function InsertByDate(log: seq<Snapshot>, s: Snapshot): seq<Snapshot> {
    if |log| == 0 || log[|log| - 1].date <= s.date then log + [s]
    else InsertByDate(log[..|log| - 1], s) + [log[|log| - 1]]
  }

  /** The portfolio frame, in time order. */
  function SortByDate(log: seq<Snapshot>): seq<Snapshot> {
    if |log| == 0 then [] else InsertByDate(SortByDate(log[..|log| - 1]), log[|log| - 1])
  }

  ghost predicate InDateOrder(log: seq<Snapshot>) {
    forall i, j :: 0 <= i < j < |log| ==> log[i].date <= log[j].date
  }

  lemma {:induction false} InsertMembers(log: seq<Snapshot>, s: Snapshot)
    ensures multiset(InsertByDate(log, s)) == multiset(log) + multiset{s}
    decreases |log|
  {
    if |log| > 0 && log[|log| - 1].date > s.date {
      InsertMembers(log[..|log| - 1], s);
      assert log == log[..|log| - 1] + [log[|log| - 1]];
    }
  }

  lemma InsertBound(log: seq<Snapshot>, s: Snapshot, bound: int)
    requires s.date <= bound && forall i :: 0 <= i < |log| ==> log[i].date <= bound
    ensures forall x :: x in InsertByDate(log, s) ==> x.date <= bound
  {
    InsertMembers(log, s);
    forall x | x in InsertByDate(log, s) ensures x.date <= bound {
      assert x in multiset(InsertByDate(log, s));
    }
  }

  lemma LastInOrder(log: seq<Snapshot>, s: Snapshot)
    requires InDateOrder(log) && forall x :: x in log ==> x.date <= s.date
    ensures InDateOrder(log + [s])
  {
  }

  lemma {:induction false} InsertKeepsOrder(log: seq<Snapshot>, s: Snapshot)
    requires InDateOrder(log)
    ensures InDateOrder(InsertByDate(log, s))
    decreases |log|
  {
    if |log| > 0 && log[|log| - 1].date > s.date {
      var front, last := log[..|log| - 1], log[|log| - 1];
      InsertKeepsOrder(front, s);
      InsertBound(front, s, last.date);
      LastInOrder(InsertByDate(front, s), last);
    }
  }

  /** Sorting puts the snapshots in date order and loses none. */
  lemma {:induction false} SortByDateSorts(log: seq<Snapshot>)
    ensures InDateOrder(SortByDate(log)) && multiset(SortByDate(log)) == multiset(log)
    decreases |log|
  {
    if |log| > 0 {
      SortByDateSorts(log[..|log| - 1]);
      InsertKeepsOrder(SortByDate(log[..|log| - 1]), log[|log| - 1]);
      InsertMembers(SortByDate(log[..|log| - 1]), log[|log| - 1]);
      assert log == log[..|log| - 1] + [log[|log| - 1]];
    }
  }

  lemma SameCount(log: seq<Snapshot>)
    ensures |SortByDate(log)| == |log|
  {
    SortByDateSorts(log);
    assert |multiset(SortByDate(log))| == |multiset(log)|;
  }

  /** Snapshots recorded in date order stay as they are. */
  lemma {:induction false} SortedByDateAlready(log: seq<Snapshot>)
    requires InDateOrder(log)
    ensures SortByDate(log) == log
    decreases |log|
  {
    if |log| > 0 {
      SortedByDateAlready(log[..|log| - 1]);
      assert log == log[..|log| - 1] + [log[|log| - 1]];
    }
  }

  /** `_initial_capital_for`: the latest recorded capital, or the first equity. */
  function StartEquity(log: seq<Capital>, scope: Scope, firstEquity: real): real {
    if |log| == 0 then firstEquity
    else
      var last := log[|log| - 1];
      if InScope(scope, last.owner, last.account) then last.amount
      else StartEquity(log[..|log| - 1], scope, firstEquity)
  }

  /** Capital `i` is the last one recorded in scope. */
  ghost predicate LatestCapital(log: seq<Capital>, scope: Scope, i: int) {
    && 0 <= i < |log| && InScope(scope, log[i].owner, log[i].account)
    && forall j :: i < j < |log| ==> !InScope(scope, log[j].owner, log[j].account)
  }

  lemma {:induction false} StartEquityIs(log: seq<Capital>, scope: Scope, firstEquity: real)
    ensures forall i :: LatestCapital(log, scope, i) ==> StartEquity(log, scope, firstEquity) == log[i].amount
    ensures (forall i :: !LatestCapital(log, scope, i)) ==> StartEquity(log, scope, firstEquity) == firstEquity
    decreases |log|
  {
    if |log| > 0 {
      var front := log[..|log| - 1];
      StartEquityIs(front, scope, firstEquity);
      if InScope(scope, log[|log| - 1].owner, log[|log| - 1].account) {
        assert LatestCapital(log, scope, |log| - 1);
      } else {
        forall i ensures LatestCapital(log, scope, i) <==> LatestCapital(front, scope, i) {
          assert 0 <= i < |front| ==> front[i] == log[i];
        }
      }
    }
  }

  function Equities(log: seq<Snapshot>): (es: seq<real>)
    ensures |es| == |log|
    ensures forall i :: 0 <= i < |log| ==> es[i] == log[i].equity
  {
    seq(|log|, i requires 0 <= i < |log| => log[i].equity)
  }

  /** What the metrics of an equity series and a reconstruction are, from a start. */
  ghost predicate MetricsOf(m: Metrics, start: real, es: seq<real>, s: Recon)
    requires |es| > 0
  {
    && m.netPnl == es[|es| - 1] - start
    && m.realizedPnl == RealizedTotal(s.executions)
    && m.unrealizedPnl == m.netPnl - m.realizedPnl
    && m.fees == LedgerLaws.FeeTotal(s.executions)
    && m.slippage == LedgerLaws.SlippageTotal(s.executions)
    && (start != 0.0 ==> Times(m.totalReturn, start) == m.netPnl)
    && (start == 0.0 ==> m.totalReturn == 0.0)
    && m.maxDrawdown == Deepest(Figures(es))
    && IsLongestStretch(Figures(es), m.maxDrawdownDuration)
    && m.fillCount == |s.executions|
    && m.closedTradeCount == |s.closed|
  }

  /** They are determined by the equities, the totals and the counts. */
  lemma MetricsUnique(m: Metrics, n: Metrics, start: real, es: seq<real>, s: Recon, t: Recon)
    requires |es| > 0 && MetricsOf(m, start, es, s) && MetricsOf(n, start, es, t)
    requires RealizedTotal(s.executions) == RealizedTotal(t.executions)
    requires LedgerLaws.FeeTotal(s.executions) == LedgerLaws.FeeTotal(t.executions)
    requires LedgerLaws.SlippageTotal(s.executions) == LedgerLaws.SlippageTotal(t.executions)
    requires |s.executions| == |t.executions| && |s.closed| == |t.closed|
    ensures m == n
  {
    LongestIsUnique(Figures(es), m.maxDrawdownDuration, n.maxDrawdownDuration);
    if start != 0.0 {
      SameFactor(m.totalReturn, n.totalReturn, start);
    }
  }

  lemma SameFactor(x: real, y: real, z: real)
    requires z != 0.0 && Times(x, z) == Times(y, z)
    ensures x == y
  {
    assert (x - y) * z == x * z - y * z;
  }

  /** Filtering by session first does not change what is found for a key. */
  lemma {:induction false} SessionIsEnough(log: seq<Record>, key: Key)
    ensures LatestPosition(LoadFills(log, Scope(Some(key.session), None, None)), key) == LatestPosition(log, key)
    decreases |log|
  {
    if |log| > 0 {
      SessionIsEnough(log[..|log| - 1], key);
      var rest := LoadFills(log[..|log| - 1], Scope(Some(key.session), None, None));
      assert (rest + [log[|log| - 1]])[..|rest|] == rest;
    }
  }

  class TradeLedger {
    var fills: seq<Record>
    var snapshots: seq<Snapshot>
    var capitals: seq<Capital>

    constructor ()
      ensures fills == [] && snapshots == [] && capitals == []
    {
      fills, snapshots, capitals := [], [], [];
    }

    method RecordInitialCapital(amount: real, owner: Owner, account: Name)
      modifies this`capitals
      ensures capitals == old(capitals) + [Capital(amount, owner, account)]
    {
      capitals := capitals + [Capital(amount, owner, account)];
    }

    method RecordDailySnapshot(snapshot: Snapshot)
      modifies this`snapshots
      ensures snapshots == old(snapshots) + [snapshot]
    {
      snapshots := snapshots + [snapshot];
    }

    method LoadFillRecords(scope: Scope) returns (records: seq<Record>)
      ensures records == LoadFills(fills, scope)
    {
      records := [];
      for i := 0 to |fills|
        invariant records == LoadFills(fills[..i], scope)
      {
        assert fills[..i + 1][..i] == fills[..i];
        if InScope(scope, fills[i].fill.owner, fills[i].fill.account) {
          records := records + [fills[i]];
        }
      }
      assert fills[..|fills|] == fills;
    }

    method GetLatestPosition(key: Key) returns (held: Option<Holding>)
      ensures held == LatestPosition(fills, key)
    {
      var records := LoadFillRecords(Scope(Some(key.session), None, None));
      SessionIsEnough(fills, key);
      assert records[..|records|] == records;
      for i := |records| downto 0
        invariant LatestPosition(records[..i], key) == LatestPosition(fills, key)
      {
        assert records[..i + 1][..i] == records[..i];
        if KeyOf(records[i]) == key {
          return Some(Holding(records[i].sharesAfter, records[i].avgCostAfter));
        }
      }
      return None;
    }

    method RecordFill(report: FillReport)
      modifies this`fills
      ensures fills == Ledger.RecordFill(old(fills), report)
    {
      var previous := GetLatestPosition(FillKey(report.fill, report.ticker));
      var previousShares := 0.0;
      if previous.Some? {
        previousShares := previous.value.shares;
      }
      var signed := report.sharesAfter - previousShares;
      var side := if signed > 0.0 then Buy else Sell;
      var pnl := RecordedPnl(previous, signed, report.fill);
      fills := fills + [Record(report.fill, report.ticker, side, pnl, report.sharesAfter,
                               report.avgCostAfter, report.cashAfter, report.equityAfter)];
    }

    /** The sale branch of the loop: the episodes after it, its execution, and the trade
        it closes, if any. */
    method ApplySale(open: map<Key, Episode>, record: Record, sold: real, ghost s: Recon)
      returns (open': map<Key, Episode>, execution: Record, trade: Option<ClosedTrade>)
      requires sold > 0.0 && Sane(s) && s.open == open
      ensures StepSell(s, record, sold)
           == Recon(s.prev, open', s.executions + [execution],
                    if trade.Some? then s.closed + [trade.value] else s.closed)
    {
      var key := KeyOf(record);
      open', trade := open, None;
      execution := record.(realizedPnl := 0.0, side := Sell);
      if key in open {
        execution := execution.(realizedPnl := ExitPnl(open[key], record, sold));
        var episode := Exit(open[key], record, sold);
        if episode.remainingQty > 0.0 {
          execution := execution.(avgCostAfter := Ratio(episode.remainingCost, episode.remainingQty));
        }
        if episode.remainingQty <= DUST {
          trade := Some(CloseTrade(key, episode, record));
          open' := open - {key};
        } else {
          open' := open[key := episode];
        }
      }
    }

    /** One pass of the loop: the dictionaries after it, its execution, and the trade it
        closes, if any. */
    method ApplyRecord(short: set<Key>, prev: map<Key, real>, open: map<Key, Episode>,
        record: Record, ghost s: Recon)
      returns (prev': map<Key, real>, open': map<Key, Episode>, execution: Record, trade: Option<ClosedTrade>)
      requires Sane(s) && s.prev == prev && s.open == open
      ensures ReconStep(short, s, record)
           == Recon(prev', open', s.executions + [execution],
                    if trade.Some? then s.closed + [trade.value] else s.closed)
    {
      var key := KeyOf(record);
      prev', open', execution, trade := prev, open, record, None;
      if key !in short {
        var previousShares := if key in prev then prev[key] else 0.0;
        var signed := record.sharesAfter - previousShares;
        execution := record.(realizedPnl := 0.0);
        if signed > 0.0 {
          var episode := Enter(if key in open then Some(open[key]) else None, record, signed);
          open' := open[key := episode];
          execution := execution.(side := Buy, avgCostAfter := Ratio(episode.remainingCost, episode.remainingQty));
        } else if signed < 0.0 {
          open', execution, trade := ApplySale(open, record, -signed, s);
        }
        prev' := prev[key := record.sharesAfter];
      }
    }

    /** The loop of `_reconstruct_long_only_episodes`, with its dictionaries updated in
        place. */
    method Rebuild(short: set<Key>, records: seq<Record>)
      returns (executions: seq<Record>, closed: seq<ClosedTrade>)
      ensures executions == ReconAll(short, records).executions && closed == ReconAll(short, records).closed
    {
      var prev: map<Key, real>, open: map<Key, Episode> := map[], map[];
      executions, closed := [], [];
      for i := 0 to |records|
        invariant Recon(prev, open, executions, closed) == ReconAll(short, records[..i])
      {
        assert records[..i + 1][..i] == records[..i];
        var execution, trade;
        prev, open, execution, trade :=
          ApplyRecord(short, prev, open, records[i], Recon(prev, open, executions, closed));
        executions := executions + [execution];
        if trade.Some? {
          closed := closed + [trade.value];
        }
      }
      assert records[..|records|] == records;
    }

    /** `_reconstruct_long_only_episodes` */
    method ReconstructLongOnlyEpisodes(scope: Scope)
      returns (executions: seq<Record>, closed: seq<ClosedTrade>)
      ensures executions == Reconstruct(fills, scope).executions
      ensures closed == Reconstruct(fills, scope).closed
    {
      var loaded := LoadFillRecords(scope);
      var records := SortByTime(loaded);
      var short := set r | r in records && r.sharesAfter < 0.0 :: KeyOf(r);
      executions, closed := Rebuild(short, records);
    }

    method OpenLongPositionAccounting(ticker: Name, mark: real, scope: Scope)
      returns (r: Option<OpenAccounting>)
      ensures r == OpenPosition(Reconstruct(fills, scope).executions, ticker, mark)
    {
      var executions, _ := ReconstructLongOnlyEpisodes(scope);
      assert executions[..|executions|] == executions;
      for i := |executions| downto 0
        invariant LastOf(executions[..i], ticker) == LastOf(executions, ticker)
      {
        assert executions[..i + 1][..i] == executions[..i];
        var x := executions[i];
        if x.ticker == ticker {
          if x.sharesAfter <= 0.0 {
            return None;
          }
          return Some(OpenAccounting(x.avgCostAfter, Times(mark - x.avgCostAfter, x.sharesAfter)));
        }
      }
      return None;
    }

    method LoadSnapshotRecords(scope: Scope) returns (records: seq<Snapshot>)
      ensures records == LoadSnapshots(snapshots, scope)
    {
      records := [];
      for i := 0 to |snapshots|
        invariant records == LoadSnapshots(snapshots[..i], scope)
      {
        assert snapshots[..i + 1][..i] == snapshots[..i];
        if InScope(scope, snapshots[i].owner, snapshots[i].account) {
          records := records + [snapshots[i]];
        }
      }
      assert snapshots[..|snapshots|] == snapshots;
    }

    method InitialCapitalFor(scope: Scope, firstEquity: real) returns (amount: real)
      ensures amount == StartEquity(capitals, scope, firstEquity)
    {
      assert capitals[..|capitals|] == capitals;
      for i := |capitals| downto 0
        invariant StartEquity(capitals[..i], scope, firstEquity) == StartEquity(capitals, scope, firstEquity)
      {
        assert capitals[..i + 1][..i] == capitals[..i];
        if InScope(scope, capitals[i].owner, capitals[i].account) {
          return capitals[i].amount;
        }
      }
      return firstEquity;
    }

    /** The sums over the executions. */
    method Totals(executions: seq<Record>) returns (realized: real, fees: real, slippage: real)
      ensures realized == RealizedTotal(executions)
      ensures fees == LedgerLaws.FeeTotal(executions)
      ensures slippage == LedgerLaws.SlippageTotal(executions)
    {
      realized, fees, slippage := 0.0, 0.0, 0.0;
      for i := 0 to |executions|
        invariant realized == RealizedTotal(executions[..i])
        invariant fees == LedgerLaws.FeeTotal(executions[..i])
        invariant slippage == LedgerLaws.SlippageTotal(executions[..i])
      {
        assert executions[..i + 1][..i] == executions[..i];
        realized := realized + executions[i].realizedPnl;
        fees := fees + executions[i].fill.fee;
        slippage := slippage + executions[i].fill.slippage;
      }
      assert executions[..|executions|] == executions;
    }

    /** `to_portfolio_dataframe`: the snapshots of the scope in date order. */
    method PortfolioFrame(scope: Scope) returns (portfolio: seq<Snapshot>)
      ensures portfolio == SortByDate(LoadSnapshots(snapshots, scope))
      ensures |portfolio| == |LoadSnapshots(snapshots, scope)|
    {
      var loaded := LoadSnapshotRecords(scope);
      SameCount(loaded);
      portfolio := SortByDate(loaded);
    }

    /** `compute_metrics`: the money, the drawdown and the counts. */
    method ComputeMetrics(scope: Scope) returns (m: Metrics)
      ensures LoadSnapshots(snapshots, scope) == [] ==> m == NO_METRICS
      ensures LoadSnapshots(snapshots, scope) != [] ==>
        var es := Equities(SortByDate(LoadSnapshots(snapshots, scope)));
        |es| > 0 && MetricsOf(m, StartEquity(capitals, scope, es[0]), es, Reconstruct(fills, scope))
    {
      var portfolio := PortfolioFrame(scope);
      if |portfolio| == 0 {
        return NO_METRICS;
      }
      var es := Equities(portfolio);
      var start := InitialCapitalFor(scope, es[0]);
      var end := es[|es| - 1];
      var totalReturn := if start != 0.0 then Ratio(end, start) - 1.0 else 0.0;
      if start != 0.0 {
        LessOne(end, start);
      }
      var drawdowns := Figures(es);
      var duration := MaxDrawdownDuration(drawdowns);
      var executions, closed := ReconstructLongOnlyEpisodes(scope);
      var realized, fees, slippage := Totals(executions);
      var net := end - start;
      m := Metrics(totalReturn, net, realized, net - realized, fees, slippage, Deepest(drawdowns), duration,
                   |executions|, |closed|);
    }
  }

  lemma LessOne(x: real, y: real)
    requires y != 0.0
    ensures Times(Ratio(x, y) - 1.0, y) == x - y
  {
    assert (x / y) * y == x;
  }
}
