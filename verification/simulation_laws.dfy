/** What every simulated run keeps, bar by bar. */
module SimulationLaws {
  import opened BrokerModels
  import opened Positions
  import opened Pricing
  import opened Engine
  import opened Sizing
  import opened Simulation
  import opened SimulationFills
  import OrderLaws

  // ---- the account and the pending intent --------------------------------------------

  /** The last decision whose execution is over. */
  function DoneUpTo<S>(sim: Sim<S>): int {
    if sim.pending.Some? then sim.sequence - 1 else sim.sequence
  }

  /** Orders in decision order, each with its own id, each filled once and in full. */
  ghost predicate OrdersFilled(run: Setup, a: Account, done: int) {
    && |a.reports| == |a.orders|
    && (forall k :: 0 <= k < |a.orders| ==>
          && 1 <= a.orders[k].decision <= done
          && a.orders[k].id == run.orderIds(a.orders[k].decision)
          && a.orders[k].owner == run.owner && a.orders[k].account == run.account
          && OrderLaws.Reports(a.reports[k], a.orders[k]))
    && (forall j, k :: 0 <= j < k < |a.orders| ==> a.orders[j].decision < a.orders[k].decision)
  }

  ghost predicate PendingAllowed<S>(run: Setup, sim: Sim<S>) {
    sim.pending.Some? ==>
      && sim.pending.value.sequence == sim.sequence
      && sim.sequence >= 1
      && TargetAllowed(run, sim.pending.value.target)
  }

  ghost predicate Sound<S>(run: Setup, sim: Sim<S>) {
    && Steady(run, sim.account)
    && PendingAllowed(run, sim)
    && OrdersFilled(run, sim.account, DoneUpTo(sim))
  }

  /** What the placed order of a pending intent looks like. */
  lemma PlacedOrder(run: Setup, a: Account, intent: Intent, row: Row) returns (o: Order, want: int)
    requires GoodSetup(run) && Steady(run, a) && row.bar.open > 0.0 && TargetAllowed(run, intent.target)
    requires Place(run, a, Some(intent), row).Ordered?
    ensures o == Place(run, a, Some(intent), row).order
    ensures Place(run, a, Some(intent), row).sequence == intent.sequence
    ensures o.id == run.orderIds(intent.sequence) && o.decision == intent.sequence && o.status == New
    ensures o.owner == run.owner && o.account == run.account && o.clientOrderId == None
    ensures Moves(run, a, o, want)
    ensures IsLargestWithin(Buying(run.cfg, row.bar.open), Selling(run.cfg, row.bar.open), row.bar.open,
                            PrefillEquity(a, run.ticker,
                                          row.bar.open), intent.target / 100.0, Have(a, run.ticker), want)
  {
    o := Place(run, a, Some(intent), row).order;
    want := TargetShares(run.cfg, a.cash, Have(a, run.ticker), row.bar.open, intent.target);
    OrderMoves(run, a, intent, row);
    TargetIsLargest(run, a, row.bar.open, intent.target);
  }

  /** An order filled at the open is appended, and so is its one report. */
  lemma FillAppends(run: Setup, a: Account, o: Order, open: real, time: int)
    ensures
      var after := FillAtOpen(run, a, o, open, time);
      && after.orders == a.orders + [o.(status := Filled)]
      && |after.reports| == |a.reports| + 1 && after.reports[..|a.reports|] == a.reports
      && OrderLaws.Reports(after.reports[|a.reports|], o)
      && after.reports[|a.reports|].fill.time == time
      && after.reports[|a.reports|].fill.price == MarketPrice(o.side, open, run.cfg.slippage)
  {
  }

  lemma OrdersGrow(run: Setup, a: Account, o: Order, open: real, time: int, done: int)
    requires OrdersFilled(run, a, done) && o.owner == run.owner && o.account == run.account
    requires o.decision > done && o.decision >= 1 && o.id == run.orderIds(o.decision)
    ensures OrdersFilled(run, FillAtOpen(run, a, o, open, time), o.decision)
  {
    var after := FillAtOpen(run, a, o, open, time);
    FillAppends(run, a, o, open, time);
    forall k | 0 <= k < |after.orders|
      ensures 1 <= after.orders[k].decision <= o.decision && OrderLaws.Reports(after.reports[k], after.orders[k])
      ensures after.orders[k].id == run.orderIds(after.orders[k].decision)
    {
      if k < |a.orders| {
        assert after.orders[k] == a.orders[k] && after.reports[k] == after.reports[..|a.reports|][k];
      }
    }
  }

  lemma OrdersLater(run: Setup, a: Account, done: int, later: int)
    requires OrdersFilled(run, a, done) && done <= later
    ensures OrdersFilled(run, a, later)
  {
  }

  lemma AtOpenKeepsSound<S>(run: Setup, sim: Sim<S>, row: Row)
    requires GoodSetup(run) && Sound(run, sim) && row.bar.open > 0.0
    ensures Sound(run, AtOpen(run, sim, row))
  {
    var placement := Place(run, sim.account, sim.pending, row);
    if placement.Ordered? {
      var o, want := PlacedOrder(run, sim.account, sim.pending.value, row);
      FillKeepsSteady(run, sim.account, o, row.bar.open, row.date, sim.pending.value.target, want);
      OrdersGrow(run, sim.account, o, row.bar.open, row.date, DoneUpTo(sim));
    } else {
      OrdersLater(run, sim.account, DoneUpTo(sim), sim.sequence);
    }
  }

  lemma PlayBarKeepsSound<S>(run: Setup, ex: Executor<S>, sim: Sim<S>, row: Row, closes: seq<real>, due: bool)
    requires GoodSetup(run) && Sound(run, sim) && row.bar.open > 0.0
    ensures PlayBar(run, ex, sim, row, closes, due).Next? ==> Sound(run, PlayBar(run, ex, sim, row, closes, due).sim)
  {
    AtOpenKeepsSound(run, sim, row);
    var filled := AtOpen(run, sim, row);
    OrdersLater(run, filled.account, filled.sequence, filled.sequence + 1);
  }

  lemma StartIsSound<S>(run: Setup, ex: Executor<S>, bars: nat, decisions: nat)
    requires GoodSetup(run)
    ensures Sound(run, Start(run, ex, bars, decisions))
  {
  }

  /** In every run the account stays steady, every intent stays allowed, and every order
      placed has been filled, once and in full. */
  lemma {:induction false} EveryBarIsSound<S>(run: Setup, ex: Executor<S>, rows: seq<Row>,
      history: seq<Row>, due: set<int>, n: nat)
    requires GoodSetup(run) && ValidFrame(rows) && n <= |rows|
    ensures Play(run, ex, rows, history, due, n).Next? ==> Sound(run, Play(run, ex, rows, history, due, n).sim)
  {
    if n == 0 {
      StartIsSound(run, ex, |rows|, |due|);
    } else {
      EveryBarIsSound(run, ex, rows, history, due, n - 1);
      var before := Play(run, ex, rows, history, due, n - 1);
      if before.Next? {
        var row := rows[n - 1];
        assert ValidBar(row.bar);
        PlayBarKeepsSound(run, ex, before.sim, row, ClosesUpTo(history, row.date), row.date in due);
      }
    }
  }

  // ---- weights and equity ----------------------------------------------------------------

  /** At any positive close the equity is positive and the weight is a percentage. */
  lemma WeightInRange(run: Setup, a: Account, row: Row)
    requires Steady(run, a) && row.bar.close > 0.0
    ensures CloseEquity(run, a, row) == a.cash + Times(Have(a, run.ticker) as real, row.bar.close)
    ensures CloseEquity(run, a, row) > 0.0
    ensures 0.0 <= Weight(Shares(a.book, run.ticker), row.bar.close, CloseEquity(run, a, row)) <= 100.0
    ensures Times(Weight(Shares(a.book, run.ticker), row.bar.close, CloseEquity(run, a, row)), CloseEquity(run, a, row))
         == 100.0 * Times(Shares(a.book, run.ticker), row.bar.close)
  {
    OneTickerValue(a.book, run.ticker, map[run.ticker := row.bar]);
    var shares, close := Have(a, run.ticker) as real, row.bar.close;
    PositiveValue(shares, close);
    Share(Times(shares, close), CloseEquity(run, a, row));
  }

  lemma PositiveValue(shares: real, close: real)
    requires shares >= 0.0 && close > 0.0
    ensures Times(shares, close) >= 0.0
    ensures shares > 0.0 ==> Times(shares, close) > 0.0
  {
  }

  lemma Share(part: real, whole: real)
    requires 0.0 <= part <= whole && whole > 0.0
    ensures 0.0 <= part / whole * 100.0 <= 100.0
    ensures Times(part / whole * 100.0, whole) == 100.0 * part
  {
  }
}
