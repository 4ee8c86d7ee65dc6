/** The run that the backtest runner performs (broker/backtest_runner.py, `_run`), as a
    fold over bars on one account.

    This is the simple form: a target becomes a fill at the next open directly, with no
    order queue, no risk check, no other accounts and no earlier sessions.  `Runners`
    proves that the broker, the ledger and the runner together do the same. */
module Simulation {
  import opened BrokerModels
  import opened Positions
  import opened Pricing
  import opened Engine
  import opened Sizing
  import opened Schedule
  import opened TradeLedgers

  datatype Row = Row(date: int, bar: Bar)

  /** A decision executor: any function of its own state, the closes so far and the
      current weight in percent.  None when it raises. */
  datatype Executor<!S> = Executor(minimum: int, start: S, decide: (S, seq<real>, real) -> (S, Option<real>))

  datatype Setup = Setup(cfg: Config, ticker: Name, account: Name, owner: Owner, orderIds: nat -> Name)

  datatype Intent = Intent(sequence: nat, signalDate: int, target: real)

  datatype Outcome = NotReady | Completed(target: real, move: Move)

  datatype Decision = Decision(sequence: nat, signalDate: int, executionDate: Option<int>, outcome: Outcome)

  /** A target that needed no share: recorded as unfilled, `target_not_affordable`. */
  datatype Unfilled = Unfilled(sequence: nat, signalDate: int, executionDate: int)

  datatype Progress = Progress(
    barsTotal: nat,
    decisionsTotal: nat,
    barsProcessed: nat,
    eligible: nat,
    notReady: nat,
    completed: nat)

  datatype RunError =
    | InvalidPrices
    | EmptyWindow
    | UnsupportedFrequency
    | ExecutorRaised
    | PositionLimit
    | InsufficientHistory

  /** The state of a run between two bars. */
  datatype Sim<S> = Sim(
    account: Account,
    executor: S,
    pending: Option<Intent>,
    sequence: nat,
    decisions: seq<Decision>,
    unfilled: seq<Unfilled>,
    moves: seq<Move>,
    progress: Progress,
    snapshots: seq<Snapshot>)

  datatype Step<S> = Next(sim: Sim<S>) | Abort(error: RunError)

  // ---- at the open ---------------------------------------------------------------

  datatype Placement =
    | NoIntent
    | AtTarget(sequence: nat)
    | NotAffordable(unfilled: Unfilled)
    | Ordered(sequence: nat, order: Order)

  function Have(a: Account, ticker: Name): int {
    Shares(a.book, ticker).Floor
  }

  /** The whole shares the target asks for at this open.  `Sizing` shows it is the
      largest count within the target; every run keeps the inputs `Sizable`. */
  function TargetShares(cfg: Config, cash: real, have: int, open: real, target: real): int {
    var buy, sell := BuyCost(open, cfg.slippage, cfg.commission), SellCost(open, cfg.slippage, cfg.commission);
    var equity := cash + Times(have as real, open);
    var fraction := target / 100.0;
    if Sizable(buy, sell, open, equity, fraction, have)
    then Desired(buy, sell, open, cash, equity, fraction, have)
    else have
  }

  function Fraction(value: real, equity: real): real {
    if equity > 0.0 then value / equity else 0.0
  }

  function TargetOrder(run: Setup, intent: Intent, delta: int): Order {
    Order(run.orderIds(intent.sequence), run.account, run.ticker, if delta > 0 then Buy else Sell, Market,
          (if delta >= 0 then delta else -delta) as real, None, New, run.owner, intent.sequence, None)
  }

  /** `_place_pending_target_order` */
  function Place(run: Setup, a: Account, pending: Option<Intent>, row: Row): Placement {
    match pending
    case None => NoIntent
    case Some(intent) =>
      var have := Have(a, run.ticker);
      var held := Times(have as real, row.bar.open);
      var delta := TargetShares(run.cfg, a.cash, have, row.bar.open, intent.target) - have;
      if delta != 0 then Ordered(intent.sequence, TargetOrder(run, intent, delta))
      else if IsClose(Fraction(held, a.cash + held), intent.target / 100.0, 0.0, 0.000000000001) then
        AtTarget(intent.sequence)
      else NotAffordable(Unfilled(intent.sequence, intent.signalDate, row.date))
  }

  function FlatBar(price: real): Bar {
    Bar(price, price, price, price)
  }

  /** A new order, filled at the open. */
  function FillAtOpen(run: Setup, a: Account, o: Order, open: real, time: int): Account {
    ExecuteFill(run.cfg, a.(orders := a.orders + [o]), map[run.ticker := FlatBar(open)], |a.orders|,
                MarketPrice(o.side, open, run.cfg.slippage), open, time)
  }

  function AccountAfter(run: Setup, a: Account, placement: Placement, row: Row): Account {
    if placement.Ordered? then FillAtOpen(run, a, placement.order, row.bar.open, row.date) else a
  }

  /** `_with_execution_dates` for one sequence. */
  function WithExecutionDate(decisions: seq<Decision>, sequence: nat, date: int): seq<Decision> {
    seq(|decisions|, i requires 0 <= i < |decisions| =>
      if decisions[i].sequence == sequence then decisions[i].(executionDate := Some(date)) else decisions[i])
  }

  function Executed(decisions: seq<Decision>, placement: Placement, date: int): seq<Decision> {
    match placement
    case Ordered(sequence, _) => WithExecutionDate(decisions, sequence, date)
    case NotAffordable(u) => WithExecutionDate(decisions, u.sequence, date)
    case _ => decisions
  }

  /** The open of a bar: the pending intent is executed. */
  function AtOpen<S>(run: Setup, sim: Sim<S>, row: Row): Sim<S> {
    var placement := Place(run, sim.account, sim.pending, row);
    sim.(account := AccountAfter(run, sim.account, placement, row),
         pending := None,
         decisions := Executed(sim.decisions, placement, row.date),
         unfilled := sim.unfilled + (if placement.NotAffordable? then [placement.unfilled] else []),
         progress := sim.progress.(barsProcessed := sim.progress.barsProcessed + 1))
  }

  // ---- at the close ----------------------------------------------------------------

  /** Marked at this bar's close. */
  function CloseEquity(run: Setup, a: Account, row: Row): real {
    Equity(a, map[run.ticker := row.bar])
  }

  /** `_calculate_current_position_pct` */
  function Weight(shares: real, close: real, equity: real): real {
    if shares == 0.0 || equity == 0.0 then 0.0 else Times(shares, close) / equity * 100.0
  }

  function MoveTo(target: real, weight: real): Move {
    if IsClose(target, weight, 0.000000001, 0.000000001) then HOLD
    else if target > weight then BUY
    else SELL
  }

  function Snap<S>(run: Setup, sim: Sim<S>, row: Row): Sim<S> {
    var snapshot := Snapshot(row.date, sim.account.cash, CloseEquity(run, sim.account, row), run.owner, run.account);
    sim.(snapshots := sim.snapshots + [snapshot])
  }

  /** A decision date, after the bar has been played. */
  function Decide<S>(run: Setup, ex: Executor<S>, sim: Sim<S>, row: Row, closes: seq<real>): Step<S> {
    var sequence := sim.sequence + 1;
    var progress := sim.progress.(eligible := sim.progress.eligible + 1);
    if |closes| < ex.minimum then
      Next(sim.(sequence := sequence,
                progress := progress.(notReady := progress.notReady + 1),
                decisions := sim.decisions + [Decision(sequence, row.date, None, NotReady)]))
    else
      var weight := Weight(Shares(sim.account.book, run.ticker), row.bar.close, CloseEquity(run, sim.account, row));
      var (state, answer) := ex.decide(sim.executor, closes, weight);
      match answer
      case None => Abort(ExecutorRaised)
      case Some(target) =>
        if target < 0.0 || target > run.cfg.maxPosition * 100.0 then Abort(PositionLimit)
        else
          var move := MoveTo(target, weight);
          Next(sim.(executor := state,
                    sequence := sequence,
                    pending := Some(Intent(sequence, row.date, target)),
                    progress := progress.(completed := progress.completed + 1),
                    moves := sim.moves + [move],
                    decisions := sim.decisions + [Decision(sequence, row.date, None, Completed(target, move))]))
  }

  /** One bar. */
  function PlayBar<S>(run: Setup, ex: Executor<S>, sim: Sim<S>, row: Row, closes: seq<real>,
      due: bool): Step<S> {
    var filled := AtOpen(run, sim, row);
    if !due then Next(Snap(run, filled, row))
    else
      match Decide(run, ex, filled, row, closes)
      case Abort(e) => Abort(e)
      case Next(decided) => Next(Snap(run, decided, row))
  }

  // ---- the run -----------------------------------------------------------------------

  function Start<S>(run: Setup, ex: Executor<S>, bars: nat, decisions: nat): Sim<S> {
    Sim(FreshAccount(run.cfg), ex.start, None, 0, [], [], [], Progress(bars, decisions, 0, 0, 0, 0), [])
  }

  /** `history.loc[:date]`, the closes. */
  function ClosesUpTo(history: seq<Row>, date: int): seq<real> {
    if |history| == 0 then []
    else
      var rest, last := ClosesUpTo(history[..|history| - 1], date), history[|history| - 1];
      if last.date <= date then rest + [last.bar.close] else rest
  }

  /** The state after the first `n` bars. */
  function Play<S>(run: Setup, ex: Executor<S>, rows: seq<Row>, history: seq<Row>, due: set<int>,
      n: nat): Step<S>
    requires n <= |rows|
  {
    if n == 0 then Next(Start(run, ex, |rows|, |due|))
    else
      match Play(run, ex, rows, history, due, n - 1)
      case Abort(e) => Abort(e)
      case Next(sim) =>
        var row := rows[n - 1];
        PlayBar(run, ex, sim, row, ClosesUpTo(history, row.date), row.date in due)
  }

  /** The open, high, low and close checks of `_validate_price_frame`. */
  predicate ValidBar(b: Bar) {
    && PositiveBar(b)
    && b.high >= b.open && b.high >= b.close && b.high >= b.low
    && b.low <= b.open && b.low <= b.close
  }

  predicate ValidFrame(rows: seq<Row>) {
    && (forall i | 0 <= i < |rows| :: ValidBar(rows[i].bar))
    && (forall i | 0 <= i < |rows| - 1 :: rows[i].date < rows[i + 1].date)
  }

  function Dates(rows: seq<Row>): (dates: seq<int>)
    ensures |dates| == |rows| && forall i :: 0 <= i < |rows| ==> dates[i] == rows[i].date
  {
    seq(|rows|, i requires 0 <= i < |rows| => rows[i].date)
  }


  /** The whole run: the final state, or why it failed. */
  function Simulate<S>(run: Setup, ex: Executor<S>, rows: seq<Row>, history: seq<Row>,
      cal: Calendar, frequency: Frequency): Step<S> {
    if !ValidFrame(rows) then Abort(InvalidPrices)
    else if |rows| == 0 then Abort(EmptyWindow)
    else
      match DecisionDates(Dates(rows), cal, frequency)
      case None => Abort(UnsupportedFrequency)
      case Some(due) =>
        match Play(run, ex, rows, history, due, |rows|)
        case Abort(e) => Abort(e)
        case Next(sim) =>
          if sim.sequence > 0 && sim.progress.completed == 0 && sim.progress.notReady == sim.progress.eligible
          then Abort(InsufficientHistory)
          else Next(sim)
  }
}
