/** The trade ledger (broker/ledger.py): what it records per fill, and how it rebuilds
    long-only average-cost episodes from the fill log. */
module Ledger {
  import opened BrokerModels
  import opened Pricing

  /** `LedgerFillRecord`: the fill, the recorded P&L and the state right after it. */
  datatype Record = Record(
    fill: Fill,
    ticker: Name,
    side: Side,
    realizedPnl: real,
    sharesAfter: real,
    avgCostAfter: real,
    cashAfter: real,
    equityAfter: real)

  datatype Key = Key(session: Name, strategy: Name, account: Name, ticker: Name)

  function FillKey(fill: Fill, ticker: Name): Key {
    Key(fill.owner.session, fill.owner.strategy, fill.account, ticker)
  }

  function KeyOf(r: Record): Key {
    FillKey(r.fill, r.ticker)
  }

  // ---- recording ------------------------------------------------------------

  datatype Holding = Holding(shares: real, avgCost: real)

  /** `_get_latest_position`: the position after the last record of this key. */
  function LatestPosition(log: seq<Record>, key: Key): Option<Holding> {
    if |log| == 0 then None
    else
      var last := log[|log| - 1];
      if KeyOf(last) == key then Some(Holding(last.sharesAfter, last.avgCostAfter))
      else LatestPosition(log[..|log| - 1], key)
  }

  /** `_calculate_realized_pnl` */
  function RecordedPnl(previous: Option<Holding>, signed: real, fill: Fill): real {
    if previous == None || previous.value.shares == 0.0 then 0.0
    else if signed != 0.0 && (previous.value.shares > 0.0 <==> signed > 0.0) then 0.0
    else
      var closed := Min(Abs(previous.value.shares), Abs(signed));
      if closed == 0.0 then 0.0
      else if previous.value.shares > 0.0 && signed < 0.0 then
        Times(fill.price - previous.value.avgCost, closed) - fill.fee
      else
        Times(previous.value.avgCost - fill.price, closed) - fill.fee
  }

  function NewRecord(log: seq<Record>, r: FillReport): Record {
    var previous := LatestPosition(log, FillKey(r.fill, r.ticker));
    var signed := r.sharesAfter - if previous == None then 0.0 else previous.value.shares;
    Record(r.fill, r.ticker, if signed > 0.0 then Buy else Sell, RecordedPnl(previous, signed, r.fill),
           r.sharesAfter, r.avgCostAfter, r.cashAfter, r.equityAfter)
  }

  /** `record_fill` */
  function RecordFill(log: seq<Record>, r: FillReport): seq<Record> {
    log + [NewRecord(log, r)]
  }

  function RecordFills(log: seq<Record>, rs: seq<FillReport>): seq<Record> {
    if |rs| == 0 then log else RecordFill(RecordFills(log, rs[..|rs| - 1]), rs[|rs| - 1])
  }

  // ---- loading --------------------------------------------------------------

  /** The optional identity filters of `load_fill_records`. */
  datatype Scope = Scope(session: Option<Name>, strategy: Option<Name>, account: Option<Name>)

  predicate Admits(wanted: Option<Name>, actual: Name) {
    wanted.None? || wanted.value == actual
  }

  predicate InScope(scope: Scope, owner: Owner, account: Name) {
    && Admits(scope.session, owner.session)
    && Admits(scope.strategy, owner.strategy)
    && Admits(scope.account, account)
  }

  function LoadFills(log: seq<Record>, scope: Scope): seq<Record> {
    if |log| == 0 then []
    else
      var rest := LoadFills(log[..|log| - 1], scope);
      var last := log[|log| - 1];
      if InScope(scope, last.fill.owner, last.fill.account) then rest + [last] else rest
  }

  /** Insertion of a later record into a time-ordered log, after its equals. */
  function InsertByTime(log: seq<Record>, r: Record): seq<Record> {
    if |log| == 0 || log[|log| - 1].fill.time <= r.fill.time then log + [r]
    else InsertByTime(log[..|log| - 1], r) + [log[|log| - 1]]
  }

  /** `sorted(records, key=fill.timestamp)`: stable. */
  function SortByTime(log: seq<Record>): seq<Record> {
    if |log| == 0 then [] else InsertByTime(SortByTime(log[..|log| - 1]), log[|log| - 1])
  }

  // ---- reconstruction -------------------------------------------------------

  /** `_LongOnlyEpisode` */
  datatype Episode = Episode(
    entryAt: int,
    entryQty: real,
    entryNotional: real,
    entryCost: real,
    remainingQty: real,
    remainingCost: real,
    fees: real,
    slippage: real,
    exitQty: real,
    exitNotional: real,
    realized: real)

  datatype ClosedTrade = ClosedTrade(
    key: Key,
    entryAt: int,
    exitAt: int,
    quantity: real,
    entryVwap: real,
    exitVwap: real,
    averageCostBasis: real,
    netRealizedPnl: real,
    fees: real,
    slippage: real,
    decision: Name)

  datatype Recon = Recon(
    prev: map<Key, real>,
    open: map<Key, Episode>,
    executions: seq<Record>,
    closed: seq<ClosedTrade>)

  const NOTHING: Recon := Recon(map[], map[], [], [])

  /** The closing tolerance on share quantities. */
  const DUST := 0.000000000001

  function Ratio(x: real, y: real): real
    requires y != 0.0
  {
    x / y
  }

  predicate SaneEpisode(ep: Episode) {
    ep.remainingQty > 0.0 && ep.entryQty > 0.0 && ep.exitQty >= 0.0
  }

  predicate Sane(s: Recon) {
    forall k | k in s.open :: SaneEpisode(s.open[k])
  }

  function PrevShares(s: Recon, key: Key): real {
    if key in s.prev then s.prev[key] else 0.0
  }

  /** A buy of `q` shares opens an episode or adds to it. */
  function Enter(existing: Option<Episode>, r: Record, q: real): (ep: Episode)
    requires q > 0.0 && (existing.Some? ==> SaneEpisode(existing.value))
    ensures SaneEpisode(ep)
  {
    var notional := Times(r.fill.price, q);
    var cost := notional + r.fill.fee;
    match existing
    case None => Episode(r.fill.time, q, notional, cost, q, cost, r.fill.fee, r.fill.slippage, 0.0, 0.0, 0.0)
    case Some(ep) =>
      ep.(entryQty := ep.entryQty + q,
          entryNotional := ep.entryNotional + notional,
          entryCost := ep.entryCost + cost,
          remainingQty := ep.remainingQty + q,
          remainingCost := ep.remainingCost + cost,
          fees := ep.fees + r.fill.fee,
          slippage := ep.slippage + r.fill.slippage)
  }

  function ExitPnl(ep: Episode, r: Record, sold: real): real
    requires SaneEpisode(ep) && sold > 0.0
  {
    var closed := Min(sold, ep.remainingQty);
    Times(r.fill.price, closed)
      - Times(r.fill.fee, Ratio(closed, sold))
      - Times(Ratio(ep.remainingCost, ep.remainingQty), closed)
  }

  /** A sale of `sold` shares closes up to what the episode still holds. */
  function Exit(ep: Episode, r: Record, sold: real): (after: Episode)
    requires SaneEpisode(ep) && sold > 0.0
    ensures after.remainingQty >= 0.0 && after.entryQty > 0.0 && after.exitQty > 0.0
  {
    var closed := Min(sold, ep.remainingQty);
    ep.(remainingQty := ep.remainingQty - closed,
        remainingCost := ep.remainingCost - Times(Ratio(ep.remainingCost, ep.remainingQty), closed),
        exitQty := ep.exitQty + closed,
        exitNotional := ep.exitNotional + Times(r.fill.price, closed),
        fees := ep.fees + Times(r.fill.fee, Ratio(closed, sold)),
        slippage := ep.slippage + Times(r.fill.slippage, Ratio(closed, sold)),
        realized := ep.realized + ExitPnl(ep, r, sold))
  }

  function CloseTrade(key: Key, ep: Episode, r: Record): ClosedTrade
    requires ep.entryQty > 0.0 && ep.exitQty > 0.0
  {
    ClosedTrade(key, ep.entryAt, r.fill.time, ep.entryQty,
                Ratio(ep.entryNotional, ep.entryQty), Ratio(ep.exitNotional, ep.exitQty),
                Ratio(ep.entryCost, ep.entryQty), ep.realized, ep.fees, ep.slippage, r.fill.decision)
  }

  function StepBuy(s: Recon, r: Record, q: real): (t: Recon)
    requires Sane(s) && q > 0.0
    ensures Sane(t)
  {
    var key := KeyOf(r);
    var ep := Enter(if key in s.open then Some(s.open[key]) else None, r, q);
    var basis := Ratio(ep.remainingCost, ep.remainingQty);
    s.(open := s.open[key := ep],
       executions := s.executions + [r.(realizedPnl := 0.0, side := Buy, avgCostAfter := basis)])
  }

  function StepSell(s: Recon, r: Record, sold: real): (t: Recon)
    requires Sane(s) && sold > 0.0
    ensures Sane(t)
  {
    var key := KeyOf(r);
    if key !in s.open then s.(executions := s.executions + [r.(realizedPnl := 0.0, side := Sell)])
    else
      var before := s.open[key];
      var ep := Exit(before, r, sold);
      var x := r.(realizedPnl := ExitPnl(before, r, sold), side := Sell);
      var execution :=
        if ep.remainingQty > 0.0
        then x.(avgCostAfter := Ratio(ep.remainingCost, ep.remainingQty))
        else x;
      if ep.remainingQty <= DUST then
        s.(open := s.open - {key}, executions := s.executions + [execution],
           closed := s.closed + [CloseTrade(key, ep, r)])
      else
        s.(open := s.open[key := ep], executions := s.executions + [execution])
  }

  /** The body of the loop of `_reconstruct_long_only_episodes`. */
  function ReconStep(short: set<Key>, s: Recon, r: Record): (t: Recon)
    requires Sane(s)
    ensures Sane(t)
  {
    var key := KeyOf(r);
    if key in short then s.(executions := s.executions + [r])
    else
      var signed := r.sharesAfter - PrevShares(s, key);
      var t :=
        if signed > 0.0 then StepBuy(s, r, signed)
        else if signed < 0.0 then StepSell(s, r, -signed)
        else s.(executions := s.executions + [r.(realizedPnl := 0.0)]);
      t.(prev := s.prev[key := r.sharesAfter])
  }

  function ReconAll(short: set<Key>, log: seq<Record>): (s: Recon)
    ensures Sane(s)
  {
    if |log| == 0 then NOTHING else ReconStep(short, ReconAll(short, log[..|log| - 1]), log[|log| - 1])
  }

  /** Keys that ever go short; their records pass through untouched. */
  function ShortKeys(log: seq<Record>): set<Key> {
    set r | r in log && r.sharesAfter < 0.0 :: KeyOf(r)
  }

  /** `_reconstruct_long_only_episodes` without a decision filter. */
  function Reconstruct(log: seq<Record>, scope: Scope): Recon {
    var records := SortByTime(LoadFills(log, scope));
    ReconAll(ShortKeys(records), records)
  }

  // ---- results --------------------------------------------------------------

  function LastOf(executions: seq<Record>, ticker: Name): Option<Record> {
    if |executions| == 0 then None
    else if executions[|executions| - 1].ticker == ticker then Some(executions[|executions| - 1])
    else LastOf(executions[..|executions| - 1], ticker)
  }

  datatype OpenAccounting = OpenAccounting(averageCostBasis: real, unrealizedPnl: real)

  /** `open_long_position_accounting` */
  function OpenPosition(executions: seq<Record>, ticker: Name, mark: real): Option<OpenAccounting> {
    match LastOf(executions, ticker)
    case None => None
    case Some(x) =>
      if x.sharesAfter <= 0.0 then None
      else Some(OpenAccounting(x.avgCostAfter, Times(mark - x.avgCostAfter, x.sharesAfter)))
  }

  function RealizedTotal(executions: seq<Record>): real {
    if |executions| == 0 then 0.0
    else RealizedTotal(executions[..|executions| - 1]) + executions[|executions| - 1].realizedPnl
  }
}
