/** Properties of the episode reconstruction, for every fill log. */
module LedgerLaws {
  import opened BrokerModels
  import opened Reals
  import opened Pricing
  import opened Ledger

  // ---- one key at a time ----------------------------------------------------

  function OfKey(log: seq<Record>, key: Key): (r: seq<Record>)
    ensures |r| <= |log|
  {
    if |log| == 0 then []
    else
      var rest := OfKey(log[..|log| - 1], key);
      if KeyOf(log[|log| - 1]) == key then rest + [log[|log| - 1]] else rest
  }

  function ClosedOfKey(trades: seq<ClosedTrade>, key: Key): seq<ClosedTrade> {
    if |trades| == 0 then []
    else
      var rest := ClosedOfKey(trades[..|trades| - 1], key);
      if trades[|trades| - 1].key == key then rest + [trades[|trades| - 1]] else rest
  }

  lemma OfKeyAppend(log: seq<Record>, r: Record, key: Key)
    ensures OfKey(log + [r], key) == if KeyOf(r) == key then OfKey(log, key) + [r] else OfKey(log, key)
  {
    assert (log + [r])[..|log|] == log;
  }

  lemma ClosedOfKeyAppend(trades: seq<ClosedTrade>, t: ClosedTrade, key: Key)
    ensures ClosedOfKey(trades + [t], key) == if t.key
         == key then ClosedOfKey(trades, key) + [t] else ClosedOfKey(trades, key)
  {
    assert (trades + [t])[..|trades|] == trades;
  }

  function Lookup<V>(m: map<Key, V>, key: Key): Option<V> {
    if key in m then Some(m[key]) else None
  }

  /** Two reconstructions agree about one key. */
  ghost predicate AgreeOn(s: Recon, t: Recon, key: Key) {
    && Lookup(s.prev, key) == Lookup(t.prev, key)
    && Lookup(s.open, key) == Lookup(t.open, key)
    && OfKey(s.executions, key) == OfKey(t.executions, key)
    && ClosedOfKey(s.closed, key) == ClosedOfKey(t.closed, key)
  }

  /** A step appends one execution of its own key, and at most one trade of that key. */
  lemma StepAppends(short: set<Key>, s: Recon, r: Record)
    requires Sane(s)
    ensures
      var t := ReconStep(short, s, r);
     
      && (forall k :: k != KeyOf(r) ==>
            Lookup(t.prev, k) == Lookup(s.prev, k) && Lookup(t.open, k) == Lookup(s.open, k))
      && (exists x :: t.executions == s.executions + [x] && KeyOf(x) == KeyOf(r))
      && (t.closed == s.closed || exists c :: t.closed == s.closed + [c] && c.key == KeyOf(r))
  {
    var t := ReconStep(short, s, r);
    var x := t.executions[|s.executions|];
    assert t.executions == s.executions + [x];
    if t.closed != s.closed {
      var c := t.closed[|s.closed|];
      assert t.closed == s.closed + [c];
    }
  }

  /** A record of another key leaves this one alone. */
  lemma OtherKeyStep(short: set<Key>, s: Recon, r: Record, key: Key)
    requires Sane(s) && KeyOf(r) != key
    ensures AgreeOn(ReconStep(short, s, r), s, key)
  {
    StepAppends(short, s, r);
    OtherAppend(s, ReconStep(short, s, r), key);
  }

  lemma OtherAppend(s: Recon, t: Recon, key: Key)
    requires Lookup(t.prev, key) == Lookup(s.prev, key) && Lookup(t.open, key) == Lookup(s.open, key)
    requires exists x :: t.executions == s.executions + [x] && KeyOf(x) != key
    requires t.closed == s.closed || exists c :: t.closed == s.closed + [c] && c.key != key
    ensures AgreeOn(t, s, key)
  {
    var x :| t.executions == s.executions + [x] && KeyOf(x) != key;
    OfKeyAppend(s.executions, x, key);
    if t.closed != s.closed {
      var c :| t.closed == s.closed + [c] && c.key != key;
      ClosedOfKeyAppend(s.closed, c, key);
    }
  }

  /** Two reconstructions grow alike: the same episode of the key, the same execution and
      the same closed trade, if any. */
  predicate GrowAlike(s: Recon, t: Recon, s': Recon, t': Recon, key: Key) {
    && Lookup(s'.open, key) == Lookup(t'.open, key)
    && |s'.executions| > 0
    && var x := s'.executions[|s'.executions| - 1];
    && s'.executions == s.executions + [x] && t'.executions == t.executions + [x] && KeyOf(x) == key
    && ((s'.closed == s.closed && t'.closed == t.closed) || CloseAlike(s, t, s', t', key))
  }

  predicate CloseAlike(s: Recon, t: Recon, s': Recon, t': Recon, key: Key) {
    && |s'.closed| > 0
    && var c := s'.closed[|s'.closed| - 1];
    s'.closed == s.closed + [c] && t'.closed == t.closed + [c] && c.key == key
  }

  lemma SamePurchase(s: Recon, t: Recon, r: Record, q: real)
    requires Sane(s) && Sane(t) && q > 0.0 && Lookup(s.open, KeyOf(r)) == Lookup(t.open, KeyOf(r))
    ensures GrowAlike(s, t, StepBuy(s, r, q), StepBuy(t, r, q), KeyOf(r))
  {
  }

  lemma SameSale(s: Recon, t: Recon, r: Record, sold: real)
    requires Sane(s) && Sane(t) && sold > 0.0 && Lookup(s.open, KeyOf(r)) == Lookup(t.open, KeyOf(r))
    ensures GrowAlike(s, t, StepSell(s, r, sold), StepSell(t, r, sold), KeyOf(r))
  {
  }

  lemma SameRecord(s: Recon, t: Recon, x: Record)
    requires Lookup(s.open, KeyOf(x)) == Lookup(t.open, KeyOf(x))
    ensures GrowAlike(s, t, s.(executions := s.executions + [x]), t.(executions := t.executions + [x]), KeyOf(x))
  {
  }

  ghost predicate StepAlike(s: Recon, t: Recon, s': Recon, t': Recon, key: Key) {
    Lookup(s'.prev, key) == Lookup(t'.prev, key) && GrowAlike(s, t, s', t', key)
  }

  lemma PrevIsApart(s: Recon, t: Recon, u: Recon, v: Recon, s': Recon, t': Recon, key: Key, shares: real)
    requires GrowAlike(s, t, u, v, key)
    requires s' == u.(prev := s.prev[key := shares]) && t' == v.(prev := t.prev[key := shares])
    ensures StepAlike(s, t, s', t', key)
  {
  }

  lemma PurchaseAlike(short: set<Key>, short': set<Key>, s: Recon, t: Recon, r: Record, q: real)
    requires Sane(s) && Sane(t) && KeyOf(r) !in short && KeyOf(r) !in short' && q > 0.0
    requires q == r.sharesAfter - PrevShares(s, KeyOf(r)) == r.sharesAfter - PrevShares(t, KeyOf(r))
    requires Lookup(s.open, KeyOf(r)) == Lookup(t.open, KeyOf(r))
    ensures StepAlike(s, t, ReconStep(short, s, r), ReconStep(short', t, r), KeyOf(r))
  {
    StepIsBuy(short, s, r, q);
    StepIsBuy(short', t, r, q);
    SamePurchase(s, t, r, q);
    PrevIsApart(s, t, StepBuy(s, r, q), StepBuy(t, r, q), ReconStep(short, s, r), ReconStep(short', t, r),
                KeyOf(r), r.sharesAfter);
  }

  lemma SaleAlike(short: set<Key>, short': set<Key>, s: Recon, t: Recon, r: Record, sold: real)
    requires Sane(s) && Sane(t) && KeyOf(r) !in short && KeyOf(r) !in short' && sold > 0.0
    requires sold == PrevShares(s, KeyOf(r)) - r.sharesAfter == PrevShares(t, KeyOf(r)) - r.sharesAfter
    requires Lookup(s.open, KeyOf(r)) == Lookup(t.open, KeyOf(r))
    ensures StepAlike(s, t, ReconStep(short, s, r), ReconStep(short', t, r), KeyOf(r))
  {
    StepIsSell(short, s, r, sold);
    StepIsSell(short', t, r, sold);
    SameSale(s, t, r, sold);
    PrevIsApart(s, t, StepSell(s, r, sold), StepSell(t, r, sold), ReconStep(short, s, r), ReconStep(short', t, r),
                KeyOf(r), r.sharesAfter);
  }

  lemma NothingAlike(short: set<Key>, short': set<Key>, s: Recon, t: Recon, r: Record)
    requires Sane(s) && Sane(t) && KeyOf(r) !in short && KeyOf(r) !in short'
    requires r.sharesAfter == PrevShares(s, KeyOf(r)) == PrevShares(t, KeyOf(r))
    requires Lookup(s.open, KeyOf(r)) == Lookup(t.open, KeyOf(r))
    ensures StepAlike(s, t, ReconStep(short, s, r), ReconStep(short', t, r), KeyOf(r))
  {
  }

  /** A record acts the same on two reconstructions that hold the same about its key. */
  lemma SameStep(short: set<Key>, short': set<Key>, s: Recon, t: Recon, r: Record)
    requires Sane(s) && Sane(t)
    requires Lookup(s.prev, KeyOf(r)) == Lookup(t.prev, KeyOf(r))
    requires Lookup(s.open, KeyOf(r)) == Lookup(t.open, KeyOf(r))
    requires KeyOf(r) in short <==> KeyOf(r) in short'
    ensures StepAlike(s, t, ReconStep(short, s, r), ReconStep(short', t, r), KeyOf(r))
  {
    var signed := r.sharesAfter - PrevShares(s, KeyOf(r));
    assert PrevShares(s, KeyOf(r)) == PrevShares(t, KeyOf(r));
    if KeyOf(r) in short {
      SameRecord(s, t, r);
    } else if signed > 0.0 {
      PurchaseAlike(short, short', s, t, r, signed);
    } else if signed < 0.0 {
      SaleAlike(short, short', s, t, r, -signed);
    } else {
      NothingAlike(short, short', s, t, r);
    }
  }

  lemma SameKeyStep(short: set<Key>, short': set<Key>, s: Recon, t: Recon, r: Record)
    requires Sane(s) && Sane(t) && AgreeOn(s, t, KeyOf(r))
    requires KeyOf(r) in short <==> KeyOf(r) in short'
    ensures AgreeOn(ReconStep(short, s, r), ReconStep(short', t, r), KeyOf(r))
  {
    SameStep(short, short', s, t, r);
    SameAppend(s, t, ReconStep(short, s, r), ReconStep(short', t, r), KeyOf(r));
  }

  lemma SameAppend(s: Recon, t: Recon, s': Recon, t': Recon, key: Key)
    requires AgreeOn(s, t, key) && Lookup(s'.prev, key) == Lookup(t'.prev, key) && GrowAlike(s, t, s', t', key)
    ensures AgreeOn(s', t', key)
  {
    var x := s'.executions[|s'.executions| - 1];
    OfKeyAppend(s.executions, x, key);
    OfKeyAppend(t.executions, x, key);
    if CloseAlike(s, t, s', t', key) {
      var c := s'.closed[|s'.closed| - 1];
      ClosedOfKeyAppend(s.closed, c, key);
      ClosedOfKeyAppend(t.closed, c, key);
    }
  }

  lemma {:induction false} FoldProjects(short: set<Key>, short': set<Key>, log: seq<Record>, key: Key)
    requires key in short <==> key in short'
    ensures AgreeOn(ReconAll(short, log), ReconAll(short', OfKey(log, key)), key)
    decreases |log|
  {
    if |log| > 0 {
      var r := log[|log| - 1];
      var front := log[..|log| - 1];
      FoldProjects(short, short', front, key);
      var s, t := ReconAll(short, front), ReconAll(short', OfKey(front, key));
      if KeyOf(r) == key {
        SameKeyStep(short, short', s, t, r);
        assert (OfKey(front, key) + [r])[..|OfKey(front, key)|] == OfKey(front, key);
      } else {
        OtherKeyStep(short, s, r, key);
      }
    }
  }

  lemma {:induction false} OfKeyMembers(log: seq<Record>, key: Key, r: Record)
    ensures r in OfKey(log, key) <==> r in log && KeyOf(r) == key
  {
    if |log| > 0 {
      OfKeyMembers(log[..|log| - 1], key, r);
      assert log == log[..|log| - 1] + [log[|log| - 1]];
    }
  }

  /** Reconstructing an interleaved log and looking at one key is reconstructing the
      fills of that key alone. */
  lemma ReconstructionProjects(log: seq<Record>, key: Key)
    ensures AgreeOn(ReconAll(ShortKeys(log), log), ReconAll(ShortKeys(OfKey(log, key)), OfKey(log, key)), key)
  {
    forall r ensures r in OfKey(log, key) <==> r in log && KeyOf(r) == key {
      OfKeyMembers(log, key, r);
    }
    FoldProjects(ShortKeys(log), ShortKeys(OfKey(log, key)), log, key);
  }

  /** Keys that ever go short pass through unchanged and close nothing. */
  lemma {:induction false} ShortKeyPassesThrough(short: set<Key>, log: seq<Record>, key: Key)
    requires key in short
    ensures OfKey(ReconAll(short, log).executions, key) == OfKey(log, key)
    ensures ClosedOfKey(ReconAll(short, log).closed, key) == []
    ensures key !in ReconAll(short, log).open
    decreases |log|
  {
    if |log| > 0 {
      var r := log[|log| - 1];
      var front := log[..|log| - 1];
      ShortKeyPassesThrough(short, front, key);
      if KeyOf(r) == key {
        OfKeyAppend(ReconAll(short, front).executions, r, key);
      } else {
        OtherKeyStep(short, ReconAll(short, front), r, key);
      }
    }
  }

  // ---- sorting --------------------------------------------------------------

  ghost predicate TimeOrdered(log: seq<Record>) {
    forall i, j :: 0 <= i < j < |log| ==> log[i].fill.time <= log[j].fill.time
  }

  lemma {:induction false} InsertKeepsOrder(log: seq<Record>, r: Record)
    requires TimeOrdered(log)
    ensures TimeOrdered(InsertByTime(log, r))
    ensures forall x :: x in InsertByTime(log, r) <==> x in log || x == r
    decreases |log|
  {
    if |log| > 0 && log[|log| - 1].fill.time > r.fill.time {
      var front, last := log[..|log| - 1], log[|log| - 1];
      InsertKeepsOrder(front, r);
      assert log == front + [last];
      forall x | x in InsertByTime(front, r) ensures x.fill.time <= last.fill.time {
        assert x in front ==> x in log;
      }
    }
  }

  lemma {:induction false} SortOrders(log: seq<Record>)
    ensures TimeOrdered(SortByTime(log))
    decreases |log|
  {
    if |log| > 0 {
      SortOrders(log[..|log| - 1]);
      InsertKeepsOrder(SortByTime(log[..|log| - 1]), log[|log| - 1]);
    }
  }

  /** A log recorded in time order is not reordered. */
  lemma {:induction false} SortedIsFixed(log: seq<Record>)
    requires TimeOrdered(log)
    ensures SortByTime(log) == log
    decreases |log|
  {
    if |log| > 0 {
      var front := log[..|log| - 1];
      SortedIsFixed(front);
      assert log == front + [log[|log| - 1]];
    }
  }

  lemma {:induction false} InsertProjects(log: seq<Record>, r: Record, key: Key)
    requires TimeOrdered(log)
    ensures OfKey(InsertByTime(log, r), key)
         == if KeyOf(r) == key then InsertByTime(OfKey(log, key), r) else OfKey(log, key)
    decreases |log|
  {
    if |log| == 0 || log[|log| - 1].fill.time <= r.fill.time {
      OfKeyAppend(log, r, key);
      LastIsEarlier(log, key, r.fill.time);
    } else {
      var front, last := log[..|log| - 1], log[|log| - 1];
      InsertProjects(front, r, key);
      OfKeyAppend(InsertByTime(front, r), last, key);
      if KeyOf(last) == key {
        assert (OfKey(front, key) + [last])[..|OfKey(front, key)|] == OfKey(front, key);
      }
    }
  }

  lemma LastIsEarlier(log: seq<Record>, key: Key, time: int)
    requires forall i :: 0 <= i < |log| ==> log[i].fill.time <= time
    ensures forall i :: 0 <= i < |OfKey(log, key)| ==> OfKey(log, key)[i].fill.time <= time
  {
    forall i | 0 <= i < |OfKey(log, key)| ensures OfKey(log, key)[i].fill.time <= time {
      OfKeyMembers(log, key, OfKey(log, key)[i]);
    }
  }

  /** Sorting and projecting commute, so the whole reconstruction projects to a key. */
  lemma {:induction false} SortProjects(log: seq<Record>, key: Key)
    ensures OfKey(SortByTime(log), key) == SortByTime(OfKey(log, key))
    decreases |log|
  {
    if |log| > 0 {
      var front, last := log[..|log| - 1], log[|log| - 1];
      SortProjects(front, key);
      SortOrders(front);
      InsertProjects(SortByTime(front), last, key);
      if KeyOf(last) == key {
        assert (OfKey(front, key) + [last])[..|OfKey(front, key)|] == OfKey(front, key);
      }
    }
  }

  // ---- loading --------------------------------------------------------------

  /** Every name the scope gives is the record's own. */
  predicate Wanted(scope: Scope, owner: Owner, account: Name) {
    && (scope.session == None || scope.session == Some(owner.session))
    && (scope.strategy == None || scope.strategy == Some(owner.strategy))
    && (scope.account == None || scope.account == Some(account))
  }

  /** Loading keeps every wanted record as often as it was recorded, and no other. */
  lemma {:induction false} LoadsExactly(log: seq<Record>, scope: Scope, r: Record)
    ensures multiset(LoadFills(log, scope))[r]
         == if Wanted(scope, r.fill.owner, r.fill.account) then multiset(log)[r] else 0
    decreases |log|
  {
    if |log| > 0 {
      LoadsExactly(log[..|log| - 1], scope, r);
      assert log == log[..|log| - 1] + [log[|log| - 1]];
    }
  }

  const EVERYTHING: Scope := Scope(None, None, None)

  lemma {:induction false} EverythingLoads(log: seq<Record>)
    ensures LoadFills(log, EVERYTHING) == log
    decreases |log|
  {
    if |log| > 0 {
      EverythingLoads(log[..|log| - 1]);
      assert log == log[..|log| - 1] + [log[|log| - 1]];
    }
  }

  /** For any log, in any time order: what the ledger reports about one key is what it
      would report had only that key been traded. */
  lemma LedgerProjects(log: seq<Record>, key: Key)
    ensures AgreeOn(Reconstruct(log, EVERYTHING), Reconstruct(OfKey(log, key), EVERYTHING), key)
  {
    EverythingLoads(log);
    EverythingLoads(OfKey(log, key));
    SortProjects(log, key);
    ReconstructionProjects(SortByTime(log), key);
  }

  // ---- episodes -------------------------------------------------------------

  /** What the books say about one key: an episode is open exactly when shares are held,
      it holds those shares, and its money adds up. */
  ghost predicate EpisodeBalanced(ep: Episode) {
    && ep.entryQty == ep.remainingQty + ep.exitQty
    && ep.realized == ep.exitNotional - ep.entryNotional - ep.fees + ep.remainingCost
  }

  ghost predicate Booked(s: Recon, key: Key) {
    && PrevShares(s, key) >= 0.0
    && (key in s.open <==> PrevShares(s, key) > 0.0)
    && (key in s.open ==> s.open[key].remainingQty == PrevShares(s, key) && EpisodeBalanced(s.open[key]))
  }

  /** A closed trade is a round trip whose P&L is its price move less its fees. */
  ghost predicate RoundTrip(t: ClosedTrade) {
    && t.quantity > 0.0
    && t.netRealizedPnl == Times(t.exitVwap, t.quantity) - Times(t.entryVwap, t.quantity) - t.fees
  }

  ghost predicate AllRoundTrips(s: Recon, key: Key) {
    forall t :: t in ClosedOfKey(s.closed, key) ==> RoundTrip(t)
  }

  /** This record does not sell the key down to a positive remainder within the closing
      tolerance.  Whole-share quantities never do. */
  predicate NotDusty(before: real, r: Record) {
    r.sharesAfter < before ==> r.sharesAfter == 0.0 || r.sharesAfter > 0.000000000001
  }

  lemma RatioTimes(x: real, y: real)
    requires y != 0.0
    ensures Times(Ratio(x, y), y) == x
  {
  }

  lemma ExitBalances(ep: Episode, r: Record, sold: real)
    requires SaneEpisode(ep) && EpisodeBalanced(ep) && 0.0 < sold <= ep.remainingQty
    ensures EpisodeBalanced(Exit(ep, r, sold))
    ensures Exit(ep, r, sold).fees == ep.fees + r.fill.fee
    ensures Exit(ep, r, sold).slippage == ep.slippage + r.fill.slippage
    ensures sold == ep.remainingQty ==> Exit(ep, r, sold).remainingCost == 0.0
  {
    QuotientBound(sold, sold, 1.0);
    if sold == ep.remainingQty {
      RatioTimes(ep.remainingCost, ep.remainingQty);
    }
  }

  lemma EnterBalances(existing: Option<Episode>, r: Record, q: real)
    requires q > 0.0
    requires existing.Some? ==> SaneEpisode(existing.value) && EpisodeBalanced(existing.value)
    ensures EpisodeBalanced(Enter(existing, r, q))
  {
  }

  lemma ClosedIsRoundTrip(key: Key, ep: Episode, r: Record)
    requires EpisodeBalanced(ep) && ep.remainingQty == 0.0 && ep.remainingCost == 0.0
    requires ep.entryQty > 0.0 && ep.exitQty > 0.0
    ensures RoundTrip(CloseTrade(key, ep, r))
    ensures CloseTrade(key, ep, r).quantity == ep.exitQty
  {
    RatioTimes(ep.entryNotional, ep.entryQty);
    RatioTimes(ep.exitNotional, ep.exitQty);
  }

  lemma ClosedGrows(s: Recon, t: Recon, c: ClosedTrade, key: Key)
    requires AllRoundTrips(s, key) && RoundTrip(c) && t.closed == s.closed + [c]
    ensures AllRoundTrips(t, key)
  {
    ClosedOfKeyAppend(s.closed, c, key);
  }

  /** One record of a long-only key keeps its books, given that it leaves no dust. */
  lemma StepKeepsBooks(short: set<Key>, s: Recon, r: Record)
    requires Sane(s) && KeyOf(r) !in short && Booked(s, KeyOf(r)) && AllRoundTrips(s, KeyOf(r))
    requires r.sharesAfter >= 0.0 && NotDusty(PrevShares(s, KeyOf(r)), r)
    ensures Booked(ReconStep(short, s, r), KeyOf(r))
    ensures AllRoundTrips(ReconStep(short, s, r), KeyOf(r))
  {
    var key := KeyOf(r);
    var signed := r.sharesAfter - PrevShares(s, key);
    if signed > 0.0 {
      EnterBalances(Lookup(s.open, key), r, signed);
    } else if signed < 0.0 {
      var before := s.open[key];
      var ep := Exit(before, r, -signed);
      ExitBalances(before, r, -signed);
      assert ep.remainingQty == r.sharesAfter;
      if ep.remainingQty <= DUST {
        ClosedIsRoundTrip(key, ep, r);
        ClosedGrows(s, ReconStep(short, s, r), CloseTrade(key, ep, r), key);
      }
    }
  }

  ghost predicate LongOnly(log: seq<Record>, key: Key) {
    forall r :: r in log && KeyOf(r) == key ==> r.sharesAfter >= 0.0
  }

  /** No sale of the key in the log leaves a remainder within the closing tolerance. */
  ghost predicate DustFree(short: set<Key>, log: seq<Record>, key: Key) {
    forall i :: 0 <= i < |log| && KeyOf(log[i]) == key ==>
      NotDusty(PrevShares(ReconAll(short, log[..i]), key), log[i])
  }

  lemma PrefixFree(short: set<Key>, log: seq<Record>, key: Key, n: nat)
    requires DustFree(short, log, key) && LongOnly(log, key) && n <= |log|
    ensures DustFree(short, log[..n], key) && LongOnly(log[..n], key)
  {
    forall i | 0 <= i < n && KeyOf(log[..n][i]) == key
      ensures NotDusty(PrevShares(ReconAll(short, log[..n][..i]), key), log[..n][i])
    {
      assert log[..n][..i] == log[..i];
    }
  }

  /** Episode accounting: without dust, after every log the key's books are right and
      every closed trade is an exact round trip. */
  lemma {:induction false} EpisodesBalance(short: set<Key>, log: seq<Record>, key: Key)
    requires key !in short && LongOnly(log, key) && DustFree(short, log, key)
    ensures Booked(ReconAll(short, log), key) && AllRoundTrips(ReconAll(short, log), key)
    decreases |log|
  {
    if |log| > 0 {
      var front, last := log[..|log| - 1], log[|log| - 1];
      PrefixFree(short, log, key, |log| - 1);
      EpisodesBalance(short, front, key);
      if KeyOf(last) == key {
        StepKeepsBooks(short, ReconAll(short, front), last);
      } else {
        OtherKeyStep(short, ReconAll(short, front), last, key);
        KeyFactsCarry(ReconAll(short, log), ReconAll(short, front), key);
      }
    }
  }

  lemma KeyFactsCarry(s: Recon, t: Recon, key: Key)
    requires AgreeOn(s, t, key)
    ensures Booked(s, key) <==> Booked(t, key)
    ensures AllRoundTrips(s, key) <==> AllRoundTrips(t, key)
  {
  }

  /** Exactly when: the open episodes match the shares held after every prefix of the
      log if and only if no sale leaves a positive remainder within the tolerance. */
  lemma {:induction false} OpenMatchesSharesIffDustFree(short: set<Key>, log: seq<Record>, key: Key)
    requires key !in short && LongOnly(log, key)
    ensures (forall n :: 0 <= n <= |log| ==>
              (key in ReconAll(short, log[..n]).open <==> PrevShares(ReconAll(short, log[..n]), key) > 0.0))
       <==> DustFree(short, log, key)
  {
    if DustFree(short, log, key) {
      forall n | 0 <= n <= |log|
        ensures key in ReconAll(short, log[..n]).open <==> PrevShares(ReconAll(short, log[..n]), key) > 0.0
      {
        PrefixFree(short, log, key, n);
        EpisodesBalance(short, log[..n], key);
      }
    } else {
      var i := FirstDusty(short, log, key);
      PrefixBooked(short, log, key, i);
      var s := ReconAll(short, log[..i]);
      assert log[..i + 1][..i] == log[..i] && log[..i + 1][i] == log[i];
      DustLosesEpisode(short, s, log[i]);
    }
  }

  lemma FirstDusty(short: set<Key>, log: seq<Record>, key: Key) returns (i: nat)
    requires !DustFree(short, log, key)
    ensures i < |log| && KeyOf(log[i]) == key
    ensures !NotDusty(PrevShares(ReconAll(short, log[..i]), key), log[i])
    ensures DustFree(short, log[..i], key)
  {
    i := 0;
    while !(KeyOf(log[i]) == key && !NotDusty(PrevShares(ReconAll(short, log[..i]), key), log[i]))
      invariant i < |log|
      invariant forall k :: 0 <= k < i && KeyOf(log[k]) == key ==>
        NotDusty(PrevShares(ReconAll(short, log[..k]), key), log[k])
      decreases |log| - i
    {
      i := i + 1;
    }
    forall k | 0 <= k < i && KeyOf(log[..i][k]) == key
      ensures NotDusty(PrevShares(ReconAll(short, log[..i][..k]), key), log[..i][k])
    {
      assert log[..i][..k] == log[..k];
    }
  }

  lemma PrefixBooked(short: set<Key>, log: seq<Record>, key: Key, i: nat)
    requires key !in short && LongOnly(log, key) && i <= |log| && DustFree(short, log[..i], key)
    ensures Booked(ReconAll(short, log[..i]), key)
  {
    EpisodesBalance(short, log[..i], key);
  }

  lemma DustLosesEpisode(short: set<Key>, s: Recon, r: Record)
    requires Sane(s) && KeyOf(r) !in short && Booked(s, KeyOf(r)) && r.sharesAfter >= 0.0
    requires !NotDusty(PrevShares(s, KeyOf(r)), r)
    ensures KeyOf(r) !in ReconStep(short, s, r).open && PrevShares(ReconStep(short, s, r), KeyOf(r)) > 0.0
  {
    var key := KeyOf(r);
    var ep := Exit(s.open[key], r, PrevShares(s, key) - r.sharesAfter);
    assert ep.remainingQty == r.sharesAfter;
  }

  // ---- totals ---------------------------------------------------------------

  ghost function FeeTotal(log: seq<Record>): real {
    if |log| == 0 then 0.0 else FeeTotal(log[..|log| - 1]) + log[|log| - 1].fill.fee
  }

  ghost function SlippageTotal(log: seq<Record>): real {
    if |log| == 0 then 0.0 else SlippageTotal(log[..|log| - 1]) + log[|log| - 1].fill.slippage
  }

  ghost function ClosedFees(ts: seq<ClosedTrade>): real {
    if |ts| == 0 then 0.0 else ClosedFees(ts[..|ts| - 1]) + ts[|ts| - 1].fees
  }

  ghost function ClosedSlippage(ts: seq<ClosedTrade>): real {
    if |ts| == 0 then 0.0 else ClosedSlippage(ts[..|ts| - 1]) + ts[|ts| - 1].slippage
  }

  ghost function ClosedPnl(ts: seq<ClosedTrade>): real {
    if |ts| == 0 then 0.0 else ClosedPnl(ts[..|ts| - 1]) + ts[|ts| - 1].netRealizedPnl
  }

  lemma LogTotalsGrow(log: seq<Record>, r: Record)
    ensures FeeTotal(log + [r]) == FeeTotal(log) + r.fill.fee
    ensures SlippageTotal(log + [r]) == SlippageTotal(log) + r.fill.slippage
    ensures RealizedTotal(log + [r]) == RealizedTotal(log) + r.realizedPnl
  {
    assert (log + [r])[..|log|] == log;
  }

  lemma ClosedTotalsGrow(ts: seq<ClosedTrade>, t: ClosedTrade)
    ensures ClosedFees(ts + [t]) == ClosedFees(ts) + t.fees
    ensures ClosedSlippage(ts + [t]) == ClosedSlippage(ts) + t.slippage
    ensures ClosedPnl(ts + [t]) == ClosedPnl(ts) + t.netRealizedPnl
  {
    assert (ts + [t])[..|ts|] == ts;
  }

  /** The fees, slippage and realized P&L of the key's fills are those of its closed
      trades plus those of its open episode. */
  ghost predicate TotalsSplit(s: Recon, key: Key) {
    var fills, trades := OfKey(s.executions, key), ClosedOfKey(s.closed, key);
    var ep := Lookup(s.open, key);
    && FeeTotal(fills) == ClosedFees(trades) + (if ep.Some? then ep.value.fees else 0.0)
    && SlippageTotal(fills) == ClosedSlippage(trades) + (if ep.Some? then ep.value.slippage else 0.0)
    && RealizedTotal(fills) == ClosedPnl(trades) + (if ep.Some? then ep.value.realized else 0.0)
  }

  /** A record that moves no shares carries no fee; the engine never fills nothing. */
  predicate MovesShares(before: real, r: Record) {
    r.sharesAfter != before
  }

  lemma BuySplits(s: Recon, r: Record, q: real)
    requires Sane(s) && q > 0.0 && TotalsSplit(s, KeyOf(r))
    ensures TotalsSplit(StepBuy(s, r, q), KeyOf(r))
  {
    var t := StepBuy(s, r, q);
    var x := t.executions[|s.executions|];
    assert t.executions == s.executions + [x];
    OfKeyAppend(s.executions, x, KeyOf(r));
    LogTotalsGrow(OfKey(s.executions, KeyOf(r)), x);
  }

  lemma SellSplits(s: Recon, r: Record, sold: real)
    requires Sane(s) && KeyOf(r) in s.open && TotalsSplit(s, KeyOf(r))
    requires EpisodeBalanced(s.open[KeyOf(r)]) && 0.0 < sold <= s.open[KeyOf(r)].remainingQty
    ensures TotalsSplit(StepSell(s, r, sold), KeyOf(r))
  {
    var key := KeyOf(r);
    var t := StepSell(s, r, sold);
    var x := t.executions[|s.executions|];
    assert t.executions == s.executions + [x];
    OfKeyAppend(s.executions, x, key);
    LogTotalsGrow(OfKey(s.executions, key), x);
    ExitBalances(s.open[key], r, sold);
    var ep := Exit(s.open[key], r, sold);
    if ep.remainingQty <= DUST {
      var c := CloseTrade(key, ep, r);
      assert t.closed == s.closed + [c];
      ClosedOfKeyAppend(s.closed, c, key);
      ClosedTotalsGrow(ClosedOfKey(s.closed, key), c);
    }
  }

  /** The previous-shares map plays no part in the totals. */
  lemma PrevDoesNotMatter(s: Recon, prev: map<Key, real>, key: Key)
    requires TotalsSplit(s, key)
    ensures TotalsSplit(s.(prev := prev), key)
  {
  }

  lemma StepIsBuy(short: set<Key>, s: Recon, r: Record, q: real)
    requires Sane(s) && KeyOf(r) !in short && q == r.sharesAfter - PrevShares(s, KeyOf(r)) && q > 0.0
    ensures ReconStep(short, s, r) == StepBuy(s, r, q).(prev := s.prev[KeyOf(r) := r.sharesAfter])
  {
  }

  lemma StepIsSell(short: set<Key>, s: Recon, r: Record, sold: real)
    requires Sane(s) && KeyOf(r) !in short && sold == PrevShares(s, KeyOf(r)) - r.sharesAfter && sold > 0.0
    ensures ReconStep(short, s, r) == StepSell(s, r, sold).(prev := s.prev[KeyOf(r) := r.sharesAfter])
  {
  }

  lemma StepSplits(short: set<Key>, s: Recon, r: Record)
    requires Sane(s) && KeyOf(r) !in short && Booked(s, KeyOf(r)) && TotalsSplit(s, KeyOf(r))
    requires r.sharesAfter >= 0.0 && MovesShares(PrevShares(s, KeyOf(r)), r)
    ensures TotalsSplit(ReconStep(short, s, r), KeyOf(r))
  {
    var key := KeyOf(r);
    var before := PrevShares(s, key);
    if r.sharesAfter > before {
      var q := r.sharesAfter - before;
      BuySplits(s, r, q);
      StepIsBuy(short, s, r, q);
      PrevDoesNotMatter(StepBuy(s, r, q), s.prev[key := r.sharesAfter], key);
    } else {
      var sold := before - r.sharesAfter;
      SellSplits(s, r, sold);
      StepIsSell(short, s, r, sold);
      PrevDoesNotMatter(StepSell(s, r, sold), s.prev[key := r.sharesAfter], key);
    }
  }

  ghost predicate EveryFillMoves(short: set<Key>, log: seq<Record>, key: Key) {
    forall i :: 0 <= i < |log| && KeyOf(log[i]) == key ==>
      MovesShares(PrevShares(ReconAll(short, log[..i]), key), log[i])
  }

  lemma {:induction false} TotalsAlwaysSplit(short: set<Key>, log: seq<Record>, key: Key)
    requires key !in short && LongOnly(log, key) && DustFree(short, log, key) && EveryFillMoves(short, log, key)
    ensures TotalsSplit(ReconAll(short, log), key)
    decreases |log|
  {
    if |log| > 0 {
      var front, last := log[..|log| - 1], log[|log| - 1];
      PrefixFree(short, log, key, |log| - 1);
      forall i | 0 <= i < |front| && KeyOf(front[i]) == key
        ensures MovesShares(PrevShares(ReconAll(short, front[..i]), key), front[i])
      {
        assert front[..i] == log[..i];
      }
      TotalsAlwaysSplit(short, front, key);
      EpisodesBalance(short, front, key);
      if KeyOf(last) == key {
        StepSplits(short, ReconAll(short, front), last);
      } else {
        OtherKeyStep(short, ReconAll(short, front), last, key);
      }
    }
  }
}
