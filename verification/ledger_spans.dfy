/** When closed trades were entered and left, and of which fills they are made, in terms
    of the fill log itself. */
module LedgerSpans {
  import opened BrokerModels
  import opened Pricing
  import opened Ledger
  import opened LedgerLaws

  // ---- what the log says -------------------------------------------------------------

  /** The shares of the key after the log. */
  function Held(log: seq<Record>, key: Key): real {
    if |log| == 0 then 0.0
    else if KeyOf(log[|log| - 1]) == key then log[|log| - 1].sharesAfter
    else Held(log[..|log| - 1], key)
  }

  /** What a record moves, given the shares before it. */
  type Measure = (real, Record) -> real

  function Bought(before: real, r: Record): real {
    if r.sharesAfter > before then r.sharesAfter - before else 0.0
  }

  function Sold(before: real, r: Record): real {
    if r.sharesAfter < before then before - r.sharesAfter else 0.0
  }

  function Paid(before: real, r: Record): real {
    Times(r.fill.price, Bought(before, r))
  }

  function Received(before: real, r: Record): real {
    Times(r.fill.price, Sold(before, r))
  }

  function EntryFee(before: real, r: Record): real {
    if r.sharesAfter > before then r.fill.fee else 0.0
  }

  function AnyFee(before: real, r: Record): real {
    if r.sharesAfter != before then r.fill.fee else 0.0
  }

  function AnySlippage(before: real, r: Record): real {
    if r.sharesAfter != before then r.fill.slippage else 0.0
  }

  /** A measure summed over the records of a key that starts flat. */
  ghost function Along(log: seq<Record>, key: Key, measure: Measure): real {
    if |log| == 0 then 0.0
    else
      var front, last := log[..|log| - 1], log[|log| - 1];
      Along(front, key, measure) + if KeyOf(last) == key then measure(Held(front, key), last) else 0.0
  }

  lemma AlongGrows(log: seq<Record>, r: Record, key: Key, measure: Measure)
    ensures Along(log + [r], key, measure)
         == Along(log, key, measure) + if KeyOf(r) == key then measure(Held(log, key), r) else 0.0
  {
    assert (log + [r])[..|log|] == log;
  }

  /** The reconstruction remembers the shares the log says. */
  lemma {:induction false} HeldIsPrev(short: set<Key>, log: seq<Record>, key: Key)
    requires key !in short
    ensures PrevShares(ReconAll(short, log), key) == Held(log, key)
    decreases |log|
  {
    if |log| > 0 {
      var front := log[..|log| - 1];
      HeldIsPrev(short, front, key);
      StepAppends(short, ReconAll(short, front), log[|log| - 1]);
    }
  }

  /** From a point where the key is flat, the rest of the log says as much as all of it. */
  lemma {:induction false} HeldSince(log: seq<Record>, i: nat, key: Key)
    requires i <= |log| && Held(log[..i], key) == 0.0
    ensures Held(log[i..], key) == Held(log, key)
    decreases |log|
  {
    if i < |log| {
      var front := log[..|log| - 1];
      assert front[..i] == log[..i];
      assert log[i..][..|log| - i - 1] == front[i..];
      HeldSince(front, i, key);
    } else {
      assert log[..i] == log;
    }
  }

  // ---- spans -------------------------------------------------------------------------

  /** The indices of the records that open and close a position. */
  datatype Span = Span(entry: nat, exit: nat)

  /** The key is flat before record `i`, which is its own, and held from there on. */
  ghost predicate HeldFrom(log: seq<Record>, key: Key, i: nat, end: nat) {
    && i < end <= |log| && KeyOf(log[i]) == key
    && Held(log[..i], key) == 0.0
    && forall k :: i < k < end ==> Held(log[..k], key) > 0.0
  }

  /** The trade is what the records of its span say: its dates, its shares, what was paid
      and received for them, its fees and slippage, and the decision that closed it. */
  ghost predicate Spans(log: seq<Record>, key: Key, t: ClosedTrade, span: Span) {
    && span.entry < span.exit < |log|
    && HeldFrom(log, key, span.entry, span.exit + 1)
    && KeyOf(log[span.exit]) == key && Held(log[..span.exit + 1], key) == 0.0
    && t.key == key
    && t.entryAt == log[span.entry].fill.time && t.exitAt == log[span.exit].fill.time
    && t.decision == log[span.exit].fill.decision
    && Sums(log[span.entry..span.exit + 1], key, t)
  }

  ghost predicate Sums(part: seq<Record>, key: Key, t: ClosedTrade) {
    && t.quantity == Along(part, key, Bought) == Along(part, key, Sold) > 0.0
    && Times(t.entryVwap, t.quantity) == Along(part, key, Paid)
    && Times(t.exitVwap, t.quantity) == Along(part, key, Received)
    && Times(t.averageCostBasis, t.quantity) == Along(part, key, Paid) + Along(part, key, EntryFee)
    && t.fees == Along(part, key, AnyFee) && t.slippage == Along(part, key, AnySlippage)
  }

  /** Record `j` sells what is left of the key. */
  ghost predicate GoesFlat(log: seq<Record>, key: Key, j: nat) {
    && j < |log| && KeyOf(log[j]) == key
    && Held(log[..j], key) > 0.0 && log[j].sharesAfter == 0.0
  }

  /** The trades are those of the spans, in order and without overlap, and wherever the
      key goes flat one of them ends. */
  ghost predicate AllSpan(log: seq<Record>, key: Key, trades: seq<ClosedTrade>, spans: seq<Span>) {
    && |spans| == |trades|
    && (forall k :: 0 <= k < |spans| ==> Spans(log, key, trades[k], spans[k]))
    && (forall k :: 0 < k < |spans| ==> spans[k - 1].exit < spans[k].entry)
    && (forall j: nat :: GoesFlat(log, key, j) ==> exists k :: 0 <= k < |spans| && spans[k].exit == j)
  }

  // ---- the open episode ----------------------------------------------------------------

  ghost predicate Adds(part: seq<Record>, key: Key, ep: Episode) {
    && ep.entryQty == Along(part, key, Bought)
    && ep.entryNotional == Along(part, key, Paid)
    && ep.entryCost == Along(part, key, Paid) + Along(part, key, EntryFee)
    && ep.exitQty == Along(part, key, Sold)
    && ep.exitNotional == Along(part, key, Received)
    && ep.fees == Along(part, key, AnyFee) && ep.slippage == Along(part, key, AnySlippage)
  }

  /** The episode is what the records since record `i` say. */
  ghost predicate OpenSince(log: seq<Record>, key: Key, ep: Episode, i: nat) {
    && HeldFrom(log, key, i, |log|) && Held(log, key) > 0.0
    && ep.entryAt == log[i].fill.time
    && Adds(log[i..], key, ep)
  }

  lemma AddsGrow(part: seq<Record>, r: Record, key: Key)
    requires KeyOf(r) == key
    ensures forall m: Measure :: Along(part + [r], key, m) == Along(part, key, m) + m(Held(part, key), r)
  {
    forall m: Measure ensures Along(part + [r], key, m) == Along(part, key, m) + m(Held(part, key), r) {
      AlongGrows(part, r, key, m);
    }
  }

  lemma EnterAdds(part: seq<Record>, r: Record, existing: Option<Episode>, q: real)
    requires q == r.sharesAfter - Held(part, KeyOf(r)) && q > 0.0
    requires existing.Some? ==> SaneEpisode(existing.value) && Adds(part, KeyOf(r), existing.value)
    requires existing.None? ==> part == []
    ensures Adds(part + [r], KeyOf(r), Enter(existing, r, q))
  {
    AddsGrow(part, r, KeyOf(r));
  }

  lemma ExitAdds(part: seq<Record>, r: Record, ep: Episode, sold: real)
    requires sold == Held(part, KeyOf(r)) - r.sharesAfter && 0.0 < sold <= ep.remainingQty
    requires SaneEpisode(ep) && EpisodeBalanced(ep) && Adds(part, KeyOf(r), ep)
    ensures Adds(part + [r], KeyOf(r), Exit(ep, r, sold))
  {
    AddsGrow(part, r, KeyOf(r));
    ExitBalances(ep, r, sold);
  }

  lemma ClosedSums(part: seq<Record>, key: Key, ep: Episode, r: Record)
    requires Adds(part, key, ep) && EpisodeBalanced(ep) && ep.remainingQty == 0.0
    requires ep.entryQty > 0.0 && ep.exitQty > 0.0
    ensures Sums(part, key, CloseTrade(key, ep, r))
  {
    RatioTimes(ep.entryNotional, ep.entryQty);
    RatioTimes(ep.exitNotional, ep.exitQty);
    RatioTimes(ep.entryCost, ep.entryQty);
  }

  // ---- one more record -----------------------------------------------------------------

  lemma HeldGrows(log: seq<Record>, r: Record, key: Key)
    ensures Held(log + [r], key) == if KeyOf(r) == key then r.sharesAfter else Held(log, key)
    ensures forall k :: 0 <= k <= |log| ==> (log + [r])[..k] == log[..k]
  {
    assert (log + [r])[..|log|] == log;
  }

  lemma HeldFromGrows(log: seq<Record>, r: Record, key: Key, i: nat, end: nat)
    requires HeldFrom(log, key, i, end)
    ensures HeldFrom(log + [r], key, i, end)
    ensures end == |log| && Held(log, key) > 0.0 ==> HeldFrom(log + [r], key, i, end + 1)
  {
    HeldGrows(log, r, key);
    assert log[..|log|] == log;
  }

  lemma SpansGrow(log: seq<Record>, r: Record, key: Key, t: ClosedTrade, span: Span)
    requires Spans(log, key, t, span)
    ensures Spans(log + [r], key, t, span)
  {
    HeldGrows(log, r, key);
    HeldFromGrows(log, r, key, span.entry, span.exit + 1);
    assert (log + [r])[span.entry..span.exit + 1] == log[span.entry..span.exit + 1];
  }

  lemma GoesFlatGrows(log: seq<Record>, r: Record, key: Key, j: nat)
    requires j <= |log|
    ensures GoesFlat(log + [r], key, j) <==>
      if j < |log| then GoesFlat(log, key, j)
      else KeyOf(r) == key && Held(log, key) > 0.0 && r.sharesAfter == 0.0
  {
    HeldGrows(log, r, key);
    assert log[..|log|] == log;
  }

  lemma AllSpanGrows(log: seq<Record>, r: Record, key: Key, trades: seq<ClosedTrade>, spans: seq<Span>)
    requires AllSpan(log, key, trades, spans) && !GoesFlat(log + [r], key, |log|)
    ensures AllSpan(log + [r], key, trades, spans)
  {
    forall k | 0 <= k < |spans| ensures Spans(log + [r], key, trades[k], spans[k]) {
      SpansGrow(log, r, key, trades[k], spans[k]);
    }
    forall j: nat | GoesFlat(log + [r], key, j) ensures exists k :: 0 <= k < |spans| && spans[k].exit == j {
      GoesFlatGrows(log, r, key, j);
    }
  }

  lemma AllSpanCloses(log: seq<Record>, r: Record, key: Key, trades: seq<ClosedTrade>, spans: seq<Span>,
      t: ClosedTrade, span: Span)
    requires AllSpan(log, key, trades, spans) && Spans(log + [r], key, t, span) && span.exit == |log|
    requires |spans| > 0 ==> spans[|spans| - 1].exit < span.entry
    ensures AllSpan(log + [r], key, trades + [t], spans + [span])
  {
    var more := spans + [span];
    forall k | 0 <= k < |more| ensures Spans(log + [r], key, (trades + [t])[k], more[k]) {
      if k < |spans| {
        SpansGrow(log, r, key, trades[k], spans[k]);
      }
    }
    forall j: nat | GoesFlat(log + [r], key, j) ensures exists k :: 0 <= k < |more| && more[k].exit == j {
      if j < |log| {
        GoesFlatGrows(log, r, key, j);
        var k :| 0 <= k < |spans| && spans[k].exit == j;
        assert more[k].exit == j;
      } else {
        assert more[|spans|].exit == j;
      }
    }
  }

  /** Where the ledger is with a key: its closed trades span the log so far, and its
      episode, if one is open, is that of the records since the last of them. */
  ghost predicate Spanned(log: seq<Record>, s: Recon, key: Key, spans: seq<Span>, since: nat) {
    && AllSpan(log, key, ClosedOfKey(s.closed, key), spans)
    && (key in s.open ==> OpenSince(log, key, s.open[key], since))
    && (key in s.open && |spans| > 0 ==> spans[|spans| - 1].exit < since)
  }

  lemma OpenGrows(log: seq<Record>, r: Record, key: Key, ep: Episode, after: Episode, i: nat)
    requires OpenSince(log, key, ep, i) && KeyOf(r) == key && r.sharesAfter > 0.0
    requires after.entryAt == ep.entryAt && Adds(log[i..] + [r], key, after)
    ensures OpenSince(log + [r], key, after, i)
  {
    HeldFromGrows(log, r, key, i, |log|);
    HeldGrows(log, r, key);
    assert (log + [r])[i..] == log[i..] + [r];
  }

  lemma OpenKept(log: seq<Record>, r: Record, key: Key, ep: Episode, i: nat)
    requires OpenSince(log, key, ep, i) && KeyOf(r) != key
    ensures OpenSince(log + [r], key, ep, i)
  {
    HeldFromGrows(log, r, key, i, |log|);
    HeldGrows(log, r, key);
    assert (log + [r])[i..] == log[i..] + [r];
    forall m: Measure ensures Along(log[i..] + [r], key, m) == Along(log[i..], key, m) {
      AlongGrows(log[i..], r, key, m);
    }
  }

  lemma OpenStarts(log: seq<Record>, r: Record, key: Key, after: Episode)
    requires KeyOf(r) == key && Held(log, key) == 0.0 && r.sharesAfter > 0.0
    requires after.entryAt == r.fill.time && Adds([r], key, after)
    ensures OpenSince(log + [r], key, after, |log|)
  {
    HeldGrows(log, r, key);
    assert log[..|log|] == log && (log + [r])[|log|..] == [r];
  }

  /** The sale that empties the episode ends its span. */
  lemma SpanEnds(log: seq<Record>, r: Record, ep: Episode, after: Episode, i: nat)
    requires OpenSince(log, KeyOf(r), ep, i) && r.sharesAfter == 0.0
    requires after.entryAt == ep.entryAt && Adds(log[i..] + [r], KeyOf(r), after)
    requires EpisodeBalanced(after) && after.remainingQty == 0.0 && after.entryQty > 0.0 && after.exitQty > 0.0
    ensures Spans(log + [r], KeyOf(r), CloseTrade(KeyOf(r), after, r), Span(i, |log|))
  {
    HeldFromGrows(log, r, KeyOf(r), i, |log|);
    HeldGrows(log, r, KeyOf(r));
    assert (log + [r])[..|log| + 1] == log + [r];
    assert (log + [r])[i..|log| + 1] == log[i..] + [r];
    ClosedSums(log[i..] + [r], KeyOf(r), after, r);
  }

  // ---- every record ----------------------------------------------------------------------

  lemma OtherSpans(short: set<Key>, log: seq<Record>, s: Recon, r: Record, key: Key, spans: seq<Span>,
      since: nat)
    requires Sane(s) && KeyOf(r) != key && Spanned(log, s, key, spans, since)
    ensures Spanned(log + [r], ReconStep(short, s, r), key, spans, since)
  {
    OtherKeyStep(short, s, r, key);
    GoesFlatGrows(log, r, key, |log|);
    AllSpanGrows(log, r, key, ClosedOfKey(s.closed, key), spans);
    if key in s.open {
      OpenKept(log, r, key, s.open[key], since);
    }
  }

  lemma BuySpans(short: set<Key>, log: seq<Record>, s: Recon, r: Record, spans: seq<Span>, since: nat,
      q: real) returns (from: nat)
    requires Sane(s) && KeyOf(r) !in short && Booked(s, KeyOf(r)) && Spanned(log, s, KeyOf(r), spans, since)
    requires PrevShares(s, KeyOf(r)) == Held(log, KeyOf(r)) && q == r.sharesAfter - Held(log, KeyOf(r)) > 0.0
    ensures Spanned(log + [r], ReconStep(short, s, r), KeyOf(r), spans, from)
  {
    var key := KeyOf(r);
    var existing := Lookup(s.open, key);
    StepIsBuy(short, s, r, q);
    GoesFlatGrows(log, r, key, |log|);
    AllSpanGrows(log, r, key, ClosedOfKey(s.closed, key), spans);
    if key in s.open {
      from := since;
      HeldSince(log, since, key);
      EnterAdds(log[since..], r, existing, q);
      OpenGrows(log, r, key, s.open[key], Enter(existing, r, q), since);
    } else {
      from := |log|;
      EnterAdds([], r, None, q);
      assert [] + [r] == [r];
      OpenStarts(log, r, key, Enter(None, r, q));
      if |spans| > 0 {
        assert Spans(log, key, ClosedOfKey(s.closed, key)[|spans| - 1], spans[|spans| - 1]);
      }
    }
  }

  lemma SellSpans(short: set<Key>, log: seq<Record>, s: Recon, r: Record, spans: seq<Span>, since: nat,
      sold: real) returns (more: seq<Span>)
    requires Sane(s) && KeyOf(r) !in short && Booked(s, KeyOf(r)) && Spanned(log, s, KeyOf(r), spans, since)
    requires PrevShares(s, KeyOf(r)) == Held(log, KeyOf(r)) && sold == Held(log, KeyOf(r)) - r.sharesAfter > 0.0
    requires r.sharesAfter == 0.0 || r.sharesAfter > DUST
    ensures Spanned(log + [r], ReconStep(short, s, r), KeyOf(r), more, since)
  {
    var key := KeyOf(r);
    var ep := s.open[key];
    var after := Exit(ep, r, sold);
    StepIsSell(short, s, r, sold);
    HeldSince(log, since, key);
    ExitBalances(ep, r, sold);
    ExitAdds(log[since..], r, ep, sold);
    if r.sharesAfter == 0.0 {
      var t := CloseTrade(key, after, r);
      SpanEnds(log, r, ep, after, since);
      ClosedOfKeyAppend(s.closed, t, key);
      more := spans + [Span(since, |log|)];
      AllSpanCloses(log, r, key, ClosedOfKey(s.closed, key), spans, t, Span(since, |log|));
    } else {
      more := spans;
      GoesFlatGrows(log, r, key, |log|);
      AllSpanGrows(log, r, key, ClosedOfKey(s.closed, key), spans);
      OpenGrows(log, r, key, ep, after, since);
    }
  }

  /** A record that moves nothing. */
  lemma NothingSpans(short: set<Key>, log: seq<Record>, s: Recon, r: Record, spans: seq<Span>, since: nat)
    requires Sane(s) && KeyOf(r) !in short && Booked(s, KeyOf(r)) && Spanned(log, s, KeyOf(r), spans, since)
    requires PrevShares(s, KeyOf(r)) == Held(log, KeyOf(r)) == r.sharesAfter
    ensures Spanned(log + [r], ReconStep(short, s, r), KeyOf(r), spans, since)
  {
    var key := KeyOf(r);
    GoesFlatGrows(log, r, key, |log|);
    AllSpanGrows(log, r, key, ClosedOfKey(s.closed, key), spans);
    if key in s.open {
      HeldSince(log, since, key);
      AddsGrow(log[since..], r, key);
      OpenGrows(log, r, key, s.open[key], s.open[key], since);
    }
  }

  lemma StepSpans(short: set<Key>, log: seq<Record>, s: Recon, r: Record, spans: seq<Span>, since: nat)
      returns (more: seq<Span>, from: nat)
    requires Sane(s) && KeyOf(r) !in short && Booked(s, KeyOf(r)) && Spanned(log, s, KeyOf(r), spans, since)
    requires PrevShares(s, KeyOf(r)) == Held(log, KeyOf(r))
    requires r.sharesAfter >= 0.0 && NotDusty(Held(log, KeyOf(r)), r)
    ensures Spanned(log + [r], ReconStep(short, s, r), KeyOf(r), more, from)
  {
    more, from := spans, since;
    var signed := r.sharesAfter - Held(log, KeyOf(r));
    if signed > 0.0 {
      from := BuySpans(short, log, s, r, spans, since, signed);
    } else if signed < 0.0 {
      more := SellSpans(short, log, s, r, spans, since, -signed);
    } else {
      NothingSpans(short, log, s, r, spans, since);
    }
  }

  lemma {:induction false} SpannedAfter(short: set<Key>, log: seq<Record>, key: Key)
      returns (spans: seq<Span>, since: nat)
    requires key !in short && LongOnly(log, key) && DustFree(short, log, key)
    ensures Spanned(log, ReconAll(short, log), key, spans, since)
    decreases |log|
  {
    spans, since := [], 0;
    if |log| > 0 {
      var front, last := log[..|log| - 1], log[|log| - 1];
      var s := ReconAll(short, front);
      PrefixFree(short, log, key, |log| - 1);
      spans, since := SpannedAfter(short, front, key);
      assert log == front + [last];
      if KeyOf(last) == key {
        LastFits(short, log, key);
        EpisodesBalance(short, front, key);
        HeldIsPrev(short, front, key);
        spans, since := StepSpans(short, front, s, last, spans, since);
      } else {
        OtherSpans(short, front, s, last, key, spans, since);
      }
    }
  }

  lemma LastFits(short: set<Key>, log: seq<Record>, key: Key)
    requires key !in short && LongOnly(log, key) && DustFree(short, log, key)
    requires |log| > 0 && KeyOf(log[|log| - 1]) == key
    ensures log[|log| - 1].sharesAfter >= 0.0
    ensures NotDusty(Held(log[..|log| - 1], key), log[|log| - 1])
  {
    HeldIsPrev(short, log[..|log| - 1], key);
  }

  /** In every dust-free long-only log, the closed trades of a key are exactly its spans:
      from a record that finds it flat, over records that find it held, to one that leaves
      it flat, with the dates, shares and money of those records; and what is open since. */
  lemma ClosedTradesSpan(short: set<Key>, log: seq<Record>, key: Key) returns (spans: seq<Span>, since: nat)
    requires key !in short && LongOnly(log, key) && DustFree(short, log, key)
    ensures AllSpan(log, key, ClosedOfKey(ReconAll(short, log).closed, key), spans)
    ensures key in ReconAll(short, log).open ==>
      && OpenSince(log, key, ReconAll(short, log).open[key], since)
      && (|spans| > 0 ==> spans[|spans| - 1].exit < since)
  {
    spans, since := SpannedAfter(short, log, key);
  }

  /** Whatever order the fills were recorded in, no reported trade ends before it begins. */
  lemma TradesAreInTime(log: seq<Record>, scope: Scope, key: Key, t: ClosedTrade)
    requires
      var records := SortByTime(LoadFills(log, scope));
      LongOnly(records, key) && DustFree(ShortKeys(records), records, key)
    requires t in ClosedOfKey(Reconstruct(log, scope).closed, key)
    ensures t.entryAt <= t.exitAt
  {
    var records := SortByTime(LoadFills(log, scope));
    SortOrders(LoadFills(log, scope));
    NotShort(records, key);
    var spans, since := ClosedTradesSpan(ShortKeys(records), records, key);
    var trades := ClosedOfKey(Reconstruct(log, scope).closed, key);
    var k :| 0 <= k < |trades| && trades[k] == t;
    assert Spans(records, key, trades[k], spans[k]);
  }

  lemma NotShort(log: seq<Record>, key: Key)
    requires LongOnly(log, key)
    ensures key !in ShortKeys(log)
  {
  }

  // ---- executions --------------------------------------------------------------------------

  /** A reconstructed execution is its record, but for the P&L, side and basis. */
  predicate Mirrors(x: Record, r: Record) {
    x == r.(realizedPnl := x.realizedPnl, side := x.side, avgCostAfter := x.avgCostAfter)
  }

  /** Its side is the way the shares went, and a purchase realizes nothing. */
  predicate SidesAgree(x: Record, before: real) {
    && (x.sharesAfter > before ==> x.side == Buy && x.realizedPnl == 0.0)
    && (x.sharesAfter < before ==> x.side == Sell)
    && (x.sharesAfter == before ==> x.realizedPnl == 0.0)
  }

  /** The execution a record gives. */
  ghost predicate ExecutionOf(short: set<Key>, x: Record, r: Record, before: real) {
    Mirrors(x, r) && if KeyOf(r) in short then x == r else SidesAgree(x, before)
  }

  lemma StepMirrors(short: set<Key>, s: Recon, r: Record)
    requires Sane(s)
    ensures
      var xs := ReconStep(short, s, r).executions;
      |xs| == |s.executions| + 1 && xs[..|s.executions|] == s.executions
      && ExecutionOf(short, xs[|s.executions|], r, PrevShares(s, KeyOf(r)))
  {
  }

  /** Every record gives one execution, in order; those of short keys are unchanged. */
  ghost predicate Executions(short: set<Key>, xs: seq<Record>, log: seq<Record>) {
    && |xs| == |log|
    && forall k :: 0 <= k < |log| ==> ExecutionOf(short, xs[k], log[k], Held(log[..k], KeyOf(log[k])))
  }

  lemma ExecutionsGrow(short: set<Key>, log: seq<Record>, r: Record, xs: seq<Record>, x: Record)
    requires Executions(short, xs, log) && ExecutionOf(short, x, r, Held(log, KeyOf(r)))
    ensures Executions(short, xs + [x], log + [r])
  {
    var more := log + [r];
    forall k | 0 <= k < |more| ensures ExecutionOf(short, (xs + [x])[k], more[k], Held(more[..k], KeyOf(more[k]))) {
      assert more[..k] == log[..k];
      if k == |log| {
        assert log[..k] == log;
      }
    }
  }

  lemma StepExecutes(short: set<Key>, front: seq<Record>, last: Record)
    requires Executions(short, ReconAll(short, front).executions, front)
    ensures Executions(short, ReconStep(short, ReconAll(short, front), last).executions, front + [last])
  {
    var s := ReconAll(short, front);
    var xs := ReconStep(short, s, last).executions;
    StepMirrors(short, s, last);
    if KeyOf(last) !in short {
      HeldIsPrev(short, front, KeyOf(last));
    }
    ExecutionsGrow(short, front, last, s.executions, xs[|s.executions|]);
    assert xs == s.executions + [xs[|s.executions|]];
  }

  lemma {:induction false} ExecutionsMirror(short: set<Key>, log: seq<Record>)
    ensures Executions(short, ReconAll(short, log).executions, log)
    decreases |log|
  {
    if |log| > 0 {
      ExecutionsMirror(short, log[..|log| - 1]);
      StepExecutes(short, log[..|log| - 1], log[|log| - 1]);
      assert log == log[..|log| - 1] + [log[|log| - 1]];
    }
  }
}
