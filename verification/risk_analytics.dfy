/** Portfolio returns, wealth, drawdown, historical VaR and CVaR, and stress
    (risk/service.py, risk/calculations.py). */
module RiskAnalytics {
  import opened BrokerModels
  import opened Reals
  import opened Pricing
  import opened Drawdown
  import opened RiskExposure
  import opened RiskStatistics

  /** Positive closes by date. */
  type Closes = map<int, real>

  // ---- returns ---------------------------------------------------------------------------

  /** The history covers these dates, with positive closes. */
  ghost predicate Covered(weights: seq<Target>, closes: map<Name, Closes>, dates: seq<int>) {
    forall w, d :: w in weights && d in dates ==>
      w.ticker in closes && d in closes[w.ticker] && closes[w.ticker][d] > 0.0
  }

  function Return(earlier: real, later: real): real
    requires earlier > 0.0
  {
    later / earlier - 1.0
  }

  function CloseOn(closes: map<Name, Closes>, ticker: Name, date: int): real {
    if ticker in closes && date in closes[ticker] && closes[ticker][date] > 0.0 then closes[ticker][date] else 1.0
  }

  /** The weighted return of one day. */
  function DayReturn(weights: seq<Target>, closes: map<Name, Closes>, earlier: int, later: int): real {
    if |weights| == 0 then 0.0
    else
      var last := weights[|weights| - 1];
      DayReturn(weights[..|weights| - 1], closes, earlier, later)
        + Times(Return(CloseOn(closes, last.ticker, earlier), CloseOn(closes, last.ticker, later)), last.weight)
  }

  lemma ReturnAboveLoss(earlier: real, later: real, weight: real)
    requires earlier > 0.0 && later > 0.0 && weight > 0.0
    ensures Times(Return(earlier, later), weight) > -weight
  {
    var q := QuotientOf(earlier, later);
    MulPos(q, weight);
    assert (q - 1.0) * weight == q * weight - weight;
  }

  /** A day loses less than what is invested. */
  lemma {:induction false} DayLosesLess(weights: seq<Target>, closes: map<Name, Closes>,
      earlier: int, later: int)
    requires forall i :: 0 <= i < |weights| ==> weights[i].weight > 0.0
    ensures |weights| == 0 ==> DayReturn(weights, closes, earlier, later) == TotalWeight(weights) == 0.0
    ensures |weights| > 0 ==> DayReturn(weights, closes, earlier, later) > -TotalWeight(weights)
    decreases |weights|
  {
    if |weights| > 0 {
      var last := weights[|weights| - 1];
      DayLosesLess(weights[..|weights| - 1], closes, earlier, later);
      ReturnAboveLoss(CloseOn(closes, last.ticker, earlier), CloseOn(closes, last.ticker, later), last.weight);
    }
  }

  /** `simple_returns` */
  function SimpleReturns(closes: map<Name, Closes>, ticker: Name, dates: seq<int>): (rs: seq<real>)
    requires |dates| > 0
    ensures |rs| == |dates| - 1
    ensures forall k :: 0 <= k < |rs| ==>
      rs[k] == Return(CloseOn(closes, ticker, dates[k]), CloseOn(closes, ticker, dates[k + 1]))
  {
    seq(|dates| - 1, k requires 0 <= k < |dates| - 1 =>
      Return(CloseOn(closes, ticker, dates[k]), CloseOn(closes, ticker, dates[k + 1])))
  }

  function AddScaled(xs: seq<real>, ys: seq<real>, scale: real): (zs: seq<real>)
    requires |xs| == |ys|
    ensures |zs| == |xs| && forall k :: 0 <= k < |xs| ==> zs[k] == xs[k] + Times(ys[k], scale)
  {
    seq(|xs|, k requires 0 <= k < |xs| => xs[k] + Times(ys[k], scale))
  }

  /** The accumulation loop of `overview`. */
  method PortfolioReturns(weights: seq<Target>, closes: map<Name, Closes>, dates: seq<int>)
    returns (portfolio: seq<real>)
    requires |dates| > 0 && Covered(weights, closes, dates)
    ensures |portfolio| == |dates| - 1
    ensures forall k :: 0 <= k < |portfolio| ==> portfolio[k] == DayReturn(weights, closes, dates[k], dates[k + 1])
  {
    portfolio := seq(|dates| - 1, _ => 0.0);
    for i := 0 to |weights|
      invariant |portfolio| == |dates| - 1
      invariant forall k :: 0 <= k < |portfolio| ==>
        portfolio[k] == DayReturn(weights[..i], closes, dates[k], dates[k + 1])
    {
      assert weights[..i + 1][..i] == weights[..i];
      var w := weights[i];
      portfolio := AddScaled(portfolio, SimpleReturns(closes, w.ticker, dates), w.weight);
    }
    assert weights[..|weights|] == weights;
  }

  ghost predicate AboveTotalLoss(rs: seq<real>) {
    forall i :: 0 <= i < |rs| ==> rs[i] > -1.0
  }

  // ---- wealth and drawdown -----------------------------------------------------------------

  /** `np.cumprod(1 + portfolio)` */
  function Wealth(rs: seq<real>): (ws: seq<real>)
    ensures |ws| == |rs|
  {
    if |rs| == 0 then []
    else
      var front := Wealth(rs[..|rs| - 1]);
      front + [Times(if |front| == 0 then 1.0 else front[|front| - 1], 1.0 + rs[|rs| - 1])]
  }

  lemma {:induction false} WealthIsPositive(rs: seq<real>)
    requires AboveTotalLoss(rs)
    ensures Positive(Wealth(rs))
    decreases |rs|
  {
    if |rs| > 0 {
      WealthIsPositive(rs[..|rs| - 1]);
      var front := Wealth(rs[..|rs| - 1]);
      GrowsPositive(if |front| == 0 then 1.0 else front[|front| - 1], 1.0 + rs[|rs| - 1]);
    }
  }

  lemma GrowsPositive(x: real, growth: real)
    requires x > 0.0 && growth > 0.0
    ensures Times(x, growth) > 0.0
  {
    MulPos(x, growth);
  }

  /** The wealth before a day; one before the first. */
  function Before(ws: seq<real>, k: nat): real
    requires k <= |ws|
  {
    if k == 0 then 1.0 else ws[k - 1]
  }

  predicate Grew(before: real, r: real, after: real) {
    after == before + Times(before, r)
  }

  /** Each day's wealth is the day before's, grown by the day's return, from one on. */
  ghost predicate Compounds(rs: seq<real>, ws: seq<real>) {
    |ws| == |rs| && forall k :: 0 <= k < |ws| ==> Grew(Before(ws, k), rs[k], ws[k])
  }

  lemma {:induction false} WealthCompounds(rs: seq<real>)
    ensures Compounds(rs, Wealth(rs))
    decreases |rs|
  {
    if |rs| > 0 {
      var front, last := rs[..|rs| - 1], rs[|rs| - 1];
      WealthCompounds(front);
      var ws, more := Wealth(front), Wealth(rs);
      forall k | 0 <= k < |more| ensures Grew(Before(more, k), rs[k], more[k]) {
        if k < |ws| {
          assert more[k] == ws[k] && Before(more, k) == Before(ws, k) && front[k] == rs[k];
        } else {
          assert Before(more, k) == Before(ws, |ws|);
          OneMoreDay(Before(ws, |ws|), last);
        }
      }
    }
  }

  lemma OneMoreDay(before: real, r: real)
    ensures Grew(before, r, Times(before, 1.0 + r))
  {
  }

  /** `wealth / running_peak - 1`, the peak starting at one. */
  function DrawdownCurve(ws: seq<real>): (ds: seq<real>)
    requires forall i | 0 <= i < |ws| :: ws[i] > 0.0
    ensures |ds| == |ws|
  {
    var falls := Drawdowns([1.0] + ws);
    seq(|ws|, i requires 0 <= i < |ws| && |falls| == |ws| + 1 => -falls[i + 1])
  }

  lemma DrawdownsBounded(ws: seq<real>)
    requires Positive(ws)
    ensures forall i :: 0 <= i < |ws| ==> -1.0 < DrawdownCurve(ws)[i] <= 0.0
    ensures forall i :: 0 <= i < |ws| ==>
      (DrawdownCurve(ws)[i] < 0.0 <==> ws[i] < 1.0 || exists j :: 0 <= j < i && ws[j] > ws[i])
  {
    var es := [1.0] + ws;
    forall i | 0 <= i < |ws|
      ensures -1.0 < DrawdownCurve(ws)[i] <= 0.0
      ensures DrawdownCurve(ws)[i] < 0.0 <==> ws[i] < 1.0 || exists j :: 0 <= j < i && ws[j] > ws[i]
    {
      PositiveMeansBelowPeak(es, i + 1);
      var from := DrawdownIsDeepestEndingAt(es, i + 1);
      FallMonotone(es[from], es[from], es[i + 1]);
      BelowEarlier(ws, i);
    }
  }

  /** The highest wealth up to a day, the starting one included. */
  ghost predicate PeakUpTo(ws: seq<real>, k: nat, peak: real)
    requires k < |ws|
  {
    && (peak == 1.0 || exists j :: 0 <= j <= k && peak == ws[j])
    && peak >= 1.0 && forall j :: 0 <= j <= k ==> peak >= ws[j]
  }

  /** Each day's drawdown is its wealth over the peak so far, less one. */
  ghost predicate FallsFromPeak(ws: seq<real>, ds: seq<real>) {
    && |ds| == |ws|
    && forall k :: 0 <= k < |ws| ==> FallsAt(ws, k, ds[k])
  }

  ghost predicate FallsAt(ws: seq<real>, k: nat, d: real)
    requires k < |ws|
  {
    exists peak :: OffPeak(ws, k, d, peak)
  }

  ghost predicate OffPeak(ws: seq<real>, k: nat, d: real, peak: real)
    requires k < |ws|
  {
    PeakUpTo(ws, k, peak) && Times(1.0 + d, peak) == ws[k]
  }

  lemma DrawdownFallsFromPeak(ws: seq<real>, k: nat) returns (peak: real)
    requires Positive(ws) && k < |ws|
    ensures OffPeak(ws, k, DrawdownCurve(ws)[k], peak)
  {
    var es := [1.0] + ws;
    var from := DrawdownIsDeepestEndingAt(es, k + 1);
    peak := es[from];
    var q := QuotientOf(peak, es[k + 1]);
    assert DrawdownCurve(ws)[k] == q - 1.0;
    assert es[0] <= peak;
    forall j | 0 <= j <= k ensures ws[j] <= peak {
      assert ws[j] == es[j + 1];
    }
    assert from > 0 ==> peak == ws[from - 1];
  }

  lemma DrawdownsFallFromPeak(ws: seq<real>)
    requires Positive(ws)
    ensures FallsFromPeak(ws, DrawdownCurve(ws))
  {
    var ds := DrawdownCurve(ws);
    forall k | 0 <= k < |ws| ensures FallsAt(ws, k, ds[k]) {
      var peak := DrawdownFallsFromPeak(ws, k);
    }
  }

  /** Below an earlier level, the starting one included. */
  lemma BelowEarlier(ws: seq<real>, i: nat)
    requires i < |ws|
    ensures (exists j :: 0 <= j < i + 1 && ([1.0] + ws)[j] > ([1.0] + ws)[i + 1])
       <==> ws[i] < 1.0 || exists j :: 0 <= j < i && ws[j] > ws[i]
  {
    var es := [1.0] + ws;
    if j :| 0 <= j < i + 1 && es[j] > es[i + 1] {
      if j > 0 {
        assert ws[j - 1] > ws[i];
      }
    }
    if ws[i] < 1.0 {
      assert es[0] > es[i + 1];
    }
    if j :| 0 <= j < i && ws[j] > ws[i] {
      assert es[j + 1] > es[i + 1];
    }
  }

  // ---- the analysis --------------------------------------------------------------------------

  const MIN_COMMON_DATES := 60

  datatype Overview = Overview(
    daily: seq<real>,
    cumulative: seq<real>,
    drawdown: seq<real>,
    var95: real,
    var99: real,
    cvar95: real,
    maxDrawdown: real)

  /** `wealth - 1` */
  function Cumulative(ws: seq<real>): (cs: seq<real>)
    ensures |cs| == |ws|
    ensures forall k :: 0 <= k < |ws| ==> 1.0 + cs[k] == ws[k]
  {
    seq(|ws|, k requires 0 <= k < |ws| => ws[k] - 1.0)
  }

  /** `drawdown.min()` */
  function Least(ds: seq<real>): real
    requires |ds| > 0
  {
    if |ds| == 1 then ds[0] else Min(Least(ds[..|ds| - 1]), ds[|ds| - 1])
  }

  ghost predicate IsLeast(ds: seq<real>, v: real) {
    v in ds && forall k :: 0 <= k < |ds| ==> v <= ds[k]
  }

  lemma {:induction false} LeastIs(ds: seq<real>)
    requires |ds| > 0
    ensures IsLeast(ds, Least(ds))
    decreases |ds|
  {
    if |ds| > 1 {
      var front := ds[..|ds| - 1];
      LeastIs(front);
      assert forall k :: 0 <= k < |front| ==> ds[k] == front[k];
    }
  }

  /** Every bound the analytics promise. */
  ghost predicate Bounded(o: Overview) {
    && |o.daily| == |o.cumulative| == |o.drawdown| > 0
    && AboveTotalLoss(o.daily)
    && (forall i :: 0 <= i < |o.cumulative| ==> o.cumulative[i] > -1.0)
    && (forall i :: 0 <= i < |o.drawdown| ==> -1.0 < o.drawdown[i] <= 0.0)
    && exists worst :: 0 <= worst < |o.daily|
         && (forall i :: 0 <= i < |o.daily| ==> o.daily[worst] <= o.daily[i])
         && o.daily[worst] <= o.var99 <= o.var95
         && o.daily[worst] <= o.cvar95 <= o.var95
  }

  /** Every figure, in terms of the daily returns: the compounded wealth less one, its fall
      from the peak so far and the deepest of them, the quantiles at five and one percent,
      and the mean of the days not over the former. */
  ghost predicate Analyzed(o: Overview) {
    && (exists ws :: Compounds(o.daily, ws) && FallsFromPeak(ws, o.drawdown) && LessOne(ws, o.cumulative))
    && IsLeast(o.drawdown, o.maxDrawdown)
    && IsQuantile(o.daily, 0.05, o.var95) && IsQuantile(o.daily, 0.01, o.var99)
    && IsTailMean(o.daily, o.var95, o.cvar95)
  }

  ghost predicate LessOne(ws: seq<real>, cs: seq<real>) {
    |cs| == |ws| && forall k :: 0 <= k < |cs| ==> 1.0 + cs[k] == ws[k]
  }

  function Analyze(rs: seq<real>): Overview
    requires |rs| > 0 && forall i | 0 <= i < |rs| :: rs[i] > -1.0
  {
    WealthIsPositive(rs);
    var ws := Wealth(rs);
    var var95 := Quantile(rs, 0.05);
    var tail := Tail(rs, var95);
    Overview(rs, Cumulative(ws), DrawdownCurve(ws), var95, Quantile(rs, 0.01),
             if |tail| > 0 then Mean(tail) else var95, Least(DrawdownCurve(ws)))
  }

  /** For every portfolio whose days lose less than everything. */
  lemma AnalysisIsBounded(rs: seq<real>)
    requires |rs| > 0 && AboveTotalLoss(rs)
    ensures Bounded(Analyze(rs))
    ensures |Tail(rs, Quantile(rs, 0.05))| > 0
  {
    WealthIsPositive(rs);
    DrawdownsBounded(Wealth(rs));
    var worst := WorstBelowQuantile(rs, 0.01);
    QuantileMonotone(rs, 0.01, 0.05);
    TailMean(rs, 0.05, worst);
  }

  /** What each of its figures is. */
  lemma AnalysisIs(rs: seq<real>)
    requires |rs| > 0 && AboveTotalLoss(rs)
    ensures Analyze(rs).daily == rs && Analyzed(Analyze(rs))
  {
    AnalysisIsBounded(rs);
    WealthIsPositive(rs);
    WealthCompounds(rs);
    DrawdownsFallFromPeak(Wealth(rs));
    assert LessOne(Wealth(rs), Analyze(rs).cumulative);
    LeastIs(DrawdownCurve(Wealth(rs)));
    QuantileIs(rs, 0.05);
    QuantileIs(rs, 0.01);
    TailMeanIs(rs, Quantile(rs, 0.05));
  }

  // ---- one ticker --------------------------------------------------------------------------

  /** The returns of a portfolio that is one ticker and nothing else. */
  ghost predicate AllIn(ticker: Name, closes: map<Name, Closes>, dates: seq<int>, rs: seq<real>) {
    && |dates| == |rs| + 1
    && forall k :: 0 <= k < |rs| ==> rs[k] == DayReturn([Target(ticker, 100.0, 1.0)], closes, dates[k], dates[k + 1])
  }

  lemma AllInReturn(ticker: Name, closes: map<Name, Closes>, earlier: int, later: int)
    ensures DayReturn([Target(ticker, 100.0, 1.0)], closes, earlier, later)
         == Return(CloseOn(closes, ticker, earlier), CloseOn(closes, ticker, later))
  {
    var all := [Target(ticker, 100.0, 1.0)];
    assert all[..0] == [];
    assert DayReturn(all[..0], closes, earlier, later) == 0.0;
    var r := Return(CloseOn(closes, ticker, earlier), CloseOn(closes, ticker, later));
    assert Times(r, 1.0) == r;
  }

  lemma Regrows(before: real, after: real, r: real, first: real, earlier: real, later: real)
    requires earlier > 0.0 && Times(before, first) == earlier
    requires Grew(before, r, after) && r == Return(earlier, later)
    ensures Times(after, first) == later
  {
    var q := later / earlier;
    assert q * earlier == later;
    assert after == before * q;
    assert (before * q) * first == q * (before * first);
  }

  /** Wealth telescopes: it is the day's close over the first one. */
  lemma {:induction false} AllInWealth(ticker: Name, closes: map<Name, Closes>, dates: seq<int>,
      rs: seq<real>, k: nat)
    requires AllIn(ticker, closes, dates, rs) && k < |rs|
    ensures Times(Wealth(rs)[k], CloseOn(closes, ticker, dates[0])) == CloseOn(closes, ticker, dates[k + 1])
  {
    var first := CloseOn(closes, ticker, dates[0]);
    WealthCompounds(rs);
    AllInReturn(ticker, closes, dates[k], dates[k + 1]);
    if k > 0 {
      AllInWealth(ticker, closes, dates, rs, k - 1);
    }
    assert Grew(Before(Wealth(rs), k), rs[k], Wealth(rs)[k]);
    assert Times(1.0, first) == first;
    Regrows(Before(Wealth(rs), k), Wealth(rs)[k], rs[k], first, CloseOn(closes, ticker, dates[k]),
            CloseOn(closes, ticker, dates[k + 1]));
  }

  /** The close of a day is the highest so far. */
  ghost predicate HighestClose(closes: map<Name, Closes>, ticker: Name, dates: seq<int>, k: nat, j: nat)
    requires k < |dates|
  {
    j <= k && forall i :: 0 <= i <= k ==> CloseOn(closes, ticker, dates[i]) <= CloseOn(closes, ticker, dates[j])
  }

  lemma TimesAgain(x: real, y: real, z: real)
    ensures Times(x, Times(y, z)) == Times(Times(x, y), z)
  {
  }

  /** And its drawdown is the day's close over the highest one so far, less one. */
  lemma AllInDrawdown(ticker: Name, closes: map<Name, Closes>, dates: seq<int>, rs: seq<real>, k: nat)
      returns (top: nat)
    requires AllIn(ticker, closes, dates, rs) && k < |rs| && AboveTotalLoss(rs)
    ensures Positive(Wealth(rs)) && HighestClose(closes, ticker, dates, k + 1, top)
    ensures Times(1.0 + DrawdownCurve(Wealth(rs))[k], CloseOn(closes, ticker, dates[top]))
         == CloseOn(closes, ticker, dates[k + 1])
  {
    var ws, first := Wealth(rs), CloseOn(closes, ticker, dates[0]);
    WealthIsPositive(rs);
    var peak := DrawdownFallsFromPeak(ws, k);
    if peak == 1.0 {
      top := 0;
    } else {
      var j :| 0 <= j <= k && peak == ws[j];
      top := j + 1;
      AllInWealth(ticker, closes, dates, rs, j);
    }
    AllInWealth(ticker, closes, dates, rs, k);
    assert Times(peak, first) == CloseOn(closes, ticker, dates[top]);
    TimesAgain(1.0 + DrawdownCurve(ws)[k], peak, first);
    PeakIsHighest(ticker, closes, dates, rs, k, peak, top);
  }

  lemma PeakIsHighest(ticker: Name, closes: map<Name, Closes>, dates: seq<int>, rs: seq<real>, k: nat,
      peak: real, top: nat)
    requires AllIn(ticker, closes, dates, rs) && k < |rs| && top <= k + 1 && PeakUpTo(Wealth(rs), k, peak)
    requires Times(peak, CloseOn(closes, ticker, dates[0])) == CloseOn(closes, ticker, dates[top])
    ensures HighestClose(closes, ticker, dates, k + 1, top)
  {
    var first := CloseOn(closes, ticker, dates[0]);
    forall i | 0 <= i <= k + 1 ensures CloseOn(closes, ticker, dates[i]) <= CloseOn(closes, ticker, dates[top]) {
      if i == 0 {
        TimesMono(1.0, peak, first);
      } else {
        AllInWealth(ticker, closes, dates, rs, i - 1);
        TimesMono(Wealth(rs)[i - 1], peak, first);
      }
    }
  }

  // ---- close histories and their common dates ------------------------------------------------

  /** A market row: its date, None unless it is a text, and its close, None unless it is a
      finite number. */
  datatype MarketRow = MarketRow(date: Option<int>, close: Option<real>)

  predicate Usable(row: MarketRow) {
    row.date.Some? && row.close.Some? && row.close.value > 0.0
  }

  /** The closes of a history; of several rows of one date the last counts. */
  function ClosesOf(rows: seq<MarketRow>): Closes {
    if |rows| == 0 then map[]
    else
      var rest, last := ClosesOf(rows[..|rows| - 1]), rows[|rows| - 1];
      if Usable(last) then rest[last.date.value := last.close.value] else rest
  }

  /** The row is of this date, with a positive close. */
  predicate OfDate(row: MarketRow, d: int) {
    row.date == Some(d) && row.close.Some? && row.close.value > 0.0
  }

  /** Row `i` is the last such one of its date. */
  ghost predicate LastOfDate(rows: seq<MarketRow>, i: int, d: int) {
    && 0 <= i < |rows| && OfDate(rows[i], d)
    && forall j :: i < j < |rows| ==> !OfDate(rows[j], d)
  }

  /** A date has a close exactly when some usable row is of it, and then the last one's. */
  lemma {:induction false} ClosesAre(rows: seq<MarketRow>, d: int)
    ensures d in ClosesOf(rows) <==> exists i :: LastOfDate(rows, i, d)
    ensures forall i :: LastOfDate(rows, i, d) ==> ClosesOf(rows)[d] == rows[i].close.value
    decreases |rows|
  {
    if |rows| > 0 {
      var front, last := rows[..|rows| - 1], rows[|rows| - 1];
      ClosesAre(front, d);
      if OfDate(last, d) {
        assert LastOfDate(rows, |rows| - 1, d);
      } else {
        forall i ensures LastOfDate(rows, i, d) <==> LastOfDate(front, i, d) {
          assert 0 <= i < |front| ==> front[i] == rows[i];
        }
      }
    }
  }

  lemma {:induction false} ClosesArePositive(rows: seq<MarketRow>)
    ensures forall d :: d in ClosesOf(rows) ==> ClosesOf(rows)[d] > 0.0
    decreases |rows|
  {
    if |rows| > 0 {
      ClosesArePositive(rows[..|rows| - 1]);
    }
  }

  type Market = Name -> seq<MarketRow>

  method CollectCloses(rows: seq<MarketRow>) returns (closes: Closes)
    ensures closes == ClosesOf(rows)
  {
    closes := map[];
    for i := 0 to |rows|
      invariant closes == ClosesOf(rows[..i])
    {
      assert rows[..i + 1][..i] == rows[..i];
      if Usable(rows[i]) {
        closes := closes[rows[i].date.value := rows[i].close.value];
      }
    }
    assert rows[..|rows|] == rows;
  }

  /** The closes by ticker, for the tickers of an exposure. */
  ghost predicate ClosesFor(weights: seq<Target>, market: Market, closes: map<Name, Closes>) {
    forall w :: w in weights ==> w.ticker in closes && closes[w.ticker] == ClosesOf(market(w.ticker))
  }

  method CloseHistories(weights: seq<Target>, market: Market) returns (closes: map<Name, Closes>)
    ensures ClosesFor(weights, market, closes)
  {
    closes := map[];
    for i := 0 to |weights|
      invariant ClosesFor(weights[..i], market, closes)
    {
      var history := CollectCloses(market(weights[i].ticker));
      closes := closes[weights[i].ticker := history];
    }
    assert weights[..|weights|] == weights;
  }

  /** Every ticker has a close on this date. */
  ghost predicate Shared(weights: seq<Target>, market: Market, d: int) {
    forall w :: w in weights ==> d in ClosesOf(market(w.ticker))
  }

  /** `set.intersection` of the dates of all tickers. */
  method Intersection(weights: seq<Target>, market: Market, closes: map<Name, Closes>)
    returns (common: set<int>)
    requires |weights| > 0 && ClosesFor(weights, market, closes)
    ensures forall d :: d in common <==> Shared(weights, market, d)
  {
    assert weights[0] in weights;
    common := closes[weights[0].ticker].Keys;
    for i := 1 to |weights|
      invariant forall d :: d in common <==> Shared(weights[..i], market, d)
    {
      assert weights[i] in weights;
      SharedByOneMore(weights, market, i);
      common := common * closes[weights[i].ticker].Keys;
    }
    assert weights[..|weights|] == weights;
  }

  lemma SharedByOneMore(weights: seq<Target>, market: Market, i: nat)
    requires i < |weights|
    ensures forall d :: Shared(weights[..i + 1], market, d) <==>
      Shared(weights[..i], market, d) && d in ClosesOf(market(weights[i].ticker))
  {
    assert weights[..i + 1] == weights[..i] + [weights[i]];
  }

  lemma HasElement(s: set<int>)
    ensures s == {} || exists d :: d in s
  {
    if forall d :: d !in s {
      assert s == {};
    }
  }

  method SortedDates(common: set<int>) returns (dates: seq<int>)
    ensures Ascending(dates) && forall d :: d in dates <==> d in common
  {
    dates := [];
    var rest := common;
    while rest != {}
      invariant rest <= common && Ascending(dates)
      invariant forall d :: d in dates <==> d in common && d !in rest
      decreases |rest|
    {
      HasElement(rest);
      var d :| d in rest;
      InsertKeeps(dates, d);
      dates := InsertKey(dates, d);
      rest := rest - {d};
    }
  }

  /** The latest shared dates, at most as many as are looked back on: in order, and with
      none left out that is shared and not before them. */
  ghost predicate LatestShared(weights: seq<Target>, market: Market, lookback: int, dates: seq<int>) {
    && Ascending(dates) && |dates| <= lookback
    && (forall d :: d in dates ==> Shared(weights, market, d))
    && (forall d :: Shared(weights, market, d) && d !in dates ==>
          0 < |dates| == lookback && d < dates[0])
  }

  lemma CutIsLatest(weights: seq<Target>, market: Market, lookback: nat, all: seq<int>)
    requires Ascending(all) && lookback > 0 && forall d :: d in all <==> Shared(weights, market, d)
    ensures LatestShared(weights, market, lookback, if |all| > lookback then all[|all| - lookback..] else all)
  {
    if |all| > lookback {
      var cut := |all| - lookback;
      var dates := all[cut..];
      forall d | Shared(weights, market, d) && d !in dates ensures d < dates[0] {
        assert all == all[..cut] + dates;
        assert d in all[..cut];
      }
    }
  }

  /** `common_dates` */
  method CommonDates(weights: seq<Target>, market: Market, closes: map<Name, Closes>, lookback: nat)
    returns (dates: seq<int>)
    requires |weights| > 0 && ClosesFor(weights, market, closes) && lookback > 0
    ensures LatestShared(weights, market, lookback, dates)
  {
    var common := Intersection(weights, market, closes);
    var all := SortedDates(common);
    CutIsLatest(weights, market, lookback, all);
    dates := if |all| > lookback then all[|all| - lookback..] else all;
  }

  lemma SharedIsCovered(weights: seq<Target>, market: Market, closes: map<Name, Closes>, dates: seq<int>)
    requires ClosesFor(weights, market, closes) && forall d :: d in dates ==> Shared(weights, market, d)
    ensures Covered(weights, closes, dates)
  {
    forall w, d | w in weights && d in dates
      ensures w.ticker in closes && d in closes[w.ticker] && closes[w.ticker][d] > 0.0
    {
      ClosesArePositive(market(w.ticker));
      assert Shared(weights, market, d);
    }
  }

  // ---- the overview --------------------------------------------------------------------------

  const MAX_LOOKBACK_DAYS := 252

  datatype OverviewResult =
    | LookbackRefused
    | Empty(status: RiskStatus, dates: seq<int>)
    | Full(overview: Overview, dates: seq<int>)

  /** The daily returns are those of the exposure over the dates. */
  ghost predicate DailyOf(weights: seq<Target>, market: Market, dates: seq<int>, daily: seq<real>) {
    exists closes :: ClosesFor(weights, market, closes) && |daily| == |dates| - 1
      && forall k :: 0 <= k < |daily| ==> daily[k] == DayReturn(weights, closes, dates[k], dates[k + 1])
  }

  /** The returns over dates that all tickers share, and their analysis. */
  method AnalyzeDates(e: Exposure, market: Market, closes: map<Name, Closes>, dates: seq<int>)
    returns (o: Overview)
    requires Invested(e) && ClosesFor(e.weights, market, closes) && Covered(e.weights, closes, dates) && |dates| > 1
    ensures Bounded(o) && Analyzed(o) && DailyOf(e.weights, market, dates, o.daily)
  {
    var portfolio := PortfolioReturns(e.weights, closes, dates);
    forall k | 0 <= k < |portfolio| ensures portfolio[k] > -1.0 {
      DayLosesLess(e.weights, closes, dates[k], dates[k + 1]);
    }
    AnalysisIsBounded(portfolio);
    AnalysisIs(portfolio);
    o := Analyze(portfolio);
  }

  predicate LookbackAllowed(lookback: int) {
    MIN_COMMON_DATES <= lookback <= MAX_LOOKBACK_DAYS
  }

  /** Refused exactly for a lookback out of range, empty without a complete exposure or with
      fewer than sixty shared dates, and otherwise over the latest shared dates. */
  ghost predicate OverviewIs(e: Exposure, market: Market, lookback: int, r: OverviewResult) {
    && (r == LookbackRefused <==> lookback < 60 || lookback > 252)
    && (r != LookbackRefused && e.status != Complete ==> r == Empty(e.status, []))
    && (r != LookbackRefused && e.status == Complete ==> LatestShared(e.weights, market, lookback, r.dates))
    && (r.Empty? && e.status == Complete ==> r.status == Partial && |r.dates| < 60)
    && (r.Full? ==>
          && |r.dates| >= 60
          && Bounded(r.overview) && Analyzed(r.overview)
          && DailyOf(e.weights, market, r.dates, r.overview.daily))
  }

  /** `overview` */
  method ComputeOverview(e: Exposure, market: Market, lookback: int) returns (r: OverviewResult)
    requires e.status == Complete ==> Invested(e)
    ensures OverviewIs(e, market, lookback, r)
  {
    if !LookbackAllowed(lookback) {
      return LookbackRefused;
    }
    if e.status != Complete {
      return Empty(e.status, []);
    }
    var closes := CloseHistories(e.weights, market);
    var dates := CommonDates(e.weights, market, closes, lookback);
    if |dates| < MIN_COMMON_DATES {
      return Empty(Partial, dates);
    }
    SharedIsCovered(e.weights, market, closes, dates);
    var overview := AnalyzeDates(e, market, closes, dates);
    return Full(overview, dates);
  }

  // ---- stress --------------------------------------------------------------------------------

  /** The impact of a uniform shock: the invested share of it. */
  function ShockImpact(e: Exposure, shock: real): Option<real> {
    match e.grossExposure
    case None => None
    case Some(gross) => Some(Times(shock, gross))
  }

  /** Every close moves by the shock from one date to the other. */
  ghost predicate Shocked(weights: seq<Target>, closes: map<Name, Closes>, earlier: int, later: int, shock: real) {
    forall w :: w in weights ==>
      CloseOn(closes, w.ticker, later) == Times(1.0 + shock, CloseOn(closes, w.ticker, earlier))
  }

  /** A day on which every close moves by the shock returns the shock times what is invested. */
  lemma {:induction false} ShockIsADay(weights: seq<Target>, closes: map<Name, Closes>, earlier: int,
      later: int, shock: real)
    requires Shocked(weights, closes, earlier, later, shock)
    ensures DayReturn(weights, closes, earlier, later) == Times(shock, TotalWeight(weights))
    decreases |weights|
  {
    if |weights| > 0 {
      var last := weights[|weights| - 1];
      ShockIsADay(weights[..|weights| - 1], closes, earlier, later, shock);
      ReturnOfShock(CloseOn(closes, last.ticker, earlier), shock);
      assert Times(shock, TotalWeight(weights[..|weights| - 1]) + last.weight)
          == Times(shock, TotalWeight(weights[..|weights| - 1])) + Times(shock, last.weight);
    }
  }

  lemma ReturnOfShock(earlier: real, shock: real)
    requires earlier > 0.0
    ensures Return(earlier, Times(1.0 + shock, earlier)) == shock
  {
    QuotientBound(Times(1.0 + shock, earlier), earlier, 1.0 + shock);
  }

  /** The impact is the return of such a day, and never more than is invested. */
  lemma ShockIsBounded(e: Exposure, shock: real)
    requires Invested(e) && -1.0 <= shock <= 1.0
    ensures ShockImpact(e, shock).Some?
    ensures forall closes, earlier, later :: Shocked(e.weights, closes, earlier, later, shock) ==>
      ShockImpact(e, shock) == Some(DayReturn(e.weights, closes, earlier, later))
    ensures -TotalWeight(e.weights) <= ShockImpact(e, shock).value <= TotalWeight(e.weights)
  {
    var gross := TotalWeight(e.weights);
    TimesMono(shock, 1.0, gross);
    TimesMono(-1.0, shock, gross);
    assert Times(1.0, gross) == gross && Times(-1.0, gross) == -gross;
    forall closes, earlier, later | Shocked(e.weights, closes, earlier, later, shock)
      ensures ShockImpact(e, shock) == Some(DayReturn(e.weights, closes, earlier, later))
    {
      ShockIsADay(e.weights, closes, earlier, later, shock);
    }
  }

  datatype WorstDay = WorstDay(date: int, impact: real)

  datatype StressResult =
    | ShockRefused
    | StressLookbackRefused
    | Stressed(worst: Option<WorstDay>, impact: Option<real>)

  /** `np.argmin`: the first of the worst days. */
  method WorstIndex(daily: seq<real>) returns (worst: nat)
    requires |daily| > 0
    ensures worst < |daily|
    ensures forall i :: 0 <= i < |daily| ==> daily[worst] <= daily[i]
    ensures forall i :: 0 <= i < worst ==> daily[worst] < daily[i]
  {
    worst := 0;
    for i := 1 to |daily|
      invariant worst < i && forall j :: 0 <= j < i ==> daily[worst] <= daily[j]
      invariant forall j :: 0 <= j < worst ==> daily[worst] < daily[j]
    {
      if daily[i] < daily[worst] {
        worst := i;
      }
    }
  }

  /** The date a day's return ends on, and that the return is the first of the worst. */
  ghost predicate IsWorstDay(r: OverviewResult, day: WorstDay) {
    r.Full? && |r.dates| == |r.overview.daily| + 1
    && exists k :: 0 <= k < |r.overview.daily| && day == WorstDay(r.dates[k + 1], r.overview.daily[k])
         && (forall i :: 0 <= i < |r.overview.daily| ==> r.overview.daily[k] <= r.overview.daily[i])
         && (forall i :: 0 <= i < k ==> r.overview.daily[k] < r.overview.daily[i])
  }

  /** `stress` */
  method Stress(e: Exposure, market: Market, shock: real, lookback: int)
    returns (r: StressResult, o: OverviewResult)
    requires e.status == Complete ==> Invested(e)
    ensures OverviewIs(e, market, lookback, o)
    ensures r == ShockRefused <==> !(-1.0 <= shock <= 1.0)
    ensures r == StressLookbackRefused <==> -1.0 <= shock <= 1.0 && !LookbackAllowed(lookback)
    ensures r.Stressed? ==> r.impact == ShockImpact(e, shock) && (r.worst.Some? <==> o.Full?)
    ensures r.Stressed? && r.worst.Some? ==> IsWorstDay(o, r.worst.value)
  {
    o := ComputeOverview(e, market, lookback);
    if !(-1.0 <= shock <= 1.0) {
      return ShockRefused, o;
    }
    if o == LookbackRefused {
      return StressLookbackRefused, o;
    }
    var worst := None;
    if o.Full? {
      var k := WorstIndex(o.overview.daily);
      worst := Some(WorstDay(o.dates[k + 1], o.overview.daily[k]));
    }
    r := Stressed(worst, ShockImpact(e, shock));
  }
}
