/** Quantiles and tail means of daily returns (risk/service.py: `np.quantile` with linear
    interpolation, and the mean of the days at or below one). */
module RiskStatistics {
  import opened Reals
  import opened Pricing

  lemma TimesMono(x: real, y: real, z: real)
    requires x <= y && z >= 0.0
    ensures Times(x, z) <= Times(y, z)
  {
    MulMono(x, y, z);
  }

  // ---- quantiles ---------------------------------------------------------------------------

  ghost predicate Ordered(xs: seq<real>) {
    forall i, j :: 0 <= i <= j < |xs| ==> xs[i] <= xs[j]
  }

  function Insert(xs: seq<real>, x: real): seq<real> {
    if |xs| == 0 || xs[|xs| - 1] <= x then xs + [x] else Insert(xs[..|xs| - 1], x) + [xs[|xs| - 1]]
  }

  function Sorted(xs: seq<real>): (ys: seq<real>) {
    if |xs| == 0 then [] else Insert(Sorted(xs[..|xs| - 1]), xs[|xs| - 1])
  }

  lemma {:induction false} InsertMembers(xs: seq<real>, x: real, y: real)
    ensures y in Insert(xs, x) <==> y in xs || y == x
    decreases |xs|
  {
    if |xs| > 0 && xs[|xs| - 1] > x {
      InsertMembers(xs[..|xs| - 1], x, y);
      assert xs == xs[..|xs| - 1] + [xs[|xs| - 1]];
    }
  }

  lemma {:induction false} InsertMultiset(xs: seq<real>, x: real)
    ensures multiset(Insert(xs, x)) == multiset(xs) + multiset{x}
    decreases |xs|
  {
    if |xs| > 0 && xs[|xs| - 1] > x {
      InsertMultiset(xs[..|xs| - 1], x);
      assert xs == xs[..|xs| - 1] + [xs[|xs| - 1]];
    }
  }

  lemma OrderedAppend(xs: seq<real>, x: real)
    requires Ordered(xs) && forall i :: 0 <= i < |xs| ==> xs[i] <= x
    ensures Ordered(xs + [x])
  {
  }

  lemma {:induction false} InsertKeepsOrdered(xs: seq<real>, x: real)
    requires Ordered(xs)
    ensures Ordered(Insert(xs, x))
    decreases |xs|
  {
    if |xs| == 0 || xs[|xs| - 1] <= x {
      OrderedAppend(xs, x);
    } else {
      var front, last := xs[..|xs| - 1], xs[|xs| - 1];
      InsertKeepsOrdered(front, x);
      var ys := Insert(front, x);
      forall i | 0 <= i < |ys| ensures ys[i] <= last {
        InsertMembers(front, x, ys[i]);
        assert ys[i] in ys;
      }
      OrderedAppend(ys, last);
    }
  }

  lemma {:induction false} SortedIsOrdered(xs: seq<real>)
    ensures Ordered(Sorted(xs)) && multiset(Sorted(xs)) == multiset(xs) && |Sorted(xs)| == |xs|
    decreases |xs|
  {
    if |xs| > 0 {
      SortedIsOrdered(xs[..|xs| - 1]);
      InsertKeepsOrdered(Sorted(xs[..|xs| - 1]), xs[|xs| - 1]);
      InsertMultiset(Sorted(xs[..|xs| - 1]), xs[|xs| - 1]);
      assert xs == xs[..|xs| - 1] + [xs[|xs| - 1]];
      assert |multiset(Sorted(xs))| == |multiset(xs)|;
    }
  }

  function Blend(x: real, y: real, g: real): real {
    x + Times(g, y - x)
  }

  /** Between two neighbours of an ordered list. */
  function Interpolate(xs: seq<real>, position: real): real
    requires |xs| > 0 && 0.0 <= position <= (|xs| - 1) as real
  {
    var k := position.Floor;
    if k + 1 < |xs| then Blend(xs[k], xs[k + 1], position - k as real) else xs[k]
  }

  /** Where the quantile lies among the ordered values. */
  function Position(q: real, n: nat): (p: real)
    requires 0.0 <= q <= 1.0
    ensures 0.0 <= p <= n as real
  {
    FractionOf(q, n as real);
    Times(q, n as real)
  }

  lemma FractionOf(q: real, x: real)
    requires 0.0 <= q <= 1.0 && x >= 0.0
    ensures 0.0 <= Times(q, x) <= x
  {
    MulNonNeg(q, x);
    MulMono(q, 1.0, x);
  }

  /** `np.quantile(..., method="linear")` */
  function Quantile(xs: seq<real>, q: real): real
    requires |xs| > 0 && 0.0 <= q <= 1.0
  {
    SortedIsOrdered(xs);
    Interpolate(Sorted(xs), Position(q, |xs| - 1))
  }

  /** An interpolated value lies between its neighbours. */
  lemma BetweenNeighbours(xs: seq<real>, position: real)
    requires |xs| > 0 && Ordered(xs) && 0.0 <= position <= (|xs| - 1) as real
    ensures xs[position.Floor] <= Interpolate(xs, position)
    ensures position.Floor + 1 < |xs| ==> Interpolate(xs, position) <= xs[position.Floor + 1]
  {
    var k := position.Floor;
    if k + 1 < |xs| {
      FractionOf(position - k as real, xs[k + 1] - xs[k]);
    }
  }

  lemma BlendMonotone(x: real, y: real, g: real, h: real)
    requires x <= y && g <= h
    ensures Blend(x, y, g) <= Blend(x, y, h)
  {
    MulMono(g, h, y - x);
  }

  lemma InterpolateMonotone(xs: seq<real>, p: real, q: real)
    requires |xs| > 0 && Ordered(xs) && 0.0 <= p <= q <= (|xs| - 1) as real
    ensures Interpolate(xs, p) <= Interpolate(xs, q)
  {
    BetweenNeighbours(xs, p);
    BetweenNeighbours(xs, q);
    var k := p.Floor;
    if k == q.Floor {
      if k + 1 < |xs| {
        BlendMonotone(xs[k], xs[k + 1], p - k as real, q - k as real);
      }
    } else {
      assert k + 1 <= q.Floor;
      assert xs[k + 1] <= xs[q.Floor];
    }
  }

  lemma QuantileMonotone(xs: seq<real>, p: real, q: real)
    requires |xs| > 0 && 0.0 <= p <= q <= 1.0
    ensures Quantile(xs, p) <= Quantile(xs, q)
  {
    SortedIsOrdered(xs);
    TimesMono(p, q, (|xs| - 1) as real);
    InterpolateMonotone(Sorted(xs), Position(p, |xs| - 1), Position(q, |xs| - 1));
  }

  /** The first of the ordered values is the least of all, and below any quantile. */
  lemma LeastIsFirst(xs: seq<real>) returns (worst: nat)
    requires |xs| > 0
    ensures |Sorted(xs)| == |xs| && worst < |xs| && xs[worst] == Sorted(xs)[0]
    ensures forall i :: 0 <= i < |xs| ==> xs[worst] <= xs[i]
  {
    SortedIsOrdered(xs);
    var ys := Sorted(xs);
    assert ys[0] in multiset(ys);
    assert ys[0] in multiset(xs);
    worst :| 0 <= worst < |xs| && xs[worst] == ys[0];
    forall i | 0 <= i < |xs| ensures ys[0] <= xs[i] {
      assert xs[i] in multiset(xs);
      assert xs[i] in multiset(ys);
    }
  }

  /** The worst day is no better than any quantile. */
  lemma WorstBelowQuantile(xs: seq<real>, q: real) returns (worst: nat)
    requires |xs| > 0 && 0.0 <= q <= 1.0
    ensures worst < |xs| && xs[worst] <= Quantile(xs, q)
    ensures forall i :: 0 <= i < |xs| ==> xs[worst] <= xs[i]
  {
    worst := LeastIsFirst(xs);
    SortedIsOrdered(xs);
    var p := Position(q, |xs| - 1);
    BetweenNeighbours(Sorted(xs), p);
    assert Sorted(xs)[0] <= Sorted(xs)[p.Floor];
  }

  // ---- the tail ----------------------------------------------------------------------------

  /** `portfolio[portfolio <= var]` */
  function Tail(xs: seq<real>, limit: real): seq<real> {
    if |xs| == 0 then []
    else
      var rest, last := Tail(xs[..|xs| - 1], limit), xs[|xs| - 1];
      if last <= limit then rest + [last] else rest
  }

  function Mean(xs: seq<real>): real
    requires |xs| > 0
  {
    Sum(xs) / |xs| as real
  }

  lemma {:induction false} TailMembers(xs: seq<real>, limit: real, x: real)
    ensures x in Tail(xs, limit) <==> x in xs && x <= limit
    decreases |xs|
  {
    if |xs| > 0 {
      TailMembers(xs[..|xs| - 1], limit, x);
      assert xs == xs[..|xs| - 1] + [xs[|xs| - 1]];
    }
  }

  lemma {:induction false} SumBounds(xs: seq<real>, low: real, high: real)
    requires forall i :: 0 <= i < |xs| ==> low <= xs[i] <= high
    ensures |xs| as real * low <= Sum(xs) <= |xs| as real * high
    decreases |xs|
  {
    if |xs| > 0 {
      SumBounds(xs[..|xs| - 1], low, high);
      OneMore(|xs| - 1, low);
      OneMore(|xs| - 1, high);
    }
  }

  lemma OneMore(n: nat, x: real)
    ensures (n + 1) as real * x == n as real * x + x
  {
  }

  lemma MeanBetween(xs: seq<real>, low: real, high: real)
    requires |xs| > 0 && forall i :: 0 <= i < |xs| ==> low <= xs[i] <= high
    ensures low <= Mean(xs) <= high
  {
    SumBounds(xs, low, high);
    QuotientBound(Sum(xs), |xs| as real, low);
    QuotientBound(Sum(xs), |xs| as real, high);
    assert low * |xs| as real == |xs| as real * low && high * |xs| as real == |xs| as real * high;
  }

  /** The tail of the worst five percent is never empty, and its mean lies between the
      worst day and the quantile it is cut at. */
  lemma TailMean(xs: seq<real>, q: real, worst: nat)
    requires |xs| > 0 && 0.0 <= q <= 1.0 && worst < |xs|
    requires forall i :: 0 <= i < |xs| ==> xs[worst] <= xs[i]
    requires xs[worst] <= Quantile(xs, q)
    ensures |Tail(xs, Quantile(xs, q))| > 0
    ensures xs[worst] <= Mean(Tail(xs, Quantile(xs, q))) <= Quantile(xs, q)
  {
    var v := Quantile(xs, q);
    var tail := Tail(xs, v);
    TailMembers(xs, v, xs[worst]);
    forall i | 0 <= i < |tail| ensures xs[worst] <= tail[i] <= v {
      TailMembers(xs, v, tail[i]);
    }
    MeanBetween(tail, xs[worst], v);
  }

  // ---- what they are ------------------------------------------------------------------------

  function Count(xs: seq<real>, p: real -> bool): (n: nat)
    ensures n <= |xs|
  {
    if |xs| == 0 then 0 else Count(xs[..|xs| - 1], p) + if p(xs[|xs| - 1]) then 1 else 0
  }

  function Under(v: real): real -> bool {
    x => x < v
  }

  function UpTo(v: real): real -> bool {
    x => x <= v
  }

  /** Value `v` is the `k`-th smallest, counting from zero: at most `k` are under it, and
      more than `k` are not over it. */
  ghost predicate Ranks(xs: seq<real>, k: nat, v: real) {
    Count(xs, Under(v)) <= k < Count(xs, UpTo(v))
  }

  /** Position `k + g` lies at a fraction `q` of `n + 1` values in order, and `v` is the
      `k`-th smallest, moved a fraction `g` of the way to the next. */
  ghost predicate QuantileAt(xs: seq<real>, q: real, v: real, k: nat, g: real, x: real, y: real) {
    && 0.0 <= g < 1.0 && k as real + g == Times(q, (|xs| - 1) as real)
    && Ranks(xs, k, x) && (g == 0.0 || Ranks(xs, k + 1, y))
    && v == if g == 0.0 then x else Times(1.0 - g, x) + Times(g, y)
  }

  /** The quantile, by counting. */
  ghost predicate IsQuantile(xs: seq<real>, q: real, v: real) {
    exists k: nat, g: real, x: real, y: real :: QuantileAt(xs, q, v, k, g, x, y)
  }

  lemma {:induction false} CountSplits(xs: seq<real>, ys: seq<real>, p: real -> bool)
    ensures Count(xs + ys, p) == Count(xs, p) + Count(ys, p)
    decreases |ys|
  {
    if |ys| == 0 {
      assert xs + ys == xs;
    } else {
      CountSplits(xs, ys[..|ys| - 1], p);
      assert (xs + ys)[..|xs + ys| - 1] == xs + ys[..|ys| - 1];
    }
  }

  lemma {:induction false} CountInserted(xs: seq<real>, x: real, p: real -> bool)
    ensures Count(Insert(xs, x), p) == Count(xs, p) + if p(x) then 1 else 0
    decreases |xs|
  {
    if |xs| == 0 || xs[|xs| - 1] <= x {
      assert (xs + [x])[..|xs|] == xs;
    } else {
      var front, last := xs[..|xs| - 1], xs[|xs| - 1];
      CountInserted(front, x, p);
      assert (Insert(front, x) + [last])[..|Insert(front, x)|] == Insert(front, x);
    }
  }

  /** Sorting does not change how many there are of anything. */
  lemma {:induction false} CountSorted(xs: seq<real>, p: real -> bool)
    ensures Count(Sorted(xs), p) == Count(xs, p)
    decreases |xs|
  {
    if |xs| > 0 {
      CountSorted(xs[..|xs| - 1], p);
      CountInserted(Sorted(xs[..|xs| - 1]), xs[|xs| - 1], p);
    }
  }

  lemma {:induction false} CountNone(xs: seq<real>, p: real -> bool)
    requires forall i :: 0 <= i < |xs| ==> !p(xs[i])
    ensures Count(xs, p) == 0
    decreases |xs|
  {
    if |xs| > 0 {
      CountNone(xs[..|xs| - 1], p);
    }
  }

  lemma {:induction false} CountAll(xs: seq<real>, p: real -> bool)
    requires forall i :: 0 <= i < |xs| ==> p(xs[i])
    ensures Count(xs, p) == |xs|
    decreases |xs|
  {
    if |xs| > 0 {
      CountAll(xs[..|xs| - 1], p);
    }
  }

  lemma OrderedRanks(ys: seq<real>, k: nat)
    requires Ordered(ys) && k < |ys|
    ensures Ranks(ys, k, ys[k])
  {
    var v := ys[k];
    assert ys == ys[..k] + ys[k..] && ys == ys[..k + 1] + ys[k + 1..];
    CountSplits(ys[..k], ys[k..], Under(v));
    CountNone(ys[k..], Under(v));
    CountSplits(ys[..k + 1], ys[k + 1..], UpTo(v));
    CountAll(ys[..k + 1], UpTo(v));
  }

  lemma SortedRanks(xs: seq<real>, k: nat)
    requires k < |xs|
    ensures |Sorted(xs)| == |xs| && Ranks(xs, k, Sorted(xs)[k])
  {
    SortedIsOrdered(xs);
    OrderedRanks(Sorted(xs), k);
    CountSorted(xs, Under(Sorted(xs)[k]));
    CountSorted(xs, UpTo(Sorted(xs)[k]));
  }

  lemma BlendIsMix(x: real, y: real, g: real)
    ensures Blend(x, y, g) == Times(1.0 - g, x) + Times(g, y)
    ensures Blend(x, y, 0.0) == x
  {
  }

  lemma QuantileIs(xs: seq<real>, q: real)
    requires |xs| > 0 && 0.0 <= q <= 1.0
    ensures IsQuantile(xs, q, Quantile(xs, q))
  {
    SortedIsOrdered(xs);
    var ys, p := Sorted(xs), Position(q, |xs| - 1);
    var k := p.Floor;
    var g := p - k as real;
    SortedRanks(xs, k);
    if k + 1 < |xs| {
      SortedRanks(xs, k + 1);
      BlendIsMix(ys[k], ys[k + 1], g);
      assert QuantileAt(xs, q, Quantile(xs, q), k, g, ys[k], ys[k + 1]);
    } else {
      assert QuantileAt(xs, q, Quantile(xs, q), k, 0.0, ys[k], ys[k]);
    }
  }

  /** Two values of one rank are equal. */
  lemma RankIsUnique(xs: seq<real>, k: nat, v: real, w: real)
    requires Ranks(xs, k, v) && Ranks(xs, k, w)
    ensures v == w
  {
    if v < w {
      CountMono(xs, UpTo(v), Under(w));
    } else if w < v {
      CountMono(xs, UpTo(w), Under(v));
    }
  }

  lemma {:induction false} CountMono(xs: seq<real>, p: real -> bool, r: real -> bool)
    requires forall x :: p(x) ==> r(x)
    ensures Count(xs, p) <= Count(xs, r)
    decreases |xs|
  {
    if |xs| > 0 {
      CountMono(xs[..|xs| - 1], p, r);
    }
  }

  /** So the quantile is the only number that is one. */
  lemma QuantileIsUnique(xs: seq<real>, q: real, v: real)
    requires |xs| > 0 && 0.0 <= q <= 1.0 && IsQuantile(xs, q, v)
    ensures v == Quantile(xs, q)
  {
    QuantileIs(xs, q);
    SameQuantile(xs, q, v, Quantile(xs, q));
  }

  lemma SameQuantile(xs: seq<real>, q: real, v: real, w: real)
    requires |xs| > 0 && IsQuantile(xs, q, v) && IsQuantile(xs, q, w)
    ensures v == w
  {
    var k: nat, g: real, x: real, y: real :| QuantileAt(xs, q, v, k, g, x, y);
    var k': nat, g': real, x': real, y': real :| QuantileAt(xs, q, w, k', g', x', y');
    assert k == k' && g == g';
    RankIsUnique(xs, k, x, x');
    if g != 0.0 {
      RankIsUnique(xs, k + 1, y, y');
    }
  }

  /** The sum of the values not over a limit. */
  function SumUpTo(xs: seq<real>, limit: real): real {
    if |xs| == 0 then 0.0 else SumUpTo(xs[..|xs| - 1], limit) + if xs[|xs| - 1] <= limit then xs[|xs| - 1] else 0.0
  }

  lemma {:induction false} TailSums(xs: seq<real>, limit: real)
    ensures |Tail(xs, limit)| == Count(xs, UpTo(limit)) && Sum(Tail(xs, limit)) == SumUpTo(xs, limit)
    decreases |xs|
  {
    if |xs| > 0 {
      TailSums(xs[..|xs| - 1], limit);
      var rest := Tail(xs[..|xs| - 1], limit);
      assert (rest + [xs[|xs| - 1]])[..|rest|] == rest;
    }
  }

  /** Times their number, the mean of the values not over a limit is their sum. */
  ghost predicate IsTailMean(xs: seq<real>, limit: real, mean: real) {
    && Count(xs, UpTo(limit)) > 0
    && Times(mean, Count(xs, UpTo(limit)) as real) == SumUpTo(xs, limit)
  }

  lemma TailMeanIs(xs: seq<real>, limit: real)
    requires |Tail(xs, limit)| > 0
    ensures IsTailMean(xs, limit, Mean(Tail(xs, limit)))
  {
    TailSums(xs, limit);
    var n := |Tail(xs, limit)| as real;
    assert Sum(Tail(xs, limit)) / n * n == Sum(Tail(xs, limit));
  }
}
