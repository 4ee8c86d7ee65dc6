/** Drawdown of an equity series (broker/ledger.py, `compute_metrics` and
    `_calculate_max_drawdown_duration`; broker/backtest_runner.py, `_drawdown`). */
module Drawdown {
  import opened BrokerModels
  import opened Reals

  ghost predicate Positive(es: seq<real>) {
    forall i :: 0 <= i < |es| ==> es[i] > 0.0
  }

  /** `1 - later / earlier` */
  function Fall(earlier: real, later: real): real
    requires earlier > 0.0
  {
    1.0 - later / earlier
  }

  /** `equity.cummax()` up to and including the last entry. */
  function Peak(es: seq<real>): real
    requires |es| > 0
  {
    if |es| == 1 then es[0] else Max(Peak(es[..|es| - 1]), es[|es| - 1])
  }

  lemma {:induction false} PeakIsMaximum(es: seq<real>)
    requires |es| > 0
    ensures Peak(es) in es
    ensures forall i :: 0 <= i < |es| ==> es[i] <= Peak(es)
  {
    if |es| > 1 {
      var rest := es[..|es| - 1];
      PeakIsMaximum(rest);
      assert forall i :: 0 <= i < |rest| ==> es[i] == rest[i];
    }
  }

  /** The drawdown series `1 - equity / equity.cummax()`. */
  function Drawdowns(es: seq<real>): (ds: seq<real>)
    requires Positive(es)
    ensures |ds| == |es|
  {
    if |es| == 0 then []
    else
      PeakIsMaximum(es);
      Drawdowns(es[..|es| - 1]) + [Fall(Peak(es), es[|es| - 1])]
  }

  lemma {:induction false} DrawdownAt(es: seq<real>, j: nat)
    requires Positive(es) && j < |es|
    ensures Peak(es[..j + 1]) > 0.0
    ensures Drawdowns(es)[j] == Fall(Peak(es[..j + 1]), es[j])
  {
    PeakIsMaximum(es[..j + 1]);
    if j + 1 < |es| {
      DrawdownAt(es[..|es| - 1], j);
      assert es[..|es| - 1][..j + 1] == es[..j + 1];
    } else {
      assert es[..j + 1] == es;
    }
  }

  lemma QuotientOf(earlier: real, later: real) returns (q: real)
    requires earlier > 0.0 && later > 0.0
    ensures q > 0.0 && q * earlier == later && Fall(earlier, later) == 1.0 - q
  {
    q := later / earlier;
    assert q * earlier == later;
    if q <= 0.0 {
      MulMono(q, 0.0, earlier);
    }
  }

  lemma QuotientMonotone(earlier: real, higher: real, later: real)
    requires 0.0 < earlier <= higher && later > 0.0
    ensures 0.0 < later / higher <= later / earlier
  {
    QuotientBound(later, higher, 0.0);
    var q := later / higher;
    assert q * higher == later;
    MulMono(earlier, higher, q);
    QuotientBound(later, earlier, q);
  }

  /** Falling to the same level from a higher start is a deeper drawdown. */
  lemma FallMonotone(earlier: real, higher: real, later: real)
    requires 0.0 < earlier <= higher && later > 0.0
    ensures Fall(earlier, later) <= Fall(higher, later) < 1.0
  {
    QuotientMonotone(earlier, higher, later);
  }

  lemma FallSign(earlier: real, later: real)
    requires earlier > 0.0 && later > 0.0
    ensures Fall(earlier, later) > 0.0 <==> later < earlier
    ensures Fall(earlier, later) >= 0.0 <==> later <= earlier
  {
    QuotientBound(later, earlier, 1.0);
  }

  /** The drawdown of day `j` bounds every fall that ends on it, and is one of them. */
  lemma DrawdownIsDeepestEndingAt(es: seq<real>, j: nat) returns (from: nat)
    requires Positive(es) && j < |es|
    ensures from <= j && Drawdowns(es)[j] == Fall(es[from], es[j])
    ensures forall i :: 0 <= i <= j ==> Fall(es[i], es[j]) <= Drawdowns(es)[j]
    ensures forall i :: 0 <= i <= j ==> es[i] <= es[from]
  {
    DrawdownAt(es, j);
    var upTo := es[..j + 1];
    PeakIsMaximum(upTo);
    from :| 0 <= from < |upTo| && upTo[from] == Peak(upTo);
    forall i | 0 <= i <= j ensures Fall(es[i], es[j]) <= Drawdowns(es)[j] && es[i] <= es[from] {
      assert upTo[i] == es[i];
      FallMonotone(es[i], Peak(upTo), es[j]);
    }
  }

  /** The single running-peak pass finds the deepest fall over all pairs i <= j. */
  lemma MaxDrawdownIsDeepestFall(es: seq<real>)
    requires |es| > 0 && Positive(es)
    ensures 0.0 <= Peak(Drawdowns(es)) < 1.0
    ensures exists i, j :: 0 <= i <= j < |es| && Peak(Drawdowns(es)) == Fall(es[i], es[j])
    ensures forall i, j :: 0 <= i <= j < |es| ==> Fall(es[i], es[j]) <= Peak(Drawdowns(es))
  {
    var ds := Drawdowns(es);
    PeakIsMaximum(ds);
    var j :| 0 <= j < |ds| && ds[j] == Peak(ds);
    var i := DrawdownIsDeepestEndingAt(es, j);
    FallMonotone(es[i], es[i], es[j]);
    FallSign(es[j], es[j]);
    forall a, b | 0 <= a <= b < |es| ensures Fall(es[a], es[b]) <= Peak(ds) {
      var _ := DrawdownIsDeepestEndingAt(es, b);
      assert ds[b] <= Peak(ds);
    }
  }

  /** The drawdown is positive exactly on the days strictly below an earlier level. */
  lemma PositiveMeansBelowPeak(es: seq<real>, j: nat)
    requires Positive(es) && j < |es|
    ensures Drawdowns(es)[j] > 0.0 <==> exists i :: 0 <= i < j && es[i] > es[j]
    ensures Drawdowns(es)[j] >= 0.0
  {
    var from := DrawdownIsDeepestEndingAt(es, j);
    FallSign(es[from], es[j]);
    assert es[j] <= es[from];
    if es[from] > es[j] {
      assert from < j;
    }
  }

  // ---- any equity ------------------------------------------------------------

  /** What dividing by the running peak gives when that may be zero or negative. */
  datatype Figure = Number(value: real) | Infinite | NotANumber

  function FigureOf(peak: real, equity: real): Figure {
    if peak != 0.0 then Number(1.0 - equity / peak)
    else if equity == 0.0 then NotANumber
    else Infinite
  }

  /** The drawdown series of any equities. */
  function Figures(es: seq<real>): (fs: seq<Figure>)
    ensures |fs| == |es|
  {
    if |es| == 0 then [] else Figures(es[..|es| - 1]) + [FigureOf(Peak(es), es[|es| - 1])]
  }

  predicate Above(f: Figure, g: Figure) {
    f.Infinite? || (f.Number? && g.Number? && f.value >= g.value)
  }

  /** `drawdowns.max()`, which skips entries that are not a number. */
  function Deepest(fs: seq<Figure>): Figure {
    if |fs| == 0 then NotANumber
    else
      var rest, last := Deepest(fs[..|fs| - 1]), fs[|fs| - 1];
      if last.NotANumber? then rest
      else if rest.NotANumber? || Above(last, rest) then last
      else rest
  }

  lemma {:induction false} DeepestIsMaximum(fs: seq<Figure>)
    ensures Deepest(fs).NotANumber? <==> forall i :: 0 <= i < |fs| ==> fs[i].NotANumber?
    ensures !Deepest(fs).NotANumber? ==> Deepest(fs) in fs
    ensures forall i :: 0 <= i < |fs| && !fs[i].NotANumber? ==> Above(Deepest(fs), fs[i])
  {
    if |fs| > 0 {
      var rest := fs[..|fs| - 1];
      DeepestIsMaximum(rest);
      assert forall i :: 0 <= i < |rest| ==> fs[i] == rest[i];
    }
  }

  /** Positive equities have ordinary drawdowns. */
  lemma {:induction false} FiguresOfPositive(es: seq<real>)
    requires Positive(es)
    ensures forall i :: 0 <= i < |es| ==> Figures(es)[i] == Number(Drawdowns(es)[i])
  {
    if |es| > 0 {
      FiguresOfPositive(es[..|es| - 1]);
      PeakIsMaximum(es);
    }
  }

  /** So their maximum is the ordinary one. */
  lemma {:induction false} DeepestOfPositive(es: seq<real>)
    requires Positive(es) && |es| > 0
    ensures Deepest(Figures(es)) == Number(Peak(Drawdowns(es)))
  {
    var front := es[..|es| - 1];
    FiguresOfPositive(es);
    assert Figures(es)[..|es| - 1] == Figures(front);
    assert Drawdowns(es)[..|es| - 1] == Drawdowns(front);
    if |es| > 1 {
      DeepestOfPositive(front);
    } else {
      assert Deepest(Figures(front)).NotANumber?;
    }
  }

  lemma {:induction false} FigureAt(es: seq<real>, j: nat)
    requires j < |es|
    ensures Figures(es)[j] == FigureOf(Peak(es[..j + 1]), es[j])
  {
    if j + 1 < |es| {
      FigureAt(es[..|es| - 1], j);
      assert es[..|es| - 1][..j + 1] == es[..j + 1];
    } else {
      assert es[..j + 1] == es;
    }
  }

  /** `drawdown > 0` */
  predicate UnderWater(f: Figure) {
    f.Infinite? || (f.Number? && f.value > 0.0)
  }

  lemma NegativeRatio(peak: real, equity: real)
    requires equity <= peak && peak != 0.0
    ensures 1.0 - equity / peak > 0.0 <==> peak > 0.0 && equity < peak
  {
    if peak > 0.0 {
      QuotientBound(equity, peak, 1.0);
    } else {
      QuotientBound(-equity, -peak, 1.0);
      assert equity / peak == -equity / -peak;
    }
  }

  /** The day of the running peak. */
  lemma PeakDay(es: seq<real>, j: nat) returns (from: nat)
    requires j < |es|
    ensures from <= j && es[from] == Peak(es[..j + 1])
    ensures forall i :: 0 <= i <= j ==> es[i] <= es[from]
  {
    var upTo := es[..j + 1];
    PeakIsMaximum(upTo);
    from :| 0 <= from < |upTo| && upTo[from] == Peak(upTo);
    assert forall i :: 0 <= i <= j ==> es[i] == upTo[i];
  }

  /** Exactly which days count as under water: those below an earlier equity, unless
      every equity so far was negative. */
  lemma UnderWaterExactly(es: seq<real>, j: nat)
    requires j < |es|
    ensures UnderWater(Figures(es)[j]) <==>
      (exists i :: 0 <= i < j && es[i] > es[j]) && (exists i :: 0 <= i <= j && es[i] >= 0.0)
  {
    FigureAt(es, j);
    var from := PeakDay(es, j);
    if es[from] != 0.0 {
      NegativeRatio(es[from], es[j]);
    }
  }

  // ---- duration -------------------------------------------------------------

  /** All of fs[from..to) is under water. */
  ghost predicate Stretch(fs: seq<Figure>, from: int, to: int) {
    && 0 <= from <= to <= |fs|
    && forall k :: from <= k < to ==> UnderWater(fs[k])
  }

  ghost predicate IsLongestStretch(fs: seq<Figure>, n: int) {
    && (exists from, to :: Stretch(fs, from, to) && to - from == n)
    && (forall from, to :: Stretch(fs, from, to) ==> to - from <= n)
  }

  lemma LongestIsUnique(fs: seq<Figure>, m: int, n: int)
    requires IsLongestStretch(fs, m) && IsLongestStretch(fs, n)
    ensures m == n
  {
  }

  lemma NotThrough(fs: seq<Figure>, from: int, to: int, k: nat)
    requires Stretch(fs, from, to) && k < |fs| && !UnderWater(fs[k])
    ensures !(from <= k < to)
  {
  }

  /** `_calculate_max_drawdown_duration` */
  method MaxDrawdownDuration(fs: seq<Figure>) returns (longest: nat)
    ensures IsLongestStretch(fs, longest)
  {
    longest := 0;
    var current := 0;
    ghost var best := 0;
    for i := 0 to |fs|
      invariant 0 <= current <= i && current <= longest
      invariant Stretch(fs, i - current, i)
      invariant current == i || !UnderWater(fs[i - current - 1])
      invariant Stretch(fs, best, best + longest)
      invariant forall from, to :: Stretch(fs, from, to) && to <= i ==> to - from <= longest
    {
      if UnderWater(fs[i]) {
        current := current + 1;
        if current > longest {
          longest := current;
          best := i + 1 - current;
        }
        forall from, to | Stretch(fs, from, to) && to <= i + 1 ensures to - from <= longest {
          if current <= i { NotThrough(fs, from, to, i - current); }
        }
      } else {
        current := 0;
        forall from, to | Stretch(fs, from, to) && to <= i + 1 ensures to - from <= longest {
          NotThrough(fs, from, to, i);
        }
      }
    }
  }
}
