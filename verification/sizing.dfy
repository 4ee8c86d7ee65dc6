/** Whole-share sizing of a target weight at the open
    (broker/backtest_runner.py, `_place_pending_target_order`).

    `Desired` is the closed form of the source.  The independent definition it is
    proved against is `IsLargestWithin`: the weight of `want` shares, measured after
    the slippage and commission of moving from the current holding to `want`, is at
    most the target, and no larger whole number has that property. */
module Sizing {
  import opened Reals
  import opened Pricing

  /** Cost per share bought, over the open: slippage plus commission. */
  function BuyCost(open: real, slippage: real, commission: real): real {
    open * slippage + open * (1.0 + slippage) * commission
  }

  /** Cost per share sold, under the open. */
  function SellCost(open: real, slippage: real, commission: real): real {
    open * slippage + SellPrice(open, slippage) * commission
  }

  lemma CostBounds(open: real, s: real, c: real)
    requires 0.0 <= s < 1.0 && 0.0 <= c < 1.0 && open > 0.0
    ensures BuyCost(open, s, c) >= 0.0
    ensures 0.0 <= SellCost(open, s, c) < open
    ensures open * (1.0 + s) * (1.0 + c) == open + BuyCost(open, s, c)
    ensures SellPrice(open, s) * (1.0 - c) == open - SellCost(open, s, c)
  {
    MulNonNeg(open, s);
    MulPos(open, 1.0 + s);
    MulNonNeg(open * (1.0 + s), c);
    MulPos(open, 1.0 - s);
    assert SellPrice(open, s) == open - open * s;
    MulNonNeg(SellPrice(open, s), c);
    MulStrict(c, 1.0, SellPrice(open, s));
  }

  /** An amount after paying `cost` on each of `n` units. */
  function Less(amount: real, n: real, cost: real): real {
    amount - n * cost
  }

  /** Equity, marked at the open, after moving from `have` to `want` shares. */
  function EquityAfter(buy: real, sell: real, equity: real, have: int, want: int): real {
    if want >= have
    then Less(equity, (want - have) as real, buy)
    else Less(equity, (have - want) as real, sell)
  }

  /** Holding `want` shares weighs at most `t` of the equity left after costs. */
  predicate WithinTarget(buy: real, sell: real, open: real, equity: real, t: real, have: int, want: int) {
    want as real * open <= t * EquityAfter(buy, sell, equity, have, want)
  }

  /** `want` is the largest whole number of shares within the target. */
  ghost predicate IsLargestWithin(buy: real, sell: real, open: real, equity: real, t: real,
      have: int, want: int) {
    && 0 <= want
    && WithinTarget(buy, sell, open, equity, t, have, want)
    && forall other: int :: other > want ==> !WithinTarget(buy, sell, open, equity, t, have, other)
  }

  /** What the inputs of a sizing call look like in any long-only run: the equity
      covers the shares held, that is, cash is not negative. */
  predicate Sizable(buy: real, sell: real, open: real, equity: real, t: real, have: int) {
    && 0.0 <= buy && 0.0 <= sell < open
    && open > 0.0
    && equity >= have as real * open
    && 0.0 <= t <= 1.0
    && have >= 0
  }

  function UncostedShares(open: real, equity: real, t: real): int
    requires open > 0.0
  {
    FloorDiv(equity * t, open)
  }

  function BuySolution(buy: real, open: real, equity: real, t: real, have: int): int
    requires open + t * buy > 0.0
  {
    FloorDiv(t * (equity + have as real * buy), open + t * buy)
  }

  function SellSolution(sell: real, open: real, equity: real, t: real, have: int): int
    requires Less(open, t, sell) > 0.0
  {
    FloorDiv(t * Less(equity, have as real, sell), Less(open, t, sell))
  }

  function Affordable(buy: real, open: real, cash: real): int
    requires open + buy > 0.0
  {
    FloorDiv(cash, open + buy)
  }

  lemma Denominators(buy: real, sell: real, open: real, t: real)
    requires 0.0 <= buy && 0.0 <= sell < open && open > 0.0 && 0.0 <= t <= 1.0
    ensures open + t * buy > 0.0 && Less(open, t, sell) > 0.0
  {
    MulNonNeg(t, buy);
    MulMono(t, 1.0, sell);
  }

  /** The share count the source settles on, with its clamp and its cap. */
  function Desired(buy: real, sell: real, open: real, cash: real, equity: real, t: real, have: int): int
    requires Sizable(buy, sell, open, equity, t, have)
  {
    Denominators(buy, sell, open, t);
    var raw :=
      if UncostedShares(open, equity, t) >= have
      then BuySolution(buy, open, equity, t, have)
      else SellSolution(sell, open, equity, t, have);
    var clamped := if raw >= 0 then raw else 0;
    if clamped > have then
      var cap := have + Affordable(buy, open, cash);
      if cap < clamped then cap else clamped
    else clamped
  }

  // ---- both solutions against the definition --------------------------------

  lemma UncostedDecides(open: real, equity: real, t: real, have: int)
    requires open > 0.0
    ensures UncostedShares(open, equity, t) >= have <==> have as real * open <= t * equity
  {
    FloorOfQuotient(equity * t, open, have);
  }

  lemma MoveAlgebra(p: real, b: real, t: real, e: real, h: real, w: real, moved: real)
    requires moved == w - h
    ensures w * (p + t * b) <= t * (e + h * b) <==> w * p <= t * Less(e, moved, b)
  {
    assert w * (p + t * b) == w * p + t * (w * b);
    assert t * (e + h * b) == t * e + t * (h * b);
    assert t * (e - moved * b) == t * e - t * (w * b) + t * (h * b);
  }

  lemma BuySide(buy: real, sell: real, open: real, equity: real, t: real, have: int, want: int)
    requires Sizable(buy, sell, open, equity, t, have)
    requires want >= have
    ensures open + t * buy > 0.0
    ensures want <= BuySolution(buy, open, equity, t, have) <==> WithinTarget(buy, sell, open, equity, t, have, want)
  {
    Denominators(buy, sell, open, t);
    FloorOfQuotient(t * (equity + have as real * buy), open + t * buy, want);
    MoveAlgebra(open, buy, t, equity, have as real, want as real, (want - have) as real);
  }

  lemma SellAlgebra(p: real, a: real, t: real, e: real, h: real, w: real, moved: real)
    requires moved == h - w
    ensures w * Less(p, t, a) <= t * Less(e, h, a) <==> w * p <= t * Less(e, moved, a)
  {
    assert w * (p - t * a) == w * p - t * (w * a);
    assert t * (e - h * a) == t * e - t * (h * a);
    assert t * (e - moved * a) == t * e - t * (h * a) + t * (w * a);
  }

  lemma AfterSale(buy: real, sell: real, equity: real, have: int, want: int)
    requires want <= have
    ensures EquityAfter(buy, sell, equity, have, want) == Less(equity, (have - want) as real, sell)
  {
  }

  lemma SellSide(buy: real, sell: real, open: real, equity: real, t: real, have: int, want: int)
    requires Sizable(buy, sell, open, equity, t, have)
    requires want <= have
    ensures Less(open, t, sell) > 0.0
    ensures want <= SellSolution(sell, open, equity, t, have) <==> WithinTarget(buy, sell, open, equity, t, have, want)
  {
    Denominators(buy, sell, open, t);
    FloorOfQuotient(t * Less(equity, have as real, sell), Less(open, t, sell), want);
    SellAlgebra(open, sell, t, equity, have as real, want as real, (have - want) as real);
    AfterSale(buy, sell, equity, have, want);
  }

  /** When the current holding is already too heavy, every larger one is. */
  lemma NothingAbove(buy: real, sell: real, open: real, equity: real, t: real, have: int, want: int)
    requires Sizable(buy, sell, open, equity, t, have)
    requires have as real * open > t * equity
    requires want > have
    ensures !WithinTarget(buy, sell, open, equity, t, have, want)
  {
    MulNonNeg((want - have) as real, buy);
    MulMono(EquityAfter(buy, sell, equity, have, want), equity, t);
    MulStrict(have as real, want as real, open);
  }

  lemma FractionBelow(t: real, after: real, value: real)
    requires 0.0 <= t <= 1.0 && 0.0 <= value <= t * after
    ensures value > 0.0 || after >= 0.0 ==> value <= after
  {
    if after < 0.0 {
      MulNonNeg(t, -after);
      assert t * -after == -(t * after);
    } else {
      MulMono(t, 1.0, after);
    }
  }

  /** A buy that stays within a target of at most one never overdraws the cash. */
  lemma WithinIsAffordable(buy: real, sell: real, open: real, cash: real, equity: real, t: real,
      have: int, want: int)
    requires Sizable(buy, sell, open, equity, t, have)
    requires equity == cash + have as real * open
    requires want >= have
    requires WithinTarget(buy, sell, open, equity, t, have, want)
    ensures (want - have) as real * (open + buy) <= cash
    ensures want - have <= Affordable(buy, open, cash)
  {
    var after := EquityAfter(buy, sell, equity, have, want);
    MulNonNeg(want as real, open);
    FractionBelow(t, after, want as real * open);
    if want > 0 { MulPos(want as real, open); }
    assert want as real * open <= after;
    Spend(want as real, have as real, (want - have) as real, open, buy);
    FloorOfQuotient(cash, open + buy, want - have);
  }

  lemma Spend(w: real, h: real, n: real, open: real, buy: real)
    requires n == w - h
    ensures n * (open + buy) == w * open - h * open + n * buy
  {
  }

  // ---- main results ---------------------------------------------------------

  lemma ZeroIsWithin(buy: real, sell: real, open: real, equity: real, t: real, have: int)
    requires Sizable(buy, sell, open, equity, t, have)
    ensures have > 0 || equity >= 0.0
    ensures WithinTarget(buy, sell, open, equity, t, have, 0)
  {
    MulMono(sell, open, have as real);
    MulNonNeg(t, EquityAfter(buy, sell, equity, have, 0));
  }

  lemma BuyBranch(buy: real, sell: real, open: real, cash: real, equity: real, t: real, have: int)
    requires Sizable(buy, sell, open, equity, t, have) && equity == cash + have as real * open
    requires UncostedShares(open, equity, t) >= have && open + t * buy > 0.0
    ensures have <= BuySolution(buy, open, equity, t, have) <= have + Affordable(buy, open, cash)
  {
    UncostedDecides(open, equity, t, have);
    BuySide(buy, sell, open, equity, t, have, have);
    var want := BuySolution(buy, open, equity, t, have);
    BuySide(buy, sell, open, equity, t, have, want);
    WithinIsAffordable(buy, sell, open, cash, equity, t, have, want);
  }

  lemma SellBranch(buy: real, sell: real, open: real, equity: real, t: real, have: int)
    requires Sizable(buy, sell, open, equity, t, have)
    requires UncostedShares(open, equity, t) < have && Less(open, t, sell) > 0.0
    ensures 0 <= SellSolution(sell, open, equity, t, have) < have
  {
    UncostedDecides(open, equity, t, have);
    SellSide(buy, sell, open, equity, t, have, have);
    ZeroIsWithin(buy, sell, open, equity, t, have);
    SellSide(buy, sell, open, equity, t, have, 0);
  }

  /** The buy branch never sells and the sell branch always sells; neither the clamp
      at zero nor the affordability cap ever changes the closed form. */
  lemma DesiredBranches(buy: real, sell: real, open: real, cash: real, equity: real, t: real, have: int)
    requires Sizable(buy, sell, open, equity, t, have)
    requires equity == cash + have as real * open
    ensures open + t * buy > 0.0 && Less(open, t, sell) > 0.0
    ensures UncostedShares(open, equity, t) >= have ==>
      && Desired(buy, sell, open, cash, equity, t, have) == BuySolution(buy, open, equity, t, have)
      && have <= Desired(buy, sell, open, cash, equity, t, have) <= have + Affordable(buy, open, cash)
    ensures UncostedShares(open, equity, t) < have ==>
      && Desired(buy, sell, open, cash, equity, t, have) == SellSolution(sell, open, equity, t, have)
      && 0 <= Desired(buy, sell, open, cash, equity, t, have) < have
  {
    Denominators(buy, sell, open, t);
    if UncostedShares(open, equity, t) >= have {
      BuyBranch(buy, sell, open, cash, equity, t, have);
    } else {
      SellBranch(buy, sell, open, equity, t, have);
    }
  }

  lemma DesiredIsLargest(buy: real, sell: real, open: real, cash: real, equity: real, t: real, have: int)
    requires Sizable(buy, sell, open, equity, t, have)
    requires equity == cash + have as real * open
    ensures IsLargestWithin(buy, sell, open, equity, t, have, Desired(buy, sell, open, cash, equity, t, have))
  {
    UncostedDecides(open, equity, t, have);
    DesiredBranches(buy, sell, open, cash, equity, t, have);
    var want := Desired(buy, sell, open, cash, equity, t, have);
    if UncostedShares(open, equity, t) >= have {
      BuySide(buy, sell, open, equity, t, have, want);
      forall other: int | other > want ensures !WithinTarget(buy, sell, open, equity, t, have, other) {
        BuySide(buy, sell, open, equity, t, have, other);
      }
    } else {
      SellSide(buy, sell, open, equity, t, have, want);
      forall other: int | other > want ensures !WithinTarget(buy, sell, open, equity, t, have, other) {
        if other <= have {
          SellSide(buy, sell, open, equity, t, have, other);
        } else {
          NothingAbove(buy, sell, open, equity, t, have, other);
        }
      }
    }
  }

  /** The largest count within the target is unique, so `Desired` is that definition. */
  lemma LargestIsDesired(buy: real, sell: real, open: real, cash: real, equity: real, t: real,
      have: int, want: int)
    requires Sizable(buy, sell, open, equity, t, have)
    requires equity == cash + have as real * open
    ensures IsLargestWithin(buy, sell, open, equity, t, have, want)
       <==> want == Desired(buy, sell, open, cash, equity, t, have)
  {
    DesiredIsLargest(buy, sell, open, cash, equity, t, have);
  }
}
