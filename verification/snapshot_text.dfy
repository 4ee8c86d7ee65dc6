/** Encoding price frames as canonical text, and the validator that reads them back
    (agent/backtest_jobs.py, storage/backtest_snapshot.py).

    `limit` is the first magnitude that overflows a binary double; every result holds for
    any limit. */
module SnapshotText {
  import opened BrokerModels
  import opened Reals
  import opened CanonicalDecimal

  /** The precision of the default decimal context. */
  const PRECISION: nat := 28

  /** x / p, rounded half to even. */
  function HalfEven(x: nat, p: nat): nat
    requires p > 0
  {
    var q, r := x / p, x % p;
    if 2 * r > p || (2 * r == p && q % 2 == 1) then q + 1 else q
  }

  /** Rounding to a number of significant digits. */
  function RoundTo(d: Dec, precision: nat): Dec {
    var excess := |Digits(d.coeff)| - precision;
    if excess <= 0 then d else Dec(d.negative, HalfEven(d.coeff, Pow10(excess)), d.exp + excess)
  }

  /** Rounding to the context precision. */
  function Round(d: Dec): Dec {
    RoundTo(d, PRECISION)
  }

  /** `math.isfinite(float(d))` */
  predicate Finite(d: Dec, limit: nat) {
    if d.exp >= 0 then d.coeff * Pow10(d.exp) < limit else d.coeff < limit * Pow10(-d.exp)
  }

  /** `format(d.normalize(), "f")`, with zero spelled "0". */
  function CanonicalText(d: Dec): string {
    var text := Print(Normalize(Round(d)));
    if text == "" || text == "-0" then "0" else text
  }

  /** The encoder: None stands for the error on a value that is not finite. */
  function Encode(value: Dec, limit: nat): Option<string> {
    if Finite(value, limit) then Some(CanonicalText(value)) else None
  }

  /** The validator's reading of a text; the empty string when it is no finite number. */
  function Reformat(raw: string, limit: nat): string {
    match Parse(raw)
    case None => ""
    case Some(d) => if Finite(d, limit) then CanonicalText(d) else ""
  }

  predicate Accepts(raw: string, limit: nat) {
    Reformat(raw, limit) == raw
  }

  /** The size of a decimal, as a real number. */
  function Magnitude(d: Dec): real {
    if d.exp >= 0 then (d.coeff * Pow10(d.exp)) as real else d.coeff as real / Pow10(-d.exp) as real
  }

  /** Finite is below the limit. */
  lemma FiniteIsBelow(d: Dec, limit: nat)
    ensures Finite(d, limit) <==> Magnitude(d) < limit as real
  {
    if d.exp < 0 {
      QuotientBound(d.coeff as real, Pow10(-d.exp) as real, limit as real);
      assert limit as real * Pow10(-d.exp) as real == (limit * Pow10(-d.exp)) as real;
    }
  }

  // ---- lengths and rounding ------------------------------------------------------------

  lemma {:induction false} DigitsLength(n: nat, m: nat)
    requires m > 0
    ensures |Digits(n)| <= m <==> n < Pow10(m)
    decreases m
  {
    if m > 1 && n >= 10 {
      DigitsLength(n / 10, m - 1);
      assert n < 10 * Pow10(m - 1) <==> n / 10 < Pow10(m - 1);
    }
  }

  lemma QuotientIsUnique(q: int, r: int, x: int, p: int)
    requires 0 <= r < p && x * p == q * p + r
    ensures q == x && r == 0
  {
    Difference(x, q, p);
    if x - q >= 1 {
      AtLeast(x - q, p);
    } else if x - q <= -1 {
      AtLeast(q - x, p);
      Difference(q, x, p);
    }
  }

  lemma Difference(x: int, q: int, p: int)
    ensures (x - q) * p == x * p - q * p
  {
  }

  lemma AtLeast(x: int, p: int)
    requires x >= 1 && p > 0
    ensures x * p >= p
  {
  }

  lemma DivideExactly(x: nat, p: nat)
    requires p > 0
    ensures HalfEven(x * p, p) == x
  {
    QuotientIsUnique((x * p) / p, (x * p) % p, x, p);
  }

  /** Writing out the zeros of a number that fits the precision loses nothing. */
  lemma RoundsBack(d: Dec, precision: nat)
    requires Canonical(d) && |Digits(d.coeff)| <= precision && precision > 0
    ensures Normalize(RoundTo(Reread(d), precision)) == d
  {
    RereadNormalizes(d);
    DigitsLength(d.coeff, precision);
    var written := Reread(d);
    var n := |Digits(written.coeff)| - precision;
    if n > 0 {
      if d.exp >= 0 && d.coeff != 0 {
        var k: nat := d.exp;
        ScaledLength(d.coeff, k, precision);
        PowSplit(k - n, n);
        Regroup(d.coeff, Pow10(k - n), Pow10(n));
        DivideExactly(d.coeff * Pow10(k - n), Pow10(n));
        StripAll(d.negative, d.coeff, k - n, n);
      }
    }
  }

  /** Scaling by 10^k adds at most k digits. */
  lemma ScaledLength(c: nat, k: nat, precision: nat)
    requires c < Pow10(precision) && precision > 0
    ensures |Digits(c * Pow10(k))| <= precision + k
  {
    PowSplit(precision, k);
    ScaleStrict(c, Pow10(precision), Pow10(k));
    DigitsLength(c * Pow10(k), precision + k);
  }

  lemma ScaleStrict(x: nat, y: nat, p: nat)
    requires x < y && p > 0
    ensures x * p < y * p
  {
  }

  lemma RoundedSmall(d: Dec, precision: nat)
    requires precision > 0
    ensures RoundTo(d, precision).coeff <= Pow10(precision)
  {
    var n := |Digits(d.coeff)| - precision;
    if n <= 0 {
      DigitsLength(d.coeff, precision);
    } else {
      DigitsLength(d.coeff, precision + n);
      PowSplit(precision, n);
      DivideBelow(d.coeff, Pow10(precision), Pow10(n));
    }
  }

  /** Rounding leaves at most the precision's digits. */
  lemma RoundFits(d: Dec, precision: nat)
    requires precision > 0
    ensures |Digits(Normalize(RoundTo(d, precision)).coeff)| <= precision
  {
    var r := RoundTo(d, precision);
    RoundedSmall(d, precision);
    NormalizeShrinks(r);
    PowerEndsInZero(precision);
    DigitsLength(Normalize(r).coeff, precision);
  }

  lemma TenTimes(k: nat)
    ensures (10 * k) % 10 == 0
  {
  }

  lemma {:induction false} PowerEndsInZero(n: nat)
    requires n > 0
    ensures Pow10(n) % 10 == 0
  {
    assert Pow10(n) == 10 * Pow10(n - 1);
    TenTimes(Pow10(n - 1));
  }

  lemma DivideBelow(x: nat, y: nat, p: nat)
    requires p > 0 && x < y * p
    ensures HalfEven(x, p) <= y
  {
    var q := x / p;
    assert q * p <= x;
    if q >= y {
      ScaleUp(y, q, p);
    }
  }

  lemma ScaleUp(y: nat, q: nat, p: nat)
    requires y <= q
    ensures y * p <= q * p
  {
  }

  lemma {:induction false} NormalizeShrinks(d: Dec)
    ensures Normalize(d).coeff <= d.coeff
    ensures d.coeff != 0 && d.coeff % 10 == 0 ==> Normalize(d).coeff < d.coeff
    decreases d.coeff
  {
    if d.coeff != 0 && d.coeff % 10 == 0 {
      NormalizeShrinks(Dec(d.negative, d.coeff / 10, d.exp + 1));
    }
  }

  // ---- range ---------------------------------------------------------------------------

  lemma {:induction false} NormalizeKeepsRange(d: Dec, limit: nat)
    ensures d.coeff != 0 ==> (Finite(Normalize(d), limit) <==> Finite(d, limit))
    decreases d.coeff
  {
    if d.coeff != 0 && d.coeff % 10 == 0 {
      var e := Dec(d.negative, d.coeff / 10, d.exp + 1);
      NormalizeKeepsRange(e, limit);
      StripKeepsRange(d, e, limit);
    }
  }

  lemma StripKeepsRange(d: Dec, e: Dec, limit: nat)
    requires d.coeff == 10 * e.coeff && e.exp == d.exp + 1
    ensures Finite(d, limit) <==> Finite(e, limit)
  {
    if d.exp >= 0 {
      assert Pow10(e.exp) == 10 * Pow10(d.exp);
      Regroup(e.coeff, 10, Pow10(d.exp));
    } else if d.exp == -1 {
      assert Pow10(1) == 10 * Pow10(0) && Pow10(0) == 1;
    } else {
      assert Pow10(-d.exp) == 10 * Pow10(-e.exp);
      Regroup(limit, 10, Pow10(-e.exp));
      TenScale(e.coeff, limit * Pow10(-e.exp));
    }
  }

  lemma TenScale(x: int, y: int)
    ensures 10 * x < 10 * y <==> x < y
  {
  }

  lemma RereadKeepsRange(d: Dec, limit: nat)
    ensures Finite(Reread(d), limit) <==> Finite(d, limit)
  {
  }

  // ---- main results -----------------------------------------------------------------------

  /** A number as it is spelled: canonical, within the precision, and not minus zero. */
  predicate Spelled(c: Dec) {
    Canonical(c) && |Digits(c.coeff)| <= PRECISION && !(c.coeff == 0 && c.negative)
  }

  lemma ZeroText(d: Dec)
    requires d.coeff == 0 && d.exp == 0
    ensures Print(d) == if d.negative then "-0" else "0"
  {
    assert Digits(0) == "0";
    assert "0" + Zeros(0) == "0";
    assert "-" + "0" == "-0";
    assert "" + "0" == "0";
  }

  lemma OnlyZeroPrintsZero(d: Dec)
    requires Canonical(d)
    ensures Print(d) != ""
    ensures Print(d) == "-0" <==> d.coeff == 0 && d.negative
  {
    MagnitudeParses(d.coeff, d.exp);
    PrintParses(d);
    if d.coeff == 0 {
      ZeroText(d);
    }
    if Print(d) == "-0" {
      var zero := Dec(true, 0, 0);
      ZeroText(zero);
      PrintParses(zero);
      assert Reread(d) == Reread(zero);
      RereadNormalizes(d);
    }
  }

  /** What the canonical text of a number spells. */
  function Spelling(d: Dec): Dec {
    var n := Normalize(Round(d));
    if n.coeff == 0 then Dec(false, 0, 0) else n
  }

  lemma TextSpells(d: Dec)
    ensures Spelled(Spelling(d)) && CanonicalText(d) == Print(Spelling(d))
  {
    var n := Normalize(Round(d));
    RoundFits(d, PRECISION);
    NormalizeIsCanonical(Round(d));
    OnlyZeroPrintsZero(n);
    if n.coeff == 0 {
      ZeroText(n);
      ZeroText(Dec(false, 0, 0));
    }
  }

  /** A spelled number is read back as itself and spelled the same again. */
  lemma SpelledIsFixed(c: Dec)
    requires Spelled(c)
    ensures Parse(Print(c)) == Some(Reread(c))
    ensures CanonicalText(Reread(c)) == Print(c)
  {
    PrintParses(c);
    RoundsBack(c, PRECISION);
    OnlyZeroPrintsZero(c);
  }

  /** The validator accepts exactly the empty string and the spellings of finite numbers.
      The empty string is accepted because the marker for "no number" is itself empty. */
  lemma AcceptsExactly(raw: string, limit: nat)
    ensures Accepts(raw, limit) <==> raw == "" || exists c :: Spelled(c) && Finite(c, limit) && raw == Print(c)
  {
    if Accepts(raw, limit) && raw != "" {
      var d := Parse(raw).value;
      TextSpells(d);
      var c := Spelling(d);
      SpelledIsFixed(c);
      RereadKeepsRange(c, limit);
      assert Spelled(c) && Finite(c, limit) && raw == Print(c);
    }
    if c :| Spelled(c) && Finite(c, limit) && raw == Print(c) {
      SpelledIsFixed(c);
      RereadKeepsRange(c, limit);
    }
  }

  /** Normalizing text is idempotent. */
  lemma TextIsIdempotent(d: Dec)
    ensures Parse(CanonicalText(d)).Some?
    ensures CanonicalText(Parse(CanonicalText(d)).value) == CanonicalText(d)
  {
    TextSpells(d);
    SpelledIsFixed(Spelling(d));
  }

  /** Each number has one accepted spelling. */
  lemma OneSpelling(raw: string, other: string, limit: nat)
    requires raw != "" && other != "" && Accepts(raw, limit) && Accepts(other, limit)
    requires SameValue(Parse(raw).value, Parse(other).value)
    ensures raw == other
  {
    var d, e := Parse(raw).value, Parse(other).value;
    TextSpells(d);
    TextSpells(e);
    SpelledIsFixed(Spelling(d));
    SpelledIsFixed(Spelling(e));
    RereadNormalizes(Spelling(d));
    RereadNormalizes(Spelling(e));
    SameNormal(d, e);
  }

  /** Equal numbers normalize to the same form, minus zero apart. */
  lemma SameNormal(d: Dec, e: Dec)
    requires SameValue(d, e)
    ensures Normalize(d) == Normalize(e) || (d.coeff == 0 && e.coeff == 0)
  {
    NormalizeIsCanonical(d);
    NormalizeIsCanonical(e);
    if d.coeff != 0 && e.coeff != 0 {
      NormalizeScales(d);
      NormalizeScales(e);
      SameScaled(Normalize(d), Normalize(e), d, e);
      CanonicalIsUnique(Normalize(d), Normalize(e));
    } else {
      OneZero(d, e);
    }
  }

  lemma OneZero(d: Dec, e: Dec)
    requires SameValue(d, e) && (d.coeff == 0 || e.coeff == 0)
    ensures d.coeff == 0 && e.coeff == 0
  {
    var low := if d.exp <= e.exp then d.exp else e.exp;
    if d.coeff == 0 {
      ZeroProduct(e.coeff, Pow10(e.exp - low));
    } else {
      ZeroProduct(d.coeff, Pow10(d.exp - low));
    }
  }

  lemma ZeroProduct(x: nat, p: nat)
    requires p > 0 && x * p == 0
    ensures x == 0
  {
  }

  /** The stripped forms have the same value. */
  lemma SameScaled(m: Dec, n: Dec, d: Dec, e: Dec)
    requires SameValue(d, e) && d.coeff != 0 && e.coeff != 0
    requires m.exp >= d.exp && d.coeff == m.coeff * Pow10(m.exp - d.exp) && m.negative == d.negative
    requires n.exp >= e.exp && e.coeff == n.coeff * Pow10(n.exp - e.exp) && n.negative == e.negative
    ensures SameValue(m, n)
  {
    var low := if d.exp <= e.exp then d.exp else e.exp;
    PowSplit(m.exp - d.exp, d.exp - low);
    PowSplit(n.exp - e.exp, e.exp - low);
    Regroup(m.coeff, Pow10(m.exp - d.exp), Pow10(d.exp - low));
    Regroup(n.coeff, Pow10(n.exp - e.exp), Pow10(e.exp - low));
    assert m.coeff * Pow10(m.exp - low) == n.coeff * Pow10(n.exp - low);
    CommonScale(m, n, low);
  }

  lemma CommonScale(m: Dec, n: Dec, low: int)
    requires low <= m.exp && low <= n.exp
    requires m.coeff * Pow10(m.exp - low) == n.coeff * Pow10(n.exp - low)
    requires m.negative == n.negative
    ensures SameValue(m, n)
  {
    var top := if m.exp <= n.exp then m.exp else n.exp;
    PowSplit(m.exp - top, top - low);
    PowSplit(n.exp - top, top - low);
    Regroup(m.coeff, Pow10(m.exp - top), Pow10(top - low));
    Regroup(n.coeff, Pow10(n.exp - top), Pow10(top - low));
    CancelPower(m.coeff * Pow10(m.exp - top), n.coeff * Pow10(n.exp - top), Pow10(top - low));
  }

  /** The encoder's output is accepted and reads back as the number that was encoded. */
  lemma EncodedIsAccepted(value: Dec, limit: nat)
    requires |Digits(value.coeff)| <= PRECISION && limit > 0 && Finite(value, limit)
    ensures Encode(value, limit).Some?
    ensures Accepts(Encode(value, limit).value, limit)
    ensures Parse(Encode(value, limit).value).Some?
    ensures SameValue(Parse(Encode(value, limit).value).value, value)
  {
    var c := Spelling(value);
    TextSpells(value);
    SpelledIsFixed(c);
    RereadKeepsRange(c, limit);
    SpellingKeeps(value, limit);
  }

  /** Within the precision the spelling is the number itself. */
  lemma SpellingKeeps(value: Dec, limit: nat)
    requires |Digits(value.coeff)| <= PRECISION && limit > 0 && Finite(value, limit)
    ensures Finite(Spelling(value), limit)
    ensures SameValue(Reread(Spelling(value)), value)
  {
    NormalizeIsCanonical(value);
    if value.coeff == 0 {
      assert Spelling(value) == Dec(false, 0, 0);
      assert Pow10(0) == 1;
    } else {
      assert Spelling(value) == Normalize(value);
      NormalizeKeepsRange(value, limit);
      RereadOfNormal(value);
    }
  }

  lemma RereadOfNormal(value: Dec)
    requires value.coeff != 0
    ensures SameValue(Reread(Normalize(value)), value)
  {
    NormalizeIsCanonical(value);
    NormalizeScales(value);
    RereadSame(Normalize(value), value);
  }

  lemma RereadSame(n: Dec, value: Dec)
    requires n.exp >= value.exp && value.coeff == n.coeff * Pow10(n.exp - value.exp) && n.negative == value.negative
    ensures SameValue(Reread(n), value)
  {
    if n.exp >= 0 {
      WrittenOut(n.coeff, n.exp, value.coeff, value.exp, value.negative);
    } else {
      assert Pow10(0) == 1;
    }
  }

  /** c * 10^k written out has the value it came from. */
  lemma WrittenOut(c: nat, k: nat, v: nat, exp: int, negative: bool)
    requires exp <= k && v == c * Pow10(k - exp)
    ensures SameValue(Dec(negative, c * Pow10(k), 0), Dec(negative, v, exp))
  {
    var w := c * Pow10(k);
    if exp <= 0 {
      PowSplit(k, 0 - exp);
      Regroup(c, Pow10(k), Pow10(0 - exp));
      SameAtLow(w, v, exp, negative);
    } else {
      PowSplit(k - exp, exp);
      Regroup(c, Pow10(k - exp), Pow10(exp));
      SameAtHigh(w, v, exp, negative);
    }
  }

  lemma SameAtLow(w: nat, v: nat, exp: int, negative: bool)
    requires exp <= 0 && w * Pow10(0 - exp) == v
    ensures SameValue(Dec(negative, w, 0), Dec(negative, v, exp))
  {
    assert Pow10(0) == 1;
  }

  lemma SameAtHigh(w: nat, v: nat, exp: int, negative: bool)
    requires exp > 0 && w == v * Pow10(exp)
    ensures SameValue(Dec(negative, w, 0), Dec(negative, v, exp))
  {
    assert Pow10(0) == 1;
  }

  // ---- rounding ------------------------------------------------------------------------------

  function Apart(x: int, y: int): nat {
    if x < y then y - x else x - y
  }

  /** Of the numbers with fewer digits, `r` is the nearest to `d`, and of two that are as
      near the one with an even coefficient. */
  ghost predicate NearestTo(r: Dec, d: Dec, p: nat) {
    && r.negative == d.negative && p > 0
    && forall n: nat ::
         && Apart(r.coeff * p, d.coeff) <= Apart(n * p, d.coeff)
         && (Apart(r.coeff * p, d.coeff) == Apart(n * p, d.coeff) && n != r.coeff ==> r.coeff % 2 == 0)
  }

  lemma FurtherAway(x: nat, p: nat, q: nat, r: nat, n: nat)
    requires p > 0 && x == q * p + r && r < p
    ensures n <= q ==> x - n * p == (q - n) * p + r
    ensures n < q ==> x - n * p >= p + r
    ensures n > q ==> n * p - x == (n - q) * p - r
    ensures n > q + 1 ==> n * p - x >= 2 * p - r
  {
    assert n * p == q * p + (n - q) * p;
    if n < q {
      ScaleUp(1, q - n, p);
    }
    if n > q + 1 {
      ScaleUp(2, n - q, p);
    }
  }

  lemma HalfEvenIsNearest(x: nat, p: nat, n: nat)
    requires p > 0
    ensures Apart(HalfEven(x, p) * p, x) <= Apart(n * p, x)
    ensures Apart(HalfEven(x, p) * p, x) == Apart(n * p, x) && n != HalfEven(x, p) ==> HalfEven(x, p) % 2 == 0
  {
    var q, r := x / p, x % p;
    assert (q + 1) * p == q * p + p;
    FurtherAway(x, p, q, r, n);
  }

  /** Rounding to a precision: unchanged when it fits, and else the nearest number with the
      digits over it dropped, ties to even. */
  lemma RoundIsNearest(d: Dec, precision: nat)
    requires precision > 0
    ensures |Digits(d.coeff)| <= precision ==> RoundTo(d, precision) == d
    ensures |Digits(d.coeff)| > precision ==>
      var excess := |Digits(d.coeff)| - precision;
      RoundTo(d, precision).exp == d.exp + excess && NearestTo(RoundTo(d, precision), d, Pow10(excess))
  {
    var excess := |Digits(d.coeff)| - precision;
    if excess > 0 {
      var r := RoundTo(d, precision);
      forall n: nat
        ensures Apart(r.coeff * Pow10(excess), d.coeff) <= Apart(n * Pow10(excess), d.coeff)
        ensures Apart(r.coeff * Pow10(excess), d.coeff) == Apart(n * Pow10(excess), d.coeff) && n != r.coeff ==>
          r.coeff % 2 == 0
      {
        HalfEvenIsNearest(d.coeff, Pow10(excess), n);
      }
    }
  }

  /** What the canonical text of any number, however long, is read as: the number rounded
      to 28 significant digits. */
  lemma TextIsRounded(d: Dec)
    ensures Parse(CanonicalText(d)).Some?
    ensures SameValue(Parse(CanonicalText(d)).value, RoundTo(d, 28))
  {
    TextSpells(d);
    SpelledIsFixed(Spelling(d));
    NormalizeIsCanonical(Round(d));
    if Round(d).coeff == 0 {
      assert Pow10(0) == 1;
    } else {
      RereadOfNormal(Round(d));
    }
  }

  // ---- frames ------------------------------------------------------------------------------

  /** One session of a frame: its date and its open, high, low, close and volume. */
  datatype FrameRow = FrameRow(date: int, values: seq<Dec>)

  datatype TextRow = TextRow(date: int, cells: seq<string>)

  /** Every element mapped, unless one has no image. */
  function MapAll<T, U>(xs: seq<T>, f: T -> Option<U>): Option<seq<U>> {
    if |xs| == 0 then Some([])
    else
      match MapAll(xs[..|xs| - 1], f)
      case None => None
      case Some(ys) =>
        match f(xs[|xs| - 1])
        case None => None
        case Some(y) => Some(ys + [y])
  }

  /** `_canonical_frame_json` */
  function EncodeCells(values: seq<Dec>, limit: nat): Option<seq<string>> {
    MapAll(values, value => Encode(value, limit))
  }

  function EncodeRow(row: FrameRow, limit: nat): Option<TextRow> {
    match EncodeCells(row.values, limit)
    case None => None
    case Some(cells) => Some(TextRow(row.date, cells))
  }

  function EncodeFrame(frame: seq<FrameRow>, limit: nat): Option<seq<TextRow>> {
    MapAll(frame, row => EncodeRow(row, limit))
  }

  /** Reading a cell back: it has to be accepted, and a number. */
  function DecodeCell(text: string, limit: nat): Option<Dec> {
    if Accepts(text, limit) then Parse(text) else None
  }

  function DecodeCells(cells: seq<string>, limit: nat): Option<seq<Dec>> {
    MapAll(cells, text => DecodeCell(text, limit))
  }

  function DecodeRow(row: TextRow, limit: nat): Option<FrameRow> {
    match DecodeCells(row.cells, limit)
    case None => None
    case Some(values) => Some(FrameRow(row.date, values))
  }

  function DecodeFrame(rows: seq<TextRow>, limit: nat): Option<seq<FrameRow>> {
    MapAll(rows, row => DecodeRow(row, limit))
  }

  /** A number a double can hold: few digits, in range. */
  ghost predicate Storable(d: Dec, limit: nat) {
    |Digits(d.coeff)| <= PRECISION && Finite(d, limit)
  }

  ghost predicate StorableRow(r: FrameRow, limit: nat) {
    forall j :: 0 <= j < |r.values| ==> Storable(r.values[j], limit)
  }

  ghost predicate SameRow(x: FrameRow, y: FrameRow) {
    x.date == y.date && AllSame(x.values, y.values, SameValue)
  }

  ghost predicate AllSame<T>(xs: seq<T>, ys: seq<T>, same: (T, T) -> bool) {
    |xs| == |ys| && forall i :: 0 <= i < |xs| ==> same(xs[i], ys[i])
  }

  /** The element has an image, which is mapped back to the same element. */
  predicate ReadsBack<T, U>(x: T, f: T -> Option<U>, g: U -> Option<T>, same: (T, T) -> bool) {
    f(x).Some? && g(f(x).value).Some? && same(g(f(x).value).value, x)
  }

  /** A mapping that is reversed element by element is reversed as a whole. */
  lemma {:induction false} MapsBack<T, U>(xs: seq<T>, f: T -> Option<U>, g: U -> Option<T>,
      same: (T, T) -> bool)
    requires forall i :: 0 <= i < |xs| ==> ReadsBack(xs[i], f, g, same)
    ensures MapAll(xs, f).Some? && MapAll(MapAll(xs, f).value, g).Some?
    ensures AllSame(MapAll(MapAll(xs, f).value, g).value, xs, same)
    decreases |xs|
  {
    if |xs| > 0 {
      var front, last := xs[..|xs| - 1], xs[|xs| - 1];
      MapsBack(front, f, g, same);
      assert ReadsBack(last, f, g, same);
      var ys := MapAll(front, f).value;
      assert (ys + [f(last).value])[..|ys|] == ys;
    }
  }

  lemma RowRoundTrip(row: FrameRow, limit: nat)
    requires limit > 0 && StorableRow(row, limit)
    ensures EncodeRow(row, limit).Some? && DecodeRow(EncodeRow(row, limit).value, limit).Some?
    ensures SameRow(DecodeRow(EncodeRow(row, limit).value, limit).value, row)
  {
    var f := (value: Dec) => Encode(value, limit);
    var g := (text: string) => DecodeCell(text, limit);
    forall i | 0 <= i < |row.values| ensures ReadsBack(row.values[i], f, g, SameValue) {
      EncodedIsAccepted(row.values[i], limit);
    }
    MapsBack(row.values, f, g, SameValue);
  }

  /** An encoded frame decodes to the frame it came from: the same dates, the same
      numbers, and every cell accepted by the validator. */
  lemma FrameRoundTrip(frame: seq<FrameRow>, limit: nat)
    requires limit > 0 && forall i :: 0 <= i < |frame| ==> StorableRow(frame[i], limit)
    ensures EncodeFrame(frame, limit).Some?
    ensures DecodeFrame(EncodeFrame(frame, limit).value, limit).Some?
    ensures AllSame(DecodeFrame(EncodeFrame(frame, limit).value, limit).value, frame, SameRow)
  {
    var f := (row: FrameRow) => EncodeRow(row, limit);
    var g := (row: TextRow) => DecodeRow(row, limit);
    forall i | 0 <= i < |frame| ensures ReadsBack(frame[i], f, g, SameRow) {
      RowRoundTrip(frame[i], limit);
    }
    MapsBack(frame, f, g, SameRow);
  }
}
