/** Canonical decimal text: the snapshot encoder (agent/backtest_jobs.py,
    `_canonical_decimal`) and the separately written validator
    (storage/backtest_snapshot.py, `_canonical_decimal`). */
module CanonicalDecimal {
  import opened BrokerModels

  /** (-1)^negative * coeff * 10^exp */
  datatype Dec = Dec(negative: bool, coeff: nat, exp: int)

  function Pow10(n: nat): (p: nat)
    ensures p > 0
  {
    if n == 0 then 1 else 10 * Pow10(n - 1)
  }

  lemma {:induction false} PowSplit(m: nat, n: nat)
    ensures Pow10(m + n) == Pow10(m) * Pow10(n)
  {
    if m > 0 {
      PowSplit(m - 1, n);
      Regroup(10, Pow10(m - 1), Pow10(n));
    }
  }

  lemma Regroup(x: int, y: int, z: int)
    ensures x * (y * z) == (x * y) * z
  {
  }

  // ---- digits ------------------------------------------------------------------------

  predicate IsDigit(c: char) {
    '0' <= c <= '9'
  }

  predicate AllDigits(s: string) {
    forall i | 0 <= i < |s| :: IsDigit(s[i])
  }

  function DigitChar(n: nat): (c: char)
    requires n < 10
    ensures IsDigit(c)
  {
    '0' + n as char
  }

  function DigitValue(c: char): (n: nat)
    requires IsDigit(c)
    ensures n < 10
  {
    (c - '0') as nat
  }

  lemma DigitRoundTrip(n: nat)
    requires n < 10
    ensures DigitValue(DigitChar(n)) == n
  {
  }

  function Digits(n: nat): (s: string)
    ensures AllDigits(s) && |s| > 0
  {
    if n < 10 then [DigitChar(n)] else Digits(n / 10) + [DigitChar(n % 10)]
  }

  function NatOf(s: string): nat
    requires AllDigits(s)
  {
    if |s| == 0 then 0 else NatOf(s[..|s| - 1]) * 10 + DigitValue(s[|s| - 1])
  }

  lemma NatOfAppend(s: string, c: char)
    requires AllDigits(s) && IsDigit(c)
    ensures AllDigits(s + [c]) && NatOf(s + [c]) == NatOf(s) * 10 + DigitValue(c)
  {
    assert (s + [c])[..|s|] == s;
  }

  lemma {:induction false} NatOfDigits(n: nat)
    ensures NatOf(Digits(n)) == n
  {
    if n < 10 {
      DigitRoundTrip(n);
      assert Digits(n)[..0] == "";
    } else {
      NatOfDigits(n / 10);
      DigitRoundTrip(n % 10);
      NatOfAppend(Digits(n / 10), DigitChar(n % 10));
    }
  }

  function Zeros(n: nat): (s: string)
    ensures AllDigits(s) && |s| == n
  {
    if n == 0 then "" else Zeros(n - 1) + "0"
  }

  lemma {:induction false} NatOfTrailingZeros(s: string, n: nat)
    requires AllDigits(s)
    ensures NatOf(s + Zeros(n)) == NatOf(s) * Pow10(n)
  {
    if n == 0 {
      assert s + "" == s;
    } else {
      NatOfTrailingZeros(s, n - 1);
      assert s + Zeros(n) == (s + Zeros(n - 1)) + ['0'];
      NatOfAppend(s + Zeros(n - 1), '0');
      TenTimes(NatOf(s), Pow10(n - 1));
    }
  }

  lemma TenTimes(x: int, y: int)
    ensures (x * y) * 10 == x * (10 * y)
  {
  }

  lemma {:induction false} NatOfLeadingZeros(zeros: string, s: string)
    requires AllDigits(zeros) && AllDigits(s) && NatOf(zeros) == 0
    ensures NatOf(zeros + s) == NatOf(s)
    decreases |s|
  {
    if |s| == 0 {
      assert zeros + s == zeros;
    } else {
      NatOfLeadingZeros(zeros, s[..|s| - 1]);
      assert zeros + s == (zeros + s[..|s| - 1]) + [s[|s| - 1]];
      NatOfAppend(zeros + s[..|s| - 1], s[|s| - 1]);
    }
  }

  // ---- normalizing ---------------------------------------------------------------------

  /** `Decimal.normalize` without rounding: no trailing zeros, and zero has exponent 0. */
  function Normalize(d: Dec): Dec
    decreases d.coeff
  {
    if d.coeff == 0 then Dec(d.negative, 0, 0)
    else if d.coeff % 10 == 0 then Normalize(Dec(d.negative, d.coeff / 10, d.exp + 1))
    else d
  }

  predicate Canonical(d: Dec) {
    if d.coeff == 0 then d.exp == 0 else d.coeff % 10 != 0
  }

  /** The same number: equal after scaling to a common exponent, minus zero being zero. */
  predicate SameValue(d: Dec, e: Dec) {
    var low := if d.exp <= e.exp then d.exp else e.exp;
    && d.coeff * Pow10(d.exp - low) == e.coeff * Pow10(e.exp - low)
    && (d.coeff != 0 ==> d.negative == e.negative)
  }

  lemma {:induction false} NormalizeIsCanonical(d: Dec)
    ensures Canonical(Normalize(d))
    ensures Normalize(d).negative == d.negative
    ensures d.coeff == 0 <==> Normalize(d).coeff == 0
    decreases d.coeff
  {
    if d.coeff != 0 && d.coeff % 10 == 0 {
      NormalizeIsCanonical(Dec(d.negative, d.coeff / 10, d.exp + 1));
    }
  }

  /** What stripping took away are powers of ten. */
  lemma {:induction false} NormalizeScales(d: Dec)
    requires d.coeff != 0
    ensures Normalize(d).exp >= d.exp
    ensures d.coeff == Normalize(d).coeff * Pow10(Normalize(d).exp - d.exp)
    decreases d.coeff
  {
    if d.coeff % 10 == 0 {
      var e := Dec(d.negative, d.coeff / 10, d.exp + 1);
      NormalizeScales(e);
      var n := Normalize(e);
      PowSplit(1, n.exp - e.exp);
      Shift(n.coeff, Pow10(n.exp - e.exp), d.coeff);
    }
  }

  lemma Shift(c: int, p: int, d: int)
    requires d % 10 == 0 && d / 10 == c * p
    ensures d == c * (10 * p)
  {
    assert c * (10 * p) == 10 * (c * p);
  }

  lemma NormalizeKeepsValue(d: Dec)
    ensures SameValue(d, Normalize(d))
  {
    NormalizeIsCanonical(d);
    if d.coeff != 0 {
      NormalizeScales(d);
    }
  }

  /** A multiple of ten to a positive power ends in zero. */
  lemma TimesTen(c: nat, k: nat)
    requires k > 0
    ensures (c * Pow10(k)) % 10 == 0
  {
    assert c * (10 * Pow10(k - 1)) == 10 * (c * Pow10(k - 1));
  }

  lemma CancelPower(c: nat, d: nat, p: nat)
    requires p > 0 && c * p == d * p
    ensures c == d
  {
  }

  /** Each number has one canonical form, up to the sign of zero. */
  lemma CanonicalIsUnique(d: Dec, e: Dec)
    requires Canonical(d) && Canonical(e) && SameValue(d, e) && (d.coeff == 0 ==> d.negative == e.negative)
    ensures d == e
  {
    if d.exp < e.exp {
      assert Pow10(0) == 1;
      TimesTen(e.coeff, e.exp - d.exp);
    } else if d.exp > e.exp {
      assert Pow10(0) == 1;
      TimesTen(d.coeff, d.exp - e.exp);
    }
  }

  // ---- printing and parsing ---------------------------------------------------------------

  function Sign(negative: bool): string {
    if negative then "-" else ""
  }

  /** `format(d, "f")` */
  function Print(d: Dec): string {
    Sign(d.negative) + PrintMagnitude(d.coeff, d.exp)
  }

  function PrintMagnitude(coeff: nat, exp: int): string {
    PlacePoint(Digits(coeff), exp)
  }

  function PlacePoint(ds: string, exp: int): string
    requires AllDigits(ds)
  {
    if exp >= 0 then ds + Zeros(exp)
    else if -exp < |ds| then ds[..|ds| + exp] + "." + ds[|ds| + exp..]
    else "0." + (Zeros(-exp - |ds|) + ds)
  }

  /** Index of the first of these characters, or |s|. */
  function Find(s: string, chars: set<char>): (i: nat)
    ensures i <= |s|
    ensures i < |s| ==> s[i] in chars
    ensures forall j :: 0 <= j < i ==> s[j] !in chars
  {
    if |s| == 0 then 0 else if s[0] in chars then 0 else 1 + Find(s[1..], chars)
  }

  function ParseInt(s: string): Option<int> {
    if |s| == 0 then None
    else if s[0] == '-' && |s| > 1 && AllDigits(s[1..]) then Some(-(NatOf(s[1..]) as int))
    else if s[0] == '+' && |s| > 1 && AllDigits(s[1..]) then Some(NatOf(s[1..]))
    else if AllDigits(s) then Some(NatOf(s))
    else None
  }

  /** What is before and after the first point. */
  function SplitPoint(s: string): (string, string) {
    var p := Find(s, {'.'});
    (s[..p], if p < |s| then s[p + 1..] else "")
  }

  function Mantissa(whole: string, part: string): Option<(nat, int)> {
    if AllDigits(whole) && AllDigits(part) && |whole| + |part| > 0 && AllDigits(whole + part)
    then Some((NatOf(whole + part), -(|part| as int)))
    else None
  }

  /** Digits with at most one point among them: the coefficient and its exponent. */
  function ParseMantissa(s: string): Option<(nat, int)> {
    Mantissa(SplitPoint(s).0, SplitPoint(s).1)
  }

  /** `Decimal(raw)` on finite numerals; None for anything else. */
  function Parse(raw: string): Option<Dec> {
    if |raw| == 0 then None
    else
      var body := if raw[0] == '-' || raw[0] == '+' then raw[1..] else raw;
      var e := Find(body, {'e', 'E'});
      match ParseMantissa(body[..e])
      case None => None
      case Some(m) =>
        if e == |body| then Some(Dec(raw[0] == '-', m.0, m.1))
        else
          match ParseInt(body[e + 1..])
          case None => None
          case Some(x) => Some(Dec(raw[0] == '-', m.0, m.1 + x))
  }

  /** What the printed text of a number parses to. */
  function Reread(d: Dec): Dec {
    if d.exp >= 0 then Dec(d.negative, d.coeff * Pow10(d.exp), 0) else d
  }

  predicate Plain(s: string) {
    forall i | 0 <= i < |s| :: IsDigit(s[i]) || s[i] == '.'
  }

  lemma FindNone(s: string, chars: set<char>)
    requires forall i :: 0 <= i < |s| ==> s[i] !in chars
    ensures Find(s, chars) == |s|
  {
  }

  lemma FindPoint(whole: string, part: string)
    requires AllDigits(whole)
    ensures Find(whole + "." + part, {'.'}) == |whole|
  {
    var s := whole + "." + part;
    assert s[|whole|] == '.';
    forall j | 0 <= j < |whole| ensures s[j] != '.' {
      assert s[j] == whole[j];
    }
  }

  lemma NoPoint(s: string)
    requires AllDigits(s)
    ensures SplitPoint(s) == (s, "")
  {
    FindNone(s, {'.'});
    assert s[..|s|] == s;
  }

  lemma MantissaWhole(s: string)
    requires AllDigits(s) && |s| > 0
    ensures ParseMantissa(s) == Some((NatOf(s), 0))
  {
    NoPoint(s);
    assert s + "" == s;
  }

  lemma MantissaPoint(whole: string, part: string)
    requires AllDigits(whole) && AllDigits(part) && |whole| > 0 && AllDigits(whole + part)
    ensures ParseMantissa(whole + "." + part) == Some((NatOf(whole + part), -(|part| as int)))
  {
    FindPoint(whole, part);
    var s := whole + "." + part;
    assert s[..|whole|] == whole && s[|whole| + 1..] == part;
  }

  /** A text of digits and points that parses to `m`. */
  ghost predicate Reads(s: string, m: (nat, int)) {
    && Plain(s) && |s| > 0 && IsDigit(s[0])
    && ParseMantissa(s) == Some(m)
  }

  lemma WholeText(ds: string, value: nat, exp: nat)
    requires AllDigits(ds) && |ds| > 0 && NatOf(ds) == value
    ensures Reads(PlacePoint(ds, exp), (value * Pow10(exp), 0))
  {
    NatOfTrailingZeros(ds, exp);
    MantissaWhole(ds + Zeros(exp));
  }

  /** Digits with a point after `whole` of them. */
  lemma PointText(whole: string, part: string, value: nat)
    requires AllDigits(whole) && AllDigits(part) && |whole| > 0 && AllDigits(whole + part)
    requires NatOf(whole + part) == value
    ensures
      var s := whole + "." + part;
      && Plain(s) && |s| > 0 && IsDigit(s[0])
      && ParseMantissa(s) == Some((value, -(|part| as int)))
  {
    MantissaPoint(whole, part);
    var s := whole + "." + part;
    forall i | 0 <= i < |s| ensures IsDigit(s[i]) || s[i] == '.' {
      if i < |whole| {
        assert s[i] == whole[i];
      } else if i > |whole| {
        assert s[i] == part[i - |whole| - 1];
      }
    }
    assert s[0] == whole[0];
  }

  lemma MixedText(ds: string, value: nat, k: nat)
    requires AllDigits(ds) && NatOf(ds) == value && 0 < k < |ds|
    ensures
      var s := ds[..|ds| - k] + "." + ds[|ds| - k..];
      && Plain(s) && |s| > 0 && IsDigit(s[0])
      && ParseMantissa(s) == Some((value, -(k as int)))
  {
    assert ds[..|ds| - k] + ds[|ds| - k..] == ds;
    PointText(ds[..|ds| - k], ds[|ds| - k..], value);
  }

  lemma TailValue(ds: string, value: nat, n: nat)
    requires AllDigits(ds) && NatOf(ds) == value
    ensures AllDigits(Zeros(n) + ds) && AllDigits("0" + (Zeros(n) + ds)) && NatOf("0" + (Zeros(n) + ds)) == value
  {
    ZerosAreZero(n);
    NatOfLeadingZeros(Zeros(n), ds);
    ZeroFirst(Zeros(n) + ds);
  }

  lemma ZeroPointText(tail: string, value: nat)
    requires AllDigits(tail) && AllDigits("0" + tail) && NatOf("0" + tail) == value
    ensures
      var s := "0." + tail;
      && Plain(s) && |s| > 0 && IsDigit(s[0])
      && ParseMantissa(s) == Some((value, -(|tail| as int)))
  {
    PointText("0", tail, value);
    assert "0." + tail == "0" + "." + tail;
  }

  lemma SmallText(ds: string, value: nat, exp: int)
    requires AllDigits(ds) && NatOf(ds) == value && exp < 0 && -exp >= |ds|
    ensures Reads(PlacePoint(ds, exp), (value, exp))
  {
    var n := -exp - |ds|;
    TailValue(ds, value, n);
    ZeroPointText(Zeros(n) + ds, value);
  }

  lemma ZeroFirst(s: string)
    requires AllDigits(s)
    ensures AllDigits("0" + s) && NatOf("0" + s) == NatOf(s)
  {
    ZerosAreZero(1);
    assert Zeros(0) + "0" == "0";
    assert Zeros(1) == "0";
    NatOfLeadingZeros("0", s);
  }

  lemma MagnitudeParses(coeff: nat, exp: int)
    ensures Reads(PrintMagnitude(coeff, exp), if exp >= 0 then (coeff * Pow10(exp), 0) else (coeff, exp))
  {
    var ds := Digits(coeff);
    NatOfDigits(coeff);
    if exp >= 0 {
      WholeText(ds, coeff, exp);
    } else if -exp < |ds| {
      MixedText(ds, coeff, -exp);
    } else {
      SmallText(ds, coeff, exp);
    }
  }

  lemma {:induction false} ZerosAreZero(n: nat)
    ensures NatOf(Zeros(n)) == 0
  {
    if n > 0 {
      ZerosAreZero(n - 1);
      NatOfAppend(Zeros(n - 1), '0');
    }
  }

  /** A sign in front of plain digits. */
  lemma SignedParses(m: string, negative: bool, mantissa: (nat, int))
    requires Plain(m) && |m| > 0 && IsDigit(m[0]) && ParseMantissa(m) == Some(mantissa)
    ensures Parse(Sign(negative) + m) == Some(Dec(negative, mantissa.0, mantissa.1))
  {
    forall i | 0 <= i < |m| ensures m[i] !in {'e', 'E'} {
      assert IsDigit(m[i]) || m[i] == '.';
    }
    FindNone(m, {'e', 'E'});
    assert m[..|m|] == m;
    var raw := Sign(negative) + m;
    if negative {
      assert raw[0] == '-' && raw[1..] == m;
    } else {
      assert raw == m;
    }
  }

  /** Printing and parsing again gives the number back. */
  lemma PrintParses(d: Dec)
    ensures Parse(Print(d)) == Some(Reread(d))
  {
    MagnitudeParses(d.coeff, d.exp);
    SignedParses(PrintMagnitude(d.coeff, d.exp), d.negative,
                 if d.exp >= 0 then (d.coeff * Pow10(d.exp), 0) else (d.coeff, d.exp));
  }

  lemma RereadKeepsValue(d: Dec)
    ensures SameValue(Reread(d), d)
  {
  }

  /** A canonical number is what its text normalizes to. */
  lemma RereadNormalizes(d: Dec)
    requires Canonical(d)
    ensures Normalize(Reread(d)) == d
  {
    NormalizeKeepsValue(Reread(d));
    NormalizeIsCanonical(Reread(d));
    RereadKeepsValue(d);
    if d.coeff == 0 {
      assert Reread(d).coeff == 0;
    } else {
      if d.exp >= 0 {
        NonZeroProduct(d.coeff, Pow10(d.exp));
        NormalizeScales(Reread(d));
        StripAll(d.negative, d.coeff, d.exp, 0);
      }
    }
  }

  lemma NonZeroProduct(x: nat, y: nat)
    requires x > 0 && y > 0
    ensures x * y > 0
  {
  }

  /** Normalizing strips exactly the zeros that were written out. */
  lemma {:induction false} StripAll(negative: bool, coeff: nat, k: nat, exp: int)
    requires coeff % 10 != 0
    ensures Normalize(Dec(negative, coeff * Pow10(k), exp)) == Dec(negative, coeff, exp + k)
    decreases k
  {
    if k > 0 {
      NonZeroProduct(coeff, Pow10(k));
      TimesTen(coeff, k);
      assert coeff * (10 * Pow10(k - 1)) == 10 * (coeff * Pow10(k - 1));
      StripAll(negative, coeff, k - 1, exp + 1);
    }
  }
}
