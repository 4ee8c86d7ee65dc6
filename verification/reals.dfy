/** Products, quotients and floors of exact reals. */
module Reals {

  lemma MulNonNeg(x: real, y: real)
    requires x >= 0.0 && y >= 0.0
    ensures x * y >= 0.0
  {
  }

  lemma MulPos(x: real, y: real)
    requires x > 0.0 && y > 0.0
    ensures x * y > 0.0
  {
  }

  lemma MulMono(x: real, y: real, z: real)
    requires x <= y && z >= 0.0
    ensures x * z <= y * z
  {
    MulNonNeg(y - x, z);
    assert (y - x) * z == y * z - x * z;
  }

  lemma MulStrict(x: real, y: real, z: real)
    requires x < y && z > 0.0
    ensures x * z < y * z
  {
    MulPos(y - x, z);
    assert (y - x) * z == y * z - x * z;
  }

  /** Dividing by a positive number is the inverse of multiplying by it. */
  lemma QuotientBound(num: real, den: real, x: real)
    requires den > 0.0
    ensures x <= num / den <==> x * den <= num
    ensures num / den <= x <==> num <= x * den
  {
    var q := num / den;
    assert q * den == num;
    if x <= q { MulMono(x, q, den); } else { MulStrict(q, x, den); }
    if q <= x { MulMono(q, x, den); } else { MulStrict(x, q, den); }
  }

  /** `math.floor(num / den)` */
  function FloorDiv(num: real, den: real): int
    requires den > 0.0
  {
    (num / den).Floor
  }

  /** A floor of a quotient is the largest whole number below it. */
  lemma FloorOfQuotient(num: real, den: real, n: int)
    requires den > 0.0
    ensures n <= FloorDiv(num, den) <==> n as real * den <= num
  {
    QuotientBound(num, den, n as real);
  }

  function Sum(xs: seq<real>): real {
    if |xs| == 0 then 0.0 else Sum(xs[..|xs| - 1]) + xs[|xs| - 1]
  }
}
