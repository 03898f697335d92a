/**
 Exact stand-ins for the generator's floating-point factors. A factor drawn
 with `random.uniform(lo, hi)` is a ratio `num / den` inside the band
 `[lo, hi]`; `int(x)` truncates toward zero and `round(x, 2)` rounds to the
 nearest hundredth, ties to even.
 */
module Ratios {

  datatype Ratio = Ratio(num: int, den: int)

  predicate Valid(r: Ratio) {
    r.den > 0
  }

  /** `lo <= r <= hi`, the band of a `random.uniform(lo, hi)` draw. */
  predicate InBand(r: Ratio, lo: Ratio, hi: Ratio)
    requires Valid(r) && Valid(lo) && Valid(hi)
  {
    lo.num * r.den <= r.num * lo.den && r.num * hi.den <= hi.num * r.den
  }

  /** `int(num / den)`: the quotient truncated toward zero. */
  function Trunc(num: int, den: int): int
    requires den > 0
  {
    if num >= 0 then num / den else -((-num) / den)
  }

  /** Python's `round(num / den)`: nearest integer, a tie goes to the even one. */
  function RoundHalfEven(num: int, den: int): int
    requires den > 0
  {
    var q := num / den;
    var twice := 2 * (num % den);
    if twice < den then q
    else if twice > den then q + 1
    else if q % 2 == 0 then q
    else q + 1
  }

  /** `int(k * r)` for an integer `k`. */
  function TruncTimes(k: int, r: Ratio): int
    requires Valid(r)
  {
    Trunc(k * r.num, r.den)
  }

  /** For a non-negative quotient, truncation is the floor. */
  lemma TruncFloor(num: int, den: int)
    requires den > 0 && num >= 0
    ensures 0 <= Trunc(num, den) && Trunc(num, den) * den <= num < (Trunc(num, den) + 1) * den
  {
  }

  /** Multiplying by a positive number keeps the order of two integers. */
  lemma MulOrder(a: int, b: int, d: int)
    requires d > 0
    ensures a * d <= b * d <==> a <= b
    ensures a * d < b * d <==> a < b
  {
    assert b * d - a * d == (b - a) * d;
  }

  /** Multiplying by a non-negative number keeps a non-strict order. */
  lemma MulMonotone(a: int, b: int, c: int)
    requires c >= 0 && a <= b
    ensures c * a <= c * b
  {
    if c > 0 {
      MulOrder(a, b, c);
    }
  }

  /** A quotient of at least `k` truncates to at least `k`, and one of at most `k` to at most `k`. */
  lemma TruncBetween(num: int, den: int, k: int)
    requires den > 0 && num >= 0
    ensures k * den <= num ==> k <= Trunc(num, den)
    ensures num <= k * den ==> Trunc(num, den) <= k
  {
    var q := num / den;
    assert q * den <= num < (q + 1) * den;
    MulOrder(k, q + 1, den);
    MulOrder(q, k, den);
  }

  /** The rounded value is within half a unit of the exact quotient. */
  lemma RoundNearest(num: int, den: int)
    requires den > 0
    ensures -den <= 2 * (RoundHalfEven(num, den) * den - num) <= den
  {
  }

  /** A quotient exactly halfway between two integers rounds to the even one of them. */
  lemma RoundTieEven(num: int, den: int)
    requires den > 0 && 2 * (num % den) == den
    ensures RoundHalfEven(num, den) % 2 == 0
    ensures 2 * (RoundHalfEven(num, den) * den - num) == den || 2 * (RoundHalfEven(num, den) * den - num) == -den
  {
    var q := num / den;
    assert num == q * den + num % den;
  }

  /** A quotient of at least (at most) an integer `k` rounds to at least (at most) `k`. */
  lemma RoundBetween(num: int, den: int, k: int)
    requires den > 0
    ensures k * den <= num ==> k <= RoundHalfEven(num, den)
    ensures num <= k * den ==> RoundHalfEven(num, den) <= k
  {
    var q, r := num / den, num % den;
    assert q * den <= num < (q + 1) * den;
    MulOrder(k, q + 1, den);
    MulOrder(q, k, den);
    MulOrder(k, q, den);
  }
}
