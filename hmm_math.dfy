/**
 * Sign-magnitude arithmetic and the u128 square root of the pool's math library, as
 * specified by its unit tests: a signed quantity is a magnitude with an `is negative` flag.
 */
module HmmMath {
  import opened Ints

  /** The integer a (magnitude, is negative) pair stands for. */
  function Value(magnitude: nat, negative: bool): int
  {
    if negative then -(magnitude as int) else magnitude
  }

  /**
   * `signed_addition`: equal signs add the magnitudes and keep the sign; opposite signs
   * subtract the smaller magnitude from the larger and take the larger one's sign; an
   * exact cancellation is reported as non-negative zero.
   */
  function SignedAddition(lhs: nat, lhsSigned: bool, rhs: nat, rhsSigned: bool): (r: (nat, bool))
    ensures Value(r.0, r.1) == Value(lhs, lhsSigned) + Value(rhs, rhsSigned)
    ensures lhsSigned == rhsSigned ==> r == (lhs + rhs, lhsSigned)
    ensures lhsSigned != rhsSigned && lhs > rhs ==> r == (lhs - rhs, lhsSigned)
    ensures lhsSigned != rhsSigned && rhs > lhs ==> r == (rhs - lhs, rhsSigned)
    ensures lhsSigned != rhsSigned && lhs == rhs ==> r == (0, false)
  {
    if lhsSigned == rhsSigned then (lhs + rhs, lhsSigned)
    else if lhs > rhs then (lhs - rhs, lhsSigned)
    else if rhs > lhs then (rhs - lhs, rhsSigned)
    else (0, false)
  }

  /** `signed_mul`: the product of the magnitudes, negative exactly when one operand is. */
  function SignedMul(lhs: nat, lhsSigned: bool, rhs: nat, rhsSigned: bool): (r: (nat, bool))
    ensures Value(r.0, r.1) == Value(lhs, lhsSigned) * Value(rhs, rhsSigned)
    ensures r.1 <==> lhsSigned != rhsSigned
  {
    var l: int, k: int := lhs, rhs;
    assert (-l) * (-k) == l * k && (-l) * k == -(l * k) && l * (-k) == -(l * k);
    (lhs * rhs, lhsSigned != rhsSigned)
  }

  lemma SignedAdditionCommutes(lhs: nat, lhsSigned: bool, rhs: nat, rhsSigned: bool)
    ensures SignedAddition(lhs, lhsSigned, rhs, rhsSigned) == SignedAddition(rhs, rhsSigned, lhs, lhsSigned)
  {
  }

  lemma SignedMulCommutes(lhs: nat, lhsSigned: bool, rhs: nat, rhsSigned: bool)
    ensures SignedMul(lhs, lhsSigned, rhs, rhsSigned) == SignedMul(rhs, rhsSigned, lhs, lhsSigned)
  {
  }

  /** The cases of `test_signed_addition`. */
  lemma SignedAdditionTests()
    ensures SignedAddition(4, true, 3, true) == (7, true)
    ensures SignedAddition(1, true, 1, false) == (0, false)
    ensures SignedAddition(3, false, 5, true) == (2, true)
    ensures SignedAddition(5, true, 3, false) == (2, true)
    ensures SignedAddition(5, false, 2, true) == (3, false)
    ensures SignedAddition(3, true, 5, false) == (2, false)
    ensures SignedAddition(1, false, 2, true) == (1, true)
    ensures SignedAddition(4, false, 3, false) == (7, false)
  {
  }

  /** The cases of `test_signed_mul`. */
  lemma SignedMulTests()
    ensures SignedMul(4, true, 3, true) == (12, false)
    ensures SignedMul(4, true, 3, false) == (12, true)
    ensures SignedMul(4, false, 3, true) == (12, true)
    ensures SignedMul(4, false, 3, false) == (12, false)
  {
  }

  /** `r` is the square root of `n` rounded to the nearest integer. */
  predicate IsRoundedSqrt(n: nat, r: nat)
  {
    (r == 0 || r * r - r < n) && n <= r * r + r
  }

  lemma {:induction false} ProductMonotone(a: nat, b: nat)
    requires 1 <= a <= b
    ensures a * (a - 1) <= b * (b - 1)
  {
    MulMonotone(a - 1, b - 1, a);
    MulMonotone(a, b, b - 1);
  }

  /** At most one number is the rounded square root of `n`. */
  lemma {:induction false} RoundedSqrtUnique(n: nat, a: nat, b: nat)
    requires IsRoundedSqrt(n, a) && IsRoundedSqrt(n, b)
    ensures a == b
  {
    if a < b {
      ProductMonotone(a + 1, b);
    } else if b < a {
      ProductMonotone(b + 1, a);
    }
  }

  /** The floor square root, searched for within `[lo, hi)`. */
  function FloorSqrtWithin(n: nat, lo: nat, hi: nat): (r: nat)
    requires lo < hi && lo * lo <= n < hi * hi
    ensures r * r <= n < (r + 1) * (r + 1)
    decreases hi - lo
  {
    if lo + 1 == hi then lo
    else
      var mid := (lo + hi) / 2;
      if mid * mid <= n then FloorSqrtWithin(n, mid, hi) else FloorSqrtWithin(n, lo, mid)
  }

  function FloorSqrt(n: nat): (r: nat)
    ensures r * r <= n < (r + 1) * (r + 1)
  {
    MulMonotone(1, n + 1, n + 1);
    FloorSqrtWithin(n, 0, n + 1)
  }

  /**
   * `sqrt` on u128, rounded to the nearest integer: the floor root, plus one when `n`
   * lies beyond the midpoint `f * f + f` between `f * f` and `(f + 1) * (f + 1)`.
   */
  function Sqrt(n: U128): (r: U128)
    ensures IsRoundedSqrt(n, r)
  {
    var f := FloorSqrt(n);
    RoundFloorRoot(n, f);
    if n <= f * f + f then f else f + 1
  }

  /** Rounding the floor root `f` up past the midpoint gives the rounded root, which never exceeds `n`. */
  lemma {:induction false} RoundFloorRoot(n: nat, f: nat)
    requires f * f <= n < (f + 1) * (f + 1)
    ensures var r := if n <= f * f + f then f else f + 1;
      IsRoundedSqrt(n, r) && r <= n
  {
    assert (f + 1) * (f + 1) == f * f + 2 * f + 1;
    if f >= 1 {
      MulMonotone(1, f, f);
    }
  }

  /** The value `sqrt` returns is the only rounded square root. */
  lemma SqrtIsTheRoundedRoot(n: U128, r: nat)
    requires IsRoundedSqrt(n, r)
    ensures Sqrt(n) == r
  {
    RoundedSqrtUnique(n, Sqrt(n), r);
  }

  /** The perfect squares of `test_u128_square_root` get their exact roots. */
  lemma SqrtPerfectSquareTests()
    ensures Sqrt(923_187_456) == 30_384
    ensures Sqrt(998_781_235_573_146_624) == 999_390_432
    ensures Sqrt(999_888_767_225_363_175_346_145_124) == 31_621_017_808_182
  {
    SqrtIsTheRoundedRoot(923_187_456, 30_384);
    SqrtIsTheRoundedRoot(998_781_235_573_146_624, 999_390_432);
    SqrtIsTheRoundedRoot(999_888_767_225_363_175_346_145_124, 31_621_017_808_182);
  }

  /** Any exact square root is the rounded one. */
  lemma SqrtOfSquare(r: nat)
    requires r * r <= U128_MAX
    ensures Sqrt(r * r) == r
  {
    SqrtIsTheRoundedRoot(r * r, r);
  }

  /** `sqrt(u128::MAX)` is 2^64, one more than the floor root 2^64 - 1. */
  lemma SqrtOfU128Max()
    ensures Sqrt(U128_MAX) == TWO_POW_64
    ensures FloorSqrt(U128_MAX) == TWO_POW_64 - 1
  {
    SqrtIsTheRoundedRoot(U128_MAX, TWO_POW_64);
    var f := FloorSqrt(U128_MAX);
    if f < TWO_POW_64 - 1 {
      MulMonotone(f + 1, TWO_POW_64 - 1, f + 1);
    } else if f > TWO_POW_64 - 1 {
      MulMonotone(TWO_POW_64, f, f);
    }
  }
}
