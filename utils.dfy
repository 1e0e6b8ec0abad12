/**
 * The scalar helpers of `src/Utils.ts`. `IsPowerOfTwo` works on the 32-bit two's
 * complement pattern that JavaScript's `&` converts its operands to; the others are
 * comparisons over reals.
 */
module Utils {
  import opened Numbers
  import opened Wrappers

  /** `EPSILON`, written `10e-3` in the source, which is 0.01. */
  const EPSILON: real := 0.01

  /**
   * 2^k as a 32-bit pattern, for a bit place `k` from 0 to 31; `Pow2(31)` is the pattern
   * of the most negative int32.
   */
  function Pow2(k: bv32): bv32
    requires k < 32
  {
    (1 as bv32) << k
  }

  /**
   * `IsPowerOfTwo(val)`: `val & (val - 1)` is zero and `val` is not. `val` is the int32
   * value as its bit pattern, and `val - 1` wraps around as `ToInt32` does.
   */
  predicate IsPowerOfTwo(val: bv32)
  {
    val & (val - 1) == 0 && val != 0
  }

  /** Every 2^k passes the test. */
  lemma Pow2IsPowerOfTwo(k: bv32)
    requires k < 32
    ensures IsPowerOfTwo(Pow2(k))
  {
  }

  /**
   * If `v` passes the test, has every bit below bit `k` clear and is not 2^k, then bit
   * `k` is clear in `v` too.
   */
  lemma NextBitClear(v: bv32, k: bv32)
    requires IsPowerOfTwo(v) && k < 31 && v & (Pow2(k) - 1) == 0 && v != Pow2(k)
    ensures v & (Pow2(k + 1) - 1) == 0
  {
  }

  /**
   * A pattern that passes the test and has its `k` lowest bits clear is 2^j for some
   * `j >= k`: the one bit it has set is found by moving up from bit `k`.
   */
  lemma {:induction false} SingleBitAtOrAbove(v: bv32, k: bv32)
    requires IsPowerOfTwo(v) && k < 32 && v & (Pow2(k) - 1) == 0
    ensures exists j: bv32 :: k <= j < 32 && v == Pow2(j)
    decreases 32 - k
  {
    if v != Pow2(k) {
      if k == 31 {
        assert false;
      } else {
        NextBitClear(v, k);
        SingleBitAtOrAbove(v, k + 1);
      }
    }
  }

  /** The test is passed exactly by the 32 patterns 2^0 .. 2^31. */
  lemma PowerOfTwoExactly(v: bv32)
    ensures IsPowerOfTwo(v) <==> exists k: bv32 :: k < 32 && v == Pow2(k)
  {
    if IsPowerOfTwo(v) {
      SingleBitAtOrAbove(v, 0);
    }
  }

  /**
   * On the positive int32 values, 0 < v < 2^31, the test holds exactly for the powers
   * 2^0 .. 2^30.
   */
  lemma PowerOfTwoPositive(v: bv32)
    requires 0 < v < 0x8000_0000
    ensures IsPowerOfTwo(v) <==> exists k: bv32 :: k < 31 && v == Pow2(k)
  {
    PowerOfTwoExactly(v);
    if IsPowerOfTwo(v) {
      var k: bv32 :| k < 32 && v == Pow2(k);
      assert k != 31;
    }
  }

  /**
   * Zero fails the test, six fails it, and the most negative int32, -2^31, whose bit
   * pattern is 2^31, passes it even though it is negative.
   */
  lemma PowerOfTwoSamples()
    ensures !IsPowerOfTwo(0)
    ensures IsPowerOfTwo(1) && IsPowerOfTwo(2) && IsPowerOfTwo(1024)
    ensures !IsPowerOfTwo(6)
    ensures IsPowerOfTwo(0x8000_0000)
  {
  }

  /** `GetSign`: -1 for a negative number, 1 otherwise, zero included. */
  function GetSign(val: real): (r: real)
    ensures r == -1.0 || r == 1.0
    ensures r == -1.0 <==> val < 0.0
    ensures r * val == Abs(val)
  {
    if val < 0.0 then -1.0 else 1.0
  }

  /** The sign times the number is never negative; zero has sign 1. */
  lemma GetSignProperties(val: real)
    ensures GetSign(val) * val >= 0.0
    ensures GetSign(0.0) == 1.0
  {
  }

  /** The tolerance `IsNearEqual` uses: a missing or zero `epsilon` becomes `EPSILON`. */
  function Tolerance(epsilon: Option<real>): (r: real)
    ensures r != 0.0
    ensures r == EPSILON || (epsilon.Some? && r == epsilon.value)
  {
    if epsilon.None? || epsilon.value == 0.0 then EPSILON else epsilon.value
  }

  /**
   * `IsNearEqual(a, b, epsilon)`: `a` lies strictly inside the open interval of radius
   * `epsilon` around `b`, i.e. the distance of the two is below the tolerance.
   */
  function IsNearEqual(a: real, b: real, epsilon: Option<real>): (r: bool)
    ensures r <==> Abs(a - b) < Tolerance(epsilon)
  {
    var e := Tolerance(epsilon);
    a > b - e && a < b + e
  }

  /** Leaving `epsilon` out, or passing zero, is the same as passing `EPSILON`. */
  lemma IsNearEqualDefault(a: real, b: real)
    ensures IsNearEqual(a, b, None) == IsNearEqual(a, b, Some(EPSILON))
    ensures IsNearEqual(a, b, Some(0.0)) == IsNearEqual(a, b, Some(EPSILON))
    ensures IsNearEqual(a, b, None) <==> -EPSILON < a - b < EPSILON
  {
  }

  /** The test does not depend on the order of `a` and `b`. */
  lemma IsNearEqualSymmetric(a: real, b: real, epsilon: Option<real>)
    ensures IsNearEqual(a, b, epsilon) == IsNearEqual(b, a, epsilon)
  {
  }

  /** Every number is near itself under the default tolerance, or any positive one. */
  lemma IsNearEqualReflexive(a: real, epsilon: Option<real>)
    requires epsilon.None? || epsilon.value >= 0.0
    ensures IsNearEqual(a, a, epsilon)
  {
  }

  /**
   * The bounds are strict: numbers exactly one tolerance apart are not near; and a
   * negative `epsilon`, which is kept as it is, makes every pair not near.
   */
  lemma IsNearEqualBounds(a: real, b: real, epsilon: Option<real>)
    ensures Abs(a - b) == Tolerance(epsilon) ==> !IsNearEqual(a, b, epsilon)
    ensures epsilon.Some? && epsilon.value < 0.0 ==> !IsNearEqual(a, b, epsilon)
    ensures !IsNearEqual(b + EPSILON, b, None)
  {
  }
}
