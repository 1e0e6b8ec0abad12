/** Small facts about real numbers shared by the other modules. */
module Numbers {

  /** `Math.abs` on a number (NaN is not modelled). */
  function Abs(v: real): (r: real)
    ensures r >= 0.0
    ensures r == v || r == -v
  {
    if v < 0.0 then -v else v
  }

  /** The two numbers are both positive, both negative or both zero. */
  predicate SameSign(u: real, v: real)
  {
    (u > 0.0 && v > 0.0) || (u < 0.0 && v < 0.0) || (u == 0.0 && v == 0.0)
  }

  /**
   * The product of two numbers of the same sign is never negative, and positive unless
   * they are zero. With `u` and `v` the same number this says that a square is never
   * negative and is positive for a nonzero base.
   */
  lemma ProductSign(u: real, v: real)
    requires SameSign(u, v)
    ensures u * v >= 0.0
    ensures u != 0.0 ==> u * v > 0.0
  {
    if u > 0.0 {
      assert u * v > 0.0;
    } else if u < 0.0 {
      assert (-u) * (-v) > 0.0;
    }
  }

  /** A product of two numbers of the same sign is zero only when they are zero. */
  lemma ZeroProduct(u: real, v: real, p: real)
    requires SameSign(u, v) && p == u * v && p == 0.0
    ensures u == 0.0
  {
    if u != 0.0 {
      ProductSign(u, v);
    }
  }

  /** `r` is the square root of `s`, the value `Math.sqrt(s)` stands for. */
  predicate IsSqrt(r: real, s: real)
  {
    r >= 0.0 && r * r == s
  }

  /** A square root is zero exactly when its square is. */
  lemma SqrtZero(r: real, s: real)
    requires IsSqrt(r, s)
    ensures r == 0.0 <==> s == 0.0
  {
    if s == 0.0 {
      ZeroProduct(r, r, s);
    }
  }
}

/** An optional argument: `None` stands for an argument the caller left `undefined`. */
module Wrappers {

  datatype Option<T> = None | Some(value: T)
}
