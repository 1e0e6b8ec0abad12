/**
 * The mutable `Quaternion` class: four number fields that its methods overwrite in
 * place. Each method is specified by the value-level operation of `QuaternionAlgebra`
 * that it applies to `Value()`. Methods that return `this` for chaining return nothing
 * here.
 */
module Quaternions {
  import opened Numbers
  import opened Wrappers
  import opened QuaternionAlgebra
  import V = Vectors3

  class Quaternion {
    var x: real
    var y: real
    var z: real
    var w: real

    /** The four fields as a value. */
    function Value(): Quat
      reads this
    {
      Quat(x, y, z, w)
    }

    /**
     * `new Quaternion()`, and also a call with one or two arguments that are neither an
     * array nor a quaternion: the fields keep their declared initial values.
     */
    constructor ()
      ensures Value() == Initial
    {
      x, y, z, w := ZERO_F32, ZERO_F32, ZERO_F32, ONE_F32;
    }

    /** `new Quaternion(x, y, z)` or `new Quaternion(x, y, z, w)`. */
    constructor FromComponents(x0: real, y0: real, z0: real, w0: Option<real>)
      ensures Value() == QuaternionAlgebra.FromComponents(x0, y0, z0, w0)
    {
      x := F32(x0);
      y := F32(y0);
      z := F32(z0);
      w := if w0.Some? then F32(w0.value) else ONE_F32;
    }

    /** `new Quaternion(array)`: missing elements become zero. */
    constructor FromArray(a: seq<real>)
      ensures Value() == QuaternionAlgebra.FromArray(a)
    {
      x := if 0 < |a| then F32(a[0]) else ZERO_F32;
      y := if 1 < |a| then F32(a[1]) else ZERO_F32;
      z := if 2 < |a| then F32(a[2]) else ZERO_F32;
      w := if 3 < |a| then F32(a[3]) else ZERO_F32;
    }

    /**
     * `new Quaternion(q)` as written: `z` is assigned twice, the second time from `q.w`,
     * and `w` keeps its initial value.
     */
    constructor FromQuaternion(q: Quaternion)
      ensures Value() == Cloned(q.Value())
    {
      x := q.x;
      y := q.y;
      z := q.z;
      z := q.w;
      w := ONE_F32;
    }

    method Set(x0: real, y0: real, z0: real, w0: real)
      modifies this
      ensures Value() == Quat(F32(x0), F32(y0), F32(z0), F32(w0))
    {
      x := F32(x0);
      y := F32(y0);
      z := F32(z0);
      w := F32(w0);
    }

    /** Component-wise equality. */
    function Equals(v: Quaternion): (r: bool)
      reads this, v
      ensures r <==> Value() == v.Value()
    {
      v.x == x && v.y == y && v.z == z && v.w == w
    }

    method Negate()
      modifies this
      ensures Value() == Neg(old(Value()))
    {
      x := -x;
      y := -y;
      z := -z;
      w := -w;
    }

    /** `toArray`: the array constructor turns it back into this quaternion. */
    function ToArray(): (r: seq<real>)
      reads this
      ensures |r| == 4
      ensures QuaternionAlgebra.FromArray(r) == Value()
    {
      [x, y, z, w]
    }

    /** `copy(q)`, which goes through `set`; afterwards `equals(q)` holds. */
    method Copy(q: Quaternion)
      modifies this
      ensures Value() == old(q.Value())
      ensures Equals(q)
    {
      Set(q.x, q.y, q.z, q.w);
    }

    /** `clone()`, through the copy constructor, so `z` and `w` are not reproduced. */
    method Clone() returns (c: Quaternion)
      ensures fresh(c)
      ensures c.Value() == Cloned(Value())
    {
      c := new Quaternion.FromQuaternion(this);
    }

    /**
     * `normalize`, with `length` standing for `this.length()`, i.e. `Math.sqrt` of the
     * squared length. A zero quaternion becomes the identity; the result is always a
     * unit quaternion.
     */
    method Normalize(length: real)
      requires IsSqrt(length, NormSq(Value()))
      modifies this
      ensures Value() == Normalized(old(Value()), length)
      ensures old(Value()) == Zero ==> Value() == Identity
      ensures NormSq(Value()) == 1.0
    {
      var q := Value();
      if length == 0.0 {
        x, y, z, w := 0.0, 0.0, 0.0, 1.0;
      } else {
        var l := 1.0 / length;
        var scaled := Scale(q, l);
        x, y, z, w := scaled.x, scaled.y, scaled.z, scaled.w;
      }
      NormalizedIsUnit(q, length);
    }

    /** `lengthSq`: never negative, and zero exactly when all four fields are zero. */
    function LengthSq(): (r: real)
      reads this
      ensures r == NormSq(Value())
      ensures r >= 0.0
      ensures r == 0.0 <==> x == 0.0 && y == 0.0 && z == 0.0 && w == 0.0
    {
      NormSq(Value())
    }

    method Conjugate()
      modifies this
      ensures Value() == Conj(old(Value()))
    {
      x := -x;
      y := -y;
      z := -z;
    }

    /**
     * `multiply(b)`: the Hamilton product `this * b`, from copies of both operands taken
     * before any field is written, so `q.multiply(q)` squares `q`.
     */
    method Multiply(b: Quaternion)
      modifies this
      ensures Value() == Mul(old(Value()), old(b.Value()))
      ensures b != this ==> b.Value() == old(b.Value())
    {
      var qa, qb := Value(), b.Value();
      var product := Mul(qa, qb);
      x, y, z, w := product.x, product.y, product.z, product.w;
    }

    /**
     * `setFromUnitVectors(vFrom, vTo)`, with `length` standing for the length of the
     * quaternion that `normalize` is given at the end.
     */
    method SetFromUnitVectors(vFrom: V.Vec3, vTo: V.Vec3, length: real)
      requires IsSqrt(length, NormSq(UnitVectorsRaw(vFrom, vTo)))
      modifies this
      ensures Value() == Normalized(UnitVectorsRaw(vFrom, vTo), length)
      ensures NormSq(Value()) == 1.0
      ensures V.Dot(Axis(Value()), vFrom) == 0.0
      ensures Antipodal(vFrom, vTo) ==> w == 0.0
      ensures !Antipodal(vFrom, vTo) ==> w > 0.0 && V.Dot(Axis(Value()), vTo) == 0.0
    {
      var r := V.Dot(vFrom, vTo) + 1.0;
      var v1: V.Vec3;
      if r < UnitVectorsEps {
        r := 0.0;
        if Abs(vFrom.x) > Abs(vFrom.z) {
          v1 := V.Vec3(-vFrom.y, vFrom.x, 0.0);
        } else {
          v1 := V.Vec3(0.0, -vFrom.z, vFrom.y);
        }
      } else {
        v1 := V.Cross(vFrom, vTo);
      }
      x := v1.x;
      y := v1.y;
      z := v1.z;
      w := r;
      assert Value() == UnitVectorsRaw(vFrom, vTo);
      UnitVectorsNormalized(vFrom, vTo, length);
      Normalize(length);
    }
  }

  /**
   * `Quaternion.Slerp(qa, qb, qm, lambda)` writes into `qm`. `ratioA` and `ratioB` stand
   * for the two sine ratios the source derives from `lambda`; they matter only in the
   * general branch. Each component of `qm` is computed from the same component of the
   * inputs only, so reading both inputs up front, as here, gives the same result as the
   * source even when `qm` is `qa` or `qb`.
   */
  method Slerp(qa: Quaternion, qb: Quaternion, qm: Quaternion, ratioA: real, ratioB: real)
    modifies qm
    ensures qm.Value() == SlerpValue(old(qa.Value()), old(qb.Value()), ratioA, ratioB)
    ensures qa != qm ==> qa.Value() == old(qa.Value())
    ensures qb != qm ==> qb.Value() == old(qb.Value())
  {
    var a, b := qa.Value(), qb.Value();
    var cosHalfTheta := Dot(a, b);
    if Abs(cosHalfTheta) >= 1.0 {
      qm.w, qm.x, qm.y, qm.z := a.w, a.x, a.y, a.z;
      return;
    }
    if SinHalfThetaSmall(cosHalfTheta) {
      var half := Average(a, b);
      qm.w, qm.x, qm.y, qm.z := half.w, half.x, half.y, half.z;
      return;
    }
    var blend := Blend(a, b, ratioA, ratioB);
    qm.w, qm.x, qm.y, qm.z := blend.w, blend.x, blend.y, blend.z;
  }
}
