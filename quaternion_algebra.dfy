/**
 * Value semantics of `Quaternion`: the four components as a record, the operations that
 * the class applies in place, and the algebraic facts about them. Numbers are reals:
 * `Math.fround` is taken to be the identity (see `F32`).
 */
module QuaternionAlgebra {
  import opened Numbers
  import opened Wrappers
  import V = Vectors3

  datatype Quat = Quat(x: real, y: real, z: real, w: real)

  const Zero: Quat := Quat(0.0, 0.0, 0.0, 0.0)
  const Identity: Quat := Quat(0.0, 0.0, 0.0, 1.0)

  /** `Math.fround`, the rounding to single precision, abstracted to the identity on reals. */
  function F32(v: real): real
  {
    v
  }

  /** `ZERO_F32`, which is `fround(0)`. */
  const ZERO_F32: real := F32(0.0)

  /** `ONE_F32` as the source defines it: `fround(0)`, so zero and not one. */
  const ONE_F32: real := F32(0.0)

  /** The components that a new `Quaternion` starts from before its constructor runs. */
  const Initial: Quat := Quat(ZERO_F32, ZERO_F32, ZERO_F32, ONE_F32)

  function Neg(q: Quat): Quat
  {
    Quat(-q.x, -q.y, -q.z, -q.w)
  }

  function Conj(q: Quat): Quat
  {
    Quat(-q.x, -q.y, -q.z, q.w)
  }

  /** The Hamilton product `a * b`. */
  function Mul(a: Quat, b: Quat): Quat
  {
    Quat(a.x * b.w + a.w * b.x + a.y * b.z - a.z * b.y,
         a.y * b.w + a.w * b.y + a.z * b.x - a.x * b.z,
         a.z * b.w + a.w * b.z + a.x * b.y - a.y * b.x,
         a.w * b.w - a.x * b.x - a.y * b.y - a.z * b.z)
  }

  /** The four-dimensional dot product. */
  function Dot(a: Quat, b: Quat): real
  {
    a.w * b.w + a.x * b.x + a.y * b.y + a.z * b.z
  }

  /** The dot product of two quaternions whose components agree in sign is never negative. */
  lemma DotSameSigns(a: Quat, b: Quat)
    requires SameSign(a.x, b.x) && SameSign(a.y, b.y) && SameSign(a.z, b.z) && SameSign(a.w, b.w)
    ensures Dot(a, b) >= 0.0
    ensures a != Zero ==> Dot(a, b) > 0.0
  {
    ProductSign(a.x, b.x);
    ProductSign(a.y, b.y);
    ProductSign(a.z, b.z);
    ProductSign(a.w, b.w);
  }

  /**
   * `lengthSq`, the sum of the squared components: never negative, and zero exactly for
   * the zero quaternion.
   */
  function NormSq(q: Quat): (r: real)
    ensures r >= 0.0
    ensures r == 0.0 <==> q == Zero
  {
    DotSameSigns(q, q);
    Dot(q, q)
  }

  function Scale(q: Quat, k: real): Quat
  {
    Quat(q.x * k, q.y * k, q.z * k, q.w * k)
  }

  /** `toArray`: the components in the order x, y, z, w. */
  function ToSeq(q: Quat): seq<real>
  {
    [q.x, q.y, q.z, q.w]
  }

  /**
   * The constructor called with three or four numbers: each is rounded, and a missing
   * `w` becomes `ONE_F32`.
   */
  function FromComponents(x: real, y: real, z: real, w: Option<real>): Quat
  {
    Quat(F32(x), F32(y), F32(z), if w.Some? then F32(w.value) else ONE_F32)
  }

  /** The array constructor: element `i`, or zero where the array has none. */
  function FromArray(a: seq<real>): Quat
  {
    Quat(if 0 < |a| then F32(a[0]) else ZERO_F32,
         if 1 < |a| then F32(a[1]) else ZERO_F32,
         if 2 < |a| then F32(a[2]) else ZERO_F32,
         if 3 < |a| then F32(a[3]) else ZERO_F32)
  }

  /**
   * The copy constructor as written: `z` is assigned twice, the second time from `w`,
   * and `w` keeps its initial value `ONE_F32`.
   */
  function Cloned(q: Quat): Quat
  {
    Quat(q.x, q.y, q.w, ONE_F32)
  }

  lemma NegInvolutive(q: Quat)
    ensures Neg(Neg(q)) == q
    ensures Neg(q) == Scale(q, -1.0)
  {
  }

  lemma ConjInvolutive(q: Quat)
    ensures Conj(Conj(q)) == q
    ensures Conj(q).w == q.w
  {
  }

  /** (0,0,0,1) is a two-sided unit of the Hamilton product. */
  lemma MulIdentity(q: Quat)
    ensures Mul(q, Identity) == q
    ensures Mul(Identity, q) == q
  {
  }

  /** `q * conj(q)` is the real quaternion |q|^2; for a unit `q` it is the identity. */
  lemma MulConjugate(q: Quat)
    ensures Mul(q, Conj(q)) == Quat(0.0, 0.0, 0.0, NormSq(q))
    ensures NormSq(q) == 1.0 ==> Mul(q, Conj(q)) == Identity
  {
  }

  /** Conjugation reverses the order of a product. */
  lemma ConjMul(a: Quat, b: Quat)
    ensures Conj(Mul(a, b)) == Mul(Conj(b), Conj(a))
  {
    ConjMulX(a, b);
    ConjMulY(a, b);
    ConjMulZ(a, b);
    ConjMulW(a, b);
  }

  lemma ConjMulX(a: Quat, b: Quat)
    ensures Conj(Mul(a, b)).x == Mul(Conj(b), Conj(a)).x
  {
  }

  lemma ConjMulY(a: Quat, b: Quat)
    ensures Conj(Mul(a, b)).y == Mul(Conj(b), Conj(a)).y
  {
  }

  lemma ConjMulZ(a: Quat, b: Quat)
    ensures Conj(Mul(a, b)).z == Mul(Conj(b), Conj(a)).z
  {
  }

  lemma ConjMulW(a: Quat, b: Quat)
    ensures Conj(Mul(a, b)).w == Mul(Conj(b), Conj(a)).w
  {
    var ca, cb := Conj(a), Conj(b);
    NegTimesNeg(a.x, b.x, ca.x, cb.x);
    NegTimesNeg(a.y, b.y, ca.y, cb.y);
    NegTimesNeg(a.z, b.z, ca.z, cb.z);
    assert cb.w * ca.w == a.w * b.w;
  }

  lemma NegTimesNeg(u: real, v: real, nu: real, nv: real)
    requires nu == -u && nv == -v
    ensures nv * nu == u * v
  {
  }

  /** The Hamilton product does not commute. */
  lemma MulNotCommutative()
    ensures Mul(Quat(1.0, 0.0, 0.0, 0.0), Quat(0.0, 1.0, 0.0, 0.0))
         != Mul(Quat(0.0, 1.0, 0.0, 0.0), Quat(1.0, 0.0, 0.0, 0.0))
  {
  }

  /** Scaling by the inverse of the length gives a unit quaternion. */
  lemma ScaleToUnit(q: Quat, length: real)
    requires length > 0.0 && length * length == NormSq(q)
    ensures NormSq(Scale(q, 1.0 / length)) == 1.0
  {
    var k := 1.0 / length;
    calc {
      NormSq(Scale(q, k));
      (q.x * k) * (q.x * k) + (q.y * k) * (q.y * k) + (q.z * k) * (q.z * k) + (q.w * k) * (q.w * k);
      k * k * NormSq(q);
      k * k * (length * length);
      (k * length) * (k * length);
    }
    assert k * length == 1.0;
  }

  /**
   * A length whose square is the squared norm is zero exactly when the quaternion is
   * zero; this is the case that `normalize` treats separately.
   */
  lemma LengthZero(q: Quat, length: real)
    requires IsSqrt(length, NormSq(q))
    ensures length == 0.0 <==> q == Zero
  {
    SqrtZero(length, NormSq(q));
  }

  /** `toArray` and the array constructor are inverse to each other. */
  lemma ArrayRoundTrip(q: Quat)
    ensures |ToSeq(q)| == 4
    ensures FromArray(ToSeq(q)) == q
  {
  }

  /** An array with fewer than four elements fills the missing components, `w` included, with zero. */
  lemma ArrayDefaults(a: seq<real>)
    requires |a| < 4
    ensures FromArray(a).w == 0.0
    ensures a == [] ==> FromArray(a) == Zero
  {
  }

  /**
   * Because `ONE_F32` is zero, a new quaternion starts as (0,0,0,0) rather than the
   * identity, and the three-number constructor gives `w` the value 0.
   */
  lemma DefaultsAreZero(x: real, y: real, z: real)
    ensures Initial == Zero && Initial != Identity
    ensures FromComponents(x, y, z, None) == Quat(x, y, z, 0.0)
    ensures forall w: real :: FromComponents(x, y, z, Some(w)) == Quat(x, y, z, w)
  {
  }

  /**
   * Cloning reproduces a quaternion only when its `z` and `w` are both zero; it turns
   * the default quaternion into (0,0,0,0) and the identity into (0,0,1,0).
   */
  lemma ClonedReproducesOnlyWhenZW(q: Quat)
    ensures Cloned(q) == q <==> q.z == 0.0 && q.w == 0.0
    ensures Cloned(Identity) == Quat(0.0, 0.0, 1.0, 0.0)
    ensures Initial == Zero && Cloned(Initial) == Zero
  {
  }

  /**
   * The identity `q * conj(clone(q)) == (0,0,0,1)` does not hold for the identity itself,
   * because its clone is (0,0,1,0).
   */
  lemma ConjugatedCloneIsNotInverse()
    ensures Conj(Cloned(Identity)).z == -1.0 && Conj(Cloned(Identity)).w == 0.0
    ensures Mul(Identity, Conj(Cloned(Identity))) == Conj(Cloned(Identity))
    ensures Mul(Identity, Conj(Cloned(Identity))) != Identity
  {
    MulIdentity(Conj(Cloned(Identity)));
  }

  // setFromUnitVectors

  /** `EPS` of `setFromUnitVectors`: below it, `dot(vFrom, vTo) + 1` counts as zero. */
  const UnitVectorsEps: real := 0.000001

  /** The two vectors are (nearly) opposite, so their cross product is of no use. */
  predicate Antipodal(vFrom: V.Vec3, vTo: V.Vec3)
  {
    V.Dot(vFrom, vTo) + 1.0 < UnitVectorsEps
  }

  /** The vector that the antipodal branch builds by swapping two components of `vFrom`. */
  function Perpendicular(v: V.Vec3): V.Vec3
  {
    if Abs(v.x) > Abs(v.z) then V.Vec3(-v.y, v.x, 0.0) else V.Vec3(0.0, -v.z, v.y)
  }

  /** The helper is orthogonal to `v`, and nonzero whenever `v` is nonzero. */
  lemma PerpendicularProperties(v: V.Vec3)
    ensures V.Dot(Perpendicular(v), v) == 0.0
    ensures v != V.Origin ==> Perpendicular(v) != V.Origin
  {
    if Abs(v.x) > Abs(v.z) {
      assert Perpendicular(v) == V.Vec3(-v.y, v.x, 0.0);
      assert V.Dot(Perpendicular(v), v) == -v.y * v.x + v.x * v.y;
      assert v.x != 0.0;
    } else {
      assert Perpendicular(v) == V.Vec3(0.0, -v.z, v.y);
      assert V.Dot(Perpendicular(v), v) == -v.z * v.y + v.y * v.z;
      assert v.y == 0.0 && v.z == 0.0 ==> v.x == 0.0;
    }
  }

  /** The quaternion `setFromUnitVectors` holds just before it calls `normalize`. */
  function UnitVectorsRaw(vFrom: V.Vec3, vTo: V.Vec3): Quat
  {
    var r := V.Dot(vFrom, vTo) + 1.0;
    if r < UnitVectorsEps then
      var v1 := Perpendicular(vFrom);
      Quat(v1.x, v1.y, v1.z, 0.0)
    else
      var v1 := V.Cross(vFrom, vTo);
      Quat(v1.x, v1.y, v1.z, r)
  }

  function Axis(q: Quat): V.Vec3
  {
    V.Vec3(q.x, q.y, q.z)
  }

  /**
   * Before normalising, the quaternion is never zero, so `normalize` always scales it;
   * its axis is orthogonal to `vFrom`; in the antipodal branch `w` is zero, otherwise
   * `w` is positive and the axis is orthogonal to `vTo` too.
   */
  lemma UnitVectorsRawProperties(vFrom: V.Vec3, vTo: V.Vec3)
    ensures NormSq(UnitVectorsRaw(vFrom, vTo)) > 0.0
    ensures V.Dot(Axis(UnitVectorsRaw(vFrom, vTo)), vFrom) == 0.0
    ensures Antipodal(vFrom, vTo) ==> UnitVectorsRaw(vFrom, vTo).w == 0.0
    ensures !Antipodal(vFrom, vTo) ==>
              UnitVectorsRaw(vFrom, vTo).w > 0.0 && V.Dot(Axis(UnitVectorsRaw(vFrom, vTo)), vTo) == 0.0
  {
    var q := UnitVectorsRaw(vFrom, vTo);
    if Antipodal(vFrom, vTo) {
      assert vFrom != V.Origin;
      PerpendicularProperties(vFrom);
      assert Axis(q) == Perpendicular(vFrom);
    } else {
      V.CrossOrthogonal(vFrom, vTo);
      assert Axis(q) == V.Cross(vFrom, vTo);
    }
  }

  /** Scaling a quaternion scales the dot products of its axis. */
  lemma ScaleAxisDot(q: Quat, k: real, v: V.Vec3)
    ensures V.Dot(Axis(Scale(q, k)), v) == k * V.Dot(Axis(q), v)
  {
    assert Axis(Scale(q, k)) == V.Scale(Axis(q), k);
    V.DotScale(Axis(q), k, v);
  }

  /** `normalize`: the identity when the length is zero, otherwise the quaternion divided by it. */
  function Normalized(q: Quat, length: real): Quat
  {
    if length == 0.0 then Identity else Scale(q, 1.0 / length)
  }

  lemma IdentityIsUnit()
    ensures NormSq(Identity) == 1.0
  {
  }

  /**
   * With the true length, `normalize` always yields a unit quaternion: the identity for
   * the zero quaternion, and the quaternion divided by its length otherwise.
   */
  lemma NormalizedIsUnit(q: Quat, length: real)
    requires IsSqrt(length, NormSq(q))
    ensures NormSq(Normalized(q, length)) == 1.0
    ensures q == Zero ==> Normalized(q, length) == Identity
    ensures q != Zero ==> length > 0.0 && Normalized(q, length) == Scale(q, 1.0 / length)
  {
    if q == Zero {
      LengthZero(q, length);
      IdentityIsUnit();
    } else {
      LengthZero(q, length);
      ScaleToUnit(q, length);
    }
  }

  /**
   * What `setFromUnitVectors` leaves behind once `normalize` has run on the raw
   * quaternion: a unit quaternion whose axis is orthogonal to `vFrom`, whose `w` is zero
   * in the antipodal branch and positive otherwise, where the axis is orthogonal to
   * `vTo` as well.
   */
  lemma UnitVectorsNormalized(vFrom: V.Vec3, vTo: V.Vec3, length: real)
    requires IsSqrt(length, NormSq(UnitVectorsRaw(vFrom, vTo)))
    ensures NormSq(Normalized(UnitVectorsRaw(vFrom, vTo), length)) == 1.0
    ensures V.Dot(Axis(Normalized(UnitVectorsRaw(vFrom, vTo), length)), vFrom) == 0.0
    ensures Antipodal(vFrom, vTo) ==> Normalized(UnitVectorsRaw(vFrom, vTo), length).w == 0.0
    ensures !Antipodal(vFrom, vTo) ==>
              Normalized(UnitVectorsRaw(vFrom, vTo), length).w > 0.0 &&
              V.Dot(Axis(Normalized(UnitVectorsRaw(vFrom, vTo), length)), vTo) == 0.0
  {
    var raw := UnitVectorsRaw(vFrom, vTo);
    UnitVectorsRawProperties(vFrom, vTo);
    NormalizedIsUnit(raw, length);
    var k := 1.0 / length;
    assert Normalized(raw, length) == Scale(raw, k);
    ScaleAxisDot(raw, k, vFrom);
    ScaleAxisDot(raw, k, vTo);
    if !Antipodal(vFrom, vTo) {
      ProductSign(raw.w, k);
    }
  }

  // Slerp

  /** The half-way blend of the degenerate branch of `Slerp`. */
  function Average(a: Quat, b: Quat): Quat
  {
    Quat(a.x * 0.5 + b.x * 0.5, a.y * 0.5 + b.y * 0.5, a.z * 0.5 + b.z * 0.5, a.w * 0.5 + b.w * 0.5)
  }

  /** The weighted blend of the general branch of `Slerp`. */
  function Blend(a: Quat, b: Quat, ratioA: real, ratioB: real): Quat
  {
    Quat(a.x * ratioA + b.x * ratioB, a.y * ratioA + b.y * ratioB,
         a.z * ratioA + b.z * ratioB, a.w * ratioA + b.w * ratioB)
  }

  /**
   * The test `|sin(halfTheta)| < 0.001` of `Slerp`, where `sin(halfTheta)` is computed as
   * `sqrt(1 - c*c)` and `|c| < 1`: it holds exactly when `1 - c*c < 0.001^2`.
   */
  predicate SinHalfThetaSmall(cosHalfTheta: real)
  {
    1.0 - cosHalfTheta * cosHalfTheta < 0.000001
  }

  /**
   * What `Slerp` writes into its output. `ratioA` and `ratioB` stand for the two
   * sine ratios the source computes from `lambda`.
   */
  function SlerpValue(a: Quat, b: Quat, ratioA: real, ratioB: real): Quat
  {
    var c := Dot(a, b);
    if Abs(c) >= 1.0 then a
    else if SinHalfThetaSmall(c) then Average(a, b)
    else Blend(a, b, ratioA, ratioB)
  }

  /** When `|dot(qa, qb)| >= 1` the output is exactly `qa`, whatever the ratios. */
  lemma SlerpEarlyExit(a: Quat, b: Quat, ratioA: real, ratioB: real)
    requires Abs(Dot(a, b)) >= 1.0
    ensures SlerpValue(a, b, ratioA, ratioB) == a
  {
  }

  /** Interpolating a unit quaternion with itself, or with its negation, yields it exactly. */
  lemma SlerpSameRotation(q: Quat, ratioA: real, ratioB: real)
    requires NormSq(q) == 1.0
    ensures SlerpValue(q, q, ratioA, ratioB) == q
    ensures SlerpValue(q, Neg(q), ratioA, ratioB) == q
  {
    assert Dot(q, q) == NormSq(q);
    assert Dot(q, Neg(q)) == -NormSq(q);
  }
}
