# Quaternion, Rectangle and scalar helpers of a TypeScript math library, in Dafny

This project models three parts of a small TypeScript math library and proves what
they promise.

- **`Quaternion`** (`src/Quaternion.ts`) is a mutable record of four numbers `x, y, z, w`.
  Its methods overwrite the fields in place. The model covers:
  - the constructor overloads and their defaults;
  - `set`, `copy`, `clone`, `equals`, `negate`, `conjugate`, `toArray`, `lengthSq`;
  - the Hamilton product `multiply`;
  - `normalize`, including its exact-zero guard;
  - `setFromUnitVectors`, including its antipodal branch;
  - the static `Slerp`, which writes into an output quaternion.
- **`Rectangle`** (`src/Rectangle.ts`) is an axis-aligned 2D box. Its two corners are
  `Vector2` objects that the methods change in place. The model covers:
  - the constructor;
  - `set`, `empty`, `expand`, the `setFromPoints` loop, `merge`, `copy`, `clone`;
  - the queries `equals`, `containsPoint`, `containsBox`, `intersects`.
- **Scalar helpers** (`src/Utils.ts` and its compiled copy `dist/src/Utils.js`):
  - `IsPowerOfTwo`, a 32-bit bit trick;
  - `GetSign`;
  - `IsNearEqual`, with its default tolerance.

Each class is a Dafny `class` whose methods are proved against value-level functions:

| class | value-level module |
|---|---|
| `Quaternion` | `QuaternionAlgebra` |
| `Rectangle` | `Boxes` |

The properties are proved as lemmas about those functions.

Modelling choices:

- Box coordinates are extended reals, so the empty box can hold ±Infinity. They are
  defined in module `ExtendedReal` as `NegInf | Fin(real) | PosInf`.
- `Math.fround` is the identity on reals (`QuaternionAlgebra.F32`).
- `IsPowerOfTwo` works on the `bv32` bit pattern that JavaScript's `&` converts its
  operands to.
- The source of `Vector2` is not part of this model. `Rectangles.Vector2` is a stand-in
  class with two coordinate fields and the usual componentwise in-place `copy`, `min` and
  `max`, plus `equals`. Every `Rectangle` corner is an object of that class.
- The source of `Vector3` is not part of this model either. It is the plain record
  `Vectors3.Vec3`, with the usual `dot` and `cross`.
- Square roots and sines are parameters. The caller supplies them, constrained by what
  they must satisfy:
  - `Normalize` and `SetFromUnitVectors` take the length. Its square must be the squared
    norm (`Numbers.IsSqrt`).
  - `Slerp` takes the two sine ratios of its general branch.

In several places the code does not do what a caller would expect. The model follows the code:

- **Default `w` is zero.** `ONE_F32` is `fround(0)` (`src/Quaternion.ts:14`). So a new
  quaternion is (0,0,0,0) rather than the identity. The three-number constructor also
  gives `w` the value 0. The constructor takes its component branch for three *or more*
  arguments.
- **The copy constructor copies `w` into `z`** and leaves `w` at its default
  (`src/Quaternion.ts:51`). So `clone()` turns (x,y,z,w) into (x,y,w,0). A caller
  would expect `q.multiply(q.clone().conjugate())` to give the identity for a unit `q`.
  It does not, even for the identity itself
  (`QuaternionAlgebra.ConjugatedCloneIsNotInverse`).
- **`Rectangle.copy` takes a maximum instead of copying.** It calls `max.max(box.max)`
  where a copy was meant (`src/Rectangle.ts:202`). It still reproduces the box on a fresh
  receiver, which is what `clone` uses (`Boxes.CopyAsWrittenReproduces`). It does not on
  a larger box (`Boxes.CopyAsWrittenKeepsOldMax`).
- **`IsPowerOfTwo` accepts a negative number.** It holds for the most negative int32,
  -2^31, whose bit pattern is 2^31 (`Utils.PowerOfTwoSamples`). On the positive int32
  values it holds exactly for the powers of two (`Utils.PowerOfTwoPositive`).
- **`intersects` compares corners only.** For boxes whose min corner is at or below
  their max corner, it holds exactly when the two boxes share a point
  (`Boxes.IntersectsIffCommonPoint`). But the empty box of `new Rectangle()`, which holds
  no point, intersects the box that spans the whole plane (`Boxes.EmptyIntersectsPlane`).
- **`multiply` is defined when `b` is the receiver.** It copies both operands before
  writing, so `q.multiply(q)` squares `q`. `Slerp` works one component at a time, so
  it is also defined when `qm` is `qa` or `qb`. A caller might expect either call to go
  wrong when an argument is also the receiver or the output, but neither does. Both
  methods are specified from the values their arguments had on entry.

## Model

| member | source | states |
|---|---|---|
| Numbers.Abs | src/Quaternion.ts:317 | `Math.abs`: the result is non-negative and is `v` or `-v` |
| ExtendedReal.LeTotalOrder | src/Rectangle.ts:124-135 | `<=` on numbers with ±Infinity is reflexive, total, antisymmetric and transitive |
| ExtendedReal.Min | src/Rectangle.ts:158 | the componentwise minimum is a lower bound of both arguments and equals one of them |
| ExtendedReal.Max | src/Rectangle.ts:159 | the componentwise maximum is an upper bound of both arguments and equals one of them |
| Boxes.ContainsBoxPoint | src/Rectangle.ts:105-135 | a box that contains another also contains every point of it |
| Boxes.PointsContainedContainsBox | src/Rectangle.ts:124-135 | a box that holds every point of a proper box encloses it |
| Boxes.ContainsBoxIffPoints | src/Rectangle.ts:119-135 | for a proper box `b`, `containsBox(b)` holds exactly when every point of `b` is held |
| Boxes.ContainsBoxPreorder | src/Rectangle.ts:124-135 | `containsBox` is reflexive and transitive |
| Boxes.EmptyContainsNoPoint | src/Rectangle.ts:57-64 | the empty box (min +Infinity, max -Infinity) contains no point |
| Boxes.ExpandContainsPoint | src/Rectangle.ts:156-163 | after `expand(p)` the box contains `p` |
| Boxes.ExpandGrows | src/Rectangle.ts:156-163 | the expanded box contains the old one; expanding twice by one point equals expanding once |
| Boxes.ExpandIsSmallest | src/Rectangle.ts:156-163 | every box that contains the old box and `p` contains the expanded box |
| Boxes.ExpandAllContains | src/Rectangle.ts:40-52 | the box built from a point sequence contains each point and the start box (proved by induction) |
| Boxes.ExpandAllIsSmallest | src/Rectangle.ts:40-52 | every box that contains the start box and all the points contains the box built from them |
| Boxes.ExpandAllNone | src/Rectangle.ts:40-52 | an empty point sequence leaves the start box unchanged |
| Boxes.MergeContainsBoth | src/Rectangle.ts:178-185 | the merged box contains both the receiver's old value and the other box |
| Boxes.MergeIsSmallest | src/Rectangle.ts:178-185 | every box that contains both boxes contains their merge |
| Boxes.IntersectsSymmetric | src/Rectangle.ts:142-151 | `intersects` does not depend on the order of the two boxes |
| Boxes.CommonPointIntersects | src/Rectangle.ts:142-151 | two boxes that contain a common point intersect |
| Boxes.IntersectsHasCommonPoint | src/Rectangle.ts:142-151 | two proper boxes (min at or below max on both axes) that intersect share a point, the componentwise larger min corner |
| Boxes.IntersectsIffCommonPoint | src/Rectangle.ts:138-151 | for proper boxes, `intersects` holds exactly when the two boxes share a point |
| Boxes.EmptyIntersectsPlane | src/Rectangle.ts:142-151 | the empty box, which is not proper, intersects the box spanning the whole plane, although it holds no point |
| Boxes.CopyAsWrittenReproduces | src/Rectangle.ts:199-206 | `copy` as written reproduces the other box exactly when the receiver's max corner is at or below the other's on both axes, and in particular on a fresh box |
| Boxes.CopyAsWrittenKeepsOldMax | src/Rectangle.ts:202 | for a concrete larger receiver, `copy` keeps the receiver's old max corner, so it does not reproduce the other box |
| Rectangles.Rectangle.constructor | src/Rectangle.ts:16-23 | a given corner is stored as that same object; an omitted min is a new (+Infinity, +Infinity), an omitted max a new (-Infinity, -Infinity) |
| Rectangles.Rectangle.Set | src/Rectangle.ts:28-35 | both corners take the given values |
| Rectangles.Rectangle.Empty | src/Rectangle.ts:57-64 | the box becomes the empty box |
| Rectangles.Rectangle.Equals | src/Rectangle.ts:69-73 | true exactly when both corners agree |
| Rectangles.Rectangle.ContainsPoint | src/Rectangle.ts:105-116 | true exactly when the point lies in the closed box |
| Rectangles.Rectangle.ContainsBox | src/Rectangle.ts:124-135 | true exactly when this box encloses the other |
| Rectangles.Rectangle.Intersects | src/Rectangle.ts:142-151 | true exactly when the two closed boxes overlap on both axes |
| Rectangles.Rectangle.Expand | src/Rectangle.ts:156-163 | the new box is the old one expanded by the point; it contains the point and the old box |
| Rectangles.Rectangle.SetFromPoints | src/Rectangle.ts:40-52 | the loop leaves the empty box expanded by each point in order; every point is contained, and no points leave the empty box |
| Rectangles.Rectangle.Merge | src/Rectangle.ts:178-185 | min becomes the componentwise minimum and max the componentwise maximum, where the maximum sees the updated min when `box.max` is this box's min object; in every case the result contains its own old value and `box`; without that aliasing it is exactly the merge of the two old boxes |
| Rectangles.Rectangle.Copy | src/Rectangle.ts:199-206 | min is copied from `box.min`, but max becomes the componentwise maximum of the old max and `box.max` |
| Rectangles.Rectangle.Clone | src/Rectangle.ts:190-194 | a fresh box with fresh corners and the same value |
| QuaternionAlgebra.NormSq | src/Quaternion.ts:142-146 | `lengthSq` is non-negative and is zero exactly for (0,0,0,0) |
| QuaternionAlgebra.NegInvolutive | src/Quaternion.ts:73-81 | negating twice restores the quaternion; negation is scaling by -1 |
| QuaternionAlgebra.ConjInvolutive | src/Quaternion.ts:148-155 | conjugating twice restores the quaternion; `w` is untouched |
| QuaternionAlgebra.MulIdentity | src/Quaternion.ts:157-170 | multiplying by (0,0,0,1) on either side leaves all four components unchanged |
| QuaternionAlgebra.MulConjugate | src/Quaternion.ts:148-170 | `q * conj(q)` is (0,0,0,lengthSq), so the identity for a unit `q` |
| QuaternionAlgebra.ConjMul | src/Quaternion.ts:148-170 | the conjugate of a product is the product of the conjugates in reverse order |
| QuaternionAlgebra.MulNotCommutative | src/Quaternion.ts:157-170 | the order of the factors matters (i*j differs from j*i) |
| QuaternionAlgebra.ScaleToUnit | src/Quaternion.ts:123-131 | dividing by the true length gives squared length 1 |
| QuaternionAlgebra.LengthZero | src/Quaternion.ts:115-122 | the length is zero exactly when all four components are zero |
| QuaternionAlgebra.NormalizedIsUnit | src/Quaternion.ts:113-134 | `normalize` always yields squared length 1; the zero quaternion becomes exactly (0,0,0,1), any other is divided by its length |
| QuaternionAlgebra.ArrayRoundTrip | src/Quaternion.ts:83-86 | `toArray` has four elements and the array constructor turns it back into the same quaternion |
| QuaternionAlgebra.ArrayDefaults | src/Quaternion.ts:42-46 | missing array elements become 0, `w` included |
| QuaternionAlgebra.DefaultsAreZero | src/Quaternion.ts:14-40 | the initial quaternion is (0,0,0,0) and not the identity; the three-number constructor sets `w` to 0 |
| QuaternionAlgebra.ClonedReproducesOnlyWhenZW | src/Quaternion.ts:47-51 | the copy constructor reproduces `q` exactly when `q.z` and `q.w` are 0; it turns the identity into (0,0,1,0) |
| QuaternionAlgebra.ConjugatedCloneIsNotInverse | src/Quaternion.ts:47-51 | the identity times the conjugate of its clone is (0,0,-1,0), not the identity |
| QuaternionAlgebra.PerpendicularProperties | src/Quaternion.ts:203-211 | the antipodal helper vector is orthogonal to `vFrom` and non-zero when `vFrom` is |
| QuaternionAlgebra.UnitVectorsRawProperties | src/Quaternion.ts:197-222 | before `normalize` the quaternion is non-zero and its axis is orthogonal to `vFrom`; in the antipodal branch `w` is 0, otherwise `w` is positive and the axis is orthogonal to `vTo` |
| QuaternionAlgebra.UnitVectorsNormalized | src/Quaternion.ts:187-228 | after `normalize` these facts still hold, and the quaternion has squared length 1 |
| QuaternionAlgebra.SlerpEarlyExit | src/Quaternion.ts:315-320 | when the absolute dot product is at least 1, the output is exactly `qa`, whatever the ratios |
| QuaternionAlgebra.SlerpSameRotation | src/Quaternion.ts:312-342 | interpolating a unit quaternion with itself or its negation yields it exactly |
| Quaternions.Quaternion.constructor | src/Quaternion.ts:22-25 | with no usable arguments the fields keep their initial values (0,0,0,`ONE_F32`) |
| Quaternions.Quaternion.FromComponents | src/Quaternion.ts:36-41 | three or four numbers, each rounded; a missing `w` becomes `ONE_F32` |
| Quaternions.Quaternion.FromArray | src/Quaternion.ts:42-46 | element `i` of the array, or 0 where there is none |
| Quaternions.Quaternion.FromQuaternion | src/Quaternion.ts:47-52 | the copy constructor as written: (x, y, w, `ONE_F32`) |
| Quaternions.Quaternion.Set | src/Quaternion.ts:56-65 | the four fields take the rounded arguments |
| Quaternions.Quaternion.Equals | src/Quaternion.ts:67-71 | true exactly when all four fields agree |
| Quaternions.Quaternion.Negate | src/Quaternion.ts:73-81 | all four fields change sign |
| Quaternions.Quaternion.ToArray | src/Quaternion.ts:83-86 | four elements, which the array constructor turns back into this quaternion |
| Quaternions.Quaternion.Copy | src/Quaternion.ts:89-94 | the fields take `q`'s values, and afterwards `equals(q)` holds |
| Quaternions.Quaternion.Clone | src/Quaternion.ts:96-99 | a fresh quaternion, built by the copy constructor as written |
| Quaternions.Quaternion.Normalize | src/Quaternion.ts:113-134 | the zero quaternion becomes (0,0,0,1), any other is divided by its length; either way the result has squared length 1 |
| Quaternions.Quaternion.LengthSq | src/Quaternion.ts:142-146 | the squared norm: non-negative, and zero exactly when all four fields are zero |
| Quaternions.Quaternion.Conjugate | src/Quaternion.ts:148-155 | `x, y, z` change sign and `w` is untouched |
| Quaternions.Quaternion.Multiply | src/Quaternion.ts:157-170 | the fields become the Hamilton product of the old receiver and the old `b`, so `q.multiply(q)` squares `q`; a distinct `b` is unchanged |
| Quaternions.Quaternion.SetFromUnitVectors | src/Quaternion.ts:187-228 | the normalised quaternion of the branch taken: squared length 1, axis orthogonal to `vFrom`, `w` 0 in the antipodal branch and positive otherwise, with the axis orthogonal to `vTo` too |
| Quaternions.Slerp | src/Quaternion.ts:312-342 | `qm` receives `qa` when the absolute dot product is at least 1, the average when the half-angle sine is below 0.001, and the weighted blend otherwise; inputs other than `qm` are unchanged |
| Utils.IsPowerOfTwo | src/Utils.ts:35-37 | on the int32 bit pattern, `val & (val - 1)` is zero (with `val - 1` wrapping around) and `val` is not zero |
| Utils.Pow2IsPowerOfTwo | src/Utils.ts:35-37 | every 2^k, k from 0 to 31, passes the test |
| Utils.SingleBitAtOrAbove | src/Utils.ts:35-37 | a pattern that passes the test and has its `k` low bits clear is 2^j for some j >= k (proved by induction on k) |
| Utils.PowerOfTwoExactly | src/Utils.ts:35-37 | on 32-bit patterns the test holds exactly for 2^0 .. 2^31 |
| Utils.PowerOfTwoPositive | src/Utils.ts:35-37 | for 0 < v < 2^31 the test holds exactly when v = 2^k for some k < 31 |
| Utils.PowerOfTwoSamples | src/Utils.ts:35-37 | 0 and 6 fail the test; 1, 2 and 1024 pass; so does the pattern of -2^31 |
| Utils.GetSign | src/Utils.ts:51-54 | the result is -1 or 1, it is -1 exactly for negative numbers, and the result times the number is its absolute value |
| Utils.GetSignProperties | src/Utils.ts:51-54 | the sign times the number is never negative, and 0 maps to 1 |
| Utils.Tolerance | src/Utils.ts:46 | `epsilon || EPSILON`: the tolerance is never zero, and it is either `EPSILON` or the given `epsilon`, a negative one included |
| Utils.IsNearEqual | src/Utils.ts:44-48 | true exactly when the distance of `a` and `b` is below the tolerance |
| Utils.IsNearEqualDefault | src/Utils.ts:46 | a missing or zero `epsilon` behaves like `EPSILON` = 0.01 |
| Utils.IsNearEqualSymmetric | src/Utils.ts:44-48 | the test does not depend on the order of `a` and `b` |
| Utils.IsNearEqualReflexive | src/Utils.ts:44-48 | every number is near itself with the default or any non-negative `epsilon` |
| Utils.IsNearEqualBounds | src/Utils.ts:47 | the bounds are strict (distance exactly the tolerance gives false); a negative `epsilon` makes every pair not near |
| UtilsDist.IsPowerOfTwo | dist/src/Utils.js:30-32 | the compiled test agrees with the one of `src/Utils.ts` on every 32-bit input |
| UtilsDist.PowerOfTwoCharacterized | dist/src/Utils.js:30-32 | 0 and 6 fail; 1 and every 2^k with k < 31 pass; on 0 < v < 2^31 only the powers of two pass |

## Left out

- Floating-point rounding is not modelled: `Math.fround` is the identity, and all arithmetic is exact on reals. `equals` after `multiply` is therefore a statement about real numbers, and NaN and -0 do not occur.
- Quaternions.Quaternion.Normalize: `this.length()` is the caller-supplied `length`, whose square must be the squared norm; an inexact `Math.sqrt` is not modelled.
- Quaternions.Quaternion.SetFromUnitVectors: the length that `normalize` uses is the caller-supplied `length`, as for `Normalize`; the shared scratch vector `TEMP_VEC3` is a local value.
- Quaternions.Slerp: `Math.acos` and `Math.sin` are not modelled. The two ratios of the general branch are parameters, and `lambda` plays no other part. The test `|sqrt(1 - c*c)| < 0.001` is stated as `1 - c*c < 0.000001`, which is the same for real numbers when `|c| < 1`.
- `fromAxisAngle`, `length`, `inverse`, `setFromRotationMatrix`, `toEuler`, and the `Euler` class with `toQuaternion` and `toAxisAngle` are not modelled. They rest on sine, cosine, arc-cosine, arc-tangent and square root.
- `inverse` writes the length-divided value into `result` but returns `this.conjugate().normalize()` (`src/Quaternion.ts:101-111`). This defect is noted only.
- `toAxisAngle` stores `w` where the computed `angle` was meant (`src/Quaternion.ts:423`, `436`). This defect is noted only.
- `ToRadians` and `ToDegrees` in both Utils files are not modelled: they multiply by constants derived from π.
- `Rectangle.scale`, `getCenter` and `getSize` are not modelled: they depend on `Vector2` arithmetic (`add`, `subtract`, `multiplyScalar`), which the stand-in class does not have, because the source of `Vector2` is not part of this model.
- Methods that return `this` for chaining return nothing here, and `Rectangle.clone` returns a new object built by its constructor and `copy`.
- Point arguments of `Rectangle` (`expand`, `containsPoint`, `set`, `setFromPoints`) are values. So the aliasing of a point with a corner of the box is not modelled. `Rectangle` arguments of `merge`, `copy` and the queries are objects, and their aliasing is modelled.
- Rectangles.Rectangle: the methods that change a box require `Valid()`, i.e. that its two corners are distinct objects. A box whose caller passed the same vector as both corners is not covered.
- Rectangles.Rectangle.Merge: equality with `Boxes.Merge` of the two old boxes is stated only when `box.max` is not this box's min object. With that aliasing, the new corners and the containment facts are still stated.
- Constructor overloads are separate named constructors. They are chosen by the caller rather than by argument count or `instanceof`, and a call with one or two non-array, non-quaternion arguments is the plain constructor.
- `IsPowerOfTwo` is modelled on int32 values only. The conversion of a non-integer or out-of-range number by `ToInt32` is not modelled.
- Utils.IsNearEqual: NaN, which `epsilon || EPSILON` would also replace, is not modelled.
