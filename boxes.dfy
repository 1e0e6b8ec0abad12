/**
 * Value semantics of the axis-aligned 2D box of `Rectangle`: its two corners as values,
 * the operations as functions of the old box, and what they promise.
 */
module Boxes {
  import opened ExtendedReal

  /** The coordinates of a `Vector2`. */
  datatype Vec2 = Vec2(x: ExtReal, y: ExtReal)

  /** `Vector2.min`: the componentwise minimum. */
  function MinV(a: Vec2, b: Vec2): Vec2
  {
    Vec2(Min(a.x, b.x), Min(a.y, b.y))
  }

  /** `Vector2.max`: the componentwise maximum. */
  function MaxV(a: Vec2, b: Vec2): Vec2
  {
    Vec2(Max(a.x, b.x), Max(a.y, b.y))
  }

  /** A box, given by its lower and its upper corner. */
  datatype Box = Box(min: Vec2, max: Vec2)

  /** The empty box: min at (+Infinity, +Infinity), max at (-Infinity, -Infinity). */
  const Empty: Box := Box(Vec2(PosInf, PosInf), Vec2(NegInf, NegInf))

  /** The point lies in the closed box. */
  predicate ContainsPoint(b: Box, p: Vec2)
  {
    Le(b.min.x, p.x) && Le(p.x, b.max.x) && Le(b.min.y, p.y) && Le(p.y, b.max.y)
  }

  /** Box `a` encloses box `b`: `a`'s corners lie outside `b`'s on both axes. */
  predicate ContainsBox(a: Box, b: Box)
  {
    Le(a.min.x, b.min.x) && Le(b.max.x, a.max.x) && Le(a.min.y, b.min.y) && Le(b.max.y, a.max.y)
  }

  /** The two closed intervals overlap on both axes. */
  predicate Intersects(a: Box, b: Box)
  {
    Le(a.min.x, b.max.x) && Le(b.min.x, a.max.x) && Le(a.min.y, b.max.y) && Le(b.min.y, a.max.y)
  }

  /** `expand(p)`: lower the min corner and raise the max corner to the point. */
  function Expand(b: Box, p: Vec2): Box
  {
    Box(MinV(b.min, p), MaxV(b.max, p))
  }

  /** `merge(other)`: the corners of the two boxes, combined componentwise. */
  function Merge(a: Box, b: Box): Box
  {
    Box(MinV(a.min, b.min), MaxV(a.max, b.max))
  }

  /**
   * `copy(other)` as written: the min corner is copied, but the max corner is
   * combined with `Vector2.max` instead of copied.
   */
  function CopyAsWritten(a: Box, b: Box): Box
  {
    Box(b.min, MaxV(a.max, b.max))
  }

  /** The box that `expand` builds from `b` and the points of `ps`, taken in order. */
  function ExpandAll(b: Box, ps: seq<Vec2>): Box
  {
    if ps == [] then b else Expand(ExpandAll(b, ps[..|ps| - 1]), ps[|ps| - 1])
  }

  /** A box that encloses another also holds every point of it. */
  lemma ContainsBoxPoint(a: Box, b: Box, p: Vec2)
    requires ContainsBox(a, b) && ContainsPoint(b, p)
    ensures ContainsPoint(a, p)
  {
    LeTotalOrder(a.min.x, b.min.x, p.x);
    LeTotalOrder(p.x, b.max.x, a.max.x);
    LeTotalOrder(a.min.y, b.min.y, p.y);
    LeTotalOrder(p.y, b.max.y, a.max.y);
  }

  /** Enclosing is reflexive and transitive. */
  lemma ContainsBoxPreorder(a: Box, b: Box, c: Box)
    ensures ContainsBox(a, a)
    ensures ContainsBox(a, b) && ContainsBox(b, c) ==> ContainsBox(a, c)
  {
    LeTotalOrder(a.min.x, b.min.x, c.min.x);
    LeTotalOrder(c.max.x, b.max.x, a.max.x);
    LeTotalOrder(a.min.y, b.min.y, c.min.y);
    LeTotalOrder(c.max.y, b.max.y, a.max.y);
  }

  /** The empty box holds no point at all, finite or infinite. */
  lemma EmptyContainsNoPoint(p: Vec2)
    ensures !ContainsPoint(Empty, p)
  {
  }

  /** After `expand(p)` the box holds `p`. */
  lemma ExpandContainsPoint(b: Box, p: Vec2)
    ensures ContainsPoint(Expand(b, p), p)
  {
  }

  /** `expand` only grows the box, and expanding twice by one point is expanding once. */
  lemma ExpandGrows(b: Box, p: Vec2)
    ensures ContainsBox(Expand(b, p), b)
    ensures Expand(Expand(b, p), p) == Expand(b, p)
  {
  }

  /** `expand(p)` gives the smallest box that encloses the old one and holds `p`. */
  lemma ExpandIsSmallest(b: Box, p: Vec2, c: Box)
    requires ContainsBox(c, b) && ContainsPoint(c, p)
    ensures ContainsBox(c, Expand(b, p))
  {
  }

  /** The box built from the points holds each of them and encloses the start box. */
  lemma {:induction false} ExpandAllContains(b: Box, ps: seq<Vec2>)
    ensures ContainsBox(ExpandAll(b, ps), b)
    ensures forall i :: 0 <= i < |ps| ==> ContainsPoint(ExpandAll(b, ps), ps[i])
  {
    if ps != [] {
      var init, last := ps[..|ps| - 1], ps[|ps| - 1];
      var inner := ExpandAll(b, init);
      ExpandAllContains(b, init);
      ExpandGrows(inner, last);
      ExpandContainsPoint(inner, last);
      ContainsBoxPreorder(Expand(inner, last), inner, b);
      forall i | 0 <= i < |ps|
        ensures ContainsPoint(ExpandAll(b, ps), ps[i])
      {
        if i < |ps| - 1 {
          assert ps[i] == init[i];
          ContainsBoxPoint(Expand(inner, last), inner, ps[i]);
        }
      }
    }
  }

  /** Every box that encloses the start box and holds the points encloses the box built from them. */
  lemma {:induction false} ExpandAllIsSmallest(b: Box, ps: seq<Vec2>, c: Box)
    requires ContainsBox(c, b)
    requires forall i :: 0 <= i < |ps| ==> ContainsPoint(c, ps[i])
    ensures ContainsBox(c, ExpandAll(b, ps))
  {
    if ps != [] {
      var init := ps[..|ps| - 1];
      assert forall i :: 0 <= i < |init| ==> init[i] == ps[i];
      ExpandAllIsSmallest(b, init, c);
      ExpandIsSmallest(ExpandAll(b, init), ps[|ps| - 1], c);
    }
  }

  /** No points leave the start box unchanged. */
  lemma ExpandAllNone(b: Box)
    ensures ExpandAll(b, []) == b
  {
  }

  /** After `merge`, the box encloses both its old value and the other box. */
  lemma MergeContainsBoth(a: Box, b: Box)
    ensures ContainsBox(Merge(a, b), a)
    ensures ContainsBox(Merge(a, b), b)
  {
  }

  /** `merge` gives the smallest box enclosing both. */
  lemma MergeIsSmallest(a: Box, b: Box, c: Box)
    requires ContainsBox(c, a) && ContainsBox(c, b)
    ensures ContainsBox(c, Merge(a, b))
  {
  }

  /** `intersects` does not depend on the order of its two boxes. */
  lemma IntersectsSymmetric(a: Box, b: Box)
    ensures Intersects(a, b) == Intersects(b, a)
  {
  }

  /** Two boxes that hold a common point intersect. */
  lemma CommonPointIntersects(a: Box, b: Box, p: Vec2)
    requires ContainsPoint(a, p) && ContainsPoint(b, p)
    ensures Intersects(a, b)
  {
    LeTotalOrder(a.min.x, p.x, b.max.x);
    LeTotalOrder(b.min.x, p.x, a.max.x);
    LeTotalOrder(a.min.y, p.y, b.max.y);
    LeTotalOrder(b.min.y, p.y, a.max.y);
  }

  /** A box whose min corner lies at or below its max corner on both axes. */
  predicate Proper(b: Box)
  {
    Le(b.min.x, b.max.x) && Le(b.min.y, b.max.y)
  }

  /**
   * Two proper boxes that intersect hold a common point: the larger of the two min
   * corners, taken componentwise.
   */
  lemma IntersectsHasCommonPoint(a: Box, b: Box)
    requires Proper(a) && Proper(b) && Intersects(a, b)
    ensures exists p :: ContainsPoint(a, p) && ContainsPoint(b, p)
  {
    var p := Vec2(Max(a.min.x, b.min.x), Max(a.min.y, b.min.y));
    LeTotalOrder(a.min.x, b.min.x, a.max.x);
    LeTotalOrder(b.min.x, a.min.x, b.max.x);
    LeTotalOrder(a.min.y, b.min.y, a.max.y);
    LeTotalOrder(b.min.y, a.min.y, b.max.y);
    assert ContainsPoint(a, p) && ContainsPoint(b, p);
  }

  /** For proper boxes, `intersects` holds exactly when the boxes share a point. */
  lemma IntersectsIffCommonPoint(a: Box, b: Box)
    requires Proper(a) && Proper(b)
    ensures Intersects(a, b) <==> exists p :: ContainsPoint(a, p) && ContainsPoint(b, p)
  {
    if Intersects(a, b) {
      IntersectsHasCommonPoint(a, b);
    } else if p :| ContainsPoint(a, p) && ContainsPoint(b, p) {
      CommonPointIntersects(a, b, p);
    }
  }

  /** A box that holds every point of a proper box encloses it: its corners are such points. */
  lemma PointsContainedContainsBox(a: Box, b: Box)
    requires Proper(b)
    requires forall p :: ContainsPoint(b, p) ==> ContainsPoint(a, p)
    ensures ContainsBox(a, b)
  {
    LeTotalOrder(b.min.x, b.max.x, b.max.x);
    LeTotalOrder(b.min.y, b.max.y, b.max.y);
    assert ContainsPoint(b, b.min);
    assert ContainsPoint(b, b.max);
  }

  /** For a proper box `b`, `containsBox(b)` holds exactly when every point of `b` is held. */
  lemma ContainsBoxIffPoints(a: Box, b: Box)
    requires Proper(b)
    ensures ContainsBox(a, b) <==> forall p :: ContainsPoint(b, p) ==> ContainsPoint(a, p)
  {
    if ContainsBox(a, b) {
      forall p | ContainsPoint(b, p)
        ensures ContainsPoint(a, p)
      {
        ContainsBoxPoint(a, b, p);
      }
    } else if forall p :: ContainsPoint(b, p) ==> ContainsPoint(a, p) {
      PointsContainedContainsBox(a, b);
    }
  }

  /**
   * The empty box, which holds no point, still intersects the whole plane: the test
   * compares corners only, so it does not see that the receiver is empty.
   */
  lemma EmptyIntersectsPlane()
    ensures Intersects(Empty, Box(Vec2(NegInf, NegInf), Vec2(PosInf, PosInf)))
    ensures !Proper(Empty)
  {
  }

  /**
   * `copy` as written reproduces the other box exactly when the receiver's max corner
   * does not exceed the other's on either axis; in particular it does on a fresh box,
   * whose max corner is (-Infinity, -Infinity).
   */
  lemma CopyAsWrittenReproduces(a: Box, b: Box)
    ensures CopyAsWritten(a, b) == b <==> Le(a.max.x, b.max.x) && Le(a.max.y, b.max.y)
    ensures a.max == Empty.max ==> CopyAsWritten(a, b) == b
  {
    LeTotalOrder(a.max.x, b.max.x, b.max.x);
    LeTotalOrder(a.max.y, b.max.y, b.max.y);
  }

  /** A concrete box that `copy` as written fails to reproduce: the old max corner survives. */
  lemma CopyAsWrittenKeepsOldMax()
    ensures var a := Box(Vec2(Fin(0.0), Fin(0.0)), Vec2(Fin(2.0), Fin(2.0)));
            var b := Box(Vec2(Fin(0.0), Fin(0.0)), Vec2(Fin(1.0), Fin(1.0)));
            CopyAsWritten(a, b) == a && CopyAsWritten(a, b) != b
  {
  }
}
