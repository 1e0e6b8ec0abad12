/**
 * The mutable `Rectangle` class: its `min` and `max` corners are `Vector2` objects that
 * the methods update in place. Each method is proved against the value semantics in `Boxes`.
 */
module Rectangles {
  import opened ExtendedReal
  import Boxes

  /**
   * The `Vector2` collaborator, reduced to what `Rectangle` uses: two coordinates and
   * the conventional componentwise `copy`, `min`, `max` and `equals`.
   */
  class Vector2 {
    var x: ExtReal
    var y: ExtReal

    constructor (x: ExtReal, y: ExtReal)
      ensures this.x == x && this.y == y
    {
      this.x, this.y := x, y;
    }

    /** The coordinates as a value. */
    function Value(): Boxes.Vec2
      reads this
    {
      Boxes.Vec2(x, y)
    }

    function Equals(v: Vector2): (r: bool)
      reads this, v
      ensures r <==> Value() == v.Value()
    {
      x == v.x && y == v.y
    }

    method Copy(v: Boxes.Vec2)
      modifies this
      ensures Value() == v
    {
      x, y := v.x, v.y;
    }

    method Min(v: Boxes.Vec2)
      modifies this
      ensures Value() == Boxes.MinV(old(Value()), v)
    {
      x := ExtendedReal.Min(x, v.x);
      y := ExtendedReal.Min(y, v.y);
    }

    method Max(v: Boxes.Vec2)
      modifies this
      ensures Value() == Boxes.MaxV(old(Value()), v)
    {
      x := ExtendedReal.Max(x, v.x);
      y := ExtendedReal.Max(y, v.y);
    }
  }

  class Rectangle {
    var min: Vector2
    var max: Vector2

    /** The two corners are distinct objects, so writing one leaves the other alone. */
    ghost predicate Valid()
      reads this
    {
      min != max
    }

    /** The box as a value. */
    function Value(): Boxes.Box
      reads this, min, max
    {
      Boxes.Box(min.Value(), max.Value())
    }

    /**
     * `new Rectangle(min?, max?)`: a given corner is used as it is (the box aliases the
     * caller's vector, modelled here by `null` standing for an omitted argument); an
     * omitted min is a new (+Infinity, +Infinity), an omitted max a new (-Infinity, -Infinity).
     */
    constructor (min: Vector2?, max: Vector2?)
      ensures min != null ==> this.min == min
      ensures min == null ==> fresh(this.min) && this.min.Value() == Boxes.Empty.min
      ensures max != null ==> this.max == max
      ensures max == null ==> fresh(this.max) && this.max.Value() == Boxes.Empty.max
      ensures min == null || max == null || min != max ==> Valid()
    {
      if min != null {
        this.min := min;
      } else {
        this.min := new Vector2(PosInf, PosInf);
      }
      if max != null {
        this.max := max;
      } else {
        this.max := new Vector2(NegInf, NegInf);
      }
    }

    /** `set(min, max)`: copy both corners. */
    method Set(newMin: Boxes.Vec2, newMax: Boxes.Vec2)
      requires Valid()
      modifies min, max
      ensures Valid()
      ensures Value() == Boxes.Box(newMin, newMax)
    {
      min.Copy(newMin);
      max.Copy(newMax);
    }

    /** `empty()`: reset to the empty box. */
    method Empty()
      requires Valid()
      modifies min, max
      ensures Valid()
      ensures Value() == Boxes.Empty
    {
      min.x, min.y := PosInf, PosInf;
      max.x, max.y := NegInf, NegInf;
    }

    /** `equals(box)`: both corners agree. */
    function Equals(box: Rectangle): (r: bool)
      reads this, min, max, box, box.min, box.max
      ensures r <==> Value() == box.Value()
    {
      box.min.Equals(min) && box.max.Equals(max)
    }

    /** `containsPoint(point)`: the point is on no axis outside the box. */
    function ContainsPoint(point: Boxes.Vec2): (r: bool)
      reads this, min, max
      ensures r <==> Boxes.ContainsPoint(Value(), point)
    {
      !(Lt(point.x, min.x) || Lt(max.x, point.x) || Lt(point.y, min.y) || Lt(max.y, point.y))
    }

    /** `containsBox(box)`: this box encloses `box`. */
    function ContainsBox(box: Rectangle): (r: bool)
      reads this, min, max, box, box.min, box.max
      ensures r <==> Boxes.ContainsBox(Value(), box.Value())
    {
      Le(min.x, box.min.x) && Le(box.max.x, max.x) && Le(min.y, box.min.y) && Le(box.max.y, max.y)
    }

    /** `intersects(box)`: the two boxes are not apart on either axis. */
    function Intersects(box: Rectangle): (r: bool)
      reads this, min, max, box, box.min, box.max
      ensures r <==> Boxes.Intersects(Value(), box.Value())
    {
      !(Lt(box.max.x, min.x) || Lt(max.x, box.min.x) || Lt(box.max.y, min.y) || Lt(max.y, box.min.y))
    }

    /** `expand(point)`: grow the box to hold the point. */
    method Expand(point: Boxes.Vec2)
      requires Valid()
      modifies min, max
      ensures Valid()
      ensures Value() == Boxes.Expand(old(Value()), point)
      ensures ContainsPoint(point)
      ensures Boxes.ContainsBox(Value(), old(Value()))
    {
      min.Min(point);
      max.Max(point);
      Boxes.ExpandContainsPoint(old(Value()), point);
      Boxes.ExpandGrows(old(Value()), point);
    }

    /** `setFromPoints(points)`: empty the box, then expand it by each point in turn. */
    method SetFromPoints(points: seq<Boxes.Vec2>)
      requires Valid()
      modifies min, max
      ensures Valid()
      ensures Value() == Boxes.ExpandAll(Boxes.Empty, points)
      ensures points == [] ==> Value() == Boxes.Empty
      ensures forall i :: 0 <= i < |points| ==> ContainsPoint(points[i])
    {
      Empty();
      for i := 0 to |points|
        invariant Valid()
        invariant Value() == Boxes.ExpandAll(Boxes.Empty, points[..i])
      {
        Expand(points[i]);
        assert points[..i + 1][..i] == points[..i];
      }
      assert points[..|points|] == points;
      Boxes.ExpandAllContains(Boxes.Empty, points);
    }

    /**
     * `merge(box)`: the min corner takes the componentwise minimum with `box.min`,
     * then the max corner the componentwise maximum with `box.max`. When `box.max` is
     * this box's own min object, the second step sees the min corner already updated.
     */
    method Merge(box: Rectangle)
      requires Valid()
      modifies min, max
      ensures Valid()
      ensures min.Value() == Boxes.MinV(old(min.Value()), old(box.min.Value()))
      ensures max.Value() == Boxes.MaxV(old(max.Value()),
                                        if box.max == min then min.Value() else old(box.max.Value()))
      ensures box.max != min ==> Value() == Boxes.Merge(old(Value()), old(box.Value()))
      ensures ContainsBox(box) && Boxes.ContainsBox(Value(), old(Value()))
    {
      min.Min(box.min.Value());
      max.Max(box.max.Value());
      if box.max != min {
        Boxes.MergeContainsBoth(old(Value()), old(box.Value()));
      }
    }

    /**
     * `copy(box)` as written: the min corner is copied from `box.min`, but the max
     * corner takes the componentwise maximum with `box.max` instead of a copy.
     */
    method Copy(box: Rectangle)
      requires Valid()
      modifies min, max
      ensures Valid()
      ensures min.Value() == old(box.min.Value())
      ensures max.Value() == Boxes.MaxV(old(max.Value()),
                                        if box.max == min then min.Value() else old(box.max.Value()))
      ensures box.max != min ==> Value() == Boxes.CopyAsWritten(old(Value()), old(box.Value()))
    {
      min.Copy(box.min.Value());
      max.Max(box.max.Value());
    }

    /** `clone()`: copy this box into a new empty box, which reproduces it. */
    method Clone() returns (r: Rectangle)
      ensures fresh(r) && fresh(r.min) && fresh(r.max) && r.Valid()
      ensures r.Value() == Value()
    {
      r := new Rectangle(null, null);
      r.Copy(this);
      Boxes.CopyAsWrittenReproduces(Boxes.Box(Boxes.Empty.min, Boxes.Empty.max), Value());
    }
  }
}
