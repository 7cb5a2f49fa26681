/**
 * point.go: a point in Cartesian space.  The Go struct is used by value
 * almost everywhere (compared with `!=`, returned from the utility
 * functions), so the value is a datatype; `setX`/`setY` mutate an
 * addressable point through a pointer, which is the class `PointVar`.
 */
module Points {

  datatype Point = Point(x: real, y: real)

  /** An addressable `Point` variable, the receiver of `setX` and `setY`. */
  class PointVar {
    var x: real
    var y: real

    function Value(): Point
      reads this
    {
      Point(x, y)
    }

    constructor (p: Point)
      ensures Value() == p
    {
      x, y := p.x, p.y;
    }

    /** Sets the x coordinate; y is untouched. */
    method SetX(newX: real)
      modifies this
      ensures Value() == old(Value()).(x := newX)
    {
      x := newX;
    }

    /** Sets the y coordinate; x is untouched. */
    method SetY(newY: real)
      modifies this
      ensures Value() == old(Value()).(y := newY)
    {
      y := newY;
    }
  }

  /** `setX(a)` then `setY(b)` gives the point (a, b) whatever the start. */
  method SetXThenY(p: PointVar, a: real, b: real)
    modifies p
    ensures p.Value() == Point(a, b)
  {
    p.SetX(a);
    p.SetY(b);
  }

  /** The setters commute: `setY(b)` then `setX(a)` gives the same point. */
  method SetYThenX(p: PointVar, a: real, b: real)
    modifies p
    ensures p.Value() == Point(a, b)
  {
    p.SetY(b);
    p.SetX(a);
  }
}
