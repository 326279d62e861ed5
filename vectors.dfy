/**
  The mutable 2D vector of the library and the point-like value it works on.

  Coordinates are exact `real` numbers, not IEEE doubles: identities such as
  "add then subtract restores the original" hold exactly here, but only
  approximately for Java `double`.
 */
module Vectors {

  /** A point-like value: the two coordinates any `Point2D` argument exposes. */
  datatype Pt = Pt(x: real, y: real)

  const Origin: Pt := Pt(0.0, 0.0)

  /** The squared length x*x + y*y of a point value, as `getLengthSq` computes it. */
  function LengthSq(p: Pt): (r: real)
    ensures r >= 0.0
  {
    p.x * p.x + p.y * p.y
  }

  /** Scaling both coordinates by k multiplies the squared length by k*k. */
  lemma LengthSqScaled(p: Pt, k: real)
    ensures LengthSq(Pt(p.x * k, p.y * k)) == k * k * LengthSq(p)
  {
    assert (p.x * k) * (p.x * k) == k * k * (p.x * p.x);
    assert (p.y * k) * (p.y * k) == k * k * (p.y * p.y);
  }

  /** A 2D vector whose coordinates are updated in place. */
  class Vector2D {
    var x: real
    var y: real

    /** The coordinates of this vector as a point value. */
    function Loc(): (r: Pt)
      reads this
    {
      Pt(x, y)
    }

    /** `new Vector2D()`: the zero vector. */
    constructor ()
      ensures GetX() == 0.0 && GetY() == 0.0
    {
      x := 0.0;
      y := 0.0;
    }

    /** `new Vector2D(x, y)`: stores both coordinates verbatim. */
    constructor FromXY(x0: real, y0: real)
      ensures GetX() == x0 && GetY() == y0
    {
      x := x0;
      y := y0;
    }

    /** `new Vector2D(p)`: copies the coordinates of a point-like value. */
    constructor FromPoint(p: Pt)
      ensures Loc() == p
    {
      x := p.x;
      y := p.y;
    }

    /** The stored x coordinate, as the last constructor or mutator left it. */
    function GetX(): (r: real)
      reads this
      ensures r == Loc().x
    {
      x
    }

    /** The stored y coordinate, as the last constructor or mutator left it. */
    function GetY(): (r: real)
      reads this
      ensures r == Loc().y
    {
      y
    }

    /** The squared length x*x + y*y: never negative, and zero for the zero vector. */
    function GetLengthSq(): (r: real)
      reads this
      ensures r >= 0.0
      ensures x == 0.0 && y == 0.0 ==> r == 0.0
    {
      LengthSq(Loc())
    }

    /** Replaces both coordinates together. */
    method SetLocation(x0: real, y0: real)
      modifies this
      ensures x == x0 && y == y0
    {
      x, y := x0, y0;
    }

    /** `setLocation(Point2D)`: afterwards this vector has p's coordinates. */
    method SetLocationTo(p: Pt)
      modifies this
      ensures Loc() == p
    {
      SetLocation(p.x, p.y);
    }

    /** Replaces x; y is unchanged. */
    method SetX(x0: real)
      modifies this
      ensures x == x0 && y == old(y)
    {
      x := x0;
    }

    /** Replaces y; x is unchanged. */
    method SetY(y0: real)
      modifies this
      ensures y == y0 && x == old(x)
    {
      y := y0;
    }

    /** Increases x by d; y is unchanged. */
    method AddX(d: real)
      modifies this
      ensures x == old(x) + d && y == old(y)
    {
      x := x + d;
    }

    /** Increases y by d; x is unchanged. */
    method AddY(d: real)
      modifies this
      ensures y == old(y) + d && x == old(x)
    {
      y := y + d;
    }

    /** Multiplies both coordinates by k and returns this vector. */
    method Scale(k: real) returns (r: Vector2D)
      modifies this
      ensures r == this
      ensures x == old(x) * k && y == old(y) * k
      ensures GetLengthSq() == k * k * old(GetLengthSq())
    {
      LengthSqScaled(Loc(), k);
      SetLocation(x * k, y * k);
      r := this;
    }

    /** Adds p componentwise and returns this vector. */
    method Add(p: Pt) returns (r: Vector2D)
      modifies this
      ensures r == this
      ensures x == old(x) + p.x && y == old(y) + p.y
    {
      SetLocation(x + p.x, y + p.y);
      r := this;
    }

    /** Subtracts p componentwise and returns this vector. */
    method Subtract(p: Pt) returns (r: Vector2D)
      modifies this
      ensures r == this
      ensures x == old(x) - p.x && y == old(y) - p.y
    {
      SetLocation(x - p.x, y - p.y);
      r := this;
    }
  }

  /**
    A client of the fluent methods: a fresh vector built from p0, moved by `add(p)` and
    then by `subtract(p)`, is back at p0, and both calls return the vector itself.
    Because the vector is fresh, p's coordinates cannot be its own.
   */
  method AddThenSubtract(p0: Pt, p: Pt) returns (r: Pt)
    ensures r == p0
  {
    var v := new Vector2D.FromPoint(p0);
    var a := v.Add(p);
    var s := a.Subtract(p);
    assert s == v;
    r := s.Loc();
  }
}
