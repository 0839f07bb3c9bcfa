/**
 * Integer plane geometry: points, axis-aligned rectangles and the mutable
 * point buffer `PointSet` used for the obstacle templates.
 */
module Geometry {

  datatype Point = Point(x: int, y: int)

  /**
   * An axis-aligned rectangle with its top-left corner at (x, y), as a
   * pygame `Rect` holds it. Only the value semantics of `move_ip` and the
   * corner accessors are used by the game.
   */
  datatype Rect = Rect(x: int, y: int, w: int, h: int)
  {
    /** The rectangle shifted by (dx, dy); `move_ip` assigns this in place. */
    function Moved(dx: int, dy: int): (r: Rect)
      ensures r.w == w && r.h == h
      ensures r.x - x == dx && r.y - y == dy
    {
      Rect(x + dx, y + dy, w, h)
    }

    function TopLeft(): Point { Point(x, y) }
    function TopRight(): Point { Point(x + w, y) }
    function BottomRight(): Point { Point(x + w, y + h) }
    function BottomLeft(): Point { Point(x, y + h) }

    /** The four corners, clockwise from the top-left one. */
    function Corners(): seq<Point>
    {
      [TopLeft(), TopRight(), BottomRight(), BottomLeft()]
    }
  }

  /** Every point of `ps` shifted by (dx, dy). */
  function Translated(ps: seq<Point>, dx: int, dy: int): (qs: seq<Point>)
  {
    seq(|ps|, i requires 0 <= i < |ps| => Point(ps[i].x + dx, ps[i].y + dy))
  }

  /** Translating by (dx, dy) and then by (-dx, -dy) gives back the original points. */
  lemma TranslatedInverse(ps: seq<Point>, dx: int, dy: int)
    ensures Translated(Translated(ps, dx, dy), -dx, -dy) == ps
  {
  }

  /** Two translations compose into one by the summed offset. */
  lemma TranslatedCompose(ps: seq<Point>, a: int, b: int, c: int, d: int)
    ensures Translated(Translated(ps, a, b), c, d) == Translated(ps, a + c, b + d)
  {
  }

  /** The x coordinates of a sequence of points, in order. */
  function XsOf(ps: seq<Point>): (xs: seq<int>)
    ensures |xs| == |ps|
    ensures forall i :: 0 <= i < |ps| ==> xs[i] == ps[i].x
  {
    seq(|ps|, i requires 0 <= i < |ps| => ps[i].x)
  }

  /** The y coordinates of a sequence of points, in order. */
  function YsOf(ps: seq<Point>): (ys: seq<int>)
    ensures |ys| == |ps|
    ensures forall i :: 0 <= i < |ps| ==> ys[i] == ps[i].y
  {
    seq(|ps|, i requires 0 <= i < |ps| => ps[i].y)
  }

  /**
   * Translation moves every x coordinate by dx and every y coordinate by dy,
   * and keeps the number of points.
   */
  lemma TranslatedCoordinates(ps: seq<Point>, dx: int, dy: int)
    ensures |Translated(ps, dx, dy)| == |ps|
    ensures forall i :: 0 <= i < |ps| ==>
      XsOf(Translated(ps, dx, dy))[i] == XsOf(ps)[i] + dx &&
      YsOf(Translated(ps, dx, dy))[i] == YsOf(ps)[i] + dy
  {
  }

  /**
   * An ordered, fixed-size buffer of points that is changed in place.
   * A copy owns a fresh buffer, so changing it leaves the original alone.
   */
  class PointSet {
    const points: array<Point>

    constructor (ps: seq<Point>)
      ensures fresh(points)
      ensures points[..] == ps
    {
      points := new Point[|ps|](i requires 0 <= i < |ps| => ps[i]);
    }

    /** The `x` getter: the x coordinate of every point, in order. */
    function X(): (xs: seq<int>)
      reads points
      ensures xs == XsOf(points[..])
    {
      seq(points.Length, i reads points requires 0 <= i < points.Length => points[i].x)
    }

    /** The `y` getter: the y coordinate of every point, in order. */
    function Y(): (ys: seq<int>)
      reads points
      ensures ys == YsOf(points[..])
    {
      seq(points.Length, i reads points requires 0 <= i < points.Length => points[i].y)
    }

    /** The `x` setter: every point gets x coordinate `value`; y coordinates are kept. */
    method SetX(value: int)
      modifies points
      ensures forall i :: 0 <= i < points.Length ==> points[i].x == value
      ensures Y() == old(Y())
    {
      for i := 0 to points.Length
        invariant forall k :: 0 <= k < i ==> points[k] == Point(value, old(points[k].y))
        invariant forall k :: i <= k < points.Length ==> points[k] == old(points[k])
      {
        points[i] := points[i].(x := value);
      }
    }

    /** The `y` setter: every point gets y coordinate `value`; x coordinates are kept. */
    method SetY(value: int)
      modifies points
      ensures forall i :: 0 <= i < points.Length ==> points[i].y == value
      ensures X() == old(X())
    {
      for i := 0 to points.Length
        invariant forall k :: 0 <= k < i ==> points[k] == Point(old(points[k].x), value)
        invariant forall k :: i <= k < points.Length ==> points[k] == old(points[k])
      {
        points[i] := points[i].(y := value);
      }
    }

    /** Shifts every point by (dx, dy) in place and returns the same point set. */
    method Move(dx: int, dy: int) returns (self: PointSet)
      modifies points
      ensures self == this
      ensures points[..] == Translated(old(points[..]), dx, dy)
    {
      for i := 0 to points.Length
        invariant forall k :: 0 <= k < i ==> points[k] == Point(old(points[k].x) + dx, old(points[k].y) + dy)
        invariant forall k :: i <= k < points.Length ==> points[k] == old(points[k])
      {
        points[i] := Point(points[i].x + dx, points[i].y + dy);
      }
      self := this;
    }

    /** A new point set holding copies of the same points in a buffer of its own. */
    method Copy() returns (c: PointSet)
      ensures fresh(c) && fresh(c.points)
      ensures c.points[..] == points[..]
    {
      c := new PointSet(points[..]);
    }
  }
}
