/** Axis-aligned integer rectangles and the overlap test used for hurtboxes and hitboxes.
    A rectangle built from real coordinates truncates them toward zero, as an integer
    rectangle built from floats does. */
module Geometry {
  import opened Common

  datatype Rect = Rect(left: int, top: int, width: int, height: int)

  function RectAt(x: real, y: real, width: int, height: int): (r: Rect)
    ensures r.width == width && r.height == height
    ensures Abs(r.left as real - x) < 1.0 && Abs(r.top as real - y) < 1.0
  {
    Rect(Trunc(x), Trunc(y), width, height)
  }

  /** Strict overlap; a rectangle without area overlaps nothing. */
  predicate Collide(a: Rect, b: Rect)
  {
    a.width > 0 && a.height > 0 && b.width > 0 && b.height > 0 &&
    a.left < b.left + b.width && b.left < a.left + a.width &&
    a.top < b.top + b.height && b.top < a.top + a.height
  }
}
