/** Axis-aligned float rectangles, as the player and the tiles use them. */
module Geometry {

  /** A rectangle given by its top-left corner and its size; y grows downwards, as on screen. */
  datatype Rect = Rect(x: real, y: real, w: real, h: real) {
    function Left(): real { x }
    function Right(): real { x + w }
    function Top(): real { y }
    function Bottom(): real { y + h }

    /** Assigning `left`, `right`, `top` or `bottom` moves the rectangle and keeps its size. */
    function WithLeft(v: real): (r: Rect)
      ensures r.Left() == v && r.y == y && r.w == w && r.h == h
    {
      Rect(v, y, w, h)
    }

    function WithRight(v: real): (r: Rect)
      ensures r.Right() == v && r.y == y && r.w == w && r.h == h
    {
      Rect(v - w, y, w, h)
    }

    function WithTop(v: real): (r: Rect)
      ensures r.Top() == v && r.x == x && r.w == w && r.h == h
    {
      Rect(x, v, w, h)
    }

    function WithBottom(v: real): (r: Rect)
      ensures r.Bottom() == v && r.x == x && r.w == w && r.h == h
    {
      Rect(x, v - h, w, h)
    }

    /** Adding a displacement to `topleft`. */
    function Shifted(dx: real, dy: real): (r: Rect)
      ensures r.x - x == dx && r.y - y == dy && r.w == w && r.h == h
    {
      Rect(x + dx, y + dy, w, h)
    }
  }

  function Min(a: real, b: real): real { if a <= b then a else b }
  function Max(a: real, b: real): real { if a >= b then a else b }

  /**
   * Rectangle overlap as the rendering library's `colliderect` defines it: the open
   * intervals intersect on both axes, a rectangle with zero width or height overlaps
   * nothing, and a negative size is read as extending to the left or upwards.
   */
  predicate Overlaps(a: Rect, b: Rect) {
    && a.w != 0.0 && a.h != 0.0 && b.w != 0.0 && b.h != 0.0
    && Min(a.x, a.x + a.w) < Max(b.x, b.x + b.w)
    && Min(a.y, a.y + a.h) < Max(b.y, b.y + b.h)
    && Max(a.x, a.x + a.w) > Min(b.x, b.x + b.w)
    && Max(a.y, a.y + a.h) > Min(b.y, b.y + b.h)
  }

  /**
   * What overlap means: never with an empty rectangle; for rectangles of positive size,
   * exactly when each starts before the other ends on both axes; and in either order.
   */
  lemma OverlapsMeaning(a: Rect, b: Rect)
    ensures a.w == 0.0 || a.h == 0.0 || b.w == 0.0 || b.h == 0.0 ==> !Overlaps(a, b)
    ensures a.w > 0.0 && a.h > 0.0 && b.w > 0.0 && b.h > 0.0 ==>
      (Overlaps(a, b) <==> a.Left() < b.Right() && b.Left() < a.Right() && a.Top() < b.Bottom() && b.Top() < a.Bottom())
    ensures Overlaps(a, b) == Overlaps(b, a)
  {
  }
}
