/** The viewport clamp used to place the desktop's context menu.

    A rectangle of size (w, h) requested at top-left (x, y) is pulled back
    inside a viewport of size (vw, vh) on the right and bottom edges only;
    there is no lower bound, so the result may be negative when the viewport
    is narrower than the rectangle plus the margin.  Sizes stand for the
    measured bounding box of the element, coordinates are whole pixels. */
module Viewport {

  datatype Point = Point(x: int, y: int)

  /** Gap kept between a clamped rectangle and the right or bottom edge. */
  const Margin := 10

  /** One axis of the clamp: a rectangle of extent `size` at `p` that would
      overflow `limit` is moved to `limit - size - Margin`. */
  function ClampAxis(p: int, size: int, limit: int): (r: int)
    ensures r + size <= limit
    ensures r == p <==> p + size <= limit
    ensures r != p ==> r == limit - size - Margin
  {
    if p + size > limit then limit - size - Margin else p
  }

  /** Top-left corner at which a (w, h) rectangle requested at (x, y) is
      placed in a (vw, vh) viewport. */
  function Clamp(x: int, y: int, w: int, h: int, vw: int, vh: int): (r: Point)
    ensures r.x + w <= vw && r.y + h <= vh
    ensures r.x == x <==> x + w <= vw
    ensures r.y == y <==> y + h <= vh
    ensures x + w > vw ==> r.x == vw - w - Margin
    ensures y + h > vh ==> r.y == vh - h - Margin
  {
    Point(ClampAxis(x, w, vw), ClampAxis(y, h, vh))
  }

  /** Clamping an already clamped corner changes nothing. */
  lemma ClampIdempotent(x: int, y: int, w: int, h: int, vw: int, vh: int)
    ensures var p := Clamp(x, y, w, h, vw, vh);
            Clamp(p.x, p.y, w, h, vw, vh) == p
  {
  }

  /** The horizontal result depends only on x, w and vw; the vertical one
      only on y, h and vh. */
  lemma ClampAxesIndependent(x1: int, x2: int, y1: int, y2: int, w1: int, w2: int,
                             h1: int, h2: int, vw1: int, vw2: int, vh1: int, vh2: int)
    ensures Clamp(x1, y1, w1, h1, vw1, vh1).x == Clamp(x1, y2, w1, h2, vw1, vh2).x
    ensures Clamp(x1, y1, w1, h1, vw1, vh1).y == Clamp(x2, y1, w2, h1, vw2, vh1).y
  {
  }

  /** No lower bound: an overflowing rectangle wider (or taller) than the
      viewport minus the margin ends up at a negative coordinate. */
  lemma ClampNoLowerBound(x: int, y: int, w: int, h: int, vw: int, vh: int)
    requires x + w > vw && w + Margin > vw
    ensures Clamp(x, y, w, h, vw, vh).x < 0
  {
  }

  /** Worked cases for a 1000x700 viewport and a 200x100 menu. */
  lemma ClampExamples()
    ensures Clamp(950, 650, 200, 100, 1000, 700) == Point(790, 590)
    ensures Clamp(10, 10, 200, 100, 1000, 700) == Point(10, 10)
    ensures Clamp(900, 10, 200, 100, 1000, 700) == Point(790, 10)
  {
  }
}
