/** Axis-aligned rectangles in surface pixel coordinates (top-left origin). */
module Geometry {

  datatype Rect = Rect(x: real, y: real, w: real, h: real)

  /** The closed rectangle [x, x+w] x [y, y+h]: points on the edges are inside. */
  predicate Contains(r: Rect, px: real, py: real) {
    r.x <= px <= r.x + r.w && r.y <= py <= r.y + r.h
  }

  /** `outer` covers every point of `inner`. */
  predicate Encloses(outer: Rect, inner: Rect) {
    outer.x <= inner.x && inner.x + inner.w <= outer.x + outer.w &&
    outer.y <= inner.y && inner.y + inner.h <= outer.y + outer.h
  }

  /** The rectangle lies within the surface [0, width] x [0, height]. */
  predicate Inside(r: Rect, width: real, height: real) {
    0.0 <= r.x && r.x + r.w <= width && 0.0 <= r.y && r.y + r.h <= height
  }

  function Translate(r: Rect, dx: real, dy: real): (t: Rect)
    ensures t.w == r.w && t.h == r.h
    ensures forall px, py :: Contains(r, px, py) <==> Contains(t, px + dx, py + dy)
  {
    Rect(r.x + dx, r.y + dy, r.w, r.h)
  }

  /** The four corners of a rectangle with non-negative size are hits: the
      test includes the boundary. */
  lemma CornersAreHits(r: Rect)
    requires r.w >= 0.0 && r.h >= 0.0
    ensures Contains(r, r.x, r.y) && Contains(r, r.x + r.w, r.y)
    ensures Contains(r, r.x, r.y + r.h) && Contains(r, r.x + r.w, r.y + r.h)
  {
  }

  /** A rectangle enclosed in another cannot be hit where the outer one is not. */
  lemma EnclosedHitIsHit(outer: Rect, inner: Rect, px: real, py: real)
    requires Encloses(outer, inner) && Contains(inner, px, py)
    ensures Contains(outer, px, py)
  {
  }
}
