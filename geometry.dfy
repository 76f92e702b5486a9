/** The two hit tests the games use: a point strictly inside a rectangle
    (SpaceInvaders.tsx) and two rectangles overlapping strictly on both axes
    (Game.tsx). Canvas coordinates: x grows to the right, y grows downwards. */
module Geometry {

  datatype Rect = Rect(x: real, y: real, w: real, h: real)

  /** The point lies strictly inside all four edges of `r`. */
  predicate Within(px: real, py: real, r: Rect)
  {
    r.x < px && px < r.x + r.w && r.y < py && py < r.y + r.h
  }

  /** The standard axis-aligned test: the rectangles overlap strictly on both axes. */
  predicate Overlap(a: Rect, b: Rect)
  {
    a.x < b.x + b.w && a.x + a.w > b.x && a.y < b.y + b.h && a.y + a.h > b.y
  }

  /** A point on an edge never counts as a hit. */
  lemma WithinExcludesEdges(px: real, py: real, r: Rect)
    requires px == r.x || px == r.x + r.w || py == r.y || py == r.y + r.h
    ensures !Within(px, py, r)
  {
  }

  lemma OverlapSymmetric(a: Rect, b: Rect)
    ensures Overlap(a, b) <==> Overlap(b, a)
  {
  }

  /** The point test is the overlap test with a rectangle of no extent. */
  lemma WithinIsPointOverlap(px: real, py: real, r: Rect)
    ensures Within(px, py, r) <==> Overlap(Rect(px, py, 0.0, 0.0), r)
  {
  }

  /** Reference meaning of `Overlap` for rectangles of positive size: some
      point lies strictly inside both. */
  lemma OverlapIffSharedPoint(a: Rect, b: Rect)
    requires a.w > 0.0 && a.h > 0.0 && b.w > 0.0 && b.h > 0.0
    ensures Overlap(a, b) <==> exists px, py :: Within(px, py, a) && Within(px, py, b)
  {
    if Overlap(a, b) {
      var left := if a.x < b.x then b.x else a.x;
      var right := if a.x + a.w < b.x + b.w then a.x + a.w else b.x + b.w;
      var top := if a.y < b.y then b.y else a.y;
      var bottom := if a.y + a.h < b.y + b.h then a.y + a.h else b.y + b.h;
      var px, py := (left + right) / 2.0, (top + bottom) / 2.0;
      assert Within(px, py, a) && Within(px, py, b);
    }
  }
}
