/** Rectangles (rect.go): the emptiness test. */
module Rects {
  import opened Base

  datatype Rect = Rect(X: int32, Y: int32, W: int32, H: int32)

  /** The pixel (px, py) lies inside `r`. */
  predicate Covers(r: Rect, px: int, py: int)
  {
    r.X <= px < r.X + r.W && r.Y <= py < r.Y + r.H
  }

  /** Empty: a nil rectangle, or one whose width or height is not positive. */
  function Empty(rect: Option<Rect>): (b: bool)
    ensures rect.None? ==> b
    ensures rect.Some? ==> (b <==> rect.value.W <= 0 || rect.value.H <= 0)
  {
    if rect.None? then true
    else rect.value.W <= 0 || rect.value.H <= 0
  }

  /** "No area" in pixels: a non-nil rectangle is empty iff it covers no pixel. */
  lemma EmptyIffNoPixel(r: Rect)
    ensures Empty(Some(r)) <==> forall px, py :: !Covers(r, px, py)
  {
    if !Empty(Some(r)) {
      assert Covers(r, r.X, r.Y);
    }
  }
}
