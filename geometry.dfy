// Integer geometry of the editor's texture space: rectangles with Qt's
// containment rule, the viewport-to-texture pointer mapping and the
// re-anchoring used while dragging a layer.

module Wrappers {
  datatype Option<+T> = None | Some(value: T)
}

module Geometry {

  /** Both axes of the pointer mapping end in this many texture pixels. */
  const TexSide: int := 1024

  /** An integer point, such as a `QPoint` pointer position. */
  datatype Point = Point(x: int, y: int)

  /**
   * A `QRect(x, y, w, h)`. Its right edge is x + w - 1 and its bottom edge
   * y + h - 1, so a point is inside when it lies in [x, x + w) × [y, y + h).
   */
  datatype Rect = Rect(x: int, y: int, w: int, h: int) {
    predicate Contains(px: int, py: int) {
      x <= px < x + w && y <= py < y + h
    }
  }

  /** The default-constructed `QRect()`: width and height zero. */
  const EmptyRect: Rect := Rect(0, 0, 0, 0)

  /** A rectangle without area contains no point; in particular `QRect()` does not. */
  lemma DegenerateContainsNothing(r: Rect, px: int, py: int)
    requires r.w <= 0 || r.h <= 0
    ensures !r.Contains(px, py)
  {
  }

  /**
   * Integer quotient rounded toward zero, as Python's `int()` does to the
   * quotient of a division.
   */
  function TruncDiv(a: int, b: int): (q: int)
    requires b > 0
    ensures a >= 0 ==> 0 <= q && q * b <= a < q * b + b
    ensures a < 0 ==> q <= 0 && -q * b <= -a < -q * b + b
  {
    if a >= 0 then
      DivBounds(a, b); a / b
    else
      DivBounds(-a, b); -(-a / b)
  }

  // The quotient of Euclidean division by a positive divisor is the floor.
  lemma DivBounds(n: int, b: int)
    requires n >= 0 && b > 0
    ensures 0 <= n / b && (n / b) * b <= n < (n / b) * b + b
  {
  }

  /**
   * Texture coordinate of a pointer coordinate `p` in a viewport of `extent`
   * pixels along the same axis: `int((p / extent) * 1024)`.
   */
  function TexCoord(p: int, extent: int): (t: int)
    requires extent > 0
    ensures 0 <= p < extent ==> 0 <= t < TexSide
    ensures p >= 0 ==> t * extent <= p * TexSide < t * extent + extent
    ensures p < 0 ==> t <= 0
  {
    var t := TruncDiv(p * TexSide, extent);
    if 0 <= p < extent then Below(t, extent, p); t else t
  }

  // If t * e <= p * 1024 and p < e, then t < 1024.
  lemma Below(t: int, e: int, p: int)
    requires e > 0 && 0 <= p < e && t * e <= p * TexSide
    ensures t < TexSide
  {
    assert (t - TexSide) * e < 0;
  }

  /**
   * Anchor coordinate that puts pointer coordinate `t` at the middle of an
   * extent of `extent` pixels: `t - extent // 2`.
   */
  function DragAnchor(t: int, extent: int): (a: int)
    ensures 2 * (t - a) <= extent <= 2 * (t - a) + 1
    ensures extent > 0 ==> a <= t < a + extent
  {
    t - extent / 2
  }

  /**
   * After a drag re-anchors a rectangle of positive size at the pointer, the
   * rectangle at the new anchor contains the pointer.
   */
  lemma DraggedRectHoldsPointer(tx: int, ty: int, w: int, h: int)
    requires w > 0 && h > 0
    ensures Rect(DragAnchor(tx, w), DragAnchor(ty, h), w, h).Contains(tx, ty)
  {
  }
}
