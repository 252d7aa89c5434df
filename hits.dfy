// Which layer a drag-mode press grabs: text layers are tested from the last
// to the first, then icons from the last to the first, and the first rect
// that contains the texture-space point wins.

module Hits {
  import opened Wrappers
  import opened Geometry

  /** From the last rect to the first: the index of the first one containing (px, py). */
  function Topmost(rects: seq<Rect>, px: int, py: int): (r: Option<nat>)
    ensures r.Some? ==> r.value < |rects| && rects[r.value].Contains(px, py)
    ensures r.Some? ==> forall j :: r.value < j < |rects| ==> !rects[j].Contains(px, py)
    ensures r.None? <==> forall j :: 0 <= j < |rects| ==> !rects[j].Contains(px, py)
    decreases |rects|
  {
    if rects == [] then None
    else if rects[|rects| - 1].Contains(px, py) then Some(|rects| - 1)
    else Topmost(rects[..|rects| - 1], px, py)
  }

  /** The layer a press selects, by list and index. */
  datatype Hit = Miss | TextHit(index: nat) | IconHit(index: nat)

  /**
   * The selection made by a press at texture point (px, py), given the rects of
   * the text layers and of the icons in list order.
   */
  function HitAt(texts: seq<Rect>, icons: seq<Rect>, px: int, py: int): (h: Hit)
    // a text layer is selected exactly when some text rect contains the point
    ensures h.TextHit? <==> exists j :: 0 <= j < |texts| && texts[j].Contains(px, py)
    ensures h.TextHit? ==> h.index < |texts| && texts[h.index].Contains(px, py)
    ensures h.TextHit? ==> forall j :: h.index < j < |texts| ==> !texts[j].Contains(px, py)
    // an icon only when no text rect contains it and some icon rect does
    ensures h.IconHit? <==>
              (forall j :: 0 <= j < |texts| ==> !texts[j].Contains(px, py)) &&
              (exists j :: 0 <= j < |icons| && icons[j].Contains(px, py))
    ensures h.IconHit? ==> h.index < |icons| && icons[h.index].Contains(px, py)
    ensures h.IconHit? ==> forall j :: h.index < j < |icons| ==> !icons[j].Contains(px, py)
  {
    match Topmost(texts, px, py)
    case Some(k) => TextHit(k)
    case None =>
      match Topmost(icons, px, py)
      case Some(k) => IconHit(k)
      case None => Miss
  }

  /**
   * Of two overlapping text layers, a press in the overlap never selects the
   * one added first: it selects the later one or one above it.
   */
  lemma LaterTextWins(texts: seq<Rect>, icons: seq<Rect>, a: nat, b: nat, px: int, py: int)
    requires a < b < |texts|
    requires texts[a].Contains(px, py) && texts[b].Contains(px, py)
    ensures HitAt(texts, icons, px, py).TextHit?
    ensures HitAt(texts, icons, px, py).index >= b
  {
  }

  /** A layer whose rect has no area, such as the default `QRect()`, is never selected. */
  lemma DegenerateNeverHit(texts: seq<Rect>, icons: seq<Rect>, px: int, py: int)
    ensures var h := HitAt(texts, icons, px, py);
            (h.TextHit? ==> texts[h.index].w > 0 && texts[h.index].h > 0) &&
            (h.IconHit? ==> icons[h.index].w > 0 && icons[h.index].h > 0)
  {
  }

  /**
   * An icon dragged to (tx, ty) and then rebuilt at its new anchor with its
   * own size is selected again by a press at (tx, ty), unless a text layer or
   * a later icon also covers that point.
   */
  lemma DraggedIconReselected(texts: seq<Rect>, icons: seq<Rect>, k: nat, tx: int, ty: int)
    requires k < |icons| && icons[k].w > 0 && icons[k].h > 0
    requires forall j :: 0 <= j < |texts| ==> !texts[j].Contains(tx, ty)
    requires forall j :: k < j < |icons| ==> !icons[j].Contains(tx, ty)
    ensures var moved := Rect(DragAnchor(tx, icons[k].w), DragAnchor(ty, icons[k].h), icons[k].w, icons[k].h);
            HitAt(texts, icons[k := moved], tx, ty) == IconHit(k)
  {
    var moved := Rect(DragAnchor(tx, icons[k].w), DragAnchor(ty, icons[k].h), icons[k].w, icons[k].h);
    DraggedRectHoldsPointer(tx, ty, icons[k].w, icons[k].h);
    assert icons[k := moved][k].Contains(tx, ty);
  }
}
