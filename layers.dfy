// The two kinds of layer record the editor keeps, and what a texture rebuild
// does to their cached rects. The records are objects: the renderer, the
// layer lists and the drag state share them by reference.

module Layers {
  import opened Wrappers
  import opened Geometry

  /** An RGBA colour. */
  datatype Color = Color(r: int, g: int, b: int, a: int)

  const White: Color := Color(255, 255, 255, 255)

  /** What `add_t` puts into a new text layer. */
  const DefaultText: string := "EDIT ME"
  const DefaultTextPos: int := 400
  const DefaultTextSize: int := 80
  const DefaultFont: string := "arial.ttf"

  /** What `add_i` puts into a new icon. */
  const DefaultIconPos: int := 300
  const DefaultIconSide: int := 150

  /** A glyph-run bounding box (left, top, right, bottom), as the font library reports it. */
  datatype Bbox = Bbox(left: int, top: int, right: int, bottom: int)

  /**
   * The font library, seen from the rebuild: the bounding box of `text` set
   * in `font` at `size` with its origin at (x, y), or None when the font
   * cannot be loaded or measured.
   */
  type TextMetrics = (string, string, int, int, int) -> Option<Bbox>

  /** Whether the image at a path can be opened, shrunk and pasted. */
  type IconLoader = string -> bool

  /**
   * The rect stored for a measured text layer: its box's corner and size, so
   * it covers exactly the half-open glyph box [left, right) × [top, bottom).
   */
  function BboxRect(b: Bbox): (r: Rect)
    ensures forall px, py :: r.Contains(px, py) <==> b.left <= px < b.right && b.top <= py < b.bottom
  {
    Rect(b.left, b.top, b.right - b.left, b.bottom - b.top)
  }

  /** A text layer's rect after a rebuild: the measured box, or the old rect on failure. */
  function RebuiltTextRect(prev: Rect, m: Option<Bbox>): Rect {
    match m
    case Some(b) => BboxRect(b)
    case None => prev
  }

  /** An icon's rect after a rebuild: its anchor and target size, or the old rect on failure. */
  function RebuiltIconRect(prev: Rect, loaded: bool, x: int, y: int, w: int, h: int): Rect {
    if loaded then Rect(x, y, w, h) else prev
  }

  class TextLayer {
    var text: string
    var x: int
    var y: int
    var size: int
    var color: Color
    var font: string
    var rect: Rect

    /** The layer `add_t` creates. */
    constructor Default()
      ensures text == DefaultText && x == DefaultTextPos && y == DefaultTextPos
      ensures size == DefaultTextSize && color == White && font == DefaultFont
      ensures rect == EmptyRect
    {
      text := DefaultText;
      x, y := DefaultTextPos, DefaultTextPos;
      size := DefaultTextSize;
      color := White;
      font := DefaultFont;
      rect := EmptyRect;
    }
  }

  class IconLayer {
    var path: string
    var x: int
    var y: int
    var w: int
    var h: int
    var rect: Rect

    /** The icon `add_i` creates for an image path. */
    constructor Default(path: string)
      ensures this.path == path && x == DefaultIconPos && y == DefaultIconPos
      ensures w == DefaultIconSide && h == DefaultIconSide
      ensures rect == EmptyRect
    {
      this.path := path;
      x, y := DefaultIconPos, DefaultIconPos;
      w, h := DefaultIconSide, DefaultIconSide;
      rect := EmptyRect;
    }
  }

  /** The layer being dragged, if any: a reference, so it outlives removal from its list. */
  datatype Held = Nothing | HeldText(textLayer: TextLayer) | HeldIcon(iconLayer: IconLayer)

  /** The rects of text layers, in list order. */
  function TextRects(ts: seq<TextLayer>): (r: seq<Rect>)
    reads ts
    ensures |r| == |ts| && forall k :: 0 <= k < |ts| ==> r[k] == ts[k].rect
  {
    seq(|ts|, k requires 0 <= k < |ts| reads ts => ts[k].rect)
  }

  /** The rects of icons, in list order. */
  function IconRects(ics: seq<IconLayer>): (r: seq<Rect>)
    reads ics
    ensures |r| == |ics| && forall k :: 0 <= k < |ics| ==> r[k] == ics[k].rect
  {
    seq(|ics|, k requires 0 <= k < |ics| reads ics => ics[k].rect)
  }

  /** Pairwise distinct references. */
  predicate DistinctTexts(ts: seq<TextLayer>) {
    forall i, j :: 0 <= i < j < |ts| ==> ts[i] != ts[j]
  }

  predicate DistinctIcons(ics: seq<IconLayer>) {
    forall i, j :: 0 <= i < j < |ics| ==> ics[i] != ics[j]
  }
}
