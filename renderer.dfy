// The editing state held by the 3-D view: the two layer lists, the drag
// state, the texture dirty flag and the camera, with the pointer handlers and
// the bookkeeping half of the texture rebuild.

module Renderer {
  import opened Wrappers
  import opened Geometry
  import opened Hits
  import opened Layers

  /** Camera pose: rotations about x and y in degrees, and the distance along z. */
  datatype Camera = Camera(xRot: real, yRot: real, zoom: real)

  /** The pose the view starts in. */
  const InitialCamera: Camera := Camera(15.0, -25.0, -16.0)

  /** A free orbit step: half a degree per pixel the pointer moved, y-motion tilting about x. */
  function Orbit(c: Camera, from: Point, to: Point): Camera {
    c.(xRot := c.xRot + (to.y - from.y) as real * 0.5,
       yRot := c.yRot + (to.x - from.x) as real * 0.5)
  }

  /** The layer object a selection names. */
  function Selected(hit: Hit, ts: seq<TextLayer>, ics: seq<IconLayer>): Held
    requires hit.TextHit? ==> hit.index < |ts|
    requires hit.IconHit? ==> hit.index < |ics|
  {
    match hit
    case Miss => Nothing
    case TextHit(k) => HeldText(ts[k])
    case IconHit(k) => HeldIcon(ics[k])
  }

  /** A text layer whose fields other than its rect are as they were. */
  twostate predicate TextKeptButRect(t: TextLayer)
    reads t
  {
    t.text == old(t.text) && t.x == old(t.x) && t.y == old(t.y) &&
    t.size == old(t.size) && t.color == old(t.color) && t.font == old(t.font)
  }

  /** An icon whose fields other than its rect are as they were. */
  twostate predicate IconKeptButRect(i: IconLayer)
    reads i
  {
    i.path == old(i.path) && i.x == old(i.x) && i.y == old(i.y) &&
    i.w == old(i.w) && i.h == old(i.h)
  }

  class BoxRenderer {
    var texts: seq<TextLayer>
    var icons: seq<IconLayer>
    var dragging: Held
    var dragMode: bool
    var needsTextureUpdate: bool
    var camera: Camera
    var lastPos: Point
    var imgPath: Option<string>

    /** Each layer object appears once in its list. */
    ghost predicate Valid()
      reads this
    {
      DistinctTexts(texts) && DistinctIcons(icons)
    }

    constructor ()
      ensures Valid()
      ensures texts == [] && icons == [] && dragging == Nothing
      ensures !dragMode && needsTextureUpdate
      ensures camera == InitialCamera && lastPos == Point(0, 0) && imgPath == None
    {
      texts, icons := [], [];
      dragging := Nothing;
      dragMode := false;
      needsTextureUpdate := true;
      camera := InitialCamera;
      lastPos := Point(0, 0);
      imgPath := None;
    }

    /** The object being dragged, as a frame. */
    function HeldObjects(): set<object>
      reads this
    {
      match dragging
      case Nothing => {}
      case HeldText(t) => {t}
      case HeldIcon(i) => {i}
    }

    /**
     * The scan a drag-mode press performs: text layers from the last to the
     * first, then icons from the last to the first.
     */
    method HitTest(tx: int, ty: int) returns (h: Held)
      ensures h == Selected(HitAt(TextRects(texts), IconRects(icons), tx, ty), texts, icons)
    {
      for k := |texts| downto 0
        invariant forall j :: k <= j < |texts| ==> !texts[j].rect.Contains(tx, ty)
      {
        if texts[k].rect.Contains(tx, ty) {
          assert Topmost(TextRects(texts), tx, ty) == Some(k);
          return HeldText(texts[k]);
        }
      }
      for k := |icons| downto 0
        invariant forall j :: k <= j < |icons| ==> !icons[j].rect.Contains(tx, ty)
      {
        if icons[k].rect.Contains(tx, ty) {
          assert Topmost(IconRects(icons), tx, ty) == Some(k);
          return HeldIcon(icons[k]);
        }
      }
      return Nothing;
    }

    /**
     * A press at viewport pixel (px, py) in a viewport of width × height. In
     * drag mode a hit grabs the layer, and then the pointer is not recorded.
     */
    method MousePress(px: int, py: int, width: int, height: int)
      requires dragMode ==> width > 0 && height > 0
      modifies this
      ensures texts == old(texts) && icons == old(icons) && dragMode == old(dragMode)
      ensures needsTextureUpdate == old(needsTextureUpdate) && camera == old(camera)
      ensures imgPath == old(imgPath)
      ensures !dragMode ==> dragging == old(dragging) && lastPos == Point(px, py)
      ensures dragMode ==>
                var h := Selected(HitAt(TextRects(texts), IconRects(icons),
                                        TexCoord(px, width), TexCoord(py, height)), texts, icons);
                if h == Nothing then dragging == old(dragging) && lastPos == Point(px, py)
                else dragging == h && lastPos == old(lastPos)
    {
      if dragMode {
        var h := HitTest(TexCoord(px, width), TexCoord(py, height));
        if h != Nothing {
          dragging := h;
          return;
        }
      }
      lastPos := Point(px, py);
    }

    /**
     * A pointer move to viewport pixel (px, py). In drag mode it re-anchors
     * the held layer around the pointer; outside drag mode it orbits the
     * camera while the left button is down.
     */
    method MouseMove(px: int, py: int, width: int, height: int, leftButton: bool)
      requires dragMode && dragging != Nothing ==> width > 0 && height > 0
      modifies this, HeldObjects()
      ensures texts == old(texts) && icons == old(icons) && dragMode == old(dragMode)
      ensures dragging == old(dragging) && imgPath == old(imgPath)
      ensures lastPos == Point(px, py)
      ensures dragMode && dragging.HeldText? ==>
                var t := dragging.textLayer;
                t.x == DragAnchor(TexCoord(px, width), t.rect.w) &&
                t.y == DragAnchor(TexCoord(py, height), t.rect.h) &&
                t.text == old(t.text) && t.size == old(t.size) && t.color == old(t.color) &&
                t.font == old(t.font) && t.rect == old(t.rect)
      ensures dragMode && dragging.HeldIcon? ==>
                var i := dragging.iconLayer;
                i.x == DragAnchor(TexCoord(px, width), i.rect.w) &&
                i.y == DragAnchor(TexCoord(py, height), i.rect.h) &&
                i.path == old(i.path) && i.w == old(i.w) && i.h == old(i.h) &&
                i.rect == old(i.rect)
      ensures dragMode && dragging != Nothing ==> needsTextureUpdate
      ensures !(dragMode && dragging != Nothing) ==>
                needsTextureUpdate == old(needsTextureUpdate) && unchanged(HeldObjects())
      ensures dragMode ==> camera == old(camera)
      ensures !dragMode ==>
                camera == if leftButton then Orbit(old(camera), old(lastPos), Point(px, py)) else old(camera)
      ensures forall k :: 0 <= k < |texts| && texts[k] !in HeldObjects() ==> unchanged(texts[k])
      ensures forall k :: 0 <= k < |icons| && icons[k] !in HeldObjects() ==> unchanged(icons[k])
    {
      if dragMode && dragging != Nothing {
        var tx, ty := TexCoord(px, width), TexCoord(py, height);
        needsTextureUpdate := true;
        match dragging
        case HeldText(t) =>
          t.x := DragAnchor(tx, t.rect.w);
          t.y := DragAnchor(ty, t.rect.h);
        case HeldIcon(i) =>
          i.x := DragAnchor(tx, i.rect.w);
          i.y := DragAnchor(ty, i.rect.h);
      } else if !dragMode {
        if leftButton {
          camera := Orbit(camera, lastPos, Point(px, py));
        }
      }
      lastPos := Point(px, py);
    }

    /**
     * What a rebuild leaves behind: the same lists, every field but the rects
     * as it was, each measured text layer holding its box, each loaded icon
     * holding its anchor and target size, the failures their old rects, and
     * the dirty flag clear.
     */
    twostate predicate Rebuilt(metrics: TextMetrics, loads: IconLoader)
      reads this, texts, icons
    {
      texts == old(texts) && icons == old(icons) && dragging == old(dragging) &&
      dragMode == old(dragMode) && camera == old(camera) && lastPos == old(lastPos) &&
      imgPath == old(imgPath) && !needsTextureUpdate &&
      (forall k :: 0 <= k < |texts| ==> TextKeptButRect(texts[k])) &&
      (forall k :: 0 <= k < |icons| ==> IconKeptButRect(icons[k])) &&
      (forall k :: 0 <= k < |texts| ==>
         texts[k].rect == RebuiltTextRect(old(texts[k].rect),
           metrics(texts[k].text, texts[k].font, texts[k].size, texts[k].x, texts[k].y))) &&
      (forall k :: 0 <= k < |icons| ==>
         icons[k].rect == RebuiltIconRect(old(icons[k].rect), loads(icons[k].path),
           icons[k].x, icons[k].y, icons[k].w, icons[k].h))
    }

    /**
     * The bookkeeping of a master-texture rebuild, with the font library and
     * the image loader as oracles; the pixels are not modelled.
     */
    method UpdateMasterTexture(metrics: TextMetrics, loads: IconLoader)
      requires Valid()
      modifies this, texts, icons
      ensures Valid() && Rebuilt(metrics, loads)
    {
      RebuildTextRects(metrics);
      RebuildIconRects(loads);
      needsTextureUpdate := false;
    }

    /** The text-layer loop of a rebuild. */
    method RebuildTextRects(metrics: TextMetrics)
      requires DistinctTexts(texts)
      modifies texts
      ensures forall j :: 0 <= j < |texts| ==> TextKeptButRect(texts[j])
      ensures forall j :: 0 <= j < |texts| ==>
                texts[j].rect == RebuiltTextRect(old(texts[j].rect),
                  metrics(texts[j].text, texts[j].font, texts[j].size, texts[j].x, texts[j].y))
    {
      for k := 0 to |texts|
        invariant forall j :: 0 <= j < |texts| ==> TextKeptButRect(texts[j])
        invariant forall j :: 0 <= j < k ==>
                    texts[j].rect == RebuiltTextRect(old(texts[j].rect),
                      metrics(texts[j].text, texts[j].font, texts[j].size, texts[j].x, texts[j].y))
        invariant forall j :: k <= j < |texts| ==> texts[j].rect == old(texts[j].rect)
      {
        var t := texts[k];
        var m := metrics(t.text, t.font, t.size, t.x, t.y);
        if m.Some? {
          t.rect := BboxRect(m.value);
        }
      }
    }

    /** The icon loop of a rebuild. */
    method RebuildIconRects(loads: IconLoader)
      requires DistinctIcons(icons)
      modifies icons
      ensures forall j :: 0 <= j < |icons| ==> IconKeptButRect(icons[j])
      ensures forall j :: 0 <= j < |icons| ==>
                icons[j].rect == RebuiltIconRect(old(icons[j].rect), loads(icons[j].path),
                  icons[j].x, icons[j].y, icons[j].w, icons[j].h)
    {
      for k := 0 to |icons|
        invariant forall j :: 0 <= j < |icons| ==> IconKeptButRect(icons[j])
        invariant forall j :: 0 <= j < k ==>
                    icons[j].rect == RebuiltIconRect(old(icons[j].rect), loads(icons[j].path),
                      icons[j].x, icons[j].y, icons[j].w, icons[j].h)
        invariant forall j :: k <= j < |icons| ==> icons[j].rect == old(icons[j].rect)
      {
        var i := icons[k];
        if loads(i.path) {
          i.rect := Rect(i.x, i.y, i.w, i.h);
        }
      }
    }

    /** The per-frame entry point: it rebuilds the texture exactly when the dirty flag is set. */
    method PaintGL(metrics: TextMetrics, loads: IconLoader)
      requires Valid()
      modifies this, texts, icons
      ensures Valid() && !needsTextureUpdate
      ensures old(needsTextureUpdate) ==> Rebuilt(metrics, loads)
      ensures !old(needsTextureUpdate) ==> unchanged(this) && unchanged(texts) && unchanged(icons)
    {
      if needsTextureUpdate {
        UpdateMasterTexture(metrics, loads);
      }
    }
  }
}
