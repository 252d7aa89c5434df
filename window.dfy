// The control panel's handlers: each edits the renderer's layer state in
// place and marks the texture dirty. The panel's list of layer labels is kept
// row for row with the renderer's text layers. Widget values (the current
// row, the text box, the size box, the font box, dialog results) arrive as
// parameters; row -1 means no row is selected.

module Window {
  import opened Wrappers
  import opened Geometry
  import opened Layers
  import opened Renderer

  /** The check-box state that means "checked". */
  const Checked: int := 2

  class MainWindow {
    const renderer: BoxRenderer
    var layerList: seq<string>

    /**
     * The renderer's lists hold distinct layers, and the label list has one
     * row per text layer showing that layer's text.
     */
    ghost predicate Valid()
      reads this, renderer, renderer.texts
    {
      renderer.Valid() && |layerList| == |renderer.texts| &&
      forall k :: 0 <= k < |layerList| ==> layerList[k] == renderer.texts[k].text
    }

    /** A panel with an unchecked drag box, no layers and a fresh renderer. */
    constructor ()
      ensures Valid() && fresh(renderer) && layerList == []
      ensures renderer.texts == [] && renderer.icons == [] && renderer.dragging == Nothing
      ensures !renderer.dragMode && renderer.needsTextureUpdate
      ensures renderer.camera == InitialCamera && renderer.imgPath == None
    {
      renderer := new BoxRenderer();
      layerList := [];
    }

    /** The text layer at a row, as a frame: empty for row -1. */
    function RowLayer(row: int): set<object>
      reads this, renderer
    {
      if 0 <= row < |renderer.texts| then {renderer.texts[row]} else {}
    }

    /** The drag-mode check box changed to `state`; checking it levels the camera. */
    method ToggleDrag(state: int)
      modifies renderer
      ensures old(Valid()) ==> Valid()
      ensures renderer.dragMode == (state == Checked)
      ensures state == Checked ==> renderer.camera == old(renderer.camera).(xRot := 0.0, yRot := 0.0)
      ensures state != Checked ==> renderer.camera == old(renderer.camera)
      ensures unchanged(renderer`texts, renderer`icons, renderer`dragging, renderer`needsTextureUpdate,
                        renderer`lastPos, renderer`imgPath)
    {
      renderer.dragMode := state == Checked;
      if state == Checked {
        renderer.camera := renderer.camera.(xRot := 0.0, yRot := 0.0);
      }
    }

    /** The text box changed to `input`: the selected layer and its label take it. */
    method UpdText(row: int, input: string)
      requires Valid() && -1 <= row < |layerList|
      modifies this, renderer, RowLayer(row)
      ensures Valid() && renderer.texts == old(renderer.texts)
      ensures row == -1 ==> unchanged(this, renderer)
      ensures row >= 0 ==>
                var t := renderer.texts[row];
                t.text == input && layerList == old(layerList)[row := input] &&
                renderer.needsTextureUpdate &&
                t.x == old(t.x) && t.y == old(t.y) && t.size == old(t.size) &&
                t.color == old(t.color) && t.font == old(t.font) && t.rect == old(t.rect)
      ensures unchanged(renderer`icons, renderer`dragging, renderer`dragMode, renderer`camera,
                        renderer`lastPos, renderer`imgPath)
    {
      if row >= 0 {
        renderer.texts[row].text := input;
        layerList := layerList[row := input];
        renderer.needsTextureUpdate := true;
      }
    }

    /** The size box changed to `value`: the selected layer takes it. */
    method UpdStyle(row: int, value: int)
      requires Valid() && -1 <= row < |layerList|
      modifies renderer, RowLayer(row)
      ensures Valid() && renderer.texts == old(renderer.texts)
      ensures row == -1 ==> unchanged(renderer)
      ensures row >= 0 ==>
                var t := renderer.texts[row];
                t.size == value && renderer.needsTextureUpdate &&
                t.text == old(t.text) && t.x == old(t.x) && t.y == old(t.y) &&
                t.color == old(t.color) && t.font == old(t.font) && t.rect == old(t.rect)
      ensures unchanged(renderer`icons, renderer`dragging, renderer`dragMode, renderer`camera,
                        renderer`lastPos, renderer`imgPath)
    {
      if row >= 0 {
        renderer.texts[row].size := value;
        renderer.needsTextureUpdate := true;
      }
    }

    /** The font box changed to `f`: the selected layer takes it. */
    method UpdFont(row: int, f: string)
      requires Valid() && -1 <= row < |layerList|
      modifies renderer, RowLayer(row)
      ensures Valid() && renderer.texts == old(renderer.texts)
      ensures row == -1 ==> unchanged(renderer)
      ensures row >= 0 ==>
                var t := renderer.texts[row];
                t.font == f && renderer.needsTextureUpdate &&
                t.text == old(t.text) && t.x == old(t.x) && t.y == old(t.y) &&
                t.size == old(t.size) && t.color == old(t.color) && t.rect == old(t.rect)
      ensures unchanged(renderer`icons, renderer`dragging, renderer`dragMode, renderer`camera,
                        renderer`lastPos, renderer`imgPath)
    {
      if row >= 0 {
        renderer.texts[row].font := f;
        renderer.needsTextureUpdate := true;
      }
    }

    /**
     * The colour button: with a row selected, the dialog's answer `picked`
     * (None when cancelled) becomes the layer's colour, fully opaque.
     */
    method SetTextColor(row: int, picked: Option<Color>)
      requires Valid() && -1 <= row < |layerList|
      modifies renderer, RowLayer(row)
      ensures Valid() && renderer.texts == old(renderer.texts)
      ensures row == -1 || picked.None? ==> unchanged(renderer)
      ensures row >= 0 && picked.Some? ==>
                var t := renderer.texts[row];
                t.color == Color(picked.value.r, picked.value.g, picked.value.b, 255) &&
                renderer.needsTextureUpdate &&
                t.text == old(t.text) && t.x == old(t.x) && t.y == old(t.y) &&
                t.size == old(t.size) && t.font == old(t.font) && t.rect == old(t.rect)
      ensures unchanged(renderer`icons, renderer`dragging, renderer`dragMode, renderer`camera,
                        renderer`lastPos, renderer`imgPath)
    {
      if row >= 0 {
        if picked.Some? {
          var c := picked.value;
          renderer.texts[row].color := Color(c.r, c.g, c.b, 255);
          renderer.needsTextureUpdate := true;
        }
      }
    }

    /** "+ Add Text": a new default layer on top, and its label. */
    method AddText()
      requires Valid()
      modifies this, renderer
      ensures Valid()
      ensures |renderer.texts| == |old(renderer.texts)| + 1
      ensures renderer.texts[..|old(renderer.texts)|] == old(renderer.texts)
      ensures layerList == old(layerList) + [DefaultText]
      ensures var t := renderer.texts[|old(renderer.texts)|];
              fresh(t) && t.text == DefaultText && t.x == DefaultTextPos && t.y == DefaultTextPos &&
              t.size == DefaultTextSize && t.color == White && t.font == DefaultFont &&
              t.rect == EmptyRect
      ensures renderer.needsTextureUpdate
      ensures unchanged(renderer`icons, renderer`dragging, renderer`dragMode, renderer`camera,
                        renderer`lastPos, renderer`imgPath)
    {
      var t := new TextLayer.Default();
      renderer.texts := renderer.texts + [t];
      layerList := layerList + [DefaultText];
      renderer.needsTextureUpdate := true;
    }

    /**
     * "Remove Text": with a row selected, that layer and its label leave
     * their lists. A drag in progress keeps its reference to the layer.
     */
    method RemoveText(row: int)
      requires Valid() && -1 <= row < |layerList|
      modifies this, renderer
      ensures Valid()
      ensures row == -1 ==> unchanged(this, renderer)
      ensures row >= 0 ==>
                renderer.texts == old(renderer.texts)[..row] + old(renderer.texts)[row + 1..] &&
                layerList == old(layerList)[..row] + old(layerList)[row + 1..] &&
                renderer.needsTextureUpdate
      ensures unchanged(renderer`icons, renderer`dragging, renderer`dragMode, renderer`camera,
                        renderer`lastPos, renderer`imgPath)
    {
      if row >= 0 {
        renderer.texts := renderer.texts[..row] + renderer.texts[row + 1..];
        layerList := layerList[..row] + layerList[row + 1..];
        renderer.needsTextureUpdate := true;
      }
    }

    /** "Box Wrap": a chosen path (empty when cancelled) becomes the wrap image. */
    method SetWrap(path: string)
      modifies renderer
      ensures old(Valid()) ==> Valid()
      ensures path == [] ==> unchanged(renderer)
      ensures path != [] ==> renderer.imgPath == Some(path) && renderer.needsTextureUpdate
      ensures unchanged(renderer`texts, renderer`icons, renderer`dragging, renderer`dragMode,
                        renderer`camera, renderer`lastPos)
    {
      if path != [] {
        renderer.imgPath := Some(path);
        renderer.needsTextureUpdate := true;
      }
    }

    /** "Add Icon": a chosen path (empty when cancelled) becomes a new default icon on top. */
    method AddIcon(path: string)
      requires Valid()
      modifies renderer
      ensures Valid()
      ensures path == [] ==> unchanged(renderer)
      ensures path != [] ==>
                |renderer.icons| == |old(renderer.icons)| + 1 &&
                renderer.icons[..|old(renderer.icons)|] == old(renderer.icons) &&
                renderer.needsTextureUpdate &&
                var i := renderer.icons[|old(renderer.icons)|];
                fresh(i) && i.path == path && i.x == DefaultIconPos && i.y == DefaultIconPos &&
                i.w == DefaultIconSide && i.h == DefaultIconSide && i.rect == EmptyRect
      ensures unchanged(renderer`texts, renderer`dragging, renderer`dragMode, renderer`camera,
                        renderer`lastPos, renderer`imgPath)
    {
      if path != [] {
        var i := new IconLayer.Default(path);
        renderer.icons := renderer.icons + [i];
        renderer.needsTextureUpdate := true;
      }
    }
  }
}
