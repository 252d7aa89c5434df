# Box Maker: layer editing and placement

This project models the editing state machine of Box Maker, a 3-D product-mockup editor. The user places text layers and icons on the box's texture, drags them around, and orbits the camera. The model covers:

- the state the 3-D view (`BoxRenderer`) keeps:
  - the ordered text-layer and icon lists, each entry with an anchor and a cached rect;
  - the drag-mode flag;
  - the reference to the layer being dragged;
  - the texture dirty flag;
  - the camera pose;
  - the wrap-image path;
- the pointer handlers that hit-test and drag layers or orbit the camera;
- the bookkeeping half of the texture rebuild: which rect each layer ends up with, and when the dirty flag clears;
- the control panel (`MainWindow`) handlers that add, remove and edit layers.

Organisation:

- `geometry.dfy`:
  - `Wrappers`: `Option`.
  - `Geometry`: `QRect` containment, truncating division, the viewport-to-texture pointer mapping and the drag re-anchoring.
- `hits.dfy` (`Hits`): the reference definition of which layer a press selects. Text layers are tested from last to first, then icons from last to first.
- `layers.dfy` (`Layers`):
  - the layer records, as classes;
  - the dragged-layer reference `Held`;
  - the two oracles a rebuild consults: font metrics and image loading.
- `renderer.dfy` (`Renderer`): the `BoxRenderer` class.
- `window.dfy` (`Window`): the `MainWindow` class. Its invariant `Valid()` says the panel's list has one label per text layer, and each label shows that layer's text.
- `scenarios.dfy` (`Scenarios`): two client sessions proved from the contracts alone.
  - Two overlapping layers: a press in the overlap grabs the later one.
  - A grabbed layer removed from the panel stays grabbed and still moves.

Layers are objects, as the Python dictionaries are. The dragged-layer field holds a reference to one of them, so the model keeps the source's aliasing. A text layer removed while it is grabbed remains the dragged item, and later moves still re-anchor it.

Rebuilds depend on two outside libraries, which become parameters:
- A font-metrics oracle `TextMetrics` maps (text, font, size, x, y) to a glyph bounding box or to `None` when the font fails.
- An image oracle `IconLoader` maps an icon path to whether opening, shrinking and pasting it succeeds.

Pointer input arrives as integer pixel coordinates with the viewport size. Widget values arrive as parameters: the selected row (−1 for none), the text box, the size box, the font box and dialog results.

Behaviour of `box.py` a reader might not expect:

- Pointer mapping. The viewport is scaled to 1024 × 1024 texture pixels on both axes (box.py:118), although the master texture is 2048 × 1024 (box.py:40).
- Stale rects. A press hit-tests the rects from the last rebuild, even when the dirty flag is set. Nothing forces a rebuild first.
- Dragging never ends. There is no release handler, and nothing ever resets the dragged item to none. A press that misses keeps the previous item.
- Index guards. Handlers guard only `i >= 0`. The row comes from the panel's list, which has as many rows as there are text layers, so `Valid()` and the requirement `-1 <= row < |layerList|` stand for Qt's guarantee. A larger index would raise in the source.
- Missing operations. There is no icon removal and no background-colour setter.
- Initial rect. A new layer's rect is the empty `QRect()`, not "none". A rect with no area contains no point, so such a layer cannot be grabbed.

## Model

| member | source | states |
|---|---|---|
| `Geometry.DegenerateContainsNothing` | box.py:225 | a rect with zero or negative width or height, such as the default `QRect()` given to new layers, contains no point |
| `Geometry.TruncDiv` | box.py:118 | `int()` of a quotient: for a non-negative dividend the floor, with q·b ≤ a < (q+1)·b; for a negative one the same bounds on magnitudes, rounding toward zero |
| `Geometry.TexCoord` | box.py:116-118 | a pointer coordinate inside a viewport of positive extent maps into [0, 1024) (1024 on both axes); a non-negative one maps to the floor of p·1024/extent; one left of or above the viewport maps to at most 0 |
| `Geometry.DragAnchor` | box.py:132-133 | the new anchor leaves the pointer at the middle of the rect's extent within half a pixel (2·(t−a) ≤ extent ≤ 2·(t−a)+1), and inside [a, a+extent) when the extent is positive |
| `Geometry.DraggedRectHoldsPointer` | box.py:130-134 | a rect of positive size re-anchored at the pointer contains the pointer |
| `Hits.Topmost` | box.py:123-126 | scanning from last to first: the result is a containing rect with no containing rect above it; there is no result exactly when no rect contains the point |
| `Hits.HitAt` | box.py:121-126 | a text layer is selected exactly when some text rect contains the point, and it is the highest such one; an icon is selected exactly when no text rect and some icon rect contains it, and it is the highest such icon; otherwise nothing |
| `Hits.LaterTextWins` | box.py:123-124 | of two overlapping text layers, a press in the overlap selects the later one or one above it, never the earlier |
| `Hits.DegenerateNeverHit` | box.py:123-126 | a selected layer's rect always has positive width and height, so a layer still holding the default `QRect()` is never selected |
| `Hits.DraggedIconReselected` | box.py:120-134 | an icon dragged to a point and rebuilt at its new anchor with its own size is selected again by a press there, unless a text layer or a later icon covers the point |
| `Layers.BboxRect` | box.py:52-53 | a measured text layer's stored rect contains exactly the points of the half-open glyph box [left, right) × [top, bottom) |
| `Layers.TextLayer.Default` | box.py:225 | `add_t`'s layer: "EDIT ME" at (400, 400), size 80, opaque white, "arial.ttf", empty rect |
| `Layers.IconLayer.Default` | box.py:244 | `add_i`'s icon: the chosen path at (300, 300), target 150 × 150, empty rect |
| `Renderer.BoxRenderer.constructor` | box.py:14-26 | empty lists, nothing dragged, drag mode off, dirty flag set, camera (x 15, y −25, zoom −16), pointer (0, 0), no wrap image |
| `Renderer.BoxRenderer.HitTest` | box.py:122-126 | the two reverse scans with early return yield exactly the layer `HitAt` selects |
| `Renderer.BoxRenderer.MousePress` | box.py:120-127 | outside drag mode only the pointer is recorded; in drag mode, a hit grabs the selected layer and skips recording the pointer, and a miss keeps the previous dragged item and records the pointer; lists, flags and camera are untouched |
| `Renderer.BoxRenderer.MouseMove` | box.py:129-138 | in drag mode with an item held, that item's anchor becomes pointer − rect size // 2 in texture space, its other fields stay, and the dirty flag is set; no other layer changes; drag mode never rotates the camera; outside drag mode no layer moves, and a left-button move adds half the pointer delta to the rotations; the pointer is always recorded |
| `Renderer.BoxRenderer.UpdateMasterTexture` | box.py:38-68 | the lists, all anchors and every other field stay; each text layer with metrics gets its bbox rect and each loaded icon gets (x, y, w, h), while failures keep their old rects; the dirty flag ends clear |
| `Renderer.BoxRenderer.RebuildTextRects` | box.py:48-55 | the text-layer loop: every layer's rect is its measured box, or its old rect when the font fails; nothing else changes |
| `Renderer.BoxRenderer.RebuildIconRects` | box.py:56-62 | the icon loop: every loaded icon's rect is its anchor and target size; a failed icon keeps its rect; nothing else changes |
| `Renderer.BoxRenderer.PaintGL` | box.py:102-103 | a frame rebuilds exactly when the dirty flag is set and changes nothing otherwise; afterwards the flag is clear |
| `Window.MainWindow.constructor` | box.py:153-162 | a fresh renderer with empty lists and an empty panel list, so labels and layers agree |
| `Window.MainWindow.ToggleDrag` | box.py:204-206 | drag mode becomes (state == 2); checking it zeroes both rotations and keeps zoom; any other state keeps the rotations; layers and the dragged item stay |
| `Window.MainWindow.UpdText` | box.py:210-212 | with a row selected, that layer's text and its label become the input and the dirty flag is set, with the layer's other fields unchanged; with row −1 nothing changes |
| `Window.MainWindow.UpdStyle` | box.py:213-215 | with a row selected, only that layer's size changes, and the dirty flag is set; with row −1 nothing changes |
| `Window.MainWindow.UpdFont` | box.py:216-218 | with a row selected, only that layer's font changes, and the dirty flag is set; with row −1 nothing changes |
| `Window.MainWindow.SetTextColor` | box.py:219-223 | with a row selected and a colour picked, that layer's colour becomes the picked RGB with alpha 255, and the dirty flag is set; a cancelled dialog or row −1 changes nothing |
| `Window.MainWindow.AddText` | box.py:224-226 | one fresh default layer is appended on top, "EDIT ME" is appended to the panel list, earlier layers keep their places, and the dirty flag is set; the lists stay the same length |
| `Window.MainWindow.RemoveText` | box.py:227-229 | with a row selected, that index leaves both the layer list and the panel list, the dirty flag is set, and the dragged item is kept even if it was the removed layer; with row −1 nothing changes |
| `Window.MainWindow.SetWrap` | box.py:230-232 | a non-empty chosen path becomes the wrap image and sets the dirty flag; an empty one (cancelled) changes nothing |
| `Window.MainWindow.AddIcon` | box.py:242-244 | a non-empty chosen path appends one fresh default icon on top and sets the dirty flag; an empty one changes nothing |

## Left out

- OpenGL. `initializeGL` is left out, except that its call to the rebuild is the same `UpdateMasterTexture`. Also left out: the texture upload (box.py:63-67), all drawing in `paintGL`, `draw_bevel_box`, and `set_bg`, which does nothing but create a GL texture. These are foreign GPU calls on floating-point geometry.
- Pixels. The compositing itself is not modelled: the background fill, the wrap image (load, resize, paste), glyph drawing, icon `thumbnail` and paste, and the vertical flip. The layer rects and the dirty flag are the only state a rebuild changes. The library calls become the metrics and loader oracles. An icon's stored rect is its target size (box.py:61) whatever size the shrunk image actually has, and the model keeps that.
- Failures after the rect is written. A text layer whose glyphs fail to draw after its box was measured still gets the new rect (box.py:53-54). The oracle folds that case into "metrics succeeded".
- Floating point.
  - Pointer positions are integer pixels.
  - The mapping `int((p / w) * 1024)` is taken as exact rational arithmetic followed by truncation toward zero.
  - The orbit step `delta * 0.5` and the rotations are exact reals, so double rounding is not modelled.
  - Glyph boxes are integers, so the `int()` applied to them at box.py:53 is the identity in the model.
- Geometry.DegenerateContainsNothing: it follows the rule x ≤ px < x + w. Qt normalises rects of negative size before testing, and the model does not; only a glyph box whose right edge is left of its left edge could produce such a rect.
- Geometry.TexCoord: it requires a positive viewport extent. The source divides by the widget size and would raise on a zero-sized widget. The press and move handlers ask for this only when they compute texture coordinates.
- Qt plumbing. `self.update()` repaint requests, the 16 ms `QTimer` loop, widget construction and styling, and `select_l` are left out. `select_l` only copies a layer's text and size into the widgets; the `upd_text` and `upd_style` calls it sets off through signals are ordinary handler calls here, made between handlers with the current row as the row parameter.
- Window.MainWindow.RemoveText: `rem_t` is modelled as one atomic step. In the source, `text_layers.pop(i)` (box.py:229) runs before `takeItem(i)`, and Qt can move the current row while `takeItem` is still running. That fires `select_l` (box.py:207-209) and, through the widgets' change signals, `upd_text` and `upd_style` (box.py:210-215), with a row that may still count the removed item against the already shortened layer list. Those nested calls are not modelled, and neither are their outcomes: an `IndexError` in `select_l`, or a label copied onto the wrong layer so that labels and layers no longer agree.
- Update check. `check_for_updates` and `perform_update` (box.py:180-201) do network I/O and overwrite the program file.
- `box_color` is a constant in the source: no handler changes it and only pixels use it, so it is not part of the state.
