// Clients of the panel and the view: what a caller can conclude from the
// contracts alone about short editing sessions.

module Scenarios {
  import opened Wrappers
  import opened Geometry
  import opened Hits
  import opened Layers
  import opened Renderer
  import opened Window

  /** Every string measures 200 by 80 from its origin. */
  function BlockMetrics(text: string, font: string, size: int, x: int, y: int): Option<Bbox> {
    Some(Bbox(x, y, x + 200, y + 80))
  }

  // In a 1024 × 1024 viewport pixels map one to one.
  lemma SquareViewport(p: int)
    requires 0 <= p < 1024
    ensures TexCoord(p, 1024) == p
  {
  }

  /**
   * Two default text layers overlap exactly; after a rebuild, a drag-mode
   * press inside them grabs the second one.
   */
  method PressOnOverlap() {
    var w := new MainWindow();
    w.ToggleDrag(Checked);
    w.AddText();
    w.AddText();
    var first, second := w.renderer.texts[0], w.renderer.texts[1];
    w.renderer.PaintGL(BlockMetrics, path => true);
    var r := Rect(400, 400, 200, 80);
    assert first.rect == r && second.rect == r;

    SquareViewport(500);
    SquareViewport(440);
    assert TextRects(w.renderer.texts) == [r, r] && IconRects(w.renderer.icons) == [];
    LaterTextWins([r, r], [], 0, 1, 500, 440);
    w.renderer.MousePress(500, 440, 1024, 1024);
    assert w.renderer.dragging == HeldText(second);
  }

  /**
   * A grabbed text layer removed from the panel stays grabbed, and the next
   * move still re-anchors it around the pointer and marks the texture dirty.
   */
  method RemoveWhileHeld() {
    var w := new MainWindow();
    w.ToggleDrag(Checked);
    w.AddText();
    var t := w.renderer.texts[0];
    w.renderer.PaintGL(BlockMetrics, path => true);
    assert t.rect == Rect(400, 400, 200, 80);
    SquareViewport(500);
    SquareViewport(440);
    w.renderer.MousePress(500, 440, 1024, 1024);
    assert w.renderer.dragging == HeldText(t);
    assert w.Valid();

    w.RemoveText(0);
    assert w.renderer.texts == [] && w.renderer.dragging == HeldText(t);

    SquareViewport(600);
    w.renderer.MouseMove(600, 600, 1024, 1024, true);
    assert t.x == 500 && t.y == 560 && w.renderer.needsTextureUpdate;
  }
}
