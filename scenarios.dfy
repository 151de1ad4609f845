/** Worked examples of the controller's specification functions. */
module Scenarios {
  import opened Geometry
  import opened Paint
  import opened Items
  import opened Controller

  /** Three overlapping items A, B, C, added in that order. */
  const A := ItemView(false, 1.0, 1, Rect(0.0, 0.0, 40.0, 40.0))
  const B := ItemView(false, 1.0, 2, Rect(20.0, 20.0, 40.0, 40.0))
  const C := ItemView(false, 1.0, 3, Rect(30.0, 30.0, 40.0, 40.0))

  /** A pointer-down at (5, 5), which only A covers, hits A, and promotion
      moves A to the top while B and C keep their order. At (35, 35), where
      all three overlap, the topmost item is picked: C before the promotion,
      A after it. */
  lemma ZOrderHitExample()
    ensures TopmostHit([A, B, C], 5.0, 5.0) == 0
    ensures Promote([A, B, C], 0) == [B, C, A]
    ensures TopmostHit([A, B, C], 35.0, 35.0) == 2 && TopmostHit([B, C, A], 35.0, 35.0) == 2
  {
    assert [A, B, C][..2] == [A, B] && [A, B][..1] == [A];
    assert TopmostHit([A], 5.0, 5.0) == 0;
    assert TopmostHit([A, B], 5.0, 5.0) == 0;
  }

  /** The redraw after that pointer-down paints B, C, then the active A on
      top. */
  lemma ZOrderPaintExample()
    ensures Callbacks(PaintViews([B, C, A.(isActive := true)])) ==
            [Callback(2, 20.0, 20.0, 40.0, 40.0), Callback(3, 30.0, 30.0, 40.0, 40.0),
             Callback(1, 0.0, 0.0, 40.0, 40.0)]
  {
    PaintOrder([B, C, A.(isActive := true)]);
  }

  /** A 50x50 item at (10, 10) on a 200x200 surface, dragged by (20, 10),
      lands at (30, 20); dragged by (-30, 0) it stops at the left edge; and a
      300-wide item on the same surface is pushed to x = -100, past the left
      edge, because the far-edge correction comes last. */
  lemma DragExample()
    ensures ClampAxis(10.0, 20.0, 50.0, 200.0) == 30.0 && ClampAxis(10.0, 10.0, 50.0, 200.0) == 20.0
    ensures ClampAxis(10.0, -30.0, 50.0, 200.0) == 0.0
    ensures ClampAxis(0.0, 5.0, 300.0, 200.0) == -100.0
  {
  }
}
