/** The drawing surface: the canvas element's pixel size together with its 2D
    context, whose drawing calls are recorded as an append-only log. */
module Paint {
  import opened Geometry

  /** Identifies the draw callback an item was created with. */
  type CallbackId = nat

  datatype PaintCommand =
    | Clear(width: real, height: real)    // clearRect(0, 0, width, height)
    | Fill(area: Rect)                    // fillRect with the active-border colour
    | Callback(id: CallbackId, x: real, y: real, w: real, h: real)   // the item's draw callback

  class Surface {
    var width: real
    var height: real
    var log: seq<PaintCommand>

    constructor (width: real, height: real)
      ensures this.width == width && this.height == height && log == []
    {
      this.width := width;
      this.height := height;
      log := [];
    }
  }

  /** The callback commands of a paint log, in the order they were issued. */
  function Callbacks(cmds: seq<PaintCommand>): (r: seq<PaintCommand>)
    ensures forall k :: 0 <= k < |r| ==> r[k].Callback?
    ensures |r| <= |cmds|
  {
    if cmds == [] then []
    else (if cmds[0].Callback? then [cmds[0]] else []) + Callbacks(cmds[1..])
  }

  lemma {:induction false} CallbacksAppend(a: seq<PaintCommand>, b: seq<PaintCommand>)
    ensures Callbacks(a + b) == Callbacks(a) + Callbacks(b)
  {
    if a == [] {
      assert a + b == b;
    } else {
      assert (a + b)[1..] == a[1..] + b;
      CallbacksAppend(a[1..], b);
    }
  }
}
