/** One draggable rectangle on the surface (CanvasItem.ts). */
module Items {
  import opened Wrappers
  import opened Geometry
  import opened Paint

  /** CanvasItemConfigType: the surface, the border width, the draw callback
      and, optionally, each of x, y, w, h. */
  datatype ItemConfig = ItemConfig(canvas: Surface, activeBorderWidth: real, renderItem: CallbackId,
                                   x: Option<real>, y: Option<real>, w: Option<real>, h: Option<real>)

  /** The geometry a new item starts with: the field initialisers (all 0),
      overwritten by each coordinate the config supplies. */
  function ConfiguredRect(c: ItemConfig): (r: Rect)
    ensures c.x.Some? ==> r.x == c.x.value
    ensures c.y.Some? ==> r.y == c.y.value
    ensures c.w.Some? ==> r.w == c.w.value
    ensures c.h.Some? ==> r.h == c.h.value
    ensures c.x.None? ==> r.x == 0.0
    ensures c.y.None? ==> r.y == 0.0
    ensures c.w.None? ==> r.w == 0.0
    ensures c.h.None? ==> r.h == 0.0
  {
    Rect(c.x.GetOr(0.0), c.y.GetOr(0.0), c.w.GetOr(0.0), c.h.GetOr(0.0))
  }

  /** One axis of `move`: translate by `delta`, lift a negative position to 0,
      then pull the rectangle back so that its far edge is not past `limit`.
      The second step wins, so a rectangle larger than the surface ends up at
      `limit - size`, which is negative. */
  function ClampAxis(pos: real, delta: real, size: real, limit: real): (r: real)
    ensures r + size <= limit
    ensures size <= limit ==> 0.0 <= r
    ensures size > limit ==> r == limit - size
    ensures 0.0 <= pos + delta && pos + delta + size <= limit ==> r == pos + delta
    ensures size <= limit && pos + delta < 0.0 ==> r == 0.0
    ensures 0.0 <= pos + delta && pos + delta + size > limit ==> r == limit - size
    ensures r == pos + delta || r == 0.0 || r == limit - size
  {
    var moved := pos + delta;
    var lifted := if moved < 0.0 then 0.0 else moved;
    if lifted + size > limit then limit - size else lifted
  }

  /** Rescaling after a resize from (fromW, fromH) to (toW, toH): x and w scale by
      toW / fromW, y and h by toH / fromH, so every coordinate keeps its share
      of the surface. */
  function Rescale(r: Rect, fromW: real, fromH: real, toW: real, toH: real): (s: Rect)
    requires fromW > 0.0 && fromH > 0.0
    ensures toW > 0.0 ==> s.x / toW == r.x / fromW && s.w / toW == r.w / fromW
    ensures toH > 0.0 ==> s.y / toH == r.y / fromH && s.h / toH == r.h / fromH
  {
    var xMultiplier := toW / fromW;
    var yMultiplier := toH / fromH;
    Rect(r.x * xMultiplier, r.y * yMultiplier, r.w * xMultiplier, r.h * yMultiplier)
  }

  /** A second rescale with no resize in between changes nothing. */
  lemma RescaleSameSize(r: Rect, width: real, height: real)
    requires width > 0.0 && height > 0.0
    ensures Rescale(r, width, height, width, height) == r
  {
    assert width / width == 1.0;
    assert height / height == 1.0;
  }

  /** Two rescales in a row are one rescale from the first size to the last. */
  lemma RescaleCompose(r: Rect, w0: real, h0: real, w1: real, h1: real, w2: real, h2: real)
    requires w0 > 0.0 && h0 > 0.0 && w1 > 0.0 && h1 > 0.0
    ensures Rescale(Rescale(r, w0, h0, w1, h1), w1, h1, w2, h2) == Rescale(r, w0, h0, w2, h2)
  {
    assert (w1 / w0) * (w2 / w1) == w2 / w0;
    assert (h1 / h0) * (h2 / h1) == h2 / h0;
    ScaleTwice(r.x, w1 / w0, w2 / w1);
    ScaleTwice(r.w, w1 / w0, w2 / w1);
    ScaleTwice(r.y, h1 / h0, h2 / h1);
    ScaleTwice(r.h, h1 / h0, h2 / h1);
  }

  lemma ScaleTwice(v: real, a: real, b: real)
    ensures v * a * b == v * (a * b)
  {
  }

  /** A rectangle inside the old surface is inside the new one after
      rescaling. */
  lemma RescaleKeepsInside(r: Rect, fromW: real, fromH: real, toW: real, toH: real)
    requires fromW > 0.0 && fromH > 0.0 && toW > 0.0 && toH > 0.0
    requires Inside(r, fromW, fromH)
    ensures Inside(Rescale(r, fromW, fromH, toW, toH), toW, toH)
  {
    var s := Rescale(r, fromW, fromH, toW, toH);
    ScaleBounds(r.x, r.w, fromW, toW / fromW);
    ScaleBounds(r.y, r.h, fromH, toH / fromH);
    assert fromW * (toW / fromW) == toW;
    assert fromH * (toH / fromH) == toH;
  }

  lemma ScaleBounds(pos: real, size: real, limit: real, m: real)
    requires 0.0 <= pos && pos + size <= limit && m > 0.0
    ensures 0.0 <= pos * m && pos * m + size * m <= limit * m
  {
    assert pos * m + size * m == (pos + size) * m;
  }

  /** What painting an item depends on. */
  datatype ItemView = ItemView(isActive: bool, border: real, renderItem: CallbackId, bounds: Rect)

  /** render: when active, a border rectangle reaching `border` beyond every
      edge, painted before the draw callback, which always comes last and
      receives the item's current geometry. */
  function ItemPaint(isActive: bool, border: real, renderItem: CallbackId, r: Rect): (cmds: seq<PaintCommand>)
    ensures |cmds| == (if isActive then 2 else 1)
    ensures cmds[|cmds| - 1] == Callback(renderItem, r.x, r.y, r.w, r.h)
    ensures isActive ==> (cmds[0].Fill? &&
                          cmds[0].area.x + border == r.x && cmds[0].area.y + border == r.y &&
                          cmds[0].area.x + cmds[0].area.w - border == r.x + r.w &&
                          cmds[0].area.y + cmds[0].area.h - border == r.y + r.h)
    ensures isActive && border >= 0.0 ==> Encloses(cmds[0].area, r)
  {
    var callback := Callback(renderItem, r.x, r.y, r.w, r.h);
    if isActive then
      [Fill(Rect(r.x - border, r.y - border, r.w + border * 2.0, r.h + border * 2.0)), callback]
    else
      [callback]
  }

  class CanvasItem {
    const canvas: Surface
    const activeBorderWidth: real
    const renderItem: CallbackId
    /** The surface size the geometry was last computed for. */
    var canvasWidth: real
    var canvasHeight: real
    var isActive: bool
    var x: real
    var y: real
    var w: real
    var h: real

    function Bounds(): Rect
      reads this
    {
      Rect(x, y, w, h)
    }

    function View(): ItemView
      reads this
    {
      ItemView(isActive, activeBorderWidth, renderItem, Bounds())
    }

    /** What `render` paints for the item's current state. */
    function Commands(): seq<PaintCommand>
      reads this
    {
      ItemPaint(isActive, activeBorderWidth, renderItem, Bounds())
    }

    /** The constructor: zero geometry, overridden by the config's properties
        (`Object.assign`), and the reference size taken from the surface.
        `isActive` starts undefined in the source, which reads as false. */
    constructor (config: ItemConfig)
      ensures canvas == config.canvas && activeBorderWidth == config.activeBorderWidth
      ensures renderItem == config.renderItem
      ensures Bounds() == ConfiguredRect(config)
      ensures canvasWidth == config.canvas.width && canvasHeight == config.canvas.height
      ensures !isActive
    {
      var x0, y0, w0, h0 := 0.0, 0.0, 0.0, 0.0;
      if config.x.Some? { x0 := config.x.value; }
      if config.y.Some? { y0 := config.y.value; }
      if config.w.Some? { w0 := config.w.value; }
      if config.h.Some? { h0 := config.h.value; }
      x, y, w, h := x0, y0, w0, h0;
      canvas := config.canvas;
      activeBorderWidth := config.activeBorderWidth;
      renderItem := config.renderItem;
      isActive := false;
      canvasWidth := config.canvas.width;
      canvasHeight := config.canvas.height;
    }

    /** recalculatePositionAndSize: rescale from the reference size to the
        surface's current size, which becomes the new reference size. */
    method RecalculatePositionAndSize()
      requires canvasWidth > 0.0 && canvasHeight > 0.0
      modifies this`x, this`y, this`w, this`h, this`canvasWidth, this`canvasHeight
      ensures Bounds() == Rescale(old(Bounds()), old(canvasWidth), old(canvasHeight), canvas.width, canvas.height)
      ensures canvasWidth == canvas.width && canvasHeight == canvas.height
    {
      var xMultiplier := canvas.width / canvasWidth;
      x := x * xMultiplier;
      w := w * xMultiplier;

      var yMultiplier := canvas.height / canvasHeight;
      y := y * yMultiplier;
      h := h * yMultiplier;

      canvasWidth := canvas.width;
      canvasHeight := canvas.height;
    }

    /** existsAt: boundary-inclusive hit test. */
    function ExistsAt(userX: real, userY: real): (b: bool)
      reads this
      ensures b <==> Contains(Bounds(), userX, userY)
    {
      x <= userX && y <= userY && x + w >= userX && y + h >= userY
    }

    method SetIsActive(active: bool)
      modifies this`isActive
      ensures isActive == active
    {
      isActive := active;
    }

    /** move: translate, then clamp each axis to the surface; the size never
        changes and the far edges always end up inside. */
    method Move(deltaX: real, deltaY: real)
      modifies this`x, this`y
      ensures x == ClampAxis(old(x), deltaX, w, canvas.width)
      ensures y == ClampAxis(old(y), deltaY, h, canvas.height)
      ensures x + w <= canvas.width && y + h <= canvas.height
      ensures w <= canvas.width ==> 0.0 <= x
      ensures h <= canvas.height ==> 0.0 <= y
    {
      x := x + deltaX;
      if x < 0.0 { x := 0.0; }
      if x + w > canvas.width {
        x := canvas.width - w;
      }

      y := y + deltaY;
      if y < 0.0 { y := 0.0; }
      if y + h > canvas.height {
        y := canvas.height - h;
      }
    }

    /** render: the optional border, then the draw callback, appended to the
        surface's paint log. */
    method Render()
      modifies canvas`log
      ensures canvas.log == old(canvas.log) + Commands()
    {
      if isActive {
        var deltaPx := activeBorderWidth;
        canvas.log := canvas.log + [Fill(Rect(x - deltaPx, y - deltaPx, w + deltaPx * 2.0, h + deltaPx * 2.0))];
      }
      canvas.log := canvas.log + [Callback(renderItem, x, y, w, h)];
    }
  }

  /** While the pointer drags an item whose translated rectangle stays inside
      the surface, the point that was grabbed stays under the pointer. */
  lemma GrabbedPointFollows(r: Rect, px: real, py: real, dx: real, dy: real, width: real, height: real)
    requires Contains(r, px, py)
    requires Inside(Translate(r, dx, dy), width, height)
    ensures Contains(Rect(ClampAxis(r.x, dx, r.w, width), ClampAxis(r.y, dy, r.h, height), r.w, r.h), px + dx, py + dy)
  {
  }
}
