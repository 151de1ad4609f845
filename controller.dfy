/** The controller that owns the item list, the drag state and redraws
    (index.ts). */
module Controller {
  import opened Wrappers
  import opened Geometry
  import opened Paint
  import opened Configs
  import opened Items

  /** Caller bookkeeping stored beside each item; it never affects painting.
      The source also keeps the call's argument list, opaque here. */
  datatype Meta = Meta(name: string)

  /** One element of `items`: `{ meta, item }`. */
  datatype Entry = Entry(meta: Meta, item: CanvasItem)

  /** The parts of a mouse event the controller reads: viewport coordinates
      (used for drag deltas) and target-relative coordinates (used for the
      hit test). */
  datatype PointerEvent = PointerEvent(clientX: real, clientY: real, offsetX: real, offsetY: real)

  /** A loaded image: the callback that draws it, and its intrinsic size. */
  datatype Image = Image(id: CallbackId, naturalWidth: real, naturalHeight: real)

  /** No item object occurs twice in the list. */
  ghost predicate Distinct(es: seq<Entry>)
  {
    forall a, b :: 0 <= a < b < |es| ==> es[a].item != es[b].item
  }

  /** The item objects a list holds. */
  ghost function ItemObjects(es: seq<Entry>): set<CanvasItem>
  {
    set k | 0 <= k < |es| :: es[k].item
  }

  lemma ItemObjectsPush(es: seq<Entry>, e: Entry)
    ensures ItemObjects(es + [e]) == ItemObjects(es) + {e.item}
  {
    var r := es + [e];
    assert r[|es|] == e;
    forall o | o in ItemObjects(es) ensures o in ItemObjects(r) {
      var k :| 0 <= k < |es| && es[k].item == o;
      assert r[k] == es[k];
    }
  }

  /** A full paint of the items: each item's render, first to last. */
  function PaintViews(vs: seq<ItemView>): seq<PaintCommand>
  {
    if vs == [] then []
    else ItemPaint(vs[0].isActive, vs[0].border, vs[0].renderItem, vs[0].bounds) + PaintViews(vs[1..])
  }

  lemma {:induction false} PaintViewsAppend(a: seq<ItemView>, b: seq<ItemView>)
    ensures PaintViews(a + b) == PaintViews(a) + PaintViews(b)
  {
    if a == [] {
      assert a + b == b;
    } else {
      assert (a + b)[0] == a[0] && (a + b)[1..] == a[1..] + b;
      PaintViewsAppend(a[1..], b);
    }
  }

  lemma PaintViewsSnoc(vs: seq<ItemView>, i: nat)
    requires i < |vs|
    ensures PaintViews(vs[..i + 1]) ==
            PaintViews(vs[..i]) + ItemPaint(vs[i].isActive, vs[i].border, vs[i].renderItem, vs[i].bounds)
  {
    assert vs[..i + 1] == vs[..i] + [vs[i]];
    PaintViewsAppend(vs[..i], [vs[i]]);
  }

  /** The index of the last item containing the point, or -1: the topmost
      item under the pointer. */
  function TopmostHit(vs: seq<ItemView>, px: real, py: real): (r: int)
    ensures -1 <= r < |vs|
    ensures r >= 0 ==> Contains(vs[r].bounds, px, py)
    ensures forall j :: r < j < |vs| ==> !Contains(vs[j].bounds, px, py)
  {
    if vs == [] then -1
    else if Contains(vs[|vs| - 1].bounds, px, py) then |vs| - 1
    else TopmostHit(vs[..|vs| - 1], px, py)
  }

  /** z-order promotion: the element at `i` is taken out (`splice(i, 1)`) and
      put at the end (`push`); the result is a permutation in which the other
      elements keep their order. */
  function Promote<T>(s: seq<T>, i: nat): (r: seq<T>)
    requires i < |s|
    ensures |r| == |s| && r[|r| - 1] == s[i]
    ensures multiset(r) == multiset(s)
    ensures forall k :: 0 <= k < i ==> r[k] == s[k]
    ensures forall k :: i <= k < |s| - 1 ==> r[k] == s[k + 1]
  {
    assert s == s[..i] + [s[i]] + s[i + 1..];
    s[..i] + s[i + 1..] + [s[i]]
  }

  lemma PromoteKeepsObjects(es: seq<Entry>, i: nat)
    requires i < |es|
    ensures ItemObjects(Promote(es, i)) == ItemObjects(es)
  {
    var r := Promote(es, i);
    forall o | o in ItemObjects(r) ensures o in ItemObjects(es) {
      var k :| 0 <= k < |r| && r[k].item == o;
      var k' := if k == |r| - 1 then i else if k < i then k else k + 1;
      assert r[k] == es[k'];
    }
    forall o | o in ItemObjects(es) ensures o in ItemObjects(r) {
      var k :| 0 <= k < |es| && es[k].item == o;
      var k' := if k == i then |r| - 1 else if k < i then k else k - 1;
      assert r[k'] == es[k];
    }
  }

  lemma PromoteKeepsDistinct(es: seq<Entry>, i: nat)
    requires i < |es| && Distinct(es)
    ensures Distinct(Promote(es, i))
  {
    var r := Promote(es, i);
    forall a, b | 0 <= a < b < |r| ensures r[a].item != r[b].item {
      var a' := if a < i then a else a + 1;
      var b' := if b == |r| - 1 then i else if b < i then b else b + 1;
      assert r[a] == es[a'] && r[b] == es[b'] && a' != b';
    }
  }

  /** drawImage sizing. Explicit non-zero `w` and `h` are kept as they are;
      otherwise the image is scaled by the largest factor that fits it in the
      surface, times `sizeRatio`. The fitted size keeps the image's aspect
      ratio, stays within the surface scaled by `sizeRatio`, and reaches it on
      one axis. */
  function DrawImageSize(baseW: real, baseH: real, sizeRatio: real,
                         canvasWidth: real, canvasHeight: real,
                         imgWidth: real, imgHeight: real): (size: (real, real))
    requires baseW == 0.0 || baseH == 0.0 ==> imgWidth > 0.0 && imgHeight > 0.0
    ensures baseW != 0.0 && baseH != 0.0 ==> size == (baseW, baseH)
    ensures baseW == 0.0 || baseH == 0.0 ==>
              size.0 * imgHeight == size.1 * imgWidth &&
              (0.0 <= sizeRatio ==> size.0 <= canvasWidth * sizeRatio && size.1 <= canvasHeight * sizeRatio) &&
              (size.0 == canvasWidth * sizeRatio || size.1 == canvasHeight * sizeRatio)
  {
    if baseW != 0.0 && baseH != 0.0 then (baseW, baseH)
    else
      var wRatio := canvasWidth / imgWidth;
      var hRatio := canvasHeight / imgHeight;
      var multiplier := if wRatio <= hRatio then wRatio else hRatio;   // Math.min
      FitProperties(canvasWidth, canvasHeight, imgWidth, imgHeight, multiplier, sizeRatio);
      (imgWidth * multiplier * sizeRatio, imgHeight * multiplier * sizeRatio)
  }

  lemma FitProperties(canvasWidth: real, canvasHeight: real, imgWidth: real, imgHeight: real,
                      multiplier: real, sizeRatio: real)
    requires imgWidth > 0.0 && imgHeight > 0.0
    requires multiplier == if canvasWidth / imgWidth <= canvasHeight / imgHeight
                           then canvasWidth / imgWidth else canvasHeight / imgHeight
    ensures (imgWidth * multiplier * sizeRatio) * imgHeight == (imgHeight * multiplier * sizeRatio) * imgWidth
    ensures 0.0 <= sizeRatio ==> imgWidth * multiplier * sizeRatio <= canvasWidth * sizeRatio &&
                                 imgHeight * multiplier * sizeRatio <= canvasHeight * sizeRatio
    ensures imgWidth * multiplier * sizeRatio == canvasWidth * sizeRatio ||
            imgHeight * multiplier * sizeRatio == canvasHeight * sizeRatio
  {
    var wr, hr := canvasWidth / imgWidth, canvasHeight / imgHeight;
    assert imgWidth * wr == canvasWidth;
    assert imgHeight * hr == canvasHeight;
    assert imgWidth * multiplier <= canvasWidth by {
      MulMonotone(imgWidth, multiplier, wr);
    }
    assert imgHeight * multiplier <= canvasHeight by {
      MulMonotone(imgHeight, multiplier, hr);
    }
    if 0.0 <= sizeRatio {
      MulMonotone(sizeRatio, imgWidth * multiplier, canvasWidth);
      MulMonotone(sizeRatio, imgHeight * multiplier, canvasHeight);
    }
  }

  lemma MulMonotone(k: real, a: real, b: real)
    requires 0.0 <= k && a <= b
    ensures k * a <= k * b && a * k <= b * k
  {
  }

  /** The worked examples: a 400x400 image on a 1000x500 surface gets 500x500,
      and 250x250 with sizeRatio 0.5. */
  lemma DrawImageSizeExamples()
    ensures DrawImageSize(0.0, 0.0, 1.0, 1000.0, 500.0, 400.0, 400.0) == (500.0, 500.0)
    ensures DrawImageSize(0.0, 0.0, 0.5, 1000.0, 500.0, 400.0, 400.0) == (250.0, 250.0)
  {
  }

  /** The config addCanvasItem builds AS WRITTEN: it passes `{ rect }`, but the
      item reads flat `x, y, w, h`, so no geometry reaches the item. */
  function ItemRequestConfigAsWritten(canvas: Surface, activeBorderWidth: real, renderItem: CallbackId,
                                      rect: Option<Rect>): (c: ItemConfig)
    ensures c.canvas == canvas && c.activeBorderWidth == activeBorderWidth && c.renderItem == renderItem
    ensures ConfiguredRect(c) == Rect(0.0, 0.0, 0.0, 0.0)
  {
    ItemConfig(canvas, activeBorderWidth, renderItem, None, None, None, None)
  }

  /** As written, the rectangle drawImage computes for a 400x400 image on a
      1000x500 surface (500x500) is lost: the item is created with size 0. */
  lemma AsWrittenLosesRect(canvas: Surface)
    ensures var rect := Rect(0.0, 0.0, 500.0, 500.0);
            ConfiguredRect(ItemRequestConfigAsWritten(canvas, 2.0, 0, Some(rect))) != rect
  {
  }

  /** The config addCanvasItem evidently intends: the rectangle's fields spread
      into the flat properties the item reads; no rectangle leaves the item at
      the origin with size 0. */
  function ItemRequestConfig(canvas: Surface, activeBorderWidth: real, renderItem: CallbackId,
                             rect: Option<Rect>): (c: ItemConfig)
    ensures c.canvas == canvas && c.activeBorderWidth == activeBorderWidth && c.renderItem == renderItem
    ensures ConfiguredRect(c) == rect.GetOr(Rect(0.0, 0.0, 0.0, 0.0))
  {
    match rect
    case None => ItemConfig(canvas, activeBorderWidth, renderItem, None, None, None, None)
    case Some(r) => ItemConfig(canvas, activeBorderWidth, renderItem, Some(r.x), Some(r.y), Some(r.w), Some(r.h))
  }

  /** Each item's draw callback appears exactly once in a full paint, with the
      item's geometry, in list order: the last item is painted on top. */
  lemma {:induction false} PaintOrder(vs: seq<ItemView>)
    ensures |Callbacks(PaintViews(vs))| == |vs|
    ensures forall k :: 0 <= k < |vs| ==>
              Callbacks(PaintViews(vs))[k] ==
              Callback(vs[k].renderItem, vs[k].bounds.x, vs[k].bounds.y, vs[k].bounds.w, vs[k].bounds.h)
  {
    if vs != [] {
      var v := vs[0];
      PaintOrder(vs[1..]);
      CallbacksAppend(ItemPaint(v.isActive, v.border, v.renderItem, v.bounds), PaintViews(vs[1..]));
      ItemPaintCallbacks(v);
    }
  }

  lemma ItemPaintCallbacks(v: ItemView)
    ensures Callbacks(ItemPaint(v.isActive, v.border, v.renderItem, v.bounds)) ==
            [Callback(v.renderItem, v.bounds.x, v.bounds.y, v.bounds.w, v.bounds.h)]
  {
    var cmds := ItemPaint(v.isActive, v.border, v.renderItem, v.bounds);
    if v.isActive {
      assert cmds == [cmds[0]] + [cmds[1]];
      CallbacksAppend([cmds[0]], [cmds[1]]);
    }
  }

  class CanvasController {
    const canvas: Surface
    const activeItemBorderWidth: real
    /** Back-to-front paint order; the last item is the topmost. */
    var items: seq<Entry>
    /** The drag anchor: set exactly while a drag is in progress, which is
        also exactly when the pointer-move listener is registered. */
    var lastMouseEvent: Option<PointerEvent>

    /** The footprint: every item object the controller holds. Valid() only
        asks that each listed item be in it; that it holds nothing else,
        Repr == ItemObjects(items), follows from the contracts: the
        constructor starts both empty, AddCanvasItem and DrawImage add the
        new item to both, Select, Pick and OnMouseDown keep ItemObjects(items)
        and do not modify Repr, and no other method modifies either. */
    ghost var Repr: set<CanvasItem>

    ghost predicate InRepr()
      reads this
    {
      forall k :: 0 <= k < |items| ==> items[k].item in Repr
    }

    /** The item list is consistent with the surface: distinct items, all on
        this surface, each with the surface's current size as its reference
        size. */
    ghost predicate Consistent()
      reads this, canvas`width, canvas`height, Repr
    {
      InRepr() && Distinct(items) &&
      forall k :: 0 <= k < |items| ==>
        items[k].item.canvas == canvas &&
        items[k].item.canvasWidth == canvas.width && items[k].item.canvasHeight == canvas.height &&
        canvas.width > 0.0 && canvas.height > 0.0
    }

    ghost predicate Valid()
      reads this, canvas`width, canvas`height, Repr
    {
      canvas.width > 0.0 && canvas.height > 0.0 && Consistent() &&
      (lastMouseEvent.Some? ==> |items| > 0)
    }

    ghost predicate NoneActive()
      requires InRepr()
      reads this, Repr
    {
      forall k :: 0 <= k < |items| ==> !items[k].item.isActive
    }

    ghost predicate OnlyLastMayBeActive()
      requires InRepr()
      reads this, Repr
    {
      forall k :: 0 <= k < |items| - 1 ==> !items[k].item.isActive
    }

    /** No item is active while idle; only the dragged (last) one may be
        active during a drag. */
    ghost predicate DragConsistent()
      requires InRepr()
      reads this, Repr
    {
      (lastMouseEvent.None? ==> NoneActive()) && (lastMouseEvent.Some? ==> OnlyLastMayBeActive())
    }

    /** The current state of every item, in list order. */
    function Views(): (vs: seq<ItemView>)
      requires InRepr()
      reads this, Repr
      ensures |vs| == |items|
      ensures forall k :: 0 <= k < |items| ==> vs[k] == items[k].item.View()
    {
      seq(|items|, k requires 0 <= k < |items| && items[k].item in Repr reads this, Repr => items[k].item.View())
    }

    /** What a full redraw paints. */
    function Frame(): seq<PaintCommand>
      requires InRepr()
      reads this, canvas`width, canvas`height, Repr
    {
      [Clear(canvas.width, canvas.height)] + PaintViews(Views())
    }

    /** The hit test's answer for an event, given the surface's client-rect
        offset. */
    function HitIndex(event: PointerEvent, clientLeft: real, clientTop: real): int
      requires InRepr()
      reads this, Repr
    {
      TopmostHit(Views(), event.offsetX - clientLeft, event.offsetY - clientTop)
    }

    /** The constructor: the border width defaults to 2, then `_init` sizes the
        surface to its client box. Event wiring is not part of the model. */
    constructor (canvas: Surface, activeItemBorderWidth: Option<real>, clientWidth: real, clientHeight: real)
      requires clientWidth > 0.0 && clientHeight > 0.0
      modifies canvas
      ensures Valid() && DragConsistent()
      ensures this.canvas == canvas && this.activeItemBorderWidth == activeItemBorderWidth.GetOr(2.0)
      ensures items == [] && Repr == {} && lastMouseEvent.None?
      ensures canvas.width == clientWidth && canvas.height == clientHeight && canvas.log == old(canvas.log)
    {
      this.canvas := canvas;
      this.activeItemBorderWidth := activeItemBorderWidth.GetOr(2.0);
      items := [];
      lastMouseEvent := None;
      Repr := {};
      new;
      Init(clientWidth, clientHeight);
    }

    /** activeItem: the last item, if there is one. */
    function ActiveItem(): (a: Option<CanvasItem>)
      reads this
      ensures a.Some? <==> |items| > 0
      ensures a.Some? ==> a.value == items[|items| - 1].item
    {
      if |items| == 0 then None else Some(items[|items| - 1].item)
    }

    /** _init: size the surface to its client box, then rescale every item
        from the old surface size to the new one. The source calls
        `recalculateRect`, which the item does not define; the model calls
        recalculatePositionAndSize, the method that evidently is meant. */
    method Init(clientWidth: real, clientHeight: real)
      requires clientWidth > 0.0 && clientHeight > 0.0
      requires Consistent()
      modifies canvas`width, canvas`height
      modifies Repr`x, Repr`y, Repr`w, Repr`h
      modifies Repr`canvasWidth, Repr`canvasHeight
      ensures Consistent()
      ensures canvas.width == clientWidth && canvas.height == clientHeight
      ensures forall k :: 0 <= k < |items| ==>
                items[k].item.Bounds() ==
                Rescale(old(items[k].item.Bounds()), old(canvas.width), old(canvas.height), clientWidth, clientHeight)
    {
      ghost var oldWidth, oldHeight := canvas.width, canvas.height;
      canvas.width := clientWidth;
      canvas.height := clientHeight;
      for i := 0 to |items|
        invariant canvas.width == clientWidth && canvas.height == clientHeight
        invariant forall k :: 0 <= k < i ==>
                    items[k].item.canvasWidth == clientWidth && items[k].item.canvasHeight == clientHeight &&
                    items[k].item.Bounds() ==
                    Rescale(old(items[k].item.Bounds()), oldWidth, oldHeight, clientWidth, clientHeight)
        invariant forall k :: i <= k < |items| ==>
                    items[k].item.canvasWidth == oldWidth && items[k].item.canvasHeight == oldHeight &&
                    items[k].item.Bounds() == old(items[k].item.Bounds())
      {
        items[i].item.RecalculatePositionAndSize();
      }
    }

    /** _clear: wipe the whole surface. */
    method ClearSurface()
      modifies canvas`log
      ensures canvas.log == old(canvas.log) + [Clear(canvas.width, canvas.height)]
    {
      canvas.log := canvas.log + [Clear(canvas.width, canvas.height)];
    }

    /** _render: clear, then render every item in list order. */
    method Render()
      requires Valid()
      modifies canvas`log
      ensures Valid() && unchanged(this, Repr, canvas`width, canvas`height)
      ensures canvas.log == old(canvas.log) + Frame()
    {
      ClearSurface();
      RenderItems();
    }

    /** The loop of _render: every item paints itself, first to last. */
    method RenderItems()
      requires Consistent()
      modifies canvas`log
      ensures unchanged(this, Repr, canvas`width, canvas`height)
      ensures canvas.log == old(canvas.log) + PaintViews(Views())
    {
      ghost var views := Views();
      for i := 0 to |items|
        invariant unchanged(this, Repr, canvas`width, canvas`height)
        invariant Views() == views
        invariant canvas.log == old(canvas.log) + PaintViews(views[..i])
      {
        PaintViewsSnoc(views, i);
        items[i].item.Render();
      }
      assert views[..|items|] == views;
    }

    /** The window-resize handler, without its debounce: re-init, then redraw. */
    method OnResize(clientWidth: real, clientHeight: real)
      requires Valid() && clientWidth > 0.0 && clientHeight > 0.0
      modifies canvas`width, canvas`height, canvas`log
      modifies Repr`x, Repr`y, Repr`w, Repr`h
      modifies Repr`canvasWidth, Repr`canvasHeight
      ensures Valid()
      ensures canvas.width == clientWidth && canvas.height == clientHeight
      ensures forall k :: 0 <= k < |items| ==>
                items[k].item.Bounds() ==
                Rescale(old(items[k].item.Bounds()), old(canvas.width), old(canvas.height), clientWidth, clientHeight)
      ensures canvas.log == old(canvas.log) + Frame()
    {
      Init(clientWidth, clientHeight);
      Render();
    }

    /** getMousedownItemIndex: scan from the last item down; the first item
        containing the layer point wins. */
    method GetMousedownItemIndex(event: PointerEvent, clientLeft: real, clientTop: real) returns (index: int)
      requires Valid()
      ensures index == HitIndex(event, clientLeft, clientTop)
    {
      var layerX := event.offsetX - clientLeft;
      var layerY := event.offsetY - clientTop;
      var i := |items|;
      while i > 0
        invariant 0 <= i <= |items|
        invariant forall j :: i <= j < |items| ==> !items[j].item.ExistsAt(layerX, layerY)
      {
        i := i - 1;
        if items[i].item.ExistsAt(layerX, layerY) {
          return i;
        }
      }
      return -1;
    }

    /** onMouseDown: on a hit, promote the item to the top, record the anchor
        and mark the item active; redraw in every case. (`~itemIndex` is
        non-zero exactly when itemIndex is not -1.) */
    method OnMouseDown(event: PointerEvent, clientLeft: real, clientTop: real)
      requires Valid()
      modifies this`items, this`lastMouseEvent, canvas`log, Repr`isActive
      ensures Valid()
      ensures ItemObjects(items) == ItemObjects(old(items))
      ensures old(HitIndex(event, clientLeft, clientTop)) >= 0 ==>
                items == Promote(old(items), old(HitIndex(event, clientLeft, clientTop))) &&
                lastMouseEvent == Some(event) && items[|items| - 1].item.isActive
      ensures old(HitIndex(event, clientLeft, clientTop)) < 0 ==>
                items == old(items) && lastMouseEvent == old(lastMouseEvent)
      ensures forall k :: 0 <= k < |old(items)| && k != old(HitIndex(event, clientLeft, clientTop)) ==>
                old(items)[k].item.isActive == old(items[k].item.isActive)
      ensures old(NoneActive()) ==> OnlyLastMayBeActive()
      ensures old(lastMouseEvent.None? && DragConsistent()) ==> DragConsistent()
      ensures canvas.log == old(canvas.log) + Frame()
    {
      ghost var hit := HitIndex(event, clientLeft, clientTop);
      var itemIndex := GetMousedownItemIndex(event, clientLeft, clientTop);
      assert itemIndex == hit;
      Pick(itemIndex, event);
      Render();
    }

    /** The `if (~itemIndex)` of onMouseDown: select on a hit (any index but
        -1), change nothing on a miss. */
    method Pick(itemIndex: int, event: PointerEvent)
      requires Valid() && -1 <= itemIndex < |items|
      modifies this`items, this`lastMouseEvent, Repr`isActive
      ensures Valid()
      ensures ItemObjects(items) == ItemObjects(old(items))
      ensures itemIndex >= 0 ==>
                items == Promote(old(items), itemIndex) &&
                lastMouseEvent == Some(event) && items[|items| - 1].item.isActive
      ensures itemIndex < 0 ==> items == old(items) && lastMouseEvent == old(lastMouseEvent)
      ensures forall k :: 0 <= k < |old(items)| && k != itemIndex ==>
                old(items)[k].item.isActive == old(items[k].item.isActive)
      ensures old(NoneActive()) ==> OnlyLastMayBeActive()
      ensures old(lastMouseEvent.None? && DragConsistent()) ==> DragConsistent()
    {
      if itemIndex != -1 {
        Select(itemIndex, event);
      } else {
        assert NoneActive() ==> OnlyLastMayBeActive();
      }
    }

    /** The hit branch of onMouseDown. */
    method Select(itemIndex: nat, event: PointerEvent)
      requires Valid() && itemIndex < |items|
      modifies this`items, this`lastMouseEvent, items[itemIndex].item`isActive
      ensures Valid()
      ensures ItemObjects(items) == ItemObjects(old(items))
      ensures items == Promote(old(items), itemIndex) && lastMouseEvent == Some(event)
      ensures items[|items| - 1].item.isActive
      ensures forall k :: 0 <= k < |old(items)| && k != itemIndex ==>
                old(items)[k].item.isActive == old(items[k].item.isActive)
      ensures old(NoneActive()) ==> OnlyLastMayBeActive()
      ensures old(lastMouseEvent.None? && DragConsistent()) ==> DragConsistent()
    {
      var entry := items[itemIndex];
      PromoteKeepsDistinct(items, itemIndex);
      PromoteKeepsObjects(items, itemIndex);
      ghost var before := items;
      items := items[..itemIndex] + items[itemIndex + 1..];
      items := items + [entry];
      assert items == Promote(before, itemIndex);
      lastMouseEvent := Some(event);
      var active := ActiveItem();
      active.value.SetIsActive(true);
      forall k | 0 <= k < |items|
        ensures items[k].item in Repr && items[k].item.canvas == canvas
        ensures items[k].item.canvasWidth == canvas.width && items[k].item.canvasHeight == canvas.height
      {
        var k' := if k == |items| - 1 then itemIndex else if k < itemIndex then k else k + 1;
        assert items[k] == before[k'];
      }
    }

    /** onMouseMove (without its debounce): move the dragged item by the
        pointer's viewport delta since the anchor, then re-anchor and redraw.
        It is only reachable during a drag, when the listener is registered. */
    method OnMouseMove(event: PointerEvent)
      requires Valid() && lastMouseEvent.Some?
      modifies this`lastMouseEvent, canvas`log, items[|items| - 1].item`x, items[|items| - 1].item`y
      ensures Valid() && lastMouseEvent == Some(event)
      ensures var active, anchor := items[|items| - 1].item, old(lastMouseEvent.value);
              active.x == ClampAxis(old(active.x), event.clientX - anchor.clientX, active.w, canvas.width) &&
              active.y == ClampAxis(old(active.y), event.clientY - anchor.clientY, active.h, canvas.height)
      ensures old(DragConsistent()) ==> DragConsistent()
      ensures canvas.log == old(canvas.log) + Frame()
    {
      Drag(event);
      Render();
    }

    /** onMouseMove without the redraw. */
    method Drag(event: PointerEvent)
      requires Valid() && lastMouseEvent.Some?
      modifies this`lastMouseEvent, items[|items| - 1].item`x, items[|items| - 1].item`y
      ensures Valid() && lastMouseEvent == Some(event)
      ensures var active, anchor := items[|items| - 1].item, old(lastMouseEvent.value);
              active.x == ClampAxis(old(active.x), event.clientX - anchor.clientX, active.w, canvas.width) &&
              active.y == ClampAxis(old(active.y), event.clientY - anchor.clientY, active.h, canvas.height)
      ensures old(DragConsistent()) ==> DragConsistent()
    {
      var last := lastMouseEvent.value;
      var active := ActiveItem();
      active.value.Move(event.clientX - last.clientX, event.clientY - last.clientY);
      lastMouseEvent := Some(event);
    }

    ghost function TopObjects(): set<CanvasItem>
      reads this
    {
      if |items| == 0 then {} else {items[|items| - 1].item}
    }

    /** resetActiveItem, called on mouse-up and mouse-leave: end a drag in
        progress (drop the anchor, deactivate the dragged item, redraw);
        without a drag, do nothing at all. */
    method ResetActiveItem()
      requires Valid()
      modifies this`lastMouseEvent, canvas`log, TopObjects()`isActive
      ensures Valid() && lastMouseEvent.None?
      ensures old(lastMouseEvent).Some? ==>
                !items[|items| - 1].item.isActive && canvas.log == old(canvas.log) + Frame()
      ensures old(lastMouseEvent).None? ==>
                canvas.log == old(canvas.log) && forall o :: o in TopObjects() ==> o.isActive == old(o.isActive)
      ensures old(DragConsistent()) ==> NoneActive()
    {
      if lastMouseEvent.Some? {
        lastMouseEvent := None;
        var active := ActiveItem();
        active.value.SetIsActive(false);
        Render();
      }
    }

    /** addCanvasItem: create the item, put it on top and paint just that item
        (no clear). The item gets the request's rectangle (see
        ItemRequestConfig). */
    method AddCanvasItem(renderItem: CallbackId, rect: Option<Rect>, meta: Meta)
      requires Valid()
      modifies this`items, this`Repr, canvas`log
      ensures Valid()
      ensures |items| == |old(items)| + 1 && items[..|old(items)|] == old(items)
      ensures ItemObjects(items) == ItemObjects(old(items)) + {items[|items| - 1].item}
      ensures Repr == old(Repr) + {items[|items| - 1].item}
      ensures var e := items[|items| - 1];
              fresh(e.item) && e.meta == meta && e.item.renderItem == renderItem &&
              e.item.activeBorderWidth == activeItemBorderWidth && !e.item.isActive &&
              e.item.Bounds() == rect.GetOr(Rect(0.0, 0.0, 0.0, 0.0))
      ensures old(NoneActive()) ==> NoneActive()
      ensures lastMouseEvent == old(lastMouseEvent)
      ensures canvas.log == old(canvas.log) + items[|items| - 1].item.Commands()
    {
      var item := new CanvasItem(ItemRequestConfig(canvas, activeItemBorderWidth, renderItem, rect));
      ItemObjectsPush(items, Entry(meta, item));
      items := items + [Entry(meta, item)];
      Repr := Repr + {item};
      item.Render();
    }

    /** drawImage: merge the options with the defaults, size the image, and
        add an item whose callback draws it. */
    method DrawImage(image: Image, config: Option<Config>)
      requires Valid()
      requires var cfg := GetConfig(DrawImageKey, config);
               cfg[W] == 0.0 || cfg[H] == 0.0 ==> image.naturalWidth > 0.0 && image.naturalHeight > 0.0
      modifies this`items, this`Repr, canvas`log
      ensures Valid()
      ensures |items| == |old(items)| + 1 && items[..|old(items)|] == old(items)
      ensures ItemObjects(items) == ItemObjects(old(items)) + {items[|items| - 1].item}
      ensures Repr == old(Repr) + {items[|items| - 1].item}
      ensures var cfg := GetConfig(DrawImageKey, config);
              var size := DrawImageSize(cfg[W], cfg[H], cfg[SizeRatio], canvas.width, canvas.height,
                                        image.naturalWidth, image.naturalHeight);
              var e := items[|items| - 1];
              fresh(e.item) && e.meta == Meta("drawImage") && e.item.renderItem == image.id &&
              !e.item.isActive && e.item.Bounds() == Rect(cfg[X], cfg[Y], size.0, size.1)
      ensures old(NoneActive()) ==> NoneActive()
      ensures canvas.log == old(canvas.log) + items[|items| - 1].item.Commands()
    {
      var cfg := GetConfig(DrawImageKey, config);
      var size := DrawImageSize(cfg[W], cfg[H], cfg[SizeRatio], canvas.width, canvas.height,
                                image.naturalWidth, image.naturalHeight);
      AddCanvasItem(image.id, Some(Rect(cfg[X], cfg[Y], size.0, size.1)), Meta("drawImage"));
    }
  }

}
