# Canvas controller: a verified Dafny model

This project models the drag-and-drop canvas controller of `canvas-test`. The
controller lives in `src/modules/CanvasController`. A `CanvasController` owns an
ordered list of `CanvasItem`s painted back to front on one canvas. A mouse-down
on an item lifts it to the top of the z-order and makes it active, which gives
it a border. Mouse moves then drag the item, clamped to the canvas. Mouse-up or
mouse-leave ends the drag. A window resize rescales every item to the new
canvas size. `drawImage` merges its options with a default record, fits an
image to the canvas and adds it as a new item.

Modules, one per concern:

- `Wrappers`: `Option`, for properties that may be absent from an object literal.
- `Geometry`: rectangles and the closed hit test.
- `Paint`: the canvas element and its 2D context as a `Surface` class. Drawing
  calls are recorded in an append-only paint log (`Clear`, `Fill`, and the
  item's draw `Callback` with the geometry it receives).
- `Configs`: `defaultConfigs.ts`. An options object is a `map` from property to value.
- `Items`: `CanvasItem.ts`. `CanvasItem` is a class with the source's fields.
  `recalculatePositionAndSize`, `move` and `render` are methods that update
  them in place.
- `Controller`: `index.ts`. `CanvasController` is a class holding `items : seq<Entry>`
  and the drag anchor `lastMouseEvent`. The event handlers are methods.
  `Valid()` is the invariant they keep:
  - the items are distinct;
  - every item is on this surface;
  - every item's reference size is the surface's positive size;
  - an anchor exists only when there is an item.

  `DragConsistent()` says that no item is active while idle, and only the top
  item may be active during a drag.
- `Scenarios`: worked examples of the z-order and drag rules.

Each method is specified against pure functions: `ClampAxis`, `Rescale`,
`ItemPaint`, `TopmostHit`, `Promote`, `DrawImageSize`, `GetConfig`, plus
`Views()` and `Frame()` (what a full redraw paints). Lemmas prove the properties
of those functions.

Coordinates and sizes are `real`: JavaScript numbers without rounding.

## Model

| member | source | states |
|---|---|---|
| Geometry.Translate | src/modules/CanvasController/CanvasItem.ts:63-75 | translation keeps the size, and a point hits the rectangle exactly when the translated point hits the translated rectangle |
| Geometry.CornersAreHits | src/modules/CanvasController/CanvasItem.ts:53-57 | the hit test is boundary-inclusive: all four corners of a non-negative rectangle are hits |
| Geometry.EnclosedHitIsHit | src/modules/CanvasController/CanvasItem.ts:77-90 | a point inside a rectangle is inside any rectangle enclosing it |
| Configs.DefaultConfigs | src/modules/CanvasController/defaultConfigs.ts:11-19 | the `drawImage` defaults define exactly x, y, w, h and sizeRatio |
| Configs.GetConfig | src/modules/CanvasController/defaultConfigs.ts:21-29 | the merge has the union of the keys; every property the caller passes wins; every property the caller omits keeps its default |
| Configs.EmptyConfigIsDefaults | src/modules/CanvasController/defaultConfigs.ts:11-29 | passing `{}` equals passing nothing, and both give x = y = w = h = 0, sizeRatio = 1 |
| Configs.GetConfigIdempotent | src/modules/CanvasController/defaultConfigs.ts:21-29 | merging an already merged record with the defaults again changes nothing |
| Items.ConfiguredRect | src/modules/CanvasController/CanvasItem.ts:27-33 | each geometry property the config supplies overrides the initial 0; an absent one stays 0 |
| Items.ClampAxis | src/modules/CanvasController/CanvasItem.ts:63-75 | the far edge never passes the limit; the position is non-negative when the size fits; an oversized item ends at limit - size; a move that stays inside is taken exactly; a fitting item moved past the near edge stops at 0, and one moved past the far edge stops at limit - size |
| Items.Rescale | src/modules/CanvasController/CanvasItem.ts:40-51 | every coordinate keeps its share of the surface: x / newWidth == oldX / oldWidth, and likewise for y, w, h |
| Items.RescaleSameSize | src/modules/CanvasController/CanvasItem.ts:40-51 | rescaling to the reference size the item already has is the identity |
| Items.RescaleCompose | src/modules/CanvasController/CanvasItem.ts:40-51 | two rescales in a row equal one rescale from the first size to the last |
| Items.RescaleKeepsInside | src/modules/CanvasController/CanvasItem.ts:40-51 | an item inside the old surface is inside the new surface after rescaling |
| Items.ItemPaint | src/modules/CanvasController/CanvasItem.ts:77-90 | an active item paints a border first, reaching `border` past every edge and enclosing the item; the draw callback always comes last, with the item's geometry |
| Items.CanvasItem.constructor | src/modules/CanvasController/CanvasItem.ts:32-38 | the geometry is the configured rectangle; the reference size is the surface's size; the item starts inactive |
| Items.CanvasItem.RecalculatePositionAndSize | src/modules/CanvasController/CanvasItem.ts:40-51 | the new geometry is `Rescale` of the old one, from the old reference size to the surface's size, which becomes the reference size |
| Items.CanvasItem.ExistsAt | src/modules/CanvasController/CanvasItem.ts:53-57 | true exactly when the point lies in the closed rectangle |
| Items.CanvasItem.SetIsActive | src/modules/CanvasController/CanvasItem.ts:59-61 | the flag takes the given value and nothing else changes |
| Items.CanvasItem.Move | src/modules/CanvasController/CanvasItem.ts:63-75 | each axis becomes `ClampAxis` of the old position; the far edges end inside the surface; the near edges are non-negative whenever the item fits |
| Items.CanvasItem.Render | src/modules/CanvasController/CanvasItem.ts:77-90 | appends exactly `ItemPaint` of the item's current state to the surface's log |
| Items.GrabbedPointFollows | src/modules/CanvasController/CanvasItem.ts:63-75 | while the translated item stays inside the surface, the grabbed point stays under the pointer |
| Controller.TopmostHit | src/modules/CanvasController/index.ts:91-106 | the result is -1 or an index whose item contains the point, and no later item contains it |
| Controller.Promote | src/modules/CanvasController/index.ts:54-59 | splice-then-push is a permutation that puts the chosen element last; the elements before it stay in place and the ones after it shift down by one |
| Controller.PromoteKeepsDistinct | src/modules/CanvasController/index.ts:54-59 | promotion keeps the items pairwise distinct |
| Controller.DrawImageSize | src/modules/CanvasController/index.ts:143-161 | non-zero explicit w and h are kept; otherwise the size keeps the image's aspect ratio, stays within the surface times sizeRatio (for sizeRatio >= 0) and reaches that bound on one axis |
| Controller.DrawImageSizeExamples | src/modules/CanvasController/index.ts:143-161 | a 400x400 image on a 1000x500 surface becomes 500x500, and 250x250 with sizeRatio 0.5 |
| Controller.ItemRequestConfigAsWritten | src/modules/CanvasController/index.ts:125-130 | the config as written carries the surface, border and callback, but no geometry reaches the item |
| Controller.AsWrittenLosesRect | src/modules/CanvasController/index.ts:125-130 | as written, the 500x500 rectangle drawImage computes becomes a 0x0 item at the origin |
| Controller.ItemRequestConfig | src/modules/CanvasController/index.ts:125-130 | the corrected config gives the item exactly the requested rectangle, or the 0 rectangle when there is none |
| Controller.PaintOrder | src/modules/CanvasController/index.ts:184-187 | a full paint calls every item's callback exactly once, with its geometry, in list order, so the last item is on top |
| Controller.CanvasController.constructor | src/modules/CanvasController/index.ts:18-24 | the border width defaults to 2; the surface takes the client size; the list is empty; there is no drag; the invariant holds |
| Controller.CanvasController.ActiveItem | src/modules/CanvasController/index.ts:47-49 | the last item when there is one, and nothing for an empty list |
| Controller.CanvasController.Init | src/modules/CanvasController/index.ts:35-41 | the surface takes the client size, and every item is rescaled from the old surface size to the new one |
| Controller.CanvasController.ClearSurface | src/modules/CanvasController/index.ts:180-182 | appends one clear of the whole surface |
| Controller.CanvasController.Render | src/modules/CanvasController/index.ts:184-187 | appends exactly `Frame()`: a clear, then every item's paint in list order; no item and no size changes |
| Controller.CanvasController.RenderItems | src/modules/CanvasController/index.ts:186 | appends the items' paints in list order and changes nothing else |
| Controller.CanvasController.OnResize | src/modules/CanvasController/index.ts:25-28 | the resize handler re-sizes, rescales every item and redraws, keeping the invariant |
| Controller.CanvasController.GetMousedownItemIndex | src/modules/CanvasController/index.ts:91-106 | the downward scan returns `TopmostHit` of the items' current rectangles at the layer point (offset minus the client rect's left/top): the topmost item containing it, or -1 |
| Controller.CanvasController.OnMouseDown | src/modules/CanvasController/index.ts:51-66 | on a hit, the list is `Promote`d, the anchor is set and the top item is active; on a miss, the list and the anchor are unchanged; other flags are untouched; a full frame is painted either way |
| Controller.CanvasController.Pick | src/modules/CanvasController/index.ts:54-63 | on a hit index, the list is `Promote`d, the anchor is set and only the promoted item's flag changes, to active; on -1, nothing changes; the invariant is kept |
| Controller.CanvasController.Select | src/modules/CanvasController/index.ts:54-62 | moves the hit item to the top, records the anchor and activates that item only, keeping the invariant |
| Controller.CanvasController.OnMouseMove | src/modules/CanvasController/index.ts:68-77 | the dragged item moves by the viewport delta since the anchor, clamped by `ClampAxis`; the anchor becomes this event; the frame is repainted |
| Controller.CanvasController.Drag | src/modules/CanvasController/index.ts:69-75 | the move and re-anchoring of onMouseMove without the redraw |
| Controller.CanvasController.ResetActiveItem | src/modules/CanvasController/index.ts:79-89 | during a drag: drops the anchor, deactivates the top item and repaints; from a drag-consistent state no item is then active; when idle: changes no flag and paints nothing |
| Controller.CanvasController.AddCanvasItem | src/modules/CanvasController/index.ts:108-135 | appends one fresh inactive item with the request's callback, meta and rectangle; the footprint and the set of listed items both grow by exactly that item; paints only that item, with no clear |
| Controller.CanvasController.DrawImage | src/modules/CanvasController/index.ts:137-178 | adds one item at the merged x, y with the `DrawImageSize` size, and paints it |
| Scenarios.ZOrderHitExample | src/modules/CanvasController/index.ts:51-66 | among three overlapping items, a click only the bottom one covers hits it and promotes it to the top; a later click where all three overlap then picks it |
| Scenarios.ZOrderPaintExample | src/modules/CanvasController/index.ts:184-187 | after that promotion the redraw calls the callbacks in the order B, C, A |
| Scenarios.DragExample | src/modules/CanvasController/CanvasItem.ts:63-75 | concrete clamped moves: an ordinary drag, a stop at the left edge, and an oversized item pushed to a negative x |

## Left out

- DOM event wiring is left out. So are the mouse-move listener's registration and removal, and `window.onresize`. The handlers are methods called directly. "The listener is registered" is modelled as "the anchor is set", and `OnMouseMove` requires it.
- `debounce` (`src/utils/index.ts`) is left out, because time is not modelled. The source's `debounce` runs the handler at once and then discards every call that arrives within the cool-down (10 ms for mouse-move, 100 ms for resize). The model runs every call, so it does not capture the dropped moves and resizes.
- `getBoundingClientRect` is left out. The client rect's size (`Init`, `OnResize`) and its left/top (`GetMousedownItemIndex`) are parameters.
- Real pixel output is left out. The 2D context is modelled as a log of drawing commands. An item's `renderItem` callback is an opaque identifier (`CallbackId`), recorded with the arguments it receives. The fill colour "green" is not recorded.
- `Meta` keeps only the method name. The `args` array (`[...arguments]`) is opaque.
- JavaScript number semantics are left out:
  - no rounding;
  - no `NaN` or `Infinity`;
  - no integer truncation when assigning `canvas.width`.

  The model requires positive surface sizes, and requires a positive image size only when `drawImage` fits the image, that is, when `w` or `h` is 0. With a zero size the source computes `Infinity` or `NaN` there.
- A property passed explicitly as `undefined` is not modelled. A `Config` map either has a property or omits it.
- `Items.CanvasItem.constructor`: `Object.assign` copies every config property. Only the typed ones (canvas, border width, callback, x, y, w, h) are modelled. `isActive` starts as `undefined` and is modelled as `false`, which is how every use reads it.
- `Controller.CanvasController.OnMouseDown`: the invariant `DragConsistent` is proved preserved only for a mouse-down while idle. For a second mouse-down during a drag, `Pick`'s contract fixes every flag: a hit on another item activates it and leaves the previous top item active, so two items are then active.
- `Controller.CanvasController.Init`: as written, `_init` calls `item.recalculateRect()`, which `CanvasItem` does not define. Once the list holds an item, that call throws a `TypeError` after the surface has been re-sized, so no item is rescaled, and in the resize handler the following `_render` does not run. The model calls `recalculatePositionAndSize` instead, the method evidently meant, so `Init` and `OnResize` state the intended behaviour, not the code as written.
- `Controller.CanvasController.Valid`: the invariant only asks that every listed item be in the footprint `Repr`. That `Repr` holds nothing else follows from the contracts: the constructor starts both empty, `AddCanvasItem` and `DrawImage` add the new item to both, and `Select`, `Pick` and `OnMouseDown` keep the set of listed items.
- `src/App.tsx`, `craco.config.js` and the image loading of the demo page are not part of this model.

Where the model departs from the code:

- `_init` calls the undefined `item.recalculateRect()`. The model calls `recalculatePositionAndSize` (see `Controller.CanvasController.Init` above).
- `addCanvasItem` passes the rectangle nested under `rect`, so as written every item starts at 0x0 (see Findings). `AddCanvasItem` and `DrawImage` use the corrected `ItemRequestConfig`, which gives the item the requested rectangle.

Details the model keeps as the code has them:

- An item wider or taller than the canvas ends at `canvas.width - w`, a negative position, after `move`. It is not pinned at 0, because the far-edge correction runs last (`Items.ClampAxis`, `Scenarios.DragExample`).
- The hit test uses `offsetX - clientRect.left`. The drag delta uses `clientX` differences. Events carry both coordinate pairs.

## Findings

| source | as written | input that shows it | evidently intended | confidence | as-written member | corrected member |
|---|---|---|---|---|---|---|
| src/modules/CanvasController/index.ts:125-130 | `addCanvasItem` passes the rectangle as a nested `rect` property, but `CanvasItem` reads flat `x, y, w, h`, so every added item starts as a 0x0 rectangle at the origin | `drawImage` of a 400x400 image on a 1000x500 canvas computes the rectangle {0, 0, 500, 500}, but the item gets {0, 0, 0, 0} | spread the rectangle's fields into the item config, so the item gets the requested geometry | not executed | Controller.ItemRequestConfigAsWritten, Controller.AsWrittenLosesRect | Controller.ItemRequestConfig |
