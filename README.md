# Cropper interaction and geometry engine

A Dafny model of the core of the `Cropper` component of react-easy-crop
(`src/index.js`): the user pans and zooms an image, which may be rotated,
behind a fixed crop window. The model covers:

- the rotation geometry: `rotate`, and `translateSize`, the bounding box of a rotated image;
- zooming at a point: `getPointOnContainer`, `getPointOnImage` and `setNewZoom`;
- the gesture handlers: mouse and touch drags, pinches and the wheel;
- the two animation-frame slots that coalesce updates;
- the 250 ms wheel debounce timer;
- the document listeners a gesture registers;
- the small selectors `getAspect` and the crop-size choice of `computeSizes`.

Files:

- `Geometry.dfy` holds points, sizes, `Rotate` and `TranslateSize`. The
  rotation angle enters only through its cosine `c` and sine `s`, which are
  passed in as reals. `TranslateSize` is the source's reduction over the four
  rotated corners. Its closed form is proved: width `|w c| + |h s|`, height
  `|w s| + |h c|`.
- `Zoom.dfy` holds the zoom-at-point arithmetic: the container point, the
  image point, the zoom clamp and the anchored position. It proves that the
  image point under the anchor is the same before and after a zoom.
- `Engine.dfy` holds the component's fields as a `State` value, the props
  (`Props`), and the imported helpers (`Helpers`). It has one function per
  handler, giving the state after that handler runs. Every callback the
  component invokes (`onCropChange`, `onZoomChange`, `onInteractionStart`,
  `onInteractionEnd`, `onCropComplete`) is appended to `log`, in call order.
- `Properties.dfy` proves properties that span several events: frame
  coalescing, the wheel burst, a whole drag session, the crop-size guard and
  zoom stationarity.
- `Component.dfy` holds the class `Cropper`, with the source's fields and one
  method per handler. Each method is proved to leave its fields as the
  matching `Engine` function says (`Snapshot() == Engine.F(old(Snapshot()), …)`).
  The handler methods also keep the object invariant `Valid()`:
  - the wheel is active exactly while its timeout is pending;
  - a drag frame is pending only once a crop size is known.

Modelling of the environment:

- **Helpers.** The functions imported from `./helpers` are not part of this
  model: `restrictPosition`, `computeCroppedArea`, `getCropSize`,
  `getDistanceBetweenPoints` and `getCenter`. They are fields of `Helpers`,
  typed as total functions, and nothing is assumed about them.
- **Animation frames.** `requestAnimationFrame` is modelled by two
  single-slot `Option` fields:
  - `rafDrag` holds the pointer captured by the pending drag frame;
  - `rafZoom` holds the two touches and their centre for the pending zoom frame.

  A new event overwrites its slot. `DragFrame` and `ZoomFrame` fire a slot.
  They read the props and fields current at firing time, as the source's
  closures do.
- **Wheel timer.** The timer is the boolean `wheelTimer`, and `TimerFire`
  fires it.
- **Inputs from the browser.** The measured image and container are
  parameters of `ComputeSizes`. So are the cosine and sine of the rotation
  prop.

Three points of the code deserve a note, because the model follows them as
written:

- **Pinch at zero distance.** The zoom frame of `onPinchMove` divides by
  `lastPinchDistance` without a guard (`src/index.js:247`). The model
  requires it to be nonzero.
- **Pending frames after a stop.** `onDragStopped` cancels neither pending
  animation frame (`src/index.js:225-229`). A drag or zoom frame scheduled
  before the pointer was released still fires after it.
- **Finger count.** While its listener is registered, `onTouchMove` dispatches
  purely on the number of touches: two touches pinch, one touch drags
  (`src/index.js:188-196`). Lifting a finger fires `touchend`, whose listener
  is `onDragStopped` (`src/index.js:180`). That removes the touch listeners
  (`src/index.js:101-102`), so later moves are not delivered until the next
  `touchstart`.

## Model

| member | source | states |
|---|---|---|
| Geometry.Rotate | src/index.js:12-22 | the centre of rotation is a fixed point; c = 1, s = 0 moves nothing |
| Geometry.RotateKeepsDistance | src/index.js:12-22 | for c² + s² = 1 the rotated point keeps its squared distance to the centre |
| Geometry.Reduce | src/index.js:35-43 | the min/max reduction over the corners covers every point and keeps min ≤ max; each extreme is attained by one of the points or by the starting accumulator; an accumulator that started from a point is only widened |
| Geometry.TranslateSize | src/index.js:24-46 | width and height are max − min of the rotated corners, never negative, and the box contains all four corners |
| Geometry.TranslateSizeFormula | src/index.js:24-46 | the bounding box of a w×h box rotated by (c, s) is (\|w c\| + \|h s\|, \|w s\| + \|h c\|), for every w, h, c, s |
| Geometry.TranslateSizeUnrotated | src/index.js:24-46 | at 0° (c = 1, s = 0) a non-negative size is returned unchanged |
| Geometry.TranslateSizeHalfTurn | src/index.js:24-46 | at 180° (c = −1, s = 0) a non-negative size is returned unchanged |
| Geometry.TranslateSizeQuarterTurn | src/index.js:24-46 | at 90° (c = 0, s = 1) width and height are swapped |
| Geometry.TranslateSizeThreeQuarterTurn | src/index.js:24-46 | at 270° (c = 0, s = −1) width and height are swapped |
| Zoom.PointOnContainer | src/index.js:270-278 | the result is the container centre minus the anchor; the centre itself maps to (0, 0) |
| Zoom.PointOnImage | src/index.js:280-286 | the image point scaled back by the zoom and minus the pan is the container point again |
| Zoom.ClampZoom | src/index.js:293 | the clamped zoom is ≤ maxZoom; it is ≥ minZoom when minZoom ≤ maxZoom; an in-range request is kept; a request above maxZoom gives maxZoom; one below minZoom gives minZoom; crossed bounds give maxZoom |
| Zoom.ClampZoomIdempotent | src/index.js:293 | with ordered bounds, clamping twice equals clamping once |
| Zoom.AnchoredPosition | src/index.js:294-297 | at a nonzero new zoom, the image point under the anchor at the proposed position is the target |
| Zoom.AnchorStaysPut | src/index.js:280-297 | for nonzero old and new zoom, the image point under the anchor at the new position and zoom is the one under it before |
| Zoom.SameZoomKeepsPosition | src/index.js:288-297 | zooming to the current zoom proposes the current pan position |
| Engine.Initial | src/index.js:52-64 | the constructed component has no listeners, no callbacks, no crop size, no pending frame, and the wheel quiet with no timeout, which satisfies the object invariant |
| Engine.GetAspect | src/index.js:126-132 | with a crop-size prop, the aspect times its height is its width; otherwise it is the aspect prop |
| Engine.ChooseCropSize | src/index.js:151-153 | the crop-size prop wins when given; otherwise it is the helper's size for the displayed width, height and aspect |
| Engine.Restricted | src/index.js:218-220 | with the restrictPosition prop off the requested position passes through; with it on the helper's result is used |
| Engine.ZoomCallbacks | src/index.js:288-305 | no crop size means no callback; otherwise one crop change, then a zoom change to the clamped zoom exactly when onZoomChange is given; never an interaction notification |
| Engine.CropDataCallbacks | src/index.js:307-323 | no crop size or no onCropComplete means nothing; otherwise exactly one crop-complete, computed from the (restricted) crop prop |
| Engine.DragPosition | src/index.js:209-221 | without restriction, the proposed position differs from the drag's start crop by exactly the pointer's offset from its start |
| Engine.DragStart | src/index.js:198-202 | records the pointer and the crop prop, and appends one interaction-start; the invariant is kept |
| Engine.Drag | src/index.js:204-209 | without a crop size nothing changes; otherwise the drag slot holds this pointer (replacing any pending one); no callback is invoked; the invariant is kept |
| Engine.DragFrame | src/index.js:209-222 | an empty slot is a no-op; a pending pointer yields exactly one crop change to its drag position, and the slot is emptied |
| Engine.CleanEvents | src/index.js:98-103 | no document listener remains and nothing else changes |
| Engine.DragStopped | src/index.js:225-229 | listeners emptied, then the crop data, then one interaction-end, in that order; nothing else changes |
| Engine.PinchStart | src/index.js:231-236 | remembers the touches' distance, then starts a drag at their centre |
| Engine.PinchMove | src/index.js:238-245 | drags the touches' centre and replaces the zoom slot with these touches and that centre |
| Engine.PinchZoom | src/index.js:247 | the requested zoom times the remembered distance equals the zoom prop times the new distance; an unchanged distance keeps the zoom |
| Engine.ZoomFrame | src/index.js:245-250 | an empty slot is a no-op; a pending pinch zooms to the pinch zoom at the centre; it then stores the new distance and empties the slot |
| Engine.MouseDown | src/index.js:168-173 | registers the mouse-move and mouse-up listeners and starts a drag at the pointer |
| Engine.TouchStart | src/index.js:177-186 | registers the touch listeners; two touches start a pinch, one starts a drag, and any other count starts nothing |
| Engine.TouchMove | src/index.js:188-196 | two touches move the pinch, one touch drags, and any other count changes nothing; no callback is invoked |
| Engine.WheelZoom | src/index.js:256 | a zero delta or speed keeps the zoom; with positive speed, a positive delta lowers it and only then |
| Engine.Wheel | src/index.js:253-268 | zooms at the pointer; appends interaction-start only if the wheel was not active; afterwards the wheel is active and the timeout pending; nothing else changes |
| Engine.TimerFire | src/index.js:263-267 | a pending timeout makes the wheel quiet and appends one interaction-end; without one nothing happens |
| Engine.RecomputeCropPosition | src/index.js:325-331 | only the log changes: the old log is kept, then one crop change to the (restricted) crop prop, then exactly the crop data; this holds also before a crop size is known, when the crop data is empty |
| Engine.ComputeSizes | src/index.js:134-159 | with an image: stores the rotated displayed and natural boxes, all non-negative, and the chosen crop size, then the log grows exactly as recomputeCropPosition on the updated state says; with a container: stores its rectangle; no other field changes; the invariant is kept |
| Properties.ZoomKeepsAnchor | src/index.js:288-302 | with restriction off, the image point under the anchor after the proposed crop change and clamped zoom is the one under it before |
| Properties.ZoomProposalBounded | src/index.js:293-304 | every proposed zoom is ≤ maxZoom, and ≥ minZoom when minZoom ≤ maxZoom |
| Properties.WheelKeepsAnchor | src/index.js:253-257 | a wheel event's first callback is a crop change that keeps the image point under the pointer, at zoom − deltaY·zoomSpeed/200 clamped |
| Properties.DragBackToStart | src/index.js:209-221 | with restriction off, returning the pointer to its start proposes exactly the start crop |
| Properties.DragsKeepLast | src/index.js:204-209 | after any run of moves only the last pointer is pending; no other field changes |
| Properties.DragsWithoutCropSize | src/index.js:204-205 | without a crop size a run of moves changes nothing |
| Properties.CoalescedDragFrame | src/index.js:204-222 | a frame after any run of moves emits exactly one crop change, computed from the last pointer |
| Properties.PinchMovesKeepLast | src/index.js:238-245 | after any run of two-finger moves both slots hold the values of the last move |
| Properties.CoalescedZoomFrame | src/index.js:238-250 | the zoom frame after a run of pinch moves uses only the last pair: zoom prop × (its distance / remembered distance), at its centre, and it stores that distance |
| Properties.NoCropSizeNoProposal | src/index.js:204-308 | with no crop size known: no drag or zoom position, no zoom and no crop data is proposed; drag moves and drag frames change nothing; stopping a drag only notifies its end |
| Properties.MouseDragSession | src/index.js:168-229 | mouse-down, moves, one frame, mouse-up releases every listener; the callbacks are then interaction-start, the start crop moved by the last offset, the crop data, interaction-end |
| Properties.TouchStartDispatch | src/index.js:177-186 | one touch records that point and the crop prop; two record their centre and distance; both notify a start; only two touches change the remembered pinch distance; other counts change nothing but the listener set; the touch listeners are registered every time |
| Properties.WheelNotifies | src/index.js:259-261 | one wheel event notifies a start exactly when the wheel was quiet, and never an end |
| Properties.WheelBurst | src/index.js:253-268 | a burst of wheel events gives exactly one interaction-start from a quiet wheel (none from an active one) and no end, and leaves the wheel active |
| Properties.TimeoutEnds | src/index.js:264-267 | the timeout appends exactly one interaction-end and no start to the log |
| Properties.BurstThenTimeout | src/index.js:253-268 | from a quiet wheel, a burst then the timeout gives exactly one start and one end, the end last; the wheel is quiet again and a further timeout does nothing |
| Component.Cropper.constructor | src/index.js:52-64 | the fields start as the initial state, which is valid |
| Component.Cropper.CleanEvents | src/index.js:98-103 | the listener field ends as Engine.CleanEvents says: empty |
| Component.Cropper.DragStart | src/index.js:198-202 | the fields change as Engine.DragStart says |
| Component.Cropper.Drag | src/index.js:204-209 | the fields change as Engine.Drag says |
| Component.Cropper.DragFrame | src/index.js:209-222 | the fields change as Engine.DragFrame says; the invariant is kept |
| Component.Cropper.EmitCropData | src/index.js:307-323 | only the log changes, by the callbacks of Engine.CropDataCallbacks |
| Component.Cropper.DragStopped | src/index.js:225-229 | delivered while a mouse-up or touch-end listener is registered; the fields change as Engine.DragStopped says |
| Component.Cropper.SetNewZoom | src/index.js:288-305 | only the log changes, by the callbacks of Engine.ZoomCallbacks |
| Component.Cropper.PinchStart | src/index.js:231-236 | the fields change as Engine.PinchStart says |
| Component.Cropper.PinchMove | src/index.js:238-251 | the fields change as Engine.PinchMove says |
| Component.Cropper.ZoomFrame | src/index.js:245-250 | the fields change as Engine.ZoomFrame says; the invariant is kept |
| Component.Cropper.MouseDown | src/index.js:168-173 | the fields change as Engine.MouseDown says; the invariant is kept |
| Component.Cropper.MouseMove | src/index.js:175 | delivered while the mouse-move listener is registered; the fields change as Engine.Drag says; the invariant is kept |
| Component.Cropper.TouchStart | src/index.js:177-186 | the fields change as Engine.TouchStart says; the invariant is kept |
| Component.Cropper.TouchMove | src/index.js:188-196 | delivered while the touch-move listener is registered; the fields change as Engine.TouchMove says; the invariant is kept |
| Component.Cropper.Wheel | src/index.js:253-268 | the fields change as Engine.Wheel says; the invariant is kept |
| Component.Cropper.TimerFire | src/index.js:264-267 | the fields change as Engine.TimerFire says; the invariant is kept |
| Component.Cropper.RecomputeCropPosition | src/index.js:325-331 | the fields change as Engine.RecomputeCropPosition says |
| Component.Cropper.ComputeSizes | src/index.js:134-159 | the fields change as Engine.ComputeSizes says; the invariant is kept |

## Left out

- The helpers in `./helpers` are not part of this model. Their bodies and properties (restriction clamping, the cropped-area computation, crop sizing, the initial-crop inversion, distance, centre) are not modelled, and nothing is claimed about them. Properties that depend on them are stated with restriction switched off.
- `setInitialCrop`, `onImgLoad`, `onImgError` and `getInitialCropFromCroppedAreaPixels` are left out. They belong to image loading, which is not modelled.
- Rendering and lifecycle are left out: `render`, styles, `preventZoomSafari`, `componentDidMount`, `componentWillUnmount` (which removes the window and container listeners and clears the wheel timer) and `componentDidUpdate`. The two calls `componentDidUpdate` makes, `computeSizes` and `recomputeCropPosition` (`src/index.js:87-93`), are modelled as events of their own, valid in any state.
- DOM measurement (`getBoundingClientRect`, the image element's sizes) is left out. The measured values are parameters of `ComputeSizes`.
- `Math.cos`, `Math.sin` and floating-point rounding are left out. The model uses exact reals and takes the cosine and sine as parameters. The exact size swap at 90° holds only in this idealised model.
- Real timers and `requestAnimationFrame` are modelled as explicit events acting on single-slot state. The order in which one browser frame runs the drag and zoom callbacks (request order) is left to the caller of `DragFrame` and `ZoomFrame`.
- `setState` is treated as taking effect at once. Its callbacks run right after the update, within the same handler.
- The `x === undefined` check in the drag frame (`src/index.js:210`) is not modelled. Pointer coordinates come from `Number(…)` and are never `undefined`.
- The throw in `getPointOnContainer` (`src/index.js:271-273`) is not modelled. `containerRect` starts as `{}` and is never falsy. The unmeasured rectangle is modelled as all zeros; it is read only once a crop size exists, and the crop size is set in the same `computeSizes` call that measures the container.
- Division by zero is left out. `Engine.WellFormed` asks for a nonzero zoom prop and a nonzero crop-size height, and `ZoomFrame` asks for a nonzero `lastPinchDistance`. JavaScript would produce `Infinity` or `NaN` in these cases.
- Engine.Drag and Engine.TouchMove are not gated on the registered listeners. The browser delivers `mousemove`, `touchmove`, `mouseup` and `touchend` only while the component's listener is registered. The `Cropper` methods for these events require that listener, but event sequences composed from the `Engine` functions (`Drags`, `TouchMoves`) may include moves the browser would not deliver.
- The entry `Event` objects (`preventDefault`, `clientX`, the touch list) are reduced to points and sequences of points.
