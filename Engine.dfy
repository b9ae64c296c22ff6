/** The interaction engine of the cropper as values: the component's fields
    collected in a `State`, the props it reads, the helpers it calls, and one
    function per event handler giving the state after the handler ran.  The
    callbacks the handlers invoke are appended to `log` in call order.

    The frame and timer callbacks of the browser are modelled as slots in the
    state (`rafDrag`, `rafZoom`, `wheelTimer`) and as separate step functions
    (`DragFrame`, `ZoomFrame`, `TimerFire`) that the environment invokes. */
module Engine {
  import opened Geometry
  import opened Zoom

  datatype Option<T> = None | Some(value: T)

  /** Rotation-adjusted displayed and natural size of the image. */
  datatype ImageSize = ImageSize(width: real, height: real, naturalWidth: real, naturalHeight: real)

  /** The measured dimensions of the image element. */
  datatype ImageDims = ImageDims(width: real, height: real, naturalWidth: real, naturalHeight: real)

  datatype Area = Area(x: real, y: real, width: real, height: real)

  datatype CroppedArea = CroppedArea(percentages: Area, pixels: Area)

  /** The props the handlers read.  `onZoomChange` and `onCropComplete` say
      whether those optional callbacks are given; `cropSize` is the optional
      crop-size prop. */
  datatype Props = Props(
    crop: Point,
    zoom: real,
    minZoom: real,
    maxZoom: real,
    zoomSpeed: real,
    aspect: real,
    cropSize: Option<Size>,
    restrictPosition: bool,
    onZoomChange: bool,
    onCropComplete: bool)

  /** Props under which the real divisions of the handlers are defined. */
  predicate WellFormed(props: Props)
  {
    props.zoom != 0.0 && (props.cropSize.Some? ==> props.cropSize.value.height != 0.0)
  }

  /** The helpers the component imports, whose definitions are not part of
      this model; nothing is assumed about them. */
  datatype Helpers = Helpers(
    restrictPosition: (Point, ImageSize, Option<Size>, real) -> Point,
    computeCroppedArea: (Point, ImageSize, Size, real, real, bool) -> CroppedArea,
    getCropSize: (real, real, real) -> Size,
    getDistanceBetweenPoints: (Point, Point) -> real,
    getCenter: (Point, Point) -> Point)

  /** One invocation of a callback prop. */
  datatype Callback =
    | CropChange(position: Point)
    | ZoomChange(zoom: real)
    | InteractionStart
    | InteractionEnd
    | CropComplete(area: CroppedArea)

  /** The document listeners a gesture registers. */
  datatype Listener = MouseMoveListener | MouseUpListener | TouchMoveListener | TouchEndListener

  /** The values captured by a pending zoom frame of a pinch. */
  datatype PendingZoom = PendingZoom(pointA: Point, pointB: Point, center: Point)

  /** The component's fields.  `rafDrag` holds the pointer a pending drag
      frame will apply, `rafZoom` the touches of a pending zoom frame,
      `wheelTimer` whether the wheel timeout is pending; `cropSize` and
      `hasWheelJustStarted` are the component's React state. */
  datatype State = State(
    containerRect: Rect,
    imageSize: ImageSize,
    dragStartPosition: Point,
    dragStartCrop: Point,
    lastPinchDistance: real,
    rafDrag: Option<Point>,
    rafZoom: Option<PendingZoom>,
    wheelTimer: bool,
    cropSize: Option<Size>,
    hasWheelJustStarted: bool,
    listeners: set<Listener>,
    log: seq<Callback>)

  /** The state a freshly constructed component starts in.  The container
      rectangle is unmeasured (`{}` in the source); it is only read once a
      crop size is known, which is set together with the measurement. */
  function Initial(): (s: State)
    ensures Valid(s) && s.log == [] && s.listeners == {}
    ensures s.cropSize.None? && !s.hasWheelJustStarted && !s.wheelTimer
    ensures s.rafDrag.None? && s.rafZoom.None?
  {
    State(Rect(0.0, 0.0, 0.0, 0.0), ImageSize(0.0, 0.0, 0.0, 0.0), Point(0.0, 0.0), Point(0.0, 0.0),
          0.0, None, None, false, None, false, {}, [])
  }

  /** What every handler preserves: the wheel is active exactly while its
      timeout is pending, and a drag frame is pending only once a crop size
      is known. */
  predicate Valid(s: State)
  {
    s.hasWheelJustStarted == s.wheelTimer && (s.rafDrag.Some? ==> s.cropSize.Some?)
  }

  // ---------------------------------------------------------------------
  // Selectors

  /** `getAspect`: the ratio of the crop-size prop when given, else the
      aspect prop. */
  function GetAspect(props: Props): (r: real)
    requires WellFormed(props)
    ensures props.cropSize.Some? ==> r * props.cropSize.value.height == props.cropSize.value.width
    ensures props.cropSize.None? ==> r == props.aspect
  {
    if props.cropSize.Some? then props.cropSize.value.width / props.cropSize.value.height
    else props.aspect
  }

  /** The crop-size choice of `computeSizes`: the crop-size prop when given,
      else the size `getCropSize` fits in the displayed image. */
  function ChooseCropSize(given: Option<Size>, width: real, height: real, aspect: real,
                          getCropSize: (real, real, real) -> Size): (r: Size)
    ensures given.Some? ==> r == given.value
    ensures given.None? ==> r == getCropSize(width, height, aspect)
  {
    match given
    case Some(size) => size
    case None => getCropSize(width, height, aspect)
  }

  /** The `restrictPosition` prop applied to a requested position: the
      helper when it is set, the request unchanged otherwise.  The crop size
      is passed as the component's state holds it, `None` (the source's
      `null`) before one is known. */
  function Restricted(restrict: bool, helpers: Helpers, requested: Point, imageSize: ImageSize,
                      cropSize: Option<Size>, zoom: real): (r: Point)
    ensures !restrict ==> r == requested
    ensures restrict ==> r == helpers.restrictPosition(requested, imageSize, cropSize, zoom)
  {
    if restrict then helpers.restrictPosition(requested, imageSize, cropSize, zoom) else requested
  }

  // ---------------------------------------------------------------------
  // Callback sequences

  /** `setNewZoom`: nothing without a crop size; otherwise a crop change to
      the position that keeps the anchored image point in place (restricted
      if asked), followed by a zoom change to the clamped zoom when that
      callback is given. */
  function ZoomCallbacks(s: State, props: Props, helpers: Helpers, zoom: real, point: Point): (r: seq<Callback>)
    requires WellFormed(props)
    ensures s.cropSize.None? ==> r == []
    ensures s.cropSize.Some? ==> |r| == (if props.onZoomChange then 2 else 1) && r[0].CropChange?
    ensures s.cropSize.Some? && props.onZoomChange ==>
      r[1] == ZoomChange(ClampZoom(zoom, props.minZoom, props.maxZoom))
    ensures forall i :: 0 <= i < |r| ==> r[i].CropChange? || r[i].ZoomChange?
  {
    if s.cropSize.None? then []
    else
      var zoomPoint := PointOnContainer(point, s.containerRect);
      var zoomTarget := PointOnImage(zoomPoint, props.crop, props.zoom);
      var newZoom := ClampZoom(zoom, props.minZoom, props.maxZoom);
      var requested := AnchoredPosition(zoomPoint, zoomTarget, newZoom);
      var newPosition := Restricted(props.restrictPosition, helpers, requested, s.imageSize, s.cropSize, newZoom);
      [CropChange(newPosition)] + (if props.onZoomChange then [ZoomChange(newZoom)] else [])
  }

  /** `emitCropData`: nothing without a crop size or without the callback;
      otherwise one crop-complete with the area computed from the (restricted)
      current crop. */
  function CropDataCallbacks(s: State, props: Props, helpers: Helpers): (r: seq<Callback>)
    requires WellFormed(props)
    ensures s.cropSize.None? || !props.onCropComplete ==> r == []
    ensures s.cropSize.Some? && props.onCropComplete ==>
      var cs := s.cropSize.value;
      r == [CropComplete(helpers.computeCroppedArea(
               Restricted(props.restrictPosition, helpers, props.crop, s.imageSize, s.cropSize, props.zoom),
               s.imageSize, cs, GetAspect(props), props.zoom, props.restrictPosition))]
  {
    if s.cropSize.None? then []
    else
      var cs := s.cropSize.value;
      var restrictedPosition := Restricted(props.restrictPosition, helpers, props.crop, s.imageSize, s.cropSize, props.zoom);
      var area := helpers.computeCroppedArea(restrictedPosition, s.imageSize, cs, GetAspect(props),
                                             props.zoom, props.restrictPosition);
      if props.onCropComplete then [CropComplete(area)] else []
  }

  /** The position a drag frame proposes for the pointer `p`: the crop at the
      start of the drag moved by the pointer's offset from its start. */
  function DragPosition(s: State, props: Props, helpers: Helpers, p: Point): (r: Point)
    requires s.cropSize.Some?
    ensures !props.restrictPosition ==>
      r.x - s.dragStartCrop.x == p.x - s.dragStartPosition.x &&
      r.y - s.dragStartCrop.y == p.y - s.dragStartPosition.y
  {
    var requested := Point(s.dragStartCrop.x + (p.x - s.dragStartPosition.x),
                           s.dragStartCrop.y + (p.y - s.dragStartPosition.y));
    Restricted(props.restrictPosition, helpers, requested, s.imageSize, s.cropSize, props.zoom)
  }

  // ---------------------------------------------------------------------
  // Handlers

  /** `onDragStart`: records the pointer and the crop prop, then notifies
      the start of an interaction. */
  function DragStart(s: State, props: Props, p: Point): (r: State)
    ensures r == s.(dragStartPosition := p, dragStartCrop := props.crop, log := s.log + [InteractionStart])
    ensures Valid(s) ==> Valid(r)
  {
    s.(dragStartPosition := p,
       dragStartCrop := Point(props.crop.x, props.crop.y),
       log := s.log + [InteractionStart])
  }

  /** `onDrag`: without a crop size nothing happens; otherwise the pending
      drag frame, if any, is replaced by one for `p`.  No callback is invoked
      until the frame fires. */
  function Drag(s: State, p: Point): (r: State)
    ensures s.cropSize.None? ==> r == s
    ensures s.cropSize.Some? ==> r == s.(rafDrag := Some(p))
    ensures r.log == s.log
    ensures Valid(s) ==> Valid(r)
  {
    if s.cropSize.None? then s else s.(rafDrag := Some(p))
  }

  /** The drag frame firing: the pending pointer is applied with the fields
      and props current at that time. */
  function DragFrame(s: State, props: Props, helpers: Helpers): (r: State)
    requires Valid(s)
    ensures r.rafDrag.None? && Valid(r)
    ensures s.rafDrag.None? ==> r == s
    ensures s.rafDrag.Some? ==>
      r == s.(rafDrag := None, log := s.log + [CropChange(DragPosition(s, props, helpers, s.rafDrag.value))])
  {
    match s.rafDrag
    case None => s
    case Some(p) => s.(rafDrag := None, log := s.log + [CropChange(DragPosition(s, props, helpers, p))])
  }

  /** `cleanEvents`: removes the four document listeners. */
  function CleanEvents(s: State): (r: State)
    ensures r == s.(listeners := {})
  {
    var r := s.(listeners := s.listeners - {MouseMoveListener, MouseUpListener, TouchMoveListener, TouchEndListener});
    assert r.listeners == {} by {
      forall l: Listener ensures l !in r.listeners {
        assert l.MouseMoveListener? || l.MouseUpListener? || l.TouchMoveListener? || l.TouchEndListener?;
      }
    }
    r
  }

  /** `onDragStopped`: releases the listeners, emits the crop data and then
      notifies the end of the interaction.  A pending drag or zoom frame is
      not cancelled. */
  function DragStopped(s: State, props: Props, helpers: Helpers): (r: State)
    requires WellFormed(props)
    ensures r.listeners == {}
    ensures r.log == s.log + CropDataCallbacks(s, props, helpers) + [InteractionEnd]
    ensures r == s.(listeners := {}, log := r.log)
    ensures Valid(s) ==> Valid(r)
  {
    var s1 := CleanEvents(s);
    s1.(log := s1.log + CropDataCallbacks(s1, props, helpers) + [InteractionEnd])
  }

  /** `onPinchStart`: remembers the distance of the two touches and starts
      a drag at their centre. */
  function PinchStart(s: State, props: Props, helpers: Helpers, a: Point, b: Point): (r: State)
    ensures r.lastPinchDistance == helpers.getDistanceBetweenPoints(a, b)
    ensures r == DragStart(s, props, helpers.getCenter(a, b)).(lastPinchDistance := r.lastPinchDistance)
    ensures Valid(s) ==> Valid(r)
  {
    DragStart(s.(lastPinchDistance := helpers.getDistanceBetweenPoints(a, b)), props, helpers.getCenter(a, b))
  }

  /** `onPinchMove`: drags the centre of the touches and replaces the
      pending zoom frame by one for these touches. */
  function PinchMove(s: State, helpers: Helpers, a: Point, b: Point): (r: State)
    ensures r == Drag(s, helpers.getCenter(a, b)).(rafZoom := Some(PendingZoom(a, b, helpers.getCenter(a, b))))
    ensures Valid(s) ==> Valid(r)
  {
    var center := helpers.getCenter(a, b);
    Drag(s, center).(rafZoom := Some(PendingZoom(a, b, center)))
  }

  /** The zoom a pinch frame asks for: the zoom prop scaled by the ratio of
      the new distance to the remembered one. */
  function PinchZoom(props: Props, distance: real, lastDistance: real): (r: real)
    requires lastDistance != 0.0
    ensures r * lastDistance == props.zoom * distance
    ensures distance == lastDistance ==> r == props.zoom
  {
    props.zoom * (distance / lastDistance)
  }

  /** The zoom frame firing: the pinch zoom is applied at the touches'
      centre, and the new distance is remembered. */
  function ZoomFrame(s: State, props: Props, helpers: Helpers): (r: State)
    requires WellFormed(props)
    requires s.rafZoom.Some? ==> s.lastPinchDistance != 0.0
    ensures r.rafZoom.None?
    ensures s.rafZoom.None? ==> r == s
    ensures s.rafZoom.Some? ==>
      r == s.(rafZoom := None,
              lastPinchDistance := helpers.getDistanceBetweenPoints(s.rafZoom.value.pointA, s.rafZoom.value.pointB),
              log := s.log + ZoomCallbacks(s, props, helpers,
                               PinchZoom(props, helpers.getDistanceBetweenPoints(s.rafZoom.value.pointA, s.rafZoom.value.pointB),
                                         s.lastPinchDistance),
                               s.rafZoom.value.center))
    ensures Valid(s) ==> Valid(r)
  {
    match s.rafZoom
    case None => s
    case Some(pz) =>
      var distance := helpers.getDistanceBetweenPoints(pz.pointA, pz.pointB);
      var newZoom := PinchZoom(props, distance, s.lastPinchDistance);
      s.(rafZoom := None, lastPinchDistance := distance,
         log := s.log + ZoomCallbacks(s, props, helpers, newZoom, pz.center))
  }

  /** `onMouseDown`: registers the mouse listeners and starts a drag. */
  function MouseDown(s: State, props: Props, p: Point): (r: State)
    ensures r.listeners == s.listeners + {MouseMoveListener, MouseUpListener}
    ensures r == DragStart(s, props, p).(listeners := r.listeners)
    ensures Valid(s) ==> Valid(r)
  {
    DragStart(s.(listeners := s.listeners + {MouseMoveListener, MouseUpListener}), props, p)
  }

  /** `onTouchStart`: registers the touch listeners, then starts a pinch for
      two touches, a drag for one, and nothing else for any other count. */
  function TouchStart(s: State, props: Props, helpers: Helpers, touches: seq<Point>): (r: State)
    ensures r.listeners == s.listeners + {TouchMoveListener, TouchEndListener}
    ensures |touches| == 2 ==>
      r == PinchStart(s, props, helpers, touches[0], touches[1]).(listeners := r.listeners)
    ensures |touches| == 1 ==> r == DragStart(s, props, touches[0]).(listeners := r.listeners)
    ensures |touches| != 1 && |touches| != 2 ==> r == s.(listeners := r.listeners)
    ensures Valid(s) ==> Valid(r)
  {
    var s1 := s.(listeners := s.listeners + {TouchMoveListener, TouchEndListener});
    if |touches| == 2 then PinchStart(s1, props, helpers, touches[0], touches[1])
    else if |touches| == 1 then DragStart(s1, props, touches[0])
    else s1
  }

  /** `onTouchMove`: a pinch move for two touches, a drag for one, nothing
      for any other count. */
  function TouchMove(s: State, helpers: Helpers, touches: seq<Point>): (r: State)
    ensures |touches| == 2 ==> r == PinchMove(s, helpers, touches[0], touches[1])
    ensures |touches| == 1 ==> r == Drag(s, touches[0])
    ensures |touches| != 1 && |touches| != 2 ==> r == s
    ensures r.log == s.log && r.lastPinchDistance == s.lastPinchDistance && r.cropSize == s.cropSize
    ensures Valid(s) ==> Valid(r)
  {
    if |touches| == 2 then PinchMove(s, helpers, touches[0], touches[1])
    else if |touches| == 1 then Drag(s, touches[0])
    else s
  }

  /** The zoom a wheel event asks for. */
  function WheelZoom(props: Props, deltaY: real): (r: real)
    ensures deltaY == 0.0 || props.zoomSpeed == 0.0 ==> r == props.zoom
    ensures props.zoomSpeed > 0.0 ==> (deltaY > 0.0 <==> r < props.zoom)
  {
    props.zoom - (deltaY * props.zoomSpeed) / 200.0
  }

  /** `onWheel`: zooms at the pointer, notifies the start of an interaction
      if the wheel was not already active, and (re)arms the wheel timeout. */
  function Wheel(s: State, props: Props, helpers: Helpers, point: Point, deltaY: real): (r: State)
    requires WellFormed(props)
    ensures r.hasWheelJustStarted && r.wheelTimer
    ensures r.log == s.log + ZoomCallbacks(s, props, helpers, WheelZoom(props, deltaY), point)
                           + (if s.hasWheelJustStarted then [] else [InteractionStart])
    ensures r == s.(hasWheelJustStarted := true, wheelTimer := true, log := r.log)
    ensures Valid(s) ==> Valid(r)
  {
    var s1 := s.(log := s.log + ZoomCallbacks(s, props, helpers, WheelZoom(props, deltaY), point));
    var s2 := if !s1.hasWheelJustStarted then s1.(hasWheelJustStarted := true, log := s1.log + [InteractionStart])
              else s1;
    s2.(wheelTimer := true)
  }

  /** The wheel timeout firing: the wheel becomes inactive and the end of the
      interaction is notified.  Without a pending timeout nothing fires. */
  function TimerFire(s: State): (r: State)
    ensures !r.hasWheelJustStarted || r == s
    ensures !r.wheelTimer
    ensures s.wheelTimer ==> r == s.(wheelTimer := false, hasWheelJustStarted := false, log := s.log + [InteractionEnd])
    ensures !s.wheelTimer ==> r == s
    ensures Valid(s) ==> Valid(r)
  {
    if s.wheelTimer then s.(wheelTimer := false, hasWheelJustStarted := false, log := s.log + [InteractionEnd])
    else s
  }

  /** `recomputeCropPosition`: proposes the (restricted) crop prop and emits
      the crop data.  It runs also before a crop size is known (on a change
      of the zoom prop); then the position is still proposed, and no crop
      data follows. */
  function RecomputeCropPosition(s: State, props: Props, helpers: Helpers): (r: State)
    requires WellFormed(props)
    ensures r == s.(log := r.log)
    ensures |r.log| > |s.log| && r.log[..|s.log|] == s.log
    ensures r.log[|s.log|..] ==
      [CropChange(Restricted(props.restrictPosition, helpers, props.crop, s.imageSize, s.cropSize, props.zoom))]
      + CropDataCallbacks(s, props, helpers)
    ensures !props.restrictPosition ==> r.log[|s.log|] == CropChange(props.crop)
    ensures s.cropSize.None? || !props.onCropComplete ==> |r.log| == |s.log| + 1
  {
    var newPosition := Restricted(props.restrictPosition, helpers, props.crop, s.imageSize, s.cropSize, props.zoom);
    s.(log := s.log + [CropChange(newPosition)] + CropDataCallbacks(s, props, helpers))
  }

  /** The fields `computeSizes` stores from a measured image: the rotated
      displayed and natural bounding boxes and the chosen crop size. */
  function Measured(s: State, props: Props, helpers: Helpers, dims: ImageDims, c: real, sn: real): State
  {
    var size := TranslateSize(dims.width, dims.height, c, sn);
    var natural := TranslateSize(dims.naturalWidth, dims.naturalHeight, c, sn);
    s.(imageSize := ImageSize(size.width, size.height, natural.width, natural.height),
       cropSize := Some(ChooseCropSize(props.cropSize, size.width, size.height, props.aspect, helpers.getCropSize)))
  }

  /** `computeSizes`: with a measured image, stores its rotated displayed and
      natural bounding boxes and the chosen crop size and then, as the
      callback of that state update, recomputes the crop position; with a
      measured container, stores its rectangle.  Nothing else changes. */
  function ComputeSizes(s: State, props: Props, helpers: Helpers, image: Option<ImageDims>,
                        container: Option<Rect>, c: real, sn: real): (r: State)
    requires WellFormed(props)
    ensures image.Some? ==>
      var size := TranslateSize(image.value.width, image.value.height, c, sn);
      var natural := TranslateSize(image.value.naturalWidth, image.value.naturalHeight, c, sn);
      r.imageSize == ImageSize(size.width, size.height, natural.width, natural.height) &&
      r.cropSize == Some(ChooseCropSize(props.cropSize, size.width, size.height, props.aspect, helpers.getCropSize))
    ensures image.Some? ==> r.log == RecomputeCropPosition(Measured(s, props, helpers, image.value, c, sn), props, helpers).log
    ensures image.None? ==> r.imageSize == s.imageSize && r.cropSize == s.cropSize && r.log == s.log
    ensures container.Some? ==> r.containerRect == container.value
    ensures container.None? ==> r.containerRect == s.containerRect
    ensures r == s.(imageSize := r.imageSize, cropSize := r.cropSize, containerRect := r.containerRect, log := r.log)
    ensures image.Some? ==> r.imageSize.width >= 0.0 && r.imageSize.height >= 0.0 &&
                            r.imageSize.naturalWidth >= 0.0 && r.imageSize.naturalHeight >= 0.0
    ensures Valid(s) ==> Valid(r)
  {
    var s1 := if image.Some? then RecomputeCropPosition(Measured(s, props, helpers, image.value, c, sn), props, helpers)
              else s;
    if container.Some? then s1.(containerRect := container.value) else s1
  }
}
