/** The `Cropper` component as an object: the fields the event handlers
    update in place, and one method per handler.  Each method is proved to
    leave the fields as the corresponding function of `Engine` says, so every
    property proved about those functions holds of the object.

    The handlers thus appear twice on purpose: `Engine` states each one as a
    function of the old state, which lemmas can compose over whole event
    sequences; the methods here are the source's in-place updates, and their
    postconditions tie them to those functions.  The methods the document
    invokes through a listener require that listener to be registered. */
module Component {
  import opened Geometry
  import opened Zoom
  import opened Engine

  class Cropper {
    const helpers: Helpers
    var containerRect: Rect
    var imageSize: ImageSize
    var dragStartPosition: Point
    var dragStartCrop: Point
    var lastPinchDistance: real
    var rafDrag: Option<Point>
    var rafZoom: Option<PendingZoom>
    var wheelTimer: bool
    var cropSize: Option<Size>
    var hasWheelJustStarted: bool
    var listeners: set<Listener>
    var log: seq<Callback>

    /** The fields as a value. */
    ghost function Snapshot(): State
      reads this
    {
      State(containerRect, imageSize, dragStartPosition, dragStartCrop, lastPinchDistance,
            rafDrag, rafZoom, wheelTimer, cropSize, hasWheelJustStarted, listeners, log)
    }

    ghost predicate Valid()
      reads this
    {
      Engine.Valid(Snapshot())
    }

    constructor (helpers: Helpers)
      ensures this.helpers == helpers
      ensures Snapshot() == Initial() && Valid()
    {
      this.helpers := helpers;
      containerRect := Rect(0.0, 0.0, 0.0, 0.0);
      imageSize := ImageSize(0.0, 0.0, 0.0, 0.0);
      dragStartPosition := Point(0.0, 0.0);
      dragStartCrop := Point(0.0, 0.0);
      lastPinchDistance := 0.0;
      rafDrag := None;
      rafZoom := None;
      wheelTimer := false;
      cropSize := None;
      hasWheelJustStarted := false;
      listeners := {};
      log := [];
    }

    /** `cleanEvents` */
    method CleanEvents()
      modifies this
      ensures Snapshot() == Engine.CleanEvents(old(Snapshot()))
    {
      listeners := listeners - {MouseMoveListener, MouseUpListener, TouchMoveListener, TouchEndListener};
      ghost var was := old(Snapshot());
      assert Snapshot() == was.(listeners := listeners);
    }

    /** `onDragStart` */
    method DragStart(props: Props, p: Point)
      modifies this
      ensures Snapshot() == Engine.DragStart(old(Snapshot()), props, p)
    {
      dragStartPosition := p;
      dragStartCrop := Point(props.crop.x, props.crop.y);
      log := log + [InteractionStart];
    }

    /** `onDrag` */
    method Drag(p: Point)
      modifies this
      ensures Snapshot() == Engine.Drag(old(Snapshot()), p)
    {
      if cropSize.None? {
        return;
      }
      rafDrag := Some(p);
    }

    /** The pending drag frame firing. */
    method DragFrame(props: Props)
      requires Valid()
      modifies this
      ensures Valid()
      ensures Snapshot() == Engine.DragFrame(old(Snapshot()), props, helpers)
    {
      if rafDrag.None? {
        return;
      }
      var p := rafDrag.value;
      var offsetX := p.x - dragStartPosition.x;
      var offsetY := p.y - dragStartPosition.y;
      var requested := Point(dragStartCrop.x + offsetX, dragStartCrop.y + offsetY);
      var newPosition := Restricted(props.restrictPosition, helpers, requested, imageSize, cropSize, props.zoom);
      assert newPosition == DragPosition(old(Snapshot()), props, helpers, p);
      rafDrag := None;
      log := log + [CropChange(newPosition)];
    }

    /** `emitCropData` */
    method EmitCropData(props: Props)
      requires WellFormed(props)
      modifies this
      ensures Snapshot() == old(Snapshot()).(log := old(log) + CropDataCallbacks(old(Snapshot()), props, helpers))
    {
      if cropSize.None? {
        return;
      }
      var restrictedPosition := Restricted(props.restrictPosition, helpers, props.crop, imageSize, cropSize, props.zoom);
      var area := helpers.computeCroppedArea(restrictedPosition, imageSize, cropSize.value, GetAspect(props),
                                             props.zoom, props.restrictPosition);
      if props.onCropComplete {
        log := log + [CropComplete(area)];
      }
    }

    /** `onDragStopped`, delivered by the document only while it is
        registered for `mouseup` or `touchend`. */
    method DragStopped(props: Props)
      requires WellFormed(props)
      requires MouseUpListener in listeners || TouchEndListener in listeners
      requires Valid()
      modifies this
      ensures Valid()
      ensures Snapshot() == Engine.DragStopped(old(Snapshot()), props, helpers)
    {
      CleanEvents();
      EmitCropData(props);
      log := log + [InteractionEnd];
    }

    /** `setNewZoom` */
    method SetNewZoom(props: Props, zoom: real, point: Point)
      requires WellFormed(props)
      modifies this
      ensures Snapshot() == old(Snapshot()).(log := old(log) + ZoomCallbacks(old(Snapshot()), props, helpers, zoom, point))
    {
      if cropSize.None? {
        return;
      }
      var zoomPoint := PointOnContainer(point, containerRect);
      var zoomTarget := PointOnImage(zoomPoint, props.crop, props.zoom);
      var newZoom := ClampZoom(zoom, props.minZoom, props.maxZoom);
      var requested := AnchoredPosition(zoomPoint, zoomTarget, newZoom);
      var newPosition := Restricted(props.restrictPosition, helpers, requested, imageSize, cropSize, newZoom);
      log := log + [CropChange(newPosition)];
      if props.onZoomChange {
        log := log + [ZoomChange(newZoom)];
      }
    }

    /** `onPinchStart` */
    method PinchStart(props: Props, a: Point, b: Point)
      modifies this
      ensures Snapshot() == Engine.PinchStart(old(Snapshot()), props, helpers, a, b)
    {
      lastPinchDistance := helpers.getDistanceBetweenPoints(a, b);
      DragStart(props, helpers.getCenter(a, b));
    }

    /** `onPinchMove` */
    method PinchMove(a: Point, b: Point)
      modifies this
      ensures Snapshot() == Engine.PinchMove(old(Snapshot()), helpers, a, b)
    {
      var center := helpers.getCenter(a, b);
      Drag(center);
      rafZoom := Some(PendingZoom(a, b, center));
    }

    /** The pending zoom frame firing. */
    method ZoomFrame(props: Props)
      requires WellFormed(props)
      requires rafZoom.Some? ==> lastPinchDistance != 0.0
      requires Valid()
      modifies this
      ensures Valid()
      ensures Snapshot() == Engine.ZoomFrame(old(Snapshot()), props, helpers)
    {
      if rafZoom.None? {
        return;
      }
      var pz := rafZoom.value;
      rafZoom := None;
      var distance := helpers.getDistanceBetweenPoints(pz.pointA, pz.pointB);
      var newZoom := PinchZoom(props, distance, lastPinchDistance);
      assert ZoomCallbacks(Snapshot(), props, helpers, newZoom, pz.center)
          == ZoomCallbacks(old(Snapshot()), props, helpers, newZoom, pz.center);
      SetNewZoom(props, newZoom, pz.center);
      lastPinchDistance := distance;
    }

    /** `onMouseDown` */
    method MouseDown(props: Props, p: Point)
      requires Valid()
      modifies this
      ensures Valid()
      ensures Snapshot() == Engine.MouseDown(old(Snapshot()), props, p)
    {
      listeners := listeners + {MouseMoveListener, MouseUpListener};
      DragStart(props, p);
    }

    /** `onMouseMove`, delivered by the document only while it is
        registered for `mousemove`. */
    method MouseMove(p: Point)
      requires MouseMoveListener in listeners
      requires Valid()
      modifies this
      ensures Valid()
      ensures Snapshot() == Engine.Drag(old(Snapshot()), p)
    {
      Drag(p);
    }

    /** `onTouchStart` */
    method TouchStart(props: Props, touches: seq<Point>)
      requires Valid()
      modifies this
      ensures Valid()
      ensures Snapshot() == Engine.TouchStart(old(Snapshot()), props, helpers, touches)
    {
      listeners := listeners + {TouchMoveListener, TouchEndListener};
      if |touches| == 2 {
        PinchStart(props, touches[0], touches[1]);
      } else if |touches| == 1 {
        DragStart(props, touches[0]);
      }
    }

    /** `onTouchMove`, delivered by the document only while it is
        registered for `touchmove`. */
    method TouchMove(touches: seq<Point>)
      requires TouchMoveListener in listeners
      requires Valid()
      modifies this
      ensures Valid()
      ensures Snapshot() == Engine.TouchMove(old(Snapshot()), helpers, touches)
    {
      if |touches| == 2 {
        PinchMove(touches[0], touches[1]);
      } else if |touches| == 1 {
        Drag(touches[0]);
      }
    }

    /** `onWheel` */
    method Wheel(props: Props, point: Point, deltaY: real)
      requires WellFormed(props)
      requires Valid()
      modifies this
      ensures Valid()
      ensures Snapshot() == Engine.Wheel(old(Snapshot()), props, helpers, point, deltaY)
    {
      var newZoom := props.zoom - (deltaY * props.zoomSpeed) / 200.0;
      assert newZoom == WheelZoom(props, deltaY);
      SetNewZoom(props, newZoom, point);
      ghost var zoomed := Snapshot();
      assert zoomed == old(Snapshot()).(log := old(log) + ZoomCallbacks(old(Snapshot()), props, helpers, newZoom, point));
      if !hasWheelJustStarted {
        hasWheelJustStarted := true;
        log := log + [InteractionStart];
      }
      wheelTimer := true;
    }

    /** The wheel timeout firing. */
    method TimerFire()
      requires Valid()
      modifies this
      ensures Valid()
      ensures Snapshot() == Engine.TimerFire(old(Snapshot()))
    {
      if !wheelTimer {
        return;
      }
      wheelTimer := false;
      hasWheelJustStarted := false;
      log := log + [InteractionEnd];
    }

    /** `recomputeCropPosition` */
    method RecomputeCropPosition(props: Props)
      requires WellFormed(props)
      modifies this
      ensures Snapshot() == Engine.RecomputeCropPosition(old(Snapshot()), props, helpers)
    {
      var newPosition := Restricted(props.restrictPosition, helpers, props.crop, imageSize, cropSize, props.zoom);
      log := log + [CropChange(newPosition)];
      EmitCropData(props);
    }

    /** `computeSizes`, given the measured image and container (absent when
        not rendered) and the cosine and sine of the rotation prop. */
    method ComputeSizes(props: Props, image: Option<ImageDims>, container: Option<Rect>, c: real, sn: real)
      requires WellFormed(props)
      requires Valid()
      modifies this
      ensures Valid()
      ensures Snapshot() == Engine.ComputeSizes(old(Snapshot()), props, helpers, image, container, c, sn)
    {
      if image.Some? {
        var dims := image.value;
        var size := TranslateSize(dims.width, dims.height, c, sn);
        var natural := TranslateSize(dims.naturalWidth, dims.naturalHeight, c, sn);
        imageSize := ImageSize(size.width, size.height, natural.width, natural.height);
        cropSize := Some(ChooseCropSize(props.cropSize, size.width, size.height, props.aspect, helpers.getCropSize));
        RecomputeCropPosition(props);
      }
      if container.Some? {
        containerRect := container.value;
      }
    }
  }
}
