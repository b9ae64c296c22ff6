/** Properties of the interaction engine that relate several events: frame
    coalescing (the last event before a frame wins), the wheel debounce
    (one start and one end per burst), the drag session from pointer-down
    to pointer-up, the crop-size guard, and zoom-anchor stationarity. */
module Properties {
  import opened Geometry
  import opened Zoom
  import opened Engine

  // ---------------------------------------------------------------------
  // Counting callbacks

  function Count(log: seq<Callback>, c: Callback): (n: nat)
    ensures n <= |log|
    ensures n == 0 <==> c !in log
    decreases |log|
  {
    if log == [] then 0
    else
      assert forall i :: 1 <= i < |log| ==> log[i] == log[1..][i - 1];
      assert c in log ==> log[0] == c || c in log[1..];
      (if log[0] == c then 1 else 0) + Count(log[1..], c)
  }

  lemma {:induction false} CountAppend(a: seq<Callback>, b: seq<Callback>, c: Callback)
    ensures Count(a + b, c) == Count(a, c) + Count(b, c)
    decreases |a|
  {
    if a == [] {
      assert a + b == b;
    } else {
      assert (a + b)[1..] == a[1..] + b;
      CountAppend(a[1..], b, c);
    }
  }

  /** The callbacks of `setNewZoom` hold no interaction notification. */
  lemma ZoomCallbacksNotify(s: State, props: Props, helpers: Helpers, zoom: real, point: Point)
    requires WellFormed(props)
    ensures Count(ZoomCallbacks(s, props, helpers, zoom, point), InteractionStart) == 0
    ensures Count(ZoomCallbacks(s, props, helpers, zoom, point), InteractionEnd) == 0
  {
    var r := ZoomCallbacks(s, props, helpers, zoom, point);
    assert InteractionStart !in r && InteractionEnd !in r;
  }

  // ---------------------------------------------------------------------
  // Zoom at a point

  /** With restriction off, the crop change of `setNewZoom` puts the image
      point that was under the anchor back under the anchor at the clamped
      zoom. */
  lemma ZoomKeepsAnchor(s: State, props: Props, helpers: Helpers, zoom: real, point: Point)
    requires WellFormed(props) && s.cropSize.Some? && !props.restrictPosition
    requires ClampZoom(zoom, props.minZoom, props.maxZoom) != 0.0
    ensures var zoomPoint := PointOnContainer(point, s.containerRect);
      var cbs := ZoomCallbacks(s, props, helpers, zoom, point);
      PointOnImage(zoomPoint, cbs[0].position, ClampZoom(zoom, props.minZoom, props.maxZoom))
        == PointOnImage(zoomPoint, props.crop, props.zoom)
  {
    var zoomPoint := PointOnContainer(point, s.containerRect);
    AnchorStaysPut(zoomPoint, props.crop, props.zoom, ClampZoom(zoom, props.minZoom, props.maxZoom));
  }

  /** A proposed zoom never exceeds `maxZoom` and is at least `minZoom`
      whenever the bounds are ordered. */
  lemma ZoomProposalBounded(s: State, props: Props, helpers: Helpers, zoom: real, point: Point, i: nat)
    requires WellFormed(props)
    requires i < |ZoomCallbacks(s, props, helpers, zoom, point)|
    requires ZoomCallbacks(s, props, helpers, zoom, point)[i].ZoomChange?
    ensures var z := ZoomCallbacks(s, props, helpers, zoom, point)[i].zoom;
      z <= props.maxZoom && (props.minZoom <= props.maxZoom ==> props.minZoom <= z)
  {
  }

  /** A wheel event aims at the zoom prop minus deltaY * zoomSpeed / 200,
      and with restriction off its crop change keeps the anchor in place. */
  lemma WheelKeepsAnchor(s: State, props: Props, helpers: Helpers, point: Point, deltaY: real)
    requires WellFormed(props) && s.cropSize.Some? && !props.restrictPosition
    requires ClampZoom(WheelZoom(props, deltaY), props.minZoom, props.maxZoom) != 0.0
    ensures var r := Wheel(s, props, helpers, point, deltaY);
      var zoomPoint := PointOnContainer(point, s.containerRect);
      var newZoom := ClampZoom(props.zoom - deltaY * props.zoomSpeed / 200.0, props.minZoom, props.maxZoom);
      |r.log| > |s.log| && r.log[|s.log|].CropChange? &&
      PointOnImage(zoomPoint, r.log[|s.log|].position, newZoom) == PointOnImage(zoomPoint, props.crop, props.zoom)
  {
    ZoomKeepsAnchor(s, props, helpers, WheelZoom(props, deltaY), point);
  }

  // ---------------------------------------------------------------------
  // Drag frames

  /** With restriction off, a pointer back at its start proposes exactly the
      crop the drag started from. */
  lemma DragBackToStart(s: State, props: Props, helpers: Helpers)
    requires s.cropSize.Some? && !props.restrictPosition
    ensures DragPosition(s, props, helpers, s.dragStartPosition) == s.dragStartCrop
  {
  }

  /** A run of pointer moves without a frame in between. */
  function Drags(s: State, pts: seq<Point>): (r: State)
    ensures r.log == s.log
    ensures Valid(s) ==> Valid(r)
    decreases |pts|
  {
    if pts == [] then s else Drags(Drag(s, pts[0]), pts[1..])
  }

  /** Coalescing: after a run of moves only the last pointer is pending, and
      nothing else changed. */
  lemma {:induction false} DragsKeepLast(s: State, pts: seq<Point>)
    requires s.cropSize.Some? && |pts| > 0
    ensures Drags(s, pts) == s.(rafDrag := Some(pts[|pts| - 1]))
    decreases |pts|
  {
    if |pts| > 1 {
      DragsKeepLast(Drag(s, pts[0]), pts[1..]);
    }
  }

  /** Without a crop size a run of moves changes nothing. */
  lemma {:induction false} DragsWithoutCropSize(s: State, pts: seq<Point>)
    requires s.cropSize.None?
    ensures Drags(s, pts) == s
    decreases |pts|
  {
    if pts != [] {
      DragsWithoutCropSize(Drag(s, pts[0]), pts[1..]);
    }
  }

  /** The frame after a run of moves invokes one crop change, for the last
      pointer only. */
  lemma CoalescedDragFrame(s: State, props: Props, helpers: Helpers, pts: seq<Point>)
    requires Valid(s) && s.cropSize.Some? && |pts| > 0
    ensures DragFrame(Drags(s, pts), props, helpers)
         == s.(rafDrag := None, log := s.log + [CropChange(DragPosition(s, props, helpers, pts[|pts| - 1]))])
  {
    DragsKeepLast(s, pts);
    var d := Drags(s, pts);
    var last := pts[|pts| - 1];
    assert d == s.(rafDrag := Some(last));
    assert DragPosition(d, props, helpers, last) == DragPosition(s, props, helpers, last);
  }

  /** A run of touch moves without a frame in between. */
  function TouchMoves(s: State, helpers: Helpers, moves: seq<seq<Point>>): (r: State)
    ensures r.log == s.log && r.lastPinchDistance == s.lastPinchDistance && r.cropSize == s.cropSize
    ensures Valid(s) ==> Valid(r)
    decreases |moves|
  {
    if moves == [] then s else TouchMoves(TouchMove(s, helpers, moves[0]), helpers, moves[1..])
  }

  /** Coalescing of pinches: after a run of two-finger moves the pending drag
      frame is for the last centre and the pending zoom frame for the last
      pair of touches. */
  lemma {:induction false} PinchMovesKeepLast(s: State, helpers: Helpers, moves: seq<seq<Point>>)
    requires s.cropSize.Some? && |moves| > 0
    requires forall i :: 0 <= i < |moves| ==> |moves[i]| == 2
    ensures var last := moves[|moves| - 1];
      var center := helpers.getCenter(last[0], last[1]);
      TouchMoves(s, helpers, moves) == s.(rafDrag := Some(center), rafZoom := Some(PendingZoom(last[0], last[1], center)))
    decreases |moves|
  {
    if |moves| > 1 {
      assert forall i :: 0 <= i < |moves[1..]| ==> |moves[1..][i]| == 2 by {
        forall i | 0 <= i < |moves[1..]| ensures |moves[1..][i]| == 2 {
          assert moves[1..][i] == moves[i + 1];
        }
      }
      PinchMovesKeepLast(TouchMove(s, helpers, moves[0]), helpers, moves[1..]);
    }
  }

  /** The zoom frame after a run of two-finger moves rescales the zoom prop
      by the last pair's distance over the remembered distance at the last
      centre, and remembers that distance. */
  lemma CoalescedZoomFrame(s: State, props: Props, helpers: Helpers, moves: seq<seq<Point>>)
    requires WellFormed(props) && s.cropSize.Some? && |moves| > 0 && s.lastPinchDistance != 0.0
    requires forall i :: 0 <= i < |moves| ==> |moves[i]| == 2
    ensures var last := moves[|moves| - 1];
      var center := helpers.getCenter(last[0], last[1]);
      var distance := helpers.getDistanceBetweenPoints(last[0], last[1]);
      var r := ZoomFrame(TouchMoves(s, helpers, moves), props, helpers);
      r.lastPinchDistance == distance && r.rafZoom.None? && r.rafDrag == Some(center) &&
      r.log == s.log + ZoomCallbacks(s, props, helpers, PinchZoom(props, distance, s.lastPinchDistance), center)
  {
    PinchMovesKeepLast(s, helpers, moves);
    var m := TouchMoves(s, helpers, moves);
    var last := moves[|moves| - 1];
    var center := helpers.getCenter(last[0], last[1]);
    var distance := helpers.getDistanceBetweenPoints(last[0], last[1]);
    var z := PinchZoom(props, distance, s.lastPinchDistance);
    assert ZoomCallbacks(m, props, helpers, z, center) == ZoomCallbacks(s, props, helpers, z, center);
  }

  // ---------------------------------------------------------------------
  // Sessions

  /** Without a crop size no position, zoom or crop data is proposed: moves
      and frames are silent, and stopping a drag only notifies its end. */
  lemma NoCropSizeNoProposal(s: State, props: Props, helpers: Helpers, zoom: real, point: Point)
    requires WellFormed(props) && Valid(s) && s.cropSize.None?
    ensures Drag(s, point) == s
    ensures DragFrame(s, props, helpers) == s
    ensures ZoomCallbacks(s, props, helpers, zoom, point) == []
    ensures CropDataCallbacks(s, props, helpers) == []
    ensures DragStopped(s, props, helpers).log == s.log + [InteractionEnd]
  {
  }

  /** A mouse drag from pointer-down through a run of moves, one frame and
      pointer-up: the listeners are released, and the callbacks are the start,
      one crop change for the last pointer (the start crop moved by the
      pointer's offset when restriction is off), the crop data and the end. */
  lemma {:induction false} MouseDragSession(s: State, down: Props, frame: Props, up: Props, helpers: Helpers,
                                            start: Point, pts: seq<Point>)
    requires Valid(s) && s.cropSize.Some? && |pts| > 0 && WellFormed(up) && !frame.restrictPosition
    ensures var t := DragStopped(DragFrame(Drags(MouseDown(s, down, start), pts), frame, helpers), up, helpers);
      var last := pts[|pts| - 1];
      t.listeners == {} &&
      t.log == s.log + [InteractionStart,
                        CropChange(Point(down.crop.x + (last.x - start.x), down.crop.y + (last.y - start.y)))]
                     + CropDataCallbacks(s, up, helpers) + [InteractionEnd]
  {
    var s1 := MouseDown(s, down, start);
    CoalescedDragFrame(s1, frame, helpers, pts);
    var s2 := DragFrame(Drags(s1, pts), frame, helpers);
    assert s2.cropSize == s.cropSize && s2.imageSize == s.imageSize;
    assert CropDataCallbacks(s2, up, helpers) == CropDataCallbacks(s, up, helpers);
  }

  /** Touch dispatch: one touch starts a drag and two start a pinch; any
      other count only registers the listeners, which a later stop releases. */
  lemma TouchStartDispatch(s: State, props: Props, helpers: Helpers, touches: seq<Point>)
    ensures var r := TouchStart(s, props, helpers, touches);
      (|touches| == 1 ==> r.dragStartPosition == touches[0] && r.log == s.log + [InteractionStart]) &&
      (|touches| == 2 ==> r.dragStartPosition == helpers.getCenter(touches[0], touches[1]) &&
                          r.lastPinchDistance == helpers.getDistanceBetweenPoints(touches[0], touches[1]) &&
                          r.log == s.log + [InteractionStart]) &&
      (|touches| != 1 && |touches| != 2 ==> r.log == s.log && r.dragStartPosition == s.dragStartPosition) &&
      (|touches| != 1 && |touches| != 2 ==> r == s.(listeners := s.listeners + {TouchMoveListener, TouchEndListener})) &&
      (|touches| != 2 ==> r.lastPinchDistance == s.lastPinchDistance) &&
      r.dragStartCrop == (if |touches| == 1 || |touches| == 2 then props.crop else s.dragStartCrop) &&
      TouchMoveListener in r.listeners && TouchEndListener in r.listeners
  {
  }

  // ---------------------------------------------------------------------
  // Wheel debounce

  datatype WheelInput = WheelInput(props: Props, point: Point, deltaY: real)

  predicate AllWellFormed(ws: seq<WheelInput>)
  {
    forall i :: 0 <= i < |ws| ==> WellFormed(ws[i].props)
  }

  /** A run of wheel events without the timeout firing in between. */
  function Wheels(s: State, helpers: Helpers, ws: seq<WheelInput>): (r: State)
    requires AllWellFormed(ws)
    ensures |ws| > 0 ==> r.hasWheelJustStarted && r.wheelTimer
    ensures |s.log| <= |r.log| && r.log[..|s.log|] == s.log
    decreases |ws|
  {
    if ws == [] then s
    else
      assert AllWellFormed(ws[1..]) by {
        forall i | 0 <= i < |ws[1..]| ensures WellFormed(ws[1..][i].props) {
          assert ws[1..][i] == ws[i + 1];
        }
      }
      Wheels(Wheel(s, ws[0].props, helpers, ws[0].point, ws[0].deltaY), helpers, ws[1..])
  }

  lemma CountSplit(log: seq<Callback>, i: nat, j: nat, c: Callback)
    requires i <= j <= |log|
    ensures Count(log[i..], c) == Count(log[i..j], c) + Count(log[j..], c)
  {
    assert log[i..] == log[i..j] + log[j..];
    CountAppend(log[i..j], log[j..], c);
  }

  /** One wheel event notifies a start exactly when the wheel was quiet, and
      never an end. */
  lemma WheelNotifies(s: State, w: WheelInput, helpers: Helpers)
    requires WellFormed(w.props)
    ensures var s1 := Wheel(s, w.props, helpers, w.point, w.deltaY);
      Count(s1.log[|s.log|..], InteractionStart) == (if s.hasWheelJustStarted then 0 else 1) &&
      Count(s1.log[|s.log|..], InteractionEnd) == 0
  {
    var s1 := Wheel(s, w.props, helpers, w.point, w.deltaY);
    var zs := ZoomCallbacks(s, w.props, helpers, WheelZoom(w.props, w.deltaY), w.point);
    var notified: seq<Callback> := if s.hasWheelJustStarted then [] else [InteractionStart];
    ZoomCallbacksNotify(s, w.props, helpers, WheelZoom(w.props, w.deltaY), w.point);
    CountAppend(zs, notified, InteractionStart);
    CountAppend(zs, notified, InteractionEnd);
    assert s1.log[|s.log|..] == zs + notified;
  }

  /** A burst of wheel events notifies the start of an interaction once if
      the wheel was quiet before and not at all if it was active, never
      notifies an end, and leaves every other field as it was. */
  lemma {:induction false} WheelBurst(s: State, helpers: Helpers, ws: seq<WheelInput>)
    requires AllWellFormed(ws) && |ws| > 0
    ensures var r := Wheels(s, helpers, ws);
      Count(r.log[|s.log|..], InteractionStart) == (if s.hasWheelJustStarted then 0 else 1) &&
      Count(r.log[|s.log|..], InteractionEnd) == 0 &&
      r == s.(hasWheelJustStarted := true, wheelTimer := true, log := r.log)
    decreases |ws|
  {
    var w := ws[0];
    var s1 := Wheel(s, w.props, helpers, w.point, w.deltaY);
    WheelNotifies(s, w, helpers);
    if |ws| == 1 {
      assert Wheels(s, helpers, ws) == Wheels(s1, helpers, []);
    } else {
      var rest := ws[1..];
      assert AllWellFormed(rest) by {
        forall i | 0 <= i < |rest| ensures WellFormed(rest[i].props) {
          assert rest[i] == ws[i + 1];
        }
      }
      assert Wheels(s, helpers, ws) == Wheels(s1, helpers, rest);
      WheelBurst(s1, helpers, rest);
      var r := Wheels(s1, helpers, rest);
      assert r.log[|s.log|..|s1.log|] == s1.log[|s.log|..];
      CountSplit(r.log, |s.log|, |s1.log|, InteractionStart);
      CountSplit(r.log, |s.log|, |s1.log|, InteractionEnd);
    }
  }

  /** The timeout appends exactly one interaction-end to any suffix of the
      log. */
  lemma TimeoutEnds(r: State, k: nat)
    requires r.wheelTimer && k <= |r.log|
    ensures var t := TimerFire(r);
      t.log[k..] == r.log[k..] + [InteractionEnd] &&
      Count(t.log[k..], InteractionStart) == Count(r.log[k..], InteractionStart) &&
      Count(t.log[k..], InteractionEnd) == Count(r.log[k..], InteractionEnd) + 1
  {
    var t := TimerFire(r);
    var e := r.log[k..];
    assert t.log[k..] == e + [InteractionEnd];
    CountAppend(e, [InteractionEnd], InteractionStart);
    CountAppend(e, [InteractionEnd], InteractionEnd);
    assert Count([InteractionEnd], InteractionStart) == 0;
    assert Count([InteractionEnd], InteractionEnd) == 1;
  }

  /** From a quiet wheel, a burst followed by the timeout yields exactly one
      start and exactly one end, the end last, and leaves the wheel quiet. */
  lemma BurstThenTimeout(s: State, helpers: Helpers, ws: seq<WheelInput>)
    requires AllWellFormed(ws) && |ws| > 0 && !s.hasWheelJustStarted
    ensures var t := TimerFire(Wheels(s, helpers, ws));
      var e := t.log[|s.log|..];
      |t.log| > |s.log| && t.log[..|s.log|] == s.log &&
      Count(e, InteractionStart) == 1 && Count(e, InteractionEnd) == 1 && e[|e| - 1] == InteractionEnd &&
      !t.hasWheelJustStarted && !t.wheelTimer && TimerFire(t) == t
  {
    var r := Wheels(s, helpers, ws);
    WheelBurst(s, helpers, ws);
    TimeoutEnds(r, |s.log|);
  }
}
