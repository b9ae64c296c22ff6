/** The arithmetic of zooming at a point: where an on-screen anchor lies
    relative to the container centre, which image point lies under it, the
    clamping of the requested zoom, and the pan position that keeps that image
    point under the anchor at the new zoom. */
module Zoom {
  import opened Geometry

  /** The measured container rectangle (`getBoundingClientRect`). */
  datatype Rect = Rect(left: real, top: real, width: real, height: real)

  function RectCenter(rect: Rect): Point
  {
    Point(rect.left + rect.width / 2.0, rect.top + rect.height / 2.0)
  }

  /** `getPointOnContainer`: the vector from the anchor `p` to the centre of
      the container. */
  function PointOnContainer(p: Point, rect: Rect): (r: Point)
    ensures r.x == RectCenter(rect).x - p.x && r.y == RectCenter(rect).y - p.y
    ensures p == RectCenter(rect) ==> r == Point(0.0, 0.0)
  {
    Point(rect.width / 2.0 - (p.x - rect.left), rect.height / 2.0 - (p.y - rect.top))
  }

  /** `getPointOnImage`: the unzoomed image coordinate of the container point
      `p` when the image is panned by `crop` and scaled by `zoom`.  Scaling it
      back by `zoom` and removing the pan gives `p` again. */
  function PointOnImage(p: Point, crop: Point, zoom: real): (r: Point)
    requires zoom != 0.0
    ensures r.x * zoom - crop.x == p.x && r.y * zoom - crop.y == p.y
  {
    Point((p.x + crop.x) / zoom, (p.y + crop.y) / zoom)
  }

  /** `Math.min(maxZoom, Math.max(zoom, minZoom))`: never above `maxZoom`,
      not below `minZoom` when the bounds are ordered, the request itself when
      it lies between them, and `maxZoom` when the bounds cross. */
  function ClampZoom(zoom: real, minZoom: real, maxZoom: real): (r: real)
    ensures r <= maxZoom
    ensures minZoom <= maxZoom ==> minZoom <= r
    ensures minZoom <= zoom <= maxZoom ==> r == zoom
    ensures zoom > maxZoom ==> r == maxZoom
    ensures zoom < minZoom <= maxZoom ==> r == minZoom
    ensures minZoom > maxZoom ==> r == maxZoom
  {
    Min(maxZoom, Max(zoom, minZoom))
  }

  /** Clamping twice changes nothing once the bounds are ordered. */
  lemma ClampZoomIdempotent(zoom: real, minZoom: real, maxZoom: real)
    requires minZoom <= maxZoom
    ensures ClampZoom(ClampZoom(zoom, minZoom, maxZoom), minZoom, maxZoom)
         == ClampZoom(zoom, minZoom, maxZoom)
  {
  }

  /** The requested position of `setNewZoom`: the pan that puts the image
      point `target` under the anchor's container point at `newZoom`. */
  function AnchoredPosition(zoomPoint: Point, target: Point, newZoom: real): (r: Point)
    ensures newZoom != 0.0 ==> PointOnImage(zoomPoint, r, newZoom) == target
  {
    Point(target.x * newZoom - zoomPoint.x, target.y * newZoom - zoomPoint.y)
  }

  /** Stationarity of the anchor: the image point under the anchor before the
      zoom is the image point under it after the zoom, at the new position. */
  lemma AnchorStaysPut(zoomPoint: Point, crop: Point, zoom: real, newZoom: real)
    requires zoom != 0.0 && newZoom != 0.0
    ensures var target := PointOnImage(zoomPoint, crop, zoom);
      PointOnImage(zoomPoint, AnchoredPosition(zoomPoint, target, newZoom), newZoom) == target
  {
  }

  /** Zooming to the current zoom leaves the pan position where it is. */
  lemma SameZoomKeepsPosition(zoomPoint: Point, crop: Point, zoom: real)
    requires zoom != 0.0
    ensures AnchoredPosition(zoomPoint, PointOnImage(zoomPoint, crop, zoom), zoom) == crop
  {
  }
}
