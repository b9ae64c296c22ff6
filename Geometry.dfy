/** Point and box geometry of the cropper: rotating a point about a centre and
    the bounding box of a rotated rectangle.  The angle enters the model only
    through its cosine `c` and sine `s`, which are given as reals; the idealised
    real arithmetic stands for the source's floating point. */
module Geometry {

  datatype Point = Point(x: real, y: real)

  datatype Size = Size(width: real, height: real)

  function Min(a: real, b: real): (r: real)
    ensures r <= a && r <= b
    ensures r == a || r == b
  {
    if a <= b then a else b
  }

  function Max(a: real, b: real): (r: real)
    ensures r >= a && r >= b
    ensures r == a || r == b
  {
    if a >= b then a else b
  }

  function Abs(a: real): (r: real)
    ensures r >= 0.0
    ensures r == a || r == -a
  {
    if a < 0.0 then -a else a
  }

  function SquaredDistance(p: Point, q: Point): real
  {
    (p.x - q.x) * (p.x - q.x) + (p.y - q.y) * (p.y - q.y)
  }

  /** `rotate`: the image of (x, y) under the rotation about (xm, ym) whose
      cosine is `c` and sine is `s`.  The centre is a fixed point, and the
      identity rotation moves nothing. */
  function Rotate(x: real, y: real, xm: real, ym: real, c: real, s: real): (r: Point)
    ensures x == xm && y == ym ==> r == Point(xm, ym)
    ensures c == 1.0 && s == 0.0 ==> r == Point(x, y)
  {
    Point((x - xm) * c - (y - ym) * s + xm, (x - xm) * s + (y - ym) * c + ym)
  }

  /** For a genuine rotation (c*c + s*s == 1) every point keeps its distance
      to the centre. */
  lemma RotateKeepsDistance(x: real, y: real, xm: real, ym: real, c: real, s: real)
    requires c * c + s * s == 1.0
    ensures SquaredDistance(Rotate(x, y, xm, ym, c, s), Point(xm, ym))
         == SquaredDistance(Point(x, y), Point(xm, ym))
  {
    var dx, dy := x - xm, y - ym;
    var r := Rotate(x, y, xm, ym, c, s);
    assert r.x - xm == dx * c - dy * s;
    assert r.y - ym == dx * s + dy * c;
    calc {
      (dx * c - dy * s) * (dx * c - dy * s) + (dx * s + dy * c) * (dx * s + dy * c);
      dx * dx * (c * c + s * s) + dy * dy * (c * c + s * s);
      dx * dx + dy * dy;
    }
  }

  /** The accumulator of the reduction in `translateSize`: nothing seen yet
      (the initial `{}`), or the extremes of the points seen so far. */
  datatype Bounds = Empty | Box(minX: real, maxX: real, minY: real, maxY: real)

  predicate Covers(b: Bounds, p: Point)
  {
    b.Box? && b.minX <= p.x <= b.maxX && b.minY <= p.y <= b.maxY
  }

  predicate Ordered(b: Bounds)
  {
    b.Box? ==> b.minX <= b.maxX && b.minY <= b.maxY
  }

  /** One step of the reduction: the first point sets all four extremes,
      every later point widens them. */
  function Include(b: Bounds, p: Point): (r: Bounds)
    ensures Covers(r, p)
    ensures Ordered(b) ==> Ordered(r)
    ensures forall q :: Covers(b, q) ==> Covers(r, q)
  {
    match b
    case Empty => Box(p.x, p.x, p.y, p.y)
    case Box(minX, maxX, minY, maxY) =>
      Box(Min(p.x, minX), Max(p.x, maxX), Min(p.y, minY), Max(p.y, maxY))
  }

  /** The reduction over a sequence of points, left to right: the result
      covers every point and stays ordered, and each of its four extremes is
      attained, by one of the points or by the accumulator it started from. */
  function Reduce(b: Bounds, pts: seq<Point>): (r: Bounds)
    ensures |pts| > 0 || b.Box? ==> r.Box?
    ensures Ordered(b) ==> Ordered(r)
    ensures forall i :: 0 <= i < |pts| ==> Covers(r, pts[i])
    ensures forall q :: Covers(b, q) ==> Covers(r, q)
    ensures r.Box? ==> (exists i :: 0 <= i < |pts| && r.minX == pts[i].x) || (b.Box? && r.minX == b.minX)
    ensures r.Box? ==> (exists i :: 0 <= i < |pts| && r.maxX == pts[i].x) || (b.Box? && r.maxX == b.maxX)
    ensures r.Box? ==> (exists i :: 0 <= i < |pts| && r.minY == pts[i].y) || (b.Box? && r.minY == b.minY)
    ensures r.Box? ==> (exists i :: 0 <= i < |pts| && r.maxY == pts[i].y) || (b.Box? && r.maxY == b.maxY)
    decreases |pts|
  {
    if |pts| == 0 then b
    else
      var r := Reduce(Include(b, pts[0]), pts[1..]);
      assert forall i :: 1 <= i < |pts| ==> pts[i] == pts[1..][i - 1];
      r
  }

  /** The four corners of the w-by-h box, rotated about its centre, in the
      order the source lists them. */
  function Corners(w: real, h: real, c: real, s: real): seq<Point>
  {
    var xm, ym := w / 2.0, h / 2.0;
    [Rotate(0.0, 0.0, xm, ym, c, s), Rotate(w, 0.0, xm, ym, c, s),
     Rotate(w, h, xm, ym, c, s), Rotate(0.0, h, xm, ym, c, s)]
  }

  /** `translateSize`: the size of the axis-aligned bounding box of the
      rotated box.  It is never negative and contains every rotated corner. */
  function TranslateSize(w: real, h: real, c: real, s: real): (r: Size)
    ensures r.width >= 0.0 && r.height >= 0.0
    ensures var b := Reduce(Empty, Corners(w, h, c, s));
      b.Box? && r == Size(b.maxX - b.minX, b.maxY - b.minY)
      && forall i :: 0 <= i < 4 ==> Covers(b, Corners(w, h, c, s)[i])
  {
    var b := Reduce(Empty, Corners(w, h, c, s));
    Size(b.maxX - b.minX, b.maxY - b.minY)
  }

  lemma ReduceFour(p0: Point, p1: Point, p2: Point, p3: Point)
    ensures Reduce(Empty, [p0, p1, p2, p3])
         == Include(Include(Include(Include(Empty, p0), p1), p2), p3)
  {
    var ps := [p0, p1, p2, p3];
    var b1 := Include(Empty, p0);
    var b2 := Include(b1, p1);
    var b3 := Include(b2, p2);
    var b4 := Include(b3, p3);
    assert ps[1..] == [p1, p2, p3];
    assert [p1, p2, p3][1..] == [p2, p3];
    assert [p2, p3][1..] == [p3];
    assert [p3][1..] == [];
    calc {
      Reduce(Empty, ps);
      Reduce(b1, [p1, p2, p3]);
      Reduce(b2, [p2, p3]);
      Reduce(b3, [p3]);
      Reduce(b4, []);
      b4;
    }
  }

  /** The spread of the four values m + (b - a)/2, m + (a + b)/2,
      m + (a - b)/2, m - (a + b)/2, reduced in that order, is |a| + |b|. */
  lemma SpreadOfFour(m: real, a: real, b: real, v0: real, v1: real, v2: real, v3: real)
    requires v0 == m + (b - a) / 2.0 && v1 == m + (a + b) / 2.0
    requires v2 == m + (a - b) / 2.0 && v3 == m - (a + b) / 2.0
    ensures Max(v3, Max(v2, Max(v1, v0))) - Min(v3, Min(v2, Min(v1, v0))) == Abs(a) + Abs(b)
  {
  }

  /** The same four values, reduced starting from m - (a + b)/2. */
  lemma SpreadOfFourShifted(m: real, a: real, b: real, v0: real, v1: real, v2: real, v3: real)
    requires v0 == m - (a + b) / 2.0 && v1 == m + (b - a) / 2.0
    requires v2 == m + (a + b) / 2.0 && v3 == m + (a - b) / 2.0
    ensures Max(v3, Max(v2, Max(v1, v0))) - Min(v3, Min(v2, Min(v1, v0))) == Abs(a) + Abs(b)
  {
  }

  /** Closed form of the rotated bounding box: width |w c| + |h s| and
      height |w s| + |h c|. */
  lemma TranslateSizeFormula(w: real, h: real, c: real, s: real)
    ensures TranslateSize(w, h, c, s) == Size(Abs(w * c) + Abs(h * s), Abs(w * s) + Abs(h * c))
  {
    var xm, ym := w / 2.0, h / 2.0;
    var a, b, a', b' := w * c, h * s, w * s, h * c;
    var p0 := Rotate(0.0, 0.0, xm, ym, c, s);
    var p1 := Rotate(w, 0.0, xm, ym, c, s);
    var p2 := Rotate(w, h, xm, ym, c, s);
    var p3 := Rotate(0.0, h, xm, ym, c, s);
    assert p0 == Point(xm + (b - a) / 2.0, ym - (a' + b') / 2.0);
    assert p1 == Point(xm + (a + b) / 2.0, ym + (a' - b') / 2.0);
    assert p2 == Point(xm + (a - b) / 2.0, ym + (a' + b') / 2.0);
    assert p3 == Point(xm - (a + b) / 2.0, ym + (b' - a') / 2.0);
    ReduceFour(p0, p1, p2, p3);
    assert Corners(w, h, c, s) == [p0, p1, p2, p3];
    SpreadOfFour(xm, a, b, p0.x, p1.x, p2.x, p3.x);
    SpreadOfFourShifted(ym, b', a', p0.y, p1.y, p2.y, p3.y);
  }

  /** At 0 degrees (c = 1, s = 0) the box keeps its size. */
  lemma TranslateSizeUnrotated(w: real, h: real)
    requires w >= 0.0 && h >= 0.0
    ensures TranslateSize(w, h, 1.0, 0.0) == Size(w, h)
  {
    TranslateSizeFormula(w, h, 1.0, 0.0);
  }

  /** At 180 degrees (c = -1, s = 0) the box keeps its size. */
  lemma TranslateSizeHalfTurn(w: real, h: real)
    requires w >= 0.0 && h >= 0.0
    ensures TranslateSize(w, h, -1.0, 0.0) == Size(w, h)
  {
    TranslateSizeFormula(w, h, -1.0, 0.0);
  }

  /** At 90 degrees (c = 0, s = 1) width and height swap. */
  lemma TranslateSizeQuarterTurn(w: real, h: real)
    requires w >= 0.0 && h >= 0.0
    ensures TranslateSize(w, h, 0.0, 1.0) == Size(h, w)
  {
    TranslateSizeFormula(w, h, 0.0, 1.0);
  }

  /** At 270 degrees (c = 0, s = -1) width and height swap. */
  lemma TranslateSizeThreeQuarterTurn(w: real, h: real)
    requires w >= 0.0 && h >= 0.0
    ensures TranslateSize(w, h, 0.0, -1.0) == Size(h, w)
  {
    TranslateSizeFormula(w, h, 0.0, -1.0);
  }
}
