/**
 * Shared vocabulary of the visualizations: points in mathematical coordinates,
 * axis-aligned bounding boxes built by a running min/max fold, and the uniform
 * "fit into 90% of the canvas" transform that every attractor module applies.
 */
module Geometry {

  datatype Point = Point(x: real, y: real)

  const Origin: Point := Point(0.0, 0.0)

  /** An axis-aligned box; Lorenz uses the second axis for z. */
  datatype Box = Box(minX: real, maxX: real, minY: real, maxY: real)

  /** A line drawn from one point to another (p.line). */
  datatype Segment = Segment(from: Point, to: Point)

  /** What one call of a visualization's draw puts on the canvas. */
  datatype Frame =
    | Placeholder(message: string)      // centred text instead of geometry
    | Blank                             // nothing at all
    | Dots(points: seq<Point>)          // p.point per element
    | Polyline(vertices: seq<Point>)    // beginShape / vertex / endShape
    | Lines(segments: seq<Segment>)     // p.line per element

  /** Fraction of the canvas a fitted box may occupy on each axis. */
  const Padding: real := 0.9

  function Min(a: real, b: real): (r: real)
    ensures r <= a && r <= b && (r == a || r == b)
  {
    if a <= b then a else b
  }

  function Max(a: real, b: real): (r: real)
    ensures r >= a && r >= b && (r == a || r == b)
  {
    if a >= b then a else b
  }

  predicate InBox(p: Point, b: Box) {
    b.minX <= p.x <= b.maxX && b.minY <= p.y <= b.maxY
  }

  predicate Ordered(b: Box) {
    b.minX <= b.maxX && b.minY <= b.maxY
  }

  /** Box a lies inside box b. */
  predicate Within(a: Box, b: Box) {
    b.minX <= a.minX && a.maxX <= b.maxX && b.minY <= a.minY && a.maxY <= b.maxY
  }

  function PointBox(p: Point): Box {
    Box(p.x, p.x, p.y, p.y)
  }

  /** One step of the running min/max fold. */
  function Extend(b: Box, p: Point): (r: Box)
    ensures InBox(p, r) && Within(b, r)
    ensures Ordered(b) ==> Ordered(r)
  {
    Box(Min(b.minX, p.x), Max(b.maxX, p.x), Min(b.minY, p.y), Max(b.maxY, p.y))
  }

  /**
   * The box of a non-empty point sequence: seeded from the first point, then
   * widened by every later point in order.
   */
  function BoundsOf(pts: seq<Point>): Box
    requires |pts| > 0
  {
    if |pts| == 1 then PointBox(pts[0])
    else Extend(BoundsOf(pts[..|pts| - 1]), pts[|pts| - 1])
  }

  /** Every folded point lies in the folded box, and the box is ordered. */
  lemma {:induction false} BoundsOfContains(pts: seq<Point>)
    requires |pts| > 0
    ensures Ordered(BoundsOf(pts))
    ensures forall i :: 0 <= i < |pts| ==> InBox(pts[i], BoundsOf(pts))
  {
    if |pts| > 1 {
      var init := pts[..|pts| - 1];
      BoundsOfContains(init);
      forall i | 0 <= i < |pts| ensures InBox(pts[i], BoundsOf(pts)) {
        if i < |pts| - 1 {
          assert pts[i] == init[i];
        }
      }
    }
  }

  /** The folded box is the smallest box holding every point. */
  lemma {:induction false} BoundsOfSmallest(pts: seq<Point>, b: Box)
    requires |pts| > 0
    requires forall i :: 0 <= i < |pts| ==> InBox(pts[i], b)
    ensures Within(BoundsOf(pts), b)
  {
    if |pts| > 1 {
      var init := pts[..|pts| - 1];
      forall i | 0 <= i < |init| ensures InBox(init[i], b) {
        assert init[i] == pts[i];
      }
      BoundsOfSmallest(init, b);
      assert InBox(pts[|pts| - 1], b);
    }
  }

  function Center(b: Box): Point {
    Point((b.minX + b.maxX) / 2.0, (b.minY + b.maxY) / 2.0)
  }

  /**
   * Uniform scale that makes a dx-by-dy extent take up at most Padding of a
   * w-by-h canvas: min(0.9 w / dx, 0.9 h / dy).
   */
  function FitScale(w: real, h: real, dx: real, dy: real): (r: real)
    requires dx > 0.0 && dy > 0.0
    ensures w > 0.0 && h > 0.0 ==> r > 0.0
    ensures r * dx <= Padding * w && r * dy <= Padding * h
    ensures r * dx == Padding * w || r * dy == Padding * h
  {
    var sx := Padding * w / dx;
    var sy := Padding * h / dy;
    assert sx * dx == Padding * w;
    assert sy * dy == Padding * h;
    if sx <= sy then
      MulMonotone(dy, sx, sy);
      sx
    else
      MulMonotone(dx, sy, sx);
      sy
  }

  /** translate(w/2, h/2); scale(s); translate(-c.x, -c.y), applied to p. */
  function ToScreen(p: Point, c: Point, s: real, w: real, h: real): (r: Point)
    ensures p == c ==> r == Point(w / 2.0, h / 2.0)
  {
    Point(w / 2.0 + s * (p.x - c.x), h / 2.0 + s * (p.y - c.y))
  }

  /** Every point mapped through ToScreen, in order. */
  function FitAll(pts: seq<Point>, c: Point, s: real, w: real, h: real): (r: seq<Point>)
    ensures |r| == |pts|
    ensures forall i :: 0 <= i < |pts| ==> r[i] == ToScreen(pts[i], c, s, w, h)
  {
    seq(|pts|, i requires 0 <= i < |pts| => ToScreen(pts[i], c, s, w, h))
  }

  /** The central Padding fraction of a w-by-h canvas. */
  predicate InCentralRegion(q: Point, w: real, h: real) {
    (1.0 - Padding) / 2.0 * w <= q.x <= (1.0 + Padding) / 2.0 * w &&
    (1.0 - Padding) / 2.0 * h <= q.y <= (1.0 + Padding) / 2.0 * h
  }

  lemma MulMonotone(k: real, a: real, b: real)
    requires k >= 0.0 && a <= b
    ensures k * a <= k * b
  {
  }

  /** One axis of FitInsideCanvas. */
  lemma AxisInside(v: real, lo: real, hi: real, d: real, s: real, size: real)
    requires lo <= v <= hi && hi - lo <= d && d > 0.0 && size > 0.0
    requires 0.0 < s && s * d <= Padding * size
    ensures (1.0 - Padding) / 2.0 * size <= size / 2.0 + s * (v - (lo + hi) / 2.0)
    ensures size / 2.0 + s * (v - (lo + hi) / 2.0) <= (1.0 + Padding) / 2.0 * size
  {
  }

  /**
   * A point of box b, mapped with the box centre as origin and the fitted
   * scale of divisors dx >= width(b), dy >= height(b), lands in the central
   * Padding fraction of a canvas of positive size.
   */
  lemma FitInsideCanvas(p: Point, b: Box, w: real, h: real, dx: real, dy: real)
    requires InBox(p, b)
    requires w > 0.0 && h > 0.0
    requires dx > 0.0 && dy > 0.0 && b.maxX - b.minX <= dx && b.maxY - b.minY <= dy
    ensures InCentralRegion(ToScreen(p, Center(b), FitScale(w, h, dx, dy), w, h), w, h)
  {
    var s := FitScale(w, h, dx, dy);
    AxisInside(p.x, b.minX, b.maxX, dx, s, w);
    AxisInside(p.y, b.minY, b.maxY, dy, s, h);
  }

  /** The same for a whole sequence of points inside b. */
  lemma FitAllInsideCanvas(pts: seq<Point>, b: Box, w: real, h: real, dx: real, dy: real)
    requires forall i :: 0 <= i < |pts| ==> InBox(pts[i], b)
    requires w > 0.0 && h > 0.0
    requires dx > 0.0 && dy > 0.0 && b.maxX - b.minX <= dx && b.maxY - b.minY <= dy
    ensures forall q :: q in FitAll(pts, Center(b), FitScale(w, h, dx, dy), w, h) ==> InCentralRegion(q, w, h)
  {
    var r := FitAll(pts, Center(b), FitScale(w, h, dx, dy), w, h);
    forall q | q in r ensures InCentralRegion(q, w, h) {
      var i :| 0 <= i < |r| && r[i] == q;
      FitInsideCanvas(pts[i], b, w, h, dx, dy);
    }
  }

  /** Draws every point under the transform, in order (the p.point loops). */
  method PlotAll(pts: seq<Point>, c: Point, s: real, w: real, h: real) returns (r: seq<Point>)
    ensures r == FitAll(pts, c, s, w, h)
  {
    r := [];
    var j := 0;
    while j < |pts|
      invariant 0 <= j <= |pts|
      invariant |r| == j
      invariant forall k :: 0 <= k < j ==> r[k] == ToScreen(pts[k], c, s, w, h)
    {
      r := r + [ToScreen(pts[j], c, s, w, h)];
      j := j + 1;
    }
  }
}
