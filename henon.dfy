/**
 * The Henon map visualization: the orbit of (0, 0) under
 * x' = 1 - a x^2 + y, y' = b x is recomputed only when flagged, its bounding
 * box is fitted into 90% of the canvas (a zero range counts as 1), and the
 * fitted points are drawn into an offscreen buffer that every frame blits.
 */
module Henon {
  import opened Geometry
  import opened Orbits

  const DefaultA: real := 1.4
  const DefaultB: real := 0.3
  const DefaultNumPoints: int := 10000

  function HenonStep(a: real, b: real, p: Point): Point {
    Point(1.0 - a * p.x * p.x + p.y, b * p.x)
  }

  function HenonMap(a: real, b: real): Point -> Point {
    p => HenonStep(a, b, p)
  }

  /** The points recalc records: numPoints iterates of (0, 0), none if numPoints <= 0. */
  function HenonPoints(a: real, b: real, numPoints: int): seq<Point> {
    Orbit(HenonMap(a, b), Origin, if numPoints > 0 then numPoints else 0)
  }

  /**
   * Exactly max(numPoints, 0) points are recorded; the first is the step of
   * (0, 0) and each later one is the Henon step of the point before it.
   */
  lemma HenonPointsRecurrence(a: real, b: real, numPoints: int)
    ensures |HenonPoints(a, b, numPoints)| == if numPoints > 0 then numPoints else 0
    ensures numPoints > 0 ==> HenonPoints(a, b, numPoints)[0] == Point(1.0, 0.0)
    ensures forall i :: 0 <= i < |HenonPoints(a, b, numPoints)| - 1 ==>
      HenonPoints(a, b, numPoints)[i + 1] == HenonStep(a, b, HenonPoints(a, b, numPoints)[i])
  {
    OrbitRecurrence(HenonMap(a, b), Origin, if numPoints > 0 then numPoints else 0);
  }

  /** With the default parameters the orbit starts (1, 0), (-0.4, 0.3). */
  lemma DefaultOrbitStart()
    ensures HenonPoints(DefaultA, DefaultB, 2) == [Point(1.0, 0.0), Point(-0.4, 0.3)]
  {
  }

  /** JavaScript's `range || 1`: only a zero range is replaced. */
  function RangeOrOne(range: real): (d: real)
    ensures range >= 0.0 ==> d > 0.0 && range <= d
    ensures range != 0.0 ==> d == range
    ensures range == 0.0 ==> d == 1.0
  {
    if range == 0.0 then 1.0 else range
  }

  /** The uniform scale recalc derives from a box. */
  function HenonScale(box: Box, w: real, h: real): real
    requires Ordered(box)
  {
    FitScale(w, h, RangeOrOne(box.maxX - box.minX), RangeOrOne(box.maxY - box.minY))
  }

  /** The canvas positions recalc draws into the buffer, in recording order. */
  function HenonBuffer(a: real, b: real, numPoints: int, w: real, h: real): seq<Point> {
    var pts := HenonPoints(a, b, numPoints);
    if |pts| == 0 then []
    else
      BoundsOfContains(pts);
      FitAll(pts, Center(BoundsOf(pts)), HenonScale(BoundsOf(pts), w, h), w, h)
  }

  /**
   * The buffer holds one position per recorded point, and on a canvas of
   * positive size each of them lies in its central 90%.
   */
  lemma HenonBufferInCanvas(a: real, b: real, numPoints: int, w: real, h: real)
    requires w > 0.0 && h > 0.0
    ensures |HenonBuffer(a, b, numPoints, w, h)| == if numPoints > 0 then numPoints else 0
    ensures forall q :: q in HenonBuffer(a, b, numPoints, w, h) ==> InCentralRegion(q, w, h)
  {
    var pts := HenonPoints(a, b, numPoints);
    if |pts| > 0 {
      BoundsOfContains(pts);
      var box := BoundsOf(pts);
      FitAllInsideCanvas(pts, box, w, h, RangeOrOne(box.maxX - box.minX), RangeOrOne(box.maxY - box.minY));
    }
  }

  lemma HenonIterate(a: real, b: real, i: nat)
    ensures Iterate(HenonMap(a, b), Origin, i + 1) == HenonStep(a, b, Iterate(HenonMap(a, b), Origin, i))
  {
  }

  /**
   * The recurrence loop of recalc: iterates the map from (0, 0), recording
   * every new point and folding it into running bounds.
   */
  method RecordOrbit(a: real, b: real, numPoints: int)
    returns (pts: seq<Point>, minX: real, maxX: real, minY: real, maxY: real)
    ensures pts == HenonPoints(a, b, numPoints)
    ensures |pts| > 0 ==> Box(minX, maxX, minY, maxY) == BoundsOf(pts)
  {
    ghost var f := HenonMap(a, b);
    ghost var n := if numPoints > 0 then numPoints else 0;
    var x, y := 0.0, 0.0;
    pts := [];
    // Starting from +/-Infinity, the first min/max of each axis is the first point.
    minX, maxX, minY, maxY := 0.0, 0.0, 0.0, 0.0;
    var i := 0;
    while i < numPoints
      invariant 0 <= i <= n
      invariant pts == Orbit(f, Origin, i)
      invariant Point(x, y) == Iterate(f, Origin, i)
      invariant i > 0 ==> Box(minX, maxX, minY, maxY) == BoundsOf(pts)
    {
      ghost var before := pts;
      var next := HenonStep(a, b, Point(x, y));
      assert next == Iterate(f, Origin, i + 1) by {
        HenonIterate(a, b, i);
      }
      x, y := next.x, next.y;
      pts := pts + [next];
      if i == 0 {
        minX, maxX, minY, maxY := x, x, y, y;
      } else {
        assert BoundsOf(pts) == Extend(BoundsOf(before), Point(x, y)) by {
          assert pts[..|pts| - 1] == before;
        }
        minX, maxX := Min(minX, x), Max(maxX, x);
        minY, maxY := Min(minY, y), Max(maxY, y);
      }
      i := i + 1;
    }
  }

  class HenonVisualization {
    const width: real
    const height: real
    var a: real
    var b: real
    var numPoints: int
    var needsRecalc: bool
    /** What the offscreen buffer shows: canvas positions of the drawn points. */
    var buffer: seq<Point>

    /** Outside a pending recalc the buffer matches the parameters. */
    ghost predicate Valid()
      reads this
    {
      !needsRecalc ==> buffer == HenonBuffer(a, b, numPoints, width, height)
    }

    constructor (width: real, height: real)
      ensures Valid()
      ensures this.width == width && this.height == height
      ensures a == DefaultA && b == DefaultB && numPoints == DefaultNumPoints
      ensures needsRecalc && buffer == []
    {
      this.width, this.height := width, height;
      a, b, numPoints := DefaultA, DefaultB, DefaultNumPoints;
      needsRecalc := true;
      buffer := [];
    }

    /** Takes the slider values and always flags a recalc. */
    method UpdateParams(newA: real, newB: real, newNumPoints: int)
      modifies this
      ensures Valid()
      ensures a == newA && b == newB && numPoints == newNumPoints
      ensures needsRecalc && buffer == old(buffer)
    {
      a, b, numPoints := newA, newB, newNumPoints;
      needsRecalc := true;
    }

    method Activate()
      modifies this
      ensures Valid()
      ensures needsRecalc
      ensures a == old(a) && b == old(b) && numPoints == old(numPoints) && buffer == old(buffer)
    {
      needsRecalc := true;
    }

    /** A no-op unless flagged; otherwise regenerates the buffer and clears the flag. */
    method Recalc()
      requires Valid()
      modifies this
      ensures Valid() && !needsRecalc
      ensures a == old(a) && b == old(b) && numPoints == old(numPoints)
      ensures !old(needsRecalc) ==> buffer == old(buffer)
      ensures buffer == HenonBuffer(a, b, numPoints, width, height)
    {
      if !needsRecalc {
        return;
      }
      var pts, minX, maxX, minY, maxY := RecordOrbit(a, b, numPoints);
      buffer := [];
      if |pts| > 0 {
        var rangeX := RangeOrOne(maxX - minX);
        var rangeY := RangeOrOne(maxY - minY);
        var scaleF := Min(width * Padding / rangeX, height * Padding / rangeY);
        assert scaleF == FitScale(width, height, rangeX, rangeY);
        buffer := PlotAll(pts, Point((minX + maxX) / 2.0, (minY + maxY) / 2.0), scaleF, width, height);
      }
      needsRecalc := false;
    }

    /** Recalculates if flagged, then blits the buffer. */
    method Draw() returns (shown: seq<Point>)
      requires Valid()
      modifies this
      ensures Valid() && !needsRecalc
      ensures a == old(a) && b == old(b) && numPoints == old(numPoints)
      ensures shown == buffer == HenonBuffer(a, b, numPoints, width, height)
      ensures width > 0.0 && height > 0.0 ==> forall q :: q in shown ==> InCentralRegion(q, width, height)
    {
      if needsRecalc {
        Recalc();
      }
      shown := buffer;
      if width > 0.0 && height > 0.0 {
        HenonBufferInCanvas(a, b, numPoints, width, height);
      }
    }
  }
}
