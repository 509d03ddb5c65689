/**
 * The Peter de Jong attractor: the orbit of (0, 0) under
 * x' = sin(a y) - cos(b x), y' = sin(c x) - cos(d y), its bounding box
 * (a zero-width axis widened by 1e-6), a scale that fits the box into 90% of
 * the canvas with 100 as the fallback, and the centred point cloud.
 */
module DeJong {
  import opened Geometry
  import opened Orbits

  const DefaultA: real := 1.641
  const DefaultB: real := -1.902
  const DefaultC: real := -1.916
  const DefaultD: real := -1.483
  const DefaultNumPoints: int := 50000

  /** Added to the maximum of an axis whose points all share one coordinate. */
  const Epsilon: real := 0.000001
  /** The scale used when the fitted one is not positive. */
  const FallbackScale: real := 100.0
  const CalculatingMessage: string := "Calculating Attractor..."

  /** The four coefficients of the map. */
  datatype Coefficients = Coefficients(a: real, b: real, c: real, d: real)

  /** One step, both coordinates computed from the previous point. */
  function DeJongStep(sin: real -> real, cos: real -> real, k: Coefficients, p: Point): Point {
    Point(sin(k.a * p.y) - cos(k.b * p.x), sin(k.c * p.x) - cos(k.d * p.y))
  }

  function DeJongMap(sin: real -> real, cos: real -> real, k: Coefficients): Point -> Point {
    p => DeJongStep(sin, cos, k, p)
  }

  /** The points recalculate() records: numPoints iterates of (0, 0), none if numPoints <= 0. */
  function DeJongPoints(sin: real -> real, cos: real -> real, k: Coefficients, numPoints: int): seq<Point> {
    Orbit(DeJongMap(sin, cos, k), Origin, if numPoints > 0 then numPoints else 0)
  }

  /**
   * Exactly max(numPoints, 0) points are recorded, the first is the step of
   * (0, 0) and each later one is the step of the point before it.
   */
  lemma DeJongPointsRecurrence(sin: real -> real, cos: real -> real, k: Coefficients, numPoints: int)
    ensures |DeJongPoints(sin, cos, k, numPoints)| == if numPoints > 0 then numPoints else 0
    ensures numPoints > 0 ==> DeJongPoints(sin, cos, k, numPoints)[0] == DeJongStep(sin, cos, k, Origin)
    ensures forall i :: 0 <= i < |DeJongPoints(sin, cos, k, numPoints)| - 1 ==>
      DeJongPoints(sin, cos, k, numPoints)[i + 1] == DeJongStep(sin, cos, k, DeJongPoints(sin, cos, k, numPoints)[i])
  {
    OrbitRecurrence(DeJongMap(sin, cos, k), Origin, if numPoints > 0 then numPoints else 0);
  }

  /** A zero-width axis gets Epsilon added to its maximum; other axes are kept. */
  function Widen(b: Box): (r: Box)
    ensures Within(b, r) && r.minX == b.minX && r.minY == b.minY
    ensures Ordered(b) ==> r.maxX - r.minX > 0.0 && r.maxY - r.minY > 0.0
    ensures b.maxX != b.minX ==> r.maxX == b.maxX
    ensures b.maxY != b.minY ==> r.maxY == b.maxY
  {
    Box(b.minX, if b.maxX == b.minX then b.maxX + Epsilon else b.maxX,
        b.minY, if b.maxY == b.minY then b.maxY + Epsilon else b.maxY)
  }

  /** The stored bounds: the fold seeded by the first point (all zero without points), widened. */
  function DeJongBounds(pts: seq<Point>): Box {
    Widen(if |pts| == 0 then Box(0.0, 0.0, 0.0, 0.0) else BoundsOf(pts))
  }

  /**
   * Both ranges of the stored bounds are strictly positive, even without
   * points, and every recorded point lies inside them.
   */
  lemma DeJongBoundsSound(pts: seq<Point>)
    ensures DeJongBounds(pts).maxX - DeJongBounds(pts).minX > 0.0
    ensures DeJongBounds(pts).maxY - DeJongBounds(pts).minY > 0.0
    ensures forall i :: 0 <= i < |pts| ==> InBox(pts[i], DeJongBounds(pts))
  {
    if |pts| > 0 {
      BoundsOfContains(pts);
    }
  }

  /**
   * The stored scale: min(0.9 w / width, 0.9 h / height) for positive
   * ranges, otherwise 100; a result that is not positive is also replaced
   * by 100.
   */
  function DeJongScale(b: Box, w: real, h: real): (s: real)
    ensures s > 0.0
    ensures w > 0.0 && h > 0.0 && b.maxX - b.minX > 0.0 && b.maxY - b.minY > 0.0 ==>
      s == FitScale(w, h, b.maxX - b.minX, b.maxY - b.minY)
    ensures !(w > 0.0 && h > 0.0) ==> s == FallbackScale
    ensures !(b.maxX - b.minX > 0.0 && b.maxY - b.minY > 0.0) ==> s == FallbackScale
  {
    var boundsWidth := b.maxX - b.minX;
    var boundsHeight := b.maxY - b.minY;
    var fitted := if boundsWidth <= 0.0 || boundsHeight <= 0.0 then FallbackScale
      else FitScale(w, h, boundsWidth, boundsHeight);
    if fitted <= 0.0 then FallbackScale else fitted
  }

  /**
   * On a canvas of positive size, every recorded point drawn with the stored
   * bounds and scale lands in the central 90% of the canvas.
   */
  lemma DeJongDrawnInCanvas(pts: seq<Point>, w: real, h: real)
    requires w > 0.0 && h > 0.0
    ensures forall q :: q in FitAll(pts, Center(DeJongBounds(pts)), DeJongScale(DeJongBounds(pts), w, h), w, h) ==>
      InCentralRegion(q, w, h)
  {
    var b := DeJongBounds(pts);
    DeJongBoundsSound(pts);
    FitAllInsideCanvas(pts, b, w, h, b.maxX - b.minX, b.maxY - b.minY);
  }

  /**
   * The loop of recalculate(): iterates the map from (0, 0), recording every
   * new point and folding it into running bounds that start at 0.
   */
  method RecordOrbit(sin: real -> real, cos: real -> real, k: Coefficients, numPoints: int)
    returns (pts: seq<Point>, minX: real, maxX: real, minY: real, maxY: real)
    ensures pts == DeJongPoints(sin, cos, k, numPoints)
    ensures Box(minX, maxX, minY, maxY) == if |pts| == 0 then Box(0.0, 0.0, 0.0, 0.0) else BoundsOf(pts)
  {
    ghost var f := DeJongMap(sin, cos, k);
    ghost var n := if numPoints > 0 then numPoints else 0;
    var x, y := 0.0, 0.0;
    pts := [];
    minX, maxX, minY, maxY := 0.0, 0.0, 0.0, 0.0;
    var i := 0;
    while i < numPoints
      invariant 0 <= i <= n
      invariant pts == Orbit(f, Origin, i)
      invariant Point(x, y) == Iterate(f, Origin, i)
      invariant Box(minX, maxX, minY, maxY) == if i == 0 then Box(0.0, 0.0, 0.0, 0.0) else BoundsOf(pts)
    {
      var prevX, prevY := x, y;
      // Both coordinates come from the previous point.
      var next := DeJongStep(sin, cos, k, Point(prevX, prevY));
      x, y := next.x, next.y;
      pts := pts + [Point(x, y)];
      if i == 0 {
        minX, maxX, minY, maxY := x, x, y, y;
      } else {
        minX, maxX := Min(minX, x), Max(maxX, x);
        minY, maxY := Min(minY, y), Max(maxY, y);
      }
      i := i + 1;
    }
  }

  class DeJongVisualization {
    /** p5's sin and cos, as the map calls them. */
    const sin: real -> real
    const cos: real -> real
    const width: real
    const height: real
    var a: real
    var b: real
    var c: real
    var d: real
    var numPoints: int
    var points: seq<Point>
    var needsRecalculation: bool
    var bounds: Box
    var scaleFactor: real

    /**
     * The scale is always positive, and outside a pending recalculation the
     * points, bounds and scale belong to the current parameters.
     */
    ghost predicate Valid()
      reads this
    {
      scaleFactor > 0.0 &&
      (!needsRecalculation ==>
        points == DeJongPoints(sin, cos, Coefficients(a, b, c, d), numPoints) &&
        bounds == DeJongBounds(points) &&
        scaleFactor == DeJongScale(bounds, width, height))
    }

    constructor (sin: real -> real, cos: real -> real, width: real, height: real)
      ensures Valid() && needsRecalculation
      ensures this.sin == sin && this.cos == cos && this.width == width && this.height == height
      ensures a == DefaultA && b == DefaultB && c == DefaultC && d == DefaultD && numPoints == DefaultNumPoints
      ensures points == [] && bounds == Box(0.0, 0.0, 0.0, 0.0) && scaleFactor == 1.0
    {
      this.sin, this.cos, this.width, this.height := sin, cos, width, height;
      a, b, c, d := DefaultA, DefaultB, DefaultC, DefaultD;
      numPoints := DefaultNumPoints;
      points := [];
      needsRecalculation := true;
      bounds := Box(0.0, 0.0, 0.0, 0.0);
      scaleFactor := 1.0;
    }

    /**
     * Takes the control values; a recalculation is flagged only if one of
     * the coefficients or the point count actually differs.
     */
    method UpdateParams(newA: real, newB: real, newC: real, newD: real, newNumPoints: int)
      requires Valid()
      modifies this
      ensures Valid()
      ensures a == newA && b == newB && c == newC && d == newD && numPoints == newNumPoints
      ensures needsRecalculation == (old(needsRecalculation) || newA != old(a) || newB != old(b) ||
                                     newC != old(c) || newD != old(d) || newNumPoints != old(numPoints))
      ensures points == old(points) && bounds == old(bounds) && scaleFactor == old(scaleFactor)
    {
      var changed := false;
      var pointsChanged := false;
      if newA != a || newB != b || newC != c || newD != d {
        a, b, c, d := newA, newB, newC, newD;
        changed := true;
      }
      if newNumPoints != numPoints {
        numPoints := newNumPoints;
        pointsChanged := true;
      }
      if changed || pointsChanged {
        needsRecalculation := true;
      }
    }

    /** The reset button: default coefficients and point count, recalculation flagged. */
    method ResetDefaults()
      requires Valid()
      modifies this
      ensures Valid() && needsRecalculation
      ensures a == DefaultA && b == DefaultB && c == DefaultC && d == DefaultD && numPoints == DefaultNumPoints
      ensures points == old(points) && bounds == old(bounds) && scaleFactor == old(scaleFactor)
    {
      a, b, c, d := DefaultA, DefaultB, DefaultC, DefaultD;
      numPoints := DefaultNumPoints;
      needsRecalculation := true;
    }

    /** A no-op unless flagged; otherwise recomputes points, bounds and scale and clears the flag. */
    method Recalculate()
      requires Valid()
      modifies this
      ensures Valid() && !needsRecalculation
      ensures a == old(a) && b == old(b) && c == old(c) && d == old(d) && numPoints == old(numPoints)
      ensures !old(needsRecalculation) ==>
        points == old(points) && bounds == old(bounds) && scaleFactor == old(scaleFactor)
    {
      if !needsRecalculation {
        return;
      }
      var pts, minX, maxX, minY, maxY := RecordOrbit(sin, cos, Coefficients(a, b, c, d), numPoints);
      points := pts;
      if maxX == minX { maxX := maxX + Epsilon; }
      if maxY == minY { maxY := maxY + Epsilon; }
      bounds := Box(minX, maxX, minY, maxY);
      scaleFactor := DeJongScale(bounds, width, height);
      needsRecalculation := false;
    }

    /** Switching to this visualization recalculates if flagged. */
    method Activate()
      requires Valid()
      modifies this
      ensures Valid() && !needsRecalculation
      ensures a == old(a) && b == old(b) && c == old(c) && d == old(d) && numPoints == old(numPoints)
      ensures !old(needsRecalculation) ==>
        points == old(points) && bounds == old(bounds) && scaleFactor == old(scaleFactor)
    {
      if needsRecalculation {
        Recalculate();
      }
    }

    /**
     * Recalculates if flagged. Without points only the placeholder text is
     * shown; otherwise every point is drawn centred on the bounds' midpoint
     * and scaled, inside the central 90% of a canvas of positive size.
     */
    method Draw() returns (frame: Frame)
      requires Valid()
      modifies this
      ensures Valid() && !needsRecalculation
      ensures a == old(a) && b == old(b) && c == old(c) && d == old(d) && numPoints == old(numPoints)
      ensures points == [] ==> frame == Placeholder(CalculatingMessage)
      ensures points != [] ==> frame == Dots(FitAll(points, Center(bounds), scaleFactor, width, height))
      ensures frame.Dots? && width > 0.0 && height > 0.0 ==>
        forall q :: q in frame.points ==> InCentralRegion(q, width, height)
    {
      if needsRecalculation {
        Recalculate();
      }
      if |points| == 0 {
        frame := Placeholder(CalculatingMessage);
        return;
      }
      if width > 0.0 && height > 0.0 {
        DeJongDrawnInCanvas(points, width, height);
      }
      var drawn := PlotAll(points, Center(bounds), scaleFactor, width, height);
      frame := Dots(drawn);
    }
  }
}
