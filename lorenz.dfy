/**
 * The Lorenz attractor: Euler integration of the Lorenz system from
 * (0.1, 0, 0), a discarded transient of min(1000, floor(numSteps / 10))
 * steps, then numSteps recorded steps, both stopping once the state is no
 * longer finite. The x-z projection is bounded, padded by 5% per side and
 * fitted into 90% of the canvas as one polyline.
 */
module Lorenz {
  import opened Geometry

  const DefaultSigma: real := 10.0
  const DefaultRho: real := 28.0
  const DefaultBeta: real := 8.0 / 3.0
  const DefaultNumSteps: int := 10000
  const DefaultDt: real := 0.01

  /** The transient never exceeds this many steps. */
  const MaxTransient: int := 1000
  /** Fraction of each range added on both sides of the box. */
  const Margin: real := 0.05
  /** The box used when fewer than two points were recorded. */
  const DefaultBox: Box := Box(-20.0, 20.0, 0.0, 50.0)
  const CalculatingMessage: string := "Calculating Lorenz..."

  datatype Vec3 = Vec3(x: real, y: real, z: real)

  const Start: Vec3 := Vec3(0.1, 0.0, 0.0)

  datatype Params = Params(sigma: real, rho: real, beta: real, numSteps: int, dt: real)

  /**
   * One Euler step: the three derivatives are all taken at the old state,
   * then every coordinate moves by its derivative times dt.
   */
  function EulerStep(p: Params, v: Vec3): Vec3 {
    var dx := p.sigma * (v.y - v.x);
    var dy := v.x * (p.rho - v.z) - v.y;
    var dz := v.x * v.y - p.beta * v.z;
    Vec3(v.x + dx * p.dt, v.y + dy * p.dt, v.z + dz * p.dt)
  }

  /** numSteps * 0.1 rounded down is the floor quotient of numSteps by 10. */
  lemma FloorOfTenth(n: int)
    ensures (n as real * 0.1).Floor == n / 10
  {
    var q, r := n / 10, n % 10;
    assert n as real * 0.1 == q as real + r as real * 0.1;
  }

  /** min(1000, floor(numSteps * 0.1)). */
  function TransientSteps(numSteps: int): (t: int)
    ensures t == if numSteps / 10 < MaxTransient then numSteps / 10 else MaxTransient
    ensures t <= MaxTransient
    ensures numSteps >= 0 ==> 0 <= t && 10 * t <= numSteps
    ensures numSteps >= 10 * MaxTransient ==> t == MaxTransient
  {
    var tenth := (numSteps as real * 0.1).Floor;
    FloorOfTenth(numSteps);
    if MaxTransient <= tenth then MaxTransient else tenth
  }

  /**
   * The transient loop: up to k steps from v, stopping right after the
   * first step whose result is not finite (that state is kept).
   */
  function Settle(p: Params, finite: Vec3 -> bool, v: Vec3, k: int): Vec3
    decreases k
  {
    if k <= 0 then v
    else
      var w := EulerStep(p, v);
      if !finite(w) then w else Settle(p, finite, w, k - 1)
  }

  /**
   * The recording loop: up to k steps from v, each new state recorded, and
   * a state that is not finite recorded before the loop stops.
   */
  function Record(p: Params, finite: Vec3 -> bool, v: Vec3, k: int): seq<Vec3>
    decreases k
  {
    if k <= 0 then []
    else
      var w := EulerStep(p, v);
      if !finite(w) then [w] else [w] + Record(p, finite, w, k - 1)
  }

  /**
   * At most k states are recorded; the first is one step from v and each
   * later one is one step from the one before; every state but the last is
   * finite, and the recording stops short of k only on a state that is not.
   */
  lemma {:induction false} RecordShape(p: Params, finite: Vec3 -> bool, v: Vec3, k: int)
    ensures |Record(p, finite, v, k)| <= if k > 0 then k else 0
    ensures k > 0 ==> |Record(p, finite, v, k)| >= 1 && Record(p, finite, v, k)[0] == EulerStep(p, v)
    ensures forall i :: 0 <= i < |Record(p, finite, v, k)| - 1 ==>
      Record(p, finite, v, k)[i + 1] == EulerStep(p, Record(p, finite, v, k)[i])
    ensures forall i :: 0 <= i < |Record(p, finite, v, k)| - 1 ==> finite(Record(p, finite, v, k)[i])
    ensures 0 < |Record(p, finite, v, k)| < k ==> !finite(Record(p, finite, v, k)[|Record(p, finite, v, k)| - 1])
    decreases k
  {
    if k > 0 {
      var w := EulerStep(p, v);
      if finite(w) {
        RecordShape(p, finite, w, k - 1);
        var rest := Record(p, finite, w, k - 1);
        assert Record(p, finite, v, k) == [w] + rest;
        if k - 1 > 0 {
          assert rest[0] == EulerStep(p, w);
          assert Record(p, finite, v, k)[|Record(p, finite, v, k)| - 1] == rest[|rest| - 1];
        }
      }
    }
  }

  /** The points calculate() records for the given parameters. */
  function LorenzPoints(p: Params, finite: Vec3 -> bool): seq<Vec3> {
    Record(p, finite, Settle(p, finite, Start, TransientSteps(p.numSteps)), p.numSteps)
  }

  /** The x-z projection that is bounded and drawn. */
  function Project(points: seq<Vec3>): (r: seq<Point>)
    ensures |r| == |points|
    ensures forall i :: 0 <= i < |points| ==> r[i] == Point(points[i].x, points[i].z)
  {
    seq(|points|, i requires 0 <= i < |points| => Point(points[i].x, points[i].z))
  }

  /** Each axis widened by Margin of its range on both sides. */
  function Pad(b: Box): (r: Box)
    ensures r.maxX - r.minX == 1.1 * (b.maxX - b.minX) && r.maxY - r.minY == 1.1 * (b.maxY - b.minY)
    ensures Center(r) == Center(b)
    ensures Ordered(b) ==> Within(b, r)
  {
    var xRange := b.maxX - b.minX;
    var zRange := b.maxY - b.minY;
    Box(b.minX - xRange * Margin, b.maxX + xRange * Margin, b.minY - zRange * Margin, b.maxY + zRange * Margin)
  }

  /** The stored bounds: the default box for fewer than two points, else the padded x-z box. */
  function LorenzBounds(points: seq<Vec3>): Box {
    if |points| < 2 then DefaultBox else Pad(BoundsOf(Project(points)))
  }

  /**
   * The stored box is ordered; with two or more points it holds every
   * projected point and each range is 110% of the points' own range.
   */
  lemma LorenzBoundsSound(points: seq<Vec3>)
    ensures Ordered(LorenzBounds(points))
    ensures |points| >= 2 ==> forall i :: 0 <= i < |points| ==> InBox(Point(points[i].x, points[i].z), LorenzBounds(points))
    ensures |points| >= 2 ==>
      var raw := BoundsOf(Project(points));
      var b := LorenzBounds(points);
      b.maxX - b.minX == 1.1 * (raw.maxX - raw.minX) && b.maxY - b.minY == 1.1 * (raw.maxY - raw.minY)
  {
    if |points| >= 2 {
      var pts := Project(points);
      var raw := BoundsOf(pts);
      BoundsOfContains(pts);
      Geometry.MulMonotone(Margin, 0.0, raw.maxX - raw.minX);
      Geometry.MulMonotone(Margin, 0.0, raw.maxY - raw.minY);
      forall i | 0 <= i < |points| ensures InBox(Point(points[i].x, points[i].z), LorenzBounds(points)) {
        assert pts[i] == Point(points[i].x, points[i].z);
      }
    }
  }

  /** min(0.9 w / rangeX, 0.9 h / rangeZ), replaced by 1 if it is not positive. */
  function LorenzScale(b: Box, w: real, h: real): (s: real)
    requires b.maxX - b.minX > 0.0 && b.maxY - b.minY > 0.0
    ensures s > 0.0
    ensures w > 0.0 && h > 0.0 ==> s == FitScale(w, h, b.maxX - b.minX, b.maxY - b.minY)
    ensures !(w > 0.0 && h > 0.0) ==> s == 1.0
  {
    var fitted := FitScale(w, h, b.maxX - b.minX, b.maxY - b.minY);
    if fitted <= 0.0 then 1.0 else fitted
  }

  /**
   * What draw() shows for recorded points: the placeholder for fewer than
   * two, nothing for a zero range, otherwise the fitted x-z polyline.
   */
  function LorenzFrame(points: seq<Vec3>, b: Box, w: real, h: real): Frame {
    if |points| < 2 then Placeholder(CalculatingMessage)
    else if b.maxX - b.minX == 0.0 || b.maxY - b.minY == 0.0 then Blank
    else if b.maxX - b.minX > 0.0 && b.maxY - b.minY > 0.0 then
      Polyline(FitAll(Project(points), Center(b), LorenzScale(b, w, h), w, h))
    else
      // A negative range: never reached with the stored bounds, which pad an
      // ordered box (LorenzBoundsSound).
      Blank
  }

  /**
   * With the stored bounds, every vertex of a drawn polyline lies in the
   * central 90% of a canvas of positive size.
   */
  lemma LorenzFrameInCanvas(points: seq<Vec3>, w: real, h: real)
    requires w > 0.0 && h > 0.0
    ensures LorenzFrame(points, LorenzBounds(points), w, h).Polyline? ==>
      forall q :: q in LorenzFrame(points, LorenzBounds(points), w, h).vertices ==> InCentralRegion(q, w, h)
  {
    var b := LorenzBounds(points);
    LorenzBoundsSound(points);
    if |points| >= 2 && b.maxX - b.minX > 0.0 && b.maxY - b.minY > 0.0 {
      var pts := Project(points);
      FitAllInsideCanvas(pts, b, w, h, b.maxX - b.minX, b.maxY - b.minY);
    }
  }

  /** Projecting one more state appends its x-z point. */
  lemma ProjectAppend(points: seq<Vec3>, v: Vec3)
    ensures Project(points + [v]) == Project(points) + [Point(v.x, v.z)]
  {
  }

  /** The transient loop of calculate(). */
  method SettleTransient(p: Params, finite: Vec3 -> bool) returns (v: Vec3)
    ensures v == Settle(p, finite, Start, TransientSteps(p.numSteps))
  {
    v := Start;
    var transientSteps := TransientSteps(p.numSteps);
    var i := 0;
    while i < transientSteps
      invariant Settle(p, finite, v, transientSteps - i) == Settle(p, finite, Start, transientSteps)
      decreases transientSteps - i
    {
      v := EulerStep(p, v);
      if !finite(v) {
        break;
      }
      i := i + 1;
    }
  }

  /**
   * One pass of the recording loop: with `before` recorded and Record(prev, k)
   * still to come, the next state is recorded and either ends the recording
   * or leaves Record of it, k - 1, to come.
   */
  lemma RecordAdvance(p: Params, finite: Vec3 -> bool, before: seq<Vec3>, prev: Vec3, k: int, target: seq<Vec3>)
    requires k > 0 && before + Record(p, finite, prev, k) == target
    ensures var w := EulerStep(p, prev);
      (!finite(w) ==> before + [w] == target) &&
      (finite(w) ==> (before + [w]) + Record(p, finite, w, k - 1) == target)
  {
  }

  /** Projecting and bounding one more state extends the bounds by its x-z point. */
  lemma BoundsAppend(points: seq<Vec3>, v: Vec3)
    requires |points| > 0
    ensures BoundsOf(Project(points + [v])) == Extend(BoundsOf(Project(points)), Point(v.x, v.z))
  {
    ProjectAppend(points, v);
    var xz := Project(points + [v]);
    assert xz[..|xz| - 1] == Project(points);
  }

  /** The recording loop of calculate(), with the running x-z bounds. */
  method RecordSteps(p: Params, finite: Vec3 -> bool, settled: Vec3)
    returns (points: seq<Vec3>, minX: real, maxX: real, minZ: real, maxZ: real)
    ensures points == Record(p, finite, settled, p.numSteps)
    ensures |points| > 0 ==> Box(minX, maxX, minZ, maxZ) == BoundsOf(Project(points))
  {
    var v := settled;
    points := [];
    // Starting from +/-Infinity, the first min/max of each axis is the first point.
    minX, maxX, minZ, maxZ := 0.0, 0.0, 0.0, 0.0;
    var i := 0;
    while i < p.numSteps
      invariant 0 <= i && |points| == i
      invariant points + Record(p, finite, v, p.numSteps - i) == Record(p, finite, settled, p.numSteps)
      invariant i > 0 ==> Box(minX, maxX, minZ, maxZ) == BoundsOf(Project(points))
      decreases p.numSteps - i
    {
      ghost var before, prev := points, v;
      v := EulerStep(p, v);
      points := points + [v];
      RecordAdvance(p, finite, before, prev, p.numSteps - i, Record(p, finite, settled, p.numSteps));
      if i == 0 {
        assert Project(points) == [Point(v.x, v.z)];
        minX, maxX, minZ, maxZ := v.x, v.x, v.z, v.z;
      } else {
        assert BoundsOf(Project(points)) == Extend(BoundsOf(Project(before)), Point(v.x, v.z)) by {
          BoundsAppend(before, v);
        }
        minX, maxX := Min(minX, v.x), Max(maxX, v.x);
        minZ, maxZ := Min(minZ, v.z), Max(maxZ, v.z);
      }
      if !finite(v) {
        break;
      }
      i := i + 1;
    }
  }

  class LorenzVisualization {
    /** isFinite of all three coordinates. */
    const finite: Vec3 -> bool
    const width: real
    const height: real
    var sigma: real
    var rho: real
    var beta: real
    var numSteps: int
    var dt: real
    var points: seq<Vec3>
    var bounds: Box
    var needsRecalculation: bool

    function Parameters(): Params
      reads this
    {
      Params(sigma, rho, beta, numSteps, dt)
    }

    /** Outside a pending recalculation the points and bounds belong to the parameters. */
    ghost predicate Valid()
      reads this
    {
      !needsRecalculation ==> points == LorenzPoints(Parameters(), finite) && bounds == LorenzBounds(points)
    }

    constructor (finite: Vec3 -> bool, width: real, height: real)
      ensures Valid() && needsRecalculation
      ensures this.finite == finite && this.width == width && this.height == height
      ensures Parameters() == Params(DefaultSigma, DefaultRho, DefaultBeta, DefaultNumSteps, DefaultDt)
      ensures points == [] && bounds == Box(0.0, 0.0, 0.0, 0.0)
    {
      this.finite, this.width, this.height := finite, width, height;
      sigma, rho, beta, numSteps, dt := DefaultSigma, DefaultRho, DefaultBeta, DefaultNumSteps, DefaultDt;
      points := [];
      bounds := Box(0.0, 0.0, 0.0, 0.0);
      needsRecalculation := true;
    }

    /** Takes the control values; any actual change replaces all five and flags a recalculation. */
    method UpdateParams(newSigma: real, newRho: real, newBeta: real, newNumSteps: int, newDt: real)
      requires Valid()
      modifies this
      ensures Valid()
      ensures Parameters() == Params(newSigma, newRho, newBeta, newNumSteps, newDt)
      ensures needsRecalculation == (old(needsRecalculation) || old(Parameters()) != Parameters())
      ensures points == old(points) && bounds == old(bounds)
    {
      if newSigma != sigma || newRho != rho || newBeta != beta || newNumSteps != numSteps || newDt != dt {
        sigma, rho, beta, numSteps, dt := newSigma, newRho, newBeta, newNumSteps, newDt;
        needsRecalculation := true;
      }
    }

    /** The reset button: the five defaults, recalculation flagged. */
    method ResetDefaults()
      requires Valid()
      modifies this
      ensures Valid() && needsRecalculation
      ensures Parameters() == Params(DefaultSigma, DefaultRho, DefaultBeta, DefaultNumSteps, DefaultDt)
      ensures points == old(points) && bounds == old(bounds)
    {
      sigma, rho, beta, numSteps, dt := DefaultSigma, DefaultRho, DefaultBeta, DefaultNumSteps, DefaultDt;
      needsRecalculation := true;
    }

    method Activate()
      requires Valid()
      modifies this
      ensures Valid() && needsRecalculation
      ensures Parameters() == old(Parameters()) && points == old(points) && bounds == old(bounds)
    {
      needsRecalculation := true;
    }

    /** Recomputes points and bounds and clears the flag. */
    method Calculate()
      modifies this
      ensures Valid() && !needsRecalculation
      ensures Parameters() == old(Parameters())
      ensures points == LorenzPoints(Parameters(), finite) && bounds == LorenzBounds(points)
    {
      var settled := SettleTransient(Parameters(), finite);
      var pts, minX, maxX, minZ, maxZ := RecordSteps(Parameters(), finite, settled);
      points := pts;
      if |points| < 2 {
        bounds := DefaultBox;
      } else {
        var xRange := maxX - minX;
        var zRange := maxZ - minZ;
        bounds := Box(minX - xRange * Margin, maxX + xRange * Margin, minZ - zRange * Margin, maxZ + zRange * Margin);
      }
      needsRecalculation := false;
    }

    /**
     * Recalculates if flagged, then shows the placeholder for fewer than two
     * points, nothing for a zero range, and otherwise the fitted polyline,
     * which lies in the central 90% of a canvas of positive size.
     */
    method Draw() returns (frame: Frame)
      requires Valid()
      modifies this
      ensures Valid() && !needsRecalculation
      ensures Parameters() == old(Parameters())
      ensures frame == LorenzFrame(points, bounds, width, height)
      ensures frame.Polyline? && width > 0.0 && height > 0.0 ==>
        forall q :: q in frame.vertices ==> InCentralRegion(q, width, height)
    {
      if needsRecalculation {
        Calculate();
      }
      if width > 0.0 && height > 0.0 {
        LorenzFrameInCanvas(points, width, height);
      }
      if |points| < 2 {
        frame := Placeholder(CalculatingMessage);
        return;
      }
      var rangeX := bounds.maxX - bounds.minX;
      var rangeZ := bounds.maxY - bounds.minY;
      if rangeX == 0.0 || rangeZ == 0.0 {
        frame := Blank;
        return;
      }
      assert rangeX > 0.0 && rangeZ > 0.0 by {
        LorenzBoundsSound(points);
      }
      var scaleFactor := LorenzScale(bounds, width, height);
      var vertices := PlotAll(Project(points), Center(bounds), scaleFactor, width, height);
      frame := Polyline(vertices);
    }
  }
}
