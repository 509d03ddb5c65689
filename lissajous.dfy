/**
 * The Lissajous visualization: x = A sin(a t + delta), y = B sin(b t). An
 * animated frame advances the time and appends the current point to a trail
 * that keeps only the newest trailLength points; a static frame clears the
 * animation and traces the curve as a 501-vertex polyline sampled at
 * t = 2 pi i / 500 for i = 0 .. 500.
 */
module Lissajous {
  import opened Geometry

  const DefaultA: real := 150.0
  const DefaultB: real := 150.0
  const DefaultFreqA: int := 3
  const DefaultFreqB: int := 2
  const DefaultDelta: real := 90.0
  const DefaultTrailLength: int := 200
  const DefaultPointSize: int := 2

  const Pi: real := 3.141592653589793
  /** Time gained per animated frame per unit of speed. */
  const TimeStep: real := 0.05
  /** The static curve is cut into this many pieces over t from 0 to 2 Pi. */
  const StaticSteps: nat := 500
  const InvalidMessage: string := "Invalid Lissajous Parameters"

  /** The curve at time t; delta is in degrees and converted before use. */
  function CurvePoint(sin: real -> real, a: real, b: real, freqA: int, freqB: int, delta: real, t: real): Point {
    Point(a * sin(freqA as real * t + delta * (Pi / 180.0)), b * sin(freqB as real * t))
  }

  /** The time of static vertex i: i mapped from [0, StaticSteps] onto [0, 2 Pi]. */
  function StaticTime(i: int): real {
    2.0 * Pi * (i as real / StaticSteps as real)
  }

  /** The static vertices start at time 0, end at 2 Pi and are evenly spaced. */
  lemma StaticTimesSpanTwoPi(i: int)
    ensures StaticTime(0) == 0.0 && StaticTime(StaticSteps) == 2.0 * Pi
    ensures StaticTime(i + 1) - StaticTime(i) == 2.0 * Pi / StaticSteps as real
    ensures 0 <= i <= StaticSteps ==> 0.0 <= StaticTime(i) <= 2.0 * Pi
  {
  }

  /** The beginShape loop of a static frame: StaticSteps + 1 vertices in time order. */
  method TraceCurve(sin: real -> real, a: real, b: real, freqA: int, freqB: int, delta: real)
    returns (vertices: seq<Point>)
    ensures |vertices| == StaticSteps + 1
    ensures forall i :: 0 <= i < |vertices| ==> vertices[i] == CurvePoint(sin, a, b, freqA, freqB, delta, StaticTime(i))
  {
    vertices := [];
    var i := 0;
    while i <= StaticSteps
      invariant 0 <= i <= StaticSteps + 1
      invariant |vertices| == i
      invariant forall k :: 0 <= k < i ==> vertices[k] == CurvePoint(sin, a, b, freqA, freqB, delta, StaticTime(k))
    {
      var t := StaticTime(i);
      vertices := vertices + [CurvePoint(sin, a, b, freqA, freqB, delta, t)];
      i := i + 1;
    }
  }

  /** The newest n elements of s, oldest first: all of s if it is shorter, none if n <= 0. */
  function LastN<T>(s: seq<T>, n: int): (r: seq<T>)
    ensures |r| == if n <= 0 then 0 else if n < |s| then n else |s|
    ensures r == s[|s| - |r|..]
  {
    if n <= 0 then [] else if n < |s| then s[|s| - n..] else s
  }

  /** Array.prototype.shift on the trail: drops the oldest point; an empty trail stays empty. */
  function Shift(s: seq<Point>): seq<Point> {
    if s == [] then [] else s[1..]
  }

  /** The trail after k passes of the eviction loop's body. */
  function ShiftTimes(s: seq<Point>, k: nat): seq<Point> {
    if k == 0 then s else ShiftTimes(Shift(s), k - 1)
  }

  /**
   * The eviction loop as written, `while (length > cap) shift()`, with a
   * negative cap: after any number of passes the guard still holds, and from
   * pass |trail| on the loop keeps shifting an empty trail, so it never ends.
   */
  lemma {:induction false} ShiftLoopNeverEnds(trail: seq<Point>, cap: int, k: nat)
    requires cap < 0
    ensures |ShiftTimes(trail, k)| == if k < |trail| then |trail| - k else 0
    ensures |ShiftTimes(trail, k)| > cap
  {
    if k > 0 {
      ShiftLoopNeverEnds(Shift(trail), cap, k - 1);
    }
  }

  /**
   * The eviction loop: drops the oldest point while more than cap remain.
   * It also stops at an empty trail, so a negative cap leaves no points
   * instead of spinning forever.
   */
  method KeepNewest(trail: seq<Point>, cap: int) returns (kept: seq<Point>)
    ensures kept == LastN(trail, cap)
  {
    kept := trail;
    while |kept| > cap && kept != []
      invariant kept == trail[|trail| - |kept|..]
      invariant |trail| <= cap ==> kept == trail
      invariant |trail| > cap ==> |kept| >= cap
      decreases |kept|
    {
      kept := kept[1..];
    }
  }

  /**
   * Keeping the newest cap points frame by frame is the same as keeping the
   * newest cap points of the whole history: the trail is a sliding window.
   */
  lemma TrailWindow(history: seq<Point>, p: Point, cap: int)
    ensures LastN(LastN(history, cap) + [p], cap) == LastN(history + [p], cap)
  {
  }

  /** A pushed point is the newest of a non-empty trail and the trail never exceeds cap. */
  lemma TrailNewestLast(trail: seq<Point>, p: Point, cap: int)
    requires cap >= 1
    ensures 1 <= |LastN(trail + [p], cap)| <= cap
    ensures LastN(trail + [p], cap)[|LastN(trail + [p], cap)| - 1] == p
  {
  }

  class LissajousVisualization {
    /** p5's sin, as the drawing code calls it. */
    const sin: real -> real
    var a: real
    var b: real
    var freqA: int
    var freqB: int
    var delta: real
    var trailLength: int
    var pointSize: int
    /** The animated trail, oldest first. */
    var points: seq<Point>
    var currentTime: real

    constructor (sin: real -> real)
      ensures this.sin == sin
      ensures a == DefaultA && b == DefaultB && freqA == DefaultFreqA && freqB == DefaultFreqB
      ensures delta == DefaultDelta && trailLength == DefaultTrailLength && pointSize == DefaultPointSize
      ensures points == [] && currentTime == 0.0
    {
      this.sin := sin;
      a, b, freqA, freqB := DefaultA, DefaultB, DefaultFreqA, DefaultFreqB;
      delta, trailLength, pointSize := DefaultDelta, DefaultTrailLength, DefaultPointSize;
      points, currentTime := [], 0.0;
    }

    /**
     * Takes the control values. A change of a shape parameter (A, B, the two
     * frequencies, delta) resets the animation; trail length and point size
     * are taken without a reset.
     */
    method UpdateParams(newA: real, newB: real, newFreqA: int, newFreqB: int, newDelta: real, newTrail: int, newSize: int)
      modifies this
      ensures a == newA && b == newB && freqA == newFreqA && freqB == newFreqB && delta == newDelta
      ensures trailLength == newTrail && pointSize == newSize
      ensures var shapeChanged := newA != old(a) || newB != old(b) || newFreqA != old(freqA) ||
                                  newFreqB != old(freqB) || newDelta != old(delta);
        if shapeChanged then points == [] && currentTime == 0.0
        else points == old(points) && currentTime == old(currentTime)
    {
      var needsReset := false;
      if newA != a { a := newA; needsReset := true; }
      if newB != b { b := newB; needsReset := true; }
      if newFreqA != freqA { freqA := newFreqA; needsReset := true; }
      if newFreqB != freqB { freqB := newFreqB; needsReset := true; }
      if newDelta != delta { delta := newDelta; needsReset := true; }
      if newTrail != trailLength { trailLength := newTrail; }
      if newSize != pointSize { pointSize := newSize; }
      if needsReset {
        ResetAnimation();
      }
    }

    /** The reset button: all seven parameters back to their defaults, animation cleared. */
    method ResetDefaults()
      modifies this
      ensures a == DefaultA && b == DefaultB && freqA == DefaultFreqA && freqB == DefaultFreqB
      ensures delta == DefaultDelta && trailLength == DefaultTrailLength && pointSize == DefaultPointSize
      ensures points == [] && currentTime == 0.0
    {
      a, b, freqA, freqB := DefaultA, DefaultB, DefaultFreqA, DefaultFreqB;
      delta, trailLength, pointSize := DefaultDelta, DefaultTrailLength, DefaultPointSize;
      ResetAnimation();
    }

    method ResetAnimation()
      modifies this
      ensures points == [] && currentTime == 0.0
      ensures a == old(a) && b == old(b) && freqA == old(freqA) && freqB == old(freqB) && delta == old(delta)
      ensures trailLength == old(trailLength) && pointSize == old(pointSize)
    {
      points := [];
      currentTime := 0.0;
    }

    method Activate()
      modifies this
      ensures points == [] && currentTime == 0.0
      ensures a == old(a) && b == old(b) && freqA == old(freqA) && freqB == old(freqB) && delta == old(delta)
      ensures trailLength == old(trailLength) && pointSize == old(pointSize)
    {
      ResetAnimation();
    }

    /**
     * One frame. Non-positive amplitudes show only the error text and change
     * nothing. An animated frame advances the time by speed * TimeStep,
     * appends the point at the new time and keeps the newest trailLength
     * points. A static frame clears the animation and traces the curve.
     */
    method Draw(animate: bool, speed: real) returns (frame: Frame)
      modifies this
      ensures a == old(a) && b == old(b) && freqA == old(freqA) && freqB == old(freqB) && delta == old(delta)
      ensures trailLength == old(trailLength) && pointSize == old(pointSize)
      ensures !(old(a) > 0.0 && old(b) > 0.0) ==>
        frame == Placeholder(InvalidMessage) && points == old(points) && currentTime == old(currentTime)
      ensures a > 0.0 && b > 0.0 && animate ==>
        currentTime == old(currentTime) + speed * TimeStep &&
        points == LastN(old(points) + [CurvePoint(sin, a, b, freqA, freqB, delta, currentTime)], trailLength) &&
        frame == Dots(points)
      ensures a > 0.0 && b > 0.0 && !animate ==>
        points == [] && currentTime == 0.0 &&
        frame.Polyline? && |frame.vertices| == StaticSteps + 1 &&
        forall i :: 0 <= i < |frame.vertices| ==> frame.vertices[i] == CurvePoint(sin, a, b, freqA, freqB, delta, StaticTime(i))
    {
      if !(a > 0.0 && b > 0.0) {
        frame := Placeholder(InvalidMessage);
        return;
      }
      if animate {
        currentTime := currentTime + speed * TimeStep;
        var t := currentTime;
        var current := CurvePoint(sin, a, b, freqA, freqB, delta, t);
        points := KeepNewest(points + [current], trailLength);
        frame := Dots(points);
      } else {
        if |points| > 0 || currentTime != 0.0 {
          ResetAnimation();
        }
        var vertices := TraceCurve(sin, a, b, freqA, freqB, delta);
        frame := Polyline(vertices);
      }
    }
  }
}
