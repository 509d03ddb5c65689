/**
 * The turtle that draw() drives over an L-system string. The p5 transform
 * stack becomes an explicit stack of turtle states; where the turtle ends up
 * after moving forward is computed by a step function the caller supplies
 * (it stands for translate in the rotated frame, which needs cos and sin).
 */
module LSystemTurtle {
  import opened Geometry
  import opened LSystemGrammar

  /** Position and heading (degrees) of the drawing frame. */
  datatype Turtle = Turtle(pos: Point, heading: real)

  /** The turtle, its saved states, and the lines drawn so far. */
  datatype TurtleRun = TurtleRun(turtle: Turtle, stack: seq<Turtle>, segments: seq<Segment>)

  /** Where a turtle at pos with the given heading ends after moving len forward. */
  type Move = (Point, real, real) -> Point

  /** The state before the first command: rotated by the start angle, nothing drawn. */
  function Start(startAngle: real): TurtleRun {
    TurtleRun(Turtle(Origin, startAngle), [], [])
  }

  /**
   * One command: F draws a line and moves, G only moves, + turns by -angle,
   * - turns by +angle, [ saves the turtle, ] restores the last saved one,
   * anything else is ignored.
   */
  function Exec(r: TurtleRun, c: char, angle: real, len: real, move: Move): TurtleRun {
    var t := r.turtle;
    if c == 'F' || c == 'G' then
      var next := move(t.pos, t.heading, len);
      var drawn := if c == 'F' then r.segments + [Segment(t.pos, next)] else r.segments;
      TurtleRun(Turtle(next, t.heading), r.stack, drawn)
    else if c == '+' then TurtleRun(Turtle(t.pos, t.heading - angle), r.stack, r.segments)
    else if c == '-' then TurtleRun(Turtle(t.pos, t.heading + angle), r.stack, r.segments)
    else if c == '[' then TurtleRun(t, r.stack + [t], r.segments)
    else if c == ']' then
      if r.stack == [] then r
      else TurtleRun(r.stack[|r.stack| - 1], r.stack[..|r.stack| - 1], r.segments)
    else r
  }

  /** The commands of s executed in order. */
  function Run(r: TurtleRun, s: string, angle: real, len: real, move: Move): TurtleRun {
    if s == [] then r else Exec(Run(r, s[..|s| - 1], angle, len, move), s[|s| - 1], angle, len, move)
  }

  /** Running s and then t is running s + t. */
  lemma {:induction false} RunAppend(r: TurtleRun, s: string, t: string, angle: real, len: real, move: Move)
    ensures Run(r, s + t, angle, len, move) == Run(Run(r, s, angle, len, move), t, angle, len, move)
  {
    if t == [] {
      assert s + t == s;
    } else {
      RunAppend(r, s, t[..|t| - 1], angle, len, move);
      assert (s + t)[..|s + t| - 1] == s + t[..|t| - 1];
      assert (s + t)[|s + t| - 1] == t[|t| - 1];
    }
  }

  /**
   * Exactly one line is added per F, and the lines already drawn are never
   * changed.
   */
  lemma {:induction false} SegmentsPerF(r: TurtleRun, s: string, angle: real, len: real, move: Move)
    ensures |Run(r, s, angle, len, move).segments| == |r.segments| + multiset(s)['F']
    ensures Run(r, s, angle, len, move).segments[..|r.segments|] == r.segments
  {
    if s != [] {
      var init := s[..|s| - 1];
      SegmentsPerF(r, init, angle, len, move);
      assert s == init + [s[|s| - 1]];
    }
  }

  /**
   * A string in which no prefix closes more brackets than it opened never
   * pops an empty stack: the saved states below the starting ones are left
   * alone and the stack grows by the bracket depth.
   */
  lemma {:induction false} StackTracksDepth(r: TurtleRun, s: string, angle: real, len: real, move: Move)
    requires NeverUnderflows(s)
    ensures |Run(r, s, angle, len, move).stack| == |r.stack| + Depth(s)
    ensures r.stack <= Run(r, s, angle, len, move).stack
  {
    if s != [] {
      var init, c := s[..|s| - 1], s[|s| - 1];
      forall k | 0 <= k <= |init| ensures Depth(init[..k]) >= 0 {
        assert init[..k] == s[..k];
      }
      StackTracksDepth(r, init, angle, len, move);
      assert s == init + [c];
      DepthAppend(init, [c]);
      assert Depth([c]) == Delta(c);
      assert s[..|s|] == s;
    }
  }

  /**
   * `[` w `]` with w bracket-balanced puts the turtle back exactly where and
   * how it was, with the same saved states; only lines were added.
   */
  lemma BracketRestores(r: TurtleRun, w: string, angle: real, len: real, move: Move)
    requires Balanced(w)
    ensures Run(r, "[" + w + "]", angle, len, move).turtle == r.turtle
    ensures Run(r, "[" + w + "]", angle, len, move).stack == r.stack
  {
    forall k | 0 <= k <= |w| ensures Depth(w[..k]) >= 0 {
      LowPointBelowPrefixes(w, k);
    }
    var pushed := Exec(r, '[', angle, len, move);
    assert Run(r, "[", angle, len, move) == pushed;
    RunAppend(r, "[", w, angle, len, move);
    var inner := Run(pushed, w, angle, len, move);
    StackTracksDepth(pushed, w, angle, len, move);
    assert inner.stack == r.stack + [r.turtle];
    RunAppend(r, "[" + w, "]", angle, len, move);
    assert Run(inner, "]", angle, len, move) == Exec(inner, ']', angle, len, move);
  }

  /**
   * The turtle loop of draw(): executes the first count commands and returns
   * the lines drawn.
   */
  method Interpret(commands: string, count: int, startAngle: real, angle: real, len: real, move: Move)
    returns (segments: seq<Segment>)
    requires 0 <= count <= |commands|
    ensures segments == Run(Start(startAngle), commands[..count], angle, len, move).segments
  {
    var turtle := Turtle(Origin, startAngle);
    var stack: seq<Turtle> := [];
    segments := [];
    var i := 0;
    while i < count
      invariant 0 <= i <= count
      invariant TurtleRun(turtle, stack, segments) == Run(Start(startAngle), commands[..i], angle, len, move)
    {
      var cmd := commands[i];
      if cmd == 'F' || cmd == 'G' {
        var next := move(turtle.pos, turtle.heading, len);
        if cmd == 'F' {
          segments := segments + [Segment(turtle.pos, next)];
        }
        turtle := Turtle(next, turtle.heading);
      } else if cmd == '+' {
        turtle := Turtle(turtle.pos, turtle.heading - angle);
      } else if cmd == '-' {
        turtle := Turtle(turtle.pos, turtle.heading + angle);
      } else if cmd == '[' {
        stack := stack + [turtle];
      } else if cmd == ']' {
        if stack != [] {
          turtle := stack[|stack| - 1];
          stack := stack[..|stack| - 1];
        }
      }
      assert commands[..i + 1][..i] == commands[..i];
      i := i + 1;
    }
  }
}
