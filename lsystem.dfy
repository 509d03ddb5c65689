/**
 * The L-system visualization: the selected preset and iteration count, the
 * generated string with its regeneration flag, and the animation cursor that
 * decides how much of the string draw() hands to the turtle.
 */
module LSystem {
  import opened Geometry
  import opened LSystemGrammar
  import opened LSystemTurtle

  const DefaultKey: string := "plant"
  const DefaultIterations: int := 4
  const DefaultStepLength: real := 5.0
  const GeneratingMessage: string := "Generating L-System..."

  /** What generate() produces for a key: a known preset's capped expansion, otherwise "". */
  function GeneratedFor(key: string, n: int): Generation {
    if key in Presets then Generate(Presets[key], n) else Generation("", n)
  }

  /** The rotation applied before the turtle starts: `presets[key]?.startAngle || 0`. */
  function StartAngleOf(key: string): real {
    if key in Presets then Presets[key].startAngle else 0.0
  }

  /** Steps per animated frame: the requested count, but at least one. */
  function FrameSteps(requested: int): (steps: int)
    ensures steps >= 1 && steps >= requested
    ensures requested >= 1 ==> steps == requested
    ensures requested < 1 ==> steps == 1
  {
    if requested < 1 then 1 else requested
  }

  /** One animated frame moves the cursor forward, clamped to the string length. */
  function AdvanceCursor(index: int, steps: int, length: int): (next: int)
    requires 0 <= index <= length && steps >= 1
    ensures index <= next <= length
    ensures next == length <==> index + steps >= length
    ensures next < length ==> next == index + steps
  {
    if index + steps < length then index + steps else length
  }

  /** The cursor after a run of animated frames, one requested step count per frame. */
  function CursorAfter(index: int, requests: seq<int>, length: int): int
    requires 0 <= index <= length
    decreases |requests|
  {
    if requests == [] then index
    else CursorAfter(AdvanceCursor(index, FrameSteps(requests[0]), length), requests[1..], length)
  }

  /**
   * Over any run of animated frames the cursor never moves back or past the
   * end, gains at least one position per frame until the end, and so reaches
   * the end after at most length - index frames; once there it stays.
   */
  lemma {:induction false} CursorProgress(index: int, requests: seq<int>, length: int)
    requires 0 <= index <= length
    ensures index <= CursorAfter(index, requests, length) <= length
    ensures CursorAfter(index, requests, length) >= if index + |requests| < length then index + |requests| else length
    ensures |requests| >= length - index ==> CursorAfter(index, requests, length) == length
    ensures index == length ==> CursorAfter(index, requests, length) == length
    decreases |requests|
  {
    if requests != [] {
      CursorProgress(AdvanceCursor(index, FrameSteps(requests[0]), length), requests[1..], length);
    }
  }

  /**
   * Drawing all of a generated preset string returns the turtle to an empty
   * stack (no `]` is ever ignored) and draws one line per F.
   */
  lemma WholeDrawing(key: string, n: int, angle: real, len: real, move: Move)
    requires key in Presets
    ensures Run(Start(StartAngleOf(key)), GeneratedFor(key, n).text, angle, len, move).stack == []
    ensures |Run(Start(StartAngleOf(key)), GeneratedFor(key, n).text, angle, len, move).segments|
      == multiset(GeneratedFor(key, n).text)['F']
  {
    var text := GeneratedFor(key, n).text;
    GeneratedWellNested(key, n);
    StackTracksDepth(Start(StartAngleOf(key)), text, angle, len, move);
    SegmentsPerF(Start(StartAngleOf(key)), text, angle, len, move);
  }

  class LSystemVisualization {
    var ruleSetKey: string
    var iterations: int
    var angle: real
    var stepLength: real
    var lstring: string
    var needsGeneration: bool
    /** Animation progress: how many commands an animated frame draws. */
    var currentIndex: int

    /**
     * The cursor is never negative and stays within a non-empty string, and
     * outside a pending regeneration the string is what generate() produces
     * for the current key and iteration count.
     */
    ghost predicate Valid()
      reads this
    {
      0 <= currentIndex &&
      (lstring != [] ==> currentIndex <= |lstring|) &&
      (!needsGeneration ==> lstring == GeneratedFor(ruleSetKey, iterations).text)
    }

    constructor ()
      ensures Valid() && !needsGeneration
      ensures ruleSetKey == DefaultKey && angle == Presets[DefaultKey].angle && stepLength == DefaultStepLength
      ensures Generation(lstring, iterations) == LSystemGrammar.Generate(Presets[DefaultKey], DefaultIterations)
      ensures currentIndex == 0
    {
      ruleSetKey := DefaultKey;
      iterations := DefaultIterations;
      angle := Presets[DefaultKey].angle;
      stepLength := DefaultStepLength;
      lstring := "";
      needsGeneration := true;
      currentIndex := 0;
      new;
      Generate();
    }

    /**
     * Takes the control values. A known, different preset is selected and
     * brings its own angle; otherwise the angle control's value is taken.
     * Only a new preset or a new iteration count flags regeneration and
     * rewinds the cursor.
     */
    method UpdateParams(newKey: string, newIterations: int, newAngle: real, newLength: real)
      requires Valid()
      modifies this
      ensures Valid()
      ensures ruleSetKey == if newKey in Presets then newKey else old(ruleSetKey)
      ensures iterations == newIterations
      ensures angle == if newKey != old(ruleSetKey) && newKey in Presets then Presets[newKey].angle else newAngle
      ensures stepLength == newLength
      ensures lstring == old(lstring)
      ensures needsGeneration == (old(needsGeneration) || ruleSetKey != old(ruleSetKey) || iterations != old(iterations))
      ensures currentIndex == if ruleSetKey != old(ruleSetKey) || iterations != old(iterations) then 0 else old(currentIndex)
    {
      var presetChanged := false;
      var needsRegen := false;
      if newKey != ruleSetKey && newKey in Presets {
        ruleSetKey := newKey;
        angle := Presets[ruleSetKey].angle;
        presetChanged, needsRegen := true, true;
      }
      if newIterations != iterations {
        iterations := newIterations;
        needsRegen := true;
      }
      if !presetChanged && newAngle != angle {
        angle := newAngle;
      }
      if newLength != stepLength {
        stepLength := newLength;
      }
      if needsRegen {
        needsGeneration := true;
        ResetAnimation();
      }
    }

    /** The regenerate button: flags regeneration and rewinds the cursor. */
    method Restart()
      requires Valid()
      modifies this
      ensures Valid() && needsGeneration && currentIndex == 0
      ensures ruleSetKey == old(ruleSetKey) && iterations == old(iterations) && lstring == old(lstring)
      ensures angle == old(angle) && stepLength == old(stepLength)
    {
      needsGeneration := true;
      ResetAnimation();
    }

    method ResetAnimation()
      requires Valid()
      modifies this
      ensures Valid() && currentIndex == 0
      ensures ruleSetKey == old(ruleSetKey) && iterations == old(iterations) && lstring == old(lstring)
      ensures angle == old(angle) && stepLength == old(stepLength) && needsGeneration == old(needsGeneration)
    {
      currentIndex := 0;
    }

    /** Switching to this visualization rewinds the animation but keeps the string. */
    method Activate()
      requires Valid()
      modifies this
      ensures Valid() && currentIndex == 0
      ensures ruleSetKey == old(ruleSetKey) && iterations == old(iterations) && lstring == old(lstring)
      ensures angle == old(angle) && stepLength == old(stepLength) && needsGeneration == old(needsGeneration)
    {
      ResetAnimation();
    }

    /**
     * An unknown key leaves "" without touching the cursor; a preset is
     * expanded with the cap, the iteration count becomes the passes done,
     * and the cursor is rewound. Either way the flag is cleared.
     */
    method Generate()
      requires Valid()
      modifies this
      ensures Valid() && !needsGeneration
      ensures ruleSetKey == old(ruleSetKey) && angle == old(angle) && stepLength == old(stepLength)
      ensures ruleSetKey !in Presets ==>
        lstring == "" && iterations == old(iterations) && currentIndex == old(currentIndex)
      ensures ruleSetKey in Presets ==>
        Generation(lstring, iterations) == LSystemGrammar.Generate(Presets[ruleSetKey], old(iterations)) && currentIndex == 0
    {
      if ruleSetKey !in Presets {
        lstring := "";
        needsGeneration := false;
        return;
      }
      var ruleset := Presets[ruleSetKey];
      var g := GenerateText(ruleset, iterations);
      lstring, iterations := g.text, g.iterations;
      GenerateIdempotent(ruleset, old(iterations));
      needsGeneration := false;
      currentIndex := 0;
    }

    /**
     * One frame: regenerates if flagged; an empty string shows only the
     * placeholder. Otherwise an animated frame advances the cursor by
     * FrameSteps(requestedSteps) and draws that many commands, while a
     * static frame draws the whole string and leaves the cursor alone.
     */
    method Draw(animate: bool, requestedSteps: int, move: Move) returns (frame: Frame)
      requires Valid()
      modifies this
      ensures Valid() && !needsGeneration
      ensures ruleSetKey == old(ruleSetKey) && angle == old(angle) && stepLength == old(stepLength)
      ensures lstring == GeneratedFor(ruleSetKey, iterations).text
      ensures !old(needsGeneration) ==> lstring == old(lstring) && iterations == old(iterations)
      ensures old(needsGeneration) && ruleSetKey in Presets ==>
        Generation(lstring, iterations) == LSystemGrammar.Generate(Presets[ruleSetKey], old(iterations))
      ensures old(needsGeneration) && ruleSetKey !in Presets ==> lstring == "" && iterations == old(iterations)
      ensures lstring == [] ==>
        currentIndex == if old(needsGeneration) && ruleSetKey in Presets then 0 else old(currentIndex)
      ensures lstring == [] ==> frame == Placeholder(GeneratingMessage)
      ensures lstring != [] && animate ==>
        currentIndex == AdvanceCursor(if old(needsGeneration) then 0 else old(currentIndex), FrameSteps(requestedSteps), |lstring|)
      ensures lstring != [] && animate ==>
        frame == Lines(Run(Start(StartAngleOf(ruleSetKey)), lstring[..currentIndex], angle, stepLength, move).segments)
      ensures lstring != [] && !animate ==>
        currentIndex == (if old(needsGeneration) then 0 else old(currentIndex)) &&
        frame == Lines(Run(Start(StartAngleOf(ruleSetKey)), lstring, angle, stepLength, move).segments)
    {
      if needsGeneration {
        Generate();
      }
      if lstring == "" {
        frame := Placeholder(GeneratingMessage);
        return;
      }
      var commandsToProcess := |lstring|;
      if animate {
        var stepsPerFrame := FrameSteps(requestedSteps);
        currentIndex := AdvanceCursor(currentIndex, stepsPerFrame, |lstring|);
        commandsToProcess := currentIndex;
      }
      var segments := Interpret(lstring, commandsToProcess, StartAngleOf(ruleSetKey), angle, stepLength, move);
      assert lstring[..|lstring|] == lstring;
      frame := Lines(segments);
    }
  }
}
