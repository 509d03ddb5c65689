# Mathematical visualizations: L-system, Lissajous, Henon, de Jong and Lorenz

A Dafny model of the computational core of five p5.js visualizations. Each is
a class that holds its parameters and cached results and is driven by
`updateParams`, `draw` and `activate`. The five are:

- **L-system** (`lsystem.js`). The three built-in presets are *plant*, *koch*
  and *dragon*. Each has an axiom, rewrite rules, a turning angle and a start
  angle. `generate` rewrites the axiom once per iteration and stops early,
  recording the passes done, once the string exceeds 300000 characters.
  `draw` runs a turtle over the whole string or, when animated, over a prefix
  that a cursor advances by at least one command per frame.
- **Lissajous curve** (`lissajous.js`). x = A sin(a t + delta), y = B sin(b t).
  An animated frame advances the time and keeps a trail of the newest
  `trailLength` points. A static frame traces the curve with 501 vertices at t = 2 pi i / 500.
- **Henon map** (`henon.js`). x' = 1 - a x^2 + y, y' = b x from (0, 0). The
  orbit is bounded, fitted into 90% of the canvas and drawn into a buffer
  that every frame shows.
- **Peter de Jong attractor** (`dejong.js`). x' = sin(a y) - cos(b x),
  y' = sin(c x) - cos(d y) from (0, 0). It has bounds widened by 1e-6 on a
  flat axis, a fitted scale with 100 as the fallback, and a centred point
  cloud.
- **Lorenz attractor** (`lorenz.js`). Euler integration from (0.1, 0, 0).
  A transient of min(1000, floor(numSteps / 10)) steps is discarded, then
  numSteps steps are recorded; both loops stop at the first state that is
  not finite. The x-z projection is bounded, padded by 5% on each side and
  drawn as one polyline.

Shared pieces:

- `geometry.dfy`: points, boxes, running bounds, the 90% fit and the canvas
  transform.
- `orbits.dfy`: iterating a map from a seed.

What the model does not include:

- p5's `sin`, `cos` and the turtle's `translate` are opaque function values.
- Divergence (`isFinite`) is an opaque predicate.
- Rendering becomes a value of type `Frame`: a placeholder text, nothing, a
  point cloud, a polyline or a list of line segments. For Henon, de Jong and
  Lorenz it carries canvas coordinates. For Lissajous it carries the
  coordinates handed to `point` and `vertex`. The L-system's lines are in
  turtle coordinates: the start-angle rotation is part of the turtle's
  heading, but the `translate(w/2, h/2)` of main.js:115-119 is not applied.

## Model

| member | source | states |
|---|---|---|
| Geometry.Min | dejong.js:132-133 | `Math.min`: at most both arguments and equal to one of them |
| Geometry.Max | dejong.js:132-133 | `Math.max`: at least both arguments and equal to one of them |
| Geometry.Extend | henon.js:69-72 | one step of the running min/max: the new box holds the new point and the old box, and an ordered box stays ordered |
| Geometry.BoundsOf | henon.js:61-72 | the running box of a non-empty sequence, seeded by the first point and extended by each later one in order; `BoundsOfContains` and `BoundsOfSmallest` state that it is the tightest box |
| Geometry.ToScreen | lorenz.js:230-233 | translate(w/2, h/2), scale(s), translate(-centre) applied to one point: the box centre lands on the canvas centre (`FitInsideCanvas` places the rest) |
| Geometry.BoundsOfContains | henon.js:69-72 | the running min/max box is ordered and holds every recorded point |
| Geometry.BoundsOfSmallest | henon.js:69-72 | the running box lies inside any box holding all recorded points: it is the tightest box |
| Geometry.FitScale | dejong.js:151-153 | `min(0.9 w / dx, 0.9 h / dy)`: positive on a positive canvas, both axes fit 90% of the canvas, and one axis fills it exactly |
| Geometry.FitInsideCanvas | lorenz.js:231-233 | translate to the canvas centre, scale, translate the box centre to the origin: a point of the box lands in the central 90% of the canvas |
| Geometry.FitAllInsideCanvas | dejong.js:185-202 | every point of the box, transformed, lands in the central 90% of the canvas |
| Geometry.PlotAll | henon.js:89-95 | the plotting loop yields the transformed position of every point, in order |
| Orbits.Orbit | henon.js:64-68 | the recording loop yields exactly n points |
| Orbits.OrbitAt | henon.js:64-68 | the i-th recorded point is the map applied i + 1 times to the start |
| Orbits.OrbitRecurrence | dejong.js:119-126 | the first recorded point is the image of the start and each later point the image of the one before |
| Henon.HenonPointsRecurrence | henon.js:59-68 | max(numPoints, 0) points; the first is (1, 0) and each is the Henon step of the previous one |
| Henon.HenonStep | henon.js:65-67 | the Henon map x' = 1 - a x^2 + y, y' = b x, both from the old point; `HenonPointsRecurrence` states the orbit it generates |
| Henon.DefaultOrbitStart | henon.js:64-68 | with a = 1.4, b = 0.3 the orbit starts (1, 0), (-0.4, 0.3) |
| Henon.RangeOrOne | henon.js:77-78 | `range \|\| 1`: a zero range becomes 1 and any other range is kept, so the divisor is positive and covers a non-negative range |
| Henon.HenonBuffer | henon.js:75-95 | the buffer positions: every point through the transform centred on the running box with scale min(0.9 w / rangeX, 0.9 h / rangeY), zero ranges read as 1; `HenonBufferInCanvas` states where they land |
| Henon.HenonBufferInCanvas | henon.js:75-95 | the buffer holds one position per point, each in the central 90% of the canvas |
| Henon.RecordOrbit | henon.js:59-73 | the loop records the Henon orbit and its running bounds equal the tightest box of the points |
| Henon.HenonVisualization.constructor | henon.js:3-36 | defaults a = 1.4, b = 0.3, 10000 points and an empty buffer; the recalc is pending because the closing `updateParams` call (henon.js:35, 52) sets the flag |
| Henon.HenonVisualization.UpdateParams | henon.js:43-54 | takes the three values and always flags a recalc |
| Henon.HenonVisualization.Activate | henon.js:113-117 | flags a recalc and changes nothing else |
| Henon.HenonVisualization.Recalc | henon.js:56-99 | a no-op unless flagged; otherwise the buffer becomes the fitted orbit and the flag is cleared |
| Henon.HenonVisualization.Draw | henon.js:101-104 | recalculates if flagged, then shows the buffer, which lies in the central 90% |
| DeJong.DeJongPointsRecurrence | dejong.js:112-126 | max(numPoints, 0) points; both coordinates of each come from the previous point |
| DeJong.DeJongStep | dejong.js:120-124 | the de Jong map, both new coordinates from the previous point: (sin(a y) - cos(b x), sin(c x) - cos(d y)); `DeJongPointsRecurrence` states the orbit it generates |
| DeJong.Widen | dejong.js:137-139 | a zero-width axis gets 1e-6 added to its maximum and every other bound is kept, so an ordered box gets strictly positive ranges and still contains the old one |
| DeJong.DeJongBounds | dejong.js:114-140 | the stored bounds: the running box seeded by the first point (all zero without points), widened; `DeJongBoundsSound` states that they hold every point with positive ranges |
| DeJong.DeJongBoundsSound | dejong.js:128-140 | the stored bounds have strictly positive ranges, even for a flat axis or no points, and hold every point |
| DeJong.DeJongScale | dejong.js:143-158 | the stored scale is positive, is the 90% fit when the canvas and ranges are positive, and is 100 on a canvas that is not positive |
| DeJong.DeJongDrawnInCanvas | dejong.js:180-202 | every point drawn with the stored bounds and scale lies in the central 90% of the canvas |
| DeJong.RecordOrbit | dejong.js:111-135 | the loop records the de Jong orbit; the bounds are seeded by the first point (0 with no points) and then are the tightest box |
| DeJong.DeJongVisualization.constructor | dejong.js:9-26 | the four default coefficients, 50000 points, zero bounds, scale 1, a recalculation pending |
| DeJong.DeJongVisualization.UpdateParams | dejong.js:53-89 | takes the values; flags a recalculation exactly when one of them differs |
| DeJong.DeJongVisualization.ResetDefaults | dejong.js:91-106 | restores the defaults and flags a recalculation |
| DeJong.DeJongVisualization.Recalculate | dejong.js:108-162 | a no-op unless flagged; otherwise points, bounds and scale belong to the parameters and the flag is cleared |
| DeJong.DeJongVisualization.Activate | dejong.js:217-224 | recalculates if flagged |
| DeJong.DeJongVisualization.Draw | dejong.js:164-207 | the placeholder without points, otherwise the centred and scaled points, all in the central 90% |
| Lissajous.StaticTimesSpanTwoPi | lissajous.js:230-234 | the static vertices' times start at 0, end at 2 pi and are evenly spaced |
| Lissajous.CurvePoint | lissajous.js:189-193 | the curve point (A sin(a t + delta pi / 180), B sin(b t)) with delta in degrees; `TraceCurve` and `Draw` state which times are sampled |
| Lissajous.TraceCurve | lissajous.js:226-240 | 501 vertices, the i-th being the curve at time 2 pi i / 500 |
| Lissajous.LastN | lissajous.js:199-201 | the newest min(n, length) elements, oldest first |
| Lissajous.KeepNewest | lissajous.js:199-201 | shifting while longer than the cap (and not empty) leaves the newest cap points, none for a cap of 0 or less |
| Lissajous.ShiftLoopNeverEnds | lissajous.js:199-201 | with a negative cap the loop guard as written holds after every pass, and from pass \|trail\| on it shifts an empty trail |
| Lissajous.TrailWindow | lissajous.js:196-201 | trimming frame by frame equals trimming the whole history: the trail is a sliding window of the newest points |
| Lissajous.TrailNewestLast | lissajous.js:196-201 | with a positive cap the trail is non-empty, never exceeds the cap, and ends with the point just pushed |
| Lissajous.LissajousVisualization.constructor | lissajous.js:9-28 | the seven defaults, an empty trail at time 0 |
| Lissajous.LissajousVisualization.UpdateParams | lissajous.js:78-127 | takes all seven values; the animation is reset exactly when a shape parameter changed |
| Lissajous.LissajousVisualization.ResetDefaults | lissajous.js:129-153 | the seven defaults and a reset animation |
| Lissajous.LissajousVisualization.ResetAnimation | lissajous.js:156-160 | empty trail, time 0, parameters unchanged |
| Lissajous.LissajousVisualization.Activate | lissajous.js:255-260 | resets the animation |
| Lissajous.LissajousVisualization.Draw | lissajous.js:162-244 | non-positive amplitudes: the error text and no change; animated: the time advances by speed * 0.05 and the trail is the newest trailLength points of trail + current point (none for a length of 0 or less, as corrected under Findings); static: reset and the traced curve |
| LSystemGrammar.RewriteAppend | lsystem.js:154-158 | one pass distributes over concatenation |
| LSystemGrammar.Replacement | lsystem.js:156 | `rules[char] \|\| char`: the rule's body, or the symbol itself when it has no rule or an empty one; `RewriteKeepsRuleless` states the copying case |
| LSystemGrammar.Rewrite | lsystem.js:154-158 | one rewriting pass, the replacements of the symbols concatenated in order; `RewriteAppend` and `RewriteKeepsNesting` state its properties |
| LSystemGrammar.GenerateFrom | lsystem.js:153-166 | the passes from i on: the first result over 300000 characters stops generation with i + 1 passes recorded, otherwise all n passes; `GenerateFromSpec` states the bounds |
| LSystemGrammar.Generate | lsystem.js:151-166 | the capped expansion of a preset's axiom for n requested passes; `GenerateSpec` and `GenerateIdempotent` state what it returns |
| LSystemGrammar.RewriteKeepsRuleless | lsystem.js:156 | symbols without a rule are copied unchanged |
| LSystemGrammar.RewriteString | lsystem.js:154-158 | the character loop computes one rewriting pass (an empty rule counts as none) |
| LSystemGrammar.GenerateFromSpec | lsystem.js:153-166 | from any pass i below n the loop ends after at least i + 1 and at most n passes, on the expansion with that many passes, below the cap before, and over the cap if it stopped early |
| LSystemGrammar.GenerateSpec | lsystem.js:151-166 | with n <= 0 the axiom; otherwise between 1 and n passes, the text is that expansion, no earlier expansion was over 300000 characters, and stopping early means the text is over it |
| LSystemGrammar.GenerateIdempotent | lsystem.js:159-164 | regenerating with the reported iteration count reproduces the same string and count |
| LSystemGrammar.GenerateText | lsystem.js:151-166 | the generation loop computes the capped expansion |
| LSystemGrammar.KochOnePass | lsystem.js:13-18 | one Koch pass gives F+F-F-F+F |
| LSystemGrammar.RewriteKeepsNesting | lsystem.js:154-158 | when every rule is bracket-balanced and no bracket has a rule, a pass keeps the bracket depth and never lowers the lowest prefix depth |
| LSystemGrammar.ExpandKeepsNesting | lsystem.js:153-158 | well-nested rules keep a balanced axiom balanced through any number of passes |
| LSystemGrammar.PlantBodyBalanced | lsystem.js:9 | the plant's X rule is bracket-balanced |
| LSystemGrammar.PlantGrowthBalanced | lsystem.js:9 | the plant's F rule is bracket-balanced |
| LSystemGrammar.PlantWellNested | lsystem.js:7-12 | the plant's rules are well nested |
| LSystemGrammar.KochWellNested | lsystem.js:13-18 | the Koch rule is well nested |
| LSystemGrammar.DragonWellNested | lsystem.js:19-24 | the dragon's rules are well nested |
| LSystemGrammar.PresetsWellNested | lsystem.js:6-26 | every preset has well-nested rules and a balanced axiom |
| LSystemGrammar.GeneratedWellNested | lsystem.js:143-174 | every generated preset string has depth 0 and no prefix closing more brackets than it opened |
| LSystemTurtle.RunAppend | lsystem.js:209-226 | running s then t is running s + t |
| LSystemTurtle.Exec | lsystem.js:210-225 | one command: F draws a line and moves, G moves, + turns by -angle, - by +angle, [ saves the turtle, ] restores the last saved one, anything else is ignored; `SegmentsPerF`, `StackTracksDepth` and `BracketRestores` state its effect |
| LSystemTurtle.Run | lsystem.js:209-226 | the commands executed in order from a start state; `RunAppend` states that runs compose |
| LSystemTurtle.SegmentsPerF | lsystem.js:212-215 | one line per F; lines already drawn are kept |
| LSystemTurtle.StackTracksDepth | lsystem.js:220-224 | on a string that never underflows the saved states grow by the bracket depth and the old ones are kept |
| LSystemTurtle.BracketRestores | lsystem.js:220-224 | `[` w `]` with w balanced restores the turtle and the saved states |
| LSystemTurtle.Interpret | lsystem.js:209-226 | the turtle loop over the first count commands draws the lines of the turtle semantics |
| LSystem.FrameSteps | lsystem.js:202-203 | at least one step per frame: exactly 1 when fewer are requested, the requested count when it is positive |
| LSystem.AdvanceCursor | lsystem.js:204 | the cursor moves forward, never past the end, and reaches the end exactly when the steps cover the rest |
| LSystem.CursorProgress | lsystem.js:199-205 | over any run of frames the cursor is monotone and bounded, and it reaches the end after at most length - index frames |
| LSystem.WholeDrawing | lsystem.js:196-226 | drawing a whole generated preset string ends with an empty stack (no `]` is ignored) and one line per F |
| LSystem.LSystemVisualization.constructor | lsystem.js:29-42 | the plant preset with 4 iterations, angle 25, step 5, generated, cursor 0 |
| LSystem.LSystemVisualization.UpdateParams | lsystem.js:81-119 | a known new preset brings its angle; only a new preset or iteration count flags regeneration and rewinds |
| LSystem.LSystemVisualization.Restart | lsystem.js:132-136 | flags regeneration and rewinds |
| LSystem.LSystemVisualization.ResetAnimation | lsystem.js:138-141 | rewinds the cursor only |
| LSystem.LSystemVisualization.Activate | lsystem.js:239-246 | rewinds the cursor, keeps the string |
| LSystem.LSystemVisualization.Generate | lsystem.js:143-174 | an unknown key gives "" and keeps the cursor; a preset gives its capped expansion, the passes done and cursor 0 |
| LSystem.LSystemVisualization.Draw | lsystem.js:176-229 | regenerates if flagged: a preset's capped expansion of the old iteration count, "" and the old count for an unknown key; the placeholder for "" with the cursor rewound only by a regeneration; animated: the advanced cursor and the lines of that prefix; static: the lines of the whole string |
| Lorenz.TransientSteps | lorenz.js:131 | min(1000, floor(numSteps * 0.1)) equals min(1000, numSteps div 10): at most 1000, at most a tenth of a non-negative count, exactly 1000 from 10000 steps |
| Lorenz.EulerStep | lorenz.js:133-138 | one Euler step: the three derivatives all taken at the old state, then each coordinate moved by its derivative times dt (the same update as lorenz.js:148-155) |
| Lorenz.Settle | lorenz.js:132-143 | the transient loop: up to t steps, stopping right after the first state that is not finite; `SettleTransient` states that the loop computes it |
| Lorenz.Record | lorenz.js:146-171 | the recording loop: up to numSteps states, the state that is not finite recorded before stopping; `RecordShape` states its shape |
| Lorenz.RecordShape | lorenz.js:146-171 | at most numSteps states; each is the Euler step of the one before; all but the last are finite; stopping early happens only on a state that is not finite |
| Lorenz.Pad | lorenz.js:179-182 | each axis widened by 5% of its range on both sides: the ranges become 110%, the centre is kept, and an ordered box is contained in the padded one |
| Lorenz.LorenzBounds | lorenz.js:173-183 | the stored bounds: the default box (-20, 20, 0, 50) for fewer than two points, else the padded x-z box; `LorenzBoundsSound` states its properties |
| Lorenz.LorenzBoundsSound | lorenz.js:173-183 | the stored box is ordered; with two or more points it holds every x-z point and each range is 110% of the points' own |
| Lorenz.LorenzScale | lorenz.js:218-228 | the scale is positive: the 90% fit on a positive canvas, otherwise 1 |
| Lorenz.LorenzFrame | lorenz.js:196-247 | what draw shows: the placeholder for fewer than two points, nothing for a zero range, otherwise the x-z polyline centred and scaled; `LorenzFrameInCanvas` states where it lands |
| Lorenz.LorenzFrameInCanvas | lorenz.js:203-247 | every vertex of the drawn polyline lies in the central 90% of the canvas |
| Lorenz.SettleTransient | lorenz.js:128-143 | the transient loop ends in the settled state |
| Lorenz.RecordSteps | lorenz.js:146-171 | the recording loop records the states and its running x-z bounds are the tightest box of them |
| Lorenz.LorenzVisualization.constructor | lorenz.js:9-24 | sigma 10, rho 28, beta 8/3, 10000 steps, dt 0.01, no points, a recalculation pending |
| Lorenz.LorenzVisualization.UpdateParams | lorenz.js:67-99 | takes the five values; flags a recalculation exactly when one differs |
| Lorenz.LorenzVisualization.ResetDefaults | lorenz.js:102-122 | restores the defaults and flags a recalculation |
| Lorenz.LorenzVisualization.Activate | lorenz.js:261-266 | flags a recalculation |
| Lorenz.LorenzVisualization.Calculate | lorenz.js:124-187 | the points and the default or padded bounds belong to the parameters, and the flag is cleared |
| Lorenz.LorenzVisualization.Draw | lorenz.js:189-250 | the placeholder for fewer than two points, nothing for a zero range, otherwise the fitted x-z polyline in the central 90% |

## Left out

- User interface: sliders, `parseFloat`/`parseInt`, `toFixed` display spans, `updateControls`, buttons and event listeners are not modelled. Each `UpdateParams` takes the already-parsed values as arguments.
- Rendering is not modelled: colours, hue cycling, stroke weights, `frameCount`, `push`/`pop` of styles, and the offscreen graphics object. A frame is described by the coordinates it draws.
- Floating point is modelled as exact reals. Infinity, NaN, `isFinite` and rounding are not represented.
- Divergence in the Lorenz loops is an opaque predicate on the state, and the non-finite guards in de Jong's scale computation (dejong.js:148, dejong.js:155) and in Lorenz's drawing (lorenz.js:213, lorenz.js:225) are left out. A state that is not finite therefore still takes part in the bounds.
- Lorenz bounds: the source tests `minX === Infinity || points.length < 2`. The model keeps only the length test, since with exact reals the first test holds only when nothing was recorded.
- Henon with numPoints <= 0: the source divides by infinite ranges. The model gives an empty buffer, since nothing is drawn in either case.
- LSystem.LSystemVisualization.Draw: the frame's step count is a parameter. The source derives it as `ceil(speed * (1 + log10(max(1, length))))`, and logarithms are not modelled. The `Math.max(1, ...)` clamp is modelled.
- LSystem.LSystemVisualization.Generate: the `try`/`catch` that resets the string to the axiom is not modelled, since nothing in the loop throws over strings and maps.
- LSystemTurtle.Exec: a `]` with no saved state is ignored. In the source that `pop` is not empty: it restores the state saved at lsystem.js:187, before the start-angle rotation, so the turtle returns to the centre with heading 0. A further unmatched `]` would restore the frame of main.js:117, before the centring translate. The model does not capture either. `LSystemGrammar.GeneratedWellNested` and `LSystem.WholeDrawing` show that a whole generated preset string never reaches this case.
- The turtle's forward move (`translate` in a rotated frame) is an opaque function of position, heading and length, because it needs cos and sin in degrees.
- Lissajous and de Jong use p5's `sin`/`cos` in degrees mode. Both are opaque function values here; the Lissajous delta conversion `delta * pi / 180` is modelled.
- Lissajous static frame: with degrees mode set at main.js:102, t from 0 to 2 pi is an arc of 2 pi degrees of `sin`'s argument, not a full period. The model samples the same times as lissajous.js:230-237 and makes no claim about periods.
- Lissajous phase: `delta` is converted to radians (lissajous.js:191, lissajous.js:235) and then handed to the degrees-mode `sin`, so the phase applied is delta * pi / 180 degrees. The model keeps this as written.
- Lissajous's other non-finite parameter checks are not modelled; only the `a <= 0 || b <= 0` test is.
- The constructors' calls to `updateParams` read the sliders' starting values into the parameters. The model assumes that the page markup starts every slider at the visualization's default, so the parameters keep their defaults. The markup is not part of this model.
- Henon.HenonVisualization.constructor: the only effect of its `updateParams` call that the model keeps is the recalc flag (henon.js:52). The Henon constructor never sets that flag itself.
- The calls that `activate` and `resetDefaults` make to `updateParams` re-read sliders that already hold the current values, so only their display updates remain, and those are not modelled. The same goes for `redraw` requests and console output.
- `main.js` (page wiring, the shared animation state) and `flower.js` are not part of this model.

## Findings

| source | as written | input that shows it | evidently intended | confidence | as-written member | corrected member |
|---|---|---|---|---|---|---|
| lissajous.js:199-201 | `while (this.points.length > this.trailLength) this.points.shift()` | an animated frame with `trailLength` = -1: the length never drops below 0, so the guard always holds and the loop shifts an empty array forever | a trail of at most max(trailLength, 0) points, the newest ones | medium; not executed (the slider's range lives in the page markup, which is not part of this model) | Lissajous.ShiftLoopNeverEnds | Lissajous.KeepNewest |
