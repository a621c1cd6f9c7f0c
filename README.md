# Animation and interaction core of the tyrant lobby page, in Dafny

The lobby page (`src/main.js`) shows a Live2D character with four small
components that run on each tick of the render loop. This project models
those four components with the rendering and character-model libraries
taken out, and proves properties about them:

- **Pointer trail** (module `Trail`). Two 20-entry histories of pointer
  coordinates work as shift registers. The oldest sample is popped and the
  newest put in front. Each tick, 100 rope points are then recomputed by
  cubic Hermite interpolation with centred-difference tangents. The
  histories and the rope are arrays that the class `Trail.Trail` updates in
  place.
- **Idle motion** (module `Character`). A blink timer closes both eyes when
  it expires and reopens them once both are nearly shut. Every tick it also
  moves the two eye values and the blush value 10% of the way to their
  targets.
- **Drag interaction** (module `Character`). Pointer-down, pointer-move
  and the two pointer-up handlers. They share the dragging flag and the
  targets with the idle motion, so both live on the class
  `Character.Character`.
- **Camera sequencer** (module `Camera`). A fixed keyframe script plays
  once. Instant keyframes snap the container and then pan it linearly.
  Eased keyframes move position and scale along `easeInOutCubic`.

Each imperative piece of the source is a method of a class whose fields are
the closure variables. The pure helpers (`cubicInterpolation`,
`getTangent`, `easeInOutCubic`, `linear`) are functions. Each method is
specified against pure functions (`Shifted`, `CurvePoint`, `IdleStep`,
`Lerp`, `Progress`, `EaseInOutCubic`), and the lemmas state the
properties of those functions. Two long methods of the source are split
into two methods each to keep proofs small, with the same behaviour:
`startAnimation` is `StartAnimation` plus `TakePhase`, and the sequencer
ticker is `Tick` plus `PlaceContainer`. The trail ticker's point loop is
`RecomputePoints`.

Behaviour of the code that is easy to misread, kept as written:
- The sequencer does not loop. Once the last keyframe is done, the index
  keeps growing and nothing is started again.
- The new blink interval is `2000 * r * (4 - 1) + 1`, which lies in
  [1, 6001) ms.
- The blink timer scales the tick delta by 16.67 and the sequencer by 16.0.
- The drag handler writes the X-derived angle to both head axes.

## Model

| member | source | states |
|---|---|---|
| Trail.Shifted | src/main.js:67-70 | pop then unshift keeps the length, puts the new sample at index 0 and moves every old sample i < 19 to i + 1 |
| Trail.ShiftIn | src/main.js:67-70 | the in-place shift of an array equals `Shifted` of its old contents |
| Trail.ShiftedNFills | src/main.js:63-70 | after n ticks with the pointer at rest, the n most recent history slots hold the resting coordinate |
| Trail.Tangent | src/main.js:98-103 | the tangent reads only indices clamped into [0, len-1]; it is the centred difference in the interior and 0 on a constant history |
| Trail.HermiteEndpoints | src/main.js:87-95 | a Hermite segment starts at p0 with slope m0 and ends at p1 with slope m1 |
| Trail.Hermite | src/main.js:87-95 | the cubic Hermite segment evaluates to p0 at u = 0 and to p1 at u = 1 |
| Trail.HermiteFlat | src/main.js:90-95 | the basis weights of p0 and p1 sum to 1, so equal points with zero tangents give a flat segment |
| Trail.CubicInterpolation | src/main.js:83-96 | as written, with `k + 1 < len` required for the unclamped read: at integer t = k it returns `array[k]`, and on a constant history it returns the constant |
| Trail.CubicInterpolationClamped | src/main.js:83-96 | the corrected interpolation is defined for every t in [0, len), agrees with the as-written one wherever that is defined, hits the samples at integer t, and is constant on a constant history |
| Trail.SegmentsJoin | src/main.js:83-96 | consecutive segments meet at each knot in value and in slope (C1 continuity) |
| Trail.NextSampleInRange | src/main.js:73-77 | rope point i reads an in-range `array[k + 1]` if and only if i < 95; points 95-99 read index 20, one past the history |
| Trail.CurvePoint | src/main.js:73-80 | the rope point for index i equals the as-written interpolation for i < 95, equals the history sample i/5 when 5 divides i, and is the constant on constant histories (points 95-99: the corrected interpolation, see Findings) |
| Trail.SampleParam | src/main.js:76 | `(i / 100) * 20` is exactly i / 5, and stays in [0, 20] for rope indices in [0, 100] |
| Trail.TrailCollapsesAtRest | src/main.js:63-80 | once the pointer has rested for 20 or more ticks, every rope point sits on the pointer (points 95-99: the corrected interpolation, see Findings) |
| Trail.Trail.constructor | src/main.js:35-48 | both histories start filled with the character's position, all rope points at the origin, no pointer sample yet |
| Trail.Trail.MouseMove | src/main.js:53-61 | a move event records the global pointer position |
| Trail.Trail.Tick | src/main.js:63-81 | without a pointer sample nothing changes; otherwise both histories become `Shifted` of the old ones by the pointer coordinates and every rope point is the `CurvePoint` of the new histories |
| Trail.Trail.RecomputePoints | src/main.js:72-80 | the loop leaves every one of the 100 rope points equal to its `CurvePoint` |
| Character.Smooth | src/main.js:170-173 | one smoothing step lands between the old value and the target, and the remaining gap is exactly 0.9 times the old one (so it stays put when already on target) |
| Character.NextBlinkInterval | src/main.js:166 | the new blink interval `6000 * r + 1` lies in [1, 6001) for r in [0, 1) |
| Character.IdleStep | src/main.js:149-173 | one idle tick never touches the blush target, keeps the blink interval or draws one in [1, 6001), sets each eye target to 0, to 1 or leaves it, and either resets the timer to 0 or advances it by `delta * 16.67` |
| Character.IdleStepTimerAndSmoothing | src/main.js:149-173 | the timer grows by `delta * 16.67` unless the blink closes this tick (then it is 0); every tick all three values take one smoothing step toward the new targets; the blush target is untouched |
| Character.BlinkCloses | src/main.js:152-167 | outside a drag, an expired timer resets to 0 and both eye targets become 0, unless both eyes are already shut, in which case the reopen rule fires in the same tick: both targets become 1 and a new interval is drawn |
| Character.BlinkQuiet | src/main.js:152-168 | outside a drag, a tick whose timer has not expired and whose reopen condition is false leaves both eye targets and the blink interval unchanged |
| Character.BlinkReopens | src/main.js:158-167 | outside a drag, both eyes at or below 0.01 with both targets 0 makes both targets 1 and draws a new interval in [1, 6001) |
| Character.BlinkSuppressedWhileDragging | src/main.js:150-168 | while dragging the timer still runs, but targets and interval are unchanged |
| Character.BlinkCompletes | src/main.js:149-173 | over any run of 45 idle ticks with no pointer event in between (no pointer-down and no window pointer-up), a started blink finishes: with both targets closed and eyes in [0, 1], both targets reopen within those ticks, for every sequence of deltas and random draws |
| Character.DragAngle | src/main.js:213-226 | the written angle equals the captured start angle exactly when the pointer is back at the drag start, and is larger exactly when the pointer is to the right of it |
| Character.DragAngleTracksPointer | src/main.js:215-224 | moving the pointer by d pixels moves the angle by 0.09 * d |
| Character.Character.constructor | src/main.js:137-147 | blink due after 4000 ms, eyes targeted open, blush target -5, current values read from the model, not dragging |
| Character.Character.Tick | src/main.js:149-186 | the new idle state is `IdleStep` of the old one under the current dragging flag |
| Character.Character.PointerDown | src/main.js:200-211 | starts dragging, captures pointer and head angles, sets the right-eye target to 0 and the blush target to 10; the left-eye target is untouched |
| Character.Character.PointerMove | src/main.js:213-227 | while dragging, both head angles become `modelStartX + (x - dragStartX) * 0.09`; otherwise nothing changes |
| Character.Character.StagePointerUp | src/main.js:229-231 | only clears the dragging flag |
| Character.Character.WindowPointerUp | src/main.js:233-237 | clears dragging and resets the right-eye target to 1 and the blush target to -5 |
| Camera.Animations | src/main.js:241-283 | the script has four keyframes of 2000 ms each: three instant ones with a pan, then an eased zoom out to (0, 0) at scale 1 |
| Camera.OrElse | src/main.js:314 | JavaScript's logical or on an optional number: a defined non-zero `a` is the result, otherwise `b`; and it is 0 exactly when `a` is undefined or 0 and `b` is 0 |
| Camera.KeyframeDuration | src/main.js:314 | the phase length falls back from duration to hold to 0: a non-zero duration wins, otherwise a given hold, and the length is 0 exactly when neither is a non-zero number |
| Camera.ScriptPansExactlyWhenInstant | src/main.js:317 | `hasPan` (both pan coordinates given) holds for a keyframe of the script exactly when it is instant |
| Camera.EaseInOutCubic | src/main.js:333-335 | the easing gives 0 at 0, 0.5 at 0.5 and 1 at 1 |
| Camera.EaseBounds | src/main.js:333-335 | on [0, 1] the easing stays in [0, 1], below 0.5 before the midpoint and at least 0.5 after it |
| Camera.EaseMonotone | src/main.js:333-335 | the easing is non-decreasing on [0, 1] |
| Camera.EaseSymmetric | src/main.js:333-335 | the easing is point-symmetric: `ease(1 - t) == 1 - ease(t)` |
| Camera.Linear | src/main.js:337 | the pan curve maps 0 to 0, 1 to 1, and [0, 1] into [0, 1] |
| Camera.Lerp | src/main.js:358-365 | the container interpolation gives the start at weight 0, the end at weight 1, and stays between them for weights in [0, 1] |
| Camera.Progress | src/main.js:353 | `min(progress / duration, 1)` never exceeds 1, is exactly 1 once progress reaches the duration, and is the elapsed fraction before that |
| Camera.EasedMidpointExample | src/main.js:353-366 | halfway through an eased move from (0, 0, 1) to (100, 0, 2), the container is at (50, 0) with scale 1.5 |
| Camera.Sequencer.constructor | src/main.js:285-339 | the sequencer starts at keyframe 0 with progress 0, with every phase variable entered from a container at the origin at scale 1: an instant first keyframe has snapped the container and starts its pan there, an eased one starts from the origin, and without a pan the pan end is the origin |
| Camera.Sequencer.StartAnimation | src/main.js:299-331 | an index past the end restarts at 0; otherwise the index is kept, progress resets, target/duration (duration, else hold, else 0)/mode come from the keyframe, `hasPan` holds iff both pan coordinates are given, and an instant keyframe snaps the container with the pan starting on the target |
| Camera.Sequencer.TakePhase | src/main.js:306-321 | the keyframe's fields are copied into the phase variables, with the current container as the start |
| Camera.Sequencer.PlaceContainer | src/main.js:353-366 | the container is put on the linear pan or on the eased path at t = min(progress/duration, 1); at or after the duration it sits exactly on the pan end or on the target |
| Camera.Sequencer.Tick | src/main.js:341-367 | progress grows by `delta * 16`; the index advances only when progress reaches the duration; a new keyframe is entered only while the index is in range, so past the last keyframe the phase is never re-initialised; the invariant (phase matches keyframe `min(index, last)`) is kept |

## Findings

| source | as written | input that shows it | evidently intended | confidence | as-written member | corrected member |
|---|---|---|---|---|---|---|
| src/main.js:86 | `array[k + 1]` is read without clamping, while the tangents clamp their indices | any tick after the first pointer move: rope point i = 95 gives t = 19, so the code reads `history[20]`, which is undefined, and the point becomes NaN; the same holds for points 96-99 | clamp the second sample index to `array.length - 1`, as `getTangent` does | high (not executed) | Trail.NextSampleInRange | Trail.CubicInterpolationClamped |

## Left out

- Pixi application and stage setup, Live2D model loading, texture loading, and construction of the Sprite, SimpleRope and Container. These are library plumbing and I/O.
- `resizeContent` depends on the library's `getBounds`, so it is not modelled. The unused `getParameterDefaultValue(22)` call is not modelled either.
- Event registration and delivery are not modelled. Each handler is a method, and the host calls the tickers and handlers one at a time.
- Model parameter get/set calls become fields (`angleX`/`angleY` and the three current values). Other writers of those parameters, such as the character runtime's own motions, are not modelled.
- `Math.random()` becomes the parameter `r` in [0, 1). The screen size becomes the parameters of `Camera.Animations`.
- Numbers are `real`. IEEE rounding, NaN and Infinity are not modelled. `Camera.Sequencer` requires every keyframe to have a positive length, which rules out the 0/0 of a zero-length phase. The source's script meets this requirement.
- Trail.Trail.Tick, Trail.CurvePoint, Trail.TrailCollapsesAtRest: for rope points 95-99 they use the clamped interpolation, where the source computes NaN (see Findings). Points 0-94 agree with the source exactly.
- Trail.HermiteSlope: it is written down as the term-by-term derivative of the Hermite basis. That it is the derivative is not proved, so `SegmentsJoin` shows slope agreement only for this formula.
- Character.BlinkCompletes: it covers only runs of idle ticks with no pointer event (no pointer-down and no window pointer-up) between the 45 ticks, and it fixes the eyes' starting openness to [0, 1]. A window pointer-up during a blink sets only the right-eye target back to 1, so the reopen rule, which needs both targets at 0, cannot fire; the left eye then stays targeted shut until the blink timer next expires.
