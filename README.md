# Live2D desktop pet: animation, todo store and message box

This project models, in Dafny, the core of a desktop-pet application that drives a
Live2D character and proves properties of the model. It covers four parts of the
renderer.

- **The animation composer** (`Live2dAnimator`). It keeps its animators in a list
  ordered by ascending priority. Each frame it ticks every animator once, from the last
  entry to the first, and drops the animators that answer `null`. It then writes the
  collected parameter updates into the Cubism core's parameter array. A weight-1 write
  replaces a value; any other weight adds `value * weight` to it.
- **The six animators.**
  - LipSync: the RMS level of an audio chunk opens the mouth.
  - Blink: a three-state blink and half-close machine.
  - EyeBall: a gaze machine of fixations and eased saccades, with micro-drift.
  - Angle: eased head turns that follow the eyes, plus a Perlin-noise wobble.
  - BodyAngle: the body follows the head and sways.
  - Expression: a sine-eased transition between two faces.
  - Beside them, `updateExpression` pulls `{...}` commands out of a text and starts the
    expression animator for each command that carries a happiness level.
- **The animation mathematics** (`animationMath.ts`): the scaling, clamping, rounding
  and easing curves, and the one-dimensional gradient noise. The noise's permutation
  table is built once, on first use, by a Fisher–Yates shuffle.
- **The todo store** and **the message box.**
  - The store handles loading, adding, updating, completing and deleting items, the
    daily reset, and the filtered and sorted view.
  - The message box keeps a priority queue of messages. It shows one at a time and
    schedules the next show when a message is hidden.

Nothing here is executed. Everything the program reads from the outside world is a
parameter of the model:

- the clock is a `now: real`;
- every `Math.random()` result is one element of a `draws: seq<real>`, each in `[0, 1)`;
- `Math.sin`, `Math.cos` and `Math.sqrt` are the fields of a `MathLib` value. Its
  `Valid()` states the facts the proofs use: sin and cos lie in [-1, 1], sin is
  non-negative on [0, π], cos 0 = 1, cos π/2 = 0 and cos π = -1, and sqrt is
  non-negative on non-negative inputs with sqrt 0 = 0;
- `JSON.parse` is a function parameter;
- `new Date(s).toLocaleDateString()` and the Date timestamps are the fields of a `DateOps` value; the string comparison of locale dates is written out;
- what the IPC call `get-todos` returned is a `Fetched` value.

Each animator is a class whose fields its methods update. Every method states the
animator's whole new state and its output. The composer's list is a `seq` field. The
core's parameter values are an `array<real>`.

Modules: `Wrappers` (wrappers.dfy, the optional value), `AnimationMath` (animation_math.dfy), `StableSort` (stable_sort.dfy, the stable
descending sort that both `Array.prototype.sort` call sites rely on), `Animators`
(animators.dfy), `Composer` (composer.dfy), `TodoStore` (todo_store.dfy) and
`MessageService` (message_service.dfy).

## Model

| member | source | states |
|---|---|---|
| AnimationMath.LinearScale1 | src/renderer/src/utils/animationMath.ts:15-19 | a degenerate input range gives outMin; inMin maps to outMin and inMax to outMax |
| AnimationMath.LinearScale1Affine | src/renderer/src/utils/animationMath.ts:15-19 | the value at fraction λ of the input range lands at fraction λ of the output range (the map is affine) |
| AnimationMath.LinearScale1Between | src/renderer/src/utils/animationMath.ts:15-19 | a value inside the input range maps between the two output bounds |
| AnimationMath.Clamp | src/renderer/src/utils/animationMath.ts:52-54 | with min <= max the result is in [min, max]; it is the value itself when that is in range, and min or max when the value lies below or above |
| AnimationMath.RandomFloat | src/renderer/src/utils/animationMath.ts:45-47 | a draw in [0, 1) gives a value in [min, max], strictly below max when min < max |
| AnimationMath.Round | src/renderer/src/utils/live2dAnimators.ts:463 | Math.round: the integer within half a unit of x, halves rounding up |
| AnimationMath.Round2 | src/renderer/src/utils/live2dAnimators.ts:463-464 | Math.round(x*100)/100 is within 0.005 of x |
| AnimationMath.Round3 | src/renderer/src/utils/live2dAnimators.ts:403-404 | Math.round(x*1000)/1000 is within 0.0005 of x |
| AnimationMath.RoundBetween | src/renderer/src/utils/live2dAnimators.ts:463 | rounding never crosses an integer bound |
| AnimationMath.Round2Between | src/renderer/src/utils/live2dAnimators.ts:528 | rounding to hundredths keeps a value inside bounds that are hundredths |
| AnimationMath.Round3Between | src/renderer/src/utils/live2dAnimators.ts:403-404 | rounding to thousandths keeps a value inside bounds that are thousandths |
| AnimationMath.Cubic | src/renderer/src/utils/animationMath.ts:24-26 | ease-in-out cubic fixes 0, 1/2 and 1 and maps [0, 1] into [0, 1] |
| AnimationMath.CubicBranchesAgree | src/renderer/src/utils/animationMath.ts:24-26 | the two branches of cubic meet at t = 1/2, so the curve is continuous there |
| AnimationMath.CubicMonotone | src/renderer/src/utils/animationMath.ts:24-26 | cubic never decreases on [0, 1] |
| AnimationMath.Quart | src/renderer/src/utils/animationMath.ts:31-33 | ease-in-out quartic fixes 0, 1/2 and 1 and maps [0, 1] into [0, 1] |
| AnimationMath.QuartMonotone | src/renderer/src/utils/animationMath.ts:31-33 | quart never decreases on [0, 1] |
| AnimationMath.Sine | src/renderer/src/utils/animationMath.ts:38-40 | ease-in-out sine lies in [0, 1] and fixes 0, 1/2 and 1 |
| AnimationMath.Lerp | src/renderer/src/utils/animationMath.ts:89-91 | lerp gives a at t = 0 and b at t = 1 |
| AnimationMath.LerpBetween | src/renderer/src/utils/animationMath.ts:89-91 | for t in [0, 1] the result lies between a and b |
| AnimationMath.Fade | src/renderer/src/utils/animationMath.ts:85-87 | 6t^5 - 15t^4 + 10t^3 fixes 0 and 1 and maps [0, 1] into [0, 1] |
| AnimationMath.Grad | src/renderer/src/utils/animationMath.ts:93-97 | the gradient picked by the low four bits of the hash, times x, is at most 8·|x| in size and is 0 at x = 0 |
| AnimationMath.Lattice | src/renderer/src/utils/animationMath.ts:102 | Math.floor(x) & 255 is a cell index in 0..255 |
| AnimationMath.NoiseAt | src/renderer/src/utils/animationMath.ts:99-111 | the noise of a built table lies in [-8, 8] |
| AnimationMath.NoiseZeroAtLattice | src/renderer/src/utils/animationMath.ts:99-111 | the noise is 0 at every integer point, whatever the table |
| AnimationMath.TableEntriesInRange | src/renderer/src/utils/animationMath.ts:63-83 | every entry of a built table, in either half, is a byte value, so it is a valid index into the table |
| AnimationMath.SwapIndex | src/renderer/src/utils/animationMath.ts:73 | Math.floor(random * (i + 1)) is an index in 0..i |
| AnimationMath.SimpleNoise.constructor | src/renderer/src/utils/animationMath.ts:59-61 | a fresh 512-entry table, not yet built |
| AnimationMath.SimpleNoise.Init | src/renderer/src/utils/animationMath.ts:63-83 | afterwards the table is built: its first half is a permutation of 0..255 and its second half copies the first; a table already built is left unchanged |
| AnimationMath.SimpleNoise.Swap | src/renderer/src/utils/animationMath.ts:74 | the destructuring swap exchanges entries i and j and leaves every other entry alone, so it permutes the first half and keeps the second |
| AnimationMath.SimpleNoise.Noise1d | src/renderer/src/utils/animationMath.ts:99-111 | builds the table on first use, and returns exactly NoiseAt over the built table; a built table never changes again |
| StableSort.InsertDescPermutes | src/renderer/src/services/messageService.ts:66 | an ordered insert adds exactly the new element |
| StableSort.InsertDescSorted | src/renderer/src/services/messageService.ts:66 | an ordered insert keeps a descending sequence descending |
| StableSort.InsertDescStable | src/renderer/src/services/messageService.ts:66 | an ordered insert keeps each key's elements in order, with the new one last among its key |
| StableSort.SortDescSorted | src/renderer/src/stores/todoStore.ts:100-108 | `sort((a, b) => key(b) - key(a))` yields a sequence of non-increasing keys |
| StableSort.SortDescPermutes | src/renderer/src/stores/todoStore.ts:100-108 | the sort is a permutation of its input |
| StableSort.SortDescStable | src/renderer/src/stores/todoStore.ts:100-108 | the sort is stable: for every key, its elements keep their input order |
| StableSort.InsertDescSplits | src/renderer/src/services/messageService.ts:59-66 | inserting into a sorted sequence places the element right after the leading run of keys at least its own |
| StableSort.CountAtLeast | src/renderer/src/services/messageService.ts:59-66 | the leading run of keys at least k: every element before the run's end has key >= k, and the one at its end has key < k |
| StableSort.SortAfterPush | src/renderer/src/services/messageService.ts:59-66 | push then stable sort on a sorted queue is an ordered insert |
| StableSort.SortedFixpoint | src/renderer/src/services/messageService.ts:66 | sorting an already sorted sequence changes nothing |
| Animators.SumSquares | src/renderer/src/utils/live2dAnimators.ts:129-133 | the sum of squares of the samples is non-negative, and 0 for no samples |
| Animators.MouthTarget | src/renderer/src/utils/live2dAnimators.ts:138-145 | below the silence threshold the mouth target is 0; it lies in [0, mouthScale]; an excess of at least maxRmsScale opens the mouth fully, and so does any excess when maxRmsScale is 0 (the Infinity is capped at 1) |
| Animators.Smoothed | src/renderer/src/utils/live2dAnimators.ts:148-151 | exponential smoothing with alpha in [0, 1] lies between the last value and the target; alpha 1 gives the target and alpha 0 the last value |
| Animators.Decay | src/renderer/src/utils/live2dAnimators.ts:204-210 | above 0.001 the mouth value strictly shrinks and stays positive; at or below it, it snaps to 0 |
| Animators.LipSyncAnimator.constructor | src/renderer/src/utils/live2dAnimators.ts:113-119 | the default tuning 0.3, 0.001, 0.1 and 1, a closed mouth, not playing |
| Animators.LipSyncAnimator.UpdateMouthSync | src/renderer/src/utils/live2dAnimators.ts:125-152 | playing; the new mouth value is the smoothed mouth target of the chunk's RMS, and it becomes the last value; the tuning is unchanged |
| Animators.LipSyncAnimator.SetMouthValue | src/renderer/src/utils/live2dAnimators.ts:158-161 | playing, with the mouth at the value clamped to [0, 1] times mouthScale |
| Animators.LipSyncAnimator.StopMouthSync | src/renderer/src/utils/live2dAnimators.ts:166-170 | not playing; both mouth values are 0; the tuning is unchanged |
| Animators.LipSyncAnimator.SetParameters | src/renderer/src/utils/live2dAnimators.ts:175-185 | each given tuning value replaces the current one, an absent one keeps it, and nothing else changes |
| Animators.LipSyncStepDecays | src/renderer/src/utils/live2dAnimators.ts:202-215 | a tick writes ParamMouthOpenY at the new mouth value and changes nothing but that value; playing keeps it; otherwise a non-negative value shrinks towards 0 and snaps to 0 at or below 0.001 |
| Animators.LipSyncAnimator.Update | src/renderer/src/utils/live2dAnimators.ts:202-215 | the mouth decays only when not playing, and exactly one ParamMouthOpenY write at the new value is returned |
| Animators.BlinkOpenness | src/renderer/src/utils/live2dAnimators.ts:268-270 | the openness during a blink lies in [0, 2.5], and in [0, 1.25] while the blink lasts |
| Animators.HalfCloseOpenness | src/renderer/src/utils/live2dAnimators.ts:283-287 | the half-closed openness lies in [0, 2.5], within 0.055 of the chosen value when that value is inside the range |
| Animators.BlinkAnimator.constructor | src/renderer/src/utils/live2dAnimators.ts:222-229 | idle from now, with the interval, half-close duration and half-close value drawn from their ranges |
| Animators.BlinkAnimator.TriggerBlink | src/renderer/src/utils/live2dAnimators.ts:234-238 | blinking from now with a fresh interval in [0.2, 0.4]; the half-close settings are kept |
| Animators.BlinkAnimator.TriggerLongBlink | src/renderer/src/utils/live2dAnimators.ts:243-248 | half-closed from now for [1, 2] s at a value in [1, 1.5]; the interval is kept |
| Animators.BlinkAnimator.Update | src/renderer/src/utils/live2dAnimators.ts:250-302 | the whole next state and output of each branch. A finished blink ends or half-closes, by the first draw against the probability, and writes nothing. A running blink writes both eyes at the blink openness. A finished half-close goes idle. An idle wait that is over starts a blink. The state stays in {0, 1, 2} |
| Animators.BlinkStepValid | src/renderer/src/utils/live2dAnimators.ts:250-302 | a tick keeps the blink invariant; idle goes only to blinking, blinking to idle or half-closed, half-closed only to idle; the output is nothing or both eyes at one openness in [0, 2.5] |
| Animators.NaturalTarget | src/renderer/src/utils/live2dAnimators.ts:328-339 | a new gaze target is in [-1, 1] horizontally and [-0.5, 0.5] vertically |
| Animators.DriftStep | src/renderer/src/utils/live2dAnimators.ts:349-354 | the drift stays within ±0.05 and moves by at most the spread in one step |
| Animators.MoveDuration | src/renderer/src/utils/live2dAnimators.ts:373-374 | a saccade lasts at least 0.1 s, exactly 0.1 s for no distance |
| Animators.EasedPosition | src/renderer/src/utils/live2dAnimators.ts:377-382 | the eased position starts at the start point, ends on the target, and stays between them |
| Animators.NextGazeValid | src/renderer/src/utils/live2dAnimators.ts:365-396 | a tick keeps the gaze invariant: the state stays in {0, 1, 2}, the targets stay in range, and the move duration stays positive |
| Animators.NextGazeCycle | src/renderer/src/utils/live2dAnimators.ts:365-396 | the gaze only moves 0 → 2 → 1 → 0, one step per tick at most |
| Animators.MoveEndsOnTarget | src/renderer/src/utils/live2dAnimators.ts:384-390 | a saccade whose time is up lands exactly on its target and starts a fixation of 1 to 3.5 s |
| Animators.MoveStaysBetween | src/renderer/src/utils/live2dAnimators.ts:377-382 | during a saccade the eyes stay between its start point and its target on both axes |
| Animators.GazeStaysInBox | src/renderer/src/utils/live2dAnimators.ts:365-396 | with a clock that does not run backwards, the eye position and the current move's start stay in the target box [-1, 1] x [-0.5, 0.5] from tick to tick |
| Animators.EyeBallStepValid | src/renderer/src/utils/live2dAnimators.ts:361-406 | a tick keeps the eye-ball invariant and writes ParamEyeBallX and ParamEyeBallY within 0.056 and 0.054 of the new gaze |
| Animators.EyeBallStaysInBox | src/renderer/src/utils/live2dAnimators.ts:361-406 | with a clock that does not run backwards, a tick keeps the eyes in the target box, so the X and Y fields stay within [-1, 1] x [-0.5, 0.5]; the written ParamEyeBallX and ParamEyeBallY, which add the tremor, the drift and the rounding, stay within 1.056 and 0.554 of the centre |
| Animators.EyeBallAnimator.constructor | src/renderer/src/utils/live2dAnimators.ts:309-326 | fixating at the origin from now, with fixationTime and microMovementTime drawn from their ranges |
| Animators.EyeBallAnimator.AddMicroMovements | src/renderer/src/utils/live2dAnimators.ts:341-359 | the drift is redrawn only when its period is over; the offsets are the sine and cosine jitter plus the drift, within ±0.055 and ±0.053; the gaze is untouched |
| Animators.EyeBallAnimator.Update | src/renderer/src/utils/live2dAnimators.ts:361-406 | the gaze takes exactly the NextGaze step, the drift follows AddMicroMovements, and the output is the eye position plus the micro-movements |
| Animators.EyeBallAnimator.StepGaze | src/renderer/src/utils/live2dAnimators.ts:365-396 | the state-machine half of update is exactly NextGaze, and the drift is untouched |
| Animators.EyeBallAnimator.StartMove | src/renderer/src/utils/live2dAnimators.ts:367-375 | the end of a fixation: the move starts now from the current position towards a natural target, lasting MoveDuration of the distance |
| Animators.EyeBallAnimator.GenerateNaturalTarget | src/renderer/src/utils/live2dAnimators.ts:328-339 | only the target changes, to NaturalTarget of the draws |
| Animators.Ease | src/renderer/src/utils/live2dAnimators.ts:430-432 | each of the three easings maps [0, 1] into [0, 1] and fixes 0 and 1 |
| Animators.EasingAt | src/renderer/src/utils/live2dAnimators.ts:472 | `easingFunctions[Math.floor(r * 3)]` picks cubic, quart and sine on the three thirds of [0, 1) |
| Animators.Wobble | src/renderer/src/utils/live2dAnimators.ts:434-440 | the noise wobble of the head lies within ±4.8 |
| Animators.HeadTarget | src/renderer/src/utils/live2dAnimators.ts:477-486 | a new head angle is 20 × (0.7 × eye ± 0.3 × spread), within those bounds |
| Animators.AngleAnimator.constructor | src/renderer/src/utils/live2dAnimators.ts:413-432 | resting at 0 from now, with the interval, the wait, the two noise offsets and the easing drawn from their ranges |
| Animators.AngleAnimator.AddMicroMovement | src/renderer/src/utils/live2dAnimators.ts:434-440 | the base angles plus the noise wobble at each axis's offset; the noise table is built if needed and is never changed once built |
| Animators.AngleAnimator.Update | src/renderer/src/utils/live2dAnimators.ts:442-497 | the whole next state and output of each branch. A finished turn rests, with a new wait and a small random nudge. A running turn writes the eased angle plus the wobble. An idle wait that is over starts a turn towards HeadTarget with a fresh interval and easing. Resting writes the angle plus the wobble |
| Animators.AngleAnimator.Turn | src/renderer/src/utils/live2dAnimators.ts:445-466 | the turning branch of update: the new state and output are the AngleStep of the old state |
| Animators.AngleAnimator.Rest | src/renderer/src/utils/live2dAnimators.ts:466-494 | the resting branch of update: the new state and output are the AngleStep of the old state |
| Animators.AngleStepValid | src/renderer/src/utils/live2dAnimators.ts:442-497 | a tick keeps the head invariant; a change of state writes nothing and restarts the timer; a new turn aims within 20 × (0.7 × eye ± the spread); a tick that reads no noise writes nothing |
| Animators.AngleStepIgnoresTable | src/renderer/src/utils/live2dAnimators.ts:442-497 | a tick that reads no noise gives the same state and output whatever the noise table |
| Animators.TurnStaysBetween | src/renderer/src/utils/live2dAnimators.ts:455-458 | during a turn the eased angle stays between the angle it started from and its target |
| Animators.BodyClamp | src/renderer/src/utils/live2dAnimators.ts:528 | a body angle is within ±30 degrees, and within 0.005 of the input when that is in range |
| Animators.Follow | src/renderer/src/utils/live2dAnimators.ts:539 | one smoothing step shrinks the distance to the target by the factor 0.98 and lands between the current angle and the target |
| Animators.BodyAngleAnimator.constructor | src/renderer/src/utils/live2dAnimators.ts:504-521 | follows the given head animator from now, with the follow strength and the sway amplitude, frequency and phase drawn from their ranges |
| Animators.BodyAngleAnimator.Update | src/renderer/src/utils/live2dAnimators.ts:523-547 | the X target is the head's X times the follow strength plus the sway; the current X follows it by one step; the output is the clamped and rounded X and Z angles |
| Animators.BodyStepFollows | src/renderer/src/utils/live2dAnimators.ts:523-547 | a body tick shrinks the distance to the X target by 0.98, lands between the current angle and it, and writes ParamBodyAngleX and ParamBodyAngleZ within ±30, the Z sway within ±2.005 |
| Animators.FaceFor | src/renderer/src/utils/live2dAnimators.ts:629-634 | the face for a happiness level in [0, 10] is in range; 0 is the sad face and 10 the full smile |
| Animators.Frame | src/renderer/src/utils/live2dAnimators.ts:579-610 | six weight-1 writes of the six expression parameters, at the rounded starting face at e = 0 and the rounded target face at e = 1 |
| Animators.FrameInRange | src/renderer/src/utils/live2dAnimators.ts:579-610 | between two faces in range every frame is in range |
| Animators.TransitionEndsAtTarget | src/renderer/src/utils/live2dAnimators.ts:572-638 | a started transition writes the rounded previous target face at once and the rounded new face when its second is up, with the state unchanged; a stopped animator writes nothing |
| Animators.ExpressionAnimator.constructor | src/renderer/src/utils/live2dAnimators.ts:554-570 | both faces neutral, not running |
| Animators.ExpressionAnimator.Update | src/renderer/src/utils/live2dAnimators.ts:572-615 | while running with t <= 1, the frame at sine(t) is written; otherwise it stops and writes nothing; the faces and timer are kept |
| Animators.ExpressionAnimator.Start | src/renderer/src/utils/live2dAnimators.ts:621-638 | the target face becomes the starting face, the new target is the face for the level, and the transition runs from now |
| Animators.IndexFrom | src/renderer/src/utils/live2dAnimators.ts:647 | the position found is at or after `from`, and it holds c unless it is the end of the text |
| Animators.IndexFromFirst | src/renderer/src/utils/live2dAnimators.ts:647 | no position between `from` and the one IndexFrom finds holds c, so it is the first |
| Animators.Fragments | src/renderer/src/utils/live2dAnimators.ts:647-648 | every match of `/\{[^}]*\}/g` is a '{', then no '}', then '}'; a text without '{' has no match |
| Animators.FragmentsFrom | src/renderer/src/utils/live2dAnimators.ts:647-648 | the same for a global search resuming at a position: every match is a fragment, and with no '{' left there is none |
| Animators.FragmentsFound | src/renderer/src/utils/live2dAnimators.ts:647-648 | a '{' followed somewhere by a '}' always yields at least one match |
| Animators.MatchSpans | src/renderer/src/utils/live2dAnimators.ts:647-648 | every match's span lies inside the text, after the position the search resumes from |
| Animators.FragmentsAtSpans | src/renderer/src/utils/live2dAnimators.ts:647-648 | there is one span per match, and each match is the text at its span |
| Animators.SpansInOrder | src/renderer/src/utils/live2dAnimators.ts:647-648 | the matches come at increasing positions and do not overlap |
| Animators.SpansSkipNothing | src/renderer/src/utils/live2dAnimators.ts:647-648 | no '{' lies before the first match or between two matches, so the global search skips no match |
| Animators.HappyLevels | src/renderer/src/utils/live2dAnimators.ts:650-659 | at most one level per fragment; one fragment gives its `happy` value when it parses and has one, and nothing otherwise; when every fragment parses with a level, there is one level per fragment |
| Animators.HappyLevelsAppend | src/renderer/src/utils/live2dAnimators.ts:650-659 | the fragments are handled one by one, independently: the levels of a concatenation are the concatenation of the levels |
| Animators.AfterLevelsLastTwo | src/renderer/src/utils/live2dAnimators.ts:621-638 | after several starts only the last two levels matter: the target is the last level's face, the starting face the one before it, and the transition runs from now |
| Animators.UpdateExpression | src/renderer/src/utils/live2dAnimators.ts:646-661 | the expression animator is started once per happiness level, in text order, and nothing else happens |
| Composer.FirstAtLeast | src/renderer/src/utils/live2dAnimators.ts:51-58 | the first position whose priority is at least p: every entry before it is lower, and the entry at it is not |
| Composer.InsertKeepsAscending | src/renderer/src/utils/live2dAnimators.ts:50-61 | inserting at that position keeps the list ascending, with the new entry before all entries of equal priority |
| Composer.Survivors | src/renderer/src/utils/live2dAnimators.ts:70-77 | pruning keeps only entries of the list, and never adds one |
| Composer.SurvivorsAscending | src/renderer/src/utils/live2dAnimators.ts:70-77 | pruning finished animators keeps the list ascending |
| Composer.SurvivorsAll | src/renderer/src/utils/live2dAnimators.ts:70-77 | when no tick answers null the list is unchanged |
| Composer.IndexOf | src/renderer/src/utils/live2dAnimators.ts:94 | `indexOf`: the first position holding the id, or -1 exactly when no position holds it |
| Composer.SetParam | src/renderer/src/utils/live2dAnimators.ts:89-105 | only the id's slot changes, and it becomes the blend (replace at weight 1, add value × weight otherwise); an unknown id changes nothing |
| Composer.ApplyAllAppend | src/renderer/src/utils/live2dAnimators.ts:81-83 | applying a concatenation of writes is applying one list after the other |
| Composer.ApplyAllOthers | src/renderer/src/utils/live2dAnimators.ts:81-83 | writes to other names leave a slot alone |
| Composer.LastWriteWins | src/renderer/src/utils/live2dAnimators.ts:81-83 | the last weight-1 write to a known name decides its slot, whatever came before |
| Composer.UnknownIdsIgnored | src/renderer/src/utils/live2dAnimators.ts:93-96 | writes to ids the core does not have change nothing |
| Composer.LowestPriorityWins | src/renderer/src/utils/live2dAnimators.ts:66-84 | the entries answer last to first and their writes are applied in that order, so the last weight-1 write to a name by an entry decides the slot when no entry of lower priority writes the name |
| Composer.LowerPriorityOverrides | src/renderer/src/utils/live2dAnimators.ts:66-84 | with priority 1 writing a and priority 2 writing b to the same parameter, the parameter ends at a |
| Composer.NoWritesCollected | src/renderer/src/utils/live2dAnimators.ts:47 | in the documented order, entries that do not write a name contribute no write to it |
| Composer.HighestPriorityWins | src/renderer/src/utils/live2dAnimators.ts:47 | in the documented order (a higher number is a higher priority, applied last), an entry's last weight-1 write decides the slot when no entry of higher priority writes the name |
| Composer.HigherPriorityOverrides | src/renderer/src/utils/live2dAnimators.ts:47 | in that order, with priority 1 writing a and priority 2 writing b, the parameter ends at b |
| Composer.StepValid | src/renderer/src/utils/live2dAnimators.ts:69-71 | a tick of any animator keeps its invariant and its kind, and depends on the noise table only when it is a head tick that reads the noise |
| Composer.Tick | src/renderer/src/utils/live2dAnimators.ts:71 | every animator answers a list, never null; its new state and answer are the Step of its old state, its peer's position before the tick and the noise table after it; a built table is never changed |
| Composer.TickWatched | src/renderer/src/utils/live2dAnimators.ts:71 | the same tick, plus: every other animator keeps its state, and every animator that does not follow the ticked one keeps the position it reads |
| Composer.InsertIndex | src/renderer/src/utils/live2dAnimators.ts:51-58 | the search loop of add finds exactly FirstAtLeast |
| Composer.CoreModel.constructor | src/renderer/src/utils/live2dAnimators.ts:91-92 | the core holds the given ids and values |
| Composer.Live2dAnimator.constructor | src/renderer/src/utils/live2dAnimators.ts:40-45 | an empty list over the given core |
| Composer.Live2dAnimator.Add | src/renderer/src/utils/live2dAnimators.ts:50-61 | the entry is spliced in at FirstAtLeast; an ascending list stays ascending |
| Composer.Live2dAnimator.TickEntry | src/renderer/src/utils/live2dAnimators.ts:71 | entry i's tick as Tick states it, with the composer's invariant kept and every other entry's state and every unaffected peer position unchanged |
| Composer.Live2dAnimator.Advance | src/renderer/src/utils/live2dAnimators.ts:70-77 | one step of the update loop: entry i answers; when no animator object sits in two entries, the entries after it keep their recorded ticks and entry i's tick is recorded against its peer's position at that moment |
| Composer.Live2dAnimator.TickLoop | src/renderer/src/utils/live2dAnimators.ts:70-77 | the whole loop, last entry to first: every entry answers and the results are their writes in loop order; when no animator object sits in two entries, each entry's new state and answer are its Step |
| Composer.Live2dAnimator.SetModelParameter | src/renderer/src/utils/live2dAnimators.ts:89-105 | with a core, its values become SetParam of the write; without one nothing is written |
| Composer.Live2dAnimator.ApplyResults | src/renderer/src/utils/live2dAnimators.ts:81-83 | the collected writes are applied first to last (ApplyAll) |
| Composer.Live2dAnimator.TickAll | src/renderer/src/utils/live2dAnimators.ts:66-78 | every entry is ticked once, last to first, and answers a list, so no entry is removed; the results are their writes, last entry first; with distinct animators, each entry's new state and answer are its Step, reading its peer's new position when the peer comes later in the list and its old one otherwise |
| Composer.Live2dAnimator.Update | src/renderer/src/utils/live2dAnimators.ts:66-84 | the same per-entry ticks, with the list kept, and then the core's values become the collected writes applied in collection order; the invariant is kept |
| TodoStore.IndexOfId | src/renderer/src/stores/todoStore.ts:121 | findIndex by id: the first matching position, or -1 exactly when none matches |
| TodoStore.AtLeastImportant | src/renderer/src/stores/todoStore.ts:95-97 | the importance filter keeps exactly the items at or above the threshold |
| TodoStore.InDateRange | src/renderer/src/stores/todoStore.ts:73-93 | the date filter keeps exactly the items that are daily, have neither start nor due time, or have some chosen date in their range |
| TodoStore.SameDayPasses | src/renderer/src/stores/todoStore.ts:78-84 | an item whose start and due fall on a chosen day, compared as locale date strings, passes the date filter |
| TodoStore.ImportanceView | src/renderer/src/stores/todoStore.ts:70-111 | with no date filter, a positive threshold and the importance sort, the view holds exactly the items at or above the threshold, sorted by descending importance, with equal importances in list order |
| TodoStore.ViewFromList | src/renderer/src/stores/todoStore.ts:70-111 | for any filter and sort the view only holds items of the list, and no more of them |
| TodoStore.SortedFrom | src/renderer/src/stores/todoStore.ts:100-108 | sorting keeps the length and only holds items of its input |
| TodoStore.TodoList.constructor | src/renderer/src/stores/todoStore.ts:6-11 | an empty list, no date filter, threshold 0, sorted by createTime |
| TodoStore.TodoList.AddTodo | src/renderer/src/stores/todoStore.ts:114-117 | the item is appended and the settings are kept |
| TodoStore.TodoList.UpdateTodo | src/renderer/src/stores/todoStore.ts:120-128 | the first item with the id is replaced, or the item is appended when none has it |
| TodoStore.TodoList.CompleteTodo | src/renderer/src/stores/todoStore.ts:131-137 | only the first item with the id changes, and it becomes completed |
| TodoStore.TodoList.DeleteTodo | src/renderer/src/stores/todoStore.ts:140-146 | the first item with the id is removed; an unknown id changes nothing |
| TodoStore.TodoList.ResetDaily | src/renderer/src/stores/todoStore.ts:36-42 | every daily item becomes not completed; every other item is kept |
| TodoStore.TodoList.LoadTodos | src/renderer/src/stores/todoStore.ts:25-50 | an IPC error keeps the state; no data empties the list; loaded data replaces the list (reset on a new day) and takes the saved filter and sort when present |
| MessageService.PriorityValue | src/renderer/src/services/messageService.ts:11-15 | the weights are in 0..10, 0 exactly for low and 10 exactly for high |
| MessageService.MessageBox.constructor | src/renderer/src/services/messageService.ts:5-7 | no text, an empty queue, nothing visible |
| MessageService.MessageBox.AddMessage | src/renderer/src/services/messageService.ts:56-72 | the message lands after every queued message of at least its priority. When nothing is visible, the head of the queue is shown at once. The queue stays sorted |
| MessageService.MessageBox.Enqueue | src/renderer/src/services/messageService.ts:59-66 | push and stable sort: the ordered insert, with the view unchanged |
| MessageService.MessageBox.ShowNextMessage | src/renderer/src/services/messageService.ts:75-87 | the head of the queue moves into view, or the view clears when the queue is empty |
| MessageService.MessageBox.HideMessage | src/renderer/src/services/messageService.ts:101-111 | the view clears, the queue is kept, and one show-next timer is scheduled exactly when the queue is not empty |
| MessageService.MessageBox.ShowTimerFired | src/renderer/src/services/messageService.ts:107-109 | a pending timer fires and runs showNextMessage |
| MessageService.MessageBox.ClearAllMessages | src/renderer/src/services/messageService.ts:114-118 | the queue and the view are emptied; timers already scheduled stay pending |
| MessageService.MessageBox.ShowWeatherMessage | src/renderer/src/services/messageService.ts:121-123 | adds the prefixed weather text at priority 10 |
| MessageService.MessageBox.ShowReminderMessage | src/renderer/src/services/messageService.ts:125-127 | adds the prefixed reminder text at priority 5 |
| MessageService.MessageBox.ShowSystemMessage | src/renderer/src/services/messageService.ts:129-131 | adds the prefixed system text at priority 0 |
| MessageService.EnqueueOrder | src/renderer/src/services/messageService.ts:56-87 | messages leave highest priority first and, within one priority, in arrival order: the queue after a push and sort is sorted, holds exactly one more message, and per priority appends it last |

## Left out

- IPC, saving and logging are left out. `saveTodos`, the `get-todos`/`save-todos` calls, `console` output and the store's initial `loadTodos()` call are not modelled. What `get-todos` returned is a parameter of `TodoStore.TodoList.LoadTodos`, and whether today differs from the saved day is a boolean.
- The message box's timers are left out: `autoHide` and its configuration lookup (`getConfig`), `checkFirstStartOfDay` and `fetchWeatherAndShow` depend on the configuration store and a clock. Only the 500 ms show-next timer of `hideMessage` is modelled, as the event `ShowTimerFired`.
- `LipSyncAnimator.getStatus` only reports fields; it is not modelled.
- Floating point: numbers are mathematical reals. NaN, infinities and IEEE rounding are not modelled. `Math.round` is exact `floor(x + 0.5)`.
- Each tick reads the clock once. The source calls `Date.now()` separately in each animator; the model gives all animators of one tick the same `now`.
- Every random draw sits in a fixed slot of the draws passed in, whichever branch runs. For example, the eye-ball animator uses slots 0 to 4 for a new target and slots 5 to 7 for the drift. The model does not capture the order in which one shared random source would be consumed.
- Animators.LipSyncAnimator.UpdateMouthSync: requires a non-empty chunk, and an RMS level off the silence threshold when `maxRmsScale` is 0. The source would compute 0 / 0, NaN, in those two cases. With `maxRmsScale` 0 and a level above the threshold the model follows the source: Infinity, capped at 1, opens the mouth fully.
- The `SimpleNoise` static is one object owned by the composer and passed to the head animator's tick. JavaScript's single shared static is therefore modelled as one object.
- AnimationMath.SimpleNoise.Init: states that the table becomes a permutation of 0..255, repeated, but not which permutation the draws select.
- Composer.Live2dAnimator.Advance, Composer.Live2dAnimator.TickLoop, Composer.Live2dAnimator.TickAll and Composer.Live2dAnimator.Update: the per-entry Step record is stated only when no animator object sits in two entries, for the reason given for Update below.
- Composer.Live2dAnimator.Update: the answers of the ticks are a ghost record, the same one for the pruning and for the writes. The per-entry Step is stated only when no animator object sits in two entries; the source does not prevent that, and the model then states the pruning and the writes but not each tick.
- The `splice(i, 1)` of `update` is modelled (`Survivors`), but no animator ever answers `null`, so it never removes an entry.
- TodoStore: `importance` is an integer. The source's field is a JavaScript number; the sort key `b.importance - a.importance` is exact on integers.
- TodoStore.TodoList.CompleteTodo and ResetDaily: items are values. The source mutates the item objects in place, which other holders of the same object would see; aliasing is not modelled.
- MessageService.MessageBox.AddMessage: the priority is always passed. The source's default priority `'normal'` is not modelled separately; it is the same as passing `'normal'`.
- The `try`/`catch` around `setModelParameter` and the optional chaining on `internalModel` are modelled as a core that may be `null`. No other exception is modelled.
- Weight defaulting to 1 in `setModelParameter` is not modelled. Every caller passes a weight, and every animator writes weight 1.
- `JSON.parse` is a function parameter. Which texts are valid JSON is not modelled.
- The todo view's date test compares locale date strings lexicographically, as the source does. The locale formatting itself is the `localeDate` field of the `DateOps` parameter, not computed.
- The Vue reactivity (`ref`, `computed`, `readonly`) is not modelled. The state is class fields and the computed view is a function.

## Findings

| source | as written | input that shows it | evidently intended | confidence | as-written member | corrected member |
|---|---|---|---|---|---|---|
| src/renderer/src/utils/live2dAnimators.ts:66-84 | `update` ticks the list from the last entry to the first and applies the writes in that order, so the lowest priority's weight-1 write is applied last and wins | priority 1 writes a and priority 2 writes b to one parameter: the parameter ends at a | the documentation of `add` (line 47) says a higher number is a higher priority, and the comment at line 69 says update goes from high priority to low: the priority-2 value b should prevail | medium, not executed | Composer.LowestPriorityWins | Composer.HighestPriorityWins |

`Composer.Live2dAnimator.Update` models the code as written, collecting with
`Collected`. `Composer.CollectedByPriority` is the order the documentation describes,
and `Composer.HigherPriorityOverrides` shows the same two writes ending at b there.
