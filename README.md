# Slot-car racing core in Dafny

This project models the simulation core of a browser slot-car racing game
and proves properties of it:

- the **track**, a closed polyline sampled every 2 pixels from a list of
  straight and curved segments, with headings and cumulative arc lengths in
  metres, and its position and pose queries;
- the **physics**: motor and drag along the slot, the three-point curvature
  estimate, the lateral-grip deslot test, the off-track slide and the
  marshal who puts a deslotted car back on the track;
- the **bot driver**: a 15 m lookahead for the lowest corner speed, a
  difficulty margin, and a clamped PID controller that turns the speed
  error into a throttle;
- the **difficulty presets** Easy, Medium and Hard;
- the **race manager**: menu, countdown and running phases, the
  false-start lockout of the human driver (car 0), and lap counting with
  best laps;
- the human **input**: keyboard target, gamepad trigger with a deadzone,
  and a rate-limited throttle ramp;
- the **fixed-step loop**: frame-time accumulation capped at three steps,
  the update drain, the render fraction, and pause and resume. `resume` is
  modelled both as written, where it freezes the loop (see "## Findings"),
  and as corrected, in a separate method.

Numbers are exact `real`s. JavaScript's `%` is modelled as a truncated
remainder (`JsMath.Rem`), and the wrap idiom `((s % L) + L) % L` is proved
equal to a floor modulus (`JsMath.WrapIsJsWrap`). `Infinity` becomes
`ExtReal.Infinity`, and optional fields and `?? ` become `Option`. The
trigonometric functions, `Math.hypot`, `Math.sqrt` and `Math.PI` form a
`Maths` value of function fields that the track carries. `Maths.Valid`
states the few facts the proofs need about them.

Objects whose fields the game updates in place are classes: `Track`,
`CarState`, `Physics`, `Bot`, `RaceManager`, `Input` and `FixedStepLoop`.
They are specified in three ways:

- `CarState`, `RaceManager` and `FixedStepLoop` expose a datatype snapshot
  of their state, `Value()`. Their methods are proved to move that snapshot
  by a pure step function, and the properties are proved about those step
  functions.
- The `Physics` methods are stated through the snapshots of the cars they
  update.
- `Bot` and `Input` state their new fields one by one.

`Track` is built once by its constructor and has only constant fields.

The code and its design notes disagree in two places, and the model follows
the code:

- the cumulative arc lengths start after the first sample rather than at 0;
- the closing entry is the total length plus two pixels' worth of metres,
  not the total length.

## Model

| member | source | states |
|---|---|---|
| JsMath.Clamp | src/systems/physics.ts:22 | the result lies in `[lo, hi]`, is `x` inside the range and the nearer bound outside it |
| JsMath.ClampMonotone | src/ai/Bot.ts:5 | clamping preserves order |
| JsMath.Ceil | src/race/RaceManager.ts:76 | `Math.ceil` is the least integer not below its argument |
| JsMath.Wrap | src/track/Track.ts:118 | the wrapped arc position lies in `[0, len)` |
| JsMath.WrapIsJsWrap | src/track/Track.ts:118 | `((s % L) + L) % L` with truncated `%` equals the floor modulus for every `s`, negative ones included |
| JsMath.WrapUnique | src/track/Track.ts:118 | any decomposition `s = L*q + r` with `0 <= r < L` wraps to `r` |
| JsMath.WrapShift | src/track/Track.ts:118 | adding whole laps does not change the wrapped position |
| JsMath.WrapAdvance | src/race/RaceManager.ts:69-73 | moving less than a lap either stays in the lap or enters the next one, with the offset accordingly |
| JsMath.RemOfNonNegative | src/race/RaceManager.ts:70-71 | on non-negative positions the plain remainder is the wrap |
| JsMath.LapDecomposition | src/race/RaceManager.ts:69-73 | a position is its lap index times the length plus its wrapped offset |
| JsMath.Rem | src/race/RaceManager.ts:70-71 | reference definition of JavaScript's `%` (truncated remainder), bounded by `RemBounds` |
| JsMath.RemBounds | src/race/RaceManager.ts:70-71 | `a % n` lies strictly between `-n` and `n` and has the sign of `a` |
| JsMath.JsWrap | src/track/Track.ts:118 | the wrap idiom exactly as written, which `WrapIsJsWrap` proves equal to `Wrap` |
| JsMath.ToLower | src/ai/Bot.ts:19 | lower-casing keeps the length and leaves no upper-case letter; each upper-case letter becomes the same letter in lower case, and every other character is kept |
| JsMath.ToLowerIdempotent | src/ai/Bot.ts:19 | lower-casing twice is the same as lower-casing once |
| Tracks.SegmentSteps | src/track/Track.ts:47-64 | every segment emits at least one sample |
| Tracks.SegmentStepsCount | src/track/Track.ts:47-64 | a straight emits `floor(len / 2)` samples (1 when shorter), and a curve the least count whose 2-pixel steps cover its arc |
| Tracks.TotalStepsAtLeastSegments | src/track/Track.ts:45-76 | the samples before the closing one are at least as many as the segments |
| Tracks.StraightStepPositive | src/track/Track.ts:54 | each straight sample adds a positive arc length |
| Tracks.CurveStepPositive | src/track/Track.ts:72 | each curve sample adds a positive arc length |
| Tracks.Push | src/track/Track.ts:52-55 | one sample keeps the three arrays parallel, and a positive increment keeps the arc lengths strictly increasing |
| Tracks.StraightRunFacts | src/track/Track.ts:50-56 | `n` straight samples move the point `n` times by `(dx, dy)` and raise the arc length strictly |
| Tracks.CurveRunFacts | src/track/Track.ts:66-74 | `n` curve samples turn the heading `n` times by `dtheta` and raise the arc length strictly |
| Tracks.StraightEnd | src/track/Track.ts:48-51 | the equal steps of a straight add up to its full length along the heading |
| Tracks.CurveTurn | src/track/Track.ts:65-67 | the equal turns of a curve add up to its signed angle |
| Tracks.StraightOutcome | src/track/Track.ts:46-56 | a straight ends `len` along its unchanged heading, and the arc lengths rise strictly |
| Tracks.EmitStraight | src/track/Track.ts:46-56 | the straight loop emits `SegmentSteps` samples, ends at the straight's end point and keeps the heading |
| Tracks.CurveOutcome | src/track/Track.ts:57-75 | a curve turns the heading by its signed angle, and the arc lengths rise strictly |
| Tracks.EmitCurve | src/track/Track.ts:57-75 | the curve loop emits `SegmentSteps` samples and turns the heading by `dirSign * angle` |
| Tracks.CurveStepNonZero | src/track/Track.ts:65 | a turning curve turns at every sample |
| Tracks.BuildSamples | src/track/Track.ts:34-86 | the arrays are parallel, one longer than the samples, and close at the start pose; the last entry is total plus `2 * mpp` and the one before it is the total; a proper description gives strictly increasing arc lengths from a positive first one |
| Tracks.IncreasingIsSorted | src/track/Track.ts:147-155 | strictly increasing arc lengths are sorted, as the binary search needs |
| Tracks.LowerBound | src/track/Track.ts:147-155 | the index found is the first whose arc length is not below `s`, or the last one |
| Tracks.LowerBoundUnique | src/track/Track.ts:147-155 | that characterisation determines the index |
| Tracks.LowerBoundAtSample | src/track/Track.ts:147-155 | searching for a sample's own arc length finds that sample |
| Tracks.Track.FindIndexForMeters | src/track/Track.ts:147-155 | the binary search returns an index in range, equal to the lower bound on sorted arc lengths |
| Tracks.Track.constructor | src/track/Track.ts:28-87 | the track keeps its description and scale, defaults the lane width to 40, closes at the start point, and is valid for a proper description |
| Tracks.Fraction | src/track/Track.ts:120-123 | the interpolation fraction solves `t * (s1 - s0) == s - s0`, lies in `[0, 1]` inside the bracket, and is 0 for a degenerate bracket |
| Tracks.FractionAtHi | src/track/Track.ts:123 | at the upper sample the fraction is 1 |
| Tracks.LerpAtOne | src/track/Track.ts:126 | interpolating by 1 gives the upper point |
| Tracks.Track.Locate | src/track/Track.ts:118-123 | the wrapped position is bracketed by the lower bound and its predecessor (`max(0, idx - 1)`), with the fraction between them |
| Tracks.Track.BracketBeforeClosing | src/track/Track.ts:118-122 | a position inside the lap is bracketed before the closing sample |
| Tracks.Lerp | src/track/Track.ts:124-126 | reference definition of the interpolation between two samples; `LerpAtOne` is proved about it |
| Tracks.Track.SamplePx | src/track/Track.ts:116-127 | reference definition of `samplePx`, which `SamplePeriodic`, `SampleAtSample`, `SampleNearStart` and `SamplePose` characterise |
| Tracks.Track.SamplePose | src/track/Track.ts:129-145 | the pose's point is `samplePx`'s point, and its heading stays within half a turn of the lower sample's heading |
| Tracks.Track.SamplePeriodic | src/track/Track.ts:116-145 | position and pose repeat every lap |
| Tracks.Track.SampleAtSample | src/track/Track.ts:116-127 | sampling at a sample's own arc length gives that sample's point |
| Tracks.Track.SampleNearStart | src/track/Track.ts:116-127 | before the first sample's arc length the position is the first sample |
| Tracks.AngleDelta | src/track/Track.ts:173-175 | the shortest turn lies in `[-pi, pi)` and agrees with `b - a` modulo a whole turn |
| Tracks.RemCongruent | src/track/Track.ts:173 | the truncated remainder differs from its operand by whole turns |
| Tracks.AngleLerp | src/track/Track.ts:171-177 | reference definition of `angleLerp`, characterised by `AngleLerpStart`, `AngleLerpEnd` and `AngleLerpShortest` |
| Tracks.AngleLerpStart | src/track/Track.ts:171-177 | at `t = 0` the interpolation is the first heading |
| Tracks.AngleLerpEnd | src/track/Track.ts:171-177 | at `t = 1` it is the second heading up to whole turns |
| Tracks.AngleLerpShortest | src/track/Track.ts:171-177 | for `t` in `[0, 1]` it never turns more than half a turn |
| Tracks.NearestIndex | src/track/Track.ts:157-168 | the index chosen is closest to the point, and strictly closer than every earlier sample |
| Tracks.Track.FindNearestSMeters | src/track/Track.ts:157-168 | the scan returns the arc length of the first nearest sample |
| Tracks.NearestS | src/track/Track.ts:157-168 | the answer is one of the arc lengths |
| Dynamics.GridCar | src/systems/physics.ts:43-50 | car `i` starts `3i` metres along, standing, in its slot, without off-track fields |
| Dynamics.RadiusFromThreePoints | src/systems/physics.ts:142-152 | the radius is infinite exactly when twice the triangle area is below `1e-6` in magnitude, and otherwise non-negative |
| Dynamics.CollinearIsStraight | src/systems/physics.ts:143-144 | three points on one line are a straight |
| Dynamics.ReversalKeepsCircumcenter | src/systems/physics.ts:143-149 | reversing the three points negates the area and keeps the centre |
| Dynamics.ReversedWeights | src/systems/physics.ts:145-146 | `b` and `c` change sign when the points are reversed |
| Dynamics.NegatedCenter | src/systems/physics.ts:148-149 | negating `a`, `b` and `c` keeps the centre |
| Dynamics.RadiusWindow | src/systems/physics.ts:122-124 | the three indices are two either side of the found one, clamped into the array |
| Dynamics.LocalRadius | src/systems/physics.ts:118-128 | a finite local radius is non-negative |
| Dynamics.LocalRadiusByWrap | src/systems/physics.ts:130-131 | the radius depends on the arc position only through its place in the lap |
| Dynamics.LocalRadiusPeriodic | src/systems/physics.ts:118-139 | the radius estimate repeats every lap |
| Dynamics.Overspeed | src/systems/physics.ts:97-100 | reference definition of the lateral-load test, characterised by `OverspeedMeansGripExceeded` and `FastIntoTightCornerDeslots` |
| Dynamics.ShouldDeslot | src/systems/physics.ts:94-100 | reference definition of the deslot test, characterised by `DeslotByRadius` and `StraightNeverDeslots` |
| Dynamics.OverspeedMeansGripExceeded | src/systems/physics.ts:97-100 | on a corner, `v^2 / r > mu g + 0.01` is `v^2 > (mu g + 0.01) r` |
| Dynamics.FastIntoTightCornerDeslots | src/systems/physics.ts:97-100 | 8 m/s into a 5 m corner deslots and 6 m/s does not |
| Dynamics.Deslot | src/systems/physics.ts:101-114 | a deslot keeps position and speed, starts the 2 s marshal timer, and places the car at the track point of its arc position |
| Dynamics.Eject | src/systems/physics.ts:108-113 | the car is placed at the pose with all off-track fields set |
| Dynamics.SlotSpeed | src/systems/physics.ts:89-90 | reference definition of the new slot speed; `CoastingSlows` is proved about it |
| Dynamics.SlotMove | src/systems/physics.ts:89-91 | the speed is updated first and the car moves by the new speed; nothing else changes |
| Dynamics.SlideScale | src/systems/physics.ts:63-67 | the slide scale factor lies in `[0, 1]` |
| Dynamics.SlideVelocity | src/systems/physics.ts:63-70 | reference definition of the slide velocity, characterised by `SlideVelocityShrinks` |
| Dynamics.SlideVelocityShrinks | src/systems/physics.ts:63-70 | each slide velocity component shrinks towards 0 and keeps its sign |
| Dynamics.Glide | src/systems/physics.ts:62-73 | the slide keeps the off-track fields set and changes nothing else |
| Dynamics.GlideSlows | src/systems/physics.ts:62-73 | a sliding car's velocity shrinks and never turns round |
| Dynamics.Respot | src/systems/physics.ts:76-83 | the respotted car stands at `s`, in its slot, without off-track fields |
| Dynamics.OnTrackStep | src/systems/physics.ts:88-115 | reference definition of a slotted tick, characterised by `SlotMotion`, `DeslotCondition` and `StraightNeverDeslots` |
| Dynamics.OffTrackStep | src/systems/physics.ts:60-86 | reference definition of a deslotted tick, characterised by `WaitingForMarshal`, `MarshalRespots` and `MarshalCountdown` |
| Dynamics.StepCar | src/systems/physics.ts:59-116 | reference definition of `updateCar`, whose mode invariant `StepKeepsMode` proves |
| Dynamics.SlotMotion | src/systems/physics.ts:88-91 | a slotted car's tick moves it by its new speed |
| Dynamics.CoastingSlows | src/systems/physics.ts:89-90 | with the throttle closed the speed falls, but not below 0 |
| Dynamics.DeslotCondition | src/systems/physics.ts:94-114 | a slotted car deslots exactly when the radius after the move is finite and overloaded |
| Dynamics.StraightNeverDeslots | src/systems/physics.ts:96 | an infinite radius never deslots a car |
| Dynamics.WaitingForMarshal | src/systems/physics.ts:74-75 | while the timer stays positive the car stays deslotted at its arc position |
| Dynamics.MarshalRespots | src/systems/physics.ts:75-84 | when the timer runs out the car is respotted at the nearest sample's arc length |
| Dynamics.StepKeepsMode | src/systems/physics.ts:59-116 | every tick keeps the off-track fields set exactly while the car is deslotted |
| Dynamics.MarshalCountdown | src/systems/physics.ts:74 | after `n` ticks shorter than the timer the car is still out, with `n * dt` taken off the timer |
| Dynamics.MarshalDelayElapses | src/systems/physics.ts:74-84 | the tick that uses up the timer respots the car |
| Dynamics.DeslotByRadius | src/systems/physics.ts:94-100 | the deslot test is the overload test on the radius found |
| Dynamics.ThrottleFor | src/systems/physics.ts:54 | a car without a throttle entry gets 0 |
| Dynamics.CarState.constructor | src/systems/physics.ts:44-49 | a new car stands at its grid position in its slot |
| Dynamics.Physics.constructor | src/systems/physics.ts:38-41 | the physics keeps its track and scale and has no cars |
| Dynamics.Physics.InitCars | src/systems/physics.ts:43-50 | `count` fresh cars on the 3 m grid |
| Dynamics.Physics.Update | src/systems/physics.ts:52-57 | every car takes one `StepCar` tick with its own throttle or 0 |
| Dynamics.Physics.UpdateCar | src/systems/physics.ts:59-116 | one tick of one car is `StepCar` |
| Dynamics.Physics.OffTrackTick | src/systems/physics.ts:60-86 | the off-track branch is `OffTrackStep` |
| Dynamics.Physics.SlideTick | src/systems/physics.ts:62-73 | the slide updates the car as `Glide` |
| Dynamics.Physics.OnTrackTick | src/systems/physics.ts:88-115 | the slotted branch is `OnTrackStep` |
| Dynamics.Physics.CheckDeslot | src/systems/physics.ts:94-100 | the curvature test answers `ShouldDeslot` |
| Dynamics.Physics.SlotTick | src/systems/physics.ts:89-91 | motor, drag and move as `SlotMove` |
| Dynamics.Physics.DeslotTick | src/systems/physics.ts:101-114 | the deslot updates the car as `Deslot` |
| Dynamics.Physics.EjectTick | src/systems/physics.ts:103-113 | the car leaves the pose as `Eject` |
| Dynamics.Physics.EstimateLocalRadius | src/systems/physics.ts:118-128 | the estimate is `LocalRadius` |
| Dynamics.Physics.FindIndex | src/systems/physics.ts:130-139 | the search answers the lower bound of the wrapped position |
| Difficulty.FindPreset | src/ai/Bot.ts:19 | a preset found is the first whose name matches ignoring case; none is found exactly when no name matches |
| Difficulty.PresetNames | src/ai/difficulty.ts:7-11 | the table is Easy, Medium, Hard, and the default (`DIFFICULTY[1]`) is Medium |
| Difficulty.NamesDistinctIgnoringCase | src/ai/difficulty.ts:8-10 | no two preset names differ only in case |
| Difficulty.LookupByName | src/ai/Bot.ts:18-24 | each preset's name, in any case, selects that preset |
| Difficulty.MarginsBelowOne | src/ai/difficulty.ts:8-10 | every margin is in `(0, 1)` |
| Difficulty.PresetsEscalate | src/ai/difficulty.ts:8-10 | each harder preset has a larger margin and larger gains |
| Difficulty.GainsPositive | src/ai/difficulty.ts:8-10 | all gains are positive |
| Bots.Offset | src/ai/Bot.ts:42 | the `k`-th lookahead distance is `0.5 k` |
| Bots.LookaheadVisits | src/ai/Bot.ts:39-42 | the loop visits exactly 31 distances, 0 to 15 m |
| Bots.CornerSpeed | src/ai/Bot.ts:45-47 | reference definition of the corner speed `sqrt(0.85 * 9.81 * r)` used by `CornerAt` |
| Bots.Limit | src/ai/Bot.ts:44-48 | reference definition of one loop step, which `SpeedLimitStep` applies |
| Bots.SpeedLimit | src/ai/Bot.ts:41-49 | reference definition of `vMax` after `k` samples, characterised by `SpeedLimitIsMinimum`, `SpeedLimitFalls` and `StraightAhead` |
| Bots.TargetSpeed | src/ai/Bot.ts:37-51 | reference definition of `computeTargetSpeed`, bounded by `TargetAtMostMargin` and `AllStraightTarget` |
| Bots.SpeedLimitStep | src/ai/Bot.ts:43-48 | each sample takes the running minimum with its corner speed, or skips a straight |
| Bots.SpeedLimitIsMinimum | src/ai/Bot.ts:41-49 | the limit is at most 100, at most every corner speed seen, and either 100 or one of them |
| Bots.SpeedLimitFalls | src/ai/Bot.ts:48 | each sample can only lower the limit |
| Bots.TargetAtMostMargin | src/ai/Bot.ts:50 | the target never exceeds `alpha * 100` |
| Bots.StraightAhead | src/ai/Bot.ts:44 | with no corner in sight the limit stays at 100 |
| Bots.AllStraightTarget | src/ai/Bot.ts:41-50 | with no corner in the lookahead the target is `alpha * 100` |
| Bots.PidStep | src/ai/Bot.ts:28-34 | the integral stays in `[-5, 5]` and is unclamped inside it, the throttle is in `[0, 1]`, and the last error is the new error |
| Bots.ThrottleSaturates | src/ai/Bot.ts:33 | `clamp(u / 10, 0, 1)` is 0 for `u <= 0`, 1 for `u >= 10` and `u / 10` between |
| Bots.IntegrateMonotone | src/ai/Bot.ts:29 | a larger error never gives a smaller integral |
| Bots.DerivativeMonotone | src/ai/Bot.ts:30 | a larger error never gives a smaller derivative |
| Bots.ControlMonotone | src/ai/Bot.ts:32 | with non-negative gains the output grows with each term |
| Bots.ThrottleMonotone | src/ai/Bot.ts:33 | the output clamp preserves order |
| Bots.MoreDeficitMoreThrottle | src/ai/Bot.ts:26-35 | with non-negative gains, a larger speed deficit never gives less throttle |
| Bots.Bot.constructor | src/ai/Bot.ts:8-16 | a new bot has the Medium margin and gains and a zero controller memory |
| Bots.Bot.SetDifficulty | src/ai/Bot.ts:18-24 | a matching name sets the preset's margin and gains, an unknown name changes nothing, and the controller memory is kept |
| Bots.Bot.Update | src/ai/Bot.ts:26-35 | the answer and the new memory are the PID step on the target-speed error |
| Bots.Bot.ComputeTargetSpeed | src/ai/Bot.ts:37-51 | the loop computes `TargetSpeed` |
| Bots.Bot.Tighten | src/ai/Bot.ts:43-48 | one loop body advances the running minimum by one sample |
| Bots.Bot.EstimateRadius | src/ai/Bot.ts:53-64 | the bot's estimate equals the physics' `LocalRadius` |
| Bots.Bot.FindIndex | src/ai/Bot.ts:66-73 | the search answers the lower bound of its argument |
| Race.StartPhase | src/race/RaceManager.ts:25-30 | a countdown of `max(0, seconds)` with no false start and no penalty |
| Race.CountdownStep | src/race/RaceManager.ts:39-50 | a throttle above 0.1 latches the false start and sets the 2 s penalty only once; the race runs exactly when the countdown reaches 0 |
| Race.PenaltyStep | src/race/RaceManager.ts:53-55 | a pending penalty runs down by `dt`, never below 0 |
| Race.PhaseStep | src/race/RaceManager.ts:34-56 | reference definition of the phase part of `update`, characterised by `PhaseStepSane`, `PenaltyOnce`, `PhaseNeverRegresses` and `PenaltyRunsDown` |
| Race.PhaseStepSane | src/race/RaceManager.ts:34-56 | each tick keeps the remaining time in `[0, total]` and never raises it |
| Race.MenuSane | src/race/RaceManager.ts:6-10 | the initial phase satisfies the invariant |
| Race.PenaltyOnce | src/race/RaceManager.ts:41-44 | a second press during the countdown does not renew the lockout |
| Race.PhaseNeverRegresses | src/race/RaceManager.ts:34-56 | the menu ignores ticks, running stays running, and no tick goes back to the menu |
| Race.PenaltyRunsDown | src/race/RaceManager.ts:53-55 | after `n` running ticks the penalty is `max(0, p - n dt)` |
| Race.SecondsShown | src/race/RaceManager.ts:75-77 | the countdown shows the least integer not below the remaining time |
| Race.Progress | src/race/RaceManager.ts:79-82 | progress is in `[0, 1]`, 0 without a countdown or at its start, and 1 at its end |
| Race.ProgressGrows | src/race/RaceManager.ts:45-82 | progress never goes backwards during the countdown |
| Race.Gate | src/race/RaceManager.ts:88-93 | the multiplier is 1 exactly when running and the car is not the locked-out human, and 0 otherwise |
| Race.BotsNeverLockedOut | src/race/RaceManager.ts:91 | cars other than car 0 are never held back while running |
| Race.DidWrap | src/race/RaceManager.ts:69-73 | reference definition of `didWrap`, characterised by `WrapIsNewLap` and `StandingNeverWraps` |
| Race.WrapIsNewLap | src/race/RaceManager.ts:69-73 | for a forward move of less than a lap, a wrap is reported exactly when the lap index rises by one |
| Race.StandingNeverWraps | src/race/RaceManager.ts:72 | a car standing still never completes a lap |
| Race.Best | src/race/RaceManager.ts:62 | the best lap is the smaller of the old best and the new lap time |
| Race.LapStep | src/race/RaceManager.ts:58-65 | on a wrap the laps rise by one, the best lap takes the minimum and the lap time restarts; otherwise the lap time grows by `dt` |
| Race.LapStepMonotone | src/race/RaceManager.ts:58-65 | laps never decrease and the best lap never gets worse |
| Race.DriveMonotone | src/race/RaceManager.ts:57-66 | over any sequence of ticks the laps never decrease and the best lap never gets worse |
| Race.RaceManager.constructor | src/race/RaceManager.ts:17-23 | every car starts with no laps, no best lap, no time and position 0, in the menu |
| Race.RaceManager.StartCountdown | src/race/RaceManager.ts:25-32 | the phase is `StartPhase`, lap times restart, and laps, best laps and positions are kept |
| Race.RaceManager.Update | src/race/RaceManager.ts:34-67 | the phase moves by `PhaseStep`; while running each listed car moves by `LapStep`, and the other cars are untouched |
| Race.RaceManager.CountLap | src/race/RaceManager.ts:58-65 | one car's record moves by `LapStep`, and no other record changes |
| Race.RaceManager.GetCountdownSeconds | src/race/RaceManager.ts:75-77 | the ceiling of the remaining time |
| Race.RaceManager.GetCountdownProgress | src/race/RaceManager.ts:79-82 | progress in `[0, 1]`, 0 without a countdown |
| Race.RaceManager.IsFalseStart | src/race/RaceManager.ts:84-86 | reports the false-start latch of the phase, which `CountdownStep` sets and `PenaltyOnce` keeps |
| Race.RaceManager.ThrottleMultiplier | src/race/RaceManager.ts:88-93 | 1 exactly when running and not the locked-out human |
| Inputs.TriggerAxis | src/systems/input.ts:36 | reference definition of the trigger axis, `axes[5]`, else `axes[2]`, else 0; `PadThrottle` bounds what it feeds |
| Inputs.TriggerButton | src/systems/input.ts:37 | the button reads 1 exactly when its value is present and non-zero, or absent with the button pressed, and 0 otherwise |
| Inputs.ApplyDeadzoneAndClamp | src/systems/input.ts:57-62 | the output is in `[0, 1]`, 0 inside the deadzone and 1 at full press |
| Inputs.DeadzoneMonotone | src/systems/input.ts:57-62 | a harder press never gives less throttle |
| Inputs.DeadzoneEdge | src/systems/input.ts:59-61 | the deadzone edge maps to 0 and 0.56 to 0.5 |
| Inputs.PadThrottle | src/systems/input.ts:30-40 | the pad throttle is in `[0, 1]`, 0 without a pad, and 1 with the trigger button held |
| Inputs.FirstPad | src/systems/input.ts:53 | the first connected pad of the list, or none when none is connected |
| Inputs.ActivePad | src/systems/input.ts:49-55 | reference definition of `getActiveGamepad`, which the scan in `Input.GetActiveGamepad` is proved to compute |
| Inputs.TowardBetween | src/systems/input.ts:45 | going part of the way never passes either end |
| Inputs.Ramp | src/systems/input.ts:44-46 | the throttle stays in `[0, 1]` |
| Inputs.RampNoOvershoot | src/systems/input.ts:44-46 | one ramp step lands between the old throttle and the target |
| Inputs.ShareInUnit | src/systems/input.ts:45 | the share of the gap closed is in `[0, 1]` |
| Inputs.RampReaches | src/systems/input.ts:45 | a step long enough lands exactly on the target |
| Inputs.RampAtRest | src/systems/input.ts:45-46 | a throttle at its target stays there |
| Inputs.KeysExclusive | src/systems/input.ts:11-12 | the up keys are exactly `ArrowUp`, `w`, `W`, the down keys exactly `ArrowDown`, `s`, `S`, and no key is both |
| Inputs.Input.constructor | src/systems/input.ts:2-6 | throttle and target start at 0, with no pad held; the invariant (target 0 or 1) holds |
| Inputs.Input.KeyDown | src/systems/input.ts:10-13 | an up key sets the target to 1, a down key to 0, and any other key changes nothing; the target stays 0 or 1 |
| Inputs.Input.KeyUp | src/systems/input.ts:14-16 | releasing an up key sets the target to 0; the target stays 0 or 1 |
| Inputs.Input.GamepadConnected | src/systems/input.ts:18-20 | the first pad connected is held |
| Inputs.Input.GamepadDisconnected | src/systems/input.ts:21-23 | the held pad is let go only when it is the one removed |
| Inputs.Input.Update | src/systems/input.ts:26-47 | the throttle ramps toward the larger of the keyboard target and the pad throttle, by `1/120` s by default; it stays in `[0, 1]` and, for a non-negative step, lands between its old value and that target |
| Inputs.Input.GetActiveGamepad | src/systems/input.ts:49-55 | the held pad's entry, else the first connected pad |
| Engine.FrameTime | src/engine/loop.ts:20-24 | a tick accounts for at most three steps, and for no negative time while the clock does not go back |
| Engine.Drain | src/engine/loop.ts:27-30 | the drain leaves less than one step, never a negative amount from a non-negative start, and takes exactly the time of its updates |
| Engine.DrainAtMost | src/engine/loop.ts:27-30 | less than `n + 1` steps accumulated means at most `n` updates |
| Engine.Alpha | src/engine/loop.ts:32 | the render fraction is in `[0, 1)` when less than a step is left |
| Engine.StartStep | src/engine/loop.ts:13-17 | `start` on a running loop does nothing |
| Engine.TickStep | src/engine/loop.ts:18-19 | a tick of a stopped loop does nothing |
| Engine.PauseStep | src/engine/loop.ts:44-48 | `pause` stops the loop and cancels the pending frame |
| Engine.ResumeStep | src/engine/loop.ts:50-56 | `resume` as written sets the loop running |
| Engine.TickBounds | src/engine/loop.ts:18-35 | a tick runs at most three updates of `dt`, then one render with alpha in `[0, 1)`, leaves less than a step and reschedules itself |
| Engine.TickConservesTime | src/engine/loop.ts:25-30 | the updates of a tick account exactly for the time the accumulator lost |
| Engine.StartThenTick | src/engine/loop.ts:13-36 | after `start`, the next frame renders and schedules the next tick |
| Engine.ResumeStalls | src/engine/loop.ts:50-56 | after `resume` and its frame, the loop is running with no frame pending, and every later frame changes nothing |
| Engine.PauseResumeFreezes | src/engine/loop.ts:38-56 | a hide-and-show cycle leaves a running loop frozen |
| Engine.ResumeIntended | src/engine/loop.ts:50-56 | the corrected `resume` runs, resets the accumulator and schedules a tick |
| Engine.IntendedResumeTicks | src/engine/loop.ts:50-56 | after the corrected `resume` the next frame renders and schedules the next tick |
| Engine.FixedStepLoop.constructor | src/engine/loop.ts:1-11 | a new loop is idle |
| Engine.FixedStepLoop.Start | src/engine/loop.ts:13-42 | `start` moves the state by `StartStep` |
| Engine.FixedStepLoop.Tick | src/engine/loop.ts:18-35 | the tick callback moves the state by `TickStep` |
| Engine.FixedStepLoop.RunFrame | src/engine/loop.ts:34-36 | running the pending frame callback moves the state by `FrameStep` |
| Engine.FixedStepLoop.Pause | src/engine/loop.ts:44-48 | `pause` moves the state by `PauseStep` |
| Engine.FixedStepLoop.Resume | src/engine/loop.ts:50-56 | `resume` as written moves the state by `ResumeStep`, so `ResumeStalls` applies to it |
| Engine.FixedStepLoop.ResumeCorrected | src/engine/loop.ts:50-56 | the corrected `resume` moves the state by `ResumeIntended`, so `IntendedResumeTicks` applies to it |

## Left out

- Floating point: numbers are exact reals, so rounding drift, `NaN` and `-0` are not modelled. `isFinite(r) ? r : Infinity` is therefore the identity on a finite radius.
- `Math.sin`, `Math.cos`, `Math.hypot`, `Math.sqrt` and `Math.PI` are uninterpreted functions with a few stated facts (`Maths.Valid`). Properties that need trigonometric identities, such as a curve sample lying on its arc, are not proved.
- `Track.load` (fetching and parsing the JSON description) is I/O; the constructor takes the parsed description.
- The track's bounding box and lane-edge polylines (src/track/Track.ts:88-107) only feed rendering, so they are not modelled.
- Tracks.Track.SamplePose and the queries built on it require `Valid()`: arc lengths that rise strictly from a positive first entry, and a positive total. That is what a proper description gives: at least one segment, positive lengths and radii, non-zero curve angles and a positive scale. The source copes with more. Its `s1 > s0 ? … : 0` guard (src/track/Track.ts:123, 135) handles repeated arc lengths from a zero-length segment. With a zero total, `% 0` gives `NaN` and the search falls back to index 0. Those tracks are not covered by this model.
- Dynamics.Physics.InitCars takes a `nat` count. The `RangeError` that `new Array(count)` throws for a negative or fractional count is not modelled.
- Race.RaceManager.constructor takes a `nat` car count. The `RangeError` that `new Array(carCount)` throws for a negative or fractional count is not modelled; the game creates its race manager with 4 cars.
- Dynamics.RadiusFromThreePoints: the unused term `d` is not modelled.
- Bots.Bot.EstimateRadius reuses `Dynamics.RadiusFromThreePoints`, because the copy in src/ai/Bot.ts:76-86 is identical to the one in src/systems/physics.ts:142-152.
- Bots.Bot.Update requires `dt != 0`, because the derivative divides by it.
- Race.RaceManager.Update requires at most as many car states as the manager has cars. With more, the source would grow its arrays with `NaN` entries.
- Engine.FixedStepLoop.Tick requires `dt > 0`; with any other step the drain loop would not end.
- `performance.now()`, `requestAnimationFrame`, `cancelAnimationFrame`, `document.hidden` and `navigator.getGamepads()` become parameters. The animation-frame id is replaced by the one pending callback, and the `visibilitychange` listener is only counted.
- The `update` and `render` callbacks of the loop are recorded as the sequence of their arguments, not called.
- `toLowerCase` is modelled on ASCII letters only. That is exact for the key and preset names compared here.
- A gamepad's missing `axes` or `buttons` read as empty sequences.
- The HUD, the start screen and the wiring in src/main.ts are not part of this model.

## Findings

| source | as written | input that shows it | evidently intended | confidence | as-written member | corrected member |
|---|---|---|---|---|---|---|
| src/engine/loop.ts:50-56 | `resume` sets `running = true` before the deferred `start()` runs, so `start` returns at once and no tick is scheduled again | a running loop, then the tab hidden (`pause`) and shown again (`resume`), then any animation frames | `resume` schedules the tick itself, or leaves `running` false for `start` to set | not executed | Engine.ResumeStalls | Engine.IntendedResumeTicks |
