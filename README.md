# Gesture pointer engine: a Dafny model

This project models the pointer-control engine of the Agamotto hand-gesture
system together with its smoothing filter and its finger counter:

- `MouseController` (`hand_control/src/controller.py`). Once per camera frame
  it receives the tracked hands. It runs the two-handed unlock and lock
  ritual, records four calibration points that define a region of interest
  (ROI), classifies the first hand's gesture with pinch hysteresis and a
  debounce, maps the hand into screen coordinates through two One-Euro
  filters, and issues pointer commands (move, click, right click, middle
  click, double click, mouse down and up, scroll) and feedback sounds.
- `LowPassFilter` and `OneEuroFilter` (`hand_control/src/filter.py`).
- `HandDetector.get_gesture` (`hand_control/hand_tracking.py`), which counts
  raised fingers from pixel landmarks and names the result.

The model has two layers.

- **Value layer.** Each state machine of the controller is a datatype with a
  step function, and the properties are lemmas about those functions:
  - `Activation.ActStep` models `update_system_state`;
  - `Gestures.Classify` models `detect_gesture_priority`;
  - `Calibration.CalStep` models `process_calibration`;
  - `Dispatch.RunStep` models `process_running` after the mapping;
  - `Mapping.Target` and `Engine.Smooth` model `map_coordinates`;
  - `Filter.EuroStep` models `OneEuroFilter.__call__`;
  - `Engine.EngineStep` models `process` as a whole.
- **Object layer.** `Controller.MouseController`, `Filter.LowPassFilter` and
  `Filter.OneEuroFilter` are classes whose methods update their fields in
  place, statement by statement, as the Python methods do. Each method is
  proved to leave the object in exactly the state the step function gives,
  and to append exactly that function's events to the command log.
  `HandTracking.GetGesture` is a method with the source's loop, proved equal
  to `HandTracking.GestureOf`.

The controller's thirty-odd scalar attributes are grouped into five record
fields:

| field | Python attributes |
|---|---|
| `act` | `is_active`, `activation_start_time`, `deactivation_start_time`, `unlock_phase`, `phase1_expire_time` |
| `cls` | `_right_pinching`, `_left_pinching`, `last_gesture`, `gesture_consecutive_frames` |
| `cal` | `calibration_points`, `calibration_add_hold_start`, `calibration_delete_hold_start`, `calibration_cooldown_until`, `_pinky_pinching`, `calibration_step`, `is_calibrated`, `roi` |
| `run` | `current_gesture`, `gesture_lock_pos`, `left_pinch_start_time`, `last_left_click_time`, `last_right_click_time`, `is_dragging`, `last_cursor_pos`, `last_fist_click_time`, `is_four_fingers_active`, `last_middle_click_time`, `is_middle_click_active`, `scroll_anchor_y` |
| `metrics` | `last_dist_index`, `last_dist_middle`, both squared |

The remaining attributes are constants (thresholds, durations, the two
filters and the screen size).

Modelling choices:

- Distances are compared squared. `hypot(a, b) / scale < t` becomes
  `(a² + b²) / scale² < t²`, which is exact for non-negative values
  (`Geometry.SquaredComparisonExact`).
- `time.time()` is the parameter `now`, and `pyautogui.size()` gives the
  constructor's parameters.
- Commands and sounds are `Events.Event` values appended to `log`.
- Python's `int()` on floats is `Common.Trunc`, which truncates toward zero.
- Landmarks are a sequence of exactly 21 points.

### Behaviour of the code worth noting

- **Debounce.** The code resets `gesture_consecutive_frames` to 0 on the
  frame the detection changes and confirms at 3, so a new gesture needs four
  consecutive detections, not three (`Gestures.FourDetectionsConfirm`,
  `Gestures.ThreeDetectionsDoNotConfirm`).
- **Filter time steps.** The code freezes the filter only when the time
  step is exactly zero. A backwards step stores the new timestamp, both
  factors become 1.0 and the output is the raw input
  (`Filter.BackwardStepPassesThrough`).
- **Thumb test in `get_finger_states`.** The code compares tip-to-MCP
  (landmarks 4 and 2) against IP-to-MCP (landmarks 3 and 2) times 1.4.
- **Fewer than two hands.** This cancels the two hold timers and the unlock
  phase, but it neither locks an unlocked engine nor clears the unlock
  window (`Activation.TooFewHandsResets`). An unlocked engine keeps steering
  with one hand.
- **Malformed landmark lists.** The code does not check them; the model's
  landmark type has exactly 21 entries.
- **Progress and the clock.** Every progress the code reports lies in
  [0, 1] as long as the clock is positive and never runs backwards
  (`Engine.TraceProgressInUnitInterval`). With a clock that runs back, the
  code's `elapsed` can go negative, and so can the progress.

## Model

| member | source | states |
|---|---|---|
| Common.Trunc | hand_control/src/controller.py:351 | `int(x)` truncates toward zero: `0 <= n <= r < n + 1` for non-negative `r`, the mirror image for negative `r` |
| Common.NatString | hand_control/hand_tracking.py:86 | the decimal rendering is non-empty, all digits, and starts with 0 only for zero |
| Common.NatStringRoundTrip | hand_control/hand_tracking.py:86 | parsing the rendering of `n` gives back `n` |
| Common.SeqMin | hand_control/src/controller.py:256 | `min(xs)` is a lower bound of `xs` and an element of it |
| Common.SeqMax | hand_control/src/controller.py:257 | `max(xs)` is an upper bound of `xs` and an element of it |
| Common.Count | hand_control/hand_tracking.py:79 | the count is at most the length, zero iff no element passes, the length iff every element passes |
| Geometry.DistSq | hand_control/src/controller.py:97-102 | the squared distance is non-negative |
| Geometry.ScaleSq | hand_control/src/controller.py:104-107 | the squared hand scale, with zero replaced by one as the `or 1.0` guards do, is positive |
| Geometry.NormDistSq | hand_control/src/controller.py:161 | a squared normalised distance is non-negative |
| Geometry.SquaredComparisonExact | hand_control/src/controller.py:161-162 | `d / s < t` iff `d² < t² s²`, and likewise for `>`, so squaring the thresholds changes no decision |
| Geometry.NormalisedComparison | hand_control/src/controller.py:157-169 | a normalised squared distance is below (above) `t²` iff the raw squared distance is below (above) `t²` times the squared scale |
| Geometry.GetFingerStates | hand_control/src/controller.py:109-123 | five states: the thumb extended iff tip-to-MCP exceeds 1.4 × IP-to-MCP, each finger iff tip-to-MCP exceeds 1.6 × PIP-to-MCP |
| Geometry.IsScrollGesture | hand_control/src/controller.py:133-150 | true iff the four fingers are extended and every adjacent pair of tips is at most 0.35 hand scales apart |
| Geometry.GetStableHandPos | hand_control/src/controller.py:82-95 | the position is the mean of the wrist and the four MCP joints |
| Geometry.StableHandPosInUnitSquare | hand_control/src/controller.py:82-95 | landmarks in the unit square give a stable position in the unit square |
| Geometry.ShapesExclusive | hand_control/src/controller.py:125-154 | an open palm is never a fist, and middle-click, scroll and fist shapes exclude one another |
| Gestures.PinchMetrics | hand_control/src/controller.py:273-276 | the stored index and middle distances are the thumb-to-tip normalised squared distances |
| Gestures.DebounceStep | hand_control/src/controller.py:313-322 | the detection is always remembered; the result is the detection or the gesture in force, and changes only after a run of matching detections reaching the confirm count |
| Gestures.LatchHoldsInBand | hand_control/src/controller.py:280-299 | inside the band between trigger and release a pinch latch keeps its state |
| Gestures.LatchTransitions | hand_control/src/controller.py:280-299 | a latch engages iff the distance is below the trigger and releases iff it is above the release |
| Gestures.LatchRunHoldsInBand | hand_control/src/controller.py:280-299 | over any number of frames inside the band the latch never toggles |
| Gestures.RightPinchFirst | hand_control/src/controller.py:280-289 | the right pinch is detected iff its latch says so, and then the left latch is untouched |
| Gestures.LeftPinchSecond | hand_control/src/controller.py:290-299 | the left pinch is detected iff the right latch is off and the left latch is on; each latch is set iff its pinch is the detection |
| Gestures.ShapePriority | hand_control/src/controller.py:301-311 | without a pinch, middle click beats scroll, scroll beats fist, and move is what remains |
| Gestures.RunInvariant | hand_control/src/controller.py:313-317 | the last `frames + 1` detections all equal `last_gesture` |
| Gestures.ConfirmationNeedsFourDetections | hand_control/src/controller.py:313-322 | whenever the returned gesture changes, the last four detections (or all, with the prior run) were that gesture |
| Gestures.NoEarlySwitch | hand_control/src/controller.py:21-24 | from the initial state, fewer than four frames always return `move` |
| Gestures.TrailingRun | hand_control/src/controller.py:313-317 | `k` equal trailing detections give a counter of at least `k - 1` |
| Gestures.FourDetectionsConfirm | hand_control/src/controller.py:313-322 | four equal trailing detections make that gesture current |
| Gestures.ThreeDetectionsDoNotConfirm | hand_control/src/controller.py:313-322 | three detections of a new gesture leave the current gesture unchanged |
| Activation.LastLabelled | hand_control/src/controller.py:184-186 | a hand with label `h` is found iff one exists, and it is the last one so labelled |
| Activation.SelectHands | hand_control/src/controller.py:181-190 | both labels present: the labelled hands; otherwise the first two hands |
| Activation.PickHands | hand_control/src/controller.py:181-190 | the loop picks the hands `SelectHands` describes |
| Activation.TooFewHandsResets | hand_control/src/controller.py:175-179 | fewer than two hands zero both timers and the phase, keep the lock state and window, return (0, "") and emit nothing |
| Activation.UnlockIff | hand_control/src/controller.py:194-224 | a locked engine unlocks iff the window is live, the hands are crossed and the hold started at least 1.5 s ago; unlocking plays the activation sound and resets the unlock timers |
| Activation.SealingOpensWindow | hand_control/src/controller.py:195-200 | a ring pinch (re)arms the 3 s window, ticks only on first arming, and never shows "PINCH RING" |
| Activation.UncrossingRestartsHold | hand_control/src/controller.py:225-229 | uncrossed hands in a live window zero the hold and show "CROSS HANDS (n s)" with n ≥ 1 |
| Activation.WindowExpiry | hand_control/src/controller.py:230-233 | an expired window without a pinch falls back to "PINCH RING" with phase 0 and no sound |
| Activation.LockIff | hand_control/src/controller.py:235-246 | an unlocked engine locks iff both palms are open after a 1.5 s hold, exactly then plays the deactivation sound, and leaves the unlock fields alone |
| Activation.ProgressInUnitInterval | hand_control/src/controller.py:212-214 | the reported progress lies in [0, 1] in a frame at `now` when neither lock hold started after `now` |
| Activation.ActStepStartsBy | hand_control/src/controller.py:210-237 | a frame at a non-negative time only starts a lock hold at that time, keeps an older start, or clears it |
| Activation.RunActStartsBy | hand_control/src/controller.py:174-248 | after any run with a positive, non-decreasing clock, no lock hold started after the next frame's time |
| Activation.TraceProgressInUnitInterval | hand_control/src/controller.py:212-214 | on every frame of such a run, the reported progress lies in [0, 1] |
| Activation.HoldInvariantStep | hand_control/src/controller.py:208-216 | a running hold always began at a frame from which on every frame showed crossed hands; one frame keeps this |
| Activation.HoldInvariantHolds | hand_control/src/controller.py:208-216 | the hold invariant holds after any sequence of frames from a zeroed hold |
| Activation.UnlockingFrame | hand_control/src/controller.py:208-222 | the unlocking frame has crossed hands and a hold at least 1.5 s old |
| Activation.UnlockNeedsHeldCross | hand_control/src/controller.py:194-222 | unlocking needs crossed hands in every frame of the past 1.5 s of the trace |
| Activation.DeactStep | hand_control/src/controller.py:235-246 | after one frame a locked engine has no lock hold, and a running lock hold was started by an unlocked frame with both palms open, at its time, or kept from before |
| Activation.DeactInvariantExtend | hand_control/src/controller.py:235-246 | such a frame keeps "a running lock hold began at a frame from which on both palms were open in every frame" |
| Activation.DeactInvariantStep | hand_control/src/controller.py:235-246 | one frame keeps the lock-hold invariant |
| Activation.DeactInvariantHolds | hand_control/src/controller.py:174-246 | the lock-hold invariant holds after any sequence of frames from the constructor's locked state |
| Activation.LockNeedsHeldOpenPalms | hand_control/src/controller.py:235-242 | locking needs both palms open in the locking frame and in every frame of a stretch of at least 1.5 s before it |
| Calibration.BoundingBox | hand_control/src/controller.py:253-258 | the ROI is ordered, contains every point, and each edge is attained by some point |
| Calibration.RoiPreview | hand_control/src/controller.py:262-267 | None below two points; otherwise exactly the bounding box of the points (ordered, containing every point, each edge attained) |
| Calibration.UpdateRoi | hand_control/src/controller.py:250-260 | four points set the ROI to their bounding box, set calibrated and play the done sound; anything else changes nothing |
| Calibration.CalStepComplete | hand_control/src/controller.py:386-402 | with four points a frame only finalises the ROI and reports completion at full progress |
| Calibration.CalStepMetrics | hand_control/src/controller.py:362-366 | every calibration frame reports the frame's pinch metrics |
| Calibration.InitialCalInvariant | hand_control/src/controller.py:36-43 | the initial calibration state satisfies the invariant |
| Calibration.CalStepPreserves | hand_control/src/controller.py:359-460 | a frame keeps at most four points, exactly four once calibrated with the ROI their bounding box, and an ordered ROI |
| Calibration.AddIff | hand_control/src/controller.py:423-434 | a point is added iff there is no fist, no cooldown, a pinky pinch and a 0.45 s held add; the added point is the hand position and the 2 s cooldown starts |
| Calibration.UndoIff | hand_control/src/controller.py:410-422 | the last point is removed iff a fist has been held 0.45 s with points present; the cooldown is cleared |
| Calibration.FistTakesPrecedence | hand_control/src/controller.py:410-423 | with a fist no point is added and the add timer is untouched |
| Calibration.CooldownBlocksAdd | hand_control/src/controller.py:404-423 | during the cooldown the number of points never grows |
| Calibration.FourthPointCalibrates | hand_control/src/controller.py:430-437 | the fourth point calibrates, sets the ROI to the bounding box of the four points and plays the done sound |
| Calibration.CalProgressInUnitInterval | hand_control/src/controller.py:404-428 | the calibration progress lies in [0, 1] in a frame at `now` when neither calibration hold started after `now` |
| Calibration.CalStepStartsBy | hand_control/src/controller.py:410-445 | a frame at a non-negative time only starts a calibration hold at that time, keeps an older start, or clears it |
| Calibration.PinkyLatchHysteresis | hand_control/src/controller.py:369-374 | the pinky latch engages below 0.25, releases above 0.33 and holds in between |
| Mapping.Clamp01 | hand_control/src/controller.py:339-340 | the clamp lies in [0, 1] and is the identity there |
| Mapping.Axis | hand_control/src/controller.py:329-340 | each normalised, overdriven, clamped axis lies in [0, 1] |
| Mapping.MapTarget | hand_control/src/controller.py:324-343 | the statements of `map_coordinates` before the filters compute `Target`, and return early exactly for a degenerate ROI |
| Mapping.DegenerateRoi | hand_control/src/controller.py:325-327 | the mapping is skipped exactly for an ROI of zero width or height |
| Mapping.TargetOnScreen | hand_control/src/controller.py:339-343 | every target lies on the screen |
| Mapping.CentreToCentre | hand_control/src/controller.py:329-343 | the ROI centre maps to the screen centre |
| Mapping.OverdriveSaturates | hand_control/src/controller.py:332-340 | a coordinate reaches a screen edge exactly when it is 0.5 / 1.3 or more from the centre |
| Mapping.AxisMonotone | hand_control/src/controller.py:329-340 | each clamped axis is monotone in the hand coordinate |
| Mapping.ScreenAxisMonotone | hand_control/src/controller.py:329-343 | each screen coordinate is monotone in the hand coordinate |
| Dispatch.MoveCursor | hand_control/src/controller.py:350-357 | the only possible command is a move to the truncated position |
| Dispatch.CursorDeadzone | hand_control/src/controller.py:350-357 | the cursor moves iff there is no last position or one axis moved more than 4 px; the new position is then remembered |
| Dispatch.Edge | hand_control/src/controller.py:466-493 | the transition part sets the current gesture and emits at most one click, right click or mouse-up |
| Dispatch.ScrollEvents | hand_control/src/controller.py:534-546 | at most one scroll command |
| Dispatch.LevelAction | hand_control/src/controller.py:495-553 | the level part emits at most one mouse-down, double click, middle click or scroll |
| Dispatch.EdgeCounts | hand_control/src/controller.py:466-493 | exact counts of each command kind on a transition, with the click at the lock position and the right click at the target |
| Dispatch.LevelCounts | hand_control/src/controller.py:495-553 | exact counts of each command kind for the gesture in force |
| Dispatch.CursorCounts | hand_control/src/controller.py:350-357 | a cursor update issues no click, drag or scroll command |
| Dispatch.StepCounts | hand_control/src/controller.py:462-553 | the frame's commands are the transition's, then the level part's, then the cursor's, and each kind's count comes from one part |
| Dispatch.TapClicksOnce | hand_control/src/controller.py:476-487 | a left click happens at most once per frame, iff a short left pinch ends without a drag, at the lock position |
| Dispatch.RightClickIff | hand_control/src/controller.py:471-474 | a right click happens iff the gesture changes to right pinch after the 0.25 s throttle, at the target |
| Dispatch.RunStepPreservesDrag | hand_control/src/controller.py:477-507 | dragging implies a lock position, and every frame keeps this |
| Dispatch.StepState | hand_control/src/controller.py:466-553 | how the transition and level parts change each flag and the lock position; only the transition moves the lock position |
| Dispatch.EdgeState | hand_control/src/controller.py:466-493 | the transition part clears the drag only on a change to move; it sets the lock position to the target on a change to left pinch or scroll, clears it on a change to move, and keeps it otherwise; it leaves the click latches alone |
| Dispatch.LevelState | hand_control/src/controller.py:495-553 | the level part keeps the lock position, starts a drag on its mouse-down, sets a click latch on its click, and move clears both latches |
| Dispatch.DragStartIff | hand_control/src/controller.py:497-507 | a drag starts iff a held left pinch leaves the 30 px deadzone, with exactly one mouse-down |
| Dispatch.DragEndIff | hand_control/src/controller.py:476-479 | a drag ends iff the gesture changes to move, with exactly one mouse-up |
| Dispatch.DragBalance | hand_control/src/controller.py:476-507 | over any frame sequence from a non-drag state, mouse-downs equal mouse-ups plus one while dragging |
| Dispatch.FistClicksOnce | hand_control/src/controller.py:514-528 | double and middle click fire at most once per hold, iff the gesture is held, not yet fired and past the 1 s throttle; `move` re-arms both |
| Dispatch.LockAndFinal | hand_control/src/controller.py:466-503 | the final position is the target or the held lock position; a lock position after the frame is the old one or the target |
| Dispatch.ScrollHoldsCursor | hand_control/src/controller.py:489-491 | entering scroll anchors at the target and holds the cursor there on later scroll frames |
| Dispatch.ScrollAmount | hand_control/src/controller.py:534-546 | a scroll is issued iff the offset exceeds 25 and the hand is not returning; the amount is a non-zero multiple of 20 with the offset's sign |
| Dispatch.DeadzoneHoldsAtLock | hand_control/src/controller.py:497-503 | inside the deadzone the cursor stays at the lock position and no drag starts |
| Engine.ActiveFrameCalibrating | hand_control/src/controller.py:576-581 | before calibration a frame is exactly a calibration frame |
| Engine.ActiveFrameRunning | hand_control/src/controller.py:576-584 | after calibration a frame classifies the gesture and runs it |
| Engine.SmoothDegenerate | hand_control/src/controller.py:325-327 | a degenerate ROI leaves both filters alone and yields (0, 0) |
| Engine.SmoothFilters | hand_control/src/controller.py:342-347 | otherwise each filter takes one step on its axis of the target |
| Engine.ActSoundsOnly | hand_control/src/controller.py:174-248 | the lock ritual plays sounds only and never touches the pointer |
| Engine.CalSoundsOnly | hand_control/src/controller.py:359-460 | calibration plays sounds only |
| Engine.PointerNeedsUnlockAndCalibration | hand_control/src/controller.py:569-587 | a pointer command is issued only by an unlocked, calibrated engine with a hand, in running mode |
| Engine.SnapshotKind | hand_control/src/controller.py:569-587 | standby iff locked or no hand; running iff unlocked, a hand, and calibrated; the progress lies in [0, 1] when neither lock hold started after `now` |
| Engine.EngineStepStartsBy | hand_control/src/controller.py:569-587 | a `process` call at a non-negative time starts lock and calibration holds only at that time |
| Engine.RunEngineStartsBy | hand_control/src/controller.py:569-587 | after any run of `process` calls from the constructor's state with a positive, non-decreasing clock, no hold started after the next call's time |
| Engine.TraceProgressInUnitInterval | hand_control/src/controller.py:212-214 | on every call of such a run, the system progress and the calibration progress lie in [0, 1] |
| Engine.InitialScreenInvariant | hand_control/src/controller.py:15-16 | the initial filters satisfy the on-screen invariant |
| Engine.SmoothOnScreen | hand_control/src/controller.py:342-347 | smoothing an on-screen target with on-screen filter states stays on screen |
| Engine.CursorStaysOnScreen | hand_control/src/controller.py:569-587 | every frame keeps the filter states on screen and reports a running position on screen |
| Filter.Tau | hand_control/src/filter.py:32 | the time constant is positive |
| Filter.Alpha | hand_control/src/filter.py:29-33 | 1.0 for a non-positive step, otherwise strictly between 0 and 1 with `a (te + tau) = te` |
| Filter.Cutoff | hand_control/src/filter.py:55 | the adaptive cutoff is at least the minimum cutoff |
| Filter.LowPassBetween | hand_control/src/filter.py:13 | a low-pass output lies between the previous output and the input, and no further from the input |
| Filter.FirstSamplePassesThrough | hand_control/src/filter.py:39-43 | the first sample is returned unchanged and starts both filters |
| Filter.ZeroStepFreezes | hand_control/src/filter.py:45-49 | a zero time step returns the last output and changes nothing |
| Filter.BackwardStepPassesThrough | hand_control/src/filter.py:29-57 | a backwards step returns the raw input with both factors at 1.0 |
| Filter.ForwardStepIsConvex | hand_control/src/filter.py:51-57 | a forward step is a convex combination of input and previous output with factor in (0, 1), strictly closer to the input |
| Filter.FixedPoint | hand_control/src/filter.py:51-57 | feeding the last output returns it again |
| Filter.StepApproachesInput | hand_control/src/filter.py:45-57 | after the first sample no call moves the output away from the input |
| Filter.ConstantInputApproaches | hand_control/src/filter.py:35-57 | a constant input fed at any timestamps never moves the output away from it |
| Filter.StaysWithinBounds | hand_control/src/filter.py:35-57 | inputs and state within `[lo, hi]` give an output within `[lo, hi]` |
| Filter.LowPassFilter.constructor | hand_control/src/filter.py:5-7 | the filter starts at the initial value with the given factor |
| Filter.LowPassFilter.Filter | hand_control/src/filter.py:9-15 | the state becomes `LowPassStep` of the old state and the call returns the new value |
| Filter.LowPassFilter.LastValue | hand_control/src/filter.py:17-18 | `last_value` is the stored output |
| Filter.OneEuroFilter.constructor | hand_control/src/filter.py:21-27 | a filter with the given parameters and no previous timestamp |
| Filter.OneEuroFilter.Call | hand_control/src/filter.py:35-57 | the call's new state and result are exactly `EuroStep` of the old state |
| Controller.MouseController.constructor | hand_control/src/controller.py:12-80 | every attribute starts at its source default; the log is empty |
| Controller.MouseController.UpdateSystemState | hand_control/src/controller.py:174-248 | the lock fields, progress, message and sounds follow `ActStep` |
| Controller.MouseController.Unlock | hand_control/src/controller.py:194-233 | the locked branch follows `ActStep` |
| Controller.MouseController.Lock | hand_control/src/controller.py:235-248 | the unlocked branch follows `ActStep` |
| Controller.MouseController.UpdateRoiFromCalibration | hand_control/src/controller.py:250-260 | the calibration fields and sound follow `UpdateRoi` |
| Controller.MouseController.DetectGesturePriority | hand_control/src/controller.py:269-322 | latches, debounce counters, metrics and the returned gesture follow `Classify` |
| Controller.MouseController.DetectRawGesture | hand_control/src/controller.py:278-311 | the latches and the raw detection follow `DetectRaw` |
| Controller.MouseController.MapCoordinates | hand_control/src/controller.py:324-348 | the filters advance and the result is the smoothed target, as `Smooth` says; nothing else changes |
| Controller.MouseController.FilterTarget | hand_control/src/controller.py:345-347 | each filter advances by one `EuroStep` on its axis |
| Controller.MouseController.MoveCursor | hand_control/src/controller.py:350-357 | the last cursor position and the move command follow `Dispatch.MoveCursor` |
| Controller.MouseController.EdgeActions | hand_control/src/controller.py:466-493 | the running fields and commands follow `Edge` |
| Controller.MouseController.LevelActions | hand_control/src/controller.py:495-553 | the running fields, commands and final position follow `LevelAction` |
| Controller.MouseController.ScrollActions | hand_control/src/controller.py:534-546 | the scroll command follows `ScrollEvents` |
| Controller.MouseController.RunActions | hand_control/src/controller.py:466-553 | the running fields, commands and final position follow `RunStep` |
| Controller.MouseController.ProcessRunning | hand_control/src/controller.py:462-567 | the whole state, snapshot and commands follow `RunningFrame` |
| Controller.MouseController.ProcessCalibration | hand_control/src/controller.py:359-460 | the calibration fields, metrics, returned view and sounds follow `CalStep` |
| Controller.MouseController.CalibrateHand | hand_control/src/controller.py:576-581 | the uncalibrated branch of `process` follows `CalibrationFrame` |
| Controller.MouseController.CalibrationGestures | hand_control/src/controller.py:404-445 | the cooldown message and the undo, add and idle branches follow `CalStep` |
| Controller.MouseController.HoldFist | hand_control/src/controller.py:410-422 | the undo branch follows `CalStep` |
| Controller.MouseController.HoldPinky | hand_control/src/controller.py:423-439 | the add branch follows `CalStep` |
| Controller.MouseController.Process | hand_control/src/controller.py:569-587 | the whole new state, the snapshot and the appended commands and sounds are exactly `EngineStep` of the old state |
| Controller.MouseController.ProcessHand | hand_control/src/controller.py:576-587 | an unlocked frame with a hand follows `ActiveFrame` |
| Controller.MouseController.ClassifyAndRun | hand_control/src/controller.py:582-584 | classification then `process_running` follow `Classify` and `RunningFrame` |
| HandTracking.GetGesture | hand_control/hand_tracking.py:50-86 | the loop's result is `GestureOf`, `None` exactly for an empty list, and independent of `hand_type` |
| HandTracking.RaisedCountIsSum | hand_control/hand_tracking.py:54-79 | the count is the number of raised fingers, each counted once, at most five |
| HandTracking.GestureNameInjective | hand_control/hand_tracking.py:81-86 | different counts get different labels |
| HandTracking.FistIff | hand_control/hand_tracking.py:81-82 | "Fist (0)" iff no finger is raised |
| HandTracking.OpenHandIff | hand_control/hand_tracking.py:83-84 | "Open Hand (5)" iff all five are raised |
| HandTracking.FingersLabel | hand_control/hand_tracking.py:85-86 | otherwise the label is "n Fingers" with 1 ≤ n ≤ 4, and the number shown is the count |

## Left out

- Camera, MediaPipe and OpenCV (`find_hands`, `find_position`,
  `get_hand_type`, `main`, `camera.py`, `vision.py`, `ui.py`, `main.py`) are
  device I/O, drawing and a driver loop. The only input the model takes is
  the list of hand frames.
- `pyautogui` is the command log. The model does not follow the OS cursor's
  actual position or failures.
- `SoundManager` (`sound.py`) gives the sound events in the log. Its beeps on
  background threads are out of scope as concurrency.
- `OneEuroFilter.__call__` reads the clock when no timestamp is given. The model always passes one, as `map_coordinates` does.
- `time.time()` is read at most twice per `process` call in the source:
  once in `update_system_state` when two or more hands are seen, and once
  in whichever of `process_calibration` and `process_running` runs. The
  model uses one `now` per call.
- `is_hands_crossed` is an empty stub and is not modelled.
- Floating point: the model computes over exact reals. Rounding, and the
  effect of `int()` on values that are not exactly representable, are out of
  scope. π is a positive constant.
- `last_dist_index` and `last_dist_middle` are stored squared, because
  distances are compared squared. The `debug` values of the snapshot are
  therefore squares.
- The snapshot dictionaries are datatypes (`Engine.Snapshot`). Their constant `thresh` debug entry, always the pinch trigger 0.28, is not carried.
- Filter.OneEuroFilter.constructor: requires positive cutoffs and a
  non-negative beta. The source accepts any number, and a zero cutoff would
  divide by zero.
- HandTracking.GetGesture: requires an empty list or at least 21 rows. A
  shorter non-empty list makes the source raise an index error, which is not
  modelled.
- Controller.MouseController: the landmark lists are exactly 21 points long.
  A frame with another count cannot be expressed.
- The helper methods `CalibrationGestures`, `HoldFist`, `HoldPinky`,
  `ProcessHand`, `CalibrateHand`, `ClassifyAndRun`, `EdgeActions`, `LevelActions`,
  `ScrollActions`, `RunActions`, `FilterTarget`, `Unlock`, `Lock` and
  `DetectRawGesture` are pieces of the Python methods named in their rows,
  split out so that each proof stays small. They run the same statements in
  the same order. `Mapping.MapTarget` is likewise the first half of
  `map_coordinates`, run outside the object.
