/** `MouseController`: the object that holds every field of the engine and
    whose methods update them in place, frame by frame. The attributes are
    kept in five records, one per part of the controller that owns them
    (activation, gesture classifier, calibration, running mode, pinch
    metrics), and each of those records is a field that the methods update
    step by step. Each method is proved to change the fields exactly as the
    step function of module Engine (and the modules it composes) says, and
    to append exactly that function's pointer commands and sounds to `log`. */
module Controller {
  import opened Common
  import opened Geometry
  import opened Events
  import opened Filter
  import opened Gestures
  import opened Activation
  import opened Calibration
  import opened Mapping
  import opened Dispatch
  import opened Engine

  class MouseController {
    /** `pyautogui.size()`, read once at construction. */
    const screenW: nat
    const screenH: nat
    const filterX: OneEuroFilter
    const filterY: OneEuroFilter

    /** `is_active`, `activation_start_time`, `deactivation_start_time`,
        `unlock_phase`, `phase1_expire_time`. */
    var act: ActState
    /** `_right_pinching`, `_left_pinching`, `last_gesture`,
        `gesture_consecutive_frames`. */
    var cls: Classifier
    /** `calibration_points`, `calibration_add_hold_start`,
        `calibration_delete_hold_start`, `calibration_cooldown_until`,
        `pinky_pinching`, `calibration_step`, `is_calibrated`, `roi`. */
    var cal: CalState
    /** `current_gesture`, `gesture_lock_pos`, `left_pinch_start_time`,
        `last_left_click_time`, `last_right_click_time`, `is_dragging`,
        `last_cursor_pos`, `last_fist_click_time`, `is_four_fingers_active`,
        `last_middle_click_time`, `is_middle_click_active`, `scroll_anchor_y`. */
    var run: RunState
    /** `last_dist_index` and `last_dist_middle`, squared. */
    var metrics: Metrics

    /** Every pointer command and sound issued so far, in order. */
    var log: seq<Event>

    ghost var Repr: set<object>

    ghost predicate Valid()
      reads this, Repr
    {
      && this in Repr
      && filterX in Repr && filterY in Repr
      && filterX.Repr <= Repr && filterY.Repr <= Repr
      && this !in filterX.Repr && this !in filterY.Repr
      && filterX.Repr !! filterY.Repr
      && filterX.Valid() && filterY.Valid()
      && filterX.Params() == CursorFilter && filterY.Params() == CursorFilter
    }

    /** The controller's own fields as a value of module Engine. */
    function Fields(): Core
      reads this
    {
      Core(act, cls, cal, run, metrics)
    }

    /** The whole state, filters included. */
    ghost function Engine(): EngineState
      reads this, Repr
      requires Valid()
    {
      EngineState(Fields(), filterX.State(), filterY.State())
    }

    /** `__init__`, with the screen size as parameters. */
    constructor (screenW: nat, screenH: nat)
      ensures Valid() && fresh(Repr)
      ensures this.screenW == screenW && this.screenH == screenH
      ensures Engine() == InitialEngine && log == []
    {
      this.screenW := screenW;
      this.screenH := screenH;
      var fx := new OneEuroFilter(0.01, 0.05, 1.0);
      var fy := new OneEuroFilter(0.01, 0.05, 1.0);
      filterX := fx;
      filterY := fy;
      run := RunState(currentGesture := Move, gestureLockPos := None, leftPinchStartTime := 0.0,
                      lastLeftClickTime := 0.0, lastRightClickTime := 0.0, isDragging := false,
                      lastCursorPos := None, lastFistClickTime := 0.0, isFourFingersActive := false,
                      lastMiddleClickTime := 0.0, isMiddleClickActive := false, scrollAnchorY := None);
      cls := Classifier(Latches(right := false, left := false), Debounce(last := Move, frames := 0));
      act := ActState(isActive := false, activationStart := 0.0, deactivationStart := 0.0,
                      unlockPhase := 0, phase1Expire := 0.0);
      cal := CalState(points := [], addHoldStart := 0.0, deleteHoldStart := 0.0, cooldownUntil := 0.0,
                      pinkyPinching := false, step := 0, isCalibrated := false, roi := InitialRoi);
      metrics := Metrics(0.0, 0.0);
      log := [];
      Repr := {this} + fx.Repr + fy.Repr;
    }

    /** `update_system_state(hands_data)` at time `now`. */
    method UpdateSystemState(hands: seq<HandFrame>, now: real) returns (progress: real, msg: StatusMsg)
      modifies this`act, this`log
      ensures var o := ActStep(old(act), hands, now);
              act == o.state && log == old(log) + o.events && progress == o.progress && msg == o.msg
    {
      if |hands| < 2 {
        act := act.(activationStart := 0.0, deactivationStart := 0.0, unlockPhase := 0);
        return 0.0, Blank;
      }
      var p := PickHands(hands);
      if !act.isActive {
        progress, msg := Unlock(p, now);
      } else {
        progress, msg := Lock(p, now);
      }
    }

    /** The locked branch of `update_system_state`. */
    method Unlock(p: HandPair, now: real) returns (progress: real, msg: StatusMsg)
      requires !act.isActive
      modifies this`act, this`log
      ensures var o := UnlockStep(old(act), p, now);
              act == o.state && log == old(log) + o.events && progress == o.progress && msg == o.msg
    {
      var isSealing := RingPinch(p.left) || RingPinch(p.right);
      ghost var tick: seq<Event> := [];
      if isSealing {
        act := act.(phase1Expire := now + Phase1Window);
        if act.unlockPhase == 0 {
          log := log + [PlayCalibrationTick];
          tick := [PlayCalibrationTick];
        }
      }
      assert log == old(log) + tick;
      if now < act.phase1Expire {
        var isCrossed := p.left[0].x > p.right[0].x + CrossMargin;
        if isCrossed {
          act := act.(unlockPhase := 2);
          if act.activationStart == 0.0 {
            act := act.(activationStart := now);
          }
          var elapsed := now - act.activationStart;
          progress := Min(1.0, elapsed / ActivationDuration);
          if elapsed >= ActivationDuration {
            act := act.(isActive := true, activationStart := 0.0, unlockPhase := 0, phase1Expire := 0.0);
            log := log + [PlayActive];
            assert log == old(log) + (tick + [PlayActive]);
            progress, msg := 1.0, EyeOpened;
          } else {
            msg := Opening;
          }
        } else {
          act := act.(unlockPhase := 1, activationStart := 0.0);
          var remaining := Trunc(act.phase1Expire - now) + 1;
          progress, msg := 0.0, CrossHands(remaining);
        }
      } else {
        act := act.(unlockPhase := 0, activationStart := 0.0);
        progress, msg := 0.0, PinchRing;
      }
    }

    /** The unlocked branch of `update_system_state`. */
    method Lock(p: HandPair, now: real) returns (progress: real, msg: StatusMsg)
      requires act.isActive
      modifies this`act, this`log
      ensures var o := LockStep(old(act), p, now);
              act == o.state && log == old(log) + o.events && progress == o.progress && msg == o.msg
    {
      if PalmOpen(p.left) && PalmOpen(p.right) {
        if act.deactivationStart == 0.0 {
          act := act.(deactivationStart := now);
        }
        var elapsed := now - act.deactivationStart;
        progress := Min(1.0, elapsed / ActivationDuration);
        if elapsed >= ActivationDuration {
          act := act.(isActive := false, deactivationStart := 0.0);
          log := log + [PlayDeactive];
          progress, msg := 1.0, Deactivated;
        } else {
          msg := HoldToStop;
        }
      } else {
        act := act.(deactivationStart := 0.0);
        progress, msg := 0.0, Blank;
      }
    }

    /** `update_roi_from_calibration`. */
    method UpdateRoiFromCalibration()
      modifies this`cal, this`log
      ensures var u := UpdateRoi(old(cal));
              cal == u.state && log == old(log) + u.events
    {
      if |cal.points| != 4 {
        return;
      }
      cal := cal.(roi := BoundingBox(cal.points));
      cal := cal.(isCalibrated := true);
      log := log + [PlayCalibrationDone];
    }

    /** `detect_gesture_priority(landmarks)`. */
    method DetectGesturePriority(lm: Landmarks) returns (g: Gesture)
      modifies this`cls, this`metrics
      ensures var k := Classify(old(cls), lm, run.currentGesture);
              cls == k.cls && metrics == k.metrics && g == k.gesture
    {
      metrics := PinchMetrics(lm);
      var detected := DetectRawGesture(lm);
      if detected == cls.deb.last {
        cls := cls.(deb := cls.deb.(frames := cls.deb.frames + 1));
      } else {
        cls := cls.(deb := Debounce(last := detected, frames := 0));
      }
      if cls.deb.frames >= GestureConfirmFrames {
        return detected;
      } else {
        return run.currentGesture;
      }
    }

    /** The latches and the priority chain of `detect_gesture_priority`,
        once `metrics` holds this frame's distances. */
    method DetectRawGesture(lm: Landmarks) returns (detected: Gesture)
      requires metrics == PinchMetrics(lm)
      modifies this`cls
      ensures var d := DetectRaw(lm, old(cls).latches);
              cls == old(cls).(latches := d.latches) && detected == d.gesture
    {
      detected := Move;
      if cls.latches.right {
        if metrics.middleSq > Sq(RightPinchRelease) {
          cls := cls.(latches := cls.latches.(right := false));
        } else {
          detected := RightPinch;
        }
      } else {
        if metrics.middleSq < Sq(RightPinchTrigger) {
          cls := cls.(latches := cls.latches.(right := true));
          detected := RightPinch;
        }
      }
      if detected == Move {
        if cls.latches.left {
          if metrics.indexSq > Sq(LeftPinchRelease) {
            cls := cls.(latches := cls.latches.(left := false));
          } else {
            detected := LeftPinch;
          }
        } else {
          if metrics.indexSq < Sq(PinchTrigger) {
            cls := cls.(latches := cls.latches.(left := true));
            detected := LeftPinch;
          }
        }
      }
      if detected == Move && MiddleClickShape(lm) {
        detected := MiddleClick;
      }
      if detected == Move {
        var scroll := IsScrollGesture(lm);
        if scroll {
          detected := Scroll;
        }
      }
      if detected == Move && FourFingersCurled(lm) {
        detected := Fist;
      }
    }

    /** `map_coordinates(hand_pos, now)`. */
    method MapCoordinates(pos: Point, now: real) returns (x: real, y: real)
      requires Valid()
      modifies Repr
      ensures Valid() && fresh(Repr - old(Repr))
      ensures var m := Smooth(old(Engine()).fx, old(Engine()).fy, pos, cal.roi, screenW as real, screenH as real, now);
              Engine() == old(Engine()).(fx := m.fx, fy := m.fy) && log == old(log) && Point(x, y) == m.target
    {
      var t := MapTarget(pos, cal.roi, screenW as real, screenH as real);
      if t.None? {
        SmoothDegenerate(filterX.State(), filterY.State(), pos, cal.roi, screenW as real, screenH as real, now);
        return 0.0, 0.0;
      }
      var targetX, targetY := t.value.x, t.value.y;
      SmoothFilters(filterX.State(), filterY.State(), pos, cal.roi, screenW as real, screenH as real, now,
                    Point(targetX, targetY));
      x, y := FilterTarget(targetX, targetY, now);
    }

    /** The two filter calls at the end of `map_coordinates`. */
    method FilterTarget(targetX: real, targetY: real, now: real) returns (x: real, y: real)
      requires Valid()
      modifies Repr
      ensures Valid() && fresh(Repr - old(Repr))
      ensures var ox := EuroStep(CursorFilter, old(Engine()).fx, targetX, now);
              var oy := EuroStep(CursorFilter, old(Engine()).fy, targetY, now);
              Engine() == old(Engine()).(fx := ox.state, fy := oy.state) && log == old(log)
              && x == ox.value && y == oy.value
    {
      ghost var fy0 := filterY.State();
      x := filterX.Call(targetX, now);
      assert filterY.Valid() && filterY.State() == fy0;
      ghost var fx1 := filterX.State();
      y := filterY.Call(targetY, now);
      assert filterX.Valid() && filterX.State() == fx1;
      Repr := Repr + filterX.Repr + filterY.Repr;
    }

    /** `move_cursor(x, y)`. */
    method MoveCursor(x: real, y: real)
      modifies this`run, this`log
      ensures var c := Dispatch.MoveCursor(old(run).lastCursorPos, x, y);
              run == old(run).(lastCursorPos := c.last) && log == old(log) + c.events
    {
      var xi, yi := Trunc(x), Trunc(y);
      if run.lastCursorPos.Some? {
        var last := run.lastCursorPos.value;
        if AbsInt(xi - last.x) <= StaticMovementDeadzone && AbsInt(yi - last.y) <= StaticMovementDeadzone {
          return;
        }
      }
      log := log + [MoveTo(xi, yi)];
      run := run.(lastCursorPos := Some(Pixel(xi, yi)));
    }

    /** The first half of `process_running`: what happens when the confirmed
        gesture differs from the one in force. */
    method EdgeActions(g: Gesture, target: Point, now: real)
      modifies this`run, this`log
      ensures var e := Edge(old(run), g, target, now);
              run == e.state && log == old(log) + e.events
    {
      if g == run.currentGesture {
        return;
      }
      if g == LeftPinch {
        run := run.(gestureLockPos := Some(target), leftPinchStartTime := now);
      } else if g == RightPinch {
        if now - run.lastRightClickTime > RightClickMinInterval {
          log := log + [RightClickAt(Trunc(target.x), Trunc(target.y))];
          run := run.(lastRightClickTime := now);
        }
      } else if g == Move {
        if run.isDragging {
          log := log + [MouseUpAction];
          run := run.(isDragging := false);
        } else if run.currentGesture == LeftPinch && run.gestureLockPos.Some? {
          if now - run.leftPinchStartTime <= TapMaxDuration {
            if now - run.lastLeftClickTime > LeftClickMinInterval {
              var lock := run.gestureLockPos.value;
              log := log + [ClickAt(Trunc(lock.x), Trunc(lock.y))];
              run := run.(lastLeftClickTime := now);
            }
          }
        }
        run := run.(gestureLockPos := None);
      } else if g == Scroll {
        run := run.(scrollAnchorY := Some(target.y), gestureLockPos := Some(target));
      }
      run := run.(currentGesture := g);
    }

    /** The second half of `process_running`, before the cursor moves: the
        actions of the gesture in force; returns where the cursor should go. */
    method LevelActions(target: Point, now: real) returns (final: Point)
      modifies this`run, this`log
      ensures var a := LevelAction(old(run), target, now);
              run == a.state && log == old(log) + a.events && final == a.final
    {
      final := target;
      if run.currentGesture == LeftPinch {
        if run.gestureLockPos.Some? {
          var lock := run.gestureLockPos.value;
          if DistSq(target, lock) < Sq(DeadzoneRadius) {
            final := lock;
          } else if !run.isDragging {
            log := log + [MouseDownAt(Trunc(lock.x), Trunc(lock.y))];
            run := run.(isDragging := true);
          }
        }
      } else if run.currentGesture == Fist {
        if !run.isFourFingersActive && now - run.lastFistClickTime > FistClickMinInterval {
          log := log + [DoubleClickAction];
          run := run.(lastFistClickTime := now, isFourFingersActive := true);
        }
      } else if run.currentGesture == MiddleClick {
        if !run.isMiddleClickActive && now - run.lastMiddleClickTime > MiddleClickMinInterval {
          log := log + [MiddleClickAction];
          run := run.(lastMiddleClickTime := now, isMiddleClickActive := true);
        }
      } else if run.currentGesture == Scroll {
        if run.gestureLockPos.Some? {
          final := run.gestureLockPos.value;
        }
        ScrollActions(target);
      } else if run.currentGesture == Move {
        run := run.(isFourFingersActive := false, isMiddleClickActive := false);
      }
    }

    /** The scroll branch of `process_running`: scroll by the vertical
        offset from the anchor, unless it is small or the hand is moving back
        towards the anchor. */
    method ScrollActions(target: Point)
      modifies this`log
      ensures log == old(log) + ScrollEvents(run.scrollAnchorY, target.y, run.lastCursorPos)
    {
      if run.scrollAnchorY.Some? {
        var dy := target.y - run.scrollAnchorY.value;
        if Abs(dy) > ScrollThreshold {
          var moveDeltaY := target.y - (if run.lastCursorPos.Some? then run.lastCursorPos.value.y as real else target.y);
          var isReturning := Returning(dy, moveDeltaY);
          if !isReturning {
            var clicks := Trunc(dy * ScrollSpeedFactor / 10.0);
            if clicks != 0 {
              log := log + [ScrollBy(clicks * 20)];
            }
          }
        }
      }
    }

    /** `process_running` once the target is known: the edge actions, the
        level actions and the cursor move. */
    method RunActions(g: Gesture, target: Point, now: real) returns (final: Point)
      modifies this`run, this`log
      ensures var r := RunStep(old(run), g, target, now);
              run == r.state && log == old(log) + r.events && final == r.final
    {
      ghost var ed := Edge(run, g, target, now);
      EdgeActions(g, target, now);
      ghost var la := LevelAction(ed.state, target, now);
      final := LevelActions(target, now);
      ghost var c := Dispatch.MoveCursor(la.state.lastCursorPos, final.x, final.y);
      MoveCursor(final.x, final.y);
      assert log == old(log) + (ed.events + (la.events + c.events));
    }

    /** `process_running(hand_pos, gesture, landmarks)` at time `now`. */
    method ProcessRunning(pos: Point, g: Gesture, lm: Landmarks, now: real) returns (v: RunView)
      requires Valid()
      modifies Repr
      ensures Valid() && fresh(Repr - old(Repr))
      ensures var (e, view, evs) := RunningFrame(old(Engine()), g, lm, pos, now, screenW as real, screenH as real);
              Engine() == e && v == view && log == old(log) + evs
    {
      var targetX, targetY := MapCoordinates(pos, now);
      var final := RunActions(g, Point(targetX, targetY), now);
      var fingers := GetFingerStates(lm);
      v := RunView(final, run.isDragging, cal.roi, pos, metrics, fingers);
    }

    /** `process_calibration(hand_pos, landmarks)` at time `now`. */
    method ProcessCalibration(pos: Point, lm: Landmarks, now: real) returns (v: CalView)
      modifies this`cal, this`metrics, this`log
      ensures var c := CalStep(old(cal), lm, pos, now);
              && cal == c.state && metrics == c.metrics && log == old(log) + c.events
              && v == CalView(c.msg, c.progress, pos, c.shownStep, c.state.points, RoiPreview(c.state.points),
                              c.metrics, FingerStates(lm))
    {
      ghost var s0 := cal;
      metrics := PinchMetrics(lm);
      if cal.pinkyPinching {
        if !PinkyPinch(lm) && NormDistSq(lm, 4, 20) > Sq(PinkyPinchRelease) {
          cal := cal.(pinkyPinching := false);
        }
      } else if PinkyPinch(lm) {
        cal := cal.(pinkyPinching := true);
      }
      cal := cal.(step := |cal.points|);
      var fingers := GetFingerStates(lm);
      if |cal.points| >= 4 {
        CalStepComplete(s0, lm, pos, now);
        UpdateRoiFromCalibration();
        return CalView(CalibrationComplete, 1.0, pos, 4, cal.points, RoiPreview(cal.points), metrics, fingers);
      }
      CalStepMetrics(s0, lm, pos, now);
      var progress, msg := CalibrationGestures(s0, lm, pos, now);
      v := CalView(msg, progress, pos, |cal.points|, cal.points, RoiPreview(cal.points), metrics, fingers);
    }

    /** `process_calibration` with fewer than four points, once the pinky
        latch and the step are updated: the cooldown message, then undo, add
        or wait. `s0` is the calibration state on entry. */
    method CalibrationGestures(ghost s0: CalState, lm: Landmarks, pos: Point, now: real)
      returns (progress: real, msg: CalMsg)
      requires |s0.points| < 4
      requires cal == s0.(pinkyPinching := PinkyLatch(s0.pinkyPinching, lm), step := |s0.points|)
      modifies this`cal, this`log
      ensures var c := CalStep(s0, lm, pos, now);
              && cal == c.state && log == old(log) + c.events
              && progress == c.progress && msg == c.msg && |cal.points| == c.shownStep
    {
      var isFistNow := FourFingersCurled(lm);
      var isPinkyPinchingNow := cal.pinkyPinching;
      var nextPointNum := if cal.step + 1 < 4 then cal.step + 1 else 4;
      var inCooldown := now < cal.cooldownUntil;
      msg := CalibratePoint(nextPointNum);
      progress := 0.0;
      if inCooldown {
        var remaining := cal.cooldownUntil - now;
        progress := Max(0.0, Min(1.0, 1.0 - remaining / PointCooldown));
        msg := ProceedToPoint(nextPointNum);
      }
      if isFistNow {
        progress, msg := HoldFist(s0, lm, pos, now);
      } else if !inCooldown && isPinkyPinchingNow {
        progress, msg := HoldPinky(s0, lm, pos, now);
      } else {
        cal := cal.(addHoldStart := 0.0, deleteHoldStart := 0.0);
        if !inCooldown {
          msg := PinkyPinchToSet(nextPointNum);
        }
      }
    }

    /** The undo branch of `process_calibration`: a fist held for 0.45 s
        removes the last point. `s0` is the calibration state on entry. */
    method HoldFist(ghost s0: CalState, lm: Landmarks, pos: Point, now: real) returns (progress: real, msg: CalMsg)
      requires |s0.points| < 4 && FourFingersCurled(lm)
      requires cal == s0.(pinkyPinching := PinkyLatch(s0.pinkyPinching, lm), step := |s0.points|)
      modifies this`cal, this`log
      ensures var c := CalStep(s0, lm, pos, now);
              && cal == c.state && log == old(log) + c.events
              && progress == c.progress && msg == c.msg && |cal.points| == c.shownStep
    {
      ghost var tick: seq<Event> := [];
      if cal.deleteHoldStart == 0.0 {
        cal := cal.(deleteHoldStart := now);
        log := log + [PlayCalibrationTick];
        tick := [PlayCalibrationTick];
      }
      var elapsed := now - cal.deleteHoldStart;
      progress := Min(1.0, elapsed / HoldDuration);
      msg := HoldFistToUndo;
      if elapsed >= HoldDuration {
        if cal.points != [] {
          cal := cal.(points := cal.points[..|cal.points| - 1]);
          log := log + [PlayCalibrationTick];
          AppendTwice(old(log), tick, [PlayCalibrationTick]);
          assert log == old(log) + (tick + [PlayCalibrationTick]);
        } else {
          assert log == old(log) + (tick + []);
        }
        cal := cal.(cooldownUntil := 0.0, deleteHoldStart := 0.0);
      }
    }

    /** The add branch of `process_calibration`: a pinky pinch held for
        0.45 s outside the cooldown records the hand position; the fourth
        point completes the calibration. `s0` is the calibration state on
        entry. */
    method HoldPinky(ghost s0: CalState, lm: Landmarks, pos: Point, now: real) returns (progress: real, msg: CalMsg)
      requires |s0.points| < 4 && !FourFingersCurled(lm) && !(now < s0.cooldownUntil)
      requires PinkyLatch(s0.pinkyPinching, lm)
      requires cal == s0.(pinkyPinching := PinkyLatch(s0.pinkyPinching, lm), step := |s0.points|)
      modifies this`cal, this`log
      ensures var c := CalStep(s0, lm, pos, now);
              && cal == c.state && log == old(log) + c.events
              && progress == c.progress && msg == c.msg && |cal.points| == c.shownStep
    {
      ghost var s1 := cal;
      ghost var tick: seq<Event> := [];
      if cal.addHoldStart == 0.0 {
        cal := cal.(addHoldStart := now);
        log := log + [PlayCalibrationTick];
        tick := [PlayCalibrationTick];
      }
      var elapsed := now - cal.addHoldStart;
      progress := Min(1.0, elapsed / HoldDuration);
      msg := HoldPinkyToAdd;
      if elapsed >= HoldDuration {
        cal := cal.(points := cal.points + [pos]);
        log := log + [PlayCalibrationTick];
        cal := cal.(cooldownUntil := now + PointCooldown, addHoldStart := 0.0);
        ghost var s2 := s1.(points := s1.points + [pos], cooldownUntil := now + PointCooldown, addHoldStart := 0.0);
        assert cal == s2;
        AppendTwice(old(log), tick, [PlayCalibrationTick]);
        assert log == old(log) + (tick + [PlayCalibrationTick]);
        if |cal.points| >= 4 {
          UpdateRoiFromCalibration();
          AppendTwice(old(log), tick + [PlayCalibrationTick], [PlayCalibrationDone]);
          assert log == old(log) + (tick + [PlayCalibrationTick] + [PlayCalibrationDone]);
          msg := CalibrationComplete;
        } else {
          msg := ProceedToPoint(|cal.points| + 1);
        }
      }
    }

    /** `process(hands_data)` at time `now`. */
    method Process(hands: seq<HandFrame>, now: real) returns (snap: Snapshot)
      requires Valid()
      modifies Repr
      ensures Valid() && fresh(Repr - old(Repr))
      ensures var o := EngineStep(old(Engine()), hands, now, screenW as real, screenH as real);
              Engine() == o.state && snap == o.snapshot && log == old(log) + o.events
    {
      ghost var e0 := Engine();
      ghost var log0 := log;
      ghost var a := ActStep(e0.core.act, hands, now);
      ghost var e1 := e0.(core := e0.core.(act := a.state));
      var progress, msg := UpdateSystemState(hands, now);
      assert Engine() == e1;
      var system := SystemInfo(act.isActive, progress, msg);
      if !act.isActive || hands == [] {
        assert EngineStep(e0, hands, now, screenW as real, screenH as real) == EngineOut(e1, Standby(system), a.events);
        return Standby(system);
      }
      ghost var o := ActiveFrame(e1, system, hands[0].landmarks, now, screenW as real, screenH as real);
      assert EngineStep(e0, hands, now, screenW as real, screenH as real)
          == EngineOut(o.state, o.snapshot, a.events + o.events);
      snap := ProcessHand(system, hands[0].landmarks, now);
      AppendTwice(log0, a.events, o.events);
    }

    /** `process` for an unlocked system, with the first hand's landmarks. */
    method ProcessHand(system: SystemInfo, lm: Landmarks, now: real) returns (snap: Snapshot)
      requires Valid()
      modifies Repr
      ensures Valid() && fresh(Repr - old(Repr))
      ensures var o := ActiveFrame(old(Engine()), system, lm, now, screenW as real, screenH as real);
              Engine() == o.state && snap == o.snapshot && log == old(log) + o.events
    {
      var pos := GetStableHandPos(lm);
      assert pos == StableHandPos(lm);
      if !cal.isCalibrated {
        ActiveFrameCalibrating(Engine(), system, lm, now, screenW as real, screenH as real);
        snap := CalibrateHand(system, pos, lm, now);
      } else {
        ActiveFrameRunning(Engine(), system, lm, now, screenW as real, screenH as real);
        var v := ClassifyAndRun(pos, lm, now);
        snap := Running(system, v);
      }
    }

    /** The uncalibrated branch of `process`: `process_calibration`. */
    method CalibrateHand(system: SystemInfo, pos: Point, lm: Landmarks, now: real) returns (snap: Snapshot)
      requires Valid()
      modifies Repr
      ensures Valid() && fresh(Repr - old(Repr))
      ensures var e := old(Engine());
              var cf := CalibrationFrame(e.core, lm, pos, now);
              Engine() == e.(core := cf.0) && snap == Calibrating(system, cf.1) && log == old(log) + cf.2
    {
      ghost var e0 := Engine();
      ghost var cf := CalibrationFrame(e0.core, lm, pos, now);
      var v := ProcessCalibration(pos, lm, now);
      assert Fields() == cf.0;
      snap := Calibrating(system, v);
    }

    /** The calibrated branch of `process`: classify the gesture, then
        `process_running`. */
    method ClassifyAndRun(pos: Point, lm: Landmarks, now: real) returns (v: RunView)
      requires Valid()
      modifies Repr
      ensures Valid() && fresh(Repr - old(Repr))
      ensures var e := old(Engine());
              var k := Classify(e.core.cls, lm, e.core.run.currentGesture);
              var rf := RunningFrame(e.(core := e.core.(cls := k.cls, metrics := k.metrics)),
                                     k.gesture, lm, pos, now, screenW as real, screenH as real);
              Engine() == rf.0 && v == rf.1 && log == old(log) + rf.2
    {
      var g := DetectGesturePriority(lm);
      v := ProcessRunning(pos, g, lm, now);
    }
  }
}
