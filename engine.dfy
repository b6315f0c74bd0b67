/** One call of `MouseController.process(hands_data)` on values: the lock
    state machine first, then, while unlocked with a hand in view, either the
    calibration or gesture classification, smoothing and dispatch. The
    controller class in module Controller is proved to do exactly this. */
module Engine {
  import opened Common
  import opened Geometry
  import opened Events
  import opened Filter
  import opened Gestures
  import opened Activation
  import opened Calibration
  import opened Mapping
  import opened Dispatch

  /** Both cursor filters are built with `min_cutoff=0.01, beta=0.05` and the
      default derivative cutoff of 1.0. */
  const CursorFilter := EuroParams(0.01, 0.05, 1.0)

  /** The controller's own fields: lock, classifier, calibration, running
      mode and the debug metrics. */
  datatype Core = Core(act: ActState, cls: Classifier, cal: CalState, run: RunState, metrics: Metrics)

  /** Everything the controller remembers between frames: its own fields and
      the states of the two cursor filters. */
  datatype EngineState = EngineState(core: Core, fx: EuroState, fy: EuroState)

  const InitialCore := Core(InitialAct, InitialClassifier, InitialCal, InitialRun, Metrics(0.0, 0.0))

  const InitialEngine := EngineState(InitialCore, InitialEuro, InitialEuro)

  /** The `system` entry of every result. */
  datatype SystemInfo = SystemInfo(isActive: bool, progress: real, msg: StatusMsg)

  /** The result of `process_calibration`. */
  datatype CalView = CalView(msg: CalMsg, progress: real, handPos: Point, step: int, points: seq<Point>,
                             roiPreview: Option<Roi>, metrics: Metrics, fingers: seq<bool>)

  /** The result of `process_running`. */
  datatype RunView = RunView(screenPos: Point, isDragging: bool, roi: Roi, handPos: Point,
                             metrics: Metrics, fingers: seq<bool>)

  /** The result of `process`: the system entry alone while locked or without
      a hand, otherwise with the calibration or running entries. */
  datatype Snapshot =
    | Standby(system: SystemInfo)
    | Calibrating(system: SystemInfo, cal: CalView)
    | Running(system: SystemInfo, run: RunView)

  datatype SmoothOut = SmoothOut(fx: EuroState, fy: EuroState, target: Point)

  /** `map_coordinates(hand_pos, now)`: (0, 0) without touching the filters
      for a degenerate ROI, otherwise the screen target through both filters. */
  function Smooth(fx: EuroState, fy: EuroState, pos: Point, roi: Roi, screenW: real, screenH: real,
                  now: real): SmoothOut
  {
    match Target(pos, roi, screenW, screenH)
    case None => SmoothOut(fx, fy, Point(0.0, 0.0))
    case Some(t) =>
      var ox := EuroStep(CursorFilter, fx, t.x, now);
      var oy := EuroStep(CursorFilter, fy, t.y, now);
      SmoothOut(ox.state, oy.state, Point(ox.value, oy.value))
  }

  /** For a degenerate ROI the filters are left alone and the target is (0, 0). */
  lemma {:induction false} SmoothDegenerate(fx: EuroState, fy: EuroState, pos: Point, roi: Roi,
                                            screenW: real, screenH: real, now: real)
    requires roi.x2 - roi.x1 == 0.0 || roi.y2 - roi.y1 == 0.0
    ensures Smooth(fx, fy, pos, roi, screenW, screenH, now) == SmoothOut(fx, fy, Point(0.0, 0.0))
  {
  }

  /** Otherwise each filter takes one step on its axis of the target. */
  lemma {:induction false} SmoothFilters(fx: EuroState, fy: EuroState, pos: Point, roi: Roi,
                                         screenW: real, screenH: real, now: real, t: Point)
    requires Target(pos, roi, screenW, screenH) == Some(t)
    ensures var ox := EuroStep(CursorFilter, fx, t.x, now);
            var oy := EuroStep(CursorFilter, fy, t.y, now);
            Smooth(fx, fy, pos, roi, screenW, screenH, now) == SmoothOut(ox.state, oy.state, Point(ox.value, oy.value))
  {
  }

  datatype EngineOut = EngineOut(state: EngineState, snapshot: Snapshot, events: seq<Event>)

  /** `process_calibration` on the engine state. */
  function CalibrationFrame(e: Core, lm: Landmarks, pos: Point, now: real): (Core, CalView, seq<Event>) {
    var c := CalStep(e.cal, lm, pos, now);
    (e.(cal := c.state, metrics := c.metrics),
     CalView(c.msg, c.progress, pos, c.shownStep, c.state.points, RoiPreview(c.state.points),
             c.metrics, FingerStates(lm)),
     c.events)
  }

  /** `process_running` on the engine state, for the confirmed gesture `g`. */
  function RunningFrame(e: EngineState, g: Gesture, lm: Landmarks, pos: Point, now: real,
                        screenW: real, screenH: real): (EngineState, RunView, seq<Event>) {
    var m := Smooth(e.fx, e.fy, pos, e.core.cal.roi, screenW, screenH, now);
    var r := RunStep(e.core.run, g, m.target, now);
    (EngineState(e.core.(run := r.state), m.fx, m.fy),
     RunView(r.final, r.state.isDragging, e.core.cal.roi, pos, e.core.metrics, FingerStates(lm)),
     r.events)
  }

  /** The part of `process` after the system state is updated, for an
      unlocked system with a hand whose landmarks are `lm`: calibrate until
      the ROI is set, then classify the gesture and run it. */
  function ActiveFrame(e: EngineState, sys: SystemInfo, lm: Landmarks, now: real,
                     screenW: real, screenH: real): EngineOut {
    var pos := StableHandPos(lm);
    if !e.core.cal.isCalibrated then
      var (c2, v, evs) := CalibrationFrame(e.core, lm, pos, now);
      EngineOut(e.(core := c2), Calibrating(sys, v), evs)
    else
      var k := Classify(e.core.cls, lm, e.core.run.currentGesture);
      var c2 := e.core.(cls := k.cls, metrics := k.metrics);
      var (e3, v, evs) := RunningFrame(e.(core := c2), k.gesture, lm, pos, now, screenW, screenH);
      EngineOut(e3, Running(sys, v), evs)
  }

  /** Before calibration, a frame is exactly a calibration frame. */
  lemma {:induction false} ActiveFrameCalibrating(e: EngineState, sys: SystemInfo, lm: Landmarks, now: real,
                                                  screenW: real, screenH: real)
    requires !e.core.cal.isCalibrated
    ensures var cf := CalibrationFrame(e.core, lm, StableHandPos(lm), now);
            ActiveFrame(e, sys, lm, now, screenW, screenH) == EngineOut(e.(core := cf.0), Calibrating(sys, cf.1), cf.2)
  {
  }

  /** After calibration, a frame classifies the gesture and runs it. */
  lemma {:induction false} ActiveFrameRunning(e: EngineState, sys: SystemInfo, lm: Landmarks, now: real,
                                              screenW: real, screenH: real)
    requires e.core.cal.isCalibrated
    ensures var k := Classify(e.core.cls, lm, e.core.run.currentGesture);
            var rf := RunningFrame(e.(core := e.core.(cls := k.cls, metrics := k.metrics)),
                                   k.gesture, lm, StableHandPos(lm), now, screenW, screenH);
            ActiveFrame(e, sys, lm, now, screenW, screenH) == EngineOut(rf.0, Running(sys, rf.1), rf.2)
  {
  }

  /** `process(hands_data)` at time `now` on a `screenW` x `screenH` screen. */
  function EngineStep(e: EngineState, hands: seq<HandFrame>, now: real, screenW: real, screenH: real): EngineOut {
    var a := ActStep(e.core.act, hands, now);
    var sys := SystemInfo(a.state.isActive, a.progress, a.msg);
    var e1 := e.(core := e.core.(act := a.state));
    if !a.state.isActive || hands == [] then EngineOut(e1, Standby(sys), a.events)
    else
      var o := ActiveFrame(e1, sys, hands[0].landmarks, now, screenW, screenH);
      EngineOut(o.state, o.snapshot, a.events + o.events)
  }

  // ----- the pointer is driven only when unlocked and calibrated -------------

  lemma {:induction false} SoundsOnlyAppend(a: seq<Event>, b: seq<Event>)
    requires SoundsOnly(a) && SoundsOnly(b)
    ensures SoundsOnly(a + b)
  {
    forall i | 0 <= i < |a + b|
      ensures !(a + b)[i].IsPointerCommand()
    {
      if i >= |a| {
        assert (a + b)[i] == b[i - |a|];
      }
    }
  }

  /** The lock state machine only plays sounds. */
  lemma {:induction false} ActSoundsOnly(s: ActState, hands: seq<HandFrame>, now: real)
    ensures SoundsOnly(ActStep(s, hands, now).events)
  {
    if |hands| >= 2 && !s.isActive {
      var p := SelectHands(hands);
      var tick: seq<Event> := if Sealing(p) && s.unlockPhase == 0 then [PlayCalibrationTick] else [];
      SoundsOnlyAppend(tick, [PlayActive]);
    }
  }

  /** Calibration only plays sounds. */
  lemma {:induction false} CalSoundsOnly(s: CalState, lm: Landmarks, pos: Point, now: real)
    ensures SoundsOnly(CalStep(s, lm, pos, now).events)
  {
    var ticks := [PlayCalibrationTick];
    SoundsOnlyAppend(ticks, ticks);
    SoundsOnlyAppend(ticks + ticks, [PlayCalibrationDone]);
    SoundsOnlyAppend(ticks, [PlayCalibrationDone]);
    assert ticks + ticks + [PlayCalibrationDone] == [PlayCalibrationTick, PlayCalibrationTick, PlayCalibrationDone];
    assert [] + ticks + [PlayCalibrationDone] == [PlayCalibrationTick, PlayCalibrationDone];
    assert ticks + [] == ticks && [] + ticks == ticks && ticks + ticks == [PlayCalibrationTick, PlayCalibrationTick];
  }

  /** No pointer command is ever issued while the engine is locked, while no
      hand is in view, or before calibration is complete: a frame that moves,
      clicks, drags or scrolls is one that ends unlocked, sees a hand, and
      started calibrated. */
  lemma {:induction false} PointerNeedsUnlockAndCalibration(e: EngineState, hands: seq<HandFrame>, now: real,
                                                            screenW: real, screenH: real)
    ensures var o := EngineStep(e, hands, now, screenW, screenH);
            !SoundsOnly(o.events) ==> o.state.core.act.isActive && hands != [] && e.core.cal.isCalibrated
                                      && o.snapshot.Running?
  {
    var a := ActStep(e.core.act, hands, now);
    ActSoundsOnly(e.core.act, hands, now);
    if a.state.isActive && hands != [] && !e.core.cal.isCalibrated {
      var lm := hands[0].landmarks;
      CalSoundsOnly(e.core.cal, lm, StableHandPos(lm), now);
      SoundsOnlyAppend(a.events, CalStep(e.core.cal, lm, StableHandPos(lm), now).events);
    }
  }

  /** The engine is in running mode exactly when it ends the frame unlocked,
      sees a hand and is calibrated; a locked engine reports the system entry
      alone. When no lock hold started after `now`, the progress shown lies in
      [0, 1]; `TraceProgressInUnitInterval` shows that every frame of a run
      with a forward clock is such a frame. */
  lemma {:induction false} SnapshotKind(e: EngineState, hands: seq<HandFrame>, now: real,
                                        screenW: real, screenH: real)
    requires ActStartsBy(e.core.act, now)
    ensures var o := EngineStep(e, hands, now, screenW, screenH);
            && (o.snapshot.Standby? <==> !o.state.core.act.isActive || hands == [])
            && (o.snapshot.Running? <==> o.state.core.act.isActive && hands != [] && e.core.cal.isCalibrated)
            && o.snapshot.system.isActive == o.state.core.act.isActive
            && 0.0 <= o.snapshot.system.progress <= 1.0
  {
    ProgressInUnitInterval(e.core.act, hands, now);
  }

  // ----- progress over a run ------------------------------------------------

  /** The engine after the frames `fs`, one `process` call each. */
  function RunEngine(e: EngineState, fs: seq<Frame>, screenW: real, screenH: real): EngineState
    decreases |fs|
  {
    if fs == [] then e
    else
      var f := fs[|fs| - 1];
      EngineStep(RunEngine(e, fs[..|fs| - 1], screenW, screenH), f.hands, f.now, screenW, screenH).state
  }

  /** No hold of the lock or of the calibration started after time `t`. */
  predicate StartsBy(e: EngineState, t: real) {
    ActStartsBy(e.core.act, t) && CalStartsBy(e.core.cal, t)
  }

  /** A frame at a non-negative time `now` only starts holds at `now`. */
  lemma {:induction false} EngineStepStartsBy(e: EngineState, hands: seq<HandFrame>, now: real,
                                              screenW: real, screenH: real)
    requires StartsBy(e, now) && 0.0 <= now
    ensures StartsBy(EngineStep(e, hands, now, screenW, screenH).state, now)
  {
    var a := ActStep(e.core.act, hands, now);
    ActStepStartsBy(e.core.act, hands, now);
    var sys := SystemInfo(a.state.isActive, a.progress, a.msg);
    var e1 := e.(core := e.core.(act := a.state));
    if a.state.isActive && hands != [] {
      var lm := hands[0].landmarks;
      if !e1.core.cal.isCalibrated {
        ActiveFrameCalibrating(e1, sys, lm, now, screenW, screenH);
        CalStepStartsBy(e1.core.cal, lm, StableHandPos(lm), now);
      } else {
        ActiveFrameRunning(e1, sys, lm, now, screenW, screenH);
      }
    }
  }

  /** After every prefix of a run from the initial engine with a forward
      clock, no hold started after the next frame's time. */
  lemma {:induction false} RunEngineStartsBy(fs: seq<Frame>, f: Frame, screenW: real, screenH: real)
    requires ForwardClock(fs + [f])
    ensures StartsBy(RunEngine(InitialEngine, fs, screenW, screenH), f.now)
    decreases |fs|
  {
    var gs := fs + [f];
    assert gs[|fs|] == f;
    if fs != [] {
      var n := |fs| - 1;
      var prefix := fs[..n];
      assert forall i :: 0 <= i <= n ==> (prefix + [fs[n]])[i] == gs[i];
      RunEngineStartsBy(prefix, fs[n], screenW, screenH);
      assert gs[n] == fs[n];
      EngineStepStartsBy(RunEngine(InitialEngine, prefix, screenW, screenH), fs[n].hands, fs[n].now,
                         screenW, screenH);
    }
  }

  /** On every frame of a run from the initial engine with a forward clock,
      both the lock progress and the calibration progress lie in [0, 1]. */
  lemma {:induction false} TraceProgressInUnitInterval(fs: seq<Frame>, f: Frame, screenW: real, screenH: real)
    requires ForwardClock(fs + [f])
    ensures var o := EngineStep(RunEngine(InitialEngine, fs, screenW, screenH), f.hands, f.now, screenW, screenH);
            && 0.0 <= o.snapshot.system.progress <= 1.0
            && (o.snapshot.Calibrating? ==> 0.0 <= o.snapshot.cal.progress <= 1.0)
  {
    var e := RunEngine(InitialEngine, fs, screenW, screenH);
    RunEngineStartsBy(fs, f, screenW, screenH);
    SnapshotKind(e, f.hands, f.now, screenW, screenH);
    var a := ActStep(e.core.act, f.hands, f.now);
    var sys := SystemInfo(a.state.isActive, a.progress, a.msg);
    var e1 := e.(core := e.core.(act := a.state));
    if a.state.isActive && f.hands != [] && !e1.core.cal.isCalibrated {
      var lm := f.hands[0].landmarks;
      ActiveFrameCalibrating(e1, sys, lm, f.now, screenW, screenH);
      CalProgressInUnitInterval(e1.core.cal, lm, StableHandPos(lm), f.now);
    }
  }

  // ----- the cursor stays on the screen --------------------------------------

  /** On screen, as a rectangle `[0, w] x [0, h]`. */
  predicate OnScreen(p: Point, screenW: real, screenH: real) {
    0.0 <= p.x <= screenW && 0.0 <= p.y <= screenH
  }

  /** What keeps the cursor on screen: both filters hold on-screen values once
      started, and a lock position is an earlier on-screen target. */
  predicate ScreenInvariant(e: EngineState, screenW: real, screenH: real) {
    && (e.fx.tPrev.Some? ==> 0.0 <= e.fx.x.value <= screenW)
    && (e.fy.tPrev.Some? ==> 0.0 <= e.fy.x.value <= screenH)
    && (e.core.run.gestureLockPos.Some? ==> OnScreen(e.core.run.gestureLockPos.value, screenW, screenH))
  }

  lemma {:induction false} InitialScreenInvariant(screenW: real, screenH: real)
    ensures ScreenInvariant(InitialEngine, screenW, screenH)
  {
  }

  /** The smoothed target lies on screen and the filters keep on-screen
      values. */
  lemma {:induction false} SmoothOnScreen(fx: EuroState, fy: EuroState, pos: Point, roi: Roi,
                                          screenW: real, screenH: real, now: real)
    requires screenW >= 0.0 && screenH >= 0.0
    requires fx.tPrev.Some? ==> 0.0 <= fx.x.value <= screenW
    requires fy.tPrev.Some? ==> 0.0 <= fy.x.value <= screenH
    ensures var m := Smooth(fx, fy, pos, roi, screenW, screenH, now);
            && OnScreen(m.target, screenW, screenH)
            && (m.fx.tPrev.Some? ==> 0.0 <= m.fx.x.value <= screenW)
            && (m.fy.tPrev.Some? ==> 0.0 <= m.fy.x.value <= screenH)
  {
    match Target(pos, roi, screenW, screenH)
    case None =>
    case Some(t) =>
      TargetOnScreen(pos, roi, screenW, screenH);
      StaysWithinBounds(CursorFilter, fx, t.x, now, 0.0, screenW);
      StaysWithinBounds(CursorFilter, fy, t.y, now, 0.0, screenH);
  }

  /** Wherever the cursor is put, the pointer stays on the screen, and the
      state keeps that so for the frames to come. */
  lemma {:induction false} CursorStaysOnScreen(e: EngineState, hands: seq<HandFrame>, now: real,
                                               screenW: real, screenH: real)
    requires screenW >= 0.0 && screenH >= 0.0
    requires ScreenInvariant(e, screenW, screenH)
    ensures var o := EngineStep(e, hands, now, screenW, screenH);
            && ScreenInvariant(o.state, screenW, screenH)
            && (o.snapshot.Running? ==> OnScreen(o.snapshot.run.screenPos, screenW, screenH))
  {
    var a := ActStep(e.core.act, hands, now);
    if a.state.isActive && hands != [] && e.core.cal.isCalibrated {
      var lm := hands[0].landmarks;
      var pos := StableHandPos(lm);
      var k := Classify(e.core.cls, lm, e.core.run.currentGesture);
      var m := Smooth(e.fx, e.fy, pos, e.core.cal.roi, screenW, screenH, now);
      SmoothOnScreen(e.fx, e.fy, pos, e.core.cal.roi, screenW, screenH, now);
      LockAndFinal(e.core.run, k.gesture, m.target, now);
    }
  }
}
