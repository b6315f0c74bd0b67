/** The calibration phase (`MouseController.process_calibration`): the user
    records up to four corner points with a held pinky pinch, may undo the
    last one with a held fist, and the bounding box of the four points becomes
    the region of interest (ROI) that is mapped onto the screen. */
module Calibration {
  import opened Common
  import opened Geometry
  import opened Events
  import opened Gestures

  const HoldDuration: real := 0.45
  const PointCooldown: real := 2.0
  const CalibrationPoints: nat := 4

  /** The ROI in normalised camera coordinates. */
  datatype Roi = Roi(x1: real, y1: real, x2: real, y2: real) {
    predicate Ordered() { x1 <= x2 && y1 <= y2 }
    predicate Contains(p: Point) { x1 <= p.x <= x2 && y1 <= p.y <= y2 }
  }

  const InitialRoi := Roi(0.2, 0.2, 0.8, 0.8)

  function Xs(ps: seq<Point>): (xs: seq<real>)
    ensures |xs| == |ps| && forall i :: 0 <= i < |ps| ==> xs[i] == ps[i].x
  {
    seq(|ps|, i requires 0 <= i < |ps| => ps[i].x)
  }

  function Ys(ps: seq<Point>): (ys: seq<real>)
    ensures |ys| == |ps| && forall i :: 0 <= i < |ps| ==> ys[i] == ps[i].y
  {
    seq(|ps|, i requires 0 <= i < |ps| => ps[i].y)
  }

  /** The smallest box holding all the points: it contains each point and each
      of its sides touches one. */
  function BoundingBox(ps: seq<Point>): (r: Roi)
    requires |ps| > 0
    ensures r.Ordered()
    ensures forall i :: 0 <= i < |ps| ==> r.Contains(ps[i])
    ensures (exists i :: 0 <= i < |ps| && ps[i].x == r.x1) && (exists i :: 0 <= i < |ps| && ps[i].x == r.x2)
    ensures (exists i :: 0 <= i < |ps| && ps[i].y == r.y1) && (exists i :: 0 <= i < |ps| && ps[i].y == r.y2)
  {
    var xs, ys := Xs(ps), Ys(ps);
    assert Xs(ps)[0] == ps[0].x && Ys(ps)[0] == ps[0].y;
    Roi(SeqMin(xs), SeqMin(ys), SeqMax(xs), SeqMax(ys))
  }

  /** `get_roi_preview`: the bounding box once two points exist. */
  function RoiPreview(ps: seq<Point>): (r: Option<Roi>)
    ensures r.None? <==> |ps| < 2
    ensures r.Some? ==> r.value.Ordered() && forall i :: 0 <= i < |ps| ==> r.value.Contains(ps[i])
    ensures r.Some? ==> r.value == BoundingBox(ps)
  {
    if |ps| < 2 then None else Some(BoundingBox(ps))
  }

  /** The calibration fields of the controller, with the ROI and the
      calibrated flag that `update_roi_from_calibration` sets. */
  datatype CalState = CalState(points: seq<Point>, addHoldStart: real, deleteHoldStart: real,
                               cooldownUntil: real, pinkyPinching: bool, step: int,
                               isCalibrated: bool, roi: Roi)

  const InitialCal := CalState([], 0.0, 0.0, 0.0, false, 0, false, InitialRoi)

  datatype RoiUpdated = RoiUpdated(state: CalState, events: seq<Event>)

  /** `update_roi_from_calibration`: only exactly four points replace the ROI
      by their bounding box and mark the engine calibrated. */
  function UpdateRoi(s: CalState): (u: RoiUpdated)
    ensures |s.points| != 4 ==> u == RoiUpdated(s, [])
    ensures |s.points| == 4 ==>
              u.state == s.(roi := BoundingBox(s.points), isCalibrated := true)
              && u.events == [PlayCalibrationDone]
  {
    if |s.points| != 4 then RoiUpdated(s, [])
    else RoiUpdated(s.(roi := BoundingBox(s.points), isCalibrated := true), [PlayCalibrationDone])
  }

  /** The pinky latch: set by a pinky pinch, released only when the pinch is
      gone and the tips are more than 0.33 hand scales apart. */
  function PinkyLatch(engaged: bool, lm: Landmarks): bool {
    if engaged then !(!PinkyPinch(lm) && NormDistSq(lm, 4, 20) > Sq(PinkyPinchRelease))
    else PinkyPinch(lm)
  }

  /** The guidance line of the calibration screen. */
  datatype CalMsg = CalibratePoint(n: int) | CalibrationComplete | ProceedToPoint(n: int)
                  | HoldFistToUndo | HoldPinkyToAdd | PinkyPinchToSet(n: int)

  function CalMsgText(m: CalMsg): string {
    match m
    case CalibratePoint(n) => "CALIBRATE POINT " + IntString(n)
    case CalibrationComplete => "CALIBRATION COMPLETE"
    case ProceedToPoint(n) => "CALIBRATION SUCCESS | PROCEED TO POINT " + IntString(n)
    case HoldFistToUndo => "HOLD FIST TO UNDO"
    case HoldPinkyToAdd => "HOLD PINKY PINCH TO ADD"
    case PinkyPinchToSet(n) => "CALIBRATE POINT " + IntString(n) + " | PINKY PINCH TO SET"
  }

  /** The result of one calibration frame: new state, message, progress, the
      step shown, sounds, and the debug pinch metrics. */
  datatype CalOut = CalOut(state: CalState, msg: CalMsg, progress: real, shownStep: int,
                           events: seq<Event>, metrics: Metrics)

  /** `process_calibration(hand_pos, landmarks)` at time `now`. */
  function CalStep(s: CalState, lm: Landmarks, handPos: Point, now: real): CalOut {
    var m := PinchMetrics(lm);
    var pinky := PinkyLatch(s.pinkyPinching, lm);
    var fist := FourFingersCurled(lm);
    var n := |s.points|;
    var next := if n + 1 < 4 then n + 1 else 4;
    var s1 := s.(pinkyPinching := pinky, step := n);
    if n >= 4 then
      var u := UpdateRoi(s1);
      CalOut(u.state, CalibrationComplete, 1.0, 4, u.events, m)
    else
      var inCooldown := now < s.cooldownUntil;
      if fist then
        var started := s.deleteHoldStart == 0.0;
        var start := if started then now else s.deleteHoldStart;
        var tick := if started then [PlayCalibrationTick] else [];
        var elapsed := now - start;
        var progress := Min(1.0, elapsed / HoldDuration);
        if elapsed >= HoldDuration then
          var pts := if n > 0 then s.points[..n - 1] else s.points;
          var popTick := if n > 0 then [PlayCalibrationTick] else [];
          CalOut(s1.(points := pts, cooldownUntil := 0.0, deleteHoldStart := 0.0),
                 HoldFistToUndo, progress, |pts|, tick + popTick, m)
        else
          CalOut(s1.(deleteHoldStart := start), HoldFistToUndo, progress, n, tick, m)
      else if !inCooldown && pinky then
        var started := s.addHoldStart == 0.0;
        var start := if started then now else s.addHoldStart;
        var tick := if started then [PlayCalibrationTick] else [];
        var elapsed := now - start;
        var progress := Min(1.0, elapsed / HoldDuration);
        if elapsed >= HoldDuration then
          var pts := s.points + [handPos];
          var s2 := s1.(points := pts, cooldownUntil := now + PointCooldown, addHoldStart := 0.0);
          if |pts| >= 4 then
            var u := UpdateRoi(s2);
            CalOut(u.state, CalibrationComplete, progress, |pts|, tick + [PlayCalibrationTick] + u.events, m)
          else
            CalOut(s2, ProceedToPoint(|pts| + 1), progress, |pts|, tick + [PlayCalibrationTick], m)
        else
          CalOut(s1.(addHoldStart := start), HoldPinkyToAdd, progress, n, tick, m)
      else
        var msg := if inCooldown then ProceedToPoint(next) else PinkyPinchToSet(next);
        var progress := if inCooldown then Max(0.0, Min(1.0, 1.0 - (s.cooldownUntil - now) / PointCooldown))
                        else 0.0;
        CalOut(s1.(addHoldStart := 0.0, deleteHoldStart := 0.0), msg, progress, n, [], m)
  }

  /** With four points the frame only finalises the ROI. */
  lemma {:induction false} CalStepComplete(s: CalState, lm: Landmarks, handPos: Point, now: real)
    requires |s.points| >= 4
    ensures var u := UpdateRoi(s.(pinkyPinching := PinkyLatch(s.pinkyPinching, lm), step := |s.points|));
            CalStep(s, lm, handPos, now) == CalOut(u.state, CalibrationComplete, 1.0, 4, u.events, PinchMetrics(lm))
  {
  }

  /** Every calibration frame reports the frame's pinch metrics. */
  lemma {:induction false} CalStepMetrics(s: CalState, lm: Landmarks, handPos: Point, now: real)
    ensures CalStep(s, lm, handPos, now).metrics == PinchMetrics(lm)
  {
  }

  // ----- properties ---------------------------------------------------------

  /** The consistency the calibration keeps: at most four points, exactly four
      once calibrated (and then the ROI is their bounding box), and an ordered
      ROI. */
  predicate CalInvariant(s: CalState) {
    && |s.points| <= 4
    && (|s.points| == 4 ==> s.isCalibrated)
    && (s.isCalibrated ==> |s.points| == 4 && s.roi == BoundingBox(s.points))
    && s.roi.Ordered()
  }

  lemma {:induction false} InitialCalInvariant()
    ensures CalInvariant(InitialCal)
  {
  }

  /** Every calibration frame keeps the invariant. */
  lemma {:induction false} CalStepPreserves(s: CalState, lm: Landmarks, handPos: Point, now: real)
    requires CalInvariant(s)
    ensures CalInvariant(CalStep(s, lm, handPos, now).state)
  {
    var n := |s.points|;
    if n > 0 {
      assert |s.points[..n - 1]| == n - 1;
    }
  }

  /** A point is recorded exactly when no fist is shown, no cooldown runs, the
      pinky latch is set and was already held 0.45 s earlier; it is the
      current hand position, appended at the end. */
  lemma {:induction false} AddIff(s: CalState, lm: Landmarks, handPos: Point, now: real)
    requires |s.points| < 4
    ensures var o := CalStep(s, lm, handPos, now);
            (|o.state.points| == |s.points| + 1 <==>
              !FourFingersCurled(lm) && now >= s.cooldownUntil && PinkyLatch(s.pinkyPinching, lm)
              && s.addHoldStart != 0.0 && now - s.addHoldStart >= HoldDuration)
            && (|o.state.points| == |s.points| + 1 ==>
                  o.state.points == s.points + [handPos] && o.state.cooldownUntil == now + PointCooldown
                  && o.state.addHoldStart == 0.0)
  {
  }

  /** A point is removed exactly when a fist has been held 0.45 s and there was
      one to remove; it is always the most recent one, and undoing clears the
      cooldown. */
  lemma {:induction false} UndoIff(s: CalState, lm: Landmarks, handPos: Point, now: real)
    requires |s.points| < 4
    ensures var o := CalStep(s, lm, handPos, now);
            (|o.state.points| == |s.points| - 1 <==>
              FourFingersCurled(lm) && |s.points| > 0
              && s.deleteHoldStart != 0.0 && now - s.deleteHoldStart >= HoldDuration)
            && (|o.state.points| == |s.points| - 1 ==>
                  o.state.points == s.points[..|s.points| - 1] && o.state.cooldownUntil == 0.0)
  {
  }

  /** A fist takes precedence: while it is shown no point is added and the
      pinky hold is left untouched. */
  lemma {:induction false} FistTakesPrecedence(s: CalState, lm: Landmarks, handPos: Point, now: real)
    requires |s.points| < 4 && FourFingersCurled(lm)
    ensures var o := CalStep(s, lm, handPos, now);
            o.state.points <= s.points && |o.state.points| + 1 >= |s.points|
            && o.state.addHoldStart == s.addHoldStart && o.msg == HoldFistToUndo
  {
  }

  /** During the cooldown no point can be added. */
  lemma {:induction false} CooldownBlocksAdd(s: CalState, lm: Landmarks, handPos: Point, now: real)
    requires now < s.cooldownUntil
    ensures |CalStep(s, lm, handPos, now).state.points| <= |s.points|
  {
  }

  /** Recording the fourth point completes the calibration: the ROI becomes the
      bounding box of the four points, which contains all of them. */
  lemma {:induction false} FourthPointCalibrates(s: CalState, lm: Landmarks, handPos: Point, now: real)
    requires |s.points| == 3
    requires |CalStep(s, lm, handPos, now).state.points| == 4
    ensures var o := CalStep(s, lm, handPos, now);
            o.state.isCalibrated && o.state.points == s.points + [handPos]
            && o.state.roi == BoundingBox(o.state.points)
            && (forall i :: 0 <= i < 4 ==> o.state.roi.Contains(o.state.points[i]))
            && o.msg == CalibrationComplete && PlayCalibrationDone in o.events
  {
    AddIff(s, lm, handPos, now);
  }

  /** The progress shown is a fraction in [0, 1] as long as no hold started in
      the future. */
  lemma {:induction false} CalProgressInUnitInterval(s: CalState, lm: Landmarks, handPos: Point, now: real)
    requires CalStartsBy(s, now)
    ensures 0.0 <= CalStep(s, lm, handPos, now).progress <= 1.0
  {
    var start1 := if s.deleteHoldStart == 0.0 then now else s.deleteHoldStart;
    var start2 := if s.addHoldStart == 0.0 then now else s.addHoldStart;
    assert (now - start1) / HoldDuration >= 0.0;
    assert (now - start2) / HoldDuration >= 0.0;
  }

  /** Neither calibration hold started after time `t`; a start of 0 ("not
      started") counts as before any positive time. */
  predicate CalStartsBy(s: CalState, t: real) {
    s.addHoldStart <= t && s.deleteHoldStart <= t
  }

  /** A frame at a non-negative time `now` only starts holds at `now`. */
  lemma {:induction false} CalStepStartsBy(s: CalState, lm: Landmarks, handPos: Point, now: real)
    requires CalStartsBy(s, now) && 0.0 <= now
    ensures CalStartsBy(CalStep(s, lm, handPos, now).state, now)
  {
  }

  /** The pinky latch has hysteresis: between 0.25 and 0.33 hand scales it
      keeps its state; and the release test's "no pinky pinch" half is implied
      by its distance half. */
  lemma {:induction false} PinkyLatchHysteresis(engaged: bool, lm: Landmarks)
    ensures Sq(PinkyPinchTrigger) <= NormDistSq(lm, 4, 20) <= Sq(PinkyPinchRelease)
            ==> PinkyLatch(engaged, lm) == engaged
    ensures NormDistSq(lm, 4, 20) > Sq(PinkyPinchRelease) ==> !PinkyPinch(lm)
    ensures PinkyLatch(false, lm) <==> NormDistSq(lm, 4, 20) < Sq(PinkyPinchTrigger)
    ensures !PinkyLatch(true, lm) <==> NormDistSq(lm, 4, 20) > Sq(PinkyPinchRelease)
  {
  }
}
