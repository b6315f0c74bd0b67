/** Gesture classification while the engine runs
    (`MouseController.detect_gesture_priority`): two pinch latches with
    hysteresis, a fixed priority among the hand shapes, and a debounce that
    confirms a new gesture only after it has been seen often enough in a row. */
module Gestures {
  import opened Common
  import opened Geometry

  datatype Gesture = Move | LeftPinch | RightPinch | MiddleClick | Scroll | Fist

  /** Thresholds in hand scales. */
  const PinchTrigger: real := 0.28
  const LeftPinchRelease: real := 0.34
  const RightPinchTrigger: real := 0.20
  const RightPinchRelease: real := 0.30
  const GestureConfirmFrames: nat := 3

  /** The debug metrics `last_dist_index` / `last_dist_middle`, squared:
      thumb tip to index tip and thumb tip to middle tip, in hand scales. */
  datatype Metrics = Metrics(indexSq: real, middleSq: real)

  function PinchMetrics(lm: Landmarks): (m: Metrics)
    ensures m.indexSq == NormDistSq(lm, 4, 8) && m.middleSq == NormDistSq(lm, 4, 12)
    ensures m.indexSq >= 0.0 && m.middleSq >= 0.0
  {
    Metrics(NormDistSq(lm, 4, 8), NormDistSq(lm, 4, 12))
  }

  /** A pinch latch: an engaged latch lets go only beyond `release`, a free one
      engages only under `trigger` (both compared squared). */
  function Latch(engaged: bool, dSq: real, trigger: real, release: real): bool {
    if engaged then !(dSq > Sq(release)) else dSq < Sq(trigger)
  }

  /** The latches `_right_pinching` and `_left_pinching`. */
  datatype Latches = Latches(right: bool, left: bool)

  datatype Detection = Detection(latches: Latches, gesture: Gesture)

  /** The raw (undebounced) gesture of one frame and the new latches. The
      left latch is consulted, and may change, only when the right pinch is
      not detected. */
  function DetectRaw(lm: Landmarks, l: Latches): Detection {
    var m := PinchMetrics(lm);
    var right := Latch(l.right, m.middleSq, RightPinchTrigger, RightPinchRelease);
    if right then Detection(Latches(true, l.left), RightPinch)
    else
      var left := Latch(l.left, m.indexSq, PinchTrigger, LeftPinchRelease);
      if left then Detection(Latches(false, true), LeftPinch)
      else if MiddleClickShape(lm) then Detection(Latches(false, false), MiddleClick)
      else if ScrollShape(lm) then Detection(Latches(false, false), Scroll)
      else if FourFingersCurled(lm) then Detection(Latches(false, false), Fist)
      else Detection(Latches(false, false), Move)
  }

  /** `last_gesture` and `gesture_consecutive_frames`. */
  datatype Debounce = Debounce(last: Gesture, frames: nat)

  datatype Confirmed = Confirmed(deb: Debounce, gesture: Gesture)

  /** The debounce: a detection equal to the previous one extends the run, any
      other restarts it at 0; the detection is returned only once the run
      reaches 3, otherwise the gesture in force (`current`) is kept. */
  function DebounceStep(d: Debounce, detected: Gesture, current: Gesture): (c: Confirmed)
    ensures c.deb.last == detected
    ensures c.gesture == detected || c.gesture == current
    ensures c.gesture != current ==> detected == d.last && d.frames + 1 >= GestureConfirmFrames
  {
    var frames := if detected == d.last then d.frames + 1 else 0;
    Confirmed(Debounce(detected, frames), if frames >= GestureConfirmFrames then detected else current)
  }

  /** The classifier state of the controller. */
  datatype Classifier = Classifier(latches: Latches, deb: Debounce)

  const InitialClassifier := Classifier(Latches(false, false), Debounce(Move, 0))

  datatype Classified = Classified(cls: Classifier, metrics: Metrics, gesture: Gesture)

  /** `detect_gesture_priority(landmarks)` given the gesture in force. */
  function Classify(c: Classifier, lm: Landmarks, current: Gesture): Classified {
    var det := DetectRaw(lm, c.latches);
    var conf := DebounceStep(c.deb, det.gesture, current);
    Classified(Classifier(det.latches, conf.deb), PinchMetrics(lm), conf.gesture)
  }

  // ----- latches ------------------------------------------------------------

  /** Inside the hysteresis band a latch keeps its state, engaged or not. */
  lemma {:induction false} LatchHoldsInBand(engaged: bool, dSq: real, trigger: real, release: real)
    requires Sq(trigger) <= dSq <= Sq(release)
    ensures Latch(engaged, dSq, trigger, release) == engaged
  {
  }

  /** A free latch engages exactly under the trigger; an engaged one releases
      exactly beyond the release distance (both directions). */
  lemma {:induction false} LatchTransitions(dSq: real, trigger: real, release: real)
    ensures Latch(false, dSq, trigger, release) <==> dSq < Sq(trigger)
    ensures !Latch(true, dSq, trigger, release) <==> dSq > Sq(release)
  {
  }

  /** Latch over a run of distances. */
  function LatchRun(engaged: bool, ds: seq<real>, trigger: real, release: real): bool
    decreases |ds|
  {
    if ds == [] then engaged
    else Latch(LatchRun(engaged, ds[..|ds| - 1], trigger, release), ds[|ds| - 1], trigger, release)
  }

  /** However long the hand wavers inside the band, the latch does not chatter. */
  lemma {:induction false} LatchRunHoldsInBand(engaged: bool, ds: seq<real>, trigger: real, release: real)
    requires forall i :: 0 <= i < |ds| ==> Sq(trigger) <= ds[i] <= Sq(release)
    ensures LatchRun(engaged, ds, trigger, release) == engaged
    decreases |ds|
  {
    if ds != [] {
      LatchRunHoldsInBand(engaged, ds[..|ds| - 1], trigger, release);
      LatchHoldsInBand(engaged, ds[|ds| - 1], trigger, release);
    }
  }

  // ----- priority -----------------------------------------------------------

  /** The right pinch wins over everything and leaves the left latch alone. */
  lemma {:induction false} RightPinchFirst(lm: Landmarks, l: Latches)
    ensures var d := DetectRaw(lm, l);
            (d.gesture == RightPinch <==> Latch(l.right, NormDistSq(lm, 4, 12), RightPinchTrigger, RightPinchRelease))
            && (d.gesture == RightPinch ==> d.latches == Latches(true, l.left))
  {
  }

  /** The left pinch is detected exactly when the right one is not and the left
      latch holds; neither latch is left set unless its pinch was detected. */
  lemma {:induction false} LeftPinchSecond(lm: Landmarks, l: Latches)
    ensures var d := DetectRaw(lm, l);
            (d.gesture == LeftPinch <==>
              !Latch(l.right, NormDistSq(lm, 4, 12), RightPinchTrigger, RightPinchRelease)
              && Latch(l.left, NormDistSq(lm, 4, 8), PinchTrigger, LeftPinchRelease))
            && (d.latches.right <==> d.gesture == RightPinch)
            && (d.gesture != RightPinch ==> (d.latches.left <==> d.gesture == LeftPinch))
  {
  }

  /** Without a pinch the shapes are tried in the order middle click, scroll,
      fist; the raw gesture is Move exactly when nothing matched. */
  lemma {:induction false} ShapePriority(lm: Landmarks, l: Latches)
    ensures var d := DetectRaw(lm, l);
            var pinch := d.gesture == RightPinch || d.gesture == LeftPinch;
            (d.gesture == MiddleClick <==> !pinch && MiddleClickShape(lm))
            && (d.gesture == Scroll <==> !pinch && !MiddleClickShape(lm) && ScrollShape(lm))
            && (d.gesture == Fist <==> !pinch && !MiddleClickShape(lm) && !ScrollShape(lm) && FourFingersCurled(lm))
            && (d.gesture == Move <==> !pinch && !MiddleClickShape(lm) && !ScrollShape(lm) && !FourFingersCurled(lm))
  {
  }

  // ----- debounce over time -------------------------------------------------

  /** The debounce state together with the gesture in force. */
  datatype DebState = DebState(deb: Debounce, current: Gesture)

  /** One frame of the debounce; the confirmed gesture becomes the one in
      force, as `process_running` does. */
  function DebStep(s: DebState, detected: Gesture): DebState {
    var c := DebounceStep(s.deb, detected, s.current);
    DebState(c.deb, c.gesture)
  }

  /** Feeding a sequence of raw detections. */
  function Feed(s: DebState, dets: seq<Gesture>): DebState
    decreases |dets|
  {
    if dets == [] then s
    else DebStep(Feed(s, dets[..|dets| - 1]), dets[|dets| - 1])
  }

  lemma {:induction false} FeedSnoc(s: DebState, dets: seq<Gesture>, d: Gesture)
    ensures Feed(s, dets + [d]) == DebStep(Feed(s, dets), d)
  {
    assert (dets + [d])[..|dets|] == dets;
  }

  /** The run counter never overstates: the last `frames + 1` detections all
      equal `last` (a run reaching before the first detection continues the
      initial one). */
  lemma {:induction false} RunInvariant(s: DebState, dets: seq<Gesture>)
    ensures var f := Feed(s, dets).deb;
            (forall i :: 0 <= i < |dets| && |dets| - 1 - f.frames <= i ==> dets[i] == f.last)
            && (f.frames >= |dets| ==> f.last == s.deb.last && f.frames == s.deb.frames + |dets|)
    decreases |dets|
  {
    if dets != [] {
      var prefix := dets[..|dets| - 1];
      RunInvariant(s, prefix);
      var p := Feed(s, prefix).deb;
      var f := Feed(s, dets).deb;
      assert forall i :: 0 <= i < |prefix| ==> prefix[i] == dets[i];
      if dets[|dets| - 1] == p.last {
        assert f.frames == p.frames + 1;
      } else {
        assert f.frames == 0;
      }
    }
  }

  /** A newly confirmed gesture was detected in each of the last four frames,
      and when fewer than four frames have passed it was also the initial
      `last_gesture`. */
  lemma {:induction false} ConfirmationNeedsFourDetections(s: DebState, dets: seq<Gesture>)
    requires |dets| > 0
    requires Feed(s, dets).current != Feed(s, dets[..|dets| - 1]).current
    ensures var g := Feed(s, dets).current;
            (forall i :: 0 <= i < |dets| && |dets| - 4 <= i ==> dets[i] == g)
            && (|dets| < 4 ==> s.deb.last == g)
  {
    var prefix := dets[..|dets| - 1];
    var p := Feed(s, prefix);
    assert dets == prefix + [dets[|dets| - 1]];
    FeedSnoc(s, prefix, dets[|dets| - 1]);
    var f := Feed(s, dets);
    assert f.deb.frames == p.deb.frames + 1 >= 3;
    RunInvariant(s, dets);
  }

  /** From the engine's initial state (last gesture Move, run 0, Move in
      force) no other gesture can be in force before four frames have passed. */
  lemma {:induction false} NoEarlySwitch(dets: seq<Gesture>)
    requires |dets| < 4
    ensures Feed(DebState(Debounce(Move, 0), Move), dets).current == Move
    decreases |dets|
  {
    if dets != [] {
      var s := DebState(Debounce(Move, 0), Move);
      NoEarlySwitch(dets[..|dets| - 1]);
      if Feed(s, dets).current != Move {
        ConfirmationNeedsFourDetections(s, dets);
      }
    }
  }

  /** After `k >= 1` consecutive detections of `g` the run is at least `k - 1`
      long. */
  lemma {:induction false} TrailingRun(s: DebState, dets: seq<Gesture>, g: Gesture, k: nat)
    requires 1 <= k <= |dets|
    requires forall i :: |dets| - k <= i < |dets| ==> dets[i] == g
    ensures Feed(s, dets).deb.last == g && Feed(s, dets).deb.frames >= k - 1
    decreases k
  {
    var prefix := dets[..|dets| - 1];
    if k > 1 {
      assert forall i :: |prefix| - (k - 1) <= i < |prefix| ==> prefix[i] == dets[i];
      TrailingRun(s, prefix, g, k - 1);
    }
  }

  /** Four detections of the same gesture in a row always confirm it. */
  lemma {:induction false} FourDetectionsConfirm(s: DebState, dets: seq<Gesture>, g: Gesture)
    requires |dets| >= 4
    requires forall i :: |dets| - 4 <= i < |dets| ==> dets[i] == g
    ensures Feed(s, dets).current == g
  {
    TrailingRun(s, dets, g, 4);
  }

  /** Three are not enough after a different detection: the gesture in force
      is kept. */
  lemma {:induction false} ThreeDetectionsDoNotConfirm(s: DebState, g: Gesture)
    requires s.deb.last != g
    ensures Feed(s, [g, g, g]).current == s.current
  {
    FeedSnoc(s, [], g);
    FeedSnoc(s, [g], g);
    FeedSnoc(s, [g, g], g);
    assert [] + [g] == [g] && [g] + [g] == [g, g] && [g, g] + [g] == [g, g, g];
  }
}
