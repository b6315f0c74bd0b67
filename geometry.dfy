/** Hand geometry used by the controller: landmarks, normalised distances,
    finger extension and the hand-shape predicates of `MouseController`.

    Distances. The source compares Euclidean distances (`math.hypot`), scaled
    by the hand size, against thresholds. Both sides of every such comparison
    are non-negative, so `d / s < t` holds exactly when `d*d / (s*s) < t*t`
    (lemma SquaredComparisonExact). The model therefore works with squared
    distances and squared thresholds and never needs a square root. */
module Geometry {
  import opened Common

  datatype Point = Point(x: real, y: real)

  /** The 21 MediaPipe hand landmarks: 0 wrist, 1-4 thumb (2 MCP, 3 IP,
      4 tip), 5-8 index, 9-12 middle, 13-16 ring, 17-20 pinky (MCP, PIP,
      DIP, tip). */
  type Landmarks = s: seq<Point> | |s| == 21
    witness [Point(0.0, 0.0), Point(0.0, 0.0), Point(0.0, 0.0), Point(0.0, 0.0), Point(0.0, 0.0),
             Point(0.0, 0.0), Point(0.0, 0.0), Point(0.0, 0.0), Point(0.0, 0.0), Point(0.0, 0.0),
             Point(0.0, 0.0), Point(0.0, 0.0), Point(0.0, 0.0), Point(0.0, 0.0), Point(0.0, 0.0),
             Point(0.0, 0.0), Point(0.0, 0.0), Point(0.0, 0.0), Point(0.0, 0.0), Point(0.0, 0.0),
             Point(0.0, 0.0)]

  datatype HandLabel = Left | Right

  /** One tracked hand as delivered by the vision collaborator. */
  datatype HandFrame = HandFrame(landmarks: Landmarks, handedness: HandLabel)

  const ThumbRatio: real := 1.4
  const FingerRatio: real := 1.6
  const ScrollMaxSpread: real := 0.35
  const RingPinchThreshold: real := 0.22
  const PinkyPinchTrigger: real := 0.25
  const PinkyPinchRelease: real := 0.33

  /** (tip, pip, mcp) of index, middle, ring and pinky. */
  const FingerJoints: seq<(int, int, int)> := [(8, 6, 5), (12, 10, 9), (16, 14, 13), (20, 18, 17)]
  /** Fingertips of index, middle, ring and pinky. */
  const Tips: seq<int> := [8, 12, 16, 20]
  /** Wrist and the four finger MCP joints, averaged for a stable position. */
  const PalmIndices: seq<int> := [0, 5, 9, 13, 17]

  /** Square of `get_distance`. */
  function DistSq(p: Point, q: Point): (r: real)
    ensures r >= 0.0
  {
    var dx := p.x - q.x;
    var dy := p.y - q.y;
    assert dx * dx >= 0.0 && dy * dy >= 0.0;
    dx * dx + dy * dy
  }

  /** Square of `get_hand_scale or 1.0`: wrist to middle MCP, with a zero
      scale replaced by one. */
  function ScaleSq(lm: Landmarks): (r: real)
    ensures r > 0.0
  {
    var s := DistSq(lm[0], lm[9]);
    if s == 0.0 then 1.0 else s
  }

  /** Square of `get_distance(lm[i], lm[j]) / scale`. */
  function NormDistSq(lm: Landmarks, i: nat, j: nat): (r: real)
    requires i < 21 && j < 21
    ensures r >= 0.0
  {
    DistSq(lm[i], lm[j]) / ScaleSq(lm)
  }

  /** Why squared comparisons are exact: for a distance `d >= 0`, a scale
      `s > 0` and a threshold `t >= 0`, comparing `d / s` with `t` gives the
      same answer as comparing `d * d` with `t * t * s * s`. */
  lemma {:induction false} SquaredComparisonExact(d: real, s: real, t: real)
    requires d >= 0.0 && s > 0.0 && t >= 0.0
    ensures d / s < t <==> d * d < (t * t) * (s * s)
    ensures d / s > t <==> d * d > (t * t) * (s * s)
  {
    DivCompare(d, s, t);
    assert (t * s) * (t * s) == (t * t) * (s * s);
    assert t * s >= 0.0;
    SquareMonotone(d, t * s);
    SquareMonotone(t * s, d);
  }

  /** ... and the model's normalised squared distance compares with a squared
      threshold exactly as the squared distance does with the squared
      threshold times the squared scale. */
  lemma {:induction false} NormalisedComparison(lm: Landmarks, i: nat, j: nat, t: real)
    requires i < 21 && j < 21
    ensures NormDistSq(lm, i, j) < Sq(t) <==> DistSq(lm[i], lm[j]) < Sq(t) * ScaleSq(lm)
    ensures NormDistSq(lm, i, j) > Sq(t) <==> DistSq(lm[i], lm[j]) > Sq(t) * ScaleSq(lm)
  {
    DivCompare(DistSq(lm[i], lm[j]), ScaleSq(lm), Sq(t));
  }

  lemma {:induction false} DivCompare(a: real, b: real, c: real)
    requires b > 0.0
    ensures a / b < c <==> a < c * b
    ensures a / b > c <==> a > c * b
  {
  }

  /** For non-negative reals, `a < b` exactly when `a * a < b * b`. */
  lemma {:induction false} SquareMonotone(a: real, b: real)
    requires a >= 0.0 && b >= 0.0
    ensures a < b <==> a * a < b * b
  {
    if a < b {
      calc {
        a * a;
      <= { assert a * a <= a * b; }
        a * b;
      <  { assert a * b < b * b; }
        b * b;
      }
    } else {
      calc {
        b * b;
      <= { assert b * b <= b * a; }
        b * a;
      <= { assert b * a <= a * a; }
        a * a;
      }
    }
  }

  /** Thumb extended: tip-to-MCP longer than 1.4 times IP-to-MCP. */
  predicate ThumbExtended(lm: Landmarks) {
    DistSq(lm[4], lm[2]) > Sq(ThumbRatio) * DistSq(lm[3], lm[2])
  }

  /** Finger `k` (0 index ... 3 pinky) extended: tip-to-MCP longer than 1.6
      times PIP-to-MCP. */
  predicate FingerExtended(lm: Landmarks, k: nat)
    requires k < 4
  {
    var (tip, pip, mcp) := FingerJoints[k];
    DistSq(lm[tip], lm[mcp]) > Sq(FingerRatio) * DistSq(lm[pip], lm[mcp])
  }

  /** `get_finger_states`: thumb, index, middle, ring, pinky. */
  function FingerStates(lm: Landmarks): (r: seq<bool>)
  {
    [ThumbExtended(lm), FingerExtended(lm, 0), FingerExtended(lm, 1), FingerExtended(lm, 2), FingerExtended(lm, 3)]
  }

  /** The loop of `get_finger_states`. */
  method GetFingerStates(lm: Landmarks) returns (states: seq<bool>)
    ensures |states| == 5
    ensures states[0] <==> DistSq(lm[4], lm[2]) > Sq(ThumbRatio) * DistSq(lm[3], lm[2])
    ensures forall k :: 0 <= k < 4 ==> (states[k + 1] <==> FingerExtended(lm, k))
    ensures states == FingerStates(lm)
  {
    var refThumb := DistSq(lm[3], lm[2]);
    var dThumb := DistSq(lm[4], lm[2]);
    states := [dThumb > refThumb * Sq(ThumbRatio)];
    var i := 0;
    while i < 4
      invariant 0 <= i <= 4
      invariant |states| == i + 1
      invariant states[0] == ThumbExtended(lm)
      invariant forall k :: 0 <= k < i ==> states[k + 1] == FingerExtended(lm, k)
    {
      var (tip, pip, mcp) := FingerJoints[i];
      var ref := DistSq(lm[pip], lm[mcp]);
      var dTipMcp := DistSq(lm[tip], lm[mcp]);
      states := states + [dTipMcp > ref * Sq(FingerRatio)];
      i := i + 1;
    }
  }

  /** `is_four_fingers_curled`: none of index..pinky extended. */
  predicate FourFingersCurled(lm: Landmarks) {
    var s := FingerStates(lm);
    !s[1] && !s[2] && !s[3] && !s[4]
  }

  /** `is_middle_click_gesture`: index and middle up, thumb, ring, pinky down. */
  predicate MiddleClickShape(lm: Landmarks) {
    var s := FingerStates(lm);
    !s[0] && s[1] && s[2] && !s[3] && !s[4]
  }

  /** `is_palm_open`: all five extended. */
  predicate PalmOpen(lm: Landmarks) {
    var s := FingerStates(lm);
    s[0] && s[1] && s[2] && s[3] && s[4]
  }

  /** Adjacent fingertips `i` and `i + 1` no further apart than 0.35 hand
      scales. */
  predicate TipsTogether(lm: Landmarks, i: nat)
    requires i < 3
  {
    NormDistSq(lm, Tips[i], Tips[i + 1]) <= Sq(ScrollMaxSpread)
  }

  /** `is_scroll_gesture`: four fingers extended and held together. */
  predicate ScrollShape(lm: Landmarks) {
    var s := FingerStates(lm);
    s[1] && s[2] && s[3] && s[4] && TipsTogether(lm, 0) && TipsTogether(lm, 1) && TipsTogether(lm, 2)
  }

  /** The loop of `is_scroll_gesture`, with its early return. */
  method IsScrollGesture(lm: Landmarks) returns (r: bool)
    ensures r <==> FingerStates(lm)[1..] == [true, true, true, true]
                   && forall i :: 0 <= i < 3 ==> NormDistSq(lm, Tips[i], Tips[i + 1]) <= Sq(ScrollMaxSpread)
    ensures r == ScrollShape(lm)
  {
    var states := GetFingerStates(lm);
    if !(states[1] && states[2] && states[3] && states[4]) {
      return false;
    }
    var scaleSq := ScaleSq(lm);
    var i := 0;
    while i < 3
      invariant 0 <= i <= 3
      invariant forall j :: 0 <= j < i ==> TipsTogether(lm, j)
    {
      var distSq := DistSq(lm[Tips[i]], lm[Tips[i + 1]]) / scaleSq;
      if distSq > Sq(ScrollMaxSpread) {
        return false;
      }
      i := i + 1;
    }
    assert TipsTogether(lm, 0) && TipsTogether(lm, 1) && TipsTogether(lm, 2);
    return true;
  }

  /** `is_ring_pinch`: thumb tip to ring tip under 0.22 hand scales. */
  predicate RingPinch(lm: Landmarks) {
    NormDistSq(lm, 4, 16) < Sq(RingPinchThreshold)
  }

  /** `is_pinky_pinch`: thumb tip to pinky tip under 0.25 hand scales. */
  predicate PinkyPinch(lm: Landmarks) {
    NormDistSq(lm, 4, 20) < Sq(PinkyPinchTrigger)
  }

  function SumX(lm: Landmarks, n: nat): real
    requires n <= |PalmIndices|
  {
    if n == 0 then 0.0 else SumX(lm, n - 1) + lm[PalmIndices[n - 1]].x
  }

  function SumY(lm: Landmarks, n: nat): real
    requires n <= |PalmIndices|
  {
    if n == 0 then 0.0 else SumY(lm, n - 1) + lm[PalmIndices[n - 1]].y
  }

  /** `get_stable_hand_pos`: mean of the wrist and the four MCP joints. */
  function StableHandPos(lm: Landmarks): Point {
    Point((lm[0].x + lm[5].x + lm[9].x + lm[13].x + lm[17].x) / 5.0,
          (lm[0].y + lm[5].y + lm[9].y + lm[13].y + lm[17].y) / 5.0)
  }

  /** The loop of `get_stable_hand_pos`. */
  method GetStableHandPos(lm: Landmarks) returns (p: Point)
    ensures p == StableHandPos(lm)
  {
    var avgX, avgY := 0.0, 0.0;
    var i := 0;
    while i < |PalmIndices|
      invariant 0 <= i <= |PalmIndices|
      invariant avgX == SumX(lm, i) && avgY == SumY(lm, i)
    {
      avgX := avgX + lm[PalmIndices[i]].x;
      avgY := avgY + lm[PalmIndices[i]].y;
      i := i + 1;
    }
    assert SumX(lm, 5) == SumX(lm, 4) + lm[17].x;
    assert SumX(lm, 4) == SumX(lm, 3) + lm[13].x;
    assert SumX(lm, 3) == SumX(lm, 2) + lm[9].x;
    assert SumY(lm, 5) == SumY(lm, 4) + lm[17].y;
    assert SumY(lm, 4) == SumY(lm, 3) + lm[13].y;
    assert SumY(lm, 3) == SumY(lm, 2) + lm[9].y;
    p := Point(avgX / |PalmIndices| as real, avgY / |PalmIndices| as real);
  }

  predicate InUnitSquare(p: Point) {
    0.0 <= p.x <= 1.0 && 0.0 <= p.y <= 1.0
  }

  /** Normalised landmarks give a normalised stable position. */
  lemma {:induction false} StableHandPosInUnitSquare(lm: Landmarks)
    requires forall i :: 0 <= i < 21 ==> InUnitSquare(lm[i])
    ensures InUnitSquare(StableHandPos(lm))
  {
    assert InUnitSquare(lm[0]) && InUnitSquare(lm[5]) && InUnitSquare(lm[9]);
    assert InUnitSquare(lm[13]) && InUnitSquare(lm[17]);
  }

  /** The open palm and the fist exclude each other, and so do the middle-click
      and scroll shapes (the ring finger is down in one and up in the other). */
  lemma {:induction false} ShapesExclusive(lm: Landmarks)
    ensures !(PalmOpen(lm) && FourFingersCurled(lm))
    ensures !(MiddleClickShape(lm) && ScrollShape(lm))
    ensures !(MiddleClickShape(lm) && FourFingersCurled(lm))
    ensures !(ScrollShape(lm) && FourFingersCurled(lm))
  {
  }
}
