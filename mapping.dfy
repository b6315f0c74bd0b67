/** From the stable hand position to a screen target
    (`MouseController.map_coordinates`, before smoothing): normalise into the
    ROI, stretch about the centre by the overdrive factor so that the screen
    edges are reached before the ROI edges, clamp, and scale to the screen. */
module Mapping {
  import opened Common
  import opened Geometry
  import opened Calibration

  const OverdriveFactor: real := 1.3

  /** Stretch about 0.5 by the overdrive factor. */
  function Overdrive(n: real): real {
    (n - 0.5) * OverdriveFactor + 0.5
  }

  /** `max(0, min(1, n))`. */
  function Clamp01(n: real): (r: real)
    ensures 0.0 <= r <= 1.0
    ensures 0.0 <= n <= 1.0 ==> r == n
    ensures n < 0.0 ==> r == 0.0
    ensures n > 1.0 ==> r == 1.0
  {
    Max(0.0, Min(1.0, n))
  }

  /** One axis: the position of `v` in `[lo, lo + w]`, overdriven and clamped. */
  function Axis(v: real, lo: real, w: real): (r: real)
    requires w != 0.0
    ensures 0.0 <= r <= 1.0
  {
    Clamp01(Overdrive((v - lo) / w))
  }

  /** A normalised coordinate times a screen dimension. */
  function Scale(n: real, size: real): real {
    n * size
  }

  /** The unsmoothed screen target; `None` for a degenerate ROI, where the
      source returns (0, 0) without consulting the filters. */
  function Target(pos: Point, roi: Roi, screenW: real, screenH: real): Option<Point> {
    var w := roi.x2 - roi.x1;
    var h := roi.y2 - roi.y1;
    if w == 0.0 || h == 0.0 then None
    else Some(Point(Scale(Axis(pos.x, roi.x1, w), screenW), Scale(Axis(pos.y, roi.y1, h), screenH)))
  }

  /** The statements of `map_coordinates` up to the filters: `None` where the
      source returns (0, 0) early. */
  method MapTarget(pos: Point, roi: Roi, screenW: real, screenH: real) returns (t: Option<Point>)
    ensures t == Target(pos, roi, screenW, screenH)
    ensures t.None? <==> roi.x1 == roi.x2 || roi.y1 == roi.y2
  {
    var roiW := roi.x2 - roi.x1;
    var roiH := roi.y2 - roi.y1;
    if roiW == 0.0 || roiH == 0.0 {
      return None;
    }
    var normX := (pos.x - roi.x1) / roiW;
    var normY := (pos.y - roi.y1) / roiH;
    normX := normX - 0.5;
    normY := normY - 0.5;
    normX := normX * OverdriveFactor;
    normY := normY * OverdriveFactor;
    normX := normX + 0.5;
    normY := normY + 0.5;
    normX := Max(0.0, Min(1.0, normX));
    normY := Max(0.0, Min(1.0, normY));
    assert normX == Axis(pos.x, roi.x1, roiW) && normY == Axis(pos.y, roi.y1, roiH);
    var targetX := normX * screenW;
    var targetY := normY * screenH;
    assert targetX == Scale(normX, screenW) && targetY == Scale(normY, screenH);
    t := Some(Point(targetX, targetY));
  }

  /** The mapping is defined exactly for ROIs of non-zero width and height. */
  lemma {:induction false} DegenerateRoi(pos: Point, roi: Roi, screenW: real, screenH: real)
    ensures Target(pos, roi, screenW, screenH).None? <==> roi.x1 == roi.x2 || roi.y1 == roi.y2
  {
  }

  lemma {:induction false} ScaleWithin(a: real, s: real)
    requires 0.0 <= a <= 1.0 && s >= 0.0
    ensures 0.0 <= a * s <= s
  {
    assert a * s <= 1.0 * s by {
      assert (1.0 - a) * s >= 0.0;
    }
  }

  /** Every target lies on the screen. */
  lemma {:induction false} TargetOnScreen(pos: Point, roi: Roi, screenW: real, screenH: real)
    requires screenW >= 0.0 && screenH >= 0.0
    requires Target(pos, roi, screenW, screenH).Some?
    ensures var t := Target(pos, roi, screenW, screenH).value;
            0.0 <= t.x <= screenW && 0.0 <= t.y <= screenH
  {
    var w := roi.x2 - roi.x1;
    var h := roi.y2 - roi.y1;
    var ax, ay := Axis(pos.x, roi.x1, w), Axis(pos.y, roi.y1, h);
    assert Target(pos, roi, screenW, screenH).value == Point(ax * screenW, ay * screenH);
    ScaleWithin(ax, screenW);
    ScaleWithin(ay, screenH);
  }

  /** The centre of the ROI maps to the centre of the screen. */
  lemma {:induction false} CentreToCentre(roi: Roi, screenW: real, screenH: real)
    requires roi.x1 != roi.x2 && roi.y1 != roi.y2
    ensures Target(Point((roi.x1 + roi.x2) / 2.0, (roi.y1 + roi.y2) / 2.0), roi, screenW, screenH)
            == Some(Point(screenW / 2.0, screenH / 2.0))
  {
    var w := roi.x2 - roi.x1;
    var h := roi.y2 - roi.y1;
    assert ((roi.x1 + roi.x2) / 2.0 - roi.x1) / w == 0.5;
    assert ((roi.y1 + roi.y2) / 2.0 - roi.y1) / h == 0.5;
  }

  /** The overdrive saturates: a normalised coordinate reaches the screen edge
      exactly when it is at least 0.5 / 1.3 away from the centre, so the outer
      margin of the ROI (about 11.5 % on each side) is all mapped to the edge. */
  lemma {:induction false} OverdriveSaturates(n: real)
    ensures Clamp01(Overdrive(n)) == 1.0 <==> (n - 0.5) * OverdriveFactor >= 0.5
    ensures Clamp01(Overdrive(n)) == 0.0 <==> (0.5 - n) * OverdriveFactor >= 0.5
  {
  }

  lemma {:induction false} AxisMonotone(u: real, v: real, lo: real, w: real)
    requires w > 0.0 && u <= v
    ensures Axis(u, lo, w) <= Axis(v, lo, w)
  {
    assert (u - lo) / w <= (v - lo) / w by {
      assert (v - lo) / w - (u - lo) / w == (v - u) / w;
    }
  }

  /** A hand further right (or lower) never gives a target further left (or
      higher): each screen coordinate is monotone in the hand coordinate. */
  lemma {:induction false} ScreenAxisMonotone(u: real, v: real, lo: real, w: real, size: real)
    requires w > 0.0 && u <= v && size >= 0.0
    ensures Axis(u, lo, w) * size <= Axis(v, lo, w) * size
  {
    AxisMonotone(u, v, lo, w);
    MulMonotone(Axis(u, lo, w), Axis(v, lo, w), size);
  }

  lemma {:induction false} MulMonotone(a: real, b: real, s: real)
    requires a <= b && s >= 0.0
    ensures a * s <= b * s
  {
    assert b * s - a * s == (b - a) * s;
  }
}
