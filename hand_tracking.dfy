/** `HandDetector.get_gesture`: count the raised fingers of one hand from its
    landmark rows in pixel coordinates and name the result. The thumb is
    judged sideways (its tip against its IP joint, the direction taken from
    which side the index root lies of the pinky root); the other four
    fingers are raised when the tip is above the PIP joint. */
module HandTracking {
  import opened Common

  /** One row of `find_position`: the landmark id and its pixel position. */
  datatype LmEntry = LmEntry(id: int, x: int, y: int)

  /** `tip_ids`: the thumb, index, middle, ring and pinky tips. */
  const TipIds: seq<nat> := [4, 8, 12, 16, 20]

  /** The rows `get_gesture` can be called on: none at all, or enough rows
      for landmark 20 to exist (a shorter list makes the source raise an
      index error). */
  predicate Readable(lm: seq<LmEntry>) {
    lm == [] || |lm| >= 21
  }

  /** The thumb test: towards the pinky side when the index root is left of
      the pinky root, away from it otherwise. */
  predicate ThumbRaised(lm: seq<LmEntry>)
    requires |lm| >= 21
  {
    if lm[5].x < lm[17].x then lm[4].x < lm[3].x else lm[4].x > lm[3].x
  }

  /** Finger `k` (1 index, 2 middle, 3 ring, 4 pinky) is raised when its tip
      is higher in the image than the joint two landmarks below it. */
  predicate FingerRaised(lm: seq<LmEntry>, k: nat)
    requires |lm| >= 21 && 1 <= k <= 4
  {
    lm[TipIds[k]].y < lm[TipIds[k] - 2].y
  }

  function Bit(b: bool): nat {
    if b then 1 else 0
  }

  /** The `fingers` list: thumb first, then index to pinky, 1 for raised. */
  function Fingers(lm: seq<LmEntry>): seq<int>
    requires |lm| >= 21
  {
    [Bit(ThumbRaised(lm)), Bit(FingerRaised(lm, 1)), Bit(FingerRaised(lm, 2)),
     Bit(FingerRaised(lm, 3)), Bit(FingerRaised(lm, 4))]
  }

  /** The test `fingers.count(1)` counts with. */
  predicate IsOne(v: int) {
    v == 1
  }

  /** `total_fingers`. */
  function RaisedCount(lm: seq<LmEntry>): nat
    requires |lm| >= 21
  {
    Count(Fingers(lm), IsOne)
  }

  /** The label for `n` raised fingers. */
  function GestureName(n: nat): string {
    if n == 0 then "Fist (0)"
    else if n == 5 then "Open Hand (5)"
    else NatString(n) + " Fingers"
  }

  /** The result of `get_gesture`: `None` for an empty list. */
  function GestureOf(lm: seq<LmEntry>): Option<string>
    requires Readable(lm)
  {
    if lm == [] then None else Some(GestureName(RaisedCount(lm)))
  }

  /** `get_gesture(lm_list, hand_type)`. `hand_type` is accepted and unused. */
  method GetGesture(lmList: seq<LmEntry>, handType: string) returns (r: Option<string>)
    requires Readable(lmList)
    ensures r == GestureOf(lmList)
    ensures r.None? <==> lmList == []
  {
    if lmList == [] {
      return None;
    }
    var tipIds := TipIds;
    var fingers: seq<int> := [];
    var thumbTipX := lmList[tipIds[0]].x;
    var thumbIpX := lmList[tipIds[0] - 1].x;
    var indexRootX := lmList[5].x;
    var pinkyRootX := lmList[17].x;
    if indexRootX < pinkyRootX {
      if thumbTipX < thumbIpX {
        fingers := fingers + [1];
      } else {
        fingers := fingers + [0];
      }
    } else {
      if thumbTipX > thumbIpX {
        fingers := fingers + [1];
      } else {
        fingers := fingers + [0];
      }
    }
    ghost var want := Fingers(lmList);
    assert fingers == want[..1];
    for id := 1 to 5
      invariant fingers == want[..id]
    {
      assert want[..id + 1] == want[..id] + [want[id]];
      assert want[id] == Bit(FingerRaised(lmList, id));
      if lmList[tipIds[id]].y < lmList[tipIds[id] - 2].y {
        fingers := fingers + [1];
      } else {
        fingers := fingers + [0];
      }
    }
    assert fingers == want;
    var totalFingers := Count(fingers, IsOne);
    if totalFingers == 0 {
      r := Some("Fist (0)");
    } else if totalFingers == 5 {
      r := Some("Open Hand (5)");
    } else {
      r := Some(NatString(totalFingers) + " Fingers");
    }
  }

  // ----- what the label says ---------------------------------------------------

  lemma {:induction false} CountSnoc(s: seq<int>, x: int)
    ensures Count(s + [x], IsOne) == Count(s, IsOne) + Bit(x == 1)
  {
    assert (s + [x])[..|s|] == s;
  }

  lemma {:induction false} CountFive(a: int, b: int, c: int, d: int, e: int)
    ensures Count([a, b, c, d, e], IsOne) == Bit(a == 1) + Bit(b == 1) + Bit(c == 1) + Bit(d == 1) + Bit(e == 1)
  {
    CountSnoc([], a);
    CountSnoc([a], b);
    CountSnoc([a, b], c);
    CountSnoc([a, b, c], d);
    CountSnoc([a, b, c, d], e);
    assert [] + [a] == [a];
    assert [a] + [b] == [a, b];
    assert [a, b] + [c] == [a, b, c];
    assert [a, b, c] + [d] == [a, b, c, d];
    assert [a, b, c, d] + [e] == [a, b, c, d, e];
  }

  /** The count is the number of raised fingers, each finger counted once. */
  lemma {:induction false} RaisedCountIsSum(lm: seq<LmEntry>)
    requires |lm| >= 21
    ensures RaisedCount(lm) == Bit(ThumbRaised(lm)) + Bit(FingerRaised(lm, 1)) + Bit(FingerRaised(lm, 2))
                               + Bit(FingerRaised(lm, 3)) + Bit(FingerRaised(lm, 4))
    ensures RaisedCount(lm) <= 5
  {
    var b0, b1, b2 := Bit(ThumbRaised(lm)), Bit(FingerRaised(lm, 1)), Bit(FingerRaised(lm, 2));
    var b3, b4 := Bit(FingerRaised(lm, 3)), Bit(FingerRaised(lm, 4));
    CountFive(b0, b1, b2, b3, b4);
  }

  /** All five down. */
  predicate AllDown(lm: seq<LmEntry>)
    requires |lm| >= 21
  {
    !ThumbRaised(lm) && forall k :: 1 <= k <= 4 ==> !FingerRaised(lm, k)
  }

  /** All five up. */
  predicate AllUp(lm: seq<LmEntry>)
    requires |lm| >= 21
  {
    ThumbRaised(lm) && forall k :: 1 <= k <= 4 ==> FingerRaised(lm, k)
  }

  /** The labels of different counts differ, so the label determines the count. */
  lemma {:induction false} GestureNameInjective(n: nat, m: nat)
    requires n <= 5 && m <= 5
    requires GestureName(n) == GestureName(m)
    ensures n == m
  {
    if 1 <= n <= 4 && 1 <= m <= 4 {
      assert GestureName(n)[0] == "0123456789"[n];
      assert GestureName(m)[0] == "0123456789"[m];
    }
  }

  /** `"Fist (0)"` exactly when no finger is raised. */
  lemma {:induction false} FistIff(lm: seq<LmEntry>)
    requires |lm| >= 21
    ensures GestureOf(lm) == Some("Fist (0)") <==> AllDown(lm)
  {
    RaisedCountIsSum(lm);
    var n := RaisedCount(lm);
    if GestureOf(lm) == Some("Fist (0)") {
      assert GestureName(n) == GestureName(0);
      GestureNameInjective(n, 0);
    }
  }

  /** `"Open Hand (5)"` exactly when all five are raised. */
  lemma {:induction false} OpenHandIff(lm: seq<LmEntry>)
    requires |lm| >= 21
    ensures GestureOf(lm) == Some("Open Hand (5)") <==> AllUp(lm)
  {
    RaisedCountIsSum(lm);
    var n := RaisedCount(lm);
    if GestureOf(lm) == Some("Open Hand (5)") {
      assert GestureName(n) == GestureName(5);
      GestureNameInjective(n, 5);
    }
  }

  /** Otherwise the label is `"<n> Fingers"` with `n` between 1 and 4, and
      the number it shows is the number of raised fingers. */
  lemma {:induction false} FingersLabel(lm: seq<LmEntry>)
    requires |lm| >= 21 && !AllDown(lm) && !AllUp(lm)
    ensures var n := RaisedCount(lm);
            && 1 <= n <= 4
            && GestureOf(lm) == Some(NatString(n) + " Fingers")
            && ParseNat(NatString(n)) == n
  {
    RaisedCountIsSum(lm);
    NatStringRoundTrip(RaisedCount(lm));
  }
}
