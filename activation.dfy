/** The two-stage lock of the engine (`MouseController.update_system_state`).
    Unlocking: a thumb-to-ring pinch on either hand opens a 3-second window,
    during which the hands must be held crossed for 1.5 seconds. Locking: both
    palms held open for 1.5 seconds. */
module Activation {
  import opened Common
  import opened Geometry
  import opened Events

  const ActivationDuration: real := 1.5
  const Phase1Window: real := 3.0
  const CrossMargin: real := 0.05

  // ----- hand selection -----------------------------------------------------

  /** The landmarks of the last hand carrying `h` (a later hand overwrites an
      earlier one in the source's loop). */
  function LastLabelled(hands: seq<HandFrame>, h: HandLabel): (r: Option<Landmarks>)
    ensures r.Some? <==> exists i :: 0 <= i < |hands| && hands[i].handedness == h
    ensures r.Some? ==> exists i :: 0 <= i < |hands| && hands[i].handedness == h
                          && hands[i].landmarks == r.value
                          && forall j :: i < j < |hands| ==> hands[j].handedness != h
    decreases |hands|
  {
    if hands == [] then None
    else
      var n := |hands| - 1;
      if hands[n].handedness == h then Some(hands[n].landmarks)
      else
        var rest := LastLabelled(hands[..n], h);
        assert forall i :: 0 <= i < n ==> hands[..n][i] == hands[i];
        rest
  }

  /** One more hand of the list: it is the last so labelled if it carries
      the label. */
  lemma {:induction false} LastLabelledStep(hands: seq<HandFrame>, i: nat, h: HandLabel)
    requires i < |hands|
    ensures LastLabelled(hands[..i + 1], h)
            == if hands[i].handedness == h then Some(hands[i].landmarks) else LastLabelled(hands[..i], h)
  {
    assert hands[..i + 1][..i] == hands[..i];
  }

  datatype HandPair = HandPair(left: Landmarks, right: Landmarks)

  /** The left and right hand used by the lock: by label when both labels are
      present, otherwise the first two hands in detection order. */
  function SelectHands(hands: seq<HandFrame>): (p: HandPair)
    requires |hands| >= 2
    ensures LastLabelled(hands, Left).Some? && LastLabelled(hands, Right).Some?
            ==> p == HandPair(LastLabelled(hands, Left).value, LastLabelled(hands, Right).value)
    ensures !(LastLabelled(hands, Left).Some? && LastLabelled(hands, Right).Some?)
            ==> p == HandPair(hands[0].landmarks, hands[1].landmarks)
  {
    match (LastLabelled(hands, Left), LastLabelled(hands, Right))
    case (Some(l), Some(r)) => HandPair(l, r)
    case _ => HandPair(hands[0].landmarks, hands[1].landmarks)
  }

  /** The loop at the start of `update_system_state`. */
  method PickHands(hands: seq<HandFrame>) returns (p: HandPair)
    requires |hands| >= 2
    ensures p == SelectHands(hands)
  {
    var left: Option<Landmarks> := None;
    var right: Option<Landmarks> := None;
    var i := 0;
    while i < |hands|
      invariant 0 <= i <= |hands|
      invariant left == LastLabelled(hands[..i], Left)
      invariant right == LastLabelled(hands[..i], Right)
    {
      LastLabelledStep(hands, i, Left);
      LastLabelledStep(hands, i, Right);
      if hands[i].handedness == Left {
        left := Some(hands[i].landmarks);
      }
      if hands[i].handedness == Right {
        right := Some(hands[i].landmarks);
      }
      i := i + 1;
    }
    assert hands[..i] == hands;
    if left.None? || right.None? {
      p := HandPair(hands[0].landmarks, hands[1].landmarks);
    } else {
      p := HandPair(left.value, right.value);
    }
  }

  // ----- the lock state machine ---------------------------------------------

  /** `is_active`, `activation_start_time`, `deactivation_start_time`,
      `unlock_phase` and `phase1_expire_time`; a start time of 0 means "not
      started", as in the source. */
  datatype ActState = ActState(isActive: bool, activationStart: real, deactivationStart: real,
                               unlockPhase: int, phase1Expire: real)

  const InitialAct := ActState(false, 0.0, 0.0, 0, 0.0)

  /** The status line returned with the progress. */
  datatype StatusMsg = Blank | PinchRing | CrossHands(seconds: int) | Opening | EyeOpened
                     | HoldToStop | Deactivated

  function MsgText(m: StatusMsg): string {
    match m
    case Blank => ""
    case PinchRing => "PINCH RING"
    case CrossHands(n) => "CROSS HANDS (" + IntString(n) + "s)"
    case Opening => "OPENING..."
    case EyeOpened => "EYE OPENED"
    case HoldToStop => "HOLD TO STOP"
    case Deactivated => "DEACTIVATED"
  }

  datatype ActOut = ActOut(state: ActState, progress: real, msg: StatusMsg, events: seq<Event>)

  /** The left wrist lies more than the margin to the right of the right one. */
  predicate Crossed(p: HandPair) {
    p.left[0].x > p.right[0].x + CrossMargin
  }

  predicate Sealing(p: HandPair) {
    RingPinch(p.left) || RingPinch(p.right)
  }

  /** The unlock path, taken while the engine is locked. */
  function UnlockStep(s: ActState, p: HandPair, now: real): ActOut {
    var sealing := Sealing(p);
    var expire := if sealing then now + Phase1Window else s.phase1Expire;
    var tick := if sealing && s.unlockPhase == 0 then [PlayCalibrationTick] else [];
    if now < expire then
      if Crossed(p) then
        var start := if s.activationStart == 0.0 then now else s.activationStart;
        var elapsed := now - start;
        if elapsed >= ActivationDuration then
          ActOut(ActState(true, 0.0, s.deactivationStart, 0, 0.0), 1.0, EyeOpened, tick + [PlayActive])
        else
          ActOut(ActState(false, start, s.deactivationStart, 2, expire),
                 Min(1.0, elapsed / ActivationDuration), Opening, tick)
      else
        ActOut(ActState(false, 0.0, s.deactivationStart, 1, expire), 0.0,
               CrossHands(Trunc(expire - now) + 1), tick)
    else
      ActOut(ActState(false, 0.0, s.deactivationStart, 0, expire), 0.0, PinchRing, tick)
  }

  /** The lock path, taken while the engine is unlocked. */
  function LockStep(s: ActState, p: HandPair, now: real): ActOut {
    if PalmOpen(p.left) && PalmOpen(p.right) then
      var start := if s.deactivationStart == 0.0 then now else s.deactivationStart;
      var elapsed := now - start;
      if elapsed >= ActivationDuration then
        ActOut(s.(isActive := false, deactivationStart := 0.0), 1.0, Deactivated, [PlayDeactive])
      else
        ActOut(s.(deactivationStart := start), Min(1.0, elapsed / ActivationDuration), HoldToStop, [])
    else
      ActOut(s.(deactivationStart := 0.0), 0.0, Blank, [])
  }

  /** `update_system_state(hands_data)` at time `now`. */
  function ActStep(s: ActState, hands: seq<HandFrame>, now: real): ActOut {
    if |hands| < 2 then
      ActOut(s.(activationStart := 0.0, deactivationStart := 0.0, unlockPhase := 0), 0.0, Blank, [])
    else if !s.isActive then UnlockStep(s, SelectHands(hands), now)
    else LockStep(s, SelectHands(hands), now)
  }

  // ----- one frame ----------------------------------------------------------

  /** Fewer than two hands cancel both holds and the unlock phase; the lock
      state and the window are kept. */
  lemma {:induction false} TooFewHandsResets(s: ActState, hands: seq<HandFrame>, now: real)
    requires |hands| < 2
    ensures var o := ActStep(s, hands, now);
            o.state.isActive == s.isActive && o.state.phase1Expire == s.phase1Expire
            && o.state.activationStart == 0.0 && o.state.deactivationStart == 0.0
            && o.state.unlockPhase == 0 && o.progress == 0.0 && o.msg == Blank && o.events == []
  {
  }

  /** Unlocking happens exactly when the window is open, the hands are
      crossed and they were already crossed at least 1.5 s earlier: never on
      the first crossed frame. It is announced by the activation sound. */
  lemma {:induction false} UnlockIff(s: ActState, hands: seq<HandFrame>, now: real)
    requires |hands| >= 2 && !s.isActive
    ensures var p := SelectHands(hands);
            var o := ActStep(s, hands, now);
            var expire := if Sealing(p) then now + Phase1Window else s.phase1Expire;
            (o.state.isActive <==>
              now < expire && Crossed(p) && s.activationStart != 0.0
              && now - s.activationStart >= ActivationDuration)
            && (o.state.isActive <==> PlayActive in o.events)
            && (o.state.isActive ==> o.state.activationStart == 0.0 && o.state.unlockPhase == 0
                                     && o.state.phase1Expire == 0.0 && o.msg == EyeOpened)
  {
  }

  /** A ring pinch (re)opens the 3-second window, with a tick only when the
      unlock sequence had not started. */
  lemma {:induction false} SealingOpensWindow(s: ActState, hands: seq<HandFrame>, now: real)
    requires |hands| >= 2 && !s.isActive && Sealing(SelectHands(hands))
    ensures var o := ActStep(s, hands, now);
            (o.state.isActive || o.state.phase1Expire == now + Phase1Window)
            && o.msg != PinchRing
            && (PlayCalibrationTick in o.events <==> s.unlockPhase == 0)
  {
  }

  /** Uncrossing inside the window restarts the hold and shows the whole
      seconds left (at least 1). */
  lemma {:induction false} UncrossingRestartsHold(s: ActState, hands: seq<HandFrame>, now: real)
    requires |hands| >= 2 && !s.isActive
    requires var p := SelectHands(hands);
             !Crossed(p) && now < (if Sealing(p) then now + Phase1Window else s.phase1Expire)
    ensures var o := ActStep(s, hands, now);
            !o.state.isActive && o.state.activationStart == 0.0 && o.state.unlockPhase == 1
            && o.msg.CrossHands? && o.msg.seconds >= 1 && o.progress == 0.0
  {
  }

  /** Without a ring pinch, once the window has expired the engine asks for
      the pinch again and forgets any hold. */
  lemma {:induction false} WindowExpiry(s: ActState, hands: seq<HandFrame>, now: real)
    requires |hands| >= 2 && !s.isActive
    requires !Sealing(SelectHands(hands)) && now >= s.phase1Expire
    ensures var o := ActStep(s, hands, now);
            o.state == s.(activationStart := 0.0, unlockPhase := 0) && o.msg == PinchRing
            && o.progress == 0.0 && o.events == []
  {
  }

  /** Locking happens exactly when both palms are open and were already open
      at least 1.5 s earlier; any other frame cancels the hold. */
  lemma {:induction false} LockIff(s: ActState, hands: seq<HandFrame>, now: real)
    requires |hands| >= 2 && s.isActive
    ensures var p := SelectHands(hands);
            var o := ActStep(s, hands, now);
            (!o.state.isActive <==>
              PalmOpen(p.left) && PalmOpen(p.right) && s.deactivationStart != 0.0
              && now - s.deactivationStart >= ActivationDuration)
            && (!o.state.isActive <==> o.events == [PlayDeactive])
            && (!(PalmOpen(p.left) && PalmOpen(p.right)) ==> o.state.deactivationStart == 0.0)
            && o.state.activationStart == s.activationStart
            && o.state.unlockPhase == s.unlockPhase && o.state.phase1Expire == s.phase1Expire
  {
  }

  /** The progress reported is a fraction in [0, 1] as long as no hold
      started in the future. */
  lemma {:induction false} ProgressInUnitInterval(s: ActState, hands: seq<HandFrame>, now: real)
    requires ActStartsBy(s, now)
    ensures 0.0 <= ActStep(s, hands, now).progress <= 1.0
  {
    if |hands| >= 2 {
      var p := SelectHands(hands);
      if !s.isActive {
        var expire := if Sealing(p) then now + Phase1Window else s.phase1Expire;
        if now < expire && Crossed(p) {
          var start := if s.activationStart == 0.0 then now else s.activationStart;
          assert (now - start) / ActivationDuration >= 0.0;
        }
      } else if PalmOpen(p.left) && PalmOpen(p.right) {
        var start := if s.deactivationStart == 0.0 then now else s.deactivationStart;
        assert (now - start) / ActivationDuration >= 0.0;
      }
    }
  }

  // ----- over time ----------------------------------------------------------

  /** One camera frame: the hands seen and the clock. */
  datatype Frame = Frame(hands: seq<HandFrame>, now: real)

  function RunAct(s: ActState, fs: seq<Frame>): ActState
    decreases |fs|
  {
    if fs == [] then s
    else ActStep(RunAct(s, fs[..|fs| - 1]), fs[|fs| - 1].hands, fs[|fs| - 1].now).state
  }

  /** The clock as `time.time()` gives it: positive, and never running
      backwards from one frame to the next. */
  predicate ForwardClock(fs: seq<Frame>) {
    && (forall i :: 0 <= i < |fs| ==> fs[i].now > 0.0)
    && (forall i :: 0 < i < |fs| ==> fs[i - 1].now <= fs[i].now)
  }

  /** Neither hold of the lock started after time `t`; a start of 0 ("not
      started") counts as before any positive time. */
  predicate ActStartsBy(s: ActState, t: real) {
    s.activationStart <= t && s.deactivationStart <= t
  }

  /** A frame at a non-negative time `now` only starts holds at `now`. */
  lemma {:induction false} ActStepStartsBy(s: ActState, hands: seq<HandFrame>, now: real)
    requires ActStartsBy(s, now) && 0.0 <= now
    ensures ActStartsBy(ActStep(s, hands, now).state, now)
  {
  }

  /** After every prefix of a trace with a forward clock, no lock hold
      started after the next frame's time. */
  lemma {:induction false} RunActStartsBy(s0: ActState, fs: seq<Frame>, f: Frame)
    requires s0.activationStart == 0.0 && s0.deactivationStart == 0.0
    requires ForwardClock(fs + [f])
    ensures ActStartsBy(RunAct(s0, fs), f.now)
    decreases |fs|
  {
    var gs := fs + [f];
    assert gs[|fs|] == f;
    if fs != [] {
      var n := |fs| - 1;
      var prefix := fs[..n];
      assert prefix + [fs[n]] == fs[..n + 1];
      assert forall i :: 0 <= i <= n ==> (prefix + [fs[n]])[i] == gs[i];
      RunActStartsBy(s0, prefix, fs[n]);
      assert gs[n] == fs[n];
      ActStepStartsBy(RunAct(s0, prefix), fs[n].hands, fs[n].now);
      assert fs[..n] == prefix;
    }
  }

  /** On every frame of a trace with a forward clock, the progress reported
      is a fraction in [0, 1]. */
  lemma {:induction false} TraceProgressInUnitInterval(s0: ActState, fs: seq<Frame>, f: Frame)
    requires s0.activationStart == 0.0 && s0.deactivationStart == 0.0
    requires ForwardClock(fs + [f])
    ensures 0.0 <= ActStep(RunAct(s0, fs), f.hands, f.now).progress <= 1.0
  {
    RunActStartsBy(s0, fs, f);
    ProgressInUnitInterval(RunAct(s0, fs), f.hands, f.now);
  }

  /** A frame in which two hands are seen crossed. */
  predicate CrossedFrame(f: Frame) {
    |f.hands| >= 2 && Crossed(SelectHands(f.hands))
  }

  /** A running activation hold started at a frame from which on the hands
      were crossed in every frame; and an unlocked engine has no hold. */
  ghost predicate HoldInvariant(s: ActState, fs: seq<Frame>) {
    s.activationStart != 0.0 ==>
      !s.isActive
      && exists j :: 0 <= j < |fs| && fs[j].now == s.activationStart
                     && forall m :: j <= m < |fs| ==> CrossedFrame(fs[m])
  }

  /** One frame preserves the hold invariant. */
  lemma {:induction false} HoldInvariantStep(s: ActState, fs: seq<Frame>, f: Frame)
    requires HoldInvariant(s, fs) && f.now > 0.0
    ensures HoldInvariant(ActStep(s, f.hands, f.now).state, fs + [f])
  {
    var t := ActStep(s, f.hands, f.now).state;
    var gs := fs + [f];
    if t.activationStart != 0.0 {
      assert |f.hands| >= 2 && !s.isActive;
      assert CrossedFrame(f);
      if s.activationStart == 0.0 {
        assert gs[|fs|].now == t.activationStart;
        assert forall m :: |fs| <= m < |gs| ==> CrossedFrame(gs[m]);
      } else {
        var j :| 0 <= j < |fs| && fs[j].now == s.activationStart
                 && forall m :: j <= m < |fs| ==> CrossedFrame(fs[m]);
        assert gs[j].now == t.activationStart;
        assert forall m :: j <= m < |gs| ==> CrossedFrame(gs[m]);
      }
    }
  }

  lemma {:induction false} HoldInvariantHolds(s0: ActState, fs: seq<Frame>)
    requires s0.activationStart == 0.0
    requires forall i :: 0 <= i < |fs| ==> fs[i].now > 0.0
    ensures HoldInvariant(RunAct(s0, fs), fs)
    decreases |fs|
  {
    if fs != [] {
      var n := |fs| - 1;
      var prefix := fs[..n];
      assert forall i :: 0 <= i < n ==> prefix[i] == fs[i];
      HoldInvariantHolds(s0, prefix);
      assert prefix + [fs[n]] == fs;
      HoldInvariantStep(RunAct(s0, prefix), prefix, fs[n]);
    }
  }

  /** The frame that unlocks shows two crossed hands held since a start time
      at least 1.5 s earlier. */
  lemma {:induction false} UnlockingFrame(s: ActState, f: Frame)
    requires !s.isActive && ActStep(s, f.hands, f.now).state.isActive
    ensures CrossedFrame(f) && s.activationStart != 0.0
    ensures f.now - s.activationStart >= ActivationDuration
  {
    assert |f.hands| >= 2;
    UnlockIff(s, f.hands, f.now);
  }

  /** Whenever the engine unlocks at frame `f` after the frames `fs`, the
      hands have been seen crossed in every frame of a stretch of at least
      1.5 seconds ending at `f`. */
  lemma {:induction false} UnlockNeedsHeldCross(s0: ActState, fs: seq<Frame>, f: Frame)
    requires s0.activationStart == 0.0
    requires forall i :: 0 <= i < |fs| ==> fs[i].now > 0.0
    requires !RunAct(s0, fs).isActive && ActStep(RunAct(s0, fs), f.hands, f.now).state.isActive
    ensures CrossedFrame(f)
    ensures exists j :: 0 <= j < |fs|
              && f.now - fs[j].now >= ActivationDuration
              && forall m :: j <= m < |fs| ==> CrossedFrame(fs[m])
  {
    var s := RunAct(s0, fs);
    UnlockingFrame(s, f);
    HoldInvariantHolds(s0, fs);
  }

  /** A frame in which two hands are seen with both palms open. */
  predicate OpenFrame(f: Frame) {
    |f.hands| >= 2 && PalmOpen(SelectHands(f.hands).left) && PalmOpen(SelectHands(f.hands).right)
  }

  /** A locked engine has no lock hold; a running lock hold started at a
      frame from which on both palms were open in every frame. */
  ghost predicate DeactInvariant(s: ActState, fs: seq<Frame>) {
    && (!s.isActive ==> s.deactivationStart == 0.0)
    && (s.deactivationStart != 0.0 ==>
          exists j :: 0 <= j < |fs| && fs[j].now == s.deactivationStart
                      && forall m :: j <= m < |fs| ==> OpenFrame(fs[m]))
  }

  /** What one frame does to the lock hold: a locked engine ends without
      one, and a hold that runs after the frame was started by it or kept
      from before, in an unlocked frame with both palms open. */
  lemma {:induction false} DeactStep(s: ActState, hands: seq<HandFrame>, now: real)
    requires !s.isActive ==> s.deactivationStart == 0.0
    ensures var t := ActStep(s, hands, now).state;
            && (!t.isActive ==> t.deactivationStart == 0.0)
            && (t.deactivationStart != 0.0 ==>
                  && |hands| >= 2 && s.isActive
                  && PalmOpen(SelectHands(hands).left) && PalmOpen(SelectHands(hands).right)
                  && t.deactivationStart == (if s.deactivationStart == 0.0 then now else s.deactivationStart))
  {
  }

  /** Extending the frames by `f` keeps the lock-hold invariant for any
      state `t` that a frame could leave after `s`. */
  lemma {:induction false} DeactInvariantExtend(s: ActState, t: ActState, fs: seq<Frame>, f: Frame)
    requires DeactInvariant(s, fs)
    requires !t.isActive ==> t.deactivationStart == 0.0
    requires t.deactivationStart != 0.0 ==>
               OpenFrame(f) && t.deactivationStart == (if s.deactivationStart == 0.0 then f.now else s.deactivationStart)
    ensures DeactInvariant(t, fs + [f])
  {
    var gs := fs + [f];
    if t.deactivationStart != 0.0 {
      if s.deactivationStart == 0.0 {
        assert gs[|fs|].now == t.deactivationStart;
        assert forall m :: |fs| <= m < |gs| ==> OpenFrame(gs[m]);
      } else {
        var j :| 0 <= j < |fs| && fs[j].now == s.deactivationStart
                 && forall m :: j <= m < |fs| ==> OpenFrame(fs[m]);
        assert gs[j].now == t.deactivationStart;
        assert forall m :: j <= m < |gs| ==> OpenFrame(gs[m]);
      }
    }
  }

  /** One frame preserves the lock-hold invariant. */
  lemma {:induction false} DeactInvariantStep(s: ActState, fs: seq<Frame>, f: Frame)
    requires DeactInvariant(s, fs)
    ensures DeactInvariant(ActStep(s, f.hands, f.now).state, fs + [f])
  {
    DeactStep(s, f.hands, f.now);
    DeactInvariantExtend(s, ActStep(s, f.hands, f.now).state, fs, f);
  }

  lemma {:induction false} DeactInvariantHolds(s0: ActState, fs: seq<Frame>)
    requires !s0.isActive && s0.deactivationStart == 0.0
    ensures DeactInvariant(RunAct(s0, fs), fs)
    decreases |fs|
  {
    if fs != [] {
      var n := |fs| - 1;
      var prefix := fs[..n];
      assert forall i :: 0 <= i < n ==> prefix[i] == fs[i];
      DeactInvariantHolds(s0, prefix);
      assert prefix + [fs[n]] == fs;
      DeactInvariantStep(RunAct(s0, prefix), prefix, fs[n]);
    }
  }

  /** Whenever the engine locks at frame `f` after the frames `fs`, both
      palms have been seen open in `f` and in every frame of a stretch of at
      least 1.5 seconds before it. */
  lemma {:induction false} LockNeedsHeldOpenPalms(s0: ActState, fs: seq<Frame>, f: Frame)
    requires !s0.isActive && s0.deactivationStart == 0.0
    requires RunAct(s0, fs).isActive && !ActStep(RunAct(s0, fs), f.hands, f.now).state.isActive
    ensures OpenFrame(f)
    ensures exists j :: 0 <= j < |fs|
              && f.now - fs[j].now >= ActivationDuration
              && forall m :: j <= m < |fs| ==> OpenFrame(fs[m])
  {
    var s := RunAct(s0, fs);
    assert |f.hands| >= 2;
    LockIff(s, f.hands, f.now);
    DeactInvariantHolds(s0, fs);
  }
}
