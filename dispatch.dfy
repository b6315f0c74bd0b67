/** What the running engine does with a confirmed gesture
    (`MouseController.process_running` and `move_cursor`): actions on the
    frame where the gesture changes (edge actions), actions on every frame of
    the gesture in force (level actions), and the cursor update. */
module Dispatch {
  import opened Common
  import opened Geometry
  import opened Events
  import opened Gestures

  const DeadzoneRadius: real := 30.0
  const StaticMovementDeadzone: int := 4
  const TapMaxDuration: real := 0.6
  const LeftClickMinInterval: real := 0.03
  const RightClickMinInterval: real := 0.25
  const FistClickMinInterval: real := 1.0
  const MiddleClickMinInterval: real := 1.0
  const ScrollThreshold: real := 25.0
  const ScrollSpeedFactor: real := 0.5

  /** A cursor position in whole pixels. */
  datatype Pixel = Pixel(x: int, y: int)

  /** The running-mode fields of the controller. Times of 0 mean "never". */
  datatype RunState = RunState(
    currentGesture: Gesture,
    gestureLockPos: Option<Point>,
    leftPinchStartTime: real,
    lastLeftClickTime: real,
    lastRightClickTime: real,
    isDragging: bool,
    lastCursorPos: Option<Pixel>,
    lastFistClickTime: real,
    isFourFingersActive: bool,
    lastMiddleClickTime: real,
    isMiddleClickActive: bool,
    scrollAnchorY: Option<real>)

  const InitialRun := RunState(Move, None, 0.0, 0.0, 0.0, false, None, 0.0, false, 0.0, false, None)

  datatype CursorOut = CursorOut(last: Option<Pixel>, events: seq<Event>)

  /** `move_cursor(x, y)`: truncate to pixels; stay put when within 4 pixels
      of the last position on both axes. */
  function MoveCursor(last: Option<Pixel>, x: real, y: real): (c: CursorOut)
    ensures c.events == [] || c.events == [MoveTo(Trunc(x), Trunc(y))]
  {
    var xi, yi := Trunc(x), Trunc(y);
    if last.Some? && AbsInt(xi - last.value.x) <= StaticMovementDeadzone
                  && AbsInt(yi - last.value.y) <= StaticMovementDeadzone then
      CursorOut(last, [])
    else
      CursorOut(Some(Pixel(xi, yi)), [MoveTo(xi, yi)])
  }

  datatype EdgeOut = EdgeOut(state: RunState, events: seq<Event>)

  /** The edge actions of `process_running`, taken when the confirmed gesture
      `g` differs from the one in force; afterwards `g` is in force. */
  function Edge(s: RunState, g: Gesture, target: Point, now: real): (o: EdgeOut)
    ensures o.state.currentGesture == g
    ensures |o.events| <= 1
    ensures forall i :: 0 <= i < |o.events| ==>
              o.events[i].ClickAt? || o.events[i].RightClickAt? || o.events[i] == MouseUpAction
  {
    if g == s.currentGesture then EdgeOut(s, [])
    else
      var r :=
        match g
        case LeftPinch => EdgeOut(s.(gestureLockPos := Some(target), leftPinchStartTime := now), [])
        case RightPinch =>
          if now - s.lastRightClickTime > RightClickMinInterval then
            EdgeOut(s.(lastRightClickTime := now), [RightClickAt(Trunc(target.x), Trunc(target.y))])
          else EdgeOut(s, [])
        case Move =>
          if s.isDragging then EdgeOut(s.(isDragging := false, gestureLockPos := None), [MouseUpAction])
          else if IsTap(s, now) then
            var lock := s.gestureLockPos.value;
            EdgeOut(s.(lastLeftClickTime := now, gestureLockPos := None), [ClickAt(Trunc(lock.x), Trunc(lock.y))])
          else EdgeOut(s.(gestureLockPos := None), [])
        case Scroll => EdgeOut(s.(scrollAnchorY := Some(target.y), gestureLockPos := Some(target)), [])
        case _ => EdgeOut(s, []);
      EdgeOut(r.state.(currentGesture := g), r.events)
  }

  /** A left pinch released soon enough, and not too soon after the previous
      click, is a tap. */
  predicate IsTap(s: RunState, now: real) {
    && s.currentGesture == LeftPinch && s.gestureLockPos.Some?
    && now - s.leftPinchStartTime <= TapMaxDuration
    && now - s.lastLeftClickTime > LeftClickMinInterval
  }

  /** The hand moves back towards the scroll anchor: the offset `dy` and
      the movement since the last cursor row have clearly opposite signs. */
  predicate Returning(dy: real, moveDeltaY: real) {
    dy * moveDeltaY < -0.1
  }

  /** The scroll amount for a vertical offset `dy` from the anchor, given the
      last cursor row: nothing within the threshold or while the hand moves
      back towards the anchor. */
  function ScrollEvents(anchor: Option<real>, targetY: real, lastCursor: Option<Pixel>): (evs: seq<Event>)
    ensures evs == [] || (|evs| == 1 && evs[0].ScrollBy?)
  {
    if anchor.None? then []
    else
      var dy := targetY - anchor.value;
      if Abs(dy) > ScrollThreshold then
        var moveDeltaY := targetY - (if lastCursor.Some? then lastCursor.value.y as real else targetY);
        var isReturning := Returning(dy, moveDeltaY);
        if !isReturning then
          var clicks := Trunc(dy * ScrollSpeedFactor / 10.0);
          if clicks != 0 then [ScrollBy(clicks * 20)] else []
        else []
      else []
  }

  datatype RunOut = RunOut(state: RunState, final: Point, events: seq<Event>)

  /** The level actions for the gesture in force, before the cursor moves:
      the new state, where the cursor should go, and at most one action. */
  function LevelAction(s: RunState, target: Point, now: real): (a: RunOut)
    ensures |a.events| <= 1
    ensures forall i :: 0 <= i < |a.events| ==>
              a.events[i].MouseDownAt? || a.events[i] == DoubleClickAction
              || a.events[i] == MiddleClickAction || a.events[i].ScrollBy?
  {
    match s.currentGesture
    case LeftPinch =>
      if s.gestureLockPos.Some? then
        var lock := s.gestureLockPos.value;
        if DistSq(target, lock) < Sq(DeadzoneRadius) then RunOut(s, lock, [])
        else if !s.isDragging then
          RunOut(s.(isDragging := true), target, [MouseDownAt(Trunc(lock.x), Trunc(lock.y))])
        else RunOut(s, target, [])
      else RunOut(s, target, [])
    case RightPinch => RunOut(s, target, [])
    case Fist =>
      if !s.isFourFingersActive && now - s.lastFistClickTime > FistClickMinInterval then
        RunOut(s.(lastFistClickTime := now, isFourFingersActive := true), target, [DoubleClickAction])
      else RunOut(s, target, [])
    case MiddleClick =>
      if !s.isMiddleClickActive && now - s.lastMiddleClickTime > MiddleClickMinInterval then
        RunOut(s.(lastMiddleClickTime := now, isMiddleClickActive := true), target, [MiddleClickAction])
      else RunOut(s, target, [])
    case Scroll =>
      var final := if s.gestureLockPos.Some? then s.gestureLockPos.value else target;
      RunOut(s, final, ScrollEvents(s.scrollAnchorY, target.y, s.lastCursorPos))
    case Move =>
      RunOut(s.(isFourFingersActive := false, isMiddleClickActive := false), target, [])
  }

  /** The level actions followed by `move_cursor` to where the cursor should
      go. */
  function Level(s: RunState, target: Point, now: real): RunOut {
    var a := LevelAction(s, target, now);
    var c := MoveCursor(a.state.lastCursorPos, a.final.x, a.final.y);
    RunOut(a.state.(lastCursorPos := c.last), a.final, a.events + c.events)
  }

  /** `process_running` after the target has been computed. */
  function RunStep(s: RunState, g: Gesture, target: Point, now: real): RunOut {
    var e := Edge(s, g, target, now);
    var l := Level(e.state, target, now);
    RunOut(l.state, l.final, e.events + l.events)
  }

  // ----- the cursor ---------------------------------------------------------

  /** The cursor moves exactly when there is no previous position or the new
      pixel is more than 4 pixels away on some axis; the remembered position is
      always the last one the cursor was moved to. */
  lemma {:induction false} CursorDeadzone(last: Option<Pixel>, x: real, y: real)
    ensures var c := MoveCursor(last, x, y);
            (c.events != [] <==> last.None? || AbsInt(Trunc(x) - last.value.x) > 4
                                  || AbsInt(Trunc(y) - last.value.y) > 4)
            && (c.events != [] ==> c.events == [MoveTo(Trunc(x), Trunc(y))] && c.last == Some(Pixel(Trunc(x), Trunc(y))))
            && (c.events == [] ==> c.last == last)
  {
  }

  // ----- counting the events of a frame ------------------------------------

  lemma {:induction false} CountAtMostOne(evs: seq<Event>, p: Event -> bool)
    requires |evs| <= 1
    ensures Count(evs, p) == if |evs| == 1 && p(evs[0]) then 1 else 0
  {
    if |evs| == 1 {
      assert evs[..0] == [];
    }
  }

  /** The events of a frame are the edge action, the level action and the
      cursor move, in that order; counts add up over the three. */
  lemma {:induction false} CountOfStep(s: RunState, g: Gesture, target: Point, now: real, p: Event -> bool)
    ensures var e := Edge(s, g, target, now);
            var a := LevelAction(e.state, target, now);
            var c := MoveCursor(a.state.lastCursorPos, a.final.x, a.final.y);
            RunStep(s, g, target, now).events == e.events + a.events + c.events
            && Count(RunStep(s, g, target, now).events, p) == Count(e.events, p) + Count(a.events, p) + Count(c.events, p)
  {
    var e := Edge(s, g, target, now);
    var a := LevelAction(e.state, target, now);
    var c := MoveCursor(a.state.lastCursorPos, a.final.x, a.final.y);
    AppendTwice(e.events, a.events, c.events);
    CountAppend(e.events + a.events, c.events, p);
    CountAppend(e.events, a.events, p);
  }

  /** The actions taken on the frame where the gesture changes, per kind. */
  lemma {:induction false} EdgeCounts(s: RunState, g: Gesture, target: Point, now: real)
    ensures var e := Edge(s, g, target, now);
            && Count(e.events, IsClick) == (if g == Move && !s.isDragging && IsTap(s, now) then 1 else 0)
            && Count(e.events, IsRightClick)
               == (if g == RightPinch && s.currentGesture != RightPinch
                      && now - s.lastRightClickTime > RightClickMinInterval then 1 else 0)
            && Count(e.events, IsMouseUp) == (if g == Move && s.currentGesture != Move && s.isDragging then 1 else 0)
            && Count(e.events, IsMouseDown) == 0
            && Count(e.events, IsDoubleClick) == 0
            && Count(e.events, IsMiddleClick) == 0
            && (Count(e.events, IsClick) == 1 ==> e.events == [ClickAt(Trunc(s.gestureLockPos.value.x), Trunc(s.gestureLockPos.value.y))])
            && (Count(e.events, IsRightClick) == 1 ==> e.events == [RightClickAt(Trunc(target.x), Trunc(target.y))])
  {
    var e := Edge(s, g, target, now);
    CountAtMostOne(e.events, IsClick);
    CountAtMostOne(e.events, IsRightClick);
    CountAtMostOne(e.events, IsMouseUp);
    CountAtMostOne(e.events, IsMouseDown);
    CountAtMostOne(e.events, IsDoubleClick);
    CountAtMostOne(e.events, IsMiddleClick);
  }

  /** The actions taken for the gesture in force, per kind. */
  lemma {:induction false} LevelCounts(s: RunState, target: Point, now: real)
    ensures var a := LevelAction(s, target, now);
            && Count(a.events, IsClick) == 0
            && Count(a.events, IsRightClick) == 0
            && Count(a.events, IsMouseUp) == 0
            && Count(a.events, IsMouseDown)
               == (if s.currentGesture == LeftPinch && s.gestureLockPos.Some? && !s.isDragging
                      && DistSq(target, s.gestureLockPos.value) >= Sq(DeadzoneRadius) then 1 else 0)
            && Count(a.events, IsDoubleClick)
               == (if s.currentGesture == Fist && !s.isFourFingersActive
                      && now - s.lastFistClickTime > FistClickMinInterval then 1 else 0)
            && Count(a.events, IsMiddleClick)
               == (if s.currentGesture == MiddleClick && !s.isMiddleClickActive
                      && now - s.lastMiddleClickTime > MiddleClickMinInterval then 1 else 0)
  {
    var a := LevelAction(s, target, now);
    CountAtMostOne(a.events, IsClick);
    CountAtMostOne(a.events, IsRightClick);
    CountAtMostOne(a.events, IsMouseUp);
    CountAtMostOne(a.events, IsMouseDown);
    CountAtMostOne(a.events, IsDoubleClick);
    CountAtMostOne(a.events, IsMiddleClick);
  }

  /** Moving the cursor is the only thing `move_cursor` does. */
  lemma {:induction false} CursorCounts(last: Option<Pixel>, x: real, y: real)
    ensures var c := MoveCursor(last, x, y);
            && Count(c.events, IsClick) == 0 && Count(c.events, IsRightClick) == 0
            && Count(c.events, IsMouseUp) == 0 && Count(c.events, IsMouseDown) == 0
            && Count(c.events, IsDoubleClick) == 0 && Count(c.events, IsMiddleClick) == 0
  {
    var c := MoveCursor(last, x, y);
    CountAtMostOne(c.events, IsClick);
    CountAtMostOne(c.events, IsRightClick);
    CountAtMostOne(c.events, IsMouseUp);
    CountAtMostOne(c.events, IsMouseDown);
    CountAtMostOne(c.events, IsDoubleClick);
    CountAtMostOne(c.events, IsMiddleClick);
  }

  /** Edge, level and cursor counts of one frame, all at once. */
  lemma {:induction false} StepCounts(s: RunState, g: Gesture, target: Point, now: real)
    ensures var e := Edge(s, g, target, now);
            var a := LevelAction(e.state, target, now);
            var c := MoveCursor(a.state.lastCursorPos, a.final.x, a.final.y);
            var evs := RunStep(s, g, target, now).events;
            && evs == e.events + a.events + c.events
            && Count(evs, IsClick) == Count(e.events, IsClick)
            && Count(evs, IsRightClick) == Count(e.events, IsRightClick)
            && Count(evs, IsMouseUp) == Count(e.events, IsMouseUp)
            && Count(evs, IsMouseDown) == Count(a.events, IsMouseDown)
            && Count(evs, IsDoubleClick) == Count(a.events, IsDoubleClick)
            && Count(evs, IsMiddleClick) == Count(a.events, IsMiddleClick)
  {
    var e := Edge(s, g, target, now);
    var a := LevelAction(e.state, target, now);
    var c := MoveCursor(a.state.lastCursorPos, a.final.x, a.final.y);
    EdgeCounts(s, g, target, now);
    LevelCounts(e.state, target, now);
    CursorCounts(a.state.lastCursorPos, a.final.x, a.final.y);
    CountOfStep(s, g, target, now, IsClick);
    CountOfStep(s, g, target, now, IsRightClick);
    CountOfStep(s, g, target, now, IsMouseUp);
    CountOfStep(s, g, target, now, IsMouseDown);
    CountOfStep(s, g, target, now, IsDoubleClick);
    CountOfStep(s, g, target, now, IsMiddleClick);
  }

  // ----- clicks -------------------------------------------------------------

  /** Releasing a left pinch without having dragged clicks once, at the
      locked position, exactly when it is a tap; nothing else clicks. */
  lemma {:induction false} TapClicksOnce(s: RunState, g: Gesture, target: Point, now: real)
    ensures var o := RunStep(s, g, target, now);
            var clicks := Count(o.events, IsClick);
            (clicks == 1 <==> g == Move && !s.isDragging && IsTap(s, now))
            && clicks <= 1
            && (clicks == 1 ==> ClickAt(Trunc(s.gestureLockPos.value.x), Trunc(s.gestureLockPos.value.y)) in o.events)
  {
    StepCounts(s, g, target, now);
    EdgeCounts(s, g, target, now);
  }

  /** A right click is issued exactly on the frame the right pinch is
      confirmed, and only 0.25 s after the previous one, at the target. */
  lemma {:induction false} RightClickIff(s: RunState, g: Gesture, target: Point, now: real)
    ensures var o := RunStep(s, g, target, now);
            var rc := Count(o.events, IsRightClick);
            (rc == 1 <==> g == RightPinch && s.currentGesture != RightPinch
                          && now - s.lastRightClickTime > RightClickMinInterval)
            && rc <= 1
            && (rc == 1 ==> RightClickAt(Trunc(target.x), Trunc(target.y)) in o.events)
  {
    StepCounts(s, g, target, now);
    EdgeCounts(s, g, target, now);
  }

  // ----- dragging -----------------------------------------------------------

  /** Dragging happens only under a gesture other than Move with a lock
      position. */
  predicate DragInvariant(s: RunState) {
    s.isDragging ==> s.currentGesture != Move && s.gestureLockPos.Some?
  }

  lemma {:induction false} RunStepPreservesDrag(s: RunState, g: Gesture, target: Point, now: real)
    requires DragInvariant(s)
    ensures DragInvariant(RunStep(s, g, target, now).state)
  {
    var e := Edge(s, g, target, now);
    var a := LevelAction(e.state, target, now);
    assert DragInvariant(e.state);
    assert DragInvariant(a.state);
  }

  /** How one frame changes the fields the drag, fist and middle-click
      logic depend on. */
  lemma {:induction false} StepState(s: RunState, g: Gesture, target: Point, now: real)
    ensures var e := Edge(s, g, target, now);
            var a := LevelAction(e.state, target, now);
            var o := RunStep(s, g, target, now);
            && e.state.currentGesture == g
            && e.state.isDragging == (s.isDragging && !(g == Move && s.currentGesture != Move))
            && e.state.isFourFingersActive == s.isFourFingersActive
            && e.state.isMiddleClickActive == s.isMiddleClickActive
            && e.state.lastFistClickTime == s.lastFistClickTime
            && e.state.lastMiddleClickTime == s.lastMiddleClickTime
            && (g == s.currentGesture ==> e.state.gestureLockPos == s.gestureLockPos)
            && (g == LeftPinch && s.currentGesture != LeftPinch ==> e.state.gestureLockPos == Some(target))
            && (g == Move && s.currentGesture != Move ==> e.state.gestureLockPos.None?)
            && (g == Scroll && s.currentGesture != Scroll ==> e.state.gestureLockPos == Some(target))
            && (g != LeftPinch && g != Move && g != Scroll ==> e.state.gestureLockPos == s.gestureLockPos)
            && o.state.gestureLockPos == e.state.gestureLockPos
            && o.state.isDragging == (e.state.isDragging || Count(a.events, IsMouseDown) == 1)
            && o.state.isFourFingersActive
               == (g != Move && (s.isFourFingersActive || Count(a.events, IsDoubleClick) == 1))
            && o.state.isMiddleClickActive
               == (g != Move && (s.isMiddleClickActive || Count(a.events, IsMiddleClick) == 1))
  {
    var e := Edge(s, g, target, now);
    EdgeState(s, g, target, now);
    LevelState(e.state, target, now);
  }

  /** What the transition part changes: the gesture in force, the drag flag
      (cleared on a change to `move`) and, on a change to a left pinch, the
      lock position; the click latches and their times are left alone. */
  lemma {:induction false} EdgeState(s: RunState, g: Gesture, target: Point, now: real)
    ensures var e := Edge(s, g, target, now);
            && e.state.isDragging == (s.isDragging && !(g == Move && s.currentGesture != Move))
            && e.state.isFourFingersActive == s.isFourFingersActive
            && e.state.isMiddleClickActive == s.isMiddleClickActive
            && e.state.lastFistClickTime == s.lastFistClickTime
            && e.state.lastMiddleClickTime == s.lastMiddleClickTime
            && (g == s.currentGesture ==> e.state.gestureLockPos == s.gestureLockPos)
            && (g == LeftPinch && s.currentGesture != LeftPinch ==> e.state.gestureLockPos == Some(target))
            && (g == Move && s.currentGesture != Move ==> e.state.gestureLockPos.None?)
            && (g == Scroll && s.currentGesture != Scroll ==> e.state.gestureLockPos == Some(target))
            && (g != LeftPinch && g != Move && g != Scroll ==> e.state.gestureLockPos == s.gestureLockPos)
  {
  }

  /** What the level part changes: a mouse-down starts a drag, a double or
      middle click sets its latch, and `move` clears both latches. */
  lemma {:induction false} LevelState(s: RunState, target: Point, now: real)
    ensures var a := LevelAction(s, target, now);
            var l := Level(s, target, now);
            && l.state.gestureLockPos == s.gestureLockPos
            && l.state.isDragging == (s.isDragging || Count(a.events, IsMouseDown) == 1)
            && l.state.isFourFingersActive
               == (s.currentGesture != Move && (s.isFourFingersActive || Count(a.events, IsDoubleClick) == 1))
            && l.state.isMiddleClickActive
               == (s.currentGesture != Move && (s.isMiddleClickActive || Count(a.events, IsMiddleClick) == 1))
  {
    LevelCounts(s, target, now);
  }

  /** A drag starts exactly when a left pinch in force has moved 30 pixels or
      more from its lock, never on the frame the pinch is confirmed; it starts
      with one mouse-down and no mouse-up. */
  lemma {:induction false} DragStartIff(s: RunState, g: Gesture, target: Point, now: real)
    requires !s.isDragging
    ensures var o := RunStep(s, g, target, now);
            (o.state.isDragging <==>
              g == LeftPinch && s.currentGesture == LeftPinch && s.gestureLockPos.Some?
              && DistSq(target, s.gestureLockPos.value) >= Sq(DeadzoneRadius))
            && Count(o.events, IsMouseDown) == (if o.state.isDragging then 1 else 0)
            && Count(o.events, IsMouseUp) == 0
  {
    var e := Edge(s, g, target, now);
    StepState(s, g, target, now);
    StepCounts(s, g, target, now);
    EdgeCounts(s, g, target, now);
    LevelCounts(e.state, target, now);
    if g == LeftPinch && s.currentGesture != LeftPinch {
      assert DistSq(target, target) == 0.0;
    }
  }

  /** A drag ends exactly when Move is confirmed, with one mouse-up; it
      survives any other change of gesture. */
  lemma {:induction false} DragEndIff(s: RunState, g: Gesture, target: Point, now: real)
    requires s.isDragging
    ensures var o := RunStep(s, g, target, now);
            (!o.state.isDragging <==> g == Move && s.currentGesture != Move)
            && Count(o.events, IsMouseUp) == (if o.state.isDragging then 0 else 1)
            && Count(o.events, IsMouseDown) == 0
  {
    var e := Edge(s, g, target, now);
    StepState(s, g, target, now);
    StepCounts(s, g, target, now);
    EdgeCounts(s, g, target, now);
    LevelCounts(e.state, target, now);
  }

  /** One frame of the running engine. */
  datatype Step = Step(g: Gesture, target: Point, now: real)

  function RunSteps(s: RunState, steps: seq<Step>): RunOut
    decreases |steps|
  {
    if steps == [] then RunOut(s, Point(0.0, 0.0), [])
    else
      var p := RunSteps(s, steps[..|steps| - 1]);
      var st := steps[|steps| - 1];
      var o := RunStep(p.state, st.g, st.target, st.now);
      RunOut(o.state, o.final, p.events + o.events)
  }

  /** Over any run from a state without a drag, the mouse button is pressed
      and released in balance: the presses exceed the releases by one exactly
      while a drag is in progress. */
  lemma {:induction false} DragBalance(s: RunState, steps: seq<Step>)
    requires !s.isDragging
    ensures var o := RunSteps(s, steps);
            Count(o.events, IsMouseDown) == Count(o.events, IsMouseUp) + (if o.state.isDragging then 1 else 0)
    decreases |steps|
  {
    if steps != [] {
      var p := RunSteps(s, steps[..|steps| - 1]);
      DragBalance(s, steps[..|steps| - 1]);
      var st := steps[|steps| - 1];
      var o := RunStep(p.state, st.g, st.target, st.now);
      if p.state.isDragging {
        DragEndIff(p.state, st.g, st.target, st.now);
      } else {
        DragStartIff(p.state, st.g, st.target, st.now);
      }
      CountAppend(p.events, o.events, IsMouseDown);
      CountAppend(p.events, o.events, IsMouseUp);
    }
  }

  // ----- fist, middle click, scroll, deadzone -------------------------------

  /** The fist double-clicks once per fist (and at most once a second); the
      middle-click gesture likewise middle-clicks once. Only Move clears the
      flags, so switching to another gesture and back does not click again. */
  lemma {:induction false} FistClicksOnce(s: RunState, g: Gesture, target: Point, now: real)
    ensures var o := RunStep(s, g, target, now);
            (Count(o.events, IsDoubleClick) == 1 <==>
              g == Fist && !s.isFourFingersActive && now - s.lastFistClickTime > FistClickMinInterval)
            && (Count(o.events, IsMiddleClick) == 1 <==>
              g == MiddleClick && !s.isMiddleClickActive && now - s.lastMiddleClickTime > MiddleClickMinInterval)
            && Count(o.events, IsDoubleClick) <= 1 && Count(o.events, IsMiddleClick) <= 1
            && (g != Move ==> (s.isFourFingersActive ==> o.state.isFourFingersActive)
                              && (s.isMiddleClickActive ==> o.state.isMiddleClickActive))
            && (g == Move ==> !o.state.isFourFingersActive && !o.state.isMiddleClickActive)
  {
    var e := Edge(s, g, target, now);
    StepState(s, g, target, now);
    StepCounts(s, g, target, now);
    LevelCounts(e.state, target, now);
  }

  /** Where the cursor is put is the target or the lock held before the
      frame, and a lock is only ever taken from a target. */
  lemma {:induction false} LockAndFinal(s: RunState, g: Gesture, target: Point, now: real)
    ensures var o := RunStep(s, g, target, now);
            && (o.final == target || (s.gestureLockPos.Some? && o.final == s.gestureLockPos.value))
            && (o.state.gestureLockPos.Some? ==>
                  o.state.gestureLockPos == s.gestureLockPos || o.state.gestureLockPos == Some(target))
  {
  }

  /** Once scrolling begins the cursor is held at the position where it began,
      for as long as scroll stays in force. */
  lemma {:induction false} ScrollHoldsCursor(s: RunState, target: Point, now: real, later: real, t: Point)
    requires s.currentGesture != Scroll
    ensures var o := RunStep(s, Scroll, target, now);
            o.final == target && o.state.gestureLockPos == Some(target)
            && o.state.scrollAnchorY == Some(target.y)
            && RunStep(o.state, Scroll, t, later).final == target
            && RunStep(o.state, Scroll, t, later).state.gestureLockPos == Some(target)
  {
  }

  /** A scroll is issued only beyond 25 pixels from the anchor and never while
      the hand returns towards it; past the threshold the amount is always a
      non-zero multiple of 20 with the sign of the offset. */
  lemma {:induction false} ScrollAmount(anchor: real, targetY: real, lastCursor: Option<Pixel>)
    ensures var evs := ScrollEvents(Some(anchor), targetY, lastCursor);
            var dy := targetY - anchor;
            var moveDeltaY := targetY - (if lastCursor.Some? then lastCursor.value.y as real else targetY);
            (evs != [] <==> Abs(dy) > ScrollThreshold && !(dy * moveDeltaY < -0.1))
            && (evs != [] ==> evs[0].amount % 20 == 0
                              && (dy > 0.0 ==> evs[0].amount >= 20) && (dy < 0.0 ==> evs[0].amount <= -20))
  {
    var dy := targetY - anchor;
    var q := dy * ScrollSpeedFactor / 10.0;
    assert q == dy / 20.0;
    if dy > ScrollThreshold {
      assert q > 1.0;
    } else if dy < -ScrollThreshold {
      assert q < -1.0;
    }
  }

  /** Inside the 30-pixel deadzone of a left pinch the cursor stays on the
      lock position and no drag starts. */
  lemma {:induction false} DeadzoneHoldsAtLock(s: RunState, target: Point, now: real)
    requires s.currentGesture == LeftPinch && s.gestureLockPos.Some?
    requires DistSq(target, s.gestureLockPos.value) < Sq(DeadzoneRadius)
    ensures var o := RunStep(s, LeftPinch, target, now);
            o.final == s.gestureLockPos.value && o.state.isDragging == s.isDragging
  {
  }
}
