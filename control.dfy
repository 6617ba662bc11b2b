/** One frame of the gesture controller in Content/Hand_mediapipe.py (the body of
    the main loop), as a function from the controller's state and the frame's hand
    to the new state and the input actions issued, in order. */
module Control {
  import opened Wrappers
  import opened Gestures
  import opened Cursor

  /** Vertical movement of the index tip, in normalized units, that engages a scroll lock. */
  const ScrollNudgeThreshold: real := 0.03
  /** Wheel clicks issued per frame while a scroll lock is engaged. */
  const ScrollLockSpeed: int := 30

  datatype ScrollDir = Up | Down

  /** The calls the controller makes into the input-injection library. */
  datatype Action =
    | MouseDown
    | MouseUp
    | MoveTo(x: real, y: real)
    | Click
    | Scroll(clicks: int)
    | Hotkey(keys: seq<string>)

  const WinTab: seq<string> := ["win", "tab"]
  const WinD: seq<string> := ["win", "d"]

  /** The controller's globals. The scroll anchor lastPos is stored by the source as
      the pair (0, y), whose first half is never read; it is kept here as y alone. */
  datatype State = State(
    smoothX: real,
    smoothY: real,
    lastGesture: Option<Gesture>,
    lastPos: Option<real>,
    isDragging: bool,
    scrollLock: Option<ScrollDir>)

  /** The state at start-up: cursor at the centre of a width x height screen, nothing held. */
  function Initial(width: nat, height: nat): (s: State)
    ensures Consistent(s)
    ensures s.smoothX == width as real / 2.0 && s.smoothY == height as real / 2.0
    ensures !s.isDragging && s.scrollLock == None && s.lastPos == None && s.lastGesture == None
  {
    State(0.5 * width as real, 0.5 * height as real, None, None, false, None)
  }

  /** What the controller keeps true between frames: a lock always has an anchor; lock
      and anchor survive only into a frame that follows TWO_FINGERS or a frame without
      a hand; a held drag only follows PINCH_DRAG or a frame without a hand. */
  predicate Consistent(s: State)
  {
    (s.scrollLock.Some? ==> s.lastPos.Some?)
    && ((s.scrollLock.Some? || s.lastPos.Some?) ==> s.lastGesture in {None, Some(TwoFingers)})
    && (s.isDragging ==> s.lastGesture in {None, Some(PinchDrag)})
  }

  /** The wheel action of one locked frame: +30 up, -30 down. */
  function ScrollActions(lock: Option<ScrollDir>): seq<Action>
  {
    match lock
    case None => []
    case Some(Up) => [Scroll(ScrollLockSpeed)]
    case Some(Down) => [Scroll(-ScrollLockSpeed)]
  }

  /** Drag enter and exit: the button goes down on entering PINCH_DRAG and up on
      leaving it, before anything else happens in the frame. */
  function DragPhase(s: State, g: Gesture): (r: (State, seq<Action>))
    ensures r.0 == s.(isDragging := g == PinchDrag)
    ensures MouseDown in r.1 <==> g == PinchDrag && !s.isDragging
    ensures MouseUp in r.1 <==> g != PinchDrag && s.isDragging
    ensures r.1 == [] || r.1 == [MouseDown] || r.1 == [MouseUp]
  {
    if g == PinchDrag then
      if !s.isDragging then (s.(isDragging := true), [MouseDown]) else (s, [])
    else if s.isDragging then (s.(isDragging := false), [MouseUp])
    else (s, [])
  }

  /** Cursor movement: the index tip is mapped onto the enlarged screen range and the
      cursor moves a smoothing step toward it; the scroll state is dropped. */
  function CursorStep(s: State, tip: Point, width: nat, height: nat): (r: (State, seq<Action>))
    ensures r.1 == [MoveTo(r.0.smoothX, r.0.smoothY)]
    ensures r.0 == s.(smoothX := r.0.smoothX, smoothY := r.0.smoothY, scrollLock := None, lastPos := None)
    ensures r.0.smoothX - MapAxis(tip.x, width) == SmoothingFactor * (s.smoothX - MapAxis(tip.x, width))
    ensures r.0.smoothY - MapAxis(tip.y, height) == SmoothingFactor * (s.smoothY - MapAxis(tip.y, height))
    ensures s.smoothX <= MapAxis(tip.x, width) ==> s.smoothX <= r.0.smoothX <= MapAxis(tip.x, width)
    ensures MapAxis(tip.x, width) <= s.smoothX ==> MapAxis(tip.x, width) <= r.0.smoothX <= s.smoothX
    ensures s.smoothY <= MapAxis(tip.y, height) ==> s.smoothY <= r.0.smoothY <= MapAxis(tip.y, height)
    ensures MapAxis(tip.y, height) <= s.smoothY ==> MapAxis(tip.y, height) <= r.0.smoothY <= s.smoothY
  {
    var x := Smooth(s.smoothX, MapAxis(tip.x, width));
    var y := Smooth(s.smoothY, MapAxis(tip.y, height));
    (s.(scrollLock := None, smoothX := x, smoothY := y, lastPos := None), [MoveTo(x, y)])
  }

  /** Sticky scroll lock. Without a lock, the first frame anchors at the index tip's y;
      the lock engages once the tip has moved more than the nudge threshold from the
      anchor (DOWN for a move down the image, UP otherwise) and the anchor moves to the
      tip. An engaged lock never changes, and every locked frame scrolls. */
  function ScrollStep(s: State, y: real): (r: (State, seq<Action>))
    ensures r.0 == s.(scrollLock := r.0.scrollLock, lastPos := r.0.lastPos)
    ensures r.1 == ScrollActions(r.0.scrollLock)
    ensures s.scrollLock.Some? ==> r.0 == s
    ensures s.scrollLock.None? ==>
              var anchor := if s.lastPos.Some? then s.lastPos.value else y;
              && (r.0.scrollLock == Some(Down) <==> y - anchor > ScrollNudgeThreshold)
              && (r.0.scrollLock == Some(Up) <==> y - anchor < -ScrollNudgeThreshold)
              && r.0.lastPos == Some(if r.0.scrollLock.Some? then y else anchor)
  {
    var s1 :=
      if s.scrollLock.None? then
        var anchor := if s.lastPos.None? then y else s.lastPos.value;
        var delta := y - anchor;
        if Abs(delta) > ScrollNudgeThreshold then
          s.(scrollLock := Some(if delta > 0.0 then Down else Up), lastPos := Some(y))
        else
          s.(lastPos := Some(anchor))
      else s;
    (s1, ScrollActions(s1.scrollLock))
  }

  function Abs(r: real): real
  {
    if r < 0.0 then -r else r
  }

  /** The gesture dispatch after the drag check: one branch per gesture, where click and
      the two hotkeys fire only on a frame whose gesture differs from the previous one,
      and a held OPEN_PALM, THREE_FINGERS or FOUR_FINGERS does nothing. */
  function Dispatch(s: State, g: Gesture, tip: Point, width: nat, height: nat): (r: (State, seq<Action>))
    ensures r.0.isDragging == s.isDragging && r.0.lastGesture == s.lastGesture
    ensures |r.1| <= 1
    ensures forall a :: a in r.1 ==> !a.MouseDown? && !a.MouseUp?
  {
    if g == OneFinger || (g == PinchDrag && s.isDragging) then
      CursorStep(s, tip, width, height)
    else if g == OpenPalm && s.lastGesture != Some(OpenPalm) then
      (s.(scrollLock := None, lastPos := None), [Click])
    else if g == TwoFingers then
      ScrollStep(s, tip.y)
    else if g == ThreeFingers && s.lastGesture != Some(ThreeFingers) then
      (s.(scrollLock := None, lastPos := None), [Hotkey(WinTab)])
    else if g == FourFingers && s.lastGesture != Some(FourFingers) then
      (s.(scrollLock := None, lastPos := None), [Hotkey(WinD)])
    else if g in {Fist, OkSign, Idle} then
      (s.(scrollLock := None, lastPos := None), [])
    else
      (s, [])
  }

  /** The gesture of a frame: None when no hand was detected. */
  function GestureOf(hand: Option<Landmarks>): Option<Gesture>
  {
    match hand
    case None => None
    case Some(lm) => Some(Classify(lm))
  }

  /** One iteration of the main loop. Without a hand nothing is dispatched: no action,
      and only the previous gesture is forgotten (a held drag stays held, a scroll lock
      stays engaged). With a hand, the drag flag afterwards says exactly whether the
      gesture is PINCH_DRAG, and the frame's gesture becomes the previous one. */
  function FrameStep(s: State, hand: Option<Landmarks>, width: nat, height: nat): (r: (State, seq<Action>))
    ensures hand.None? ==> r.0 == s.(lastGesture := None) && r.1 == []
    ensures hand.Some? ==> r.0.isDragging == (Classify(hand.value) == PinchDrag)
    ensures r.0.lastGesture == GestureOf(hand)
    ensures Consistent(s) ==> Consistent(r.0)
  {
    match hand
    case None => (s.(lastGesture := None), [])
    case Some(lm) =>
      var g := Classify(lm);
      var (s1, dragActs) := DragPhase(s, g);
      var (s2, acts) := Dispatch(s1, g, lm[IndexTip], width, height);
      (s2.(lastGesture := Some(g)), dragActs + acts)
  }

  /** Some action of the frame moves the cursor. */
  predicate Moves(acts: seq<Action>)
  {
    exists i :: 0 <= i < |acts| && acts[i].MoveTo?
  }

  /** Some action of the frame turns the wheel. */
  predicate Scrolls(acts: seq<Action>)
  {
    exists i :: 0 <= i < |acts| && acts[i].Scroll?
  }

  /** The mouse button goes down only on entering PINCH_DRAG and up only on leaving it,
      and a release is the first action of its frame, ahead of any cursor move. */
  lemma DragButtonEdges(s: State, hand: Option<Landmarks>, width: nat, height: nat)
    ensures var r := FrameStep(s, hand, width, height);
            && (MouseDown in r.1 <==> hand.Some? && Classify(hand.value) == PinchDrag && !s.isDragging)
            && (MouseUp in r.1 <==> hand.Some? && Classify(hand.value) != PinchDrag && s.isDragging)
            && (MouseUp in r.1 ==> r.1[0] == MouseUp)
            && (MouseDown in r.1 ==> r.1[0] == MouseDown)
  {
  }

  /** Click, Win+Tab and Win+D fire exactly on a frame whose gesture is OPEN_PALM,
      THREE_FINGERS or FOUR_FINGERS respectively and differs from the previous frame's. */
  lemma EdgeTriggeredActions(s: State, hand: Option<Landmarks>, width: nat, height: nat)
    ensures var r := FrameStep(s, hand, width, height);
            var g := GestureOf(hand);
            && (Click in r.1 <==> g == Some(OpenPalm) && s.lastGesture != Some(OpenPalm))
            && (Hotkey(WinTab) in r.1 <==> g == Some(ThreeFingers) && s.lastGesture != Some(ThreeFingers))
            && (Hotkey(WinD) in r.1 <==> g == Some(FourFingers) && s.lastGesture != Some(FourFingers))
  {
  }

  /** The cursor is moved, and the smoothed position changes, only on a ONE_FINGER or
      PINCH_DRAG frame; on such a frame the cursor always moves. */
  lemma CursorOnlyWhenPointing(s: State, hand: Option<Landmarks>, width: nat, height: nat)
    ensures var r := FrameStep(s, hand, width, height);
            && (Moves(r.1) <==> GestureOf(hand) in {Some(OneFinger), Some(PinchDrag)})
            && ((r.0.smoothX, r.0.smoothY) != (s.smoothX, s.smoothY) ==>
                  GestureOf(hand) in {Some(OneFinger), Some(PinchDrag)})
  {
    var r := FrameStep(s, hand, width, height);
    if hand.Some? {
      var g := Classify(hand.value);
      var (s1, d) := DragPhase(s, g);
      var (s2, a) := Dispatch(s1, g, hand.value[IndexTip], width, height);
      assert r.1 == d + a;
      if g in {OneFinger, PinchDrag} {
        assert r.1[|d|].MoveTo?;
      } else {
        assert forall i :: 0 <= i < |r.1| ==> !r.1[i].MoveTo? by {
          forall i | 0 <= i < |r.1| ensures !r.1[i].MoveTo? {
            if i >= |d| { assert r.1[i] == a[i - |d|]; }
          }
        }
      }
    }
  }

  /** The wheel turns only on a TWO_FINGERS frame, and then exactly when a lock is
      engaged after the frame. */
  lemma ScrollOnlyWithTwoFingers(s: State, hand: Option<Landmarks>, width: nat, height: nat)
    ensures var r := FrameStep(s, hand, width, height);
            Scrolls(r.1) <==> GestureOf(hand) == Some(TwoFingers) && r.0.scrollLock.Some?
  {
    var r := FrameStep(s, hand, width, height);
    if hand.Some? {
      var g := Classify(hand.value);
      var (s1, d) := DragPhase(s, g);
      var (s2, a) := Dispatch(s1, g, hand.value[IndexTip], width, height);
      assert r.1 == d + a;
      if Scrolls(r.1) {
        var i :| 0 <= i < |r.1| && r.1[i].Scroll?;
        assert i >= |d| && a[i - |d|].Scroll?;
      }
      if g == TwoFingers && r.0.scrollLock.Some? {
        assert r.1[|d|].Scroll?;
      }
    }
  }

  /** The first TWO_FINGERS frame after another gesture only sets the anchor at the
      index tip: it never engages the lock and never scrolls. */
  lemma FirstTwoFingersFrameAnchors(s: State, lm: Landmarks, width: nat, height: nat)
    requires Consistent(s)
    requires s.lastGesture.Some? && s.lastGesture != Some(TwoFingers)
    requires Classify(lm) == TwoFingers
    ensures var r := FrameStep(s, Some(lm), width, height);
            && r.0.scrollLock == None
            && r.0.lastPos == Some(lm[IndexTip].y)
            && !Scrolls(r.1)
  {
  }

  /** Letting go of a pinch straight into pointing releases the button and then moves
      the cursor, in that order, in the same frame. */
  lemma DropThenMove(s: State, lm: Landmarks, width: nat, height: nat)
    requires s.isDragging && Classify(lm) == OneFinger
    ensures var r := FrameStep(s, Some(lm), width, height);
            r.1 == [MouseUp, MoveTo(r.0.smoothX, r.0.smoothY)]
  {
  }

  /** A cursor resting at the screen centre stays there when the index tip is at the
      centre of the image: 0.5 maps to half the screen on both axes. */
  lemma CentreIsAtRest(s: State, lm: Landmarks, width: nat, height: nat)
    requires s.smoothX == width as real / 2.0 && s.smoothY == height as real / 2.0
    requires !s.isDragging && Classify(lm) == OneFinger
    requires lm[IndexTip] == Point(0.5, 0.5)
    ensures var r := FrameStep(s, Some(lm), width, height);
            && r.1 == [MoveTo(width as real / 2.0, height as real / 2.0)]
            && r.0.smoothX == s.smoothX && r.0.smoothY == s.smoothY
  {
  }

  /** THREE_FINGERS after another gesture, with no drag held, switches tabs and does
      nothing else. */
  lemma TabSwitchFrame(s: State, lm: Landmarks, width: nat, height: nat)
    requires !s.isDragging && Classify(lm) == ThreeFingers && s.lastGesture != Some(ThreeFingers)
    ensures FrameStep(s, Some(lm), width, height).1 == [Hotkey(WinTab)]
  {
  }
}
