/** The controller of Content/Hand_mediapipe.py as an object: its fields are the
    module globals that the main loop updates in place every frame, and Step is one
    iteration of that loop, issuing the input actions in the order the source calls
    them. Step is proved to do what Control.FrameStep describes. */
module Controller {
  import opened Wrappers
  import opened Gestures
  import opened Cursor
  import opened Control
  import opened Session

  class GestureController {
    /** The screen size, read once at start-up. */
    const screenWidth: nat
    const screenHeight: nat

    var smoothX: real
    var smoothY: real
    var lastGesture: Option<Gesture>
    var lastPos: Option<real>
    var isDragging: bool
    var scrollLock: Option<ScrollDir>

    /** The fields as one value. */
    function Snapshot(): State
      reads this
    {
      State(smoothX, smoothY, lastGesture, lastPos, isDragging, scrollLock)
    }

    ghost predicate Valid()
      reads this
    {
      Consistent(Snapshot())
    }

    /** Cursor at the screen centre, no previous gesture, no anchor, no drag, no lock. */
    constructor (width: nat, height: nat)
      ensures screenWidth == width && screenHeight == height
      ensures Snapshot() == Initial(width, height)
      ensures Valid()
    {
      screenWidth, screenHeight := width, height;
      smoothX, smoothY := 0.5 * width as real, 0.5 * height as real;
      lastGesture, lastPos := None, None;
      isDragging, scrollLock := false, None;
    }

    /** One frame: classify the hand if there is one, release or press the button,
        dispatch on the gesture, and remember the gesture for the next frame. */
    method Step(hand: Option<Landmarks>) returns (acts: seq<Action>)
      requires Valid()
      modifies this
      ensures Valid()
      ensures (Snapshot(), acts) == FrameStep(old(Snapshot()), hand, screenWidth, screenHeight)
      ensures hand.None? ==> acts == [] && Snapshot() == old(Snapshot()).(lastGesture := None)
      ensures hand.Some? ==> isDragging == (Classify(hand.value) == PinchDrag)
      ensures (MouseUp in acts || MouseDown in acts) ==> acts[0] in {MouseUp, MouseDown}
    {
      DragButtonEdges(Snapshot(), hand, screenWidth, screenHeight);
      acts := [];
      var current: Option<Gesture> := None;
      if hand.Some? {
        var lm := hand.value;
        var g := Classify(lm);
        current := Some(g);
        var dragActs := DragStep(g);
        var dispatched := DispatchStep(g, lm[IndexTip]);
        acts := dragActs + dispatched;
      }
      lastGesture := current;
    }

    /** Drag enter and exit: press on entering PINCH_DRAG, release on leaving it. */
    method DragStep(g: Gesture) returns (acts: seq<Action>)
      modifies this
      ensures (Snapshot(), acts) == DragPhase(old(Snapshot()), g)
    {
      acts := [];
      if g == PinchDrag {
        if !isDragging {
          acts := [MouseDown];
          isDragging := true;
        }
      } else if isDragging {
        acts := [MouseUp];
        isDragging := false;
      }
    }

    /** The gesture branches, tried in the source's order; tip is the index fingertip. */
    method DispatchStep(g: Gesture, tip: Point) returns (acts: seq<Action>)
      modifies this
      ensures (Snapshot(), acts) == Dispatch(old(Snapshot()), g, tip, screenWidth, screenHeight)
    {
      acts := [];
      if g == OneFinger || (g == PinchDrag && isDragging) {
        acts := MoveCursor(tip);
      } else if g == OpenPalm && lastGesture != Some(OpenPalm) {
        scrollLock := None;
        acts := [Click];
        lastPos := None;
      } else if g == TwoFingers {
        acts := ScrollLockStep(tip.y);
      } else if g == ThreeFingers && lastGesture != Some(ThreeFingers) {
        scrollLock := None;
        acts := [Hotkey(WinTab)];
        lastPos := None;
      } else if g == FourFingers && lastGesture != Some(FourFingers) {
        scrollLock := None;
        acts := [Hotkey(WinD)];
        lastPos := None;
      } else if g in {Fist, OkSign, Idle} {
        scrollLock := None;
        lastPos := None;
      }
    }

    /** Map the fingertip onto the enlarged screen range, smooth, and move the cursor. */
    method MoveCursor(tip: Point) returns (acts: seq<Action>)
      modifies this
      ensures (Snapshot(), acts) == CursorStep(old(Snapshot()), tip, screenWidth, screenHeight)
    {
      scrollLock := None;
      var mapX := MapAxis(tip.x, screenWidth);
      var mapY := MapAxis(tip.y, screenHeight);
      smoothX := Smooth(smoothX, mapX);
      smoothY := Smooth(smoothY, mapY);
      acts := [MoveTo(smoothX, smoothY)];
      lastPos := None;
    }

    /** Anchor, engage or keep the scroll lock at fingertip height currentY, and scroll
        while it is engaged. */
    method ScrollLockStep(currentY: real) returns (acts: seq<Action>)
      modifies this
      ensures (Snapshot(), acts) == ScrollStep(old(Snapshot()), currentY)
    {
      acts := [];
      if scrollLock.None? {
        if lastPos.None? {
          lastPos := Some(currentY);
        }
        var deltaY := currentY - lastPos.value;
        if Abs(deltaY) > ScrollNudgeThreshold {
          if deltaY > 0.0 {
            scrollLock := Some(Down);
          } else {
            scrollLock := Some(Up);
          }
          lastPos := Some(currentY);
        }
      }
      if scrollLock == Some(Up) {
        acts := [Scroll(ScrollLockSpeed)];
      } else if scrollLock == Some(Down) {
        acts := [Scroll(-ScrollLockSpeed)];
      }
    }

    /** The main loop over a finite stream of frames, one Step per frame. */
    method RunFrames(hands: seq<Option<Landmarks>>) returns (out: seq<seq<Action>>)
      requires Valid()
      modifies this
      ensures Valid()
      ensures (Snapshot(), out) == Run(old(Snapshot()), hands, screenWidth, screenHeight)
    {
      out := [];
      var i := 0;
      assert hands[0..] == hands;
      assert [] + Run(Snapshot(), hands, screenWidth, screenHeight).1 == Run(Snapshot(), hands, screenWidth, screenHeight).1;
      while i < |hands|
        invariant 0 <= i <= |hands|
        invariant Valid()
        invariant Run(old(Snapshot()), hands, screenWidth, screenHeight) ==
                    (Run(Snapshot(), hands[i..], screenWidth, screenHeight).0,
                     out + Run(Snapshot(), hands[i..], screenWidth, screenHeight).1)
      {
        ghost var before := Snapshot();
        assert hands[i..][0] == hands[i] && hands[i..][1..] == hands[i + 1..];
        var acts := Step(hands[i]);
        ghost var rest := Run(Snapshot(), hands[i + 1..], screenWidth, screenHeight);
        assert Run(before, hands[i..], screenWidth, screenHeight) == (rest.0, [acts] + rest.1);
        assert out + ([acts] + rest.1) == (out + [acts]) + rest.1;
        out := out + [acts];
        i := i + 1;
      }
      assert hands[i..] == [];
      assert out + Run(Snapshot(), [], screenWidth, screenHeight).1 == out;
    }
  }
}
