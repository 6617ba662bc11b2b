/** The main loop of Content/Hand_mediapipe.py over a finite stream of frames, and
    what the controller promises across frames: edge-triggered actions fire once per
    hold, a scroll lock is sticky, and button presses and releases alternate. */
module Session {
  import opened Wrappers
  import opened Gestures
  import opened Control

  /** The frames fed one after another to the controller: the final state and, per
      frame, the actions it issued. */
  function Run(s: State, hands: seq<Option<Landmarks>>, width: nat, height: nat): (r: (State, seq<seq<Action>>))
    ensures |r.1| == |hands|
    ensures hands != [] ==> r.0.lastGesture == GestureOf(hands[|hands| - 1])
    ensures hands == [] ==> r.0 == s
    decreases hands
  {
    if hands == [] then (s, [])
    else
      var (s1, acts) := FrameStep(s, hands[0], width, height);
      var (s2, rest) := Run(s1, hands[1..], width, height);
      (s2, [acts] + rest)
  }

  /** The state the controller is in when frame i arrives. */
  function Before(s: State, hands: seq<Option<Landmarks>>, i: nat, width: nat, height: nat): State
    requires i <= |hands|
  {
    Run(s, hands[..i], width, height).0
  }

  /** Frame i of a run issues what one controller step issues from the state the
      earlier frames left behind. */
  lemma {:induction false} RunAt(s: State, hands: seq<Option<Landmarks>>, i: nat, width: nat, height: nat)
    requires i < |hands|
    ensures Run(s, hands, width, height).1[i] == FrameStep(Before(s, hands, i, width, height), hands[i], width, height).1
    ensures Before(s, hands, i + 1, width, height) == FrameStep(Before(s, hands, i, width, height), hands[i], width, height).0
    decreases i
  {
    var s1 := FrameStep(s, hands[0], width, height).0;
    assert hands[..i + 1][1..] == hands[1..][..i];
    assert hands[..i + 1][0] == hands[0];
    if i == 0 {
      assert hands[..0] == [];
      assert hands[1..][..0] == [];
    } else {
      RunAt(s1, hands[1..], i - 1, width, height);
      assert hands[..i][1..] == hands[1..][..i - 1];
      assert hands[..i][0] == hands[0];
    }
  }

  /** The previous gesture seen by frame i is frame i-1's gesture (the starting state's
      for the first frame). */
  lemma PreviousGesture(s: State, hands: seq<Option<Landmarks>>, i: nat, width: nat, height: nat)
    requires i <= |hands|
    ensures Before(s, hands, i, width, height).lastGesture ==
              if i == 0 then s.lastGesture else GestureOf(hands[i - 1])
  {
  }

  /** Along any run, a click or a hotkey fires on frame i exactly when frame i shows its
      gesture and frame i-1 (or the starting state) did not. */
  lemma EdgeTriggeredAlongRun(s: State, hands: seq<Option<Landmarks>>, i: nat, width: nat, height: nat)
    requires i < |hands|
    ensures var acts := Run(s, hands, width, height).1[i];
            var prev := if i == 0 then s.lastGesture else GestureOf(hands[i - 1]);
            && (Click in acts <==> GestureOf(hands[i]) == Some(OpenPalm) && prev != Some(OpenPalm))
            && (Hotkey(WinTab) in acts <==> GestureOf(hands[i]) == Some(ThreeFingers) && prev != Some(ThreeFingers))
            && (Hotkey(WinD) in acts <==> GestureOf(hands[i]) == Some(FourFingers) && prev != Some(FourFingers))
  {
    RunAt(s, hands, i, width, height);
    PreviousGesture(s, hands, i, width, height);
    EdgeTriggeredActions(Before(s, hands, i, width, height), hands[i], width, height);
  }

  /** An OPEN_PALM held over consecutive frames clicks once, on its first frame, and
      not at all if the palm was already open before the run. */
  lemma HeldOpenPalmClicksOnce(s: State, hands: seq<Option<Landmarks>>, width: nat, height: nat)
    requires forall i :: 0 <= i < |hands| ==> GestureOf(hands[i]) == Some(OpenPalm)
    ensures var out := Run(s, hands, width, height).1;
            forall i :: 0 <= i < |hands| ==> (Click in out[i] <==> i == 0 && s.lastGesture != Some(OpenPalm))
  {
    forall i | 0 <= i < |hands|
      ensures Click in Run(s, hands, width, height).1[i] <==> i == 0 && s.lastGesture != Some(OpenPalm)
    {
      EdgeTriggeredAlongRun(s, hands, i, width, height);
    }
  }

  /** The gestures IDLE, THREE_FINGERS, THREE_FINGERS, IDLE, THREE_FINGERS switch tabs on
      the second and the fifth frame only, and those frames do nothing else. */
  lemma TabSwitchScenario(s: State, hands: seq<Option<Landmarks>>, width: nat, height: nat)
    requires |hands| == 5
    requires GestureOf(hands[0]) == Some(Idle) && GestureOf(hands[1]) == Some(ThreeFingers)
    requires GestureOf(hands[2]) == Some(ThreeFingers) && GestureOf(hands[3]) == Some(Idle)
    requires GestureOf(hands[4]) == Some(ThreeFingers)
    ensures var out := Run(s, hands, width, height).1;
            && (forall i :: 0 <= i < 5 ==> (Hotkey(WinTab) in out[i] <==> i == 1 || i == 4))
            && out[1] == [Hotkey(WinTab)] && out[4] == [Hotkey(WinTab)]
  {
    var out := Run(s, hands, width, height).1;
    EdgeTriggeredAlongRun(s, hands, 0, width, height);
    EdgeTriggeredAlongRun(s, hands, 2, width, height);
    EdgeTriggeredAlongRun(s, hands, 3, width, height);
    // Frames 1 and 4 follow an IDLE frame, which leaves no drag held.
    FrameAfterIdle(s, hands, 1, width, height);
    FrameAfterIdle(s, hands, 4, width, height);
  }

  lemma FrameAfterIdle(s: State, hands: seq<Option<Landmarks>>, i: nat, width: nat, height: nat)
    requires 0 < i < |hands|
    requires GestureOf(hands[i - 1]) == Some(Idle) && GestureOf(hands[i]) == Some(ThreeFingers)
    ensures Run(s, hands, width, height).1[i] == [Hotkey(WinTab)]
  {
    RunAt(s, hands, i - 1, width, height);
    RunAt(s, hands, i, width, height);
    PreviousGesture(s, hands, i, width, height);
    var b := Before(s, hands, i, width, height);
    assert !b.isDragging;
    TabSwitchFrame(b, hands[i].value, width, height);
  }

  /** Once a lock is engaged it stays, and every frame that keeps TWO_FINGERS scrolls the
      same way at the fixed speed wherever the finger goes; only the first frame may also
      release a drag left over from before the run. */
  lemma {:induction false} ScrollLockIsSticky(s: State, hands: seq<Option<Landmarks>>, d: ScrollDir, width: nat, height: nat)
    requires s.scrollLock == Some(d)
    requires forall i :: 0 <= i < |hands| ==> GestureOf(hands[i]) == Some(TwoFingers)
    ensures var r := Run(s, hands, width, height);
            && r.0.scrollLock == Some(d)
            && forall i :: 0 <= i < |hands| ==>
                 r.1[i] == (if i == 0 && s.isDragging then [MouseUp] else []) + ScrollActions(Some(d))
    decreases hands
  {
    if hands != [] {
      var s1 := FrameStep(s, hands[0], width, height).0;
      assert s1.scrollLock == Some(d) && !s1.isDragging;
      ScrollLockIsSticky(s1, hands[1..], d, width, height);
      var r := Run(s, hands, width, height);
      forall i | 0 <= i < |hands|
        ensures r.1[i] == (if i == 0 && s.isDragging then [MouseUp] else []) + ScrollActions(Some(d))
      {
        if i > 0 {
          assert r.1[i] == Run(s1, hands[1..], width, height).1[i - 1];
        }
      }
    }
  }

  /** The controller's invariant holds after every frame of any run. */
  lemma {:induction false} RunKeepsConsistent(s: State, hands: seq<Option<Landmarks>>, width: nat, height: nat)
    requires Consistent(s)
    ensures Consistent(Run(s, hands, width, height).0)
    decreases hands
  {
    if hands != [] {
      RunKeepsConsistent(FrameStep(s, hands[0], width, height).0, hands[1..], width, height);
    }
  }

  /** All actions of a run, in the order they were issued. */
  function Flatten(out: seq<seq<Action>>): seq<Action>
  {
    if out == [] then [] else out[0] + Flatten(out[1..])
  }

  /** The button events among some actions: true for a press, false for a release. */
  function ButtonEvents(acts: seq<Action>): (evs: seq<bool>)
    ensures |evs| <= |acts|
  {
    if acts == [] then []
    else if acts[0] == MouseDown then [true] + ButtonEvents(acts[1..])
    else if acts[0] == MouseUp then [false] + ButtonEvents(acts[1..])
    else ButtonEvents(acts[1..])
  }

  /** Starting with the button held or not, every event flips it, and the last event
      leaves it as final. */
  predicate Alternates(held: bool, evs: seq<bool>, final: bool)
    decreases evs
  {
    if evs == [] then final == held
    else evs[0] == !held && Alternates(!held, evs[1..], final)
  }

  lemma {:induction false} ButtonEventsAppend(a: seq<Action>, b: seq<Action>)
    ensures ButtonEvents(a + b) == ButtonEvents(a) + ButtonEvents(b)
  {
    if a != [] {
      ButtonEventsAppend(a[1..], b);
      assert (a + b)[1..] == a[1..] + b;
      assert (a + b)[0] == a[0];
    } else {
      assert a + b == b;
    }
  }

  /** One frame issues a single press or release exactly when it changes the drag flag. */
  lemma FrameButtonEvents(s: State, hand: Option<Landmarks>, width: nat, height: nat)
    ensures var r := FrameStep(s, hand, width, height);
            ButtonEvents(r.1) == if r.0.isDragging == s.isDragging then [] else [r.0.isDragging]
  {
  }

  /** Over any run the mouse button is pressed and released in strict alternation,
      never pressed twice without a release in between, and the drag flag at the end
      says whether the last event was a press. */
  lemma {:induction false} ButtonsAlternate(s: State, hands: seq<Option<Landmarks>>, width: nat, height: nat)
    ensures var r := Run(s, hands, width, height);
            Alternates(s.isDragging, ButtonEvents(Flatten(r.1)), r.0.isDragging)
    decreases hands
  {
    var r := Run(s, hands, width, height);
    if hands != [] {
      var (s1, acts) := FrameStep(s, hands[0], width, height);
      var rest := Run(s1, hands[1..], width, height);
      ButtonsAlternate(s1, hands[1..], width, height);
      assert r.1 == [acts] + rest.1;
      assert Flatten(r.1) == acts + Flatten(rest.1) by {
        assert ([acts] + rest.1)[1..] == rest.1;
      }
      ButtonEventsAppend(acts, Flatten(rest.1));
      FrameButtonEvents(s, hands[0], width, height);
      var tail := ButtonEvents(Flatten(rest.1));
      assert r.0 == rest.0;
      if s1.isDragging != s.isDragging {
        assert ([s1.isDragging] + tail)[1..] == tail;
      } else {
        assert [] + tail == tail;
      }
    }
  }

  /** A frame without a hand forgets the previous gesture, so an OPEN_PALM that drops
      out of detection for one frame clicks again when it reappears. */
  lemma DetectionGapRetriggers(s: State, hands: seq<Option<Landmarks>>, width: nat, height: nat)
    requires |hands| == 3 && hands[1] == None
    requires GestureOf(hands[0]) == Some(OpenPalm) && GestureOf(hands[2]) == Some(OpenPalm)
    ensures Click in Run(s, hands, width, height).1[2]
  {
    EdgeTriggeredAlongRun(s, hands, 2, width, height);
  }

  /** Every state the controller reaches from start-up satisfies its invariant: a scroll
      lock always has an anchor, lock and anchor are set only after TWO_FINGERS or a frame
      without a hand, and a drag is held only after PINCH_DRAG or a frame without a hand. */
  lemma ReachableStatesAreConsistent(hands: seq<Option<Landmarks>>, width: nat, height: nat)
    ensures var s := Run(Initial(width, height), hands, width, height).0;
            && (s.scrollLock.Some? ==> s.lastPos.Some?)
            && ((s.scrollLock.Some? || s.lastPos.Some?) ==> s.lastGesture in {None, Some(TwoFingers)})
            && (s.isDragging ==> s.lastGesture in {None, Some(PinchDrag)})
  {
    RunKeepsConsistent(Initial(width, height), hands, width, height);
  }
}
