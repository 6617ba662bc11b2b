# Hand-gesture mouse controller — verified model

This project models the core of a webcam hand-gesture controller
(`Content/Hand_mediapipe.py`). Each video frame gives either no hand or the 21
MediaPipe hand landmarks in normalized image coordinates. The controller
classifies the hand into one of nine gestures. It then drives the mouse and
keyboard: it moves a smoothed cursor, presses and releases the button for a
drag, clicks, scrolls with a sticky scroll lock, and sends the Win+Tab and Win+D
hotkeys.

Modules, one per component:

- `Wrappers` (`wrappers.dfy`): `Option`. It is used for a frame without a hand, a
  missing previous gesture, an unset scroll anchor and an unset lock.
- `Gestures` (`gestures.dfy`): landmarks, the gesture labels and the classifier
  `classify_gesture`, as pure functions. `Decide` is the ordered rule list.
  `Classify` applies it to the features of a hand.
- `Cursor` (`cursor.dfy`): `np.interp` onto the enlarged screen range and the
  exponential smoothing step.
- `Control` (`control.dfy`): one iteration of the main loop, as a function from
  the controller's globals (`State`) and the frame's hand to the new globals and
  the ordered list of input actions. The input-injection calls become `Action`
  values: `MouseDown`, `MouseUp`, `MoveTo`, `Click`, `Scroll`, `Hotkey`.
- `Session` (`session.dfy`): the loop over a finite stream of frames (`Run`), and
  what holds across frames: edge triggering, scroll-lock stickiness, button
  alternation and the state invariant.
- `Controller` (`controller.dfy`): the globals as fields of a class. `Step`
  updates them in place in the source's statement order and returns the
  actions. It is proved equal to `Control.FrameStep`. `RunFrames` is the main
  loop over a frame stream and is proved equal to `Session.Run`.

The screen size, read once from the OS in the source, is a constructor
parameter. The hand of each frame, produced by MediaPipe in the source, is a
parameter of `Step`. A hand that fails to process counts as "no hand", like an
empty detection.

Behaviour of the code worth noting:

- OK_SIGN is the pinching hand with the index **down** and middle, ring and
  pinky up (lines 81-83). So it never overlaps THREE_FINGERS.
- ONE_FINGER and the other finger rules do not look at the thumb. Only
  OPEN_PALM and FOUR_FINGERS do.
- A frame without a hand runs no part of the dispatch, not even the drag
  release. It only sets the previous gesture to none. A held drag stays held
  and an engaged scroll lock stays engaged (lines 142 and 225).
- Because a frame without a hand forgets the previous gesture, a gesture that
  drops out of detection for one frame fires its click or hotkey again when it
  comes back (`Session.DetectionGapRetriggers`).
- A held OPEN_PALM, THREE_FINGERS or FOUR_FINGERS matches no branch and clears
  nothing. The invariant `Control.Consistent` shows there is then nothing to
  clear: the lock and the anchor are set only after TWO_FINGERS or after a frame
  without a hand.

## Model

| member | source | states |
|---|---|---|
| `Gestures.Classify` | Content/Hand_mediapipe.py:48-107 | every hand gets exactly one of the nine labels, each for exactly one pattern of raised fingers (tip above knuckle), thumb out (thumb-tip x < thumb-MCP x) and pinch: OK_SIGN for index down, middle, ring and pinky up and pinching; OPEN_PALM / FOUR_FINGERS for all four up with / without the thumb out; ONE_, TWO_, THREE_FINGERS for index; index and middle; index, middle and ring up and the rest down, whatever thumb and pinch; PINCH_DRAG / FIST for none up with / without a pinch; IDLE exactly for every other pose |
| `Gestures.CountTrue` | Content/Hand_mediapipe.py:72 | the number of raised fingers is at most the vector length; it is 0 exactly when no finger is up and the full length exactly when all are |
| `Gestures.Decide` | Content/Hand_mediapipe.py:81-107 | the first-match rule chain, driven by finger counts, equals an order-free decision table: each of the nine labels is returned for exactly one pattern of fingers, thumb and pinch, and IDLE for every pose no rule matches |
| `Gestures.AllUpSplitsOnThumb` | Content/Hand_mediapipe.py:86-90 | with all four fingers up the result is OPEN_PALM if thumb-tip x < thumb-MCP x and FOUR_FINGERS otherwise |
| `Gestures.ThumbMattersOnlyWithAllUp` | Content/Hand_mediapipe.py:74-90 | two hands with the same fingers and pinch that classify differently have all four fingers up and differ in the thumb test, giving OPEN_PALM and FOUR_FINGERS |
| `Gestures.NoFingerUpSplitsOnPinch` | Content/Hand_mediapipe.py:76-105 | with no finger up the result is PINCH_DRAG exactly when the thumb-tip/index-tip distance is below 0.07 (compared as squares), FIST otherwise |
| `Gestures.PinchingIsDistanceBelowThreshold` | Content/Hand_mediapipe.py:76-78 | the squared-distance test is the hypot test: for the Euclidean thumb-tip/index-tip distance, the hand is pinching exactly when it is below 0.07 |
| `Cursor.InterpWithin` | Content/Hand_mediapipe.py:161-164 | on an increasing range the interpolated value stays within the range |
| `Cursor.InterpMonotone` | Content/Hand_mediapipe.py:161-164 | on an increasing range interpolation preserves order |
| `Cursor.MapAxis` | Content/Hand_mediapipe.py:161-164 | the mapped coordinate lies in [-(dim*0.5), dim*1.5]; it is clamped to the ends outside [0, 1]; normalized 0.5 maps to dim/2 |
| `Cursor.MapAxisMonotone` | Content/Hand_mediapipe.py:161-164 | a fingertip further right or down never maps to a smaller screen coordinate |
| `Cursor.Smooth` | Content/Hand_mediapipe.py:166-167 | the new cursor lies between the previous one and the mapped point, and its distance to the mapped point is 0.7 times the previous distance |
| `Cursor.SmoothTimesConverges` | Content/Hand_mediapipe.py:166-167 | after n frames toward a fixed point the remaining distance is 0.7^n of the initial one, and a cursor at the point stays there |
| `Control.Initial` | Content/Hand_mediapipe.py:27-31 | the start cursor is the screen centre (width/2, height/2); there is no drag, lock, anchor or previous gesture; the controller invariant holds |
| `Control.DragPhase` | Content/Hand_mediapipe.py:146-154 | afterwards the drag flag equals "gesture is PINCH_DRAG" and nothing else changes; MouseDown is issued exactly on entering PINCH_DRAG and MouseUp exactly on leaving it; at most one of them is issued |
| `Control.CursorStep` | Content/Hand_mediapipe.py:157-170 | the cursor move goes to the newly stored smoothed position; that position lies between the old one and the mapped fingertip and is 0.7 times as far from the mapped fingertip; scroll lock and anchor are cleared and nothing else changes |
| `Control.ScrollStep` | Content/Hand_mediapipe.py:178-199 | an engaged lock is kept unchanged; without one, the anchor is the stored y or else the current y, the lock becomes DOWN exactly when y - anchor > 0.03 and UP exactly when y - anchor < -0.03, and the anchor moves to y on engaging; the frame scrolls per the resulting lock |
| `Control.Dispatch` | Content/Hand_mediapipe.py:157-216 | the gesture branch never touches the drag flag or the previous gesture, and issues at most one action, never a button press or release |
| `Control.FrameStep` | Content/Hand_mediapipe.py:139-225 | without a hand: no actions and only the previous gesture becomes none; with a hand: the drag flag equals "gesture is PINCH_DRAG"; the frame's gesture becomes the previous one; the controller invariant is preserved |
| `Control.DragButtonEdges` | Content/Hand_mediapipe.py:146-157 | per frame, MouseDown exactly on entry to PINCH_DRAG and MouseUp exactly on leaving it while dragging; either is the frame's first action, so a release precedes any cursor move |
| `Control.EdgeTriggeredActions` | Content/Hand_mediapipe.py:172-212 | Click, Win+Tab and Win+D are issued exactly when the gesture is OPEN_PALM, THREE_FINGERS or FOUR_FINGERS and differs from the previous frame's |
| `Control.CursorOnlyWhenPointing` | Content/Hand_mediapipe.py:157-170 | the cursor moves exactly on ONE_FINGER and PINCH_DRAG frames, and the smoothed position changes only on those |
| `Control.ScrollOnlyWithTwoFingers` | Content/Hand_mediapipe.py:178-199 | the wheel turns exactly on TWO_FINGERS frames that end with a lock engaged |
| `Control.FirstTwoFingersFrameAnchors` | Content/Hand_mediapipe.py:181-194 | the first TWO_FINGERS frame after another gesture anchors at the index tip's y, engages no lock and does not scroll |
| `Control.DropThenMove` | Content/Hand_mediapipe.py:146-169 | going from a held drag straight to ONE_FINGER issues exactly MouseUp and then the cursor move |
| `Control.CentreIsAtRest` | Content/Hand_mediapipe.py:157-169 | with the cursor at the screen centre and the fingertip at (0.5, 0.5), the cursor is moved to the centre and stays there |
| `Control.TabSwitchFrame` | Content/Hand_mediapipe.py:202-206 | THREE_FINGERS after another gesture, with no drag held, issues exactly Win+Tab |
| `Session.Run` | Content/Hand_mediapipe.py:129-225 | one action list per frame; the last frame's gesture is the final previous gesture; no frames leave the state unchanged |
| `Session.RunAt` | Content/Hand_mediapipe.py:129-225 | frame i of a run issues what one step issues from the state the earlier frames leave |
| `Session.PreviousGesture` | Content/Hand_mediapipe.py:225 | the previous gesture seen by frame i is frame i-1's gesture, or the start state's for frame 0 |
| `Session.EdgeTriggeredAlongRun` | Content/Hand_mediapipe.py:172-212 | along any run, Click, Win+Tab and Win+D fire on frame i exactly when frame i shows their gesture and frame i-1 did not |
| `Session.HeldOpenPalmClicksOnce` | Content/Hand_mediapipe.py:172-176 | an OPEN_PALM held over consecutive frames clicks on its first frame only, and not at all if it was already held before |
| `Session.TabSwitchScenario` | Content/Hand_mediapipe.py:202-206 | gestures IDLE, THREE, THREE, IDLE, THREE issue Win+Tab on frames 2 and 5 only, and those frames issue nothing else |
| `Session.FrameAfterIdle` | Content/Hand_mediapipe.py:202-214 | a THREE_FINGERS frame right after an IDLE frame issues exactly Win+Tab |
| `Session.ScrollLockIsSticky` | Content/Hand_mediapipe.py:181-199 | once a lock is engaged and TWO_FINGERS continues, the lock never changes and every frame scrolls at the fixed speed; only the first frame may also release a left-over drag |
| `Session.RunKeepsConsistent` | Content/Hand_mediapipe.py:158-216 | the controller invariant holds after every frame of any run |
| `Session.ReachableStatesAreConsistent` | Content/Hand_mediapipe.py:27-216 | in every state reached from start-up, a scroll lock has an anchor; lock or anchor are set only when the previous gesture is TWO_FINGERS or none; a drag is held only when the previous gesture is PINCH_DRAG or none |
| `Session.FrameButtonEvents` | Content/Hand_mediapipe.py:146-154 | a frame issues a single press or release exactly when it changes the drag flag, and it matches the new flag |
| `Session.ButtonsAlternate` | Content/Hand_mediapipe.py:146-154 | over any run, presses and releases alternate strictly, starting from the initial drag flag and ending at the final one |
| `Session.DetectionGapRetriggers` | Content/Hand_mediapipe.py:139-225 | OPEN_PALM, then a frame without a hand, then OPEN_PALM clicks again on the third frame |
| `Controller.GestureController.constructor` | Content/Hand_mediapipe.py:27-31 | the fields hold the start state for the given screen size, and the invariant holds |
| `Controller.GestureController.Step` | Content/Hand_mediapipe.py:139-225 | the fields and the returned actions are exactly `Control.FrameStep` of the old fields; the invariant is kept; no hand means no actions and only the previous gesture changes; with a hand, dragging equals "gesture is PINCH_DRAG"; a button event comes first |
| `Controller.GestureController.DragStep` | Content/Hand_mediapipe.py:146-154 | the fields and actions are `Control.DragPhase` of the old fields |
| `Controller.GestureController.DispatchStep` | Content/Hand_mediapipe.py:157-216 | the fields and actions are `Control.Dispatch` of the old fields |
| `Controller.GestureController.MoveCursor` | Content/Hand_mediapipe.py:157-170 | the fields and actions are `Control.CursorStep` of the old fields |
| `Controller.GestureController.ScrollLockStep` | Content/Hand_mediapipe.py:178-199 | the fields and actions are `Control.ScrollStep` of the old fields |
| `Controller.GestureController.RunFrames` | Content/Hand_mediapipe.py:129-225 | the fields and per-frame actions after the loop are exactly `Session.Run` of the old fields |

## Left out

- Webcam capture, mirroring and colour conversion, the on-screen label, the
  window and the 'q' quit key (lines 112-115, 130-135, 218-223) are video I/O
  and UI. The frame stream is a finite sequence of optional hands instead.
- MediaPipe detection and landmark drawing (lines 12-18, 33-46) are a foreign
  library. Their result is the `Option<Landmarks>` given to each step. A
  processing exception becomes `None`, like an empty detection.
- The effects of the input-injection calls and the fail-safe abort (line 10)
  are OS input. The calls are emitted `Action` values in call order. An abort
  that ends the loop mid-drag is not modelled.
- Logging and the banner (lines 117-127 and the print calls in the loop) are
  telemetry.
- Floating-point rounding in `math.hypot`, `np.interp` and the smoothing is not
  modelled. Coordinates are exact reals. The pinch test compares the squared
  distance with 0.07², which is equivalent for exact reals since both sides are
  non-negative. `1 - 0.7` is taken as exactly 0.3.
- The landmark depth coordinate is never read and is not modelled.
- The scroll anchor is stored by the source as the pair `(0, y)`. Its first half
  is never read, so the model keeps only y.
- Process teardown (lines 228-230) is not modelled.
