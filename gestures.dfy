/** The gesture classifier of Content/Hand_mediapipe.py (classify_gesture).
    A hand is 21 landmarks in normalized image coordinates (origin top-left,
    y growing downward); the classifier maps it to one of nine labels. */
module Gestures {

  /** One landmark; the depth coordinate is never read by the classifier. */
  datatype Point = Point(x: real, y: real)

  /** The 21 landmarks of one detected hand, indexed as MediaPipe's HandLandmark enumeration. */
  type Landmarks = s: seq<Point> | |s| == 21 witness seq(21, _ => Point(0.0, 0.0))

  /** The nine labels classify_gesture returns. */
  datatype Gesture =
    | OkSign | OpenPalm | FourFingers | OneFinger | TwoFingers
    | ThreeFingers | PinchDrag | Fist | Idle

  // MediaPipe HandLandmark indices used by the classifier and the controller.
  const ThumbMcp: nat := 2
  const ThumbTip: nat := 4
  const IndexMcp: nat := 5
  const IndexTip: nat := 8
  const MiddleMcp: nat := 9
  const MiddleTip: nat := 12
  const RingMcp: nat := 13
  const RingTip: nat := 16
  const PinkyMcp: nat := 17
  const PinkyTip: nat := 20

  /** Tip and knuckle indices of index, middle, ring and pinky, in that order. */
  const TipIds: seq<nat> := [IndexTip, MiddleTip, RingTip, PinkyTip]
  const McpIds: seq<nat> := [IndexMcp, MiddleMcp, RingMcp, PinkyMcp]

  /** Thumb-tip to index-tip distance below which the hand is pinching. */
  const PinchThreshold: real := 0.07

  /** Finger f (0 index, 1 middle, 2 ring, 3 pinky) is up when its tip is higher
      in the image than its knuckle. */
  predicate Up(lm: Landmarks, f: nat)
    requires f < 4
  {
    lm[TipIds[f]].y < lm[McpIds[f]].y
  }

  /** The per-finger vector the classifier builds, ordered index, middle, ring, pinky. */
  function FingersUp(lm: Landmarks): seq<bool>
  {
    seq(4, f requires 0 <= f < 4 => Up(lm, f))
  }

  /** Number of fingers up. */
  function CountTrue(s: seq<bool>): (n: nat)
    ensures n <= |s|
    ensures n == 0 <==> forall i :: 0 <= i < |s| ==> !s[i]
    ensures n == |s| <==> forall i :: 0 <= i < |s| ==> s[i]
  {
    if s == [] then 0
    else (if s[0] then 1 else 0) + CountTrue(s[1..])
  }

  /** The thumb is out when its tip lies left of its knuckle in the mirrored image. */
  predicate ThumbOut(lm: Landmarks)
  {
    lm[ThumbTip].x < lm[ThumbMcp].x
  }

  function SquaredDistance(a: Point, b: Point): (d: real)
    ensures d >= 0.0
  {
    (a.x - b.x) * (a.x - b.x) + (a.y - b.y) * (a.y - b.y)
  }

  /** hypot(dx, dy) < PinchThreshold, compared on squares (both sides are non-negative). */
  predicate Pinching(lm: Landmarks)
  {
    SquaredDistance(lm[ThumbTip], lm[IndexTip]) < PinchThreshold * PinchThreshold
  }

  /** The ordered rule list: first match wins, on the finger count and vector.
      The contract is the same rules as an order-free decision table: each label
      is returned for exactly one pattern of fingers, thumb and pinch. */
  function Decide(up: seq<bool>, thumbOut: bool, pinching: bool): (g: Gesture)
    requires |up| == 4
    ensures g == OkSign <==> !up[0] && up[1] && up[2] && up[3] && pinching
    ensures g == OpenPalm <==> up[0] && up[1] && up[2] && up[3] && thumbOut
    ensures g == FourFingers <==> up[0] && up[1] && up[2] && up[3] && !thumbOut
    ensures g == OneFinger <==> up[0] && !up[1] && !up[2] && !up[3]
    ensures g == TwoFingers <==> up[0] && up[1] && !up[2] && !up[3]
    ensures g == ThreeFingers <==> up[0] && up[1] && up[2] && !up[3]
    ensures g == PinchDrag <==> !up[0] && !up[1] && !up[2] && !up[3] && pinching
    ensures g == Fist <==> !up[0] && !up[1] && !up[2] && !up[3] && !pinching
    ensures g == Idle <==>
              !(!up[0] && up[1] && up[2] && up[3] && pinching)
              && !(up[0] && up[1] && up[2] && up[3])
              && !(up[0] && !up[1] && !up[2] && !up[3])
              && !(up[0] && up[1] && !up[2] && !up[3])
              && !(up[0] && up[1] && up[2] && !up[3])
              && !(!up[0] && !up[1] && !up[2] && !up[3])
  {
    CountFour(up);
    var n := CountTrue(up);
    if n == 3 && !up[0] && up[1] && up[2] && up[3] && pinching then OkSign
    else if n == 4 && thumbOut then OpenPalm
    else if n == 4 && !thumbOut then FourFingers
    else if n == 1 && up[0] then OneFinger
    else if n == 2 && up[0] && up[1] then TwoFingers
    else if n == 3 && up[0] && up[1] && up[2] then ThreeFingers
    else if n == 0 then (if pinching then PinchDrag else Fist)
    else Idle
  }

  /** The count of a four-finger vector, finger by finger. */
  lemma CountFour(up: seq<bool>)
    requires |up| == 4
    ensures CountTrue(up) == (if up[0] then 1 else 0) + (if up[1] then 1 else 0)
                           + (if up[2] then 1 else 0) + (if up[3] then 1 else 0)
  {
  }

  /** classify_gesture: total and deterministic, one of the nine labels for every hand.
      Each label is returned for exactly one pattern of raised fingers (0 index, 1 middle,
      2 ring, 3 pinky), thumb and pinch. OK_SIGN has the index down, so it never overlaps
      THREE_FINGERS; ONE_FINGER to THREE_FINGERS ignore thumb and pinch; every pose no
      rule matches is IDLE. */
  function Classify(lm: Landmarks): (g: Gesture)
    ensures g == OkSign <==> !Up(lm, 0) && Up(lm, 1) && Up(lm, 2) && Up(lm, 3) && Pinching(lm)
    ensures g == OpenPalm <==> Up(lm, 0) && Up(lm, 1) && Up(lm, 2) && Up(lm, 3) && ThumbOut(lm)
    ensures g == FourFingers <==> Up(lm, 0) && Up(lm, 1) && Up(lm, 2) && Up(lm, 3) && !ThumbOut(lm)
    ensures g == OneFinger <==> Up(lm, 0) && !Up(lm, 1) && !Up(lm, 2) && !Up(lm, 3)
    ensures g == TwoFingers <==> Up(lm, 0) && Up(lm, 1) && !Up(lm, 2) && !Up(lm, 3)
    ensures g == ThreeFingers <==> Up(lm, 0) && Up(lm, 1) && Up(lm, 2) && !Up(lm, 3)
    ensures g == PinchDrag <==> !Up(lm, 0) && !Up(lm, 1) && !Up(lm, 2) && !Up(lm, 3) && Pinching(lm)
    ensures g == Fist <==> !Up(lm, 0) && !Up(lm, 1) && !Up(lm, 2) && !Up(lm, 3) && !Pinching(lm)
    ensures g == Idle <==>
              !(!Up(lm, 0) && Up(lm, 1) && Up(lm, 2) && Up(lm, 3) && Pinching(lm))
              && !(Up(lm, 0) && Up(lm, 1) && Up(lm, 2) && Up(lm, 3))
              && !(Up(lm, 0) && !Up(lm, 1) && !Up(lm, 2) && !Up(lm, 3))
              && !(Up(lm, 0) && Up(lm, 1) && !Up(lm, 2) && !Up(lm, 3))
              && !(Up(lm, 0) && Up(lm, 1) && Up(lm, 2) && !Up(lm, 3))
              && !(!Up(lm, 0) && !Up(lm, 1) && !Up(lm, 2) && !Up(lm, 3))
  {
    Decide(FingersUp(lm), ThumbOut(lm), Pinching(lm))
  }

  /** With all four fingers up the thumb alone chooses between OPEN_PALM and FOUR_FINGERS. */
  lemma AllUpSplitsOnThumb(lm: Landmarks)
    requires forall f :: 0 <= f < 4 ==> Up(lm, f)
    ensures Classify(lm) == (if ThumbOut(lm) then OpenPalm else FourFingers)
  {
  }

  /** The thumb test affects no other outcome: two hands that agree on fingers and
      pinch are classified alike unless all four fingers are up. */
  lemma ThumbMattersOnlyWithAllUp(a: Landmarks, b: Landmarks)
    requires forall f :: 0 <= f < 4 ==> (Up(a, f) <==> Up(b, f))
    requires Pinching(a) == Pinching(b)
    requires Classify(a) != Classify(b)
    ensures forall f :: 0 <= f < 4 ==> Up(a, f)
    ensures ThumbOut(a) != ThumbOut(b)
    ensures {Classify(a), Classify(b)} == {OpenPalm, FourFingers}
  {
  }

  /** A closed hand is PINCH_DRAG exactly when thumb and index tips are closer than the
      threshold, FIST otherwise. */
  lemma NoFingerUpSplitsOnPinch(lm: Landmarks)
    requires forall f :: 0 <= f < 4 ==> !Up(lm, f)
    ensures Classify(lm) == (if Pinching(lm) then PinchDrag else Fist)
  {
  }

  /** The pinch test on squares is math.hypot's test: for the Euclidean distance dist
      between thumb tip and index tip, the hand is pinching exactly when dist < 0.07. */
  lemma PinchingIsDistanceBelowThreshold(lm: Landmarks, dist: real)
    requires dist >= 0.0 && dist * dist == SquaredDistance(lm[ThumbTip], lm[IndexTip])
    ensures Pinching(lm) <==> dist < PinchThreshold
  {
    if dist < PinchThreshold {
      assert dist * dist <= dist * PinchThreshold;
      assert dist * PinchThreshold < PinchThreshold * PinchThreshold;
    } else {
      assert dist * dist >= dist * PinchThreshold;
      assert dist * PinchThreshold >= PinchThreshold * PinchThreshold;
    }
  }
}
