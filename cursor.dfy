/** The cursor mapper of Content/Hand_mediapipe.py: a normalized index-tip coordinate
    is stretched onto an enlarged screen range by np.interp and then blended into the
    previous cursor position by exponential smoothing. */
module Cursor {

  /** Weight of the previous cursor position in each smoothing step. */
  const SmoothingFactor: real := 0.7
  /** How far beyond the screen the normalized range [0, 1] is stretched. */
  const CursorSensitivity: real := 1.5

  /** The product v * d, kept behind a name so that the solver treats it as one term. */
  function Scale(v: real, d: real): real
  {
    v * d
  }

  lemma ScaleWithin(v: real, d: real)
    requires 0.0 <= v <= 1.0 && d >= 0.0
    ensures 0.0 <= Scale(v, d) <= d
  {
    assert v * d <= 1.0 * d;
  }

  lemma ScaleMonotone(v: real, w: real, d: real)
    requires v <= w && d >= 0.0
    ensures Scale(v, d) <= Scale(w, d)
  {
  }

  /** np.interp(v, [0, 1], [lo, hi]): linear inside [0, 1], clamped to the end
      values outside it. */
  function Interp(v: real, lo: real, hi: real): real
  {
    if v <= 0.0 then lo
    else if v >= 1.0 then hi
    else lo + Scale(v, hi - lo)
  }

  /** On an increasing range the interpolated value never leaves [lo, hi]. */
  lemma InterpWithin(v: real, lo: real, hi: real)
    requires lo <= hi
    ensures lo <= Interp(v, lo, hi) <= hi
  {
    if 0.0 < v < 1.0 {
      ScaleWithin(v, hi - lo);
    }
  }

  /** On an increasing range interpolation preserves order. */
  lemma InterpMonotone(v: real, w: real, lo: real, hi: real)
    requires v <= w && lo <= hi
    ensures Interp(v, lo, hi) <= Interp(w, lo, hi)
  {
    InterpWithin(v, lo, hi);
    InterpWithin(w, lo, hi);
    if 0.0 < v && w < 1.0 {
      ScaleMonotone(v, w, hi - lo);
    }
  }

  /** The screen coordinate of a normalized coordinate on an axis of length dim:
      [0, 1] goes onto [-(dim * (S - 1)), dim * S] with S the sensitivity. */
  function MapAxis(v: real, dim: nat): (r: real)
    ensures -(dim as real * 0.5) <= r <= dim as real * 1.5
    ensures v <= 0.0 ==> r == -(dim as real * 0.5)
    ensures v >= 1.0 ==> r == dim as real * 1.5
    ensures v == 0.5 ==> r == dim as real / 2.0
  {
    InterpWithin(v, 0.0 - dim as real * (CursorSensitivity - 1.0), dim as real * CursorSensitivity);
    Interp(v, 0.0 - dim as real * (CursorSensitivity - 1.0), dim as real * CursorSensitivity)
  }

  /** Moving the hand further right or down never moves the mapped point back. */
  lemma MapAxisMonotone(v: real, w: real, dim: nat)
    requires v <= w
    ensures MapAxis(v, dim) <= MapAxis(w, dim)
  {
    InterpMonotone(v, w, 0.0 - dim as real * (CursorSensitivity - 1.0), dim as real * CursorSensitivity);
  }

  /** One exponential smoothing step: prev * 0.7 + target * (1 - 0.7). The result lies
      between the previous and the target position, and its distance to the target is
      the previous distance scaled by the smoothing factor. */
  function Smooth(prev: real, target: real): (r: real)
    ensures prev <= target ==> prev <= r <= target
    ensures target <= prev ==> target <= r <= prev
    ensures r - target == SmoothingFactor * (prev - target)
  {
    prev * SmoothingFactor + target * (1.0 - SmoothingFactor)
  }

  function Pow(b: real, n: nat): real
  {
    if n == 0 then 1.0 else b * Pow(b, n - 1)
  }

  /** n smoothing steps toward a fixed target. */
  function SmoothTimes(prev: real, target: real, n: nat): real
  {
    if n == 0 then prev else Smooth(SmoothTimes(prev, target, n - 1), target)
  }

  /** Holding the hand still, the cursor closes in on the mapped point geometrically:
      after n frames the remaining distance is 0.7^n of the initial one, and a cursor
      already at the target stays there. */
  lemma {:induction false} SmoothTimesConverges(prev: real, target: real, n: nat)
    ensures SmoothTimes(prev, target, n) - target == Pow(SmoothingFactor, n) * (prev - target)
    ensures prev == target ==> SmoothTimes(prev, target, n) == target
  {
    if n > 0 {
      SmoothTimesConverges(prev, target, n - 1);
      var p := SmoothTimes(prev, target, n - 1);
      calc {
        SmoothTimes(prev, target, n) - target;
        SmoothingFactor * (p - target);
        SmoothingFactor * (Pow(SmoothingFactor, n - 1) * (prev - target));
        (SmoothingFactor * Pow(SmoothingFactor, n - 1)) * (prev - target);
      }
    }
  }
}
