/** Camera smoothing: `rotation` eases toward a target set by the pointer offset. */
module Camera {
  import opened Arith

  /** Radians of rotation per pixel of pointer offset. */
  const GAIN: real := 0.0005
  /** Fraction of the remaining distance covered each frame. */
  const EASE: real := 0.05

  /** The rotation a pointer offset asks for: `offset * 0.0005`. */
  function Target(offset: real): (t: real)
    ensures t == 0.0 <==> offset == 0.0
    ensures (0.0 < t) == (0.0 < offset)
  {
    offset * GAIN
  }

  /** `current += (target - current) * 0.05`. */
  function Approach(current: real, target: real): (r: real)
    ensures r - target == 0.95 * (current - target)
    ensures current <= target ==> current <= r <= target
    ensures target <= current ==> target <= r <= current
    ensures r == current <==> current == target
  {
    current + (target - current) * EASE
  }

  /** `n` frames of smoothing toward a fixed target. */
  function ApproachN(current: real, target: real, n: nat): real
    decreases n
  {
    if n == 0 then current else Approach(ApproachN(current, target, n - 1), target)
  }

  function Pow(b: real, n: nat): real
    decreases n
  {
    if n == 0 then 1.0 else b * Pow(b, n - 1)
  }

  /**
   * After `n` frames with the pointer held still, the distance to the target
   * has shrunk by exactly `0.95^n`, so the rotation never overshoots and
   * never moves away from the target.
   */
  lemma {:induction false} ApproachGeometric(current: real, target: real, n: nat)
    ensures ApproachN(current, target, n) - target == Pow(0.95, n) * (current - target)
    ensures 0.0 < Pow(0.95, n) <= 1.0
    decreases n
  {
    if n > 0 {
      ApproachGeometric(current, target, n - 1);
      var d := ApproachN(current, target, n - 1) - target;
      assert ApproachN(current, target, n) - target == 0.95 * d;
      assert 0.95 * (Pow(0.95, n - 1) * (current - target)) == Pow(0.95, n) * (current - target);
      MulLe(Pow(0.95, n - 1), 1.0, 0.95);
    }
  }
}
