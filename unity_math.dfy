/** Optional values, used where the source returns a reference that may be null. */
module Wrappers {
  datatype Option<+T> = None | Some(value: T)
}

/**
 * The few pieces of Unity's and .NET's float arithmetic that the player code
 * relies on, over `real` (rounding, NaN and infinities are not modelled).
 */
module UnityMath {

  /** UnityEngine.Vector2. */
  datatype Vec2 = Vec2(x: real, y: real)

  const Zero: Vec2 := Vec2(0.0, 0.0)

  /** float.MinValue, the most negative finite single-precision value. */
  const FloatMinValue: real := -340282346638528859811704183484516925440.0

  function Abs(f: real): (r: real)
    ensures r >= 0.0
    ensures r == f || r == -f
  {
    if f < 0.0 then -f else f
  }

  /** Mathf.Sign: 1 for zero and for positive values, -1 for negative ones. */
  function Sign(f: real): (r: real)
    ensures r == 1.0 || r == -1.0
    ensures r * f == Abs(f)
    ensures f > 0.0 ==> r == 1.0
    ensures f < 0.0 ==> r == -1.0
  {
    if f >= 0.0 then 1.0 else -1.0
  }

  function Min(a: real, b: real): (r: real)
    ensures r <= a && r <= b
    ensures r == a || r == b
  {
    if a <= b then a else b
  }

  function Max(a: real, b: real): (r: real)
    ensures r >= a && r >= b
    ensures r == a || r == b
  {
    if a >= b then a else b
  }

  /** `r` lies on the closed segment between `a` and `b`. */
  predicate Between(a: real, r: real, b: real)
  {
    (a <= r <= b) || (b <= r <= a)
  }

  /**
   * Mathf.MoveTowards: `target` when it is at most `maxDelta` away, otherwise
   * one step of `maxDelta` in the direction of Sign(target - current). The
   * product with that sign is written as a choice between adding and
   * subtracting, which is the same value.
   */
  function MoveTowards(current: real, target: real, maxDelta: real): (r: real)
    ensures maxDelta >= 0.0 ==> Abs(r - current) <= maxDelta
    ensures maxDelta >= 0.0 ==> Between(current, r, target)
    ensures r == target || Abs(r - current) == Abs(maxDelta)
    ensures Abs(target - current) <= maxDelta ==> r == target
  {
    if Abs(target - current) <= maxDelta then target
    else if target - current >= 0.0 then current + maxDelta
    else current - maxDelta
  }

  /** Away from the target, MoveTowards is Unity's own formula: the current value plus the sign of the gap times the step. */
  lemma MoveTowardsIsSignedStep(current: real, target: real, maxDelta: real)
    requires Abs(target - current) > maxDelta
    ensures MoveTowards(current, target, maxDelta) == current + Sign(target - current) * maxDelta
  {
    if target - current >= 0.0 {
      assert Sign(target - current) == 1.0;
    } else {
      assert Sign(target - current) == -1.0;
    }
  }

  /**
   * System.Math.Clamp for floats. It throws when `lo > hi`; every caller in
   * the model passes `lo <= hi`.
   */
  function Clamp(value: real, lo: real, hi: real): (r: real)
    requires lo <= hi
    ensures lo <= r <= hi
    ensures lo <= value <= hi ==> r == value
    ensures value < lo ==> r == lo
    ensures value > hi ==> r == hi
  {
    if value < lo then lo else if value > hi then hi else value
  }
}
