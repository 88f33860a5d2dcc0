// The scalar helpers the steering code calls (interpolation, remapping,
// clipping, exponential smoothing), with the library's linear definitions,
// and the C# conversion from a real to int.
module Utilities {
  import opened Vectors

  /** float.MaxValue, the start value of the running minimums. */
  const MaxFloat: real := 340282346638528859811704183484516925440.0

  /** Linear interpolation: x0 at alpha 0, x1 at alpha 1. */
  function Interpolate(alpha: real, x0: real, x1: real): real
  {
    x0 + (x1 - x0) * alpha
  }

  /** Maps x from the interval [in0, in1] linearly onto [out0, out1]. */
  function RemapInterval(x: real, in0: real, in1: real, out0: real, out1: real): real
    requires in1 != in0
  {
    Interpolate((x - in0) / (in1 - in0), out0, out1)
  }

  /** Constrains x to [min, max]. */
  function Clip(x: real, min: real, max: real): real
  {
    if x < min then min else if x > max then max else x
  }

  function MinR(a: real, b: real): real
  {
    if a < b then a else b
  }

  function MaxR(a: real, b: real): real
  {
    if a > b then a else b
  }

  /** Exponential smoothing of an accumulator toward a new value. */
  function BlendIntoAccumulator(smoothRate: real, newValue: real, accumulator: real): real
  {
    Interpolate(Clip(smoothRate, 0.0, 1.0), accumulator, newValue)
  }

  /** The vector form of Interpolate. */
  function InterpolateVec(alpha: real, v0: Vec3, v1: Vec3): Vec3
  {
    Vec3(Interpolate(alpha, v0.x, v1.x), Interpolate(alpha, v0.y, v1.y), Interpolate(alpha, v0.z, v1.z))
  }

  /** The vector form of BlendIntoAccumulator. */
  function BlendIntoAccumulatorVec(smoothRate: real, newValue: Vec3, accumulator: Vec3): Vec3
  {
    InterpolateVec(Clip(smoothRate, 0.0, 1.0), accumulator, newValue)
  }

  /** The C# `(int)` conversion of a real: truncation toward zero. */
  function Trunc(x: real): (r: int)
    ensures x >= 0.0 ==> r == x.Floor
    ensures 0.0 <= x < 1.0 ==> r == 0
  {
    if x >= 0.0 then x.Floor else -((-x).Floor)
  }

  /** The C# `%` on int: truncating division, so the remainder takes the
      sign of the dividend (Dafny's own `%` is never negative). */
  function Remainder(a: int, b: int): (r: int)
    requires b > 0
    ensures a >= 0 ==> 0 <= r < b && r == a % b
    ensures a < 0 ==> -b < r <= 0
  {
    if a >= 0 then a % b else -((-a) % b)
  }

  /** Truncation never moves away from zero, and lands within one of x. */
  lemma TruncTowardZero(x: real)
    ensures x >= 0.0 ==> 0.0 <= Trunc(x) as real <= x < Trunc(x) as real + 1.0
    ensures x < 0.0 ==> Trunc(x) as real - 1.0 < x <= Trunc(x) as real <= 0.0
  {
  }

  /** Interpolate hits its end points and stays between them for alpha in [0, 1]. */
  lemma InterpolateBetween(alpha: real, x0: real, x1: real)
    requires 0.0 <= alpha <= 1.0 && x0 <= x1
    ensures Interpolate(0.0, x0, x1) == x0 && Interpolate(1.0, x0, x1) == x1
    ensures x0 <= Interpolate(alpha, x0, x1) <= x1
  {
    var d := x1 - x0;
    assert d * alpha + d * (1.0 - alpha) == d;
    assert d * (1.0 - alpha) >= 0.0;
    assert d * alpha >= 0.0;
  }

  lemma MulLe(a: real, b: real, c: real)
    requires a <= b && c > 0.0
    ensures a * c <= b * c
  {
  }

  lemma MulLt(a: real, b: real, c: real)
    requires a < b && c > 0.0
    ensures a * c < b * c
  {
  }

  /** The fraction a / b of a positive b lies in [0, 1] for a in [0, b]. */
  lemma FractionBounds(a: real, b: real)
    requires 0.0 <= a <= b && b > 0.0
    ensures 0.0 <= a / b <= 1.0
    ensures a < b ==> a / b < 1.0
    ensures a == b ==> a / b == 1.0
    ensures a == 0.0 ==> a / b == 0.0
  {
  }

  /** Clip lands in [min, max] and leaves values already inside alone. */
  lemma ClipBounds(x: real, min: real, max: real)
    requires min <= max
    ensures min <= Clip(x, min, max) <= max
    ensures min <= x <= max ==> Clip(x, min, max) == x
  {
  }
}
