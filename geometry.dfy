/**
 * Vectors, integer rectangles, the C# `(int)` cast, the MathHelper angle
 * constants and the turn-toward-a-target step shared by the enemies.
 *
 * Trigonometry, vector length and normalisation are not modelled: every
 * operation that uses them takes a `Trig` value whose functions may be any
 * total functions, so what is proved holds whatever they compute.
 */
module Geometry {

  /** XNA `Vector2`, with reals in place of 32-bit floats. */
  datatype Vec = Vec(x: real, y: real)

  const Zero: Vec := Vec(0.0, 0.0)

  function Add(a: Vec, b: Vec): Vec { Vec(a.x + b.x, a.y + b.y) }

  function Sub(a: Vec, b: Vec): Vec { Vec(a.x - b.x, a.y - b.y) }

  function Scale(a: Vec, k: real): Vec { Vec(a.x * k, a.y * k) }

  /** Moving by `v` for `a` seconds and then for `b` seconds is moving for `a + b`. */
  lemma AddScaleSum(p: Vec, v: Vec, a: real, b: real)
    ensures Add(Add(p, Scale(v, a)), Scale(v, b)) == Add(p, Scale(v, a + b))
  {
    assert v.x * (a + b) == v.x * a + v.x * b;
    assert v.y * (a + b) == v.y * a + v.y * b;
  }

  /** The total of a sequence of elapsed times. */
  function Sum(dts: seq<real>): real
    decreases |dts|
  {
    if dts == [] then 0.0 else dts[0] + Sum(dts[1..])
  }

  /** C# integer division by two, which truncates toward zero. */
  function HalfTowardZero(n: int): (h: int)
    ensures n >= 0 ==> 0 <= 2 * h <= n < 2 * h + 2
    ensures n < 0 ==> 2 * h - 2 < n <= 2 * h <= 0
  {
    if n >= 0 then n / 2 else -((-n) / 2)
  }

  /** The uninterpreted numeric library: `Math.Atan2`, `Math.Cos`, `Math.Sin`,
      `Vector2.Length` and `Vector2.Normalize`. */
  datatype Trig = Trig(
    atan2: (real, real) -> real,
    cos: real -> real,
    sin: real -> real,
    length: Vec -> real,
    normalize: Vec -> Vec)

  /** XNA `Rectangle`: integer origin and size. */
  datatype Rect = Rect(x: int, y: int, width: int, height: int)

  /** `Rectangle.Intersects`: the open interiors overlap. */
  predicate Intersects(a: Rect, b: Rect) {
    b.x < a.x + a.width && a.x < b.x + b.width &&
    b.y < a.y + a.height && a.y < b.y + b.height
  }

  /** The C# conversion `(int)r` of a float: truncation toward zero. */
  function Trunc(r: real): (n: int)
    ensures r >= 0.0 ==> n as real <= r < n as real + 1.0
    ensures r < 0.0 ==> n as real - 1.0 < r <= n as real
  {
    if r >= 0.0 then r.Floor else -((-r).Floor)
  }

  /** `Math.Ceiling`. */
  function Ceiling(r: real): (n: int)
    ensures n as real - 1.0 < r <= n as real
  {
    -((-r).Floor)
  }

  /** `Math.Max` of two ints. */
  function Max(a: int, b: int): int { if a >= b then a else b }

  function Abs(r: real): real { if r < 0.0 then -r else r }

  /** `Math.Sign` of a float. */
  function Sign(r: real): int { if r > 0.0 then 1 else if r < 0.0 then -1 else 0 }

  /** `MathHelper.Pi`, `TwoPi` and `PiOver2`: the exact values of the floats. */
  const Pi: real := 3.1415927410125732421875
  const TwoPi: real := 6.283185482025146484375
  const PiOver2: real := 1.57079637050628662109375

  /** `MathHelper.WrapAngle`: the angle congruent to `a` modulo TwoPi in (-Pi, Pi]. */
  function WrapAngle(a: real): (r: real)
    ensures -Pi < r <= Pi
    ensures -Pi < a <= Pi ==> r == a
  {
    var turns := Ceiling((a - Pi) / TwoPi);
    a - TwoPi * turns as real
  }

  /** A whole number of full turns. */
  function Turns(k: int): real { TwoPi * k as real }

  /** Two angles that differ by a whole number of full turns. */
  ghost predicate SameAngle(a: real, b: real) {
    exists k: int :: a - b == Turns(k)
  }

  lemma WrapAngleSameAngle(a: real)
    ensures SameAngle(WrapAngle(a), a)
  {
    var k := -Ceiling((a - Pi) / TwoPi);
    assert WrapAngle(a) - a == Turns(k);
  }

  /** The rate-limited turn of Kezia and Joel: snap to `target` when the
      wrapped difference `diff` is within `maxChange`, otherwise move by
      `maxChange` in the direction of `diff`. */
  function TurnToward(rotation: real, target: real, diff: real, maxChange: real): real {
    if Abs(diff) <= maxChange then target
    else rotation + Sign(diff) as real * maxChange
  }

  /** A turn never overshoots: given a wrapped difference to the target, a
      turn either lands on the target, or moves by exactly `maxChange` toward
      it and leaves a remaining difference, in the same direction, that is
      `maxChange` smaller and still names the same angle to the target. */
  lemma TurnApproaches(rotation: real, target: real, diff: real, maxChange: real)
    requires maxChange >= 0.0
    requires SameAngle(diff, target - rotation)
    ensures Abs(diff) <= maxChange ==> TurnToward(rotation, target, diff, maxChange) == target
    ensures Abs(diff) > maxChange ==>
      var r := TurnToward(rotation, target, diff, maxChange);
      var rest := diff - (r - rotation);
      Abs(r - rotation) == maxChange &&
      Abs(rest) == Abs(diff) - maxChange && Sign(rest) == Sign(diff) &&
      SameAngle(rest, target - r)
  {
    if Abs(diff) > maxChange {
      var r := TurnToward(rotation, target, diff, maxChange);
      var rest := diff - (r - rotation);
      var k: int :| diff - (target - rotation) == Turns(k);
      assert rest - (target - r) == Turns(k);
    }
  }
}
