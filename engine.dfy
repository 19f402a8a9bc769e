/**
  The parts of the Unity engine that the gameplay scripts read or write, reduced
  to plain values and fields.

  Engine `float` arithmetic is idealised as Dafny `real`: there is no rounding and
  no overflow. The one place where the scripts can produce a NaN or an infinite
  value, the ball's launch velocity, uses `Velocity`, which says so explicitly.
*/
module Engine {

  datatype Vec2 = Vec2(x: real, y: real)
  datatype Vec3 = Vec3(x: real, y: real, z: real)

  const Zero2: Vec2 := Vec2(0.0, 0.0)
  const Zero3: Vec3 := Vec3(0.0, 0.0, 0.0)

  function Add(a: Vec2, b: Vec2): Vec2 { Vec2(a.x + b.x, a.y + b.y) }
  function Sub(a: Vec2, b: Vec2): Vec2 { Vec2(a.x - b.x, a.y - b.y) }
  function Scale(a: Vec2, k: real): Vec2 { Vec2(a.x * k, a.y * k) }
  function Dot(a: Vec2, b: Vec2): real { a.x * b.x + a.y * b.y }
  function SqrMagnitude(a: Vec2): real { Dot(a, a) }

  /** A rigid body's `linearVelocity` as a float vector: either finite, or with a
      NaN or infinite component (the result of a float division by zero or of the
      square root of a negative number). */
  datatype Velocity = Finite(v: Vec2) | NonFinite

  /** Mathf.Abs */
  function Abs(x: real): (r: real)
    ensures r >= 0.0
    ensures r == x || r == -x
  {
    if x < 0.0 then -x else x
  }

  /** Mathf.Clamp: the minimum is tested first, so when the bounds are the wrong way
      round a value below `min` gives `min` and any other value gives `max`. */
  function Clamp(value: real, min: real, max: real): (r: real)
    ensures min <= max ==> min <= r <= max
    ensures min <= value <= max ==> r == value
    ensures value < min ==> r == min
    ensures min <= max && value > max ==> r == max
    ensures max < min ==> r == (if value < min then min else max)
  {
    if value < min then min else if value > max then max else value
  }

  /** Mathf.Sqrt, Mathf.Sin, Mathf.Cos and Mathf.Tan. Their values are floating-point
      approximations computed outside the scripts, so they are parameters. */
  datatype Mathf = Mathf(sqrt: real -> real, sin: real -> real, cos: real -> real, tan: real -> real)

  /** Mathf.Deg2Rad, as a decimal rounding of pi / 180. */
  const Deg2Rad: real := 0.0174532924

  /** `sqrt` is an exact square root at `a`. */
  predicate ExactSqrtAt(sqrt: real -> real, a: real) {
    sqrt(a) >= 0.0 && sqrt(a) * sqrt(a) == a
  }

  /** Vector2.MoveTowards: step from `current` towards `target` by at most
      `maxDistanceDelta`, landing on `target` when it is that close. With an exact
      square root `dist` is positive whenever `sqDist` is; the `dist == 0.0` arm only
      keeps the division defined for an arbitrary `sqrt`. */
  function MoveTowards(current: Vec2, target: Vec2, maxDistanceDelta: real, sqrt: real -> real): Vec2 {
    var toVector := Sub(target, current);
    var sqDist := SqrMagnitude(toVector);
    if sqDist == 0.0 || (maxDistanceDelta >= 0.0 && sqDist <= maxDistanceDelta * maxDistanceDelta) then
      target
    else
      var dist := sqrt(sqDist);
      if dist == 0.0 then target else Add(current, Scale(toVector, maxDistanceDelta / dist))
  }

  /** Moving towards zero by a non-negative step never overshoots: the result lies
      on the segment from `current` to the origin, and it is at most
      `maxDistanceDelta` away from `current`. Within one step it lands on zero;
      otherwise it moves exactly one step. */
  lemma MoveTowardsZeroBounded(current: Vec2, maxDistanceDelta: real, sqrt: real -> real)
    requires maxDistanceDelta >= 0.0
    requires ExactSqrtAt(sqrt, SqrMagnitude(current))
    ensures var r := MoveTowards(current, Zero2, maxDistanceDelta, sqrt);
      SqrMagnitude(Sub(current, r)) <= maxDistanceDelta * maxDistanceDelta
      && current.x * r.y == current.y * r.x
      && 0.0 <= Dot(r, current) <= Dot(current, current)
    ensures SqrMagnitude(current) <= maxDistanceDelta * maxDistanceDelta ==>
      MoveTowards(current, Zero2, maxDistanceDelta, sqrt) == Zero2
    ensures SqrMagnitude(current) > maxDistanceDelta * maxDistanceDelta ==>
      SqrMagnitude(Sub(current, MoveTowards(current, Zero2, maxDistanceDelta, sqrt))) == maxDistanceDelta * maxDistanceDelta
  {
    var c, d := current, maxDistanceDelta;
    var sq := SqrMagnitude(c);
    var toVector := Sub(Zero2, c);
    assert toVector == Scale(c, -1.0);
    ScaledMagnitude(c, -1.0);
    var r := MoveTowards(c, Zero2, d, sqrt);
    if sq == 0.0 || sq <= d * d {
      assert r == Zero2;
      assert Sub(c, r) == c;
    } else {
      var dist := sqrt(sq);
      StepFraction(sq, d, dist);
      var k := d / dist;
      assert r == Add(c, Scale(toVector, k));
      ShrinkToward(c, k);
      ScaledMagnitude(c, k);
      ScaledMagnitude(c, 1.0 - k);
    }
  }

  /** When `sq` exceeds `d * d`, the step `d / sqrt(sq)` is a fraction below one
      whose square scales `sq` down to `d * d`. */
  lemma StepFraction(sq: real, d: real, dist: real)
    requires d >= 0.0 && sq > d * d
    requires dist >= 0.0 && dist * dist == sq
    ensures dist > 0.0
    ensures 0.0 <= d / dist < 1.0
    ensures (d / dist) * (d / dist) * sq == d * d
  {
    var k := d / dist;
    assert k * dist == d;
    calc {
      k * k * sq;
      == k * k * (dist * dist);
      == (k * dist) * (k * dist);
      == d * d;
    }
  }

  lemma ShrinkToward(c: Vec2, k: real)
    ensures Add(c, Scale(Scale(c, -1.0), k)) == Scale(c, 1.0 - k)
    ensures Sub(c, Scale(c, 1.0 - k)) == Scale(c, k)
  {
  }

  lemma ScaledMagnitude(c: Vec2, k: real)
    ensures SqrMagnitude(Scale(c, k)) == k * k * SqrMagnitude(c)
    ensures Dot(Scale(c, k), c) == k * SqrMagnitude(c)
    ensures c.x * Scale(c, k).y == c.y * Scale(c, k).x
  {
  }

  lemma NonNegativeProduct(p: real, q: real)
    requires p >= 0.0 && q >= 0.0
    ensures p * q >= 0.0
  {
  }

  /** Transform.position, restricted to the plane of the game. */
  class Transform {
    var position: Vec2
  }

  /** The part of a player's Rigidbody2D the scripts use. */
  class Rigidbody2D {
    var linearVelocity: Vec2
  }

  /** A UI RectTransform: `sizeDelta`, `localPosition` and `rect.height` (the height
      is computed by the layout engine and only read by the scripts). */
  class RectTransform {
    var sizeDelta: Vec2
    var localPosition: Vec3
    var rectHeight: real
  }

  /** A UI Slider and whether its game object is active. */
  class Slider {
    var value: real
    var minValue: real
    var maxValue: real
    var active: bool
  }

  /** A BoxCollider2D, identified by reference only. */
  class Collider2D {
  }
}
