/**
  The launch-velocity solver of `Ball.Shoot`: from the ball's position, the hoop's
  position and the gravity, either a fixed time of flight or a fixed launch angle
  determines the velocity the ball is thrown with.

  The trigonometric and square-root values come from `Mathf`, which is a parameter.
  The branch structure of the angle mode and all the arithmetic around those values
  are modelled exactly (over the reals).
*/
module Projectile {
  import opened Engine

  /** The ball's shooting settings: `useTimeOfFlight`, `timeOfFlight` and `launchAngle` (degrees). */
  datatype ShotSettings = ShotSettings(useTimeOfFlight: bool, timeOfFlight: real, launchAngle: real)

  /** Where a body thrown from `start` with velocity `v` is after `t` seconds under
      downward gravity `g`. */
  function PositionAt(start: Vec2, v: Vec2, g: real, t: real): Vec2 {
    Vec2(start.x + v.x * t, start.y + v.y * t - 0.5 * g * t * t)
  }

  /** Time-of-flight mode: the velocity that covers displacement `d` in time `t`.
      Dividing by a zero `t` gives a non-finite float vector. */
  function TimeOfFlightVelocity(d: Vec2, g: real, t: real): (r: Velocity)
    ensures r.Finite? <==> t != 0.0
    ensures r.Finite? ==> r.v.x * t == d.x && r.v.y * t - 0.5 * g * t * t == d.y
  {
    if t == 0.0 then NonFinite
    else Finite(Vec2(d.x / t, (d.y + 0.5 * g * t * t) / t))
  }

  /** The denominator `2 cos^2 (x tan - y)` of the projectile range equation solved for v0^2. */
  function AngleDenominator(d: Vec2, cos: real, tan: real): real {
    2.0 * cos * cos * (d.x * tan - d.y)
  }

  /** The three arms of the angle mode: the degenerate-input fallback, the fallback
      for a negative v0^2, and the direct solution with its v0^2. */
  datatype AngleCase = Degenerate | NegativeSquare | Direct(v0Squared: real)

  function SelectAngleCase(d: Vec2, g: real, cos: real, tan: real): AngleCase {
    var denominator := AngleDenominator(d, cos, tan);
    if denominator <= 0.0 || Abs(cos) < 0.01 then Degenerate
    else
      var v0Squared := g * d.x * d.x / denominator;
      if v0Squared < 0.0 then NegativeSquare else Direct(v0Squared)
  }

  /** Speed `v0` along the launch angle. */
  function Along(v0: real, angleRad: real, math: Mathf): Velocity {
    Finite(Vec2(v0 * math.cos(angleRad), v0 * math.sin(angleRad)))
  }

  /** The symmetric-range fallback `sqrt(g |d| / sin 2θ)`. A zero `sin 2θ` divides by
      zero and a negative quotient has no square root: both give a non-finite vector. */
  function Fallback(d: Vec2, g: real, angleRad: real, math: Mathf): Velocity {
    var distance := math.sqrt(SqrMagnitude(d));
    var sin2 := math.sin(2.0 * angleRad);
    if sin2 == 0.0 then NonFinite
    else
      var quotient := g * distance / sin2;
      if quotient < 0.0 then NonFinite else Along(math.sqrt(quotient), angleRad, math)
  }

  /** Launch-angle mode. */
  function AngleVelocity(d: Vec2, g: real, launchAngle: real, math: Mathf): Velocity {
    var angleRad := launchAngle * Deg2Rad;
    match SelectAngleCase(d, g, math.cos(angleRad), math.tan(angleRad))
    case Degenerate => Fallback(d, g, angleRad, math)
    case NegativeSquare => Fallback(d, g, angleRad, math)
    case Direct(v0Squared) => Along(math.sqrt(v0Squared), angleRad, math)
  }

  /** The velocity `Ball.Shoot` gives the ball, with gravity `|gravityY|`. */
  function LaunchVelocity(start: Vec2, target: Vec2, shot: ShotSettings, gravityY: real, math: Mathf): Velocity {
    var d := Sub(target, start);
    var g := Abs(gravityY);
    if shot.useTimeOfFlight then TimeOfFlightVelocity(d, g, shot.timeOfFlight)
    else AngleVelocity(d, g, shot.launchAngle, math)
  }

  /** A time-of-flight shot with positive flight time is finite and, followed for
      that time under the same gravity, arrives exactly at the target. */
  lemma TimeOfFlightShotLands(start: Vec2, target: Vec2, shot: ShotSettings, gravityY: real, math: Mathf)
    requires shot.useTimeOfFlight && shot.timeOfFlight > 0.0
    ensures var r := LaunchVelocity(start, target, shot, gravityY, math);
      r.Finite? && PositionAt(start, r.v, Abs(gravityY), shot.timeOfFlight) == target
  {
    var d := Sub(target, start);
    var r := TimeOfFlightVelocity(d, Abs(gravityY), shot.timeOfFlight);
    assert LaunchVelocity(start, target, shot, gravityY, math) == r;
    FollowedFor(start, r.v, Abs(gravityY), shot.timeOfFlight, target);
  }

  /** A velocity that covers the displacement in time `t` reaches the target at `t`. */
  lemma FollowedFor(start: Vec2, v: Vec2, g: real, t: real, target: Vec2)
    requires v.x * t == target.x - start.x && v.y * t - 0.5 * g * t * t == target.y - start.y
    ensures PositionAt(start, v, g, t) == target
  {
  }

  /** With non-negative gravity the quotient `g x^2 / denominator` is never negative
      once the degenerate fallback is skipped, so the second fallback is dead. */
  lemma NegativeSquareUnreachable(d: Vec2, g: real, cos: real, tan: real)
    requires g >= 0.0
    ensures SelectAngleCase(d, g, cos, tan) != NegativeSquare
  {
    var denominator := AngleDenominator(d, cos, tan);
    if !(denominator <= 0.0 || Abs(cos) < 0.01) {
      assert d.x * d.x >= 0.0;
      assert g * d.x * d.x >= 0.0;
      NonNegativeQuotient(g * d.x * d.x, denominator);
    }
  }

  lemma PositiveProduct(p: real, q: real)
    requires p != 0.0 && q != 0.0 && (p > 0.0 <==> q > 0.0)
    ensures p * q > 0.0
  {
  }

  lemma NonNegativeQuotient(a: real, b: real)
    requires a >= 0.0 && b > 0.0
    ensures a / b >= 0.0
  {
  }

  /** Since `Shoot` takes `|gravity.y|`, no shot ever reaches the second fallback. */
  lemma ShotNeverTakesNegativeSquare(d: Vec2, gravityY: real, cos: real, tan: real)
    ensures SelectAngleCase(d, Abs(gravityY), cos, tan) != NegativeSquare
  {
    NegativeSquareUnreachable(d, Abs(gravityY), cos, tan);
  }

  /** The direct arm solves the range equation: thrown at speed sqrt(v0^2) along
      angle θ, the ball's trajectory `y = x tanθ - g x^2 / (2 v0^2 cos^2θ)` passes
      through the target (for a non-zero horizontal distance and positive gravity). */
  lemma DirectSpeedMeetsRangeEquation(d: Vec2, g: real, cos: real, tan: real)
    requires g > 0.0 && d.x != 0.0
    requires SelectAngleCase(d, g, cos, tan).Direct?
    ensures var v0Squared := SelectAngleCase(d, g, cos, tan).v0Squared;
      v0Squared > 0.0
      && d.x * tan - g * d.x * d.x / (2.0 * v0Squared * cos * cos) == d.y
  {
    var denominator := AngleDenominator(d, cos, tan);
    var a := g * d.x * d.x;
    assert a > 0.0 by {
      PositiveProduct(d.x, d.x);
      PositiveProduct(g * d.x, d.x);
    }
    var v0Squared := a / denominator;
    assert v0Squared * denominator == a;
    assert v0Squared > 0.0;
    var c2 := cos * cos;
    assert c2 > 0.0;
    assert 2.0 * v0Squared * c2 * (d.x * tan - d.y) == a;
    assert g * d.x * d.x / (2.0 * v0Squared * cos * cos) == d.x * tan - d.y;
  }

  /** A launch at or just past vertical: the near-vertical guard (|cos θ| < 0.01)
      sends the shot to the fallback, and with sin 2θ at or below zero the fallback
      divides by zero or takes the square root of a negative number. In float32,
      90 degrees times `Deg2Rad` rounds to an angle slightly past π/2, where cos θ
      and sin 2θ are tiny and negative, so a 90-degree shot falls in this case. */
  lemma NearVerticalLaunchIsNotFinite(d: Vec2, g: real, launchAngle: real, math: Mathf)
    requires g > 0.0 && math.sqrt(SqrMagnitude(d)) > 0.0
    requires Abs(math.cos(launchAngle * Deg2Rad)) < 0.01
    requires math.sin(2.0 * (launchAngle * Deg2Rad)) <= 0.0
    ensures AngleVelocity(d, g, launchAngle, math) == NonFinite
  {
    var angleRad := launchAngle * Deg2Rad;
    assert SelectAngleCase(d, g, math.cos(angleRad), math.tan(angleRad)) == Degenerate;
    if math.sin(2.0 * angleRad) < 0.0 {
      ObtuseFallbackIsNotFinite(d, g, angleRad, math);
    }
  }

  /** A fallback with a negative sin 2θ (a launch angle between 90 and 180 degrees)
      takes the square root of a negative number for any target at a positive
      distance under positive gravity: the velocity is not finite. */
  lemma ObtuseFallbackIsNotFinite(d: Vec2, g: real, angleRad: real, math: Mathf)
    requires g > 0.0 && math.sqrt(SqrMagnitude(d)) > 0.0
    requires math.sin(2.0 * angleRad) < 0.0
    ensures Fallback(d, g, angleRad, math) == NonFinite
  {
    var distance := math.sqrt(SqrMagnitude(d));
    PositiveProduct(g, distance);
    NegativeQuotient(g * distance, math.sin(2.0 * angleRad));
  }

  lemma NegativeQuotient(a: real, b: real)
    requires a > 0.0 && b < 0.0
    ensures a / b < 0.0
  {
  }

  /** The direct arm always yields a finite velocity. */
  lemma DirectIsFinite(d: Vec2, g: real, launchAngle: real, math: Mathf)
    requires SelectAngleCase(d, g, math.cos(launchAngle * Deg2Rad), math.tan(launchAngle * Deg2Rad)).Direct?
    ensures AngleVelocity(d, g, launchAngle, math).Finite?
  {
  }

  /** 45 degrees (cos^2 θ = 1/2, tan θ = 1) from (0,0) to (10,0) under g = 9.8 takes
      the direct arm with v0^2 = 98, i.e. v0 = sqrt(9.8 * 10). */
  lemma FortyFiveDegreeShot(cos: real)
    requires cos * cos == 0.5 && cos > 0.0
    ensures SelectAngleCase(Vec2(10.0, 0.0), 9.8, cos, 1.0) == Direct(98.0)
  {
    assert 2.0 * cos * cos == 2.0 * (cos * cos);
    assert AngleDenominator(Vec2(10.0, 0.0), cos, 1.0) == 10.0;
    SmallBelowSmallSquare(cos);
    assert Abs(cos) >= 0.01;
    assert 9.8 * 10.0 * 10.0 / 10.0 == 98.0;
  }

  lemma SmallBelowSmallSquare(x: real)
    requires x >= 0.0
    ensures x < 0.01 ==> x * x < 0.0001
  {
    if x < 0.01 {
      NonNegativeProduct(x, 0.01 - x);
      assert x * x <= x * 0.01;
    }
  }

  /** One second from (0,0) to (5,5) under g = 9.8 gives velocity (5, 9.9). */
  lemma OneSecondShot()
    ensures TimeOfFlightVelocity(Vec2(5.0, 5.0), 9.8, 1.0) == Finite(Vec2(5.0, 9.9))
  {
  }
}
