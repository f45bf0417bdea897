/** The moving ball of src/Ball.ts: a circle whose position and speed the
    per-tick physics and the wall bounce update in place.

    What one step does to a ball is stated once, as a function on the value
    `BallState`; the methods of the class `Ball` are proved to apply exactly
    that function to the ball's fields. */
module Balls {
  import opened GameConfig

  /** The five fields of a ball, as a value. */
  datatype BallState = BallState(radius: real, positionX: real, positionY: real, speedX: real, speedY: real)

  function Abs(r: real): real { if r < 0.0 then -r else r }

  // ---------------------------------------------------------------------
  // Gravity integration

  /** One tick of `applyPhysics` (time step 1): the vertical speed loses
      GRAVITY first, and the new vertical speed plus half of GRAVITY is then
      added to the height. */
  function Physics(s: BallState): (r: BallState)
    ensures r.radius == s.radius && r.speedX == s.speedX
    ensures r.speedY == s.speedY - GRAVITY
    ensures r.positionX == s.positionX + s.speedX
    // net vertical displacement, in terms of the speed before the tick
    ensures r.positionY == s.positionY + s.speedY - 0.5 * GRAVITY
  {
    var speedY := s.speedY - GRAVITY;
    s.(positionX := s.positionX + s.speedX,
       positionY := s.positionY + speedY + 0.5 * GRAVITY,
       speedY := speedY)
  }

  /** `n` ticks of physics in a row. */
  function PhysicsN(s: BallState, n: nat): BallState
  {
    if n == 0 then s else Physics(PhysicsN(s, n - 1))
  }

  /** After `n` ticks the ball is exactly where uniform acceleration puts it:
      x = x0 + n*vx and y = y0 + n*vy - GRAVITY*n*n/2, with vertical speed
      vy - n*GRAVITY. The half-GRAVITY correction in `applyPhysics` is what
      makes the step exact at whole ticks. */
  lemma {:induction false} PhysicsClosedForm(s: BallState, n: nat)
    ensures var m := n as real;
      PhysicsN(s, n) == BallState(s.radius,
                                  s.positionX + m * s.speedX,
                                  s.positionY + m * s.speedY - GRAVITY * m * m / 2.0,
                                  s.speedX,
                                  s.speedY - m * GRAVITY)
  {
    if n > 0 {
      PhysicsClosedForm(s, n - 1);
      var m := (n - 1) as real;
      assert (m + 1.0) * (m + 1.0) == m * m + 2.0 * m + 1.0;
      assert (m + 1.0) * s.speedX == m * s.speedX + s.speedX;
      assert (m + 1.0) * s.speedY == m * s.speedY + s.speedY;
      assert GRAVITY * (m + 1.0) * (m + 1.0) == GRAVITY * m * m + 2.0 * m * GRAVITY + GRAVITY;
    }
  }

  // ---------------------------------------------------------------------
  // Bouncing off the walls

  /** The left-wall test of `bounceToWalls`: note that the speed is compared
      with the `left` argument. */
  predicate HitsLeft(s: BallState, left: real)
  {
    s.positionX <= s.radius && s.speedX < left
  }

  predicate HitsRight(s: BallState, right: real)
  {
    s.positionX >= right - s.radius && s.speedX > 0.0
  }

  predicate HitsBottom(s: BallState, lower: real)
  {
    s.positionY <= s.radius && s.speedY < lower
  }

  /** `bounceToWalls`: the left test, then the right test on the speed the
      left test left behind, then the bottom test. There is no ceiling. */
  function Bounce(s: BallState, left: real, right: real, lower: real): (r: BallState)
    ensures r.radius == s.radius && r.positionX == s.positionX && r.positionY == s.positionY
    ensures Abs(r.speedX) == Abs(s.speedX) && Abs(r.speedY) == Abs(s.speedY)
    ensures r.speedY == (if HitsBottom(s, lower) then -s.speedY else s.speedY)
  {
    var afterLeft := if HitsLeft(s, left) then s.(speedX := -s.speedX) else s;
    var afterRight := if HitsRight(afterLeft, right) then afterLeft.(speedX := -afterLeft.speedX) else afterLeft;
    if HitsBottom(afterRight, lower) then afterRight.(speedY := -afterRight.speedY) else afterRight
  }

  /** On a wall distance wider than the ball, with the game's arguments
      (`left` and `lower` at most 0), the left and right tests never both
      fire, so the horizontal speed flips exactly when one of them holds. */
  lemma BounceFlipsAtMostOnce(s: BallState, left: real, right: real, lower: real)
    requires left <= 0.0 && right > 2.0 * s.radius
    ensures !(HitsLeft(s, left) && HitsRight(s, right))
    ensures Bounce(s, left, right, lower).speedX
            == if HitsLeft(s, left) || HitsRight(s, right) then -s.speedX else s.speedX
  {
  }

  /** With the same arguments a second bounce right after the first one
      changes nothing: a reflected ball is already moving away from the wall. */
  lemma BounceIdempotent(s: BallState, left: real, right: real, lower: real)
    requires left <= 0.0 && lower <= 0.0 && right > 2.0 * s.radius
    ensures var once := Bounce(s, left, right, lower);
      Bounce(once, left, right, lower) == once
  {
    var once := Bounce(s, left, right, lower);
    BounceFlipsAtMostOnce(s, left, right, lower);
    assert !HitsLeft(once, left) && !HitsRight(once, right) && !HitsBottom(once, lower);
  }

  /** With a positive `left` the left test is not idempotent: a ball slowly
      moving right near the left wall is flipped back and forth. */
  lemma BounceWithPositiveLeftOscillates()
    ensures var s := BallState(10.0, 5.0, 50.0, 1.0, 0.0);
      Bounce(s, 2.0, 800.0, 0.0).speedX == -1.0 &&
      Bounce(Bounce(s, 2.0, 800.0, 0.0), 2.0, 800.0, 0.0).speedX == 1.0
  {
  }

  /** A ball of radius 10 at (5, 50) moving left bounces at the left wall,
      and does not bounce again when tested once more. */
  lemma BounceAtLeftWallExample(speedX: real)
    requires speedX < 0.0
    ensures var s := BallState(10.0, 5.0, 50.0, speedX, 0.0);
      Bounce(s, 0.0, 800.0, 0.0).speedX == -speedX &&
      Bounce(Bounce(s, 0.0, 800.0, 0.0), 0.0, 800.0, 0.0) == Bounce(s, 0.0, 800.0, 0.0)
  {
  }

  // ---------------------------------------------------------------------
  // Circle overlap

  function DistanceSquared(s: BallState, centerX: real, centerY: real): real
  {
    (centerX - s.positionX) * (centerX - s.positionX) + (centerY - s.positionY) * (centerY - s.positionY)
  }

  /** `overlapsWithCircle`: the distance between the centres is at most the sum
      of the radii. As the distance is sqrt(DistanceSquared) >= 0, that is
      the sum being non-negative and its square bounding DistanceSquared. */
  predicate Overlaps(s: BallState, centerX: real, centerY: real, radius: real)
  {
    var sum := s.radius + radius;
    0.0 <= sum && DistanceSquared(s, centerX, centerY) <= sum * sum
  }

  lemma SquareMonotone(a: real, b: real)
    requires 0.0 <= a && 0.0 <= b
    ensures a <= b <==> a * a <= b * b
  {
    var lo, hi := if a <= b then a else b, if a <= b then b else a;
    var d := hi - lo;
    assert hi * hi == lo * lo + 2.0 * lo * d + d * d;
    assert 0.0 <= lo * d;
    if d > 0.0 {
      assert 0.0 < d * d;
    }
  }

  /** The squared form agrees with the source's test for every distance
      that is the square root of the squared distance. */
  lemma OverlapsIffWithinRadiusSum(s: BallState, centerX: real, centerY: real, radius: real, distance: real)
    requires 0.0 <= distance && distance * distance == DistanceSquared(s, centerX, centerY)
    ensures Overlaps(s, centerX, centerY, radius) <==> distance <= s.radius + radius
  {
    var sum := s.radius + radius;
    if 0.0 <= sum {
      SquareMonotone(distance, sum);
    }
  }

  /** Overlap of two balls does not depend on which one asks. */
  lemma OverlapsSymmetric(a: BallState, b: BallState)
    ensures Overlaps(a, b.positionX, b.positionY, b.radius) == Overlaps(b, a.positionX, a.positionY, a.radius)
  {
    assert DistanceSquared(a, b.positionX, b.positionY) == DistanceSquared(b, a.positionX, a.positionY);
  }

  /** Circles whose centres are on one horizontal line, in left-to-right
      order, overlap exactly when the gap between the centres is at most the
      sum of the radii. */
  lemma OverlapsOnHorizontalLine(s: BallState, centerX: real, radius: real)
    requires s.positionX <= centerX
    ensures Overlaps(s, centerX, s.positionY, radius) <==> centerX - s.positionX <= s.radius + radius
  {
    if 0.0 <= s.radius + radius {
      SquareMonotone(centerX - s.positionX, s.radius + radius);
    }
  }

  // ---------------------------------------------------------------------
  // The mutable ball

  class Ball {
    var radius: real
    var positionX: real
    var positionY: real
    var speedX: real
    var speedY: real

    constructor (radius: real, positionX: real, positionY: real, speedX: real, speedY: real)
      ensures State() == BallState(radius, positionX, positionY, speedX, speedY)
    {
      this.radius := radius;
      this.positionX := positionX;
      this.positionY := positionY;
      this.speedX := speedX;
      this.speedY := speedY;
    }

    function State(): BallState
      reads this
    {
      BallState(radius, positionX, positionY, speedX, speedY)
    }

    method ApplyPhysics()
      modifies this
      ensures State() == Physics(old(State()))
    {
      speedY := speedY - GRAVITY;
      positionX := positionX + speedX;
      positionY := positionY + speedY + 0.5 * GRAVITY;
    }

    method BounceToWalls(left: real, right: real, lower: real)
      modifies this
      ensures State() == Bounce(old(State()), left, right, lower)
    {
      if positionX <= radius && speedX < left {
        speedX := -speedX;
      }
      if positionX >= right - radius && speedX > 0.0 {
        speedX := -speedX;
      }
      if positionY <= radius && speedY < lower {
        speedY := -speedY;
      }
    }

    predicate OverlapsWithCircle(centerX: real, centerY: real, radius: real)
      reads this
    {
      Overlaps(State(), centerX, centerY, radius)
    }
  }
}
