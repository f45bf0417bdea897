/** The player of src/Player.ts: three balls, a left hand, a body and a
    right hand, side by side on the floor.

    The balls' own `moveLeft`, `moveRight` and `overlapsWith` are not part of
    the ball class this model has. A move of the player is modelled by the
    calls it forwards to its three balls, and ball-to-ball overlap by
    `overlapsWithCircle` on the other ball's centre and radius. */
module Players {
  import opened GameConfig
  import opened Balls

  datatype Part = LeftHand | Body | RightHand

  /** One forwarded `moveLeft`/`moveRight` call: which ball, how far, up to which limit. */
  datatype MoveCall = MoveCall(part: Part, step: real, limit: real)

  /** The shape the constructor gives the player: the body of radius
      PLAYER_BALL_RADIUS, a hand of radius `handRadius` on each side, its centre
      the two radii away from the body's centre, all three at one height. */
  predicate InFormation(leftHand: BallState, body: BallState, rightHand: BallState, handRadius: real)
  {
    && body.radius == PLAYER_BALL_RADIUS
    && leftHand.radius == handRadius && rightHand.radius == handRadius
    && leftHand.positionY == body.positionY && rightHand.positionY == body.positionY
    && leftHand.positionX == body.positionX - PLAYER_BALL_RADIUS - handRadius
    && rightHand.positionX == body.positionX + PLAYER_BALL_RADIUS + handRadius
  }

  function LeftEdge(s: BallState): real { s.positionX - s.radius }

  function RightEdge(s: BallState): real { s.positionX + s.radius }

  function PartState(part: Part, leftHand: BallState, body: BallState, rightHand: BallState): BallState
  {
    match part
    case LeftHand => leftHand
    case Body => body
    case RightHand => rightHand
  }

  /** The calls `moveLeft(step, limit)` makes, in order. */
  function MoveLeftCalls(step: real, limit: real, handRadius: real): seq<MoveCall>
  {
    [MoveCall(LeftHand, step, limit),
     MoveCall(Body, step, limit + 2.0 * handRadius),
     MoveCall(RightHand, step, limit + 2.0 * handRadius + 2.0 * PLAYER_BALL_RADIUS)]
  }

  /** The calls `moveRight(step, limit)` makes, in order. */
  function MoveRightCalls(step: real, limit: real, handRadius: real): seq<MoveCall>
  {
    [MoveCall(RightHand, step, limit),
     MoveCall(Body, step, limit - 2.0 * handRadius),
     MoveCall(LeftHand, step, limit - 2.0 * handRadius - 2.0 * PLAYER_BALL_RADIUS)]
  }

  /** Moving left forwards the same step to every ball, once each, outermost
      ball first, and each ball's limit lies as far beyond `limit` as that
      ball's left edge lies beyond the left hand's: the three limits are
      reached at the same moment and the formation stays intact. */
  lemma MoveLeftLimitsFollowLeftEdges(leftHand: BallState, body: BallState, rightHand: BallState,
                                      handRadius: real, step: real, limit: real)
    requires InFormation(leftHand, body, rightHand, handRadius)
    ensures var calls := MoveLeftCalls(step, limit, handRadius);
      && |calls| == 3 && calls[0].part == LeftHand
      && {calls[0].part, calls[1].part, calls[2].part} == {LeftHand, Body, RightHand}
      && forall i :: 0 <= i < 3 ==>
           calls[i].step == step &&
           calls[i].limit - limit
             == LeftEdge(PartState(calls[i].part, leftHand, body, rightHand)) - LeftEdge(leftHand)
  {
  }

  /** The mirror image for moving right, measured on right edges from the
      right hand. */
  lemma MoveRightLimitsFollowRightEdges(leftHand: BallState, body: BallState, rightHand: BallState,
                                        handRadius: real, step: real, limit: real)
    requires InFormation(leftHand, body, rightHand, handRadius)
    ensures var calls := MoveRightCalls(step, limit, handRadius);
      && |calls| == 3 && calls[0].part == RightHand
      && {calls[0].part, calls[1].part, calls[2].part} == {LeftHand, Body, RightHand}
      && forall i :: 0 <= i < 3 ==>
           calls[i].step == step &&
           calls[i].limit - limit
             == RightEdge(PartState(calls[i].part, leftHand, body, rightHand)) - RightEdge(rightHand)
  {
  }

  /** In formation each hand touches the body exactly: the centres are the
      sum of the radii apart, so `overlapsWithCircle` (a `<=` test) holds
      between each hand and the body, and the hands sit symmetrically. */
  lemma FormationHandsTouchBody(leftHand: BallState, body: BallState, rightHand: BallState, handRadius: real)
    requires InFormation(leftHand, body, rightHand, handRadius) && 0.0 <= handRadius
    ensures DistanceSquared(leftHand, body.positionX, body.positionY)
            == (PLAYER_BALL_RADIUS + handRadius) * (PLAYER_BALL_RADIUS + handRadius)
    ensures Overlaps(leftHand, body.positionX, body.positionY, body.radius)
    ensures Overlaps(rightHand, body.positionX, body.positionY, body.radius)
    ensures body.positionX - leftHand.positionX == rightHand.positionX - body.positionX
  {
    OverlapsOnHorizontalLine(leftHand, body.positionX, body.radius);
    OverlapsOnHorizontalLine(body, rightHand.positionX, rightHand.radius);
    OverlapsSymmetric(rightHand, body);
  }

  class Player {
    const handRadius: real
    const leftHand: Ball
    const body: Ball
    const rightHand: Ball

    ghost predicate Valid()
    {
      leftHand != body && body != rightHand && leftHand != rightHand
    }

    /** The constructor of src/Player.ts; `handRadius` stands for the game's
        PLAYER_HAND_RADIUS. */
    constructor (x: real, handRadius: real)
      ensures Valid() && fresh(leftHand) && fresh(body) && fresh(rightHand)
      ensures this.handRadius == handRadius
      ensures body.State() == BallState(PLAYER_BALL_RADIUS, x, PLAYER_BALL_RADIUS, 0.0, 0.0)
      ensures InFormation(leftHand.State(), body.State(), rightHand.State(), handRadius)
      ensures leftHand.speedX == 0.0 && leftHand.speedY == 0.0
      ensures rightHand.speedX == 0.0 && rightHand.speedY == 0.0
    {
      this.handRadius := handRadius;
      body := new Ball(PLAYER_BALL_RADIUS, x, PLAYER_BALL_RADIUS, 0.0, 0.0);
      leftHand := new Ball(handRadius, x - PLAYER_BALL_RADIUS - handRadius, PLAYER_BALL_RADIUS, 0.0, 0.0);
      rightHand := new Ball(handRadius, x + PLAYER_BALL_RADIUS + handRadius, PLAYER_BALL_RADIUS, 0.0, 0.0);
    }

    /** A ball is caught when it touches either hand, seen from the ball as
        well as from the hand. */
    predicate IsCaught(ball: Ball)
      reads this, leftHand, rightHand, ball
      ensures IsCaught(ball) <==>
        || Overlaps(ball.State(), leftHand.positionX, leftHand.positionY, leftHand.radius)
        || Overlaps(ball.State(), rightHand.positionX, rightHand.positionY, rightHand.radius)
    {
      OverlapsSymmetric(leftHand.State(), ball.State());
      OverlapsSymmetric(rightHand.State(), ball.State());
      leftHand.OverlapsWithCircle(ball.positionX, ball.positionY, ball.radius)
      || rightHand.OverlapsWithCircle(ball.positionX, ball.positionY, ball.radius)
    }

    /** A ball hits the player when it touches the body; the hands play no part. */
    predicate IsHit(ball: Ball)
      reads this, body, ball
      ensures IsHit(ball) <==> Overlaps(ball.State(), body.positionX, body.positionY, body.radius)
    {
      OverlapsSymmetric(body.State(), ball.State());
      body.OverlapsWithCircle(ball.positionX, ball.positionY, ball.radius)
    }
  }
}
