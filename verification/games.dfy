/** The per-tick world update of src/Game.ts: a list of balls and a player
    ball on a canvas of a given size. The canvas size is a parameter, and
    every `Math.random()` the game draws is a parameter in [0, 1). */
module Games {
  import opened GameConfig
  import opened Balls

  /** The five random numbers `spawnBall` draws, in the order it draws them. */
  datatype Draws = Draws(radius: Unit, positionX: Unit, positionY: Unit, speedX: Unit, speedY: Unit)

  /** `spawnBall`: the ball a given set of draws produces. */
  function SpawnState(width: real, height: real, d: Draws): (r: BallState)
    ensures MIN_BALL_RADIUS <= r.radius < MIN_BALL_RADIUS + BALL_RADIUS_SCATTER
    ensures width > 2.0 * r.radius ==> r.radius <= r.positionX < width - r.radius
    ensures height > 0.0 ==> (1.0 - BALL_Y_POSITION_AREA) * height <= r.positionY < height
    ensures MIN_BALL_X_SPEED <= r.speedX < MIN_BALL_X_SPEED + BALL_X_SPEED_SCATTER
    ensures r.speedY == 0.0
  {
    var radius := MIN_BALL_RADIUS + BALL_RADIUS_SCATTER * d.radius;
    var room := width - 2.0 * radius;
    assert room > 0.0 ==> room * d.positionX < room;
    assert height > 0.0 ==> height * BALL_Y_POSITION_AREA * d.positionY < height * BALL_Y_POSITION_AREA;
    BallState(radius,
              radius + room * d.positionX,
              height * (1.0 - BALL_Y_POSITION_AREA) + height * BALL_Y_POSITION_AREA * d.positionY,
              MIN_BALL_X_SPEED + BALL_X_SPEED_SCATTER * d.speedX,
              MIN_BALL_Y_SPEED + BALL_Y_SPEED_SCATTER * d.speedY)
  }

  lemma FractionBelowOne(a: real, b: real)
    requires 0.0 <= a < b
    ensures 0.0 <= a / b < 1.0
  {
    assert (a / b) * b == a;
  }

  /** Conversely, every ball inside those ranges is spawned by some draws:
      the ranges are exactly the ones `spawnBall` covers. */
  lemma SpawnCoversRanges(width: real, height: real, target: BallState)
    requires MIN_BALL_RADIUS <= target.radius < MIN_BALL_RADIUS + BALL_RADIUS_SCATTER
    requires width > 2.0 * target.radius && target.radius <= target.positionX < width - target.radius
    requires height > 0.0 && (1.0 - BALL_Y_POSITION_AREA) * height <= target.positionY < height
    requires MIN_BALL_X_SPEED <= target.speedX < MIN_BALL_X_SPEED + BALL_X_SPEED_SCATTER
    requires target.speedY == 0.0
    ensures exists d: Draws :: SpawnState(width, height, d) == target
  {
    var room := width - 2.0 * target.radius;
    var band := height * BALL_Y_POSITION_AREA;
    var ur: Unit := (target.radius - MIN_BALL_RADIUS) / BALL_RADIUS_SCATTER;
    FractionBelowOne(target.positionX - target.radius, room);
    var ux: Unit := (target.positionX - target.radius) / room;
    assert target.positionY - (1.0 - BALL_Y_POSITION_AREA) * height < band;
    var uy: Unit := (target.positionY - (1.0 - BALL_Y_POSITION_AREA) * height) / band;
    var usx: Unit := (target.speedX - MIN_BALL_X_SPEED) / BALL_X_SPEED_SCATTER;
    var d := Draws(ur, ux, uy, usx, 0.0);
    assert room * ux == target.positionX - target.radius;
    assert band * uy == target.positionY - (1.0 - BALL_Y_POSITION_AREA) * height;
    assert SpawnState(width, height, d) == target;
  }

  // ---------------------------------------------------------------------
  // One tick on the list of balls, as values

  /** `move`: physics once on every ball, in place. */
  function MoveAll(balls: seq<BallState>): (r: seq<BallState>)
  {
    seq(|balls|, i requires 0 <= i < |balls| => Physics(balls[i]))
  }

  /** `collide`: every ball bounces off the walls of a canvas `width` wide. */
  function CollideAll(width: real, balls: seq<BallState>): (r: seq<BallState>)
  {
    seq(|balls|, i requires 0 <= i < |balls| => Bounce(balls[i], 0.0, width, 0.0))
  }

  /** `adjust`: the `reduce` over the balls with `prev || overlaps`, from the
      left, starting from `acc`. True exactly when `acc` is, or the player
      overlaps some ball. */
  function OverlapReduce(player: BallState, balls: seq<BallState>, acc: bool): (r: bool)
    ensures r <==> acc || exists i :: 0 <= i < |balls| && Overlaps(player, balls[i].positionX, balls[i].positionY, balls[i].radius)
    decreases |balls|
  {
    if balls == [] then acc
    else
      var rest := balls[1..];
      assert forall i :: 0 <= i < |rest| ==> rest[i] == balls[i + 1];
      OverlapReduce(player, rest, acc || Overlaps(player, balls[0].positionX, balls[0].positionY, balls[0].radius))
  }

  /** `n` ticks of `move` in a row. */
  function MoveAllN(balls: seq<BallState>, n: nat): seq<BallState>
  {
    if n == 0 then balls else MoveAll(MoveAllN(balls, n - 1))
  }

  /** `n` ticks of `move` keep the list's length and order and put every
      ball exactly `n` physics steps further; with the closed form of
      `PhysicsClosedForm` that is uniform acceleration for each ball. */
  lemma {:induction false} MoveAllNIsPhysicsNOnEach(balls: seq<BallState>, n: nat)
    ensures |MoveAllN(balls, n)| == |balls|
    ensures forall i :: 0 <= i < |balls| ==> MoveAllN(balls, n)[i] == PhysicsN(balls[i], n)
  {
    if n > 0 {
      MoveAllNIsPhysicsNOnEach(balls, n - 1);
    }
  }

  /** Collision only reflects speeds: radii and positions stay put. */
  lemma CollideAllKeepsPositions(width: real, balls: seq<BallState>)
    ensures |CollideAll(width, balls)| == |balls|
    ensures forall i :: 0 <= i < |balls| ==>
      CollideAll(width, balls)[i].radius == balls[i].radius &&
      CollideAll(width, balls)[i].positionX == balls[i].positionX &&
      CollideAll(width, balls)[i].positionY == balls[i].positionY &&
      Abs(CollideAll(width, balls)[i].speedX) == Abs(balls[i].speedX) &&
      Abs(CollideAll(width, balls)[i].speedY) == Abs(balls[i].speedY)
  {
  }

  /** On a canvas wider than every ball, `collide` twice is `collide` once. */
  lemma {:induction false} CollideAllIdempotent(width: real, balls: seq<BallState>)
    requires forall i :: 0 <= i < |balls| ==> width > 2.0 * balls[i].radius
    ensures CollideAll(width, CollideAll(width, balls)) == CollideAll(width, balls)
  {
    var once := CollideAll(width, balls);
    forall i | 0 <= i < |balls|
      ensures CollideAll(width, once)[i] == once[i]
    {
      BounceIdempotent(balls[i], 0.0, width, 0.0);
    }
  }

  // ---------------------------------------------------------------------
  // The game object

  class Game {
    const width: real
    const height: real
    var balls: seq<Ball>
    const player: Ball

    /** The balls are distinct objects, and the player is none of them. */
    ghost predicate Valid()
      reads this
    {
      && (forall i, j :: 0 <= i < j < |balls| ==> balls[i] != balls[j])
      && player !in balls
    }

    /** The balls' states, in list order. */
    function States(): (r: seq<BallState>)
      reads this, balls
      ensures |r| == |balls| && forall i :: 0 <= i < |balls| ==> r[i] == balls[i].State()
    {
      seq(|balls|, i reads this, balls requires 0 <= i < |balls| => balls[i].State())
    }

    /** The constructor minus the canvas setup and the first frame request:
        INITIAL_BALL_COUNT balls from the given draws, in order, and the
        player ball standing at the middle of the floor. */
    constructor (width: real, height: real, draws: seq<Draws>)
      requires |draws| == INITIAL_BALL_COUNT
      ensures Valid() && this.width == width && this.height == height
      ensures |balls| == INITIAL_BALL_COUNT
      ensures forall i :: 0 <= i < |balls| ==> fresh(balls[i]) && balls[i].State() == SpawnState(width, height, draws[i])
      ensures fresh(player)
      ensures player.State() == BallState(PLAYER_BALL_RADIUS, width / 2.0, PLAYER_BALL_RADIUS, 0.0, 0.0)
    {
      this.width := width;
      this.height := height;
      var spawned: seq<Ball> := [];
      for i := 0 to INITIAL_BALL_COUNT
        invariant |spawned| == i
        invariant forall k :: 0 <= k < i ==> fresh(spawned[k]) && spawned[k].State() == SpawnState(width, height, draws[k])
        invariant forall k, j :: 0 <= k < j < i ==> spawned[k] != spawned[j]
      {
        var s := SpawnState(width, height, draws[i]);
        var ball := new Ball(s.radius, s.positionX, s.positionY, s.speedX, s.speedY);
        spawned := spawned + [ball];
      }
      balls := spawned;
      player := new Ball(PLAYER_BALL_RADIUS, width / 2.0, PLAYER_BALL_RADIUS, 0.0, 0.0);
    }

    method Move()
      requires Valid()
      modifies balls
      ensures States() == MoveAll(old(States()))
      ensures player.State() == old(player.State())
    {
      for i := 0 to |balls|
        invariant forall k :: 0 <= k < i ==> balls[k].State() == Physics(old(balls[k].State()))
        invariant forall k :: i <= k < |balls| ==> balls[k].State() == old(balls[k].State())
      {
        balls[i].ApplyPhysics();
      }
    }

    method Collide()
      requires Valid()
      modifies balls
      ensures States() == CollideAll(width, old(States()))
      ensures player.State() == old(player.State())
    {
      for i := 0 to |balls|
        invariant forall k :: 0 <= k < i ==> balls[k].State() == Bounce(old(balls[k].State()), 0.0, width, 0.0)
        invariant forall k :: i <= k < |balls| ==> balls[k].State() == old(balls[k].State())
      {
        balls[i].BounceToWalls(0.0, width, 0.0);
      }
    }

    /** `adjust`: game over exactly when the player overlaps some ball; never
        with no balls. */
    function Adjust(): (gameover: bool)
      reads this, player, balls
      ensures gameover <==> exists i :: 0 <= i < |balls| && player.OverlapsWithCircle(balls[i].positionX, balls[i].positionY, balls[i].radius)
      ensures balls == [] ==> !gameover
    {
      OverlapReduce(player.State(), States(), false)
    }

    /** `animate` minus drawing: move, collide, then ask whether the game is
        over; another frame is requested exactly when it is not. */
    method Animate() returns (again: bool)
      requires Valid()
      modifies balls
      ensures States() == CollideAll(width, MoveAll(old(States())))
      ensures player.State() == old(player.State())
      ensures again <==> !Adjust()
    {
      Move();
      Collide();
      var gameover := Adjust();
      again := !gameover;
    }
  }
}
