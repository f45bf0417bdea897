# Dodgeball simulation core, in Dafny

A model of the simulation core of a small 2D browser game: blue balls fall
under gravity and bounce off the floor and the side walls; the player is a
red ball (in the three-ball version: a body and two hands) standing on the
floor, and the game is over when a ball touches it. A fixed-timestep game
loop ("play catch-up") drives the updates.

Numbers are exact `real`s, not IEEE doubles. The canvas size, the clock
timestamps and every `Math.random()` draw are parameters. Drawing is left out.

| file | module | models |
|---|---|---|
| `game_config.dfy` | `GameConfig` | the static constants of `Game` (gravity, spawn ranges, ball count, player radius); `Unit`, a random draw in [0, 1) |
| `vectors.dfy` | `Vectors` | `src/Vector.ts`: an immutable vector `datatype` and its exact algebra |
| `balls.dfy` | `Balls` | `src/Ball.ts`: class `Ball` with the five fields. One tick of physics (`Physics`), the wall bounce (`Bounce`) and the overlap test (`Overlaps`) are specified as functions on the value `BallState`. The methods are proved to apply exactly these functions. |
| `players.dfy` | `Players` | `src/Player.ts`: class `Player` with its three balls, the calls `moveLeft`/`moveRight` forward, and the catch and hit tests |
| `games.dfy` | `Games` | `src/Game.ts`: `spawnBall` as a function of its draws; class `Game` with `move`, `collide`, `adjust`, `animate` and the setup part of the constructor |
| `game_loops.dfy` | `GameLoops` | `src/GameLoop.ts`: class `GameLoop` with `start`, `stop`, `toggle`, `isRunning` and `step` with its drain loop |

How the collaborators are represented:

- The game that `GameLoop` drives is outside the model. Its `processInput`, `update` and `render` calls are returned by `Step` as a list of `Call`s. The answer of the k-th `update` call of a frame is `outcome(k)`, a parameter.
- The frame scheduler becomes the flag `running`, which stands for `ref_id != null`. `Step` returns `again`, which says whether it requested another frame.
- `performance.now()` is the `now` argument of `Start` and `Toggle`. The frame timestamp is the argument of `Step`.
- `spawnBall`'s five `Math.random()` draws are the `Draws` value.
- The canvas width and height are constructor arguments of `Game`.

## Model

| member | source | states |
|---|---|---|
| `Vectors.Zero` | src/Vector.ts:43-47 | the default constructor's vector is the neutral element of `add`, on either side |
| `Vectors.ZeroIsIdentity` | src/Vector.ts:43-47 | adding the default vector (0, 0) changes nothing; a vector minus itself and a vector scaled by 0 both give it |
| `Vectors.AddSubtractComponentwise` | src/Vector.ts:154-178 | `add` and `subtract` work coordinate by coordinate, and subtracting is adding the vector scaled by -1 |
| `Vectors.IsEqualToIsEquality` | src/Vector.ts:105-107 | `isEqualTo` holds exactly when the two vectors are the same value |
| `Vectors.AddSubtractRoundTrip` | src/Vector.ts:154-178 | `a.add(b).subtract(b)` is equal to `a`, and so is `a.subtract(b).add(b)` |
| `Vectors.AddCommutative` | src/Vector.ts:154-160 | `a.add(b)` is equal to `b.add(a)` |
| `Vectors.AddAssociative` | src/Vector.ts:154-160 | adding three vectors gives the same result however they are grouped |
| `Vectors.ScaleMinusOneIsOpposite` | src/Vector.ts:187-193 | `v.scale(-1)` is opposite to `v`, and `v.add(v.scale(-1))` is equal to the zero vector |
| `Vectors.OppositeIffSumIsZero` | src/Vector.ts:117-119 | `v.isOppositeTo(w)` holds exactly when `v.add(w)` is equal to the zero vector |
| `Vectors.MirrorXNegatesOnlyY` | src/Vector.ts:222-225 | `mirror_X` negates y and keeps x; applied twice it gives a vector equal to the original |
| `Vectors.MirrorYNegatesOnlyX` | src/Vector.ts:233-236 | `mirror_Y` negates x and keeps y; applied twice it gives a vector equal to the original |
| `Vectors.MirrorBothIsOpposite` | src/Vector.ts:222-236 | mirroring in both axes is scaling by -1, so it gives the opposite vector |
| `Vectors.IsEqualToIsEquivalence` | src/Vector.ts:105-107 | `isEqualTo` is reflexive, symmetric and transitive |
| `Vectors.IsOppositeToSymmetric` | src/Vector.ts:117-119 | `isOppositeTo` is symmetric; the opposite of an opposite is equal to the original; a vector is opposite to itself only if it is zero |
| `Balls.Physics` | src/Ball.ts:23-33 | a tick takes GRAVITY off the vertical speed, moves x by the horizontal speed, and keeps the radius and the horizontal speed. The height changes by the old vertical speed minus half of GRAVITY. |
| `Balls.PhysicsClosedForm` | src/Ball.ts:23-33 | after n ticks a ball is where uniform acceleration from its start would put it: x0 + n·vx and y0 + n·vy − GRAVITY·n²/2, with vertical speed vy − n·GRAVITY |
| `Balls.Bounce` | src/Ball.ts:35-52 | a bounce keeps the radius and the position, and keeps the size of both speed components. The vertical speed flips exactly when the ball is at or below the floor and falling faster than `lower`; there is no ceiling. |
| `Balls.BounceFlipsAtMostOnce` | src/Ball.ts:38-45 | with `left <= 0` and walls more than a diameter apart, the left and right tests never both fire. The horizontal speed flips exactly when the ball is at the left wall and moving slower than `left`, or at the right wall and moving right. |
| `Balls.BounceIdempotent` | src/Ball.ts:35-52 | with `left`, `lower` <= 0 and walls more than a diameter apart, a second bounce right after the first changes nothing |
| `Balls.BounceWithPositiveLeftOscillates` | src/Ball.ts:38-40 | because the left test compares the speed with `left`, a positive `left` flips a slowly right-moving ball at the left wall on each call |
| `Balls.BounceAtLeftWallExample` | src/Ball.ts:35-52 | a ball of radius 10 at (5, 50) moving left has its horizontal speed flipped, and a second test does not flip it back |
| `Balls.OverlapsIffWithinRadiusSum` | src/Ball.ts:54-63 | the squared-distance test agrees with the source's test `sqrt(dx²+dy²) <= r1 + r2`, for the one non-negative root of the squared distance |
| `Balls.OverlapsSymmetric` | src/Ball.ts:54-63 | ball a overlaps ball b's circle exactly when b overlaps a's |
| `Balls.OverlapsOnHorizontalLine` | src/Ball.ts:54-63 | two circles whose centres are at the same height overlap exactly when the horizontal gap is at most the sum of the radii |
| `Balls.Ball.constructor` | src/Ball.ts:14-21 | the new ball holds the five given values |
| `Balls.Ball.ApplyPhysics` | src/Ball.ts:23-33 | the fields after the call are `Physics` of the fields before |
| `Balls.Ball.BounceToWalls` | src/Ball.ts:35-52 | the fields after the call are `Bounce` of the fields before, with the same arguments |
| `Players.MoveLeftLimitsFollowLeftEdges` | src/Player.ts:40-44 | `moveLeft` forwards the same step to each of the three balls, left hand first. Each ball's limit is as far beyond `limit` as its left edge is beyond the left hand's, so the offsets are 0, 2h and 2h+2R. |
| `Players.MoveRightLimitsFollowRightEdges` | src/Player.ts:52-56 | `moveRight` forwards the same step to each of the three balls, right hand first. Each ball's limit is as far short of `limit` as its right edge is short of the right hand's, so the offsets are 0, −2h and −2h−2R. |
| `Players.FormationHandsTouchBody` | src/Player.ts:11-31 | in the constructor's formation each hand's centre is exactly R+h from the body's centre. So each hand overlaps the body under the `<=` test, and the hands sit symmetrically about the body. |
| `Players.Player.constructor` | src/Player.ts:11-31 | the body has radius R and stands at (x, R); the hands have radius h and stand at (x−R−h, R) and (x+R+h, R); all three are at rest and are distinct new balls |
| `Players.Player.IsCaught` | src/Player.ts:63-65 | a ball is caught exactly when it overlaps the left hand or the right hand, judged from the ball's side as well |
| `Players.Player.IsHit` | src/Player.ts:72-74 | a ball hits exactly when it overlaps the body; the hands play no part |
| `Games.SpawnState` | src/Game.ts:72-83 | a spawned ball has a radius in [25, 50). Its x is in [radius, width − radius) when the canvas is wider than the ball. Its y is in [0.8·height, height) when the height is positive. Its horizontal speed is in [−50, 50) and its vertical speed is 0. |
| `Games.SpawnCoversRanges` | src/Game.ts:72-83 | conversely, every ball inside those ranges is what some draws spawn |
| `Games.OverlapReduce` | src/Game.ts:123-127 | the `reduce` with `prev \|\| overlaps` is true exactly when its start value is, or the player overlaps some ball of the list |
| `Games.MoveAllNIsPhysicsNOnEach` | src/Game.ts:107-110 | n rounds of `move` keep the list's length and order and advance every ball by exactly n physics ticks |
| `Games.CollideAllKeepsPositions` | src/Game.ts:115-118 | `collide` keeps the list's length, every ball's radius and position, and the size of its speed components |
| `Games.CollideAllIdempotent` | src/Game.ts:115-118 | when the canvas is wider than every ball, a second `collide` right after the first changes nothing |
| `Games.Game.constructor` | src/Game.ts:53-61 | the game starts with INITIAL_BALL_COUNT (2) distinct new balls, spawned in order from the given draws. The player is a ball of radius 50 at (width/2, 50) at rest, and it is none of the balls. |
| `Games.Game.Move` | src/Game.ts:107-110 | every ball, in list order, gets exactly one physics tick; the list and the player are unchanged |
| `Games.Game.Collide` | src/Game.ts:115-118 | every ball bounces with the arguments (0, width, 0); the list and the player are unchanged |
| `Games.Game.Adjust` | src/Game.ts:123-127 | game over exactly when the player overlaps some ball of the list; never with an empty list |
| `Games.Game.Animate` | src/Game.ts:90-102 | a frame is `move` then `collide`. Another frame is requested exactly when `adjust` on the new state reports no game over. |
| `GameLoops.GameLoop.constructor` | src/GameLoop.ts:55-58 | the loop keeps its game and its step size, and is not running |
| `GameLoops.GameLoop.Start` | src/GameLoop.ts:85-91 | afterwards the loop is running. If it was stopped, `previous` is `now` and the lag is 0. If it was running, nothing changes. |
| `GameLoops.GameLoop.Stop` | src/GameLoop.ts:97-102 | afterwards the loop is not running; `previous` and the lag are unchanged |
| `GameLoops.GameLoop.Toggle` | src/GameLoop.ts:73-79 | the running state flips. A loop that was stopped restarts its clock; a running loop keeps it. |
| `GameLoops.GameLoop.Step` | src/GameLoop.ts:110-133 | `previous` becomes the timestamp and the elapsed time is added to the lag. With a game there is one `processInput`, then n `update`s, then one `render`, and the update count and lag follow `CatchUp`. Without a game nothing is called. After a game over the loop stops running; otherwise another frame is requested. |
| `GameLoops.GameLoop.CatchUp` | src/GameLoop.ts:117-122 | n updates are made, never more than the whole steps in the lag, and each takes one step off the lag. The loop stops right after the first update that reports game over, and stops early only then. Without a game over, n is the number of whole steps, and a non-negative lag ends in [0, step). |
| `GameLoops.CatchUpTenSteps` | src/GameLoop.ts:110-133 | a frame ten steps after `start` makes exactly ten `update` calls and one `render` when no update ends the game. The lag is then empty and another frame is requested. |
| `GameLoops.FrameAfterStop` | src/GameLoop.ts:97-133 | a frame that comes after `stop` still updates and renders the game and requests another frame, although the loop is not running |

## Left out

- Drawing: `Game.draw`, `Ball.draw`, `Player.render`, the canvas resize and the context transform in the `Game` constructor. These are output only.
- `requestAnimationFrame`, `cancelAnimationFrame` and the `ref_id` values. Only whether a request is outstanding is modelled: the flag `running` and the result `again`. `Step` does not store the id of the frame it requests (src/GameLoop.ts:131), so after the first frame `stop` cancels an id that has already fired. `FrameAfterStop` shows the effect: frames keep coming after `stop`.
- `GameLoop.constructor`: in the source, `previous` and `lag` are undefined until `start`. Here they start at 0. The step size is required to be positive. With a step of 0 or less the drain loop may never end: once it starts, it stops only when an update reports game over.
- Default arguments that no caller in the source uses: `new Vector(x)` with only x gives (x, 0) (src/Vector.ts:43), and `ms_per_update` defaults to 1 (src/GameLoop.ts:55). The model has only the two-argument vector and the default vector `Zero`, and `GameLoop` always takes its step size explicitly.
- `Math.random`: replaced by the draws in [0, 1) given to `SpawnState` and to the `Game` constructor.
- `Vector`'s `length`, `angle`, `normalize`, `dotProduct`, `fromSizeAndAngle`, `isParallelTo`, `isAntiParallelTo`, `distance` and the `_length`/`_angle` cache. They rest on `sqrt`, `atan2`, `cos` and `sin`.
- IEEE floating point: all arithmetic is exact over the reals. The round trips of `Vectors`, the exact closed form of `PhysicsClosedForm` and the exact bounds of `SpawnState` hold only in that idealisation.
- `Ball.moveLeft`, `Ball.moveRight`, `Ball.overlapsWith` and `Ball.overlapsWithBall`, and the colour argument. `Player` and `Game` call them, but the `Ball` class in src/Ball.ts has none of them. The player's moves are modelled only as the calls they forward (`MoveLeftCalls`, `MoveRightCalls`); how a ball clamps at its limit is not modelled. Ball-to-ball overlap is `overlapsWithCircle` applied to the other ball's centre and radius.
- `Game.PLAYER_HAND_RADIUS`, which `Player` uses, is not defined in src/Game.ts. The `Player` constructor takes it as the argument `handRadius`.
- src/Scene.ts is not part of this model. It calls `Ball` methods that src/Ball.ts does not have, and it repeats the per-tick logic of src/Game.ts.
- Ball-to-ball collision response: no source file implements one.
- `processInput`, `update` and `render` of the game the loop drives: they are outside collaborators, so they appear only as the calls `Step` reports and the `outcome` answers.
