/** The static configuration constants of the `Game` class (src/Game.ts:10-27)
    that the ball, the player and the world update share. */
module GameConfig {

  /** Speed lost to gravity per tick (time step 1). */
  const GRAVITY: real := 0.98

  const MIN_BALL_RADIUS: real := 25.0
  const BALL_RADIUS_SCATTER: real := 25.0
  const MIN_BALL_X_SPEED: real := -50.0
  const BALL_X_SPEED_SCATTER: real := 100.0
  const MIN_BALL_Y_SPEED: real := 0.0
  const BALL_Y_SPEED_SCATTER: real := 0.0
  /** Balls spawn in the top fifth of the canvas. */
  const BALL_Y_POSITION_AREA: real := 0.2

  const INITIAL_BALL_COUNT: nat := 2

  const PLAYER_BALL_RADIUS: real := 50.0

  /** A value drawn by `Math.random()`: a real in [0, 1). */
  type Unit = u: real | 0.0 <= u < 1.0
}
