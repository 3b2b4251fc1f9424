/** Points and the fixed constants of the Pong demo (board, ball, paddle). */
module Geometry {

  /** A pair of coordinates: a position on the board or a per-tick displacement. */
  datatype Point = Point(x: real, y: real)

  /** The board is the rectangle [0, ScreenSize.x] x [0, ScreenSize.y]. */
  const ScreenSize: Point := Point(800.0, 800.0)

  const BallRadius: real := 10.0
  /** Length of the ball's displacement on every tick. */
  const BallSpeed: real := 5.0

  /** Full width and height of the paddle. */
  const PaddleSize: Point := Point(100.0, 10.0)
  /** Horizontal distance the paddle moves on one tick while an arrow key is held. */
  const PaddleSpeed: real := 5.0

  /** Where the ball and the paddle are placed when they are activated. */
  const BallStart: Point := Point(ScreenSize.x / 2.0, ScreenSize.y / 2.0)
  const PaddleStart: Point := Point(ScreenSize.x / 2.0, ScreenSize.y - 50.0)

  /** The squared length of a displacement; the ball's speed is its square root. */
  function SpeedSquared(v: Point): real
  {
    v.x * v.x + v.y * v.y
  }
}
