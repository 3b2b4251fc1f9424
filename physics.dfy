/**
 * One tick of the ball, as four stages: the Euler step, the top/bottom walls,
 * the left/right walls and the paddle. The direction of travel is kept as the
 * displacement vector (dx, dy) that the source rebuilds from its angle on every
 * tick, so a reflection is the negation of one component.
 */
module Physics {
  import opened Geometry

  /** The ball's centre and its displacement per tick. */
  datatype Ball = Ball(position: Point, delta: Point)

  /** The centre keeps the whole ball between the left and right walls. */
  predicate WithinX(x: real)
  {
    BallRadius <= x <= ScreenSize.x - BallRadius
  }

  /** The centre keeps the whole ball between the top and bottom walls. */
  predicate WithinY(y: real)
  {
    BallRadius <= y <= ScreenSize.y - BallRadius
  }

  /** Euler step: the centre moves by one displacement. */
  function Advance(b: Ball): (r: Ball)
    ensures r.delta == b.delta
    ensures r.position.x - b.position.x == b.delta.x && r.position.y - b.position.y == b.delta.y
  {
    Ball(Point(b.position.x + b.delta.x, b.position.y + b.delta.y), b.delta)
  }

  function FlipX(v: Point): Point
  {
    Point(-v.x, v.y)
  }

  function FlipY(v: Point): Point
  {
    Point(v.x, -v.y)
  }

  /** Top and bottom walls: clamp y onto the wall that was passed and reflect dy. */
  function VerticalWalls(b: Ball): (r: Ball)
    ensures WithinY(r.position.y)
    ensures r.position.x == b.position.x && r.delta.x == b.delta.x
    ensures WithinY(b.position.y) ==> r == b
    ensures !WithinY(b.position.y) ==> r.delta.y == -b.delta.y
    ensures b.position.y < BallRadius ==> r.position.y == BallRadius
    ensures b.position.y > ScreenSize.y - BallRadius ==> r.position.y == ScreenSize.y - BallRadius
  {
    if b.position.y < BallRadius then
      Ball(b.position.(y := BallRadius), FlipY(b.delta))
    else if b.position.y > ScreenSize.y - BallRadius then
      Ball(b.position.(y := ScreenSize.y - BallRadius), FlipY(b.delta))
    else
      b
  }

  /** Left and right walls: clamp x onto the wall that was passed and reflect dx. */
  function HorizontalWalls(b: Ball): (r: Ball)
    ensures WithinX(r.position.x)
    ensures r.position.y == b.position.y && r.delta.y == b.delta.y
    ensures WithinX(b.position.x) ==> r == b
    ensures !WithinX(b.position.x) ==> r.delta.x == -b.delta.x
    ensures b.position.x < BallRadius ==> r.position.x == BallRadius
    ensures b.position.x > ScreenSize.x - BallRadius ==> r.position.x == ScreenSize.x - BallRadius
  {
    if b.position.x < BallRadius then
      Ball(b.position.(x := BallRadius), FlipX(b.delta))
    else if b.position.x > ScreenSize.x - BallRadius then
      Ball(b.position.(x := ScreenSize.x - BallRadius), FlipX(b.delta))
    else
      b
  }

  /** Both wall stages, vertical first. */
  function Walls(b: Ball): Ball
  {
    HorizontalWalls(VerticalWalls(b))
  }

  /** The height the ball's centre must cross, going down, to hit the paddle. */
  function PaddleEdge(paddle: Point): real
  {
    paddle.y - BallRadius - PaddleSize.y / 2.0
  }

  /**
   * The paddle test: the centre was above the edge before the tick, is below it
   * after the wall stages, and lies strictly within the paddle's width.
   */
  predicate PaddleHit(oldY: real, b: Ball, paddle: Point)
  {
    oldY < PaddleEdge(paddle) && b.position.y > PaddleEdge(paddle) &&
    paddle.x - PaddleSize.x / 2.0 < b.position.x < paddle.x + PaddleSize.x / 2.0
  }

  /** Paddle stage: on a hit, y snaps to paddle.y - BallRadius and dy is reflected. */
  function PaddleBounce(oldY: real, b: Ball, paddle: Point): (r: Ball)
    ensures r.position.x == b.position.x && r.delta.x == b.delta.x
    ensures PaddleHit(oldY, b, paddle) ==> r.position.y == paddle.y - BallRadius && r.delta.y == -b.delta.y
    ensures !PaddleHit(oldY, b, paddle) ==> r == b
  {
    if PaddleHit(oldY, b, paddle) then
      Ball(b.position.(y := paddle.y - BallRadius), FlipY(b.delta))
    else
      b
  }

  /** A tick on which neither a wall nor the paddle is touched. */
  predicate Quiet(b: Ball, paddle: Point)
  {
    var moved := Advance(b);
    WithinX(moved.position.x) && WithinY(moved.position.y) && !PaddleHit(b.position.y, moved, paddle)
  }

  /** One tick of the ball against a paddle centred at `paddle`. */
  function Step(b: Ball, paddle: Point): (r: Ball)
    ensures WithinX(r.position.x)
    ensures SpeedSquared(r.delta) == SpeedSquared(b.delta)
    ensures r.delta.x == b.delta.x || r.delta.x == -b.delta.x
    ensures r.delta.y == b.delta.y || r.delta.y == -b.delta.y
    ensures var w := Walls(Advance(b));
      WithinY(w.position.y) &&
      (PaddleHit(b.position.y, w, paddle) ==> r.position.y == paddle.y - BallRadius && r.delta.y == -w.delta.y) &&
      (!PaddleHit(b.position.y, w, paddle) ==> r.position.y == w.position.y && r.delta.y == w.delta.y)
    ensures Quiet(b, paddle) ==> r == Advance(b)
  {
    PaddleBounce(b.position.y, Walls(Advance(b)), paddle)
  }

  /**
   * A vertical and a horizontal wall may both fire on one tick (a corner); each
   * reflects only its own component.
   */
  lemma CornerReflectsBoth(b: Ball, paddle: Point)
    requires !WithinX(Advance(b).position.x) && !WithinY(Advance(b).position.y)
    requires !PaddleHit(b.position.y, Walls(Advance(b)), paddle)
    ensures Step(b, paddle).delta == Point(-b.delta.x, -b.delta.y)
  {
  }

  /**
   * The paddle test is an edge crossing: once the ball has been snapped onto the
   * paddle it cannot bounce off the same paddle height on the next tick.
   */
  lemma NoImmediateRebounce(b: Ball, paddle: Point, next: Point)
    requires PaddleHit(b.position.y, Walls(Advance(b)), paddle)
    requires next.y == paddle.y
    ensures var r := Step(b, paddle); !PaddleHit(r.position.y, Walls(Advance(r)), next)
  {
  }

  /** A ball 5 above the bottom wall, moving straight down, is clamped to 790 and reflected. */
  lemma BottomWallScenario()
    ensures Step(Ball(Point(400.0, 795.0), Point(0.0, 5.0)), PaddleStart)
         == Ball(Point(400.0, 790.0), Point(0.0, -5.0))
  {
  }

  /**
   * The snap puts the ball's lower rim on the paddle's centre line, that is
   * PaddleSize.y / 2 below the paddle's top edge: the ball ends inside the paddle.
   */
  lemma PaddleSnapSinksIntoPaddle(b: Ball, paddle: Point)
    requires PaddleHit(b.position.y, Walls(Advance(b)), paddle)
    ensures Step(b, paddle).position.y + BallRadius == paddle.y
    ensures Step(b, paddle).position.y + BallRadius - (paddle.y - PaddleSize.y / 2.0) == PaddleSize.y / 2.0
  {
  }

  /** The lower rim crossing the paddle's top edge (745) from 743 from 733 puts the centre on 740 = paddle.y - BallRadius. */
  lemma PaddleScenario()
    ensures Step(Ball(Point(400.0, 733.0), Point(0.0, 5.0)), PaddleStart)
         == Ball(Point(400.0, 740.0), Point(0.0, -5.0))
  {
  }
}
