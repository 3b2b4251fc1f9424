/**
 * The demo's Paddle, Ball and PaddleInput components as objects whose fields
 * their methods update in place, each proved against the functions of
 * Physics, Controls and Session.
 */
module Chips {
  import opened Geometry
  import Physics
  import Controls
  import Session

  class Paddle {
    /** Centre of the paddle; read by the ball through the `position` getter. */
    var position: Point

    /** Activation: the paddle is centred horizontally, 50 above the bottom edge. */
    constructor ()
      ensures position == PaddleStart
    {
      position := Point(ScreenSize.x / 2.0, ScreenSize.y - 50.0);
    }

    method MoveLeft()
      modifies this
      ensures position == Point(old(position.x) - PaddleSpeed, old(position.y))
    {
      position := position.(x := position.x - PaddleSpeed);
    }

    method MoveRight()
      modifies this
      ensures position == Point(old(position.x) + PaddleSpeed, old(position.y))
    {
      position := position.(x := position.x + PaddleSpeed);
    }
  }

  class Ball {
    const paddle: Paddle

    var position: Point
    /** The displacement (cos angle, sin angle) * speed that the source keeps as an angle. */
    var delta: Point

    function State(): Physics.Ball
      reads this
    {
      Physics.Ball(position, delta)
    }

    /** Construction and activation: centred on the board, aimed along `delta`. */
    constructor (paddle: Paddle, delta: Point)
      requires SpeedSquared(delta) == BallSpeed * BallSpeed
      ensures this.paddle == paddle
      ensures State() == Physics.Ball(BallStart, delta)
    {
      this.paddle := paddle;
      position := Point(ScreenSize.x / 2.0, ScreenSize.y / 2.0);
      this.delta := delta;
    }

    /** The per-tick step: Euler step, the two wall axes, then the paddle. */
    method Tick()
      modifies this
      ensures State() == Physics.Step(old(State()), paddle.position)
      ensures Physics.WithinX(position.x)
      ensures SpeedSquared(delta) == SpeedSquared(old(delta))
    {
      var oldPosition := position;
      var deltaX, deltaY := delta.x, delta.y;

      position := Point(position.x + deltaX, position.y + deltaY);

      if position.y < BallRadius {
        position := position.(y := BallRadius);
        deltaY := -deltaY;
        delta := Point(deltaX, deltaY);
      } else if position.y > ScreenSize.y - BallRadius {
        position := position.(y := ScreenSize.y - BallRadius);
        deltaY := -deltaY;
        delta := Point(deltaX, deltaY);
      }

      if position.x < BallRadius {
        position := position.(x := BallRadius);
        deltaX := -deltaX;
        delta := Point(deltaX, deltaY);
      } else if position.x > ScreenSize.x - BallRadius {
        position := position.(x := ScreenSize.x - BallRadius);
        deltaX := -deltaX;
        delta := Point(deltaX, deltaY);
      }

      var edge := paddle.position.y - BallRadius - PaddleSize.y / 2.0;
      if oldPosition.y < edge && position.y > edge &&
         position.x > paddle.position.x - PaddleSize.x / 2.0 &&
         position.x < paddle.position.x + PaddleSize.x / 2.0
      {
        position := position.(y := paddle.position.y - BallRadius);
        deltaY := -deltaY;
        delta := Point(deltaX, deltaY);
      }
    }
  }

  class PaddleInput {
    const paddle: Paddle

    var leftDown: bool
    var rightDown: bool

    function Keys(): Controls.Keys
      reads this
    {
      Controls.Keys(leftDown, rightDown)
    }

    constructor (paddle: Paddle)
      ensures this.paddle == paddle
      ensures Keys() == Controls.NoKeys
    {
      this.paddle := paddle;
      leftDown, rightDown := false, false;
    }

    method OnKeyDown(code: string)
      modifies this
      ensures Keys() == Controls.OnKeyDown(old(Keys()), code)
    {
      if code == Controls.ArrowLeft {
        leftDown := true;
      } else if code == Controls.ArrowRight {
        rightDown := true;
      }
    }

    method OnKeyUp(code: string)
      modifies this
      ensures Keys() == Controls.OnKeyUp(old(Keys()), code)
    {
      if code == Controls.ArrowLeft {
        leftDown := false;
      } else if code == Controls.ArrowRight {
        rightDown := false;
      }
    }

    /** Left has priority over right; with neither key held the paddle stays. */
    method Tick()
      modifies paddle
      ensures paddle.position == Controls.Moved(old(paddle.position), Controls.Choose(Keys()))
    {
      if leftDown {
        paddle.MoveLeft();
      } else if rightDown {
        paddle.MoveRight();
      }
    }
  }

  /** The game's state as seen through its three components. */
  function WorldOf(input: PaddleInput, ball: Ball): Session.World
    reads input, ball, ball.paddle
  {
    Session.World(ball.State(), ball.paddle.position, input.Keys())
  }

  /**
   * Game activation: the paddle, then its input, then the ball are created and
   * activated; `delta` stands for the randomly aimed initial direction.
   */
  method Activate(delta: Point) returns (input: PaddleInput, ball: Ball)
    requires SpeedSquared(delta) == BallSpeed * BallSpeed
    ensures fresh(input) && fresh(ball) && fresh(ball.paddle)
    ensures input.paddle == ball.paddle
    ensures WorldOf(input, ball) == Session.Start(delta)
  {
    var paddle := new Paddle();
    input := new PaddleInput(paddle);
    ball := new Ball(paddle, delta);
  }

  /** One rendered frame: the paddle input ticks, then the ball against the moved paddle. */
  method Frame(input: PaddleInput, ball: Ball)
    requires input.paddle == ball.paddle
    modifies ball, ball.paddle
    ensures WorldOf(input, ball) == Session.Apply(old(WorldOf(input, ball)), Session.Frame)
    ensures Session.Playable(old(WorldOf(input, ball))) ==> Session.Playable(WorldOf(input, ball))
  {
    ghost var before := WorldOf(input, ball);
    input.Tick();
    ball.Tick();
    if Session.Playable(before) {
      Session.ApplyKeepsPlayable(before, Session.Frame);
    }
  }
}
