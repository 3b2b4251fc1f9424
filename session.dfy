/**
 * The game as a sequence of events: key events between frames, and frames in
 * which the paddle input ticks before the ball.
 */
module Session {
  import opened Geometry
  import Physics
  import Controls

  datatype Event = KeyDown(code: string) | KeyUp(code: string) | Frame

  datatype World = World(ball: Physics.Ball, paddle: Point, keys: Controls.Keys)

  /** What every reachable world satisfies. */
  predicate Playable(w: World)
  {
    Physics.WithinX(w.ball.position.x) && Physics.WithinY(w.ball.position.y) &&
    SpeedSquared(w.ball.delta) == BallSpeed * BallSpeed &&
    w.paddle.y == PaddleStart.y
  }

  /**
   * The world after activation. `delta` stands for the randomly aimed initial
   * displacement: any vector of length BallSpeed.
   */
  function Start(delta: Point): (w: World)
    requires SpeedSquared(delta) == BallSpeed * BallSpeed
    ensures Playable(w)
    ensures w.keys == Controls.NoKeys && w.ball.delta == delta
  {
    World(Physics.Ball(BallStart, delta), PaddleStart, Controls.NoKeys)
  }

  /**
   * One event: a key event changes only the flags; a frame moves the paddle as
   * the flags choose and then steps the ball against the moved paddle.
   */
  function Apply(w: World, e: Event): (r: World)
    ensures e.KeyDown? ==> r == w.(keys := Controls.OnKeyDown(w.keys, e.code))
    ensures e.KeyUp? ==> r == w.(keys := Controls.OnKeyUp(w.keys, e.code))
    ensures e.Frame? ==>
              r.keys == w.keys &&
              r.paddle == Controls.Moved(w.paddle, Controls.Choose(w.keys)) &&
              r.ball == Physics.Step(w.ball, r.paddle)
    ensures r.paddle.y == w.paddle.y
  {
    match e
    case KeyDown(code) => w.(keys := Controls.OnKeyDown(w.keys, code))
    case KeyUp(code) => w.(keys := Controls.OnKeyUp(w.keys, code))
    case Frame =>
      var paddle := Controls.Moved(w.paddle, Controls.Choose(w.keys));
      w.(paddle := paddle, ball := Physics.Step(w.ball, paddle))
  }

  /** The world after the events `es`, in order. */
  function Run(w: World, es: seq<Event>): World
  {
    if es == [] then w else Apply(Run(w, es[..|es| - 1]), es[|es| - 1])
  }

  /** One event keeps the world playable. */
  lemma ApplyKeepsPlayable(w: World, e: Event)
    requires Playable(w)
    ensures Playable(Apply(w, e))
  {
  }

  /**
   * Any history keeps the ball inside the walls, its speed at BallSpeed and the
   * paddle on its row.
   */
  lemma {:induction false} RunKeepsPlayable(w: World, es: seq<Event>)
    requires Playable(w)
    ensures Playable(Run(w, es))
  {
    if es != [] {
      RunKeepsPlayable(w, es[..|es| - 1]);
      ApplyKeepsPlayable(Run(w, es[..|es| - 1]), es[|es| - 1]);
    }
  }

  /** Reference reading of a key flag: the last down or up event for `code` decides. */
  function LastSays(es: seq<Event>, code: string, init: bool): bool
  {
    if es == [] then init
    else
      match es[|es| - 1]
      case KeyDown(c) => if c == code then true else LastSays(es[..|es| - 1], code, init)
      case KeyUp(c) => if c == code then false else LastSays(es[..|es| - 1], code, init)
      case Frame => LastSays(es[..|es| - 1], code, init)
  }

  /** Each arrow flag is held exactly when the last event for that arrow was a key-down. */
  lemma {:induction false} FlagsFollowLastEvent(w: World, es: seq<Event>)
    ensures Run(w, es).keys.leftDown == LastSays(es, Controls.ArrowLeft, w.keys.leftDown)
    ensures Run(w, es).keys.rightDown == LastSays(es, Controls.ArrowRight, w.keys.rightDown)
  {
    if es != [] {
      FlagsFollowLastEvent(w, es[..|es| - 1]);
    }
  }

  function Frames(n: nat): (es: seq<Event>)
    ensures |es| == n && forall i :: 0 <= i < n ==> es[i] == Frame
  {
    seq(n, _ => Frame)
  }

  /** While the left arrow is held the paddle drifts left by PaddleSpeed per frame. */
  lemma {:induction false} HeldLeftDrifts(w: World, n: nat)
    requires w.keys.leftDown
    ensures Run(w, Frames(n)).keys == w.keys
    ensures Run(w, Frames(n)).paddle == Point(w.paddle.x - (n as real) * PaddleSpeed, w.paddle.y)
  {
    if n > 0 {
      assert Frames(n)[..n - 1] == Frames(n - 1);
      HeldLeftDrifts(w, n - 1);
    }
  }

  /** Nothing clamps the paddle: 81 frames of holding left put its centre off the board. */
  lemma PaddleLeavesBoard(delta: Point)
    requires SpeedSquared(delta) == BallSpeed * BallSpeed
    ensures Run(Apply(Start(delta), KeyDown(Controls.ArrowLeft)), Frames(81)).paddle.x < 0.0
  {
    HeldLeftDrifts(Apply(Start(delta), KeyDown(Controls.ArrowLeft)), 81);
  }
}
