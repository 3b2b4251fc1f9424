# Pong ball physics (pong-booyah), modelled in Dafny

This project models the game logic of the single-paddle Pong demo in
`src/index.ts`. Each tick, the ball takes an Euler step and is then corrected in
three stages. The top/bottom walls clamp y and reflect the vertical component.
The left/right walls clamp x and reflect the horizontal component. The paddle
stage uses an edge-crossing test: the ball's lower rim must cross the paddle's
top edge on this tick (the centre crosses `paddle.y - paddleSize.y/2 - ballRadius`). On a hit, y snaps to `paddle.y - ballRadius` and the vertical
component is reflected. The paddle moves by exactly `paddleSpeed` per tick while
an arrow key is held, and left wins over right. The arrow keys set and clear two
flags.

The source keeps an angle and a speed and rebuilds `(cos, sin) * speed` on every
tick. After a bounce it re-derives the angle with `atan2`. The model keeps that
displacement vector `(dx, dy)` over `real` instead, so a bounce is the negation
of one component. The constants are the source's: an 800 x 800 board, ball
radius 10, ball speed 5, a 100 x 10 paddle, paddle speed 5, and start positions
(400, 400) for the ball and (400, 750) for the paddle.

Modules:
- `Geometry` (geometry.dfy): `Point` and the constants.
- `Physics` (physics.dfy): the ball tick as pure functions, one per stage, and `Step` for the whole tick.
- `Controls` (controls.dfy): the key flags, the choice of move, and the paddle move.
- `Session` (session.dfy): the game as a history of key events and frames, with the invariants that hold over any history.
- `Chips` (chips.dfy): the source's `Paddle`, `Ball` and `PaddleInput` classes. Their methods update fields in place and are proved against the functions above. `Frame` runs one frame, input tick then ball tick.

Behaviour of the code worth knowing, modelled as written:
- On a paddle hit the centre snaps to `paddle.y - ballRadius`, not to the crossing height `paddle.y - ballRadius - paddleSize.y/2` that a natural expectation would suggest. The ball's lower rim then lies on the paddle's centre line, `paddleSize.y/2` = 5 inside the paddle (`Physics.PaddleSnapSinksIntoPaddle`).
- The paddle's horizontal test is `paddle.x ± paddleSize.x/2`, strict, with no ball radius added.
- There is no test that the ball is moving down, and no test against the paddle's bottom edge.
- There is a single paddle, so there is no loop over paddles.
- `moveLeft`/`moveRight` do not clamp. `Session.PaddleLeavesBoard` shows that the paddle's centre leaves the board after 81 frames of holding left.

## Model

| member | source | states |
|---|---|---|
| Physics.Advance | src/index.ts:71-77 | the Euler stage: the centre moves by exactly (dx, dy) and the direction is unchanged |
| Physics.VerticalWalls | src/index.ts:79-89 | afterwards y is within [ballRadius, 800 - ballRadius]; x and dx are untouched; nothing changes when the ball is already inside; otherwise dy is negated exactly once and y sits on the wall that was passed |
| Physics.HorizontalWalls | src/index.ts:91-101 | afterwards x is within [ballRadius, 800 - ballRadius]; y and dy are untouched; nothing changes when the ball is already inside; otherwise dx is negated exactly once and x sits on the wall that was passed |
| Physics.PaddleBounce | src/index.ts:104-115 | never touches x or dx; on an edge crossing inside the paddle's width, y becomes paddle.y - ballRadius and dy is negated; otherwise the ball from the wall stage is returned unchanged |
| Physics.Step | src/index.ts:70-115 | after a tick x is within the side walls; dx² + dy² is preserved; each component is either kept or negated; after the wall stages y is within the top/bottom walls, and the paddle stage either reflects onto paddle.y - ballRadius or leaves y and dy as they were; a tick that touches nothing is exactly old position + (dx, dy) with the direction unchanged |
| Physics.CornerReflectsBoth | src/index.ts:79-101 | when a vertical and a horizontal wall are both passed on one tick, both components are negated, each by its own stage |
| Physics.NoImmediateRebounce | src/index.ts:104-111 | after a paddle bounce, the next tick against a paddle at the same height cannot bounce again, because the ball no longer starts above the edge |
| Physics.BottomWallScenario | src/index.ts:84-88 | a ball at (400, 795) moving (0, 5) ends at (400, 790) moving (0, -5) |
| Physics.PaddleSnapSinksIntoPaddle | src/index.ts:104-111 | after a paddle bounce the ball's lower rim is on the paddle's centre line, paddleSize.y/2 below the paddle's top edge |
| Physics.PaddleScenario | src/index.ts:104-114 | a ball at (400, 733) moving (0, 5), whose lower rim crosses the starting paddle's top edge 745 (centre crossing 735), ends at (400, 740) moving (0, -5), its rim 5 inside the paddle |
| Controls.OnKeyDown | src/index.ts:187-192 | ArrowLeft sets the left flag and ArrowRight the right flag, each leaving the other flag alone; any other code changes nothing |
| Controls.OnKeyUp | src/index.ts:194-199 | ArrowLeft clears the left flag and ArrowRight the right flag, each leaving the other flag alone; any other code changes nothing |
| Controls.Choose | src/index.ts:201-204 | the move is left exactly when the left flag is set; right exactly when only the right flag is set; none when neither is set |
| Controls.Moved | src/index.ts:157-163 | moving left subtracts and moving right adds exactly paddleSpeed to x; y never changes; there is no clamp |
| Controls.KeyUpUndoesKeyDown | src/index.ts:187-199 | a key-up after a key-down of the same code gives the same flags as the key-up alone |
| Controls.MovesAreInverse | src/index.ts:157-163 | moveLeft and moveRight undo each other |
| Session.Start | src/index.ts:62-65 | the activated game (ball at the centre with any direction of length ballSpeed, paddle at (400, 750), no key held) satisfies the game invariant |
| Session.Apply | src/index.ts:187-204 | a key-down or key-up changes only the flags as Controls.OnKeyDown/OnKeyUp say; a frame (paddle input before ball, the order of src/index.ts:24-31) keeps the flags, moves the paddle as Controls.Choose selects, then steps the ball by Physics.Step against the moved paddle; no event changes the paddle's row |
| Session.ApplyKeepsPlayable | src/index.ts:70-118 | a key event or a frame keeps the ball within all four walls, keeps its speed at ballSpeed and keeps the paddle on its row |
| Session.RunKeepsPlayable | src/index.ts:70-118 | every history of key events and frames that starts from a playable world keeps it playable |
| Session.FlagsFollowLastEvent | src/index.ts:187-199 | after any history, each arrow flag is set exactly when the last key event for that arrow was a key-down; with no such event it keeps its initial value |
| Session.HeldLeftDrifts | src/index.ts:201-204 | while the left flag is set, n frames move the paddle left by n * paddleSpeed, keep its row and leave the flags unchanged |
| Session.PaddleLeavesBoard | src/index.ts:157-159 | after a left-arrow key-down from the start, 81 frames put the paddle's centre at a negative x, since nothing clamps it |
| Chips.Paddle.constructor | src/index.ts:136-137 | activation places the paddle at (400, 750) |
| Chips.Paddle.MoveLeft | src/index.ts:157-159 | x decreases by exactly paddleSpeed and y is unchanged |
| Chips.Paddle.MoveRight | src/index.ts:161-163 | x increases by exactly paddleSpeed and y is unchanged |
| Chips.Ball.constructor | src/index.ts:56-65 | construction and activation link the paddle, centre the ball and store a direction of length ballSpeed |
| Chips.Ball.Tick | src/index.ts:70-118 | the in-place tick produces exactly Physics.Step of the old state against the paddle's position; x ends within the side walls and dx² + dy² is unchanged |
| Chips.PaddleInput.constructor | src/index.ts:170-180 | the input is linked to its paddle and starts with both flags clear |
| Chips.PaddleInput.OnKeyDown | src/index.ts:187-192 | the flags become Controls.OnKeyDown of the old flags |
| Chips.PaddleInput.OnKeyUp | src/index.ts:194-199 | the flags become Controls.OnKeyUp of the old flags |
| Chips.PaddleInput.Tick | src/index.ts:201-204 | the paddle makes the move Controls.Choose selects from the flags, and only the paddle changes |
| Chips.Activate | src/index.ts:23-31 | creating the paddle, its input and the ball links input and ball to one fresh paddle and yields exactly Session.Start, so Chips.Frame's invariant holds from activation on |
| Chips.Frame | src/index.ts:24-31 | input tick then ball tick yields Session.Apply of the old world on a frame, and keeps the game invariant |

## Left out

- Canvas creation and every `_draw`: rendering side effects with no effect on the game state.
- The composition framework (`Game`, `_onActivate` wiring, `_activateChildChip`, `running.Runner`). The tick order it produces (paddle input before ball) is written out as `Chips.Frame`.
- Event-listener registration and `console.log` in the key handlers: I/O. The handlers take the key code as a parameter.
- `Math.random` for the initial angle: randomness. The initial direction is a parameter of any length `ballSpeed`.
- `Math.cos`, `Math.sin`, `Math.atan2` and floating point in general. The model uses exact reals and the displacement vector. Speed is therefore preserved exactly, where the source drifts by rounding error.
- The ball's `_velocity` field: it is the constant `ballSpeed` and is folded into the length of the displacement.
- `Paddle.position`, the getter: modelled as a direct read of the paddle's `position` field.
- `_leftDown` and `_rightDown` start undefined in the source. The model starts them at `false`, since the `if` statements in `_onTick` treat undefined as false.
