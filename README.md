# Pong simulation step, modelled in Dafny

This project models the simulation core of a small browser Pong game
(`poon/game.js`). The game state is eight variables: the ball's position
and velocity, the tops of the two paddles, and two scores. These are
changed by:

- the pointer handler, which centres the player (left) paddle on the
  pointer and clamps it into the arena;
- `updateBall`, which takes one Euler step and then, in this order and
  against the same moved position, checks the top and bottom walls, then
  the left paddle, then the right paddle, then the two goal lines;
- `resetBall`, which re-serves the ball from the centre with random speeds;
- `updateAI`, which moves the right paddle one fixed step towards the
  ball's centre and clamps it;
- `gameLoop`, whose tick is `updateBall` followed by `updateAI`.

Everything lives in module `Pong` (`pong.dfy`):

- Pure functions state what each phase does: `Clamp`, `PaddleFromPointer`,
  `BounceWalls`, `Spin`, `BounceLeft`, `BounceRight`, `Deflect`, `Serve`,
  `Goal`, `AITarget`, `TrackTarget` and `AIMove`. Each has its own contract.
  `BallStep` and `TickStep` compose them into one ball update and one
  frame.
- Class `World` holds the eight variables as fields. The arena size is
  given as `const` fields. Its methods are the source's imperative code,
  written with the same assignments and the same order. Each method's
  `ensures` ties the new state to the spec function of the old state.
  `updateBall` is split into one method per commented section
  (`CollideWalls`, `CollideLeftPaddle`, `CollideRightPaddle`,
  `CheckGoals`), and `UpdateBall` calls them in the source's order.
- Lemmas cover what holds across phases and across frames. One frame keeps
  the invariant: paddles in range, ball between the walls, scores never
  decrease, at most one goal. The left and right goals have exact effects.
  Free flight moves the ball by exactly its velocity. The AI paddle never
  overshoots its target by more than one step. Among pointer events, the
  last one wins. The invariant holds after any sequence of frames.

The arena width and height are parameters of the `World` constructor. The
source reads them from the canvas. The constructor requires
`width >= 0` (a canvas width is never negative) and
`height >= PADDLE_HEIGHT` and `height >= BALL_SIZE`. The three
`Math.random()` calls of `resetBall` are parameters `r1`, `r2`, `r3` in
`[0, 1)`, in the order JavaScript evaluates them: `r1` sets the horizontal
speed, `r2` the vertical sign (`> 0.5` is downwards), and `r3` the vertical
speed. The spin factor 0.15 is the exact real `15/100`.

Two consequences of the code, both proved:

- The ball's Y ends every `updateBall` in `[0, HEIGHT - BALL_SIZE]`, not
  only after a wall bounce: a move that reaches no wall stays inside, and
  a serve puts the ball at the centre (`BallStepKeepsInv`).
- The second goal check (`ballX > WIDTH`) reads `ballX` after a possible
  re-serve from the first check, and the model does the same. For
  `width >= 0` that check never fires after a left goal (`Goal`).

## Model

| member | source | states |
|---|---|---|
| `Pong.Clamp` | poon/game.js:31-33 | result is at least `lo`; at most `hi` when `lo <= hi`; equals `val` when `val` is in range; is the violated bound otherwise; is `lo` when the bounds are inverted |
| `Pong.ClampIsNearest` | poon/game.js:31-33 | the clamped value is the point of `[lo, hi]` closest to `val` |
| `Pong.ClampIdempotent` | poon/game.js:31-33 | clamping an already clamped value changes nothing |
| `Pong.Initial` | poon/game.js:14-28 | ball and both paddles start centred, velocity (6, 4), both scores 0; the start state satisfies the invariant |
| `Pong.PaddleFromPointer` | poon/game.js:39 | the paddle top is always in `[0, HEIGHT - PADDLE_HEIGHT]`; when the pointer is at least half a paddle from both walls, the paddle centre is at the pointer; otherwise the paddle sits against the nearer wall |
| `Pong.PointerExample` | poon/game.js:39 | raw Y 250 in a 500-high arena gives paddle top exactly 200 |
| `Pong.BounceWalls` | poon/game.js:79-83 | afterwards the ball is always in `[0, HEIGHT - BALL_SIZE]`; on a wall hit vY is negated and Y is 0 (top) or `HEIGHT - BALL_SIZE` (bottom); without a hit nothing changes; X and vX are never touched |
| `Pong.Spin` | poon/game.js:93-94 | zero for a dead-centre hit; positive exactly when the ball's centre is below the paddle's; on an overlapping hit its magnitude is below `0.15 * 58` |
| `Pong.BounceLeft` | poon/game.js:86-95 | keeps abs(vX) and the position; on a hit vX >= 0 and vY grows by exactly the spin; without a hit nothing changes |
| `Pong.BounceRight` | poon/game.js:98-106 | keeps abs(vX) and the position; on a hit vX <= 0 and vY grows by exactly the spin; without a hit nothing changes |
| `Pong.Deflect` | poon/game.js:75-106 | after the step and the three collision checks, X is the old X plus vX, Y lies between the walls, and abs(vX) is unchanged |
| `Pong.Serve` | poon/game.js:131-136 | the ball is centred in the arena; vX is in `[5, 7)` for a non-negative direction and in `(-7, -5]` otherwise; abs(vY) is in `[3, 5)`; vY > 0 exactly when the second draw exceeds 0.5 |
| `Pong.ServeCoversRange` | poon/game.js:134-135 | every speed in `[5, 7)` × `[3, 5)`, with either vertical sign, is produced by some draws |
| `Pong.HitsWall` | poon/game.js:80 | the wall condition: the ball's top at or above 0, or its bottom at or below HEIGHT; its effect is stated by `BounceWalls` |
| `Pong.OverlapsPaddle` | poon/game.js:88-89 | the open vertical-overlap test holds exactly when the ball's and the paddle's centres are less than `(BALL_SIZE + PADDLE_HEIGHT) / 2` apart |
| `Pong.HitsLeftPaddle` | poon/game.js:86-89 | the left-paddle condition: the ball's left edge at or left of the paddle's face and a vertical overlap; its effect is stated by `BounceLeft` |
| `Pong.HitsRightPaddle` | poon/game.js:98-101 | the right-paddle condition: the ball's right edge at or right of the paddle's face and a vertical overlap; its effect is stated by `BounceRight` |
| `Pong.Goal` | poon/game.js:108-116 | left exit: right score +1, left score unchanged, ball served left; right exit: left score +1, right unchanged, ball served right; on neither, only the ball changes; paddles untouched |
| `Pong.BallStep` | poon/game.js:75-117 | one `updateBall`, defined as `Goal` after `Deflect`; keeps both paddles, never lowers a score, and leaves the ball between the walls; its other properties are in `BallStepKeepsInv`, `LeftGoal`, `RightGoal` and `FreeFlight` |
| `Pong.BallStepKeepsInv` | poon/game.js:75-117 | one ball update keeps paddles, keeps ball Y between the walls and X in `[-BALL_SIZE/2, WIDTH]`, never lowers a score and adds at most one goal |
| `Pong.LeftGoal` | poon/game.js:109-112 | when the moved ball has X < 0: right score +1, left unchanged, ball at `(WIDTH/2 - 8, HEIGHT/2 - 8)`, vX in `(-7, -5]`, abs(vY) in `[3, 5)` |
| `Pong.RightGoal` | poon/game.js:113-116 | when the moved ball has X > WIDTH: left score +1, right unchanged, ball re-centred, vX in `[5, 7)`, abs(vY) in `[3, 5)` |
| `Pong.FreeFlight` | poon/game.js:75-117 | with no wall, paddle or goal condition the ball moves to exactly `(x + vX, y + vY)` and nothing else changes |
| `Pong.AITarget` | poon/game.js:121 | the target puts the paddle's centre level with the ball's centre |
| `Pong.TrackTarget` | poon/game.js:122-126 | the paddle moves by exactly +5, -5 or 0; by 0 exactly when it is on the target; towards larger Y exactly when its top is less than the target |
| `Pong.AIMove` | poon/game.js:120-128 | the AI paddle ends in `[0, HEIGHT - PADDLE_HEIGHT]`, and equals the tracked position whenever that is already in range |
| `Pong.AINoOvershoot` | poon/game.js:120-128 | a paddle within one step of its target is within one step of it after the update |
| `Pong.AIApproaches` | poon/game.js:120-128 | a paddle further than one step gets exactly one step closer unless it stops at an arena edge |
| `Pong.TickStep` | poon/game.js:139-141 | one tick, defined as `BallStep` then `AIMove`: the ball and scores are those of `BallStep`, and the AI paddle moves against the updated ball's Y; the player paddle is untouched and scores never fall; the invariant is in `TickKeepsInv` |
| `Pong.TickKeepsInv` | poon/game.js:139-141 | one frame (ball update, then AI update) keeps the invariant, leaves the player paddle alone, never lowers a score and adds at most one goal |
| `Pong.FirstTickExample` | poon/game.js:139-141 | in an 800 × 500 arena the first frame moves the ball from (392, 242) to (398, 246) at velocity (6, 4), with no score; the AI paddle steps from 200 to 205 |
| `Pong.Pointed` | poon/game.js:36-40 | a burst of pointer events, each doing line 39 in turn; only the player paddle changes, and no events change nothing; last-write-wins is `LastPointerWins` |
| `Pong.LastPointerWins` | poon/game.js:36-40 | a burst of pointer events leaves the paddle where the last one puts it |
| `Pong.PointedKeepsInv` | poon/game.js:36-40 | pointer events keep the invariant and change only the player paddle |
| `Pong.Play` | poon/game.js:139-143 | finitely many frames of the animation loop, each its pointer events then a tick; scores never fall and no frames change nothing; the invariant is in `PlayKeepsInv` |
| `Pong.PlayKeepsInv` | poon/game.js:139-143 | after any sequence of frames the invariant holds, no score has decreased, and the total goals grew by at most the number of frames |
| `Pong.World.constructor` | poon/game.js:14-28 | the world starts in `Initial(width, height)` and is valid |
| `Pong.World.MovePlayerPaddle` | poon/game.js:39 | only the left paddle changes, to `PaddleFromPointer(rawY, height)`; validity is kept |
| `Pong.World.ResetBall` | poon/game.js:131-136 | only the ball changes, to `Serve(direction, r1, r2, r3, …)` |
| `Pong.World.CollideWalls` | poon/game.js:79-83 | only the ball changes, to `BounceWalls` of the old ball |
| `Pong.World.CollideLeftPaddle` | poon/game.js:86-95 | only the ball changes, to `BounceLeft` of the old ball |
| `Pong.World.CollideRightPaddle` | poon/game.js:98-106 | only the ball changes, to `BounceRight` of the old ball |
| `Pong.World.CheckGoals` | poon/game.js:109-116 | the new state is `Goal` of the old one; validity is kept |
| `Pong.World.UpdateBall` | poon/game.js:75-117 | the new state is `BallStep` of the old state; validity is kept |
| `Pong.World.UpdateAI` | poon/game.js:120-128 | only the right paddle changes, to `AIMove` of its old position and the current ball Y; validity is kept |
| `Pong.World.Tick` | poon/game.js:139-141 | the new state is `TickStep` of the old state, so the AI sees the updated ball; validity is kept |

## Left out

- Pong.World.constructor: the game accepts any canvas, but the model
  requires `width >= 0`, `height >= PADDLE_HEIGHT` and
  `height >= BALL_SIZE`. What is lost is the degenerate arena: with
  `HEIGHT < 100`, `clamp(…, 0, HEIGHT - 100)` pins both paddles at 0, and
  with `HEIGHT < 16` the wall clamp pins the ball at 0.

- Canvas acquisition and reading `canvas.width`/`canvas.height`
  (game.js:1-5): both dimensions are constructor parameters.
- `draw()` (game.js:43-72): it only renders and changes no state.
- The `mousemove` listener and `getBoundingClientRect` (game.js:36-38):
  browser I/O. Only the conversion at line 39 is modelled
  (`MovePlayerPaddle`). Across frames, the pointer events between two
  ticks are a sequence in `Frame`.
- `requestAnimationFrame` and the top-level start (game.js:143, 147): an
  external scheduler. The model has one `Tick`, and `Play` describes a
  finite run of frames.
- `Math.random()` (game.js:134-135): a foreign call. The draws are
  parameters in `[0, 1)`. Each tick gets one triple of draws. A second
  re-serve in the same tick would need fresh draws, but `Goal` proves that
  this cannot happen for a non-negative width.
- IEEE-754 floating point: all arithmetic is exact `real`. Rounding, NaN
  and infinities are not modelled.
- Scores are `nat`. JavaScript numbers lose integer precision above 2^53,
  which the model ignores.
- Repeated paddle hits on consecutive ticks are kept as the code has them.
  Nothing is proved about them.
