/** A per-frame model of a two-paddle Pong game: the ball is integrated one
    explicit Euler step per tick, bounces off the top and bottom walls and off
    the two paddles (with "spin"), and scores a goal when it leaves the arena
    on the left or the right.  The left paddle follows the pointer, the right
    paddle is driven by a fixed-step tracking rule.

    All arithmetic is exact `real` arithmetic; the IEEE-754 double
    arithmetic of the game is not modelled. */
module Pong {

  // ---------------------------------------------------------------------------
  // Settings
  // ---------------------------------------------------------------------------

  const PADDLE_WIDTH: real := 16.0
  const PADDLE_HEIGHT: real := 100.0
  const PADDLE_MARGIN: real := 10.0
  const BALL_SIZE: real := 16.0
  const AI_SPEED: real := 5.0
  /** Factor applied to the hit offset to obtain the vertical spin (0.15). */
  const SPIN_FACTOR: real := 15.0 / 100.0

  /** Starting velocity of the first serve. */
  const START_SPEED_X: real := 6.0
  const START_SPEED_Y: real := 4.0

  // ---------------------------------------------------------------------------
  // Arithmetic helpers (Math.abs, Math.min, Math.max)
  // ---------------------------------------------------------------------------

  function Abs(x: real): real { if x < 0.0 then -x else x }
  function Min(a: real, b: real): real { if a <= b then a else b }
  function Max(a: real, b: real): real { if a >= b then a else b }

  /** `Math.max(lo, Math.min(hi, val))`: bounds `val` into `[lo, hi]`.
      When the bounds are inverted the lower bound wins. */
  function Clamp(val: real, lo: real, hi: real): (r: real)
    ensures lo <= r
    ensures lo <= hi ==> r <= hi
    ensures lo <= val <= hi ==> r == val
    ensures val < lo ==> r == lo
    ensures lo <= hi < val ==> r == hi
    ensures hi < lo ==> r == lo
  {
    Max(lo, Min(hi, val))
  }

  /** Clamp returns the point of `[lo, hi]` nearest to `val`. */
  lemma ClampIsNearest(val: real, lo: real, hi: real, x: real)
    requires lo <= x <= hi
    ensures Abs(Clamp(val, lo, hi) - val) <= Abs(x - val)
  {
  }

  /** Clamping twice is clamping once. */
  lemma ClampIdempotent(val: real, lo: real, hi: real)
    ensures Clamp(Clamp(val, lo, hi), lo, hi) == Clamp(val, lo, hi)
  {
  }

  // ---------------------------------------------------------------------------
  // State
  // ---------------------------------------------------------------------------

  /** Ball: top-left corner of its bounding box and its velocity per tick. */
  datatype Ball = Ball(x: real, y: real, vx: real, vy: real)

  /** The eight variables the game mutates. */
  datatype GameState = GameState(
    ball: Ball,
    leftPaddleY: real,
    rightPaddleY: real,
    leftScore: nat,
    rightScore: nat)

  /** Paddle tops stay inside the arena. */
  predicate PaddleInRange(y: real, height: real) {
    0.0 <= y <= height - PADDLE_HEIGHT
  }

  /** A sane arena, both paddles in range and the ball between the walls. */
  predicate Inv(s: GameState, width: real, height: real) {
    width >= 0.0 && height >= PADDLE_HEIGHT && height >= BALL_SIZE
    && PaddleInRange(s.leftPaddleY, height)
    && PaddleInRange(s.rightPaddleY, height)
    && 0.0 <= s.ball.y <= height - BALL_SIZE
  }

  /** The state the game starts in: ball and both paddles centred, no score. */
  function Initial(width: real, height: real): (s: GameState)
    ensures s.ball.x + BALL_SIZE / 2.0 == width / 2.0
    ensures s.ball.y + BALL_SIZE / 2.0 == height / 2.0
    ensures s.leftPaddleY + PADDLE_HEIGHT / 2.0 == height / 2.0
    ensures s.rightPaddleY + PADDLE_HEIGHT / 2.0 == height / 2.0
    ensures s.ball.vx == START_SPEED_X && s.ball.vy == START_SPEED_Y
    ensures s.leftScore == 0 && s.rightScore == 0
    ensures width >= 0.0 && height >= PADDLE_HEIGHT && height >= BALL_SIZE ==> Inv(s, width, height)
  {
    GameState(
      Ball(width / 2.0 - BALL_SIZE / 2.0, height / 2.0 - BALL_SIZE / 2.0, START_SPEED_X, START_SPEED_Y),
      height / 2.0 - PADDLE_HEIGHT / 2.0,
      height / 2.0 - PADDLE_HEIGHT / 2.0,
      0, 0)
  }

  // ---------------------------------------------------------------------------
  // Player paddle
  // ---------------------------------------------------------------------------

  /** The paddle top for a raw pointer coordinate: the paddle is centred on the
      pointer and kept inside the arena. */
  function PaddleFromPointer(rawY: real, height: real): (r: real)
    ensures height >= PADDLE_HEIGHT ==> PaddleInRange(r, height)
    ensures PADDLE_HEIGHT / 2.0 <= rawY <= height - PADDLE_HEIGHT / 2.0
            ==> r + PADDLE_HEIGHT / 2.0 == rawY
    ensures rawY < PADDLE_HEIGHT / 2.0 ==> r == 0.0
    ensures height >= PADDLE_HEIGHT && rawY > height - PADDLE_HEIGHT / 2.0
            ==> r == height - PADDLE_HEIGHT
  {
    Clamp(rawY - PADDLE_HEIGHT / 2.0, 0.0, height - PADDLE_HEIGHT)
  }

  /** A pointer at 250 in a 500-high arena puts the paddle top at 200. */
  lemma PointerExample()
    ensures PaddleFromPointer(250.0, 500.0) == 200.0
  {
  }

  // ---------------------------------------------------------------------------
  // Ball: walls, paddles, spin
  // ---------------------------------------------------------------------------

  /** The ball touches or passes the top or the bottom wall. */
  predicate HitsWall(y: real, height: real) {
    y <= 0.0 || y + BALL_SIZE >= height
  }

  /** Wall bounce: the vertical velocity is reversed and the ball is put back
      between the walls.  Afterwards the ball is always between the walls. */
  function BounceWalls(b: Ball, height: real): (r: Ball)
    ensures r.x == b.x && r.vx == b.vx
    ensures height >= BALL_SIZE ==> 0.0 <= r.y <= height - BALL_SIZE
    ensures HitsWall(b.y, height) ==> r.vy == -b.vy
    ensures HitsWall(b.y, height) && height >= BALL_SIZE && b.y <= 0.0 ==> r.y == 0.0
    ensures b.y + BALL_SIZE >= height && height >= BALL_SIZE ==> r.y == height - BALL_SIZE
    ensures !HitsWall(b.y, height) ==> r == b
  {
    if HitsWall(b.y, height) then
      b.(vy := -b.vy, y := Clamp(b.y, 0.0, height - BALL_SIZE))
    else
      b
  }

  /** Vertical spans of the ball and of a paddle overlap (open intervals):
      their centres are less than half their summed heights apart. */
  predicate OverlapsPaddle(ballY: real, paddleY: real): (hit: bool)
    ensures hit <==> Abs((ballY + BALL_SIZE / 2.0) - (paddleY + PADDLE_HEIGHT / 2.0))
                     < (BALL_SIZE + PADDLE_HEIGHT) / 2.0
  {
    ballY + BALL_SIZE > paddleY && ballY < paddleY + PADDLE_HEIGHT
  }

  predicate HitsLeftPaddle(b: Ball, leftPaddleY: real) {
    b.x <= PADDLE_MARGIN + PADDLE_WIDTH && OverlapsPaddle(b.y, leftPaddleY)
  }

  predicate HitsRightPaddle(b: Ball, rightPaddleY: real, width: real) {
    b.x + BALL_SIZE >= width - PADDLE_MARGIN - PADDLE_WIDTH && OverlapsPaddle(b.y, rightPaddleY)
  }

  /** Spin: the offset of the ball's centre from the paddle's centre, scaled.
      A dead-centre hit adds nothing, a hit below the centre pushes the ball
      down, and on an overlapping hit the spin stays below 0.15 * 58. */
  function Spin(ballY: real, paddleY: real): (r: real)
    ensures ballY + BALL_SIZE / 2.0 == paddleY + PADDLE_HEIGHT / 2.0 ==> r == 0.0
    ensures r > 0.0 <==> ballY + BALL_SIZE / 2.0 > paddleY + PADDLE_HEIGHT / 2.0
    ensures r < 0.0 <==> ballY + BALL_SIZE / 2.0 < paddleY + PADDLE_HEIGHT / 2.0
    ensures OverlapsPaddle(ballY, paddleY)
            ==> Abs(r) < SPIN_FACTOR * (BALL_SIZE / 2.0 + PADDLE_HEIGHT / 2.0)
  {
    ((ballY + BALL_SIZE / 2.0) - (paddleY + PADDLE_HEIGHT / 2.0)) * SPIN_FACTOR
  }

  /** Left paddle: the horizontal speed is kept and pointed right, and the
      spin is added to the vertical velocity. */
  function BounceLeft(b: Ball, leftPaddleY: real): (r: Ball)
    ensures r.x == b.x && r.y == b.y
    ensures Abs(r.vx) == Abs(b.vx)
    ensures HitsLeftPaddle(b, leftPaddleY) ==> r.vx >= 0.0 && r.vy == b.vy + Spin(b.y, leftPaddleY)
    ensures !HitsLeftPaddle(b, leftPaddleY) ==> r == b
  {
    if HitsLeftPaddle(b, leftPaddleY) then
      b.(vx := Abs(b.vx), vy := b.vy + Spin(b.y, leftPaddleY))
    else
      b
  }

  /** Right paddle: the mirror image, the horizontal velocity is pointed left. */
  function BounceRight(b: Ball, rightPaddleY: real, width: real): (r: Ball)
    ensures r.x == b.x && r.y == b.y
    ensures Abs(r.vx) == Abs(b.vx)
    ensures HitsRightPaddle(b, rightPaddleY, width) ==> r.vx <= 0.0 && r.vy == b.vy + Spin(b.y, rightPaddleY)
    ensures !HitsRightPaddle(b, rightPaddleY, width) ==> r == b
  {
    if HitsRightPaddle(b, rightPaddleY, width) then
      b.(vx := -Abs(b.vx), vy := b.vy + Spin(b.y, rightPaddleY))
    else
      b
  }

  /** The Euler step followed by the wall, left-paddle and right-paddle
      checks, all on the same integrated position. */
  function Deflect(b: Ball, leftPaddleY: real, rightPaddleY: real, width: real, height: real): (r: Ball)
    ensures r.x == b.x + b.vx
    ensures height >= BALL_SIZE ==> 0.0 <= r.y <= height - BALL_SIZE
    ensures Abs(r.vx) == Abs(b.vx)
  {
    var moved := Ball(b.x + b.vx, b.y + b.vy, b.vx, b.vy);
    BounceRight(BounceLeft(BounceWalls(moved, height), leftPaddleY), rightPaddleY, width)
  }

  // ---------------------------------------------------------------------------
  // Scoring and serve
  // ---------------------------------------------------------------------------

  /** `Math.random()` returns a value in [0, 1). */
  predicate IsDraw(r: real) { 0.0 <= r < 1.0 }

  /** The ball after a goal: centred, horizontal speed drawn from [5, 7) in
      the given direction, vertical speed drawn from [3, 5) with a random
      sign.  `r1`, `r2`, `r3` are the three random draws, in call order. */
  function Serve(direction: int, r1: real, r2: real, r3: real, width: real, height: real): (b: Ball)
    requires IsDraw(r1) && IsDraw(r2) && IsDraw(r3)
    ensures b.x + BALL_SIZE / 2.0 == width / 2.0 && b.y + BALL_SIZE / 2.0 == height / 2.0
    ensures direction >= 0 ==> 5.0 <= b.vx < 7.0
    ensures direction < 0 ==> -7.0 < b.vx <= -5.0
    ensures 3.0 <= Abs(b.vy) < 5.0
    ensures b.vy > 0.0 <==> r2 > 0.5
  {
    var sx: real := if direction >= 0 then 1.0 else -1.0;
    var sy: real := if r2 > 0.5 then 1.0 else -1.0;
    Ball(width / 2.0 - BALL_SIZE / 2.0, height / 2.0 - BALL_SIZE / 2.0,
         sx * (5.0 + r1 * 2.0), sy * (3.0 + r3 * 2.0))
  }

  /** Every horizontal speed in [5, 7) and every vertical speed in [3, 5),
      with either sign, is served by some draw. */
  lemma ServeCoversRange(direction: int, vx: real, vy: real, up: bool, width: real, height: real)
    requires 5.0 <= vx < 7.0 && 3.0 <= vy < 5.0
    ensures var b := Serve(direction, (vx - 5.0) / 2.0, if up then 0.75 else 0.25, (vy - 3.0) / 2.0, width, height);
            Abs(b.vx) == vx && Abs(b.vy) == vy && (b.vy > 0.0 <==> up)
  {
  }

  /** Goal-line checks after the ball has moved, in order: left exit (right
      scores, serve to the left), then right exit on the possibly re-served
      ball (left scores, serve to the right). */
  function Goal(s: GameState, b: Ball, r1: real, r2: real, r3: real, width: real, height: real): (r: GameState)
    requires IsDraw(r1) && IsDraw(r2) && IsDraw(r3)
    ensures r.leftPaddleY == s.leftPaddleY && r.rightPaddleY == s.rightPaddleY
    ensures b.x < 0.0 && width >= 0.0 ==>
              r.rightScore == s.rightScore + 1 && r.leftScore == s.leftScore
              && r.ball == Serve(-1, r1, r2, r3, width, height)
    ensures b.x > width && width >= 0.0 ==>
              r.leftScore == s.leftScore + 1 && r.rightScore == s.rightScore
              && r.ball == Serve(1, r1, r2, r3, width, height)
    ensures 0.0 <= b.x <= width ==> r == s.(ball := b)
  {
    var afterLeft :=
      if b.x < 0.0 then
        s.(rightScore := s.rightScore + 1, ball := Serve(-1, r1, r2, r3, width, height))
      else
        s.(ball := b);
    if afterLeft.ball.x > width then
      afterLeft.(leftScore := afterLeft.leftScore + 1, ball := Serve(1, r1, r2, r3, width, height))
    else
      afterLeft
  }

  /** One ball update: move, bounce, score. */
  function BallStep(s: GameState, r1: real, r2: real, r3: real, width: real, height: real): (r: GameState)
    requires IsDraw(r1) && IsDraw(r2) && IsDraw(r3)
    ensures r.leftPaddleY == s.leftPaddleY && r.rightPaddleY == s.rightPaddleY
    ensures s.leftScore <= r.leftScore && s.rightScore <= r.rightScore
    ensures height >= BALL_SIZE ==> 0.0 <= r.ball.y <= height - BALL_SIZE
  {
    Goal(s, Deflect(s.ball, s.leftPaddleY, s.rightPaddleY, width, height), r1, r2, r3, width, height)
  }

  /** A ball update keeps the invariant, touches no paddle, and at most one
      side scores, by exactly one. */
  lemma BallStepKeepsInv(s: GameState, r1: real, r2: real, r3: real, width: real, height: real)
    requires IsDraw(r1) && IsDraw(r2) && IsDraw(r3)
    requires Inv(s, width, height)
    ensures var t := BallStep(s, r1, r2, r3, width, height);
            Inv(t, width, height)
            && t.leftPaddleY == s.leftPaddleY && t.rightPaddleY == s.rightPaddleY
            && s.leftScore <= t.leftScore && s.rightScore <= t.rightScore
            && t.leftScore + t.rightScore <= s.leftScore + s.rightScore + 1
            && -BALL_SIZE / 2.0 <= t.ball.x <= width
  {
  }

  /** Left exit: right scores by one, the ball is re-served to the left. */
  lemma LeftGoal(s: GameState, r1: real, r2: real, r3: real, width: real, height: real)
    requires IsDraw(r1) && IsDraw(r2) && IsDraw(r3)
    requires Inv(s, width, height)
    requires Deflect(s.ball, s.leftPaddleY, s.rightPaddleY, width, height).x < 0.0
    ensures var t := BallStep(s, r1, r2, r3, width, height);
            t.rightScore == s.rightScore + 1 && t.leftScore == s.leftScore
            && t.ball.x == width / 2.0 - BALL_SIZE / 2.0 && t.ball.y == height / 2.0 - BALL_SIZE / 2.0
            && -7.0 < t.ball.vx <= -5.0 && 3.0 <= Abs(t.ball.vy) < 5.0
  {
  }

  /** Right exit: left scores by one, the ball is re-served to the right. */
  lemma RightGoal(s: GameState, r1: real, r2: real, r3: real, width: real, height: real)
    requires IsDraw(r1) && IsDraw(r2) && IsDraw(r3)
    requires Inv(s, width, height)
    requires Deflect(s.ball, s.leftPaddleY, s.rightPaddleY, width, height).x > width
    ensures var t := BallStep(s, r1, r2, r3, width, height);
            t.leftScore == s.leftScore + 1 && t.rightScore == s.rightScore
            && t.ball.x == width / 2.0 - BALL_SIZE / 2.0 && t.ball.y == height / 2.0 - BALL_SIZE / 2.0
            && 5.0 <= t.ball.vx < 7.0 && 3.0 <= Abs(t.ball.vy) < 5.0
  {
  }

  /** When no wall, paddle or goal condition fires, the ball just moves by
      its velocity and nothing else changes. */
  lemma FreeFlight(s: GameState, r1: real, r2: real, r3: real, width: real, height: real)
    requires IsDraw(r1) && IsDraw(r2) && IsDraw(r3)
    requires var moved := Ball(s.ball.x + s.ball.vx, s.ball.y + s.ball.vy, s.ball.vx, s.ball.vy);
             !HitsWall(moved.y, height)
             && !HitsLeftPaddle(moved, s.leftPaddleY)
             && !HitsRightPaddle(moved, s.rightPaddleY, width)
             && 0.0 <= moved.x <= width
    ensures BallStep(s, r1, r2, r3, width, height)
            == s.(ball := Ball(s.ball.x + s.ball.vx, s.ball.y + s.ball.vy, s.ball.vx, s.ball.vy))
  {
  }

  // ---------------------------------------------------------------------------
  // AI paddle
  // ---------------------------------------------------------------------------

  /** The paddle top that centres the paddle on the ball. */
  function AITarget(ballY: real): (t: real)
    ensures t + PADDLE_HEIGHT / 2.0 == ballY + BALL_SIZE / 2.0
  {
    ballY + BALL_SIZE / 2.0 - PADDLE_HEIGHT / 2.0
  }

  /** Fixed-step tracking: one AI_SPEED step towards the target, none when on it. */
  function TrackTarget(paddleY: real, targetY: real): (r: real)
    ensures r == paddleY + AI_SPEED || r == paddleY - AI_SPEED || r == paddleY
    ensures r == paddleY <==> paddleY == targetY
    ensures r > paddleY <==> paddleY < targetY
  {
    if paddleY < targetY then paddleY + AI_SPEED
    else if paddleY > targetY then paddleY - AI_SPEED
    else paddleY
  }

  /** The AI paddle after one update: tracked towards the ball, then clamped. */
  function AIMove(paddleY: real, ballY: real, height: real): (r: real)
    ensures height >= PADDLE_HEIGHT ==> PaddleInRange(r, height)
    ensures PaddleInRange(TrackTarget(paddleY, AITarget(ballY)), height)
            ==> r == TrackTarget(paddleY, AITarget(ballY))
  {
    Clamp(TrackTarget(paddleY, AITarget(ballY)), 0.0, height - PADDLE_HEIGHT)
  }

  /** A paddle within one step of its target stays within one step of it:
      the tracking overshoots by at most AI_SPEED, and the clamp does not
      make that worse. */
  lemma AINoOvershoot(paddleY: real, ballY: real, height: real)
    requires height >= PADDLE_HEIGHT && PaddleInRange(paddleY, height)
    requires Abs(paddleY - AITarget(ballY)) <= AI_SPEED
    ensures Abs(AIMove(paddleY, ballY, height) - AITarget(ballY)) <= AI_SPEED
  {
  }

  /** A paddle further than one step from its target gets exactly one step
      closer, unless the clamp stops it at the arena's edge. */
  lemma AIApproaches(paddleY: real, ballY: real, height: real)
    requires height >= PADDLE_HEIGHT && PaddleInRange(paddleY, height)
    requires Abs(paddleY - AITarget(ballY)) > AI_SPEED
    ensures var r := AIMove(paddleY, ballY, height);
            Abs(r - AITarget(ballY)) == Abs(paddleY - AITarget(ballY)) - AI_SPEED
            || r == 0.0 || r == height - PADDLE_HEIGHT
  {
  }

  // ---------------------------------------------------------------------------
  // Tick
  // ---------------------------------------------------------------------------

  /** One frame: the ball update, then the AI update, which sees the new ball. */
  function TickStep(s: GameState, r1: real, r2: real, r3: real, width: real, height: real): (r: GameState)
    requires IsDraw(r1) && IsDraw(r2) && IsDraw(r3)
    ensures var t := BallStep(s, r1, r2, r3, width, height);
            r.ball == t.ball && r.leftScore == t.leftScore && r.rightScore == t.rightScore
            && r.rightPaddleY == AIMove(s.rightPaddleY, t.ball.y, height)
    ensures r.leftPaddleY == s.leftPaddleY
    ensures s.leftScore <= r.leftScore && s.rightScore <= r.rightScore
  {
    var t := BallStep(s, r1, r2, r3, width, height);
    t.(rightPaddleY := AIMove(t.rightPaddleY, t.ball.y, height))
  }

  lemma TickKeepsInv(s: GameState, r1: real, r2: real, r3: real, width: real, height: real)
    requires IsDraw(r1) && IsDraw(r2) && IsDraw(r3)
    requires Inv(s, width, height)
    ensures var t := TickStep(s, r1, r2, r3, width, height);
            Inv(t, width, height)
            && t.leftPaddleY == s.leftPaddleY
            && s.leftScore <= t.leftScore && s.rightScore <= t.rightScore
            && t.leftScore + t.rightScore <= s.leftScore + s.rightScore + 1
  {
  }

  /** The first frame of an 800 x 500 game: the ball at (392, 242) with
      velocity (6, 4) moves to (398, 246); no score, the AI paddle steps down. */
  lemma FirstTickExample(r1: real, r2: real, r3: real)
    requires IsDraw(r1) && IsDraw(r2) && IsDraw(r3)
    ensures Initial(800.0, 500.0).ball == Ball(392.0, 242.0, 6.0, 4.0)
    ensures var t := TickStep(Initial(800.0, 500.0), r1, r2, r3, 800.0, 500.0);
            t.ball == Ball(398.0, 246.0, 6.0, 4.0)
            && t.leftScore == 0 && t.rightScore == 0
            && t.leftPaddleY == 200.0 && t.rightPaddleY == 205.0
  {
  }

  // ---------------------------------------------------------------------------
  // Many frames
  // ---------------------------------------------------------------------------

  /** What happens between two ticks: the pointer positions reported since
      the last frame, and the three random draws the tick may use. */
  datatype Frame = Frame(pointer: seq<real>, r1: real, r2: real, r3: real)

  predicate FrameDraws(f: Frame) { IsDraw(f.r1) && IsDraw(f.r2) && IsDraw(f.r3) }

  /** Pointer events, applied in order, each overwriting the player paddle. */
  ghost function Pointed(s: GameState, ys: seq<real>, height: real): (r: GameState)
    ensures r == s.(leftPaddleY := r.leftPaddleY)
    ensures ys == [] ==> r == s
    decreases |ys|
  {
    if ys == [] then s
    else Pointed(s.(leftPaddleY := PaddleFromPointer(ys[0], height)), ys[1..], height)
  }

  /** Last write wins: a burst of pointer events has the effect of its last one. */
  lemma {:induction false} LastPointerWins(s: GameState, ys: seq<real>, height: real)
    requires ys != []
    ensures Pointed(s, ys, height) == s.(leftPaddleY := PaddleFromPointer(ys[|ys| - 1], height))
    decreases |ys|
  {
    if |ys| > 1 {
      LastPointerWins(s.(leftPaddleY := PaddleFromPointer(ys[0], height)), ys[1..], height);
      assert ys[1..][|ys[1..]| - 1] == ys[|ys| - 1];
    }
  }

  lemma PointedKeepsInv(s: GameState, ys: seq<real>, width: real, height: real)
    requires Inv(s, width, height)
    ensures Inv(Pointed(s, ys, height), width, height)
    ensures Pointed(s, ys, height) == s.(leftPaddleY := Pointed(s, ys, height).leftPaddleY)
  {
    if ys != [] {
      LastPointerWins(s, ys, height);
    }
  }

  /** The game after a sequence of frames. */
  ghost function Play(s: GameState, frames: seq<Frame>, width: real, height: real): (r: GameState)
    requires forall i :: 0 <= i < |frames| ==> FrameDraws(frames[i])
    ensures s.leftScore <= r.leftScore && s.rightScore <= r.rightScore
    ensures frames == [] ==> r == s
    decreases |frames|
  {
    if frames == [] then s
    else
      var f := frames[0];
      assert FrameDraws(f);
      assert forall i :: 0 <= i < |frames[1..]| ==> frames[1..][i] == frames[i + 1];
      Play(TickStep(Pointed(s, f.pointer, height), f.r1, f.r2, f.r3, width, height),
           frames[1..], width, height)
  }

  /** After any number of frames both paddles and the ball are in range, and
      neither score has decreased; each frame adds at most one goal. */
  lemma {:induction false} PlayKeepsInv(s: GameState, frames: seq<Frame>, width: real, height: real)
    requires forall i :: 0 <= i < |frames| ==> FrameDraws(frames[i])
    requires Inv(s, width, height)
    ensures var t := Play(s, frames, width, height);
            Inv(t, width, height)
            && s.leftScore <= t.leftScore && s.rightScore <= t.rightScore
            && t.leftScore + t.rightScore <= s.leftScore + s.rightScore + |frames|
    decreases |frames|
  {
    if frames != [] {
      var f := frames[0];
      var p := Pointed(s, f.pointer, height);
      PointedKeepsInv(s, f.pointer, width, height);
      TickKeepsInv(p, f.r1, f.r2, f.r3, width, height);
      assert forall i :: 0 <= i < |frames[1..]| ==> FrameDraws(frames[1..][i]) by {
        forall i | 0 <= i < |frames[1..]| ensures FrameDraws(frames[1..][i]) {
          assert frames[1..][i] == frames[i + 1];
        }
      }
      PlayKeepsInv(TickStep(p, f.r1, f.r2, f.r3, width, height), frames[1..], width, height);
    }
  }

  // ---------------------------------------------------------------------------
  // The world: the game's mutable variables and the code that updates them
  // ---------------------------------------------------------------------------

  class World {
    const width: real
    const height: real

    var ballX: real
    var ballY: real
    var ballSpeedX: real
    var ballSpeedY: real
    var leftPaddleY: real
    var rightPaddleY: real
    var leftScore: nat
    var rightScore: nat

    function State(): GameState
      reads this
    {
      GameState(Ball(ballX, ballY, ballSpeedX, ballSpeedY), leftPaddleY, rightPaddleY, leftScore, rightScore)
    }

    ghost predicate Valid()
      reads this
    {
      Inv(State(), width, height)
    }

    constructor (width: real, height: real)
      requires width >= 0.0 && height >= PADDLE_HEIGHT && height >= BALL_SIZE
      ensures this.width == width && this.height == height
      ensures Valid()
      ensures State() == Initial(width, height)
    {
      this.width := width;
      this.height := height;
      ballX := width / 2.0 - BALL_SIZE / 2.0;
      ballY := height / 2.0 - BALL_SIZE / 2.0;
      ballSpeedX := START_SPEED_X;
      ballSpeedY := START_SPEED_Y;
      leftPaddleY := height / 2.0 - PADDLE_HEIGHT / 2.0;
      rightPaddleY := height / 2.0 - PADDLE_HEIGHT / 2.0;
      leftScore := 0;
      rightScore := 0;
    }

    /** A pointer report moves the player paddle. */
    method MovePlayerPaddle(rawY: real)
      requires Valid()
      modifies this
      ensures Valid()
      ensures State() == old(State()).(leftPaddleY := PaddleFromPointer(rawY, height))
    {
      leftPaddleY := Clamp(rawY - PADDLE_HEIGHT / 2.0, 0.0, height - PADDLE_HEIGHT);
    }

    /** Re-serve the ball from the centre; `direction >= 0` serves to the right. */
    method ResetBall(direction: int, r1: real, r2: real, r3: real)
      requires IsDraw(r1) && IsDraw(r2) && IsDraw(r3)
      modifies this
      ensures State() == old(State()).(ball := Serve(direction, r1, r2, r3, width, height))
    {
      ballX := width / 2.0 - BALL_SIZE / 2.0;
      ballY := height / 2.0 - BALL_SIZE / 2.0;
      var sx: real := if direction >= 0 then 1.0 else -1.0;
      ballSpeedX := sx * (5.0 + r1 * 2.0);
      var sy: real := if r2 > 0.5 then 1.0 else -1.0;
      ballSpeedY := sy * (3.0 + r3 * 2.0);
    }

    /** Top and bottom wall collision. */
    method CollideWalls()
      modifies this
      ensures State() == old(State()).(ball := BounceWalls(old(State()).ball, height))
    {
      if ballY <= 0.0 || ballY + BALL_SIZE >= height {
        ballSpeedY := -ballSpeedY;
        ballY := Clamp(ballY, 0.0, height - BALL_SIZE);
      }
    }

    /** Left (player) paddle collision, with spin. */
    method CollideLeftPaddle()
      modifies this
      ensures State() == old(State()).(ball := BounceLeft(old(State()).ball, leftPaddleY))
    {
      if ballX <= PADDLE_MARGIN + PADDLE_WIDTH
         && ballY + BALL_SIZE > leftPaddleY
         && ballY < leftPaddleY + PADDLE_HEIGHT
      {
        ballSpeedX := Abs(ballSpeedX);
        var hitPos := (ballY + BALL_SIZE / 2.0) - (leftPaddleY + PADDLE_HEIGHT / 2.0);
        ballSpeedY := ballSpeedY + hitPos * SPIN_FACTOR;
      }
    }

    /** Right (AI) paddle collision, with spin. */
    method CollideRightPaddle()
      modifies this
      ensures State() == old(State()).(ball := BounceRight(old(State()).ball, rightPaddleY, width))
    {
      if ballX + BALL_SIZE >= width - PADDLE_MARGIN - PADDLE_WIDTH
         && ballY + BALL_SIZE > rightPaddleY
         && ballY < rightPaddleY + PADDLE_HEIGHT
      {
        ballSpeedX := -Abs(ballSpeedX);
        var hitPos := (ballY + BALL_SIZE / 2.0) - (rightPaddleY + PADDLE_HEIGHT / 2.0);
        ballSpeedY := ballSpeedY + hitPos * SPIN_FACTOR;
      }
    }

    /** Goal lines: a ball past the left edge scores for the right side and
        is served to the left; then a ball past the right edge scores for
        the left side and is served to the right. */
    method CheckGoals(r1: real, r2: real, r3: real)
      requires IsDraw(r1) && IsDraw(r2) && IsDraw(r3)
      requires Valid()
      modifies this
      ensures Valid()
      ensures State() == Goal(old(State()), old(State()).ball, r1, r2, r3, width, height)
    {
      if ballX < 0.0 {
        rightScore := rightScore + 1;
        ResetBall(-1, r1, r2, r3);
      }
      if ballX > width {
        leftScore := leftScore + 1;
        ResetBall(1, r1, r2, r3);
      }
    }

    /** Ball movement, collisions and scoring. */
    method UpdateBall(r1: real, r2: real, r3: real)
      requires IsDraw(r1) && IsDraw(r2) && IsDraw(r3)
      requires Valid()
      modifies this
      ensures Valid()
      ensures State() == BallStep(old(State()), r1, r2, r3, width, height)
    {
      ballX := ballX + ballSpeedX;
      ballY := ballY + ballSpeedY;
      CollideWalls();
      CollideLeftPaddle();
      CollideRightPaddle();
      CheckGoals(r1, r2, r3);
    }

    /** The AI paddle takes one fixed step towards the ball, then is clamped. */
    method UpdateAI()
      requires Valid()
      modifies this
      ensures Valid()
      ensures State() == old(State()).(rightPaddleY := AIMove(old(rightPaddleY), ballY, height))
    {
      var targetY := ballY + BALL_SIZE / 2.0 - PADDLE_HEIGHT / 2.0;
      if rightPaddleY < targetY {
        rightPaddleY := rightPaddleY + AI_SPEED;
      } else if rightPaddleY > targetY {
        rightPaddleY := rightPaddleY - AI_SPEED;
      }
      rightPaddleY := Clamp(rightPaddleY, 0.0, height - PADDLE_HEIGHT);
    }

    /** One frame of the game loop: the ball first, then the AI. */
    method Tick(r1: real, r2: real, r3: real)
      requires IsDraw(r1) && IsDraw(r2) && IsDraw(r3)
      requires Valid()
      modifies this
      ensures Valid()
      ensures State() == TickStep(old(State()), r1, r2, r3, width, height)
    {
      UpdateBall(r1, r2, r3);
      UpdateAI();
    }
  }
}
