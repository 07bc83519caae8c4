/** The ball and the two paddles, and the ball's movement with its wall and paddle bounces
    (life_pong.c, lines 25-32 and 105-148). */
module Physics {
  import opened Config

  /** The ball's position and velocity as a value. */
  datatype BallState = BallState(x: int, y: int, vx: int, vy: int)

  function Abs(v: int): nat {
    if v < 0 then -v else v
  }

  /** The ball is on the screen. */
  predicate InField(b: BallState) {
    0 <= b.x < SCREEN_W && 0 <= b.y < SCREEN_H
  }

  /** Row y lies within the paddle whose top row is `top`. */
  predicate InPaddleRows(y: int, top: int) {
    top <= y < top + PADDLE_HEIGHT
  }

  /** The column next to the left paddle (which sits in column 0) and to the right paddle (which
      sits in column SCREEN_W - 1). */
  const LEFT_HIT_COLUMN: int := 1
  const RIGHT_HIT_COLUMN: int := SCREEN_W - 2

  /** The centre the ball returns to after leaving the screen on the left or the right. */
  const CENTER_X: int := SCREEN_W / 2
  const CENTER_Y: int := SCREEN_H / 2

  /** updateBall (life_pong.c:105-148) on values, step by step in the source's order: move, bounce
      off the top or bottom wall, return to the centre when past the left or right edge, then test
      each paddle. The paddle tests compare x with their column for equality. */
  function Advance(b: BallState, leftY: int, rightY: int): (r: BallState)
    ensures InField(r)
    ensures Abs(r.vx) == Abs(b.vx) && Abs(r.vy) == Abs(b.vy)
  {
    // move
    var x1 := b.x + b.vx;
    var y1 := b.y + b.vy;
    // top and bottom walls
    var y2 := if y1 < 0 then 0 else if y1 >= SCREEN_H then SCREEN_H - 1 else y1;
    var vy1 := if y1 < 0 || y1 >= SCREEN_H then -b.vy else b.vy;
    // left and right edges: back to the centre, velocity kept
    var x2 := if x1 < 0 || x1 >= SCREEN_W then CENTER_X else x1;
    var y3 := if x1 < 0 || x1 >= SCREEN_W then CENTER_Y else y2;
    // left paddle (the source also re-assigns x := 1, which does not change it)
    var vx1 := if x2 == LEFT_HIT_COLUMN && InPaddleRows(y3, leftY) then -b.vx else b.vx;
    // right paddle
    var vx2 := if x2 == RIGHT_HIT_COLUMN && InPaddleRows(y3, rightY) then -vx1 else vx1;
    BallState(x2, y3, vx2, vy1)
  }

  /** The ball would have left the screen sideways this frame. */
  predicate LeavesSideways(b: BallState) {
    b.x + b.vx < 0 || b.x + b.vx >= SCREEN_W
  }

  /** The ball would have crossed the top or bottom wall this frame. */
  predicate CrossesWall(b: BallState) {
    b.y + b.vy < 0 || b.y + b.vy >= SCREEN_H
  }

  /** Vertical bounce: a step past the top puts the ball in row 0, a step past the bottom in row
      SCREEN_H - 1, and either reverses vy; otherwise vy is kept. (A ball that also left sideways
      is then moved to the centre row, see AdvanceResetsToCenter.) */
  lemma AdvanceVerticalBounce(b: BallState, leftY: int, rightY: int)
    ensures var r := Advance(b, leftY, rightY);
      && r.vy == (if CrossesWall(b) then -b.vy else b.vy)
      && (!LeavesSideways(b) && b.y + b.vy < 0 ==> r.y == 0)
      && (!LeavesSideways(b) && b.y + b.vy >= SCREEN_H ==> r.y == SCREEN_H - 1)
      && (!LeavesSideways(b) && !CrossesWall(b) ==> r.y == b.y + b.vy)
  {
  }

  /** Leaving the screen sideways puts the ball at the centre (40, 12) with vx unchanged; the
      centre column is far from both paddles, so no paddle can reverse it in the same frame. */
  lemma AdvanceResetsToCenter(b: BallState, leftY: int, rightY: int)
    requires LeavesSideways(b)
    ensures var r := Advance(b, leftY, rightY);
      r.x == 40 && r.y == 12 && r.vx == b.vx
  {
  }

  /** Otherwise the ball keeps the column it moved to. */
  lemma AdvanceKeepsColumn(b: BallState, leftY: int, rightY: int)
    requires !LeavesSideways(b)
    ensures Advance(b, leftY, rightY).x == b.x + b.vx
  {
  }

  /** The paddle rule, both directions: vx is reversed exactly when the ball ends the frame in
      column 1 within the left paddle's rows or in column SCREEN_W - 2 within the right paddle's
      rows; otherwise it is unchanged. Neither test moves the ball or touches vy: x and vy are
      what the move, the wall bounce and the reset left them. */
  lemma AdvancePaddleRule(b: BallState, leftY: int, rightY: int)
    ensures var r := Advance(b, leftY, rightY);
      var hit := (r.x == LEFT_HIT_COLUMN && InPaddleRows(r.y, leftY)) ||
                 (r.x == RIGHT_HIT_COLUMN && InPaddleRows(r.y, rightY));
      r.vx == (if hit then -b.vx else b.vx)
    ensures Advance(b, leftY, rightY).x == (if LeavesSideways(b) then CENTER_X else b.x + b.vx)
    ensures Advance(b, leftY, rightY).vy == (if CrossesWall(b) then -b.vy else b.vy)
  {
  }

  /** The paddle test looks for column 1 exactly, so a ball moving two columns per frame can step
      from column 2 to column 0 past a paddle that covers its row, keep going left, and is then
      returned to the centre as a miss. */
  lemma FastBallSkipsPaddle()
    ensures var b := BallState(2, 12, -2, 0);
      var r := Advance(b, 10, 10);
      InPaddleRows(12, 10) && r == BallState(0, 12, -2, 0) &&
      Advance(r, 10, 10) == BallState(40, 12, -2, 0)
  {
  }

  /** A slow ball in the same rows is turned back at column 1. */
  lemma SlowBallHitsPaddle()
    ensures Advance(BallState(2, 12, -1, 0), 10, 10) == BallState(1, 12, 1, 0)
  {
  }

  /** The ball as the source's mutable struct. */
  class Ball {
    var x: int
    var y: int
    var vx: int
    var vy: int

    function State(): BallState
      reads this
    {
      BallState(x, y, vx, vy)
    }

    constructor (s: BallState)
      ensures State() == s
    {
      x, y, vx, vy := s.x, s.y, s.vx, s.vy;
    }
  }

  /** A paddle: only its top row is stored; its column is fixed by which paddle it is. */
  class Paddle {
    var y: int

    constructor (top: int)
      ensures y == top
    {
      y := top;
    }
  }

  /** updateBall (life_pong.c:105-148), updating the ball's fields in place. The paddles are only
      read. */
  method UpdateBall(ball: Ball, left: Paddle, right: Paddle)
    modifies ball
    ensures ball.State() == Advance(old(ball.State()), left.y, right.y)
    ensures InField(ball.State())
  {
    ball.x := ball.x + ball.vx;
    ball.y := ball.y + ball.vy;

    if ball.y < 0 {
      ball.y := 0;
      ball.vy := -ball.vy;
    } else if ball.y >= SCREEN_H {
      ball.y := SCREEN_H - 1;
      ball.vy := -ball.vy;
    }

    if ball.x < 0 {
      ball.x := SCREEN_W / 2;
      ball.y := SCREEN_H / 2;
    } else if ball.x >= SCREEN_W {
      ball.x := SCREEN_W / 2;
      ball.y := SCREEN_H / 2;
    }

    if ball.x == 1 {
      if ball.y >= left.y && ball.y < left.y + PADDLE_HEIGHT {
        ball.x := 1;
        ball.vx := -ball.vx;
      }
    }
    if ball.x == SCREEN_W - 2 {
      if ball.y >= right.y && ball.y < right.y + PADDLE_HEIGHT {
        ball.x := SCREEN_W - 2;
        ball.vx := -ball.vx;
      }
    }
  }
}
