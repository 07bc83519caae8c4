/** The ball speeding up over a live cell of the automaton (life_pong.c, lines 150-164). */
module Collision {
  import opened Config
  import opened Life
  import opened Physics

  /** One unit further from zero: `v > 0 ? v + 1 : v - 1` (life_pong.c:157-160). A zero
      velocity, which the game never produces, becomes -1. */
  function Grow(v: int): (w: int)
    ensures Abs(w) == Abs(v) + 1
    ensures v > 0 ==> w > 0
    ensures v <= 0 ==> w < 0
  {
    if v > 0 then v + 1 else v - 1
  }

  /** The ball lies within the automaton's extent and the cell under it is alive (holds 1). */
  predicate OverLiveCell(b: BallState, g: Grid)
    requires WellShaped(g)
  {
    0 <= b.x < LIFE_COLS && 0 <= b.y < LIFE_ROWS && g[b.y][b.x] == 1
  }

  /** checkBallLifeCollision (life_pong.c:152-164) on values: over a live cell both speeds grow by
      exactly one unit and keep their direction; anywhere else the ball is unchanged. The ball
      never moves here. */
  function Amplify(b: BallState, g: Grid): (r: BallState)
    requires WellShaped(g)
    ensures r.x == b.x && r.y == b.y
    ensures OverLiveCell(b, g) ==>
      Abs(r.vx) == Abs(b.vx) + 1 && Abs(r.vy) == Abs(b.vy) + 1 &&
      (b.vx > 0 <==> r.vx > 0) && (b.vy > 0 <==> r.vy > 0)
    ensures !OverLiveCell(b, g) ==> r == b
  {
    if 0 <= b.x < LIFE_COLS && 0 <= b.y < LIFE_ROWS && g[b.y][b.x] == 1 then
      BallState(b.x, b.y, Grow(b.vx), Grow(b.vy))
    else
      b
  }

  /** Every frame the ball spends on a live cell adds one unit of speed again: the cell is not
      consumed, so two collisions in a row on the same cell grow each speed by two. */
  lemma AmplifyRepeats(b: BallState, g: Grid)
    requires WellShaped(g) && OverLiveCell(b, g)
    ensures Abs(Amplify(Amplify(b, g), g).vx) == Abs(b.vx) + 2
    ensures Abs(Amplify(Amplify(b, g), g).vy) == Abs(b.vy) + 2
  {
  }

  /** checkBallLifeCollision, updating the ball in place; the grid is only read. */
  method CheckBallLifeCollision(ball: Ball, life: LifeGrid)
    requires life.Valid()
    modifies ball
    ensures ball.State() == Amplify(old(ball.State()), life.Contents)
  {
    if ball.x >= 0 && ball.x < LIFE_COLS && ball.y >= 0 && ball.y < LIFE_ROWS {
      if life.cells[ball.y, ball.x] == 1 {
        if ball.vx > 0 {
          ball.vx := ball.vx + 1;
        } else {
          ball.vx := ball.vx - 1;
        }
        if ball.vy > 0 {
          ball.vy := ball.vy + 1;
        } else {
          ball.vy := ball.vy - 1;
        }
      }
    }
  }
}
