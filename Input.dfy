/** One control character moving a paddle or stopping the game (life_pong.c, lines 167-193). */
module Input {
  import opened Config
  import opened Physics

  /** The part of the game state the keys act on: both paddles' top rows and the running flag. */
  datatype Controls = Controls(leftY: int, rightY: int, running: bool)

  /** A paddle with top row y lies wholly on the screen. */
  predicate PaddleInRange(y: int) {
    0 <= y <= SCREEN_H - PADDLE_HEIGHT
  }

  /** One paddle moved up ('w', 'i') or down ('s', 'k') by a row, unless it is already at the edge. */
  function MoveUp(y: int): (y': int)
    ensures PaddleInRange(y) ==> PaddleInRange(y')
    ensures y > 0 ==> y' == y - 1
    ensures y <= 0 ==> y' == y
  {
    if y > 0 then y - 1 else y
  }

  function MoveDown(y: int): (y': int)
    ensures PaddleInRange(y) ==> PaddleInRange(y')
    ensures y + PADDLE_HEIGHT < SCREEN_H ==> y' == y + 1
    ensures y + PADDLE_HEIGHT >= SCREEN_H ==> y' == y
  {
    if y + PADDLE_HEIGHT < SCREEN_H then y + 1 else y
  }

  /** handleInput (life_pong.c:167-193) on values: the six cases of the switch. */
  function ApplyKey(ch: char, s: Controls): (r: Controls)
    ensures PaddleInRange(s.leftY) ==> PaddleInRange(r.leftY)
    ensures PaddleInRange(s.rightY) ==> PaddleInRange(r.rightY)
    ensures r.running == (s.running && ch != 'q')
    ensures r.leftY != s.leftY ==> ch == 'w' || ch == 's'
    ensures r.rightY != s.rightY ==> ch == 'i' || ch == 'k'
    ensures ch != 'w' && ch != 's' && ch != 'i' && ch != 'k' && ch != 'q' ==> r == s
  {
    match ch
    case 'w' => s.(leftY := MoveUp(s.leftY))
    case 's' => s.(leftY := MoveDown(s.leftY))
    case 'i' => s.(rightY := MoveUp(s.rightY))
    case 'k' => s.(rightY := MoveDown(s.rightY))
    case 'q' => s.(running := false)
    case _ => s
  }

  /** A recognised movement key moves its paddle by exactly one row unless the paddle is already at
      the edge it moves towards; at the edge it stays (no underflow at 0, nothing past row 20). */
  lemma MovementKeys(s: Controls)
    requires PaddleInRange(s.leftY) && PaddleInRange(s.rightY)
    ensures ApplyKey('w', s).leftY == if s.leftY == 0 then 0 else s.leftY - 1
    ensures ApplyKey('s', s).leftY == if s.leftY == SCREEN_H - PADDLE_HEIGHT then s.leftY else s.leftY + 1
    ensures ApplyKey('i', s).rightY == if s.rightY == 0 then 0 else s.rightY - 1
    ensures ApplyKey('k', s).rightY == if s.rightY == SCREEN_H - PADDLE_HEIGHT then s.rightY else s.rightY + 1
  {
  }

  /** The paddles the source creates are separate objects; handleInput updates them through
      pointers, and the running flag is returned rather than written through a pointer. */
  method HandleInput(ch: char, left: Paddle, right: Paddle, running: bool)
    returns (stillRunning: bool)
    requires left != right
    modifies left, right
    ensures Controls(left.y, right.y, stillRunning) == ApplyKey(ch, Controls(old(left.y), old(right.y), running))
  {
    stillRunning := running;
    match ch {
      case 'w' =>
        if left.y > 0 { left.y := left.y - 1; }
      case 's' =>
        if left.y + PADDLE_HEIGHT < SCREEN_H { left.y := left.y + 1; }
      case 'i' =>
        if right.y > 0 { right.y := right.y - 1; }
      case 'k' =>
        if right.y + PADDLE_HEIGHT < SCREEN_H { right.y := right.y + 1; }
      case 'q' =>
        stillRunning := false;
      case _ =>
    }
  }
}
