/** Fixed geometry and tuning constants of the game (life_pong.c, lines 7-22),
    and the optional value used for "a key was read this frame or not". */
module Config {

  /** Width and height of the logical console screen. */
  const SCREEN_W: int := 80
  const SCREEN_H: int := 25

  /** Number of rows a paddle occupies. */
  const PADDLE_HEIGHT: int := 5

  /** Initial ball velocity. */
  const BALL_START_SPEED_X: int := 1
  const BALL_START_SPEED_Y: int := 1

  /** Size of the Game of Life grid laid over the top-left corner of the screen. */
  const LIFE_ROWS: int := 10
  const LIFE_COLS: int := 20

  /** The automaton advances one generation every LIFE_UPDATE_INTERVAL frames. */
  const LIFE_UPDATE_INTERVAL: int := 5

  datatype Option<+T> = None | Some(value: T)
}
