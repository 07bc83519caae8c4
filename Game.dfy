/** The game session and the frame loop of main (life_pong.c, lines 89-102 and 250-285): one tick
    reads an optional key, moves the ball, lets the automaton speed it up, counts the frame and
    advances the automaton every LIFE_UPDATE_INTERVAL-th frame. Rendering is not modelled. */
module Game {
  import opened Config
  import opened Life
  import opened Physics
  import opened Collision
  import opened Input

  /** Everything main owns, as a value. */
  datatype GameState = GameState(
    ball: BallState, leftY: int, rightY: int, life: Grid, running: bool, frame: nat)

  /** What every frame keeps: the ball on the screen, both paddles on the screen, a 0/1 grid. */
  ghost predicate Inv(s: GameState) {
    InField(s.ball) && PaddleInRange(s.leftY) && PaddleInRange(s.rightY) &&
    WellShaped(s.life) && Binary(s.life)
  }

  /** The state main starts its loop with: initGame's ball and paddles, a running game, frame 0,
      and the starting grid `g` (random in the source). The ball starts at the centre (40, 12)
      moving (1, 1), both paddles at row 10, and for any 0/1 grid the frame invariant holds. */
  function InitState(g: Grid): (s: GameState)
    ensures s.ball == BallState(40, 12, 1, 1) && s.leftY == 10 && s.rightY == 10
    ensures s.life == g && s.running && s.frame == 0
    ensures WellShaped(g) && Binary(g) ==> Inv(s)
  {
    GameState(
      BallState(SCREEN_W / 2, SCREEN_H / 2, BALL_START_SPEED_X, BALL_START_SPEED_Y),
      SCREEN_H / 2 - PADDLE_HEIGHT / 2, SCREEN_H / 2 - PADDLE_HEIGHT / 2,
      g, true, 0)
  }

  /** The key of this frame, if a line could be read (end of input means no key). */
  function ApplyInput(input: Option<char>, c: Controls): (r: Controls)
    ensures input == None ==> r == c
    ensures input.Some? ==> r == ApplyKey(input.value, c)
  {
    match input
    case None => c
    case Some(ch) => ApplyKey(ch, c)
  }

  /** One iteration of main's loop body (life_pong.c:260-281), rendering left out. */
  function TickState(s: GameState, input: Option<char>): (r: GameState)
    requires WellShaped(s.life)
    ensures WellShaped(r.life)
    ensures r.frame == s.frame + 1
    ensures r.life == if r.frame % LIFE_UPDATE_INTERVAL == 0 then Step(s.life) else s.life
    ensures r.running == (s.running && input != Some('q'))
    ensures InField(r.ball)
    ensures Abs(r.ball.vx) >= Abs(s.ball.vx) && Abs(r.ball.vy) >= Abs(s.ball.vy)
  {
    var c := ApplyInput(input, Controls(s.leftY, s.rightY, s.running));
    var ball := Amplify(Advance(s.ball, c.leftY, c.rightY), s.life);
    var frame := s.frame + 1;
    GameState(ball, c.leftY, c.rightY,
              if frame % LIFE_UPDATE_INTERVAL == 0 then Step(s.life) else s.life,
              c.running, frame)
  }

  /** A tick keeps the ball on the screen, the paddles in range and the grid 0/1. */
  lemma TickKeepsInv(s: GameState, input: Option<char>)
    requires Inv(s)
    ensures Inv(TickState(s, input))
  {
    StepKeepsBinary(s.life);
  }

  /** main's loop over a finite script of per-frame inputs: it runs ticks while the game is
      running, and ends when `q` has been processed or the script is used up. So it ticks at most
      once per input, and stops early only when the game was stopped. */
  function Run(s: GameState, script: seq<Option<char>>): (r: GameState)
    requires WellShaped(s.life)
    ensures WellShaped(r.life)
    ensures s.frame <= r.frame <= s.frame + |script|
    ensures r.frame == s.frame + |script| || !r.running
    decreases |script|
  {
    if script == [] || !s.running then s
    else Run(TickState(s, script[0]), script[1..])
  }

  /** Only a `q` stops the game: with no `q` in the script a running game runs one tick per input
      and is still running at the end. */
  lemma {:induction false} RunWithoutQuit(s: GameState, script: seq<Option<char>>)
    requires WellShaped(s.life) && s.running
    requires Some('q') !in script
    ensures Run(s, script).running && Run(s, script).frame == s.frame + |script|
    decreases |script|
  {
    if script != [] {
      assert script[0] in script;
      assert forall k :: k in script[1..] ==> k in script;
      RunWithoutQuit(TickState(s, script[0]), script[1..]);
    }
  }

  /** A `q` stops the loop after the tick that read it: that tick still completes (ball moved,
      frame counted), and no further tick runs. */
  lemma QuitEndsAfterCurrentTick(s: GameState, script: seq<Option<char>>)
    requires WellShaped(s.life) && s.running
    requires script != [] && script[0] == Some('q')
    ensures Run(s, script) == TickState(s, Some('q'))
    ensures !Run(s, script).running && Run(s, script).frame == s.frame + 1
  {
  }

  /** The invariant holds after any number of ticks. */
  lemma {:induction false} RunKeepsInv(s: GameState, script: seq<Option<char>>)
    requires Inv(s)
    ensures Inv(Run(s, script))
    decreases |script|
  {
    if script != [] && s.running {
      TickKeepsInv(s, script[0]);
      RunKeepsInv(TickState(s, script[0]), script[1..]);
    }
  }

  /** Counting one more frame crosses a multiple of LIFE_UPDATE_INTERVAL exactly when the new count
      is one. */
  lemma IntervalCrossing(f: nat)
    ensures (f + 1) / LIFE_UPDATE_INTERVAL - f / LIFE_UPDATE_INTERVAL ==
      if (f + 1) % LIFE_UPDATE_INTERVAL == 0 then 1 else 0
  {
  }

  /** One tick's share of RunGenerations: if the rest of the run advances the grid left by a tick
      from frame f according to the frame counts, so does the whole run from the grid before it. */
  lemma GenerationsAfterTick(g: Grid, f: nat, t: GameState, r: GameState)
    requires WellShaped(g) && WellShaped(t.life)
    requires t.frame == f + 1
    requires t.life == if t.frame % LIFE_UPDATE_INTERVAL == 0 then Step(g) else g
    requires r.frame / LIFE_UPDATE_INTERVAL >= t.frame / LIFE_UPDATE_INTERVAL
    requires r.life == StepN(t.life, r.frame / LIFE_UPDATE_INTERVAL - t.frame / LIFE_UPDATE_INTERVAL)
    ensures r.frame / LIFE_UPDATE_INTERVAL >= f / LIFE_UPDATE_INTERVAL
    ensures r.life == StepN(g, r.frame / LIFE_UPDATE_INTERVAL - f / LIFE_UPDATE_INTERVAL)
  {
    IntervalCrossing(f);
    var n := r.frame / LIFE_UPDATE_INTERVAL - t.frame / LIFE_UPDATE_INTERVAL;
    if t.frame % LIFE_UPDATE_INTERVAL == 0 {
      assert StepN(g, n + 1) == StepN(Step(g), n);
    }
  }

  /** The automaton advances once for every multiple of LIFE_UPDATE_INTERVAL the frame counter
      passes: after the loop, the grid is the starting grid advanced (end / 5 - start / 5)
      generations. */
  lemma {:induction false} RunGenerations(s: GameState, script: seq<Option<char>>)
    requires WellShaped(s.life)
    ensures var r := Run(s, script);
      r.frame / LIFE_UPDATE_INTERVAL >= s.frame / LIFE_UPDATE_INTERVAL &&
      r.life == StepN(s.life, r.frame / LIFE_UPDATE_INTERVAL - s.frame / LIFE_UPDATE_INTERVAL)
    decreases |script|
  {
    if script != [] && s.running {
      var t := TickState(s, script[0]);
      RunGenerations(t, script[1..]);
      GenerationsAfterTick(s.life, s.frame, t, Run(t, script[1..]));
    }
  }

  /** From the start of the game, after n ticks the automaton has advanced n / 5 generations. */
  lemma GenerationsFromStart(g: Grid, script: seq<Option<char>>)
    requires WellShaped(g)
    ensures Run(InitState(g), script).life == StepN(g, Run(InitState(g), script).frame / LIFE_UPDATE_INTERVAL)
  {
    RunGenerations(InitState(g), script);
  }

  /** The ball never slows down: neither speed component shrinks over any run. */
  lemma {:induction false} RunSpeedsNeverShrink(s: GameState, script: seq<Option<char>>)
    requires WellShaped(s.life)
    ensures Abs(Run(s, script).ball.vx) >= Abs(s.ball.vx)
    ensures Abs(Run(s, script).ball.vy) >= Abs(s.ball.vy)
    decreases |script|
  {
    if script != [] && s.running {
      RunSpeedsNeverShrink(TickState(s, script[0]), script[1..]);
    }
  }

  /** initGame (life_pong.c:89-102) without initLife: sets the ball and both paddles in place. */
  method InitGame(ball: Ball, left: Paddle, right: Paddle)
    modifies ball, left, right
    ensures ball.State() == BallState(40, 12, 1, 1)
    ensures left.y == 10 && right.y == 10
  {
    ball.x := SCREEN_W / 2;
    ball.y := SCREEN_H / 2;
    ball.vx := BALL_START_SPEED_X;
    ball.vy := BALL_START_SPEED_Y;
    left.y := (SCREEN_H / 2) - (PADDLE_HEIGHT / 2);
    right.y := (SCREEN_H / 2) - (PADDLE_HEIGHT / 2);
  }

  /** The state main owns: the ball and paddle structs, the automaton's arrays, the running flag
      and the frame counter. */
  class Session {
    const ball: Ball
    const left: Paddle
    const right: Paddle
    const life: LifeGrid
    var running: bool
    var frameCount: nat

    ghost predicate Valid()
      reads this, life, life.cells
    {
      left != right && life.Valid()
    }

    ghost function State(): GameState
      requires Valid()
      reads this, ball, left, right, life, life.cells
    {
      GameState(ball.State(), left.y, right.y, life.Contents, running, frameCount)
    }

    /** The start of main: initGame, with `init` as the first generation, running, frame 0. */
    constructor (init: Grid)
      requires WellShaped(init) && Binary(init)
      ensures Valid() && State() == InitState(init) && Inv(State())
      ensures fresh(ball) && fresh(left) && fresh(right) && fresh(life)
      ensures fresh(life.cells) && fresh(life.buffer)
    {
      ball := new Ball(BallState(0, 0, 0, 0));
      left := new Paddle(0);
      right := new Paddle(0);
      life := new LifeGrid(init);
      running := true;
      frameCount := 0;
      new;
      InitGame(ball, left, right);
    }

    /** The input step of a frame: a key read this frame moves a paddle or clears `running`. */
    method Steer(input: Option<char>)
      requires Valid()
      modifies this`running, left, right
      ensures Valid()
      ensures Controls(left.y, right.y, running) ==
              ApplyInput(input, Controls(old(left.y), old(right.y), old(running)))
    {
      if input.Some? {
        running := HandleInput(input.value, left, right, running);
      }
    }

    /** updateBall followed by checkBallLifeCollision against the current generation. */
    method MoveBall()
      requires Valid()
      modifies ball
      ensures Valid()
      ensures ball.State() == Amplify(Advance(old(ball.State()), left.y, right.y), life.Contents)
    {
      UpdateBall(ball, left, right);
      CheckBallLifeCollision(ball, life);
    }

    /** frameCount++, and every LIFE_UPDATE_INTERVAL-th frame one generation of the automaton. */
    method CountFrame()
      requires Valid()
      modifies this`frameCount, life, life.cells, life.buffer
      ensures Valid()
      ensures frameCount == old(frameCount) + 1
      ensures life.Contents == if frameCount % LIFE_UPDATE_INTERVAL == 0 then Step(old(life.Contents))
                               else old(life.Contents)
    {
      frameCount := frameCount + 1;
      if frameCount % LIFE_UPDATE_INTERVAL == 0 {
        life.Update();
      }
    }

    /** One iteration of main's loop body (life_pong.c:260-281), rendering left out. */
    method Tick(input: Option<char>)
      requires Valid()
      modifies this`running, this`frameCount, ball, left, right, life, life.cells, life.buffer
      ensures Valid()
      ensures State() == TickState(old(State()), input)
    {
      Steer(input);
      MoveBall();
      CountFrame();
    }

    /** main's while (running) loop over a finite script of per-frame inputs: it stops when the
        game is no longer running or the script is used up. */
    method Play(script: seq<Option<char>>)
      requires Valid()
      modifies this`running, this`frameCount, ball, left, right, life, life.cells, life.buffer
      ensures Valid()
      ensures State() == Run(old(State()), script)
    {
      var i := 0;
      while i < |script| && running
        invariant 0 <= i <= |script| && Valid()
        invariant Run(old(State()), script) == Run(State(), script[i..])
      {
        assert script[i..][1..] == script[i + 1..];
        Tick(script[i]);
        i := i + 1;
      }
    }
  }
}
