# Life Pong, modelled in Dafny

Life Pong is a console game in one C file, `life_pong.c`. A ball bounces between two paddles on an
80 x 25 field. A 10 x 20 Conway's Game of Life grid covers the top-left corner of the field. When
the ball passes over a live cell, both of its speed components grow by one unit. The automaton
advances one generation every fifth frame. The keys `w`/`s` and `i`/`k` move the left and right
paddles, and `q` quits.

This project models the simulation core: the neighbour count, the automaton step over the two global
arrays, the ball's movement and bounces, the collision with live cells, the key handling,
initialisation, and one iteration of the main loop. It proves what those routines promise.

- `Config` holds the source's `#define` constants and an `Option` type.
- `Life` holds the pure specification of the automaton: `Grid`, `NeighborSum`, `NextCell`, `Step`
  and `StepN`, with its lemmas. It also holds the class `LifeGrid`, which owns the two C arrays
  `lifeGrid` (`cells`) and `lifeBuffer` (`buffer`) as `array2<int>`. Its methods run the source's
  nested loops and are proved against the pure functions.
- `Physics` holds `updateBall` as the pure function `Advance` on a `BallState` value, and as the
  method `UpdateBall` on the mutable `Ball` object. The `Ball` and `Paddle` classes stand for the
  C structs.
- `Collision` holds `checkBallLifeCollision`, as the function `Amplify` and as a method.
- `Input` holds `handleInput`, as the function `ApplyKey` on a `Controls` value and as a method on
  the two `Paddle` objects.
- `Game` holds the whole game state as a value (`GameState`), one frame as a function (`TickState`)
  and a bounded run of frames (`Run`). The class `Session` owns the objects of `main`. Its method
  `Tick` runs one loop body, and `Play` runs the loop over a finite script of inputs.

Each frame's input is an `Option<char>`: `None` stands for `fgets` returning `NULL`, and `Some(ch)`
for a line whose first character is `ch`. The starting grid is a parameter, where the source fills it
at random.

## Model

| member | source | states |
|---|---|---|
| Life.NeighborSum | life_pong.c:49-62 | the count of countNeighbors is the sum over the eight neighbour positions in the loop's visiting order; on a 0/1 grid it lies in [0, 8] |
| Life.NeighborSumIsEightCells | life_pong.c:49-62 | the neighbour count is the sum of the eight Moore neighbours, where a neighbour off the grid adds 0 (no wraparound) |
| Life.SumCellsBounds | life_pong.c:56-58 | on a 0/1 grid a sum over n positions lies in [0, n] |
| Life.CornerSeesThreeCells | life_pong.c:49-62 | the corner (0, 0) counts only cells (0,1), (1,0) and (1,1), so at most 3 on a 0/1 grid |
| Life.InteriorNeighborSum | life_pong.c:49-62 | an interior cell's count is the plain sum of its eight surrounding cells |
| Life.NeighborSumIsLocal | life_pong.c:53-58 | the count depends only on the eight surrounding cells and never on the cell itself |
| Life.LifeGrid.CountNeighbors | life_pong.c:49-62 | the loop over dr and dc returns the pure count of the current generation; it changes nothing |
| Life.LifeRule | life_pong.c:71-77 | for a 0/1 cell the next state is 0 or 1, and it is 1 exactly when the count is 3, or the cell is alive and the count is 2; any other value is kept |
| Life.NextCell | life_pong.c:68-77 | the next state of cell (r, c) is the rule applied to its own value and its count, both read from the same grid |
| Life.NextCellIsB3S23 | life_pong.c:68-77 | on a 0/1 grid the next state is 0 or 1, and it is 1 exactly when the count is 3, or the cell is alive and the count is 2 |
| Life.LifeRuleTable | life_pong.c:71-77 | a live cell with fewer than 2 or more than 3 neighbours dies; a live cell with 2 or 3 survives; a dead cell with exactly 3 is born; other dead cells stay dead |
| Life.NonBinaryCellKept | life_pong.c:75-76 | a cell holding neither 0 nor 1 falls through to the last branch and keeps its value |
| Life.Step | life_pong.c:65-79 | one generation is a 10 x 20 grid whose every cell is the rule applied to the previous grid, with no cell reading an updated neighbour |
| Life.StepKeepsBinary | life_pong.c:65-86 | a 0/1 grid stays 0/1 after one generation |
| Life.StepN | life_pong.c:273-277 | n generations in a row give a 10 x 20 grid, and a 0/1 grid stays 0/1 through all of them |
| Life.LifeGrid.constructor | life_pong.c:35-46 | both arrays are 10 x 20 and distinct, and the grid holds the given first generation |
| Life.LifeGrid.ComputeNext | life_pong.c:66-79 | every buffer cell holds the next state of that cell, computed from the unchanged grid |
| Life.LifeGrid.CommitNext | life_pong.c:81-85 | every grid cell holds the buffer's value |
| Life.LifeGrid.Update | life_pong.c:65-86 | the grid afterwards is exactly one generation of the grid before |
| Physics.Advance | life_pong.c:105-148 | after the update the ball is on the screen (0 <= x < 80, 0 <= y < 25) whatever its velocity, and neither speed changes in magnitude |
| Physics.AdvanceVerticalBounce | life_pong.c:111-117 | a step past the top puts the ball in row 0 and a step past the bottom in row 24; either negates vy; otherwise vy is kept |
| Physics.AdvanceResetsToCenter | life_pong.c:121-127 | a step past the left or right edge puts the ball at (40, 12) with vx unchanged |
| Physics.AdvanceKeepsColumn | life_pong.c:107-127 | a ball that stays on the screen sideways ends in column x + vx |
| Physics.AdvancePaddleRule | life_pong.c:134-147 | vx is negated exactly when the ball ends in column 1 within the left paddle's rows or in column 78 within the right paddle's rows; the paddle tests leave x and vy as the move, the wall bounce and the reset left them |
| Physics.FastBallSkipsPaddle | life_pong.c:134-140 | a ball at column 2 moving 2 columns left jumps over column 1 past a paddle covering its row, and the next frame returns it to the centre |
| Physics.SlowBallHitsPaddle | life_pong.c:134-140 | a ball at column 2 moving 1 column left is turned back at column 1 |
| Physics.UpdateBall | life_pong.c:105-148 | the ball's new fields are `Advance` of the old ones, so the ball is on the screen; the paddles are not modified |
| Collision.Grow | life_pong.c:157-160 | a speed moves one unit further from zero: its magnitude grows by exactly 1 and a positive speed stays positive |
| Collision.Amplify | life_pong.c:152-164 | over a live cell in the 20 x 10 corner both speeds grow in magnitude by 1 and keep their sign; elsewhere the ball is unchanged; the position never changes |
| Collision.AmplifyRepeats | life_pong.c:155-161 | the cell is not consumed, so two collisions in a row on it grow each speed by 2 |
| Collision.CheckBallLifeCollision | life_pong.c:152-164 | the ball's new fields are `Amplify` of the old ones against the current generation; the grid is not modified |
| Input.MoveUp | life_pong.c:170-180 | `w` and `i` move a paddle up one row unless it is at row 0, keeping it on the screen |
| Input.MoveDown | life_pong.c:173-183 | `s` and `k` move a paddle down one row unless its bottom is at the last row, keeping it on the screen |
| Input.ApplyKey | life_pong.c:167-193 | the paddles stay in range; only `w`/`s` move the left paddle and only `i`/`k` the right one; `running` is cleared exactly by `q`; any other key changes nothing |
| Input.MovementKeys | life_pong.c:170-183 | each movement key's exact effect on an in-range paddle, at the edge and away from it |
| Input.HandleInput | life_pong.c:167-193 | the paddles' new rows and the running flag are `ApplyKey` of the old ones |
| Game.InitState | life_pong.c:89-98 | the ball starts at (40, 12) moving (1, 1), both paddles at row 10, the game running at frame 0 with the given grid; for any 0/1 grid the frame invariant holds |
| Game.InitGame | life_pong.c:89-98 | the ball is put at (40, 12) moving (1, 1) and both paddles at row 10, in place |
| Game.ApplyInput | life_pong.c:263-266 | with no line nothing changes; with a line its first character is handled |
| Game.TickState | life_pong.c:260-277 | one frame counts exactly one more frame; the automaton advances exactly when the new count is a multiple of 5; `running` is cleared exactly by `q`; the ball ends on the screen; no speed shrinks |
| Game.TickKeepsInv | life_pong.c:263-277 | one frame keeps the ball on the screen, both paddles in range and the grid 0/1 |
| Game.Run | life_pong.c:260-281 | the loop over a script ticks at most once per input, and stops early only when the game is no longer running |
| Game.RunWithoutQuit | life_pong.c:257-281 | without `q` a running game runs one frame per input and is still running at the end |
| Game.QuitEndsAfterCurrentTick | life_pong.c:260-281 | the frame that reads `q` still completes, and it is the last one |
| Game.RunKeepsInv | life_pong.c:260-281 | the frame invariant holds after any number of frames |
| Game.IntervalCrossing | life_pong.c:274-275 | counting one more frame crosses a multiple of 5 exactly when the new count is one |
| Game.GenerationsAfterTick | life_pong.c:273-277 | one tick, which steps the grid exactly when its new count is a multiple of 5, keeps the generations equal to end / 5 - start / 5 |
| Game.RunGenerations | life_pong.c:273-277 | after the loop the grid has advanced end / 5 - start / 5 generations |
| Game.GenerationsFromStart | life_pong.c:255-277 | from the starting state, after n frames the automaton has advanced n / 5 generations |
| Game.RunSpeedsNeverShrink | life_pong.c:268-271 | neither speed component ever shrinks in magnitude over a run |
| Game.Session.constructor | life_pong.c:250-258 | the session starts in the initial state with the given first generation, and the invariant holds |
| Game.Session.Steer | life_pong.c:263-266 | the paddles and the running flag change as `ApplyInput` says |
| Game.Session.MoveBall | life_pong.c:268-271 | the ball becomes `Amplify` of `Advance` of the old ball against the current generation |
| Game.Session.CountFrame | life_pong.c:274-277 | the frame counter grows by 1, and the grid advances one generation exactly when the new count is a multiple of 5 |
| Game.Session.Tick | life_pong.c:260-281 | the objects' new state is `TickState` of the old state and the input |
| Game.Session.Play | life_pong.c:260-281 | the loop over a script of inputs leaves the objects in the state `Run` computes |

## Left out

- `render` (life_pong.c:196-248) is terminal output only, and is not modelled.
- Reading input with `fgets` (life_pong.c:263-264) is not modelled. Each frame gets an `Option<char>` instead. In the code, `fgets(buffer, 8, stdin)` reads a line that fits in the buffer whole and handles only its first character. A longer line is split across several frames. The model has no lines: it takes one optional key per frame from its caller.
- `initLife`'s `rand()` and the `srand(time(NULL))` seed (life_pong.c:39-46, 251) are not modelled. The first generation is a parameter, and the invariant asks only that it be 0/1.
- The unbounded `while (running)` loop is modelled only over a finite script (`Run`, `Session.Play`). That loop never ends unless `q` is read, and once input ends `fgets` keeps returning `NULL`. Non-termination is not modelled.
- C `int` overflow is not modelled. Integers are unbounded, so `vx` and `vy`, which grow by one per collision and are never capped, do not wrap. The same holds for `frameCount`.
- Input.HandleInput: requires the two paddles to be distinct objects, as `main` passes them. With one object passed twice, `w` would move that paddle once, and the right paddle, being the same object, would move with it, so the contract's "right paddle unchanged" would not hold.
- Collision.Grow: a velocity of 0 becomes -1, as `v > 0 ? v + 1 : v - 1` does; the game never produces a zero speed.
