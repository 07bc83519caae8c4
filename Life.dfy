/** Conway's Game of Life on the fixed LIFE_ROWS x LIFE_COLS grid (life_pong.c, lines 35-86).
    The pure part (Grid, NeighborSum, NextCell, Step) is the specification; the class
    LifeGrid holds the two global C arrays `lifeGrid` and `lifeBuffer` and runs the
    source's loops against it. */
module Life {
  import opened Config

  /** A grid value, row-major: g[r][c]. Cells are C `int`s; a well-formed game only stores 0 and 1. */
  type Grid = seq<seq<int>>

  ghost predicate WellShaped(g: Grid) {
    |g| == LIFE_ROWS && forall r :: 0 <= r < |g| ==> |g[r]| == LIFE_COLS
  }

  /** Every cell is dead (0) or alive (1). */
  ghost predicate Binary(g: Grid)
    requires WellShaped(g)
  {
    forall r, c :: 0 <= r < LIFE_ROWS && 0 <= c < LIFE_COLS ==> g[r][c] == 0 || g[r][c] == 1
  }

  predicate InGrid(r: int, c: int) {
    0 <= r < LIFE_ROWS && 0 <= c < LIFE_COLS
  }

  /** The value a neighbour at (rr, cc) adds: its cell if it lies on the grid, nothing otherwise
      (there is no wraparound). */
  function Cell(g: Grid, rr: int, cc: int): int
    requires WellShaped(g)
  {
    if InGrid(rr, cc) then g[rr][cc] else 0
  }

  /** The eight Moore neighbours of (r, c), in the order countNeighbors visits them: dr = -1, 0, 1
      in the outer loop, dc = -1, 0, 1 in the inner one, the centre skipped. */
  function Neighbors(r: int, c: int): (ps: seq<(int, int)>)
    ensures |ps| == 8
  {
    [(r - 1, c - 1), (r - 1, c), (r - 1, c + 1),
     (r, c - 1),                 (r, c + 1),
     (r + 1, c - 1), (r + 1, c), (r + 1, c + 1)]
  }

  /** How many of the eight neighbours countNeighbors has visited when it reaches offset (dr, dc)
      (with dc = 2 meaning the row dr is finished). */
  ghost function Visited(dr: int, dc: int): int {
    var k := 3 * (dr + 1) + (dc + 1);
    if dr > 0 || (dr == 0 && dc > 0) then k - 1 else k
  }

  /** The neighbour countNeighbors visits at offset (dr, dc) is (r + dr, c + dc). */
  lemma NeighborAt(r: int, c: int, dr: int, dc: int)
    requires -1 <= dr <= 1 && -1 <= dc <= 1 && !(dr == 0 && dc == 0)
    ensures 0 <= Visited(dr, dc) < 8
    ensures Neighbors(r, c)[Visited(dr, dc)] == (r + dr, c + dc)
  {
  }

  /** Visiting offset (dr, dc) adds that neighbour's value to the running sum; the centre adds
      nothing. */
  lemma VisitStep(g: Grid, r: int, c: int, dr: int, dc: int)
    requires WellShaped(g)
    requires -1 <= dr <= 1 && -1 <= dc <= 1
    ensures 0 <= Visited(dr, dc) <= Visited(dr, dc + 1) <= 8
    ensures SumCells(g, Neighbors(r, c)[..Visited(dr, dc + 1)]) ==
      SumCells(g, Neighbors(r, c)[..Visited(dr, dc)]) + (if dr == 0 && dc == 0 then 0 else Cell(g, r + dr, c + dc))
  {
    if !(dr == 0 && dc == 0) {
      NeighborAt(r, c, dr, dc);
      SumCellsSnoc(g, Neighbors(r, c), Visited(dr, dc) + 1);
    }
  }

  /** The values of the positions `ps` added up, off-grid positions adding nothing. */
  function SumCells(g: Grid, ps: seq<(int, int)>): int
    requires WellShaped(g)
    decreases |ps|
  {
    if ps == [] then 0 else SumCells(g, ps[..|ps| - 1]) + Cell(g, ps[|ps| - 1].0, ps[|ps| - 1].1)
  }

  /** The live-neighbour count of countNeighbors(r, c) (life_pong.c:49-62); on a 0/1 grid it lies
      in [0, 8]. */
  function NeighborSum(g: Grid, r: int, c: int): (n: int)
    requires WellShaped(g)
    ensures Binary(g) ==> 0 <= n <= 8
  {
    SumCellsBounds(g, Neighbors(r, c));
    SumCells(g, Neighbors(r, c))
  }

  /** Conway's rule as written in updateLifeAutomaton (life_pong.c:69-78): the next state of a
      cell holding `state` with `n` live neighbours. */
  function LifeRule(state: int, n: int): (next: int)
    ensures state == 0 || state == 1 ==>
      (next == 0 || next == 1) && (next == 1 <==> n == 3 || (state == 1 && n == 2))
    ensures state != 0 && state != 1 ==> next == state
  {
    if state == 1 && (n < 2 || n > 3) then 0
    else if state == 0 && n == 3 then 1
    else state
  }

  /** The next state of cell (r, c). */
  function NextCell(g: Grid, r: int, c: int): int
    requires WellShaped(g) && InGrid(r, c)
  {
    LifeRule(g[r][c], NeighborSum(g, r, c))
  }

  /** One generation: every cell computed from the same, unchanged snapshot `g`. */
  function Step(g: Grid): (g': Grid)
    requires WellShaped(g)
    ensures WellShaped(g')
    ensures forall r, c :: InGrid(r, c) ==> g'[r][c] == NextCell(g, r, c)
  {
    seq(LIFE_ROWS, r requires 0 <= r < LIFE_ROWS =>
      seq(LIFE_COLS, c requires 0 <= c < LIFE_COLS => NextCell(g, r, c)))
  }

  /** `n` generations in a row; a 0/1 grid stays 0/1 through all of them. */
  function StepN(g: Grid, n: nat): (g': Grid)
    requires WellShaped(g)
    ensures WellShaped(g')
    ensures Binary(g) ==> Binary(g')
    decreases n
  {
    if n == 0 then g
    else
      StepKeepsBinary(g);
      StepN(Step(g), n - 1)
  }

  // ---------------------------------------------------------------------------------------------
  // Properties of the neighbour count

  /** Taking one more position of `ps` adds exactly that position's value. */
  lemma SumCellsSnoc(g: Grid, ps: seq<(int, int)>, k: int)
    requires WellShaped(g) && 0 < k <= |ps|
    ensures SumCells(g, ps[..k]) == SumCells(g, ps[..k - 1]) + Cell(g, ps[k - 1].0, ps[k - 1].1)
  {
    assert ps[..k][..k - 1] == ps[..k - 1];
  }

  /** On a 0/1 grid, a sum over n positions lies in [0, n]. */
  lemma {:induction false} SumCellsBounds(g: Grid, ps: seq<(int, int)>)
    requires WellShaped(g)
    ensures Binary(g) ==> 0 <= SumCells(g, ps) <= |ps|
    decreases |ps|
  {
    if ps != [] {
      SumCellsBounds(g, ps[..|ps| - 1]);
    }
  }

  /** The count is exactly the eight in-grid Moore neighbours added up; off-grid positions add 0. */
  lemma NeighborSumIsEightCells(g: Grid, r: int, c: int)
    requires WellShaped(g)
    ensures NeighborSum(g, r, c) ==
      Cell(g, r - 1, c - 1) + Cell(g, r - 1, c) + Cell(g, r - 1, c + 1) +
      Cell(g, r, c - 1) + Cell(g, r, c + 1) +
      Cell(g, r + 1, c - 1) + Cell(g, r + 1, c) + Cell(g, r + 1, c + 1)
  {
    var ps := Neighbors(r, c);
    assert ps[..8] == ps;
    assert ps[..0] == [];
    SumCellsSnoc(g, ps, 1);
    SumCellsSnoc(g, ps, 2);
    SumCellsSnoc(g, ps, 3);
    SumCellsSnoc(g, ps, 4);
    SumCellsSnoc(g, ps, 5);
    SumCellsSnoc(g, ps, 6);
    SumCellsSnoc(g, ps, 7);
    SumCellsSnoc(g, ps, 8);
  }

  /** The corner (0, 0) sees only its three in-grid neighbours; in particular nothing from the
      opposite edges (no wraparound), so on a 0/1 grid its count is at most 3. */
  lemma CornerSeesThreeCells(g: Grid)
    requires WellShaped(g)
    ensures NeighborSum(g, 0, 0) == g[0][1] + g[1][0] + g[1][1]
    ensures Binary(g) ==> 0 <= NeighborSum(g, 0, 0) <= 3
  {
    NeighborSumIsEightCells(g, 0, 0);
  }

  /** An interior cell's count is the plain sum of its eight surrounding cells. */
  lemma InteriorNeighborSum(g: Grid, r: int, c: int)
    requires WellShaped(g)
    requires 0 < r < LIFE_ROWS - 1 && 0 < c < LIFE_COLS - 1
    ensures NeighborSum(g, r, c) ==
      g[r - 1][c - 1] + g[r - 1][c] + g[r - 1][c + 1] +
      g[r][c - 1] + g[r][c + 1] +
      g[r + 1][c - 1] + g[r + 1][c] + g[r + 1][c + 1]
  {
    NeighborSumIsEightCells(g, r, c);
  }

  /** The count depends only on the eight cells around (r, c), and never on the cell itself. */
  lemma NeighborSumIsLocal(g: Grid, h: Grid, r: int, c: int)
    requires WellShaped(g) && WellShaped(h)
    requires forall rr, cc :: r - 1 <= rr <= r + 1 && c - 1 <= cc <= c + 1 && !(rr == r && cc == c) ==>
      Cell(g, rr, cc) == Cell(h, rr, cc)
    ensures NeighborSum(g, r, c) == NeighborSum(h, r, c)
  {
    NeighborSumIsEightCells(g, r, c);
    NeighborSumIsEightCells(h, r, c);
  }

  // ---------------------------------------------------------------------------------------------
  // Properties of one generation

  /** Conway's B3/S23 rule on a 0/1 grid: a cell is alive in the next generation exactly when it
      has three live neighbours, or it is alive and has two. */
  lemma NextCellIsB3S23(g: Grid, r: int, c: int)
    requires WellShaped(g) && Binary(g) && InGrid(r, c)
    ensures NextCell(g, r, c) == 0 || NextCell(g, r, c) == 1
    ensures NextCell(g, r, c) == 1 <==>
      NeighborSum(g, r, c) == 3 || (g[r][c] == 1 && NeighborSum(g, r, c) == 2)
  {
  }

  /** The rule table, row by row, for a 0/1 grid. */
  lemma LifeRuleTable(g: Grid, r: int, c: int)
    requires WellShaped(g) && Binary(g) && InGrid(r, c)
    ensures var n := NeighborSum(g, r, c);
      && (g[r][c] == 1 && n < 2 ==> NextCell(g, r, c) == 0)
      && (g[r][c] == 1 && (n == 2 || n == 3) ==> NextCell(g, r, c) == 1)
      && (g[r][c] == 1 && n > 3 ==> NextCell(g, r, c) == 0)
      && (g[r][c] == 0 && n == 3 ==> NextCell(g, r, c) == 1)
      && (g[r][c] == 0 && n != 3 ==> NextCell(g, r, c) == 0)
  {
  }

  /** A cell holding anything other than 0 or 1 is carried over unchanged (the source's last
      branch); such values never arise from a 0/1 start. */
  lemma NonBinaryCellKept(g: Grid, r: int, c: int)
    requires WellShaped(g) && InGrid(r, c)
    requires g[r][c] != 0 && g[r][c] != 1
    ensures NextCell(g, r, c) == g[r][c]
  {
  }

  /** A 0/1 grid stays 0/1 after one generation. */
  lemma StepKeepsBinary(g: Grid)
    requires WellShaped(g)
    ensures Binary(g) ==> Binary(Step(g))
  {
    if Binary(g) {
      forall r, c | InGrid(r, c) ensures Step(g)[r][c] == 0 || Step(g)[r][c] == 1 {
        NextCellIsB3S23(g, r, c);
      }
    }
  }

  // ---------------------------------------------------------------------------------------------
  // The two global arrays of the source and the loops that work on them

  class LifeGrid {
    /** `lifeGrid`: the current generation. */
    const cells: array2<int>
    /** `lifeBuffer`: scratch space for the next generation. */
    const buffer: array2<int>
    /** The current generation as a grid value. */
    ghost var Contents: Grid

    ghost predicate Valid()
      reads this, cells
    {
      cells != buffer &&
      cells.Length0 == LIFE_ROWS && cells.Length1 == LIFE_COLS &&
      buffer.Length0 == LIFE_ROWS && buffer.Length1 == LIFE_COLS &&
      WellShaped(Contents) &&
      forall r, c :: InGrid(r, c) ==> Contents[r][c] == cells[r, c]
    }

    /** Allocates both arrays and loads `init` as the first generation. The source fills the grid
        at random (initLife); here the starting grid is a parameter. */
    constructor (init: Grid)
      requires WellShaped(init)
      ensures Valid() && fresh(cells) && fresh(buffer)
      ensures Contents == init
    {
      var a := new int[LIFE_ROWS, LIFE_COLS];
      var b := new int[LIFE_ROWS, LIFE_COLS];
      var r := 0;
      while r < LIFE_ROWS
        invariant 0 <= r <= LIFE_ROWS
        invariant forall i, j :: 0 <= i < r && 0 <= j < LIFE_COLS ==> a[i, j] == init[i][j]
      {
        var c := 0;
        while c < LIFE_COLS
          invariant 0 <= c <= LIFE_COLS
          invariant forall i, j :: 0 <= i < r && 0 <= j < LIFE_COLS ==> a[i, j] == init[i][j]
          invariant forall j :: 0 <= j < c ==> a[r, j] == init[r][j]
        {
          a[r, c] := init[r][c];
          c := c + 1;
        }
        r := r + 1;
      }
      cells := a;
      buffer := b;
      Contents := init;
    }

    /** countNeighbors (life_pong.c:49-62): the nested offset loops with an accumulator. Reads the
        grid only. */
    method CountNeighbors(r: int, c: int) returns (count: int)
      requires Valid()
      ensures count == NeighborSum(Contents, r, c)
    {
      ghost var g := Contents;
      count := 0;
      var dr := -1;
      while dr <= 1
        invariant -1 <= dr <= 2
        invariant count == SumCells(g, Neighbors(r, c)[..Visited(dr, -1)])
      {
        var dc := -1;
        while dc <= 1
          invariant -1 <= dc <= 2
          invariant count == SumCells(g, Neighbors(r, c)[..Visited(dr, dc)])
        {
          VisitStep(g, r, c, dr, dc);
          if !(dr == 0 && dc == 0) {
            var rr := r + dr;
            var cc := c + dc;
            if rr >= 0 && rr < LIFE_ROWS && cc >= 0 && cc < LIFE_COLS {
              count := count + cells[rr, cc];
            } else {
              assert Cell(g, rr, cc) == 0;
            }
          }
          dc := dc + 1;
        }
        assert Visited(dr, 2) == Visited(dr + 1, -1);
        dr := dr + 1;
      }
      assert Neighbors(r, c)[..8] == Neighbors(r, c);
    }

    /** updateLifeAutomaton (life_pong.c:65-86): fills the buffer from the unchanged grid, then
        copies the buffer back. The new generation is Step of the old one. */
    method Update()
      requires Valid()
      modifies this, cells, buffer
      ensures Valid()
      ensures Contents == Step(old(Contents))
    {
      ComputeNext();
      CommitNext();
      Contents := Step(Contents);
    }

    /** The first loop nest of updateLifeAutomaton (life_pong.c:66-79): every buffer cell gets the
        next state of its grid cell, read from the grid, which is left untouched. */
    method ComputeNext()
      requires Valid()
      modifies buffer
      ensures forall i, j :: InGrid(i, j) ==> buffer[i, j] == NextCell(Contents, i, j)
    {
      ghost var g := Contents;
      var r := 0;
      while r < LIFE_ROWS
        invariant 0 <= r <= LIFE_ROWS
        invariant forall i, j :: 0 <= i < r && 0 <= j < LIFE_COLS ==> buffer[i, j] == NextCell(g, i, j)
      {
        var c := 0;
        while c < LIFE_COLS
          invariant 0 <= c <= LIFE_COLS
          invariant forall i, j :: 0 <= i < r && 0 <= j < LIFE_COLS ==> buffer[i, j] == NextCell(g, i, j)
          invariant forall j :: 0 <= j < c ==> buffer[r, j] == NextCell(g, r, j)
        {
          var neighbors := CountNeighbors(r, c);
          var state := cells[r, c];
          if state == 1 && (neighbors < 2 || neighbors > 3) {
            buffer[r, c] := 0;
          } else if state == 0 && neighbors == 3 {
            buffer[r, c] := 1;
          } else {
            buffer[r, c] := state;
          }
          c := c + 1;
        }
        r := r + 1;
      }
    }

    /** The second loop nest of updateLifeAutomaton (life_pong.c:81-85): copies the buffer back into
        the grid, cell for cell. */
    method CommitNext()
      requires cells != buffer
      requires cells.Length0 == LIFE_ROWS && cells.Length1 == LIFE_COLS
      requires buffer.Length0 == LIFE_ROWS && buffer.Length1 == LIFE_COLS
      modifies cells
      ensures forall i, j :: InGrid(i, j) ==> cells[i, j] == buffer[i, j]
    {
      var r := 0;
      while r < LIFE_ROWS
        invariant 0 <= r <= LIFE_ROWS
        invariant forall i, j :: 0 <= i < r && 0 <= j < LIFE_COLS ==> cells[i, j] == buffer[i, j]
      {
        var c := 0;
        while c < LIFE_COLS
          invariant 0 <= c <= LIFE_COLS
          invariant forall i, j :: 0 <= i < r && 0 <= j < LIFE_COLS ==> cells[i, j] == buffer[i, j]
          invariant forall j :: 0 <= j < c ==> cells[r, j] == buffer[r, j]
        {
          cells[r, c] := buffer[r, c];
          c := c + 1;
        }
        r := r + 1;
      }
    }
  }
}
