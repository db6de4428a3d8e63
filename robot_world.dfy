/** The grid world of the robot playground: cells, directions, positions and
    the pure movement helpers (`DIRECTION_VECTORS`, the two turn tables,
    `getNextPosition`, `isValidPosition`). */
module RobotWorld {
  import opened Optional

  datatype Cell = Empty | Wall | Goal | Obstacle | Collectible

  datatype Direction = Up | Right | Down | Left

  datatype Position = Position(x: int, y: int)

  /** Rows of cells, indexed `grid[y][x]`. */
  type Grid = seq<seq<Cell>>

  /** What the playground reads of a level: its grid, start and optional
      explicit goal coordinate. */
  datatype World = World(
    grid: Grid,
    startPosition: Position,
    startDirection: Direction,
    goalPosition: Option<Position>)

  /** Every row as wide as the first; the source reads the width from row 0
      and then indexes the row it is in. */
  predicate Rectangular(grid: Grid) {
    forall y :: 0 <= y < |grid| ==> |grid[y]| == |grid[0]|
  }

  /** The unit movement vector of each direction. */
  function Vector(d: Direction): (v: Position)
    ensures Abs(v.x) + Abs(v.y) == 1
  {
    match d
    case Up => Position(0, -1)
    case Right => Position(1, 0)
    case Down => Position(0, 1)
    case Left => Position(-1, 0)
  }

  function Abs(n: int): nat {
    if n < 0 then -n else n
  }

  /** Counter-clockwise successor in the cycle up, right, down, left. */
  function TurnLeft(d: Direction): (r: Direction)
    ensures r != d
  {
    match d
    case Up => Left
    case Right => Up
    case Down => Right
    case Left => Down
  }

  /** Clockwise successor in the cycle up, right, down, left. */
  function TurnRight(d: Direction): (r: Direction)
    ensures r != d
  {
    match d
    case Up => Right
    case Right => Down
    case Down => Left
    case Left => Up
  }

  /** The neighbouring cell in direction `d`; not bounded by any grid. */
  function NextPosition(p: Position, d: Direction): (r: Position)
    ensures Abs(r.x - p.x) + Abs(r.y - p.y) == 1
    ensures r != p
  {
    Position(p.x + Vector(d).x, p.y + Vector(d).y)
  }

  /** The position `n` cells ahead of `p` in direction `d`. */
  function Ahead(p: Position, d: Direction, n: nat): Position
    decreases n
  {
    if n == 0 then p else Ahead(NextPosition(p, d), d, n - 1)
  }

  predicate InBounds(grid: Grid, p: Position) {
    0 <= p.y < |grid| && 0 <= p.x < |grid[0]|
  }

  /** The grid holds cell `c` at `p`. A cell outside the grid, where the
      source's `grid[y][x].type` would throw, holds no cell type here; the
      callers test the bounds first, and only a ragged row could reach it. */
  predicate HasCell(grid: Grid, p: Position, c: Cell) {
    0 <= p.y < |grid| && 0 <= p.x < |grid[p.y]| && grid[p.y][p.x] == c
  }

  /** A position the robot may occupy: inside the grid and not a wall. */
  predicate IsValidPosition(grid: Grid, p: Position) {
    InBounds(grid, p) && !HasCell(grid, p, Wall)
  }

  /** The cells row after row, as `grid.flat()` lists them. */
  function Flat(grid: Grid): seq<Cell> {
    if grid == [] then [] else grid[0] + Flat(grid[1..])
  }

  /** How many entries of `cells` are `c`. */
  function Count(cells: seq<Cell>, c: Cell): nat {
    if cells == [] then 0 else (if cells[0] == c then 1 else 0) + Count(cells[1..], c)
  }

  /** `grid.flat().filter(cell => cell.type === c).length`. */
  function CountCells(grid: Grid, c: Cell): nat {
    Count(Flat(grid), c)
  }

  // ---------------------------------------------------------------------
  // Properties of the direction cycle and of movement

  lemma FourLeftTurnsAreIdentity(d: Direction)
    ensures TurnLeft(TurnLeft(TurnLeft(TurnLeft(d)))) == d
  {
  }

  lemma FourRightTurnsAreIdentity(d: Direction)
    ensures TurnRight(TurnRight(TurnRight(TurnRight(d)))) == d
  {
  }

  /** The two turn tables are inverse to each other. */
  lemma TurnsAreInverse(d: Direction)
    ensures TurnRight(TurnLeft(d)) == d
    ensures TurnLeft(TurnRight(d)) == d
  {
  }

  /** The turn tables agree with the cyclic order of the directions. */
  lemma TurnsFollowTheCycle(d: Direction)
    ensures Index(TurnRight(d)) == (Index(d) + 1) % 4
    ensures Index(TurnLeft(d)) == (Index(d) + 3) % 4
  {
  }

  /** Position of a direction in the cycle up, right, down, left. */
  function Index(d: Direction): (i: nat)
    ensures i < 4
  {
    match d
    case Up => 0
    case Right => 1
    case Down => 2
    case Left => 3
  }

  /** A half turn reverses the movement vector, so stepping forward and then
      forward again after two turns of the same kind returns to the start. */
  lemma StepBackAfterHalfTurn(p: Position, d: Direction)
    ensures NextPosition(NextPosition(p, d), TurnLeft(TurnLeft(d))) == p
    ensures NextPosition(NextPosition(p, d), TurnRight(TurnRight(d))) == p
  {
  }

  /** `isValidPosition` rejects exactly out-of-bounds positions and walls:
      every other kind of cell, obstacles included, may be entered. */
  lemma ValidExactlyWhenInsideAndNotWall(grid: Grid, p: Position)
    requires Rectangular(grid)
    ensures !InBounds(grid, p) ==> !IsValidPosition(grid, p)
    ensures InBounds(grid, p) ==>
      (IsValidPosition(grid, p) <==> grid[p.y][p.x] in {Empty, Goal, Obstacle, Collectible})
  {
  }

  // ---------------------------------------------------------------------
  // Counting cells

  lemma {:induction false} CountZeroIffAbsent(cells: seq<Cell>, c: Cell)
    ensures Count(cells, c) == 0 <==> c !in cells
  {
    if cells != [] {
      CountZeroIffAbsent(cells[1..], c);
      assert cells == [cells[0]] + cells[1..];
    }
  }

  lemma {:induction false} FlatHoldsEveryRow(grid: Grid, c: Cell)
    ensures c in Flat(grid) <==> exists y :: 0 <= y < |grid| && c in grid[y]
  {
    if grid != [] {
      FlatHoldsEveryRow(grid[1..], c);
      if c in grid[0] {
        assert 0 < |grid| && c in grid[0];
      }
      if exists y :: 0 <= y < |grid| && c in grid[y] {
        var y :| 0 <= y < |grid| && c in grid[y];
        if y > 0 {
          assert c in grid[1..][y - 1];
        }
      }
    }
  }

  /** No cell of kind `c` in the grid exactly when the flattened count is 0. */
  lemma CountCellsZeroIffAbsent(grid: Grid, c: Cell)
    ensures CountCells(grid, c) == 0 <==> forall y :: 0 <= y < |grid| ==> c !in grid[y]
  {
    CountZeroIffAbsent(Flat(grid), c);
    FlatHoldsEveryRow(grid, c);
  }

  lemma {:induction false} CountAppend(a: seq<Cell>, b: seq<Cell>, c: Cell)
    ensures Count(a + b, c) == Count(a, c) + Count(b, c)
  {
    if a == [] {
      assert a + b == b;
    } else {
      CountAppend(a[1..], b, c);
      assert (a + b)[1..] == a[1..] + b;
    }
  }

  /** The count over a grid is the count over its first row plus the count
      over the remaining rows. */
  lemma CountCellsByRow(grid: Grid, c: Cell)
    requires grid != []
    ensures CountCells(grid, c) == Count(grid[0], c) + CountCells(grid[1..], c)
  {
    CountAppend(grid[0], Flat(grid[1..]), c);
  }
}
