/** The five missions of the robot page: the `levels` array literal and the
    cell assignments that fill in its grids afterwards. */
module RobotLevels {
  import opened Optional
  import opened RobotWorld
  import opened RobotInterpreter
  import opened BlockIds
  import opened RobotProperties

  datatype Difficulty = Easy | Medium | Hard

  /** A mission as the page reads it; the display texts other than the title
      are not part of this model. */
  datatype Level = Level(
    id: nat,
    title: string,
    difficulty: Difficulty,
    grid: Grid,
    startPosition: Position,
    startDirection: Direction,
    availableBlocks: seq<string>,
    requiredBlocks: seq<string>,
    optimalSolution: nat,
    executionTime: nat,
    goalPosition: Option<Position>)

  /** The world the playground is given for a level. */
  function WorldOf(l: Level): World {
    World(l.grid, l.startPosition, l.startDirection, l.goalPosition)
  }

  /** `Array(rows).fill(null).map(() => Array(cols).fill({ type: 'empty' }))`. */
  function EmptyGrid(rows: nat, cols: nat): (g: Grid)
    ensures |g| == rows
    ensures forall y :: 0 <= y < rows ==> |g[y]| == cols && forall x :: 0 <= x < cols ==> g[y][x] == Empty
  {
    seq(rows, _ => seq(cols, _ => Empty))
  }

  /** The assignment `grid[y][x] = { type: c }`: one cell changes, nothing else. */
  function Place(grid: Grid, y: int, x: int, c: Cell): (r: Grid)
    requires 0 <= y < |grid| && 0 <= x < |grid[y]|
    ensures |r| == |grid| && forall i :: 0 <= i < |r| ==> |r[i]| == |grid[i]|
    ensures r[y][x] == c
  {
    grid[y := grid[y][x := c]]
  }

  /** An assignment leaves every other cell as it was. */
  lemma PlaceKeepsOtherCells(grid: Grid, y: int, x: int, c: Cell, i: int, j: int)
    requires 0 <= y < |grid| && 0 <= x < |grid[y]|
    requires 0 <= i < |grid| && 0 <= j < |grid[i]| && (i != y || j != x)
    ensures Place(grid, y, x, c)[i][j] == grid[i][j]
  {
  }

  /** Two grids with the same shape and the same cells are the same grid. */
  lemma SameCells(a: Grid, b: Grid)
    requires |a| == |b|
    requires forall y :: 0 <= y < |a| ==> |a[y]| == |b[y]|
    requires forall y, x :: 0 <= y < |a| && 0 <= x < |a[y]| ==> a[y][x] == b[y][x]
    ensures a == b
  {
    forall y | 0 <= y < |a|
      ensures a[y] == b[y]
    {
      assert a[y] == b[y];
    }
  }

  // ---------------------------------------------------------------------
  // The finished grids (row index y, column index x), each given by the
  // cells that are not empty

  /** A `rows` by `cols` grid whose cell at column x of row y is `cell(x, y)`. */
  function GridOf(rows: nat, cols: nat, cell: (int, int) -> Cell): (g: Grid)
    ensures |g| == rows && forall y :: 0 <= y < rows ==> |g[y]| == cols
    ensures forall y, x :: 0 <= y < rows && 0 <= x < cols ==> g[y][x] == cell(x, y)
  {
    seq(rows, y => seq(cols, x => cell(x, y)))
  }

  function Level1Cell(x: int, y: int): Cell {
    match (x, y)
    case (4, 2) => Goal
    case _ => Empty
  }

  function Level2Cell(x: int, y: int): Cell {
    match (x, y)
    case (2, 0) => Wall
    case (0, 1) => Wall
    case (2, 2) => Goal
    case _ => Empty
  }

  /** Seven rows of five cells; the goal cell is in row 6, column 3. */
  function Level3Cell(x: int, y: int): Cell {
    match (x, y)
    case (3, 6) => Goal
    case _ => Empty
  }

  function Level4Cell(x: int, y: int): Cell {
    match (x, y)
    case (2, 0) => Collectible
    case (1, 2) => Collectible
    case (3, 2) => Collectible
    case (2, 4) => Goal
    case _ => Empty
  }

  function Level5Cell(x: int, y: int): Cell {
    match (x, y)
    case (4, 0) => Obstacle
    case (1, 1) => Wall
    case (2, 1) => Wall
    case (0, 2) => Obstacle
    case (4, 2) => Wall
    case (2, 3) => Wall
    case (3, 3) => Wall
    case (1, 4) => Wall
    case (4, 5) => Goal
    case _ => Empty
  }

  function Level1Grid(): Grid { GridOf(5, 5, Level1Cell) }
  function Level2Grid(): Grid { GridOf(5, 5, Level2Cell) }
  function Level3Grid(): Grid { GridOf(7, 5, Level3Cell) }
  function Level4Grid(): Grid { GridOf(5, 5, Level4Cell) }
  function Level5Grid(): Grid { GridOf(6, 6, Level5Cell) }

  // ---------------------------------------------------------------------
  // The level table

  /** The levels as the array literal declares them, before any cell is
      assigned. */
  function LevelLiterals(): seq<Level> {
    [Level(1, "Primeiros Passos", Easy, EmptyGrid(5, 5), Position(1, 2), Right,
           [MoveForwardId], [MoveForwardId], 3, 10000, Some(Position(4, 2))),
     Level(2, "Fazendo Curvas", Easy, EmptyGrid(5, 5), Position(0, 0), Right,
           [MoveForwardId, TurnRightId, TurnLeftId], [MoveForwardId, TurnRightId], 5, 12000, Some(Position(2, 2))),
     Level(3, "Repetição", Medium, EmptyGrid(7, 5), Position(0, 3), Right,
           [MoveForwardId, TurnRightId, TurnLeftId, LoopStartId, LoopEndId], [MoveForwardId, LoopStartId], 4, 15000,
           Some(Position(6, 3))),
     Level(4, "Coletando Cristais", Medium, EmptyGrid(5, 5), Position(0, 0), Right,
           [MoveForwardId, TurnRightId, TurnLeftId, CollectId], [MoveForwardId, CollectId], 8, 20000, Some(Position(4, 2))),
     Level(5, "Tomando Decisões", Hard, EmptyGrid(6, 6), Position(0, 0), Right,
           [MoveForwardId, TurnRightId, TurnLeftId, IfPathId], [IfPathId, MoveForwardId], 10, 30000, Some(Position(5, 4)))]
  }

  /** The levels once every cell assignment has been applied. */
  function LevelTable(): (t: seq<Level>)
    ensures |t| == 5
  {
    var lits := LevelLiterals();
    lits[0 := lits[0].(grid := Level1Grid())]
        [1 := lits[1].(grid := Level2Grid())]
        [2 := lits[2].(grid := Level3Grid())]
        [3 := lits[3].(grid := Level4Grid())]
        [4 := lits[4].(grid := Level5Grid())]
  }

  /** Builds `levels` as the module does: the literal first, then each
      `levels[k].grid[y][x] = ...` statement in order. */
  method BuildLevels() returns (levels: array<Level>)
    ensures fresh(levels)
    ensures levels[..] == LevelTable()
  {
    var lits := LevelLiterals();
    levels := new Level[5](i requires 0 <= i < 5 => lits[i]);
    assert levels[..] == lits;
    ghost var t := lits;
    FillLevel1(levels);
    t := t[0 := lits[0].(grid := Level1Grid())];
    assert levels[..] == t;
    FillLevel2(levels);
    t := t[1 := lits[1].(grid := Level2Grid())];
    assert levels[..] == t;
    FillLevel3(levels);
    t := t[2 := lits[2].(grid := Level3Grid())];
    assert levels[..] == t;
    FillLevel4(levels);
    t := t[3 := lits[3].(grid := Level4Grid())];
    assert levels[..] == t;
    FillLevel5(levels);
  }

  method FillLevel1(levels: array<Level>)
    requires levels.Length == 5 && levels[0].grid == EmptyGrid(5, 5)
    modifies levels
    ensures levels[..] == old(levels[..])[0 := old(levels[0]).(grid := Level1Grid())]
  {
    var g := levels[0].grid;
    g := Place(g, 2, 4, Goal);
    SameCells(g, Level1Grid());
    levels[0] := levels[0].(grid := g);
  }

  method FillLevel2(levels: array<Level>)
    requires levels.Length == 5 && levels[1].grid == EmptyGrid(5, 5)
    modifies levels
    ensures levels[..] == old(levels[..])[1 := old(levels[1]).(grid := Level2Grid())]
  {
    var g := levels[1].grid;
    g := Place(g, 0, 0, Empty);
    g := Place(g, 0, 1, Empty);
    g := Place(g, 0, 2, Wall);
    g := Place(g, 1, 0, Wall);
    g := Place(g, 1, 1, Empty);
    g := Place(g, 1, 2, Empty);
    g := Place(g, 2, 0, Empty);
    g := Place(g, 2, 1, Empty);
    g := Place(g, 2, 2, Goal);
    SameCells(g, Level2Grid());
    levels[1] := levels[1].(grid := g);
  }

  method FillLevel3(levels: array<Level>)
    requires levels.Length == 5 && levels[2].grid == EmptyGrid(7, 5)
    modifies levels
    ensures levels[..] == old(levels[..])[2 := old(levels[2]).(grid := Level3Grid())]
  {
    var g := levels[2].grid;
    g := Place(g, 0, 3, Empty);
    g := Place(g, 1, 3, Empty);
    g := Place(g, 2, 3, Empty);
    g := Place(g, 3, 3, Empty);
    g := Place(g, 4, 3, Empty);
    g := Place(g, 5, 3, Empty);
    g := Place(g, 6, 3, Goal);
    SameCells(g, Level3Grid());
    levels[2] := levels[2].(grid := g);
  }

  method FillLevel4(levels: array<Level>)
    requires levels.Length == 5 && levels[3].grid == EmptyGrid(5, 5)
    modifies levels
    ensures levels[..] == old(levels[..])[3 := old(levels[3]).(grid := Level4Grid())]
  {
    var g := levels[3].grid;
    g := Place(g, 0, 0, Empty);
    g := Place(g, 0, 2, Collectible);
    g := Place(g, 2, 1, Collectible);
    g := Place(g, 2, 3, Collectible);
    g := Place(g, 4, 2, Goal);
    SameCells(g, Level4Grid());
    levels[3] := levels[3].(grid := g);
  }

  method FillLevel5(levels: array<Level>)
    requires levels.Length == 5 && levels[4].grid == EmptyGrid(6, 6)
    modifies levels
    ensures levels[..] == old(levels[..])[4 := old(levels[4]).(grid := Level5Grid())]
  {
    var g := levels[4].grid;
    g := Place(g, 0, 0, Empty);
    g := Place(g, 0, 1, Empty);
    g := Place(g, 0, 2, Empty);
    g := Place(g, 0, 3, Empty);
    g := Place(g, 0, 4, Obstacle);
    g := Place(g, 1, 0, Empty);
    g := Place(g, 1, 1, Wall);
    g := Place(g, 1, 2, Wall);
    g := Place(g, 1, 3, Empty);
    g := Place(g, 1, 4, Empty);
    g := Place(g, 2, 0, Obstacle);
    g := Place(g, 2, 1, Empty);
    g := Place(g, 2, 2, Empty);
    g := Place(g, 2, 3, Empty);
    g := Place(g, 2, 4, Wall);
    g := Place(g, 3, 0, Empty);
    g := Place(g, 3, 1, Empty);
    g := Place(g, 3, 2, Wall);
    g := Place(g, 3, 3, Wall);
    g := Place(g, 3, 4, Empty);
    g := Place(g, 4, 0, Empty);
    g := Place(g, 4, 1, Wall);
    g := Place(g, 4, 2, Empty);
    g := Place(g, 4, 3, Empty);
    g := Place(g, 4, 4, Empty);
    g := Place(g, 5, 4, Goal);
    SameCells(g, Level5Grid());
    levels[4] := levels[4].(grid := g);
  }

  // ---------------------------------------------------------------------
  // Facts about the table

  /** Five levels, numbered 1 to 5 in order, two easy, two medium, one hard. */
  lemma TableIdsAndDifficulties()
    ensures var t := LevelTable();
      && (forall k :: 0 <= k < |t| ==> t[k].id == k + 1)
      && [t[0].difficulty, t[1].difficulty, t[2].difficulty, t[3].difficulty, t[4].difficulty]
         == [Easy, Easy, Medium, Medium, Hard]
  {
  }

  /** Every block a level demands is one its palette offers. */
  lemma RequiredBlocksAreAvailable()
    ensures forall k, b :: 0 <= k < |LevelTable()| && b in LevelTable()[k].requiredBlocks ==>
      b in LevelTable()[k].availableBlocks
  {
  }

  /** Every grid is rectangular and every start cell may be occupied, in the
      table as built and in the corrected one. */
  lemma StartsAreValid()
    ensures forall k :: 0 <= k < |LevelTable()| ==>
      Rectangular(LevelTable()[k].grid) && WellFormedWorld(WorldOf(LevelTable()[k]))
    ensures forall k :: 0 <= k < |Levels()| ==>
      Rectangular(Levels()[k].grid) && WellFormedWorld(WorldOf(Levels()[k]))
  {
    forall k | 0 <= k < |LevelTable()|
      ensures Rectangular(LevelTable()[k].grid) && WellFormedWorld(WorldOf(LevelTable()[k]))
    {
      StartValid(LevelTable(), k);
    }
    forall k | 0 <= k < |Levels()|
      ensures Rectangular(Levels()[k].grid) && WellFormedWorld(WorldOf(Levels()[k]))
    {
      StartValid(Levels(), k);
    }
  }

  lemma StartValid(table: seq<Level>, k: int)
    requires table == LevelTable() || table == Levels()
    requires 0 <= k < |table|
    ensures Rectangular(table[k].grid) && WellFormedWorld(WorldOf(table[k]))
  {
  }

  /** The explicit goal lies inside the grid on a goal cell. */
  predicate GoalOnGoalCell(l: Level) {
    l.goalPosition.Some? && InBounds(l.grid, l.goalPosition.value) && HasCell(l.grid, l.goalPosition.value, Goal)
  }

  /** Level 1: the goal is the goal cell (4, 2), and three `move-forward`
      from (1, 2) facing right end there with the goal reached. */
  lemma Level1ThreeMoves(w: World)
    requires w == WorldOf(LevelTable()[0])
    ensures GoalOnGoalCell(LevelTable()[0])
    ensures var r := Execute(w, [Forward, Forward, Forward], Init(w)).robot;
      r.position == Position(4, 2) && r.reachedGoal && AtGoalPosition(w, r.position)
  {
    Level1Walk(w);
    assert [Forward, Forward, Forward] == Forwards(3);
    RunOfStraightWalk(w, 3);
  }

  /** Level 1's robot faces three clear cells, the third the goal. */
  lemma Level1Walk(w: World)
    requires w == WorldOf(LevelTable()[0])
    ensures WellFormedWorld(w) && ClearAhead(w.grid, w.startPosition, w.startDirection, 3)
    ensures Ahead(w.startPosition, w.startDirection, 3) == Position(4, 2) && w.goalPosition == Some(Position(4, 2))
    ensures GoalOnGoalCell(LevelTable()[0])
  {
    Level1World(w);
    Level1Row();
  }

  /** The world of level 1. */
  lemma Level1World(w: World)
    requires w == WorldOf(LevelTable()[0])
    ensures w == World(Level1Grid(), Position(1, 2), Right, Some(Position(4, 2)))
    ensures WellFormedWorld(w) && GoalOnGoalCell(LevelTable()[0])
  {
    assert w == World(Level1Grid(), Position(1, 2), Right, Some(Position(4, 2)));
  }

  /** Three clear cells lie right of (1, 2) in level 1. */
  lemma Level1Row()
    ensures ClearAhead(Level1Grid(), Position(1, 2), Right, 3)
    ensures Ahead(Position(1, 2), Right, 3) == Position(4, 2)
  {
    ClearRow(Level1Grid(), Position(1, 2), 3);
  }

  /** The `n` cells right of `p` may be entered and hold no collectible. */
  lemma ClearRow(g: Grid, p: Position, n: nat)
    requires forall x :: p.x < x <= p.x + n ==> IsValidPosition(g, Position(x, p.y)) && !HasCell(g, Position(x, p.y), Collectible)
    ensures ClearAhead(g, p, Right, n)
    ensures Ahead(p, Right, n) == Position(p.x + n, p.y)
  {
    forall i | 0 <= i <= n
      ensures Ahead(p, Right, i) == Position(p.x + i, p.y)
    {
      AheadRight(p, i);
    }
  }

  lemma {:induction false} AheadRight(p: Position, i: nat)
    ensures Ahead(p, Right, i) == Position(p.x + i, p.y)
    decreases i
  {
    if i > 0 {
      AheadRight(Position(p.x + 1, p.y), i - 1);
    }
  }

  /** Level 2: the goal is the goal cell (2, 2), and walls at (2, 0) and
      (0, 1) stand on both straight lines out of the start corner. */
  lemma Level2GoalAndWalls()
    ensures GoalOnGoalCell(LevelTable()[1])
    ensures var g := LevelTable()[1].grid;
      && !IsValidPosition(g, Position(2, 0)) && !IsValidPosition(g, Position(0, 1))
      && LevelTable()[1].startPosition == Position(0, 0)
  {
  }

  /** Level 4 holds exactly three collectibles, before and after its grid is
      corrected; the other levels hold none. */
  lemma CollectibleCounts()
    ensures CountCells(Level4Grid(), Collectible) == 3 && CountCells(CorrectedLevel4Grid(), Collectible) == 3
    ensures CountCells(Level1Grid(), Collectible) == 0 && CountCells(Level2Grid(), Collectible) == 0
    ensures CountCells(Level3Grid(), Collectible) == 0 && CountCells(Level5Grid(), Collectible) == 0
  {
    assert HoldsNoCollectible(Level1Grid()) && HoldsNoCollectible(Level2Grid()) && HoldsNoCollectible(Level3Grid()) && HoldsNoCollectible(Level5Grid());
    Level4Collectibles();
    CorrectedLevel4Collectibles();
    NoCollectibles(Level1Grid());
    NoCollectibles(Level2Grid());
    NoCollectibles(Level3Grid());
    NoCollectibles(Level5Grid());
  }

  predicate HoldsNoCollectible(g: Grid) {
    forall y, x :: 0 <= y < |g| && 0 <= x < |g[y]| ==> g[y][x] != Collectible
  }

  lemma NoCollectibles(g: Grid)
    requires HoldsNoCollectible(g)
    ensures CountCells(g, Collectible) == 0
  {
    CountCellsZeroIffAbsent(g, Collectible);
  }

  lemma Level4Collectibles()
    ensures CountCells(Level4Grid(), Collectible) == 3
  {
    var g := Level4Grid();
    FiveRows(g, Collectible);
    RowCount(g[0], Collectible);
    RowCount(g[1], Collectible);
    RowCount(g[2], Collectible);
    RowCount(g[3], Collectible);
    RowCount(g[4], Collectible);
  }

  lemma CorrectedLevel4Collectibles()
    ensures CountCells(CorrectedLevel4Grid(), Collectible) == 3
  {
    var g := CorrectedLevel4Grid();
    FiveRows(g, Collectible);
    RowCount(g[0], Collectible);
    RowCount(g[1], Collectible);
    RowCount(g[2], Collectible);
    RowCount(g[3], Collectible);
    RowCount(g[4], Collectible);
  }

  /** The count over five rows is the sum of the rows' counts. */
  lemma FiveRows(g: Grid, c: Cell)
    requires |g| == 5
    ensures CountCells(g, c) == Count(g[0], c) + Count(g[1], c) + Count(g[2], c) + Count(g[3], c) + Count(g[4], c)
  {
    CountCellsByRow(g, c);
    CountCellsByRow(g[1..], c);
    CountCellsByRow(g[2..], c);
    CountCellsByRow(g[3..], c);
    CountCellsByRow(g[4..], c);
    assert g[1..][1..] == g[2..] && g[2..][1..] == g[3..] && g[3..][1..] == g[4..] && g[4..][1..] == [];
  }

  /** The count over a row of five cells, cell by cell. */
  lemma RowCount(row: seq<Cell>, c: Cell)
    requires |row| == 5
    ensures Count(row, c) ==
      (if row[0] == c then 1 else 0) + (if row[1] == c then 1 else 0) + (if row[2] == c then 1 else 0)
      + (if row[3] == c then 1 else 0) + (if row[4] == c then 1 else 0)
  {
    assert row[1..][1..] == row[2..] && row[2..][1..] == row[3..] && row[3..][1..] == row[4..];
    assert row[4..][1..] == [];
    assert Count(row[4..], c) == (if row[4] == c then 1 else 0);
    assert Count(row[3..], c) == (if row[3] == c then 1 else 0) + Count(row[4..], c);
    assert Count(row[2..], c) == (if row[2] == c then 1 else 0) + Count(row[3..], c);
    assert Count(row[1..], c) == (if row[1] == c then 1 else 0) + Count(row[2..], c);
  }

  // ---------------------------------------------------------------------
  // Goal coordinates: levels 3 to 5 write their cells as grid[x][y]

  /** The grid read the other way round: row y of the result is column y. */
  function Transposed(g: Grid): (t: Grid)
    requires g != [] && Rectangular(g)
    ensures |t| == |g[0]| && forall y :: 0 <= y < |t| ==> |t[y]| == |g|
    ensures forall y, x :: 0 <= y < |t| && 0 <= x < |g| ==> t[y][x] == g[x][y]
  {
    seq(|g[0]|, y requires 0 <= y < |g[0]| => seq(|g|, x requires 0 <= x < |g| => g[x][y]))
  }

  /** A transposed grid holds at (x, y) what the original holds at (y, x). */
  lemma TransposedSwapsCells(g: Grid, p: Position, c: Cell)
    requires g != [] && Rectangular(g)
    ensures HasCell(Transposed(g), p, c) <==> HasCell(g, Position(p.y, p.x), c)
  {
  }

  /** Transposing twice gives the grid back. */
  lemma TransposedTwice(g: Grid)
    requires g != [] && Rectangular(g) && |g[0]| > 0
    ensures Rectangular(Transposed(g)) && Transposed(Transposed(g)) == g
  {
    var t := Transposed(g);
    var tt := Transposed(t);
    forall x | 0 <= x < |g|
      ensures tt[x] == g[x]
    {
      assert |tt[x]| == |g[x]|;
    }
  }

  /** The grids of levels 3 to 5 with each cell at the coordinates the
      level's `goalPosition` and start use. */
  function CorrectedLevel3Grid(): Grid { GridOf(5, 7, Swapped3) }
  function CorrectedLevel4Grid(): Grid { GridOf(5, 5, Swapped4) }
  function CorrectedLevel5Grid(): Grid { GridOf(6, 6, Swapped5) }

  function Swapped3(x: int, y: int): Cell { Level3Cell(y, x) }
  function Swapped4(x: int, y: int): Cell { Level4Cell(y, x) }
  function Swapped5(x: int, y: int): Cell { Level5Cell(y, x) }

  /** The corrected grids are the transposes of the grids as written. */
  lemma CorrectedGridsAreTransposed()
    ensures Transposed(Level3Grid()) == CorrectedLevel3Grid()
    ensures Transposed(Level4Grid()) == CorrectedLevel4Grid()
    ensures Transposed(Level5Grid()) == CorrectedLevel5Grid()
  {
    SameCells(Transposed(Level3Grid()), CorrectedLevel3Grid());
    SameCells(Transposed(Level4Grid()), CorrectedLevel4Grid());
    SameCells(Transposed(Level5Grid()), CorrectedLevel5Grid());
  }

  /** The level table the rest of the model uses: the table as built, with
      the grids of levels 3 to 5 transposed. */
  function Levels(): (t: seq<Level>)
    ensures |t| == 5
  {
    var lt := LevelTable();
    lt[2 := lt[2].(grid := CorrectedLevel3Grid())]
      [3 := lt[3].(grid := CorrectedLevel4Grid())]
      [4 := lt[4].(grid := CorrectedLevel5Grid())]
  }

  /** As built, only levels 1 and 2 have their explicit goal on their goal
      cell; in levels 3 to 5 the goal cell sits at the swapped coordinates. */
  lemma GoalsOffGoalCells()
    ensures GoalOnGoalCell(LevelTable()[0]) && GoalOnGoalCell(LevelTable()[1])
    ensures !GoalOnGoalCell(LevelTable()[2]) && !GoalOnGoalCell(LevelTable()[3]) && !GoalOnGoalCell(LevelTable()[4])
    ensures HasCell(LevelTable()[2].grid, Position(3, 6), Goal) && HasCell(LevelTable()[3].grid, Position(2, 4), Goal)
    ensures HasCell(LevelTable()[4].grid, Position(4, 5), Goal)
  {
    var t := LevelTable();
    assert t[0].grid == Level1Grid() && t[1].grid == Level2Grid() && t[2].grid == Level3Grid();
    assert t[3].grid == Level4Grid() && t[4].grid == Level5Grid();
  }

  /** As built, level 3 cannot be won: its explicit goal (6, 3) lies outside
      rows five cells wide, and no run ever leaves the grid. */
  lemma Level3Unreachable(w: World, prog: Program)
    requires w == WorldOf(LevelTable()[2])
    ensures WellFormedWorld(w)
    ensures w.goalPosition == Some(Position(6, 3)) && !InBounds(w.grid, Position(6, 3))
    ensures !AtGoalPosition(w, Execute(w, prog, Init(w)).robot.position)
  {
    assert w == World(Level3Grid(), Position(0, 3), Right, Some(Position(6, 3)));
    RunStaysSafe(w, prog);
  }

  /** In the corrected table every level's explicit goal lies inside its grid
      on its goal cell. */
  lemma CorrectedGoalsOnGoalCells()
    ensures forall k :: 0 <= k < 5 ==> GoalOnGoalCell(Levels()[k])
  {
    var t := Levels();
    assert t[0].grid == Level1Grid() && t[1].grid == Level2Grid() && t[2].grid == CorrectedLevel3Grid();
    assert t[3].grid == CorrectedLevel4Grid() && t[4].grid == CorrectedLevel5Grid();
  }

  /** Corrected level 3 is won by its four-block optimal solution: a loop of
      two forward moves walks from (0, 3) to the goal (6, 3). */
  lemma CorrectedLevel3Solution(w: World, prog: Program)
    requires w == WorldOf(Levels()[2]) && prog == [LoopStart, Forward, Forward, LoopEnd]
    ensures var r := Execute(w, prog, Init(w)).robot;
      r.position == Position(6, 3) && r.reachedGoal && AtGoalPosition(w, r.position)
  {
    CorrectedLevel3Walk(w);
    LoopOfTwoMoves(w, prog);
  }

  /** Corrected level 3's robot faces six clear cells, the sixth the goal. */
  lemma CorrectedLevel3Walk(w: World)
    requires w == WorldOf(Levels()[2])
    ensures WellFormedWorld(w) && ClearAhead(w.grid, w.startPosition, w.startDirection, 6)
    ensures Ahead(w.startPosition, w.startDirection, 6) == Position(6, 3) && w.goalPosition == Some(Position(6, 3))
  {
    CorrectedLevel3World(w);
    CorrectedLevel3Row();
  }

  /** The world of corrected level 3. */
  lemma CorrectedLevel3World(w: World)
    requires w == WorldOf(Levels()[2])
    ensures w == World(CorrectedLevel3Grid(), Position(0, 3), Right, Some(Position(6, 3)))
    ensures WellFormedWorld(w)
  {
    assert w == World(CorrectedLevel3Grid(), Position(0, 3), Right, Some(Position(6, 3)));
  }

  /** Six clear cells lie right of (0, 3) in corrected level 3. */
  lemma CorrectedLevel3Row()
    ensures ClearAhead(CorrectedLevel3Grid(), Position(0, 3), Right, 6)
    ensures Ahead(Position(0, 3), Right, 6) == Position(6, 3)
  {
    ClearRow(CorrectedLevel3Grid(), Position(0, 3), 6);
  }

  /** A loop of two forward moves over six clear cells. */
  lemma LoopOfTwoMoves(w: World, prog: Program)
    requires WellFormedWorld(w) && ClearAhead(w.grid, w.startPosition, w.startDirection, 6)
    requires prog == [LoopStart, Forward, Forward, LoopEnd]
    ensures var r := Execute(w, prog, Init(w)).robot;
      && r.position == Ahead(w.startPosition, w.startDirection, 6)
      && (HasCell(w.grid, r.position, Goal) || AtGoalPosition(w, r.position) ==> r.reachedGoal)
  {
    assert prog == [LoopStart] + Forwards(2) + [LoopEnd];
    RunOfLoopedWalk(w, 2);
  }
}
