# Robot block-coding playground in Dafny

This project models the block-coding robot game of a children's coding site. A
player places blocks (`move-forward`, `turn-left`, `turn-right`, `collect`,
`loop-start-3`, `loop-end`, `if-path`) in an editor. An interpreter then drives
a robot across the grid of the open mission, and the mission page gives its
verdict when the run is over.

The model has one module per source file:

| module | file | what it holds |
|---|---|---|
| `RobotWorld` | `robot_world.dfy` | cells, directions, positions, the direction vectors, the two turn tables, `getNextPosition`, `isValidPosition`, and the count of cells of one kind |
| `RobotInterpreter` | `robot_interpreter.dfy` | the run effect of the playground: one step per block (`Step`, and the method `ExecuteNextBlock` with its in-place index and loop stack); the whole run (`Execute`, and the method `Run` with its `while` loop); a termination measure showing that every run stops |
| `RobotProperties` | `robot_properties.dfy` | what each kind of block does in one step; straight-line programs; loops whose body runs three times; what holds of every run |
| `RobotLevels` | `robot_levels.dfy` | the five missions, built as the data module builds them (an array literal, then in-place cell assignments); scenario lemmas; the corrected table `Levels()` |
| `BlockEditor` | `block_editor.dfy` | the palette, appending, splicing out and clearing blocks, the style lookup, and the indentation loop |
| `RoboPage` | `robo_page.dfy` | the mission page as a class holding the page state, with the run verdict as the page computes it, reset and next mission; beside it, the verdict with the robot's real pickup count (`Verdict`) |
| `LevelSelector` | `level_selector.dfy` | the lock rule, the button states, the difficulty colours, and what a click does |
| `CodePlayground` | `code_playground.dfy` | the pixel-stepping canvas of the free block-coding page, as a `while` loop of interval ticks |
| `BlockIds` | `block_ids.dfy` | the seven block id strings, shared by the editor and the interpreter |
| `Optional` | `optional.dfy` | the `Option` type |

Block ids are parsed once into a `Block` datatype. Ids outside the vocabulary
become `Unknown(id)` and are skipped, as the source's `switch` has no default
case.

A grid is a sequence of rows indexed `grid[y][x]`, which is how the playground
reads it. All integers are unbounded: positions stay within a few cells, so no
wrap-around arises.

## Model

| member | source | states |
|---|---|---|
| RobotWorld.Vector | src/components/RobotPlayground.tsx:27-32 | each direction moves by a unit vector of Manhattan length 1 |
| RobotWorld.NextPosition | src/components/RobotPlayground.tsx:65-71 | the next position is at Manhattan distance 1 from the current one, and never equal to it |
| RobotWorld.TurnLeft | src/components/RobotPlayground.tsx:404-426 | a left turn always changes the direction |
| RobotWorld.TurnRight | src/components/RobotPlayground.tsx:429-451 | a right turn always changes the direction |
| RobotWorld.FourLeftTurnsAreIdentity | src/components/RobotPlayground.tsx:409-415 | four left turns give back the original direction |
| RobotWorld.FourRightTurnsAreIdentity | src/components/RobotPlayground.tsx:434-440 | four right turns give back the original direction |
| RobotWorld.TurnsAreInverse | src/components/RobotPlayground.tsx:409-440 | a left turn followed by a right turn is the identity, and so is the reverse |
| RobotWorld.TurnsFollowTheCycle | src/components/RobotPlayground.tsx:409-440 | right is +1 and left is +3 modulo 4 in the cycle up, right, down, left |
| RobotWorld.StepBackAfterHalfTurn | src/components/RobotPlayground.tsx:27-32 | stepping forward, turning twice the same way and stepping again returns to the start |
| RobotWorld.ValidExactlyWhenInsideAndNotWall | src/components/RobotPlayground.tsx:74-82 | a position is valid exactly when it is inside the grid and not a wall; obstacle, goal, collectible and empty cells can be entered |
| RobotWorld.CountZeroIffAbsent | src/pages/Robo.tsx:56 | a cell kind is counted zero times exactly when it does not occur |
| RobotWorld.CountCellsZeroIffAbsent | src/pages/Robo.tsx:56 | the flattened grid counts a kind zero times exactly when no row holds it |
| RobotWorld.CountAppend | src/pages/Robo.tsx:56 | the count over two lists joined is the sum of their counts |
| RobotInterpreter.ParseBlock | src/components/RobotPlayground.tsx:333-361 | an unrecognised id is kept verbatim as an unknown block |
| RobotInterpreter.BlockIdOfParse | src/components/RobotPlayground.tsx:333-361 | parsing an id and printing the block gives the id back |
| RobotInterpreter.ParseOfBlockId | src/components/RobotPlayground.tsx:333-361 | printing a block and parsing it gives the block back |
| RobotInterpreter.Parse | src/components/RobotPlayground.tsx:330-333 | the program has one block per id, each parsed in place |
| RobotInterpreter.Init | src/components/RobotPlayground.tsx:301-305 | a run starts at the start cell and direction, with no loop open, nothing collected, and the invariant holding |
| RobotInterpreter.MoveRobotForward | src/components/RobotPlayground.tsx:367-401 | a move keeps the robot on a valid cell; the path ends where it stands; only collectible cells are ever collected |
| RobotInterpreter.TurnRobotLeft | src/components/RobotPlayground.tsx:404-426 | a left turn keeps the robot invariant |
| RobotInterpreter.TurnRobotRight | src/components/RobotPlayground.tsx:429-451 | a right turn keeps the robot invariant |
| RobotInterpreter.CollectItem | src/components/RobotPlayground.tsx:454-462 | collecting keeps the robot invariant |
| RobotInterpreter.HandleLoopEnd | src/components/RobotPlayground.tsx:464-478 | every loop frame keeps 3 iterations and a count below 3; the robot is untouched |
| RobotInterpreter.EndOfProgram | src/components/RobotPlayground.tsx:314-327 | the end of the program keeps the frame invariant and leaves the robot untouched |
| RobotInterpreter.Step | src/components/RobotPlayground.tsx:313-365 | every step keeps the run invariant |
| RobotInterpreter.StepDecreasesMeasure | src/components/RobotPlayground.tsx:313-365 | every step of a run that has not stopped lowers a well-founded measure, so every run stops |
| RobotInterpreter.Execute | src/components/RobotPlayground.tsx:298-493 | a run ends stopped with the invariant holding; a stopped state stays as it is |
| RobotInterpreter.ExecuteNextBlock | src/components/RobotPlayground.tsx:313-365 | the in-place index and stack updates compute exactly one step |
| RobotInterpreter.Run | src/components/RobotPlayground.tsx:298-312 | nothing changes when not running or when the program is empty; otherwise the loop ends in the run's final state from a fresh start |
| RobotProperties.MoveForwardStep | src/components/RobotPlayground.tsx:367-401 | a move into a valid neighbour appends to the path, records a collectible, and sets the goal flag on a goal cell or on the goal position; an invalid move changes nothing but the index |
| RobotProperties.TurnStep | src/components/RobotPlayground.tsx:404-451 | a turn changes only the direction and appends a path entry at the same coordinates |
| RobotProperties.CollectStep | src/components/RobotPlayground.tsx:454-462 | `collect` appends the robot's cell when it holds a collectible, even when it was recorded before |
| RobotProperties.LoopStartStep | src/components/RobotPlayground.tsx:350-351 | `loop-start-3` pushes the frame {start i+1, 3 iterations, count 0} |
| RobotProperties.LoopEndStep | src/components/RobotPlayground.tsx:464-478 | `loop-end` jumps back to the body start until the count reaches 3, then pops the frame and moves on |
| RobotProperties.UnmatchedLoopEndStep | src/components/RobotPlayground.tsx:464-466 | `loop-end` on an empty stack only moves on |
| RobotProperties.IfPathStep | src/components/RobotPlayground.tsx:480-489 | `if-path` skips exactly the next block when the cell ahead is invalid, and changes nothing else |
| RobotProperties.UnknownBlockStep | src/components/RobotPlayground.tsx:333-363 | an id outside the vocabulary is skipped |
| RobotProperties.EndOfProgramStep | src/components/RobotPlayground.tsx:314-327 | past the end, the top loop repeats until its count reaches 3; then it is popped and the run stops, even with outer loops open; with no loop open the run stops |
| RobotProperties.StepsAdd | src/components/RobotPlayground.tsx:313-365 | a+b steps are a steps followed by b steps |
| RobotProperties.ExecuteAfterSteps | src/components/RobotPlayground.tsx:313-365 | a run continues from the state after any number of steps |
| RobotProperties.StraightLine | src/components/RobotPlayground.tsx:333-363 | m simple blocks take m steps and apply their effects in order |
| RobotProperties.WalkStraight | src/components/RobotPlayground.tsx:367-401 | n forward moves over enterable cells with no collectible walk n cells ahead; on reaching a goal they set the goal flag |
| RobotProperties.LoopPass | src/components/RobotPlayground.tsx:464-478 | one pass of a loop body and its `loop-end` runs the body and raises the count or pops the frame |
| RobotProperties.LoopRunsBodyThreeTimes | src/components/RobotPlayground.tsx:350-478 | a loop around simple blocks runs its body exactly three times, then pops its frame |
| RobotProperties.ExecuteGrows | src/components/RobotPlayground.tsx:367-462 | a run only appends to the path and to the collected items, and keeps the goal flag once set |
| RobotProperties.RunOfSimpleProgram | src/components/RobotPlayground.tsx:313-365 | a program of simple blocks runs each block once, in order, and stops |
| RobotProperties.RunOfStraightWalk | src/components/RobotPlayground.tsx:367-401 | n forward moves from the start walk straight ahead and reach a goal at the end |
| RobotProperties.RunOfSingleLoopProgram | src/components/RobotPlayground.tsx:314-478 | a program that is one loop around simple blocks runs the body three times and stops |
| RobotProperties.RunOfLoopedWalk | src/components/RobotPlayground.tsx:314-478 | a loop of n forward moves over clear cells walks 3n cells |
| RobotProperties.RunEndsAfterSteps | src/components/RobotPlayground.tsx:314-327 | once the steps lead past the end with no loop open, the run stops there |
| RobotProperties.RunStaysSafe | src/components/RobotPlayground.tsx:298-493 | every run ends on a valid cell; it collects only collectible cells; its path starts at the start; it counts a start on the goal as reached |
| RobotLevels.GridOf | src/data/robot-levels.ts:33 | the grid has the given shape and the given cell at each coordinate |
| RobotLevels.Place | src/data/robot-levels.ts:119 | an assignment keeps the shape and puts the new cell at its coordinates |
| RobotLevels.PlaceKeepsOtherCells | src/data/robot-levels.ts:119 | an assignment leaves every other cell as it was |
| RobotLevels.LevelTable | src/data/robot-levels.ts:25-174 | the table holds five levels |
| RobotLevels.BuildLevels | src/data/robot-levels.ts:25-174 | the literal array with every cell assignment applied in order is the level table |
| RobotLevels.TableIdsAndDifficulties | src/data/robot-levels.ts:25-115 | five levels with ids 1 to 5 in order, difficulties easy, easy, medium, medium, hard |
| RobotLevels.RequiredBlocksAreAvailable | src/data/robot-levels.ts:36-109 | every required block of a level is among its available blocks |
| RobotLevels.StartsAreValid | src/data/robot-levels.ts:33-149 | every grid is rectangular and every start cell is inside and not a wall |
| RobotLevels.Level1ThreeMoves | src/data/robot-levels.ts:33-41 | three `move-forward` from (1,2) facing right end at (4,2), the goal cell and goal position, with the goal reached |
| RobotLevels.Level2GoalAndWalls | src/data/robot-levels.ts:122-130 | the goal (2,2) is the goal cell, and walls at (2,0) and (0,1) block the straight paths |
| RobotLevels.CollectibleCounts | src/data/robot-levels.ts:142-146 | level 4 holds exactly three collectibles, in the table as built and corrected; the others hold none |
| RobotLevels.Transposed | src/data/robot-levels.ts:133-174 | the transpose has the columns as rows: row y, column x holds the cell of row x, column y |
| RobotLevels.TransposedSwapsCells | src/data/robot-levels.ts:133-174 | the cell at (x,y) of the transpose is the cell at (y,x) |
| RobotLevels.TransposedTwice | src/data/robot-levels.ts:133-174 | transposing twice gives the grid back |
| RobotLevels.CorrectedGridsAreTransposed | src/data/robot-levels.ts:133-174 | the corrected grids of levels 3 to 5 are the transposes of the grids as built |
| RobotLevels.Levels | src/data/robot-levels.ts:25-174 | the corrected table holds five levels |
| RobotLevels.GoalsOffGoalCells | src/data/robot-levels.ts:133-174 | as built, only levels 1 and 2 have their goal position on a goal cell; in levels 3 to 5 the goal cell sits at swapped coordinates |
| RobotLevels.Level3Unreachable | src/data/robot-levels.ts:64-76 | as built, level 3's goal (6,3) lies outside its 5-wide rows, and no run ever ends on it |
| RobotLevels.CorrectedGoalsOnGoalCells | src/data/robot-levels.ts:69-174 | in the corrected table every goal position is inside its grid and on a goal cell |
| RobotLevels.CorrectedLevel3Solution | src/data/robot-levels.ts:64-76 | in the corrected table, the four-block optimal solution (a loop of two moves) reaches the goal (6,3) |
| BlockEditor.Filter | src/components/BlockCodeEditor.tsx:81-83 | filtering never lengthens the list |
| BlockEditor.FilterKeeps | src/components/BlockCodeEditor.tsx:81-83 | an entry is kept exactly when it is in the palette and its id is available |
| BlockEditor.FilterAppend | src/components/BlockCodeEditor.tsx:81-83 | filtering keeps the palette order |
| BlockEditor.DefaultPaletteIsEverything | src/components/BlockCodeEditor.tsx:30-83 | with the default ids the palette is all seven blocks, in order |
| BlockEditor.AddBlock | src/components/BlockCodeEditor.tsx:85-87 | the old list with the id appended: the prefix is unchanged and the length grows by one |
| BlockEditor.ClearBlocks | src/components/BlockCodeEditor.tsx:95-97 | the list becomes empty |
| BlockEditor.SpliceStart | src/components/BlockCodeEditor.tsx:89-93 | the splice start stays within the list, and is the index itself when the index is valid |
| BlockEditor.RemoveBlock | src/components/BlockCodeEditor.tsx:89-93 | the copy-and-splice loop computes the list without the element at the splice start |
| BlockEditor.RemovedDropsOne | src/components/BlockCodeEditor.tsx:89-93 | for a valid index exactly that element goes, the others keep their order, and the multiset loses just it |
| BlockEditor.RemovedPastEnd | src/components/BlockCodeEditor.tsx:89-93 | an index past the end removes nothing |
| BlockEditor.RemoveUndoesAdd | src/components/BlockCodeEditor.tsx:85-93 | removing the block just added gives the list back |
| BlockEditor.Find | src/components/BlockCodeEditor.tsx:100 | a found entry is in the palette and has the id |
| BlockEditor.FindNone | src/components/BlockCodeEditor.tsx:100 | nothing is found exactly when no entry has the id |
| BlockEditor.PaletteIdsAreDistinct | src/components/BlockCodeEditor.tsx:36-79 | no two palette entries share an id |
| BlockEditor.BlockStyles | src/components/BlockCodeEditor.tsx:99-107 | each palette id gets its own colour, label, icon and end flag; an id gets the grey "Bloco" fallback with no icon exactly when it is not in the palette |
| BlockEditor.GetIndentation | src/components/BlockCodeEditor.tsx:109-121 | the loop computes the indentation of the first `index` blocks: +1 per `loop-start-3` or `if-path`, -1 per `loop-end` floored at 0 |
| BlockEditor.IndentAtMostOpeners | src/components/BlockCodeEditor.tsx:109-121 | the indentation never exceeds the number of opening blocks before it |
| BlockEditor.IndentIsBalance | src/components/BlockCodeEditor.tsx:109-121 | when no prefix closes more than it opens, the indentation is openers minus `loop-end`s |
| RoboPage.Delay | src/pages/Robo.tsx:90 | the verdict waits the level's execution time, or 3000 ms when that is 0, and never 0 ms |
| RoboPage.LevelDelays | src/data/robot-levels.ts:39-111 | no level falls back to 3000 ms; each waits its own time, and later levels wait strictly longer |
| RoboPage.Page.constructor | src/pages/Robo.tsx:16-21 | the page opens on the first level with no blocks, no run and no verdict |
| RoboPage.Page.SelectLevel | src/pages/Robo.tsx:25-31 | opening another level resets the blocks, the verdict, the robot position and the collected items; choosing the open level again changes none of them, as the effect's keys do not change |
| RoboPage.Page.UpdateBlocks | src/pages/Robo.tsx:140-142 | the editor's list replaces the placed blocks and nothing else |
| RoboPage.Page.HandleRunCode | src/pages/Robo.tsx:33-41 | a run marks the page running, clears the verdict, resets the robot and items, and starts the timer over the current level and blocks |
| RoboPage.Page.CompleteRun | src/pages/Robo.tsx:42-90 | the timer stores the verdict as written (level 4: goal and the page's own, always empty, item count against every collectible; others: goal and every required block), so level 4 is never stored as won and its next-mission button never shows; the notification follows goal and blocks, and the run ends |
| RoboPage.Page.ResetCode | src/pages/Robo.tsx:93-96 | the blocks are emptied and the verdict is cleared |
| RoboPage.Page.NextLevel | src/pages/Robo.tsx:98-106 | the next level opens with a fresh start and its title announced, unless the last level is open, which gets a congratulation instead |
| RoboPage.Level4Verdict | src/pages/Robo.tsx:64-70 | with the evidently intended count, level 4 is won exactly at (4,2) after at least three pickups, whatever the blocks |
| RoboPage.Level4AsWrittenNeverSucceeds | src/pages/Robo.tsx:56-67 | with the page's own always-empty item list, level 4 is never won |
| RoboPage.OtherLevelsIgnoreCollected | src/pages/Robo.tsx:64-70 | on every other level the item count plays no part, and the verdict equals goal and required blocks |
| RoboPage.Level4NotificationDisagrees | src/pages/Robo.tsx:64-87 | on level 4 the notification and the stored verdict disagree in both directions |
| RoboPage.Level3LostAsBuilt | src/pages/Robo.tsx:51-70 | with the table as built, every program fails level 3 |
| RoboPage.Level3WonWhenCorrected | src/pages/Robo.tsx:51-70 | with the corrected table, the four optimal blocks win level 3 |
| LevelSelector.StatusOf | src/components/LevelSelector.tsx:27-41 | exactly one status holds: current for the open index, locked beyond the next one, completed before, available for the next |
| LevelSelector.Click | src/components/LevelSelector.tsx:59-61 | a locked button leaves the level unchanged; another opens its index; a click never goes past the next level |
| LevelSelector.ClicksAdvanceOneAtATime | src/components/LevelSelector.tsx:27 | after n clicks the open level is at most n past the start |
| LevelSelector.ClickingInOrderOpensEveryLevel | src/components/LevelSelector.tsx:27 | clicking buttons 1, 2, ... k in turn opens level k |
| LevelSelector.StatusClassesDiffer | src/components/LevelSelector.tsx:32-41 | the four button states get four different class lists |
| LevelSelector.DifficultyColorsDiffer | src/components/LevelSelector.tsx:44-49 | the three difficulties get three different colours |
| LevelSelector.LabelsAreLevelIds | src/components/LevelSelector.tsx:63 | button i shows i+1, which is the id of level i |
| CodePlayground.Animate | src/components/CodePlayground.tsx:33-82 | a run ticks once per block plus a clearing tick, and ends at (50 + 50·#`move-right`, 250 − 50·#`move-up`); with no run the character stays at (50,250) |
| CodePlayground.AbsentTokenCountsZero | src/components/CodePlayground.tsx:53-76 | a token that does not occur moves nothing |
| CodePlayground.EditorTokensNeverMove | src/components/BlockCodeEditor.tsx:30 | programs built from the editor's default ids never move the character |

## Left out

- Canvas drawing is left out: the robot and terrain pictures, rotation degrees and the random terrain tint (src/components/RobotPlayground.tsx:35-40, 85-285), and the canvas of src/components/CodePlayground.tsx. Motion effects and markup are also left out. They are presentation.
- Timing is left out. The 500 ms pacing of the interpreter and of the canvas is not modelled. The run executes synchronously, and the canvas loop takes one pass per tick.
- Race between the verdict timer and the interpreter: the page reads the robot's cell after `executionTime`, which a long program may not have finished by. `Page.CompleteRun` therefore takes the displayed position as a parameter.
- The DOM hand-over of the robot position (`data-x`/`data-y`) is the `finalPosition` parameter. Notification texts and sounds are the `Toast` value.
- Captured render values: the interpreter's move, `collect` and `if-path` read `robotDirection` and `robotPosition` from the render in which the run started (src/components/RobotPlayground.tsx:370, 455, 481). As written, a move after a turn in the same run still goes the old way. The model threads the latest direction and position instead, which is the behaviour the game intends.
- The level texts are not part of `Level`, except the title: descriptions, objectives and hints are display only.
- Ragged rows: reading a cell past the end of a shorter row (src/components/RobotPlayground.tsx:80, 381, 455) throws a `TypeError` in the source, since `undefined` has no `type`. The model does not raise that error; `HasCell` treats such a cell as holding no cell type at all. All five grids are rectangular (`StartsAreValid`), so the difference never arises for them.
- Loop lemmas cover bodies made of simple blocks only (moves, turns, `collect`, unknown ids). Nested loops and `if-path` inside a body are covered only by the step lemmas and `RunStaysSafe`.
- Only levels 1 and 3 have whole-run solution lemmas. The level 4 route (17 blocks) and level 5 are left to the step lemmas.
- `RoboPage.Page.HandleRunCode`: the handler itself does not check that the button is enabled. `Page.ButtonsEnabled` states when it is.
- `BlockEditor.GetBlockStyle`: the colour fallback `block?.color || 'bg-gray-500'` only matters for an empty colour, which no palette entry has. `isEndBlock` is `false` where the source leaves it undefined.
- Icons are tags, not the icon components.

## Findings

| source | as written | input that shows it | evidently intended | confidence | as-written member | corrected member |
|---|---|---|---|---|---|---|
| src/data/robot-levels.ts:133-174 | levels 3 to 5 assign cells as `grid[x][y]`, while the playground reads `grid[y][x]`, so their goal cells sit at swapped coordinates | level 3: goal position (6,3), goal cell at (3,6); level 4: goal (4,2), goal cell at (2,4); level 5: goal (5,4), goal cell at (4,5) | cells assigned at `grid[y][x]`, the goal cell on the goal position | high, not executed | RobotLevels.GoalsOffGoalCells | RobotLevels.CorrectedGoalsOnGoalCells |
| src/data/robot-levels.ts:64-76 | level 3 is built as 7 rows of 5 cells, so its goal (6,3) lies outside every row and no run can reach it | the four-block optimal solution `loop-start-3, move-forward, move-forward, loop-end` from (0,3) facing right | 5 rows of 7 cells, so that the optimal solution walks from (0,3) to (6,3) | high, not executed | RobotLevels.Level3Unreachable | RobotLevels.CorrectedLevel3Solution |
| src/pages/Robo.tsx:56-57 | `allCollected` counts the page's own `collectedItems`, which is only ever assigned `[]` (lines 21, 30, 39), so level 4 is always judged a failure | level 4, robot at the goal (4,2) after collecting all three crystals | count the items the robot collected during the run | high, not executed | RoboPage.Level4AsWrittenNeverSucceeds | RoboPage.Level4Verdict |
