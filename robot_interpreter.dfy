/** The block-program interpreter of the robot playground: one `Step` per
    call of `executeNextBlock`, over an explicit state that holds the
    program counter, the loop stack and the robot. */
module RobotInterpreter {
  import opened Optional
  import opened RobotWorld
  import opened BlockIds

  /** The only loop block repeats its body this many times. */
  const LoopIterations := 3

  /** A block as the interpreter's `switch` sees it; any other string falls
      through every case. */
  datatype Block = Forward | LeftTurn | RightTurn | Collect | LoopStart | LoopEnd | IfPath | Unknown(id: string)

  function ParseBlock(id: string): (b: Block)
    ensures b.Unknown? ==> b.id == id
  {
    if id == MoveForwardId then Forward
    else if id == TurnLeftId then LeftTurn
    else if id == TurnRightId then RightTurn
    else if id == CollectId then Collect
    else if id == LoopStartId then LoopStart
    else if id == LoopEndId then LoopEnd
    else if id == IfPathId then IfPath
    else Unknown(id)
  }

  function BlockId(b: Block): string {
    match b
    case Forward => MoveForwardId
    case LeftTurn => TurnLeftId
    case RightTurn => TurnRightId
    case Collect => CollectId
    case LoopStart => LoopStartId
    case LoopEnd => LoopEndId
    case IfPath => IfPathId
    case Unknown(id) => id
  }

  /** Reading a block loses nothing: its id is the string it came from. */
  lemma BlockIdOfParse(id: string)
    ensures BlockId(ParseBlock(id)) == id
  {
  }

  /** Every block except an `Unknown` that spells a known id is read back
      from its own id. */
  lemma ParseOfBlockId(b: Block)
    requires b.Unknown? ==> b.id !in {MoveForwardId, TurnLeftId, TurnRightId, CollectId, LoopStartId, LoopEndId, IfPathId}
    ensures ParseBlock(BlockId(b)) == b
  {
  }

  type Program = seq<Block>

  function Parse(ids: seq<string>): (prog: Program)
    ensures |prog| == |ids|
    ensures forall i :: 0 <= i < |ids| ==> prog[i] == ParseBlock(ids[i])
  {
    seq(|ids|, i requires 0 <= i < |ids| => ParseBlock(ids[i]))
  }

  /** A loop frame: where the body starts, how often it runs, how often it has run. */
  datatype Frame = Frame(startIndex: nat, iterations: nat, count: nat)

  /** One entry of the execution path drawn on the canvas. */
  datatype PathEntry = PathEntry(x: int, y: int, direction: Direction)

  /** The robot as the playground's state hooks hold it. */
  datatype Robot = Robot(
    position: Position,
    direction: Direction,
    collectedItems: seq<Position>,
    executionPath: seq<PathEntry>,
    reachedGoal: bool)

  /** The interpreter's locals (`currentBlockIndex`, `loopStack`), whether it
      has stopped, and the robot. */
  datatype State = State(pc: nat, loopStack: seq<Frame>, robot: Robot, halted: bool)

  /** A world the playground can run in: its start cell is inside the grid
      and not a wall. */
  predicate WellFormedWorld(w: World) {
    IsValidPosition(w.grid, w.startPosition)
  }

  /** What the goal-check effect tests whenever the position changes. */
  predicate AtGoalPosition(w: World, p: Position) {
    w.goalPosition == Some(p)
  }

  predicate FramesOk(stack: seq<Frame>) {
    forall i :: 0 <= i < |stack| ==> stack[i].iterations == LoopIterations && stack[i].count < stack[i].iterations
  }

  /** Every robot a run can produce satisfies this: it stands on a cell it
      may occupy, the path ends where it stands, and it has collected only
      cells that hold a collectible. */
  predicate RobotInv(w: World, b: Robot) {
    && IsValidPosition(w.grid, b.position)
    && |b.executionPath| > 0
    && b.executionPath[|b.executionPath| - 1] == PathEntry(b.position.x, b.position.y, b.direction)
    && forall i :: 0 <= i < |b.collectedItems| ==> HasCell(w.grid, b.collectedItems[i], Collectible)
  }

  /** Every state a run can reach satisfies this. */
  predicate Inv(w: World, s: State) {
    RobotInv(w, s.robot) && FramesOk(s.loopStack)
  }

  /** The robot only gains path entries and collected items, and keeps the
      goal flag once set. */
  predicate Grows(b: Robot, b': Robot) {
    && b.collectedItems <= b'.collectedItems
    && b.executionPath <= b'.executionPath
    && (b.reachedGoal ==> b'.reachedGoal)
  }

  /** The reset at the start of a run, followed by the goal check the new
      position triggers. */
  function Init(w: World): (s: State)
    requires WellFormedWorld(w)
    ensures Inv(w, s) && !s.halted && s.pc == 0 && s.loopStack == []
    ensures s.robot.position == w.startPosition && s.robot.direction == w.startDirection
    ensures s.robot.collectedItems == []
  {
    var p := w.startPosition;
    State(0, [], Robot(p, w.startDirection, [], [PathEntry(p.x, p.y, w.startDirection)], AtGoalPosition(w, p)), false)
  }

  // ---------------------------------------------------------------------
  // The effect of each block on the robot

  function MoveRobotForward(w: World, b: Robot): (r: Robot)
    ensures RobotInv(w, b) ==> RobotInv(w, r)
  {
    var next := NextPosition(b.position, b.direction);
    if IsValidPosition(w.grid, next) then
      b.(position := next,
         executionPath := b.executionPath + [PathEntry(next.x, next.y, b.direction)],
         collectedItems := if HasCell(w.grid, next, Collectible) then b.collectedItems + [next] else b.collectedItems,
         reachedGoal := b.reachedGoal || AtGoalPosition(w, next) || HasCell(w.grid, next, Goal))
    else
      b
  }

  /** The last path entry; the path is never empty, as it starts with the
      start cell. */
  function LastStep(b: Robot): PathEntry {
    if b.executionPath == [] then PathEntry(b.position.x, b.position.y, b.direction)
    else b.executionPath[|b.executionPath| - 1]
  }

  function TurnRobotLeft(w: World, b: Robot): (r: Robot)
    ensures RobotInv(w, b) ==> RobotInv(w, r)
  {
    var d := TurnLeft(b.direction);
    b.(direction := d, executionPath := b.executionPath + [LastStep(b).(direction := d)])
  }

  function TurnRobotRight(w: World, b: Robot): (r: Robot)
    ensures RobotInv(w, b) ==> RobotInv(w, r)
  {
    var d := TurnRight(b.direction);
    b.(direction := d, executionPath := b.executionPath + [LastStep(b).(direction := d)])
  }

  function CollectItem(w: World, b: Robot): (r: Robot)
    ensures RobotInv(w, b) ==> RobotInv(w, r)
  {
    if HasCell(w.grid, b.position, Collectible) then
      b.(collectedItems := b.collectedItems + [b.position])
    else
      b
  }

  /** Blocks that touch only the robot and then fall through to the next
      block; unknown strings are among them and do nothing. */
  predicate IsSimple(block: Block) {
    !block.LoopStart? && !block.LoopEnd? && !block.IfPath?
  }

  /** The robot effect of a simple block. */
  function ExecSimple(w: World, b: Robot, block: Block): (r: Robot)
    ensures RobotInv(w, b) ==> RobotInv(w, r)
  {
    match block
    case Forward => MoveRobotForward(w, b)
    case LeftTurn => TurnRobotLeft(w, b)
    case RightTurn => TurnRobotRight(w, b)
    case Collect => CollectItem(w, b)
    case _ => b
  }

  // ---------------------------------------------------------------------
  // Control flow

  /** `loop-end` inside the program: count one iteration of the innermost
      loop and jump back to its body, or pop it and fall through. */
  function HandleLoopEnd(s: State): (r: State)
    ensures FramesOk(s.loopStack) ==> FramesOk(r.loopStack)
    ensures r.robot == s.robot && r.halted == s.halted
  {
    if |s.loopStack| > 0 then
      var top := s.loopStack[|s.loopStack| - 1];
      if top.count + 1 < top.iterations then
        s.(pc := top.startIndex,
           loopStack := s.loopStack[|s.loopStack| - 1 := top.(count := top.count + 1)])
      else
        s.(pc := s.pc + 1, loopStack := s.loopStack[..|s.loopStack| - 1])
    else
      s.(pc := s.pc + 1)
  }

  /** `if-path`: skip the next block when the cell ahead cannot be entered. */
  function CheckIfPathClear(w: World, s: State): (r: State)
  {
    if IsValidPosition(w.grid, NextPosition(s.robot.position, s.robot.direction)) then
      s.(pc := s.pc + 1)
    else
      s.(pc := s.pc + 2)
  }

  /** The counter has run past the last block: iterate the innermost loop
      again, or pop it and stop; with no loop open, stop. */
  function EndOfProgram(s: State): (r: State)
    ensures FramesOk(s.loopStack) ==> FramesOk(r.loopStack)
    ensures r.robot == s.robot
  {
    if |s.loopStack| > 0 then
      var top := s.loopStack[|s.loopStack| - 1];
      if top.count + 1 < top.iterations then
        s.(pc := top.startIndex,
           loopStack := s.loopStack[|s.loopStack| - 1 := top.(count := top.count + 1)])
      else
        s.(loopStack := s.loopStack[..|s.loopStack| - 1], halted := true)
    else
      s.(halted := true)
  }

  /** What one call of `executeNextBlock` does to the interpreter state. */
  function Step(w: World, prog: Program, s: State): (r: State)
    ensures Inv(w, s) ==> Inv(w, r)
  {
    if s.pc >= |prog| then
      EndOfProgram(s)
    else
      var block := prog[s.pc];
      match block
      case LoopStart =>
        s.(pc := s.pc + 1, loopStack := s.loopStack + [Frame(s.pc + 1, LoopIterations, 0)])
      case LoopEnd =>
        HandleLoopEnd(s)
      case IfPath =>
        CheckIfPathClear(w, s)
      case _ =>
        s.(pc := s.pc + 1, robot := ExecSimple(w, s.robot, block))
  }

  // ---------------------------------------------------------------------
  // Termination: every step that does not stop lowers this measure.

  /** Weight(n, i) = 4 * Weight(n, i + 1) + 1 for i <= n, and 1 beyond. */
  function Weight(n: nat, i: nat): (r: nat)
    ensures r >= 1
    decreases n + 1 - i
  {
    if i > n then 1 else 4 * Weight(n, i + 1) + 1
  }

  /** The share of the program counter: it falls as the counter advances. */
  function Distance(n: nat, pc: nat): nat {
    Weight(n, pc) - 1
  }

  /** A frame weighs its remaining iterations times the weight of its body start. */
  function FrameWeight(n: nat, f: Frame): nat {
    if f.count <= f.iterations then (f.iterations - f.count) * Weight(n, f.startIndex) else 0
  }

  function StackWeight(n: nat, stack: seq<Frame>): nat {
    if stack == [] then 0
    else StackWeight(n, stack[..|stack| - 1]) + FrameWeight(n, stack[|stack| - 1])
  }

  function Measure(n: nat, s: State): nat {
    Distance(n, s.pc) + StackWeight(n, s.loopStack) + (if s.halted then 0 else 1)
  }

  lemma {:induction false} WeightMonotone(n: nat, i: nat, j: nat)
    requires i <= j
    ensures Weight(n, j) <= Weight(n, i)
    decreases j - i
  {
    if i < j {
      WeightMonotone(n, i + 1, j);
    }
  }

  lemma StackWeightPush(n: nat, stack: seq<Frame>, f: Frame)
    ensures StackWeight(n, stack + [f]) == StackWeight(n, stack) + FrameWeight(n, f)
  {
    assert (stack + [f])[..|stack|] == stack;
  }

  lemma StackWeightReplaceTop(n: nat, stack: seq<Frame>, f: Frame)
    requires |stack| > 0
    ensures StackWeight(n, stack[|stack| - 1 := f])
         == StackWeight(n, stack[..|stack| - 1]) + FrameWeight(n, f)
  {
    var k := |stack| - 1;
    assert stack[k := f] == stack[..k] + [f];
    StackWeightPush(n, stack[..k], f);
  }

  /** Counting one more iteration of the innermost loop lowers the stack's
      weight by the weight of that loop's body start, popped or not. */
  lemma IterateTopWeight(n: nat, stack: seq<Frame>)
    requires |stack| > 0 && FramesOk(stack)
    ensures var top := stack[|stack| - 1];
      && StackWeight(n, stack[..|stack| - 1]) + Weight(n, top.startIndex) <= StackWeight(n, stack)
      && (top.count + 1 < top.iterations ==>
            StackWeight(n, stack[|stack| - 1 := top.(count := top.count + 1)]) + Weight(n, top.startIndex)
            == StackWeight(n, stack))
  {
    var top := stack[|stack| - 1];
    var w := Weight(n, top.startIndex);
    assert FrameWeight(n, top) == (top.iterations - top.count) * w;
    assert (top.iterations - top.count) * w == (top.iterations - top.count - 1) * w + w;
    StackWeightReplaceTop(n, stack, top.(count := top.count + 1));
  }

  /** Every step either stops the run or lowers the measure. */
  lemma StepDecreasesMeasure(w: World, prog: Program, s: State)
    requires Inv(w, s) && !s.halted
    ensures Measure(|prog|, Step(w, prog, s)) < Measure(|prog|, s)
  {
    var n := |prog|;
    var r := Step(w, prog, s);
    if s.pc >= n {
      if |s.loopStack| > 0 {
        IterateTopWeight(n, s.loopStack);
      }
    } else {
      var block := prog[s.pc];
      match block
      case LoopStart =>
        StackWeightPush(n, s.loopStack, Frame(s.pc + 1, LoopIterations, 0));
      case LoopEnd =>
        if |s.loopStack| > 0 {
          IterateTopWeight(n, s.loopStack);
        }
      case IfPath =>
        WeightMonotone(n, s.pc + 1, s.pc + 2);
      case _ =>
    }
  }

  // ---------------------------------------------------------------------
  // A whole run

  /** The state in which the run starting in `s` stops. */
  function Execute(w: World, prog: Program, s: State): (r: State)
    requires Inv(w, s)
    ensures Inv(w, r) && r.halted
    ensures s.halted ==> r == s
    decreases Measure(|prog|, s)
  {
    if s.halted then s
    else
      StepDecreasesMeasure(w, prog, s);
      Execute(w, prog, Step(w, prog, s))
  }

  /** One call of `executeNextBlock`, written as the source writes it: the
      index and the innermost frame are updated in place, a loop that goes
      round again sets the index one short of the body start, and the index
      is advanced once at the end. */
  method ExecuteNextBlock(w: World, prog: Program, s: State) returns (r: State)
    ensures r == Step(w, prog, s)
  {
    var currentBlockIndex: int := s.pc;
    var loopStack := s.loopStack;
    var robot := s.robot;
    if currentBlockIndex >= |prog| {
      if |loopStack| > 0 {
        var currentLoop := loopStack[|loopStack| - 1];
        currentLoop := currentLoop.(count := currentLoop.count + 1);
        loopStack := loopStack[|loopStack| - 1 := currentLoop];
        if currentLoop.count < currentLoop.iterations {
          return s.(pc := currentLoop.startIndex, loopStack := loopStack);
        }
        loopStack := loopStack[..|loopStack| - 1];
        return s.(loopStack := loopStack, halted := true);
      }
      return s.(halted := true);
    }
    match prog[currentBlockIndex] {
      case Forward => robot := MoveRobotForward(w, robot);
      case LeftTurn => robot := TurnRobotLeft(w, robot);
      case RightTurn => robot := TurnRobotRight(w, robot);
      case Collect => robot := CollectItem(w, robot);
      case LoopStart =>
        loopStack := loopStack + [Frame(currentBlockIndex + 1, LoopIterations, 0)];
      case LoopEnd =>
        if |loopStack| > 0 {
          var currentLoop := loopStack[|loopStack| - 1];
          currentLoop := currentLoop.(count := currentLoop.count + 1);
          if currentLoop.count < currentLoop.iterations {
            loopStack := loopStack[|loopStack| - 1 := currentLoop];
            currentBlockIndex := currentLoop.startIndex - 1;
          } else {
            loopStack := loopStack[..|loopStack| - 1];
          }
        }
      case IfPath =>
        if !IsValidPosition(w.grid, NextPosition(robot.position, robot.direction)) {
          currentBlockIndex := currentBlockIndex + 1;
        }
      case Unknown(_) =>
    }
    currentBlockIndex := currentBlockIndex + 1;
    r := s.(pc := currentBlockIndex, loopStack := loopStack, robot := robot);
  }

  /** The run effect: nothing happens unless the page is running a non-empty
      program; otherwise the robot is reset and blocks are executed one by
      one until the interpreter stops. */
  method Run(w: World, codeBlocks: seq<string>, isRunning: bool, current: State) returns (s: State)
    requires WellFormedWorld(w)
    ensures !isRunning || |codeBlocks| == 0 ==> s == current
    ensures isRunning && |codeBlocks| > 0 ==> s == Execute(w, Parse(codeBlocks), Init(w))
  {
    if !isRunning || |codeBlocks| == 0 {
      return current;
    }
    var prog := Parse(codeBlocks);
    s := Init(w);
    while !s.halted
      invariant Inv(w, s)
      invariant Execute(w, prog, s) == Execute(w, prog, Init(w))
      decreases Measure(|prog|, s)
    {
      StepDecreasesMeasure(w, prog, s);
      s := ExecuteNextBlock(w, prog, s);
    }
  }
}
