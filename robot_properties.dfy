/** What one step of the interpreter does for each kind of block, how a
    loop body runs, and what holds of every run. */
module RobotProperties {
  import opened Optional
  import opened RobotWorld
  import opened RobotInterpreter

  // ---------------------------------------------------------------------
  // One step, block by block

  /** `move-forward` enters the cell ahead when it may be entered, recording
      the path, any collectible and the goal; otherwise nothing but the
      counter changes. */
  lemma MoveForwardStep(w: World, prog: Program, s: State)
    requires !s.halted && s.pc < |prog| && prog[s.pc] == Forward
    ensures var r := Step(w, prog, s);
      var b := s.robot;
      var next := NextPosition(b.position, b.direction);
      && r.pc == s.pc + 1 && r.loopStack == s.loopStack && !r.halted && r.robot.direction == b.direction
      && (IsValidPosition(w.grid, next) ==>
            && r.robot.position == next
            && r.robot.executionPath == b.executionPath + [PathEntry(next.x, next.y, b.direction)]
            && r.robot.collectedItems == b.collectedItems + (if HasCell(w.grid, next, Collectible) then [next] else [])
            && (r.robot.reachedGoal <==> b.reachedGoal || HasCell(w.grid, next, Goal) || w.goalPosition == Some(next)))
      && (!IsValidPosition(w.grid, next) ==> r == s.(pc := s.pc + 1))
  {
  }

  /** A turn changes only the direction and appends a path entry at the
      unchanged coordinates. */
  lemma TurnStep(w: World, prog: Program, s: State)
    requires Inv(w, s) && !s.halted && s.pc < |prog|
    requires prog[s.pc] == LeftTurn || prog[s.pc] == RightTurn
    ensures var b := s.robot;
      var d := if prog[s.pc] == LeftTurn then TurnLeft(b.direction) else TurnRight(b.direction);
      Step(w, prog, s) == s.(pc := s.pc + 1, robot := b.(direction := d,
                             executionPath := b.executionPath + [PathEntry(b.position.x, b.position.y, d)]))
  {
  }

  /** `collect` records the robot's own cell when it holds a collectible,
      even if that cell was recorded before. */
  lemma CollectStep(w: World, prog: Program, s: State)
    requires !s.halted && s.pc < |prog| && prog[s.pc] == Collect
    ensures var b := s.robot;
      Step(w, prog, s) ==
        if HasCell(w.grid, b.position, Collectible)
        then s.(pc := s.pc + 1, robot := b.(collectedItems := b.collectedItems + [b.position]))
        else s.(pc := s.pc + 1)
  {
  }

  /** `loop-start-3` opens a frame whose body starts right after it. */
  lemma LoopStartStep(w: World, prog: Program, s: State)
    requires !s.halted && s.pc < |prog| && prog[s.pc] == LoopStart
    ensures Step(w, prog, s) ==
      s.(pc := s.pc + 1, loopStack := s.loopStack + [Frame(s.pc + 1, 3, 0)])
  {
  }

  /** `loop-end` with an open loop jumps back to the body's first block
      until the innermost loop has run three times, then pops it and moves on. */
  lemma LoopEndStep(w: World, prog: Program, s: State)
    requires !s.halted && s.pc < |prog| && prog[s.pc] == LoopEnd
    requires s.loopStack != [] && FramesOk(s.loopStack)
    ensures var k := |s.loopStack| - 1;
      var top := s.loopStack[k];
      Step(w, prog, s) ==
        if top.count + 1 < 3
        then s.(pc := top.startIndex, loopStack := s.loopStack[k := top.(count := top.count + 1)])
        else s.(pc := s.pc + 1, loopStack := s.loopStack[..k])
  {
  }

  /** `loop-end` with no open loop only moves on. */
  lemma UnmatchedLoopEndStep(w: World, prog: Program, s: State)
    requires !s.halted && s.pc < |prog| && prog[s.pc] == LoopEnd
    requires s.loopStack == []
    ensures Step(w, prog, s) == s.(pc := s.pc + 1)
  {
  }

  /** `if-path` skips exactly the next block when the cell ahead cannot be
      entered, and changes nothing else. */
  lemma IfPathStep(w: World, prog: Program, s: State)
    requires !s.halted && s.pc < |prog| && prog[s.pc] == IfPath
    ensures Step(w, prog, s) ==
      s.(pc := s.pc + if IsValidPosition(w.grid, NextPosition(s.robot.position, s.robot.direction)) then 1 else 2)
  {
  }

  /** Any string outside the vocabulary is skipped. */
  lemma UnknownBlockStep(w: World, prog: Program, s: State)
    requires !s.halted && s.pc < |prog| && prog[s.pc].Unknown?
    ensures Step(w, prog, s) == s.(pc := s.pc + 1)
  {
  }

  /** Past the last block the innermost loop is iterated again until it has
      run three times; then it is popped and the run stops, even when outer
      loops remain open. With no loop open the run stops at once. */
  lemma EndOfProgramStep(w: World, prog: Program, s: State)
    requires FramesOk(s.loopStack) && !s.halted && s.pc >= |prog|
    ensures var r := Step(w, prog, s);
      && r.robot == s.robot
      && (s.loopStack == [] ==> r == s.(halted := true))
      && (s.loopStack != [] ==>
            var k := |s.loopStack| - 1;
            var top := s.loopStack[k];
            if top.count + 1 < 3
            then r == s.(pc := top.startIndex, loopStack := s.loopStack[k := top.(count := top.count + 1)])
            else r == s.(loopStack := s.loopStack[..k], halted := true))
  {
  }

  // ---------------------------------------------------------------------
  // Several steps

  /** The state after `k` steps, or the stopped state if the run stops first. */
  function Steps(w: World, prog: Program, s: State, k: nat): (r: State)
    decreases k
  {
    if k == 0 || s.halted then s else Steps(w, prog, Step(w, prog, s), k - 1)
  }

  lemma {:induction false} StepsAdd(w: World, prog: Program, s: State, a: nat, b: nat)
    ensures Steps(w, prog, s, a + b) == Steps(w, prog, Steps(w, prog, s, a), b)
    decreases a
  {
    if s.halted {
      HaltedStays(w, prog, s, a + b);
      HaltedStays(w, prog, s, a);
      HaltedStays(w, prog, s, b);
    } else if a > 0 {
      var t := Step(w, prog, s);
      StepsAdd(w, prog, t, a - 1, b);
      assert Steps(w, prog, s, a + b) == Steps(w, prog, t, a - 1 + b);
    }
  }

  lemma StepsOne(w: World, prog: Program, s: State)
    requires !s.halted
    ensures Steps(w, prog, s, 1) == Step(w, prog, s)
  {
  }

  lemma {:induction false} HaltedStays(w: World, prog: Program, s: State, k: nat)
    requires s.halted
    ensures Steps(w, prog, s, k) == s
  {
  }

  /** Taking steps does not change where the run stops. */
  lemma {:induction false} ExecuteAfterSteps(w: World, prog: Program, s: State, k: nat)
    requires Inv(w, s)
    ensures Inv(w, Steps(w, prog, s, k)) && Execute(w, prog, Steps(w, prog, s, k)) == Execute(w, prog, s)
    decreases k
  {
    if k > 0 && !s.halted {
      ExecuteAfterSteps(w, prog, Step(w, prog, s), k - 1);
    }
  }

  // ---------------------------------------------------------------------
  // Straight-line code and the loop block

  /** The robot effects of a sequence of simple blocks, one after the other. */
  function RunSimple(w: World, body: seq<Block>, b: Robot): (r: Robot)
  {
    if body == [] then b else RunSimple(w, body[1..], ExecSimple(w, b, body[0]))
  }

  /** `m` simple blocks take `m` steps and have exactly their robot effects. */
  lemma {:induction false} StraightLine(w: World, prog: Program, s: State, m: nat)
    requires !s.halted && s.pc + m <= |prog|
    requires forall j :: s.pc <= j < s.pc + m ==> IsSimple(prog[j])
    ensures Steps(w, prog, s, m) == s.(pc := s.pc + m, robot := RunSimple(w, prog[s.pc..s.pc + m], s.robot))
    decreases m
  {
    if m == 0 {
      assert prog[s.pc..s.pc] == [];
    } else {
      var t := Step(w, prog, s);
      assert t == s.(pc := s.pc + 1, robot := ExecSimple(w, s.robot, prog[s.pc]));
      StraightLine(w, prog, t, m - 1);
      assert prog[s.pc..s.pc + m][1..] == prog[s.pc + 1..s.pc + m];
    }
  }

  /** `n` consecutive `move-forward` blocks. */
  function Forwards(n: nat): (prog: Program)
    ensures |prog| == n && forall i :: 0 <= i < n ==> prog[i] == Forward
  {
    seq(n, _ => Forward)
  }

  /** `n` forward moves across cells that may all be entered, none holding a
      collectible, walk `n` cells straight ahead; the goal is reached if the
      last cell is the goal cell or the explicit goal. */
  lemma {:induction false} WalkStraight(w: World, b: Robot, n: nat)
    requires ClearAhead(w.grid, b.position, b.direction, n)
    ensures var r := RunSimple(w, Forwards(n), b);
      && r.position == Ahead(b.position, b.direction, n) && r.direction == b.direction
      && r.collectedItems == b.collectedItems
      && (b.reachedGoal ==> r.reachedGoal)
      && (n > 0 && (HasCell(w.grid, r.position, Goal) || AtGoalPosition(w, r.position)) ==> r.reachedGoal)
    decreases n
  {
    if n > 0 {
      var b1 := MoveRobotForward(w, b);
      assert Ahead(b.position, b.direction, 1) == NextPosition(b.position, b.direction);
      assert b1.position == NextPosition(b.position, b.direction);
      forall i | 1 <= i <= n - 1
        ensures IsValidPosition(w.grid, Ahead(b1.position, b1.direction, i)) && !HasCell(w.grid, Ahead(b1.position, b1.direction, i), Collectible)
      {
        assert Ahead(b.position, b.direction, i + 1) == Ahead(b1.position, b1.direction, i);
      }
      WalkStraight(w, b1, n - 1);
      assert Forwards(n)[1..] == Forwards(n - 1);
      if n == 1 {
        assert Forwards(0) == [];
      }
    }
  }

  /** One pass of a loop body followed by its `loop-end`, entered with the
      innermost frame at count `c`. */
  lemma LoopPass(w: World, prog: Program, s: State, i: nat, m: nat, c: nat)
    requires FramesOk(s.loopStack) && !s.halted && c < 3
    requires i + m + 1 < |prog| && prog[i + m + 1] == LoopEnd
    requires forall j :: i + 1 <= j <= i + m ==> IsSimple(prog[j])
    ensures var st := s.loopStack;
      var entry := s.(pc := i + 1, loopStack := st + [Frame(i + 1, 3, c)]);
      var out := RunSimple(w, prog[i + 1..i + m + 1], s.robot);
      Steps(w, prog, entry, m + 1) ==
        if c + 1 < 3 then s.(pc := i + 1, loopStack := st + [Frame(i + 1, 3, c + 1)], robot := out)
        else s.(pc := i + m + 2, robot := out)
  {
    var st := s.loopStack;
    var f := Frame(i + 1, 3, c);
    var entry := s.(pc := i + 1, loopStack := st + [f]);
    assert FramesOk(st + [f]);
    var out := RunSimple(w, prog[i + 1..i + m + 1], s.robot);
    StepsAdd(w, prog, entry, m, 1);
    StraightLine(w, prog, entry, m);
    var before := entry.(pc := i + 1 + m, robot := out);
    StepsOne(w, prog, before);
    LoopEndStep(w, prog, before);
    assert (st + [f])[..|st|] == st;
    assert (st + [f])[|st| := f.(count := c + 1)] == st + [Frame(i + 1, 3, c + 1)];
  }

  /** Block `i` opens a loop around the next `m` blocks, all simple, and
      block `i + m + 1` closes it. */
  predicate LoopAround(prog: Program, i: nat, m: nat) {
    && i + m + 1 < |prog| && prog[i] == LoopStart && prog[i + m + 1] == LoopEnd
    && forall j :: i + 1 <= j <= i + m ==> IsSimple(prog[j])
  }

  /** A `loop-start-3` whose body of `m` simple blocks is closed by a
      `loop-end` runs that body exactly three times in `3 * m + 4` steps,
      then continues after the `loop-end` with the loop stack as before. */
  lemma LoopRunsBodyThreeTimes(w: World, prog: Program, s: State, m: nat)
    requires FramesOk(s.loopStack) && !s.halted && LoopAround(prog, s.pc, m)
    ensures var body := prog[s.pc + 1..s.pc + m + 1];
      Steps(w, prog, s, 3 * m + 4) ==
        s.(pc := s.pc + m + 2, robot := RunSimple(w, body, RunSimple(w, body, RunSimple(w, body, s.robot))))
  {
    var i := s.pc;
    var body := prog[i + 1..i + m + 1];
    var st := s.loopStack;
    var r1 := RunSimple(w, body, s.robot);
    var r2 := RunSimple(w, body, r1);
    var r3 := RunSimple(w, body, r2);
    var e0 := s.(pc := i + 1, loopStack := st + [Frame(i + 1, 3, 0)]);
    var e1 := s.(pc := i + 1, loopStack := st + [Frame(i + 1, 3, 1)], robot := r1);
    var e2 := s.(pc := i + 1, loopStack := st + [Frame(i + 1, 3, 2)], robot := r2);
    var fin := s.(pc := i + m + 2, robot := r3);
    LoopEntry(w, prog, s);
    LoopPass(w, prog, s, i, m, 0);
    LoopPass(w, prog, s.(robot := r1), i, m, 1);
    LoopPass(w, prog, s.(robot := r2), i, m, 2);
    StepsThen(w, prog, e1, m + 1, e2, m + 1, fin);
    StepsThen(w, prog, e0, m + 1, e1, 2 * m + 2, fin);
    StepsThen(w, prog, s, 1, e0, 3 * m + 3, fin);
  }

  /** A `loop-start` pushes a fresh frame of three iterations and steps
      into the body. */
  lemma LoopEntry(w: World, prog: Program, s: State)
    requires !s.halted && s.pc < |prog| && prog[s.pc] == LoopStart
    ensures Steps(w, prog, s, 1) == s.(pc := s.pc + 1, loopStack := s.loopStack + [Frame(s.pc + 1, 3, 0)])
  {
    assert Step(w, prog, s) == s.(pc := s.pc + 1, loopStack := s.loopStack + [Frame(s.pc + 1, 3, 0)]);
  }

  /** Running `a` steps to `t` and then `b` more to `u` is running `a + b`
      steps to `u`. */
  lemma StepsThen(w: World, prog: Program, s: State, a: nat, t: State, b: nat, u: State)
    requires Steps(w, prog, s, a) == t && Steps(w, prog, t, b) == u
    ensures Steps(w, prog, s, a + b) == u
  {
    StepsAdd(w, prog, s, a, b);
  }

  // ---------------------------------------------------------------------
  // Whole runs

  /** A step only appends to the path and to the collected items, and never
      clears the goal flag. */
  lemma StepGrows(w: World, prog: Program, s: State)
    ensures Grows(s.robot, Step(w, prog, s).robot)
  {
  }

  lemma {:induction false} ExecuteGrows(w: World, prog: Program, s: State)
    requires Inv(w, s)
    ensures Grows(s.robot, Execute(w, prog, s).robot)
    decreases Measure(|prog|, s)
  {
    if !s.halted {
      var t := Step(w, prog, s);
      StepDecreasesMeasure(w, prog, s);
      StepGrows(w, prog, s);
      ExecuteGrows(w, prog, t);
    }
  }

  /** A run that has not stopped continues from the state after one step. */
  lemma ExecuteUnfold(w: World, prog: Program, s: State)
    requires Inv(w, s) && !s.halted
    ensures Inv(w, Step(w, prog, s)) && Execute(w, prog, s) == Execute(w, prog, Step(w, prog, s))
  {
  }

  /** A program without loops or `if-path` runs each block once, in order,
      and stops after the last one. */
  lemma RunOfSimpleProgram(w: World, prog: Program)
    requires WellFormedWorld(w)
    requires forall j :: 0 <= j < |prog| ==> IsSimple(prog[j])
    ensures var s := Init(w);
      Execute(w, prog, s) == s.(pc := |prog|, robot := RunSimple(w, prog, s.robot), halted := true)
  {
    var s := Init(w);
    StraightLine(w, prog, s, |prog|);
    assert prog[0..|prog|] == prog;
    RunEndsAfterSteps(w, prog, s, |prog|);
  }

  /** A program of `n` forward moves over clear cells walks straight ahead
      from the start and reaches a goal that lies at its end. */
  lemma RunOfStraightWalk(w: World, n: nat)
    requires WellFormedWorld(w)
    requires ClearAhead(w.grid, w.startPosition, w.startDirection, n)
    ensures var r := Execute(w, Forwards(n), Init(w)).robot;
      && r.position == Ahead(w.startPosition, w.startDirection, n) && r.direction == w.startDirection
      && r.collectedItems == []
      && (n > 0 && (HasCell(w.grid, r.position, Goal) || AtGoalPosition(w, r.position)) ==> r.reachedGoal)
  {
    RunOfSimpleProgram(w, Forwards(n));
    WalkStraight(w, Init(w).robot, n);
  }

  /** The cells `1..n` ahead of `p` may be entered and hold no collectible. */
  predicate ClearAhead(g: Grid, p: Position, d: Direction, n: nat) {
    forall i :: 1 <= i <= n ==> IsValidPosition(g, Ahead(p, d, i)) && !HasCell(g, Ahead(p, d, i), Collectible)
  }

  lemma {:induction false} AheadAdd(p: Position, d: Direction, n: nat, m: nat)
    ensures Ahead(Ahead(p, d, n), d, m) == Ahead(p, d, n + m)
    decreases n
  {
    if n > 0 {
      AheadAdd(NextPosition(p, d), d, n - 1, m);
    }
  }

  /** A clear stretch stays clear when entered part of the way along. */
  lemma ClearAheadFrom(g: Grid, p: Position, d: Direction, k: nat, n: nat)
    requires ClearAhead(g, p, d, k + n)
    ensures ClearAhead(g, Ahead(p, d, k), d, n)
  {
    forall i | 1 <= i <= n
      ensures IsValidPosition(g, Ahead(Ahead(p, d, k), d, i)) && !HasCell(g, Ahead(Ahead(p, d, k), d, i), Collectible)
    {
      AheadAdd(p, d, k, i);
    }
  }

  /** A loop of `n` forward moves over clear cells walks `3 * n` cells
      straight ahead and reaches a goal that lies at its end. */
  lemma RunOfLoopedWalk(w: World, n: nat)
    requires WellFormedWorld(w)
    requires ClearAhead(w.grid, w.startPosition, w.startDirection, 3 * n)
    ensures var r := Execute(w, [LoopStart] + Forwards(n) + [LoopEnd], Init(w)).robot;
      && r.position == Ahead(w.startPosition, w.startDirection, 3 * n) && r.direction == w.startDirection
      && r.collectedItems == []
      && (n > 0 && (HasCell(w.grid, r.position, Goal) || AtGoalPosition(w, r.position)) ==> r.reachedGoal)
  {
    RunOfSingleLoopProgram(w, Forwards(n));
    WalkThreeTimes(w, Init(w).robot, n);
  }

  /** Three straight walks of `n` cells, one after the other, walk `3 * n`. */
  lemma WalkThreeTimes(w: World, b: Robot, n: nat)
    requires ClearAhead(w.grid, b.position, b.direction, 3 * n)
    ensures var r := RunSimple(w, Forwards(n), RunSimple(w, Forwards(n), RunSimple(w, Forwards(n), b)));
      && r.position == Ahead(b.position, b.direction, 3 * n) && r.direction == b.direction
      && r.collectedItems == b.collectedItems
      && (b.reachedGoal ==> r.reachedGoal)
      && (n > 0 && (HasCell(w.grid, r.position, Goal) || AtGoalPosition(w, r.position)) ==> r.reachedGoal)
  {
    var p := b.position;
    var d := b.direction;
    ClearAheadFrom(w.grid, p, d, 0, 3 * n);
    WalkStraight(w, b, n);
    var b1 := RunSimple(w, Forwards(n), b);
    ClearAheadFrom(w.grid, p, d, n, 2 * n);
    WalkStraight(w, b1, n);
    var b2 := RunSimple(w, Forwards(n), b1);
    AheadAdd(p, d, n, n);
    ClearAheadFrom(w.grid, p, d, 2 * n, n);
    WalkStraight(w, b2, n);
    AheadAdd(p, d, 2 * n, n);
  }

  /** A program that is one `loop-start-3` ... `loop-end` around simple
      blocks runs the body three times and stops. */
  lemma RunOfSingleLoopProgram(w: World, body: seq<Block>)
    requires WellFormedWorld(w)
    requires forall j :: 0 <= j < |body| ==> IsSimple(body[j])
    ensures var s := Init(w);
      var prog := [LoopStart] + body + [LoopEnd];
      Execute(w, prog, s) ==
        s.(pc := |prog|, robot := RunSimple(w, body, RunSimple(w, body, RunSimple(w, body, s.robot))), halted := true)
  {
    LoopProgramRun(w, body, Init(w));
  }

  /** The same, from any fresh state. */
  lemma LoopProgramRun(w: World, body: seq<Block>, s: State)
    requires Inv(w, s) && !s.halted && s.pc == 0 && s.loopStack == []
    requires forall j :: 0 <= j < |body| ==> IsSimple(body[j])
    ensures var prog := [LoopStart] + body + [LoopEnd];
      Execute(w, prog, s) ==
        s.(pc := |prog|, robot := RunSimple(w, body, RunSimple(w, body, RunSimple(w, body, s.robot))), halted := true)
  {
    var r := RunSimple(w, body, RunSimple(w, body, RunSimple(w, body, s.robot)));
    LoopProgramSteps(w, body, s);
    StopAfter(w, [LoopStart] + body + [LoopEnd], s, 3 * |body| + 4, r);
  }

  /** The same program reaches its end after `3 * |body| + 4` steps: the
      loop entry, three passes of the body and its `loop-end`. */
  lemma LoopProgramSteps(w: World, body: seq<Block>, s: State)
    requires FramesOk(s.loopStack) && !s.halted && s.pc == 0
    requires forall j :: 0 <= j < |body| ==> IsSimple(body[j])
    ensures var prog := [LoopStart] + body + [LoopEnd];
      Steps(w, prog, s, 3 * |body| + 4) ==
        s.(pc := |prog|, robot := RunSimple(w, body, RunSimple(w, body, RunSimple(w, body, s.robot))))
  {
    LoopProgramShape(body);
    LoopRunsBodyThreeTimes(w, [LoopStart] + body + [LoopEnd], s, |body|);
  }

  /** A run whose first `k` steps reach the end of the program with the
      robot at `r` and no loop open stops there. */
  lemma StopAfter(w: World, prog: Program, s: State, k: nat, r: Robot)
    requires Inv(w, s) && s.loopStack == [] && Steps(w, prog, s, k) == s.(pc := |prog|, robot := r)
    ensures Execute(w, prog, s) == s.(pc := |prog|, robot := r, halted := true)
  {
    RunEndsAfterSteps(w, prog, s, k);
  }

  lemma LoopProgramShape(body: seq<Block>)
    requires forall j :: 0 <= j < |body| ==> IsSimple(body[j])
    ensures var prog := [LoopStart] + body + [LoopEnd];
      |prog| == |body| + 2 && prog[1..|body| + 1] == body && LoopAround(prog, 0, |body|)
  {
    var prog := [LoopStart] + body + [LoopEnd];
    assert prog[1..|body| + 1] == body;
  }

  /** When `k` steps lead past the end with no loop open, the run stops
      right there. */
  lemma RunEndsAfterSteps(w: World, prog: Program, s: State, k: nat)
    requires Inv(w, s)
    requires Steps(w, prog, s, k).pc >= |prog| && Steps(w, prog, s, k).loopStack == []
    ensures Execute(w, prog, s) == Steps(w, prog, s, k).(halted := true)
  {
    ExecuteAfterSteps(w, prog, s, k);
    StopAtEnd(w, prog, Steps(w, prog, s, k));
  }

  /** Past the end with no loop open, the run stops where it is. */
  lemma StopAtEnd(w: World, prog: Program, t: State)
    requires Inv(w, t) && t.pc >= |prog| && t.loopStack == []
    ensures Execute(w, prog, t) == t.(halted := true)
  {
    if !t.halted {
      ExecuteUnfold(w, prog, t);
    }
  }

  /** A run never leaves the grid or enters a wall, records only cells that
      hold a collectible, only ever appends to the collected list and the
      path, and keeps the goal flag once set. */
  lemma RunStaysSafe(w: World, prog: Program)
    requires WellFormedWorld(w)
    ensures var r := Execute(w, prog, Init(w)).robot;
      && IsValidPosition(w.grid, r.position)
      && (forall i :: 0 <= i < |r.collectedItems| ==> HasCell(w.grid, r.collectedItems[i], Collectible))
      && r.executionPath[0] == PathEntry(w.startPosition.x, w.startPosition.y, w.startDirection)
      && (w.goalPosition == Some(w.startPosition) ==> r.reachedGoal)
  {
    ExecuteGrows(w, prog, Init(w));
  }
}
