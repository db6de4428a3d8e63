/** The robot mission page: which level is open, the placed blocks, the run
    button with its delayed verdict, and the moves between levels. */
module RoboPage {
  import opened Optional
  import opened RobotWorld
  import opened RobotInterpreter
  import opened BlockIds
  import opened RobotLevels

  /** The notifications the page raises. */
  datatype Toast = MissionAccomplished | MissedGoal | NewMission(title: string) | AllLevelsDone

  /** What the delayed verdict of a run closes over when the run starts,
      and how long its timer waits. */
  datatype PendingRun = PendingRun(level: Level, blocks: seq<string>, collected: seq<Position>, delay: nat)

  /** The wait before the verdict: `level.executionTime || 3000`, a zero
      time falling back to three seconds. */
  function Delay(l: Level): (ms: nat)
    ensures ms > 0
    ensures l.executionTime > 0 ==> ms == l.executionTime
    ensures l.executionTime == 0 ==> ms == 3000
  {
    if l.executionTime == 0 then 3000 else l.executionTime
  }

  /** The robot ends on the level's explicit goal; the same test the
      interpreter makes after every move. */
  predicate IsAtGoal(l: Level, p: Position) {
    AtGoalPosition(WorldOf(l), p)
  }

  /** How many collectible cells the level's grid holds. */
  function RequiredCollectibles(l: Level): nat {
    CountCells(l.grid, Collectible)
  }

  predicate AllCollected(l: Level, collected: nat) {
    collected >= RequiredCollectibles(l)
  }

  /** Every required block id occurs among the placed blocks. */
  predicate RequiredBlocksUsed(l: Level, blocks: seq<string>) {
    forall i :: 0 <= i < |l.requiredBlocks| ==> l.requiredBlocks[i] in blocks
  }

  /** What the notification and the sound follow. */
  predicate IsSuccessful(l: Level, p: Position, blocks: seq<string>) {
    IsAtGoal(l, p) && RequiredBlocksUsed(l, blocks)
  }

  /** The stored verdict given a number of collected items: level 4 asks
      for the goal and every collectible, the others for the goal and every
      required block. Given the items the robot really collected, this is
      the verdict the page evidently intends. */
  function Verdict(l: Level, p: Position, collected: nat, blocks: seq<string>): bool {
    if l.id == 4 then IsAtGoal(l, p) && AllCollected(l, collected) else IsSuccessful(l, p, blocks)
  }

  /** The verdict as the page computes it: it counts the page's own
      `collectedItems`, which nothing but resets ever assigns, so the count
      is always zero (`Page.CompleteRun`). */
  function VerdictAsWritten(l: Level, p: Position, blocks: seq<string>): bool {
    Verdict(l, p, 0, blocks)
  }

  /** The page state, one field per `useState`. `pending` is the verdict
      timer started by a run, with the values its callback closes over. */
  class Page {
    /** The level table the page imports. */
    const levels: seq<Level>
    var currentLevel: nat
    var codeBlocks: seq<string>
    var isRunning: bool
    var success: Option<bool>
    var robotPosition: Position
    var collectedItems: seq<Position>
    var pending: Option<PendingRun>

    /** The open level exists, and no collected item is ever recorded. */
    ghost predicate Valid()
      reads this
    {
      currentLevel < |levels| && collectedItems == [] &&
      (pending.Some? ==> pending.value.collected == [])
    }

    function CurrentLevel(): Level
      reads this
      requires Valid()
    {
      levels[currentLevel]
    }

    /** The first render, with the first level open; the page is given
        `Levels()`. */
    constructor(table: seq<Level>)
      requires |table| > 0
      ensures Valid() && levels == table
      ensures currentLevel == 0 && codeBlocks == [] && !isRunning && success == None
      ensures robotPosition == table[0].startPosition && collectedItems == [] && pending == None
    {
      levels := table;
      currentLevel := 0;
      codeBlocks := [];
      isRunning := false;
      success := None;
      robotPosition := table[0].startPosition;
      collectedItems := [];
      pending := None;
    }

    /** Opening level `k` (the selector's `setCurrentLevel`) and the effect
        keyed on the open level, which then resets the blocks, the verdict,
        the robot and its items. Choosing the level already open changes no
        key, so the effect does not run and nothing changes. */
    method SelectLevel(k: nat)
      requires Valid() && k < |levels|
      modifies this
      ensures Valid() && currentLevel == k
      ensures k != old(currentLevel) ==>
        && codeBlocks == [] && success == None
        && robotPosition == levels[k].startPosition && collectedItems == []
      ensures k == old(currentLevel) ==>
        && codeBlocks == old(codeBlocks) && success == old(success)
        && robotPosition == old(robotPosition) && collectedItems == old(collectedItems)
      ensures isRunning == old(isRunning) && pending == old(pending)
    {
      if k != currentLevel {
        currentLevel := k;
        codeBlocks := [];
        success := None;
        robotPosition := levels[k].startPosition;
        collectedItems := [];
      }
    }

    /** The editor hands back a new list of placed blocks. */
    method UpdateBlocks(blocks: seq<string>)
      requires Valid()
      modifies this
      ensures Valid()
      ensures codeBlocks == blocks
      ensures currentLevel == old(currentLevel) && isRunning == old(isRunning) && success == old(success)
      ensures robotPosition == old(robotPosition) && collectedItems == old(collectedItems) && pending == old(pending)
    {
      codeBlocks := blocks;
    }

    /** Whether the run and clear buttons accept a click. */
    predicate ButtonsEnabled()
      reads this
    {
      !isRunning && |codeBlocks| > 0
    }

    /** Whether the next-mission button is shown. */
    predicate NextShown()
      reads this
    {
      success == Some(true)
    }

    /** `handleRunCode`: mark the run, clear the verdict, put the robot back
        and start the verdict timer over the current level and blocks. */
    method HandleRunCode()
      requires Valid()
      modifies this
      ensures Valid()
      ensures isRunning && success == None
      ensures robotPosition == CurrentLevel().startPosition && collectedItems == []
      ensures pending == Some(PendingRun(CurrentLevel(), codeBlocks, old(collectedItems), Delay(CurrentLevel())))
      ensures currentLevel == old(currentLevel) && codeBlocks == old(codeBlocks)
    {
      isRunning := true;
      success := None;
      robotPosition := levels[currentLevel].startPosition;
      pending := Some(PendingRun(levels[currentLevel], codeBlocks, collectedItems, Delay(levels[currentLevel])));
      collectedItems := [];
    }

    /** The verdict timer fires. `finalPosition` is what the playground
        shows as the robot's cell at that moment. The verdict counts the
        item list the run closed over, which is always empty, so a level
        with collectibles is never stored as won and its next-mission
        button never shows; the notification follows the goal and the
        required blocks. */
    method CompleteRun(finalPosition: Position) returns (toast: Toast)
      requires Valid() && pending.Some?
      modifies this
      ensures Valid()
      ensures var run := old(pending.value);
        && success == Some(VerdictAsWritten(run.level, finalPosition, run.blocks))
        && toast == (if IsSuccessful(run.level, finalPosition, run.blocks) then MissionAccomplished else MissedGoal)
        && (run.level.id == 4 && RequiredCollectibles(run.level) > 0 ==> !NextShown())
      ensures !isRunning && pending == None
      ensures currentLevel == old(currentLevel) && codeBlocks == old(codeBlocks)
      ensures robotPosition == old(robotPosition) && collectedItems == old(collectedItems)
    {
      var run := pending.value;
      success := Some(Verdict(run.level, finalPosition, |run.collected|, run.blocks));
      toast := if IsSuccessful(run.level, finalPosition, run.blocks) then MissionAccomplished else MissedGoal;
      isRunning := false;
      pending := None;
    }

    /** `resetCode`: drop the placed blocks and the verdict. */
    method ResetCode()
      requires Valid()
      modifies this
      ensures Valid()
      ensures codeBlocks == [] && success == None
      ensures currentLevel == old(currentLevel) && isRunning == old(isRunning)
      ensures robotPosition == old(robotPosition) && collectedItems == old(collectedItems) && pending == old(pending)
    {
      codeBlocks := [];
      success := None;
    }

    /** `nextLevel`: open the following level with a fresh start and name it,
        or congratulate on the last one. */
    method NextLevel() returns (toast: Toast)
      requires Valid()
      modifies this
      ensures Valid()
      ensures old(currentLevel) < |levels| - 1 ==>
        && currentLevel == old(currentLevel) + 1
        && codeBlocks == [] && success == None
        && robotPosition == levels[currentLevel].startPosition
        && toast == NewMission(levels[currentLevel].title)
      ensures old(currentLevel) == |levels| - 1 ==>
        && currentLevel == old(currentLevel) && codeBlocks == old(codeBlocks) && success == old(success)
        && robotPosition == old(robotPosition) && toast == AllLevelsDone
      ensures collectedItems == [] && isRunning == old(isRunning) && pending == old(pending)
    {
      if currentLevel < |levels| - 1 {
        var next := currentLevel + 1;
        SelectLevel(next);
        ResetCode();
        toast := NewMission(levels[next].title);
      } else {
        toast := AllLevelsDone;
      }
    }
  }

  // ---------------------------------------------------------------------
  // The verdict timer

  /** No level falls back to three seconds: each waits its own time, and
      every later level waits longer than every earlier one. */
  lemma LevelDelays()
    ensures forall k :: 0 <= k < |Levels()| ==> Delay(Levels()[k]) == Levels()[k].executionTime
    ensures forall i, j :: 0 <= i < j < |Levels()| ==> Delay(Levels()[i]) < Delay(Levels()[j])
  {
    var t := Levels();
    assert [t[0].executionTime, t[1].executionTime, t[2].executionTime, t[3].executionTime, t[4].executionTime]
      == [10000, 12000, 15000, 20000, 30000];
  }

  // ---------------------------------------------------------------------
  // The verdict of the collecting level

  /** The corrected fourth level as the page opens it. */
  lemma FourthLevel()
    ensures Levels()[3].id == 4 && Levels()[3].goalPosition == Some(Position(4, 2))
    ensures Levels()[3].requiredBlocks == [MoveForwardId, CollectId]
    ensures RequiredCollectibles(Levels()[3]) == 3
  {
    assert Levels()[3].grid == CorrectedLevel4Grid();
    CorrectedLevel4Collectibles();
  }

  /** With the evidently intended count, level 4 is won exactly at its goal
      (4, 2) after at least three pickups, whatever blocks were used. A
      pickup is counted each time, so one crystal picked up three times
      also meets this. */
  lemma Level4Verdict(p: Position, collected: nat, blocks: seq<string>)
    ensures Verdict(Levels()[3], p, collected, blocks) <==> p == Position(4, 2) && collected >= 3
  {
    FourthLevel();
  }

  /** As the page computes it, the verdict of level 4 is never a success:
      it compares an empty list against three crystals. */
  lemma Level4AsWrittenNeverSucceeds(p: Position, blocks: seq<string>)
    ensures !VerdictAsWritten(Levels()[3], p, blocks)
    ensures !VerdictAsWritten(LevelTable()[3], p, blocks)
  {
    FourthLevel();
    assert LevelTable()[3].grid == Level4Grid();
    Level4Collectibles();
  }

  /** On every other level the crystal count plays no part, so the page's
      own verdict and the corrected one agree and follow the notification. */
  lemma OtherLevelsIgnoreCollected(k: nat, p: Position, collected: nat, blocks: seq<string>)
    requires k < |Levels()| && k != 3
    ensures Verdict(Levels()[k], p, collected, blocks) == VerdictAsWritten(Levels()[k], p, blocks)
    ensures Verdict(Levels()[k], p, collected, blocks) == IsSuccessful(Levels()[k], p, blocks)
  {
    assert Levels()[k].id == LevelTable()[k].id;
    TableIdsAndDifficulties();
  }

  /** On level 4 the notification and the stored verdict can disagree both
      ways: at the goal with both required blocks but no crystal the page
      announces success and stores a failure; with the crystals but no
      `collect` block it stores a success and announces a failure. */
  lemma Level4NotificationDisagrees()
    ensures IsSuccessful(Levels()[3], Position(4, 2), [MoveForwardId, CollectId])
    ensures !Verdict(Levels()[3], Position(4, 2), 0, [MoveForwardId, CollectId])
    ensures !IsSuccessful(Levels()[3], Position(4, 2), [MoveForwardId])
    ensures Verdict(Levels()[3], Position(4, 2), 3, [MoveForwardId])
  {
    FourthLevel();
    var l := Levels()[3];
    assert l.requiredBlocks[0] in [MoveForwardId, CollectId] && l.requiredBlocks[1] in [MoveForwardId, CollectId];
    assert l.requiredBlocks[1] !in [MoveForwardId];
  }
  // ---------------------------------------------------------------------
  // Verdicts of whole runs

  /** As built, no program wins level 3: wherever the run ends, it is not at
      the goal, so both verdicts and the notification say failure. */
  lemma Level3LostAsBuilt(w: World, blocks: seq<string>, collected: nat)
    requires w == WorldOf(LevelTable()[2])
    ensures var p := Execute(w, Parse(blocks), Init(w)).robot.position;
      !Verdict(LevelTable()[2], p, collected, blocks) && !IsSuccessful(LevelTable()[2], p, blocks)
  {
    Level3Unreachable(w, Parse(blocks));
  }

  /** In the corrected table the optimal four blocks win level 3: the run
      ends on the goal and uses both required blocks. */
  lemma Level3WonWhenCorrected(w: World, blocks: seq<string>, prog: Program)
    requires w == WorldOf(Levels()[2])
    requires blocks == [LoopStartId, MoveForwardId, MoveForwardId, LoopEndId] && prog == Parse(blocks)
    ensures var p := Execute(w, prog, Init(w)).robot.position;
      Verdict(Levels()[2], p, 0, blocks) && IsSuccessful(Levels()[2], p, blocks)
  {
    assert prog == [LoopStart, Forward, Forward, LoopEnd];
    CorrectedLevel3Solution(w, prog);
    Level3Verdict(blocks, Execute(w, prog, Init(w)).robot.position);
  }

  /** Ending on (6, 3) with the required blocks wins corrected level 3. */
  lemma Level3Verdict(blocks: seq<string>, p: Position)
    requires blocks == [LoopStartId, MoveForwardId, MoveForwardId, LoopEndId] && p == Position(6, 3)
    ensures Verdict(Levels()[2], p, 0, blocks) && IsSuccessful(Levels()[2], p, blocks)
  {
    ThirdLevel();
    assert blocks[1] == Levels()[2].requiredBlocks[0] && blocks[0] == Levels()[2].requiredBlocks[1];
  }

  /** What the page reads of the third level. */
  lemma ThirdLevel()
    ensures Levels()[2].id == 3 && Levels()[2].requiredBlocks == [MoveForwardId, LoopStartId]
  {
  }
}
