/** The block-coding page's canvas: a character that steps 50 pixels right
    or up for each recognised block, one block per interval tick. */
module CodePlayground {
  import BlockEditor

  /** Where every run starts, and how far one step goes. */
  const StartX := 50
  const StartY := 250
  const StepSize := 50

  /** How many of the first `n` blocks are `token`. */
  function Occurrences(blocks: seq<string>, token: string, n: nat): nat
    requires n <= |blocks|
  {
    if n == 0 then 0 else Occurrences(blocks, token, n - 1) + (if blocks[n - 1] == token then 1 else 0)
  }

  /** The animation of a run. Each pass of the loop is one tick of the
      interval: a tick past the last block clears the interval, any other
      moves the character for one block. Blocks other than `move-right` and
      `move-up` leave it in place. When not running, the character stays at
      the start and no tick happens. */
  method Animate(codeBlocks: seq<string>, isRunning: bool) returns (characterX: int, characterY: int, ticks: nat)
    ensures isRunning ==> characterX == StartX + StepSize * Occurrences(codeBlocks, "move-right", |codeBlocks|)
    ensures isRunning ==> characterY == StartY - StepSize * Occurrences(codeBlocks, "move-up", |codeBlocks|)
    ensures isRunning ==> ticks == |codeBlocks| + 1
    ensures !isRunning ==> ticks == 0 && characterX == StartX && characterY == StartY
  {
    characterX := StartX;
    characterY := StartY;
    ticks := 0;
    if !isRunning {
      return;
    }
    var stepIndex := 0;
    var cleared := false;
    while !cleared
      invariant stepIndex <= |codeBlocks|
      invariant ticks == stepIndex + (if cleared then 1 else 0)
      invariant cleared ==> stepIndex == |codeBlocks|
      invariant characterX == StartX + StepSize * Occurrences(codeBlocks, "move-right", stepIndex)
      invariant characterY == StartY - StepSize * Occurrences(codeBlocks, "move-up", stepIndex)
      decreases |codeBlocks| - stepIndex, if cleared then 0 else 1
    {
      ticks := ticks + 1;
      if stepIndex >= |codeBlocks| {
        cleared := true;
      } else {
        var block := codeBlocks[stepIndex];
        if block == "move-right" {
          characterX := characterX + StepSize;
        } else if block == "move-up" {
          characterY := characterY - StepSize;
        }
        stepIndex := stepIndex + 1;
      }
    }
  }

  /** A token that does not occur is counted zero times. */
  lemma {:induction false} AbsentTokenCountsZero(blocks: seq<string>, token: string, n: nat)
    requires n <= |blocks|
    requires forall i :: 0 <= i < n ==> blocks[i] != token
    ensures Occurrences(blocks, token, n) == 0
  {
    if n > 0 {
      AbsentTokenCountsZero(blocks, token, n - 1);
    }
  }

  /** The block editor's own tokens are none of the two this canvas moves
      on, so a program built from the editor's default palette leaves the
      character at its start. */
  lemma EditorTokensNeverMove(blocks: seq<string>)
    requires forall i :: 0 <= i < |blocks| ==> blocks[i] in BlockEditor.DefaultAvailable()
    ensures Occurrences(blocks, "move-right", |blocks|) == 0
    ensures Occurrences(blocks, "move-up", |blocks|) == 0
  {
    DefaultTokensDoNotMove();
    AbsentTokenCountsZero(blocks, "move-right", |blocks|);
    AbsentTokenCountsZero(blocks, "move-up", |blocks|);
  }

  lemma DefaultTokensDoNotMove()
    ensures "move-right" !in BlockEditor.DefaultAvailable() && "move-up" !in BlockEditor.DefaultAvailable()
  {
  }
}
