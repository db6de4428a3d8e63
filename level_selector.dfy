/** The row of level buttons: which levels are locked, how each button is
    classed, the difficulty dot and what a click does. */
module LevelSelector {
  import opened RobotLevels

  /** The four button states, tested in the order current, locked,
      completed, available. */
  datatype Status = Current | Locked | Completed | Available

  /** Only sequential progress: a level more than one past the open one is
      locked. */
  predicate IsLocked(index: nat, currentLevel: nat) {
    index > currentLevel + 1
  }

  function StatusOf(index: nat, currentLevel: nat): (s: Status)
    ensures s == Current <==> index == currentLevel
    ensures s == Locked <==> index > currentLevel + 1
    ensures s == Completed <==> index < currentLevel
    ensures s == Available <==> index == currentLevel + 1
  {
    if index == currentLevel then Current
    else if IsLocked(index, currentLevel) then Locked
    else if index < currentLevel then Completed
    else Available
  }

  /** The style classes of each state. */
  function StatusClasses(s: Status): string {
    match s
    case Current => "bg-blue-600 text-white border-4 border-blue-300"
    case Locked => "bg-gray-300 text-gray-500 cursor-not-allowed opacity-50"
    case Completed => "bg-green-100 text-green-800 border-2 border-green-300"
    case Available => "bg-blue-100 text-blue-800 border-2 border-blue-300 hover:bg-blue-200"
  }

  /** The colour of the difficulty dot; every difficulty other than easy and
      medium shows red. */
  function DifficultyColor(d: Difficulty): string {
    if d == Easy then "bg-green-500" else if d == Medium then "bg-yellow-500" else "bg-red-500"
  }

  /** The number on a button. */
  function ButtonLabel(index: nat): nat {
    index + 1
  }

  /** The open level after a click on button `index`: a locked button does
      nothing, any other opens its level. */
  function Click(index: nat, currentLevel: nat): (next: nat)
    ensures IsLocked(index, currentLevel) <==> next == currentLevel && index != currentLevel
    ensures !IsLocked(index, currentLevel) ==> next == index
    ensures next <= currentLevel + 1
  {
    if IsLocked(index, currentLevel) then currentLevel else index
  }

  /** The open level after clicking the buttons in `clicks` one after the
      other. */
  function Clicks(currentLevel: nat, clicks: seq<nat>): nat
    decreases clicks
  {
    if clicks == [] then currentLevel else Clicks(Click(clicks[0], currentLevel), clicks[1..])
  }

  /** Each click opens at most the next level, so reaching level `k` from the
      first takes at least `k` clicks. */
  lemma {:induction false} ClicksAdvanceOneAtATime(currentLevel: nat, clicks: seq<nat>)
    ensures Clicks(currentLevel, clicks) <= currentLevel + |clicks|
    decreases clicks
  {
    if clicks != [] {
      ClicksAdvanceOneAtATime(Click(clicks[0], currentLevel), clicks[1..]);
    }
  }

  /** Clicking the buttons 1, 2, ... in turn opens every level in order. */
  lemma {:induction false} ClickingInOrderOpensEveryLevel(k: nat)
    ensures Clicks(0, seq(k, i => i + 1)) == k
  {
    if k > 0 {
      var s := seq(k, i => i + 1);
      ClickingInOrderOpensEveryLevel(k - 1);
      assert s == seq(k - 1, i => i + 1) + [k];
      ClicksAppend(0, seq(k - 1, i => i + 1), [k]);
    }
  }

  lemma {:induction false} ClicksAppend(currentLevel: nat, a: seq<nat>, b: seq<nat>)
    ensures Clicks(currentLevel, a + b) == Clicks(Clicks(currentLevel, a), b)
    decreases a
  {
    if a != [] {
      assert (a + b)[1..] == a[1..] + b;
      ClicksAppend(Click(a[0], currentLevel), a[1..], b);
    } else {
      assert a + b == b;
    }
  }

  /** The three difficulties get three different colours. */
  lemma DifficultyColorsDiffer(a: Difficulty, b: Difficulty)
    ensures DifficultyColor(a) == DifficultyColor(b) <==> a == b
  {
    if a != b {
      assert DifficultyColor(a)[3] != DifficultyColor(b)[3];
    }
  }

  /** The four states get four different looks. */
  lemma StatusClassesDiffer(a: Status, b: Status)
    ensures StatusClasses(a) == StatusClasses(b) <==> a == b
  {
    if a != b {
      ClassesLength(a);
      ClassesLength(b);
    }
  }

  /** The class lists have four different lengths. */
  lemma ClassesLength(s: Status)
    ensures |StatusClasses(s)| == match s case Current => 47 case Locked => 55 case Completed => 53 case Available => 68
  {
    match s
    case Current =>
    case Locked =>
    case Completed =>
    case Available =>
  }

  /** The buttons are numbered with the level ids. */
  lemma LabelsAreLevelIds()
    ensures forall k :: 0 <= k < |LevelTable()| ==> ButtonLabel(k) == LevelTable()[k].id
  {
    TableIdsAndDifficulties();
  }
}
