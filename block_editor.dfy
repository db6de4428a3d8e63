/** The block-program editor: the palette of block kinds, the list edits the
    editor hands back to its owner, the style lookup and the indentation of
    each placed block. */
module BlockEditor {
  import opened Optional
  import opened BlockIds

  /** The icon a palette entry shows; the drawing itself is not modelled. */
  datatype Icon = ArrowRight | RotateCcw | RotateCw | Circle | Repeat | Split

  /** One entry of `allBlocks`; `isEndBlock` is set only on `loop-end` and
      reads as absent (false) elsewhere. */
  datatype PaletteEntry = PaletteEntry(id: string, caption: string, color: string, icon: Option<Icon>, isEndBlock: bool)

  /** The seven block kinds, in the order the editor lists them. */
  function AllBlocks(): seq<PaletteEntry> {
    [PaletteEntry(MoveForwardId, "Andar", "bg-blue-500", Some(ArrowRight), false),
     PaletteEntry(TurnLeftId, "Virar à Esquerda", "bg-green-500", Some(RotateCcw), false),
     PaletteEntry(TurnRightId, "Virar à Direita", "bg-green-500", Some(RotateCw), false),
     PaletteEntry(CollectId, "Coletar", "bg-purple-500", Some(Circle), false),
     PaletteEntry(LoopStartId, "Repetir 3x", "bg-red-500", Some(Repeat), false),
     PaletteEntry(LoopEndId, "Fim Repetição", "bg-red-500", None, true),
     PaletteEntry(IfPathId, "Se Caminho Livre", "bg-yellow-500", Some(Split), false)]
  }

  /** `availableBlocks` when the owner passes none. */
  function DefaultAvailable(): seq<string> {
    [MoveForwardId, TurnLeftId, TurnRightId, CollectId, LoopStartId, LoopEndId, IfPathId]
  }

  // ---------------------------------------------------------------------
  // The palette

  /** `entries.filter(block => available.includes(block.id))`. */
  function Filter(entries: seq<PaletteEntry>, available: seq<string>): (r: seq<PaletteEntry>)
    ensures |r| <= |entries|
  {
    if entries == [] then []
    else (if entries[0].id in available then [entries[0]] else []) + Filter(entries[1..], available)
  }

  function FilteredBlocks(available: seq<string>): seq<PaletteEntry> {
    Filter(AllBlocks(), available)
  }

  /** An entry is kept exactly when it is listed and its id is available. */
  lemma {:induction false} FilterKeeps(entries: seq<PaletteEntry>, available: seq<string>, e: PaletteEntry)
    ensures e in Filter(entries, available) <==> e in entries && e.id in available
  {
    if entries != [] {
      FilterKeeps(entries[1..], available, e);
      assert entries == [entries[0]] + entries[1..];
    }
  }

  /** Filtering keeps the order: the filter of two lists one after the other
      is the filter of the first followed by the filter of the second. */
  lemma {:induction false} FilterAppend(a: seq<PaletteEntry>, b: seq<PaletteEntry>, available: seq<string>)
    ensures Filter(a + b, available) == Filter(a, available) + Filter(b, available)
  {
    if a == [] {
      assert a + b == b;
    } else {
      var head := if a[0].id in available then [a[0]] else [];
      calc {
        Filter(a + b, available);
        { assert (a + b)[0] == a[0]; assert (a + b)[1..] == a[1..] + b; }
        head + Filter(a[1..] + b, available);
        { FilterAppend(a[1..], b, available); }
        head + (Filter(a[1..], available) + Filter(b, available));
      }
    }
  }

  /** With every id available, nothing is filtered out. */
  lemma {:induction false} FilterAll(entries: seq<PaletteEntry>, available: seq<string>)
    requires forall e :: e in entries ==> e.id in available
    ensures Filter(entries, available) == entries
  {
    if entries != [] {
      FilterAll(entries[1..], available);
    }
  }

  /** The default palette offers all seven block kinds, in order. */
  lemma DefaultPaletteIsEverything()
    ensures FilteredBlocks(DefaultAvailable()) == AllBlocks()
  {
    FilterAll(AllBlocks(), DefaultAvailable());
  }

  // ---------------------------------------------------------------------
  // Edits of the placed blocks

  /** `[...blocks, blockId]`. */
  function AddBlock(blocks: seq<string>, blockId: string): (r: seq<string>)
    ensures |r| == |blocks| + 1 && r[..|blocks|] == blocks && r[|blocks|] == blockId
  {
    blocks + [blockId]
  }

  /** `clearBlocks` hands back the empty list. */
  function ClearBlocks(): (r: seq<string>)
    ensures |r| == 0
  {
    []
  }

  /** Where `splice(index, 1)` starts on a list of length `len`: a negative
      index counts from the end, and the start is clamped to `0..len`. */
  function SpliceStart(index: int, len: nat): (s: nat)
    ensures s <= len
    ensures 0 <= index < len ==> s == index
  {
    if index < 0 then (if len + index < 0 then 0 else len + index)
    else if index > len then len
    else index
  }

  /** The list after `splice(index, 1)`: the element at the start goes, when
      there is one. */
  function Removed(blocks: seq<string>, index: int): seq<string> {
    var s := SpliceStart(index, |blocks|);
    if s < |blocks| then blocks[..s] + blocks[s + 1..] else blocks
  }

  /** `removeBlock`: copy the list, then splice one element out of the copy
      in place by moving every later element one slot down. */
  method RemoveBlock(blocks: seq<string>, index: int) returns (newBlocks: seq<string>)
    ensures newBlocks == Removed(blocks, index)
  {
    var a := new string[|blocks|](i requires 0 <= i < |blocks| => blocks[i]);
    var s := SpliceStart(index, |blocks|);
    if s == a.Length {
      return a[..];
    }
    var j := s;
    while j < a.Length - 1
      invariant s <= j <= a.Length - 1
      invariant forall k :: 0 <= k < s ==> a[k] == blocks[k]
      invariant forall k :: s <= k < j ==> a[k] == blocks[k + 1]
      invariant forall k :: j <= k < a.Length ==> a[k] == blocks[k]
      modifies a
    {
      a[j] := a[j + 1];
      j := j + 1;
    }
    newBlocks := a[..a.Length - 1];
    ShiftedIsSplice(blocks, s, newBlocks);
  }

  /** A list one shorter that agrees with `blocks` before `s` and with the
      next element from `s` on is `blocks` without its element at `s`. */
  lemma ShiftedIsSplice(blocks: seq<string>, s: int, r: seq<string>)
    requires 0 <= s < |blocks| && |r| == |blocks| - 1
    requires forall k :: 0 <= k < s ==> r[k] == blocks[k]
    requires forall k :: s <= k < |r| ==> r[k] == blocks[k + 1]
    ensures r == blocks[..s] + blocks[s + 1..]
  { }

  /** Removing a valid index drops exactly that element and keeps the others
      in order. */
  lemma RemovedDropsOne(blocks: seq<string>, i: int)
    requires 0 <= i < |blocks|
    ensures var r := Removed(blocks, i);
      && |r| == |blocks| - 1
      && (forall j :: 0 <= j < i ==> r[j] == blocks[j])
      && (forall j :: i <= j < |r| ==> r[j] == blocks[j + 1])
      && multiset(r) + multiset{blocks[i]} == multiset(blocks)
  {
    assert blocks == blocks[..i] + [blocks[i]] + blocks[i + 1..];
  }

  /** An index past the end removes nothing. */
  lemma RemovedPastEnd(blocks: seq<string>, i: int)
    requires i >= |blocks|
    ensures Removed(blocks, i) == blocks
  {
  }

  /** Removing the block just added gives the list back. */
  lemma RemoveUndoesAdd(blocks: seq<string>, blockId: string)
    ensures Removed(AddBlock(blocks, blockId), |blocks|) == blocks
  {
  }

  // ---------------------------------------------------------------------
  // Styles

  datatype BlockStyle = BlockStyle(color: string, caption: string, icon: Option<Icon>, isEndBlock: bool)

  /** `allBlocks.find(b => b.id === blockId)`: the first entry with the id. */
  function Find(entries: seq<PaletteEntry>, blockId: string): (r: Option<PaletteEntry>)
    ensures r.Some? ==> r.value in entries && r.value.id == blockId
  {
    if entries == [] then None
    else if entries[0].id == blockId then Some(entries[0])
    else Find(entries[1..], blockId)
  }

  /** Nothing is found exactly when no entry carries the id. */
  lemma {:induction false} FindNone(entries: seq<PaletteEntry>, blockId: string)
    ensures Find(entries, blockId).None? <==> forall i :: 0 <= i < |entries| ==> entries[i].id != blockId
  {
    if entries != [] {
      FindNone(entries[1..], blockId);
      assert forall i :: 1 <= i < |entries| ==> entries[i] == entries[1..][i - 1];
    }
  }

  /** With distinct ids, looking up an entry's id finds that entry. */
  lemma {:induction false} FindDistinct(entries: seq<PaletteEntry>, i: nat)
    requires i < |entries|
    requires DistinctIds(entries)
    ensures Find(entries, entries[i].id) == Some(entries[i])
  {
    if i > 0 {
      assert entries[0].id != entries[i].id;
      assert entries[1..][i - 1] == entries[i];
      FindDistinct(entries[1..], i - 1);
    }
  }

  predicate DistinctIds(entries: seq<PaletteEntry>) {
    forall i, j :: 0 <= i < j < |entries| ==> entries[i].id != entries[j].id
  }

  /** The grey "Bloco" style without an icon for ids outside the palette. */
  function FallbackStyle(): BlockStyle {
    BlockStyle("bg-gray-500", "Bloco", None, false)
  }

  function StyleOf(e: PaletteEntry): BlockStyle {
    BlockStyle(e.color, e.caption, e.icon, e.isEndBlock)
  }

  function GetBlockStyle(blockId: string): BlockStyle {
    match Find(AllBlocks(), blockId)
    case None => FallbackStyle()
    case Some(e) => StyleOf(e)
  }

  /** No two palette entries share an id. */
  lemma PaletteIdsAreDistinct()
    ensures DistinctIds(AllBlocks())
  {
    var ids := seq(|AllBlocks()|, i requires 0 <= i < |AllBlocks()| => AllBlocks()[i].id);
    assert ids == DefaultAvailable();
    assert forall i :: 0 <= i < 7 ==> |ids[i]| > 0 && ids[i][|ids[i]| - 1] == ['d', 't', 't', 't', '3', 'd', 'h'][i];
  }

  /** Every palette entry is styled as itself, and any other id gets the
      fallback. */
  lemma BlockStyles(blockId: string)
    ensures forall i :: 0 <= i < |AllBlocks()| ==> GetBlockStyle(AllBlocks()[i].id) == StyleOf(AllBlocks()[i])
    ensures (forall i :: 0 <= i < |AllBlocks()| ==> AllBlocks()[i].id != blockId) <==> GetBlockStyle(blockId) == FallbackStyle()
  {
    PaletteIdsAreDistinct();
    forall i | 0 <= i < |AllBlocks()|
      ensures GetBlockStyle(AllBlocks()[i].id) == StyleOf(AllBlocks()[i])
    {
      FindDistinct(AllBlocks(), i);
    }
    FindNone(AllBlocks(), blockId);
  }

  // ---------------------------------------------------------------------
  // Indentation

  predicate IsOpener(blockId: string) {
    blockId == LoopStartId || blockId == IfPathId
  }

  /** The indentation after the first `n` blocks: an opener adds one level,
      `loop-end` removes one but never goes below zero, anything else keeps it. */
  function Indent(blocks: seq<string>, n: nat): nat
    requires n <= |blocks|
  {
    if n == 0 then 0
    else
      var level := Indent(blocks, n - 1);
      if IsOpener(blocks[n - 1]) then level + 1
      else if blocks[n - 1] == LoopEndId then (if level - 1 < 0 then 0 else level - 1)
      else level
  }

  /** `getIndentation(index)`, called for each placed block. */
  method GetIndentation(blocks: seq<string>, index: nat) returns (indentLevel: nat)
    requires index <= |blocks|
    ensures indentLevel == Indent(blocks, index)
  {
    indentLevel := 0;
    var i := 0;
    while i < index
      invariant 0 <= i <= index
      invariant indentLevel == Indent(blocks, i)
    {
      if blocks[i] == LoopStartId || blocks[i] == IfPathId {
        indentLevel := indentLevel + 1;
      } else if blocks[i] == LoopEndId {
        indentLevel := if indentLevel - 1 < 0 then 0 else indentLevel - 1;
      }
      i := i + 1;
    }
  }

  /** How many of the first `n` blocks satisfy the kind test. */
  function Openers(blocks: seq<string>, n: nat): nat
    requires n <= |blocks|
  {
    if n == 0 then 0 else Openers(blocks, n - 1) + (if IsOpener(blocks[n - 1]) then 1 else 0)
  }

  function Closers(blocks: seq<string>, n: nat): nat
    requires n <= |blocks|
  {
    if n == 0 then 0 else Closers(blocks, n - 1) + (if blocks[n - 1] == LoopEndId then 1 else 0)
  }

  /** The indentation never exceeds the number of openers before the block. */
  lemma {:induction false} IndentAtMostOpeners(blocks: seq<string>, n: nat)
    requires n <= |blocks|
    ensures Indent(blocks, n) <= Openers(blocks, n)
  {
    if n > 0 {
      IndentAtMostOpeners(blocks, n - 1);
    }
  }

  /** When no prefix closes more than it opens, the floor at zero never
      applies and the indentation is openers minus `loop-end`s. */
  lemma {:induction false} IndentIsBalance(blocks: seq<string>, n: nat)
    requires n <= |blocks|
    requires forall k :: 0 <= k <= n ==> Closers(blocks, k) <= Openers(blocks, k)
    ensures Indent(blocks, n) == Openers(blocks, n) - Closers(blocks, n)
  {
    if n > 0 {
      IndentIsBalance(blocks, n - 1);
    }
  }
}
