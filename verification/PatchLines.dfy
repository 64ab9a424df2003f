/**
 The audit's view of a patch: the runs of removed and added lines with their numbers in
 the two files, and where an unchanged line of the original ends up.
 */
module PatchLines {
  import opened Common

  type Text = string

  datatype HunkLine = Minus(text: Text) | Plus(text: Text) | Context(text: Text)

  /** A line of the patch body: a hunk line, a no-newline note, or something else. */
  datatype RawLine = Tagged(line: HunkLine) | NoNewlineNote | Malformed

  datatype Block = Block(oldStart: int, newStart: int, minus: seq<int>, plus: seq<int>)

  function OldLen(ls: seq<HunkLine>): nat {
    if ls == [] then 0 else OldLen(ls[..|ls| - 1]) + if ls[|ls| - 1].Plus? then 0 else 1
  }

  function NewLen(ls: seq<HunkLine>): nat {
    if ls == [] then 0 else NewLen(ls[..|ls| - 1]) + if ls[|ls| - 1].Minus? then 0 else 1
  }

  function OldSide(ls: seq<HunkLine>): (t: seq<Text>)
    ensures |t| == OldLen(ls)
  {
    if ls == [] then [] else OldSide(ls[..|ls| - 1]) + if ls[|ls| - 1].Plus? then [] else [ls[|ls| - 1].text]
  }

  function NewSide(ls: seq<HunkLine>): (t: seq<Text>)
    ensures |t| == NewLen(ls)
  {
    if ls == [] then [] else NewSide(ls[..|ls| - 1]) + if ls[|ls| - 1].Minus? then [] else [ls[|ls| - 1].text]
  }

  // ----- The blocks of a hunk.

  /** The blocks so far, and the one still open. */
  datatype Runs = Runs(blocks: seq<Block>, open: Option<Block>) {
    function All(): seq<Block> { if open.Some? then blocks + [open.value] else blocks }
  }

  function AddLine(r: Runs, line: HunkLine, oldLine: int, newLine: int): Runs {
    var open := if r.open.Some? then r.open.value else Block(oldLine, newLine, [], []);
    match line
    case Minus(_) => r.(open := Some(open.(minus := open.minus + [oldLine])))
    case Plus(_) => r.(open := Some(open.(plus := open.plus + [newLine])))
    case Context(_) => Runs(r.All(), None)
  }

  /** The runs of a hunk whose header says it starts at these line numbers. */
  function RunsOf(ls: seq<HunkLine>, oldStart: int, newStart: int): Runs {
    if ls == [] then Runs([], None)
    else
      var front := ls[..|ls| - 1];
      AddLine(RunsOf(front, oldStart, newStart), ls[|ls| - 1], oldStart + OldLen(front), newStart + NewLen(front))
  }

  function BlocksOf(ls: seq<HunkLine>, oldStart: int, newStart: int): seq<Block> {
    RunsOf(ls, oldStart, newStart).All()
  }

  /** The hunk lines of a stretch of patch body; None if something else is in it. */
  function Clean(body: seq<RawLine>): Option<seq<HunkLine>> {
    if body == [] then Some([])
    else
      var front := Clean(body[..|body| - 1]);
      if front.None? || body[|body| - 1].Malformed? then None
      else if body[|body| - 1].NoNewlineNote? then front
      else Some(front.value + [body[|body| - 1].line])
  }

  /** The hunk ends where both counts of its header are used up. */
  ghost predicate Complete(body: seq<RawLine>, k: nat, oldCount: nat, newCount: nat) {
    k <= |body| && Clean(body[..k]).Some? && OldLen(Clean(body[..k]).value) == oldCount && NewLen(Clean(body[..k]).value) == newCount
  }

  lemma {:induction false} OneMoreLine(body: seq<RawLine>, j: nat, ls: seq<HunkLine>, oldStart: int, newStart: int)
    requires j < |body| && Clean(body[..j]) == Some(ls)
    ensures body[j].NoNewlineNote? ==> Clean(body[..j + 1]) == Some(ls)
    ensures body[j].Tagged? ==>
              var line := body[j].line;
              var more := ls + [line];
              && Clean(body[..j + 1]) == Some(more)
              && OldLen(more) == OldLen(ls) + (if line.Plus? then 0 else 1)
              && NewLen(more) == NewLen(ls) + (if line.Minus? then 0 else 1)
              && NewSide(more) == NewSide(ls) + (if line.Minus? then [] else [line.text])
              && RunsOf(more, oldStart, newStart)
                 == AddLine(RunsOf(ls, oldStart, newStart), line, oldStart + OldLen(ls), newStart + NewLen(ls))
  {
    assert body[..j + 1][..j] == body[..j];
    if body[j].Tagged? {
      assert (ls + [body[j].line])[..|ls|] == ls;
    }
  }

  lemma {:induction false} NothingRead(body: seq<RawLine>, oldStart: int, newStart: int)
    ensures Clean(body[..0]) == Some([]) && OldLen([]) == 0 && NewLen([]) == 0 && NewSide([]) == []
    ensures RunsOf([], oldStart, newStart) == Runs([], None)
  {}

  /** Read one hunk: its blocks, the lines it must leave in the file, and how much of the body it took. */
  method ParseHunk(body: seq<RawLine>, oldStart: int, oldCount: nat, newStart: int, newCount: nat)
    returns (r: Result<(seq<Block>, seq<Text>, nat), ()>)
    ensures r.Ok? ==>
              var (blocks, wanted, used) := r.value;
              && Complete(body, used, oldCount, newCount)
              && (forall k | 0 <= k < used :: !Complete(body, k, oldCount, newCount))
              && blocks == BlocksOf(Clean(body[..used]).value, oldStart, newStart)
              && wanted == NewSide(Clean(body[..used]).value)
    ensures r.Err? ==> forall k :: !Complete(body, k, oldCount, newCount)
  {
    hide Clean, OldLen, NewLen, NewSide, RunsOf;
    NothingRead(body, oldStart, newStart);
    var oldLine, newLine, oldLeft: int, newLeft: int := oldStart, newStart, oldCount, newCount;
    var wanted: seq<Text> := [];
    var blocks: seq<Block>, block: Option<Block> := [], None;
    var j := 0;
    ghost var ls: seq<HunkLine> := [];
    while j < |body| && (oldLeft != 0 || newLeft != 0)
      invariant 0 <= j <= |body| && Clean(body[..j]) == Some(ls)
      invariant oldLine == oldStart + OldLen(ls) && newLine == newStart + NewLen(ls)
      invariant oldLeft == oldCount - OldLen(ls) && newLeft == newCount - NewLen(ls)
      invariant Runs(blocks, block) == RunsOf(ls, oldStart, newStart) && wanted == NewSide(ls)
      invariant forall k | 0 <= k < j :: !Complete(body, k, oldCount, newCount)
      decreases |body| - j
    {
      OneMoreLine(body, j, ls, oldStart, newStart);
      assert !Complete(body, j, oldCount, newCount);
      match body[j] {
      case NoNewlineNote =>
      case Malformed =>
        MalformedStays(body, j);
        return Err(());
      case Tagged(line) =>
        ls := ls + [line];
        if !line.Context? {
          if block.None? {
            block := Some(Block(oldLine, newLine, [], []));
          }
          if line.Minus? {
            block := Some(block.value.(minus := block.value.minus + [oldLine]));
            oldLine, oldLeft := oldLine + 1, oldLeft - 1;
          } else {
            block := Some(block.value.(plus := block.value.plus + [newLine]));
            wanted := wanted + [line.text];
            newLine, newLeft := newLine + 1, newLeft - 1;
          }
        } else {
          if block.Some? {
            blocks := blocks + [block.value];
            block := None;
          }
          wanted := wanted + [line.text];
          oldLine, newLine := oldLine + 1, newLine + 1;
          oldLeft, newLeft := oldLeft - 1, newLeft - 1;
        }
      }
      j := j + 1;
    }
    if oldLeft != 0 || newLeft != 0 {
      return Err(());
    }
    if block.Some? {
      blocks := blocks + [block.value];
    }
    return Ok((blocks, wanted, j));
  }

  lemma {:induction false} MalformedStays(body: seq<RawLine>, j: nat)
    requires j < |body| && body[j].Malformed?
    ensures forall k | j < k <= |body| :: Clean(body[..k]).None?
  {
    forall k | j < k <= |body| ensures Clean(body[..k]).None? {
      MalformedInside(body[..k], j);
    }
  }

  lemma {:induction false} MalformedInside(body: seq<RawLine>, j: nat)
    requires j < |body| && body[j].Malformed?
    ensures Clean(body).None?
  {
    if j < |body| - 1 {
      MalformedInside(body[..|body| - 1], j);
    }
  }

  // ----- Patches.

  /** A parsed hunk: the line numbers of its header and its lines. */
  datatype Hunk = Hunk(oldStart: nat, newStart: nat, lines: seq<HunkLine>) {
    /** The next line of the original the hunk stands at: a header with no old lines names the line before. */
    function At(): nat { if OldLen(lines) == 0 then oldStart + 1 else oldStart }

    function NewAt(): nat { if NewLen(lines) == 0 then newStart + 1 else newStart }

    /** The first original line after the hunk. */
    function End(): nat { At() + OldLen(lines) }

    function Delta(): int { NewLen(lines) - OldLen(lines) }

    function Blocks(): seq<Block> { BlocksOf(lines, oldStart, newStart) }

    /** Inserted lines with nothing around them. */
    predicate BareInsertion() { lines != [] && OldLen(lines) == 0 }
  }

  function PatchBlocks(hs: seq<Hunk>): seq<Block> {
    if hs == [] then [] else PatchBlocks(hs[..|hs| - 1]) + hs[|hs| - 1].Blocks()
  }

  function EndOf(hs: seq<Hunk>): nat {
    if hs == [] then 1 else hs[|hs| - 1].End()
  }

  function DeltaOf(hs: seq<Hunk>): int {
    if hs == [] then 0 else DeltaOf(hs[..|hs| - 1]) + hs[|hs| - 1].Delta()
  }

  /** The hunks stand in order, their old sides are in the original, and their headers agree with each other. */
  predicate Applies(original: seq<Text>, hs: seq<Hunk>) {
    hs != [] ==>
      var front, h := hs[..|hs| - 1], hs[|hs| - 1];
      && Applies(original, front)
      && EndOf(front) <= h.At() && h.End() <= |original| + 1
      && original[h.At() - 1..h.End() - 1] == OldSide(h.lines)
      && h.NewAt() == h.At() + DeltaOf(front)
  }

  lemma {:induction false} EndIsInside(original: seq<Text>, hs: seq<Hunk>)
    requires Applies(original, hs)
    ensures 1 <= EndOf(hs) <= |original| + 1
  {
    if hs != [] {
      EndIsInside(original, hs[..|hs| - 1]);
    }
  }

  /** The mutated file up to the end of the last hunk. */
  function Output(original: seq<Text>, hs: seq<Hunk>): (t: seq<Text>)
    requires Applies(original, hs)
    ensures |t| == EndOf(hs) - 1 + DeltaOf(hs)
  {
    if hs == [] then []
    else
      var front, h := hs[..|hs| - 1], hs[|hs| - 1];
      EndIsInside(original, front);
      Output(original, front) + original[EndOf(front) - 1..h.At() - 1] + NewSide(h.lines)
  }

  function Patched(original: seq<Text>, hs: seq<Hunk>): seq<Text>
    requires Applies(original, hs)
  {
    EndIsInside(original, hs);
    Output(original, hs) + original[EndOf(hs) - 1..]
  }

  // ----- Where a line goes.

  function Moves(b: Block): int { |b.plus| - |b.minus| }

  /** What the blocks that end at or before line `old` add to its number. */
  function Shift(bs: seq<Block>, number: int): int {
    if bs == [] then 0
    else
      var b := bs[|bs| - 1];
      Shift(bs[..|bs| - 1], number) + if b.oldStart + |b.minus| <= number then Moves(b) else 0
  }

  method NewLine(bs: seq<Block>, number: int) returns (at: int)
    ensures at == number + Shift(bs, number)
  {
    var sum := 0;
    for k := 0 to |bs|
      invariant sum == Shift(bs[..k], number)
    {
      assert bs[..k + 1][..k] == bs[..k];
      if bs[k].oldStart + |bs[k].minus| <= number {
        sum := sum + (|bs[k].plus| - |bs[k].minus|);
      }
    }
    assert bs[..|bs|] == bs;
    return number + sum;
  }

  lemma {:induction false} ShiftConcat(a: seq<Block>, b: seq<Block>, number: int)
    ensures Shift(a + b, number) == Shift(a, number) + Shift(b, number)
  {
    if b == [] {
      assert a + b == a;
    } else {
      ShiftConcat(a, b[..|b| - 1], number);
      assert (a + b)[..|a + b| - 1] == a + b[..|b| - 1];
    }
  }

  lemma {:induction false} ShiftSnoc(bs: seq<Block>, b: Block, number: int)
    ensures Shift(bs + [b], number) == Shift(bs, number) + if b.oldStart + |b.minus| <= number then Moves(b) else 0
  {
    assert (bs + [b])[..|bs|] == bs;
  }

  /** The open block ends where the hunk has got to. */
  lemma {:induction false} OpenBlockEnds(ls: seq<HunkLine>, oldStart: int, newStart: int)
    ensures var r := RunsOf(ls, oldStart, newStart);
            r.open.Some? ==> r.open.value.oldStart + |r.open.value.minus| == oldStart + OldLen(ls)
  {
    if ls != [] {
      OpenBlockEnds(ls[..|ls| - 1], oldStart, newStart);
    }
  }

  /** Before a hunk's lines nothing shifts; from their end on the whole difference does; and one more line changes no line before it. */
  lemma {:induction false} HunkShift(ls: seq<HunkLine>, oldStart: int, newStart: int, number: int)
    ensures number < oldStart ==> Shift(BlocksOf(ls, oldStart, newStart), number) == 0
    ensures number >= oldStart + OldLen(ls) ==> Shift(BlocksOf(ls, oldStart, newStart), number) == NewLen(ls) - OldLen(ls)
    ensures ls != [] && number < oldStart + OldLen(ls[..|ls| - 1]) ==>
              Shift(BlocksOf(ls, oldStart, newStart), number) == Shift(BlocksOf(ls[..|ls| - 1], oldStart, newStart), number)
  {
    if ls != [] {
      var front, last := ls[..|ls| - 1], ls[|ls| - 1];
      HunkShift(front, oldStart, newStart, number);
      OpenBlockEnds(front, oldStart, newStart);
      var r, r' := RunsOf(front, oldStart, newStart), RunsOf(ls, oldStart, newStart);
      if r.open.Some? {
        ShiftSnoc(r.blocks, r.open.value, number);
      }
      if r'.open.Some? {
        ShiftSnoc(r'.blocks, r'.open.value, number);
      }
    }
  }

  lemma {:induction false} ContextShift(ls: seq<HunkLine>, oldStart: int, newStart: int, k: nat)
    requires k < |ls| && ls[k].Context?
    ensures Shift(BlocksOf(ls, oldStart, newStart), oldStart + OldLen(ls[..k])) == NewLen(ls[..k]) - OldLen(ls[..k])
  {
    hide *;
    var front := ls[..|ls| - 1];
    if k < |front| {
      assert front[..k] == ls[..k];
      OldLenGrows(front, k);
      HunkShift(ls, oldStart, newStart, oldStart + OldLen(ls[..k]));
      ContextShift(front, oldStart, newStart, k);
    } else {
      HunkShift(front, oldStart, newStart, oldStart + OldLen(front));
      ContextClosesBlock(ls, oldStart, newStart);
    }
  }

  lemma ContextClosesBlock(ls: seq<HunkLine>, oldStart: int, newStart: int)
    requires ls != [] && ls[|ls| - 1].Context?
    ensures BlocksOf(ls, oldStart, newStart) == BlocksOf(ls[..|ls| - 1], oldStart, newStart)
  {}

  lemma {:induction false} OldLenGrows(ls: seq<HunkLine>, k: nat)
    requires k < |ls|
    ensures OldLen(ls[..k]) + (if ls[k].Plus? then 0 else 1) <= OldLen(ls)
    ensures NewLen(ls[..k]) + (if ls[k].Minus? then 0 else 1) <= NewLen(ls)
    ensures !ls[k].Plus? ==> OldSide(ls)[OldLen(ls[..k])] == ls[k].text
    ensures !ls[k].Minus? ==> NewSide(ls)[NewLen(ls[..k])] == ls[k].text
  {
    var front := ls[..|ls| - 1];
    if k < |front| {
      assert front[..k] == ls[..k];
      OldLenGrows(front, k);
    }
  }

  // ----- Removed and added lines by number.

  predicate Removes(bs: seq<Block>, number: int) {
    exists b | b in bs :: number in b.minus
  }

  predicate Adds(bs: seq<Block>, number: int) {
    exists b | b in bs :: number in b.plus
  }

  /** Line `k` of the hunk is a removed line with this number, or an added one. */
  predicate RemovedAs(ls: seq<HunkLine>, oldStart: int, n: int, k: nat) {
    k < |ls| && ls[k].Minus? && n == oldStart + OldLen(ls[..k])
  }

  predicate AddedAs(ls: seq<HunkLine>, newStart: int, n: int, k: nat) {
    k < |ls| && ls[k].Plus? && n == newStart + NewLen(ls[..k])
  }

  lemma FrontNumbers(ls: seq<HunkLine>, start: int, n: int)
    requires ls != []
    ensures var m := |ls| - 1;
            && (forall k: nat | k < m :: (RemovedAs(ls[..m], start, n, k) <==> RemovedAs(ls, start, n, k))
                                         && (AddedAs(ls[..m], start, n, k) <==> AddedAs(ls, start, n, k)))
  {
    var m := |ls| - 1;
    assert forall k: nat | k < m :: ls[..m][..k] == ls[..k];
  }

  /** A block's numbers are those of its lines: removed lines in the original, added lines in the new file. */
  lemma {:induction false} NumbersAreRight(ls: seq<HunkLine>, oldStart: int, newStart: int, n: int)
    ensures Removes(BlocksOf(ls, oldStart, newStart), n) <==> exists k: nat :: RemovedAs(ls, oldStart, n, k)
    ensures Adds(BlocksOf(ls, oldStart, newStart), n) <==> exists k: nat :: AddedAs(ls, newStart, n, k)
  {
    if ls != [] {
      var m := |ls| - 1;
      var front := ls[..m];
      NumbersAreRight(front, oldStart, newStart, n);
      NumbersStep(RunsOf(front, oldStart, newStart), ls[m], oldStart + OldLen(front), newStart + NewLen(front), n);
      FrontNumbers(ls, oldStart, n);
      FrontNumbers(ls, newStart, n);
      assert RemovedAs(ls, oldStart, n, m) <==> ls[m].Minus? && n == oldStart + OldLen(front);
      assert AddedAs(ls, newStart, n, m) <==> ls[m].Plus? && n == newStart + NewLen(front);
      assert forall k: nat | !(k < m) :: !RemovedAs(front, oldStart, n, k) && !AddedAs(front, newStart, n, k);
      hide AddLine, Removes, Adds, OldLen, NewLen, RemovedAs, AddedAs;
    }
  }

  lemma NumbersStep(r: Runs, line: HunkLine, oldLine: int, newLine: int, n: int)
    ensures var r' := AddLine(r, line, oldLine, newLine);
            && (Removes(r'.All(), n) <==> Removes(r.All(), n) || (line.Minus? && n == oldLine))
            && (Adds(r'.All(), n) <==> Adds(r.All(), n) || (line.Plus? && n == newLine))
  {
    var r' := AddLine(r, line, oldLine, newLine);
    assert forall b | b in r.blocks :: b in r.All() && b in r'.All();
    if r.open.Some? {
      assert r.All()[|r.blocks|] == r.open.value;
    }
    if r'.open.Some? {
      assert r'.All()[|r'.blocks|] == r'.open.value;
    }
  }

  // ----- Whole patches.

  /** The blocks as they would be numbered if every hunk header named the line it stands at. */
  function TrueBlocks(hs: seq<Hunk>): seq<Block> {
    if hs == [] then []
    else TrueBlocks(hs[..|hs| - 1]) + BlocksOf(hs[|hs| - 1].lines, hs[|hs| - 1].At(), hs[|hs| - 1].NewAt())
  }

  function TrueShift(hs: seq<Hunk>, number: int): int {
    if hs == [] then 0
    else TrueShift(hs[..|hs| - 1], number) + Shift(BlocksOf(hs[|hs| - 1].lines, hs[|hs| - 1].At(), hs[|hs| - 1].NewAt()), number)
  }

  lemma {:induction false} AllShifted(original: seq<Text>, hs: seq<Hunk>, number: int)
    requires Applies(original, hs) && number >= EndOf(hs)
    ensures TrueShift(hs, number) == DeltaOf(hs)
  {
    if hs != [] {
      var h := hs[|hs| - 1];
      AllShifted(original, hs[..|hs| - 1], number);
      HunkShift(h.lines, h.At(), h.NewAt(), number);
    }
  }

  lemma {:induction false} OldIndex(ls: seq<HunkLine>, i: nat) returns (k: nat)
    requires i < OldLen(ls)
    ensures k < |ls| && !ls[k].Plus? && OldLen(ls[..k]) == i
  {
    var m := |ls| - 1;
    if i < OldLen(ls[..m]) {
      k := OldIndex(ls[..m], i);
      assert ls[..m][..k] == ls[..k];
    } else {
      k := m;
    }
  }

  lemma RemovesConcat(a: seq<Block>, b: seq<Block>, number: int)
    ensures Removes(a + b, number) <==> Removes(a, number) || Removes(b, number)
    ensures Adds(a + b, number) <==> Adds(a, number) || Adds(b, number)
  {
    assert forall x :: x in a + b <==> x in a || x in b;
  }

  /** What the last hunk adds to the output: the gap before it, and its new side. */
  lemma OutputParts(original: seq<Text>, hs: seq<Hunk>)
    requires Applies(original, hs) && hs != []
    ensures var front, h := hs[..|hs| - 1], hs[|hs| - 1];
            && Applies(original, front)
            && 1 <= EndOf(front) <= h.At() <= h.End() == h.At() + OldLen(h.lines) <= |original| + 1
            && |Output(original, front)| == EndOf(front) - 1 + DeltaOf(front) && h.NewAt() == h.At() + DeltaOf(front)
            && original[h.At() - 1..h.End() - 1] == OldSide(h.lines)
            && Output(original, hs) == Output(original, front) + original[EndOf(front) - 1..h.At() - 1] + NewSide(h.lines)
  {
    EndIsInside(original, hs[..|hs| - 1]);
  }

  lemma TrueShiftLast(hs: seq<Hunk>, number: int)
    requires hs != []
    ensures var front, h := hs[..|hs| - 1], hs[|hs| - 1];
            TrueShift(hs, number) == TrueShift(front, number) + Shift(BlocksOf(h.lines, h.At(), h.NewAt()), number)
  {}

  lemma {:induction false} FrontAt(original: seq<Text>, hs: seq<Hunk>, i: nat)
    requires Applies(original, hs) && hs != [] && i < |Output(original, hs[..|hs| - 1])|
    ensures i < |Output(original, hs)| && Output(original, hs)[i] == Output(original, hs[..|hs| - 1])[i]
  {
    OutputParts(original, hs);
    hide Output, NewSide, OldSide, Applies;
  }

  lemma {:induction false} GapAt(original: seq<Text>, hs: seq<Hunk>, number: nat)
    requires Applies(original, hs) && hs != [] && EndOf(hs[..|hs| - 1]) <= number < hs[|hs| - 1].At()
    ensures var i := number - 1 + DeltaOf(hs[..|hs| - 1]);
            number <= |original| && 0 <= i < |Output(original, hs)| && Output(original, hs)[i] == original[number - 1]
  {
    hide *;
    OutputParts(original, hs);
    var front, h := hs[..|hs| - 1], hs[|hs| - 1];
    var out, gap, tail := Output(original, front), original[EndOf(front) - 1..h.At() - 1], NewSide(h.lines);
    assert gap[number - EndOf(front)] == original[number - 1];
    assert (out + gap + tail)[|out| + (number - EndOf(front))] == gap[number - EndOf(front)];
  }

  lemma {:induction false} HunkAt(original: seq<Text>, hs: seq<Hunk>, i: nat)
    requires Applies(original, hs) && hs != [] && i < NewLen(hs[|hs| - 1].lines)
    ensures var at := hs[|hs| - 1].NewAt() - 1 + i;
            0 <= at < |Output(original, hs)| && Output(original, hs)[at] == NewSide(hs[|hs| - 1].lines)[i]
  {
    OutputParts(original, hs);
    var front, h := hs[..|hs| - 1], hs[|hs| - 1];
    var out, gap, tail := Output(original, front), original[EndOf(front) - 1..h.At() - 1], NewSide(h.lines);
    hide Output, NewSide, OldSide, Applies;
    assert (out + gap + tail)[|out| + |gap| + i] == tail[i];
  }

  lemma ContextInOutput(original: seq<Text>, hs: seq<Hunk>, number: nat, k: nat)
    requires Applies(original, hs) && hs != [] && k < |hs[|hs| - 1].lines| && hs[|hs| - 1].lines[k].Context?
    requires number == hs[|hs| - 1].At() + OldLen(hs[|hs| - 1].lines[..k])
    ensures number <= |original| && 1 <= number + TrueShift(hs, number) <= |Output(original, hs)|
    ensures Output(original, hs)[number + TrueShift(hs, number) - 1] == original[number - 1]
  {
    hide *;
    OutputParts(original, hs);
    var front, h := hs[..|hs| - 1], hs[|hs| - 1];
    AllShifted(original, front, number);
    TrueShiftLast(hs, number);
    ContextShift(h.lines, h.At(), h.NewAt(), k);
    OldLenGrows(h.lines, k);
    HunkAt(original, hs, NewLen(h.lines[..k]));
    assert original[h.At() - 1..h.End() - 1][number - h.At()] == original[number - 1];
  }

  lemma {:induction false} LineInOutput(original: seq<Text>, hs: seq<Hunk>, number: nat)
    requires Applies(original, hs) && 1 <= number < EndOf(hs) && !Removes(TrueBlocks(hs), number)
    ensures number <= |original| && 1 <= number + TrueShift(hs, number) <= |Output(original, hs)|
    ensures Output(original, hs)[number + TrueShift(hs, number) - 1] == original[number - 1]
  {
    if hs != [] {
      var front, h := hs[..|hs| - 1], hs[|hs| - 1];
      assert TrueBlocks(hs) == TrueBlocks(front) + BlocksOf(h.lines, h.At(), h.NewAt()) && EndOf(hs) == h.End();
      hide *;
      OutputParts(original, hs);
      TrueShiftLast(hs, number);
      RemovesConcat(TrueBlocks(front), BlocksOf(h.lines, h.At(), h.NewAt()), number);
      HunkShift(h.lines, h.At(), h.NewAt(), number);
      if number < EndOf(front) {
        LineInOutput(original, front, number);
        FrontAt(original, hs, number + TrueShift(front, number) - 1);
      } else if number < h.At() {
        AllShifted(original, front, number);
        GapAt(original, hs, number);
      } else {
        var k := NotRemovedIsContext(h, number);
        ContextInOutput(original, hs, number, k);
      }
    }
  }

  lemma NotRemovedIsContext(h: Hunk, number: nat) returns (k: nat)
    requires h.At() <= number < h.End() && !Removes(BlocksOf(h.lines, h.At(), h.NewAt()), number)
    ensures k < |h.lines| && h.lines[k].Context? && number == h.At() + OldLen(h.lines[..k])
  {
    k := OldIndex(h.lines, number - h.At());
    NumbersAreRight(h.lines, h.At(), h.NewAt(), number);
    assert h.lines[k].Minus? ==> RemovedAs(h.lines, h.At(), number, k);
  }

  /** An original line that no hunk removes sits, unchanged, at its number plus the true shift. */
  lemma {:induction false} UnchangedLineMoves(original: seq<Text>, hs: seq<Hunk>, number: nat)
    requires Applies(original, hs) && 1 <= number <= |original| && !Removes(TrueBlocks(hs), number)
    ensures 1 <= number + TrueShift(hs, number) <= |Patched(original, hs)|
    ensures Patched(original, hs)[number + TrueShift(hs, number) - 1] == original[number - 1]
  {
    EndIsInside(original, hs);
    if number < EndOf(hs) {
      LineInOutput(original, hs, number);
    } else {
      AllShifted(original, hs, number);
    }
  }

  // ----- What the audit computes.

  lemma {:induction false} ShiftOfBlocks(hs: seq<Hunk>, number: int)
    ensures Shift(PatchBlocks(hs), number) == TrueShift(hs, number) + BareAfter(hs, number)
  {
    if hs != [] {
      var front, h := hs[..|hs| - 1], hs[|hs| - 1];
      ShiftOfBlocks(front, number);
      ShiftConcat(PatchBlocks(front), h.Blocks(), number);
      HunkShift(h.lines, h.oldStart, h.newStart, number);
      HunkShift(h.lines, h.At(), h.NewAt(), number);
      if OldLen(h.lines) > 0 {
        ShiftIgnoresNewStart(h.lines, h.oldStart, h.newStart, h.NewAt(), number);
      } else {
        NoLinesNoLength(h.lines);
      }
    }
  }

  /** Lines that bare insertions put directly after line `number`. */
  function BareAfter(hs: seq<Hunk>, number: int): nat {
    if hs == [] then 0
    else
      var h := hs[|hs| - 1];
      BareAfter(hs[..|hs| - 1], number) + if h.BareInsertion() && h.oldStart == number then NewLen(h.lines) else 0
  }

  lemma {:induction false} NoLinesNoLength(ls: seq<HunkLine>)
    ensures ls != [] && OldLen(ls) == 0 ==> NewLen(ls) > 0
    ensures ls == [] ==> NewLen(ls) == 0
  {
    if ls != [] {
      NoLinesNoLength(ls[..|ls| - 1]);
    }
  }

  lemma {:induction false} ShiftIgnoresNewStart(ls: seq<HunkLine>, oldStart: int, n1: int, n2: int, number: int)
    ensures Shift(BlocksOf(ls, oldStart, n1), number) == Shift(BlocksOf(ls, oldStart, n2), number)
  {
    RunsIgnoreNewStart(ls, oldStart, n1, n2);
    SameShapeSameShift(BlocksOf(ls, oldStart, n1), BlocksOf(ls, oldStart, n2), number);
  }

  predicate SameShape(a: Block, b: Block) {
    a.oldStart == b.oldStart && a.minus == b.minus && |a.plus| == |b.plus|
  }

  lemma {:induction false} RunsIgnoreNewStart(ls: seq<HunkLine>, oldStart: int, n1: int, n2: int)
    ensures var r1, r2 := RunsOf(ls, oldStart, n1), RunsOf(ls, oldStart, n2);
            && |r1.blocks| == |r2.blocks| && (forall k | 0 <= k < |r1.blocks| :: SameShape(r1.blocks[k], r2.blocks[k]))
            && (r1.open.Some? <==> r2.open.Some?) && (r1.open.Some? ==> SameShape(r1.open.value, r2.open.value))
  {
    if ls != [] {
      RunsIgnoreNewStart(ls[..|ls| - 1], oldStart, n1, n2);
    }
  }

  lemma {:induction false} SameShapeSameShift(a: seq<Block>, b: seq<Block>, number: int)
    requires |a| == |b| && forall k | 0 <= k < |a| :: SameShape(a[k], b[k])
    ensures Shift(a, number) == Shift(b, number)
  {
    if a != [] {
      SameShapeSameShift(a[..|a| - 1], b[..|b| - 1], number);
    }
  }

  /**
   The line number the audit computes for an unchanged line is the right one exactly when no hunk without
   context inserts lines directly after that line.
   */
  lemma {:induction false} NewLineIsRightIff(original: seq<Text>, hs: seq<Hunk>, number: nat)
    requires Applies(original, hs) && 1 <= number <= |original| && !Removes(TrueBlocks(hs), number)
    ensures number + Shift(PatchBlocks(hs), number) == number + TrueShift(hs, number)
            <==> forall h | h in hs :: !(h.BareInsertion() && h.oldStart == number)
    ensures (forall h | h in hs :: !(h.BareInsertion() && h.oldStart == number)) ==>
              && 1 <= number + Shift(PatchBlocks(hs), number) <= |Patched(original, hs)|
              && Patched(original, hs)[number + Shift(PatchBlocks(hs), number) - 1] == original[number - 1]
  {
    hide *;
    ShiftOfBlocks(hs, number);
    BareAfterIsZero(hs, number);
    UnchangedLineMoves(original, hs, number);
  }

  /**
   A hunk without context is applied only where the file ends, and the audit asks only for the first line of a code
   object, which has a later line: so every number it computes is the right one.
   */
  lemma {:induction false} AskedLinesAreRight(original: seq<Text>, hs: seq<Hunk>, number: nat)
    requires Applies(original, hs) && forall h | h in hs && h.BareInsertion() :: h.End() == |original| + 1
    requires 1 <= number < |original| && !Removes(TrueBlocks(hs), number)
    ensures 1 <= number + Shift(PatchBlocks(hs), number) <= |Patched(original, hs)|
    ensures Patched(original, hs)[number + Shift(PatchBlocks(hs), number) - 1] == original[number - 1]
  {
    forall h | h in hs && h.BareInsertion() ensures h.oldStart >= |original| {
      assert h.End() == h.oldStart + 1;
    }
    hide *;
    NewLineIsRightIff(original, hs, number);
  }

  lemma {:induction false} BareAfterIsZero(hs: seq<Hunk>, number: int)
    ensures BareAfter(hs, number) == 0 <==> forall h | h in hs :: !(h.BareInsertion() && h.oldStart == number)
  {
    if hs != [] {
      var n := |hs| - 1;
      BareAfterIsZero(hs[..n], number);
      NoLinesNoLength(hs[n].lines);
      assert hs == hs[..n] + [hs[n]];
      assert forall h :: h in hs <==> h in hs[..n] || h == hs[n];
    }
  }

  lemma OneLine(x: HunkLine)
    ensures OldSide([x]) == (if x.Plus? then [] else [x.text]) && NewSide([x]) == (if x.Minus? then [] else [x.text])
    ensures OldLen([x]) == (if x.Plus? then 0 else 1) && NewLen([x]) == (if x.Minus? then 0 else 1)
  {
    assert [x][..0] == [];
  }

  lemma {:induction false} NoHunks(original: seq<Text>)
    ensures Applies(original, []) && EndOf([]) == 1 && DeltaOf([]) == 0 && Output(original, []) == []
  {}

  lemma {:induction false} OneHunkApplies(original: seq<Text>, h: Hunk)
    requires 1 <= h.At() == h.NewAt() && h.End() <= |original| + 1 && original[h.At() - 1..h.End() - 1] == OldSide(h.lines)
    ensures Applies(original, [h])
  {
    assert [h][..0] == [];
    NoHunks(original);
    hide OldSide, OldLen, NewLen;
  }

  lemma {:induction false} SoleHunkOutput(original: seq<Text>, hs: seq<Hunk>)
    requires |hs| == 1 && Applies(original, hs)
    ensures 1 <= hs[0].At() <= hs[0].End() <= |original| + 1
    ensures Output(original, hs) == original[..hs[0].At() - 1] + NewSide(hs[0].lines)
  {
    hide *;
    OutputParts(original, hs);
    NoHunks(original);
    assert hs[..|hs| - 1] == [];
    assert original[0..hs[0].At() - 1] == original[..hs[0].At() - 1];
  }

  lemma {:induction false} OneHunkPatched(original: seq<Text>, h: Hunk)
    requires Applies(original, [h])
    ensures 1 <= h.At() <= h.End() <= |original| + 1
    ensures Patched(original, [h]) == original[..h.At() - 1] + NewSide(h.lines) + original[h.End() - 1..]
  {
    hide *;
    SoleHunkOutput(original, [h]);
    PatchedParts(original, [h]);
  }

  lemma {:induction false} PatchedParts(original: seq<Text>, hs: seq<Hunk>)
    requires Applies(original, hs) && hs != []
    ensures 1 <= hs[|hs| - 1].End() <= |original| + 1
    ensures Patched(original, hs) == Output(original, hs) + original[hs[|hs| - 1].End() - 1..]
  {
    EndIsInside(original, hs);
  }

  /** One line added at the end of a file with no context: line 2 stays where it is, and the number computed for it is 3. */
  lemma BareInsertionIsOffByOne(a: Text, b: Text, x: Text)
    ensures var original, hs := [a, b], [Hunk(2, 3, [Plus(x)])];
            && Applies(original, hs) && Patched(original, hs) == [a, b, x]
            && 2 + TrueShift(hs, 2) == 2 && 2 + Shift(PatchBlocks(hs), 2) == 3
  {
    var original, h := [a, b], Hunk(2, 3, [Plus(x)]);
    OneLine(Plus(x));
    assert h.At() == 3 && h.NewAt() == 3 && h.End() == 3;
    assert original[2..2] == [];
    OneHunkApplies(original, h);
    OneHunkPatched(original, h);
    BareInsertionShifts(h);
    ShiftOfBlocks([h], 2);
    assert [h][..0] == [] && BareAfter([h], 2) == 1;
    hide OldSide, NewSide, OldLen, NewLen, Shift, PatchBlocks, Applies, Patched;
  }

  /** A hunk without context that only deletes: its new side names the line before the gap. */
  lemma BareDeletionApplies(a: Text, b: Text, c: Text)
    ensures var original, hs := [a, b, c], [Hunk(2, 1, [Minus(b)])];
            && Applies(original, hs) && Patched(original, hs) == [a, c]
            && 3 + TrueShift(hs, 3) == 3 + Shift(PatchBlocks(hs), 3) == 2
  {
    var original, h := [a, b, c], Hunk(2, 1, [Minus(b)]);
    OneLine(Minus(b));
    assert h.At() == 2 && h.NewAt() == 2 && h.End() == 3;
    assert original[1..2] == [b];
    OneHunkApplies(original, h);
    OneHunkPatched(original, h);
    ShiftOfBlocks([h], 3);
    assert [h][..0] == [] && BareAfter([h], 3) == 0 && DeltaOf([]) == 0;
    AllShifted(original, [h], 3);
    hide OldSide, NewSide, OldLen, NewLen, Shift, PatchBlocks, Applies, Patched, TrueShift;
  }

  lemma BareInsertionShifts(h: Hunk)
    requires h.BareInsertion()
    ensures Shift(PatchBlocks([h]), h.oldStart) == NewLen(h.lines)
  {
    assert [h][..0] == [];
    assert PatchBlocks([]) == [];
    assert [] + h.Blocks() == h.Blocks();
    HunkShift(h.lines, h.oldStart, h.newStart, h.oldStart);
    hide Shift, BlocksOf, NewLen, OldLen;
  }

  // ----- Added lines.

  /** Added line `k` of hunk `j` is line `number` of the patched file. */
  predicate AddedLine(hs: seq<Hunk>, number: int, j: nat, k: nat) {
    j < |hs| && AddedAs(hs[j].lines, hs[j].NewAt(), number, k)
  }

  lemma HunkAdds(h: Hunk, number: int)
    ensures Adds(h.Blocks(), number) <==> exists k: nat :: AddedAs(h.lines, h.NewAt(), number, k)
  {
    NumbersAreRight(h.lines, h.oldStart, h.newStart, number);
    if NewLen(h.lines) == 0 {
      NothingAdded(h.lines, h.newStart, number);
      NothingAdded(h.lines, h.NewAt(), number);
    } else {
      assert h.NewAt() == h.newStart;
      assert Adds(BlocksOf(h.lines, h.oldStart, h.newStart), number) <==> exists k: nat :: AddedAs(h.lines, h.newStart, number, k);
      assert Adds(h.Blocks(), number) <==> exists k: nat :: AddedAs(h.lines, h.newStart, number, k);
    }
  }

  lemma {:induction false} NothingAdded(ls: seq<HunkLine>, newStart: int, number: int)
    requires NewLen(ls) == 0
    ensures forall k: nat :: !AddedAs(ls, newStart, number, k)
  {
    forall k: nat ensures !AddedAs(ls, newStart, number, k) {
      if k < |ls| { OldLenGrows(ls, k); }
    }
  }

  lemma {:induction false} PlusNumbersAre(hs: seq<Hunk>, number: int)
    ensures Adds(PatchBlocks(hs), number) <==> exists j: nat, k: nat :: AddedLine(hs, number, j, k)
  {
    if hs != [] {
      var n := |hs| - 1;
      var front := hs[..n];
      PlusNumbersAre(front, number);
      HunkAdds(hs[n], number);
      RemovesConcat(PatchBlocks(front), hs[n].Blocks(), number);
      assert forall j: nat, k: nat | j < n :: AddedLine(front, number, j, k) <==> AddedLine(hs, number, j, k);
      assert forall k: nat :: AddedLine(hs, number, n, k) <==> AddedAs(hs[n].lines, hs[n].NewAt(), number, k);
      assert forall j: nat, k: nat | j >= n :: !AddedLine(front, number, j, k);
      hide AddedAs, Adds, PatchBlocks;
    }
  }

  lemma {:induction false} AddedInOutput(original: seq<Text>, hs: seq<Hunk>, number: int, j: nat, k: nat)
    requires Applies(original, hs) && AddedLine(hs, number, j, k)
    ensures 1 <= number <= |Output(original, hs)| && Output(original, hs)[number - 1] == hs[j].lines[k].text
  {
    var n := |hs| - 1;
    assert AddedAs(hs[j].lines, hs[j].NewAt(), number, k);
    OutputParts(original, hs);
    if j < n {
      assert AddedLine(hs[..n], number, j, k);
      hide *;
      AddedInOutput(original, hs[..n], number, j, k);
      FrontAt(original, hs, number - 1);
    } else {
      hide Output, NewSide, OldSide, Applies, OldLen, NewLen;
      OldLenGrows(hs[n].lines, k);
      HunkAt(original, hs, NewLen(hs[n].lines[..k]));
    }
  }

  /** The `plus` numbers of the blocks are exactly the numbers of the added lines, and the patched file has those lines there. */
  lemma {:induction false} PlusNamesAddedLines(original: seq<Text>, hs: seq<Hunk>, number: int)
    requires Applies(original, hs)
    ensures Adds(PatchBlocks(hs), number) <==> exists j: nat, k: nat :: AddedLine(hs, number, j, k)
    ensures forall j: nat, k: nat | AddedLine(hs, number, j, k) ::
              1 <= number <= |Patched(original, hs)| && Patched(original, hs)[number - 1] == hs[j].lines[k].text
  {
    PlusNumbersAre(hs, number);
    EndIsInside(original, hs);
    forall j: nat, k: nat | AddedLine(hs, number, j, k)
      ensures 1 <= number <= |Patched(original, hs)| && Patched(original, hs)[number - 1] == hs[j].lines[k].text
    {
      AddedInOutput(original, hs, number, j, k);
    }
  }

  // ----- Applied where stated.

  /** The check that `git apply` put each hunk where its header says. */
  predicate AppliedWhereStated(mutated: seq<Text>, hs: seq<Hunk>) {
    forall h | h in hs && NewLen(h.lines) > 0 ::
      && 1 <= h.newStart && h.newStart - 1 + NewLen(h.lines) <= |mutated|
      && mutated[h.newStart - 1..h.newStart - 1 + NewLen(h.lines)] == NewSide(h.lines)
  }

  lemma {:induction false} OutputIsWhereStated(original: seq<Text>, hs: seq<Hunk>, mutated: seq<Text>)
    requires Applies(original, hs) && Output(original, hs) <= mutated
    ensures AppliedWhereStated(mutated, hs)
  {
    if hs != [] {
      var n := |hs| - 1;
      var front, h := hs[..n], hs[n];
      OutputParts(original, hs);
      hide Output, NewSide, OldSide, Applies;
      if NewLen(h.lines) > 0 {
        assert mutated[h.newStart - 1..h.newStart - 1 + NewLen(h.lines)] == NewSide(h.lines);
      }
      OutputIsWhereStated(original, front, mutated);
      assert forall x :: x in hs <==> x in front || x == h;
    }
  }

  lemma {:induction false} PatchedPassesCheck(original: seq<Text>, hs: seq<Hunk>)
    requires Applies(original, hs)
    ensures AppliedWhereStated(Patched(original, hs), hs)
  {
    EndIsInside(original, hs);
    OutputIsWhereStated(original, hs, Patched(original, hs));
  }

  lemma {:induction false} NewSideAt(ls: seq<HunkLine>, k: nat)
    requires k < |ls| && !ls[k].Minus?
    ensures NewLen(ls[..k]) < NewLen(ls) && NewSide(ls)[NewLen(ls[..k])] == ls[k].text
    decreases |ls|
  {
    var n := |ls| - 1;
    assert ls[..k] == ls[..n][..k];
    if k < n {
      NewSideAt(ls[..n], k);
    }
  }

  /** A file that passes the check has every line a hunk keeps or adds at its own number. */
  lemma CheckFindsLines(mutated: seq<Text>, hs: seq<Hunk>, j: nat, k: nat)
    requires AppliedWhereStated(mutated, hs) && j < |hs| && k < |hs[j].lines| && !hs[j].lines[k].Minus?
    ensures var number := hs[j].newStart + NewLen(hs[j].lines[..k]);
            1 <= number <= |mutated| && mutated[number - 1] == hs[j].lines[k].text
  {
    var h := hs[j];
    assert h in hs;
    NewSideAt(h.lines, k);
    var at := NewLen(h.lines[..k]);
    assert mutated[h.newStart - 1..h.newStart - 1 + NewLen(h.lines)][at] == NewSide(h.lines)[at];
  }
}
