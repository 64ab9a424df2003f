/** The decision log's sequence numbers over appends that fail in every way they can, and over restarts. */
module DecisionLogs {
  import opened Common
  import opened LogLines

  /** One line of the file, and the sequence number it was written with. */
  datatype Entry = Entry(number: nat, line: Line)

  datatype Outcome =
    | ClaimRejected   // the record claims a check nobody ran: refused before anything else
    | NotEncodable    // the record cannot be turned into a line, or the file is closed
    | NothingLands    // the write fails
    | LandsUnsynced   // the line is in the file, but the sync fails
    | Lands

  /** A record rendered with its number. */
  type Render = nat -> Line

  datatype Op = AppendOp(render: Render, outcome: Outcome) | Restart

  datatype Log = Log(counter: nat, entries: seq<Entry>)

  predicate InFile(o: Outcome) { o.Lands? || o.LandsUnsynced? }

  function Apply(l: Log, op: Op): Log {
    match op
    case Restart => l.(counter := |l.entries|)
    case AppendOp(render, outcome) =>
      var next := l.counter + 1;
      var written := l.entries + [Entry(next, render(next))];
      match outcome
      case ClaimRejected => l
      case NotEncodable => l.(counter := next)
      case NothingLands => l
      case LandsUnsynced => l.(entries := written)
      case Lands => Log(next, written)
  }

  function ApplyAll(l: Log, ops: seq<Op>): Log {
    if ops == [] then l else Apply(ApplyAll(l, ops[..|ops| - 1]), ops[|ops| - 1])
  }

  /** The numbers in the file are 1, 2, 3 and so on, each once. */
  predicate Sequential(entries: seq<Entry>) {
    forall k | 0 <= k < |entries| :: entries[k].number == k + 1
  }

  // ----- The count a restart makes.

  /** A line as the log writes it. */
  predicate LineFits(line: Line, classify: Classify) {
    LineOk(line, classify) && classify(line).Counted? && NEWLINE !in line
  }

  ghost predicate Fits(op: Op, classify: Classify) {
    op.AppendOp? && InFile(op.outcome) ==> forall n: nat :: LineFits(op.render(n), classify)
  }

  function FileOf(entries: seq<Entry>): seq<Byte> {
    if entries == [] then [] else FileOf(entries[..|entries| - 1]) + entries[|entries| - 1].line + [NEWLINE]
  }

  lemma {:induction false} FileSplits(entries: seq<Entry>, classify: Classify)
    requires forall e | e in entries :: LineFits(e.line, classify)
    ensures Open(FileOf(entries)) == []
    ensures (forall line | line in Closed(FileOf(entries)) :: LineOk(line, classify))
    ensures CountOf(Closed(FileOf(entries)), classify) == |entries|
  {
    if entries != [] {
      var n := |entries| - 1;
      var before, line := FileOf(entries[..n]), entries[n].line;
      assert entries[n] in entries;
      FileSplits(entries[..n], classify);
      AddLine(before, line);
      CountOne(Closed(before), line, classify);
    }
  }

  lemma {:induction false} CountOne(lines: seq<Line>, line: Line, classify: Classify)
    ensures CountOf(lines + [line], classify) == CountOf(lines, classify) + if classify(line).Counted? then 1 else 0
  {
    assert (lines + [line])[..|lines|] == lines;
  }

  lemma AddLine(t: seq<Byte>, line: Line)
    requires Open(t) == [] && NEWLINE !in line
    ensures Closed(t + line + [NEWLINE]) == Closed(t) + [line] && Open(t + line + [NEWLINE]) == []
  {
    SplitConcat(t, line);
    assert [] + line == line;
    NoNewlineSplits(line);
    assert Closed(line) == [];
    ByteAdds(t + line, NEWLINE);
  }

  /** However the log's own file is read in blocks at startup, the count is the number of its lines. */
  lemma {:induction false} RestartCounts(entries: seq<Entry>, classify: Classify)
    requires forall e | e in entries :: LineFits(e.line, classify)
    requires classify([]) == Blank
    ensures PlainCount(FileOf(entries), classify) == Ok(|entries|)
  {
    FileSplits(entries, classify);
    ClosedFileCounts(FileOf(entries), |entries|, classify);
  }

  lemma ClosedFileCounts(file: seq<Byte>, count: nat, classify: Classify)
    requires Open(file) == [] && CountOf(Closed(file), classify) == count && classify([]) == Blank
    requires forall line | line in Closed(file) :: LineOk(line, classify)
    ensures PlainCount(file, classify) == Ok(count)
  {
    var none: Line := [];
    assert Split(file) == Closed(file) + [none];
    CountOne(Closed(file), none, classify);
    hide Split, CountOf;
    forall line | line in Split(file) ensures LineOk(line, classify) {
      assert line in Closed(file) || line == none;
    }
  }

  class DecisionLog {
    const classify: Classify
    var counter: nat
    var entries: seq<Entry>

    ghost function State(): Log
      reads this
    {
      Log(counter, entries)
    }

    /** Open an existing file: its lines are counted as they come in blocks. */
    constructor (classify: Classify, entries: seq<Entry>, blocks: seq<seq<Byte>>)
      requires classify([]) == Blank && Joined(blocks) == FileOf(entries)
      requires forall e | e in entries :: LineFits(e.line, classify)
      ensures this.classify == classify && forall before :: State() == Apply(Log(before, entries), Restart)
    {
      this.classify := classify;
      this.entries := entries;
      RestartCounts(entries, classify);
      var count := CountLogLines(blocks, classify);
      this.counter := count.value;
    }

    method Append(render: Render, outcome: Outcome) returns (r: Result<nat, LogError>)
      modifies this
      ensures State() == Apply(old(State()), AppendOp(render, outcome))
      ensures r == if outcome.Lands? then Ok(counter) else Err(LogError)
    {
      if outcome.ClaimRejected? {
        return Err(LogError);
      }
      counter := counter + 1;
      var number := counter;
      if outcome.NotEncodable? {
        return Err(LogError);
      }
      if InFile(outcome) {
        entries := entries + [Entry(number, render(number))];
      }
      if !outcome.Lands? {
        counter := counter - 1;
        return Err(LogError);
      }
      return Ok(number);
    }
  }

  // ----- Runs.

  /** How far the counter is ahead of the file after these steps: an encoding failure adds one, a failed sync takes one. */
  function Drift(start: int, ops: seq<Op>): int {
    if ops == [] then start
    else
      var before := Drift(start, ops[..|ops| - 1]);
      match ops[|ops| - 1]
      case Restart => 0
      case AppendOp(_, outcome) => if outcome.NotEncodable? then before + 1 else if outcome.LandsUnsynced? then before - 1 else before
  }

  lemma {:induction false} DriftIsTheGap(l: Log, ops: seq<Op>)
    ensures ApplyAll(l, ops).counter - |ApplyAll(l, ops).entries| == Drift(l.counter - |l.entries|, ops)
  {
    if ops != [] {
      DriftIsTheGap(l, ops[..|ops| - 1]);
    }
  }

  /** Nothing lands while the counter and the file are apart. */
  predicate LandsInStep(ops: seq<Op>) {
    forall k | 0 <= k < |ops| && ops[k].AppendOp? && InFile(ops[k].outcome) :: Drift(0, ops[..k]) == 0
  }

  lemma {:induction false} LandsInStepFront(ops: seq<Op>)
    requires ops != []
    ensures var n := |ops| - 1;
            LandsInStep(ops) <==>
              LandsInStep(ops[..n]) && (ops[n].AppendOp? && InFile(ops[n].outcome) ==> Drift(0, ops[..n]) == 0)
  {
    var n := |ops| - 1;
    assert forall k | 0 <= k < n :: ops[..n][k] == ops[k] && ops[..n][..k] == ops[..k];
  }

  lemma SequentialSnoc(entries: seq<Entry>, e: Entry)
    ensures Sequential(entries + [e]) <==> Sequential(entries) && e.number == |entries| + 1
  {
    var more := entries + [e];
    assert forall k | 0 <= k < |entries| :: more[k] == entries[k];
    assert more[|entries|] == e;
  }

  /**
   From an empty log, over any appends and restarts: the numbers in the file are exactly 1 to n if and
   only if no line landed while an unencodable record, or a line whose sync failed, had put the
   counter and the file apart.
   */
  lemma {:induction false} SequentialIff(ops: seq<Op>)
    ensures Sequential(ApplyAll(Log(0, []), ops).entries) <==> LandsInStep(ops)
  {
    if ops != [] {
      var n := |ops| - 1;
      SequentialIff(ops[..n]);
      LandsInStepFront(ops);
      DriftIsTheGap(Log(0, []), ops[..n]);
      var before, after := ApplyAll(Log(0, []), ops[..n]), ApplyAll(Log(0, []), ops);
      if |after.entries| > |before.entries| {
        SequentialSnoc(before.entries, after.entries[|before.entries|]);
      }
    }
  }

  /** With whole or missing appends only, the numbers are 1 to n whatever else fails, across any restarts. */
  lemma {:induction false} CleanFailuresKeepSequence(ops: seq<Op>)
    requires forall k | 0 <= k < |ops| && ops[k].AppendOp? :: !ops[k].outcome.NotEncodable? && !ops[k].outcome.LandsUnsynced?
    ensures Drift(0, ops) == 0 && LandsInStep(ops) && Sequential(ApplyAll(Log(0, []), ops).entries)
  {
    if ops != [] {
      CleanFailuresKeepSequence(ops[..|ops| - 1]);
      LandsInStepFront(ops);
    }
    SequentialIff(ops);
  }

  /** An unencodable record leaves a gap, and a line whose sync failed lends its number to the next. */
  lemma GapAndRepeat(render: Render)
    ensures var gap := ApplyAll(Log(0, []), [AppendOp(render, NotEncodable), AppendOp(render, Lands)]);
            gap.entries == [Entry(2, render(2))]
    ensures var repeat := ApplyAll(Log(0, []), [AppendOp(render, LandsUnsynced), AppendOp(render, Lands)]);
            repeat.entries == [Entry(1, render(1)), Entry(1, render(1))]
  {
    var a, b := [AppendOp(render, NotEncodable), AppendOp(render, Lands)], [AppendOp(render, LandsUnsynced), AppendOp(render, Lands)];
    assert a[..1] == [a[0]] && b[..1] == [b[0]] && a[..1][..0] == [] && b[..1][..0] == [];
    assert ApplyAll(Log(0, []), a[..1]) == Log(1, []);
    assert ApplyAll(Log(0, []), b[..1]) == Log(0, [Entry(1, render(1))]);
  }

  /** The lines of a log made by any run are lines a restart counts. */
  lemma {:induction false} OwnLinesFit(ops: seq<Op>, classify: Classify)
    requires forall op | op in ops :: Fits(op, classify)
    ensures forall e | e in ApplyAll(Log(0, []), ops).entries :: LineFits(e.line, classify)
  {
    if ops != [] {
      var n := |ops| - 1;
      assert ops[n] in ops;
      OwnLinesFit(ops[..n], classify);
      var before, after := ApplyAll(Log(0, []), ops[..n]), ApplyAll(Log(0, []), ops);
      forall e | e in after.entries ensures LineFits(e.line, classify) {
        if e !in before.entries {
          assert after.entries[|before.entries|] == e;
        }
      }
    }
  }

  /**
   After any run of appends and restarts, wherever they failed: splitting the file into lines gives the number a
   restart takes up, and the running counter is off from it by exactly the drift.
   */
  lemma {:induction false} RestartCountsAfterARun(ops: seq<Op>, classify: Classify)
    requires forall op | op in ops :: Fits(op, classify)
    requires classify([]) == Blank
    ensures var l := ApplyAll(Log(0, []), ops);
            && PlainCount(FileOf(l.entries), classify) == Ok(Apply(l, Restart).counter)
            && l.counter == Apply(l, Restart).counter + Drift(0, ops)
  {
    hide FileOf, PlainCount, LineFits, Drift, ApplyAll;
    OwnLinesFit(ops, classify);
    RestartCounts(ApplyAll(Log(0, []), ops).entries, classify);
    DriftIsTheGap(Log(0, []), ops);
  }
}
