/** Counting the lines of an existing log in blocks, and the sequence numbers that rest on the count. */
module LogLines {
  import opened Common

  type Byte = b: nat | b < 0x100

  type Line = seq<Byte>

  const NEWLINE: Byte := 0x0a
  const MAX_LOG_STARTUP_BYTES := 1_048_576

  /** What decoding and stripping make of a line. */
  datatype LineKind = NotUtf8 | Blank | Counted

  type Classify = Line -> LineKind

  datatype LogError = LogError

  // ----- The plain way: split the whole file.

  function Split(t: seq<Byte>): (lines: seq<Line>)
    ensures lines != []
  {
    if t == [] then [[]]
    else
      var rest := Split(t[1..]);
      if t[0] == NEWLINE then [[]] + rest else [[t[0]] + rest[0]] + rest[1..]
  }

  predicate LineOk(line: Line, classify: Classify) {
    |line| <= MAX_LOG_STARTUP_BYTES && !classify(line).NotUtf8?
  }

  function CountOf(lines: seq<Line>, classify: Classify): nat {
    if lines == [] then 0
    else CountOf(lines[..|lines| - 1], classify) + (if classify(lines[|lines| - 1]).Counted? then 1 else 0)
  }

  function PlainCount(file: seq<Byte>, classify: Classify): Result<nat, LogError> {
    if forall line | line in Split(file) :: LineOk(line, classify) then Ok(CountOf(Split(file), classify)) else Err(LogError)
  }

  /** The positions of the lines with something on them. */
  function CountedAt(lines: seq<Line>, classify: Classify): set<nat> {
    set k | 0 <= k < |lines| && classify(lines[k]) == Counted
  }

  lemma {:induction false} CountMeans(lines: seq<Line>, classify: Classify)
    ensures CountOf(lines, classify) == |CountedAt(lines, classify)|
  {
    if lines == [] {
      assert CountedAt(lines, classify) == {};
    } else {
      var n := |lines| - 1;
      CountMeans(lines[..n], classify);
      if classify(lines[n]) == Counted {
        assert CountedAt(lines, classify) == CountedAt(lines[..n], classify) + {n};
      } else {
        assert CountedAt(lines, classify) == CountedAt(lines[..n], classify);
      }
    }
  }

  /** A line is refused exactly when it is longer than a mebibyte or is not UTF-8. */
  lemma RefusedLine(line: Line, classify: Classify)
    ensures LineOk(line, classify) <==> |line| <= 1024 * 1024 && classify(line) in {Blank, Counted}
  {}

  /** All lines but the last, which is still open, and the last. */
  function Closed(t: seq<Byte>): seq<Line> { Split(t)[..|Split(t)| - 1] }

  function Open(t: seq<Byte>): Line { Split(t)[|Split(t)| - 1] }

  lemma {:induction false} SplitConcat(a: seq<Byte>, b: seq<Byte>)
    ensures Split(a + b) == Closed(a) + [Open(a) + Split(b)[0]] + Split(b)[1..]
    ensures Closed(a + b) == Closed(a) + Closed(Open(a) + b) && Open(a + b) == Open(Open(a) + b)
    decreases |a|
  {
    hide Split;
    SplitJoins(a, b);
    OpenHasNoNewline(a);
    GlueSplits(Split(a), Split(b));
    SplitJoins(Open(a), b);
    NoNewlineSplits(Open(a));
    GlueSplits(Split(Open(a)), Split(b));
  }

  /** Two splits joined end to end. */
  function Glue(ls: seq<Line>, ms: seq<Line>): seq<Line>
    requires ls != [] && ms != []
  {
    ls[..|ls| - 1] + [ls[|ls| - 1] + ms[0]] + ms[1..]
  }

  /** All but the last line of a joint, and its last. */
  lemma GlueSplits(ls: seq<Line>, ms: seq<Line>)
    requires ls != [] && ms != []
    ensures var g, n, m := Glue(ls, ms), |ls| - 1, |ms| - 1;
            if m == 0 then g[..|g| - 1] == ls[..n] && g[|g| - 1] == ls[n] + ms[0]
            else g[..|g| - 1] == ls[..n] + [ls[n] + ms[0]] + ms[1..m] && g[|g| - 1] == ms[m]
  {}

  lemma GlueCons(c: Byte, ls: seq<Line>, ms: seq<Line>)
    requires ls != [] && ms != []
    ensures [[]] + Glue(ls, ms) == Glue([[]] + ls, ms)
    ensures var g := Glue(ls, ms); [[c] + g[0]] + g[1..] == Glue([[c] + ls[0]] + ls[1..], ms)
  {
    var g, l := Glue(ls, ms), [[c] + ls[0]] + ls[1..];
    if |ls| == 1 {
      assert [c] + (ls[0] + ms[0]) == ([c] + ls[0]) + ms[0];
    } else {
      assert l[..|l| - 1] == [[c] + ls[0]] + ls[1..|ls| - 1];
      assert g[1..] == ls[1..|ls| - 1] + [ls[|ls| - 1] + ms[0]] + ms[1..];
    }
  }

  lemma {:induction false} SplitJoins(a: seq<Byte>, b: seq<Byte>)
    ensures Split(a + b) == Glue(Split(a), Split(b))
    decreases |a|
  {
    if a == [] {
      assert a + b == b;
      assert [] + Split(b)[0] == Split(b)[0];
    } else {
      assert (a + b)[0] == a[0] && (a + b)[1..] == a[1..] + b;
      SplitJoins(a[1..], b);
      GlueCons(a[0], Split(a[1..]), Split(b));
      hide Glue;
    }
  }

  lemma {:induction false} OpenHasNoNewline(t: seq<Byte>)
    ensures NEWLINE !in Open(t)
  {
    if t != [] {
      OpenHasNoNewline(t[1..]);
    }
  }

  lemma {:induction false} NoNewlineSplits(t: seq<Byte>)
    requires NEWLINE !in t
    ensures Split(t) == [t]
  {
    if t != [] {
      assert t == [t[0]] + t[1..];
      NoNewlineSplits(t[1..]);
    }
  }

  lemma {:induction false} CountConcat(a: seq<Line>, b: seq<Line>, classify: Classify)
    ensures CountOf(a + b, classify) == CountOf(a, classify) + CountOf(b, classify)
  {
    if b == [] {
      assert a + b == a;
    } else {
      CountConcat(a, b[..|b| - 1], classify);
      assert (a + b)[..|a + b| - 1] == a + b[..|b| - 1];
    }
  }

  // ----- The fast way: block by block.

  function Joined(blocks: seq<seq<Byte>>): seq<Byte> {
    if blocks == [] then [] else Joined(blocks[..|blocks| - 1]) + blocks[|blocks| - 1]
  }

  lemma {:induction false} JoinedSplits(blocks: seq<seq<Byte>>, k: nat)
    requires k <= |blocks|
    ensures Joined(blocks) == Joined(blocks[..k]) + Joined(blocks[k..])
  {
    if k == |blocks| {
      assert blocks[..k] == blocks && blocks[k..] == [];
    } else {
      var n := |blocks| - 1;
      JoinedSplits(blocks[..n], k);
      assert blocks[..n][..k] == blocks[..k] && blocks[..n][k..] == blocks[k..][..n - k];
      assert blocks[k..][|blocks[k..]| - 1] == blocks[n];
    }
  }

  /** A closed line stays a line, and an open line only grows, whatever follows. */
  lemma BadLineStays(sofar: seq<Byte>, rest: seq<Byte>, classify: Classify)
    requires (exists line | line in Closed(sofar) :: !LineOk(line, classify)) || |Open(sofar)| > MAX_LOG_STARTUP_BYTES
    ensures PlainCount(sofar + rest, classify) == Err(LogError)
  {
    SplitConcat(sofar, rest);
    var lines := Split(sofar + rest);
    if line :| line in Closed(sofar) && !LineOk(line, classify) {
      assert line in lines;
    } else {
      var long := Open(sofar) + Split(rest)[0];
      assert lines[|Closed(sofar)|] == long && !LineOk(long, classify);
      assert long in lines;
    }
  }

  method LineCounts(line: Line, classify: Classify) returns (r: Result<nat, LogError>)
    ensures r == if LineOk(line, classify) then Ok(if classify(line).Counted? then 1 else 0) else Err(LogError)
  {
    if |line| > MAX_LOG_STARTUP_BYTES {
      return Err(LogError);
    }
    if classify(line).NotUtf8? {
      return Err(LogError);
    }
    return Ok(if classify(line).Counted? then 1 else 0);
  }

  /** What is known after reading `t`: the closed lines are good and counted, the open one is not too long. */
  ghost predicate ReadUpTo(t: seq<Byte>, count: nat, tail: Line, classify: Classify) {
    && tail == Open(t) && |tail| <= MAX_LOG_STARTUP_BYTES
    && (forall line | line in Closed(t) :: LineOk(line, classify))
    && count == CountOf(Closed(t), classify)
  }

  ghost predicate BadAlready(t: seq<Byte>, classify: Classify) {
    (exists line | line in Closed(t) :: !LineOk(line, classify)) || |Open(t)| > MAX_LOG_STARTUP_BYTES
  }

  method CountLines(parts: seq<Line>, classify: Classify) returns (r: Result<nat, LogError>)
    ensures r.Ok? ==> (forall line | line in parts :: LineOk(line, classify)) && r.value == CountOf(parts, classify)
    ensures r.Err? ==> exists line | line in parts :: !LineOk(line, classify)
  {
    var count := 0;
    for j := 0 to |parts|
      invariant forall line | line in parts[..j] :: LineOk(line, classify)
      invariant count == CountOf(parts[..j], classify)
    {
      var one := LineCounts(parts[j], classify);
      assert parts[..j + 1][..j] == parts[..j];
      if one.Err? {
        assert parts[j] in parts;
        return Err(LogError);
      }
      count := count + one.value;
    }
    assert parts[..|parts|] == parts;
    return Ok(count);
  }

  method CountBlock(ghost before: seq<Byte>, count: nat, tail: Line, block: seq<Byte>, classify: Classify)
    returns (r: Result<(nat, Line), LogError>)
    requires ReadUpTo(before, count, tail, classify)
    ensures r.Ok? ==> ReadUpTo(before + block, r.value.0, r.value.1, classify)
    ensures r.Err? ==> BadAlready(before + block, classify)
  {
    var data := tail + block;
    SplitConcat(before, block);
    CountConcat(Closed(before), Closed(data), classify);
    hide Split, CountOf;
    if NEWLINE !in data {
      NoNewlineSplits(data);
      if |data| > MAX_LOG_STARTUP_BYTES {
        return Err(LogError);
      }
      NothingCounted(classify);
      assert Closed(data) == [];
      return Ok((count, data));
    }
    var parts := SplitLines(data);
    var open := parts[|parts| - 1];
    parts := parts[..|parts| - 1];
    if |open| > MAX_LOG_STARTUP_BYTES {
      return Err(LogError);
    }
    var counted := CountLines(parts, classify);
    if counted.Err? {
      var line :| line in parts && !LineOk(line, classify);
      assert line in Closed(before + block);
      return Err(LogError);
    }
    return Ok((count + counted.value, open));
  }

  lemma NothingCounted(classify: Classify)
    ensures CountOf([], classify) == 0
  {}

  /** However the file is cut into blocks, the count and the refusals are those of the plain split. */
  method CountLogLines(blocks: seq<seq<Byte>>, classify: Classify) returns (r: Result<nat, LogError>)
    requires classify([]) == Blank
    ensures r == PlainCount(Joined(blocks), classify)
  {
    var count, tail := 0, [];
    for k := 0 to |blocks|
      invariant ReadUpTo(Joined(blocks[..k]), count, tail, classify)
    {
      assert blocks[..k + 1][..k] == blocks[..k];
      assert Joined(blocks[..k + 1]) == Joined(blocks[..k]) + blocks[k];
      var next := CountBlock(Joined(blocks[..k]), count, tail, blocks[k], classify);
      if next.Err? {
        JoinedSplits(blocks, k + 1);
        BadLineStays(Joined(blocks[..k + 1]), Joined(blocks[k + 1..]), classify);
        return Err(LogError);
      }
      count, tail := next.value.0, next.value.1;
    }
    assert blocks[..|blocks|] == blocks;
    r := CountTail(Joined(blocks), count, tail, classify);
  }

  lemma LastLineCounts(file: seq<Byte>, count: nat, tail: Line, classify: Classify)
    requires ReadUpTo(file, count, tail, classify)
    ensures PlainCount(file, classify) ==
              if LineOk(tail, classify) then Ok(count + if classify(tail).Counted? then 1 else 0) else Err(LogError)
  {
    OneLineCounts(tail, classify);
    CountConcat(Closed(file), [tail], classify);
    assert Split(file) == Closed(file) + [tail];
    hide Split, Closed, Open, CountOf, LineOk;
    assert forall line :: line in Split(file) <==> line in Closed(file) || line == tail;
  }

  lemma OneLineCounts(line: Line, classify: Classify)
    ensures CountOf([line], classify) == if classify(line).Counted? then 1 else 0
  {
    assert [line][..0] == [];
  }

  method CountTail(ghost file: seq<Byte>, count: nat, tail: Line, classify: Classify) returns (r: Result<nat, LogError>)
    requires ReadUpTo(file, count, tail, classify) && classify([]) == Blank
    ensures r == PlainCount(file, classify)
  {
    LastLineCounts(file, count, tail, classify);
    hide PlainCount, ReadUpTo;
    if tail != [] {
      var last := LineCounts(tail, classify);
      if last.Err? {
        return Err(LogError);
      }
      return Ok(count + last.value);
    }
    return Ok(count);
  }

  lemma ByteAdds(t: seq<Byte>, c: Byte)
    ensures Closed(t + [c]) == Closed(t) + if c == NEWLINE then [Open(t)] else []
    ensures Open(t + [c]) == if c == NEWLINE then [] else Open(t) + [c]
  {
    SplitJoins(t, [c]);
    var none: Line := [];
    assert [c][1..] == none && Split(none) == [none] && [c] + none == [c];
    assert Split([c]) == if c == NEWLINE then [none] + [none] else [[c] + none] + [none][1..];
    assert [none][1..] == [];
    var g := Split(t + [c]);
    if c == NEWLINE {
      assert Open(t) + none == Open(t);
      assert g == (Closed(t) + [Open(t)]) + [none];
    } else {
      assert g == Closed(t) + [Open(t) + [c]];
    }
  }

  /** The library's split, as a loop. */
  method SplitLines(t: seq<Byte>) returns (lines: seq<Line>)
    ensures lines == Split(t)
  {
    lines := [];
    var line: Line := [];
    for k := 0 to |t|
      invariant lines == Closed(t[..k]) && line == Open(t[..k])
    {
      assert t[..k + 1] == t[..k] + [t[k]];
      ByteAdds(t[..k], t[k]);
      if t[k] == NEWLINE {
        lines := lines + [line];
        line := [];
      } else {
        line := line + [t[k]];
      }
    }
    assert t[..|t|] == t;
    lines := lines + [line];
  }
}
