/** Checking an agent's claim against the host's decision records. */
module Claims {
  import opened Common

  datatype SeqField = NotANumber | Number(n: int)

  /** One entry of a record's list of checks. */
  datatype Item = NotMapping | Item(name: Option<string>, outcome: Option<string>, digest: Option<string>)

  datatype Rec = Rec(
    decision: Option<string>,
    sessionId: Option<string>,
    seqNo: SeqField,
    toolName: Option<string>,
    reasonCode: Option<string>,
    requestId: Option<string>,
    checks: Option<seq<Item>>)

  const SESSION_OPEN := "SESSION_OPEN"
  const SESSION_CLOSE := "SESSION_CLOSE"

  predicate IsRegistryCall(item: Item) {
    item.Item? && item.name == Some("registry_tool") && item.outcome in {Some("entered"), Some("raised")}
  }

  /** The record shows that the tool was admitted or entered. */
  predicate ShowsCall(r: Rec, tool: string) {
    && r.toolName == Some(tool)
    && (|| r.decision in {Some("PRE_ENTRY"), Some("ALLOW")}
        || (r.decision == Some("DENY") && r.reasonCode == Some("tool_failed"))
        || (r.checks.Some? && exists k | 0 <= k < |r.checks.value| :: IsRegistryCall(r.checks.value[k])))
  }

  // ----- The lines the host writes around a call.

  /** What came of a call of a tool. */
  datatype CallEnd =
    | NotAdmitted(reason: string)        // denied before the line in front of the tool
    | Denied(reason: string)             // admitted, not entered
    | Failed                             // the tool raised, timed out or sent too much
    | Returned(digest: Option<string>)   // None for a result that is not JSON

  function Check(name: string, outcome: string): Item { Item(Some(name), Some(outcome), None) }

  function ResultLine(digest: Option<string>): Item {
    if digest.Some? then Item(Some("result"), Some("returned"), digest) else Check("result", "unencodable")
  }

  /** The line in front of the tool. */
  function PreEntryLine(session: string, n: int, tool: string, id: string): Rec {
    Rec(Some("PRE_ENTRY"), Some(session), Number(n), Some(tool), Some("allowed"), Some(id), Some([Check("halt_file", "pass")]))
  }

  /** The last line of a call. */
  function LastLine(session: string, n: int, tool: string, id: string, end: CallEnd): Rec {
    match end
    case NotAdmitted(reason) =>
      Rec(Some("DENY"), Some(session), Number(n), Some(tool), Some(reason), Some(id), Some([Check("evaluate", "DENY")]))
    case Denied(reason) =>
      Rec(Some("DENY"), Some(session), Number(n), Some(tool), Some(reason), Some(id), Some([Check("registry_tool", "not_entered")]))
    case Failed =>
      Rec(Some("DENY"), Some(session), Number(n), Some(tool), Some("tool_failed"), Some(id), Some([Check("registry_tool", "raised")]))
    case Returned(digest) =>
      Rec(Some("ALLOW"), Some(session), Number(n), Some(tool), Some("allowed"), Some(id),
          Some([Check("halt_file", "pass"), Check("registry_tool", "entered"), ResultLine(digest)]))
  }

  /**
   The line in front of the tool shows the call, and so does each last line of a call that went on to the tool;
   no line shows a call of another tool, and a denial from before the tool shows none. A tool that failed or
   returned is shown by its last line's list of checks alone, whatever its decision says.
   */
  lemma HostLinesShowTheCall(session: string, n: int, tool: string, id: string, end: CallEnd, asked: string)
    requires end.NotAdmitted? || end.Denied? ==> end.reason != "tool_failed"
    ensures ShowsCall(PreEntryLine(session, n, tool, id), asked) <==> asked == tool
    ensures ShowsCall(LastLine(session, n, tool, id, end), asked) <==> asked == tool && (end.Failed? || end.Returned?)
    ensures ShowsCall(LastLine(session, n, tool, id, end).(decision := None), asked) <==> asked == tool && (end.Failed? || end.Returned?)
    ensures ShowsCall(LastLine(session, n, tool, id, end).(checks := None), asked) <==> asked == tool && (end.Failed? || end.Returned?)
  {
    var r := LastLine(session, n, tool, id, end);
    if end.Failed? {
      assert IsRegistryCall(r.checks.value[0]);
    } else if end.Returned? {
      assert IsRegistryCall(r.checks.value[1]);
    }
  }

  // ----- Absence: what the records must say, whatever their order.

  datatype AbsenceVerdict = Unverifiable | Contradicted(requestId: Option<string>) | Consistent

  predicate IsMarker(r: Rec, session: string, decision: string) {
    r.decision == Some(decision) && r.sessionId == Some(session)
  }

  predicate NumberedMarker(r: Rec, session: string, decision: string, n: int) {
    IsMarker(r, session, decision) && r.seqNo == Number(n) && n >= 1
  }

  ghost predicate SoleMarker(m: multiset<Rec>, session: string, decision: string, n: int) {
    exists r :: NumberedMarker(r, session, decision, n) && m[r] == 1 && forall q | q in m && IsMarker(q, session, decision) :: q == r
  }

  /** Exactly one record has this sequence number. */
  ghost predicate OneAt(m: multiset<Rec>, n: int, r: Rec) {
    r.seqNo == Number(n) && m[r] == 1 && forall q | q in m && q.seqNo == Number(n) :: q == r
  }

  ghost predicate Present(m: multiset<Rec>, n: int) {
    exists r :: OneAt(m, n, r)
  }

  /** The session's one open line and one close line, and every number from the first to the second exactly once. */
  ghost predicate Spans(m: multiset<Rec>, session: string, start: int, end: int) {
    && SoleMarker(m, session, SESSION_OPEN, start)
    && SoleMarker(m, session, SESSION_CLOSE, end)
    && start < end
    && forall n | start <= n <= end :: Present(m, n)
  }

  /** The session's own call of the tool, between the two lines. */
  predicate CallAt(r: Rec, session: string, tool: string) {
    r.sessionId == Some(session) && ShowsCall(r, tool)
  }

  ghost predicate CallIn(m: multiset<Rec>, n: int, session: string, tool: string) {
    exists r :: OneAt(m, n, r) && CallAt(r, session, tool)
  }

  /** The verdict, as a rule on the records without an order. */
  ghost predicate AbsenceRule(m: multiset<Rec>, session: string, tool: string, v: AbsenceVerdict) {
    match v
    case Unverifiable => forall start, end :: !Spans(m, session, start, end)
    case Consistent => exists start, end :: Spans(m, session, start, end) && forall n | start <= n <= end :: !CallIn(m, n, session, tool)
    case Contradicted(id) =>
      exists start, end, n, r ::
        && Spans(m, session, start, end) && start <= n <= end
        && OneAt(m, n, r) && CallAt(r, session, tool) && r.requestId == id
        && forall k | start <= k < n :: !CallIn(m, k, session, tool)
  }

  // ----- The loops.

  lemma PrefixGrows(rs: seq<Rec>, k: nat)
    requires k < |rs|
    ensures multiset(rs[..k + 1]) == multiset(rs[..k]) + multiset{rs[k]}
  {
    assert rs[..k + 1] == rs[..k] + [rs[k]];
  }

  lemma PrefixIn(rs: seq<Rec>, k: nat)
    requires k <= |rs|
    ensures multiset(rs[..k]) <= multiset(rs)
  {
    assert rs == rs[..k] + rs[k..];
  }

  lemma NoSoleMarker(m: multiset<Rec>, session: string, decision: string, a: Rec, b: Rec)
    requires a in m && b in m && IsMarker(a, session, decision) && IsMarker(b, session, decision)
    requires a != b || m[a] > 1 || !a.seqNo.Number? || a.seqNo.n < 1
    ensures forall n :: !SoleMarker(m, session, decision, n)
  {}

  method MarkerSeq(rs: seq<Rec>, session: string, decision: string) returns (found: Option<int>)
    ensures found.Some? ==> SoleMarker(multiset(rs), session, decision, found.value)
    ensures found.None? ==> forall n :: !SoleMarker(multiset(rs), session, decision, n)
  {
    found := None;
    ghost var at := 0;
    for k := 0 to |rs|
      invariant found.None? ==> forall q | q in multiset(rs[..k]) :: !IsMarker(q, session, decision)
      invariant found.Some? ==> 0 <= at < k && NumberedMarker(rs[at], session, decision, found.value) && multiset(rs[..k])[rs[at]] == 1
      invariant found.Some? ==> forall q | q in multiset(rs[..k]) && IsMarker(q, session, decision) :: q == rs[at]
    {
      PrefixGrows(rs, k);
      if !IsMarker(rs[k], session, decision) {
        continue;
      }
      if !rs[k].seqNo.Number? || rs[k].seqNo.n < 1 || found.Some? {
        PrefixIn(rs, k + 1);
        NoSoleMarker(multiset(rs), session, decision, rs[k], if found.Some? then rs[at] else rs[k]);
        return None;
      }
      found := Some(rs[k].seqNo.n);
      at := k;
    }
    assert rs[..|rs|] == rs;
  }

  /** What the dictionary of numbers knows after some records. */
  ghost predicate Indexed(m: multiset<Rec>, bySeq: map<int, Rec>, duplicated: set<int>) {
    && (forall n | n in bySeq :: n >= 1 && bySeq[n] in m && bySeq[n].seqNo == Number(n))
    && (forall r | r in m && r.seqNo.Number? && r.seqNo.n >= 1 :: r.seqNo.n in bySeq)
    && (forall n | n in bySeq && n !in duplicated :: OneAt(m, n, bySeq[n]))
    && (forall n | n in duplicated :: n in bySeq && !Present(m, n))
  }

  lemma OtherNumber(m: multiset<Rec>, r: Rec, n: int)
    requires r.seqNo != Number(n)
    ensures forall x :: OneAt(m + multiset{r}, n, x) <==> OneAt(m, n, x)
    ensures Present(m + multiset{r}, n) <==> Present(m, n)
  {
    var m' := m + multiset{r};
    forall x ensures OneAt(m', n, x) <==> OneAt(m, n, x) {
      assert forall q: Rec | q.seqNo == Number(n) :: m'[q] == m[q];
    }
  }

  lemma SecondCopy(m: multiset<Rec>, r: Rec, n: int, q: Rec)
    requires r.seqNo == Number(n) && q in m && q.seqNo == Number(n)
    ensures !Present(m + multiset{r}, n)
  {
    var m' := m + multiset{r};
    forall x ensures !OneAt(m', n, x) {
      assert q in m' && r in m' && (q == r ==> m'[r] >= 2);
    }
  }

  lemma FirstCopy(m: multiset<Rec>, r: Rec, n: int)
    requires r.seqNo == Number(n) && forall q | q in m :: q.seqNo != Number(n)
    ensures OneAt(m + multiset{r}, n, r)
  {}

  lemma IndexStep(m: multiset<Rec>, bySeq: map<int, Rec>, duplicated: set<int>, r: Rec)
    requires Indexed(m, bySeq, duplicated)
    ensures var m' := m + multiset{r};
            if !r.seqNo.Number? || r.seqNo.n < 1 then Indexed(m', bySeq, duplicated)
            else if r.seqNo.n in bySeq then Indexed(m', bySeq, duplicated + {r.seqNo.n})
            else Indexed(m', bySeq[r.seqNo.n := r], duplicated)
  {
    hide OneAt, Present;
    forall n | n >= 1 && r.seqNo != Number(n)
      ensures forall x :: OneAt(m + multiset{r}, n, x) <==> OneAt(m, n, x)
      ensures Present(m + multiset{r}, n) <==> Present(m, n)
    {
      OtherNumber(m, r, n);
    }
    if r.seqNo.Number? && r.seqNo.n >= 1 {
      if r.seqNo.n in bySeq {
        SecondCopy(m, r, r.seqNo.n, bySeq[r.seqNo.n]);
      } else {
        FirstCopy(m, r, r.seqNo.n);
      }
    }
  }

  method IndexBySeq(rs: seq<Rec>) returns (bySeq: map<int, Rec>, duplicated: set<int>)
    ensures Indexed(multiset(rs), bySeq, duplicated)
  {
    bySeq, duplicated := map[], {};
    for k := 0 to |rs|
      invariant Indexed(multiset(rs[..k]), bySeq, duplicated)
    {
      PrefixGrows(rs, k);
      IndexStep(multiset(rs[..k]), bySeq, duplicated, rs[k]);
      if !rs[k].seqNo.Number? || rs[k].seqNo.n < 1 {
        continue;
      }
      var number := rs[k].seqNo.n;
      if number in bySeq {
        duplicated := duplicated + {number};
        continue;
      }
      bySeq := bySeq[number := rs[k]];
    }
    assert rs[..|rs|] == rs;
  }

  method CollectSpan(ghost m: multiset<Rec>, bySeq: map<int, Rec>, duplicated: set<int>, start: int, end: int)
    returns (span: Option<seq<Rec>>)
    requires Indexed(m, bySeq, duplicated) && 1 <= start < end
    ensures span.None? ==> exists n | start <= n <= end :: !Present(m, n)
    ensures span.Some? ==> |span.value| == end - start + 1 && forall k | 0 <= k < |span.value| :: OneAt(m, start + k, span.value[k])
  {
    var found: seq<Rec> := [];
    for number := start to end + 1
      invariant |found| == number - start
      invariant forall k | 0 <= k < |found| :: OneAt(m, start + k, found[k])
    {
      if number in duplicated || number !in bySeq {
        NotIndexed(m, bySeq, duplicated, number);
        return None;
      }
      found := found + [bySeq[number]];
    }
    return Some(found);
  }

  lemma NotIndexed(m: multiset<Rec>, bySeq: map<int, Rec>, duplicated: set<int>, n: int)
    requires Indexed(m, bySeq, duplicated) && n >= 1 && (n in duplicated || n !in bySeq)
    ensures !Present(m, n)
  {
    if n !in bySeq {
      assert forall r | r in m :: r.seqNo != Number(n);
    }
  }

  method SessionSpan(rs: seq<Rec>, session: string) returns (span: Option<seq<Rec>>, ghost start: int, ghost end: int)
    ensures span.None? ==> forall s, e :: !Spans(multiset(rs), session, s, e)
    ensures span.Some? ==>
              && Spans(multiset(rs), session, start, end) && |span.value| == end - start + 1
              && forall k | 0 <= k < |span.value| :: OneAt(multiset(rs), start + k, span.value[k])
  {
    ghost var m := multiset(rs);
    var first := MarkerSeq(rs, session, SESSION_OPEN);
    var last := MarkerSeq(rs, session, SESSION_CLOSE);
    start, end := 0, 0;
    if first.None? || last.None? {
      return None, 0, 0;
    }
    OnlyMarkers(m, session, first.value, last.value);
    if first.value >= last.value {
      return None, 0, 0;
    }
    start, end := first.value, last.value;
    var bySeq, duplicated := IndexBySeq(rs);
    span := CollectSpan(m, bySeq, duplicated, first.value, last.value);
    if span.None? {
      return None, 0, 0;
    }
    var lines := span.value;
    forall n | start <= n <= end ensures Present(m, n) {
      assert OneAt(m, start + (n - start), lines[n - start]);
    }
    EndsBelong(m, session, start, end, lines[0], lines[|lines| - 1]);
    if lines[0].sessionId != Some(session) || lines[|lines| - 1].sessionId != Some(session) {
      assert false;
    }
  }

  /** Two spans of one session are the same span. */
  lemma OnlyMarkers(m: multiset<Rec>, session: string, start: int, end: int)
    requires SoleMarker(m, session, SESSION_OPEN, start) && SoleMarker(m, session, SESSION_CLOSE, end)
    ensures forall s, e | Spans(m, session, s, e) :: s == start && e == end
  {}

  /** The first and last line of a span are the session's own: the source's last check never fails. */
  lemma EndsBelong(m: multiset<Rec>, session: string, start: int, end: int, a: Rec, b: Rec)
    requires SoleMarker(m, session, SESSION_OPEN, start) && SoleMarker(m, session, SESSION_CLOSE, end)
    requires OneAt(m, start, a) && OneAt(m, end, b)
    ensures a.sessionId == Some(session) && b.sessionId == Some(session)
  {}

  method VerifyAbsence(rs: seq<Rec>, session: string, tool: string) returns (v: AbsenceVerdict)
    ensures AbsenceRule(multiset(rs), session, tool, v)
  {
    ghost var m := multiset(rs);
    var span, start, end := SessionSpan(rs, session);
    if span.None? {
      return Unverifiable;
    }
    var lines := span.value;
    for k := 0 to |lines|
      invariant forall j | 0 <= j < k :: !CallAt(lines[j], session, tool)
    {
      if CallAt(lines[k], session, tool) {
        forall n | start <= n < start + k ensures !CallIn(m, n, session, tool) {
          assert OneAt(m, start + (n - start), lines[n - start]);
        }
        assert OneAt(m, start + k, lines[k]);
        return Contradicted(lines[k].requestId);
      }
    }
    forall n | start <= n <= end ensures !CallIn(m, n, session, tool) {
      assert OneAt(m, start + (n - start), lines[n - start]);
    }
    return Consistent;
  }

  // ----- What the rule means.

  lemma OneSpan(m: multiset<Rec>, session: string, s: int, e: int, s': int, e': int)
    requires Spans(m, session, s, e) && Spans(m, session, s', e')
    ensures s == s' && e == e'
  {}

  /** The records decide the verdict, and their order does not matter. */
  lemma RuleDetermines(m: multiset<Rec>, session: string, tool: string, v: AbsenceVerdict, w: AbsenceVerdict)
    requires AbsenceRule(m, session, tool, v) && AbsenceRule(m, session, tool, w)
    ensures v == w
  {
    if v.Contradicted? && w.Contradicted? {
      var s, e, n, r :| Spans(m, session, s, e) && s <= n <= e && OneAt(m, n, r) && CallAt(r, session, tool) && r.requestId == v.requestId
                        && forall k | s <= k < n :: !CallIn(m, k, session, tool);
      var s', e', n', r' :| Spans(m, session, s', e') && s' <= n' <= e' && OneAt(m, n', r') && CallAt(r', session, tool)
                            && r'.requestId == w.requestId && forall k | s' <= k < n' :: !CallIn(m, k, session, tool);
      OneSpan(m, session, s, e, s', e');
      assert CallIn(m, n, session, tool) && CallIn(m, n', session, tool);
      assert n == n' && r == r';
    } else if v.Contradicted? || w.Contradicted? {
      OneVerdict(m, session, tool, if v.Contradicted? then v else w, if v.Contradicted? then w else v);
    }
  }

  lemma OneVerdict(m: multiset<Rec>, session: string, tool: string, v: AbsenceVerdict, w: AbsenceVerdict)
    requires AbsenceRule(m, session, tool, v) && v.Contradicted? && !w.Contradicted?
    ensures !AbsenceRule(m, session, tool, w)
  {
    var s, e, n, r :| Spans(m, session, s, e) && s <= n <= e && OneAt(m, n, r) && CallAt(r, session, tool) && r.requestId == v.requestId
                      && forall k | s <= k < n :: !CallIn(m, k, session, tool);
    assert CallIn(m, n, session, tool);
    forall s', e' | Spans(m, session, s', e') ensures s' == s && e' == e { OneSpan(m, session, s, e, s', e'); }
  }

  /** A span of a part of the records is the span of all of them, line by line. */
  lemma PartSpans(part: multiset<Rec>, all: multiset<Rec>, session: string, s: int, e: int, s': int, e': int)
    requires part <= all && Spans(all, session, s, e) && Spans(part, session, s', e')
    ensures s == s' && e == e'
    ensures forall n, r | s <= n <= e :: OneAt(part, n, r) <==> OneAt(all, n, r)
  {
    MarkerOfPart(part, all, session, SESSION_OPEN, s, s');
    MarkerOfPart(part, all, session, SESSION_CLOSE, e, e');
    forall n, r | s <= n <= e ensures OneAt(part, n, r) <==> OneAt(all, n, r) {
      LineOfPart(part, all, n, r);
    }
  }

  lemma MarkerOfPart(part: multiset<Rec>, all: multiset<Rec>, session: string, decision: string, n: int, n': int)
    requires part <= all && SoleMarker(all, session, decision, n) && SoleMarker(part, session, decision, n')
    ensures n == n'
  {
    var r :| NumberedMarker(r, session, decision, n') && part[r] == 1 && forall q | q in part && IsMarker(q, session, decision) :: q == r;
    assert r in all;
  }

  lemma LineOfPart(part: multiset<Rec>, all: multiset<Rec>, n: int, r: Rec)
    requires part <= all && Present(all, n) && Present(part, n)
    ensures OneAt(part, n, r) <==> OneAt(all, n, r)
  {
    var a :| OneAt(all, n, a);
    var p :| OneAt(part, n, p);
    assert p in all;
    assert p == a;
  }

  /** Deleting records from a log that settles a claim leaves the verdict or makes it unverifiable: it never flips it. */
  lemma DeletionNeverFlips(part: multiset<Rec>, all: multiset<Rec>, session: string, tool: string, v: AbsenceVerdict, w: AbsenceVerdict)
    requires part <= all && AbsenceRule(all, session, tool, v) && !v.Unverifiable? && AbsenceRule(part, session, tool, w)
    ensures w == v || w.Unverifiable?
  {
    if !w.Unverifiable? {
      var s, e :| Spans(all, session, s, e);
      var s', e' :| Spans(part, session, s', e');
      PartSpans(part, all, session, s, e, s', e');
      forall n | s <= n <= e ensures CallIn(part, n, session, tool) <==> CallIn(all, n, session, tool) {}
      RuleCarries(part, all, session, tool, s, e, w);
      RuleDetermines(all, session, tool, v, w);
    }
  }

  lemma RuleCarries(part: multiset<Rec>, all: multiset<Rec>, session: string, tool: string, s: int, e: int, w: AbsenceVerdict)
    requires Spans(all, session, s, e) && Spans(part, session, s, e) && !w.Unverifiable? && AbsenceRule(part, session, tool, w)
    requires forall n, r | s <= n <= e :: OneAt(part, n, r) <==> OneAt(all, n, r)
    requires forall n | s <= n <= e :: CallIn(part, n, session, tool) <==> CallIn(all, n, session, tool)
    ensures AbsenceRule(all, session, tool, w)
  {
    forall s', e' | Spans(part, session, s', e') ensures s' == s && e' == e { OneSpan(part, session, s, e, s', e'); }
    if w.Contradicted? {
      var n, r :| s <= n <= e && OneAt(part, n, r) && CallAt(r, session, tool) && r.requestId == w.requestId
                  && forall k | s <= k < n :: !CallIn(part, k, session, tool);
      assert OneAt(all, n, r);
    }
  }

  /** A log as the host writes it: every number once, and one open and one close line a session. */
  ghost predicate HostShaped(log: multiset<Rec>) {
    && (forall r | r in log :: log[r] == 1 && r.seqNo.Number? && r.seqNo.n >= 1)
    && (forall a, b | a in log && b in log && a.seqNo == b.seqNo :: a == b)
    && (forall a, b, session | a in log && b in log && IsMarker(a, session, SESSION_OPEN) && IsMarker(b, session, SESSION_OPEN) :: a == b)
    && (forall a, b, session | a in log && b in log && IsMarker(a, session, SESSION_CLOSE)
          && IsMarker(b, session, SESSION_CLOSE) :: a == b)
  }

  /** Between the session's open line and its close line. */
  predicate Within(r: Rec, open: Rec, close: Rec) {
    r.seqNo.Number? && open.seqNo.Number? && close.seqNo.Number? && open.seqNo.n <= r.seqNo.n <= close.seqNo.n
  }

  /**
   A consistent verdict on any part of a host's log is true of the whole log: the session has its open and
   close line in it, and no line between them shows the session calling the tool.
   */
  lemma ConsistentIsTrueOfTheLog(part: multiset<Rec>, log: multiset<Rec>, session: string, tool: string)
    requires part <= log && HostShaped(log) && AbsenceRule(part, session, tool, Consistent)
    ensures exists open, close ::
              && open in log && close in log && IsMarker(open, session, SESSION_OPEN) && IsMarker(close, session, SESSION_CLOSE)
              && forall r | r in log && Within(r, open, close) :: !CallAt(r, session, tool)
  {
    var s, e :| Spans(part, session, s, e) && forall n | s <= n <= e :: !CallIn(part, n, session, tool);
    var open :| NumberedMarker(open, session, SESSION_OPEN, s) && part[open] == 1;
    var close :| NumberedMarker(close, session, SESSION_CLOSE, e) && part[close] == 1;
    forall r | r in log && Within(r, open, close) ensures !CallAt(r, session, tool) {
      assert Present(part, r.seqNo.n);
      var p :| OneAt(part, r.seqNo.n, p);
      assert p in log && p == r;
      assert !CallIn(part, r.seqNo.n, session, tool);
    }
    assert open in log && close in log;
  }

  // ----- On the log of a host, every settled verdict is the right one.

  /** What a host writes down, in the order it writes it. */
  datatype HostEvent =
    | Opened(session: string)
    | Closed(session: string)
    | Admitted(session: string, tool: string, id: string)
    | Answered(session: string, tool: string, id: string, end: CallEnd)

  function LineOf(e: HostEvent, n: int): Rec {
    match e
    case Opened(session) =>
      Rec(Some("SESSION_OPEN"), Some(session), Number(n), None, Some("session_open"), Some("session-open"), Some([]))
    case Closed(session) =>
      Rec(Some("SESSION_CLOSE"), Some(session), Number(n), None, Some("session_close"), Some("session-close"), Some([]))
    case Admitted(session, tool, id) => PreEntryLine(session, n, tool, id)
    case Answered(session, tool, id, end) => LastLine(session, n, tool, id, end)
  }

  /** The log: numbered from one. */
  function Records(es: seq<HostEvent>): (rs: seq<Rec>)
    ensures |rs| == |es| && forall k | 0 <= k < |es| :: rs[k] == LineOf(es[k], k + 1)
  {
    seq(|es|, k requires 0 <= k < |es| => LineOf(es[k], k + 1))
  }

  /** A session is opened once and closed once, and only a failed tool is answered as one. */
  predicate FairHost(es: seq<HostEvent>) {
    && (forall i, j | 0 <= i < j < |es| && es[i] == es[j] :: !es[i].Opened? && !es[i].Closed?)
    && (forall i | 0 <= i < |es| && es[i].Answered? && (es[i].end.NotAdmitted? || es[i].end.Denied?) :: es[i].end.reason != "tool_failed")
  }

  /** The session's own call of the tool: admitted, or answered after the tool was reached. */
  predicate CallsTool(e: HostEvent, session: string, tool: string) {
    || (e.Admitted? && e.session == session && e.tool == tool)
    || (e.Answered? && e.session == session && e.tool == tool && (e.end.Failed? || e.end.Returned?))
  }

  lemma LineCounts(rs: seq<Rec>, k: nat)
    requires k < |rs| && forall i | 0 <= i < |rs| && i != k :: rs[i] != rs[k]
    ensures multiset(rs)[rs[k]] == 1
  {
    assert rs == rs[..k] + [rs[k]] + rs[k + 1..];
    assert rs[k] !in multiset(rs[..k]) && rs[k] !in multiset(rs[k + 1..]);
  }

  lemma LineAt(es: seq<HostEvent>, k: nat)
    requires k < |es|
    ensures OneAt(multiset(Records(es)), k + 1, LineOf(es[k], k + 1))
  {
    var rs := Records(es);
    LineCounts(rs, k);
    forall q: Rec | q in multiset(rs) && q.seqNo == Number(k + 1) ensures q == rs[k] {
      assert q in rs;
    }
  }

  lemma MarkerOf(e: HostEvent, n: int, session: string)
    ensures IsMarker(LineOf(e, n), session, SESSION_OPEN) <==> e == Opened(session)
    ensures IsMarker(LineOf(e, n), session, SESSION_CLOSE) <==> e == Closed(session)
    ensures LineOf(e, n).seqNo == Number(n)
  {
    assert SESSION_OPEN != SESSION_CLOSE by { assert SESSION_OPEN[8] != SESSION_CLOSE[8]; }
    assert "PRE_ENTRY"[0] != SESSION_OPEN[0] && "ALLOW"[0] != SESSION_OPEN[0] && "DENY"[0] != SESSION_OPEN[0]
           && SESSION_OPEN[0] == SESSION_CLOSE[0];
  }

  lemma InLog(es: seq<HostEvent>, q: Rec) returns (i: nat)
    requires q in multiset(Records(es))
    ensures i < |es| && q == LineOf(es[i], i + 1)
  {
    var rs := Records(es);
    assert q in rs;
    i :| 0 <= i < |rs| && rs[i] == q;
  }

  lemma MarkerLine(es: seq<HostEvent>, session: string, k: nat, decision: string)
    requires FairHost(es) && k < |es|
    requires (decision == SESSION_OPEN && es[k] == Opened(session)) || (decision == SESSION_CLOSE && es[k] == Closed(session))
    ensures SoleMarker(multiset(Records(es)), session, decision, k + 1)
  {
    hide LineOf, IsMarker;
    var m, r := multiset(Records(es)), LineOf(es[k], k + 1);
    LineAt(es, k);
    MarkerOf(es[k], k + 1, session);
    forall q | q in m && IsMarker(q, session, decision) ensures q == r {
      var i := InLog(es, q);
      MarkerOf(es[i], i + 1, session);
    }
    assert NumberedMarker(r, session, decision, k + 1);
  }

  lemma SpanOfSession(es: seq<HostEvent>, session: string, i: nat, j: nat)
    requires FairHost(es) && i < j < |es| && es[i] == Opened(session) && es[j] == Closed(session)
    ensures Spans(multiset(Records(es)), session, i + 1, j + 1)
  {
    hide SoleMarker, LineOf, FairHost;
    MarkerLine(es, session, i, SESSION_OPEN);
    MarkerLine(es, session, j, SESSION_CLOSE);
    forall n | i + 1 <= n <= j + 1 ensures Present(multiset(Records(es)), n) {
      LineAt(es, n - 1);
    }
  }

  lemma LineShows(es: seq<HostEvent>, session: string, tool: string, k: nat)
    requires FairHost(es) && k < |es|
    ensures CallIn(multiset(Records(es)), k + 1, session, tool) <==> CallsTool(es[k], session, tool)
    ensures CallAt(LineOf(es[k], k + 1), session, tool) <==> CallsTool(es[k], session, tool)
  {
    LineAt(es, k);
    match es[k]
    case Admitted(s, called, id) => HostLinesShowTheCall(s, k + 1, called, id, Failed, tool);
    case Answered(s, called, id, end) => HostLinesShowTheCall(s, k + 1, called, id, end, tool);
    case _ =>
  }

  /**
   A session that the log saw opened and then closed is always settled: no call of the tool in between is
   consistent, and otherwise the first one contradicts, by its request.
   */
  lemma HostLogSettles(es: seq<HostEvent>, session: string, tool: string, i: nat, j: nat, v: AbsenceVerdict)
    requires FairHost(es) && i < j < |es| && es[i] == Opened(session) && es[j] == Closed(session)
    requires AbsenceRule(multiset(Records(es)), session, tool, v)
    ensures (forall k | i < k < j :: !CallsTool(es[k], session, tool)) ==> v == Consistent
    ensures forall k | i < k < j && CallsTool(es[k], session, tool) && (forall h | i < h < k :: !CallsTool(es[h], session, tool)) ::
              v == Contradicted(Some(es[k].id))
  {
    hide LineOf, CallIn, CallAt, OneAt, Spans, CallsTool, FairHost, AbsenceRule, Records;
    var m := multiset(Records(es));
    SpanOfSession(es, session, i, j);
    LineOfIds(es, session, tool);
    forall n | i + 1 <= n <= j + 1 ensures CallIn(m, n, session, tool) <==> CallsTool(es[n - 1], session, tool) {
      LineShows(es, session, tool, n - 1);
    }
    if forall k | i < k < j :: !CallsTool(es[k], session, tool) {
      NoCallIsConsistent(m, session, tool, i + 1, j + 1);
      RuleDetermines(m, session, tool, v, Consistent);
    }
    forall k | i < k < j && CallsTool(es[k], session, tool) && (forall h | i < h < k :: !CallsTool(es[h], session, tool))
      ensures v == Contradicted(Some(es[k].id))
    {
      LineAt(es, k);
      LineShows(es, session, tool, k);
      forall n | i + 1 <= n < k + 1 ensures !CallIn(m, n, session, tool) {
        assert !CallsTool(es[n - 1], session, tool);
      }
      FirstCallContradicts(m, session, tool, i + 1, j + 1, k + 1, LineOf(es[k], k + 1));
      RuleDetermines(m, session, tool, v, Contradicted(Some(es[k].id)));
    }
  }

  lemma LineOfIds(es: seq<HostEvent>, session: string, tool: string)
    ensures forall k | 0 <= k < |es| && CallsTool(es[k], session, tool) :: LineOf(es[k], k + 1).requestId == Some(es[k].id)
    ensures forall k | 0 <= k < |es| && (es[k].Opened? || es[k].Closed?) :: !CallsTool(es[k], session, tool)
  {}

  lemma NoCallIsConsistent(m: multiset<Rec>, session: string, tool: string, s: int, e: int)
    requires Spans(m, session, s, e) && forall n | s <= n <= e :: !CallIn(m, n, session, tool)
    ensures AbsenceRule(m, session, tool, Consistent)
  {}

  lemma FirstCallContradicts(m: multiset<Rec>, session: string, tool: string, s: int, e: int, n: int, r: Rec)
    requires Spans(m, session, s, e) && s <= n <= e && OneAt(m, n, r) && CallAt(r, session, tool)
    requires forall k | s <= k < n :: !CallIn(m, k, session, tool)
    ensures AbsenceRule(m, session, tool, Contradicted(r.requestId))
  {}

  /** Without both lines, in that order, nothing is settled. */
  lemma HalfASessionIsUnverifiable(es: seq<HostEvent>, session: string, tool: string, v: AbsenceVerdict)
    requires FairHost(es) && AbsenceRule(multiset(Records(es)), session, tool, v)
    requires !exists i, j :: 0 <= i < j < |es| && es[i] == Opened(session) && es[j] == Closed(session)
    ensures v == Unverifiable
  {
    hide LineOf, IsMarker, FairHost, Records, Present;
    var m := multiset(Records(es));
    forall s, e ensures !Spans(m, session, s, e) {
      if Spans(m, session, s, e) {
        var a :| NumberedMarker(a, session, SESSION_OPEN, s) && m[a] == 1;
        var b :| NumberedMarker(b, session, SESSION_CLOSE, e) && m[b] == 1;
        var i := InLog(es, a);
        var j := InLog(es, b);
        MarkerOf(es[i], i + 1, session);
        MarkerOf(es[j], j + 1, session);
      }
    }
    NoSpanIsUnverifiable(m, session, tool, v);
  }

  lemma NoSpanIsUnverifiable(m: multiset<Rec>, session: string, tool: string, v: AbsenceVerdict)
    requires AbsenceRule(m, session, tool, v) && forall s, e :: !Spans(m, session, s, e)
    ensures v == Unverifiable
  {}

  // ----- Actions.

  datatype ActionClaim = ActionClaim(requestId: string, tool: string, allowed: bool, digest: Option<string>)

  datatype Subject = ToolName | Outcome | ResultDigest | RequestId

  datatype Judgement = Stands | Against(subject: Subject) | Unsettled(subject: Subject)

  predicate IsFinal(r: Rec, claim: ActionClaim) {
    r.requestId == Some(claim.requestId) && r.decision in {Some("ALLOW"), Some("DENY")}
  }

  function ResultItem(items: seq<Item>): Option<Item> {
    if items == [] then None
    else if items[0].Item? && items[0].name == Some("result") then Some(items[0])
    else ResultItem(items[1..])
  }

  function ResultCheck(r: Rec): (c: Option<Item>)
    ensures c.Some? ==> c.value.Item?
  {
    if r.checks.Some? then ResultItemIs(r.checks.value); ResultItem(r.checks.value) else None
  }

  lemma {:induction false} ResultItemIs(items: seq<Item>)
    ensures ResultItem(items).Some? ==> ResultItem(items).value.Item?
  {
    if items != [] { ResultItemIs(items[1..]); }
  }

  function JudgeFinal(claim: ActionClaim, r: Rec): Judgement {
    if r.toolName != Some(claim.tool) then Against(ToolName)
    else if (r.decision == Some("ALLOW")) != claim.allowed then Against(Outcome)
    else if claim.digest.None? then Stands
    else
      match ResultCheck(r)
      case None => Unsettled(ResultDigest)
      case Some(c) =>
        if c.outcome != Some("returned") || c.digest.None? then
          (if c.outcome == Some("unencodable") then Against(ResultDigest) else Unsettled(ResultDigest))
        else if c.digest != claim.digest then Against(ResultDigest)
        else Stands
  }

  /**
   A claim against the one last line the host wrote for the request: the tool comes first, then the outcome, then the
   digest; a digest the host observed is the only one that stands, and a call without a result contradicts any.
   */
  lemma HostLineJudges(claim: ActionClaim, session: string, n: int, tool: string, id: string, end: CallEnd)
    ensures var r := LastLine(session, n, tool, id, end);
            && (claim.tool != tool ==> JudgeFinal(claim, r) == Against(ToolName))
            && (claim.tool == tool && claim.allowed != end.Returned? ==> JudgeFinal(claim, r) == Against(Outcome))
            && (claim.tool == tool && claim.allowed == end.Returned? && claim.digest.None? ==> JudgeFinal(claim, r) == Stands)
            && (claim.tool == tool && claim.allowed && claim.digest.Some? && end.Returned? ==>
                  JudgeFinal(claim, r) == if end.digest == claim.digest then Stands else Against(ResultDigest))
            && (claim.tool == tool && claim.allowed && claim.digest.Some? && end.Returned? ==>
                  (DigestAgainst(claim, r) <==> end.digest != claim.digest))
            && !(!end.Returned? && DigestAgainst(claim, r))
  {
    if end.Returned? {
      var items := LastLine(session, n, tool, id, end).checks.value;
      assert items[1..][1..] == [ResultLine(end.digest)] && items[1..][0] == Check("registry_tool", "entered");
      assert ResultItem(items) == ResultItem(items[1..]) == ResultItem(items[1..][1..]) == Some(ResultLine(end.digest));
    }
  }

  /** A line that was shortened to its core fields leaves a claimed digest unsettled. */
  lemma ShortenedLineSettlesNothing(claim: ActionClaim, session: string, n: int, tool: string, id: string, digest: Option<string>)
    requires claim.tool == tool && claim.allowed && claim.digest.Some?
    ensures var r := LastLine(session, n, tool, id, Returned(digest)).(checks := None);
            JudgeFinal(claim, r) == Unsettled(ResultDigest) && !DigestAgainst(claim, r)
    ensures var r := LastLine(session, n, tool, id, Returned(digest)).(checks := Some([Check("result", "returned")]));
            JudgeFinal(claim, r) == Unsettled(ResultDigest) && !DigestAgainst(claim, r)
  {}

  /** A disagreement about the outcome leaves room for these contradictions only. */
  predicate DigestAgainst(claim: ActionClaim, r: Rec) {
    && claim.digest.Some? && r.decision == Some("ALLOW")
    && ResultCheck(r).Some?
    && var c := ResultCheck(r).value;
       c.outcome == Some("unencodable") || (c.outcome == Some("returned") && c.digest.Some? && c.digest != claim.digest)
  }

  function Finals(rs: seq<Rec>, claim: ActionClaim): seq<Rec> {
    if rs == [] then []
    else (if IsFinal(rs[0], claim) then [rs[0]] else []) + Finals(rs[1..], claim)
  }

  lemma {:induction false} FinalsAre(rs: seq<Rec>, claim: ActionClaim, r: Rec)
    ensures r in Finals(rs, claim) <==> r in rs && IsFinal(r, claim)
  {
    if rs != [] {
      FinalsAre(rs[1..], claim, r);
      assert rs == [rs[0]] + rs[1..];
    }
  }

  function FinalSet(rs: seq<Rec>, claim: ActionClaim): set<Rec> {
    set r | r in rs && IsFinal(r, claim)
  }

  predicate Mixed(fs: set<Rec>) {
    exists a, b | a in fs && b in fs :: a.decision != b.decision
  }

  predicate SomeJudged(fs: set<Rec>, claim: ActionClaim, j: Judgement) {
    exists r | r in fs :: JudgeFinal(claim, r) == j
  }

  /** The verdict, as a rule on the final records without an order or a number of copies. */
  predicate ActionRule(fs: set<Rec>, claim: ActionClaim, v: Judgement) {
    if fs == {} then v == Unsettled(RequestId)
    else if SomeJudged(fs, claim, Against(ToolName)) then v == Against(ToolName)
    else if Mixed(fs) then v == if exists r | r in fs :: DigestAgainst(claim, r) then Against(ResultDigest) else Unsettled(RequestId)
    else if SomeJudged(fs, claim, Against(Outcome)) then v == Against(Outcome)
    else if SomeJudged(fs, claim, Against(ResultDigest)) then v == Against(ResultDigest)
    else if SomeJudged(fs, claim, Unsettled(ResultDigest)) then v == Unsettled(ResultDigest)
    else v == Stands
  }

  lemma {:induction false} FirstIsFinal(rs: seq<Rec>, claim: ActionClaim)
    ensures forall r :: r in Finals(rs, claim) <==> r in FinalSet(rs, claim)
    ensures Finals(rs, claim) == [] <==> FinalSet(rs, claim) == {}
  {
    forall r ensures r in Finals(rs, claim) <==> r in FinalSet(rs, claim) { FinalsAre(rs, claim, r); }
    if Finals(rs, claim) != [] {
      assert Finals(rs, claim)[0] in FinalSet(rs, claim);
    }
    if r :| r in FinalSet(rs, claim) {
      assert r in Finals(rs, claim);
    }
  }

  method VerifyAction(claim: ActionClaim, rs: seq<Rec>) returns (v: Judgement)
    ensures ActionRule(FinalSet(rs, claim), claim, v)
  {
    FirstIsFinal(rs, claim);
    var finals := Finals(rs, claim);
    if finals == [] {
      return Unsettled(RequestId);
    }
    assert finals[0] in finals;
    hide IsFinal, FinalSet, Finals, ResultCheck;
    if |finals| == 1 {
      assert forall r | r in finals :: r == finals[0];
      return JudgeFinal(claim, finals[0]);
    }
    if exists r | r in finals :: r.decision != finals[0].decision {
      for k := 0 to |finals|
        invariant forall j | 0 <= j < k :: finals[j].toolName == Some(claim.tool)
      {
        if finals[k].toolName != Some(claim.tool) {
          assert finals[k] in finals;
          return Against(ToolName);
        }
      }
      assert forall r | r in finals :: r.toolName == Some(claim.tool);
      if claim.digest.Some? && exists r | r in finals :: DigestAgainst(claim, r) {
        return Against(ResultDigest);
      }
      return Unsettled(RequestId);
    }
    assert forall r | r in finals :: r.decision == finals[0].decision;
    if exists r | r in finals :: JudgeFinal(claim, r) == Against(ToolName) {
      return Against(ToolName);
    }
    if exists r | r in finals :: JudgeFinal(claim, r) == Against(Outcome) {
      return Against(Outcome);
    }
    if exists r | r in finals :: JudgeFinal(claim, r) == Against(ResultDigest) {
      return Against(ResultDigest);
    }
    if exists r | r in finals :: JudgeFinal(claim, r).Unsettled? {
      return Unsettled(ResultDigest);
    }
    return JudgeFinal(claim, finals[0]);
  }

  /** A claim stands exactly when there is a final record and every final record, taken alone, bears it out. */
  lemma StandsIff(fs: set<Rec>, claim: ActionClaim, v: Judgement)
    requires ActionRule(fs, claim, v) && forall r | r in fs :: IsFinal(r, claim)
    ensures v == Stands <==> fs != {} && forall r | r in fs :: JudgeFinal(claim, r) == Stands
  {
    hide ResultCheck;
    if fs != {} && forall r | r in fs :: JudgeFinal(claim, r) == Stands {
      assert forall r | r in fs :: (r.decision == Some("ALLOW")) == claim.allowed;
    }
    if v == Stands {
      forall r | r in fs ensures JudgeFinal(claim, r) == Stands {
        var j := JudgeFinal(claim, r);
        assert j in {Stands, Against(ToolName), Against(Outcome), Against(ResultDigest), Unsettled(ResultDigest)};
      }
    }
  }

  /** The verdict on a claim about a request that the host answered once is what its last line says, and nothing settles one it never answered. */
  lemma HostLogJudges(es: seq<HostEvent>, claim: ActionClaim, k: nat, v: Judgement)
    requires ActionRule(FinalSet(Records(es), claim), claim, v)
    requires forall i | 0 <= i < |es| && i != k && es[i].Answered? :: es[i].id != claim.requestId
    ensures k < |es| && es[k].Answered? && es[k].id == claim.requestId ==> v == JudgeFinal(claim, LineOf(es[k], k + 1))
    ensures !(k < |es| && es[k].Answered? && es[k].id == claim.requestId) ==> v == Unsettled(RequestId)
  {
    var rs, fs := Records(es), FinalSet(Records(es), claim);
    forall r | r in fs ensures k < |es| && es[k].Answered? && es[k].id == claim.requestId && r == LineOf(es[k], k + 1) {
      var i :| 0 <= i < |rs| && rs[i] == r;
      assert r == LineOf(es[i], i + 1);
    }
    if k < |es| && es[k].Answered? && es[k].id == claim.requestId {
      assert rs[k] in rs && IsFinal(rs[k], claim);
      assert fs == {rs[k]};
    } else {
      assert fs == {};
    }
  }

  /** Two last lines for one request that disagree on the outcome settle nothing, but a result that is not the claimed one still contradicts. */
  lemma TwoAnswers(claim: ActionClaim, session: string, n: int, n': int, digest: Option<string>, reason: string, v: Judgement)
    requires var a := LastLine(session, n, claim.tool, claim.requestId, Returned(digest));
             var b := LastLine(session, n', claim.tool, claim.requestId, Denied(reason));
             ActionRule({a, b}, claim, v)
    ensures v == if claim.digest.Some? && claim.digest != digest then Against(ResultDigest) else Unsettled(RequestId)
  {
    var a := LastLine(session, n, claim.tool, claim.requestId, Returned(digest));
    var b := LastLine(session, n', claim.tool, claim.requestId, Denied(reason));
    var stated := claim.(allowed := true);
    HostLineJudges(stated, session, n, claim.tool, claim.requestId, Returned(digest));
    HostLineJudges(claim, session, n', claim.tool, claim.requestId, Denied(reason));
    assert DigestAgainst(claim, a) <==> DigestAgainst(stated, a);
    hide ResultCheck;
    assert a in {a, b} && b in {a, b};
  }

  /** Deleting records can only take a standing claim's proof away, never turn it against the claim. */
  lemma DeletionNeverContradicts(part: set<Rec>, all: set<Rec>, claim: ActionClaim, v: Judgement)
    requires part <= all && ActionRule(all, claim, Stands) && ActionRule(part, claim, v) && forall r | r in all :: IsFinal(r, claim)
    ensures v == if part == {} then Unsettled(RequestId) else Stands
  {
    StandsIff(all, claim, Stands);
    StandsIff(part, claim, v);
  }
}
