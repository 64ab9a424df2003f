/**
 The denial log's coalescing window. A burst of denials gets its own lines, the rest of the
 window is held as a count, and the count is written when the window closes or at shutdown.
 */
module DenialLogs {
  import opened Common

  /** Own lines a window may have, its length on the monotonic clock, and how long shutdown waits. */
  datatype Limits = Limits(burst: nat, window: nat, drain: nat) {
    predicate Usable() { burst >= 1 && window > 0 }
  }

  datatype Counter = Counter(
    windowStart: Option<Instant>,
    windowWritten: nat,
    suppressed: nat,
    inflight: nat,
    draining: bool,
    closed: bool)

  /** What becomes of one denial: its own line, a place in the held count, or first the count of the window before. */
  datatype Verdict = WriteIt | CountIt | Rotate(pending: nat)

  function Account(d: Counter, limits: Limits, now: Instant): (Counter, Verdict) {
    if d.windowStart.None? || now - d.windowStart.value >= limits.window then
      (d.(suppressed := 0, windowWritten := 1, windowStart := Some(now)), if d.suppressed > 0 then Rotate(d.suppressed) else WriteIt)
    else if d.windowWritten < limits.burst then (d.(windowWritten := d.windowWritten + 1), WriteIt)
    else (d.(suppressed := d.suppressed + 1), CountIt)
  }

  /** The held count of a window that has closed with no new denial; taking it joins the log. */
  function TakeExpired(d: Counter, limits: Limits, now: Instant): (Counter, Option<nat>) {
    if d.closed || d.draining || d.windowStart.None? || d.suppressed < 1 || now - d.windowStart.value < limits.window then (d, None)
    else (d.(suppressed := 0, windowWritten := 0, windowStart := None, inflight := d.inflight + 1), Some(d.suppressed))
  }

  function Join(d: Counter): (Counter, bool) {
    if d.closed then (d, false) else (d.(inflight := d.inflight + 1), true)
  }

  function Leave(d: Counter): Counter {
    if d.inflight > 0 then d.(inflight := d.inflight - 1) else d
  }

  function StartDrain(d: Counter): Counter {
    if d.closed || d.draining then d else d.(draining := true)
  }

  function FinishDrain(d: Counter): Counter {
    d.(suppressed := 0, windowWritten := 0, windowStart := None, closed := true, draining := false)
  }

  /** When a denial gets its own line, when it is only counted, and when it brings the last window's count with it. */
  lemma AccountMeans(d: Counter, limits: Limits, now: Instant)
    requires limits.Usable() && (d.windowStart.None? ==> d.suppressed == 0)
    ensures var (d', verdict) := Account(d, limits, now);
            var over := d.windowStart.None? || d.windowStart.value + limits.window <= now;
            && (verdict.CountIt? <==> !over && d.windowWritten >= limits.burst)
            && (verdict == Rotate(d.suppressed) <==> over && d.suppressed > 0)
            && (verdict.Rotate? ==> verdict.pending == d.suppressed)
            && (over ==> d'.windowStart == Some(now) && d'.windowWritten == 1 && d'.suppressed == 0)
            && (!over ==> d'.windowStart == d.windowStart && d'.windowWritten + d'.suppressed == d.windowWritten + d.suppressed + 1)
            && (!over ==> (verdict.CountIt? <==> d'.suppressed == d.suppressed + 1))
            && d'.inflight == d.inflight && d'.closed == d.closed && d'.draining == d.draining
  {}

  /** A quiet log gives up a held count at the first flush after its window, and only then; the writer joins the log. */
  lemma FlushMeans(d: Counter, limits: Limits, now: Instant)
    ensures var (d', pending) := TakeExpired(d, limits, now);
            && (pending.Some? <==>
                  !d.closed && !d.draining && d.suppressed >= 1 && d.windowStart.Some? && d.windowStart.value + limits.window <= now)
            && (pending.Some? ==> pending.value == d.suppressed && d' == Counter(None, 0, 0, d.inflight + 1, false, false))
            && (pending.None? ==> d' == d)
  {}

  /** Joining is refused exactly by a closed log, a drain included; leaving undoes it; a drain ends closed with nothing held. */
  lemma TicketsMean(d: Counter)
    ensures Join(d).1 <==> !d.closed
    ensures !Join(d).1 ==> Join(d).0 == d
    ensures Join(d).1 ==> Join(d).0.inflight == d.inflight + 1 && Leave(Join(d).0) == d
    ensures d.inflight == 0 ==> Leave(d) == d
    ensures d.closed || d.draining ==> StartDrain(d) == d
    ensures !d.closed && !d.draining ==> StartDrain(d) == Counter(d.windowStart, d.windowWritten, d.suppressed, d.inflight, true, false)
    ensures FinishDrain(d) == Counter(None, 0, 0, d.inflight, false, true)
  {}

  /** The fields the host changes under its lock. */
  class DenialLog {
    const limits: Limits
    var windowStart: Option<Instant>
    var windowWritten: nat
    var suppressed: nat
    var inflight: nat
    var draining: bool
    var closed: bool

    ghost function State(): Counter
      reads this
    {
      Counter(windowStart, windowWritten, suppressed, inflight, draining, closed)
    }

    constructor (limits: Limits)
      requires limits.Usable()
      ensures this.limits == limits && State() == Counter(None, 0, 0, 0, false, false)
    {
      this.limits := limits;
      windowStart, windowWritten, suppressed, inflight := None, 0, 0, 0;
      draining, closed := false, false;
    }

    method BeginLogCall() returns (joined: bool)
      modifies this`inflight
      ensures (State(), joined) == Join(old(State()))
    {
      if closed {
        return false;
      }
      inflight := inflight + 1;
      return true;
    }

    method EndLogCall()
      modifies this`inflight
      ensures State() == Leave(old(State()))
    {
      if inflight > 0 {
        inflight := inflight - 1;
      }
    }

    method AccountDenial(now: Instant) returns (verdict: Verdict)
      modifies this`windowStart, this`windowWritten, this`suppressed
      ensures (State(), verdict) == Account(old(State()), limits, now)
    {
      if windowStart.None? || now - windowStart.value >= limits.window {
        var pending := suppressed;
        suppressed := 0;
        windowWritten := 1;
        windowStart := Some(now);
        if pending > 0 {
          return Rotate(pending);
        }
        return WriteIt;
      }
      if windowWritten < limits.burst {
        windowWritten := windowWritten + 1;
        return WriteIt;
      }
      suppressed := suppressed + 1;
      return CountIt;
    }

    method FlushExpiredWindow(now: Instant) returns (pending: Option<nat>)
      modifies this
      ensures (State(), pending) == TakeExpired(old(State()), limits, now)
    {
      if closed || draining || windowStart.None? || suppressed < 1 {
        return None;
      }
      if now - windowStart.value < limits.window {
        return None;
      }
      pending := Some(suppressed);
      suppressed := 0;
      windowWritten := 0;
      windowStart := None;
      inflight := inflight + 1;
    }

    /** The part of shutdown after the wait; `append` is whether the summary line can be written. */
    method CloseAfterDrain(append: bool) returns (written: nat, lost: nat)
      modifies this
      ensures State() == FinishDrain(old(State()))
      ensures written + lost == old(suppressed) && (append ==> lost == 0) && (!append ==> written == 0)
    {
      var pending := suppressed;
      suppressed := 0;
      windowWritten := 0;
      windowStart := None;
      written, lost := 0, 0;
      if pending > 0 {
        if append {
          written := pending;
        } else {
          lost := pending;
        }
      }
      closed := true;
      draining := false;
    }
  }
}

/** Any number of threads denying, flushing and shutting down, one locked section or one append at a time. */
module DenialRuns {
  import opened Common
  import opened DenialLogs

  datatype Task =
    | Joined                        // holds a log-call ticket taken to account a denial
    | Serving                       // holds a ticket for a whole request, or for a line that is not a denial
    | OwnLine                       // its own line is still to be appended
    | SummaryFirst(n: nat)          // a count, then its own line
    | SummaryCleared(n: nat, own: bool)   // the log was open when asked: the count is to be appended
    | SummaryOnly(n: nat)
    | Finished
    | Left

  /** A window's first denial and how many of its denials got own lines. */
  datatype Window = Window(start: Instant, own: nat)

  /** What happened to the denials accounted so far. */
  datatype Tally = Tally(accounted: nat, ownWritten: nat, summaryWritten: nat, lost: nat)

  datatype State = State(
    limits: Limits,
    d: Counter,
    clock: Instant,
    tasks: seq<Task>,
    tally: Tally,
    windows: seq<Window>,
    drainBegan: Option<Instant>,
    drainedAt: Option<nat>,   // how many windows there were when the log closed
    fileClosed: bool)

  datatype Act =
    | BeginTask(denies: bool)
    | Deny(t: nat, now: Instant)
    | Flush(now: Instant)
    | CheckLog(t: nat)
    | AppendSummary(t: nat, ok: bool)
    | AppendOwn(t: nat, ok: bool)
    | Finish(t: nat)
    | EndTask(t: nat)
    | BeginDrain(now: Instant)
    | EndDrain(now: Instant, ok: bool)
    | CloseFile

  /** The drain has waited as long as it may. */
  predicate TimedOut(s: State, now: Instant) {
    s.drainBegan.Some? && now - s.drainBegan.value >= s.limits.drain
  }

  /** A request's own ticket accounts no denial: a denial takes a second one, which a closed log refuses. */
  predicate CanAct(s: State, a: Act) {
    match a
    case BeginTask(_) => true
    case Deny(t, now) => t < |s.tasks| && s.tasks[t].Joined? && s.clock <= now
    case Flush(now) => s.clock <= now
    case CheckLog(t) => t < |s.tasks| && (s.tasks[t].SummaryFirst? || s.tasks[t].SummaryOnly?)
    case AppendSummary(t, ok) => t < |s.tasks| && s.tasks[t].SummaryCleared? && (ok ==> !s.fileClosed)
    case AppendOwn(t, ok) => t < |s.tasks| && s.tasks[t].OwnLine? && (ok ==> !s.fileClosed)
    case Finish(t) => t < |s.tasks| && s.tasks[t].Serving?
    case EndTask(t) => t < |s.tasks| && s.tasks[t].Finished?
    case BeginDrain(now) => !s.d.closed && !s.d.draining && s.clock <= now
    case EndDrain(now, _) => s.d.draining && s.clock <= now && (s.d.inflight == 0 || TimedOut(s, now))
    case CloseFile => s.d.closed
  }

  function SetTask(s: State, t: nat, task: Task): State
    requires t < |s.tasks|
  {
    s.(tasks := s.tasks[t := task])
  }

  /** A denial that got its own line opens a window or joins the last one. */
  function NoteOwn(windows: seq<Window>, opening: bool, now: Instant): seq<Window> {
    if opening || windows == [] then windows + [Window(now, 1)]
    else windows[|windows| - 1 := windows[|windows| - 1].(own := windows[|windows| - 1].own + 1)]
  }

  function DoDeny(s: State, t: nat, now: Instant): State
    requires t < |s.tasks|
  {
    var (d, verdict) := Account(s.d, s.limits, now);
    var opening := s.d.windowStart.None? || now - s.d.windowStart.value >= s.limits.window;
    var counted := s.(d := d, clock := now, tally := s.tally.(accounted := s.tally.accounted + 1));
    match verdict
    case WriteIt => SetTask(counted, t, OwnLine).(windows := NoteOwn(s.windows, opening, now))
    case Rotate(n) => SetTask(counted, t, SummaryFirst(n)).(windows := NoteOwn(s.windows, opening, now))
    case CountIt => SetTask(counted, t, Finished)
  }

  function Perform(s: State, a: Act): State
    requires CanAct(s, a)
  {
    match a
    case BeginTask(denies) =>
      var (d, joined) := Join(s.d);
      s.(d := d, tasks := if joined then s.tasks + [if denies then Joined else Serving] else s.tasks)
    case Deny(t, now) => DoDeny(s, t, now)
    case Flush(now) =>
      var (d, pending) := TakeExpired(s.d, s.limits, now);
      s.(d := d, clock := now, tasks := if pending.Some? then s.tasks + [SummaryOnly(pending.value)] else s.tasks)
    case CheckLog(t) =>
      var own := s.tasks[t].SummaryFirst?;
      var n := s.tasks[t].n;
      if s.d.closed then SetTask(s, t, Finished).(tally := s.tally.(lost := s.tally.lost + n + if own then 1 else 0))
      else SetTask(s, t, SummaryCleared(n, own))
    case AppendSummary(t, ok) =>
      var n, own := s.tasks[t].n, s.tasks[t].own;
      if ok then SetTask(s, t, if own then OwnLine else Finished).(tally := s.tally.(summaryWritten := s.tally.summaryWritten + n))
      else SetTask(s, t, Finished).(tally := s.tally.(lost := s.tally.lost + n + if own then 1 else 0))
    case AppendOwn(t, ok) =>
      SetTask(s, t, Finished).(tally := if ok then s.tally.(ownWritten := s.tally.ownWritten + 1) else s.tally.(lost := s.tally.lost + 1))
    case Finish(t) => SetTask(s, t, Finished)
    case EndTask(t) => SetTask(s, t, Left).(d := Leave(s.d))
    case BeginDrain(now) => s.(d := StartDrain(s.d), clock := now, drainBegan := Some(now))
    case EndDrain(now, ok) =>
      s.(d := FinishDrain(s.d),
         clock := now,
         tally := if ok then s.tally.(summaryWritten := s.tally.summaryWritten + s.d.suppressed)
                  else s.tally.(lost := s.tally.lost + s.d.suppressed),
         drainedAt := Some(|s.windows|))
    case CloseFile => s.(fileClosed := true)
  }

  predicate Fresh(s: State) {
    && s.limits.Usable() && s.d == Counter(None, 0, 0, 0, false, false)
    && s.tasks == [] && s.tally == Tally(0, 0, 0, 0) && s.windows == [] && s.drainBegan.None? && s.drainedAt.None? && !s.fileClosed
  }

  function Acts(s: State, acts: seq<Act>): Option<State>
    decreases |acts|
  {
    if acts == [] then Some(s)
    else if !CanAct(s, acts[0]) then None
    else Acts(Perform(s, acts[0]), acts[1..])
  }

  // ----- Counting over the tasks.

  function Own(t: Task): nat {
    if t.OwnLine? || t.SummaryFirst? || (t.SummaryCleared? && t.own) then 1 else 0
  }

  function Held(t: Task): nat {
    if t.SummaryFirst? || t.SummaryOnly? || t.SummaryCleared? then t.n else 0
  }

  function Active(t: Task): nat {
    if t.Left? then 0 else 1
  }

  function Sum(tasks: seq<Task>, weight: Task -> nat): nat {
    if tasks == [] then 0 else Sum(tasks[..|tasks| - 1], weight) + weight(tasks[|tasks| - 1])
  }

  lemma {:induction false} SumUpdate(tasks: seq<Task>, t: nat, task: Task, weight: Task -> nat)
    requires t < |tasks|
    ensures Sum(tasks[t := task], weight) == Sum(tasks, weight) - weight(tasks[t]) + weight(task)
  {
    var n := |tasks| - 1;
    if t < n {
      SumUpdate(tasks[..n], t, task, weight);
      assert tasks[t := task][..n] == tasks[..n][t := task];
    } else {
      assert tasks[t := task][..n] == tasks[..n];
    }
  }

  lemma {:induction false} SumAppend(tasks: seq<Task>, task: Task, weight: Task -> nat)
    ensures Sum(tasks + [task], weight) == Sum(tasks, weight) + weight(task)
  {
    assert (tasks + [task])[..|tasks|] == tasks;
  }

  lemma {:induction false} NoneActive(tasks: seq<Task>, t: nat)
    requires Sum(tasks, Active) == 0 && t < |tasks|
    ensures tasks[t].Left?
  {
    var n := |tasks| - 1;
    if t < n {
      NoneActive(tasks[..n], t);
    }
  }

  // ----- The invariant.

  /** Every denial accounted is written, lost on a failed append, on its way, or in the held count. */
  predicate Conserved(s: State) {
    s.tally.accounted == s.tally.ownWritten + s.tally.summaryWritten + s.tally.lost
                         + Sum(s.tasks, Own) + Sum(s.tasks, Held) + s.d.suppressed
  }

  /** The open window is the last one, and nothing is held while it has room for own lines. */
  predicate WindowInv(s: State) {
    && (s.d.windowStart.Some? ==>
          && s.windows != [] && s.windows[|s.windows| - 1] == Window(s.d.windowStart.value, s.d.windowWritten)
          && 1 <= s.d.windowWritten <= s.limits.burst
          && (s.d.suppressed > 0 ==> s.d.windowWritten == s.limits.burst))
    && (s.d.windowStart.None? ==> s.d.suppressed == 0)
    && (s.drainedAt.Some? ==> s.drainedAt.value <= |s.windows|)
  }

  /** Each window had at most a burst of own lines, and started a window's length after the one before, but for a drain in between. */
  predicate Spaced(s: State) {
    && (forall k | 0 <= k < |s.windows| :: 1 <= s.windows[k].own <= s.limits.burst && s.windows[k].start <= s.clock)
    && (forall k | 0 <= k < |s.windows| - 1 && s.drainedAt != Some(k + 1) ::
              s.windows[k + 1].start - s.windows[k].start >= s.limits.window)
    && (s.windows != [] && s.d.windowStart.None? && s.drainedAt != Some(|s.windows|) ==>
          s.clock - s.windows[|s.windows| - 1].start >= s.limits.window)
    && (s.windows != [] && s.drainedAt == Some(|s.windows|) ==> s.d.windowStart.None?)
  }

  predicate TaskInv(s: State) {
    && s.d.inflight == Sum(s.tasks, Active)
    && (s.d.closed <==> s.drainedAt.Some?)
    && (s.d.draining ==> !s.d.closed)
    && (s.fileClosed ==> s.d.closed)
  }

  predicate DenialInv(s: State) {
    s.limits.Usable() && Conserved(s) && WindowInv(s) && Spaced(s) && TaskInv(s)
  }

  function TaskOf(a: Act): Option<nat> {
    match a
    case Deny(t, _) => Some(t)
    case CheckLog(t) => Some(t)
    case AppendSummary(t, _) => Some(t)
    case AppendOwn(t, _) => Some(t)
    case Finish(t) => Some(t)
    case EndTask(t) => Some(t)
    case _ => None
  }

  lemma SumsStep(s: State, a: Act)
    requires CanAct(s, a)
    ensures var s' := Perform(s, a);
            && (TaskOf(a).Some? ==>
                  var t := TaskOf(a).value;
                  && t < |s.tasks| && t < |s'.tasks|
                  && Sum(s'.tasks, Own) == Sum(s.tasks, Own) - Own(s.tasks[t]) + Own(s'.tasks[t])
                  && Sum(s'.tasks, Held) == Sum(s.tasks, Held) - Held(s.tasks[t]) + Held(s'.tasks[t])
                  && Sum(s'.tasks, Active) == Sum(s.tasks, Active) - Active(s.tasks[t]) + Active(s'.tasks[t]))
            && (TaskOf(a).None? && s'.tasks != s.tasks ==>
                  && |s'.tasks| == |s.tasks| + 1
                  && Sum(s'.tasks, Own) == Sum(s.tasks, Own) + Own(s'.tasks[|s.tasks|])
                  && Sum(s'.tasks, Held) == Sum(s.tasks, Held) + Held(s'.tasks[|s.tasks|])
                  && Sum(s'.tasks, Active) == Sum(s.tasks, Active) + Active(s'.tasks[|s.tasks|]))
  {
    var s' := Perform(s, a);
    if TaskOf(a).Some? {
      var t := TaskOf(a).value;
      var task := s'.tasks[t];
      assert s'.tasks == s.tasks[t := task];
      SumUpdate(s.tasks, t, task, Own);
      SumUpdate(s.tasks, t, task, Held);
      SumUpdate(s.tasks, t, task, Active);
    } else if s'.tasks != s.tasks {
      var task := s'.tasks[|s.tasks|];
      SumAppend(s.tasks, task, Own);
      SumAppend(s.tasks, task, Held);
      SumAppend(s.tasks, task, Active);
    }
  }

  lemma DenyConserves(s: State, t: nat, now: Instant)
    requires Conserved(s) && TaskInv(s) && CanAct(s, Deny(t, now))
    ensures Conserved(DoDeny(s, t, now)) && TaskInv(DoDeny(s, t, now))
  {
    SumsStep(s, Deny(t, now));
    hide Sum, NoteOwn;
  }

  lemma TaskConserves(s: State, a: Act)
    requires Conserved(s) && TaskInv(s) && CanAct(s, a) && TaskOf(a).Some? && !a.Deny?
    ensures Conserved(Perform(s, a)) && TaskInv(Perform(s, a))
  {
    SumsStep(s, a);
    hide Sum, DoDeny;
  }

  lemma ConservedStep(s: State, a: Act)
    requires Conserved(s) && TaskInv(s) && CanAct(s, a)
    ensures Conserved(Perform(s, a)) && TaskInv(Perform(s, a))
  {
    match a
    case Deny(t, now) => DenyConserves(s, t, now);
    case _ =>
      if TaskOf(a).Some? {
        TaskConserves(s, a);
      } else {
        SumsStep(s, a);
        hide Sum, DoDeny;
      }
  }

  lemma DenyKeepsWindows(s: State, t: nat, now: Instant)
    requires s.limits.Usable() && WindowInv(s) && Spaced(s) && CanAct(s, Deny(t, now))
    ensures WindowInv(DoDeny(s, t, now)) && Spaced(DoDeny(s, t, now))
  {
    var s' := DoDeny(s, t, now);
    var n := |s.windows|;
    if s.d.windowStart.None? || now - s.d.windowStart.value >= s.limits.window {
      assert s'.windows == s.windows + [Window(now, 1)];
    } else if s.d.windowWritten < s.limits.burst {
      assert s'.windows == s.windows[n - 1 := Window(s.d.windowStart.value, s.d.windowWritten + 1)];
    } else {
      assert s'.windows == s.windows;
    }
    hide NoteOwn, DoDeny, Account;
  }

  lemma WindowsStep(s: State, a: Act)
    requires s.limits.Usable() && WindowInv(s) && Spaced(s) && TaskInv(s) && CanAct(s, a)
    ensures WindowInv(Perform(s, a)) && Spaced(Perform(s, a))
  {
    hide Sum, WindowInv, Spaced, TaskInv, DoDeny, TakeExpired;
    match a
    case Deny(t, now) => DenyKeepsWindows(s, t, now);
    case Flush(now) => FlushKeepsWindows(s, now);
    case EndDrain(now, ok) => EndDrainKeepsWindows(s, now, ok);
    case _ => OthersKeepWindows(s, Perform(s, a));
  }

  lemma FlushKeepsWindows(s: State, now: Instant)
    requires s.limits.Usable() && WindowInv(s) && Spaced(s) && CanAct(s, Flush(now))
    ensures WindowInv(Perform(s, Flush(now))) && Spaced(Perform(s, Flush(now)))
  {
    hide Sum;
  }

  /** Time may pass, with the windows and the counter's window fields as they are. */
  lemma OthersKeepWindows(s: State, s': State)
    requires WindowInv(s) && Spaced(s) && s.clock <= s'.clock
    requires s'.windows == s.windows && s'.limits == s.limits && s'.drainedAt == s.drainedAt
    requires s'.d.windowStart == s.d.windowStart && s'.d.windowWritten == s.d.windowWritten && s'.d.suppressed == s.d.suppressed
    ensures WindowInv(s') && Spaced(s')
  {}

  lemma EndDrainKeepsWindows(s: State, now: Instant, ok: bool)
    requires s.limits.Usable() && WindowInv(s) && Spaced(s) && TaskInv(s) && CanAct(s, EndDrain(now, ok))
    ensures WindowInv(Perform(s, EndDrain(now, ok))) && Spaced(Perform(s, EndDrain(now, ok)))
  {
    hide Sum;
  }

  lemma DenialStep(s: State, a: Act)
    requires DenialInv(s) && CanAct(s, a)
    ensures DenialInv(Perform(s, a))
  {
    ConservedStep(s, a);
    WindowsStep(s, a);
    hide Conserved, WindowInv, Spaced, TaskInv;
  }

  predicate FailedAppend(a: Act) {
    (a.AppendSummary? && !a.ok) || (a.AppendOwn? && !a.ok) || (a.EndDrain? && !a.ok)
  }

  lemma LostStep(s: State, a: Act)
    requires CanAct(s, a)
    ensures s.d.closed ==> Perform(s, a).d.closed
    ensures !FailedAppend(a) && !Perform(s, a).d.closed ==> Perform(s, a).tally.lost == s.tally.lost
    ensures Perform(s, a).limits == s.limits
  {}

  lemma {:induction false} DenialsFrom(s: State, acts: seq<Act>)
    requires DenialInv(s) && Acts(s, acts).Some?
    ensures DenialInv(Acts(s, acts).value)
    ensures s.d.closed ==> Acts(s, acts).value.d.closed
    ensures (forall a | a in acts :: !FailedAppend(a)) && !Acts(s, acts).value.d.closed ==> Acts(s, acts).value.tally.lost == s.tally.lost
    ensures Acts(s, acts).value.limits == s.limits
    decreases |acts|
  {
    if acts != [] {
      assert acts[0] in acts && forall a | a in acts[1..] :: a in acts;
      hide DenialInv, Perform, CanAct, FailedAppend;
      DenialStep(s, acts[0]);
      LostStep(s, acts[0]);
      DenialsFrom(Perform(s, acts[0]), acts[1..]);
    }
  }

  /**
   In every run: each denial accounted is an own line written or on its way, a part of a summary written
   or on its way, part of the held count, or lost with a failed append; and while the log is open
   nothing is lost without one. No window has more own lines than the burst, and two windows in a
   row start at least a window apart, except across the drain at shutdown.
   */
  lemma {:induction false} DenialsOverARun(s0: State, acts: seq<Act>)
    requires Fresh(s0) && Acts(s0, acts).Some?
    ensures var s := Acts(s0, acts).value;
            && s.tally.accounted == s.tally.ownWritten + s.tally.summaryWritten + s.tally.lost
                                    + Sum(s.tasks, Own) + Sum(s.tasks, Held) + s.d.suppressed
            && ((forall a | a in acts :: !FailedAppend(a)) && !s.d.closed ==> s.tally.lost == 0)
            && (s.d.suppressed > 0 ==> s.windows != [] && s.windows[|s.windows| - 1].own == s0.limits.burst)
            && (forall k | 0 <= k < |s.windows| :: 1 <= s.windows[k].own <= s0.limits.burst)
            && (forall k | 0 <= k < |s.windows| - 1 && s.drainedAt != Some(k + 1) ::
                  s.windows[k + 1].start - s.windows[k].start >= s0.limits.window)
  {
    DenialsFrom(s0, acts);
  }

  // ----- Shutdown.

  /** Nobody is left in the log and nothing is held. */
  predicate Quiet(s: State) {
    s.d.closed && !s.d.draining && s.d.suppressed == 0 && forall t | 0 <= t < |s.tasks| :: s.tasks[t].Left?
  }

  lemma {:induction false} QuietStays(s: State, acts: seq<Act>)
    requires Quiet(s) && Acts(s, acts).Some?
    ensures Quiet(Acts(s, acts).value) && Acts(s, acts).value.tally == s.tally && Acts(s, acts).value.windows == s.windows
    decreases |acts|
  {
    if acts != [] {
      QuietStays(Perform(s, acts[0]), acts[1..]);
    }
  }

  /**
   A drain that was waited out leaves nothing held and nothing on its way: from then on every denial
   ever accounted is written, or was lost with a failed append.
   */
  lemma {:induction false} CompletedDrain(s0: State, acts: seq<Act>, now: Instant, ok: bool, more: seq<Act>)
    requires Fresh(s0) && Acts(s0, acts).Some?
    requires var s := Acts(s0, acts).value;
             s.d.inflight == 0 && CanAct(s, EndDrain(now, ok)) && Acts(Perform(s, EndDrain(now, ok)), more).Some?
    ensures var s := Acts(s0, acts).value;
            var end := Acts(Perform(s, EndDrain(now, ok)), more).value;
            && end.d.suppressed == 0 && Sum(end.tasks, Active) == 0
            && end.tally.accounted == s.tally.accounted == end.tally.ownWritten + end.tally.summaryWritten + end.tally.lost
            && end.tally.lost == s.tally.lost + (if ok then 0 else s.d.suppressed)
  {
    DenialsFrom(s0, acts);
    var s := Acts(s0, acts).value;
    assert TaskInv(s);
    assert Sum(s.tasks, Active) == 0;
    forall t | 0 <= t < |s.tasks| ensures s.tasks[t].Left? { NoneActive(s.tasks, t); }
    var closed := Perform(s, EndDrain(now, ok));
    DenialStep(s, EndDrain(now, ok));
    hide CanAct, Account, TakeExpired, WindowInv, Spaced;
    QuietStays(closed, more);
    DenialsFrom(closed, more);
    AllLeft(closed.tasks);
    AllLeft(Acts(closed, more).value.tasks);
  }

  lemma {:induction false} AllLeft(tasks: seq<Task>)
    requires forall t | 0 <= t < |tasks| :: tasks[t].Left?
    ensures Sum(tasks, Active) == 0 && Sum(tasks, Own) == 0 && Sum(tasks, Held) == 0
  {
    if tasks != [] {
      AllLeft(tasks[..|tasks| - 1]);
    }
  }

  /** A drain ends before its bound exactly when every task has left the log. */
  lemma {:induction false} DrainEndsIff(s0: State, acts: seq<Act>, now: Instant, ok: bool)
    requires Fresh(s0) && Acts(s0, acts).Some?
    ensures var s := Acts(s0, acts).value;
            CanAct(s, EndDrain(now, ok)) <==>
              && s.d.draining && s.clock <= now
              && ((forall t | 0 <= t < |s.tasks| :: s.tasks[t].Left?)
                  || (s.drainBegan.Some? && s.drainBegan.value + s.limits.drain <= now))
  {
    DenialsFrom(s0, acts);
    var s := Acts(s0, acts).value;
    hide Acts, Fresh, WindowInv, Spaced, Conserved;
    if s.d.inflight == 0 {
      forall t | 0 <= t < |s.tasks| ensures s.tasks[t].Left? { NoneActive(s.tasks, t); }
    } else if forall t | 0 <= t < |s.tasks| :: s.tasks[t].Left? {
      AllLeft(s.tasks);
    }
  }

  lemma {:induction false} Then(s: State, a: Act, rest: seq<Act>)
    requires CanAct(s, a)
    ensures Acts(s, [a] + rest) == Acts(Perform(s, a), rest)
  {
    assert ([a] + rest)[0] == a && ([a] + rest)[1..] == rest;
  }

  /** The drain has waited its ten seconds; at their end one denial opened a window, and two more are under way. */
  function Stragglers(s0: State): State {
    s0.(d := Counter(Some(10), 1, 0, 3, true, false), clock := 10, tasks := [OwnLine, Joined, Joined],
        tally := Tally(1, 0, 0, 0), windows := [Window(10, 1)], drainBegan := Some(0))
  }

  const JOIN := BeginTask(true)
  const LATE: seq<Act> := [EndDrain(10, true), Deny(1, 10), Deny(2, 10)]

  lemma {:induction false} ReachStragglers(s0: State)
    requires Fresh(s0) && s0.limits == Limits(1, 1, 10) && s0.clock <= 0
    ensures Acts(s0, [JOIN, JOIN, JOIN, BeginDrain(0), Deny(0, 10)] + LATE) == Acts(Stragglers(s0), LATE)
  {
    hide Acts;
    var s1 := Perform(s0, JOIN);
    var s2 := Perform(s1, JOIN);
    var s3 := Perform(s2, JOIN);
    assert s3.tasks == [Joined, Joined, Joined];
    var s4 := Perform(s3, BeginDrain(0));
    assert Perform(s4, Deny(0, 10)).tasks == [OwnLine, Joined, Joined] && Perform(s4, Deny(0, 10)).windows == [Window(10, 1)];
    Then(s4, Deny(0, 10), LATE);
    Then(s3, BeginDrain(0), [Deny(0, 10)] + LATE);
    Then(s2, JOIN, [BeginDrain(0)] + ([Deny(0, 10)] + LATE));
    Then(s1, JOIN, [JOIN] + ([BeginDrain(0)] + ([Deny(0, 10)] + LATE)));
    Then(s0, JOIN, [JOIN] + ([JOIN] + ([BeginDrain(0)] + ([Deny(0, 10)] + LATE))));
    hide Perform, CanAct;
    assert [JOIN, JOIN, JOIN, BeginDrain(0), Deny(0, 10)] + LATE
        == [JOIN] + ([JOIN] + ([JOIN] + ([BeginDrain(0)] + ([Deny(0, 10)] + LATE))));
  }

  lemma StragglersAreLate(s: State)
    requires s.limits == Limits(1, 1, 10) && !s.fileClosed
    ensures var end := Acts(Stragglers(s), LATE);
            && end.Some? && end.value.d.closed && end.value.d.suppressed == 1 && end.value.tally.lost == 0
            && end.value.windows == [Window(10, 1), Window(10, 1)]
  {
    var s5 := Stragglers(s);
    var s6 := Perform(s5, EndDrain(10, true));
    var s7 := Perform(s6, Deny(1, 10));
    var s8 := Perform(s7, Deny(2, 10));
    assert Acts(s8, []) == Some(s8);
    hide Acts;
    Then(s7, Deny(2, 10), []);
    Then(s6, Deny(1, 10), [Deny(2, 10)]);
    Then(s5, EndDrain(10, true), [Deny(1, 10)] + [Deny(2, 10)]);
    assert LATE == [EndDrain(10, true)] + ([Deny(1, 10)] + [Deny(2, 10)]);
    assert [Deny(2, 10)] + [] == [Deny(2, 10)];
  }

  /**
   Where the wait is cut off both fail: after a drain that timed out a straggler opens a window too early, and
   the denial counted in it stays held, in no line of the closed log.
   */
  lemma {:induction false} TimedOutDrainLosesCount(s0: State)
    requires Fresh(s0) && s0.limits == Limits(1, 1, 10) && s0.clock <= 0
    ensures var end := Acts(s0, [JOIN, JOIN, JOIN, BeginDrain(0), Deny(0, 10)] + LATE);
            && end.Some? && end.value.d.closed && end.value.d.suppressed == 1 && end.value.tally.lost == 0
            && end.value.windows == [Window(10, 1), Window(10, 1)]
  {
    hide Acts, Stragglers;
    ReachStragglers(s0);
    StragglersAreLate(s0);
  }
}
