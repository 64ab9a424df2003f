/** What denials that outlive the drain at shutdown can still do: exactly when one is lost in a count, or opens a window too early. */
module DrainRuns {
  import opened Common
  import opened DenialLogs
  import opened DenialRuns

  function Waiting(t: Task): nat { if t.Joined? then 1 else 0 }

  /** How many denials hold their own ticket and are not accounted yet. */
  function Joiners(s: State): nat { Sum(s.tasks, Waiting) }

  /** The windows from the drain on are the late ones; the first of them starts within a window of the one before. */
  predicate OpenedEarly(s: State) {
    && s.drainedAt.Some?
    && 0 < s.drainedAt.value < |s.windows|
    && s.windows[s.drainedAt.value].start - s.windows[s.drainedAt.value - 1].start < s.limits.window
  }

  /** What stays true after the close at `c`: nobody joins, so its joiners bound what can be accounted. */
  predicate AfterClose(c: State, s: State) {
    && s.d.closed && !s.d.draining && s.limits == c.limits && s.clock >= c.clock && s.drainedAt == Some(|c.windows|)
    && Joiners(s) + (if s.d.windowStart.Some? then s.d.windowWritten else 0) + s.d.suppressed <= Joiners(c)
    && |c.windows| <= |s.windows| && s.windows[..|c.windows|] == c.windows
    && (s.d.windowStart.Some? ==> |c.windows| < |s.windows|)
    && (|c.windows| < |s.windows| ==> Joiners(c) > 0 && s.windows[|c.windows|].start >= c.clock)
  }

  lemma WaitingStep(s: State, a: Act)
    requires CanAct(s, a) && s.d.closed
    ensures Joiners(Perform(s, a)) == Joiners(s) - if a.Deny? then 1 else 0
  {
    var s' := Perform(s, a);
    if TaskOf(a).Some? {
      var t := TaskOf(a).value;
      assert s'.tasks == s.tasks[t := s'.tasks[t]];
      SumUpdate(s.tasks, t, s'.tasks[t], Waiting);
    }
  }

  lemma DenyAfterClose(c: State, s: State, t: nat, now: Instant)
    requires AfterClose(c, s) && CanAct(s, Deny(t, now)) && (s.d.windowStart.None? ==> s.d.suppressed == 0)
    ensures AfterClose(c, Perform(s, Deny(t, now)))
  {
    WaitingStep(s, Deny(t, now));
    hide Sum;
    var n := |c.windows|;
    var s' := Perform(s, Deny(t, now));
    if s.d.windowStart.None? || now - s.d.windowStart.value >= s.limits.window {
      assert s'.windows == s.windows + [Window(now, 1)];
    } else if s.d.windowWritten < s.limits.burst {
      assert s'.windows[..n] == s.windows[..n];
    }
  }

  lemma ClosedStep(c: State, s: State, a: Act)
    requires AfterClose(c, s) && WindowInv(s) && CanAct(s, a)
    ensures AfterClose(c, Perform(s, a))
  {
    match a
    case Deny(t, now) => DenyAfterClose(c, s, t, now);
    case _ =>
      WaitingStep(s, a);
      hide Sum;
  }

  lemma {:induction false} ClosedRun(c: State, s: State, more: seq<Act>)
    requires AfterClose(c, s) && DenialInv(s) && Acts(s, more).Some?
    ensures AfterClose(c, Acts(s, more).value) && DenialInv(Acts(s, more).value)
    decreases |more|
  {
    if more != [] {
      ClosedStep(c, s, more[0]);
      DenialStep(s, more[0]);
      hide AfterClose, DenialInv, Perform, CanAct;
      ClosedRun(c, Perform(s, more[0]), more[1..]);
    }
  }

  lemma {:induction false} SomeJoiner(tasks: seq<Task>) returns (t: nat)
    requires Sum(tasks, Waiting) > 0
    ensures t < |tasks| && tasks[t].Joined?
  {
    var n := |tasks| - 1;
    if tasks[n].Joined? {
      t := n;
    } else {
      t := SomeJoiner(tasks[..n]);
    }
  }

  /** One joiner denies at once. */
  lemma OneDenies(s: State) returns (a: Act)
    requires s.d.closed && Joiners(s) > 0
    ensures a.Deny? && a.now == s.clock && CanAct(s, a)
    ensures var s' := Perform(s, a);
            && s'.d == Account(s.d, s.limits, s.clock).0 && s'.clock == s.clock && s'.limits == s.limits
            && Joiners(s') == Joiners(s) - 1 && s'.drainedAt == s.drainedAt
            && (s.d.windowStart.None? ==> s'.windows == s.windows + [Window(s.clock, 1)])
  {
    var t := SomeJoiner(s.tasks);
    a := Deny(t, s.clock);
    WaitingStep(s, a);
    hide Sum;
  }

  /** With more joiners than the open window has room for, some denial ends up in the held count. */
  lemma {:induction false} DenyUntilHeld(s: State) returns (acts: seq<Act>)
    requires s.d.closed && s.limits.Usable() && s.d.windowStart == Some(s.clock) && s.d.windowWritten <= s.limits.burst
    requires Joiners(s) > s.limits.burst - s.d.windowWritten
    ensures Acts(s, acts).Some? && Acts(s, acts).value.d.suppressed > 0
    decreases s.limits.burst - s.d.windowWritten
  {
    var a := OneDenies(s);
    var s' := Perform(s, a);
    if s.d.windowWritten == s.limits.burst {
      acts := [a];
      assert Acts(s', []) == Some(s');
      Then(s, a, []);
    } else {
      hide Perform, CanAct;
      var rest := DenyUntilHeld(s');
      acts := [a] + rest;
      Then(s, a, rest);
    }
  }

  lemma JustClosed(s: State, now: Instant, ok: bool)
    requires DenialInv(s) && CanAct(s, EndDrain(now, ok))
    ensures var c := Perform(s, EndDrain(now, ok));
            && AfterClose(c, c) && DenialInv(c) && Joiners(c) == Joiners(s) && c.d.windowStart.None? && c.d.suppressed == 0
            && c.windows == s.windows && c.clock == now && c.limits == s.limits
  {
    DenialStep(s, EndDrain(now, ok));
    hide Sum, Conserved, Spaced;
  }

  ghost predicate CanHold(c: State) {
    exists more :: Acts(c, more).Some? && Acts(c, more).value.d.suppressed > 0
  }

  ghost predicate CanOpenEarly(c: State) {
    exists more :: Acts(c, more).Some? && OpenedEarly(Acts(c, more).value)
  }

  lemma HoldsIff(s: State, now: Instant, ok: bool)
    requires DenialInv(s) && CanAct(s, EndDrain(now, ok))
    ensures CanHold(Perform(s, EndDrain(now, ok))) <==> Joiners(s) > s.limits.burst
  {
    var c := Perform(s, EndDrain(now, ok));
    JustClosed(s, now, ok);
    hide Perform, CanAct, Sum, Acts, Conserved, Spaced, TaskInv;
    forall more | Acts(c, more).Some? && Acts(c, more).value.d.suppressed > 0 ensures Joiners(s) > s.limits.burst {
      ClosedRun(c, c, more);
    }
    if Joiners(s) > s.limits.burst {
      var a := OneDenies(c);
      var rest := DenyUntilHeld(Perform(c, a));
      Then(c, a, rest);
      assert Acts(c, [a] + rest).value.d.suppressed > 0;
    }
  }

  /** A denial holds its ticket, and the last window started less than a window ago. */
  predicate RoomForEarly(s: State, now: Instant) {
    Joiners(s) > 0 && s.windows != [] && now - s.windows[|s.windows| - 1].start < s.limits.window
  }

  lemma {:induction false} EarlyHasRoom(c: State, more: seq<Act>)
    requires AfterClose(c, c) && DenialInv(c) && Acts(c, more).Some? && OpenedEarly(Acts(c, more).value)
    ensures RoomForEarly(c, c.clock)
  {
    hide Perform, CanAct, Sum, Acts, DenialInv;
    ClosedRun(c, c, more);
    var e, n := Acts(c, more).value, |c.windows|;
    assert e.windows[n - 1] == e.windows[..n][n - 1];
  }

  lemma RoomOpensEarly(c: State)
    requires AfterClose(c, c) && c.d.windowStart.None? && RoomForEarly(c, c.clock)
    ensures CanOpenEarly(c)
  {
    var a := OneDenies(c);
    hide Perform, CanAct, Sum;
    assert Acts(Perform(c, a), []) == Some(Perform(c, a));
    Then(c, a, []);
    assert OpenedEarly(Acts(c, [a] + []).value);
  }

  lemma OpensEarlyIff(s: State, now: Instant, ok: bool)
    requires DenialInv(s) && CanAct(s, EndDrain(now, ok))
    ensures CanOpenEarly(Perform(s, EndDrain(now, ok))) <==> RoomForEarly(s, now)
  {
    var c := Perform(s, EndDrain(now, ok));
    JustClosed(s, now, ok);
    hide Perform, CanAct, Sum, Acts, DenialInv, AfterClose;
    forall more | Acts(c, more).Some? && OpenedEarly(Acts(c, more).value) ensures RoomForEarly(c, c.clock) {
      EarlyHasRoom(c, more);
    }
    if RoomForEarly(c, c.clock) {
      RoomOpensEarly(c);
    }
  }

  lemma {:induction false} JoinersAreActive(tasks: seq<Task>)
    ensures Sum(tasks, Waiting) <= Sum(tasks, Active)
  {
    if tasks != [] {
      JoinersAreActive(tasks[..|tasks| - 1]);
    }
  }

  /** With a wait no shorter than a window, a window that was open when the drain began is over when it is cut off. */
  lemma OnlyYoungWindows(s: State, now: Instant, ok: bool)
    requires TaskInv(s) && CanAct(s, EndDrain(now, ok)) && RoomForEarly(s, now) && s.limits.window <= s.limits.drain
    ensures s.drainBegan.Some? && s.windows[|s.windows| - 1].start > s.drainBegan.value
  {
    JoinersAreActive(s.tasks);
  }

  /**
   At the end of any drain of any run, waited out or cut off, at clock `now`: a denial can still be left in a count
   that no line carries exactly when more denials hold their own ticket than a window has own lines; and a window
   can still start too early exactly when a denial holds its ticket and the last window started less than a window
   before `now`. Where the wait is no shorter than a window, that last window was opened during the drain.
   */
  lemma {:induction false} LateDenialsIff(s0: State, acts: seq<Act>, now: Instant, ok: bool)
    requires Fresh(s0) && Acts(s0, acts).Some? && CanAct(Acts(s0, acts).value, EndDrain(now, ok))
    ensures var s := Acts(s0, acts).value;
            var c := Perform(s, EndDrain(now, ok));
            && (CanHold(c) <==> Joiners(s) > s0.limits.burst)
            && (CanOpenEarly(c) <==> RoomForEarly(s, now))
            && (CanOpenEarly(c) && s0.limits.window <= s0.limits.drain ==>
                  s.drainBegan.Some? && s.windows[|s.windows| - 1].start > s.drainBegan.value)
  {
    DenialsFrom(s0, acts);
    var s := Acts(s0, acts).value;
    if RoomForEarly(s, now) && s.limits.window <= s.limits.drain {
      OnlyYoungWindows(s, now, ok);
    }
    hide Perform, CanAct, Sum, Acts, Conserved, Spaced, TaskInv, WindowInv;
    HoldsIff(s, now, ok);
    OpensEarlyIff(s, now, ok);
  }

  /** Calls that hang, with no denial holding a ticket when the drain ends, leave nothing held and no window too early. */
  lemma {:induction false} HungCallsHoldNothing(s0: State, acts: seq<Act>, now: Instant, ok: bool)
    requires Fresh(s0) && Acts(s0, acts).Some? && CanAct(Acts(s0, acts).value, EndDrain(now, ok))
    requires forall t | 0 <= t < |Acts(s0, acts).value.tasks| :: !Acts(s0, acts).value.tasks[t].Joined?
    ensures var c := Perform(Acts(s0, acts).value, EndDrain(now, ok)); !CanHold(c) && !CanOpenEarly(c)
  {
    hide Perform, CanAct, Acts, CanHold, CanOpenEarly;
    var s := Acts(s0, acts).value;
    LateDenialsIff(s0, acts, now, ok);
    if Joiners(s) > 0 {
      var t := SomeJoiner(s.tasks);
    }
  }
}
