/** What the gate's invariant says about whole runs: one entry per admission, none after a kill, and no ticket lost to a suspend. */
module FenceRuns {
  import opened Common
  import opened Halt
  import opened Reasons
  import opened Approval
  import opened Runtime
  import opened Evaluate
  import opened Gate
  import opened GateRuns

  lemma {:induction false} RunKeepsInv(s: Sys, acts: seq<Action>)
    requires Inv(s) && Execute(s, acts).Some?
    ensures var s' := Execute(s, acts).value;
            && Inv(s') && NoLessHalted(s.rt, s'.rt) && s.log <= s'.log
            && |s.invokes| <= |s'.invokes|
            && (forall i | 0 <= i < |s.invokes| && s.invokes[i].Decided? :: s'.invokes[i] == s.invokes[i])
    decreases |acts|
  {
    hide Inv, Next, Enabled, RtInv, TableInv, ConsumedStays;
    if acts != [] {
      var s1 := Next(s, acts[0]);
      StepKeepsInv(s, acts[0]);
      StepGrows(s, acts[0]);
      RunKeepsInv(s1, acts[1..]);
    }
  }

  lemma InitialInv(s: Sys)
    requires Initial(s)
    ensures Inv(s)
  {}

  // ----- At most one entry.

  predicate EnteredAt(s: Sys, i: nat, c: nat, k: nat) {
    k < |s.log| && s.log[k] == ToolEntered(i, c)
  }

  /**
   In every run, each time the tool is entered it is for an admission that was allowed, through the one
   permit of that admission, given to that very completion earlier in the run.
   */
  lemma {:induction false} EntriesOverARun(s0: Sys, acts: seq<Action>, i: nat, c: nat, k: nat)
    requires Initial(s0) && Execute(s0, acts).Some? && EnteredAt(Execute(s0, acts).value, i, c, k)
    ensures var s := Execute(s0, acts).value;
            && i < |s.invokes| && s.invokes[i].Decided? && s.invokes[i].decision.Allow?
            && Permit(i, c) in s.log[..k]
            && (forall d: nat | Permit(i, d) in s.log :: d == c)
  {
    InitialInv(s0);
    RunKeepsInv(s0, acts);
    var s := Execute(s0, acts).value;
    EntryHasPermit(s, i, c, k);
    hide Execute, Inv;
    forall d: nat | Permit(i, d) in s.log ensures d == c {
      OnePermit(s, i, c, d);
    }
  }

  /** Two entries in a run are for two admissions, and never rest on the same grant. */
  lemma {:induction false} NoSecondEntry(s0: Sys, acts: seq<Action>, i: nat, c: nat, k: nat, j: nat, d: nat, m: nat)
    requires Initial(s0) && Execute(s0, acts).Some?
    requires EnteredAt(Execute(s0, acts).value, i, c, k) && EnteredAt(Execute(s0, acts).value, j, d, m) && k != m
    ensures i != j
    ensures var s := Execute(s0, acts).value;
            && i < |s.invokes| && j < |s.invokes|
            && (Holds(s.invokes[i]) && Holds(s.invokes[j]) ==> GrantOf(s.invokes[i]) != GrantOf(s.invokes[j]))
  {
    InitialInv(s0);
    RunKeepsInv(s0, acts);
    EntriesApart(Execute(s0, acts).value, i, c, k, j, d, m);
  }

  lemma EntriesApart(s: Sys, i: nat, c: nat, k: nat, j: nat, d: nat, m: nat)
    requires Inv(s) && EnteredAt(s, i, c, k) && EnteredAt(s, j, d, m) && k != m
    ensures i != j && i < |s.invokes| && j < |s.invokes|
    ensures Holds(s.invokes[i]) && Holds(s.invokes[j]) ==> GrantOf(s.invokes[i]) != GrantOf(s.invokes[j])
  {
    EntryHasPermit(s, i, c, k);
    EntryHasPermit(s, j, d, m);
    hide RtInv, TableInv, CompletionInv, EventInv, InvokeInv;
    if i != j && Holds(s.invokes[i]) && Holds(s.invokes[j]) {
      OneGrantEach(s, i, j);
    }
  }

  lemma OneGrantEach(s: Sys, i: nat, j: nat)
    requires Invokes(s) && i < |s.invokes| && j < |s.invokes| && i != j && Holds(s.invokes[i]) && Holds(s.invokes[j])
    ensures GrantOf(s.invokes[i]) != GrantOf(s.invokes[j])
  {
    hide InvokeInv, Holds;
    var lo, hi := if i < j then i else j, if i < j then j else i;
    assert Apart(s.invokes[lo], s.invokes[hi]);
  }

  lemma OneTicketEach(s: Sys, i: nat, j: nat)
    requires Invokes(s) && i < |s.invokes| && j < |s.invokes| && !s.invokes[i].Started? && !s.invokes[j].Started?
    ensures i != j ==> s.invokes[i].id != s.invokes[j].id
  {
    hide InvokeInv, Holds;
    if i != j {
      var lo, hi := if i < j then i else j, if i < j then j else i;
      assert Apart(s.invokes[lo], s.invokes[hi]);
    }
  }

  lemma EntryHasPermit(s: Sys, i: nat, c: nat, k: nat)
    requires Inv(s) && EnteredAt(s, i, c, k)
    ensures i < |s.invokes| && s.invokes[i].Decided? && s.invokes[i].decision.Allow?
    ensures Permit(i, c) in s.log[..k]
  {
    assert EventInv(s, s.log[k]);
    assert CompletionInv(s, c);
    hide InvokeInv, RtInv, TableInv, Apart;
    var m :| 0 <= m < |s.log| && s.log[m] == Permit(i, c);
    assert m < k;
    assert s.log[..k][m] == Permit(i, c);
  }

  // ----- The cut.

  /**
   The fence moves the epoch exactly when a kill cut is in the log, there is one cut at most, and
   nothing follows a cut except entries that had their permit before it.
   */
  lemma {:induction false} CutOverARun(s0: Sys, acts: seq<Action>, k: nat)
    requires Initial(s0) && Execute(s0, acts).Some?
    ensures var s := Execute(s0, acts).value;
            && s.rt.epoch == (if Cut in s.log then 1 else 0)
            && (s.rt.mode.Killed? <==> Cut in s.log)
            && (k < |s.log| && s.log[k].Cut? ==>
                  forall m | k < m < |s.log| :: s.log[m].ToolEntered? && Permit(s.log[m].i, s.log[m].c) in s.log[..k])
  {
    InitialInv(s0);
    RunKeepsInv(s0, acts);
    var s := Execute(s0, acts).value;
    hide Execute, Invokes, CompletionInv, EventInv, TableInv;
    if k < |s.log| && s.log[k].Cut? {
      forall m | k < m < |s.log|
        ensures s.log[m].ToolEntered? && Permit(s.log[m].i, s.log[m].c) in s.log[..k]
      {
        assert InOrder(s.log[k], s.log[m]);
        EntryHasPermit(s, s.log[m].i, s.log[m].c, m);
        var n :| 0 <= n < m && s.log[n] == Permit(s.log[m].i, s.log[m].c);
        assert n < k;
        assert s.log[..k][n] == s.log[n];
      }
    }
  }

  /** After a cut an allowed admission is refused at the fence wherever it stands, for ever. */
  lemma {:induction false} CutRefuses(s: Sys, acts: seq<Action>, i: nat)
    requires Inv(s) && s.rt.engaged && i < |s.invokes| && s.invokes[i].Decided? && s.invokes[i].decision.Allow?
    requires Execute(s, acts).Some?
    ensures var s' := Execute(s, acts).value;
            && i < |s'.invokes| && s'.invokes[i] == s.invokes[i]
            && EntryBlock(s'.rt, s.invokes[i].epoch) == Some(LATE_EFFECT_FENCE)
  {
    assert InvokeInv(s.invokes[i], s.rt, s.grants);
    hide Execute, Log, TableInv;
    RunKeepsInv(s, acts);
  }

  // ----- A suspend loses no ticket.

  predicate TookPermit(s: Sys, id: nat, c: nat) {
    OnDecided(s, c) && s.invokes[s.completions[c].inv].id == id && (s.completions[c].Permitted? || s.completions[c].Entered?)
  }

  /** A spent ticket was permitted, or was refused by a halt, which lasts. */
  ghost predicate SpentInv(s: Sys) {
    forall id | id in s.rt.spent :: s.rt.Halted() || exists c: nat :: TookPermit(s, id, c)
  }

  lemma PersistKeepsSpent(rt: Rt, disk: Disk, expected: Option<HaltMode>, pending: Option<HaltMode>, io: Io)
    ensures PersistHalt(rt, disk, expected, pending, io).0.spent == rt.spent
  {}

  lemma CallKeepsSpent(rt: Rt, disk: Disk, call: RuntimeCall)
    requires !call.ClaimCall?
    ensures ApplyCall(rt, disk, call).0.spent == rt.spent
  {
    hide PersistHalt;
    match call
    case KillCall(io) => PersistKeepsSpent(Engage(rt).(mode := Killed), disk, None, None, io);
    case SuspendCall(expected, io) =>
      PersistKeepsSpent(rt.(mode := Suspended), disk, None, None, io);
      PersistKeepsSpent(rt, disk, expected, Some(Suspended), io);
    case ResumeCall(expected, io) =>
      PersistKeepsSpent(rt.(mode := Active), disk, None, None, io);
      PersistKeepsSpent(rt, disk, expected, Some(Active), io);
    case MarkUnavailableCall(io) => PersistKeepsSpent(rt.(available := false), disk, None, None, io);
    case _ =>
  }

  /** A step spends a ticket only by a claim, and then it permits it or is halted. */
  lemma StepSpends(s: Sys, a: Action)
    requires Enabled(s, a) && RtInv(s.rt)
    ensures var s' := Next(s, a);
            s'.rt.spent == s.rt.spent
            || ((a.Claim? || a.YieldLock?) && OnDecided(s, a.c) && s'.rt.spent == s.rt.spent + {s.invokes[s.completions[a.c].inv].id}
                && (s.rt.Halted() || TookPermit(s', s.invokes[s.completions[a.c].inv].id, a.c)))
  {
    hide ConsumeStep, ConsumeOf, EarlyDeny, Admissible, Apply, PersistHalt, ApplyCall, FinalizeAllow,
         ImplementationStillMatches, StateStillMatches, RevokeCovered;
    match a
    case OtherCall(call) => CallKeepsSpent(s.rt, s.disk, call);
    case KillPersist(io) => PersistKeepsSpent(s.rt, s.disk, None, None, io);
    case _ =>
  }

  lemma PermitStays(s: Sys, a: Action, id: nat, c: nat)
    requires Inv(s) && Enabled(s, a) && TookPermit(s, id, c)
    ensures TookPermit(Next(s, a), id, c)
  {
    StepGrows(s, a);
    OtherCompletionsStay(s, a, c);
    if MovedCompletion(a) == Some(c) {
      MovedCompletionStep(s, a, c);
    }
    hide Next, Inv, RtInv, TableInv, ConsumedStays;
  }

  lemma SpentStep(s: Sys, a: Action)
    requires Inv(s) && SpentInv(s) && Enabled(s, a)
    ensures SpentInv(Next(s, a))
  {
    hide Next, Enabled, TableInv, ConsumedStays, Invokes, Log, TookPermit;
    var s' := Next(s, a);
    StepGrows(s, a);
    StepSpends(s, a);
    forall id | id in s'.rt.spent ensures s'.rt.Halted() || exists c: nat :: TookPermit(s', id, c) {
      if id in s.rt.spent && !s.rt.Halted() {
        var c: nat :| TookPermit(s, id, c);
        PermitStays(s, a, id, c);
      }
    }
  }

  lemma {:induction false} RunKeepsSpent(s: Sys, acts: seq<Action>)
    requires Inv(s) && SpentInv(s) && Execute(s, acts).Some?
    ensures SpentInv(Execute(s, acts).value)
    decreases |acts|
  {
    hide Inv, Next, Enabled, SpentInv;
    if acts != [] {
      StepKeepsInv(s, acts[0]);
      SpentStep(s, acts[0]);
      RunKeepsSpent(Next(s, acts[0]), acts[1..]);
    }
  }

  /** While the runtime is open, a ticket is spent exactly when a permit was given for it: a suspend in between spends nothing. */
  lemma {:induction false} OpenTicketSpentIff(s0: Sys, acts: seq<Action>, i: nat)
    requires Initial(s0) && s0.rt.spent == {} && Execute(s0, acts).Some?
    requires var s := Execute(s0, acts).value;
             s.rt.Open() && i < |s.invokes| && s.invokes[i].Decided?
    ensures var s := Execute(s0, acts).value;
            s.invokes[i].id in s.rt.spent <==> exists c: nat :: Permit(i, c) in s.log
  {
    InitialInv(s0);
    RunKeepsInv(s0, acts);
    RunKeepsSpent(s0, acts);
    var s := Execute(s0, acts).value;
    hide Execute, RtInv, TableInv, EventInv, InOrder;
    if s.invokes[i].id in s.rt.spent {
      var c: nat :| TookPermit(s, s.invokes[i].id, c);
      assert CompletionInv(s, c);
      var j := s.completions[c].inv;
      OneTicketEach(s, i, j);
      assert Permit(i, c) in s.log;
    }
    if c: nat :| Permit(i, c) in s.log {
      PermitSpends(s, i, c);
    }
  }

  /** The six steps of one completion that nothing interrupts. */
  function CompletionSteps(i: nat, c: nat, entry: Entry): seq<Action> {
    [Complete(i), ReadFence(c), ReadSpent(c), Reobserve(c, entry), Claim(c), EnterTool(c)]
  }

  lemma {:induction false} Then(s: Sys, a: Action, rest: seq<Action>)
    requires Enabled(s, a)
    ensures Execute(s, [a] + rest) == Execute(Next(s, a), rest)
  {
    assert ([a] + rest)[0] == a && ([a] + rest)[1..] == rest;
  }

  /**
   However often its completion was refused while suspended, an allowed admission that has had no
   permit yet enters the tool once the runtime is open again and the host's observers still agree.
   */
  lemma {:induction false} SuspendedTicketStillEnters(s0: Sys, acts: seq<Action>, i: nat, entry: Entry)
    requires Initial(s0) && s0.rt.spent == {} && Execute(s0, acts).Some?
    requires var s := Execute(s0, acts).value;
             && s.rt.Open() && s.stage.NoKill?
             && i < |s.invokes| && s.invokes[i].Decided? && s.invokes[i].decision.Allow?
             && ImplementationStillMatches(s.invokes[i].decision, entry) && StateStillMatches(s.invokes[i].decision, entry)
             && forall c: nat :: Permit(i, c) !in s.log
    ensures var s := Execute(s0, acts).value;
            var c := |s.completions|;
            var end := Execute(s, CompletionSteps(i, c, entry));
            end.Some? && end.value.log == s.log + [Permit(i, c), ToolEntered(i, c)]
  {
    InitialInv(s0);
    RunKeepsInv(s0, acts);
    OpenTicketSpentIff(s0, acts, i);
    var s := Execute(s0, acts).value;
    assert InvokeInv(s.invokes[i], s.rt, s.grants);
    EntersAlone(s, i, entry);
  }

  lemma {:induction false} EntersAlone(s: Sys, i: nat, entry: Entry)
    requires s.rt.Open() && s.stage.NoKill? && !s.rt.engaged
    requires i < |s.invokes| && s.invokes[i].Decided? && s.invokes[i].decision.Allow? && s.invokes[i].id !in s.rt.spent
    requires ImplementationStillMatches(s.invokes[i].decision, entry) && StateStillMatches(s.invokes[i].decision, entry)
    ensures var c := |s.completions|;
            var end := Execute(s, CompletionSteps(i, c, entry));
            end.Some? && end.value.log == s.log + [Permit(i, c), ToolEntered(i, c)]
  {
    hide Execute, Next, Enabled;
    var c := |s.completions|;
    var s1 := s.(completions := s.completions + [Begun(i)]);
    var s2 := SetCompletion(s1, c, FenceOpen(i));
    var s3 := SetCompletion(s2, c, Unspent(i));
    var s4 := SetCompletion(s3, c, Reobserved(i));
    var s5 := SetCompletion(s4, c, Permitted(i)).(rt := ClaimEntry(s.rt, s.invokes[i].id, s.invokes[i].epoch).1,
                                                  log := s.log + [Permit(i, c)]);
    var s6 := SetCompletion(s5, c, Entered(i)).(log := s5.log + [ToolEntered(i, c)]);
    assert Enabled(s, Complete(i)) && Next(s, Complete(i)) == s1 by { OpenComplete(s, i); }
    assert Enabled(s1, ReadFence(c)) && Next(s1, ReadFence(c)) == s2 by { OpenReads(s1, c, entry); }
    assert Enabled(s2, ReadSpent(c)) && Next(s2, ReadSpent(c)) == s3 by { OpenReads(s2, c, entry); }
    assert Enabled(s3, Reobserve(c, entry)) && Next(s3, Reobserve(c, entry)) == s4 by { OpenReads(s3, c, entry); }
    assert Enabled(s4, Claim(c)) && Next(s4, Claim(c)) == s5 by { OpenClaim(s4, c); }
    assert Enabled(s5, EnterTool(c)) && Next(s5, EnterTool(c)) == s6 by { PermittedEnters(s5, c); }
    Chain(s, s1, s2, s3, s4, s5, s6, CompletionSteps(i, c, entry));
  }

  lemma OpenComplete(s: Sys, i: nat)
    requires i < |s.invokes| && s.invokes[i].Decided? && s.invokes[i].decision.Allow?
    ensures Enabled(s, Complete(i)) && Next(s, Complete(i)) == s.(completions := s.completions + [Begun(i)])
  {}

  lemma OpenReads(s: Sys, c: nat, entry: Entry)
    requires OnDecided(s, c) && s.stage.NoKill? && s.rt.Open() && !s.rt.engaged
    requires var v := s.invokes[s.completions[c].inv];
             && v.decision.Allow? && v.id !in s.rt.spent
             && ImplementationStillMatches(v.decision, entry) && StateStillMatches(v.decision, entry)
    ensures s.completions[c].Begun? ==>
              Enabled(s, ReadFence(c)) && Next(s, ReadFence(c)) == SetCompletion(s, c, FenceOpen(s.completions[c].inv))
    ensures s.completions[c].FenceOpen? ==>
              Enabled(s, ReadSpent(c)) && Next(s, ReadSpent(c)) == SetCompletion(s, c, Unspent(s.completions[c].inv))
    ensures s.completions[c].Unspent? ==>
              Enabled(s, Reobserve(c, entry)) && Next(s, Reobserve(c, entry)) == SetCompletion(s, c, Reobserved(s.completions[c].inv))
  {
    hide ImplementationStillMatches, StateStillMatches;
  }

  lemma OpenClaim(s: Sys, c: nat)
    requires OnDecided(s, c) && s.stage.NoKill? && s.rt.Open() && !s.rt.engaged && s.completions[c].Reobserved?
    requires s.invokes[s.completions[c].inv].id !in s.rt.spent
    ensures Enabled(s, Claim(c))
    ensures var i := s.completions[c].inv; var v := s.invokes[i];
            Next(s, Claim(c))
            == SetCompletion(s, c, Permitted(i)).(rt := ClaimEntry(s.rt, v.id, v.epoch).1, log := s.log + [Permit(i, c)])
  {}

  lemma PermittedEnters(s: Sys, c: nat)
    requires c < |s.completions| && s.completions[c].Permitted?
    ensures Enabled(s, EnterTool(c))
    ensures var i := s.completions[c].inv; Next(s, EnterTool(c)) == SetCompletion(s, c, Entered(i)).(log := s.log + [ToolEntered(i, c)])
  {}

  lemma {:induction false} Chain(s: Sys, s1: Sys, s2: Sys, s3: Sys, s4: Sys, s5: Sys, s6: Sys, acts: seq<Action>)
    requires |acts| == 6
    requires Enabled(s, acts[0]) && s1 == Next(s, acts[0]) && Enabled(s1, acts[1]) && s2 == Next(s1, acts[1])
    requires Enabled(s2, acts[2]) && s3 == Next(s2, acts[2]) && Enabled(s3, acts[3]) && s4 == Next(s3, acts[3])
    requires Enabled(s4, acts[4]) && s5 == Next(s4, acts[4]) && Enabled(s5, acts[5]) && s6 == Next(s5, acts[5])
    ensures Execute(s, acts) == Some(s6)
  {
    hide Next, Enabled;
    assert acts == [acts[0]] + acts[1..] && acts[1..] == [acts[1]] + acts[2..] && acts[2..] == [acts[2]] + acts[3..];
    assert acts[3..] == [acts[3]] + acts[4..] && acts[4..] == [acts[4]] + acts[5..] && acts[5..] == [acts[5]] + [];
    Then(s, acts[0], acts[1..]);
    Then(s1, acts[1], acts[2..]);
    Then(s2, acts[2], acts[3..]);
    Then(s3, acts[3], acts[4..]);
    Then(s4, acts[4], acts[5..]);
    Then(s5, acts[5], []);
  }
}
