/**
 Any number of admissions and completions, a kill in its three stages, every other
 runtime call and every store call, interleaved one locked section at a time.
 */
module GateRuns {
  import opened Common
  import opened Halt
  import opened Json
  import opened Reasons
  import opened Approval
  import opened Policy
  import opened Runtime
  import opened Evaluate
  import opened Gate

  datatype Invoke =
    | Started(q: Request)
    | Ticketed(q: Request, id: nat)
    | Epoched(q: Request, id: nat, epoch: nat)
    | Checked(q: Request, id: nat, epoch: nat, seen: nat)                      // evaluate has looked once
    | Drafted(q: Request, id: nat, epoch: nat, seen: nat, draft: Decision)     // its grant is spent
    | Decided(q: Request, id: nat, epoch: nat, decision: Decision)

  /** One call of complete on admission `inv`; an admission may be completed many times, also at once. */
  datatype Completion =
    | Begun(inv: nat)
    | FenceOpen(inv: nat)
    | Unspent(inv: nat)
    | Reobserved(inv: nat)
    | Yielded(inv: nat)
    | Permitted(inv: nat)
    | Entered(inv: nat)
    | TurnedAway(inv: nat, reason: ReasonCode)

  datatype Event = Cut | Allowed(i: nat) | Permit(i: nat, c: nat) | ToolEntered(i: nat, c: nat)

  /** A kill keeps the runtime lock over its three parts. */
  datatype KillStage = NoKill | CutDone | GrantsRevoked

  datatype Sys = Sys(
    policy: PolicyStore,
    rt: Rt,
    disk: Disk,
    grants: Table,
    stage: KillStage,
    invokes: seq<Invoke>,
    completions: seq<Completion>,
    log: seq<Event>)

  datatype Action =
    | Begin(q: Request)
    | MintId(i: nat)
    | ReadEpoch(i: nat)
    | FirstLook(i: nat)
    | TakeGrant(i: nat)
    | LastLook(i: nat)
    | Complete(i: nat)
    | ReadFence(c: nat)
    | ReadSpent(c: nat)
    | Reobserve(c: nat, entry: Entry)
    | YieldLock(c: nat)
    | Claim(c: nat)
    | EnterTool(c: nat)
    | KillCut
    | KillRevoke(at: Instant)
    | KillPersist(io: Io)
    | OtherCall(call: RuntimeCall)
    | GrantCall(storeCall: StoreCall)

  predicate TakesRuntimeLock(a: Action) {
    !(a.Begin? || a.TakeGrant? || a.Complete? || a.Reobserve? || a.EnterTool? || a.GrantCall? || a.KillRevoke? || a.KillPersist?)
  }

  predicate PhaseFits(s: Sys, a: Action) {
    match a
    case MintId(i) => i < |s.invokes| && s.invokes[i].Started?
    case ReadEpoch(i) => i < |s.invokes| && s.invokes[i].Ticketed?
    case FirstLook(i) => i < |s.invokes| && s.invokes[i].Epoched?
    case TakeGrant(i) => i < |s.invokes| && s.invokes[i].Checked? && Admissible(s.policy, s.invokes[i].q)
    case LastLook(i) => i < |s.invokes| && s.invokes[i].Drafted?
    case Complete(i) => i < |s.invokes| && s.invokes[i].Decided?
    case ReadFence(c) => OnDecided(s, c) && s.completions[c].Begun?
    case ReadSpent(c) => OnDecided(s, c) && s.completions[c].FenceOpen?
    case Reobserve(c, _) => OnDecided(s, c) && s.completions[c].Unspent?
    case YieldLock(c) => OnDecided(s, c) && s.completions[c].Reobserved?
    case Claim(c) => OnDecided(s, c) && (s.completions[c].Reobserved? || s.completions[c].Yielded?)
    case EnterTool(c) => c < |s.completions| && s.completions[c].Permitted?
    case KillRevoke(_) => s.stage.CutDone?
    case KillPersist(_) => s.stage.GrantsRevoked?
    case OtherCall(call) => call.SuspendCall? || call.ResumeCall? || call.MarkUnavailableCall? || call.DiskChanges?
    case _ => true
  }

  predicate OnDecided(s: Sys, c: nat) {
    c < |s.completions| && s.completions[c].inv < |s.invokes| && s.invokes[s.completions[c].inv].Decided?
  }

  predicate Enabled(s: Sys, a: Action) {
    PhaseFits(s, a) && (TakesRuntimeLock(a) ==> s.stage.NoKill?)
  }

  /** A change of the runtime; the cut is noted when the fence engages. */
  function SetRt(s: Sys, rt: Rt, disk: Disk): Sys {
    s.(rt := rt, disk := disk, log := if !s.rt.engaged && rt.engaged then s.log + [Cut] else s.log)
  }

  function SetInvoke(s: Sys, i: nat, v: Invoke): Sys
    requires i < |s.invokes|
  {
    s.(invokes := s.invokes[i := v])
  }

  function SetCompletion(s: Sys, c: nat, v: Completion): Sys
    requires c < |s.completions|
  {
    s.(completions := s.completions[c := v])
  }

  function DoClaim(s: Sys, c: nat): Sys
    requires OnDecided(s, c)
  {
    var i := s.completions[c].inv;
    var v := s.invokes[i];
    var (blocked, rt) := ClaimEntry(s.rt, v.id, v.epoch);
    if blocked.Some? then SetCompletion(s, c, TurnedAway(i, blocked.value)).(rt := rt)
    else SetCompletion(s, c, Permitted(i)).(rt := rt, log := s.log + [Permit(i, c)])
  }

  function Next(s: Sys, a: Action): Sys
    requires Enabled(s, a)
  {
    match a
    case Begin(q) => s.(invokes := s.invokes + [Started(q)])
    case MintId(i) => SetInvoke(s, i, Ticketed(s.invokes[i].q, Mint(s.rt).1)).(rt := Mint(s.rt).0)
    case ReadEpoch(i) => SetInvoke(s, i, Epoched(s.invokes[i].q, s.invokes[i].id, s.rt.epoch))
    case FirstLook(i) =>
      var v := s.invokes[i];
      var denied := EarlyDeny(s.rt, s.policy, v.q);
      SetInvoke(s, i, if denied.Some? then Decided(v.q, v.id, v.epoch, Deny(denied.value)) else Checked(v.q, v.id, v.epoch, s.rt.epoch))
    case TakeGrant(i) =>
      var v := s.invokes[i];
      if v.q.parsed.envelope.approvalId.None? then SetInvoke(s, i, Drafted(v.q, v.id, v.epoch, v.seen, Allow(None, None)))
      else
        var (result, grants) := ConsumeStep(s.grants, ConsumeOf(v.q));
        (match result
         case Granted(state, implementation) => SetInvoke(s, i, Drafted(v.q, v.id, v.epoch, v.seen, Allow(state, implementation)))
         case Refused(reason) => SetInvoke(s, i, Decided(v.q, v.id, v.epoch, Deny(reason)))).(grants := grants)
    case LastLook(i) =>
      var v := s.invokes[i];
      var d := FinalizeAllow(s.rt, v.seen, v.draft);
      SetInvoke(s, i, Decided(v.q, v.id, v.epoch, d)).(log := if d.Allow? then s.log + [Allowed(i)] else s.log)
    case Complete(i) =>
      s.(completions := s.completions + [if s.invokes[i].decision.Allow? then Begun(i) else TurnedAway(i, s.invokes[i].decision.reason)])
    case ReadFence(c) =>
      var i := s.completions[c].inv;
      var cut := EntryBlock(s.rt, s.invokes[i].epoch);
      SetCompletion(s, c, if cut.Some? then TurnedAway(i, cut.value) else FenceOpen(i))
    case ReadSpent(c) =>
      var i := s.completions[c].inv;
      SetCompletion(s, c, if s.invokes[i].id in s.rt.spent then TurnedAway(i, ADMISSION_CONSUMED) else Unspent(i))
    case Reobserve(c, entry) =>
      var i := s.completions[c].inv;
      var d := s.invokes[i].decision;
      SetCompletion(s, c,
        if !ImplementationStillMatches(d, entry) then TurnedAway(i, APPROVAL_IMPLEMENTATION_MISMATCH)
        else if !StateStillMatches(d, entry) then TurnedAway(i, APPROVAL_STATE_MISMATCH)
        else Reobserved(i))
    case YieldLock(c) =>
      var i := s.completions[c].inv;
      if s.invokes[i].id in s.rt.spent || EntryBlock(s.rt, s.invokes[i].epoch).Some? then DoClaim(s, c)
      else SetCompletion(s, c, Yielded(i))
    case Claim(c) => DoClaim(s, c)
    case EnterTool(c) =>
      var i := s.completions[c].inv;
      SetCompletion(s, c, Entered(i)).(log := s.log + [ToolEntered(i, c)])
    case KillCut => SetRt(s, Engage(s.rt).(mode := Killed), s.disk).(stage := CutDone)
    case KillRevoke(at) => s.(grants := RevokeCovered(s.grants, true, None, at), stage := GrantsRevoked)
    case KillPersist(io) =>
      var (rt, disk) := PersistHalt(s.rt, s.disk, None, None, io);
      SetRt(s, rt, disk).(stage := NoKill)
    case OtherCall(call) =>
      var (rt, disk) := ApplyCall(s.rt, s.disk, call);
      SetRt(s, rt, disk)
    case GrantCall(call) => s.(grants := Apply(s.grants, call))
  }

  predicate Initial(s: Sys) {
    && RtInv(s.rt) && !s.rt.engaged && TableInv(s.grants) && s.stage.NoKill?
    && s.invokes == [] && s.completions == [] && s.log == []
  }

  function Execute(s: Sys, acts: seq<Action>): Option<Sys>
    decreases |acts|
  {
    if acts == [] then Some(s)
    else if !Enabled(s, acts[0]) then None
    else Execute(Next(s, acts[0]), acts[1..])
  }

  /** The three stages of a kill, one after another, are the kill of the runtime and the revocation of every grant. */
  lemma {:induction false} KillStagesAreKill(s: Sys, io: Io)
    requires s.stage.NoKill?
    ensures var end := Execute(s, [KillCut, KillRevoke(io.at), KillPersist(io)]);
            && end.Some?
            && (end.value.rt, end.value.disk) == Kill(s.rt, s.disk, io)
            && end.value.grants == RevokeCovered(s.grants, true, None, io.at)
            && end.value == s.(rt := end.value.rt, disk := end.value.disk, grants := end.value.grants, log := end.value.log)
            && end.value.log == if s.rt.engaged then s.log else s.log + [Cut]
  {
    hide RevokeCovered, StoreWrite, StoreWriteIf;
    var acts := [KillCut, KillRevoke(io.at), KillPersist(io)];
    var s1 := Next(s, KillCut);
    var s2 := Next(s1, KillRevoke(io.at));
    var s3 := Next(s2, KillPersist(io));
    assert s1.rt.engaged;
    assert s3.rt.engaged && s3.log == s1.log;
    hide PersistHalt, Next, Enabled;
    assert acts[1..] == [KillRevoke(io.at), KillPersist(io)] && acts[1..][1..] == [KillPersist(io)] && acts[1..][1..][1..] == [];
    assert Execute(s3, []) == Some(s3);
    assert Execute(s2, acts[1..][1..]) == Some(s3);
    assert Execute(s1, acts[1..]) == Some(s3);
  }

  // ----- The invariant.

  predicate IdFits(v: Invoke, rt: Rt) {
    v.Started? || 0 < v.id <= rt.nextAdmission
  }

  /** The admission has taken the grant it names. */
  predicate Holds(v: Invoke) {
    && ((v.Drafted? && v.draft.Allow?) || (v.Decided? && v.decision.Allow?))
    && v.q.parsed.Parsed? && v.q.parsed.envelope.approvalId.Some?
  }

  function GrantOf(v: Invoke): Text
    requires Holds(v)
  {
    v.q.parsed.envelope.approvalId.value
  }

  predicate InvokeInv(v: Invoke, rt: Rt, grants: Table) {
    && IdFits(v, rt)
    && (v.Epoched? || v.Decided? ==> v.epoch <= rt.epoch)
    && (v.Checked? || v.Drafted? ==> v.epoch == 0 && v.seen == 0)
    && (v.Drafted? ==> v.draft.Allow?)
    && (v.Decided? && v.decision.Allow? ==> v.epoch == 0)
    && (Holds(v) ==> GrantOf(v) in grants && grants[GrantOf(v)].Consumed())
  }

  predicate Invokes(s: Sys) {
    && (forall i | 0 <= i < |s.invokes| :: InvokeInv(s.invokes[i], s.rt, s.grants))
    && (forall i, j | 0 <= i < j < |s.invokes| :: Apart(s.invokes[i], s.invokes[j]))
  }

  /** Two admissions have two tickets, and never the same grant. */
  predicate Apart(v: Invoke, w: Invoke) {
    && (!v.Started? && !w.Started? ==> v.id != w.id)
    && (Holds(v) && Holds(w) ==> GrantOf(v) != GrantOf(w))
  }

  predicate CompletionInv(s: Sys, c: nat)
    requires c < |s.completions|
  {
    var v := s.completions[c];
    && v.inv < |s.invokes| && s.invokes[v.inv].Decided?
    && (!v.TurnedAway? ==> s.invokes[v.inv].decision.Allow?)
    && (v.Permitted? || v.Entered? ==> Permit(v.inv, c) in s.log)
    && (Permit(v.inv, c) in s.log ==> v.Permitted? || v.Entered?)
  }

  predicate EventInv(s: Sys, e: Event) {
    match e
    case Cut => s.rt.engaged
    case Allowed(i) => i < |s.invokes| && s.invokes[i].Decided? && s.invokes[i].decision.Allow?
    case Permit(i, c) =>
      && c < |s.completions| && s.completions[c].inv == i && i < |s.invokes|
      && s.invokes[i].Decided? && s.invokes[i].decision.Allow? && s.invokes[i].id in s.rt.spent
    case ToolEntered(i, c) => c < |s.completions| && s.completions[c] == Entered(i)
  }

  /** What may not follow what in the log. */
  predicate InOrder(e: Event, f: Event) {
    && (e.Cut? ==> f.ToolEntered?)
    && (e.Permit? && f.Permit? ==> e.i != f.i)
    && (e.ToolEntered? && f.ToolEntered? ==> e.i != f.i)
    && (e.Allowed? && f.Allowed? ==> e.i != f.i)
    && (e.ToolEntered? && f.Permit? ==> e.i != f.i)
  }

  predicate Log(s: Sys) {
    && (forall k | 0 <= k < |s.log| :: EventInv(s, s.log[k]))
    && (forall k, m | 0 <= k < m < |s.log| :: InOrder(s.log[k], s.log[m]))
    && (s.rt.engaged <==> Cut in s.log)
  }

  predicate Inv(s: Sys) {
    && RtInv(s.rt) && TableInv(s.grants) && (!s.stage.NoKill? ==> s.rt.engaged)
    && Invokes(s)
    && (forall c | 0 <= c < |s.completions| :: CompletionInv(s, c))
    && Log(s)
  }

  // ----- What every step keeps.

  predicate ConsumedStays(t: Table, t': Table) {
    forall id | id in t && t[id].Consumed() :: id in t' && t'[id].Consumed()
  }

  /** The parts that only ever grow. */
  predicate Grows(s: Sys, s': Sys) {
    && s'.policy == s.policy
    && RtInv(s'.rt) && NoLessHalted(s.rt, s'.rt)
    && TableInv(s'.grants) && ConsumedStays(s.grants, s'.grants)
    && |s.invokes| <= |s'.invokes| && |s.completions| <= |s'.completions|
    && (forall i | 0 <= i < |s.invokes| && s.invokes[i].Decided? :: s'.invokes[i] == s.invokes[i])
    && (forall c | 0 <= c < |s.completions| :: s'.completions[c].inv == s.completions[c].inv)
    && s.log <= s'.log && |s'.log| <= |s.log| + 1
  }

  lemma RtStep(s: Sys, a: Action)
    requires Enabled(s, a) && RtInv(s.rt) && (!s.stage.NoKill? ==> s.rt.engaged)
    ensures var s' := Next(s, a); s'.policy == s.policy && RtInv(s'.rt) && NoLessHalted(s.rt, s'.rt)
    ensures !Next(s, a).stage.NoKill? ==> Next(s, a).rt.engaged
  {
    hide ConsumeStep, EarlyDeny, Admissible, Apply, PersistHalt, ApplyCall, FinalizeAllow, EntryBlock,
         ImplementationStillMatches, StateStillMatches, RevokeCovered;
    match a
    case OtherCall(call) => CallKeepsHalt(s.rt, s.disk, call);
    case KillPersist(io) => PersistKeepsHalt(s.rt, s.disk, None, None, io);
    case _ =>
  }

  /** Each step makes at most one call on the grant store. */
  function StoreCallOf(s: Sys, a: Action): Option<StoreCall>
    requires Enabled(s, a)
  {
    match a
    case GrantCall(call) => Some(call)
    case TakeGrant(i) =>
      if s.invokes[i].q.parsed.envelope.approvalId.Some? then Some(Consume(ConsumeOf(s.invokes[i].q))) else None
    case KillRevoke(at) => Some(RevokeAll(true, None, at))
    case _ => None
  }

  lemma ApplyGrows(t: Table, call: StoreCall)
    requires TableInv(t)
    ensures TableInv(Apply(t, call)) && ConsumedStays(t, Apply(t, call))
  {
    hide Apply, TableInv;
    ApplyKeepsInv(t, call);
    forall id | id in t ensures id in Apply(t, call) && Evolves(t[id], Apply(t, call)[id]) { ApplyEvolves(t, call, id); }
  }

  lemma GrantsStep(s: Sys, a: Action)
    requires Enabled(s, a)
    ensures Next(s, a).grants == if StoreCallOf(s, a).Some? then Apply(s.grants, StoreCallOf(s, a).value) else s.grants
  {
    hide ConsumeStep, EarlyDeny, SchemaAccepts, CapabilityStands, IsPrincipal, PersistHalt, ApplyCall, FinalizeAllow,
         EntryBlock, ClaimEntry,
         ImplementationStillMatches, StateStillMatches, RevokeCovered, IssueAccepted;
    match a
    case TakeGrant(i) => TakeGrantApplies(s, i);
    case _ =>
  }

  lemma TakeGrantApplies(s: Sys, i: nat)
    requires Enabled(s, TakeGrant(i))
    ensures var c := StoreCallOf(s, TakeGrant(i));
            Next(s, TakeGrant(i)).grants == if c.Some? then Apply(s.grants, c.value) else s.grants
  {
    hide ConsumeStep, EarlyDeny, SchemaAccepts, CapabilityStands, IsPrincipal, IssueAccepted;
    if s.invokes[i].q.parsed.envelope.approvalId.Some? {
      var (result, grants) := ConsumeStep(s.grants, ConsumeOf(s.invokes[i].q));
      assert Next(s, TakeGrant(i)).grants == grants;
    }
  }

  lemma SeqsGrow(s: Sys, a: Action)
    requires Enabled(s, a)
    ensures var s' := Next(s, a);
            && |s.invokes| <= |s'.invokes| && |s.completions| <= |s'.completions|
            && (forall i | 0 <= i < |s.invokes| && s.invokes[i].Decided? :: s'.invokes[i] == s.invokes[i])
            && (forall c | 0 <= c < |s.completions| :: s'.completions[c].inv == s.completions[c].inv)
  {
    hide ConsumeStep, ConsumeOf, EarlyDeny, Admissible, Apply, PersistHalt, ApplyCall, FinalizeAllow, EntryBlock, ClaimEntry,
         ImplementationStillMatches, StateStillMatches, RevokeCovered, Mint, Engage;
  }

  lemma LogGrows(s: Sys, a: Action)
    requires Enabled(s, a)
    ensures var s' := Next(s, a); s.log <= s'.log && |s'.log| <= |s.log| + 1
  {
    hide ConsumeStep, ConsumeOf, EarlyDeny, Admissible, Apply, PersistHalt, ApplyCall, FinalizeAllow, EntryBlock, ClaimEntry,
         ImplementationStillMatches, StateStillMatches, RevokeCovered, Mint, Engage;
  }

  lemma StepGrows(s: Sys, a: Action)
    requires Inv(s) && Enabled(s, a)
    ensures Grows(s, Next(s, a))
  {
    hide Next, StoreCallOf, Apply, Invokes, CompletionInv, Log, TableInv, RtInv, NoLessHalted;
    RtStep(s, a);
    GrantsStep(s, a);
    if StoreCallOf(s, a).Some? {
      ApplyGrows(s.grants, StoreCallOf(s, a).value);
    }
    SeqsGrow(s, a);
    LogGrows(s, a);
  }

  // ----- Admissions.

  lemma InvokeMonotone(v: Invoke, rt: Rt, rt': Rt, t: Table, t': Table)
    requires InvokeInv(v, rt, t) && NoLessHalted(rt, rt') && RtInv(rt) && RtInv(rt') && ConsumedStays(t, t')
    ensures InvokeInv(v, rt', t')
  {}

  /** The admission a step moves, if it moves one. */
  function Moved(a: Action): Option<nat> {
    match a
    case MintId(i) => Some(i)
    case ReadEpoch(i) => Some(i)
    case FirstLook(i) => Some(i)
    case TakeGrant(i) => Some(i)
    case LastLook(i) => Some(i)
    case _ => None
  }

  lemma OthersStay(s: Sys, a: Action, i: nat)
    requires Enabled(s, a)
    ensures i < |s.invokes| && Moved(a) != Some(i) ==> i < |Next(s, a).invokes| && Next(s, a).invokes[i] == s.invokes[i]
    ensures i >= |s.invokes| && i < |Next(s, a).invokes| ==> Next(s, a).invokes[i].Started?
  {
    hide ConsumeStep, ConsumeOf, EarlyDeny, Admissible, Apply, PersistHalt, ApplyCall, FinalizeAllow, EntryBlock, ClaimEntry,
         ImplementationStillMatches, StateStillMatches, RevokeCovered, Mint, Engage;
  }

  /** What a taken grant looks like afterwards, and that nobody held it before. */
  lemma TakeGrantTakes(s: Sys, i: nat)
    requires Inv(s) && Enabled(s, TakeGrant(i))
    ensures var v := Next(s, TakeGrant(i)).invokes[i];
            && v.q == s.invokes[i].q && v.id == s.invokes[i].id
            && (v.Drafted? || v.Decided?) && v.epoch == 0 && (v.Drafted? ==> v.seen == 0 && v.draft.Allow?)
            && (v.Decided? ==> v.decision.Deny?)
            && (Holds(v) ==>
                  && GrantOf(v) in Next(s, TakeGrant(i)).grants && Next(s, TakeGrant(i)).grants[GrantOf(v)].Consumed()
                  && !(GrantOf(v) in s.grants && s.grants[GrantOf(v)].Consumed()))
  {
    var v := s.invokes[i];
    assert InvokeInv(v, s.rt, s.grants);
    hide CompletionInv, Log, InvokeInv, TableInv, SchemaAccepts, CapabilityStands, IsPrincipal, ConsumeStep;
    if v.q.parsed.envelope.approvalId.Some? {
      var q := ConsumeOf(v.q);
      if ConsumeStep(s.grants, q).0.Granted? {
        ConsumeSpendsIff(s.grants, q);
        SpendableIsOutstanding(s.grants, q);
      }
    }
  }

  lemma MovedInvoke(s: Sys, a: Action, i: nat)
    requires Inv(s) && Enabled(s, a) && Moved(a) == Some(i)
    ensures i < |Next(s, a).invokes| && InvokeInv(Next(s, a).invokes[i], Next(s, a).rt, Next(s, a).grants)
    ensures a.MintId? || Next(s, a).invokes[i].id == s.invokes[i].id
  {
    assert InvokeInv(s.invokes[i], s.rt, s.grants);
    hide CompletionInv, Log, TableInv, SchemaAccepts, CapabilityStands, IsPrincipal, ConsumeStep, Spendable, EarlyDeny, FinalizeAllow;
    match a
    case FirstLook(_) => FirstLookFits(s, i);
    case TakeGrant(_) => TakeGrantTakes(s, i);
    case LastLook(_) => LastLookFits(s, i);
    case _ =>
  }

  lemma FirstLookFits(s: Sys, i: nat)
    requires Inv(s) && Enabled(s, FirstLook(i))
    ensures var s' := Next(s, FirstLook(i));
            i < |s'.invokes| && InvokeInv(s'.invokes[i], s'.rt, s'.grants) && s'.invokes[i].id == s.invokes[i].id
  {
    assert InvokeInv(s.invokes[i], s.rt, s.grants);
    EarlyDenyIff(s.rt, s.policy, s.invokes[i].q);
    hide CompletionInv, Log, TableInv, Admissible, EarlyDeny;
  }

  lemma LastLookFits(s: Sys, i: nat)
    requires Inv(s) && Enabled(s, LastLook(i))
    ensures var s' := Next(s, LastLook(i));
            i < |s'.invokes| && InvokeInv(s'.invokes[i], s'.rt, s'.grants) && s'.invokes[i].id == s.invokes[i].id
  {
    assert InvokeInv(s.invokes[i], s.rt, s.grants);
    hide CompletionInv, Log, TableInv, SchemaAccepts, CapabilityStands, IsPrincipal, ConsumeStep, Spendable, EarlyDeny;
  }

  lemma InvokesStep(s: Sys, a: Action)
    requires Inv(s) && Enabled(s, a)
    ensures Invokes(Next(s, a))
  {
    hide Next, InvokeInv, Log, TableInv, RtInv, NoLessHalted, ConsumedStays, Holds, CompletionInv;
    var s' := Next(s, a);
    StepGrows(s, a);
    forall i | 0 <= i < |s'.invokes|
      ensures InvokeInv(s'.invokes[i], s'.rt, s'.grants)
    {
      OthersStay(s, a, i);
      if Moved(a) == Some(i) {
        MovedInvoke(s, a, i);
      } else if i < |s.invokes| {
        InvokeMonotone(s.invokes[i], s.rt, s'.rt, s.grants, s'.grants);
      } else {
        StartedFits(s'.invokes[i], s'.rt, s'.grants);
      }
    }
    forall i, j | 0 <= i < j < |s'.invokes| ensures Apart(s'.invokes[i], s'.invokes[j]) {
      PairStep(s, a, i, j);
    }
  }

  lemma StartedFits(v: Invoke, rt: Rt, t: Table)
    requires v.Started?
    ensures InvokeInv(v, rt, t)
  {}

  /** What a move may change of an admission's ticket and of the grant it holds. */
  predicate MoveFits(s: Sys, a: Action, v: Invoke, v': Invoke) {
    && !v'.Started?
    && (if a.MintId? then v'.id == s.rt.nextAdmission + 1 && !Holds(v') else !v.Started? && v'.id == v.id)
    && (Holds(v') ==> if a.TakeGrant? then !(GrantOf(v') in s.grants &&
              s.grants[GrantOf(v')].Consumed()) else Holds(v) && GrantOf(v) == GrantOf(v'))
  }

  lemma MoveShape(s: Sys, a: Action, i: nat)
    requires Inv(s) && Enabled(s, a) && Moved(a) == Some(i)
    ensures i < |s.invokes| && i < |Next(s, a).invokes| && MoveFits(s, a, s.invokes[i], Next(s, a).invokes[i])
  {
    if a.TakeGrant? { TakeGrantTakes(s, i); }
    hide Inv, ConsumeStep, EarlyDeny, EntryBlock, SchemaAccepts, CapabilityStands, IsPrincipal;
  }

  lemma MovedApart(s: Sys, a: Action, v: Invoke, v': Invoke, w: Invoke)
    requires Apart(v, w) && InvokeInv(w, s.rt, s.grants) && MoveFits(s, a, v, v')
    ensures Apart(v', w) && Apart(w, v')
  {}

  lemma PairStep(s: Sys, a: Action, i: nat, j: nat)
    requires Inv(s) && Enabled(s, a) && i < j < |Next(s, a).invokes|
    ensures Apart(Next(s, a).invokes[i], Next(s, a).invokes[j])
  {
    OthersStay(s, a, i);
    OthersStay(s, a, j);
    if j < |s.invokes| {
      assert Apart(s.invokes[i], s.invokes[j]);
      assert InvokeInv(s.invokes[i], s.rt, s.grants) && InvokeInv(s.invokes[j], s.rt, s.grants);
      assert Apart(s.invokes[j], s.invokes[i]);
      hide Inv, Next, Enabled, InvokeInv, MoveFits, Apart;
      if Moved(a) == Some(i) {
        MoveShape(s, a, i);
        MovedApart(s, a, s.invokes[i], Next(s, a).invokes[i], s.invokes[j]);
      } else if Moved(a) == Some(j) {
        MoveShape(s, a, j);
        MovedApart(s, a, s.invokes[j], Next(s, a).invokes[j], s.invokes[i]);
      }
    }
  }

  // ----- Completions and the log.

  function MovedCompletion(a: Action): Option<nat> {
    match a
    case ReadFence(c) => Some(c)
    case ReadSpent(c) => Some(c)
    case Reobserve(c, _) => Some(c)
    case YieldLock(c) => Some(c)
    case Claim(c) => Some(c)
    case EnterTool(c) => Some(c)
    case _ => None
  }

  lemma OtherCompletionsStay(s: Sys, a: Action, c: nat)
    requires Enabled(s, a)
    ensures c < |s.completions| && MovedCompletion(a) != Some(c) ==>
              c < |Next(s, a).completions| && Next(s, a).completions[c] == s.completions[c]
    ensures c >= |s.completions| && c < |Next(s, a).completions| ==>
              && a.Complete? && c == |s.completions| && a.i < |s.invokes| && s.invokes[a.i].Decided?
              && Next(s, a).completions[c]
                 == if s.invokes[a.i].decision.Allow? then Begun(a.i) else TurnedAway(a.i, s.invokes[a.i].decision.reason)
  {
    hide ConsumeStep, ConsumeOf, EarlyDeny, Admissible, Apply, PersistHalt, ApplyCall, FinalizeAllow, EntryBlock, ClaimEntry,
         ImplementationStillMatches, StateStillMatches, RevokeCovered, Mint, Engage;
  }

  /** What may be added to the log by a step, and what then holds. */
  predicate Explained(s: Sys, a: Action, s': Sys, e: Event) {
    match e
    case Cut => !s.rt.engaged && s'.rt.engaged
    case Allowed(i) =>
      && a == LastLook(i) && i < |s.invokes| && s.invokes[i].Drafted? && i < |s'.invokes| && s'.invokes[i].Decided?
      && s'.invokes[i].decision.Allow? && EntryBlock(s.rt, s.invokes[i].seen).None?
    case Permit(i, c) =>
      && (a == Claim(c) || a == YieldLock(c)) && OnDecided(s, c) && s.completions[c].inv == i
      && (s.completions[c].Reobserved? || s.completions[c].Yielded?)
      && c < |s'.completions| && s'.completions[c] == Permitted(i)
      && s.invokes[i].id !in s.rt.spent && s.invokes[i].id in s'.rt.spent && EntryBlock(s.rt, s.invokes[i].epoch).None?
    case ToolEntered(i, c) =>
      && a == EnterTool(c) && c < |s.completions| && s.completions[c] == Permitted(i)
      && c < |s'.completions| && s'.completions[c] == Entered(i)
  }

  lemma EventsAreExplained(s: Sys, a: Action)
    requires Enabled(s, a)
    ensures |Next(s, a).log| > |s.log| ==> Explained(s, a, Next(s, a), Next(s, a).log[|s.log|])
    ensures |Next(s, a).log| == |s.log| || !Next(s, a).log[|s.log|].Cut? ==> (Next(s, a).rt.engaged ==> s.rt.engaged)
  {
    hide ConsumeStep, ConsumeOf, EarlyDeny, Admissible, Apply, PersistHalt, ApplyCall,
         ImplementationStillMatches, StateStillMatches, RevokeCovered;
  }

  /** A moved completion keeps its admission, and is permitted exactly when a permit was logged for it. */
  lemma MovedCompletionStep(s: Sys, a: Action, c: nat)
    requires Enabled(s, a) && MovedCompletion(a) == Some(c) && c < |s.completions|
    ensures var v, v' := s.completions[c], Next(s, a).completions[c];
            && c < |Next(s, a).completions| && v'.inv == v.inv
            && (!v.Permitted? ==> (v'.Permitted? <==> |Next(s, a).log| > |s.log|))
            && (v'.Permitted? ==> Next(s, a).log == s.log + [Permit(v.inv, c)])
            && (v'.Entered? <==> a.EnterTool?)
            && (v.Permitted? <==> a.EnterTool?) && !v.Entered? && !v.TurnedAway?
            && (a.EnterTool? ==> Next(s, a).log == s.log + [ToolEntered(v.inv, c)])
  {
    hide ConsumeStep, ConsumeOf, EarlyDeny, Admissible, Apply, PersistHalt, ApplyCall, EntryBlock,
         ImplementationStillMatches, StateStillMatches, RevokeCovered;
  }

  lemma OldCompletionStep(s: Sys, a: Action, c: nat)
    requires Inv(s) && Enabled(s, a) && c < |s.completions|
    ensures c < |Next(s, a).completions| && CompletionInv(Next(s, a), c)
  {
    StepGrows(s, a);
    OtherCompletionsStay(s, a, c);
    if MovedCompletion(a) == Some(c) {
      MovedCompletionStep(s, a, c);
    } else {
      EventsAreExplained(s, a);
    }
    assert CompletionInv(s, c);
    hide *;
    CompletionCarries(s, a, c, Next(s, a));
  }

  lemma CompletionCarries(s: Sys, a: Action, c: nat, s': Sys)
    requires c < |s.completions| && c < |s'.completions| && CompletionInv(s, c) && Grows(s, s')
    requires s'.completions[c].inv == s.completions[c].inv
    requires MovedCompletion(a) == Some(c) ==>
               var v, v' := s.completions[c], s'.completions[c];
               && (!v.Permitted? ==> (v'.Permitted? <==> |s'.log| > |s.log|))
               && (v'.Permitted? ==> s'.log == s.log + [Permit(v.inv, c)])
               && (v'.Entered? <==> a.EnterTool?) && (v.Permitted? <==> a.EnterTool?) && !v.Entered? && !v.TurnedAway?
               && (a.EnterTool? ==> s'.log == s.log + [ToolEntered(v.inv, c)])
    requires MovedCompletion(a) != Some(c) ==>
               && s'.completions[c] == s.completions[c]
               && (|s'.log| > |s.log| ==> Explained(s, a, s', s'.log[|s.log|]))
    ensures CompletionInv(s', c)
  {
    hide RtInv, TableInv, ConsumedStays, NoLessHalted, EntryBlock;
    if |s'.log| > |s.log| {
      assert s'.log == s.log + [s'.log[|s.log|]];
    }
  }

  lemma NewCompletionStep(s: Sys, a: Action, c: nat)
    requires Inv(s) && Enabled(s, a) && |s.completions| <= c < |Next(s, a).completions|
    ensures CompletionInv(Next(s, a), c)
  {
    var s' := Next(s, a);
    StepGrows(s, a);
    OtherCompletionsStay(s, a, c);
    EventsAreExplained(s, a);
    NoPermitAhead(s, a.i, c);
    hide Next, Inv, TableInv, RtInv, NoLessHalted, ConsumedStays;
  }

  lemma NoPermitAhead(s: Sys, i: nat, c: nat)
    requires Log(s) && |s.completions| <= c
    ensures Permit(i, c) !in s.log
  {
    forall k | 0 <= k < |s.log| ensures s.log[k] != Permit(i, c) {
      assert EventInv(s, s.log[k]);
    }
  }

  /** Two permits of one admission are one permit. */
  lemma OnePermit(s: Sys, i: nat, c: nat, d: nat)
    requires Log(s) && Permit(i, c) in s.log && Permit(i, d) in s.log
    ensures c == d
  {
    hide EventInv;
    var m :| 0 <= m < |s.log| && s.log[m] == Permit(i, c);
    var n :| 0 <= n < |s.log| && s.log[n] == Permit(i, d);
  }

  lemma PermitSpends(s: Sys, i: nat, c: nat)
    requires Log(s) && Permit(i, c) in s.log
    ensures i < |s.invokes| && s.invokes[i].Decided? && s.invokes[i].id in s.rt.spent
  {
    hide InOrder;
    var k :| 0 <= k < |s.log| && s.log[k] == Permit(i, c);
    assert EventInv(s, s.log[k]);
  }

  lemma EventMonotone(s: Sys, s': Sys, a: Action, e: Event)
    requires Inv(s) && Enabled(s, a) && s' == Next(s, a) && e in s.log && EventInv(s, e)
    ensures EventInv(s', e)
  {
    StepGrows(s, a);
    if e.ToolEntered? {
      OtherCompletionsStay(s, a, e.c);
      if MovedCompletion(a) == Some(e.c) {
        MovedCompletionStep(s, a, e.c);
      }
    }
    hide Next, Invokes, TableInv, RtInv, ConsumedStays, InOrder;
  }

  lemma LogStep(s: Sys, a: Action)
    requires Inv(s) && Enabled(s, a)
    ensures Log(Next(s, a))
  {
    hide *;
    LogGrows(s, a);
    var s' := Next(s, a);
    forall k | 0 <= k < |s'.log| ensures EventInv(s', s'.log[k]) {
      EventKept(s, a, k);
    }
    forall k, m | 0 <= k < m < |s'.log| ensures InOrder(s'.log[k], s'.log[m]) {
      OrderKept(s, a, k, m);
    }
    CutIsLogged(s, a);
    LogIs(s');
  }

  lemma LogIs(s: Sys)
    requires forall k | 0 <= k < |s.log| :: EventInv(s, s.log[k])
    requires forall k, m | 0 <= k < m < |s.log| :: InOrder(s.log[k], s.log[m])
    requires s.rt.engaged <==> Cut in s.log
    ensures Log(s)
  {
    hide EventInv, InOrder;
  }

  lemma EventKept(s: Sys, a: Action, k: nat)
    requires Inv(s) && Enabled(s, a) && k < |Next(s, a).log|
    ensures EventInv(Next(s, a), Next(s, a).log[k])
  {
    LogGrows(s, a);
    if k < |s.log| {
      assert s.log[k] in s.log && Next(s, a).log[k] == s.log[k];
      EventMonotone(s, Next(s, a), a, s.log[k]);
    } else {
      NewEventInv(s, a);
    }
    hide Next, Enabled, Invokes, CompletionInv, TableInv, RtInv, InOrder, EventInv;
  }

  lemma OrderKept(s: Sys, a: Action, k: nat, m: nat)
    requires Inv(s) && Enabled(s, a) && k < m < |Next(s, a).log|
    ensures InOrder(Next(s, a).log[k], Next(s, a).log[m])
  {
    LogGrows(s, a);
    var s' := Next(s, a);
    assert s'.log[k] == s.log[k];
    if m >= |s.log| {
      NewEventInOrder(s, a, k);
    }
    hide Next, Enabled, Invokes, CompletionInv, TableInv, RtInv, EventInv;
  }

  lemma CutIsLogged(s: Sys, a: Action)
    requires Inv(s) && Enabled(s, a)
    ensures Next(s, a).rt.engaged <==> Cut in Next(s, a).log
  {
    var s' := Next(s, a);
    StepGrows(s, a);
    EventsAreExplained(s, a);
    if |s'.log| > |s.log| {
      assert s'.log == s.log + [s'.log[|s.log|]];
      if s'.log[|s.log|].Cut? {
        CutIsNew(s, a);
      }
    }
    hide Next, Enabled, Invokes, CompletionInv, TableInv, ConsumedStays, EventInv, InOrder, Explained, RtInv;
  }

  lemma CutIsNew(s: Sys, a: Action)
    requires Enabled(s, a) && |Next(s, a).log| > |s.log| && Next(s, a).log[|s.log|].Cut?
    ensures !s.rt.engaged && Next(s, a).rt.engaged
  {
    EventsAreExplained(s, a);
    hide Next;
  }

  lemma NewEventInv(s: Sys, a: Action)
    requires Inv(s) && Enabled(s, a) && |Next(s, a).log| > |s.log|
    ensures EventInv(Next(s, a), Next(s, a).log[|s.log|])
  {
    var s' := Next(s, a);
    StepGrows(s, a);
    EventsAreExplained(s, a);
    var e := s'.log[|s.log|];
    if e.Permit? {
      assert CompletionInv(s, e.c);
      assert s'.invokes[e.i] == s.invokes[e.i];
    }
    hide Next, Invokes, TableInv, ConsumedStays, InOrder, EventInv;
    NewEventHolds(s, a, s', e);
  }

  lemma NewEventHolds(s: Sys, a: Action, s': Sys, e: Event)
    requires Explained(s, a, s', e)
    requires e.Permit? ==> e.i < |s'.invokes| && s'.invokes[e.i] == s.invokes[e.i] && s.invokes[e.i].decision.Allow?
    ensures EventInv(s', e)
  {}

  /** Nothing that is logged conflicts with what was logged before. */
  lemma NewEventInOrder(s: Sys, a: Action, k: nat)
    requires Inv(s) && Enabled(s, a) && |Next(s, a).log| > |s.log| && k < |s.log|
    ensures InOrder(s.log[k], Next(s, a).log[|s.log|])
  {
    var s' := Next(s, a);
    EventsAreExplained(s, a);
    var e, f := s.log[k], s'.log[|s.log|];
    assert EventInv(s, e) && e in s.log;
    if f.Permit? {
      assert CompletionInv(s, f.c);
      if e.ToolEntered? {
        assert CompletionInv(s, e.c);
        PermitSpends(s, e.i, e.c);
      }
    }
    if f.ToolEntered? {
      assert CompletionInv(s, f.c);
      if e.ToolEntered? && e.i == f.i {
        assert CompletionInv(s, e.c);
        OnePermit(s, f.i, f.c, e.c);
      }
    }
    if e.Cut? && (f.Allowed? || f.Permit?) {
      CutClosesEverything(s, a, f);
    }
    hide Next, Invokes, TableInv, ConsumedStays;
  }

  /** Once the fence is engaged the way is shut for every admission that could still be allowed or permitted. */
  lemma CutClosesEverything(s: Sys, a: Action, f: Event)
    requires Inv(s) && Enabled(s, a) && s.rt.engaged && (f.Allowed? || f.Permit?)
    ensures !Explained(s, a, Next(s, a), f)
  {
    hide Next, CompletionInv, TableInv, ConsumedStays, Log;
  }

  lemma StepKeepsInv(s: Sys, a: Action)
    requires Inv(s) && Enabled(s, a)
    ensures Inv(Next(s, a))
  {
    hide Next, Invokes, CompletionInv, Log, TableInv, ConsumedStays, RtInv;
    RtStep(s, a);
    StepGrows(s, a);
    InvokesStep(s, a);
    LogStep(s, a);
    forall c | 0 <= c < |Next(s, a).completions| ensures CompletionInv(Next(s, a), c) {
      if c < |s.completions| {
        OldCompletionStep(s, a, c);
      } else {
        NewCompletionStep(s, a, c);
      }
    }
  }
}
