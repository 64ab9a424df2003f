/** The enforcement point as the object its callers share, with its grants and its halt file. */
module PepRuntimes {
  import opened Common
  import opened Halt
  import opened Json
  import opened Reasons
  import opened Approval
  import opened ApprovalStores
  import opened Policy
  import opened Runtime
  import opened Evaluate

  /** What runtime calls do to the grants: only a kill touches them, and it revokes every outstanding one. */
  function GrantsAfter(t: Table, c: RuntimeCall): Table {
    if c.KillCall? then RevokeCovered(t, true, None, c.io.at) else t
  }

  function GrantsAfterAll(t: Table, calls: seq<RuntimeCall>): Table {
    if calls == [] then t else GrantsAfterAll(GrantsAfter(t, calls[0]), calls[1..])
  }

  /** A kill leaves no grant outstanding and touches no other; no other call touches any. */
  lemma KillRevokesAll(t: Table, c: RuntimeCall, id: Text)
    requires id in t
    ensures id in GrantsAfter(t, c)
    ensures GrantsAfter(t, c)[id] ==
              if c.KillCall? && t[id].consumedAt.None? && t[id].revokedAt.None? then t[id].(revokedAt := Some(c.io.at)) else t[id]
  {}

  lemma {:induction false} OnlyRevocations(t: Table, calls: seq<RuntimeCall>)
    ensures GrantsAfterAll(t, calls).Keys == t.Keys
    ensures forall id | id in t :: OnlyRevoked(t[id], GrantsAfterAll(t, calls)[id])
    decreases |calls|
  {
    if calls != [] {
      OnlyRevocations(GrantsAfter(t, calls[0]), calls[1..]);
    }
  }

  /** Which grants a decision leaves newly spent: the one it names, when everything but the last look passed. */
  ghost predicate SpentExactly(t: Table, t': Table, rt: Rt, policy: PolicyStore, q: Request) {
    && t'.Keys == t.Keys
    && forall id | id in t ::
         t'[id].Consumed() <==>
           || t[id].Consumed()
           || (rt.Open() && Admissible(policy, q) && q.parsed.envelope.approvalId == Some(id) && Spendable(t, ConsumeOf(q)))
  }

  lemma {:induction false} DraftSpends(t: Table, rt: Rt, policy: PolicyStore, q: Request, calls: seq<RuntimeCall>)
    ensures SpentExactly(t, Draft(rt, policy, t, q).1, rt, policy, q)
    ensures SpentExactly(t, GrantsAfterAll(Draft(rt, policy, t, q).1, calls), rt, policy, q)
  {
    hide Spendable, ConsumeStep, EarlyDeny, SchemaAccepts, CapabilityStands, IsPrincipal;
    var t' := Draft(rt, policy, t, q).1;
    DraftAllowsIff(rt, policy, t, q);
    DraftKeepsKeys(rt, policy, t, q);
    EarlyDenyIff(rt, policy, q);
    forall id | id in t
      ensures t'[id].Consumed() && !t[id].Consumed() <==> Draft(rt, policy, t, q).0.Allow? && q.parsed.envelope.approvalId == Some(id)
      ensures t[id].Consumed() ==> t'[id].Consumed()
    {
      DenialsSpendNothing(rt, policy, t, q, id);
    }
    OnlyRevocations(t', calls);
    if rt.Open() && Admissible(policy, q) && q.parsed.envelope.approvalId.Some? {
      var id := q.parsed.envelope.approvalId.value;
      SpendableIsOutstanding(t, ConsumeOf(q));
    }
  }

  /** Kills in between, and the draft itself, leave a table of good grants. */
  lemma {:induction false} RevocationsKeepInv(t: Table, calls: seq<RuntimeCall>)
    requires TableInv(t)
    ensures TableInv(GrantsAfterAll(t, calls))
    decreases |calls|
  {
    if calls != [] {
      if calls[0].KillCall? {
        ApplyKeepsInv(t, RevokeAll(true, None, calls[0].io.at));
      }
      RevocationsKeepInv(GrantsAfter(t, calls[0]), calls[1..]);
    }
  }

  lemma {:induction false} DraftKeepsInv(rt: Rt, policy: PolicyStore, t: Table, q: Request, calls: seq<RuntimeCall>)
    requires TableInv(t)
    ensures TableInv(Draft(rt, policy, t, q).1) && TableInv(GrantsAfterAll(Draft(rt, policy, t, q).1, calls))
  {
    hide ConsumeStep, GoodRecord;
    EarlyDenyIff(rt, policy, q);
    if EarlyDeny(rt, policy, q).None? && q.parsed.envelope.approvalId.Some? {
      ApplyKeepsInv(t, Consume(ConsumeOf(q)));
    }
    RevocationsKeepInv(Draft(rt, policy, t, q).1, calls);
  }

  lemma DraftKeepsKeys(rt: Rt, policy: PolicyStore, t: Table, q: Request)
    ensures Draft(rt, policy, t, q).1.Keys == t.Keys
  {
    hide ConsumeStep;
    if EarlyDeny(rt, policy, q).None? {
      EarlyDenyIff(rt, policy, q);
      if q.parsed.envelope.approvalId.Some? {
        ConsumeKeepsKeys(t, ConsumeOf(q));
      }
    }
  }

  lemma {:induction false} NoKillKeepsGrants(t: Table, calls: seq<RuntimeCall>)
    requires forall i | 0 <= i < |calls| :: !calls[i].KillCall?
    ensures GrantsAfterAll(t, calls) == t
    decreases |calls|
  {
    if calls != [] {
      assert forall i | 0 <= i < |calls[1..]| :: calls[1..][i] == calls[i + 1];
      NoKillKeepsGrants(t, calls[1..]);
    }
  }

  /** Where the runtime is not killed after some calls, they left every grant alone. */
  lemma {:induction false} UnkilledKeepsGrants(rt: Rt, disk: Disk, calls: seq<RuntimeCall>, t: Table)
    requires RtInv(rt) && !RunCalls(rt, disk, calls).0.mode.Killed?
    ensures GrantsAfterAll(t, calls) == t
  {
    HaltOverARun(rt, disk, calls);
    NoKillKeepsGrants(t, calls);
  }

  lemma PassedHasEnvelope(rt: Rt, policy: PolicyStore, q: Request)
    ensures EarlyDeny(rt, policy, q).None? ==> q.now.Some? && q.parsed.Parsed?
  {}

  class PepRuntime {
    var mode: HaltMode
    var available: bool
    var fenceEpoch: nat
    var fenceEngaged: bool
    var nextAdmission: nat
    var spentAdmissions: set<nat>
    const policy: PolicyStore
    const approvals: ApprovalStore
    const haltStore: HaltStore?

    function State(): Rt
      reads this
    {
      Rt(mode, available, fenceEpoch, fenceEngaged, nextAdmission, spentAdmissions)
    }

    function DiskState(): Disk
      reads haltStore
    {
      if haltStore == null then None else Some(haltStore.file)
    }

    constructor (policy: PolicyStore, killActive: bool, available: bool, approvals: ApprovalStore, haltStore: HaltStore?,
                 persistOnLoad: bool, io: Io)
      modifies haltStore
      ensures this.policy == policy && this.approvals == approvals && this.haltStore == haltStore
      ensures var start := Start(old(if haltStore == null then None else Some(haltStore.file)), available, killActive);
              (State(), DiskState()) ==
                if persistOnLoad then PersistHalt(start, old(if haltStore == null then None else Some(haltStore.file)), None, None, io)
                else (start, old(if haltStore == null then None else Some(haltStore.file)))
      ensures RtInv(State())
    {
      this.policy := policy;
      this.approvals := approvals;
      this.haltStore := haltStore;
      this.fenceEpoch := 0;
      this.fenceEngaged := false;
      this.nextAdmission := 0;
      this.spentAdmissions := {};
      this.mode := Active;
      this.available := available;
      new;
      var persisted := HaltState(Active, true);
      if this.haltStore != null {
        persisted := this.haltStore.ReadLocked();
      }
      this.available := available && persisted.available;
      if killActive || persisted.mode.Killed? {
        this.mode := Killed;
        EngageFence();
      } else {
        this.mode := persisted.mode;
      }
      ghost var start := State();
      if persistOnLoad {
        PersistHaltNow(None, None, io);
        PersistKeepsHalt(start, old(if haltStore == null then None else Some(haltStore.file)), None, None, io);
      }
    }

    method EngageFence()
      modifies this
      ensures State() == Engage(old(State()))
    {
      if fenceEngaged {
        return;
      }
      fenceEngaged := true;
      fenceEpoch := fenceEpoch + 1;
    }

    method PersistHaltNow(expected: Option<HaltMode>, pending: Option<HaltMode>, io: Io)
      modifies this, haltStore
      ensures (State(), DiskState()) == PersistHalt(old(State()), old(DiskState()), expected, pending, io)
    {
      if haltStore == null {
        if pending.Some? {
          mode := pending.value;
        }
        return;
      }
      var requested := HaltState(if pending.Some? then pending.value else mode, available);
      var written: HaltState;
      if expected.None? {
        var r := haltStore.Write(requested, io.stamp, io.fault);
        if r.Err? {
          KeepHaltAfterFailure(pending);
          return;
        }
        written := r.value;
      } else {
        var r := haltStore.WriteIf(expected.value, requested, io.stamp, io.fault);
        if r.Err? {
          KeepHaltAfterFailure(pending);
          return;
        }
        var (onDisk, wrote) := r.value;
        if !wrote || onDisk.None? {
          HaltAfterDeclinedWrite(onDisk, pending);
          return;
        }
        written := onDisk.value;
      }
      mode := written.mode;
      available := written.available;
      if mode.Killed? {
        EngageFence();
      }
    }

    method KeepHaltAfterFailure(pending: Option<HaltMode>)
      modifies this
      ensures State() == WriteFailed(old(State()), pending)
    {
      if pending == Some(Suspended) && !mode.Killed? {
        mode := Suspended;
      }
    }

    method HaltAfterDeclinedWrite(onDisk: Option<HaltState>, pending: Option<HaltMode>)
      modifies this
      ensures State() == Declined(old(State()), onDisk, pending)
    {
      if onDisk.Some? && onDisk.value.Halted() {
        mode := Killed;
        available := onDisk.value.available;
        EngageFence();
        return;
      }
      if onDisk.Some? && onDisk.value.mode.Suspended? {
        if !mode.Killed? {
          mode := Suspended;
        }
        return;
      }
      if onDisk.None? && pending == Some(Suspended) && !mode.Killed? {
        mode := Suspended;
      }
    }

    /** The cut, then every outstanding grant revoked, then the halt file; also from inside an observer. */
    method KillNow(io: Io)
      modifies this, approvals, haltStore
      ensures (State(), DiskState()) == Kill(old(State()), old(DiskState()), io)
      ensures approvals.records == RevokeCovered(old(approvals.records), true, None, io.at)
      ensures approvals.observing == old(approvals.observing)
      ensures forall id | id in approvals.records :: !approvals.records[id].Outstanding()
      ensures old(RtInv(State())) ==> mode.Killed? && fenceEngaged
      ensures old(DiskState()).Some? ==>
                && DiskState().Some? && Wrote(old(DiskState()).value, Killed, available, io.fault, DiskState().value)
                && (SaysKill(DiskState()) <==> Lands(io.fault) || old(SaysKill(DiskState())))
    {
      CallKeepsHaltIfInv(State(), DiskState(), KillCall(io));
      if DiskState().Some? {
        CallWrites(State(), DiskState().value, KillCall(io));
        KillIsOnDisk(State(), DiskState().value, io);
      }
      hide Wrote, SaysKill;
      EngageFence();
      mode := Killed;
      var _ := approvals.RevokeEvery(true, None, io.at);
      PersistHaltNow(None, None, io);
    }

    method SuspendNow(expected: Option<HaltMode>, io: Io)
      modifies this, haltStore
      ensures (State(), DiskState()) == Suspend(old(State()), old(DiskState()), expected, io)
    {
      if mode.Killed? {
        return;
      }
      if expected.None? {
        mode := Suspended;
        PersistHaltNow(None, None, io);
        return;
      }
      PersistHaltNow(expected, Some(Suspended), io);
    }

    method ResumeNow(expected: Option<HaltMode>, io: Io)
      modifies this, haltStore
      ensures (State(), DiskState()) == Resume(old(State()), old(DiskState()), expected, io)
    {
      if mode.Suspended? {
        if expected.None? {
          mode := Active;
          PersistHaltNow(None, None, io);
          return;
        }
        PersistHaltNow(expected, Some(Active), io);
      }
    }

    method MarkUnavailableNow(io: Io)
      modifies this, haltStore
      ensures (State(), DiskState()) == MarkUnavailable(old(State()), old(DiskState()), io)
      ensures old(DiskState()).Some? ==>
                DiskState().Some? && Wrote(old(DiskState()).value, mode, false, io.fault, DiskState().value)
    {
      if DiskState().Some? {
        CallWrites(State(), DiskState().value, MarkUnavailableCall(io));
      }
      hide Wrote;
      available := false;
      PersistHaltNow(None, None, io);
    }

    method MintAdmissionId() returns (id: nat)
      modifies this
      ensures (State(), id) == Mint(old(State()))
    {
      nextAdmission := nextAdmission + 1;
      id := nextAdmission;
    }

    method EntryBlockNow(admitted: nat) returns (blocked: Option<ReasonCode>)
      ensures blocked == EntryBlock(State(), admitted)
    {
      if fenceEngaged && admitted != fenceEpoch {
        return Some(LATE_EFFECT_FENCE);
      }
      if !available || mode.Killed? {
        return Some(KILL_ACTIVE);
      }
      if mode.Suspended? {
        return Some(SUSPEND_ACTIVE);
      }
      return None;
    }

    method ClaimEntryUnlocked(id: nat, admitted: nat) returns (blocked: Option<ReasonCode>)
      modifies this
      ensures (blocked, State()) == ClaimEntry(old(State()), id, admitted)
    {
      if id in spentAdmissions {
        return Some(ADMISSION_CONSUMED);
      }
      blocked := EntryBlockNow(admitted);
      if blocked.Some? {
        if blocked != Some(SUSPEND_ACTIVE) {
          spentAdmissions := spentAdmissions + {id};
        }
        return blocked;
      }
      spentAdmissions := spentAdmissions + {id};
      return None;
    }

    /** `beforeCommit` is what happens to the runtime while the lock is given up before the permit. */
    method ClaimEntryNow(id: nat, admitted: nat, beforeCommit: Option<seq<RuntimeCall>>) returns (blocked: Option<ReasonCode>)
      modifies this, approvals, haltStore
      ensures (blocked, State(), DiskState()) ==
                ClaimWithYield(old(State()), old(DiskState()), id, admitted, if beforeCommit.Some? then beforeCommit.value else [])
      ensures blocked.None? ==> id in spentAdmissions && id !in old(spentAdmissions)
      ensures approvals.observing == old(approvals.observing)
      ensures forall g | g in old(approvals.records) :: g in approvals.records &&
                OnlyRevoked(old(approvals.records)[g], approvals.records[g])
      ensures old(TableInv(approvals.records)) ==> TableInv(approvals.records)
    {
      if beforeCommit.None? {
        blocked := ClaimEntryUnlocked(id, admitted);
        return blocked;
      }
      var early := EntryBlockNow(admitted);
      if id in spentAdmissions || early.Some? {
        blocked := ClaimEntryUnlocked(id, admitted);
        return blocked;
      }
      ghost var rt, disk := State(), DiskState();
      OnlyRevocations(approvals.records, beforeCommit.value);
      if TableInv(approvals.records) { RevocationsKeepInv(approvals.records, beforeCommit.value); }
      PerformAll(beforeCommit.value);
      SpentGrows(rt, disk, beforeCommit.value);
      blocked := ClaimEntryUnlocked(id, admitted);
    }

    /** One call by another thread, by host code or by somebody who edits the halt file. */
    method Perform(c: RuntimeCall)
      modifies this, approvals, haltStore
      ensures (State(), DiskState()) == ApplyCall(old(State()), old(DiskState()), c)
      ensures approvals.records == GrantsAfter(old(approvals.records), c) && approvals.observing == old(approvals.observing)
    {
      match c {
        case KillCall(io) => KillNow(io);
        case SuspendCall(expected, io) => SuspendNow(expected, io);
        case ResumeCall(expected, io) => ResumeNow(expected, io);
        case MarkUnavailableCall(io) => MarkUnavailableNow(io);
        case MintCall => var _ := MintAdmissionId();
        case ClaimCall(id, admitted) => var _ := ClaimEntryUnlocked(id, admitted);
        case DiskChanges(file) =>
          if haltStore != null {
            haltStore.file := file;
          }
      }
    }

    method PerformAll(calls: seq<RuntimeCall>)
      modifies this, approvals, haltStore
      ensures (State(), DiskState()) == RunCalls(old(State()), old(DiskState()), calls)
      ensures approvals.records == GrantsAfterAll(old(approvals.records), calls) && approvals.observing == old(approvals.observing)
    {
      var i := 0;
      while i < |calls|
        invariant 0 <= i <= |calls|
        invariant RunCalls(State(), DiskState(), calls[i..]) == RunCalls(old(State()), old(DiskState()), calls)
        invariant GrantsAfterAll(approvals.records, calls[i..]) == GrantsAfterAll(old(approvals.records), calls)
        invariant approvals.observing == old(approvals.observing)
      {
        assert calls[i..][0] == calls[i] && calls[i..][1..] == calls[i + 1..];
        Perform(calls[i]);
        i := i + 1;
      }
    }

    /** `meanwhile` is what happens to the runtime between the two looks at its mode. */
    method EvaluateEnvelope(q: Request, meanwhile: seq<RuntimeCall>) returns (d: Decision)
      requires RtInv(State()) && !approvals.observing
      modifies this, approvals, haltStore
      ensures RtInv(State()) && !approvals.observing && NoLessHalted(old(State()), State())
      ensures (State(), DiskState()) ==
                if old(State()).Open() && Admissible(policy, q) && GrantStands(old(approvals.records), q)
                then RunCalls(old(State()), old(DiskState()), meanwhile) else old((State(), DiskState()))
      ensures DecisionFits(d, old(State()), RunCalls(old(State()), old(DiskState()), meanwhile).0, policy, old(approvals.records), q)
      ensures d.Allow? <==>
                && old(State()).Open() && RunCalls(old(State()), old(DiskState()), meanwhile).0.Open()
                && Admissible(policy, q) && GrantStands(old(approvals.records), q)
      ensures d.Allow? ==> d == Draft(old(State()), policy, old(approvals.records), q).0
      ensures SpentExactly(old(approvals.records), approvals.records, old(State()), policy, q)
      ensures old(TableInv(approvals.records)) ==> TableInv(approvals.records)
    {
      hide Admissible, Spendable, ConsumeStep, RunCalls, SpentExactly, TableInv, EarlyDeny, GrantsAfterAll, DecisionFits, RefusalFits;
      ghost var was := approvals.records;
      PassedHasEnvelope(State(), policy, q);
      if TableInv(was) { DraftKeepsInv(State(), policy, was, q, meanwhile); }
      ghost var start, disk := State(), DiskState();
      AllowIff(start, disk, meanwhile, policy, was, q);
      HaltOverARun(start, disk, meanwhile);
      EarlyDenyIff(start, policy, q);
      DraftSpends(was, start, policy, q, meanwhile);
      DraftAllowsIff(start, policy, was, q);
      DecisionReasons(start, disk, meanwhile, policy, was, q);
      var denied := EarlyDeny(State(), policy, q);
      if denied.Some? {
        return Deny(denied.value);
      }
      var admitted := fenceEpoch;
      var frozen := Allow(None, None);
      if q.parsed.envelope.approvalId.Some? {
        var consumed := approvals.ConsumeGrant(ConsumeOf(q));
        match consumed.value {
          case Refused(reason) => return Deny(reason);
          case Granted(state, implementation) => frozen := Allow(state, implementation);
        }
      }
      assert frozen == Draft(start, policy, was, q).0;
      PerformAll(meanwhile);
      var blocked := EntryBlockNow(admitted);
      if blocked.Some? {
        return Deny(blocked.value);
      }
      return frozen;
    }
  }

  lemma {:induction false} SpentGrows(rt: Rt, disk: Disk, calls: seq<RuntimeCall>)
    ensures rt.spent <= RunCalls(rt, disk, calls).0.spent
    decreases |calls|
  {
    if calls != [] {
      var (rt', disk') := ApplyCall(rt, disk, calls[0]);
      SpentGrows(rt', disk', calls[1..]);
    }
  }

  lemma CallKeepsHaltIfInv(rt: Rt, disk: Disk, c: RuntimeCall)
    ensures RtInv(rt) ==> RtInv(ApplyCall(rt, disk, c).0) && (c.KillCall? ==> ApplyCall(rt, disk, c).0.mode.Killed?)
  {
    if RtInv(rt) {
      CallKeepsHalt(rt, disk, c);
    }
  }
}
