/** Begin admits and never runs the tool; complete runs it only with a one-shot permit. */
module Gate {
  import opened Common
  import opened Json
  import opened Reasons
  import opened Approval
  import opened Policy
  import opened Runtime
  import opened Evaluate
  import opened PepRuntimes

  /** An admission: the decision, the epoch read before it, and the ticket. */
  datatype PendingInvoke = PendingInvoke(decision: Decision, admittedEpoch: nat, admissionId: nat)

  /** What the host's observers say when asked again at entry; None where there is no observer. */
  datatype Entry = Entry(implementation: Option<ObserverEnd>, state: Option<ObserverEnd>)

  /** A frozen implementation needs an observer that names it again. */
  predicate ImplementationStillMatches(d: Decision, entry: Entry) {
    d.Allow? && d.frozenImplementation.Some? ==>
      && entry.implementation.Some? && entry.implementation.value.Returned?
      && NormalizeStateDigest(entry.implementation.value.value) == d.frozenImplementation
  }

  /** A frozen state is re-read only where there is an observer. */
  predicate StateStillMatches(d: Decision, entry: Entry) {
    d.Allow? && d.frozenState.Some? && entry.state.Some? ==>
      && entry.state.value.Returned?
      && NormalizeStateDigest(entry.state.value.value) == d.frozenState
  }

  /** The answer of an observer at entry: a text that is the frozen digest up to the case of its letters. */
  predicate SameDigestAgain(seen: Option<ObserverEnd>, frozen: Text) {
    seen.Some? && seen.value.Returned? && seen.value.value.Seen? && Lowered(seen.value.value.text, frozen)
  }

  /** What the two re-observations ask: the code's observer has to be there and agree, the state's only where it is there. */
  lemma ReobservationsMean(d: Decision, entry: Entry)
    requires d.Allow?
    requires (d.frozenImplementation.Some? ==> IsStateDigest(d.frozenImplementation.value))
             && (d.frozenState.Some? ==> IsStateDigest(d.frozenState.value))
    ensures ImplementationStillMatches(d, entry) <==>
              (d.frozenImplementation.Some? ==> SameDigestAgain(entry.implementation, d.frozenImplementation.value))
    ensures StateStillMatches(d, entry) <==>
              (d.frozenState.Some? && entry.state.Some? ==> SameDigestAgain(entry.state, d.frozenState.value))
  {
    if entry.implementation.Some? && entry.implementation.value.Returned? && d.frozenImplementation.Some? {
      NormalizesTo(entry.implementation.value.value, d.frozenImplementation.value);
    }
    if entry.state.Some? && entry.state.value.Returned? && d.frozenState.Some? {
      NormalizesTo(entry.state.value.value, d.frozenState.value);
    }
    hide NormalizeStateDigest, Lowered;
  }

  lemma NormalizesTo(o: Observation, frozen: Text)
    requires IsStateDigest(frozen)
    ensures NormalizeStateDigest(o) == Some(frozen) <==> o.Seen? && Lowered(o.text, frozen)
  {
    if o.Seen? {
      ToLowerLowers(o.text);
      if Lowered(o.text, frozen) {
        assert ToLower(o.text) == frozen;
      }
    }
  }

  /** The runtime when the epoch is read, and when the decision is begun. */
  function AtEpoch(rt: Rt, disk: Disk, first: seq<RuntimeCall>): (Rt, Disk) {
    RunCalls(Mint(rt).0, disk, first)
  }

  function AtDecision(rt: Rt, disk: Disk, first: seq<RuntimeCall>, second: seq<RuntimeCall>): (Rt, Disk) {
    var (rt', disk') := AtEpoch(rt, disk, first);
    RunCalls(rt', disk', second)
  }

  /**
   Mint the ticket, read the epoch, decide. The three steps are separate sections:
   `first` and `second` are what happens to the runtime in the two gaps.
   */
  method BeginInvoke(pep: PepRuntime, q: Request, first: seq<RuntimeCall>, second: seq<RuntimeCall>, meanwhile: seq<RuntimeCall>)
    returns (p: PendingInvoke)
    requires RtInv(pep.State()) && !pep.approvals.observing
    modifies pep, pep.approvals, pep.haltStore
    ensures RtInv(pep.State()) && !pep.approvals.observing
    ensures p.admissionId == old(pep.nextAdmission) + 1 <= pep.nextAdmission
    ensures p.decision.Allow? ==> pep.State().Open() && p.admittedEpoch == pep.fenceEpoch == 0
    ensures old(pep.State()).Halted() ==> p.decision.Deny?
    ensures var (start, disk) := AtDecision(old(pep.State()), old(pep.DiskState()), first, second);
            var t := GrantsAfterAll(GrantsAfterAll(old(pep.approvals.records), first), second);
            && (p.decision.Allow? <==>
                  start.Open() && RunCalls(start, disk, meanwhile).0.Open() && Admissible(pep.policy, q) && GrantStands(t, q))
            && (p.decision.Allow? ==>
                  (pep.State(), pep.DiskState()) == RunCalls(start, disk, meanwhile) && p.decision == Draft(start, pep.policy, t, q).0)
            && DecisionFits(p.decision, start, RunCalls(start, disk, meanwhile).0, pep.policy, t, q)
            && p.admittedEpoch == AtEpoch(old(pep.State()), old(pep.DiskState()), first).0.epoch
    ensures p.decision.Allow? ==> Admissible(pep.policy, q) && NewlySpent(old(pep.approvals.records), pep.approvals.records, q)
    ensures old(TableInv(pep.approvals.records)) ==> TableInv(pep.approvals.records)
  {
    ghost var rt, disk := pep.State(), pep.DiskState();
    ghost var was := pep.approvals.records;
    hide TableInv, SpentExactly, Admissible, Spendable, Draft, RunCalls, GrantsAfterAll, DecisionFits;
    var admissionId := pep.MintAdmissionId();
    HaltOverARun(pep.State(), pep.DiskState(), first);
    pep.PerformAll(first);
    var admittedEpoch := pep.fenceEpoch;
    HaltOverARun(pep.State(), pep.DiskState(), second);
    pep.PerformAll(second);
    ghost var before := pep.State();
    HaltOverARun(before, pep.DiskState(), meanwhile);
    ghost var meantime := pep.approvals.records;
    ghost var start := pep.State();
    if TableInv(was) {
      RevocationsKeepInv(was, first);
      RevocationsKeepInv(GrantsAfterAll(was, first), second);
    }
    var decision := pep.EvaluateEnvelope(q, meanwhile);
    if decision.Allow? {
      AllowSpends(was, first, second, meantime, pep.approvals.records, start, pep.policy, q);
    }
    p := PendingInvoke(decision, admittedEpoch, admissionId);
  }

  /** The grant the request names was there unspent, and is spent. */
  predicate NewlySpent(t: Table, t': Table, q: Request) {
    q.parsed.Parsed? && q.parsed.envelope.approvalId.Some? ==>
      var id := q.parsed.envelope.approvalId.value;
      id in t && !t[id].Consumed() && q.now.Some? && !t[id].Expired(q.now.value) && id in t' && t'[id].Consumed()
  }

  lemma {:induction false} AllowSpends(t: Table, first: seq<RuntimeCall>, second: seq<RuntimeCall>, meantime: Table, t': Table, rt: Rt,
          policy: PolicyStore, q: Request)
    requires meantime == GrantsAfterAll(GrantsAfterAll(t, first), second) && SpentExactly(meantime, t', rt, policy, q)
    requires rt.Open() && Admissible(policy, q) && GrantStands(meantime, q)
    ensures NewlySpent(t, t', q)
  {
    hide Observes, StateObserved, NotRevokedDuring, BindingDigest, SchemaAccepts, CapabilityStands;
    OnlyRevocations(t, first);
    OnlyRevocations(GrantsAfterAll(t, first), second);
    if q.parsed.Parsed? && q.parsed.envelope.approvalId.Some? && q.now.Some? {
      SpendableIsOutstanding(meantime, ConsumeOf(q));
    }
  }

  /** Exactly when the tool is entered. `during` is what happens while the host is asked again, `yielded` just before the permit. */
  ghost predicate Enters(rt: Rt, disk: Disk, p: PendingInvoke, entry: Entry, during: seq<RuntimeCall>, yielded: seq<RuntimeCall>) {
    && p.decision.Allow?
    && EntryBlock(rt, p.admittedEpoch).None? && p.admissionId !in rt.spent
    && ImplementationStillMatches(p.decision, entry) && StateStillMatches(p.decision, entry)
    && var (mid, disk') := RunCalls(rt, disk, during);
       ClaimWithYield(mid, disk', p.admissionId, p.admittedEpoch, yielded).0.None?
  }

  /** `entered` stands for the call of the tool, which comes after the permit and is not preempted. */
  method CompleteInvoke(pep: PepRuntime, p: PendingInvoke, entry: Entry, during: seq<RuntimeCall>, yielded: Option<seq<RuntimeCall>>)
    returns (d: Decision, entered: bool)
    modifies pep, pep.approvals, pep.haltStore
    ensures entered <==> Enters(old(pep.State()), old(pep.DiskState()), p, entry, during, if yielded.Some? then yielded.value else [])
    ensures entered <==> d.Allow?
    ensures entered ==> d == p.decision && p.admissionId !in old(pep.spentAdmissions) && p.admissionId in pep.spentAdmissions
    ensures p.decision.Deny? ==> d == p.decision && pep.State() == old(pep.State())
    ensures p.decision.Allow? && old(EntryBlock(pep.State(), p.admittedEpoch)).Some? ==>
              d == Deny(old(EntryBlock(pep.State(), p.admittedEpoch)).value)
    ensures p.decision.Allow? && old(EntryBlock(pep.State(), p.admittedEpoch)).None? && old(p.admissionId in pep.spentAdmissions) ==>
              d == Deny(ADMISSION_CONSUMED)
    ensures p.decision.Allow? && old(EntryBlock(pep.State(), p.admittedEpoch)).None? && old(p.admissionId !in pep.spentAdmissions) ==>
              if !ImplementationStillMatches(p.decision, entry) then d == Deny(APPROVAL_IMPLEMENTATION_MISMATCH)
              else if !StateStillMatches(p.decision, entry) then d == Deny(APPROVAL_STATE_MISMATCH)
              else var (mid, disk) := RunCalls(old(pep.State()), old(pep.DiskState()), during);
                   var blocked := ClaimWithYield(mid, disk, p.admissionId, p.admittedEpoch, if yielded.Some? then yielded.value else []).0;
                   d == if blocked.Some? then Deny(blocked.value) else p.decision
    ensures (pep.State(), pep.DiskState()) ==
              if && p.decision.Allow? && old(EntryBlock(pep.State(), p.admittedEpoch)).None? && old(p.admissionId !in pep.spentAdmissions)
                 && ImplementationStillMatches(p.decision, entry) && StateStillMatches(p.decision, entry)
              then var (mid, disk) := RunCalls(old(pep.State()), old(pep.DiskState()), during);
                   var claim := ClaimWithYield(mid, disk, p.admissionId, p.admittedEpoch, if yielded.Some? then yielded.value else []);
                   (claim.1, claim.2)
              else old((pep.State(), pep.DiskState()))
    ensures pep.approvals.observing == old(pep.approvals.observing)
    ensures old(RtInv(pep.State())) ==> RtInv(pep.State())
    ensures old(TableInv(pep.approvals.records)) ==> TableInv(pep.approvals.records)
    ensures forall g | g in old(pep.approvals.records) ::
              g in pep.approvals.records && OnlyRevoked(old(pep.approvals.records)[g], pep.approvals.records[g])
  {
    if !p.decision.Allow? {
      return p.decision, false;
    }
    ghost var rt, disk := pep.State(), pep.DiskState();
    var cut := pep.EntryBlockNow(p.admittedEpoch);
    if cut.Some? {
      return Deny(cut.value), false;
    }
    if p.admissionId in pep.spentAdmissions {
      return Deny(ADMISSION_CONSUMED), false;
    }
    SpentGrows(rt, disk, during);
    if !ImplementationStillMatches(p.decision, entry) {
      return Deny(APPROVAL_IMPLEMENTATION_MISMATCH), false;
    }
    if !StateStillMatches(p.decision, entry) {
      return Deny(APPROVAL_STATE_MISMATCH), false;
    }
    OnlyRevocations(pep.approvals.records, during);
    if TableInv(pep.approvals.records) { RevocationsKeepInv(pep.approvals.records, during); }
    ClaimKeepsInv(rt, disk, during, p.admissionId, p.admittedEpoch, if yielded.Some? then yielded.value else []);
    pep.PerformAll(during);
    var blocked := pep.ClaimEntryNow(p.admissionId, p.admittedEpoch, yielded);
    if blocked.Some? {
      return Deny(blocked.value), false;
    }
    return p.decision, true;
  }

  lemma {:induction false} ClaimKeepsInv(rt: Rt, disk: Disk, during: seq<RuntimeCall>, id: nat, admitted: nat, yielded: seq<RuntimeCall>)
    ensures RtInv(rt) ==>
              var (mid, disk') := RunCalls(rt, disk, during); RtInv(ClaimWithYield(mid, disk', id, admitted, yielded).1)
  {
    if RtInv(rt) {
      HaltOverARun(rt, disk, during);
      var (mid, disk') := RunCalls(rt, disk, during);
      HaltOverARun(mid, disk', yielded);
    }
  }
}
