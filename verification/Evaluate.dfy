/** The decision on one envelope, and the rule with no order in it that the decision refines. */
module Evaluate {
  import opened Common
  import opened Json
  import opened Reasons
  import opened Approval
  import opened Policy
  import opened Runtime

  datatype Envelope = Envelope(
    toolName: Text,
    args: Args,
    capabilityToken: Option<Text>,
    approvalId: Option<Text>,
    callerIdentity: Text,
    stateDigest: Option<Text>,
    prose: bool)

  datatype ParseOutcome = ParseFails(reason: ReasonCode) | Parsed(envelope: Envelope)

  datatype Request = Request(
    now: Option<Instant>,  // None for a clock that is not timezone-aware
    parsed: ParseOutcome,
    principal: Option<Text>,
    observe: Option<Observer>,
    observeImplementation: Option<Observer>)

  datatype Decision = Allow(frozenState: Option<Text>, frozenImplementation: Option<Text>) | Deny(reason: ReasonCode)

  function ConsumeOf(q: Request): ConsumeRequest
    requires q.now.Some? && q.parsed.Parsed? && q.parsed.envelope.approvalId.Some?
  {
    var e := q.parsed.envelope;
    ConsumeRequest(e.approvalId.value, e.toolName, q.now.value, e.args, e.stateDigest, q.observe, q.principal,
                   Some(e.callerIdentity), q.observeImplementation)
  }

  /** Everything before the grant is touched: a reason to deny, in the source's order. */
  function EarlyDeny(rt: Rt, policy: PolicyStore, q: Request): Option<ReasonCode> {
    if q.now.None? then Some(ENVELOPE_INVALID)
    else if rt.Halted() then Some(KILL_ACTIVE)
    else if rt.mode.Suspended? then Some(SUSPEND_ACTIVE)
    else if q.parsed.ParseFails? then Some(q.parsed.reason)
    else
      var e := q.parsed.envelope;
      if q.principal.Some? && !IsPrincipal(q.principal.value) then Some(ENVELOPE_INVALID)
      else if e.prose then Some(AGENT_PROSE_REJECTED)
      else if !policy.loaded then Some(POLICY_MISS)
      else if e.toolName !in policy.allowedTools then
        (if e.capabilityToken.None? && e.approvalId.None? then Some(TOOL_NOT_ALLOWLISTED_AND_NO_CAPABILITY) else Some(UNKNOWN_TOOL))
      else
        var spec := policy.allowedTools[e.toolName];
        if spec.UnreadableSpec? then Some(POLICY_MISS)
        else if e.capabilityToken.Some? && e.capabilityToken.value != [] then
          var denied := CapabilityDeny(policy, e.toolName, e.callerIdentity, e.capabilityToken.value, spec.requiredCapability,
                                       q.now.value, q.principal);
          if denied.Some? then denied else SchemaDeny(spec, e.args)
        else if e.approvalId.None? then Some(CAPABILITY_MISSING)
        else SchemaDeny(spec, e.args)
  }

  function SchemaDeny(spec: ToolSpec, args: Args): Option<ReasonCode>
    requires spec.Spec?
  {
    if spec.argsSchema.None? || !SchemaAccepts(args, spec.argsSchema.value) then Some(POLICY_MISS) else None
  }

  /** The decision up to the last look at the fence: the draft verdict and the grants after it. */
  function Draft(rt: Rt, policy: PolicyStore, t: Table, q: Request): (Decision, Table) {
    if EarlyDeny(rt, policy, q).Some? then (Deny(EarlyDeny(rt, policy, q).value), t)
    else if q.parsed.envelope.approvalId.None? then (Allow(None, None), t)
    else
      match ConsumeStep(t, ConsumeOf(q))
      case (Granted(state, implementation), t') => (Allow(state, implementation), t')
      case (Refused(reason), t') => (Deny(reason), t')
  }

  /** The fence and the verdict in one locked section. */
  function FinalizeAllow(rt: Rt, admitted: nat, draft: Decision): Decision {
    if draft.Deny? then draft
    else
      match EntryBlock(rt, admitted)
      case Some(reason) => Deny(reason)
      case None => draft
  }

  // ----- The rule.

  /** What an envelope and a policy must satisfy, apart from halts and the grant itself. */
  predicate Admissible(policy: PolicyStore, q: Request) {
    && q.now.Some?
    && q.parsed.Parsed?
    && (q.principal.Some? ==> IsPrincipal(q.principal.value))
    && var e := q.parsed.envelope;
       && !e.prose
       && policy.loaded
       && e.toolName in policy.allowedTools
       && var spec := policy.allowedTools[e.toolName];
          && spec.Spec? && spec.argsSchema.Some? && SchemaAccepts(e.args, spec.argsSchema.value)
          && (if e.capabilityToken.Some? && e.capabilityToken.value != []
              then CapabilityStands(policy, e.toolName, e.callerIdentity, e.capabilityToken.value,
                        spec.requiredCapability, q.now.value, q.principal)
              else e.approvalId.Some?)
  }

  predicate GrantStands(t: Table, q: Request)
    requires q.now.Some? && q.parsed.Parsed?
  {
    q.parsed.envelope.approvalId.Some? ==> Spendable(t, ConsumeOf(q))
  }

  // ----- Why a denial.

  /**
   The decision on an open runtime for a readable envelope, by the first thing that is wrong with it; `end` is the
   runtime at the last look.
   */
  predicate EnvelopeReason(d: Decision, end: Rt, policy: PolicyStore, t: Table, q: Request)
    requires q.now.Some? && q.parsed.Parsed?
  {
    var e := q.parsed.envelope;
    var named := q.principal.Some? ==> IsPrincipal(q.principal.value);
    var vetted := named && !e.prose && policy.loaded;
    var inCatalog := e.toolName in policy.allowedTools;
    && (!named ==> d == Deny(ENVELOPE_INVALID))
    && (named && e.prose ==> d == Deny(AGENT_PROSE_REJECTED))
    && (named && !e.prose && !policy.loaded ==> d == Deny(POLICY_MISS))
    && (vetted && !inCatalog && e.capabilityToken.None? && e.approvalId.None? ==>
          d == Deny(TOOL_NOT_ALLOWLISTED_AND_NO_CAPABILITY))
    && (vetted && !inCatalog && (e.capabilityToken.Some? || e.approvalId.Some?) ==> d == Deny(UNKNOWN_TOOL))
    && (vetted && inCatalog && policy.allowedTools[e.toolName].UnreadableSpec? ==> d == Deny(POLICY_MISS))
    && (vetted && inCatalog && policy.allowedTools[e.toolName].Spec? ==> TokenReason(d, end, policy, t, q))
  }

  /** The decision once the tool is known: by the token, then the arguments, then the grant. */
  predicate TokenReason(d: Decision, end: Rt, policy: PolicyStore, t: Table, q: Request)
    requires q.now.Some? && q.parsed.Parsed? && q.parsed.envelope.toolName in policy.allowedTools
    requires policy.allowedTools[q.parsed.envelope.toolName].Spec?
  {
    var e := q.parsed.envelope;
    var spec := policy.allowedTools[e.toolName];
    var shown := e.capabilityToken.Some? && e.capabilityToken.value != [];
    var holds := shown && CapabilityStands(policy, e.toolName, e.callerIdentity, e.capabilityToken.value, None, q.now.value, q.principal);
    var asked := spec.requiredCapability.Some? && spec.requiredCapability.value != [] ==> e.capabilityToken == spec.requiredCapability;
    var fits := spec.argsSchema.Some? && SchemaAccepts(e.args, spec.argsSchema.value);
    && (shown && !holds ==> d == Deny(CAPABILITY_MISSING))
    && (holds && !asked ==> d == Deny(POLICY_MISS))
    && (!shown && e.approvalId.None? ==> d == Deny(CAPABILITY_MISSING))
    && ((holds && asked) || (!shown && e.approvalId.Some?) ==>
          if fits then GrantReason(d, end, t, q) else d == Deny(POLICY_MISS))
  }

  /** The decision once everything but the grant is in order: the grant's own refusal, or what the last look says. */
  predicate GrantReason(d: Decision, end: Rt, t: Table, q: Request)
    requires q.now.Some? && q.parsed.Parsed?
  {
    if !GrantStands(t, q) then d.Deny? && RefusalFits(t, ConsumeOf(q), Refused(d.reason))
    else
      && (end.mode.Killed? ==> d == Deny(LATE_EFFECT_FENCE))
      && (!end.mode.Killed? && !end.available ==> d == Deny(KILL_ACTIVE))
      && (end.mode.Suspended? && end.available ==> d == Deny(SUSPEND_ACTIVE))
      && (end.mode.Active? && end.available ==>
            d == if q.parsed.envelope.approvalId.None? then Allow(None, None)
                 else var r := t[q.parsed.envelope.approvalId.value]; Allow(r.stateDigest, r.implementationDigest))
  }

  /** The whole decision by its inputs: a halt denies before a suspend, and both before the envelope is looked at. */
  predicate DecisionFits(d: Decision, rt: Rt, end: Rt, policy: PolicyStore, t: Table, q: Request) {
    && (q.now.None? ==> d == Deny(ENVELOPE_INVALID))
    && (q.now.Some? && (rt.mode.Killed? || !rt.available) ==> d == Deny(KILL_ACTIVE))
    && (q.now.Some? && rt.mode.Suspended? && rt.available ==> d == Deny(SUSPEND_ACTIVE))
    && (q.now.Some? && rt.mode.Active? && rt.available ==>
          match q.parsed
          case ParseFails(reason) => d == Deny(reason)
          case Parsed(_) => EnvelopeReason(d, end, policy, t, q))
  }

  lemma FinalReason(rt: Rt, end: Rt, policy: PolicyStore, t: Table, q: Request)
    requires RtInv(rt) && RtInv(end) && EarlyDeny(rt, policy, q).None? && q.now.Some? && q.parsed.Parsed?
    ensures GrantReason(FinalizeAllow(end, rt.epoch, Draft(rt, policy, t, q).0), end, t, q)
  {
    EarlyDenyIff(rt, policy, q);
    EntryBlockMeans(end, rt.epoch);
    hide EarlyDeny, ConsumeStep, Spendable, RefusalFits, Admissible;
    if q.parsed.envelope.approvalId.Some? {
      ConsumeSpendsIff(t, ConsumeOf(q));
      RefusalReasons(t, ConsumeOf(q));
      SpendableIsOutstanding(t, ConsumeOf(q));
    }
  }

  lemma EarlyReason(rt: Rt, end: Rt, policy: PolicyStore, t: Table, q: Request)
    requires RtInv(rt) && RtInv(end) && EarlyDeny(rt, policy, q).Some?
    ensures DecisionFits(Deny(EarlyDeny(rt, policy, q).value), rt, end, policy, t, q)
  {
    hide SchemaAccepts, CapabilityStands, CapabilityDeny, GrantReason, IsPrincipal;
    if q.now.Some? && q.parsed.Parsed? && q.parsed.envelope.toolName in policy.allowedTools {
      var e := q.parsed.envelope;
      var spec := policy.allowedTools[e.toolName];
      if spec.Spec? && e.capabilityToken.Some? {
        CapabilityDenyIff(policy, e.toolName, e.callerIdentity, e.capabilityToken.value, spec.requiredCapability,
                  q.now.value, q.principal);
        CapabilityReasons(policy, e.toolName, e.callerIdentity, e.capabilityToken.value, spec.requiredCapability,
                  q.now.value, q.principal);
      }
    }
  }

  lemma PassedReason(d: Decision, rt: Rt, end: Rt, policy: PolicyStore, t: Table, q: Request)
    requires rt.Open() && Admissible(policy, q) && GrantReason(d, end, t, q)
    ensures DecisionFits(d, rt, end, policy, t, q)
  {
    hide SchemaAccepts, GrantReason, IsPrincipal;
  }

  /** Which answer every request gets, with any calls in between. */
  lemma {:induction false} DecisionReasons(rt: Rt, disk: Disk, calls: seq<RuntimeCall>, policy: PolicyStore, t: Table, q: Request)
    requires RtInv(rt)
    ensures var end := RunCalls(rt, disk, calls).0;
            DecisionFits(FinalizeAllow(end, rt.epoch, Draft(rt, policy, t, q).0), rt, end, policy, t, q)
  {
    HaltOverARun(rt, disk, calls);
    var end := RunCalls(rt, disk, calls).0;
    EarlyDenyIff(rt, policy, q);
    if EarlyDeny(rt, policy, q).Some? {
      EarlyReason(rt, end, policy, t, q);
      hide EarlyDeny, DecisionFits, RunCalls;
    } else {
      FinalReason(rt, end, policy, t, q);
      PassedReason(FinalizeAllow(end, rt.epoch, Draft(rt, policy, t, q).0), rt, end, policy, t, q);
      hide EarlyDeny, DecisionFits, RunCalls, Draft, FinalizeAllow;
    }
  }

  lemma EarlyDenyIff(rt: Rt, policy: PolicyStore, q: Request)
    ensures EarlyDeny(rt, policy, q).None? <==> rt.Open() && Admissible(policy, q)
  {
    if q.now.Some? && q.parsed.Parsed? && q.parsed.envelope.toolName in policy.allowedTools {
      var e := q.parsed.envelope;
      var spec := policy.allowedTools[e.toolName];
      if spec.Spec? && e.capabilityToken.Some? {
        CapabilityDenyIff(policy, e.toolName, e.callerIdentity, e.capabilityToken.value, spec.requiredCapability,
                  q.now.value, q.principal);
      }
    }
  }

  lemma DraftAllowsIff(rt: Rt, policy: PolicyStore, t: Table, q: Request)
    ensures Draft(rt, policy, t, q).0.Allow? <==> rt.Open() && Admissible(policy, q) && GrantStands(t, q)
  {
    hide Admissible, Spendable, ConsumeStep;
    EarlyDenyIff(rt, policy, q);
    if EarlyDeny(rt, policy, q).None? && q.parsed.envelope.approvalId.Some? {
      ConsumeSpendsIff(t, ConsumeOf(q));
    }
  }

  /**
   ALLOW is decided exactly when the runtime is open at the start and at the end, the envelope is
   admissible, and any grant it names can be spent. `calls` is whatever other threads, or the
   observers, do to the runtime in between.
   */
  lemma {:induction false} AllowIff(rt: Rt, disk: Disk, calls: seq<RuntimeCall>, policy: PolicyStore, t: Table, q: Request)
    requires RtInv(rt)
    ensures var end := RunCalls(rt, disk, calls).0;
            FinalizeAllow(end, rt.epoch, Draft(rt, policy, t, q).0).Allow?
            <==> rt.Open() && end.Open() && Admissible(policy, q) && GrantStands(t, q)
  {
    hide Admissible, GrantStands, Draft;
    DraftAllowsIff(rt, policy, t, q);
    HaltOverARun(rt, disk, calls);
  }

  /**
   A denial decided before the last look at the fence spends nothing; a draft ALLOW spends exactly
   the grant it names, so only a denial by that last look can leave a grant spent.
   */
  lemma DenialsSpendNothing(rt: Rt, policy: PolicyStore, t: Table, q: Request, id: Text)
    requires id in t
    ensures var (draft, t') := Draft(rt, policy, t, q);
            && t'.Keys == t.Keys && Evolves(t[id], t'[id])
            && (t'[id].Consumed() && !t[id].Consumed()
                <==> draft.Allow? && q.parsed.envelope.approvalId == Some(id))
  {
    hide ConsumeStep, EarlyDeny;
    if EarlyDeny(rt, policy, q).None? {
      EarlyDenyIff(rt, policy, q);
      if q.parsed.envelope.approvalId.Some? {
        ConsumeEvolves(t, ConsumeOf(q), id);
      }
    }
  }
}
