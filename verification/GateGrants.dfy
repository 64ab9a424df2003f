/** Every allowed admission rests on a grant whose terms fit its request, and goes on doing so. */
module GateGrants {
  import opened Common
  import opened Json
  import opened Approval
  import opened Policy
  import opened Runtime
  import opened Evaluate
  import opened Gate
  import opened GateRuns

  /** Bound to this caller, this tool and these arguments, and not expired at the request's clock. */
  predicate TermsFit(r: Record, q: Request)
    requires q.now.Some? && q.parsed.Parsed?
  {
    && r.principal.Some? && r.principal == q.principal
    && r.MatchesBinding(q.parsed.envelope.toolName, q.parsed.envelope.args)
    && q.now.value < r.expiresAt
  }

  predicate Passed(v: Invoke) {
    v.Drafted? || (v.Decided? && v.decision.Allow?)
  }

  predicate AllowFits(v: Invoke, policy: PolicyStore, grants: Table) {
    Passed(v) ==>
      && Admissible(policy, v.q)
      && (v.q.parsed.envelope.approvalId.Some? ==>
            && v.q.parsed.envelope.approvalId.value in grants
            && TermsFit(grants[v.q.parsed.envelope.approvalId.value], v.q))
  }

  predicate AllFit(s: Sys) {
    forall i | 0 <= i < |s.invokes| :: AllowFits(s.invokes[i], s.policy, s.grants)
  }

  lemma GrantKeepsTerms(s: Sys, a: Action, id: Text)
    requires Inv(s) && Enabled(s, a) && id in s.grants
    ensures id in Next(s, a).grants && SameGrant(s.grants[id], Next(s, a).grants[id])
  {
    GrantsStep(s, a);
    if StoreCallOf(s, a).Some? {
      ApplyEvolves(s.grants, StoreCallOf(s, a).value, id);
    }
    hide Next, Inv, Enabled, Apply, StoreCallOf;
  }

  lemma FitsStays(v: Invoke, policy: PolicyStore, t: Table, t': Table)
    requires AllowFits(v, policy, t)
    requires forall id | id in t :: id in t' && SameGrant(t[id], t'[id])
    ensures AllowFits(v, policy, t')
  {
    hide Admissible, BindingDigest;
  }

  lemma TakenFits(s: Sys, i: nat)
    requires Inv(s) && Enabled(s, TakeGrant(i))
    ensures i < |Next(s, TakeGrant(i)).invokes|
    ensures AllowFits(Next(s, TakeGrant(i)).invokes[i], s.policy, Next(s, TakeGrant(i)).grants)
  {
    hide SchemaAccepts, CapabilityStands, IsPrincipal, ConsumeStep, Inv, BindingDigest, Observes, StateObserved, NotRevokedDuring;
    var v := s.invokes[i];
    if v.q.parsed.envelope.approvalId.Some? {
      ConsumeSpendsIff(s.grants, ConsumeOf(v.q));
    }
  }

  lemma LookedFits(s: Sys, i: nat)
    requires Enabled(s, LastLook(i)) && AllowFits(s.invokes[i], s.policy, s.grants)
    ensures i < |Next(s, LastLook(i)).invokes| && Next(s, LastLook(i)).grants == s.grants
    ensures AllowFits(Next(s, LastLook(i)).invokes[i], s.policy, s.grants)
  {
    hide Admissible, TermsFit, EntryBlock;
  }

  lemma MovedFits(s: Sys, a: Action, i: nat)
    requires Inv(s) && AllFit(s) && Enabled(s, a) && Moved(a) == Some(i)
    ensures i < |Next(s, a).invokes| && AllowFits(Next(s, a).invokes[i], s.policy, Next(s, a).grants)
  {
    hide Inv, TermsFit, ConsumeStep, EarlyDeny, EntryBlock;
    match a
    case TakeGrant(_) => TakenFits(s, i);
    case LastLook(_) => LookedFits(s, i);
    case _ =>
  }

  lemma AllFitStep(s: Sys, a: Action)
    requires Inv(s) && AllFit(s) && Enabled(s, a)
    ensures AllFit(Next(s, a))
  {
    hide Next, Inv, Enabled, AllowFits, SameGrant;
    var s' := Next(s, a);
    StepGrows(s, a);
    forall id | id in s.grants ensures id in s'.grants && SameGrant(s.grants[id], s'.grants[id]) {
      GrantKeepsTerms(s, a, id);
    }
    forall i | 0 <= i < |s'.invokes| ensures AllowFits(s'.invokes[i], s'.policy, s'.grants) {
      OthersStay(s, a, i);
      if Moved(a) == Some(i) {
        MovedFits(s, a, i);
      } else if i < |s.invokes| {
        FitsStays(s.invokes[i], s.policy, s.grants, s'.grants);
      } else {
        NewFits(s'.invokes[i], s'.policy, s'.grants);
      }
    }
  }

  lemma NewFits(v: Invoke, policy: PolicyStore, t: Table)
    requires v.Started?
    ensures AllowFits(v, policy, t)
  {}

  /** In every run of the gate the grant behind an allowed admission fits its request, and is spent. */
  lemma {:induction false} GrantsFitOverARun(s: Sys, acts: seq<Action>)
    requires Inv(s) && AllFit(s) && Execute(s, acts).Some?
    ensures AllFit(Execute(s, acts).value)
    decreases |acts|
  {
    hide Inv, AllFit, Next, Enabled;
    if acts != [] {
      AllFitStep(s, acts[0]);
      StepKeepsInv(s, acts[0]);
      GrantsFitOverARun(Next(s, acts[0]), acts[1..]);
    }
  }

  /** What a step adds: an admission by Begin, a completion by Complete; requests never change. */
  lemma StepShapes(s: Sys, a: Action)
    requires Enabled(s, a)
    ensures var s' := Next(s, a);
            && |s'.invokes| == |s.invokes| + (if a.Begin? then 1 else 0)
            && (a.Begin? ==> s'.invokes[|s.invokes|].q == a.q)
            && (forall i | 0 <= i < |s.invokes| :: s'.invokes[i].q == s.invokes[i].q)
            && |s'.completions| == |s.completions| + (if a.Complete? then 1 else 0)
            && (a.Complete? ==> s'.completions[|s.completions|].inv == a.i)
            && (forall c | 0 <= c < |s.completions| :: s'.completions[c].inv == s.completions[c].inv)
  {
    hide ConsumeStep, ConsumeOf, EarlyDeny, Admissible, Apply, PersistHalt, ApplyCall, FinalizeAllow, EntryBlock, ClaimEntry,
         ImplementationStillMatches, StateStillMatches, RevokeCovered, Mint, Engage;
  }

  lemma StepKeys(s: Sys, a: Action)
    requires Inv(s) && Enabled(s, a)
    ensures !(a.GrantCall? && a.storeCall.Issue?) ==> Next(s, a).grants.Keys == s.grants.Keys
    ensures a.GrantCall? && a.storeCall.Issue? ==>
              Next(s, a).grants == if IssueAccepted(s.grants, a.storeCall.issue)
                                   then s.grants[Token(a.storeCall.issue) := Minted(a.storeCall.issue)] else s.grants
  {
    GrantsStep(s, a);
    hide Next, Inv, Enabled, IssueAccepted, Minted, Token, Covered;
    if StoreCallOf(s, a).Some? && StoreCallOf(s, a).value.Consume? {
      ConsumeKeepsKeys(s.grants, StoreCallOf(s, a).value.request);
    }
  }
}
