/** The locked sections of one admission and one completion, run with nothing in between, are the whole calls. */
module GateAlone {
  import opened Common
  import opened Halt
  import opened Json
  import opened Reasons
  import opened Approval
  import opened Policy
  import opened Runtime
  import opened Evaluate
  import opened Gate
  import opened GateRuns

  lemma {:induction false} OneMore(s0: Sys, acts: seq<Action>, a: Action)
    requires Execute(s0, acts).Some? && Enabled(Execute(s0, acts).value, a)
    ensures Execute(s0, acts + [a]) == Some(Next(Execute(s0, acts).value, a))
    decreases |acts|
  {
    hide Enabled, Next;
    if acts == [] {
      assert Execute(Next(s0, a), []) == Some(Next(s0, a));
      assert ([] + [a])[1..] == [];
    } else {
      assert (acts + [a])[1..] == acts[1..] + [a];
      OneMore(Next(s0, acts[0]), acts[1..], a);
    }
  }

  predicate StepsTo(s: Sys, a: Action, s': Sys) { Enabled(s, a) && Next(s, a) == s' }

  lemma Go(s0: Sys, acts: seq<Action>, s: Sys, a: Action, s': Sys) returns (more: seq<Action>)
    requires Execute(s0, acts) == Some(s) && StepsTo(s, a, s')
    ensures Execute(s0, more) == Some(s')
  {
    more := acts + [a];
    OneMore(s0, acts, a);
    hide Enabled, Next;
  }

  /** The admission at the end of the list. */
  function With(s: Sys, v: Invoke): Sys { s.(invokes := s.invokes + [v]) }

  lemma Begins(s: Sys, q: Request)
    ensures StepsTo(s, Begin(q), With(s, Started(q)))
  {}

  lemma Mints(s: Sys, q: Request)
    requires s.stage.NoKill?
    ensures StepsTo(With(s, Started(q)), MintId(|s.invokes|),
                    With(s, Ticketed(q, s.rt.nextAdmission + 1)).(rt := s.rt.(nextAdmission := s.rt.nextAdmission + 1)))
  {}

  lemma ReadsEpoch(s: Sys, q: Request, id: nat)
    requires s.stage.NoKill?
    ensures StepsTo(With(s, Ticketed(q, id)), ReadEpoch(|s.invokes|), With(s, Epoched(q, id, s.rt.epoch)))
  {}

  lemma Looks(s: Sys, q: Request, id: nat)
    requires s.stage.NoKill?
    ensures var denied := EarlyDeny(s.rt, s.policy, q);
            StepsTo(With(s, Epoched(q, id, s.rt.epoch)), FirstLook(|s.invokes|),
                    With(s, if denied.Some? then Decided(q, id, s.rt.epoch, Deny(denied.value)) else Checked(q, id, s.rt.epoch, s.rt.epoch)))
  {
    hide EarlyDeny;
  }

  lemma Takes(s: Sys, q: Request, id: nat)
    requires EarlyDeny(s.rt, s.policy, q).None?
    ensures var (draft, grants) := Draft(s.rt, s.policy, s.grants, q);
            StepsTo(With(s, Checked(q, id, s.rt.epoch, s.rt.epoch)), TakeGrant(|s.invokes|),
                    With(s, if draft.Allow? then Drafted(q, id, s.rt.epoch, s.rt.epoch, draft) else Decided(q, id, s.rt.epoch, draft))
                      .(grants := grants))
  {
    EarlyDenyIff(s.rt, s.policy, q);
    hide EarlyDeny, ConsumeStep, Admissible;
  }

  lemma LooksAgain(s: Sys, q: Request, id: nat, draft: Decision)
    requires s.stage.NoKill? && draft.Allow?
    ensures var d := FinalizeAllow(s.rt, s.rt.epoch, draft);
            StepsTo(With(s, Drafted(q, id, s.rt.epoch, s.rt.epoch, draft)), LastLook(|s.invokes|),
                    With(s, Decided(q, id, s.rt.epoch, d)).(log := if d.Allow? then s.log + [Allowed(|s.invokes|)] else s.log))
  {
    hide EntryBlock;
  }

  /**
   An admission whose sections run one after another gets a fresh ticket, the epoch, and the very answer the whole
   evaluation gives; the grants are those after it.
   */
  lemma AdmissionAlone(s: Sys, q: Request) returns (acts: seq<Action>, d: Decision)
    requires RtInv(s.rt) && s.stage.NoKill?
    ensures DecisionFits(d, s.rt, s.rt, s.policy, s.grants, q)
    ensures Execute(s, acts) == Some(
              s.(invokes := s.invokes + [Decided(q, s.rt.nextAdmission + 1, s.rt.epoch, d)],
                 rt := s.rt.(nextAdmission := s.rt.nextAdmission + 1),
                 grants := Draft(s.rt, s.policy, s.grants, q).1,
                 log := if d.Allow? then s.log + [Allowed(|s.invokes|)] else s.log))
  {
    hide StepsTo, EarlyDeny, Draft, FinalizeAllow, Execute, DecisionFits;
    var i, id := |s.invokes|, s.rt.nextAdmission + 1;
    var t := s.(rt := s.rt.(nextAdmission := id));
    SameForTheDecision(s, t, q);
    assert Execute(s, []) == Some(s) by { Nothing(s); }
    Begins(s, q);
    acts := Go(s, [], s, Begin(q), With(s, Started(q)));
    Mints(s, q);
    acts := Go(s, acts, With(s, Started(q)), MintId(i), With(t, Ticketed(q, id)));
    ReadsEpoch(t, q, id);
    acts := Go(s, acts, With(t, Ticketed(q, id)), ReadEpoch(i), With(t, Epoched(q, id, t.rt.epoch)));
    Looks(t, q, id);
    var denied := EarlyDeny(t.rt, t.policy, q);
    if denied.Some? {
      d := Deny(denied.value);
      acts := Go(s, acts, With(t, Epoched(q, id, t.rt.epoch)), FirstLook(i), With(t, Decided(q, id, t.rt.epoch, d)));
    } else {
      acts := Go(s, acts, With(t, Epoched(q, id, t.rt.epoch)), FirstLook(i), With(t, Checked(q, id, t.rt.epoch, t.rt.epoch)));
      Takes(t, q, id);
      var (draft, grants) := Draft(t.rt, t.policy, t.grants, q);
      var u := t.(grants := grants);
      if draft.Deny? {
        d := draft;
        acts := Go(s, acts, With(t, Checked(q, id, t.rt.epoch, t.rt.epoch)), TakeGrant(i), With(u, Decided(q, id, t.rt.epoch, d)));
      } else {
        acts := Go(s, acts, With(t, Checked(q, id, t.rt.epoch, t.rt.epoch)), TakeGrant(i),
                   With(u, Drafted(q, id, t.rt.epoch, t.rt.epoch, draft)));
        LooksAgain(u, q, id, draft);
        d := FinalizeAllow(u.rt, u.rt.epoch, draft);
        acts := Go(s, acts, With(u, Drafted(q, id, t.rt.epoch, t.rt.epoch, draft)), LastLook(i),
                   With(u, Decided(q, id, t.rt.epoch, d)).(log := if d.Allow? then s.log + [Allowed(i)] else s.log));
      }
    }
  }

  lemma {:induction false} Nothing(s: Sys)
    ensures Execute(s, []) == Some(s)
  {}

  /** The decision does not look at tickets, and a denial by the first look or the grant is final. */
  lemma SameForTheDecision(s: Sys, t: Sys, q: Request)
    requires RtInv(s.rt) && t == s.(rt := s.rt.(nextAdmission := t.rt.nextAdmission))
    ensures EarlyDeny(t.rt, s.policy, q) == EarlyDeny(s.rt, s.policy, q)
    ensures Draft(t.rt, s.policy, s.grants, q) == Draft(s.rt, s.policy, s.grants, q)
    ensures EarlyDeny(s.rt, s.policy, q).Some? ==>
              Draft(s.rt, s.policy, s.grants, q) == (Deny(EarlyDeny(s.rt, s.policy, q).value), s.grants)
    ensures var draft := Draft(s.rt, s.policy, s.grants, q).0;
            && (draft.Deny? ==> DecisionFits(draft, s.rt, s.rt, s.policy, s.grants, q))
            && FinalizeAllow(t.rt, t.rt.epoch, draft) == FinalizeAllow(s.rt, s.rt.epoch, draft)
            && DecisionFits(FinalizeAllow(s.rt, s.rt.epoch, draft), s.rt, s.rt, s.policy, s.grants, q)
  {
    assert RunCalls(s.rt, s.disk, []) == (s.rt, s.disk);
    DecisionReasons(s.rt, s.disk, [], s.policy, s.grants, q);
    SameEarly(s.rt, t.rt, s.policy, q);
    hide DecisionFits, EarlyDeny, ConsumeStep;
  }

  lemma SameEarly(rt: Rt, rt': Rt, policy: PolicyStore, q: Request)
    requires rt' == rt.(nextAdmission := rt'.nextAdmission)
    ensures EarlyDeny(rt', policy, q) == EarlyDeny(rt, policy, q)
  {
    hide SchemaAccepts, CapabilityDeny, IsPrincipal;
  }

  // ----- A completion.

  function Coming(s: Sys, c: Completion): Sys { s.(completions := s.completions + [c]) }

  predicate Answered(s: Sys, i: nat) { i < |s.invokes| && s.invokes[i].Decided? && s.stage.NoKill? }

  lemma Completes(s: Sys, i: nat)
    requires Answered(s, i)
    ensures var d := s.invokes[i].decision;
            StepsTo(s, Complete(i), Coming(s, if d.Allow? then Begun(i) else TurnedAway(i, d.reason)))
  {}

  lemma PassesFence(s: Sys, i: nat)
    requires Answered(s, i)
    ensures var cut := EntryBlock(s.rt, s.invokes[i].epoch);
            StepsTo(Coming(s, Begun(i)), ReadFence(|s.completions|),
                    Coming(s, if cut.Some? then TurnedAway(i, cut.value) else FenceOpen(i)))
  {
    hide EntryBlock;
  }

  lemma PassesSpent(s: Sys, i: nat)
    requires Answered(s, i)
    ensures StepsTo(Coming(s, FenceOpen(i)), ReadSpent(|s.completions|),
                    Coming(s, if s.invokes[i].id in s.rt.spent then TurnedAway(i, ADMISSION_CONSUMED) else Unspent(i)))
  {}

  lemma PassesObservers(s: Sys, i: nat, entry: Entry)
    requires Answered(s, i)
    ensures var d := s.invokes[i].decision;
            StepsTo(Coming(s, Unspent(i)), Reobserve(|s.completions|, entry),
                    Coming(s, if !ImplementationStillMatches(d, entry) then TurnedAway(i, APPROVAL_IMPLEMENTATION_MISMATCH)
                              else if !StateStillMatches(d, entry) then TurnedAway(i, APPROVAL_STATE_MISMATCH)
                              else Reobserved(i)))
  {
    hide ImplementationStillMatches, StateStillMatches;
  }

  lemma Claims(s: Sys, i: nat, from: Completion)
    requires Answered(s, i) && from in {Reobserved(i), Yielded(i)}
    requires EntryBlock(s.rt, s.invokes[i].epoch).None? && s.invokes[i].id !in s.rt.spent
    ensures StepsTo(Coming(s, from), Claim(|s.completions|),
                    Coming(s, Permitted(i)).(rt := s.rt.(spent := s.rt.spent + {s.invokes[i].id}),
                                             log := s.log + [Permit(i, |s.completions|)]))
  {
    hide EntryBlock;
  }

  lemma Yields(s: Sys, i: nat)
    requires Answered(s, i) && EntryBlock(s.rt, s.invokes[i].epoch).None? && s.invokes[i].id !in s.rt.spent
    ensures StepsTo(Coming(s, Reobserved(i)), YieldLock(|s.completions|), Coming(s, Yielded(i)))
  {
    hide EntryBlock;
  }

  lemma EntersTool(s: Sys, i: nat)
    requires Answered(s, i)
    ensures StepsTo(Coming(s, Permitted(i)), EnterTool(|s.completions|),
                    Coming(s, Entered(i)).(log := s.log + [ToolEntered(i, |s.completions|)]))
  {}

  function Pending(s: Sys, i: nat): PendingInvoke
    requires Answered(s, i)
  {
    PendingInvoke(s.invokes[i].decision, s.invokes[i].epoch, s.invokes[i].id)
  }

  /**
   A completion whose sections run one after another, with or without giving up the lock before the permit, enters the
   tool exactly when the gate's entry rule holds, and otherwise changes nothing but its own answer.
   */
  lemma CompletionAlone(s: Sys, i: nat, entry: Entry, gapped: bool) returns (acts: seq<Action>, last: Completion)
    requires Answered(s, i)
    ensures last.inv == i && (last.Entered? || last.TurnedAway?)
    ensures last.TurnedAway? ==>
              var v := s.invokes[i];
              last.reason == if v.decision.Deny? then v.decision.reason
                             else if EntryBlock(s.rt, v.epoch).Some? then EntryBlock(s.rt, v.epoch).value
                             else if v.id in s.rt.spent then ADMISSION_CONSUMED
                             else if !ImplementationStillMatches(v.decision, entry) then APPROVAL_IMPLEMENTATION_MISMATCH
                             else APPROVAL_STATE_MISMATCH
    ensures last.Entered? <==> Enters(s.rt, s.disk, Pending(s, i), entry, [], [])
    ensures Execute(s, acts) == Some(
              if last.TurnedAway? then s.(completions := s.completions + [last])
              else s.(completions := s.completions + [last], rt := s.rt.(spent := s.rt.spent + {s.invokes[i].id}),
                      log := s.log + [Permit(i, |s.completions|), ToolEntered(i, |s.completions|)]))
  {
    EntersAtOnce(s, i, entry);
    Nothing(s);
    hide StepsTo, EntryBlock, ImplementationStillMatches, StateStillMatches, Execute, Enters;
    var c, v := |s.completions|, s.invokes[i];
    Completes(s, i);
    if v.decision.Deny? {
      last := TurnedAway(i, v.decision.reason);
      acts := Go(s, [], s, Complete(i), Coming(s, last));
      return;
    }
    acts := Go(s, [], s, Complete(i), Coming(s, Begun(i)));
    PassesFence(s, i);
    if EntryBlock(s.rt, v.epoch).Some? {
      last := TurnedAway(i, EntryBlock(s.rt, v.epoch).value);
      acts := Go(s, acts, Coming(s, Begun(i)), ReadFence(c), Coming(s, last));
      return;
    }
    acts := Go(s, acts, Coming(s, Begun(i)), ReadFence(c), Coming(s, FenceOpen(i)));
    PassesSpent(s, i);
    if v.id in s.rt.spent {
      last := TurnedAway(i, ADMISSION_CONSUMED);
      acts := Go(s, acts, Coming(s, FenceOpen(i)), ReadSpent(c), Coming(s, last));
      return;
    }
    acts := Go(s, acts, Coming(s, FenceOpen(i)), ReadSpent(c), Coming(s, Unspent(i)));
    PassesObservers(s, i, entry);
    if !ImplementationStillMatches(v.decision, entry) || !StateStillMatches(v.decision, entry) {
      last := TurnedAway(i, if !ImplementationStillMatches(v.decision, entry) then APPROVAL_IMPLEMENTATION_MISMATCH
                            else APPROVAL_STATE_MISMATCH);
      acts := Go(s, acts, Coming(s, Unspent(i)), Reobserve(c, entry), Coming(s, last));
      return;
    }
    acts := Go(s, acts, Coming(s, Unspent(i)), Reobserve(c, entry), Coming(s, Reobserved(i)));
    var from := Reobserved(i);
    if gapped {
      Yields(s, i);
      acts := Go(s, acts, Coming(s, Reobserved(i)), YieldLock(c), Coming(s, Yielded(i)));
      from := Yielded(i);
    }
    var u := s.(rt := s.rt.(spent := s.rt.spent + {v.id}), log := s.log + [Permit(i, c)]);
    Claims(s, i, from);
    acts := Go(s, acts, Coming(s, from), Claim(c), Coming(u, Permitted(i)));
    EntersTool(u, i);
    last := Entered(i);
    acts := Go(s, acts, Coming(u, Permitted(i)), EnterTool(c), Coming(u, Entered(i)).(log := u.log + [ToolEntered(i, c)]));
    assert u.log + [ToolEntered(i, c)] == s.log + [Permit(i, c), ToolEntered(i, c)];
  }

  /** The entry rule when nothing happens on the way. */
  lemma EntersAtOnce(s: Sys, i: nat, entry: Entry)
    requires Answered(s, i)
    ensures var v := s.invokes[i];
            Enters(s.rt, s.disk, Pending(s, i), entry, [], []) <==>
              && v.decision.Allow? && EntryBlock(s.rt, v.epoch).None? && v.id !in s.rt.spent
              && ImplementationStillMatches(v.decision, entry) && StateStillMatches(v.decision, entry)
  {
    hide EntryBlock, ImplementationStillMatches, StateStillMatches;
  }
}
