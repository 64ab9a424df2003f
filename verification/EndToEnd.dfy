/** What every run of the reference host guarantees about the tools it enters. */
module EndToEnd {
  import opened Common
  import opened Halt
  import opened Json
  import opened Canonical
  import opened Approval
  import opened Policy
  import opened Runtime
  import opened Evaluate
  import opened GateRuns
  import opened GateGrants
  import opened FenceRuns
  import opened HostGrants
  import opened HostRuns

  lemma {:induction false} ServeKeepsInv(s: Host, acts: seq<HostAction>)
    requires HostInv(s) && Serve(s, acts).Some?
    ensures HostInv(Serve(s, acts).value)
    decreases |acts|
  {
    hide HostInv, HostNext, CanStep;
    if acts != [] {
      HostStep(s, acts[0]);
      ServeKeepsInv(HostNext(s, acts[0]), acts[1..]);
    }
  }

  lemma HostInitialInv(s: Host)
    requires HostInitial(s)
    ensures HostInv(s)
  {}

  // ----- Every entry rests on its own grant.

  predicate EntersAt(s: Host, k: nat) {
    && k < |s.gate.log| && s.gate.log[k].ToolEntered?
    && s.gate.log[k].i < |s.owner| && s.owner[s.gate.log[k].i] < |s.calls|
  }

  function CallAt(s: Host, k: nat): HostCall
    requires EntersAt(s, k)
  {
    s.calls[s.owner[s.gate.log[k].i]]
  }

  /** The grant the admission behind entry `k` names. */
  function GrantAt(s: Host, k: nat): Option<Text>
    requires EntersAt(s, k)
  {
    if s.gate.log[k].i < |s.gate.invokes| && s.gate.invokes[s.gate.log[k].i].q.parsed.Parsed?
    then s.gate.invokes[s.gate.log[k].i].q.parsed.envelope.approvalId else None
  }

  /** The mint was for this connection, this tool and these arguments, and unexpired at the request's clock. */
  predicate MintedFor(m: MintCall, call: HostCall) {
    && Minting(m)
    && m.conn == call.conn
    && m.r.tools == [call.tool]
    && Same(Freeze(call.args), Freeze(m.r.args))
    && call.now < m.r.now + m.r.ttlSeconds
  }

  /** Both readings of the halt file were of an active file, and the line before the tool was logged. */
  predicate Cleared(call: HostCall) {
    && call.preEntry && |call.files| == 2
    && ActiveFile(call.files[0]) && ActiveFile(call.files[1])
  }

  predicate EntryRests(s: Host, k: nat)
    requires EntersAt(s, k)
  {
    && GrantAt(s, k).Some?
    && GrantAt(s, k).value in s.mintOf
    && s.mintOf[GrantAt(s, k).value] < |s.mints|
    && MintedFor(s.mints[s.mintOf[GrantAt(s, k).value]], CallAt(s, k))
  }

  lemma TermsMeanMint(id: Text, r: Record, m: MintCall, q: Request, call: HostCall, uids: seq<nat>)
    requires GrantFits(id, r, m) && MintFits(m, uids)
    requires q.parsed.Parsed? && QueryFits(q, call, uids) && TermsFit(r, q)
    ensures MintedFor(m, call)
  {
    assert Minted(m.r).MatchesBinding(call.tool, call.args);
    BindingMatchesExactly(m.r, call.tool, call.args);
    PrincipalsDiffer(uids[m.conn], m.conn + 1, uids[call.conn], call.conn + 1);
    hide BindingDigest, Freeze, PrincipalOf;
  }

  lemma AllowedHolds(s: Host, i: nat)
    requires HostInv(s) && i < |s.gate.invokes| && s.gate.invokes[i].Decided? && s.gate.invokes[i].decision.Allow?
    ensures i < |s.owner| && s.owner[i] < |s.calls| && QueryFits(s.gate.invokes[i].q, s.calls[s.owner[i]], s.uids)
    ensures var v := s.gate.invokes[i];
            && Holds(v) && v.q.now.Some? && GrantOf(v) in s.gate.grants && TermsFit(s.gate.grants[GrantOf(v)], v.q)
  {
    assert OwnerInv(i, s.gate.invokes[i].q, s.owner[i], s.calls, s.uids);
    assert AllowFits(s.gate.invokes[i], s.gate.policy, s.gate.grants);
    hide Inv, Owners, Completions, Mints, PrincipalOf, TermsFit, SchemaAccepts, CapabilityStands, IsPrincipal;
  }

  lemma EntryInGate(s: Sys, k: nat)
    requires Inv(s) && k < |s.log| && s.log[k].ToolEntered?
    ensures var (i, c) := (s.log[k].i, s.log[k].c);
            && i < |s.invokes| && s.invokes[i].Decided? && s.invokes[i].decision.Allow?
            && c < |s.completions| && s.completions[c].inv == i
  {
    EntryHasPermit(s, s.log[k].i, s.log[k].c, k);
    assert EventInv(s, s.log[k]);
    hide Invokes, CompletionInv, InOrder, RtInv, TableInv;
  }

  lemma EntryFacts(s: Host, k: nat)
    requires HostInv(s) && k < |s.gate.log| && s.gate.log[k].ToolEntered?
    ensures var i := s.gate.log[k].i;
            && i < |s.gate.invokes| && s.gate.invokes[i].Decided? && s.gate.invokes[i].decision.Allow?
            && EntersAt(s, k) && CallAt(s, k).stage.Completing? && Cleared(CallAt(s, k))
  {
    hide Inv, AllFit, Mints, Owners, Completions, Cleared;
    EntryInGate(s.gate, k);
    CompletedCall(s, s.gate.log[k].c);
  }

  lemma CompletedCall(s: Host, c: nat)
    requires Owners(s) && Completions(s) && c < |s.gate.completions|
    ensures var i := s.gate.completions[c].inv;
            i < |s.owner| && s.owner[i] < |s.calls| && s.calls[s.owner[i]].stage.Completing? && Cleared(s.calls[s.owner[i]])
  {
    hide OwnerInv, ActiveFile;
    var i := s.gate.completions[c].inv;
    assert BegunBy(i, s.owner, s.calls);
    assert CallInv(s.calls[s.owner[i]], s.owner[i], s.uids, s.owner);
  }

  lemma GrantHasMint(s: Host, id: Text)
    requires Mints(s) && id in s.gate.grants
    ensures id in s.mintOf && s.mintOf[id] < |s.mints|
    ensures GrantFits(id, s.gate.grants[id], s.mints[s.mintOf[id]]) && MintFits(s.mints[s.mintOf[id]], s.uids)
  {
    hide GrantFits, MintFits;
  }

  lemma EntryIsGranted(s: Host, k: nat)
    requires HostInv(s) && k < |s.gate.log| && s.gate.log[k].ToolEntered?
    ensures EntersAt(s, k) && EntryRests(s, k) && Cleared(CallAt(s, k))
  {
    hide Inv, AllFit, Owners, Completions, Mints, GrantFits, MintFits, TermsFit, QueryFits, Cleared, MintedFor;
    EntryFacts(s, k);
    var i := s.gate.log[k].i;
    AllowedHolds(s, i);
    var v := s.gate.invokes[i];
    var id := GrantOf(v);
    GrantHasMint(s, id);
    TermsMeanMint(id, s.gate.grants[id], s.mints[s.mintOf[id]], v.q, CallAt(s, k), s.uids);
  }

  lemma EntriesDiffer(s: Host, k: nat, m: nat)
    requires HostInv(s) && k != m
    requires k < |s.gate.log| && s.gate.log[k].ToolEntered? && m < |s.gate.log| && s.gate.log[m].ToolEntered?
    requires EntersAt(s, k) && EntryRests(s, k) && EntersAt(s, m) && EntryRests(s, m)
    ensures s.mintOf[GrantAt(s, k).value] != s.mintOf[GrantAt(s, m).value]
  {
    var e, f := s.gate.log[k], s.gate.log[m];
    EntryFacts(s, k);
    EntryFacts(s, m);
    EntriesApart(s.gate, e.i, e.c, k, f.i, f.c, m);
    AllowedHolds(s, e.i);
    AllowedHolds(s, f.i);
    assert GrantFits(GrantAt(s, k).value, s.gate.grants[GrantAt(s, k).value], s.mints[s.mintOf[GrantAt(s, k).value]]);
    assert GrantFits(GrantAt(s, m).value, s.gate.grants[GrantAt(s, m).value], s.mints[s.mintOf[GrantAt(s, m).value]]);
    hide Inv, AllFit, Owners, Completions, Mints, TermsFit, QueryFits, Cleared, MintedFor;
  }

  /**
   In every run of the host each entry into a tool has its own mint: an accepted mint for that very
   connection, tool and arguments, unexpired at the request's clock; and the halt file was read
   twice on the way, both times active.
   */
  lemma {:induction false} EntriesInjectIntoMints(s0: Host, acts: seq<HostAction>, k: nat, m: nat)
    requires HostInitial(s0) && Serve(s0, acts).Some?
    requires var log := Serve(s0, acts).value.gate.log; k < |log| && log[k].ToolEntered? && m < |log| && log[m].ToolEntered?
    ensures var s := Serve(s0, acts).value;
            && EntersAt(s, k) && EntryRests(s, k) && Cleared(CallAt(s, k))
            && EntersAt(s, m) && EntryRests(s, m)
            && (k != m ==> s.mintOf[GrantAt(s, k).value] != s.mintOf[GrantAt(s, m).value])
  {
    HostInitialInv(s0);
    ServeKeepsInv(s0, acts);
    var s := Serve(s0, acts).value;
    EntryIsGranted(s, k);
    EntryIsGranted(s, m);
    hide HostInv, EntryRests, EntersAt, Serve, Cleared;
    if k != m {
      EntriesDiffer(s, k, m);
    }
  }

  // ----- Counting.

  function EntriesOn(s: Host, conn: nat): set<nat> {
    set k | 0 <= k < |s.gate.log| && EntersAt(s, k) && CallAt(s, k).conn == conn
  }

  function MintsOn(s: Host, conn: nat): set<nat> {
    set m | 0 <= m < |s.mints| && Minting(s.mints[m]) && s.mints[m].conn == conn
  }

  lemma {:induction false} InjectionBounds(xs: set<nat>, ys: set<nat>, f: map<nat, nat>)
    requires f.Keys == xs && (forall x | x in xs :: f[x] in ys) && (forall x, y | x in xs && y in xs && x != y :: f[x] != f[y])
    ensures |xs| <= |ys|
    decreases |xs|
  {
    if xs != {} {
      var x :| x in xs;
      var rest := map y | y in xs - {x} :: f[y];
      InjectionBounds(xs - {x}, ys - {f[x]}, rest);
      assert |xs - {x}| == |xs| - 1 && |ys - {f[x]}| == |ys| - 1;
    }
  }

  function MintAt(s: Host, k: nat): nat
    requires EntersAt(s, k) && EntryRests(s, k)
  {
    s.mintOf[GrantAt(s, k).value]
  }

  lemma {:induction false} TwoEntries(s0: Host, acts: seq<HostAction>, conn: nat, k: nat, m: nat)
    requires HostInitial(s0) && Serve(s0, acts).Some?
    requires var s := Serve(s0, acts).value; k in EntriesOn(s, conn) && m in EntriesOn(s, conn)
    ensures var s := Serve(s0, acts).value;
            && EntersAt(s, k) && EntryRests(s, k) && EntersAt(s, m) && EntryRests(s, m)
            && MintAt(s, k) in MintsOn(s, conn) && (k != m ==> MintAt(s, k) != MintAt(s, m))
  {
    hide HostInitial, Serve, Same, Freeze;
    EntriesInjectIntoMints(s0, acts, k, m);
  }

  /** No connection ever enters tools more often than grants were minted on it. */
  lemma {:induction false} EntriesNeverExceedMints(s0: Host, acts: seq<HostAction>, conn: nat)
    requires HostInitial(s0) && Serve(s0, acts).Some?
    ensures var s := Serve(s0, acts).value; |EntriesOn(s, conn)| <= |MintsOn(s, conn)|
  {
    hide *;
    var s := Serve(s0, acts).value;
    forall k, m | k in EntriesOn(s, conn) && m in EntriesOn(s, conn)
      ensures EntersAt(s, k) && EntryRests(s, k) && EntersAt(s, m) && EntryRests(s, m)
      ensures MintAt(s, k) in MintsOn(s, conn) && (k != m ==> MintAt(s, k) != MintAt(s, m))
    {
      TwoEntries(s0, acts, conn, k, m);
    }
    var f := map k | k in EntriesOn(s, conn) :: MintAt(s, k);
    InjectionBounds(EntriesOn(s, conn), MintsOn(s, conn), f);
  }

  // ----- The latched halt.

  /** Past the look at the latch in the second halt check: the only requests that can still reach the tool after a latch. */
  predicate PastSecondLook(call: HostCall) {
    || call.stage.ToEnter? || call.stage.Completing?
    || ((call.stage.Unlatched? || call.stage.Unkilled? || call.stage.ToMirror?) && |call.files| == 2)
  }

  lemma LatchedStep(s: Host, a: HostAction, h: nat)
    requires CanStep(s, a) && s.sticky && h < |HostNext(s, a).calls| && PastSecondLook(HostNext(s, a).calls[h])
    requires h < |s.calls| ==> StageInv(s.calls[h])
    ensures h < |s.calls| && PastSecondLook(s.calls[h])
  {
    CallsStep(s, a);
    if a.Receive? { NewCallIsAtStart(s, a); }
    hide Enabled, Next, StepFits, Advance, PrincipalOf, GatePart, HostPart, StageInv, PastSecondLook;
    if h < |s.calls| {
      assert CallMoves(s, a, h, s.calls[h], HostNext(s, a).calls[h]);
      if a.Handle? && a.h == h {
        LatchedAdvance(s, s.calls[h], a.step);
      }
    }
  }

  lemma LatchedAdvance(s: Host, v: HostCall, step: CallStep)
    requires s.sticky && StepFits(s, v, step) && StageInv(v) && PastSecondLook(Advance(s, v, step))
    ensures PastSecondLook(v)
  {
    hide Choose, Sift, Look, OutcomeFits, PrincipalOf, ActiveFile, ReadFailClosed;
  }

  lemma NewCallIsAtStart(s: Host, a: HostAction)
    requires CanStep(s, a) && a.Receive?
    ensures |HostPart(s, a).calls| == |s.calls| + 1 && !PastSecondLook(HostPart(s, a).calls[|s.calls|])
  {
    hide Enabled, Next, PrincipalOf, Advance, StepFits;
  }

  lemma StickyStays(s: Host, a: HostAction)
    requires CanStep(s, a) && s.sticky
    ensures HostNext(s, a).sticky
  {
    hide Enabled, Next, Advance, Latches, PrincipalOf, GatePart, IssueAccepted;
  }

  /**
   A latched halt is never cleared, and from then on no request gets past the look at the latch in its
   second halt check: whatever is being completed later had passed it before the latch.
   */
  lemma {:induction false} LatchStops(s: Host, acts: seq<HostAction>, h: nat)
    requires HostInv(s) && s.sticky && Serve(s, acts).Some?
    ensures Serve(s, acts).value.sticky
    ensures h < |Serve(s, acts).value.calls| && PastSecondLook(Serve(s, acts).value.calls[h]) ==>
              h < |s.calls| && PastSecondLook(s.calls[h])
    decreases |acts|
  {
    if acts != [] {
      var s1 := HostNext(s, acts[0]);
      HostStep(s, acts[0]);
      StickyStays(s, acts[0]);
      LatchStops(s1, acts[1..], h);
      if h < |s1.calls| && PastSecondLook(s1.calls[h]) {
        assert h < |s.calls| ==> CallInv(s.calls[h], h, s.uids, s.owner);
        LatchedStep(s, acts[0], h);
      }
      hide HostNext, CanStep, HostInv, PastSecondLook;
    }
  }
}
