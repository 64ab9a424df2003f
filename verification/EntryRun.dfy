/** The way to an entry is open: a grant minted on a connection lets that connection's request reach its tool. */
module EntryRuns {
  import opened Common
  import opened Halt
  import opened Json
  import opened Approval
  import opened Policy
  import opened Runtime
  import opened Evaluate
  import opened Gate
  import opened GateRuns
  import opened HostGrants
  import opened HostRuns
  import Canonical

  /** What a connection asks for: a grant, and then the call that spends it. */
  datatype Wish = Wish(uid: nat, tool: Text, args: Args, ttl: int, freshId: Text, now: Instant) {
    function Principal(): Text { PrincipalOf(uid, 1) }

    function Grant(policy: PolicyStore): IssueRequest {
      IssueRequest([tool], ttl, args, None, freshId, now, Some(policy.allowedTools.Keys), None, Some(Principal()), None)
    }

    function Outcome(): ParseOutcome {
      Parsed(Envelope(tool, args, None, Some(freshId), Principal(), None, false))
    }

    function Query(): Request { Request(Some(now), Outcome(), Some(Principal()), None, None) }

    function Call(stage: Stage): HostCall { HostCall(0, tool, args, now, stage, [], None, false) }
  }

  /** A new host, open on an active file, whose policy admits the call and accepts the mint. */
  predicate Ready(s: Host, w: Wish) {
    && HostInitial(s) && s.gate.rt.Open() && s.gate.rt.nextAdmission + 1 !in s.gate.rt.spent
    && s.gate.disk.Some? && ActiveFile(s.gate.disk.value)
    && IssueAccepted(map[], w.Grant(s.gate.policy)) && Admissible(s.gate.policy, w.Query())
  }

  lemma {:induction false} OneMore(s0: Host, acts: seq<HostAction>, a: HostAction)
    requires Serve(s0, acts).Some? && CanStep(Serve(s0, acts).value, a)
    ensures Serve(s0, acts + [a]) == Some(HostNext(Serve(s0, acts).value, a))
    decreases |acts|
  {
    hide CanStep, HostNext;
    if acts == [] {
      assert Serve(HostNext(s0, a), []) == Some(HostNext(s0, a));
      assert ([] + [a])[1..] == [];
    } else {
      assert (acts + [a])[1..] == acts[1..] + [a];
      OneMore(HostNext(s0, acts[0]), acts[1..], a);
    }
  }

  lemma Go(s0: Host, acts: seq<HostAction>, s: Host, a: HostAction, s': Host) returns (more: seq<HostAction>)
    requires Serve(s0, acts) == Some(s) && CanStep(s, a) && HostNext(s, a) == s'
    ensures Serve(s0, more) == Some(s')
  {
    more := acts + [a];
    OneMore(s0, acts, a);
  }

  // ----- The grant is minted and listed.

  function Granted(s: Host, w: Wish): Host
    requires w.tool != []
  {
    s.(gate := s.gate.(grants := map[w.freshId := Minted(w.Grant(s.gate.policy))]), uids := [w.uid], known := {w.Principal()},
       listed := map[w.Principal() := [w.freshId]], mints := [Listed(0, w.Grant(s.gate.policy))], mintOf := map[w.freshId := 0])
  }

  predicate StepsTo(s: Host, a: HostAction, s': Host) { CanStep(s, a) && HostNext(s, a) == s' }

  /** A step of the only request that neither moves the gate nor latches. */
  lemma Handles(s: Host, v: HostCall, step: CallStep)
    requires s.calls == [v] && StepFits(s, v, step) && GateStepOf(s, v, step).None? && !Latches(s, v, step) && !step.BeginGate?
    ensures StepsTo(s, Handle(0, step), s.(calls := [Advance(s, v, step)]))
  {
    hide Advance, Latches, StepFits, GateStepOf, PrincipalOf, Next, Enabled;
  }

  lemma HandlesWithGate(s: Host, v: HostCall, step: CallStep)
    requires s.calls == [v] && StepFits(s, v, step) && GateStepOf(s, v, step).Some? && !Latches(s, v, step)
    requires Enabled(s.gate, GateStepOf(s, v, step).value)
    ensures StepsTo(s, Handle(0, step),
              s.(calls := [Advance(s, v, step)], gate := Next(s.gate, GateStepOf(s, v, step).value),
                 owner := if step.BeginGate? then s.owner + [0] else s.owner))
  {
    hide Advance, Latches, StepFits, GateStepOf, PrincipalOf, Next, Enabled;
  }

  lemma MovesGate(s: Host, ga: Action)
    requires LeftToTheGate(ga) && Enabled(s.gate, ga)
    ensures StepsTo(s, GateStep(ga), s.(gate := Next(s.gate, ga)))
  {
    hide Next, Enabled, PrincipalOf, StepFits;
  }

  lemma Opens(s0: Host, w: Wish)
    requires Ready(s0, w)
    ensures StepsTo(s0, OpenSession(w.uid), s0.(uids := [w.uid], known := {w.Principal()}))
  {
    hide PrincipalOf, IsPrincipal, Minted, Token, Admissible, ActiveFile, Advance, Latches, StepFits, Next, Enabled;
  }

  lemma Asks(s0: Host, s: Host, w: Wish)
    requires s == s0.(uids := [w.uid], known := {w.Principal()}) && s0.mints == []
    ensures StepsTo(s, AskGrant(0, w.tool, w.args, w.ttl, w.freshId, w.now), s.(mints := [Asked(0, w.Grant(s0.gate.policy))]))
  {
    hide PrincipalOf, IsPrincipal, Minted, Token, Admissible, ActiveFile, Advance, Latches, StepFits, Next, Enabled;
  }

  lemma Issues(s: Host, w: Wish)
    requires var r := w.Grant(s.gate.policy);
             s.mints == [Asked(0, r)] && s.gate.grants == map[] && s.mintOf == map[] && IssueAccepted(map[], r)
    ensures var r := w.Grant(s.gate.policy);
            StepsTo(s, IssueGrant(0),
              s.(gate := s.gate.(grants := map[w.freshId := Minted(r)]), mints := [Issued(0, r)], mintOf := map[w.freshId := 0]))
  {
    hide PrincipalOf, IsPrincipal, Minted, Admissible, ActiveFile, Advance, Latches, StepFits;
    assert map[][w.freshId := Minted(w.Grant(s.gate.policy))] == map[w.freshId := Minted(w.Grant(s.gate.policy))];
  }

  lemma Lists(s: Host, w: Wish)
    requires s.uids == [w.uid] && s.mints == [Issued(0, w.Grant(s.gate.policy))] && s.listed == map[]
    ensures StepsTo(s, ListGrant(0),
              s.(mints := [Listed(0, w.Grant(s.gate.policy))], listed := map[w.Principal() := [w.freshId]]))
  {
    hide PrincipalOf, IsPrincipal, Minted, Admissible, ActiveFile, Advance, Latches, StepFits, Next, Enabled;
    var none: seq<Text> := [];
    assert none + [w.freshId] == [w.freshId];
    assert s.listed[w.Principal() := [w.freshId]] == map[w.Principal() := [w.freshId]];
  }

  lemma Receives(s: Host, w: Wish)
    requires s.uids == [w.uid] && w.Principal() in s.known && s.calls == []
    ensures StepsTo(s, Receive(0, w.tool, w.args, w.now), s.(calls := [w.Call(ToRead)]))
  {
    hide PrincipalOf, IsPrincipal, Minted, Admissible, ActiveFile, Advance, Latches, StepFits, Next, Enabled;
  }

  lemma Mints(s0: Host, w: Wish) returns (acts: seq<HostAction>)
    requires Ready(s0, w)
    ensures w.tool != [] && Serve(s0, acts) == Some(Granted(s0, w).(calls := [w.Call(ToRead)]))
  {
    hide CanStep, HostNext, PrincipalOf, IsPrincipal, Minted, Admissible, ActiveFile;
    var r, p := w.Grant(s0.gate.policy), w.Principal();
    assert Serve(s0, []) == Some(s0);
    Opens(s0, w);
    var s1 := s0.(uids := [w.uid], known := {p});
    acts := Go(s0, [], s0, OpenSession(w.uid), s1);
    Asks(s0, s1, w);
    var s2 := s1.(mints := [Asked(0, r)]);
    acts := Go(s0, acts, s1, AskGrant(0, w.tool, w.args, w.ttl, w.freshId, w.now), s2);
    Issues(s2, w);
    var s3 := s2.(gate := s0.gate.(grants := map[w.freshId := Minted(r)]), mints := [Issued(0, r)], mintOf := map[w.freshId := 0]);
    acts := Go(s0, acts, s2, IssueGrant(0), s3);
    Lists(s3, w);
    acts := Go(s0, acts, s3, ListGrant(0), Granted(s0, w));
    Receives(Granted(s0, w), w);
    acts := Go(s0, acts, Granted(s0, w), Receive(0, w.tool, w.args, w.now), Granted(s0, w).(calls := [w.Call(ToRead)]));
  }

  // ----- The two halt checks.

  /** Nothing is in the way of a halt check. */
  predicate Clear(s: Host, v: HostCall) {
    && s.calls == [v] && v.conn < |s.uids| && !s.sticky && s.gate.rt.Open() && s.gate.stage.NoKill?
    && s.gate.disk.Some? && ActiveFile(s.gate.disk.value)
  }

  function Checked(s: Host, v: HostCall): HostCall
    requires Clear(s, v)
  {
    v.(files := v.files + [s.gate.disk.value], stage := if v.files == [] then Vetting else ToEnter)
  }

  /** A step of a request that neither moves the gate nor latches. */
  predicate Local(s: Host, v: HostCall, step: CallStep, v': HostCall) {
    && StepFits(s, v, step) && GateStepOf(s, v, step).None? && !Latches(s, v, step) && !step.BeginGate?
    && Advance(s, v, step) == v'
  }

  lemma GoLocal(s0: Host, acts: seq<HostAction>, s: Host, v: HostCall, step: CallStep, v': HostCall) returns (more: seq<HostAction>)
    requires Serve(s0, acts) == Some(s) && s.calls == [v] && Local(s, v, step, v')
    ensures Serve(s0, more) == Some(s.(calls := [v']))
  {
    hide CanStep, HostNext, Advance, Latches, StepFits, GateStepOf, PrincipalOf, Serve;
    Handles(s, v, step);
    more := Go(s0, acts, s, Handle(0, step), s.(calls := [v']));
  }

  lemma Reads(s: Host, v: HostCall)
    requires Clear(s, v) && v.stage.ToRead?
    ensures Local(s, v, ReadHalt(s.gate.disk.value), v.(stage := HasRead, files := v.files + [s.gate.disk.value]))
  {
    hide PrincipalOf, Read;
  }

  lemma LooksAtLatch(s: Host, v: HostCall)
    requires Clear(s, v) && v.stage.HasRead?
    ensures Local(s, v, LookAtLatch, v.(stage := Unlatched))
  {
    hide PrincipalOf, Read;
  }

  lemma LooksAtKill(s: Host, v: HostCall)
    requires Clear(s, v) && v.stage.Unlatched?
    ensures Local(s, v, LookAtKill, v.(stage := Unkilled))
  {
    hide PrincipalOf, Read;
  }

  lemma JudgesActive(s: Host, v: HostCall)
    requires Clear(s, v) && v.stage.Unkilled? && v.files != [] && v.files[|v.files| - 1] == s.gate.disk.value
    ensures Local(s, v, JudgeHalt, v.(stage := if |v.files| == 1 then Vetting else ToEnter))
  {
    ReadersAgreeUnlessMissing(s.gate.disk.value);
    hide PrincipalOf, Read, ReadFailClosed;
  }

  lemma Clears(s0: Host, acts0: seq<HostAction>, s: Host, v: HostCall) returns (acts: seq<HostAction>)
    requires Serve(s0, acts0) == Some(s) && Clear(s, v) && v.stage.ToRead?
    ensures Serve(s0, acts) == Some(s.(calls := [Checked(s, v)]))
  {
    hide Local, Serve, ActiveFile;
    var file := s.gate.disk.value;
    var v1 := v.(stage := HasRead, files := v.files + [file]);
    var v2, v3 := v1.(stage := Unlatched), v1.(stage := Unkilled);
    var s1, s2, s3 := s.(calls := [v1]), s.(calls := [v2]), s.(calls := [v3]);
    Reads(s, v);
    acts := GoLocal(s0, acts0, s, v, ReadHalt(file), v1);
    LooksAtLatch(s1, v1);
    acts := GoLocal(s0, acts, s1, v1, LookAtLatch, v2);
    LooksAtKill(s2, v2);
    acts := GoLocal(s0, acts, s2, v2, LookAtKill, v3);
    JudgesActive(s3, v3);
    acts := GoLocal(s0, acts, s3, v3, JudgeHalt, Checked(s, v));
  }

  // ----- The grant is selected.

  /** The only grant there is is the one minted for this wish, and it is listed. */
  predicate HasGrant(s: Host, w: Wish) {
    && w.tool != [] && w.ttl > 0 && s.uids == [w.uid] && s.listed == map[w.Principal() := [w.freshId]]
    && s.gate.grants == map[w.freshId := Minted(w.Grant(s.gate.policy))]
  }

  lemma Vets(s: Host, w: Wish, v: HostCall)
    requires HasGrant(s, w) && v.conn == 0 && v.stage.Vetting?
    ensures Local(s, v, Vet(true, false), v.(stage := Sifting([w.freshId], Sifted([], []))))
  {
    hide PrincipalOf, Minted;
  }

  lemma SiftsOne(s: Host, v: HostCall, id: Text, found: Sifted, more: Sifted)
    requires v.conn < |s.uids| && v.stage == Sifting([id], found)
    requires Sift(found, Look(s.gate.grants, id), Ask(s.PrincipalAt(v.conn), v.tool, v.args)) == more
    ensures Local(s, v, SiftOne, v.(stage := Sifting([], more)))
  {
    hide PrincipalOf, Sift, Look, Next, Enabled;
    assert [id][1..] == [];
  }

  lemma Sifts(s: Host, w: Wish, v: HostCall)
    requires HasGrant(s, w) && v.(stage := Vetting, files := []) == w.Call(Vetting) && v.stage == Sifting([w.freshId], Sifted([], []))
    ensures Local(s, v, SiftOne, v.(stage := Sifting([], Sifted([Minted(w.Grant(s.gate.policy))], []))))
  {
    hide PrincipalOf, Minted, Sift, Choose, Local;
    var g := Minted(w.Grant(s.gate.policy));
    OnlyCandidate(s, w, g);
    assert v.tool == w.tool && v.args == w.args && v.conn == 0;
    assert Look(s.gate.grants, w.freshId) == Some(g);
    SiftsOne(s, v, w.freshId, Sifted([], []), Sifted([g], []));
  }

  lemma ChoosesOne(s: Host, v: HostCall, found: Sifted, id: Text)
    requires v.conn < |s.uids| && v.stage == Sifting([], found) && Choose(found, v.now) == One(id)
    ensures Local(s, v, ChooseGrant, v.(stage := HostRuns.Selected(Some(id))))
  {
    hide PrincipalOf, Choose, Next, Enabled;
  }

  lemma Chooses(s: Host, w: Wish, v: HostCall)
    requires HasGrant(s, w) && v.(stage := Vetting, files := []) == w.Call(Vetting)
    requires v.stage == Sifting([], Sifted([Minted(w.Grant(s.gate.policy))], []))
    ensures Local(s, v, ChooseGrant, v.(stage := HostRuns.Selected(Some(w.freshId))))
  {
    hide PrincipalOf, Minted, Choose, Sift, Local;
    var g := Minted(w.Grant(s.gate.policy));
    OnlyCandidate(s, w, g);
    assert v.now == w.now && v.conn == 0;
    ChoosesOne(s, v, Sifted([g], []), w.freshId);
  }

  lemma Selects(s0: Host, acts0: seq<HostAction>, s: Host, w: Wish, v: HostCall) returns (acts: seq<HostAction>)
    requires Serve(s0, acts0) == Some(s) && s.calls == [v] && v.(files := []) == w.Call(Vetting) && HasGrant(s, w)
    ensures Serve(s0, acts) == Some(s.(calls := [v.(stage := HostRuns.Selected(Some(w.freshId)))]))
  {
    hide Local, Serve, PrincipalOf;
    var g := Minted(w.Grant(s.gate.policy));
    var v1, v2 := v.(stage := Sifting([w.freshId], Sifted([], []))), v.(stage := Sifting([], Sifted([g], [])));
    Vets(s, w, v);
    acts := GoLocal(s0, acts0, s, v, Vet(true, false), v1);
    Sifts(s.(calls := [v1]), w, v1);
    acts := GoLocal(s0, acts, s.(calls := [v1]), v1, SiftOne, v2);
    Chooses(s.(calls := [v2]), w, v2);
    acts := GoLocal(s0, acts, s.(calls := [v2]), v2, ChooseGrant, v.(stage := HostRuns.Selected(Some(w.freshId))));
  }

  lemma FitsItsAsk(policy: PolicyStore, w: Wish)
    requires w.tool != [] && w.ttl > 0
    ensures var g := Minted(w.Grant(policy));
            Candidate(g, Ask(w.Principal(), w.tool, w.args)) && !g.Revoked() && !g.Expired(w.now) && g.approvalId == w.freshId
  {
    hide PrincipalOf, Canonical.Freeze, InvokeBinding;
  }

  lemma OneUnexpired(g: Record, now: Instant)
    requires !g.Expired(now)
    ensures Choose(Sifted([g], []), now) == One(g.approvalId)
  {
    hide Canonical.Freeze, BindingDigest;
    assert Unexpired([g][..0], now) == [];
    assert Unexpired([g], now) == [g];
  }

  lemma OnlyCandidate(s: Host, w: Wish, g: Record)
    requires w.tool != [] && w.ttl > 0 && g == Minted(w.Grant(s.gate.policy))
    ensures Sift(Sifted([], []), Some(g), Ask(w.Principal(), w.tool, w.args)) == Sifted([g], [])
    ensures Choose(Sifted([g], []), w.now) == One(w.freshId)
  {
    FitsItsAsk(s.gate.policy, w);
    OneUnexpired(g, w.now);
    hide PrincipalOf, Minted, Candidate, Choose;
  }

  // ----- The gate admits it.

  predicate Goes(g: Sys, ga: Action, g': Sys) { LeftToTheGate(ga) && Enabled(g, ga) && Next(g, ga) == g' }

  lemma GoGate(s0: Host, acts: seq<HostAction>, s: Host, ga: Action, g': Sys) returns (more: seq<HostAction>)
    requires Serve(s0, acts) == Some(s) && Goes(s.gate, ga, g')
    ensures Serve(s0, more) == Some(s.(gate := g'))
  {
    hide CanStep, HostNext, Next, Enabled, LeftToTheGate, PrincipalOf, Serve;
    MovesGate(s, ga);
    more := Go(s0, acts, s, GateStep(ga), s.(gate := g'));
  }

  /** The gate with one admission, open, its lock free. */
  predicate Alone(g: Sys, w: Wish, v: Invoke) {
    && g.invokes == [v] && v.q == w.Query() && g.rt.Open() && !g.rt.engaged && g.rt.epoch == 0 && g.stage.NoKill?
    && Admissible(g.policy, w.Query())
  }

  lemma Tickets(g: Sys, w: Wish)
    requires Alone(g, w, Started(w.Query()))
    ensures Goes(g, MintId(0), g.(invokes := [Ticketed(w.Query(), g.rt.nextAdmission + 1)], rt := Mint(g.rt).0))
  {
    hide PrincipalOf, Admissible;
  }

  lemma ReadsEpoch(g: Sys, w: Wish, id: nat)
    requires Alone(g, w, Ticketed(w.Query(), id))
    ensures Goes(g, ReadEpoch(0), g.(invokes := [Epoched(w.Query(), id, 0)]))
  {
    hide PrincipalOf, Admissible;
  }

  lemma LooksFirst(g: Sys, w: Wish, id: nat)
    requires Alone(g, w, Epoched(w.Query(), id, 0))
    ensures Goes(g, FirstLook(0), g.(invokes := [GateRuns.Checked(w.Query(), id, 0, 0)]))
  {
    hide PrincipalOf, Admissible, EarlyDeny;
    EarlyDenyIff(g.rt, g.policy, w.Query());
  }

  lemma TakesGrant(g: Sys, w: Wish, id: nat)
    requires Alone(g, w, GateRuns.Checked(w.Query(), id, 0, 0)) && w.tool != [] && w.ttl > 0
    requires g.grants == map[w.freshId := Minted(w.Grant(g.policy))]
    ensures Goes(g, TakeGrant(0), g.(invokes := [Drafted(w.Query(), id, 0, 0, Allow(None, None))],
                                     grants := ConsumeStep(g.grants, ConsumeOf(w.Query())).1))
  {
    FitsItsAsk(g.policy, w);
    ConsumeSpendsIff(g.grants, ConsumeOf(w.Query()));
    hide PrincipalOf, Admissible, ConsumeStep, BindingDigest, EarlyDeny;
  }

  lemma LooksAgain(g: Sys, w: Wish, id: nat)
    requires Alone(g, w, Drafted(w.Query(), id, 0, 0, Allow(None, None)))
    ensures Goes(g, LastLook(0), g.(invokes := [Decided(w.Query(), id, 0, Allow(None, None))], log := g.log + [Allowed(0)]))
  {
    hide PrincipalOf, Admissible;
  }

  /** An admission that the gate has allowed, with its ticket unspent. */
  function Admitted(g: Sys, w: Wish): Sys {
    g.(rt := Mint(g.rt).0, invokes := [Decided(w.Query(), g.rt.nextAdmission + 1, 0, Allow(None, None))],
       grants := ConsumeStep(g.grants, ConsumeOf(w.Query())).1, log := g.log + [Allowed(0)])
  }

  lemma Admits(s0: Host, acts0: seq<HostAction>, s: Host, w: Wish) returns (acts: seq<HostAction>)
    requires Serve(s0, acts0) == Some(s) && Alone(s.gate, w, Started(w.Query())) && w.tool != [] && w.ttl > 0
    requires s.gate.grants == map[w.freshId := Minted(w.Grant(s.gate.policy))]
    ensures Serve(s0, acts) == Some(s.(gate := Admitted(s.gate, w)))
  {
    hide Goes, Serve, PrincipalOf, Admissible, Minted, ConsumeStep;
    var q, g, id := w.Query(), s.gate, s.gate.rt.nextAdmission + 1;
    var g1 := g.(invokes := [Ticketed(q, id)], rt := Mint(g.rt).0);
    var g2, g3 := g1.(invokes := [Epoched(q, id, 0)]), g1.(invokes := [GateRuns.Checked(q, id, 0, 0)]);
    var g4 := g1.(invokes := [Drafted(q, id, 0, 0, Allow(None, None))], grants := ConsumeStep(g.grants, ConsumeOf(q)).1);
    Tickets(g, w);
    acts := GoGate(s0, acts0, s, MintId(0), g1);
    ReadsEpoch(g1, w, id);
    acts := GoGate(s0, acts, s.(gate := g1), ReadEpoch(0), g2);
    LooksFirst(g2, w, id);
    acts := GoGate(s0, acts, s.(gate := g2), FirstLook(0), g3);
    TakesGrant(g3, w, id);
    acts := GoGate(s0, acts, s.(gate := g3), TakeGrant(0), g4);
    LooksAgain(g4, w, id);
    acts := GoGate(s0, acts, s.(gate := g4), LastLook(0), Admitted(g, w));
  }

  // ----- The request begins at the gate, and comes back to it.

  lemma Begins(s0: Host, acts0: seq<HostAction>, s: Host, w: Wish, v: HostCall) returns (acts: seq<HostAction>)
    requires Serve(s0, acts0) == Some(s) && s.calls == [v] && s.uids == [w.uid] && s.gate.invokes == []
    requires v.(files := []) == w.Call(HostRuns.Selected(Some(w.freshId)))
    ensures Serve(s0, acts) == Some(s.(calls := [v.(stage := Deciding, invoke := Some(0))],
                                       gate := s.gate.(invokes := [Started(w.Query())]), owner := s.owner + [0]))
  {
    hide PrincipalOf, Serve, CanStep, HostNext;
    HandlesWithGate(s, v, BeginGate(w.Outcome()));
    acts := Go(s0, acts0, s, Handle(0, BeginGate(w.Outcome())),
               s.(calls := [v.(stage := Deciding, invoke := Some(0))],
                  gate := s.gate.(invokes := [Started(w.Query())]), owner := s.owner + [0]));
  }

  lemma Logs(s: Host, v: HostCall)
    requires s.calls == [v] && v.conn < |s.uids| && v.stage.Deciding? && v.invoke == Some(0)
    requires |s.gate.invokes| == 1 && s.gate.invokes[0].Decided? && s.gate.invokes[0].decision.Allow?
    ensures Local(s, v, AppendPreEntry(true), v.(stage := ToRead, preEntry := true))
  {
    hide PrincipalOf;
  }

  lemma Completes(s0: Host, acts0: seq<HostAction>, s: Host, v: HostCall) returns (acts: seq<HostAction>)
    requires Serve(s0, acts0) == Some(s) && s.calls == [v] && v.conn < |s.uids| && v.stage.ToEnter? && v.invoke == Some(0)
    requires |s.gate.invokes| == 1 && s.gate.invokes[0].Decided? && s.gate.invokes[0].decision.Allow?
    ensures Serve(s0, acts) == Some(s.(calls := [v.(stage := HostRuns.Completing)],
                                       gate := s.gate.(completions := s.gate.completions + [Begun(0)])))
  {
    hide PrincipalOf, Serve, CanStep, HostNext;
    HandlesWithGate(s, v, CompleteGate);
    acts := Go(s0, acts0, s, Handle(0, CompleteGate),
               s.(calls := [v.(stage := HostRuns.Completing)], gate := s.gate.(completions := s.gate.completions + [Begun(0)])));
  }

  // ----- The gate lets it in.

  /** One allowed admission and its one completion, open, the ticket unspent. */
  predicate Comes(g: Sys, c: Completion) {
    && |g.invokes| == 1 && g.invokes[0].Decided? && g.invokes[0].decision == Allow(None, None) && g.invokes[0].epoch == 0
    && g.completions == [c] && c.inv == 0 && g.rt.Open() && !g.rt.engaged && g.stage.NoKill? && g.invokes[0].id !in g.rt.spent
  }

  lemma PassesFence(g: Sys)
    requires Comes(g, Begun(0))
    ensures Goes(g, ReadFence(0), g.(completions := [FenceOpen(0)]))
  {}

  lemma PassesSpent(g: Sys)
    requires Comes(g, FenceOpen(0))
    ensures Goes(g, ReadSpent(0), g.(completions := [Unspent(0)]))
  {}

  lemma PassesObservers(g: Sys)
    requires Comes(g, Unspent(0))
    ensures Goes(g, Reobserve(0, Entry(None, None)), g.(completions := [Reobserved(0)]))
  {}

  function Claimed(g: Sys): Sys
    requires Comes(g, Reobserved(0))
  {
    g.(completions := [Permitted(0)], rt := g.rt.(spent := g.rt.spent + {g.invokes[0].id}), log := g.log + [Permit(0, 0)])
  }

  lemma Claims(g: Sys)
    requires Comes(g, Reobserved(0))
    ensures Goes(g, Claim(0), Claimed(g))
  {}

  lemma Enters(g: Sys)
    requires Comes(g, Reobserved(0))
    ensures var g' := Claimed(g); Goes(g', EnterTool(0), g'.(completions := [Entered(0)], log := g'.log + [ToolEntered(0, 0)]))
  {}

  lemma LetsIn(s0: Host, acts0: seq<HostAction>, s: Host) returns (acts: seq<HostAction>)
    requires Serve(s0, acts0) == Some(s) && Comes(s.gate, Begun(0))
    ensures Serve(s0, acts).Some? && Serve(s0, acts).value.gate.log == s.gate.log + [Permit(0, 0), ToolEntered(0, 0)]
  {
    hide Goes, Serve;
    var g := s.gate;
    var g1, g2, g3 := g.(completions := [FenceOpen(0)]), g.(completions := [Unspent(0)]), g.(completions := [Reobserved(0)]);
    PassesFence(g);
    acts := GoGate(s0, acts0, s, ReadFence(0), g1);
    PassesSpent(g1);
    acts := GoGate(s0, acts, s.(gate := g1), ReadSpent(0), g2);
    PassesObservers(g2);
    acts := GoGate(s0, acts, s.(gate := g2), Reobserve(0, Entry(None, None)), g3);
    Claims(g3);
    var g4 := Claimed(g3);
    acts := GoGate(s0, acts, s.(gate := g3), Claim(0), g4);
    Enters(g3);
    acts := GoGate(s0, acts, s.(gate := g4), EnterTool(0), g4.(completions := [Entered(0)], log := g4.log + [ToolEntered(0, 0)]));
  }

  /** A host that is ready for a wish has a run in which that wish's tool is entered. */
  lemma AWishIsGranted(s0: Host, w: Wish) returns (acts: seq<HostAction>)
    requires Ready(s0, w)
    ensures Serve(s0, acts).Some? && Serve(s0, acts).value.gate.log == [Allowed(0), Permit(0, 0), ToolEntered(0, 0)]
  {
    hide Serve, PrincipalOf, IsPrincipal, Minted, Token, Admissible, ConsumeStep, ActiveFile, IsApprovalId, BindingDigest;
    var file := s0.gate.disk.value;
    acts := Mints(s0, w);
    var v, s := w.Call(ToRead), Granted(s0, w).(calls := [w.Call(ToRead)]);
    acts := Clears(s0, acts, s, v);
    var v1 := v.(files := [file], stage := Vetting);
    var s1 := s.(calls := [v1]);
    assert Checked(s, v) == v1;
    acts := Selects(s0, acts, s1, w, v1);
    var v2 := v1.(stage := HostRuns.Selected(Some(w.freshId)));
    var s2 := s.(calls := [v2]);
    acts := Begins(s0, acts, s2, w, v2);
    var v3 := v2.(stage := Deciding, invoke := Some(0));
    var s3 := s2.(calls := [v3], gate := s2.gate.(invokes := [Started(w.Query())]), owner := [0]);
    assert s2.owner + [0] == [0];
    acts := Admits(s0, acts, s3, w);
    var s4 := s3.(gate := Admitted(s3.gate, w));
    Logs(s4, v3);
    var v5 := v3.(stage := ToRead, preEntry := true);
    acts := GoLocal(s0, acts, s4, v3, AppendPreEntry(true), v5);
    var s5 := s4.(calls := [v5]);
    acts := Clears(s0, acts, s5, v5);
    var v6 := v5.(files := [file, file], stage := ToEnter);
    var s6 := s5.(calls := [v6]);
    assert Checked(s5, v5) == v6;
    acts := Completes(s0, acts, s6, v6);
    var s7 := s6.(calls := [v6.(stage := HostRuns.Completing)], gate := s6.gate.(completions := [Begun(0)]));
    assert s6.gate.completions + [Begun(0)] == [Begun(0)];
    acts := LetsIn(s0, acts, s7);
  }

  /** There is such a host and such a wish: one tool whose schema takes no arguments, one connection, one minute. */
  lemma SomeHostIsReady(s: Host, w: Wish)
    requires w == Wish(0, [0x65], JObject([]), 60, [0x61], 0)
    requires var policy := PolicyStore(true, map[[0x65] := Spec(None, Some(Schema(true, Some(map[]), false, [])))], map[]);
             var file := HaltFile.Text(Render(HaltState(Active, true), ""));
             s == Host(Sys(policy, Rt(Active, true, 0, false, 0, {}), Some(file), map[], NoKill, [], [], []),
                       [], {}, map[], false, [], [], [], map[])
    ensures Ready(s, w)
  {
    hide BindingDigest;
    assert Decimal(0) == [0x30] && Decimal(1) == [0x31];
    assert w.Principal() == [0x75, 0x30, 0x2e, 0x63, 0x31];
    assert IsPrincipal(w.Principal());
    var none: set<Text> := {};
    assert Keys(w.args) == none;
    assert SchemaAccepts(w.args, s.gate.policy.allowedTools[w.tool].argsSchema.value);
  }
}
