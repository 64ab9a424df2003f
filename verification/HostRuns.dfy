/**
 The reference host on top of the gate: connections, minted grants, requests, the two
 readings of the halt file and the latched halt, interleaved one section at a time.
 */
module HostRuns {
  import opened Common
  import opened Halt
  import opened Json
  import opened Approval
  import opened Runtime
  import opened Evaluate
  import opened GateRuns
  import opened GateGrants
  import opened HostGrants

  /** Where a request stands; it passes the stages of a halt check, ToRead to ToMirror, twice. */
  datatype Stage =
    | ToRead
    | HasRead
    | Unlatched
    | Unkilled
    | ToMirror
    | Vetting
    | Sifting(todo: seq<Text>, found: Sifted)
    | Selected(id: Option<Text>)
    | Deciding
    | ToEnter
    | Completing
    | Answered

  datatype HostCall = HostCall(
    conn: nat,
    tool: Text,
    args: Args,
    now: Instant,
    stage: Stage,
    files: seq<HaltFile>,  // each reading of the halt file so far
    invoke: Option<nat>,   // the gate's admission for this request
    preEntry: bool)        // the line before the tool is in the log

  datatype MintCall =
    | Asked(conn: nat, r: IssueRequest)
    | Issued(conn: nat, r: IssueRequest)
    | Listed(conn: nat, r: IssueRequest)
    | NotMinted(conn: nat, r: IssueRequest)

  datatype Host = Host(
    gate: Sys,
    uids: seq<nat>,                 // the peer of each connection; connection ids count from one
    known: set<Text>,
    listed: map<Text, seq<Text>>,
    sticky: bool,
    calls: seq<HostCall>,
    mints: seq<MintCall>,
    owner: seq<nat>,                // which call each admission belongs to
    mintOf: map<Text, nat>)         // which mint each grant comes from
  {
    function PrincipalAt(conn: nat): Text
      requires conn < |uids|
    {
      PrincipalOf(uids[conn], conn + 1)
    }
  }

  /** One section of the handling of a request. Looking at the runtime's mode takes the lock a kill holds. */
  datatype CallStep =
    | ReadHalt(file: HaltFile)
    | LookAtLatch
    | LookAtKill
    | JudgeHalt
    | MirrorHalt(io: Io)
    | Vet(ok: bool, policyBroken: bool)
    | SiftOne
    | ChooseGrant
    | BeginGate(outcome: ParseOutcome)
    | AppendPreEntry(appended: bool)
    | CompleteGate

  datatype HostAction =
    | OpenSession(uid: nat)
    | CloseSession(conn: nat)
    | AskGrant(conn: nat, tool: Text, args: Args, ttl: int, freshId: Text, now: Instant)
    | IssueGrant(m: nat)
    | ListGrant(m: nat)
    | Receive(conn: nat, tool: Text, args: Args, now: Instant)
    | Handle(h: nat, step: CallStep)
    | Latch
    | GateStep(ga: Action)

  /** Grants are issued and requests admitted only through the host. */
  predicate LeftToTheGate(ga: Action) {
    && !ga.Begin? && !ga.Complete?
    && !(ga.GrantCall? && (ga.storeCall.Issue? || ga.storeCall.Consume?))
  }

  function GrantRequest(s: Host, conn: nat, tool: Text, args: Args, ttl: int, freshId: Text, now: Instant): IssueRequest
    requires conn < |s.uids|
  {
    IssueRequest([tool], ttl, args, None, freshId, now, Some(s.gate.policy.allowedTools.Keys), None, Some(s.PrincipalAt(conn)), None)
  }

  /** What the envelope the host builds may parse to. */
  predicate OutcomeFits(call: HostCall, principal: Text, id: Option<Text>, outcome: ParseOutcome) {
    outcome.Parsed? ==> outcome.envelope == Envelope(call.tool, call.args, None, id, principal, None, outcome.envelope.prose)
  }

  function RequestOf(call: HostCall, principal: Text, outcome: ParseOutcome): Request {
    Request(Some(call.now), outcome, Some(principal), None, None)
  }

  function LastSeen(call: HostCall): Observed
    requires call.files != []
  {
    ReadFailClosed(call.files[|call.files| - 1]).1
  }

  /** A halt check that lets the request through. */
  function Pass(call: HostCall): HostCall {
    call.(stage := if |call.files| == 1 then Vetting else ToEnter)
  }

  /** What the reading of the halt file and the runtime's suspend lead to, and whether they latch the halt. */
  function Judge(s: Host, call: HostCall): (Stage, bool)
    requires call.files != []
  {
    match LastSeen(call)
    case SawActive => (if s.gate.rt.mode.Suspended? then ToMirror else Pass(call).stage, false)
    case SawSuspended => (if s.gate.rt.mode.Suspended? then Answered else ToMirror, false)
    case _ => (Answered, true)
  }

  predicate StepFits(s: Host, call: HostCall, step: CallStep) {
    && call.conn < |s.uids|
    && match step
       case ReadHalt(file) => call.stage.ToRead? && (s.gate.disk.Some? ==> file == s.gate.disk.value)
       case LookAtLatch => call.stage.HasRead?
       case LookAtKill => call.stage.Unlatched? && s.gate.stage.NoKill?
       case JudgeHalt =>
         && call.stage.Unkilled? && call.files != []
         && (LastSeen(call).SawActive? || LastSeen(call).SawSuspended? ==> s.gate.stage.NoKill?)
       case MirrorHalt(_) => call.stage.ToMirror? && call.files != []
       case Vet(_, _) => call.stage.Vetting?
       case SiftOne => call.stage.Sifting? && call.stage.todo != []
       case ChooseGrant => call.stage.Sifting? && call.stage.todo == []
       case BeginGate(outcome) => call.stage.Selected? && OutcomeFits(call, s.PrincipalAt(call.conn), call.stage.id, outcome)
       case AppendPreEntry(_) =>
         call.stage.Deciding? && call.invoke.Some? && call.invoke.value < |s.gate.invokes| && s.gate.invokes[call.invoke.value].Decided?
       case CompleteGate => call.stage.ToEnter? && call.invoke.Some?
  }

  /** The request after one of its steps. */
  function Advance(s: Host, call: HostCall, step: CallStep): HostCall
    requires StepFits(s, call, step)
  {
    match step
    case ReadHalt(file) => call.(stage := HasRead, files := call.files + [file])
    case LookAtLatch => call.(stage := if s.sticky then Answered else Unlatched)
    case LookAtKill => call.(stage := if s.gate.rt.mode.Killed? then Answered else Unkilled)
    case JudgeHalt => call.(stage := Judge(s, call).0)
    case MirrorHalt(_) => if LastSeen(call).SawActive? then Pass(call) else call.(stage := Answered)
    case Vet(ok, _) =>
      var p := s.PrincipalAt(call.conn);
      call.(stage := if ok then Sifting(if p in s.listed then s.listed[p] else [], Sifted([], [])) else Answered)
    case SiftOne =>
      var ask := Ask(s.PrincipalAt(call.conn), call.tool, call.args);
      call.(stage := Sifting(call.stage.todo[1..], Sift(call.stage.found, Look(s.gate.grants, call.stage.todo[0]), ask)))
    case ChooseGrant =>
      call.(stage := match Choose(call.stage.found, call.now)
                     case One(id) => Selected(Some(id))
                     case ExpiredOnly(id) => Selected(Some(id))
                     case NoGrant => Selected(None)
                     case _ => Answered)
    case BeginGate(_) => call.(stage := Deciding, invoke := Some(|s.gate.invokes|))
    case AppendPreEntry(appended) =>
      if s.gate.invokes[call.invoke.value].decision.Deny? || !appended then call.(stage := Answered)
      else call.(stage := ToRead, preEntry := true)
    case CompleteGate => call.(stage := Completing)
  }

  /**
   A halted file, a changed policy and a failed append latch the halt. The kill of the runtime that goes
   with it is left to the gate's own kill steps, which may come at any time.
   */
  predicate Latches(s: Host, call: HostCall, step: CallStep)
    requires StepFits(s, call, step)
  {
    match step
    case JudgeHalt => Judge(s, call).1
    case Vet(ok, policyBroken) => !ok && policyBroken
    case AppendPreEntry(appended) => s.gate.invokes[call.invoke.value].decision.Allow? && !appended
    case _ => false
  }

  /** The gate's step inside a step of a request, if there is one. */
  function GateStepOf(s: Host, call: HostCall, step: CallStep): Option<Action>
    requires StepFits(s, call, step)
  {
    match step
    case MirrorHalt(io) =>
      Some(OtherCall(if LastSeen(call).SawActive? then ResumeCall(Some(Active), io) else SuspendCall(Some(Suspended), io)))
    case BeginGate(outcome) => Some(Begin(RequestOf(call, s.PrincipalAt(call.conn), outcome)))
    case CompleteGate => Some(Complete(call.invoke.value))
    case _ => None
  }

  predicate StageFits(s: Host, a: HostAction) {
    match a
    case CloseSession(conn) => conn < |s.uids|
    case AskGrant(conn, _, _, _, _, _) => conn < |s.uids|
    case IssueGrant(m) => m < |s.mints| && s.mints[m].Asked?
    case ListGrant(m) => m < |s.mints| && s.mints[m].Issued? && s.mints[m].conn < |s.uids|
    case Receive(conn, _, _, _) => conn < |s.uids|
    case Handle(h, step) => h < |s.calls| && StepFits(s, s.calls[h], step)
    case GateStep(ga) => LeftToTheGate(ga)
    case _ => true
  }

  function GateActionOf(s: Host, a: HostAction): Option<Action>
    requires StageFits(s, a)
  {
    match a
    case IssueGrant(m) => Some(GrantCall(Issue(s.mints[m].r)))
    case Handle(h, step) => GateStepOf(s, s.calls[h], step)
    case GateStep(ga) => Some(ga)
    case _ => None
  }

  predicate CanStep(s: Host, a: HostAction) {
    StageFits(s, a) && (GateActionOf(s, a).Some? ==> Enabled(s.gate, GateActionOf(s, a).value))
  }

  /** The host's own fields after a step, the gate left as it was. */
  function HostPart(s: Host, a: HostAction): Host
    requires StageFits(s, a)
  {
    match a
    case OpenSession(uid) =>
      var principal := PrincipalOf(uid, |s.uids| + 1);
      s.(uids := s.uids + [uid], known := if IsPrincipal(principal) then s.known + {principal} else s.known)
    case CloseSession(conn) => s.(known := s.known - {s.PrincipalAt(conn)}, listed := s.listed - {s.PrincipalAt(conn)})
    case AskGrant(conn, tool, args, ttl, freshId, now) =>
      if s.PrincipalAt(conn) in s.known
      then s.(mints := s.mints + [Asked(conn, GrantRequest(s, conn, tool, args, ttl, freshId, now))]) else s
    case IssueGrant(m) =>
      var r := s.mints[m].r;
      if IssueAccepted(s.gate.grants, r)
      then s.(mints := s.mints[m := Issued(s.mints[m].conn, r)], mintOf := s.mintOf[Token(r) := m])
      else s.(mints := s.mints[m := NotMinted(s.mints[m].conn, r)])
    case ListGrant(m) =>
      var p := s.PrincipalAt(s.mints[m].conn);
      s.(mints := s.mints[m := Listed(s.mints[m].conn, s.mints[m].r)],
         listed := s.listed[p := (if p in s.listed then s.listed[p] else []) + [Token(s.mints[m].r)]])
    case Receive(conn, tool, args, now) =>
      var stage := if s.PrincipalAt(conn) in s.known then ToRead else Answered;
      s.(calls := s.calls + [HostCall(conn, tool, args, now, stage, [], None, false)])
    case Handle(h, step) =>
      s.(calls := s.calls[h := Advance(s, s.calls[h], step)],
         sticky := s.sticky || Latches(s, s.calls[h], step),
         owner := if step.BeginGate? then s.owner + [h] else s.owner)
    case Latch => s.(sticky := true)
    case GateStep(_) => s
  }

  function GatePart(s: Host, a: HostAction): Sys
    requires CanStep(s, a)
  {
    if GateActionOf(s, a).Some? then Next(s.gate, GateActionOf(s, a).value) else s.gate
  }

  function HostNext(s: Host, a: HostAction): Host
    requires CanStep(s, a)
  {
    HostPart(s, a).(gate := GatePart(s, a))
  }

  predicate SaysSuspended(f: HaltFile) { f.Text? && Read(f) == HaltState(Suspended, true) }

  /** Where each look of a halt check sends the request, by the last reading and the runtime. */
  lemma HaltCheckMeans(s: Host, v: HostCall, step: CallStep)
    requires StepFits(s, v, step)
    ensures step.ReadHalt? ==> Advance(s, v, step) == v.(stage := HasRead, files := v.files + [step.file])
    ensures step.LookAtLatch? ==> Advance(s, v, step) == v.(stage := if s.sticky then Answered else Unlatched)
    ensures step.LookAtKill? ==> Advance(s, v, step) == v.(stage := if s.gate.rt.mode.Killed? then Answered else Unkilled)
    ensures step.JudgeHalt? ==>
              var f, suspended := v.files[|v.files| - 1], s.gate.rt.mode.Suspended?;
              var pass := if |v.files| == 1 then Vetting else ToEnter;
              Advance(s, v, step) == v.(stage := if ActiveFile(f) then (if suspended then ToMirror else pass)
                                                 else if SaysSuspended(f) && !suspended then ToMirror else Answered)
    ensures step.MirrorHalt? ==>
              Advance(s, v, step) == v.(stage := if !ActiveFile(v.files[|v.files| - 1]) then Answered
                                                 else if |v.files| == 1 then Vetting else ToEnter)
  {
    if v.files != [] {
      ReadersAgreeUnlessMissing(v.files[|v.files| - 1]);
    }
    hide Read, ReadFailClosed, PrincipalOf, Choose, Sift, OutcomeFits;
  }

  /** Where the other sections send the request: on to the gate only with a grant, and on to the tool only past the logged line. */
  lemma RequestStepsMean(s: Host, v: HostCall, step: CallStep)
    requires StepFits(s, v, step)
    ensures step.Vet? ==>
              var p := s.PrincipalAt(v.conn);
              Advance(s, v, step) ==
                v.(stage := if step.ok then Sifting(if p in s.listed then s.listed[p] else [], Sifted([], [])) else Answered)
    ensures step.ChooseGrant? ==>
              Advance(s, v, step) ==
                v.(stage := match Choose(v.stage.found, v.now)
                            case Ambiguous => Answered
                            case RevokedOnly(_) => Answered
                            case NoGrant => Selected(None)
                            case One(id) => Selected(Some(id))
                            case ExpiredOnly(id) => Selected(Some(id)))
    ensures step.BeginGate? ==>
              && Advance(s, v, step) == v.(stage := Deciding, invoke := Some(|s.gate.invokes|))
              && GateStepOf(s, v, step) == Some(Begin(Request(Some(v.now), step.outcome, Some(s.PrincipalAt(v.conn)), None, None)))
    ensures step.AppendPreEntry? ==>
              var allowed := s.gate.invokes[v.invoke.value].decision.Allow?;
              Advance(s, v, step) == if allowed && step.appended then v.(stage := ToRead, preEntry := true) else v.(stage := Answered)
    ensures step.CompleteGate? ==>
              Advance(s, v, step) == v.(stage := Completing) && GateStepOf(s, v, step) == Some(Complete(v.invoke.value))
  {
    hide Read, ReadFailClosed, PrincipalOf, Choose, Sift, OutcomeFits;
  }

  /** What the host's own calls do: who becomes known or forgotten, what is asked of the store, and what is listed. */
  lemma HostCallsMean(s: Host, a: HostAction)
    requires CanStep(s, a)
    ensures a.OpenSession? ==>
              var p := PrincipalOf(a.uid, |s.uids| + 1);
              HostNext(s, a) == s.(uids := s.uids + [a.uid], known := if IsPrincipal(p) then s.known + {p} else s.known)
    ensures a.CloseSession? ==>
              var p := s.PrincipalAt(a.conn); HostNext(s, a) == s.(known := s.known - {p}, listed := s.listed - {p})
    ensures a.AskGrant? ==>
              HostNext(s, a) ==
                if s.PrincipalAt(a.conn) !in s.known then s
                else s.(mints := s.mints + [Asked(a.conn,
                          IssueRequest([a.tool], a.ttl, a.args, None, a.freshId, a.now, Some(s.gate.policy.allowedTools.Keys), None,
                                       Some(s.PrincipalAt(a.conn)), None))])
    ensures a.IssueGrant? ==>
              && (IssueAccepted(s.gate.grants, s.mints[a.m].r) <==> HostNext(s, a).mints[a.m].Issued?)
              && (HostNext(s, a).mints[a.m].Issued? || HostNext(s, a).mints[a.m].NotMinted?)
    ensures a.ListGrant? ==>
              var p := s.PrincipalAt(s.mints[a.m].conn);
              && p in HostNext(s, a).listed && HostNext(s, a).listed - {p} == s.listed - {p}
              && HostNext(s, a).listed[p] == (if p in s.listed then s.listed[p] else []) + [Token(s.mints[a.m].r)]
    ensures a.Receive? ==>
              HostNext(s, a) ==
                s.(calls := s.calls + [HostCall(a.conn, a.tool, a.args, a.now,
                                                if s.PrincipalAt(a.conn) in s.known then ToRead else Answered, [], None, false)])
    ensures a.Latch? ==> HostNext(s, a) == s.(sticky := true)
  {
    hide Next, Enabled, Advance, Latches, PrincipalOf, IssueAccepted, IsPrincipal, StepFits, GateStepOf;
  }

  /** Exactly which steps latch the halt. */
  lemma LatchedIff(s: Host, a: HostAction)
    requires CanStep(s, a)
    ensures HostNext(s, a).sticky <==>
              || s.sticky || a.Latch?
              || (a.Handle? && a.step.JudgeHalt?
                  && var f := s.calls[a.h].files[|s.calls[a.h].files| - 1];
                     !ActiveFile(f) && !SaysSuspended(f))
              || (a.Handle? && a.step.Vet? && !a.step.ok && a.step.policyBroken)
              || (a.Handle? && a.step.AppendPreEntry? && !a.step.appended
                  && s.gate.invokes[s.calls[a.h].invoke.value].decision.Allow?)
  {
    if a.Handle? && a.step.JudgeHalt? {
      ReadersAgreeUnlessMissing(s.calls[a.h].files[|s.calls[a.h].files| - 1]);
    }
    hide Next, Enabled, Read, ReadFailClosed, PrincipalOf, Choose, Sift, OutcomeFits, IssueAccepted;
  }

  /**
   The mirror of a reading of an active file takes a suspended runtime to active exactly when its write succeeds on a
   file that still reads active; the mirror of a suspended one leaves the runtime suspended where the file still says so.
   */
  lemma MirrorMoves(s: Host, h: nat, io: Io)
    requires CanStep(s, Handle(h, MirrorHalt(io))) && s.gate.disk.Some?
    ensures var rt, file := s.gate.rt, s.gate.disk.value;
            var seen := s.calls[h].files[|s.calls[h].files| - 1];
            var rt' := HostNext(s, Handle(h, MirrorHalt(io))).gate.rt;
            && (ActiveFile(seen) && rt.mode.Suspended? ==> (rt'.mode.Active? <==> io.fault.NoFault? && ActiveFile(file)))
            && (ActiveFile(seen) && !rt.mode.Suspended? ==> rt' == rt)
            && (!ActiveFile(seen) && !rt.mode.Killed? && SaysSuspended(file) ==> rt'.mode.Suspended?)
            && (rt.mode.Killed? ==> rt' == rt)
  {
    ReadersAgreeUnlessMissing(s.calls[h].files[|s.calls[h].files| - 1]);
    MirrorCall(s.gate.rt, s.gate.disk.value, io);
    hide Read, ReadFailClosed, Resume, Suspend, Advance, PrincipalOf;
  }

  lemma MirrorCall(rt: Rt, file: HaltFile, io: Io)
    ensures var up := Resume(rt, Some(file), Some(Active), io).0;
            && (rt.mode.Suspended? ==> (up.mode.Active? <==> io.fault.NoFault? && ActiveFile(file)))
            && (!rt.mode.Suspended? ==> up == rt)
    ensures var down := Suspend(rt, Some(file), Some(Suspended), io).0;
            && (!rt.mode.Killed? && SaysSuspended(file) ==> down.mode.Suspended?)
            && (rt.mode.Killed? ==> down == rt)
  {}

  predicate HostInitial(s: Host) {
    && Initial(s.gate) && s.gate.grants == map[]
    && s.uids == [] && s.known == {} && s.listed == map[] && !s.sticky
    && s.calls == [] && s.mints == [] && s.owner == [] && s.mintOf == map[]
  }

  function Serve(s: Host, acts: seq<HostAction>): Option<Host>
    decreases |acts|
  {
    if acts == [] then Some(s)
    else if !CanStep(s, acts[0]) then None
    else Serve(HostNext(s, acts[0]), acts[1..])
  }

  // ----- The invariant.

  predicate FirstRound(call: HostCall) { call.invoke.None? && !call.preEntry }

  predicate SecondRound(call: HostCall) { call.invoke.Some? && call.preEntry && 1 <= |call.files| && ActiveFile(call.files[0]) }

  predicate InHaltCheck(call: HostCall) {
    (FirstRound(call) && |call.files| == 1) || (SecondRound(call) && |call.files| == 2)
  }

  predicate StageInv(call: HostCall) {
    match call.stage
    case ToRead => (FirstRound(call) && call.files == []) || (SecondRound(call) && |call.files| == 1)
    case HasRead => InHaltCheck(call)
    case Unlatched => InHaltCheck(call)
    case Unkilled => InHaltCheck(call)
    case ToMirror => InHaltCheck(call)
    case Vetting => FirstRound(call) && |call.files| == 1 && ActiveFile(call.files[0])
    case Sifting(_, _) => FirstRound(call) && |call.files| == 1 && ActiveFile(call.files[0])
    case Selected(_) => FirstRound(call) && |call.files| == 1 && ActiveFile(call.files[0])
    case Deciding => call.invoke.Some? && !call.preEntry && |call.files| == 1 && ActiveFile(call.files[0])
    case ToEnter => SecondRound(call) && |call.files| == 2 && ActiveFile(call.files[1])
    case Completing => SecondRound(call) && |call.files| == 2 && ActiveFile(call.files[1])
    case Answered => true
  }

  predicate CallInv(call: HostCall, h: nat, uids: seq<nat>, owner: seq<nat>) {
    && call.conn < |uids|
    && (call.invoke.Some? ==> call.invoke.value < |owner| && owner[call.invoke.value] == h)
    && StageInv(call)
  }

  predicate QueryFits(q: Request, call: HostCall, uids: seq<nat>) {
    && call.conn < |uids|
    && q.now == Some(call.now)
    && q.principal == Some(PrincipalOf(uids[call.conn], call.conn + 1))
    && (q.parsed.Parsed? ==>
          q.parsed.envelope.toolName == call.tool && q.parsed.envelope.args == call.args && q.parsed.envelope.capabilityToken.None?)
  }

  /** Admission `i` is the one its owner asked for. */
  predicate OwnerInv(i: nat, q: Request, h: nat, calls: seq<HostCall>, uids: seq<nat>) {
    h < |calls| && calls[h].invoke == Some(i) && QueryFits(q, calls[h], uids)
  }

  predicate Owners(s: Host) {
    && |s.owner| == |s.gate.invokes|
    && (forall h | 0 <= h < |s.calls| :: CallInv(s.calls[h], h, s.uids, s.owner))
    && (forall i | 0 <= i < |s.owner| :: OwnerInv(i, s.gate.invokes[i].q, s.owner[i], s.calls, s.uids))
  }

  /** A completion of admission `i` was begun by the call it belongs to. */
  predicate BegunBy(i: nat, owner: seq<nat>, calls: seq<HostCall>) {
    i < |owner| && owner[i] < |calls| && calls[owner[i]].stage.Completing?
  }

  predicate Completions(s: Host) {
    forall c | 0 <= c < |s.gate.completions| :: BegunBy(s.gate.completions[c].inv, s.owner, s.calls)
  }

  predicate MintFits(m: MintCall, uids: seq<nat>) {
    && m.conn < |uids|
    && m.r.principal == Some(PrincipalOf(uids[m.conn], m.conn + 1))
    && |m.r.tools| == 1
  }

  /** A grant is the one its mint was accepted for, with the terms it was minted with. */
  predicate GrantFits(id: Text, r: Record, m: MintCall) {
    && Minting(m)
    && |m.r.tools| == 1 && m.r.tools[0] != []
    && Token(m.r) == id && SameGrant(r, Minted(m.r))
  }

  predicate Mints(s: Host) {
    && (forall m | 0 <= m < |s.mints| :: MintFits(s.mints[m], s.uids))
    && s.mintOf.Keys == s.gate.grants.Keys
    && (forall id | id in s.mintOf :: s.mintOf[id] < |s.mints| && GrantFits(id, s.gate.grants[id], s.mints[s.mintOf[id]]))
  }

  predicate HostInv(s: Host) {
    Inv(s.gate) && AllFit(s.gate) && Owners(s) && Completions(s) && Mints(s)
  }

  // ----- What every step keeps.

  lemma GateStays(s: Host, a: HostAction)
    requires HostInv(s) && CanStep(s, a)
    ensures Inv(GatePart(s, a)) && AllFit(GatePart(s, a))
  {
    hide Inv, AllFit, Next, Enabled, Owners, Completions, Mints, StageFits, GateActionOf;
    if GateActionOf(s, a).Some? {
      StepKeepsInv(s.gate, GateActionOf(s, a).value);
      AllFitStep(s.gate, GateActionOf(s, a).value);
    }
  }

  predicate Begins(a: HostAction) { a.Handle? && a.step.BeginGate? }

  predicate Completes(a: HostAction) { a.Handle? && a.step.CompleteGate? }

  /** How the gate's admissions and completions grow in a host step. */
  lemma GateShapes(s: Host, a: HostAction)
    requires CanStep(s, a)
    ensures var g := GatePart(s, a);
            && |g.invokes| == |s.gate.invokes| + (if Begins(a) then 1 else 0)
            && (forall i | 0 <= i < |s.gate.invokes| :: g.invokes[i].q == s.gate.invokes[i].q)
            && (Begins(a) ==> g.invokes[|s.gate.invokes|].q == RequestOf(s.calls[a.h], s.PrincipalAt(s.calls[a.h].conn), a.step.outcome))
            && |g.completions| == |s.gate.completions| + (if Completes(a) then 1 else 0)
            && (forall c | 0 <= c < |s.gate.completions| :: g.completions[c].inv == s.gate.completions[c].inv)
            && (Completes(a) ==> g.completions[|s.gate.completions|].inv == s.calls[a.h].invoke.value)
  {
    hide Next, Enabled, Inv, OutcomeFits, LastSeen;
    if GateActionOf(s, a).Some? {
      StepShapes(s.gate, GateActionOf(s, a).value);
    }
  }

  lemma AdvanceFits(s: Host, v: HostCall, step: CallStep)
    requires StepFits(s, v, step) && StageInv(v)
    ensures var v' := Advance(s, v, step);
            && v'.(stage := v.stage, files := v.files, invoke := v.invoke, preEntry := v.preEntry) == v
            && v'.invoke == (if step.BeginGate? then Some(|s.gate.invokes|) else v.invoke)
            && (step.BeginGate? ==> v.invoke.None?)
            && !v.stage.Completing? && (v'.stage.Completing? <==> step.CompleteGate?)
            && StageInv(v')
  {
    hide Choose, Sift, PrincipalOf, OutcomeFits;
    if step.JudgeHalt? || step.MirrorHalt? {
      ReadersAgreeUnlessMissing(v.files[|v.files| - 1]);
    }
  }

  /** What becomes of call `h` in a step. */
  predicate CallMoves(s: Host, a: HostAction, h: nat, v: HostCall, v': HostCall) {
    if a.Handle? && a.h == h then StepFits(s, v, a.step) && v' == Advance(s, v, a.step) else v' == v
  }

  lemma CallsStep(s: Host, a: HostAction)
    requires StageFits(s, a)
    ensures var s' := HostPart(s, a);
            && |s'.calls| == |s.calls| + (if a.Receive? then 1 else 0) && s.uids <= s'.uids
            && (forall h | 0 <= h < |s.calls| :: CallMoves(s, a, h, s.calls[h], s'.calls[h]))
            && (a.Receive? ==> CallInv(s'.calls[|s.calls|], |s.calls|, s'.uids, s'.owner))
            && s'.owner == if Begins(a) then s.owner + [a.h] else s.owner
  {
    hide Advance, Latches, IssueAccepted, PrincipalOf, IsPrincipal, StepFits;
  }

  lemma OwnersStep(s: Host, a: HostAction)
    requires HostInv(s) && CanStep(s, a)
    ensures Owners(HostNext(s, a)) && Completions(HostNext(s, a))
  {
    var s' := HostNext(s, a);
    GateShapes(s, a);
    CallsStep(s, a);
    if Begins(a) { NewOwner(s, a, s'); }
    if Completes(a) { NewBegun(s, a, s'); }
    hide Inv, AllFit, Owners, Completions, Mints, HostPart, GatePart, CanStep, StageFits, CallMoves, CallInv, OwnerInv, BegunBy;
    OwnersFrom(s, a, s');
  }

  lemma OwnersFrom(s: Host, a: HostAction, s': Host)
    requires Owners(s) && Completions(s)
    requires |s'.calls| == |s.calls| + (if a.Receive? then 1 else 0) && s.uids <= s'.uids
    requires forall h | 0 <= h < |s.calls| :: CallMoves(s, a, h, s.calls[h], s'.calls[h])
    requires a.Receive? ==> CallInv(s'.calls[|s.calls|], |s.calls|, s'.uids, s'.owner)
    requires s'.owner == if Begins(a) then s.owner + [a.h] else s.owner
    requires |s'.gate.invokes| == |s.gate.invokes| + (if Begins(a) then 1 else 0)
    requires forall i | 0 <= i < |s.gate.invokes| :: s'.gate.invokes[i].q == s.gate.invokes[i].q
    requires Begins(a) ==> OwnerInv(|s.owner|, s'.gate.invokes[|s.owner|].q, a.h, s'.calls, s'.uids)
    requires |s'.gate.completions| == |s.gate.completions| + (if Completes(a) then 1 else 0)
    requires forall c | 0 <= c < |s.gate.completions| :: s'.gate.completions[c].inv == s.gate.completions[c].inv
    requires Completes(a) ==> BegunBy(s'.gate.completions[|s.gate.completions|].inv, s'.owner, s'.calls)
    ensures Owners(s') && Completions(s')
  {
    hide CallMoves, CallInv, OwnerInv, BegunBy;
    forall h | 0 <= h < |s'.calls| ensures CallInv(s'.calls[h], h, s'.uids, s'.owner) {
      if h < |s.calls| {
        CallKept(s, a, h, s.calls[h], s'.calls[h], s'.uids, s'.owner);
      }
    }
    forall i | 0 <= i < |s'.owner| ensures OwnerInv(i, s'.gate.invokes[i].q, s'.owner[i], s'.calls, s'.uids) {
      if i < |s.owner| {
        OwnerKept(s, a, i, s');
      }
    }
    forall c | 0 <= c < |s'.gate.completions| ensures BegunBy(s'.gate.completions[c].inv, s'.owner, s'.calls) {
      if c < |s.gate.completions| {
        BegunKept(s, a, c, s');
      }
    }
  }

  lemma CallKept(s: Host, a: HostAction, h: nat, v: HostCall, v': HostCall, uids: seq<nat>, owner: seq<nat>)
    requires CallInv(v, h, s.uids, s.owner) && CallMoves(s, a, h, v, v')
    requires s.uids <= uids && owner == (if Begins(a) then s.owner + [a.h] else s.owner) && |s.owner| == |s.gate.invokes|
    ensures CallInv(v', h, uids, owner)
  {
    hide StageInv, Advance, StepFits;
    if a.Handle? && a.h == h {
      AdvanceFits(s, v, a.step);
    }
  }

  lemma OwnerKept(s: Host, a: HostAction, i: nat, s': Host)
    requires Owners(s) && i < |s.owner| <= |s'.owner| && s'.owner[i] == s.owner[i] && s.uids <= s'.uids && |s.calls| <= |s'.calls|
    requires i < |s'.gate.invokes| && s'.gate.invokes[i].q == s.gate.invokes[i].q
    requires forall h | 0 <= h < |s.calls| :: CallMoves(s, a, h, s.calls[h], s'.calls[h])
    ensures OwnerInv(i, s'.gate.invokes[i].q, s'.owner[i], s'.calls, s'.uids)
  {
    var h := s.owner[i];
    assert OwnerInv(i, s.gate.invokes[i].q, h, s.calls, s.uids);
    assert CallInv(s.calls[h], h, s.uids, s.owner) && CallMoves(s, a, h, s.calls[h], s'.calls[h]);
    hide StageInv, Advance, StepFits, Owners, PrincipalOf;
    if a.Handle? && a.h == h {
      AdvanceFits(s, s.calls[h], a.step);
    }
  }

  lemma NewOwner(s: Host, a: HostAction, s': Host)
    requires Owners(s) && CanStep(s, a) && s' == HostNext(s, a) && Begins(a)
    ensures var i := |s.owner|;
            i < |s'.owner| && i < |s'.gate.invokes| && OwnerInv(i, s'.gate.invokes[i].q, s'.owner[i], s'.calls, s'.uids)
  {
    GateShapes(s, a);
    hide StageInv, GatePart, PrincipalOf, Enabled, Next, Owners, CallInv;
  }

  lemma BegunKept(s: Host, a: HostAction, c: nat, s': Host)
    requires Owners(s) && Completions(s) && s.owner <= s'.owner && |s.calls| <= |s'.calls|
    requires c < |s.gate.completions| && c < |s'.gate.completions| && s'.gate.completions[c].inv == s.gate.completions[c].inv
    requires forall h | 0 <= h < |s.calls| :: CallMoves(s, a, h, s.calls[h], s'.calls[h])
    ensures BegunBy(s'.gate.completions[c].inv, s'.owner, s'.calls)
  {
    var i := s.gate.completions[c].inv;
    assert BegunBy(i, s.owner, s.calls);
    var h := s.owner[i];
    assert CallInv(s.calls[h], h, s.uids, s.owner) && CallMoves(s, a, h, s.calls[h], s'.calls[h]);
    hide StageInv, Advance, StepFits, Owners;
    if a.Handle? && a.h == h {
      AdvanceFits(s, s.calls[h], a.step);
    }
  }

  lemma NewBegun(s: Host, a: HostAction, s': Host)
    requires Owners(s) && CanStep(s, a) && s' == HostNext(s, a) && Completes(a)
    ensures var c := |s.gate.completions|; c < |s'.gate.completions| && BegunBy(s'.gate.completions[c].inv, s'.owner, s'.calls)
  {
    GateShapes(s, a);
    assert CallInv(s.calls[a.h], a.h, s.uids, s.owner);
    hide StageInv, GatePart, Owners, Enabled, Next;
  }

  lemma MintsStep(s: Host, a: HostAction)
    requires HostInv(s) && CanStep(s, a)
    ensures Mints(HostNext(s, a))
  {
    var s' := HostNext(s, a);
    GrantsKept(s, a);
    MintCallsStep(s, a);
    if NewGrant(s, a).Some? {
      NewGrantFits(s, a, s');
    }
    hide Inv, AllFit, Owners, Completions, Mints, GatePart, HostPart, CanStep, StageFits, SameGrant, MintFits,
         Minting, GrantFits, IssueAccepted, NewGrant;
    MintsFrom(s, s', NewGrant(s, a), if a.IssueGrant? then a.m else 0);
  }

  lemma MintsFrom(s: Host, s': Host, minted: Option<Text>, m0: nat)
    requires Mints(s) && |s.mints| <= |s'.mints| && forall m | 0 <= m < |s'.mints| :: MintFits(s'.mints[m], s'.uids)
    requires forall m | 0 <= m < |s.mints| :: s'.mints[m].r == s.mints[m].r && (Minting(s.mints[m]) ==> Minting(s'.mints[m]))
    requires s'.mintOf == if minted.Some? then s.mintOf[minted.value := m0] else s.mintOf
    requires s'.gate.grants.Keys == s.gate.grants.Keys + if minted.Some? then {minted.value} else {}
    requires forall id | id in s.gate.grants :: id in s'.gate.grants && SameGrant(s.gate.grants[id], s'.gate.grants[id])
    requires minted.Some? ==>
               && minted.value !in s.gate.grants && m0 < |s'.mints|
               && GrantFits(minted.value, s'.gate.grants[minted.value], s'.mints[m0])
    ensures Mints(s')
  {
    hide SameGrant, MintFits, GrantFits, Minting;
    forall id | id in s'.mintOf
      ensures s'.mintOf[id] < |s'.mints| && id in s'.gate.grants && GrantFits(id, s'.gate.grants[id], s'.mints[s'.mintOf[id]])
    {
      if minted != Some(id) {
        var m := s.mintOf[id];
        GrantStillFits(id, s.gate.grants[id], s'.gate.grants[id], s.mints[m], s'.mints[m]);
      }
    }
  }

  /** The grant a step mints. */
  function NewGrant(s: Host, a: HostAction): Option<Text>
    requires StageFits(s, a)
  {
    if a.IssueGrant? && IssueAccepted(s.gate.grants, s.mints[a.m].r) then Some(Token(s.mints[a.m].r)) else None
  }

  lemma GrantStillFits(id: Text, r: Record, r': Record, m: MintCall, m': MintCall)
    requires GrantFits(id, r, m) && SameGrant(r, r') && m'.r == m.r && (Minting(m) ==> Minting(m'))
    ensures GrantFits(id, r', m')
  {
    hide BindingDigest, Token;
  }

  lemma NewGrantFits(s: Host, a: HostAction, s': Host)
    requires StageFits(s, a) && NewGrant(s, a).Some? && a.m < |s'.mints| && s'.mints[a.m].r == s.mints[a.m].r && s'.mints[a.m].Issued?
    requires Token(s.mints[a.m].r) in s'.gate.grants && s'.gate.grants[Token(s.mints[a.m].r)] == Minted(s.mints[a.m].r)
    ensures GrantFits(Token(s.mints[a.m].r), s'.gate.grants[Token(s.mints[a.m].r)], s'.mints[a.m])
  {
    hide BindingDigest, Token;
  }

  /** Old grants keep their terms; the only new grant is the one an accepted issue mints. */
  lemma GrantsKept(s: Host, a: HostAction)
    requires HostInv(s) && CanStep(s, a)
    ensures var g := GatePart(s, a).grants;
            && (forall id | id in s.gate.grants :: id in g && SameGrant(s.gate.grants[id], g[id]))
            && g.Keys == s.gate.grants.Keys + (if NewGrant(s, a).Some? then {NewGrant(s, a).value} else {})
            && (NewGrant(s, a).Some? ==> NewGrant(s, a).value !in s.gate.grants && g[NewGrant(s, a).value] == Minted(s.mints[a.m].r))
  {
    hide Inv, AllFit, Owners, Completions, Mints, Next, Enabled, BindingDigest, IsPrincipal, IsApprovalId, FrozenDigest, StepFits;
    if GateActionOf(s, a).Some? {
      var ga := GateActionOf(s, a).value;
      StepKeys(s.gate, ga);
      forall id | id in s.gate.grants ensures id in Next(s.gate, ga).grants && SameGrant(s.gate.grants[id], Next(s.gate, ga).grants[id]) {
        GrantKeepsTerms(s.gate, ga, id);
      }
    }
  }

  predicate Minting(m: MintCall) { m.Issued? || m.Listed? }

  lemma MintCallsStep(s: Host, a: HostAction)
    requires StageFits(s, a) && forall m | 0 <= m < |s.mints| :: MintFits(s.mints[m], s.uids)
    ensures var s' := HostPart(s, a);
            && |s.mints| <= |s'.mints|
            && (forall m | 0 <= m < |s'.mints| :: MintFits(s'.mints[m], s'.uids))
            && (forall m | 0 <= m < |s.mints| :: s'.mints[m].r == s.mints[m].r && (Minting(s.mints[m]) ==> Minting(s'.mints[m])))
            && s'.mintOf == (if NewGrant(s, a).Some? then s.mintOf[NewGrant(s, a).value := a.m] else s.mintOf)
            && (NewGrant(s, a).Some? ==> s'.mints[a.m].Issued?)
  {
    hide IssueAccepted, PrincipalOf, IsPrincipal, StepFits, Advance, Latches, Token, MintFits;
    match a
    case OpenSession(uid) =>
      forall m | 0 <= m < |s.mints| ensures MintFits(s.mints[m], s.uids + [uid]) { MintStillFits(s.mints[m], s.mints[m], s.uids, [uid]); }
    case AskGrant(conn, tool, args, ttl, freshId, now) =>
      AskedFits(s, conn, GrantRequest(s, conn, tool, args, ttl, freshId, now));
    case IssueGrant(m) =>
      OneMintMoves(s, m, HostPart(s, a).mints[m]);
    case ListGrant(m) =>
      OneMintMoves(s, m, HostPart(s, a).mints[m]);
    case _ =>
  }

  lemma OneMintMoves(s: Host, m: nat, m': MintCall)
    requires (forall k | 0 <= k < |s.mints| :: MintFits(s.mints[k], s.uids)) && m < |s.mints|
    requires m'.conn == s.mints[m].conn && m'.r == s.mints[m].r && (Minting(s.mints[m]) ==> Minting(m'))
    ensures var mints := s.mints[m := m'];
            forall k | 0 <= k < |mints| ::
              MintFits(mints[k], s.uids) && mints[k].r == s.mints[k].r && (Minting(s.mints[k]) ==> Minting(mints[k]))
  {
    MintStillFits(s.mints[m], m', s.uids, []);
    hide MintFits, Minting;
  }

  lemma MintStillFits(m: MintCall, m': MintCall, uids: seq<nat>, more: seq<nat>)
    requires MintFits(m, uids) && m'.conn == m.conn && m'.r == m.r
    ensures MintFits(m', uids + more) && MintFits(m', uids)
  {}

  lemma AskedFits(s: Host, conn: nat, r: IssueRequest)
    requires conn < |s.uids| && r.principal == Some(s.PrincipalAt(conn)) && |r.tools| == 1
    ensures MintFits(Asked(conn, r), s.uids)
  {}

  lemma HostStep(s: Host, a: HostAction)
    requires HostInv(s) && CanStep(s, a)
    ensures HostInv(HostNext(s, a))
  {
    hide Inv, AllFit, Owners, Completions, Mints, CanStep, HostPart, GatePart;
    GateStays(s, a);
    OwnersStep(s, a);
    MintsStep(s, a);
  }
}
