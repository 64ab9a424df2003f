/** The reference host as the object its connections share: sessions, their grants, the halt check, the latch and the requests. */
module HostServers {
  import opened Common
  import opened Halt
  import opened Json
  import opened Reasons
  import opened Approval
  import opened Policy
  import opened Runtime
  import opened Evaluate
  import opened PepRuntimes
  import opened Gate
  import opened HostGrants
  import Canonical

  predicate SuspendedFile(f: HaltFile) {
    f.Text? && Read(f) == HaltState(Suspended, true)
  }

  /** What happens around one request that the host does not decide: the clock, the parse, the log, other threads, the halt writes. */
  datatype Surroundings = Surroundings(
    clock: Option<Instant>,
    readable: bool,                     // the request parses
    policyBroken: bool,                 // the policy file no longer reads as it was loaded
    registered: bool,                   // the tool is in the registry and its argument names are known
    refused: Option<ReasonCode>,        // the host's own envelope does not parse
    prose: bool,
    appended: bool,                     // the line before the tool is written
    firstIo: Io,
    secondIo: Io,
    killIo: Io,
    afterTicket: seq<RuntimeCall>,
    afterEpoch: seq<RuntimeCall>,
    duringDecision: seq<RuntimeCall>,
    duringAppend: seq<RuntimeCall>)

  datatype HostError = HostError

  /** An active file lets a suspended runtime resume, if that write lands. */
  function Mirrored(rt: Rt, disk: Disk, io: Io): (Rt, Disk) {
    if rt.mode.Suspended? then Resume(rt, disk, Some(Active), io) else (rt, disk)
  }

  /** The grant the host asks for when it mints one on a connection. */
  function SessionGrant(policy: PolicyStore, principal: Text, tool: Text, args: Args, ttl: int, freshId: Text, now: Instant): IssueRequest {
    IssueRequest([tool], ttl, args, None, freshId, now, Some(policy.allowedTools.Keys), None, Some(principal), None)
  }

  /** A grant that only the connection can use, for this tool and these arguments, with nothing frozen but them. */
  predicate SessionMinted(r: Record, principal: Text, tool: Text, args: Args, expiresAt: Instant) {
    && Candidate(r, Ask(principal, tool, args)) && !r.Revoked() && r.expiresAt == expiresAt
    && r.stateDigest.None? && r.implementationDigest.None?
  }

  lemma SessionGrantMints(t: Table, policy: PolicyStore, principal: Text, tool: Text, args: Args, ttl: int, freshId: Text, now: Instant)
    ensures var r := SessionGrant(policy, principal, tool, args, ttl, freshId, now);
            var t' := Apply(t, Issue(r));
            if IssueAccepted(t, r)
            then freshId !in t && t'.Keys == t.Keys + {freshId} && t' - {freshId} == t
                 && SessionMinted(t'[freshId], principal, tool, args, now + ttl)
            else t' == t
  {
    hide IsPrincipal, IsApprovalId, Canonical.Freeze;
    var r := SessionGrant(policy, principal, tool, args, ttl, freshId, now);
    if IssueAccepted(t, r) {
      assert Apply(t, Issue(r)) == t[freshId := Minted(r)];
    }
  }

  /** The request the host puts to the gate for a connection. */
  function HostRequest(principal: Text, tool: Text, args: Args, now: Instant, chosen: Option<Text>, w: Surroundings): Request {
    Request(Some(now),
            if w.refused.Some? then ParseFails(w.refused.value)
            else Parsed(Envelope(tool, args, None, chosen, principal, None, w.prose)),
            Some(principal), None, None)
  }

  predicate ToolAdmits(policy: PolicyStore, tool: Text, args: Args) {
    && policy.loaded && tool in policy.allowedTools
    && var spec := policy.allowedTools[tool];
       spec.Spec? && spec.argsSchema.Some? && SchemaAccepts(args, spec.argsSchema.value)
  }

  /** Exactly one listed grant can be used, and it froze no digest that only an observer could meet. */
  ghost predicate OneGrant(ids: seq<Text>, t: Table, ask: Ask, now: Instant) {
    exists k: nat ::
      && UsableAt(ids, t, ask, now) == {k} && k < |ids| && ids[k] in t
      && t[ids[k]].stateDigest.None? && t[ids[k]].implementationDigest.None?
  }

  /** A reading that is neither active nor suspended: it latches a host that nothing has killed yet. */
  predicate HaltingFile(f: HaltFile) { !ActiveFile(f) && !SuspendedFile(f) }

  /** The second reading, after what happens while the line is appended, latches the halt. */
  predicate SecondLookLatches(rt: Rt, disk: Disk, w: Surroundings) {
    var (later, found) := RunCalls(rt, disk, w.duringAppend);
    !later.mode.Killed? && found.Some? && HaltingFile(found.value)
  }

  /** The runtime when the decision is made, from where the first halt check left it. */
  function AtAnswer(first: Rt, seen: Disk, w: Surroundings): (Rt, Disk) {
    var (start, at) := AtDecision(first, seen, w.afterTicket, w.afterEpoch);
    RunCalls(start, at, w.duringDecision)
  }

  /** The runtime is open at both looks of the decision. */
  predicate OpenThroughout(first: Rt, seen: Disk, w: Surroundings) {
    AtDecision(first, seen, w.afterTicket, w.afterEpoch).0.Open() && AtAnswer(first, seen, w).0.Open()
  }

  /** After the line is in the log: the halt file reads active again, and the gate lets the admission in. */
  ghost predicate PassesSecondLook(rt: Rt, disk: Disk, p: PendingInvoke, w: Surroundings) {
    && w.appended
    && var (later, found) := RunCalls(rt, disk, w.duringAppend);
       && !later.mode.Killed? && found.Some? && ActiveFile(found.value)
       && var (last, written) := Mirrored(later, found, w.secondIo);
          Enters(last, written, p, Entry(None, None), [], [])
  }

  /** The same for the whole way from the first halt check, with the runtime's state and no order of checks in it. */
  ghost predicate GateLets(first: Rt, seen: Disk, w: Surroundings) {
    var (end, after) := AtAnswer(first, seen, w);
    && OpenThroughout(first, seen, w) && w.appended
    && var (later, found) := RunCalls(end, after, w.duringAppend);
       && !later.mode.Killed? && found.Some? && ActiveFile(found.value)
       && var last := Mirrored(later, found, w.secondIo).0;
          last.Open() && first.nextAdmission + 1 !in last.spent
  }

  predicate NoneOutstanding(t: Table) { forall id | id in t :: !t[id].Outstanding() }

  /** The mirror of an active file clears a suspend, if its write succeeds, and kills nothing. */
  lemma MirroredActive(rt: Rt, file: HaltFile, io: Io)
    ensures ActiveFile(file) && !rt.mode.Killed? ==>
              Mirrored(rt, Some(file), io).0.mode == if rt.mode.Suspended? && !io.fault.NoFault? then Suspended else Active
  {}

  /** The mirror of a suspended file leaves the runtime suspended, however its write goes. */
  lemma MirroredSuspend(rt: Rt, file: HaltFile, io: Io)
    ensures SuspendedFile(file) && !rt.mode.Killed? ==> Suspend(rt, Some(file), Some(Suspended), io).0.mode.Suspended?
  {}

  class ReferenceHost {
    const pep: PepRuntime
    const halt: HaltStore               // the halt file, which a runtime opened halted does not hold
    var connections: nat
    var known: set<Text>
    var listed: map<Text, seq<Text>>
    var sticky: bool

    ghost predicate Valid()
      reads this, pep, pep.approvals, halt
    {
      && (if pep.haltStore == null then pep.mode.Killed? else pep.haltStore == halt)
      && RtInv(pep.State()) && !pep.approvals.observing && TableInv(pep.approvals.records)
      && (forall p | p in known :: IsPrincipal(p) && NamedUpTo(p, connections))
      && (forall p | p in listed :: NamedUpTo(p, connections))
    }

    constructor (pep: PepRuntime, halt: HaltStore, sticky: bool)
      requires if pep.haltStore == null then pep.mode.Killed? else pep.haltStore == halt
      requires RtInv(pep.State()) && !pep.approvals.observing && TableInv(pep.approvals.records)
      ensures this.pep == pep && this.halt == halt && this.sticky == sticky && Valid()
      ensures known == {} && listed == map[] && connections == 0
    {
      this.pep := pep;
      this.halt := halt;
      this.sticky := sticky;
      connections, known, listed := 0, {}, map[];
    }

    // ----- Sessions and their grants.

    /** A new connection gets a name that no connection of this host has ever had, so it starts with no grants. */
    method OpenSession(uid: nat) returns (r: Result<Text, HostError>)
      requires Valid()
      modifies this`connections, this`known
      ensures Valid() && connections == old(connections) + 1
      ensures r == if IsPrincipal(PrincipalOf(uid, connections)) then Ok(PrincipalOf(uid, connections)) else Err(HostError)
      ensures known == old(known) + if r.Ok? then {r.value} else {}
      ensures r.Ok? ==> r.value !in old(known) && r.value !in listed
    {
      NamesGrow(known + listed.Keys, connections);
      NewName(uid, connections, known + listed.Keys);
      connections := connections + 1;
      var principal := PrincipalOf(uid, connections);
      if !IsPrincipal(principal) {
        return Err(HostError);
      }
      known := known + {principal};
      return Ok(principal);
    }

    method DropSession(principal: Text)
      requires Valid()
      modifies this`known, this`listed
      ensures Valid() && known == old(known) - {principal} && listed == old(listed) - {principal}
    {
      known := known - {principal};
      listed := listed - {principal};
    }

    /** Mint a grant on a connection of this host: accepted, it is in the table and last in that connection's list. */
    method IssueSessionApproval(principal: Text, tool: Text, args: Args, ttl: int, freshId: Text, clock: Option<Instant>)
      returns (r: Result<Text, HostError>)
      requires Valid()
      modifies this`sticky, this`listed, pep.approvals`records
      ensures Valid()
      ensures r.Ok? <==> principal in known && clock.Some? &&
                         IssueAccepted(old(pep.approvals.records), SessionGrant(pep.policy, principal, tool, args, ttl, freshId, clock.value))
      ensures r.Ok? ==>
                && r.value == freshId && freshId !in old(pep.approvals.records)
                && freshId in pep.approvals.records && pep.approvals.records - {freshId} == old(pep.approvals.records)
                && SessionMinted(pep.approvals.records[freshId], principal, tool, args, clock.value + ttl)
                && listed == old(listed)[principal := (if principal in old(listed) then old(listed)[principal] else []) + [freshId]]
      ensures r.Err? ==> pep.approvals.records == old(pep.approvals.records) && listed == old(listed)
      ensures sticky <==> old(sticky) || (principal in known && clock.None?)
    {
      if principal !in known {
        return Err(HostError);
      }
      if clock.None? {
        sticky := true;
        return Err(HostError);
      }
      var request := SessionGrant(pep.policy, principal, tool, args, ttl, freshId, clock.value);
      ApplyKeepsInv(pep.approvals.records, Issue(request));
      SessionGrantMints(pep.approvals.records, pep.policy, principal, tool, args, ttl, freshId, clock.value);
      hide Apply, IsPrincipal, IssueAccepted, SessionMinted, TableInv, RtInv, NamedUpTo;
      var issued := pep.approvals.IssueGrant(request);
      if issued.Err? {
        return Err(HostError);
      }
      var id := issued.value.approvalId;
      listed := listed[principal := (if principal in listed then listed[principal] else []) + [id]];
      return Ok(id);
    }

    // ----- The halt check.

    method KillRuntimeMemory(io: Io)
      requires Valid()
      modifies pep, pep.approvals, halt
      ensures Valid() && pep.mode.Killed?
      ensures (pep.State(), pep.DiskState()) ==
                if old(pep.mode.Killed?) then old((pep.State(), pep.DiskState())) else Kill(old(pep.State()), old(pep.DiskState()), io)
      ensures !old(pep.mode.Killed?) ==> NoneOutstanding(pep.approvals.records)
      ensures forall id | id in old(pep.approvals.records) ::
                id in pep.approvals.records && OnlyRevoked(old(pep.approvals.records)[id], pep.approvals.records[id])
    {
      if !pep.mode.Killed? {
        CallKeepsHalt(pep.State(), pep.DiskState(), KillCall(io));
        ApplyKeepsInv(pep.approvals.records, RevokeAll(true, None, io.at));
        pep.KillNow(io);
      }
    }

    /**
     One reading of the halt file. The way is clear exactly when nothing has latched or killed the
     host and the file reads active; anything but an active or a suspended file latches the halt.
     */
    method HaltBlock(io: Io) returns (blocked: Option<ReasonCode>)
      requires Valid()
      modifies this`sticky, pep, pep.approvals, halt
      ensures Valid()
      ensures blocked.None? <==> !old(sticky) && !old(pep.mode.Killed?) && ActiveFile(old(halt.file))
      ensures blocked.None? ==>
                && pep.approvals.records == old(pep.approvals.records)
                && (pep.State(), pep.DiskState()) == Mirrored(old(pep.State()), old(pep.DiskState()), io)
      ensures blocked.None? ==> pep.mode == if old(pep.mode.Suspended?) && !io.fault.NoFault? then Suspended else Active
      ensures blocked == Some(SUSPEND_ACTIVE) ==>
                && pep.mode.Suspended? && pep.approvals.records == old(pep.approvals.records)
                && (pep.State(), pep.DiskState()) ==
                     if old(pep.mode.Suspended?) then old((pep.State(), pep.DiskState()))
                     else Suspend(old(pep.State()), old(pep.DiskState()), Some(Suspended), io)
      ensures blocked == Some(SUSPEND_ACTIVE) <==> !old(sticky) && !old(pep.mode.Killed?) && SuspendedFile(old(halt.file))
      ensures sticky <==> old(sticky) || (!old(pep.mode.Killed?) && !ActiveFile(old(halt.file)) && !SuspendedFile(old(halt.file)))
      ensures !old(sticky) && sticky ==>
                && pep.mode.Killed? && NoneOutstanding(pep.approvals.records)
                && (pep.State(), pep.DiskState()) == Kill(old(pep.State()), old(pep.DiskState()), io)
      ensures old(sticky) || old(pep.mode.Killed?) ==>
                (pep.State(), pep.DiskState(), pep.approvals.records) == old((pep.State(), pep.DiskState(), pep.approvals.records))
      ensures blocked.None? ==> !pep.mode.Killed?
      ensures forall id | id in old(pep.approvals.records) ::
                id in pep.approvals.records && OnlyRevoked(old(pep.approvals.records)[id], pep.approvals.records[id])
      ensures old(pep.mode.Killed?) ==> pep.mode.Killed?
      ensures old(pep.State()).Halted() ==> pep.State().Halted()
    {
      var (_, observed) := ReadFailClosed(halt.file);
      ReadersAgreeUnlessMissing(halt.file);
      MirroredActive(pep.State(), halt.file, io);
      MirroredSuspend(pep.State(), halt.file, io);
      hide Resume, Suspend, NamedUpTo, IsPrincipal;
      if sticky || pep.mode.Killed? {
        return Some(KILL_ACTIVE);
      }
      if observed.SawActive? {
        if pep.mode.Suspended? {
          CallKeepsHalt(pep.State(), pep.DiskState(), ResumeCall(Some(Active), io));
          pep.ResumeNow(Some(Active), io);
        }
        return None;
      }
      if observed.SawSuspended? {
        if !pep.mode.Suspended? {
          CallKeepsHalt(pep.State(), pep.DiskState(), SuspendCall(Some(Suspended), io));
          pep.SuspendNow(Some(Suspended), io);
        }
        return Some(SUSPEND_ACTIVE);
      }
      sticky := true;
      KillRuntimeMemory(io);
      return Some(KILL_ACTIVE);
    }

    // ----- One request.

    /** The halt check lets a request of this connection by, and it reads. */
    ghost predicate PassesFirstCheck(principal: Text, w: Surroundings)
      reads this, pep, halt
    {
      principal in known && w.clock.Some? && !sticky && !pep.mode.Killed? && ActiveFile(halt.file) && w.readable
    }

    /** From a runtime that the first halt check left as `first`, the gate decides ALLOW. */
    ghost predicate AdmittedFrom(first: Rt, seen: Disk, principal: Text, tool: Text, args: Args, w: Surroundings)
      reads this, pep.approvals
    {
      && w.refused.None? && !w.prose && w.clock.Some? && ToolAdmits(pep.policy, tool, args)
      && OneGrant(if principal in listed then listed[principal] else [], pep.approvals.records, Ask(principal, tool, args), w.clock.value)
      && OpenThroughout(first, seen, w)
    }

    ghost predicate WillBeAdmitted(principal: Text, tool: Text, args: Args, w: Surroundings)
      reads this, pep, pep.approvals, halt
      requires Valid()
    {
      && PassesFirstCheck(principal, w) && !w.policyBroken && w.registered
      && var (first, seen) := Mirrored(pep.State(), pep.DiskState(), w.firstIo);
         AdmittedFrom(first, seen, principal, tool, args, w)
    }

    /** A reading that halts, or a changed policy: the halt is latched and the runtime killed. */
    ghost predicate WillKill(principal: Text, tool: Text, args: Args, w: Surroundings)
      reads this, pep, pep.approvals, halt
      requires Valid()
    {
      || (principal in known && w.clock.Some? && !sticky && !pep.mode.Killed? && HaltingFile(halt.file))
      || (PassesFirstCheck(principal, w) && w.policyBroken)
      || (&& WillBeAdmitted(principal, tool, args, w) && w.appended
          && var (first, seen) := Mirrored(pep.State(), pep.DiskState(), w.firstIo);
             var (end, after) := AtAnswer(first, seen, w);
             SecondLookLatches(end, after, w))
    }

    /** The only other latches: no clock, or the line before the tool not written. */
    ghost predicate WillLatch(principal: Text, tool: Text, args: Args, w: Surroundings)
      reads this, pep, pep.approvals, halt
      requires Valid()
    {
      || (principal in known && w.clock.None?)
      || (WillBeAdmitted(principal, tool, args, w) && !w.appended)
      || WillKill(principal, tool, args, w)
    }

    /** Everything a request needs to enter its tool, with no order in it. */
    ghost predicate WillEnter(principal: Text, tool: Text, args: Args, w: Surroundings)
      reads this, pep, pep.approvals, halt
      requires Valid()
    {
      && WillBeAdmitted(principal, tool, args, w)
      && var (first, seen) := Mirrored(pep.State(), pep.DiskState(), w.firstIo);
         GateLets(first, seen, w)
    }

    /** The one usable grant of the connection for this call was unspent in `before` and is spent now. */
    ghost predicate SpentItsGrant(before: Table, principal: Text, tool: Text, args: Args, now: Instant)
      reads this, pep.approvals
    {
      var ids := if principal in listed then listed[principal] else [];
      exists k: nat ::
        && UsableAt(ids, before, Ask(principal, tool, args), now) == {k} && k < |ids|
        && ids[k] in before && !before[ids[k]].Consumed()
        && ids[k] in pep.approvals.records && pep.approvals.records[ids[k]].Consumed()
    }

    /**
     One request of the connection named `principal`. `files` are the readings of the halt file on the way.
     The tool is entered exactly when nothing in `WillEnter` is missing; then the one usable grant listed for
     the connection is newly spent, and both readings were of an active file. The halt is newly latched exactly
     in the cases of `WillLatch`, and in those of `WillKill` the runtime is killed and no grant is outstanding.
     */
    method Decide(principal: Text, tool: Text, args: Args, w: Surroundings) returns (entered: bool, ghost files: seq<HaltFile>)
      requires Valid()
      modifies this`sticky, pep, pep.approvals, halt
      ensures Valid()
      ensures entered <==> old(WillEnter(principal, tool, args, w))
      ensures sticky <==> old(sticky) || old(WillLatch(principal, tool, args, w))
      ensures old(WillKill(principal, tool, args, w)) ==> pep.mode.Killed? && NoneOutstanding(pep.approvals.records)
      ensures entered ==>
                && |files| == 2 && files[0] == old(halt.file) && ActiveFile(files[0]) && ActiveFile(files[1]) && !sticky
                && SpentItsGrant(old(pep.approvals.records), principal, tool, args, w.clock.value)
    {
      hide TableInv, RtInv, RunCalls, Read, NoLessHalted, IsPrincipal, NamedUpTo, Mirrored, ToolAdmits, OneGrant,
           OpenThroughout, UsableAt, GateLets, AtAnswer, SecondLookLatches, NoneOutstanding, Kill;
      files := [];
      if principal !in known {
        return false, files;
      }
      if w.clock.None? {
        sticky := true;
        return false, files;
      }
      files := files + [halt.file];
      MirroredInv(pep.State(), pep.DiskState(), w.firstIo);
      var blocked := HaltBlock(w.firstIo);
      if blocked.Some? {
        return false, files;
      }
      if !w.readable {
        return false, files;
      }
      if w.policyBroken {
        sticky := true;
        KillRuntimeMemory(w.killIo);
        return false, files;
      }
      if !w.registered {
        return false, files;
      }
      ghost var second: Option<HaltFile>;
      entered, second := SelectAndEnter(principal, tool, args, w);
      files := files + if second.Some? then [second.value] else [];
    }

    /** The grant is selected, the gate decides, and an admitted request goes on to the tool. */
    method SelectAndEnter(principal: Text, tool: Text, args: Args, w: Surroundings) returns (entered: bool, ghost file: Option<HaltFile>)
      requires Valid() && principal in known && w.clock.Some? && !sticky && !pep.mode.Killed?
      modifies this`sticky, pep, pep.approvals, halt
      ensures Valid()
      ensures var first, seen := old(pep.State()), old(pep.DiskState());
              var admitted := old(AdmittedFrom(pep.State(), pep.DiskState(), principal, tool, args, w));
              var (end, after) := AtAnswer(first, seen, w);
              && (entered <==> admitted && GateLets(first, seen, w))
              && (sticky <==> admitted && (!w.appended || SecondLookLatches(end, after, w)))
              && (admitted && w.appended && SecondLookLatches(end, after, w) ==>
                    pep.mode.Killed? && NoneOutstanding(pep.approvals.records))
      ensures entered ==>
                && file.Some? && ActiveFile(file.value) && !sticky
                && SpentItsGrant(old(pep.approvals.records), principal, tool, args, w.clock.value)
    {
      hide TableInv, RtInv, RunCalls, GrantsAfterAll, UsableAt, MatchedAt, RevokedAt, Read, NoLessHalted, FirstOf,
           SchemaAccepts, IsPrincipal, NamedUpTo, Mirrored, PassesSecondLook, Draft, AtDecision, SiftAll, Choose, Enters,
           Admissible, GrantStands, OneGrant, GateLets, ToolAdmits, SecondLookLatches, NoneOutstanding, Kill, DecisionFits;
      file := None;
      var now := w.clock.value;
      var ids := if principal in listed then listed[principal] else [];
      var before := pep.approvals.records;
      var selection := SelectApproval(ids, before, Ask(principal, tool, args), now);
      OnlyOneSelects(ids, before, Ask(principal, tool, args), now, selection);
      if selection.Ambiguous? || selection.RevokedOnly? {
        return false, file;
      }
      var chosen := if selection.NoGrant? then None else Some(selection.id);
      var q := HostRequest(principal, tool, args, now, chosen, w);
      ghost var first, seen := pep.State(), pep.DiskState();
      AdmittedIff(ids, before, principal, tool, args, now, selection, w, pep.policy);
      LetsNeedsOpen(first, seen, before, w);
      var pending := BeginInvoke(pep, q, w.afterTicket, w.afterEpoch, w.duringDecision);
      if pending.decision.Deny? {
        return false, file;
      }
      ghost var spent := pep.approvals.records;
      SelectedIsSpent(ids, before, Ask(principal, tool, args), now, selection, q, spent, pep.policy);
      NothingFrozen(AtDecision(first, seen, w.afterTicket, w.afterEpoch).0, pep.policy, before, q);
      PassesIffLets(first, seen, pending, w);
      ghost var second: HaltFile;
      entered, second := EnterAdmitted(pending, w);
      file := Some(second);
    }

    /** The line before the tool, the second reading of the halt file, and the tool. */
    method EnterAdmitted(pending: PendingInvoke, w: Surroundings) returns (entered: bool, ghost file: HaltFile)
      requires Valid()
      modifies this`sticky, pep, pep.approvals, halt
      ensures Valid()
      ensures entered <==> !old(sticky) && PassesSecondLook(old(pep.State()), old(pep.DiskState()), pending, w)
      ensures sticky <==> old(sticky) || !w.appended || SecondLookLatches(old(pep.State()), old(pep.DiskState()), w)
      ensures !old(sticky) && w.appended && sticky ==> pep.mode.Killed? && NoneOutstanding(pep.approvals.records)
      ensures entered ==> !sticky && ActiveFile(file)
      ensures forall g | g in old(pep.approvals.records) ::
                g in pep.approvals.records && OnlyRevoked(old(pep.approvals.records)[g], pep.approvals.records[g])
    {
      hide TableInv, RtInv, RunCalls, GrantsAfterAll, IsPrincipal, NamedUpTo, Mirrored, Enters, Read, NoneOutstanding;
      file := halt.file;
      if !w.appended {
        sticky := true;
        return false, file;
      }
      RevocationsKeepInv(pep.approvals.records, w.duringAppend);
      OnlyRevocations(pep.approvals.records, w.duringAppend);
      HaltOverARun(pep.State(), pep.DiskState(), w.duringAppend);
      pep.PerformAll(w.duringAppend);
      file := halt.file;
      var blocked := HaltBlock(w.secondIo);
      if blocked.Some? {
        return false, file;
      }
      var finished, ran := CompleteInvoke(pep, pending, Entry(None, None), [], None);
      return ran, file;
    }
  }

  // ----- Names.

  predicate NamedBy(p: Text, uid: nat, c: nat) { p == PrincipalOf(uid, c) }

  /** The name of one of the first `n` connections. */
  ghost predicate NamedUpTo(p: Text, n: nat) {
    exists uid: nat, c: nat :: c <= n && NamedBy(p, uid, c)
  }

  lemma NamesGrow(ps: set<Text>, n: nat)
    requires forall p | p in ps :: NamedUpTo(p, n)
    ensures forall p | p in ps :: NamedUpTo(p, n + 1)
  {
    forall p | p in ps ensures NamedUpTo(p, n + 1) {
      var uid: nat, c: nat :| c <= n && NamedBy(p, uid, c);
      assert c <= n + 1;
    }
  }

  lemma NewName(uid: nat, n: nat, ps: set<Text>)
    requires forall p | p in ps :: NamedUpTo(p, n)
    ensures PrincipalOf(uid, n + 1) !in ps && NamedUpTo(PrincipalOf(uid, n + 1), n + 1)
  {
    var p := PrincipalOf(uid, n + 1);
    assert NamedBy(p, uid, n + 1);
    if p in ps {
      var uid': nat, c: nat :| c <= n && NamedBy(p, uid', c);
      PrincipalsDiffer(uid, n + 1, uid', c);
      assert false;
    }
  }

  // ----- When a selected grant is admitted and spent.

  /** Only the answer with one grant can come of a list with one usable grant. */
  lemma {:induction false} OnlyOneSelects(ids: seq<Text>, t: Table, ask: Ask, now: Instant, s: Selection)
    requires TableInv(t) && s == Choose(SiftAll(ids, t, ask), now)
    ensures OneGrant(ids, t, ask, now) ==> s.One?
  {
    SelectionMeans(ids, t, ask, now);
    hide Candidate, SiftAll, Choose;
  }

  /** A request that rests on the host's selection is admissible with a grant that can be spent exactly when there is one grant. */
  lemma {:induction false} AdmittedIff(ids: seq<Text>, t: Table, principal: Text, tool: Text, args: Args, now: Instant,
          s: Selection, w: Surroundings, policy: PolicyStore)
    requires TableInv(t) && IsPrincipal(principal) && s == Choose(SiftAll(ids, t, Ask(principal, tool, args)), now)
    requires !s.Ambiguous? && !s.RevokedOnly?
    ensures var q := HostRequest(principal, tool, args, now, if s.NoGrant? then None else Some(s.id), w);
            Admissible(policy, q) && GrantStands(t, q) <==>
              w.refused.None? && !w.prose && ToolAdmits(policy, tool, args) && OneGrant(ids, t, Ask(principal, tool, args), now)
  {
    var ask := Ask(principal, tool, args);
    SelectionMeans(ids, t, ask, now);
    hide SiftAll, Choose, SchemaAccepts, IsPrincipal, BindingDigest, CapabilityStands;
  }

  /** Where the runtime is open when the decision begins, no grant had been revoked on the way to it. */
  lemma {:induction false} LetsNeedsOpen(first: Rt, seen: Disk, t: Table, w: Surroundings)
    requires RtInv(first)
    ensures AtDecision(first, seen, w.afterTicket, w.afterEpoch).0.Open() ==>
              GrantsAfterAll(GrantsAfterAll(t, w.afterTicket), w.afterEpoch) == t
    ensures GateLets(first, seen, w) ==> OpenThroughout(first, seen, w)
  {
    hide RunCalls, Mirrored, Enters;
    if AtDecision(first, seen, w.afterTicket, w.afterEpoch).0.Open() {
      var (mid, between) := AtEpoch(first, seen, w.afterTicket);
      HaltOverARun(Mint(first).0, seen, w.afterTicket);
      HaltOverARun(mid, between, w.afterEpoch);
      UnkilledKeepsGrants(Mint(first).0, seen, w.afterTicket, t);
      UnkilledKeepsGrants(mid, between, w.afterEpoch, GrantsAfterAll(t, w.afterTicket));
    }
  }

  /** An admission of the host has no frozen implementation, so nothing but the runtime decides at its entry. */
  lemma EntersIff(rt: Rt, disk: Disk, p: PendingInvoke)
    requires RtInv(rt) && p.admittedEpoch == 0 && p.decision.Allow? && p.decision.frozenImplementation.None?
    ensures Enters(rt, disk, p, Entry(None, None), [], []) <==> rt.Open() && p.admissionId !in rt.spent
  {}

  lemma NothingFrozen(rt: Rt, policy: PolicyStore, t: Table, q: Request)
    requires Draft(rt, policy, t, q).0.Allow? && q.observeImplementation.None?
    ensures Draft(rt, policy, t, q).0.frozenImplementation.None?
  {
    hide ConsumeStep, SchemaAccepts, CapabilityStands, IsPrincipal, BindingDigest;
    DraftAllowsIff(rt, policy, t, q);
    if q.parsed.envelope.approvalId.Some? {
      ConsumeSpendsIff(t, ConsumeOf(q));
    }
  }

  lemma PassesIffLets(first: Rt, seen: Disk, p: PendingInvoke, w: Surroundings)
    requires RtInv(first) && OpenThroughout(first, seen, w)
    requires p.admittedEpoch == 0 && p.decision.Allow? && p.decision.frozenImplementation.None?
    requires p.admissionId == first.nextAdmission + 1
    ensures var (end, after) := AtAnswer(first, seen, w); PassesSecondLook(end, after, p, w) <==> GateLets(first, seen, w)
  {
    hide RunCalls, Resume, Enters, Read;
    var (mid, between) := AtEpoch(first, seen, w.afterTicket);
    var (start, at) := RunCalls(mid, between, w.afterEpoch);
    var (end, after) := RunCalls(start, at, w.duringDecision);
    var (later, found) := RunCalls(end, after, w.duringAppend);
    var (last, written) := Mirrored(later, found, w.secondIo);
    HaltOverARun(Mint(first).0, seen, w.afterTicket);
    HaltOverARun(mid, between, w.afterEpoch);
    HaltOverARun(start, at, w.duringDecision);
    HaltOverARun(end, after, w.duringAppend);
    MirroredInv(later, found, w.secondIo);
    EntersIff(last, written, p);
  }

  lemma MirroredInv(rt: Rt, disk: Disk, io: Io)
    requires RtInv(rt)
    ensures RtInv(Mirrored(rt, disk, io).0)
  {
    CallKeepsHalt(rt, disk, ResumeCall(Some(Active), io));
    hide Resume;
  }

  /** An allowed request that rests on a selected grant rests on the one usable grant. */
  lemma {:induction false} SelectedIsSpent(ids: seq<Text>, t: Table, ask: Ask, now: Instant, s: Selection, q: Request, t': Table, policy: PolicyStore)
    requires TableInv(t) && s == Choose(SiftAll(ids, t, ask), now) && !s.Ambiguous? && !s.RevokedOnly?
    requires Admissible(policy, q) && NewlySpent(t, t', q) && q.now == Some(now) && q.parsed.envelope.capabilityToken.None?
    requires q.parsed.envelope.approvalId == if s.NoGrant? then None else Some(s.id)
    ensures s.One? && s.id in t && !t[s.id].Consumed() && s.id in t' && t'[s.id].Consumed()
    ensures exists k: nat :: UsableAt(ids, t, ask, now) == {k} && k < |ids| && ids[k] == s.id
  {
    SelectionMeans(ids, t, ask, now);
    hide SchemaAccepts, CapabilityStands, IsPrincipal, SiftAll, Candidate;
    if s.ExpiredOnly? {
      ExpiredIsExpired(ids, t, ask, now, s.id);
    }
  }

  lemma ExpiredIsExpired(ids: seq<Text>, t: Table, ask: Ask, now: Instant, id: Text)
    requires SelectionFits(ExpiredOnly(id), ids, t, ask, now)
    ensures id in t && t[id].Expired(now)
  {
    var k: nat :| FirstOf(k, MatchedAt(ids, t, ask)) && k < |ids| && ids[k] == id;
    assert k !in UsableAt(ids, t, ask, now);
  }
}
