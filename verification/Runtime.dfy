/**
 The enforcement point's mode, its late-effect fence and its entry tickets, as
 functions of one value: each function is one section the source runs under its lock.
 */
module Runtime {
  import opened Common
  import opened Halt
  import opened Reasons

  datatype Rt = Rt(mode: HaltMode, available: bool, epoch: nat, engaged: bool, nextAdmission: nat, spent: set<nat>) {
    predicate Halted() { mode.Killed? || !available }

    predicate Open() { mode.Active? && available }
  }

  /** The halt file as this process reaches it; None for a runtime without a store. */
  type Disk = Option<HaltFile>

  /** How a write to the store goes: its time, its time stamp, and where it fails if it does. */
  datatype Io = Io(at: Instant, stamp: string, fault: Fault)

  function Engage(rt: Rt): Rt {
    if rt.engaged then rt else rt.(engaged := true, epoch := rt.epoch + 1)
  }

  /** Take over what the store says is on disk. */
  function Learn(rt: Rt, s: HaltState): Rt {
    var next := rt.(mode := s.mode, available := s.available);
    if s.mode.Killed? then Engage(next) else next
  }

  function Declined(rt: Rt, onDisk: Option<HaltState>, pending: Option<HaltMode>): Rt {
    if onDisk.Some? && onDisk.value.Halted() then Engage(rt.(mode := Killed, available := onDisk.value.available))
    else if onDisk.Some? && onDisk.value.mode.Suspended? then (if rt.mode.Killed? then rt else rt.(mode := Suspended))
    else if onDisk.None? && pending == Some(Suspended) && !rt.mode.Killed? then rt.(mode := Suspended)
    else rt
  }

  function WriteFailed(rt: Rt, pending: Option<HaltMode>): Rt {
    if pending == Some(Suspended) && !rt.mode.Killed? then rt.(mode := Suspended) else rt
  }

  function PersistHalt(rt: Rt, disk: Disk, expected: Option<HaltMode>, pending: Option<HaltMode>, io: Io): (Rt, Disk) {
    if disk.None? then (if pending.Some? then rt.(mode := pending.value) else rt, None)
    else
      var requested := HaltState(if pending.Some? then pending.value else rt.mode, rt.available);
      match expected
      case None =>
        var (r, file) := StoreWrite(disk.value, requested, io.stamp, io.fault);
        (if r.Ok? then Learn(rt, r.value) else WriteFailed(rt, pending), Some(file))
      case Some(mode) =>
        var (r, file) := StoreWriteIf(disk.value, mode, requested, io.stamp, io.fault);
        (match r
         case Err(_) => WriteFailed(rt, pending)
         case Ok((onDisk, wrote)) =>
           if !wrote || onDisk.None? then Declined(rt, onDisk, pending) else Learn(rt, onDisk.value),
         Some(file))
  }

  function Kill(rt: Rt, disk: Disk, io: Io): (Rt, Disk) {
    PersistHalt(Engage(rt).(mode := Killed), disk, None, None, io)
  }

  function Suspend(rt: Rt, disk: Disk, expected: Option<HaltMode>, io: Io): (Rt, Disk) {
    if rt.mode.Killed? then (rt, disk)
    else if expected.None? then PersistHalt(rt.(mode := Suspended), disk, None, None, io)
    else PersistHalt(rt, disk, expected, Some(Suspended), io)
  }

  function Resume(rt: Rt, disk: Disk, expected: Option<HaltMode>, io: Io): (Rt, Disk) {
    if !rt.mode.Suspended? then (rt, disk)
    else if expected.None? then PersistHalt(rt.(mode := Active), disk, None, None, io)
    else PersistHalt(rt, disk, expected, Some(Active), io)
  }

  function MarkUnavailable(rt: Rt, disk: Disk, io: Io): (Rt, Disk) {
    PersistHalt(rt.(available := false), disk, None, None, io)
  }

  /** The state a new process starts in. */
  function Start(disk: Disk, available: bool, killActive: bool): Rt {
    var persisted := if disk.Some? then Read(disk.value) else HaltState(Active, true);
    var rt := Rt(Active, available && persisted.available, 0, false, 0, {});
    if killActive || persisted.mode.Killed? then Engage(rt.(mode := Killed))
    else rt.(mode := persisted.mode)
  }

  // ----- Tickets.

  function Mint(rt: Rt): (Rt, nat) {
    (rt.(nextAdmission := rt.nextAdmission + 1), rt.nextAdmission + 1)
  }

  function EntryBlock(rt: Rt, admitted: nat): Option<ReasonCode> {
    if rt.engaged && admitted != rt.epoch then Some(LATE_EFFECT_FENCE)
    else if rt.Halted() then Some(KILL_ACTIVE)
    else if rt.mode.Suspended? then Some(SUSPEND_ACTIVE)
    else None
  }

  /** Spend the ticket or refuse it; a suspend leaves it open. */
  function ClaimEntry(rt: Rt, id: nat, admitted: nat): (Option<ReasonCode>, Rt) {
    if id in rt.spent then (Some(ADMISSION_CONSUMED), rt)
    else
      var blocked := EntryBlock(rt, admitted);
      (blocked, if blocked == Some(SUSPEND_ACTIVE) then rt else rt.(spent := rt.spent + {id}))
  }

  /** Which way is barred and why: the fence before a halt, a halt before a suspend. */
  lemma EntryBlockMeans(rt: Rt, admitted: nat)
    ensures EntryBlock(rt, admitted) == Some(LATE_EFFECT_FENCE) <==> rt.engaged && admitted != rt.epoch
    ensures EntryBlock(rt, admitted) == Some(KILL_ACTIVE) <==>
              !(rt.engaged && admitted != rt.epoch) && (rt.mode.Killed? || !rt.available)
    ensures EntryBlock(rt, admitted) == Some(SUSPEND_ACTIVE) <==>
              !(rt.engaged && admitted != rt.epoch) && rt.available && rt.mode.Suspended?
    ensures EntryBlock(rt, admitted).None? <==> !(rt.engaged && admitted != rt.epoch) && rt.available && rt.mode.Active?
  {}

  /** What a claim answers, and when it spends: a spent ticket stays refused, a suspend costs nothing, all else spends. */
  lemma ClaimMeans(rt: Rt, id: nat, admitted: nat)
    ensures id in rt.spent ==> ClaimEntry(rt, id, admitted) == (Some(ADMISSION_CONSUMED), rt)
    ensures id !in rt.spent ==>
              && ClaimEntry(rt, id, admitted).0 == EntryBlock(rt, admitted)
              && ClaimEntry(rt, id, admitted).1 ==
                   if rt.available && rt.mode.Suspended? && (rt.engaged ==> admitted == rt.epoch) then rt
                   else rt.(spent := rt.spent + {id})
  {}

  /** Tickets are counted up one by one, and nothing else moves. */
  lemma MintMeans(rt: Rt)
    ensures Mint(rt).1 == rt.nextAdmission + 1 && Mint(rt).0 == rt.(nextAdmission := rt.nextAdmission + 1)
  {}

  // ----- Memory against disk, over any run.

  /** One call on the runtime, or a change of the halt file by somebody else. */
  datatype RuntimeCall =
    | KillCall(io: Io)
    | SuspendCall(expected: Option<HaltMode>, io: Io)
    | ResumeCall(expected: Option<HaltMode>, io: Io)
    | MarkUnavailableCall(io: Io)
    | MintCall
    | ClaimCall(id: nat, admitted: nat)
    | DiskChanges(file: HaltFile)

  function ApplyCall(rt: Rt, disk: Disk, c: RuntimeCall): (Rt, Disk) {
    match c
    case KillCall(io) => Kill(rt, disk, io)
    case SuspendCall(expected, io) => Suspend(rt, disk, expected, io)
    case ResumeCall(expected, io) => Resume(rt, disk, expected, io)
    case MarkUnavailableCall(io) => MarkUnavailable(rt, disk, io)
    case MintCall => (Mint(rt).0, disk)
    case ClaimCall(id, admitted) => (ClaimEntry(rt, id, admitted).1, disk)
    case DiskChanges(file) => (rt, if disk.Some? then Some(file) else None)
  }

  function RunCalls(rt: Rt, disk: Disk, calls: seq<RuntimeCall>): (Rt, Disk)
    decreases |calls|
  {
    if calls == [] then (rt, disk)
    else
      var (rt', disk') := ApplyCall(rt, disk, calls[0]);
      RunCalls(rt', disk', calls[1..])
  }

  /** A claim that gives up the lock once, after it has seen the way open, and decides again afterwards. */
  function ClaimWithYield(rt: Rt, disk: Disk, id: nat, admitted: nat, yielded: seq<RuntimeCall>): (Option<ReasonCode>, Rt, Disk) {
    var (rt1, disk1) := if id in rt.spent || EntryBlock(rt, admitted).Some? then (rt, disk) else RunCalls(rt, disk, yielded);
    var (blocked, rt2) := ClaimEntry(rt1, id, admitted);
    (blocked, rt2, disk1)
  }

  /** The lock is given up only where the way was open and the ticket unspent; the claim is decided on what comes after. */
  lemma {:induction false} YieldMeans(rt: Rt, disk: Disk, id: nat, admitted: nat, yielded: seq<RuntimeCall>)
    ensures var open := rt.available && rt.mode.Active? && (rt.engaged ==> admitted == rt.epoch) && id !in rt.spent;
            var (rt', disk') := if open then RunCalls(rt, disk, yielded) else (rt, disk);
            ClaimWithYield(rt, disk, id, admitted, yielded) == (ClaimEntry(rt', id, admitted).0, ClaimEntry(rt', id, admitted).1, disk')
  {
    EntryBlockMeans(rt, admitted);
    hide RunCalls, EntryBlock, ClaimEntry;
  }

  /** The fence is engaged exactly when the mode is killed, and it has moved the epoch once. */
  predicate RtInv(rt: Rt) {
    && (rt.engaged <==> rt.mode.Killed?)
    && rt.epoch == (if rt.engaged then 1 else 0)
  }

  /** What no call takes back. */
  predicate NoLessHalted(a: Rt, b: Rt) {
    && (a.Halted() ==> b.Halted())
    && (a.mode.Killed? ==> b.mode.Killed?)
    && (a.engaged ==> b.engaged && b.epoch == a.epoch)
    && a.spent <= b.spent
    && a.nextAdmission <= b.nextAdmission
    && (!a.available && b.available ==> b.mode.Killed?)
  }

  lemma PersistKeepsHalt(rt: Rt, disk: Disk, expected: Option<HaltMode>, pending: Option<HaltMode>, io: Io)
    requires RtInv(rt)
    requires pending.Some? ==> !rt.mode.Killed? && !pending.value.Killed?
    ensures RtInv(PersistHalt(rt, disk, expected, pending, io).0)
    ensures NoLessHalted(rt, PersistHalt(rt, disk, expected, pending, io).0)
  {}

  lemma CallKeepsHalt(rt: Rt, disk: Disk, c: RuntimeCall)
    requires RtInv(rt)
    ensures RtInv(ApplyCall(rt, disk, c).0) && NoLessHalted(rt, ApplyCall(rt, disk, c).0)
    ensures c.KillCall? ==> ApplyCall(rt, disk, c).0.mode.Killed?
  {
    hide PersistHalt;
    match c
    case KillCall(io) =>
      PersistKeepsHalt(Engage(rt).(mode := Killed), disk, None, None, io);
    case SuspendCall(expected, io) =>
      if !rt.mode.Killed? {
        PersistKeepsHalt(rt.(mode := Suspended), disk, None, None, io);
        PersistKeepsHalt(rt, disk, expected, Some(Suspended), io);
      }
    case ResumeCall(expected, io) =>
      if rt.mode.Suspended? {
        PersistKeepsHalt(rt.(mode := Active), disk, None, None, io);
        PersistKeepsHalt(rt, disk, expected, Some(Active), io);
      }
    case MarkUnavailableCall(io) =>
      PersistKeepsHalt(rt.(available := false), disk, None, None, io);
    case _ =>
  }

  /**
   Whatever the halt file holds at each call, and wherever each write fails: killed or unavailable
   in memory is never undone, the fence stays engaged, and its epoch moves exactly when it engages.
   */
  lemma {:induction false} HaltOverARun(rt: Rt, disk: Disk, calls: seq<RuntimeCall>)
    requires RtInv(rt)
    ensures RtInv(RunCalls(rt, disk, calls).0) && NoLessHalted(rt, RunCalls(rt, disk, calls).0)
    ensures (exists i | 0 <= i < |calls| :: calls[i].KillCall?) ==> RunCalls(rt, disk, calls).0.mode.Killed?
    decreases |calls|
  {
    if calls != [] {
      var (rt', disk') := ApplyCall(rt, disk, calls[0]);
      CallKeepsHalt(rt, disk, calls[0]);
      HaltOverARun(rt', disk', calls[1..]);
      if i :| 0 <= i < |calls| && calls[i].KillCall? && i > 0 {
        assert calls[1..][i - 1].KillCall?;
      }
    }
  }

  lemma StartInv(disk: Disk, available: bool, killActive: bool)
    ensures RtInv(Start(disk, available, killActive))
    ensures Start(disk, available, killActive).Halted() <==> !available || killActive || (disk.Some? && Read(disk.value).Halted())
    ensures Start(disk, available, killActive).mode ==
              if killActive then Killed else if disk.Some? then Read(disk.value).mode else Active
    ensures Start(disk, available, killActive).available <==> available && (disk.Some? ==> Read(disk.value).available)
    ensures Start(disk, available, killActive).spent == {} && Start(disk, available, killActive).nextAdmission == 0
    ensures Start(disk, available, killActive).epoch == if Start(disk, available, killActive).mode.Killed? then 1 else 0
  {}

  /**
   A conditional resume takes a suspended process to active exactly when its write landed, without
   an error, on a file that read the expected mode, available, under the lock (and that mode is not a kill).
   */
  lemma ResumeNeedsItsWrite(rt: Rt, file: HaltFile, mode: HaltMode, io: Io)
    requires rt.mode.Suspended?
    ensures Resume(rt, Some(file), Some(mode), io).0.mode.Active? <==>
              io.fault.NoFault? && !file.Missing? && Read(file) == HaltState(mode, true) && !mode.Killed?
    ensures Resume(rt, Some(file), Some(mode), io).0.mode.Active? ==>
              Read(Resume(rt, Some(file), Some(mode), io).1.value) == HaltState(Active, rt.available)
  {}

  /** A conditional suspend fails to suspend only a file that is active where another mode was expected, or a kill. */
  lemma SuspendOutcome(rt: Rt, file: HaltFile, mode: HaltMode, io: Io)
    requires !rt.mode.Killed?
    ensures var after := Suspend(rt, Some(file), Some(mode), io).0;
            if io.fault.LockFault? then after.mode.Suspended?
            else if !file.Missing? && Read(file).Halted() && Read(file) != HaltState(mode, true) then after.mode.Killed?
            else if !file.Missing? && Read(file) == HaltState(mode, true) then
              after.mode == if io.fault.NoFault? && mode.Killed? then Killed else Suspended
            else if file.Missing? || Read(file).mode.Suspended? then after.mode.Suspended?
            else after == rt
  {}

  // ----- What each call leaves in the halt file.

  /** The rename of a write is on disk. */
  predicate Lands(fault: Fault) { fault.NoFault? || fault.SyncFault? }

  /** The file after a write that asks for `mode` and `available`: it says so, or a kill it kept, or it is untouched. */
  predicate Wrote(file: HaltFile, mode: HaltMode, available: bool, fault: Fault, file': HaltFile) {
    if Lands(fault) then Says(file', if Read(file).mode.Killed? then Killed else mode, Read(file).available && available)
    else file' == file
  }

  /** A conditional write is one only where the file is there and says the expected mode, available. */
  predicate WroteIf(file: HaltFile, expected: HaltMode, mode: HaltMode, available: bool, fault: Fault, file': HaltFile) {
    if Says(file, expected, true) then Wrote(file, mode, available, fault, file') else file' == file
  }

  lemma WriteSays(f: HaltFile, requested: HaltState, stamp: string, fault: Fault)
    ensures Wrote(f, requested.mode, requested.available, fault, StoreWrite(f, requested, stamp, fault).1)
  {
    MergeIsSticky(Read(f), requested);
    RenderRoundTrip(MergeStickyKill(Read(f), requested), stamp);
  }

  lemma SaysIff(f: HaltFile, mode: HaltMode)
    ensures Says(f, mode, true) <==> !f.Missing? && Read(f) == HaltState(mode, true)
  {
    if f.Text? {
      DocumentMeans(f.document);
    }
  }

  lemma WriteIfSays(f: HaltFile, expected: HaltMode, requested: HaltState, stamp: string, fault: Fault)
    ensures WroteIf(f, expected, requested.mode, requested.available, fault, StoreWriteIf(f, expected, requested, stamp, fault).1)
  {
    SaysIff(f, expected);
    WriteSays(f, requested, stamp, fault);
    hide Says, Read, MergeStickyKill;
  }

  /** Every call's write: which calls write, what they ask for, and that a kill on disk outlives all of them. */
  lemma CallWrites(rt: Rt, file: HaltFile, c: RuntimeCall)
    ensures ApplyCall(rt, Some(file), c).1.Some?
    ensures var file' := ApplyCall(rt, Some(file), c).1.value;
            match c
            case KillCall(io) => Wrote(file, Killed, rt.available, io.fault, file')
            case MarkUnavailableCall(io) => Wrote(file, rt.mode, false, io.fault, file')
            case SuspendCall(expected, io) =>
              if rt.mode.Killed? then file' == file
              else if expected.None? then Wrote(file, Suspended, rt.available, io.fault, file')
              else WroteIf(file, expected.value, Suspended, rt.available, io.fault, file')
            case ResumeCall(expected, io) =>
              if !rt.mode.Suspended? then file' == file
              else if expected.None? then Wrote(file, Active, rt.available, io.fault, file')
              else WroteIf(file, expected.value, Active, rt.available, io.fault, file')
            case DiskChanges(found) => file' == found
            case _ => file' == file
  {
    hide Wrote, WroteIf, StoreWrite, StoreWriteIf, Learn, Declined, WriteFailed;
    match c
    case KillCall(io) => WriteSays(file, HaltState(Killed, rt.available), io.stamp, io.fault);
    case MarkUnavailableCall(io) => WriteSays(file, HaltState(rt.mode, false), io.stamp, io.fault);
    case SuspendCall(expected, io) =>
      WriteSays(file, HaltState(Suspended, rt.available), io.stamp, io.fault);
      if expected.Some? { WriteIfSays(file, expected.value, HaltState(Suspended, rt.available), io.stamp, io.fault); }
    case ResumeCall(expected, io) =>
      WriteSays(file, HaltState(Active, rt.available), io.stamp, io.fault);
      if expected.Some? { WriteIfSays(file, expected.value, HaltState(Active, rt.available), io.stamp, io.fault); }
    case _ =>
  }

  /**
   Memory after the calls that write without an expected mode: what was asked, and where the write succeeded
   whatever the file now says. A kill always engages the fence.
   */
  lemma CallRemembers(rt: Rt, disk: Disk, c: RuntimeCall)
    ensures var (after, disk') := ApplyCall(rt, disk, c);
            match c
            case KillCall(io) =>
              after.mode.Killed? && after.engaged
              && after.available == if disk'.Some? && io.fault.NoFault? then Read(disk'.value).available else rt.available
            case MarkUnavailableCall(io) =>
              !after.available && after.mode == if disk'.Some? && io.fault.NoFault? then Read(disk'.value).mode else rt.mode
            case SuspendCall(None, io) =>
              after.mode == if rt.mode.Killed? then Killed
                            else if disk'.Some? && io.fault.NoFault? then Read(disk'.value).mode else Suspended
            case ResumeCall(None, io) =>
              after.mode == if !rt.mode.Suspended? then rt.mode
                            else if disk'.Some? && io.fault.NoFault? then Read(disk'.value).mode else Active
            case SuspendCall(Some(_), _) => disk.None? ==> after.mode == if rt.mode.Killed? then Killed else Suspended
            case ResumeCall(Some(_), _) => disk.None? ==> after.mode == if rt.mode.Suspended? then Active else rt.mode
            case MintCall => after == rt.(nextAdmission := rt.nextAdmission + 1)
            case ClaimCall(id, _) => after == rt || after == rt.(spent := rt.spent + {id})
            case DiskChanges(_) => after == rt
  {}

  /** What memory learns when the conditional write of a suspend or a resume is declined. */
  lemma DeclineRemembers(rt: Rt, file: HaltFile, c: RuntimeCall)
    requires (c.SuspendCall? && !rt.mode.Killed?) || (c.ResumeCall? && rt.mode.Suspended?)
    requires c.expected.Some? && !c.io.fault.LockFault? && !Says(file, c.expected.value, true)
    ensures var (after, disk') := ApplyCall(rt, Some(file), c);
            && disk' == Some(file)
            && (!file.Missing? && Read(file).Halted() ==>
                  after.mode.Killed? && after.engaged && after.available == Read(file).available)
            && (!file.Missing? && !Read(file).Halted() ==> after == if Read(file).mode.Suspended? then rt.(mode := Suspended) else rt)
            && (file.Missing? ==> after == if c.SuspendCall? then rt.(mode := Suspended) else rt)
  {
    SaysIff(file, c.expected.value);
  }

  /** The file says a kill. */
  predicate SaysKill(disk: Disk) { disk.Some? && (Says(disk.value, Killed, true) || Says(disk.value, Killed, false)) }

  lemma SaysKillReads(f: HaltFile)
    ensures SaysKill(Some(f)) ==> Read(f).mode.Killed? && f.Text?
    ensures forall available :: Says(f, Killed, available) ==> SaysKill(Some(f))
  {
    FileMeans(f);
  }

  /** A kill in the file outlives every call; only somebody who changes the file can take it away. */
  lemma KillStaysOnDisk(rt: Rt, disk: Disk, c: RuntimeCall)
    requires SaysKill(disk) && !c.DiskChanges?
    ensures SaysKill(ApplyCall(rt, disk, c).1)
  {
    CallWrites(rt, disk.value, c);
    SaysKillReads(disk.value);
    SaysKillReads(ApplyCall(rt, disk, c).1.value);
    hide Says, Read, ApplyCall, SaysKill;
  }

  /**
   A kill is in the file afterwards exactly when its rename landed, or it was there; a process that starts on what
   that file has become after any later calls starts killed, with the fence engaged.
   */
  lemma KillIsOnDisk(rt: Rt, file: HaltFile, io: Io)
    ensures Kill(rt, Some(file), io).1.Some?
    ensures SaysKill(Kill(rt, Some(file), io).1) <==> Lands(io.fault) || SaysKill(Some(file))
    ensures !Lands(io.fault) ==> Kill(rt, Some(file), io).1 == Some(file)
  {
    CallWrites(rt, file, KillCall(io));
    SaysKillReads(Kill(rt, Some(file), io).1.value);
    hide Says, Read, Kill, SaysKill;
  }

  lemma {:induction false} KillOutlivesCalls(rt: Rt, disk: Disk, calls: seq<RuntimeCall>)
    requires SaysKill(disk) && forall i | 0 <= i < |calls| :: !calls[i].DiskChanges?
    ensures SaysKill(RunCalls(rt, disk, calls).1)
    decreases |calls|
  {
    hide ApplyCall, SaysKill;
    if calls != [] {
      var (rt', disk') := ApplyCall(rt, disk, calls[0]);
      KillStaysOnDisk(rt, disk, calls[0]);
      KillOutlivesCalls(rt', disk', calls[1..]);
    }
  }

  lemma {:induction false} KillSurvivesRestart(rt: Rt, file: HaltFile, io: Io, calls: seq<RuntimeCall>, available: bool, killActive: bool)
    requires Lands(io.fault) && forall i | 0 <= i < |calls| :: !calls[i].DiskChanges?
    ensures var (killed, disk) := Kill(rt, Some(file), io);
            var next := Start(RunCalls(killed, disk, calls).1, available, killActive);
            next.mode.Killed? && next.engaged
  {
    var (killed, disk) := Kill(rt, Some(file), io);
    KillIsOnDisk(rt, file, io);
    KillOutlivesCalls(killed, disk, calls);
    SaysKillReads(RunCalls(killed, disk, calls).1.value);
    hide Kill, RunCalls, Says, SaysKill;
  }

  // ----- Memory against the file.

  /** Memory would let through what the halt file refuses, or runs over a suspend. */
  predicate Behind(rt: Rt, disk: Disk) {
    disk.Some? && Level(HaltState(rt.mode, rt.available)) < Level(Read(disk.value))
  }

  /** A conditional write that leaves a suspended process over a halted file: it never got the lock, or it expected the kill it found. */
  predicate MissesAHalt(file: HaltFile, mode: HaltMode, fault: Fault) {
    file.Halted() && (fault.LockFault? || (Read(file) == HaltState(mode, true) && !fault.NoFault?))
  }

  /**
   The calls that leave memory less halted than the file. A resume without an expected mode opens memory before
   it writes: a write that fails before the rename leaves it open over whatever the file held, one that fails after
   it only over a halt. A conditional resume opens nothing unless its write landed, and a suspend that could not
   write is behind only a halt.
   */
  predicate Splits(rt: Rt, file: HaltFile, c: RuntimeCall) {
    match c
    case ResumeCall(expected, io) =>
      if !rt.mode.Suspended? then Behind(rt, Some(file))
      else rt.available &&
           (match expected
            case None => (match io.fault
                          case NoFault => false
                          case SyncFault => file.Halted()
                          case _ => Read(file) != HaltState(Active, true))
            case Some(mode) => MissesAHalt(file, mode, io.fault))
    case SuspendCall(expected, io) =>
      && rt.available && !rt.mode.Killed?
      && (match expected
          case None => !io.fault.NoFault? && file.Halted()
          case Some(mode) => MissesAHalt(file, mode, io.fault))
    case MintCall => Behind(rt, Some(file))
    case ClaimCall(_, _) => Behind(rt, Some(file))
    case KillCall(_) => false
    case MarkUnavailableCall(_) => false
    case DiskChanges(found) => Behind(rt, Some(found))
  }

  /** Exactly when memory ends up less halted than the file. */
  lemma BehindIff(rt: Rt, file: HaltFile, c: RuntimeCall)
    ensures var (after, disk) := ApplyCall(rt, Some(file), c); Behind(after, disk) <==> Splits(rt, file, c)
  {
    hide PersistHalt, MissesAHalt, Read;
    match c
    case KillCall(io) => KillsAreNeverBehind(Engage(rt).(mode := Killed), file, io);
    case MarkUnavailableCall(io) => KillsAreNeverBehind(rt.(available := false), file, io);
    case ResumeCall(expected, io) => ResumeSplits(rt, file, expected, io);
    case SuspendCall(expected, io) => SuspendSplits(rt, file, expected, io);
    case _ =>
  }

  lemma ResumeSplits(rt: Rt, file: HaltFile, expected: Option<HaltMode>, io: Io)
    ensures var (after, disk) := Resume(rt, Some(file), expected, io);
            Behind(after, disk) <==> Splits(rt, file, ResumeCall(expected, io))
  {}

  lemma SuspendSplits(rt: Rt, file: HaltFile, expected: Option<HaltMode>, io: Io)
    ensures var (after, disk) := Suspend(rt, Some(file), expected, io);
            Behind(after, disk) <==> Splits(rt, file, SuspendCall(expected, io))
  {}

  lemma KillsAreNeverBehind(rt: Rt, file: HaltFile, io: Io)
    requires rt.Halted()
    ensures var (after, disk) := PersistHalt(rt, Some(file), None, None, io); !Behind(after, disk)
  {}

  /** Memory that is not behind falls behind only by a split of its own or by what somebody else puts on disk. */
  lemma {:induction false} BehindNeedsASplit(rt: Rt, disk: Disk, calls: seq<RuntimeCall>)
    requires !Behind(rt, disk) && Behind(RunCalls(rt, disk, calls).0, RunCalls(rt, disk, calls).1)
    ensures exists i | 0 <= i < |calls| ::
              var (before, found) := RunCalls(rt, disk, calls[..i]);
              !Behind(before, found) && found.Some? && Splits(before, found.value, calls[i])
    decreases |calls|
  {
    hide Splits, Behind, ApplyCall;
    var (rt', disk') := ApplyCall(rt, disk, calls[0]);
    if Behind(rt', disk') {
      assert calls[..0] == [];
      DiskStays(rt, disk, calls[0]);
      BehindIff(rt, disk.value, calls[0]);
    } else {
      BehindNeedsASplit(rt', disk', calls[1..]);
      var i :| 0 <= i < |calls[1..]| && (var (before, found) := RunCalls(rt', disk', calls[1..][..i]);
              !Behind(before, found) && found.Some? && Splits(before, found.value, calls[1..][i]));
      assert calls[..i + 1][1..] == calls[1..][..i] && calls[..i + 1][0] == calls[0];
    }
  }

  lemma DiskStays(rt: Rt, disk: Disk, c: RuntimeCall)
    ensures var (after, disk') := ApplyCall(rt, disk, c); (disk.Some? <==> disk'.Some?) && (Behind(after, disk') ==> disk.Some?)
  {}
}
