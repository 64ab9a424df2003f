/**
 Any number of writers share one halt file. Each write is split into taking the
 lock, reading, renaming and releasing, and every step of every writer may be
 separated by steps of the others, by a failure or by a crash.
 */
module HaltProtocol {
  import opened Common
  import opened Halt

  datatype Op = Write(requested: HaltState) | WriteIf(expected: HaltMode, requested: HaltState)

  datatype Writer =
    | Idle
    | Waiting(op: Op)
    | Locked(op: Op)
    | HasRead(op: Op, current: HaltState)
    | Releasing
  {
    predicate HoldsLock() { Locked? || HasRead? || Releasing? }
  }

  datatype Shared = Shared(file: HaltFile, lock: Option<nat>, writers: seq<Writer>)

  datatype Action =
    | Begin(i: nat, op: Op)      // a caller of `write` or `write_if`
    | BeginInit(i: nat)          // `init_active`, after its unlocked read
    | BeginKill(i: nat)          // `write_killed`, after its unlocked read
    | Acquire(i: nat)
    | LockFails(i: nat)
    | ReadFile(i: nat)
    | Rename(i: nat, stamp: string)
    | PersistFails(i: nat)
    | Release(i: nat)
    | Crash(i: nat)
    | Delete                     // somebody unlinks the file without the lock

  ghost function Actor(a: Action): Option<nat> {
    if a.Delete? then None else Some(a.i)
  }

  predicate Enabled(s: Shared, a: Action, exclusive: bool) {
    if a.Delete? then true
    else if a.i >= |s.writers| then false
    else
      var w := s.writers[a.i];
      match a
      case Begin(_, _) => w.Idle?
      case BeginInit(_) => w.Idle? && ReadFailClosed(s.file).1.SawMissing?
      case BeginKill(_) =>
        && w.Idle?
        && !ReadFailClosed(s.file).1.SawUnreadable?
        && !(ReadFailClosed(s.file).1.SawKilled? && Read(s.file).mode.Killed?)
      case Acquire(_) => w.Waiting? && (exclusive ==> s.lock.None?)
      case LockFails(_) => w.Waiting?
      case ReadFile(_) => w.Locked?
      case Rename(_, _) => w.HasRead?
      case PersistFails(_) => w.HasRead?
      case Release(_) => w.Releasing?
      case Crash(_) => true
  }

  function AfterRead(f: HaltFile, op: Op): Writer {
    if op.WriteIf? && (f.Missing? || Read(f) != HaltState(op.expected, true)) then Releasing
    else HasRead(op, Read(f))
  }

  function Next(s: Shared, a: Action): Shared
    requires Enabled(s, a, false)
  {
    match a
    case Delete => s.(file := Missing)
    case Begin(i, op) => s.(writers := s.writers[i := Waiting(op)])
    case BeginInit(i) => s.(writers := s.writers[i := Waiting(Write(HaltState(Active, true)))])
    case BeginKill(i) => s.(writers := s.writers[i := Waiting(Write(HaltState(Killed, true)))])
    case Acquire(i) => s.(lock := Some(i), writers := s.writers[i := Locked(s.writers[i].op)])
    case LockFails(i) => s.(writers := s.writers[i := Idle])
    case ReadFile(i) => s.(writers := s.writers[i := AfterRead(s.file, s.writers[i].op)])
    case Rename(i, stamp) =>
      var w := s.writers[i];
      s.(file := Text(Render(MergeStickyKill(w.current, w.op.requested), stamp)), writers := s.writers[i := Releasing])
    case PersistFails(i) => s.(writers := s.writers[i := Releasing])
    case Release(i) => s.(lock := None, writers := s.writers[i := Idle])
    case Crash(i) =>
      s.(lock := if s.lock == Some(i) then None else s.lock, writers := s.writers[i := Idle])
  }

  /** Who may begin what: an init only over a missing file, a kill over any file it can read that is not killed already. */
  lemma BeginsMean(s: Shared, i: nat, op: Op, exclusive: bool)
    requires i < |s.writers|
    ensures Enabled(s, Begin(i, op), exclusive) <==> s.writers[i].Idle?
    ensures Enabled(s, BeginInit(i), exclusive) <==> s.writers[i].Idle? && s.file.Missing?
    ensures Enabled(s, BeginKill(i), exclusive) <==>
              s.writers[i].Idle? && (s.file.Missing? || (s.file.Text? && !ParseDocument(s.file.document).mode.Killed?)
                                     || (s.file.Text? && ReadFailClosed(s.file).1.SawCorrupt?))
  {
    FileMeans(s.file);
    ReadersAgreeUnlessMissing(s.file);
  }

  /** A crash or a deletion can come at any time; a crash gives back the lock, and nobody else's. */
  lemma CrashesAndDeletions(s: Shared, i: nat, exclusive: bool)
    requires i < |s.writers|
    ensures Enabled(s, Crash(i), exclusive) && Enabled(s, Delete, exclusive)
    ensures var s' := Next(s, Crash(i));
            && s'.file == s.file && s'.writers == s.writers[i := Idle]
            && s'.lock == if s.lock == Some(i) then None else s.lock
    ensures Next(s, Delete) == s.(file := Missing)
  {}

  ghost predicate Step(s: Shared, a: Action, s': Shared, exclusive: bool) {
    Enabled(s, a, exclusive) && s' == Next(s, a)
  }

  ghost predicate Initial(s: Shared) {
    s.lock.None? && forall i | 0 <= i < |s.writers| :: s.writers[i].Idle?
  }

  /** `ss[k]` is the state before `acts[k]`. With `exclusive` false the lock excludes nobody. */
  ghost predicate Trace(ss: seq<Shared>, acts: seq<Action>, exclusive: bool) {
    && |ss| == |acts| + 1
    && Initial(ss[0])
    && forall k | 0 <= k < |acts| :: Step(ss[k], acts[k], ss[k + 1], exclusive)
  }

  ghost predicate LockInv(s: Shared) {
    && (forall i | 0 <= i < |s.writers| :: s.writers[i].HoldsLock() ==> s.lock == Some(i))
    && (s.lock.Some? ==> s.lock.value < |s.writers| && s.writers[s.lock.value].HoldsLock())
  }

  /** What a writer between its read and its rename may still rely on. */
  ghost predicate ReadIsFresh(s: Shared, i: nat)
    requires i < |s.writers|
  {
    var w := s.writers[i];
    w.HasRead? ==> Read(s.file) == w.current && (w.op.WriteIf? ==> !s.file.Missing? && w.current == HaltState(w.op.expected, true))
  }

  lemma {:induction false} LockInvHolds(ss: seq<Shared>, acts: seq<Action>, k: nat)
    requires Trace(ss, acts, true) && k < |ss|
    ensures LockInv(ss[k]) && |ss[k].writers| == |ss[0].writers|
  {
    if k > 0 {
      LockInvHolds(ss, acts, k - 1);
      assert Step(ss[k - 1], acts[k - 1], ss[k], true);
    }
  }

  ghost predicate SinceRead(acts: seq<Action>, i: nat, r: int, k: nat)
    requires k <= |acts|
  {
    0 <= r < k && acts[r] == ReadFile(i) && forall m | r < m < k :: Actor(acts[m]) != Some(i)
  }

  /** Some unlink fell between writer `i`'s read at `r` and now, and `i` has not moved in between. */
  ghost predicate DeletedInWindow(acts: seq<Action>, i: nat, k: nat)
    requires k <= |acts|
  {
    exists r, d :: SinceRead(acts, i, r, k) && r < d < k && acts[d].Delete?
  }

  /** Between its read and its rename a writer's view is the file, until an unlink, and then the file is gone. */
  lemma {:induction false} WindowHolds(ss: seq<Shared>, acts: seq<Action>, i: nat, k: nat)
    requires Trace(ss, acts, true) && k < |ss| && i < |ss[0].writers|
    ensures i < |ss[k].writers|
    ensures ss[k].writers[i].HasRead? ==>
              && (exists r :: SinceRead(acts, i, r, k))
              && (if DeletedInWindow(acts, i, k) then ss[k].file.Missing? else ReadIsFresh(ss[k], i))
  {
    LockInvHolds(ss, acts, k);
    if k > 0 && ss[k].writers[i].HasRead? {
      var s, a := ss[k - 1], acts[k - 1];
      assert Step(s, a, ss[k], true);
      LockInvHolds(ss, acts, k - 1);
      WindowHolds(ss, acts, i, k - 1);
      if a == ReadFile(i) {
        assert SinceRead(acts, i, k - 1, k);
        forall r | SinceRead(acts, i, r, k) ensures r == k - 1 {
          assert r < k - 1 ==> Actor(acts[k - 1]) != Some(i);
        }
      } else {
        assert Actor(a) != Some(i) && s.writers[i].HasRead?;
        var r :| SinceRead(acts, i, r, k - 1);
        assert SinceRead(acts, i, r, k);
        WindowGrows(acts, i, k);
        if a.Delete? {
          assert r < k - 1 < k && acts[k - 1].Delete?;
        } else {
          assert s.lock == Some(i);
          assert ss[k].file == s.file;
        }
      }
    }
  }

  lemma WindowGrows(acts: seq<Action>, i: nat, k: nat)
    requires 0 < k <= |acts| && Actor(acts[k - 1]) != Some(i) && exists r :: SinceRead(acts, i, r, k)
    ensures DeletedInWindow(acts, i, k) <==> DeletedInWindow(acts, i, k - 1) || acts[k - 1].Delete?
  {
    if DeletedInWindow(acts, i, k - 1) {
      var r, d :| SinceRead(acts, i, r, k - 1) && r < d < k - 1 && acts[d].Delete?;
      assert SinceRead(acts, i, r, k);
    }
    if DeletedInWindow(acts, i, k) && !acts[k - 1].Delete? {
      var r, d :| SinceRead(acts, i, r, k) && r < d < k && acts[d].Delete?;
      assert SinceRead(acts, i, r, k - 1);
    }
    if acts[k - 1].Delete? {
      var r :| SinceRead(acts, i, r, k);
      assert r != k - 1;
    }
  }

  /**
   The file holds a kill, is unavailable or cannot be parsed. Whatever the writers do, in any
   order and with any failures, it still does, until somebody unlinks it.
   */
  lemma {:induction false} HaltedStaysHalted(ss: seq<Shared>, acts: seq<Action>, i: nat, j: nat)
    requires Trace(ss, acts, true) && i <= j < |ss|
    requires ss[i].file.Halted()
    requires forall k | i <= k < j :: !acts[k].Delete?
    ensures ss[j].file.Halted()
  {
    if i < j {
      HaltedStaysHalted(ss, acts, i, j - 1);
      var s, a := ss[j - 1], acts[j - 1];
      assert Step(s, a, ss[j], true);
      if a.Rename? {
        LockInvHolds(ss, acts, j - 1);
        WindowHolds(ss, acts, a.i, j - 1);
        var w := s.writers[a.i];
        MergeIsSticky(w.current, w.op.requested);
        RenderRoundTrip(MergeStickyKill(w.current, w.op.requested), a.stamp);
      }
    }
  }

  /**
   A conditional rename brings a missing file back exactly when the unlink fell inside the
   writer's own window. Otherwise it replaces a file that still reads, under the lock, what the
   writer expected; and a mirror (asking for the mode it expects) never moves it nearer to running.
   */
  lemma ConditionalWriteKeepsHalts(ss: seq<Shared>, acts: seq<Action>, k: nat)
    requires Trace(ss, acts, true) && k < |acts|
    requires acts[k].Rename? && Step(ss[k], acts[k], ss[k + 1], true) && ss[k].writers[acts[k].i].op.WriteIf?
    ensures ss[k].file.Missing? <==> DeletedInWindow(acts, acts[k].i, k)
    ensures var op := ss[k].writers[acts[k].i].op;
            !ss[k].file.Missing? ==>
              && Read(ss[k].file) == HaltState(op.expected, true)
              && Read(ss[k + 1].file) == MergeStickyKill(Read(ss[k].file), op.requested)
              && (op.requested.mode == op.expected ==> Level(Read(ss[k + 1].file)) >= Level(Read(ss[k].file)))
  {
    LockInvHolds(ss, acts, k);
    WindowHolds(ss, acts, acts[k].i, k);
    var w := ss[k].writers[acts[k].i];
    RenderRoundTrip(MergeStickyKill(w.current, w.op.requested), acts[k].stamp);
  }

  // ----- When a write moves the file nearer to running.

  /**
   Over a file that is there, a rename lowers the level of the halt exactly when the file reads suspended
   and its writer, whoever it is, asked for active.
   */
  lemma LevelDropsIff(ss: seq<Shared>, acts: seq<Action>, k: nat)
    requires Trace(ss, acts, true) && k < |acts| && acts[k].Rename? && Step(ss[k], acts[k], ss[k + 1], true)
    requires !ss[k].file.Missing?
    ensures Level(Read(ss[k + 1].file)) < Level(Read(ss[k].file)) <==>
              && Read(ss[k].file) == HaltState(Suspended, true)
              && ss[k].writers[acts[k].i].op.requested == HaltState(Active, true)
  {
    LockInvHolds(ss, acts, k);
    WindowHolds(ss, acts, acts[k].i, k);
    var w := ss[k].writers[acts[k].i];
    RenderRoundTrip(MergeStickyKill(w.current, w.op.requested), acts[k].stamp);
  }

  /** The write writer `i` began at `b` is under way at `k`: since then it has only taken the lock and read. */
  ghost predicate UnderWay(acts: seq<Action>, i: nat, b: nat, k: nat)
    requires k <= |acts|
  {
    && b < k && Actor(acts[b]) == Some(i)
    && forall m | b < m < k && Actor(acts[m]) == Some(i) :: acts[m].Acquire? || acts[m].ReadFile?
  }

  predicate CarriesOut(w: Writer, op: Op) {
    (w.Waiting? || w.Locked? || w.HasRead?) && w.op == op
  }

  lemma {:induction false} InitUnderWay(ss: seq<Shared>, acts: seq<Action>, i: nat, b: nat, k: nat)
    requires Trace(ss, acts, true) && k < |ss| && UnderWay(acts, i, b, k) && acts[b] == BeginInit(i)
    ensures i < |ss[k].writers|
    ensures CarriesOut(ss[k].writers[i], Write(HaltState(Active, true)))
  {
    assert Step(ss[k - 1], acts[k - 1], ss[k], true);
    LockInvHolds(ss, acts, k - 1);
    LockInvHolds(ss, acts, k);
    if b < k - 1 {
      InitUnderWay(ss, acts, i, b, k - 1);
    }
  }

  /** The file was missing and is not any more: some rename put there what is there now, and nothing has touched it since. */
  ghost predicate PutThere(ss: seq<Shared>, acts: seq<Action>, m: nat, r: nat)
    requires |ss| == |acts| + 1 && m < r <= |acts|
  {
    && acts[m].Rename? && ss[r].file == ss[m + 1].file
    && forall j | m < j < r :: !acts[j].Rename? && !acts[j].Delete?
  }

  lemma {:induction false} LastRename(ss: seq<Shared>, acts: seq<Action>, b: nat, r: nat) returns (m: nat)
    requires Trace(ss, acts, true) && b <= r < |ss| && ss[b].file.Missing? && !ss[r].file.Missing?
    ensures b <= m < r && PutThere(ss, acts, m, r)
  {
    assert Step(ss[r - 1], acts[r - 1], ss[r], true);
    if acts[r - 1].Rename? {
      m := r - 1;
    } else {
      assert ss[r].file == ss[r - 1].file;
      m := LastRename(ss, acts, b, r - 1);
    }
  }

  lemma {:induction false} ReadStays(ss: seq<Shared>, acts: seq<Action>, i: nat, r: nat, k: nat)
    requires Trace(ss, acts, true) && k < |ss| && SinceRead(acts, i, r, k) && i < |ss[0].writers|
    ensures i < |ss[r + 1].writers| && i < |ss[k].writers| && ss[k].writers[i] == ss[r + 1].writers[i]
  {
    LockInvHolds(ss, acts, k);
    LockInvHolds(ss, acts, r + 1);
    if r + 1 < k {
      assert SinceRead(acts, i, r, k - 1);
      ReadStays(ss, acts, i, r, k - 1);
      assert Step(ss[k - 1], acts[k - 1], ss[k], true);
    }
  }

  lemma OneRead(acts: seq<Action>, i: nat, r: nat, r': nat, k: nat)
    requires k <= |acts| && SinceRead(acts, i, r, k) && SinceRead(acts, i, r', k)
    ensures r == r'
  {
    assert Actor(acts[r]) == Some(i) && Actor(acts[r']) == Some(i);
  }

  /** Between its look and its read under the lock, another writer's rename put a suspended state in the file, and it is still there. */
  ghost predicate SuspendLanded(ss: seq<Shared>, acts: seq<Action>, i: nat, b: nat, k: nat)
    requires |ss| == |acts| + 1 && k <= |acts|
  {
    exists m: nat, r: nat ::
      && b < m < r && SinceRead(acts, i, r, k)
      && PutThere(ss, acts, m, r) && acts[m].i != i && Read(ss[m + 1].file) == HaltState(Suspended, true)
  }

  /**
   The rename of an `init_active` lowers a suspend exactly when another writer's rename of a suspended state
   fell between its unlocked look and its read, was still in the file at that read, and nobody has
   deleted the file since.
   */
  lemma InitLowersIff(ss: seq<Shared>, acts: seq<Action>, i: nat, b: nat, k: nat)
    requires Trace(ss, acts, true) && k < |acts| && UnderWay(acts, i, b, k) && acts[b] == BeginInit(i)
    requires acts[k].Rename? && acts[k].i == i
    ensures !ss[k].file.Missing? && Level(Read(ss[k + 1].file)) < Level(Read(ss[k].file)) <==>
              SuspendLanded(ss, acts, i, b, k) && !DeletedInWindow(acts, i, k)
  {
    assert Step(ss[k], acts[k], ss[k + 1], true) && Step(ss[b], acts[b], ss[b + 1], true);
    LockInvHolds(ss, acts, k);
    WindowHolds(ss, acts, i, k);
    InitUnderWay(ss, acts, i, b, k);
    var r: nat :| SinceRead(acts, i, r, k);
    assert b < r;
    assert Step(ss[r], acts[r], ss[r + 1], true);
    LockInvHolds(ss, acts, r);
    ReadStays(ss, acts, i, r, k);
    assert ss[k].writers[i].current == Read(ss[r].file);
    if !ss[k].file.Missing? {
      LevelDropsIff(ss, acts, k);
    }
    if !DeletedInWindow(acts, i, k) && Read(ss[r].file) == HaltState(Suspended, true) {
      var m := LastRename(ss, acts, b, r);
      assert b < m && acts[m].i != i;
      assert SuspendLanded(ss, acts, i, b, k);
    }
    if SuspendLanded(ss, acts, i, b, k) {
      var m: nat, r': nat :| b < m < r' && SinceRead(acts, i, r', k) && PutThere(ss, acts, m, r') && acts[m].i != i
                             && Read(ss[m + 1].file) == HaltState(Suspended, true);
      OneRead(acts, i, r, r', k);
    }
  }

  /** Every rename ends a write that began, as an init, a kill or a plain write, and is under way since. */
  lemma {:induction false} WriteHasBegun(ss: seq<Shared>, acts: seq<Action>, i: nat, k: nat) returns (b: nat)
    requires Trace(ss, acts, true) && k < |ss| && i < |ss[k].writers|
    requires ss[k].writers[i].Waiting? || ss[k].writers[i].Locked? || ss[k].writers[i].HasRead?
    ensures UnderWay(acts, i, b, k)
    ensures acts[b] in {BeginInit(i), BeginKill(i), Begin(i, ss[k].writers[i].op)}
    ensures acts[b].BeginInit? ==> ss[k].writers[i].op == Write(HaltState(Active, true))
  {
    var op := ss[k].writers[i].op;
    assert CarriesOut(ss[k].writers[i], op) && k > 0;
    var a := acts[k - 1];
    BeginsOrCarriesOn(ss[k - 1], a, ss[k], i, op);
    hide Trace, Step, CarriesOut;
    if Actor(a) == Some(i) && !a.Acquire? && !a.ReadFile? {
      b := k - 1;
    } else {
      b := WriteHasBegun(ss, acts, i, k - 1);
    }
  }

  lemma BeginsOrCarriesOn(s: Shared, a: Action, s': Shared, i: nat, op: Op)
    requires Step(s, a, s', true) && i < |s'.writers| && CarriesOut(s'.writers[i], op)
    ensures i < |s.writers|
    ensures if Actor(a) == Some(i) && !a.Acquire? && !a.ReadFile?
            then a in {BeginInit(i), BeginKill(i), Begin(i, op)} && (a.BeginInit? ==> op == Write(HaltState(Active, true)))
            else CarriesOut(s.writers[i], op)
  {}

  // ----- Runs that show the conditions above are needed.

  /** Two consecutive states of a run, checked once so that longer runs need not unfold the step again. */
  lemma Then(ss: seq<Shared>, acts: seq<Action>, a: Action, s: Shared, exclusive: bool)
    returns (ss': seq<Shared>, acts': seq<Action>)
    requires Trace(ss, acts, exclusive) && Step(ss[|acts|], a, s, exclusive)
    ensures ss' == ss + [s] && acts' == acts + [a] && Trace(ss', acts', exclusive) && ss'[|acts'|] == s
  {
    ss', acts' := ss + [s], acts + [a];
    forall k | 0 <= k < |acts'| ensures Step(ss'[k], acts'[k], ss'[k + 1], exclusive) {
      assert k < |acts| ==> Step(ss[k], acts[k], ss[k + 1], exclusive);
    }
  }

  /** Writer 0 has read an active file and has not renamed yet. */
  lemma ReaderInside(op: Op, exclusive: bool) returns (ss: seq<Shared>, acts: seq<Action>)
    requires op.requested == HaltState(Active, true) && (op.WriteIf? ==> op.expected.Active?)
    ensures Trace(ss, acts, exclusive) && acts == [Begin(0, op), Acquire(0), ReadFile(0)]
    ensures ss[3] == Shared(Text(Render(op.requested, "t0")), Some(0), [HasRead(op, op.requested), Idle])
  {
    var file := Text(Render(op.requested, "t0"));
    ss, acts := [Shared(file, None, [Idle, Idle])], [];
    ss, acts := Then(ss, acts, Begin(0, op), Shared(file, None, [Waiting(op), Idle]), exclusive);
    ss, acts := Then(ss, acts, Acquire(0), Shared(file, Some(0), [Locked(op), Idle]), exclusive);
    ss, acts := Then(ss, acts, ReadFile(0), Shared(file, Some(0), [HasRead(op, op.requested), Idle]), exclusive);
  }

  /** With a lock that excludes nobody, a kill reads the file while writer 0 is still inside. */
  lemma KillSlipsIn(reader: Writer, kill: Op) returns (ss: seq<Shared>, acts: seq<Action>)
    requires kill == Write(HaltState(Killed, true))
    requires var active := HaltState(Active, true); reader == HasRead(Write(active), active)
    ensures Trace(ss, acts, false) && |acts| == 6 && forall k | 0 <= k < 6 :: !acts[k].Delete?
    ensures exists file :: ss[6] == Shared(file, Some(1), [reader, HasRead(kill, reader.current)])
  {
    ss, acts := ReaderInside(reader.op, false);
    var file := ss[3].file;
    ss, acts := Then(ss, acts, BeginKill(1), Shared(file, Some(0), [reader, Waiting(kill)]), false);
    ss, acts := Then(ss, acts, Acquire(1), Shared(file, Some(1), [reader, Locked(kill)]), false);
    ss, acts := Then(ss, acts, ReadFile(1), Shared(file, Some(1), [reader, HasRead(kill, reader.current)]), false);
  }

  /** Without mutual exclusion a writer that read "active" renames it over a kill. */
  lemma LockIsNeeded() returns (ss: seq<Shared>, acts: seq<Action>)
    ensures Trace(ss, acts, false) && |acts| == 8 && forall k | 0 <= k < 8 :: !acts[k].Delete?
    ensures ss[7].file.Halted() && !ss[8].file.Halted()
  {
    var active, kill := HaltState(Active, true), Write(HaltState(Killed, true));
    var reader := HasRead(Write(active), active);
    ss, acts := KillSlipsIn(reader, kill);
    var file := Text(Render(kill.requested, "t1"));
    ss, acts := Then(ss, acts, Rename(1, "t1"), Shared(file, Some(1), [reader, Releasing]), false);
    file := Text(Render(active, "t2"));
    ss, acts := Then(ss, acts, Rename(0, "t2"), Shared(file, Some(1), [Releasing, Releasing]), false);
  }

  /** An unlink inside a mirror's window is undone by its rename: the missing file comes back active. */
  lemma MirrorCanUndoADelete() returns (ss: seq<Shared>, acts: seq<Action>)
    ensures Trace(ss, acts, true) && |acts| == 5 && acts[0] == Begin(0, WriteIf(Active, HaltState(Active, true)))
    ensures acts[4].Rename? && ReadFailClosed(ss[4].file).1.SawMissing? && ReadFailClosed(ss[5].file).1.SawActive?
  {
    var active := HaltState(Active, true);
    var reader := HasRead(WriteIf(Active, active), active);
    ss, acts := ReaderInside(reader.op, true);
    ss, acts := Then(ss, acts, Delete, Shared(Missing, Some(0), [reader, Idle]), true);
    var file := Text(Render(active, "t1"));
    ss, acts := Then(ss, acts, Rename(0, "t1"), Shared(file, Some(0), [Releasing, Idle]), true);
  }

  lemma SuspendLandsBeforeInit(suspend: Op, init: Op) returns (ss: seq<Shared>, acts: seq<Action>)
    requires suspend == Write(HaltState(Suspended, true)) && init == Write(HaltState(Active, true))
    ensures Trace(ss, acts, true) && |acts| == 6 && acts[0] == BeginInit(0) && forall k | 0 <= k < 6 :: !acts[k].Delete?
    ensures ss[6] == Shared(Text(Render(suspend.requested, "t1")), None, [Waiting(init), Idle])
  {
    var file := Text(Render(suspend.requested, "t1"));
    ss, acts := [Shared(Missing, None, [Idle, Idle])], [];
    ss, acts := Then(ss, acts, BeginInit(0), Shared(Missing, None, [Waiting(init), Idle]), true);
    ss, acts := Then(ss, acts, Begin(1, suspend), Shared(Missing, None, [Waiting(init), Waiting(suspend)]), true);
    ss, acts := Then(ss, acts, Acquire(1), Shared(Missing, Some(1), [Waiting(init), Locked(suspend)]), true);
    ss, acts := Then(ss, acts, ReadFile(1), Shared(Missing, Some(1), [Waiting(init), HasRead(suspend, init.requested)]), true);
    ss, acts := Then(ss, acts, Rename(1, "t1"), Shared(file, Some(1), [Waiting(init), Releasing]), true);
    ss, acts := Then(ss, acts, Release(1), Shared(file, None, [Waiting(init), Idle]), true);
  }

  /** `init_active` looks before it locks, so a suspend that lands in between is rewritten as active. */
  lemma InitCanClearASuspend() returns (ss: seq<Shared>, acts: seq<Action>)
    ensures Trace(ss, acts, true) && |acts| == 9 && acts[0] == BeginInit(0) && forall k | 0 <= k < 9 :: !acts[k].Delete?
    ensures ReadFailClosed(ss[8].file).1.SawSuspended? && ReadFailClosed(ss[9].file).1.SawActive?
  {
    var suspend, init := Write(HaltState(Suspended, true)), Write(HaltState(Active, true));
    ss, acts := SuspendLandsBeforeInit(suspend, init);
    var file, after := ss[6].file, Text(Render(init.requested, "t2"));
    ss, acts := Then(ss, acts, Acquire(0), Shared(file, Some(0), [Locked(init), Idle]), true);
    ss, acts := Then(ss, acts, ReadFile(0), Shared(file, Some(0), [HasRead(init, suspend.requested), Idle]), true);
    ss, acts := Then(ss, acts, Rename(0, "t2"), Shared(after, Some(0), [Releasing, Idle]), true);
  }

  /** One writer alone, from lock to release, does what the store object's `Write` does. */
  lemma AloneIsStoreWrite(f: HaltFile, requested: HaltState, stamp: string)
    ensures var s := Shared(f, None, [Waiting(Write(requested))]);
            var locked := Next(s, Acquire(0));
            var read := Next(locked, ReadFile(0));
            var renamed := Next(read, Rename(0, stamp));
            Next(renamed, Release(0)) == Shared(StoreWrite(f, requested, stamp, NoFault).1, None, [Idle])
  {}

  lemma AloneIsStoreWriteIf(f: HaltFile, expected: HaltMode, requested: HaltState, stamp: string)
    ensures var s := Shared(f, None, [Waiting(WriteIf(expected, requested))]);
            var read := Next(Next(s, Acquire(0)), ReadFile(0));
            var after := if read.writers[0].HasRead? then Next(read, Rename(0, stamp)) else read;
            Next(after, Release(0)) == Shared(StoreWriteIf(f, expected, requested, stamp, NoFault).1, None, [Idle])
  {}
}
