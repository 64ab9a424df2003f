/**
 The executor nursery's worker table: each session has its own sandboxed worker, one spare
 is kept for the first session, and an abort ends all of it for good.
 */
module Nursery {
  import opened Common

  /** A worker process, named by the order in which it was started. */
  type Worker = nat

  type Session = int

  datatype Refusal = Aborted | LimitReached | NotStarted

  datatype Table = Table(
    maxWorkers: nat,
    workers: map<Session, Worker>,
    spare: Option<Worker>,
    closed: bool,
    aborting: bool,
    started: nat,              // workers started so far
    stopped: set<Worker>)      // workers whose closed flag is set

  function Assign(t: Table, session: Session, w: Worker): Table {
    t.(workers := t.workers[session := w])
  }

  /** What each way to lose workers takes: a drop only that worker from that session, an abort or a close everything, for good. */
  lemma EndsMean(t: Table, session: Session, w: Worker)
    ensures Discard(t, session, w) ==
              if session in t.workers && t.workers[session] == w then t.(workers := t.workers - {session}) else t
    ensures Release(t, session).workers.Keys == t.workers.Keys - {session}
    ensures forall s | s in Release(t, session).workers :: Release(t, session).workers[s] == t.workers[s]
    ensures AbortCalls(t) == Table(t.maxWorkers, map[], None, t.closed, true, t.started, t.stopped)
    ensures CloseAll(t).closed && CloseAll(t).aborting == t.aborting && (!t.closed ==> CloseAll(t).workers == map[] && CloseAll(t).spare.None?)
  {}

  /** `starts` is whether a new worker process comes up, if one is asked for. */
  function WorkerFor(t: Table, session: Session, starts: bool): (Result<Worker, Refusal>, Table) {
    if t.closed || t.aborting then (Err(Aborted), t)
    else if session in t.workers && t.workers[session] !in t.stopped then (Ok(t.workers[session]), t)
    else
      var t1 := t.(workers := t.workers - {session});
      if t.spare.Some? && t.spare.value !in t.stopped then (Ok(t.spare.value), Assign(t1, session, t.spare.value).(spare := None))
      else if |t1.workers| >= t.maxWorkers then (Err(LimitReached), t1)
      else if !starts then (Err(NotStarted), t1)
      else (Ok(t.started), Assign(t1, session, t.started).(started := t.started + 1))
  }

  function Discard(t: Table, session: Session, w: Worker): Table {
    if session in t.workers && t.workers[session] == w then t.(workers := t.workers - {session}) else t
  }

  function Release(t: Table, session: Session): Table {
    t.(workers := t.workers - {session})
  }

  function AbortCalls(t: Table): Table {
    t.(aborting := true, workers := map[], spare := None)
  }

  function CloseAll(t: Table): Table {
    if t.closed then t else t.(closed := true, workers := map[], spare := None)
  }

  /** The nursery object; a method is what runs with the lock held. */
  class ExecutorNursery {
    const maxWorkers: nat
    var workers: map<Session, Worker>
    var spare: Option<Worker>
    var closed: bool
    var aborting: bool
    var started: nat
    var stopped: set<Worker>

    ghost function State(): Table
      reads this
    {
      Table(maxWorkers, workers, spare, closed, aborting, started, stopped)
    }

    constructor (limit: nat)
      requires limit >= 1
      ensures State() == Table(limit, map[], Some(0), false, false, 1, {})
    {
      maxWorkers := limit;
      workers, spare := map[], Some(0);
      closed, aborting := false, false;
      started, stopped := 1, {};
    }

    method GetWorker(session: Session, starts: bool) returns (r: Result<Worker, Refusal>)
      requires TableInv(State())
      modifies this
      ensures (r, State()) == WorkerFor(old(State()), session, starts)
      ensures r.Ok? ==> session in workers && workers[session] == r.value && r.value !in stopped
      ensures r.Ok? ==> forall other | other in workers && other != session :: workers[other] != r.value
      ensures r == Err(Aborted) <==> closed || aborting
      ensures !closed && !aborting && session in old(workers) && old(workers)[session] !in stopped ==>
                r == Ok(old(workers)[session]) && workers == old(workers)
      ensures r == Err(LimitReached) ==> spare.None? && |old(workers) - {session}| >= maxWorkers
    {
      WorkerForKeeps(State(), session, starts);
      WorkerForMeans(State(), session, starts);
      hide TableInv;
      if closed || aborting {
        return Err(Aborted);
      }
      if session in workers {
        var current := workers[session];
        if current !in stopped {
          return Ok(current);
        }
      }
      workers := workers - {session};
      if spare.Some? && spare.value !in stopped {
        var worker := spare.value;
        spare := None;
        workers := workers[session := worker];
        return Ok(worker);
      }
      if |workers| >= maxWorkers {
        return Err(LimitReached);
      }
      if !starts {
        return Err(NotStarted);
      }
      var worker := started;
      started := started + 1;
      workers := workers[session := worker];
      return Ok(worker);
    }

    method DiscardWorker(session: Session, w: Worker)
      modifies this`workers
      ensures State() == Discard(old(State()), session, w)
    {
      if session in workers && workers[session] == w {
        workers := workers - {session};
      }
    }

    method ReleaseSession(session: Session) returns (w: Option<Worker>)
      modifies this`workers
      ensures State() == Release(old(State()), session)
      ensures w == if session in old(workers) then Some(old(workers)[session]) else None
    {
      w := if session in workers then Some(workers[session]) else None;
      workers := workers - {session};
    }

    /** The workers to stop, once the lock is given up. */
    method TakeAllToAbort() returns (taken: set<Worker>)
      modifies this
      ensures State() == AbortCalls(old(State()))
      ensures taken == old(workers).Values + if old(spare).Some? then {old(spare).value} else {}
    {
      taken := workers.Values + if spare.Some? then {spare.value} else {};
      aborting := true;
      workers := map[];
      spare := None;
    }
  }

  // ----- Runs.

  datatype Act =
    | Call(session: Session, starts: bool)
    | Drop(session: Session, w: Worker)
    | Gone(session: Session)
    | Stop(w: Worker)         // somebody sets a worker's closed flag; nobody holds the spare
    | Abort
    | Close

  /** The table, and every worker ever given to a session, in order. */
  datatype History = History(t: Table, given: seq<(Session, Worker)>)

  predicate CanAct(s: History, a: Act) {
    a.Stop? ==> a.w < s.t.started && s.t.spare != Some(a.w)
  }

  function Next(s: History, a: Act): History {
    match a
    case Call(session, starts) =>
      var (r, t) := WorkerFor(s.t, session, starts);
      History(t, if r.Ok? then s.given + [(session, r.value)] else s.given)
    case Drop(session, w) => s.(t := Discard(s.t, session, w))
    case Gone(session) => s.(t := Release(s.t, session))
    case Stop(w) => s.(t := s.t.(stopped := s.t.stopped + {w}))
    case Abort => s.(t := AbortCalls(s.t))
    case Close => s.(t := CloseAll(s.t))
  }

  function Run(s: History, acts: seq<Act>): Option<History>
    decreases |acts|
  {
    if acts == [] then Some(s)
    else if !CanAct(s, acts[0]) then None
    else Run(Next(s, acts[0]), acts[1..])
  }

  /** The spare is there only while the table is empty, so the two together keep to the limit. */
  predicate TableInv(t: Table) {
    && t.maxWorkers >= 1
    && (t.spare.Some? ==> t.workers == map[] && t.spare.value !in t.stopped && t.spare.value < t.started)
    && |t.workers| + (if t.spare.Some? then 1 else 0) <= t.maxWorkers
    && (forall a | a in t.workers :: t.workers[a] < t.started)
    && (forall w | w in t.stopped :: w < t.started)
    && (forall a, b | a in t.workers && b in t.workers && a != b :: t.workers[a] != t.workers[b])
    && (t.aborting || t.closed ==> t.workers == map[] && t.spare.None?)
  }

  lemma RemoveShrinks(m: map<Session, Worker>, session: Session)
    ensures |m - {session}| <= |m|
  {
    assert m.Keys == (m - {session}).Keys + if session in m then {session} else {};
  }

  lemma WorkerForKeeps(t: Table, session: Session, starts: bool)
    requires TableInv(t)
    ensures TableInv(WorkerFor(t, session, starts).1)
    ensures var (r, t') := WorkerFor(t, session, starts);
            r.Ok? ==>
              && session in t'.workers && t'.workers[session] == r.value && r.value !in t'.stopped
              && !t.closed && !t.aborting
              && (r.value == t.started || t.spare == Some(r.value) || (session in t.workers && t.workers[session] == r.value))
  {
    RemoveShrinks(t.workers, session);
    var m := t.workers - {session};
    if t.spare.Some? {
      AddGrows(m, session, t.spare.value);
    } else {
      AddGrows(m, session, t.started);
    }
  }

  /** A call that yields a worker gives nobody else that worker; and what the refusals mean. */
  lemma WorkerForMeans(t: Table, session: Session, starts: bool)
    requires TableInv(t)
    ensures var (r, t') := WorkerFor(t, session, starts);
            && (r.Ok? ==> forall other | other in t'.workers && other != session :: t'.workers[other] != r.value)
            && (r == Err(LimitReached) ==> t'.spare.None? && |t.workers - {session}| >= t.maxWorkers)
  {
    WorkerForKeeps(t, session, starts);
    if t.spare.Some? {
      assert t.workers - {session} == map[];
    }
  }

  lemma AddGrows(m: map<Session, Worker>, session: Session, w: Worker)
    requires session !in m
    ensures |m[session := w]| == |m| + 1
  {
    assert m[session := w].Keys == m.Keys + {session};
  }

  predicate GivenInv(s: History) {
    && (forall k | 0 <= k < |s.given| :: s.given[k].1 < s.t.started && s.t.spare != Some(s.given[k].1))
    && (forall j, k | 0 <= j < |s.given| && 0 <= k < |s.given| && s.given[j].1 == s.given[k].1 :: s.given[j].0 == s.given[k].0)
    && (forall a | a in s.t.workers :: (a, s.t.workers[a]) in s.given)
  }

  predicate HistoryInv(s: History) {
    TableInv(s.t) && s.t.started >= 1 && GivenInv(s)
  }

  lemma CallKeeps(s: History, session: Session, starts: bool)
    requires HistoryInv(s)
    ensures HistoryInv(Next(s, Call(session, starts)))
  {
    WorkerForKeeps(s.t, session, starts);
    var (r, t) := WorkerFor(s.t, session, starts);
    if r.Ok? {
      assert session in s.t.workers ==> (session, s.t.workers[session]) in s.given;
      forall a | a in t.workers && a != session ensures a in s.t.workers && t.workers[a] == s.t.workers[a] {}
      hide TableInv, WorkerFor;
      GivenGrows(s, t, session, r.value);
    }
  }

  lemma GivenGrows(s: History, t: Table, session: Session, w: Worker)
    requires GivenInv(s) && s.t.started <= t.started && w < t.started && t.spare != Some(w)
    requires t.spare.Some? ==> s.t.spare == t.spare || forall k | 0 <= k < |s.given| :: t.spare != Some(s.given[k].1)
    requires w == s.t.started || s.t.spare == Some(w) || (session, w) in s.given
    requires forall a | a in t.workers && a != session :: a in s.t.workers && t.workers[a] == s.t.workers[a]
    requires session in t.workers && t.workers[session] == w
    ensures GivenInv(History(t, s.given + [(session, w)]))
  {
    var given := s.given + [(session, w)];
    SameSession(s, t, session, w);
    forall a | a in t.workers ensures (a, t.workers[a]) in given {
      if a == session {
        assert given[|s.given|] == (session, w);
      } else {
        assert (a, s.t.workers[a]) in s.given;
      }
    }
  }

  lemma SameSession(s: History, t: Table, session: Session, w: Worker)
    requires GivenInv(s) && s.t.started <= t.started
    requires w == s.t.started || s.t.spare == Some(w) || (session, w) in s.given
    ensures forall k | 0 <= k < |s.given| && s.given[k].1 == w :: s.given[k].0 == session
  {}

  lemma StepKeeps(s: History, a: Act)
    requires HistoryInv(s) && CanAct(s, a)
    ensures HistoryInv(Next(s, a))
  {
    hide TableInv, GivenInv, WorkerFor;
    match a
    case Call(session, starts) => CallKeeps(s, session, starts);
    case Drop(session, w) => RemovalKeeps(s, session);
    case Gone(session) => RemovalKeeps(s, session);
    case Stop(w) => StopKeeps(s, w);
    case Abort => EmptyKeeps(s, s.t.closed, true);
    case Close => EmptyKeeps(s, true, s.t.aborting);
  }

  lemma EmptyKeeps(s: History, closed: bool, aborting: bool)
    requires HistoryInv(s)
    ensures HistoryInv(s.(t := s.t.(closed := closed, aborting := aborting, workers := map[], spare := None)))
  {}

  lemma RemovalKeeps(s: History, session: Session)
    requires HistoryInv(s)
    ensures HistoryInv(s.(t := s.t.(workers := s.t.workers - {session})))
  {
    RemoveShrinks(s.t.workers, session);
  }

  lemma StopKeeps(s: History, w: Worker)
    requires HistoryInv(s) && CanAct(s, Stop(w))
    ensures HistoryInv(s.(t := s.t.(stopped := s.t.stopped + {w})))
  {}

  lemma StepsAreFinal(s: History, a: Act)
    requires HistoryInv(s)
    ensures var s' := Next(s, a);
            && s'.t.maxWorkers == s.t.maxWorkers
            && (s.t.aborting ==> s'.t.aborting) && (s.t.closed ==> s'.t.closed)
            && (s.t.aborting || s.t.closed ==> s'.given == s.given)
  {}

  /**
   In every run: assigned workers and the spare never exceed the limit; no worker is ever given to two
   sessions, not even at different times; and once calls are aborted no session is given a worker again.
   */
  lemma {:induction false} WorkersOverARun(s: History, acts: seq<Act>)
    requires HistoryInv(s) && Run(s, acts).Some?
    ensures var s' := Run(s, acts).value;
            && HistoryInv(s') && s'.t.maxWorkers == s.t.maxWorkers
            && |s'.t.workers| + (if s'.t.spare.Some? then 1 else 0) <= s.t.maxWorkers
            && (forall j, k | 0 <= j < |s'.given| && 0 <= k < |s'.given| && s'.given[j].1 == s'.given[k].1 ::
                      s'.given[j].0 == s'.given[k].0)
            && (s.t.aborting || s.t.closed ==> s'.given == s.given && s'.t.workers == map[] && s'.t.spare.None?)
            && (s.t.aborting ==> s'.t.aborting) && (s.t.closed ==> s'.t.closed)
    decreases |acts|
  {
    if acts != [] {
      StepKeeps(s, acts[0]);
      StepsAreFinal(s, acts[0]);
      WorkersOverARun(Next(s, acts[0]), acts[1..]);
      hide HistoryInv, Next, CanAct;
    }
  }

  lemma StartInv(maxWorkers: nat)
    requires maxWorkers >= 1
    ensures HistoryInv(History(Table(maxWorkers, map[], Some(0), false, false, 1, {}), []))
  {}

  // ----- Live processes.

  /** Started, and its closed flag not set. */
  function Live(t: Table): set<Worker> {
    set w: Worker | w < t.started && w !in t.stopped
  }

  /** A worker that was stopped is live no longer, and every other one is as before. */
  lemma StopMeans(s: History, w: Worker)
    ensures Live(Next(s, Stop(w)).t) == Live(s.t) - {w}
    ensures Next(s, Stop(w)).given == s.given && Next(s, Stop(w)).t.workers == s.t.workers && Next(s, Stop(w)).t.spare == s.t.spare
  {}

  /** The workers of the sessions. */
  function Assigned(t: Table): set<Worker> { set a | a in t.workers.Keys :: t.workers[a] }

  function LiveAssigned(t: Table): set<Worker> { Assigned(t) - t.stopped }

  function Spare(t: Table): set<Worker> { if t.spare.Some? then {t.spare.value} else {} }

  /** Live, but no session's and not the spare: dropped from the table and not stopped yet. */
  function Loose(t: Table): set<Worker> { Live(t) - LiveAssigned(t) - Spare(t) }

  lemma {:induction false} ImageCount(m: map<Session, Worker>, ks: set<Session>)
    requires ks <= m.Keys && forall a, b | a in ks && b in ks && a != b :: m[a] != m[b]
    ensures |set a | a in ks :: m[a]| == |ks|
  {
    if ks != {} {
      assert (forall x :: x !in ks) ==> ks == {};
      var a :| a in ks;
      var rest := ks - {a};
      ImageCount(m, rest);
      assert (set b | b in ks :: m[b]) == (set b | b in rest :: m[b]) + {m[a]};
    }
  }

  lemma SplitCount(all: set<Worker>, a: set<Worker>, b: set<Worker>)
    requires a <= all && b <= all && a !! b
    ensures |all| == |a| + |b| + |all - a - b|
  {
    assert all == (a + b) + (all - a - b);
  }

  lemma AssignedLive(t: Table)
    requires TableInv(t)
    ensures |LiveAssigned(t)| <= |t.workers|
    ensures (forall a | a in t.workers :: t.workers[a] !in t.stopped) ==> |LiveAssigned(t)| == |t.workers|
  {
    ImageCount(t.workers, t.workers.Keys);
    hide TableInv;
    Subset(LiveAssigned(t), Assigned(t));
    if forall a | a in t.workers :: t.workers[a] !in t.stopped {
      assert LiveAssigned(t) == Assigned(t);
    }
  }

  lemma PartsAreLive(t: Table)
    requires TableInv(t)
    ensures LiveAssigned(t) <= Live(t) && Spare(t) <= Live(t) && LiveAssigned(t) !! Spare(t)
  {
    assert t.spare.Some? ==> Assigned(t) == {};
  }

  /** Every live worker is a session's, the spare or loose; a table without stopped workers has one live worker a session. */
  lemma LiveSplits(t: Table)
    requires TableInv(t)
    ensures |Live(t)| == |LiveAssigned(t)| + |Spare(t)| + |Loose(t)|
    ensures |LiveAssigned(t)| <= |t.workers|
    ensures (forall a | a in t.workers :: t.workers[a] !in t.stopped) ==>
              |LiveAssigned(t)| == |t.workers| && |Live(t)| == |t.workers| + |Spare(t)| + |Loose(t)|
  {
    hide TableInv, Live, LiveAssigned, Spare;
    AssignedLive(t);
    PartsAreLive(t);
    SplitCount(Live(t), LiveAssigned(t), Spare(t));
  }

  lemma Subset(a: set<Worker>, b: set<Worker>)
    requires a <= b
    ensures |a| <= |b|
  {
    assert b == a + (b - a);
  }

  /** The call has a new worker process started. */
  predicate Starts(t: Table, a: Act) {
    a.Call? && WorkerFor(t, a.session, a.starts).1.started > t.started
  }

  predicate WithinLimit(t: Table) { |Live(t)| <= t.maxWorkers }

  /** The loose workers fit beside the sessions' own and the one to be started. */
  predicate HasRoom(t: Table) { |Loose(t)| <= t.maxWorkers - 1 - |LiveAssigned(t)| }

  lemma StartingCall(t: Table, session: Session, starts: bool)
    requires TableInv(t) && Starts(t, Call(session, starts))
    ensures var t' := WorkerFor(t, session, starts).1;
            && t'.started == t.started + 1 && t'.stopped == t.stopped && t'.maxWorkers == t.maxWorkers
            && t.spare.None? && t.started !in t.stopped
  {}

  /** A start adds one live worker, and happens only when there is no spare. */
  lemma StartAddsOne(t: Table, session: Session, starts: bool)
    requires TableInv(t) && Starts(t, Call(session, starts))
    ensures var t' := WorkerFor(t, session, starts).1;
            |Live(t')| == |Live(t)| + 1 && t'.maxWorkers == t.maxWorkers && Spare(t) == {}
  {
    hide *;
    StartingCall(t, session, starts);
    OneMoreLive(t, WorkerFor(t, session, starts).1);
    NoSpare(t);
  }

  lemma NoSpare(t: Table)
    ensures t.spare.None? ==> Spare(t) == {}
  {}

  lemma OneMoreLive(t: Table, t': Table)
    requires t'.started == t.started + 1 && t'.stopped == t.stopped && t.started !in t.stopped
    ensures |Live(t')| == |Live(t)| + 1
  {
    assert Live(t') == Live(t) + {t.started};
  }

  /** A call that starts a worker keeps the live workers within the limit exactly when the loose ones leave it room. */
  lemma StartKeepsLimitIff(t: Table, session: Session, starts: bool)
    requires TableInv(t) && Starts(t, Call(session, starts))
    ensures WithinLimit(WorkerFor(t, session, starts).1) <==> HasRoom(t)
    ensures (forall a | a in t.workers :: t.workers[a] !in t.stopped) ==>
              (WithinLimit(WorkerFor(t, session, starts).1) <==> |Loose(t)| <= t.maxWorkers - 1 - |t.workers|)
  {
    hide Live, Loose, LiveAssigned, Spare, WorkerFor, TableInv, Starts;
    LiveSplits(t);
    StartAddsOne(t, session, starts);
  }

  /** No other step brings a worker to life. */
  lemma OnlyStartsAdd(s: History, a: Act)
    requires HistoryInv(s) && CanAct(s, a) && !Starts(s.t, a)
    ensures WithinLimit(s.t) ==> WithinLimit(Next(s, a).t)
  {
    assert Next(s, a).t.started == s.t.started && Next(s, a).t.maxWorkers == s.t.maxWorkers;
    Subset(Live(Next(s, a).t), Live(s.t));
  }

  /** In every state of the run the live workers are within the limit. */
  predicate AlwaysWithin(s: History, acts: seq<Act>)
    requires Run(s, acts).Some?
    decreases |acts|
  {
    WithinLimit(s.t) && (acts != [] ==> AlwaysWithin(Next(s, acts[0]), acts[1..]))
  }

  /** At every call of the run that starts a worker the loose ones leave it room. */
  predicate AlwaysRoom(s: History, acts: seq<Act>)
    requires Run(s, acts).Some?
    decreases |acts|
  {
    acts != [] ==> (Starts(s.t, acts[0]) ==> HasRoom(s.t)) && AlwaysRoom(Next(s, acts[0]), acts[1..])
  }

  /** Over every run: the live workers never exceed the limit if and only if each worker is started with room for it. */
  lemma {:induction false} LiveWithinLimitIff(s: History, acts: seq<Act>)
    requires HistoryInv(s) && Run(s, acts).Some? && WithinLimit(s.t)
    ensures AlwaysWithin(s, acts) <==> AlwaysRoom(s, acts)
    decreases |acts|
  {
    if acts != [] {
      var s1 := Next(s, acts[0]);
      StepKeeps(s, acts[0]);
      if Starts(s.t, acts[0]) {
        StartKeepsLimitIff(s.t, acts[0].session, acts[0].starts);
      } else {
        OnlyStartsAdd(s, acts[0]);
      }
      hide HistoryInv, WithinLimit, HasRoom, Starts, WorkerFor;
      if WithinLimit(s1.t) {
        LiveWithinLimitIff(s1, acts[1..]);
      } else {
        assert !AlwaysWithin(s1, acts[1..]);
      }
    }
  }

  /**
   The limit is on the table, not on processes: with a limit of one, a released worker that has not been
   stopped yet and its successor are both alive.
   */
  lemma ReleasedWorkerOutlivesLimit()
    ensures var start := History(Table(1, map[], Some(0), false, false, 1, {}), []);
            var end := Run(start, [Call(7, true), Gone(7), Call(8, true)]);
            && end.Some? && end.value.given == [(7, 0), (8, 1)]
            && end.value.t.stopped == {} && end.value.t.started == 2
            && |Live(end.value.t)| == 2 && end.value.t.maxWorkers == 1
  {
    var start := History(Table(1, map[], Some(0), false, false, 1, {}), []);
    var s1 := History(Table(1, map[7 := 0], None, false, false, 1, {}), [(7, 0)]);
    var s2 := History(Table(1, map[], None, false, false, 1, {}), [(7, 0)]);
    var s3 := History(Table(1, map[8 := 1], None, false, false, 2, {}), [(7, 0), (8, 1)]);
    assert Next(start, Call(7, true)) == s1 by { assert start.t.workers - {7} == map[]; }
    assert Next(s1, Gone(7)) == s2 by { assert s1.t.workers - {7} == map[]; }
    assert Next(s2, Call(8, true)) == s3 by { assert s2.t.workers - {8} == map[]; }
    hide Next;
    BothLive(s3.t);
    var acts := [Call(7, true), Gone(7), Call(8, true)];
    assert acts[1..][1..] == acts[2..] && acts[2..][1..] == [];
    assert Run(s3, []) == Some(s3);
    assert Run(s2, acts[2..]) == Some(s3);
    assert Run(s1, acts[1..]) == Some(s3);
  }

  lemma BothLive(t: Table)
    requires t.started == 2 && t.stopped == {}
    ensures |Live(t)| == 2
  {
    assert Live(t) == {0, 1};
  }
}
