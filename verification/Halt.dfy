/**
 The halt file: what a document means to each reader, how a write merges with
 the file it finds, and the store object that does read, merge and rename.
 */
module Halt {
  import opened Common

  datatype HaltMode = Active | Suspended | Killed

  datatype HaltState = HaltState(mode: HaltMode, available: bool) {
    /** A kill, or an unavailable enforcement point: both deny everything. */
    predicate Halted() {
      mode.Killed? || !available
    }
  }

  const KILLED_UNAVAILABLE := HaltState(Killed, false)

  /** A member of the JSON object: not present, of the right kind, or of a wrong kind. */
  datatype Field<+T> = Absent | Present(value: T) | Malformed

  datatype Document =
    | NotJson
    | NotObject
    | Object(schemaMatches: bool, mode: Field<HaltMode>, available: Field<bool>, updatedAt: Field<string>)

  datatype HaltFile = Missing | Unreadable | Text(document: Document) {
    predicate Halted() {
      && !Missing?
      && Read(this).Halted()
    }
  }

  /** What the host's reader says it saw. */
  datatype Observed = SawMissing | SawUnreadable | SawCorrupt | SawActive | SawSuspended | SawKilled

  function ParseDocument(d: Document): HaltState {
    match d
    case NotJson => KILLED_UNAVAILABLE
    case NotObject => KILLED_UNAVAILABLE
    case Object(schemaMatches, mode, available, updatedAt) =>
      if !schemaMatches || !mode.Present? || available.Malformed? || updatedAt.Malformed? then KILLED_UNAVAILABLE
      else HaltState(mode.value, if available.Present? then available.value else true)
  }

  function Render(s: HaltState, stamp: string): Document {
    Object(true, Present(s.mode), Present(s.available), Present(stamp))
  }

  /** The library reader: a missing file is active, anything else that cannot be read is a kill. */
  function Read(f: HaltFile): HaltState {
    match f
    case Missing => HaltState(Active, true)
    case Unreadable => KILLED_UNAVAILABLE
    case Text(d) => ParseDocument(d)
  }

  function ReadExisting(f: HaltFile): Option<HaltState> {
    if f.Missing? then None else Some(Read(f))
  }

  predicate LooksCorrupt(d: Document) {
    match d
    case NotJson => true
    case NotObject => true
    case Object(schemaMatches, mode, available, _) => !schemaMatches || !mode.Present? || available.Malformed?
  }

  /** The host's reader: any doubt is halted, and a missing file is not active. */
  function ReadFailClosed(f: HaltFile): (HaltState, Observed) {
    match f
    case Missing => (KILLED_UNAVAILABLE, SawMissing)
    case Unreadable => (KILLED_UNAVAILABLE, SawUnreadable)
    case Text(d) =>
      var s := ParseDocument(d);
      if s.Halted() then
        if s == KILLED_UNAVAILABLE && LooksCorrupt(d) then (s, SawCorrupt) else (s, SawKilled)
      else if s.mode.Suspended? then (s, SawSuspended)
      else (s, SawActive)
  }

  // ----- What a document says, with no reader in it.

  /** An object of this schema, with a mode and with no member of a wrong kind. */
  predicate WellFormed(d: Document) {
    && d.Object? && d.schemaMatches && d.mode.Present?
    && !d.available.Malformed? && !d.updatedAt.Malformed?
  }

  /** A document that lets the enforcement point run in `mode`. */
  predicate Runs(d: Document, mode: HaltMode) {
    && WellFormed(d)
    && d.mode == Present(mode) && mode in {Active, Suspended}
    && d.available in {Absent, Present(true)}
  }

  /** A file that says exactly this. */
  predicate Says(f: HaltFile, mode: HaltMode, available: bool) {
    && f.Text? && WellFormed(f.document)
    && f.document.mode == Present(mode)
    && (available <==> f.document.available in {Absent, Present(true)})
  }

  /** Every document that is not well formed reads as a kill; a well-formed one reads as what is written in it. */
  lemma DocumentMeans(d: Document)
    ensures !WellFormed(d) ==> ParseDocument(d) == HaltState(Killed, false)
    ensures WellFormed(d) ==>
              && ParseDocument(d).mode == d.mode.value
              && (ParseDocument(d).available <==> d.available in {Absent, Present(true)})
    ensures !ParseDocument(d).Halted() <==> Runs(d, Active) || Runs(d, Suspended)
  {}

  /** What both readers make of every file, by the document in it alone. */
  lemma FileMeans(f: HaltFile)
    ensures f.Text? ==> (Read(f) == HaltState(Active, true) <==> Runs(f.document, Active))
    ensures f.Text? ==> (Read(f) == HaltState(Suspended, true) <==> Runs(f.document, Suspended))
    ensures f.Halted() <==> f.Unreadable? || (f.Text? && !Runs(f.document, Active) && !Runs(f.document, Suspended))
    ensures match ReadFailClosed(f).1
            case SawMissing => f.Missing?
            case SawUnreadable => f.Unreadable?
            case SawActive => f.Text? && Runs(f.document, Active)
            case SawSuspended => f.Text? && Runs(f.document, Suspended)
            case SawCorrupt =>
              && f.Text?
              && !(f.document.Object? && f.document.schemaMatches && f.document.mode.Present? && !f.document.available.Malformed?)
            case SawKilled =>
              && f.Text? && f.document.Object? && f.document.schemaMatches && f.document.mode.Present?
              && !f.document.available.Malformed?
              && (f.document.updatedAt.Malformed? || f.document.mode == Present(Killed) || f.document.available == Present(false))
    ensures f.Missing? || !WellFormedText(f) ==> ReadFailClosed(f).0 == HaltState(Killed, false)
    ensures f.Missing? ==> Read(f) == HaltState(Active, true)
    ensures forall mode, available :: Says(f, mode, available) ==> Read(f) == ReadFailClosed(f).0 == HaltState(mode, available)
  {
    if f.Text? {
      DocumentMeans(f.document);
    }
  }

  predicate WellFormedText(f: HaltFile) { f.Text? && WellFormed(f.document) }

  /** The file is there, readable, active and available. */
  predicate ActiveFile(f: HaltFile) {
    f.Text? && Read(f) == HaltState(Active, true)
  }

  /** The two readers differ on a missing file and nowhere else. */
  lemma ReadersAgreeUnlessMissing(f: HaltFile)
    ensures ReadFailClosed(f).0 == Read(f) <==> !f.Missing?
    ensures ReadFailClosed(f).1.SawActive? <==> ActiveFile(f)
    ensures ReadFailClosed(f).1.SawSuspended? <==> f.Text? && Read(f) == HaltState(Suspended, true)
    ensures f.Halted() <==> ReadFailClosed(f).1 in {SawUnreadable, SawCorrupt, SawKilled}
  {
    if f.Text? {
      var s := ParseDocument(f.document);
      if LooksCorrupt(f.document) {
        assert s == KILLED_UNAVAILABLE;
      }
    }
  }

  function MergeStickyKill(current: HaltState, requested: HaltState): HaltState {
    var available := current.available && requested.available;
    HaltState(if current.mode.Killed? || requested.mode.Killed? then Killed else requested.mode, available)
  }

  /** How far a state is from running: active, suspended, halted. */
  function Level(s: HaltState): nat {
    if s.Halted() then 2 else if s.mode.Suspended? then 1 else 0
  }

  /** A merge is halted exactly when either side is, and asking again changes nothing. */
  lemma MergeIsSticky(current: HaltState, requested: HaltState)
    ensures MergeStickyKill(current, requested).Halted() <==> current.Halted() || requested.Halted()
    ensures Level(MergeStickyKill(current, requested)) >= Level(requested)
    ensures MergeStickyKill(current, requested).mode.Killed? <==> current.mode.Killed? || requested.mode.Killed?
    ensures MergeStickyKill(current, requested).available <==> current.available && requested.available
    ensures !current.mode.Killed? ==> MergeStickyKill(current, requested).mode == requested.mode
    ensures MergeStickyKill(MergeStickyKill(current, requested), requested) == MergeStickyKill(current, requested)
  {}

  lemma RenderRoundTrip(s: HaltState, stamp: string)
    ensures ParseDocument(Render(s, stamp)) == s
    ensures Says(Text(Render(s, stamp)), s.mode, s.available)
    ensures Text(Render(s, stamp)).Halted() <==> s.Halted()
  {}

  /** Where one write fails: taking the lock, before the rename, or after it (directory fsync). */
  datatype Fault = NoFault | LockFault | PersistFault | SyncFault

  datatype StoreError = StoreError

  /** One halt file and the object that writes it. Between calls other processes may change `file`. */
  class HaltStore {
    var file: HaltFile

    constructor (f: HaltFile)
      ensures file == f
    {
      file := f;
    }

    method ReadLocked() returns (s: HaltState)
      ensures s == Read(file)
    {
      match file {
        case Missing => s := HaltState(Active, true);
        case Unreadable => s := KILLED_UNAVAILABLE;
        case Text(d) => s := ParseDocument(d);
      }
    }

    /** Persist `s`: on `PersistFault` the old file stays, on `SyncFault` the rename has already landed. */
    method WriteUnlocked(s: HaltState, stamp: string, fault: Fault) returns (r: Result<(), StoreError>)
      requires !fault.LockFault?
      modifies this
      ensures r.Ok? <==> fault.NoFault?
      ensures fault.PersistFault? ==> file == old(file)
      ensures !fault.PersistFault? ==> file == Text(Render(s, stamp))
    {
      if fault.PersistFault? {
        return Err(StoreError);
      }
      file := Text(Render(s, stamp));
      if fault.SyncFault? {
        return Err(StoreError);
      }
      return Ok(());
    }

    method Write(requested: HaltState, stamp: string, fault: Fault) returns (r: Result<HaltState, StoreError>)
      modifies this
      ensures r.Ok? <==> fault.NoFault?
      ensures r.Ok? ==> r.value == Read(file) == MergeStickyKill(old(Read(file)), requested)
      ensures file == old(file) || Read(file) == MergeStickyKill(old(Read(file)), requested)
      ensures old(file.Halted()) ==> file.Halted()
      ensures file.Missing? ==> !r.Ok?
      ensures (r, file) == StoreWrite(old(file), requested, stamp, fault)
    {
      if fault.LockFault? {
        return Err(StoreError);
      }
      var current := ReadLocked();
      var next := MergeStickyKill(current, requested);
      var landed := WriteUnlocked(next, stamp, fault);
      if landed.Err? {
        return Err(StoreError);
      }
      return Ok(next);
    }

    method WriteIf(expected: HaltMode, requested: HaltState, stamp: string, fault: Fault)
      returns (r: Result<(Option<HaltState>, bool), StoreError>)
      modifies this
      ensures r.Ok? && r.value.1 ==>
                && old(file.Text?) && old(Read(file)) == HaltState(expected, true)
                && r.value.0 == Some(Read(file)) && Read(file) == MergeStickyKill(old(Read(file)), requested)
      ensures r.Ok? && !r.value.1 ==> file == old(file) && r.value.0 == ReadExisting(file)
      ensures var expects := !old(file.Missing?) && old(Read(file)) == HaltState(expected, true);
              && (r.Ok? <==> !fault.LockFault? && (!expects || fault.NoFault?))
              && (r.Ok? ==> (r.value.1 <==> expects))
              && (expects && (fault.NoFault? || fault.SyncFault?) ==> Read(file) == MergeStickyKill(old(Read(file)), requested))
              && (fault.LockFault? || fault.PersistFault? ==> file == old(file))
      ensures old(Read(file)) != HaltState(expected, true) || old(file.Missing?) ==> file == old(file)
      ensures (r, file) == StoreWriteIf(old(file), expected, requested, stamp, fault)
    {
      if fault.LockFault? {
        return Err(StoreError);
      }
      if file.Missing? {
        return Ok((None, false));
      }
      var current := ReadLocked();
      if current.mode != expected || !current.available {
        return Ok((Some(current), false));
      }
      var next := MergeStickyKill(current, requested);
      var landed := WriteUnlocked(next, stamp, fault);
      if landed.Err? {
        return Err(StoreError);
      }
      return Ok((Some(next), true));
    }

    /** The operator's first start: an active file appears, or nothing changes. */
    method InitActive(stamp: string, fault: Fault) returns (r: Result<HaltState, StoreError>)
      modifies this
      ensures r.Ok? ==> file.Text? && r.value == Read(file) == HaltState(Active, true)
      ensures !old(file.Missing?) ==> file == old(file)
      ensures old(file.Text?) && old(Read(file)) == HaltState(Active, true) ==> r.Ok?
      ensures old(file.Missing?) ==> (r.Ok? <==> fault.NoFault?)
      ensures old(file.Missing?) ==> file == StoreWrite(old(file), HaltState(Active, true), stamp, fault).1
    {
      var (state, observed) := ReadFailClosed(file);
      if observed.SawMissing? {
        r := Write(HaltState(Active, true), stamp, fault);
        if r.Ok? && (!r.value.mode.Active? || !r.value.available) {
          return Err(StoreError);
        }
        return r;
      }
      if observed.SawActive? {
        return Ok(state);
      }
      return Err(StoreError);
    }

    /** The operator's kill: success means the file now reads killed; failure never clears a halt. */
    method WriteKilled(stamp: string, fault: Fault) returns (r: Result<HaltState, StoreError>)
      modifies this
      ensures r.Ok? ==> file.Text? && r.value == Read(file) && r.value.mode.Killed?
      ensures r.Ok? <==>
                && !old(file.Unreadable?)
                && (fault.NoFault? || (old(ReadFailClosed(file)).1.SawKilled? && old(Read(file)).mode.Killed?))
      ensures file == if old(file.Unreadable?) || (old(ReadFailClosed(file)).1.SawKilled? && old(Read(file)).mode.Killed?)
                      then old(file) else StoreWrite(old(file), HaltState(Killed, true), stamp, fault).1
      ensures old(file.Halted()) ==> file.Halted()
    {
      var (state, observed) := ReadFailClosed(file);
      if observed.SawUnreadable? {
        return Err(StoreError);
      }
      if observed.SawKilled? && state.mode.Killed? {
        return Ok(state);
      }
      var written := Write(HaltState(Killed, true), stamp, fault);
      if written.Err? {
        return Err(StoreError);
      }
      if !written.value.mode.Killed? {
        return Err(StoreError);
      }
      var (confirmed, after) := ReadFailClosed(file);
      if !after.SawKilled? || !confirmed.mode.Killed? {
        return Err(StoreError);
      }
      return Ok(confirmed);
    }
  }

  // ----- The same two writes as functions of the file, for callers that reason about whole runs.

  function Persisted(f: HaltFile, s: HaltState, stamp: string, fault: Fault): HaltFile {
    if fault.NoFault? || fault.SyncFault? then Text(Render(s, stamp)) else f
  }

  function StoreWrite(f: HaltFile, requested: HaltState, stamp: string, fault: Fault)
    : (Result<HaltState, StoreError>, HaltFile)
  {
    var next := MergeStickyKill(Read(f), requested);
    (if fault.NoFault? then Ok(next) else Err(StoreError), Persisted(f, next, stamp, fault))
  }

  function StoreWriteIf(f: HaltFile, expected: HaltMode, requested: HaltState, stamp: string, fault: Fault)
    : (Result<(Option<HaltState>, bool), StoreError>, HaltFile)
  {
    if fault.LockFault? then (Err(StoreError), f)
    else if f.Missing? || Read(f) != HaltState(expected, true) then (Ok((ReadExisting(f), false)), f)
    else
      var next := MergeStickyKill(Read(f), requested);
      (if fault.NoFault? then Ok((Some(next), true)) else Err(StoreError), Persisted(f, next, stamp, fault))
  }
}
