# Verification of the policy enforcement point and its reference host

This project models the enforcement point of the agent control lab and the reference host around
it, and proves what they promise: a halt that stays, grants that are spent at most once, a fence
that nothing passes after a kill, tool entries that each rest on a grant minted for them, a denial
log that accounts for every denial, and several small algorithms that must agree with a plain
definition on every input.

`dafny verify dfyconfig.toml` checks everything.

## How it is laid out

* **Halt file.** `Halt.dfy` has the document, its two readers, the sticky merge and the store object
  that reads, merges and renames. `HaltProtocol.dfy` splits each write into acquire, read, rename and
  release and lets any number of processes interleave, crash, fail and delete.
* **Enforcement point.** `Approval.dfy` and `ApprovalStore.dfy` are the grants, with host observers that
  call back into the store while it is locked. `Runtime.dfy` and `PepRuntime.dfy` are the mode, the fence
  and the entry tickets. `Policy.dfy` and `Evaluate.dfy` are the decision and the rule it refines.
  `Gate.dfy` is begin and complete. `GateRuns.dfy`, `FenceRuns.dfy` and `GateGrants.dfy` interleave any
  number of admissions, completions, kills and other calls, one locked section at a time; `GateAlone.dfy`
  has those sections, undisturbed, make up the whole calls.
* **Reference host.** `HostGrants.dfy` names connections and selects grants; `HostServer.dfy` is the host
  object with its sessions, their grants and one request at a time; `HostRuns.dfy` and `EndToEnd.dfy`
  interleave many requests over the gate, and `EntryRun.dfy` has a run of it that enters a tool.
  `DenialLog.dfy` is the coalescing window, its drain at shutdown and the accounting over whole runs;
  `DrainRuns.dfy` is what denials that outlive the drain can still do.
  `LogLines.dfy`, `DecisionLog.dfy` and `RecordBound.dfy` are the append-only log. `Nursery.dfy` is the
  executor's worker table.
* **Small algorithms.** `Canonical.dfy` (over `Json.dfy`) is the sorted-key ASCII printer and a reader for
  it; `Nesting.dfy` the one-pass depth scan; `Seccomp.dfy` the filter compiler and a BPF machine;
  `Frames.dfy` the length-prefixed frames; `Claims.dfy` the claim checker; `PatchLines.dfy` the audit's
  line mapper.

An object whose methods change its fields is a class whose methods equal a function of the old state;
whole-run theorems are about that function. A section that runs under one lock is one step. What an
observer, another thread or another process does is a list of calls, chosen freely.

Results worth knowing before changing the code:

* The conditional mirror write never makes a file less halted, but it recreates a file that is deleted
  between its read and its rename (`HaltProtocol.MirrorCanUndoADelete`), which the comment in
  `pep/host/server.py:1411-1414` rules out; it happens exactly when a delete falls in that window.
* No write lowers a file that is there, except that one asking for an active file lowers a suspend
  (`HaltProtocol.LevelDropsIff`). `init_active` looks outside the lock, so it can do that, which
  `pep/host/server.py:321-327` rules out (`HaltProtocol.InitCanClearASuspend` is such a run): exactly when
  another writer's suspend landed between its look and its read and is still there
  (`HaltProtocol.InitLowersIff`).
* A resume without an expected mode opens memory before it writes, so a write that fails before the rename
  leaves memory open over a suspended or halted file. `Runtime.BehindIff` has every call that leaves memory
  less halted than the file; a conditional resume or suspend, which is what the host uses, is among them
  only over a halted file.
* The canonical printer gives a split surrogate pair and the character it encodes the same text
  (`Canonical.SplitPairCollides`); on values as `json.loads` returns them it is injective up to key order.
* An allow list of more than 255 numbers wraps the filter's eight-bit jump offsets (`Seccomp.WorksIffShort`).
* At the end of a shutdown drain, a late denial can still stay in a held count that no line ever carries,
  exactly when more denials hold their own log ticket than a window writes lines for; with the defaults of 30
  lines and 8 connections only callers in the process can bring that many. A window can still open too early
  exactly when a denial holds its ticket and the last window is younger than a window by the clock at the
  drain's end; with the defaults of one second and ten that window must have opened during the drain
  (`DrainRuns.LateDenialsIff`; `DenialRuns.TimedOutDrainLosesCount` is a run). Calls that only hang in a tool
  hold no such ticket and do neither (`DrainRuns.HungCallsHoldNothing`).
* An unencodable record leaves a gap in the log's sequence numbers, and a failed sync repeats one
  (`DecisionLogs.GapAndRepeat`).
* A hunk without context that only inserts shifts the audit's number for the line before it
  (`PatchLines.BareInsertionIsOffByOne`). `git apply`, which comes first, takes such a hunk only at the end of
  the file, and `_owner` never asks for that line, so no wrong number is used (`PatchLines.AskedLinesAreRight`).
* The worker limit bounds the table, not the processes that `pep/host/executor.py:134-135` speaks of: a
  released worker lives on until it is stopped (`Nursery.ReleasedWorkerOutlivesLimit`). Live workers keep
  to the limit exactly in the runs that start each worker with room beside the ones not stopped yet
  (`Nursery.LiveWithinLimitIff`).

## Model

| member | source | states |
|---|---|---|
| Halt.DocumentMeans | pep/halt.py:271-297 | by the document alone: a document that is not well formed reads as killed and unavailable, a well-formed one as it says, and exactly which documents do not halt |
| Halt.FileMeans | pep/host/haltfile.py:37-77 | by the file alone: each answer of the host's reader and each halt of both readers |
| Halt.ReadersAgreeUnlessMissing | pep/host/haltfile.py:37-77 | the host's reader and the library's reader agree on every file but a missing one, and which answers the host's reader gives for which files |
| Halt.MergeIsSticky | pep/halt.py:300-309 | a merge is halted or killed exactly when either side is, otherwise takes the mode asked for, is available when both are, and is idempotent |
| Halt.HaltStore.Write | pep/halt.py:97-112 | a write lands the merge with what it found or leaves the file, never clears a halt, and reports the state that is now on disk |
| Halt.HaltStore.WriteIf | pep/halt.py:114-137 | a conditional write lands only on a file that was there and read the expected mode, available; otherwise the file is untouched and reported as it is |
| Halt.HaltStore.InitActive | pep/host/haltfile.py:80-96 | init creates an active file only where there was none, and success means the file reads active; what a failed write leaves |
| Halt.HaltStore.WriteKilled | pep/host/haltfile.py:99-125 | success means the file now reads killed, exactly when it can succeed, and failure never clears a halt |
| HaltProtocol.HaltedStaysHalted | pep/halt.py:97-137 | in every interleaving of any number of writers, crashes and failures, a halted file stays halted as long as nobody deletes it |
| HaltProtocol.WindowHolds | pep/halt.py:143-173 | between its read and its rename a writer's view is the file, or the file has been deleted in between |
| HaltProtocol.ConditionalWriteKeepsHalts | pep/halt.py:114-137 | a conditional rename recreates a missing file exactly when a delete fell in its window, and never lowers a file that is there |
| HaltProtocol.LockIsNeeded | pep/halt.py:143-173 | with a lock that excludes nobody a kill is overwritten by an active state |
| HaltProtocol.MirrorCanUndoADelete | pep/host/server.py:1410-1418 | a deletion inside the mirror's window comes back as an active file |
| HaltProtocol.LevelDropsIff | pep/halt.py:97-137 | in every interleaving a rename makes a file that is there less halted exactly when it reads suspended and the writer asks for active |
| HaltProtocol.InitLowersIff | pep/host/haltfile.py:80-96 | an init lowers a suspend exactly when another writer's suspend landed between its look and its read, was still there, and no delete followed |
| HaltProtocol.InitCanClearASuspend | pep/host/haltfile.py:80-96 | a run in which a suspend between init's look and its write is rewritten as active |
| HaltProtocol.AloneIsStoreWrite | pep/halt.py:97-112 | the split write, run alone, is the store's write |
| HaltProtocol.AloneIsStoreWriteIf | pep/halt.py:114-137 | the split conditional write, run alone, is the store's conditional write |
| Approval.ReentrantKeeps | pep/approval.py:380-424 | whatever an observer calls on the store, each grant keeps its terms and spent mark, and an outstanding one is revoked exactly when a covering revoke_all is among the calls |
| Approval.ConsumeSpendsIff | pep/approval.py:246-362 | a consume spends its grant exactly when an order-free conjunction of conditions holds, observers included |
| Approval.RefusalReasons | pep/approval.py:291-362 | which refusal each consume gets, each under its own condition on the record and the request |
| Approval.MintKeeps | pep/approval.py:150-210 | every member of the grant an accepted issue leaves, the frozen digests and the expiry included |
| Approval.AcceptedIff | pep/approval.py:150-210 | exactly which issue requests are accepted |
| Approval.DigestBinds | pep/approval.py:318-349 | a grant issued with a state or implementation digest is spent, after any calls, only by a consume that observed that digest up to case |
| Approval.DigestForm | pep/approval.py:162-167 | exactly which texts are digests, and the lower case they are kept in |
| Approval.RevokedDuringOwnConsume | pep/approval.py:426-453 | a consume past its early checks is refused as revoked, and spends nothing, exactly when an observer of its own that was reached revoked the grant |
| Approval.ApplyEvolves | pep/approval.py:150-424 | no call changes a grant's terms, un-marks it, or marks it both spent and revoked |
| Approval.GrantsOverARun | pep/approval.py:246-431 | over every run the number of times a grant is spent equals the change of its mark, so it is at most one, and a grant's terms never change |
| Approval.RevokedIsNeverSpent | pep/approval.py:364-378 | a revoked grant is never spent later and never changes again |
| Approval.RevocationMeans | pep/approval.py:364-424 | which calls revoke, and exactly which grants they mark, at what time |
| Approval.BindingMatchesExactly | pep/approval.py:49-100 | with an injective hash a minted grant's binding is met exactly by its own tool and by arguments equal to the minted ones |
| ApprovalStores.ApprovalStore.IssueGrant | pep/approval.py:150-210 | an accepted issue adds exactly the fresh grant, with the tool, arguments, principal, expiry and lower-case digests asked for; a refused one changes nothing, and an observer may not issue |
| ApprovalStores.ApprovalStore.RevokeGrant | pep/approval.py:364-378 | marks exactly an outstanding grant, and says whether it did |
| ApprovalStores.ApprovalStore.RevokeEvery | pep/approval.py:380-411 | revokes exactly the covered outstanding grants and returns how many there were, also from inside an observer |
| ApprovalStores.ApprovalStore.RevokeOutstandingUnlocked | pep/approval.py:412-424 | the counting loop marks every covered grant once and counts them |
| ApprovalStores.ApprovalStore.ConsumeGrant | pep/approval.py:246-362 | the locked consume with re-entrant observers equals the consume rule on the table, and spends exactly a spendable grant |
| Runtime.CallKeepsHalt | pep/evaluate.py:158-387 | every runtime call, whatever the store returns or raises, keeps the fence equal to the killed mode and takes back no halt |
| Runtime.HaltOverARun | pep/evaluate.py:158-387 | over every run killed or unavailable in memory is never undone, the epoch moves at most once, and a kill call leaves the mode killed |
| Runtime.StartInv | pep/evaluate.py:81-112 | a new process starts in the file's mode, or killed when told to, available when both are, with no ticket spent |
| Runtime.CallWrites | pep/evaluate.py:158-387 | for every call, what the halt file says afterwards: which calls write, under which condition, what they ask for, and that a kill in the file is kept |
| Runtime.CallRemembers | pep/evaluate.py:158-387 | what memory holds after every call that writes without an expected mode |
| Runtime.DeclineRemembers | pep/evaluate.py:361-387 | what a declined suspend or resume teaches memory: a halt with its availability, a suspend, or nothing |
| Runtime.KillIsOnDisk | pep/evaluate.py:158-179 | a kill is in the file afterwards exactly when its rename landed or it was there |
| Runtime.KillSurvivesRestart | pep/evaluate.py:158-179 | after a kill that landed and any later calls, a process that starts on the file starts killed |
| Runtime.EntryBlockMeans | pep/evaluate.py:197-204 | the fence bars before a halt, a halt before a suspend, each under its exact condition |
| Runtime.ClaimMeans | pep/evaluate.py:216-240 | what a claim answers and exactly when it spends its ticket |
| Runtime.ResumeNeedsItsWrite | pep/evaluate.py:297-359 | a conditional resume reaches active exactly when its write landed on a file that read the expected mode, available, under the lock |
| Runtime.SuspendOutcome | pep/evaluate.py:279-387 | the full outcome of a conditional suspend: it fails to suspend only where the file is less halted than expected, or kills |
| Runtime.BehindIff | pep/evaluate.py:279-387 | exactly which calls, expected modes and write failures leave memory less halted than the file |
| Runtime.BehindNeedsASplit | pep/evaluate.py:279-387 | over every run memory falls behind the file only by such a call or by what somebody else puts on disk |
| PepRuntimes.PepRuntime.PersistHaltNow | pep/evaluate.py:318-359 | the object's persist equals the persist rule on memory and disk |
| PepRuntimes.PepRuntime.HaltAfterDeclinedWrite | pep/evaluate.py:361-387 | a declined write learns a halt or a suspend from disk and never becomes less halted |
| PepRuntimes.PepRuntime.KillNow | pep/evaluate.py:158-185 | a kill engages the fence, revokes every outstanding grant, and leaves a file that says killed exactly when its rename landed or it said so before |
| PepRuntimes.KillRevokesAll | pep/evaluate.py:158-179 | among the runtime's calls only a kill touches grants, and it revokes each outstanding one at its own time |
| PepRuntimes.PepRuntime.SuspendNow | pep/evaluate.py:279-295 | the object's suspend equals the suspend rule |
| PepRuntimes.PepRuntime.ResumeNow | pep/evaluate.py:297-311 | the object's resume equals the resume rule |
| PepRuntimes.PepRuntime.ClaimEntryNow | pep/evaluate.py:216-274 | a claim spends its ticket once; giving up the lock before the permit is decided again afterwards |
| PepRuntimes.PepRuntime.EvaluateEnvelope | pep/evaluate.py:422-680 | ALLOW exactly when the runtime is open at start and finish, the envelope is admissible and its grant can be spent; the reason of every denial by its own condition; the state and exactly which grant a decision leaves spent |
| Policy.ArgsMatchSchema | pep/policy.py:122-160 | the early-leaving loops accept exactly the arguments the schema admits |
| Policy.RefusedIff | pep/policy.py:122-160 | exactly which arguments a schema refuses |
| Policy.CapabilityDenyIff | pep/evaluate.py:686-731 | a capability token stands exactly for its attested, listed, unexpired holder on a covered tool |
| Policy.CapabilityReasons | pep/evaluate.py:686-731 | which of the two refusals a token gets |
| Policy.TypesOf | pep/policy.py:150-160 | which JSON values have which schema type |
| Evaluate.EarlyDenyIff | pep/evaluate.py:451-600 | the ordered checks pass exactly when the runtime is open and the order-free admission rule holds |
| Evaluate.DecisionReasons | pep/evaluate.py:451-680 | the answer to every request, with anything in between: a halt before a suspend, both before the envelope, then the first thing wrong with it, and the last look's own three reasons |
| Evaluate.AllowIff | pep/evaluate.py:422-680 | the decision, with anything happening in between, is ALLOW exactly when the declarative rule holds |
| Evaluate.DenialsSpendNothing | pep/evaluate.py:601-680 | only an admissible request's own grant can be spent, and only the last fence check can deny after spending |
| Gate.BeginInvoke | pep/gate.py:51-87 | a fresh ticket, and an ALLOW exactly when the runtime is open at both looks after whatever happened in the gaps, the request is admissible and its grant can still be spent; then it is spent |
| Gate.CompleteInvoke | pep/gate.py:90-176 | the tool is entered exactly when the order-free entry rule holds, the reason of every refusal, and the state left behind; grants are only revoked |
| Gate.ReobservationsMean | pep/gate.py:144-176 | when the two observations at entry agree: the same digest up to case, a missing observer failing only where an implementation was frozen |
| GateAlone.AdmissionAlone | pep/gate.py:51-87 | the locked sections of an admission, run with nothing in between, give a fresh ticket, the epoch and an answer with the reason the whole evaluation gives |
| GateAlone.CompletionAlone | pep/gate.py:90-141 | the locked sections of a completion, run alone, enter exactly under the whole call's rule, and give each refusal its reason |
| GateRuns.StepKeepsInv | pep/gate.py:51-141 | every step of every interleaving keeps tickets distinct, grants unshared, permits single and the fence shut after a cut |
| GateRuns.KillStagesAreKill | pep/evaluate.py:158-179 | the cut, the revocation and the write, one after another, are the object's kill of runtime, file and grants |
| FenceRuns.EntriesOverARun | pep/gate.py:90-141 | every entry is for an allowed admission through its one permit, given earlier to that very completion |
| FenceRuns.NoSecondEntry | pep/evaluate.py:216-228 | two entries in a run are for different admissions and never rest on the same grant |
| FenceRuns.CutOverARun | pep/evaluate.py:158-204 | the epoch moves exactly with the one cut, and after it nothing happens but entries permitted before it |
| FenceRuns.CutRefuses | pep/evaluate.py:197-214 | after a cut every allowed admission is refused by the late-effect fence for ever |
| FenceRuns.OpenTicketSpentIff | pep/evaluate.py:216-228 | while the runtime is open a ticket is spent exactly when a permit was given for it |
| FenceRuns.SuspendedTicketStillEnters | pep/evaluate.py:216-274 | a ticket refused only while suspended still enters the tool once the runtime is open and the observers agree |
| GateGrants.GrantsFitOverARun | pep/evaluate.py:601-680 | in every run the grant behind an allowed admission has its caller, tool and arguments and was unexpired at its clock |
| HostGrants.PrincipalsDiffer | pep/host/server.py:344-352 | two connections never share a principal, even for one user |
| HostGrants.PrincipalForm | pep/host/server.py:344-352 | the parts of a connection's name read back as its user and its number, and exactly which names are too long |
| HostGrants.SelectApproval | pep/host/server.py:1472-1505 | a grant is selected exactly when it is the only usable one listed, and which answer each other case gets |
| HostGrants.SelectionMeans | pep/host/server.py:1494-1505 | the rule the selection follows gives the five answers by the positions of usable, matched and revoked grants |
| HostServers.ReferenceHost.OpenSession | pep/host/server.py:344-358 | a new connection gets a name no connection has had, becomes known and has no grants, or is turned away where the name is none |
| HostServers.ReferenceHost.IssueSessionApproval | pep/host/server.py:360-380 | exactly when a mint is accepted; then the grant is new, only this connection can use it, and it is last in its list |
| HostServers.ReferenceHost.DropSession | pep/host/server.py:1289-1297 | the connection is no longer known and has no grants listed |
| HostServers.ReferenceHost.HaltBlock | pep/host/server.py:1399-1432 | the way is clear exactly when nothing latched or killed the host and the file reads active; the runtime and the file afterwards in every case; exactly what latches it, and that a latch leaves no grant outstanding |
| HostServers.ReferenceHost.KillRuntimeMemory | pep/host/server.py:1381-1386 | the runtime is killed afterwards, and grants are only revoked |
| HostServers.ReferenceHost.Decide | pep/host/server.py:539-818 | a tool is entered exactly when an order-free rule holds: known connection, one usable grant, admitting policy, nothing latched, two active readings, the line logged, the gate open throughout; then the grant is newly spent. Exactly what newly latches the halt, and which latches kill the runtime and every outstanding grant |
| HostServers.ReferenceHost.SelectAndEnter | pep/host/server.py:643-818 | from the selection on: an entry exactly when the policy admits, one listed grant is usable and the gate stays open; the halt is latched exactly by a failed append or a second reading that halts |
| HostServers.ReferenceHost.EnterAdmitted | pep/host/server.py:690-770 | after the decision: an entry exactly when the line was logged, the second reading is active and the gate's entry rule holds; the halt is latched exactly by a failed append or a second reading that halts |
| HostServers.AdmittedIff | pep/host/server.py:1472-1505 | a request resting on the host's selection is admissible with a grant that can be spent exactly when one listed grant is usable and the policy admits the call |
| HostRuns.AdvanceFits | pep/host/server.py:539-735 | each section of a request keeps its record of halt readings, its one admission and its order of stages |
| HostRuns.LatchedIff | pep/host/server.py:539-735 | exactly which steps latch the halt |
| HostRuns.MirrorMoves | pep/host/server.py:1406-1424 | what the mirror of each reading does to the runtime |
| HostRuns.HaltCheckMeans | pep/host/server.py:1399-1432 | where each look of a halt check sends the request: latch, kill, then the reading just taken |
| HostRuns.HostStep | pep/host/server.py:344-818 | every step of every interleaving of connections, mints, requests and gate steps keeps the host's invariant |
| EndToEnd.EntriesInjectIntoMints | pep/host/server.py:360-818 | in every run each tool entry has its own mint, for that connection, tool and arguments, unexpired at the request's clock, with two active halt readings |
| EndToEnd.EntriesNeverExceedMints | pep/host/server.py:360-380 | on every connection entries never outnumber the grants minted on it |
| EndToEnd.LatchStops | pep/host/server.py:1399-1432 | a latched halt is never cleared, and no request gets past the look at the latch in its second halt check after it |
| EntryRuns.AWishIsGranted | pep/host/server.py:344-818 | every new host open on an active file has a run in which a grant is minted on a connection and that connection's admissible request enters its tool |
| DenialLogs.DenialLog.AccountDenial | pep/host/server.py:1553-1583 | the object's accounting equals the window rule |
| DenialLogs.DenialLog.FlushExpiredWindow | pep/host/server.py:1585-1601 | the object's flush takes exactly the count of a closed window and joins the log |
| DenialLogs.DenialLog.CloseAfterDrain | pep/host/server.py:1655-1674 | after the drain nothing is held: the count is written or lost as a whole |
| DenialLogs.AccountMeans | pep/host/server.py:1553-1583 | exactly when a denial gets its own line, is only counted, or brings the last count with it |
| DenialLogs.FlushMeans | pep/host/server.py:1585-1601 | a flush takes the held count exactly when its window is over and the log is open |
| DenialLogs.TicketsMean | pep/host/server.py:1534-1551 | joining is refused exactly by a closed log |
| DenialRuns.DenialsOverARun | pep/host/server.py:1534-1732 | in every run each denial accounted is written, on its way, held or lost with a failed append; bursts and window spacing hold |
| DenialRuns.CompletedDrain | pep/host/server.py:1629-1676 | after a drain that was waited out nothing is held or on its way, for ever |
| DenialRuns.DrainEndsIff | pep/host/server.py:1652-1662 | in every run a drain ends before its bound exactly when every task has left the log |
| DrainRuns.LateDenialsIff | pep/host/server.py:1629-1676 | at the end of every drain of every run: a later denial can be left in a held count exactly when more denials hold their own ticket than a window writes, and a window can open too early exactly when a denial holds its ticket and the last window is younger than a window by the clock at the drain's end; with a wait no shorter than a window, that one opened during the drain |
| DrainRuns.HungCallsHoldNothing | pep/host/server.py:1632-1641 | calls still in flight when the bound passes, with no denial holding a ticket, leave nothing held and open no window too early |
| DenialRuns.TimedOutDrainLosesCount | pep/host/server.py:1655-1674 | a run, at the default window and wait, in which a drain that timed out leaves a denial held in a closed log and opens a window too early |
| LogLines.CountLogLines | pep/host/log.py:85-111 | for every cutting into blocks the count and the refusals are those of the plain split of the whole file |
| LogLines.CountMeans | pep/host/log.py:85-111 | the plain count is the number of lines whose record the classifier counts |
| LogLines.BadLineStays | pep/host/log.py:92-108 | once a closed line is bad or the open line is too long, the whole file is refused whatever follows |
| LogLines.SplitConcat | pep/host/log.py:92-108 | the split of a file from the split of its parts: a closed line stays, an open line grows |
| DecisionLogs.RestartCounts | pep/host/log.py:85-111 | the count of a file the log wrote is its number of lines, however it is read |
| DecisionLogs.RestartCountsAfterARun | pep/host/log.py:85-262 | after every run of appends and restarts the plain count of the file is what a restart numbers on from, and the running counter is off by exactly the drift |
| DecisionLogs.DecisionLog.Append | pep/host/log.py:245-262 | the object's append, with each way to fail, equals the append rule |
| DecisionLogs.SequentialIff | pep/host/log.py:245-262 | over appends and restarts the numbers are exactly 1 to n if and only if no line landed while an unencodable record or a failed sync had put counter and file apart |
| DecisionLogs.CleanFailuresKeepSequence | pep/host/log.py:232-262 | with whole or missing appends only, the numbers are 1 to n across restarts and failures |
| DecisionLogs.GapAndRepeat | pep/host/log.py:245-262 | the two inputs that break the sequence |
| RecordBound.LineIsBounded | pep/host/log.py:154-183 | a record with the host's own core fields ends on a line of at most 8192 bytes, even when the detail escapes twelvefold |
| RecordBound.CoreFieldsSurvive | pep/host/log.py:140-183 | a record that fits is unchanged; a longer one says so and keeps every scalar core field, at worst clipped |
| RecordBound.ChecksKept | pep/host/log.py:172-176 | of the list of checks a flattened record keeps every object in order, with its name and outcome and nothing else |
| RecordBound.FlatKeepsChecks | pep/host/log.py:171-177 | a flattened record keeps that list, clipped and cut down, under the same key |
| Nursery.ExecutorNursery.GetWorker | pep/host/executor.py:262-284 | the worker given is running, is the session's own in the table, and no other session has it |
| Nursery.ExecutorNursery.DiscardWorker | pep/host/executor.py:286-289 | drops exactly that worker of that session |
| Nursery.ExecutorNursery.ReleaseSession | pep/host/executor.py:232-237 | drops the session's worker and hands it back to be stopped |
| Nursery.ExecutorNursery.TakeAllToAbort | pep/host/executor.py:211-230 | empties table and spare for good and hands back every worker |
| Nursery.WorkersOverARun | pep/host/executor.py:201-289 | in every run table and spare keep to the limit, no worker ever serves two sessions, and after an abort none is given out |
| Nursery.LiveSplits | pep/host/executor.py:201-289 | every live worker is a session's, the spare, or dropped and not stopped yet |
| Nursery.StartKeepsLimitIff | pep/host/executor.py:262-284 | a call that starts a worker keeps the live workers within the limit exactly when the ones not stopped yet leave it room |
| Nursery.LiveWithinLimitIff | pep/host/executor.py:134-135 | over every run live workers never exceed the limit if and only if every start had that room |
| Nursery.ReleasedWorkerOutlivesLimit | pep/host/executor.py:232-237 | a run with limit one in which a released worker not stopped yet and its successor are alive together |
| Canonical.DumpsRoundTrip | pep/canonical.py:25-34 | a reader recovers every JSON value from its canonical text, keys sorted and split surrogate pairs merged |
| Canonical.DumpsInjective | pep/canonical.py:25-34 | on decoded values equal canonical texts mean equal values up to key order, and conversely |
| Canonical.DumpsAgree | pep/canonical.py:25-34 | exactly which values share a canonical text |
| Canonical.EscapeForm | pep/canonical.py:25-34 | the exact printed form of every character |
| Canonical.SplitPairCollides | pep/canonical.py:25-34 | two different values with one canonical text |
| Canonical.FreezeNormalises | pep/approval.py:49-59 | freezing gives a decoded dictionary, equal to the arguments when they already were one |
| Canonical.SortFieldsSorts | pep/canonical.py:25-34 | keys come out in code point order |
| Canonical.SameSorts | pep/canonical.py:25-34 | two dictionaries are equal exactly when their sorted forms are |
| Nesting.NestingExceeds | pep/host/protocol.py:101-131 | the loop with its early return answers whether the greatest depth of the scan exceeds the limit |
| Nesting.ScanAgreesWithGrammar | pep/host/protocol.py:101-131 | for every JSON value and every writing of it, any white space and escapes, the scan exceeds the limit exactly when the value is nested more deeply |
| Nesting.PrintedDepth | pep/host/protocol.py:101-131 | what the canonical printer prints is refused exactly when the value is nested more deeply than the limit |
| Seccomp.AllowFilter | pep/host/executor.py:610-633 | every emitted jump is forward and in range, and up to 255 numbers the program kills other architectures, refuses x32 and unlisted numbers and allows the rest |
| Seccomp.WorksIffShort | pep/host/executor.py:589-633 | for lists of distinct native numbers the program is right exactly when the list has at most 255 |
| Seccomp.FirstNumberIsLost | pep/host/executor.py:589-633 | in a longer list the first number is refused |
| Frames.FrameReadsBack | pep/host/executor.py:680-716 | reading an encoded frame gives back its payload and stops at its last byte |
| Frames.FrameForm | pep/host/executor.py:680-716 | exactly which payloads can be framed, the big-endian length and the body of each frame, and which headers are refused how |
| Frames.StreamReadsBack | pep/host/executor.py:664-744 | frames written one after another are read one after another, and then the end is seen |
| Frames.HeaderRefusals | pep/host/executor.py:709-716 | a header of zero or over the limit is refused with nothing taken but the header |
| Frames.Conn.ReadExact | pep/host/executor.py:747-767 | for every way the bytes arrive: exactly the bytes asked for, none at the end, or an error; a deadline takes fewer |
| Frames.Conn.ReadFrame | pep/host/executor.py:687-695 | for every way the bytes arrive before the deadline the result and the rest of the stream are those of the whole stream |
| Frames.Pipe.WriteFrame | pep/host/executor.py:668-677 | short writes put every byte out in order, or a proper prefix and an error |
| Frames.EmitIsAscii | pep/host/executor.py:680-684 | the printed body is ASCII, so one byte a character |
| Claims.HostLinesShowTheCall | pep/host/claims.py:373-400 | which of the host's own lines around a call show it |
| Claims.HostLineJudges | pep/host/claims.py:333-351 | a claim against the host's last line of a call: tool, then outcome, then the observed digest and no other |
| Claims.ShortenedLineSettlesNothing | pep/host/claims.py:333-351 | a line cut to its core fields leaves a claimed digest unsettled |
| Claims.MarkerSeq | pep/host/claims.py:250-260 | the loop finds a number exactly when the session has one such line with a usable number |
| Claims.SessionSpan | pep/host/claims.py:263-294 | the loops find a span exactly when every number between the two lines is there once, and list those records |
| Claims.EndsBelong | pep/host/claims.py:292-293 | the last check of the span never fails |
| Claims.VerifyAbsence | pep/host/claims.py:228-247 | the verdict follows a rule on the records that has no order in it |
| Claims.RuleDetermines | pep/host/claims.py:228-294 | the records decide the verdict, so reordering them changes nothing |
| Claims.DeletionNeverFlips | pep/host/claims.py:228-294 | deleting records from a log that settles a claim leaves the verdict or makes it unverifiable |
| Claims.ConsistentIsTrueOfTheLog | pep/host/claims.py:228-294 | consistent on any part of a host's log means no call by that session in the whole log between its open and close lines |
| Claims.HostLogSettles | pep/host/claims.py:228-294 | on the whole log of a host, a session that opened and closed gets its verdict: consistent if it never called the tool, otherwise contradicted by its first call |
| Claims.HalfASessionIsUnverifiable | pep/host/claims.py:250-294 | on such a log a session without both lines is unverifiable |
| Claims.VerifyAction | pep/host/claims.py:297-330 | the verdict on an action follows a rule on the set of final records |
| Claims.StandsIff | pep/host/claims.py:297-351 | a claim stands exactly when there is a final record and each, taken alone, bears it out |
| Claims.HostLogJudges | pep/host/claims.py:297-351 | on the log of a host that answers a request once, the claim is judged by that answer alone |
| Claims.TwoAnswers | pep/host/claims.py:308-317 | two answers that disagree never prove a claim, and contradict it only by its digest |
| Claims.DeletionNeverContradicts | pep/host/claims.py:297-330 | deleting records can take a standing claim's proof away but not turn it into a contradiction |
| PatchLines.ParseHunk | scripts/mutation_audit.py:142-180 | the loop reads exactly up to where both header counts are used up, fails exactly when that never happens, and its blocks and lines are those of the lines read |
| PatchLines.NewLine | scripts/mutation_audit.py:222-224 | the sum the audit forms is the shift of the blocks that end at or before the line |
| PatchLines.NewLineIsRightIff | scripts/mutation_audit.py:222-224 | for an unchanged line the computed number is the right one exactly when no hunk without context inserts directly after it |
| PatchLines.UnchangedLineMoves | scripts/mutation_audit.py:222-224 | a line no hunk removes sits unchanged at its number plus the true shift |
| PatchLines.PlusNamesAddedLines | scripts/mutation_audit.py:150-180 | the plus numbers are exactly the numbers of the added lines, and the patched file has those lines there |
| PatchLines.NumbersAreRight | scripts/mutation_audit.py:150-180 | a block's numbers are those of its hunk's removed and added lines |
| PatchLines.PatchedPassesCheck | scripts/mutation_audit.py:837-842 | a patch applied as its headers say passes the applied-where-stated check |
| PatchLines.CheckFindsLines | scripts/mutation_audit.py:837-842 | a file that passes the check has every line a hunk keeps or adds at its own number |
| PatchLines.AskedLinesAreRight | scripts/mutation_audit.py:217-255 | where hunks without context stand only at the end of the file, the number of every unchanged line before the last is right |
| PatchLines.BareInsertionIsOffByOne | scripts/mutation_audit.py:222-224 | a context-free addition at the end of a file, on which the number computed for the last line is wrong |

## Left out

- Sockets, peer credentials, file modes, ownership, symlinks, umask, signals, Landlock, rlimits, fork, descriptor passing and memfd sealing: operating-system calls.
- SHA-256 is an injective function: a digest is represented by what was hashed. The clock is an integer; regular expressions are predicates on code points.
- Floats are opaque lexemes, assumed to print as they were read; NaN and infinities are not values.
- Halt files that are not regular files, and a number in a halt document so large that the library reader raises instead of returning, are not told apart from unreadable files; a mode that is an array or an object makes the source's membership test raise, and is a mode of a wrong kind here.
- Exceptions that are not subclasses of Exception inside observers, and threads other than the consuming one inside an observer (they wait for the lock).
- Deadlock, fairness and progress: a timeout is a failing step, and the bounded lock wait is a lock failure.
- Torn lines and partial file writes: an append or a rename happens whole or not at all. Text left in a stream buffer by a failed flush is taken as not landed.
- Reason details, receipts and record fields other than those named; the policy document's own parsing; brand wall, corpus, demo and benchmark.
- `init_halt` replacing the runtime, host start-up (`_open_runtime`) beyond the state a runtime starts in, and in-process callers that skip the gate.
- FenceRuns.EntriesOverARun: runs start from a runtime that is not killed; one that starts killed decides every envelope as DENY (`Evaluate.AllowIff`).
- HostRuns.HostStep: the request's parse, the registry, the policy re-read and the argument names are one free choice of outcome; the answer sent to the agent and the ALLOW line after the tool are not modelled.
- HostServers.ReferenceHost.Decide: other threads act only at the named gaps, and never latch the halt in them; `HostRuns` has the full interleaving. Peer credentials other than the user id, and the answers sent back, are left out.
- EndToEnd.LatchStops: a request already past that look may still enter; the gate's own fence decides that.
- Claims.VerifyAction: the loops over the final records appear as tests whether some record qualifies; the human-readable detail is left out.
- Frames.StreamReadsBack: the body reader is any reader that gives back what the printer wrote; how `json.loads` treats other bodies is not modelled, nor is `_bytes_pending`. A body that is not JSON is a `BadFrame` here, where the source lets a `ValueError` through instead of the error for bad frames.
- RecordBound.LineIsBounded: sequence number and original size are taken to have at most 100 digits.
- Nesting.ScanAgreesWithGrammar: limits are not negative; the only caller passes a constant.
- Seccomp.AllowFilter: the kernel's own limits on program length are not modelled.
- PatchLines.ParseHunk: the patch's file headers and the code-object side of `activation_targets` are not modelled; `git apply` is the plain application of the hunks; that it takes a hunk without context only at the end of a file is a premise of `PatchLines.AskedLinesAreRight`.
- Nursery.WorkersOverARun: starting a worker either yields one or fails; the worker's own protocol is in `Frames`.
- DenialRuns.DenialsOverARun: request ids and the text of the lines are left out; a denial refused because the log is closed is not accounted. The host's monotonic clock and the one the drain waits by, which may be set apart, are one clock.
