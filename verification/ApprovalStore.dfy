/** The grant table as the object that the source updates in place. */
module ApprovalStores {
  import opened Common
  import opened Json
  import opened Reasons
  import opened Approval
  import Canonical

  /** The table with every grant but those still to do revoked where covered. */
  ghost function RevokedExcept(t: Table, todo: set<Text>, every: bool, principal: Option<Text>, at: Instant): (r: Table)
    ensures r.Keys == t.Keys
  {
    map id | id in t :: if id in todo then t[id] else RevokeIfCovered(t[id], every, principal, at)
  }

  lemma RevokedBounds(t: Table, every: bool, principal: Option<Text>, at: Instant)
    ensures RevokedExcept(t, t.Keys, every, principal, at) == t
    ensures RevokedExcept(t, {}, every, principal, at) == RevokeCovered(t, every, principal, at)
  {}

  lemma RevokeOne(t: Table, todo: set<Text>, every: bool, principal: Option<Text>, at: Instant, id: Text)
    requires id in todo && todo <= t.Keys
    ensures RevokedExcept(t, todo, every, principal, at)[id] == t[id]
    ensures RevokedExcept(t, todo - {id}, every, principal, at)
         == RevokedExcept(t, todo, every, principal, at)[id := RevokeIfCovered(t[id], every, principal, at)]
    ensures |CoveredIds(t, every, principal) - (todo - {id})|
         == |CoveredIds(t, every, principal) - todo| + (if Covered(t[id], every, principal) then 1 else 0)
  {
    var covered := CoveredIds(t, every, principal);
    if Covered(t[id], every, principal) {
      assert covered - (todo - {id}) == (covered - todo) + {id};
    } else {
      assert covered - (todo - {id}) == covered - todo;
    }
  }

  class ApprovalStore {
    var records: Table
    var observing: bool  // this thread is running an observer inside `Consume`

    constructor ()
      ensures records == map[] && !observing
    {
      records := map[];
      observing := false;
    }

    method IssueGrant(r: IssueRequest) returns (res: Result<Record, StoreError>)
      modifies this`records
      ensures observing ==> res == Err(Reentry) && records == old(records)
      ensures !observing ==> records == Apply(old(records), Issue(r))
      ensures !observing ==> (res.Ok? <==> IssueAccepted(old(records), r))
      ensures res.Ok? ==> res.value.approvalId !in old(records)
      ensures res.Ok? ==> res.value.approvalId in records && records[res.value.approvalId] == res.value
      ensures res.Ok? ==>
                var g := res.value;
                && g.tool == r.tools[0] && g.MatchesBinding(r.tools[0], r.args) && g.principal == r.principal && g.Outstanding()
                && g.expiresAt == r.now + r.ttlSeconds && g.singleUse
                && DigestKept(r.stateDigest, g.stateDigest) && DigestKept(r.implementationDigest, g.implementationDigest)
    {
      if observing {
        return Err(Reentry);
      }
      hide FrozenDigest, DigestKept, IsPrincipal, IsApprovalId;
      if r.principal.None? || !IsPrincipal(r.principal.value) {
        return Err(Invalid);
      }
      var frozenState := FrozenDigest(r.stateDigest);
      if r.stateDigest.Some? && frozenState.None? {
        return Err(Invalid);
      }
      var frozenImplementation := FrozenDigest(r.implementationDigest);
      if r.implementationDigest.Some? && frozenImplementation.None? {
        return Err(Invalid);
      }
      if r.ttlSeconds < MIN_TTL_SECONDS || r.ttlSeconds > MAX_TTL_SECONDS {
        return Err(Invalid);
      }
      if r.tools == [] || (exists t | t in r.tools :: t == []) {
        return Err(Invalid);
      }
      if |r.tools| != 1 {
        return Err(Invalid);
      }
      var tool := r.tools[0];
      assert tool in r.tools;
      if r.catalog.Some? && tool !in r.catalog.value {
        return Err(Invalid);
      }
      var binding := BindingDigest(tool, r.args);
      FrozenKept(r.stateDigest);
      FrozenKept(r.implementationDigest);
      var token := if r.approvalId.Some? && r.approvalId.value != [] then r.approvalId.value else r.freshId;
      if !IsApprovalId(token) {
        return Err(Invalid);
      }
      var record := Record(token, tool, r.now + r.ttlSeconds, binding.value, Canonical.Freeze(r.args), true,
                           None, frozenState, r.principal, frozenImplementation, None);
      if token in records {
        return Err(Invalid);
      }
      records := records[token := record];
      return Ok(record);
    }

    method LookupGrant(id: Text) returns (res: Result<Option<Record>, StoreError>)
      ensures observing ==> res == Err(Reentry)
      ensures !observing ==> res == Ok(if id in records then Some(records[id]) else None)
    {
      if observing {
        return Err(Reentry);
      }
      return Ok(if id in records then Some(records[id]) else None);
    }

    method RevokeGrant(id: Text, at: Instant) returns (res: Result<bool, StoreError>)
      modifies this`records
      ensures observing ==> res == Err(Reentry) && records == old(records)
      ensures !observing ==> records == Apply(old(records), Revoke(id, at))
      ensures !observing ==> res == Ok(id in old(records) && old(records)[id].Outstanding())
      ensures res == Ok(true) ==> records == old(records)[id := old(records)[id].(revokedAt := Some(at))]
      ensures res != Ok(true) ==> records == old(records)
    {
      if observing {
        return Err(Reentry);
      }
      if id !in records || !records[id].Outstanding() {
        return Ok(false);
      }
      records := records[id := records[id].(revokedAt := Some(at))];
      return Ok(true);
    }

    /** Allowed inside an observer: this thread already holds the lock and edits in place. */
    method RevokeEvery(every: bool, principal: Option<Text>, at: Instant) returns (res: Result<nat, StoreError>)
      modifies this`records
      ensures records == ReentrantCall(old(records), RevokeAll(every, principal, at))
      ensures res.Ok? <==> RevokeAllAccepted(every, principal)
      ensures res.Ok? ==> res.value == |CoveredIds(old(records), every, principal)|
    {
      if every && principal.Some? {
        return Err(Invalid);
      }
      if !every && principal.None? {
        return Err(Invalid);
      }
      var count := RevokeOutstandingUnlocked(every, principal, at);
      return Ok(count);
    }

    method RevokeOutstandingUnlocked(every: bool, principal: Option<Text>, at: Instant) returns (count: nat)
      modifies this`records
      ensures records == RevokeCovered(old(records), every, principal, at)
      ensures count == |CoveredIds(old(records), every, principal)|
    {
      hide CoveredIds, RevokedExcept;
      count := 0;
      var todo := records.Keys;
      ghost var was := records;
      assert CoveredIds(was, every, principal) - todo == {};
      assert RevokedExcept(was, todo, every, principal, at) == was by { RevokedBounds(was, every, principal, at); }
      while todo != {}
        invariant todo <= was.Keys
        invariant records == RevokedExcept(was, todo, every, principal, at)
        invariant count == |CoveredIds(was, every, principal) - todo|
        decreases todo
      {
        var id :| id in todo;
        RevokeOne(was, todo, every, principal, at, id);
        todo := todo - {id};
        var record := records[id];
        if !record.Outstanding() || (!every && record.principal != principal) {
          assert records[id := record] == records;
          continue;
        }
        records := records[id := record.(revokedAt := Some(at))];
        count := count + 1;
      }
      RevokedBounds(was, every, principal, at);
      assert CoveredIds(was, every, principal) - todo == CoveredIds(was, every, principal);
    }

    /** One call from host code; inside an observer most calls are refused. */
    method Call(c: StoreCall)
      modifies this
      ensures records == if old(observing) then ReentrantCall(old(records), c) else Apply(old(records), c)
      ensures observing == old(observing)
      decreases c, 1
    {
      match c {
        case Issue(r) => var _ := IssueGrant(r);
        case Lookup(id) => var _ := LookupGrant(id);
        case Consume(q) => var _ := ConsumeGrant(q);
        case Revoke(id, at) => var _ := RevokeGrant(id, at);
        case RevokeAll(every, principal, at) => var _ := RevokeEvery(every, principal, at);
      }
    }

    /** Host code with the lock held: its calls re-enter this object. */
    method RunObserver(o: Observer) returns (end: ObserverEnd)
      requires !observing
      modifies this
      ensures records == Reentrant(old(records), o.calls) && !observing && end == o.end
      decreases o, 0
    {
      observing := true;
      var i := 0;
      while i < |o.calls|
        invariant 0 <= i <= |o.calls| && observing
        invariant Reentrant(records, o.calls[i..]) == Reentrant(old(records), o.calls)
      {
        assert o.calls[i..][0] == o.calls[i] && o.calls[i..][1..] == o.calls[i + 1..];
        Call(o.calls[i]);
        i := i + 1;
      }
      observing := false;
      end := o.end;
    }

    method ImplementationFailure(frozen: Text, observe: Option<Observer>) returns (failed: bool)
      requires !observing
      modifies this
      ensures records == AfterObserver(old(records), observe) && !observing
      ensures failed <==> !Observes(observe, frozen)
      decreases observe, 1
    {
      if observe.None? {
        return true;
      }
      var end := RunObserver(observe.value);
      if !end.Returned? {
        return true;
      }
      var normalized := NormalizeStateDigest(end.value);
      return normalized.None? || normalized.value != frozen;
    }

    method ConsumeGrant(q: ConsumeRequest) returns (res: Result<ConsumeResult, StoreError>)
      modifies this
      ensures observing == old(observing)
      ensures old(observing) ==> res == Err(Reentry) && records == old(records)
      ensures !old(observing) ==> res == Ok(ConsumeStep(old(records), q).0) && records == ConsumeStep(old(records), q).1
      ensures !old(observing) ==> (res.value.Granted? <==> Spendable(old(records), q)) && RefusalFits(old(records), q, res.value)
      decreases q, 0
    {
      if observing {
        return Err(Reentry);
      }
      ConsumeSpendsIff(records, q);
      RefusalReasons(records, q);
      hide RefusalFits;
      if q.approvalId !in records {
        return Ok(Refused(APPROVAL_INVALID));
      }
      var record := records[q.approvalId];
      if !PrincipalChecks(record.principal, q.principal, q.envelopeIdentity) {
        return Ok(Refused(APPROVAL_PRINCIPAL_MISMATCH));
      }
      if record.Revoked() {
        return Ok(Refused(APPROVAL_REVOKED));
      }
      if record.Consumed() {
        return Ok(Refused(APPROVAL_CONSUMED));
      }
      if record.Expired(q.now) {
        return Ok(Refused(APPROVAL_EXPIRED));
      }
      if !record.MatchesBinding(q.tool, q.args) {
        return Ok(Refused(APPROVAL_BINDING_MISMATCH));
      }
      if !record.singleUse {
        return Ok(Refused(APPROVAL_INVALID));
      }
      if record.implementationDigest.Some? {
        ObserverOnlyRevokes(records, q.observeImplementation, q.approvalId);
        var failed := ImplementationFailure(record.implementationDigest.value, q.observeImplementation);
        if records[q.approvalId].Revoked() {
          return Ok(Refused(APPROVAL_REVOKED));
        }
        if failed {
          return Ok(Refused(APPROVAL_IMPLEMENTATION_MISMATCH));
        }
      }
      if record.stateDigest.Some? {
        ObserverOnlyRevokes(records, q.observe, q.approvalId);
        var matches: bool;
        if q.observe.Some? {
          var end := RunObserver(q.observe.value);
          matches := end.Returned? && NormalizeStateDigest(end.value) == Some(record.stateDigest.value);
        } else {
          matches := FrozenDigest(q.stateDigest) == Some(record.stateDigest.value);
        }
        if records[q.approvalId].Revoked() {
          return Ok(Refused(APPROVAL_REVOKED));
        }
        if !matches {
          return Ok(Refused(APPROVAL_STATE_MISMATCH));
        }
      }
      var current := records[q.approvalId];
      if current.Revoked() {
        return Ok(Refused(APPROVAL_REVOKED));
      }
      records := records[q.approvalId := current.(consumedAt := Some(q.now))];
      return Ok(Granted(current.stateDigest, current.implementationDigest));
    }
  }
}
