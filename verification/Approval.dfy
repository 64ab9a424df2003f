/**
 Single-use, expiring, revocable grants. A consume runs the host's observers with
 the store locked, and an observer may call back into the store on the same thread.
 */
module Approval {
  import opened Common
  import opened Json
  import opened Canonical
  import opened Reasons

  const MIN_TTL_SECONDS := 1
  const MAX_TTL_SECONDS := 86_400

  // ----- Names and digests.

  predicate IsLower(c: CodePoint) { 0x61 <= c <= 0x7a }

  predicate IsUpper(c: CodePoint) { 0x41 <= c <= 0x5a }

  /** Lower case first, then letters, digits, underscore, point, hyphen; at most 128. */
  predicate IsPrincipal(t: Text) {
    && 1 <= |t| <= 128
    && IsLower(t[0])
    && forall i | 1 <= i < |t| :: IsLower(t[i]) || IsDigit(t[i]) || t[i] in {0x5f, 0x2e, 0x2d}
  }

  predicate IsApprovalId(t: Text) {
    && 1 <= |t| <= 128
    && forall i | 0 <= i < |t| :: IsLower(t[i]) || IsUpper(t[i]) || IsDigit(t[i]) || t[i] in {0x5f, 0x2e, 0x3a, 0x2d}
  }

  predicate Letter(c: CodePoint) { 'a' as int <= c <= 'z' as int }

  predicate Capital(c: CodePoint) { 'A' as int <= c <= 'Z' as int }

  predicate Digit(c: CodePoint) { '0' as int <= c <= '9' as int }

  predicate Among(c: CodePoint, others: string) { exists k | 0 <= k < |others| :: c == others[k] as int }

  /** The two name formats, by their characters: a letter first for a principal, and either case and a colon for a grant's id. */
  lemma NameForms(t: Text)
    ensures IsPrincipal(t) <==>
              0 < |t| <= 128 && Letter(t[0]) && forall i | 1 <= i < |t| :: Letter(t[i]) || Digit(t[i]) || Among(t[i], "_.-")
    ensures IsApprovalId(t) <==>
              && 0 < |t| <= 128
              && forall i | 0 <= i < |t| ::
                   Letter(t[i]) || Capital(t[i]) || Digit(t[i]) || Among(t[i], "_.:-")
  {
    assert "_.-"[0] as int == 0x5f && "_.-"[1] as int == 0x2e && "_.-"[2] as int == 0x2d;
    assert "_.:-"[0] as int == 0x5f && "_.:-"[1] as int == 0x2e && "_.:-"[2] as int == 0x3a && "_.:-"[3] as int == 0x2d;
    assert forall c: CodePoint :: Among(c, "_.-") <==> c in {0x5f, 0x2e, 0x2d};
    assert forall c: CodePoint :: Among(c, "_.:-") <==> c in {0x5f, 0x2e, 0x3a, 0x2d};
  }

  const SHA256_PREFIX: Text := [0x73, 0x68, 0x61, 0x32, 0x35, 0x36, 0x3a]

  function ToLower(t: Text): (r: Text)
    ensures |r| == |t|
  {
    if t == [] then [] else [if IsUpper(t[0]) then t[0] + 0x20 else t[0]] + ToLower(t[1..])
  }

  /** Letters A to Z lowered, position by position, and nothing else changed. */
  predicate Lowered(asked: Text, kept: Text) {
    && |kept| == |asked|
    && forall i | 0 <= i < |asked| :: kept[i] == if 0x41 <= asked[i] <= 0x5a then asked[i] + 0x20 else asked[i]
  }

  lemma {:induction false} ToLowerLowers(t: Text)
    ensures Lowered(t, ToLower(t))
  {
    if t != [] {
      ToLowerLowers(t[1..]);
      assert forall i | 1 <= i < |t| :: t[1..][i - 1] == t[i] && ToLower(t)[i] == ToLower(t[1..])[i - 1];
    }
  }

  predicate IsStateDigest(t: Text) {
    && |t| == 71
    && t[..7] == SHA256_PREFIX
    && forall i | 7 <= i < 71 :: IsDigit(t[i]) || 0x61 <= t[i] <= 0x66
  }

  /** What an observer or an envelope hands over: some text, or something that is not text. */
  datatype Observation = NotText | Seen(text: Text)

  function NormalizeStateDigest(o: Observation): Option<Text> {
    if o.Seen? && IsStateDigest(ToLower(o.text)) then Some(ToLower(o.text)) else None
  }

  /** A digest is the word sha256, a colon and 64 hexadecimal digits, all in either case; it is kept in lower case. */
  lemma DigestForm(o: Observation)
    ensures NormalizeStateDigest(o).Some? <==>
              && o.Seen? && |o.text| == 71
              && (forall i | 0 <= i < 7 :: o.text[i] in {"sha256:"[i] as int, "SHA256:"[i] as int})
              && (forall i | 7 <= i < 71 ::
                    0x30 <= o.text[i] <= 0x39 || 0x41 <= o.text[i] <= 0x46 || 0x61 <= o.text[i] <= 0x66)
    ensures NormalizeStateDigest(o).Some? ==> Lowered(o.text, NormalizeStateDigest(o).value)
  {
    if o.Seen? {
      var text, low := o.text, ToLower(o.text);
      ToLowerLowers(text);
      if |text| == 71 {
        PrefixForm(text, low);
        assert forall i | 7 <= i < 71 :: (IsDigit(low[i]) || 0x61 <= low[i] <= 0x66) <==>
                 0x30 <= text[i] <= 0x39 || 0x41 <= text[i] <= 0x46 || 0x61 <= text[i] <= 0x66;
      }
    }
  }

  lemma PrefixForm(text: Text, low: Text)
    requires |text| == 71 && Lowered(text, low)
    ensures low[..7] == SHA256_PREFIX <==> forall i | 0 <= i < 7 :: text[i] in {"sha256:"[i] as int, "SHA256:"[i] as int}
  {
    var p := SHA256_PREFIX;
    assert p[0] == 's' as int && p[1] == 'h' as int && p[2] == 'a' as int && p[3] == '2' as int && p[4] == '5' as int
           && p[5] == '6' as int && p[6] == ':' as int;
    assert low[..7] == p <==> forall i | 0 <= i < 7 :: low[i] == p[i] by {
      assert forall i | 0 <= i < 7 :: low[..7][i] == low[i];
    }
    forall i | 0 <= i < 7 ensures low[i] == p[i] <==> text[i] in {"sha256:"[i] as int, "SHA256:"[i] as int} {}
  }

  /** SHA-256 of a canonical text, taken as injective: the digest is represented by what was hashed. */
  datatype Digest = Sha256(preimage: Text)

  const ARGS_KEY: Text := [0x61, 0x72, 0x67, 0x73]
  const TOOL_NAME_KEY: Text := [0x74, 0x6f, 0x6f, 0x6c, 0x5f, 0x6e, 0x61, 0x6d, 0x65]

  function InvokeBinding(tool: Text, args: Args): Json {
    JObject([Field(ARGS_KEY, Freeze(args)), Field(TOOL_NAME_KEY, JString(tool))])
  }

  /** None where the source refuses: a binding needs a tool name. */
  function BindingDigest(tool: Text, args: Args): Option<Digest> {
    if tool == [] then None else Some(Sha256(Dumps(InvokeBinding(tool, args))))
  }

  // ----- Records.

  datatype Record = Record(
    approvalId: Text,
    tool: Text,
    expiresAt: Instant,
    binding: Digest,
    frozenArgs: Json,
    singleUse: bool,
    consumedAt: Option<Instant>,
    stateDigest: Option<Text>,
    principal: Option<Text>,
    implementationDigest: Option<Text>,
    revokedAt: Option<Instant>)
  {
    predicate Consumed() { consumedAt.Some? }

    predicate Revoked() { revokedAt.Some? }

    predicate Outstanding() { !Consumed() && !Revoked() }

    predicate Expired(now: Instant) { expiresAt <= now }

    predicate MatchesBinding(t: Text, args: Args) {
      BindingDigest(t, args) == Some(binding) && tool == t
    }
  }

  type Table = map<Text, Record>

  datatype IssueRequest = IssueRequest(
    tools: seq<Text>,
    ttlSeconds: int,
    args: Args,
    approvalId: Option<Text>,
    freshId: Text,  // the random id used when the operator names none
    now: Instant,
    catalog: Option<set<Text>>,
    stateDigest: Option<Text>,
    principal: Option<Text>,
    implementationDigest: Option<Text>)

  datatype ConsumeRequest = ConsumeRequest(
    approvalId: Text,
    tool: Text,
    now: Instant,
    args: Args,
    stateDigest: Option<Text>,
    observe: Option<Observer>,
    principal: Option<Text>,
    envelopeIdentity: Option<Text>,
    observeImplementation: Option<Observer>)

  datatype StoreCall =
    | Issue(issue: IssueRequest)
    | Lookup(id: Text)
    | Consume(request: ConsumeRequest)
    | Revoke(revokeId: Text, at: Instant)
    | RevokeAll(every: bool, principal: Option<Text>, revokeAt: Instant)

  /** Host code run inside a consume: what it called on the store, then how it ended. */
  datatype Observer = Observer(calls: seq<StoreCall>, end: ObserverEnd)

  datatype ObserverEnd = Returned(value: Observation) | RaisedReentry | Raised

  datatype ConsumeResult =
    | Granted(frozenState: Option<Text>, frozenImplementation: Option<Text>)
    | Refused(reason: ReasonCode)

  datatype StoreError = Reentry | Invalid

  // ----- The operations as functions of the table.

  function FrozenDigest(d: Option<Text>): Option<Text> {
    if d.Some? then NormalizeStateDigest(Seen(d.value)) else None
  }

  predicate IssueAccepted(t: Table, r: IssueRequest) {
    && r.principal.Some? && IsPrincipal(r.principal.value)
    && (r.stateDigest.Some? ==> FrozenDigest(r.stateDigest).Some?)
    && (r.implementationDigest.Some? ==> FrozenDigest(r.implementationDigest).Some?)
    && MIN_TTL_SECONDS <= r.ttlSeconds <= MAX_TTL_SECONDS
    && |r.tools| == 1 && r.tools[0] != []
    && (r.catalog.Some? ==> r.tools[0] in r.catalog.value)
    && IsApprovalId(Token(r))
    && Token(r) !in t
  }

  function Token(r: IssueRequest): Text {
    if r.approvalId.Some? && r.approvalId.value != [] then r.approvalId.value else r.freshId
  }

  function Minted(r: IssueRequest): Record
    requires |r.tools| == 1 && r.tools[0] != []
  {
    Record(Token(r), r.tools[0], r.now + r.ttlSeconds, BindingDigest(r.tools[0], r.args).value, Freeze(r.args), true,
           None, FrozenDigest(r.stateDigest), r.principal, FrozenDigest(r.implementationDigest), None)
  }

  predicate RevokeAllAccepted(every: bool, principal: Option<Text>) {
    every != principal.Some?
  }

  predicate Covered(r: Record, every: bool, principal: Option<Text>) {
    r.Outstanding() && (every || r.principal == principal)
  }

  function RevokeIfCovered(r: Record, every: bool, principal: Option<Text>, at: Instant): Record {
    if Covered(r, every, principal) then r.(revokedAt := Some(at)) else r
  }

  function RevokeCovered(t: Table, every: bool, principal: Option<Text>, at: Instant): Table {
    map id | id in t :: RevokeIfCovered(t[id], every, principal, at)
  }

  function CoveredIds(t: Table, every: bool, principal: Option<Text>): (ids: set<Text>)
    ensures ids <= t.Keys
  {
    set id | id in t && Covered(t[id], every, principal)
  }

  /** A call from inside an observer: everything but `revoke_all` is turned away. */
  function ReentrantCall(t: Table, c: StoreCall): Table {
    if c.RevokeAll? && RevokeAllAccepted(c.every, c.principal)
    then RevokeCovered(t, c.every, c.principal, c.revokeAt)
    else t
  }

  function Reentrant(t: Table, calls: seq<StoreCall>): Table {
    if calls == [] then t else Reentrant(ReentrantCall(t, calls[0]), calls[1..])
  }

  function AfterObserver(t: Table, o: Option<Observer>): Table {
    if o.Some? then Reentrant(t, o.value.calls) else t
  }

  /** The observer ran to its end and named the frozen digest. */
  predicate Observes(o: Option<Observer>, frozen: Text) {
    o.Some? && o.value.end.Returned? && NormalizeStateDigest(o.value.end.value) == Some(frozen)
  }

  /** The state seen at consume: the observer's answer, or the envelope's text when there is no observer. */
  predicate StateObserved(q: ConsumeRequest, frozen: Text) {
    if q.observe.Some? then Observes(q.observe, frozen) else FrozenDigest(q.stateDigest) == Some(frozen)
  }

  predicate PrincipalChecks(bound: Option<Text>, attested: Option<Text>, envelope: Option<Text>) {
    attested.Some? && bound.Some? && attested == bound && envelope == attested
  }

  /** The checks before any observer runs, in the source's order. */
  function EarlyRefusal(t: Table, q: ConsumeRequest): Option<ReasonCode> {
    if q.approvalId !in t then Some(APPROVAL_INVALID)
    else
      var r := t[q.approvalId];
      if !PrincipalChecks(r.principal, q.principal, q.envelopeIdentity) then Some(APPROVAL_PRINCIPAL_MISMATCH)
      else if r.Revoked() then Some(APPROVAL_REVOKED)
      else if r.Consumed() then Some(APPROVAL_CONSUMED)
      else if r.Expired(q.now) then Some(APPROVAL_EXPIRED)
      else if !r.MatchesBinding(q.tool, q.args) then Some(APPROVAL_BINDING_MISMATCH)
      else if !r.singleUse then Some(APPROVAL_INVALID)
      else None
  }

  function ConsumeStep(t: Table, q: ConsumeRequest): (ConsumeResult, Table) {
    if EarlyRefusal(t, q).Some? then (Refused(EarlyRefusal(t, q).value), t)
    else
      var id, r := q.approvalId, t[q.approvalId];
      var t1 := if r.implementationDigest.Some? then AfterObserver(t, q.observeImplementation) else t;
      ReentrantKeeps(t, if q.observeImplementation.Some? then q.observeImplementation.value.calls else [], id);
      if t1[id].Revoked() then (Refused(APPROVAL_REVOKED), t1)
      else if r.implementationDigest.Some? && !Observes(q.observeImplementation, r.implementationDigest.value)
      then (Refused(APPROVAL_IMPLEMENTATION_MISMATCH), t1)
      else
        var t2 := if r.stateDigest.Some? then AfterObserver(t1, q.observe) else t1;
        ReentrantKeeps(t1, if q.observe.Some? then q.observe.value.calls else [], id);
        if t2[id].Revoked() then (Refused(APPROVAL_REVOKED), t2)
        else if r.stateDigest.Some? && !StateObserved(q, r.stateDigest.value) then (Refused(APPROVAL_STATE_MISMATCH), t2)
        else (Granted(r.stateDigest, r.implementationDigest), t2[id := t2[id].(consumedAt := Some(q.now))])
  }

  /** A call from outside any observer. */
  function Apply(t: Table, c: StoreCall): Table {
    match c
    case Issue(r) => if IssueAccepted(t, r) then t[Token(r) := Minted(r)] else t
    case Lookup(_) => t
    case Consume(q) => ConsumeStep(t, q).1
    case Revoke(id, at) => if id in t && t[id].Outstanding() then t[id := t[id].(revokedAt := Some(at))] else t
    case RevokeAll(_, _, _) => ReentrantCall(t, c)
  }

  predicate Spends(t: Table, c: StoreCall, id: Text) {
    c.Consume? && c.request.approvalId == id && ConsumeStep(t, c.request).0.Granted?
  }

  // ----- What observers can do.

  /** The grant is the same grant: nothing but the two marks may differ. */
  predicate SameGrant(a: Record, b: Record) {
    a.(consumedAt := None, revokedAt := None) == b.(consumedAt := None, revokedAt := None)
  }

  predicate RevokesIn(calls: seq<StoreCall>, r: Record) {
    exists c | c in calls :: c.RevokeAll? && RevokeAllAccepted(c.every, c.principal) && (c.every || c.principal == r.principal)
  }

  lemma {:induction false} ReentrantKeeps(t: Table, calls: seq<StoreCall>, id: Text)
    requires id in t
    ensures Reentrant(t, calls).Keys == t.Keys
    ensures SameGrant(t[id], Reentrant(t, calls)[id]) && Reentrant(t, calls)[id].consumedAt == t[id].consumedAt
    ensures !t[id].Outstanding() ==> Reentrant(t, calls)[id] == t[id]
    ensures t[id].Outstanding() ==> (Reentrant(t, calls)[id].Revoked() <==> RevokesIn(calls, t[id]))
    decreases |calls|
  {
    if calls != [] {
      var next := ReentrantCall(t, calls[0]);
      assert next.Keys == t.Keys;
      ReentrantKeeps(next, calls[1..], id);
      assert calls == [calls[0]] + calls[1..];
      if t[id].Outstanding() {
        assert RevokesIn(calls, t[id]) <==> RevokesIn([calls[0]], t[id]) || RevokesIn(calls[1..], t[id]) by {
          assert forall c :: c in calls <==> c == calls[0] || c in calls[1..];
        }
        assert RevokesIn([calls[0]], t[id]) <==> next[id].Revoked() by {
          assert calls[0] in [calls[0]];
        }
      }
    }
  }

  // ----- When a consume spends.

  /** Nothing the observers did during this consume revoked the grant. */
  predicate NotRevokedDuring(r: Record, q: ConsumeRequest) {
    && (r.implementationDigest.Some? && q.observeImplementation.Some? ==> !RevokesIn(q.observeImplementation.value.calls, r))
    && (r.stateDigest.Some? && q.observe.Some? ==> !RevokesIn(q.observe.value.calls, r))
  }

  /** The consume rule with no order in it: everything that must hold for a grant to be spent. */
  predicate Spendable(t: Table, q: ConsumeRequest) {
    && q.approvalId in t
    && var r := t[q.approvalId];
       && r.principal.Some? && q.principal == r.principal && q.envelopeIdentity == r.principal
       && r.Outstanding() && q.now < r.expiresAt && r.singleUse
       && r.MatchesBinding(q.tool, q.args)
       && (r.implementationDigest.Some? ==> Observes(q.observeImplementation, r.implementationDigest.value))
       && (r.stateDigest.Some? ==> StateObserved(q, r.stateDigest.value))
       && NotRevokedDuring(r, q)
  }

  lemma ConsumeSpendsIff(t: Table, q: ConsumeRequest)
    ensures ConsumeStep(t, q).0.Granted? <==> Spendable(t, q)
    ensures ConsumeStep(t, q).0.Granted? ==>
              && ConsumeStep(t, q).0 == Granted(t[q.approvalId].stateDigest, t[q.approvalId].implementationDigest)
              && ConsumeStep(t, q).1.Keys == t.Keys
              && ConsumeStep(t, q).1[q.approvalId] == t[q.approvalId].(consumedAt := Some(q.now))
  {
    if EarlyRefusal(t, q).None? {
      var id, r := q.approvalId, t[q.approvalId];
      var calls1 := if q.observeImplementation.Some? then q.observeImplementation.value.calls else [];
      var calls2 := if q.observe.Some? then q.observe.value.calls else [];
      var t1 := if r.implementationDigest.Some? then AfterObserver(t, q.observeImplementation) else t;
      ReentrantKeeps(t, calls1, id);
      if !t1[id].Revoked() {
        assert t1[id] == r;
        ReentrantKeeps(t1, calls2, id);
      }
    }
  }

  /** The named caller presents the grant, and the host attests it. */
  predicate Attested(r: Record, q: ConsumeRequest) {
    r.principal.Some? && q.principal == r.principal && q.envelopeIdentity == r.principal
  }

  /** What a consume answers, by the record and the request: each refusal has its own condition, and what is left is granted. */
  predicate RefusalFits(t: Table, q: ConsumeRequest, result: ConsumeResult) {
    if q.approvalId !in t then result == Refused(APPROVAL_INVALID)
    else
      var r := t[q.approvalId];
      var bound := r.tool == q.tool && BindingDigest(q.tool, q.args) == Some(r.binding);
      && (!Attested(r, q) ==> result == Refused(APPROVAL_PRINCIPAL_MISMATCH))
      && (Attested(r, q) && r.revokedAt.Some? ==> result == Refused(APPROVAL_REVOKED))
      && (Attested(r, q) && r.revokedAt.None? && r.consumedAt.Some? ==> result == Refused(APPROVAL_CONSUMED))
      && (Attested(r, q) && r.Outstanding() ==>
            && (r.expiresAt <= q.now ==> result == Refused(APPROVAL_EXPIRED))
            && (q.now < r.expiresAt && !bound ==> result == Refused(APPROVAL_BINDING_MISMATCH))
            && (q.now < r.expiresAt && bound && !r.singleUse ==> result == Refused(APPROVAL_INVALID))
            && (q.now < r.expiresAt && bound && r.singleUse ==> ObservedFits(r, q, result)))
  }

  /** The answer of a consume that runs its observers: a revocation by one of them comes before what they saw. */
  predicate ObservedFits(r: Record, q: ConsumeRequest, result: ConsumeResult) {
    var sameCode := r.implementationDigest.Some? ==> Observes(q.observeImplementation, r.implementationDigest.value);
    var sameState := r.stateDigest.Some? ==> StateObserved(q, r.stateDigest.value);
    && (RevokedByObserver(r, q) ==> result == Refused(APPROVAL_REVOKED))
    && (!RevokedByObserver(r, q) && !sameCode ==> result == Refused(APPROVAL_IMPLEMENTATION_MISMATCH))
    && (!RevokedByObserver(r, q) && sameCode && !sameState ==> result == Refused(APPROVAL_STATE_MISMATCH))
    && (!RevokedByObserver(r, q) && sameCode && sameState ==> result == Granted(r.stateDigest, r.implementationDigest))
  }

  lemma RefusalReasons(t: Table, q: ConsumeRequest)
    ensures RefusalFits(t, q, ConsumeStep(t, q).0)
  {
    if EarlyRefusal(t, q).None? {
      ObservedAnswers(t, q);
      hide ConsumeStep, ObservedFits;
    }
  }

  lemma ObservedAnswers(t: Table, q: ConsumeRequest)
    requires EarlyRefusal(t, q).None?
    ensures q.approvalId in t && ObservedFits(t[q.approvalId], q, ConsumeStep(t, q).0)
  {
    hide IsPrincipal, BindingDigest, Freeze;
    var id, r := q.approvalId, t[q.approvalId];
    var calls1 := if q.observeImplementation.Some? then q.observeImplementation.value.calls else [];
    var calls2 := if q.observe.Some? then q.observe.value.calls else [];
    var t1 := if r.implementationDigest.Some? then AfterObserver(t, q.observeImplementation) else t;
    ReentrantKeeps(t, calls1, id);
    if !t1[id].Revoked() {
      assert t1[id] == r;
      ReentrantKeeps(t1, calls2, id);
    }
  }

  lemma SpendableIsOutstanding(t: Table, c: ConsumeRequest)
    ensures Spendable(t, c) ==> c.approvalId in t && t[c.approvalId].Outstanding()
  {}

  /** An observer that was reached revoked the grant; the state observer is reached when the implementation still matched. */
  predicate RevokedByObserver(r: Record, q: ConsumeRequest) {
    || (r.implementationDigest.Some? && q.observeImplementation.Some? && RevokesIn(q.observeImplementation.value.calls, r))
    || (&& (r.implementationDigest.Some? ==> Observes(q.observeImplementation, r.implementationDigest.value))
        && r.stateDigest.Some? && q.observe.Some? && RevokesIn(q.observe.value.calls, r))
  }

  /** A consume that passed the early checks is refused as revoked exactly when an observer of its own revoked the grant. */
  lemma RevokedDuringOwnConsume(t: Table, q: ConsumeRequest)
    requires EarlyRefusal(t, q).None?
    ensures q.approvalId in t && q.approvalId in ConsumeStep(t, q).1
    ensures ConsumeStep(t, q).0 == Refused(APPROVAL_REVOKED) <==> RevokedByObserver(t[q.approvalId], q)
    ensures ConsumeStep(t, q).1[q.approvalId].Revoked() <==> RevokedByObserver(t[q.approvalId], q)
    ensures RevokedByObserver(t[q.approvalId], q) ==> !ConsumeStep(t, q).1[q.approvalId].Consumed()
  {
    var id, r := q.approvalId, t[q.approvalId];
    var calls1 := if q.observeImplementation.Some? then q.observeImplementation.value.calls else [];
    var calls2 := if q.observe.Some? then q.observe.value.calls else [];
    var t1 := if r.implementationDigest.Some? then AfterObserver(t, q.observeImplementation) else t;
    ReentrantKeeps(t, calls1, id);
    if !t1[id].Revoked() {
      assert t1[id] == r;
      ReentrantKeeps(t1, calls2, id);
    }
  }

  // ----- Whole runs.

  predicate GoodRecord(id: Text, r: Record) {
    && r.approvalId == id
    && r.singleUse
    && r.principal.Some? && IsPrincipal(r.principal.value)
    && !(r.Consumed() && r.Revoked())
  }

  predicate TableInv(t: Table) {
    forall id | id in t :: GoodRecord(id, t[id])
  }

  /** What one call may do to one grant: one mark on an outstanding grant, and never a change of terms. */
  predicate Evolves(a: Record, b: Record) {
    && SameGrant(a, b)
    && (!a.Outstanding() ==> b == a)
    && !(b.Consumed() && b.Revoked() && a.Outstanding())
  }

  predicate OnlyRevoked(a: Record, b: Record) {
    SameGrant(a, b) && b.consumedAt == a.consumedAt && (!a.Outstanding() ==> b == a)
  }

  lemma ObserverOnlyRevokes(t: Table, o: Option<Observer>, id: Text)
    requires id in t
    ensures AfterObserver(t, o).Keys == t.Keys && OnlyRevoked(t[id], AfterObserver(t, o)[id])
  {
    if o.Some? {
      ReentrantKeeps(t, o.value.calls, id);
    }
  }

  lemma ConsumeEvolves(t: Table, q: ConsumeRequest, id: Text)
    requires id in t
    ensures var (result, t') := ConsumeStep(t, q);
            && t'.Keys == t.Keys
            && Evolves(t[id], t'[id])
            && (t'[id].Consumed() <==> t[id].Consumed() || (result.Granted? && id == q.approvalId))
            && (result.Granted? && id == q.approvalId ==> t[id].Outstanding())
  {
    hide IsPrincipal, BindingDigest, Freeze, AfterObserver, Observes, StateObserved;
    if EarlyRefusal(t, q).None? {
      var r := t[q.approvalId];
      var t1 := if r.implementationDigest.Some? then AfterObserver(t, q.observeImplementation) else t;
      ObserverOnlyRevokes(t, q.observeImplementation, id);
      ObserverOnlyRevokes(t1, q.observe, id);
      ObserverOnlyRevokes(t, q.observeImplementation, q.approvalId);
      ObserverOnlyRevokes(t1, q.observe, q.approvalId);
    }
  }

  lemma ConsumeKeepsKeys(t: Table, q: ConsumeRequest)
    ensures ConsumeStep(t, q).1.Keys == t.Keys
  {
    if q.approvalId in t {
      ConsumeEvolves(t, q, q.approvalId);
    }
  }

  lemma ApplyEvolves(t: Table, c: StoreCall, id: Text)
    requires TableInv(t)
    ensures id in t ==> id in Apply(t, c) && Evolves(t[id], Apply(t, c)[id])
    ensures id in t ==> (Apply(t, c)[id].Consumed() <==> t[id].Consumed() || Spends(t, c, id))
    ensures Spends(t, c, id) ==> id in t && t[id].Outstanding()
    ensures id !in t && id in Apply(t, c) ==> GoodRecord(id, Apply(t, c)[id]) && Apply(t, c)[id].Outstanding()
  {
    if c.Consume? {
      if id in t {
        ConsumeEvolves(t, c.request, id);
      } else if c.request.approvalId in t {
        ConsumeEvolves(t, c.request, c.request.approvalId);
      }
    }
  }

  lemma ApplyKeepsInv(t: Table, c: StoreCall)
    requires TableInv(t)
    ensures TableInv(Apply(t, c))
  {
    forall id | id in Apply(t, c) ensures GoodRecord(id, Apply(t, c)[id]) {
      ApplyEvolves(t, c, id);
    }
  }

  function Run(t: Table, calls: seq<StoreCall>): Table
    decreases |calls|
  {
    if calls == [] then t else Run(Apply(t, calls[0]), calls[1..])
  }

  /** How many calls of the run spent grant `id`. */
  function TimesSpent(t: Table, calls: seq<StoreCall>, id: Text): nat
    decreases |calls|
  {
    if calls == [] then 0
    else (if Spends(t, calls[0], id) then 1 else 0) + TimesSpent(Apply(t, calls[0]), calls[1..], id)
  }

  function Mark(t: Table, id: Text): nat {
    if id in t && t[id].Consumed() then 1 else 0
  }

  /**
   Over any run, whatever the observers inside it do: the number of times a grant is spent is
   exactly the change of its consumed mark, so it is never more than one; a spent grant is
   never also revoked; and a grant keeps its terms for ever and its first mark for ever.
   */
  lemma {:induction false} GrantsOverARun(t: Table, calls: seq<StoreCall>, id: Text)
    requires TableInv(t)
    ensures TableInv(Run(t, calls))
    ensures Mark(t, id) + TimesSpent(t, calls, id) == Mark(Run(t, calls), id)
    ensures id in t ==> id in Run(t, calls) && Evolves(t[id], Run(t, calls)[id])
    decreases |calls|
  {
    if calls != [] {
      hide Apply, Spends, GoodRecord;
      ApplyEvolves(t, calls[0], id);
      ApplyKeepsInv(t, calls[0]);
      GrantsOverARun(Apply(t, calls[0]), calls[1..], id);
    }
  }

  /** Nothing spends a grant that was revoked earlier in the run. */
  lemma {:induction false} RevokedIsNeverSpent(t: Table, calls: seq<StoreCall>, id: Text)
    requires TableInv(t) && id in t && t[id].Revoked()
    ensures TimesSpent(t, calls, id) == 0 && id in Run(t, calls) && Run(t, calls)[id] == t[id]
  {
    GrantsOverARun(t, calls, id);
  }

  // ----- What a mint keeps, and what a frozen digest demands.

  /** Exactly the requests that are accepted, member by member. */
  lemma AcceptedIff(t: Table, r: IssueRequest)
    ensures IssueAccepted(t, r) <==>
              && r.principal.Some? && IsPrincipal(r.principal.value)
              && (r.stateDigest.Some? ==> NormalizeStateDigest(Seen(r.stateDigest.value)).Some?)
              && (r.implementationDigest.Some? ==> NormalizeStateDigest(Seen(r.implementationDigest.value)).Some?)
              && 0 < r.ttlSeconds <= 24 * 60 * 60
              && |r.tools| == 1 && |r.tools[0]| > 0 && (r.catalog.Some? ==> r.tools[0] in r.catalog.value)
              && var id := if r.approvalId.Some? && |r.approvalId.value| > 0 then r.approvalId.value else r.freshId;
                 IsApprovalId(id) && id !in t.Keys
  {
    hide IsPrincipal, IsApprovalId;
  }

  /** A revocation names everybody or one principal, never both and never neither; it takes exactly the outstanding grants it names. */
  lemma RevocationMeans(t: Table, every: bool, principal: Option<Text>, at: Instant, id: Text)
    requires id in t
    ensures RevokeAllAccepted(every, principal) <==> (every && principal.None?) || (!every && principal.Some?)
    ensures var t' := Apply(t, RevokeAll(every, principal, at));
            && t'.Keys == t.Keys
            && t'[id] == if && t[id].consumedAt.None? && t[id].revokedAt.None?
                            && ((every && principal.None?) || (!every && principal.Some? && t[id].principal == principal))
                         then t[id].(revokedAt := Some(at)) else t[id]
    ensures forall other | other in t ::
              other in Apply(t, Revoke(id, at))
              && Apply(t, Revoke(id, at))[other] ==
                   if other == id && t[id].consumedAt.None? && t[id].revokedAt.None? then t[id].(revokedAt := Some(at)) else t[other]
  {}

  /** A digest is kept exactly when one was asked for, in lower case. */
  predicate DigestKept(asked: Option<Text>, kept: Option<Text>) {
    && (asked.Some? <==> kept.Some?)
    && (asked.Some? ==> Lowered(asked.value, kept.value))
  }

  lemma FrozenKept(asked: Option<Text>)
    requires asked.Some? ==> FrozenDigest(asked).Some?
    ensures DigestKept(asked, FrozenDigest(asked))
  {
    if asked.Some? { DigestForm(Seen(asked.value)); }
  }

  /** The grant an accepted request leaves in the table, member by member. */
  lemma MintKeeps(t: Table, r: IssueRequest)
    requires IssueAccepted(t, r)
    ensures var id := if r.approvalId.Some? && r.approvalId.value != [] then r.approvalId.value else r.freshId;
            var t' := Apply(t, Issue(r));
            && id !in t && t'.Keys == t.Keys + {id} && (forall other | other in t :: t'[other] == t[other])
            && var g := t'[id];
               && g.approvalId == id && g.tool == r.tools[0] && g.expiresAt == r.now + r.ttlSeconds && g.singleUse
               && g.principal == r.principal && g.Outstanding() && g.frozenArgs == Freeze(r.args)
               && DigestKept(r.stateDigest, g.stateDigest) && DigestKept(r.implementationDigest, g.implementationDigest)
               && g.MatchesBinding(r.tools[0], r.args)
               && 1 <= g.expiresAt - r.now <= 24 * 60 * 60 && IsPrincipal(g.principal.value) && IsApprovalId(id)
               && (r.catalog.Some? ==> g.tool in r.catalog.value)
  {
    FrozenKept(r.stateDigest);
    FrozenKept(r.implementationDigest);
    hide Freeze, IsPrincipal, IsApprovalId, FrozenDigest, DigestKept;
  }

  /** The same text but for the case of its letters. */
  ghost predicate UpToCase(a: Text, b: Text) {
    exists low: Text :: Lowered(a, low) && Lowered(b, low)
  }

  ghost predicate ObservedText(o: Option<Observer>, asked: Text) {
    o.Some? && o.value.end.Returned? && o.value.end.value.Seen? && UpToCase(o.value.end.value.text, asked)
  }

  /**
   A grant issued with a digest is spent, whenever that is, only by a consume whose observation is that digest
   up to case; the envelope's text counts for the state where the host gives no observer, and never for the code.
   */
  lemma {:induction false} DigestBinds(t: Table, r: IssueRequest, calls: seq<StoreCall>, q: ConsumeRequest)
    requires TableInv(t) && IssueAccepted(t, r) && q.approvalId == Token(r)
    requires Spends(Run(Apply(t, Issue(r)), calls), Consume(q), Token(r))
    ensures r.stateDigest.Some? ==>
              if q.observe.Some? then ObservedText(q.observe, r.stateDigest.value)
              else q.stateDigest.Some? && UpToCase(q.stateDigest.value, r.stateDigest.value)
    ensures r.implementationDigest.Some? ==> ObservedText(q.observeImplementation, r.implementationDigest.value)
  {
    var t1, id := Apply(t, Issue(r)), Token(r);
    MintKeeps(t, r);
    ApplyKeepsInv(t, Issue(r));
    GrantsOverARun(t1, calls, id);
    var t2 := Run(t1, calls);
    ConsumeSpendsIff(t2, q);
    hide Run, Apply, IssueAccepted, ConsumeStep, IsPrincipal, BindingDigest, NotRevokedDuring, TableInv, Lowered;
    var g := t2[id];
    assert SameGrant(t1[id], g);
    if g.stateDigest.Some? {
      SameDigest(if q.observe.Some? then q.observe.value.end else Returned(if q.stateDigest.Some? then Seen(q.stateDigest.value) else NotText),
                 g.stateDigest.value, r.stateDigest.value);
    }
    if g.implementationDigest.Some? {
      SameDigest(q.observeImplementation.value.end, g.implementationDigest.value, r.implementationDigest.value);
    }
  }

  lemma SameDigest(end: ObserverEnd, kept: Text, asked: Text)
    requires Lowered(asked, kept) && end.Returned? && NormalizeStateDigest(end.value) == Some(kept)
    ensures end.value.Seen? && UpToCase(end.value.text, asked)
  {
    DigestForm(end.value);
  }

  // ----- What the binding fixes.

  lemma {:induction false} SameIsSortEqual(a: Json, b: Json, c: Json)
    requires IsDict(a) && IsDict(b) && IsDict(c)
    ensures Same(a, b) <==> Same(b, a)
    ensures Same(a, b) && Same(b, c) ==> Same(a, c)
  {
    SameSorts(a, b);
    SameSorts(b, a);
    SameSorts(b, c);
    SameSorts(a, c);
  }

  lemma BindingDigestsAgree(tool: Text, a: Args, b: Args)
    requires tool != []
    ensures BindingDigest(tool, a) == BindingDigest(tool, b) <==> Same(Freeze(a), Freeze(b))
  {
    var fa, fb := Freeze(a), Freeze(b);
    FreezeNormalises(a);
    FreezeNormalises(b);
    BindingSorts(tool, a);
    BindingSorts(tool, b);
    BindingIsNumeric(tool, a);
    BindingIsNumeric(tool, b);
    DumpsAgree(InvokeBinding(tool, a), InvokeBinding(tool, b));
    SameSorts(fa, fb);
    SortKeepsValue(fa);
    SortKeepsValue(fb);
    MergeAllDecodes(SortKeys(fa));
    MergeAllDecodes(SortKeys(fb));
  }

  lemma {:induction false} BindingSorts(tool: Text, args: Args)
    ensures MergeAll(SortKeys(InvokeBinding(tool, args)))
         == JObject([Field(Merge(ARGS_KEY), MergeAll(SortKeys(Freeze(args)))), Field(Merge(TOOL_NAME_KEY), JString(Merge(tool)))])
  {
    hide Freeze, Merge, SortFields, MergeFields;
    var gs := [Field(ARGS_KEY, SortKeys(Freeze(args))), Field(TOOL_NAME_KEY, JString(tool))];
    assert SortValues([Field(ARGS_KEY, Freeze(args)), Field(TOOL_NAME_KEY, JString(tool))]) == gs;
    TwoMembersSorted(gs[0], gs[1]);
    MergeTwo(gs[0], gs[1]);
  }

  lemma BindingIsNumeric(tool: Text, args: Args)
    ensures Numeric(InvokeBinding(tool, args))
  {
    FreezeNormalises(args);
    hide Freeze;
  }

  lemma TwoMembersSorted(f: Field, g: Field)
    requires f.key == ARGS_KEY && g.key == TOOL_NAME_KEY
    ensures SortFields([f, g]) == [f, g]
  {
    assert [f, g][1..] == [g] && [g][1..] == [];
    assert SortFields([g]) == Insert(g, SortFields([g][1..])) == [g];
    assert !Less(g.key, f.key);
    assert SortFields([f, g]) == Insert(f, SortFields([f, g][1..]));
  }

  lemma MergeTwo(f: Field, g: Field)
    ensures MergeAll(JObject([f, g])) == JObject([Field(Merge(f.key), MergeAll(f.value)), Field(Merge(g.key), MergeAll(g.value))])
  {
    assert MergeFields([f, g]) == [Field(Merge(f.key), MergeAll(f.value)), Field(Merge(g.key), MergeAll(g.value))];
  }

  /** A minted grant's binding is met by exactly its own tool and arguments equal to the frozen ones. */
  lemma {:induction false} BindingMatchesExactly(r: IssueRequest, tool: Text, args: Args)
    requires |r.tools| == 1 && r.tools[0] != []
    ensures Minted(r).MatchesBinding(tool, args) <==> tool == r.tools[0] && Same(Freeze(args), Freeze(r.args))
    ensures Decoded(args) && Decoded(r.args) ==> (Minted(r).MatchesBinding(tool, args) <==> tool == r.tools[0] && Same(args, r.args))
  {
    if tool == r.tools[0] {
      BindingDigestsAgree(tool, args, r.args);
      FreezeNormalises(args);
      FreezeNormalises(r.args);
      if Decoded(args) && Decoded(r.args) {
        var fa, fb := Freeze(args), Freeze(r.args);
        SameIsSortEqual(fa, args, r.args);
        SameIsSortEqual(args, fa, fb);
        SameIsSortEqual(args, fb, r.args);
        SameIsSortEqual(fa, r.args, fb);
        SameIsSortEqual(fb, r.args, fa);
      }
    }
  }
}
