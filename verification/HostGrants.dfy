/** Connections, their names, and which of a connection's grants a request selects. */
module HostGrants {
  import opened Common
  import opened Json
  import opened Approval

  // ----- Names of connections.

  /** u, the peer's user id, .c, the connection id. */
  function PrincipalOf(uid: nat, connection: nat): Text {
    [0x75] + Decimal(uid) + [0x2e, 0x63] + Decimal(connection)
  }

  /** Two connections never share a name, even for the same user. */
  lemma PrincipalsDiffer(uid1: nat, c1: nat, uid2: nat, c2: nat)
    ensures PrincipalOf(uid1, c1) == PrincipalOf(uid2, c2) <==> uid1 == uid2 && c1 == c2
  {
    if PrincipalOf(uid1, c1) == PrincipalOf(uid2, c2) {
      var p, d1, d2 := PrincipalOf(uid1, c1), Decimal(uid1), Decimal(uid2);
      DotIsAfterDigits(uid1, c1);
      DotIsAfterDigits(uid2, c2);
      assert |d1| == |d2|;
      assert d1 == p[1..1 + |d1|] && d2 == PrincipalOf(uid2, c2)[1..1 + |d2|];
      assert Decimal(c1) == p[3 + |d1|..] && Decimal(c2) == PrincipalOf(uid2, c2)[3 + |d2|..];
      DecimalReadsBack(uid1);
      DecimalReadsBack(uid2);
      DecimalReadsBack(c1);
      DecimalReadsBack(c2);
    }
  }

  /** The letter u, the user id, a point, the letter c and the connection; a name unless it is too long for one. */
  lemma {:induction false} PrincipalForm(uid: nat, c: nat)
    ensures var p, n := PrincipalOf(uid, c), |Decimal(uid)|;
            && |p| == n + 3 + |Decimal(c)| && p[0] == 'u' as int && p[1 + n] == '.' as int && p[2 + n] == 'c' as int
            && DecimalValue(p[1..1 + n]) == uid && DecimalValue(p[3 + n..]) == c
            && (IsPrincipal(p) <==> |p| <= 128)
  {
    var p, d, e := PrincipalOf(uid, c), Decimal(uid), Decimal(c);
    assert p[1..1 + |d|] == d && p[3 + |d|..] == e;
    DecimalReadsBack(uid);
    DecimalReadsBack(c);
    forall i | 1 <= i < |p| ensures IsDigit(p[i]) || p[i] in {0x2e, 0x63} {
      if i <= |d| {
        assert p[i] == d[i - 1];
      } else if i >= 3 + |d| {
        assert p[i] == e[i - 3 - |d|];
      }
    }
    hide Decimal, DecimalValue;
  }

  lemma {:induction false} DotIsAfterDigits(uid: nat, c: nat)
    ensures var p, n := PrincipalOf(uid, c), |Decimal(uid)|;
            |p| > n + 2 && p[1 + n] == 0x2e && forall i | 1 <= i <= n :: p[i] != 0x2e
  {
    var p, d := PrincipalOf(uid, c), Decimal(uid);
    forall i | 1 <= i <= |d| ensures p[i] != 0x2e {
      assert p[i] == d[i - 1];
    }
  }

  // ----- Selecting a grant.

  /** Who asks for what. */
  datatype Ask = Ask(principal: Text, tool: Text, args: Args)

  datatype Sifted = Sifted(matched: seq<Record>, revoked: seq<Record>)

  datatype Selection = Ambiguous | One(id: Text) | ExpiredOnly(id: Text) | RevokedOnly(id: Text) | NoGrant

  predicate Candidate(r: Record, ask: Ask) {
    !r.Consumed() && r.principal == Some(ask.principal) && r.MatchesBinding(ask.tool, ask.args)
  }

  /** What one look at one grant adds. */
  function Sift(found: Sifted, r: Option<Record>, ask: Ask): Sifted {
    if r.None? || !Candidate(r.value, ask) then found
    else if r.value.Revoked() then found.(revoked := found.revoked + [r.value])
    else found.(matched := found.matched + [r.value])
  }

  function Unexpired(rs: seq<Record>, now: Instant): seq<Record> {
    if rs == [] then []
    else Unexpired(rs[..|rs| - 1], now) + (if rs[|rs| - 1].Expired(now) then [] else [rs[|rs| - 1]])
  }

  function Choose(found: Sifted, now: Instant): Selection {
    var usable := Unexpired(found.matched, now);
    if |usable| > 1 then Ambiguous
    else if |usable| == 1 then One(usable[0].approvalId)
    else if found.matched != [] then ExpiredOnly(found.matched[0].approvalId)
    else if found.revoked != [] then RevokedOnly(found.revoked[0].approvalId)
    else NoGrant
  }

  function Look(t: Table, id: Text): Option<Record> {
    if id in t then Some(t[id]) else None
  }

  function SiftAll(ids: seq<Text>, t: Table, ask: Ask): Sifted {
    if ids == [] then Sifted([], []) else Sift(SiftAll(ids[..|ids| - 1], t, ask), Look(t, ids[|ids| - 1]), ask)
  }

  /** The positions in the list whose grants the request could use, or only could have used. */
  function MatchedAt(ids: seq<Text>, t: Table, ask: Ask): set<nat> {
    set k | 0 <= k < |ids| && ids[k] in t && Candidate(t[ids[k]], ask) && !t[ids[k]].Revoked()
  }

  function UsableAt(ids: seq<Text>, t: Table, ask: Ask, now: Instant): set<nat> {
    set k | k in MatchedAt(ids, t, ask) && k < |ids| && ids[k] in t && !t[ids[k]].Expired(now)
  }

  function RevokedAt(ids: seq<Text>, t: Table, ask: Ask): set<nat> {
    set k | 0 <= k < |ids| && ids[k] in t && Candidate(t[ids[k]], ask) && t[ids[k]].Revoked()
  }

  predicate FirstOf(k: nat, ks: set<nat>) {
    k in ks && forall j | j in ks :: k <= j
  }

  /** The list `rs` holds the records at positions `ks`, as far as its length and its first element go. */
  predicate Holding(rs: seq<Record>, ks: set<nat>, ids: seq<Text>, t: Table)
    requires forall k | k in ks :: k < |ids| && ids[k] in t
  {
    && |rs| == |ks|
    && (rs != [] ==> exists k | k in ks :: FirstOf(k, ks) && rs[0] == t[ids[k]])
  }

  /** One more position: in the set exactly if its grant is in the list. */
  lemma HoldingGrows(rs: seq<Record>, ks: set<nat>, ids: seq<Text>, t: Table, hit: bool)
    requires ids != [] && forall k | k in ks :: k < |ids| - 1 && ids[k] in t
    requires Holding(rs, ks, ids[..|ids| - 1], t)
    requires hit ==> ids[|ids| - 1] in t
    ensures var n := |ids| - 1;
            Holding(if hit then rs + [t[ids[n]]] else rs, ks + if hit then {n} else {}, ids, t)
  {
    var n, front := |ids| - 1, ids[..|ids| - 1];
    var more := ks + if hit then {n} else {};
    assert forall k | k in ks :: front[k] == ids[k];
    if rs != [] {
      var k :| k in ks && FirstOf(k, ks) && rs[0] == t[front[k]];
      assert FirstOf(k, more);
    } else {
      assert ks == {};
      if hit { assert FirstOf(n, more); }
    }
  }

  lemma PositionsGrow(ids: seq<Text>, t: Table, ask: Ask, now: Instant)
    requires ids != []
    ensures var n, front, r := |ids| - 1, ids[..|ids| - 1], Look(t, ids[|ids| - 1]);
            var isMatch := r.Some? && Candidate(r.value, ask) && !r.value.Revoked();
            && MatchedAt(ids, t, ask) == MatchedAt(front, t, ask) + (if isMatch then {n} else {})
            && RevokedAt(ids, t, ask)
               == RevokedAt(front, t, ask) + (if r.Some? && Candidate(r.value, ask) && r.value.Revoked() then {n} else {})
            && UsableAt(ids, t, ask, now) == UsableAt(front, t, ask, now) + (if isMatch && !r.value.Expired(now) then {n} else {})
  {
    hide Candidate;
  }

  lemma {:induction false} SiftFinds(ids: seq<Text>, t: Table, ask: Ask, now: Instant)
    ensures Holding(SiftAll(ids, t, ask).matched, MatchedAt(ids, t, ask), ids, t)
    ensures Holding(SiftAll(ids, t, ask).revoked, RevokedAt(ids, t, ask), ids, t)
    ensures Holding(Unexpired(SiftAll(ids, t, ask).matched, now), UsableAt(ids, t, ask, now), ids, t)
  {
    if ids == [] {
      assert MatchedAt(ids, t, ask) == {} && RevokedAt(ids, t, ask) == {} && UsableAt(ids, t, ask, now) == {};
    } else {
      var front, r := ids[..|ids| - 1], Look(t, ids[|ids| - 1]);
      SiftFinds(front, t, ask, now);
      PositionsGrow(ids, t, ask, now);
      var before := SiftAll(front, t, ask);
      var isMatch := r.Some? && Candidate(r.value, ask) && !r.value.Revoked();
      HoldingGrows(before.matched, MatchedAt(front, t, ask), ids, t, isMatch);
      HoldingGrows(before.revoked, RevokedAt(front, t, ask), ids, t, r.Some? && Candidate(r.value, ask) && r.value.Revoked());
      HoldingGrows(Unexpired(before.matched, now), UsableAt(front, t, ask, now), ids, t, isMatch && !r.value.Expired(now));
      hide Candidate, MatchedAt, RevokedAt, UsableAt, Holding;
      if isMatch {
        assert (before.matched + [r.value])[..|before.matched|] == before.matched;
      }
    }
  }

  /** Each answer in terms of the positions of usable, matched and revoked grants in the list. */
  ghost predicate SelectionFits(s: Selection, ids: seq<Text>, t: Table, ask: Ask, now: Instant) {
    match s
    case Ambiguous => |UsableAt(ids, t, ask, now)| > 1
    case One(id) => exists k: nat :: UsableAt(ids, t, ask, now) == {k} && k < |ids| && ids[k] == id
    case ExpiredOnly(id) =>
      && UsableAt(ids, t, ask, now) == {}
      && exists k: nat :: FirstOf(k, MatchedAt(ids, t, ask)) && k < |ids| && ids[k] == id
    case RevokedOnly(id) =>
      && MatchedAt(ids, t, ask) == {}
      && exists k: nat :: FirstOf(k, RevokedAt(ids, t, ask)) && k < |ids| && ids[k] == id
    case NoGrant => MatchedAt(ids, t, ask) == {} && RevokedAt(ids, t, ask) == {}
  }

  /**
   A grant is selected exactly when it is the only one that names this connection, matches the request's
   tool and arguments, and is neither spent, revoked nor expired; more than one is refused as ambiguous.
   */
  method SelectApproval(ids: seq<Text>, t: Table, ask: Ask, now: Instant) returns (s: Selection)
    requires TableInv(t)
    ensures s == Choose(SiftAll(ids, t, ask), now)
    ensures SelectionFits(s, ids, t, ask, now)
  {
    var found := Sifted([], []);
    for k := 0 to |ids|
      invariant found == SiftAll(ids[..k], t, ask)
    {
      found := Sift(found, Look(t, ids[k]), ask);
      assert ids[..k + 1][..k] == ids[..k];
    }
    assert ids[..|ids|] == ids;
    s := Choose(found, now);
    SelectionMeans(ids, t, ask, now);
  }

  lemma {:induction false} SelectionMeans(ids: seq<Text>, t: Table, ask: Ask, now: Instant)
    requires TableInv(t)
    ensures SelectionFits(Choose(SiftAll(ids, t, ask), now), ids, t, ask, now)
  {
    SiftFinds(ids, t, ask, now);
    var usable := UsableAt(ids, t, ask, now);
    hide Candidate, SiftAll, Unexpired;
    if |usable| == 1 {
      var k :| k in usable;
      assert |usable - {k}| == 0;
      assert usable == {k};
    }
  }
}
