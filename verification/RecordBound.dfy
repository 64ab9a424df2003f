/** Keeping one decision record on a line of at most 8192 bytes. */
module RecordBound {
  import opened Common
  import opened Json
  import opened Canonical

  const MAX_RECORD_BYTES := 8_192
  const MAX_FIELD_CHARS := 240

  function Chars(s: string): (t: Text)
    ensures |t| == |s|
  {
    seq(|s|, i requires 0 <= i < |s| => s[i] as int)
  }

  const TRUNCATED := Chars("truncated")
  const CHECKS := Chars("checks")
  const DETAIL := Chars("reason_detail")

  const CORE_KEYS: seq<Text> := [
    Chars("decision"), Chars("reason_code"), DETAIL, Chars("request_id"), Chars("schema"), Chars("seq"),
    Chars("session_id"), Chars("timestamp"), Chars("tool_name")]

  // ----- The three stages.

  function Clip(t: Text): (r: Text)
    ensures |r| <= MAX_FIELD_CHARS
  {
    if |t| <= MAX_FIELD_CHARS then t else t[..MAX_FIELD_CHARS - 3] + [0x2e, 0x2e, 0x2e]
  }

  /** A text of at most 240 characters stays; a longer one keeps its first 237 and ends in three points. */
  lemma ClipForm(t: Text)
    ensures |t| <= 240 ==> Clip(t) == t
    ensures |t| > 240 ==> |Clip(t)| == 240 && Clip(t)[..237] == t[..237] && forall i | 237 <= i < 240 :: Clip(t)[i] == '.' as int
  {}

  function ClipStrings(v: Json): Json {
    match v
    case JString(s) => JString(Clip(s))
    case JArray(items) => JArray(ClipItems(items))
    case JObject(fields) => JObject(ClipFields(fields))
    case _ => v
  }

  function ClipItems(items: seq<Json>): seq<Json> {
    if items == [] then [] else [ClipStrings(items[0])] + ClipItems(items[1..])
  }

  function ClipFields(fields: seq<Field>): (r: seq<Field>)
    ensures |r| == |fields| && forall i | 0 <= i < |fields| :: r[i] == Field(fields[i].key, ClipStrings(fields[i].value))
  {
    if fields == [] then [] else [Field(fields[0].key, ClipStrings(fields[0].value))] + ClipFields(fields[1..])
  }

  predicate Scalar(v: Json) { !v.JArray? && !v.JObject? }

  function Scalars(fields: seq<Field>): (r: seq<Field>)
    ensures forall f :: f in r <==> f in fields && Scalar(f.value)
  {
    if fields == [] then []
    else (if Scalar(fields[0].value) then [fields[0]] else []) + Scalars(fields[1..])
  }

  function Find(fields: seq<Field>, key: Text): (v: Option<Json>)
    ensures v.Some? ==> Field(key, v.value) in fields
  {
    if fields == [] then None else if fields[0].key == key then Some(fields[0].value) else Find(fields[1..], key)
  }

  /** The fields named in `keys`, in that order, as far as they are there. */
  function Pick(keys: seq<Text>, fields: seq<Field>): seq<Field> {
    if keys == [] then []
    else
      var v := Find(fields, keys[0]);
      (if v.Some? then [Field(keys[0], v.value)] else []) + Pick(keys[1..], fields)
  }

  function NamesAndOutcomes(items: seq<Json>): seq<Json> {
    if items == [] then []
    else (if items[0].JObject? then [JObject(Pick([Chars("name"), Chars("outcome")],
              items[0].fields))] else []) + NamesAndOutcomes(items[1..])
  }

  function Note(original: nat, what: string): Json {
    JString(Chars("record of ") + Decimal(original) + Chars(what))
  }

  function Clipped(fields: seq<Field>, original: nat): seq<Field> {
    Put(ClipFields(fields), Field(TRUNCATED, Note(original, " bytes; strings clipped to 240 characters")))
  }

  function Flat(clipped: seq<Field>, original: nat): seq<Field> {
    var checks := Find(clipped, CHECKS);
    var kept := if checks.Some? && checks.value.JArray?
                then Put(Scalars(clipped), Field(CHECKS, JArray(NamesAndOutcomes(checks.value.items))))
                else Scalars(clipped);
    Put(kept, Field(TRUNCATED, Note(original, " bytes; nested fields dropped, check names and outcomes kept")))
  }

  function Core(flat: seq<Field>, original: nat): seq<Field> {
    Put(Pick(CORE_KEYS, flat), Field(TRUNCATED, Note(original, " bytes; only core fields kept")))
  }

  /** The record to write and its line. */
  function BoundRecord(fields: seq<Field>): (seq<Field>, Text) {
    var line := Dumps(JObject(fields));
    if |line| <= MAX_RECORD_BYTES then (fields, line)
    else
      var clipped := Clipped(fields, |line|);
      if |Dumps(JObject(clipped))| <= MAX_RECORD_BYTES then (clipped, Dumps(JObject(clipped)))
      else
        var flat := Flat(clipped, |line|);
        if |Dumps(JObject(flat))| <= MAX_RECORD_BYTES then (flat, Dumps(JObject(flat)))
        else (Core(flat, |line|), Dumps(JObject(Core(flat, |line|))))
  }

  // ----- Sizes.

  function Size(fields: seq<Field>): nat {
    if fields == [] then 0 else |EmitField(fields[0])| + Size(fields[1..])
  }

  lemma {:induction false} EmitFieldsSize(fields: seq<Field>)
    ensures |EmitFields(fields)| == Size(fields) + if fields == [] then 0 else |fields| - 1
  {
    if |fields| > 1 {
      EmitFieldsSize(fields[1..]);
    } else if |fields| == 1 {
      assert fields[1..] == [];
    }
  }

  lemma {:induction false} InsertSize(f: Field, fs: seq<Field>)
    ensures Size(Insert(f, fs)) == |EmitField(f)| + Size(fs)
  {
    if fs != [] && Less(fs[0].key, f.key) {
      InsertSize(f, fs[1..]);
      assert ([fs[0]] + Insert(f, fs[1..]))[1..] == Insert(f, fs[1..]);
    } else {
      assert ([f] + fs)[1..] == fs;
    }
  }

  lemma {:induction false} SortSize(fs: seq<Field>)
    ensures Size(SortFields(fs)) == Size(fs)
  {
    if fs != [] {
      SortSize(fs[1..]);
      InsertSize(fs[0], SortFields(fs[1..]));
    }
  }

  lemma {:induction false} ScalarsSortAsTheyAre(fs: seq<Field>)
    requires forall f | f in fs :: Scalar(f.value)
    ensures SortValues(fs) == fs
  {
    forall i | 0 <= i < |fs| ensures SortValues(fs)[i] == fs[i] {
      assert fs[i] in fs;
    }
  }

  lemma {:induction false} LineSize(fs: seq<Field>)
    requires forall f | f in fs :: Scalar(f.value)
    ensures |Dumps(JObject(fs))| <= Size(fs) + |fs| + 2
  {
    ScalarsSortAsTheyAre(fs);
    SortSize(fs);
    EmitFieldsSize(SortFields(fs));
  }

  lemma {:induction false} PutSize(fs: seq<Field>, f: Field)
    ensures Size(Put(fs, f)) <= Size(fs) + |EmitField(f)| && |Put(fs, f)| <= |fs| + 1
  {
    if fs == [] {
      assert [f][1..] == [];
    } else if fs[0].key == f.key {
      assert ([f] + fs[1..])[1..] == fs[1..];
    } else {
      PutSize(fs[1..], f);
      assert ([fs[0]] + Put(fs[1..], f))[1..] == Put(fs[1..], f);
    }
  }

  /** Printable ASCII that no escape touches. */
  predicate Plain(t: Text) {
    forall i | 0 <= i < |t| :: 0x20 <= t[i] <= 0x7e && t[i] != QUOTE && t[i] != BACKSLASH
  }

  lemma {:induction false} EscapeSize(t: Text)
    ensures |EscapeAll(t)| <= 12 * |t|
    ensures Plain(t) ==> |EscapeAll(t)| == |t|
  {
    if t != [] {
      EscapeSize(t[1..]);
      assert forall i | 0 <= i < |t| - 1 :: t[1..][i] == t[i + 1];
      OneEscapeSize(t[0]);
    }
  }

  lemma OneEscapeSize(c: CodePoint)
    ensures |Escape(c)| <= 12
    ensures 0x20 <= c <= 0x7e && c != QUOTE && c != BACKSLASH ==> |Escape(c)| == 1
  {}

  lemma {:induction false} EscapeConcat(a: Text, b: Text)
    ensures EscapeAll(a + b) == EscapeAll(a) + EscapeAll(b)
  {
    if a == [] {
      assert a + b == b;
    } else {
      assert (a + b)[0] == a[0] && (a + b)[1..] == a[1..] + b;
      EscapeConcat(a[1..], b);
    }
  }

  // ----- The bound.

  /** What the host puts in a record's core fields: plain strings, a detail of any characters, and numbers that fit. */
  predicate CoreFieldOk(f: Field) {
    f.key in CORE_KEYS ==>
      && (f.value.JString? && f.key != DETAIL ==> Plain(f.value.s))
      && (f.value.JNumber? ==> |f.value.lexeme| <= 100)
  }

  function ValueRoom(key: Text): nat { if key == DETAIL then 12 * MAX_FIELD_CHARS + 2 else MAX_FIELD_CHARS + 2 }

  lemma ClippedValueFits(f: Field)
    requires f.key in CORE_KEYS && CoreFieldOk(f) && Scalar(f.value)
    ensures |EmitField(Field(f.key, ClipStrings(f.value)))| <= 12 * |f.key| + 3 + ValueRoom(f.key)
  {
    ClippedScalarFits(f.value, f.key == DETAIL);
    EscapeSize(f.key);
    hide Emit, EscapeAll, ClipStrings, CORE_KEYS;
  }

  lemma {:induction false} ClippedScalarFits(v: Json, detail: bool)
    requires Scalar(v) && (v.JString? && !detail ==> Plain(v.s)) && (v.JNumber? ==> |v.lexeme| <= 100)
    ensures |Emit(ClipStrings(v))| <= 2 + if detail then 12 * MAX_FIELD_CHARS else MAX_FIELD_CHARS
  {
    if v.JString? {
      EscapeSize(Clip(v.s));
      hide EscapeAll;
      if !detail {
        assert Plain(Clip(v.s));
      }
    }
  }

  function Room(keys: seq<Text>): nat {
    if keys == [] then 0 else 12 * |keys[0]| + 3 + ValueRoom(keys[0]) + Room(keys[1..])
  }

  lemma {:induction false} PickFits(keys: seq<Text>, fields: seq<Field>)
    requires forall f | f in fields && f.key in keys :: |EmitField(f)| <= 12 * |f.key| + 3 + ValueRoom(f.key)
    ensures Size(Pick(keys, fields)) <= Room(keys) && |Pick(keys, fields)| <= |keys|
    ensures forall f | f in Pick(keys, fields) :: f in fields && f.key in keys
  {
    if keys != [] {
      PickFits(keys[1..], fields);
      var v := Find(fields, keys[0]);
      if v.Some? {
        var f := Field(keys[0], v.value);
        assert f in fields;
        assert ([f] + Pick(keys[1..], fields))[1..] == Pick(keys[1..], fields);
      } else {
        assert Pick(keys, fields) == Pick(keys[1..], fields);
      }
    }
  }

  lemma CoreKeysDiffer()
    ensures TRUNCATED !in CORE_KEYS && CHECKS !in CORE_KEYS
  {
    forall k | k in CORE_KEYS ensures k != TRUNCATED && k != CHECKS {
      assert TRUNCATED[1] == 'r' as int && CHECKS[0] == 'c' as int;
      var i :| 0 <= i < |CORE_KEYS| && CORE_KEYS[i] == k;
      assert |k| == 9 ==> k[1] in {'i' as int, 'o' as int};
      assert |k| == 6 ==> k[0] == 's' as int;
    }
  }

  lemma CoreRoom()
    ensures Room(CORE_KEYS) == 9 * 3 + 12 * 79 + 8 * (MAX_FIELD_CHARS + 2) + 12 * MAX_FIELD_CHARS + 2
  {
    var ks := CORE_KEYS;
    assert forall i | 0 <= i < 9 :: ks[i] == DETAIL <==> i == 2 by {
      assert |ks[0]| == 8 && |ks[1]| == 11 && |ks[2]| == 13 && |ks[3]| == 10 && |ks[4]| == 6 && |ks[5]| == 3;
    }
    assert Room(ks[9..]) == 0;
    assert Room(ks[8..]) == 12 * 9 + 245 + Room(ks[9..]);
    assert Room(ks[7..]) == 12 * 9 + 245 + Room(ks[8..]);
    assert Room(ks[6..]) == 12 * 10 + 245 + Room(ks[7..]);
    assert Room(ks[5..]) == 12 * 3 + 245 + Room(ks[6..]);
    assert Room(ks[4..]) == 12 * 6 + 245 + Room(ks[5..]);
    assert Room(ks[3..]) == 12 * 10 + 245 + Room(ks[4..]);
    assert Room(ks[2..]) == 12 * 13 + 2885 + Room(ks[3..]);
    assert Room(ks[1..]) == 12 * 11 + 245 + Room(ks[2..]);
    assert ks[0..] == ks;
  }

  /** The fields of the flat record under core keys are the record's own, clipped. */
  lemma FlatFieldsAreClipped(fields: seq<Field>, original: nat, g: Field)
    requires g in Flat(Clipped(fields, original), original) && g.key in CORE_KEYS
    ensures exists f :: f in fields && f.key == g.key && g.value == ClipStrings(f.value) && Scalar(f.value)
  {
    CoreKeysDiffer();
    var clipped := Clipped(fields, original);
    assert g in Scalars(clipped);
    assert g in ClipFields(fields);
    var i :| 0 <= i < |fields| && ClipFields(fields)[i] == g;
    assert fields[i] in fields;
  }

  lemma {:induction false} NoteSize(original: nat)
    requires |Decimal(original)| <= 100
    ensures |EmitField(Field(TRUNCATED, Note(original, " bytes; only core fields kept")))| <= 12 * 9 + 3 + 2 + 12 * 39 + 100
  {
    var a, d, b := Chars("record of "), Decimal(original), Chars(" bytes; only core fields kept");
    EscapeSize(TRUNCATED);
    EscapeConcat(a + d, b);
    EscapeConcat(a, d);
    EscapeSize(a);
    EscapeSize(d);
    EscapeSize(b);
    hide EscapeAll, Decimal, Chars;
    assert Plain(d);
  }

  /** Which of the four forms is written. */
  lemma BoundRecordCases(fields: seq<Field>)
    ensures var original := |Dumps(JObject(fields))|;
            var (clipped, flat) := (Clipped(fields, original), Flat(Clipped(fields, original), original));
            var (kept, line) := BoundRecord(fields);
            && line == Dumps(JObject(kept))
            && (original <= MAX_RECORD_BYTES ==> kept == fields)
            && (original > MAX_RECORD_BYTES ==> kept in {clipped, flat, Core(flat, original)})
            && (original > MAX_RECORD_BYTES && |Dumps(JObject(clipped))| <= MAX_RECORD_BYTES ==> kept == clipped)
            && (original > MAX_RECORD_BYTES && |Dumps(JObject(clipped))| > MAX_RECORD_BYTES && |Dumps(JObject(flat))| <= MAX_RECORD_BYTES ==>
                  kept == flat)
            && (|line| <= MAX_RECORD_BYTES || kept == Core(flat, original))
  {
    hide Dumps, Clipped, Flat, Core;
  }

  lemma {:induction false} FlatFieldFits(fields: seq<Field>, original: nat, g: Field)
    requires forall f | f in fields :: CoreFieldOk(f)
    requires g in Flat(Clipped(fields, original), original) && g.key in CORE_KEYS
    ensures Scalar(g.value) && |EmitField(g)| <= 12 * |g.key| + 3 + ValueRoom(g.key)
  {
    FlatFieldsAreClipped(fields, original, g);
    hide Flat, Clipped, EmitField, CORE_KEYS, ValueRoom, CoreFieldOk;
    var f :| f in fields && f.key == g.key && g.value == ClipStrings(f.value) && Scalar(f.value);
    ClippedValueFits(f);
    ClipKeepsScalars(f.value);
  }

  /**
   A record with the host's own core fields always ends up on a line of at most 8192 bytes, even when
   every character of its detail escapes to twelve.
   */
  lemma LineIsBounded(fields: seq<Field>)
    requires forall f | f in fields :: CoreFieldOk(f)
    requires |Decimal(|Dumps(JObject(fields))|)| <= 100
    ensures |BoundRecord(fields).1| <= MAX_RECORD_BYTES
  {
    assert |CORE_KEYS| == 9;
    hide Flat, Clipped, Dumps, EmitField, CORE_KEYS, ValueRoom, Note, CoreFieldOk, BoundRecord, Core, Pick, Size, Room;
    var original := |Dumps(JObject(fields))|;
    var flat := Flat(Clipped(fields, original), original);
    forall g | g in flat && g.key in CORE_KEYS
      ensures Scalar(g.value) && |EmitField(g)| <= 12 * |g.key| + 3 + ValueRoom(g.key)
    {
      FlatFieldFits(fields, original, g);
    }
    PickFits(CORE_KEYS, flat);
    CoreIsBounded(flat, original);
    BoundRecordCases(fields);
  }

  lemma {:induction false} CoreIsBounded(flat: seq<Field>, original: nat)
    requires |Decimal(original)| <= 100 && |CORE_KEYS| == 9
    requires Size(Pick(CORE_KEYS, flat)) <= Room(CORE_KEYS) && |Pick(CORE_KEYS, flat)| <= |CORE_KEYS|
    requires forall f | f in Pick(CORE_KEYS, flat) :: Scalar(f.value)
    ensures |Dumps(JObject(Core(flat, original)))| <= MAX_RECORD_BYTES
  {
    var note := Field(TRUNCATED, Note(original, " bytes; only core fields kept"));
    CoreRoom();
    NoteSize(original);
    PutSize(Pick(CORE_KEYS, flat), note);
    assert Scalar(note.value);
    hide Dumps, EmitField, CORE_KEYS, Room, Pick, Size, Note, Put;
    LineSize(Core(flat, original));
  }

  // ----- What survives.

  lemma {:induction false} FindAfterPut(fs: seq<Field>, f: Field, key: Text)
    requires key != f.key
    ensures Find(Put(fs, f), key) == Find(fs, key)
  {
    if fs == [] {
      assert [f][1..] == [];
    } else if fs[0].key == f.key {
      assert ([f] + fs[1..])[1..] == fs[1..];
    } else {
      FindAfterPut(fs[1..], f, key);
      assert ([fs[0]] + Put(fs[1..], f))[1..] == Put(fs[1..], f);
    }
  }

  lemma {:induction false} FindPut(fs: seq<Field>, f: Field)
    ensures Find(Put(fs, f), f.key) == Some(f.value)
  {
    if fs != [] && fs[0].key != f.key {
      FindPut(fs[1..], f);
      assert ([fs[0]] + Put(fs[1..], f))[1..] == Put(fs[1..], f);
    }
  }

  lemma {:induction false} FindClipped(fs: seq<Field>, key: Text)
    ensures Find(ClipFields(fs), key) == if Find(fs, key).Some? then Some(ClipStrings(Find(fs, key).value)) else None
  {
    if fs != [] {
      FindClipped(fs[1..], key);
      assert ClipFields(fs)[1..] == ClipFields(fs[1..]);
    }
  }

  lemma {:induction false} FindScalar(fs: seq<Field>, key: Text)
    requires UniqueKeys(fs)
    ensures Find(Scalars(fs), key) == if Find(fs, key).Some? && Scalar(Find(fs, key).value) then Find(fs, key) else None
  {
    if fs != [] {
      var rest := fs[1..];
      assert UniqueKeys(rest);
      FindScalar(rest, key);
      if Scalar(fs[0].value) {
        assert ([fs[0]] + Scalars(rest))[1..] == Scalars(rest);
      } else {
        assert [] + Scalars(rest) == Scalars(rest);
        if fs[0].key == key {
          KeyIsFirst(fs);
        }
      }
    }
  }

  lemma KeyIsFirst(fs: seq<Field>)
    requires UniqueKeys(fs) && fs != []
    ensures Find(fs[1..], fs[0].key).None?
  {
    forall k | 0 <= k < |fs[1..]| ensures fs[1..][k].key != fs[0].key {
      assert fs[1..][k] == fs[k + 1];
    }
  }

  lemma {:induction false} FindPicked(keys: seq<Text>, fields: seq<Field>, key: Text)
    requires key in keys
    ensures Find(Pick(keys, fields), key) == Find(fields, key)
  {
    var v := Find(fields, keys[0]);
    if key in keys[1..] {
      FindPicked(keys[1..], fields, key);
    }
    if v.Some? {
      assert Pick(keys, fields)[1..] == Pick(keys[1..], fields);
    } else {
      assert Pick(keys, fields) == Pick(keys[1..], fields);
      if key == keys[0] {
        NotPicked(keys[1..], fields, key);
      }
    }
  }

  lemma {:induction false} NotPicked(keys: seq<Text>, fields: seq<Field>, key: Text)
    requires Find(fields, key).None?
    ensures Find(Pick(keys, fields), key).None?
  {
    if keys != [] {
      NotPicked(keys[1..], fields, key);
      if Find(fields, keys[0]).Some? {
        assert Pick(keys, fields)[1..] == Pick(keys[1..], fields);
      } else {
        assert Pick(keys, fields) == Pick(keys[1..], fields);
      }
    }
  }

  /**
   A record that fits is written as it is; a longer one says so in its `truncated` field, and
   still has each scalar core field, at worst clipped. The line is the canonical form of what is returned.
   */
  lemma {:induction false} CoreFieldsSurvive(fields: seq<Field>, key: Text)
    requires UniqueKeys(fields) && key in CORE_KEYS && Find(fields, key).Some? && Scalar(Find(fields, key).value)
    ensures var (kept, line) := BoundRecord(fields);
            && line == Dumps(JObject(kept))
            && (if |Dumps(JObject(fields))| <= MAX_RECORD_BYTES then kept == fields
                else Find(kept, TRUNCATED).Some? && Find(kept, key) == Some(ClipStrings(Find(fields, key).value)))
  {
    var original := |Dumps(JObject(fields))|;
    CoreKeysDiffer();
    BoundRecordCases(fields);
    hide Dumps, CORE_KEYS, ClipStrings, Note, TRUNCATED, CHECKS, Flat, BoundRecord, Pick, Put, Find, ClipFields, UniqueKeys;
    var clipped := Clipped(fields, original);
    FindClipped(fields, key);
    FindAfterPut(ClipFields(fields), Field(TRUNCATED, Note(original, " bytes; strings clipped to 240 characters")), key);
    FindPut(ClipFields(fields), Field(TRUNCATED, Note(original, " bytes; strings clipped to 240 characters")));
    ClippedUnique(fields, original);
    FlatKeeps(clipped, original, key);
    FindPicked(CORE_KEYS, Flat(clipped, original), key);
    FindAfterPut(Pick(CORE_KEYS, Flat(clipped, original)), Field(TRUNCATED, Note(original, " bytes; only core fields kept")), key);
    FindPut(Pick(CORE_KEYS, Flat(clipped, original)), Field(TRUNCATED, Note(original, " bytes; only core fields kept")));
    ClipKeepsScalars(Find(fields, key).value);
  }

  lemma {:induction false} ClipKeepsScalars(v: Json)
    ensures Scalar(ClipStrings(v)) <==> Scalar(v)
  {}

  lemma ClippedUnique(fields: seq<Field>, original: nat)
    requires UniqueKeys(fields)
    ensures UniqueKeys(Clipped(fields, original))
  {
    PutKeepsUnique(ClipFields(fields), Field(TRUNCATED, Note(original, " bytes; strings clipped to 240 characters")));
  }

  lemma {:induction false} FlatKeeps(clipped: seq<Field>, original: nat, key: Text)
    requires UniqueKeys(clipped) && key != TRUNCATED && key != CHECKS
    ensures Find(clipped, key).Some? && Scalar(Find(clipped, key).value) ==> Find(Flat(clipped, original), key) == Find(clipped, key)
    ensures Find(Flat(clipped, original), TRUNCATED).Some?
  {
    var checks := Find(clipped, CHECKS);
    FindScalar(clipped, key);
    var note := Field(TRUNCATED, Note(original, " bytes; nested fields dropped, check names and outcomes kept"));
    if checks.Some? && checks.value.JArray? {
      var f := Field(CHECKS, JArray(NamesAndOutcomes(checks.value.items)));
      FindAfterPut(Scalars(clipped), f, key);
      FindAfterPut(Put(Scalars(clipped), f), note, key);
      FindPut(Put(Scalars(clipped), f), note);
    } else {
      FindAfterPut(Scalars(clipped), note, key);
      FindPut(Scalars(clipped), note);
    }
  }

  // ----- What is kept of the checks.

  lemma {:induction false} FindInPick(key: Text, other: Text, fields: seq<Field>)
    requires key != other
    ensures var kept := Pick([key, other], fields);
            && |kept| <= 2 && (forall f | f in kept :: f.key in {key, other})
            && Find(kept, key) == Find(fields, key) && Find(kept, other) == Find(fields, other)
  {
    var a, b := Find(fields, key), Find(fields, other);
    var second := if b.Some? then [Field(other, b.value)] else [];
    assert Pick([other], fields) == second by {
      assert [other][1..] == [];
      assert second + [] == second;
    }
    assert [key, other][1..] == [other];
    var kept := (if a.Some? then [Field(key, a.value)] else []) + second;
    assert a.Some? ==> kept[1..] == second;
    assert a.None? ==> kept == second;
    assert b.Some? ==> second[1..] == [];
  }

  function Objects(items: seq<Json>): (r: seq<Json>)
    ensures forall v :: v in r <==> v in items && v.JObject?
  {
    if items == [] then [] else (if items[0].JObject? then [items[0]] else []) + Objects(items[1..])
  }

  /** Each check that is an object keeps its name and its outcome and nothing else, in order; what is no object goes. */
  lemma {:induction false} ChecksKept(items: seq<Json>)
    ensures var objects, kept := Objects(items), NamesAndOutcomes(items);
            |kept| == |objects| && forall k | 0 <= k < |objects| :: objects[k].JObject? && NameAndOutcomeOf(objects[k].fields, kept[k])
  {
    if items != [] {
      hide NameAndOutcomeOf, NamesAndOutcomes, Objects;
      ChecksKept(items[1..]);
      ChecksUnfold(items);
    }
  }

  lemma {:induction false} ChecksUnfold(items: seq<Json>)
    requires items != []
    ensures !items[0].JObject? ==>
              NamesAndOutcomes(items) == NamesAndOutcomes(items[1..]) && Objects(items) == Objects(items[1..])
    ensures items[0].JObject? ==>
              exists kept :: NameAndOutcomeOf(items[0].fields, kept)
                          && NamesAndOutcomes(items) == [kept] + NamesAndOutcomes(items[1..])
                          && Objects(items) == [items[0]] + Objects(items[1..])
  {
    if items[0].JObject? {
      NameIsNotOutcome();
      FindInPick(Chars("name"), Chars("outcome"), items[0].fields);
      var kept := JObject(Pick([Chars("name"), Chars("outcome")], items[0].fields));
      assert NameAndOutcomeOf(items[0].fields, kept);
      hide Pick, Find, NameAndOutcomeOf;
    }
  }

  predicate NameAndOutcomeOf(fields: seq<Field>, kept: Json) {
    && kept.JObject? && |kept.fields| <= 2
    && (forall f | f in kept.fields :: f.key in {Chars("name"), Chars("outcome")})
    && Find(kept.fields, Chars("name")) == Find(fields, Chars("name"))
    && Find(kept.fields, Chars("outcome")) == Find(fields, Chars("outcome"))
  }

  lemma NameIsNotOutcome()
    ensures Chars("name") != Chars("outcome")
  {
    assert |Chars("name")| != |Chars("outcome")|;
  }

  /** A flattened record keeps its list of checks, each clipped and cut down, under the same key. */
  lemma {:induction false} FlatKeepsChecks(fields: seq<Field>, original: nat, items: seq<Json>)
    requires Find(fields, Chars("checks")) == Some(JArray(items))
    ensures Find(Flat(Clipped(fields, original), original), Chars("checks")) == Some(JArray(NamesAndOutcomes(ClipItems(items))))
  {
    hide Find, Put, Scalars, NamesAndOutcomes, ClipItems, ClipFields, Note;
    var clipped := Clipped(fields, original);
    assert CHECKS != TRUNCATED by { assert |CHECKS| != |TRUNCATED|; }
    FindClipped(fields, CHECKS);
    FindAfterPut(ClipFields(fields), Field(TRUNCATED, Note(original, " bytes; strings clipped to 240 characters")), CHECKS);
    var checks := Field(CHECKS, JArray(NamesAndOutcomes(ClipItems(items))));
    FindPut(Scalars(clipped), checks);
    FindAfterPut(Put(Scalars(clipped), checks),
                 Field(TRUNCATED, Note(original, " bytes; nested fields dropped, check names and outcomes kept")), CHECKS);
  }
}
