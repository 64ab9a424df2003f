/**
 JSON values as the enforcement point sees them after `json.loads`, and text as
 Python sees it: a sequence of code points, lone surrogates included.
 */
module Json {
  type CodePoint = c: nat | c < 0x11_0000

  type Text = seq<CodePoint>

  /** A number is its lexeme; an object is its members in insertion order. */
  datatype Json =
    | JNull
    | JBool(b: bool)
    | JNumber(lexeme: Text)
    | JString(s: Text)
    | JArray(items: seq<Json>)
    | JObject(fields: seq<Field>)

  datatype Field = Field(key: Text, value: Json)

  const QUOTE: CodePoint := 0x22
  const BACKSLASH: CodePoint := 0x5c
  const COMMA: CodePoint := 0x2c
  const COLON: CodePoint := 0x3a
  const OPEN_ARRAY: CodePoint := 0x5b
  const CLOSE_ARRAY: CodePoint := 0x5d
  const OPEN_OBJECT: CodePoint := 0x7b
  const CLOSE_OBJECT: CodePoint := 0x7d
  const LOWER_U: CodePoint := 0x75

  const NULL: Text := [0x6e, 0x75, 0x6c, 0x6c]
  const TRUE: Text := [0x74, 0x72, 0x75, 0x65]
  const FALSE: Text := [0x66, 0x61, 0x6c, 0x73, 0x65]

  predicate IsDigit(c: CodePoint) {
    0x30 <= c <= 0x39
  }

  /** Digits, sign, point and exponent letters: the characters a number lexeme is made of. */
  predicate IsNumberChar(c: CodePoint) {
    IsDigit(c) || c in {0x2b, 0x2d, 0x2e, 0x45, 0x65}
  }

  predicate IsNumber(t: Text) {
    t != [] && (IsDigit(t[0]) || t[0] == 0x2d) && forall i | 0 <= i < |t| :: IsNumberChar(t[i])
  }

  predicate OneOf(c: CodePoint, chars: string) { exists k | 0 <= k < |chars| :: c == chars[k] as int }

  /** The first character is a digit or a minus sign, and every one a digit, a sign, a point or the letter of an exponent. */
  lemma NumberForm(t: Text)
    ensures IsNumber(t) <==>
              |t| > 0 && OneOf(t[0], "0123456789-") && forall i | 0 <= i < |t| :: OneOf(t[i], "0123456789+-.eE")
  {
    assert forall c: CodePoint :: OneOf(c, "0123456789-") <==> '0' as int <= c <= '9' as int || c == '-' as int by {
      forall c: CodePoint | '0' as int <= c <= '9' as int ensures OneOf(c, "0123456789-") {
        assert "0123456789-"[c - '0' as int] as int == c;
      }
      assert "0123456789-"[10] == '-';
    }
    assert forall c: CodePoint :: OneOf(c, "0123456789+-.eE") <==> IsNumberChar(c) by {
      forall c: CodePoint | IsNumberChar(c) ensures OneOf(c, "0123456789+-.eE") {
        if IsDigit(c) {
          assert "0123456789+-.eE"[c - '0' as int] as int == c;
        } else {
          assert "0123456789+-.eE"[10] == '+' && "0123456789+-.eE"[11] == '-' && "0123456789+-.eE"[12] == '.'
                 && "0123456789+-.eE"[13] == 'e' && "0123456789+-.eE"[14] == 'E';
        }
      }
    }
  }

  /** Every number lexeme in the value is a JSON number, so not NaN or an infinity. */
  predicate Numeric(v: Json) {
    match v
    case JNumber(lexeme) => IsNumber(lexeme)
    case JArray(items) => forall x | x in items :: Numeric(x)
    case JObject(fields) => forall f | f in fields :: Numeric(f.value)
    case _ => true
  }

  predicate UniqueKeys(fields: seq<Field>) {
    forall i, j | 0 <= i < j < |fields| :: fields[i].key != fields[j].key
  }

  /** A Python dict at every level: no key twice. */
  predicate IsDict(v: Json) {
    match v
    case JArray(items) => forall x | x in items :: IsDict(x)
    case JObject(fields) => UniqueKeys(fields) && forall f | f in fields :: IsDict(f.value)
    case _ => true
  }

  /** Tool arguments: a JSON object, as a Python dict. */
  type Args = v: Json | v.JObject? && Numeric(v) && IsDict(v) witness JObject([])

  /** Equal as Python values: members in any order. */
  predicate Same(a: Json, b: Json) {
    match (a, b)
    case (JArray(xs), JArray(ys)) => |xs| == |ys| && forall i | 0 <= i < |xs| :: Same(xs[i], ys[i])
    case (JObject(fs), JObject(gs)) => |fs| == |gs| && forall i | 0 <= i < |fs| :: SameMember(fs[i], gs)
    case _ => a == b
  }

  predicate SameMember(f: Field, gs: seq<Field>) {
    exists j | 0 <= j < |gs| :: f.key == gs[j].key && Same(f.value, gs[j].value)
  }

  // ----- Whole numbers in decimal.

  function Decimal(n: nat): (t: Text)
    ensures |t| >= 1 && forall i | 0 <= i < |t| :: IsDigit(t[i])
  {
    if n < 10 then [0x30 + n] else Decimal(n / 10) + [0x30 + n % 10]
  }

  function DecimalValue(t: Text): nat {
    if t == [] then 0
    else DecimalValue(t[..|t| - 1]) * 10 + (if IsDigit(t[|t| - 1]) then t[|t| - 1] - 0x30 else 0)
  }

  lemma {:induction false} DecimalReadsBack(n: nat)
    ensures DecimalValue(Decimal(n)) == n
  {
    if n >= 10 {
      DecimalReadsBack(n / 10);
      assert Decimal(n)[..|Decimal(n)| - 1] == Decimal(n / 10);
    }
  }

  // ----- Surrogates.

  predicate IsHigh(c: CodePoint) {
    0xd800 <= c <= 0xdbff
  }

  predicate IsLow(c: CodePoint) {
    0xdc00 <= c <= 0xdfff
  }

  function Combine(high: CodePoint, low: CodePoint): CodePoint
    requires IsHigh(high) && IsLow(low)
  {
    0x1_0000 + (high - 0xd800) * 0x400 + (low - 0xdc00)
  }

  function HighOf(c: CodePoint): (high: CodePoint)
    requires c >= 0x1_0000
    ensures IsHigh(high)
  {
    0xd800 + (c - 0x1_0000) / 0x400
  }

  function LowOf(c: CodePoint): (low: CodePoint)
    requires c >= 0x1_0000
    ensures IsLow(low) && Combine(HighOf(c), low) == c
  {
    0xdc00 + (c - 0x1_0000) % 0x400
  }

  /** What decoding makes of a string: each split pair becomes the character it encodes. */
  function Merge(s: Text): Text {
    if s == [] then []
    else if |s| >= 2 && IsHigh(s[0]) && IsLow(s[1]) then [Combine(s[0], s[1])] + Merge(s[2..])
    else [s[0]] + Merge(s[1..])
  }

  predicate NoPair(s: Text) {
    forall i | 0 < i < |s| :: !(IsHigh(s[i - 1]) && IsLow(s[i]))
  }

  lemma {:induction false} MergeHasNoPair(s: Text)
    ensures NoPair(Merge(s))
    ensures s == [] <==> Merge(s) == []
    ensures s != [] && IsLow(Merge(s)[0]) ==> IsLow(s[0])
  {
    if s == [] {
    } else if |s| >= 2 && IsHigh(s[0]) && IsLow(s[1]) {
      MergeHasNoPair(s[2..]);
    } else {
      MergeHasNoPair(s[1..]);
      var m := Merge(s[1..]);
      assert Merge(s) == [s[0]] + m;
      if |s| >= 2 && IsLow(m[0]) {
        assert s[1..][0] == s[1];
      }
    }
  }

  lemma {:induction false} MergeIsIdentity(s: Text)
    requires NoPair(s)
    ensures Merge(s) == s
  {
    if s != [] {
      assert |s| >= 2 ==> !(IsHigh(s[1 - 1]) && IsLow(s[1]));
      assert NoPair(s[1..]) by {
        forall i | 0 < i < |s[1..]| ensures !(IsHigh(s[1..][i - 1]) && IsLow(s[1..][i])) {
          assert s[1..][i - 1] == s[i] && s[1..][i] == s[i + 1] && !(IsHigh(s[(i + 1) - 1]) && IsLow(s[i + 1]));
        }
      }
      MergeIsIdentity(s[1..]);
    }
  }

  function MergeAll(v: Json): Json {
    match v
    case JString(s) => JString(Merge(s))
    case JArray(items) => JArray(MergeItems(items))
    case JObject(fields) => JObject(MergeFields(fields))
    case _ => v
  }

  function MergeItems(items: seq<Json>): (r: seq<Json>)
    ensures |r| == |items|
    ensures forall i | 0 <= i < |items| :: r[i] == MergeAll(items[i])
  {
    if items == [] then [] else [MergeAll(items[0])] + MergeItems(items[1..])
  }

  function MergeFields(fields: seq<Field>): (r: seq<Field>)
    ensures |r| == |fields|
    ensures forall i | 0 <= i < |fields| :: r[i] == Field(Merge(fields[i].key), MergeAll(fields[i].value))
  {
    if fields == [] then []
    else [Field(Merge(fields[0].key), MergeAll(fields[0].value))] + MergeFields(fields[1..])
  }

  /** No string or key of the value holds a split pair: true of every value `json.loads` returns. */
  predicate Decoded(v: Json) {
    match v
    case JString(s) => NoPair(s)
    case JArray(items) => forall x | x in items :: Decoded(x)
    case JObject(fields) => forall f | f in fields :: NoPair(f.key) && Decoded(f.value)
    case _ => true
  }

  lemma {:induction false} MergeAllDecodes(v: Json)
    ensures Decoded(MergeAll(v))
    ensures Decoded(v) ==> MergeAll(v) == v
    ensures Numeric(v) ==> Numeric(MergeAll(v))
  {
    match v
    case JString(s) =>
      MergeHasNoPair(s);
      if NoPair(s) { MergeIsIdentity(s); }
    case JArray(items) =>
      forall i | 0 <= i < |items|
        ensures Decoded(MergeAll(items[i])) && (Decoded(items[i]) ==> MergeAll(items[i]) == items[i])
        ensures Numeric(items[i]) ==> Numeric(MergeAll(items[i]))
      { MergeAllDecodes(items[i]); }
    case JObject(fields) =>
      forall i | 0 <= i < |fields|
        ensures NoPair(Merge(fields[i].key)) && (NoPair(fields[i].key) ==> Merge(fields[i].key) == fields[i].key)
        ensures Decoded(MergeAll(fields[i].value)) && (Decoded(fields[i].value) ==> MergeAll(fields[i].value) == fields[i].value)
        ensures Numeric(fields[i].value) ==> Numeric(MergeAll(fields[i].value))
      {
        MergeHasNoPair(fields[i].key);
        if NoPair(fields[i].key) { MergeIsIdentity(fields[i].key); }
        MergeAllDecodes(fields[i].value);
      }
    case _ =>
  }
}
