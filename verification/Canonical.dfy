/**
 The canonical printer: sorted keys, compact separators, ASCII only. A reader
 recovers everything the printer was given, up to key order and split surrogate pairs.
 */
module Canonical {
  import opened Common
  import opened Json

  // ----- Key order and sorting.

  /** Python's order on strings: code point by code point. */
  predicate Less(a: Text, b: Text) {
    b != [] && (a == [] || a[0] < b[0] || (a[0] == b[0] && Less(a[1..], b[1..])))
  }

  lemma {:induction false} LessIsTotal(a: Text, b: Text)
    ensures Less(a, b) || Less(b, a) || a == b
    ensures !(Less(a, b) && Less(b, a)) && !Less(a, a)
  {
    if a != [] && b != [] {
      LessIsTotal(a[1..], b[1..]);
      assert a == [a[0]] + a[1..] && b == [b[0]] + b[1..];
    }
    if a != [] {
      LessIsTotal(a[1..], a[1..]);
    }
  }

  lemma {:induction false} LessIsTransitive(a: Text, b: Text, c: Text)
    requires Less(a, b) && Less(b, c)
    ensures Less(a, c)
  {
    if a != [] && a[0] == b[0] && b[0] == c[0] {
      LessIsTransitive(a[1..], b[1..], c[1..]);
    }
  }

  predicate Sorted(fs: seq<Field>) {
    forall i, j | 0 <= i < j < |fs| :: !Less(fs[j].key, fs[i].key)
  }

  function Insert(f: Field, fs: seq<Field>): (r: seq<Field>)
    ensures |r| == |fs| + 1
    ensures forall x :: x in r <==> x == f || x in fs
  {
    if fs == [] then [f]
    else if Less(fs[0].key, f.key) then [fs[0]] + Insert(f, fs[1..])
    else [f] + fs
  }

  function SortFields(fs: seq<Field>): (r: seq<Field>)
    ensures |r| == |fs|
    ensures forall x :: x in r <==> x in fs
  {
    if fs == [] then [] else Insert(fs[0], SortFields(fs[1..]))
  }

  lemma {:induction false} InsertSorts(f: Field, fs: seq<Field>)
    requires Sorted(fs)
    ensures Sorted(Insert(f, fs))
  {
    if fs != [] && Less(fs[0].key, f.key) {
      InsertSorts(f, fs[1..]);
      var r := Insert(f, fs[1..]);
      LessIsTotal(fs[0].key, f.key);
      forall i | 0 <= i < |r| ensures !Less(r[i].key, fs[0].key) {
        assert r[i] in r;
      }
    } else if fs != [] {
      forall j | 0 <= j < |fs| ensures !Less(fs[j].key, f.key) {
        if Less(fs[j].key, f.key) {
          LessIsTotal(f.key, fs[0].key);
          if Less(f.key, fs[0].key) { LessIsTransitive(fs[j].key, f.key, fs[0].key); }
        }
      }
    }
  }

  lemma {:induction false} SortFieldsSorts(fs: seq<Field>)
    ensures Sorted(SortFields(fs))
  {
    if fs != [] {
      SortFieldsSorts(fs[1..]);
      InsertSorts(fs[0], SortFields(fs[1..]));
    }
  }

  /** Sorting never merges two members: distinct keys stay distinct. */
  lemma {:induction false} SortKeepsUnique(fs: seq<Field>)
    requires UniqueKeys(fs)
    ensures UniqueKeys(SortFields(fs))
  {
    if fs != [] {
      SortKeepsUnique(fs[1..]);
      var rest := SortFields(fs[1..]);
      forall x | x in rest ensures x.key != fs[0].key {
        assert x in fs[1..];
      }
      InsertKeepsUnique(fs[0], rest);
    }
  }

  lemma {:induction false} InsertKeepsUnique(f: Field, fs: seq<Field>)
    requires UniqueKeys(fs) && forall x | x in fs :: x.key != f.key
    ensures UniqueKeys(Insert(f, fs))
  {
    if fs != [] && Less(fs[0].key, f.key) {
      InsertKeepsUnique(f, fs[1..]);
      var r := Insert(f, fs[1..]);
      forall i | 0 <= i < |r| ensures r[i].key != fs[0].key {
        assert r[i] in r;
        if r[i] != f {
          var j :| 0 <= j < |fs[1..]| && fs[1..][j] == r[i];
          assert fs[0].key != fs[j + 1].key;
        }
      }
    }
  }

  /** Two sorted member lists with distinct keys and the same members are the same list. */
  lemma {:induction false} SortedIsUnique(fs: seq<Field>, gs: seq<Field>)
    requires Sorted(fs) && Sorted(gs) && UniqueKeys(fs) && UniqueKeys(gs)
    requires |fs| == |gs| && forall x | x in fs :: x in gs
    ensures fs == gs
  {
    if fs != [] {
      var f, g := fs[0], gs[0];
      assert f in gs;
      var i :| 0 <= i < |gs| && gs[i] == f;
      SameMembersBothWays(fs, gs);
      assert g in gs;
      var j :| 0 <= j < |fs| && fs[j] == g;
      LessIsTotal(f.key, g.key);
      assert f.key == g.key;
      assert i == 0;
      forall x | x in fs[1..] ensures x in gs[1..] {
        assert x in gs;
        var k :| 0 <= k < |gs| && gs[k] == x;
        assert k != 0;
        assert gs[1..][k - 1] == x;
      }
      SortedIsUnique(fs[1..], gs[1..]);
      assert fs == [f] + fs[1..] && gs == [g] + gs[1..];
    }
  }

  lemma {:induction false} SameMembersBothWays(fs: seq<Field>, gs: seq<Field>)
    requires UniqueKeys(fs) && UniqueKeys(gs) && |fs| == |gs| && forall x | x in fs :: x in gs
    ensures forall x | x in gs :: x in fs
    decreases |fs|
  {
    if fs != [] {
      assert fs[0] in gs;
      var i :| 0 <= i < |gs| && gs[i] == fs[0];
      var rest := gs[..i] + gs[i + 1..];
      forall x | x in fs[1..] ensures x in rest {
        assert x in gs;
        var k :| 0 <= k < |gs| && gs[k] == x;
        assert k != i;
        assert if k < i then rest[k] == x else rest[k - 1] == x;
      }
      SameMembersBothWays(fs[1..], rest);
      forall x | x in gs ensures x in fs {
        var k :| 0 <= k < |gs| && gs[k] == x;
        if k != i {
          assert if k < i then rest[k] == x else rest[k - 1] == x;
          assert x in fs[1..];
        }
      }
    }
  }

  function SortKeys(v: Json): Json {
    match v
    case JArray(items) => JArray(SortItems(items))
    case JObject(fields) => JObject(SortFields(SortValues(fields)))
    case _ => v
  }

  function SortItems(items: seq<Json>): (r: seq<Json>)
    ensures |r| == |items|
    ensures forall i | 0 <= i < |items| :: r[i] == SortKeys(items[i])
  {
    if items == [] then [] else [SortKeys(items[0])] + SortItems(items[1..])
  }

  function SortValues(fields: seq<Field>): (r: seq<Field>)
    ensures |r| == |fields|
    ensures forall i | 0 <= i < |fields| :: r[i] == Field(fields[i].key, SortKeys(fields[i].value))
  {
    if fields == [] then [] else [Field(fields[0].key, SortKeys(fields[0].value))] + SortValues(fields[1..])
  }

  // ----- Printing.

  function HexDigit(n: nat): CodePoint
    requires n < 16
  {
    if n < 10 then 0x30 + n else 0x57 + n
  }

  function Hex4(n: nat): (r: Text)
    requires n < 0x1_0000
    ensures |r| == 4
  {
    [HexDigit(n / 0x1000), HexDigit(n / 0x100 % 16), HexDigit(n / 16 % 16), HexDigit(n % 16)]
  }

  function EscapeUnit(n: nat): (r: Text)
    requires n < 0x1_0000
  {
    [BACKSLASH, LOWER_U] + Hex4(n)
  }

  /** The letter of a two-character escape, for the characters that have one. */
  function ShortEscape(c: CodePoint): Option<CodePoint> {
    if c == QUOTE || c == BACKSLASH then Some(c)
    else if c == 8 then Some(0x62)
    else if c == 9 then Some(0x74)
    else if c == 10 then Some(0x6e)
    else if c == 12 then Some(0x66)
    else if c == 13 then Some(0x72)
    else None
  }

  function Escape(c: CodePoint): (r: Text)
    ensures r != []
  {
    if ShortEscape(c).Some? then [BACKSLASH, ShortEscape(c).value]
    else if 0x20 <= c <= 0x7e then [c]
    else if c < 0x1_0000 then EscapeUnit(c)
    else EscapeUnit(HighOf(c)) + EscapeUnit(LowOf(c))
  }

  /** The value of a lower-case hexadecimal digit. */
  predicate LowerHex(c: CodePoint, value: nat) {
    (value < 10 && c == '0' as int + value) || (10 <= value < 16 && c == 'a' as int + (value - 10))
  }

  /** A backslash, the letter u and the four lower-case hexadecimal digits of `n`. */
  ghost predicate UnitOf(t: Text, n: nat) {
    && |t| == 6 && t[0] == '\\' as int && t[1] == 'u' as int
    && exists a: nat, b: nat, c: nat, d: nat ::
         LowerHex(t[2], a) && LowerHex(t[3], b) && LowerHex(t[4], c) && LowerHex(t[5], d)
         && n == 0x1000 * a + 0x100 * b + 0x10 * c + d
  }

  lemma DigitForm(n: nat)
    requires n < 16
    ensures LowerHex(HexDigit(n), n)
  {}

  lemma FourDigits(n: nat)
    requires n < 0x1_0000
    ensures n == 0x1000 * (n / 0x1000) + 0x100 * (n / 0x100 % 16) + 0x10 * (n / 16 % 16) + n % 16
  {
    assert n / 0x100 == n / 16 / 16 && n / 0x1000 == n / 0x100 / 16;
  }

  lemma FourLetters(t: Text, a: nat, b: nat, c: nat, d: nat)
    requires |t| == 6 && t[0] == '\\' as int && t[1] == 'u' as int
    requires LowerHex(t[2], a) && LowerHex(t[3], b) && LowerHex(t[4], c) && LowerHex(t[5], d)
    ensures UnitOf(t, 0x1000 * a + 0x100 * b + 0x10 * c + d)
  {
    hide LowerHex;
  }

  lemma UnitForm(n: nat)
    requires n < 0x1_0000
    ensures UnitOf(EscapeUnit(n), n)
  {
    hide HexDigit, LowerHex, UnitOf;
    var a, b, c, d := n / 0x1000, n / 0x100 % 16, n / 16 % 16, n % 16;
    FourDigits(n);
    DigitForm(a);
    DigitForm(b);
    DigitForm(c);
    DigitForm(d);
    FourLetters(EscapeUnit(n), a, b, c, d);
  }

  /** How each character is printed: itself, one of the seven two-character escapes, a unit, or the two units of a surrogate pair. */
  lemma EscapeForm(c: CodePoint)
    ensures var t := Escape(c);
            if c == '"' as int then t == [0x5c, 0x22]
            else if c == '\\' as int then t == [0x5c, 0x5c]
            else if c == 8 then t == [0x5c, 'b' as int]
            else if c == 9 then t == [0x5c, 't' as int]
            else if c == 10 then t == [0x5c, 'n' as int]
            else if c == 12 then t == [0x5c, 'f' as int]
            else if c == 13 then t == [0x5c, 'r' as int]
            else if ' ' as int <= c <= '~' as int then t == [c]
            else if c < 0x1_0000 then UnitOf(t, c)
            else |t| == 12 && UnitOf(t[..6], 0xd800 + (c - 0x1_0000) / 0x400) && UnitOf(t[6..], 0xdc00 + (c - 0x1_0000) % 0x400)
  {
    if c < 0x1_0000 {
      UnitForm(c);
    } else {
      UnitForm(HighOf(c));
      UnitForm(LowOf(c));
      var t := EscapeUnit(HighOf(c)) + EscapeUnit(LowOf(c));
      assert t[..6] == EscapeUnit(HighOf(c)) && t[6..] == EscapeUnit(LowOf(c));
      hide EscapeUnit, UnitOf;
    }
  }

  function EscapeAll(s: Text): Text {
    if s == [] then [] else Escape(s[0]) + EscapeAll(s[1..])
  }

  function Quote(s: Text): Text {
    [QUOTE] + EscapeAll(s) + [QUOTE]
  }

  function Emit(v: Json): Text {
    match v
    case JNull => NULL
    case JBool(b) => if b then TRUE else FALSE
    case JNumber(lexeme) => lexeme
    case JString(s) => Quote(s)
    case JArray(items) => [OPEN_ARRAY] + EmitItems(items) + [CLOSE_ARRAY]
    case JObject(fields) => [OPEN_OBJECT] + EmitFields(fields) + [CLOSE_OBJECT]
  }

  function EmitItems(items: seq<Json>): (r: Text)
    ensures items == [] ==> r == []
  {
    if items == [] then []
    else if |items| == 1 then Emit(items[0])
    else Emit(items[0]) + [COMMA] + EmitItems(items[1..])
  }

  function EmitFields(fields: seq<Field>): (r: Text)
    ensures fields == [] ==> r == []
  {
    if fields == [] then []
    else if |fields| == 1 then EmitField(fields[0])
    else EmitField(fields[0]) + [COMMA] + EmitFields(fields[1..])
  }

  function EmitField(f: Field): (r: Text)
    ensures r != [] && r[0] == QUOTE
  {
    Quote(f.key) + [COLON] + Emit(f.value)
  }

  function Dumps(v: Json): Text {
    Emit(SortKeys(v))
  }

  // ----- Reading.

  function HexValue(c: CodePoint): (r: Option<nat>)
    ensures r.Some? ==> r.value < 16
  {
    if 0x30 <= c <= 0x39 then Some(c - 0x30)
    else if 0x61 <= c <= 0x66 then Some(c - 0x57)
    else if 0x41 <= c <= 0x46 then Some(c - 0x37)
    else None
  }

  function ReadHex4(a: CodePoint, b: CodePoint, c: CodePoint, d: CodePoint): Option<CodePoint> {
    if HexValue(a).None? || HexValue(b).None? || HexValue(c).None? || HexValue(d).None? then None
    else Some(HexValue(a).value * 0x1000 + HexValue(b).value * 0x100 + HexValue(c).value * 16 + HexValue(d).value)
  }

  /** The unit after a backslash and `u`, when `t` starts with one. */
  function ReadUnit(t: Text): Option<CodePoint> {
    if |t| < 6 || t[0] != BACKSLASH || t[1] != LOWER_U then None
    else ReadHex4(t[2], t[3], t[4], t[5])
  }

  function LongEscape(c: CodePoint): Option<CodePoint> {
    if c == QUOTE || c == BACKSLASH || c == 0x2f then Some(c)
    else if c == 0x62 then Some(8)
    else if c == 0x74 then Some(9)
    else if c == 0x6e then Some(10)
    else if c == 0x66 then Some(12)
    else if c == 0x72 then Some(13)
    else None
  }

  /** One character of a string body: its value and how many characters it took. */
  function ReadChar(t: Text): (r: Option<(CodePoint, nat)>)
    ensures r.Some? ==> 0 < r.value.1 <= |t|
  {
    if t == [] || t[0] < 0x20 then None
    else if t[0] != BACKSLASH then Some((t[0], 1))
    else if |t| < 2 then None
    else if t[1] != LOWER_U then
      match LongEscape(t[1])
      case None => None
      case Some(c) => Some((c, 2))
    else
      match ReadUnit(t)
      case None => None
      case Some(high) =>
        if IsHigh(high) && ReadUnit(t[6..]).Some? && IsLow(ReadUnit(t[6..]).value)
        then Some((Combine(high, ReadUnit(t[6..]).value), 12))
        else Some((high, 6))
  }

  /** The rest of a string after its opening quote. */
  function ReadChars(t: Text): (r: Option<(Text, Text)>)
    ensures r.Some? ==> |r.value.1| < |t|
    decreases |t|
  {
    if t == [] then None
    else if t[0] == QUOTE then Some(([], t[1..]))
    else match ReadChar(t)
      case None => None
      case Some((c, n)) =>
        match ReadChars(t[n..])
        case None => None
        case Some((s, rest)) => Some(([c] + s, rest))
  }

  function NumberLength(t: Text): (n: nat)
    ensures n <= |t|
  {
    if t != [] && IsNumberChar(t[0]) then 1 + NumberLength(t[1..]) else 0
  }

  /** One value at the start of `t`, and what follows it. Members are kept as written, in order. */
  function ReadValue(t: Text): (r: Option<(Json, Text)>)
    ensures r.Some? ==> |r.value.1| < |t|
    decreases |t|, 1
  {
    if t == [] then None
    else if t[0] == QUOTE then
      match ReadChars(t[1..])
      case None => None
      case Some((s, rest)) => Some((JString(s), rest))
    else if t[0] == OPEN_ARRAY then
      if |t| > 1 && t[1] == CLOSE_ARRAY then Some((JArray([]), t[2..]))
      else match ReadItems(t[1..])
        case None => None
        case Some((items, rest)) => Some((JArray(items), rest))
    else if t[0] == OPEN_OBJECT then
      if |t| > 1 && t[1] == CLOSE_OBJECT then Some((JObject([]), t[2..]))
      else match ReadFields(t[1..])
        case None => None
        case Some((fields, rest)) => Some((JObject(fields), rest))
    else if NULL <= t then Some((JNull, t[4..]))
    else if TRUE <= t then Some((JBool(true), t[4..]))
    else if FALSE <= t then Some((JBool(false), t[5..]))
    else
      var n := NumberLength(t);
      if n == 0 || !IsNumber(t[..n]) then None else Some((JNumber(t[..n]), t[n..]))
  }

  function ReadItems(t: Text): (r: Option<(seq<Json>, Text)>)
    ensures r.Some? ==> |r.value.1| < |t|
    decreases |t|, 2
  {
    match ReadValue(t)
    case None => None
    case Some((x, rest)) =>
      if rest == [] then None
      else if rest[0] == CLOSE_ARRAY then Some(([x], rest[1..]))
      else if rest[0] != COMMA then None
      else match ReadItems(rest[1..])
        case None => None
        case Some((more, after)) => Some(([x] + more, after))
  }

  function ReadFields(t: Text): (r: Option<(seq<Field>, Text)>)
    ensures r.Some? ==> |r.value.1| < |t|
    decreases |t|, 2
  {
    if t == [] || t[0] != QUOTE then None
    else match ReadChars(t[1..])
      case None => None
      case Some((key, colon)) =>
        if colon == [] || colon[0] != COLON then None
        else match ReadValue(colon[1..])
          case None => None
          case Some((x, rest)) =>
            if rest == [] then None
            else if rest[0] == CLOSE_OBJECT then Some(([Field(key, x)], rest[1..]))
            else if rest[0] != COMMA then None
            else match ReadFields(rest[1..])
              case None => None
              case Some((more, after)) => Some(([Field(key, x)] + more, after))
  }

  // ----- The reader undoes the printer.

  lemma Hex4Reads(n: nat)
    requires n < 0x1_0000
    ensures ReadHex4(HexDigit(n / 0x1000), HexDigit(n / 0x100 % 16), HexDigit(n / 16 % 16), HexDigit(n % 16)) == Some(n)
  {
    var a, b, c, d := n / 0x1000, n / 0x100 % 16, n / 16 % 16, n % 16;
    assert HexValue(HexDigit(a)) == Some(a) && HexValue(HexDigit(b)) == Some(b);
    assert HexValue(HexDigit(c)) == Some(c) && HexValue(HexDigit(d)) == Some(d);
    assert n / 0x100 == a * 16 + b && n / 16 == n / 0x100 * 16 + c && n == n / 16 * 16 + d;
  }

  lemma UnitReads(n: nat, rest: Text)
    requires n < 0x1_0000
    ensures ReadUnit(EscapeUnit(n) + rest) == Some(n)
    ensures (EscapeUnit(n) + rest)[6..] == rest
  {
    Hex4Reads(n);
    var t := EscapeUnit(n) + rest;
    assert |EscapeUnit(n)| == 6;
    assert t[0] == BACKSLASH && t[1] == LOWER_U;
    assert t[2] == Hex4(n)[0] && t[3] == Hex4(n)[1] && t[4] == Hex4(n)[2] && t[5] == Hex4(n)[3];
  }

  predicate StartsLow(t: Text) {
    ReadUnit(t).Some? && IsLow(ReadUnit(t).value)
  }

  lemma TwoUnits(c: CodePoint, tail: Text)
    requires c >= 0x1_0000
    ensures var t := Escape(c) + tail;
            t == EscapeUnit(HighOf(c)) + (EscapeUnit(LowOf(c)) + tail) && ReadUnit(t) == Some(HighOf(c))
            && t[6..] == EscapeUnit(LowOf(c)) + tail && ReadUnit(t[6..]) == Some(LowOf(c)) && t[12..] == tail
  {
    hide Hex4, ReadUnit, HighOf, LowOf, Combine;
    var t := Escape(c) + tail;
    assert |EscapeUnit(HighOf(c))| == 6 && |EscapeUnit(LowOf(c))| == 6;
    assert t == EscapeUnit(HighOf(c)) + (EscapeUnit(LowOf(c)) + tail);
    UnitReads(HighOf(c), EscapeUnit(LowOf(c)) + tail);
    UnitReads(LowOf(c), tail);
  }

  /** An escaped character starts with a low unit exactly when it is one. */
  lemma NextUnit(c: CodePoint, tail: Text)
    ensures StartsLow(Escape(c) + tail) <==> IsLow(c)
    ensures (Escape(c) + tail)[0] != QUOTE && (Escape(c) + tail)[0] >= 0x20
  {
    var t := Escape(c) + tail;
    assert t[0] == Escape(c)[0];
    if ShortEscape(c).Some? {
      assert t[1] == Escape(c)[1];
    } else if 0x20 <= c <= 0x7e {
    } else if c < 0x1_0000 {
      UnitReads(c, tail);
    } else {
      TwoUnits(c, tail);
    }
  }

  lemma CharReads(c: CodePoint, tail: Text)
    requires !(IsHigh(c) && StartsLow(tail))
    ensures ReadChar(Escape(c) + tail) == Some((c, |Escape(c)|))
    ensures (Escape(c) + tail)[|Escape(c)|..] == tail
  {
    var t := Escape(c) + tail;
    assert t[0] == Escape(c)[0];
    if ShortEscape(c).Some? {
      assert t[1] == Escape(c)[1];
    } else if 0x20 <= c <= 0x7e {
    } else if c < 0x1_0000 {
      UnitReads(c, tail);
      assert t[0] == BACKSLASH && t[1] == LOWER_U;
    } else {
      TwoUnits(c, tail);
      assert t[0] == BACKSLASH && t[1] == LOWER_U;
    }
  }

  lemma QuoteIsNoUnit(t: Text)
    requires t != [] && t[0] == QUOTE
    ensures !StartsLow(t)
  {}

  lemma PairEscapes(high: CodePoint, low: CodePoint)
    requires IsHigh(high) && IsLow(low)
    ensures Escape(high) + Escape(low) == Escape(Combine(high, low))
  {
    var c := Combine(high, low);
    assert HighOf(c) == high && LowOf(c) == low;
  }

  lemma {:induction false} CharsRead(s: Text, rest: Text)
    ensures ReadChars(EscapeAll(s) + [QUOTE] + rest) == Some((Merge(s), rest))
    decreases |s|
  {
    hide Escape, ReadChar, StartsLow;
    var t := EscapeAll(s) + [QUOTE] + rest;
    if s == [] {
      assert t[1..] == rest;
    } else if |s| >= 2 && IsHigh(s[0]) && IsLow(s[1]) {
      var c, tail := Combine(s[0], s[1]), EscapeAll(s[2..]) + [QUOTE] + rest;
      assert s[1..][1..] == s[2..] && s[1..][0] == s[1];
      PairEscapes(s[0], s[1]);
      assert EscapeAll(s) == Escape(s[0]) + (Escape(s[1]) + EscapeAll(s[2..]));
      assert t == Escape(c) + tail;
      NextUnit(c, tail);
      CharReads(c, tail);
      CharsRead(s[2..], rest);
    } else {
      var c, tail := s[0], EscapeAll(s[1..]) + [QUOTE] + rest;
      assert t == Escape(c) + tail;
      if |s| >= 2 {
        assert tail == Escape(s[1]) + (EscapeAll(s[1..][1..]) + [QUOTE] + rest);
        NextUnit(s[1], EscapeAll(s[1..][1..]) + [QUOTE] + rest);
      } else {
        QuoteIsNoUnit(tail);
      }
      NextUnit(c, tail);
      CharReads(c, tail);
      CharsRead(s[1..], rest);
    }
  }

  lemma {:induction false} NumberReads(lexeme: Text, rest: Text)
    requires forall i | 0 <= i < |lexeme| :: IsNumberChar(lexeme[i])
    requires rest == [] || !IsNumberChar(rest[0])
    ensures NumberLength(lexeme + rest) == |lexeme|
  {
    if lexeme != [] {
      assert (lexeme + rest)[1..] == lexeme[1..] + rest;
      NumberReads(lexeme[1..], rest);
    } else {
      assert lexeme + rest == rest;
    }
  }

  // One step of the reader, on text that is not a concatenation.

  lemma {:induction false} ReadArray(t: Text, items: seq<Json>, rest: Text)
    requires |t| > 1 && t[0] == OPEN_ARRAY && t[1] != CLOSE_ARRAY && ReadItems(t[1..]) == Some((items, rest))
    ensures ReadValue(t) == Some((JArray(items), rest))
  {}

  lemma {:induction false} ReadObject(t: Text, fields: seq<Field>, rest: Text)
    requires |t| > 1 && t[0] == OPEN_OBJECT && t[1] != CLOSE_OBJECT && ReadFields(t[1..]) == Some((fields, rest))
    ensures ReadValue(t) == Some((JObject(fields), rest))
  {}

  lemma {:induction false} ReadItemsStep(t: Text, x: Json, rest: Text, more: seq<Json>, after: Text)
    requires ReadValue(t) == Some((x, rest)) && rest != []
    requires if more == [] then rest[0] == CLOSE_ARRAY && after == rest[1..]
             else rest[0] == COMMA && ReadItems(rest[1..]) == Some((more, after))
    ensures ReadItems(t) == Some(([x] + more, after))
  {
    assert more == [] ==> [x] + more == [x];
  }

  lemma {:induction false} ReadFieldsStep(t: Text, key: Text, colon: Text, x: Json, rest: Text, more: seq<Field>, after: Text)
    requires t != [] && t[0] == QUOTE && ReadChars(t[1..]) == Some((key, colon))
    requires colon != [] && colon[0] == COLON && ReadValue(colon[1..]) == Some((x, rest)) && rest != []
    requires if more == [] then rest[0] == CLOSE_OBJECT && after == rest[1..]
             else rest[0] == COMMA && ReadFields(rest[1..]) == Some((more, after))
    ensures ReadFields(t) == Some(([Field(key, x)] + more, after))
  {
    hide ReadChars, ReadValue;
    assert more == [] ==> [Field(key, x)] + more == [Field(key, x)];
  }

  lemma {:induction false} ValueReads(v: Json, rest: Text)
    requires Numeric(v)
    requires rest == [] || !IsNumberChar(rest[0])
    ensures Emit(v) != [] && ReadValue(Emit(v) + rest) == Some((MergeAll(v), rest))
    ensures Emit(v)[0] !in {CLOSE_ARRAY, CLOSE_OBJECT}
    decreases v, 1
  {
    hide ReadItems, ReadFields, ReadChars, EmitItems, EmitFields, EscapeAll, Merge, NumberLength, MergeItems, MergeFields;
    var t := Emit(v) + rest;
    match v
    case JNull => assert t[4..] == rest;
    case JBool(b) => assert if b then t[4..] == rest else t[5..] == rest && t[0] == 0x66;
    case JNumber(lexeme) =>
      NumberReads(lexeme, rest);
      assert t[..|lexeme|] == lexeme && t[|lexeme|..] == rest;
      assert t[0] == lexeme[0];
    case JString(s) =>
      CharsRead(s, rest);
      assert t[1..] == EscapeAll(s) + [QUOTE] + rest;
    case JArray(items) =>
      ArrayReads(items, rest);
    case JObject(fields) =>
      ObjectReads(fields, rest);
  }

  lemma {:induction false} ArrayReads(items: seq<Json>, rest: Text)
    requires forall x | x in items :: Numeric(x)
    ensures ReadValue(Emit(JArray(items)) + rest) == Some((JArray(MergeItems(items)), rest))
    decreases items, 2
  {
    hide ReadItems, ReadFields, ReadChars, EmitItems, EmitFields, NumberLength, MergeItems, Numeric;
    var t := Emit(JArray(items)) + rest;
    if items == [] {
      assert t == [OPEN_ARRAY, CLOSE_ARRAY] + rest;
      assert t[2..] == rest;
    } else {
      ItemsRead(items, rest);
      assert t[1..] == EmitItems(items) + [CLOSE_ARRAY] + rest;
      ReadArray(t, MergeItems(items), rest);
    }
  }

  lemma {:induction false} ItemsUnfold(items: seq<Json>)
    requires items != []
    ensures var tail := items[1..];
            && EmitItems(items) == Emit(items[0]) + (if tail == [] then [] else [COMMA] + EmitItems(tail))
            && MergeItems(items) == [MergeAll(items[0])] + MergeItems(tail)
            && (tail == [] ==> MergeItems(tail) == [])
            && (tail != [] ==> MergeItems(tail) != [])
  {
    hide Emit, MergeAll;
  }

  lemma {:induction false} ItemsRead(items: seq<Json>, rest: Text)
    requires items != [] && forall x | x in items :: Numeric(x)
    ensures EmitItems(items) != [] && EmitItems(items)[0] != CLOSE_ARRAY
    ensures ReadItems(EmitItems(items) + [CLOSE_ARRAY] + rest) == Some((MergeItems(items), rest))
    decreases items, 0
  {
    hide ReadValue, ReadItems, Emit, MergeAll, Numeric, EmitItems, MergeItems;
    var t := EmitItems(items) + [CLOSE_ARRAY] + rest;
    var tail := items[1..];
    ItemsUnfold(items);
    var after := if tail == [] then [CLOSE_ARRAY] + rest else [COMMA] + EmitItems(tail) + [CLOSE_ARRAY] + rest;
    assert t == Emit(items[0]) + after;
    ValueReads(items[0], after);
    if tail == [] {
      assert after[1..] == rest;
    } else {
      ItemsRead(tail, rest);
      assert after[1..] == EmitItems(tail) + [CLOSE_ARRAY] + rest;
    }
    ReadItemsStep(t, MergeAll(items[0]), after, MergeItems(tail), rest);
    assert EmitItems(items)[0] == Emit(items[0])[0];
  }

  lemma {:induction false} ObjectReads(fields: seq<Field>, rest: Text)
    requires forall f | f in fields :: Numeric(f.value)
    ensures ReadValue(Emit(JObject(fields)) + rest) == Some((JObject(MergeFields(fields)), rest))
    decreases fields, 2
  {
    hide ReadItems, ReadFields, ReadChars, EmitItems, EmitFields, NumberLength, MergeFields, Numeric;
    var t := Emit(JObject(fields)) + rest;
    if fields == [] {
      assert t == [OPEN_OBJECT, CLOSE_OBJECT] + rest;
      assert t[2..] == rest;
    } else {
      FieldsRead(fields, rest);
      assert t[1..] == EmitFields(fields) + [CLOSE_OBJECT] + rest;
      ReadObject(t, MergeFields(fields), rest);
    }
  }

  /** One member and the text after it, split where the reader splits it. */
  lemma {:induction false} MemberSplits(f: Field, after: Text)
    ensures var t, colon := EmitField(f) + after, [COLON] + (Emit(f.value) + after);
            t[0] == QUOTE && ReadChars(t[1..]) == Some((Merge(f.key), colon)) && colon[1..] == Emit(f.value) + after
  {
    hide EscapeAll, Merge, ReadChars, Emit;
    var t, colon := EmitField(f) + after, [COLON] + (Emit(f.value) + after);
    CharsRead(f.key, colon);
    assert t[1..] == EscapeAll(f.key) + [QUOTE] + colon;
  }

  lemma {:induction false} MemberReads(f: Field, after: Text, more: seq<Field>, rest: Text)
    requires ReadValue(Emit(f.value) + after) == Some((MergeAll(f.value), after)) && after != []
    requires if more == [] then after[0] == CLOSE_OBJECT && rest == after[1..]
             else after[0] == COMMA && ReadFields(after[1..]) == Some((more, rest))
    ensures ReadFields(EmitField(f) + after) == Some(([Field(Merge(f.key), MergeAll(f.value))] + more, rest))
  {
    hide ReadValue, ReadFields, ReadChars, Emit, EmitField, MergeAll, Merge;
    var colon := [COLON] + (Emit(f.value) + after);
    MemberSplits(f, after);
    ReadFieldsStep(EmitField(f) + after, Merge(f.key), colon, MergeAll(f.value), after, more, rest);
  }

  lemma {:induction false} FieldsUnfold(fields: seq<Field>)
    requires fields != []
    ensures var f, tail := fields[0], fields[1..];
            && EmitFields(fields) == (if tail == [] then EmitField(f) else EmitField(f) + ([COMMA] + EmitFields(tail)))
            && MergeFields(fields) == [Field(Merge(f.key), MergeAll(f.value))] + MergeFields(tail)
  {
    MergeUnfolds(fields);
    hide EmitField, Merge, MergeAll, MergeFields;
    if |fields| > 1 {
      assert EmitFields(fields) == EmitField(fields[0]) + [COMMA] + EmitFields(fields[1..]);
    }
  }

  lemma {:induction false} MergeUnfolds(fields: seq<Field>)
    requires fields != []
    ensures MergeFields(fields) == [Field(Merge(fields[0].key), MergeAll(fields[0].value))] + MergeFields(fields[1..])
  {
    hide Merge, MergeAll;
  }

  lemma {:induction false} FieldsRead(fields: seq<Field>, rest: Text)
    requires fields != [] && forall f | f in fields :: Numeric(f.value)
    ensures EmitFields(fields) != [] && EmitFields(fields)[0] == QUOTE
    ensures ReadFields(EmitFields(fields) + [CLOSE_OBJECT] + rest) == Some((MergeFields(fields), rest))
    decreases fields, 0
  {
    hide ReadValue, ReadFields, ReadChars, Emit, EmitField, EmitFields, MergeAll, MergeFields, Merge, Numeric;
    var f, tail := fields[0], fields[1..];
    FieldsUnfold(fields);
    if tail == [] {
      var after := [CLOSE_OBJECT] + rest;
      ValueReads(f.value, after);
      MemberReads(f, after, [], rest);
      assert EmitFields(fields) + [CLOSE_OBJECT] + rest == EmitField(f) + after && after[1..] == rest;
    } else {
      var after := [COMMA] + (EmitFields(tail) + [CLOSE_OBJECT] + rest);
      assert after[1..] == EmitFields(tail) + [CLOSE_OBJECT] + rest;
      ValueReads(f.value, after);
      FieldsRead(tail, rest);
      MemberReads(f, after, MergeFields(tail), rest);
      assert EmitFields(fields) + [CLOSE_OBJECT] + rest == EmitField(f) + after;
    }
  }

  // ----- What the printed text determines.

  lemma {:induction false} EscapeCons(c: CodePoint, s: Text)
    ensures EscapeAll([c] + s) == Escape(c) + EscapeAll(s)
  {
    hide Escape;
    assert ([c] + s)[1..] == s;
  }

  lemma {:induction false} EscapeForgetsPairs(s: Text)
    ensures EscapeAll(Merge(s)) == EscapeAll(s)
    decreases |s|
  {
    hide Escape, Combine, EscapeAll, IsHigh, IsLow;
    if s == [] {
    } else if |s| >= 2 && IsHigh(s[0]) && IsLow(s[1]) {
      EscapeForgetsPairs(s[2..]);
      PairEscapes(s[0], s[1]);
      EscapeCons(Combine(s[0], s[1]), Merge(s[2..]));
      EscapeCons(s[1], s[2..]);
      EscapeCons(s[0], s[1..]);
      assert s == [s[0]] + s[1..] && s[1..] == [s[1]] + s[2..];
    } else {
      EscapeForgetsPairs(s[1..]);
      EscapeCons(s[0], Merge(s[1..]));
      EscapeCons(s[0], s[1..]);
      assert s == [s[0]] + s[1..];
    }
  }

  lemma {:induction false} EmitForgetsPairs(v: Json)
    ensures Emit(MergeAll(v)) == Emit(v)
    decreases v, 1
  {
    match v
    case JString(s) => EscapeForgetsPairs(s);
    case JArray(items) => EmitItemsForgetPairs(items);
    case JObject(fields) => EmitFieldsForgetPairs(fields);
    case _ =>
  }

  lemma {:induction false} EmitItemsForgetPairs(items: seq<Json>)
    ensures EmitItems(MergeItems(items)) == EmitItems(items)
    decreases items, 0
  {
    if items != [] {
      EmitForgetsPairs(items[0]);
      EmitItemsForgetPairs(items[1..]);
      assert MergeItems(items)[1..] == MergeItems(items[1..]);
    }
  }

  lemma {:induction false} EmitFieldsForgetPairs(fields: seq<Field>)
    ensures EmitFields(MergeFields(fields)) == EmitFields(fields)
    decreases fields, 0
  {
    if fields != [] {
      EscapeForgetsPairs(fields[0].key);
      EmitForgetsPairs(fields[0].value);
      EmitFieldsForgetPairs(fields[1..]);
      assert MergeFields(fields)[1..] == MergeFields(fields[1..]);
    }
  }

  lemma {:induction false} SortKeepsValue(v: Json)
    ensures Numeric(v) ==> Numeric(SortKeys(v))
    ensures Decoded(v) ==> Decoded(SortKeys(v))
    ensures IsDict(v) ==> IsDict(SortKeys(v))
  {
    hide NoPair, IsNumber;
    match v
    case JArray(items) =>
      forall i | 0 <= i < |items|
        ensures Numeric(items[i]) ==> Numeric(SortKeys(items[i]))
        ensures Decoded(items[i]) ==> Decoded(SortKeys(items[i]))
        ensures IsDict(items[i]) ==> IsDict(SortKeys(items[i]))
      { SortKeepsValue(items[i]); }
    case JObject(fields) =>
      forall i | 0 <= i < |fields|
        ensures Numeric(fields[i].value) ==> Numeric(SortKeys(fields[i].value))
        ensures Decoded(fields[i].value) ==> Decoded(SortKeys(fields[i].value))
        ensures IsDict(fields[i].value) ==> IsDict(SortKeys(fields[i].value))
      { SortKeepsValue(fields[i].value); }
      SortKeepsObject(fields);
    case _ =>
  }

  lemma SortKeepsObject(fields: seq<Field>)
    requires forall i | 0 <= i < |fields| ::
               && (Numeric(fields[i].value) ==> Numeric(SortKeys(fields[i].value)))
               && (Decoded(fields[i].value) ==> Decoded(SortKeys(fields[i].value)))
               && (IsDict(fields[i].value) ==> IsDict(SortKeys(fields[i].value)))
    ensures var v := JObject(fields);
            && (Numeric(v) ==> Numeric(SortKeys(v))) && (Decoded(v) ==> Decoded(SortKeys(v))) && (IsDict(v) ==> IsDict(SortKeys(v)))
  {
    hide NoPair, IsNumber;
    if UniqueKeys(fields) {
      SortKeepsUnique(SortValues(fields));
    }
  }

  /** Reading a printed value gives it back with its keys in order and its split pairs joined. */
  lemma {:induction false} DumpsRoundTrip(v: Json)
    requires Numeric(v)
    ensures ReadValue(Dumps(v)) == Some((MergeAll(SortKeys(v)), []))
  {
    SortKeepsValue(v);
    ValueReads(SortKeys(v), []);
    assert Dumps(v) + [] == Dumps(v);
  }

  /** Two values print alike exactly when they agree after sorting keys and joining split pairs. */
  lemma {:induction false} DumpsAgree(a: Json, b: Json)
    requires Numeric(a) && Numeric(b)
    ensures Dumps(a) == Dumps(b) <==> MergeAll(SortKeys(a)) == MergeAll(SortKeys(b))
  {
    DumpsRoundTrip(a);
    DumpsRoundTrip(b);
    EmitForgetsPairs(SortKeys(a));
    EmitForgetsPairs(SortKeys(b));
  }

  lemma {:induction false} SameSorts(a: Json, b: Json)
    requires IsDict(a) && IsDict(b)
    ensures Same(a, b) <==> SortKeys(a) == SortKeys(b)
    decreases a
  {
    match (a, b)
    case (JArray(xs), JArray(ys)) =>
      if |xs| == |ys| {
        forall i | 0 <= i < |xs| ensures Same(xs[i], ys[i]) <==> SortKeys(xs[i]) == SortKeys(ys[i]) {
          SameSorts(xs[i], ys[i]);
        }
        if SortItems(xs) == SortItems(ys) {
          forall i | 0 <= i < |xs| ensures Same(xs[i], ys[i]) {
            assert SortItems(xs)[i] == SortItems(ys)[i];
          }
        }
      }
    case (JObject(fs), JObject(gs)) =>
      forall i, j | 0 <= i < |fs| && 0 <= j < |gs|
        ensures Same(fs[i].value, gs[j].value) <==> SortKeys(fs[i].value) == SortKeys(gs[j].value)
      {
        SameSorts(fs[i].value, gs[j].value);
      }
      SameMembersSort(fs, gs);
    case _ =>
  }

  lemma {:induction false} SameMembersSort(fs: seq<Field>, gs: seq<Field>)
    requires UniqueKeys(fs) && UniqueKeys(gs)
    requires forall i, j | 0 <= i < |fs| && 0 <= j < |gs| ::
               Same(fs[i].value, gs[j].value) <==> SortKeys(fs[i].value) == SortKeys(gs[j].value)
    ensures Same(JObject(fs), JObject(gs)) <==> SortFields(SortValues(fs)) == SortFields(SortValues(gs))
  {
    hide SameMember, SortFields, SortKeys, Same;
    var F, G := SortValues(fs), SortValues(gs);
    forall i | 0 <= i < |fs| ensures SameMember(fs[i], gs) <==> F[i] in G {
      MemberSorts(fs, gs, i);
    }
    SameObject(fs, gs);
    if Same(JObject(fs), JObject(gs)) {
      SameSetSorts(F, G);
    }
    if SortFields(F) == SortFields(G) {
      forall i | 0 <= i < |fs| ensures SameMember(fs[i], gs) {
        assert F[i] in SortFields(F);
      }
    }
  }

  lemma {:induction false} SameObject(fs: seq<Field>, gs: seq<Field>)
    ensures Same(JObject(fs), JObject(gs)) <==> |fs| == |gs| && forall i | 0 <= i < |fs| :: SameMember(fs[i], gs)
  {
    hide SameMember;
  }

  lemma {:induction false} MemberSorts(fs: seq<Field>, gs: seq<Field>, i: nat)
    requires i < |fs|
    requires forall j | 0 <= j < |gs| :: Same(fs[i].value, gs[j].value) <==> SortKeys(fs[i].value) == SortKeys(gs[j].value)
    ensures SameMember(fs[i], gs) <==> SortValues(fs)[i] in SortValues(gs)
  {
    hide Same, SortKeys;
    var F, G := SortValues(fs), SortValues(gs);
    if SameMember(fs[i], gs) {
      var j :| 0 <= j < |gs| && fs[i].key == gs[j].key && Same(fs[i].value, gs[j].value);
      assert G[j] == F[i];
    }
    if F[i] in G {
      var j :| 0 <= j < |G| && G[j] == F[i];
      assert fs[i].key == gs[j].key && Same(fs[i].value, gs[j].value);
    }
  }

  lemma {:induction false} SameSetSorts(F: seq<Field>, G: seq<Field>)
    requires UniqueKeys(F) && UniqueKeys(G) && |F| == |G| && forall i | 0 <= i < |F| :: F[i] in G
    ensures SortFields(F) == SortFields(G)
  {
    SortFieldsSorts(F);
    SortFieldsSorts(G);
    SortKeepsUnique(F);
    SortKeepsUnique(G);
    SortedIsUnique(SortFields(F), SortFields(G));
  }

  /** On values that came from `json.loads` the printer is injective up to key order, and blind to it. */
  lemma {:induction false} DumpsInjective(a: Json, b: Json)
    requires Numeric(a) && Numeric(b) && IsDict(a) && IsDict(b) && Decoded(a) && Decoded(b)
    ensures Dumps(a) == Dumps(b) <==> Same(a, b)
  {
    DumpsAgree(a, b);
    SameSorts(a, b);
    SortKeepsValue(a);
    SortKeepsValue(b);
    MergeAllDecodes(SortKeys(a));
    MergeAllDecodes(SortKeys(b));
  }

  /** Outside those values it is not: a string holding a split pair prints as the character it encodes. */
  lemma SplitPairCollides()
    ensures var split, whole := JString([0xd83d, 0xde00]), JString([0x1f600]);
            Dumps(split) == Dumps(whole) && !Same(split, whole) && !Decoded(split)
  {
    var split: Text, whole: Text := [0xd83d, 0xde00], [0x1f600];
    DumpsAgree(JString(split), JString(whole));
    assert Merge(split) == [Combine(0xd83d, 0xde00)] + Merge(split[2..]);
    assert Merge(whole) == [0x1f600] + Merge(whole[1..]);
    assert split[2..] == [] && whole[1..] == [];
    assert !NoPair(split) by {
      assert IsHigh(split[1 - 1]) && IsLow(split[1]);
    }
  }

  // ----- `json.loads`: what was read, with each object built into a dict.

  /** A dict assignment: a key already present keeps its place and takes the new value. */
  function Put(fs: seq<Field>, f: Field): (r: seq<Field>)
    ensures forall x | x in r :: x == f || x in fs
  {
    if fs == [] then [f]
    else if fs[0].key == f.key then [f] + fs[1..]
    else [fs[0]] + Put(fs[1..], f)
  }

  lemma {:induction false} PutKeepsUnique(fs: seq<Field>, f: Field)
    requires UniqueKeys(fs)
    ensures UniqueKeys(Put(fs, f))
  {
    if fs != [] && fs[0].key != f.key {
      PutKeepsUnique(fs[1..], f);
      var r := Put(fs[1..], f);
      forall i | 0 <= i < |r| ensures r[i].key != fs[0].key {
        assert r[i] in r;
        if r[i] != f {
          var k :| 0 <= k < |fs[1..]| && fs[1..][k] == r[i];
          assert fs[0].key != fs[k + 1].key;
        }
      }
    }
  }

  lemma {:induction false} PutAppends(fs: seq<Field>, f: Field)
    requires forall g | g in fs :: g.key != f.key
    ensures Put(fs, f) == fs + [f]
  {
    if fs != [] {
      assert fs[0] in fs;
      PutAppends(fs[1..], f);
      assert fs + [f] == [fs[0]] + (fs[1..] + [f]);
    }
  }

  function Build(v: Json): Json {
    match v
    case JArray(items) => JArray(BuildItems(items))
    case JObject(fields) => JObject(BuildFields(fields))
    case _ => v
  }

  function BuildItems(items: seq<Json>): (r: seq<Json>)
    ensures |r| == |items| && forall i | 0 <= i < |items| :: r[i] == Build(items[i])
  {
    if items == [] then [] else [Build(items[0])] + BuildItems(items[1..])
  }

  function BuildFields(fields: seq<Field>): seq<Field> {
    if fields == [] then []
    else
      var last := fields[|fields| - 1];
      Put(BuildFields(fields[..|fields| - 1]), Field(last.key, Build(last.value)))
  }

  lemma {:induction false} BuildIsDict(v: Json)
    ensures IsDict(Build(v))
    ensures Numeric(v) ==> Numeric(Build(v))
    ensures Decoded(v) ==> Decoded(Build(v))
    decreases v, 1
  {
    match v
    case JArray(items) =>
      forall i | 0 <= i < |items|
        ensures IsDict(Build(items[i])) && (Numeric(items[i]) ==> Numeric(Build(items[i])))
        ensures Decoded(items[i]) ==> Decoded(Build(items[i]))
      { BuildIsDict(items[i]); }
    case JObject(fields) => BuildFieldsIsDict(fields);
    case _ =>
  }

  lemma {:induction false} BuildFieldsIsDict(fields: seq<Field>)
    ensures IsDict(JObject(BuildFields(fields)))
    ensures Numeric(JObject(fields)) ==> Numeric(JObject(BuildFields(fields)))
    ensures Decoded(JObject(fields)) ==> Decoded(JObject(BuildFields(fields)))
    decreases fields, 0
  {
    if fields != [] {
      var init, last := fields[..|fields| - 1], fields[|fields| - 1];
      var built := Field(last.key, Build(last.value));
      assert last in fields && forall f | f in init :: f in fields;
      BuildFieldsIsDict(init);
      BuildIsDict(last.value);
      PutKeepsUnique(BuildFields(init), built);
      var r := Put(BuildFields(init), built);
      assert forall x | x in r :: x == built || x in BuildFields(init);
    }
  }

  lemma {:induction false} BuildKeepsDict(v: Json)
    requires IsDict(v)
    ensures Build(v) == v
    decreases v, 1
  {
    match v
    case JArray(items) =>
      forall i | 0 <= i < |items| ensures Build(items[i]) == items[i] { BuildKeepsDict(items[i]); }
      assert BuildItems(items) == items;
    case JObject(fields) => BuildKeepsFields(fields);
    case _ =>
  }

  lemma {:induction false} BuildKeepsFields(fields: seq<Field>)
    requires UniqueKeys(fields) && forall f | f in fields :: IsDict(f.value)
    ensures BuildFields(fields) == fields
    decreases fields, 0
  {
    if fields != [] {
      var init, last := fields[..|fields| - 1], fields[|fields| - 1];
      assert fields == init + [last];
      LastKeyIsNew(fields);
      BuildKeepsFields(init);
      BuildKeepsDict(last.value);
      PutAppends(init, last);
    }
  }

  lemma LastKeyIsNew(fields: seq<Field>)
    requires fields != [] && UniqueKeys(fields)
    ensures UniqueKeys(fields[..|fields| - 1])
    ensures forall g | g in fields[..|fields| - 1] :: g.key != fields[|fields| - 1].key
  {
    var init := fields[..|fields| - 1];
    forall g | g in init ensures g.key != fields[|fields| - 1].key {
      var i :| 0 <= i < |init| && init[i] == g;
      assert fields[i].key != fields[|fields| - 1].key;
    }
  }

  /** Printing and reading back: the one object that minting and consuming both digest. */
  function Freeze(v: Json): Json {
    match ReadValue(Dumps(v))
    case Some((read, _)) => Build(read)
    case None => JNull
  }

  /** Freezing gives a decoded dict, and gives back (up to key order) a value that already is one. */
  lemma {:induction false} FreezeNormalises(v: Json)
    requires Numeric(v)
    ensures Numeric(Freeze(v)) && IsDict(Freeze(v)) && Decoded(Freeze(v))
    ensures v.JObject? <==> Freeze(v).JObject?
    ensures IsDict(v) && Decoded(v) ==> Same(Freeze(v), v)
  {
    DumpsRoundTrip(v);
    var sorted := SortKeys(v);
    SortKeepsValue(v);
    MergeAllDecodes(sorted);
    BuildIsDict(MergeAll(sorted));
    if IsDict(v) && Decoded(v) {
      BuildKeepsDict(sorted);
      SortIsIdempotent(v);
      SameSorts(sorted, v);
    }
  }

  lemma {:induction false} SortIsIdempotent(v: Json)
    requires IsDict(v)
    ensures SortKeys(SortKeys(v)) == SortKeys(v)
  {
    SortKeepsValue(v);
    match v
    case JArray(items) =>
      forall i | 0 <= i < |items| ensures SortKeys(SortKeys(items[i])) == SortKeys(items[i]) {
        SortIsIdempotent(items[i]);
      }
      assert SortItems(SortItems(items)) == SortItems(items);
    case JObject(fields) =>
      var F := SortValues(fields);
      var S := SortFields(F);
      forall i | 0 <= i < |fields| ensures SortKeys(SortKeys(fields[i].value)) == SortKeys(fields[i].value) {
        SortIsIdempotent(fields[i].value);
      }
      forall i | 0 <= i < |S| ensures SortValues(S)[i] == S[i] {
        assert S[i] in F;
      }
      assert SortValues(S) == S;
      SortFieldsSorts(F);
      SortFieldsSorts(S);
      SortKeepsUnique(F);
      SortKeepsUnique(S);
      SortedIsUnique(SortFields(S), S);
    case _ =>
  }
}
