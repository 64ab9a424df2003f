/**
 The one-pass scan that refuses deeply nested requests before they are parsed,
 and the JSON texts it is meant for: every way to write a value down.
 */
module Nesting {
  import opened Canonical
  import opened Json

  // ----- The scan.

  /** Where the scan stands; inside a string, `escape` says the last character was an open backslash. */
  datatype Scan = Scan(depth: nat, inString: bool, escape: bool)

  const START := Scan(0, false, false)

  function Step(s: Scan, c: CodePoint): Scan {
    if s.inString then
      if s.escape then s.(escape := false)
      else if c == BACKSLASH then s.(escape := true)
      else if c == QUOTE then s.(inString := false)
      else s
    else if c == QUOTE then s.(inString := true)
    else if c == OPEN_ARRAY || c == OPEN_OBJECT then s.(depth := s.depth + 1)
    else if c == CLOSE_ARRAY || c == CLOSE_OBJECT then s.(depth := if s.depth > 0 then s.depth - 1 else 0)
    else s
  }

  function After(s: Scan, t: Text): Scan
    decreases |t|
  {
    if t == [] then s else After(Step(s, t[0]), t[1..])
  }

  function Max(a: nat, b: nat): nat { if a < b then b else a }

  /** The greatest depth on the way. */
  function Peak(s: Scan, t: Text): nat
    decreases |t|
  {
    if t == [] then s.depth else Max(s.depth, Peak(Step(s, t[0]), t[1..]))
  }

  lemma {:induction false} AfterConcat(s: Scan, a: Text, b: Text)
    ensures After(s, a + b) == After(After(s, a), b)
    ensures Peak(s, a + b) == Max(Peak(s, a), Peak(After(s, a), b))
    decreases |a|
  {
    if a == [] {
      assert a + b == b;
    } else {
      assert (a + b)[0] == a[0] && (a + b)[1..] == a[1..] + b;
      AfterConcat(Step(s, a[0]), a[1..], b);
    }
  }

  lemma {:induction false} OneStep(s: Scan, c: CodePoint)
    ensures After(s, [c]) == Step(s, c) && Peak(s, [c]) == Max(s.depth, Step(s, c).depth)
  {
    assert [c][1..] == [];
  }

  method NestingExceeds(text: Text, limit: nat) returns (exceeds: bool)
    ensures exceeds <==> Peak(START, text) > limit
  {
    var depth: nat, inString, escape := 0, false, false;
    assert text[..0] == [];
    for k := 0 to |text|
      invariant Scan(depth, inString, escape) == After(START, text[..k])
      invariant depth <= limit && Peak(START, text[..k]) <= limit
    {
      var c := text[k];
      assert text[..k + 1] == text[..k] + [c];
      AfterConcat(START, text[..k], [c]);
      OneStep(After(START, text[..k]), c);
      assert text == text[..k + 1] + text[k + 1..];
      AfterConcat(START, text[..k + 1], text[k + 1..]);
      if inString {
        if escape {
          escape := false;
        } else if c == BACKSLASH {
          escape := true;
        } else if c == QUOTE {
          inString := false;
        }
        continue;
      }
      if c == QUOTE {
        inString := true;
        continue;
      }
      if c == OPEN_ARRAY || c == OPEN_OBJECT {
        depth := depth + 1;
        if depth > limit {
          return true;
        }
        continue;
      }
      if c == CLOSE_ARRAY || c == CLOSE_OBJECT {
        depth := if depth - 1 > 0 then depth - 1 else 0;
      }
    }
    assert text[..|text|] == text;
    return false;
  }

  // ----- The texts.

  /** One character of a string as it is written. */
  datatype Unit = Plain(c: CodePoint) | Short(letter: CodePoint) | Hex(digits: Text)

  /** A value with every choice its writer made: white space, escapes, number lexemes. */
  datatype Written =
    | Literal(lexeme: Text)
    | Quoted(units: seq<Unit>)
    | ArrayOf(blank: Text, items: seq<Item>)
    | ObjectOf(blank: Text, members: seq<Member>)

  datatype Item = Item(before: Text, value: Written, after: Text)

  datatype Member = Member(before: Text, key: seq<Unit>, beforeColon: Text, afterColon: Text, value: Written, after: Text)

  predicate IsBlank(t: Text) {
    forall k | 0 <= k < |t| :: t[k] in {0x20, 0x09, 0x0a, 0x0d}
  }

  predicate IsHexDigit(c: CodePoint) {
    IsDigit(c) || 0x41 <= c <= 0x46 || 0x61 <= c <= 0x66
  }

  predicate UnitOk(u: Unit) {
    match u
    case Plain(c) => c != QUOTE && c != BACKSLASH && c >= 0x20
    case Short(letter) => letter in {QUOTE, BACKSLASH, 0x2f, 0x62, 0x66, 0x6e, 0x72, 0x74}
    case Hex(digits) => |digits| == 4 && forall k | 0 <= k < |digits| :: IsHexDigit(digits[k])
  }

  predicate UnitsOk(us: seq<Unit>) {
    forall u | u in us :: UnitOk(u)
  }

  predicate LiteralOk(t: Text) {
    t == NULL || t == TRUE || t == FALSE || IsNumber(t)
  }

  predicate Valid(w: Written) {
    match w
    case Literal(lexeme) => LiteralOk(lexeme)
    case Quoted(units) => UnitsOk(units)
    case ArrayOf(blank, items) => IsBlank(blank) && forall i | i in items :: IsBlank(i.before) && Valid(i.value) && IsBlank(i.after)
    case ObjectOf(blank, members) =>
      && IsBlank(blank)
      && forall m | m in members ::
           && IsBlank(m.before) && UnitsOk(m.key) && IsBlank(m.beforeColon) && IsBlank(m.afterColon)
           && Valid(m.value) && IsBlank(m.after)
  }

  function SpellUnit(u: Unit): Text {
    match u
    case Plain(c) => [c]
    case Short(letter) => [BACKSLASH, letter]
    case Hex(digits) => [BACKSLASH, LOWER_U] + digits
  }

  function SpellUnits(us: seq<Unit>): Text {
    if us == [] then [] else SpellUnit(us[0]) + SpellUnits(us[1..])
  }

  function SpellString(us: seq<Unit>): Text {
    [QUOTE] + SpellUnits(us) + [QUOTE]
  }

  function Spell(w: Written): Text {
    match w
    case Literal(lexeme) => lexeme
    case Quoted(units) => SpellString(units)
    case ArrayOf(blank, items) => [OPEN_ARRAY] + (if items == [] then blank else SpellItems(items)) + [CLOSE_ARRAY]
    case ObjectOf(blank, members) => [OPEN_OBJECT] + (if members == [] then blank else SpellMembers(members)) + [CLOSE_OBJECT]
  }

  function SpellItems(items: seq<Item>): Text {
    if items == [] then []
    else items[0].before + Spell(items[0].value) + items[0].after + (if |items| > 1 then [COMMA] else []) + SpellItems(items[1..])
  }

  function SpellMembers(members: seq<Member>): Text {
    if members == [] then []
    else
      var m := members[0];
      m.before + SpellString(m.key) + m.beforeColon + [COLON] + m.afterColon + Spell(m.value) + m.after
      + (if |members| > 1 then [COMMA] else []) + SpellMembers(members[1..])
  }

  // ----- What they mean.

  function HexValue(t: Text): nat {
    if t == [] then 0
    else
      var c := t[|t| - 1];
      16 * HexValue(t[..|t| - 1])
      + (if IsDigit(c) then c - 0x30 else if 0x41 <= c <= 0x46 then c - 0x37 else if 0x61 <= c <= 0x66 then c - 0x57 else 0)
  }

  function UnitValue(u: Unit): CodePoint {
    match u
    case Plain(c) => c
    case Short(letter) =>
      if letter == 0x62 then 0x08 else if letter == 0x66 then 0x0c else if letter == 0x6e then 0x0a
      else if letter == 0x72 then 0x0d else if letter == 0x74 then 0x09 else letter
    case Hex(digits) => HexValue(digits) % 0x1_0000
  }

  /** Before split surrogate pairs are merged. */
  function UnitsValue(us: seq<Unit>): Text {
    if us == [] then [] else [UnitValue(us[0])] + UnitsValue(us[1..])
  }

  function Meaning(w: Written): Json {
    match w
    case Literal(lexeme) =>
      if lexeme == NULL then JNull else if lexeme == TRUE then JBool(true) else if lexeme == FALSE then JBool(false) else JNumber(lexeme)
    case Quoted(units) => JString(Merge(UnitsValue(units)))
    case ArrayOf(_, items) => JArray(ItemsMeaning(items))
    case ObjectOf(_, members) => JObject(MembersMeaning(members))
  }

  function ItemsMeaning(items: seq<Item>): seq<Json> {
    if items == [] then [] else [Meaning(items[0].value)] + ItemsMeaning(items[1..])
  }

  function MembersMeaning(members: seq<Member>): seq<Field> {
    if members == [] then [] else [Field(Merge(UnitsValue(members[0].key)), Meaning(members[0].value))] + MembersMeaning(members[1..])
  }

  /** How deep arrays and objects are nested in a value. */
  function DepthOf(v: Json): nat {
    match v
    case JArray(items) => 1 + ItemsDepth(items)
    case JObject(fields) => 1 + FieldsDepth(fields)
    case _ => 0
  }

  function ItemsDepth(items: seq<Json>): nat {
    if items == [] then 0 else Max(DepthOf(items[0]), ItemsDepth(items[1..]))
  }

  function FieldsDepth(fields: seq<Field>): nat {
    if fields == [] then 0 else Max(DepthOf(fields[0].value), FieldsDepth(fields[1..]))
  }

  // ----- The scan follows the grammar.

  predicate IsMark(c: CodePoint) {
    c in {QUOTE, OPEN_ARRAY, CLOSE_ARRAY, OPEN_OBJECT, CLOSE_OBJECT}
  }

  predicate Outside(s: Scan) { !s.inString && !s.escape }

  /** Over this text the scan comes back to where it was, and rises by `rise` on the way. */
  predicate Rises(s: Scan, t: Text, rise: nat) {
    After(s, t) == s && Peak(s, t) == s.depth + rise
  }

  lemma RisesConcat(s: Scan, a: Text, ra: nat, b: Text, rb: nat)
    requires Rises(s, a, ra) && Rises(s, b, rb)
    ensures Rises(s, a + b, Max(ra, rb))
  {
    AfterConcat(s, a, b);
  }

  lemma {:induction false} FlatText(s: Scan, t: Text)
    requires Outside(s)
    requires forall k | 0 <= k < |t| :: !IsMark(t[k])
    ensures Rises(s, t, 0)
  {
    if t != [] {
      assert !IsMark(t[0]);
      assert forall k | 0 <= k < |t| - 1 :: t[1..][k] == t[k + 1];
      FlatText(s, t[1..]);
    }
  }

  lemma {:induction false} UnitsStayInside(s: Scan, us: seq<Unit>)
    requires s.inString && !s.escape && UnitsOk(us)
    ensures Rises(s, SpellUnits(us), 0)
  {
    if us != [] {
      UnitsStayInside(s, us[1..]);
      UnitStaysInside(s, us[0]);
      RisesConcat(s, SpellUnit(us[0]), 0, SpellUnits(us[1..]), 0);
    }
  }

  lemma UnitStaysInside(s: Scan, u: Unit)
    requires s.inString && !s.escape && UnitOk(u)
    ensures Rises(s, SpellUnit(u), 0)
  {
    match u
    case Plain(c) =>
      assert [c][1..] == [];
    case Short(letter) =>
      var t: Text := [BACKSLASH, letter];
      assert t == [BACKSLASH] + [letter];
      AfterConcat(s, [BACKSLASH], [letter]);
      OneStep(s, BACKSLASH);
      OneStep(Step(s, BACKSLASH), letter);
    case Hex(digits) =>
      var t := SpellUnit(u);
      assert t == [BACKSLASH] + ([LOWER_U] + digits);
      assert t[1..] == [LOWER_U] + digits && t[1..][1..] == digits;
      HexStaysInside(s, digits);
  }

  lemma {:induction false} HexStaysInside(s: Scan, digits: Text)
    requires s.inString && !s.escape && forall k | 0 <= k < |digits| :: IsHexDigit(digits[k])
    ensures Rises(s, digits, 0)
  {
    if digits != [] {
      assert IsHexDigit(digits[0]);
      assert forall k | 0 <= k < |digits| - 1 :: digits[1..][k] == digits[k + 1];
      HexStaysInside(s, digits[1..]);
    }
  }

  lemma StringIsFlat(s: Scan, us: seq<Unit>)
    requires Outside(s) && UnitsOk(us)
    ensures Rises(s, SpellString(us), 0)
  {
    var inside := s.(inString := true);
    UnitsStayInside(inside, us);
    AfterConcat(inside, SpellUnits(us), [QUOTE]);
    assert [QUOTE][1..] == [];
    assert SpellString(us) == [QUOTE] + (SpellUnits(us) + [QUOTE]);
    assert SpellString(us)[1..] == SpellUnits(us) + [QUOTE];
  }

  /** Brackets around a text one level down. */
  lemma Bracketed(s: Scan, open: CodePoint, inner: Text, close: CodePoint, rise: nat)
    requires Outside(s) && open in {OPEN_ARRAY, OPEN_OBJECT} && close in {CLOSE_ARRAY, CLOSE_OBJECT}
    requires Rises(s.(depth := s.depth + 1), inner, rise)
    ensures Rises(s, [open] + inner + [close], 1 + rise)
  {
    var t := [open] + inner + [close];
    assert t == [open] + (inner + [close]) && t[1..] == inner + [close];
    var down := s.(depth := s.depth + 1);
    AfterConcat(down, inner, [close]);
    assert [close][1..] == [];
  }

  lemma {:induction false} WrittenRises(s: Scan, w: Written)
    requires Outside(s) && Valid(w)
    ensures Rises(s, Spell(w), DepthOf(Meaning(w)))
    decreases w, 1
  {
    match w
    case Literal(lexeme) => FlatText(s, lexeme);
    case Quoted(units) => StringIsFlat(s, units);
    case ArrayOf(blank, items) =>
      var down := s.(depth := s.depth + 1);
      if items == [] {
        FlatText(down, blank);
        Bracketed(s, OPEN_ARRAY, blank, CLOSE_ARRAY, 0);
      } else {
        ItemsRise(down, items);
        Bracketed(s, OPEN_ARRAY, SpellItems(items), CLOSE_ARRAY, ItemsDepth(ItemsMeaning(items)));
      }
    case ObjectOf(blank, members) =>
      var down := s.(depth := s.depth + 1);
      if members == [] {
        FlatText(down, blank);
        Bracketed(s, OPEN_OBJECT, blank, CLOSE_OBJECT, 0);
      } else {
        MembersRise(down, members);
        Bracketed(s, OPEN_OBJECT, SpellMembers(members), CLOSE_OBJECT, FieldsDepth(MembersMeaning(members)));
      }
  }

  lemma {:induction false} ItemsRise(s: Scan, items: seq<Item>)
    requires Outside(s) && forall i | i in items :: IsBlank(i.before) && Valid(i.value) && IsBlank(i.after)
    ensures Rises(s, SpellItems(items), ItemsDepth(ItemsMeaning(items)))
    decreases items, 0
  {
    if items != [] {
      var i := items[0];
      assert i in items;
      var tail := SpellItems(items[1..]);
      var d, rest := DepthOf(Meaning(i.value)), ItemsDepth(ItemsMeaning(items[1..]));
      WrittenRises(s, i.value);
      ItemsRise(s, items[1..]);
      FlatText(s, i.before);
      FlatText(s, i.after);
      var comma: Text := if |items| > 1 then [COMMA] else [];
      FlatText(s, comma);
      hide Rises, Valid, IsBlank, Spell, SpellItems, Meaning;
      RisesConcat(s, i.before, 0, Spell(i.value), d);
      RisesConcat(s, i.before + Spell(i.value), d, i.after, 0);
      RisesConcat(s, i.before + Spell(i.value) + i.after, d, comma, 0);
      RisesConcat(s, i.before + Spell(i.value) + i.after + comma, d, tail, rest);
      ItemsUnfold(items);
    }
  }

  lemma {:induction false} ItemsUnfold(items: seq<Item>)
    requires items != []
    ensures var i := items[0];
            SpellItems(items) == i.before + Spell(i.value) + i.after + (if |items| > 1 then [COMMA] else []) + SpellItems(items[1..])
    ensures ItemsDepth(ItemsMeaning(items)) == Max(DepthOf(Meaning(items[0].value)), ItemsDepth(ItemsMeaning(items[1..])))
  {
    assert ItemsMeaning(items)[1..] == ItemsMeaning(items[1..]);
  }

  lemma {:induction false} MembersRise(s: Scan, members: seq<Member>)
    requires Outside(s)
    requires forall m | m in members ::
               && IsBlank(m.before) && UnitsOk(m.key) && IsBlank(m.beforeColon) && IsBlank(m.afterColon)
               && Valid(m.value) && IsBlank(m.after)
    ensures Rises(s, SpellMembers(members), FieldsDepth(MembersMeaning(members)))
    decreases members, 0
  {
    if members != [] {
      var m := members[0];
      assert m in members;
      var tail := SpellMembers(members[1..]);
      var d, rest := DepthOf(Meaning(m.value)), FieldsDepth(MembersMeaning(members[1..]));
      WrittenRises(s, m.value);
      MembersRise(s, members[1..]);
      StringIsFlat(s, m.key);
      FlatText(s, m.before);
      FlatText(s, m.beforeColon);
      FlatText(s, [COLON]);
      FlatText(s, m.afterColon);
      FlatText(s, m.after);
      var comma: Text := if |members| > 1 then [COMMA] else [];
      FlatText(s, comma);
      hide Rises, Valid, IsBlank, Spell, SpellString, SpellMembers, Meaning;
      var t1 := m.before + SpellString(m.key);
      RisesConcat(s, m.before, 0, SpellString(m.key), 0);
      RisesConcat(s, t1, 0, m.beforeColon, 0);
      RisesConcat(s, t1 + m.beforeColon, 0, [COLON], 0);
      RisesConcat(s, t1 + m.beforeColon + [COLON], 0, m.afterColon, 0);
      var t2 := t1 + m.beforeColon + [COLON] + m.afterColon;
      RisesConcat(s, t2, 0, Spell(m.value), d);
      RisesConcat(s, t2 + Spell(m.value), d, m.after, 0);
      RisesConcat(s, t2 + Spell(m.value) + m.after, d, comma, 0);
      RisesConcat(s, t2 + Spell(m.value) + m.after + comma, d, tail, rest);
      MembersUnfold(members);
    }
  }

  lemma {:induction false} MembersUnfold(members: seq<Member>)
    requires members != []
    ensures var m := members[0];
            SpellMembers(members) == m.before + SpellString(m.key) + m.beforeColon + [COLON] + m.afterColon + Spell(m.value) + m.after
                                     + (if |members| > 1 then [COMMA] else []) + SpellMembers(members[1..])
    ensures FieldsDepth(MembersMeaning(members)) == Max(DepthOf(Meaning(members[0].value)), FieldsDepth(MembersMeaning(members[1..])))
  {
    assert MembersMeaning(members)[1..] == MembersMeaning(members[1..]);
  }

  /** The scan of any writing of any value exceeds the limit exactly when the value is nested more deeply. */
  lemma {:induction false} ScanAgreesWithGrammar(before: Text, w: Written, after: Text, limit: nat)
    requires Valid(w) && IsBlank(before) && IsBlank(after)
    ensures Peak(START, before + Spell(w) + after) > limit <==> DepthOf(Meaning(w)) > limit
  {
    WrittenRises(START, w);
    FlatText(START, before);
    FlatText(START, after);
    RisesConcat(START, before, 0, Spell(w), DepthOf(Meaning(w)));
    RisesConcat(START, before + Spell(w), DepthOf(Meaning(w)), after, 0);
  }

  // ----- The canonical printer writes one of these texts.

  function CharUnits(c: CodePoint): seq<Unit> {
    if ShortEscape(c).Some? then [Short(ShortEscape(c).value)]
    else if 0x20 <= c <= 0x7e then [Plain(c)]
    else if c < 0x1_0000 then [Hex(Hex4(c))]
    else [Hex(Hex4(HighOf(c))), Hex(Hex4(LowOf(c)))]
  }

  function UnitsOf(s: Text): seq<Unit> {
    if s == [] then [] else CharUnits(s[0]) + UnitsOf(s[1..])
  }

  /** The printed form of a value, with the choices the printer makes. */
  function WrittenOf(v: Json): Written {
    match v
    case JNull => Literal(NULL)
    case JBool(b) => Literal(if b then TRUE else FALSE)
    case JNumber(lexeme) => Literal(lexeme)
    case JString(s) => Quoted(UnitsOf(s))
    case JArray(items) => ArrayOf([], ItemsOf(items))
    case JObject(fields) => ObjectOf([], MembersOf(fields))
  }

  function ItemsOf(items: seq<Json>): (r: seq<Item>)
    ensures |r| == |items|
  {
    if items == [] then [] else [Item([], WrittenOf(items[0]), [])] + ItemsOf(items[1..])
  }

  function MembersOf(fields: seq<Field>): (r: seq<Member>)
    ensures |r| == |fields|
  {
    if fields == [] then []
    else [Member([], UnitsOf(fields[0].key), [], [], WrittenOf(fields[0].value), [])] + MembersOf(fields[1..])
  }

  lemma {:induction false} SpellConcat(us: seq<Unit>, ws: seq<Unit>)
    ensures SpellUnits(us + ws) == SpellUnits(us) + SpellUnits(ws)
    ensures UnitsValue(us + ws) == UnitsValue(us) + UnitsValue(ws)
  {
    if us == [] {
      assert us + ws == ws;
    } else {
      assert (us + ws)[0] == us[0] && (us + ws)[1..] == us[1..] + ws;
      SpellConcat(us[1..], ws);
    }
  }

  lemma Hex4Value(n: nat)
    requires n < 0x1_0000
    ensures HexValue(Hex4(n)) == n && UnitOk(Hex(Hex4(n))) && UnitValue(Hex(Hex4(n))) == n
  {
    var h := Hex4(n);
    FourDigits(n);
    assert h[..3][..2] == h[..2] && h[..2][..1] == h[..1] && h[..1][..0] == [];
    assert HexValue(h[..1]) == n / 0x1000;
    assert HexValue(h[..2]) == 16 * (n / 0x1000) + n / 0x100 % 16;
    assert HexValue(h[..3]) == 16 * (16 * (n / 0x1000) + n / 0x100 % 16) + n / 16 % 16;
  }

  /** The code units of a character: itself, or its surrogate pair. */
  function UnitValuesOf(c: CodePoint): Text {
    if c < 0x1_0000 then [c] else [HighOf(c), LowOf(c)]
  }

  lemma OneUnit(u: Unit)
    ensures SpellUnits([u]) == SpellUnit(u) && UnitsValue([u]) == [UnitValue(u)] && (UnitsOk([u]) <==> UnitOk(u))
  {
    hide UnitValue, UnitOk, SpellUnit;
    assert [u][1..] == [] && [u][0] == u;
    var none: seq<Unit> := [];
    assert SpellUnits(none) == [] && UnitsValue(none) == [];
  }

  lemma PairWritten(c: CodePoint)
    requires c >= 0x1_0000
    ensures SpellUnits(CharUnits(c)) == Escape(c) && UnitsOk(CharUnits(c)) && UnitsValue(CharUnits(c)) == UnitValuesOf(c)
  {
    Hex4Value(HighOf(c));
    Hex4Value(LowOf(c));
    var h, l := Hex(Hex4(HighOf(c))), Hex(Hex4(LowOf(c)));
    assert CharUnits(c) == [h] + [l] && Escape(c) == SpellUnit(h) + SpellUnit(l);
    hide Hex4, HexValue, HighOf, LowOf, CharUnits, Escape;
    OneUnit(h);
    OneUnit(l);
    SpellConcat([h], [l]);
    UnitsOkConcat([h], [l]);
  }

  lemma CharWritten(c: CodePoint)
    ensures SpellUnits(CharUnits(c)) == Escape(c) && UnitsOk(CharUnits(c)) && UnitsValue(CharUnits(c)) == UnitValuesOf(c)
  {
    if c >= 0x1_0000 {
      PairWritten(c);
    } else {
      var u := CharUnits(c)[0];
      if ShortEscape(c).None? && !(0x20 <= c <= 0x7e) { Hex4Value(c); }
      hide Hex4, HexValue, SpellUnits, UnitsOk, UnitsValue;
      assert CharUnits(c) == [u] && SpellUnit(u) == Escape(c) && UnitOk(u) && UnitValue(u) == c;
      OneUnit(u);
    }
  }

  lemma {:induction false} StringWritten(s: Text)
    ensures SpellUnits(UnitsOf(s)) == EscapeAll(s) && UnitsOk(UnitsOf(s))
    ensures Merge(UnitsValue(UnitsOf(s))) == Merge(s)
    ensures s != [] ==> UnitsValue(UnitsOf(s)) == UnitValuesOf(s[0]) + UnitsValue(UnitsOf(s[1..]))
    ensures s == [] ==> UnitsValue(UnitsOf(s)) == []
  {
    if s != [] {
      var rest := s[1..];
      CharWritten(s[0]);
      StringWritten(rest);
      SpellConcat(CharUnits(s[0]), UnitsOf(rest));
      if rest != [] { StringWritten(rest[1..]); }
      hide CharUnits, Escape, SpellUnits, UnitsOk, Combine, HighOf, LowOf;
      MergeUnits(s, UnitsValue(UnitsOf(rest)));
      UnitsOkConcat(CharUnits(s[0]), UnitsOf(rest));
    }
  }

  lemma UnitsOkConcat(us: seq<Unit>, ws: seq<Unit>)
    requires UnitsOk(us) && UnitsOk(ws)
    ensures UnitsOk(us + ws)
  {}

  /** One more character in front: its units merge as it does. */
  lemma {:induction false} MergeUnits(s: Text, tail: Text)
    requires s != [] && Merge(tail) == Merge(s[1..])
    requires if |s| == 1 then tail == []
             else UnitValuesOf(s[1]) <= tail && Merge(tail[|UnitValuesOf(s[1])|..]) == Merge(s[2..])
    ensures Merge(UnitValuesOf(s[0]) + tail) == Merge(s)
  {}

  lemma {:induction false} PrintedIsWritten(v: Json)
    requires Numeric(v)
    ensures Valid(WrittenOf(v)) && Spell(WrittenOf(v)) == Emit(v) && Meaning(WrittenOf(v)) == MergeAll(v)
    decreases v, 1
  {
    match v
    case JString(s) => StringWritten(s);
    case JArray(items) => ItemsWritten(items);
    case JObject(fields) => MembersWritten(fields);
    case _ =>
  }

  /** The parts of a list of items that the spelling and the meaning share. */
  predicate ItemsFit(items: seq<Json>) {
    && SpellItems(ItemsOf(items)) == EmitItems(items) && ItemsMeaning(ItemsOf(items)) == MergeItems(items)
    && forall i | i in ItemsOf(items) :: IsBlank(i.before) && Valid(i.value) && IsBlank(i.after)
  }

  lemma {:induction false} ItemsOfUnfold(items: seq<Json>)
    requires items != []
    ensures ItemsOf(items) == [Item([], WrittenOf(items[0]), [])] + ItemsOf(items[1..]) && |ItemsOf(items[1..])| == |items| - 1
  {
    hide WrittenOf;
  }

  lemma {:induction false} ItemsMeaningUnfold(items: seq<Item>)
    requires items != []
    ensures ItemsMeaning(items) == [Meaning(items[0].value)] + ItemsMeaning(items[1..])
  {
    hide Meaning;
  }

  lemma {:induction false} ItemsSpell(items: seq<Json>)
    requires items != [] && SpellItems(ItemsOf(items[1..])) == EmitItems(items[1..]) && Spell(WrittenOf(items[0])) == Emit(items[0])
    ensures SpellItems(ItemsOf(items)) == EmitItems(items)
  {
    hide *;
    var written, none := ItemsOf(items), Item([], WrittenOf(items[0]), []).before;
    ItemsOfUnfold(items);
    assert written[0] == Item(none, WrittenOf(items[0]), none) && written[1..] == ItemsOf(items[1..]);
    ItemsUnfold(written);
    Canonical.ItemsUnfold(items);
    var e := Emit(items[0]);
    assert none + e + none == e;
    if |items| == 1 {
      NoItems(items[1..]);
      assert e + none + none == e;
    } else {
      assert e + [COMMA] + EmitItems(items[1..]) == e + ([COMMA] + EmitItems(items[1..]));
    }
  }

  lemma OneMoreItem(items: seq<Json>)
    requires items != [] && ItemsFit(items[1..])
    requires Valid(WrittenOf(items[0])) && Spell(WrittenOf(items[0])) == Emit(items[0])
    requires Meaning(WrittenOf(items[0])) == MergeAll(items[0])
    ensures ItemsFit(items)
  {
    ItemsSpell(items);
    ItemsOfUnfold(items);
    ItemsMeaningUnfold(ItemsOf(items));
    Canonical.ItemsUnfold(items);
    hide Spell, Emit, Meaning, MergeAll, Valid, SpellItems, EmitItems, MergeItems, ItemsMeaning, ItemsOf, WrittenOf;
    assert ItemsOf(items)[1..] == ItemsOf(items[1..]);
  }

  lemma {:induction false} NoItems(items: seq<Json>)
    requires items == []
    ensures ItemsFit(items) && SpellItems(ItemsOf(items)) == []
  {}

  lemma {:induction false} ItemsWritten(items: seq<Json>)
    requires forall x | x in items :: Numeric(x)
    ensures ItemsFit(items)
    decreases items, 0
  {
    if items == [] {
      NoItems(items);
    } else {
      PrintedIsWritten(items[0]);
      ItemsWritten(items[1..]);
      hide ItemsFit;
      OneMoreItem(items);
    }
  }

  predicate MembersFit(fields: seq<Field>) {
    && SpellMembers(MembersOf(fields)) == EmitFields(fields) && MembersMeaning(MembersOf(fields)) == MergeFields(fields)
    && forall m | m in MembersOf(fields) ::
         && IsBlank(m.before) && UnitsOk(m.key) && IsBlank(m.beforeColon) && IsBlank(m.afterColon)
         && Valid(m.value) && IsBlank(m.after)
  }

  function MemberOf(f: Field): Member { Member([], UnitsOf(f.key), [], [], WrittenOf(f.value), []) }

  lemma {:induction false} MembersOfUnfold(fields: seq<Field>)
    requires fields != []
    ensures MembersOf(fields) == [MemberOf(fields[0])] + MembersOf(fields[1..]) && |MembersOf(fields[1..])| == |fields| - 1
  {
    hide WrittenOf, UnitsOf;
  }

  lemma {:induction false} MembersMeaningUnfold(members: seq<Member>)
    requires members != []
    ensures MembersMeaning(members)
         == [Field(Merge(UnitsValue(members[0].key)), Meaning(members[0].value))] + MembersMeaning(members[1..])
  {
    hide Meaning, Merge, UnitsValue;
  }

  lemma {:induction false} MemberSpells(f: Field)
    requires Spell(WrittenOf(f.value)) == Emit(f.value)
    ensures var m := MemberOf(f);
            m.before + SpellString(m.key) + m.beforeColon + [COLON] + m.afterColon + Spell(m.value) + m.after == EmitField(f)
  {
    StringWritten(f.key);
    hide Spell, Emit, WrittenOf, UnitsOf, SpellUnits, EscapeAll;
    var none: Text := [];
    assert none + SpellString(UnitsOf(f.key)) + none + [COLON] + none + Emit(f.value) + none
        == SpellString(UnitsOf(f.key)) + [COLON] + Emit(f.value);
  }

  lemma {:induction false} MembersSpell(fields: seq<Field>)
    requires fields != [] && SpellMembers(MembersOf(fields[1..])) == EmitFields(fields[1..])
    requires Spell(WrittenOf(fields[0].value)) == Emit(fields[0].value)
    ensures SpellMembers(MembersOf(fields)) == EmitFields(fields)
  {
    hide *;
    var written, tail := MembersOf(fields), fields[1..];
    MembersOfUnfold(fields);
    assert written[0] == MemberOf(fields[0]) && written[1..] == MembersOf(tail);
    MembersUnfold(written);
    FieldsUnfold(fields);
    MemberSpells(fields[0]);
    assert EmitField(fields[0]) + [COMMA] + EmitFields(tail) == EmitField(fields[0]) + ([COMMA] + EmitFields(tail));
    assert tail == [] ==> EmitField(fields[0]) + [] + EmitFields(tail) == EmitField(fields[0]);
  }

  lemma OneMoreMember(fields: seq<Field>)
    requires fields != [] && MembersFit(fields[1..])
    requires Valid(WrittenOf(fields[0].value)) && Spell(WrittenOf(fields[0].value)) == Emit(fields[0].value)
    requires Meaning(WrittenOf(fields[0].value)) == MergeAll(fields[0].value)
    ensures MembersFit(fields)
  {
    MembersSpell(fields);
    MembersOfUnfold(fields);
    MembersMeaningUnfold(MembersOf(fields));
    FieldsUnfold(fields);
    StringWritten(fields[0].key);
    hide Spell, Emit, Meaning, MergeAll, Valid, SpellMembers, EmitFields, MergeFields, MembersMeaning, MembersOf, WrittenOf, Merge,
         SpellUnits, UnitsOk, EscapeAll, UnitsValue, UnitsOf, UnitValuesOf;
    assert MembersOf(fields)[1..] == MembersOf(fields[1..]);
  }

  lemma {:induction false} NoMembers(fields: seq<Field>)
    requires fields == []
    ensures MembersFit(fields) && SpellMembers(MembersOf(fields)) == []
  {}

  lemma {:induction false} MembersWritten(fields: seq<Field>)
    requires forall f | f in fields :: Numeric(f.value)
    ensures MembersFit(fields)
    decreases fields, 0
  {
    if fields == [] {
      NoMembers(fields);
    } else {
      PrintedIsWritten(fields[0].value);
      MembersWritten(fields[1..]);
      hide MembersFit;
      OneMoreMember(fields);
    }
  }

  /** What the canonical printer prints is refused exactly when the value is nested more deeply than the limit. */
  lemma {:induction false} PrintedDepth(v: Json, limit: nat)
    requires Numeric(v)
    ensures Peak(START, Emit(v)) > limit <==> DepthOf(MergeAll(v)) > limit
  {
    PrintedIsWritten(v);
    var none: Text := [];
    ScanAgreesWithGrammar(none, WrittenOf(v), none, limit);
    assert none + Spell(WrittenOf(v)) + none == Emit(v);
  }
}
