/** JSON text as `JSON.stringify` writes it, over UTF-16 code units, and why it can be read back in one
    way only. Strings are escaped as in section 7 of RFC 8259; surrogates that are not part of a pair
    are escaped too. */
module JsonText {

  type Unit = n: nat | n < 0x10000
  type Text = seq<Unit>

  datatype Keyed<T> = Keyed(key: Text, value: T)

  /** A value as JavaScript holds it. An object's fields are in enumeration order. A finite number
      stands for its numeral, so that -0 is 0; `Foreign` is whatever JSON cannot say: undefined,
      functions, symbols, big integers, and numbers that are not finite. */
  datatype Json =
    | Null
    | Bool(truth: bool)
    | Num(numeral: Text)
    | Str(text: Text)
    | Arr(items: seq<Json>)
    | Obj(fields: seq<Keyed<Json>>)
    | Foreign

  const QUOTE: Unit := 0x22
  const BACKSLASH: Unit := 0x5C
  const COMMA: Unit := 0x2C
  const COLON: Unit := 0x3A
  const OPEN_BRACKET: Unit := 0x5B
  const CLOSE_BRACKET: Unit := 0x5D
  const OPEN_BRACE: Unit := 0x7B
  const CLOSE_BRACE: Unit := 0x7D
  const NULL: Text := [0x6E, 0x75, 0x6C, 0x6C]
  const TRUE: Text := [0x74, 0x72, 0x75, 0x65]
  const FALSE: Text := [0x66, 0x61, 0x6C, 0x73, 0x65]

  // ---------------------------------------------------------------- strings

  function HexDigit(d: nat): Unit
    requires d < 16
  {
    if d < 10 then 0x30 + d else 0x61 + d - 10
  }

  function Hex4(u: Unit): Text {
    [HexDigit(u / 16 / 16 / 16), HexDigit(u / 16 / 16 % 16), HexDigit(u / 16 % 16), HexDigit(u % 16)]
  }

  predicate Surrogate(u: Unit) { 0xD800 <= u < 0xE000 }

  predicate Pair(high: Unit, low: Unit) { 0xD800 <= high < 0xDC00 <= low < 0xE000 }

  /** The letter of a two-character escape, or 0. */
  function ShortEscape(u: Unit): Unit {
    if u == 0x08 then 0x62
    else if u == 0x09 then 0x74
    else if u == 0x0A then 0x6E
    else if u == 0x0C then 0x66
    else if u == 0x0D then 0x72
    else if u == QUOTE || u == BACKSLASH then u
    else 0
  }

  /** One code unit that is not half of a surrogate pair. */
  function EscapeUnit(u: Unit): Text {
    if ShortEscape(u) != 0 then [BACKSLASH, ShortEscape(u)]
    else if u < 0x20 || Surrogate(u) then [BACKSLASH, 0x75] + Hex4(u)
    else [u]
  }

  predicate StartsPair(s: Text) {
    |s| >= 2 && Pair(s[0], s[1])
  }

  function Escape(s: Text): Text {
    if s == [] then []
    else if StartsPair(s) then s[..2] + Escape(s[2..])
    else EscapeUnit(s[0]) + Escape(s[1..])
  }

  function Quoted(s: Text): Text {
    [QUOTE] + Escape(s) + [QUOTE]
  }

  lemma DigitInjective(d: nat, e: nat)
    requires d < 16 && e < 16 && HexDigit(d) == HexDigit(e)
    ensures d == e
  {
  }

  lemma HexInjective(u: Unit, v: Unit)
    requires Hex4(u) == Hex4(v)
    ensures u == v
  {
    assert Hex4(u)[0] == Hex4(v)[0] && Hex4(u)[1] == Hex4(v)[1] && Hex4(u)[2] == Hex4(v)[2] && Hex4(u)[3] == Hex4(v)[3];
    hide HexDigit, Hex4;
    DigitInjective(u / 16 / 16 / 16, v / 16 / 16 / 16);
    DigitInjective(u / 16 / 16 % 16, v / 16 / 16 % 16);
    DigitInjective(u / 16 % 16, v / 16 % 16);
    DigitInjective(u % 16, v % 16);
  }

  /** Whatever follows, an escaped code unit can be told from any other. */
  lemma UnitDecodable(u: Unit, v: Unit, x: Text, y: Text)
    requires EscapeUnit(u) + x == EscapeUnit(v) + y
    ensures u == v && x == y
  {
    var s := EscapeUnit(u) + x;
    assert s[0] == EscapeUnit(u)[0] && s[0] == EscapeUnit(v)[0];
    if |EscapeUnit(u)| > 1 {
      assert s[1] == EscapeUnit(u)[1] && s[1] == EscapeUnit(v)[1];
      if |EscapeUnit(u)| == 6 {
        assert s[2..6] == Hex4(u) && s[2..6] == Hex4(v);
        HexInjective(u, v);
      }
    }
    assert s[|EscapeUnit(u)|..] == x && s[|EscapeUnit(v)|..] == y;
  }

  lemma EscapeHead(s: Text)
    requires s != []
    ensures Escape(s) != [] && Escape(s)[0] != QUOTE
    ensures StartsPair(s) ==> Escape(s) == s[..2] + Escape(s[2..])
    ensures !StartsPair(s) ==> !Surrogate(Escape(s)[0])
  {
  }

  lemma Associates(a: Text, b: Text, c: Text)
    ensures (a + b) + c == a + (b + c)
  {
  }

  predicate Closes(x: Text, mark: Unit) {
    x != [] && x[0] == mark
  }

  lemma {:induction false} StringDecodable(s: Text, t: Text, x: Text, y: Text)
    requires Closes(x, QUOTE) && Closes(y, QUOTE)
    requires Escape(s) + x == Escape(t) + y
    ensures s == t && x == y
  {
    if s != [] { EscapeHead(s); assert (Escape(s) + x)[0] == Escape(s)[0]; }
    if t != [] { EscapeHead(t); assert (Escape(t) + y)[0] == Escape(t)[0]; }
    if s == [] || t == [] {
      assert [] + x == x && [] + y == y;
    } else if StartsPair(s) {
      Associates(s[..2], Escape(s[2..]), x);
      Associates(t[..2], Escape(t[2..]), y);
      SplitBoth(s[..2], Escape(s[2..]) + x, t[..2], Escape(t[2..]) + y);
      StringDecodable(s[2..], t[2..], x, y);
      assert s == s[..2] + s[2..] && t == t[..2] + t[2..];
    } else {
      Associates(EscapeUnit(s[0]), Escape(s[1..]), x);
      Associates(EscapeUnit(t[0]), Escape(t[1..]), y);
      hide EscapeUnit;
      UnitDecodable(s[0], t[0], Escape(s[1..]) + x, Escape(t[1..]) + y);
      StringDecodable(s[1..], t[1..], x, y);
      assert s == [s[0]] + s[1..] && t == [t[0]] + t[1..];
    }
  }

  /** Equal texts split at the same place have equal parts. */
  lemma SplitBoth(a: Text, x: Text, b: Text, y: Text)
    requires |a| == |b| && a + x == b + y
    ensures a == b && x == y
  {
    assert (a + x)[..|a|] == a && (b + y)[..|b|] == b;
    assert (a + x)[|a|..] == x && (b + y)[|b|..] == y;
  }

  lemma QuotedDecodable(s: Text, t: Text, x: Text, y: Text)
    requires Quoted(s) + x == Quoted(t) + y
    ensures s == t && x == y
  {
    assert Quoted(s) + x == [QUOTE] + (Escape(s) + ([QUOTE] + x));
    assert Quoted(t) + y == [QUOTE] + (Escape(t) + ([QUOTE] + y));
    SplitBoth([QUOTE], Escape(s) + ([QUOTE] + x), [QUOTE], Escape(t) + ([QUOTE] + y));
    StringDecodable(s, t, [QUOTE] + x, [QUOTE] + y);
    SplitBoth([QUOTE], x, [QUOTE], y);
  }

  // ---------------------------------------------------------------- numerals

  /** Digits, signs, the decimal point and the exponent mark. */
  predicate NumeralUnit(u: Unit) {
    0x30 <= u <= 0x39 || u == 0x2D || u == 0x2B || u == 0x2E || u == 0x65 || u == 0x45
  }

  /** What a finite number prints as starts with a digit or a minus sign. */
  predicate IsNumeral(t: Text) {
    && t != [] && (0x30 <= t[0] <= 0x39 || t[0] == 0x2D)
    && (forall i :: 0 <= i < |t| ==> NumeralUnit(t[i]))
  }

  /** What may follow a value: nothing, or a comma or a closing bracket. */
  predicate Stops(x: Text) {
    x == [] || x[0] == COMMA || x[0] == CLOSE_BRACKET || x[0] == CLOSE_BRACE
  }

  lemma {:induction false} NumeralDecodable(s: Text, t: Text, x: Text, y: Text)
    requires forall i :: 0 <= i < |s| ==> NumeralUnit(s[i])
    requires forall i :: 0 <= i < |t| ==> NumeralUnit(t[i])
    requires Stops(x) && Stops(y) && s + x == t + y
    ensures s == t && x == y
  {
    var n, left, right := if |s| < |t| then |s| else |t|, s + x, t + y;
    if n < |left| { assert left[n] == right[n]; }
    assert |s| == |t|;
    SplitBoth(s, x, t, y);
  }

  // ---------------------------------------------------------------- values

  /** The values JSON can say, with numbers printed as numerals. */
  predicate IsJson(v: Json) {
    match v
    case Foreign => false
    case Num(t) => IsNumeral(t)
    case Arr(items) => forall i :: 0 <= i < |items| ==> IsJson(items[i])
    case Obj(fields) => forall i :: 0 <= i < |fields| ==> IsJson(fields[i].value)
    case _ => true
  }

  /** The text of a value, its fields in the order they are in. */
  function Print(v: Json): Text
    requires IsJson(v)
  {
    match v
    case Null => NULL
    case Bool(b) => if b then TRUE else FALSE
    case Num(t) => t
    case Str(s) => Quoted(s)
    case Arr(items) => [OPEN_BRACKET] + PrintItems(items) + [CLOSE_BRACKET]
    case Obj(fields) => [OPEN_BRACE] + PrintFields(fields) + [CLOSE_BRACE]
  }

  function PrintItems(items: seq<Json>): Text
    requires forall i :: 0 <= i < |items| ==> IsJson(items[i])
  {
    if items == [] then []
    else Print(items[0]) + if |items| == 1 then [] else [COMMA] + PrintItems(items[1..])
  }

  function PrintFields(fields: seq<Keyed<Json>>): Text
    requires forall i :: 0 <= i < |fields| ==> IsJson(fields[i].value)
  {
    if fields == [] then []
    else Quoted(fields[0].key) + [COLON] + Print(fields[0].value)
         + if |fields| == 1 then [] else [COMMA] + PrintFields(fields[1..])
  }

  /** The first code unit of a value's text tells what kind of value it is. */
  function FirstUnit(v: Json): Unit
    requires IsJson(v)
  {
    match v
    case Null => 0x6E
    case Bool(b) => if b then 0x74 else 0x66
    case Num(t) => t[0]
    case Str(_) => QUOTE
    case Arr(_) => OPEN_BRACKET
    case Obj(_) => OPEN_BRACE
  }

  lemma PrintHead(v: Json)
    requires IsJson(v)
    ensures Print(v) != [] && Print(v)[0] == FirstUnit(v)
  {
  }

  lemma AtomDecodable(a: Json, b: Json, x: Text, y: Text)
    requires IsJson(a) && IsJson(b) && Stops(x) && Stops(y)
    requires a.Null? || a.Bool? || a.Num? || a.Str?
    requires FirstUnit(a) == FirstUnit(b) && Print(a) + x == Print(b) + y
    ensures a == b && x == y
  {
    match a
    case Null => SplitBoth(NULL, x, NULL, y);
    case Bool(t) => SplitBoth(Print(a), x, Print(b), y);
    case Num(t) => NumeralDecodable(t, b.numeral, x, y);
    case Str(s) => QuotedDecodable(s, b.text, x, y);
  }

  lemma Enclosed(opening: Unit, inner: Text, close: Unit, x: Text)
    ensures ([opening] + inner + [close]) + x == [opening] + (inner + ([close] + x))
  {
  }

  /** No text of a value followed by a stop is also the text of another. */
  lemma {:induction false} Decodable(a: Json, b: Json, x: Text, y: Text)
    requires IsJson(a) && IsJson(b) && Stops(x) && Stops(y)
    requires Print(a) + x == Print(b) + y
    ensures a == b && x == y
    decreases a, 1
  {
    PrintHead(a);
    PrintHead(b);
    assert (Print(a) + x)[0] == FirstUnit(a) && (Print(b) + y)[0] == FirstUnit(b);
    hide Quoted, Stops, PrintItems, PrintFields;
    match a
    case Arr(items) =>
      Enclosed(OPEN_BRACKET, PrintItems(items), CLOSE_BRACKET, x);
      Enclosed(OPEN_BRACKET, PrintItems(b.items), CLOSE_BRACKET, y);
      var u, v := PrintItems(items) + ([CLOSE_BRACKET] + x), PrintItems(b.items) + ([CLOSE_BRACKET] + y);
      SplitBoth([OPEN_BRACKET], u, [OPEN_BRACKET], v);
      ItemsDecodable(items, b.items, [CLOSE_BRACKET] + x, [CLOSE_BRACKET] + y);
      SplitBoth([CLOSE_BRACKET], x, [CLOSE_BRACKET], y);
    case Obj(fields) =>
      Enclosed(OPEN_BRACE, PrintFields(fields), CLOSE_BRACE, x);
      Enclosed(OPEN_BRACE, PrintFields(b.fields), CLOSE_BRACE, y);
      var u, v := PrintFields(fields) + ([CLOSE_BRACE] + x), PrintFields(b.fields) + ([CLOSE_BRACE] + y);
      SplitBoth([OPEN_BRACE], u, [OPEN_BRACE], v);
      FieldsDecodable(fields, b.fields, [CLOSE_BRACE] + x, [CLOSE_BRACE] + y);
      SplitBoth([CLOSE_BRACE], x, [CLOSE_BRACE], y);
    case _ => AtomDecodable(a, b, x, y);
  }

  /** What follows the first item of a list that `x` closes. */
  function AfterItem(items: seq<Json>, x: Text): Text
    requires items != [] && forall i :: 0 <= i < |items| ==> IsJson(items[i])
  {
    if |items| == 1 then x else [COMMA] + (PrintItems(items[1..]) + x)
  }

  lemma Chains(head: Text, mark: Unit, rest: Text, x: Text)
    ensures (head + ([mark] + rest)) + x == head + ([mark] + (rest + x))
  {
  }

  lemma ItemsText(items: seq<Json>, x: Text)
    requires items != [] && forall i :: 0 <= i < |items| ==> IsJson(items[i])
    ensures PrintItems(items) + x == Print(items[0]) + AfterItem(items, x)
  {
    hide Print;
    if |items| == 1 {
      assert PrintItems(items) == Print(items[0]);
    } else {
      Chains(Print(items[0]), COMMA, PrintItems(items[1..]), x);
    }
  }

  lemma ItemsHead(items: seq<Json>, x: Text)
    requires items != [] && forall i :: 0 <= i < |items| ==> IsJson(items[i])
    ensures PrintItems(items) + x == Print(items[0]) + AfterItem(items, x)
    ensures (PrintItems(items) + x)[0] == FirstUnit(items[0]) != CLOSE_BRACKET
  {
    hide *;
    ItemsText(items, x);
    PrintHead(items[0]);
    StartsWith(Print(items[0]), AfterItem(items, x));
    FirstIsNotClose(items[0]);
  }

  lemma StartsWith(head: Text, x: Text)
    requires head != []
    ensures (head + x)[0] == head[0]
  {
  }

  lemma FirstIsNotClose(v: Json)
    requires IsJson(v)
    ensures FirstUnit(v) != CLOSE_BRACKET
  {
  }

  lemma ItemsEmpty(a: seq<Json>, b: seq<Json>, x: Text, y: Text)
    requires forall i :: 0 <= i < |a| ==> IsJson(a[i])
    requires forall i :: 0 <= i < |b| ==> IsJson(b[i])
    requires Closes(x, CLOSE_BRACKET) && Closes(y, CLOSE_BRACKET)
    requires PrintItems(a) + x == PrintItems(b) + y && (a == [] || b == [])
    ensures a == b && x == y
  {
    if a != [] { ItemsHead(a, x); }
    if b != [] { ItemsHead(b, y); }
    hide Print, FirstUnit, AfterItem;
    assert PrintItems([]) + x == x && PrintItems([]) + y == y;
  }

  lemma ItemsStep(a: seq<Json>, b: seq<Json>, x: Text, y: Text)
    requires a != [] && b != []
    requires forall i :: 0 <= i < |a| ==> IsJson(a[i])
    requires forall i :: 0 <= i < |b| ==> IsJson(b[i])
    requires Closes(x, CLOSE_BRACKET) && Closes(y, CLOSE_BRACKET)
    requires PrintItems(a) + x == PrintItems(b) + y
    ensures a[0] == b[0] && AfterItem(a, x) == AfterItem(b, y)
    decreases a, 0
  {
    ItemsHead(a, x);
    ItemsHead(b, y);
    hide PrintItems, Print, FirstUnit, IsJson;
    Decodable(a[0], b[0], AfterItem(a, x), AfterItem(b, y));
  }

  lemma ItemsRest(a: seq<Json>, b: seq<Json>, x: Text, y: Text)
    requires a != [] && b != []
    requires forall i :: 0 <= i < |a| ==> IsJson(a[i])
    requires forall i :: 0 <= i < |b| ==> IsJson(b[i])
    requires Closes(x, CLOSE_BRACKET) && Closes(y, CLOSE_BRACKET) && AfterItem(a, x) == AfterItem(b, y)
    ensures |a| == 1 <==> |b| == 1
    ensures if |a| == 1 then x == y else PrintItems(a[1..]) + x == PrintItems(b[1..]) + y
  {
    hide PrintItems, IsJson;
    assert AfterItem(a, x)[0] == AfterItem(b, y)[0];
    if |a| > 1 && |b| > 1 {
      SplitBoth([COMMA], PrintItems(a[1..]) + x, [COMMA], PrintItems(b[1..]) + y);
    }
  }

  lemma SameHeadAndTail<T>(a: seq<T>, b: seq<T>)
    requires a != [] && b != [] && a[0] == b[0] && a[1..] == b[1..]
    ensures a == b
  {
    assert a == [a[0]] + a[1..] && b == [b[0]] + b[1..];
  }

  lemma {:induction false} ItemsDecodable(a: seq<Json>, b: seq<Json>, x: Text, y: Text)
    requires forall i :: 0 <= i < |a| ==> IsJson(a[i])
    requires forall i :: 0 <= i < |b| ==> IsJson(b[i])
    requires Closes(x, CLOSE_BRACKET) && Closes(y, CLOSE_BRACKET)
    requires PrintItems(a) + x == PrintItems(b) + y
    ensures a == b && x == y
    decreases a, 1
  {
    hide *;
    if a == [] || b == [] {
      ItemsEmpty(a, b, x, y);
    } else {
      ItemsStep(a, b, x, y);
      ItemsRest(a, b, x, y);
      if |a| > 1 { ItemsDecodable(a[1..], b[1..], x, y); }
      SameHeadAndTail(a, b);
    }
  }

  function AfterField(fields: seq<Keyed<Json>>, x: Text): Text
    requires fields != [] && forall i :: 0 <= i < |fields| ==> IsJson(fields[i].value)
  {
    if |fields| == 1 then x else [COMMA] + (PrintFields(fields[1..]) + x)
  }

  function FieldText(f: Keyed<Json>): Text
    requires IsJson(f.value)
  {
    Quoted(f.key) + [COLON] + Print(f.value)
  }

  lemma FieldsText(fields: seq<Keyed<Json>>, x: Text)
    requires fields != [] && forall i :: 0 <= i < |fields| ==> IsJson(fields[i].value)
    ensures PrintFields(fields) + x == FieldText(fields[0]) + AfterField(fields, x)
  {
    hide Print, Quoted;
    if |fields| == 1 {
      assert PrintFields(fields) == FieldText(fields[0]);
    } else {
      Chains(FieldText(fields[0]), COMMA, PrintFields(fields[1..]), x);
    }
  }

  lemma FieldsHead(fields: seq<Keyed<Json>>, x: Text)
    requires fields != [] && forall i :: 0 <= i < |fields| ==> IsJson(fields[i].value)
    ensures PrintFields(fields) + x
            == Quoted(fields[0].key) + ([COLON] + (Print(fields[0].value) + AfterField(fields, x)))
    ensures (PrintFields(fields) + x)[0] == QUOTE
  {
    FieldsText(fields, x);
    hide PrintFields, Print, AfterField, IsJson;
    var key, value, after := Quoted(fields[0].key), Print(fields[0].value), AfterField(fields, x);
    Associates(key + [COLON], value, after);
    Associates(key, [COLON], value + after);
  }

  lemma FieldsEmpty(a: seq<Keyed<Json>>, b: seq<Keyed<Json>>, x: Text, y: Text)
    requires forall i :: 0 <= i < |a| ==> IsJson(a[i].value)
    requires forall i :: 0 <= i < |b| ==> IsJson(b[i].value)
    requires Closes(x, CLOSE_BRACE) && Closes(y, CLOSE_BRACE)
    requires PrintFields(a) + x == PrintFields(b) + y && (a == [] || b == [])
    ensures a == b && x == y
  {
    if a != [] { FieldsHead(a, x); }
    if b != [] { FieldsHead(b, y); }
    hide Print, FirstUnit, AfterField;
    assert PrintFields([]) + x == x && PrintFields([]) + y == y;
  }

  lemma FieldsStep(a: seq<Keyed<Json>>, b: seq<Keyed<Json>>, x: Text, y: Text)
    requires a != [] && b != []
    requires forall i :: 0 <= i < |a| ==> IsJson(a[i].value)
    requires forall i :: 0 <= i < |b| ==> IsJson(b[i].value)
    requires Closes(x, CLOSE_BRACE) && Closes(y, CLOSE_BRACE)
    requires PrintFields(a) + x == PrintFields(b) + y
    ensures a[0] == b[0] && AfterField(a, x) == AfterField(b, y)
    decreases a, 0
  {
    FieldsHead(a, x);
    FieldsHead(b, y);
    hide PrintFields, Print, IsJson, Quoted;
    var u, v := Print(a[0].value) + AfterField(a, x), Print(b[0].value) + AfterField(b, y);
    QuotedDecodable(a[0].key, b[0].key, [COLON] + u, [COLON] + v);
    SplitBoth([COLON], u, [COLON], v);
    Decodable(a[0].value, b[0].value, AfterField(a, x), AfterField(b, y));
  }

  lemma FieldsRest(a: seq<Keyed<Json>>, b: seq<Keyed<Json>>, x: Text, y: Text)
    requires a != [] && b != []
    requires forall i :: 0 <= i < |a| ==> IsJson(a[i].value)
    requires forall i :: 0 <= i < |b| ==> IsJson(b[i].value)
    requires Closes(x, CLOSE_BRACE) && Closes(y, CLOSE_BRACE) && AfterField(a, x) == AfterField(b, y)
    ensures |a| == 1 <==> |b| == 1
    ensures if |a| == 1 then x == y else PrintFields(a[1..]) + x == PrintFields(b[1..]) + y
  {
    hide PrintFields, IsJson;
    assert AfterField(a, x)[0] == AfterField(b, y)[0];
    if |a| > 1 && |b| > 1 {
      SplitBoth([COMMA], PrintFields(a[1..]) + x, [COMMA], PrintFields(b[1..]) + y);
    }
  }

  lemma {:induction false} FieldsDecodable(a: seq<Keyed<Json>>, b: seq<Keyed<Json>>, x: Text, y: Text)
    requires forall i :: 0 <= i < |a| ==> IsJson(a[i].value)
    requires forall i :: 0 <= i < |b| ==> IsJson(b[i].value)
    requires Closes(x, CLOSE_BRACE) && Closes(y, CLOSE_BRACE)
    requires PrintFields(a) + x == PrintFields(b) + y
    ensures a == b && x == y
    decreases a, 1
  {
    hide *;
    if a == [] || b == [] {
      FieldsEmpty(a, b, x, y);
    } else {
      FieldsStep(a, b, x, y);
      FieldsRest(a, b, x, y);
      if |a| > 1 { FieldsDecodable(a[1..], b[1..], x, y); }
      SameHeadAndTail(a, b);
    }
  }

  /** Different values have different texts. */
  lemma PrintInjective(a: Json, b: Json)
    requires IsJson(a) && IsJson(b) && Print(a) == Print(b)
    ensures a == b
  {
    assert Print(a) + [] == Print(b) + [];
    Decodable(a, b, [], []);
  }
}
