/** What the canonical texts are: the grammar of RFC 8259 with the code points written out, the order of
    keys by code units, and a decoder that gives escaped strings back. */
module CanonicalLaws {
  import opened Common
  import opened JsonText
  import opened KeyOrder
  import opened CanonicalJson

  // ---------------------------------------------------------------- the order of keys

  /** One key comes before another if it is a proper prefix, or if it has the smaller code unit where
      they first differ. */
  predicate Before(a: Text, b: Text) {
    exists i :: 0 <= i <= |a| && i <= |b| && a[..i] == b[..i] && BeforeAt(a, b, i)
  }

  predicate BeforeAt(a: Text, b: Text, i: nat)
    requires i <= |a| && i <= |b|
  {
    i < |b| && (i == |a| || a[i] < b[i])
  }

  lemma {:induction false} UnitsBefore(a: Text, b: Text)
    ensures CompareUnits(a, b) < 0 <==> Before(a, b)
  {
    if a != [] && b != [] && a[0] == b[0] {
      UnitsBefore(a[1..], b[1..]);
      if Before(a[1..], b[1..]) {
        var i :| 0 <= i <= |a[1..]| && i <= |b[1..]| && a[1..][..i] == b[1..][..i] && BeforeAt(a[1..], b[1..], i);
        assert a[..i + 1] == [a[0]] + a[1..][..i] && b[..i + 1] == [b[0]] + b[1..][..i];
        assert BeforeAt(a, b, i + 1);
      }
      if Before(a, b) {
        var i :| 0 <= i <= |a| && i <= |b| && a[..i] == b[..i] && BeforeAt(a, b, i);
        assert i > 0;
        assert a[1..][..i - 1] == a[..i][1..] && b[1..][..i - 1] == b[..i][1..];
        assert BeforeAt(a[1..], b[1..], i - 1);
      }
    } else {
      Unequal(a, b);
    }
  }

  lemma Unequal(a: Text, b: Text)
    requires a == [] || b == [] || a[0] != b[0]
    ensures CompareUnits(a, b) < 0 <==> Before(a, b)
  {
    assert a[..0] == b[..0];
    if CompareUnits(a, b) < 0 {
      assert BeforeAt(a, b, 0);
    }
    if Before(a, b) {
      var i :| 0 <= i <= |a| && i <= |b| && a[..i] == b[..i] && BeforeAt(a, b, i);
      SamePrefix(a, b, i);
    }
  }

  lemma SamePrefix(a: Text, b: Text, i: nat)
    requires i <= |a| && i <= |b| && a[..i] == b[..i]
    ensures i > 0 ==> a[0] == b[0]
  {
    if i > 0 { assert a[..i][0] == b[..i][0]; }
  }

  // ---------------------------------------------------------------- strings

  function HexValue(u: Unit): Option<nat> {
    if 0x30 <= u <= 0x39 then Some(u - 0x30)
    else if 0x41 <= u <= 0x46 then Some(u - 0x41 + 10)
    else if 0x61 <= u <= 0x66 then Some(u - 0x61 + 10)
    else None
  }

  /** Four hexadecimal digits at the start of a text, as a code unit. */
  function HexUnit(t: Text): Option<Unit> {
    if |t| < 4 then None
    else match (HexValue(t[0]), HexValue(t[1]), HexValue(t[2]), HexValue(t[3]))
      case (Some(a), Some(b), Some(c), Some(d)) =>
        var n := ((a * 16 + b) * 16 + c) * 16 + d;
        if n < 0x10000 then Some(n) else None
      case _ => None
  }

  /** What follows a backslash, in section 7 of RFC 8259. */
  function ShortEscaped(u: Unit): Option<Unit> {
    if u == 0x22 || u == 0x5C || u == 0x2F then Some(u)
    else if u == 0x62 then Some(0x08)
    else if u == 0x66 then Some(0x0C)
    else if u == 0x6E then Some(0x0A)
    else if u == 0x72 then Some(0x0D)
    else if u == 0x74 then Some(0x09)
    else None
  }

  function Prepend(u: Unit, rest: Option<Text>): Option<Text> {
    match rest case Some(t) => Some([u] + t) case None => None
  }

  /** The string between two quotation marks, as section 7 of RFC 8259 reads it. */
  function Unescape(t: Text): Option<Text>
    decreases |t|
  {
    if t == [] then Some([])
    else if t[0] < 0x20 || t[0] == 0x22 then None
    else if t[0] != 0x5C then Prepend(t[0], Unescape(t[1..]))
    else if |t| >= 2 && ShortEscaped(t[1]).Some? then Prepend(ShortEscaped(t[1]).value, Unescape(t[2..]))
    else if |t| >= 6 && t[1] == 0x75 && HexUnit(t[2..]).Some? then Prepend(HexUnit(t[2..]).value, Unescape(t[6..]))
    else None
  }

  lemma HexDigitValue(d: nat)
    requires d < 16
    ensures HexValue(HexDigit(d)) == Some(d)
    ensures 0x30 <= HexDigit(d) <= 0x39 || 0x61 <= HexDigit(d) <= 0x66
  {
  }

  lemma HexRoundTrip(u: Unit, rest: Text)
    ensures HexUnit(Hex4(u) + rest) == Some(u)
  {
    HexDigitValue(u / 16 / 16 / 16);
    HexDigitValue(u / 16 / 16 % 16);
    HexDigitValue(u / 16 % 16);
    HexDigitValue(u % 16);
    hide HexDigit, HexValue;
  }

  lemma UnitRoundTrip(u: Unit, rest: Text)
    ensures Unescape(EscapeUnit(u) + rest) == Prepend(u, Unescape(rest))
  {
    var t := EscapeUnit(u) + rest;
    assert t[|EscapeUnit(u)|..] == rest;
    if ShortEscape(u) == 0 && (u < 0x20 || Surrogate(u)) {
      assert t[2..] == Hex4(u) + rest;
      HexRoundTrip(u, rest);
      assert t[6..] == rest;
    }
  }

  lemma {:induction false} UnescapeEscape(s: Text)
    ensures Unescape(Escape(s)) == Some(s)
    decreases |s|
  {
    if s == [] {
    } else if StartsPair(s) {
      UnescapeEscape(s[2..]);
      PairRoundTrip(s[0], s[1], Escape(s[2..]));
      assert s[..2] == [s[0], s[1]] && s == [s[0]] + ([s[1]] + s[2..]);
    } else {
      UnescapeEscape(s[1..]);
      UnitRoundTrip(s[0], Escape(s[1..]));
      assert s == [s[0]] + s[1..];
    }
  }

  lemma PairRoundTrip(high: Unit, low: Unit, rest: Text)
    requires Pair(high, low)
    ensures Unescape([high, low] + rest) == Prepend(high, Prepend(low, Unescape(rest)))
  {
    var t := [high, low] + rest;
    assert t[1..] == [low] + rest && ([low] + rest)[1..] == rest;
  }

  /** A code unit is written as itself exactly if it is no control character, quotation mark, backslash
      or surrogate; seven have a letter of their own, and the others four lower-case digits. */
  lemma EscapesExactly(u: Unit)
    ensures var t := Escape([u]);
            var literal := u >= 0x20 && u != 0x22 && u != 0x5C && !(0xD800 <= u <= 0xDFFF);
            var letter := u in {0x08, 0x09, 0x0A, 0x0C, 0x0D, 0x22, 0x5C};
            && t != []
            && (t == [u] <==> literal)
            && (|t| == 2 <==> letter)
            && (!literal && !letter ==>
                  |t| == 6 && forall i :: 2 <= i < 6 ==> 0x30 <= t[i] <= 0x39 || 0x61 <= t[i] <= 0x66)
  {
    assert [u][1..] == [];
    assert Escape([u]) == EscapeUnit(u) + [];
    HexDigitValue(u / 16 / 16 / 16);
    HexDigitValue(u / 16 / 16 % 16);
    HexDigitValue(u / 16 % 16);
    HexDigitValue(u % 16);
    hide HexDigit;
  }

  /** The two halves of a surrogate pair are written as they are. */
  lemma PairsStay(high: Unit, low: Unit, rest: Text)
    requires 0xD800 <= high <= 0xDBFF && 0xDC00 <= low <= 0xDFFF
    ensures Escape([high, low] + rest) == [high, low] + Escape(rest)
  {
    var s := [high, low] + rest;
    assert s[..2] == [high, low] && s[2..] == rest;
  }

  // ---------------------------------------------------------------- the texts

  /** Parts with a comma between any two. */
  function CommaJoined(parts: seq<Text>): Text {
    if parts == [] then []
    else if |parts| == 1 then parts[0]
    else CommaJoined(parts[..|parts| - 1]) + [0x2C] + parts[|parts| - 1]
  }

  lemma {:induction false} JoinedFront(parts: seq<Text>)
    requires |parts| >= 2
    ensures CommaJoined(parts) == parts[0] + [0x2C] + CommaJoined(parts[1..])
    decreases |parts|
  {
    var before, last := parts[..|parts| - 1], parts[|parts| - 1];
    if |parts| > 2 {
      JoinedFront(before);
      assert parts[1..][..|parts| - 2] == before[1..];
      assert CommaJoined(parts[1..]) == CommaJoined(before[1..]) + [0x2C] + last;
    } else {
      assert before == [parts[0]] && parts[1..] == [last];
    }
  }

  lemma {:induction false} JoinIsJoined(parts: seq<Text>)
    ensures Join(parts) == CommaJoined(parts)
  {
    if |parts| >= 2 {
      JoinIsJoined(parts[1..]);
      JoinedFront(parts);
    }
  }

  /** Null, the truth values, numbers and strings. */
  lemma CanonicalAtoms(t: Text, b: bool)
    ensures Canonical(Null) == Some([0x6E, 0x75, 0x6C, 0x6C])
    ensures Canonical(Bool(b)) == Some(if b then [0x74, 0x72, 0x75, 0x65] else [0x66, 0x61, 0x6C, 0x73, 0x65])
    ensures Canonical(Str(t)) == Some([0x22] + Escape(t) + [0x22])
    ensures IsNumeral(t) ==> Canonical(Num(t)) == Some(t)
    ensures Canonical(Foreign) == None
  {
  }

  lemma {:induction false} ItemsAre(items: seq<Json>)
    ensures match CanonicalItems(items)
            case Some(texts) => |texts| == |items| && forall i :: 0 <= i < |items| ==> Canonical(items[i]) == Some(texts[i])
            case None => exists i :: 0 <= i < |items| && Canonical(items[i]) == None
  {
    hide Canonical;
    if items != [] {
      ItemsAre(items[1..]);
      if Canonical(items[0]).Some? && CanonicalItems(items[1..]).None? {
        var i :| 0 <= i < |items[1..]| && Canonical(items[1..][i]) == None;
        assert Canonical(items[i + 1]) == None;
      }
    }
  }

  /** An array is its items' texts in their order, and raises exactly if one of them does. */
  lemma CanonicalArray(items: seq<Json>)
    ensures match Canonical(Arr(items))
            case None => exists i :: 0 <= i < |items| && Canonical(items[i]) == None
            case Some(t) =>
              exists texts: seq<Text> ::
                && |texts| == |items| && (forall i :: 0 <= i < |items| ==> Canonical(items[i]) == Some(texts[i]))
                && t == [0x5B] + CommaJoined(texts) + [0x5D]
  {
    ItemsAre(items);
    if CanonicalItems(items).Some? { JoinIsJoined(CanonicalItems(items).value); }
  }

  lemma {:induction false} FieldsAre(fields: seq<Keyed<Json>>)
    ensures match CanonicalFields(fields)
            case Some(texts) =>
              |texts| == |fields|
              && forall i :: 0 <= i < |fields| ==> texts[i].key == fields[i].key && Canonical(fields[i].value) == Some(texts[i].value)
            case None => exists i :: 0 <= i < |fields| && Canonical(fields[i].value) == None
  {
    hide Canonical;
    if fields != [] {
      FieldsAre(fields[1..]);
      if Canonical(fields[0].value).Some? && CanonicalFields(fields[1..]).None? {
        var i :| 0 <= i < |fields[1..]| && Canonical(fields[1..][i].value) == None;
        assert Canonical(fields[i + 1].value) == None;
      }
    }
  }

  /** The text of a field. */
  function FieldPart(f: Keyed<Text>): Text {
    [0x22] + Escape(f.key) + [0x22, 0x3A] + f.value
  }

  function Parts(fields: seq<Keyed<Text>>): (r: seq<Text>)
    ensures |r| == |fields|
  {
    seq(|fields|, i requires 0 <= i < |fields| => FieldPart(fields[i]))
  }

  /** `texts` are the fields printed, in whatever order. */
  predicate Printed(fields: seq<Keyed<Json>>, texts: seq<Keyed<Text>>) {
    && |texts| == |fields|
    && (forall i :: 0 <= i < |fields| ==> PrintedIn(fields[i], texts))
    && (forall j :: 0 <= j < |texts| ==> PrintedFrom(fields, texts[j]))
  }

  predicate PrintedIn(f: Keyed<Json>, texts: seq<Keyed<Text>>) {
    exists j :: 0 <= j < |texts| && IsPrinted(f, texts[j])
  }

  predicate PrintedFrom(fields: seq<Keyed<Json>>, t: Keyed<Text>) {
    exists i :: 0 <= i < |fields| && IsPrinted(fields[i], t)
  }

  predicate IsPrinted(f: Keyed<Json>, t: Keyed<Text>) {
    t.key == f.key && Canonical(f.value) == Some(t.value)
  }

  /** An object is its fields' texts with each key before the next by its code units, and raises exactly
      if one of the values does. */
  lemma CanonicalObject(fields: seq<Keyed<Json>>)
    requires DistinctKeys(fields)
    ensures match Canonical(Obj(fields))
            case None => exists i :: 0 <= i < |fields| && Canonical(fields[i].value) == None
            case Some(t) =>
              exists texts: seq<Keyed<Text>> ::
                && Printed(fields, texts)
                && (forall i, j :: 0 <= i < j < |texts| ==> Before(texts[i].key, texts[j].key))
                && t == [0x7B] + CommaJoined(Parts(texts)) + [0x7D]
  {
    hide Before, DistinctKeys, Sort, Printed, Parts, FieldPart, CommaJoined;
    FieldsAre(fields);
    if CanonicalFields(fields).Some? {
      var sorted := Sort(CompareUnits, CanonicalFields(fields).value);
      SortedInOrder(fields, CanonicalFields(fields).value);
      EntriesAreParts(sorted);
      JoinIsJoined(Parts(sorted));
    }
  }

  lemma EntriesAreParts(fields: seq<Keyed<Text>>)
    ensures Entries(fields) == Parts(fields)
  {
    forall i | 0 <= i < |fields| ensures Entries(fields)[i] == Parts(fields)[i] {
      assert [0x22] + Escape(fields[i].key) + [0x22, 0x3A] == [0x22] + Escape(fields[i].key) + [0x22] + [0x3A];
    }
  }

  lemma SortedInOrder(fields: seq<Keyed<Json>>, texts: seq<Keyed<Text>>)
    requires DistinctKeys(fields) && |texts| == |fields|
    requires forall i :: 0 <= i < |fields| ==> IsPrinted(fields[i], texts[i])
    ensures var sorted := Sort(CompareUnits, texts);
            && Printed(fields, sorted)
            && (forall i, j :: 0 <= i < j < |sorted| ==> Before(sorted[i].key, sorted[j].key))
  {
    hide IsPrinted, CompareUnits, Before, Sort, Printed;
    var sorted := Sort(CompareUnits, texts);
    UnitsOrder();
    SortPermutes(CompareUnits, texts);
    SortSorts(CompareUnits, texts);
    hide Consistent, Separates;
    DistinctTexts(fields, texts);
    PermutedDistinct(texts, sorted);
    MembersAt(texts, sorted);
    MembersAt(sorted, texts);
    PrintedAnyOrder(fields, texts, sorted);
    forall i, j | 0 <= i < j < |sorted| ensures Before(sorted[i].key, sorted[j].key) {
      assert CompareUnits(sorted[i].key, sorted[j].key) <= 0;
      UnitsOrdered(sorted[i].key, sorted[j].key);
    }
  }

  lemma UnitsOrdered(a: Text, b: Text)
    requires a != b && CompareUnits(a, b) <= 0
    ensures Before(a, b)
  {
    hide CompareUnits, Before;
    UnitsAntisymmetric(a, b);
    UnitsBefore(a, b);
  }

  lemma MembersAt<T>(xs: seq<T>, ys: seq<T>)
    requires multiset(xs) == multiset(ys)
    ensures forall i :: 0 <= i < |xs| ==> xs[i] in ys
  {
    forall i | 0 <= i < |xs| ensures xs[i] in ys {
      InMultiset(xs, ys, xs[i]);
    }
  }

  lemma DistinctTexts(fields: seq<Keyed<Json>>, texts: seq<Keyed<Text>>)
    requires DistinctKeys(fields) && |texts| == |fields|
    requires forall i :: 0 <= i < |fields| ==> IsPrinted(fields[i], texts[i])
    ensures DistinctKeys(texts)
  {
    hide Canonical;
    forall i, j | 0 <= i < j < |texts| ensures texts[i].key != texts[j].key {
      assert IsPrinted(fields[i], texts[i]) && IsPrinted(fields[j], texts[j]);
    }
  }

  lemma PrintedAnyOrder(fields: seq<Keyed<Json>>, texts: seq<Keyed<Text>>, sorted: seq<Keyed<Text>>)
    requires |texts| == |fields| == |sorted| && (forall i :: 0 <= i < |fields| ==> IsPrinted(fields[i], texts[i]))
    requires forall i :: 0 <= i < |texts| ==> texts[i] in sorted
    requires forall j :: 0 <= j < |sorted| ==> sorted[j] in texts
    ensures Printed(fields, sorted)
  {
    hide IsPrinted;
    forall i | 0 <= i < |fields| ensures PrintedIn(fields[i], sorted) {
      var j :| 0 <= j < |sorted| && sorted[j] == texts[i];
      assert IsPrinted(fields[i], sorted[j]);
    }
    forall j | 0 <= j < |sorted| ensures PrintedFrom(fields, sorted[j]) {
      var i :| 0 <= i < |texts| && texts[i] == sorted[j];
      assert IsPrinted(fields[i], sorted[j]);
    }
  }

  // ---------------------------------------------------------------- sortJson

  /** The decimal text of a number. */
  function Decimal(n: nat): Text {
    if n < 10 then [0x30 + n] else Decimal(n / 10) + [0x30 + n % 10]
  }

  lemma {:induction false} DecimalCanonical(n: nat)
    ensures CanonicalDecimal(Decimal(n)) && DecimalValue(Decimal(n)) == n
    ensures n > 0 ==> Decimal(n)[0] != 0x30
  {
    var t := Decimal(n);
    if n >= 10 {
      DecimalCanonical(n / 10);
      assert t[..|t| - 1] == Decimal(n / 10);
    } else {
      assert t[..0] == [];
    }
  }

  /** An array index is the decimal text of a number below 2^32 - 1. */
  lemma ArrayIndexIff(key: Text, n: nat)
    ensures ArrayIndex(key) == Some(n) <==> n < 4294967295 && key == Decimal(n)
  {
    DecimalCanonical(n);
    if ArrayIndex(key) == Some(n) { DecimalInjective(key, Decimal(n)); }
  }

  predicate IsIndex(key: Text) {
    exists n: nat :: n < 4294967295 && key == Decimal(n)
  }

  /** The order of keys in the object that `sortJson` builds: array indices by their number, then the
      others by the comparator. */
  ghost predicate Enumerated(cmp: Compare, a: Text, b: Text) {
    if IsIndex(a) && IsIndex(b) then exists m: nat, n: nat :: m <= n && a == Decimal(m) && b == Decimal(n)
    else if IsIndex(a) || IsIndex(b) then IsIndex(a)
    else cmp(a, b) <= 0
  }

  lemma EnumeratedIff(cmp: Compare, a: Text, b: Text)
    ensures Both(Enumeration, cmp)(a, b) <= 0 ==> Enumerated(cmp, a, b) || (Enumeration(a, b) == 0 && IsIndex(a))
  {
    IndexKnown(a);
    IndexKnown(b);
    if ArrayIndex(a).Some? { ArrayIndexIff(a, ArrayIndex(a).value); }
    if ArrayIndex(b).Some? { ArrayIndexIff(b, ArrayIndex(b).value); }
  }

  lemma IndexKnown(a: Text)
    ensures IsIndex(a) <==> ArrayIndex(a).Some?
  {
    if IsIndex(a) {
      var n: nat :| n < 4294967295 && a == Decimal(n);
      ArrayIndexIff(a, n);
    }
    if ArrayIndex(a).Some? { ArrayIndexIff(a, ArrayIndex(a).value); }
  }

  /** Every object of `sortJson`'s result has the fields it had, with their values sorted in turn, in
      that order. */
  lemma SortJsonOrders(cmp: Compare, fields: seq<Keyed<Json>>)
    requires Consistent(cmp) && DistinctKeys(fields)
    ensures var out := SortJson(cmp, Obj(fields));
            && out.Obj? && |out.fields| == |fields|
            && (forall i :: 0 <= i < |fields| ==> Keyed(fields[i].key, SortJson(cmp, fields[i].value)) in out.fields)
            && (forall i, j :: 0 <= i < j < |out.fields| ==> Enumerated(cmp, out.fields[i].key, out.fields[j].key))
  {
    EnumerationOrder();
    SortedObj(Enumeration, cmp, fields);
    var values := SortedValues(Enumeration, cmp, fields);
    ArrangeFacts(Enumeration, cmp, values);
    var out := Arrange(Enumeration, cmp, values);
    SameMembers(values, out);
    hide Consistent, Arrange, ArrayIndex, Enumerated, Enumeration;
    forall i | 0 <= i < |fields| ensures Keyed(fields[i].key, SortJson(cmp, fields[i].value)) in out {
      assert values[i] in out;
    }
    PermutedDistinct(values, out);
    forall i, j | 0 <= i < j < |out| ensures Enumerated(cmp, out[i].key, out[j].key) {
      assert Both(Enumeration, cmp)(out[i].key, out[j].key) <= 0;
      EnumeratedIff(cmp, out[i].key, out[j].key);
      TiedIndices(out[i].key, out[j].key);
    }
  }

  lemma TiedIndices(a: Text, b: Text)
    requires a != b
    ensures !(Enumeration(a, b) == 0 && IsIndex(a))
  {
    EnumerationOrder();
    IndexKnown(a);
  }
}
