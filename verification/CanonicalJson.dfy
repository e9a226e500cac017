/** The two canonical printers: `canonicalJson`, which sorts keys by code units, and the digest's
    `sortJson`, which sorts them by a locale's comparator. Both say that two values are equal exactly
    if they are the same JSON up to the order of keys, the second as far as its comparator lets it. */
module CanonicalJson {
  import opened Common
  import opened JsonText
  import opened KeyOrder

  /** An object never has two fields with one key. */
  ghost predicate Valid(v: Json) {
    match v
    case Arr(items) => forall i :: 0 <= i < |items| ==> Valid(items[i])
    case Obj(fields) => DistinctKeys(fields) && forall i :: 0 <= i < |fields| ==> Valid(fields[i].value)
    case _ => true
  }

  /** The same value up to the order of keys. */
  ghost predicate Same(a: Json, b: Json) {
    match a
    case Arr(items) => b.Arr? && |items| == |b.items| && forall i :: 0 <= i < |items| ==> Same(items[i], b.items[i])
    case Obj(fields) =>
      && b.Obj? && |fields| == |b.fields|
      && (forall i :: 0 <= i < |fields| ==>
            exists j :: 0 <= j < |b.fields| && b.fields[j].key == fields[i].key && Same(fields[i].value, b.fields[j].value))
    case _ => a == b
  }

  // ---------------------------------------------------------------- sorting at every level

  /** Every object's fields sorted by `inner`, then enumerated by `outer`. Sorting looks at keys only,
      so it makes no difference that values are sorted first. */
  function SortedBy(outer: Compare, inner: Compare, v: Json): Json {
    match v
    case Arr(items) => Arr(seq(|items|, i requires 0 <= i < |items| => SortedBy(outer, inner, items[i])))
    case Obj(fields) =>
      Obj(Arrange(outer, inner,
        seq(|fields|, i requires 0 <= i < |fields| => Keyed(fields[i].key, SortedBy(outer, inner, fields[i].value)))))
    case _ => v
  }

  function SortedItems(outer: Compare, inner: Compare, items: seq<Json>): (r: seq<Json>)
    ensures |r| == |items|
  {
    seq(|items|, i requires 0 <= i < |items| => SortedBy(outer, inner, items[i]))
  }

  function SortedValues(outer: Compare, inner: Compare, fields: seq<Keyed<Json>>): (r: seq<Keyed<Json>>)
    ensures |r| == |fields|
  {
    seq(|fields|, i requires 0 <= i < |fields| => Keyed(fields[i].key, SortedBy(outer, inner, fields[i].value)))
  }

  lemma SortedArr(outer: Compare, inner: Compare, items: seq<Json>)
    ensures SortedBy(outer, inner, Arr(items)) == Arr(SortedItems(outer, inner, items))
  {
  }

  lemma SortedObj(outer: Compare, inner: Compare, fields: seq<Keyed<Json>>)
    ensures SortedBy(outer, inner, Obj(fields)) == Obj(Arrange(outer, inner, SortedValues(outer, inner, fields)))
  {
    assert seq(|fields|, i requires 0 <= i < |fields| => Keyed(fields[i].key, SortedBy(outer, inner, fields[i].value)))
           == SortedValues(outer, inner, fields);
  }

  /** A permutation has the same members. */
  lemma SameMembers<T>(xs: seq<T>, ys: seq<T>)
    requires multiset(xs) == multiset(ys)
    ensures |xs| == |ys|
    ensures forall x :: x in xs <==> x in ys
  {
    assert |multiset(xs)| == |multiset(ys)|;
    forall x ensures x in xs <==> x in ys {
      assert x in xs <==> x in multiset(xs);
    }
  }

  lemma {:induction false} PermutedDistinct<T>(xs: seq<Keyed<T>>, ys: seq<Keyed<T>>)
    requires multiset(xs) == multiset(ys) && DistinctKeys(xs)
    ensures DistinctKeys(ys)
  {
    SameMembers(xs, ys);
    forall i, j | 0 <= i < j < |ys| ensures ys[i].key != ys[j].key {
      if ys[i].key == ys[j].key {
        assert ys[i] in xs && ys[j] in xs;
        var k :| 0 <= k < |xs| && xs[k] == ys[i];
        var l :| 0 <= l < |xs| && xs[l] == ys[j];
        assert k == l;
        TwiceIn(ys, i, j);
        OnceIn(xs, k);
      }
    }
  }

  lemma TwiceIn<T>(xs: seq<T>, i: nat, j: nat)
    requires i < j < |xs| && xs[i] == xs[j]
    ensures multiset(xs)[xs[i]] >= 2
  {
    assert xs == xs[..j] + [xs[j]] + xs[j + 1..];
    assert xs[..j][i] == xs[i];
    assert xs[i] in multiset(xs[..j]);
  }

  lemma {:induction false} OnceIn<T>(xs: seq<Keyed<T>>, k: nat)
    requires DistinctKeys(xs) && k < |xs|
    ensures multiset(xs)[xs[k]] == 1
  {
    assert xs == xs[..k] + [xs[k]] + xs[k + 1..];
    assert xs[k] !in xs[..k] && xs[k] !in xs[k + 1..];
    assert multiset(xs)[xs[k]] == multiset(xs[..k])[xs[k]] + 1 + multiset(xs[k + 1..])[xs[k]];
    assert xs[k] !in multiset(xs[..k]) && xs[k] !in multiset(xs[k + 1..]);
  }

  lemma {:induction false} SortedIsJson(outer: Compare, inner: Compare, v: Json)
    requires Consistent(outer) && Consistent(inner)
    ensures IsJson(v) <==> IsJson(SortedBy(outer, inner, v))
    ensures Valid(v) ==> Valid(SortedBy(outer, inner, v))
  {
    hide Consistent;
    match v
    case Arr(items) =>
      forall i | 0 <= i < |items|
        ensures IsJson(items[i]) <==> IsJson(SortedItems(outer, inner, items)[i])
        ensures Valid(items[i]) ==> Valid(SortedItems(outer, inner, items)[i])
      {
        SortedIsJson(outer, inner, items[i]);
      }
      SortedArr(outer, inner, items);
    case Obj(fields) =>
      forall i | 0 <= i < |fields|
        ensures IsJson(fields[i].value) <==> IsJson(SortedValues(outer, inner, fields)[i].value)
        ensures Valid(fields[i].value) ==> Valid(SortedValues(outer, inner, fields)[i].value)
      {
        SortedIsJson(outer, inner, fields[i].value);
      }
      SortedObj(outer, inner, fields);
      ArrangedIsJson(outer, inner, SortedValues(outer, inner, fields));
    case _ =>
  }

  lemma PermutedIsJson(xs: seq<Keyed<Json>>, ys: seq<Keyed<Json>>)
    requires multiset(xs) == multiset(ys)
    ensures IsJson(Obj(xs)) ==> IsJson(Obj(ys))
    ensures Valid(Obj(xs)) ==> Valid(Obj(ys))
  {
    SameMembers(xs, ys);
    forall i | 0 <= i < |ys| ensures exists j :: 0 <= j < |xs| && xs[j] == ys[i] {
      assert ys[i] in xs;
    }
    if DistinctKeys(xs) { PermutedDistinct(xs, ys); }
    hide DistinctKeys;
  }

  lemma ArrangedIsJson(outer: Compare, inner: Compare, fields: seq<Keyed<Json>>)
    requires Consistent(outer) && Consistent(inner)
    ensures IsJson(Obj(fields)) <==> IsJson(Obj(Arrange(outer, inner, fields)))
    ensures Valid(Obj(fields)) ==> Valid(Obj(Arrange(outer, inner, fields)))
  {
    hide *;
    ArrangeFacts(outer, inner, fields);
    PermutedIsJson(fields, Arrange(outer, inner, fields));
    PermutedIsJson(Arrange(outer, inner, fields), fields);
  }

  // ---------------------------------------------------------------- sorting decides sameness

  /** With distinct keys and as many fields, being contained is being a permutation. */
  lemma {:induction false} ContainedPermutes<T>(xs: seq<Keyed<T>>, ys: seq<Keyed<T>>)
    requires DistinctKeys(xs) && |xs| == |ys| && forall x :: x in xs ==> x in ys
    ensures multiset(xs) == multiset(ys)
  {
    if xs != [] {
      assert xs[0] in ys;
      var j :| 0 <= j < |ys| && ys[j] == xs[0];
      var rest := ys[..j] + ys[j + 1..];
      forall x | x in xs[1..] ensures x in rest {
        var i :| 0 <= i < |xs[1..]| && xs[1..][i] == x;
        assert xs[i + 1] in ys && xs[i + 1].key != xs[0].key;
        var k :| 0 <= k < |ys| && ys[k] == x;
        assert rest[if k < j then k else k - 1] == x;
      }
      ContainedPermutes(xs[1..], rest);
      assert xs == [xs[0]] + xs[1..] && ys == ys[..j] + [ys[j]] + ys[j + 1..];
    }
  }

  lemma {:induction false} SameSortsAlike(outer: Compare, inner: Compare, a: Json, b: Json)
    requires Consistent(outer) && Consistent(inner) && Separates(Both(outer, inner))
    requires Valid(a) && Same(a, b)
    ensures SortedBy(outer, inner, a) == SortedBy(outer, inner, b)
  {
    hide Consistent, Separates;
    match a
    case Arr(items) =>
      forall i | 0 <= i < |items| ensures SortedItems(outer, inner, items)[i] == SortedItems(outer, inner, b.items)[i] {
        SameSortsAlike(outer, inner, items[i], b.items[i]);
      }
      assert SortedItems(outer, inner, items) == SortedItems(outer, inner, b.items);
    case Obj(fields) =>
      var xs, ys := SortedValues(outer, inner, fields), SortedValues(outer, inner, b.fields);
      forall x | x in xs ensures x in ys {
        var i :| 0 <= i < |fields| && xs[i] == x;
        var j :| 0 <= j < |b.fields| && b.fields[j].key == fields[i].key && Same(fields[i].value, b.fields[j].value);
        SameSortsAlike(outer, inner, fields[i].value, b.fields[j].value);
        assert ys[j] == x;
      }
      ContainedPermutes(xs, ys);
      SortedObj(outer, inner, fields);
      SortedObj(outer, inner, b.fields);
      ArrangedAlike(outer, inner, xs, ys);
    case _ =>
  }

  lemma ArrangedAlike<T>(outer: Compare, inner: Compare, xs: seq<Keyed<T>>, ys: seq<Keyed<T>>)
    requires Consistent(outer) && Consistent(inner) && Separates(Both(outer, inner))
    requires multiset(xs) == multiset(ys) && DistinctKeys(xs)
    ensures Arrange(outer, inner, xs) == Arrange(outer, inner, ys)
  {
    ArrangeFacts(outer, inner, xs);
    ArrangeFacts(outer, inner, ys);
    BothConsistent(outer, inner);
    hide Consistent, Separates, Sorted, Arrange;
    PermutedDistinct(xs, Arrange(outer, inner, xs));
    SortedUnique(Both(outer, inner), Arrange(outer, inner, xs), Arrange(outer, inner, ys));
  }

  lemma {:induction false} SortedAlikeSame(outer: Compare, inner: Compare, a: Json, b: Json)
    requires Consistent(outer) && Consistent(inner)
    requires SortedBy(outer, inner, a) == SortedBy(outer, inner, b)
    ensures Same(a, b)
  {
    hide Consistent, Sorted, Arrange;
    match a
    case Arr(items) =>
      SortedArr(outer, inner, items);
      SortedArr(outer, inner, b.items);
      forall i | 0 <= i < |items| ensures Same(items[i], b.items[i]) {
        assert SortedItems(outer, inner, items)[i] == SortedItems(outer, inner, b.items)[i];
        SortedAlikeSame(outer, inner, items[i], b.items[i]);
      }
    case Obj(fields) =>
      SortedObj(outer, inner, fields);
      SortedObj(outer, inner, b.fields);
      var xs, ys := SortedValues(outer, inner, fields), SortedValues(outer, inner, b.fields);
      ArrangeFacts(outer, inner, xs);
      ArrangeFacts(outer, inner, ys);
      SameMembers(xs, ys);
      forall i | 0 <= i < |fields|
        ensures exists j :: 0 <= j < |b.fields| && b.fields[j].key == fields[i].key && Same(fields[i].value, b.fields[j].value)
      {
        assert xs[i] in ys;
        var j :| 0 <= j < |ys| && ys[j] == xs[i];
        SortedAlikeSame(outer, inner, fields[i].value, b.fields[j].value);
      }
    case _ =>
  }

  // ---------------------------------------------------------------- canonicalJson

  function Join(texts: seq<Text>): Text {
    if texts == [] then [] else texts[0] + if |texts| == 1 then [] else [COMMA] + Join(texts[1..])
  }

  function Entry(f: Keyed<Text>): Text {
    Quoted(f.key) + [COLON] + f.value
  }

  function Entries(fields: seq<Keyed<Text>>): (r: seq<Text>)
    ensures |r| == |fields|
  {
    seq(|fields|, i requires 0 <= i < |fields| => Entry(fields[i]))
  }

  /** `canonicalJson`; nothing stands for the type error it raises. Entries are ordered by key, which is
      all that sorting the keys first and then printing each value amounts to. */
  function Canonical(v: Json): Option<Text> {
    match v
    case Null => Some(NULL)
    case Bool(b) => Some(if b then TRUE else FALSE)
    case Num(t) => if IsNumeral(t) then Some(t) else None
    case Str(s) => Some(Quoted(s))
    case Foreign => None
    case Arr(items) =>
      var texts := CanonicalItems(items);
      if texts.Some? then Some([OPEN_BRACKET] + Join(texts.value) + [CLOSE_BRACKET]) else None
    case Obj(fields) =>
      var texts := CanonicalFields(fields);
      if texts.Some? then Some([OPEN_BRACE] + Join(Entries(Sort(CompareUnits, texts.value))) + [CLOSE_BRACE]) else None
  }

  function CanonicalItems(items: seq<Json>): Option<seq<Text>> {
    if items == [] then Some([])
    else
      var first, rest := Canonical(items[0]), CanonicalItems(items[1..]);
      if first.Some? && rest.Some? then Some([first.value] + rest.value) else None
  }

  function CanonicalFields(fields: seq<Keyed<Json>>): Option<seq<Keyed<Text>>> {
    if fields == [] then Some([])
    else
      var first, rest := Canonical(fields[0].value), CanonicalFields(fields[1..]);
      if first.Some? && rest.Some? then Some([Keyed(fields[0].key, first.value)] + rest.value) else None
  }

  /** Sorting by code units alone. */
  function ByUnits(v: Json): Json {
    SortedBy(AllEqual(), CompareUnits, v)
  }

  lemma UnitsSeparate()
    ensures Consistent(AllEqual()) && Consistent(CompareUnits) && Separates(Both(AllEqual(), CompareUnits))
  {
    UnitsOrder();
  }

  function TextOf(v: Json): Text {
    if IsJson(v) then Print(v) else []
  }

  function TextsOf(fields: seq<Keyed<Json>>): (r: seq<Keyed<Text>>)
    ensures |r| == |fields|
  {
    seq(|fields|, i requires 0 <= i < |fields| => Keyed(fields[i].key, TextOf(fields[i].value)))
  }

  lemma {:induction false} InsertCommutes(cmp: Compare, x: Keyed<Json>, xs: seq<Keyed<Json>>)
    ensures TextsOf(Insert(cmp, x, xs)) == Insert(cmp, Keyed(x.key, TextOf(x.value)), TextsOf(xs))
  {
    hide TextOf;
    if xs != [] && cmp(x.key, xs[0].key) > 0 {
      InsertCommutes(cmp, x, xs[1..]);
      assert TextsOf(xs)[1..] == TextsOf(xs[1..]);
      assert TextsOf([xs[0]] + Insert(cmp, x, xs[1..])) == [TextsOf(xs)[0]] + TextsOf(Insert(cmp, x, xs[1..]));
    }
  }

  /** Printing the values does not disturb the order of the keys. */
  lemma {:induction false} SortCommutes(cmp: Compare, xs: seq<Keyed<Json>>)
    ensures TextsOf(Sort(cmp, xs)) == Sort(cmp, TextsOf(xs))
  {
    hide TextOf;
    if xs != [] {
      SortCommutes(cmp, xs[1..]);
      assert TextsOf(xs)[1..] == TextsOf(xs[1..]);
      InsertCommutes(cmp, xs[0], Sort(cmp, xs[1..]));
    }
  }

  lemma {:induction false} EqualKeysStay<T>(xs: seq<Keyed<T>>)
    ensures Sort(AllEqual(), xs) == xs
  {
    if xs != [] {
      EqualKeysStay(xs[1..]);
      assert xs == [xs[0]] + xs[1..];
    }
  }

  lemma {:induction false} JoinItems(items: seq<Json>, texts: seq<Text>)
    requires |texts| == |items| && forall i :: 0 <= i < |items| ==> IsJson(items[i]) && texts[i] == Print(items[i])
    ensures Join(texts) == PrintItems(items)
  {
    hide Print, IsJson;
    if items != [] { JoinItems(items[1..], texts[1..]); }
  }

  lemma {:induction false} JoinFields(fields: seq<Keyed<Json>>)
    requires forall i :: 0 <= i < |fields| ==> IsJson(fields[i].value)
    ensures Join(Entries(TextsOf(fields))) == PrintFields(fields)
  {
    hide Print, IsJson, Quoted;
    if fields != [] {
      JoinFields(fields[1..]);
      assert Entries(TextsOf(fields))[1..] == Entries(TextsOf(fields[1..]));
      assert Entries(TextsOf(fields))[0] == FieldText(fields[0]);
    }
  }

  /** The printer prints the sorted value, and raises exactly on what is no JSON. */
  lemma {:induction false} CanonicalPrintsSorted(v: Json)
    ensures Canonical(v).Some? <==> IsJson(v)
    ensures IsJson(v) ==> IsJson(ByUnits(v)) && Canonical(v) == Some(Print(ByUnits(v)))
    decreases v, 1
  {
    UnitsSeparate();
    SortedIsJson(AllEqual(), CompareUnits, v);
    hide Consistent, Separates, Sort, CompareUnits;
    match v
    case Arr(items) =>
      ItemsPrintSorted(items);
      SortedArr(AllEqual(), CompareUnits, items);
      if IsJson(v) {
        JoinItems(SortedItems(AllEqual(), CompareUnits, items), CanonicalItems(items).value);
      }
    case Obj(fields) =>
      FieldsPrintSorted(fields);
      SortedObj(AllEqual(), CompareUnits, fields);
      if IsJson(v) {
        var sorted := SortedValues(AllEqual(), CompareUnits, fields);
        EqualKeysStay(Sort(CompareUnits, sorted));
        SortCommutes(CompareUnits, sorted);
        JoinFields(Sort(CompareUnits, sorted));
      }
    case _ =>
  }

  lemma {:induction false} ItemsPrintSorted(items: seq<Json>)
    ensures CanonicalItems(items).Some? <==> forall i :: 0 <= i < |items| ==> IsJson(items[i])
    ensures CanonicalItems(items).Some? ==>
              var texts, sorted := CanonicalItems(items).value, SortedItems(AllEqual(), CompareUnits, items);
              |texts| == |items| && forall i :: 0 <= i < |items| ==> IsJson(sorted[i]) && texts[i] == Print(sorted[i])
    decreases items, 0
  {
    hide Print, IsJson, SortedBy, CompareUnits;
    if items != [] {
      CanonicalPrintsSorted(items[0]);
      ItemsPrintSorted(items[1..]);
      var sorted := SortedItems(AllEqual(), CompareUnits, items);
      assert sorted[1..] == SortedItems(AllEqual(), CompareUnits, items[1..]);
      assert items == [items[0]] + items[1..];
      assert sorted == [sorted[0]] + sorted[1..];
    }
  }

  lemma {:induction false} FieldsPrintSorted(fields: seq<Keyed<Json>>)
    ensures CanonicalFields(fields).Some? <==> forall i :: 0 <= i < |fields| ==> IsJson(fields[i].value)
    ensures CanonicalFields(fields).Some? ==>
              CanonicalFields(fields).value == TextsOf(SortedValues(AllEqual(), CompareUnits, fields))
    decreases fields, 0
  {
    hide Print, IsJson, SortedBy, CompareUnits;
    if fields != [] {
      CanonicalPrintsSorted(fields[0].value);
      FieldsPrintSorted(fields[1..]);
      var sorted := SortedValues(AllEqual(), CompareUnits, fields);
      assert sorted[1..] == SortedValues(AllEqual(), CompareUnits, fields[1..]);
      assert fields == [fields[0]] + fields[1..];
      assert TextsOf(sorted) == [TextsOf(sorted)[0]] + TextsOf(sorted[1..]);
    }
  }

  /** Two values have one canonical text exactly if they are the same JSON up to the order of keys. */
  lemma CanonicalDecidesSameness(a: Json, b: Json)
    requires IsJson(a) && IsJson(b) && Valid(a)
    ensures Canonical(a) == Canonical(b) <==> Same(a, b)
  {
    UnitsSeparate();
    hide Consistent, Separates, Valid, Same, Canonical, IsJson, Print;
    CanonicalPrintsSorted(a);
    CanonicalPrintsSorted(b);
    if Canonical(a) == Canonical(b) {
      PrintInjective(ByUnits(a), ByUnits(b));
      SortedAlikeSame(AllEqual(), CompareUnits, a, b);
    }
    if Same(a, b) { SameSortsAlike(AllEqual(), CompareUnits, a, b); }
  }

  // ---------------------------------------------------------------- sortJson

  /** `sortJson` with the comparator `cmp` of the locale; building the object enumerates its array
      indices first. */
  function SortJson(cmp: Compare, v: Json): Json {
    SortedBy(Enumeration, cmp, v)
  }

  /** The comparator tells keys apart that enumeration alone does not order. */
  ghost predicate Distinguishes(cmp: Compare) {
    forall a, b :: a != b && ArrayIndex(a).None? && ArrayIndex(b).None? ==> cmp(a, b) != 0
  }

  ghost predicate OrderInsensitive(cmp: Compare) {
    forall a, b :: Valid(a) && Same(a, b) ==> SortJson(cmp, a) == SortJson(cmp, b)
  }

  lemma DistinguishedSeparates(cmp: Compare)
    requires Consistent(cmp) && Distinguishes(cmp)
    ensures Consistent(Enumeration) && Separates(Both(Enumeration, cmp))
  {
    EnumerationOrder();
    hide ArrayIndex, Consistent;
  }

  function Unordered(a: Text, b: Text): Json {
    Obj([Keyed(a, Null), Keyed(b, Null)])
  }

  lemma TiesKeepOrder(cmp: Compare, a: Text, b: Text)
    requires cmp(a, b) == 0 && ArrayIndex(a).None? && ArrayIndex(b).None?
    ensures SortJson(cmp, Unordered(a, b)) == Unordered(a, b)
  {
    var x, y := Keyed(a, Null), Keyed(b, Null);
    hide ArrayIndex;
    SortedObj(Enumeration, cmp, [x, y]);
    assert SortedValues(Enumeration, cmp, [x, y]) == [x, y];
    PairStays(cmp, x, y);
    PairStays(Enumeration, x, y);
  }

  lemma PairStays(cmp: Compare, x: Keyed<Json>, y: Keyed<Json>)
    requires cmp(x.key, y.key) <= 0
    ensures Sort(cmp, [x, y]) == [x, y]
  {
    assert [x, y][1..] == [y] && [y][1..] == [];
    assert Sort(cmp, [y]) == [y];
  }

  /** Reordering keys never shows exactly if the comparator tells distinct keys apart. */
  lemma OrderInsensitiveIff(cmp: Compare)
    requires Consistent(cmp)
    ensures OrderInsensitive(cmp) <==> Distinguishes(cmp)
  {
    if Distinguishes(cmp) {
      DistinguishedSeparates(cmp);
      hide Valid, Same, Consistent, Separates;
      forall a, b | Valid(a) && Same(a, b) ensures SortJson(cmp, a) == SortJson(cmp, b) {
        SameSortsAlike(Enumeration, cmp, a, b);
      }
    } else {
      var a, b :| a != b && ArrayIndex(a).None? && ArrayIndex(b).None? && cmp(a, b) == 0;
      assert cmp(b, a) == 0;
      hide ArrayIndex, SortJson, Consistent;
      TiesKeepOrder(cmp, a, b);
      TiesKeepOrder(cmp, b, a);
      TwoKeysSame(a, b);
      assert Unordered(a, b) != Unordered(b, a);
    }
  }

  lemma TwoKeysSame(a: Text, b: Text)
    requires a != b
    ensures Valid(Unordered(a, b)) && Same(Unordered(a, b), Unordered(b, a))
  {
    var f, g := Unordered(a, b).fields, Unordered(b, a).fields;
    forall i | 0 <= i < |f| ensures exists j :: 0 <= j < |g| && g[j].key == f[i].key && Same(f[i].value, g[j].value) {
      assert g[1 - i].key == f[i].key && Same(f[i].value, g[1 - i].value);
    }
  }

  lemma {:induction false} SortedTwice(outer: Compare, inner: Compare, v: Json)
    requires Consistent(outer) && Consistent(inner)
    ensures SortedBy(outer, inner, SortedBy(outer, inner, v)) == SortedBy(outer, inner, v)
  {
    hide Consistent;
    match v
    case Arr(items) =>
      var once := SortedItems(outer, inner, items);
      SortedArr(outer, inner, items);
      SortedArr(outer, inner, once);
      forall i | 0 <= i < |items| ensures SortedItems(outer, inner, once)[i] == once[i] {
        SortedTwice(outer, inner, items[i]);
      }
      assert SortedItems(outer, inner, once) == once;
    case Obj(fields) =>
      var values := SortedValues(outer, inner, fields);
      var once := Arrange(outer, inner, values);
      SortedObj(outer, inner, fields);
      SortedObj(outer, inner, once);
      ArrangeFacts(outer, inner, values);
      SameMembers(values, once);
      forall i | 0 <= i < |once| ensures SortedValues(outer, inner, once)[i] == once[i] {
        assert once[i] in values;
        var j :| 0 <= j < |values| && values[j] == once[i];
        SortedTwice(outer, inner, fields[j].value);
      }
      assert SortedValues(outer, inner, once) == once;
      ArrangeIdempotent(outer, inner, values);
    case _ =>
  }

  /** Sorting twice is sorting once, for any consistent comparator. */
  lemma SortJsonIdempotent(cmp: Compare, v: Json)
    requires Consistent(cmp)
    ensures SortJson(cmp, SortJson(cmp, v)) == SortJson(cmp, v)
  {
    EnumerationOrder();
    SortedTwice(Enumeration, cmp, v);
  }

  /** The text that is digested decides sameness as far as the comparator does: never more than one
      value a text, and one text a value exactly if the comparator tells keys apart. */
  lemma DigestDecidesSameness(cmp: Compare, a: Json, b: Json)
    requires Consistent(cmp) && IsJson(a) && IsJson(b) && Valid(a)
    ensures IsJson(SortJson(cmp, a)) && IsJson(SortJson(cmp, b))
    ensures Print(SortJson(cmp, a)) == Print(SortJson(cmp, b)) ==> Same(a, b)
    ensures Distinguishes(cmp) ==> (Print(SortJson(cmp, a)) == Print(SortJson(cmp, b)) <==> Same(a, b))
  {
    EnumerationOrder();
    SortedIsJson(Enumeration, cmp, a);
    SortedIsJson(Enumeration, cmp, b);
    OrderInsensitiveIff(cmp);
    hide Valid, Same, Print, IsJson, Distinguishes, Consistent, SortedBy;
    if Print(SortJson(cmp, a)) == Print(SortJson(cmp, b)) {
      PrintInjective(SortJson(cmp, a), SortJson(cmp, b));
      SortedAlikeSame(Enumeration, cmp, a, b);
    }
  }
}
