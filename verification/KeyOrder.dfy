/** Sorting the fields of an object by key: JavaScript's stable sort, for any comparator. */
module KeyOrder {
  import opened Common
  import opened JsonText

  type Compare = (Text, Text) -> int

  /** A comparator that orders keys, possibly taking different keys for equal. */
  ghost predicate Consistent(cmp: Compare) {
    && (forall a, b :: cmp(a, b) < 0 <==> cmp(b, a) > 0)
    && (forall a, b, c :: cmp(a, b) <= 0 && cmp(b, c) <= 0 ==> cmp(a, c) <= 0)
  }

  /** Equal only to itself. */
  ghost predicate Separates(cmp: Compare) {
    forall a, b :: cmp(a, b) == 0 ==> a == b
  }

  function Insert<T>(cmp: Compare, x: Keyed<T>, xs: seq<Keyed<T>>): seq<Keyed<T>> {
    if xs == [] then [x]
    else if cmp(x.key, xs[0].key) <= 0 then [x] + xs
    else [xs[0]] + Insert(cmp, x, xs[1..])
  }

  /** `sort`: equal keys keep their order. */
  function Sort<T>(cmp: Compare, xs: seq<Keyed<T>>): seq<Keyed<T>> {
    if xs == [] then [] else Insert(cmp, xs[0], Sort(cmp, xs[1..]))
  }

  ghost predicate Sorted<T>(cmp: Compare, xs: seq<Keyed<T>>) {
    forall i, j :: 0 <= i < j < |xs| ==> cmp(xs[i].key, xs[j].key) <= 0
  }

  ghost predicate DistinctKeys<T>(xs: seq<Keyed<T>>) {
    forall i, j :: 0 <= i < j < |xs| ==> xs[i].key != xs[j].key
  }

  lemma {:induction false} InsertPermutes<T>(cmp: Compare, x: Keyed<T>, xs: seq<Keyed<T>>)
    ensures multiset(Insert(cmp, x, xs)) == multiset([x] + xs)
  {
    if xs != [] && cmp(x.key, xs[0].key) > 0 {
      InsertPermutes(cmp, x, xs[1..]);
      assert xs == [xs[0]] + xs[1..];
    }
  }

  lemma {:induction false} SortPermutes<T>(cmp: Compare, xs: seq<Keyed<T>>)
    ensures multiset(Sort(cmp, xs)) == multiset(xs) && |Sort(cmp, xs)| == |xs|
  {
    if xs != [] {
      SortPermutes(cmp, xs[1..]);
      InsertPermutes(cmp, xs[0], Sort(cmp, xs[1..]));
      assert xs == [xs[0]] + xs[1..];
    }
    assert |multiset(Sort(cmp, xs))| == |multiset(xs)|;
  }

  /** First by `outer`, and where that takes keys for equal by `inner`. */
  function Both(outer: Compare, inner: Compare): Compare {
    (a, b) => if outer(a, b) != 0 then outer(a, b) else inner(a, b)
  }

  lemma BothConsistent(outer: Compare, inner: Compare)
    requires Consistent(outer) && Consistent(inner)
    ensures Consistent(Both(outer, inner))
  {
  }

  lemma InsertedFrom<T>(cmp: Compare, x: Keyed<T>, xs: seq<Keyed<T>>, y: Keyed<T>)
    requires y in Insert(cmp, x, xs)
    ensures y == x || y in xs
  {
    InsertPermutes(cmp, x, xs);
    assert y in multiset(Insert(cmp, x, xs));
    assert y in multiset([x] + xs);
  }

  lemma SortedPrepend<T>(cmp: Compare, x: Keyed<T>, xs: seq<Keyed<T>>)
    requires Sorted(cmp, xs) && forall y :: y in xs ==> cmp(x.key, y.key) <= 0
    ensures Sorted(cmp, [x] + xs)
  {
  }

  lemma Transits(cmp: Compare, a: Text, b: Text, c: Text)
    requires Consistent(cmp) && cmp(a, b) <= 0 && cmp(b, c) <= 0
    ensures cmp(a, c) <= 0
  {
  }

  lemma Flips(cmp: Compare, a: Text, b: Text)
    requires Consistent(cmp)
    ensures cmp(a, b) < 0 <==> cmp(b, a) > 0
    ensures cmp(a, b) > 0 <==> cmp(b, a) < 0
  {
  }

  lemma HeadFirst<T>(cmp: Compare, xs: seq<Keyed<T>>, y: Keyed<T>)
    requires Consistent(cmp) && Sorted(cmp, xs) && y in xs
    ensures cmp(xs[0].key, y.key) <= 0
  {
    Flips(cmp, y.key, y.key);
    hide Consistent;
    var i :| 0 <= i < |xs| && xs[i] == y;
    if i > 0 { assert cmp(xs[0].key, xs[i].key) <= 0; }
  }

  lemma SortedTail<T>(cmp: Compare, xs: seq<Keyed<T>>)
    requires xs != [] && Sorted(cmp, xs)
    ensures Sorted(cmp, xs[1..])
  {
  }

  /** Inserting by `outer` what comes before everything by `inner` keeps the combined order. */
  lemma {:induction false} InsertSorted<T>(outer: Compare, inner: Compare, x: Keyed<T>, xs: seq<Keyed<T>>)
    requires Consistent(outer) && Consistent(inner)
    requires Sorted(Both(outer, inner), xs)
    requires forall y :: y in xs ==> inner(x.key, y.key) <= 0
    ensures Sorted(Both(outer, inner), Insert(outer, x, xs))
  {
    hide Consistent, Sorted;
    var both := Both(outer, inner);
    BothConsistent(outer, inner);
    if xs == [] {
      assert Sorted(both, [x]) by { SortedOne(both, x); }
    } else if outer(x.key, xs[0].key) <= 0 {
      forall y | y in xs ensures both(x.key, y.key) <= 0 {
        assert both(x.key, xs[0].key) <= 0;
        HeadFirst(both, xs, y);
        Transits(both, x.key, xs[0].key, y.key);
      }
      SortedPrepend(both, x, xs);
    } else {
      SortedTail(both, xs);
      InsertSorted(outer, inner, x, xs[1..]);
      Flips(outer, x.key, xs[0].key);
      forall y | y in Insert(outer, x, xs[1..]) ensures both(xs[0].key, y.key) <= 0 {
        InsertedFrom(outer, x, xs[1..], y);
        if y != x { HeadFirst(both, xs, y); }
      }
      SortedPrepend(both, xs[0], Insert(outer, x, xs[1..]));
    }
  }

  lemma SortedOne<T>(cmp: Compare, x: Keyed<T>)
    ensures Sorted(cmp, [x])
  {
  }

  /** Sorting by `outer` what is sorted by `inner` sorts by both. */
  lemma {:induction false} SortRefines<T>(outer: Compare, inner: Compare, xs: seq<Keyed<T>>)
    requires Consistent(outer) && Consistent(inner) && Sorted(inner, xs)
    ensures Sorted(Both(outer, inner), Sort(outer, xs))
  {
    if xs != [] {
      SortRefines(outer, inner, xs[1..]);
      SortPermutes(outer, xs[1..]);
      forall y | y in Sort(outer, xs[1..]) ensures inner(xs[0].key, y.key) <= 0 {
        assert y in multiset(Sort(outer, xs[1..]));
        assert y in multiset(xs[1..]);
        var i :| 0 <= i < |xs[1..]| && xs[1..][i] == y;
        assert inner(xs[0].key, xs[i + 1].key) <= 0;
      }
      InsertSorted(outer, inner, xs[0], Sort(outer, xs[1..]));
    }
  }

  function AllEqual(): Compare { (a, b) => 0 }

  lemma SortSorts<T>(cmp: Compare, xs: seq<Keyed<T>>)
    requires Consistent(cmp)
    ensures Sorted(cmp, Sort(cmp, xs))
  {
    SortRefines(cmp, AllEqual(), xs);
    var both := Both(cmp, AllEqual());
    var out := Sort(cmp, xs);
    forall i, j | 0 <= i < j < |out| ensures cmp(out[i].key, out[j].key) <= 0 {
      assert both(out[i].key, out[j].key) <= 0;
    }
  }

  /** The entries sorted by `inner`, then enumerated by `outer`. */
  function Arrange<T>(outer: Compare, inner: Compare, xs: seq<Keyed<T>>): seq<Keyed<T>> {
    Sort(outer, Sort(inner, xs))
  }

  lemma ArrangeFacts<T>(outer: Compare, inner: Compare, xs: seq<Keyed<T>>)
    requires Consistent(outer) && Consistent(inner)
    ensures multiset(Arrange(outer, inner, xs)) == multiset(xs) && |Arrange(outer, inner, xs)| == |xs|
    ensures Sorted(Both(outer, inner), Arrange(outer, inner, xs))
  {
    SortPermutes(inner, xs);
    SortPermutes(outer, Sort(inner, xs));
    SortSorts(inner, xs);
    SortRefines(outer, inner, Sort(inner, xs));
  }

  lemma InMultiset<T>(xs: seq<T>, ys: seq<T>, x: T)
    requires multiset(xs) == multiset(ys) && x in xs
    ensures x in ys
  {
    assert x in multiset(xs);
    assert x in multiset(ys);
  }

  /** Two sorted lists of the same fields begin alike. */
  lemma SameFirst<T>(cmp: Compare, xs: seq<Keyed<T>>, ys: seq<Keyed<T>>)
    requires Consistent(cmp) && Separates(cmp)
    requires Sorted(cmp, xs) && Sorted(cmp, ys) && multiset(xs) == multiset(ys) && DistinctKeys(xs)
    requires xs != [] && ys != []
    ensures xs[0] == ys[0]
  {
    hide Consistent, Sorted;
    InMultiset(xs, ys, xs[0]);
    InMultiset(ys, xs, ys[0]);
    HeadFirst(cmp, xs, ys[0]);
    HeadFirst(cmp, ys, xs[0]);
    Flips(cmp, xs[0].key, ys[0].key);
    assert xs[0].key == ys[0].key;
    hide Separates;
    var j :| 0 <= j < |xs| && xs[j] == ys[0];
  }

  lemma MultisetTail<T>(xs: seq<T>, ys: seq<T>)
    requires xs != [] && ys != [] && xs[0] == ys[0] && multiset(xs) == multiset(ys)
    ensures multiset(xs[1..]) == multiset(ys[1..])
  {
    assert xs == [xs[0]] + xs[1..] && ys == [ys[0]] + ys[1..];
    assert multiset(xs[1..]) == multiset(xs) - multiset{xs[0]};
    assert multiset(ys[1..]) == multiset(ys) - multiset{ys[0]};
  }

  /** Under a separating order there is one way to sort fields with distinct keys. */
  lemma {:induction false} SortedUnique<T>(cmp: Compare, xs: seq<Keyed<T>>, ys: seq<Keyed<T>>)
    requires Consistent(cmp) && Separates(cmp)
    requires Sorted(cmp, xs) && Sorted(cmp, ys) && multiset(xs) == multiset(ys) && DistinctKeys(xs)
    ensures xs == ys
  {
    hide Consistent, Sorted, Separates;
    assert |multiset(xs)| == |multiset(ys)|;
    if xs != [] {
      SameFirst(cmp, xs, ys);
      MultisetTail(xs, ys);
      SortedTail(cmp, xs);
      SortedTail(cmp, ys);
      SortedUnique(cmp, xs[1..], ys[1..]);
      SameHeadAndTail(xs, ys);
    }
  }

  // ---------------------------------------------------------------- stability

  /** The fields whose keys `cmp` takes for equal to `key`, in their order. */
  function Tied<T>(cmp: Compare, key: Text, xs: seq<Keyed<T>>): seq<Keyed<T>> {
    if xs == [] then []
    else (if cmp(key, xs[0].key) == 0 then [xs[0]] else []) + Tied(cmp, key, xs[1..])
  }

  lemma NotTied(cmp: Compare, key: Text, x: Text, y: Text)
    requires Consistent(cmp) && cmp(key, x) == 0 && cmp(x, y) > 0
    ensures cmp(key, y) != 0
  {
    Flips(cmp, x, key);
    if cmp(key, y) == 0 { Transits(cmp, x, key, y); }
    hide Consistent;
  }

  lemma {:induction false} InsertStable<T>(cmp: Compare, fine: Compare, key: Text, x: Keyed<T>, xs: seq<Keyed<T>>)
    requires Consistent(cmp) && forall a, b :: fine(a, b) == 0 ==> cmp(a, b) == 0
    ensures Tied(fine, key, Insert(cmp, x, xs)) == Tied(fine, key, [x] + xs)
  {
    hide Consistent;
    assert ([x] + xs)[1..] == xs;
    if xs != [] && cmp(x.key, xs[0].key) > 0 {
      InsertStable(cmp, fine, key, x, xs[1..]);
      assert ([x] + xs[1..])[1..] == xs[1..];
      assert ([xs[0]] + Insert(cmp, x, xs[1..]))[1..] == Insert(cmp, x, xs[1..]);
      if fine(key, x.key) == 0 { NotTied(cmp, key, x.key, xs[0].key); }
    }
  }

  /** Fields that a finer order still ties keep their order. */
  lemma {:induction false} SortStable<T>(cmp: Compare, fine: Compare, key: Text, xs: seq<Keyed<T>>)
    requires Consistent(cmp) && forall a, b :: fine(a, b) == 0 ==> cmp(a, b) == 0
    ensures Tied(fine, key, Sort(cmp, xs)) == Tied(fine, key, xs)
  {
    hide Consistent;
    if xs != [] {
      SortStable(cmp, fine, key, xs[1..]);
      InsertStable(cmp, fine, key, xs[0], Sort(cmp, xs[1..]));
      assert ([xs[0]] + Sort(cmp, xs[1..]))[1..] == Sort(cmp, xs[1..]);
    }
  }

  ghost predicate TiedAlike<T>(cmp: Compare, xs: seq<Keyed<T>>, ys: seq<Keyed<T>>) {
    forall key :: Tied(cmp, key, xs) == Tied(cmp, key, ys)
  }

  lemma TiedHead<T>(cmp: Compare, xs: seq<Keyed<T>>, ys: seq<Keyed<T>>)
    requires Consistent(cmp) && Sorted(cmp, xs) && Sorted(cmp, ys)
    requires multiset(xs) == multiset(ys) && xs != [] && ys != [] && TiedAlike(cmp, xs, ys)
    ensures xs[0] == ys[0]
  {
    hide Consistent, Sorted;
    InMultiset(xs, ys, xs[0]);
    InMultiset(ys, xs, ys[0]);
    HeadFirst(cmp, xs, ys[0]);
    HeadFirst(cmp, ys, xs[0]);
    Flips(cmp, xs[0].key, ys[0].key);
    Flips(cmp, xs[0].key, xs[0].key);
    assert Tied(cmp, xs[0].key, xs)[0] == xs[0] && Tied(cmp, xs[0].key, ys)[0] == ys[0];
  }

  lemma TiedTail<T>(cmp: Compare, xs: seq<Keyed<T>>, ys: seq<Keyed<T>>)
    requires xs != [] && ys != [] && xs[0] == ys[0] && TiedAlike(cmp, xs, ys)
    ensures TiedAlike(cmp, xs[1..], ys[1..])
  {
    forall key ensures Tied(cmp, key, xs[1..]) == Tied(cmp, key, ys[1..]) {
      assert Tied(cmp, key, xs) == Tied(cmp, key, ys);
      if cmp(key, xs[0].key) == 0 {
        assert Tied(cmp, key, xs)[1..] == Tied(cmp, key, xs[1..]);
        assert Tied(cmp, key, ys)[1..] == Tied(cmp, key, ys[1..]);
      } else {
        assert Tied(cmp, key, xs) == Tied(cmp, key, xs[1..]);
        assert Tied(cmp, key, ys) == Tied(cmp, key, ys[1..]);
      }
    }
  }

  /** There is one way to sort fields and leave ties in their order. */
  lemma {:induction false} StableUnique<T>(cmp: Compare, xs: seq<Keyed<T>>, ys: seq<Keyed<T>>)
    requires Consistent(cmp) && Sorted(cmp, xs) && Sorted(cmp, ys)
    requires multiset(xs) == multiset(ys) && TiedAlike(cmp, xs, ys)
    ensures xs == ys
  {
    hide Consistent, Sorted, TiedAlike;
    assert |multiset(xs)| == |multiset(ys)|;
    if xs != [] {
      TiedHead(cmp, xs, ys);
      TiedTail(cmp, xs, ys);
      MultisetTail(xs, ys);
      SortedTail(cmp, xs);
      SortedTail(cmp, ys);
      StableUnique(cmp, xs[1..], ys[1..]);
      SameHeadAndTail(xs, ys);
    }
  }

  /** Arranging twice is arranging once, even where the comparator ties keys. */
  lemma ArrangeIdempotent<T>(outer: Compare, inner: Compare, xs: seq<Keyed<T>>)
    requires Consistent(outer) && Consistent(inner)
    ensures Arrange(outer, inner, Arrange(outer, inner, xs)) == Arrange(outer, inner, xs)
  {
    var both := Both(outer, inner);
    var once := Arrange(outer, inner, xs);
    var twice := Arrange(outer, inner, once);
    ArrangeFacts(outer, inner, xs);
    ArrangeFacts(outer, inner, once);
    BothConsistent(outer, inner);
    hide Consistent, Sorted;
    forall key ensures Tied(both, key, once) == Tied(both, key, twice) {
      SortStable(inner, both, key, once);
      SortStable(outer, both, key, Sort(inner, once));
    }
    StableUnique(both, once, twice);
  }

  // ---------------------------------------------------------------- code units

  /** The default order of `sort`: by code units. */
  function CompareUnits(a: Text, b: Text): int {
    if a == [] then (if b == [] then 0 else -1)
    else if b == [] then 1
    else if a[0] != b[0] then (a[0] as int) - b[0]
    else CompareUnits(a[1..], b[1..])
  }

  lemma {:induction false} UnitsAntisymmetric(a: Text, b: Text)
    ensures CompareUnits(a, b) < 0 <==> CompareUnits(b, a) > 0
    ensures CompareUnits(a, b) == 0 ==> a == b
  {
    if a != [] && b != [] && a[0] == b[0] {
      UnitsAntisymmetric(a[1..], b[1..]);
      assert a == [a[0]] + a[1..] && b == [b[0]] + b[1..];
    }
  }

  lemma {:induction false} UnitsTransitive(a: Text, b: Text, c: Text)
    requires CompareUnits(a, b) <= 0 && CompareUnits(b, c) <= 0
    ensures CompareUnits(a, c) <= 0
  {
    if a != [] && b != [] && c != [] && a[0] == b[0] == c[0] {
      UnitsTransitive(a[1..], b[1..], c[1..]);
    }
  }

  lemma UnitsOrder()
    ensures Consistent(CompareUnits) && Separates(CompareUnits)
  {
    forall a, b ensures (CompareUnits(a, b) < 0 <==> CompareUnits(b, a) > 0) && (CompareUnits(a, b) == 0 ==> a == b) {
      UnitsAntisymmetric(a, b);
    }
    forall a, b, c | CompareUnits(a, b) <= 0 && CompareUnits(b, c) <= 0 ensures CompareUnits(a, c) <= 0 {
      UnitsTransitive(a, b, c);
    }
  }

  // ---------------------------------------------------------------- how objects enumerate their keys

  predicate Digit(u: Unit) { 0x30 <= u <= 0x39 }

  function DigitValue(u: Unit): nat
    requires Digit(u)
  {
    (u as int) - 0x30
  }

  function DecimalValue(t: Text): nat
    requires forall i :: 0 <= i < |t| ==> Digit(t[i])
  {
    if t == [] then 0 else DecimalValue(t[..|t| - 1]) * 10 + DigitValue(t[|t| - 1])
  }

  /** A key that is the decimal text of an array index. */
  predicate CanonicalDecimal(t: Text) {
    && t != [] && (forall i :: 0 <= i < |t| ==> Digit(t[i]))
    && (t[0] == 0x30 ==> |t| == 1)
  }

  function ArrayIndex(key: Text): Option<nat> {
    if CanonicalDecimal(key) && DecimalValue(key) < 0xFFFF_FFFF then Some(DecimalValue(key)) else None
  }

  lemma {:induction false} DecimalPositive(t: Text)
    requires t != [] && (forall i :: 0 <= i < |t| ==> Digit(t[i])) && t[0] != 0x30
    ensures DecimalValue(t) > 0
  {
    if |t| > 1 {
      DecimalPositive(t[..|t| - 1]);
    }
  }

  lemma {:induction false} DecimalInjective(a: Text, b: Text)
    requires CanonicalDecimal(a) && CanonicalDecimal(b) && DecimalValue(a) == DecimalValue(b)
    ensures a == b
  {
    var c, d := a[..|a| - 1], b[..|b| - 1];
    var m, n := DigitValue(a[|a| - 1]), DigitValue(b[|b| - 1]);
    assert DecimalValue(c) * 10 + m == DecimalValue(d) * 10 + n;
    assert m == n && DecimalValue(c) == DecimalValue(d);
    if c != [] { DecimalPositive(c); }
    if d != [] { DecimalPositive(d); }
    if c != [] && d != [] { DecimalInjective(c, d); }
    assert a == c + [a[|a| - 1]] && b == d + [b[|b| - 1]];
  }

  /** Array indices first, in ascending order; all other keys as they were inserted. */
  function Enumeration(a: Text, b: Text): int {
    match (ArrayIndex(a), ArrayIndex(b))
    case (Some(m), Some(n)) => (m as int) - n
    case (Some(_), None) => -1
    case (None, Some(_)) => 1
    case (None, None) => 0
  }

  lemma EnumerationOrder()
    ensures Consistent(Enumeration)
    ensures forall a, b :: Enumeration(a, b) == 0 && ArrayIndex(a).Some? ==> a == b
  {
    forall a, b | Enumeration(a, b) == 0 && ArrayIndex(a).Some? ensures a == b {
      DecimalInjective(a, b);
    }
    hide ArrayIndex;
  }
}
