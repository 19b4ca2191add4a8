/**
 The two orderings an export relies on: map keys listed in ascending order, and rows put in
 frame order without reordering rows of the same frame. Both results are unique, so neither
 depends on the sorting algorithm or on the order a map is walked in.
 */
module Sorting {
  import opened Core

  // ---- key listings ----

  ghost predicate StrictTotal<T(!new)>(lt: (T, T) -> bool) {
    && (forall x :: !lt(x, x))
    && (forall x, y, z :: lt(x, y) && lt(y, z) ==> lt(x, z))
    && (forall x, y :: x != y ==> lt(x, y) || lt(y, x))
  }

  ghost predicate Ascending<T(!new)>(lt: (T, T) -> bool, xs: seq<T>) {
    forall i, j :: 0 <= i < j < |xs| ==> lt(xs[i], xs[j])
  }

  /** xs lists the members of s once each, in ascending order. */
  ghost predicate Lists<T(!new)>(lt: (T, T) -> bool, xs: seq<T>, s: set<T>) {
    Ascending(lt, xs) && forall x :: x in xs <==> x in s
  }

  lemma {:induction false} ListingUnique<T(!new)>(lt: (T, T) -> bool, xs: seq<T>, ys: seq<T>, s: set<T>)
    requires StrictTotal(lt) && Lists(lt, xs, s) && Lists(lt, ys, s)
    ensures xs == ys
    decreases |xs|
  {
    EmptyListing(lt, xs, s);
    EmptyListing(lt, ys, s);
    if s != {} {
      var n, m := |xs| - 1, |ys| - 1;
      SameGreatest(lt, xs, ys, s);
      DropGreatest(lt, xs, s);
      DropGreatest(lt, ys, s);
      ListingUnique(lt, xs[..n], ys[..m], s - {xs[n]});
      assert xs == xs[..n] + [xs[n]] && ys == ys[..m] + [ys[m]];
    }
  }

  lemma EmptyListing<T(!new)>(lt: (T, T) -> bool, xs: seq<T>, s: set<T>)
    requires Lists(lt, xs, s)
    ensures xs == [] <==> s == {}
  {
    if xs != [] { assert xs[0] in s; }
    if s != {} { var x :| x in s; assert x in xs; }
  }

  lemma SameGreatest<T(!new)>(lt: (T, T) -> bool, xs: seq<T>, ys: seq<T>, s: set<T>)
    requires StrictTotal(lt) && Lists(lt, xs, s) && Lists(lt, ys, s) && xs != [] && ys != []
    ensures xs[|xs| - 1] == ys[|ys| - 1]
  {
    var x, y := xs[|xs| - 1], ys[|ys| - 1];
    assert x in s && y in s;
    assert x in ys && y in xs;
    var i :| 0 <= i < |xs| && xs[i] == y;
    var j :| 0 <= j < |ys| && ys[j] == x;
    assert x == y || (lt(y, x) && lt(x, y));
  }

  lemma DropGreatest<T(!new)>(lt: (T, T) -> bool, xs: seq<T>, s: set<T>)
    requires StrictTotal(lt) && Lists(lt, xs, s) && xs != []
    ensures Lists(lt, xs[..|xs| - 1], s - {xs[|xs| - 1]})
  {
    var n := |xs| - 1;
    forall x ensures x in xs[..n] <==> x in s - {xs[n]} {
      if x in xs && x != xs[n] {
        var i :| 0 <= i < |xs| && xs[i] == x;
        assert xs[..n][i] == x;
      }
    }
  }

  /** x and the keys before the last one are below the last one. */
  lemma AllBelow<T(!new)>(lt: (T, T) -> bool, xs: seq<T>, x: T, r: seq<T>)
    requires Ascending(lt, xs) && xs != [] && lt(x, xs[|xs| - 1])
    requires forall y :: y in r <==> y in xs[..|xs| - 1] || y == x
    ensures forall i :: 0 <= i < |r| ==> lt(r[i], xs[|xs| - 1])
  {
    forall i | 0 <= i < |r| ensures lt(r[i], xs[|xs| - 1]) {
      assert r[i] in r;
      if r[i] != x {
        var j :| 0 <= j < |xs| - 1 && xs[..|xs| - 1][j] == r[i];
        assert lt(xs[j], xs[|xs| - 1]);
      }
    }
  }

  /** Insertion of a new key into an ascending list. */
  function InsertKey<T(!new)>(lt: (T, T) -> bool, xs: seq<T>, x: T): (r: seq<T>)
    requires StrictTotal(lt) && Ascending(lt, xs) && x !in xs
    ensures Ascending(lt, r)
    ensures forall y :: y in r <==> y in xs || y == x
  {
    if xs == [] || lt(xs[|xs| - 1], x) then xs + [x]
    else
      var n := |xs| - 1;
      assert xs == xs[..n] + [xs[n]];
      var r := InsertKey(lt, xs[..n], x);
      AllBelow(lt, xs, x, r);
      r + [xs[n]]
  }

  /** Sorts a duplicate-free list of keys. */
  function SortKeys<T(!new)>(lt: (T, T) -> bool, xs: seq<T>): (r: seq<T>)
    requires StrictTotal(lt) && forall i, j :: 0 <= i < j < |xs| ==> xs[i] != xs[j]
    ensures Ascending(lt, r)
    ensures forall x :: x in r <==> x in xs
  {
    if xs == [] then []
    else
      var n := |xs| - 1;
      assert xs == xs[..n] + [xs[n]];
      InsertKey(lt, SortKeys(lt, xs[..n]), xs[n])
  }

  /** The ascending listing of a set of keys. */
  ghost function Listing<T(!new)>(lt: (T, T) -> bool, s: set<T>): (r: seq<T>)
    requires StrictTotal(lt)
    ensures Lists(lt, r, s)
  {
    if s == {} then []
    else
      var x :| x in s;
      InsertKey(lt, Listing(lt, s - {x}), x)
  }

  predicate LtId(a: uint16, b: uint16) { a < b }

  /** Lexicographic order on strings, by code point. */
  predicate LtString(a: string, b: string) {
    if b == [] then false
    else if a == [] then true
    else if a[0] != b[0] then a[0] < b[0]
    else LtString(a[1..], b[1..])
  }

  lemma LtIdStrictTotal()
    ensures StrictTotal(LtId)
  {
  }

  lemma {:induction false} LtStringTransitive(a: string, b: string, c: string)
    requires LtString(a, b) && LtString(b, c)
    ensures LtString(a, c)
  {
    if a != [] && a[0] == b[0] && b[0] == c[0] {
      LtStringTransitive(a[1..], b[1..], c[1..]);
    }
  }

  lemma {:induction false} LtStringConnected(a: string, b: string)
    ensures !LtString(a, a)
    ensures a != b ==> LtString(a, b) || LtString(b, a)
  {
    if a != [] {
      if b != [] && a[0] == b[0] {
        LtStringConnected(a[1..], b[1..]);
        assert a == [a[0]] + a[1..] && b == [b[0]] + b[1..];
      } else {
        LtStringConnected(a[1..], []);
      }
    }
  }

  lemma LtStringStrictTotal()
    ensures StrictTotal(LtString)
  {
    forall a, b ensures !LtString(a, a) && (a != b ==> LtString(a, b) || LtString(b, a)) {
      LtStringConnected(a, b);
    }
    forall a, b, c | LtString(a, b) && LtString(b, c) ensures LtString(a, c) {
      LtStringTransitive(a, b, c);
    }
  }

  // ---- greatest number ----

  /** m is the largest number of s, or 0 when that is larger. */
  ghost predicate IsMax(s: set<int>, m: int) {
    m >= 0 && (forall x :: x in s ==> x <= m) && (m == 0 || m in s)
  }

  ghost function MaxOf(s: set<int>): (m: int)
    ensures IsMax(s, m)
  {
    if exists x :: x in s then
      var x :| x in s;
      var m := MaxOf(s - {x});
      assert forall y :: y in s ==> y == x || y in s - {x};
      if x > m then x else m
    else 0
  }

  // ---- stable sorting by a number ----

  ghost predicate SortedBy<T>(key: T -> int, xs: seq<T>) {
    forall i, j :: 0 <= i < j < |xs| ==> key(xs[i]) <= key(xs[j])
  }

  /** The elements of xs with key k, in order. */
  function Having<T>(key: T -> int, k: int, xs: seq<T>): seq<T> {
    if xs == [] then []
    else
      var n := |xs| - 1;
      Having(key, k, xs[..n]) + if key(xs[n]) == k then [xs[n]] else []
  }

  /** ys holds the elements of xs, and those of equal key in the same order. */
  ghost predicate StableRearrangement<T>(key: T -> int, xs: seq<T>, ys: seq<T>) {
    && multiset(ys) == multiset(xs)
    && forall k :: Having(key, k, ys) == Having(key, k, xs)
  }

  /** Puts x behind every element whose key is at most x's. */
  function InsertStable<T>(key: T -> int, xs: seq<T>, x: T): (r: seq<T>)
    ensures multiset(r) == multiset(xs) + multiset{x}
  {
    if xs == [] || key(xs[|xs| - 1]) <= key(x) then xs + [x]
    else
      var n := |xs| - 1;
      assert xs == xs[..n] + [xs[n]];
      InsertStable(key, xs[..n], x) + [xs[n]]
  }

  lemma {:induction false} InsertSorted<T>(key: T -> int, xs: seq<T>, x: T)
    requires SortedBy(key, xs)
    ensures SortedBy(key, InsertStable(key, xs, x))
  {
    if xs != [] && key(xs[|xs| - 1]) > key(x) {
      var n := |xs| - 1;
      InsertSorted(key, xs[..n], x);
      var r := InsertStable(key, xs[..n], x);
      forall i | 0 <= i < |r| ensures key(r[i]) <= key(xs[n]) {
        assert r[i] in multiset(r);
        assert r[i] in xs[..n] || r[i] == x;
      }
    }
  }

  /** What x adds to the elements with key k. */
  function Own<T>(key: T -> int, k: int, x: T): seq<T> { if key(x) == k then [x] else [] }

  lemma HavingSnoc<T>(key: T -> int, k: int, xs: seq<T>, x: T)
    ensures Having(key, k, xs + [x]) == Having(key, k, xs) + Own(key, k, x)
  {
    assert (xs + [x])[..|xs|] == xs;
  }

  lemma SwapOwn<T>(key: T -> int, k: int, h: seq<T>, x: T, y: T)
    requires key(x) != key(y)
    ensures h + Own(key, k, x) + Own(key, k, y) == h + Own(key, k, y) + Own(key, k, x)
  {
  }

  lemma {:induction false} InsertHaving<T>(key: T -> int, xs: seq<T>, x: T, k: int)
    requires SortedBy(key, xs)
    ensures Having(key, k, InsertStable(key, xs, x)) == Having(key, k, xs) + Own(key, k, x)
  {
    if xs == [] || key(xs[|xs| - 1]) <= key(x) {
      HavingSnoc(key, k, xs, x);
    } else {
      var before, last := xs[..|xs| - 1], xs[|xs| - 1];
      InsertHaving(key, before, x, k);
      HavingSnoc(key, k, InsertStable(key, before, x), last);
      SwapOwn(key, k, Having(key, k, before), x, last);
    }
  }

  function StableSort<T>(key: T -> int, xs: seq<T>): seq<T> {
    if xs == [] then [] else InsertStable(key, StableSort(key, xs[..|xs| - 1]), xs[|xs| - 1])
  }

  /** Sorting loses, adds and duplicates nothing, orders by key and keeps ties in order. */
  lemma {:induction false} StableSortCorrect<T>(key: T -> int, xs: seq<T>)
    ensures SortedBy(key, StableSort(key, xs))
    ensures StableRearrangement(key, xs, StableSort(key, xs))
  {
    if xs != [] {
      var n := |xs| - 1;
      var ys := StableSort(key, xs[..n]);
      assert xs == xs[..n] + [xs[n]];
      StableSortCorrect(key, xs[..n]);
      InsertSorted(key, ys, xs[n]);
      forall k ensures Having(key, k, StableSort(key, xs)) == Having(key, k, xs) {
        InsertHaving(key, ys, xs[n], k);
      }
    }
  }

  lemma {:induction false} HavingElement<T>(key: T -> int, xs: seq<T>, i: nat)
    requires i < |xs|
    ensures Having(key, key(xs[i]), xs) != []
  {
    if i < |xs| - 1 {
      HavingElement(key, xs[..|xs| - 1], i);
    }
  }

  lemma {:induction false} HavingWitness<T>(key: T -> int, k: int, xs: seq<T>) returns (i: nat)
    requires Having(key, k, xs) != []
    ensures i < |xs| && key(xs[i]) == k
  {
    i := |xs| - 1;
    if key(xs[i]) != k {
      i := HavingWitness(key, k, xs[..i]);
    }
  }

  /** Two lists that agree on every key and end in the same element also agree without it. */
  lemma DropCommonLast<T>(key: T -> int, xs: seq<T>, ys: seq<T>, q: int)
    requires xs != [] && ys != [] && xs[|xs| - 1] == ys[|ys| - 1]
    requires Having(key, q, xs) == Having(key, q, ys)
    ensures Having(key, q, xs[..|xs| - 1]) == Having(key, q, ys[..|ys| - 1])
  {
    var a, b := Having(key, q, xs[..|xs| - 1]), Having(key, q, ys[..|ys| - 1]);
    var tail := if key(xs[|xs| - 1]) == q then [xs[|xs| - 1]] else [];
    assert a + tail == b + tail;
    assert a == (a + tail)[..|a|] && b == (b + tail)[..|b|] && |a + tail| == |b + tail|;
  }

  /** Frame order and the order within each frame leave one arrangement only. */
  lemma {:induction false} StableSortUnique<T>(key: T -> int, xs: seq<T>, ys: seq<T>)
    requires SortedBy(key, xs) && SortedBy(key, ys)
    requires forall k :: Having(key, k, xs) == Having(key, k, ys)
    ensures xs == ys
  {
    if xs == [] || ys == [] {
      if xs != [] { HavingElement(key, xs, 0); }
      if ys != [] { HavingElement(key, ys, 0); }
    } else {
      var n, m := |xs| - 1, |ys| - 1;
      SameLast(key, xs, ys);
      forall q ensures Having(key, q, xs[..n]) == Having(key, q, ys[..m]) {
        DropCommonLast(key, xs, ys, q);
      }
      StableSortUnique(key, xs[..n], ys[..m]);
      assert xs == xs[..n] + [xs[n]] && ys == ys[..m] + [ys[m]];
    }
  }

  lemma SameLast<T>(key: T -> int, xs: seq<T>, ys: seq<T>)
    requires SortedBy(key, xs) && SortedBy(key, ys) && xs != [] && ys != []
    requires forall k :: Having(key, k, xs) == Having(key, k, ys)
    ensures xs[|xs| - 1] == ys[|ys| - 1]
  {
    LastKeyAtMost(key, xs, ys);
    LastKeyAtMost(key, ys, xs);
    LastHaving(key, xs);
    LastHaving(key, ys);
  }

  lemma LastKeyAtMost<T>(key: T -> int, xs: seq<T>, ys: seq<T>)
    requires SortedBy(key, ys) && xs != [] && ys != []
    requires forall k :: Having(key, k, xs) == Having(key, k, ys)
    ensures key(xs[|xs| - 1]) <= key(ys[|ys| - 1])
  {
    HavingElement(key, xs, |xs| - 1);
    var k := key(xs[|xs| - 1]);
    assert Having(key, k, xs) == Having(key, k, ys);
    var j := HavingWitness(key, k, ys);
    assert j == |ys| - 1 || key(ys[j]) <= key(ys[|ys| - 1]);
  }

  lemma LastHaving<T>(key: T -> int, xs: seq<T>)
    requires xs != []
    ensures var h := Having(key, key(xs[|xs| - 1]), xs); h != [] && h[|h| - 1] == xs[|xs| - 1]
  {
  }
}
