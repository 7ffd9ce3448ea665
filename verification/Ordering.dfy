/** Sorting by any strict order of keys. When no two elements share a key, the sorted sequence
    depends only on the elements, not on the order they came in. */
module Ordering {
  import opened Seqs

  function PlaceBy<T>(sorted: seq<T>, x: T, before: (T, T) -> bool): seq<T> {
    if sorted == [] || !before(x, sorted[|sorted| - 1]) then sorted + [x]
    else PlaceBy(sorted[..|sorted| - 1], x, before) + [sorted[|sorted| - 1]]
  }

  function SortBy<T>(xs: seq<T>, before: (T, T) -> bool): seq<T> {
    if xs == [] then [] else PlaceBy(SortBy(xs[..|xs| - 1], before), xs[|xs| - 1], before)
  }

  predicate InOrder<T>(xs: seq<T>, before: (T, T) -> bool) {
    forall i, j :: 0 <= i < j < |xs| ==> !before(xs[j], xs[i])
  }

  ghost predicate Orders<T(!new)>(before: (T, T) -> bool) {
    && (forall a, b :: before(a, b) ==> !before(b, a))
    && forall a, b, c :: !before(a, b) && !before(b, c) ==> !before(a, c)
  }

  // No two places hold the same key.
  predicate Apart<T>(xs: seq<T>, before: (T, T) -> bool) {
    forall i, j :: 0 <= i < j < |xs| ==> before(xs[i], xs[j]) || before(xs[j], xs[i])
  }

  lemma {:induction false} PlaceBag<T>(sorted: seq<T>, x: T, before: (T, T) -> bool)
    ensures multiset(PlaceBy(sorted, x, before)) == multiset(sorted) + multiset{x}
  {
    if sorted != [] && before(x, sorted[|sorted| - 1]) {
      PlaceBag(sorted[..|sorted| - 1], x, before);
      assert sorted == sorted[..|sorted| - 1] + [sorted[|sorted| - 1]];
    }
  }

  lemma InBag<T>(xs: seq<T>, bag: multiset<T>, i: nat)
    requires multiset(xs) == bag && i < |xs|
    ensures xs[i] in bag
  {
    assert xs[i] in multiset(xs);
  }

  lemma {:induction false} PlaceInOrder<T(!new)>(sorted: seq<T>, x: T, before: (T, T) -> bool)
    requires Orders(before) && InOrder(sorted, before)
    ensures InOrder(PlaceBy(sorted, x, before), before)
  {
    if sorted != [] {
      var rest, last := sorted[..|sorted| - 1], sorted[|sorted| - 1];
      if before(x, last) {
        PlaceInOrder(rest, x, before);
        PlaceBag(rest, x, before);
        var placed := PlaceBy(rest, x, before);
        assert PlaceBy(sorted, x, before) == placed + [last];
        hide PlaceBy;
        forall i | 0 <= i < |placed|
          ensures !before(last, placed[i])
        {
          InBag(placed, multiset(rest) + multiset{x}, i);
          assert placed[i] == x || placed[i] in rest;
        }
      } else {
        forall i | 0 <= i < |sorted|
          ensures !before(x, sorted[i])
        {
          assert i < |sorted| - 1 ==> !before(last, sorted[i]);
        }
      }
    }
  }

  lemma {:induction false} SortSorts<T(!new)>(xs: seq<T>, before: (T, T) -> bool)
    requires Orders(before)
    ensures InOrder(SortBy(xs, before), before) && multiset(SortBy(xs, before)) == multiset(xs)
    ensures |SortBy(xs, before)| == |xs|
  {
    if xs != [] {
      var rest, last := xs[..|xs| - 1], xs[|xs| - 1];
      SortSorts(rest, before);
      PlaceInOrder(SortBy(rest, before), last, before);
      PlaceBag(SortBy(rest, before), last, before);
      assert xs == rest + [last];
    }
    assert |multiset(SortBy(xs, before))| == |multiset(xs)|;
  }

  lemma LastAgrees<T(!new)>(a: seq<T>, b: seq<T>, before: (T, T) -> bool)
    requires a != [] && b != [] && InOrder(a, before) && InOrder(b, before) && Apart(a, before) && Orders(before)
    requires multiset(a) == multiset(b)
    ensures a[|a| - 1] == b[|b| - 1]
  {
    var x, y := a[|a| - 1], b[|b| - 1];
    InBag(a, multiset(b), |a| - 1);
    InBag(b, multiset(a), |b| - 1);
    var i := PlaceOf(b, x);
    var j := PlaceOf(a, y);
    assert i < |b| - 1 ==> !before(y, x);
    assert j < |a| - 1 ==> !before(x, y);
  }

  lemma FrontAgrees<T>(a: seq<T>, b: seq<T>)
    requires a != [] && b != [] && multiset(a) == multiset(b) && a[|a| - 1] == b[|b| - 1]
    ensures multiset(a[..|a| - 1]) == multiset(b[..|b| - 1])
  {
    WithoutBag(a, |a| - 1);
    WithoutBag(b, |b| - 1);
    assert Without(a, |a| - 1) == a[..|a| - 1] && Without(b, |b| - 1) == b[..|b| - 1];
  }

  lemma FrontInOrder<T>(a: seq<T>, before: (T, T) -> bool)
    requires a != [] && InOrder(a, before)
    ensures InOrder(a[..|a| - 1], before) && a == a[..|a| - 1] + [a[|a| - 1]]
    ensures Apart(a, before) ==> Apart(a[..|a| - 1], before)
  {
  }

  lemma {:induction false} SortedUnique<T(!new)>(a: seq<T>, b: seq<T>, before: (T, T) -> bool)
    requires InOrder(a, before) && InOrder(b, before) && Apart(a, before) && Orders(before) && multiset(a) == multiset(b)
    ensures a == b
    decreases |a|
  {
    hide InOrder, Apart, Orders;
    assert |multiset(a)| == |a| && |multiset(b)| == |b|;
    if a != [] {
      LastAgrees(a, b, before);
      FrontAgrees(a, b);
      FrontInOrder(a, before);
      FrontInOrder(b, before);
      SortedUnique(a[..|a| - 1], b[..|b| - 1], before);
    }
  }

  lemma ApartWithout<T>(a: seq<T>, k: nat, before: (T, T) -> bool)
    requires Apart(a, before) && k < |a|
    ensures Apart(Without(a, k), before)
    ensures forall x :: x in multiset(Without(a, k)) ==> before(x, a[k]) || before(a[k], x)
  {
    forall x | x in multiset(Without(a, k))
      ensures before(x, a[k]) || before(a[k], x)
    {
      var j := PlaceOf(Without(a, k), x);
    }
  }

  lemma {:induction false} ApartPermuted<T>(a: seq<T>, b: seq<T>, before: (T, T) -> bool)
    requires Apart(a, before) && multiset(a) == multiset(b)
    ensures Apart(b, before)
    decreases |a|
  {
    assert |multiset(a)| == |a| && |multiset(b)| == |b|;
    if b != [] {
      var n := |b| - 1;
      InBag(b, multiset(a), n);
      var k := PlaceOf(a, b[n]);
      ApartWithout(a, k, before);
      WithoutBag(a, k);
      WithoutBag(b, n);
      assert Without(b, n) == b[..n];
      var rest := Without(a, k);
      hide Without;
      ApartPermuted(rest, b[..n], before);
      forall i | 0 <= i < n
        ensures before(b[i], b[n]) || before(b[n], b[i])
      {
        InBag(b[..n], multiset(rest), i);
      }
    }
  }

  // The same elements in another order sort alike, when no two share a key.
  lemma SortAnyOrder<T(!new)>(a: seq<T>, b: seq<T>, before: (T, T) -> bool)
    requires Orders(before) && Apart(a, before) && multiset(a) == multiset(b)
    ensures SortBy(a, before) == SortBy(b, before)
  {
    SortSorts(a, before);
    SortSorts(b, before);
    hide SortBy;
    ApartPermuted(a, SortBy(a, before), before);
    SortedUnique(SortBy(a, before), SortBy(b, before), before);
  }
}
