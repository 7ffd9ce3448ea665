/** Sequences whose order does not matter: maps over them, sums, and ascending listings. */
module Seqs {

  function FlatMap<T, U>(xs: seq<T>, f: T -> seq<U>): seq<U> {
    if xs == [] then [] else FlatMap(xs[..|xs| - 1], f) + f(xs[|xs| - 1])
  }

  lemma FlatMapSnoc<T, U>(xs: seq<T>, x: T, f: T -> seq<U>)
    ensures FlatMap(xs + [x], f) == FlatMap(xs, f) + f(x)
  {
    assert (xs + [x])[..|xs|] == xs;
  }

  lemma {:induction false} FlatMapConcat<T, U>(xs: seq<T>, ys: seq<T>, f: T -> seq<U>)
    ensures FlatMap(xs + ys, f) == FlatMap(xs, f) + FlatMap(ys, f)
  {
    if ys == [] {
      assert xs + ys == xs;
    } else {
      var ys', y := ys[..|ys| - 1], ys[|ys| - 1];
      FlatMapConcat(xs, ys', f);
      assert FlatMap(ys, f) == FlatMap(ys', f) + f(y);
      hide FlatMap;
      assert xs + ys == (xs + ys') + [y] && ys == ys' + [y];
      FlatMapSnoc(xs + ys', y, f);
    }
  }

  function Without<T>(xs: seq<T>, k: nat): seq<T>
    requires k < |xs|
  {
    xs[..k] + xs[k + 1..]
  }

  lemma WithoutBag<T>(xs: seq<T>, k: nat)
    requires k < |xs|
    ensures multiset(Without(xs, k)) == multiset(xs) - multiset{xs[k]}
  {
    assert xs == xs[..k] + [xs[k]] + xs[k + 1..];
  }

  lemma FlatMapWithout<T, U>(xs: seq<T>, k: nat, f: T -> seq<U>)
    requires k < |xs|
    ensures multiset(FlatMap(xs, f)) == multiset(FlatMap(Without(xs, k), f)) + multiset(f(xs[k]))
  {
    hide FlatMap;
    assert xs == (xs[..k] + [xs[k]]) + xs[k + 1..];
    FlatMapConcat(xs[..k] + [xs[k]], xs[k + 1..], f);
    FlatMapSnoc(xs[..k], xs[k], f);
    FlatMapConcat(xs[..k], xs[k + 1..], f);
  }

  lemma PlaceOf<T>(xs: seq<T>, x: T) returns (k: nat)
    requires x in multiset(xs)
    ensures k < |xs| && xs[k] == x
  {
    k :| k < |xs| && xs[k] == x;
  }

  // The same elements in another order give the same results in another order.
  lemma {:induction false} FlatMapPermuted<T, U>(xs: seq<T>, ys: seq<T>, f: T -> seq<U>)
    requires multiset(xs) == multiset(ys)
    ensures multiset(FlatMap(xs, f)) == multiset(FlatMap(ys, f))
    decreases |xs|
  {
    if xs == [] {
      assert |multiset(ys)| == 0;
    } else {
      var last := |xs| - 1;
      assert xs[last] in xs;
      assert multiset(xs)[xs[last]] > 0;
      var k := PlaceOf(ys, xs[last]);
      WithoutBag(xs, last);
      WithoutBag(ys, k);
      FlatMapPermuted(Without(xs, last), Without(ys, k), f);
      FlatMapWithout(xs, last, f);
      FlatMapWithout(ys, k, f);
    }
  }

  // A property of states that each step keeps exactly when it is not a bad one holds all along
  // exactly when there is no bad step.
  lemma {:induction false} StepwiseIff<T>(steps: seq<T>, good: seq<T> -> bool, bad: (seq<T>, T) -> bool)
    requires good([])
    requires forall i :: 0 <= i < |steps| && good(steps[..i]) ==> (good(steps[..i + 1]) <==> !bad(steps[..i], steps[i]))
    ensures (forall i :: 0 <= i <= |steps| ==> good(steps[..i])) <==> (forall i :: 0 <= i < |steps| ==> !bad(steps[..i], steps[i]))
  {
    if forall i :: 0 <= i < |steps| ==> !bad(steps[..i], steps[i]) {
      forall i | 0 <= i <= |steps|
        ensures good(steps[..i])
      {
        GoodUpTo(steps, good, bad, i);
      }
    }
    if forall i :: 0 <= i <= |steps| ==> good(steps[..i]) {
      forall i | 0 <= i < |steps|
        ensures !bad(steps[..i], steps[i])
      {
        assert good(steps[..i]) && good(steps[..i + 1]);
      }
    }
  }

  lemma {:induction false} GoodUpTo<T>(steps: seq<T>, good: seq<T> -> bool, bad: (seq<T>, T) -> bool, i: nat)
    requires i <= |steps| && good([])
    requires forall j :: 0 <= j < i && good(steps[..j]) ==> (good(steps[..j + 1]) <==> !bad(steps[..j], steps[j]))
    requires forall j :: 0 <= j < i ==> !bad(steps[..j], steps[j])
    ensures good(steps[..i])
  {
    if i == 0 {
      assert steps[..0] == [];
    } else {
      GoodUpTo(steps, good, bad, i - 1);
      assert steps[..i - 1 + 1] == steps[..i];
    }
  }

  // Keeping some elements keeps as many as there are places of such.
  lemma {:induction false} KeptCount<T>(xs: seq<T>, f: T -> seq<T>, places: set<nat>)
    requires forall x :: |f(x)| <= 1
    requires places == set i: nat | i < |xs| && f(xs[i]) != []
    ensures |FlatMap(xs, f)| == |places|
  {
    if xs != [] {
      var n := |xs| - 1;
      var before := set i: nat | i < n && f(xs[..n][i]) != [];
      KeptCount(xs[..n], f, before);
      if f(xs[n]) != [] {
        assert places == before + {n};
      } else {
        assert places == before;
      }
    }
  }

  // What holds of every element and the elements before it, one element at a time.
  lemma EveryStepSnoc<T>(steps: seq<T>, p: (seq<T>, T) -> bool)
    requires steps != []
    ensures var n := |steps| - 1;
            (forall i :: 0 <= i < |steps| ==> p(steps[..i], steps[i])) <==>
            (forall i :: 0 <= i < n ==> p(steps[..n][..i], steps[..n][i])) && p(steps[..n], steps[n])
  {
    var n := |steps| - 1;
    assert forall i :: 0 <= i < n ==> steps[..n][..i] == steps[..i] && steps[..n][i] == steps[i];
    if (forall i :: 0 <= i < n ==> p(steps[..n][..i], steps[..n][i])) && p(steps[..n], steps[n]) {
      forall i | 0 <= i < |steps|
        ensures p(steps[..i], steps[i])
      {
        assert i < n ==> p(steps[..n][..i], steps[..n][i]);
      }
    }
    if forall i :: 0 <= i < |steps| ==> p(steps[..i], steps[i]) {
      forall i | 0 <= i < n
        ensures p(steps[..n][..i], steps[..n][i])
      {
        assert p(steps[..i], steps[i]);
      }
    }
  }

  // What holds of some longer prefix, one element more.
  lemma SomePrefixSnoc<T>(steps: seq<T>, step: T, i: nat, p: seq<T> -> bool)
    requires i <= |steps|
    ensures var after := steps + [step];
            (exists n: nat :: i < n <= |after| && p(after[..n])) <==> (exists n: nat :: i < n <= |steps| && p(steps[..n])) || p(after)
  {
    var after := steps + [step];
    assert after[..|after|] == after;
    assert forall n: nat :: n <= |steps| ==> after[..n] == steps[..n];
    if exists n: nat :: i < n <= |steps| && p(steps[..n]) {
      var n: nat :| i < n <= |steps| && p(steps[..n]);
      assert p(after[..n]);
    }
    if exists n: nat :: i < n <= |after| && p(after[..n]) {
      var n: nat :| i < n <= |after| && p(after[..n]);
      assert n <= |steps| ==> p(steps[..n]);
    }
    if p(after) {
      assert p(after[..|after|]);
    }
  }

  // ---- ascending listings ----

  predicate Ascending(xs: seq<int>) {
    forall i, j :: 0 <= i < j < |xs| ==> xs[i] < xs[j]
  }

  function Elements(xs: seq<int>): set<int> {
    set x | x in xs
  }

  lemma {:induction false} AscendingUnique(xs: seq<int>, ys: seq<int>)
    requires Ascending(xs) && Ascending(ys) && Elements(xs) == Elements(ys)
    ensures xs == ys
    decreases |xs|
  {
    assert forall y :: y in ys <==> y in Elements(ys);
    assert forall x :: x in xs <==> x in Elements(xs);
    assert xs != [] ==> xs[0] in Elements(ys);
    assert ys != [] ==> ys[0] in Elements(xs);
    if xs != [] {
      var x, y := xs[|xs| - 1], ys[|ys| - 1];
      assert x in ys && y in xs;
      var xs', ys' := xs[..|xs| - 1], ys[..|ys| - 1];
      assert Elements(xs') == Elements(xs) - {x};
      assert Elements(ys') == Elements(ys) - {y};
      AscendingUnique(xs', ys');
      assert xs == xs' + [x] && ys == ys' + [y];
    }
  }

  // The keys of a map taken in any order and sorted.
  method SortedKeys(keys: set<int>) returns (ids: seq<int>)
    ensures Ascending(ids) && Elements(ids) == keys
  {
    ids := [];
    var rest := keys;
    while rest != {}
      invariant rest <= keys && Ascending(ids) && Elements(ids) == keys - rest
      decreases rest
    {
      ghost var some := Member(rest);
      assert some in rest;
      var x :| x in rest;
      assert x !in Elements(ids);
      ids := Insert(ids, x);
      rest := rest - {x};
    }
  }

  function Insert(ids: seq<int>, x: int): (r: seq<int>)
    requires Ascending(ids) && x !in ids
    ensures Ascending(r) && Elements(r) == Elements(ids) + {x}
  {
    if ids == [] || ids[|ids| - 1] < x then
      SnocElements(ids, x);
      ids + [x]
    else
      var front, last := ids[..|ids| - 1], ids[|ids| - 1];
      SnocElements(front, last);
      assert ids == front + [last];
      var r := Insert(front, x);
      SnocElements(r, last);
      BelowLast(ids, x, r);
      r + [last]
  }

  lemma BelowLast(ids: seq<int>, x: int, r: seq<int>)
    requires ids != [] && Ascending(ids) && x < ids[|ids| - 1]
    requires Elements(r) == Elements(ids[..|ids| - 1]) + {x}
    ensures forall i :: 0 <= i < |r| ==> r[i] < ids[|ids| - 1]
  {
    forall i | 0 <= i < |r|
      ensures r[i] < ids[|ids| - 1]
    {
      assert r[i] in Elements(r);
    }
  }

  lemma Member<T>(s: set<T>) returns (x: T)
    requires s != {}
    ensures x in s
  {
    x :| x in s;
  }

  lemma SnocElements(xs: seq<int>, x: int)
    ensures Elements(xs + [x]) == Elements(xs) + {x}
  {
  }
}
