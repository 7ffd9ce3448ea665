/** internal/grading/spotcheck.go:83-118: what the seeded shuffle decides. Of each problem the
    sample holds the first leaves in the shuffled order, and no others. */
module SamplingShuffle {
  import opened Wrappers
  import opened Seqs
  import opened Ordering
  import opened Sampling
  import opened SamplingLaws

  // ---- prefixes ----

  // Whatever ends the loop, the picks of a problem are the next leaves of its group.
  lemma {:induction false} PicksArePrefix(keys: seq<int>, groups: seq<seq<Leaf>>, taken: seq<nat>, budget: nat, i: nat) returns (to: nat)
    requires Stratified(keys, groups) && Within(groups, taken) && i < |keys|
    ensures taken[i] <= to <= |groups[i]| && Group(Picks(keys, groups, taken, budget), keys[i]) == groups[i][taken[i]..to]
    decreases budget
  {
    hide *;
    LoopFits(keys, groups, taken);
    var best := Best(Sizes(groups), taken, |keys|);
    if budget > 0 {
      PicksNext(keys, groups, taken, budget);
    } else {
      PicksNone(keys, groups, taken, budget);
    }
    if budget == 0 || best == None || keys[best.value] == NO_PROBLEM {
      to := taken[i];
      GroupNothing(keys[i]);
    } else {
      var b := best.value;
      WithinRaised(groups, taken, b);
      to := PicksArePrefix(keys, groups, taken[b := taken[b] + 1], budget - 1, i);
      PickJoins(keys, groups, taken, b, Picks(keys, groups, taken[b := taken[b] + 1], budget - 1), to, i);
    }
  }

  lemma LoopFits(keys: seq<int>, groups: seq<seq<Leaf>>, taken: seq<nat>)
    requires Stratified(keys, groups) && Within(groups, taken)
    ensures |keys| == |groups| == |taken| && forall i :: 0 <= i < |groups| ==> taken[i] <= |groups[i]|
    ensures var best := Best(Sizes(groups), taken, |keys|);
            best.Some? ==> taken[best.value] < |groups[best.value]|
  {
  }

  // ---- a pool in words ----

  // The problems of a pool, ascending.
  ghost predicate ProblemsOf(pool: seq<Leaf>, keys: seq<int>) {
    Ascending(keys) && forall p :: p in keys <==> exists l :: l in pool && l.problem == p
  }

  // The leaves of a problem, by id.
  ghost predicate LeavesOf(pool: seq<Leaf>, p: int, group: seq<Leaf>) {
    && (forall a, b :: 0 <= a < b < |group| ==> group[a].id < group[b].id)
    && forall l :: l in group <==> l in pool && l.problem == p
  }

  // Where a problem's leaves are in a list.
  function PlacesOf(leaves: seq<Leaf>, p: int): set<nat> {
    set n: nat | n < |leaves| && leaves[n].problem == p
  }

  lemma GroupPlaces(leaves: seq<Leaf>, p: int)
    ensures |Group(leaves, p)| == |PlacesOf(leaves, p)|
  {
    KeptCount(leaves, OfProblem(p), PlacesOf(leaves, p));
  }

  lemma ProblemsAre(pool: seq<Leaf>, keys: seq<int>)
    requires ProblemsOf(pool, keys)
    ensures keys == Problems(SortLeaves(pool))
  {
    ProblemsSorted(pool);
    ProblemsMembers(pool);
    hide Problems, SortLeaves;
    forall p
      ensures p in Elements(keys) <==> p in Elements(Problems(pool))
    {
      assert (p in Elements(keys) <==> p in keys) && (p in Elements(Problems(pool)) <==> p in Problems(pool));
    }
    AscendingUnique(keys, Problems(pool));
  }

  // ---- a group by id ----

  function IdsIn(leaves: seq<Leaf>): (ids: seq<int>)
    ensures |ids| == |leaves|
  {
    seq(|leaves|, n requires 0 <= n < |leaves| => leaves[n].id)
  }

  predicate StrictById(leaves: seq<Leaf>) {
    forall a, b :: 0 <= a < b < |leaves| ==> leaves[a].id < leaves[b].id
  }

  lemma {:induction false} FilterKeepsOrder(leaves: seq<Leaf>, p: int)
    requires StrictById(leaves)
    ensures StrictById(Group(leaves, p)) && forall l :: l in Group(leaves, p) <==> l in leaves && l.problem == p
  {
    GroupMembers(leaves, p);
    if leaves != [] {
      var n := |leaves| - 1;
      FilterKeepsOrder(leaves[..n], p);
      assert leaves == leaves[..n] + [leaves[n]];
      GroupSnoc(leaves[..n], leaves[n]);
      hide Group;
      forall l | l in leaves[..n]
        ensures l.id < leaves[n].id
      {
        var k :| 0 <= k < n && leaves[k] == l;
      }
    } else {
      GroupNothing(p);
    }
  }

  lemma SameLeaves(pool: seq<Leaf>, a: seq<Leaf>, b: seq<Leaf>)
    requires DistinctIds(pool) && StrictById(a) && StrictById(b)
    requires (forall l :: l in a ==> l in pool) && forall l :: l in a <==> l in b
    ensures a == b
  {
    forall id
      ensures id in Elements(IdsIn(a)) <==> id in Elements(IdsIn(b))
    {
      SameId(a, b, id);
      SameId(b, a, id);
    }
    AscendingUnique(IdsIn(a), IdsIn(b));
    forall n | 0 <= n < |a|
      ensures a[n] == b[n]
    {
      assert IdsIn(a)[n] == IdsIn(b)[n];
      assert a[n] in pool && b[n] in pool;
      SameLeaf(pool, a[n], b[n]);
    }
  }

  lemma SameId(a: seq<Leaf>, b: seq<Leaf>, id: int)
    requires forall l :: l in a ==> l in b
    ensures id in Elements(IdsIn(a)) ==> id in Elements(IdsIn(b))
  {
    if id in Elements(IdsIn(a)) {
      assert id in IdsIn(a);
      var n :| 0 <= n < |a| && IdsIn(a)[n] == id;
      assert a[n] in a && a[n] in b;
      var m :| 0 <= m < |b| && b[m] == a[n];
      assert IdsIn(b)[m] == id;
    }
  }

  lemma SameLeaf(pool: seq<Leaf>, l: Leaf, q: Leaf)
    requires DistinctIds(pool) && l in pool && q in pool && l.id == q.id
    ensures l == q
  {
    var i :| 0 <= i < |pool| && pool[i] == l;
    var j :| 0 <= j < |pool| && pool[j] == q;
    assert i == j;
  }

  lemma SortedStrictly(pool: seq<Leaf>)
    requires DistinctIds(pool)
    ensures StrictById(SortLeaves(pool)) && forall l :: l in SortLeaves(pool) <==> l in pool
  {
    var sorted := SortLeaves(pool);
    SortLeavesSorts(pool);
    assert forall l :: l in pool <==> l in multiset(pool);
    assert forall l :: l in sorted <==> l in multiset(sorted);
    assert Apart(pool, LeafBefore);
    hide SortLeaves;
    ApartPermuted(pool, sorted, LeafBefore);
    forall a, b | 0 <= a < b < |sorted|
      ensures sorted[a].id < sorted[b].id
    {
      assert !LeafBefore(sorted[b], sorted[a]);
    }
  }

  lemma GroupIs(pool: seq<Leaf>, p: int, group: seq<Leaf>)
    requires DistinctIds(pool) && LeavesOf(pool, p, group)
    ensures group == Group(SortLeaves(pool), p)
  {
    SortedStrictly(pool);
    hide SortLeaves, Group;
    FilterKeepsOrder(SortLeaves(pool), p);
    SameLeaves(pool, group, Group(SortLeaves(pool), p));
  }

  // ---- a rearrangement ----

  lemma {:induction false} UptoCounts(n: nat, x: nat)
    ensures multiset(Upto(n))[x] <= 1
  {
    if n > 0 {
      UptoCounts(n - 1, x);
      var before := Upto(n - 1);
      assert Upto(n) == before + [n - 1];
      assert n - 1 !in before;
    }
  }

  lemma PermIsInjective(perm: seq<nat>, n: nat, a: nat, b: nat)
    requires Rearranges(perm, n) && a < b < n
    ensures perm[a] != perm[b]
  {
    UptoCounts(n, perm[a]);
    if perm[a] == perm[b] {
      Twice(perm, a, b);
    }
  }

  lemma Twice<T>(xs: seq<T>, i: nat, j: nat)
    requires i < j < |xs| && xs[i] == xs[j]
    ensures multiset(xs)[xs[i]] >= 2
  {
    assert xs == xs[..j] + [xs[j]] + xs[j + 1..];
    assert xs[i] == xs[..j][i];
    assert xs[i] in multiset(xs[..j]);
  }

  // Of a rearranged group, the leaf at place j is among the first ones exactly when j is.
  lemma AmongFirst(group: seq<Leaf>, perm: seq<nat>, to: nat, j: nat)
    requires Rearranges(perm, |group|) && StrictById(group) && to <= |group| && j < |group|
    ensures group[perm[j]] in Rearranged(group, perm)[..to] <==> j < to
  {
    var shuffled := Rearranged(group, perm);
    assert forall k :: 0 <= k < |group| ==> shuffled[k] == group[perm[k]];
    if j < to {
      assert shuffled[..to][j] == group[perm[j]];
    } else if group[perm[j]] in shuffled[..to] {
      var k :| 0 <= k < to && shuffled[..to][k] == group[perm[j]];
      LeavesApart(group, perm, k, j);
    }
  }

  lemma LeavesApart(group: seq<Leaf>, perm: seq<nat>, k: nat, j: nat)
    requires Rearranges(perm, |group|) && StrictById(group) && k < j < |group|
    ensures group[perm[k]] != group[perm[j]]
  {
    PermIsInjective(perm, |group|, k, j);
    assert perm[k] < perm[j] || perm[j] < perm[k];
    assert group[perm[k]].id != group[perm[j]].id;
  }

  // ---- what the shuffle decides ----

  lemma ChosenPrefix(shuffle: Shuffle, seed: int, pool: seq<Leaf>, target: nat, i: nat) returns (to: nat)
    requires ShufflesPool(shuffle, seed, pool) && i < |Problems(SortLeaves(pool))|
    ensures var group := Drawn(shuffle, seed, pool)[i];
            to <= |group| && Group(Chosen(shuffle, seed, pool, target), Problems(SortLeaves(pool))[i]) == group[..to]
  {
    DrawnSizes(shuffle, seed, pool);
    hide Problems, SortLeaves, Drawn, ShufflesPool, Group, Picks, Stratified, Within, Sizes;
    var groups := Drawn(shuffle, seed, pool);
    to := PicksArePrefix(Problems(SortLeaves(pool)), groups, Zeros(|groups|), target, i);
  }

  lemma SizesAre(pool: seq<Leaf>, keys: seq<int>, sizes: seq<nat>)
    requires |sizes| == |keys| && forall n :: 0 <= n < |keys| ==> sizes[n] == |PlacesOf(pool, keys[n])|
    ensures sizes == Sizes(Groups(SortLeaves(pool), keys))
  {
    SortLeavesSorts(pool);
    hide SortLeaves, Group;
    forall n | 0 <= n < |keys|
      ensures sizes[n] == |Group(SortLeaves(pool), keys[n])|
    {
      GroupPlaces(pool, keys[n]);
      GroupPermuted(SortLeaves(pool), pool, keys[n]);
    }
  }

  lemma InChosen(leaves: seq<Leaf>, chosen: seq<Leaf>, l: Leaf)
    requires multiset(leaves) == multiset(chosen)
    ensures l in leaves <==> l in Group(chosen, l.problem)
    ensures |Group(chosen, l.problem)| == |PlacesOf(leaves, l.problem)|
  {
    GroupMembers(chosen, l.problem);
    GroupPlaces(leaves, l.problem);
    GroupPermuted(leaves, chosen, l.problem);
    hide Group;
    assert l in multiset(leaves) <==> l in multiset(chosen);
  }

  // For a pool with distinct ids, one problem of it, and its leaves by id: the sample holds the
  // leaf that the shuffle puts at place j of them exactly when j is below the number of leaves
  // the sample has of that problem.
  lemma ShuffleDecides(shuffle: Shuffle, seed: int, pool: seq<Leaf>, target: nat, keys: seq<int>, sizes: seq<nat>,
                       i: nat, group: seq<Leaf>, j: nat)
    requires ShufflesPool(shuffle, seed, pool) && DistinctIds(pool) && 0 < target < |pool|
    requires ProblemsOf(pool, keys) && |sizes| == |keys| && forall n :: 0 <= n < |keys| ==> sizes[n] == |PlacesOf(pool, keys[n])|
    requires i < |keys| && LeavesOf(pool, keys[i], group) && j < |group|
    ensures |shuffle(seed, sizes)| == |keys| && Rearranges(shuffle(seed, sizes)[i], |group|)
    ensures var sample := Sample(shuffle, seed, pool, target);
            group[shuffle(seed, sizes)[i][j]] in sample <==> j < |PlacesOf(sample, keys[i])|
  {
    ProblemsAre(pool, keys);
    SizesAre(pool, keys, sizes);
    GroupIs(pool, keys[i], group);
    DrawnIs(shuffle, seed, pool, i);
    hide SortLeaves, Problems, Group, Drawn, ShufflesPool, Chosen, Rearranged, Rearranges, PlacesOf;
    var perm := shuffle(seed, sizes)[i];
    var l := group[perm[j]];
    assert l in group && l.problem == keys[i];
    SampleIsChosen(shuffle, seed, pool, target);
    InChosen(Sample(shuffle, seed, pool, target), Chosen(shuffle, seed, pool, target), l);
    var to := ChosenPrefix(shuffle, seed, pool, target, i);
    AmongFirst(group, perm, to, j);
  }

  lemma DrawnIs(shuffle: Shuffle, seed: int, pool: seq<Leaf>, i: nat)
    requires ShufflesPool(shuffle, seed, pool) && i < |Problems(SortLeaves(pool))|
    ensures var groups := Groups(SortLeaves(pool), Problems(SortLeaves(pool)));
            var perm := shuffle(seed, Sizes(groups))[i];
            && |shuffle(seed, Sizes(groups))| == |groups| && groups[i] == Group(SortLeaves(pool), Problems(SortLeaves(pool))[i])
            && Rearranges(perm, |groups[i]|) && Drawn(shuffle, seed, pool)[i] == Rearranged(groups[i], perm)
  {
    hide SortLeaves, Problems, Group, Rearranged, Rearranges;
  }

  // A target the pool does not exceed takes all of it, by id.
  lemma WholePool(shuffle: Shuffle, seed: int, pool: seq<Leaf>, target: nat)
    requires ShufflesPool(shuffle, seed, pool) && 0 < target && target >= |pool|
    ensures var sample := Sample(shuffle, seed, pool, target);
            multiset(sample) == multiset(pool) && forall a, b :: 0 <= a < b < |sample| ==> sample[a].id <= sample[b].id
  {
    SortLeavesSorts(pool);
    hide SortLeaves;
    var sample := Sample(shuffle, seed, pool, target);
    forall a, b | 0 <= a < b < |sample|
      ensures sample[a].id <= sample[b].id
    {
      assert !LeafBefore(sample[b], sample[a]);
    }
  }
}
