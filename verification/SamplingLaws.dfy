/** What the samplers promise: an even share for every problem, exactly as many members as asked
    for, and the same sample whatever order the pool came in. */
module SamplingLaws {
  import opened Wrappers
  import opened Seqs
  import opened Ordering
  import opened Sampling

  // ---- sorting ----

  lemma LeavesOrder()
    ensures Orders(LeafBefore)
  {
  }

  lemma SortLeavesSorts(leaves: seq<Leaf>)
    ensures ById(SortLeaves(leaves)) && multiset(SortLeaves(leaves)) == multiset(leaves)
    ensures |SortLeaves(leaves)| == |leaves|
  {
    LeavesOrder();
    SortSorts(leaves, LeafBefore);
  }

  // The sample does not depend on the order of the pool.
  lemma SampleAnyOrder(shuffle: Shuffle, seed: int, pool: seq<Leaf>, pool': seq<Leaf>, target: nat)
    requires multiset(pool) == multiset(pool') && DistinctIds(pool)
    requires ShufflesPool(shuffle, seed, pool)
    ensures ShufflesPool(shuffle, seed, pool') && Sample(shuffle, seed, pool, target) == Sample(shuffle, seed, pool', target)
  {
    LeavesOrder();
    SortAnyOrder(pool, pool', LeafBefore);
    assert |multiset(pool)| == |pool| && |multiset(pool')| == |pool'|;
    hide SortLeaves, Problems, Groups, Shuffled, Picks, Rearranges;
  }

  // ---- water-filling, on sizes alone ----

  function Min(a: int, b: int): int {
    if a < b then a else b
  }

  function Total(xs: seq<nat>): nat {
    if xs == [] then 0 else Total(xs[..|xs| - 1]) + xs[|xs| - 1]
  }

  lemma {:induction false} TotalRaised(xs: seq<nat>, i: nat)
    requires i < |xs|
    ensures Total(xs[i := xs[i] + 1]) == Total(xs) + 1
  {
    var n := |xs| - 1;
    var ys := xs[i := xs[i] + 1];
    if i < n {
      TotalRaised(xs[..n], i);
      assert ys[..n] == xs[..n][i := xs[i] + 1];
    } else {
      assert ys[..n] == xs[..n];
    }
  }

  lemma {:induction false} TotalBelow(xs: seq<nat>, ys: seq<nat>)
    requires |xs| == |ys| && forall i :: 0 <= i < |xs| ==> xs[i] <= ys[i]
    ensures Total(xs) <= Total(ys)
  {
    if xs != [] {
      TotalBelow(xs[..|xs| - 1], ys[..|ys| - 1]);
    }
  }

  // The group to take from is the first of the least taken among those with leaves left.
  lemma {:induction false} BestIsLeast(sizes: seq<nat>, taken: seq<nat>, n: nat)
    requires n <= |sizes| == |taken|
    ensures var best := Best(sizes, taken, n);
            if best == None then forall i :: 0 <= i < n ==> taken[i] >= sizes[i]
            else forall i :: 0 <= i < n && taken[i] < sizes[i] ==>
                   taken[best.value] <= taken[i] && (i < best.value ==> taken[best.value] < taken[i])
  {
    if n > 0 {
      BestIsLeast(sizes, taken, n - 1);
    }
  }

  // Every group gave level leaves, or one more before the cursor, as far as it had them.
  predicate Level(sizes: seq<nat>, taken: seq<nat>, level: nat, cursor: nat) {
    && |sizes| == |taken| && cursor <= |sizes|
    && forall i :: 0 <= i < |sizes| ==> taken[i] == Min(sizes[i], if i < cursor then level + 1 else level)
  }

  lemma LevelStep(sizes: seq<nat>, taken: seq<nat>, level: nat, cursor: nat) returns (level': nat, cursor': nat)
    requires Level(sizes, taken, level, cursor) && Best(sizes, taken, |sizes|).Some?
    ensures var b := Best(sizes, taken, |sizes|).value;
            Level(sizes, taken[b := taken[b] + 1], level', cursor')
  {
    var b := Best(sizes, taken, |sizes|).value;
    BestIsLeast(sizes, taken, |sizes|);
    hide Best;
    level', cursor' := (if b < cursor then level + 1 else level), b + 1;
  }

  // What each group will have given once the budget is spent.
  function Fill(sizes: seq<nat>, taken: seq<nat>, budget: nat): (r: seq<nat>)
    requires |sizes| == |taken|
    ensures |r| == |taken|
    decreases budget
  {
    if budget == 0 then taken
    else match Best(sizes, taken, |sizes|)
      case None => taken
      case Some(i) => Fill(sizes, taken[i := taken[i] + 1], budget - 1)
  }

  lemma {:induction false} FillLevels(sizes: seq<nat>, taken: seq<nat>, budget: nat, level: nat, cursor: nat)
    returns (level': nat, cursor': nat)
    requires Level(sizes, taken, level, cursor) && Total(taken) + budget <= Total(sizes)
    ensures Level(sizes, Fill(sizes, taken, budget), level', cursor')
    ensures Total(Fill(sizes, taken, budget)) == Total(taken) + budget
    decreases budget
  {
    level', cursor' := level, cursor;
    FillNext(sizes, taken, budget);
    hide Fill;
    if budget > 0 {
      BestIsLeast(sizes, taken, |sizes|);
      if Best(sizes, taken, |sizes|) == None {
        TotalBelow(sizes, taken);
      } else {
        var b := Best(sizes, taken, |sizes|).value;
        level', cursor' := LevelStep(sizes, taken, level, cursor);
        TotalRaised(taken, b);
        hide Best, Level, Total;
        level', cursor' := FillLevels(sizes, taken[b := taken[b] + 1], budget - 1, level', cursor');
      }
    }
  }

  lemma {:induction false} TotalZeros(n: nat)
    ensures Total(Zeros(n)) == 0
  {
    if n > 0 {
      TotalZeros(n - 1);
      assert Zeros(n)[..n - 1] == Zeros(n - 1);
    }
  }

  // ---- what is picked ----

  lemma GroupConcat(a: seq<Leaf>, b: seq<Leaf>, p: int)
    ensures Group(a + b, p) == Group(a, p) + Group(b, p)
  {
    FlatMapConcat(a, b, OfProblem(p));
  }

  lemma GroupOne(l: Leaf, p: int)
    ensures Group([l], p) == if l.problem == p then [l] else []
  {
    GroupNothing(p);
    GroupSnoc([], l);
    assert [] + [l] == [l];
  }

  ghost predicate Stratified(keys: seq<int>, groups: seq<seq<Leaf>>) {
    && |keys| == |groups| && Ascending(keys)
    && forall i, l :: 0 <= i < |keys| && l in groups[i] ==> l.problem == keys[i]
  }

  ghost predicate Within(groups: seq<seq<Leaf>>, taken: seq<nat>) {
    |groups| == |taken| && forall i :: 0 <= i < |groups| ==> taken[i] <= |groups[i]|
  }

  lemma WithinRaised(groups: seq<seq<Leaf>>, taken: seq<nat>, b: nat)
    requires Within(groups, taken) && b < |groups| && taken[b] < |groups[b]|
    ensures Within(groups, taken[b := taken[b] + 1])
  {
  }

  // The picks of one problem are the next leaves of its group, as many as filling gives it.
  lemma {:induction false} PicksOfGroup(keys: seq<int>, groups: seq<seq<Leaf>>, taken: seq<nat>, budget: nat, i: nat)
    requires Stratified(keys, groups) && Within(groups, taken) && NO_PROBLEM !in keys && i < |keys|
    ensures var filled := Fill(Sizes(groups), taken, budget);
            taken[i] <= filled[i] <= |groups[i]| && Group(Picks(keys, groups, taken, budget), keys[i]) == groups[i][taken[i]..filled[i]]
    decreases budget
  {
    hide *;
    BestFits(keys, groups, taken);
    var best := Best(Sizes(groups), taken, |keys|);
    FillNext(Sizes(groups), taken, budget);
    if budget == 0 || best == None {
      PicksNone(keys, groups, taken, budget);
      GroupNothing(keys[i]);
    } else {
      var b := best.value;
      var taken' := taken[b := taken[b] + 1];
      PicksNext(keys, groups, taken, budget);
      WithinRaised(groups, taken, b);
      PicksOfGroup(keys, groups, taken', budget - 1, i);
      PickJoins(keys, groups, taken, b, Picks(keys, groups, taken', budget - 1), Fill(Sizes(groups), taken', budget - 1)[i], i);
    }
  }

  lemma BestFits(keys: seq<int>, groups: seq<seq<Leaf>>, taken: seq<nat>)
    requires Stratified(keys, groups) && Within(groups, taken) && NO_PROBLEM !in keys
    ensures |keys| == |groups| == |taken| && forall i :: 0 <= i < |groups| ==> taken[i] <= |groups[i]|
    ensures var best := Best(Sizes(groups), taken, |keys|);
            best.Some? ==> taken[best.value] < |groups[best.value]| && keys[best.value] != NO_PROBLEM
  {
  }

  lemma PickJoins(keys: seq<int>, groups: seq<seq<Leaf>>, taken: seq<nat>, b: nat, rest: seq<Leaf>, to: nat, i: nat)
    requires Stratified(keys, groups) && Within(groups, taken) && i < |keys| && b < |keys| && taken[b] < |groups[b]|
    requires var from := taken[b := taken[b] + 1][i];
             from <= to <= |groups[i]| && Group(rest, keys[i]) == groups[i][from..to]
    ensures Group([groups[b][taken[b]]] + rest, keys[i]) == groups[i][taken[i]..to]
  {
    var x := groups[b][taken[b]];
    assert x in groups[b] && x.problem == keys[b];
    assert b != i ==> keys[b] != keys[i];
    hide *;
    JoinPick(x, rest, keys[i], groups[i], taken[i], to);
  }

  lemma JoinPick(l: Leaf, rest: seq<Leaf>, p: int, group: seq<Leaf>, from: nat, to: nat)
    requires from <= to <= |group|
    requires if l.problem == p then from < to && l == group[from] && Group(rest, p) == group[from + 1..to]
             else Group(rest, p) == group[from..to]
    ensures Group([l] + rest, p) == group[from..to]
  {
    hide Group;
    GroupCons(l, rest, p);
    if l.problem == p {
      SliceCons(group, from, to);
    }
  }

  lemma GroupCons(l: Leaf, rest: seq<Leaf>, p: int)
    ensures Group([l] + rest, p) == (if l.problem == p then [l] else []) + Group(rest, p)
  {
    hide Group;
    GroupConcat([l], rest, p);
    GroupOne(l, p);
  }

  lemma SliceCons(group: seq<Leaf>, from: nat, to: nat)
    requires from < to <= |group|
    ensures [group[from]] + group[from + 1..to] == group[from..to]
  {
  }

  lemma FillNext(sizes: seq<nat>, taken: seq<nat>, budget: nat)
    requires |sizes| == |taken|
    ensures var best := Best(sizes, taken, |sizes|);
            Fill(sizes, taken, budget)
            == if budget == 0 || best == None then taken else Fill(sizes, taken[best.value := taken[best.value] + 1], budget - 1)
  {
  }

  lemma GroupNothing(p: int)
    ensures Group([], p) == []
  {
  }

  lemma {:induction false} PicksLength(keys: seq<int>, groups: seq<seq<Leaf>>, taken: seq<nat>, budget: nat)
    requires |keys| == |groups| == |taken| && NO_PROBLEM !in keys
    ensures |Picks(keys, groups, taken, budget)| == Total(Fill(Sizes(groups), taken, budget)) - Total(taken)
    decreases budget
  {
    var best := Best(Sizes(groups), taken, |keys|);
    if budget > 0 && best.Some? {
      TotalRaised(taken, best.value);
      PicksLength(keys, groups, taken[best.value := taken[best.value] + 1], budget - 1);
      hide Total, Best;
    }
  }

  lemma {:induction false} PicksBelong(keys: seq<int>, groups: seq<seq<Leaf>>, taken: seq<nat>, budget: nat, l: Leaf)
    requires |keys| == |groups| == |taken| && l in Picks(keys, groups, taken, budget)
    ensures exists i :: 0 <= i < |groups| && l in groups[i]
    decreases budget
  {
    var b := Best(Sizes(groups), taken, |keys|).value;
    var rest := Picks(keys, groups, taken[b := taken[b] + 1], budget - 1);
    assert Picks(keys, groups, taken, budget) == [groups[b][taken[b]]] + rest;
    hide Best, Picks;
    if l == groups[b][taken[b]] {
      assert l in groups[b];
    } else {
      PicksBelong(keys, groups, taken[b := taken[b] + 1], budget - 1, l);
    }
  }

  // ---- the strata of a pool ----

  lemma GroupSizesSnoc(leaves: seq<Leaf>, keys: seq<int>, l: Leaf) returns (j: nat)
    requires Ascending(keys) && l.problem in keys
    ensures j < |keys| && keys[j] == l.problem
    ensures var sizes := Sizes(Groups(leaves, keys));
            Sizes(Groups(leaves + [l], keys)) == sizes[j := sizes[j] + 1]
  {
    j :| j < |keys| && keys[j] == l.problem;
    GroupSnoc(leaves, l);
    assert forall i :: 0 <= i < |keys| && i != j ==> keys[i] != keys[j];
    hide Group, Ascending;
  }

  lemma {:induction false} GroupSizes(leaves: seq<Leaf>, keys: seq<int>)
    requires Ascending(keys) && forall l :: l in leaves ==> l.problem in keys
    ensures Total(Sizes(Groups(leaves, keys))) == |leaves|
  {
    if leaves == [] {
      assert Sizes(Groups(leaves, keys)) == Zeros(|keys|);
      TotalZeros(|keys|);
    } else {
      var rest, last := leaves[..|leaves| - 1], leaves[|leaves| - 1];
      assert leaves == rest + [last] && last in leaves;
      hide Total, Sizes, Groups, Ascending;
      GroupSizes(rest, keys);
      var j := GroupSizesSnoc(rest, keys, last);
      TotalRaised(Sizes(Groups(rest, keys)), j);
    }
  }

  lemma {:induction false} GroupMembers(leaves: seq<Leaf>, p: int)
    ensures forall l :: l in Group(leaves, p) <==> l in leaves && l.problem == p
  {
    if leaves != [] {
      GroupMembers(leaves[..|leaves| - 1], p);
      assert leaves == leaves[..|leaves| - 1] + [leaves[|leaves| - 1]];
    }
  }

  lemma {:induction false} GroupCount(leaves: seq<Leaf>, l: Leaf)
    ensures multiset(leaves)[l] == multiset(Group(leaves, l.problem))[l]
  {
    if leaves != [] {
      GroupCount(leaves[..|leaves| - 1], l);
      assert leaves == leaves[..|leaves| - 1] + [leaves[|leaves| - 1]];
    }
  }

  lemma {:induction false} ProblemsMembers(leaves: seq<Leaf>)
    ensures forall p :: p in Problems(leaves) <==> exists l :: l in leaves && l.problem == p
  {
    hide Insert;
    if leaves != [] {
      var rest, last := leaves[..|leaves| - 1], leaves[|leaves| - 1];
      ProblemsMembers(rest);
      ProblemsSnoc(rest, last);
      assert leaves == rest + [last];
      forall p
        ensures p in Problems(leaves) <==> exists l :: l in leaves && l.problem == p
      {
        assert p in Problems(leaves) <==> p in Elements(Problems(leaves));
        assert p in Problems(rest) <==> p in Elements(Problems(rest));
        assert last in leaves;
        assert forall l :: l in leaves <==> l in rest || l == last;
      }
    }
  }

  function At(group: seq<Leaf>): nat -> seq<Leaf> {
    (i: nat) => if i < |group| then [group[i]] else []
  }

  lemma {:induction false} FlatMapAt(group: seq<Leaf>, perm: seq<nat>)
    requires forall i :: 0 <= i < |perm| ==> perm[i] < |group|
    ensures |FlatMap(perm, At(group))| == |perm|
    ensures forall i :: 0 <= i < |perm| ==> FlatMap(perm, At(group))[i] == group[perm[i]]
  {
    if perm != [] {
      var rest := perm[..|perm| - 1];
      FlatMapAt(group, rest);
      assert FlatMap(perm, At(group)) == FlatMap(rest, At(group)) + [group[perm[|perm| - 1]]];
      hide FlatMap;
    }
  }

  lemma RearrangedBag(group: seq<Leaf>, perm: seq<nat>)
    requires Rearranges(perm, |group|)
    ensures multiset(Rearranged(group, perm)) == multiset(group)
  {
    hide FlatMap;
    FlatMapPermuted(perm, Upto(|group|), At(group));
    FlatMapAt(group, perm);
    FlatMapAt(group, Upto(|group|));
    assert FlatMap(perm, At(group)) == Rearranged(group, perm);
    assert FlatMap(Upto(|group|), At(group)) == group;
  }

  // ---- the samples ----

  // The shuffled groups of a pool, ready to be drawn from.
  function Drawn(shuffle: Shuffle, seed: int, pool: seq<Leaf>): (groups: seq<seq<Leaf>>)
    requires ShufflesPool(shuffle, seed, pool)
    ensures |groups| == |Problems(SortLeaves(pool))|
  {
    var sorted := SortLeaves(pool);
    Shuffled(shuffle, seed, Groups(sorted, Problems(sorted)))
  }

  lemma DrawnGroup(shuffle: Shuffle, seed: int, pool: seq<Leaf>, i: nat)
    requires ShufflesPool(shuffle, seed, pool) && i < |Problems(SortLeaves(pool))|
    ensures var p := Problems(SortLeaves(pool))[i];
            var group := Drawn(shuffle, seed, pool)[i];
            multiset(group) == multiset(Group(pool, p)) && |group| == |Group(pool, p)| && (forall l :: l in group ==> l.problem == p)
  {
    var sorted := SortLeaves(pool);
    var keys := Problems(sorted);
    var groups := Groups(sorted, keys);
    RearrangedBag(groups[i], shuffle(seed, Sizes(groups))[i]);
    SortLeavesSorts(pool);
    hide SortLeaves, Problems, Rearranges, Rearranged;
    FlatMapPermuted(sorted, pool, OfProblem(keys[i]));
    GroupMembers(sorted, keys[i]);
    var group := Drawn(shuffle, seed, pool)[i];
    assert |multiset(group)| == |group| && |multiset(Group(pool, keys[i]))| == |Group(pool, keys[i])|;
    forall l | l in group
      ensures l.problem == keys[i]
    {
      assert l in multiset(group) && l in multiset(groups[i]);
    }
  }

  lemma DrawnSizes(shuffle: Shuffle, seed: int, pool: seq<Leaf>)
    requires ShufflesPool(shuffle, seed, pool)
    ensures var keys := Problems(SortLeaves(pool));
            var groups := Drawn(shuffle, seed, pool);
            Stratified(keys, groups) && Within(groups, Zeros(|keys|)) && Total(Sizes(groups)) == |pool|
  {
    var sorted := SortLeaves(pool);
    var keys := Problems(sorted);
    var groups := Drawn(shuffle, seed, pool);
    SortLeavesSorts(pool);
    ProblemsMembers(sorted);
    GroupSizes(sorted, keys);
    assert Sizes(groups) == Sizes(Groups(sorted, keys));
    hide SortLeaves, Problems, Rearranges, Drawn, ShufflesPool;
    forall i, l: Leaf | 0 <= i < |keys| && l in groups[i]
      ensures l.problem == keys[i]
    {
      DrawnGroup(shuffle, seed, pool, i);
    }
  }

  // The leaf counts of a sample: for some level every problem gives min(size, level) leaves, or
  // min(size, level + 1) when it comes before the cursor.
  ghost predicate EvenShare(pool: seq<Leaf>, sample: seq<Leaf>, keys: seq<int>, level: nat, cursor: nat) {
    cursor <= |keys|
    && forall i :: 0 <= i < |keys| ==>
         |Group(sample, keys[i])| == Min(|Group(pool, keys[i])|, if i < cursor then level + 1 else level)
  }

  lemma ProblemsSorted(pool: seq<Leaf>)
    ensures Problems(SortLeaves(pool)) == Problems(pool)
  {
    SortLeavesSorts(pool);
    ProblemsMembers(pool);
    ProblemsMembers(SortLeaves(pool));
    var a, b := Problems(SortLeaves(pool)), Problems(pool);
    assert forall l :: l in pool <==> l in multiset(pool);
    assert forall l :: l in SortLeaves(pool) <==> l in multiset(SortLeaves(pool));
    hide SortLeaves, Problems;
    assert Elements(a) == Elements(b);
    AscendingUnique(a, b);
  }

  // How many leaves each problem gives to a sample.
  function Shares(shuffle: Shuffle, seed: int, pool: seq<Leaf>, target: nat): (r: seq<nat>)
    requires ShufflesPool(shuffle, seed, pool)
    ensures |r| == |Problems(SortLeaves(pool))|
  {
    var groups := Drawn(shuffle, seed, pool);
    Fill(Sizes(groups), Zeros(|groups|), target)
  }

  function Chosen(shuffle: Shuffle, seed: int, pool: seq<Leaf>, target: nat): seq<Leaf>
    requires ShufflesPool(shuffle, seed, pool)
  {
    var groups := Drawn(shuffle, seed, pool);
    Picks(Problems(SortLeaves(pool)), groups, Zeros(|groups|), target)
  }

  lemma ChosenOfProblem(shuffle: Shuffle, seed: int, pool: seq<Leaf>, target: nat, i: nat)
    requires ShufflesPool(shuffle, seed, pool) && i < |Problems(SortLeaves(pool))| && NO_PROBLEM !in Problems(SortLeaves(pool))
    ensures var share := Shares(shuffle, seed, pool, target)[i];
            var group := Drawn(shuffle, seed, pool)[i];
            share <= |group| && Group(Chosen(shuffle, seed, pool, target), Problems(SortLeaves(pool))[i]) == group[..share]
  {
    DrawnSizes(shuffle, seed, pool);
    hide Problems, SortLeaves, Drawn, ShufflesPool, Group, Picks, Fill, Stratified, Within, Sizes;
    var groups := Drawn(shuffle, seed, pool);
    PicksOfGroup(Problems(SortLeaves(pool)), groups, Zeros(|groups|), target, i);
  }

  lemma SharesAreEven(shuffle: Shuffle, seed: int, pool: seq<Leaf>, target: nat) returns (level: nat, cursor: nat)
    requires ShufflesPool(shuffle, seed, pool) && target <= |pool| && NO_PROBLEM !in Problems(SortLeaves(pool))
    ensures Level(Sizes(Drawn(shuffle, seed, pool)), Shares(shuffle, seed, pool, target), level, cursor)
    ensures |Chosen(shuffle, seed, pool, target)| == target
  {
    DrawnSizes(shuffle, seed, pool);
    var groups := Drawn(shuffle, seed, pool);
    TotalZeros(|groups|);
    assert Level(Sizes(groups), Zeros(|groups|), 0, 0);
    hide Problems, SortLeaves, Drawn, ShufflesPool, Picks, Fill, Stratified, Within, Sizes, Level, Total;
    level, cursor := FillLevels(Sizes(groups), Zeros(|groups|), target, 0, 0);
    PicksLength(Problems(SortLeaves(pool)), groups, Zeros(|groups|), target);
  }

  lemma SampleIsChosen(shuffle: Shuffle, seed: int, pool: seq<Leaf>, target: nat)
    requires ShufflesPool(shuffle, seed, pool) && 0 < target < |pool|
    ensures var sample := Sample(shuffle, seed, pool, target);
            && sample == SortLeaves(Chosen(shuffle, seed, pool, target)) && ById(sample)
            && multiset(sample) == multiset(Chosen(shuffle, seed, pool, target))
            && |sample| == |Chosen(shuffle, seed, pool, target)|
            && forall p :: |Group(sample, p)| == |Group(Chosen(shuffle, seed, pool, target), p)|
  {
    var chosen := Chosen(shuffle, seed, pool, target);
    var sample := SortLeaves(chosen);
    assert sample == Sample(shuffle, seed, pool, target);
    SortLeavesSorts(chosen);
    hide *;
    forall p
      ensures |Group(sample, p)| == |Group(chosen, p)|
    {
      GroupPermuted(sample, chosen, p);
    }
  }

  lemma GroupPermuted(a: seq<Leaf>, b: seq<Leaf>, p: int)
    requires multiset(a) == multiset(b)
    ensures |Group(a, p)| == |Group(b, p)| && multiset(Group(a, p)) == multiset(Group(b, p))
  {
    hide FlatMap;
    FlatMapPermuted(a, b, OfProblem(p));
    assert |multiset(Group(a, p))| == |Group(a, p)| && |multiset(Group(b, p))| == |Group(b, p)|;
  }

  lemma ChosenShares(shuffle: Shuffle, seed: int, pool: seq<Leaf>, target: nat, i: nat)
    requires ShufflesPool(shuffle, seed, pool) && i < |Problems(pool)| && NO_PROBLEM !in Problems(pool)
    ensures |Shares(shuffle, seed, pool, target)| == |Problems(pool)| == |Drawn(shuffle, seed, pool)|
    ensures |Group(Chosen(shuffle, seed, pool, target), Problems(pool)[i])| == Shares(shuffle, seed, pool, target)[i]
    ensures Sizes(Drawn(shuffle, seed, pool))[i] == |Group(pool, Problems(pool)[i])|
  {
    ProblemsSorted(pool);
    hide Problems, SortLeaves, Chosen, Shares, Drawn, ShufflesPool, Group;
    ChosenOfProblem(shuffle, seed, pool, target, i);
    DrawnGroup(shuffle, seed, pool, i);
  }

  // Every member of the sample is one of the pool, and no more often there.
  lemma SampleBelongs(shuffle: Shuffle, seed: int, pool: seq<Leaf>, target: nat, l: Leaf)
    requires ShufflesPool(shuffle, seed, pool) && NO_PROBLEM !in Problems(pool)
    ensures multiset(Chosen(shuffle, seed, pool, target))[l] <= multiset(pool)[l]
  {
    var chosen := Chosen(shuffle, seed, pool, target);
    var groups := Drawn(shuffle, seed, pool);
    var keys := Problems(SortLeaves(pool));
    ProblemsSorted(pool);
    if l in chosen {
      PicksBelong(keys, groups, Zeros(|groups|), target, l);
      hide Problems, SortLeaves, Chosen, Shares, Drawn, ShufflesPool, Group;
      var i :| 0 <= i < |groups| && l in groups[i];
      DrawnGroup(shuffle, seed, pool, i);
      ChosenOfProblem(shuffle, seed, pool, target, i);
      var share := Shares(shuffle, seed, pool, target)[i];
      GroupCount(chosen, l);
      GroupCount(pool, l);
      PrefixBag(groups[i], share);
    }
  }

  lemma PrefixBag(group: seq<Leaf>, k: nat)
    requires k <= |group|
    ensures multiset(group[..k]) <= multiset(group)
  {
    assert group == group[..k] + group[k..];
  }

  lemma {:induction false} AllOnes(xs: seq<nat>)
    requires Total(xs) >= |xs| && forall i :: 0 <= i < |xs| ==> xs[i] <= 1
    ensures forall i :: 0 <= i < |xs| ==> xs[i] == 1
  {
    if xs != [] {
      AtMostOnes(xs[..|xs| - 1]);
      AllOnes(xs[..|xs| - 1]);
    }
  }

  lemma {:induction false} AtMostOnes(xs: seq<nat>)
    requires forall i :: 0 <= i < |xs| ==> xs[i] <= 1
    ensures Total(xs) <= |xs|
  {
    if xs != [] {
      AtMostOnes(xs[..|xs| - 1]);
    }
  }

  // With a leaf to spare for every problem, none is left out.
  lemma CoversAll(sizes: seq<nat>, shares: seq<nat>, level: nat, cursor: nat)
    requires Level(sizes, shares, level, cursor) && Total(shares) >= |sizes|
    requires forall i :: 0 <= i < |sizes| ==> sizes[i] >= 1
    ensures forall i :: 0 <= i < |sizes| ==> shares[i] >= 1
  {
    if level == 0 {
      AllOnes(shares);
    }
  }

  lemma ProblemHasLeaf(pool: seq<Leaf>, i: nat)
    requires i < |Problems(pool)|
    ensures |Group(pool, Problems(pool)[i])| >= 1
  {
    var p := Problems(pool)[i];
    assert p in Problems(pool);
    hide Problems, Group;
    ProblemsMembers(pool);
    GroupMembers(pool, p);
    var l :| l in pool && l.problem == p;
    assert l in Group(pool, p);
  }

  lemma SharesTotal(shuffle: Shuffle, seed: int, pool: seq<Leaf>, target: nat)
    requires ShufflesPool(shuffle, seed, pool) && NO_PROBLEM !in Problems(SortLeaves(pool))
    ensures Total(Shares(shuffle, seed, pool, target)) == |Chosen(shuffle, seed, pool, target)|
  {
    var groups := Drawn(shuffle, seed, pool);
    TotalZeros(|groups|);
    hide Problems, SortLeaves, Drawn, ShufflesPool, Picks, Fill, Total;
    PicksLength(Problems(SortLeaves(pool)), groups, Zeros(|groups|), target);
  }

  lemma ChosenIsFair(shuffle: Shuffle, seed: int, pool: seq<Leaf>, target: nat) returns (level: nat, cursor: nat)
    requires ShufflesPool(shuffle, seed, pool) && target <= |pool| && NO_PROBLEM !in Problems(pool)
    ensures var chosen := Chosen(shuffle, seed, pool, target);
            && |chosen| == target
            && EvenShare(pool, chosen, Problems(pool), level, cursor)
            && (target >= |Problems(pool)| ==> forall i :: 0 <= i < |Problems(pool)| ==> |Group(chosen, Problems(pool)[i])| >= 1)
  {
    var chosen := Chosen(shuffle, seed, pool, target);
    var shares, sizes := Shares(shuffle, seed, pool, target), Sizes(Drawn(shuffle, seed, pool));
    var keys := Problems(pool);
    ProblemsSorted(pool);
    assert |shares| == |keys|;
    hide Problems, SortLeaves, Chosen, Shares, Drawn, ShufflesPool, Group, Sizes, Total;
    level, cursor := SharesAreEven(shuffle, seed, pool, target);
    SharesTotal(shuffle, seed, pool, target);
    forall i | 0 <= i < |keys|
      ensures |Group(chosen, keys[i])| == shares[i] && sizes[i] == |Group(pool, keys[i])| >= 1
    {
      ChosenShares(shuffle, seed, pool, target, i);
      ProblemHasLeaf(pool, i);
    }
    if target >= |keys| {
      CoversAll(sizes, shares, level, cursor);
    }
  }

  // A sample short of the whole pool is exactly as large as asked for, holds pool members, each
  // no more often than the pool does, and shares evenly; a target of one per problem or more
  // leaves no problem out. The loop's "pool exhausted" exit is never taken.
  lemma SampleIsFair(shuffle: Shuffle, seed: int, pool: seq<Leaf>, target: nat) returns (level: nat, cursor: nat)
    requires ShufflesPool(shuffle, seed, pool) && 0 < target < |pool| && NO_PROBLEM !in Problems(pool)
    ensures var sample := Sample(shuffle, seed, pool, target);
            && |sample| == target && multiset(sample) <= multiset(pool) && ById(sample)
            && EvenShare(pool, sample, Problems(pool), level, cursor)
            && (target >= |Problems(pool)| ==> forall i :: 0 <= i < |Problems(pool)| ==> |Group(sample, Problems(pool)[i])| >= 1)
  {
    hide Sample, Problems, SortLeaves, Chosen, ShufflesPool, Group, ById, Min;
    SampleIsChosen(shuffle, seed, pool, target);
    level, cursor := ChosenIsFair(shuffle, seed, pool, target);
    forall l
      ensures multiset(Chosen(shuffle, seed, pool, target))[l] <= multiset(pool)[l]
    {
      SampleBelongs(shuffle, seed, pool, target, l);
    }
  }

  // ---- a problem numbered -1 ----

  function Ones(n: nat, c: nat): (r: seq<nat>)
    ensures |r| == n
  {
    seq(n, i requires 0 <= i < n => if i < c then 1 else 0)
  }

  lemma BestOfOnes(sizes: seq<nat>, c: nat)
    requires c < |sizes| && forall i :: 0 <= i < |sizes| ==> sizes[i] >= 1
    ensures Best(sizes, Ones(|sizes|, c), |sizes|) == Some(c)
  {
    var taken := Ones(|sizes|, c);
    BestIsLeast(sizes, taken, |sizes|);
    hide Best;
    assert taken[c] == 0 < sizes[c];
  }

  // Picking stops at the group with that key: the groups before it gave one leaf each.
  lemma {:induction false} StopsAtKey(keys: seq<int>, groups: seq<seq<Leaf>>, c: nat, m: nat, budget: nat)
    requires |keys| == |groups| && c <= m < |keys| && keys[m] == NO_PROBLEM && Ascending(keys)
    requires forall i :: 0 <= i < |groups| ==> |groups[i]| >= 1
    ensures |Picks(keys, groups, Ones(|keys|, c), budget)| == Min(budget, m - c)
    decreases budget
  {
    if budget > 0 {
      BestOfOnes(Sizes(groups), c);
      PicksNext(keys, groups, Ones(|keys|, c), budget);
      if c < m {
        assert keys[c] < keys[m];
        assert Ones(|keys|, c)[c := 1] == Ones(|keys|, c + 1);
        hide Picks, Best, Ones;
        StopsAtKey(keys, groups, c + 1, m, budget - 1);
      }
    }
  }

  lemma DrawnNonempty(shuffle: Shuffle, seed: int, pool: seq<Leaf>)
    requires ShufflesPool(shuffle, seed, pool)
    ensures forall i :: 0 <= i < |Drawn(shuffle, seed, pool)| ==> |Drawn(shuffle, seed, pool)[i]| >= 1
  {
    ProblemsSorted(pool);
    hide Problems, SortLeaves, Drawn, ShufflesPool, Group;
    forall i | 0 <= i < |Drawn(shuffle, seed, pool)|
      ensures |Drawn(shuffle, seed, pool)[i]| >= 1
    {
      DrawnGroup(shuffle, seed, pool, i);
      ProblemHasLeaf(pool, i);
    }
  }

  lemma ChosenStops(shuffle: Shuffle, seed: int, pool: seq<Leaf>, target: nat, m: nat)
    requires ShufflesPool(shuffle, seed, pool) && m < |Problems(pool)| && Problems(pool)[m] == NO_PROBLEM
    ensures |Chosen(shuffle, seed, pool, target)| == Min(target, m)
  {
    ProblemsSorted(pool);
    DrawnNonempty(shuffle, seed, pool);
    var keys := Problems(pool);
    var groups := Drawn(shuffle, seed, pool);
    assert Zeros(|keys|) == Ones(|keys|, 0);
    assert Chosen(shuffle, seed, pool, target) == Picks(keys, groups, Zeros(|keys|), target);
    hide Problems, SortLeaves, Chosen, Drawn, ShufflesPool, Picks, Ones;
    StopsAtKey(keys, groups, 0, m, target);
  }

  // A sample short of the pool is as large as asked for exactly when no problem is numbered -1,
  // or the target is used up by the problems before it.
  lemma SampleSizeIff(shuffle: Shuffle, seed: int, pool: seq<Leaf>, target: nat)
    requires ShufflesPool(shuffle, seed, pool) && 0 < target < |pool|
    ensures |Sample(shuffle, seed, pool, target)| == target <==>
            forall m :: 0 <= m < |Problems(pool)| && Problems(pool)[m] == NO_PROBLEM ==> target <= m
  {
    hide Sample, Problems, SortLeaves, Chosen, ShufflesPool;
    SampleIsChosen(shuffle, seed, pool, target);
    if NO_PROBLEM in Problems(pool) {
      var m :| 0 <= m < |Problems(pool)| && Problems(pool)[m] == NO_PROBLEM;
      ChosenStops(shuffle, seed, pool, target, m);
      assert forall i, j :: 0 <= i < j < |Problems(pool)| ==> Problems(pool)[i] < Problems(pool)[j];
    } else {
      ProblemsSorted(pool);
      var level, cursor := SharesAreEven(shuffle, seed, pool, target);
    }
  }

  // A run whose only problem is numbered -1 gets no spot-check sample, however many leaves it has,
  // once the sample is to be smaller than the pool.
  lemma MinusOneIsNeverSampled(shuffle: Shuffle, seed: int, pool: seq<Leaf>)
    requires ShufflesPool(shuffle, seed, pool) && |pool| > 5 && forall l :: l in pool ==> l.problem == NO_PROBLEM
    ensures 0 < SpotCheckSampleSize(|pool|) < |pool| && Sample(shuffle, seed, pool, SpotCheckSampleSize(|pool|)) == []
  {
    var target := SpotCheckSampleSize(|pool|);
    ProblemsMembers(pool);
    assert pool[0] in pool;
    assert Problems(pool)[0] in Problems(pool);
    hide Sample, Problems, SortLeaves, Chosen, ShufflesPool, SpotCheckSampleSize;
    ChosenStops(shuffle, seed, pool, target, 0);
    SampleIsChosen(shuffle, seed, pool, target);
  }

  // The shuffle that moves nothing.
  function Unshuffled(): Shuffle {
    (seed: int, sizes: seq<nat>) => seq(|sizes|, i requires 0 <= i < |sizes| => Upto(sizes[i]))
  }

  lemma UnshufflesPool(seed: int, pool: seq<Leaf>)
    ensures ShufflesPool(Unshuffled(), seed, pool)
  {
    var sorted := SortLeaves(pool);
    var groups := Groups(sorted, Problems(sorted));
    hide SortLeaves, Problems, Groups;
  }

  function SixLeaves(): seq<Leaf> {
    [Leaf(1, -1), Leaf(2, -1), Leaf(3, -1), Leaf(4, -1), Leaf(5, -1), Leaf(6, -1)]
  }

  // Six leaves of problem -1: five are asked for and none is picked.
  lemma SixLeavesNoSample(seed: int)
    ensures ShufflesPool(Unshuffled(), seed, SixLeaves())
    ensures SpotCheckSampleSize(6) == 5 && Sample(Unshuffled(), seed, SixLeaves(), 5) == []
  {
    UnshufflesPool(seed, SixLeaves());
    hide Sample, ShufflesPool, Unshuffled;
    MinusOneIsNeverSampled(Unshuffled(), seed, SixLeaves());
  }
}
