/** internal/grading/spotcheck.go and internal/grading/sample.go: a stratified sample, drawn by
    always taking from the problem with the fewest taken so far. */
module Sampling {
  import opened Wrappers
  import opened Seqs
  import opened Ordering

  // A graded record or an answer, and the problem it is stratified by.
  datatype Leaf = Leaf(id: int, problem: int)

  // The seeded shuffles: one rearrangement of 0..size-1 for each group size.
  type Shuffle = (int, seq<nat>) -> seq<seq<nat>>

  function Upto(n: nat): (r: seq<nat>)
    ensures |r| == n
  {
    seq(n, i requires 0 <= i < n => i)
  }

  predicate Rearranges(perm: seq<nat>, n: nat) {
    |perm| == n && (forall i :: 0 <= i < n ==> perm[i] < n) && multiset(perm) == multiset(Upto(n))
  }

  function SpotCheckSampleSize(n: int): (size: nat)
    ensures n <= 0 ==> size == 0
    ensures 0 < n <= 5 ==> size == n
    ensures n >= 5 ==> 5 <= size <= 20
    ensures 5 <= n < 100 ==> size == 5
    ensures 100 <= n <= 400 ==> 100 * size <= 5 * n < 100 * (size + 1)
    ensures n >= 400 ==> size == 20
  {
    if n <= 0 then 0
    else
      var fivePct := n * 5 / 100;
      var size := if fivePct < 5 then 5 else fivePct;
      var capped := if size < 20 then size else 20;
      if capped < n then capped else n
  }

  // ---- sorting by id ----

  predicate LeafBefore(a: Leaf, b: Leaf) {
    a.id < b.id
  }

  function SortLeaves(leaves: seq<Leaf>): seq<Leaf> {
    SortBy(leaves, LeafBefore)
  }

  predicate ById(leaves: seq<Leaf>) {
    InOrder(leaves, LeafBefore)
  }

  predicate DistinctIds(leaves: seq<Leaf>) {
    forall i, j :: 0 <= i < j < |leaves| ==> leaves[i].id != leaves[j].id
  }

  // ---- strata ----

  // The problems of a pool, ascending.
  function Problems(leaves: seq<Leaf>): (keys: seq<int>)
    ensures Ascending(keys)
  {
    if leaves == [] then []
    else
      var keys := Problems(leaves[..|leaves| - 1]);
      var p := leaves[|leaves| - 1].problem;
      if p in keys then keys else Insert(keys, p)
  }

  function OfProblem(p: int): Leaf -> seq<Leaf> {
    (l: Leaf) => if l.problem == p then [l] else []
  }

  function Group(leaves: seq<Leaf>, p: int): seq<Leaf> {
    FlatMap(leaves, OfProblem(p))
  }

  function Groups(leaves: seq<Leaf>, keys: seq<int>): (groups: seq<seq<Leaf>>)
    ensures |groups| == |keys|
  {
    seq(|keys|, i requires 0 <= i < |keys| => Group(leaves, keys[i]))
  }

  function Sizes(groups: seq<seq<Leaf>>): (sizes: seq<nat>)
    ensures |sizes| == |groups|
  {
    seq(|groups|, i requires 0 <= i < |groups| => |groups[i]|)
  }

  function Rearranged(group: seq<Leaf>, perm: seq<nat>): (r: seq<Leaf>)
    requires Rearranges(perm, |group|)
    ensures |r| == |group|
  {
    seq(|group|, i requires 0 <= i < |group| => group[perm[i]])
  }

  function Shuffled(shuffle: Shuffle, seed: int, groups: seq<seq<Leaf>>): (r: seq<seq<Leaf>>)
    requires |shuffle(seed, Sizes(groups))| == |groups|
    requires forall i :: 0 <= i < |groups| ==> Rearranges(shuffle(seed, Sizes(groups))[i], |groups[i]|)
    ensures |r| == |groups|
  {
    seq(|groups|, i requires 0 <= i < |groups| => Rearranged(groups[i], shuffle(seed, Sizes(groups))[i]))
  }

  // ---- fewest taken first ----

  // Among the first n groups that are not empty yet, the first of those least taken from.
  function Best(sizes: seq<nat>, taken: seq<nat>, n: nat): (best: Option<nat>)
    requires n <= |sizes| == |taken|
    ensures best.Some? ==> best.value < n && taken[best.value] < sizes[best.value]
  {
    if n == 0 then None
    else
      var before := Best(sizes, taken, n - 1);
      if taken[n - 1] >= sizes[n - 1] then before
      else if before == None || taken[n - 1] < taken[before.value] then Some(n - 1)
      else before
  }

  // The key the loop uses for "no group left", so that a group with this key ends it too.
  const NO_PROBLEM: int := -1

  // The picks still to be made. taken[i] leaves of group i are gone.
  function Picks(keys: seq<int>, groups: seq<seq<Leaf>>, taken: seq<nat>, budget: nat): seq<Leaf>
    requires |keys| == |groups| == |taken|
    decreases budget
  {
    if budget == 0 then []
    else match Best(Sizes(groups), taken, |keys|)
      case None => []
      case Some(i) =>
        if keys[i] == NO_PROBLEM then []
        else [groups[i][taken[i]]] + Picks(keys, groups, taken[i := taken[i] + 1], budget - 1)
  }

  function Zeros(n: nat): (z: seq<nat>)
    ensures |z| == n && forall i :: 0 <= i < n ==> z[i] == 0
  {
    seq(n, _ => 0)
  }

  // The sample of a pool: all of it when the target reaches that far.
  function Sample(shuffle: Shuffle, seed: int, pool: seq<Leaf>, target: nat): seq<Leaf>
    requires ShufflesPool(shuffle, seed, pool)
  {
    if target == 0 then []
    else if target >= |pool| then SortLeaves(pool)
    else
      var sorted := SortLeaves(pool);
      var keys := Problems(sorted);
      SortLeaves(Picks(keys, Shuffled(shuffle, seed, Groups(sorted, keys)), Zeros(|keys|), target))
  }

  predicate ShufflesPool(shuffle: Shuffle, seed: int, pool: seq<Leaf>) {
    var sorted := SortLeaves(pool);
    var groups := Groups(sorted, Problems(sorted));
    |shuffle(seed, Sizes(groups))| == |groups|
    && forall i :: 0 <= i < |groups| ==> Rearranges(shuffle(seed, Sizes(groups))[i], |groups[i]|)
  }

  // ---- the loops ----

  // Group the sorted pool by problem, remembering the problems seen, then sort those.
  method GroupByProblem(sorted: seq<Leaf>) returns (problemIDs: seq<int>, byProblem: map<int, seq<Leaf>>)
    ensures problemIDs == Problems(sorted)
    ensures byProblem.Keys == Elements(problemIDs)
    ensures forall i :: 0 <= i < |problemIDs| ==> problemIDs[i] in byProblem && byProblem[problemIDs[i]] == Group(sorted, problemIDs[i])
  {
    hide FlatMap, Insert, Ascending, Group, Problems;
    byProblem := map[];
    problemIDs := [];
    NothingGrouped();
    for i := 0 to |sorted|
      invariant byProblem.Keys == Elements(problemIDs) == Elements(Problems(sorted[..i]))
      invariant forall p :: Group(sorted[..i], p) == if p in byProblem then byProblem[p] else []
    {
      assert sorted[..i + 1] == sorted[..i] + [sorted[i]];
      var p := sorted[i].problem;
      GroupSnoc(sorted[..i], sorted[i]);
      ProblemsSnoc(sorted[..i], sorted[i]);
      SnocElements(problemIDs, p);
      if p !in byProblem {
        problemIDs := problemIDs + [p];
        byProblem := byProblem[p := []];
      }
      byProblem := byProblem[p := byProblem[p] + [sorted[i]]];
    }
    assert sorted[..|sorted|] == sorted;
    var keys := SortedKeys(byProblem.Keys);
    AscendingUnique(keys, Problems(sorted));
    problemIDs := keys;
    forall i | 0 <= i < |problemIDs|
      ensures problemIDs[i] in byProblem
    {
      assert problemIDs[i] in Elements(problemIDs);
    }
  }

  lemma NothingGrouped()
    ensures forall p :: Group([], p) == []
    ensures Problems([]) == []
  {
  }

  lemma GroupSnoc(leaves: seq<Leaf>, l: Leaf)
    ensures forall p :: Group(leaves + [l], p) == Group(leaves, p) + if l.problem == p then [l] else []
  {
    hide FlatMap;
    forall p
      ensures Group(leaves + [l], p) == Group(leaves, p) + if l.problem == p then [l] else []
    {
      FlatMapSnoc(leaves, l, OfProblem(p));
    }
  }

  lemma ProblemsSnoc(leaves: seq<Leaf>, l: Leaf)
    ensures Elements(Problems(leaves + [l])) == Elements(Problems(leaves)) + {l.problem}
  {
    assert (leaves + [l])[..|leaves|] == leaves;
    var keys := Problems(leaves);
    if l.problem !in keys {
      assert Elements(Insert(keys, l.problem)) == Elements(keys) + {l.problem};
    }
    hide Insert;
  }

  // The remaining leaves of every group, as the loop sees them.
  ghost predicate Holds(keys: seq<int>, groups: seq<seq<Leaf>>, taken: seq<nat>, byProblem: map<int, seq<Leaf>>, counts: map<int, nat>) {
    && |keys| == |groups| == |taken| && Ascending(keys)
    && forall i :: 0 <= i < |keys| ==>
         && keys[i] in byProblem && keys[i] in counts && counts[keys[i]] == taken[i]
         && taken[i] <= |groups[i]| && byProblem[keys[i]] == groups[i][taken[i]..]
  }

  method ShuffleGroups(shuffle: Shuffle, seed: int, problemIDs: seq<int>, byProblem: map<int, seq<Leaf>>, ghost groups: seq<seq<Leaf>>)
    returns (shuffled: map<int, seq<Leaf>>)
    requires Ascending(problemIDs) && |groups| == |problemIDs|
    requires forall i :: 0 <= i < |problemIDs| ==> problemIDs[i] in byProblem && byProblem[problemIDs[i]] == groups[i]
    requires |shuffle(seed, Sizes(groups))| == |groups|
    requires forall i :: 0 <= i < |groups| ==> Rearranges(shuffle(seed, Sizes(groups))[i], |groups[i]|)
    ensures forall i :: 0 <= i < |problemIDs| ==>
              problemIDs[i] in shuffled && shuffled[problemIDs[i]] == Shuffled(shuffle, seed, groups)[i]
  {
    hide Rearranges;
    shuffled := byProblem;
    var sizes: seq<nat> := [];
    for i := 0 to |problemIDs|
      invariant sizes == Sizes(groups)[..i]
    {
      sizes := sizes + [|byProblem[problemIDs[i]]|];
    }
    var perms := shuffle(seed, sizes);
    assert Sizes(groups)[..|problemIDs|] == Sizes(groups);
    for i := 0 to |problemIDs|
      invariant forall j :: 0 <= j < |problemIDs| ==>
                  problemIDs[j] in shuffled
                  && shuffled[problemIDs[j]] == if j < i then Shuffled(shuffle, seed, groups)[j] else groups[j]
    {
      assert forall j :: 0 <= j < |problemIDs| && j != i ==> problemIDs[j] != problemIDs[i];
      shuffled := shuffled[problemIDs[i] := Rearranged(shuffled[problemIDs[i]], perms[i])];
    }
  }

  // One turn of the loop: the group with leaves left that gave the fewest, by problem order.
  method FewestTaken(problemIDs: seq<int>, byProblem: map<int, seq<Leaf>>, counts: map<int, nat>,
                     ghost groups: seq<seq<Leaf>>, ghost taken: seq<nat>)
    returns (bestPID: int)
    requires Holds(problemIDs, groups, taken, byProblem, counts)
    ensures var best := Best(Sizes(groups), taken, |problemIDs|);
            bestPID == if best == None then NO_PROBLEM else problemIDs[best.value]
  {
    bestPID := NO_PROBLEM;
    var bestTaken: int := -1;
    ghost var sizes := Sizes(groups);
    for i := 0 to |problemIDs|
      invariant var best := Best(sizes, taken, i);
                if best == None then bestTaken == -1 && bestPID == NO_PROBLEM
                else bestTaken == taken[best.value] && bestPID == problemIDs[best.value]
    {
      var pid := problemIDs[i];
      if |byProblem[pid]| == 0 {
        continue;
      }
      var t := counts[pid];
      if bestTaken == -1 || t < bestTaken {
        bestTaken := t;
        bestPID := pid;
      }
    }
  }

  method DrawRoundRobin(problemIDs: seq<int>, groups0: map<int, seq<Leaf>>, target: nat, ghost groups: seq<seq<Leaf>>)
    returns (selected: seq<Leaf>)
    requires Ascending(problemIDs) && |groups| == |problemIDs|
    requires forall i :: 0 <= i < |problemIDs| ==> problemIDs[i] in groups0 && groups0[problemIDs[i]] == groups[i]
    ensures selected == Picks(problemIDs, groups, Zeros(|problemIDs|), target)
  {
    hide Best, Picks, Holds;
    var byProblem := groups0;
    var counts: map<int, nat> := map p | p in problemIDs :: 0;
    HoldsAtFirst(problemIDs, groups, groups0, counts);
    ghost var taken := Zeros(|problemIDs|);
    selected := [];
    while |selected| < target
      invariant |selected| <= target && |taken| == |groups|
      invariant Holds(problemIDs, groups, taken, byProblem, counts)
      invariant selected + Picks(problemIDs, groups, taken, target - |selected|) == Picks(problemIDs, groups, Zeros(|problemIDs|), target)
    {
      ghost var best := Best(Sizes(groups), taken, |problemIDs|);
      var bestPID := FewestTaken(problemIDs, byProblem, counts, groups, taken);
      PicksNext(problemIDs, groups, taken, target - |selected|);
      if bestPID == NO_PROBLEM {
        break;
      }
      TakeOne(problemIDs, groups, taken, byProblem, counts, best.value);
      var group := byProblem[bestPID];
      selected := selected + [group[0]];
      byProblem := byProblem[bestPID := group[1..]];
      counts := counts[bestPID := counts[bestPID] + 1];
      taken := taken[best.value := taken[best.value] + 1];
    }
    PicksNone(problemIDs, groups, taken, 0);
  }

  lemma PicksNone(keys: seq<int>, groups: seq<seq<Leaf>>, taken: seq<nat>, budget: nat)
    requires |keys| == |groups| == |taken| && (budget == 0 || Best(Sizes(groups), taken, |keys|) == None)
    ensures Picks(keys, groups, taken, budget) == []
  {
  }

  lemma HoldsAtFirst(keys: seq<int>, groups: seq<seq<Leaf>>, byProblem: map<int, seq<Leaf>>, counts: map<int, nat>)
    requires Ascending(keys) && |groups| == |keys|
    requires forall i :: 0 <= i < |keys| ==> keys[i] in byProblem && byProblem[keys[i]] == groups[i]
    requires forall i :: 0 <= i < |keys| ==> keys[i] in counts && counts[keys[i]] == 0
    ensures Holds(keys, groups, Zeros(|keys|), byProblem, counts)
  {
  }

  lemma PicksNext(keys: seq<int>, groups: seq<seq<Leaf>>, taken: seq<nat>, budget: nat)
    requires |keys| == |groups| == |taken| && budget > 0
    ensures var best := Best(Sizes(groups), taken, |keys|);
            if best == None || keys[best.value] == NO_PROBLEM then Picks(keys, groups, taken, budget) == []
            else Picks(keys, groups, taken, budget)
                 == [groups[best.value][taken[best.value]]] + Picks(keys, groups, taken[best.value := taken[best.value] + 1], budget - 1)
  {
  }

  lemma TakeOne(keys: seq<int>, groups: seq<seq<Leaf>>, taken: seq<nat>, byProblem: map<int, seq<Leaf>>, counts: map<int, nat>, i: nat)
    requires Holds(keys, groups, taken, byProblem, counts) && i < |keys| && taken[i] < |groups[i]|
    ensures keys[i] in byProblem && keys[i] in counts && |byProblem[keys[i]]| > 0 && byProblem[keys[i]][0] == groups[i][taken[i]]
    ensures Holds(keys, groups, taken[i := taken[i] + 1],
                  byProblem[keys[i] := byProblem[keys[i]][1..]], counts[keys[i] := counts[keys[i]] + 1])
  {
    assert forall j :: 0 <= j < |keys| && j != i ==> keys[j] != keys[i];
    assert groups[i][taken[i]..][1..] == groups[i][taken[i] + 1..];
  }

  method Stratify(shuffle: Shuffle, seed: int, pool: seq<Leaf>, target: nat) returns (sample: seq<Leaf>)
    requires ShufflesPool(shuffle, seed, pool) && 0 < target < |pool|
    ensures sample == Sample(shuffle, seed, pool, target)
  {
    hide Problems, SortLeaves, Group, Best, Rearranges;
    var sorted := SortLeaves(pool);
    var problemIDs, byProblem := GroupByProblem(sorted);
    ghost var groups := Groups(sorted, problemIDs);
    var shuffled := ShuffleGroups(shuffle, seed, problemIDs, byProblem, groups);
    var selected := DrawRoundRobin(problemIDs, shuffled, target, Shuffled(shuffle, seed, groups));
    sample := SortLeaves(selected);
  }

  method SelectSpotCheckSample(shuffle: Shuffle, runID: int, pool: seq<Leaf>) returns (sample: seq<Leaf>)
    requires ShufflesPool(shuffle, runID, pool)
    ensures sample == Sample(shuffle, runID, pool, SpotCheckSampleSize(|pool|))
  {
    hide Problems, SortLeaves, Group, Groups, Rearranges;
    var target := SpotCheckSampleSize(|pool|);
    if target == 0 {
      return [];
    }
    if target >= |pool| {
      return SortLeaves(pool);
    }
    sample := Stratify(shuffle, runID, pool, target);
  }

  method SelectCalibrationSample(shuffle: Shuffle, runID: int, pool: seq<Leaf>, n: int) returns (sample: seq<Leaf>)
    requires ShufflesPool(shuffle, runID, pool)
    ensures sample == Sample(shuffle, runID, pool, if n <= 0 then 0 else n)
  {
    hide Problems, Group, Groups, Rearranges;
    if n <= 0 || |pool| == 0 {
      return [];
    }
    if n >= |pool| {
      return SortLeaves(pool);
    }
    sample := Stratify(shuffle, runID, pool, n);
  }
}
