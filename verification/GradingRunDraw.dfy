/** Completions that sample one at a time: what they draw, and how much of it becomes the sample. */
module GradingRunDraw {
  import opened Wrappers
  import opened Seqs
  import opened GradingRun
  import opened GradingRunSample
  import opened GradingRunRecords
  import Sampling

  // No completion reads the state of the sample while another stands between that read and its
  // last row.
  ghost predicate Alone(s: State, step: Step) {
    step.ReadSample? ==> NoneSampling(s)
  }

  ghost predicate AloneRun(c: Config, steps: seq<Step>) {
    forall i :: 0 <= i < |steps| ==> Alone(Run(c, Start(), steps[..i]), steps[i])
  }

  // At most one delivery samples; one about to draw finds no sample.
  ghost predicate OneSampling(s: State) {
    forall i :: 0 <= i < |s.jobs| && IsSampling(s.jobs[i].phase) ==>
      (s.jobs[i].phase.Drawing? ==> s.sample.Keys == {}) && forall j :: 0 <= j < |s.jobs| && IsSampling(s.jobs[j].phase) ==> i == j
  }

  lemma AloneStep(c: Config, s: State, step: Step)
    requires OneSampling(s) && Alone(s, step)
    ensures OneSampling(Apply(c, s, step))
  {
    if !ByJob(step) {
      OthersAside(c, s, step);
      hide Apply, IsSampling;
    } else if step.job < |s.jobs| && s.jobs[step.job].item < |s.items| {
      hide JobStep;
      if Aside(step) {
        JobAside(c, s, step.job, step);
      } else if step.InsertRow? {
        InsertsRow(c, s, step.job);
        hide AddedOne;
      } else {
        ReadsSample(c, s, step.job, step);
      }
    }
  }

  lemma NoneElse(s: State, j: nat)
    requires OneSampling(s) && j < |s.jobs| && s.jobs[j].phase.Drawing?
    ensures (forall id :: id !in s.sample) && forall i :: 0 <= i < |s.jobs| ==> !s.jobs[i].phase.Inserting?
  {
    assert IsSampling(s.jobs[j].phase);
    assert forall id :: id in s.sample ==> id in s.sample.Keys;
    assert forall i :: 0 <= i < |s.jobs| && s.jobs[i].phase.Inserting? ==> IsSampling(s.jobs[i].phase);
  }

  lemma AlonePrefix(c: Config, steps: seq<Step>)
    requires AloneRun(c, steps) && steps != []
    ensures AloneRun(c, steps[..|steps| - 1]) && Alone(Run(c, Start(), steps[..|steps| - 1]), steps[|steps| - 1])
  {
    hide Run, Alone;
    EveryStepSnoc(steps, (before: seq<Step>, step: Step) => Alone(Run(c, Start(), before), step));
  }

  // ---- row by row ----

  // The step draws a sample: a delivery reads a pool with something in it.
  predicate NewDraw(s: State, step: Step) {
    && step.ReadPool? && step.job < |s.jobs| && s.jobs[step.job].item < |s.items|
    && s.jobs[step.job].phase.Drawing? && Pool(s.items) != []
  }

  // The first m rows are the sample, and the delivery, if it still inserts, has the rest.
  ghost predicate Rows(s: State, j: nat, ids: seq<int>, m: nat) {
    && m <= |ids| && s.sample.Keys == Elements(ids[..m])
    && forall i :: 0 <= i < |s.jobs| && s.jobs[i].phase.Inserting? ==> i == j && s.jobs[i].phase.ids == ids[m..]
  }

  predicate EndOfRows(s: State, j: nat) {
    j < |s.jobs| && s.jobs[j].phase == Inserting([])
  }

  // Nobody starts to insert without a draw.
  ghost predicate InsertingStays(s: State, s': State) {
    forall i :: 0 <= i < |s'.jobs| && s'.jobs[i].phase.Inserting? ==> i < |s.jobs| && s'.jobs[i].phase == s.jobs[i].phase
  }

  lemma NoDrawReads(c: Config, s: State, j: nat, step: Step)
    requires j < |s.jobs| && s.jobs[j].item < |s.items|
    requires step == ReadSample(j) || (step == ReadPool(j) && !NewDraw(s, step))
    ensures var s' := JobStep(c, s, j, step);
            s'.sample == s.sample && InsertingStays(s, s')
  {
    hide Pool, Settled;
  }

  lemma NoRowStep(c: Config, s: State, step: Step)
    requires !NewDraw(s, step) && !step.InsertRow?
    ensures var s' := Apply(c, s, step);
            s'.sample.Keys == s.sample.Keys && InsertingStays(s, s')
  {
    if !ByJob(step) {
      OthersAside(c, s, step);
      hide Apply;
    } else if step.job < |s.jobs| && s.jobs[step.job].item < |s.items| {
      hide JobStep, NewDraw;
      if Aside(step) {
        JobAside(c, s, step.job, step);
      } else {
        NoDrawReads(c, s, step.job, step);
      }
    }
  }

  lemma RowStep(c: Config, s: State, step: Step, j: nat, ids: seq<int>, m: nat) returns (m': nat)
    requires Rows(s, j, ids, m) && step.InsertRow?
    ensures Rows(Apply(c, s, step), j, ids, m') && m <= m'
    ensures m < m' == |ids| ==> EndOfRows(Apply(c, s, step), j)
  {
    m' := m;
    if step.job < |s.jobs| && s.jobs[step.job].item < |s.items| {
      InsertsRow(c, s, step.job);
      hide JobStep, AddedOne;
      if s.jobs[step.job].phase.Inserting? && s.jobs[step.job].phase.ids != [] {
        m' := m + 1;
        assert ids[..m + 1] == ids[..m] + [ids[m]];
        SnocElements(ids[..m], ids[m]);
        AddedKeys(s.sample, ids[m]);
        assert ids[m..][1..] == ids[m + 1..] && ids[m..][0] == ids[m];
      }
    }
  }

  lemma AddedKeys(sample: map<int, bool>, id: int)
    ensures AddedOne(sample, id).Keys == sample.Keys + {id}
  {
  }

  lemma RowsStep(c: Config, s: State, step: Step, j: nat, ids: seq<int>, m: nat) returns (m': nat)
    requires Rows(s, j, ids, m) && !NewDraw(s, step)
    ensures Rows(Apply(c, s, step), j, ids, m') && m <= m'
    ensures m < m' == |ids| ==> EndOfRows(Apply(c, s, step), j)
  {
    hide NewDraw;
    if step.InsertRow? {
      m' := RowStep(c, s, step, j, ids, m);
    } else {
      NoRowStep(c, s, step);
      hide Apply;
      m' := m;
    }
  }

  // A draw starts its rows, as nobody else samples and there is no sample.
  lemma DrawStarts(c: Config, s: State, step: Step)
    requires OneSampling(s) && NewDraw(s, step)
    ensures var ids := IdsOf(c.draw(Pool(s.items)));
            var s' := Apply(c, s, step);
            Rows(s', step.job, ids, 0) && (EndOfRows(s', step.job) <==> ids == [])
  {
    NoneElse(s, step.job);
    var ids := IdsOf(c.draw(Pool(s.items)));
    assert ids[..0] == [] && ids[0..] == ids;
    hide Pool, IdsOf;
    assert Apply(c, s, step) == At(s, step.job, Inserting(ids));
    assert s.sample.Keys == {};
  }

  // ---- the last draw of a run ----

  ghost predicate Draws(c: Config, steps: seq<Step>, i: nat) {
    i < |steps| && NewDraw(Run(c, Start(), steps[..i]), steps[i])
  }

  ghost predicate LastDraw(c: Config, steps: seq<Step>, i: nat) {
    Draws(c, steps, i) && forall n: nat :: i < n < |steps| ==> !Draws(c, steps, n)
  }

  ghost function DrawnIds(c: Config, steps: seq<Step>, i: nat): seq<int>
    requires i < |steps|
  {
    IdsOf(c.draw(Pool(Run(c, Start(), steps[..i]).items)))
  }

  // The delivery that drew came to the end of its rows.
  ghost predicate CameThrough(c: Config, steps: seq<Step>, i: nat)
    requires Draws(c, steps, i)
  {
    exists n: nat :: i < n <= |steps| && EndOfRows(Run(c, Start(), steps[..n]), steps[i].job)
  }

  ghost predicate Inserted(c: Config, steps: seq<Step>, i: nat, m: nat) {
    && LastDraw(c, steps, i)
    && Rows(Run(c, Start(), steps), steps[i].job, DrawnIds(c, steps, i), m)
    && (m == |DrawnIds(c, steps, i)| <==> CameThrough(c, steps, i))
  }

  // Nothing is drawn yet.
  ghost predicate Undrawn(c: Config, steps: seq<Step>) {
    (forall i: nat :: !Draws(c, steps, i)) && NoRows(Run(c, Start(), steps))
  }

  ghost predicate NoRows(s: State) {
    s.sample.Keys == {} && forall i :: 0 <= i < |s.jobs| ==> !s.jobs[i].phase.Inserting?
  }

  lemma NoRowsStep(c: Config, s: State, step: Step)
    requires NoRows(s) && !NewDraw(s, step)
    ensures NoRows(Apply(c, s, step))
  {
    hide NewDraw;
    if step.InsertRow? {
      if step.job < |s.jobs| && s.jobs[step.job].item < |s.items| {
        InsertsRow(c, s, step.job);
        hide JobStep;
      }
    } else {
      NoRowStep(c, s, step);
      hide Apply;
    }
  }

  // ---- one more step ----

  lemma DrawsSnoc(c: Config, steps: seq<Step>, step: Step)
    ensures forall i: nat :: i < |steps| ==> (Draws(c, steps + [step], i) <==> Draws(c, steps, i))
    ensures Draws(c, steps + [step], |steps|) <==> NewDraw(Run(c, Start(), steps), step)
    ensures forall i: nat :: i < |steps| ==> DrawnIds(c, steps + [step], i) == DrawnIds(c, steps, i)
    ensures DrawnIds(c, steps + [step], |steps|) == IdsOf(c.draw(Pool(Run(c, Start(), steps).items)))
  {
    hide Run, NewDraw, IdsOf, Pool;
    assert forall i: nat :: i <= |steps| ==> (steps + [step])[..i] == steps[..i];
    assert steps[..|steps|] == steps;
  }

  lemma CameThroughSnoc(c: Config, steps: seq<Step>, step: Step, i: nat)
    requires i <= |steps| && Draws(c, steps + [step], i)
    ensures i < |steps| ==> Draws(c, steps, i)
    ensures CameThrough(c, steps + [step], i) <==>
            (i < |steps| && CameThrough(c, steps, i)) || EndOfRows(Apply(c, Run(c, Start(), steps), step), (steps + [step])[i].job)
  {
    DrawsSnoc(c, steps, step);
    RunSnoc(c, Start(), steps, step);
    var j := (steps + [step])[i].job;
    assert i < |steps| ==> steps[i].job == j;
    hide Run, Draws, EndOfRows, Apply;
    SomePrefixSnoc(steps, step, i, (before: seq<Step>) => EndOfRows(Run(c, Start(), before), j));
  }

  lemma LastDrawSnoc(c: Config, steps: seq<Step>, step: Step, i: nat)
    requires if i == |steps| then NewDraw(Run(c, Start(), steps), step) else LastDraw(c, steps, i) && !NewDraw(Run(c, Start(), steps), step)
    ensures LastDraw(c, steps + [step], i)
  {
    DrawsSnoc(c, steps, step);
    assert i <= |steps|;
    hide Draws, Run, NewDraw;
    var after := steps + [step];
    forall n: nat | i < n < |after|
      ensures !Draws(c, after, n)
    {
      assert n < |steps| ==> !Draws(c, steps, n);
    }
  }

  lemma DrawnStarts(c: Config, steps: seq<Step>, step: Step)
    requires OneSampling(Run(c, Start(), steps)) && NewDraw(Run(c, Start(), steps), step)
    ensures Inserted(c, steps + [step], |steps|, 0)
  {
    DrawsSnoc(c, steps, step);
    LastDrawSnoc(c, steps, step, |steps|);
    CameThroughSnoc(c, steps, step, |steps|);
    DrawStarts(c, Run(c, Start(), steps), step);
    RunSnoc(c, Start(), steps, step);
    hide Run, Apply, Rows, EndOfRows, NewDraw, LastDraw, Draws, DrawnIds, IdsOf, Pool, CameThrough;
  }

  lemma InsertedStep(c: Config, steps: seq<Step>, step: Step, i: nat, m: nat) returns (m': nat)
    requires Inserted(c, steps, i, m) && !NewDraw(Run(c, Start(), steps), step)
    ensures Inserted(c, steps + [step], i, m')
  {
    var s := Run(c, Start(), steps);
    DrawsSnoc(c, steps, step);
    LastDrawSnoc(c, steps, step, i);
    CameThroughSnoc(c, steps, step, i);
    m' := RowsStep(c, s, step, steps[i].job, DrawnIds(c, steps, i), m);
    RunSnoc(c, Start(), steps, step);
    RowsEnd(Apply(c, s, step), steps[i].job, DrawnIds(c, steps, i), m');
    hide Run, Apply, Rows, EndOfRows, NewDraw, LastDraw, Draws, DrawnIds, CameThrough;
  }

  lemma RowsEnd(s: State, j: nat, ids: seq<int>, m: nat)
    requires Rows(s, j, ids, m)
    ensures m <= |ids| && (EndOfRows(s, j) ==> m == |ids|)
  {
  }

  ghost predicate DrawnSoFar(c: Config, steps: seq<Step>, i: nat, m: nat) {
    Undrawn(c, steps) || Inserted(c, steps, i, m)
  }

  lemma PrefixStep(c: Config, steps: seq<Step>, step: Step, i: nat, m: nat) returns (i': nat, m': nat)
    requires OneSampling(Run(c, Start(), steps)) && DrawnSoFar(c, steps, i, m)
    ensures DrawnSoFar(c, steps + [step], i', m')
  {
    hide Run, OneSampling, Undrawn, Inserted, NewDraw;
    i', m' := i, m;
    if NewDraw(Run(c, Start(), steps), step) {
      DrawnStarts(c, steps, step);
      i', m' := |steps|, 0;
    } else if Inserted(c, steps, i, m) {
      m' := InsertedStep(c, steps, step, i, m);
    } else {
      StillUndrawn(c, steps, step);
    }
  }

  lemma NothingDrawn(c: Config)
    ensures DrawnSoFar(c, [], 0, 0) && OneSampling(Run(c, Start(), []))
  {
  }

  // Over every run in which completions sample one at a time, the sample is what the last draw's
  // delivery inserted of it, row by row in order.
  lemma {:induction false} SampleIsPrefix(c: Config, steps: seq<Step>) returns (i: nat, m: nat)
    requires AloneRun(c, steps)
    ensures OneSampling(Run(c, Start(), steps)) && DrawnSoFar(c, steps, i, m)
  {
    hide *;
    i, m := 0, 0;
    if steps == [] {
      NothingDrawn(c);
    } else {
      var n := |steps| - 1;
      assert steps == steps[..n] + [steps[n]];
      AlonePrefix(c, steps);
      i, m := SampleIsPrefix(c, steps[..n]);
      AloneStep(c, Run(c, Start(), steps[..n]), steps[n]);
      RunSnoc(c, Start(), steps[..n], steps[n]);
      i, m := PrefixStep(c, steps[..n], steps[n], i, m);
    }
  }

  lemma StillUndrawn(c: Config, steps: seq<Step>, step: Step)
    requires Undrawn(c, steps) && !NewDraw(Run(c, Start(), steps), step)
    ensures Undrawn(c, steps + [step])
  {
    DrawsSnoc(c, steps, step);
    NoRowsStep(c, Run(c, Start(), steps), step);
    RunSnoc(c, Start(), steps, step);
    hide Run, Apply, NoRows, NewDraw;
    assert forall i: nat :: i > |steps| ==> !Draws(c, steps + [step], i);
    hide Draws;
  }

  // ---- no record is drawn twice ----

  // Items have different answers.
  ghost predicate ItemsApart(items: seq<Item>) {
    forall k, l :: 0 <= k < l < |items| ==> items[k].answer != items[l].answer
  }

  lemma ItemsApartStep(c: Config, s: State, step: Step)
    requires Filed(s) && ItemsApart(s.items)
    ensures ItemsApart(Apply(c, s, step).items)
  {
    var s' := Apply(c, s, step);
    if step.Plan? {
      hide Requeued;
    } else if !ByJob(step) {
      OtherFiled(c, s, step);
      hide Apply, Filed, Appends, Points;
      LeavesKept(s, s');
    } else if step.job < |s.jobs| && s.jobs[step.job].item < |s.items| {
      JobFiled(c, s, step.job, step);
      hide JobStep, Filed, Appends, Points;
      LeavesKept(s, s');
    }
  }

  lemma LeavesKept(s: State, s': State)
    requires FiledMove(s, s') && ItemsApart(s.items)
    ensures ItemsApart(s'.items)
  {
    assert forall k :: 0 <= k < |s.items| ==> KeepsLeaf(s.items[k], s'.items[k]);
    hide FiledMove;
  }

  lemma {:induction false} ItemsApartRun(c: Config, steps: seq<Step>)
    ensures ItemsApart(Run(c, Start(), steps).items)
  {
    hide Apply, ItemsApart, Filed, Points, SameLeaf;
    if steps != [] {
      var n := |steps| - 1;
      ItemsApartRun(c, steps[..n]);
      OneRecordPerLeaf(c, steps[..n]);
      ItemsApartStep(c, Run(c, Start(), steps[..n]), steps[n]);
    } else {
      NoItems();
    }
  }

  lemma NoItems()
    ensures ItemsApart(Start().items)
  {
  }

  // Two graded items never point at the same record.
  lemma {:induction false} LeavesDistinct(records: seq<Record>, items: seq<Item>)
    requires ItemsApart(items) && forall k :: 0 <= k < |items| ==> Points(records, items[k])
    ensures Sampling.DistinctIds(FlatMap(items, Graded))
  {
    if items != [] {
      var n := |items| - 1;
      LeavesDistinct(records, items[..n]);
      PoolOf(items[..n]);
      var before := FlatMap(items[..n], Graded);
      assert FlatMap(items, Graded) == before + Graded(items[n]);
      hide FlatMap;
      if Graded(items[n]) != [] {
        var id := items[n].record.value;
        forall l | l in before
          ensures l.id != id
        {
          var k :| 0 <= k < |items[..n]| && items[..n][k].state == ItemSucceeded && items[..n][k].record.Some?
            && l == Sampling.Leaf(items[..n][k].record.value, items[..n][k].problem);
          assert Points(records, items[k]) && Points(records, items[n]);
        }
      }
    }
  }

  lemma PoolDistinct(c: Config, steps: seq<Step>)
    ensures Sampling.DistinctIds(Pool(Run(c, Start(), steps).items))
  {
    var s := Run(c, Start(), steps);
    ItemsApartRun(c, steps);
    OneRecordPerLeaf(c, steps);
    hide Run, Points, Sampling.DistinctIds, FlatMap;
    LeavesDistinct(s.records, if |s.items| <= SAMPLE_ITEMS then s.items else s.items[..SAMPLE_ITEMS]);
  }

  // The pool is the graded items among the first 2000, each once and in order, by record and problem.
  ghost predicate GradedInOrder(items: seq<Item>, pool: seq<Sampling.Leaf>, places: seq<nat>) {
    && |places| == |pool|
    && (forall i, j :: 0 <= i < j < |places| ==> places[i] < places[j])
    && (forall i :: 0 <= i < |pool| ==>
          && places[i] < |items| && places[i] < SAMPLE_ITEMS && items[places[i]].state == ItemSucceeded
          && items[places[i]].record == Some(pool[i].id) && items[places[i]].problem == pool[i].problem)
    && forall k :: 0 <= k < |items| && k < SAMPLE_ITEMS && items[k].state == ItemSucceeded && items[k].record.Some? ==> k in places
  }

  lemma {:induction false} GradedPlaces(items: seq<Item>) returns (places: seq<nat>)
    requires |items| <= SAMPLE_ITEMS
    ensures GradedInOrder(items, FlatMap(items, Graded), places)
  {
    if items == [] {
      places := [];
    } else {
      var n := |items| - 1;
      places := GradedPlaces(items[..n]);
      var before := FlatMap(items[..n], Graded);
      assert FlatMap(items, Graded) == before + Graded(items[n]);
      hide FlatMap, GradedInOrder;
      if items[n].state == ItemSucceeded && items[n].record.Some? {
        GradedLast(items, before, places);
        places := places + [n];
      } else {
        assert before + Graded(items[n]) == before;
        GradedSkip(items, before, places);
      }
    }
  }

  lemma GradedLast(items: seq<Item>, pool: seq<Sampling.Leaf>, places: seq<nat>)
    requires items != [] && |items| <= SAMPLE_ITEMS && GradedInOrder(items[..|items| - 1], pool, places)
    requires items[|items| - 1].state == ItemSucceeded && items[|items| - 1].record.Some?
    ensures GradedInOrder(items, pool + Graded(items[|items| - 1]), places + [|items| - 1])
  {
    var n: nat := |items| - 1;
    assert forall k :: 0 <= k < n ==> items[..n][k] == items[k];
    var places', pool' := places + [n], pool + Graded(items[n]);
    forall k | 0 <= k < |items| && k < SAMPLE_ITEMS && items[k].state == ItemSucceeded && items[k].record.Some?
      ensures k in places'
    {
      if k < n {
        assert k in places;
      } else {
        assert places'[|places|] == k;
      }
    }
  }

  lemma GradedSkip(items: seq<Item>, pool: seq<Sampling.Leaf>, places: seq<nat>)
    requires items != [] && GradedInOrder(items[..|items| - 1], pool, places)
    requires !(items[|items| - 1].state == ItemSucceeded && items[|items| - 1].record.Some?)
    ensures GradedInOrder(items, pool, places)
  {
    var n := |items| - 1;
    assert forall k :: 0 <= k < n ==> items[..n][k] == items[k];
  }

  lemma PoolIsGradedItems(items: seq<Item>) returns (places: seq<nat>)
    ensures GradedInOrder(items, Pool(items), places)
  {
    var first := if |items| <= SAMPLE_ITEMS then items else items[..SAMPLE_ITEMS];
    places := GradedPlaces(first);
    hide FlatMap;
    assert forall k :: 0 <= k < |first| ==> first[k] == items[k];
  }

  // A sampler that takes no leaf more often than the pool has it draws no record twice.
  lemma DrawDistinct(pool: seq<Sampling.Leaf>, drawn: seq<Sampling.Leaf>)
    requires Sampling.DistinctIds(pool) && multiset(drawn) <= multiset(pool)
    ensures forall i, j :: 0 <= i < j < |drawn| ==> IdsOf(drawn)[i] != IdsOf(drawn)[j]
  {
    forall i, j | 0 <= i < j < |drawn|
      ensures drawn[i].id != drawn[j].id
    {
      if drawn[i].id == drawn[j].id {
        assert drawn[i] in multiset(drawn) && drawn[j] in multiset(drawn);
        assert drawn[i] in pool && drawn[j] in pool;
        SameId(pool, drawn[i], drawn[j]);
        Twice(drawn, i, j);
        Once(pool, drawn[i]);
      }
    }
  }

  lemma SameId(pool: seq<Sampling.Leaf>, l: Sampling.Leaf, q: Sampling.Leaf)
    requires Sampling.DistinctIds(pool) && l in pool && q in pool && l.id == q.id
    ensures l == q
  {
    var i :| 0 <= i < |pool| && pool[i] == l;
    var j :| 0 <= j < |pool| && pool[j] == q;
    assert i == j;
  }

  lemma Twice<T>(xs: seq<T>, i: nat, j: nat)
    requires i < j < |xs| && xs[i] == xs[j]
    ensures multiset(xs)[xs[i]] >= 2
  {
    assert xs == xs[..j] + [xs[j]] + xs[j + 1..];
    assert xs[i] == xs[..j][i];
    assert xs[i] in multiset(xs[..j]);
  }

  lemma Once(pool: seq<Sampling.Leaf>, l: Sampling.Leaf)
    requires Sampling.DistinctIds(pool) && l in pool
    ensures multiset(pool)[l] == 1
  {
    var i :| 0 <= i < |pool| && pool[i] == l;
    assert pool == pool[..i] + [pool[i]] + pool[i + 1..];
    assert l !in pool[..i] && l !in pool[i + 1..];
  }

  // ---- the whole draw ----

  lemma PartOfDraw(ids: seq<int>, m: nat)
    requires m <= |ids| && forall i, j :: 0 <= i < j < |ids| ==> ids[i] != ids[j]
    ensures Elements(ids[..m]) <= Elements(ids)
    ensures Elements(ids[..m]) == Elements(ids) <==> m == |ids|
  {
    if m < |ids| {
      assert ids[m] in Elements(ids) && ids[m] !in Elements(ids[..m]);
    } else {
      assert ids[..m] == ids;
    }
  }

  // Over every run in which completions sample one at a time, the sample is the whole of the last
  // draw exactly when the delivery that drew it came to the end of its rows.
  lemma WholeSampleIff(c: Config, steps: seq<Step>, i: nat)
    requires forall pool :: multiset(c.draw(pool)) <= multiset(pool)
    requires AloneRun(c, steps) && LastDraw(c, steps, i)
    ensures var s := Run(c, Start(), steps);
            && s.sample.Keys <= Elements(DrawnIds(c, steps, i))
            && (s.sample.Keys == Elements(DrawnIds(c, steps, i)) <==> CameThrough(c, steps, i))
  {
    var i', m := SampleIsPrefix(c, steps);
    assert !Undrawn(c, steps) && i' == i;
    var pool := Pool(Run(c, Start(), steps[..i]).items);
    var ids := DrawnIds(c, steps, i);
    PoolDistinct(c, steps[..i]);
    DrawDistinct(pool, c.draw(pool));
    PartOfDraw(ids, m);
    hide Run, AloneRun, LastDraw, Draws, CameThrough, Pool, Elements, Sampling.DistinctIds;
  }

  // The members, and the rows still to come, all come from the draw of one step.
  ghost predicate AllFrom(c: Config, steps: seq<Step>, s: State, i: nat) {
    && (forall id :: id in s.sample ==> DrawnAt(c, steps, i, id))
    && forall j, id :: 0 <= j < |s.jobs| && s.jobs[j].phase.Inserting? && id in s.jobs[j].phase.ids ==> DrawnAt(c, steps, i, id)
  }

  lemma DrawnThen(c: Config, steps: seq<Step>, i: nat, id: int)
    requires forall pool, l :: l in c.draw(pool) ==> l in pool
    requires Draws(c, steps, i) && id in DrawnIds(c, steps, i)
    ensures DrawnAt(c, steps, i, id)
  {
    hide Run, Pool, Succeeded;
    var items := Run(c, Start(), steps[..i]).items;
    var drawn := c.draw(Pool(items));
    var k :| 0 <= k < |drawn| && IdsOf(drawn)[k] == id;
    assert drawn[k] in drawn;
    PoolSucceeded(items, drawn[k]);
  }

  // All members of the sample come from one and the same draw.
  lemma SampleIsOneDraw(c: Config, steps: seq<Step>) returns (i: nat)
    requires forall pool, l :: l in c.draw(pool) ==> l in pool
    requires AloneRun(c, steps)
    ensures OneSampling(Run(c, Start(), steps))
    ensures AllFrom(c, steps, Run(c, Start(), steps), i)
  {
    var s := Run(c, Start(), steps);
    var m: nat;
    i, m := SampleIsPrefix(c, steps);
    if Undrawn(c, steps) {
      assert forall id :: id in s.sample ==> id in s.sample.Keys;
    } else {
      var ids := DrawnIds(c, steps, i);
      forall id | id in ids
        ensures DrawnAt(c, steps, i, id)
      {
        DrawnThen(c, steps, i, id);
      }
      assert forall id :: id in s.sample ==> id in s.sample.Keys && id in ids[..m];
      hide Run, DrawnAt, Draws, DrawnIds, CameThrough, OneSampling;
    }
  }
}
