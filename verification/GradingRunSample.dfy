/** The spot-check sample of a run: exactly which steps change its members, that nothing does once
    it is complete, and that every member was drawn from a record that had succeeded. */
module GradingRunSample {
  import opened Wrappers
  import opened Seqs
  import opened GradingRun
  import Sampling

  // ---- what is drawn from ----

  predicate Succeeded(items: seq<Item>, l: Sampling.Leaf) {
    exists k :: 0 <= k < |items| && k < SAMPLE_ITEMS && items[k].state == ItemSucceeded
                && items[k].record == Some(l.id) && items[k].problem == l.problem
  }

  lemma {:induction false} PoolOf(items: seq<Item>)
    ensures forall l :: l in FlatMap(items, Graded) <==>
              exists k :: 0 <= k < |items| && items[k].state == ItemSucceeded && items[k].record.Some?
                          && l == Sampling.Leaf(items[k].record.value, items[k].problem)
  {
    if items != [] {
      var n := |items| - 1;
      PoolOf(items[..n]);
      assert FlatMap(items, Graded) == FlatMap(items[..n], Graded) + Graded(items[n]);
      hide FlatMap;
      forall l | l in FlatMap(items[..n], Graded)
        ensures exists k :: 0 <= k < |items| && items[k].state == ItemSucceeded && items[k].record.Some?
                            && l == Sampling.Leaf(items[k].record.value, items[k].problem)
      {
        var k :| 0 <= k < n && items[..n][k].state == ItemSucceeded && items[..n][k].record.Some?
          && l == Sampling.Leaf(items[..n][k].record.value, items[..n][k].problem);
        assert items[k] == items[..n][k];
      }
      forall k | 0 <= k < n && items[k].state == ItemSucceeded && items[k].record.Some?
        ensures Sampling.Leaf(items[k].record.value, items[k].problem) in FlatMap(items[..n], Graded)
      {
        assert items[k] == items[..n][k];
      }
    }
  }

  lemma PoolSucceeded(items: seq<Item>, l: Sampling.Leaf)
    requires l in Pool(items)
    ensures Succeeded(items, l)
  {
    var first := if |items| <= SAMPLE_ITEMS then items else items[..SAMPLE_ITEMS];
    PoolOf(first);
    hide FlatMap;
    var k :| 0 <= k < |first| && first[k].state == ItemSucceeded && first[k].record.Some?
      && l == Sampling.Leaf(first[k].record.value, first[k].problem);
    assert items[k] == first[k];
  }

  lemma HasMember(sample: map<int, bool>)
    ensures sample == map[] || exists id :: id in sample
  {
    if !exists id :: id in sample {
      assert sample == map[];
    }
  }

  // ---- one step ----

  // An insert of a record the sample it finds does not have.
  predicate Widens(s: State, step: Step) {
    && step.InsertRow? && step.job < |s.jobs| && s.jobs[step.job].item < |s.items|
    && var p := s.jobs[step.job].phase;
       p.Inserting? && p.ids != [] && p.ids[0] !in s.sample
  }

  // Members stay, a verdict that is in stays, and so does a waiver.
  ghost predicate SampleGrows(s: State, s': State) {
    && s.sample.Keys <= s'.sample.Keys
    && (forall id :: id in s.sample && s.sample[id] ==> s'.sample[id])
    && (s.waived ==> s'.waived)
  }

  // A step that leaves the sample alone, and brings no delivery closer to inserting one.
  ghost predicate SampleAside(s: State, s': State) {
    && s'.sample == s.sample && s'.waived == s.waived
    && forall i :: 0 <= i < |s'.jobs| && IsSampling(s'.jobs[i].phase) ==> i < |s.jobs| && s'.jobs[i].phase == s.jobs[i].phase
  }

  lemma EarlyAside(c: Config, s: State, j: nat, step: Step)
    requires j < |s.jobs| && s.jobs[j].item < |s.items| && Early(step)
    ensures SampleAside(s, JobStep(c, s, j, step))
  {
    hide Spend;
  }

  lemma StoringAside(c: Config, s: State, j: nat, step: Step)
    requires j < |s.jobs| && s.jobs[j].item < |s.items| && Storing(step)
    ensures SampleAside(s, JobStep(c, s, j, step))
  {
    if step.GradeFails? {
      FailsAside(c, s, j, step.failure);
      hide JobStep;
    }
    hide RecordFor, DoGradeFails;
  }

  lemma FailsAside(c: Config, s: State, j: nat, f: Failure)
    requires j < |s.jobs| && s.jobs[j].item < |s.items|
    ensures SampleAside(s, JobStep(c, s, j, GradeFails(j, f)))
  {
  }

  lemma LateAside(c: Config, s: State, j: nat, step: Step)
    requires j < |s.jobs| && s.jobs[j].item < |s.items|
    requires step.Duplicate? || step.FailItem? || step.Finish? || step.SampleFails?
    ensures SampleAside(s, JobStep(c, s, j, step))
  {
    hide AnyLive;
  }

  predicate Aside(step: Step) {
    ByJob(step) && !step.ReadSample? && !step.ReadPool? && !step.InsertRow?
  }

  lemma JobAside(c: Config, s: State, j: nat, step: Step)
    requires j < |s.jobs| && s.jobs[j].item < |s.items| && Aside(step)
    ensures SampleAside(s, JobStep(c, s, j, step))
  {
    hide JobStep;
    if Early(step) {
      EarlyAside(c, s, j, step);
    } else if Storing(step) {
      StoringAside(c, s, j, step);
    } else {
      LateAside(c, s, j, step);
    }
  }

  // The steps of no delivery: only a waiver and a verdict touch the sample.
  lemma OthersAside(c: Config, s: State, step: Step)
    requires !ByJob(step)
    ensures var s' := Apply(c, s, step);
            && s'.sample.Keys == s.sample.Keys && SampleGrows(s, s')
            && (s'.waived == s.waived || step.Waive?)
            && forall i :: 0 <= i < |s'.jobs| && IsSampling(s'.jobs[i].phase) ==> i < |s.jobs| && s'.jobs[i].phase == s.jobs[i].phase
  {
    if step.RetryFailed? {
      RequeuedFresh(s.items);
    }
    hide Requeued;
  }

  // Reading the state or the pool moves one delivery.
  lemma ReadsSample(c: Config, s: State, j: nat, step: Step)
    requires j < |s.jobs| && s.jobs[j].item < |s.items| && (step.ReadSample? || step.ReadPool?)
    ensures var s' := JobStep(c, s, j, step);
            && s' == s.(jobs := s'.jobs) && |s'.jobs| == |s.jobs|
            && (forall i :: 0 <= i < |s.jobs| && i != j ==> s'.jobs[i] == s.jobs[i])
            && (IsSampling(s'.jobs[j].phase) ==> IsSampling(s.jobs[j].phase) || (step.ReadSample? && !Settled(s)))
            && (s'.jobs[j].phase.Inserting? ==>
                  s'.jobs[j].phase == s.jobs[j].phase || (step.ReadPool? && s'.jobs[j].phase.ids == IdsOf(c.draw(Pool(s.items)))))
  {
    hide Pool;
  }

  lemma InsertsRow(c: Config, s: State, j: nat)
    requires j < |s.jobs| && s.jobs[j].item < |s.items|
    ensures var s' := JobStep(c, s, j, InsertRow(j));
            if !s.jobs[j].phase.Inserting? then s' == s
            else if s.jobs[j].phase.ids == [] then s' == At(s, j, Ended)
            else s' == At(s.(sample := AddedOne(s.sample, s.jobs[j].phase.ids[0])), j, Inserting(s.jobs[j].phase.ids[1..]))
  {
    hide AddedOne;
  }

  // The members of the sample never shrink, and change exactly when an insert widens them.
  lemma SampleStepIff(c: Config, s: State, step: Step)
    ensures SampleGrows(s, Apply(c, s, step))
    ensures Apply(c, s, step).sample.Keys == s.sample.Keys <==> !Widens(s, step)
  {
    if !ByJob(step) {
      OthersAside(c, s, step);
      hide Apply, SampleGrows;
    } else if step.job < |s.jobs| && s.jobs[step.job].item < |s.items| {
      hide JobStep;
      if step.InsertRow? {
        InsertWidensIff(c, s, step.job);
      } else if Aside(step) {
        JobAside(c, s, step.job, step);
      } else {
        ReadsSample(c, s, step.job, step);
      }
    }
  }

  lemma InsertWidensIff(c: Config, s: State, j: nat)
    requires j < |s.jobs| && s.jobs[j].item < |s.items|
    ensures SampleGrows(s, JobStep(c, s, j, InsertRow(j)))
    ensures JobStep(c, s, j, InsertRow(j)).sample.Keys == s.sample.Keys <==> !Widens(s, InsertRow(j))
  {
    InsertsRow(c, s, j);
    hide JobStep;
    var p := s.jobs[j].phase;
    if p.Inserting? && p.ids != [] {
      var after := AddedOne(s.sample, p.ids[0]);
      assert after.Keys == s.sample.Keys + {p.ids[0]};
      assert p.ids[0] in s.sample <==> p.ids[0] in s.sample.Keys;
    }
  }

  // An open gate closes exactly when an insert widens the sample of a run that is not waived.
  lemma GateClosesIff(c: Config, s: State, step: Step)
    requires GateOpen(s)
    ensures GateOpen(Apply(c, s, step)) <==> s.waived || !Widens(s, step)
  {
    var s' := Apply(c, s, step);
    SampleStepIff(c, s, step);
    if !s.waived {
      HasMember(s.sample);
      var member :| member in s.sample;
      assert member in s'.sample.Keys;
      if Widens(s, step) {
        InsertsRow(c, s, step.job);
        var id := s.jobs[step.job].phase.ids[0];
        assert id in s'.sample && !s'.sample[id] && s'.waived == s.waived;
      } else {
        hide Apply, Widens;
        assert forall x :: x in s'.sample.Keys ==> x in s.sample.Keys;
      }
    }
  }

  // ---- over every run ----

  ghost predicate NeverWidens(c: Config, s: State, steps: seq<Step>) {
    forall i :: 0 <= i < |steps| ==> !Widens(Run(c, s, steps[..i]), steps[i])
  }

  lemma WidensSnoc(c: Config, s: State, steps: seq<Step>)
    requires steps != []
    ensures var n := |steps| - 1;
            NeverWidens(c, s, steps) <==> NeverWidens(c, s, steps[..n]) && !Widens(Run(c, s, steps[..n]), steps[n])
  {
    hide Run, Widens;
    EveryStepSnoc(steps, (before: seq<Step>, step: Step) => !Widens(Run(c, s, before), step));
  }

  lemma GrowsTwice(a: State, b: State, s: State)
    requires SampleGrows(a, b) && SampleGrows(b, s)
    ensures SampleGrows(a, s)
    ensures s.sample.Keys == a.sample.Keys <==> b.sample.Keys == a.sample.Keys && s.sample.Keys == b.sample.Keys
  {
  }

  // From any state on, the members of the sample are the same at the end exactly when no insert
  // on the way carried one the sample did not have; verdicts and a waiver stay in any case.
  lemma {:induction false} SampleKeptIff(c: Config, s: State, steps: seq<Step>)
    ensures SampleGrows(s, Run(c, s, steps))
    ensures Settled(s) ==> Settled(Run(c, s, steps))
    ensures Run(c, s, steps).sample.Keys == s.sample.Keys <==> NeverWidens(c, s, steps)
  {
    if steps != [] {
      var n := |steps| - 1;
      var before := Run(c, s, steps[..n]);
      SampleKeptIff(c, s, steps[..n]);
      SampleStepIff(c, before, steps[n]);
      WidensSnoc(c, s, steps);
      hide Apply, NeverWidens, Widens, SampleGrows;
      GrowsTwice(s, before, Run(c, s, steps));
    }
    if Settled(s) {
      GrownIsSettled(s, Run(c, s, steps));
    }
  }

  lemma GrownIsSettled(s: State, s': State)
    requires SampleGrows(s, s') && Settled(s)
    ensures Settled(s')
  {
    if s.sample != map[] {
      HasMember(s.sample);
      var id :| id in s.sample;
      assert id in s'.sample.Keys;
    }
  }

  // ---- once a sample is complete ----

  ghost predicate NoneSampling(s: State) {
    forall j :: 0 <= j < |s.jobs| ==> !IsSampling(s.jobs[j].phase)
  }

  lemma QuietStep(c: Config, s: State, step: Step)
    requires Settled(s) && NoneSampling(s)
    ensures NoneSampling(Apply(c, s, step)) && !Widens(s, step)
  {
    if !ByJob(step) {
      OthersAside(c, s, step);
      hide Apply, IsSampling;
    } else if step.job < |s.jobs| && s.jobs[step.job].item < |s.items| {
      assert !IsSampling(s.jobs[step.job].phase);
      if Aside(step) {
        JobAside(c, s, step.job, step);
        hide JobStep, IsSampling;
      } else if !step.InsertRow? {
        hide JobStep;
        ReadsSample(c, s, step.job, step);
      }
    }
  }

  lemma {:induction false} QuietRun(c: Config, s: State, steps: seq<Step>)
    requires Settled(s) && NoneSampling(s)
    ensures NoneSampling(Run(c, s, steps)) && NeverWidens(c, s, steps)
  {
    if steps != [] {
      var n := |steps| - 1;
      hide Apply, NoneSampling, NeverWidens, Widens, Settled;
      QuietRun(c, s, steps[..n]);
      SampleKeptIff(c, s, steps[..n]);
      QuietStep(c, Run(c, s, steps[..n]), steps[n]);
      WidensSnoc(c, s, steps);
    }
  }

  lemma {:induction false} GateStaysOpen(c: Config, s: State, steps: seq<Step>)
    requires NeverWidens(c, s, steps) && GateOpen(s)
    ensures GateOpen(Run(c, s, steps))
  {
    hide Apply, NeverWidens, Widens, GateOpen;
    if steps != [] {
      var n := |steps| - 1;
      WidensSnoc(c, s, steps);
      GateStaysOpen(c, s, steps[..n]);
      GateClosesIff(c, Run(c, s, steps[..n]), steps[n]);
    }
  }

  // Once a run has a sample, or its gate is waived, and no completion stands between reading that
  // there is none and the last row of its own, nothing that follows, retries and completions
  // included, changes the sample's members, and a gate that is open stays open.
  lemma FirstSampleIsCanonical(c: Config, s: State, steps: seq<Step>)
    requires Settled(s) && NoneSampling(s)
    ensures var s' := Run(c, s, steps);
            s'.sample.Keys == s.sample.Keys && NoneSampling(s') && (GateOpen(s) ==> GateOpen(s'))
  {
    hide Run, GateOpen, Settled, NoneSampling, NeverWidens;
    QuietRun(c, s, steps);
    SampleKeptIff(c, s, steps);
    if GateOpen(s) {
      GateStaysOpen(c, s, steps);
    }
  }

  // A delivery that still has a row to insert for a record outside the sample.
  lemma {:induction false} InsertsOutside(c: Config, s: State, j: nat, ids: seq<int>) returns (steps: seq<Step>)
    requires j < |s.jobs| && s.jobs[j].item < |s.items| && s.jobs[j].phase == Inserting(ids)
    requires exists id :: id in ids && id !in s.sample
    ensures Run(c, s, steps).sample.Keys != s.sample.Keys
    decreases |ids|
  {
    var s' := Apply(c, s, InsertRow(j));
    InsertsRow(c, s, j);
    RunNothing(c, s);
    RunSnoc(c, s, [], InsertRow(j));
    assert [] + [InsertRow(j)] == [InsertRow(j)];
    if ids[0] !in s.sample {
      steps := [InsertRow(j)];
      assert ids[0] in s'.sample.Keys && ids[0] !in s.sample.Keys;
    } else {
      hide Run, Apply;
      assert ids == [ids[0]] + ids[1..];
      var rest := InsertsOutside(c, s', j, ids[1..]);
      RunConcat(c, s, [InsertRow(j)], rest);
      steps := [InsertRow(j)] + rest;
    }
  }

  lemma ReadsDraw(c: Config, s: State, j: nat)
    requires j < |s.jobs| && s.jobs[j].item < |s.items| && s.jobs[j].phase.Drawing? && Pool(s.items) != []
    ensures Apply(c, s, ReadPool(j)) == At(s, j, Inserting(IdsOf(c.draw(Pool(s.items)))))
  {
    hide Pool;
  }

  // While a delivery inserts, or is about to draw, a record outside the sample, the sample can
  // still change.
  lemma UnfinishedCanWiden(c: Config, s: State, j: nat) returns (steps: seq<Step>)
    requires j < |s.jobs| && s.jobs[j].item < |s.items|
    requires var p := s.jobs[j].phase;
             || (p.Inserting? && exists id :: id in p.ids && id !in s.sample)
             || (p.Drawing? && Pool(s.items) != [] && exists id :: id in IdsOf(c.draw(Pool(s.items))) && id !in s.sample)
    ensures Run(c, s, steps).sample.Keys != s.sample.Keys
  {
    hide Run, Apply, Pool, IdsOf;
    if s.jobs[j].phase.Inserting? {
      steps := InsertsOutside(c, s, j, s.jobs[j].phase.ids);
    } else {
      var s' := Apply(c, s, ReadPool(j));
      RunNothing(c, s);
      RunSnoc(c, s, [], ReadPool(j));
      assert [] + [ReadPool(j)] == [ReadPool(j)];
      ReadsDraw(c, s, j);
      var rest := InsertsOutside(c, s', j, IdsOf(c.draw(Pool(s.items))));
      RunConcat(c, s, [ReadPool(j)], rest);
      steps := [ReadPool(j)] + rest;
    }
  }

  // A delivery that still has a record outside the sample to insert.
  ghost predicate Unfinished(s: State) {
    exists j :: 0 <= j < |s.jobs| && s.jobs[j].phase.Inserting? && exists id :: id in s.jobs[j].phase.ids && id !in s.sample
  }

  ghost predicate NoneDrawing(s: State) {
    forall j :: 0 <= j < |s.jobs| ==> !s.jobs[j].phase.Drawing?
  }

  lemma FinishedRow(c: Config, s: State, j: nat)
    requires NoneDrawing(s) && !Unfinished(s) && j < |s.jobs| && s.jobs[j].item < |s.items|
    ensures var s' := JobStep(c, s, j, InsertRow(j));
            NoneDrawing(s') && !Unfinished(s') && !Widens(s, InsertRow(j))
  {
    InsertsRow(c, s, j);
    hide JobStep;
    var p := s.jobs[j].phase;
    if p.Inserting? {
      assert forall id :: id in p.ids ==> id in s.sample;
    }
  }

  // A step that leaves the members alone and starts no sampling.
  lemma FinishedAside(s: State, s': State)
    requires NoneDrawing(s) && !Unfinished(s) && s'.sample.Keys == s.sample.Keys
    requires forall i :: 0 <= i < |s'.jobs| && IsSampling(s'.jobs[i].phase) ==> i < |s.jobs| && s'.jobs[i].phase == s.jobs[i].phase
    ensures NoneDrawing(s') && !Unfinished(s')
  {
    KeysAlike(s.sample, s'.sample);
  }

  lemma ReadsFinished(c: Config, s: State, j: nat, step: Step)
    requires Settled(s) && NoneDrawing(s) && j < |s.jobs| && s.jobs[j].item < |s.items| && (step.ReadSample? || step.ReadPool?)
    ensures var s' := JobStep(c, s, j, step);
            && s'.sample == s.sample
            && forall i :: 0 <= i < |s'.jobs| && IsSampling(s'.jobs[i].phase) ==> i < |s.jobs| && s'.jobs[i].phase == s.jobs[i].phase
  {
    hide Pool;
  }

  lemma FinishedStep(c: Config, s: State, step: Step)
    requires Settled(s) && NoneDrawing(s) && !Unfinished(s)
    ensures var s' := Apply(c, s, step);
            NoneDrawing(s') && !Unfinished(s') && !Widens(s, step)
  {
    var s' := Apply(c, s, step);
    hide Settled, NoneDrawing, Unfinished, JobStep;
    if !ByJob(step) {
      OthersAside(c, s, step);
      hide Apply, SampleGrows;
      FinishedAside(s, s');
    } else if step.job < |s.jobs| && s.jobs[step.job].item < |s.items| {
      if step.InsertRow? {
        FinishedRow(c, s, step.job);
      } else {
        if Aside(step) {
          JobAside(c, s, step.job, step);
        } else {
          ReadsFinished(c, s, step.job, step);
        }
        FinishedAside(s, s');
      }
    }
  }

  lemma {:induction false} FinishedRun(c: Config, s: State, steps: seq<Step>)
    requires Settled(s) && NoneDrawing(s) && !Unfinished(s)
    ensures NoneDrawing(Run(c, s, steps)) && !Unfinished(Run(c, s, steps)) && NeverWidens(c, s, steps)
  {
    if steps != [] {
      var n := |steps| - 1;
      hide Apply, NoneDrawing, Unfinished, NeverWidens, Widens, Settled;
      FinishedRun(c, s, steps[..n]);
      SampleKeptIff(c, s, steps[..n]);
      FinishedStep(c, Run(c, s, steps[..n]), steps[n]);
      WidensSnoc(c, s, steps);
    }
  }

  // With a sample or a waiver and nobody about to draw, nothing that can follow changes the
  // sample's members exactly when no delivery still has one outside it to insert.
  lemma SampleIsFinalIff(c: Config, s: State)
    requires Settled(s) && NoneDrawing(s) && forall j :: 0 <= j < |s.jobs| ==> s.jobs[j].item < |s.items|
    ensures (forall steps :: Run(c, s, steps).sample.Keys == s.sample.Keys) <==> !Unfinished(s)
  {
    hide Run, NeverWidens, Settled, NoneDrawing;
    if Unfinished(s) {
      var j :| 0 <= j < |s.jobs| && s.jobs[j].phase.Inserting? && exists id :: id in s.jobs[j].phase.ids && id !in s.sample;
      var steps := UnfinishedCanWiden(c, s, j);
      assert Run(c, s, steps).sample.Keys != s.sample.Keys;
    } else {
      forall steps
        ensures Run(c, s, steps).sample.Keys == s.sample.Keys
      {
        FinishedRun(c, s, steps);
        SampleKeptIff(c, s, steps);
      }
    }
  }

  // ---- what a sample was drawn from ----

  // At step i the record was drawn, from an item that had succeeded by then.
  ghost predicate DrawnAt(c: Config, steps: seq<Step>, i: nat, id: int) {
    && i < |steps| && steps[i].ReadPool?
    && var items := Run(c, Start(), steps[..i]).items;
       exists l: Sampling.Leaf :: l.id == id && l in c.draw(Pool(items)) && Succeeded(items, l)
  }

  ghost predicate WasDrawn(c: Config, steps: seq<Step>, id: int) {
    exists i: nat :: DrawnAt(c, steps, i, id)
  }

  // Every member of the sample, and every record a delivery is about to add to it.
  ghost predicate AllDrawn(c: Config, steps: seq<Step>, s: State) {
    && (forall id :: id in s.sample ==> WasDrawn(c, steps, id))
    && forall j, id :: 0 <= j < |s.jobs| && s.jobs[j].phase.Inserting? && id in s.jobs[j].phase.ids ==> WasDrawn(c, steps, id)
  }

  lemma DrawnLater(c: Config, steps: seq<Step>, step: Step, i: nat, id: int)
    requires DrawnAt(c, steps, i, id)
    ensures DrawnAt(c, steps + [step], i, id)
  {
    assert (steps + [step])[..i] == steps[..i];
    hide Run, Pool, Succeeded;
  }

  lemma DrawnNow(c: Config, steps: seq<Step>, j: nat, id: int)
    requires forall pool, l :: l in c.draw(pool) ==> l in pool
    requires id in IdsOf(c.draw(Pool(Run(c, Start(), steps).items)))
    ensures DrawnAt(c, steps + [ReadPool(j)], |steps|, id)
  {
    hide Run;
    var items := Run(c, Start(), steps).items;
    var drawn := c.draw(Pool(items));
    var i :| 0 <= i < |drawn| && IdsOf(drawn)[i] == id;
    assert drawn[i] in drawn;
    PoolSucceeded(items, drawn[i]);
    hide Pool, Succeeded;
    assert (steps + [ReadPool(j)])[..|steps|] == steps;
    assert DrawnAt(c, steps + [ReadPool(j)], |steps|, id);
  }

  // Members and records about to be added come from the state before, or from this draw.
  lemma SampleSource(c: Config, s: State, step: Step)
    ensures var s' := Apply(c, s, step);
            && (forall id :: id in s'.sample ==>
                  id in s.sample || exists j :: 0 <= j < |s.jobs| && s.jobs[j].phase.Inserting? && id in s.jobs[j].phase.ids)
            && (forall j :: 0 <= j < |s'.jobs| && s'.jobs[j].phase.Inserting? ==>
                  || (j < |s.jobs| && s.jobs[j].phase.Inserting? && forall id :: id in s'.jobs[j].phase.ids ==> id in s.jobs[j].phase.ids)
                  || (step.ReadPool? && s'.jobs[j].phase.ids == IdsOf(c.draw(Pool(s.items)))))
  {
    var s' := Apply(c, s, step);
    if !ByJob(step) {
      OthersAside(c, s, step);
      hide Apply, SampleGrows, IdsOf, Pool;
      KeysAlike(s.sample, s'.sample);
    } else if step.job < |s.jobs| && s.jobs[step.job].item < |s.items| {
      hide JobStep, IdsOf, Pool;
      JobSource(c, s, step);
    }
  }

  lemma JobSource(c: Config, s: State, step: Step)
    requires ByJob(step) && step.job < |s.jobs| && s.jobs[step.job].item < |s.items|
    ensures var s' := JobStep(c, s, step.job, step);
            && (forall id :: id in s'.sample ==>
                  id in s.sample || (s.jobs[step.job].phase.Inserting? && id in s.jobs[step.job].phase.ids))
            && (forall j :: 0 <= j < |s'.jobs| && s'.jobs[j].phase.Inserting? ==>
                  || (j < |s.jobs| && s.jobs[j].phase.Inserting? && forall id :: id in s'.jobs[j].phase.ids ==> id in s.jobs[j].phase.ids)
                  || (step.ReadPool? && s'.jobs[j].phase.ids == IdsOf(c.draw(Pool(s.items)))))
  {
    hide JobStep, IdsOf, Pool;
    if Aside(step) {
      JobAside(c, s, step.job, step);
    } else if step.InsertRow? {
      InsertsRow(c, s, step.job);
    } else {
      ReadsSample(c, s, step.job, step);
    }
  }

  lemma KeysAlike(a: map<int, bool>, b: map<int, bool>)
    requires a.Keys == b.Keys
    ensures forall id :: id in a <==> id in b
  {
    assert forall id :: (id in a <==> id in a.Keys) && (id in b <==> id in b.Keys);
  }

  lemma DrawnStep(c: Config, steps: seq<Step>, step: Step)
    requires forall pool, l :: l in c.draw(pool) ==> l in pool
    requires AllDrawn(c, steps, Run(c, Start(), steps))
    ensures AllDrawn(c, steps + [step], Apply(c, Run(c, Start(), steps), step))
  {
    var s := Run(c, Start(), steps);
    SampleSource(c, s, step);
    forall i: nat, id | DrawnAt(c, steps, i, id)
      ensures DrawnAt(c, steps + [step], i, id)
    {
      DrawnLater(c, steps, step, i, id);
    }
    assert forall id :: WasDrawn(c, steps, id) ==> WasDrawn(c, steps + [step], id);
    if step.ReadPool? {
      forall id | id in IdsOf(c.draw(Pool(s.items)))
        ensures WasDrawn(c, steps + [step], id)
      {
        DrawnNow(c, steps, step.job, id);
      }
    }
    hide Run, WasDrawn, Pool, IdsOf, Apply;
  }

  // Over every run, whatever overlaps, each member of the sample was drawn by a completion from an
  // item that had succeeded when that completion read the items.
  lemma {:induction false} DrawnFromSucceeded(c: Config, steps: seq<Step>)
    requires forall pool, l :: l in c.draw(pool) ==> l in pool
    ensures AllDrawn(c, steps, Run(c, Start(), steps))
    ensures forall id :: id in Run(c, Start(), steps).sample ==> WasDrawn(c, steps, id)
  {
    if steps != [] {
      var n := |steps| - 1;
      DrawnFromSucceeded(c, steps[..n]);
      hide Apply, AllDrawn;
      DrawnStep(c, steps[..n], steps[n]);
      assert steps == steps[..n] + [steps[n]];
    }
    hide Run, WasDrawn;
  }
}
