/** The sample a completed run owes: which steps leave a completed run with graded leaves, no
    sample and nobody to draw one. */
module GradingRunOwed {
  import opened Wrappers
  import opened Seqs
  import opened GradingRun
  import opened GradingRunSample
  import GradingRunLive
  import Sampling

  // A delivery that will still read the state, draw, or insert a row.
  predicate Samples(d: Delivery) {
    d.phase.Completing? || d.phase.Drawing? || (d.phase.Inserting? && d.phase.ids != [])
  }

  predicate AnySampler(jobs: seq<Delivery>) {
    exists j :: 0 <= j < |jobs| && Samples(jobs[j])
  }

  predicate OtherSampler(jobs: seq<Delivery>, j: nat) {
    exists i :: 0 <= i < |jobs| && i != j && Samples(jobs[i])
  }

  predicate IsGraded(i: Item) {
    i.state == ItemSucceeded && i.record.Some?
  }

  // One of the items that are sampled from is graded.
  predicate AnyGraded(items: seq<Item>) {
    exists k :: 0 <= k < |items| && k < SAMPLE_ITEMS && IsGraded(items[k])
  }

  // Completed, with something to sample, no sample and no waiver.
  predicate Due(s: State) {
    s.status == RunCompleted && !Settled(s) && AnyGraded(s.items)
  }

  // Whoever waits for the sample has a delivery to wait for.
  predicate Owed(s: State) {
    Due(s) ==> AnySampler(s.jobs)
  }

  lemma PoolIsGraded(items: seq<Item>)
    ensures Pool(items) != [] <==> AnyGraded(items)
  {
    var first := if |items| <= SAMPLE_ITEMS then items else items[..SAMPLE_ITEMS];
    PoolOf(first);
    hide FlatMap;
    if Pool(items) != [] {
      assert Pool(items)[0] in FlatMap(first, Graded);
      var k :| 0 <= k < |first| && first[k].state == ItemSucceeded && first[k].record.Some?
        && Pool(items)[0] == Sampling.Leaf(first[k].record.value, first[k].problem);
      assert IsGraded(items[k]);
    }
    if AnyGraded(items) {
      var k :| 0 <= k < |items| && k < SAMPLE_ITEMS && IsGraded(items[k]);
      assert first[k] == items[k];
      assert Sampling.Leaf(first[k].record.value, first[k].problem) in FlatMap(first, Graded);
    }
  }

  // The step stores a verdict, or finds one stored.
  predicate Grades(s: State, step: Step)
    requires ByJob(step) && step.job < |s.jobs| && s.jobs[step.job].item < |s.items|
  {
    var p, it := s.jobs[step.job].phase, s.items[s.jobs[step.job].item];
    (step.Persist? && p.Persisting?) || (step.FindRecord? && p.Marked? && RecordFor(s.records, it.answer, it.model).Some?)
  }

  // The first leaf to be sampled from is graded.
  predicate GradesFirst(s: State, step: Step)
    requires ByJob(step) && step.job < |s.jobs| && s.jobs[step.job].item < |s.items|
  {
    var k := s.jobs[step.job].item;
    && !AnyGraded(s.items) && k < SAMPLE_ITEMS && Grades(s, step)
  }

  // The last delivery that would have sampled stops, or draws nothing; or there was none left when
  // there came to be something to sample.
  predicate Misses(c: Config, s: State, step: Step) {
    && ByJob(step) && step.job < |s.jobs| && s.jobs[step.job].item < |s.items|
    && s.status == RunCompleted && !Settled(s) && !OtherSampler(s.jobs, step.job)
    && (Stops(s, step) || DrawsNothing(c, s, step) || GradesFirst(s, step))
  }

  predicate Stops(s: State, step: Step)
    requires ByJob(step) && step.job < |s.jobs|
  {
    (step.Crash? || step.SampleFails?) && Samples(s.jobs[step.job]) && AnyGraded(s.items)
  }

  predicate DrawsNothing(c: Config, s: State, step: Step)
    requires ByJob(step) && step.job < |s.jobs|
  {
    step.ReadPool? && s.jobs[step.job].phase.Drawing? && AnyGraded(s.items) && c.draw(Pool(s.items)) == []
  }

  // ---- each step ----

  // One delivery moves, or more are queued; the run stays completed and unsettled, if it was.
  ghost predicate OneMoves(s: State, s': State, j: nat) {
    && j < |s.jobs| <= |s'.jobs|
    && (forall i :: 0 <= i < |s.jobs| && i != j ==> s'.jobs[i] == s.jobs[i])
    && (forall i :: |s.jobs| <= i < |s'.jobs| ==> !Samples(s'.jobs[i]))
  }

  lemma SamplersAfter(s: State, s': State, j: nat)
    requires OneMoves(s, s', j)
    ensures AnySampler(s'.jobs) <==> OtherSampler(s.jobs, j) || Samples(s'.jobs[j])
    ensures AnySampler(s.jobs) <==> OtherSampler(s.jobs, j) || Samples(s.jobs[j])
  {
    hide Samples;
    if OtherSampler(s.jobs, j) {
      var i :| 0 <= i < |s.jobs| && i != j && Samples(s.jobs[i]);
      assert Samples(s'.jobs[i]);
    }
    if AnySampler(s'.jobs) {
      var i :| 0 <= i < |s'.jobs| && Samples(s'.jobs[i]);
      assert i != j ==> Samples(s.jobs[i]);
    }
  }

  // An item that is not graded leaves no more to sample than there was.
  lemma ItemSet(items: seq<Item>, k: nat, i: Item)
    requires k < |items|
    ensures !IsGraded(i) && AnyGraded(items[k := i]) ==> AnyGraded(items)
    ensures IsGraded(i) ==> (AnyGraded(items[k := i]) <==> k < SAMPLE_ITEMS || AnyGraded(items))
  {
    var after := items[k := i];
    hide IsGraded;
    if IsGraded(i) && k < SAMPLE_ITEMS {
      assert IsGraded(after[k]);
    }
    if AnyGraded(after) {
      var n :| 0 <= n < |after| && n < SAMPLE_ITEMS && IsGraded(after[n]);
      assert n != k ==> IsGraded(items[n]);
    }
    if AnyGraded(items) && k >= SAMPLE_ITEMS {
      var n :| 0 <= n < |items| && n < SAMPLE_ITEMS && IsGraded(items[n]);
      assert IsGraded(after[n]);
    }
  }

  // What a step leaves of the three things a due sample rests on.
  ghost predicate SameRun(s: State, s': State) {
    s'.status == s.status && s'.sample == s.sample && s'.waived == s.waived
  }

  lemma QuietRead(c: Config, s: State, j: nat, step: Step)
    requires j < |s.jobs| && s.jobs[j].item < |s.items|
    requires step.Snooze? || step.Load? || step.ReadStatus? || step.CheckCap?
    ensures var s' := JobStep(c, s, j, step);
            OneMoves(s, s', j) && SameRun(s, s') && s'.items == s.items && (Samples(s'.jobs[j]) <==> Samples(s.jobs[j]))
  {
    hide Spend;
  }

  lemma QuietWrite(c: Config, s: State, j: nat, step: Step)
    requires j < |s.jobs| && s.jobs[j].item < |s.items| && (step.Skip? || step.MarkRunning?)
    ensures var s' := JobStep(c, s, j, step);
            && OneMoves(s, s', j) && SameRun(s, s') && (AnyGraded(s'.items) ==> AnyGraded(s.items))
            && (Samples(s'.jobs[j]) <==> Samples(s.jobs[j]))
  {
    var k := s.jobs[j].item;
    ItemSet(s.items, k, s.items[k].(state := ItemSkipped, record := None));
    ItemSet(s.items, k, s.items[k].(state := ItemRunning, record := s.items[k].record));
    hide AnyGraded;
  }

  lemma QuietLate(c: Config, s: State, j: nat, step: Step)
    requires j < |s.jobs| && s.jobs[j].item < |s.items| && (step.Grade? || step.GradeFails? || step.FailItem?)
    ensures var s' := JobStep(c, s, j, step);
            && OneMoves(s, s', j) && SameRun(s, s') && (AnyGraded(s'.items) ==> AnyGraded(s.items))
            && (Samples(s'.jobs[j]) <==> Samples(s.jobs[j]))
  {
    var k := s.jobs[j].item;
    ItemSet(s.items, k, s.items[k].(state := ItemFailed, record := None));
    hide AnyGraded;
  }

  lemma GradingJob(c: Config, s: State, j: nat, step: Step)
    requires j < |s.jobs| && s.jobs[j].item < |s.items| && (step.FindRecord? || step.Persist?) && step.job == j
    ensures var s' := JobStep(c, s, j, step);
            && OneMoves(s, s', j) && SameRun(s, s')
            && (AnyGraded(s'.items) <==> AnyGraded(s.items) || GradesFirst(s, step))
            && (Samples(s'.jobs[j]) <==> Samples(s.jobs[j]))
  {
    var s' := JobStep(c, s, j, step);
    GradesItem(c, s, j, step);
    hide JobStep, Grades, AnyGraded, IsGraded;
    if Grades(s, step) {
      ItemSet(s.items, s.jobs[j].item, s'.items[s.jobs[j].item]);
    }
  }

  lemma GradesItem(c: Config, s: State, j: nat, step: Step)
    requires j < |s.jobs| && s.jobs[j].item < |s.items| && (step.FindRecord? || step.Persist?) && step.job == j
    ensures var s' := JobStep(c, s, j, step);
            var k := s.jobs[j].item;
            && OneMoves(s, s', j) && SameRun(s, s') && (Samples(s'.jobs[j]) <==> Samples(s.jobs[j]))
            && |s'.items| == |s.items|
            && (if Grades(s, step) then IsGraded(s'.items[k]) && s'.items == s.items[k := s'.items[k]] else s'.items == s.items)
  {
    hide RecordFor;
  }

  lemma StoppingJob(c: Config, s: State, j: nat, step: Step)
    requires j < |s.jobs| && s.jobs[j].item < |s.items| && (step.Crash? || step.SampleFails?) && step.job == j
    ensures var s' := JobStep(c, s, j, step);
            OneMoves(s, s', j) && SameRun(s, s') && s'.items == s.items && !Samples(s'.jobs[j])
  {
  }

  lemma DrawingJob(c: Config, s: State, j: nat, step: Step)
    requires j < |s.jobs| && s.jobs[j].item < |s.items| && !Settled(s)
    requires (step.ReadSample? || step.ReadPool?) && step.job == j
    ensures var s' := JobStep(c, s, j, step);
            && OneMoves(s, s', j) && SameRun(s, s') && s'.items == s.items
            && (AnyGraded(s.items) ==> (Samples(s'.jobs[j]) <==> Samples(s.jobs[j]) && !DrawsNothing(c, s, step)))
  {
    PoolIsGraded(s.items);
    hide Pool, AnyGraded;
  }

  lemma InsertingJob(c: Config, s: State, j: nat)
    requires j < |s.jobs| && s.jobs[j].item < |s.items|
    ensures var s' := JobStep(c, s, j, InsertRow(j));
            && OneMoves(s, s', j) && s'.status == s.status && s'.items == s.items && (Settled(s) ==> Settled(s'))
            && (!Settled(s') ==> s'.sample == s.sample && (Samples(s'.jobs[j]) <==> Samples(s.jobs[j])))
  {
    InsertsRow(c, s, j);
    hide JobStep;
  }

  lemma FinishingJob(c: Config, s: State, j: nat)
    requires j < |s.jobs| && s.jobs[j].item < |s.items|
    ensures var s' := JobStep(c, s, j, Finish(j));
            && OneMoves(s, s', j) && s'.items == s.items && s'.sample == s.sample && s'.waived == s.waived
            && (s'.status != s.status ==> Samples(s'.jobs[j]))
            && (Samples(s.jobs[j]) ==> s' == s)
            && (s'.status == s.status ==> (Samples(s'.jobs[j]) <==> Samples(s.jobs[j])))
  {
    hide AnyLive;
  }

  lemma DuplicatingJob(c: Config, s: State, j: nat)
    requires j < |s.jobs| && s.jobs[j].item < |s.items|
    ensures var s' := JobStep(c, s, j, Duplicate(j));
            OneMoves(s, s', j) && SameRun(s, s') && s'.items == s.items && s'.jobs[j] == s.jobs[j]
  {
  }

  // A step that changes no sampling and brings nothing to sample.
  lemma QuietOwed(s: State, s': State, j: nat)
    requires Owed(s) && OneMoves(s, s', j) && SameRun(s, s')
    requires (AnyGraded(s'.items) ==> AnyGraded(s.items)) && (Samples(s'.jobs[j]) <==> Samples(s.jobs[j]))
    ensures Owed(s')
  {
    SamplersAfter(s, s', j);
    hide AnyGraded, Samples, AnySampler, OtherSampler, OneMoves;
  }

  lemma QuietJobOwed(c: Config, s: State, j: nat, step: Step)
    requires Owed(s) && ByJob(step) && !Sampled(step) && !Storing(step) && !step.Crash? && !step.Finish?
    requires step.job == j && j < |s.jobs| && s.jobs[j].item < |s.items|
    ensures Owed(JobStep(c, s, j, step)) && !Misses(c, s, step)
  {
    hide JobStep, AnyGraded, Samples, OneMoves, Owed;
    if step.Skip? || step.MarkRunning? {
      QuietWrite(c, s, j, step);
    } else if Early(step) {
      QuietRead(c, s, j, step);
    } else if step.Duplicate? {
      DuplicatingJob(c, s, j);
    } else {
      QuietLate(c, s, j, step);
    }
    QuietOwed(s, JobStep(c, s, j, step), j);
  }

  lemma StoringJobOwed(c: Config, s: State, j: nat, step: Step)
    requires Owed(s) && Storing(step) && step.job == j && j < |s.jobs| && s.jobs[j].item < |s.items|
    ensures Owed(JobStep(c, s, j, step)) <==> !Misses(c, s, step)
  {
    var s' := JobStep(c, s, j, step);
    hide JobStep, AnyGraded, Samples, AnySampler, OtherSampler, OneMoves, Grades;
    if step.FindRecord? || step.Persist? {
      GradingJob(c, s, j, step);
      GradesNoSampler(s, j, step);
      SamplersAfter(s, s', j);
    } else {
      QuietLate(c, s, j, step);
      QuietOwed(s, s', j);
    }
  }

  lemma GradesNoSampler(s: State, j: nat, step: Step)
    requires ByJob(step) && step.job == j && j < |s.jobs| && s.jobs[j].item < |s.items|
    ensures Grades(s, step) ==> !Samples(s.jobs[j])
  {
    hide RecordFor;
  }

  lemma SamplingJobOwed(c: Config, s: State, j: nat, step: Step)
    requires Owed(s) && (Sampled(step) || step.Crash? || step.Finish?) && step.job == j && j < |s.jobs| && s.jobs[j].item < |s.items|
    ensures Owed(JobStep(c, s, j, step)) <==> !Misses(c, s, step)
  {
    var s' := JobStep(c, s, j, step);
    hide JobStep, AnyGraded, Samples, AnySampler, OtherSampler, OneMoves, DrawsNothing;
    if step.Crash? || step.SampleFails? {
      StoppingJob(c, s, j, step);
    } else if step.InsertRow? {
      InsertingJob(c, s, j);
    } else if step.Finish? {
      FinishingJob(c, s, j);
    } else if Settled(s) {
      ReadingSettled(c, s, j, step);
    } else {
      DrawingJob(c, s, j, step);
    }
    SamplersAfter(s, s', j);
  }

  lemma ReadingSettled(c: Config, s: State, j: nat, step: Step)
    requires j < |s.jobs| && s.jobs[j].item < |s.items| && (step.ReadSample? || step.ReadPool?)
    ensures var s' := JobStep(c, s, j, step);
            OneMoves(s, s', j) && SameRun(s, s')
  {
    hide Pool;
  }

  lemma OtherOwed(c: Config, s: State, step: Step)
    requires Owed(s) && !ByJob(step)
    ensures Owed(Apply(c, s, step))
  {
    hide Requeued, AnyGraded, AnySampler;
  }

  // Any step at all keeps a due sample owed, unless it misses it.
  lemma OwedStepIff(c: Config, s: State, step: Step)
    requires Owed(s)
    ensures Owed(Apply(c, s, step)) <==> !Misses(c, s, step)
  {
    if !ByJob(step) {
      OtherOwed(c, s, step);
      hide Apply, Owed;
    } else if step.job < |s.jobs| && s.jobs[step.job].item < |s.items| {
      hide JobStep, Owed, Misses;
      if Storing(step) {
        StoringJobOwed(c, s, step.job, step);
      } else if Sampled(step) || step.Crash? || step.Finish? {
        SamplingJobOwed(c, s, step.job, step);
      } else {
        QuietJobOwed(c, s, step.job, step);
      }
    }
  }

  // ---- over every run ----

  ghost predicate AlwaysOwed(c: Config, steps: seq<Step>) {
    forall i :: 0 <= i <= |steps| ==> Owed(Run(c, Start(), steps[..i]))
  }

  ghost predicate NeverMisses(c: Config, steps: seq<Step>) {
    forall i :: 0 <= i < |steps| ==> !Misses(c, Run(c, Start(), steps[..i]), steps[i])
  }

  lemma StartOwed()
    ensures Owed(Start())
  {
  }

  // Over every run, the sample a completed run is due always has a delivery that will draw it,
  // exactly when no step misses it.
  lemma AlwaysOwedIff(c: Config, steps: seq<Step>)
    ensures AlwaysOwed(c, steps) <==> NeverMisses(c, steps)
  {
    hide Apply, Owed, Misses;
    StartOwed();
    RunNothing(c, Start());
    forall i | 0 <= i < |steps| && Owed(Run(c, Start(), steps[..i]))
      ensures Owed(Run(c, Start(), steps[..i + 1])) <==> !Misses(c, Run(c, Start(), steps[..i]), steps[i])
    {
      assert steps[..i + 1] == steps[..i] + [steps[i]];
      RunSnoc(c, Start(), steps[..i], steps[i]);
      OwedStepIff(c, Run(c, Start(), steps[..i]), steps[i]);
    }
    hide Run;
    StepwiseIff(steps, (before: seq<Step>) => Owed(Run(c, Start(), before)),
                (before: seq<Step>, step: Step) => Misses(c, Run(c, Start(), before), step));
  }

  // So once the queue has drained, a completed run with graded leaves has a sample or a waiver,
  // unless a step missed it.
  lemma DrainedIsSampled(c: Config, steps: seq<Step>)
    requires NeverMisses(c, steps)
    requires var s := Run(c, Start(), steps); GradingRunLive.Drained(s) && s.status == RunCompleted && Pool(s.items) != []
    ensures Settled(Run(c, Start(), steps))
  {
    var s := Run(c, Start(), steps);
    AlwaysOwedIff(c, steps);
    assert steps[..|steps|] == steps;
    assert Owed(s);
    PoolIsGraded(s.items);
    hide Run, AnyGraded, Pool, Settled, NeverMisses;
  }
}
