/** No grading run is left behind: every unfinished item has a delivery still to finish it, and a
    running run has a delivery still to check for completion. Which steps break that, and which
    schedules never take one. */
module GradingRunLive {
  import opened Wrappers
  import opened Seqs
  import opened GradingRun

  // Its item's outcome, and then the completion check, are still to come from this delivery.
  predicate BeforeTerminal(p: Phase) {
    p.Queued? || p.Loaded? || p.Admitted? || p.Cleared? || p.Marked? || p.Calling? || p.Persisting? || p.Failing?
  }

  // It will write its item's outcome. One that skips it does not check for completion.
  predicate Attending(p: Phase) {
    BeforeTerminal(p) || p.Skipping?
  }

  // It will still check whether the run is complete.
  predicate BeforeFinish(p: Phase) {
    BeforeTerminal(p) || p.Finishing?
  }

  predicate Attends(jobs: seq<Delivery>, j: nat, k: nat) {
    j < |jobs| && jobs[j].item == k && Attending(jobs[j].phase)
  }

  predicate Watches(jobs: seq<Delivery>, j: nat) {
    j < |jobs| && BeforeFinish(jobs[j].phase)
  }

  predicate Sound(s: State) {
    forall j :: 0 <= j < |s.jobs| ==> s.jobs[j].item < |s.items|
  }

  ghost predicate Attended(s: State) {
    && Sound(s)
    && (forall k: nat :: k < |s.items| && IsLive(s.items[k]) ==> exists j :: Attends(s.jobs, j, k))
    && (s.status == RunRunning ==> exists j :: Watches(s.jobs, j))
  }

  predicate OtherAttends(jobs: seq<Delivery>, j: nat, k: nat) {
    exists i: nat :: i < |jobs| && i != j && Attends(jobs, i, k)
  }

  predicate OtherWatches(jobs: seq<Delivery>, j: nat) {
    exists i: nat :: i < |jobs| && i != j && Watches(jobs, i)
  }

  // ---- the steps that leave something behind ----

  // The queue discards the delivery: its last attempt crashed, or was cut off by a shutdown that
  // the error hides.
  predicate Loses(s: State, step: Step) {
    && ByJob(step) && step.job < |s.jobs| && s.jobs[step.job].attempt >= LEAF_MAX_ATTEMPTS
    && var p := s.jobs[step.job].phase;
       (step.Crash? && Working(p)) || (step.GradeFails? && InGradeLeaf(p) && step.failure == Interrupted(false) && s.stopping)
  }

  // A discarded delivery that was the last on its unfinished item, or the last to watch a running
  // run; and a completion check that comes before the last item is skipped by a delivery that
  // will not check again.
  predicate Strands(s: State, step: Step) {
    && ByJob(step) && step.job < |s.jobs| && s.jobs[step.job].item < |s.items|
    && var j, k := step.job, s.jobs[step.job].item;
       || (step.Finish? && s.jobs[j].phase.Finishing? && s.status == RunRunning && AnyLive(s.items) && !OtherWatches(s.jobs, j))
       || (Loses(s, step) && IsLive(s.items[k]) && !OtherAttends(s.jobs, j, k))
       || (Loses(s, step) && s.status == RunRunning && !OtherWatches(s.jobs, j))
  }

  // A failed attempt comes again or writes its outcome, unless it is lost.
  lemma FailureKeepsDelivery(s: State, j: nat, f: Failure)
    requires j < |s.jobs| && InGradeLeaf(s.jobs[j].phase)
    ensures BeforeTerminal(AfterFailure(s.stopping, s.jobs[j], f).phase) <==> !Loses(s, GradeFails(j, f))
    ensures AfterFailure(s.stopping, s.jobs[j], f).item == s.jobs[j].item
    ensures Loses(s, GradeFails(j, f)) ==> AfterFailure(s.stopping, s.jobs[j], f).phase == Discarded
  {
  }

  // ---- one delivery moves ----

  // Only delivery j moved, and only its own item changed.
  ghost predicate Moves(s: State, s': State, j: nat) {
    && j < |s.jobs| == |s'.jobs| && |s'.items| == |s.items|
    && s'.jobs[j].item == s.jobs[j].item
    && (forall i :: 0 <= i < |s.jobs| && i != j ==> s'.jobs[i] == s.jobs[i])
    && (forall k :: 0 <= k < |s.items| && k != s.jobs[j].item ==> s'.items[k] == s.items[k])
  }

  lemma OthersStay(s: State, s': State, j: nat, k: nat)
    requires Moves(s, s', j)
    ensures OtherAttends(s'.jobs, j, k) <==> OtherAttends(s.jobs, j, k)
    ensures OtherWatches(s'.jobs, j) <==> OtherWatches(s.jobs, j)
    ensures (exists i :: Attends(s'.jobs, i, k)) <==> OtherAttends(s'.jobs, j, k) || Attends(s'.jobs, j, k)
    ensures (exists i :: Watches(s'.jobs, i)) <==> OtherWatches(s'.jobs, j) || Watches(s'.jobs, j)
  {
    hide Attending, BeforeFinish;
    if OtherAttends(s.jobs, j, k) {
      var i: nat :| i < |s.jobs| && i != j && Attends(s.jobs, i, k);
      assert Attends(s'.jobs, i, k);
    }
    if OtherAttends(s'.jobs, j, k) {
      var i: nat :| i < |s'.jobs| && i != j && Attends(s'.jobs, i, k);
      assert Attends(s.jobs, i, k);
    }
    if OtherWatches(s.jobs, j) {
      var i: nat :| i < |s.jobs| && i != j && Watches(s.jobs, i);
      assert Watches(s'.jobs, i);
    }
    if OtherWatches(s'.jobs, j) {
      var i: nat :| i < |s'.jobs| && i != j && Watches(s'.jobs, i);
      assert Watches(s.jobs, i);
    }
  }

  // Nothing is left behind exactly when its own item and the run are still looked after.
  lemma MovedAttended(s: State, s': State, j: nat)
    requires Attended(s) && Moves(s, s', j)
    ensures var k := s.jobs[j].item;
            && k < |s.items|
            && (Attended(s') <==>
                  && (IsLive(s'.items[k]) ==> Attending(s'.jobs[j].phase) || OtherAttends(s.jobs, j, k))
                  && (s'.status == RunRunning ==> BeforeFinish(s'.jobs[j].phase) || OtherWatches(s.jobs, j)))
  {
    var k := s.jobs[j].item;
    OthersStay(s, s', j, k);
    hide Attending, BeforeFinish, IsLive, OtherAttends, OtherWatches;
    forall i: nat | i < |s'.items| && i != k && IsLive(s'.items[i])
      ensures exists d :: Attends(s'.jobs, d, i)
    {
      var d :| Attends(s.jobs, d, i);
      assert Attends(s'.jobs, d, i);
    }
    assert Sound(s');
  }

  lemma CrashAttended(c: Config, s: State, j: nat, step: Step)
    requires Attended(s) && j < |s.jobs| && s.jobs[j].item < |s.items| && (step.Crash? || step.Snooze?) && step.job == j
    ensures Attended(JobStep(c, s, j, step)) <==> !Strands(s, step)
  {
    var s' := JobStep(c, s, j, step);
    MovedAttended(s, s', j);
    MovedAttended(s, s, j);
    hide Attended, AnyLive, IsLive, OtherAttends, OtherWatches;
  }

  // It still has its outcome to write, or wrote it and has still to check.
  lemma StillAttended(s: State, s': State, j: nat)
    requires Attended(s) && (s' == s || Moves(s, s', j))
    requires s' == s || BeforeTerminal(s'.jobs[j].phase) || (s'.jobs[j].phase.Finishing? && !IsLive(s'.items[s.jobs[j].item]))
    ensures Attended(s')
  {
    if s' != s {
      MovedAttended(s, s', j);
      hide Attended, Moves;
    }
  }

  lemma EnterAttended(c: Config, s: State, j: nat, step: Step)
    requires Attended(s) && j < |s.jobs| && s.jobs[j].item < |s.items| && (step.Load? || step.CheckCap? || step.MarkRunning?)
    ensures Attended(JobStep(c, s, j, step))
  {
    var s' := JobStep(c, s, j, step);
    hide Attended, Spend, AnyLive;
    StillAttended(s, s', j);
  }

  lemma SkipAttended(c: Config, s: State, j: nat, step: Step)
    requires Attended(s) && j < |s.jobs| && s.jobs[j].item < |s.items| && (step.ReadStatus? || step.Skip?)
    ensures Attended(JobStep(c, s, j, step))
  {
    var s' := JobStep(c, s, j, step);
    MovedAttended(s, s', j);
    MovedAttended(s, s, j);
    hide Attended, AnyLive, OtherAttends, OtherWatches;
  }

  lemma FailureAttended(c: Config, s: State, j: nat, f: Failure)
    requires Attended(s) && j < |s.jobs| && s.jobs[j].item < |s.items|
    ensures Attended(JobStep(c, s, j, GradeFails(j, f))) <==> !Strands(s, GradeFails(j, f))
  {
    var s' := JobStep(c, s, j, GradeFails(j, f));
    if InGradeLeaf(s.jobs[j].phase) {
      FailureKeepsDelivery(s, j, f);
    }
    MovedAttended(s, s', j);
    hide Attended, AnyLive, IsLive, AfterFailure, OtherAttends, OtherWatches;
  }

  lemma StoringAttended(c: Config, s: State, j: nat, step: Step)
    requires Attended(s) && j < |s.jobs| && s.jobs[j].item < |s.items| && (step.FindRecord? || step.Grade? || step.Persist? || step.FailItem?)
    ensures Attended(JobStep(c, s, j, step))
  {
    var s' := JobStep(c, s, j, step);
    hide Attended, RecordFor, AnyLive;
    StillAttended(s, s', j);
  }

  lemma FinishAttended(c: Config, s: State, j: nat)
    requires Attended(s) && j < |s.jobs| && s.jobs[j].item < |s.items|
    ensures Attended(JobStep(c, s, j, Finish(j))) <==> !Strands(s, Finish(j))
  {
    var s' := JobStep(c, s, j, Finish(j));
    MovedAttended(s, s', j);
    MovedAttended(s, s, j);
    hide Attended, OtherAttends, OtherWatches;
  }

  lemma SampledAttended(c: Config, s: State, j: nat, step: Step)
    requires Attended(s) && j < |s.jobs| && s.jobs[j].item < |s.items| && Sampled(step)
    ensures Attended(JobStep(c, s, j, step))
  {
    var s' := JobStep(c, s, j, step);
    MovedAttended(s, s', j);
    MovedAttended(s, s, j);
    hide Attended, AnyLive, Pool, AddedOne, Settled, OtherAttends, OtherWatches;
  }

  // ---- more deliveries ----

  lemma MoreJobs(s: State, s': State)
    requires Attended(s) && Sound(s') && s.jobs <= s'.jobs && s'.items == s.items
    requires s'.status == s.status
    ensures Attended(s')
  {
    hide Attending, BeforeFinish;
    forall k: nat | k < |s'.items| && IsLive(s'.items[k])
      ensures exists i :: Attends(s'.jobs, i, k)
    {
      var i :| Attends(s.jobs, i, k);
      assert Attends(s'.jobs, i, k);
    }
    if s'.status == RunRunning {
      var i :| Watches(s.jobs, i);
      assert Watches(s'.jobs, i);
    }
  }

  lemma Duplicated(c: Config, s: State, j: nat)
    requires Attended(s) && j < |s.jobs| && s.jobs[j].item < |s.items|
    ensures Attended(JobStep(c, s, j, Duplicate(j)))
  {
    var s' := JobStep(c, s, j, Duplicate(j));
    assert Sound(s);
    hide Attended;
    MoreJobs(s, s');
  }

  lemma PlanAttended(s: State, answers: seq<(int, int)>, model: string, refused: bool)
    requires Attended(s)
    ensures Attended(DoPlan(s, answers, model, refused))
  {
    var s' := DoPlan(s, answers, model, refused);
    if s'.jobs == JobsFor(|answers|) && s'.status == RunRunning && s.status == RunPending && answers != [] {
      forall k: nat | k < |s'.items| && IsLive(s'.items[k])
        ensures exists j :: Attends(s'.jobs, j, k)
      {
        assert Attends(s'.jobs, k, k);
      }
      assert Watches(s'.jobs, 0);
    }
  }

  lemma {:induction false} RequeuedJobs(items: seq<Item>)
    ensures forall j :: 0 <= j < |Requeued(items)| ==> Requeued(items)[j].item < |items| && Requeued(items)[j].phase == Queued
    ensures forall k :: 0 <= k < |items| && items[k].state == ItemFailed ==> exists j :: 0 <= j < |Requeued(items)| && Requeued(items)[j].item == k
  {
    if items != [] {
      var n := |items| - 1;
      RequeuedJobs(items[..n]);
      var before := Requeued(items[..n]);
      forall k | 0 <= k < |items| && items[k].state == ItemFailed
        ensures exists j :: 0 <= j < |Requeued(items)| && Requeued(items)[j].item == k
      {
        if k < n {
          assert items[..n][k] == items[k];
          var j :| 0 <= j < |before| && before[j].item == k;
          assert Requeued(items)[j].item == k;
        } else {
          assert Requeued(items)[|before|].item == k;
        }
      }
    }
  }

  lemma RetryAttended(s: State, pinned: bool)
    requires Attended(s)
    ensures Attended(DoRetryFailed(s, pinned))
  {
    var s' := DoRetryFailed(s, pinned);
    var again := Requeued(s.items);
    RequeuedJobs(s.items);
    if !pinned && again != [] {
      var n := |s.jobs|;
      assert s'.jobs[n] == again[0];
      assert Watches(s'.jobs, n);
      forall k: nat | k < |s'.items| && IsLive(s'.items[k])
        ensures exists j :: Attends(s'.jobs, j, k)
      {
        if s.items[k].state == ItemFailed {
          var j :| 0 <= j < |again| && again[j].item == k;
          assert s'.jobs[n + j] == again[j];
          assert Attends(s'.jobs, n + j, k);
        } else {
          var j :| Attends(s.jobs, j, k);
          assert Attends(s'.jobs, j, k);
        }
      }
      assert Sound(s');
    }
  }

  // ---- every step ----

  // From a state that leaves nothing behind, a step leaves something behind exactly when it strands.
  lemma StepAttendedIff(c: Config, s: State, step: Step)
    requires Attended(s)
    ensures Attended(Apply(c, s, step)) <==> !Strands(s, step)
  {
    if ByJob(step) {
      assert Sound(s);
      hide Attended, JobStep;
      if step.job < |s.jobs| {
        hide Strands;
        JobAttended(c, s, step);
      }
    } else if step.Plan? {
      PlanAttended(s, step.answers, step.model, step.refused);
    } else if step.RetryFailed? {
      RetryAttended(s, step.pinned);
    }
  }

  lemma JobAttended(c: Config, s: State, step: Step)
    requires Attended(s) && ByJob(step) && step.job < |s.jobs|
    ensures s.jobs[step.job].item < |s.items|
    ensures Attended(JobStep(c, s, step.job, step)) <==> !Strands(s, step)
  {
    assert Sound(s);
    hide Attended, JobStep;
    if step.Crash? || step.Snooze? {
      CrashAttended(c, s, step.job, step);
    } else if step.GradeFails? {
      FailureAttended(c, s, step.job, step.failure);
    } else if step.Finish? {
      FinishAttended(c, s, step.job);
    } else if step.ReadStatus? || step.Skip? {
      SkipAttended(c, s, step.job, step);
    } else if step.Load? || step.CheckCap? || step.MarkRunning? {
      EnterAttended(c, s, step.job, step);
    } else if Sampled(step) {
      SampledAttended(c, s, step.job, step);
    } else if step.Duplicate? {
      Duplicated(c, s, step.job);
    } else {
      StoringAttended(c, s, step.job, step);
    }
  }

  lemma StartAttended()
    ensures Attended(Start())
  {
  }

  // ---- over every run ----

  ghost predicate NeverBehind(c: Config, steps: seq<Step>) {
    forall i :: 0 <= i <= |steps| ==> Attended(Run(c, Start(), steps[..i]))
  }

  ghost predicate NeverStrands(c: Config, steps: seq<Step>) {
    forall i :: 0 <= i < |steps| ==> !Strands(Run(c, Start(), steps[..i]), steps[i])
  }

  lemma StrandsSnoc(c: Config, steps: seq<Step>)
    requires steps != []
    ensures var n := |steps| - 1;
            NeverStrands(c, steps) <==> NeverStrands(c, steps[..n]) && !Strands(Run(c, Start(), steps[..n]), steps[n])
  {
    hide Run, Strands;
    EveryStepSnoc(steps, (before: seq<Step>, step: Step) => !Strands(Run(c, Start(), before), step));
  }

  // A run never leaves an unfinished item without a delivery, nor itself running without one to
  // complete it, exactly when none of its steps strands.
  lemma NeverBehindIff(c: Config, steps: seq<Step>)
    ensures NeverBehind(c, steps) <==> NeverStrands(c, steps)
  {
    hide Apply, Attended, Strands;
    StartAttended();
    RunNothing(c, Start());
    forall i | 0 <= i < |steps| && Attended(Run(c, Start(), steps[..i]))
      ensures Attended(Run(c, Start(), steps[..i + 1])) <==> !Strands(Run(c, Start(), steps[..i]), steps[i])
    {
      assert steps[..i + 1] == steps[..i] + [steps[i]];
      RunSnoc(c, Start(), steps[..i], steps[i]);
      StepAttendedIff(c, Run(c, Start(), steps[..i]), steps[i]);
    }
    hide Run;
    StepwiseIff(steps, (before: seq<Step>) => Attended(Run(c, Start(), before)),
                (before: seq<Step>, step: Step) => Strands(Run(c, Start(), before), step));
  }

  predicate Drained(s: State) {
    forall j :: 0 <= j < |s.jobs| ==> Over(s.jobs[j].phase)
  }

  lemma DrainedIsDone(s: State)
    requires Attended(s) && Drained(s)
    ensures !AnyLive(s.items) && s.status != RunRunning
  {
    NobodyLeft(s);
    hide Attends, Watches, IsLive, Sound, Drained;
  }

  lemma NobodyLeft(s: State)
    requires Drained(s)
    ensures forall j, k :: !Attends(s.jobs, j, k)
    ensures forall j :: !Watches(s.jobs, j)
  {
  }

  // ---- schedules that never strand ----

  predicate NoneSkipping(s: State) {
    forall j :: 0 <= j < |s.jobs| ==> !s.jobs[j].phase.Skipping?
  }

  // No delivery is lost, and no retry comes between a delivery's status read and its skip.
  predicate Careful(s: State, step: Step) {
    !Loses(s, step) && (step.RetryFailed? ==> NoneSkipping(s))
  }

  ghost predicate CarefulRun(c: Config, steps: seq<Step>) {
    forall i :: 0 <= i < |steps| ==> Careful(Run(c, Start(), steps[..i]), steps[i])
  }

  // A running run has nobody about to skip.
  predicate SkipsWhenStopped(s: State) {
    s.status == RunRunning ==> NoneSkipping(s)
  }

  lemma CarefulStep(c: Config, s: State, step: Step)
    requires SkipsWhenStopped(s) && Careful(s, step)
    ensures SkipsWhenStopped(Apply(c, s, step))
  {
    if ByJob(step) {
      if step.job < |s.jobs| && s.jobs[step.job].item < |s.items| {
        hide JobStep, Careful;
        if Early(step) {
          CarefulEarly(c, s, step.job, step);
        } else if Storing(step) {
          CarefulStoring(c, s, step.job, step);
        } else {
          CarefulLate(c, s, step.job, step);
        }
      }
    } else if step.RetryFailed? {
      RequeuedFresh(s.items);
      hide Requeued;
    }
  }

  lemma CarefulEarly(c: Config, s: State, j: nat, step: Step)
    requires SkipsWhenStopped(s) && j < |s.jobs| && s.jobs[j].item < |s.items| && Early(step)
    ensures SkipsWhenStopped(JobStep(c, s, j, step))
  {
    hide Spend;
  }

  lemma CarefulStoring(c: Config, s: State, j: nat, step: Step)
    requires SkipsWhenStopped(s) && j < |s.jobs| && s.jobs[j].item < |s.items| && Storing(step)
    ensures SkipsWhenStopped(JobStep(c, s, j, step))
  {
    hide RecordFor;
  }

  lemma CarefulLate(c: Config, s: State, j: nat, step: Step)
    requires SkipsWhenStopped(s) && j < |s.jobs| && s.jobs[j].item < |s.items| && ByJob(step) && !Early(step) && !Storing(step)
    ensures SkipsWhenStopped(JobStep(c, s, j, step))
  {
    hide AnyLive, Pool, AddedOne, Settled;
  }

  // With nobody about to skip, an unfinished item keeps the run watched.
  lemma CarefulNeverStrands(s: State, step: Step)
    requires Attended(s) && SkipsWhenStopped(s) && Careful(s, step)
    ensures !Strands(s, step)
  {
    hide Loses;
    if ByJob(step) && step.Finish? && step.job < |s.jobs| && s.jobs[step.job].phase.Finishing? && s.status == RunRunning && AnyLive(s.items) {
      var k: nat :| k < |s.items| && IsLive(s.items[k]);
      var i :| Attends(s.jobs, i, k);
      assert Watches(s.jobs, i) && i != step.job;
    }
  }

  lemma {:induction false} CarefulIsKept(c: Config, steps: seq<Step>)
    requires CarefulRun(c, steps)
    ensures Attended(Run(c, Start(), steps)) && SkipsWhenStopped(Run(c, Start(), steps))
    ensures NeverStrands(c, steps)
  {
    if steps == [] {
      StartAttended();
    } else {
      var n := |steps| - 1;
      var s := Run(c, Start(), steps[..n]);
      CarefulPrefix(c, steps);
      StrandsSnoc(c, steps);
      assert Run(c, Start(), steps) == Apply(c, s, steps[n]);
      hide Apply, Attended, Careful, Strands, SkipsWhenStopped, NeverStrands, NeverBehind, Run, CarefulRun;
      CarefulIsKept(c, steps[..n]);
      CarefulNeverStrands(s, steps[n]);
      StepAttendedIff(c, s, steps[n]);
      CarefulStep(c, s, steps[n]);
    }
  }

  lemma CarefulPrefix(c: Config, steps: seq<Step>)
    requires CarefulRun(c, steps) && steps != []
    ensures CarefulRun(c, steps[..|steps| - 1])
    ensures Careful(Run(c, Start(), steps[..|steps| - 1]), steps[|steps| - 1])
  {
    hide Run, Careful;
    EveryStepSnoc(steps, (before: seq<Step>, step: Step) => Careful(Run(c, Start(), before), step));
  }

  // Over every such run: an unfinished item has a live delivery that will write its outcome, a
  // running run whose items are all finished has one that will check for completion, and once
  // the deliveries drain no item is unfinished and the run is not left running.
  lemma NoRunIsWedged(c: Config, steps: seq<Step>)
    requires CarefulRun(c, steps)
    ensures var s := Run(c, Start(), steps);
            && (forall k: nat :: k < |s.items| && IsLive(s.items[k]) ==> exists j :: Attends(s.jobs, j, k))
            && (s.status == RunRunning ==> exists j :: Watches(s.jobs, j))
            && (Drained(s) ==> !AnyLive(s.items) && s.status != RunRunning)
  {
    CarefulIsKept(c, steps);
    hide Run, AnyLive, Drained, Attends, Watches, IsLive, Sound, CarefulRun;
    if Drained(Run(c, Start(), steps)) {
      DrainedIsDone(Run(c, Start(), steps));
    }
  }
}
