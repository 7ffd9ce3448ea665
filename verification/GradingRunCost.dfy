/** The per-run cost cap, checked before each grading call, bounds what a run can spend. */
module GradingRunCost {
  import opened Wrappers
  import opened Decimals
  import opened GradingRun

  // Past the cap check, with a record perhaps still to store.
  predicate PastCap(p: Phase) {
    p.Cleared? || p.Marked? || p.Calling? || p.Persisting?
  }

  function InFlight(jobs: seq<Delivery>): nat {
    if jobs == [] then 0
    else InFlight(jobs[..|jobs| - 1]) + if PastCap(jobs[|jobs| - 1].phase) then 1 else 0
  }

  lemma {:induction false} InFlightMove(jobs: seq<Delivery>, j: nat, d: Delivery)
    requires j < |jobs|
    ensures InFlight(jobs[j := d]) == InFlight(jobs) + (if PastCap(d.phase) then 1 else 0) - (if PastCap(jobs[j].phase) then 1 else 0)
  {
    var n := |jobs| - 1;
    var moved := jobs[j := d];
    if j < n {
      InFlightMove(jobs[..n], j, d);
      assert moved[..n] == jobs[..n][j := d];
    } else {
      assert moved[..n] == jobs[..n];
    }
  }

  lemma {:induction false} InFlightMore(jobs: seq<Delivery>, more: seq<Delivery>)
    requires forall j :: 0 <= j < |more| ==> !PastCap(more[j].phase)
    ensures InFlight(jobs + more) == InFlight(jobs)
  {
    if more == [] {
      assert jobs + more == jobs;
    } else {
      var n := |more| - 1;
      InFlightMore(jobs, more[..n]);
      assert (jobs + more)[..|jobs| + n] == jobs + more[..n];
    }
  }

  lemma {:induction false} NewJobsNotInFlight(n: nat)
    ensures InFlight(JobsFor(n)) == 0
  {
    if n > 0 {
      NewJobsNotInFlight(n - 1);
      assert JobsFor(n)[..n - 1] == JobsFor(n - 1);
    }
  }

  // Each record about to be stored costs no more than the bound.
  predicate Priced(jobs: seq<Delivery>, most: real) {
    forall j :: 0 <= j < |jobs| && jobs[j].phase.Persisting? ==> jobs[j].phase.result.cost <= most
  }

  // What is spent, and what the deliveries in flight may still add.
  function Exposure(s: State, most: real): real {
    Spend(s.records) + Times(InFlight(s.jobs) as real, most)
  }

  lemma SpendSnoc(records: seq<Record>, r: Record)
    ensures Spend(records + [r]) == Spend(records) + r.cost
  {
    assert (records + [r])[..|records|] == records;
  }

  lemma OneLess(n: nat, most: real)
    requires most >= 0.0
    ensures Times((n + 1) as real, most) == Times(n as real, most) + most
    ensures Times(n as real, most) <= Times((n + 1) as real, most)
  {
  }

  lemma AtMostTimes(n: nat, w: nat, most: real)
    requires n <= w && most >= 0.0
    ensures Times(n as real, most) <= Times(w as real, most)
  {
    if n < w {
      AtMostTimes(n, w - 1, most);
      OneLess(w - 1, most);
    }
    hide Times;
  }

  // A step of one delivery moves at most that delivery in or out of flight: in, only through the
  // check, and a record is stored only on the way out.
  ghost predicate FlightStep(c: Config, s: State, s': State, j: nat) {
    && j < |s.jobs| == |s'.jobs| && s'.jobs == s.jobs[j := s'.jobs[j]]
    && (PastCap(s'.jobs[j].phase) && !PastCap(s.jobs[j].phase) ==>
          s'.records == s.records && (c.cap.Some? ==> Spend(s.records) < c.cap.value))
    && (s'.records != s.records ==>
          s.jobs[j].phase.Persisting? && !PastCap(s'.jobs[j].phase) && s'.records == s.records + [s.jobs[j].phase.result])
  }

  lemma EarlyFlight(c: Config, s: State, j: nat, step: Step)
    requires j < |s.jobs| && s.jobs[j].item < |s.items| && Early(step)
    ensures var s' := JobStep(c, s, j, step);
            FlightStep(c, s, s', j) && (s'.jobs[j].phase.Persisting? ==> s'.jobs[j] == s.jobs[j])
  {
    hide Spend;
  }

  lemma StoringFlight(c: Config, s: State, j: nat, step: Step)
    requires j < |s.jobs| && s.jobs[j].item < |s.items| && Storing(step)
    ensures var s' := JobStep(c, s, j, step);
            FlightStep(c, s, s', j)
            && (s'.jobs[j].phase.Persisting? ==> s'.jobs[j] == s.jobs[j] || (step.Grade? && s'.jobs[j].phase.result.cost == step.cost))
  {
    hide Spend, RecordFor;
  }

  lemma LateFlight(c: Config, s: State, j: nat, step: Step)
    requires j < |s.jobs| && s.jobs[j].item < |s.items|
    requires step.FailItem? || step.Finish? || Sampled(step)
    ensures var s' := JobStep(c, s, j, step);
            FlightStep(c, s, s', j) && (s'.jobs[j].phase.Persisting? ==> s'.jobs[j] == s.jobs[j])
  {
    hide Spend, AnyLive, Pool, AddedOne;
  }

  lemma JobFlight(c: Config, s: State, j: nat, step: Step)
    requires j < |s.jobs| && s.jobs[j].item < |s.items| && ByJob(step) && step.job == j && !step.Duplicate?
    ensures var s' := JobStep(c, s, j, step);
            FlightStep(c, s, s', j)
            && (s'.jobs[j].phase.Persisting? ==> s'.jobs[j] == s.jobs[j] || (step.Grade? && s'.jobs[j].phase.result.cost == step.cost))
  {
    hide JobStep, FlightStep;
    if Early(step) {
      EarlyFlight(c, s, j, step);
    } else if Storing(step) {
      StoringFlight(c, s, j, step);
    } else {
      LateFlight(c, s, j, step);
    }
  }

  lemma JobExposure(c: Config, s: State, s': State, j: nat, w: nat, most: real)
    requires c.cap.Some? && most >= 0.0 && Priced(s.jobs, most) && FlightStep(c, s, s', j) && InFlight(s'.jobs) <= w
    requires Exposure(s, most) <= c.cap.value + Times(w as real, most)
    ensures Exposure(s', most) <= c.cap.value + Times(w as real, most)
  {
    InFlightMove(s.jobs, j, s'.jobs[j]);
    hide InFlight, Spend, Times;
    if s'.records != s.records {
      SpendSnoc(s.records, s.jobs[j].phase.result);
      OneLess(InFlight(s'.jobs), most);
    } else if PastCap(s'.jobs[j].phase) && !PastCap(s.jobs[j].phase) {
      AtMostTimes(InFlight(s'.jobs), w, most);
    } else if !PastCap(s'.jobs[j].phase) && PastCap(s.jobs[j].phase) {
      OneLess(InFlight(s'.jobs), most);
    }
  }

  // A step that starts nothing past the check and stores nothing.
  ghost predicate Aside(s: State, s': State) {
    && s'.records == s.records
    && (InFlight(s'.jobs) == InFlight(s.jobs) || InFlight(s'.jobs) == 0)
    && forall j :: 0 <= j < |s'.jobs| && s'.jobs[j].phase.Persisting? ==> j < |s.jobs| && s'.jobs[j] == s.jobs[j]
  }

  lemma MoreAside(s: State, s': State, more: seq<Delivery>)
    requires s'.records == s.records && s'.jobs == s.jobs + more
    requires forall j :: 0 <= j < |more| ==> more[j].phase == Queued
    ensures Aside(s, s')
  {
    InFlightMore(s.jobs, more);
    hide InFlight;
  }

  lemma PlanAside(s: State, answers: seq<(int, int)>, model: string, refused: bool)
    ensures Aside(s, DoPlan(s, answers, model, refused))
  {
    NewJobsNotInFlight(|answers|);
    hide InFlight, DistinctAnswers;
  }

  lemma DuplicateAside(c: Config, s: State, j: nat)
    requires j < |s.jobs| && s.jobs[j].item < |s.items|
    ensures Aside(s, JobStep(c, s, j, Duplicate(j)))
  {
    var more := [s.jobs[j].(phase := Queued)];
    MoreAside(s, s.(jobs := s.jobs + more), more);
    hide InFlight;
  }

  // Steps of no delivery, and duplicates, are such steps.
  lemma OtherExposure(c: Config, s: State, step: Step)
    requires !ByJob(step) || (step.Duplicate? && step.job < |s.jobs| && s.jobs[step.job].item < |s.items|)
    ensures Aside(s, Apply(c, s, step))
  {
    hide InFlight, JobStep, DoPlan;
    if step.Plan? {
      PlanAside(s, step.answers, step.model, step.refused);
    } else if step.RetryFailed? {
      RequeuedFresh(s.items);
      hide Requeued, Aside;
      MoreAside(s, s, []);
      MoreAside(s, s.(status := RunRunning, items := ResetAll(s.items), jobs := s.jobs + Requeued(s.items)), Requeued(s.items));
    } else if step.Duplicate? {
      DuplicateAside(c, s, step.job);
    }
  }

  ghost predicate Capped(c: Config, s: State, w: nat, most: real) {
    c.cap.Some? && Priced(s.jobs, most) && Exposure(s, most) <= c.cap.value + Times(w as real, most)
  }

  lemma AsideCapped(c: Config, s: State, s': State, w: nat, most: real)
    requires Capped(c, s, w, most) && most >= 0.0 && Aside(s, s')
    ensures Capped(c, s', w, most)
  {
    hide InFlight, Spend, Times;
    ZeroTimes(InFlight(s.jobs), most);
  }

  lemma FlightCapped(c: Config, s: State, s': State, j: nat, w: nat, most: real)
    requires Capped(c, s, w, most) && most >= 0.0 && FlightStep(c, s, s', j) && InFlight(s'.jobs) <= w
    requires s'.jobs[j].phase.Persisting? ==> s'.jobs[j] == s.jobs[j] || s'.jobs[j].phase.result.cost <= most
    ensures Capped(c, s', w, most)
  {
    JobExposure(c, s, s', j, w, most);
    hide InFlight, Spend, Times, Exposure;
  }

  lemma CappedStep(c: Config, s: State, step: Step, w: nat, most: real)
    requires Capped(c, s, w, most) && most >= 0.0 && InFlight(Apply(c, s, step).jobs) <= w
    requires step.Grade? ==> step.cost <= most
    ensures Capped(c, Apply(c, s, step), w, most)
  {
    var s' := Apply(c, s, step);
    hide JobStep, DoPlan, InFlight, Capped, Aside, FlightStep;
    if !ByJob(step) {
      OtherExposure(c, s, step);
      AsideCapped(c, s, s', w, most);
    } else if step.job < |s.jobs| && s.jobs[step.job].item < |s.items| {
      if step.Duplicate? {
        OtherExposure(c, s, step);
        AsideCapped(c, s, s', w, most);
      } else {
        JobFlight(c, s, step.job, step);
        InRange(c, s, s', step.job);
        FlightCapped(c, s, s', step.job, w, most);
      }
    }
  }

  lemma InRange(c: Config, s: State, s': State, j: nat)
    requires FlightStep(c, s, s', j)
    ensures j < |s.jobs| == |s'.jobs|
  {
  }

  lemma ZeroTimes(n: nat, most: real)
    requires most >= 0.0
    ensures Times(0.0, most) == 0.0 <= Times(n as real, most)
  {
    AtMostTimes(0, n, most);
  }

  // At most w deliveries past the check at once, each record within the bound.
  ghost predicate Bounded(c: Config, steps: seq<Step>, w: nat, most: real) {
    && (forall i :: 0 <= i <= |steps| ==> InFlight(Run(c, Start(), steps[..i]).jobs) <= w)
    && forall i :: 0 <= i < |steps| && steps[i].Grade? ==> steps[i].cost <= most
  }

  lemma BoundedPrefix(c: Config, steps: seq<Step>, w: nat, most: real)
    requires Bounded(c, steps, w, most) && steps != []
    ensures Bounded(c, steps[..|steps| - 1], w, most) && InFlight(Run(c, Start(), steps).jobs) <= w
    ensures steps[|steps| - 1].Grade? ==> steps[|steps| - 1].cost <= most
  {
    hide Run, InFlight;
    var before := steps[..|steps| - 1];
    assert steps[..|steps|] == steps;
    forall i | 0 <= i <= |before|
      ensures InFlight(Run(c, Start(), before[..i]).jobs) <= w
    {
      assert before[..i] == steps[..i];
    }
  }

  // Over any run with retries, duplicates and crashes, spend exceeds the cap by no more than
  // one record for each delivery that may be past the check at once.
  lemma {:induction false} OvershootIsBounded(c: Config, steps: seq<Step>, w: nat, most: real)
    requires c.cap.Some? && c.cap.value >= 0.0 && most >= 0.0 && Bounded(c, steps, w, most)
    ensures var s := Run(c, Start(), steps);
            && Capped(c, s, w, most)
            && Spend(s.records) <= c.cap.value + Times(w as real, most)
  {
    hide Apply, Capped, Bounded;
    if steps != [] {
      var n := |steps| - 1;
      BoundedPrefix(c, steps, w, most);
      OvershootIsBounded(c, steps[..n], w, most);
      CappedStep(c, Run(c, Start(), steps[..n]), steps[n], w, most);
    } else {
      StartCapped(c, w, most);
    }
    CappedSpend(c, Run(c, Start(), steps), w, most);
  }

  lemma StartCapped(c: Config, w: nat, most: real)
    requires c.cap.Some? && c.cap.value >= 0.0 && most >= 0.0
    ensures Capped(c, Start(), w, most)
  {
    ZeroTimes(w, most);
  }

  lemma CappedSpend(c: Config, s: State, w: nat, most: real)
    requires Capped(c, s, w, most) && most >= 0.0
    ensures Spend(s.records) <= c.cap.value + Times(w as real, most)
  {
    ZeroTimes(InFlight(s.jobs), most);
    hide Times, Spend, InFlight;
  }
}
