/** One record per leaf, never altered, and items that point at the record of their own leaf. */
module GradingRunRecords {
  import opened Wrappers
  import opened Seqs
  import opened GradingRun
  import Sampling

  predicate SameLeaf(r: Record, q: Record) {
    r.answer == q.answer && r.model == q.model
  }

  predicate Points(records: seq<Record>, i: Item) {
    i.state == ItemSucceeded ==>
      i.record.Some? && i.record.value < |records|
      && records[i.record.value].answer == i.answer && records[i.record.value].model == i.model
  }

  ghost predicate Filed(s: State) {
    && (forall i, j :: 0 <= i < j < |s.records| ==> !SameLeaf(s.records[i], s.records[j]))
    && (forall k :: 0 <= k < |s.items| ==> Points(s.records, s.items[k]))
    && (forall j :: 0 <= j < |s.jobs| && s.jobs[j].phase.Persisting? && s.jobs[j].item < |s.items| ==>
          s.jobs[j].phase.result.answer == s.items[s.jobs[j].item].answer
          && s.jobs[j].phase.result.model == s.items[s.jobs[j].item].model)
  }

  lemma {:induction false} RecordForFinds(records: seq<Record>, answer: int, model: string)
    ensures RecordFor(records, answer, model) == None ==>
              forall k :: 0 <= k < |records| ==> !(records[k].answer == answer && records[k].model == model)
  {
    if records != [] {
      RecordForFinds(records[..|records| - 1], answer, model);
    }
  }

  // How records may change: at most one is appended, for a leaf that had none.
  predicate Appends(records: seq<Record>, records': seq<Record>) {
    && |records| <= |records'| <= |records| + 1 && records'[..|records|] == records
    && forall k :: 0 <= k < |records| && |records| < |records'| ==> !SameLeaf(records[k], records'[|records|])
  }

  lemma PointsStay(records: seq<Record>, records': seq<Record>, i: Item)
    requires Points(records, i) && Appends(records, records')
    ensures Points(records', i)
  {
    if i.state == ItemSucceeded {
      assert records'[..|records|][i.record.value] == records'[i.record.value];
    }
  }

  lemma RecordsApart(records: seq<Record>, records': seq<Record>)
    requires Appends(records, records')
    requires forall i, j :: 0 <= i < j < |records| ==> !SameLeaf(records[i], records[j])
    ensures forall i, j :: 0 <= i < j < |records'| ==> !SameLeaf(records'[i], records'[j])
  {
    assert forall k :: 0 <= k < |records| ==> records'[..|records|][k] == records'[k];
  }

  predicate KeepsLeaf(i: Item, i': Item) {
    i'.answer == i.answer && i'.model == i.model
  }

  // Items keep their leaf, and one that succeeds points at the record of its leaf.
  ghost predicate FiledMove(s: State, s': State) {
    && Appends(s.records, s'.records)
    && |s'.items| == |s.items|
    && (forall k :: 0 <= k < |s.items| ==> KeepsLeaf(s.items[k], s'.items[k]) && (s'.items[k] == s.items[k] || Points(s'.records, s'.items[k])))
    && (forall j :: 0 <= j < |s'.jobs| && s'.jobs[j].phase.Persisting? && s'.jobs[j].item < |s.items| ==>
          s'.jobs[j].phase.result.answer == s.items[s'.jobs[j].item].answer
          && s'.jobs[j].phase.result.model == s.items[s'.jobs[j].item].model)
  }

  lemma FiledStep(s: State, s': State)
    requires Filed(s) && FiledMove(s, s')
    ensures Filed(s')
  {
    RecordsApart(s.records, s'.records);
    forall k | 0 <= k < |s'.items|
      ensures Points(s'.records, s'.items[k])
    {
      assert KeepsLeaf(s.items[k], s'.items[k]);
      if s'.items[k] == s.items[k] {
        PointsStay(s.records, s'.records, s.items[k]);
      }
    }
    forall k | 0 <= k < |s'.items|
      ensures KeepsLeaf(s.items[k], s'.items[k])
    {
    }
    hide Appends, Points;
  }

  lemma NothingAppended(records: seq<Record>)
    ensures Appends(records, records)
  {
  }

  lemma PersistFiled(s: State, j: nat)
    requires Filed(s) && j < |s.jobs| && s.jobs[j].phase.Persisting? && s.jobs[j].item < |s.items|
    ensures FiledMove(s, DoPersist(s, j))
  {
    var r := s.jobs[j].phase.result;
    RecordForFinds(s.records, r.answer, r.model);
    hide RecordFor;
    var s' := DoPersist(s, j);
    assert Appends(s.records, s'.records);
    hide Appends;
  }

  predicate OnlyMoves(step: Step) {
    step.Duplicate? || step.Crash? || step.Snooze? || step.Load? || step.ReadStatus? || step.CheckCap? || step.GradeFails?
    || step.Finish? || Sampled(step)
  }

  // Such a step leaves items and records alone, and starts no record.
  ghost predicate MovesOnly(s: State, s': State) {
    && s'.items == s.items && s'.records == s.records
    && forall i :: 0 <= i < |s'.jobs| && s'.jobs[i].phase.Persisting? ==> i < |s.jobs| && s'.jobs[i] == s.jobs[i]
  }

  lemma EarlyMoves(c: Config, s: State, j: nat, step: Step)
    requires j < |s.jobs| && s.jobs[j].item < |s.items| && OnlyMoves(step) && Early(step)
    ensures MovesOnly(s, JobStep(c, s, j, step))
  {
    hide Spend;
  }

  lemma LateMoves(c: Config, s: State, j: nat, step: Step)
    requires j < |s.jobs| && s.jobs[j].item < |s.items| && OnlyMoves(step) && !Early(step)
    ensures MovesOnly(s, JobStep(c, s, j, step))
  {
    hide AnyLive, Pool, AddedOne, Settled;
  }

  lemma MoveFiled(c: Config, s: State, j: nat, step: Step)
    requires Filed(s) && j < |s.jobs| && s.jobs[j].item < |s.items| && OnlyMoves(step)
    ensures FiledMove(s, JobStep(c, s, j, step))
  {
    if Early(step) {
      EarlyMoves(c, s, j, step);
    } else {
      LateMoves(c, s, j, step);
    }
    NothingAppended(s.records);
    hide JobStep, Appends, Points, OnlyMoves, Early;
  }

  lemma ItemFiled(c: Config, s: State, j: nat, step: Step)
    requires Filed(s) && j < |s.jobs| && s.jobs[j].item < |s.items|
    requires step.Skip? || step.MarkRunning? || step.FailItem?
    ensures FiledMove(s, JobStep(c, s, j, step))
  {
    NothingAppended(s.records);
    hide Appends;
  }

  lemma FoundFiled(c: Config, s: State, j: nat)
    requires Filed(s) && j < |s.jobs| && s.jobs[j].item < |s.items|
    ensures FiledMove(s, JobStep(c, s, j, FindRecord(j)))
  {
    NothingAppended(s.records);
    hide Appends, RecordFor;
  }

  lemma GradeFiled(c: Config, s: State, j: nat, cost: real, content: string)
    requires Filed(s) && j < |s.jobs| && s.jobs[j].item < |s.items|
    ensures FiledMove(s, JobStep(c, s, j, Grade(j, cost, content)))
  {
    NothingAppended(s.records);
    hide Appends, Points;
  }

  lemma JobFiled(c: Config, s: State, j: nat, step: Step)
    requires Filed(s) && j < |s.jobs| && s.jobs[j].item < |s.items| && ByJob(step) && step.job == j
    ensures FiledMove(s, JobStep(c, s, j, step))
  {
    hide FiledMove, Filed;
    if OnlyMoves(step) {
      hide JobStep;
      MoveFiled(c, s, j, step);
    } else if step.Grade? {
      hide JobStep;
      GradeFiled(c, s, j, step.cost, step.content);
    } else if step.Persist? {
      hide DoPersist;
      if s.jobs[j].phase.Persisting? {
        PersistFiled(s, j);
      } else {
        StillFiled(s);
      }
    } else if step.FindRecord? {
      hide JobStep;
      FoundFiled(c, s, j);
    } else {
      hide JobStep;
      ItemFiled(c, s, j, step);
    }
  }

  lemma StillFiled(s: State)
    requires Filed(s)
    ensures FiledMove(s, s)
  {
    NothingAppended(s.records);
    hide Appends, Points;
  }

  lemma OtherFiled(c: Config, s: State, step: Step)
    requires Filed(s) && !ByJob(step) && !step.Plan?
    ensures FiledMove(s, Apply(c, s, step))
  {
    NothingAppended(s.records);
    RequeuedFresh(s.items);
    hide Appends, Requeued;
  }

  lemma PlanFiled(s: State, answers: seq<(int, int)>, model: string, refused: bool)
    requires Filed(s)
    ensures Filed(DoPlan(s, answers, model, refused))
    ensures Appends(s.records, DoPlan(s, answers, model, refused).records)
  {
    NothingAppended(s.records);
  }

  lemma StepFiled(c: Config, s: State, step: Step)
    requires Filed(s)
    ensures Filed(Apply(c, s, step)) && Appends(s.records, Apply(c, s, step).records)
  {
    hide Filed, FiledMove, JobStep, Appends;
    if step.Plan? {
      PlanFiled(s, step.answers, step.model, step.refused);
    } else if ByJob(step) {
      if step.job < |s.jobs| && s.jobs[step.job].item < |s.items| {
        JobFiled(c, s, step.job, step);
        MoveAppends(s, Apply(c, s, step));
        FiledStep(s, Apply(c, s, step));
      } else {
        NothingAppended(s.records);
      }
    } else {
      OtherFiled(c, s, step);
      MoveAppends(s, Apply(c, s, step));
      FiledStep(s, Apply(c, s, step));
    }
  }

  lemma MoveAppends(s: State, s': State)
    requires FiledMove(s, s')
    ensures Appends(s.records, s'.records)
  {
  }

  // Over every run there is at most one record for an answer and model, and a succeeded item
  // points at the record of its own leaf.
  lemma {:induction false} OneRecordPerLeaf(c: Config, steps: seq<Step>)
    ensures var s := Run(c, Start(), steps);
            && (forall i, j :: 0 <= i < j < |s.records| ==> !SameLeaf(s.records[i], s.records[j]))
            && (forall k :: 0 <= k < |s.items| ==> Points(s.records, s.items[k]))
            && Filed(s)
  {
    hide Apply, Points, SameLeaf;
    if steps != [] {
      var n := |steps| - 1;
      OneRecordPerLeaf(c, steps[..n]);
      StepFiled(c, Run(c, Start(), steps[..n]), steps[n]);
    } else {
      StartFiled();
    }
  }

  lemma StartFiled()
    ensures Filed(Start())
  {
  }

  // No record is ever altered or removed: what comes later only adds.
  lemma {:induction false} RecordsAreKept(c: Config, s: State, steps: seq<Step>)
    requires Filed(s)
    ensures var s' := Run(c, s, steps);
            Filed(s') && |s.records| <= |s'.records| && s'.records[..|s.records|] == s.records
  {
    hide Apply, Filed;
    if steps != [] {
      var n := |steps| - 1;
      RecordsAreKept(c, s, steps[..n]);
      var before := Run(c, s, steps[..n]);
      StepFiled(c, before, steps[n]);
      var s' := Run(c, s, steps);
      assert s'.records[..|s.records|] == s'.records[..|before.records|][..|s.records|];
    }
  }

  // A failed attempt, malformed verdicts included, stores nothing: only a persisted verdict does.
  lemma OnlyPersistRecords(c: Config, s: State, step: Step)
    requires Apply(c, s, step).records != s.records
    ensures step.Persist? && step.job < |s.jobs| && s.jobs[step.job].phase.Persisting?
    ensures Apply(c, s, step).records == s.records + [s.jobs[step.job].phase.result]
  {
    hide RecordFor, JobStep, Requeued, ResetAll, Planned;
    assert ByJob(step) && step.job < |s.jobs| && s.jobs[step.job].item < |s.items|;
    OnlyPersistStores(c, s, step.job, step);
  }

  lemma OnlyPersistStores(c: Config, s: State, j: nat, step: Step)
    requires j < |s.jobs| && s.jobs[j].item < |s.items| && JobStep(c, s, j, step).records != s.records
    ensures step.Persist? && s.jobs[j].phase.Persisting?
    ensures JobStep(c, s, j, step).records == s.records + [s.jobs[j].phase.result]
  {
    hide RecordFor, Spend, AnyLive, Pool, AddedOne, AfterFailure, Retried, Snoozed, Settled;
  }
}
