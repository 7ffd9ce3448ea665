/** internal/grading/runner.go: the leaf executor itself, one store call at a time on the rows it
    updates. Each call takes one step of the transition system, so an execution with nothing in
    between is a run of it. */
module GradingRunner {
  import opened Wrappers
  import opened Seqs
  import opened GradingRun
  import Sampling

  // What the provider call of a leaf comes to.
  datatype Attempt = Verdict(cost: real, content: string) | Fails(failure: Failure)

  // What the worker reports to the queue.
  datatype WorkResult = Succeeds | Errored | Snoozes

  datatype RetryReply = Requeues(leaves: nat) | NothingFailed | ChosenAsFinal

  // The sample with these records in it too: a new one has no verdict, an old one keeps its own.
  ghost function WithRows(sample: map<int, bool>, ids: seq<int>): map<int, bool> {
    map id | id in sample.Keys + Elements(ids) :: id in sample && sample[id]
  }

  lemma NoRows(sample: map<int, bool>)
    ensures WithRows(sample, []) == sample
  {
  }

  lemma OneMoreRow(sample: map<int, bool>, ids: seq<int>, id: int)
    ensures WithRows(sample, ids + [id]) == AddedOne(WithRows(sample, ids), id)
  {
    SnocElements(ids, id);
  }

  lemma NoRowLeft(c: Config, s: State, j: nat)
    requires j < |s.jobs| && s.jobs[j].item < |s.items| && s.jobs[j].phase == Inserting([])
    ensures Apply(c, s, InsertRow(j)) == At(s, j, Ended)
  {
  }

  // A failed attempt ends the item for good: output that is no verdict or an error no retry will
  // mend at once, a transient one or an interruption only when it was the last attempt, and an
  // interruption not even then while the server shuts down.
  predicate GivesUp(f: Failure, attempt: nat, stopping: bool) {
    match f
    case Malformed => true
    case Broken => true
    case Transient => attempt >= LEAF_MAX_ATTEMPTS
    case Interrupted(_) => attempt >= LEAF_MAX_ATTEMPTS && !stopping
  }

  function Failed(i: Item): Item {
    Item(i.answer, i.problem, i.model, ItemFailed, None)
  }

  // The report of a failed attempt, and the item it leaves: failed, or as it was.
  predicate FailedAs(was: Item, f: Failure, attempt: nat, stopping: bool, result: WorkResult, now: Item) {
    && result == (if GivesUp(f, attempt, stopping) then Succeeds else if stopping && f == Interrupted(true) then Snoozes else Errored)
    && now == if GivesUp(f, attempt, stopping) then Failed(was) else was
  }

  // The grading of a leaf: a record on file settles it, and else the verdict, or the failure does.
  predicate GradedAs(records: seq<Record>, was: Item, call: Attempt, attempt: nat, stopping: bool, result: WorkResult, now: Item, records': seq<Record>) {
    var found := RecordFor(records, was.answer, was.model);
    if found.Some? then result == Succeeds && records' == records && now == Item(was.answer, was.problem, was.model, ItemSucceeded, found)
    else match call
      case Verdict(cost, content) =>
        && result == Succeeds && records' == records + [Record(was.answer, was.model, cost, content)]
        && now == Item(was.answer, was.problem, was.model, ItemSucceeded, Some(|records|))
      case Fails(f) => records' == records && FailedAs(was, f, attempt, stopping, result, now)
  }

  // An admitted leaf fails at the cap; below it, it is graded.
  predicate AttemptedAs(c: Config, records: seq<Record>, was: Item, call: Attempt, attempt: nat, stopping: bool, result: WorkResult, now: Item, records': seq<Record>) {
    if c.cap.Some? && Spend(records) >= c.cap.value then result == Succeeds && records' == records && now == Failed(was)
    else GradedAs(records, was.(state := ItemRunning), call, attempt, stopping, result, now, records')
  }

  // A whole delivery: an item that is done stays so, one of a stopped run is skipped.
  predicate DeliveredAs(c: Config, s: State, was: Item, call: Attempt, attempt: nat, result: WorkResult, now: Item, records': seq<Record>) {
    if was.state == ItemSucceeded || was.state == ItemSkipped then result == Succeeds && records' == s.records && now == was
    else if s.status == RunCancelled || s.status == RunFailed
    then result == Succeeds && records' == s.records && now == Item(was.answer, was.problem, was.model, ItemSkipped, None)
    else AttemptedAs(c, s.records, was, call, attempt, s.stopping, result, now, records')
  }

  // Only this item changes.
  predicate OnlyItem(was: seq<Item>, now: seq<Item>, k: nat) {
    |was| == |now| && k < |was| && now == was[k := now[k]]
  }

  // Every step is one of this delivery's.
  predicate Own(steps: seq<Step>, j: nat) {
    forall i :: 0 <= i < |steps| ==> ByJob(steps[i]) && steps[i].job == j
  }

  lemma OwnNothing(j: nat)
    ensures Own([], j)
  {
  }

  lemma OwnStep(c: Config, s0: State, steps: seq<Step>, step: Step, j: nat)
    requires Own(steps, j) && ByJob(step) && step.job == j
    ensures Own(steps + [step], j) && Run(c, s0, steps + [step]) == Apply(c, Run(c, s0, steps), step)
  {
    RunSnoc(c, s0, steps, step);
  }

  class Runner {
    const config: Config
    var status: RunStatus
    var items: seq<Item>
    var records: seq<Record>
    var stopping: bool
    var sample: map<int, bool>
    var waived: bool
    // The queue's own table of deliveries.
    ghost var jobs: seq<Delivery>

    constructor (c: Config)
      ensures config == c && Now() == Start()
    {
      config := c;
      status, items, records, stopping, sample, waived := RunPending, [], [], false, map[], false;
      jobs := [];
    }

    ghost function Now(): State
      reads this
    {
      State(status, items, records, jobs, stopping, sample, waived)
    }

    // Delivery j of item k stands at p.
    ghost predicate Stands(j: nat, k: nat, p: Phase)
      reads this
    {
      j < |jobs| && jobs[j].item == k < |items| && jobs[j].phase == p
    }

    // ---- reads ----

    method RunCost() returns (spend: real)
      ensures spend == Spend(records)
    {
      spend := 0.0;
      for i := 0 to |records|
        invariant spend == Spend(records[..i])
      {
        assert records[..i + 1][..i] == records[..i];
        spend := spend + records[i].cost;
      }
      assert records[..|records|] == records;
    }

    method GetRecordForLeaf(answer: int, model: string) returns (rec: Option<nat>)
      ensures rec == RecordFor(records, answer, model)
    {
      rec := None;
      for i := 0 to |records|
        invariant rec == RecordFor(records[..i], answer, model)
      {
        assert records[..i + 1][..i] == records[..i];
        if records[i].answer == answer && records[i].model == model {
          rec := Some(i);
        }
      }
      assert records[..|records|] == records;
    }

    method CountLive() returns (live: nat)
      ensures live > 0 <==> AnyLive(items)
    {
      live := 0;
      for i := 0 to |items|
        invariant live > 0 <==> exists k :: 0 <= k < i && IsLive(items[k])
      {
        if IsLive(items[i]) {
          live := live + 1;
        }
      }
    }

    method GradedPool() returns (pool: seq<Sampling.Leaf>)
      ensures pool == Pool(items)
    {
      hide FlatMap;
      var first := if |items| <= SAMPLE_ITEMS then items else items[..SAMPLE_ITEMS];
      pool := [];
      NoLeaves();
      for i := 0 to |first|
        invariant pool == FlatMap(first[..i], Graded)
      {
        assert first[..i + 1] == first[..i] + [first[i]];
        FlatMapSnoc(first[..i], first[i], Graded);
        if first[i].state != ItemSucceeded || first[i].record == None {
          continue;
        }
        pool := pool + [Sampling.Leaf(first[i].record.value, first[i].problem)];
      }
      assert first[..|first|] == first;
    }

    // ---- writes, one step each ----

    method SetItem(k: nat, st: ItemState, record: Option<nat>)
      requires k < |items|
      modifies this`items
      ensures items == old(items)[k := old(items)[k].(state := st, record := record)]
    {
      items := items[k := items[k].(state := st, record := record)];
    }

    method LoadItem(k: nat, ghost j: nat) returns (terminal: bool)
      requires Stands(j, k, Queued)
      modifies this`jobs
      ensures Now() == Apply(config, old(Now()), Load(j))
      ensures Stands(j, k, if terminal then Finishing else Loaded) && jobs[j].attempt == old(jobs)[j].attempt + 1
      ensures terminal <==> items[k].state == ItemSucceeded || items[k].state == ItemSkipped
    {
      terminal := items[k].state == ItemSucceeded || items[k].state == ItemSkipped;
      jobs := jobs[j := Delivery(k, jobs[j].attempt + 1, if terminal then Finishing else Loaded)];
    }

    method ReadRunStatus(k: nat, ghost j: nat) returns (stopped: bool)
      requires Stands(j, k, Loaded)
      modifies this`jobs
      ensures Now() == Apply(config, old(Now()), ReadStatus(j))
      ensures stopped == Stopped(status)
      ensures Stands(j, k, if stopped then Skipping else Admitted) && jobs[j].attempt == old(jobs)[j].attempt
    {
      stopped := status == RunCancelled || status == RunFailed;
      jobs := jobs[j := jobs[j].(phase := if stopped then Skipping else Admitted)];
    }

    // By the time of this write the run may have been revived: it does not look again.
    method SkipItem(k: nat, ghost j: nat)
      requires Stands(j, k, Skipping)
      modifies this`items, this`jobs
      ensures Now() == Apply(config, old(Now()), Skip(j))
      ensures j < |jobs| && jobs[j].phase.Ended?
      ensures k < |items| && items == old(items)[k := Item(old(items)[k].answer, old(items)[k].problem, old(items)[k].model, ItemSkipped, None)]
    {
      SetItem(k, ItemSkipped, None);
      jobs := jobs[j := jobs[j].(phase := Ended)];
    }

    method OverCap(k: nat, ghost j: nat) returns (over: bool)
      requires Stands(j, k, Admitted)
      modifies this`jobs
      ensures Now() == Apply(config, old(Now()), CheckCap(j))
      ensures over <==> config.cap.Some? && Spend(records) >= config.cap.value
      ensures Stands(j, k, if over then Failing else Cleared) && jobs[j].attempt == old(jobs)[j].attempt
    {
      hide Spend;
      over := false;
      if config.cap.Some? {
        var spend := RunCost();
        over := spend >= config.cap.value;
      }
      jobs := jobs[j := jobs[j].(phase := if over then Failing else Cleared)];
    }

    method MarkItemRunning(k: nat, ghost j: nat)
      requires Stands(j, k, Cleared)
      modifies this`items, this`jobs
      ensures Now() == Apply(config, old(Now()), MarkRunning(j))
      ensures Stands(j, k, Marked) && jobs[j].attempt == old(jobs)[j].attempt
      ensures items == old(items)[k := old(items)[k].(state := ItemRunning)]
    {
      SetItem(k, ItemRunning, items[k].record);
      jobs := jobs[j := jobs[j].(phase := Marked)];
    }

    method UseRecord(k: nat, ghost j: nat) returns (found: bool)
      requires Stands(j, k, Marked)
      modifies this`items, this`jobs
      ensures Now() == Apply(config, old(Now()), FindRecord(j))
      ensures Stands(j, k, if found then Finishing else Calling) && jobs[j].attempt == old(jobs)[j].attempt
      ensures found == RecordFor(records, old(items)[k].answer, old(items)[k].model).Some?
      ensures items == if !found then old(items) else
                old(items)[k := old(items)[k].(state := ItemSucceeded, record := RecordFor(records, old(items)[k].answer, old(items)[k].model))]
    {
      hide RecordFor;
      var rec := GetRecordForLeaf(items[k].answer, items[k].model);
      found := rec.Some?;
      if found {
        SetItem(k, ItemSucceeded, rec);
      }
      jobs := jobs[j := jobs[j].(phase := if found then Finishing else Calling)];
    }

    // The record, unless one is there already, and the item, in one transaction.
    method PersistVerdict(k: nat, r: Record, ghost j: nat)
      requires Stands(j, k, Persisting(r))
      modifies this`items, this`records, this`jobs
      ensures Now() == Apply(config, old(Now()), Persist(j))
      ensures Stands(j, k, Finishing) && jobs[j].attempt == old(jobs)[j].attempt
      ensures items[k].state == ItemSucceeded && OnlyItem(old(items), items, k)
      ensures RecordFor(old(records), r.answer, r.model) == None ==>
                && records == old(records) + [r]
                && items[k] == old(items)[k].(state := ItemSucceeded, record := Some(|old(records)|))
    {
      hide RecordFor;
      var rec := GetRecordForLeaf(r.answer, r.model);
      if rec == None {
        records := records + [r];
        rec := Some(|records| - 1);
      }
      SetItem(k, ItemSucceeded, rec);
      jobs := jobs[j := jobs[j].(phase := Finishing)];
    }

    method MarkFailed(k: nat, ghost j: nat)
      requires Stands(j, k, Failing)
      modifies this`items, this`jobs
      ensures Now() == Apply(config, old(Now()), FailItem(j))
      ensures Stands(j, k, Finishing)
      ensures items == old(items)[k := Failed(old(items)[k])]
    {
      SetItem(k, ItemFailed, None);
      jobs := jobs[j := jobs[j].(phase := Finishing)];
    }

    method MaybeCompleteRun(ghost j: nat, ghost k: nat) returns (completed: bool)
      requires Stands(j, k, Finishing)
      modifies this`status, this`jobs
      ensures Now() == Apply(config, old(Now()), Finish(j))
      ensures Stands(j, k, if completed then Completing else Ended)
      ensures completed <==> old(status) == RunRunning && forall i :: 0 <= i < |items| ==> items[i].state != ItemPending && items[i].state != ItemRunning
      ensures status == if completed then RunCompleted else old(status)
    {
      LiveInWords(items);
      hide AnyLive;
      var live := CountLive();
      completed := status == RunRunning && live == 0;
      if completed {
        status := RunCompleted;
      }
      jobs := jobs[j := jobs[j].(phase := if completed then Completing else Ended)];
    }

    method SpotCheckState(ghost j: nat, ghost k: nat) returns (settled: bool)
      requires Stands(j, k, Completing)
      modifies this`jobs
      ensures Now() == Apply(config, old(Now()), ReadSample(j))
      ensures settled == Settled(old(Now()))
      ensures Stands(j, k, if settled then Ended else Drawing)
    {
      settled := |sample| > 0 || waived;
      assert |sample| == 0 ==> sample == map[];
      jobs := jobs[j := jobs[j].(phase := if settled then Ended else Drawing)];
    }

    // The records to check, drawn from the items graded by now.
    method DrawSample(ghost j: nat, ghost k: nat) returns (ids: Option<seq<int>>)
      requires Stands(j, k, Drawing)
      modifies this`jobs
      ensures Now() == Apply(config, old(Now()), ReadPool(j))
      ensures ids == if Pool(items) == [] then None else Some(IdsOf(config.draw(Pool(items))))
      ensures Stands(j, k, if ids == None then Ended else Inserting(ids.value))
    {
      hide Pool;
      var pool := GradedPool();
      ids := if |pool| == 0 then None else Some(IdsOf(config.draw(pool)));
      jobs := jobs[j := jobs[j].(phase := if ids == None then Ended else Inserting(ids.value))];
    }

    // InsertSpotCheck: one row, unless the record is in the sample.
    method InsertSpotCheck(ids: seq<int>, ghost j: nat, ghost k: nat)
      requires Stands(j, k, Inserting(ids)) && ids != []
      modifies this`sample, this`jobs
      ensures Now() == Apply(config, old(Now()), InsertRow(j))
      ensures Stands(j, k, Inserting(ids[1..]))
      ensures sample == AddedOne(old(sample), ids[0])
    {
      if ids[0] !in sample {
        sample := sample[ids[0] := false];
      }
      jobs := jobs[j := jobs[j].(phase := Inserting(ids[1..]))];
    }

    // Row by row, not in a transaction: others may read between two rows.
    method InsertSpotChecks(ids: seq<int>, ghost j: nat, ghost k: nat, ghost s0: State, ghost before: seq<Step>) returns (ghost steps: seq<Step>)
      requires Stands(j, k, Inserting(ids)) && Now() == Run(config, s0, before) && Own(before, j)
      modifies this`sample, this`jobs
      ensures Now() == Run(config, s0, steps) && j < |jobs| && jobs[j].phase.Ended?
      ensures sample == WithRows(old(sample), ids)
      ensures Own(steps, j)
    {
      hide Run, Apply, Own, WithRows;
      steps := before;
      NoRows(sample);
      for i := 0 to |ids|
        invariant Stands(j, k, Inserting(ids[i..])) && Now() == Run(config, s0, steps) && Own(steps, j)
        invariant sample == WithRows(old(sample), ids[..i])
      {
        OwnStep(config, s0, steps, InsertRow(j), j);
        OneMoreRow(old(sample), ids[..i], ids[i]);
        assert ids[..i + 1] == ids[..i] + [ids[i]] && ids[i..][1..] == ids[i + 1..];
        InsertSpotCheck(ids[i..], j, k);
        steps := steps + [InsertRow(j)];
      }
      assert ids[..|ids|] == ids && ids[|ids|..] == [];
      OwnStep(config, s0, steps, InsertRow(j), j);
      NoRowLeft(config, Now(), j);
      steps := steps + [InsertRow(j)];
      jobs := jobs[j := jobs[j].(phase := Ended)];
    }

    // A first sample, unless there is one or the gate is waived by now.
    method CreateSpotCheckSample(ghost j: nat, ghost k: nat, ghost s0: State, ghost before: seq<Step>) returns (ghost steps: seq<Step>)
      requires Stands(j, k, Completing) && Now() == Run(config, s0, before) && Own(before, j)
      modifies this`sample, this`jobs
      ensures Now() == Run(config, s0, steps) && j < |jobs| && jobs[j].phase.Ended?
      ensures sample == if Settled(old(Now())) || Pool(items) == [] then old(sample)
                        else WithRows(old(sample), IdsOf(config.draw(Pool(items))))
      ensures Own(steps, j)
    {
      hide Run, Apply, Own, Pool, WithRows;
      var settled := SpotCheckState(j, k);
      steps := before + [ReadSample(j)];
      OwnStep(config, s0, before, ReadSample(j), j);
      if settled {
        return steps;
      }
      var ids := DrawSample(j, k);
      OwnStep(config, s0, steps, ReadPool(j), j);
      steps := steps + [ReadPool(j)];
      if ids == None {
        return steps;
      }
      steps := InsertSpotChecks(ids.value, j, k, s0, steps);
    }

    // ---- executing a leaf ----

    // finishLeaf: complete the run when no live items remain, and draw its sample.
    method FinishLeaf(k: nat, ghost j: nat, ghost s0: State, ghost before: seq<Step>) returns (ghost steps: seq<Step>)
      requires Stands(j, k, Finishing) && Now() == Run(config, s0, before) && Own(before, j)
      modifies this`status, this`sample, this`jobs
      ensures Now() == Run(config, s0, steps) && j < |jobs| && jobs[j].phase.Ended?
      ensures Own(steps, j)
    {
      hide Run, Apply, Own;
      var completed := MaybeCompleteRun(j, k);
      steps := before + [Finish(j)];
      OwnStep(config, s0, before, Finish(j), j);
      if completed {
        steps := CreateSpotCheckSample(j, k, s0, steps);
      }
    }

    // terminalFail: the item fails, and then the run may be complete.
    method TerminalFail(k: nat, ghost j: nat, ghost s0: State, ghost before: seq<Step>) returns (ghost steps: seq<Step>)
      requires Stands(j, k, Failing) && Now() == Run(config, s0, before) && Own(before, j)
      modifies this`status, this`items, this`sample, this`jobs
      ensures Now() == Run(config, s0, steps) && j < |jobs| && jobs[j].phase.Ended?
      ensures k < |old(items)| && items == old(items)[k := Failed(old(items)[k])]
      ensures Own(steps, j)
    {
      hide Run, Apply, Own;
      MarkFailed(k, j);
      OwnStep(config, s0, before, FailItem(j), j);
      steps := FinishLeaf(k, j, s0, before + [FailItem(j)]);
    }

    // gradeLeaf: a record already stored is used; otherwise the provider's verdict is stored.
    method GradeLeaf(k: nat, call: Attempt, ghost j: nat, ghost s0: State, ghost before: seq<Step>)
      returns (err: Option<Failure>, ghost steps: seq<Step>)
      requires Stands(j, k, Marked) && Now() == Run(config, s0, before) && Own(before, j)
      modifies this`items, this`records, this`jobs
      ensures Now() == Run(config, s0, steps)
      ensures Stands(j, k, if err == None then Finishing else Calling) && jobs[j].attempt == old(jobs)[j].attempt
      ensures err.Some? ==> call == Fails(err.value)
      ensures OnlyItem(old(items), items, k)
      ensures err.Some? ==> items == old(items) && records == old(records) && RecordFor(records, items[k].answer, items[k].model) == None
      ensures err == None ==> GradedAs(old(records), old(items)[k], call, 0, stopping, Succeeds, items[k], records)
      ensures Own(steps, j)
    {
      hide Run, Apply, Own;
      var found := UseRecord(k, j);
      steps := before + [FindRecord(j)];
      OwnStep(config, s0, before, FindRecord(j), j);
      if found {
        return None, steps;
      }
      match call
      case Fails(f) =>
        err := Some(f);
      case Verdict(cost, content) =>
        var r := Record(items[k].answer, items[k].model, cost, content);
        GradeStep(j, k, cost, content);
        OwnStep(config, s0, steps, Grade(j, cost, content), j);
        steps := steps + [Grade(j, cost, content)];
        PersistVerdict(k, r, j);
        OwnStep(config, s0, steps, Persist(j), j);
        steps := steps + [Persist(j)];
        err := None;
    }

    ghost method GradeStep(j: nat, k: nat, cost: real, content: string)
      requires Stands(j, k, Calling)
      modifies this`jobs
      ensures Now() == Apply(config, old(Now()), Grade(j, cost, content))
      ensures Stands(j, k, Persisting(Record(items[k].answer, items[k].model, cost, content))) && jobs[j].attempt == old(jobs)[j].attempt
    {
      jobs := jobs[j := jobs[j].(phase := Persisting(Record(items[k].answer, items[k].model, cost, content)))];
    }

    // The attempt's failure, and what the queue makes of the error the leaf returns.
    ghost method FailStep(j: nat, k: nat, f: Failure)
      requires Stands(j, k, Calling)
      modifies this`jobs
      ensures Now() == Apply(config, old(Now()), GradeFails(j, f))
      ensures j < |jobs| && jobs[j] == AfterFailure(stopping, old(jobs)[j], f)
    {
      jobs := jobs[j := AfterFailure(stopping, jobs[j], f)];
    }

    // ExecuteLeaf and the worker around it: one delivery from its load to its report, in steps of
    // its own. The item stays unfinished exactly when the delivery will come again or was discarded.
    method ExecuteLeaf(k: nat, attempt: nat, call: Attempt, ghost j: nat) returns (result: WorkResult, ghost steps: seq<Step>)
      requires Stands(j, k, Queued) && attempt == jobs[j].attempt + 1
      modifies this`status, this`items, this`records, this`sample, this`jobs
      ensures Now() == Run(config, old(Now()), steps)
      ensures j < |jobs|
      ensures result == Succeeds <==> jobs[j].phase.Ended?
      ensures result == Errored ==> jobs[j].phase == if attempt >= LEAF_MAX_ATTEMPTS then Discarded else Queued
      ensures result == Snoozes ==> jobs[j] == Delivery(k, attempt - 1, Queued)
      ensures Own(steps, j)
      ensures k < |items| && (result == Succeeds <==> !IsLive(items[k]))
      ensures OnlyItem(old(items), items, k)
      ensures DeliveredAs(config, old(Now()), old(items)[k], call, attempt, result, items[k], records)
    {
      hide Run, Apply, Own, AttemptedAs;
      ghost var s0 := Now();
      RunNothing(config, s0);
      OwnNothing(j);
      var terminal := LoadItem(k, j);
      OwnStep(config, s0, [], Load(j), j);
      steps := [] + [Load(j)];
      if terminal {
        steps := FinishLeaf(k, j, s0, steps);
        return Succeeds, steps;
      }
      var stopped := ReadRunStatus(k, j);
      OwnStep(config, s0, steps, ReadStatus(j), j);
      steps := steps + [ReadStatus(j)];
      if stopped {
        SkipItem(k, j);
        OwnStep(config, s0, steps, Skip(j), j);
        steps := steps + [Skip(j)];
        return Succeeds, steps;
      }
      result, steps := AttemptLeaf(k, attempt, call, j, s0, steps);
    }

    // An admitted delivery: the cap, the grading call, and what is made of it.
    method AttemptLeaf(k: nat, attempt: nat, call: Attempt, ghost j: nat, ghost s0: State, ghost before: seq<Step>)
      returns (result: WorkResult, ghost steps: seq<Step>)
      requires Stands(j, k, Admitted) && jobs[j].attempt == attempt > 0 && Now() == Run(config, s0, before) && Own(before, j)
      modifies this`status, this`items, this`records, this`sample, this`jobs
      ensures Now() == Run(config, s0, steps)
      ensures j < |jobs|
      ensures result == Succeeds <==> jobs[j].phase.Ended?
      ensures result == Errored ==> jobs[j].phase == if attempt >= LEAF_MAX_ATTEMPTS then Discarded else Queued
      ensures result == Snoozes ==> jobs[j] == Delivery(k, attempt - 1, Queued)
      ensures Own(steps, j)
      ensures k < |items| && (result == Succeeds <==> !IsLive(items[k]))
      ensures OnlyItem(old(items), items, k)
      ensures AttemptedAs(config, old(records), old(items)[k], call, attempt, stopping, result, items[k], records)
    {
      hide Run, Apply, Own, GradedAs, Spend;
      var over := OverCap(k, j);
      OwnStep(config, s0, before, CheckCap(j), j);
      steps := before + [CheckCap(j)];
      if over {
        steps := TerminalFail(k, j, s0, steps);
        return Succeeds, steps;
      }
      MarkItemRunning(k, j);
      OwnStep(config, s0, steps, MarkRunning(j), j);
      steps := steps + [MarkRunning(j)];
      result, steps := GradeOnce(k, attempt, call, j, s0, steps);
    }

    // The grading call of a delivery that has marked its item, and how it ends.
    method GradeOnce(k: nat, attempt: nat, call: Attempt, ghost j: nat, ghost s0: State, ghost before: seq<Step>)
      returns (result: WorkResult, ghost steps: seq<Step>)
      requires Stands(j, k, Marked) && IsLive(items[k])
      requires jobs[j].attempt == attempt > 0 && Now() == Run(config, s0, before) && Own(before, j)
      modifies this`status, this`items, this`records, this`sample, this`jobs
      ensures Now() == Run(config, s0, steps)
      ensures j < |jobs|
      ensures result == Succeeds <==> jobs[j].phase.Ended?
      ensures result == Errored ==> jobs[j].phase == if attempt >= LEAF_MAX_ATTEMPTS then Discarded else Queued
      ensures result == Snoozes ==> jobs[j] == Delivery(k, attempt - 1, Queued)
      ensures Own(steps, j)
      ensures k < |items| && (result == Succeeds <==> !IsLive(items[k]))
      ensures OnlyItem(old(items), items, k)
      ensures GradedAs(old(records), old(items)[k], call, attempt, stopping, result, items[k], records)
    {
      hide Run, Apply, Own;
      var err;
      err, steps := GradeLeaf(k, call, j, s0, before);
      if err == None {
        steps := FinishLeaf(k, j, s0, steps);
        return Succeeds, steps;
      }
      result, steps := ReportFailure(k, attempt, err.value, j, s0, steps);
    }

    // How a failed attempt ends: with a terminal outcome, or as an error the queue acts on.
    method ReportFailure(k: nat, attempt: nat, failure: Failure, ghost j: nat, ghost s0: State, ghost before: seq<Step>)
      returns (result: WorkResult, ghost steps: seq<Step>)
      requires Stands(j, k, Calling) && jobs[j].attempt == attempt > 0 && Now() == Run(config, s0, before) && Own(before, j)
      requires IsLive(items[k])
      modifies this`status, this`items, this`sample, this`jobs
      ensures Now() == Run(config, s0, steps)
      ensures j < |jobs|
      ensures result == Succeeds <==> jobs[j].phase.Ended?
      ensures result == Errored ==> jobs[j].phase == if attempt >= LEAF_MAX_ATTEMPTS then Discarded else Queued
      ensures result == Snoozes ==> jobs[j] == Delivery(k, attempt - 1, Queued)
      ensures Own(steps, j)
      ensures k < |items| && (result == Succeeds <==> !IsLive(items[k]))
      ensures OnlyItem(old(items), items, k) && FailedAs(old(items)[k], failure, attempt, stopping, result, items[k])
    {
      hide Run, Apply, Own;
      FailStep(j, k, failure);
      OwnStep(config, s0, before, GradeFails(j, failure), j);
      steps := before + [GradeFails(j, failure)];
      var finalAttempt := attempt >= LEAF_MAX_ATTEMPTS;
      if failure.Interrupted? && !(finalAttempt && !stopping) {
        return if stopping && failure.shows then Snoozes else Errored, steps;
      }
      if failure.Transient? && !finalAttempt {
        return Errored, steps;
      }
      steps := TerminalFail(k, j, s0, steps);
      result := Succeeds;
    }

    // ---- the handlers that act on the run ----

    method Plan(answers: seq<(int, int)>, model: string, refused: bool)
      modifies this`status, this`items, this`jobs
      ensures Now() == Apply(config, old(Now()), GradingRun.Plan(answers, model, refused))
      ensures if old(status) != RunPending || !DistinctAnswers(answers) then items == old(items) && status == old(status) && jobs == old(jobs)
              else if refused || answers == [] then items == old(items) && status == RunFailed && jobs == old(jobs)
              else
                && status == RunRunning && |items| == |answers| == |jobs|
                && forall i :: 0 <= i < |answers| ==>
                     items[i] == Item(answers[i].0, answers[i].1, model, ItemPending, None) && jobs[i] == Delivery(i, 0, Queued)
    {
      if status != RunPending || !DistinctAnswers(answers) {
        return;
      }
      if refused || |answers| == 0 {
        status := RunFailed;
        return;
      }
      var planned: seq<Item> := [];
      for i := 0 to |answers|
        invariant planned == Planned(answers, model)[..i]
      {
        planned := planned + [Item(answers[i].0, answers[i].1, model, ItemPending, None)];
      }
      assert Planned(answers, model)[..|answers|] == Planned(answers, model);
      items := planned;
      jobs := JobsFor(|answers|);
      status := RunRunning;
    }

    method CancelRun() returns (ok: bool)
      modifies this`status
      ensures Now() == Apply(config, old(Now()), Cancel)
      ensures ok <==> old(status) == RunPending || old(status) == RunRunning
      ensures status == if ok then RunCancelled else old(status)
    {
      ok := status == RunPending || status == RunRunning;
      if ok {
        status := RunCancelled;
      }
    }

    // Reset, status flip and new leaf jobs in one transaction. A run chosen as final source is
    // refused, and nothing to retry changes nothing.
    method RetryFailedItems(pinned: bool) returns (reply: RetryReply)
      modifies this`status, this`items, this`jobs
      ensures Now() == Apply(config, old(Now()), RetryFailed(pinned))
      ensures reply == if pinned then ChosenAsFinal
                       else if Requeued(old(items)) == [] then NothingFailed
                       else Requeues(|Requeued(old(items))|)
      ensures reply.Requeues? <==> !pinned && exists i :: 0 <= i < |old(items)| && old(items)[i].state == ItemFailed
      ensures |items| == |old(items)|
      ensures reply.Requeues? ==> status == RunRunning && forall i :: 0 <= i < |items| ==>
                items[i] == if old(items)[i].state == ItemFailed then old(items)[i].(state := ItemPending) else old(items)[i]
      ensures !reply.Requeues? ==> items == old(items) && status == old(status) && jobs == old(jobs)
    {
      if pinned {
        return ChosenAsFinal;
      }
      var retried := 0;
      ghost var before := items;
      var reset: seq<Item> := [];
      for i := 0 to |items|
        invariant reset == ResetAll(before)[..i] && retried == |Requeued(before[..i])|
      {
        assert before[..i + 1][..i] == before[..i];
        assert ResetAll(before)[..i + 1] == ResetAll(before)[..i] + [Reset(items[i])];
        if items[i].state == ItemFailed {
          retried := retried + 1;
        }
        reset := reset + [Reset(items[i])];
      }
      assert before[..|before|] == before && ResetAll(before)[..|before|] == ResetAll(before);
      RequeuesFailed(before);
      if retried == 0 {
        return NothingFailed;
      }
      items := reset;
      status := RunRunning;
      jobs := jobs + Requeued(before);
      reply := Requeues(retried);
    }
  }

  lemma {:induction false} RequeuesFailed(items: seq<Item>)
    ensures Requeued(items) != [] <==> exists i :: 0 <= i < |items| && items[i].state == ItemFailed
  {
    if items != [] {
      var n := |items| - 1;
      RequeuesFailed(items[..n]);
      assert forall i :: 0 <= i < n ==> items[..n][i] == items[i];
    }
  }

  lemma LiveInWords(items: seq<Item>)
    ensures AnyLive(items) <==> exists i :: 0 <= i < |items| && (items[i].state == ItemPending || items[i].state == ItemRunning)
  {
  }

  lemma NoLeaves()
    ensures FlatMap([], Graded) == []
  {
  }
}
