/** internal/grading/runner.go, internal/httpapi/runs.go and internal/queue/river.go: one grading
    run as a transition system over its items, records, leaf deliveries, status and spot-check
    sample. Deliveries may be duplicated, crash, time out or be cut off by a shutdown anywhere. */
module GradingRun {
  import opened Wrappers
  import opened Seqs
  import Sampling

  datatype ItemState = ItemPending | ItemRunning | ItemSucceeded | ItemFailed | ItemSkipped

  datatype RunStatus = RunPending | RunRunning | RunCompleted | RunCancelled | RunFailed

  datatype Item = Item(answer: int, problem: int, model: string, state: ItemState, record: Option<nat>)

  // A stored grade; its cost is 0 when no price is known.
  datatype Record = Record(answer: int, model: string, cost: real, content: string)

  // Where a leaf delivery stands: the store or provider call it makes next.
  datatype Phase =
    | Queued
    | Loaded
    | Skipping
    | Admitted
    | Cleared
    | Marked
    | Calling
    | Persisting(result: Record)
    | Failing
    | Finishing
    | Completing
    | Drawing
    | Inserting(ids: seq<int>)
    | Ended
    | Discarded

  datatype Delivery = Delivery(item: nat, attempt: nat, phase: Phase)

  const LEAF_MAX_ATTEMPTS: nat := 3
  const SAMPLE_ITEMS: nat := 2000

  // Why grading a leaf failed. An interruption may hide its cause in a plain error.
  datatype Failure = Malformed | Transient | Broken | Interrupted(shows: bool)

  // The cost cap, and the sampler: any function of the pool of graded leaves.
  datatype Config = Config(cap: Option<real>, draw: seq<Sampling.Leaf> -> seq<Sampling.Leaf>)

  datatype State = State(
    status: RunStatus,
    items: seq<Item>,
    records: seq<Record>,
    jobs: seq<Delivery>,
    stopping: bool,
    sample: map<int, bool>,
    waived: bool)

  datatype Step =
    | Plan(answers: seq<(int, int)>, model: string, refused: bool)
    | Cancel
    | RetryFailed(pinned: bool)
    | Stop
    | Restart
    | Duplicate(job: nat)
    | Crash(job: nat)
    | Snooze(job: nat)
    | Load(job: nat)
    | ReadStatus(job: nat)
    | Skip(job: nat)
    | CheckCap(job: nat)
    | MarkRunning(job: nat)
    | FindRecord(job: nat)
    | Grade(job: nat, cost: real, content: string)
    | GradeFails(job: nat, failure: Failure)
    | Persist(job: nat)
    | FailItem(job: nat)
    | Finish(job: nat)
    | ReadSample(job: nat)
    | ReadPool(job: nat)
    | InsertRow(job: nat)
    | SampleFails(job: nat)
    | Waive
    | Judge(record: int)

  // ---- queries ----

  function Spend(records: seq<Record>): real {
    if records == [] then 0.0 else Spend(records[..|records| - 1]) + records[|records| - 1].cost
  }

  // GetRecordForLeaf
  function RecordFor(records: seq<Record>, answer: int, model: string): (k: Option<nat>)
    ensures k.Some? ==> k.value < |records| && records[k.value].answer == answer && records[k.value].model == model
  {
    if records == [] then None
    else
      var n := |records| - 1;
      if records[n].answer == answer && records[n].model == model then Some(n)
      else RecordFor(records[..n], answer, model)
  }

  predicate IsLive(i: Item) {
    i.state == ItemPending || i.state == ItemRunning
  }

  predicate AnyLive(items: seq<Item>) {
    exists k :: 0 <= k < |items| && IsLive(items[k])
  }

  function Graded(i: Item): seq<Sampling.Leaf> {
    if i.state == ItemSucceeded && i.record.Some? then [Sampling.Leaf(i.record.value, i.problem)] else []
  }

  // The graded leaves, from the first items only.
  function Pool(items: seq<Item>): seq<Sampling.Leaf> {
    FlatMap(if |items| <= SAMPLE_ITEMS then items else items[..SAMPLE_ITEMS], Graded)
  }

  function IdsOf(leaves: seq<Sampling.Leaf>): (ids: seq<int>)
    ensures |ids| == |leaves|
  {
    seq(|leaves|, i requires 0 <= i < |leaves| => leaves[i].id)
  }

  // ON CONFLICT DO NOTHING: a sampled record keeps its verdict.
  function AddedOne(sample: map<int, bool>, id: int): map<int, bool> {
    if id in sample then sample else sample[id := false]
  }

  predicate GateOpen(s: State) {
    s.waived || (s.sample != map[] && forall id :: id in s.sample ==> s.sample[id])
  }

  // ---- one step ----

  function At(s: State, j: nat, p: Phase): State
    requires j < |s.jobs|
  {
    s.(jobs := s.jobs[j := s.jobs[j].(phase := p)])
  }

  function SetItem(s: State, k: nat, st: ItemState, record: Option<nat>): State
    requires k < |s.items|
  {
    s.(items := s.items[k := s.items[k].(state := st, record := record)])
  }

  function DoLoad(s: State, j: nat): State
    requires j < |s.jobs| && s.jobs[j].item < |s.items|
  {
    var it := s.items[s.jobs[j].item];
    var s' := s.(jobs := s.jobs[j := s.jobs[j].(attempt := s.jobs[j].attempt + 1)]);
    if it.state == ItemSucceeded || it.state == ItemSkipped then At(s', j, Finishing) else At(s', j, Loaded)
  }

  predicate Stopped(st: RunStatus) {
    st == RunCancelled || st == RunFailed
  }

  function DoCheckCap(c: Config, s: State, j: nat): State
    requires j < |s.jobs|
  {
    if c.cap.Some? && Spend(s.records) >= c.cap.value then At(s, j, Failing) else At(s, j, Cleared)
  }

  function DoFindRecord(s: State, j: nat): State
    requires j < |s.jobs| && s.jobs[j].item < |s.items|
  {
    var it := s.items[s.jobs[j].item];
    var rec := RecordFor(s.records, it.answer, it.model);
    if rec.Some? then At(SetItem(s, s.jobs[j].item, ItemSucceeded, rec), j, Finishing) else At(s, j, Calling)
  }

  function DoGrade(s: State, j: nat, cost: real, content: string): State
    requires j < |s.jobs| && s.jobs[j].item < |s.items|
  {
    var it := s.items[s.jobs[j].item];
    At(s, j, Persisting(Record(it.answer, it.model, cost, content)))
  }

  // An attempt that errored or crashed: queued again, or discarded when it was the last.
  function Retried(d: Delivery): Delivery {
    d.(phase := if d.attempt >= LEAF_MAX_ATTEMPTS then Discarded else Queued)
  }

  // A shutdown the queue recognises snoozes the job, which gives the attempt back.
  function Snoozed(d: Delivery): Delivery {
    Delivery(d.item, if d.attempt > 0 then d.attempt - 1 else 0, Queued)
  }

  function AfterFailure(stopping: bool, d: Delivery, f: Failure): Delivery {
    var final := d.attempt >= LEAF_MAX_ATTEMPTS;
    match f
    case Interrupted(shows) =>
      if final && !stopping then d.(phase := Failing)
      else if stopping && shows then Snoozed(d)
      else Retried(d)
    case Transient => if final then d.(phase := Failing) else Retried(d)
    case _ => d.(phase := Failing)
  }

  function DoGradeFails(s: State, j: nat, f: Failure): State
    requires j < |s.jobs|
  {
    s.(jobs := s.jobs[j := AfterFailure(s.stopping, s.jobs[j], f)])
  }

  // Record and item in one transaction; a record already there wins.
  function DoPersist(s: State, j: nat): State
    requires j < |s.jobs| && s.jobs[j].phase.Persisting? && s.jobs[j].item < |s.items|
  {
    var r := s.jobs[j].phase.result;
    var had := RecordFor(s.records, r.answer, r.model);
    var s' := if had == None then s.(records := s.records + [r]) else s;
    var id := if had == None then |s.records| else had.value;
    At(SetItem(s', s.jobs[j].item, ItemSucceeded, Some(id)), j, Finishing)
  }

  function DoFinish(s: State, j: nat): State
    requires j < |s.jobs|
  {
    if s.status == RunRunning && !AnyLive(s.items) then At(s.(status := RunCompleted), j, Completing) else At(s, j, Ended)
  }

  // There is a sample, or none is wanted.
  predicate Settled(s: State) {
    s.sample != map[] || s.waived
  }

  function DoReadPool(c: Config, s: State, j: nat): State
    requires j < |s.jobs|
  {
    At(s, j, if Pool(s.items) == [] then Ended else Inserting(IdsOf(c.draw(Pool(s.items)))))
  }

  // The next row of the sample, or the end of it.
  function DoInsertRow(s: State, j: nat, ids: seq<int>): State
    requires j < |s.jobs|
  {
    if ids == [] then At(s, j, Ended)
    else At(s.(sample := AddedOne(s.sample, ids[0])), j, Inserting(ids[1..]))
  }

  predicate Over(p: Phase) {
    p.Ended? || p.Discarded?
  }

  // Between reading that there is no sample and the end of inserting one.
  predicate IsSampling(p: Phase) {
    p.Drawing? || p.Inserting?
  }

  // A worker holds this delivery.
  predicate Working(p: Phase) {
    !p.Queued? && !Over(p)
  }

  predicate InGradeLeaf(p: Phase) {
    p.Marked? || p.Calling? || p.Persisting?
  }

  // The step a delivery takes; one that does not fit where it stands changes nothing.
  function JobStep(c: Config, s: State, j: nat, step: Step): State
    requires j < |s.jobs| && s.jobs[j].item < |s.items|
  {
    var p := s.jobs[j].phase;
    var k := s.jobs[j].item;
    match step
    case Duplicate(_) => if Over(p) then s else s.(jobs := s.jobs + [s.jobs[j].(phase := Queued)])
    case Crash(_) => if Working(p) then s.(jobs := s.jobs[j := Retried(s.jobs[j])]) else s
    case Snooze(_) =>
      if s.stopping && Working(p) && !p.Completing? && !IsSampling(p) then s.(jobs := s.jobs[j := Snoozed(s.jobs[j])]) else s
    case Load(_) => if p.Queued? then DoLoad(s, j) else s
    case ReadStatus(_) => if p.Loaded? then At(s, j, if Stopped(s.status) then Skipping else Admitted) else s
    case Skip(_) => if p.Skipping? then At(SetItem(s, k, ItemSkipped, None), j, Ended) else s
    case CheckCap(_) => if p.Admitted? then DoCheckCap(c, s, j) else s
    case MarkRunning(_) => if p.Cleared? then At(SetItem(s, k, ItemRunning, s.items[k].record), j, Marked) else s
    case FindRecord(_) => if p.Marked? then DoFindRecord(s, j) else s
    case Grade(_, cost, content) => if p.Calling? then DoGrade(s, j, cost, content) else s
    case GradeFails(_, f) => if InGradeLeaf(p) then DoGradeFails(s, j, f) else s
    case Persist(_) => if p.Persisting? then DoPersist(s, j) else s
    case FailItem(_) => if p.Failing? then At(SetItem(s, k, ItemFailed, None), j, Finishing) else s
    case Finish(_) => if p.Finishing? then DoFinish(s, j) else s
    case ReadSample(_) => if p.Completing? then At(s, j, if Settled(s) then Ended else Drawing) else s
    case ReadPool(_) => if p.Drawing? then DoReadPool(c, s, j) else s
    case InsertRow(_) => if p.Inserting? then DoInsertRow(s, j, p.ids) else s
    case SampleFails(_) => if p.Completing? || IsSampling(p) then At(s, j, Ended) else s
    case _ => s
  }

  predicate ByJob(step: Step) {
    !(step.Plan? || step.Cancel? || step.RetryFailed? || step.Stop? || step.Restart? || step.Waive? || step.Judge?)
  }

  // Before the grading call, and in it up to the stored record.
  predicate Early(step: Step) {
    step.Crash? || step.Snooze? || step.Load? || step.ReadStatus? || step.Skip? || step.CheckCap? || step.MarkRunning?
  }

  predicate Storing(step: Step) {
    step.FindRecord? || step.Grade? || step.GradeFails? || step.Persist?
  }

  predicate Sampled(step: Step) {
    step.ReadSample? || step.ReadPool? || step.InsertRow? || step.SampleFails?
  }

  // One item per answer, each with its leaf job.
  function Planned(answers: seq<(int, int)>, model: string): (items: seq<Item>)
    ensures |items| == |answers|
  {
    seq(|answers|, i requires 0 <= i < |answers| => Item(answers[i].0, answers[i].1, model, ItemPending, None))
  }

  function JobsFor(n: nat): (jobs: seq<Delivery>)
    ensures |jobs| == n
  {
    seq(n, i requires 0 <= i < n => Delivery(i, 0, Queued))
  }

  predicate DistinctAnswers(answers: seq<(int, int)>) {
    forall i, j :: 0 <= i < j < |answers| ==> answers[i].0 != answers[j].0
  }

  // Planning in one step; the answers in scope are listed once each.
  function DoPlan(s: State, answers: seq<(int, int)>, model: string, refused: bool): State {
    if s.status != RunPending || !DistinctAnswers(answers) then s
    else if refused || answers == [] then s.(status := RunFailed)
    else s.(status := RunRunning, items := Planned(answers, model), jobs := JobsFor(|answers|))
  }

  function Reset(i: Item): Item {
    if i.state == ItemFailed then i.(state := ItemPending) else i
  }

  function ResetAll(items: seq<Item>): (r: seq<Item>)
    ensures |r| == |items|
  {
    seq(|items|, k requires 0 <= k < |items| => Reset(items[k]))
  }

  // New leaf jobs for the failed items, in order.
  function Requeued(items: seq<Item>): seq<Delivery> {
    if items == [] then []
    else
      var n := |items| - 1;
      Requeued(items[..n]) + if items[n].state == ItemFailed then [Delivery(n, 0, Queued)] else []
  }

  // A run chosen as final source is not retried.
  function DoRetryFailed(s: State, pinned: bool): State {
    var again := Requeued(s.items);
    if pinned || again == [] then s
    else s.(status := RunRunning, items := ResetAll(s.items), jobs := s.jobs + again)
  }

  function Apply(c: Config, s: State, step: Step): State {
    if ByJob(step) then
      if step.job < |s.jobs| && s.jobs[step.job].item < |s.items| then JobStep(c, s, step.job, step) else s
    else match step
      case Plan(answers, model, refused) => DoPlan(s, answers, model, refused)
      case Cancel => if s.status == RunPending || s.status == RunRunning then s.(status := RunCancelled) else s
      case RetryFailed(pinned) => DoRetryFailed(s, pinned)
      case Stop => s.(stopping := true)
      case Restart => s.(stopping := false)
      case Waive => s.(waived := true)
      case Judge(id) => if id in s.sample then s.(sample := s.sample[id := true]) else s
      case _ => s
  }

  function Start(): State {
    State(RunPending, [], [], [], false, map[], false)
  }

  function Run(c: Config, s: State, steps: seq<Step>): State {
    if steps == [] then s else Apply(c, Run(c, s, steps[..|steps| - 1]), steps[|steps| - 1])
  }

  lemma RunNothing(c: Config, s: State)
    ensures Run(c, s, []) == s
  {
  }

  lemma RunSnoc(c: Config, s: State, steps: seq<Step>, step: Step)
    ensures Run(c, s, steps + [step]) == Apply(c, Run(c, s, steps), step)
  {
    hide Apply;
    assert (steps + [step])[..|steps|] == steps;
  }

  // One more step of a run.
  lemma Then(c: Config, s: State, steps: seq<Step>, step: Step, before: State, after: State)
    requires Run(c, s, steps) == before && Apply(c, before, step) == after
    ensures Run(c, s, steps + [step]) == after
  {
    hide Apply;
    RunSnoc(c, s, steps, step);
  }

  lemma {:induction false} RequeuedFresh(items: seq<Item>)
    ensures forall j :: 0 <= j < |Requeued(items)| ==> Requeued(items)[j].phase == Queued
  {
    if items != [] {
      RequeuedFresh(items[..|items| - 1]);
    }
  }

  lemma {:induction false} RunConcat(c: Config, s: State, xs: seq<Step>, ys: seq<Step>)
    ensures Run(c, s, xs + ys) == Run(c, Run(c, s, xs), ys)
  {
    hide Apply;
    if ys == [] {
      assert xs + ys == xs;
    } else {
      var n := |ys| - 1;
      RunConcat(c, s, xs, ys[..n]);
      assert (xs + ys)[..|xs| + n] == xs + ys[..n];
    }
  }
}
