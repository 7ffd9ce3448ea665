/** Runs from the start that break the promises of a grading run. */
module GradingRunRaces {
  import opened Wrappers
  import opened Seqs
  import opened GradingRun
  import opened GradingRunLive
  import opened GradingRunSample
  import Sampling

  function Moved(s: State, j: nat, attempt: nat, p: Phase): State
    requires j < |s.jobs|
  {
    s.(jobs := s.jobs[j := Delivery(s.jobs[j].item, attempt, p)])
  }

  predicate Ready(s: State, j: nat, k: nat) {
    j < |s.jobs| && s.jobs[j].item == k < |s.items| && s.jobs[j].phase == Queued
    && s.items[k].state != ItemSucceeded && s.items[k].state != ItemSkipped
  }

  lemma LoadStep(c: Config, s: State, j: nat, k: nat)
    requires Ready(s, j, k)
    ensures Apply(c, s, Load(j)) == Moved(s, j, s.jobs[j].attempt + 1, Loaded)
  {
  }

  lemma EnterSteps(c: Config, s: State, j: nat, k: nat, n: nat)
    requires Ready(s, j, k) && s.status == RunRunning
    ensures Apply(c, Moved(s, j, n, Loaded), ReadStatus(j)) == Moved(s, j, n, Admitted)
    ensures c.cap.Some? && Spend(s.records) >= c.cap.value ==> Apply(c, Moved(s, j, n, Admitted), CheckCap(j)) == Moved(s, j, n, Failing)
    ensures c.cap == None ==> Apply(c, Moved(s, j, n, Admitted), CheckCap(j)) == Moved(s, j, n, Cleared)
    ensures Apply(c, Moved(s, j, n, Failing), FailItem(j)) == Moved(SetItem(s, k, ItemFailed, None), j, n, Finishing)
  {
    hide Spend;
  }

  function FailSteps(j: nat): seq<Step> {
    [] + [Load(j)] + [ReadStatus(j)] + [CheckCap(j)] + [FailItem(j)]
  }

  // At the cap a leaf fails at once.
  lemma FailsAtCap(c: Config, s: State, j: nat, k: nat)
    requires Ready(s, j, k) && s.status == RunRunning && c.cap.Some? && Spend(s.records) >= c.cap.value
    ensures Run(c, s, FailSteps(j)) == Moved(SetItem(s, k, ItemFailed, None), j, s.jobs[j].attempt + 1, Finishing)
  {
    var n := s.jobs[j].attempt + 1;
    LoadStep(c, s, j, k);
    EnterSteps(c, s, j, k, n);
    RunNothing(c, s);
    hide Apply, Run, Moved, SetItem, Spend;
    Then(c, s, [], Load(j), s, Moved(s, j, n, Loaded));
    Then(c, s, [] + [Load(j)], ReadStatus(j), Moved(s, j, n, Loaded), Moved(s, j, n, Admitted));
    Then(c, s, [] + [Load(j)] + [ReadStatus(j)], CheckCap(j), Moved(s, j, n, Admitted), Moved(s, j, n, Failing));
    Then(c, s, [] + [Load(j)] + [ReadStatus(j)] + [CheckCap(j)], FailItem(j), Moved(s, j, n, Failing),
         Moved(SetItem(s, k, ItemFailed, None), j, n, Finishing));
  }

  // ---- a retry between reading the status and skipping ----

  // A cap of nothing fails every leaf at its cap check.
  function NoBudget(): Config {
    Config(Some(0.0), pool => pool)
  }

  function TwoItems(status: RunStatus, a: ItemState, b: ItemState, jobs: seq<Delivery>): State {
    State(status, [Item(1, 1, "m", a, None), Item(2, 1, "m", b, None)], [], jobs, false, map[], false)
  }

  // The first leaf fails, the second reads that the run was cancelled, a retry revives the run
  // and runs out, and only then the second leaf is skipped.
  function SplitReadStatus(): seq<Step> {
    ReadFirst() + [RetryFailed(false)] + FailSteps(2) + [Finish(2)] + [Skip(1)]
  }

  function ReadFirst(): seq<Step> {
    [] + [Plan([(1, 1), (2, 1)], "m", false)] + FailSteps(0) + [Finish(0)] + [Load(1)] + [Cancel] + [ReadStatus(1)]
  }

  function A1(): State { TwoItems(RunRunning, ItemPending, ItemPending, [Delivery(0, 0, Queued), Delivery(1, 0, Queued)]) }
  function A2(): State { TwoItems(RunRunning, ItemFailed, ItemPending, [Delivery(0, 1, Finishing), Delivery(1, 0, Queued)]) }
  function A3(): State { TwoItems(RunRunning, ItemFailed, ItemPending, [Delivery(0, 1, Ended), Delivery(1, 0, Queued)]) }
  function A4(): State { TwoItems(RunRunning, ItemFailed, ItemPending, [Delivery(0, 1, Ended), Delivery(1, 1, Loaded)]) }
  function A5(): State { TwoItems(RunCancelled, ItemFailed, ItemPending, [Delivery(0, 1, Ended), Delivery(1, 1, Loaded)]) }
  function A6(): State { TwoItems(RunCancelled, ItemFailed, ItemPending, [Delivery(0, 1, Ended), Delivery(1, 1, Skipping)]) }
  function A7(): State {
    TwoItems(RunRunning, ItemPending, ItemPending, [Delivery(0, 1, Ended), Delivery(1, 1, Skipping), Delivery(0, 0, Queued)])
  }
  function A8(): State {
    TwoItems(RunRunning, ItemFailed, ItemPending, [Delivery(0, 1, Ended), Delivery(1, 1, Skipping), Delivery(0, 1, Finishing)])
  }
  function A9(): State {
    TwoItems(RunRunning, ItemFailed, ItemPending, [Delivery(0, 1, Ended), Delivery(1, 1, Skipping), Delivery(0, 1, Ended)])
  }
  function A10(): State {
    TwoItems(RunRunning, ItemFailed, ItemSkipped, [Delivery(0, 1, Ended), Delivery(1, 1, Ended), Delivery(0, 1, Ended)])
  }

  lemma Planning()
    ensures Apply(NoBudget(), Start(), Plan([(1, 1), (2, 1)], "m", false)) == A1()
    ensures Ready(A1(), 0, 0) && Moved(SetItem(A1(), 0, ItemFailed, None), 0, 1, Finishing) == A2()
  {
  }

  lemma SecondLives(a: ItemState, jobs: seq<Delivery>)
    ensures AnyLive(TwoItems(RunRunning, a, ItemPending, jobs).items)
  {
    assert IsLive(TwoItems(RunRunning, a, ItemPending, jobs).items[1]);
  }

  lemma Interleaved()
    ensures Apply(NoBudget(), A2(), Finish(0)) == A3()
    ensures Apply(NoBudget(), A3(), Load(1)) == A4()
    ensures Apply(NoBudget(), A4(), Cancel) == A5()
    ensures Apply(NoBudget(), A5(), ReadStatus(1)) == A6()
  {
    SecondLives(ItemFailed, A2().jobs);
    hide AnyLive;
  }

  lemma Retried()
    ensures Apply(NoBudget(), A6(), RetryFailed(false)) == A7()
    ensures Ready(A7(), 2, 0) && Moved(SetItem(A7(), 0, ItemFailed, None), 2, 1, Finishing) == A8()
  {
    var items := A6().items;
    assert items[..1][..0] == [] && items[..1][0] == items[0];
    assert Requeued(items[..1]) == [Delivery(0, 0, Queued)];
    assert Requeued(items) == [Delivery(0, 0, Queued)];
    assert ResetAll(items) == A7().items;
  }

  lemma Skipped()
    ensures Apply(NoBudget(), A8(), Finish(2)) == A9()
    ensures Apply(NoBudget(), A9(), Skip(1)) == A10()
  {
    SecondLives(ItemFailed, A8().jobs);
    hide AnyLive;
  }

  lemma FirstHalf()
    ensures Run(NoBudget(), Start(), ReadFirst()) == A6()
  {
    var c, s := NoBudget(), Start();
    Planning();
    Interleaved();
    RunNothing(c, s);
    FailsAtCap(c, A1(), 0, 0);
    assert Run(c, A1(), FailSteps(0)) == A2();
    hide Apply, Run, A1, A2, A3, A4, A5, A6, Start, FailSteps;
    var t0 := [] + [Plan([(1, 1), (2, 1)], "m", false)];
    Then(c, s, [], Plan([(1, 1), (2, 1)], "m", false), s, A1());
    RunConcat(c, s, t0, FailSteps(0));
    var t1 := t0 + FailSteps(0);
    Then(c, s, t1, Finish(0), A2(), A3());
    Then(c, s, t1 + [Finish(0)], Load(1), A3(), A4());
    Then(c, s, t1 + [Finish(0)] + [Load(1)], Cancel, A4(), A5());
    Then(c, s, t1 + [Finish(0)] + [Load(1)] + [Cancel], ReadStatus(1), A5(), A6());
  }

  lemma EndsWedged()
    ensures Drained(A10()) && A10().status == RunRunning && !AnyLive(A10().items)
  {
  }

  // A retry revives the run between a delivery's status read and its skip: the run is left running
  // with all its items finished and no delivery left.
  lemma SplitPrologueWedges()
    ensures var s := Run(NoBudget(), Start(), SplitReadStatus());
            Drained(s) && s.status == RunRunning && !AnyLive(s.items)
  {
    var c, s := NoBudget(), Start();
    var t := ReadFirst();
    FirstHalf();
    Retried();
    Skipped();
    FailsAtCap(c, A7(), 2, 0);
    assert Run(c, A7(), FailSteps(2)) == A8();
    EndsWedged();
    hide Apply, Run, A6, A7, A8, A9, A10, Start, FailSteps, ReadFirst, Drained, AnyLive;
    Then(c, s, t, RetryFailed(false), A6(), A7());
    RunConcat(c, s, t + [RetryFailed(false)], FailSteps(2));
    Then(c, s, t + [RetryFailed(false)] + FailSteps(2), Finish(2), A8(), A9());
    Then(c, s, t + [RetryFailed(false)] + FailSteps(2) + [Finish(2)], Skip(1), A9(), A10());
  }

  // ---- a last attempt lost to a shutdown ----

  function NoCap(): Config {
    Config(None, pool => pool)
  }

  function OneItem(st: ItemState, attempt: nat, p: Phase, stopping: bool): State {
    State(RunRunning, [Item(1, 1, "m", st, None)], [], [Delivery(0, attempt, p)], stopping, map[], false)
  }

  function LostAttempt(): seq<Step> {
    ThreeAttempts() + [ReadStatus(0)] + [CheckCap(0)] + [MarkRunning(0)] + [Stop] + [GradeFails(0, Interrupted(false))]
  }

  lemma OneItemSteps(n: nat)
    ensures Apply(NoCap(), OneItem(ItemPending, n, Queued, false), Load(0)) == OneItem(ItemPending, n + 1, Loaded, false)
    ensures n < 3 ==> Apply(NoCap(), OneItem(ItemPending, n, Loaded, false), Crash(0)) == OneItem(ItemPending, n, Queued, false)
  {
  }

  lemma OneItemEnters(n: nat)
    ensures Apply(NoCap(), OneItem(ItemPending, n, Loaded, false), ReadStatus(0)) == OneItem(ItemPending, n, Admitted, false)
    ensures Apply(NoCap(), OneItem(ItemPending, n, Admitted, false), CheckCap(0)) == OneItem(ItemPending, n, Cleared, false)
    ensures Apply(NoCap(), OneItem(ItemPending, n, Cleared, false), MarkRunning(0)) == OneItem(ItemRunning, n, Marked, false)
  {
  }

  lemma LostSteps()
    ensures Apply(NoCap(), Start(), Plan([(1, 1)], "m", false)) == OneItem(ItemPending, 0, Queued, false)
    ensures Apply(NoCap(), OneItem(ItemRunning, 3, Marked, false), Stop) == OneItem(ItemRunning, 3, Marked, true)
    ensures Apply(NoCap(), OneItem(ItemRunning, 3, Marked, true), GradeFails(0, Interrupted(false))) == OneItem(ItemRunning, 3, Discarded, true)
  {
  }

  function ThreeAttempts(): seq<Step> {
    [] + [Plan([(1, 1)], "m", false)] + [Load(0)] + [Crash(0)] + [Load(0)] + [Crash(0)] + [Load(0)]
  }

  lemma ThreeLoads()
    ensures Run(NoCap(), Start(), ThreeAttempts()) == OneItem(ItemPending, 3, Loaded, false)
  {
    var c, s := NoCap(), Start();
    LostSteps();
    OneItemSteps(0);
    OneItemSteps(1);
    OneItemSteps(2);
    RunNothing(c, s);
    hide Apply, Run, OneItem, Start;
    var t := [] + [Plan([(1, 1)], "m", false)];
    var t' := t + [Load(0)] + [Crash(0)];
    Then(c, s, [], Plan([(1, 1)], "m", false), s, OneItem(ItemPending, 0, Queued, false));
    Then(c, s, t, Load(0), OneItem(ItemPending, 0, Queued, false), OneItem(ItemPending, 1, Loaded, false));
    Then(c, s, t + [Load(0)], Crash(0), OneItem(ItemPending, 1, Loaded, false), OneItem(ItemPending, 1, Queued, false));
    Then(c, s, t', Load(0), OneItem(ItemPending, 1, Queued, false), OneItem(ItemPending, 2, Loaded, false));
    Then(c, s, t' + [Load(0)], Crash(0), OneItem(ItemPending, 2, Loaded, false), OneItem(ItemPending, 2, Queued, false));
    Then(c, s, t' + [Load(0)] + [Crash(0)], Load(0), OneItem(ItemPending, 2, Queued, false), OneItem(ItemPending, 3, Loaded, false));
  }

  // A crash of the last attempt: the queue does not bring the delivery back.
  lemma LastCrashWedges()
    ensures var s := Run(NoCap(), Start(), ThreeAttempts() + [Crash(0)]);
            Drained(s) && s.status == RunRunning && s.items[..] == [Item(1, 1, "m", ItemPending, None)]
  {
    var last := OneItem(ItemPending, 3, Discarded, false);
    assert Drained(last) && last.items[..] == [Item(1, 1, "m", ItemPending, None)];
    ThreeLoads();
    LastCrash();
    hide Apply, Run, Drained, ThreeAttempts;
    Then(NoCap(), Start(), ThreeAttempts(), Crash(0), OneItem(ItemPending, 3, Loaded, false), last);
  }

  lemma LastCrash()
    ensures Apply(NoCap(), OneItem(ItemPending, 3, Loaded, false), Crash(0)) == OneItem(ItemPending, 3, Discarded, false)
  {
  }

  // On its last attempt a leaf is cut off by a shutdown, and the error hides that: the runner
  // writes no outcome, the queue does not recognise the shutdown, and the job is gone.
  lemma HiddenShutdownWedges()
    ensures var s := Run(NoCap(), Start(), LostAttempt());
            Drained(s) && s.status == RunRunning && s.items[..] == [Item(1, 1, "m", ItemRunning, None)]
  {
    var c, s := NoCap(), Start();
    ThreeLoads();
    LostSteps();
    OneItemEnters(3);
    var last := OneItem(ItemRunning, 3, Discarded, true);
    assert Drained(last) && last.status == RunRunning && last.items[..] == [Item(1, 1, "m", ItemRunning, None)];
    hide Apply, Run, OneItem, Start, Drained, ThreeAttempts;
    var t := ThreeAttempts();
    Then(c, s, t, ReadStatus(0), OneItem(ItemPending, 3, Loaded, false), OneItem(ItemPending, 3, Admitted, false));
    var t1 := t + [ReadStatus(0)];
    Then(c, s, t1, CheckCap(0), OneItem(ItemPending, 3, Admitted, false), OneItem(ItemPending, 3, Cleared, false));
    var t2 := t1 + [CheckCap(0)];
    Then(c, s, t2, MarkRunning(0), OneItem(ItemPending, 3, Cleared, false), OneItem(ItemRunning, 3, Marked, false));
    var t3 := t2 + [MarkRunning(0)];
    Then(c, s, t3, Stop, OneItem(ItemRunning, 3, Marked, false), OneItem(ItemRunning, 3, Marked, true));
    Then(c, s, t3 + [Stop], GradeFails(0, Interrupted(false)), OneItem(ItemRunning, 3, Marked, true), last);
  }

  // ---- whole leaves ----

  function CallSteps(j: nat): seq<Step> {
    [] + [Load(j)] + [ReadStatus(j)] + [CheckCap(j)] + [MarkRunning(j)] + [FindRecord(j)]
  }

  function CalledState(s: State, j: nat, k: nat): State
    requires j < |s.jobs| && k < |s.items|
  {
    Moved(SetItem(s, k, ItemRunning, s.items[k].record), j, s.jobs[j].attempt + 1, Calling)
  }

  predicate Unrecorded(s: State, j: nat, k: nat) {
    Ready(s, j, k) && s.status == RunRunning && RecordFor(s.records, s.items[k].answer, s.items[k].model) == None
  }

  lemma EnterCall(s: State, j: nat, k: nat, n: nat)
    requires Unrecorded(s, j, k)
    ensures var run := SetItem(s, k, ItemRunning, s.items[k].record);
            && Apply(NoCap(), Moved(s, j, n, Cleared), MarkRunning(j)) == Moved(run, j, n, Marked)
            && Apply(NoCap(), Moved(run, j, n, Marked), FindRecord(j)) == Moved(run, j, n, Calling)
  {
    hide RecordFor;
  }

  lemma CallsLeaf(s: State, j: nat, k: nat)
    requires Unrecorded(s, j, k)
    ensures Run(NoCap(), s, CallSteps(j)) == CalledState(s, j, k)
  {
    var c := NoCap();
    var n := s.jobs[j].attempt + 1;
    LoadStep(c, s, j, k);
    EnterSteps(c, s, j, k, n);
    EnterCall(s, j, k, n);
    RunNothing(c, s);
    var run := SetItem(s, k, ItemRunning, s.items[k].record);
    hide Apply, Run, Moved, SetItem, RecordFor;
    var t := [] + [Load(j)];
    Then(c, s, [], Load(j), s, Moved(s, j, n, Loaded));
    Then(c, s, t, ReadStatus(j), Moved(s, j, n, Loaded), Moved(s, j, n, Admitted));
    Then(c, s, t + [ReadStatus(j)], CheckCap(j), Moved(s, j, n, Admitted), Moved(s, j, n, Cleared));
    var t' := t + [ReadStatus(j)] + [CheckCap(j)];
    Then(c, s, t', MarkRunning(j), Moved(s, j, n, Cleared), Moved(run, j, n, Marked));
    Then(c, s, t' + [MarkRunning(j)], FindRecord(j), Moved(run, j, n, Marked), Moved(run, j, n, Calling));
  }

  function GradeSteps(j: nat): seq<Step> {
    CallSteps(j) + [Grade(j, 0.0, "")] + [Persist(j)]
  }

  function GradedState(s: State, j: nat, k: nat): State
    requires j < |s.jobs| && k < |s.items|
  {
    Moved(SetItem(s, k, ItemSucceeded, Some(|s.records|)), j, s.jobs[j].attempt + 1, Finishing)
    .(records := s.records + [Record(s.items[k].answer, s.items[k].model, 0.0, "")])
  }

  lemma StoresVerdict(s: State, j: nat, k: nat)
    requires Unrecorded(s, j, k)
    ensures Apply(NoCap(), Apply(NoCap(), CalledState(s, j, k), Grade(j, 0.0, "")), Persist(j)) == GradedState(s, j, k)
  {
    hide RecordFor;
  }

  // A leaf graded at the first try.
  lemma GradesLeaf(s: State, j: nat, k: nat)
    requires Unrecorded(s, j, k)
    ensures Run(NoCap(), s, GradeSteps(j)) == GradedState(s, j, k)
  {
    CallsLeaf(s, j, k);
    StoresVerdict(s, j, k);
    hide Apply, Run, CallSteps, CalledState, GradedState, Unrecorded;
    RunSnoc(NoCap(), s, CallSteps(j), Grade(j, 0.0, ""));
    RunSnoc(NoCap(), s, CallSteps(j) + [Grade(j, 0.0, "")], Persist(j));
  }

  function FailedSteps(j: nat): seq<Step> {
    CallSteps(j) + [GradeFails(j, Malformed)] + [FailItem(j)]
  }

  function FailedState(s: State, j: nat, k: nat): State
    requires j < |s.jobs| && k < |s.items|
  {
    Moved(SetItem(s, k, ItemFailed, None), j, s.jobs[j].attempt + 1, Finishing)
  }

  lemma FailsVerdict(s: State, j: nat, k: nat)
    requires Unrecorded(s, j, k)
    ensures Apply(NoCap(), Apply(NoCap(), CalledState(s, j, k), GradeFails(j, Malformed)), FailItem(j)) == FailedState(s, j, k)
  {
    hide RecordFor;
  }

  // A leaf whose output stays malformed.
  lemma FailsLeaf(s: State, j: nat, k: nat)
    requires Unrecorded(s, j, k)
    ensures Run(NoCap(), s, FailedSteps(j)) == FailedState(s, j, k)
  {
    CallsLeaf(s, j, k);
    FailsVerdict(s, j, k);
    hide Apply, Run, CallSteps, CalledState, FailedState, Unrecorded;
    RunSnoc(NoCap(), s, CallSteps(j), GradeFails(j, Malformed));
    RunSnoc(NoCap(), s, CallSteps(j) + [GradeFails(j, Malformed)], FailItem(j));
  }

  // ---- two completions that sample at once ----

  function FirstRecord(): Record { Record(1, "m", 0.0, "") }
  function SecondRecord(): Record { Record(2, "m", 0.0, "") }

  function Two(status: RunStatus, second: ItemState, more: seq<Record>, jobs: seq<Delivery>, sample: map<int, bool>): State {
    State(status,
          [Item(1, 1, "m", ItemSucceeded, Some(0)),
           Item(2, 1, "m", second, if second == ItemSucceeded then Some(1) else None)],
          [FirstRecord()] + more, jobs, false, sample, false)
  }

  function B0(): State { TwoItems(RunRunning, ItemPending, ItemPending, [Delivery(0, 0, Queued), Delivery(1, 0, Queued)]) }
  function B1(): State { Two(RunRunning, ItemPending, [], [Delivery(0, 1, Finishing), Delivery(1, 0, Queued)], map[]) }
  function B2(): State { Two(RunRunning, ItemPending, [], [Delivery(0, 1, Ended), Delivery(1, 0, Queued)], map[]) }
  function B3(): State { Two(RunRunning, ItemFailed, [], [Delivery(0, 1, Ended), Delivery(1, 1, Finishing)], map[]) }
  function B4(p: Phase): State { Two(RunCompleted, ItemFailed, [], [Delivery(0, 1, Ended), Delivery(1, 1, p)], map[]) }
  function First(): Phase { Inserting([0]) }
  function Both(): Phase { Inserting([0, 1]) }
  // From here on p is where the first completion stands, and q the second.
  function B5(p: Phase): State {
    Two(RunRunning, ItemPending, [], [Delivery(0, 1, Ended), Delivery(1, 1, p), Delivery(1, 0, Queued)], map[])
  }
  function B6(p: Phase): State {
    Two(RunRunning, ItemSucceeded, [SecondRecord()], [Delivery(0, 1, Ended), Delivery(1, 1, p), Delivery(1, 1, Finishing)], map[])
  }
  function B7(p: Phase, q: Phase, sample: map<int, bool>): State {
    Two(RunCompleted, ItemSucceeded, [SecondRecord()], [Delivery(0, 1, Ended), Delivery(1, 1, p), Delivery(1, 1, q)], sample)
  }

  lemma BothPlanned()
    ensures Apply(NoCap(), Start(), Plan([(1, 1), (2, 1)], "m", false)) == B0()
  {
  }

  lemma FirstGraded()
    ensures Unrecorded(B0(), 0, 0) && GradedState(B0(), 0, 0) == B1()
  {
    assert [FirstRecord()] + [] == [FirstRecord()];
  }

  lemma FirstRests()
    ensures Apply(NoCap(), B1(), Finish(0)) == B2()
  {
    assert IsLive(B1().items[1]);
  }

  lemma SecondFails()
    ensures Unrecorded(B2(), 1, 1) && FailedState(B2(), 1, 1) == B3()
  {
    assert [FirstRecord()] + [] == [FirstRecord()];
    assert [FirstRecord()][..0] == [];
    assert RecordFor([FirstRecord()], 2, "m") == None;
  }

  lemma FirstCompletes()
    ensures Apply(NoCap(), B3(), Finish(1)) == B4(Completing)
    ensures Apply(NoCap(), B4(Completing), ReadSample(1)) == B4(Drawing)
  {
  }

  lemma FirstDraws()
    ensures Apply(NoCap(), B4(Drawing), ReadPool(1)) == B4(First())
  {
    PoolOfTwo(B4(Drawing).items);
    hide Pool;
    assert IdsOf([Sampling.Leaf(0, 1)]) == [0];
  }

  // The pool of two items, the first of them graded.
  lemma PoolOfTwo(items: seq<Item>)
    requires |items| == 2 && items[0].problem == items[1].problem == 1
    requires items[0].state == ItemSucceeded && items[0].record == Some(0)
    requires items[1].state == ItemSucceeded ==> items[1].record == Some(1)
    ensures Pool(items) == if items[1].state == ItemSucceeded then [Sampling.Leaf(0, 1), Sampling.Leaf(1, 1)] else [Sampling.Leaf(0, 1)]
  {
    assert items[..1][..0] == [] && items[..1][0] == items[0];
    assert FlatMap(items[..1], Graded) == [] + [Sampling.Leaf(0, 1)];
    assert FlatMap(items, Graded) == FlatMap(items[..1], Graded) + Graded(items[1]);
  }

  lemma Revived(p: Phase)
    ensures Apply(NoCap(), B4(p), RetryFailed(false)) == B5(p)
    ensures Unrecorded(B5(p), 2, 1) && GradedState(B5(p), 2, 1) == B6(p)
  {
    var items := B4(p).items;
    assert items[..1][..0] == [] && items[..1][0] == items[0];
    assert Requeued(items[..1]) == [];
    assert Requeued(items) == [] + [Delivery(1, 0, Queued)];
    assert ResetAll(items) == B5(p).items;
    assert [FirstRecord()] + [] == [FirstRecord()];
    assert [FirstRecord()][..0] == [];
    assert RecordFor([FirstRecord()], 2, "m") == None;
  }

  lemma SecondCompletes(p: Phase)
    ensures Apply(NoCap(), B6(p), Finish(2)) == B7(p, Completing, map[])
    ensures Apply(NoCap(), B7(p, Completing, map[]), ReadSample(2)) == B7(p, Drawing, map[])
  {
  }

  lemma SecondDraws(p: Phase)
    ensures Apply(NoCap(), B7(p, Drawing, map[]), ReadPool(2)) == B7(p, Both(), map[])
    ensures IdsOf(NoCap().draw(Pool(B7(p, Drawing, map[]).items))) == [0, 1]
  {
    PoolOfTwo(B7(p, Drawing, map[]).items);
    hide Pool;
    assert IdsOf([Sampling.Leaf(0, 1), Sampling.Leaf(1, 1)]) == [0, 1];
  }

  lemma FirstInserts(q: Phase)
    ensures Apply(NoCap(), B7(First(), q, map[]), InsertRow(1)) == B7(Inserting([]), q, map[0 := false])
    ensures Apply(NoCap(), B7(Inserting([]), q, map[0 := false]), InsertRow(1)) == B7(Ended, q, map[0 := false])
  {
    assert [0][1..] == [];
  }

  lemma FirstJudged(q: Phase)
    ensures Apply(NoCap(), B7(Ended, q, map[0 := false]), Judge(0)) == B7(Ended, q, map[0 := true])
  {
    assert map[0 := false][0 := true] == map[0 := true];
  }

  lemma SecondInserts()
    ensures Apply(NoCap(), B7(Ended, Both(), map[]), InsertRow(2)) == B7(Ended, Inserting([1]), map[0 := false])
    ensures Apply(NoCap(), B7(Ended, Both(), map[0 := true]), InsertRow(2)) == B7(Ended, Inserting([1]), map[0 := true])
    ensures Apply(NoCap(), B7(Ended, Inserting([1]), map[0 := true]), InsertRow(2)) == B7(Ended, Inserting([]), map[0 := true, 1 := false])
    ensures Apply(NoCap(), B7(Ended, Inserting([1]), map[0 := false]), SampleFails(2)) == B7(Ended, Ended, map[0 := false])
  {
    assert [0, 1][1..] == [1] && [1][1..] == [];
  }

  // The first leaf succeeds, the second fails; the completion reads that there is no sample and
  // draws the one record.
  function DrawnOnce(): seq<Step> {
    [] + [Plan([(1, 1), (2, 1)], "m", false)] + GradeSteps(0) + [Finish(0)] + FailedSteps(1) + [Finish(1)] + [ReadSample(1)] + [ReadPool(1)]
  }

  // A retry grades the second leaf and completes the run again, and that completion too finds no
  // sample and draws both.
  function Redrawn(): seq<Step> {
    [] + [RetryFailed(false)] + GradeSteps(2) + [Finish(2)] + [ReadSample(2)] + [ReadPool(2)]
  }

  // The first sample is inserted and checked, while the second completion goes through its rows.
  function OpenedGate(): seq<Step> {
    DrawnOnce() + Redrawn() + [InsertRow(1)] + [InsertRow(1)] + [Judge(0)] + [InsertRow(2)]
  }

  // The first completion fails before its first row, the second after it, and that row is checked.
  function CutSample(): seq<Step> {
    DrawnOnce() + [SampleFails(1)] + Redrawn() + [InsertRow(2)] + [SampleFails(2)] + [Judge(0)]
  }

  lemma DrawnOnceRun()
    ensures Run(NoCap(), Start(), DrawnOnce()) == B4(First())
  {
    var c, s := NoCap(), Start();
    BothPlanned();
    FirstGraded();
    FirstRests();
    SecondFails();
    FirstCompletes();
    FirstDraws();
    GradesLeaf(B0(), 0, 0);
    FailsLeaf(B2(), 1, 1);
    RunNothing(c, s);
    hide Apply, Run, B0, B1, B2, B3, B4, Start, GradeSteps, FailedSteps, GradedState, FailedState, Unrecorded;
    var t0 := [] + [Plan([(1, 1), (2, 1)], "m", false)];
    Then(c, s, [], Plan([(1, 1), (2, 1)], "m", false), s, B0());
    RunConcat(c, s, t0, GradeSteps(0));
    var t1 := t0 + GradeSteps(0);
    Then(c, s, t1, Finish(0), B1(), B2());
    RunConcat(c, s, t1 + [Finish(0)], FailedSteps(1));
    var t2 := t1 + [Finish(0)] + FailedSteps(1);
    Then(c, s, t2, Finish(1), B3(), B4(Completing));
    Then(c, s, t2 + [Finish(1)], ReadSample(1), B4(Completing), B4(Drawing));
    Then(c, s, t2 + [Finish(1)] + [ReadSample(1)], ReadPool(1), B4(Drawing), B4(First()));
  }

  lemma RedrawnRun(p: Phase)
    ensures Run(NoCap(), B4(p), Redrawn()) == B7(p, Both(), map[])
  {
    var c, s := NoCap(), B4(p);
    Revived(p);
    SecondCompletes(p);
    SecondDraws(p);
    GradesLeaf(B5(p), 2, 1);
    RunNothing(c, s);
    hide Apply, Run, B4, B5, B6, B7, GradeSteps, GradedState, Unrecorded;
    Then(c, s, [], RetryFailed(false), s, B5(p));
    var t0 := [] + [RetryFailed(false)];
    RunConcat(c, s, t0, GradeSteps(2));
    var t1 := t0 + GradeSteps(2);
    Then(c, s, t1, Finish(2), B6(p), B7(p, Completing, map[]));
    Then(c, s, t1 + [Finish(2)], ReadSample(2), B7(p, Completing, map[]), B7(p, Drawing, map[]));
    Then(c, s, t1 + [Finish(2)] + [ReadSample(2)], ReadPool(2), B7(p, Drawing, map[]), B7(p, Both(), map[]));
  }

  lemma OpenedGateRun()
    ensures Run(NoCap(), Start(), OpenedGate()) == B7(Ended, Inserting([1]), map[0 := true])
  {
    var c, s := NoCap(), Start();
    DrawnOnceRun();
    RedrawnRun(First());
    FirstInserts(Both());
    FirstJudged(Both());
    SecondInserts();
    hide Apply, Run, B4, B7, Start, DrawnOnce, Redrawn;
    RunConcat(c, s, DrawnOnce(), Redrawn());
    var t := DrawnOnce() + Redrawn();
    Then(c, s, t, InsertRow(1), B7(First(), Both(), map[]), B7(Inserting([]), Both(), map[0 := false]));
    Then(c, s, t + [InsertRow(1)], InsertRow(1), B7(Inserting([]), Both(), map[0 := false]), B7(Ended, Both(), map[0 := false]));
    Then(c, s, t + [InsertRow(1)] + [InsertRow(1)], Judge(0), B7(Ended, Both(), map[0 := false]), B7(Ended, Both(), map[0 := true]));
    Then(c, s, t + [InsertRow(1)] + [InsertRow(1)] + [Judge(0)], InsertRow(2),
         B7(Ended, Both(), map[0 := true]), B7(Ended, Inserting([1]), map[0 := true]));
  }

  // A run in which the first sample does not stand: it is checked and its gate open, and then the
  // second completion adds a record nobody has checked, and the gate is closed again.
  lemma OverlappingSamplesReopen()
    ensures var s := Run(NoCap(), Start(), OpenedGate());
            var s' := Run(NoCap(), Start(), OpenedGate() + [InsertRow(2)]);
            && s.sample.Keys == {0} && GateOpen(s)
            && s'.sample.Keys == {0, 1} && !GateOpen(s')
  {
    var c, s := NoCap(), Start();
    var cleared, closed := B7(Ended, Inserting([1]), map[0 := true]), B7(Ended, Inserting([]), map[0 := true, 1 := false]);
    OpenedGateRun();
    SecondInserts();
    assert GateOpen(cleared) && cleared.sample.Keys == {0};
    assert 1 in closed.sample && !closed.sample[1] && !GateOpen(closed) && closed.sample.Keys == {0, 1};
    hide Apply, Run, B7, Start, OpenedGate, GateOpen;
    Then(c, s, OpenedGate(), InsertRow(2), cleared, closed);
  }

  lemma CutSampleRun()
    ensures Run(NoCap(), Start(), CutSample()) == B7(Ended, Ended, map[0 := true])
  {
    var c, s := NoCap(), Start();
    DrawnOnceRun();
    assert Apply(c, B4(First()), SampleFails(1)) == B4(Ended);
    RedrawnRun(Ended);
    SecondInserts();
    FirstJudged(Ended);
    hide Apply, Run, B4, B7, Start, DrawnOnce, Redrawn;
    Then(c, s, DrawnOnce(), SampleFails(1), B4(First()), B4(Ended));
    RunConcat(c, s, DrawnOnce() + [SampleFails(1)], Redrawn());
    var t := DrawnOnce() + [SampleFails(1)] + Redrawn();
    Then(c, s, t, InsertRow(2), B7(Ended, Both(), map[]), B7(Ended, Inserting([1]), map[0 := false]));
    Then(c, s, t + [InsertRow(2)], SampleFails(2), B7(Ended, Inserting([1]), map[0 := false]), B7(Ended, Ended, map[0 := false]));
    Then(c, s, t + [InsertRow(2)] + [SampleFails(2)], Judge(0), B7(Ended, Ended, map[0 := false]), B7(Ended, Ended, map[0 := true]));
  }

  // A run whose sample is cut short by a store error that the completion ignores: two records are
  // drawn, one is inserted, and checking that one opens the gate. No later step adds the other.
  lemma CutSampleOpensGate(more: seq<Step>)
    ensures var s := Run(NoCap(), Start(), CutSample());
            && Drained(s) && GateOpen(s) && s.sample.Keys == {0} && IdsOf(NoCap().draw(Pool(s.items))) == [0, 1]
            && Run(NoCap(), s, more).sample.Keys == {0} && GateOpen(Run(NoCap(), s, more))
  {
    var cut := B7(Ended, Ended, map[0 := true]);
    CutSampleRun();
    SecondDraws(Ended);
    CutSampleIsQuiet();
    hide *;
    FirstSampleIsCanonical(NoCap(), cut, more);
  }

  lemma CutSampleIsQuiet()
    ensures var cut := B7(Ended, Ended, map[0 := true]);
            && Drained(cut) && GateOpen(cut) && cut.sample.Keys == {0} && Settled(cut) && NoneSampling(cut)
            && cut.items == B7(Ended, Drawing, map[]).items
  {
    assert 0 in B7(Ended, Ended, map[0 := true]).sample;
  }

  // ---- a completion that crashes ----

  function Graded1(status: RunStatus, attempt: nat, p: Phase): State {
    State(status, [Item(1, 1, "m", ItemSucceeded, Some(0))], [FirstRecord()], [Delivery(0, attempt, p)], false, map[], false)
  }

  lemma OneGraded()
    ensures Unrecorded(OneItem(ItemPending, 0, Queued, false), 0, 0)
    ensures GradedState(OneItem(ItemPending, 0, Queued, false), 0, 0) == Graded1(RunRunning, 1, Finishing)
  {
  }

  lemma CrashesCompleting()
    ensures Apply(NoCap(), Graded1(RunRunning, 1, Finishing), Finish(0)) == Graded1(RunCompleted, 1, Completing)
    ensures Apply(NoCap(), Graded1(RunCompleted, 1, Completing), Crash(0)) == Graded1(RunCompleted, 1, Queued)
  {
    NoneLive();
    hide AnyLive;
  }

  lemma NoneLive()
    ensures !AnyLive(Graded1(RunRunning, 1, Finishing).items)
  {
  }

  lemma ComesBack()
    ensures Apply(NoCap(), Graded1(RunCompleted, 1, Queued), Load(0)) == Graded1(RunCompleted, 2, Finishing)
    ensures Apply(NoCap(), Graded1(RunCompleted, 2, Finishing), Finish(0)) == Graded1(RunCompleted, 2, Ended)
  {
  }

  function CrashedCompletion(): seq<Step> {
    [] + [Plan([(1, 1)], "m", false)] + GradeSteps(0) + [Finish(0)] + [Crash(0)] + [Load(0)] + [Finish(0)]
  }

  // A completion that crashes before its sample: the delivery comes again, finds the run no longer
  // running, and the run stays completed, its leaf graded, without a sample or anyone to draw it.
  lemma CrashLosesSample()
    ensures var s := Run(NoCap(), Start(), CrashedCompletion());
            Drained(s) && s.status == RunCompleted && !Settled(s) && Pool(s.items) != []
  {
    var c, s := NoCap(), Start();
    var last := Graded1(RunCompleted, 2, Ended);
    assert Drained(last) && !Settled(last);
    assert last.items[..0] == [] && FlatMap(last.items, Graded) == [] + [Sampling.Leaf(0, 1)];
    LostSteps();
    OneGraded();
    CrashesCompleting();
    ComesBack();
    GradesLeaf(OneItem(ItemPending, 0, Queued, false), 0, 0);
    RunNothing(c, s);
    hide Apply, Run, OneItem, Graded1, Start, GradeSteps, GradedState, Unrecorded, Drained, Settled, Pool;
    var t0 := [] + [Plan([(1, 1)], "m", false)];
    Then(c, s, [], Plan([(1, 1)], "m", false), s, OneItem(ItemPending, 0, Queued, false));
    RunConcat(c, s, t0, GradeSteps(0));
    var t1 := t0 + GradeSteps(0);
    Then(c, s, t1, Finish(0), Graded1(RunRunning, 1, Finishing), Graded1(RunCompleted, 1, Completing));
    Then(c, s, t1 + [Finish(0)], Crash(0), Graded1(RunCompleted, 1, Completing), Graded1(RunCompleted, 1, Queued));
    Then(c, s, t1 + [Finish(0)] + [Crash(0)], Load(0), Graded1(RunCompleted, 1, Queued), Graded1(RunCompleted, 2, Finishing));
    Then(c, s, t1 + [Finish(0)] + [Crash(0)] + [Load(0)], Finish(0), Graded1(RunCompleted, 2, Finishing), last);
  }
}
