/** What the regrade protocol's promises rest on: runs that break each hypothesis. */
module RegradeRaces {
  import opened Wrappers
  import opened RegradeChain
  import opened RegradeSlots
  import opened RegradeOnce
  import opened RegradeRecovery

  // ---- one published item, one filed request, one judged problem ----

  const ONE_TURN: Config := Config(1, true, true)

  function FilingSteps(): seq<Step> {
    [] + [Publish(5, 1)] + [Deliver(1, "a", Some((5, 1)))] + [Lookup(1)] + [Admit(1, true, true)] + [Check(1)] + [File(1, [7])]
  }

  function Published(tasks: map<int, Task>): State {
    State(map[5 := Item(1, false)], {(5, 1)}, [], [], tasks)
  }

  function FiledRow(subs: seq<SubItem>, status: Status): Request {
    Request(5, 1, Filed, status, "a", subs, false)
  }

  function FiledState(subs: seq<SubItem>, tasks: map<int, Task>): State {
    State(map[5 := Item(1, false)], {(5, 1)}, [FiledRow(subs, Received)], [], tasks)
  }

  function Unjudged(): seq<SubItem> {
    [SubItem(7, None)]
  }

  function Judged(): seq<SubItem> {
    [SubItem(7, Some(Upheld))]
  }

  lemma FilingRun()
    ensures Run(ONE_TURN, Start(), FilingSteps()) == FiledState(Unjudged(), map[1 := Confirming(0)])
  {
    var c, s := ONE_TURN, Start();
    FilingApplies();
    FilingGoesOn();
    FirstFiles();
    RunNothing(c, s);
    hide Apply, Run, Published, FiledState, Start;
    var s1, s2, s3, s4, s5 := Published(map[]), Published(map[1 := Arrived("a", 5, 1)]), Published(map[1 := Bound("a", 5, 1)]),
      Published(map[1 := Admitted("a", 5, 1)]), Published(map[1 := Unconsumed("a", 5, 1)]);
    var t1 := [] + [Publish(5, 1)];
    var t2 := t1 + [Deliver(1, "a", Some((5, 1)))];
    var t3 := t2 + [Lookup(1)];
    var t4 := t3 + [Admit(1, true, true)];
    var t5 := t4 + [Check(1)];
    Then(c, s, [], Publish(5, 1), s, s1);
    Then(c, s, t1, Deliver(1, "a", Some((5, 1))), s1, s2);
    Then(c, s, t2, Lookup(1), s2, s3);
    Then(c, s, t3, Admit(1, true, true), s3, s4);
    Then(c, s, t4, Check(1), s4, s5);
    Then(c, s, t5, File(1, [7]), s5, FiledState(Unjudged(), map[1 := Confirming(0)]));
  }

  lemma FilingApplies()
    ensures Apply(ONE_TURN, Start(), Publish(5, 1)) == Published(map[])
    ensures Apply(ONE_TURN, Published(map[]), Deliver(1, "a", Some((5, 1)))) == Published(map[1 := Arrived("a", 5, 1)])
    ensures Apply(ONE_TURN, Published(map[1 := Arrived("a", 5, 1)]), Lookup(1)) == Published(map[1 := Bound("a", 5, 1)])
  {
  }

  lemma FilingGoesOn()
    ensures Apply(ONE_TURN, Published(map[1 := Bound("a", 5, 1)]), Admit(1, true, true)) == Published(map[1 := Admitted("a", 5, 1)])
    ensures Apply(ONE_TURN, Published(map[1 := Admitted("a", 5, 1)]), Check(1)) == Published(map[1 := Unconsumed("a", 5, 1)])
  {
  }

  lemma FirstFiles()
    ensures Apply(ONE_TURN, Published(map[1 := Unconsumed("a", 5, 1)]), File(1, [7])) == FiledState(Unjudged(), map[1 := Confirming(0)])
  {
    assert Contested([7]) == Unjudged();
    hide Contested;
  }

  function JudgingSteps(): seq<Step> {
    [] + [SetVerdict(0, 0, Upheld)] + [StartSend(2, 0)] + [Gate(2)] + [Build(2)]
  }

  function JudgedState(): State {
    FiledState(Judged(), map[1 := Confirming(0), 2 := Flipping(0, Judged())]).(minted := {(5, 1), (5, 2)})
  }

  lemma JudgingRun()
    ensures Run(ONE_TURN, FiledState(Unjudged(), map[1 := Confirming(0)]), JudgingSteps()) == JudgedState()
  {
    var c, s := ONE_TURN, FiledState(Unjudged(), map[1 := Confirming(0)]);
    JudgingApplies();
    GatePasses();
    EmailBuilds();
    RunNothing(c, s);
    hide Apply, Run, FiledState, JudgedState;
    var s1, s2, s3 := FiledState(Judged(), map[1 := Confirming(0)]), FiledState(Judged(), map[1 := Confirming(0), 2 := Gating(0)]),
      FiledState(Judged(), map[1 := Confirming(0), 2 := Building(0)]);
    var t1 := [] + [SetVerdict(0, 0, Upheld)];
    var t2 := t1 + [StartSend(2, 0)];
    Then(c, s, [], SetVerdict(0, 0, Upheld), s, s1);
    Then(c, s, t1, StartSend(2, 0), s1, s2);
    Then(c, s, t2, Gate(2), s2, s3);
    Then(c, s, t2 + [Gate(2)], Build(2), s3, JudgedState());
  }

  lemma JudgingApplies()
    ensures Apply(ONE_TURN, FiledState(Unjudged(), map[1 := Confirming(0)]), SetVerdict(0, 0, Upheld)) == FiledState(Judged(), map[1 := Confirming(0)])
    ensures Apply(ONE_TURN, FiledState(Judged(), map[1 := Confirming(0)]), StartSend(2, 0)) == FiledState(Judged(), map[1 := Confirming(0), 2 := Gating(0)])
  {
    assert [FiledRow(Unjudged(), Received)][0 := FiledRow(Judged(), Received)] == [FiledRow(Judged(), Received)];
    assert Unjudged()[0 := SubItem(7, Some(Upheld))] == Judged();
  }

  lemma GatePasses()
    ensures Apply(ONE_TURN, FiledState(Judged(), map[1 := Confirming(0), 2 := Gating(0)]), Gate(2)) == FiledState(Judged(), map[1 := Confirming(0), 2 := Building(0)])
  {
    assert map[1 := Confirming(0), 2 := Gating(0)][2 := Building(0)] == map[1 := Confirming(0), 2 := Building(0)];
  }

  lemma EmailBuilds()
    ensures Apply(ONE_TURN, FiledState(Judged(), map[1 := Confirming(0), 2 := Building(0)]), Build(2)) == JudgedState()
  {
    assert map[1 := Confirming(0), 2 := Building(0)][2 := Flipping(0, Judged())] == map[1 := Confirming(0), 2 := Flipping(0, Judged())];
  }

  lemma JudgedRun()
    ensures Run(ONE_TURN, Start(), FilingSteps() + JudgingSteps()) == JudgedState()
  {
    hide Run, JudgedState;
    FilingRun();
    JudgingRun();
    RunConcat(ONE_TURN, Start(), FilingSteps(), JudgingSteps());
  }

  // ---- two handoffs of one item ----

  function SecondDelivery(task: int, messageId: string): seq<Step> {
    [] + [Deliver(task, messageId, Some((5, 2)))] + [Lookup(task)] + [Admit(task, true, true)] + [Check(task)]
  }

  function JudgedWith(more: map<int, Task>): State {
    JudgedState().(tasks := JudgedState().tasks + more)
  }

  // Up to its check a delivery only reads.
  lemma DeliveryChecks(more: map<int, Task>, d: int, messageId: string)
    requires d > 2 && d !in more
    ensures Run(ONE_TURN, JudgedWith(more), SecondDelivery(d, messageId)) == JudgedWith(more[d := Unconsumed(messageId, 5, 2)])
  {
    var c, s := ONE_TURN, JudgedWith(more);
    RunNothing(c, s);
    DeliveryArrives(more, d, messageId);
    DeliveryPasses(more, d, messageId);
    hide Apply, Run, JudgedWith;
    var s1, s2, s3, s4 := JudgedWith(more[d := Arrived(messageId, 5, 2)]), JudgedWith(more[d := Bound(messageId, 5, 2)]),
      JudgedWith(more[d := Admitted(messageId, 5, 2)]), JudgedWith(more[d := Unconsumed(messageId, 5, 2)]);
    var t1 := [] + [Deliver(d, messageId, Some((5, 2)))];
    var t2 := t1 + [Lookup(d)];
    Then(c, s, [], Deliver(d, messageId, Some((5, 2))), s, s1);
    Then(c, s, t1, Lookup(d), s1, s2);
    Then(c, s, t2, Admit(d, true, true), s2, s3);
    Then(c, s, t2 + [Admit(d, true, true)], Check(d), s3, s4);
  }

  lemma PutOver(s: State, more: map<int, Task>, d: int, t: Task)
    ensures Put(s.(tasks := s.tasks + more), d, t) == s.(tasks := s.tasks + more[d := t])
  {
  }

  lemma PutTwice(more: map<int, Task>, d: int, t: Task, t': Task)
    requires d > 2
    ensures Put(JudgedWith(more), d, t) == JudgedWith(more[d := t]) && d in JudgedWith(more[d := t]).tasks
    ensures JudgedWith(more[d := t]).tasks[d] == t
    ensures Put(JudgedWith(more[d := t]), d, t') == JudgedWith(more[d := t'])
  {
    hide JudgedState;
    PutOver(JudgedState(), more, d, t);
    PutOver(JudgedState(), more[d := t], d, t');
    assert more[d := t][d := t'] == more[d := t'];
  }

  lemma JudgedFacts(more: map<int, Task>)
    ensures var s := JudgedWith(more);
            s.minted == {(5, 1), (5, 2)} && s.items == map[5 := Item(1, false)] && s.rows == [FiledRow(Judged(), Received)]
            && s.mails == [] && (forall d :: d > 2 && d !in more ==> d !in s.tasks) && !Consumed(s.rows, 5, 2)
  {
  }

  lemma DeliveryArrives(more: map<int, Task>, d: int, messageId: string)
    requires d > 2 && d !in more
    ensures Apply(ONE_TURN, JudgedWith(more), Deliver(d, messageId, Some((5, 2)))) == JudgedWith(more[d := Arrived(messageId, 5, 2)])
    ensures Apply(ONE_TURN, JudgedWith(more[d := Arrived(messageId, 5, 2)]), Lookup(d)) == JudgedWith(more[d := Bound(messageId, 5, 2)])
  {
    JudgedFacts(more);
    JudgedFacts(more[d := Arrived(messageId, 5, 2)]);
    PutTwice(more, d, Arrived(messageId, 5, 2), Bound(messageId, 5, 2));
    hide JudgedWith, Put, Consumed;
  }

  lemma DeliveryPasses(more: map<int, Task>, d: int, messageId: string)
    requires d > 2 && d !in more
    ensures Apply(ONE_TURN, JudgedWith(more[d := Bound(messageId, 5, 2)]), Admit(d, true, true)) == JudgedWith(more[d := Admitted(messageId, 5, 2)])
    ensures Apply(ONE_TURN, JudgedWith(more[d := Admitted(messageId, 5, 2)]), Check(d)) == JudgedWith(more[d := Unconsumed(messageId, 5, 2)])
  {
    JudgedFacts(more[d := Bound(messageId, 5, 2)]);
    JudgedFacts(more[d := Admitted(messageId, 5, 2)]);
    PutTwice(more, d, Bound(messageId, 5, 2), Admitted(messageId, 5, 2));
    PutTwice(more, d, Admitted(messageId, 5, 2), Unconsumed(messageId, 5, 2));
    hide JudgedWith, Put, Consumed;
  }

  function HandoffRow(messageId: string): Request {
    Request(5, 2, HandedOff, Received, messageId, [SubItem(7, None)], false)
  }

  function TwoHandoffs(): seq<Step> {
    FilingSteps() + JudgingSteps() + SecondDelivery(3, "b") + SecondDelivery(4, "c") + [File(3, [7])] + [File(4, [7])]
  }

  lemma BothFile()
    ensures var s := JudgedWith(map[][3 := Unconsumed("b", 5, 2)][4 := Unconsumed("c", 5, 2)]);
            Apply(ONE_TURN, Apply(ONE_TURN, s, File(3, [7])), File(4, [7])).rows
            == [FiledRow(Judged(), Received), HandoffRow("b"), HandoffRow("c")]
  {
    var s := JudgedWith(map[][3 := Unconsumed("b", 5, 2)][4 := Unconsumed("c", 5, 2)]);
    assert Contested([7]) == [SubItem(7, None)];
    assert s.tasks[3] == Unconsumed("b", 5, 2) && s.tasks[4] == Unconsumed("c", 5, 2) && s.rows == [FiledRow(Judged(), Received)];
    hide JudgedWith, Contested;
    var s1 := Apply(ONE_TURN, s, File(3, [7]));
    assert s1.rows == [FiledRow(Judged(), Received), HandoffRow("b")];
    assert 4 in s1.tasks && s1.tasks[4] == Unconsumed("c", 5, 2);
    hide Apply;
    HandsOff(s1, 4, "c");
  }

  lemma HandsOff(s: State, d: int, messageId: string)
    requires d in s.tasks && s.tasks[d] == Unconsumed(messageId, 5, 2)
    requires !KnownMessage(s.rows, messageId) && !SlotTaken(s.rows, 5, 2)
    ensures Apply(ONE_TURN, s, File(d, [7])).rows == s.rows + [HandoffRow(messageId)]
  {
    assert Contested([7]) == [SubItem(7, None)];
  }

  // Two replies to the last token that both pass the check before either files hand the item
  // off twice: the flip to handed_off leaves the unique index open.
  lemma InterleavedFilingsHandOffTwice()
    ensures Run(ONE_TURN, Start(), TwoHandoffs()).rows == [FiledRow(Judged(), Received), HandoffRow("b"), HandoffRow("c")]
  {
    var c := ONE_TURN;
    var m3 := map[][3 := Unconsumed("b", 5, 2)];
    var t := FilingSteps() + JudgingSteps();
    JudgedRun();
    assert JudgedWith(map[]) == JudgedState();
    BothFile();
    hide Apply, Run, JudgedWith, JudgedState, FilingSteps, JudgingSteps, SecondDelivery;
    DeliveryChecks(map[], 3, "b");
    RunConcat(c, Start(), t, SecondDelivery(3, "b"));
    DeliveryChecks(m3, 4, "c");
    RunConcat(c, Start(), t + SecondDelivery(3, "b"), SecondDelivery(4, "c"));
    var t4 := t + SecondDelivery(3, "b") + SecondDelivery(4, "c");
    RunSnoc(c, Start(), t4, File(3, [7]));
    RunSnoc(c, Start(), t4 + [File(3, [7])], File(4, [7]));
  }

  // ---- a result that can never be delivered ----

  // Resolved with a problem nobody judged, and no handler left that built its email before.
  ghost predicate Wedged(s: State, k: nat) {
    && Undelivered(s, k) && !AllVerdicted(s.rows[k].subs)
    && forall d :: d in s.tasks && (s.tasks[d].Sending? || s.tasks[d].Resending? || s.tasks[d].Marking?) ==> s.tasks[d].request != k
  }

  lemma WedgedTask(c: Config, s: State, d: int, t: Task, step: Step, k: nat)
    requires Wedged(s, k) && d in s.tasks && s.tasks[d] == t && ByTask(step)
    ensures Wedged(TaskStep(c, s, d, t, step), k)
  {
    if ReadsOnly(step) {
      AdvanceListsNothing(c, s, t, step);
      hide Advance, AllVerdicted;
    } else {
      hide UniqueViolation, Distinct, Contested, AllVerdicted, AllUpheld;
    }
  }

  lemma WedgedOther(c: Config, s: State, step: Step, k: nat)
    requires Wedged(s, k) && !ByTask(step)
    ensures Wedged(Apply(c, s, step), k)
  {
    hide HasProblem;
    assert step.AddProblem? && step.request == k && Apply(c, s, step) != s ==>
      Apply(c, s, step).rows[k].subs[..|s.rows[k].subs|] == s.rows[k].subs;
  }

  // Verdicts of a resolved request can no longer be set, and without them its email is never built.
  lemma {:induction false} WedgedForever(c: Config, s: State, k: nat, steps: seq<Step>)
    requires Wedged(s, k)
    ensures Wedged(Run(c, s, steps), k)
  {
    hide Apply, Wedged;
    if steps != [] {
      var s' := Run(c, s, steps[..|steps| - 1]);
      var step := steps[|steps| - 1];
      WedgedForever(c, s, k, steps[..|steps| - 1]);
      if !ByTask(step) {
        WedgedOther(c, s', step, k);
      } else {
        WedgedBy(c, s', step, k);
      }
    }
  }

  lemma WedgedBy(c: Config, s: State, step: Step, k: nat)
    requires Wedged(s, k) && ByTask(step)
    ensures Wedged(Apply(c, s, step), k)
  {
    hide Wedged, TaskStep;
    if step.task in s.tasks {
      WedgedTask(c, s, step.task, s.tasks[step.task], step, k);
    }
  }

  function LateAdd(): seq<Step> {
    FilingSteps() + JudgingSteps() + [AddProblem(0, 8)] + [Flip(2)] + [Send(2, false)]
  }

  function WithLate(): seq<SubItem> {
    [SubItem(7, Some(Upheld)), SubItem(8, None)]
  }

  function LateState(status: Status, task: Task): State {
    State(map[5 := Item(1, false)], {(5, 1), (5, 2)}, [FiledRow(WithLate(), status)], [], map[1 := Confirming(0), 2 := task])
  }

  lemma LateAddApplies()
    ensures Apply(ONE_TURN, JudgedState(), AddProblem(0, 8)) == LateState(Received, Flipping(0, Judged()))
    ensures Apply(ONE_TURN, LateState(Received, Flipping(0, Judged())), Flip(2)) == LateState(ResolvedUpheld, Sending(0, Judged()))
  {
    assert Judged() + [SubItem(8, None)] == WithLate();
    assert [FiledRow(Judged(), Received)][0 := FiledRow(WithLate(), Received)] == [FiledRow(WithLate(), Received)];
    assert [FiledRow(WithLate(), Received)][0 := FiledRow(WithLate(), ResolvedUpheld)] == [FiledRow(WithLate(), ResolvedUpheld)];
  }

  lemma FailedSendWedges()
    ensures Wedged(Apply(ONE_TURN, LateState(ResolvedUpheld, Sending(0, Judged())), Send(2, false)), 0)
  {
    var s := LateState(ResolvedUpheld, Sending(0, Judged()));
    var s' := Apply(ONE_TURN, s, Send(2, false));
    assert s'.rows == s.rows && s'.tasks == map[1 := Confirming(0)];
    assert WithLate()[1].verdict == None;
  }

  // A problem added after the gate was read, and a failed send: the result is never delivered,
  // whatever happens afterwards.
  lemma LateAddWedges(steps: seq<Step>)
    ensures Wedged(Run(ONE_TURN, Start(), LateAdd() + steps), 0)
  {
    var c := ONE_TURN;
    var t := FilingSteps() + JudgingSteps();
    JudgedRun();
    LateAddApplies();
    FailedSendWedges();
    hide Apply, Run, JudgedState, LateState, FilingSteps, JudgingSteps, Wedged;
    RunSnoc(c, Start(), t, AddProblem(0, 8));
    RunSnoc(c, Start(), t + [AddProblem(0, 8)], Flip(2));
    RunSnoc(c, Start(), t + [AddProblem(0, 8)] + [Flip(2)], Send(2, false));
    RunConcat(c, Start(), LateAdd(), steps);
    WedgedForever(c, Run(c, Start(), LateAdd()), 0, steps);
  }
}
