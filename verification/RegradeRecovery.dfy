/** Replayed deliveries, handoffs, and results that were resolved but never delivered. */
module RegradeRecovery {
  import opened Wrappers
  import opened Seqs
  import opened RegradeChain
  import opened RegradeSlots
  import opened RegradeOnce

  // ---- replayed deliveries ----

  // A delivery that has not filed: whatever it does next is under its own message id.
  predicate DeliveryOf(t: Task, messageId: string) {
    || ((HasTurn(t) || t.Rebound?) && t.messageId == messageId)
    || (t.Recording? && t.entry.messageId == messageId)
  }

  ghost predicate SameTrace(s: State, s': State) {
    s'.rows == s.rows && s'.mails == s.mails && s'.minted == s.minted && s'.items == s.items
  }

  lemma AdvanceSameMessage(c: Config, s: State, t: Task, step: Step, messageId: string)
    requires DeliveryOf(t, messageId)
    ensures DeliveryOf(Advance(c, s, t, step), messageId)
  {
    hide Consumed, NextOpenTurn, Capped, IsLiveFor;
  }

  // Once a message is on record, a delivery carrying it changes no row and sends no email,
  // whatever else runs in between.
  lemma ReplayIsInert(c: Config, s: State, step: Step, messageId: string)
    requires KnownMessage(s.rows, messageId) && ByTask(step)
    requires step.task in s.tasks && DeliveryOf(s.tasks[step.task], messageId)
    ensures var s' := Apply(c, s, step);
            SameTrace(s, s') && (step.task in s'.tasks ==> DeliveryOf(s'.tasks[step.task], messageId))
  {
    AdvanceSameMessage(c, s, s.tasks[step.task], step, messageId);
    hide Advance, Distinct, Contested, SlotTaken;
  }

  // And a message stays on record.
  lemma KnownStays(rows: seq<Request>, rows': seq<Request>, messageId: string)
    requires Keeps(rows, rows') && KnownMessage(rows, messageId)
    ensures KnownMessage(rows', messageId)
  {
    var k :| 0 <= k < |rows| && rows[k].messageId == messageId;
    assert rows'[k].messageId == messageId;
  }

  predicate StepsOf(steps: seq<Step>, d: int) {
    forall k :: 0 <= k < |steps| ==> ByTask(steps[k]) && steps[k].task == d
  }

  // A whole replay, from its arrival on: rows and emails end as they began.
  lemma {:induction false} ReplayLeavesNothing(c: Config, s: State, d: int, messageId: string, token: Option<(int, int)>, steps: seq<Step>)
    requires KnownMessage(s.rows, messageId) && d !in s.tasks && StepsOf(steps, d)
    ensures var s' := Run(c, Apply(c, s, Deliver(d, messageId, token)), steps);
            SameTrace(s, s') && (d in s'.tasks ==> DeliveryOf(s'.tasks[d], messageId))
  {
    if steps != [] {
      var before := steps[..|steps| - 1];
      ReplayLeavesNothing(c, s, d, messageId, token, before);
      var s' := Run(c, Apply(c, s, Deliver(d, messageId, token)), before);
      var step := steps[|steps| - 1];
      assert ByTask(step) && step.task == d;
      hide Apply, KnownMessage;
      if d in s'.tasks {
        ReplayIsInert(c, s', step, messageId);
      } else {
        GoneTask(c, s', step);
      }
    }
  }

  lemma GoneTask(c: Config, s: State, step: Step)
    requires ByTask(step) && step.task !in s.tasks
    ensures Apply(c, s, step) == s
  {
  }

  // ---- handoffs ----

  // Every filing comes right after its own consumed-token check.
  ghost predicate CheckedThenFiled(c: Config, steps: seq<Step>) {
    forall i :: 0 <= i < |steps| && steps[i].File? ==>
      0 < i && steps[i - 1] == Check(steps[i].task)
      && var before := Run(c, Start(), steps[..i - 1]);
         steps[i].task in before.tasks && before.tasks[steps[i].task].Admitted?
  }

  ghost predicate HandedOffOnce(rows: seq<Request>) {
    forall i, j :: 0 <= i < j < |rows| && rows[i].kind == HandedOff && rows[j].kind == HandedOff ==> rows[i].item != rows[j].item
  }

  lemma EvolveHandedOff(s: State, s': State)
    requires HandedOffOnce(s.rows) && Evolves(s, s')
    requires |s'.rows| == |s.rows| + 1 && s'.rows[|s.rows|].kind == HandedOff ==> !HandedOffItem(s.rows, s'.rows[|s.rows|].item)
    ensures HandedOffOnce(s'.rows)
  {
    hide FreshRow;
    forall i, j | 0 <= i < j < |s'.rows| && s'.rows[i].kind == HandedOff && s'.rows[j].kind == HandedOff
      ensures s'.rows[i].item != s'.rows[j].item
    {
      assert RowEvolves(s.rows[i], s'.rows[i]);
      if j < |s.rows| {
        assert RowEvolves(s.rows[j], s'.rows[j]);
      } else {
        assert s.rows[i].kind == HandedOff;
      }
    }
  }

  // Only a filing adds a handoff, and only for the turn it was bound to.
  lemma HandoffByFiling(c: Config, s: State, step: Step)
    requires Chained(c, s)
    requires var s' := Apply(c, s, step); |s'.rows| == |s.rows| + 1 && s'.rows[|s.rows|].kind == HandedOff
    ensures step.File? && step.task in s.tasks && s.tasks[step.task].Unconsumed?
    ensures Apply(c, s, step).rows[|s.rows|].item == s.tasks[step.task].item && s.tasks[step.task].turn == c.maxTurns + 1
  {
    assert ByTask(step) && step.task in s.tasks;
    assert TaskOk(c, s.rows, s.tasks[step.task]);
    hide Chained, UniqueViolation, Distinct, Contested, Advance, Consumed;
  }

  lemma CheckedIsUnconsumed(c: Config, s: State, d: int)
    requires d in s.tasks && s.tasks[d].Admitted?
    ensures var s' := Apply(c, s, Check(d));
            && s'.rows == s.rows && d in s'.tasks
            && (s'.tasks[d].Unconsumed? ==> !Consumed(s.rows, s'.tasks[d].item, s'.tasks[d].turn))
  {
    hide Consumed;
  }

  // A filing past the budget, let in by the unique indexes, of a slot already consumed.
  ghost predicate HandsOffAgain(c: Config, s: State, step: Step) {
    && step.File? && step.task in s.tasks && s.tasks[step.task].Unconsumed?
    && var t := s.tasks[step.task];
       && t.turn > c.maxTurns && step.blocks != [] && Distinct(step.blocks)
       && !UniqueViolation(s.rows, Filing(t, step.blocks)) && Consumed(s.rows, t.item, t.turn)
  }

  ghost predicate NeverAgain(c: Config, steps: seq<Step>) {
    forall i :: 0 <= i < |steps| ==> !HandsOffAgain(c, Run(c, Start(), steps[..i]), steps[i])
  }

  lemma AgainSnoc(c: Config, steps: seq<Step>)
    requires steps != []
    ensures var n := |steps| - 1;
            NeverAgain(c, steps) <==> NeverAgain(c, steps[..n]) && !HandsOffAgain(c, Run(c, Start(), steps[..n]), steps[n])
  {
    hide Run, HandsOffAgain;
    EveryStepSnoc(steps, (before: seq<Step>, step: Step) => !HandsOffAgain(c, Run(c, Start(), before), step));
  }

  // Such a filing adds a second handoff of its item.
  lemma SecondHandoff(c: Config, s: State, step: Step)
    requires ValidConfig(c) && Once(c, s) && HandsOffAgain(c, s, step)
    ensures !HandedOffOnce(Apply(c, s, step).rows)
  {
    var t := s.tasks[step.task];
    var s' := Apply(c, s, step);
    assert s'.rows == s.rows + [Filing(t, step.blocks).(kind := HandedOff)];
    var k :| 0 <= k < |s.rows| && Consumes(s.rows[k]) && s.rows[k].item == t.item && s.rows[k].turn == t.turn;
    SlotsOf(c, s);
    hide Apply, Once, Slots, UniqueViolation, Distinct, Contested, Consumed;
    FiledInBudget(c, s);
    assert s.rows[k].kind == HandedOff;
    assert s'.rows[k].kind == HandedOff && s'.rows[|s.rows|].kind == HandedOff && s'.rows[k].item == s'.rows[|s.rows|].item;
  }

  // Any other step adds none to an item that has one.
  lemma NoSecondHandoff(c: Config, s: State, step: Step)
    requires Once(c, s) && !HandsOffAgain(c, s, step)
    requires var s' := Apply(c, s, step); |s'.rows| == |s.rows| + 1 && s'.rows[|s.rows|].kind == HandedOff
    ensures !HandedOffItem(s.rows, Apply(c, s, step).rows[|s.rows|].item)
  {
    HandoffByFiling(c, s, step);
    FiledAsHandoff(c, s, step);
    SlotsOf(c, s);
    hide Apply, Once, Chained, HandedOffItem, Consumed, UniqueViolation, Distinct;
    if HandedOffItem(s.rows, s.tasks[step.task].item) {
      HandedOffIsLast(c, s, s.tasks[step.task].item);
    }
  }

  lemma FiledAsHandoff(c: Config, s: State, step: Step)
    requires step.File? && step.task in s.tasks && s.tasks[step.task].Unconsumed? && |Apply(c, s, step).rows| == |s.rows| + 1
    ensures step.blocks != [] && Distinct(step.blocks) && !UniqueViolation(s.rows, Filing(s.tasks[step.task], step.blocks))
  {
    hide UniqueViolation, Distinct, Contested;
  }

  // A second handoff stays on record.
  lemma TwiceStays(s: State, s': State)
    requires Evolves(s, s') && !HandedOffOnce(s.rows)
    ensures !HandedOffOnce(s'.rows)
  {
    hide FreshRow;
    var i, j :| 0 <= i < j < |s.rows| && s.rows[i].kind == HandedOff && s.rows[j].kind == HandedOff && s.rows[i].item == s.rows[j].item;
    assert RowEvolves(s.rows[i], s'.rows[i]) && RowEvolves(s.rows[j], s'.rows[j]);
  }

  // Over every run each item is handed off at most once exactly when no filing past the budget
  // takes a slot that is already consumed.
  lemma {:induction false} OneHandoffIff(c: Config, steps: seq<Step>)
    requires ValidConfig(c)
    ensures HandedOffOnce(Run(c, Start(), steps).rows) <==> NeverAgain(c, steps)
  {
    hide Apply, Once, Evolves, HandsOffAgain, HandedOffItem, HandedOffOnce, NeverAgain;
    if steps != [] {
      var n := |steps| - 1;
      var s, s' := Run(c, Start(), steps[..n]), Run(c, Start(), steps);
      AgainSnoc(c, steps);
      OneHandoffIff(c, steps[..n]);
      OnceRun(c, steps[..n]);
      EvolvesOnce(c, s, steps[n]);
      assert s' == Apply(c, s, steps[n]);
      hide Run;
      if !HandedOffOnce(s.rows) {
        TwiceStays(s, s');
      } else if HandsOffAgain(c, s, steps[n]) {
        SecondHandoff(c, s, steps[n]);
      } else {
        if |s'.rows| == |s.rows| + 1 && s'.rows[|s.rows|].kind == HandedOff {
          NoSecondHandoff(c, s, steps[n]);
        }
        EvolveHandedOff(s, s');
      }
    } else {
      NoRowsYet();
      NeverYet(c);
    }
  }

  lemma NeverYet(c: Config)
    ensures NeverAgain(c, [])
  {
  }

  // A filing right after its own check takes a slot that was free.
  lemma CheckedIsFirst(c: Config, s0: State, step: Step)
    requires step.File? && step.task in s0.tasks && s0.tasks[step.task].Admitted?
    ensures !HandsOffAgain(c, Apply(c, s0, Check(step.task)), step)
  {
    CheckedIsUnconsumed(c, s0, step.task);
    hide Apply, Consumed, UniqueViolation, Distinct;
  }

  // A handoff filed right after its check is the first of its item.
  lemma FirstHandoff(c: Config, s0: State, s: State, step: Step)
    requires step.File? && step.task in s0.tasks && s0.tasks[step.task].Admitted? && s == Apply(c, s0, Check(step.task))
    requires Once(c, s)
    requires var s' := Apply(c, s, step); |s'.rows| == |s.rows| + 1 && s'.rows[|s.rows|].kind == HandedOff
    ensures !HandedOffItem(s.rows, Apply(c, s, step).rows[|s.rows|].item)
  {
    CheckedIsFirst(c, s0, step);
    hide Apply, Once, HandsOffAgain, HandedOffItem;
    NoSecondHandoff(c, s, step);
  }

  // In particular when every filing comes right after its own consumed-token check.
  lemma OneHandoff(c: Config, steps: seq<Step>)
    requires ValidConfig(c) && CheckedThenFiled(c, steps)
    ensures HandedOffOnce(Run(c, Start(), steps).rows)
  {
    forall i | 0 <= i < |steps|
      ensures !HandsOffAgain(c, Run(c, Start(), steps[..i]), steps[i])
    {
      hide Apply, HandsOffAgain;
      if steps[i].File? {
        assert steps[..i][..i - 1] == steps[..i - 1];
        assert Run(c, Start(), steps[..i]) == Apply(c, Run(c, Start(), steps[..i - 1]), steps[i - 1]);
        CheckedIsFirst(c, Run(c, Start(), steps[..i - 1]), steps[i]);
      } else if HandsOffAgain(c, Run(c, Start(), steps[..i]), steps[i]) {
        OnlyFilings(c, Run(c, Start(), steps[..i]), steps[i]);
      }
    }
    hide HandedOffOnce, HandsOffAgain, Run;
    OneHandoffIff(c, steps);
  }

  lemma OnlyFilings(c: Config, s: State, step: Step)
    requires HandsOffAgain(c, s, step)
    ensures step.File?
  {
  }

  lemma NoRowsYet()
    ensures HandedOffOnce(Start().rows)
  {
  }

  lemma EvolvesOnce(c: Config, s: State, step: Step)
    requires ValidConfig(c) && Once(c, s)
    ensures Evolves(s, Apply(c, s, step))
  {
    hide Apply, Evolves, Once;
    OnceStep(c, s, step);
  }

  lemma SlotsOf(c: Config, s: State)
    requires Once(c, s)
    ensures Slots(c, s)
  {
  }

  lemma RunSnoc(c: Config, s: State, steps: seq<Step>, step: Step)
    ensures Run(c, s, steps + [step]) == Apply(c, Run(c, s, steps), step)
  {
    assert (steps + [step])[..|steps|] == steps;
  }

  // One more step of a run.
  lemma Then(c: Config, s: State, steps: seq<Step>, step: Step, before: State, after: State)
    requires Run(c, s, steps) == before && Apply(c, before, step) == after
    ensures Run(c, s, steps + [step]) == after
  {
    hide Apply;
    RunSnoc(c, s, steps, step);
  }

  lemma {:induction false} RunConcat(c: Config, s: State, xs: seq<Step>, ys: seq<Step>)
    ensures Run(c, s, xs + ys) == Run(c, Run(c, s, xs), ys)
  {
    hide Apply;
    if ys == [] {
      assert xs + ys == xs;
    } else {
      var n := |ys| - 1;
      RunConcat(c, s, xs, ys[..n]);
      assert (xs + ys)[..|xs| + n] == xs + ys[..n];
    }
  }

  // ---- results resolved but not delivered ----

  function ResendSteps(d: int, k: nat): seq<Step> {
    [StartResend(d, k), Build(d), Resend(d, true), Mark(d)]
  }

  ghost predicate Undelivered(s: State, k: nat) {
    k < |s.rows| && s.rows[k].kind == Filed && IsResolved(s.rows[k].status) && !s.rows[k].sentAt
  }

  lemma RunNothing(c: Config, s: State)
    ensures Run(c, s, []) == s
  {
  }

  lemma RunFour(c: Config, s: State, a: Step, b: Step, x: Step, y: Step)
    ensures Run(c, s, [a, b, x, y]) == Apply(c, Apply(c, Apply(c, Apply(c, s, a), b), x), y)
  {
    RunNothing(c, s);
    hide Apply, Run;
    RunSnoc(c, s, [], a);
    RunSnoc(c, s, [a], b);
    RunSnoc(c, s, [a, b], x);
    RunSnoc(c, s, [a, b, x], y);
    assert [] + [a] == [a] && [a] + [b] == [a, b] && [a, b] + [x] == [a, b, x] && [a, b, x] + [y] == [a, b, x, y];
  }

  lemma ResendBuilds(c: Config, s: State, k: nat, d: int)
    requires Undelivered(s, k) && d !in s.tasks
    ensures var s2 := Apply(c, Apply(c, s, StartResend(d, k)), Build(d));
            && s2.rows == s.rows && s2.mails == s.mails
            && (if AllVerdicted(s.rows[k].subs) then d in s2.tasks && s2.tasks[d] == Resending(k, s.rows[k].subs)
                else d !in s2.tasks)
  {
    var s1 := Apply(c, s, StartResend(d, k));
    assert s1 == Put(s, d, Rebuilding(k));
    hide AllVerdicted;
  }

  lemma ResendDelivers(c: Config, s: State, k: nat, d: int, listed: seq<SubItem>)
    requires k < |s.rows| && d in s.tasks && s.tasks[d] == Resending(k, listed)
    ensures var s' := Apply(c, Apply(c, s, Resend(d, true)), Mark(d));
            && s'.rows == s.rows[k := s.rows[k].(sentAt := true)] && d !in s'.tasks
            && s'.mails == if c.wired then s.mails + [Result(k, listed, false, true)] else s.mails
  {
    var s3 := Apply(c, s, Resend(d, true));
    assert d in s3.tasks && s3.tasks[d] == Marking(k) && s3.rows == s.rows;
  }

  // Resending a resolved, undelivered result on its own succeeds exactly when every problem of
  // the request has a verdict.
  lemma ResendWorksIff(c: Config, s: State, k: nat, d: int)
    requires Undelivered(s, k) && d !in s.tasks
    ensures var s' := Run(c, s, ResendSteps(d, k));
            && |s'.rows| == |s.rows| && d !in s'.tasks
            && (s'.rows[k].sentAt <==> AllVerdicted(s.rows[k].subs))
            && (s'.rows[k].sentAt && c.wired ==> s'.mails == s.mails + [Result(k, s.rows[k].subs, false, true)])
  {
    RunFour(c, s, StartResend(d, k), Build(d), Resend(d, true), Mark(d));
    ResendBuilds(c, s, k, d);
    hide AllVerdicted, Apply, Run;
    var s2 := Apply(c, Apply(c, s, StartResend(d, k)), Build(d));
    if d in s2.tasks {
      ResendDelivers(c, s2, k, d, s.rows[k].subs);
    } else {
      GoneTask(c, s2, Resend(d, true));
      GoneTask(c, s2, Mark(d));
    }
  }

  // The gate of send-result lets a request through.
  predicate GateOpens(s: State, step: Step, k: nat) {
    && step.Gate? && step.task in s.tasks && s.tasks[step.task] == Gating(k)
    && k < |s.rows| && s.rows[k].subs != [] && AllVerdicted(s.rows[k].subs)
  }

  ghost predicate GatePassed(c: Config, steps: seq<Step>, k: nat) {
    exists i :: 0 <= i < |steps| && GateOpens(Run(c, Start(), steps[..i]), steps[i], k)
  }

  // No problem is added to this request after the gate was read for it.
  ghost predicate NoLateAdds(c: Config, steps: seq<Step>, k: nat) {
    forall i :: 0 <= i < |steps| && steps[i].AddProblem? && steps[i].request == k ==> !GatePassed(c, steps[..i], k)
  }

  predicate PastGate(t: Task) {
    t.Building? || t.Flipping? || t.Sending?
  }

  // Once past the gate the request has all its verdicts, and it does not resolve without passing it.
  ghost predicate GateHolds(s: State, k: nat, passed: bool) {
    && (passed ==> k < |s.rows| && AllVerdicted(s.rows[k].subs))
    && (k < |s.rows| && s.rows[k].kind == Filed && IsResolved(s.rows[k].status) ==> passed)
    && forall d :: d in s.tasks && PastGate(s.tasks[d]) && s.tasks[d].request == k ==> passed
  }

  lemma PassedSnoc(c: Config, steps: seq<Step>, k: nat)
    requires steps != []
    ensures var n := |steps| - 1;
            GatePassed(c, steps, k) <==> GatePassed(c, steps[..n], k) || GateOpens(Run(c, Start(), steps[..n]), steps[n], k)
  {
    hide Run, GateOpens;
    EveryStepSnoc(steps, (before: seq<Step>, step: Step) => !GateOpens(Run(c, Start(), before), step, k));
  }

  // What a step does to the verdicts of a request it does not add a problem to.
  lemma VerdictsKept(c: Config, s: State, step: Step, k: nat)
    requires Once(c, s) && ValidConfig(c) && k < |s.rows| && AllVerdicted(s.rows[k].subs)
    requires step.AddProblem? ==> step.request != k
    ensures k < |Apply(c, s, step).rows| && AllVerdicted(Apply(c, s, step).rows[k].subs)
  {
    EvolvesOnce(c, s, step);
    assert RowEvolves(s.rows[k], Apply(c, s, step).rows[k]);
    assert |Apply(c, s, step).rows[k].subs| == |s.rows[k].subs| by { SubsAddedByAdd(c, s, step, k); }
  }

  lemma SubsAddedByAdd(c: Config, s: State, step: Step, k: nat)
    requires k < |s.rows| && (step.AddProblem? ==> step.request != k)
    requires k < |Apply(c, s, step).rows|
    ensures |Apply(c, s, step).rows[k].subs| == |s.rows[k].subs|
  {
    hide HasProblem, UniqueViolation, Distinct, Contested, Advance, AllVerdicted, AllUpheld, IsOpen, IsResolved;
  }

  // A filed request resolves only by its flip, and a handler gets past the gate only through it.
  lemma ResolvedPastGate(c: Config, s: State, step: Step, k: nat)
    requires Once(c, s) && k < |s.rows| && s.rows[k].kind == Filed && !IsResolved(s.rows[k].status)
    requires k < |Apply(c, s, step).rows| && IsResolved(Apply(c, s, step).rows[k].status)
    ensures ByTask(step) && step.task in s.tasks && s.tasks[step.task].Flipping? && s.tasks[step.task].request == k
  {
    hide HasProblem, UniqueViolation, Distinct, Contested, Advance, AllVerdicted, AllUpheld, Once;
  }

  lemma PastGateBy(c: Config, s: State, step: Step, d: int)
    requires d in Apply(c, s, step).tasks && PastGate(Apply(c, s, step).tasks[d])
    ensures (d in s.tasks && PastGate(s.tasks[d]) && s.tasks[d].request == Apply(c, s, step).tasks[d].request)
         || GateOpens(s, step, Apply(c, s, step).tasks[d].request)
  {
    if !ByTask(step) {
      hide HasProblem, IsOpen, IsResolved, GateOpens;
    } else if step.task in s.tasks {
      hide PastGate, GateOpens, TaskStep;
      TaskPastGate(c, s, step.task, s.tasks[step.task], step, d);
    }
  }

  lemma TaskPastGate(c: Config, s: State, e: int, t: Task, step: Step, d: int)
    requires ByTask(step) && step.task == e && e in s.tasks && s.tasks[e] == t
    requires d in TaskStep(c, s, e, t, step).tasks && PastGate(TaskStep(c, s, e, t, step).tasks[d])
    ensures (d in s.tasks && PastGate(s.tasks[d]) && s.tasks[d].request == TaskStep(c, s, e, t, step).tasks[d].request)
         || GateOpens(s, step, TaskStep(c, s, e, t, step).tasks[d].request)
  {
    AdvanceBeforeGate(c, s, t, step);
    hide UniqueViolation, Distinct, Contested, Advance, AllVerdicted, AllUpheld, IsOpen;
  }

  lemma AdvanceBeforeGate(c: Config, s: State, t: Task, step: Step)
    ensures Advance(c, s, t, step) == t || !PastGate(Advance(c, s, t, step))
  {
    hide Consumed, NextOpenTurn, Capped, IsLiveFor;
  }

  lemma GateHoldsStep(c: Config, s: State, step: Step, k: nat, passed: bool)
    requires ValidConfig(c) && Once(c, s) && GateHolds(s, k, passed)
    requires step.AddProblem? && step.request == k ==> !passed
    ensures GateHolds(Apply(c, s, step), k, passed || GateOpens(s, step, k))
  {
    var s' := Apply(c, s, step);
    hide Apply, Once, AllVerdicted;
    GateOpenIsVerdicted(s, step, k);
    if passed || GateOpens(s, step, k) {
      VerdictsKept(c, s, step, k);
    }
    if k < |s'.rows| && s'.rows[k].kind == Filed && IsResolved(s'.rows[k].status) {
      NewlyResolved(c, s, step, k);
    }
    forall d | d in s'.tasks && PastGate(s'.tasks[d]) && s'.tasks[d].request == k
      ensures passed || GateOpens(s, step, k)
    {
      PastGateBy(c, s, step, d);
    }
  }

  lemma GateOpenIsVerdicted(s: State, step: Step, k: nat)
    ensures GateOpens(s, step, k) ==> k < |s.rows| && AllVerdicted(s.rows[k].subs)
  {
  }

  lemma NewlyResolved(c: Config, s: State, step: Step, k: nat)
    requires ValidConfig(c) && Once(c, s) && k < |Apply(c, s, step).rows|
    requires Apply(c, s, step).rows[k].kind == Filed && IsResolved(Apply(c, s, step).rows[k].status)
    ensures (k < |s.rows| && s.rows[k].kind == Filed && IsResolved(s.rows[k].status))
         || (ByTask(step) && step.task in s.tasks && PastGate(s.tasks[step.task]) && s.tasks[step.task].request == k)
  {
    EvolvesOnce(c, s, step);
    if k < |s.rows| {
      assert RowEvolves(s.rows[k], Apply(c, s, step).rows[k]);
      hide Apply, Evolves, Once;
      if !IsResolved(s.rows[k].status) {
        ResolvedPastGate(c, s, step, k);
      }
    } else {
      FreshIsOpen(c, s, step, k);
    }
  }

  lemma FreshIsOpen(c: Config, s: State, step: Step, k: nat)
    requires Once(c, s) && |s.rows| <= k < |Apply(c, s, step).rows|
    ensures !(Apply(c, s, step).rows[k].kind == Filed && IsResolved(Apply(c, s, step).rows[k].status))
  {
    assert ByTask(step) && step.task in s.tasks;
    assert TaskOk(c, s.rows, s.tasks[step.task]);
    hide Once, UniqueViolation, Distinct, Contested, Advance, TurnOk;
  }

  lemma {:induction false} GateHoldsRun(c: Config, steps: seq<Step>, k: nat)
    requires ValidConfig(c) && NoLateAdds(c, steps, k)
    ensures GateHolds(Run(c, Start(), steps), k, GatePassed(c, steps, k))
  {
    hide Apply, Once, GateHolds, GateOpens;
    if steps != [] {
      var n := |steps| - 1;
      NoLateAddsPrefix(c, steps, k);
      GateHoldsRun(c, steps[..n], k);
      OnceRun(c, steps[..n]);
      PassedSnoc(c, steps, k);
      hide GatePassed;
      GateHoldsStep(c, Run(c, Start(), steps[..n]), steps[n], k, GatePassed(c, steps[..n], k));
    } else {
      StartGateHolds(k);
    }
  }

  lemma StartGateHolds(k: nat)
    ensures GateHolds(Start(), k, false)
  {
  }

  lemma NoLateAddsPrefix(c: Config, steps: seq<Step>, k: nat)
    requires NoLateAdds(c, steps, k) && steps != []
    ensures var n := |steps| - 1;
            NoLateAdds(c, steps[..n], k) && (steps[n].AddProblem? && steps[n].request == k ==> !GatePassed(c, steps[..n], k))
  {
    hide GatePassed;
    EveryStepSnoc(steps, (before: seq<Step>, step: Step) => step.AddProblem? && step.request == k ==> !GatePassed(c, before, k));
  }

  // A resolved but undelivered result can always be resent, provided no problem is added to its
  // request after the gate was read for it.
  lemma UndeliveredIsRecoverable(c: Config, steps: seq<Step>, k: nat, d: int)
    requires ValidConfig(c) && NoLateAdds(c, steps, k)
    requires var s := Run(c, Start(), steps); Undelivered(s, k) && d !in s.tasks
    ensures var s := Run(c, Start(), steps);
            var s' := Run(c, s, ResendSteps(d, k));
            && |s'.rows| == |s.rows| && s'.rows[k].sentAt
            && (c.wired ==> s'.mails == s.mails + [Result(k, s.rows[k].subs, false, true)])
  {
    var s := Run(c, Start(), steps);
    GateHoldsRun(c, steps, k);
    assert AllVerdicted(s.rows[k].subs);
    hide *;
    ResendWorksIff(c, s, k, d);
  }

  // ---- exactly when it is recoverable ----

  // A resolved request has all its verdicts.
  predicate Backed(s: State, k: nat) {
    k < |s.rows| && s.rows[k].kind == Filed && IsResolved(s.rows[k].status) ==> AllVerdicted(s.rows[k].subs)
  }

  // The request is resolved while a problem has no verdict, or gets a new problem once resolved.
  predicate Spoils(s: State, step: Step, k: nat) {
    && k < |s.rows| && s.rows[k].kind == Filed
    && var r := s.rows[k];
       || (step.Flip? && step.task in s.tasks && s.tasks[step.task].Flipping? && s.tasks[step.task].request == k
           && IsOpen(r.status) && !AllVerdicted(r.subs))
       || (step.AddProblem? && step.request == k && IsResolved(r.status) && !HasProblem(r.subs, step.problem))
  }

  // No handler in flight changes the problems of a resolved request, or of one it resolves.
  lemma TaskKeepsSubs(c: Config, s: State, d: int, t: Task, step: Step, k: nat)
    requires d in s.tasks && s.tasks[d] == t && ByTask(step) && step.task == d && k < |s.rows|
    ensures var s' := TaskStep(c, s, d, t, step);
            && k < |s'.rows| && s'.rows[k].subs == s.rows[k].subs && s'.rows[k].kind == s.rows[k].kind
            && (IsResolved(s'.rows[k].status) && !IsResolved(s.rows[k].status)
                <==> step.Flip? && t.Flipping? && t.request == k && IsOpen(s.rows[k].status))
            && (IsResolved(s.rows[k].status) ==> s'.rows[k].status == s.rows[k].status)
  {
    hide UniqueViolation, Distinct, Contested, Advance, AllVerdicted, AllUpheld;
  }

  // Of the other steps only a new problem changes them, and none resolves a filed request.
  lemma OthersKeepSubs(c: Config, s: State, step: Step, k: nat)
    requires !ByTask(step) && k < |s.rows| && s.rows[k].kind == Filed
    ensures var s' := Apply(c, s, step);
            && k < |s'.rows| && s'.rows[k].kind == Filed && s'.rows[k].status == s.rows[k].status
            && (IsResolved(s.rows[k].status) ==>
                  s'.rows[k].subs == if Spoils(s, step, k) then s.rows[k].subs + [SubItem(step.problem, None)] else s.rows[k].subs)
  {
    hide HasProblem, AllVerdicted;
  }

  lemma BackedStepIff(c: Config, s: State, step: Step, k: nat)
    requires ValidConfig(c) && Once(c, s)
    ensures Backed(Apply(c, s, step), k) <==> Backed(s, k) && !Spoils(s, step, k)
  {
    var s' := Apply(c, s, step);
    hide Apply, Once;
    if k >= |s.rows| {
      if k < |s'.rows| {
        FreshIsOpen(c, s, step, k);
      }
    } else if s.rows[k].kind != Filed {
      EvolvesOnce(c, s, step);
      assert RowEvolves(s.rows[k], s'.rows[k]);
    } else {
      BackedFiledIff(c, s, step, k);
    }
  }

  lemma BackedFiledIff(c: Config, s: State, step: Step, k: nat)
    requires k < |s.rows| && s.rows[k].kind == Filed
    ensures Backed(Apply(c, s, step), k) <==> Backed(s, k) && !Spoils(s, step, k)
  {
    if !ByTask(step) {
      OthersKeepSubs(c, s, step, k);
      hide Apply, HasProblem;
      if IsResolved(s.rows[k].status) && Spoils(s, step, k) {
        NewIsUnjudged(s.rows[k].subs, step.problem);
      }
      hide AllVerdicted;
    } else if step.task in s.tasks {
      TaskKeepsSubs(c, s, step.task, s.tasks[step.task], step, k);
      hide TaskStep, AllVerdicted, HasProblem;
    }
  }

  lemma NewIsUnjudged(subs: seq<SubItem>, problem: int)
    ensures !AllVerdicted(subs + [SubItem(problem, None)])
  {
    assert (subs + [SubItem(problem, None)])[|subs|].verdict == None;
  }

  ghost predicate NeverSpoiled(c: Config, steps: seq<Step>, k: nat) {
    forall i :: 0 <= i < |steps| ==> !Spoils(Run(c, Start(), steps[..i]), steps[i], k)
  }

  lemma {:induction false} BackedIff(c: Config, steps: seq<Step>, k: nat)
    requires ValidConfig(c)
    ensures Backed(Run(c, Start(), steps), k) <==> NeverSpoiled(c, steps, k)
  {
    if steps != [] {
      var n := |steps| - 1;
      hide Apply, Once, Backed, Spoils;
      BackedIff(c, steps[..n], k);
      OnceRun(c, steps[..n]);
      BackedStepIff(c, Run(c, Start(), steps[..n]), steps[n], k);
      EveryStepSnoc(steps, (before: seq<Step>, step: Step) => !Spoils(Run(c, Start(), before), step, k));
    }
  }

  // After any run, a resolved and undelivered result can be resent exactly when its problems all
  // had verdicts as it was resolved and no other problem was added from then on.
  lemma RecoverableIff(c: Config, steps: seq<Step>, k: nat, d: int)
    requires ValidConfig(c)
    requires var s := Run(c, Start(), steps); Undelivered(s, k) && d !in s.tasks
    ensures var s' := Run(c, Run(c, Start(), steps), ResendSteps(d, k));
            k < |s'.rows| && (s'.rows[k].sentAt <==> NeverSpoiled(c, steps, k))
  {
    var s := Run(c, Start(), steps);
    BackedIff(c, steps, k);
    hide Run, NeverSpoiled, AllVerdicted, ResendSteps;
    ResendWorksIff(c, s, k, d);
  }
}
