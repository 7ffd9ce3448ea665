/** Which turns of an item's chain are consumed, and which tokens may exist, over every run. */
module RegradeSlots {
  import opened Wrappers
  import opened RegradeChain

  // Rows are only appended to, and a row keeps its slot, its kind and its message.
  predicate Keeps(rows: seq<Request>, rows': seq<Request>) {
    && |rows| <= |rows'|
    && forall k :: 0 <= k < |rows| ==>
         && rows'[k].item == rows[k].item && rows'[k].turn == rows[k].turn
         && rows'[k].kind == rows[k].kind && rows'[k].messageId == rows[k].messageId
  }

  lemma KeepsConsumed(rows: seq<Request>, rows': seq<Request>, item: int, turn: int)
    requires Keeps(rows, rows') && Consumed(rows, item, turn)
    ensures Consumed(rows', item, turn)
  {
    var k :| 0 <= k < |rows| && Consumes(rows[k]) && rows[k].item == item && rows[k].turn == turn;
    assert Consumes(rows'[k]);
  }

  // A turn that may be consumed next or was: the one before it is consumed, and it is within the budget.
  predicate TurnOk(c: Config, rows: seq<Request>, item: int, turn: int) {
    1 <= turn <= c.maxTurns + 1 && (turn > 1 ==> Consumed(rows, item, turn - 1))
  }

  lemma KeepsTurnOk(c: Config, rows: seq<Request>, rows': seq<Request>)
    requires Keeps(rows, rows')
    ensures forall item, turn :: TurnOk(c, rows, item, turn) ==> TurnOk(c, rows', item, turn)
  {
    hide Consumed, Keeps;
    forall item, turn | TurnOk(c, rows, item, turn)
      ensures TurnOk(c, rows', item, turn)
    {
      if turn > 1 {
        KeepsConsumed(rows, rows', item, turn - 1);
      }
    }
  }

  predicate RowOk(c: Config, rows: seq<Request>, r: Request) {
    Consumes(r) ==>
      && TurnOk(c, rows, r.item, r.turn)
      && (r.kind == HandedOff <==> r.turn == c.maxTurns + 1)
  }

  predicate HasTurn(t: Task) {
    t.Arrived? || t.Stale? || t.Bound? || t.Admitted? || t.Unconsumed?
  }

  predicate TaskOk(c: Config, rows: seq<Request>, t: Task) {
    && (HasTurn(t) ==> TurnOk(c, rows, t.item, t.turn))
    && (t.Recording? ==> !Consumes(t.entry) && t.entry.subs == [] && !t.entry.sentAt)
  }

  ghost predicate Slots(c: Config, s: State) {
    && (forall k :: 0 <= k < |s.rows| ==> RowOk(c, s.rows, s.rows[k]))
    && (forall p :: p in s.minted ==> TurnOk(c, s.rows, p.0, p.1))
    && (forall d :: d in s.tasks ==> TaskOk(c, s.rows, s.tasks[d]))
  }

  // What a step may do to the chain: it keeps old rows, and whatever it adds is in order.
  ghost predicate Extends(c: Config, s: State, s': State) {
    && Keeps(s.rows, s'.rows)
    && (forall k :: |s.rows| <= k < |s'.rows| ==> RowOk(c, s'.rows, s'.rows[k]))
    && (forall p :: p in s'.minted && p !in s.minted ==> TurnOk(c, s'.rows, p.0, p.1))
    && (forall d :: d in s'.tasks ==> (d in s.tasks && s'.tasks[d] == s.tasks[d]) || TaskOk(c, s'.rows, s'.tasks[d]))
  }

  lemma ExtendsSlots(c: Config, s: State, s': State)
    requires Slots(c, s) && Extends(c, s, s')
    ensures Slots(c, s')
  {
    hide TurnOk, Consumed;
    KeepsTurnOk(c, s.rows, s'.rows);
    forall k | 0 <= k < |s'.rows|
      ensures RowOk(c, s'.rows, s'.rows[k])
    {
      if k < |s.rows| {
        assert RowOk(c, s.rows, s.rows[k]);
      }
    }
    forall d | d in s'.tasks
      ensures TaskOk(c, s'.rows, s'.tasks[d])
    {
      if d in s.tasks && s'.tasks[d] == s.tasks[d] {
        assert TaskOk(c, s.rows, s.tasks[d]);
      }
    }
  }

  // ---- the greatest consumed turn ----

  lemma {:induction false} TopTurnIsGreatest(rows: seq<Request>, item: int)
    ensures TopTurn(rows, item) >= 0
    ensures TopTurn(rows, item) > 0 ==> Consumed(rows, item, TopTurn(rows, item))
    ensures forall turn :: Consumed(rows, item, turn) ==> turn <= TopTurn(rows, item)
  {
    if rows != [] {
      var rest, last := rows[..|rows| - 1], rows[|rows| - 1];
      TopTurnIsGreatest(rest, item);
      assert rows == rest + [last];
      var top := TopTurn(rest, item);
      if top > 0 {
        KeepsConsumed(rest, rows, item, top);
      }
      forall turn | Consumed(rows, item, turn)
        ensures turn <= TopTurn(rows, item)
      {
        var k :| 0 <= k < |rows| && Consumes(rows[k]) && rows[k].item == item && rows[k].turn == turn;
        if k < |rest| {
          assert rest[k] == rows[k];
          assert Consumed(rest, item, turn);
        }
      }
    }
  }

  lemma ConsumedOk(c: Config, s: State, item: int, turn: int)
    requires Slots(c, s) && Consumed(s.rows, item, turn)
    ensures TurnOk(c, s.rows, item, turn)
  {
    hide TurnOk;
    var k :| 0 <= k < |s.rows| && Consumes(s.rows[k]) && s.rows[k].item == item && s.rows[k].turn == turn;
    assert RowOk(c, s.rows, s.rows[k]);
  }

  lemma {:induction false} ConsumedBelow(c: Config, s: State, item: int, turn: int, below: int)
    requires Slots(c, s) && Consumed(s.rows, item, turn) && 1 <= below <= turn
    ensures Consumed(s.rows, item, below)
    decreases turn - below
  {
    hide Consumed, Slots;
    ConsumedOk(c, s, item, turn);
    if below < turn {
      ConsumedBelow(c, s, item, turn - 1, below);
    }
  }

  lemma NextTurnOk(c: Config, s: State, item: int)
    requires Slots(c, s) && ValidConfig(c)
    ensures TurnOk(c, s.rows, item, Capped(c, NextOpenTurn(s.rows, item)))
  {
    hide Consumed, Slots, TopTurn;
    TopTurnIsGreatest(s.rows, item);
    var top := TopTurn(s.rows, item);
    if top > 0 {
      ConsumedOk(c, s, item, top);
      ConsumedBelow(c, s, item, top, Capped(c, top + 1) - 1);
    }
  }

  // ---- every step ----

  lemma FileSlots(c: Config, s: State, d: int, t: Task, blocks: seq<int>)
    requires Slots(c, s) && d in s.tasks && s.tasks[d] == t && t.Unconsumed?
    ensures Extends(c, s, DoFile(c, s, d, t, blocks))
  {
    var s' := DoFile(c, s, d, t, blocks);
    assert TaskOk(c, s.rows, t);
    assert Keeps(s.rows, s'.rows);
    KeepsTurnOk(c, s.rows, s'.rows);
    hide TurnOk, UniqueViolation, Distinct, Contested;
  }

  lemma BuildSlots(c: Config, s: State, d: int, t: Task)
    requires Slots(c, s) && (t.Building? || t.Rebuilding?) && t.request < |s.rows| && s.rows[t.request].kind == Filed
    ensures Extends(c, s, DoBuild(c, s, d, t))
  {
    var r := s.rows[t.request];
    assert RowOk(c, s.rows, r);
    assert Consumes(s.rows[t.request]);
    assert Consumed(s.rows, r.item, r.turn);
    hide Consumed;
    assert TurnOk(c, s.rows, r.item, r.turn + 1);
  }

  // The request a handler works on is a filed one that exists.
  predicate OnFiled(s: State, t: Task) {
    (t.Confirming? || t.Gating? || t.Building? || t.Flipping? || t.Sending? || t.Rebuilding? || t.Resending? || t.Marking?)
    ==> t.request < |s.rows| && s.rows[t.request].kind == Filed
  }

  predicate MailOnFiled(s: State, m: Mail) {
    (m.Confirmation? || m.Result?) ==> m.request < |s.rows| && s.rows[m.request].kind == Filed
  }

  ghost predicate Grounded(s: State) {
    && (forall d :: d in s.tasks ==> OnFiled(s, s.tasks[d]))
    && (forall k :: 0 <= k < |s.mails| ==> MailOnFiled(s, s.mails[k]))
  }

  // Only this handler moved, and it stands somewhere in order.
  lemma MovedExtends(c: Config, s: State, d: int, t': Task)
    requires Slots(c, s) && TaskOk(c, s.rows, t')
    ensures Extends(c, s, Put(s, d, t'))
  {
    hide TaskOk;
  }

  lemma AdvanceOk(c: Config, s: State, t: Task, step: Step)
    requires ValidConfig(c) && Slots(c, s) && TaskOk(c, s.rows, t) && ReadsOnly(step)
    ensures TaskOk(c, s.rows, Advance(c, s, t, step))
  {
    if t.Rebound? {
      NextTurnOk(c, s, t.item);
    }
    hide TurnOk, Consumed, NextOpenTurn, Capped, Slots, IsLiveFor;
  }

  lemma RecordExtends(c: Config, s: State, d: int, t: Task)
    requires Slots(c, s) && d in s.tasks && s.tasks[d] == t && t.Recording?
    ensures Extends(c, s, DoRecord(s, d, t))
  {
    assert TaskOk(c, s.rows, t);
    hide TurnOk, Consumed, UniqueViolation;
  }

  lemma SenderExtends(c: Config, s: State, d: int, t: Task, step: Step)
    requires Slots(c, s) && d in s.tasks && s.tasks[d] == t
    requires step.Gate? || step.Flip? || step.Mark? || step.Drop?
    ensures Extends(c, s, TaskStep(c, s, d, t, step))
  {
    hide TurnOk, Consumed, AllVerdicted, AllUpheld, RowOk, Slots;
  }

  lemma MailerExtends(c: Config, s: State, d: int, t: Task, step: Step)
    requires Slots(c, s) && d in s.tasks && s.tasks[d] == t
    requires step.Confirm? || step.Send? || step.Resend?
    ensures Extends(c, s, TaskStep(c, s, d, t, step))
  {
    hide TurnOk, Consumed, RowOk, Keeps, Slots;
    KeepsItself(s.rows);
  }

  lemma OtherExtends(c: Config, s: State, step: Step)
    requires ValidConfig(c) && Slots(c, s) && !ByTask(step)
    ensures Extends(c, s, Apply(c, s, step))
  {
    if step.Remind? || step.AddProblem? || step.SetVerdict? {
      RowExtends(c, s, step);
    } else {
      hide Consumed, DoRemind, DoAddProblem, DoSetVerdict, IsOpen, IsResolved, Keeps, RowOk;
      KeepsItself(s.rows);
    }
  }

  lemma KeepsItself(rows: seq<Request>)
    ensures Keeps(rows, rows)
  {
  }

  lemma RowExtends(c: Config, s: State, step: Step)
    requires Slots(c, s) && (step.Remind? || step.AddProblem? || step.SetVerdict?)
    ensures Extends(c, s, Apply(c, s, step))
  {
    hide Consumed, HasProblem, IsOpen, RowOk, TaskOk, TurnOk, Slots;
  }

  lemma StepExtends(c: Config, s: State, step: Step)
    requires ValidConfig(c) && Slots(c, s) && Grounded(s)
    ensures Extends(c, s, Apply(c, s, step))
  {
    assert forall d :: d in s.tasks ==> TaskOk(c, s.rows, s.tasks[d]);
    hide Slots, TurnOk, TaskOk, RowOk, DoFile, DoBuild, Advance;
    if !ByTask(step) {
      OtherExtends(c, s, step);
    } else if step.task in s.tasks {
      var d, t := step.task, s.tasks[step.task];
      if step.File? && t.Unconsumed? {
        FileSlots(c, s, d, t, step.blocks);
      } else if step.Build? && (t.Building? || t.Rebuilding?) && AtRow(s, t) {
        assert OnFiled(s, t);
        BuildSlots(c, s, d, t);
      } else if !step.File? && !step.Build? {
        if step.Confirm? || step.Send? || step.Resend? {
          MailerExtends(c, s, d, t, step);
        } else if step.Gate? || step.Flip? || step.Mark? || step.Drop? {
          SenderExtends(c, s, d, t, step);
        } else if step.Record? {
          if t.Recording? { RecordExtends(c, s, d, t); }
        } else {
          AdvanceOk(c, s, t, step);
          MovedExtends(c, s, d, Advance(c, s, t, step));
        }
      }
    }
  }

  // Grounding outlives any step that keeps the rows and adds only grounded handlers and mails.
  ghost predicate AddsGrounded(s: State, s': State) {
    && Keeps(s.rows, s'.rows)
    && (forall d :: d in s'.tasks ==> (d in s.tasks && s'.tasks[d] == s.tasks[d]) || OnFiled(s', s'.tasks[d]))
    && |s.mails| <= |s'.mails| && s'.mails[..|s.mails|] == s.mails
    && (forall k :: |s.mails| <= k < |s'.mails| ==> MailOnFiled(s', s'.mails[k]))
  }

  lemma StaysGrounded(s: State, s': State)
    requires Grounded(s) && AddsGrounded(s, s')
    ensures Grounded(s')
  {
    forall d | d in s'.tasks
      ensures OnFiled(s', s'.tasks[d])
    {
      assert d in s.tasks ==> OnFiled(s, s.tasks[d]);
    }
    forall k | 0 <= k < |s'.mails|
      ensures MailOnFiled(s', s'.mails[k])
    {
      if k < |s.mails| {
        assert s'.mails[..|s.mails|][k] == s.mails[k] && MailOnFiled(s, s.mails[k]);
      }
    }
  }

  lemma GroundedStep(c: Config, s: State, step: Step)
    requires ValidConfig(c) && Slots(c, s) && Grounded(s)
    ensures Grounded(Apply(c, s, step))
  {
    hide *;
    StepExtends(c, s, step);
    StepAddsGrounded(c, s, step);
    StaysGrounded(s, Apply(c, s, step));
  }

  lemma OtherAddsGrounded(c: Config, s: State, step: Step)
    requires Grounded(s) && !ByTask(step) && Keeps(s.rows, Apply(c, s, step).rows)
    ensures AddsGrounded(s, Apply(c, s, step))
  {
    hide HasProblem, IsOpen, IsResolved, Keeps, Grounded;
  }

  lemma AdvanceUnfiled(c: Config, s: State, t: Task, step: Step)
    requires OnFiled(s, t) && ReadsOnly(step)
    ensures OnFiled(s, Advance(c, s, t, step))
  {
    hide Consumed, NextOpenTurn, Capped, IsLiveFor;
  }

  lemma WebhookAddsGrounded(c: Config, s: State, d: int, t: Task, step: Step)
    requires OnFiled(s, t) && d in s.tasks && s.tasks[d] == t && Keeps(s.rows, TaskStep(c, s, d, t, step).rows)
    requires ReadsOnly(step) || step.File? || step.Record?
    ensures AddsGrounded(s, TaskStep(c, s, d, t, step))
  {
    if ReadsOnly(step) {
      AdvanceUnfiled(c, s, t, step);
    }
    hide Keeps, UniqueViolation, Distinct, Contested, Advance;
  }

  lemma MailerAddsGrounded(c: Config, s: State, d: int, t: Task, step: Step)
    requires OnFiled(s, t) && d in s.tasks && s.tasks[d] == t && Keeps(s.rows, TaskStep(c, s, d, t, step).rows)
    requires step.Confirm? || step.Send? || step.Resend?
    ensures AddsGrounded(s, TaskStep(c, s, d, t, step))
  {
    hide Keeps;
  }

  lemma SenderAddsGrounded(c: Config, s: State, d: int, t: Task, step: Step)
    requires OnFiled(s, t) && d in s.tasks && s.tasks[d] == t && Keeps(s.rows, TaskStep(c, s, d, t, step).rows)
    requires step.Gate? || step.Build? || step.Flip? || step.Mark? || step.Drop?
    ensures AddsGrounded(s, TaskStep(c, s, d, t, step))
  {
    hide Keeps, AllVerdicted, AllUpheld, IsOpen, MailOnFiled;
  }

  lemma StepAddsGrounded(c: Config, s: State, step: Step)
    requires Grounded(s) && Extends(c, s, Apply(c, s, step))
    ensures AddsGrounded(s, Apply(c, s, step))
  {
    assert Keeps(s.rows, Apply(c, s, step).rows);
    if !ByTask(step) {
      hide *;
      OtherAddsGrounded(c, s, step);
    } else if step.task in s.tasks {
      var d, t := step.task, s.tasks[step.task];
      assert OnFiled(s, t);
      hide Extends, Grounded, AddsGrounded, OnFiled, Keeps, TaskStep;
      if step.Confirm? || step.Send? || step.Resend? {
        MailerAddsGrounded(c, s, d, t, step);
      } else if step.Gate? || step.Build? || step.Flip? || step.Mark? || step.Drop? {
        SenderAddsGrounded(c, s, d, t, step);
      } else {
        WebhookAddsGrounded(c, s, d, t, step);
      }
    } else {
      hide Keeps, OnFiled, MailOnFiled, Extends, Grounded;
    }
  }

  // ---- over every run ----

  ghost predicate Chained(c: Config, s: State) {
    Slots(c, s) && Grounded(s)
  }

  lemma ChainedStep(c: Config, s: State, step: Step)
    requires ValidConfig(c) && Chained(c, s)
    ensures Chained(c, Apply(c, s, step)) && Keeps(s.rows, Apply(c, s, step).rows)
  {
    var s' := Apply(c, s, step);
    StepExtends(c, s, step);
    assert Keeps(s.rows, s'.rows);
    hide Apply, Slots, Grounded, Extends, Keeps;
    ExtendsSlots(c, s, s');
    GroundedStep(c, s, step);
  }

  lemma {:induction false} ChainedRun(c: Config, steps: seq<Step>)
    requires ValidConfig(c)
    ensures Chained(c, Run(c, Start(), steps))
  {
    hide Apply, Chained;
    if steps == [] {
      assert Chained(c, Start()) by { StartChained(c); }
    } else {
      ChainedRun(c, steps[..|steps| - 1]);
      ChainedStep(c, Run(c, Start(), steps[..|steps| - 1]), steps[|steps| - 1]);
    }
  }

  lemma StartChained(c: Config)
    ensures Chained(c, Start())
  {
  }

  ghost predicate HandedOffItem(rows: seq<Request>, item: int) {
    exists k :: 0 <= k < |rows| && rows[k].kind == HandedOff && rows[k].item == item
  }

  // In every reachable state the consumed turns of an item are exactly 1..k with k at most
  // MAX + 1; its tokens go no further than the next turn and the handoff turn; and a handoff
  // has happened only when the whole budget is consumed.
  lemma TurnsAreContiguous(c: Config, steps: seq<Step>, item: int)
    requires ValidConfig(c)
    ensures var s := Run(c, Start(), steps);
            var k := TopTurn(s.rows, item);
            && 0 <= k <= c.maxTurns + 1
            && (forall turn :: Consumed(s.rows, item, turn) <==> 1 <= turn <= k)
            && (forall turn :: (item, turn) in s.minted ==> 1 <= turn <= k + 1 && turn <= c.maxTurns + 1)
            && (HandedOffItem(s.rows, item) ==> k == c.maxTurns + 1)
            && (forall j :: 0 <= j < |s.rows| && s.rows[j].kind == Filed ==> 1 <= s.rows[j].turn <= c.maxTurns)
  {
    hide Run;
    var s := Run(c, Start(), steps);
    ChainedRun(c, steps);
    ChainIsContiguous(c, s, item);
    FiledInBudget(c, s);
  }

  lemma FiledInBudget(c: Config, s: State)
    requires ValidConfig(c) && Slots(c, s)
    ensures forall j :: 0 <= j < |s.rows| && s.rows[j].kind == Filed ==> 1 <= s.rows[j].turn <= c.maxTurns
  {
    hide Consumed;
  }

  lemma ChainIsContiguous(c: Config, s: State, item: int)
    requires ValidConfig(c) && Slots(c, s)
    ensures var k := TopTurn(s.rows, item);
            && 0 <= k <= c.maxTurns + 1
            && (forall turn :: Consumed(s.rows, item, turn) <==> 1 <= turn <= k)
            && (forall turn :: (item, turn) in s.minted ==> 1 <= turn <= k + 1 && turn <= c.maxTurns + 1)
            && (HandedOffItem(s.rows, item) ==> k == c.maxTurns + 1)
  {
    var k := TopTurn(s.rows, item);
    TopTurnIsGreatest(s.rows, item);
    if HandedOffItem(s.rows, item) {
      HandedOffIsLast(c, s, item);
    }
    assert forall turn :: (item, turn) in s.minted ==> TurnOk(c, s.rows, (item, turn).0, (item, turn).1);
    hide Slots, Consumed, TopTurn, HandedOffItem;
    forall turn | Consumed(s.rows, item, turn)
      ensures TurnOk(c, s.rows, item, turn)
    {
      ConsumedOk(c, s, item, turn);
    }
    forall turn | 1 <= turn <= k
      ensures Consumed(s.rows, item, turn)
    {
      ConsumedBelow(c, s, item, k, turn);
    }
  }

  lemma HandedOffIsLast(c: Config, s: State, item: int)
    requires Slots(c, s) && HandedOffItem(s.rows, item)
    ensures Consumed(s.rows, item, c.maxTurns + 1)
  {
    var k :| 0 <= k < |s.rows| && s.rows[k].kind == HandedOff && s.rows[k].item == item;
    assert RowOk(c, s.rows, s.rows[k]) && Consumes(s.rows[k]);
  }
}
