/** internal/email/template_v2.go: what a result email shows, and what its "final attempt" notice
    promises about a reply to it. */
module ResultMail {
  import opened Wrappers
  import opened RegradeChain
  import opened RegradeSlots
  import opened RegradeRecovery
  import opened RegradeRaces
  import opened RegradeServer

  datatype ResultProblem = ResultProblem(number: int, outcome: string, newScore: string)

  datatype ProblemView = ProblemView(problem: ResultProblem, outcomeWord: string, hasNewScore: bool)

  datatype ResultView = ResultView(problems: seq<ProblemView>, isFinal: bool, hasReplyTo: bool)

  predicate KnownOutcome(outcome: string) {
    outcome == "upheld" || outcome == "regraded"
  }

  predicate IsFinal(turn: int, maxTurns: int) {
    maxTurns > 0 && turn >= maxTurns
  }

  // The problems of the email, in order, or the first one whose outcome is not a verdict.
  method View(problems: seq<ResultProblem>, turn: int, maxTurns: int, replyTo: string) returns (r: Result<ResultView, int>)
    ensures r.Ok? <==> forall i :: 0 <= i < |problems| ==> KnownOutcome(problems[i].outcome)
    ensures r.Ok? ==>
              && |r.value.problems| == |problems|
              && (forall i :: 0 <= i < |problems| ==>
                    && r.value.problems[i].problem == problems[i] && r.value.problems[i].outcomeWord == problems[i].outcome
                    && (r.value.problems[i].hasNewScore <==> problems[i].outcome == "regraded" && problems[i].newScore != ""))
              && (r.value.isFinal <==> IsFinal(turn, maxTurns)) && (r.value.hasReplyTo <==> replyTo != "")
    ensures r.Err? ==>
              exists i :: 0 <= i < |problems| && r.error == problems[i].number && !KnownOutcome(problems[i].outcome)
                          && forall j :: 0 <= j < i ==> KnownOutcome(problems[j].outcome)
  {
    var views: seq<ProblemView> := [];
    for i := 0 to |problems|
      invariant |views| == i
      invariant forall j :: 0 <= j < i ==>
                  && KnownOutcome(problems[j].outcome)
                  && views[j].problem == problems[j] && views[j].outcomeWord == problems[j].outcome
                  && (views[j].hasNewScore <==> problems[j].outcome == "regraded" && problems[j].newScore != "")
    {
      var p := problems[i];
      var word: string;
      match p.outcome {
        case "upheld" => word := "upheld";
        case "regraded" => word := "regraded";
        case _ => return Err(p.number);
      }
      views := views + [ProblemView(p, word, p.outcome == "regraded" && p.newScore != "")];
    }
    r := Ok(ResultView(views, IsFinal(turn, maxTurns), replyTo != ""));
  }

  // ---- what the notice promises ----

  // A final result says further replies go to the teaching assistant. Filing the next turn of its
  // item does just that, and filing the next turn after any other result does not.
  lemma FinalMeansHandoff(c: Config, steps: seq<Step>, k: nat, d: int, messageId: string, blocks: seq<int>)
    requires ValidConfig(c)
    requires var s := Run(c, Start(), steps);
             && k < |s.rows| && s.rows[k].kind == Filed
             && d in s.tasks && s.tasks[d] == Unconsumed(messageId, s.rows[k].item, s.rows[k].turn + 1)
             && blocks != [] && Distinct(blocks) && !UniqueViolation(s.rows, Filing(s.tasks[d], blocks))
    ensures var s := Run(c, Start(), steps);
            var s' := Apply(c, s, File(d, blocks));
            && |s'.rows| == |s.rows| + 1 && s'.rows[..|s.rows|] == s.rows
            && s'.rows[|s.rows|].kind == if IsFinal(s.rows[k].turn, c.maxTurns) then HandedOff else Filed
  {
    TurnsAreContiguous(c, steps, Run(c, Start(), steps).rows[k].item);
    hide Run, Distinct, UniqueViolation, Consumed, TopTurn, HandedOffItem;
  }

  // ---- one reply, handled on its own ----

  // A reply's reads up to the turn it is bound to.
  function ReplySteps(d: int, live: Option<int>): seq<Step> {
    [] + [Lookup(d)] + [FindLive(d, live)] + [NextTurn(d)]
  }

  // And on to its filing.
  function FilingReply(d: int, live: Option<int>, sender: bool, inTime: bool, blocks: seq<int>): seq<Step> {
    ReplySteps(d, live) + [Admit(d, sender, inTime)] + [Check(d)] + [File(d, blocks)]
  }

  // Where the reads leave the reply: a superseded batch passes it on to a live item, if there is one.
  function BoundReply(c: Config, s: State, messageId: string, item: int, turn: int, live: Option<int>): Task {
    if item !in s.items then Rejected(0, 0, RejectedBadToken, messageId)
    else if !s.items[item].superseded then Bound(messageId, item, turn)
    else if live.Some? && IsLiveFor(s.items, item, live.value)
    then Bound(messageId, live.value, Capped(c, NextOpenTurn(s.rows, live.value)))
    else Rejected(item, turn, RejectedSuperseded, messageId)
  }

  lemma ReplyBinds(c: Config, s: State, d: int, messageId: string, item: int, turn: int, live: Option<int>)
    requires d in s.tasks && s.tasks[d] == Arrived(messageId, item, turn)
    ensures Run(c, s, ReplySteps(d, live)) == Put(s, d, BoundReply(c, s, messageId, item, turn, live))
  {
    var t0 := Arrived(messageId, item, turn);
    var t1 := Advance(c, s, t0, Lookup(d));
    var t2 := Advance(c, s, t1, FindLive(d, live));
    var t3 := Advance(c, s, t2, NextTurn(d));
    RunNothing(c, s);
    assert Put(s, d, t0) == s;
    ReplyReads(c, s, messageId, item, turn, live, d);
    ReadStep(c, s, d, t0, Lookup(d));
    ReadStep(c, s, d, t1, FindLive(d, live));
    ReadStep(c, s, d, t2, NextTurn(d));
    hide Run, Apply, Put, Advance, BoundReply;
    Then(c, s, [], Lookup(d), s, Put(s, d, t1));
    Then(c, s, [] + [Lookup(d)], FindLive(d, live), Put(s, d, t1), Put(s, d, t2));
    Then(c, s, [] + [Lookup(d)] + [FindLive(d, live)], NextTurn(d), Put(s, d, t2), Put(s, d, t3));
  }

  lemma ReplyReads(c: Config, s: State, messageId: string, item: int, turn: int, live: Option<int>, d: int)
    ensures Advance(c, s, Advance(c, s, Advance(c, s, Arrived(messageId, item, turn), Lookup(d)), FindLive(d, live)), NextTurn(d))
         == BoundReply(c, s, messageId, item, turn, live)
  {
    hide TopTurn, Capped;
  }

  lemma ReadStep(c: Config, s: State, d: int, t: Task, step: Step)
    requires ReadsOnly(step) && step.task == d
    ensures Apply(c, Put(s, d, t), step) == Put(s, d, Advance(c, s, t, step))
  {
    AdvanceIgnoresTasks(c, s, d, t, step);
    var t' := Advance(c, s, t, step);
    assert Put(Put(s, d, t), d, t') == Put(s, d, t');
    hide Advance;
  }

  // The rows a step or a run adds are a single handoff of this item at this turn.
  predicate HandsOff(s: State, s': State, item: int, turn: int) {
    |s'.rows| == |s.rows| + 1 && s'.rows[..|s.rows|] == s.rows
    && s'.rows[|s.rows|].kind == HandedOff && s'.rows[|s.rows|].item == item && s'.rows[|s.rows|].turn == turn
  }

  predicate AnyHandoff(s: State, s': State) {
    exists k :: |s.rows| <= k < |s'.rows| && s'.rows[k].kind == HandedOff
  }

  // A bound reply is handed off by its filing exactly when its turn is past the budget and free,
  // it is let in, it names problems, none twice, and its message is new.
  predicate GoesToAssistant(c: Config, rows: seq<Request>, t: Task, sender: bool, inTime: bool, blocks: seq<int>) {
    && t.Bound? && t.turn > c.maxTurns && !Consumed(rows, t.item, t.turn)
    && sender && inTime && blocks != [] && Distinct(blocks) && !KnownMessage(rows, t.messageId)
  }

  // Letting a bound reply in, and checking its turn.
  function CheckedReply(c: Config, s: State, t: Task, d: int, sender: bool, inTime: bool): Task {
    Advance(c, s, Advance(c, s, t, Admit(d, sender, inTime)), Check(d))
  }

  lemma BoundFiles(c: Config, s: State, t: Task, d: int, sender: bool, inTime: bool, blocks: seq<int>)
    requires t.Bound? || t.Recording?
    ensures var s' := Apply(c, Put(s, d, CheckedReply(c, s, t, d, sender, inTime)), File(d, blocks));
            && (AnyHandoff(s, s') <==> GoesToAssistant(c, s.rows, t, sender, inTime, blocks))
            && (AnyHandoff(s, s') ==> HandsOff(s, s', t.item, t.turn))
  {
    hide Consumed, KnownMessage, Distinct;
    var t' := CheckedReply(c, s, t, d, sender, inTime);
    if t'.Unconsumed? {
      FreeSlot(s.rows, t'.item, t'.turn);
      hide SlotTaken;
      FilesHandoff(c, s, d, t', blocks);
    }
  }

  lemma FreeSlot(rows: seq<Request>, item: int, turn: int)
    requires !Consumed(rows, item, turn)
    ensures !SlotTaken(rows, item, turn)
  {
  }

  lemma FilesHandoff(c: Config, s: State, d: int, t: Task, blocks: seq<int>)
    requires t.Unconsumed? && !SlotTaken(s.rows, t.item, t.turn)
    ensures var s' := Apply(c, Put(s, d, t), File(d, blocks));
            && (AnyHandoff(s, s') <==> t.turn > c.maxTurns && blocks != [] && Distinct(blocks) && !KnownMessage(s.rows, t.messageId))
            && (AnyHandoff(s, s') ==> HandsOff(s, s', t.item, t.turn))
  {
    hide KnownMessage, SlotTaken, Distinct, Contested;
    var s' := Apply(c, Put(s, d, t), File(d, blocks));
    if t.turn > c.maxTurns && blocks != [] && Distinct(blocks) && !KnownMessage(s.rows, t.messageId) {
      assert s'.rows == s.rows + [Filing(t, blocks).(kind := HandedOff)];
      assert s'.rows[|s.rows|].kind == HandedOff;
    }
  }

  // In any state, a reply handled on its own is handed off exactly when its reads bind it to a
  // slot that goes to the assistant.
  lemma ReplyHandsOffIff(c: Config, s: State, d: int, messageId: string, item: int, turn: int, live: Option<int>,
                         sender: bool, inTime: bool, blocks: seq<int>)
    requires d in s.tasks && s.tasks[d] == Arrived(messageId, item, turn)
    ensures var s' := Run(c, s, FilingReply(d, live, sender, inTime, blocks));
            var t := BoundReply(c, s, messageId, item, turn, live);
            && (AnyHandoff(s, s') <==> GoesToAssistant(c, s.rows, t, sender, inTime, blocks))
            && (AnyHandoff(s, s') ==> HandsOff(s, s', t.item, t.turn))
  {
    var t := BoundReply(c, s, messageId, item, turn, live);
    var t1 := Advance(c, s, t, Admit(d, sender, inTime));
    var t2 := CheckedReply(c, s, t, d, sender, inTime);
    var s' := Apply(c, Put(s, d, t2), File(d, blocks));
    ReplyBinds(c, s, d, messageId, item, turn, live);
    ReadStep(c, s, d, t, Admit(d, sender, inTime));
    ReadStep(c, s, d, t1, Check(d));
    BoundFiles(c, s, t, d, sender, inTime, blocks);
    hide Run, Apply, Put, Advance, BoundReply, GoesToAssistant, AnyHandoff, HandsOff;
    Then(c, s, ReplySteps(d, live), Admit(d, sender, inTime), Put(s, d, t), Put(s, d, t1));
    Then(c, s, ReplySteps(d, live) + [Admit(d, sender, inTime)], Check(d), Put(s, d, t1), Put(s, d, t2));
    Then(c, s, ReplySteps(d, live) + [Admit(d, sender, inTime)] + [Check(d)], File(d, blocks), Put(s, d, t2), s');
  }

  // The item a reply is counted against: its own, or the live one its batch passes it on to.
  function Target(s: State, item: int, live: Option<int>): Option<int> {
    if item !in s.items then None
    else if !s.items[item].superseded then Some(item)
    else if live.Some? && IsLiveFor(s.items, item, live.value) then live
    else None
  }

  // A reply to a final result reaches the assistant exactly when the item it is counted against
  // has spent its budget and been handed off to nobody, and the reply is let in, names problems,
  // none twice, and is new.
  lemma FinalReplyHandsOffIff(c: Config, steps: seq<Step>, k: nat, d: int, messageId: string, live: Option<int>,
                              sender: bool, inTime: bool, blocks: seq<int>)
    requires ValidConfig(c)
    requires var s := Run(c, Start(), steps);
             && k < |s.rows| && s.rows[k].kind == Filed && IsFinal(s.rows[k].turn, c.maxTurns)
             && d in s.tasks && s.tasks[d] == Arrived(messageId, s.rows[k].item, s.rows[k].turn + 1)
    ensures var s := Run(c, Start(), steps);
            var s' := Run(c, s, FilingReply(d, live, sender, inTime, blocks));
            var target := Target(s, s.rows[k].item, live);
            && (AnyHandoff(s, s') <==>
                  && target.Some? && TopTurn(s.rows, target.value) == c.maxTurns
                  && sender && inTime && blocks != [] && Distinct(blocks) && !KnownMessage(s.rows, messageId))
            && (AnyHandoff(s, s') ==> HandsOff(s, s', target.value, c.maxTurns + 1))
  {
    var s := Run(c, Start(), steps);
    var item, turn := s.rows[k].item, s.rows[k].turn;
    ReplyHandsOffIff(c, s, d, messageId, item, turn + 1, live, sender, inTime, blocks);
    assert Consumed(s.rows, item, turn);
    TurnsAreContiguous(c, steps, item);
    if live.Some? {
      TurnsAreContiguous(c, steps, live.value);
    }
    hide Run, TopTurn, Consumed, FilingReply, AnyHandoff, HandsOff, KnownMessage, Distinct, HandedOffItem;
  }

  // ---- a final result that was not final ----

  function Republished(): seq<Step> {
    FilingSteps() + JudgingSteps()
    + [Flip(2)] + [Send(2, true)] + [Supersede(5)] + [Publish(6, 1)] + [Deliver(3, "b", Some((5, 2)))]
  }

  function Republishing(superseded: bool, status: Status, mails: seq<Mail>, task: Task): State {
    State(map[5 := Item(1, superseded)], {(5, 1), (5, 2)}, [FiledRow(Judged(), status)], mails, map[1 := Confirming(0), 2 := task])
  }

  function ReplyState(tasks: map<int, Task>): State {
    State(map[5 := Item(1, true), 6 := Item(1, false)], {(5, 1), (5, 2), (6, 1)}, [FiledRow(Judged(), ResolvedUpheld)],
          [Result(0, Judged(), true, true)], tasks)
  }

  lemma SendsFinal()
    ensures var mail := [Result(0, Judged(), true, true)];
            && Apply(ONE_TURN, JudgedState(), Flip(2)) == Republishing(false, ResolvedUpheld, [], Sending(0, Judged()))
            && Apply(ONE_TURN, Republishing(false, ResolvedUpheld, [], Sending(0, Judged())), Send(2, true))
               == Republishing(false, ResolvedUpheld, mail, Marking(0))
  {
    assert [FiledRow(Judged(), Received)][0 := FiledRow(Judged(), ResolvedUpheld)] == [FiledRow(Judged(), ResolvedUpheld)];
    assert map[1 := Confirming(0), 2 := Flipping(0, Judged())][2 := Sending(0, Judged())] == map[1 := Confirming(0), 2 := Sending(0, Judged())];
    assert map[1 := Confirming(0), 2 := Sending(0, Judged())][2 := Marking(0)] == map[1 := Confirming(0), 2 := Marking(0)];
  }

  lemma Republishes()
    ensures var mail := [Result(0, Judged(), true, true)];
            var tasks := map[1 := Confirming(0), 2 := Marking(0)];
            && Apply(ONE_TURN, Republishing(false, ResolvedUpheld, mail, Marking(0)), Supersede(5))
               == Republishing(true, ResolvedUpheld, mail, Marking(0))
            && Apply(ONE_TURN, Republishing(true, ResolvedUpheld, mail, Marking(0)), Publish(6, 1)) == ReplyState(tasks)
  {
  }

  lemma Replies()
    ensures var tasks := map[1 := Confirming(0), 2 := Marking(0)];
            Apply(ONE_TURN, ReplyState(tasks), Deliver(3, "b", Some((5, 2)))) == ReplyState(tasks[3 := Arrived("b", 5, 2)])
  {
  }

  function Reopened(): State {
    ReplyState(map[1 := Confirming(0), 2 := Marking(0), 3 := Arrived("b", 5, 2)])
  }

  lemma ReopenedRun()
    ensures Run(ONE_TURN, Start(), Republished()) == Reopened()
  {
    var c := ONE_TURN;
    var mail := [Result(0, Judged(), true, true)];
    var tasks := map[1 := Confirming(0), 2 := Marking(0)];
    var t := FilingSteps() + JudgingSteps();
    JudgedRun();
    SendsFinal();
    Republishes();
    Replies();
    assert tasks[3 := Arrived("b", 5, 2)] == map[1 := Confirming(0), 2 := Marking(0), 3 := Arrived("b", 5, 2)];
    var s1, s2, s3, s4 := Republishing(false, ResolvedUpheld, [], Sending(0, Judged())),
      Republishing(false, ResolvedUpheld, mail, Marking(0)), Republishing(true, ResolvedUpheld, mail, Marking(0)), ReplyState(tasks);
    hide *;
    Then(c, Start(), t, Flip(2), JudgedState(), s1);
    Then(c, Start(), t + [Flip(2)], Send(2, true), s1, s2);
    Then(c, Start(), t + [Flip(2)] + [Send(2, true)], Supersede(5), s2, s3);
    Then(c, Start(), t + [Flip(2)] + [Send(2, true)] + [Supersede(5)], Publish(6, 1), s3, s4);
    Then(c, Start(), t + [Flip(2)] + [Send(2, true)] + [Supersede(5)] + [Publish(6, 1)], Deliver(3, "b", Some((5, 2))), s4, Reopened());
  }

  lemma ReopenedState()
    ensures var s := Reopened();
            && s.mails == [Result(0, Judged(), true, true)] && |s.rows| == 1 && s.rows[0] == FiledRow(Judged(), ResolvedUpheld)
            && 3 in s.tasks && s.tasks[3] == Arrived("b", 5, 2)
            && Target(s, 5, Some(6)) == Some(6) && BoundReply(ONE_TURN, s, "b", 5, 2, Some(6)) == Bound("b", 6, 1)
            && TopTurn(s.rows, 6) == 0
            && FiledRow(Judged(), ResolvedUpheld).item == 5 && FiledRow(Judged(), ResolvedUpheld).turn == 1
            && FiledRow(Judged(), ResolvedUpheld).kind == Filed && IsFinal(1, ONE_TURN.maxTurns)
  {
    NothingConsumed();
    assert TopTurn([], 6) == 0;
    assert [FiledRow(Judged(), ResolvedUpheld)][..0] == [];
  }

  // With a budget of one, the result of turn 1 is final and says so. Its batch is superseded, the
  // student replies to it, and the reply is bound to turn 1 of the new item: whatever it says, no
  // assistant hears of it.
  lemma RepublishedFinalReopens(sender: bool, inTime: bool, blocks: seq<int>)
    ensures var s := Run(ONE_TURN, Start(), Republished());
            && s.mails == [Result(0, Judged(), true, true)] && s.rows != [] && IsFinal(s.rows[0].turn, ONE_TURN.maxTurns)
            && (var s' := Run(ONE_TURN, s, ReplySteps(3, Some(6)));
                3 in s'.tasks && s'.tasks[3] == Bound("b", 6, 1))
            && !AnyHandoff(s, Run(ONE_TURN, s, FilingReply(3, Some(6), sender, inTime, blocks)))
  {
    ReopenedRun();
    ReopenedState();
    assert ValidConfig(ONE_TURN) && ONE_TURN.maxTurns == 1;
    hide Run, Republished, Reopened, ReplySteps, FilingReply, AnyHandoff, HandsOff, BoundReply, Target, TopTurn, IsFinal, FiledRow, Judged, KnownMessage, Distinct;
    ReplyBinds(ONE_TURN, Reopened(), 3, "b", 5, 2, Some(6));
    FinalReplyHandsOffIff(ONE_TURN, Republished(), 0, 3, "b", Some(6), sender, inTime, blocks);
  }

  lemma NothingConsumed()
    ensures Capped(ONE_TURN, NextOpenTurn([FiledRow(Judged(), ResolvedUpheld)], 6)) == 1
  {
    assert TopTurn([], 6) == 0;
    assert [FiledRow(Judged(), ResolvedUpheld)][..0] == [];
  }
}
