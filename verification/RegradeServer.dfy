/** internal/httpapi/regrade.go and internal/store/regrade.go: the handlers themselves, one call
    at a time on the rows they update. Each is proved to take the steps of the transition system
    when nothing runs in between, with any other handlers standing still. */
module RegradeServer {
  import opened Wrappers
  import opened RegradeChain
  import opened RegradeSlots
  import opened RegradeOnce
  import opened RegradeRecovery

  // An inbound email as the chain sees it, with what the lookups it makes will answer.
  datatype Inbound = Inbound(
    messageId: string, token: Option<(int, int)>, live: Option<int>, senderMatches: bool, inTime: bool, blocks: seq<int>)

  datatype Reply = Conflict | Failed | Done

  // A result goes out for an open filed request whose problems, at least one, all have verdicts.
  predicate Sendable(r: Request) {
    && r.kind == Filed && (r.status == Received || r.status == UnderReview)
    && r.subs != [] && forall j :: 0 <= j < |r.subs| ==> r.subs[j].verdict == Some(Upheld) || r.subs[j].verdict == Some(Regraded)
  }

  // One regraded problem makes the request a regraded one.
  function Judgement(subs: seq<SubItem>): Status {
    if exists j :: 0 <= j < |subs| && subs[j].verdict == Some(Regraded) then ResolvedRegraded else ResolvedUpheld
  }

  lemma InWords(r: Request)
    ensures Sendable(r) <==> r.kind == Filed && IsOpen(r.status) && r.subs != [] && AllVerdicted(r.subs)
    ensures AllVerdicted(r.subs) ==> Judgement(r.subs) == if AllUpheld(r.subs) then ResolvedUpheld else ResolvedRegraded
  {
    if Sendable(r) {
      forall j | 0 <= j < |r.subs|
        ensures r.subs[j].verdict.Some?
      {
        assert r.subs[j].verdict == Some(Upheld) || r.subs[j].verdict == Some(Regraded);
      }
    }
    if AllVerdicted(r.subs) {
      forall j | 0 <= j < |r.subs|
        ensures r.subs[j].verdict == Some(Upheld) || r.subs[j].verdict == Some(Regraded)
      {
        match r.subs[j].verdict
        case Some(v) => assert v.Upheld? || v.Regraded?;
      }
    }
  }

  // ---- what becomes of an inbound reply ----

  // One row more, unless its message is on record.
  predicate NewRow(was: seq<Request>, now: seq<Request>, r: Request) {
    now == if KnownMessage(was, r.messageId) then was else was + [r]
  }

  // An outcome that files nothing.
  predicate FilesNothing(messageId: string, item: int, turn: int, kind: Kind, status: Status, r: Request) {
    r.messageId == messageId && r.item == item && r.turn == turn && r.kind == kind && r.status == status && r.subs == [] && !r.sentAt
  }

  // No minted token, no such item, or a superseded batch without a live item.
  predicate Unbound(s: State, inb: Inbound, r: Request) {
    if inb.token == None || inb.token.value !in s.minted || inb.token.value.0 !in s.items
    then FilesNothing(inb.messageId, 0, 0, Unparsed, RejectedBadToken, r)
    else
      && s.items[inb.token.value.0].superseded && (inb.live == None || !IsLiveFor(s.items, inb.token.value.0, inb.live.value))
      && FilesNothing(inb.messageId, inb.token.value.0, inb.token.value.1, Unparsed, RejectedSuperseded, r)
  }

  // The token's own slot while its batch stands; otherwise the live item, at the turn after its
  // consumed ones, or the last one there is.
  predicate BoundTo(c: Config, s: State, inb: Inbound, item: int, turn: int) {
    && inb.token.Some? && inb.token.value in s.minted && inb.token.value.0 in s.items
    && if !s.items[inb.token.value.0].superseded then (item, turn) == inb.token.value
       else
         && inb.live == Some(item) && IsLiveFor(s.items, inb.token.value.0, item)
         && turn == if TopTurn(s.rows, item) >= c.maxTurns then c.maxTurns + 1 else TopTurn(s.rows, item) + 1
  }

  // Every contested problem in order, none of them judged; past the budget it goes to an assistant.
  predicate FiledAs(c: Config, rows: seq<Request>, messageId: string, item: int, turn: int, blocks: seq<int>, r: Request) {
    if blocks == [] then FilesNothing(messageId, item, turn, Unparsed, Received, r)
    else if !Distinct(blocks) || SlotTaken(rows, item, turn) then FilesNothing(messageId, item, turn, Addendum, Received, r)
    else
      && r.messageId == messageId && r.item == item && r.turn == turn && r.status == Received && !r.sentAt
      && r.kind == (if turn > c.maxTurns then HandedOff else Filed)
      && |r.subs| == |blocks| && forall i :: 0 <= i < |blocks| ==> r.subs[i].problem == blocks[i] && r.subs[i].verdict == None
  }

  predicate JudgedAs(c: Config, rows: seq<Request>, inb: Inbound, item: int, turn: int, r: Request) {
    if !inb.senderMatches then FilesNothing(inb.messageId, item, turn, Unparsed, RejectedSender, r)
    else if !inb.inTime then FilesNothing(inb.messageId, item, turn, Unparsed, RejectedDeadline, r)
    else if Consumed(rows, item, turn) then FilesNothing(inb.messageId, item, turn, Addendum, Received, r)
    else FiledAs(c, rows, inb.messageId, item, turn, inb.blocks, r)
  }

  ghost predicate AnsweredAs(c: Config, s: State, inb: Inbound, r: Request) {
    Unbound(s, inb, r) || exists item, turn :: BoundTo(c, s, inb, item, turn) && JudgedAs(c, s.rows, inb, item, turn, r)
  }

  class Server {
    const config: Config
    var items: map<int, Item>
    var minted: set<(int, int)>
    var rows: seq<Request>
    var mails: seq<Mail>

    constructor (c: Config)
      requires ValidConfig(c)
      ensures config == c && Now(map[]) == Start()
    {
      config := c;
      items, minted, rows, mails := map[], {}, [], [];
    }

    ghost function Now(tasks: map<int, Task>): State
      reads this
    {
      State(items, minted, rows, mails, tasks)
    }

    // ---- the store's reads ----

    method ConsumedTokenExists(item: int, turn: int) returns (exists_: bool)
      ensures exists_ == Consumed(rows, item, turn)
    {
      for k := 0 to |rows|
        invariant forall j :: 0 <= j < k ==> !(Consumes(rows[j]) && rows[j].item == item && rows[j].turn == turn)
      {
        if Consumes(rows[k]) && rows[k].item == item && rows[k].turn == turn {
          return true;
        }
      }
      return false;
    }

    method NextOpenTurn(item: int) returns (turn: int)
      ensures turn == RegradeChain.NextOpenTurn(rows, item)
    {
      var top := 0;
      for k := 0 to |rows|
        invariant top == TopTurn(rows[..k], item)
      {
        assert rows[..k + 1][..k] == rows[..k];
        if Consumes(rows[k]) && rows[k].item == item && rows[k].turn > top {
          top := rows[k].turn;
        }
      }
      assert rows[..|rows|] == rows;
      turn := top + 1;
    }

    method AllProblemsVerdicted(k: nat) returns (all: bool)
      requires k < |rows|
      ensures all == (rows[k].subs != [] && AllVerdicted(rows[k].subs))
    {
      var unverdicted := 0;
      for j := 0 to |rows[k].subs|
        invariant unverdicted >= 0
        invariant unverdicted == 0 <==> AllVerdicted(rows[k].subs[..j])
      {
        assert rows[k].subs[..j + 1] == rows[k].subs[..j] + [rows[k].subs[j]];
        if rows[k].subs[j].verdict == None {
          unverdicted := unverdicted + 1;
        }
      }
      assert rows[k].subs[..|rows[k].subs|] == rows[k].subs;
      all := |rows[k].subs| > 0 && unverdicted == 0;
    }

    // ---- the store's writes ----

    // Insert a row under the two unique indexes.
    method InsertRequest(r: Request) returns (ok: bool)
      modifies this`rows
      ensures ok == !UniqueViolation(old(rows), r)
      ensures rows == if ok then old(rows) + [r] else old(rows)
    {
      ok := !UniqueViolation(rows, r);
      if ok {
        rows := rows + [r];
      }
    }

    // The request and its sub-items in one transaction: a repeated problem rolls both back.
    method FileRequest(r: Request, blocks: seq<int>, handOff: bool) returns (ok: bool)
      requires r.kind == Filed && r.subs == []
      modifies this`rows
      ensures var filed := r.(subs := Contested(blocks));
              && ok == (!UniqueViolation(old(rows), filed) && Distinct(blocks))
              && rows == if !ok then old(rows) else old(rows) + [if handOff then filed.(kind := HandedOff) else filed]
    {
      var before := rows;
      ok := InsertRequest(r);
      assert UniqueViolation(before, r.(subs := Contested(blocks))) == UniqueViolation(before, r);
      if !ok {
        return;
      }
      var k := |before|;
      for j := 0 to |blocks|
        invariant rows == before + [r.(subs := Contested(blocks[..j]))] && Distinct(blocks[..j])
      {
        if HasProblem(rows[k].subs, blocks[j]) {
          RepeatedProblem(blocks, j);
          rows := before;
          return false;
        }
        NewProblem(blocks, j);
        rows := rows[k := rows[k].(subs := rows[k].subs + [SubItem(blocks[j], None)])];
      }
      assert blocks[..|blocks|] == blocks;
      if handOff {
        rows := rows[k := rows[k].(kind := HandedOff)];
      }
    }

    // The guarded update: only an open request resolves.
    method ResolveRequest(k: nat, status: Status) returns (won: bool)
      requires k < |rows|
      modifies this`rows
      ensures won == IsOpen(old(rows)[k].status)
      ensures rows == if won then old(rows)[k := old(rows)[k].(status := status)] else old(rows)
    {
      won := IsOpen(rows[k].status);
      if won {
        rows := rows[k := rows[k].(status := status)];
      }
    }

    method Deliver(m: Mail)
      modifies this`mails
      ensures mails == old(mails) + [m]
    {
      mails := mails + [m];
    }

    // ---- the webhook ----

    // `record`: a row for an outcome that files nothing; a repeated message id is ignored.
    method Record(r: Request, ghost d: int, ghost others: map<int, Task>)
      requires d !in others
      modifies this`rows
      ensures Now(others) == Apply(config, old(Now(others[d := Recording(r)])), RegradeChain.Record(d))
      ensures r.kind != Filed ==> NewRow(old(rows), rows, r)
    {
      assert r.kind != Filed ==> (UniqueViolation(rows, r) <==> KnownMessage(rows, r.messageId));
      hide UniqueViolation;
      ghost var tasks := others[d := Recording(r)];
      assert tasks - {d} == others;
      var ok := InsertRequest(r);
    }

    // Rungs 1 and 2: the token, its item, and the live item when the token's batch was superseded.
    // Either the handler is bound to a turn of an item, or it has recorded a rejection.
    method BindToken(inb: Inbound, ghost d: int, ghost others: map<int, Task>)
      returns (bound: Option<(int, int)>, ghost trace: seq<Step>)
      requires d !in others
      modifies this`rows
      ensures Took(d, inb, trace)
      ensures bound == None ==> Now(others) == Run(config, old(Now(others)), trace)
      ensures bound.Some? ==>
                && rows == old(rows)
                && Put(Now(others), d, Bound(inb.messageId, bound.value.0, bound.value.1)) == Run(config, old(Now(others)), trace)
      ensures bound == None ==> exists r :: Unbound(old(Now(others)), inb, r) && NewRow(old(rows), rows, r)
      ensures bound.Some? ==> BoundTo(config, old(Now(others)), inb, bound.value.0, bound.value.1)
    {
      ghost var s := Now(others);
      hide Run, Apply, Advance, TopTurn, Put, IsLiveFor, NewRow;
      trace := [RegradeChain.Deliver(d, inb.messageId, inb.token)];
      assert Took(d, inb, trace);
      hide Took;
      Arrives(config, s, d, inb);
      if inb.token == None || inb.token.value !in minted {
        trace := RejectReply(s, Outcome(0, 0, Unparsed, RejectedBadToken, inb.messageId), d, others, inb, trace);
        return None, trace;
      }
      var item, turn := inb.token.value.0, inb.token.value.1;
      ghost var at := Arrived(inb.messageId, item, turn);
      at, trace := Walk(config, s, d, inb, trace, at, Lookup(d));
      Rung1(config, s, inb.messageId, item, turn, d);
      if item !in items {
        trace := RejectReply(s, Outcome(0, 0, Unparsed, RejectedBadToken, inb.messageId), d, others, inb, trace);
        return None, trace;
      }
      if items[item].superseded {
        Rung2(config, s, inb.messageId, item, turn, d, inb.live);
        at, trace := Walk(config, s, d, inb, trace, at, FindLive(d, inb.live));
        if inb.live == None || !IsLiveFor(items, item, inb.live.value) {
          trace := RejectReply(s, Outcome(item, turn, Unparsed, RejectedSuperseded, inb.messageId), d, others, inb, trace);
          return None, trace;
        }
        item := inb.live.value;
        turn := NextOpenTurn(item);
        if turn > config.maxTurns + 1 {
          turn := config.maxTurns + 1;
        }
        at, trace := Walk(config, s, d, inb, trace, at, NextTurn(d));
      }
      bound := Some((item, turn));
    }

    // Record the outcome of a delivery that stops here.
    method RejectReply(ghost s: State, r: Request, ghost d: int, ghost others: map<int, Task>, ghost inb: Inbound, ghost before: seq<Step>)
      returns (ghost trace: seq<Step>)
      requires d !in others && s == Now(others) && Took(d, inb, before)
      requires Run(config, s, before) == Put(s, d, Recording(r))
      modifies this`rows
      ensures trace == before + [RegradeChain.Record(d)] && Took(d, inb, trace)
      ensures Now(others) == Run(config, s, trace)
      ensures r.kind != Filed ==> NewRow(old(rows), rows, r)
    {
      assert Now(others[d := Recording(r)]) == Put(s, d, Recording(r));
      hide Run, Apply;
      Record(r, d, others);
      trace := before + [RegradeChain.Record(d)];
      RunSnoc(config, s, before, RegradeChain.Record(d));
      assert trace[1..] == before[1..] + [RegradeChain.Record(d)];
    }

    // The filing transaction, and the confirmation of a request that is to be judged.
    method FileReply(messageId: string, item: int, turn: int, blocks: seq<int>, delivers: bool, ghost d: int, ghost others: map<int, Task>)
      returns (ghost steps: seq<Step>)
      requires d !in others
      modifies this`rows, this`mails
      ensures StepsOf(steps, d)
      ensures Now(others) == Run(config, old(Put(Now(others), d, Unconsumed(messageId, item, turn))), steps)
      ensures exists r :: FiledAs(config, old(rows), messageId, item, turn, blocks, r) && NewRow(old(rows), rows, r)
      ensures mails == if |rows| > |old(rows)| && rows[|old(rows)|].kind == Filed then old(mails) + [Confirmation(|old(rows)|, delivers)] else old(mails)
    {
      ghost var t := Unconsumed(messageId, item, turn);
      ghost var now := Now(others);
      ghost var s := Put(now, d, t);
      steps := [File(d, blocks)];
      RunOneStep(config, s, File(d, blocks));
      hide UniqueViolation, Distinct, Contested, Apply, Run, Put, KnownMessage, SlotTaken, FiledAs;
      var ok := false;
      if blocks != [] {
        ok := FileRequest(Outcome(item, turn, Filed, Received, messageId), blocks, turn > config.maxTurns);
      }
      if !ok {
        var r := Outcome(item, turn, if blocks == [] then Unparsed else Addendum, Received, messageId);
        FilesOut(config, now, d, t, blocks);
        ghost var r' := NothingFiled(config, now.rows, messageId, item, turn, blocks);
        steps := Stop(s, r, d, others, steps);
        assert NewRow(now.rows, rows, r');
        return;
      }
      FilesIn(config, now, d, t, blocks);
      assert NewRow(now.rows, rows, rows[|now.rows|]);
      hide NewRow;
      if turn <= config.maxTurns {
        steps := ConfirmFiled(s, delivers, d, others, steps);
      }
    }

    // Tell the student that the request, the last row, was received.
    method ConfirmFiled(ghost s0: State, delivers: bool, ghost d: int, ghost others: map<int, Task>, ghost before: seq<Step>)
      returns (ghost steps: seq<Step>)
      requires rows != [] && d !in others && StepsOf(before, d)
      requires Run(config, s0, before) == Put(Now(others), d, Confirming(|rows| - 1))
      modifies this`mails
      ensures StepsOf(steps, d) && Now(others) == Run(config, s0, steps)
      ensures mails == old(mails) + [Confirmation(|rows| - 1, delivers)]
    {
      hide Apply, Run, Put;
      Confirms(config, Now(others), d, |rows| - 1, delivers);
      Deliver(Confirmation(|rows| - 1, delivers));
      steps := before + [Confirm(d, delivers)];
      RunSnoc(config, s0, before, Confirm(d, delivers));
    }

    // walkRegradeChain: rungs 1 and 2, sender and deadline, the consumed-token check, then filing.
    method WalkRegradeChain(inb: Inbound, delivers: bool, ghost d: int, ghost others: map<int, Task>) returns (ghost trace: seq<Step>)
      requires d !in others
      modifies this`rows, this`mails
      ensures Took(d, inb, trace)
      ensures Now(others) == Run(config, old(Now(others)), trace)
      ensures KnownMessage(old(rows), inb.messageId) ==> rows == old(rows) && mails == old(mails)
      ensures exists r :: AnsweredAs(config, old(Now(others)), inb, r) && NewRow(old(rows), rows, r)
      ensures mails == if |rows| > |old(rows)| && rows[|old(rows)|].kind == Filed then old(mails) + [Confirmation(|old(rows)|, delivers)] else old(mails)
    {
      ghost var s := Now(others);
      hide Run, Apply, Advance, Put, Consumed;
      var bound;
      bound, trace := BindToken(inb, d, others);
      if bound.Some? {
        var item, turn := bound.value.0, bound.value.1;
        var rest := Adjudicate(inb, item, turn, delivers, d, others);
        RunConcat(config, s, trace, rest);
        TookMore(d, inb, trace, rest);
        trace := trace + rest;
      }
      ReplayOf(config, s, d, inb, trace);
    }

    // From a bound turn: sender, deadline and consumed token, then filing.
    method Adjudicate(inb: Inbound, item: int, turn: int, delivers: bool, ghost d: int, ghost others: map<int, Task>)
      returns (ghost steps: seq<Step>)
      requires d !in others
      modifies this`rows, this`mails
      ensures StepsOf(steps, d)
      ensures Now(others) == Run(config, Put(old(Now(others)), d, Bound(inb.messageId, item, turn)), steps)
      ensures exists r :: JudgedAs(config, old(rows), inb, item, turn, r) && NewRow(old(rows), rows, r)
      ensures mails == if |rows| > |old(rows)| && rows[|old(rows)|].kind == Filed then old(mails) + [Confirmation(|old(rows)|, delivers)] else old(mails)
    {
      ghost var s := Now(others);
      ghost var t := Bound(inb.messageId, item, turn);
      hide Run, Apply, Advance, Put, Consumed;
      RunNothing(config, Put(s, d, t));
      Rung3(config, s, inb, item, turn, d);
      ghost var at;
      at, steps := Onward(config, s, d, Put(s, d, t), [], t, Admit(d, inb.senderMatches, inb.inTime));
      if !inb.senderMatches || !inb.inTime {
        var status := if !inb.senderMatches then RejectedSender else RejectedDeadline;
        steps := Stop(Put(s, d, t), Outcome(item, turn, Unparsed, status, inb.messageId), d, others, steps);
        return;
      }
      at, steps := Onward(config, s, d, Put(s, d, t), steps, at, Check(d));
      var consumed := ConsumedTokenExists(item, turn);
      if consumed {
        steps := Stop(Put(s, d, t), Outcome(item, turn, Addendum, Received, inb.messageId), d, others, steps);
        return;
      }
      var filing := FileReply(inb.messageId, item, turn, inb.blocks, delivers, d, others);
      RunConcat(config, Put(s, d, t), steps, filing);
      steps := steps + filing;
    }

    // Record the outcome of a bound delivery that stops here.
    method Stop(ghost s0: State, r: Request, ghost d: int, ghost others: map<int, Task>, ghost before: seq<Step>)
      returns (ghost steps: seq<Step>)
      requires d !in others && StepsOf(before, d)
      requires Run(config, s0, before) == Put(Now(others), d, Recording(r))
      modifies this`rows
      ensures StepsOf(steps, d) && Now(others) == Run(config, s0, steps)
      ensures r.kind != Filed ==> NewRow(old(rows), rows, r)
    {
      assert Now(others[d := Recording(r)]) == Put(Now(others), d, Recording(r));
      hide Run, Apply;
      Record(r, d, others);
      steps := before + [RegradeChain.Record(d)];
      RunSnoc(config, s0, before, RegradeChain.Record(d));
    }

    // ---- result emails ----

    // Listing the problems, minting the next-turn token, rendering: fails on a missing outcome.
    method BuildResultEmail(k: nat) returns (listed: Option<seq<SubItem>>)
      requires k < |rows|
      modifies this`minted
      ensures minted == if config.replies then old(minted) + {(rows[k].item, rows[k].turn + 1)} else old(minted)
      ensures listed == if AllVerdicted(rows[k].subs) then Some(rows[k].subs) else None
    {
      var views: seq<SubItem> := [];
      if config.replies {
        minted := minted + {(rows[k].item, rows[k].turn + 1)};
      }
      for j := 0 to |rows[k].subs|
        invariant views == rows[k].subs[..j] && AllVerdicted(views)
      {
        if rows[k].subs[j].verdict == None {
          return None;
        }
        views := views + [rows[k].subs[j]];
      }
      assert rows[k].subs[..|rows[k].subs|] == rows[k].subs;
      listed := Some(views);
    }

    // handleSendResult: gate, build, flip, send, mark. The reply says whether the email went out.
    method SendResult(k: nat, delivers: bool, ghost d: int, ghost others: map<int, Task>)
      returns (reply: Reply)
      requires d !in others
      modifies this`rows, this`minted, this`mails
      ensures Now(others) == Run(config, old(Now(others)), SendTrace(config, old(Now(others)), k, d, delivers))
      ensures reply == Conflict ==> rows == old(rows) && mails == old(mails)
      ensures reply != Conflict ==>
                && k < |old(rows)| && old(rows)[k].kind == Filed && IsOpen(old(rows)[k].status)
                && old(rows)[k].subs != [] && AllVerdicted(old(rows)[k].subs)
                && rows == old(rows)[k := old(rows)[k].(
                     status := if AllUpheld(old(rows)[k].subs) then ResolvedUpheld else ResolvedRegraded,
                     sentAt := old(rows)[k].sentAt || (config.wired && delivers))]
                && mails == if config.wired then old(mails) + [Result(k, old(rows)[k].subs, true, delivers)] else old(mails)
      ensures reply == Done <==> reply != Conflict && (config.wired ==> delivers)
      ensures reply != Conflict ==> rows[k].status == Judgement(old(rows)[k].subs)
      ensures reply == Conflict <==> !(k < |old(rows)| && Sendable(old(rows)[k]))
    {
      ghost var s := Now(others);
      if k < |rows| {
        InWords(rows[k]);
      }
      hide AllVerdicted, AllUpheld, Run, Sendable, Judgement;
      if k >= |rows| || rows[k].kind != Filed || !IsOpen(rows[k].status) {
        RunOneStep(config, s, StartSend(d, k));
        return Conflict;
      }
      SendSteps(config, s, k, d, delivers);
      var open := AllProblemsVerdicted(k);
      if !open {
        return Conflict;
      }
      SentState(config, s, k, delivers);
      hide Sent;
      reply := Transmit(k, delivers);
    }

    // Build the email, flip the request, send, mark.
    method Transmit(k: nat, delivers: bool) returns (reply: Reply)
      requires k < |rows| && IsOpen(rows[k].status) && AllVerdicted(rows[k].subs)
      modifies this`rows, this`minted, this`mails
      ensures minted == if config.replies then old(minted) + {(old(rows)[k].item, old(rows)[k].turn + 1)} else old(minted)
      ensures rows == old(rows)[k := old(rows)[k].(
                status := if AllUpheld(old(rows)[k].subs) then ResolvedUpheld else ResolvedRegraded,
                sentAt := old(rows)[k].sentAt || (config.wired && delivers))]
      ensures mails == if config.wired then old(mails) + [Result(k, old(rows)[k].subs, true, delivers)] else old(mails)
      ensures reply == if config.wired ==> delivers then Done else Failed
    {
      hide AllVerdicted, AllUpheld;
      var listed := BuildResultEmail(k);
      var won := ResolveRequest(k, if AllUpheld(listed.value) then ResolvedUpheld else ResolvedRegraded);
      if config.wired {
        Deliver(Result(k, listed.value, true, delivers));
        if !delivers {
          return Failed;
        }
        rows := rows[k := rows[k].(sentAt := true)];
      }
      reply := Done;
    }

    // handleResendResult: send first, then mark.
    method ResendResult(k: nat, delivers: bool, ghost d: int, ghost others: map<int, Task>)
      returns (reply: Reply)
      requires d !in others
      modifies this`rows, this`minted, this`mails
      ensures Now(others) == Run(config, old(Now(others)), ResendTrace(config, old(Now(others)), k, d, delivers))
      ensures reply == Conflict <==> !Undelivered(old(Now(others)), k)
      ensures reply == Done <==>
              Undelivered(old(Now(others)), k) && AllVerdicted(old(rows)[k].subs) && (config.wired ==> delivers)
      ensures rows == if reply == Done then old(rows)[k := old(rows)[k].(sentAt := true)] else old(rows)
      ensures mails == if reply != Conflict && AllVerdicted(old(rows)[k].subs) && config.wired
                       then old(mails) + [Result(k, old(rows)[k].subs, false, delivers)] else old(mails)
    {
      hide AllVerdicted, Run;
      ghost var s := Now(others);
      if k >= |rows| || rows[k].kind != Filed || !IsResolved(rows[k].status) || rows[k].sentAt {
        RunOneStep(config, s, StartResend(d, k));
        return Conflict;
      }
      ResendStepsRun(config, s, k, d, delivers);
      var listed := BuildResultEmail(k);
      if listed == None {
        return Failed;
      }
      if config.wired {
        Deliver(Result(k, listed.value, false, delivers));
        if !delivers {
          return Failed;
        }
      }
      rows := rows[k := rows[k].(sentAt := true)];
      reply := Done;
    }

    // ---- single-step handlers ----

    method Remind(k: nat, delivers: bool, ghost tasks: map<int, Task>) returns (reply: Reply)
      modifies this`rows, this`mails
      ensures Now(tasks) == Apply(config, old(Now(tasks)), RegradeChain.Remind(k, delivers))
      ensures reply == Done ==> k < |old(rows)| && rows == old(rows)[k := old(rows)[k].(status := ResolvedUpheld)]
      ensures reply == Conflict <==>
              !(k < |old(rows)| && old(rows)[k].kind == Unparsed && (old(rows)[k].status == Received || old(rows)[k].status == UnderReview)
                && old(rows)[k].item != 0 && old(rows)[k].turn != 0)
      ensures reply == Done <==> reply != Conflict && (config.wired ==> delivers)
      ensures reply != Done ==> rows == old(rows)
      ensures mails == if reply != Conflict && config.wired then old(mails) + [Reminder(k, delivers)] else old(mails)
    {
      if k >= |rows| || rows[k].kind != Unparsed || !IsOpen(rows[k].status) || rows[k].item == 0 || rows[k].turn == 0 {
        return Conflict;
      }
      if config.wired {
        Deliver(Reminder(k, delivers));
        if !delivers {
          return Failed;
        }
      }
      var won := ResolveRequest(k, ResolvedUpheld);
      reply := Done;
    }

    method AddProblem(k: nat, problem: int, ghost tasks: map<int, Task>) returns (reply: Reply)
      modifies this`rows
      ensures Now(tasks) == Apply(config, old(Now(tasks)), RegradeChain.AddProblem(k, problem))
      ensures reply == Done <==> k < |old(rows)| && old(rows)[k].kind == Filed && !HasProblem(old(rows)[k].subs, problem)
      ensures rows == if reply == Done then old(rows)[k := old(rows)[k].(subs := old(rows)[k].subs + [SubItem(problem, None)])] else old(rows)
    {
      if k >= |rows| || rows[k].kind != Filed || HasProblem(rows[k].subs, problem) {
        return Conflict;
      }
      rows := rows[k := rows[k].(subs := rows[k].subs + [SubItem(problem, None)])];
      reply := Done;
    }

    method PatchVerdict(k: nat, j: nat, v: Verdict, ghost tasks: map<int, Task>) returns (reply: Reply)
      modifies this`rows
      ensures Now(tasks) == Apply(config, old(Now(tasks)), SetVerdict(k, j, v))
      ensures reply == Done <==>
              k < |old(rows)| && old(rows)[k].kind == Filed && IsOpen(old(rows)[k].status) && j < |old(rows)[k].subs|
      ensures rows == if reply != Done then old(rows)
                      else old(rows)[k := old(rows)[k].(subs := old(rows)[k].subs[j := SubItem(old(rows)[k].subs[j].problem, Some(v))])]
    {
      if k >= |rows| || rows[k].kind != Filed || !IsOpen(rows[k].status) || j >= |rows[k].subs| {
        return Conflict;
      }
      rows := rows[k := rows[k].(subs := rows[k].subs[j := rows[k].subs[j].(verdict := Some(v))])];
      reply := Done;
    }
  }

  // The steps of send-result run alone.
  function SendTrace(c: Config, s: State, k: nat, d: int, ok: bool): seq<Step> {
    var first := [StartSend(d, k)] + [Gate(d)];
    var all := first + [Build(d)] + [Flip(d)] + [Send(d, ok)];
    if k >= |s.rows| || s.rows[k].kind != Filed || !IsOpen(s.rows[k].status) then [StartSend(d, k)]
    else if s.rows[k].subs == [] || !AllVerdicted(s.rows[k].subs) then first
    else if c.wired && ok then all + [Mark(d)]
    else all
  }

  function ResendTrace(c: Config, s: State, k: nat, d: int, ok: bool): seq<Step> {
    var first := [StartResend(d, k)] + [Build(d)];
    if k >= |s.rows| || s.rows[k].kind != Filed || !IsResolved(s.rows[k].status) || s.rows[k].sentAt then [StartResend(d, k)]
    else if !AllVerdicted(s.rows[k].subs) then first
    else if c.wired && !ok then first + [Resend(d, ok)]
    else first + [Resend(d, ok)] + [Mark(d)]
  }

  // The steps of one delivery, from its arrival on.
  predicate Took(d: int, inb: Inbound, trace: seq<Step>) {
    |trace| > 0 && trace[0] == Deliver(d, inb.messageId, inb.token) && StepsOf(trace[1..], d)
  }

  lemma Arrives(c: Config, s: State, d: int, inb: Inbound)
    requires d !in s.tasks
    ensures Run(c, s, [Deliver(d, inb.messageId, inb.token)]) ==
      Put(s, d, if inb.token.Some? && inb.token.value in s.minted then Arrived(inb.messageId, inb.token.value.0, inb.token.value.1)
                else Recording(Outcome(0, 0, Unparsed, RejectedBadToken, inb.messageId)))
  {
    RunNothing(c, s);
    RunSnoc(c, s, [], Deliver(d, inb.messageId, inb.token));
    assert [] + [Deliver(d, inb.messageId, inb.token)] == [Deliver(d, inb.messageId, inb.token)];
  }

  lemma AdvanceIgnoresTasks(c: Config, s: State, d: int, t: Task, step: Step)
    ensures Advance(c, Put(s, d, t), t, step) == Advance(c, s, t, step)
  {
  }

  // One read of a handler: the trace grows by its step, and the handler stands where it leads.
  lemma Walk(c: Config, s: State, d: int, inb: Inbound, trace: seq<Step>, t: Task, step: Step) returns (t': Task, trace': seq<Step>)
    requires Run(c, s, trace) == Put(s, d, t) && ReadsOnly(step) && step.task == d && Took(d, inb, trace)
    ensures t' == Advance(c, s, t, step) && trace' == trace + [step]
    ensures Run(c, s, trace') == Put(s, d, t') && Took(d, inb, trace')
  {
    t', trace' := Advance(c, s, t, step), trace + [step];
    AdvanceIgnoresTasks(c, s, d, t, step);
    assert Apply(c, Put(s, d, t), step) == Put(s, d, t');
    hide Apply, Advance, Put;
    RunSnoc(c, s, trace, step);
    assert trace'[1..] == trace[1..] + [step];
  }

  lemma Rung1(c: Config, s: State, messageId: string, item: int, turn: int, d: int)
    ensures Advance(c, s, Arrived(messageId, item, turn), Lookup(d)) ==
      if item !in s.items then Recording(Outcome(0, 0, Unparsed, RejectedBadToken, messageId))
      else if s.items[item].superseded then Stale(messageId, item, turn)
      else Bound(messageId, item, turn)
  {
  }

  lemma Rung2(c: Config, s: State, messageId: string, item: int, turn: int, d: int, live: Option<int>)
    ensures Advance(c, s, Stale(messageId, item, turn), FindLive(d, live)) ==
      if live.Some? && IsLiveFor(s.items, item, live.value) then Rebound(messageId, live.value)
      else Recording(Outcome(item, turn, Unparsed, RejectedSuperseded, messageId))
    ensures live.Some? ==>
              Advance(c, s, Rebound(messageId, live.value), NextTurn(d))
              == Bound(messageId, live.value, Capped(c, NextOpenTurn(s.rows, live.value)))
  {
  }

  lemma RepeatedProblem(blocks: seq<int>, j: nat)
    requires j < |blocks| && HasProblem(Contested(blocks[..j]), blocks[j])
    ensures !Distinct(blocks)
  {
    var i :| 0 <= i < j && Contested(blocks[..j])[i].problem == blocks[j];
    assert blocks[i] == blocks[j];
  }

  lemma NewProblem(blocks: seq<int>, j: nat)
    requires j < |blocks| && Distinct(blocks[..j]) && !HasProblem(Contested(blocks[..j]), blocks[j])
    ensures Distinct(blocks[..j + 1]) && Contested(blocks[..j + 1]) == Contested(blocks[..j]) + [SubItem(blocks[j], None)]
  {
    forall i | 0 <= i < j
      ensures blocks[i] != blocks[j]
    {
      assert Contested(blocks[..j])[i].problem == blocks[i];
    }
  }

  lemma RunOneStep(c: Config, s: State, step: Step)
    ensures Run(c, s, [step]) == Apply(c, s, step)
  {
    hide Apply;
    RunNothing(c, s);
    RunSnoc(c, s, [], step);
    assert [] + [step] == [step];
  }

  lemma FilesOut(c: Config, s: State, d: int, t: Task, blocks: seq<int>)
    requires t.Unconsumed? && d !in s.tasks
    requires blocks == [] || UniqueViolation(s.rows, Outcome(t.item, t.turn, Filed, Received, t.messageId).(subs := Contested(blocks))) || !Distinct(blocks)
    ensures Apply(c, Put(s, d, t), File(d, blocks)) ==
            Put(s, d, Recording(Outcome(t.item, t.turn, if blocks == [] then Unparsed else Addendum, Received, t.messageId)))
    ensures blocks == [] || !Distinct(blocks) || KnownMessage(s.rows, t.messageId) || SlotTaken(s.rows, t.item, t.turn)
  {
    PutEnd(s, d, t, Recording(Outcome(t.item, t.turn, if blocks == [] then Unparsed else Addendum, Received, t.messageId)));
    FilesEach(c, s.rows, t.messageId, t.item, t.turn, blocks);
    hide UniqueViolation, Distinct, Contested, FiledAs;
  }

  lemma FilesIn(c: Config, s: State, d: int, t: Task, blocks: seq<int>)
    requires t.Unconsumed? && d !in s.tasks && blocks != [] && Distinct(blocks)
    requires !UniqueViolation(s.rows, Outcome(t.item, t.turn, Filed, Received, t.messageId).(subs := Contested(blocks)))
    ensures var filed := Outcome(t.item, t.turn, Filed, Received, t.messageId).(subs := Contested(blocks));
            var r := if t.turn > c.maxTurns then filed.(kind := HandedOff) else filed;
            && FiledAs(c, s.rows, t.messageId, t.item, t.turn, blocks, r) && !KnownMessage(s.rows, t.messageId)
            && Apply(c, Put(s, d, t), File(d, blocks))
               == if t.turn > c.maxTurns then InsertRow(s, r) else Put(InsertRow(s, r), d, Confirming(|s.rows|))
  {
    var filed := Outcome(t.item, t.turn, Filed, Received, t.messageId).(subs := Contested(blocks));
    PutEnd(s, d, t, Confirming(|s.rows|));
    FilesEach(c, s.rows, t.messageId, t.item, t.turn, blocks);
    PutEnd(InsertRow(s, filed), d, t, Confirming(|s.rows|));
    assert End(InsertRow(Put(s, d, t), filed.(kind := HandedOff)), d) == InsertRow(End(Put(s, d, t), d), filed.(kind := HandedOff));
    hide UniqueViolation, Distinct, Contested, FiledAs, KnownMessage;
  }

  // The row the filing transaction lets in is the reply's, problem by problem.
  lemma FilesEach(c: Config, rows: seq<Request>, messageId: string, item: int, turn: int, blocks: seq<int>)
    ensures var filed := Outcome(item, turn, Filed, Received, messageId).(subs := Contested(blocks));
            && UniqueViolation(rows, filed) == (KnownMessage(rows, messageId) || SlotTaken(rows, item, turn))
            && (blocks != [] && Distinct(blocks) && !SlotTaken(rows, item, turn) ==>
                  FiledAs(c, rows, messageId, item, turn, blocks, if turn > c.maxTurns then filed.(kind := HandedOff) else filed))
  {
  }

  // Over every run: a row that consumes a turn comes from the filing of a reply, and is its row.
  lemma FilingIsReplys(c: Config, steps: seq<Step>, step: Step)
    requires ValidConfig(c)
    requires var s := Run(c, Start(), steps);
             var s' := Apply(c, s, step);
             |s'.rows| > |s.rows| && Consumes(s'.rows[|s.rows|])
    ensures var s := Run(c, Start(), steps);
            && step.File? && step.task in s.tasks && s.tasks[step.task].Unconsumed?
            && var t := s.tasks[step.task];
               var r := Apply(c, s, step).rows[|s.rows|];
               && step.blocks != [] && Distinct(step.blocks) && !KnownMessage(s.rows, t.messageId) && !SlotTaken(s.rows, t.item, t.turn)
               && FiledAs(c, s.rows, t.messageId, t.item, t.turn, step.blocks, r)
               && Apply(c, s, step).rows == s.rows + [r]
  {
    var s := Run(c, Start(), steps);
    ChainedRun(c, steps);
    hide Run;
    ConsumingByFile(c, s, step);
    var t := s.tasks[step.task];
    FilesEach(c, s.rows, t.messageId, t.item, t.turn, step.blocks);
    hide UniqueViolation, Distinct, Contested, KnownMessage, SlotTaken, FiledAs;
  }

  lemma ConsumingByFile(c: Config, s: State, step: Step)
    requires Chained(c, s)
    requires var s' := Apply(c, s, step); |s'.rows| > |s.rows| && Consumes(s'.rows[|s.rows|])
    ensures step.File? && step.task in s.tasks && s.tasks[step.task].Unconsumed?
  {
    assert ByTask(step) && step.task in s.tasks;
    assert TaskOk(c, s.rows, s.tasks[step.task]);
    hide Chained, UniqueViolation, Distinct, Contested, Advance, Consumed;
  }

  lemma NothingFiled(c: Config, rows: seq<Request>, messageId: string, item: int, turn: int, blocks: seq<int>) returns (r: Request)
    requires blocks == [] || !Distinct(blocks) || SlotTaken(rows, item, turn) || KnownMessage(rows, messageId)
    ensures FiledAs(c, rows, messageId, item, turn, blocks, r) && r.messageId == messageId
    ensures r == Outcome(item, turn, if blocks == [] then Unparsed else Addendum, Received, messageId) || KnownMessage(rows, messageId)
  {
    r := Outcome(item, turn, if blocks == [] then Unparsed else Addendum, Received, messageId);
    if blocks != [] && Distinct(blocks) && !SlotTaken(rows, item, turn) {
      FilesEach(c, rows, messageId, item, turn, blocks);
      var filed := Outcome(item, turn, Filed, Received, messageId).(subs := Contested(blocks));
      r := if turn > c.maxTurns then filed.(kind := HandedOff) else filed;
    }
  }

  lemma Confirms(c: Config, s: State, d: int, k: nat, ok: bool)
    requires d !in s.tasks
    ensures Apply(c, Put(s, d, Confirming(k)), Confirm(d, ok)) == AddMail(s, Confirmation(k, ok))
  {
    assert s.tasks[d := Confirming(k)] - {d} == s.tasks;
  }

  lemma TookMore(d: int, inb: Inbound, trace: seq<Step>, rest: seq<Step>)
    requires Took(d, inb, trace) && StepsOf(rest, d)
    ensures Took(d, inb, trace + rest)
  {
    assert (trace + rest)[1..] == trace[1..] + rest;
  }

  lemma Rung3(c: Config, s: State, inb: Inbound, item: int, turn: int, d: int)
    ensures Advance(c, s, Bound(inb.messageId, item, turn), Admit(d, inb.senderMatches, inb.inTime)) ==
      if !inb.senderMatches then Recording(Outcome(item, turn, Unparsed, RejectedSender, inb.messageId))
      else if !inb.inTime then Recording(Outcome(item, turn, Unparsed, RejectedDeadline, inb.messageId))
      else Admitted(inb.messageId, item, turn)
    ensures Advance(c, s, Admitted(inb.messageId, item, turn), Check(d)) ==
      if Consumed(s.rows, item, turn) then Recording(Outcome(item, turn, Addendum, Received, inb.messageId))
      else Unconsumed(inb.messageId, item, turn)
  {
  }

  // One read of a bound delivery.
  lemma Onward(c: Config, s: State, d: int, s0: State, steps: seq<Step>, t: Task, step: Step) returns (t': Task, steps': seq<Step>)
    requires Run(c, s0, steps) == Put(s, d, t) && ReadsOnly(step) && step.task == d && StepsOf(steps, d)
    ensures t' == Advance(c, s, t, step) && steps' == steps + [step]
    ensures Run(c, s0, steps') == Put(s, d, t') && StepsOf(steps', d)
  {
    t', steps' := Advance(c, s, t, step), steps + [step];
    AdvanceIgnoresTasks(c, s, d, t, step);
    assert Apply(c, Put(s, d, t), step) == Put(s, d, t');
    hide Apply, Advance, Put;
    RunSnoc(c, s0, steps, step);
  }

  lemma ReplayOf(c: Config, s: State, d: int, inb: Inbound, trace: seq<Step>)
    requires Took(d, inb, trace) && d !in s.tasks
    ensures KnownMessage(s.rows, inb.messageId) ==> SameTrace(s, Run(c, s, trace))
  {
    hide Apply, Run, SameTrace;
    if KnownMessage(s.rows, inb.messageId) {
      ReplayLeavesNothing(c, s, d, inb.messageId, inb.token, trace[1..]);
      RunConcat(c, s, [trace[0]], trace[1..]);
      RunOneStep(c, s, trace[0]);
      assert [trace[0]] + trace[1..] == trace;
    }
  }

  function Mint(c: Config, s: State, k: nat): State
    requires k < |s.rows|
  {
    if c.replies then s.(minted := s.minted + {(s.rows[k].item, s.rows[k].turn + 1)}) else s
  }

  function Resolution(subs: seq<SubItem>): Status {
    if AllUpheld(subs) then ResolvedUpheld else ResolvedRegraded
  }

  // What send-result, run alone on an open filed request, leaves behind.
  function Sent(c: Config, s: State, k: nat, ok: bool): State
    requires k < |s.rows|
  {
    var r := s.rows[k];
    if r.subs == [] || !AllVerdicted(r.subs) then s
    else
      var flipped := UpdateRow(Mint(c, s, k), k, r.(status := Resolution(r.subs)));
      if !c.wired then flipped
      else
        var mailed := AddMail(flipped, Result(k, r.subs, true, ok));
        if ok then UpdateRow(mailed, k, r.(status := Resolution(r.subs), sentAt := true)) else mailed
  }

  lemma SentState(c: Config, s: State, k: nat, ok: bool)
    requires k < |s.rows| && s.rows[k].subs != [] && AllVerdicted(s.rows[k].subs)
    ensures var r := s.rows[k];
            Sent(c, s, k, ok) == State(
              s.items, if c.replies then s.minted + {(r.item, r.turn + 1)} else s.minted,
              s.rows[k := r.(status := if AllUpheld(r.subs) then ResolvedUpheld else ResolvedRegraded, sentAt := r.sentAt || (c.wired && ok))],
              if c.wired then s.mails + [Result(k, r.subs, true, ok)] else s.mails, s.tasks)
  {
    hide AllVerdicted, AllUpheld;
  }

  lemma PutEnd(s: State, d: int, t: Task, t': Task)
    requires d !in s.tasks
    ensures End(Put(s, d, t), d) == s && Put(Put(s, d, t), d, t') == Put(s, d, t')
  {
    assert s.tasks[d := t] - {d} == s.tasks;
  }

  lemma SendApplies(c: Config, s: State, k: nat, d: int)
    requires k < |s.rows| && s.rows[k].kind == Filed && IsOpen(s.rows[k].status) && d !in s.tasks
    ensures var subs := s.rows[k].subs;
            && Apply(c, s, StartSend(d, k)) == Put(s, d, Gating(k))
            && Apply(c, Put(s, d, Gating(k)), Gate(d)) == (if subs != [] && AllVerdicted(subs) then Put(s, d, Building(k)) else s)
            && (AllVerdicted(subs) ==> Apply(c, Put(s, d, Building(k)), Build(d)) == Put(Mint(c, s, k), d, Flipping(k, subs)))
  {
    var subs := s.rows[k].subs;
    PutEnd(s, d, Gating(k), Building(k));
    PutEnd(s, d, Building(k), Flipping(k, subs));
    hide AllVerdicted;
  }

  lemma FlipApplies(c: Config, s: State, k: nat, d: int, listed: seq<SubItem>, ok: bool)
    requires k < |s.rows| && IsOpen(s.rows[k].status) && d !in s.tasks
    ensures var flipped := UpdateRow(s, k, s.rows[k].(status := Resolution(listed)));
            var mailed := AddMail(flipped, Result(k, listed, true, ok));
            && Apply(c, Put(s, d, Flipping(k, listed)), Flip(d)) == Put(flipped, d, Sending(k, listed))
            && Apply(c, Put(flipped, d, Sending(k, listed)), Send(d, ok)) ==
                 (if !c.wired then flipped else if ok then Put(mailed, d, Marking(k)) else mailed)
  {
    var flipped := UpdateRow(s, k, s.rows[k].(status := Resolution(listed)));
    PutEnd(s, d, Flipping(k, listed), Sending(k, listed));
    PutEnd(flipped, d, Sending(k, listed), Marking(k));
    hide AllUpheld;
  }

  lemma MarkApplies(c: Config, s: State, k: nat, d: int)
    requires k < |s.rows| && d !in s.tasks
    ensures Apply(c, Put(s, d, Marking(k)), Mark(d)) == UpdateRow(s, k, s.rows[k].(sentAt := true))
  {
    PutEnd(s, d, Marking(k), Marking(k));
  }

  lemma SendSteps(c: Config, s: State, k: nat, d: int, ok: bool)
    requires k < |s.rows| && s.rows[k].kind == Filed && IsOpen(s.rows[k].status) && d !in s.tasks
    ensures Run(c, s, SendTrace(c, s, k, d, ok)) == Sent(c, s, k, ok)
  {
    var subs := s.rows[k].subs;
    var t1 := [StartSend(d, k)];
    RunOneStep(c, s, StartSend(d, k));
    SendApplies(c, s, k, d);
    if subs == [] || !AllVerdicted(subs) {
      hide Apply, Run;
      RunSnoc(c, s, t1, Gate(d));
    } else {
      var m := Mint(c, s, k);
      FlipApplies(c, m, k, d, subs, ok);
      var flipped := UpdateRow(m, k, m.rows[k].(status := Resolution(subs)));
      var mailed := AddMail(flipped, Result(k, subs, true, ok));
      MarkApplies(c, mailed, k, d);
      hide Apply, Run, Put, UpdateRow, AllVerdicted, AllUpheld;
      var t2 := t1 + [Gate(d)];
      var t3 := t2 + [Build(d)];
      var t4 := t3 + [Flip(d)];
      var t5 := t4 + [Send(d, ok)];
      RunSnoc(c, s, t1, Gate(d));
      RunSnoc(c, s, t2, Build(d));
      RunSnoc(c, s, t3, Flip(d));
      RunSnoc(c, s, t4, Send(d, ok));
      RunSnoc(c, s, t5, Mark(d));
    }
  }

  function Resent(c: Config, s: State, k: nat, ok: bool): State
    requires k < |s.rows|
  {
    var r := s.rows[k];
    var built := Mint(c, s, k);
    if !AllVerdicted(r.subs) then built
    else
      var mailed := if c.wired then AddMail(built, Result(k, r.subs, false, ok)) else built;
      if c.wired && !ok then mailed else UpdateRow(mailed, k, r.(sentAt := true))
  }

  lemma ResendApplies(c: Config, s: State, k: nat, d: int, ok: bool)
    requires Undelivered(s, k) && d !in s.tasks
    ensures var subs := s.rows[k].subs;
            var m := Mint(c, s, k);
            var mailed := if c.wired then AddMail(m, Result(k, subs, false, ok)) else m;
            && Apply(c, s, StartResend(d, k)) == Put(s, d, Rebuilding(k))
            && Apply(c, Put(s, d, Rebuilding(k)), Build(d)) == (if AllVerdicted(subs) then Put(m, d, Resending(k, subs)) else m)
            && Apply(c, Put(m, d, Resending(k, subs)), Resend(d, ok)) == if c.wired && !ok then mailed else Put(mailed, d, Marking(k))
  {
    var subs := s.rows[k].subs;
    PutEnd(s, d, Rebuilding(k), Resending(k, subs));
    PutEnd(Mint(c, s, k), d, Resending(k, subs), Marking(k));
    hide AllVerdicted;
  }

  lemma ResendStepsRun(c: Config, s: State, k: nat, d: int, ok: bool)
    requires Undelivered(s, k) && d !in s.tasks
    ensures Run(c, s, ResendTrace(c, s, k, d, ok)) == Resent(c, s, k, ok)
  {
    var subs := s.rows[k].subs;
    var m := Mint(c, s, k);
    var mailed := if c.wired then AddMail(m, Result(k, subs, false, ok)) else m;
    RunOneStep(c, s, StartResend(d, k));
    ResendApplies(c, s, k, d, ok);
    MarkApplies(c, mailed, k, d);
    hide Apply, Run, Put, UpdateRow, AllVerdicted;
    var t1 := [StartResend(d, k)];
    var t2 := t1 + [Build(d)];
    var t3 := t2 + [Resend(d, ok)];
    RunSnoc(c, s, t1, Build(d));
    if AllVerdicted(subs) {
      RunSnoc(c, s, t2, Resend(d, ok));
      RunSnoc(c, s, t3, Mark(d));
    }
  }
}
