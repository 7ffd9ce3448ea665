/** What happens at most once in the regrade protocol, and what never happens again. */
module RegradeOnce {
  import opened Wrappers
  import opened RegradeChain
  import opened RegradeSlots

  // ---- how rows change ----

  predicate SubsGrow(subs: seq<SubItem>, subs': seq<SubItem>) {
    && |subs| <= |subs'|
    && forall j :: 0 <= j < |subs| ==>
         subs'[j].problem == subs[j].problem && (subs[j].verdict.Some? ==> subs'[j].verdict.Some?)
  }

  // A row keeps its slot, kind, message and problems; a verdict or a delivery mark stays; and a
  // resolved status never changes again.
  predicate RowEvolves(r: Request, r': Request) {
    && r'.item == r.item && r'.turn == r.turn && r'.kind == r.kind && r'.messageId == r.messageId
    && SubsGrow(r.subs, r'.subs)
    && (r.sentAt ==> r'.sentAt)
    && (IsResolved(r.status) ==> r'.status == r.status)
  }

  // A row the unique indexes let in; one that consumes a turn has problems to judge.
  predicate FreshRow(rows: seq<Request>, r: Request) {
    && !UniqueViolation(rows, r)
    && (Consumes(r) ==> r.subs != [])
    && !r.sentAt
  }

  ghost predicate Evolves(s: State, s': State) {
    && |s.rows| <= |s'.rows| <= |s.rows| + 1
    && (forall k :: 0 <= k < |s.rows| ==> RowEvolves(s.rows[k], s'.rows[k]))
    && (|s'.rows| == |s.rows| + 1 ==> FreshRow(s.rows, s'.rows[|s.rows|]))
  }

  lemma SameRowsEvolve(s: State, s': State)
    requires s.rows == s'.rows
    ensures Evolves(s, s')
  {
  }

  lemma RowUpdateEvolves(s: State, s': State, k: nat, r: Request)
    requires k < |s.rows| && s'.rows == s.rows[k := r] && RowEvolves(s.rows[k], r)
    ensures Evolves(s, s')
  {
    forall j | 0 <= j < |s.rows|
      ensures RowEvolves(s.rows[j], s'.rows[j])
    {
    }
    hide RowEvolves;
  }

  lemma RowInsertEvolves(s: State, s': State, r: Request)
    requires s'.rows == s.rows + [r] && FreshRow(s.rows, r)
    ensures Evolves(s, s')
  {
    hide FreshRow;
  }

  lemma FileEvolves(c: Config, s: State, d: int, t: Task, blocks: seq<int>)
    requires t.Unconsumed?
    ensures Evolves(s, DoFile(c, s, d, t, blocks))
  {
    var s' := DoFile(c, s, d, t, blocks);
    var r := Filing(t, blocks);
    hide Distinct, KnownMessage, SlotTaken, Evolves;
    if s'.rows == s.rows {
      SameRowsEvolve(s, s');
    } else if t.turn > c.maxTurns {
      RowInsertEvolves(s, s', r.(kind := HandedOff));
    } else {
      RowInsertEvolves(s, s', r);
    }
  }

  lemma TaskEvolves(c: Config, s: State, d: int, t: Task, step: Step)
    requires TaskOk(c, s.rows, t)
    ensures Evolves(s, TaskStep(c, s, d, t, step))
  {
    var s' := TaskStep(c, s, d, t, step);
    hide Advance, Consumed, AllVerdicted, AllUpheld, Evolves, UniqueViolation, DoFile, TurnOk;
    if step.File? && t.Unconsumed? {
      FileEvolves(c, s, d, t, step.blocks);
    } else if step.Record? && t.Recording? && !UniqueViolation(s.rows, t.entry) {
      RowInsertEvolves(s, s', t.entry);
    } else if (step.Flip? && t.Flipping? && AtRow(s, t) && IsOpen(s.rows[t.request].status)) || (step.Mark? && t.Marking? && AtRow(s, t)) {
      RowUpdateEvolves(s, s', t.request, s'.rows[t.request]);
    } else {
      assert s'.rows == s.rows;
      SameRowsEvolve(s, s');
    }
  }

  lemma OtherEvolves(c: Config, s: State, step: Step)
    requires !ByTask(step)
    ensures Evolves(s, Apply(c, s, step))
  {
    var s' := Apply(c, s, step);
    hide HasProblem, Evolves;
    if s'.rows == s.rows {
      SameRowsEvolve(s, s');
    } else {
      RowUpdateEvolves(s, s', step.request, s'.rows[step.request]);
    }
  }

  // Whatever happens next, rows only evolve: no resolved status reopens, no verdict is
  // withdrawn, and a new row breaks no unique index.
  lemma StepEvolves(c: Config, s: State, step: Step)
    requires Chained(c, s)
    ensures Evolves(s, Apply(c, s, step))
  {
    if !ByTask(step) {
      OtherEvolves(c, s, step);
    } else if step.task in s.tasks {
      assert TaskOk(c, s.rows, s.tasks[step.task]);
      hide TaskStep, Evolves, Chained;
      TaskEvolves(c, s, step.task, s.tasks[step.task], step);
    } else {
      SameRowsEvolve(s, s);
    }
  }

  // ---- unique rows ----

  predicate Apart(r: Request, q: Request) {
    && (r.kind == Filed && q.kind == Filed ==> r.item != q.item || r.turn != q.turn)
    && (r.messageId != "" ==> r.messageId != q.messageId)
  }

  ghost predicate UniqueRows(s: State) {
    && (forall i, j :: 0 <= i < j < |s.rows| ==> Apart(s.rows[i], s.rows[j]))
    && (forall k :: 0 <= k < |s.rows| && Consumes(s.rows[k]) ==> s.rows[k].subs != [])
  }

  lemma UniqueRowsStep(s: State, s': State)
    requires UniqueRows(s) && Evolves(s, s')
    ensures UniqueRows(s')
  {
    forall i, j | 0 <= i < j < |s'.rows|
      ensures Apart(s'.rows[i], s'.rows[j])
    {
      assert RowEvolves(s.rows[i], s'.rows[i]);
      if j < |s.rows| {
        assert Apart(s.rows[i], s.rows[j]) && RowEvolves(s.rows[j], s'.rows[j]);
      }
    }
    forall k | 0 <= k < |s'.rows| && Consumes(s'.rows[k])
      ensures s'.rows[k].subs != []
    {
      assert k < |s.rows| ==> RowEvolves(s.rows[k], s'.rows[k]);
    }
  }

  // ---- emails sent at most once ----

  // A confirmation or a first result email, owed by the handler that won the right to send it.
  datatype Ticket = ConfirmationOf(request: nat) | ResultOf(request: nat)

  function Owed(t: Task): Option<Ticket> {
    if t.Confirming? then Some(ConfirmationOf(t.request))
    else if t.Sending? then Some(ResultOf(t.request))
    else None
  }

  function Paid(m: Mail): Option<Ticket> {
    if m.Confirmation? then Some(ConfirmationOf(m.request))
    else if m.Result? && m.firstSend then Some(ResultOf(m.request))
    else None
  }

  // A confirmation is earned by filing, a first result email by resolving.
  predicate Earned(s: State, x: Ticket) {
    x.request < |s.rows| && s.rows[x.request].kind == Filed && (x.ResultOf? ==> IsResolved(s.rows[x.request].status))
  }

  ghost predicate Tickets(s: State) {
    && (forall d :: d in s.tasks && Owed(s.tasks[d]).Some? ==> Earned(s, Owed(s.tasks[d]).value))
    && (forall k :: 0 <= k < |s.mails| && Paid(s.mails[k]).Some? ==> Earned(s, Paid(s.mails[k]).value))
    && (forall d, e :: d in s.tasks && e in s.tasks && d != e && Owed(s.tasks[d]).Some? ==> Owed(s.tasks[d]) != Owed(s.tasks[e]))
    && (forall d, k :: d in s.tasks && 0 <= k < |s.mails| && Owed(s.tasks[d]).Some? ==> Owed(s.tasks[d]) != Paid(s.mails[k]))
    && (forall j, k :: 0 <= j < k < |s.mails| && Paid(s.mails[j]).Some? ==> Paid(s.mails[j]) != Paid(s.mails[k]))
  }

  // How a step may move tickets: handler d gains one nobody earned before, or pays its own.
  ghost predicate TicketsMove(s: State, s': State, d: int) {
    && (forall e :: e in s'.tasks && e != d ==> e in s.tasks && s'.tasks[e] == s.tasks[e])
    && (s'.mails == s.mails || (|s'.mails| == |s.mails| + 1 && s'.mails[..|s.mails|] == s.mails))
    && var owed := if d in s'.tasks then Owed(s'.tasks[d]) else None;
       var paid := if s'.mails == s.mails then None else Paid(s'.mails[|s.mails|]);
       var had := if d in s.tasks then Owed(s.tasks[d]) else None;
       && (owed.Some? ==> paid.None? && (owed == had || !Earned(s, owed.value)) && Earned(s', owed.value))
       && (paid.Some? ==> paid == had)
  }

  lemma EarnedStays(s: State, s': State, x: Ticket)
    requires Evolves(s, s') && Earned(s, x)
    ensures Earned(s', x)
  {
    assert RowEvolves(s.rows[x.request], s'.rows[x.request]);
  }

  // Each clause of Tickets after a move, one lemma each.
  lemma MoveEarned(s: State, s': State, d: int)
    requires Tickets(s) && Evolves(s, s') && TicketsMove(s, s', d)
    ensures forall e :: e in s'.tasks && Owed(s'.tasks[e]).Some? ==> Earned(s', Owed(s'.tasks[e]).value)
    ensures forall k :: 0 <= k < |s'.mails| && Paid(s'.mails[k]).Some? ==> Earned(s', Paid(s'.mails[k]).value)
  {
    hide Owed, Paid, Earned, Evolves;
    forall e | e in s'.tasks && Owed(s'.tasks[e]).Some?
      ensures Earned(s', Owed(s'.tasks[e]).value)
    {
      if e != d {
        EarnedStays(s, s', Owed(s.tasks[e]).value);
      }
    }
    forall k | 0 <= k < |s'.mails| && Paid(s'.mails[k]).Some?
      ensures Earned(s', Paid(s'.mails[k]).value)
    {
      if k < |s.mails| {
        assert s'.mails[..|s.mails|][k] == s.mails[k];
        EarnedStays(s, s', Paid(s.mails[k]).value);
      } else {
        EarnedStays(s, s', Owed(s.tasks[d]).value);
      }
    }
  }

  lemma MoveOwedApart(s: State, s': State, d: int)
    requires Tickets(s) && TicketsMove(s, s', d)
    ensures forall e, f :: e in s'.tasks && f in s'.tasks && e != f && Owed(s'.tasks[e]).Some? ==> Owed(s'.tasks[e]) != Owed(s'.tasks[f])
  {
    hide Owed, Paid, Earned;
  }

  lemma MoveOwedUnpaid(s: State, s': State, d: int)
    requires Tickets(s) && TicketsMove(s, s', d)
    ensures forall e, k :: e in s'.tasks && 0 <= k < |s'.mails| && Owed(s'.tasks[e]).Some? ==> Owed(s'.tasks[e]) != Paid(s'.mails[k])
  {
    hide Owed, Paid, Earned;
    forall e, k | e in s'.tasks && 0 <= k < |s'.mails| && Owed(s'.tasks[e]).Some?
      ensures Owed(s'.tasks[e]) != Paid(s'.mails[k])
    {
      if k < |s.mails| {
        assert s'.mails[..|s.mails|][k] == s.mails[k];
      }
    }
  }

  lemma MovePaidApart(s: State, s': State, d: int)
    requires Tickets(s) && TicketsMove(s, s', d)
    ensures forall j, k :: 0 <= j < k < |s'.mails| && Paid(s'.mails[j]).Some? ==> Paid(s'.mails[j]) != Paid(s'.mails[k])
  {
    hide Owed, Paid, Earned;
    forall j, k | 0 <= j < k < |s'.mails| && Paid(s'.mails[j]).Some?
      ensures Paid(s'.mails[j]) != Paid(s'.mails[k])
    {
      assert s'.mails[j] == s.mails[j] by {
        assert s'.mails[..|s.mails|][j] == s'.mails[j];
      }
      if k < |s.mails| {
        assert s'.mails[..|s.mails|][k] == s.mails[k];
      }
    }
  }

  lemma TicketsStep(s: State, s': State, d: int)
    requires Tickets(s) && Evolves(s, s') && TicketsMove(s, s', d)
    ensures Tickets(s')
  {
    MoveEarned(s, s', d);
    MoveOwedApart(s, s', d);
    MoveOwedUnpaid(s, s', d);
    MovePaidApart(s, s', d);
    hide Owed, Paid, Earned, Evolves, TicketsMove;
  }

  // ---- each step moves tickets that way ----

  lemma AdvanceOwesNothing(c: Config, s: State, t: Task, step: Step)
    requires ReadsOnly(step)
    ensures Advance(c, s, t, step) == t || Owed(Advance(c, s, t, step)) == None
  {
    hide Consumed, NextOpenTurn, Capped, IsLiveFor;
  }

  lemma WebhookMoves(c: Config, s: State, d: int, t: Task, step: Step)
    requires d in s.tasks && s.tasks[d] == t && (ReadsOnly(step) || step.File? || step.Record?)
    requires Owed(t).Some? ==> Earned(s, Owed(t).value) && Earned(TaskStep(c, s, d, t, step), Owed(t).value)
    ensures TicketsMove(s, TaskStep(c, s, d, t, step), d)
  {
    if ReadsOnly(step) {
      AdvanceOwesNothing(c, s, t, step);
    }
    hide UniqueViolation, Distinct, Contested, Advance;
  }

  lemma MailerMoves(c: Config, s: State, d: int, t: Task, step: Step)
    requires d in s.tasks && s.tasks[d] == t && (step.Confirm? || step.Send? || step.Resend?)
    requires Owed(t).Some? ==> Earned(s, Owed(t).value) && Earned(TaskStep(c, s, d, t, step), Owed(t).value)
    ensures TicketsMove(s, TaskStep(c, s, d, t, step), d)
  {
    hide Earned;
  }

  lemma FlipMoves(s: State, d: int, t: Task)
    requires d in s.tasks && s.tasks[d] == t && t.Flipping? && t.request < |s.rows| && s.rows[t.request].kind == Filed
    ensures TicketsMove(s, DoFlip(s, d, t), d)
  {
    hide AllUpheld;
  }

  lemma SenderMoves(c: Config, s: State, d: int, t: Task, step: Step)
    requires d in s.tasks && s.tasks[d] == t
    requires step.Gate? || step.Build? || step.Mark? || step.Drop?
    requires Owed(t).Some? ==> Earned(TaskStep(c, s, d, t, step), Owed(t).value)
    ensures TicketsMove(s, TaskStep(c, s, d, t, step), d)
  {
    hide AllVerdicted, Earned;
  }

  // A step of no handler leaves the mails alone but for a reminder, and starts no ticket.
  lemma StartMoves(c: Config, s: State, step: Step)
    requires step.Deliver? || step.StartSend? || step.StartResend?
    requires step.task in s.tasks && Owed(s.tasks[step.task]).Some? ==> Earned(s, Owed(s.tasks[step.task]).value)
    ensures TicketsMove(s, Apply(c, s, step), step.task)
  {
    hide IsOpen, IsResolved, Earned;
  }

  lemma RowMoves(c: Config, s: State, step: Step, d: int)
    requires step.Publish? || step.Supersede? || step.Remind? || step.AddProblem? || step.SetVerdict?
    requires d in s.tasks && Owed(s.tasks[d]).Some? ==> Earned(Apply(c, s, step), Owed(s.tasks[d]).value)
    ensures TicketsMove(s, Apply(c, s, step), d)
  {
    hide HasProblem, IsOpen, Earned, DoRemind;
    if step.Remind? {
      RemindMoves(c, s, step.request, step.ok, d);
    }
  }

  lemma RemindMoves(c: Config, s: State, k: nat, ok: bool, d: int)
    requires d in s.tasks && Owed(s.tasks[d]).Some? ==> Earned(DoRemind(c, s, k, ok), Owed(s.tasks[d]).value)
    ensures TicketsMove(s, DoRemind(c, s, k, ok), d)
  {
    hide IsOpen, Earned;
  }

  lemma StepTickets(c: Config, s: State, step: Step)
    requires Chained(c, s) && Tickets(s)
    ensures Tickets(Apply(c, s, step))
  {
    var s' := Apply(c, s, step);
    StepEvolves(c, s, step);
    var d := if step.Deliver? || step.StartSend? || step.StartResend? || ByTask(step) then step.task else 0;
    if d in s.tasks && Owed(s.tasks[d]).Some? {
      EarnedStays(s, s', Owed(s.tasks[d]).value);
    }
    if d in s.tasks {
      assert OnFiled(s, s.tasks[d]);
    }
    hide TaskStep, Evolves, Tickets, TicketsMove, Chained, Owed, Earned;
    if ByTask(step) {
      if d in s.tasks {
        TaskMoves(c, s, d, s.tasks[d], step);
        TicketsStep(s, s', d);
      }
    } else {
      if step.Deliver? || step.StartSend? || step.StartResend? {
        StartMoves(c, s, step);
      } else {
        RowMoves(c, s, step, d);
      }
      TicketsStep(s, s', d);
    }
  }

  lemma TaskMoves(c: Config, s: State, d: int, t: Task, step: Step)
    requires OnFiled(s, t) && d in s.tasks && s.tasks[d] == t && ByTask(step)
    requires Owed(t).Some? ==> Earned(s, Owed(t).value) && Earned(TaskStep(c, s, d, t, step), Owed(t).value)
    ensures TicketsMove(s, TaskStep(c, s, d, t, step), d)
  {
    if step.Confirm? || step.Send? || step.Resend? {
      hide *;
      MailerMoves(c, s, d, t, step);
    } else if step.Flip? {
      if t.Flipping? && AtRow(s, t) {
        hide TicketsMove, Earned, DoFlip;
        FlipMoves(s, d, t);
      }
    } else if step.Gate? || step.Build? || step.Mark? || step.Drop? {
      hide *;
      SenderMoves(c, s, d, t, step);
    } else {
      hide TicketsMove, Earned, TaskStep, Owed;
      WebhookMoves(c, s, d, t, step);
    }
  }

  // ---- what result emails list, and what a delivery mark means ----

  // Sub-items read off a row while all of them had a verdict.
  predicate Listing(listed: seq<SubItem>, subs: seq<SubItem>) {
    && listed != [] && AllVerdicted(listed) && |listed| <= |subs|
    && forall j :: 0 <= j < |listed| ==> subs[j].problem == listed[j].problem
  }

  lemma ListingStays(listed: seq<SubItem>, subs: seq<SubItem>, subs': seq<SubItem>)
    requires Listing(listed, subs) && SubsGrow(subs, subs')
    ensures Listing(listed, subs')
  {
  }

  predicate TaskLists(s: State, t: Task) {
    (t.Flipping? || t.Sending? || t.Resending?) ==> t.request < |s.rows| && Listing(t.listed, s.rows[t.request].subs)
  }

  predicate MailLists(s: State, m: Mail) {
    m.Result? ==> m.request < |s.rows| && Listing(m.listed, s.rows[m.request].subs)
  }

  predicate Delivered(mails: seq<Mail>, k: nat) {
    exists j :: 0 <= j < |mails| && mails[j].Result? && mails[j].request == k && mails[j].delivered
  }

  ghost predicate Listings(c: Config, s: State) {
    && (forall d :: d in s.tasks ==> TaskLists(s, s.tasks[d]))
    && (forall k :: 0 <= k < |s.mails| ==> MailLists(s, s.mails[k]))
    && (c.wired ==> forall k :: 0 <= k < |s.rows| && s.rows[k].sentAt ==> Delivered(s.mails, k))
    && (c.wired ==> forall d :: d in s.tasks && s.tasks[d].Marking? ==> Delivered(s.mails, s.tasks[d].request))
  }

  // A step adds at most one mail, and only listed handlers and mails; a row is marked delivered
  // by a handler that delivered it.
  ghost predicate ListingsMove(c: Config, s: State, s': State, d: int) {
    && (forall e :: e in s'.tasks && e != d ==> e in s.tasks && s'.tasks[e] == s.tasks[e])
    && (s'.mails == s.mails || (|s'.mails| == |s.mails| + 1 && s'.mails[..|s.mails|] == s.mails && MailLists(s', s'.mails[|s.mails|])))
    && (d in s'.tasks ==> TaskLists(s', s'.tasks[d]))
    && (c.wired && d in s'.tasks && s'.tasks[d].Marking? ==> Delivered(s'.mails, s'.tasks[d].request))
    && (c.wired ==> forall k :: 0 <= k < |s'.rows| && s'.rows[k].sentAt ==> (k < |s.rows| && s.rows[k].sentAt) || Delivered(s.mails, k))
  }

  lemma DeliveredStays(mails: seq<Mail>, mails': seq<Mail>, k: nat)
    requires Delivered(mails, k) && |mails| <= |mails'| && mails'[..|mails|] == mails
    ensures Delivered(mails', k)
  {
    var j :| 0 <= j < |mails| && mails[j].Result? && mails[j].request == k && mails[j].delivered;
    assert mails'[..|mails|][j] == mails[j];
  }

  lemma ListsStay(s: State, s': State)
    requires Evolves(s, s')
    ensures forall t: Task :: TaskLists(s, t) ==> TaskLists(s', t)
    ensures forall m: Mail :: MailLists(s, m) ==> MailLists(s', m)
  {
    forall t: Task | TaskLists(s, t)
      ensures TaskLists(s', t)
    {
      if t.Flipping? || t.Sending? || t.Resending? {
        assert RowEvolves(s.rows[t.request], s'.rows[t.request]);
        ListingStays(t.listed, s.rows[t.request].subs, s'.rows[t.request].subs);
      }
    }
    forall m: Mail | MailLists(s, m)
      ensures MailLists(s', m)
    {
      if m.Result? {
        assert RowEvolves(s.rows[m.request], s'.rows[m.request]);
        ListingStays(m.listed, s.rows[m.request].subs, s'.rows[m.request].subs);
      }
    }
  }

  lemma ListingsStep(c: Config, s: State, s': State, d: int)
    requires Listings(c, s) && Evolves(s, s') && ListingsMove(c, s, s', d)
    ensures Listings(c, s')
  {
    ListsStay(s, s');
    hide TaskLists, MailLists, Evolves;
    assert s'.mails[..|s.mails|] == s.mails;
    forall k: nat | Delivered(s.mails, k)
      ensures Delivered(s'.mails, k)
    {
      DeliveredStays(s.mails, s'.mails, k);
    }
    hide Delivered;
    forall k | 0 <= k < |s'.mails|
      ensures MailLists(s', s'.mails[k])
    {
      if k < |s.mails| {
        assert s'.mails[..|s.mails|][k] == s.mails[k];
      }
    }
  }

  lemma AdvanceListsNothing(c: Config, s: State, t: Task, step: Step)
    requires ReadsOnly(step)
    ensures var t' := Advance(c, s, t, step);
            t' == t || !(t'.Flipping? || t'.Sending? || t'.Resending? || t'.Marking?)
  {
    hide Consumed, NextOpenTurn, Capped, IsLiveFor;
  }

  lemma ReadListings(c: Config, s: State, d: int, t: Task, step: Step)
    requires Listings(c, s) && d in s.tasks && s.tasks[d] == t && ReadsOnly(step)
    ensures ListingsMove(c, s, TaskStep(c, s, d, t, step), d)
  {
    assert TaskLists(s, t);
    AdvanceListsNothing(c, s, t, step);
    hide Advance, Delivered, Listing, MailLists;
  }

  lemma InsertListings(c: Config, s: State, d: int, t: Task, step: Step)
    requires Listings(c, s) && TaskOk(c, s.rows, t) && d in s.tasks && s.tasks[d] == t && (step.File? || step.Record?)
    ensures ListingsMove(c, s, TaskStep(c, s, d, t, step), d)
  {
    assert TaskLists(s, t);
    hide UniqueViolation, Distinct, Contested, Delivered, Listing, MailLists, TurnOk;
    var s' := TaskStep(c, s, d, t, step);
    assert s'.rows == s.rows || (s'.rows == s.rows + [s'.rows[|s.rows|]] && !s'.rows[|s.rows|].sentAt);
    hide TaskOk, Listings;
  }

  lemma MailerListings(c: Config, s: State, d: int, t: Task, step: Step)
    requires Listings(c, s) && d in s.tasks && s.tasks[d] == t && (step.Confirm? || step.Send? || step.Resend?)
    ensures ListingsMove(c, s, TaskStep(c, s, d, t, step), d)
  {
    assert TaskLists(s, t);
    var s' := TaskStep(c, s, d, t, step);
    if s'.mails != s.mails && s'.mails[|s.mails|].Result? && s'.mails[|s.mails|].delivered {
      assert Delivered(s'.mails, t.request);
    }
    hide Delivered, Listing;
  }

  lemma SenderListings(c: Config, s: State, d: int, t: Task, step: Step)
    requires Listings(c, s) && d in s.tasks && s.tasks[d] == t && (step.Gate? || step.Build? || step.Flip? || step.Drop?)
    requires t.Building? || t.Rebuilding? ==> t.request < |s.rows| ==> s.rows[t.request].subs != []
    ensures ListingsMove(c, s, TaskStep(c, s, d, t, step), d)
  {
    assert TaskLists(s, t);
    hide Delivered, AllUpheld;
  }

  lemma MarkListings(c: Config, s: State, d: int, t: Task)
    requires Listings(c, s) && d in s.tasks && s.tasks[d] == t && t.Marking? && t.request < |s.rows|
    ensures ListingsMove(c, s, DoMark(s, d, t), d)
  {
    hide Delivered, Listing;
  }

  lemma StartListings(c: Config, s: State, step: Step)
    requires Listings(c, s) && (step.Deliver? || step.StartSend? || step.StartResend?)
    ensures ListingsMove(c, s, Apply(c, s, step), step.task)
  {
    assert step.task in s.tasks ==> TaskLists(s, s.tasks[step.task]);
    hide IsOpen, IsResolved, Delivered, Listing, MailLists;
  }

  lemma RowListings(c: Config, s: State, step: Step, d: int)
    requires Listings(c, s) && Evolves(s, Apply(c, s, step))
    requires step.Publish? || step.Supersede? || step.Remind? || step.AddProblem? || step.SetVerdict?
    ensures ListingsMove(c, s, Apply(c, s, step), d)
  {
    var s' := Apply(c, s, step);
    ListsStay(s, s');
    assert s'.tasks == s.tasks;
    assert d in s.tasks ==> TaskLists(s, s.tasks[d]);
    if step.Remind? {
      assert s' == DoRemind(c, s, step.request, step.ok);
      hide *;
      RemindListings(c, s, step.request, step.ok, d);
    } else {
      hide *;
      EditListings(c, s, step, d);
    }
  }

  lemma EditListings(c: Config, s: State, step: Step, d: int)
    requires Listings(c, s) && (step.Publish? || step.Supersede? || step.AddProblem? || step.SetVerdict?)
    requires d in s.tasks ==> TaskLists(Apply(c, s, step), s.tasks[d])
    ensures ListingsMove(c, s, Apply(c, s, step), d)
  {
    hide HasProblem, IsOpen, Delivered, TaskLists, MailLists;
  }

  lemma RemindListings(c: Config, s: State, k: nat, ok: bool, d: int)
    requires Listings(c, s)
    requires d in s.tasks ==> TaskLists(DoRemind(c, s, k, ok), s.tasks[d])
    ensures ListingsMove(c, s, DoRemind(c, s, k, ok), d)
  {
    var s' := DoRemind(c, s, k, ok);
    assert s'.mails == s.mails || s'.mails == s.mails + [Reminder(k, ok)];
    assert s'.mails[..|s.mails|] == s.mails;
    if d in s.tasks && s.tasks[d].Marking? && c.wired {
      DeliveredStays(s.mails, s'.mails, s.tasks[d].request);
    }
    hide IsOpen, Delivered, TaskLists;
  }

  lemma TaskListings(c: Config, s: State, d: int, t: Task, step: Step)
    requires Listings(c, s) && TaskOk(c, s.rows, t) && OnFiled(s, t) && UniqueRows(s)
    requires d in s.tasks && s.tasks[d] == t && ByTask(step)
    ensures ListingsMove(c, s, TaskStep(c, s, d, t, step), d)
  {
    if t.Building? || t.Rebuilding? {
      assert Consumes(s.rows[t.request]);
    }
    hide TaskOk, OnFiled, UniqueRows, ListingsMove, Listings, DoMark;
    if ReadsOnly(step) {
      ReadListings(c, s, d, t, step);
    } else if step.File? || step.Record? {
      InsertListings(c, s, d, t, step);
    } else if step.Confirm? || step.Send? || step.Resend? {
      MailerListings(c, s, d, t, step);
    } else if step.Mark? {
      if t.Marking? && AtRow(s, t) {
        MarkListings(c, s, d, t);
      } else {
        QuietListings(c, s, d);
      }
    } else {
      SenderListings(c, s, d, t, step);
    }
  }

  lemma QuietListings(c: Config, s: State, d: int)
    requires Listings(c, s)
    ensures ListingsMove(c, s, s, d)
  {
    hide Delivered, TaskLists;
  }

  // ---- over every run ----

  ghost predicate Once(c: Config, s: State) {
    Chained(c, s) && UniqueRows(s) && Tickets(s) && Listings(c, s)
  }

  lemma StepListings(c: Config, s: State, step: Step)
    requires Once(c, s)
    ensures Listings(c, Apply(c, s, step))
  {
    var s' := Apply(c, s, step);
    StepEvolves(c, s, step);
    var d := if step.Deliver? || step.StartSend? || step.StartResend? || ByTask(step) then step.task else 0;
    if d in s.tasks {
      assert OnFiled(s, s.tasks[d]) && TaskOk(c, s.rows, s.tasks[d]);
    }
    hide TaskStep, Evolves, Tickets, Listings, ListingsMove, Chained, OnFiled, TaskOk, UniqueRows;
    if ByTask(step) {
      if d in s.tasks {
        TaskListings(c, s, d, s.tasks[d], step);
        ListingsStep(c, s, s', d);
      }
    } else {
      if step.Deliver? || step.StartSend? || step.StartResend? {
        StartListings(c, s, step);
      } else {
        RowListings(c, s, step, d);
      }
      ListingsStep(c, s, s', d);
    }
  }

  lemma OnceStep(c: Config, s: State, step: Step)
    requires ValidConfig(c) && Once(c, s)
    ensures Once(c, Apply(c, s, step)) && Evolves(s, Apply(c, s, step))
  {
    hide Apply, Chained, UniqueRows, Tickets, Listings, Evolves;
    StepEvolves(c, s, step);
    ChainedStep(c, s, step);
    UniqueRowsStep(s, Apply(c, s, step));
    StepTickets(c, s, step);
    StepListings(c, s, step);
  }

  lemma {:induction false} OnceRun(c: Config, steps: seq<Step>)
    requires ValidConfig(c)
    ensures Once(c, Run(c, Start(), steps))
  {
    hide Apply, Once;
    if steps == [] {
      StartOnce(c);
    } else {
      OnceRun(c, steps[..|steps| - 1]);
      OnceStep(c, Run(c, Start(), steps[..|steps| - 1]), steps[|steps| - 1]);
    }
  }

  lemma StartOnce(c: Config)
    ensures Once(c, Start())
  {
  }

  predicate SameSlot(rows: seq<Request>, i: nat, j: nat) {
    i < |rows| && j < |rows| && rows[i].item == rows[j].item && rows[i].turn == rows[j].turn
  }

  // Each slot is filed at most once, with at least one problem, and confirmed at most once, by
  // an email about a filed row.
  lemma FiledOnceConfirmedOnce(c: Config, steps: seq<Step>)
    requires ValidConfig(c)
    ensures var s := Run(c, Start(), steps);
            && (forall i: nat, j: nat :: i < j < |s.rows| && s.rows[i].kind == Filed && s.rows[j].kind == Filed ==> !SameSlot(s.rows, i, j))
            && (forall i: nat, j: nat :: i < j < |s.mails| && s.mails[i].Confirmation? && s.mails[j].Confirmation? ==>
                  !SameSlot(s.rows, s.mails[i].request, s.mails[j].request))
            && (forall i :: 0 <= i < |s.mails| && s.mails[i].Confirmation? ==>
                  s.mails[i].request < |s.rows| && s.rows[s.mails[i].request].kind == Filed)
            && (forall k :: 0 <= k < |s.rows| && Consumes(s.rows[k]) ==> s.rows[k].subs != [])
            && (forall i, j :: 0 <= i < j < |s.rows| && s.rows[i].messageId != "" ==> s.rows[i].messageId != s.rows[j].messageId)
  {
    var s := Run(c, Start(), steps);
    OnceRun(c, steps);
    hide Run, Listings, Slots;
    forall i: nat, j: nat | i < j < |s.rows| && s.rows[i].kind == Filed && s.rows[j].kind == Filed
      ensures !SameSlot(s.rows, i, j)
    {
      assert Apart(s.rows[i], s.rows[j]);
    }
    forall i, j | 0 <= i < j < |s.rows| && s.rows[i].messageId != ""
      ensures s.rows[i].messageId != s.rows[j].messageId
    {
      assert Apart(s.rows[i], s.rows[j]);
    }
    forall i | 0 <= i < |s.mails| && s.mails[i].Confirmation?
      ensures s.mails[i].request < |s.rows| && s.rows[s.mails[i].request].kind == Filed
    {
      assert Paid(s.mails[i]).Some?;
    }
    forall i: nat, j: nat | i < j < |s.mails| && s.mails[i].Confirmation? && s.mails[j].Confirmation?
      ensures !SameSlot(s.rows, s.mails[i].request, s.mails[j].request)
    {
      assert Paid(s.mails[i]) != Paid(s.mails[j]);
    }
  }

  // Over every run a request's first result email is attempted at most once, and only after it
  // resolved; every result email lists problems of its request, all with a verdict; and a
  // delivery mark means a delivery.
  lemma ResultSentOnce(c: Config, steps: seq<Step>)
    requires ValidConfig(c)
    ensures var s := Run(c, Start(), steps);
            && (forall i, j :: 0 <= i < j < |s.mails| && s.mails[i].Result? && s.mails[i].firstSend && s.mails[j].Result? && s.mails[j].firstSend ==>
                  s.mails[i].request != s.mails[j].request)
            && (forall i :: 0 <= i < |s.mails| && s.mails[i].Result? && s.mails[i].firstSend ==>
                  s.mails[i].request < |s.rows| && IsResolved(s.rows[s.mails[i].request].status))
            && (forall i :: 0 <= i < |s.mails| && s.mails[i].Result? ==>
                  s.mails[i].request < |s.rows| && Listing(s.mails[i].listed, s.rows[s.mails[i].request].subs))
            && (c.wired ==> forall k :: 0 <= k < |s.rows| && s.rows[k].sentAt ==> Delivered(s.mails, k))
  {
    var s := Run(c, Start(), steps);
    OnceRun(c, steps);
    hide Run, Slots, Grounded, UniqueRows, Delivered, Listing;
    forall i | 0 <= i < |s.mails| && s.mails[i].Result?
      ensures s.mails[i].request < |s.rows| && Listing(s.mails[i].listed, s.rows[s.mails[i].request].subs)
    {
      assert MailLists(s, s.mails[i]);
    }
    forall i, j | 0 <= i < j < |s.mails| && s.mails[i].Result? && s.mails[i].firstSend && s.mails[j].Result? && s.mails[j].firstSend
      ensures s.mails[i].request != s.mails[j].request
    {
      assert Paid(s.mails[i]) != Paid(s.mails[j]);
    }
    forall i | 0 <= i < |s.mails| && s.mails[i].Result? && s.mails[i].firstSend
      ensures s.mails[i].request < |s.rows| && IsResolved(s.rows[s.mails[i].request].status)
    {
      assert Paid(s.mails[i]).Some?;
    }
  }
}
