/** internal/httpapi/regrade.go: the regrade protocol as a transition system over publish items,
    minted tokens, request rows, emails and the handlers in flight. The webhook, send-result and
    resend-result handlers are split at their database calls, so any interleaving is a run. */
module RegradeChain {
  import opened Wrappers

  // ---- what the store holds ----

  datatype Kind = Filed | Addendum | Unparsed | HandedOff

  datatype Status =
    | Received | UnderReview | ResolvedUpheld | ResolvedRegraded
    | RejectedBadToken | RejectedSuperseded | RejectedSender | RejectedDeadline

  datatype Verdict = Upheld | Regraded

  datatype SubItem = SubItem(problem: int, verdict: Option<Verdict>)

  // A NULL item, turn or message id is 0 or the empty string.
  datatype Request = Request(
    item: int, turn: int, kind: Kind, status: Status, messageId: string, subs: seq<SubItem>, sentAt: bool)

  // A published item of one student's results, and whether its batch was superseded.
  datatype Item = Item(holder: int, superseded: bool)

  datatype Mail =
    | Confirmation(request: nat, delivered: bool)
    | Result(request: nat, listed: seq<SubItem>, firstSend: bool, delivered: bool)
    | Reminder(request: nat, delivered: bool)

  // maxTurns is ADAMARKER_REGRADE_MAX; wired: a mail provider is configured; replies: so is a
  // reply domain, without which no next-turn token is minted.
  datatype Config = Config(maxTurns: int, wired: bool, replies: bool)

  predicate ValidConfig(c: Config) {
    c.maxTurns >= 1
  }

  // ---- handlers in flight, at the database call each will make next ----

  datatype Task =
    | Arrived(messageId: string, item: int, turn: int)
    | Stale(messageId: string, item: int, turn: int)
    | Rebound(messageId: string, item: int)
    | Bound(messageId: string, item: int, turn: int)
    | Admitted(messageId: string, item: int, turn: int)
    | Unconsumed(messageId: string, item: int, turn: int)
    | Recording(entry: Request)
    | Confirming(request: nat)
    | Gating(request: nat)
    | Building(request: nat)
    | Flipping(request: nat, listed: seq<SubItem>)
    | Sending(request: nat, listed: seq<SubItem>)
    | Rebuilding(request: nat)
    | Resending(request: nat, listed: seq<SubItem>)
    | Marking(request: nat)

  datatype State = State(
    items: map<int, Item>,
    minted: set<(int, int)>,
    rows: seq<Request>,
    mails: seq<Mail>,
    tasks: map<int, Task>)

  datatype Step =
    | Publish(item: int, holder: int)
    | Supersede(item: int)
    | Deliver(task: int, messageId: string, token: Option<(int, int)>)
    | Lookup(task: int)
    | FindLive(task: int, live: Option<int>)
    | NextTurn(task: int)
    | Admit(task: int, senderMatches: bool, inTime: bool)
    | Check(task: int)
    | File(task: int, blocks: seq<int>)
    | Record(task: int)
    | Confirm(task: int, ok: bool)
    | StartSend(task: int, request: nat)
    | Gate(task: int)
    | Build(task: int)
    | Flip(task: int)
    | Send(task: int, ok: bool)
    | StartResend(task: int, request: nat)
    | Resend(task: int, ok: bool)
    | Mark(task: int)
    | Remind(request: nat, ok: bool)
    | AddProblem(request: nat, problem: int)
    | SetVerdict(request: nat, sub: nat, verdict: Verdict)
    | Drop(task: int)

  // ---- queries ----

  predicate IsOpen(st: Status) {
    st == Received || st == UnderReview
  }

  predicate IsResolved(st: Status) {
    st == ResolvedUpheld || st == ResolvedRegraded
  }

  predicate Consumes(r: Request) {
    r.kind == Filed || r.kind == HandedOff
  }

  // ConsumedTokenExists
  predicate Consumed(rows: seq<Request>, item: int, turn: int) {
    exists k :: 0 <= k < |rows| && Consumes(rows[k]) && rows[k].item == item && rows[k].turn == turn
  }

  // The greatest consumed turn of an item: NextOpenTurn is one more.
  function TopTurn(rows: seq<Request>, item: int): int {
    if rows == [] then 0
    else
      var last := rows[|rows| - 1];
      var top := TopTurn(rows[..|rows| - 1], item);
      if Consumes(last) && last.item == item && last.turn > top then last.turn else top
  }

  function NextOpenTurn(rows: seq<Request>, item: int): int {
    TopTurn(rows, item) + 1
  }

  predicate KnownMessage(rows: seq<Request>, messageId: string) {
    messageId != "" && exists k :: 0 <= k < |rows| && rows[k].messageId == messageId
  }

  predicate SlotTaken(rows: seq<Request>, item: int, turn: int) {
    exists k :: 0 <= k < |rows| && rows[k].kind == Filed && rows[k].item == item && rows[k].turn == turn
  }

  // The two partial unique indexes.
  predicate UniqueViolation(rows: seq<Request>, r: Request) {
    KnownMessage(rows, r.messageId) || (r.kind == Filed && SlotTaken(rows, r.item, r.turn))
  }

  predicate AllVerdicted(subs: seq<SubItem>) {
    forall k :: 0 <= k < |subs| ==> subs[k].verdict.Some?
  }

  predicate AllUpheld(subs: seq<SubItem>) {
    forall k :: 0 <= k < |subs| ==> subs[k].verdict == Some(Upheld)
  }

  predicate HasProblem(subs: seq<SubItem>, problem: int) {
    exists k :: 0 <= k < |subs| && subs[k].problem == problem
  }

  // A fresh sub-item for every contested problem.
  function Contested(blocks: seq<int>): (subs: seq<SubItem>)
    ensures |subs| == |blocks|
  {
    seq(|blocks|, k requires 0 <= k < |blocks| => SubItem(blocks[k], None))
  }

  predicate Distinct(blocks: seq<int>) {
    forall i, j :: 0 <= i < j < |blocks| ==> blocks[i] != blocks[j]
  }

  // A row for an outcome that files nothing.
  function Outcome(item: int, turn: int, kind: Kind, status: Status, messageId: string): Request {
    Request(item, turn, kind, status, messageId, [], false)
  }

  // ---- one step ----

  function Put(s: State, d: int, t: Task): State {
    s.(tasks := s.tasks[d := t])
  }

  function End(s: State, d: int): State {
    s.(tasks := s.tasks - {d})
  }

  function Begin(s: State, d: int, t: Task): State {
    if d in s.tasks then s else Put(s, d, t)
  }

  function InsertRow(s: State, r: Request): State {
    s.(rows := s.rows + [r])
  }

  function UpdateRow(s: State, k: nat, r: Request): State
    requires k < |s.rows|
  {
    s.(rows := s.rows[k := r])
  }

  function AddMail(s: State, m: Mail): State {
    s.(mails := s.mails + [m])
  }

  function Rejected(item: int, turn: int, status: Status, messageId: string): Task {
    Recording(Outcome(item, turn, Unparsed, status, messageId))
  }

  // Rung 1: only a minted token verifies.
  function DoDeliver(s: State, d: int, messageId: string, token: Option<(int, int)>): State {
    if token.Some? && token.value in s.minted
    then Begin(s, d, Arrived(messageId, token.value.0, token.value.1))
    else Begin(s, d, Recording(Outcome(0, 0, Unparsed, RejectedBadToken, messageId)))
  }

  function LookedUp(s: State, t: Task): Task
    requires t.Arrived?
  {
    if t.item !in s.items then Rejected(0, 0, RejectedBadToken, t.messageId)
    else if s.items[t.item].superseded then Stale(t.messageId, t.item, t.turn)
    else Bound(t.messageId, t.item, t.turn)
  }

  // A live item of the same student, if the batch has one.
  predicate IsLiveFor(items: map<int, Item>, item: int, live: int) {
    item in items && live in items && !items[live].superseded && items[live].holder == items[item].holder
  }

  function LiveFound(s: State, t: Task, live: Option<int>): Task
    requires t.Stale?
  {
    if live.Some? && IsLiveFor(s.items, t.item, live.value) then Rebound(t.messageId, live.value)
    else Rejected(t.item, t.turn, RejectedSuperseded, t.messageId)
  }

  function Capped(c: Config, turn: int): int {
    if turn > c.maxTurns + 1 then c.maxTurns + 1 else turn
  }

  function Remapped(c: Config, s: State, t: Task): Task
    requires t.Rebound?
  {
    Bound(t.messageId, t.item, Capped(c, NextOpenTurn(s.rows, t.item)))
  }

  function LetIn(t: Task, senderMatches: bool, inTime: bool): Task
    requires t.Bound?
  {
    if !senderMatches then Rejected(t.item, t.turn, RejectedSender, t.messageId)
    else if !inTime then Rejected(t.item, t.turn, RejectedDeadline, t.messageId)
    else Admitted(t.messageId, t.item, t.turn)
  }

  function AsAddendum(t: Task): Task
    requires t.Admitted? || t.Unconsumed?
  {
    Recording(Outcome(t.item, t.turn, Addendum, Received, t.messageId))
  }

  function Checked(s: State, t: Task): Task
    requires t.Admitted?
  {
    if Consumed(s.rows, t.item, t.turn) then AsAddendum(t) else Unconsumed(t.messageId, t.item, t.turn)
  }

  // The steps of the chain that only read, and where the handler stands after one.
  predicate ReadsOnly(step: Step) {
    step.Lookup? || step.FindLive? || step.NextTurn? || step.Admit? || step.Check?
  }

  function Advance(c: Config, s: State, t: Task, step: Step): Task {
    match step
    case Lookup(_) => if t.Arrived? then LookedUp(s, t) else t
    case FindLive(_, live) => if t.Stale? then LiveFound(s, t, live) else t
    case NextTurn(_) => if t.Rebound? then Remapped(c, s, t) else t
    case Admit(_, senderMatches, inTime) => if t.Bound? then LetIn(t, senderMatches, inTime) else t
    case Check(_) => if t.Admitted? then Checked(s, t) else t
    case _ => t
  }

  function Filing(t: Task, blocks: seq<int>): Request
    requires t.Unconsumed?
  {
    Request(t.item, t.turn, Filed, Received, t.messageId, Contested(blocks), false)
  }

  // The filing transaction: the row wins its slot as filed, and past the budget flips to
  // handed_off before anyone sees it.
  function DoFile(c: Config, s: State, d: int, t: Task, blocks: seq<int>): State
    requires t.Unconsumed?
  {
    var r := Filing(t, blocks);
    if blocks == [] then Put(s, d, Recording(Outcome(t.item, t.turn, Unparsed, Received, t.messageId)))
    else if UniqueViolation(s.rows, r) || !Distinct(blocks) then Put(s, d, AsAddendum(t))
    else if t.turn > c.maxTurns then End(InsertRow(s, r.(kind := HandedOff)), d)
    else Put(InsertRow(s, r), d, Confirming(|s.rows|))
  }

  function DoRecord(s: State, d: int, t: Task): State
    requires t.Recording?
  {
    if UniqueViolation(s.rows, t.entry) then End(s, d) else End(InsertRow(s, t.entry), d)
  }

  function DoConfirm(s: State, d: int, t: Task, ok: bool): State
    requires t.Confirming?
  {
    End(AddMail(s, Confirmation(t.request, ok)), d)
  }

  function DoStartSend(s: State, d: int, k: nat): State {
    if k < |s.rows| && s.rows[k].kind == Filed && IsOpen(s.rows[k].status) then Begin(s, d, Gating(k)) else s
  }

  function DoGate(s: State, d: int, t: Task): State
    requires t.Gating? && t.request < |s.rows|
  {
    var subs := s.rows[t.request].subs;
    if subs != [] && AllVerdicted(subs) then Put(s, d, Building(t.request)) else End(s, d)
  }

  // Listing the sub-items, minting the next-turn token and rendering, which fails on a
  // problem without an outcome.
  function DoBuild(c: Config, s: State, d: int, t: Task): State
    requires (t.Building? || t.Rebuilding?) && t.request < |s.rows|
  {
    var r := s.rows[t.request];
    var s' := if c.replies then s.(minted := s.minted + {(r.item, r.turn + 1)}) else s;
    if !AllVerdicted(r.subs) then End(s', d)
    else if t.Building? then Put(s', d, Flipping(t.request, r.subs))
    else Put(s', d, Resending(t.request, r.subs))
  }

  function DoFlip(s: State, d: int, t: Task): State
    requires t.Flipping? && t.request < |s.rows|
  {
    var r := s.rows[t.request];
    var outcome := if AllUpheld(t.listed) then ResolvedUpheld else ResolvedRegraded;
    if IsOpen(r.status) then Put(UpdateRow(s, t.request, r.(status := outcome)), d, Sending(t.request, t.listed))
    else End(s, d)
  }

  function DoSend(c: Config, s: State, d: int, t: Task, ok: bool): State
    requires t.Sending?
  {
    if !c.wired then End(s, d)
    else
      var s' := AddMail(s, Result(t.request, t.listed, true, ok));
      if ok then Put(s', d, Marking(t.request)) else End(s', d)
  }

  function DoStartResend(s: State, d: int, k: nat): State {
    if k < |s.rows| && s.rows[k].kind == Filed && IsResolved(s.rows[k].status) && !s.rows[k].sentAt
    then Begin(s, d, Rebuilding(k))
    else s
  }

  function DoResend(c: Config, s: State, d: int, t: Task, ok: bool): State
    requires t.Resending?
  {
    if !c.wired then Put(s, d, Marking(t.request))
    else
      var s' := AddMail(s, Result(t.request, t.listed, false, ok));
      if ok then Put(s', d, Marking(t.request)) else End(s', d)
  }

  function DoMark(s: State, d: int, t: Task): State
    requires t.Marking? && t.request < |s.rows|
  {
    End(UpdateRow(s, t.request, s.rows[t.request].(sentAt := true)), d)
  }

  // One transaction holding the row lock across the provider call.
  function DoRemind(c: Config, s: State, k: nat, ok: bool): State {
    if k < |s.rows| && s.rows[k].kind == Unparsed && IsOpen(s.rows[k].status) && s.rows[k].item != 0 && s.rows[k].turn != 0
    then
      var s' := if c.wired then AddMail(s, Reminder(k, ok)) else s;
      if c.wired && !ok then s' else UpdateRow(s', k, s.rows[k].(status := ResolvedUpheld))
    else s
  }

  // Checks the kind, not the status.
  function DoAddProblem(s: State, k: nat, problem: int): State {
    if k < |s.rows| && s.rows[k].kind == Filed && !HasProblem(s.rows[k].subs, problem)
    then UpdateRow(s, k, s.rows[k].(subs := s.rows[k].subs + [SubItem(problem, None)]))
    else s
  }

  function DoSetVerdict(s: State, k: nat, j: nat, v: Verdict): State {
    if k < |s.rows| && s.rows[k].kind == Filed && IsOpen(s.rows[k].status) && j < |s.rows[k].subs|
    then UpdateRow(s, k, s.rows[k].(subs := s.rows[k].subs[j := s.rows[k].subs[j].(verdict := Some(v))]))
    else s
  }

  function DoPublish(s: State, item: int, holder: int): State {
    if item <= 0 || item in s.items then s
    else s.(items := s.items[item := Item(holder, false)], minted := s.minted + {(item, 1)})
  }

  function DoSupersede(s: State, item: int): State {
    if item in s.items then s.(items := s.items[item := s.items[item].(superseded := true)]) else s
  }

  predicate AtRow(s: State, t: Task) {
    (t.Gating? || t.Building? || t.Flipping? || t.Rebuilding? || t.Marking?) && t.request < |s.rows|
  }

  // The step a handler in flight takes. A step that does not fit where it stands changes nothing.
  function TaskStep(c: Config, s: State, d: int, t: Task, step: Step): State {
    if ReadsOnly(step) then Put(s, d, Advance(c, s, t, step))
    else match step
      case File(_, blocks) => if t.Unconsumed? then DoFile(c, s, d, t, blocks) else s
      case Record(_) => if t.Recording? then DoRecord(s, d, t) else s
      case Confirm(_, ok) => if t.Confirming? then DoConfirm(s, d, t, ok) else s
      case Gate(_) => if t.Gating? && AtRow(s, t) then DoGate(s, d, t) else s
      case Build(_) => if (t.Building? || t.Rebuilding?) && AtRow(s, t) then DoBuild(c, s, d, t) else s
      case Flip(_) => if t.Flipping? && AtRow(s, t) then DoFlip(s, d, t) else s
      case Send(_, ok) => if t.Sending? then DoSend(c, s, d, t, ok) else s
      case Resend(_, ok) => if t.Resending? then DoResend(c, s, d, t, ok) else s
      case Mark(_) => if t.Marking? && AtRow(s, t) then DoMark(s, d, t) else s
      case Drop(_) => End(s, d)
      case _ => s
  }

  predicate ByTask(step: Step) {
    || ReadsOnly(step) || step.File? || step.Record?
    || step.Confirm? || step.Gate? || step.Build? || step.Flip? || step.Send? || step.Resend? || step.Mark? || step.Drop?
  }

  function Apply(c: Config, s: State, step: Step): State {
    if ByTask(step) then
      if step.task in s.tasks then TaskStep(c, s, step.task, s.tasks[step.task], step) else s
    else match step
      case Publish(item, holder) => DoPublish(s, item, holder)
      case Supersede(item) => DoSupersede(s, item)
      case Deliver(d, messageId, token) => DoDeliver(s, d, messageId, token)
      case StartSend(d, k) => DoStartSend(s, d, k)
      case StartResend(d, k) => DoStartResend(s, d, k)
      case Remind(k, ok) => DoRemind(c, s, k, ok)
      case AddProblem(k, problem) => DoAddProblem(s, k, problem)
      case SetVerdict(k, j, v) => DoSetVerdict(s, k, j, v)
      case _ => s
  }

  function Start(): State {
    State(map[], {}, [], [], map[])
  }

  function Run(c: Config, s: State, steps: seq<Step>): State {
    if steps == [] then s else Apply(c, Run(c, s, steps[..|steps| - 1]), steps[|steps| - 1])
  }
}
