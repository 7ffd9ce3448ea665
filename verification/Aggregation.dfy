/** internal/grading/aggregate_run.go: one aggregation pass over an assessment. Rows come ordered
    by answer, are grouped, and are combined and written in chunks of answers, one transaction
    each. */
module Aggregation {
  import opened Wrappers
  import opened Seqs
  import opened Consensus
  import opened ConsensusLaws

  // A usable panel record, as the query lists it.
  datatype Row = Row(answer: int, rubric: int, increment: string, input: PanelInput)

  datatype Batch = Batch(answer: int, rubric: int, increment: string, inputs: seq<PanelInput>)

  // The consensus policy of an assessment, and the points of every rubric version's criteria.
  datatype Policy = Policy(combiner: string, panelSize: int, faultTolerance: int, triggers: set<string>, maxes: int -> map<int, string>)

  const CHUNK: nat := 50
  const AGG_MISSING: string := "agg_missing"
  const AGG_DISAGREEMENT: string := "agg_disagreement"
  const AGG_LOW_CONF: string := "agg_low_confidence"

  function Owned(): set<string> {
    {AGG_MISSING, AGG_DISAGREEMENT, AGG_LOW_CONF}
  }

  datatype Aggregate = Aggregate(answer: int, rubric: int, scores: seq<CriterionScore>, total: string)

  datatype State = State(flags: map<int, set<string>>, records: seq<Aggregate>)

  datatype Report = Report(considered: nat, flagged: map<string, nat>, written: nat)

  // ---- grouping ----

  function OfAnswer(answer: int): Row -> seq<Row> {
    (row: Row) => if row.answer == answer then [row] else []
  }

  // The rows of one answer, in their order.
  function RowsOf(rows: seq<Row>, answer: int): seq<Row> {
    FlatMap(rows, OfAnswer(answer))
  }

  function Inputs(rows: seq<Row>): (inputs: seq<PanelInput>)
    ensures |inputs| == |rows|
  {
    seq(|rows|, i requires 0 <= i < |rows| => rows[i].input)
  }

  predicate ByAnswer(rows: seq<Row>) {
    forall i, j :: 0 <= i < j < |rows| ==> rows[i].answer <= rows[j].answer
  }

  function AnswersOf(batches: seq<Batch>): (ids: seq<int>)
    ensures |ids| == |batches|
  {
    seq(|batches|, i requires 0 <= i < |batches| => batches[i].answer)
  }

  // All the inputs of an answer, under the rubric version of its first row.
  predicate BatchOf(own: seq<Row>, b: Batch) {
    own != [] && b.rubric == own[0].rubric && b.increment == own[0].increment && b.inputs == Inputs(own)
  }

  // One batch per answer, ascending, each made of exactly that answer's rows.
  ghost predicate Grouped(rows: seq<Row>, batches: seq<Batch>) {
    && Ascending(AnswersOf(batches))
    && (forall k :: 0 <= k < |batches| ==> BatchOf(RowsOf(rows, batches[k].answer), batches[k]))
    && (forall answer :: RowsOf(rows, answer) != [] ==> answer in AnswersOf(batches))
    && (batches == [] <==> rows == [])
    && (rows != [] ==> batches[|batches| - 1].answer == rows[|rows| - 1].answer)
  }

  lemma RowsSnoc(rows: seq<Row>, row: Row)
    ensures forall answer :: RowsOf(rows + [row], answer) == RowsOf(rows, answer) + if row.answer == answer then [row] else []
  {
    hide FlatMap;
    forall answer
      ensures RowsOf(rows + [row], answer) == RowsOf(rows, answer) + if row.answer == answer then [row] else []
    {
      FlatMapSnoc(rows, row, OfAnswer(answer));
    }
  }

  lemma LaterAnswer(rows: seq<Row>, batches: seq<Batch>, row: Row)
    requires Grouped(rows, batches) && ByAnswer(rows + [row])
    ensures batches != [] ==> batches[|batches| - 1].answer <= row.answer
  {
    if rows != [] {
      assert (rows + [row])[|rows| - 1] == rows[|rows| - 1] && (rows + [row])[|rows|] == row;
    }
    hide RowsOf, Ascending, BatchOf;
  }

  predicate Opens(batches: seq<Batch>, row: Row) {
    batches == [] || batches[|batches| - 1].answer != row.answer
  }

  // The next row opens a batch, or joins the last one.
  function Joined(batches: seq<Batch>, row: Row): (r: seq<Batch>)
    ensures r != []
  {
    var before := if Opens(batches, row) then batches + [Batch(row.answer, row.rubric, row.increment, [])] else batches;
    var n := |before| - 1;
    before[n := before[n].(inputs := before[n].inputs + [row.input])]
  }

  lemma JoinedAnswers(batches: seq<Batch>, row: Row)
    requires batches != [] ==> batches[|batches| - 1].answer <= row.answer
    requires Ascending(AnswersOf(batches))
    ensures AnswersOf(Joined(batches, row)) == if Opens(batches, row) then AnswersOf(batches) + [row.answer] else AnswersOf(batches)
    ensures Ascending(AnswersOf(Joined(batches, row)))
  {
    AscendingMembers(AnswersOf(batches));
    if Opens(batches, row) {
      assert forall i :: 0 <= i < |batches| ==> AnswersOf(batches)[i] in AnswersOf(batches);
    }
  }

  lemma BatchSnoc(own: seq<Row>, b: Batch, row: Row)
    requires BatchOf(own, b)
    ensures BatchOf(own + [row], b.(inputs := b.inputs + [row.input]))
  {
    assert Inputs(own + [row]) == Inputs(own) + [row.input];
  }

  // What the rows of an answer become, and the batch at k.
  lemma JoinedRows(rows: seq<Row>, batches: seq<Batch>, row: Row, k: nat)
    requires Grouped(rows, batches) && ByAnswer(rows + [row]) && k < |Joined(batches, row)|
    ensures BatchOf(RowsOf(rows + [row], Joined(batches, row)[k].answer), Joined(batches, row)[k])
  {
    LaterAnswer(rows, batches, row);
    RowsSnoc(rows, row);
    var last := |Joined(batches, row)| - 1;
    assert Joined(batches, row)[last].answer == row.answer;
    if k < last {
      assert Joined(batches, row)[k] == batches[k] && batches[k].answer != row.answer by {
        AnswersAscend(batches, k);
      }
      assert RowsOf(rows + [row], batches[k].answer) == RowsOf(rows, batches[k].answer) + [];
      hide RowsOf, BatchOf, Joined, Opens;
    } else if Opens(batches, row) {
      NotYet(rows, batches, row.answer);
      hide RowsOf;
      FirstOf(row);
      hide BatchOf;
    } else {
      BatchSnoc(RowsOf(rows, row.answer), batches[k], row);
      hide RowsOf, BatchOf;
    }
  }

  lemma FirstOf(row: Row)
    ensures BatchOf([] + [row], Batch(row.answer, row.rubric, row.increment, [] + [row.input]))
  {
    assert [] + [row] == [row] && Inputs([row]) == [row.input];
  }

  lemma AnswersAscend(batches: seq<Batch>, k: nat)
    requires Ascending(AnswersOf(batches)) && k < |batches|
    ensures k < |batches| - 1 ==> batches[k].answer < batches[|batches| - 1].answer
  {
    assert AnswersOf(batches)[k] == batches[k].answer && AnswersOf(batches)[|batches| - 1] == batches[|batches| - 1].answer;
  }

  lemma GroupSnoc(rows: seq<Row>, batches: seq<Batch>, row: Row)
    requires Grouped(rows, batches) && ByAnswer(rows + [row])
    ensures Grouped(rows + [row], Joined(batches, row))
  {
    LaterAnswer(rows, batches, row);
    JoinedAnswers(batches, row);
    RowsSnoc(rows, row);
    var after := Joined(batches, row);
    assert after[|after| - 1].answer == row.answer;
    forall k | 0 <= k < |after|
      ensures BatchOf(RowsOf(rows + [row], after[k].answer), after[k])
    {
      JoinedRows(rows, batches, row, k);
    }
    hide RowsOf, Joined, Ascending, BatchOf;
    forall answer | RowsOf(rows + [row], answer) != []
      ensures answer in AnswersOf(after)
    {
      if answer == row.answer {
        assert AnswersOf(after)[|after| - 1] == answer;
      } else {
        assert answer in AnswersOf(batches);
      }
    }
  }

  lemma AscendingMembers(ids: seq<int>)
    requires Ascending(ids)
    ensures forall id :: id in ids ==> id <= ids[|ids| - 1]
  {
  }

  lemma NotYet(rows: seq<Row>, batches: seq<Batch>, answer: int)
    requires Grouped(rows, batches) && (batches == [] || batches[|batches| - 1].answer < answer)
    ensures RowsOf(rows, answer) == []
  {
    hide RowsOf, BatchOf;
    AscendingMembers(AnswersOf(batches));
  }

  method GroupRows(rows: seq<Row>) returns (batches: seq<Batch>)
    requires ByAnswer(rows)
    ensures Grouped(rows, batches)
  {
    hide Grouped, ByAnswer;
    batches := [];
    NothingGrouped(rows);
    for i := 0 to |rows|
      invariant Grouped(rows[..i], batches)
    {
      var row := rows[i];
      assert rows[..i + 1] == rows[..i] + [row];
      PrefixByAnswer(rows, i + 1);
      GroupSnoc(rows[..i], batches, row);
      ghost var before := batches;
      if |batches| == 0 || batches[|batches| - 1].answer != row.answer {
        batches := batches + [Batch(row.answer, row.rubric, row.increment, [])];
      }
      var n := |batches| - 1;
      batches := batches[n := batches[n].(inputs := batches[n].inputs + [row.input])];
      assert batches == Joined(before, row);
    }
    assert rows[..|rows|] == rows;
  }

  lemma NothingGrouped(rows: seq<Row>)
    ensures Grouped(rows[..0], [])
  {
    assert forall answer :: RowsOf([], answer) == [];
    assert AnswersOf([]) == [];
  }

  lemma PrefixByAnswer(rows: seq<Row>, n: nat)
    requires ByAnswer(rows) && n <= |rows|
    ensures ByAnswer(rows[..n])
  {
  }

  // ---- one answer ----

  function ParamsFor(p: Policy, b: Batch): CombineParams {
    CombineParams(p.combiner, p.panelSize, p.faultTolerance, b.increment, p.maxes(b.rubric), b.inputs)
  }

  // What the panel of a batch came to.
  datatype Outcome = Outcome(batch: Batch, result: CombineResult)

  function Raised(triggers: set<string>, r: CombineResult): set<string> {
    (if r.missing && AGG_MISSING in triggers then {AGG_MISSING} else {})
    + (if r.contested != [] && AGG_DISAGREEMENT in triggers then {AGG_DISAGREEMENT} else {})
    + (if r.lowConfidence && AGG_LOW_CONF in triggers then {AGG_LOW_CONF} else {})
  }

  // The flags after: each of aggregation's own exactly for its cause and while it is enabled, the
  // rest as before.
  predicate FlagsInWords(triggers: set<string>, r: CombineResult, was: set<string>, now: set<string>) {
    && (AGG_MISSING in now <==> r.missing && AGG_MISSING in triggers)
    && (AGG_DISAGREEMENT in now <==> |r.contested| > 0 && AGG_DISAGREEMENT in triggers)
    && (AGG_LOW_CONF in now <==> r.lowConfidence && AGG_LOW_CONF in triggers)
    && now - {AGG_MISSING, AGG_DISAGREEMENT, AGG_LOW_CONF} == was - {AGG_MISSING, AGG_DISAGREEMENT, AGG_LOW_CONF}
  }

  lemma RaisedInWords(triggers: set<string>, r: CombineResult, was: set<string>)
    ensures FlagsInWords(triggers, r, was, was - Owned() + Raised(triggers, r))
  {
  }

  function FlagsOf(s: State, answer: int): set<string> {
    if answer in s.flags then s.flags[answer] else {}
  }

  // A missing panel has nothing trustworthy to store.
  function RecordOf(o: Outcome): seq<Aggregate> {
    if o.result.missing then [] else [Aggregate(o.batch.answer, o.batch.rubric, o.result.scores, o.result.total)]
  }

  // The agg_* flags are cleared and raised again; the rest stay.
  function Written(triggers: set<string>, s: State, o: Outcome): State {
    State(s.flags[o.batch.answer := FlagsOf(s, o.batch.answer) - Owned() + Raised(triggers, o.result)], s.records + RecordOf(o))
  }

  // One answer after another.
  function WrittenAll(triggers: set<string>, s: State, outs: seq<Outcome>): State {
    if outs == [] then s
    else Written(triggers, WrittenAll(triggers, s, outs[..|outs| - 1]), outs[|outs| - 1])
  }

  function Tallied(flagged: map<string, nat>, flag: string): nat {
    if flag in flagged then flagged[flag] else 0
  }

  // Each raised flag counted once more.
  function Counted(flagged: map<string, nat>, raised: set<string>): map<string, nat> {
    map f | f in flagged.Keys + raised :: Tallied(flagged, f) + if f in raised then 1 else 0
  }

  function Reported(triggers: set<string>, rep: Report, o: Outcome): Report {
    Report(rep.considered + 1, Counted(rep.flagged, Raised(triggers, o.result)), rep.written + |RecordOf(o)|)
  }

  function ReportedAll(triggers: set<string>, rep: Report, outs: seq<Outcome>): Report {
    if outs == [] then rep
    else Reported(triggers, ReportedAll(triggers, rep, outs[..|outs| - 1]), outs[|outs| - 1])
  }

  const NOTHING_YET: Report := Report(0, map[], 0)

  function AnswersIn(outs: seq<Outcome>): (ids: seq<int>)
    ensures |ids| == |outs|
  {
    seq(|outs|, i requires 0 <= i < |outs| => outs[i].batch.answer)
  }

  // The outcomes are those of the first batches, each one that Combine may return.
  ghost predicate DecidedBy(p: Policy, batches: seq<Batch>, outs: seq<Outcome>) {
    && |outs| <= |batches|
    && forall k :: 0 <= k < |outs| ==> outs[k].batch == batches[k] && Combined(ParamsFor(p, batches[k]), outs[k].result)
  }

  // ---- the pass ----

  class Store {
    var flags: map<int, set<string>>
    var records: seq<Aggregate>
    var report: Report

    constructor ()
      ensures Now() == State(map[], []) && report == NOTHING_YET
    {
      flags, records, report := map[], [], NOTHING_YET;
    }

    function Now(): State
      reads this
    {
      State(flags, records)
    }

    // Each flag of aggregation's own is added or removed, and counted when it was raised.
    method SetFlags(answer: int, raise: set<string>)
      requires raise <= Owned()
      modifies this`flags, this`report
      ensures flags == old(flags)[answer := FlagsOf(old(Now()), answer) - Owned() + raise]
      ensures report == old(report).(flagged := Counted(old(report).flagged, raise))
    {
      var owned := [AGG_MISSING, AGG_DISAGREEMENT, AGG_LOW_CONF];
      var had := if answer in flags then flags[answer] else {};
      var now, counts := had, report.flagged;
      ghost var done: set<string> := {};
      NoFlagYet(had, report.flagged, raise);
      for i := 0 to |owned|
        invariant flags == old(flags) && report == old(report)
        invariant done == (set j | 0 <= j < i :: owned[j])
        invariant now == FlagsSet(had, raise, done)
        invariant counts == Counted(report.flagged, raise * done)
      {
        var f := owned[i];
        assert f !in done;
        NextFlag(had, report.flagged, raise, done, f);
        hide Counted, FlagsSet;
        if f in raise {
          counts := counts[f := Tallied(counts, f) + 1];
          now := now + {f};
        } else {
          now := now - {f};
        }
        done := done + {f};
      }
      assert owned[0] in done && owned[1] in done && owned[2] in done;
      AllFlags(had, report.flagged, raise, done);
      flags := flags[answer := now];
      report := report.(flagged := counts);
    }

    // One answer: combined, flagged, and stored unless its panel is missing.
    method AggregateOneAnswer(p: Policy, b: Batch) returns (error: Option<CombineError>, ghost o: Outcome)
      modifies this
      ensures error == None ==>
                && o.batch == b && Combined(ParamsFor(p, b), o.result)
                && Now() == Written(p.triggers, old(Now()), o) && report == Reported(p.triggers, old(report), o)
      ensures error.Some? ==>
                && RefusedWith(ParamsFor(p, b), error.value)
                && Now() == old(Now()) && report == old(report).(considered := old(report).considered + 1)
      ensures error == None ==>
                && Combined(CombineParams(p.combiner, p.panelSize, p.faultTolerance, b.increment, p.maxes(b.rubric), b.inputs), o.result)
                && FlagsInWords(p.triggers, o.result, FlagsOf(old(Now()), b.answer), FlagsOf(Now(), b.answer))
                && (forall a :: a != b.answer ==> FlagsOf(Now(), a) == FlagsOf(old(Now()), a))
                && records == (if o.result.missing then old(records)
                               else old(records) + [Aggregate(b.answer, b.rubric, o.result.scores, o.result.total)])
    {
      hide Combined, RefusedWith;
      report := report.(considered := report.considered + 1);
      var combined := Combine(ParamsFor(p, b));
      if combined.Err? {
        return Some(combined.error), Outcome(b, CombineResult(true, false, [], [], ""));
      }
      var r := combined.value;
      var raise: set<string> := {};
      if r.missing && AGG_MISSING in p.triggers {
        raise := raise + {AGG_MISSING};
      }
      if |r.contested| > 0 && AGG_DISAGREEMENT in p.triggers {
        raise := raise + {AGG_DISAGREEMENT};
      }
      if r.lowConfidence && AGG_LOW_CONF in p.triggers {
        raise := raise + {AGG_LOW_CONF};
      }
      assert raise == Raised(p.triggers, r);
      RaisedInWords(p.triggers, r, FlagsOf(Now(), b.answer));
      hide Raised, FlagsInWords;
      SetFlags(b.answer, raise);
      if !r.missing {
        records := records + [Aggregate(b.answer, b.rubric, r.scores, r.total)];
        report := report.(written := report.written + 1);
      }
      error, o := None, Outcome(b, r);
    }

    // One transaction: all the answers of the chunk, or none of them. The report keeps counting
    // even what is undone.
    method WriteChunk(p: Policy, chunk: seq<Batch>) returns (error: Option<CombineError>, ghost outs: seq<Outcome>)
      modifies this
      ensures DecidedBy(p, chunk, outs)
      ensures error == None ==>
                && |outs| == |chunk| && Now() == WrittenAll(p.triggers, old(Now()), outs)
                && report == ReportedAll(p.triggers, old(report), outs)
      ensures error.Some? ==>
                && |outs| < |chunk| && RefusedWith(ParamsFor(p, chunk[|outs|]), error.value) && Now() == old(Now())
                && report == CountedToo(ReportedAll(p.triggers, old(report), outs))
    {
      hide Written, Reported, Combined, RefusedWith;
      var flags0, records0 := flags, records;
      outs := [];
      for i := 0 to |chunk|
        invariant |outs| == i && DecidedBy(p, chunk, outs)
        invariant Now() == WrittenAll(p.triggers, old(Now()), outs)
        invariant report == ReportedAll(p.triggers, old(report), outs)
      {
        ghost var o;
        error, o := AggregateOneAnswer(p, chunk[i]);
        if error.Some? {
          flags, records := flags0, records0;
          return;
        }
        assert (outs + [o])[..i] == outs;
        outs := outs + [o];
      }
      error := None;
    }

    // The policy is checked, the rows grouped, and the batches written in chunks. A refused panel
    // undoes its own chunk and leaves the chunks before it.
    method ExecuteAggregation(p: Policy, rows: seq<Row>)
      returns (error: Option<CombineError>, ghost batches: seq<Batch>, ghost outs: seq<Outcome>, ghost undone: seq<Outcome>)
      requires ByAnswer(rows)
      modifies this
      ensures Grouped(rows, batches) && DecidedBy(p, batches, outs + undone)
      ensures error == None <==>
              PolicyShape(p.panelSize, p.faultTolerance) && forall k :: 0 <= k < |batches| ==> Readable(ParamsFor(p, batches[k]))
      ensures Now() == WrittenAll(p.triggers, old(Now()), outs)
      ensures error == None ==> |outs| == |batches| && undone == [] && report == ReportedAll(p.triggers, NOTHING_YET, outs)
      ensures !PolicyShape(p.panelSize, p.faultTolerance) ==>
                error == Some(RefusedPolicy) && outs == undone == [] && report == NOTHING_YET
      ensures error.Some? && PolicyShape(p.panelSize, p.faultTolerance) ==>
                && |outs| % CHUNK == 0 && |undone| < CHUNK && |outs| + |undone| < |batches|
                && RefusedWith(ParamsFor(p, batches[|outs| + |undone|]), error.value)
                && report == CountedToo(ReportedAll(p.triggers, NOTHING_YET, outs + undone))
    {
      hide Grouped, ByAnswer, Combined, RefusedWith, Readable, Written, Reported;
      report := NOTHING_YET;
      var grouped := GroupRows(rows);
      batches, outs, undone := grouped, [], [];
      assert outs + undone == [];
      if !PolicyShape(p.panelSize, p.faultTolerance) {
        return Some(RefusedPolicy), batches, outs, undone;
      }
      error := None;
      var start := 0;
      while start < |grouped|
        invariant 0 <= start <= |grouped| && |outs| == start && undone == [] && batches == grouped
        invariant start % CHUNK == 0 || start == |grouped|
        invariant error == None && DecidedBy(p, grouped, outs)
        invariant Now() == WrittenAll(p.triggers, old(Now()), outs)
        invariant report == ReportedAll(p.triggers, NOTHING_YET, outs)
      {
        var end := if start + CHUNK < |grouped| then start + CHUNK else |grouped|;
        ghost var more;
        error, more := WriteChunk(p, grouped[start..end]);
        InTwo(p.triggers, old(Now()), NOTHING_YET, outs, more);
        DecidedInTwo(p, grouped, start, end, outs, more);
        if error.Some? {
          undone := more;
          RefusedIsUnreadable(ParamsFor(p, grouped[start + |more|]), error.value);
          return;
        }
        outs := outs + more;
        start := end;
      }
      assert outs + undone == outs;
      DecidedAreReadable(p, grouped, outs);
    }
  }

  // The flags of an answer once those done are settled.
  function FlagsSet(had: set<string>, raise: set<string>, done: set<string>): set<string> {
    had - done + raise * done
  }

  lemma NoFlagYet(had: set<string>, flagged: map<string, nat>, raise: set<string>)
    ensures FlagsSet(had, raise, {}) == had && Counted(flagged, raise * {}) == flagged
  {
  }

  lemma NextFlag(had: set<string>, flagged: map<string, nat>, raise: set<string>, done: set<string>, f: string)
    requires f !in done
    ensures FlagsSet(had, raise, done + {f}) == if f in raise then FlagsSet(had, raise, done) + {f} else FlagsSet(had, raise, done) - {f}
    ensures var counts := Counted(flagged, raise * done);
            Counted(flagged, raise * (done + {f})) == if f in raise then counts[f := Tallied(counts, f) + 1] else counts
  {
    if f in raise {
      assert raise * (done + {f}) == raise * done + {f};
    } else {
      assert raise * (done + {f}) == raise * done;
    }
  }

  lemma AllFlags(had: set<string>, flagged: map<string, nat>, raise: set<string>, done: set<string>)
    requires raise <= Owned() && done == Owned()
    ensures FlagsSet(had, raise, done) == had - Owned() + raise && Counted(flagged, raise * done) == Counted(flagged, raise)
  {
    assert raise * done == raise;
  }

  // The refused answer was counted before its panel was combined.
  function CountedToo(rep: Report): Report {
    rep.(considered := rep.considered + 1)
  }

  lemma DecidedAreReadable(p: Policy, batches: seq<Batch>, outs: seq<Outcome>)
    requires DecidedBy(p, batches, outs)
    ensures forall k :: 0 <= k < |outs| ==> Readable(ParamsFor(p, batches[k]))
  {
    hide Readable;
    forall k | 0 <= k < |outs|
      ensures Readable(ParamsFor(p, batches[k]))
    {
      assert Combined(ParamsFor(p, batches[k]), outs[k].result);
    }
  }

  lemma DecidedInTwo(p: Policy, batches: seq<Batch>, start: nat, end: nat, outs: seq<Outcome>, more: seq<Outcome>)
    requires start <= end <= |batches| && |outs| == start
    requires DecidedBy(p, batches, outs) && DecidedBy(p, batches[start..end], more)
    ensures DecidedBy(p, batches, outs + more)
  {
    hide Combined;
    forall k | 0 <= k < |outs + more|
      ensures (outs + more)[k].batch == batches[k] && Combined(ParamsFor(p, batches[k]), (outs + more)[k].result)
    {
      if k >= start {
        assert batches[start..end][k - start] == batches[k];
      }
    }
  }

  // Writing in chunks is writing one answer after another.
  lemma {:induction false} InTwo(triggers: set<string>, s: State, rep: Report, a: seq<Outcome>, b: seq<Outcome>)
    ensures WrittenAll(triggers, s, a + b) == WrittenAll(triggers, WrittenAll(triggers, s, a), b)
    ensures ReportedAll(triggers, rep, a + b) == ReportedAll(triggers, ReportedAll(triggers, rep, a), b)
  {
    hide Written, Reported;
    if b == [] {
      assert a + b == a;
    } else {
      var n := |b| - 1;
      assert (a + b)[..|a| + n] == a + b[..n];
      InTwo(triggers, s, rep, a, b[..n]);
    }
  }

  // ---- what a pass leaves ----

  // After a pass over distinct answers, an answer's own flags are exactly those its outcome
  // raises; every other flag, and every answer without a batch, is as before.
  lemma {:induction false} FlagsAfterPass(triggers: set<string>, s: State, outs: seq<Outcome>, answer: int)
    requires Ascending(AnswersIn(outs))
    ensures var s' := WrittenAll(triggers, s, outs);
            && FlagsOf(s', answer) - Owned() == FlagsOf(s, answer) - Owned()
            && (forall k :: 0 <= k < |outs| && outs[k].batch.answer == answer ==>
                  FlagsOf(s', answer) * Owned() == Raised(triggers, outs[k].result))
            && (answer !in AnswersIn(outs) ==> FlagsOf(s', answer) == FlagsOf(s, answer))
  {
    if outs != [] {
      var n := |outs| - 1;
      var before := WrittenAll(triggers, s, outs[..n]);
      assert WrittenAll(triggers, s, outs) == Written(triggers, before, outs[n]);
      WrittenFlags(before, triggers, outs[n], answer);
      hide WrittenAll, Written, Raised, Owned, FlagsOf;
      LastAnswer(outs);
      FlagsAfterPass(triggers, s, outs[..n], answer);
      hide AnswersIn;
    }
  }

  lemma LastAnswer(outs: seq<Outcome>)
    requires outs != [] && Ascending(AnswersIn(outs))
    ensures var n := |outs| - 1;
            && AnswersIn(outs) == AnswersIn(outs[..n]) + [outs[n].batch.answer] && Ascending(AnswersIn(outs[..n]))
            && forall k :: 0 <= k < n ==> outs[k] == outs[..n][k] && outs[k].batch.answer in AnswersIn(outs[..n]) && outs[k].batch.answer < outs[n].batch.answer
  {
    var n := |outs| - 1;
    var front := AnswersIn(outs[..n]);
    assert AnswersIn(outs) == front + [outs[n].batch.answer];
    assert forall k :: 0 <= k < n ==> AnswersIn(outs)[k] == front[k];
    forall k | 0 <= k < n
      ensures outs[k].batch.answer in AnswersIn(outs[..n]) && outs[k].batch.answer < outs[n].batch.answer
    {
      assert AnswersIn(outs)[k] == AnswersIn(outs[..n])[k] == outs[k].batch.answer && AnswersIn(outs)[n] == outs[n].batch.answer;
    }
  }

  lemma WrittenFlags(s: State, triggers: set<string>, o: Outcome, answer: int)
    ensures var s' := Written(triggers, s, o);
            && FlagsOf(s', answer) - Owned() == FlagsOf(s, answer) - Owned()
            && (answer != o.batch.answer ==> FlagsOf(s', answer) == FlagsOf(s, answer))
            && (answer == o.batch.answer ==> FlagsOf(s', answer) * Owned() == Raised(triggers, o.result))
  {
  }

  // A second pass with the same outcomes changes no flag.
  lemma RerunKeepsFlags(triggers: set<string>, s: State, outs: seq<Outcome>, answer: int)
    requires Ascending(AnswersIn(outs))
    ensures var s' := WrittenAll(triggers, s, outs);
            FlagsOf(WrittenAll(triggers, s', outs), answer) == FlagsOf(s', answer)
  {
    var s' := WrittenAll(triggers, s, outs);
    FlagsAfterPass(triggers, s, outs, answer);
    FlagsAfterPass(triggers, s', outs, answer);
    hide WrittenAll, Owned, Raised;
    if answer in AnswersIn(outs) {
      var k :| 0 <= k < |outs| && AnswersIn(outs)[k] == answer;
      assert outs[k].batch.answer == answer;
      var was, again := FlagsOf(s', answer), FlagsOf(WrittenAll(triggers, s', outs), answer);
      assert was == (was - Owned()) + was * Owned() && again == (again - Owned()) + again * Owned();
    }
  }

  function Records(): Outcome -> seq<Aggregate> {
    (o: Outcome) => RecordOf(o)
  }

  // After the records already there comes one for each answer whose panel was not missing, in
  // answer order, with its scores and total; and the report counts them.
  lemma {:induction false} RecordsAfterPass(triggers: set<string>, s: State, rep: Report, outs: seq<Outcome>)
    ensures WrittenAll(triggers, s, outs).records == s.records + FlatMap(outs, Records())
    ensures var rep' := ReportedAll(triggers, rep, outs);
            rep'.considered == rep.considered + |outs| && rep'.written == rep.written + |FlatMap(outs, Records())|
  {
    if outs != [] {
      var n := |outs| - 1;
      RecordsAfterPass(triggers, s, rep, outs[..n]);
      assert FlatMap(outs, Records()) == FlatMap(outs[..n], Records()) + RecordOf(outs[n]);
      hide FlatMap, Raised, Owned, FlagsOf, RecordOf;
    }
  }

  function Raising(triggers: set<string>, flag: string): Outcome -> seq<Outcome> {
    (o: Outcome) => if flag in Raised(triggers, o.result) then [o] else []
  }

  // The report counts, for each flag, the answers whose outcome raised it.
  lemma {:induction false} ReportCountsFlags(triggers: set<string>, rep: Report, outs: seq<Outcome>, flag: string)
    ensures Tallied(ReportedAll(triggers, rep, outs).flagged, flag)
         == Tallied(rep.flagged, flag) + |FlatMap(outs, Raising(triggers, flag))|
  {
    if outs != [] {
      var n := |outs| - 1;
      ReportCountsFlags(triggers, rep, outs[..n], flag);
      assert FlatMap(outs, Raising(triggers, flag)) == FlatMap(outs[..n], Raising(triggers, flag)) + Raising(triggers, flag)(outs[n]);
      hide FlatMap, Raised, RecordOf;
    }
  }

  // The outcomes of a pass are settled by its batches, whichever way each counts map is walked,
  // as long as no input scores a criterion twice.
  lemma OutcomesAreSettled(p: Policy, batches: seq<Batch>, outs: seq<Outcome>, outs': seq<Outcome>)
    requires DecidedBy(p, batches, outs) && DecidedBy(p, batches, outs') && |outs| == |outs'|
    requires p.combiner == "mean" || forall k :: 0 <= k < |batches| ==> OnceEach(ParamsFor(p, batches[k]))
    ensures outs == outs'
  {
    hide Combined, OnceEach;
    forall k | 0 <= k < |outs|
      ensures outs[k] == outs'[k]
    {
      var params := ParamsFor(p, batches[k]);
      assert Relisted(params, params.inputs) == params;
      CombinedAnyOrder(params, params.inputs, outs[k].result, outs'[k].result);
    }
  }
}
