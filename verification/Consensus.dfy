/** internal/grading/aggregate.go: combining a panel's scores for one answer, with up to f of
    the n models at fault. */
module Consensus {
  import opened Wrappers
  import opened Decimals
  import opened Score
  import opened Seqs
  import opened MeanRendering

  datatype CriterionScore = CriterionScore(criterionId: int, score: string)

  datatype PanelInput = PanelInput(methodVersionId: int, recordId: int, confidence: string, scores: seq<CriterionScore>)

  datatype CombineParams = CombineParams(
    combiner: string,
    panelSize: int,
    faultTolerance: int,
    increment: string,
    criterionMax: map<int, string>,
    inputs: seq<PanelInput>)
  {
    function Need(): int {
      panelSize - faultTolerance
    }
  }

  datatype CombineResult = CombineResult(
    missing: bool,
    lowConfidence: bool,
    contested: seq<int>,
    scores: seq<CriterionScore>,
    total: string)

  datatype CombineError = RefusedPolicy | UnreadableScore | UnreadableIncrement | UnreadableCriterion(id: int)

  predicate PolicyShape(n: int, f: int) {
    n >= 1 && f >= 0 && 2 * f < n
  }

  // ---- what the inputs say ----

  function ScoresOf(input: PanelInput): seq<CriterionScore> {
    input.scores
  }

  function AllScores(inputs: seq<PanelInput>): seq<CriterionScore> {
    FlatMap(inputs, ScoresOf)
  }

  function VoteFor(id: int): CriterionScore -> seq<real> {
    (sc: CriterionScore) =>
      if sc.criterionId == id && RatOf(sc.score).Some? then [RatOf(sc.score).value] else []
  }

  function Votes(scores: seq<CriterionScore>, id: int): seq<real> {
    FlatMap(scores, VoteFor(id))
  }

  function Ids(scores: seq<CriterionScore>): set<int> {
    set sc | sc in scores :: sc.criterionId
  }

  function Backing(s: string): real -> seq<real> {
    (v: real) => if RatStr(v) == s then [v] else []
  }

  // How many votes print as s.
  function Count(vs: seq<real>, s: string): nat {
    |FlatMap(vs, Backing(s))|
  }

  function LowVote(input: PanelInput): seq<PanelInput> {
    if input.confidence == "low" || input.confidence == "illegible" then [input] else []
  }

  function LowCount(inputs: seq<PanelInput>): nat {
    |FlatMap(inputs, LowVote)|
  }

  function Outlier(value: real, inc: real): real -> seq<real> {
    (v: real) => if Abs(v - value) > inc then [v] else []
  }

  function Outliers(vs: seq<real>, value: real, inc: real): nat {
    |FlatMap(vs, Outlier(value, inc))|
  }

  // ---- the decision for one criterion ----

  // The votes a decision is taken from, and the limits it respects.
  datatype Ballot = Ballot(votes: seq<real>, max: string, inc: string)

  function SnappedMean(b: Ballot): Result<(string, bool), ScoreError>
    requires b.votes != []
  {
    SnapClamped(RatStr(MeanOf(b.votes)), b.max, b.inc)
  }

  // A most frequent printed value. With several of them any one may be found first.
  ghost predicate Plurality(vs: seq<real>, s: string) {
    Count(vs, s) > 0 && forall t :: Count(vs, t) <= Count(vs, s)
  }

  // The value before the last snap, and whether the criterion is contested.
  ghost predicate RawMajority(b: Ballot, need: int, raw: string, contested: bool)
    requires b.votes != []
  {
    if exists s :: Count(b.votes, s) >= need
    then !contested && Plurality(b.votes, raw) && Count(b.votes, raw) >= need
    else contested && SnappedMean(b).Ok? && raw == SnappedMean(b).value.0
  }

  ghost predicate RawMean(b: Ballot, f: int, raw: string, contested: bool)
    requires b.votes != []
  {
    && SnappedMean(b).Ok?
    && raw == SnappedMean(b).value.0
    && RatOf(raw).Some? && RatOf(b.inc).Some?
    && contested == (Outliers(b.votes, RatOf(raw).value, RatOf(b.inc).value) > f)
  }

  ghost predicate RawDecision(combiner: string, b: Ballot, need: int, f: int, raw: string, contested: bool)
    requires b.votes != []
  {
    if combiner == "majority" then RawMajority(b, need, raw, contested)
    else combiner == "mean" && RawMean(b, f, raw, contested)
  }

  ghost predicate Decided(combiner: string, b: Ballot, need: int, f: int, value: string, contested: bool)
    requires b.votes != []
  {
    exists raw ::
      RawDecision(combiner, b, need, f, raw, contested)
      && SnapClamped(raw, b.max, b.inc).Ok? && value == SnapClamped(raw, b.max, b.inc).value.0
  }

  // ---- the decision for one answer ----

  predicate ScoreReadable(sc: CriterionScore) {
    RatOf(sc.score).Some?
  }

  predicate IncrementReadable(inc: string) {
    RatOf(inc).Some? && RatOf(inc).value > 0.0
  }

  predicate KnownCombiner(combiner: string) {
    combiner == "majority" || combiner == "mean"
  }

  predicate CriterionReadable(p: CombineParams, id: int) {
    id in p.criterionMax && KnownCombiner(p.combiner) && RatOf(p.criterionMax[id]).Some?
  }

  predicate Readable(p: CombineParams) {
    var scores := AllScores(p.inputs);
    && PolicyShape(p.panelSize, p.faultTolerance)
    && (|p.inputs| >= p.Need() ==>
          && (forall sc :: sc in scores ==> ScoreReadable(sc))
          && IncrementReadable(p.increment)
          && (forall id :: id in Ids(scores) ==> CriterionReadable(p, id)))
  }

  // Which error a refused panel is refused with.
  ghost predicate RefusedWith(p: CombineParams, e: CombineError) {
    var scores := AllScores(p.inputs);
    if !PolicyShape(p.panelSize, p.faultTolerance) then e == RefusedPolicy
    else if |p.inputs| < p.Need() then false
    else if exists sc :: sc in scores && !ScoreReadable(sc) then e == UnreadableScore
    else if !IncrementReadable(p.increment) then e == UnreadableIncrement
    else
      && e.UnreadableCriterion? && e.id in Ids(scores) && !CriterionReadable(p, e.id)
      && forall id :: id in Ids(scores) && id < e.id ==> CriterionReadable(p, id)
  }

  function BallotFor(p: CombineParams, id: int): Ballot {
    Ballot(Votes(AllScores(p.inputs), id), if id in p.criterionMax then p.criterionMax[id] else "", p.increment)
  }

  ghost predicate CriterionDecided(p: CombineParams, id: int, value: string, contested: bool) {
    var b := BallotFor(p, id);
    b.votes != [] && Decided(p.combiner, b, p.Need(), p.faultTolerance, value, contested)
  }

  function IdsOf(scores: seq<CriterionScore>): seq<int> {
    seq(|scores|, i requires 0 <= i < |scores| => scores[i].criterionId)
  }

  function ScoreStrings(scores: seq<CriterionScore>): seq<string> {
    seq(|scores|, i requires 0 <= i < |scores| => scores[i].score)
  }

  // A result Combine may return: with ties for the majority there can be several.
  ghost predicate Combined(p: CombineParams, r: CombineResult) {
    && Readable(p)
    && (if |p.inputs| < p.Need() then r == CombineResult(true, false, [], [], "")
        else
          && !r.missing
          && r.lowConfidence == (LowCount(p.inputs) > p.faultTolerance)
          && Ascending(IdsOf(r.scores))
          && Elements(IdsOf(r.scores)) == Ids(AllScores(p.inputs))
          && Ascending(r.contested)
          && (forall id :: id in r.contested ==> id in IdsOf(r.scores))
          && (forall i :: 0 <= i < |r.scores| ==>
                CriterionDecided(p, r.scores[i].criterionId, r.scores[i].score, r.scores[i].criterionId in r.contested))
          && ReadAll(ScoreStrings(r.scores)).Some?
          && r.total == RatStr(SumReals(ReadAll(ScoreStrings(r.scores)).value)))
  }

  // ---- Combine ----

  // One vote per score, filed under its criterion.
  method CollectVotes(inputs: seq<PanelInput>) returns (r: Option<map<int, seq<real>>>)
    ensures r.None? <==> exists sc :: sc in AllScores(inputs) && !ScoreReadable(sc)
    ensures r.Some? ==> Filed(r.value, AllScores(inputs))
  {
    hide RatOf, FlatMap, Filed;
    var votes: map<int, seq<real>> := map[];
    FiledNothing();
    for i := 0 to |inputs|
      invariant Filed(votes, AllScores(inputs[..i]))
    {
      AllScoresSnoc(inputs, i);
      var filed := FileScores(votes, AllScores(inputs[..i]), inputs[i].scores);
      if filed == None {
        forall sc | sc in inputs[i].scores
          ensures sc in AllScores(inputs)
        {
          ScoreSeen(inputs, i, sc);
        }
        return None;
      }
      votes := filed.value;
    }
    assert inputs[..|inputs|] == inputs;
    FiledReadable(votes, AllScores(inputs));
    r := Some(votes);
  }

  method FileScores(before: map<int, seq<real>>, ghost done: seq<CriterionScore>, scores: seq<CriterionScore>)
    returns (r: Option<map<int, seq<real>>>)
    requires Filed(before, done)
    ensures r.None? <==> exists sc :: sc in scores && !ScoreReadable(sc)
    ensures r.Some? ==> Filed(r.value, done + scores)
  {
    hide RatOf, FlatMap, Filed;
    var votes := before;
    assert done + scores[..0] == done;
    for j := 0 to |scores|
      invariant Filed(votes, done + scores[..j])
      invariant forall k :: 0 <= k < j ==> ScoreReadable(scores[k])
    {
      var x := RatOf(scores[j].score);
      if x == None {
        assert !ScoreReadable(scores[j]);
        return None;
      }
      var id := scores[j].criterionId;
      FiledSnoc(votes, done + scores[..j], scores[j]);
      votes := votes[id := (if id in votes then votes[id] else []) + [x.value]];
      assert done + scores[..j + 1] == done + scores[..j] + [scores[j]];
    }
    assert scores[..|scores|] == scores;
    r := Some(votes);
  }

  lemma AllScoresSnoc(inputs: seq<PanelInput>, i: nat)
    requires i < |inputs|
    ensures AllScores(inputs[..i + 1]) == AllScores(inputs[..i]) + inputs[i].scores
  {
    assert inputs[..i + 1] == inputs[..i] + [inputs[i]];
    FlatMapSnoc(inputs[..i], inputs[i], ScoresOf);
  }

  lemma FiledNothing()
    ensures Filed(map[], AllScores([]))
  {
    assert AllScores([]) == [];
    assert forall id :: Votes([], id) == [];
    assert Ids([]) == {};
  }

  lemma FiledReadable(votes: map<int, seq<real>>, done: seq<CriterionScore>)
    requires Filed(votes, done)
    ensures forall sc :: sc in done ==> ScoreReadable(sc)
  {
  }

  ghost predicate Filed(votes: map<int, seq<real>>, done: seq<CriterionScore>) {
    && votes.Keys == Ids(done)
    && (forall sc :: sc in done ==> ScoreReadable(sc))
    && forall id :: Votes(done, id) == if id in votes then votes[id] else []
  }

  lemma FiledSnoc(votes: map<int, seq<real>>, done: seq<CriterionScore>, sc: CriterionScore)
    requires Filed(votes, done) && ScoreReadable(sc)
    ensures var id := sc.criterionId;
            Filed(votes[id := (if id in votes then votes[id] else []) + [RatOf(sc.score).value]], done + [sc])
  {
    hide RatOf, FlatMap;
    forall id
      ensures Votes(done + [sc], id) == Votes(done, id) + VoteFor(id)(sc)
    {
      FlatMapSnoc(done, sc, VoteFor(id));
    }
    assert Ids(done + [sc]) == Ids(done) + {sc.criterionId};
  }

  lemma ScoreSeen(inputs: seq<PanelInput>, i: nat, sc: CriterionScore)
    requires i < |inputs| && sc in inputs[i].scores
    ensures sc in AllScores(inputs)
  {
    hide FlatMap;
    assert inputs == inputs[..i + 1] + inputs[i + 1..];
    FlatMapConcat(inputs[..i + 1], inputs[i + 1..], ScoresOf);
    AllScoresSnoc(inputs, i);
  }

  // Count the printed values, then look through the counts in no particular order.
  method Tally(vs: seq<real>) returns (best: string, bestN: nat)
    requires vs != []
    ensures Plurality(vs, best) && bestN == Count(vs, best)
  {
    hide RatStr, FlatMap;
    var counts: map<string, nat> := map[];
    NoVotesYet(vs);
    for i := 0 to |vs|
      invariant forall s :: Count(vs[..i], s) == if s in counts then counts[s] else 0
    {
      var s := RatStr(vs[i]);
      CountSnoc(vs, i);
      counts := counts[s := (if s in counts then counts[s] else 0) + 1];
    }
    assert vs[..|vs|] == vs;
    CountSnoc(vs, 0);
    best, bestN := "", 0;
    var rest := counts.Keys;
    while rest != {}
      invariant rest <= counts.Keys
      invariant bestN > 0 ==> best in counts && bestN == counts[best]
      invariant forall s :: s in counts && s !in rest ==> counts[s] <= bestN
      decreases rest
    {
      ghost var some := Member(rest);
      assert some in rest;
      var s :| s in rest;
      if counts[s] > bestN {
        best, bestN := s, counts[s];
      }
      rest := rest - {s};
    }
    SomeVote(vs);
    assert Count(vs, RatStr(vs[0])) <= bestN;
  }

  lemma CountSnoc(vs: seq<real>, i: nat)
    requires i < |vs|
    ensures forall s :: Count(vs[..i + 1], s) == Count(vs[..i], s) + if RatStr(vs[i]) == s then 1 else 0
  {
    hide RatStr, FlatMap;
    assert vs[..i + 1] == vs[..i] + [vs[i]];
    forall s
      ensures Count(vs[..i + 1], s) == Count(vs[..i], s) + if RatStr(vs[i]) == s then 1 else 0
    {
      FlatMapSnoc(vs[..i], vs[i], Backing(s));
    }
  }

  lemma NoVotesYet(vs: seq<real>)
    ensures forall s :: Count(vs[..0], s) == 0
  {
  }

  lemma SomeVote(vs: seq<real>)
    requires vs != []
    ensures Count(vs, RatStr(vs[0])) > 0
  {
    hide RatStr, FlatMap;
    assert vs == [vs[0]] + vs[1..];
    FlatMapConcat([vs[0]], vs[1..], Backing(RatStr(vs[0])));
    FlatMapSnoc([], vs[0], Backing(RatStr(vs[0])));
    assert [] + [vs[0]] == [vs[0]];
  }

  // The switch of the combine loop: the value before the last snap, and whether it is contested.
  method DecideRaw(combiner: string, b: Ballot, need: int, f: int) returns (raw: string, contested: bool)
    requires b.votes != [] && need >= 1
    requires IncrementReadable(b.inc) && RatOf(b.max).Some? && KnownCombiner(combiner)
    ensures RawDecision(combiner, b, need, f, raw, contested)
    ensures RatOf(raw).Some?
  {
    hide RatOf, RatStr, FlatMap, SnapVal;
    PrintedIsReadable(MeanOf(b.votes));
    SnappedIsReadable(RatStr(MeanOf(b.votes)), b.max, b.inc);
    var mean := SnapClamp(RatStr(MeanOf(b.votes)), b.max, b.inc);
    contested := false;
    if combiner == "majority" {
      var best, bestN := Tally(b.votes);
      CountedIsReadable(b.votes, best);
      if bestN >= need {
        raw := best;
      } else {
        contested := true;
        raw := mean.value.0;
      }
    } else {
      raw := mean.value.0;
      var outliers := 0;
      NoOutliersYet(b.votes, RatOf(raw).value, RatOf(b.inc).value);
      for i := 0 to |b.votes|
        invariant outliers == Outliers(b.votes[..i], RatOf(raw).value, RatOf(b.inc).value)
      {
        var diff := b.votes[i] - RatOf(raw).value;
        if diff < 0.0 {
          diff := -diff;
        }
        OutlierSnoc(b.votes, i, RatOf(raw).value, RatOf(b.inc).value);
        if diff > RatOf(b.inc).value {
          outliers := outliers + 1;
        }
      }
      assert b.votes[..|b.votes|] == b.votes;
      contested := outliers > f;
    }
  }

  lemma PrintedIsReadable(x: real)
    ensures RatOf(RatStr(x)).Some?
  {
    hide RatOf, RatStr;
    PrintedReadsBack(x);
  }

  lemma SnappedIsReadable(score: string, max: string, inc: string)
    requires RatOf(score).Some? && RatOf(max).Some? && IncrementReadable(inc)
    ensures SnapClamped(score, max, inc).Ok? && RatOf(SnapClamped(score, max, inc).value.0).Some?
  {
    hide RatOf, RatStr;
    PrintedIsReadable(SnapVal(RatOf(score).value, RatOf(max).value, RatOf(inc).value));
  }

  lemma CountedIsReadable(vs: seq<real>, s: string)
    requires Count(vs, s) > 0
    ensures RatOf(s).Some?
    ensures exists v :: v in vs && RatStr(v) == s
  {
    hide RatOf, RatStr;
    var v := CountedVote(vs, s);
    PrintedIsReadable(v);
  }

  lemma {:induction false} CountedVote(vs: seq<real>, s: string) returns (v: real)
    requires Count(vs, s) > 0
    ensures v in vs && RatStr(v) == s
  {
    hide RatStr;
    if RatStr(vs[|vs| - 1]) == s {
      v := vs[|vs| - 1];
    } else {
      v := CountedVote(vs[..|vs| - 1], s);
    }
  }

  lemma NoOutliersYet(vs: seq<real>, value: real, inc: real)
    ensures Outliers(vs[..0], value, inc) == 0
  {
  }

  lemma OutlierSnoc(vs: seq<real>, i: nat, value: real, inc: real)
    requires i < |vs|
    ensures Outliers(vs[..i + 1], value, inc) == Outliers(vs[..i], value, inc) + if Abs(vs[i] - value) > inc then 1 else 0
  {
    assert vs[..i + 1] == vs[..i] + [vs[i]];
    FlatMapSnoc(vs[..i], vs[i], Outlier(value, inc));
  }

  // What is settled after some criteria: their scores in order, and which of them are contested.
  ghost predicate Settled(p: CombineParams, ids: seq<int>, scores: seq<CriterionScore>, contested: seq<int>) {
    && |scores| == |ids|
    && Ascending(contested)
    && (forall id :: id in contested ==> id in ids)
    && forall k :: 0 <= k < |ids| ==>
         scores[k].criterionId == ids[k] && CriterionDecided(p, ids[k], scores[k].score, ids[k] in contested)
  }

  function Listed(contested: seq<int>, id: int, disputed: bool): seq<int> {
    if disputed then contested + [id] else contested
  }

  lemma ListedSnoc(ids: seq<int>, contested: seq<int>, id: int, disputed: bool)
    requires Ascending(ids + [id]) && Ascending(contested) && forall x :: x in contested ==> x in ids
    ensures var contested' := Listed(contested, id, disputed);
            && Ascending(contested')
            && (forall x :: x in contested' ==> x in ids + [id])
            && (id in contested' <==> disputed)
            && forall x :: x in ids ==> (x in contested' <==> x in contested)
  {
    BeforeLast(ids, id);
    assert forall j :: 0 <= j < |contested| ==> contested[j] in contested;
  }

  lemma BeforeLast(ids: seq<int>, id: int)
    requires Ascending(ids + [id])
    ensures forall x :: x in ids ==> x < id
  {
    var ids' := ids + [id];
    forall x | x in ids
      ensures x < id
    {
      var k :| 0 <= k < |ids| && ids[k] == x;
      assert ids'[k] < ids'[|ids|];
    }
  }

  lemma SettledSnoc(p: CombineParams, ids: seq<int>, scores: seq<CriterionScore>, contested: seq<int>,
                    id: int, value: string, disputed: bool)
    requires Settled(p, ids, scores, contested)
    requires Ascending(ids + [id]) && CriterionDecided(p, id, value, disputed)
    ensures Settled(p, ids + [id], scores + [CriterionScore(id, value)], Listed(contested, id, disputed))
  {
    ListedSnoc(ids, contested, id, disputed);
    hide CriterionDecided, Listed, Ascending;
    var ids', scores', contested' := ids + [id], scores + [CriterionScore(id, value)], Listed(contested, id, disputed);
    forall k | 0 <= k < |ids'|
      ensures scores'[k].criterionId == ids'[k] && CriterionDecided(p, ids'[k], scores'[k].score, ids'[k] in contested')
    {
      if k < |ids| {
        assert scores[k].criterionId == ids[k] && CriterionDecided(p, ids[k], scores[k].score, ids[k] in contested);
      }
    }
  }

  lemma NothingSettled(p: CombineParams)
    ensures Settled(p, [], [], [])
  {
  }

  lemma SettledResult(p: CombineParams, ids: seq<int>, scores: seq<CriterionScore>, contested: seq<int>)
    requires Settled(p, ids, scores, contested)
    ensures IdsOf(scores) == ids && Ascending(contested) && (forall id :: id in contested ==> id in ids)
    ensures forall i :: 0 <= i < |scores| ==>
              CriterionDecided(p, scores[i].criterionId, scores[i].score, scores[i].criterionId in contested)
  {
    hide CriterionDecided;
  }

  method CountLow(inputs: seq<PanelInput>) returns (low: nat)
    ensures low == LowCount(inputs)
  {
    hide FlatMap;
    low := 0;
    FlatMapNothing(LowVote);
    assert inputs[..0] == [];
    for i := 0 to |inputs|
      invariant low == LowCount(inputs[..i])
    {
      assert inputs[..i + 1] == inputs[..i] + [inputs[i]];
      FlatMapSnoc(inputs[..i], inputs[i], LowVote);
      if inputs[i].confidence == "low" || inputs[i].confidence == "illegible" {
        low := low + 1;
      }
    }
    assert inputs[..|inputs|] == inputs;
  }

  lemma FlatMapNothing<T, U>(f: T -> seq<U>)
    ensures FlatMap([], f) == []
  {
  }

  // One pass of the loop over the criteria: the ballot decided, then snapped and clamped once more.
  method DecideCriterion(p: CombineParams, id: int, vs: seq<real>) returns (r: Option<(string, bool)>)
    requires vs == Votes(AllScores(p.inputs), id) && vs != [] && p.Need() >= 1 && IncrementReadable(p.increment)
    ensures r.None? <==> !CriterionReadable(p, id)
    ensures r.Some? ==> CriterionDecided(p, id, r.value.0, r.value.1) && RatOf(r.value.0).Some?
  {
    hide RatOf, RatStr, FlatMap, RawDecision, SnapClamped, Votes, AllScores;
    if id !in p.criterionMax || !KnownCombiner(p.combiner) || RatOf(p.criterionMax[id]) == None {
      return None;
    }
    var b := Ballot(vs, p.criterionMax[id], p.increment);
    var raw, contested := DecideRaw(p.combiner, b, p.Need(), p.faultTolerance);
    SnappedIsReadable(raw, b.max, b.inc);
    var out := SnapClamp(raw, b.max, b.inc);
    r := Some((out.value.0, contested));
    assert Decided(p.combiner, b, p.Need(), p.faultTolerance, out.value.0, contested);
  }

  lemma VotesPresent(scores: seq<CriterionScore>, id: int)
    requires id in Ids(scores) && forall sc :: sc in scores ==> ScoreReadable(sc)
    ensures Votes(scores, id) != []
  {
    hide RatOf, FlatMap;
    var sc :| sc in scores && sc.criterionId == id;
    var k :| 0 <= k < |scores| && scores[k] == sc;
    assert scores == scores[..k] + [sc] + scores[k + 1..];
    FlatMapSnoc(scores[..k], sc, VoteFor(id));
    FlatMapConcat(scores[..k] + [sc], scores[k + 1..], VoteFor(id));
    assert ScoreReadable(sc);
  }

  method Combine(p: CombineParams) returns (r: Result<CombineResult, CombineError>)
    ensures r.Err? ==> RefusedWith(p, r.error)
    ensures r.Ok? ==> Combined(p, r.value)
  {
    hide RatOf, RatStr, AllScores, Votes, LowCount, CriterionDecided, SumReals, ReadAll, ScoreReadable, IncrementReadable, CriterionReadable, Filed, Settled;
    if !PolicyShape(p.panelSize, p.faultTolerance) {
      return Err(RefusedPolicy);
    }
    if |p.inputs| < p.Need() {
      return Ok(CombineResult(true, false, [], [], ""));
    }
    var lowConf := CountLow(p.inputs);
    var votes := CollectVotes(p.inputs);
    if votes == None {
      return Err(UnreadableScore);
    }
    var critIDs := SortedKeys(votes.value.Keys);
    FiledKeys(votes.value, AllScores(p.inputs));
    if !IncrementReadable(p.increment) {
      return Err(UnreadableIncrement);
    }
    var scores: seq<CriterionScore>, contested, totals := [], [], [];
    assert critIDs[..0] == [];
    NothingSettled(p);
    for i := 0 to |critIDs|
      invariant Settled(p, critIDs[..i], scores, contested)
      invariant totals == ScoreStrings(scores)
      invariant forall k :: 0 <= k < i ==> CriterionReadable(p, critIDs[k])
      invariant forall k :: 0 <= k < |totals| ==> RatOf(totals[k]).Some?
    {
      var id := critIDs[i];
      assert id in Elements(critIDs);
      FiledVotes(votes.value, AllScores(p.inputs), id);
      var decided := DecideCriterion(p, id, votes.value[id]);
      if decided == None {
        BelowAreEarlier(critIDs, i);
        return Err(UnreadableCriterion(id));
      }
      assert critIDs[..i + 1] == critIDs[..i] + [id];
      SettledSnoc(p, critIDs[..i], scores, contested, id, decided.value.0, decided.value.1);
      assert Listed(contested, id, decided.value.1) == if decided.value.1 then contested + [id] else contested;
      if decided.value.1 {
        contested := contested + [id];
      }
      scores := scores + [CriterionScore(id, decided.value.0)];
      totals := totals + [decided.value.0];
    }
    assert critIDs[..|critIDs|] == critIDs;
    AllReadable(totals);
    var total := SumDecimals(totals);
    BelowAreEarlier(critIDs, |critIDs|);
    SettledResult(p, critIDs, scores, contested);
    r := Ok(CombineResult(false, lowConf > p.faultTolerance, contested, scores, total.value));
  }

  lemma FiledKeys(votes: map<int, seq<real>>, done: seq<CriterionScore>)
    requires Filed(votes, done)
    ensures votes.Keys == Ids(done) && forall sc :: sc in done ==> ScoreReadable(sc)
  {
  }

  lemma FiledVotes(votes: map<int, seq<real>>, done: seq<CriterionScore>, id: int)
    requires Filed(votes, done) && id in votes
    ensures votes[id] == Votes(done, id) && votes[id] != []
  {
    VotesPresent(done, id);
  }

  lemma BelowAreEarlier(ids: seq<int>, i: nat)
    requires i <= |ids| && Ascending(ids)
    ensures forall id :: id in Elements(ids) && (i < |ids| ==> id < ids[i]) ==> id in ids[..i]
  {
  }

  lemma {:induction false} AllReadable(scores: seq<string>)
    requires forall k :: 0 <= k < |scores| ==> RatOf(scores[k]).Some?
    ensures ReadAll(scores).Some? && |ReadAll(scores).value| == |scores|
    ensures forall k :: 0 <= k < |scores| ==> RatOf(scores[k]) == Some(ReadAll(scores).value[k])
  {
    hide RatOf;
    if scores != [] {
      AllReadable(scores[..|scores| - 1]);
    }
  }
}
