/** internal/grading/manual.go, internal/grading/response.go, internal/httpapi/rubrics.go and
    internal/httpapi/problems.go: rubrics whose points add up to the problem's maximum, and
    grades that score every criterion once. */
module Grading {
  import opened Wrappers
  import opened Numerals
  import opened Decimals
  import opened Score
  import opened Seqs
  import opened Consensus

  datatype Criterion = Criterion(id: int, points: real)

  datatype Rubric = Rubric(problem: int, increment: real, criteria: seq<Criterion>)

  // A stored grade against a rubric version; an illegible one has no total.
  datatype Grade = Grade(rubric: nat, scores: seq<CriterionScore>, total: Option<real>)

  datatype GradeError =
    | NoSuchRubric
    | NoCriteria
    | UnknownCriterion(id: int)
    | ScoredTwice(id: int)
    | NotANumber(id: int)
    | MissingCriteria
    | BadConfidence

  // A NUMERIC column with two decimals rounds what is stored in it.
  function Cent(x: real): real {
    RoundHalfAway(x * 100.0) as real / 100.0
  }

  function Cents(points: seq<real>): (r: seq<real>)
    ensures |r| == |points|
  {
    seq(|points|, i requires 0 <= i < |points| => Cent(points[i]))
  }

  // ---- scoring a rubric ----

  function CriterionIds(criteria: seq<Criterion>): (ids: seq<int>)
    ensures |ids| == |criteria|
  {
    seq(|criteria|, i requires 0 <= i < |criteria| => criteria[i].id)
  }

  function PointsIn(criteria: seq<Criterion>): (points: seq<real>)
    ensures |points| == |criteria|
  {
    seq(|criteria|, i requires 0 <= i < |criteria| => criteria[i].points)
  }

  predicate NoRepeats(ids: seq<int>) {
    forall i, j :: 0 <= i < j < |ids| ==> ids[i] != ids[j]
  }

  // Every criterion of the rubric scored, each exactly once, and nothing else.
  predicate ScoredOnce(criteria: seq<Criterion>, scores: seq<CriterionScore>) {
    NoRepeats(IdsOf(scores)) && Elements(IdsOf(scores)) == Elements(CriterionIds(criteria))
  }

  // The points of the criterion with that id.
  function PointsOf(criteria: seq<Criterion>, id: int): Option<real> {
    if criteria == [] then None
    else
      var last := criteria[|criteria| - 1];
      if last.id == id then Some(last.points) else PointsOf(criteria[..|criteria| - 1], id)
  }

  // A score as stored: snapped to the increment and clamped to the criterion's points.
  function SnappedScore(r: Rubric, sc: CriterionScore): Option<string> {
    match PointsOf(r.criteria, sc.criterionId)
    case None => None
    case Some(points) =>
      var out := SnapClamped(sc.score, RatStr(points), RatStr(r.increment));
      if out.Ok? then Some(out.value.0) else None
  }

  function SnappedScores(r: Rubric, scores: seq<CriterionScore>): Option<seq<CriterionScore>> {
    if scores == [] then Some([])
    else
      var last := scores[|scores| - 1];
      match (SnappedScores(r, scores[..|scores| - 1]), SnappedScore(r, last))
      case (Some(front), Some(s)) => Some(front + [CriterionScore(last.criterionId, s)])
      case _ => None
  }

  // The app-side total, as the column stores it.
  function StoredTotal(scores: seq<CriterionScore>): Option<real> {
    match ReadAll(ScoreStrings(scores))
    case None => None
    case Some(xs) => Some(Cent(Rendered(SumReals(xs))))
  }

  // What is stored for a score: of the same criterion, the score given, snapped to the increment
  // and clamped to the criterion's points, all as their strings read.
  ghost predicate SnapsTo(r: Rubric, given: CriterionScore, stored: CriterionScore) {
    && stored.criterionId == given.criterionId && RatOf(given.score).Some? && Rendered(r.increment) > 0.0
    && exists c :: 0 <= c < |r.criteria| && r.criteria[c].id == given.criterionId
         && RatOf(stored.score) == Some(Rendered(SnapVal(RatOf(given.score).value, Rendered(r.criteria[c].points), Rendered(r.increment))))
  }

  ghost predicate SnapsAll(r: Rubric, given: seq<CriterionScore>, stored: seq<CriterionScore>) {
    |stored| == |given| && forall i :: 0 <= i < |given| ==> SnapsTo(r, given[i], stored[i])
  }

  lemma {:induction false} PointsAreACriterions(criteria: seq<Criterion>, id: int)
    ensures PointsOf(criteria, id).Some? ==>
              exists c :: 0 <= c < |criteria| && criteria[c].id == id && criteria[c].points == PointsOf(criteria, id).value
  {
    if criteria != [] {
      var n := |criteria| - 1;
      PointsAreACriterions(criteria[..n], id);
      if criteria[n].id != id && PointsOf(criteria, id).Some? {
        var c :| 0 <= c < n && criteria[..n][c].id == id && criteria[..n][c].points == PointsOf(criteria, id).value;
        assert criteria[c] == criteria[..n][c];
      }
    }
  }

  lemma SnapsOne(r: Rubric, sc: CriterionScore)
    requires SnappedScore(r, sc).Some?
    ensures SnapsTo(r, sc, CriterionScore(sc.criterionId, SnappedScore(r, sc).value))
  {
    PointsAreACriterions(r.criteria, sc.criterionId);
    var points := PointsOf(r.criteria, sc.criterionId).value;
    hide RatOf, RatStr, Rendered, SnapVal, PointsOf;
    PrintedReadsBack(points);
    PrintedReadsBack(r.increment);
    SnapReads(sc.score, RatStr(points), RatStr(r.increment), RatOf(sc.score).value);
  }

  lemma {:induction false} SnapsEach(r: Rubric, scores: seq<CriterionScore>)
    requires SnappedScores(r, scores).Some?
    ensures SnapsAll(r, scores, SnappedScores(r, scores).value)
  {
    hide SnapsTo, SnappedScore;
    if scores != [] {
      SnapsEach(r, scores[..|scores| - 1]);
      SnapsOne(r, scores[|scores| - 1]);
    }
  }

  // ---- the exactly-once loop ----

  lemma ElementsOf(ids: seq<int>)
    ensures forall id :: id in Elements(ids) <==> id in ids
  {
  }

  lemma {:induction false} DistinctCount(ids: seq<int>)
    requires NoRepeats(ids)
    ensures |Elements(ids)| == |ids|
  {
    if ids != [] {
      var rest, last := ids[..|ids| - 1], ids[|ids| - 1];
      DistinctCount(rest);
      assert ids == rest + [last];
      SnocElements(rest, last);
      assert last !in Elements(rest);
    }
  }

  lemma {:induction false} SameSize(a: set<int>, b: set<int>)
    requires a <= b && |a| == |b|
    ensures a == b
  {
    if a == {} {
      assert b == {};
    } else {
      var x := Member(a);
      SameSize(a - {x}, b - {x});
    }
  }

  lemma {:induction false} PointsOfMember(criteria: seq<Criterion>, id: int)
    ensures PointsOf(criteria, id).Some? <==> id in CriterionIds(criteria)
  {
    if criteria != [] {
      var n := |criteria| - 1;
      PointsOfMember(criteria[..n], id);
      assert CriterionIds(criteria) == CriterionIds(criteria[..n]) + [criteria[n].id];
    }
  }

  // The ids seen so far are those of the scores taken, each once, all of the rubric.
  ghost predicate SeenOnce(criteria: seq<Criterion>, scores: seq<CriterionScore>, seen: set<int>) {
    seen == Elements(IdsOf(scores)) && NoRepeats(IdsOf(scores)) && seen <= Elements(CriterionIds(criteria))
  }

  lemma SeeOne(criteria: seq<Criterion>, scores: seq<CriterionScore>, seen: set<int>, sc: CriterionScore)
    requires SeenOnce(criteria, scores, seen) && sc.criterionId in CriterionIds(criteria) && sc.criterionId !in seen
    ensures SeenOnce(criteria, scores + [sc], seen + {sc.criterionId})
  {
    assert IdsOf(scores + [sc]) == IdsOf(scores) + [sc.criterionId];
    SnocElements(IdsOf(scores), sc.criterionId);
    assert forall i :: 0 <= i < |IdsOf(scores)| ==> IdsOf(scores)[i] in Elements(IdsOf(scores));
  }

  // Counting the seen ids is enough: with as many as there are criteria, none is missing.
  lemma AllSeen(criteria: seq<Criterion>, scores: seq<CriterionScore>, seen: set<int>)
    requires SeenOnce(criteria, scores, seen) && NoRepeats(CriterionIds(criteria))
    ensures |seen| == |criteria| <==> ScoredOnce(criteria, scores)
  {
    DistinctCount(CriterionIds(criteria));
    if |seen| == |criteria| {
      SameSize(seen, Elements(CriterionIds(criteria)));
    }
  }

  // A repeated or unknown id anywhere rules the scores out.
  lemma RuledOut(criteria: seq<Criterion>, scores: seq<CriterionScore>, i: nat)
    requires i < |scores|
    requires scores[i].criterionId !in CriterionIds(criteria) || scores[i].criterionId in Elements(IdsOf(scores[..i]))
    ensures !ScoredOnce(criteria, scores)
  {
    assert IdsOf(scores)[i] in Elements(IdsOf(scores));
    if scores[i].criterionId in Elements(IdsOf(scores[..i])) {
      var k :| 0 <= k < i && IdsOf(scores[..i])[k] == scores[i].criterionId;
      assert IdsOf(scores)[k] == IdsOf(scores)[i];
    }
  }

  lemma SnappedSnoc(r: Rubric, scores: seq<CriterionScore>, i: nat)
    requires i < |scores|
    ensures SnappedScores(r, scores[..i + 1]) ==
      match (SnappedScores(r, scores[..i]), SnappedScore(r, scores[i]))
      case (Some(front), Some(s)) => Some(front + [CriterionScore(scores[i].criterionId, s)])
      case _ => None
  {
    hide SnappedScore;
    assert scores[..i + 1][..i] == scores[..i];
  }

  lemma {:induction false} SnappedPrefix(r: Rubric, scores: seq<CriterionScore>, i: nat)
    requires i <= |scores| && SnappedScores(r, scores[..i]) == None
    ensures SnappedScores(r, scores) == None
    decreases |scores| - i
  {
    hide SnappedScore;
    if i == |scores| {
      assert scores[..i] == scores;
    } else {
      SnappedSnoc(r, scores, i);
      SnappedPrefix(r, scores, i + 1);
    }
  }

  // A grade by hand: validated, snapped and totalled in one pass over the scores.
  method InsertManualRecord(k: nat, r: Rubric, scores: seq<CriterionScore>) returns (g: Result<Grade, GradeError>)
    requires NoRepeats(CriterionIds(r.criteria))
    ensures g.Ok? <==> r.criteria != [] && ScoredOnce(r.criteria, scores) && SnappedScores(r, scores).Some?
                       && StoredTotal(SnappedScores(r, scores).value).Some?
    ensures g.Ok? ==> g.value == Grade(k, SnappedScores(r, scores).value, StoredTotal(SnappedScores(r, scores).value))
    ensures g.Ok? ==> SnapsAll(r, scores, g.value.scores)
  {
    hide SnapsAll, SnapClamped, RatStr, RatOf, PointsOf, SeenOnce, ScoredOnce, SnappedScores, CriterionIds, ReadAll, SumReals, Rendered, Cent, NoRepeats;
    if |r.criteria| == 0 {
      return Err(NoCriteria);
    }
    var seen: set<int> := {};
    var finalScores: seq<CriterionScore>, totals: seq<string> := [], [];
    NothingSeen(r, scores);
    for i := 0 to |scores|
      invariant SeenOnce(r.criteria, scores[..i], seen)
      invariant SnappedScores(r, scores[..i]) == Some(finalScores)
      invariant totals == ScoreStrings(finalScores)
    {
      var sc := scores[i];
      PointsOfMember(r.criteria, sc.criterionId);
      SeenIds(r.criteria, scores[..i], seen);
      assert scores[..i + 1] == scores[..i] + [sc];
      SnappedSnoc(r, scores, i);
      var points := PointsOf(r.criteria, sc.criterionId);
      if points == None {
        RuledOut(r.criteria, scores, i);
        return Err(UnknownCriterion(sc.criterionId));
      }
      if sc.criterionId in seen {
        RuledOut(r.criteria, scores, i);
        return Err(ScoredTwice(sc.criterionId));
      }
      SeeOne(r.criteria, scores[..i], seen, sc);
      seen := seen + {sc.criterionId};
      var out := SnapClamp(sc.score, RatStr(points.value), RatStr(r.increment));
      if out.Err? {
        SnappedPrefix(r, scores, i + 1);
        return Err(NotANumber(sc.criterionId));
      }
      finalScores := finalScores + [CriterionScore(sc.criterionId, out.value.0)];
      totals := totals + [out.value.0];
    }
    assert scores[..|scores|] == scores;
    AllSeen(r.criteria, scores, seen);
    if |seen| != |r.criteria| {
      return Err(MissingCriteria);
    }
    var total := ColumnTotal(totals);
    if total == None {
      return Err(MissingCriteria);
    }
    SnapsEach(r, scores);
    g := Ok(Grade(k, finalScores, total));
  }

  lemma NothingSeen(r: Rubric, scores: seq<CriterionScore>)
    ensures SeenOnce(r.criteria, scores[..0], {}) && SnappedScores(r, scores[..0]) == Some([]) && ScoreStrings([]) == []
  {
    assert IdsOf([]) == [] && Elements([]) == {};
  }

  lemma SeenIds(criteria: seq<Criterion>, scores: seq<CriterionScore>, seen: set<int>)
    requires SeenOnce(criteria, scores, seen)
    ensures seen == Elements(IdsOf(scores))
  {
  }

  // SumDecimals, and the column the sum is stored in.
  method ColumnTotal(totals: seq<string>) returns (total: Option<real>)
    ensures total == match ReadAll(totals) case None => None case Some(xs) => Some(Cent(Rendered(SumReals(xs))))
  {
    hide RatOf, RatStr, ReadAll, SumReals, Cent, Rendered;
    var sum := SumDecimals(totals);
    if sum == None {
      return None;
    }
    PrintedReadsBack(SumReals(ReadAll(totals).value));
    var read := RatOf(sum.value);
    total := Some(Cent(read.value));
  }

  // ---- a model's verdict ----

  datatype Verdict = Verdict(confidence: string, scores: seq<CriterionScore>)

  predicate KnownConfidence(c: string) {
    c == "high" || c == "medium" || c == "low" || c == "illegible"
  }

  // Every criterion exactly once, no unknown ids, a legal confidence.
  method ParseModelOutput(v: Verdict, criteria: seq<Criterion>) returns (r: Result<seq<CriterionScore>, GradeError>)
    requires NoRepeats(CriterionIds(criteria))
    ensures r.Ok? <==> KnownConfidence(v.confidence) && ScoredOnce(criteria, v.scores)
    ensures r.Ok? ==> r.value == v.scores
  {
    if !KnownConfidence(v.confidence) {
      return Err(BadConfidence);
    }
    hide ScoredOnce, NoRepeats;
    var want: map<int, bool> := map id | id in Elements(CriterionIds(criteria)) :: false;
    var out: seq<CriterionScore> := [];
    ghost var seen: set<int> := {};
    NothingSeen(Rubric(0, 1.0, criteria), v.scores);
    for i := 0 to |v.scores|
      invariant out == v.scores[..i]
      invariant want.Keys == Elements(CriterionIds(criteria))
      invariant SeenOnce(criteria, v.scores[..i], seen)
      invariant forall id :: id in want ==> (want[id] <==> id in seen)
    {
      var sc := v.scores[i];
      assert v.scores[..i + 1] == v.scores[..i] + [sc];
      ElementsOf(CriterionIds(criteria));
      if sc.criterionId !in want {
        RuledOut(criteria, v.scores, i);
        return Err(UnknownCriterion(sc.criterionId));
      }
      if want[sc.criterionId] {
        RuledOut(criteria, v.scores, i);
        return Err(ScoredTwice(sc.criterionId));
      }
      SeeOne(criteria, v.scores[..i], seen, sc);
      seen := seen + {sc.criterionId};
      want := want[sc.criterionId := true];
      out := out + [sc];
    }
    assert v.scores[..|v.scores|] == v.scores;
    var missing := want.Keys;
    while missing != {}
      invariant missing <= want.Keys
      invariant forall id :: id in want && id !in missing ==> want[id]
      decreases missing
    {
      ghost var some := Member(missing);
      assert some in missing;
      var id :| id in missing;
      if !want[id] {
        SeenIsAll(criteria, v.scores, seen, id);
        return Err(MissingCriteria);
      }
      missing := missing - {id};
    }
    AllWanted(criteria, v.scores, seen);
    r := Ok(out);
  }

  lemma SeenIsAll(criteria: seq<Criterion>, scores: seq<CriterionScore>, seen: set<int>, id: int)
    requires SeenOnce(criteria, scores, seen) && id in Elements(CriterionIds(criteria)) && id !in seen
    ensures !ScoredOnce(criteria, scores)
  {
  }

  lemma AllWanted(criteria: seq<Criterion>, scores: seq<CriterionScore>, seen: set<int>)
    requires SeenOnce(criteria, scores, seen) && forall id :: id in Elements(CriterionIds(criteria)) ==> id in seen
    ensures ScoredOnce(criteria, scores)
  {
  }

  // What the runner stores for a verdict: each score snapped, and a total unless illegible.
  method ScoreVerdict(k: nat, r: Rubric, v: Verdict) returns (g: Result<Grade, GradeError>)
    requires NoRepeats(CriterionIds(r.criteria))
    ensures g.Ok? <==> KnownConfidence(v.confidence) && ScoredOnce(r.criteria, v.scores) && SnappedScores(r, v.scores).Some?
                       && (v.confidence == "illegible" || StoredTotal(SnappedScores(r, v.scores).value).Some?)
    ensures g.Ok? ==> g.value == Grade(k, SnappedScores(r, v.scores).value,
                                       if v.confidence == "illegible" then None else StoredTotal(SnappedScores(r, v.scores).value))
    ensures g.Ok? ==> SnapsAll(r, v.scores, g.value.scores) && (g.value.total == None <==> v.confidence == "illegible")
  {
    hide SnapsAll, SnapClamped, RatStr, RatOf, PointsOf, ScoredOnce, SnappedScores, CriterionIds, ReadAll, SumReals, Rendered, Cent, NoRepeats;
    var parsed := ParseModelOutput(v, r.criteria);
    if parsed.Err? {
      return Err(parsed.error);
    }
    var finalScores: seq<CriterionScore>, totals: seq<string> := [], [];
    NothingSeen(r, v.scores);
    for i := 0 to |v.scores|
      invariant SnappedScores(r, v.scores[..i]) == Some(finalScores)
      invariant totals == ScoreStrings(finalScores)
    {
      var sc := v.scores[i];
      SnappedSnoc(r, v.scores, i);
      var points := PointsOf(r.criteria, sc.criterionId);
      if points == None {
        SnappedPrefix(r, v.scores, i + 1);
        return Err(UnknownCriterion(sc.criterionId));
      }
      var out := SnapClamp(sc.score, RatStr(points.value), RatStr(r.increment));
      if out.Err? {
        SnappedPrefix(r, v.scores, i + 1);
        return Err(NotANumber(sc.criterionId));
      }
      finalScores := finalScores + [CriterionScore(sc.criterionId, out.value.0)];
      totals := totals + [out.value.0];
    }
    assert v.scores[..|v.scores|] == v.scores;
    SnapsEach(r, v.scores);
    if v.confidence == "illegible" {
      return Ok(Grade(k, finalScores, None));
    }
    var total := ColumnTotal(totals);
    if total == None {
      return Err(MissingCriteria);
    }
    g := Ok(Grade(k, finalScores, total));
  }
}
