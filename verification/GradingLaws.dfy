/** Over every sequence of rubric, problem and grading steps: every stored total is the exact sum of
    scores within their criteria, and a rubric adds up to its problem's maximum exactly when its
    points keep their sum in their columns. */
module GradingLaws {
  import opened Wrappers
  import opened Decimals
  import opened Score
  import opened Seqs
  import opened Consensus
  import opened Grading

  // ---- one grade ----

  lemma CentIsMicro(x: real)
    requires OnGrid(x, CENT)
    ensures OnGrid(x, MICRO)
  {
    var k := (x * CENT as real).Floor;
    IntegerOnGrid(x, k * 10000, MICRO);
  }

  lemma IntegerOnGrid(x: real, k: int, d: nat)
    requires x * d as real == k as real
    ensures OnGrid(x, d)
  {
  }

  lemma CentFixes(x: real)
    requires OnGrid(x, CENT)
    ensures Cent(x) == x
  {
    RoundInteger((x * 100.0).Floor);
    hide RoundHalfAway;
  }

  lemma CentOnGrid(x: real)
    ensures OnGrid(Cent(x), CENT)
  {
    hide RoundHalfAway;
  }

  // A rubric as the columns hold it.
  ghost predicate GoodRubric(r: Rubric) {
    && r.increment > 0.0 && OnGrid(r.increment, CENT)
    && r.criteria != [] && NoRepeats(CriterionIds(r.criteria))
    && forall i :: 0 <= i < |r.criteria| ==> r.criteria[i].points >= 0.0 && OnGrid(r.criteria[i].points, CENT)
  }

  lemma {:induction false} PointsOfGood(criteria: seq<Criterion>, id: int)
    requires forall i :: 0 <= i < |criteria| ==> criteria[i].points >= 0.0 && OnGrid(criteria[i].points, CENT)
    ensures PointsOf(criteria, id).Some? ==> PointsOf(criteria, id).value >= 0.0 && OnGrid(PointsOf(criteria, id).value, CENT)
  {
    hide OnGrid;
    if criteria != [] {
      PointsOfGood(criteria[..|criteria| - 1], id);
    }
  }

  // A stored score: a decimal string on the cent grid, within its criterion's points.
  predicate ScoreWithin(criteria: seq<Criterion>, sc: CriterionScore) {
    RatOf(sc.score).Some? && OnGrid(RatOf(sc.score).value, CENT)
    && match PointsOf(criteria, sc.criterionId)
       case None => false
       case Some(points) => 0.0 <= RatOf(sc.score).value <= points
  }

  lemma SnapWithin(score: string, points: real, inc: real)
    requires points >= 0.0 && OnGrid(points, CENT) && inc > 0.0 && OnGrid(inc, CENT)
    requires SnapClamped(score, RatStr(points), RatStr(inc)).Ok?
    ensures var out := SnapClamped(score, RatStr(points), RatStr(inc)).value.0;
            RatOf(out).Some? && OnGrid(RatOf(out).value, CENT) && 0.0 <= RatOf(out).value <= points
  {
    CentIsMicro(points);
    CentIsMicro(inc);
    hide RatOf, RatStr, OnGrid, SnapVal;
    StoredExactly(points);
    StoredExactly(inc);
    SnapClampedExact(score, RatStr(points), RatStr(inc));
    SnapVal_OnGrid(RatOf(score).value, points, inc, CENT);
    SnapLegal(RatOf(score).value, points, inc);
  }

  lemma SnappedOne(r: Rubric, sc: CriterionScore)
    requires GoodRubric(r) && SnappedScore(r, sc).Some?
    ensures ScoreWithin(r.criteria, CriterionScore(sc.criterionId, SnappedScore(r, sc).value))
  {
    hide RatOf, RatStr, SnapClamped, OnGrid, CriterionIds, PointsOf;
    PointsOfGood(r.criteria, sc.criterionId);
    SnapWithin(sc.score, PointsOf(r.criteria, sc.criterionId).value, r.increment);
  }

  lemma {:induction false} SnappedWithin(r: Rubric, scores: seq<CriterionScore>)
    requires GoodRubric(r) && SnappedScores(r, scores).Some?
    ensures var final := SnappedScores(r, scores).value;
            |final| == |scores| && IdsOf(final) == IdsOf(scores)
            && forall k :: 0 <= k < |final| ==> ScoreWithin(r.criteria, final[k])
  {
    hide GoodRubric, ScoreWithin, SnappedScore;
    if scores != [] {
      var n := |scores| - 1;
      SnappedWithin(r, scores[..n]);
      SnappedOne(r, scores[n]);
      var front := SnappedScores(r, scores[..n]).value;
      var final := SnappedScores(r, scores).value;
      assert final == front + [CriterionScore(scores[n].criterionId, SnappedScore(r, scores[n]).value)];
      hide SnappedScores;
      assert IdsOf(final) == IdsOf(front) + [scores[n].criterionId] && IdsOf(scores) == IdsOf(scores[..n]) + [scores[n].criterionId];
    }
  }

  // ---- sums ----

  function Values(scores: seq<CriterionScore>): (xs: seq<real>)
    ensures |xs| == |scores|
  {
    seq(|scores|, k requires 0 <= k < |scores| => if RatOf(scores[k].score).Some? then RatOf(scores[k].score).value else 0.0)
  }

  lemma ReadValues(criteria: seq<Criterion>, scores: seq<CriterionScore>)
    requires forall k :: 0 <= k < |scores| ==> ScoreWithin(criteria, scores[k])
    ensures ReadAll(ScoreStrings(scores)) == Some(Values(scores))
  {
    hide RatOf, ReadAll, OnGrid;
    assert forall k :: 0 <= k < |scores| ==> ScoreStrings(scores)[k] == scores[k].score;
    forall k | 0 <= k < |ScoreStrings(scores)|
      ensures RatOf(ScoreStrings(scores)[k]).Some?
    {
      assert ScoreWithin(criteria, scores[k]);
    }
    AllReadable(ScoreStrings(scores));
    assert ReadAll(ScoreStrings(scores)).value == Values(scores);
  }

  lemma {:induction false} SumsInOrder(xs: seq<real>, ys: seq<real>)
    requires |xs| == |ys| && forall i :: 0 <= i < |xs| ==> 0.0 <= xs[i] <= ys[i]
    ensures 0.0 <= SumReals(xs) <= SumReals(ys)
  {
    if xs != [] {
      SumsInOrder(xs[..|xs| - 1], ys[..|ys| - 1]);
    }
  }

  // The points behind a sequence of criterion ids.
  function PointsFor(criteria: seq<Criterion>): int -> seq<real> {
    (id: int) => match PointsOf(criteria, id) case None => [] case Some(p) => [p]
  }

  lemma {:induction false} PointsOfScores(criteria: seq<Criterion>, ids: seq<int>)
    requires forall k :: 0 <= k < |ids| ==> PointsOf(criteria, ids[k]).Some?
    ensures |FlatMap(ids, PointsFor(criteria))| == |ids|
    ensures forall k :: 0 <= k < |ids| ==> FlatMap(ids, PointsFor(criteria))[k] == PointsOf(criteria, ids[k]).value
  {
    hide PointsOf;
    if ids != [] {
      PointsOfScores(criteria, ids[..|ids| - 1]);
    }
  }

  lemma {:induction false} PointsAt(criteria: seq<Criterion>, k: nat)
    requires k < |criteria| && NoRepeats(CriterionIds(criteria))
    ensures PointsOf(criteria, criteria[k].id) == Some(criteria[k].points)
  {
    var n := |criteria| - 1;
    if k < n {
      assert CriterionIds(criteria)[k] != CriterionIds(criteria)[n];
      assert CriterionIds(criteria[..n]) == CriterionIds(criteria)[..n];
      PointsAt(criteria[..n], k);
    }
  }

  lemma {:induction false} DistinctBag(ids: seq<int>)
    requires NoRepeats(ids)
    ensures multiset(ids) == multiset(Elements(ids))
  {
    if ids != [] {
      var rest, last := ids[..|ids| - 1], ids[|ids| - 1];
      DistinctBag(rest);
      assert ids == rest + [last];
      SnocElements(rest, last);
      assert last !in Elements(rest);
    }
  }

  lemma SameBag(criteria: seq<Criterion>, scores: seq<CriterionScore>)
    requires ScoredOnce(criteria, scores) && NoRepeats(CriterionIds(criteria))
    ensures multiset(IdsOf(scores)) == multiset(CriterionIds(criteria))
  {
    DistinctBag(IdsOf(scores));
    DistinctBag(CriterionIds(criteria));
  }

  lemma AllPoints(criteria: seq<Criterion>)
    requires NoRepeats(CriterionIds(criteria))
    ensures FlatMap(CriterionIds(criteria), PointsFor(criteria)) == PointsIn(criteria)
  {
    hide FlatMap;
    forall k | 0 <= k < |criteria|
      ensures PointsOf(criteria, CriterionIds(criteria)[k]) == Some(criteria[k].points)
    {
      PointsAt(criteria, k);
    }
    hide PointsOf;
    PointsOfScores(criteria, CriterionIds(criteria));
  }

  lemma ValuesWithin(criteria: seq<Criterion>, scores: seq<CriterionScore>)
    requires forall k :: 0 <= k < |scores| ==> ScoreWithin(criteria, scores[k])
    ensures 0.0 <= SumReals(Values(scores)) <= SumReals(FlatMap(IdsOf(scores), PointsFor(criteria)))
  {
    var ids := IdsOf(scores);
    forall k | 0 <= k < |scores|
      ensures PointsOf(criteria, ids[k]).Some? && 0.0 <= Values(scores)[k] <= PointsOf(criteria, ids[k]).value
    {
      assert ScoreWithin(criteria, scores[k]);
    }
    hide RatOf, PointsOf, FlatMap, SumReals, ScoreWithin;
    PointsOfScores(criteria, ids);
    SumsInOrder(Values(scores), FlatMap(ids, PointsFor(criteria)));
  }

  // Scores of a rubric, each criterion once, add up to no more than its points do.
  lemma TotalWithin(r: Rubric, scores: seq<CriterionScore>)
    requires GoodRubric(r) && ScoredOnce(r.criteria, scores)
    requires forall k :: 0 <= k < |scores| ==> ScoreWithin(r.criteria, scores[k])
    ensures 0.0 <= SumReals(Values(scores)) <= SumReals(PointsIn(r.criteria))
  {
    assert NoRepeats(CriterionIds(r.criteria));
    SameBag(r.criteria, scores);
    hide *;
    ValuesWithin(r.criteria, scores);
    AllPoints(r.criteria);
    FlatMapPermuted(IdsOf(scores), CriterionIds(r.criteria), PointsFor(r.criteria));
    SumPermuted(FlatMap(IdsOf(scores), PointsFor(r.criteria)), FlatMap(CriterionIds(r.criteria), PointsFor(r.criteria)));
  }

  // A total on the cent grid is stored as it is.
  lemma TotalStored(r: Rubric, scores: seq<CriterionScore>)
    requires forall k :: 0 <= k < |scores| ==> ScoreWithin(r.criteria, scores[k])
    ensures StoredTotal(scores) == Some(SumReals(Values(scores)))
  {
    ReadValues(r.criteria, scores);
    forall x | x in Values(scores)
      ensures OnGrid(x, CENT)
    {
      var k :| 0 <= k < |scores| && Values(scores)[k] == x;
      assert ScoreWithin(r.criteria, scores[k]);
    }
    hide RatOf, ReadAll, OnGrid, SumReals, Values, ScoreWithin;
    SumOnGrid(Values(scores), CENT);
    var sum := SumReals(Values(scores));
    CentIsMicro(sum);
    RenderedExact(sum);
    CentFixes(sum);
  }

  // ---- every step ----

  datatype State = State(problems: map<int, real>, rubrics: seq<Rubric>, grades: seq<Grade>)

  datatype Step =
    | CreateProblem(problem: int, max: real)
    | UpdateProblem(problem: int, newMax: real)
    | CreateRubric(problem: int, increment: real, points: seq<real>, ids: seq<int>)
    | GradeByHand(rubric: nat, scores: seq<CriterionScore>)
    | GradeByModel(rubric: nat, verdict: Verdict)
    | Aggregate(rubric: nat, combiner: string, panelSize: int, faultTolerance: int, from: seq<nat>, confidences: seq<string>, result: CombineResult)

  // The criteria as stored, under the ids the store gave them.
  function Criteria(points: seq<real>, ids: seq<int>): (r: seq<Criterion>)
    requires |ids| == |points|
    ensures |r| == |points|
  {
    seq(|points|, i requires 0 <= i < |points| => Criterion(ids[i], Cent(points[i])))
  }

  predicate RubricAccepted(s: State, problem: int, increment: real, points: seq<real>, ids: seq<int>) {
    && problem in s.problems && points != [] && |ids| == |points| && NoRepeats(ids)
    && SumReals(points) == s.problems[problem]
    && Cent(increment) > 0.0 && forall i :: 0 <= i < |points| ==> Cent(points[i]) >= 0.0
  }

  predicate HasRubric(s: State, problem: int) {
    exists k :: 0 <= k < |s.rubrics| && s.rubrics[k].problem == problem
  }

  function ManualGrade(k: nat, r: Rubric, scores: seq<CriterionScore>): Option<Grade> {
    if ScoredOnce(r.criteria, scores) && SnappedScores(r, scores).Some? && StoredTotal(SnappedScores(r, scores).value).Some?
    then Some(Grade(k, SnappedScores(r, scores).value, StoredTotal(SnappedScores(r, scores).value)))
    else None
  }

  function ModelGrade(k: nat, r: Rubric, v: Verdict): Option<Grade> {
    if !KnownConfidence(v.confidence) then None
    else if v.confidence != "illegible" then ManualGrade(k, r, v.scores)
    else if ScoredOnce(r.criteria, v.scores) && SnappedScores(r, v.scores).Some?
    then Some(Grade(k, SnappedScores(r, v.scores).value, None))
    else None
  }

  // The panel: usable records of the same rubric version, and its criteria's points.
  function MaxOf(criteria: seq<Criterion>): map<int, string> {
    map id | id in Elements(CriterionIds(criteria)) :: match PointsOf(criteria, id) case None => "" case Some(p) => RatStr(p)
  }

  function PanelInputs(grades: seq<Grade>, from: seq<nat>, confidences: seq<string>): seq<PanelInput>
    requires |confidences| == |from| && forall i :: 0 <= i < |from| ==> from[i] < |grades|
  {
    seq(|from|, i requires 0 <= i < |from| => PanelInput(i, from[i], confidences[i], grades[from[i]].scores))
  }

  predicate PanelOf(s: State, rubric: nat, from: seq<nat>, confidences: seq<string>) {
    && rubric < |s.rubrics| && |confidences| == |from|
    && forall i :: 0 <= i < |from| ==> from[i] < |s.grades| && s.grades[from[i]].rubric == rubric && s.grades[from[i]].total.Some?
  }

  function PanelFor(s: State, step: Step): CombineParams
    requires step.Aggregate? && PanelOf(s, step.rubric, step.from, step.confidences)
  {
    var r := s.rubrics[step.rubric];
    CombineParams(step.combiner, step.panelSize, step.faultTolerance, RatStr(r.increment), MaxOf(r.criteria),
                  PanelInputs(s.grades, step.from, step.confidences))
  }

  ghost predicate Aggregates(s: State, step: Step)
    requires step.Aggregate?
  {
    && PanelOf(s, step.rubric, step.from, step.confidences) && step.from != []
    && Combined(PanelFor(s, step), step.result) && !step.result.missing
    && RatOf(step.result.total).Some?
  }

  function Added(s: State, g: Option<Grade>): State {
    if g == None then s else s.(grades := s.grades + [g.value])
  }

  ghost function Apply(s: State, step: Step): State {
    match step
    case CreateProblem(p, max) =>
      if p in s.problems || Cent(max) < 0.0 then s else s.(problems := s.problems[p := Cent(max)])
    case UpdateProblem(p, newMax) =>
      if p !in s.problems || (HasRubric(s, p) && newMax != s.problems[p]) || Cent(newMax) < 0.0 then s
      else s.(problems := s.problems[p := Cent(newMax)])
    case CreateRubric(p, increment, points, ids) =>
      if RubricAccepted(s, p, increment, points, ids)
      then s.(rubrics := s.rubrics + [Rubric(p, Cent(increment), Criteria(points, ids))])
      else s
    case GradeByHand(k, scores) => if k < |s.rubrics| then Added(s, ManualGrade(k, s.rubrics[k], scores)) else s
    case GradeByModel(k, v) => if k < |s.rubrics| then Added(s, ModelGrade(k, s.rubrics[k], v)) else s
    case Aggregate(k, _, _, _, _, _, result) =>
      if Aggregates(s, step) then Added(s, Some(Grade(k, result.scores, Some(Cent(RatOf(result.total).value))))) else s
  }

  function Start(): State {
    State(map[], [], [])
  }

  ghost function Run(s: State, steps: seq<Step>): State {
    if steps == [] then s else Apply(Run(s, steps[..|steps| - 1]), steps[|steps| - 1])
  }

  // ---- what every state keeps ----

  ghost predicate RubricKept(s: State, r: Rubric) {
    GoodRubric(r) && r.problem in s.problems
  }

  ghost predicate GradeKept(s: State, g: Grade) {
    && g.rubric < |s.rubrics|
    && var r := s.rubrics[g.rubric];
       && ScoredOnce(r.criteria, g.scores)
       && (forall k :: 0 <= k < |g.scores| ==> ScoreWithin(r.criteria, g.scores[k]))
       && (g.total.Some? ==>
             g.total.value == SumReals(Values(g.scores)) && 0.0 <= g.total.value <= SumReals(PointsIn(r.criteria)))
  }

  ghost predicate Kept(s: State) {
    && (forall p :: p in s.problems ==> s.problems[p] >= 0.0 && OnGrid(s.problems[p], CENT))
    && (forall k :: 0 <= k < |s.rubrics| ==> RubricKept(s, s.rubrics[k]))
    && (forall k :: 0 <= k < |s.grades| ==> GradeKept(s, s.grades[k]))
  }

  // Storing the points to the cent does not change their sum. Points with at most two decimals
  // are stored as they are.
  predicate PointsKeepSum(points: seq<real>) {
    SumReals(Cents(points)) == SumReals(points)
  }

  lemma {:induction false} CentPointsKeepSum(points: seq<real>)
    requires forall i :: 0 <= i < |points| ==> OnGrid(points[i], CENT)
    ensures PointsKeepSum(points) && Cents(points) == points
  {
    forall i | 0 <= i < |points|
      ensures Cents(points)[i] == points[i]
    {
      CentFixes(points[i]);
    }
    hide Cent;
    assert Cents(points) == points;
  }

  // ---- each step keeps it ----

  // Later states know the same rubrics, and the maximum of a problem with a rubric stays.
  ghost predicate Grows(s: State, s': State) {
    && |s.rubrics| <= |s'.rubrics| && s'.rubrics[..|s.rubrics|] == s.rubrics
    && forall p :: p in s.problems && HasRubric(s, p) ==> p in s'.problems && s'.problems[p] == s.problems[p]
  }

  lemma RubricStays(s: State, s': State, k: nat)
    requires Grows(s, s') && k < |s.rubrics| && RubricKept(s, s.rubrics[k])
    ensures s'.rubrics[k] == s.rubrics[k] && RubricKept(s', s.rubrics[k])
  {
    assert s'.rubrics[..|s.rubrics|][k] == s'.rubrics[k];
    assert HasRubric(s, s.rubrics[k].problem);
    hide GoodRubric, SumReals;
  }

  lemma GradeStays(s: State, s': State, g: Grade)
    requires Grows(s, s') && GradeKept(s, g)
    ensures GradeKept(s', g)
  {
    assert s'.rubrics[..|s.rubrics|][g.rubric] == s'.rubrics[g.rubric];
    assert HasRubric(s, s.rubrics[g.rubric].problem);
    hide ScoredOnce, ScoreWithin, SumReals, Values;
  }

  ghost predicate ProblemsKept(s: State) {
    forall p :: p in s.problems ==> s.problems[p] >= 0.0 && OnGrid(s.problems[p], CENT)
  }

  // What a step adds is in order, and the rest stays.
  lemma KeptMove(s: State, s': State)
    requires Kept(s) && Grows(s, s') && ProblemsKept(s')
    requires |s'.rubrics| <= |s.rubrics| + 1 && (|s'.rubrics| == |s.rubrics| + 1 ==> RubricKept(s', s'.rubrics[|s.rubrics|]))
    requires |s.grades| <= |s'.grades| <= |s.grades| + 1 && s'.grades[..|s.grades|] == s.grades
    requires |s'.grades| == |s.grades| + 1 ==> GradeKept(s', s'.grades[|s.grades|])
    ensures Kept(s')
  {
    hide GradeKept, RubricKept, Grows, OnGrid;
    forall k | 0 <= k < |s'.rubrics|
      ensures RubricKept(s', s'.rubrics[k])
    {
      if k < |s.rubrics| {
        RubricStays(s, s', k);
      }
    }
    forall k | 0 <= k < |s'.grades|
      ensures GradeKept(s', s'.grades[k])
    {
      if k < |s.grades| {
        assert s'.grades[..|s.grades|][k] == s'.grades[k];
        GradeStays(s, s', s.grades[k]);
      }
    }
  }

  lemma ProblemStep(s: State, p: int, max: real)
    requires Kept(s) && Cent(max) >= 0.0 && (p in s.problems ==> !HasRubric(s, p) || max == s.problems[p])
    ensures Kept(s.(problems := s.problems[p := Cent(max)]))
  {
    var s' := s.(problems := s.problems[p := Cent(max)]);
    CentOnGrid(max);
    if p in s.problems && HasRubric(s, p) {
      CentFixes(max);
    }
    hide Cent, OnGrid, RubricKept, GradeKept, HasRubric;
    if p in s.problems {
      KeptMove(s, s');
    } else {
      NoRubricYet(s, p);
      KeptMove(s, s');
    }
  }

  lemma NoRubricYet(s: State, p: int)
    requires Kept(s) && p !in s.problems
    ensures !HasRubric(s, p)
  {
    hide GoodRubric, SumReals, GradeKept;
    forall k | 0 <= k < |s.rubrics|
      ensures s.rubrics[k].problem != p
    {
      assert RubricKept(s, s.rubrics[k]);
    }
  }

  lemma StoredRubricGood(increment: real, points: seq<real>, ids: seq<int>, p: int)
    requires |ids| == |points| && NoRepeats(ids) && points != []
    requires Cent(increment) > 0.0 && forall i :: 0 <= i < |points| ==> Cent(points[i]) >= 0.0
    ensures GoodRubric(Rubric(p, Cent(increment), Criteria(points, ids)))
    ensures PointsIn(Criteria(points, ids)) == Cents(points)
  {
    CentOnGrid(increment);
    forall i | 0 <= i < |points|
      ensures OnGrid(Cent(points[i]), CENT)
    {
      CentOnGrid(points[i]);
    }
    assert CriterionIds(Criteria(points, ids)) == ids;
    hide Cent, OnGrid;
  }

  lemma RubricStep(s: State, p: int, increment: real, points: seq<real>, ids: seq<int>)
    requires Kept(s) && RubricAccepted(s, p, increment, points, ids)
    ensures Kept(Apply(s, CreateRubric(p, increment, points, ids)))
  {
    var s' := Apply(s, CreateRubric(p, increment, points, ids));
    StoredRubricGood(increment, points, ids, p);
    hide Cent, OnGrid, GoodRubric, SumReals, GradeKept, HasRubric;
    assert RubricKept(s', s'.rubrics[|s.rubrics|]);
    hide RubricKept;
    KeptMove(s, s');
  }

  lemma GradeStep(s: State, g: Grade)
    requires Kept(s) && GradeKept(s, g)
    ensures Kept(s.(grades := s.grades + [g]))
  {
    var s' := s.(grades := s.grades + [g]);
    hide RubricKept, ScoredOnce, ScoreWithin, SumReals, Values, HasRubric, OnGrid;
    assert GradeKept(s', g);
    hide GradeKept;
    KeptMove(s, s');
  }

  lemma ScoredGradeKept(s: State, k: nat, scores: seq<CriterionScore>, total: Option<real>)
    requires Kept(s) && k < |s.rubrics| && ScoredOnce(s.rubrics[k].criteria, scores)
    requires forall j :: 0 <= j < |scores| ==> ScoreWithin(s.rubrics[k].criteria, scores[j])
    requires total == None || total == Some(SumReals(Values(scores)))
    ensures GradeKept(s, Grade(k, scores, total))
  {
    assert RubricKept(s, s.rubrics[k]);
    hide ScoredOnce, ScoreWithin, SumReals, Values, GoodRubric, GradeKept;
    TotalWithin(s.rubrics[k], scores);
    KeptTotal(s, k, scores, total);
  }

  lemma KeptTotal(s: State, k: nat, scores: seq<CriterionScore>, total: Option<real>)
    requires k < |s.rubrics| && RubricKept(s, s.rubrics[k]) && ScoredOnce(s.rubrics[k].criteria, scores)
    requires forall j :: 0 <= j < |scores| ==> ScoreWithin(s.rubrics[k].criteria, scores[j])
    requires total == None || total == Some(SumReals(Values(scores)))
    requires 0.0 <= SumReals(Values(scores)) <= SumReals(PointsIn(s.rubrics[k].criteria))
    ensures GradeKept(s, Grade(k, scores, total))
  {
    hide ScoredOnce, ScoreWithin, SumReals, Values, GoodRubric;
  }

  lemma SameIdsScoredOnce(criteria: seq<Criterion>, scores: seq<CriterionScore>, scores': seq<CriterionScore>)
    requires ScoredOnce(criteria, scores) && IdsOf(scores) == IdsOf(scores')
    ensures ScoredOnce(criteria, scores')
  {
  }

  lemma SnappedGradeKept(s: State, k: nat, scores: seq<CriterionScore>)
    requires Kept(s) && k < |s.rubrics| && ScoredOnce(s.rubrics[k].criteria, scores) && SnappedScores(s.rubrics[k], scores).Some?
    ensures var final := SnappedScores(s.rubrics[k], scores).value;
            GradeKept(s, Grade(k, final, None)) && GradeKept(s, Grade(k, final, StoredTotal(final)))
  {
    var r := s.rubrics[k];
    assert RubricKept(s, r);
    hide ScoredOnce, ScoreWithin, SumReals, Values, GoodRubric, GradeKept, SnappedScores, StoredTotal, Kept, IdsOf;
    SnappedWithin(r, scores);
    var final := SnappedScores(r, scores).value;
    SameIdsScoredOnce(r.criteria, scores, final);
    TotalStored(r, final);
    ScoredGradeKept(s, k, final, None);
    ScoredGradeKept(s, k, final, StoredTotal(final));
  }

  // ---- the aggregate path ----

  lemma {:induction false} ScoresFromInputs(inputs: seq<PanelInput>, ids: set<int>)
    requires forall input :: input in inputs ==> Elements(IdsOf(input.scores)) == ids
    ensures Ids(AllScores(inputs)) == if inputs == [] then {} else ids
  {
    if inputs == [] {
      assert AllScores([]) == [];
    } else {
      var n := |inputs| - 1;
      assert inputs[n] in inputs;
      ScoresFromInputs(inputs[..n], ids);
      assert AllScores(inputs) == AllScores(inputs[..n]) + inputs[n].scores;
      hide AllScores;
      IdsConcat(AllScores(inputs[..n]), inputs[n].scores);
      IdsAreElements(inputs[n].scores);
    }
  }

  lemma IdsConcat(a: seq<CriterionScore>, b: seq<CriterionScore>)
    ensures Ids(a + b) == Ids(a) + Ids(b)
  {
  }

  lemma IdsAreElements(scores: seq<CriterionScore>)
    ensures Ids(scores) == Elements(IdsOf(scores))
  {
    forall id
      ensures id in Ids(scores) <==> id in Elements(IdsOf(scores))
    {
      if id in Ids(scores) {
        var sc :| sc in scores && sc.criterionId == id;
        var k :| 0 <= k < |scores| && scores[k] == sc;
        assert IdsOf(scores)[k] == id;
      }
      if id in Elements(IdsOf(scores)) {
        var k :| 0 <= k < |scores| && IdsOf(scores)[k] == id;
        assert scores[k] in scores;
      }
    }
  }

  lemma AscendingNoRepeats(ids: seq<int>)
    requires Ascending(ids)
    ensures NoRepeats(ids)
  {
  }

  // The panel's inputs score the rubric's criteria, and so does its result.
  lemma PanelScoresRubric(s: State, step: Step)
    requires Kept(s) && step.Aggregate? && Aggregates(s, step)
    ensures ScoredOnce(s.rubrics[step.rubric].criteria, step.result.scores)
  {
    var p := PanelFor(s, step);
    var r := s.rubrics[step.rubric];
    var ids := Elements(CriterionIds(r.criteria));
    forall input | input in p.inputs
      ensures Elements(IdsOf(input.scores)) == ids
    {
      var i :| 0 <= i < |p.inputs| && p.inputs[i] == input;
      assert GradeKept(s, s.grades[step.from[i]]);
    }
    CombinedIds(p, step.result);
    hide Kept, Aggregates, Combined, AllScores, Ids, Elements, CriterionIds, IdsOf, NoRepeats, Ascending;
    ScoresFromInputs(p.inputs, ids);
    AscendingNoRepeats(IdsOf(step.result.scores));
  }

  lemma CombinedIds(p: CombineParams, r: CombineResult)
    requires Combined(p, r) && !r.missing
    ensures Ascending(IdsOf(r.scores)) && Elements(IdsOf(r.scores)) == Ids(AllScores(p.inputs))
    ensures forall i :: 0 <= i < |r.scores| ==>
              CriterionDecided(p, r.scores[i].criterionId, r.scores[i].score, r.scores[i].criterionId in r.contested)
              && CriterionReadable(p, r.scores[i].criterionId)
    ensures ReadAll(ScoreStrings(r.scores)).Some? && r.total == RatStr(SumReals(ReadAll(ScoreStrings(r.scores)).value))
  {
    hide Ascending, Elements, AllScores, CriterionDecided, CriterionReadable, ReadAll, SumReals, RatStr, ScoreReadable, IncrementReadable, LowCount;
    MembersOf(IdsOf(r.scores));
    hide Ids;
    forall i | 0 <= i < |r.scores|
      ensures CriterionReadable(p, r.scores[i].criterionId)
    {
      assert IdsOf(r.scores)[i] in Elements(IdsOf(r.scores));
    }
  }

  lemma MembersOf(ids: seq<int>)
    ensures forall i :: 0 <= i < |ids| ==> ids[i] in Elements(ids)
  {
  }

  lemma DecidedWithin(r: Rubric, p: CombineParams, id: int, value: string, contested: bool)
    requires GoodRubric(r) && p.increment == RatStr(r.increment) && p.criterionMax == MaxOf(r.criteria)
    requires CriterionDecided(p, id, value, contested) && id in p.criterionMax
    ensures ScoreWithin(r.criteria, CriterionScore(id, value))
  {
    PointsOfMember(r.criteria, id);
    PointsOfGood(r.criteria, id);
    var b := BallotFor(p, id);
    var points := PointsOf(r.criteria, id).value;
    assert b.max == RatStr(points) && b.inc == RatStr(r.increment);
    var raw :| RawDecision(p.combiner, b, p.Need(), p.faultTolerance, raw, contested)
      && SnapClamped(raw, b.max, b.inc).Ok? && value == SnapClamped(raw, b.max, b.inc).value.0;
    hide RatOf, RatStr, SnapClamped, OnGrid, PointsOf, RawDecision, Votes, AllScores, CriterionIds;
    SnapWithin(raw, points, r.increment);
  }

  lemma AggregateGradeKept(s: State, step: Step)
    requires Kept(s) && step.Aggregate? && Aggregates(s, step)
    ensures GradeKept(s, Grade(step.rubric, step.result.scores, Some(Cent(RatOf(step.result.total).value))))
  {
    var p := PanelFor(s, step);
    var r := s.rubrics[step.rubric];
    var scores := step.result.scores;
    assert RubricKept(s, r);
    assert Combined(p, step.result);
    PanelScoresRubric(s, step);
    CombinedIds(p, step.result);
    hide Kept, Aggregates, Combined, RatOf, RatStr, CriterionDecided, ReadAll, SumReals, Values, ScoreWithin, MaxOf, GoodRubric, ScoredOnce, Cent, Rendered, GradeKept, IdsOf;
    forall k | 0 <= k < |scores|
      ensures ScoreWithin(r.criteria, scores[k])
    {
      DecidedWithin(r, p, scores[k].criterionId, scores[k].score, scores[k].criterionId in step.result.contested);
    }
    TotalStored(r, scores);
    PrintedReadsBack(SumReals(ReadAll(ScoreStrings(scores)).value));
    ScoredGradeKept(s, step.rubric, scores, StoredTotal(scores));
  }

  // ---- over every run ----

  lemma ProblemStepKept(s: State, step: Step)
    requires Kept(s) && (step.CreateProblem? || step.UpdateProblem?)
    ensures Kept(Apply(s, step))
  {
    hide Kept, Cent, HasRubric;
    if step.CreateProblem? {
      if step.problem !in s.problems && Cent(step.max) >= 0.0 {
        ProblemStep(s, step.problem, step.max);
      }
    } else if step.problem in s.problems && !(HasRubric(s, step.problem) && step.newMax != s.problems[step.problem]) && Cent(step.newMax) >= 0.0 {
      ProblemStep(s, step.problem, step.newMax);
    }
  }

  lemma RubricStepKept(s: State, step: Step)
    requires Kept(s) && step.CreateRubric?
    ensures Kept(Apply(s, step))
  {
    hide Kept, RubricAccepted;
    if RubricAccepted(s, step.problem, step.increment, step.points, step.ids) {
      RubricStep(s, step.problem, step.increment, step.points, step.ids);
    }
  }

  lemma ManualStepKept(s: State, k: nat, scores: seq<CriterionScore>)
    requires Kept(s)
    ensures Kept(Apply(s, GradeByHand(k, scores)))
  {
    hide Kept, ScoredOnce, SnappedScores, StoredTotal, GradeKept;
    if k < |s.rubrics| && ManualGrade(k, s.rubrics[k], scores).Some? {
      SnappedGradeKept(s, k, scores);
      GradeStep(s, ManualGrade(k, s.rubrics[k], scores).value);
    }
  }

  lemma ModelStepKept(s: State, k: nat, v: Verdict)
    requires Kept(s)
    ensures Kept(Apply(s, GradeByModel(k, v)))
  {
    hide Kept, ScoredOnce, SnappedScores, StoredTotal, GradeKept, KnownConfidence;
    if k < |s.rubrics| && ModelGrade(k, s.rubrics[k], v).Some? {
      SnappedGradeKept(s, k, v.scores);
      GradeStep(s, ModelGrade(k, s.rubrics[k], v).value);
    }
  }

  lemma AggregateStepKept(s: State, step: Step)
    requires Kept(s) && step.Aggregate?
    ensures Kept(Apply(s, step))
  {
    hide Kept, GradeKept, Cent, RatOf, Combined;
    if Aggregates(s, step) {
      assert RatOf(step.result.total).Some?;
      hide Aggregates;
      AggregateGradeKept(s, step);
      GradeStep(s, Grade(step.rubric, step.result.scores, Some(Cent(RatOf(step.result.total).value))));
    }
  }

  lemma StepKept(s: State, step: Step)
    requires Kept(s)
    ensures Kept(Apply(s, step))
  {
    hide Kept, Apply;
    match step
    case CreateProblem(_, _) => ProblemStepKept(s, step);
    case UpdateProblem(_, _) => ProblemStepKept(s, step);
    case CreateRubric(_, _, _, _) => RubricStepKept(s, step);
    case GradeByHand(k, scores) => ManualStepKept(s, k, scores);
    case GradeByModel(k, v) => ModelStepKept(s, k, v);
    case Aggregate(_, _, _, _, _, _, _) => AggregateStepKept(s, step);
  }

  lemma {:induction false} KeptRun(steps: seq<Step>)
    ensures Kept(Run(Start(), steps))
  {
    hide Apply, Kept;
    if steps == [] {
      StartKept();
    } else {
      KeptRun(steps[..|steps| - 1]);
      StepKept(Run(Start(), steps[..|steps| - 1]), steps[|steps| - 1]);
    }
  }

  lemma StartKept()
    ensures Kept(Start())
  {
  }

  // Over every sequence of steps, on the human, model and aggregate paths: a grade scores every
  // criterion of its rubric exactly once, within its points, and a total is the exact sum of those
  // scores, no more than the points of the rubric add up to.
  lemma TotalsAreExact(steps: seq<Step>, k: nat)
    requires k < |Run(Start(), steps).grades|
    ensures var s := Run(Start(), steps);
            var g := s.grades[k];
            && g.rubric < |s.rubrics|
            && var r := s.rubrics[g.rubric];
               && ScoredOnce(r.criteria, g.scores)
               && (forall j :: 0 <= j < |g.scores| ==> ScoreWithin(r.criteria, g.scores[j]))
               && (g.total.Some? ==> g.total.value == SumReals(Values(g.scores)) && 0.0 <= g.total.value <= SumReals(PointsIn(r.criteria)))
  {
    var s := Run(Start(), steps);
    KeptRun(steps);
    hide Run, ScoredOnce, ScoreWithin, SumReals, Values, GoodRubric;
    assert GradeKept(s, s.grades[k]);
  }

  // A rubric just created adds up to its problem's maximum exactly when storing its points to
  // the cent keeps their sum.
  lemma RubricSumIff(s: State, p: int, increment: real, points: seq<real>, ids: seq<int>)
    requires RubricAccepted(s, p, increment, points, ids)
    ensures var s' := Apply(s, CreateRubric(p, increment, points, ids));
            var r := s'.rubrics[|s.rubrics|];
            SumReals(PointsIn(r.criteria)) == s'.problems[p] <==> PointsKeepSum(points)
  {
    StoredRubricGood(increment, points, ids, p);
    hide Cent, SumReals, GoodRubric;
  }

  // ---- grades are what was given ----

  // Against a rubric as stored, by value: each score given, in its place, snapped and clamped.
  ghost predicate StoredAsGiven(r: Rubric, given: seq<CriterionScore>, stored: seq<CriterionScore>) {
    && |stored| == |given|
    && forall i, c :: 0 <= i < |given| && 0 <= c < |r.criteria| && r.criteria[c].id == given[i].criterionId ==>
         && stored[i].criterionId == given[i].criterionId && RatOf(given[i].score).Some? && r.increment > 0.0
         && RatOf(stored[i].score) == Some(SnapVal(RatOf(given[i].score).value, r.criteria[c].points, r.increment))
  }

  lemma GivenByValue(r: Rubric, given: seq<CriterionScore>, stored: seq<CriterionScore>)
    requires GoodRubric(r) && SnapsAll(r, given, stored)
    ensures StoredAsGiven(r, given, stored)
  {
    forall i, c | 0 <= i < |given| && 0 <= c < |r.criteria| && r.criteria[c].id == given[i].criterionId
      ensures stored[i].criterionId == given[i].criterionId && RatOf(given[i].score).Some? && r.increment > 0.0
      ensures RatOf(stored[i].score) == Some(SnapVal(RatOf(given[i].score).value, r.criteria[c].points, r.increment))
    {
      assert SnapsTo(r, given[i], stored[i]);
      ByValue(r, given[i], stored[i], c);
    }
  }

  lemma ByValue(r: Rubric, given: CriterionScore, stored: CriterionScore, c: nat)
    requires GoodRubric(r) && SnapsTo(r, given, stored) && c < |r.criteria| && r.criteria[c].id == given.criterionId
    ensures RatOf(stored.score) == Some(SnapVal(RatOf(given.score).value, r.criteria[c].points, r.increment))
  {
    hide RatOf, Rendered, SnapVal, OnGrid;
    var d :| 0 <= d < |r.criteria| && r.criteria[d].id == given.criterionId
      && RatOf(stored.score) == Some(Rendered(SnapVal(RatOf(given.score).value, Rendered(r.criteria[d].points), Rendered(r.increment))));
    assert CriterionIds(r.criteria)[c] == CriterionIds(r.criteria)[d];
    assert c == d;
    CentIsMicro(r.increment);
    CentIsMicro(r.criteria[c].points);
    RenderedExact(r.increment);
    RenderedExact(r.criteria[c].points);
    SnapVal_OnGrid(RatOf(given.score).value, r.criteria[c].points, r.increment, MICRO);
    RenderedExact(SnapVal(RatOf(given.score).value, r.criteria[c].points, r.increment));
  }

  // Over every run, a grade by hand or by a model holds the scores given, snapped and clamped, and
  // their sum, or no total for an illegible answer.
  lemma GradesAreAsGiven(steps: seq<Step>, step: Step)
    requires step.GradeByHand? || step.GradeByModel?
    requires |Apply(Run(Start(), steps), step).grades| > |Run(Start(), steps).grades|
    ensures var s := Run(Start(), steps);
            var g := Apply(s, step).grades[|s.grades|];
            var given := if step.GradeByHand? then step.scores else step.verdict.scores;
            && Apply(s, step).grades == s.grades + [g] && g.rubric == step.rubric < |s.rubrics|
            && StoredAsGiven(s.rubrics[step.rubric], given, g.scores)
            && (g.total == None <==> step.GradeByModel? && step.verdict.confidence == "illegible")
            && (g.total.Some? ==> g.total.value == SumReals(Values(g.scores)))
  {
    var s := Run(Start(), steps);
    KeptRun(steps);
    KeptRun(steps + [step]);
    RunSnoc(Start(), steps, step);
    var k := step.rubric;
    var given := if step.GradeByHand? then step.scores else step.verdict.scores;
    GradeAdded(s, step);
    assert RubricKept(s, s.rubrics[k]);
    assert GradeKept(Apply(s, step), Apply(s, step).grades[|s.grades|]);
    hide Apply, Run, Kept, GoodRubric, SnappedScores, StoredAsGiven, SnapsAll, ScoredOnce, SumReals, Values;
    SnapsEach(s.rubrics[k], given);
    GivenByValue(s.rubrics[k], given, SnappedScores(s.rubrics[k], given).value);
  }

  lemma GradeAdded(s: State, step: Step)
    requires step.GradeByHand? || step.GradeByModel?
    requires |Apply(s, step).grades| > |s.grades|
    ensures var given := if step.GradeByHand? then step.scores else step.verdict.scores;
            && step.rubric < |s.rubrics| && SnappedScores(s.rubrics[step.rubric], given).Some?
            && |Apply(s, step).grades| == |s.grades| + 1
            && var g := Apply(s, step).grades[|s.grades|];
               && Apply(s, step).grades == s.grades + [g] && g.rubric == step.rubric
               && g.scores == SnappedScores(s.rubrics[step.rubric], given).value
               && (g.total == None <==> step.GradeByModel? && step.verdict.confidence == "illegible")
  {
    hide SnappedScores, ScoredOnce, StoredTotal;
  }

  // A grade by hand is accepted exactly when it scores each criterion once and can be read.
  lemma AcceptedIff(k: nat, r: Rubric, scores: seq<CriterionScore>)
    requires GoodRubric(r)
    ensures ManualGrade(k, r, scores).Some? <==>
            ScoredOnce(r.criteria, scores) && forall i :: 0 <= i < |scores| ==> RatOf(scores[i].score).Some?
  {
    if ScoredOnce(r.criteria, scores) && forall i :: 0 <= i < |scores| ==> RatOf(scores[i].score).Some? {
      forall i | 0 <= i < |scores|
        ensures SnappedScore(r, scores[i]).Some?
      {
        ReadableSnaps(r, scores, i);
      }
      hide ScoredOnce, RatOf, SnappedScore, SnappedScores, StoredTotal, GoodRubric, ScoreWithin;
      SnappedEach(r, scores);
      SnappedWithin(r, scores);
      TotalStored(r, SnappedScores(r, scores).value);
    }
    if SnappedScores(r, scores).Some? {
      SnapsEach(r, scores);
      hide SnappedScores, ScoredOnce, RatOf, StoredTotal;
      assert forall i :: 0 <= i < |scores| ==> SnapsTo(r, scores[i], SnappedScores(r, scores).value[i]);
    }
  }

  lemma ReadableSnaps(r: Rubric, scores: seq<CriterionScore>, i: nat)
    requires GoodRubric(r) && ScoredOnce(r.criteria, scores) && i < |scores| && RatOf(scores[i].score).Some?
    ensures SnappedScore(r, scores[i]).Some?
  {
    var id := scores[i].criterionId;
    assert IdsOf(scores)[i] in Elements(IdsOf(scores));
    PointsOfMember(r.criteria, id);
    ElementsOf(CriterionIds(r.criteria));
    PointsOfGood(r.criteria, id);
    hide RatOf, RatStr, PointsOf, OnGrid, SnapVal;
    var points := PointsOf(r.criteria, id).value;
    CentIsMicro(points);
    CentIsMicro(r.increment);
    StoredExactly(points);
    StoredExactly(r.increment);
    SnapReads(scores[i].score, RatStr(points), RatStr(r.increment), RatOf(scores[i].score).value);
  }

  // ---- rubrics and their problems' maxima ----

  // Step i made rubric k.
  ghost predicate MadeAt(steps: seq<Step>, i: nat, k: nat) {
    && i < |steps| && steps[i].CreateRubric? && k == |Run(Start(), steps[..i]).rubrics|
    && RubricAccepted(Run(Start(), steps[..i]), steps[i].problem, steps[i].increment, steps[i].points, steps[i].ids)
  }

  lemma StepGrows(s: State, step: Step)
    requires Kept(s)
    ensures Grows(s, Apply(s, step))
    ensures step.CreateRubric? && RubricAccepted(s, step.problem, step.increment, step.points, step.ids) ==>
              |Apply(s, step).rubrics| == |s.rubrics| + 1
    ensures !(step.CreateRubric? && RubricAccepted(s, step.problem, step.increment, step.points, step.ids)) ==>
              Apply(s, step).rubrics == s.rubrics
  {
    if step.UpdateProblem? && step.problem in s.problems {
      CentFixesIf(step.newMax);
    }
    hide Cent, OnGrid, RubricAccepted, GoodRubric, GradeKept, Aggregates, ManualGrade, ModelGrade, RatOf;
  }

  lemma CentFixesIf(x: real)
    ensures OnGrid(x, CENT) ==> Cent(x) == x
  {
    if OnGrid(x, CENT) {
      CentFixes(x);
    }
  }

  // Every rubric was made by one of the steps.
  lemma {:induction false} MadeBy(steps: seq<Step>, k: nat) returns (i: nat)
    requires k < |Run(Start(), steps).rubrics|
    ensures MadeAt(steps, i, k)
  {
    var n := |steps| - 1;
    var s := Run(Start(), steps[..n]);
    KeptRun(steps[..n]);
    StepGrows(s, steps[n]);
    hide Apply, Kept, Grows, RubricAccepted;
    if k < |s.rubrics| {
      i := MadeBy(steps[..n], k);
      assert steps[..n][..i] == steps[..i];
    } else {
      i := n;
    }
  }

  // Rubric k holds these points, to the cent, and its problem's maximum is their sum.
  ghost predicate AsMade(s: State, k: nat, points: seq<real>) {
    && k < |s.rubrics| && s.rubrics[k].problem in s.problems
    && PointsIn(s.rubrics[k].criteria) == Cents(points) && s.problems[s.rubrics[k].problem] == SumReals(points)
  }

  // Over every run, a rubric stays as its own step made it, and so does its problem's maximum.
  lemma {:induction false} RubricAsMade(steps: seq<Step>, i: nat, k: nat)
    requires MadeAt(steps, i, k)
    ensures AsMade(Run(Start(), steps), k, steps[i].points)
  {
    var n := |steps| - 1;
    var s := Run(Start(), steps[..n]);
    assert Run(Start(), steps) == Apply(s, steps[n]);
    hide Run, AsMade, Apply, RubricAccepted, Kept;
    if i == n {
      RubricJustMade(s, steps[n]);
    } else {
      MadeEarlier(steps, i, k);
      hide MadeAt;
      RubricAsMade(steps[..n], i, k);
      KeptRun(steps[..n]);
      StepGrows(s, steps[n]);
      StaysAsMade(s, Apply(s, steps[n]), k, steps[i].points);
    }
  }

  // So it adds up to its problem's maximum exactly when its points kept their sum.
  lemma RubricSumsIff(steps: seq<Step>, i: nat, k: nat)
    requires MadeAt(steps, i, k)
    ensures var s := Run(Start(), steps);
            && k < |s.rubrics| && s.rubrics[k].problem in s.problems
            && (SumReals(PointsIn(s.rubrics[k].criteria)) == s.problems[s.rubrics[k].problem] <==> PointsKeepSum(steps[i].points))
  {
    RubricAsMade(steps, i, k);
    hide Run, MadeAt, SumReals;
  }

  lemma MadeEarlier(steps: seq<Step>, i: nat, k: nat)
    requires MadeAt(steps, i, k) && i < |steps| - 1
    ensures MadeAt(steps[..|steps| - 1], i, k) && steps[..|steps| - 1][i] == steps[i]
  {
    hide Run, RubricAccepted;
    assert steps[..|steps| - 1][..i] == steps[..i];
  }

  lemma RubricJustMade(s: State, step: Step)
    requires step.CreateRubric? && RubricAccepted(s, step.problem, step.increment, step.points, step.ids)
    ensures AsMade(Apply(s, step), |s.rubrics|, step.points)
  {
    StoredRubricGood(step.increment, step.points, step.ids, step.problem);
    hide Cent, SumReals, GoodRubric, PointsIn;
  }

  lemma StaysAsMade(s: State, s': State, k: nat, points: seq<real>)
    requires Grows(s, s') && AsMade(s, k, points)
    ensures AsMade(s', k, points)
  {
    assert s'.rubrics[..|s.rubrics|][k] == s'.rubrics[k];
    assert HasRubric(s, s.rubrics[k].problem);
    hide SumReals, PointsIn;
  }

  // ---- full marks ----

  // A score for each criterion: the first multiple of the increment above its points.
  function Above(r: Rubric): (scores: seq<CriterionScore>)
    requires r.increment > 0.0
    ensures |scores| == |r.criteria|
  {
    seq(|r.criteria|, i requires 0 <= i < |r.criteria| =>
      CriterionScore(r.criteria[i].id, RatStr(Multiple(WholeSteps(r.criteria[i].points, r.increment) + 1, r.increment))))
  }

  lemma AboveSnaps(points: real, inc: real)
    requires inc > 0.0 && points >= 0.0
    ensures SnapVal(Multiple(WholeSteps(points, inc) + 1, inc), points, inc) == points
  {
    StepsOfMax(points, inc);
    MultipleSteps(WholeSteps(points, inc) + 1, inc);
    hide Multiple, WholeSteps, Snap;
  }

  // It is clamped to exactly the points.
  lemma AboveSnapped(r: Rubric, i: nat)
    requires GoodRubric(r) && i < |r.criteria|
    ensures var out := SnappedScore(r, Above(r)[i]);
            out.Some? && RatOf(out.value) == Some(r.criteria[i].points)
  {
    var points, inc := r.criteria[i].points, r.increment;
    var above := Multiple(WholeSteps(points, inc) + 1, inc);
    assert Above(r)[i] == CriterionScore(r.criteria[i].id, RatStr(above));
    PointsAt(r.criteria, i);
    AboveSnaps(points, inc);
    hide RatOf, RatStr, OnGrid, SnapVal, SnapClamped, PointsOf, Multiple, WholeSteps, Above;
    GridMultiple(WholeSteps(points, inc) + 1, inc, CENT);
    CentIsMicro(points);
    CentIsMicro(inc);
    CentIsMicro(above);
    StoredExactly(points);
    StoredExactly(inc);
    StoredExactly(above);
    SnapClampedExact(RatStr(above), RatStr(points), RatStr(inc));
  }

  lemma {:induction false} SnappedEach(r: Rubric, scores: seq<CriterionScore>)
    requires forall i :: 0 <= i < |scores| ==> SnappedScore(r, scores[i]).Some?
    ensures var final := SnappedScores(r, scores);
            final.Some? && |final.value| == |scores|
            && forall i :: 0 <= i < |scores| ==> final.value[i] == CriterionScore(scores[i].criterionId, SnappedScore(r, scores[i]).value)
  {
    hide SnappedScore;
    if scores != [] {
      SnappedEach(r, scores[..|scores| - 1]);
    }
  }

  lemma AboveScoredOnce(r: Rubric)
    requires r.increment > 0.0 && NoRepeats(CriterionIds(r.criteria))
    ensures ScoredOnce(r.criteria, Above(r))
  {
    hide RatStr, Multiple;
    assert IdsOf(Above(r)) == CriterionIds(r.criteria);
  }

  // The full total of a rubric is attained: no rubric accepts less than its points add up to.
  lemma FullMarks(k: nat, r: Rubric)
    requires GoodRubric(r)
    ensures var g := ManualGrade(k, r, Above(r));
            g.Some? && g.value.rubric == k && g.value.total == Some(SumReals(PointsIn(r.criteria)))
  {
    AboveScoredOnce(r);
    forall i | 0 <= i < |r.criteria|
      ensures SnappedScore(r, Above(r)[i]).Some? && RatOf(SnappedScore(r, Above(r)[i]).value) == Some(r.criteria[i].points)
    {
      AboveSnapped(r, i);
    }
    hide RatOf, Above, SnappedScore, SnappedScores, StoredTotal, ScoredOnce, ScoreWithin, SumReals, GoodRubric;
    SnappedEach(r, Above(r));
    SnappedWithin(r, Above(r));
    TotalStored(r, SnappedScores(r, Above(r)).value);
    assert Values(SnappedScores(r, Above(r)).value) == PointsIn(r.criteria);
  }

  // ---- totals and the maximum ----

  // No total against rubric k is over its problem's maximum.
  ghost predicate WithinMaximum(s: State, k: nat) {
    forall j :: 0 <= j < |s.grades| && s.grades[j].rubric == k && s.grades[j].total.Some? ==>
      k < |s.rubrics| && s.rubrics[k].problem in s.problems && s.grades[j].total.value <= s.problems[s.rubrics[k].problem]
  }

  // In every continuation of a run and on all three paths, totals against a rubric stay within its
  // problem's maximum exactly when storing the points it was created with does not raise their sum.
  lemma TotalWithinIff(steps: seq<Step>, i: nat, k: nat)
    requires MadeAt(steps, i, k)
    ensures (forall more :: WithinMaximum(Run(Start(), steps + more), k)) <==> SumReals(Cents(steps[i].points)) <= SumReals(steps[i].points)
  {
    var points := steps[i].points;
    hide Run, MadeAt, SumReals, WithinMaximum;
    if SumReals(Cents(points)) <= SumReals(points) {
      forall more
        ensures WithinMaximum(Run(Start(), steps + more), k)
      {
        MadeLater(steps, more, i, k);
        TotalWithinMaximum(steps + more, i, k);
      }
    } else {
      var more := FullMarksOver(steps, i, k);
      assert !WithinMaximum(Run(Start(), steps + more), k);
    }
  }

  lemma MadeLater(steps: seq<Step>, more: seq<Step>, i: nat, k: nat)
    requires MadeAt(steps, i, k)
    ensures MadeAt(steps + more, i, k) && (steps + more)[i] == steps[i]
  {
    hide Run, RubricAccepted;
    assert (steps + more)[..i] == steps[..i];
  }

  lemma TotalWithinMaximum(steps: seq<Step>, i: nat, k: nat)
    requires MadeAt(steps, i, k) && SumReals(Cents(steps[i].points)) <= SumReals(steps[i].points)
    ensures WithinMaximum(Run(Start(), steps), k)
  {
    var s := Run(Start(), steps);
    RubricAsMade(steps, i, k);
    hide Run, MadeAt, ScoredOnce, SumReals, Values;
    forall j | 0 <= j < |s.grades| && s.grades[j].rubric == k && s.grades[j].total.Some?
      ensures s.grades[j].total.value <= s.problems[s.rubrics[k].problem]
    {
      TotalsAreExact(steps, j);
    }
  }

  // A grade by hand that is over it, when the stored points add up to more.
  lemma FullMarksOver(steps: seq<Step>, i: nat, k: nat) returns (more: seq<Step>)
    requires MadeAt(steps, i, k) && SumReals(Cents(steps[i].points)) > SumReals(steps[i].points)
    ensures !WithinMaximum(Run(Start(), steps + more), k)
  {
    var s := Run(Start(), steps);
    RubricAsMade(steps, i, k);
    KeptRun(steps);
    assert RubricKept(s, s.rubrics[k]);
    var r := s.rubrics[k];
    more := [GradeByHand(k, Above(r))];
    hide Run, MadeAt, SumReals, ManualGrade, Above, Kept;
    FullMarks(k, r);
    RunSnoc(Start(), steps, GradeByHand(k, Above(r)));
    var s' := Run(Start(), steps + more);
    assert s'.grades[|s.grades|].rubric == k;
  }

  // ---- a rubric that outgrows its problem ----

  function HalfCents(): seq<Step> {
    [] + [CreateProblem(1, 0.01)] + [CreateRubric(1, 0.01, [0.005, 0.005], [1, 2])]
  }

  function WholeCents(): Rubric {
    Rubric(1, 0.01, [Criterion(1, 0.01), Criterion(2, 0.01)])
  }

  lemma RunSnoc(s: State, steps: seq<Step>, step: Step)
    ensures Run(s, steps + [step]) == Apply(Run(s, steps), step)
  {
    hide Apply;
    assert (steps + [step])[..|steps|] == steps;
  }

  // Half a cent and half a cent make a problem worth one; each is stored as a whole cent.
  lemma HalfCentsAddUp()
    ensures Run(Start(), HalfCents()) == State(map[1 := 0.01], [WholeCents()], [])
    ensures SumReals(PointsIn(WholeCents().criteria)) == 0.02
  {
    var s1 := State(map[1 := 0.01], [], []);
    assert Cent(0.01) == 0.01 && Cent(0.005) == 0.01;
    SumOfTwo(0.005, 0.005);
    SumOfTwo(0.01, 0.01);
    assert Apply(Start(), CreateProblem(1, 0.01)) == s1;
    assert Criteria([0.005, 0.005], [1, 2]) == WholeCents().criteria;
    assert Apply(s1, CreateRubric(1, 0.01, [0.005, 0.005], [1, 2])) == s1.(rubrics := [] + [WholeCents()]);
    assert PointsIn(WholeCents().criteria) == [0.01, 0.01];
    assert Run(Start(), []) == Start();
    hide Apply;
    RunSnoc(Start(), [], CreateProblem(1, 0.01));
    RunSnoc(Start(), [] + [CreateProblem(1, 0.01)], CreateRubric(1, 0.01, [0.005, 0.005], [1, 2]));
  }

  // Full marks on it are two cents, for a problem worth one.
  lemma TotalOverMaximum()
    ensures var s := Run(Start(), HalfCents() + [GradeByHand(0, Above(WholeCents()))]);
            |s.grades| == 1 && s.grades[0].total == Some(0.02) && s.problems == map[1 := 0.01]
  {
    HalfCentsAddUp();
    WholeCentsGood();
    hide Run, ManualGrade, HalfCents, WholeCents, Above, SumReals, GoodRubric, Start, PointsIn;
    FullMarks(0, WholeCents());
    RunSnoc(Start(), HalfCents(), GradeByHand(0, Above(WholeCents())));
  }

  lemma WholeCentsGood()
    ensures GoodRubric(WholeCents())
  {
    assert OnGrid(0.01, CENT);
    assert CriterionIds(WholeCents().criteria) == [1, 2];
  }

  lemma SumOfTwo(a: real, b: real)
    ensures SumReals([a, b]) == a + b
  {
    assert [a, b][..1] == [a] && [a][..0] == [];
    assert SumReals([a]) == a;
  }
}
