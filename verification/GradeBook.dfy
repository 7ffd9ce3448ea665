/** The handlers that write rubrics, problems and grades (internal/httpapi/rubrics.go,
    internal/httpapi/problems.go, internal/grading/manual.go, internal/grading/runner.go), on the
    rows they write. Each takes one step of the state machine. */
module GradeBook {
  import opened Wrappers
  import opened Decimals
  import opened Score
  import opened Seqs
  import opened Consensus
  import opened Grading
  import opened GradingLaws

  datatype Reply = Written | Refused

  class Book {
    var problems: map<int, real>
    var rubrics: seq<Rubric>
    var grades: seq<Grade>

    constructor ()
      ensures Now() == Start()
    {
      problems, rubrics, grades := map[], [], [];
    }

    ghost function Now(): State
      reads this
    {
      State(problems, rubrics, grades)
    }

    // LatestRubricVersion, as far as it matters here: whether there is one.
    method RubricExists(problem: int) returns (found: bool)
      ensures found == HasRubric(Now(), problem)
    {
      for k := 0 to |rubrics|
        invariant forall i :: 0 <= i < k ==> rubrics[i].problem != problem
      {
        if rubrics[k].problem == problem {
          return true;
        }
      }
      return false;
    }

    method CreateProblem(problem: int, max: real) returns (reply: Reply)
      modifies this`problems
      ensures Now() == Apply(old(Now()), GradingLaws.CreateProblem(problem, max))
      ensures reply == Written <==> problem !in old(problems) && Cent(max) >= 0.0
      ensures problems == if reply == Written then old(problems)[problem := Cent(max)] else old(problems)
    {
      if problem in problems || Cent(max) < 0.0 {
        return Refused;
      }
      problems := problems[problem := Cent(max)];
      reply := Written;
    }

    // A new maximum is refused once a rubric exists, unless it is the same one.
    method UpdateProblem(problem: int, newMax: real) returns (reply: Reply)
      modifies this`problems
      ensures Now() == Apply(old(Now()), GradingLaws.UpdateProblem(problem, newMax))
      ensures reply == Written <==>
              && problem in old(problems) && Cent(newMax) >= 0.0
              && (HasRubric(old(Now()), problem) ==> newMax == old(problems)[problem])
      ensures problems == if reply == Written then old(problems)[problem := Cent(newMax)] else old(problems)
    {
      hide HasRubric, Cent;
      if problem !in problems {
        return Refused;
      }
      var frozen := RubricExists(problem);
      if frozen && newMax != problems[problem] {
        return Refused;
      }
      if Cent(newMax) < 0.0 {
        return Refused;
      }
      problems := problems[problem := Cent(newMax)];
      reply := Written;
    }

    // The points must add up to the problem's maximum before any of them is stored.
    method CreateRubricVersion(problem: int, increment: real, points: seq<real>, ids: seq<int>) returns (reply: Reply)
      requires |ids| == |points| && NoRepeats(ids)
      modifies this`rubrics
      ensures Now() == Apply(old(Now()), CreateRubric(problem, increment, points, ids))
      ensures reply == Written <==> RubricAccepted(old(Now()), problem, increment, points, ids)
      ensures if reply != Written then rubrics == old(rubrics)
              else
                && |rubrics| == |old(rubrics)| + 1 && rubrics[..|old(rubrics)|] == old(rubrics)
                && var r := rubrics[|old(rubrics)|];
                   && r.problem == problem && r.increment == Cent(increment) && |r.criteria| == |points|
                   && forall i :: 0 <= i < |points| ==> r.criteria[i].id == ids[i] && r.criteria[i].points == Cent(points[i])
    {
      hide Cent, SumReals;
      if problem !in problems || |points| == 0 {
        return Refused;
      }
      var sum := 0.0;
      var legal := true;
      var stored: seq<Criterion> := [];
      NoSum(points);
      for i := 0 to |points|
        invariant sum == SumReals(points[..i])
        invariant legal == forall k :: 0 <= k < i ==> Cent(points[k]) >= 0.0
        invariant stored == Criteria(points, ids)[..i] && rubrics == old(rubrics)
      {
        SumSnoc(points, i);
        sum := sum + points[i];
        if Cent(points[i]) < 0.0 {
          legal := false;
        }
        stored := stored + [Criterion(ids[i], Cent(points[i]))];
      }
      assert points[..|points|] == points && Criteria(points, ids)[..|points|] == Criteria(points, ids);
      assert stored == Criteria(points, ids) && sum == SumReals(points);
      hide Criteria, NoRepeats;
      if sum != problems[problem] || Cent(increment) <= 0.0 || !legal {
        return Refused;
      }
      rubrics := rubrics + [Rubric(problem, Cent(increment), stored)];
      reply := Written;
    }

    method GradeManually(k: nat, scores: seq<CriterionScore>) returns (reply: Reply)
      requires forall i :: 0 <= i < |rubrics| ==> rubrics[i].criteria != [] && NoRepeats(CriterionIds(rubrics[i].criteria))
      modifies this`grades
      ensures Now() == Apply(old(Now()), GradeByHand(k, scores))
      ensures reply == Written <==> k < |rubrics| && ManualGrade(k, rubrics[k], scores).Some?
      ensures reply == Written <==> |grades| == |old(grades)| + 1
      ensures reply == Written ==>
                && grades[..|old(grades)|] == old(grades) && grades[|old(grades)|].rubric == k
                && SnapsAll(rubrics[k], scores, grades[|old(grades)|].scores)
      ensures reply != Written ==> grades == old(grades)
    {
      hide ScoredOnce, SnappedScores, StoredTotal, NoRepeats, CriterionIds;
      if k >= |rubrics| {
        return Refused;
      }
      var g := InsertManualRecord(k, rubrics[k], scores);
      if g.Err? {
        return Refused;
      }
      grades := grades + [g.value];
      reply := Written;
    }

    method StoreVerdict(k: nat, v: Verdict) returns (reply: Reply)
      requires forall i :: 0 <= i < |rubrics| ==> rubrics[i].criteria != [] && NoRepeats(CriterionIds(rubrics[i].criteria))
      modifies this`grades
      ensures Now() == Apply(old(Now()), GradeByModel(k, v))
      ensures reply == Written <==> k < |rubrics| && ModelGrade(k, rubrics[k], v).Some?
      ensures reply == Written <==> |grades| == |old(grades)| + 1
      ensures reply == Written ==>
                && grades[..|old(grades)|] == old(grades) && grades[|old(grades)|].rubric == k
                && SnapsAll(rubrics[k], v.scores, grades[|old(grades)|].scores)
                && (grades[|old(grades)|].total == None <==> v.confidence == "illegible")
      ensures reply != Written ==> grades == old(grades)
    {
      hide ScoredOnce, SnappedScores, StoredTotal, NoRepeats, CriterionIds;
      if k >= |rubrics| {
        return Refused;
      }
      var g := ScoreVerdict(k, rubrics[k], v);
      if g.Err? {
        return Refused;
      }
      grades := grades + [g.value];
      reply := Written;
    }
  }

  lemma NoSum(points: seq<real>)
    ensures SumReals(points[..0]) == 0.0
  {
  }

  lemma SumSnoc(points: seq<real>, i: nat)
    requires i < |points|
    ensures SumReals(points[..i + 1]) == SumReals(points[..i]) + points[i]
  {
    assert points[..i + 1][..i] == points[..i];
  }
}
