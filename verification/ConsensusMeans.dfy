/** internal/grading/aggregate.go:85-168: what the mean combiner returns, and a contested majority:
    in numbers, vote by vote. */
module ConsensusMeans {
  import opened Wrappers
  import opened Decimals
  import opened Score
  import opened Seqs
  import opened MeanRendering
  import opened Consensus

  // ---- the votes ----

  // The panel's scores of a criterion that read as v: input i, score k.
  function PlacesOf(inputs: seq<PanelInput>, id: int, v: real): set<(nat, nat)> {
    set i: nat, k: nat | i < |inputs| && k < |inputs[i].scores|
      && inputs[i].scores[k].criterionId == id && RatOf(inputs[i].scores[k].score) == Some(v) :: (i, k)
  }

  predicate ReadsAs(sc: CriterionScore, id: int, v: real) {
    sc.criterionId == id && RatOf(sc.score) == Some(v)
  }

  function PlacesIn(scores: seq<CriterionScore>, id: int, v: real): set<nat> {
    set k: nat | k < |scores| && ReadsAs(scores[k], id, v)
  }

  lemma {:induction false} VotesOfOne(scores: seq<CriterionScore>, id: int, v: real)
    ensures multiset(Votes(scores, id))[v] == |PlacesIn(scores, id, v)|
  {
    if scores != [] {
      var n := |scores| - 1;
      VotesOfOne(scores[..n], id, v);
      assert Votes(scores, id) == Votes(scores[..n], id) + VoteFor(id)(scores[n]);
      OneVote(scores[n], id, v);
      hide Votes, RatOf, VoteFor, PlacesIn, ReadsAs;
      PlacesInSnoc(scores, id, v);
    }
  }

  lemma OneVote(sc: CriterionScore, id: int, v: real)
    ensures multiset(VoteFor(id)(sc))[v] == if ReadsAs(sc, id, v) then 1 else 0
  {
    hide RatOf;
  }

  lemma PlacesInSnoc(scores: seq<CriterionScore>, id: int, v: real)
    requires scores != []
    ensures var last := scores[|scores| - 1];
            |PlacesIn(scores, id, v)| == |PlacesIn(scores[..|scores| - 1], id, v)|
                                         + if ReadsAs(last, id, v) then 1 else 0
  {
    hide ReadsAs;
    var n: nat := |scores| - 1;
    var before, all := PlacesIn(scores[..n], id, v), PlacesIn(scores, id, v);
    forall k: nat
      ensures k in all <==> k in before || (k == n && ReadsAs(scores[n], id, v))
    {
      assert k < n ==> scores[..n][k] == scores[k];
    }
    assert n !in before;
    hide PlacesIn;
    if ReadsAs(scores[n], id, v) {
      assert all == before + {n};
    } else {
      assert all == before;
    }
  }

  // Each score of the criterion is one vote, whoever gave it, and nothing else is.
  lemma {:induction false} EveryScoreIsAVote(inputs: seq<PanelInput>, id: int, v: real)
    ensures multiset(Votes(AllScores(inputs), id))[v] == |PlacesOf(inputs, id, v)|
  {
    hide RatOf;
    if inputs != [] {
      var n := |inputs| - 1;
      EveryScoreIsAVote(inputs[..n], id, v);
      VotesOfOne(inputs[n].scores, id, v);
      assert AllScores(inputs) == AllScores(inputs[..n]) + inputs[n].scores;
      FlatMapConcat(AllScores(inputs[..n]), inputs[n].scores, VoteFor(id));
      hide AllScores, FlatMap;
      PlacesSnoc(inputs, id, v);
    }
  }

  lemma PlacesSnoc(inputs: seq<PanelInput>, id: int, v: real)
    requires inputs != []
    ensures var n := |inputs| - 1;
            |PlacesOf(inputs, id, v)| == |PlacesOf(inputs[..n], id, v)| + |PlacesIn(inputs[n].scores, id, v)|
  {
    var n: nat := |inputs| - 1;
    var last := PlacesIn(inputs[n].scores, id, v);
    var placed := set k | k in last :: (n, k);
    SamePlaces(last, placed, n);
    PlacesSplit(inputs, id, v, n, placed);
    hide PlacesOf, PlacesIn;
    assert PlacesOf(inputs, id, v) == PlacesOf(inputs[..n], id, v) + placed;
  }

  lemma PlacesSplit(inputs: seq<PanelInput>, id: int, v: real, n: nat, placed: set<(nat, nat)>)
    requires |inputs| == n + 1 && placed == set k | k in PlacesIn(inputs[n].scores, id, v) :: (n, k)
    ensures PlacesOf(inputs, id, v) == PlacesOf(inputs[..n], id, v) + placed
    ensures PlacesOf(inputs[..n], id, v) !! placed
  {
    hide RatOf;
    var before, all := PlacesOf(inputs[..n], id, v), PlacesOf(inputs, id, v);
    forall i: nat, k: nat
      ensures (i, k) in all <==> (i, k) in before || (i, k) in placed
    {
      assert i < n ==> inputs[..n][i] == inputs[i];
    }
  }

  lemma {:induction false} SamePlaces(ks: set<nat>, placed: set<(nat, nat)>, n: nat)
    requires placed == set k | k in ks :: (n, k)
    ensures |placed| == |ks|
  {
    if ks != {} {
      var k := Member(ks);
      SamePlaces(ks - {k}, placed - {(n, k)}, n);
    }
  }

  // ---- the mean ----

  // A score snapped twice, each time printed to six decimals.
  function SnappedTwice(m: real, max: real, inc: real): real
    requires inc > 0.0
  {
    Rendered(SnapVal(SnappedOnce(m, max, inc), max, inc))
  }

  function SnappedOnce(m: real, max: real, inc: real): real
    requires inc > 0.0
  {
    Rendered(SnapVal(Rendered(m), max, inc))
  }

  // The votes further from a value than the increment.
  function Far(votes: seq<real>, value: real, inc: real): set<nat> {
    set i: nat | i < |votes| && (votes[i] - value > inc || value - votes[i] > inc)
  }

  lemma OutliersAreFar(votes: seq<real>, value: real, inc: real)
    ensures Outliers(votes, value, inc) == |Far(votes, value, inc)|
  {
    forall v: real
      ensures Outlier(value, inc)(v) != [] <==> (v - value > inc || value - v > inc)
    {
      assert |Outlier(value, inc)(v)| == if Abs(v - value) > inc then 1 else 0;
    }
    assert Far(votes, value, inc) == set i: nat | i < |votes| && Outlier(value, inc)(votes[i]) != [];
    KeptCount(votes, Outlier(value, inc), Far(votes, value, inc));
  }

  lemma MeanTimes(votes: seq<real>) returns (m: real)
    requires votes != []
    ensures m == MeanOf(votes) && m * |votes| as real == SumReals(votes)
  {
    m := SumReals(votes) / |votes| as real;
  }

  // The criterion a score is for: its votes, and its limits as numbers.
  ghost predicate OnBallot(p: CombineParams, id: int, votes: seq<real>, max: real, inc: real) {
    && (forall v :: multiset(votes)[v] == |PlacesOf(p.inputs, id, v)|)
    && votes != [] && id in p.criterionMax && RatOf(p.criterionMax[id]) == Some(max) && RatOf(p.increment) == Some(inc) && inc > 0.0
  }

  // What is returned under "mean", and by a contested majority, is the mean of all the votes,
  // printed, snapped and clamped, and snapped again. Under "mean" the criterion is contested
  // exactly when more than f votes are further than the increment from the first snapped value.
  lemma MeanOfAllVotes(p: CombineParams, r: CombineResult, k: nat) returns (votes: seq<real>, max: real, inc: real, m: real)
    requires Combined(p, r) && k < |r.scores| && (p.combiner == "mean" || r.scores[k].criterionId in r.contested)
    ensures OnBallot(p, r.scores[k].criterionId, votes, max, inc) && m * |votes| as real == SumReals(votes)
    ensures RatOf(r.scores[k].score) == Some(SnappedTwice(m, max, inc))
    ensures p.combiner == "mean" ==>
              (r.scores[k].criterionId in r.contested <==> |Far(votes, SnappedOnce(m, max, inc), inc)| > p.faultTolerance)
  {
    hide *;
    var id := r.scores[k].criterionId;
    DecidedScore(p, r, k);
    var b := BallotFor(p, id);
    BallotHolds(p, id, r.scores[k].score, id in r.contested);
    votes, max, inc := b.votes, RatOf(b.max).value, RatOf(b.inc).value;
    m := MeanTimes(votes);
    MeanDecided(p.combiner, b, p.Need(), p.faultTolerance, r.scores[k].score, id in r.contested);
  }

  lemma BallotHolds(p: CombineParams, id: int, value: string, contested: bool)
    requires CriterionDecided(p, id, value, contested) && CriterionReadable(p, id) && IncrementReadable(p.increment)
    ensures var b := BallotFor(p, id);
            && b.votes != [] && Decided(p.combiner, b, p.Need(), p.faultTolerance, value, contested)
            && RatOf(b.max).Some? && RatOf(b.inc).Some? && IncrementReadable(b.inc)
            && OnBallot(p, id, b.votes, RatOf(b.max).value, RatOf(b.inc).value)
  {
    hide RatOf, Decided, PlacesOf, Votes;
    forall v
      ensures multiset(BallotFor(p, id).votes)[v] == |PlacesOf(p.inputs, id, v)|
    {
      EveryScoreIsAVote(p.inputs, id, v);
    }
  }

  lemma DecidedScore(p: CombineParams, r: CombineResult, k: nat)
    requires Combined(p, r) && k < |r.scores|
    ensures var id := r.scores[k].criterionId;
            CriterionDecided(p, id, r.scores[k].score, id in r.contested) && CriterionReadable(p, id) && IncrementReadable(p.increment)
  {
    hide CriterionDecided, CriterionReadable, IncrementReadable, ReadAll, SumReals, RatStr, LowCount, Ascending, ScoreReadable, AllScores, Ids;
    assert IdsOf(r.scores)[k] in Elements(IdsOf(r.scores));
  }

  lemma MeanDecided(combiner: string, b: Ballot, need: int, f: int, value: string, contested: bool)
    requires b.votes != [] && Decided(combiner, b, need, f, value, contested) && (combiner == "mean" || contested)
    requires RatOf(b.max).Some? && IncrementReadable(b.inc)
    ensures var max, inc, m := RatOf(b.max).value, RatOf(b.inc).value, MeanOf(b.votes);
            && RatOf(value) == Some(SnappedTwice(m, max, inc))
            && (combiner == "mean" ==> (contested <==> |Far(b.votes, SnappedOnce(m, max, inc), inc)| > f))
  {
    var max, inc, m := RatOf(b.max).value, RatOf(b.inc).value, MeanOf(b.votes);
    var raw :| RawDecision(combiner, b, need, f, raw, contested)
      && SnapClamped(raw, b.max, b.inc).Ok? && value == SnapClamped(raw, b.max, b.inc).value.0;
    assert raw == SnapClamped(RatStr(m), b.max, b.inc).value.0;
    hide RatOf, RatStr, SnapClamped, SnapVal, Count, Rendered, Outliers, Far;
    PrintedReadsBack(m);
    SnapReads(RatStr(m), b.max, b.inc, Rendered(m));
    SnapReads(raw, b.max, b.inc, SnappedOnce(m, max, inc));
    OutliersAreFar(b.votes, SnappedOnce(m, max, inc), inc);
  }

  // For cent votes, limits in cents, and a panel of the right size, printing does not show: the
  // score is the exact mean, snapped and clamped, twice.
  lemma MeanIsExact(p: CombineParams, r: CombineResult, k: nat) returns (votes: seq<real>, max: real, inc: real, m: real)
    requires Combined(p, r) && k < |r.scores| && (p.combiner == "mean" || r.scores[k].criterionId in r.contested)
    ensures OnBallot(p, r.scores[k].criterionId, votes, max, inc) && m * |votes| as real == SumReals(votes)
    ensures CentVotes(votes, max, inc) && SafePanel(|votes|) ==>
              RatOf(r.scores[k].score) == Some(SnapVal(SnapVal(m, max, inc), max, inc))
  {
    votes, max, inc, m := MeanOfAllVotes(p, r, k);
    hide Combined, OnBallot, CentVotes, SafePanel;
    if CentVotes(votes, max, inc) && SafePanel(|votes|) {
      IsMean(votes, m);
      RenderingIsSafe(votes, max, inc);
      CentSnaps(votes, m, max, inc);
    }
  }

  lemma IsMean(votes: seq<real>, m: real)
    requires votes != [] && m * |votes| as real == SumReals(votes)
    ensures m == MeanOf(votes)
  {
    hide SumReals;
  }

  lemma CentSnaps(votes: seq<real>, m: real, max: real, inc: real)
    requires CentVotes(votes, max, inc) && SnapVal(Rendered(m), max, inc) == SnapVal(m, max, inc)
    ensures SnappedTwice(m, max, inc) == SnapVal(SnapVal(m, max, inc), max, inc)
  {
    var once := SnapVal(m, max, inc);
    hide OnGrid, SnapVal, Rendered;
    SnapVal_OnGrid(m, max, inc, CENT);
    SnapVal_OnGrid(once, max, inc, CENT);
    CentPrints(once);
    CentPrints(SnapVal(once, max, inc));
  }

  lemma CentPrints(x: real)
    requires OnGrid(x, CENT)
    ensures Rendered(x) == x
  {
    var k := (x * CENT as real).Floor;
    assert x * MICRO as real == (k * 10000) as real;
    assert OnGrid(x, MICRO);
    RenderedExact(x);
  }

  // ---- confidence ----

  // The inputs a panel may distrust.
  function LowPlaces(inputs: seq<PanelInput>): set<nat> {
    set i: nat | i < |inputs| && (inputs[i].confidence == "low" || inputs[i].confidence == "illegible")
  }

  // A result is marked exactly when more than f inputs are of low confidence or illegible.
  lemma LowConfidenceIff(p: CombineParams, r: CombineResult)
    requires Combined(p, r) && !r.missing
    ensures r.lowConfidence <==> |LowPlaces(p.inputs)| > p.faultTolerance
  {
    KeptCount(p.inputs, LowVote, LowPlaces(p.inputs));
    hide FlatMap, CriterionDecided, ReadAll, SumReals, RatStr, Readable;
  }
}
