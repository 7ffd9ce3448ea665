/** What a panel's decision promises: a majority that outvotes its faults, and a result that
    does not depend on the order in which anything was listed. */
module ConsensusLaws {
  import opened Wrappers
  import opened Decimals
  import opened Score
  import opened Seqs
  import opened MeanRendering
  import opened Consensus

  predicate ScoresOnce(scores: seq<CriterionScore>) {
    forall i, j :: 0 <= i < j < |scores| ==> scores[i].criterionId != scores[j].criterionId
  }

  // No more inputs than models on the panel, each scoring a criterion at most once.
  predicate OnceEach(p: CombineParams) {
    |p.inputs| <= p.panelSize && forall input :: input in p.inputs ==> ScoresOnce(input.scores)
  }

  predicate Backs(input: PanelInput, id: int, s: string) {
    Count(Votes(input.scores, id), s) > 0
  }

  function Backer(id: int, s: string): PanelInput -> seq<PanelInput> {
    (input: PanelInput) => if Backs(input, id, s) then [input] else []
  }

  // How many inputs vote the printed value s for the criterion.
  function Backers(inputs: seq<PanelInput>, id: int, s: string): nat {
    |FlatMap(inputs, Backer(id, s))|
  }

  // ---- counting votes by input ----

  lemma {:induction false} VotesOnce(scores: seq<CriterionScore>, id: int)
    requires ScoresOnce(scores)
    ensures |Votes(scores, id)| <= 1
    ensures (forall sc :: sc in scores ==> sc.criterionId != id) ==> Votes(scores, id) == []
  {
    hide RatOf;
    if scores != [] {
      var rest, last := scores[..|scores| - 1], scores[|scores| - 1];
      VotesOnce(rest, id);
      assert forall i :: 0 <= i < |rest| ==> rest[i] in scores && rest[i].criterionId != last.criterionId;
    }
  }

  lemma CountConcat(vs: seq<real>, ws: seq<real>, s: string)
    ensures Count(vs + ws, s) == Count(vs, s) + Count(ws, s)
  {
    FlatMapConcat(vs, ws, Backing(s));
  }

  lemma {:induction false} CountAtMost(vs: seq<real>, s: string)
    ensures Count(vs, s) <= |vs|
  {
    hide RatStr;
    if vs != [] {
      CountAtMost(vs[..|vs| - 1], s);
    }
  }

  // Each input adds its own votes: at most one, and one for s exactly when it backs s.
  lemma {:induction false} VotesByInput(inputs: seq<PanelInput>, id: int, s: string)
    requires forall input :: input in inputs ==> ScoresOnce(input.scores)
    ensures |Votes(AllScores(inputs), id)| <= |inputs|
    ensures Count(Votes(AllScores(inputs), id), s) == Backers(inputs, id, s) <= |inputs|
  {
    hide RatStr, RatOf;
    if inputs != [] {
      var rest, last := inputs[..|inputs| - 1], inputs[|inputs| - 1];
      VotesByInput(rest, id, s);
      VotesOnce(last.scores, id);
      CountAtMost(Votes(last.scores, id), s);
      assert AllScores(inputs) == AllScores(rest) + last.scores;
      assert FlatMap(inputs, Backer(id, s)) == FlatMap(rest, Backer(id, s)) + Backer(id, s)(last);
      hide FlatMap;
      FlatMapConcat(AllScores(rest), last.scores, VoteFor(id));
      CountConcat(Votes(AllScores(rest), id), Votes(last.scores, id), s);
    } else {
      assert AllScores([]) == [];
    }
  }

  lemma {:induction false} TwoCounts(vs: seq<real>, s: string, t: string)
    requires s != t
    ensures Count(vs, s) + Count(vs, t) <= |vs|
  {
    hide RatStr;
    if vs != [] {
      TwoCounts(vs[..|vs| - 1], s, t);
    }
  }

  // Two values cannot both have need votes when fewer than 2*need were cast.
  lemma OneMajority(vs: seq<real>, need: int, s: string, t: string)
    requires |vs| < 2 * need && Count(vs, s) >= need && Count(vs, t) >= need
    ensures s == t
  {
    hide Count;
    if s != t {
      TwoCounts(vs, s, t);
    }
  }

  // ---- fault tolerance ----

  lemma BallotSize(p: CombineParams, id: int, s: string)
    requires OnceEach(p) && PolicyShape(p.panelSize, p.faultTolerance)
    ensures |BallotFor(p, id).votes| < 2 * p.Need()
    ensures Count(BallotFor(p, id).votes, s) == Backers(p.inputs, id, s) <= |p.inputs|
  {
    hide Votes, AllScores, Count, Backers;
    VotesByInput(p.inputs, id, s);
  }

  lemma ScoredAt(r: CombineResult, id: int) returns (k: nat)
    requires id in IdsOf(r.scores)
    ensures k < |r.scores| && r.scores[k].criterionId == id
  {
    k :| k < |r.scores| && IdsOf(r.scores)[k] == id;
  }

  lemma BackedIsScored(p: CombineParams, id: int, s: string)
    requires Count(Votes(AllScores(p.inputs), id), s) > 0
    ensures id in Ids(AllScores(p.inputs))
  {
    hide RatOf, RatStr, AllScores;
    var scores := AllScores(p.inputs);
    CountAtMost([], s);
    if id !in Ids(scores) {
      NoVotes(scores, id);
    }
  }

  lemma {:induction false} NoVotes(scores: seq<CriterionScore>, id: int)
    requires forall sc :: sc in scores ==> sc.criterionId != id
    ensures Votes(scores, id) == []
  {
    hide RatOf;
    if scores != [] {
      NoVotes(scores[..|scores| - 1], id);
    }
  }

  // What an uncontested or contested majority criterion was given, in terms of the inputs.
  lemma MajorityDecision(p: CombineParams, id: int, value: string, contested: bool)
    requires p.combiner == "majority" && OnceEach(p) && PolicyShape(p.panelSize, p.faultTolerance)
    requires CriterionDecided(p, id, value, contested)
    ensures contested <==> !exists s :: Backers(p.inputs, id, s) >= p.Need()
    ensures forall s :: Backers(p.inputs, id, s) >= p.Need() ==>
              SnapClamped(s, BallotFor(p, id).max, p.increment).Ok?
              && value == SnapClamped(s, BallotFor(p, id).max, p.increment).value.0
    ensures forall s, t :: Backers(p.inputs, id, s) >= p.Need() && Backers(p.inputs, id, t) >= p.Need() ==> s == t
  {
    hide Votes, AllScores, Count, Backers, SnapClamped, SnappedMean, OnceEach;
    var b := BallotFor(p, id);
    var raw :| RawDecision(p.combiner, b, p.Need(), p.faultTolerance, raw, contested)
      && SnapClamped(raw, b.max, b.inc).Ok? && value == SnapClamped(raw, b.max, b.inc).value.0;
    forall s
      ensures |b.votes| < 2 * p.Need() && Count(b.votes, s) == Backers(p.inputs, id, s)
    {
      BallotSize(p, id, s);
    }
    forall s, t | Backers(p.inputs, id, s) >= p.Need() && Backers(p.inputs, id, t) >= p.Need()
      ensures s == t
    {
      OneMajority(b.votes, p.Need(), s, t);
    }
    if !contested {
      assert Backers(p.inputs, id, raw) >= p.Need();
    }
  }

  // Whatever the faulty models say, a value that n - f inputs agree on and that snapping keeps
  // is what the panel returns, uncontested.
  lemma MajorityToleratesFaults(p: CombineParams, r: CombineResult, id: int, s: string)
    requires Combined(p, r) && p.combiner == "majority" && OnceEach(p)
    requires Backers(p.inputs, id, s) >= p.Need()
    requires SnapClamped(s, BallotFor(p, id).max, p.increment).Ok?
    requires SnapClamped(s, BallotFor(p, id).max, p.increment).value.0 == s
    ensures !r.missing && CriterionScore(id, s) in r.scores && id !in r.contested
  {
    hide Votes, AllScores, Count, Backers, SnapClamped, CriterionDecided, OnceEach, ReadAll, SumReals, RatStr, RatOf;
    BallotSize(p, id, s);
    BackedIsScored(p, id, s);
    assert id in Elements(IdsOf(r.scores));
    var k := ScoredAt(r, id);
    MajorityDecision(p, id, r.scores[k].score, id in r.contested);
    assert r.scores[k] == CriterionScore(id, s);
  }

  // A criterion is contested exactly when no value has n - f votes; an uncontested score is the
  // one value with that many, snapped.
  lemma UncontestedIsUnique(p: CombineParams, r: CombineResult, k: nat)
    requires Combined(p, r) && p.combiner == "majority" && OnceEach(p) && k < |r.scores|
    ensures var id := r.scores[k].criterionId;
            id in r.contested <==> !exists s :: Backers(p.inputs, id, s) >= p.Need()
    ensures var id := r.scores[k].criterionId;
            id !in r.contested ==>
              exists s :: Backers(p.inputs, id, s) >= p.Need()
                && (forall t :: Backers(p.inputs, id, t) >= p.Need() ==> t == s)
                && SnapClamped(s, BallotFor(p, id).max, p.increment).Ok?
                && r.scores[k].score == SnapClamped(s, BallotFor(p, id).max, p.increment).value.0
  {
    hide Votes, AllScores, Count, Backers, SnapClamped, CriterionDecided, OnceEach, ReadAll, SumReals, RatStr, RatOf;
    var id := r.scores[k].criterionId;
    MajorityDecision(p, id, r.scores[k].score, id in r.contested);
  }

  // ---- order ----

  function Relisted(p: CombineParams, inputs: seq<PanelInput>): CombineParams {
    p.(inputs := inputs)
  }

  lemma {:induction false} CountPermuted(vs: seq<real>, ws: seq<real>, s: string)
    requires multiset(vs) == multiset(ws)
    ensures Count(vs, s) == Count(ws, s)
  {
    hide FlatMap;
    FlatMapPermuted(vs, ws, Backing(s));
    assert |multiset(FlatMap(vs, Backing(s)))| == |multiset(FlatMap(ws, Backing(s)))|;
  }

  predicate SameBallot(b: Ballot, c: Ballot) {
    multiset(b.votes) == multiset(c.votes) && b.max == c.max && b.inc == c.inc
  }

  lemma SameMean(b: Ballot, c: Ballot)
    requires SameBallot(b, c) && b.votes != []
    ensures c.votes != [] && SnappedMean(b) == SnappedMean(c)
  {
    hide SnapClamped, RatStr;
    SumPermuted(b.votes, c.votes);
  }

  lemma OutliersPermuted(vs: seq<real>, ws: seq<real>, value: real, inc: real)
    requires multiset(vs) == multiset(ws)
    ensures Outliers(vs, value, inc) == Outliers(ws, value, inc)
  {
    hide FlatMap;
    FlatMapPermuted(vs, ws, Outlier(value, inc));
    assert |multiset(FlatMap(vs, Outlier(value, inc)))| == |multiset(FlatMap(ws, Outlier(value, inc)))|;
  }

  lemma SameRaw(combiner: string, b: Ballot, c: Ballot, need: int, f: int, raw: string, x: bool, raw': string, y: bool)
    requires b.votes != [] && c.votes != [] && SameBallot(b, c)
    requires combiner == "mean" || |b.votes| < 2 * need
    requires RawDecision(combiner, b, need, f, raw, x) && RawDecision(combiner, c, need, f, raw', y)
    ensures raw == raw' && x == y
  {
    hide SnapClamped, Count, Outliers, Plurality, SnappedMean, RatOf;
    SameMean(b, c);
    if combiner == "mean" {
      OutliersPermuted(b.votes, c.votes, RatOf(raw).value, RatOf(b.inc).value);
    } else {
      forall s
        ensures Count(b.votes, s) == Count(c.votes, s)
      {
        CountPermuted(b.votes, c.votes, s);
      }
      if !x && !y {
        OneMajority(b.votes, need, raw, raw');
      }
    }
  }

  // A criterion has one possible decision, whatever the order of its votes and of the counts map.
  lemma DecidedUnique(combiner: string, b: Ballot, c: Ballot, need: int, f: int, v: string, x: bool, w: string, y: bool)
    requires b.votes != [] && c.votes != [] && SameBallot(b, c)
    requires combiner == "mean" || |b.votes| < 2 * need
    requires Decided(combiner, b, need, f, v, x) && Decided(combiner, c, need, f, w, y)
    ensures v == w && x == y
  {
    hide SnapClamped, RawDecision;
    var raw :| RawDecision(combiner, b, need, f, raw, x)
      && SnapClamped(raw, b.max, b.inc).Ok? && v == SnapClamped(raw, b.max, b.inc).value.0;
    var raw' :| RawDecision(combiner, c, need, f, raw', y)
      && SnapClamped(raw', c.max, c.inc).Ok? && w == SnapClamped(raw', c.max, c.inc).value.0;
    SameRaw(combiner, b, c, need, f, raw, x, raw', y);
  }

  lemma ScoresPermuted(p: CombineParams, inputs: seq<PanelInput>, id: int)
    requires multiset(p.inputs) == multiset(inputs)
    ensures multiset(AllScores(p.inputs)) == multiset(AllScores(inputs))
    ensures Ids(AllScores(p.inputs)) == Ids(AllScores(inputs))
    ensures SameBallot(BallotFor(p, id), BallotFor(Relisted(p, inputs), id))
    ensures |p.inputs| == |inputs| && LowCount(p.inputs) == LowCount(inputs)
  {
    hide FlatMap, RatOf;
    FlatMapPermuted(p.inputs, inputs, ScoresOf);
    FlatMapPermuted(p.inputs, inputs, LowVote);
    FlatMapPermuted(AllScores(p.inputs), AllScores(inputs), VoteFor(id));
    assert |multiset(p.inputs)| == |multiset(inputs)|;
    assert |multiset(FlatMap(p.inputs, LowVote))| == |multiset(FlatMap(inputs, LowVote))|;
    SameMembers(AllScores(p.inputs), AllScores(inputs));
  }

  lemma SameMembers<T>(xs: seq<T>, ys: seq<T>)
    requires multiset(xs) == multiset(ys)
    ensures forall x :: x in xs <==> x in ys
  {
    assert forall x :: x in xs <==> x in multiset(xs);
    assert forall x :: x in ys <==> x in multiset(ys);
  }

  // Whether a panel is combined or refused does not depend on the order of its inputs.
  lemma ReadableAnyOrder(p: CombineParams, inputs: seq<PanelInput>)
    requires multiset(p.inputs) == multiset(inputs)
    ensures Readable(p) <==> Readable(Relisted(p, inputs))
  {
    hide AllScores, ScoreReadable, IncrementReadable, Ids;
    ScoresPermuted(p, inputs, 0);
    SameMembers(AllScores(p.inputs), AllScores(inputs));
  }

  // A refusal and a result exclude each other.
  lemma RefusedIsUnreadable(p: CombineParams, e: CombineError)
    requires RefusedWith(p, e)
    ensures !Readable(p)
  {
    hide AllScores, ScoreReadable, IncrementReadable, CriterionReadable;
  }

  lemma BallotsPermuted(p: CombineParams, inputs: seq<PanelInput>, id: int)
    requires multiset(p.inputs) == multiset(inputs)
    ensures SameBallot(BallotFor(p, id), BallotFor(Relisted(p, inputs), id))
  {
    hide *;
    ScoresPermuted(p, inputs, id);
  }

  lemma SameDecision(p: CombineParams, inputs: seq<PanelInput>, id: int, v: string, x: bool, w: string, y: bool)
    requires multiset(p.inputs) == multiset(inputs) && PolicyShape(p.panelSize, p.faultTolerance)
    requires p.combiner == "mean" || OnceEach(p)
    requires CriterionDecided(p, id, v, x) && CriterionDecided(Relisted(p, inputs), id, w, y)
    ensures v == w && x == y
  {
    hide Votes, AllScores, Decided, OnceEach, SameBallot, PolicyShape, BallotFor;
    var b, c := BallotFor(p, id), BallotFor(Relisted(p, inputs), id);
    assert b.votes != [] && Decided(p.combiner, b, p.Need(), p.faultTolerance, v, x);
    assert c.votes != [] && Decided(p.combiner, c, p.Need(), p.faultTolerance, w, y);
    hide *;
    BallotsPermuted(p, inputs, id);
    if p.combiner != "mean" {
      BallotSize(p, id, "");
    }
    DecidedUnique(p.combiner, b, c, p.Need(), p.faultTolerance, v, x, w, y);
  }

  // The result is the same for every order of the inputs, and for every order in which the
  // counts map may be walked.
  lemma CombinedAnyOrder(p: CombineParams, inputs: seq<PanelInput>, r: CombineResult, r': CombineResult)
    requires multiset(p.inputs) == multiset(inputs)
    requires p.combiner == "mean" || OnceEach(p)
    requires Combined(p, r) && Combined(Relisted(p, inputs), r')
    ensures r == r'
  {
    hide AllScores, Ids, CriterionDecided, OnceEach, ReadAll, SumReals, RatStr, RatOf, LowCount, Readable, Ascending;
    assert PolicyShape(p.panelSize, p.faultTolerance) by { PolicyOf(p); }
    ScoresPermuted(p, inputs, 0);
    if |p.inputs| >= p.Need() {
      AscendingUnique(IdsOf(r.scores), IdsOf(r'.scores));
      forall i | 0 <= i < |r.scores|
        ensures i < |r'.scores| && r.scores[i] == r'.scores[i]
        ensures IdsOf(r.scores)[i] in r.contested <==> IdsOf(r.scores)[i] in r'.contested
      {
        assert |IdsOf(r.scores)| == |IdsOf(r'.scores)|;
        assert IdsOf(r.scores)[i] == IdsOf(r'.scores)[i];
        var id := r.scores[i].criterionId;
        SameDecision(p, inputs, id, r.scores[i].score, id in r.contested, r'.scores[i].score, id in r'.contested);
      }
      assert |IdsOf(r.scores)| == |IdsOf(r'.scores)|;
      assert r.scores == r'.scores;
      SameContested(r, r');
    }
  }

  lemma PolicyOf(p: CombineParams)
    requires Readable(p)
    ensures PolicyShape(p.panelSize, p.faultTolerance)
  {
  }

  lemma SameContested(r: CombineResult, r': CombineResult)
    requires Ascending(r.contested) && Ascending(r'.contested) && r.scores == r'.scores
    requires forall id :: id in r.contested ==> id in IdsOf(r.scores)
    requires forall id :: id in r'.contested ==> id in IdsOf(r.scores)
    requires forall i :: 0 <= i < |r.scores| ==> (IdsOf(r.scores)[i] in r.contested <==> IdsOf(r.scores)[i] in r'.contested)
    ensures r.contested == r'.contested
  {
    forall id
      ensures id in r.contested <==> id in r'.contested
    {
      if id in IdsOf(r.scores) {
        var i :| 0 <= i < |r.scores| && IdsOf(r.scores)[i] == id;
      }
    }
    assert Elements(r.contested) == Elements(r'.contested);
    AscendingUnique(r.contested, r'.contested);
  }

  // ---- values already legal ----

  // A legal score survives the last snap, for every legal score, exactly when the maximum
  // snaps to itself.
  lemma LegalIsFixedIff(max: real, inc: real)
    requires inc > 0.0 && max >= 0.0
    ensures (forall v :: Legal(v, max, inc) ==> SnapVal(v, max, inc) == v) <==> MaxSnapsToItself(max, inc)
  {
    hide SnapVal, MaxSnapsToItself, Multiple;
    SnapOfMax(max, inc);
    assert Legal(max, max, inc);
    forall v | Legal(v, max, inc) && v != max
      ensures SnapVal(v, max, inc) == v
    {
      var k :| v == Multiple(k, inc);
      MultipleIsFixed(k, max, inc);
    }
  }

  // Majority values are already legal when every vote is and the maximum snaps to itself: the
  // last snap then returns the value the majority voted for.
  lemma MajorityAlreadyLegal(p: CombineParams, r: CombineResult, id: int, v: real)
    requires Combined(p, r) && p.combiner == "majority" && OnceEach(p)
    requires Backers(p.inputs, id, RatStr(v)) >= p.Need()
    requires CriterionReadable(p, id) && IncrementReadable(p.increment)
    requires var max, inc := RatOf(p.criterionMax[id]).value, RatOf(p.increment).value;
             max >= 0.0 && OnGrid(v, MICRO) && Legal(v, max, inc) && MaxSnapsToItself(max, inc)
    ensures CriterionScore(id, RatStr(v)) in r.scores && id !in r.contested
  {
    var max, inc := RatOf(p.criterionMax[id]).value, RatOf(p.increment).value;
    hide RatOf, RatStr, Legal, MaxSnapsToItself, OnGrid, Combined, OnceEach, Backers, SnapVal;
    LegalIsFixedIff(max, inc);
    StoredExactly(v);
    assert SnapClamped(RatStr(v), p.criterionMax[id], p.increment).value.0 == RatStr(v);
    MajorityToleratesFaults(p, r, id, RatStr(v));
  }

  // ---- why each input may score a criterion only once ----

  // A panel of one whose only input scores its criterion 0 and then 1.
  function TwiceScored(): CombineParams {
    CombineParams("majority", 1, 0, RatStr(1.0), map[7 := RatStr(1.0)],
      [PanelInput(1, 1, "high", [CriterionScore(7, RatStr(0.0)), CriterionScore(7, RatStr(1.0))])])
  }

  function ScoredAs(v: real): CombineResult {
    CombineResult(false, false, [], [CriterionScore(7, RatStr(v))], RatStr(v))
  }

  lemma TwiceScoredInputs()
    ensures AllScores(TwiceScored().inputs) == [CriterionScore(7, RatStr(0.0)), CriterionScore(7, RatStr(1.0))]
    ensures Votes(AllScores(TwiceScored().inputs), 7) == [0.0, 1.0]
    ensures LowCount(TwiceScored().inputs) == 0
    ensures RatOf(RatStr(0.0)) == Some(0.0) && RatOf(RatStr(1.0)) == Some(1.0) && RatStr(0.0) != RatStr(1.0)
  {
    hide RatOf, RatStr;
    assert OnGrid(0.0, MICRO) && OnGrid(1.0, MICRO);
    StoredExactly(0.0);
    StoredExactly(1.0);
    var a, b := CriterionScore(7, RatStr(0.0)), CriterionScore(7, RatStr(1.0));
    var input := TwiceScored().inputs[0];
    hide FlatMap;
    FlatMapNothing(ScoresOf);
    FlatMapNothing(LowVote);
    FlatMapNothing(VoteFor(7));
    FlatMapSnoc([], input, ScoresOf);
    FlatMapSnoc([], input, LowVote);
    assert TwiceScored().inputs == [] + [input];
    assert AllScores(TwiceScored().inputs) == [a, b];
    FlatMapSnoc([], a, VoteFor(7));
    FlatMapSnoc([] + [a], b, VoteFor(7));
    assert [] + [a] + [b] == [a, b];
  }

  lemma ZeroOneCounts(s: string)
    requires RatStr(0.0) != RatStr(1.0)
    ensures Count([0.0, 1.0], s) == if s == RatStr(0.0) || s == RatStr(1.0) then 1 else 0
  {
    hide RatStr, FlatMap;
    FlatMapNothing(Backing(s));
    FlatMapSnoc([], 0.0, Backing(s));
    FlatMapSnoc([] + [0.0], 1.0, Backing(s));
    assert [] + [0.0] + [1.0] == [0.0, 1.0];
  }

  function ZeroOneBallot(): Ballot {
    Ballot([0.0, 1.0], RatStr(1.0), RatStr(1.0))
  }

  lemma ZeroOneDecided(v: real)
    requires v == 0.0 || v == 1.0
    requires RatStr(0.0) != RatStr(1.0) && RatOf(RatStr(v)) == Some(v) && RatOf(RatStr(1.0)) == Some(1.0)
    ensures Decided("majority", ZeroOneBallot(), 1, 0, RatStr(v), false)
  {
    hide RatOf, RatStr, Count, SnapVal, SnappedMean;
    forall s
      ensures Count([0.0, 1.0], s) == if s == RatStr(0.0) || s == RatStr(1.0) then 1 else 0
    {
      ZeroOneCounts(s);
    }
    WholeIsFixed(v);
    var b := ZeroOneBallot();
    assert Count(b.votes, RatStr(v)) >= 1;
    assert Plurality(b.votes, RatStr(v));
    assert RawDecision("majority", b, 1, 0, RatStr(v), false);
    assert SnapClamped(RatStr(v), b.max, b.inc).value.0 == RatStr(v);
  }

  // Both results may be returned: which one depends on how the counts map is walked.
  lemma TwiceScoredIsAmbiguous(v: real)
    requires v == 0.0 || v == 1.0
    ensures Combined(TwiceScored(), ScoredAs(v))
    ensures ScoredAs(0.0) != ScoredAs(1.0)
  {
    var p, r := TwiceScored(), ScoredAs(v);
    TwiceScoredInputs();
    hide RatOf, RatStr, AllScores, Votes, LowCount, Decided, ReadAll, SumReals;
    ZeroOneDecided(v);
    assert BallotFor(p, 7) == ZeroOneBallot();
    assert CriterionDecided(p, 7, RatStr(v), false);
    hide CriterionDecided;
    assert IdsOf(r.scores) == [7] && ScoreStrings(r.scores) == [RatStr(v)];
    ReadOne(v);
  }

  lemma WholeIsFixed(v: real)
    requires v == 0.0 || v == 1.0
    ensures SnapVal(v, 1.0, 1.0) == v
  {
    assert v / 1.0 == v && RoundHalfAway(v) as real == v;
  }

  lemma ReadOne(v: real)
    requires RatOf(RatStr(v)) == Some(v)
    ensures ReadAll([RatStr(v)]) == Some([v]) && SumReals([v]) == v
  {
    hide RatOf, RatStr;
    assert [RatStr(v)][..0] == [] && [v][..0] == [] && ReadAll([]) == Some([]);
    assert [] + [v] == [v];
  }
}
