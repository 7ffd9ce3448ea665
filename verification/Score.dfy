/** internal/grading/score.go: snapping a score to the rubric increment, clamping it to
    the criterion's range, and exact sums. */
module Score {
  import opened Wrappers
  import opened Numerals
  import opened Decimals
  import opened Seqs

  datatype ScoreError = BadScore | BadMax | BadIncrement

  function Multiple(k: int, inc: real): real {
    Times(k as real, inc)
  }

  // s in increments, rounded.
  function Steps(s: real, inc: real): int
    requires inc > 0.0
  {
    RoundHalfAway(s / inc)
  }

  function Snap(s: real, inc: real): real
    requires inc > 0.0
  {
    Multiple(Steps(s, inc), inc)
  }

  function Clamp(v: real, max: real): real {
    var low := if v < 0.0 then 0.0 else v;
    if low > max then max else low
  }

  function SnapVal(s: real, max: real, inc: real): real
    requires inc > 0.0
  {
    Clamp(Snap(s, inc), max)
  }

  // The decimal string stored for a score, and whether storing it changed the score.
  function SnapClamped(score: string, max: string, inc: string): Result<(string, bool), ScoreError> {
    match (RatOf(score), RatOf(max), RatOf(inc))
    case (None, _, _) => Err(BadScore)
    case (_, None, _) => Err(BadMax)
    case (_, _, None) => Err(BadIncrement)
    case (Some(s), Some(m), Some(i)) =>
      if i <= 0.0 then Err(BadIncrement)
      else Ok((RatStr(SnapVal(s, m, i)), SnapVal(s, m, i) != s))
  }

  method SnapClamp(score: string, max: string, inc: string) returns (r: Result<(string, bool), ScoreError>)
    ensures r == SnapClamped(score, max, inc)
  {
    hide RatOf, RatStr, RoundHalfAway;
    var s, m, i := RatOf(score), RatOf(max), RatOf(inc);
    if s == None { return Err(BadScore); }
    if m == None { return Err(BadMax); }
    if i == None || i.value <= 0.0 { return Err(BadIncrement); }
    var k := RoundHalfAway(s.value / i.value);
    var snapped := k as real * i.value;
    assert snapped == Snap(s.value, i.value);
    hide Snap;
    if snapped < 0.0 {
      snapped := 0.0;
    }
    if snapped > m.value {
      snapped := m.value;
    }
    r := Ok((RatStr(snapped), snapped != s.value));
  }

  // ---- snapping ----

  lemma MultipleSteps(k: int, inc: real)
    requires inc > 0.0
    ensures Steps(Multiple(k, inc), inc) == k && Snap(Multiple(k, inc), inc) == Multiple(k, inc)
  {
    assert Multiple(k, inc) / inc == k as real;
    RoundInteger(k);
  }

  lemma MultipleOrder(j: int, k: int, inc: real)
    requires inc > 0.0
    ensures j <= k <==> Multiple(j, inc) <= Multiple(k, inc)
  {
    TimesOrder(j as real, k as real, inc);
    hide Times;
  }

  lemma MultipleSign(k: int, inc: real)
    requires inc > 0.0
    ensures Multiple(0, inc) == 0.0
    ensures k >= 0 <==> Multiple(k, inc) >= 0.0
  {
    assert Times(0.0, inc) == 0.0;
    TimesOrder(0.0, k as real, inc);
    hide Times;
  }

  // Nearness measured in increments is nearness measured in points.
  lemma ScaledNearest(q: real, k: real, j: real, inc: real)
    requires inc > 0.0
    requires Abs(q - k) <= Abs(q - j)
    requires Abs(q - k) == Abs(q - j) ==> Abs(j) <= Abs(k)
    ensures Abs(Times(q, inc) - Times(k, inc)) <= Abs(Times(q, inc) - Times(j, inc))
    ensures Abs(Times(q, inc) - Times(k, inc)) == Abs(Times(q, inc) - Times(j, inc)) ==> Abs(Times(j, inc)) <= Abs(Times(k, inc))
  {
    hide Times;
    TimesDiff(q, k, inc);
    TimesDiff(q, j, inc);
    TimesAbs(q - k, inc);
    TimesAbs(q - j, inc);
    TimesAbs(j, inc);
    TimesAbs(k, inc);
    TimesOrder(Abs(q - k), Abs(q - j), inc);
    TimesOrder(Abs(j), Abs(k), inc);
    hide Abs;
  }

  // Before clamping, the score moves to a nearest multiple of the increment, and to the one
  // further from zero when two are equally near.
  lemma SnapIsNearest(s: real, inc: real, j: int)
    requires inc > 0.0
    ensures Abs(s - Snap(s, inc)) <= Abs(s - Multiple(j, inc))
    ensures Abs(s - Snap(s, inc)) == Abs(s - Multiple(j, inc)) ==> Abs(Multiple(j, inc)) <= Abs(Snap(s, inc))
  {
    hide RoundHalfAway, Abs, Times;
    RoundIsNearest(s / inc, j);
    ScaledNearest(s / inc, Steps(s, inc) as real, j as real, inc);
    TimesDivide(s, inc);
  }

  lemma StepsMonotone(s: real, t: real, inc: real)
    requires inc > 0.0 && s <= t
    ensures Steps(s, inc) <= Steps(t, inc)
  {
    TimesDivide(s, inc);
    TimesDivide(t, inc);
    TimesOrder(s / inc, t / inc, inc);
    hide Times;
    RoundMonotone(s / inc, t / inc);
  }

  lemma SnapMonotone(s: real, t: real, max: real, inc: real)
    requires inc > 0.0 && s <= t
    ensures Snap(s, inc) <= Snap(t, inc) && SnapVal(s, max, inc) <= SnapVal(t, max, inc)
  {
    hide Steps, Multiple;
    StepsMonotone(s, t, inc);
    MultipleOrder(Steps(s, inc), Steps(t, inc), inc);
  }

  // A legal score: inside the criterion's range, and a multiple of the increment or the maximum.
  ghost predicate Legal(v: real, max: real, inc: real) {
    0.0 <= v <= max && (v == max || exists k :: v == Multiple(k, inc))
  }

  lemma SnapLegal(s: real, max: real, inc: real)
    requires inc > 0.0 && max >= 0.0
    ensures Legal(SnapVal(s, max, inc), max, inc)
  {
    MultipleSign(0, inc);
    hide Steps, Multiple;
    assert Snap(s, inc) == Multiple(Steps(s, inc), inc);
  }

  // ---- idempotence ----

  function WholeSteps(max: real, inc: real): int
    requires inc > 0.0
  {
    (max / inc).Floor
  }

  // The maximum is a multiple of the increment, or sits in the upper half of its last step.
  predicate MaxSnapsToItself(max: real, inc: real)
    requires inc > 0.0
  {
    var part := max / inc - WholeSteps(max, inc) as real;
    part == 0.0 || part >= 0.5
  }

  lemma MultipleIsFixed(k: int, max: real, inc: real)
    requires inc > 0.0 && 0.0 <= Multiple(k, inc) <= max
    ensures SnapVal(Multiple(k, inc), max, inc) == Multiple(k, inc)
  {
    MultipleSteps(k, inc);
    hide Steps, Multiple, Snap;
  }

  lemma StepsOfMax(max: real, inc: real)
    requires inc > 0.0 && max >= 0.0
    ensures var w := WholeSteps(max, inc);
            w >= 0 && Multiple(w, inc) <= max < Multiple(w + 1, inc)
            && (max == Multiple(w, inc) <==> max / inc == w as real)
            && (Steps(max, inc) == if max / inc - w as real >= 0.5 then w + 1 else w)
  {
    var q := max / inc;
    TimesDivide(max, inc);
    assert Times(0.0, inc) == 0.0;
    TimesOrder(0.0, q, inc);
    TimesOrder(q.Floor as real, q, inc);
    TimesOrder((q.Floor + 1) as real, q, inc);
    hide Times;
    RoundFromFloor(q);
    hide RoundHalfAway;
  }

  lemma RoundFromFloor(q: real)
    requires q >= 0.0
    ensures q.Floor >= 0 && RoundHalfAway(q) == if q - q.Floor as real >= 0.5 then q.Floor + 1 else q.Floor
  {
  }

  lemma SnapOfMax(max: real, inc: real)
    requires inc > 0.0 && max >= 0.0
    ensures SnapVal(max, max, inc) == if MaxSnapsToItself(max, inc) then max else Multiple(WholeSteps(max, inc), inc)
    ensures !MaxSnapsToItself(max, inc) ==> 0.0 <= Multiple(WholeSteps(max, inc), inc) < max
  {
    StepsOfMax(max, inc);
    MultipleSign(WholeSteps(max, inc), inc);
    hide Steps, Multiple, WholeSteps;
  }

  // Snapping twice is snapping once exactly when the first snap stayed below the maximum, or
  // the maximum snaps to itself.
  lemma SnapTwiceAt(s: real, max: real, inc: real)
    requires inc > 0.0 && max >= 0.0
    ensures SnapVal(SnapVal(s, max, inc), max, inc) == SnapVal(s, max, inc)
       <==> Snap(s, inc) <= max || MaxSnapsToItself(max, inc)
  {
    var k := Steps(s, inc);
    assert Snap(s, inc) == Multiple(k, inc);
    MultipleSign(0, inc);
    hide Steps, Multiple, Snap, MaxSnapsToItself;
    if Snap(s, inc) > max {
      SnapOfMax(max, inc);
    } else if Snap(s, inc) < 0.0 {
      MultipleIsFixed(0, max, inc);
    } else {
      MultipleIsFixed(k, max, inc);
    }
  }

  // Snapping is idempotent for a criterion exactly when its maximum snaps to itself.
  lemma SnapIdempotentIff(max: real, inc: real)
    requires inc > 0.0 && max >= 0.0
    ensures (forall s: real :: SnapVal(SnapVal(s, max, inc), max, inc) == SnapVal(s, max, inc))
       <==> MaxSnapsToItself(max, inc)
  {
    hide SnapVal, Steps, Multiple, Snap, MaxSnapsToItself;
    forall s: real
      ensures SnapVal(SnapVal(s, max, inc), max, inc) == SnapVal(s, max, inc)
         <==> Snap(s, inc) <= max || MaxSnapsToItself(max, inc)
    {
      SnapTwiceAt(s, max, inc);
    }
    var k := WholeSteps(max, inc) + 1;
    StepsOfMax(max, inc);
    MultipleSteps(k, inc);
    assert Snap(Multiple(k, inc), inc) > max;
  }

  // Two applications always settle.
  lemma SnapSettles(s: real, max: real, inc: real)
    requires inc > 0.0 && max >= 0.0
    ensures var twice := SnapVal(SnapVal(s, max, inc), max, inc);
            SnapVal(twice, max, inc) == twice
  {
    var once := SnapVal(s, max, inc);
    SnapTwiceAt(s, max, inc);
    assert Snap(s, inc) > max ==> once == max;
    hide SnapVal, Steps, Multiple, Snap, MaxSnapsToItself;
    if SnapVal(once, max, inc) != once {
      SnapOfMax(max, inc);
      MultipleIsFixed(WholeSteps(max, inc), max, inc);
    }
  }

  // A criterion worth 1.2 points graded in halves: 2 is stored as 1.2, and 1.2 snaps to 1.
  lemma LegalMaximumMoves()
    ensures SnapVal(2.0, 1.2, 0.5) == 1.2 && SnapVal(1.2, 1.2, 0.5) == 1.0
  {
    assert 2.0 / 0.5 == 4.0 && 1.2 / 0.5 == 2.4;
    assert RoundHalfAway(4.0) == 4 && RoundHalfAway(2.4) == 2;
  }

  // ---- the stored strings ----

  lemma GridMultiple(k: int, inc: real, d: nat)
    requires OnGrid(inc, d)
    ensures OnGrid(Multiple(k, inc), d)
  {
    var n := (inc * d as real).Floor;
    assert inc * d as real == Times(inc, d as real) && Multiple(k, inc) * d as real == Times(Multiple(k, inc), d as real);
    TimesAssoc(k as real, inc, d as real);
    TimesInt(k, n);
    hide Times;
  }

  lemma SnapVal_OnGrid(s: real, max: real, inc: real, d: nat)
    requires inc > 0.0 && OnGrid(max, d) && OnGrid(inc, d)
    ensures OnGrid(SnapVal(s, max, inc), d)
  {
    GridMultiple(Steps(s, inc), inc, d);
    assert OnGrid(0.0, d);
    hide OnGrid, Steps, Multiple;
  }

  // With at most six decimals in the maximum and the increment, the stored string denotes the
  // snapped score exactly, and an unchanged score is reported as unchanged.
  lemma SnapClampedExact(score: string, max: string, inc: string)
    requires RatOf(score).Some? && RatOf(max).Some? && RatOf(inc).Some? && RatOf(inc).value > 0.0
    requires OnGrid(RatOf(max).value, MICRO) && OnGrid(RatOf(inc).value, MICRO)
    ensures SnapClamped(score, max, inc).Ok?
    ensures var out := SnapClamped(score, max, inc).value;
            RatOf(out.0) == Some(SnapVal(RatOf(score).value, RatOf(max).value, RatOf(inc).value))
            && (out.1 <==> RatOf(out.0) != RatOf(score))
  {
    var s, m, i := RatOf(score).value, RatOf(max).value, RatOf(inc).value;
    hide RatOf, RatStr, SnapVal, OnGrid;
    SnapVal_OnGrid(s, m, i, MICRO);
    StoredExactly(SnapVal(s, m, i));
  }

  lemma StoredExactly(v: real)
    requires OnGrid(v, MICRO)
    ensures RatOf(RatStr(v)) == Some(v)
  {
    hide RatOf, RatStr;
    PrintedReadsBack(v);
    RenderedExact(v);
  }

  // What a snapped score reads as, whatever its limits: the snapped value, printed.
  lemma SnapReads(score: string, max: string, inc: string, s: real)
    requires RatOf(score) == Some(s) && RatOf(max).Some? && RatOf(inc).Some? && RatOf(inc).value > 0.0
    ensures SnapClamped(score, max, inc).Ok?
    ensures RatOf(SnapClamped(score, max, inc).value.0) == Some(Rendered(SnapVal(s, RatOf(max).value, RatOf(inc).value)))
  {
    hide RatOf, RatStr, SnapVal, Rendered;
    PrintedReadsBack(SnapVal(s, RatOf(max).value, RatOf(inc).value));
  }

  // ---- sums ----

  function SumReals(xs: seq<real>): real {
    if xs == [] then 0.0 else SumReals(xs[..|xs| - 1]) + xs[|xs| - 1]
  }

  function ReadAll(scores: seq<string>): Option<seq<real>> {
    if scores == [] then Some([])
    else match (ReadAll(scores[..|scores| - 1]), RatOf(scores[|scores| - 1]))
      case (Some(xs), Some(x)) => Some(xs + [x])
      case _ => None
  }

  lemma {:induction false} SumWithout(xs: seq<real>, k: nat)
    requires k < |xs|
    ensures SumReals(xs) == SumReals(Without(xs, k)) + xs[k]
    decreases |xs|
  {
    WithoutShape(xs, k);
    if k < |xs| - 1 {
      SumWithout(xs[..|xs| - 1], k);
    }
    hide Without;
  }

  lemma WithoutShape(xs: seq<real>, k: nat)
    requires k < |xs|
    ensures |Without(xs, k)| == |xs| - 1
    ensures if k == |xs| - 1 then Without(xs, k) == xs[..k]
            else Without(xs, k)[..|xs| - 2] == Without(xs[..|xs| - 1], k) && Without(xs, k)[|xs| - 2] == xs[|xs| - 1]
  {
  }

  lemma {:induction false} SumPermuted(xs: seq<real>, ys: seq<real>)
    requires multiset(xs) == multiset(ys)
    ensures SumReals(xs) == SumReals(ys) && |xs| == |ys|
    decreases |xs|
  {
    assert |multiset(xs)| == |xs| && |multiset(ys)| == |ys|;
    if xs != [] {
      var last := |xs| - 1;
      assert xs[last] in xs;
      var k := PlaceOf(ys, xs[last]);
      WithoutBag(xs, last);
      WithoutBag(ys, k);
      SumPermuted(Without(xs, last), Without(ys, k));
      SumWithout(xs, last);
      SumWithout(ys, k);
    }
  }

  method SumDecimals(scores: seq<string>) returns (r: Option<string>)
    ensures r == match ReadAll(scores) case None => None case Some(xs) => Some(RatStr(SumReals(xs)))
  {
    hide RatOf, RatStr;
    var sum := 0.0;
    ghost var read: seq<real> := [];
    for i := 0 to |scores|
      invariant ReadAll(scores[..i]) == Some(read) && sum == SumReals(read)
    {
      var x := RatOf(scores[i]);
      assert scores[..i + 1][..i] == scores[..i];
      if x == None {
        UnreadablePrefix(scores, i + 1);
        return None;
      }
      assert (read + [x.value])[..|read|] == read;
      read := read + [x.value];
      sum := sum + x.value;
    }
    assert scores[..|scores|] == scores;
    r := Some(RatStr(sum));
  }

  lemma {:induction false} UnreadablePrefix(scores: seq<string>, k: nat)
    requires k <= |scores| && ReadAll(scores[..k]) == None
    ensures ReadAll(scores) == None
    decreases |scores| - k
  {
    hide RatOf;
    if k == |scores| {
      assert scores[..k] == scores;
    } else {
      assert scores[..k + 1][..k] == scores[..k];
      UnreadablePrefix(scores, k + 1);
    }
  }

  lemma {:induction false} SumOnGrid(xs: seq<real>, d: nat)
    requires forall x :: x in xs ==> OnGrid(x, d)
    ensures OnGrid(SumReals(xs), d)
  {
    if xs == [] {
      assert 0.0 * d as real == 0.0;
    } else {
      var rest, last := xs[..|xs| - 1], xs[|xs| - 1];
      SumOnGrid(rest, d);
      assert OnGrid(last, d);
      GridSum(SumReals(rest), last, d);
    }
  }

  lemma GridSum(a: real, b: real, d: nat)
    requires OnGrid(a, d) && OnGrid(b, d)
    ensures OnGrid(a + b, d)
  {
    assert (a + b) * d as real == ((a * d as real).Floor + (b * d as real).Floor) as real;
  }
}
