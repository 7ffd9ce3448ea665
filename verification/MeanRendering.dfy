/** The mean of a panel is printed to six decimals before it is snapped
    (internal/grading/aggregate.go:116-124). This module proves for which panel sizes the
    printing cannot change the grade. */
module MeanRendering {
  import opened Decimals
  import opened Score

  function MeanOf(xs: seq<real>): real
    requires xs != []
  {
    SumReals(xs) / |xs| as real
  }

  // Printing the mean first gives the same stored score as snapping the exact mean.
  predicate RenderingAgrees(xs: seq<real>, max: real, inc: real)
    requires xs != [] && inc > 0.0
  {
    SnapVal(Rendered(MeanOf(xs)), max, inc) == SnapVal(MeanOf(xs), max, inc)
  }

  ghost predicate CentVotes(xs: seq<real>, max: real, inc: real) {
    (forall x :: x in xs ==> OnGrid(x, CENT)) && OnGrid(max, CENT) && OnGrid(inc, CENT) && inc > 0.0
  }

  predicate SafePanel(n: nat) {
    n < 10000 || (n % 2 == 0 && n < 20000)
  }

  // ---- the arithmetic in whole cents ----

  lemma RoundNegated(x: real)
    ensures RoundHalfAway(-x) == -RoundHalfAway(x)
  {
  }

  // A non-negative quotient rounded: floor(a/b + 1/2).
  lemma RoundQuotient(a: nat, b: nat)
    requires b > 0
    ensures RoundHalfAway(a as real / b as real) == (2 * a + b) / (2 * b)
  {
    QuotientParts(a, b);
    RoundFromFloor(a as real / b as real);
    HalfUp(a, b);
    hide RoundHalfAway;
  }

  lemma HalfUp(a: nat, b: nat)
    requires b > 0
    ensures (2 * a + b) / (2 * b) == if 2 * (a % b) >= b then a / b + 1 else a / b
  {
    var q, r := a / b, a % b;
    assert a == b * q + r;
    assert 2 * b * (q + 1) == 2 * b * q + 2 * b;
    assert 2 * a == 2 * b * q + 2 * r;
    FloorUnique(2 * a + b, 2 * b, if 2 * r >= b then q + 1 else q);
  }

  lemma MultipleAtLeast(d: nat, t: int)
    ensures t >= 1 ==> d * t >= d
    ensures t <= -1 ==> d * t + d <= 0
    ensures t == 0 ==> d * t == 0
  {
  }

  // Two quotients with remainders below the divisor agree.
  lemma FloorUnique(x: int, d: nat, k: int)
    requires d > 0 && d * k <= x < d * k + d
    ensures x / d == k
  {
    var q := x / d;
    assert d * q <= x < d * q + d;
    assert d * (k - q) == d * k - d * q;
    MultipleAtLeast(d, k - q);
  }

  lemma FloorBounds(x: int, d: nat)
    requires d > 0
    ensures d * (x / d) <= x < d * (x / d) + d
  {
  }

  // Half a step below or above k, measured after printing, falls on the same side as before.
  lemma SameStep(s: nat, n: nat, c: nat)
    requires n > 0 && c > 0 && SafePanel(n)
    ensures var m := (20000 * s + n) / (2 * n);
            (2 * m + 10000 * c) / (20000 * c) == (2 * s + n * c) / (2 * (n * c))
  {
    var p := n * c;
    var k := (2 * s + p) / (2 * p);
    var m := (20000 * s + n) / (2 * n);
    FloorBounds(2 * s + p, 2 * p);
    FloorBounds(20000 * s + n, 2 * n);
    StepBounds(s, p, k);
    BoundaryInCents(n, c, k);
    SlackIsEnough(s, n, c, k);
    BetweenBoundaries(m, n, 5000 * c * (2 * k - 1), 5000 * c * (2 * k + 1), 20000 * s + n);
    StepFromBoundaries(m, c, k);
    FloorUnique(2 * m + 10000 * c, 20000 * c, k);
  }

  // The distance to the upper boundary beats the half millionth that printing can add.
  lemma SlackIsEnough(s: nat, n: nat, c: nat, k: int)
    requires n > 0 && SafePanel(n) && 2 * s < n * c * (2 * k + 1)
    ensures n < 10000 * (n * c * (2 * k + 1) - 2 * s)
  {
    if n % 2 == 0 {
      EvenProduct(n, c, 2 * k + 1);
    }
  }

  lemma StepBounds(s: int, p: nat, k: int)
    requires p > 0 && 2 * p * k <= 2 * s + p < 2 * p * k + 2 * p
    ensures p * (2 * k - 1) <= 2 * s < p * (2 * k + 1)
  {
  }

  lemma BoundaryInCents(n: nat, c: nat, k: int)
    ensures 2 * n * (5000 * c * (2 * k - 1)) == 10000 * (n * c * (2 * k - 1))
    ensures 2 * n * (5000 * c * (2 * k + 1)) == 10000 * (n * c * (2 * k + 1))
  {
  }

  lemma EvenProduct(n: nat, c: nat, j: int)
    requires n % 2 == 0
    ensures (n * c * j) % 2 == 0
  {
    var h := n / 2;
    assert n * c * j == 2 * (h * c * j);
  }

  lemma BetweenBoundaries(m: int, n: nat, b: int, b': int, x: int)
    requires n > 0 && 2 * n * m <= x < 2 * n * m + 2 * n
    requires 2 * n * b <= x - n && x < 2 * n * b'
    ensures b <= m < b'
  {
    var d := 2 * n;
    assert d * (m - b) == d * m - d * b;
    assert d * (b' - m) == d * b' - d * m;
    MultipleAtLeast(d, m - b);
    MultipleAtLeast(d, b' - m);
  }

  lemma StepFromBoundaries(m: int, c: nat, k: int)
    requires c > 0 && 5000 * c * (2 * k - 1) <= m < 5000 * c * (2 * k + 1)
    ensures 20000 * c * k <= 2 * m + 10000 * c < 20000 * c * k + 20000 * c
  {
  }

  // ---- from points to cents ----

  function Cents(k: int): real {
    k as real / 100.0
  }

  function CentMean(s: int, n: nat): real
    requires n > 0
  {
    s as real / (100 * n) as real
  }

  lemma QuotientIs(a: real, b: real, q: real)
    requires b > 0.0 && Times(q, b) == a
    ensures a / b == q
  {
    TimesDivide(a, b);
    TimesOrder(a / b, q, b);
  }

  lemma StepsInCents(s: int, n: nat, c: nat)
    requires n > 0 && c > 0
    ensures CentMean(s, n) / Cents(c) == s as real / (n * c) as real
  {
    var q := s as real / (n * c) as real;
    TimesDivide(s as real, (n * c) as real);
    TimesInt(n, c);
    assert Times(q, Cents(c)) == CentMean(s, n) by {
      var w := Times(q, Cents(c));
      assert Times(w, (100 * n) as real) == s as real by {
        TimesAssoc(q, Cents(c), (100 * n) as real);
        assert Times(Cents(c), (100 * n) as real) == Times(n as real, c as real);
      }
      QuotientIs(s as real, (100 * n) as real, w);
    }
    QuotientIs(CentMean(s, n), Cents(c), q);
  }

  lemma MicrosInCents(s: int, n: nat)
    requires n > 0
    ensures CentMean(s, n) * 1000000.0 == (10000 * s) as real / n as real
  {
    var q := s as real / (100 * n) as real;
    TimesDivide(s as real, (100 * n) as real);
    assert Times(q * 1000000.0, n as real) == 10000.0 * Times(q, (100 * n) as real);
    hide Times;
    QuotientIs((10000 * s) as real, n as real, q * 1000000.0);
  }

  lemma PrintedStepsInCents(m: int, c: nat)
    requires c > 0
    ensures m as real / 1000000.0 / Cents(c) == m as real / (10000 * c) as real
  {
    var q := m as real / (10000 * c) as real;
    TimesDivide(m as real, (10000 * c) as real);
    assert Times(q, Cents(c)) * 1000000.0 == Times(q, (10000 * c) as real);
    QuotientIs(m as real / 1000000.0, Cents(c), q);
  }

  lemma StepsFromCents(s: nat, n: nat, c: nat)
    requires n > 0 && c > 0
    ensures Cents(c) > 0.0
    ensures Steps(CentMean(s, n), Cents(c)) == (2 * s + n * c) / (2 * (n * c))
    ensures Micros(CentMean(s, n)) == (20000 * s + n) / (2 * n) >= 0
  {
    MultipleAtLeast(n, c);
    StepsInCents(s, n, c);
    RoundQuotient(s, n * c);
    MicrosInCents(s, n);
    RoundQuotient(10000 * s, n);
    hide CentMean, RoundHalfAway;
  }

  lemma PrintedStepsFromCents(m: nat, c: nat)
    requires c > 0
    ensures Cents(c) > 0.0 && Steps(m as real / 1000000.0, Cents(c)) == (2 * m + 10000 * c) / (20000 * c)
  {
    PrintedStepsInCents(m, c);
    RoundQuotient(m, 10000 * c);
    hide RoundHalfAway;
    assert 2 * (10000 * c) == 20000 * c;
  }

  lemma StepsOdd(x: real, inc: real)
    requires inc > 0.0
    ensures Steps(-x, inc) == -Steps(x, inc)
  {
    RoundNegated(x / inc);
    TimesDivide(x, inc);
    assert Times(-(x / inc), inc) == -Times(x / inc, inc);
    QuotientIs(-x, inc, -(x / inc));
    hide RoundHalfAway;
  }

  lemma RenderedOdd(x: real)
    ensures Rendered(-x) == -Rendered(x)
  {
    RoundNegated(x * 1000000.0);
    assert -x * 1000000.0 == -(x * 1000000.0);
    hide RoundHalfAway;
  }

  lemma StepsAgree(s: int, n: nat, c: nat)
    requires n > 0 && c > 0 && SafePanel(n)
    ensures Cents(c) > 0.0
    ensures Steps(Rendered(CentMean(s, n)), Cents(c)) == Steps(CentMean(s, n), Cents(c))
  {
    var t: nat := if s < 0 then -s else s;
    StepsFromCents(t, n, c);
    PrintedStepsFromCents(Micros(CentMean(t, n)), c);
    SameStep(t, n, c);
    if s < 0 {
      assert CentMean(s, n) == -CentMean(t, n) by { NegatedQuotient(s, 100 * n); }
      RenderedOdd(CentMean(t, n));
      StepsOdd(CentMean(t, n), Cents(c));
      StepsOdd(Rendered(CentMean(t, n)), Cents(c));
    }
    hide Steps, CentMean, Cents, Micros;
  }

  // ---- the panel sizes ----

  lemma GridIsCents(x: real)
    requires OnGrid(x, CENT)
    ensures x == Cents((x * 100.0).Floor)
  {
  }

  lemma MeanIsCentMean(xs: seq<real>)
    requires xs != [] && forall x :: x in xs ==> OnGrid(x, CENT)
    ensures MeanOf(xs) == CentMean((SumReals(xs) * 100.0).Floor, |xs|)
  {
    SumOnGrid(xs, CENT);
    GridIsCents(SumReals(xs));
    hide OnGrid, SumReals;
    var s, n := (SumReals(xs) * 100.0).Floor, |xs|;
    var q := CentMean(s, n);
    TimesDivide(s as real, (100 * n) as real);
    assert 100.0 * Times(q, n as real) == Times(q, (100 * n) as real);
    hide Times;
    QuotientIs(SumReals(xs), n as real, q);
  }

  // Up to 9 999 votes, and for even panels up to 19 998, printing the mean is harmless.
  lemma RenderingIsSafe(xs: seq<real>, max: real, inc: real)
    requires xs != [] && CentVotes(xs, max, inc) && SafePanel(|xs|)
    ensures RenderingAgrees(xs, max, inc)
  {
    MeanIsCentMean(xs);
    GridIsCents(inc);
    var c := (inc * 100.0).Floor;
    assert c > 0;
    hide OnGrid, MeanOf, CentMean, Steps, Multiple, Rendered;
    StepsAgree((SumReals(xs) * 100.0).Floor, |xs|, c);
  }

  // s votes of one cent and the rest zero.
  function OneCentPanel(s: nat, n: nat): (xs: seq<real>)
    requires s <= n
    ensures |xs| == n && forall x :: x in xs ==> x == 0.0 || x == 0.01
  {
    if n == 0 then [] else if s == n then OneCentPanel(s - 1, n - 1) + [0.01] else OneCentPanel(s, n - 1) + [0.0]
  }

  lemma {:induction false} OneCentSum(s: nat, n: nat)
    requires s <= n
    ensures SumReals(OneCentPanel(s, n)) == Cents(s)
  {
    if n > 0 {
      var xs := OneCentPanel(s, n);
      assert xs[..n - 1] == OneCentPanel(if s == n then s - 1 else s, n - 1);
      OneCentSum(if s == n then s - 1 else s, n - 1);
    }
  }

  // The panel just below half a cent: its mean prints as exactly half a cent.
  function BelowHalf(n: nat): nat {
    if n % 2 == 0 then if n == 0 then 0 else n / 2 - 1 else n / 2
  }

  lemma BelowHalfSteps(n: nat)
    requires n > 0 && !SafePanel(n)
    ensures var s := BelowHalf(n);
            (2 * s + n) / (2 * n) == 0 && (20000 * s + n) / (2 * n) == 5000
  {
    var s := BelowHalf(n);
    FloorUnique(2 * s + n, 2 * n, 0);
    FloorUnique(20000 * s + n, 2 * n, 5000);
  }

  lemma RenderingBreaks(n: nat)
    requires n > 0 && !SafePanel(n)
    ensures var xs := OneCentPanel(BelowHalf(n), n);
            CentVotes(xs, 1.0, 0.01) && !RenderingAgrees(xs, 1.0, 0.01)
  {
    var s := BelowHalf(n);
    var xs := OneCentPanel(s, n);
    assert OnGrid(0.0, CENT) && OnGrid(0.01, CENT) && OnGrid(1.0, CENT);
    OneCentSum(s, n);
    MeanIsCentMean(xs);
    assert (Cents(s) * 100.0).Floor == s;
    BelowHalfSteps(n);
    StepsFromCents(s, n, 1);
    PrintedStepsFromCents(5000, 1);
    FloorUnique(2 * 5000 + 10000, 20000, 1);
    assert Cents(1) == 0.01;
    hide OnGrid, MeanOf, CentMean, Steps, OneCentPanel;
    assert Multiple(0, 0.01) == 0.0 && Multiple(1, 0.01) == 0.01;
  }

  // Printing the mean is harmless for every panel of n votes exactly when n is below 10 000,
  // or even and below 20 000.
  lemma RenderingSafeIff(n: nat)
    requires n > 0
    ensures (forall xs: seq<real>, max: real, inc: real ::
               |xs| == n && CentVotes(xs, max, inc) ==> RenderingAgrees(xs, max, inc))
       <==> SafePanel(n)
  {
    hide RenderingAgrees, CentVotes;
    if SafePanel(n) {
      forall xs: seq<real>, max: real, inc: real | |xs| == n && CentVotes(xs, max, inc)
        ensures inc > 0.0 && RenderingAgrees(xs, max, inc)
      {
        assert inc > 0.0 by { CentVotesPositive(xs, max, inc); }
        RenderingIsSafe(xs, max, inc);
      }
    } else {
      RenderingBreaks(n);
    }
  }

  lemma CentVotesPositive(xs: seq<real>, max: real, inc: real)
    requires CentVotes(xs, max, inc)
    ensures inc > 0.0
  {
  }
}
