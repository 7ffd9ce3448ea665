/** Exact decimals: rounding half away from zero, the six-decimal printer of
    internal/grading/score.go and the reader that every score string goes through.
    big.Rat is exact, so a rational is modelled by the real number it denotes. */
module Decimals {
  import opened Wrappers
  import opened Numerals

  // ---- rounding ----

  function RoundHalfAway(x: real): int {
    if x >= 0.0 then (x + 0.5).Floor else -(-x + 0.5).Floor
  }

  function Abs(x: real): real {
    if x < 0.0 then -x else x
  }

  // The rounded value is a nearest integer, and the larger in magnitude of two nearest ones.
  lemma RoundIsNearest(x: real, j: int)
    ensures Abs(x - RoundHalfAway(x) as real) <= 0.5
    ensures Abs(x - RoundHalfAway(x) as real) <= Abs(x - j as real)
    ensures Abs(x - RoundHalfAway(x) as real) == Abs(x - j as real) ==> Abs(j as real) <= Abs(RoundHalfAway(x) as real)
  {
    if RoundHalfAway(x) < j {
      assert j as real >= RoundHalfAway(x) as real + 1.0;
    } else if j < RoundHalfAway(x) {
      assert j as real <= RoundHalfAway(x) as real - 1.0;
    }
  }

  lemma RoundInteger(k: int)
    ensures RoundHalfAway(k as real) == k
  {
  }

  lemma RoundMonotone(x: real, y: real)
    requires x <= y
    ensures RoundHalfAway(x) <= RoundHalfAway(y)
  {
  }

  lemma CancelPositive(a: real, b: real, c: real)
    requires c > 0.0
    ensures a * c >= b * c <==> a >= b
  {
    assert (a - b) * c == a * c - b * c;
  }

  // Products of reals, named so that proofs can treat them as one term.
  function Times(a: real, b: real): real {
    a * b
  }

  lemma TimesDiff(a: real, b: real, c: real)
    ensures Times(a - b, c) == Times(a, c) - Times(b, c)
  {
  }

  lemma TimesOrder(a: real, b: real, c: real)
    requires c > 0.0
    ensures a <= b <==> Times(a, c) <= Times(b, c)
    ensures a == b <==> Times(a, c) == Times(b, c)
  {
    CancelPositive(b, a, c);
    CancelPositive(a, b, c);
  }

  lemma TimesAbs(x: real, c: real)
    requires c > 0.0
    ensures Abs(Times(x, c)) == Times(Abs(x), c)
  {
    TimesOrder(x, 0.0, c);
    assert Times(0.0, c) == 0.0;
    assert Times(-x, c) == -Times(x, c);
  }

  lemma TimesDivide(s: real, c: real)
    requires c > 0.0
    ensures Times(s / c, c) == s
  {
  }

  lemma TimesInt(a: int, b: int)
    ensures (a * b) as real == Times(a as real, b as real)
  {
  }

  lemma TimesAssoc(a: real, b: real, c: real)
    ensures Times(Times(a, b), c) == Times(a, Times(b, c))
  {
  }

  // A quotient split into its whole part and the rest, with the half marked.
  lemma QuotientParts(mag: nat, den: nat)
    requires den > 0
    ensures var rest := (mag % den) as real / den as real;
            mag as real / den as real == (mag / den) as real + rest && 0.0 <= rest < 1.0
            && (2 * (mag % den) >= den <==> rest >= 0.5)
  {
    var quo, rem := mag / den, mag % den;
    var rest := rem as real / den as real;
    assert rest * den as real == rem as real;
    assert mag as real == quo as real * den as real + rem as real by { assert mag == quo * den + rem; }
    assert mag as real == (quo as real + rest) * den as real;
    CancelPositive(rest, 0.5, den as real);
    CancelPositive(rest, 0.0, den as real);
    CancelPositive(rest, 1.0, den as real);
  }

  lemma NegatedQuotient(num: int, den: nat)
    requires den > 0
    ensures num < 0 ==> num as real / den as real < 0.0 && (-num) as real / den as real == -(num as real / den as real)
    ensures num >= 0 ==> num as real / den as real >= 0.0
  {
    var q := num as real / den as real;
    assert q * den as real == num as real;
    CancelPositive(q, 0.0, den as real);
    assert -q * den as real == (-num) as real;
  }

  // roundRat: the quotient and remainder of the magnitude, then the sign.
  method RoundRat(num: int, den: nat) returns (k: int)
    requires den > 0
    ensures k == RoundHalfAway(num as real / den as real)
  {
    var mag: nat := if num < 0 then -num else num;
    QuotientParts(mag, den);
    var quo, rem := mag / den, mag % den;
    if 2 * rem >= den {
      quo := quo + 1;
    }
    k := if num < 0 then -quo else quo;
    NegatedQuotient(num, den);
  }

  // x is a whole number of 1/d parts.
  predicate OnGrid(x: real, d: nat) {
    (x * d as real).Floor as real == x * d as real
  }

  const MICRO: nat := 1000000
  const CENT: nat := 100

  // x in millionths, rounded half away from zero: what FloatString(6) prints.
  function Micros(x: real): int {
    RoundHalfAway(x * 1000000.0)
  }

  // The value the printed form of x denotes.
  function Rendered(x: real): real {
    Micros(x) as real / 1000000.0
  }

  lemma RenderedExact(x: real)
    ensures Rendered(x) == x <==> OnGrid(x, MICRO)
  {
    if OnGrid(x, MICRO) {
      RoundInteger((x * 1000000.0).Floor);
    }
  }

  // ---- printing ----

  function Pow10(n: nat): nat
    ensures Pow10(n) > 0
  {
    if n == 0 then 1 else 10 * Pow10(n - 1)
  }

  function Padded(n: nat, width: nat): (s: string)
    ensures AllDigits(s) && |s| == width
  {
    if width == 0 then "" else Padded(n / 10, width - 1) + [DigitChar(n % 10)]
  }

  function Sign(x: real): string {
    if x < 0.0 then "-" else ""
  }

  function Magnitude(k: int): nat {
    if k < 0 then -k else k
  }

  // big.Rat.FloatString(6).
  function FloatString6(x: real): string {
    var m := Magnitude(Micros(x));
    Sign(x) + Digits(m / MICRO) + "." + Padded(m % MICRO, 6)
  }

  function TrimRightZeros(s: string): (t: string)
    ensures |t| <= |s| && t == s[..|t|]
  {
    if s != "" && s[|s| - 1] == '0' then TrimRightZeros(s[..|s| - 1]) else s
  }

  function TrimSuffixDot(s: string): string {
    if s != "" && s[|s| - 1] == '.' then s[..|s| - 1] else s
  }

  function RatStr(x: real): string {
    var s := TrimSuffixDot(TrimRightZeros(FloatString6(x)));
    if s == "" || s == "-" then "0" else s
  }

  // ---- reading ----

  predicate IsSpace(c: char) {
    c == ' ' || c == '\t' || c == '\n' || c == '\r'
  }

  function TrimSpace(s: string): string {
    if s != "" && IsSpace(s[0]) then TrimSpace(s[1..])
    else if s != "" && IsSpace(s[|s| - 1]) then TrimSpace(s[..|s| - 1])
    else s
  }

  function IndexOf(s: string, c: char): (k: nat)
    ensures k <= |s| && (k < |s| ==> s[k] == c) && forall i :: 0 <= i < k ==> s[i] != c
  {
    if s == "" || s[0] == c then 0 else 1 + IndexOf(s[1..], c)
  }

  // Digits with at most one point among them.
  function ParseFixed(s: string): Option<real> {
    var k := IndexOf(s, '.');
    var whole := s[..k];
    ParseParts(whole, if k < |s| then s[k + 1..] else "")
  }

  function ParseParts(whole: string, frac: string): Option<real> {
    if AllDigits(whole) && AllDigits(frac) && whole + frac != ""
    then Some(DigitsVal(whole + frac) as real / Pow10(|frac|) as real)
    else None
  }

  // A fixed-point numeral with an optional decimal exponent.
  function ParseFloat(s: string): Option<real> {
    var k := if IndexOf(s, 'e') < |s| then IndexOf(s, 'e') else IndexOf(s, 'E');
    match ParseFixed(s[..k])
    case None => None
    case Some(m) =>
      if k == |s| then Some(m)
      else match ParseInt64(s[k + 1..])
        case None => None
        case Some(e) => Some(if e >= 0 then m * Pow10(e) as real else m / Pow10(-e) as real)
  }

  function ParseSigned(t: string): Option<real>
    requires t != ""
  {
    if t[0] == '-' then
      match ParseFloat(t[1..])
      case None => None
      case Some(v) => Some(-v)
    else ParseFloat(if t[0] == '+' then t[1..] else t)
  }

  // ratOf, on decimal numerals.
  function RatOf(s: string): Option<real> {
    var t := TrimSpace(s);
    if t == "" then None else ParseSigned(t)
  }

  // ---- the printed form read back ----

  lemma DigitsValSnoc(s: string, c: char)
    requires AllDigits(s) && IsDigit(c)
    ensures DigitsVal(s + [c]) == 10 * DigitsVal(s) + DigitOf(c)
  {
    assert (s + [c])[..|s|] == s;
  }

  lemma {:induction false} DigitsValConcat(a: string, b: string)
    requires AllDigits(a) && AllDigits(b)
    ensures DigitsVal(a + b) == DigitsVal(a) * Pow10(|b|) + DigitsVal(b)
  {
    if b == "" {
      assert a + b == a;
    } else {
      var b', c := b[..|b| - 1], b[|b| - 1];
      DigitsValConcat(a, b');
      hide DigitsVal, Pow10;
      assert a + b == (a + b') + [c] && b == b' + [c];
      DigitsValSnoc(a + b', c);
      DigitsValSnoc(b', c);
      TenTimes(DigitsVal(a), |b'|);
    }
  }

  lemma {:induction false} PaddedVal(n: nat, width: nat)
    requires n < Pow10(width)
    ensures DigitsVal(Padded(n, width)) == n
  {
    hide DigitsVal, Pow10, Padded;
    if width == 0 {
      PaddedNothing(n);
    } else {
      TenthBelow(n, width);
      PaddedVal(n / 10, width - 1);
      DigitRoundTrip(n % 10);
      DigitsValSnoc(Padded(n / 10, width - 1), DigitChar(n % 10));
      PaddedSnoc(n, width);
    }
  }

  lemma PaddedNothing(n: nat)
    requires n < Pow10(0)
    ensures n == 0 && DigitsVal(Padded(n, 0)) == 0
  {
  }

  lemma PaddedSnoc(n: nat, width: nat)
    requires width > 0
    ensures Padded(n, width) == Padded(n / 10, width - 1) + [DigitChar(n % 10)]
  {
  }

  lemma TenthBelow(n: nat, width: nat)
    requires width > 0 && n < Pow10(width)
    ensures n / 10 < Pow10(width - 1) && n == 10 * (n / 10) + n % 10
  {
  }

  lemma {:induction false} TrimStopsAtDot(a: string, p: string)
    requires AllDigits(p)
    ensures TrimRightZeros(a + "." + p) == a + "." + TrimRightZeros(p)
    ensures AllDigits(TrimRightZeros(p))
  {
    if p != "" && p[|p| - 1] == '0' {
      assert (a + "." + p)[..|a + "." + p| - 1] == a + "." + p[..|p| - 1];
      TrimStopsAtDot(a, p[..|p| - 1]);
    }
  }

  lemma {:induction false} TrimKeepsValue(a: string, p: string)
    requires AllDigits(a) && AllDigits(p)
    ensures var t := TrimRightZeros(p);
            AllDigits(t) && DigitsVal(a + p) == DigitsVal(a + t) * Pow10(|p| - |t|)
  {
    if p != "" && p[|p| - 1] == '0' {
      var p' := p[..|p| - 1];
      TrimKeepsValue(a, p');
      DropLastZero(a, p');
      var t := TrimRightZeros(p');
      TenTimes(DigitsVal(a + t), |p'| - |t|);
      assert p == p' + "0";
    }
  }

  lemma DropLastZero(a: string, p: string)
    requires AllDigits(a) && AllDigits(p)
    ensures AllDigits(p + "0") && DigitsVal(a + (p + "0")) == 10 * DigitsVal(a + p)
  {
    var s := a + (p + "0");
    assert s[..|s| - 1] == a + p;
  }

  lemma TenTimes(d: nat, k: nat)
    ensures 10 * (d * Pow10(k)) == d * Pow10(k + 1)
  {
  }

  // The canonical form: sign, whole part, and the fraction without its trailing zeros.
  function Whole(x: real): string {
    Digits(Magnitude(Micros(x)) / MICRO)
  }

  function Fraction(x: real): string {
    TrimRightZeros(Padded(Magnitude(Micros(x)) % MICRO, 6))
  }

  // The part after the whole digits: nothing, or a point and the kept fraction.
  function Tail(f: string): string {
    if f == "" then "" else "." + f
  }

  lemma TrimSuffixDotShape(a: string, t: string)
    requires AllDigits(t)
    ensures TrimSuffixDot(a + "." + t) == a + Tail(t)
  {
    var u := a + "." + t;
    if t == "" {
      assert u == a + ".";
      assert u[..|a|] == a;
      assert a + "" == a;
    } else {
      assert u[|u| - 1] == t[|t| - 1];
      assert u == a + ("." + t);
    }
  }

  lemma TrimmedShape(a: string, p: string)
    requires AllDigits(p)
    ensures TrimSuffixDot(TrimRightZeros(a + "." + p)) == a + Tail(TrimRightZeros(p))
  {
    TrimStopsAtDot(a, p);
    hide TrimRightZeros, TrimSuffixDot, Tail;
    TrimSuffixDotShape(a, TrimRightZeros(p));
  }

  lemma RatStrShape(x: real)
    ensures AllDigits(Whole(x)) && AllDigits(Fraction(x)) && Whole(x) != "" && |Fraction(x)| <= 6
    ensures RatStr(x) == Sign(x) + Whole(x) + Tail(Fraction(x))
  {
    var p := Padded(Magnitude(Micros(x)) % MICRO, 6);
    var w := Whole(x);
    var a := Sign(x) + w;
    assert a[|a| - 1] == w[|w| - 1];
    TrimStopsAtDot(a, p);
    TrimmedShape(a, p);
    var s := a + Tail(Fraction(x));
    assert s[|a| - 1] == w[|w| - 1];
    assert FloatString6(x) == a + "." + p;
  }

  lemma NoneBefore(s: string, c: char, k: nat)
    requires k <= |s| && (forall i :: 0 <= i < k ==> s[i] != c) && (k < |s| ==> s[k] == c)
    ensures IndexOf(s, c) == k
  {
  }

  lemma FixedVal(w: string, f: string)
    requires AllDigits(w) && AllDigits(f) && w != ""
    ensures ParseFixed(w + Tail(f)) == ParseParts(w, f)
  {
    hide ParseParts, IndexOf;
    var s := w + Tail(f);
    NoneBefore(s, '.', |w|);
    assert s[..|w|] == w;
    if f != "" {
      assert s[|w| + 1..] == f;
    }
  }

  lemma NoExponent(s: string)
    requires forall i :: 0 <= i < |s| ==> IsDigit(s[i]) || s[i] == '.'
    ensures ParseFloat(s) == ParseFixed(s)
  {
    NoneBefore(s, 'e', |s|);
    NoneBefore(s, 'E', |s|);
    assert s[..|s|] == s;
  }

  lemma {:induction false} DigitsPow(a: nat, b: nat)
    ensures Pow10(a) * Pow10(b) == Pow10(a + b)
  {
    if a > 0 {
      DigitsPow(a - 1, b);
      assert Pow10(a) * Pow10(b) == 10 * (Pow10(a - 1) * Pow10(b));
    }
  }

  lemma QuotientScale(a: real, b: real, c: real)
    requires b > 0.0 && c > 0.0
    ensures b * c > 0.0 && a / b == (a * c) / (b * c)
  {
    var q := a / b;
    assert q * b == a;
    assert q * (b * c) == a * c;
  }

  // The digits kept by the printer, scaled by their count, are the millionths of x.
  lemma PrintedMagnitude(x: real)
    ensures AllDigits(Whole(x) + Fraction(x))
    ensures DigitsVal(Whole(x) + Fraction(x)) as real / Pow10(|Fraction(x)|) as real
         == Magnitude(Micros(x)) as real / 1000000.0
  {
    var m := Magnitude(Micros(x));
    var w, p := Whole(x), Padded(m % MICRO, 6);
    MillionIsPow10();
    DigitsRoundTrip(m / MICRO);
    PaddedVal(m % MICRO, 6);
    DigitsValConcat(w, p);
    TrimmedMagnitude(m, w, p);
  }

  lemma MillionIsPow10()
    ensures Pow10(6) == 1000000
  {
    assert Pow10(3) == 1000;
  }

  lemma TrimmedMagnitude(m: nat, w: string, p: string)
    requires AllDigits(w) && AllDigits(p) && |p| == 6 && DigitsVal(w + p) == m
    ensures var f := TrimRightZeros(p);
            AllDigits(w + f) && DigitsVal(w + f) as real / Pow10(|f|) as real == m as real / 1000000.0
  {
    var f := TrimRightZeros(p);
    TrimKeepsValue(w, p);
    var z := 6 - |f|;
    DigitsPow(|f|, z);
    MillionIsPow10();
    ScaledQuotient(DigitsVal(w + f), Pow10(|f|), Pow10(z), m);
  }

  lemma ScaledQuotient(d: nat, a: nat, b: nat, m: nat)
    requires a > 0 && b > 0 && d * b == m && a * b == 1000000
    ensures d as real / a as real == m as real / 1000000.0
  {
    assert m as real == d as real * b as real;
    assert 1000000.0 == a as real * b as real;
    QuotientScale(d as real, a as real, b as real);
  }

  lemma NoSpaceToTrim(s: string)
    requires s != "" && !IsSpace(s[0]) && !IsSpace(s[|s| - 1])
    ensures RatOf(s) == ParseSigned(s)
  {
  }

  lemma BodyReadsBack(w: string, f: string)
    requires AllDigits(w) && AllDigits(f) && w != ""
    ensures var body := w + Tail(f);
            IsDigit(body[0]) && IsDigit(body[|body| - 1])
            && ParseFloat(body) == Some(DigitsVal(w + f) as real / Pow10(|f|) as real)
  {
    hide DigitsVal, Pow10, ParseFloat, ParseFixed;
    FixedVal(w, f);
    var body := w + Tail(f);
    assert body[0] == w[0];
    NoExponent(body);
  }

  lemma SignedBody(neg: bool, body: string, v: real)
    requires body != "" && IsDigit(body[0]) && IsDigit(body[|body| - 1]) && ParseFloat(body) == Some(v)
    ensures RatOf((if neg then "-" else "") + body) == Some(if neg then -v else v)
  {
    hide ParseFloat, TrimSpace;
    var s := (if neg then "-" else "") + body;
    assert s[|s| - 1] == body[|body| - 1];
    NoSpaceToTrim(s);
    if neg {
      assert s[1..] == body;
    } else {
      assert s == body;
    }
  }

  lemma RenderedMagnitude(x: real)
    ensures var v := Magnitude(Micros(x)) as real / 1000000.0;
            Rendered(x) == if x < 0.0 then -v else v
    ensures Sign(x) == if x < 0.0 then "-" else ""
  {
    assert if x < 0.0 then Micros(x) <= 0 else Micros(x) >= 0;
  }

  // Reading a printed score gives the score rounded to six decimals.
  lemma PrintedReadsBack(x: real)
    ensures RatOf(RatStr(x)) == Some(Rendered(x))
  {
    hide *;
    var w, f := Whole(x), Fraction(x);
    RatStrShape(x);
    PrintedMagnitude(x);
    BodyReadsBack(w, f);
    SignedBody(x < 0.0, w + Tail(f), Magnitude(Micros(x)) as real / 1000000.0);
    RenderedMagnitude(x);
    assert RatStr(x) == Sign(x) + (w + Tail(f));
  }

  lemma {:induction false} TrimmedEnd(s: string)
    ensures TrimRightZeros(s) != "" ==> TrimRightZeros(s)[|TrimRightZeros(s)| - 1] != '0'
  {
    if s != "" && s[|s| - 1] == '0' {
      TrimmedEnd(s[..|s| - 1]);
    }
  }

  lemma {:induction false} NoLeadingZero(n: nat)
    ensures |Digits(n)| > 1 ==> Digits(n)[0] != '0'
    ensures n > 0 ==> Digits(n)[0] != '0'
  {
    if n >= 10 {
      NoLeadingZero(n / 10);
    } else {
      DigitRoundTrip(n);
    }
  }

  // The printed form is the shortest: a sign when negative, digits without a leading zero, and a
  // point only with decimals, at most six, that do not end in a zero.
  lemma PrintedShape(x: real) returns (whole: string, decimals: string)
    ensures RatStr(x) == (if x < 0.0 then "-" else "") + whole + (if decimals == "" then "" else "." + decimals)
    ensures AllDigits(whole) && AllDigits(decimals) && whole != "" && |decimals| <= 6
    ensures |whole| > 1 ==> whole[0] != '0'
    ensures decimals != "" ==> decimals[|decimals| - 1] != '0'
  {
    RatStrShape(x);
    TrimmedEnd(Padded(Magnitude(Micros(x)) % MICRO, 6));
    NoLeadingZero(Magnitude(Micros(x)) / MICRO);
    whole, decimals := Whole(x), Fraction(x);
    hide RatStr, Micros, TrimRightZeros, Padded, Digits;
  }

  // canonical: two scores print alike exactly when they agree to six decimals, except that
  // a negative score too small to print keeps its sign.
  lemma PrintsAlike(x: real, y: real)
    ensures RatStr(x) == RatStr(y) <==>
            Micros(x) == Micros(y) && (Micros(x) == 0 ==> (x < 0.0 <==> y < 0.0))
  {
    PrintedReadsBack(x);
    PrintedReadsBack(y);
    RatStrShape(x);
    RatStrShape(y);
    if RatStr(x) == RatStr(y) {
      assert Rendered(x) == Rendered(y);
      assert Micros(x) == Micros(y);
      assert IsDigit(Whole(x)[0]) && IsDigit(Whole(y)[0]);
      assert (x < 0.0) <==> RatStr(x)[0] == '-';
      assert (y < 0.0) <==> RatStr(y)[0] == '-';
    }
  }

  // For scores with at most six decimals, voting by printed form is voting by value.
  lemma CanonicalIsIdentity(x: real, y: real)
    requires OnGrid(x, MICRO) && OnGrid(y, MICRO)
    ensures RatStr(x) == RatStr(y) <==> x == y
  {
    PrintsAlike(x, y);
    RenderedExact(x);
    RenderedExact(y);
  }

  // Beyond six decimals the printed form merges different scores.
  lemma SeventhDecimalIsLost()
    ensures RatStr(0.0000001) == RatStr(0.0000002)
  {
    PrintsAlike(0.0000001, 0.0000002);
  }
}
