/** Decimal numerals: the printer and the bounded parser that the token and the
    score renderer are built from. */
module Numerals {
  import opened Wrappers

  predicate IsDigit(c: char) {
    '0' <= c <= '9'
  }

  predicate AllDigits(s: string) {
    forall i :: 0 <= i < |s| ==> IsDigit(s[i])
  }

  function DigitChar(d: nat): (c: char)
    requires d < 10
    ensures IsDigit(c)
  {
    ("0123456789")[d]
  }

  function DigitOf(c: char): nat
    requires IsDigit(c)
  {
    c as nat - '0' as nat
  }

  // The numeral of n without leading zeros.
  function Digits(n: nat): (s: string)
    ensures AllDigits(s) && |s| > 0
  {
    if n < 10 then [DigitChar(n)] else Digits(n / 10) + [DigitChar(n % 10)]
  }

  function DigitsVal(s: string): nat
    requires AllDigits(s)
  {
    if s == "" then 0 else 10 * DigitsVal(s[..|s| - 1]) + DigitOf(s[|s| - 1])
  }

  lemma DigitRoundTrip(d: nat)
    requires d < 10
    ensures DigitOf(DigitChar(d)) == d
  {
    assert d == 0 || d == 1 || d == 2 || d == 3 || d == 4 || d == 5 || d == 6 || d == 7 || d == 8 || d == 9;
  }

  lemma {:induction false} DigitsRoundTrip(n: nat)
    ensures DigitsVal(Digits(n)) == n
  {
    if n < 10 {
      DigitRoundTrip(n);
      assert Digits(n)[..0] == "";
    } else {
      DigitsRoundTrip(n / 10);
      DigitRoundTrip(n % 10);
      assert Digits(n)[..|Digits(n)| - 1] == Digits(n / 10);
    }
  }

  // strconv.Itoa and strconv.FormatInt in base 10.
  function Itoa(n: int): (s: string)
    ensures |s| > 0
  {
    if n < 0 then "-" + Digits(-n) else Digits(n)
  }

  const MIN_INT64: int := -0x8000_0000_0000_0000
  const MAX_INT64: int := 0x7fff_ffff_ffff_ffff

  predicate IsInt64(n: int) {
    MIN_INT64 <= n <= MAX_INT64
  }

  // strconv.ParseInt(s, 10, 64), and strconv.Atoi on a 64-bit platform.
  function ParseInt64(s: string): Option<int> {
    var signed := s != "" && (s[0] == '-' || s[0] == '+');
    var body := if signed then s[1..] else s;
    if body == "" || !AllDigits(body) then None
    else
      var n: int := if signed && s[0] == '-' then -(DigitsVal(body) as int) else DigitsVal(body);
      if IsInt64(n) then Some(n) else None
  }

  // A printed number shows its sign and its magnitude.
  lemma ItoaShape(n: int)
    ensures n < 0 ==> Itoa(n)[0] == '-' && Itoa(n)[1..] == Digits(-n) && DigitsVal(Digits(-n)) == -n
    ensures n >= 0 ==> IsDigit(Itoa(n)[0]) && AllDigits(Itoa(n)) && DigitsVal(Itoa(n)) == n
  {
    hide Digits, DigitsVal;
    if n < 0 {
      DigitsRoundTrip(-n);
      assert ("-" + Digits(-n))[1..] == Digits(-n);
    } else {
      DigitsRoundTrip(n);
    }
  }

  lemma ParseItoa(n: int)
    ensures ParseInt64(Itoa(n)) == if IsInt64(n) then Some(n) else None
  {
    ItoaShape(n);
  }

  // Two numbers print alike only when they are equal, with no bound on their size.
  lemma ItoaInjective(m: int, n: int)
    requires Itoa(m) == Itoa(n)
    ensures m == n
  {
    ItoaShape(m);
    ItoaShape(n);
  }

  // The characters of a printed number: digits, or a leading minus sign.
  lemma ItoaChars(n: int)
    ensures forall i :: 0 <= i < |Itoa(n)| ==> IsDigit(Itoa(n)[i]) || Itoa(n)[i] == '-'
    ensures n >= 0 ==> AllDigits(Itoa(n))
  {
  }
}
