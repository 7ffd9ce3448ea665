/** Strings joined and split at a separator, and compared byte by byte. */
module Strings {

  function Join(parts: seq<string>, sep: char): string {
    if parts == [] then ""
    else if |parts| == 1 then parts[0]
    else parts[0] + [sep] + Join(parts[1..], sep)
  }

  // Where sep first occurs, or the length of s.
  function Find(s: string, sep: char): (k: nat)
    ensures k <= |s| && (forall i :: 0 <= i < k ==> s[i] != sep) && (k < |s| ==> s[k] == sep)
  {
    if s == "" || s[0] == sep then 0 else 1 + Find(s[1..], sep)
  }

  // strings.Split
  function Split(s: string, sep: char): (parts: seq<string>)
    ensures |parts| > 0 && forall p :: p in parts ==> sep !in p
    decreases |s|
  {
    var k := Find(s, sep);
    if k == |s| then [s] else [s[..k]] + Split(s[k + 1..], sep)
  }

  lemma FindAfter(a: string, sep: char, rest: string)
    requires sep !in a
    ensures Find(a + [sep] + rest, sep) == |a| && Find(a, sep) == |a|
  {
    var s := a + [sep] + rest;
    assert s[|a|] == sep;
    assert forall i :: 0 <= i < |a| ==> s[i] == a[i];
  }

  lemma {:induction false} SplitJoin(parts: seq<string>, sep: char)
    requires parts != [] && forall p :: p in parts ==> sep !in p
    ensures Split(Join(parts, sep), sep) == parts
  {
    if |parts| == 1 {
      FindAfter(parts[0], sep, "");
    } else {
      var rest := Join(parts[1..], sep);
      var s := parts[0] + [sep] + rest;
      FindAfter(parts[0], sep, rest);
      assert parts[0] in parts;
      assert s[..|parts[0]|] == parts[0] && s[|parts[0]| + 1..] == rest;
      SplitJoin(parts[1..], sep);
      assert [parts[0]] + parts[1..] == parts;
    }
  }

  // ---- order ----

  // Byte-wise order.
  predicate Before(a: string, b: string) {
    if b == "" then false
    else if a == "" then true
    else a[0] < b[0] || (a[0] == b[0] && Before(a[1..], b[1..]))
  }

  lemma {:induction false} BeforeTotal(a: string, b: string)
    ensures a == b || Before(a, b) || Before(b, a)
    ensures !(Before(a, b) && Before(b, a)) && !Before(a, a)
  {
    if a != "" && b != "" {
      BeforeTotal(a[1..], b[1..]);
      BeforeTotal(a[1..], a[1..]);
      assert a == [a[0]] + a[1..] && b == [b[0]] + b[1..];
    } else if a != "" {
      BeforeTotal(a[1..], a[1..]);
    }
  }

  lemma {:induction false} BeforeTransitive(a: string, b: string, c: string)
    requires Before(a, b) && Before(b, c)
    ensures Before(a, c)
  {
    if a != "" && b != "" && c != "" && a[0] == b[0] == c[0] {
      BeforeTransitive(a[1..], b[1..], c[1..]);
    }
  }
}
