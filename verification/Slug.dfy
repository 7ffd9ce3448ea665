/** internal/export/slug.go: a directory name from an assessment's name. */
module Slug {
  import opened Strings

  const MAX_SLUG: nat := 64
  const FALLBACK: string := "assessment"

  predicate IsAlnum(c: char) {
    'a' <= c <= 'z' || 'A' <= c <= 'Z' || '0' <= c <= '9'
  }

  function ToLower(c: char): char {
    if 'A' <= c <= 'Z' then (c as int + 32) as char else c
  }

  // ---- what a slug is ----

  // The runs of letters and digits, lowercased.
  function Runs(name: string): (runs: seq<string>)
    ensures name != "" && IsAlnum(name[|name| - 1]) ==> runs != []
  {
    if name == "" then []
    else
      var front, c := name[..|name| - 1], name[|name| - 1];
      var runs := Runs(front);
      if !IsAlnum(c) then runs
      else if front != "" && IsAlnum(front[|front| - 1]) then runs[|runs| - 1 := runs[|runs| - 1] + [ToLower(c)]]
      else runs + [[ToLower(c)]]
  }

  function TrimDashes(s: string): (t: string)
    ensures |t| <= |s| && t == s[..|t|]
    ensures t == "" || t[|t| - 1] != '-'
  {
    if s != "" && s[|s| - 1] == '-' then TrimDashes(s[..|s| - 1]) else s
  }

  function Bounded(s: string): string {
    if |s| > MAX_SLUG then TrimDashes(s[..MAX_SLUG]) else s
  }

  // The runs joined by single dashes, cut to length; a name without any is the fallback.
  function SlugOf(name: string): string {
    var out := Bounded(Join(Runs(name), '-'));
    if out == "" then FALLBACK else out
  }

  // A character a slug keeps as it is.
  predicate Plain(c: char) {
    IsAlnum(c) && ToLower(c) == c
  }

  // Plain characters and dashes, with no dash at either end or next to another.
  predicate DashesApart(s: string) {
    && (forall i :: 0 <= i < |s| ==> Plain(s[i]) || s[i] == '-')
    && (s != "" ==> s[0] != '-' && s[|s| - 1] != '-')
    && forall i :: 0 <= i < |s| - 1 ==> !(s[i] == '-' && s[i + 1] == '-')
  }

  predicate SlugShape(s: string) {
    1 <= |s| <= MAX_SLUG && DashesApart(s)
  }

  // ---- the loop ----

  lemma {:induction false} JoinSnoc(parts: seq<string>, last: string, sep: char)
    ensures Join(parts + [last], sep) == if parts == [] then last else Join(parts, sep) + [sep] + last
  {
    if parts != [] {
      JoinSnoc(parts[1..], last, sep);
      assert (parts + [last])[1..] == parts[1..] + [last];
    }
  }

  lemma JoinExtend(parts: seq<string>, c: char, sep: char)
    requires parts != []
    ensures Join(parts[|parts| - 1 := parts[|parts| - 1] + [c]], sep) == Join(parts, sep) + [c]
  {
    var front, last := parts[..|parts| - 1], parts[|parts| - 1];
    assert parts == front + [last] && parts[|parts| - 1 := last + [c]] == front + [last + [c]];
    JoinSnoc(front, last, sep);
    JoinSnoc(front, last + [c], sep);
    hide Join;
  }

  lemma {:induction false} RunsNonempty(name: string)
    ensures forall r :: r in Runs(name) ==> r != ""
    ensures Runs(name) != [] <==> Join(Runs(name), '-') != ""
  {
    if name != "" {
      RunsNonempty(name[..|name| - 1]);
    }
    JoinNonempty(Runs(name));
    hide Join;
  }

  lemma JoinNonempty(parts: seq<string>)
    requires forall r :: r in parts ==> r != ""
    ensures parts != [] <==> Join(parts, '-') != ""
  {
    assert parts != [] ==> parts[0] in parts;
  }

  predicate EndsApart(s: string) {
    s != "" && !IsAlnum(s[|s| - 1])
  }

  lemma RunsSnoc(front: string, c: char)
    ensures Runs(front + [c]) ==
      if !IsAlnum(c) then Runs(front)
      else if front == "" || EndsApart(front) then Runs(front) + [[ToLower(c)]]
      else Runs(front)[|Runs(front)| - 1 := Runs(front)[|Runs(front)| - 1] + [ToLower(c)]]
  {
    assert (front + [c])[..|front|] == front;
  }

  // One more character: a letter or digit goes on, after a dash if something came in between.
  lemma CollapseSnoc(front: string, c: char)
    ensures Join(Runs(front + [c]), '-') ==
      if !IsAlnum(c) then Join(Runs(front), '-')
      else (if EndsApart(front) && Join(Runs(front), '-') != "" then Join(Runs(front), '-') + ['-'] else Join(Runs(front), '-')) + [ToLower(c)]
  {
    var runs := Runs(front);
    RunsSnoc(front, c);
    RunsNonempty(front);
    if IsAlnum(c) {
      if front == "" || EndsApart(front) {
        JoinSnoc(runs, [ToLower(c)], '-');
        assert runs == [] ==> Join(runs, '-') == "";
      } else {
        JoinExtend(runs, ToLower(c), '-');
      }
    }
    hide Join, Runs;
  }

  lemma NoRuns()
    ensures Join(Runs(""), '-') == ""
  {
  }

  method Slug(name: string) returns (slug: string)
    ensures slug == SlugOf(name)
  {
    var out := "";
    var pendingDash := false;
    hide Join, Runs;
    NoRuns();
    for i := 0 to |name|
      invariant out == Join(Runs(name[..i]), '-')
      invariant pendingDash == EndsApart(name[..i])
    {
      assert name[..i + 1] == name[..i] + [name[i]];
      CollapseSnoc(name[..i], name[i]);
      if IsAlnum(name[i]) {
        if pendingDash && |out| > 0 {
          out := out + "-";
        }
        pendingDash := false;
        out := out + [ToLower(name[i])];
        continue;
      }
      pendingDash := true;
    }
    assert name[..|name|] == name;
    if out == "" {
      return FALLBACK;
    }
    if |out| > MAX_SLUG {
      out := TrimDashes(out[..MAX_SLUG]);
      if out == "" {
        return FALLBACK;
      }
    }
    slug := out;
  }

  // ---- its shape ----

  predicate RunShape(r: string) {
    r != "" && forall i :: 0 <= i < |r| ==> Plain(r[i])
  }

  lemma {:induction false} RunsShape(name: string)
    ensures forall k :: 0 <= k < |Runs(name)| ==> RunShape(Runs(name)[k])
  {
    if name != "" {
      RunsShape(name[..|name| - 1]);
    }
  }

  lemma DashedShape(run: string, rest: string)
    requires RunShape(run) && DashesApart(rest) && rest != ""
    ensures DashesApart(run + ['-'] + rest)
  {
    var s := run + ['-'] + rest;
    var n := |run| + 1;
    assert forall i :: 0 <= i < |rest| ==> s[n + i] == rest[i];
    forall i | 0 <= i < |s|
      ensures Plain(s[i]) || s[i] == '-'
      ensures i < |s| - 1 ==> !(s[i] == '-' && s[i + 1] == '-')
    {
      if i >= n {
        assert s[i] == rest[i - n];
      }
    }
  }

  lemma {:induction false} JoinShape(runs: seq<string>)
    requires forall k :: 0 <= k < |runs| ==> RunShape(runs[k])
    ensures DashesApart(Join(runs, '-')) && (runs != [] ==> Join(runs, '-') != "")
  {
    if |runs| > 1 {
      assert RunShape(runs[0]);
      JoinShape(runs[1..]);
      hide DashesApart, RunShape;
      DashedShape(runs[0], Join(runs[1..], '-'));
    }
  }

  lemma {:induction false} TrimKeepsFirst(s: string)
    requires s != "" && s[0] != '-'
    ensures TrimDashes(s) != ""
  {
    if s[|s| - 1] == '-' {
      TrimKeepsFirst(s[..|s| - 1]);
    }
  }

  // Every slug is between 1 and 64 characters, lowercase letters and digits with single dashes
  // inside.
  lemma SlugHasShape(name: string)
    ensures SlugShape(SlugOf(name))
  {
    RunsShape(name);
    JoinShape(Runs(name));
    hide Runs, Join;
    BoundedShape(Join(Runs(name), '-'));
    hide Bounded, DashesApart;
    FallbackShape();
  }

  lemma BoundedShape(s: string)
    requires DashesApart(s)
    ensures |Bounded(s)| <= MAX_SLUG && DashesApart(Bounded(s))
  {
    if |s| > MAX_SLUG {
      TrimKeepsFirst(s[..MAX_SLUG]);
    }
    hide TrimDashes;
  }

  lemma FallbackShape()
    ensures SlugShape(FALLBACK)
  {
  }

  // ---- what it leaves alone ----

  lemma {:induction false} RunsOfShaped(s: string)
    requires DashesApart(s) || (s != "" && s[|s| - 1] == '-' && DashesApart(s[..|s| - 1]))
    ensures Join(Runs(s), '-') == if s != "" && s[|s| - 1] == '-' then s[..|s| - 1] else s
  {
    hide Join, Runs;
    if s == "" {
      NoRuns();
    } else {
      var front, c := s[..|s| - 1], s[|s| - 1];
      assert s == front + [c];
      CollapseSnoc(front, c);
      if c != '-' {
        FrontShaped(s);
      }
      hide DashesApart;
      RunsOfShaped(front);
    }
  }

  lemma FrontShaped(s: string)
    requires DashesApart(s) && s != ""
    ensures var front := s[..|s| - 1];
            DashesApart(front) || (front != "" && front[|front| - 1] == '-' && DashesApart(front[..|front| - 1]))
    ensures Plain(s[|s| - 1]) && s[|s| - 1] != '-' && (|s| > 1 ==> Plain(s[|s| - 2]) || s[|s| - 2] == '-')
  {
  }

  // A name is its own slug exactly when it has the shape of one.
  lemma SlugFixesShape(s: string)
    ensures SlugOf(s) == s <==> SlugShape(s)
  {
    SlugHasShape(s);
    if SlugShape(s) {
      RunsOfShaped(s);
    }
  }

  lemma SlugIdempotent(name: string)
    ensures SlugOf(SlugOf(name)) == SlugOf(name)
  {
    SlugHasShape(name);
    hide SlugOf, SlugShape;
    SlugFixesShape(SlugOf(name));
  }
}
