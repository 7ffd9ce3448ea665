/** internal/export/export.go:386-497 in words: which entries a problem's tree has, in which order,
    and what each holds. */
module ExportContents {
  import opened Wrappers
  import opened Numerals
  import opened Strings
  import opened Slug
  import opened Export

  // ---- pseudonyms, flags and rows ----

  // "Student " and the place from 1, zero-padded to the digits of the number of answers, to three
  // at least.
  predicate IsPseudonym(i: nat, n: nat, alias: string) {
    var digits, width := Digits(i + 1), if |Digits(n)| > 3 then |Digits(n)| else 3;
    && |alias| == 8 + (if |digits| < width then width else |digits|)
    && alias[..8] == "Student " && alias[|alias| - |digits|..] == digits
    && forall k :: 8 <= k < |alias| - |digits| ==> alias[k] == '0'
  }

  lemma PseudonymIs(i: nat, n: nat)
    ensures IsPseudonym(i, n, Pseudonym(i, PseudonymWidth(n)))
  {
    var digits, width := Digits(i + 1), PseudonymWidth(n);
    var zeros := seq(if |digits| < width then width - |digits| else 0, _ => '0');
    hide Digits;
    assert Pseudonym(i, width) == "Student " + (zeros + digits);
    assert "Student " + (zeros + digits) == "Student " + zeros + digits;
  }

  // Two places never share a pseudonym.
  lemma PseudonymsDiffer(i: nat, j: nat, n: nat, a: string, b: string)
    requires IsPseudonym(i, n, a) && IsPseudonym(j, n, b) && i != j && i < n && j < n
    ensures a != b
  {
    var width := if |Digits(n)| > 3 then |Digits(n)| else 3;
    if a == b {
      ValueOfPadded(i, a, width, n);
      ValueOfPadded(j, b, width, n);
    }
  }

  lemma ValueOfPadded(i: nat, alias: string, width: nat, n: nat)
    requires IsPseudonym(i, n, alias)
    ensures AllDigits(alias[8..]) && DigitsVal(alias[8..]) == i + 1
  {
    var digits := Digits(i + 1);
    var zeros := alias[8..|alias| - |digits|];
    DigitsRoundTrip(i + 1);
    hide Digits;
    assert alias[8..] == zeros + digits;
    ZerosInFront(zeros, digits);
  }

  lemma {:induction false} ZerosInFront(zeros: string, digits: string)
    requires AllDigits(digits) && forall k :: 0 <= k < |zeros| ==> zeros[k] == '0'
    ensures AllDigits(zeros + digits) && DigitsVal(zeros + digits) == DigitsVal(digits)
    decreases |digits|
  {
    if digits == "" {
      assert zeros + digits == zeros;
      OnlyZeros(zeros);
    } else {
      var n := |digits| - 1;
      ZerosInFront(zeros, digits[..n]);
      assert (zeros + digits)[..|zeros| + n] == zeros + digits[..n];
    }
  }

  lemma {:induction false} OnlyZeros(zeros: string)
    requires forall k :: 0 <= k < |zeros| ==> zeros[k] == '0'
    ensures AllDigits(zeros) && DigitsVal(zeros) == 0
  {
    if zeros != "" {
      OnlyZeros(zeros[..|zeros| - 1]);
    }
  }

  // The flags that are kept are the non-blank ones, flattened, each at its first place, in order.
  ghost predicate KeptFlags(flags: seq<string>, kept: seq<string>, places: seq<nat>) {
    && |places| == |kept|
    && (forall i :: 0 <= i < |kept| ==> places[i] < |flags| && kept[i] == Flat(flags[places[i]]) && kept[i] != "")
    && (forall i, j :: 0 <= i < j < |kept| ==> places[i] < places[j] && kept[i] != kept[j])
    && (forall k :: 0 <= k < |flags| && Flat(flags[k]) != "" ==> Flat(flags[k]) in kept)
    && forall i, k :: 0 <= i < |kept| && 0 <= k < places[i] ==> Flat(flags[k]) != kept[i]
  }

  lemma {:induction false} DedupedKeeps(flags: seq<string>) returns (places: seq<nat>)
    ensures KeptFlags(flags, Deduped(flags), places)
  {
    hide Flat;
    if flags == [] {
      places := [];
    } else {
      var n := |flags| - 1;
      places := DedupedKeeps(flags[..n]);
      var before, s := Deduped(flags[..n]), Flat(flags[n]);
      assert forall k :: 0 <= k < n ==> flags[..n][k] == flags[k];
      if s != "" && s !in before {
        KeptLast(flags, before, places);
        places := places + [n];
      }
    }
  }

  lemma KeptLast(flags: seq<string>, before: seq<string>, places: seq<nat>)
    requires flags != [] && KeptFlags(flags[..|flags| - 1], before, places)
    requires Flat(flags[|flags| - 1]) != "" && Flat(flags[|flags| - 1]) !in before
    ensures KeptFlags(flags, before + [Flat(flags[|flags| - 1])], places + [|flags| - 1])
  {
    hide Flat;
    var n := |flags| - 1;
    assert forall k :: 0 <= k < n ==> flags[..n][k] == flags[k];
    assert forall k :: 0 <= k < n && Flat(flags[k]) != "" ==> Flat(flags[..n][k]) in before;
  }

  predicate SafeField(field: string, out: string) {
    (out == field || out == "'" + field) && !StartsFormula(out) && (!StartsFormula(field) ==> out == field)
  }

  // A manifest row: id, pseudonym, pages, status, source, confidence, flags.
  ghost predicate IsRow(w: Emitters, a: Answer, alias: string, row: seq<string>) {
    && |row| == 7
    && SafeField(a.studentId, row[0]) && SafeField(alias, row[1]) && SafeField(Digits(|a.pages|), row[2])
    && SafeField(a.status, row[3]) && SafeField(a.source, row[4]) && SafeField(a.confidence, row[5])
    && exists kept, places :: KeptFlags(a.flags + w.notes(a), kept, places) && SafeField(JoinFlags(kept), row[6])
  }

  lemma RowIs(w: Emitters, a: Answer, alias: string)
    ensures IsRow(w, a, alias, Row(w, a, alias))
  {
    var places := DedupedKeeps(a.flags + w.notes(a));
    hide Deduped, Digits, KeptFlags, JoinFlags, StartsFormula;
    assert SafeField(JoinFlags(Deduped(a.flags + w.notes(a))), Row(w, a, alias)[6]);
  }

  // ---- a tree ----

  // The image of a page, under its answer's id, with the page number when there are several.
  predicate IsImage(root: string, a: Answer, k: nat, e: Entry) {
    && k < |a.pages| && !e.deflated && e.body == a.pages[k]
    && e.name == if |a.pages| == 1 then root + "/images/" + (a.studentId + ".jpg")
                 else root + "/images/" + (a.studentId + "-p" + Digits(k + 1) + ".jpg")
  }

  function PagesOf(answers: seq<Answer>): nat {
    if answers == [] then 0 else PagesOf(answers[..|answers| - 1]) + |answers[|answers| - 1].pages|
  }

  // The images of all the answers, one after another, each answer's pages in order.
  lemma {:induction false} ImagesAre(root: string, answers: seq<Answer>, i: nat, k: nat)
    requires i < |answers| && k < |answers[i].pages|
    ensures |AllImages(root, answers)| == PagesOf(answers)
    ensures PagesOf(answers[..i]) + k < |AllImages(root, answers)|
    ensures IsImage(root, answers[i], k, AllImages(root, answers)[PagesOf(answers[..i]) + k])
  {
    var n := |answers| - 1;
    ImagesCount(root, answers);
    ImagesCount(root, answers[..n]);
    assert AllImages(root, answers) == AllImages(root, answers[..n]) + ImageFiles(root, answers[n]);
    if i < n {
      ImagesAre(root, answers[..n], i, k);
      assert answers[..n][..i] == answers[..i];
    } else {
      assert ImageFiles(root, answers[n])[k] == ImageFile(root, answers[n], k);
      OneImage(root, answers[n], k);
    }
    hide ImageFiles, ImageFile, Digits;
  }

  lemma OneImage(root: string, a: Answer, k: nat)
    requires k < |a.pages|
    ensures IsImage(root, a, k, ImageFile(root, a, k))
  {
    hide Digits;
  }

  lemma {:induction false} ImagesCount(root: string, answers: seq<Answer>)
    ensures |AllImages(root, answers)| == PagesOf(answers)
  {
    hide ImageFiles;
    if answers != [] {
      ImagesCount(root, answers[..|answers| - 1]);
    }
  }

  function Concat(parts: seq<string>): string {
    if parts == [] then "" else Concat(parts[..|parts| - 1]) + parts[|parts| - 1]
  }

  lemma {:induction false} SectionsAre(w: Emitters, answers: seq<Answer>, width: nat, tex: seq<string>, typ: seq<string>)
    requires |tex| == |typ| == |answers|
    requires forall i :: 0 <= i < |answers| ==> tex[i] == w.tex(answers[i], Pseudonym(i, width)) && typ[i] == w.typ(answers[i], Pseudonym(i, width))
    ensures TexSections(w, answers, width) == Concat(tex) && TypSections(w, answers, width) == Concat(typ)
  {
    hide Pseudonym;
    if answers != [] {
      var n := |answers| - 1;
      SectionsAre(w, answers[..n], width, tex[..n], typ[..n]);
    }
  }

  // ---- entry by entry ----

  // Each answer has a pseudonym, a manifest row under it, and a section in either format.
  ghost predicate Listed(w: Emitters, answers: seq<Answer>, rows: seq<seq<string>>, tex: seq<string>, typ: seq<string>) {
    && |rows| == |tex| == |typ| == |answers|
    && forall i :: 0 <= i < |answers| ==> ListedAs(w, answers[i], i, |answers|, rows[i], tex[i], typ[i])
  }

  ghost predicate ListedAs(w: Emitters, a: Answer, i: nat, n: nat, row: seq<string>, tex: string, typ: string) {
    exists alias :: IsPseudonym(i, n, alias) && IsRow(w, a, alias, row) && tex == w.tex(a, alias) && typ == w.typ(a, alias)
  }

  lemma OneListed(w: Emitters, a: Answer, i: nat, n: nat)
    ensures var alias := Pseudonym(i, PseudonymWidth(n));
            ListedAs(w, a, i, n, Row(w, a, alias), w.tex(a, alias), w.typ(a, alias))
  {
    var alias := Pseudonym(i, PseudonymWidth(n));
    hide *;
    PseudonymIs(i, n);
    RowIs(w, a, alias);
    Named(w, a, i, n, alias);
  }

  lemma Named(w: Emitters, a: Answer, i: nat, n: nat, alias: string)
    requires IsPseudonym(i, n, alias) && IsRow(w, a, alias, Row(w, a, alias))
    ensures ListedAs(w, a, i, n, Row(w, a, alias), w.tex(a, alias), w.typ(a, alias))
  {
    hide IsPseudonym, IsRow, Row;
  }

  // All answers in one file, the manifest, and all answers again in the other format.
  predicate HasHeads(w: Emitters, p: Input, n: nat, root: string, es: seq<Entry>, rows: seq<seq<string>>, tex: seq<string>, typ: seq<string>) {
    && |es| >= 2 * n + 3
    && es[0] == Entry(root + "/_all.tex", true, w.heading(p.problemNumber, n) + w.preamble + BEGIN_DOCUMENT + Concat(tex) + END_DOCUMENT)
    && es[1] == Entry(root + "/MANIFEST.csv", true, w.manifest(rows, if p.typstVerdict == "" then "unverified" else p.typstVerdict))
    && es[n + 2] == Entry(root + "/_all.typ", true, w.typHeading(p.problemNumber, n) + w.typPreamble + Concat(typ))
  }

  // Each answer in two files under its own id, titled with the problem and not with the pseudonym.
  predicate HasFiles(w: Emitters, answers: seq<Answer>, root: string, title: string, es: seq<Entry>) {
    && |es| >= 2 * |answers| + 3
    && forall i :: 0 <= i < |answers| ==>
         && es[2..][i] == Entry(root + "/tex/" + answers[i].studentId + ".tex", true,
                                w.preamble + BEGIN_DOCUMENT + w.tex(answers[i], title) + END_DOCUMENT)
         && es[|answers| + 3..][i] == Entry(root + "/typ/" + answers[i].studentId + ".typ", true, w.typPreamble + w.typ(answers[i], title))
  }

  function PlaceOfPage(answers: seq<Answer>, i: nat, k: nat): nat
    requires i <= |answers|
  {
    PagesOf(answers[..i]) + k
  }

  // The images: each answer's pages in order, one answer after another, and nothing else.
  predicate HasImages(answers: seq<Answer>, root: string, images: seq<Entry>) {
    && |images| == PagesOf(answers)
    && forall i, k :: 0 <= i < |answers| && 0 <= k < |answers[i].pages| ==>
         PlaceOfPage(answers, i, k) < |images| && IsImage(root, answers[i], k, images[PlaceOfPage(answers, i, k)])
  }

  lemma ListedIs(w: Emitters, answers: seq<Answer>) returns (tex: seq<string>, typ: seq<string>)
    ensures var width := PseudonymWidth(|answers|);
            && Listed(w, answers, Rows(w, answers, width), tex, typ)
            && TexSections(w, answers, width) == Concat(tex) && TypSections(w, answers, width) == Concat(typ)
  {
    var n, width := |answers|, PseudonymWidth(|answers|);
    tex := seq(n, i requires 0 <= i < n => w.tex(answers[i], Pseudonym(i, width)));
    typ := seq(n, i requires 0 <= i < n => w.typ(answers[i], Pseudonym(i, width)));
    SectionsAre(w, answers, width, tex, typ);
    hide Pseudonym, Row, ListedAs, TexSections, TypSections, PseudonymWidth, Concat;
    forall i | 0 <= i < n
      ensures ListedAs(w, answers[i], i, n, Rows(w, answers, width)[i], tex[i], typ[i])
    {
      OneListed(w, answers[i], i, n);
    }
  }

  lemma ImagesHold(root: string, answers: seq<Answer>)
    ensures HasImages(answers, root, AllImages(root, answers))
  {
    ImagesCount(root, answers);
    hide AllImages, PagesOf, IsImage;
    forall i, k | 0 <= i < |answers| && 0 <= k < |answers[i].pages|
      ensures PlaceOfPage(answers, i, k) < |AllImages(root, answers)|
      ensures IsImage(root, answers[i], k, AllImages(root, answers)[PlaceOfPage(answers, i, k)])
    {
      ImagesAre(root, answers, i, k);
    }
  }

  lemma FilesHold(w: Emitters, answers: seq<Answer>, root: string, title: string, es: seq<Entry>, heads: seq<Entry>, mirror: Entry, images: seq<Entry>)
    requires |heads| == 2 && es == heads + TexFiles(w, root, title, answers) + [mirror] + TypFiles(w, root, title, answers) + images
    ensures HasFiles(w, answers, root, title, es)
    ensures es[..2] == heads && es[|answers| + 2] == mirror && es[2 * |answers| + 3..] == images
  {
    var n := |answers|;
    var tex, typ := TexFiles(w, root, title, answers), TypFiles(w, root, title, answers);
    assert es[2..] == tex + ([mirror] + typ + images);
    assert es[n + 3..] == typ + images;
    assert es[2 * n + 3..] == images;
  }

  // A problem's tree, whole: its heads, each answer's files, and the images of its pages.
  lemma TreeContents(w: Emitters, p: Input, answers: seq<Answer>, prefix: string)
    returns (rows: seq<seq<string>>, tex: seq<string>, typ: seq<string>)
    requires p.problemNumber >= 1
    ensures Listed(w, answers, rows, tex, typ)
    ensures var es := ProblemEntries(w, p, answers, prefix);
            var root := prefix + (SlugOf(p.assessmentName) + "-p" + Digits(p.problemNumber));
            && HasHeads(w, p, |answers|, root, es, rows, tex, typ)
            && HasFiles(w, answers, root, "Problem " + Digits(p.problemNumber), es)
            && HasImages(answers, root, es[2 * |answers| + 3..])
  {
    var root, title := prefix + RootDir(p), Title(p.problemNumber);
    var es := ProblemEntries(w, p, answers, prefix);
    rows := Rows(w, answers, PseudonymWidth(|answers|));
    tex, typ := ListedIs(w, answers);
    ImagesHold(root, answers);
    var heads, mirror := Heads(w, p, answers, root), Mirror(w, p, answers, root);
    FilesHold(w, answers, root, title, es, heads, mirror, AllImages(root, answers));
    hide HasFiles, HasImages, Listed, Rows, TexSections, TypSections, AllImages, TexFiles, TypFiles, Concat, Digits, SlugOf, PseudonymWidth, ProblemEntries;
    assert es[0] == es[..2][0] && es[1] == es[..2][1];
  }
}
