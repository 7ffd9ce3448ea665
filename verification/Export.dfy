/** internal/export/export.go: the export archive as its list of named entries. Rendering one
    answer, the manifest's CSV text and the preambles are whatever functions the emitters are. */
module Export {
  import opened Wrappers
  import opened Numerals
  import opened Seqs
  import opened Ordering
  import opened Strings
  import opened Slug

  // Pages are masked page images, empty when no bytes were masked. Everything else an emitter
  // reads from an answer is in content.
  datatype Answer = Answer(
    studentId: string, status: string, source: string, pages: seq<string>, confidence: string, flags: seq<string>, content: string)

  datatype Input = Input(assessmentName: string, problemNumber: int, answers: seq<Answer>, typstVerdict: string)

  datatype Entry = Entry(name: string, deflated: bool, body: string)

  datatype Emitters = Emitters(
    heading: (int, nat) -> string,
    typHeading: (int, nat) -> string,
    preamble: string,
    typPreamble: string,
    tex: (Answer, string) -> string,
    typ: (Answer, string) -> string,
    notes: Answer -> seq<string>,
    manifest: (seq<seq<string>>, string) -> string)

  datatype ExportError =
    | BadProblemNumber
    | NoAnswers
    | BadTypstVerdict
    | UnusableId(answer: nat)
    | SharedId(previous: nat, answer: nat)
    | UnknownStatus(answer: nat)
    | AbsentWithPages(answer: nat)
    | AbsentWithSource(answer: nat)
    | UnknownSource(answer: nat)
    | EmptyPage(answer: nat, page: nat)
    | NoProblems
    | RepeatedProblem(number: int)
    | TooLarge(bytes: nat)

  const MAX_ZIP_BYTES: nat := 0x8000_0000
  const BEGIN_DOCUMENT: string := "\\begin{document}\n"
  const END_DOCUMENT: string := "\\end{document}\n"

  // ---- validation ----

  predicate SafeChar(c: char) {
    IsAlnum(c) || c == '-' || c == '_'
  }

  predicate SafeIDForFilename(id: string) {
    id != "" && |id| <= 64 && forall i :: 0 <= i < |id| ==> SafeChar(id[i])
  }

  function Lower(s: string): (t: string)
    ensures |t| == |s|
  {
    seq(|s|, i requires 0 <= i < |s| => ToLower(s[i]))
  }

  predicate KnownStatus(status: string) {
    status == "ok" || status == "illegible" || status == "failed" || status == "absent"
  }

  predicate KnownSource(source: string) {
    source == "grading-cache" || source == "dedicated"
  }

  function FirstEmptyPage(pages: seq<string>): (k: nat)
    ensures k <= |pages| && (forall j :: 0 <= j < k ==> pages[j] != "") && (k < |pages| ==> pages[k] == "")
  {
    if pages == [] || pages[0] == "" then 0 else 1 + FirstEmptyPage(pages[1..])
  }

  // What is wrong with one answer on its own.
  function AnswerError(a: Answer, i: nat): Option<ExportError> {
    if !KnownStatus(a.status) then Some(UnknownStatus(i))
    else if a.status == "absent" then
      if a.pages != [] then Some(AbsentWithPages(i)) else if a.source != "" then Some(AbsentWithSource(i)) else None
    else if !KnownSource(a.source) then Some(UnknownSource(i))
    else if FirstEmptyPage(a.pages) < |a.pages| then Some(EmptyPage(i, FirstEmptyPage(a.pages)))
    else None
  }

  predicate SameId(a: Answer, b: Answer) {
    Lower(a.studentId) == Lower(b.studentId)
  }

  // Everything an export accepts about its answers, in no particular order.
  predicate GoodAnswer(a: Answer) {
    SafeIDForFilename(a.studentId) && AnswerError(a, 0) == None
  }

  predicate DistinctIds(answers: seq<Answer>) {
    forall i, j :: 0 <= i < j < |answers| ==> !SameId(answers[i], answers[j])
  }

  predicate GoodVerdict(v: string) {
    v == "" || v == "verified" || v == "failed"
  }

  predicate ValidInput(p: Input) {
    && p.problemNumber >= 1 && p.answers != [] && GoodVerdict(p.typstVerdict)
    && (forall i :: 0 <= i < |p.answers| ==> GoodAnswer(p.answers[i]))
    && DistinctIds(p.answers)
  }

  // What is wrong with the answer at i, given those before it.
  ghost predicate WrongAt(answers: seq<Answer>, i: nat, e: ExportError) {
    && i < |answers|
    && var a := answers[i];
       if !SafeIDForFilename(a.studentId) then e == UnusableId(i)
       else if exists k :: 0 <= k < i && SameId(answers[k], a) then
         e.SharedId? && e.answer == i && e.previous < i && SameId(answers[e.previous], a)
       else AnswerError(a, i) == Some(e)
  }

  ghost predicate FirstWrong(answers: seq<Answer>, i: nat, e: ExportError) {
    WrongAt(answers, i, e) && (forall k :: 0 <= k < i ==> GoodAnswer(answers[k])) && DistinctIds(answers[..i])
  }

  // ---- order ----

  predicate AnswerBefore(a: Answer, b: Answer) {
    Before(a.studentId, b.studentId)
  }

  function SortAnswers(answers: seq<Answer>): seq<Answer> {
    SortBy(answers, AnswerBefore)
  }

  method Validated(p: Input) returns (r: Result<seq<Answer>, ExportError>)
    ensures r.Ok? <==> ValidInput(p)
    ensures r.Ok? ==> r.value == SortAnswers(p.answers)
    ensures r.Err? ==>
              if p.problemNumber < 1 then r.error == BadProblemNumber
              else if p.answers == [] then r.error == NoAnswers
              else if !GoodVerdict(p.typstVerdict) then r.error == BadTypstVerdict
              else exists i: nat :: FirstWrong(p.answers, i, r.error)
  {
    if p.problemNumber < 1 {
      return Err(BadProblemNumber);
    }
    if |p.answers| == 0 {
      return Err(NoAnswers);
    }
    if !GoodVerdict(p.typstVerdict) {
      return Err(BadTypstVerdict);
    }
    hide WrongAt, GoodAnswer, DistinctIds;
    var e := CheckAnswers(p.answers);
    if e.Some? {
      return Err(e.value);
    }
    r := Ok(SortAnswers(p.answers));
  }

  lemma DistinctSnoc(answers: seq<Answer>, i: nat)
    requires i < |answers| && DistinctIds(answers[..i]) && forall k :: 0 <= k < i ==> !SameId(answers[k], answers[i])
    ensures DistinctIds(answers[..i + 1])
  {
    hide SameId;
  }

  lemma WrongAnswer(answers: seq<Answer>, i: nat)
    requires i < |answers| && DistinctIds(answers[..i])
    ensures !SafeIDForFilename(answers[i].studentId) ==> WrongAt(answers, i, UnusableId(i))
    ensures forall k :: SafeIDForFilename(answers[i].studentId) && 0 <= k < i && SameId(answers[k], answers[i]) ==>
              WrongAt(answers, i, SharedId(k, i)) && !DistinctIds(answers)
    ensures SafeIDForFilename(answers[i].studentId) && AnswerError(answers[i], i).Some? ==>
              (exists k :: 0 <= k < i && SameId(answers[k], answers[i])) || WrongAt(answers, i, AnswerError(answers[i], i).value)
    ensures GoodAnswer(answers[i]) <==> SafeIDForFilename(answers[i].studentId) && AnswerError(answers[i], i) == None
  {
    hide SafeIDForFilename, SameId, FirstEmptyPage;
  }

  // The loop over the answers: the first wrong one, with what is wrong with it.
  method CheckAnswers(answers: seq<Answer>) returns (e: Option<ExportError>)
    ensures e == None <==> (forall i :: 0 <= i < |answers| ==> GoodAnswer(answers[i])) && DistinctIds(answers)
    ensures e.Some? ==> exists i: nat :: FirstWrong(answers, i, e.value)
  {
    hide SafeIDForFilename, Lower, AnswerError, GoodAnswer, WrongAt, DistinctIds;
    var seen: map<string, nat> := map[];
    assert DistinctIds(answers[..0]) by { NoneShared(answers); }
    for i := 0 to |answers|
      invariant forall k :: 0 <= k < i ==> GoodAnswer(answers[k])
      invariant DistinctIds(answers[..i])
      invariant forall k :: 0 <= k < i ==> Lower(answers[k].studentId) in seen
      invariant forall key :: key in seen ==> seen[key] < i && Lower(answers[seen[key]].studentId) == key
    {
      var a := answers[i];
      WrongAnswer(answers, i);
      if !SafeIDForFilename(a.studentId) {
        assert FirstWrong(answers, i, UnusableId(i));
        return Some(UnusableId(i));
      }
      var key := Lower(a.studentId);
      if key in seen {
        assert SameId(answers[seen[key]], a);
        assert FirstWrong(answers, i, SharedId(seen[key], i));
        return Some(SharedId(seen[key], i));
      }
      assert forall k :: 0 <= k < i ==> !SameId(answers[k], a);
      seen := seen[key := i];
      e := AnswerError(a, i);
      if e.Some? {
        assert FirstWrong(answers, i, e.value);
        return;
      }
      DistinctSnoc(answers, i);
    }
    assert answers[..|answers|] == answers;
    e := None;
  }

  lemma NoneShared(answers: seq<Answer>)
    ensures DistinctIds(answers[..0])
  {
  }

  // ---- names ----

  function ZeroPadded(s: string, width: nat): (t: string)
    ensures |t| == if |s| < width then width else |s|
  {
    seq(if |s| < width then width - |s| else 0, _ => '0') + s
  }

  function PseudonymWidth(n: nat): nat {
    if |Digits(n)| > 3 then |Digits(n)| else 3
  }

  function Pseudonym(i: nat, width: nat): string {
    "Student " + ZeroPadded(Digits(i + 1), width)
  }

  function ImageName(studentId: string, page: nat, pages: nat): string {
    if pages == 1 then studentId + ".jpg" else studentId + "-p" + Digits(page + 1) + ".jpg"
  }

  function RootDir(p: Input): string
    requires p.problemNumber >= 0
  {
    SlugOf(p.assessmentName) + "-p" + Digits(p.problemNumber)
  }

  // ---- manifest fields ----

  predicate StartsFormula(field: string) {
    field != "" && (field[0] == '=' || field[0] == '+' || field[0] == '-' || field[0] == '@' || field[0] == '\t' || field[0] == '\r')
  }

  function CsvSafe(field: string): (safe: string)
    ensures !StartsFormula(safe)
    ensures safe == field || safe == "'" + field
    ensures !StartsFormula(field) ==> safe == field
  {
    if StartsFormula(field) then "'" + field else field
  }

  function Flat(s: string): (t: string)
    ensures |t| == |s| && '\n' !in t && '\r' !in t
  {
    seq(|s|, i requires 0 <= i < |s| => if s[i] == '\r' || s[i] == '\n' then ' ' else s[i])
  }

  // Flags flattened to one line each, without blanks, each kept where it first occurs.
  function Deduped(flags: seq<string>): seq<string> {
    if flags == [] then []
    else
      var kept, s := Deduped(flags[..|flags| - 1]), Flat(flags[|flags| - 1]);
      if s == "" || s in kept then kept else kept + [s]
  }

  method Dedupe(flags: seq<string>) returns (kept: seq<string>)
    ensures kept == Deduped(flags)
  {
    var seen: set<string> := {};
    kept := [];
    for i := 0 to |flags|
      invariant kept == Deduped(flags[..i])
      invariant forall s :: s in seen <==> s in kept
    {
      assert flags[..i + 1][..i] == flags[..i];
      var s := Flat(flags[i]);
      if s == "" || s in seen {
        continue;
      }
      seen := seen + {s};
      kept := kept + [s];
    }
    assert flags[..|flags|] == flags;
  }

  function JoinFlags(flags: seq<string>): string {
    if flags == [] then "" else if |flags| == 1 then flags[0] else JoinFlags(flags[..|flags| - 1]) + "; " + flags[|flags| - 1]
  }

  // A manifest row: every field of it harmless to a spreadsheet.
  function Row(w: Emitters, a: Answer, alias: string): seq<string> {
    var flags := Deduped(a.flags + w.notes(a));
    [CsvSafe(a.studentId), CsvSafe(alias), CsvSafe(Digits(|a.pages|)), CsvSafe(a.status), CsvSafe(a.source), CsvSafe(a.confidence),
      CsvSafe(JoinFlags(flags))]
  }

  // ---- one problem's tree ----

  function Title(number: nat): string {
    "Problem " + Digits(number)
  }

  function TexFile(w: Emitters, root: string, title: string, a: Answer): Entry {
    Entry(root + "/tex/" + a.studentId + ".tex", true, w.preamble + BEGIN_DOCUMENT + w.tex(a, title) + END_DOCUMENT)
  }

  function TypFile(w: Emitters, root: string, title: string, a: Answer): Entry {
    Entry(root + "/typ/" + a.studentId + ".typ", true, w.typPreamble + w.typ(a, title))
  }

  function ImageFile(root: string, a: Answer, k: nat): Entry
    requires k < |a.pages|
  {
    Entry(root + "/images/" + ImageName(a.studentId, k, |a.pages|), false, a.pages[k])
  }

  function ImageFiles(root: string, a: Answer): (r: seq<Entry>)
    ensures |r| == |a.pages|
  {
    seq(|a.pages|, k requires 0 <= k < |a.pages| => ImageFile(root, a, k))
  }

  function TexFiles(w: Emitters, root: string, title: string, answers: seq<Answer>): (r: seq<Entry>)
    ensures |r| == |answers|
  {
    seq(|answers|, i requires 0 <= i < |answers| => TexFile(w, root, title, answers[i]))
  }

  function TypFiles(w: Emitters, root: string, title: string, answers: seq<Answer>): (r: seq<Entry>)
    ensures |r| == |answers|
  {
    seq(|answers|, i requires 0 <= i < |answers| => TypFile(w, root, title, answers[i]))
  }

  function AllImages(root: string, answers: seq<Answer>): seq<Entry> {
    if answers == [] then [] else AllImages(root, answers[..|answers| - 1]) + ImageFiles(root, answers[|answers| - 1])
  }

  function Rows(w: Emitters, answers: seq<Answer>, width: nat): seq<seq<string>> {
    seq(|answers|, i requires 0 <= i < |answers| => Row(w, answers[i], Pseudonym(i, width)))
  }

  // The sections of the aggregate files: one per answer, under its pseudonym.
  function TexSections(w: Emitters, answers: seq<Answer>, width: nat): string {
    if answers == [] then ""
    else
      var i := |answers| - 1;
      TexSections(w, answers[..i], width) + w.tex(answers[i], Pseudonym(i, width))
  }

  function TypSections(w: Emitters, answers: seq<Answer>, width: nat): string {
    if answers == [] then ""
    else
      var i := |answers| - 1;
      TypSections(w, answers[..i], width) + w.typ(answers[i], Pseudonym(i, width))
  }

  function Verdict(v: string): string {
    if v == "" then "unverified" else v
  }

  function Heads(w: Emitters, p: Input, answers: seq<Answer>, root: string): seq<Entry>
    requires p.problemNumber >= 1
  {
    var width := PseudonymWidth(|answers|);
    [Entry(root + "/_all.tex", true,
           w.heading(p.problemNumber, |answers|) + w.preamble + BEGIN_DOCUMENT + TexSections(w, answers, width) + END_DOCUMENT),
     Entry(root + "/MANIFEST.csv", true, w.manifest(Rows(w, answers, width), Verdict(p.typstVerdict)))]
  }

  function Mirror(w: Emitters, p: Input, answers: seq<Answer>, root: string): Entry
    requires p.problemNumber >= 1
  {
    Entry(root + "/_all.typ", true,
          w.typHeading(p.problemNumber, |answers|) + w.typPreamble + TypSections(w, answers, PseudonymWidth(|answers|)))
  }

  function ProblemEntries(w: Emitters, p: Input, answers: seq<Answer>, prefix: string): seq<Entry>
    requires p.problemNumber >= 1
  {
    var root := prefix + RootDir(p);
    var title := Title(p.problemNumber);
    Heads(w, p, answers, root) + TexFiles(w, root, title, answers) + [Mirror(w, p, answers, root)]
    + TypFiles(w, root, title, answers) + AllImages(root, answers)
  }

  lemma PartsSnoc(w: Emitters, root: string, title: string, answers: seq<Answer>, width: nat, i: nat)
    requires i < |answers|
    ensures TexSections(w, answers[..i + 1], width) == TexSections(w, answers[..i], width) + w.tex(answers[i], Pseudonym(i, width))
    ensures TypSections(w, answers[..i + 1], width) == TypSections(w, answers[..i], width) + w.typ(answers[i], Pseudonym(i, width))
    ensures AllImages(root, answers[..i + 1]) == AllImages(root, answers[..i]) + ImageFiles(root, answers[i])
  {
    assert answers[..i + 1][..i] == answers[..i];
    hide Pseudonym, ImageFiles;
  }

  lemma FilesSnoc(w: Emitters, root: string, title: string, answers: seq<Answer>, width: nat, i: nat)
    requires i < |answers|
    ensures TexFiles(w, root, title, answers[..i + 1]) == TexFiles(w, root, title, answers[..i]) + [TexFile(w, root, title, answers[i])]
    ensures TypFiles(w, root, title, answers[..i + 1]) == TypFiles(w, root, title, answers[..i]) + [TypFile(w, root, title, answers[i])]
    ensures Rows(w, answers[..i + 1], width) == Rows(w, answers[..i], width) + [Row(w, answers[i], Pseudonym(i, width))]
  {
    hide Pseudonym, TexFile, TypFile, Row;
  }

  lemma NoParts(w: Emitters, root: string, title: string, answers: seq<Answer>, width: nat)
    ensures answers[..0] == [] && answers[..|answers|] == answers
    ensures TexSections(w, [], width) == "" && TypSections(w, [], width) == "" && AllImages(root, []) == []
    ensures TexFiles(w, root, title, []) == [] && TypFiles(w, root, title, []) == [] && Rows(w, [], width) == []
  {
  }

  method BuildProblemEntries(w: Emitters, p: Input, answers: seq<Answer>, prefix: string) returns (entries: seq<Entry>)
    requires p.problemNumber >= 1
    ensures entries == ProblemEntries(w, p, answers, prefix)
  {
    hide RootDir, Pseudonym, Row, TexFile, TypFile, TexSections, TypSections, AllImages, TexFiles, TypFiles, Rows, PseudonymWidth, Title;
    var root := prefix + RootDir(p);
    var width := PseudonymWidth(|answers|);
    var title := Title(p.problemNumber);
    var all := w.heading(p.problemNumber, |answers|) + w.preamble + BEGIN_DOCUMENT;
    var allTyp := w.typHeading(p.problemNumber, |answers|) + w.typPreamble;
    ghost var all0, allTyp0 := all, allTyp;
    var rows: seq<seq<string>>, texFiles: seq<Entry>, typFiles: seq<Entry>, imageFiles: seq<Entry> := [], [], [], [];
    NoParts(w, root, title, answers, width);
    for i := 0 to |answers|
      invariant all == all0 + TexSections(w, answers[..i], width)
      invariant allTyp == allTyp0 + TypSections(w, answers[..i], width)
      invariant rows == Rows(w, answers[..i], width)
      invariant texFiles == TexFiles(w, root, title, answers[..i])
      invariant typFiles == TypFiles(w, root, title, answers[..i])
      invariant imageFiles == AllImages(root, answers[..i])
    {
      var a := answers[i];
      PartsSnoc(w, root, title, answers, width, i);
      FilesSnoc(w, root, title, answers, width, i);
      var alias := Pseudonym(i, width);
      texFiles := texFiles + [TexFile(w, root, title, a)];
      all := all + w.tex(a, alias);
      typFiles := typFiles + [TypFile(w, root, title, a)];
      allTyp := allTyp + w.typ(a, alias);
      var images := PageImages(root, a);
      imageFiles := imageFiles + images;
      rows := rows + [Row(w, a, alias)];
    }
    all := all + END_DOCUMENT;
    entries := [Entry(root + "/_all.tex", true, all),
                Entry(root + "/MANIFEST.csv", true, w.manifest(rows, Verdict(p.typstVerdict)))];
    entries := entries + texFiles;
    entries := entries + [Entry(root + "/_all.typ", true, allTyp)];
    entries := entries + typFiles;
    entries := entries + imageFiles;
  }

  method PageImages(root: string, a: Answer) returns (images: seq<Entry>)
    ensures images == ImageFiles(root, a)
  {
    images := [];
    for k := 0 to |a.pages|
      invariant images == ImageFiles(root, a)[..k]
    {
      images := images + [Entry(root + "/images/" + ImageName(a.studentId, k, |a.pages|), false, a.pages[k])];
    }
  }

  // ---- archives ----

  function PageBytes(pages: seq<string>): nat {
    if pages == [] then 0 else PageBytes(pages[..|pages| - 1]) + |pages[|pages| - 1]|
  }

  function RawBytes(answers: seq<Answer>): nat {
    if answers == [] then 0 else RawBytes(answers[..|answers| - 1]) + PageBytes(answers[|answers| - 1].pages)
  }

  function TotalBytes(trees: seq<seq<Answer>>): nat {
    if trees == [] then 0 else TotalBytes(trees[..|trees| - 1]) + RawBytes(trees[|trees| - 1])
  }

  predicate DistinctNumbers(problems: seq<Input>) {
    forall i, j :: 0 <= i < j < |problems| ==> problems[i].problemNumber != problems[j].problemNumber
  }

  function Sorted(problems: seq<Input>): (trees: seq<seq<Answer>>)
    ensures |trees| == |problems|
  {
    seq(|problems|, i requires 0 <= i < |problems| => SortAnswers(problems[i].answers))
  }

  predicate AllValid(problems: seq<Input>) {
    forall i :: 0 <= i < |problems| ==> ValidInput(problems[i])
  }

  predicate ArchiveOk(problems: seq<Input>) {
    AllValid(problems) && DistinctNumbers(problems) && TotalBytes(Sorted(problems)) <= MAX_ZIP_BYTES
  }

  // Every problem's tree under the prefix, in the order given.
  function AllEntries(w: Emitters, problems: seq<Input>, prefix: string): seq<Entry>
    requires AllValid(problems)
  {
    if problems == [] then []
    else
      var n := |problems| - 1;
      AllEntries(w, problems[..n], prefix) + ProblemEntries(w, problems[n], SortAnswers(problems[n].answers), prefix)
  }

  // What an archive is refused for, once every problem is valid on its own.
  predicate ArchiveRefused(problems: seq<Input>, e: ExportError) {
    if !AllValid(problems) then true
    else if !DistinctNumbers(problems) then
      e.RepeatedProblem? && exists i, j :: 0 <= i < j < |problems| && problems[i].problemNumber == problems[j].problemNumber == e.number
    else e == TooLarge(TotalBytes(Sorted(problems))) && TotalBytes(Sorted(problems)) > MAX_ZIP_BYTES
  }

  method ValidateAll(problems: seq<Input>) returns (r: Result<seq<seq<Answer>>, ExportError>)
    ensures r.Ok? <==> AllValid(problems)
    ensures r.Ok? ==> r.value == Sorted(problems)
  {
    hide ValidInput, SortAnswers;
    var valid: seq<seq<Answer>> := [];
    for i := 0 to |problems|
      invariant forall k :: 0 <= k < i ==> ValidInput(problems[k])
      invariant valid == Sorted(problems)[..i]
    {
      var answers := Validated(problems[i]);
      if answers.Err? {
        return Err(answers.error);
      }
      valid := valid + [answers.value];
    }
    r := Ok(valid);
  }

  method FirstRepeat(problems: seq<Input>) returns (r: Option<int>)
    ensures r == None <==> DistinctNumbers(problems)
    ensures r.Some? ==> exists i, j :: 0 <= i < j < |problems| && problems[i].problemNumber == problems[j].problemNumber == r.value
  {
    var seen: set<int> := {};
    for i := 0 to |problems|
      invariant forall n :: n in seen <==> exists k :: 0 <= k < i && problems[k].problemNumber == n
      invariant DistinctNumbers(problems[..i])
    {
      var n := problems[i].problemNumber;
      if n in seen {
        return Some(n);
      }
      seen := seen + {n};
    }
    assert problems[..|problems|] == problems;
    r := None;
  }

  method CountBytes(trees: seq<seq<Answer>>) returns (bytes: nat)
    ensures bytes == TotalBytes(trees)
  {
    bytes := 0;
    for i := 0 to |trees|
      invariant bytes == TotalBytes(trees[..i])
    {
      assert trees[..i + 1][..i] == trees[..i];
      ghost var before := bytes;
      for j := 0 to |trees[i]|
        invariant bytes == before + RawBytes(trees[i][..j])
      {
        assert trees[i][..j + 1][..j] == trees[i][..j];
        var pages := trees[i][j].pages;
        ghost var start := bytes;
        for k := 0 to |pages|
          invariant bytes == start + PageBytes(pages[..k])
        {
          assert pages[..k + 1][..k] == pages[..k];
          bytes := bytes + |pages[k]|;
        }
        assert pages[..|pages|] == pages;
      }
      assert trees[i][..|trees[i]|] == trees[i];
    }
    assert trees[..|trees|] == trees;
  }

  // Validate everything, refuse repeated problems, check the size, then list each tree.
  method BuildArchive(w: Emitters, problems: seq<Input>, prefix: string) returns (r: Result<seq<Entry>, ExportError>)
    ensures r.Ok? <==> ArchiveOk(problems)
    ensures r.Ok? ==> r.value == AllEntries(w, problems, prefix)
    ensures r.Err? ==> ArchiveRefused(problems, r.error)
  {
    hide ValidInput, SortAnswers, ProblemEntries, TotalBytes, DistinctNumbers;
    var valid := ValidateAll(problems);
    if valid.Err? {
      return Err(valid.error);
    }
    var repeat := FirstRepeat(problems);
    if repeat.Some? {
      return Err(RepeatedProblem(repeat.value));
    }
    var rawBytes := CountBytes(valid.value);
    if rawBytes > MAX_ZIP_BYTES {
      return Err(TooLarge(rawBytes));
    }
    var entries: seq<Entry> := [];
    for i := 0 to |problems|
      invariant AllValid(problems[..i]) && entries == AllEntries(w, problems[..i], prefix)
    {
      assert problems[..i + 1][..i] == problems[..i];
      NumberAtLeastOne(problems[i]);
      var es := BuildProblemEntries(w, problems[i], valid.value[i], prefix);
      entries := entries + es;
    }
    assert problems[..|problems|] == problems;
    r := Ok(entries);
  }

  lemma NumberAtLeastOne(p: Input)
    requires ValidInput(p)
    ensures p.problemNumber >= 1
  {
  }

  method BuildZIP(w: Emitters, p: Input) returns (r: Result<seq<Entry>, ExportError>)
    ensures r.Ok? <==> ArchiveOk([p])
    ensures r.Ok? ==> r.value == AllEntries(w, [p], "")
  {
    r := BuildArchive(w, [p], "");
  }

  // ---- the whole exam ----

  predicate ProblemBefore(a: Input, b: Input) {
    a.problemNumber < b.problemNumber
  }

  function Named(problems: seq<Input>, name: string): (r: seq<Input>)
    ensures |r| == |problems|
  {
    seq(|problems|, i requires 0 <= i < |problems| => problems[i].(assessmentName := name))
  }

  function ExamProblems(problems: seq<Input>, name: string): seq<Input> {
    SortBy(Named(problems, name), ProblemBefore)
  }

  method BuildExamZIP(w: Emitters, name: string, problems: seq<Input>) returns (r: Result<seq<Entry>, ExportError>)
    ensures r.Ok? <==> problems != [] && ArchiveOk(ExamProblems(problems, name))
    ensures r.Ok? ==> r.value == AllEntries(w, ExamProblems(problems, name), SlugOf(name) + "/")
  {
    hide AllEntries, ArchiveOk, SlugOf;
    if |problems| == 0 {
      return Err(NoProblems);
    }
    var renamed: seq<Input> := [];
    for i := 0 to |problems|
      invariant renamed == Named(problems, name)[..i]
    {
      renamed := renamed + [problems[i].(assessmentName := name)];
    }
    assert renamed == Named(problems, name);
    var root := Slug.Slug(name);
    r := BuildArchive(w, SortBy(renamed, ProblemBefore), root + "/");
  }
}
