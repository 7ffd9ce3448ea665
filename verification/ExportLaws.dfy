/** What an export promises: the same archive whatever order its parts came in, the exam archive
    made of the per-problem ones, and exactly when no two files share a name. */
module ExportLaws {
  import opened Wrappers
  import opened Numerals
  import opened Seqs
  import opened Ordering
  import opened Strings
  import opened Slug
  import opened Export

  // ---- any order ----

  lemma AnswersOrder()
    ensures Orders(AnswerBefore)
  {
    forall a: Answer, b: Answer | AnswerBefore(a, b)
      ensures !AnswerBefore(b, a)
    {
      BeforeTotal(a.studentId, b.studentId);
    }
    forall a: Answer, b: Answer, c: Answer | !AnswerBefore(a, b) && !AnswerBefore(b, c)
      ensures !AnswerBefore(a, c)
    {
      BeforeTotal(a.studentId, b.studentId);
      BeforeTotal(b.studentId, c.studentId);
      BeforeTotal(a.studentId, c.studentId);
      if AnswerBefore(a, c) {
        if Before(b.studentId, a.studentId) {
          BeforeTransitive(b.studentId, a.studentId, c.studentId);
        }
      }
    }
  }

  predicate OtherId(a: Answer, b: Answer) {
    !SameId(a, b)
  }

  lemma DistinctAreApart(answers: seq<Answer>)
    requires DistinctIds(answers)
    ensures Apart(answers, AnswerBefore) && Apart(answers, OtherId)
  {
    forall i, j | 0 <= i < j < |answers|
      ensures AnswerBefore(answers[i], answers[j]) || AnswerBefore(answers[j], answers[i])
    {
      BeforeTotal(answers[i].studentId, answers[j].studentId);
      assert !SameId(answers[i], answers[j]);
    }
    hide SameId;
  }

  lemma ApartAreDistinct(answers: seq<Answer>)
    requires Apart(answers, OtherId)
    ensures DistinctIds(answers)
  {
    forall i, j | 0 <= i < j < |answers|
      ensures !SameId(answers[i], answers[j])
    {
      SameIdSymmetric(answers[i], answers[j]);
    }
    hide SameId;
  }

  lemma SameIdSymmetric(a: Answer, b: Answer)
    ensures SameId(a, b) <==> SameId(b, a)
  {
  }

  function Answered(p: Input, answers: seq<Answer>): Input {
    p.(answers := answers)
  }

  // The answers of one problem in another order: still valid, and sorted alike.
  lemma ProblemAnyOrder(p: Input, answers: seq<Answer>)
    requires ValidInput(p) && multiset(p.answers) == multiset(answers)
    ensures ValidInput(Answered(p, answers))
    ensures SortAnswers(p.answers) == SortAnswers(answers)
  {
    hide GoodAnswer, SameId, GoodVerdict, SortBy;
    assert |multiset(p.answers)| == |p.answers| && |multiset(answers)| == |answers|;
    DistinctAreApart(p.answers);
    AnswersOrder();
    SortAnyOrder(p.answers, answers, AnswerBefore);
    ApartPermuted(p.answers, answers, OtherId);
    ApartAreDistinct(answers);
    forall i | 0 <= i < |answers|
      ensures GoodAnswer(answers[i])
    {
      InBag(answers, multiset(p.answers), i);
      var k := PlaceOf(p.answers, answers[i]);
    }
  }

  // The problems of an archive with their answers in another order.
  ghost predicate Reshuffled(problems: seq<Input>, problems': seq<Input>) {
    |problems| == |problems'|
    && forall i :: 0 <= i < |problems| ==>
         problems'[i] == Answered(problems[i], problems'[i].answers) && multiset(problems[i].answers) == multiset(problems'[i].answers)
  }

  lemma ReshuffledOk(problems: seq<Input>, problems': seq<Input>)
    requires ArchiveOk(problems) && Reshuffled(problems, problems')
    ensures ArchiveOk(problems') && Sorted(problems) == Sorted(problems')
  {
    hide ValidInput, SortAnswers, TotalBytes;
    forall i | 0 <= i < |problems'|
      ensures ValidInput(problems'[i]) && Sorted(problems)[i] == Sorted(problems')[i]
    {
      ProblemAnyOrder(problems[i], problems'[i].answers);
    }
    assert Sorted(problems) == Sorted(problems');
  }

  lemma LastEntries(w: Emitters, problems: seq<Input>, prefix: string)
    requires AllValid(problems) && problems != []
    ensures var n := |problems| - 1;
            && problems[n].problemNumber >= 1 && AllValid(problems[..n])
            && AllEntries(w, problems, prefix)
               == AllEntries(w, problems[..n], prefix) + ProblemEntries(w, problems[n], SortAnswers(problems[n].answers), prefix)
  {
    hide ProblemEntries, SortAnswers;
    assert ValidInput(problems[|problems| - 1]);
  }

  lemma ReshuffledPrefix(problems: seq<Input>, problems': seq<Input>)
    requires problems != [] && Reshuffled(problems, problems') && Sorted(problems) == Sorted(problems')
    ensures var n := |problems| - 1;
            && Reshuffled(problems[..n], problems'[..n]) && Sorted(problems[..n]) == Sorted(problems'[..n])
            && problems'[n] == Answered(problems[n], problems'[n].answers)
            && SortAnswers(problems[n].answers) == SortAnswers(problems'[n].answers)
  {
    hide SortAnswers;
    var n := |problems| - 1;
    assert Sorted(problems)[n] == Sorted(problems')[n];
    assert Sorted(problems[..n]) == Sorted(problems)[..n] && Sorted(problems'[..n]) == Sorted(problems')[..n];
  }

  lemma {:induction false} ReshuffledEntries(w: Emitters, problems: seq<Input>, problems': seq<Input>, prefix: string)
    requires AllValid(problems) && AllValid(problems') && Reshuffled(problems, problems') && Sorted(problems) == Sorted(problems')
    ensures AllEntries(w, problems, prefix) == AllEntries(w, problems', prefix)
  {
    assert |problems| == |problems'|;
    if problems != [] {
      var n := |problems| - 1;
      LastEntries(w, problems, prefix);
      LastEntries(w, problems', prefix);
      ReshuffledPrefix(problems, problems');
      hide AllEntries, ProblemEntries, ValidInput, SortAnswers, AllValid, Reshuffled, Sorted;
      SameEntries(w, problems[n], problems'[n].answers, prefix);
      ReshuffledEntries(w, problems[..n], problems'[..n], prefix);
    }
  }

  lemma SameEntries(w: Emitters, p: Input, answers: seq<Answer>, prefix: string)
    requires p.problemNumber >= 1
    ensures forall sorted :: ProblemEntries(w, p, sorted, prefix) == ProblemEntries(w, Answered(p, answers), sorted, prefix)
  {
    hide TexSections, TypSections, TexFiles, TypFiles, AllImages, Rows, SlugOf, Digits;
  }

  // A per-problem or exam archive does not depend on the order of any problem's answers.
  lemma ArchiveAnyAnswerOrder(w: Emitters, problems: seq<Input>, problems': seq<Input>, prefix: string)
    requires ArchiveOk(problems) && Reshuffled(problems, problems')
    ensures ArchiveOk(problems') && AllEntries(w, problems, prefix) == AllEntries(w, problems', prefix)
  {
    ReshuffledOk(problems, problems');
    hide ValidInput, AllEntries, Sorted, Reshuffled;
    ReshuffledEntries(w, problems, problems', prefix);
  }

  function Rename(name: string): Input -> seq<Input> {
    (p: Input) => [p.(assessmentName := name)]
  }

  lemma {:induction false} NamedAsMap(problems: seq<Input>, name: string)
    ensures Named(problems, name) == FlatMap(problems, Rename(name))
  {
    if problems != [] {
      var n := |problems| - 1;
      NamedAsMap(problems[..n], name);
      assert Named(problems, name) == Named(problems[..n], name) + [problems[n].(assessmentName := name)];
    }
  }

  lemma NumbersOrder()
    ensures Orders(ProblemBefore)
  {
  }

  // Nor on the order of its problems.
  lemma ExamAnyProblemOrder(problems: seq<Input>, problems': seq<Input>, name: string)
    requires multiset(problems) == multiset(problems') && ArchiveOk(ExamProblems(problems, name))
    ensures ExamProblems(problems, name) == ExamProblems(problems', name)
  {
    var a, b := Named(problems, name), Named(problems', name);
    NamedAsMap(problems, name);
    NamedAsMap(problems', name);
    FlatMapPermuted(problems, problems', Rename(name));
    NumbersOrder();
    SortSorts(a, ProblemBefore);
    assert Apart(ExamProblems(problems, name), ProblemBefore);
    hide SortBy, Named, FlatMap, ArchiveOk;
    ApartPermuted(ExamProblems(problems, name), a, ProblemBefore);
    SortAnyOrder(a, b, ProblemBefore);
  }

  // ---- the exam archive is made of the per-problem ones ----

  function Under(entries: seq<Entry>, prefix: string): (r: seq<Entry>)
    ensures |r| == |entries|
  {
    seq(|entries|, i requires 0 <= i < |entries| => entries[i].(name := prefix + entries[i].name))
  }

  lemma UnderConcat(a: seq<Entry>, b: seq<Entry>, prefix: string)
    ensures Under(a + b, prefix) == Under(a, prefix) + Under(b, prefix)
  {
  }

  lemma {:induction false} ImagesUnder(root: string, answers: seq<Answer>, prefix: string)
    ensures AllImages(prefix + root, answers) == Under(AllImages(root, answers), prefix)
  {
    if answers != [] {
      var n := |answers| - 1;
      ImagesUnder(root, answers[..n], prefix);
      UnderConcat(AllImages(root, answers[..n]), ImageFiles(root, answers[n]), prefix);
      ImageFilesUnder(root, answers[n], prefix);
      hide ImageFiles, Under;
    }
  }

  lemma ImageFilesUnder(root: string, a: Answer, prefix: string)
    ensures ImageFiles(prefix + root, a) == Under(ImageFiles(root, a), prefix)
  {
    forall k | 0 <= k < |a.pages|
      ensures ImageFile(prefix + root, a, k) == ImageFile(root, a, k).(name := prefix + ImageFile(root, a, k).name)
    {
      hide ImageName;
      Regroup(prefix, root, "/images/" + ImageName(a.studentId, k, |a.pages|));
      assert (prefix + root) + "/images/" + ImageName(a.studentId, k, |a.pages|) == prefix + (root + "/images/" + ImageName(a.studentId, k, |a.pages|));
    }
    hide ImageFile;
  }

  lemma Regroup(a: string, b: string, c: string)
    ensures (a + b) + c == a + (b + c)
  {
  }

  lemma FileUnder(root: string, prefix: string, dir: string, id: string, ext: string)
    ensures (prefix + root) + dir + id + ext == prefix + (root + dir + id + ext)
  {
    assert (prefix + root) + dir == prefix + (root + dir);
    assert (prefix + (root + dir)) + id == prefix + ((root + dir) + id);
    assert (prefix + ((root + dir) + id)) + ext == prefix + (((root + dir) + id) + ext);
  }

  lemma FilesUnder(w: Emitters, root: string, title: string, answers: seq<Answer>, prefix: string)
    ensures TexFiles(w, prefix + root, title, answers) == Under(TexFiles(w, root, title, answers), prefix)
    ensures TypFiles(w, prefix + root, title, answers) == Under(TypFiles(w, root, title, answers), prefix)
  {
    forall i | 0 <= i < |answers|
      ensures TexFile(w, prefix + root, title, answers[i]) == TexFile(w, root, title, answers[i]).(name := prefix + TexFile(w, root, title, answers[i]).name)
      ensures TypFile(w, prefix + root, title, answers[i]) == TypFile(w, root, title, answers[i]).(name := prefix + TypFile(w, root, title, answers[i]).name)
    {
      FileUnder(root, prefix, "/tex/", answers[i].studentId, ".tex");
      FileUnder(root, prefix, "/typ/", answers[i].studentId, ".typ");
    }
    hide TexFile, TypFile;
  }

  lemma HeadsUnder(w: Emitters, p: Input, answers: seq<Answer>, root: string, prefix: string)
    requires p.problemNumber >= 1
    ensures Heads(w, p, answers, prefix + root) == Under(Heads(w, p, answers, root), prefix)
    ensures [Mirror(w, p, answers, prefix + root)] == Under([Mirror(w, p, answers, root)], prefix)
  {
    hide TexSections, TypSections, Rows, PseudonymWidth;
    Regroup(prefix, root, "/_all.tex");
    Regroup(prefix, root, "/MANIFEST.csv");
    Regroup(prefix, root, "/_all.typ");
  }

  // A problem's tree under a prefix is its tree with every name prefixed.
  lemma TreeUnder(w: Emitters, p: Input, answers: seq<Answer>, prefix: string)
    requires p.problemNumber >= 1
    ensures ProblemEntries(w, p, answers, prefix) == Under(ProblemEntries(w, p, answers, ""), prefix)
  {
    var root := RootDir(p);
    var title := Title(p.problemNumber);
    assert "" + root == root;
    hide RootDir, TexFiles, TypFiles, AllImages, Heads, Mirror, Under, Title;
    FilesUnder(w, root, title, answers, prefix);
    ImagesUnder(root, answers, prefix);
    HeadsUnder(w, p, answers, root, prefix);
    var heads, typ := Heads(w, p, answers, root), [Mirror(w, p, answers, root)];
    var tex, typs, images := TexFiles(w, root, title, answers), TypFiles(w, root, title, answers), AllImages(root, answers);
    UnderConcat(heads, tex, prefix);
    UnderConcat(heads + tex, typ, prefix);
    UnderConcat(heads + tex + typ, typs, prefix);
    UnderConcat(heads + tex + typ + typs, images, prefix);
  }

  // The per-problem archives side by side, each under the prefix.
  function Bundle(w: Emitters, problems: seq<Input>, prefix: string): seq<Entry>
    requires AllValid(problems)
  {
    if problems == [] then []
    else
      var n := |problems| - 1;
      Bundle(w, problems[..n], prefix) + Under(AllEntries(w, [problems[n]], ""), prefix)
  }

  lemma AloneEntries(w: Emitters, p: Input)
    requires ValidInput(p)
    ensures AllEntries(w, [p], "") == ProblemEntries(w, p, SortAnswers(p.answers), "")
  {
    hide ProblemEntries, SortAnswers, ValidInput;
    assert [p][..0] == [];
  }

  lemma {:induction false} ArchiveIsBundle(w: Emitters, problems: seq<Input>, prefix: string)
    requires AllValid(problems)
    ensures AllEntries(w, problems, prefix) == Bundle(w, problems, prefix)
  {
    if problems != [] {
      var n := |problems| - 1;
      LastEntries(w, problems, prefix);
      hide ProblemEntries, SortAnswers, Under;
      AloneEntries(w, problems[n]);
      TreeUnder(w, problems[n], SortAnswers(problems[n].answers), prefix);
      hide AllEntries, ValidInput;
      ArchiveIsBundle(w, problems[..n], prefix);
    }
  }

  lemma {:induction false} BytesWithin(trees: seq<seq<Answer>>, i: nat)
    requires i < |trees|
    ensures RawBytes(trees[i]) <= TotalBytes(trees)
  {
    hide RawBytes;
    if i < |trees| - 1 {
      BytesWithin(trees[..|trees| - 1], i);
    }
  }

  // A whole-exam archive is its problems' own archives, in problem order, under the exam's slug;
  // and each of those problems exports on its own.
  lemma ExamIsItsProblems(w: Emitters, problems: seq<Input>, name: string)
    requires ArchiveOk(ExamProblems(problems, name))
    ensures var sorted := ExamProblems(problems, name);
            && AllEntries(w, sorted, SlugOf(name) + "/") == Bundle(w, sorted, SlugOf(name) + "/")
            && (forall i :: 0 <= i < |sorted| ==> ArchiveOk([sorted[i]]))
            && InOrder(sorted, ProblemBefore) && multiset(sorted) == multiset(Named(problems, name))
  {
    var sorted := ExamProblems(problems, name);
    NumbersOrder();
    SortSorts(Named(problems, name), ProblemBefore);
    hide SortBy, SortAnswers, ValidInput, Bundle, AllEntries, SlugOf, Named;
    ArchiveIsBundle(w, sorted, SlugOf(name) + "/");
    hide ArchiveOk;
    forall i | 0 <= i < |sorted|
      ensures ArchiveOk([sorted[i]])
    {
      TreeAlone(sorted, i);
    }
  }

  lemma TreeAlone(problems: seq<Input>, i: nat)
    requires ArchiveOk(problems) && i < |problems|
    ensures ArchiveOk([problems[i]])
  {
    hide SortAnswers, ValidInput, TotalBytes;
    BytesWithin(Sorted(problems), i);
    assert Sorted([problems[i]]) == [Sorted(problems)[i]];
    OneTree(Sorted(problems)[i]);
  }

  lemma OneTree(answers: seq<Answer>)
    ensures TotalBytes([answers]) == RawBytes(answers)
  {
    hide RawBytes;
    assert [answers][..0] == [];
  }
}
