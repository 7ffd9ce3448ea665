/** When no two files of an archive share a name. */
module ExportNames {
  import opened Numerals
  import opened Seqs
  import opened Ordering
  import opened Strings
  import opened Slug
  import opened Export
  import opened ExportLaws

  predicate Distinct(xs: seq<string>) {
    forall i, j :: 0 <= i < j < |xs| ==> xs[i] != xs[j]
  }

  function Names(entries: seq<Entry>): (names: seq<string>)
    ensures |names| == |entries|
  {
    seq(|entries|, i requires 0 <= i < |entries| => entries[i].name)
  }

  predicate NoneShared(xs: seq<string>, ys: seq<string>) {
    forall i, j :: 0 <= i < |xs| && 0 <= j < |ys| ==> xs[i] != ys[j]
  }

  lemma DistinctConcat(xs: seq<string>, ys: seq<string>)
    ensures Distinct(xs + ys) <==> Distinct(xs) && Distinct(ys) && NoneShared(xs, ys)
  {
    var zs := xs + ys;
    if Distinct(zs) {
      assert forall j :: 0 <= j < |ys| ==> zs[|xs| + j] == ys[j];
      assert forall i :: 0 <= i < |xs| ==> zs[i] == xs[i];
      forall i, j | 0 <= i < j < |ys|
        ensures ys[i] != ys[j]
      {
        assert zs[|xs| + i] != zs[|xs| + j];
      }
      forall i, j | 0 <= i < |xs| && 0 <= j < |ys|
        ensures xs[i] != ys[j]
      {
        assert zs[i] != zs[|xs| + j];
      }
      forall i, j | 0 <= i < j < |xs|
        ensures xs[i] != xs[j]
      {
        assert zs[i] != zs[j];
      }
    }
  }

  lemma NamesConcat(a: seq<Entry>, b: seq<Entry>)
    ensures Names(a + b) == Names(a) + Names(b)
  {
  }

  // ---- strings ----

  lemma SameTail(a: string, x: string, y: string)
    ensures a + x == a + y <==> x == y
  {
    if a + x == a + y {
      assert (a + x)[|a|..] == x && (a + y)[|a|..] == y;
    }
  }

  lemma SameHead(x: string, y: string, b: string)
    ensures x + b == y + b <==> x == y
  {
    if x + b == y + b {
      assert |x| == |y|;
      assert (x + b)[..|x|] == x && (y + b)[..|y|] == y;
    }
  }

  lemma PageTail(x: string, d: string)
    requires AllDigits(d)
    ensures var s := x + "-p" + d;
            s[|x| + 1] == 'p' && (forall i :: |x| + 2 <= i < |s| ==> IsDigit(s[i])) && s[..|x|] == x && s[|x| + 2..] == d
  {
  }

  // The digits after the last "-p" are all there is after it.
  lemma PageSuffix(x: string, d: string, y: string, e: string)
    requires AllDigits(d) && AllDigits(e) && x + "-p" + d == y + "-p" + e
    ensures x == y && d == e
  {
    PageTail(x, d);
    PageTail(y, e);
    assert |x| == |y|;
  }

  lemma DigitsDiffer(m: nat, n: nat)
    requires Digits(m) == Digits(n)
    ensures m == n
  {
    hide Digits;
    DigitsRoundTrip(m);
    DigitsRoundTrip(n);
  }

  // ---- page images ----

  // A page of several, named after its student.
  function PageId(b: Answer, k: nat): string {
    b.studentId + "-p" + Digits(k + 1)
  }

  // One student's single page is named like a page of another's.
  predicate PageClash(a: Answer, b: Answer) {
    |a.pages| == 1 && |b.pages| >= 2
    && exists k: nat :: k < |b.pages| && a.studentId == PageId(b, k)
  }

  predicate SameImage(a: Answer, k: nat, b: Answer, l: nat) {
    k < |a.pages| && l < |b.pages| && ImageName(a.studentId, k, |a.pages|) == ImageName(b.studentId, l, |b.pages|)
  }

  ghost predicate SharesImage(a: Answer, b: Answer) {
    exists k: nat, l: nat :: SameImage(a, k, b, l)
  }

  lemma ImageNamesAlike(a: Answer, k: nat, b: Answer, l: nat)
    requires k < |a.pages| && l < |b.pages|
    ensures ImageName(a.studentId, k, |a.pages|) == ImageName(b.studentId, l, |b.pages|) <==>
            (a.studentId == b.studentId && |a.pages| == 1 && |b.pages| == 1)
            || (a.studentId == b.studentId && k == l && |a.pages| != 1 && |b.pages| != 1)
            || (|a.pages| == 1 && |b.pages| != 1 && a.studentId == PageId(b, l))
            || (|b.pages| == 1 && |a.pages| != 1 && b.studentId == PageId(a, k))
  {
    var x := if |a.pages| == 1 then a.studentId else a.studentId + "-p" + Digits(k + 1);
    var y := if |b.pages| == 1 then b.studentId else b.studentId + "-p" + Digits(l + 1);
    SameHead(x, y, ".jpg");
    if |a.pages| != 1 && |b.pages| != 1 && x == y {
      PageSuffix(a.studentId, Digits(k + 1), b.studentId, Digits(l + 1));
      DigitsDiffer(k + 1, l + 1);
    }
    hide Digits;
  }

  lemma SharesImageIff(a: Answer, b: Answer)
    requires a.studentId != b.studentId
    ensures SharesImage(a, b) <==> PageClash(a, b) || PageClash(b, a)
  {
    hide ImageName, Digits;
    forall k: nat, l: nat | SameImage(a, k, b, l)
      ensures PageClash(a, b) || PageClash(b, a)
    {
      ImageNamesAlike(a, k, b, l);
    }
    if PageClash(a, b) {
      var k: nat :| k < |b.pages| && a.studentId == PageId(b, k);
      ImageNamesAlike(a, 0, b, k);
      assert SameImage(a, 0, b, k);
    }
    if PageClash(b, a) {
      var k: nat :| k < |a.pages| && b.studentId == PageId(a, k);
      ImageNamesAlike(a, k, b, 0);
      assert SameImage(a, k, b, 0);
    }
  }

  // ---- the images of a tree ----

  function ImageTails(a: Answer): (r: seq<string>)
    ensures |r| == |a.pages|
  {
    seq(|a.pages|, k requires 0 <= k < |a.pages| => "images/" + ImageName(a.studentId, k, |a.pages|))
  }

  function AllImageTails(answers: seq<Answer>): seq<string> {
    if answers == [] then [] else AllImageTails(answers[..|answers| - 1]) + ImageTails(answers[|answers| - 1])
  }

  lemma OwnImagesDiffer(a: Answer)
    ensures Distinct(ImageTails(a))
  {
    forall k, l | 0 <= k < l < |a.pages|
      ensures ImageTails(a)[k] != ImageTails(a)[l]
    {
      ImageNamesAlike(a, k, a, l);
      LongerThan(a.studentId, "-p" + Digits(l + 1));
      SameTail("images/", ImageName(a.studentId, k, |a.pages|), ImageName(a.studentId, l, |a.pages|));
    }
    hide ImageName, Digits;
  }

  lemma LongerThan(x: string, y: string)
    requires y != ""
    ensures x != x + y
  {
    assert |x + y| > |x|;
  }

  lemma ImagesShared(a: Answer, b: Answer)
    ensures NoneShared(ImageTails(a), ImageTails(b)) <==> !SharesImage(a, b)
  {
    hide ImageName;
    forall k: nat, l: nat | k < |a.pages| && l < |b.pages|
      ensures ImageTails(a)[k] == ImageTails(b)[l] <==> SameImage(a, k, b, l)
    {
      SameTail("images/", ImageName(a.studentId, k, |a.pages|), ImageName(b.studentId, l, |b.pages|));
    }
    if SharesImage(a, b) {
      var k: nat, l: nat :| SameImage(a, k, b, l);
      assert ImageTails(a)[k] == ImageTails(b)[l];
    }
  }

  lemma NoneSharedConcat(xs: seq<string>, ys: seq<string>, zs: seq<string>)
    ensures NoneShared(xs + ys, zs) <==> NoneShared(xs, zs) && NoneShared(ys, zs)
  {
    var xys := xs + ys;
    if NoneShared(xys, zs) {
      forall i, j | 0 <= i < |xs| && 0 <= j < |zs|
        ensures xs[i] != zs[j]
      {
        assert xys[i] != zs[j];
      }
      forall i, j | 0 <= i < |ys| && 0 <= j < |zs|
        ensures ys[i] != zs[j]
      {
        assert xys[|xs| + i] != zs[j];
      }
    }
  }

  ghost predicate NoneSharesWith(answers: seq<Answer>, b: Answer) {
    forall i :: 0 <= i < |answers| ==> !SharesImage(answers[i], b)
  }

  lemma SharesSnoc(answers: seq<Answer>, b: Answer)
    requires answers != []
    ensures var n := |answers| - 1;
            NoneSharesWith(answers, b) <==> NoneSharesWith(answers[..n], b) && !SharesImage(answers[n], b)
  {
    hide SharesImage;
  }

  lemma {:induction false} AllImagesShared(answers: seq<Answer>, b: Answer)
    ensures NoneShared(AllImageTails(answers), ImageTails(b)) <==> NoneSharesWith(answers, b)
  {
    if answers != [] {
      var n := |answers| - 1;
      assert AllImageTails(answers) == AllImageTails(answers[..n]) + ImageTails(answers[n]);
      hide *;
      AllImagesShared(answers[..n], b);
      ImagesShared(answers[n], b);
      NoneSharedConcat(AllImageTails(answers[..n]), ImageTails(answers[n]), ImageTails(b));
      SharesSnoc(answers, b);
    }
  }

  ghost predicate NoSharedImages(answers: seq<Answer>) {
    forall i, j :: 0 <= i < j < |answers| ==> !SharesImage(answers[i], answers[j])
  }

  lemma {:induction false} DistinctImages(answers: seq<Answer>)
    ensures Distinct(AllImageTails(answers)) <==> NoSharedImages(answers)
  {
    hide SharesImage, ImageTails, NoneShared, Distinct;
    if answers == [] {
      NothingDistinct();
    } else {
      var n := |answers| - 1;
      DistinctImages(answers[..n]);
      OwnImagesDiffer(answers[n]);
      AllImagesShared(answers[..n], answers[n]);
      DistinctConcat(AllImageTails(answers[..n]), ImageTails(answers[n]));
      assert AllImageTails(answers) == AllImageTails(answers[..n]) + ImageTails(answers[n]);
      SharedSnoc(answers);
      hide AllImageTails, NoSharedImages, NoneSharesWith;
    }
  }

  lemma NothingDistinct()
    ensures Distinct(AllImageTails([]))
  {
  }

  lemma SharedSnoc(answers: seq<Answer>)
    requires answers != []
    ensures var n := |answers| - 1;
            NoSharedImages(answers) <==>
            NoSharedImages(answers[..n]) && NoneSharesWith(answers[..n], answers[n])
  {
    hide SharesImage;
  }

  // ---- the whole tree ----

  function TexTails(answers: seq<Answer>): (r: seq<string>)
    ensures |r| == |answers|
  {
    seq(|answers|, i requires 0 <= i < |answers| => "tex/" + answers[i].studentId + ".tex")
  }

  function TypTails(answers: seq<Answer>): (r: seq<string>)
    ensures |r| == |answers|
  {
    seq(|answers|, i requires 0 <= i < |answers| => "typ/" + answers[i].studentId + ".typ")
  }

  // The names inside a problem's directory.
  function Tails(answers: seq<Answer>): seq<string> {
    ["_all.tex", "MANIFEST.csv"] + TexTails(answers) + ["_all.typ"] + TypTails(answers) + AllImageTails(answers)
  }

  function In(dir: string, tails: seq<string>): (r: seq<string>)
    ensures |r| == |tails|
  {
    seq(|tails|, i requires 0 <= i < |tails| => dir + tails[i])
  }

  lemma InConcat(dir: string, xs: seq<string>, ys: seq<string>)
    ensures In(dir, xs + ys) == In(dir, xs) + In(dir, ys)
  {
  }

  lemma InDistinct(dir: string, tails: seq<string>)
    ensures Distinct(In(dir, tails)) <==> Distinct(tails)
  {
    forall i, j | 0 <= i < j < |tails|
      ensures In(dir, tails)[i] == In(dir, tails)[j] <==> tails[i] == tails[j]
    {
      SameTail(dir, tails[i], tails[j]);
    }
    if Distinct(In(dir, tails)) {
      forall i, j | 0 <= i < j < |tails|
        ensures tails[i] != tails[j]
      {
        assert In(dir, tails)[i] != In(dir, tails)[j];
      }
    }
  }

  lemma ImageNamesIn(root: string, a: Answer)
    ensures Names(ImageFiles(root, a)) == In(root + "/", ImageTails(a))
  {
    hide ImageName;
    forall k | 0 <= k < |a.pages|
      ensures Names(ImageFiles(root, a))[k] == In(root + "/", ImageTails(a))[k]
    {
      var image := ImageName(a.studentId, k, |a.pages|);
      assert (root + "/images/") + image == (root + "/") + ("images/" + image);
    }
  }

  lemma {:induction false} AllImageNamesIn(root: string, answers: seq<Answer>)
    ensures Names(AllImages(root, answers)) == In(root + "/", AllImageTails(answers))
  {
    if answers != [] {
      var n := |answers| - 1;
      AllImageNamesIn(root, answers[..n]);
      ImageNamesIn(root, answers[n]);
      NamesConcat(AllImages(root, answers[..n]), ImageFiles(root, answers[n]));
      InConcat(root + "/", AllImageTails(answers[..n]), ImageTails(answers[n]));
      hide Names, In, ImageFiles, ImageTails;
    }
  }

  lemma FileNamesIn(w: Emitters, root: string, title: string, answers: seq<Answer>)
    ensures Names(TexFiles(w, root, title, answers)) == In(root + "/", TexTails(answers))
    ensures Names(TypFiles(w, root, title, answers)) == In(root + "/", TypTails(answers))
  {
    forall i | 0 <= i < |answers|
      ensures Names(TexFiles(w, root, title, answers))[i] == In(root + "/", TexTails(answers))[i]
      ensures Names(TypFiles(w, root, title, answers))[i] == In(root + "/", TypTails(answers))[i]
    {
      var id := answers[i].studentId;
      FileIn(root, "tex/", id, ".tex");
      FileIn(root, "typ/", id, ".typ");
      assert root + "/tex/" == root + ("/" + "tex/") && root + "/typ/" == root + ("/" + "typ/");
    }
  }

  lemma FileIn(root: string, dir: string, id: string, ext: string)
    ensures root + ("/" + dir) + id + ext == (root + "/") + (dir + id + ext)
  {
  }

  lemma HeadNamesIn(w: Emitters, p: Input, answers: seq<Answer>, root: string)
    requires p.problemNumber >= 1
    ensures Names(Heads(w, p, answers, root)) == In(root + "/", ["_all.tex", "MANIFEST.csv"])
    ensures Names([Mirror(w, p, answers, root)]) == In(root + "/", ["_all.typ"])
  {
    hide TexSections, TypSections, Rows;
    assert root + "/_all.tex" == (root + "/") + "_all.tex";
    assert root + "/MANIFEST.csv" == (root + "/") + "MANIFEST.csv";
    assert root + "/_all.typ" == (root + "/") + "_all.typ";
  }

  // Every name of a tree lies in its problem's directory.
  lemma TreeNames(w: Emitters, p: Input, answers: seq<Answer>, prefix: string)
    requires p.problemNumber >= 1
    ensures Names(ProblemEntries(w, p, answers, prefix)) == In(prefix + RootDir(p) + "/", Tails(answers))
  {
    var root := prefix + RootDir(p);
    var title := Title(p.problemNumber);
    var heads, typ := Heads(w, p, answers, root), [Mirror(w, p, answers, root)];
    var tex, typs, images := TexFiles(w, root, title, answers), TypFiles(w, root, title, answers), AllImages(root, answers);
    var h, x, m, y, i := ["_all.tex", "MANIFEST.csv"], TexTails(answers), ["_all.typ"], TypTails(answers), AllImageTails(answers);
    hide RootDir, TexFiles, TypFiles, AllImages, Heads, Mirror, Title, Names, In, TexTails, TypTails, AllImageTails;
    HeadNamesIn(w, p, answers, root);
    FileNamesIn(w, root, title, answers);
    AllImageNamesIn(root, answers);
    NamesConcat(heads, tex);
    NamesConcat(heads + tex, typ);
    NamesConcat(heads + tex + typ, typs);
    NamesConcat(heads + tex + typ + typs, images);
    InConcat(root + "/", h, x);
    InConcat(root + "/", h + x, m);
    InConcat(root + "/", h + x + m, y);
    InConcat(root + "/", h + x + m + y, i);
  }

  // Which part of the tree a name belongs to.
  function Part(tail: string): nat {
    if |tail| < 5 then 0
    else if tail[0] == 'M' then 1
    else if tail[0] == 'i' then 2
    else if tail[0] == '_' then if tail[|tail| - 1] == 'x' then 3 else 4
    else if tail[1] == 'e' then 5 else 6
  }

  predicate AllOfPart(xs: seq<string>, parts: set<nat>) {
    forall i :: 0 <= i < |xs| ==> Part(xs[i]) in parts
  }

  lemma PartsApart(xs: seq<string>, ys: seq<string>, a: set<nat>, b: set<nat>)
    requires AllOfPart(xs, a) && AllOfPart(ys, b) && a !! b
    ensures NoneShared(xs, ys)
  {
    forall i, j | 0 <= i < |xs| && 0 <= j < |ys|
      ensures xs[i] != ys[j]
    {
      assert Part(xs[i]) in a && Part(ys[j]) in b;
    }
  }

  lemma PartsConcat(xs: seq<string>, ys: seq<string>, a: set<nat>, b: set<nat>)
    requires AllOfPart(xs, a) && AllOfPart(ys, b)
    ensures AllOfPart(xs + ys, a + b)
  {
  }

  lemma {:induction false} ImageParts(answers: seq<Answer>)
    ensures AllOfPart(AllImageTails(answers), {2})
  {
    if answers != [] {
      ImageParts(answers[..|answers| - 1]);
      ImagePart(answers[|answers| - 1]);
      hide ImageTails;
      PartsConcat(AllImageTails(answers[..|answers| - 1]), ImageTails(answers[|answers| - 1]), {2}, {2});
    }
  }

  lemma ImagePart(a: Answer)
    ensures AllOfPart(ImageTails(a), {2})
  {
    hide ImageName;
  }

  lemma FileParts(answers: seq<Answer>)
    ensures AllOfPart(TexTails(answers), {5}) && AllOfPart(TypTails(answers), {6})
    ensures AllOfPart(["_all.tex", "MANIFEST.csv"], {1, 3}) && AllOfPart(["_all.typ"], {4})
  {
  }

  ghost predicate DistinctStudents(answers: seq<Answer>) {
    forall i, j :: 0 <= i < j < |answers| ==> answers[i].studentId != answers[j].studentId
  }

  lemma FilesDistinct(answers: seq<Answer>)
    requires DistinctStudents(answers)
    ensures Distinct(TexTails(answers)) && Distinct(TypTails(answers))
  {
    forall i, j | 0 <= i < j < |answers|
      ensures TexTails(answers)[i] != TexTails(answers)[j] && TypTails(answers)[i] != TypTails(answers)[j]
    {
      var a, b := answers[i].studentId, answers[j].studentId;
      SameHead("tex/" + a, "tex/" + b, ".tex");
      SameHead("typ/" + a, "typ/" + b, ".typ");
      SameTail("tex/", a, b);
      SameTail("typ/", a, b);
    }
  }

  // Only images can share a name.
  lemma TailsDistinct(answers: seq<Answer>)
    requires DistinctStudents(answers)
    ensures Distinct(Tails(answers)) <==> NoSharedImages(answers)
  {
    var h, x, m, y, i := ["_all.tex", "MANIFEST.csv"], TexTails(answers), ["_all.typ"], TypTails(answers), AllImageTails(answers);
    assert Distinct(h) && Distinct(m);
    FileParts(answers);
    ImageParts(answers);
    FilesDistinct(answers);
    DistinctImages(answers);
    hide Distinct, NoneShared, AllOfPart, TexTails, TypTails, AllImageTails, NoSharedImages, DistinctStudents;
    PartsConcat(h, x, {1, 3}, {5});
    PartsConcat(h + x, m, {1, 3, 5}, {4});
    PartsConcat(h + x + m, y, {1, 3, 4, 5}, {6});
    assert {1, 3} + {5} == {1, 3, 5} && {1, 3, 5} + {4} == {1, 3, 4, 5} && {1, 3, 4, 5} + {6} == {1, 3, 4, 5, 6};
    PartsApart(h, x, {1, 3}, {5});
    PartsApart(h + x, m, {1, 3, 5}, {4});
    PartsApart(h + x + m, y, {1, 3, 4, 5}, {6});
    PartsApart(h + x + m + y, i, {1, 3, 4, 5, 6}, {2});
    DistinctConcat(h, x);
    DistinctConcat(h + x, m);
    DistinctConcat(h + x + m, y);
    DistinctConcat(h + x + m + y, i);
  }

  ghost predicate NoPageClash(answers: seq<Answer>) {
    forall i, j :: 0 <= i < |answers| && 0 <= j < |answers| ==> !PageClash(answers[i], answers[j])
  }

  lemma SharedIsClash(answers: seq<Answer>)
    requires DistinctStudents(answers)
    ensures NoSharedImages(answers) <==> NoPageClash(answers)
  {
    forall i, j | 0 <= i < j < |answers|
      ensures SharesImage(answers[i], answers[j]) <==> PageClash(answers[i], answers[j]) || PageClash(answers[j], answers[i])
    {
      SharesImageIff(answers[i], answers[j]);
    }
    forall i | 0 <= i < |answers|
      ensures !PageClash(answers[i], answers[i])
    {
      NoSelfClash(answers[i]);
    }
    hide SharesImage, PageClash, DistinctStudents;
    if NoSharedImages(answers) {
      forall i, j | 0 <= i < |answers| && 0 <= j < |answers|
        ensures !PageClash(answers[i], answers[j])
      {
        if i < j {
          assert !SharesImage(answers[i], answers[j]);
        } else if j < i {
          assert !SharesImage(answers[j], answers[i]);
        }
      }
    }
  }

  lemma NoSelfClash(a: Answer)
    ensures !PageClash(a, a)
  {
  }

  // The names of a problem's tree are pairwise distinct exactly when no student with one page
  // has the id of a student with several followed by "-p" and the number of one of those pages.
  lemma TreeNamesDistinctIff(w: Emitters, p: Input, answers: seq<Answer>, prefix: string)
    requires p.problemNumber >= 1 && DistinctStudents(answers)
    ensures Distinct(Names(ProblemEntries(w, p, answers, prefix))) <==> NoPageClash(answers)
  {
    hide *;
    TreeNames(w, p, answers, prefix);
    InDistinct(prefix + RootDir(p) + "/", Tails(answers));
    TailsDistinct(answers);
    SharedIsClash(answers);
  }

  // ---- the whole archive ----

  lemma SortedStudents(answers: seq<Answer>)
    requires DistinctIds(answers)
    ensures DistinctStudents(SortAnswers(answers))
    ensures NoPageClash(SortAnswers(answers)) <==> NoPageClash(answers)
  {
    AnswersOrder();
    SortSorts(answers, AnswerBefore);
    DistinctAreApart(answers);
    ApartPermuted(answers, SortAnswers(answers), OtherId);
    hide SortAnswers;
    forall i, j | 0 <= i < j < |SortAnswers(answers)|
      ensures SortAnswers(answers)[i].studentId != SortAnswers(answers)[j].studentId
    {
      OtherIdDiffers(SortAnswers(answers)[i], SortAnswers(answers)[j]);
      OtherIdDiffers(SortAnswers(answers)[j], SortAnswers(answers)[i]);
    }
    hide OtherId;
    ClashPermuted(answers, SortAnswers(answers));
    ClashPermuted(SortAnswers(answers), answers);
  }

  lemma OtherIdDiffers(a: Answer, b: Answer)
    ensures OtherId(a, b) ==> a.studentId != b.studentId
  {
  }

  lemma ClashPermuted(a: seq<Answer>, b: seq<Answer>)
    requires multiset(a) == multiset(b)
    ensures NoPageClash(a) ==> NoPageClash(b)
  {
    hide PageClash;
    forall i, j | NoPageClash(a) && 0 <= i < |b| && 0 <= j < |b|
      ensures !PageClash(b[i], b[j])
    {
      InBag(b, multiset(a), i);
      InBag(b, multiset(a), j);
      var k := PlaceOf(a, b[i]);
      var l := PlaceOf(a, b[j]);
      assert !PageClash(a[k], a[l]);
    }
  }

  lemma SlashAfter(pre: string, d: string, x: string)
    requires AllDigits(d)
    ensures var s := pre + d + "/" + x;
            s[|pre| + |d|] == '/' && (forall i :: |pre| <= i < |pre| + |d| ==> IsDigit(s[i])) && s[|pre|..|pre| + |d|] == d
  {
  }

  // Directories of different problems hold different names.
  lemma DirsApart(pre: string, d: string, x: string, e: string, y: string)
    requires AllDigits(d) && AllDigits(e) && pre + d + "/" + x == pre + e + "/" + y
    ensures d == e
  {
    SlashAfter(pre, d, x);
    SlashAfter(pre, e, y);
    assert |d| == |e|;
  }

  function Dir(prefix: string, p: Input): string
    requires p.problemNumber >= 1
  {
    prefix + RootDir(p) + "/"
  }

  lemma DirShape(prefix: string, p: Input)
    requires p.problemNumber >= 1
    ensures Dir(prefix, p) == prefix + SlugOf(p.assessmentName) + "-p" + Digits(p.problemNumber) + "/"
  {
    hide SlugOf, Digits;
    Regroup(prefix, SlugOf(p.assessmentName), "-p");
    Regroup(prefix, SlugOf(p.assessmentName) + "-p", Digits(p.problemNumber));
  }

  lemma TreesApart(prefix: string, p: Input, xs: seq<string>, q: Input, ys: seq<string>)
    requires p.problemNumber >= 1 && q.problemNumber >= 1 && p.problemNumber != q.problemNumber
    requires p.assessmentName == q.assessmentName
    ensures NoneShared(In(Dir(prefix, p), xs), In(Dir(prefix, q), ys))
  {
    var pre := prefix + SlugOf(p.assessmentName) + "-p";
    DirShape(prefix, p);
    DirShape(prefix, q);
    hide Dir, SlugOf, Digits;
    forall i, j | 0 <= i < |xs| && 0 <= j < |ys|
      ensures In(Dir(prefix, p), xs)[i] != In(Dir(prefix, q), ys)[j]
    {
      if In(Dir(prefix, p), xs)[i] == In(Dir(prefix, q), ys)[j] {
        DirsApart(pre, Digits(p.problemNumber), xs[i], Digits(q.problemNumber), ys[j]);
        DigitsDiffer(p.problemNumber, q.problemNumber);
      }
    }
  }

  predicate SameName(problems: seq<Input>, name: string) {
    forall i :: 0 <= i < |problems| ==> problems[i].assessmentName == name
  }

  lemma {:induction false} ArchiveApart(w: Emitters, problems: seq<Input>, prefix: string, q: Input, ys: seq<string>)
    requires AllValid(problems) && q.problemNumber >= 1 && SameName(problems, q.assessmentName)
    requires forall i :: 0 <= i < |problems| ==> problems[i].problemNumber != q.problemNumber
    ensures NoneShared(Names(AllEntries(w, problems, prefix)), In(Dir(prefix, q), ys))
  {
    if problems != [] {
      var n := |problems| - 1;
      var p := problems[n];
      LastEntries(w, problems, prefix);
      hide AllEntries, ProblemEntries, SortAnswers, ValidInput, Names, In, Dir, NoneShared;
      var answers := SortAnswers(p.answers);
      ArchiveApart(w, problems[..n], prefix, q, ys);
      NamesOfTree(w, p, answers, prefix);
      TreesApart(prefix, p, Tails(answers), q, ys);
      NamesConcat(AllEntries(w, problems[..n], prefix), ProblemEntries(w, p, answers, prefix));
      NoneSharedConcat(Names(AllEntries(w, problems[..n], prefix)), Names(ProblemEntries(w, p, answers, prefix)), In(Dir(prefix, q), ys));
    }
  }

  lemma NamesOfTree(w: Emitters, p: Input, answers: seq<Answer>, prefix: string)
    requires p.problemNumber >= 1
    ensures Names(ProblemEntries(w, p, answers, prefix)) == In(Dir(prefix, p), Tails(answers))
  {
    hide Names, ProblemEntries, In, RootDir;
    TreeNames(w, p, answers, prefix);
  }

  ghost predicate NoClashes(problems: seq<Input>) {
    forall i :: 0 <= i < |problems| ==> NoPageClash(problems[i].answers)
  }

  lemma PrefixFacts(problems: seq<Input>, name: string)
    requires AllValid(problems) && DistinctNumbers(problems) && SameName(problems, name) && problems != []
    ensures var n := |problems| - 1;
            && AllValid(problems[..n]) && DistinctNumbers(problems[..n]) && SameName(problems[..n], problems[n].assessmentName)
            && SameName(problems[..n], name)
            && (forall i :: 0 <= i < |problems[..n]| ==> problems[..n][i].problemNumber != problems[n].problemNumber)
            && problems[n].problemNumber >= 1 && DistinctIds(problems[n].answers)
            && (NoClashes(problems) <==> NoClashes(problems[..n]) && NoPageClash(problems[n].answers))
  {
    hide NoPageClash, GoodAnswer, DistinctIds, GoodVerdict;
    assert ValidInput(problems[|problems| - 1]);
    hide ValidInput;
  }

  lemma {:induction false} ArchiveDistinctIff(w: Emitters, problems: seq<Input>, prefix: string, name: string)
    requires AllValid(problems) && DistinctNumbers(problems) && SameName(problems, name)
    ensures Distinct(Names(AllEntries(w, problems, prefix))) <==> NoClashes(problems)
  {
    if problems != [] {
      var n := |problems| - 1;
      var p := problems[n];
      PrefixFacts(problems, name);
      hide *;
      LastEntries(w, problems, prefix);
      ArchiveDistinctIff(w, problems[..n], prefix, name);
      var answers := SortAnswers(p.answers);
      SortedStudents(p.answers);
      TreeNamesDistinctIff(w, p, answers, prefix);
      NamesOfTree(w, p, answers, prefix);
      ArchiveApart(w, problems[..n], prefix, p, Tails(answers));
      NamesConcat(AllEntries(w, problems[..n], prefix), ProblemEntries(w, p, answers, prefix));
      DistinctConcat(Names(AllEntries(w, problems[..n], prefix)), Names(ProblemEntries(w, p, answers, prefix)));
    }
  }

  // The names of a whole exam's archive are pairwise distinct exactly when no problem has two
  // answers whose page images clash.
  lemma ExamNamesDistinctIff(w: Emitters, problems: seq<Input>, name: string)
    requires ArchiveOk(ExamProblems(problems, name))
    ensures Distinct(Names(AllEntries(w, ExamProblems(problems, name), SlugOf(name) + "/"))) <==> NoClashes(ExamProblems(problems, name))
  {
    var sorted := ExamProblems(problems, name);
    NumbersOrder();
    SortSorts(Named(problems, name), ProblemBefore);
    hide SortBy, AllEntries, SlugOf, ValidInput, NoPageClash, Distinct, Names;
    forall i | 0 <= i < |sorted|
      ensures sorted[i].assessmentName == name
    {
      InBag(sorted, multiset(Named(problems, name)), i);
      var k := PlaceOf(Named(problems, name), sorted[i]);
    }
    ArchiveDistinctIff(w, sorted, SlugOf(name) + "/", name);
  }

  // Student "A" with two pages and student "A-p1" with one: both valid, and their images collide.
  lemma PageIdsClash(pages: seq<string>)
    requires |pages| == 3 && pages[0] != "" && pages[1] != "" && pages[2] != ""
    ensures var a := Answer("A", "ok", "dedicated", pages[..2], "", [], "");
            var b := Answer("A-p1", "ok", "dedicated", pages[2..], "", [], "");
            && ValidInput(Input("exam", 1, [a, b], "")) && !NoPageClash([a, b])
            && ImageName("A", 0, 2) == ImageName("A-p1", 0, 1) == "A-p1.jpg"
  {
    var a := Answer("A", "ok", "dedicated", pages[..2], "", [], "");
    var b := Answer("A-p1", "ok", "dedicated", pages[2..], "", [], "");
    assert Digits(1) == "1";
    assert b.studentId == PageId(a, 0);
    assert PageClash([a, b][1], [a, b][0]);
    assert |Lower("A")| != |Lower("A-p1")|;
  }
}
