/** The scenarios of the flaskphiid tests of merged types, scores and
    splits, on the annotations the factories build from the sample records
    (every sample label is already upper-case, so the `type` setter keeps
    it). */
module PhiExamples {
  import opened Common
  import opened PhiAnnotation
  import opened PhiResolution
  import opened PhiMerge

  /** A Comprehend Medical annotation as `from_compmed` builds it. */
  function Compmed(start: int, end: int, score: real, typ: string, text: string): Ann {
    Ann("compmed", Some(start), Some(end), Some(score), Some(text), Some(typ), map[])
  }

  /** A HutchNER annotation as `from_hutchner` builds it. */
  function Hutchner(start: int, end: int, score: real, typ: string, text: string): Ann {
    Ann("hutchner", Some(start), Some(end), Some(score), Some(text), Some(typ), HUTCHNER_TYPE_MAP)
  }

  /** Two sources of one family, the second a subtype and the first not. */
  lemma ParentThenSubtype(c: Ann, h: Ann)
    requires c.score.Some? && h.score.Some?
    requires c.typ != h.typ && ParentType(c) == ParentType(h) == c.typ
    ensures ResolvedType([c, h]) ==
      Success(if h.score.value >= TYPE_THRESHOLD then h.typ else c.typ)
    ensures ResolvedScore([c, h]) ==
      Success(Some(if h.score.value >= TYPE_THRESHOLD then h.score.value
                   else MaxReal(c.score.value, h.score.value)))
  {
    assert [c, h][1..] == [h] && [c, h][..1] == [c];
    assert !SingleType([c, h]) && SingleParent([c, h]);
    assert Subtypes([c, h]) == [h];
  }

  /** The same two sources in the other order. */
  lemma SubtypeThenParent(h: Ann, c: Ann)
    requires c.score.Some? && h.score.Some?
    requires c.typ != h.typ && ParentType(c) == ParentType(h) == c.typ
    ensures ResolvedType([h, c]) ==
      Success(if h.score.value >= TYPE_THRESHOLD then h.typ else c.typ)
    ensures ResolvedScore([h, c]) ==
      Success(Some(if h.score.value >= TYPE_THRESHOLD then h.score.value
                   else MaxReal(h.score.value, c.score.value)))
  {
    assert [h, c][1..] == [c] && [h, c][..1] == [h];
    assert !SingleType([h, c]) && SingleParent([h, c]);
    assert Subtypes([c]) == [];
    assert Subtypes([h, c]) == [h];
  }

  /** A name found by both annotators: the HutchNER label refines NAME. A
      subtype score of 0.01 leaves NAME with the best score of all, 0.99; a
      subtype score of 0.8 is reported with the subtype, in either order of
      the sources. */
  lemma NameFamily()
    ensures var c := Compmed(0, 25, 0.99, "NAME", "Patient is Mr. John Smith");
      var low := Hutchner(15, 29, 0.01, "PATIENT_OR_FAMILY_NAME", "John Smith Jr.");
      var high := Hutchner(15, 29, 0.8, "PATIENT_OR_FAMILY_NAME", "John Smith Jr.");
      ResolvedType([c, low]) == Success(Some("NAME")) && ResolvedScore([c, low]) == Success(Some(0.99))
      && ResolvedType([c, high]) == Success(Some("PATIENT_OR_FAMILY_NAME"))
      && ResolvedScore([c, high]) == Success(Some(0.8))
      && ResolvedType([high, c]) == Success(Some("PATIENT_OR_FAMILY_NAME"))
      && ResolvedScore([high, c]) == Success(Some(0.8))
  {
    var c := Compmed(0, 25, 0.99, "NAME", "Patient is Mr. John Smith");
    var low := Hutchner(15, 29, 0.01, "PATIENT_OR_FAMILY_NAME", "John Smith Jr.");
    var high := Hutchner(15, 29, 0.8, "PATIENT_OR_FAMILY_NAME", "John Smith Jr.");
    assert ParentType(low) == Some("NAME") && ParentType(high) == Some("NAME");
    ParentThenSubtype(c, low);
    ParentThenSubtype(c, high);
    SubtypeThenParent(high, c);
  }

  /** Four sources of one family: a parent label and three subtypes of one
      score. */
  lemma ParentThenThreeSubtypes(c: Ann, h1: Ann, h2: Ann, h3: Ann, s: real)
    requires c.score.Some? && h1.score == h2.score == h3.score == Some(s)
    requires ParentType(c) == c.typ && ParentType(h1) == ParentType(h2) == ParentType(h3) == c.typ
    requires c.typ != h1.typ && c.typ != h2.typ && c.typ != h3.typ
    ensures ResolvedType([c, h1, h2, h3]) == Success(if s >= TYPE_THRESHOLD then h1.typ else c.typ)
    ensures ResolvedScore([c, h1, h2, h3]) ==
      Success(Some(if s >= TYPE_THRESHOLD then s else MaxReal(c.score.value, s)))
  {
    var xs := [c, h1, h2, h3];
    assert xs[1..] == [h1, h2, h3];
    OneFamilyOfFour(c, h1, h2, h3);
    ThreeSubtypes(h1, h2, h3);
    assert Subtypes(xs) == [h1, h2, h3];
    ThreeTies(h1, h2, h3, s);
    ParentAndTies(c, h1, h2, h3, s);
    var subs := [h1, h2, h3];
    assert PyTop(subs) == Success(h1);
    assert PyMaxScore(subs) == Success(Some(s));
    assert PyMaxScore(xs) == Success(Some(MaxReal(c.score.value, s)));
  }

  lemma OneFamilyOfFour(c: Ann, h1: Ann, h2: Ann, h3: Ann)
    requires ParentType(c) == c.typ && ParentType(h1) == ParentType(h2) == ParentType(h3) == c.typ
    requires c.typ != h1.typ
    ensures !SingleType([c, h1, h2, h3]) && SingleParent([c, h1, h2, h3])
  {
    var xs := [c, h1, h2, h3];
    assert xs[1].typ != xs[0].typ;
    forall i | 0 <= i < |xs| ensures ParentType(xs[i]) == ParentType(xs[0]) {
      assert xs[i] in {c, h1, h2, h3};
    }
  }

  lemma ThreeSubtypes(h1: Ann, h2: Ann, h3: Ann)
    requires IsSubtype(h1) && IsSubtype(h2) && IsSubtype(h3)
    ensures Subtypes([h1, h2, h3]) == [h1, h2, h3]
  {
    assert [h1, h2, h3][1..] == [h2, h3] && [h2, h3][1..] == [h3];
    assert Subtypes([h3]) == [h3];
    assert Subtypes([h2, h3]) == [h2, h3];
  }

  /** Among equal scores the first source wins. */
  lemma ThreeTies(h1: Ann, h2: Ann, h3: Ann, s: real)
    requires h1.score == h2.score == h3.score == Some(s)
    ensures Scored([h1, h2, h3])
    ensures Top([h1, h2, h3]) == h1 && MaxScore([h1, h2, h3]) == s
  {
    assert [h1, h2, h3][..2] == [h1, h2] && [h1, h2][..1] == [h1];
    assert Top([h1, h2]) == h1;
  }

  lemma ParentAndTies(c: Ann, h1: Ann, h2: Ann, h3: Ann, s: real)
    requires c.score.Some? && h1.score == h2.score == h3.score == Some(s)
    ensures Scored([c, h1, h2, h3])
    ensures MaxScore([c, h1, h2, h3]) == MaxReal(c.score.value, s)
  {
    assert [c, h1, h2, h3][..3] == [c, h1, h2] && [c, h1, h2][..2] == [c, h1] && [c, h1][..1] == [c];
    assert MaxScore([c, h1]) == MaxReal(c.score.value, s);
    assert MaxScore([c, h1, h2]) == MaxReal(c.score.value, s);
  }

  /** The compound address of the tests: an ADDRESS over a hospital name,
      a ward and a specialty. At the factory scores of 0.01 the group is an
      ADDRESS at 0.99; once the three subtypes score 0.8 the first of them
      wins, so the group is a HOSPITAL_NAME at 0.8 (the test of this case
      expects ADDRESS at 0.99). */
  lemma CompoundAddress()
    ensures var c := Compmed(32, 92, 0.99, "ADDRESS",
                             "123 Sesame Hospital Ward 3 Sick Burns Unit Seattle, WA 99999");
      var h1 := Hutchner(32, 51, 0.01, "HOSPITAL_NAME", "123 Sesame Hospital");
      var h2 := Hutchner(51, 58, 0.01, "WARD", "Ward 3");
      var h3 := Hutchner(59, 74, 0.01, "SPECIALTY", "Sick Burns Unit");
      ResolvedType([c, h1, h2, h3]) == Success(Some("ADDRESS"))
      && ResolvedScore([c, h1, h2, h3]) == Success(Some(0.99))
      && ResolvedType([c, h1.(score := Some(0.8)), h2.(score := Some(0.8)), h3.(score := Some(0.8))])
         == Success(Some("HOSPITAL_NAME"))
      && ResolvedScore([c, h1.(score := Some(0.8)), h2.(score := Some(0.8)), h3.(score := Some(0.8))])
         == Success(Some(0.8))
  {
    var c := Compmed(32, 92, 0.99, "ADDRESS",
                     "123 Sesame Hospital Ward 3 Sick Burns Unit Seattle, WA 99999");
    var h1 := Hutchner(32, 51, 0.01, "HOSPITAL_NAME", "123 Sesame Hospital");
    var h2 := Hutchner(51, 58, 0.01, "WARD", "Ward 3");
    var h3 := Hutchner(59, 74, 0.01, "SPECIALTY", "Sick Burns Unit");
    ParentThenThreeSubtypes(c, h1, h2, h3, 0.01);
    ParentThenThreeSubtypes(c, h1.(score := Some(0.8)), h2.(score := Some(0.8)), h3.(score := Some(0.8)), 0.8);
  }

  /** Two names of one family that are both subtypes: the first source of
      the best score is reported when that score reaches the threshold. */
  lemma TwoSubtypes()
    ensures var a := Hutchner(15, 29, 0.6, "PATIENT_OR_FAMILY_NAME", "John Smith Jr.");
      var b := Hutchner(15, 29, 0.01, "PROVIDER_NAME", "John Smith Jr.");
      ResolvedType([a, b]) == Success(Some("PATIENT_OR_FAMILY_NAME"))
      && ResolvedScore([a, b]) == Success(Some(0.6))
  {
    var a := Hutchner(15, 29, 0.6, "PATIENT_OR_FAMILY_NAME", "John Smith Jr.");
    var b := Hutchner(15, 29, 0.01, "PROVIDER_NAME", "John Smith Jr.");
    var xs := [a, b];
    assert xs[1..] == [b] && xs[..1] == [a];
    assert ParentType(a) == Some("NAME") == ParentType(b);
    assert !SingleType(xs) && SingleParent(xs);
    assert Subtypes(xs) == xs;
  }

  /** One label from both annotators gives that label and the best score. */
  lemma SameLabel()
    ensures var c := Compmed(33, 35, 0.98, "AGE", "48");
      var h := Hutchner(33, 44, 0.02, "AGE", "48-year-old");
      ResolvedType([c, h]) == Success(Some("AGE")) && ResolvedScore([c, h]) == Success(Some(0.98))
  {
    var c := Compmed(33, 35, 0.98, "AGE", "48");
    var h := Hutchner(33, 44, 0.02, "AGE", "48-year-old");
    assert [c, h][..1] == [c];
    assert SingleType([c, h]);
  }

  /** Labels of different families give "UNKNOWN" at the threshold score. */
  lemma MismatchedFamilies()
    ensures var c := Compmed(152, 156, 0.94, "NAME", "Test");
      var h := Hutchner(152, 156, 0.07, "URL_OR_IP", "Test");
      ResolvedType([c, h]) == Success(Some(UNKNOWN)) && ResolvedScore([c, h]) == Success(Some(TYPE_THRESHOLD))
  {
    var c := Compmed(152, 156, 0.94, "NAME", "Test");
    var h := Hutchner(152, 156, 0.07, "URL_OR_IP", "Test");
    assert ParentType(c) == Some("NAME") && ParentType(h) == Some("URL_OR_IP");
    assert [c, h][1] == h && [c, h][0] == c;
    assert !SingleType([c, h]) && !SingleParent([c, h]);
  }

  // ---------------------------------------------------------------------
  // Splits

  /** The merged annotation of one source. */
  function Lone(x: Ann): Window {
    Window(x.start, x.end, x.text, x.typeMap, [x])
  }

  lemma Unsplittable(x: Ann)
    requires !Empty(x)
    ensures FromUnsplittableSpec([x]) == Success([Group(Lone(x))])
  {
    AddToFresh(x);
    assert [x][0] == x && [x][1..] == [];
    assert FoldAdd(EmptyWindow, [x]) == FoldAdd(Lone(x), []) == Success(Lone(x));
  }

  /** Four labels, each different from the one before it, make four runs. */
  lemma FourRuns(c: Ann, h1: Ann, h2: Ann, h3: Ann)
    requires c.typ != h1.typ && h1.typ != h2.typ && h2.typ != h3.typ
    ensures Runs([c, h1, h2, h3]) == [[c], [h1], [h2], [h3]]
  {
    assert [c, h1, h2, h3][1..] == [h1, h2, h3] && [h1, h2, h3][1..] == [h2, h3];
    assert [h2, h3][1..] == [h3] && [h3][1..] == [] && [] + [c] == [c];
    assert RunsFrom([h3], [h2]) == [[h2]] + RunsFrom([], [h3]) == [[h2], [h3]];
    assert RunsFrom([h2, h3], [h1]) == [[h1]] + RunsFrom([h3], [h2]) == [[h1], [h2], [h3]];
    assert RunsFrom([h1, h2, h3], [c]) == [[c]] + RunsFrom([h2, h3], [h1]);
    assert RunsFrom([c, h1, h2, h3], []) == RunsFrom([h1, h2, h3], [c]);
  }

  /** A label followed by three equal labels makes two runs. */
  lemma TwoRuns(c: Ann, h1: Ann, h2: Ann, h3: Ann)
    requires c.typ != h1.typ && h1.typ == h2.typ == h3.typ
    ensures Runs([c, h1, h2, h3]) == [[c], [h1, h2, h3]]
  {
    assert [c, h1, h2, h3][1..] == [h1, h2, h3] && [h1, h2, h3][1..] == [h2, h3];
    assert [h2, h3][1..] == [h3] && [h3][1..] == [] && [] + [c] == [c];
    assert [h1] + [h2] == [h1, h2] && [h1, h2] + [h3] == [h1, h2, h3];
    assert RunsFrom([h3], [h1, h2]) == RunsFrom([], [h1, h2, h3]) == [[h1, h2, h3]];
    assert RunsFrom([h2, h3], [h1]) == RunsFrom([h3], [h1, h2]);
    assert RunsFrom([h1, h2, h3], [c]) == [[c]] + RunsFrom([h2, h3], [h1]);
    assert RunsFrom([c, h1, h2, h3], []) == RunsFrom([h1, h2, h3], [c]);
  }

  /** A run of lone sources emits one merged annotation per source. */
  lemma EmitLone(x: Ann, rest: seq<seq<Ann>>, outs: seq<Out>)
    requires !Empty(x) && EmitRuns(rest) == Success(outs)
    ensures EmitRuns([[x]] + rest) == Success([Group(Lone(x))] + outs)
  {
    Unsplittable(x);
    assert ([[x]] + rest)[0] == [x] && ([[x]] + rest)[1..] == rest;
  }

  lemma EmitLones(c: Ann, h1: Ann, h2: Ann, h3: Ann)
    requires !Empty(c) && !Empty(h1) && !Empty(h2) && !Empty(h3)
    ensures EmitRuns([[c], [h1], [h2], [h3]])
      == Success([Group(Lone(c)), Group(Lone(h1)), Group(Lone(h2)), Group(Lone(h3))])
  {
    assert EmitRuns([]) == Success([]);
    EmitLone(h3, [], []);
    assert [[h3]] + [] == [[h3]] && [Group(Lone(h3))] + [] == [Group(Lone(h3))];
    EmitLone(h2, [[h3]], [Group(Lone(h3))]);
    assert [[h2]] + [[h3]] == [[h2], [h3]];
    assert [Group(Lone(h2))] + [Group(Lone(h3))] == [Group(Lone(h2)), Group(Lone(h3))];
    EmitLone(h1, [[h2], [h3]], [Group(Lone(h2)), Group(Lone(h3))]);
    assert [[h1]] + [[h2], [h3]] == [[h1], [h2], [h3]];
    assert [Group(Lone(h1))] + [Group(Lone(h2)), Group(Lone(h3))]
      == [Group(Lone(h1)), Group(Lone(h2)), Group(Lone(h3))];
    EmitLone(c, [[h1], [h2], [h3]], [Group(Lone(h1)), Group(Lone(h2)), Group(Lone(h3))]);
    assert [[c]] + [[h1], [h2], [h3]] == [[c], [h1], [h2], [h3]];
    assert [Group(Lone(c))] + [Group(Lone(h1)), Group(Lone(h2)), Group(Lone(h3))]
      == [Group(Lone(c)), Group(Lone(h1)), Group(Lone(h2)), Group(Lone(h3))];
  }

  /** Two same-label sources with a gap between them cannot be merged. */
  lemma GapRunFails(h1: Ann, h2: Ann, h3: Ann)
    requires Good(h1) && !Empty(h2) && !Empty(h3) && h1.end.value < h2.start.value
    ensures FromUnsplittableSpec([h1, h2, h3]) == Failure(NoOverlap)
  {
    AddToFresh(h1);
    var w1 := Lone(h1);
    assert WindowInv(w1);
    InvNotEmpty(w1);
    assert AddTo(w1, h2) == Failure(NoOverlap);
    assert [h1, h2, h3][0] == h1 && [h1, h2, h3][1..] == [h2, h3] && [h2, h3][0] == h2;
    assert FoldAdd(w1, [h2, h3]) == Failure(NoOverlap);
    assert FoldAdd(EmptyWindow, [h1, h2, h3]) == FoldAdd(w1, [h2, h3]);
  }

  /** The split of a parent label followed by three labels of its family,
      each different from the one before it: one merged annotation per
      source. */
  lemma LineUpSplit(w: Window, c: Ann, h1: Ann, h2: Ann, h3: Ann)
    requires w.sources == [c, h1, h2, h3]
    requires ParentType(c) == c.typ && ParentType(h1) == ParentType(h2) == ParentType(h3) == c.typ
    requires c.typ != h1.typ && h1.typ != h2.typ && h2.typ != h3.typ
    requires !Empty(c) && !Empty(h1) && !Empty(h2) && !Empty(h3)
    ensures SplitSpec(w) == Success([Group(Lone(c)), Group(Lone(h1)), Group(Lone(h2)), Group(Lone(h3))])
  {
    OneFamilyOfFour(c, h1, h2, h3);
    FourRuns(c, h1, h2, h3);
    EmitLones(c, h1, h2, h3);
  }

  /** The split of a parent label followed by a run of three equal
      subtypes, the first two apart: the run cannot be merged. */
  lemma GapSplit(w: Window, c: Ann, h1: Ann, h2: Ann, h3: Ann)
    requires w.sources == [c, h1, h2, h3]
    requires ParentType(c) == c.typ && ParentType(h1) == ParentType(h2) == ParentType(h3) == c.typ
    requires c.typ != h1.typ && h1.typ == h2.typ == h3.typ
    requires !Empty(c) && Good(h1) && !Empty(h2) && !Empty(h3) && h1.end.value < h2.start.value
    ensures SplitSpec(w) == Failure(NoOverlap)
  {
    OneFamilyOfFour(c, h1, h2, h3);
    TwoRuns(c, h1, h2, h3);
    Unsplittable(c);
    GapRunFails(h1, h2, h3);
    var rs := [[c], [h1, h2, h3]];
    assert rs[0] == [c] && rs[1..] == [[h1, h2, h3]] && rs[1..][0] == [h1, h2, h3] && rs[1..][1..] == [];
    assert EmitRuns([[h1, h2, h3]]) == Failure(NoOverlap);
  }

  /** The sources of the compound ADDRESS whose three subtypes of
      different labels line up inside it. */
  function LineUp(): seq<Ann> {
    [Compmed(0, 42, 0.99, "ADDRESS", "123 Sesame Hospital Ward 3 Sick Burns Unit"),
     Hutchner(0, 19, 0.01, "HOSPITAL_NAME", "123 Sesame Hospital"),
     Hutchner(20, 26, 0.01, "WARD", "Ward 3"),
     Hutchner(27, 42, 0.01, "SPECIALTY", "Sick Burns Unit")]
  }

  /** The sources of the compound ADDRESS over three HOSPITAL_NAME pieces
      with gaps between them. */
  function Gapped(): seq<Ann> {
    [Compmed(0, 60, 0.99, "ADDRESS", "123 Sesame Hospital Ward 3 Sick Burns Unit Seattle, WA 99999"),
     Hutchner(0, 19, 0.01, "HOSPITAL_NAME", "123 Sesame Hospital"),
     Hutchner(20, 26, 0.01, "HOSPITAL_NAME", "Ward 3"),
     Hutchner(27, 42, 0.01, "HOSPITAL_NAME", "Sick Burns Unit")]
  }

  /** Both compounds keep the ADDRESS label: the subtype scores are below
      the threshold (the test of the gapped compound expects
      HOSPITAL_NAME). */
  lemma CompoundsAreAddresses()
    ensures ResolvedType(LineUp()) == Success(Some("ADDRESS"))
    ensures ResolvedType(Gapped()) == Success(Some("ADDRESS"))
  {
    var xs := LineUp();
    assert ParentType(xs[0]) == Some("ADDRESS") && ParentType(xs[1]) == Some("ADDRESS");
    assert ParentType(xs[2]) == Some("ADDRESS") && ParentType(xs[3]) == Some("ADDRESS");
    ParentThenThreeSubtypes(xs[0], xs[1], xs[2], xs[3], 0.01);
    var ys := Gapped();
    assert ParentType(ys[0]) == Some("ADDRESS") && ParentType(ys[1]) == Some("ADDRESS");
    assert ParentType(ys[2]) == Some("ADDRESS") && ParentType(ys[3]) == Some("ADDRESS");
    ParentThenThreeSubtypes(ys[0], ys[1], ys[2], ys[3], 0.01);
  }

  /** The split of the lined-up compound makes four merged annotations, one
      per label run, the ADDRESS source first (the test of this case
      expects the three subtypes only). */
  lemma SplitPerfectLineUp(w: Window)
    requires w.sources == LineUp()
    ensures SplitSpec(w) == Success([Group(Lone(LineUp()[0])), Group(Lone(LineUp()[1])),
                                     Group(Lone(LineUp()[2])), Group(Lone(LineUp()[3]))])
  {
    var xs := LineUp();
    assert ParentType(xs[0]) == Some("ADDRESS") && ParentType(xs[1]) == Some("ADDRESS");
    assert ParentType(xs[2]) == Some("ADDRESS") && ParentType(xs[3]) == Some("ADDRESS");
    LineUpSplit(w, xs[0], xs[1], xs[2], xs[3]);
  }

  /** The split of the gapped compound raises the overlap error: the run of
      the three pieces cannot be merged. */
  lemma SplitGapFails(w: Window)
    requires w.sources == Gapped()
    ensures SplitSpec(w) == Failure(NoOverlap)
  {
    var ys := Gapped();
    assert ParentType(ys[0]) == Some("ADDRESS") && ParentType(ys[1]) == Some("ADDRESS");
    assert ParentType(ys[2]) == Some("ADDRESS") && ParentType(ys[3]) == Some("ADDRESS");
    assert NamedParents(ys[1].typeMap);
    GapSplit(w, ys[0], ys[1], ys[2], ys[3]);
  }
}
