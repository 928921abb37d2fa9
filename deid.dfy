/** The older flaskdeid engine (flaskdeid/annotation.py): the same leaf and
    merged annotations and the same index walk as flaskphiid, with its own
    taxonomy, an `empty()` that tests offsets by truthiness, a merged type
    without a score threshold, a merged score that is never set, no overlap
    guard in `add_annotation`, no split, and a `from_annotations` that
    returns one merged annotation. The fields of a merged annotation are a
    `PhiMerge.Window` whose taxonomy stays empty. */
module Deid {
  import opened Common
  import opened Grouping
  import A = PhiAnnotation
  import R = PhiResolution
  import M = PhiMerge
  import U = PhiUnion

  /** HutchNER labels of the flaskdeid model and the MedLP label each one
      refines. */
  const HUTCHNER_TYPE_MAP: map<string, string> := map[
    "EMPLOYER" := "PROFESSION",
    "HOSPITAL" := "ADDRESS",
    "IDENTIFIER" := "ID",
    "LOCATION" := "ADDRESS",
    "PHONE_NUMBER" := "PHONE_OR_FAX",
    "SSN" := "ID",
    "WARD" := "ADDRESS"
  ]

  /** The flaskdeid taxonomy has two levels as well: every parent is a
      non-blank label that is not refined further. */
  lemma TaxonomyTwoLevel()
    ensures A.NamedParents(HUTCHNER_TYPE_MAP)
    ensures forall k | k in HUTCHNER_TYPE_MAP :: HUTCHNER_TYPE_MAP[k] !in HUTCHNER_TYPE_MAP
  {
  }

  // ---------------------------------------------------------------------
  // Leaf annotations

  /** `AnnotationFactory.from_medlp`: a MedLP entity has the keys of a
      Comprehend Medical entity. */
  function FromMedlp(rec: A.CompMedRecord): (a: Ann)
    ensures a.origin == "medlp" && a.typeMap == map[]
    ensures a.start == rec.beginOffset && a.end == rec.endOffset
    ensures a.score == rec.score && a.text == rec.text
    ensures a.typ == A.NormalizeType(rec.typ)
  {
    A.NewAnnotation("medlp").(start := rec.beginOffset, end := rec.endOffset, score := rec.score,
                              typ := A.NormalizeType(rec.typ), text := rec.text)
  }

  /** `AnnotationFactory.from_hutchner`: the label is the `label` key. */
  function FromHutchner(rec: A.HutchNerRecord): (a: Ann)
    ensures a.origin == "hutchner" && a.typeMap == HUTCHNER_TYPE_MAP
    ensures a.start == rec.start && a.end == rec.stop
    ensures a.score == rec.confidence && a.text == rec.text
    ensures a.typ == A.NormalizeType(rec.nerLabel)
  {
    A.NewAnnotation("hutchner").(start := rec.start, end := rec.stop, score := rec.confidence,
                                 typ := A.NormalizeType(rec.nerLabel), text := rec.text,
                                 typeMap := HUTCHNER_TYPE_MAP)
  }

  /** Python truthiness of an optional offset: present and not 0. */
  predicate TruthyInt(o: Option<int>) {
    o.Some? && o.value != 0
  }

  /** `empty()`: every field is tested by truthiness, offsets included. */
  predicate Empty(a: Ann) {
    !(TruthyInt(a.start) && TruthyInt(a.end) && Truthy(a.text) && Truthy(a.typ))
  }

  /** The flaskdeid `empty()` is the flaskphiid one, with an offset of 0
      counted as missing too. */
  lemma EmptyVsPhi(a: Ann)
    ensures Empty(a) <==> A.Empty(a) || a.start == Some(0) || a.end == Some(0)
  {
  }

  /** A MedLP annotation that starts at the first character of the note is
      empty, whatever else the record holds. */
  lemma FromMedlpAtZero(rec: A.CompMedRecord)
    requires rec.beginOffset == Some(0)
    ensures Empty(FromMedlp(rec))
    ensures rec.endOffset.Some? && Truthy(rec.text) && Truthy(rec.typ) ==> !A.Empty(FromMedlp(rec))
  {
  }

  /** Every parent of the flaskdeid taxonomy is a non-blank label, and a
      HutchNER parent is the entry of the upper-cased label or the label. */
  lemma FromHutchnerParent(rec: A.HutchNerRecord)
    requires Truthy(rec.nerLabel)
    ensures A.NamedParents(FromHutchner(rec).typeMap)
    ensures Upper(rec.nerLabel.value) in HUTCHNER_TYPE_MAP ==>
      A.ParentType(FromHutchner(rec)) == Some(HUTCHNER_TYPE_MAP[Upper(rec.nerLabel.value)])
    ensures Upper(rec.nerLabel.value) !in HUTCHNER_TYPE_MAP ==>
      A.ParentType(FromHutchner(rec)) == Some(Upper(rec.nerLabel.value))
  {
  }

  // ---------------------------------------------------------------------
  // The merged type

  /** The `type` property of a merged annotation: the label when the
      sources have one, else their common parent, else "UNKNOWN". Scores
      play no part. */
  function MergedType(xs: seq<Ann>): (r: Option<string>)
    ensures r == Some(A.UNKNOWN) || (|xs| > 0 && (r == xs[0].typ || r == A.ParentType(xs[0])))
    ensures |xs| > 0 && (forall i | 0 <= i < |xs| :: xs[i].typ == xs[0].typ) ==> r == xs[0].typ
    ensures xs == [] ==> r == Some(A.UNKNOWN)
  {
    if R.SingleType(xs) then xs[0].typ
    else if R.SingleParent(xs) then A.ParentType(xs[0])
    else Some(A.UNKNOWN)
  }

  /** The flaskdeid type is the flaskphiid one except for two labels of one
      family whose best-scored subtype reaches the threshold: flaskphiid
      then reports that subtype, flaskdeid the parent. */
  lemma MergedTypeVsPhi(xs: seq<Ann>)
    requires |xs| > 0 && R.Scored(xs)
    ensures !(!R.SingleType(xs) && R.SingleParent(xs)) ==> R.ResolvedType(xs) == Success(MergedType(xs))
    ensures !R.SingleType(xs) && R.SingleParent(xs) ==>
      MergedType(xs) == A.ParentType(xs[0])
      && |R.Subtypes(xs)| > 0 && R.Scored(R.Subtypes(xs))
      && (R.MaxScore(R.Subtypes(xs)) < A.TYPE_THRESHOLD ==> R.ResolvedType(xs) == Success(MergedType(xs)))
      && (R.MaxScore(R.Subtypes(xs)) >= A.TYPE_THRESHOLD ==>
            R.ResolvedType(xs) == Success(R.Top(R.Subtypes(xs)).typ))
  {
    R.ResolutionTable(xs);
  }

  /** Sources that are not empty and whose taxonomies name their parents. */
  predicate Good(a: Ann) {
    !Empty(a) && A.NamedParents(a.typeMap)
  }

  predicate AllGood(xs: seq<Ann>) {
    forall i | 0 <= i < |xs| :: Good(xs[i])
  }

  lemma AllGoodSnoc(xs: seq<Ann>, a: Ann)
    requires AllGood(xs) && Good(a)
    ensures AllGood(xs + [a])
  {
    assert forall i | 0 <= i < |xs| :: (xs + [a])[i] == xs[i];
  }

  /** The type of good sources is never blank. */
  lemma GoodTypeTruthy(xs: seq<Ann>)
    requires |xs| > 0 && AllGood(xs)
    ensures Truthy(MergedType(xs))
  {
    assert Good(xs[0]);
  }

  // ---------------------------------------------------------------------
  // Merging

  /** `empty()` of a merged annotation: it reads the merged type, which
      never raises here. */
  predicate MergedEmpty(w: M.Window) {
    !(TruthyInt(w.start) && TruthyInt(w.end) && Truthy(w.text) && Truthy(MergedType(w.sources)))
  }

  /** `add_annotation(ann)` on the fields `w`: an empty annotation is
      refused; a merged annotation that reports itself empty takes the
      span and text of `ann`; any other has its text spliced and its span
      widened, whether or not the two spans meet. The taxonomy of the
      merged annotation is never changed. */
  function AddTo(w: M.Window, a: Ann): (r: Result<M.Window, Error>)
    ensures Empty(a) <==> r.Failure?
    ensures r.Failure? ==> r.error == EmptyAnnotation
    ensures r.Success? ==> r.value.sources == w.sources + [a] && r.value.typeMap == w.typeMap
  {
    if Empty(a) then Failure(EmptyAnnotation)
    else if MergedEmpty(w) then
      Success(w.(start := a.start, end := a.end, text := a.text, sources := w.sources + [a]))
    else
      Success(M.Window(
        Some(Min(w.start.value, a.start.value)),
        Some(Max(w.end.value, a.end.value)),
        Some(SpliceText(w.start.value, w.end.value, w.text.value,
                        a.start.value, a.end.value, a.text.value)),
        w.typeMap,
        w.sources + [a]))
  }

  /** Adding the annotations of `xs` one after another; the first failure
      is the result. */
  function FoldAdd(w: M.Window, xs: seq<Ann>): (r: Result<M.Window, Error>)
    ensures r.Failure? ==> r.error == EmptyAnnotation
    ensures r.Success? ==> r.value.typeMap == w.typeMap
    decreases |xs|
  {
    if xs == [] then Success(w)
    else match AddTo(w, xs[0])
      case Failure(e) => Failure(e)
      case Success(w1) => FoldAdd(w1, xs[1..])
  }

  /** Some annotation of the list is empty. */
  predicate AnyEmpty(xs: seq<Ann>) {
    exists i | 0 <= i < |xs| :: Empty(xs[i])
  }

  lemma AnyEmptyTail(xs: seq<Ann>)
    requires xs != []
    ensures AnyEmpty(xs) <==> Empty(xs[0]) || AnyEmpty(xs[1..])
  {
    if AnyEmpty(xs) && !Empty(xs[0]) {
      var i :| 0 <= i < |xs| && Empty(xs[i]);
      assert xs[1..][i - 1] == xs[i];
    }
    if AnyEmpty(xs[1..]) {
      var i :| 0 <= i < |xs[1..]| && Empty(xs[1..][i]);
      assert xs[i + 1] == xs[1..][i];
    }
  }

  lemma AnyEmptyConcat(a: seq<Ann>, b: seq<Ann>)
    ensures AnyEmpty(a + b) <==> AnyEmpty(a) || AnyEmpty(b)
  {
    if AnyEmpty(a + b) {
      var i :| 0 <= i < |a + b| && Empty((a + b)[i]);
      if i < |a| {
        assert (a + b)[i] == a[i];
      } else {
        assert (a + b)[i] == b[i - |a|];
      }
    }
    if AnyEmpty(a) {
      var i :| 0 <= i < |a| && Empty(a[i]);
      assert (a + b)[i] == a[i];
    }
    if AnyEmpty(b) {
      var i :| 0 <= i < |b| && Empty(b[i]);
      assert (a + b)[|a| + i] == b[i];
    }
  }

  /** Two lists with the same annotations have an empty one alike. */
  lemma AnyEmptyPerm(xs: seq<Ann>, ys: seq<Ann>)
    requires multiset(xs) == multiset(ys)
    ensures AnyEmpty(xs) <==> AnyEmpty(ys)
  {
    if AnyEmpty(xs) {
      var i :| 0 <= i < |xs| && Empty(xs[i]);
      assert xs[i] in multiset(ys);
      var j :| 0 <= j < |ys| && ys[j] == xs[i];
    }
    if AnyEmpty(ys) {
      var j :| 0 <= j < |ys| && Empty(ys[j]);
      assert ys[j] in multiset(xs);
      var i :| 0 <= i < |xs| && xs[i] == ys[j];
    }
  }

  /** A sequence of adds fails exactly when one of the annotations is
      empty, and then with "new annotation cannot be empty". */
  lemma {:induction false} FoldFails(w: M.Window, xs: seq<Ann>)
    ensures FoldAdd(w, xs).Failure? <==> AnyEmpty(xs)
    ensures FoldAdd(w, xs).Failure? ==> FoldAdd(w, xs).error == EmptyAnnotation
    decreases |xs|
  {
    if xs != [] {
      AnyEmptyTail(xs);
      if !Empty(xs[0]) {
        FoldFails(AddTo(w, xs[0]).value, xs[1..]);
      }
    }
  }

  /** A successful sequence of adds appends the annotations to the sources. */
  lemma {:induction false} FoldSources(w: M.Window, xs: seq<Ann>)
    requires FoldAdd(w, xs).Success?
    ensures FoldAdd(w, xs).value.sources == w.sources + xs
    decreases |xs|
  {
    if xs == [] {
      assert w.sources + xs == w.sources;
    } else {
      FoldSources(AddTo(w, xs[0]).value, xs[1..]);
      AppendHead(w.sources, xs);
    }
  }

  // ---------------------------------------------------------------------
  // The invariant of a merged annotation built from good sources

  /** No field is set before the first source; then the span is the hull
      of the sources, the text is present and the taxonomy stays empty. */
  predicate Inv(w: M.Window) {
    if w.sources == [] then w == M.EmptyWindow
    else
      AllGood(w.sources) && AllHaveOffsets(w.sources)
      && w.start == Some(MinStart(w.sources)) && w.end == Some(MaxEnd(w.sources))
      && Truthy(w.text) && w.typeMap == map[]
  }

  /** A merged annotation of good sources never reports itself empty: its
      start and end are those of some source, so never 0. */
  lemma InvNotEmpty(w: M.Window)
    requires Inv(w) && w.sources != []
    ensures !MergedEmpty(w)
    ensures w.start != Some(0) && w.end != Some(0)
  {
    var i :| 0 <= i < |w.sources| && MinStart(w.sources) == w.sources[i].start.value;
    var j :| 0 <= j < |w.sources| && MaxEnd(w.sources) == w.sources[j].end.value;
    assert Good(w.sources[i]) && Good(w.sources[j]);
    GoodTypeTruthy(w.sources);
  }

  /** Adding a good annotation succeeds and keeps the fields in agreement
      with the sources. */
  lemma AddPreservesInv(w: M.Window, a: Ann)
    requires Inv(w) && Good(a)
    ensures AddTo(w, a).Success? && Inv(AddTo(w, a).value)
  {
    if w.sources == [] {
      assert [] + [a] == [a];
    } else {
      InvNotEmpty(w);
      M.HullExtend(w.sources, a);
      AllGoodSnoc(w.sources, a);
    }
  }

  /** Adds of good annotations never fail and keep the invariant. */
  lemma {:induction false} FoldKeepsInv(w: M.Window, xs: seq<Ann>)
    requires Inv(w) && AllGood(xs)
    ensures FoldAdd(w, xs).Success? && Inv(FoldAdd(w, xs).value)
    ensures FoldAdd(w, xs).value.sources == w.sources + xs
    decreases |xs|
  {
    if xs == [] {
      assert w.sources + xs == w.sources;
    } else {
      assert Good(xs[0]) && AllGood(xs[1..]);
      AddPreservesInv(w, xs[0]);
      FoldKeepsInv(AddTo(w, xs[0]).value, xs[1..]);
      AppendHead(w.sources, xs);
    }
  }

  /** With no overlap guard, an annotation that meets the span of the
      merged annotation gives the document over the widened span, as in
      flaskphiid. */
  lemma AddReconstructs(doc: string, w: M.Window, a: Ann)
    requires Inv(w) && Good(a) && AnnCovers(doc, a)
    requires w.sources != [] ==>
      M.WindowCovers(doc, w) && a.start.value <= MaxEnd(w.sources) && MinStart(w.sources) <= a.end.value
    ensures AddTo(w, a).Success? && M.WindowCovers(doc, AddTo(w, a).value)
  {
    if w.sources != [] {
      InvNotEmpty(w);
      SpliceReconstructs(doc, w.start.value, w.end.value, w.text.value,
                         a.start.value, a.end.value, a.text.value);
    }
  }

  /** One add in a chain: the new annotation meets the span so far. */
  lemma CoverStep(doc: string, w: M.Window, a: Ann)
    requires Inv(w) && w.sources != [] && Good(a) && AnnCovers(doc, a) && M.WindowCovers(doc, w)
    requires a.start.value <= MaxEnd(w.sources) && MinStart(w.sources) <= a.end.value
    ensures AddTo(w, a).Success? && Inv(AddTo(w, a).value) && M.WindowCovers(doc, AddTo(w, a).value)
    ensures MinStart(AddTo(w, a).value.sources) == Min(MinStart(w.sources), a.start.value)
    ensures MaxEnd(AddTo(w, a).value.sources) == Max(MaxEnd(w.sources), a.end.value)
  {
    AddReconstructs(doc, w, a);
    AddPreservesInv(w, a);
    M.HullExtend(w.sources, a);
  }

  lemma TailFacts(doc: string, rest: seq<Ann>)
    requires rest != [] && AllGood(rest) && AllHaveOffsets(rest) && M.AllCover(doc, rest)
    ensures Good(rest[0]) && AnnCovers(doc, rest[0])
    ensures AllGood(rest[1..]) && AllHaveOffsets(rest[1..]) && M.AllCover(doc, rest[1..])
  {
    assert forall i | 0 <= i < |rest| - 1 :: rest[1..][i] == rest[i + 1];
  }

  /** Adding good annotations that each meet the span so far keeps the
      text equal to the document over the span. */
  lemma {:induction false} FoldChainCovers(doc: string, w: M.Window, rest: seq<Ann>)
    requires Inv(w) && w.sources != [] && AllGood(rest) && AllHaveOffsets(rest)
    requires M.ChainFrom(MinStart(w.sources), MaxEnd(w.sources), rest)
    requires M.WindowCovers(doc, w) && M.AllCover(doc, rest)
    ensures FoldAdd(w, rest).Success? && M.WindowCovers(doc, FoldAdd(w, rest).value)
    decreases |rest|
  {
    if rest != [] {
      TailFacts(doc, rest);
      CoverStep(doc, w, rest[0]);
      FoldChainCovers(doc, AddTo(w, rest[0]).value, rest[1..]);
    }
  }

  /** The merge of one sorted overlap group of good annotations: it spans
      exactly the group and, when the annotations are parts of one
      document, its text is the document over that span. */
  predicate MergedOver(doc: string, g: seq<Ann>, w: M.Window)
    requires g != [] && AllHaveOffsets(g)
  {
    w.sources == g && Inv(w)
    && w.start == Some(g[0].start.value) && w.end == Some(MaxEnd(g))
    && (M.AllCover(doc, g) ==> M.WindowCovers(doc, w))
  }

  lemma GroupMerge(doc: string, g: seq<Ann>)
    requires g != [] && M.WellFormed(g) && SortedByStart(g) && Chained(g) && AllGood(g)
    ensures FoldAdd(M.EmptyWindow, g).Success? && MergedOver(doc, g, FoldAdd(M.EmptyWindow, g).value)
  {
    FoldKeepsInv(M.EmptyWindow, g);
    assert [] + g == g;
    SortedMinStart(g);
    if M.AllCover(doc, g) {
      GroupCovers(doc, g);
    }
  }

  lemma GroupCovers(doc: string, g: seq<Ann>)
    requires g != [] && M.WellFormed(g) && SortedByStart(g) && Chained(g) && AllGood(g)
    requires M.AllCover(doc, g)
    ensures FoldAdd(M.EmptyWindow, g).Success? && M.WindowCovers(doc, FoldAdd(M.EmptyWindow, g).value)
  {
    TailFacts(doc, g);
    AddReconstructs(doc, M.EmptyWindow, g[0]);
    AddPreservesInv(M.EmptyWindow, g[0]);
    var w1 := AddTo(M.EmptyWindow, g[0]).value;
    assert w1.sources == g[..1];
    M.ChainBridge(g, 1);
    FoldChainCovers(doc, w1, g[1..]);
  }

  /** A merged annotation that reports itself empty, as one whose start or
      end is 0 or whose type is blank does, has its span and text replaced
      by those of the next annotation added, which is still appended to the
      sources. */
  lemma EmptyMergedOverwrites(w: M.Window, a: Ann)
    requires !Empty(a)
    requires w.start == Some(0) || w.end == Some(0) || !Truthy(MergedType(w.sources))
    ensures MergedEmpty(w)
    ensures AddTo(w, a) == Success(w.(start := a.start, end := a.end, text := a.text, sources := w.sources + [a]))
  {
  }

  /** A start of 0 is never reached by adds of good annotations. */
  lemma ZeroStartUnreachable(xs: seq<Ann>)
    requires AllGood(xs)
    ensures FoldAdd(M.EmptyWindow, xs).Success?
    ensures FoldAdd(M.EmptyWindow, xs).value.start != Some(0)
  {
    FoldKeepsInv(M.EmptyWindow, xs);
    if xs != [] {
      assert [] + xs == xs;
      InvNotEmpty(FoldAdd(M.EmptyWindow, xs).value);
    }
  }

  /** A taxonomy that maps two labels to a blank parent makes a merged
      annotation of those two labels report itself empty, so the next add
      throws away the span gathered so far. */
  lemma BlankParentReachable()
    ensures var m := map["X" := "", "Y" := ""];
      var a := Ann("hutchner", Some(1), Some(3), None, Some("ab"), Some("X"), m);
      var b := Ann("hutchner", Some(2), Some(5), None, Some("bcd"), Some("Y"), m);
      FoldAdd(M.EmptyWindow, [a, b]) == Success(M.Window(Some(1), Some(5), Some("abcd"), map[], [a, b]))
      && !Truthy(MergedType([a, b]))
  {
    var m := map["X" := "", "Y" := ""];
    var a := Ann("hutchner", Some(1), Some(3), None, Some("ab"), Some("X"), m);
    var b := Ann("hutchner", Some(2), Some(5), None, Some("bcd"), Some("Y"), m);
    assert !Empty(a) && !Empty(b) && MergedEmpty(M.EmptyWindow);
    var w1 := M.Window(Some(1), Some(3), Some("ab"), map[], [a]);
    assert [] + [a] == [a];
    assert AddTo(M.EmptyWindow, a) == Success(w1);
    assert R.SingleType([a]) && !MergedEmpty(w1);
    assert PySliceFrom("bcd", 1) == "cd" && "ab" + "cd" == "abcd";
    var w2 := M.Window(Some(1), Some(5), Some("abcd"), map[], [a, b]);
    assert [a] + [b] == [a, b];
    assert AddTo(w1, b) == Success(w2);
    assert A.ParentType(a) == Some("") && A.ParentType(b) == Some("");
    assert [a, b][1].typ != [a, b][0].typ;
    assert !R.SingleType([a, b]) && R.SingleParent([a, b]);
    assert MergedType([a, b]) == Some("");
    assert [a, b][1..] == [b] && [b][1..] == [];
    assert FoldAdd(w1, [b]) == FoldAdd(w2, []) == Success(w2);
  }

  // ---------------------------------------------------------------------
  // to_dict of a merged annotation

  /** `to_dict(detailed)` of a merged annotation: the score is the one the
      constructor left, None; the type is the merged type. */
  function MergedToDict(w: M.Window, detailed: bool): (d: M.MergedDict)
    ensures d.origin == "merged" && d.score == None && d.typ == MergedType(w.sources)
    ensures d.start == w.start && d.end == w.end && d.text == w.text
    ensures |d.sourceScores| == |w.sources| && forall i | 0 <= i < |w.sources| :: d.sourceScores[i] == w.sources[i].score
    ensures d.sourceTypes == R.SourceTypes(w.sources) && d.sourceOrigins == R.SourceOrigins(w.sources)
    ensures d.sourceAnnotations.Some? <==> detailed
    ensures detailed ==>
      |d.sourceAnnotations.value| == |w.sources|
      && forall i | 0 <= i < |w.sources| :: d.sourceAnnotations.value[i] == A.ToDict(w.sources[i])
  {
    var annotations := if detailed then Some(M.ToDicts(w.sources)) else None;
    M.MergedDict("merged", w.start, w.end, None, MergedType(w.sources), w.text,
      R.SourceTypes(w.sources), R.SourceScores(w.sources), R.SourceOrigins(w.sources), annotations)
  }

  // ---------------------------------------------------------------------
  // The object

  class MergedAnnotation {
    var start: Option<int>
    var end: Option<int>
    var text: Option<string>
    var sources: seq<Ann>

    /** The current field values; the taxonomy of a merged annotation is
        the empty one `Annotation.__init__` sets. */
    function View(): M.Window
      reads this
    {
      M.Window(start, end, text, map[], sources)
    }

    /** `MergedAnnotation()`. */
    constructor ()
      ensures View() == M.EmptyWindow
    {
      start, end, text, sources := None, None, None, [];
    }

    /** `self.type`. */
    function Type(): Option<string>
      reads this
    {
      MergedType(sources)
    }

    /** `self.empty()`. */
    method IsEmpty() returns (r: bool)
      ensures r == MergedEmpty(View())
    {
      r := !(TruthyInt(start) && TruthyInt(end) && Truthy(text) && Truthy(Type()));
    }

    /** `add_annotation(ann)`: on an exception nothing has changed. */
    method AddAnnotation(a: Ann) returns (r: Outcome<Error>)
      modifies this
      ensures AddTo(old(View()), a).Success? ==> r == Pass && View() == AddTo(old(View()), a).value
      ensures AddTo(old(View()), a).Failure? ==> r == Fail(EmptyAnnotation) && View() == old(View())
    {
      if Empty(a) {
        return Fail(EmptyAnnotation);
      }
      var isEmpty := IsEmpty();
      if isEmpty {
        text := a.text;
        start := a.start;
        end := a.end;
      } else {
        if start.value <= a.start.value {
          text := Some(text.value + PySliceFrom(a.text.value, end.value - a.start.value));
        } else {
          text := Some(a.text.value + PySliceFrom(text.value, a.end.value - start.value));
        }
        start := Some(Min(start.value, a.start.value));
        end := Some(Max(end.value, a.end.value));
      }
      sources := sources + [a];
      return Pass;
    }
  }

  /** What `AnnotationFactory.from_annotations(anns)` builds: the fields of
      one merged annotation after adding every annotation in turn. */
  function FromAnnotationsSpec(xs: seq<Ann>): (r: Result<M.Window, Error>)
    ensures r == Failure(EmptyList) <==> xs == []
    ensures r.Failure? && xs != [] ==> r.error == EmptyAnnotation
  {
    FoldFails(M.EmptyWindow, xs);
    if xs == [] then Failure(EmptyList) else FoldAdd(M.EmptyWindow, xs)
  }

  /** `AnnotationFactory.from_annotations(anns)`. */
  method FromAnnotations(anns: seq<Ann>) returns (r: Result<M.Window, Error>)
    ensures r == FromAnnotationsSpec(anns)
  {
    if anns == [] {
      return Failure(EmptyList);
    }
    var merged := new MergedAnnotation();
    for i := 0 to |anns|
      invariant FoldAdd(M.EmptyWindow, anns) == FoldAdd(merged.View(), anns[i..])
    {
      assert anns[i..][1..] == anns[i + 1..];
      var o := merged.AddAnnotation(anns[i]);
      if o.Fail? {
        return Failure(o.error);
      }
    }
    return Success(merged.View());
  }

  /** `from_annotations` fails exactly on an empty list or an empty
      member, and otherwise keeps the whole list as its sources. */
  lemma FromAnnotationsFails(xs: seq<Ann>)
    ensures FromAnnotationsSpec(xs).Failure? <==> xs == [] || AnyEmpty(xs)
    ensures FromAnnotationsSpec(xs).Success? ==> FromAnnotationsSpec(xs).value.sources == xs
  {
    FoldFails(M.EmptyWindow, xs);
    if FromAnnotationsSpec(xs).Success? {
      FoldSources(M.EmptyWindow, xs);
      assert [] + xs == xs;
    }
  }

  // ---------------------------------------------------------------------
  // unionize_annotations

  /** One merged annotation per group, in order; the first failure is the
      result. */
  function EmitGroups(gs: seq<seq<Ann>>): (r: Result<seq<M.Window>, Error>)
    ensures gs == [] ==> r == Success([])
    ensures r.Success? ==> |r.value| == |gs|
  {
    if gs == [] then Success([])
    else match FromAnnotationsSpec(gs[0])
      case Failure(e) => Failure(e)
      case Success(w) => Then([w], EmitGroups(gs[1..]))
  }

  /** What `unionize_annotations` computes: `max([])` raises on no input;
      otherwise `from_annotations` of every overlap group of the
      annotations sorted by start. */
  function UnionizeSpec(xs: seq<Ann>): (r: Result<seq<M.Window>, Error>)
    requires AllHaveOffsets(xs)
    ensures xs == [] <==> r == Failure(EmptyMax)
  {
    if xs == [] then Failure(EmptyMax)
    else
      UnionizeErrors(xs);
      EmitGroups(Groups(SortByStart(xs)))
  }

  /** The groups of a non-empty list only fail with "new annotation cannot
      be empty". */
  lemma UnionizeErrors(xs: seq<Ann>)
    requires AllHaveOffsets(xs) && xs != []
    ensures EmitGroups(Groups(SortByStart(xs))).Failure? ==>
      EmitGroups(Groups(SortByStart(xs))).error == EmptyAnnotation
  {
    SortIsSorted(xs);
    GroupsPartition(SortByStart(xs));
    EmitGroupsFails(Groups(SortByStart(xs)));
  }

  lemma {:induction false} EmitGroupsAppend(a: seq<seq<Ann>>, b: seq<seq<Ann>>)
    ensures EmitGroups(a).Failure? ==> EmitGroups(a + b) == EmitGroups(a)
    ensures EmitGroups(a).Success? ==> EmitGroups(a + b) == Then(EmitGroups(a).value, EmitGroups(b))
    decreases |a|
  {
    if a == [] {
      assert a + b == b;
      ThenNil(EmitGroups(b));
    } else {
      assert (a + b)[0] == a[0] && (a + b)[1..] == a[1..] + b;
      EmitGroupsAppend(a[1..], b);
      if FromAnnotationsSpec(a[0]).Success? && EmitGroups(a[1..]).Success? {
        ThenThen([FromAnnotationsSpec(a[0]).value], EmitGroups(a[1..]).value, EmitGroups(b));
      }
    }
  }

  /** Handing the open group to `from_annotations` after the groups
      already emitted. */
  lemma EmitClose(closed: seq<seq<Ann>>, done: seq<M.Window>, current: seq<Ann>, later: seq<seq<Ann>>)
    requires EmitGroups(closed) == Success(done)
    ensures FromAnnotationsSpec(current).Failure? ==>
      EmitGroups((closed + [current]) + later) == Failure(FromAnnotationsSpec(current).error)
    ensures FromAnnotationsSpec(current).Success? ==>
      EmitGroups(closed + [current]) == Success(done + [FromAnnotationsSpec(current).value])
  {
    EmitGroupsAppend(closed, [current]);
    EmitGroupsAppend(closed + [current], later);
    if FromAnnotationsSpec(current).Success? {
      assert [current][1..] == [];
      assert [FromAnnotationsSpec(current).value] + [] == [FromAnnotationsSpec(current).value];
    }
  }

  /** `unionize_annotations(annotations)`. On well-formed spans it computes
      `UnionizeSpec`; an annotation that starts before index 0 blocks the
      walk, which then collects nothing and returns an empty list. */
  method UnionizeAnnotations(anns: seq<Ann>) returns (r: Result<seq<M.Window>, Error>)
    requires AllHaveOffsets(anns)
    ensures anns == [] ==> r == Failure(EmptyMax)
    ensures U.WellFormedSpans(anns) ==> r == UnionizeSpec(anns)
    ensures (exists i | 0 <= i < |anns| :: anns[i].start.value < 0) ==> r == Success([])
  {
    var sorted := SortByStart(anns);
    if anns == [] {
      return Failure(EmptyMax);
    }
    SortIsSorted(anns);
    var top := MaxEnd(anns);
    U.SortedBounds(anns, sorted, top);
    r := Walk(sorted, top);
  }

  /** The walk over the indexes `0 .. top - 1`, on the sorted annotations;
      each closed group becomes one merged annotation. */
  method Walk(sorted: seq<Ann>, top: int) returns (r: Result<seq<M.Window>, Error>)
    requires AllHaveOffsets(sorted)
    ensures U.Pending(sorted, 0, top) ==> r == EmitGroups(Groups(sorted))
    ensures sorted != [] && sorted[0].start.value < 0 ==> r == Success([])
  {
    ghost var wf := U.Pending(sorted, 0, top);
    ghost var neg := sorted != [] && sorted[0].start.value < 0;
    var rest := sorted;
    var finalAnns: seq<M.Window> := [];
    var current: seq<Ann> := [];
    // the groups already handed to `from_annotations`
    ghost var closed: seq<seq<Ann>> := [];
    assert Groups(sorted) == closed + Sweep(rest, current);
    var idx := 0;
    while idx < top
      invariant 0 <= idx
      invariant AllHaveOffsets(rest) && AllHaveOffsets(current)
      invariant wf ==> U.Pending(rest, idx, top)
      invariant wf ==> Groups(sorted) == closed + Sweep(rest, current)
      invariant EmitGroups(closed) == Success(finalAnns)
      invariant neg ==> rest != [] && rest[0].start.value < 0 && current == [] && finalAnns == []
      decreases top - idx
    {
      if current != [] && forall i | 0 <= i < |current| :: current[i].end.value <= idx {
        var o := FromAnnotations(current);
        if wf {
          U.CloseGroup(closed, current, rest, idx, top);
        }
        EmitClose(closed, finalAnns, current, Sweep(rest, []));
        if o.Failure? {
          return Failure(o.error);
        }
        closed := closed + [current];
        finalAnns := finalAnns + [o.value];
        current := [];
      }
      if current != [] {
        U.EndsBy(current, idx);
      }
      ghost var before := (rest, current);
      rest, current := U.TakeStartingAt(rest, current, idx, top);
      assert neg ==> rest == before.0 && current == before.1;
      if wf {
        U.PendingNext(rest, idx, top);
      }
      idx := idx + 1;
    }
    if wf {
      if rest != [] {
        assert false;
      }
      U.SweepDone(closed, current);
    }
    if current != [] {
      var o := FromAnnotations(current);
      EmitClose(closed, finalAnns, current, []);
      if o.Failure? {
        return Failure(o.error);
      }
      closed := closed + [current];
      finalAnns := finalAnns + [o.value];
    }
    return Success(finalAnns);
  }

  // ---------------------------------------------------------------------
  // Properties of unionize_annotations

  lemma {:induction false} EmitGroupsFails(gs: seq<seq<Ann>>)
    requires GroupsOk(gs)
    ensures EmitGroups(gs).Failure? <==> AnyEmpty(Flatten(gs))
    ensures EmitGroups(gs).Failure? ==> EmitGroups(gs).error == EmptyAnnotation
    decreases |gs|
  {
    if gs != [] {
      FromAnnotationsFails(gs[0]);
      assert GroupsOk(gs[1..]);
      EmitGroupsFails(gs[1..]);
      AnyEmptyConcat(gs[0], Flatten(gs[1..]));
    }
  }

  /** `unionize_annotations` fails exactly when there is no annotation or
      one of them is empty: on one that starts or ends at offset 0, for
      one. */
  lemma UnionizeFails(xs: seq<Ann>)
    requires AllHaveOffsets(xs)
    ensures UnionizeSpec(xs).Failure? <==> xs == [] || AnyEmpty(xs)
    ensures xs != [] && UnionizeSpec(xs).Failure? ==> UnionizeSpec(xs).error == EmptyAnnotation
  {
    if xs != [] {
      var sorted := SortByStart(xs);
      SortIsSorted(xs);
      GroupsPartition(sorted);
      EmitGroupsFails(Groups(sorted));
      AnyEmptyPerm(sorted, xs);
    }
  }

  /** The first sample MedLP entity, "Patient is Mr. John Smith" at offset
      0, makes every `unionize_annotations` it takes part in fail. */
  lemma SampleAtZeroFails(xs: seq<Ann>)
    requires AllHaveOffsets(xs)
    requires FromMedlp(A.CompMedRecord(Some(0), Some(25), Some(0.99), Some("NAME"),
                                       Some("Patient is Mr. John Smith"))) in xs
    ensures UnionizeSpec(xs) == Failure(EmptyAnnotation)
  {
    var a := FromMedlp(A.CompMedRecord(Some(0), Some(25), Some(0.99), Some("NAME"),
                                       Some("Patient is Mr. John Smith")));
    var i :| 0 <= i < |xs| && xs[i] == a;
    assert Empty(xs[i]);
    UnionizeFails(xs);
  }

  /** The merged annotations hold the sources of their groups in order. */
  function WindowSources(ws: seq<M.Window>): seq<Ann> {
    if ws == [] then [] else ws[0].sources + WindowSources(ws[1..])
  }

  lemma {:induction false} EmitGroupsSources(gs: seq<seq<Ann>>)
    requires EmitGroups(gs).Success?
    ensures WindowSources(EmitGroups(gs).value) == Flatten(gs)
    decreases |gs|
  {
    if gs != [] {
      FromAnnotationsFails(gs[0]);
      EmitGroupsSources(gs[1..]);
      var ws := EmitGroups(gs).value;
      assert ws[0] == FromAnnotationsSpec(gs[0]).value && ws[1..] == EmitGroups(gs[1..]).value;
    }
  }

  /** A successful `unionize_annotations` hands back every input annotation
      exactly once, in the order of the stable sort by start. */
  lemma UnionizeKeepsSources(xs: seq<Ann>)
    requires AllHaveOffsets(xs) && UnionizeSpec(xs).Success?
    ensures WindowSources(UnionizeSpec(xs).value) == SortByStart(xs)
    ensures multiset(WindowSources(UnionizeSpec(xs).value)) == multiset(xs)
  {
    SortIsSorted(xs);
    GroupsPartition(SortByStart(xs));
    EmitGroupsSources(Groups(SortByStart(xs)));
  }

  /** Groups of well-formed spans sorted by start, each chained. */
  predicate MergeableGroups(gs: seq<seq<Ann>>) {
    forall i | 0 <= i < |gs| :: gs[i] != [] && M.WellFormed(gs[i])
      && SortedByStart(gs[i]) && Chained(gs[i]) && AllGood(gs[i])
  }

  /** Each merged annotation of `ws` is the merge of the group of `gs` at
      the same place. */
  predicate AllMergedOver(doc: string, gs: seq<seq<Ann>>, ws: seq<M.Window>)
    requires GroupsOk(gs)
    decreases |gs|
  {
    |gs| == |ws| && (gs == [] || (MergedOver(doc, gs[0], ws[0]) && AllMergedOver(doc, gs[1..], ws[1..])))
  }

  lemma {:induction false} AllMergedOverAt(doc: string, gs: seq<seq<Ann>>, ws: seq<M.Window>, i: nat)
    requires GroupsOk(gs) && AllMergedOver(doc, gs, ws) && i < |gs|
    ensures i < |ws| && MergedOver(doc, gs[i], ws[i])
    decreases i
  {
    if i > 0 {
      assert GroupsOk(gs[1..]);
      AllMergedOverAt(doc, gs[1..], ws[1..], i - 1);
      assert gs[1..][i - 1] == gs[i] && ws[1..][i - 1] == ws[i];
    }
  }

  lemma {:induction false} EmitGroupsMerge(doc: string, gs: seq<seq<Ann>>)
    requires MergeableGroups(gs)
    ensures GroupsOk(gs) && EmitGroups(gs).Success?
    ensures AllMergedOver(doc, gs, EmitGroups(gs).value)
    decreases |gs|
  {
    if gs != [] {
      GroupMerge(doc, gs[0]);
      assert MergeableGroups(gs[1..]);
      EmitGroupsMerge(doc, gs[1..]);
      var ws := EmitGroups(gs).value;
      assert ws[0] == FromAnnotationsSpec(gs[0]).value && ws[1..] == EmitGroups(gs[1..]).value;
    }
  }

  /** The groups of the sorted annotations inherit what holds of every
      input annotation. */
  lemma GroupsInherit(doc: string, xs: seq<Ann>)
    requires U.WellFormedSpans(xs)
    ensures GroupsOk(Groups(SortByStart(xs))) && Separated(Groups(SortByStart(xs)))
    ensures AllGood(xs) ==> MergeableGroups(Groups(SortByStart(xs)))
    ensures M.AllCover(doc, xs) ==>
      forall i | 0 <= i < |Groups(SortByStart(xs))| :: M.AllCover(doc, Groups(SortByStart(xs))[i])
  {
    var gs := Groups(SortByStart(xs));
    GroupsMembers(xs);
    U.GroupsWellFormed(xs);
    if AllGood(xs) {
      forall i | 0 <= i < |gs| ensures AllGood(gs[i]) {
        forall k | 0 <= k < |gs[i]| ensures Good(gs[i][k]) {
          var j :| 0 <= j < |xs| && xs[j] == gs[i][k];
        }
      }
    }
    if M.AllCover(doc, xs) {
      forall i | 0 <= i < |gs| ensures M.AllCover(doc, gs[i]) {
        forall k | 0 <= k < |gs[i]| ensures AnnCovers(doc, gs[i][k]) {
          var j :| 0 <= j < |xs| && xs[j] == gs[i][k];
        }
      }
    }
  }

  /** Every member of a group is an input annotation. */
  lemma GroupsMembers(xs: seq<Ann>)
    requires AllHaveOffsets(xs)
    ensures GroupsOk(Groups(SortByStart(xs))) && Separated(Groups(SortByStart(xs)))
    ensures forall i | 0 <= i < |Groups(SortByStart(xs))| ::
      Chained(Groups(SortByStart(xs))[i]) && SortedByStart(Groups(SortByStart(xs))[i])
    ensures forall i, k | 0 <= i < |Groups(SortByStart(xs))| && 0 <= k < |Groups(SortByStart(xs))[i]| ::
      Groups(SortByStart(xs))[i][k] in xs
  {
    var sorted := SortByStart(xs);
    SortIsSorted(xs);
    GroupsPartition(sorted);
    U.GroupMembers(sorted);
    forall x | x in sorted ensures x in xs {
      assert x in multiset(sorted);
    }
  }

  /** On well-formed spans of good annotations `unionize_annotations`
      succeeds with one merged annotation per overlap group; each spans
      exactly its group, the groups do not overlap, and when the
      annotations are parts of one document every merged text is the
      document over its span. */
  lemma UnionizeMerges(doc: string, xs: seq<Ann>)
    requires U.WellFormedSpans(xs) && AllGood(xs) && xs != []
    ensures UnionizeSpec(xs).Success?
    ensures var gs := Groups(SortByStart(xs));
      GroupsOk(gs) && Separated(gs) && |UnionizeSpec(xs).value| == |gs|
      && forall i | 0 <= i < |gs| :: MergedOver(doc, gs[i], UnionizeSpec(xs).value[i])
  {
    var gs := Groups(SortByStart(xs));
    GroupsInherit(doc, xs);
    EmitGroupsMerge(doc, gs);
    forall i | 0 <= i < |gs| ensures MergedOver(doc, gs[i], UnionizeSpec(xs).value[i]) {
      AllMergedOverAt(doc, gs, UnionizeSpec(xs).value, i);
    }
  }
}
