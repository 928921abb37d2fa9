/** `MergedAnnotation` of the flaskphiid engine (flaskphiid/annotation.py):
    `add_annotation`, `split_annotations_by_subtypes`, `to_dict` and the two
    factory methods that build merged annotations from a list. The object
    is a class whose fields `add_annotation` updates; `Window` is the value
    of those fields, and the pure functions over windows are the
    specification the methods are proved against. */
module PhiMerge {
  import opened Common
  import opened PhiAnnotation
  import opened PhiResolution
  import opened Grouping

  /** The fields of a merged annotation: its span, its spliced text, its
      taxonomy and its sources, in the order they were added. */
  datatype Window = Window(
    start: Option<int>,
    end: Option<int>,
    text: Option<string>,
    typeMap: map<string, string>,
    sources: seq<Ann>)

  /** A freshly constructed `MergedAnnotation()`. */
  const EmptyWindow: Window := Window(None, None, None, map[], [])

  /** `empty()` of a merged annotation: it reads the merged `type` only
      once offsets and text are present, and that read may raise. */
  function MergedEmpty(w: Window): (r: Result<bool, Error>)
    ensures w.sources == [] && Truthy(w.text) && w.start.Some? && w.end.Some? ==> r == Success(false)
    ensures !(w.start.Some? && w.end.Some? && Truthy(w.text)) ==> r == Success(true)
    ensures r.Failure? ==> r.error == NoneScore
  {
    if !(w.start.Some? && w.end.Some? && Truthy(w.text)) then Success(true)
    else
      ResolvedTypeFails(w.sources);
      match ResolvedType(w.sources)
      case Failure(e) => Failure(e)
      case Success(t) => Success(!Truthy(t))
  }

  /** `add_annotation(ann)` on the fields `w`: an empty annotation is
      refused; a merged annotation that is itself empty takes the span,
      text and taxonomy of `ann`; a disjoint annotation is refused;
      otherwise the text is spliced and the span widened. The source is
      appended in every case that does not raise. */
  function AddTo(w: Window, a: Ann): (r: Result<Window, Error>)
    ensures Empty(a) <==> r == Failure(EmptyAnnotation)
    ensures r.Success? ==> r.value.sources == w.sources + [a]
    ensures r.Failure? ==> AddError(r.error)
  {
    if Empty(a) then Failure(EmptyAnnotation)
    else match MergedEmpty(w)
      case Failure(e) => Failure(e)
      case Success(isEmpty) =>
        if isEmpty then Success(Window(a.start, a.end, a.text, a.typeMap, w.sources + [a]))
        else if w.end.value < a.start.value || w.start.value > a.end.value then Failure(NoOverlap)
        else
          Success(Window(
            Some(Min(w.start.value, a.start.value)),
            Some(Max(w.end.value, a.end.value)),
            Some(SpliceText(w.start.value, w.end.value, w.text.value,
                            a.start.value, a.end.value, a.text.value)),
            if w.typeMap != map[] then w.typeMap else a.typeMap,
            w.sources + [a]))
  }

  /** The errors `add_annotation` raises. */
  predicate AddError(e: Error) {
    e == EmptyAnnotation || e == NoOverlap || e == NoneScore
  }

  /** Adding the annotations of `xs` one after another; the first failure
      is the result. */
  function FoldAdd(w: Window, xs: seq<Ann>): (r: Result<Window, Error>)
    ensures r.Failure? ==> AddError(r.error)
    decreases |xs|
  {
    if xs == [] then Success(w)
    else match AddTo(w, xs[0])
      case Failure(e) => Failure(e)
      case Success(w1) => FoldAdd(w1, xs[1..])
  }

  /** A successful sequence of adds appends the annotations to the sources;
      a failing one fails with the error of the first add that fails. */
  lemma {:induction false} FoldSources(w: Window, xs: seq<Ann>)
    ensures FoldAdd(w, xs).Success? ==> FoldAdd(w, xs).value.sources == w.sources + xs
    ensures FoldAdd(w, xs).Failure? ==> exists i | 0 <= i < |xs| ::
      FoldAdd(w, xs[..i]).Success? && AddTo(FoldAdd(w, xs[..i]).value, xs[i]) == FoldAdd(w, xs)
    decreases |xs|
  {
    if xs != [] {
      match AddTo(w, xs[0])
      case Failure(e) =>
        assert xs[..0] == [];
      case Success(w1) =>
        FoldSources(w1, xs[1..]);
        assert [xs[0]] + xs[1..] == xs;
        if FoldAdd(w1, xs[1..]).Failure? {
          var i :| 0 <= i < |xs[1..]| && FoldAdd(w1, xs[1..][..i]).Success?
            && AddTo(FoldAdd(w1, xs[1..][..i]).value, xs[1..][i]) == FoldAdd(w1, xs[1..]);
          assert xs[..i + 1][0] == xs[0] && xs[..i + 1][1..] == xs[1..][..i];
          assert FoldAdd(w, xs[..i + 1]) == FoldAdd(w1, xs[1..][..i]);
        }
    }
  }

  // ---------------------------------------------------------------------
  // The invariant of a merged annotation built from good sources

  /** The taxonomy `self.type_map or ann.type_map` settles on: that of the
      first source whose taxonomy is not empty. */
  function FirstMap(xs: seq<Ann>): (m: map<string, string>)
    ensures m == map[] <==> forall i | 0 <= i < |xs| :: xs[i].typeMap == map[]
    ensures m != map[] ==> exists i | 0 <= i < |xs| ::
      xs[i].typeMap == m && (forall j | 0 <= j < i :: xs[j].typeMap == map[])
  {
    if xs == [] then map[]
    else
      var p := xs[..|xs| - 1];
      var fp := FirstMap(p);
      assert forall j | 0 <= j < |p| :: xs[j] == p[j];
      if fp != map[] then fp else xs[|xs| - 1].typeMap
  }

  /** The fields agree with the sources: no field is set before the first
      source, then the span is the hull of the sources, the text is
      present and the taxonomy is the first non-empty one. */
  predicate WindowInv(w: Window) {
    if w.sources == [] then w == EmptyWindow
    else
      AllGood(w.sources) && AllHaveOffsets(w.sources)
      && w.start == Some(MinStart(w.sources)) && w.end == Some(MaxEnd(w.sources))
      && Truthy(w.text) && w.typeMap == FirstMap(w.sources)
  }

  /** The text is the part of the document between the offsets. */
  predicate WindowCovers(doc: string, w: Window) {
    w.start.Some? && w.end.Some? && w.text.Some?
    && Covers(doc, w.start.value, w.end.value, w.text.value)
  }

  lemma HullExtend(xs: seq<Ann>, a: Ann)
    requires AllHaveOffsets(xs) && |xs| > 0 && HasOffsets(a)
    ensures AllHaveOffsets(xs + [a])
    ensures MinStart(xs + [a]) == Min(MinStart(xs), a.start.value)
    ensures MaxEnd(xs + [a]) == Max(MaxEnd(xs), a.end.value)
    ensures FirstMap(xs + [a]) == if FirstMap(xs) != map[] then FirstMap(xs) else a.typeMap
  {
    var ys := xs + [a];
    assert ys[..|ys| - 1] == xs;
    assert forall i | 0 <= i < |ys| :: ys[i] == if i < |xs| then xs[i] else a;
  }

  /** A merged annotation of good sources is never empty. */
  lemma InvNotEmpty(w: Window)
    requires WindowInv(w) && w.sources != []
    ensures MergedEmpty(w) == Success(false)
  {
    GoodTypeTruthy(w.sources);
  }

  /** A good annotation is refused exactly when it is disjoint from the span
      of a non-empty merged annotation, and then with "annotation text must
      overlap"; touching spans are accepted. */
  lemma AddRejects(w: Window, a: Ann)
    requires WindowInv(w) && w.sources != [] && Good(a)
    ensures AddTo(w, a).Failure? <==>
      MaxEnd(w.sources) < a.start.value || MinStart(w.sources) > a.end.value
    ensures AddTo(w, a).Failure? ==> AddTo(w, a).error == NoOverlap
  {
    InvNotEmpty(w);
  }

  /** The first annotation added to a fresh merged annotation sets every
      field from it. */
  lemma AddToFresh(a: Ann)
    ensures !Empty(a) ==> AddTo(EmptyWindow, a) == Success(Window(a.start, a.end, a.text, a.typeMap, [a]))
    ensures Good(a) ==> WindowInv(AddTo(EmptyWindow, a).value)
  {
    assert [] + [a] == [a];
  }

  /** Adding a good annotation keeps the fields in agreement with the
      sources: the span grows to the hull of the old span and the new one. */
  lemma AddPreservesInv(w: Window, a: Ann)
    requires WindowInv(w) && Good(a) && AddTo(w, a).Success?
    ensures WindowInv(AddTo(w, a).value)
  {
    if w.sources == [] {
      AddToFresh(a);
    } else {
      InvNotEmpty(w);
      HullExtend(w.sources, a);
      AllGoodSnoc(w.sources, a);
    }
  }

  /** When the merged text and the new text are both the parts of one
      document their offsets name, the spliced text is the document over the
      widened span: nothing is lost and nothing is doubled. */
  lemma AddReconstructs(doc: string, w: Window, a: Ann)
    requires WindowInv(w) && Good(a) && AnnCovers(doc, a)
    requires w.sources == [] || WindowCovers(doc, w)
    requires AddTo(w, a).Success?
    ensures WindowCovers(doc, AddTo(w, a).value)
  {
    if w.sources != [] {
      InvNotEmpty(w);
      SpliceReconstructs(doc, w.start.value, w.end.value, w.text.value,
                         a.start.value, a.end.value, a.text.value);
    }
  }

  predicate AllCover(doc: string, xs: seq<Ann>) {
    forall i | 0 <= i < |xs| :: AnnCovers(doc, xs[i])
  }

  /** One add of a good annotation, as `AddPreservesInv` and
      `AddReconstructs` together state it. */
  lemma AddStep(doc: string, w: Window, a: Ann)
    requires WindowInv(w) && Good(a) && AddTo(w, a).Success?
    ensures WindowInv(AddTo(w, a).value)
    ensures AnnCovers(doc, a) && (w.sources == [] || WindowCovers(doc, w)) ==>
      WindowCovers(doc, AddTo(w, a).value)
  {
    AddPreservesInv(w, a);
    if AnnCovers(doc, a) && (w.sources == [] || WindowCovers(doc, w)) {
      AddReconstructs(doc, w, a);
    }
  }

  /** Every successful sequence of adds of good annotations keeps the
      invariant and, when the annotations are parts of one document, a
      text that is the document over the span. */
  lemma {:induction false} FoldKeepsInv(doc: string, w: Window, xs: seq<Ann>)
    requires WindowInv(w) && AllGood(xs) && FoldAdd(w, xs).Success?
    ensures WindowInv(FoldAdd(w, xs).value)
    ensures (AllCover(doc, xs) && (w.sources == [] || WindowCovers(doc, w))
             && FoldAdd(w, xs).value.sources != []) ==> WindowCovers(doc, FoldAdd(w, xs).value)
    decreases |xs|
  {
    if xs != [] {
      assert Good(xs[0]);
      AddStep(doc, w, xs[0]);
      var w1 := AddTo(w, xs[0]).value;
      FoldStep(w, xs);
      assert AllGood(xs[1..]) && (AllCover(doc, xs) ==> AnnCovers(doc, xs[0]) && AllCover(doc, xs[1..]));
      FoldKeepsInv(doc, w1, xs[1..]);
    }
  }

  /** Well-formed spans: both offsets present and the start not after the
      end. */
  predicate WellFormed(xs: seq<Ann>) {
    AllHaveOffsets(xs) && forall i | 0 <= i < |xs| :: xs[i].start.value <= xs[i].end.value
  }

  /** FoldAdd unfolded once. */
  lemma FoldStep(w: Window, xs: seq<Ann>)
    requires xs != [] && AddTo(w, xs[0]).Success?
    ensures FoldAdd(w, xs) == FoldAdd(AddTo(w, xs[0]).value, xs[1..])
  {
  }

  /** Each annotation of `xs` in turn overlaps or touches the hull
      `[lo, hi]` of the window so far, which then grows to include it. */
  predicate ChainFrom(lo: int, hi: int, xs: seq<Ann>)
    requires AllHaveOffsets(xs)
    decreases |xs|
  {
    xs == [] ||
      (xs[0].start.value <= hi && lo <= xs[0].end.value
       && ChainFrom(Min(lo, xs[0].start.value), Max(hi, xs[0].end.value), xs[1..]))
  }

  /** Adding good annotations that each overlap the window so far never
      fails and keeps the invariant. */
  lemma {:induction false} FoldChainRest(w: Window, rest: seq<Ann>)
    requires WindowInv(w) && w.sources != [] && AllGood(rest) && AllHaveOffsets(rest)
    requires ChainFrom(MinStart(w.sources), MaxEnd(w.sources), rest)
    ensures FoldAdd(w, rest).Success?
    ensures WindowInv(FoldAdd(w, rest).value) && FoldAdd(w, rest).value.sources == w.sources + rest
    decreases |rest|
  {
    if rest == [] {
      assert w.sources + rest == w.sources;
    } else {
      var a := rest[0];
      assert Good(a);
      ChainStep(w, a);
      var w1 := AddTo(w, a).value;
      HullExtend(w.sources, a);
      FoldStep(w, rest);
      assert AllGood(rest[1..]) && AllHaveOffsets(rest[1..]);
      FoldChainRest(w1, rest[1..]);
      AppendHead(w.sources, rest);
    }
  }

  lemma ChainStep(w: Window, a: Ann)
    requires WindowInv(w) && w.sources != [] && Good(a)
    requires MaxEnd(w.sources) >= a.start.value && MinStart(w.sources) <= a.end.value
    ensures AddTo(w, a).Success?
    ensures WindowInv(AddTo(w, a).value) && AddTo(w, a).value.sources == w.sources + [a]
  {
    AddRejects(w, a);
    AddPreservesInv(w, a);
  }

  /** The sweep's grouping condition gives the overlap condition of the
      adds: in a sorted group each member starts before the maximum end of
      those before it and ends after the group's first start. */
  lemma ChainBridge(g: seq<Ann>, k: nat)
    requires WellFormed(g) && SortedByStart(g) && Chained(g) && 1 <= k <= |g|
    ensures AllHaveOffsets(g[..k]) && AllHaveOffsets(g[k..])
    ensures ChainFrom(MinStart(g[..k]), MaxEnd(g[..k]), g[k..])
  {
    forall j | k <= j < |g|
      ensures Linked(g, j)
    {
      HullStep(g, j);
    }
    LinksBridge(g, k);
  }

  /** Member k overlaps the hull of the members before it, and joining it
      moves the hull by Min and Max. */
  predicate Linked(g: seq<Ann>, k: int)
    requires AllHaveOffsets(g) && 1 <= k < |g|
  {
    AllHaveOffsets(g[..k]) && AllHaveOffsets(g[..k + 1])
    && g[k].start.value <= MaxEnd(g[..k]) && MinStart(g[..k]) <= g[k].end.value
    && MinStart(g[..k + 1]) == Min(MinStart(g[..k]), g[k].start.value)
    && MaxEnd(g[..k + 1]) == Max(MaxEnd(g[..k]), g[k].end.value)
  }

  /** When every member from k on is linked, the members from k on chain
      from the hull of those before k. */
  lemma {:induction false} LinksBridge(g: seq<Ann>, k: nat)
    requires AllHaveOffsets(g) && 1 <= k <= |g| && forall j | k <= j < |g| :: Linked(g, j)
    ensures AllHaveOffsets(g[..k]) && AllHaveOffsets(g[k..])
    ensures ChainFrom(MinStart(g[..k]), MaxEnd(g[..k]), g[k..])
    decreases |g| - k
  {
    SplitOffsets(g, k);
    if k < |g| {
      LinksBridge(g, k + 1);
      assert Linked(g, k);
      ChainFromAt(g, k, MinStart(g[..k]), MaxEnd(g[..k]), MinStart(g[..k + 1]), MaxEnd(g[..k + 1]));
    } else {
      assert g[k..] == [];
    }
  }

  /** One step of the bridge: the next member overlaps the hull of those
      before it, and joining it moves the hull by Min and Max. */
  lemma HullStep(g: seq<Ann>, k: nat)
    requires WellFormed(g) && SortedByStart(g) && Chained(g) && 1 <= k < |g|
    ensures AllHaveOffsets(g[..k]) && AllHaveOffsets(g[..k + 1])
    ensures g[k].start.value <= MaxEnd(g[..k]) && MinStart(g[..k]) <= g[k].end.value
    ensures MinStart(g[..k + 1]) == Min(MinStart(g[..k]), g[k].start.value)
    ensures MaxEnd(g[..k + 1]) == Max(MaxEnd(g[..k]), g[k].end.value)
  {
    var p := g[..k];
    var a := g[k];
    assert p[0] == g[0];
    assert MinStart(p) <= g[0].start.value <= a.start.value <= a.end.value;
    assert a.start.value < MaxEnd(p);
    TakeSnoc(g, k);
    HullExtend(p, a);
  }

  /** ChainFrom on a suffix, unfolded once. */
  lemma ChainFromAt(g: seq<Ann>, k: nat, lo: int, hi: int, lo': int, hi': int)
    requires k < |g| && AllHaveOffsets(g)
    requires g[k].start.value <= hi && lo <= g[k].end.value
    requires lo' == Min(lo, g[k].start.value) && hi' == Max(hi, g[k].end.value)
    requires AllHaveOffsets(g[k + 1..]) && ChainFrom(lo', hi', g[k + 1..])
    ensures AllHaveOffsets(g[k..]) && ChainFrom(lo, hi, g[k..])
  {
    DropOne(g, k);
  }

  /** A group of well-formed good annotations sorted by start, each of which
      starts before the end of those before it, merges without an error into
      one annotation over the hull of the group. */
  lemma FoldChainSucceeds(g: seq<Ann>)
    requires |g| > 0 && WellFormed(g) && SortedByStart(g) && Chained(g) && AllGood(g)
    ensures FoldAdd(EmptyWindow, g).Success?
    ensures var w := FoldAdd(EmptyWindow, g).value;
      w.sources == g && WindowInv(w)
      && w.start == Some(g[0].start.value) && w.end == Some(MaxEnd(g))
  {
    var w1 := FoldFirst(g);
    ChainBridge(g, 1);
    assert AllGood(g[1..]);
    FoldChainRest(w1, g[1..]);
    AppendHead([], g);
    SortedHull(FoldAdd(EmptyWindow, g).value, g);
  }

  /** The fold's first step starts the window at the first annotation. */
  lemma FoldFirst(g: seq<Ann>) returns (w1: Window)
    requires |g| > 0 && AllGood(g) && AllHaveOffsets(g)
    ensures AddTo(EmptyWindow, g[0]) == Success(w1)
    ensures WindowInv(w1) && w1.sources == g[..1] == [g[0]]
    ensures FoldAdd(EmptyWindow, g) == FoldAdd(w1, g[1..])
  {
    AddToFresh(g[0]);
    w1 := AddTo(EmptyWindow, g[0]).value;
    FoldStep(EmptyWindow, g);
  }

  /** The window over a sorted group starts at its first member. */
  lemma SortedHull(w: Window, g: seq<Ann>)
    requires WindowInv(w) && w.sources == g && |g| > 0 && AllHaveOffsets(g) && SortedByStart(g)
    ensures w.start == Some(g[0].start.value) && w.end == Some(MaxEnd(g))
  {
    SortedMinStart(g);
  }

  // ---------------------------------------------------------------------
  // Outputs, runs of one label and the split

  /** An element of the list the factories return: a source annotation
      itself, or a merged annotation. */
  datatype Out = Leaf(ann: Ann) | Group(window: Window)

  function Leaves(xs: seq<Ann>): (r: seq<Out>)
    ensures |r| == |xs| && forall i | 0 <= i < |xs| :: r[i] == Leaf(xs[i])
  {
    if xs == [] then [] else [Leaf(xs[0])] + Leaves(xs[1..])
  }

  function SourcesOf(o: Out): seq<Ann> {
    match o
    case Leaf(a) => [a]
    case Group(w) => w.sources
  }

  /** The source annotations an output list carries, in order. */
  function OutSources(outs: seq<Out>): seq<Ann> {
    if outs == [] then [] else SourcesOf(outs[0]) + OutSources(outs[1..])
  }

  lemma {:induction false} OutSourcesAppend(a: seq<Out>, b: seq<Out>)
    ensures OutSources(a + b) == OutSources(a) + OutSources(b)
    decreases |a|
  {
    if a == [] {
      assert a + b == b;
    } else {
      assert (a + b)[0] == a[0];
      assert (a + b)[1..] == a[1..] + b;
      OutSourcesAppend(a[1..], b);
      calc {
        OutSources(a + b);
        SourcesOf(a[0]) + OutSources(a[1..] + b);
        SourcesOf(a[0]) + (OutSources(a[1..]) + OutSources(b));
        (SourcesOf(a[0]) + OutSources(a[1..])) + OutSources(b);
      }
    }
  }

  lemma {:induction false} OutSourcesLeaves(xs: seq<Ann>)
    ensures OutSources(Leaves(xs)) == xs
    decreases |xs|
  {
    if xs != [] {
      assert Leaves(xs)[1..] == Leaves(xs[1..]);
      OutSourcesLeaves(xs[1..]);
    }
  }

  /** The loop of `split_annotations_by_subtypes`: `run` is the open run of
      equal labels; an annotation of another label closes it. */
  function RunsFrom(xs: seq<Ann>, run: seq<Ann>): (r: seq<seq<Ann>>)
    ensures 1 <= |r| <= if run == [] && xs != [] then |xs| else |xs| + 1
    decreases |xs|
  {
    if xs == [] then [run]
    else if run == [] || xs[0].typ == run[|run| - 1].typ then RunsFrom(xs[1..], run + [xs[0]])
    else [run] + RunsFrom(xs[1..], [xs[0]])
  }

  function Runs(xs: seq<Ann>): seq<seq<Ann>> {
    RunsFrom(xs, [])
  }

  predicate Uniform(run: seq<Ann>) {
    forall i | 0 <= i < |run| :: run[i].typ == run[0].typ
  }

  lemma {:induction false} RunsFromFlatten(xs: seq<Ann>, run: seq<Ann>)
    ensures Flatten(RunsFrom(xs, run)) == run + xs
    decreases |xs|
  {
    if xs == [] {
      assert Flatten([run]) == run + Flatten([]);
    } else if run == [] || xs[0].typ == run[|run| - 1].typ {
      RunsFromFlatten(xs[1..], run + [xs[0]]);
      assert (run + [xs[0]]) + xs[1..] == run + xs;
    } else {
      RunsFromFlatten(xs[1..], [xs[0]]);
      assert ([run] + RunsFrom(xs[1..], [xs[0]]))[1..] == RunsFrom(xs[1..], [xs[0]]);
      assert [xs[0]] + xs[1..] == xs;
    }
  }

  /** Every run but possibly the first of an empty list is non-empty and of
      one label, and neighbouring runs differ in label: the runs are the
      maximal blocks of equal labels. */
  lemma {:induction false} RunsFromShape(xs: seq<Ann>, run: seq<Ann>)
    requires run != [] || xs != []
    requires Uniform(run)
    ensures |RunsFrom(xs, run)| > 0
    ensures forall i | 0 <= i < |RunsFrom(xs, run)| ::
      RunsFrom(xs, run)[i] != [] && Uniform(RunsFrom(xs, run)[i])
    ensures forall i | 0 <= i < |RunsFrom(xs, run)| - 1 ::
      RunsFrom(xs, run)[i][0].typ != RunsFrom(xs, run)[i + 1][0].typ
    ensures RunsFrom(xs, run)[0] != [] &&
      RunsFrom(xs, run)[0][0].typ == (if run != [] then run[0].typ else xs[0].typ)
    decreases |xs|
  {
    if xs == [] {
    } else if run == [] || xs[0].typ == run[|run| - 1].typ {
      var r1 := run + [xs[0]];
      assert forall i | 0 <= i < |r1| :: r1[i] == if i < |run| then run[i] else xs[0];
      if xs[1..] == [] {
        assert RunsFrom(xs, run) == [r1];
      } else {
        RunsFromShape(xs[1..], r1);
      }
    } else {
      RunsFromShape(xs[1..], [xs[0]]);
      var rest := RunsFrom(xs[1..], [xs[0]]);
      assert RunsFrom(xs, run) == [run] + rest;
      assert run[0].typ == run[|run| - 1].typ;
    }
  }

  lemma RunsPartition(xs: seq<Ann>)
    requires xs != []
    ensures Flatten(Runs(xs)) == xs
    ensures forall i | 0 <= i < |Runs(xs)| :: Runs(xs)[i] != [] && Uniform(Runs(xs)[i])
    ensures forall i | 0 <= i < |Runs(xs)| - 1 :: Runs(xs)[i][0].typ != Runs(xs)[i + 1][0].typ
  {
    RunsFromFlatten(xs, []);
    RunsFromShape(xs, []);
  }

  /** `AnnotationFactory.from_unsplittable_annotations`: one merged
      annotation over the whole list. */
  function FromUnsplittableSpec(xs: seq<Ann>): (r: Result<seq<Out>, Error>)
    ensures xs == [] ==> r == Failure(EmptyList)
    ensures r.Success? ==> |r.value| == 1 && r.value[0].Group? && r.value[0].window.sources == xs
  {
    if xs == [] then Failure(EmptyList)
    else
      FoldSources(EmptyWindow, xs);
      match FoldAdd(EmptyWindow, xs)
      case Failure(e) => Failure(e)
      case Success(w) => Success([Group(w)])
  }

  /** The outputs of the runs, in order; the first failure is the result. */
  function EmitRuns(runs: seq<seq<Ann>>): (r: Result<seq<Out>, Error>)
    ensures r.Success? ==> |r.value| == |runs|
  {
    if runs == [] then Success([])
    else match FromUnsplittableSpec(runs[0])
      case Failure(e) => Failure(e)
      case Success(o) => Then(o, EmitRuns(runs[1..]))
  }

  /** `split_annotations_by_subtypes()` on the fields `w`. */
  function SplitSpec(w: Window): (r: Result<seq<Out>, Error>)
    ensures r.Success? ==> 1 <= |r.value| <= |w.sources|
  {
    if SingleType(w.sources) then Success(Leaves(w.sources))
    else if SingleParent(w.sources) then EmitRuns(Runs(w.sources))
    else Failure(IncompatibleType(SourceParentTypes(w.sources)))
  }

  /** `AnnotationFactory.from_annotations`: merge all, then split the
      merged annotation when its type is not "UNKNOWN". */
  function FromAnnotationsSpec(xs: seq<Ann>): (r: Result<seq<Out>, Error>)
    ensures r.Success? ==> 1 <= |r.value| <= |xs|
  {
    if xs == [] then Failure(EmptyList)
    else
      FoldSources(EmptyWindow, xs);
      match FoldAdd(EmptyWindow, xs)
      case Failure(e) => Failure(e)
      case Success(w) =>
        match HasCompatibleFamilyTypelist(w.sources)
        case Failure(e) => Failure(e)
        case Success(compatible) => if compatible then SplitSpec(w) else Success([Group(w)])
  }

  // ---------------------------------------------------------------------
  // Properties of the split and of from_annotations

  lemma {:induction false} EmitRunsSources(runs: seq<seq<Ann>>)
    requires EmitRuns(runs).Success?
    ensures OutSources(EmitRuns(runs).value) == Flatten(runs)
    decreases |runs|
  {
    if runs != [] {
      var o := FromUnsplittableSpec(runs[0]).value;
      EmitRunsSources(runs[1..]);
      OutSourcesAppend(o, EmitRuns(runs[1..]).value);
      assert OutSources(o) == runs[0] + OutSources([]);
    }
  }

  /** A successful split hands back exactly the sources, in order. */
  lemma SplitKeepsSources(w: Window)
    requires SplitSpec(w).Success?
    ensures OutSources(SplitSpec(w).value) == w.sources
  {
    if SingleType(w.sources) {
      OutSourcesLeaves(w.sources);
    } else {
      EmitRunsSources(Runs(w.sources));
      RunsPartition(w.sources);
    }
  }

  /** `from_annotations` never raises the incompatible-type exception: the
      split is reached only when the merged type is not "UNKNOWN", and then
      the sources have one label or one family. */
  lemma FromAnnotationsNeverIncompatible(xs: seq<Ann>)
    ensures FromAnnotationsSpec(xs).Failure? ==>
      AddError(FromAnnotationsSpec(xs).error) || FromAnnotationsSpec(xs).error == EmptyList
  {
    if xs != [] {
      FoldSources(EmptyWindow, xs);
      if FoldAdd(EmptyWindow, xs).Success? {
        var w := FoldAdd(EmptyWindow, xs).value;
        ResolvedTypeFails(w.sources);
        if HasCompatibleFamilyTypelist(w.sources) == Success(true) {
          CompatibleIsOneFamily(w.sources);
          if !SingleType(w.sources) {
            EmitRunsErrors(Runs(w.sources));
          }
        }
      }
    }
  }

  /** The split of from_annotations fails only as an add or an empty run
      does. */
  lemma {:induction false} EmitRunsErrors(runs: seq<seq<Ann>>)
    ensures EmitRuns(runs).Failure? ==> AddError(EmitRuns(runs).error) || EmitRuns(runs).error == EmptyList
    decreases |runs|
  {
    if runs != [] {
      if runs[0] != [] {
        FoldSources(EmptyWindow, runs[0]);
      }
      EmitRunsErrors(runs[1..]);
    }
  }

  /** A successful `from_annotations` hands back exactly its input
      annotations, in order, spread over its outputs. */
  lemma FromAnnotationsKeepsSources(xs: seq<Ann>)
    requires FromAnnotationsSpec(xs).Success?
    ensures OutSources(FromAnnotationsSpec(xs).value) == xs
  {
    FoldSources(EmptyWindow, xs);
    var w := FoldAdd(EmptyWindow, xs).value;
    if HasCompatibleFamilyTypelist(w.sources) == Success(true) {
      SplitKeepsSources(w);
    } else {
      assert OutSources([Group(w)]) == w.sources + OutSources([]);
    }
  }

  /** A good annotation added to a merged annotation that keeps the
      invariant is refused only for being disjoint from it. */
  lemma AddGoodError(w: Window, a: Ann)
    requires WindowInv(w) && Good(a)
    ensures AddTo(w, a).Failure? ==> AddTo(w, a).error == NoOverlap
  {
    if w.sources == [] {
      AddToFresh(a);
    } else {
      AddRejects(w, a);
    }
  }

  /** Merging good annotations fails only with "annotation text must
      overlap". */
  lemma FoldGoodErrors(xs: seq<Ann>)
    requires AllGood(xs)
    ensures FoldAdd(EmptyWindow, xs).Failure? ==> FoldAdd(EmptyWindow, xs).error == NoOverlap
  {
    FoldSources(EmptyWindow, xs);
    if FoldAdd(EmptyWindow, xs).Failure? {
      var i :| 0 <= i < |xs| && FoldAdd(EmptyWindow, xs[..i]).Success?
        && AddTo(FoldAdd(EmptyWindow, xs[..i]).value, xs[i]) == FoldAdd(EmptyWindow, xs);
      assert AllGood(xs[..i]) && Good(xs[i]);
      FoldKeepsInv("", EmptyWindow, xs[..i]);
      AddGoodError(FoldAdd(EmptyWindow, xs[..i]).value, xs[i]);
    }
  }

  lemma {:induction false} FlattenParts(rs: seq<seq<Ann>>, i: nat, a: Ann)
    requires i < |rs| && a in rs[i]
    ensures a in Flatten(rs)
    decreases |rs|
  {
    if i > 0 {
      FlattenParts(rs[1..], i - 1, a);
    }
  }

  /** Every run is a non-empty part of the list, so it inherits what holds
      of every annotation of the list. */
  lemma RunsOf(doc: string, xs: seq<Ann>)
    requires xs != []
    ensures forall i | 0 <= i < |Runs(xs)| :: Runs(xs)[i] != []
    ensures AllGood(xs) ==> forall i | 0 <= i < |Runs(xs)| :: AllGood(Runs(xs)[i])
    ensures AllCover(doc, xs) ==> forall i | 0 <= i < |Runs(xs)| :: AllCover(doc, Runs(xs)[i])
  {
    var rs := Runs(xs);
    RunsPartition(xs);
    forall i, k | 0 <= i < |rs| && 0 <= k < |rs[i]|
      ensures rs[i][k] in xs
    {
      FlattenParts(rs, i, rs[i][k]);
    }
  }

  lemma {:induction false} EmitRunsGoodErrors(runs: seq<seq<Ann>>)
    requires forall i | 0 <= i < |runs| :: runs[i] != [] && AllGood(runs[i])
    ensures EmitRuns(runs).Failure? ==> EmitRuns(runs).error == NoOverlap
    decreases |runs|
  {
    if runs != [] {
      FoldGoodErrors(runs[0]);
      EmitRunsGoodErrors(runs[1..]);
    }
  }

  /** `from_annotations` of good annotations fails only with "annotation
      text must overlap": the type never raises, and the split of a single
      family merges each run of one label, which may be disjoint. */
  lemma FromAnnotationsGoodErrors(xs: seq<Ann>)
    requires xs != [] && AllGood(xs)
    ensures FromAnnotationsSpec(xs).Failure? ==> FromAnnotationsSpec(xs).error == NoOverlap
  {
    FoldGoodErrors(xs);
    FoldSources(EmptyWindow, xs);
    if FoldAdd(EmptyWindow, xs).Success? {
      var w := FoldAdd(EmptyWindow, xs).value;
      assert w.sources == xs;
      GoodTypeTruthy(xs);
      if HasCompatibleFamilyTypelist(xs).value {
        CompatibleIsOneFamily(xs);
        assert FromAnnotationsSpec(xs) == SplitSpec(w);
        if !SingleType(xs) {
          RunsOf("", xs);
          EmitRunsGoodErrors(Runs(xs));
          assert SplitSpec(w) == EmitRuns(Runs(xs));
        }
      }
    }
  }

  predicate OutCovers(doc: string, o: Out) {
    match o
    case Leaf(a) => AnnCovers(doc, a)
    case Group(w) => WindowCovers(doc, w)
  }

  predicate AllOutCover(doc: string, outs: seq<Out>) {
    forall i | 0 <= i < |outs| :: OutCovers(doc, outs[i])
  }

  /** State of every merged output: it keeps the invariant. */
  predicate OutInv(o: Out) {
    o.Group? ==> WindowInv(o.window)
  }

  lemma {:induction false} EmitRunsCover(doc: string, runs: seq<seq<Ann>>)
    requires forall i | 0 <= i < |runs| :: AllGood(runs[i]) && AllCover(doc, runs[i])
    requires EmitRuns(runs).Success?
    ensures AllOutCover(doc, EmitRuns(runs).value)
    ensures forall i | 0 <= i < |EmitRuns(runs).value| :: OutInv(EmitRuns(runs).value[i])
    decreases |runs|
  {
    if runs != [] {
      var o := FromUnsplittableSpec(runs[0]).value;
      FoldKeepsInv(doc, EmptyWindow, runs[0]);
      EmitRunsCover(doc, runs[1..]);
    }
  }

  /** A successful `from_annotations` merged the whole list and then either
      kept the merged annotation or split it. */
  lemma FromAnnotationsCases(xs: seq<Ann>)
    requires FromAnnotationsSpec(xs).Success?
    ensures xs != [] && FoldAdd(EmptyWindow, xs).Success?
    ensures FoldAdd(EmptyWindow, xs).value.sources == xs
    ensures HasCompatibleFamilyTypelist(xs).Success?
    ensures HasCompatibleFamilyTypelist(xs).value ==>
      FromAnnotationsSpec(xs) == SplitSpec(FoldAdd(EmptyWindow, xs).value)
    ensures !HasCompatibleFamilyTypelist(xs).value ==>
      FromAnnotationsSpec(xs) == Success([Group(FoldAdd(EmptyWindow, xs).value)])
  {
    FoldSources(EmptyWindow, xs);
  }

  /** The outputs of the split of a merged annotation of good parts of one
      document are good parts of it too. */
  lemma SplitCover(doc: string, w: Window)
    requires WindowInv(w) && AllCover(doc, w.sources) && SplitSpec(w).Success?
    ensures AllOutCover(doc, SplitSpec(w).value)
    ensures forall i | 0 <= i < |SplitSpec(w).value| :: OutInv(SplitSpec(w).value[i])
  {
    var xs := w.sources;
    if SingleType(xs) {
      assert SplitSpec(w).value == Leaves(xs);
    } else {
      assert SingleParent(xs) && xs != [];
      RunsOf(doc, xs);
      EmitRunsCover(doc, Runs(xs));
    }
  }

  /** When the input annotations are good parts of one document, every
      output of a successful `from_annotations` is one too: a source
      annotation, or a merged annotation whose text is the document over
      its span. */
  lemma FromAnnotationsCover(doc: string, xs: seq<Ann>)
    requires AllGood(xs) && AllCover(doc, xs)
    requires FromAnnotationsSpec(xs).Success?
    ensures AllOutCover(doc, FromAnnotationsSpec(xs).value)
    ensures forall i | 0 <= i < |FromAnnotationsSpec(xs).value| :: OutInv(FromAnnotationsSpec(xs).value[i])
  {
    FromAnnotationsCases(xs);
    var w := FoldAdd(EmptyWindow, xs).value;
    FoldKeepsInv(doc, EmptyWindow, xs);
    if HasCompatibleFamilyTypelist(xs).value {
      SplitCover(doc, w);
    }
  }

  // ---------------------------------------------------------------------
  // to_dict of a merged annotation

  datatype MergedDict = MergedDict(
    origin: string, start: Option<int>, end: Option<int>, score: Option<real>,
    typ: Option<string>, text: Option<string>,
    sourceTypes: set<Option<string>>, sourceScores: seq<Option<real>>,
    sourceOrigins: set<string>, sourceAnnotations: Option<seq<AnnDict>>)

  function ToDicts(xs: seq<Ann>): (r: seq<AnnDict>)
    ensures |r| == |xs| && forall i | 0 <= i < |xs| :: r[i] == ToDict(xs[i])
  {
    if xs == [] then [] else [ToDict(xs[0])] + ToDicts(xs[1..])
  }

  /** `to_dict(detailed)` of a merged annotation: it raises when reading the
      score or the type does. */
  function MergedToDict(w: Window, detailed: bool): (r: Result<MergedDict, Error>)
    ensures r.Success? <==> ResolvedScore(w.sources).Success? && ResolvedType(w.sources).Success?
    ensures r.Success? ==>
      r.value.origin == "merged"
      && r.value.score == ResolvedScore(w.sources).value && r.value.typ == ResolvedType(w.sources).value
      && r.value.start == w.start && r.value.end == w.end && r.value.text == w.text
      && (r.value.sourceAnnotations.Some? <==> detailed)
      && |r.value.sourceScores| == |w.sources|
      && (forall i | 0 <= i < |w.sources| :: r.value.sourceScores[i] == w.sources[i].score)
      && r.value.sourceTypes == SourceTypes(w.sources) && r.value.sourceOrigins == SourceOrigins(w.sources)
      && (detailed ==>
            |r.value.sourceAnnotations.value| == |w.sources|
            && forall i | 0 <= i < |w.sources| :: r.value.sourceAnnotations.value[i] == ToDict(w.sources[i]))
  {
    match ResolvedScore(w.sources)
    case Failure(e) => Failure(e)
    case Success(score) =>
      match ResolvedType(w.sources)
      case Failure(e) => Failure(e)
      case Success(t) =>
        var annotations := if detailed then Some(ToDicts(w.sources)) else None;
        Success(MergedDict("merged", w.start, w.end, score, t, w.text,
          SourceTypes(w.sources), SourceScores(w.sources), SourceOrigins(w.sources), annotations))
  }

  /** A merged annotation of scored sources always serialises. */
  lemma MergedToDictOfScored(w: Window, detailed: bool)
    requires Scored(w.sources)
    ensures MergedToDict(w, detailed).Success?
  {
    ResolvedScoreFails(w.sources);
    ResolvedTypeFails(w.sources);
    SubtypesScored(w.sources);
  }

  // ---------------------------------------------------------------------
  // The object

  class MergedAnnotation {
    var start: Option<int>
    var end: Option<int>
    var text: Option<string>
    var typeMap: map<string, string>
    var sources: seq<Ann>

    /** The current field values. */
    function View(): Window
      reads this
    {
      Window(start, end, text, typeMap, sources)
    }

    /** `MergedAnnotation()`. */
    constructor ()
      ensures View() == EmptyWindow
    {
      start, end, text, typeMap, sources := None, None, None, map[], [];
    }

    /** `self.type`. */
    function Type(): (r: Result<Option<string>, Error>)
      reads this
      ensures r == ResolvedType(View().sources)
    {
      ResolvedType(sources)
    }

    /** `self.empty()`. */
    method IsEmpty() returns (r: Result<bool, Error>)
      ensures r == MergedEmpty(View())
    {
      if !(start.Some? && end.Some? && Truthy(text)) {
        return Success(true);
      }
      var t := Type();
      if t.Failure? {
        return Failure(t.error);
      }
      return Success(!Truthy(t.value));
    }

    /** `add_annotation(ann)`: on an exception nothing has changed. */
    method AddAnnotation(a: Ann) returns (r: Outcome<Error>)
      modifies this
      ensures AddTo(old(View()), a).Success? ==> r == Pass && View() == AddTo(old(View()), a).value
      ensures AddTo(old(View()), a).Failure? ==>
        r == Fail(AddTo(old(View()), a).error) && View() == old(View())
    {
      if Empty(a) {
        return Fail(EmptyAnnotation);
      }
      var isEmpty := IsEmpty();
      if isEmpty.Failure? {
        return Fail(isEmpty.error);
      }
      if isEmpty.value {
        text := a.text;
        start := a.start;
        end := a.end;
        typeMap := a.typeMap;
      } else if end.value < a.start.value || start.value > a.end.value {
        return Fail(NoOverlap);
      } else {
        if start.value <= a.start.value {
          text := Some(text.value + PySliceFrom(a.text.value, end.value - a.start.value));
        } else {
          text := Some(a.text.value + PySliceFrom(text.value, a.end.value - start.value));
        }
        start := Some(Min(start.value, a.start.value));
        end := Some(Max(end.value, a.end.value));
        if typeMap == map[] {
          typeMap := a.typeMap;
        }
      }
      sources := sources + [a];
      return Pass;
    }

    /** `for ann in anns: self.add_annotation(ann)`, stopping at the first
        exception. */
    method AddAll(anns: seq<Ann>) returns (r: Outcome<Error>)
      modifies this
      ensures FoldAdd(old(View()), anns).Success? ==> r == Pass && View() == FoldAdd(old(View()), anns).value
      ensures FoldAdd(old(View()), anns).Failure? ==> r == Fail(FoldAdd(old(View()), anns).error)
    {
      for i := 0 to |anns|
        invariant FoldAdd(old(View()), anns) == FoldAdd(View(), anns[i..])
      {
        assert anns[i..][1..] == anns[i + 1..];
        r := AddAnnotation(anns[i]);
        if r.Fail? {
          return;
        }
      }
      return Pass;
    }

    /** `split_annotations_by_subtypes()`; it changes nothing. */
    method SplitAnnotationsBySubtypes() returns (r: Result<seq<Out>, Error>)
      ensures r == SplitSpec(View())
    {
      if SingleType(sources) {
        return Success(Leaves(sources));
      }
      if !SingleParent(sources) {
        return Failure(IncompatibleType(SourceParentTypes(sources)));
      }
      var srcs := sources;
      var out: seq<Out> := [];
      var running: seq<Ann> := [];
      assert srcs[0..] == srcs;
      assert Then(out, EmitRuns(Runs(srcs))) == EmitRuns(Runs(srcs)) by {
        if EmitRuns(Runs(srcs)).Success? {
          assert [] + EmitRuns(Runs(srcs)).value == EmitRuns(Runs(srcs)).value;
        }
      }
      for i := 0 to |srcs|
        invariant EmitRuns(Runs(srcs)) == Then(out, EmitRuns(RunsFrom(srcs[i..], running)))
      {
        assert srcs[i..][1..] == srcs[i + 1..];
        if running == [] || srcs[i].typ == running[|running| - 1].typ {
          running := running + [srcs[i]];
        } else {
          var o := FromUnsplittable(running);
          if o.Failure? {
            return o;
          }
          ThenThen(out, o.value, EmitRuns(RunsFrom(srcs[i + 1..], [srcs[i]])));
          out := out + o.value;
          running := [srcs[i]];
        }
      }
      var o := FromUnsplittable(running);
      if o.Failure? {
        return o;
      }
      assert srcs[|srcs|..] == [];
      assert EmitRuns(RunsFrom([], running)) == Then(o.value, Success([]));
      ThenThen(out, o.value, Success([]));
      assert (out + o.value) + [] == out + o.value;
      return Success(out + o.value);
    }
  }

  /** `AnnotationFactory.from_unsplittable_annotations(anns)`. */
  method FromUnsplittable(anns: seq<Ann>) returns (r: Result<seq<Out>, Error>)
    ensures r == FromUnsplittableSpec(anns)
  {
    if anns == [] {
      return Failure(EmptyList);
    }
    var merged := new MergedAnnotation();
    var o := merged.AddAll(anns);
    if o.Fail? {
      return Failure(o.error);
    }
    return Success([Group(merged.View())]);
  }

  /** `AnnotationFactory.from_annotations(anns)`. */
  method FromAnnotations(anns: seq<Ann>) returns (r: Result<seq<Out>, Error>)
    ensures r == FromAnnotationsSpec(anns)
  {
    if anns == [] {
      return Failure(EmptyList);
    }
    var merged := new MergedAnnotation();
    var o := merged.AddAll(anns);
    if o.Fail? {
      return Failure(o.error);
    }
    var compatible := HasCompatibleFamilyTypelist(merged.sources);
    if compatible.Failure? {
      return Failure(compatible.error);
    }
    if compatible.value {
      r := merged.SplitAnnotationsBySubtypes();
      return;
    }
    return Success([Group(merged.View())]);
  }
}
