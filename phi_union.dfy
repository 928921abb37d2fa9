/** `unionize_annotations` of the flaskphiid engine
    (flaskphiid/annotation.py): sort the annotations by start, walk the
    character indexes of the document, collect the annotations that overlap
    into groups and hand each group to `from_annotations`. The walk is a
    method with loops; it is proved equal, on well-formed spans, to the
    group partition of the sorted list followed by `from_annotations` of
    each group. */
module PhiUnion {
  import opened Common
  import opened PhiAnnotation
  import opened PhiResolution
  import opened Grouping
  import opened PhiMerge

  /** Spans the index walk handles: present offsets, the start at or after
      index 0 and strictly before the end. */
  predicate WellFormedSpans(xs: seq<Ann>) {
    AllHaveOffsets(xs)
    && forall i | 0 <= i < |xs| :: 0 <= xs[i].start.value < xs[i].end.value
  }

  /** The outputs of `from_annotations` of each group, in order; the first
      failure is the result. */
  function EmitGroups(gs: seq<seq<Ann>>): (r: Result<seq<Out>, Error>)
    ensures gs == [] ==> r == Success([])
  {
    if gs == [] then Success([])
    else match FromAnnotationsSpec(gs[0])
      case Failure(e) => Failure(e)
      case Success(o) => Then(o, EmitGroups(gs[1..]))
  }

  /** What `unionize_annotations` computes: `from_annotations` of every
      overlap group of the annotations sorted by start. */
  function UnionizeSpec(xs: seq<Ann>): (r: Result<seq<Out>, Error>)
    requires AllHaveOffsets(xs)
    ensures xs == [] ==> r == Success([])
  {
    EmitGroups(Groups(SortByStart(xs)))
  }

  /** Emitting two lists of groups one after the other. */
  lemma {:induction false} EmitGroupsAppend(a: seq<seq<Ann>>, b: seq<seq<Ann>>)
    ensures EmitGroups(a).Failure? ==> EmitGroups(a + b) == EmitGroups(a)
    ensures EmitGroups(a).Success? ==> EmitGroups(a + b) == Then(EmitGroups(a).value, EmitGroups(b))
    decreases |a|
  {
    if a == [] {
      assert a + b == b;
      ThenNil(EmitGroups(b));
    } else {
      assert (a + b)[0] == a[0] && (a + b)[1..] == a[1..] + b;
      EmitGroupsAppend(a[1..], b);
      if FromAnnotationsSpec(a[0]).Success? && EmitGroups(a[1..]).Success? {
        ThenThen(FromAnnotationsSpec(a[0]).value, EmitGroups(a[1..]).value, EmitGroups(b));
      }
    }
  }

  lemma EmitGroupsOne(g: seq<Ann>)
    ensures FromAnnotationsSpec(g).Failure? ==> EmitGroups([g]) == Failure(FromAnnotationsSpec(g).error)
    ensures FromAnnotationsSpec(g).Success? ==> EmitGroups([g]) == Success(FromAnnotationsSpec(g).value)
  {
    if FromAnnotationsSpec(g).Success? {
      assert FromAnnotationsSpec(g).value + [] == FromAnnotationsSpec(g).value;
    }
  }

  /** Handing the open group to `from_annotations` after the groups
      already emitted. */
  lemma EmitClose(closed: seq<seq<Ann>>, done: seq<Out>, current: seq<Ann>, later: seq<seq<Ann>>)
    requires EmitGroups(closed) == Success(done)
    ensures FromAnnotationsSpec(current).Failure? ==>
      EmitGroups((closed + [current]) + later) == Failure(FromAnnotationsSpec(current).error)
    ensures FromAnnotationsSpec(current).Success? ==>
      EmitGroups(closed + [current]) == Success(done + FromAnnotationsSpec(current).value)
  {
    EmitGroupsAppend(closed, [current]);
    EmitGroupsOne(current);
    EmitGroupsAppend(closed + [current], later);
  }

  /** `unionize_annotations(annotations)`. On well-formed spans it computes
      `UnionizeSpec`; an annotation that starts before index 0 blocks the
      walk, which then collects nothing and returns an empty list. */
  method UnionizeAnnotations(anns: seq<Ann>) returns (r: Result<seq<Out>, Error>)
    requires AllHaveOffsets(anns)
    ensures WellFormedSpans(anns) ==> r == UnionizeSpec(anns)
    ensures (exists i | 0 <= i < |anns| :: anns[i].start.value < 0) ==> r == Success([])
  {
    if anns == [] {
      return Success([]);
    }
    var sorted := SortByStart(anns);
    SortIsSorted(anns);
    var top := MaxEnd(anns);
    SortedBounds(anns, sorted, top);
    r := Walk(sorted, top);
  }

  /** The walk over the indexes `0 .. top - 1` of `unionize_annotations`,
      on the sorted annotations. */
  method Walk(sorted: seq<Ann>, top: int) returns (r: Result<seq<Out>, Error>)
    requires AllHaveOffsets(sorted)
    ensures Pending(sorted, 0, top) ==> r == EmitGroups(Groups(sorted))
    ensures sorted != [] && sorted[0].start.value < 0 ==> r == Success([])
  {
    ghost var wf := Pending(sorted, 0, top);
    ghost var neg := sorted != [] && sorted[0].start.value < 0;
    var rest := sorted;
    var finalAnns: seq<Out> := [];
    var current: seq<Ann> := [];
    // the groups already handed to `from_annotations`
    ghost var closed: seq<seq<Ann>> := [];
    assert Groups(sorted) == closed + Sweep(rest, current);
    var idx := 0;
    while idx < top
      invariant 0 <= idx
      invariant AllHaveOffsets(rest) && AllHaveOffsets(current)
      invariant wf ==> Pending(rest, idx, top)
      invariant wf ==> Groups(sorted) == closed + Sweep(rest, current)
      invariant EmitGroups(closed) == Success(finalAnns)
      invariant neg ==> rest != [] && rest[0].start.value < 0 && current == [] && finalAnns == []
      decreases top - idx
    {
      if current != [] && forall i | 0 <= i < |current| :: current[i].end.value <= idx {
        var o := FromAnnotations(current);
        if wf {
          CloseGroup(closed, current, rest, idx, top);
        }
        EmitClose(closed, finalAnns, current, Sweep(rest, []));
        if o.Failure? {
          return Failure(o.error);
        }
        closed := closed + [current];
        finalAnns := finalAnns + o.value;
        current := [];
      }
      if current != [] {
        EndsBy(current, idx);
      }
      ghost var before := (rest, current);
      rest, current := TakeStartingAt(rest, current, idx, top);
      assert neg ==> rest == before.0 && current == before.1;
      if wf {
        PendingNext(rest, idx, top);
      }
      idx := idx + 1;
    }
    if wf {
      if rest != [] {
        assert false;
      }
      SweepDone(closed, current);
    }
    if current != [] {
      var o := FromAnnotations(current);
      EmitClose(closed, finalAnns, current, []);
      if o.Failure? {
        return Failure(o.error);
      }
      closed := closed + [current];
      finalAnns := finalAnns + o.value;
    }
    return Success(finalAnns);
  }

  /** At the end of the walk only the open group remains. */
  lemma SweepDone(closed: seq<seq<Ann>>, current: seq<Ann>)
    requires AllHaveOffsets(current)
    ensures current == [] ==> closed + Sweep([], current) == closed
    ensures current != [] ==>
      closed + Sweep([], current) == (closed + [current]) + []
      && (closed + [current]) + [] == closed + [current]
  {
  }

  /** `while sorted_anns and sorted_anns[0].start == idx`: moves the
      annotations that start at `idx` from the front of the sorted list to
      the open group. */
  method TakeStartingAt(rest: seq<Ann>, current: seq<Ann>, idx: int, top: int)
    returns (rest': seq<Ann>, current': seq<Ann>)
    requires AllHaveOffsets(rest) && AllHaveOffsets(current)
    ensures AllHaveOffsets(rest') && AllHaveOffsets(current')
    ensures rest' == [] || rest'[0].start.value != idx
    ensures rest == [] || rest[0].start.value != idx ==> rest' == rest && current' == current
    ensures OpenOk(rest, current, idx, top) ==>
      OpenOk(rest', current', idx, top) && Sweep(rest', current') == Sweep(rest, current)
  {
    rest', current' := rest, current;
    ghost var ok := OpenOk(rest, current, idx, top);
    while rest' != [] && rest'[0].start.value == idx
      invariant AllHaveOffsets(rest') && AllHaveOffsets(current')
      invariant rest == [] || rest[0].start.value != idx ==> rest' == rest && current' == current
      invariant ok ==> OpenOk(rest', current', idx, top) && Sweep(rest', current') == Sweep(rest, current)
      decreases |rest'|
    {
      if ok {
        TakeOne(rest', current', idx, top);
      }
      current' := current' + [rest'[0]];
      rest' := rest'[1..];
    }
  }

  /** The open group reaches past `idx` and the pending annotations start
      at or after it. */
  predicate OpenOk(rest: seq<Ann>, current: seq<Ann>, idx: int, top: int)
    requires AllHaveOffsets(rest) && AllHaveOffsets(current)
  {
    Pending(rest, idx, top) && (current == [] || MaxEnd(current) > idx)
  }

  /** An annotation that starts at `idx` joins the open group. */
  lemma TakeOne(rest: seq<Ann>, current: seq<Ann>, idx: int, top: int)
    requires AllHaveOffsets(rest) && AllHaveOffsets(current)
    requires rest != [] && rest[0].start.value == idx && OpenOk(rest, current, idx, top)
    ensures AllHaveOffsets(rest[1..]) && AllHaveOffsets(current + [rest[0]])
    ensures OpenOk(rest[1..], current + [rest[0]], idx, top)
    ensures Sweep(rest[1..], current + [rest[0]]) == Sweep(rest, current)
  {
    var a := rest[0];
    PendingTail(rest, idx, top);
    if current != [] {
      HullExtend(current, a);
    } else {
      assert current + [a] == [a];
    }
  }

  /** Closing the open group at `idx`: every member ends by `idx` and every
      pending annotation starts at or after it. */
  lemma CloseGroup(closed: seq<seq<Ann>>, current: seq<Ann>, rest: seq<Ann>, idx: int, top: int)
    requires current != [] && AllHaveOffsets(current) && AllHaveOffsets(rest)
    requires forall i | 0 <= i < |current| :: current[i].end.value <= idx
    requires Pending(rest, idx, top)
    ensures closed + Sweep(rest, current) == (closed + [current]) + Sweep(rest, [])
  {
    EndsBy(current, idx);
    SweepClose(rest, current);
    ConcatAssoc(closed, [current], Sweep(rest, []));
  }

  /** The sorted annotations not yet collected start at or after `idx` and
      end by `top`. */
  predicate Pending(rest: seq<Ann>, idx: int, top: int)
    requires AllHaveOffsets(rest)
  {
    SortedByStart(rest)
    && forall i | 0 <= i < |rest| :: idx <= rest[i].start.value < rest[i].end.value <= top
  }

  lemma PendingTail(rest: seq<Ann>, idx: int, top: int)
    requires rest != [] && AllHaveOffsets(rest) && Pending(rest, idx, top)
    ensures AllHaveOffsets(rest[1..]) && Pending(rest[1..], idx, top)
    ensures idx <= rest[0].start.value < rest[0].end.value
  {
    assert forall i | 0 <= i < |rest| - 1 :: rest[1..][i] == rest[i + 1];
  }

  lemma PendingNext(rest: seq<Ann>, idx: int, top: int)
    requires AllHaveOffsets(rest) && Pending(rest, idx, top)
    requires rest == [] || rest[0].start.value != idx
    ensures Pending(rest, idx + 1, top)
  {
    if rest != [] {
      forall i | 0 <= i < |rest| ensures idx + 1 <= rest[i].start.value {
        assert i == 0 || rest[0].start.value <= rest[i].start.value;
      }
    }
  }

  /** `all(ann.end <= idx ...)` says that the largest end is at most `idx`. */
  lemma EndsBy(xs: seq<Ann>, idx: int)
    requires xs != [] && AllHaveOffsets(xs)
    ensures (forall i | 0 <= i < |xs| :: xs[i].end.value <= idx) <==> MaxEnd(xs) <= idx
  {
  }

  /** The sorted list holds the same annotations, so on well-formed spans
      every one lies in `[0, top]`. */
  lemma SortedBounds(anns: seq<Ann>, sorted: seq<Ann>, top: int)
    requires anns != [] && AllHaveOffsets(anns) && top == MaxEnd(anns)
    requires sorted == SortByStart(anns) && SortedByStart(sorted)
    ensures sorted != []
    ensures WellFormedSpans(anns) ==> Pending(sorted, 0, top)
    ensures (exists i | 0 <= i < |anns| :: anns[i].start.value < 0) ==> sorted[0].start.value < 0
  {
    assert anns[0] in multiset(sorted);
    if WellFormedSpans(anns) {
      SortedWithin(anns, sorted, top);
    }
    if exists i | 0 <= i < |anns| :: anns[i].start.value < 0 {
      SortedNegativeHead(anns, sorted);
    }
  }

  lemma SortedWithin(anns: seq<Ann>, sorted: seq<Ann>, top: int)
    requires WellFormedSpans(anns) && AllHaveOffsets(sorted) && SortedByStart(sorted)
    requires multiset(sorted) == multiset(anns) && anns != [] && top == MaxEnd(anns)
    ensures Pending(sorted, 0, top)
  {
    forall i | 0 <= i < |sorted|
      ensures 0 <= sorted[i].start.value < sorted[i].end.value <= top
    {
      assert sorted[i] in multiset(anns);
      var j :| 0 <= j < |anns| && anns[j] == sorted[i];
    }
  }

  /** An annotation that starts before index 0 makes the head of the sorted
      list start there too. */
  lemma SortedNegativeHead(anns: seq<Ann>, sorted: seq<Ann>)
    requires AllHaveOffsets(anns) && AllHaveOffsets(sorted)
    requires multiset(sorted) == multiset(anns) && SortedByStart(sorted)
    requires exists i | 0 <= i < |anns| :: anns[i].start.value < 0
    ensures sorted != [] && sorted[0].start.value < 0
  {
    var i :| 0 <= i < |anns| && anns[i].start.value < 0;
    assert anns[i] in multiset(sorted);
    var j :| 0 <= j < |sorted| && sorted[j] == anns[i];
    assert j == 0 || sorted[0].start.value <= sorted[j].start.value;
  }

  // ---------------------------------------------------------------------
  // Properties of unionize_annotations

  lemma {:induction false} EmitGroupsSources(gs: seq<seq<Ann>>)
    requires EmitGroups(gs).Success?
    ensures OutSources(EmitGroups(gs).value) == Flatten(gs)
    decreases |gs|
  {
    if gs != [] {
      var o := FromAnnotationsSpec(gs[0]).value;
      FromAnnotationsKeepsSources(gs[0]);
      EmitGroupsSources(gs[1..]);
      OutSourcesAppend(o, EmitGroups(gs[1..]).value);
    }
  }

  /** A successful `unionize_annotations` hands back every input annotation
      exactly once, in the order of the stable sort by start. */
  lemma UnionizeKeepsSources(xs: seq<Ann>)
    requires AllHaveOffsets(xs) && UnionizeSpec(xs).Success?
    ensures OutSources(UnionizeSpec(xs).value) == SortByStart(xs)
    ensures multiset(OutSources(UnionizeSpec(xs).value)) == multiset(xs)
  {
    SortIsSorted(xs);
    GroupsPartition(SortByStart(xs));
    EmitGroupsSources(Groups(SortByStart(xs)));
  }

  /** Every member of a group is one of the sorted annotations. */
  lemma GroupMembers(sorted: seq<Ann>)
    requires AllHaveOffsets(sorted) && SortedByStart(sorted)
    ensures GroupsOk(Groups(sorted))
    ensures forall i, k | 0 <= i < |Groups(sorted)| && 0 <= k < |Groups(sorted)[i]| ::
      Groups(sorted)[i][k] in sorted
  {
    var gs := Groups(sorted);
    GroupsPartition(sorted);
    forall i, k | 0 <= i < |gs| && 0 <= k < |gs[i]|
      ensures gs[i][k] in sorted
    {
      FlattenParts(gs, i, gs[i][k]);
    }
  }

  /** The groups of good annotations that are parts of one document are
      good parts of it too. */
  lemma GroupsOf(doc: string, xs: seq<Ann>)
    requires AllHaveOffsets(xs)
    ensures GroupsOk(Groups(SortByStart(xs)))
    ensures AllGood(xs) ==> forall i | 0 <= i < |Groups(SortByStart(xs))| ::
      AllGood(Groups(SortByStart(xs))[i])
    ensures AllCover(doc, xs) ==> forall i | 0 <= i < |Groups(SortByStart(xs))| ::
      AllCover(doc, Groups(SortByStart(xs))[i])
  {
    var sorted := SortByStart(xs);
    SortIsSorted(xs);
    GroupMembers(sorted);
    forall x | x in sorted ensures x in xs {
      assert x in multiset(sorted);
    }
  }

  lemma {:induction false} EmitGroupsGoodErrors(gs: seq<seq<Ann>>)
    requires forall i | 0 <= i < |gs| :: gs[i] != [] && AllGood(gs[i])
    ensures EmitGroups(gs).Failure? ==> EmitGroups(gs).error == NoOverlap
    decreases |gs|
  {
    if gs != [] {
      FromAnnotationsGoodErrors(gs[0]);
      EmitGroupsGoodErrors(gs[1..]);
    }
  }

  /** `unionize_annotations` of good annotations fails only with "annotation
      text must overlap", raised by the split of a group. */
  lemma UnionizeGoodErrors(xs: seq<Ann>)
    requires AllHaveOffsets(xs) && AllGood(xs)
    ensures UnionizeSpec(xs).Failure? ==> UnionizeSpec(xs).error == NoOverlap
  {
    GroupsOf("", xs);
    EmitGroupsGoodErrors(Groups(SortByStart(xs)));
  }

  /** Every output is a part of the document and every merged output keeps
      the invariant. */
  predicate OutsOk(doc: string, outs: seq<Out>) {
    AllOutCover(doc, outs) && forall i | 0 <= i < |outs| :: OutInv(outs[i])
  }

  lemma OutsOkAppend(doc: string, a: seq<Out>, b: seq<Out>)
    requires OutsOk(doc, a) && OutsOk(doc, b)
    ensures OutsOk(doc, a + b)
  {
    forall i | 0 <= i < |a + b|
      ensures OutCovers(doc, (a + b)[i]) && OutInv((a + b)[i])
    {
      if i < |a| {
        assert (a + b)[i] == a[i];
      } else {
        assert (a + b)[i] == b[i - |a|];
      }
    }
  }

  lemma {:induction false} EmitGroupsCover(doc: string, gs: seq<seq<Ann>>)
    requires forall i | 0 <= i < |gs| :: AllGood(gs[i]) && AllCover(doc, gs[i])
    requires EmitGroups(gs).Success?
    ensures OutsOk(doc, EmitGroups(gs).value)
    decreases |gs|
  {
    if gs != [] {
      FromAnnotationsCover(doc, gs[0]);
      EmitGroupsCover(doc, gs[1..]);
      OutsOkAppend(doc, FromAnnotationsSpec(gs[0]).value, EmitGroups(gs[1..]).value);
    }
  }

  /** When the input annotations are good parts of one document, so is
      every output of a successful `unionize_annotations`: a source
      annotation, or a merged annotation whose text is the document over its
      span. */
  lemma UnionizeCover(doc: string, xs: seq<Ann>)
    requires AllHaveOffsets(xs) && AllGood(xs) && AllCover(doc, xs)
    requires UnionizeSpec(xs).Success?
    ensures OutsOk(doc, UnionizeSpec(xs).value)
  {
    GroupsOf(doc, xs);
    EmitGroupsCover(doc, Groups(SortByStart(xs)));
  }

  /** The merge of `g` succeeds and spans exactly the group. */
  predicate MergesToHull(g: seq<Ann>)
    requires g != [] && AllHaveOffsets(g)
  {
    FoldAdd(EmptyWindow, g).Success?
    && FoldAdd(EmptyWindow, g).value.start == Some(g[0].start.value)
    && FoldAdd(EmptyWindow, g).value.end == Some(MaxEnd(g))
  }

  lemma GroupsWellFormed(xs: seq<Ann>)
    requires WellFormedSpans(xs)
    ensures GroupsOk(Groups(SortByStart(xs)))
    ensures forall i | 0 <= i < |Groups(SortByStart(xs))| :: WellFormed(Groups(SortByStart(xs))[i])
  {
    var sorted := SortByStart(xs);
    SortIsSorted(xs);
    GroupMembers(sorted);
    forall x | x in sorted ensures x in xs {
      assert x in multiset(sorted);
    }
  }

  /** On well-formed good spans the merge of every group succeeds and spans
      exactly the group, and each group ends at or before the start of the
      next: the groups `unionize_annotations` forms never overlap, and only
      the split of a group can fail. */
  lemma GroupsMergeDisjoint(xs: seq<Ann>)
    requires WellFormedSpans(xs) && AllGood(xs)
    ensures GroupsOk(Groups(SortByStart(xs)))
    ensures forall i | 0 <= i < |Groups(SortByStart(xs))| :: MergesToHull(Groups(SortByStart(xs))[i])
    ensures Separated(Groups(SortByStart(xs)))
  {
    var sorted := SortByStart(xs);
    var gs := Groups(sorted);
    SortIsSorted(xs);
    GroupsPartition(sorted);
    GroupsOf("", xs);
    GroupsWellFormed(xs);
    forall i | 0 <= i < |gs|
      ensures MergesToHull(gs[i])
    {
      FoldChainSucceeds(gs[i]);
    }
  }
}
