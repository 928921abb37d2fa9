/** The unionize test of flaskphiid on its sample records: six Comprehend
    Medical records followed by seven HutchNER records. The sort and the
    overlap sweep look only at the offsets, so they are replayed on a list
    of offsets tagged with each record's position; a datatype list lets the
    verifier evaluate both on the sample, and lemmas carry the result back to
    any annotations with those offsets. */
module PhiSample {
  import opened Common
  import opened Grouping
  import opened PhiAnnotation
  import opened PhiResolution
  import opened PhiMerge
  import opened PhiUnion
  import opened PhiExamples

  /** The offsets of one record and its position in the input list. */
  datatype Span = Span(start: int, end: int, at: nat)

  datatype Spans = Nil | Cons(head: Span, tail: Spans)

  datatype GroupList = Done | Next(group: Spans, rest: GroupList)

  // ---------------------------------------------------------------------
  // The sort and the sweep on spans

  /** `Insert` on spans. */
  function InsertSpan(x: Span, ys: Spans): Spans {
    if ys == Nil || x.start <= ys.head.start then Cons(x, ys)
    else Cons(ys.head, InsertSpan(x, ys.tail))
  }

  /** `SortByStart` on spans. */
  function SortSpans(xs: Spans): Spans {
    if xs == Nil then Nil else InsertSpan(xs.head, SortSpans(xs.tail))
  }

  /** The largest end of a non-empty list of spans. */
  function MaxEndSpans(g: Spans): int
    requires g != Nil
  {
    if g.tail == Nil then g.head.end else Max(g.head.end, MaxEndSpans(g.tail))
  }

  function Snoc(g: Spans, x: Span): Spans {
    if g == Nil then Cons(x, Nil) else Cons(g.head, Snoc(g.tail, x))
  }

  /** `Sweep` on spans. */
  function SweepSpans(xs: Spans, cur: Spans): GroupList {
    if xs == Nil then (if cur == Nil then Done else Next(cur, Done))
    else if cur != Nil && MaxEndSpans(cur) <= xs.head.start then Next(cur, SweepSpans(xs.tail, Cons(xs.head, Nil)))
    else SweepSpans(xs.tail, Snoc(cur, xs.head))
  }

  /** The spans of the pairs `ss` from position `lo` on. */
  function Tagged(ss: seq<(int, int)>, lo: nat): Spans
    decreases |ss| - lo
  {
    if lo >= |ss| then Nil else Cons(Span(ss[lo].0, ss[lo].1, lo), Tagged(ss, lo + 1))
  }

  // ---------------------------------------------------------------------
  // From spans back to annotations

  /** The span `s` gives the offsets of the annotation at its position. */
  predicate Marks(xs: seq<Ann>, s: Span) {
    s.at < |xs| && xs[s.at].start == Some(s.start) && xs[s.at].end == Some(s.end)
  }

  predicate Mirrors(xs: seq<Ann>, l: Spans) {
    l == Nil || (Marks(xs, l.head) && Mirrors(xs, l.tail))
  }

  predicate AllMirror(xs: seq<Ann>, gs: GroupList) {
    gs == Done || (Mirrors(xs, gs.group) && AllMirror(xs, gs.rest))
  }

  /** The annotations at the positions of `l`, in its order. */
  function Pick(xs: seq<Ann>, l: Spans): (r: seq<Ann>)
    requires Mirrors(xs, l)
    ensures AllHaveOffsets(r)
    ensures l == Nil <==> r == []
  {
    if l == Nil then [] else [xs[l.head.at]] + Pick(xs, l.tail)
  }

  function PickAll(xs: seq<Ann>, gs: GroupList): (r: seq<seq<Ann>>)
    requires AllMirror(xs, gs)
  {
    if gs == Done then [] else [Pick(xs, gs.group)] + PickAll(xs, gs.rest)
  }

  lemma MirrorsInsert(xs: seq<Ann>, x: Span, ys: Spans)
    requires Marks(xs, x) && Mirrors(xs, ys)
    ensures Mirrors(xs, InsertSpan(x, ys))
  {
  }

  lemma {:induction false} PickInsert(xs: seq<Ann>, x: Span, ys: Spans)
    requires Marks(xs, x) && Mirrors(xs, ys) && Mirrors(xs, InsertSpan(x, ys))
    ensures Insert(xs[x.at], Pick(xs, ys)) == Pick(xs, InsertSpan(x, ys))
  {
    if ys != Nil && x.start > ys.head.start {
      MirrorsInsert(xs, x, ys.tail);
      PickInsert(xs, x, ys.tail);
      assert Pick(xs, ys)[0] == xs[ys.head.at] && Pick(xs, ys)[1..] == Pick(xs, ys.tail);
    }
  }

  lemma {:induction false} PickSort(xs: seq<Ann>, l: Spans)
    requires Mirrors(xs, l)
    ensures Mirrors(xs, SortSpans(l))
    ensures SortByStart(Pick(xs, l)) == Pick(xs, SortSpans(l))
  {
    if l != Nil {
      PickSort(xs, l.tail);
      var p := Pick(xs, l);
      assert p[0] == xs[l.head.at] && p[1..] == Pick(xs, l.tail);
      MirrorsInsert(xs, l.head, SortSpans(l.tail));
      PickInsert(xs, l.head, SortSpans(l.tail));
    }
  }

  lemma {:induction false} PickTagged(xs: seq<Ann>, ss: seq<(int, int)>, lo: nat)
    requires |xs| == |ss| && lo <= |xs|
    requires forall i | 0 <= i < |ss| :: xs[i].start == Some(ss[i].0) && xs[i].end == Some(ss[i].1)
    ensures Mirrors(xs, Tagged(ss, lo))
    ensures Pick(xs, Tagged(ss, lo)) == xs[lo..]
    decreases |ss| - lo
  {
    if lo < |ss| {
      PickTagged(xs, ss, lo + 1);
      assert xs[lo..] == [xs[lo]] + xs[lo + 1..];
    }
  }

  /** The maximum end of a group is its first end or the maximum of the
      rest. */
  lemma EndBelowMax(xs: seq<Ann>, k: int)
    requires |xs| > 0 && AllHaveOffsets(xs) && 0 <= k < |xs|
    ensures xs[k].end.value <= MaxEnd(xs)
  {
  }

  lemma {:induction false} MaxEndCons(a: Ann, t: seq<Ann>)
    requires HasOffsets(a) && |t| > 0 && AllHaveOffsets(t)
    ensures AllHaveOffsets([a] + t)
    ensures MaxEnd([a] + t) == Max(a.end.value, MaxEnd(t))
  {
    var s := [a] + t;
    assert s[0] == a;
    assert forall k | 0 <= k < |t| :: s[k + 1] == t[k];
    var m, n := MaxEnd(s), MaxEnd(t);
    EndBelowMax(s, 0);
    var j :| 0 <= j < |t| && n == t[j].end.value;
    assert s[j + 1] == t[j];
    EndBelowMax(s, j + 1);
    var i :| 0 <= i < |s| && m == s[i].end.value;
    if i > 0 {
      assert s[i] == t[i - 1];
      EndBelowMax(t, i - 1);
      assert m == n && a.end.value <= n;
    } else {
      assert m == a.end.value && n <= a.end.value;
    }
    assert m == Max(a.end.value, n);
  }

  lemma {:induction false} PickMaxEnd(xs: seq<Ann>, g: Spans)
    requires g != Nil && Mirrors(xs, g)
    ensures MaxEnd(Pick(xs, g)) == MaxEndSpans(g)
  {
    if g.tail != Nil {
      PickMaxEnd(xs, g.tail);
      MaxEndCons(xs[g.head.at], Pick(xs, g.tail));
    }
  }

  lemma MirrorsSnoc(xs: seq<Ann>, g: Spans, x: Span)
    requires Mirrors(xs, g) && Marks(xs, x)
    ensures Mirrors(xs, Snoc(g, x))
  {
  }

  lemma {:induction false} PickSnoc(xs: seq<Ann>, g: Spans, x: Span)
    requires Mirrors(xs, g) && Marks(xs, x) && Mirrors(xs, Snoc(g, x))
    ensures Pick(xs, Snoc(g, x)) == Pick(xs, g) + [xs[x.at]]
  {
    if g != Nil {
      MirrorsSnoc(xs, g.tail, x);
      PickSnoc(xs, g.tail, x);
    }
  }

  lemma MirrorsSweep(xs: seq<Ann>, l: Spans, cur: Spans)
    requires Mirrors(xs, l) && Mirrors(xs, cur)
    ensures AllMirror(xs, SweepSpans(l, cur))
  {
    if l != Nil {
      MirrorsSnoc(xs, cur, l.head);
    }
  }

  lemma {:induction false} PickSweep(xs: seq<Ann>, l: Spans, cur: Spans)
    requires Mirrors(xs, l) && Mirrors(xs, cur) && AllMirror(xs, SweepSpans(l, cur))
    ensures Sweep(Pick(xs, l), Pick(xs, cur)) == PickAll(xs, SweepSpans(l, cur))
  {
    if l != Nil {
      var y := xs[l.head.at];
      assert Pick(xs, l) == [y] + Pick(xs, l.tail);
      if cur != Nil {
        PickMaxEnd(xs, cur);
      }
      if cur != Nil && MaxEndSpans(cur) <= l.head.start {
        MirrorsSweep(xs, l.tail, Cons(l.head, Nil));
        PickSweep(xs, l.tail, Cons(l.head, Nil));
        assert Pick(xs, Cons(l.head, Nil)) == [y];
        SweepCut(y, Pick(xs, l.tail), Pick(xs, cur));
      } else {
        MirrorsSnoc(xs, cur, l.head);
        MirrorsSweep(xs, l.tail, Snoc(cur, l.head));
        PickSnoc(xs, cur, l.head);
        PickSweep(xs, l.tail, Snoc(cur, l.head));
        SweepJoin(y, Pick(xs, l.tail), Pick(xs, cur));
      }
    }
  }

  // ---------------------------------------------------------------------
  // The sample

  /** The offsets of the sample records, in the order the test lists them:
      Comprehend Medical first, then HutchNER. */
  const SAMPLE_SPANS: seq<(int, int)> :=
    [(0, 25), (33, 35), (45, 52), (83, 97), (122, 144), (152, 156),
     (15, 29), (33, 44), (57, 61), (89, 97), (118, 131), (142, 150), (152, 156)]

  /** The sample's spans in start order; the two spans at 33 and the two at
      152 keep the Comprehend Medical one first. */
  const SAMPLE_SORTED: Spans :=
    Cons(Span(0, 25, 0), Cons(Span(15, 29, 6), Cons(Span(33, 35, 1), Cons(Span(33, 44, 7), Cons(Span(45, 52, 2), Cons(Span(57, 61, 8), Cons(Span(83, 97, 3), Cons(Span(89, 97, 9), Cons(Span(118, 131, 10), Cons(Span(122, 144, 4), Cons(Span(142, 150, 11), Cons(Span(152, 156, 5), Cons(Span(152, 156, 12), Nil)))))))))))))

  /** The sample's overlap groups. */
  const SAMPLE_GROUPS: GroupList :=
    Next(Cons(Span(0, 25, 0), Cons(Span(15, 29, 6), Nil)), Next(Cons(Span(33, 35, 1), Cons(Span(33, 44, 7), Nil)), Next(Cons(Span(45, 52, 2), Nil), Next(Cons(Span(57, 61, 8), Nil), Next(Cons(Span(83, 97, 3), Cons(Span(89, 97, 9), Nil)), Next(Cons(Span(118, 131, 10), Cons(Span(122, 144, 4), Cons(Span(142, 150, 11), Nil))), Next(Cons(Span(152, 156, 5), Cons(Span(152, 156, 12), Nil)), Done)))))))

  lemma SampleTagged()
    ensures Tagged(SAMPLE_SPANS, 0) == Cons(Span(0, 25, 0), Cons(Span(33, 35, 1), Cons(Span(45, 52, 2), Cons(Span(83, 97, 3), Cons(Span(122, 144, 4), Cons(Span(152, 156, 5), Cons(Span(15, 29, 6), Cons(Span(33, 44, 7), Cons(Span(57, 61, 8), Cons(Span(89, 97, 9), Cons(Span(118, 131, 10), Cons(Span(142, 150, 11), Cons(Span(152, 156, 12), Nil)))))))))))))
  {
    assert Tagged(SAMPLE_SPANS, 13) == Nil;
    assert Tagged(SAMPLE_SPANS, 12) == Cons(Span(152, 156, 12), Nil);
    assert Tagged(SAMPLE_SPANS, 11) == Cons(Span(142, 150, 11), Cons(Span(152, 156, 12), Nil));
    assert Tagged(SAMPLE_SPANS, 10) == Cons(Span(118, 131, 10), Cons(Span(142, 150, 11), Cons(Span(152, 156, 12), Nil)));
    assert Tagged(SAMPLE_SPANS, 9) == Cons(Span(89, 97, 9), Cons(Span(118, 131, 10), Cons(Span(142, 150, 11), Cons(Span(152, 156, 12), Nil))));
    assert Tagged(SAMPLE_SPANS, 8) == Cons(Span(57, 61, 8), Cons(Span(89, 97, 9), Cons(Span(118, 131, 10), Cons(Span(142, 150, 11), Cons(Span(152, 156, 12), Nil)))));
    assert Tagged(SAMPLE_SPANS, 7) == Cons(Span(33, 44, 7), Cons(Span(57, 61, 8), Cons(Span(89, 97, 9), Cons(Span(118, 131, 10), Cons(Span(142, 150, 11), Cons(Span(152, 156, 12), Nil))))));
    assert Tagged(SAMPLE_SPANS, 6) == Cons(Span(15, 29, 6), Cons(Span(33, 44, 7), Cons(Span(57, 61, 8), Cons(Span(89, 97, 9), Cons(Span(118, 131, 10), Cons(Span(142, 150, 11), Cons(Span(152, 156, 12), Nil)))))));
    assert Tagged(SAMPLE_SPANS, 5) == Cons(Span(152, 156, 5), Cons(Span(15, 29, 6), Cons(Span(33, 44, 7), Cons(Span(57, 61, 8), Cons(Span(89, 97, 9), Cons(Span(118, 131, 10), Cons(Span(142, 150, 11), Cons(Span(152, 156, 12), Nil))))))));
    assert Tagged(SAMPLE_SPANS, 4) == Cons(Span(122, 144, 4), Cons(Span(152, 156, 5), Cons(Span(15, 29, 6), Cons(Span(33, 44, 7), Cons(Span(57, 61, 8), Cons(Span(89, 97, 9), Cons(Span(118, 131, 10), Cons(Span(142, 150, 11), Cons(Span(152, 156, 12), Nil)))))))));
    assert Tagged(SAMPLE_SPANS, 3) == Cons(Span(83, 97, 3), Cons(Span(122, 144, 4), Cons(Span(152, 156, 5), Cons(Span(15, 29, 6), Cons(Span(33, 44, 7), Cons(Span(57, 61, 8), Cons(Span(89, 97, 9), Cons(Span(118, 131, 10), Cons(Span(142, 150, 11), Cons(Span(152, 156, 12), Nil))))))))));
    assert Tagged(SAMPLE_SPANS, 2) == Cons(Span(45, 52, 2), Cons(Span(83, 97, 3), Cons(Span(122, 144, 4), Cons(Span(152, 156, 5), Cons(Span(15, 29, 6), Cons(Span(33, 44, 7), Cons(Span(57, 61, 8), Cons(Span(89, 97, 9), Cons(Span(118, 131, 10), Cons(Span(142, 150, 11), Cons(Span(152, 156, 12), Nil)))))))))));
    assert Tagged(SAMPLE_SPANS, 1) == Cons(Span(33, 35, 1), Cons(Span(45, 52, 2), Cons(Span(83, 97, 3), Cons(Span(122, 144, 4), Cons(Span(152, 156, 5), Cons(Span(15, 29, 6), Cons(Span(33, 44, 7), Cons(Span(57, 61, 8), Cons(Span(89, 97, 9), Cons(Span(118, 131, 10), Cons(Span(142, 150, 11), Cons(Span(152, 156, 12), Nil))))))))))));
    assert Tagged(SAMPLE_SPANS, 0) == Cons(Span(0, 25, 0), Cons(Span(33, 35, 1), Cons(Span(45, 52, 2), Cons(Span(83, 97, 3), Cons(Span(122, 144, 4), Cons(Span(152, 156, 5), Cons(Span(15, 29, 6), Cons(Span(33, 44, 7), Cons(Span(57, 61, 8), Cons(Span(89, 97, 9), Cons(Span(118, 131, 10), Cons(Span(142, 150, 11), Cons(Span(152, 156, 12), Nil)))))))))))));
  }

  lemma SampleSortSpans()
    ensures SortSpans(Tagged(SAMPLE_SPANS, 0)) == SAMPLE_SORTED
  {
    SampleTagged();
    assert SortSpans(Cons(Span(152, 156, 12), Nil)) == Cons(Span(152, 156, 12), Nil);
    assert SortSpans(Cons(Span(142, 150, 11), Cons(Span(152, 156, 12), Nil))) == Cons(Span(142, 150, 11), Cons(Span(152, 156, 12), Nil));
    assert SortSpans(Cons(Span(118, 131, 10), Cons(Span(142, 150, 11), Cons(Span(152, 156, 12), Nil)))) == Cons(Span(118, 131, 10), Cons(Span(142, 150, 11), Cons(Span(152, 156, 12), Nil)));
    assert SortSpans(Cons(Span(89, 97, 9), Cons(Span(118, 131, 10), Cons(Span(142, 150, 11), Cons(Span(152, 156, 12), Nil))))) == Cons(Span(89, 97, 9), Cons(Span(118, 131, 10), Cons(Span(142, 150, 11), Cons(Span(152, 156, 12), Nil))));
    assert SortSpans(Cons(Span(57, 61, 8), Cons(Span(89, 97, 9), Cons(Span(118, 131, 10), Cons(Span(142, 150, 11), Cons(Span(152, 156, 12), Nil)))))) == Cons(Span(57, 61, 8), Cons(Span(89, 97, 9), Cons(Span(118, 131, 10), Cons(Span(142, 150, 11), Cons(Span(152, 156, 12), Nil)))));
    assert SortSpans(Cons(Span(33, 44, 7), Cons(Span(57, 61, 8), Cons(Span(89, 97, 9), Cons(Span(118, 131, 10), Cons(Span(142, 150, 11), Cons(Span(152, 156, 12), Nil))))))) == Cons(Span(33, 44, 7), Cons(Span(57, 61, 8), Cons(Span(89, 97, 9), Cons(Span(118, 131, 10), Cons(Span(142, 150, 11), Cons(Span(152, 156, 12), Nil))))));
    assert SortSpans(Cons(Span(15, 29, 6), Cons(Span(33, 44, 7), Cons(Span(57, 61, 8), Cons(Span(89, 97, 9), Cons(Span(118, 131, 10), Cons(Span(142, 150, 11), Cons(Span(152, 156, 12), Nil)))))))) == Cons(Span(15, 29, 6), Cons(Span(33, 44, 7), Cons(Span(57, 61, 8), Cons(Span(89, 97, 9), Cons(Span(118, 131, 10), Cons(Span(142, 150, 11), Cons(Span(152, 156, 12), Nil)))))));
    assert SortSpans(Cons(Span(152, 156, 5), Cons(Span(15, 29, 6), Cons(Span(33, 44, 7), Cons(Span(57, 61, 8), Cons(Span(89, 97, 9), Cons(Span(118, 131, 10), Cons(Span(142, 150, 11), Cons(Span(152, 156, 12), Nil))))))))) == Cons(Span(15, 29, 6), Cons(Span(33, 44, 7), Cons(Span(57, 61, 8), Cons(Span(89, 97, 9), Cons(Span(118, 131, 10), Cons(Span(142, 150, 11), Cons(Span(152, 156, 5), Cons(Span(152, 156, 12), Nil))))))));
    assert SortSpans(Cons(Span(122, 144, 4), Cons(Span(152, 156, 5), Cons(Span(15, 29, 6), Cons(Span(33, 44, 7), Cons(Span(57, 61, 8), Cons(Span(89, 97, 9), Cons(Span(118, 131, 10), Cons(Span(142, 150, 11), Cons(Span(152, 156, 12), Nil)))))))))) == Cons(Span(15, 29, 6), Cons(Span(33, 44, 7), Cons(Span(57, 61, 8), Cons(Span(89, 97, 9), Cons(Span(118, 131, 10), Cons(Span(122, 144, 4), Cons(Span(142, 150, 11), Cons(Span(152, 156, 5), Cons(Span(152, 156, 12), Nil)))))))));
    assert SortSpans(Cons(Span(83, 97, 3), Cons(Span(122, 144, 4), Cons(Span(152, 156, 5), Cons(Span(15, 29, 6), Cons(Span(33, 44, 7), Cons(Span(57, 61, 8), Cons(Span(89, 97, 9), Cons(Span(118, 131, 10), Cons(Span(142, 150, 11), Cons(Span(152, 156, 12), Nil))))))))))) == Cons(Span(15, 29, 6), Cons(Span(33, 44, 7), Cons(Span(57, 61, 8), Cons(Span(83, 97, 3), Cons(Span(89, 97, 9), Cons(Span(118, 131, 10), Cons(Span(122, 144, 4), Cons(Span(142, 150, 11), Cons(Span(152, 156, 5), Cons(Span(152, 156, 12), Nil))))))))));
    assert SortSpans(Cons(Span(45, 52, 2), Cons(Span(83, 97, 3), Cons(Span(122, 144, 4), Cons(Span(152, 156, 5), Cons(Span(15, 29, 6), Cons(Span(33, 44, 7), Cons(Span(57, 61, 8), Cons(Span(89, 97, 9), Cons(Span(118, 131, 10), Cons(Span(142, 150, 11), Cons(Span(152, 156, 12), Nil)))))))))))) == Cons(Span(15, 29, 6), Cons(Span(33, 44, 7), Cons(Span(45, 52, 2), Cons(Span(57, 61, 8), Cons(Span(83, 97, 3), Cons(Span(89, 97, 9), Cons(Span(118, 131, 10), Cons(Span(122, 144, 4), Cons(Span(142, 150, 11), Cons(Span(152, 156, 5), Cons(Span(152, 156, 12), Nil)))))))))));
    assert SortSpans(Cons(Span(33, 35, 1), Cons(Span(45, 52, 2), Cons(Span(83, 97, 3), Cons(Span(122, 144, 4), Cons(Span(152, 156, 5), Cons(Span(15, 29, 6), Cons(Span(33, 44, 7), Cons(Span(57, 61, 8), Cons(Span(89, 97, 9), Cons(Span(118, 131, 10), Cons(Span(142, 150, 11), Cons(Span(152, 156, 12), Nil))))))))))))) == Cons(Span(15, 29, 6), Cons(Span(33, 35, 1), Cons(Span(33, 44, 7), Cons(Span(45, 52, 2), Cons(Span(57, 61, 8), Cons(Span(83, 97, 3), Cons(Span(89, 97, 9), Cons(Span(118, 131, 10), Cons(Span(122, 144, 4), Cons(Span(142, 150, 11), Cons(Span(152, 156, 5), Cons(Span(152, 156, 12), Nil))))))))))));
    assert SortSpans(Cons(Span(0, 25, 0), Cons(Span(33, 35, 1), Cons(Span(45, 52, 2), Cons(Span(83, 97, 3), Cons(Span(122, 144, 4), Cons(Span(152, 156, 5), Cons(Span(15, 29, 6), Cons(Span(33, 44, 7), Cons(Span(57, 61, 8), Cons(Span(89, 97, 9), Cons(Span(118, 131, 10), Cons(Span(142, 150, 11), Cons(Span(152, 156, 12), Nil)))))))))))))) == Cons(Span(0, 25, 0), Cons(Span(15, 29, 6), Cons(Span(33, 35, 1), Cons(Span(33, 44, 7), Cons(Span(45, 52, 2), Cons(Span(57, 61, 8), Cons(Span(83, 97, 3), Cons(Span(89, 97, 9), Cons(Span(118, 131, 10), Cons(Span(122, 144, 4), Cons(Span(142, 150, 11), Cons(Span(152, 156, 5), Cons(Span(152, 156, 12), Nil)))))))))))));
  }

  lemma SampleSweepSpans()
    ensures SweepSpans(SAMPLE_SORTED, Nil) == SAMPLE_GROUPS
  {
    assert SweepSpans(Nil, Cons(Span(152, 156, 5), Cons(Span(152, 156, 12), Nil))) == Next(Cons(Span(152, 156, 5), Cons(Span(152, 156, 12), Nil)), Done);
    assert SweepSpans(Cons(Span(152, 156, 12), Nil), Cons(Span(152, 156, 5), Nil)) == Next(Cons(Span(152, 156, 5), Cons(Span(152, 156, 12), Nil)), Done);
    assert SweepSpans(Cons(Span(152, 156, 5), Cons(Span(152, 156, 12), Nil)), Cons(Span(118, 131, 10), Cons(Span(122, 144, 4), Cons(Span(142, 150, 11), Nil)))) == Next(Cons(Span(118, 131, 10), Cons(Span(122, 144, 4), Cons(Span(142, 150, 11), Nil))), Next(Cons(Span(152, 156, 5), Cons(Span(152, 156, 12), Nil)), Done));
    assert SweepSpans(Cons(Span(142, 150, 11), Cons(Span(152, 156, 5), Cons(Span(152, 156, 12), Nil))), Cons(Span(118, 131, 10), Cons(Span(122, 144, 4), Nil))) == Next(Cons(Span(118, 131, 10), Cons(Span(122, 144, 4), Cons(Span(142, 150, 11), Nil))), Next(Cons(Span(152, 156, 5), Cons(Span(152, 156, 12), Nil)), Done));
    assert SweepSpans(Cons(Span(122, 144, 4), Cons(Span(142, 150, 11), Cons(Span(152, 156, 5), Cons(Span(152, 156, 12), Nil)))), Cons(Span(118, 131, 10), Nil)) == Next(Cons(Span(118, 131, 10), Cons(Span(122, 144, 4), Cons(Span(142, 150, 11), Nil))), Next(Cons(Span(152, 156, 5), Cons(Span(152, 156, 12), Nil)), Done));
    assert SweepSpans(Cons(Span(118, 131, 10), Cons(Span(122, 144, 4), Cons(Span(142, 150, 11), Cons(Span(152, 156, 5), Cons(Span(152, 156, 12), Nil))))), Cons(Span(83, 97, 3), Cons(Span(89, 97, 9), Nil))) == Next(Cons(Span(83, 97, 3), Cons(Span(89, 97, 9), Nil)), Next(Cons(Span(118, 131, 10), Cons(Span(122, 144, 4), Cons(Span(142, 150, 11), Nil))), Next(Cons(Span(152, 156, 5), Cons(Span(152, 156, 12), Nil)), Done)));
    assert SweepSpans(Cons(Span(89, 97, 9), Cons(Span(118, 131, 10), Cons(Span(122, 144, 4), Cons(Span(142, 150, 11), Cons(Span(152, 156, 5), Cons(Span(152, 156, 12), Nil)))))), Cons(Span(83, 97, 3), Nil)) == Next(Cons(Span(83, 97, 3), Cons(Span(89, 97, 9), Nil)), Next(Cons(Span(118, 131, 10), Cons(Span(122, 144, 4), Cons(Span(142, 150, 11), Nil))), Next(Cons(Span(152, 156, 5), Cons(Span(152, 156, 12), Nil)), Done)));
    assert SweepSpans(Cons(Span(83, 97, 3), Cons(Span(89, 97, 9), Cons(Span(118, 131, 10), Cons(Span(122, 144, 4), Cons(Span(142, 150, 11), Cons(Span(152, 156, 5), Cons(Span(152, 156, 12), Nil))))))), Cons(Span(57, 61, 8), Nil)) == Next(Cons(Span(57, 61, 8), Nil), Next(Cons(Span(83, 97, 3), Cons(Span(89, 97, 9), Nil)), Next(Cons(Span(118, 131, 10), Cons(Span(122, 144, 4), Cons(Span(142, 150, 11), Nil))), Next(Cons(Span(152, 156, 5), Cons(Span(152, 156, 12), Nil)), Done))));
    assert SweepSpans(Cons(Span(57, 61, 8), Cons(Span(83, 97, 3), Cons(Span(89, 97, 9), Cons(Span(118, 131, 10), Cons(Span(122, 144, 4), Cons(Span(142, 150, 11), Cons(Span(152, 156, 5), Cons(Span(152, 156, 12), Nil)))))))), Cons(Span(45, 52, 2), Nil)) == Next(Cons(Span(45, 52, 2), Nil), Next(Cons(Span(57, 61, 8), Nil), Next(Cons(Span(83, 97, 3), Cons(Span(89, 97, 9), Nil)), Next(Cons(Span(118, 131, 10), Cons(Span(122, 144, 4), Cons(Span(142, 150, 11), Nil))), Next(Cons(Span(152, 156, 5), Cons(Span(152, 156, 12), Nil)), Done)))));
    assert SweepSpans(Cons(Span(45, 52, 2), Cons(Span(57, 61, 8), Cons(Span(83, 97, 3), Cons(Span(89, 97, 9), Cons(Span(118, 131, 10), Cons(Span(122, 144, 4), Cons(Span(142, 150, 11), Cons(Span(152, 156, 5), Cons(Span(152, 156, 12), Nil))))))))), Cons(Span(33, 35, 1), Cons(Span(33, 44, 7), Nil))) == Next(Cons(Span(33, 35, 1), Cons(Span(33, 44, 7), Nil)), Next(Cons(Span(45, 52, 2), Nil), Next(Cons(Span(57, 61, 8), Nil), Next(Cons(Span(83, 97, 3), Cons(Span(89, 97, 9), Nil)), Next(Cons(Span(118, 131, 10), Cons(Span(122, 144, 4), Cons(Span(142, 150, 11), Nil))), Next(Cons(Span(152, 156, 5), Cons(Span(152, 156, 12), Nil)), Done))))));
    assert SweepSpans(Cons(Span(33, 44, 7), Cons(Span(45, 52, 2), Cons(Span(57, 61, 8), Cons(Span(83, 97, 3), Cons(Span(89, 97, 9), Cons(Span(118, 131, 10), Cons(Span(122, 144, 4), Cons(Span(142, 150, 11), Cons(Span(152, 156, 5), Cons(Span(152, 156, 12), Nil)))))))))), Cons(Span(33, 35, 1), Nil)) == Next(Cons(Span(33, 35, 1), Cons(Span(33, 44, 7), Nil)), Next(Cons(Span(45, 52, 2), Nil), Next(Cons(Span(57, 61, 8), Nil), Next(Cons(Span(83, 97, 3), Cons(Span(89, 97, 9), Nil)), Next(Cons(Span(118, 131, 10), Cons(Span(122, 144, 4), Cons(Span(142, 150, 11), Nil))), Next(Cons(Span(152, 156, 5), Cons(Span(152, 156, 12), Nil)), Done))))));
    assert SweepSpans(Cons(Span(33, 35, 1), Cons(Span(33, 44, 7), Cons(Span(45, 52, 2), Cons(Span(57, 61, 8), Cons(Span(83, 97, 3), Cons(Span(89, 97, 9), Cons(Span(118, 131, 10), Cons(Span(122, 144, 4), Cons(Span(142, 150, 11), Cons(Span(152, 156, 5), Cons(Span(152, 156, 12), Nil))))))))))), Cons(Span(0, 25, 0), Cons(Span(15, 29, 6), Nil))) == Next(Cons(Span(0, 25, 0), Cons(Span(15, 29, 6), Nil)), Next(Cons(Span(33, 35, 1), Cons(Span(33, 44, 7), Nil)), Next(Cons(Span(45, 52, 2), Nil), Next(Cons(Span(57, 61, 8), Nil), Next(Cons(Span(83, 97, 3), Cons(Span(89, 97, 9), Nil)), Next(Cons(Span(118, 131, 10), Cons(Span(122, 144, 4), Cons(Span(142, 150, 11), Nil))), Next(Cons(Span(152, 156, 5), Cons(Span(152, 156, 12), Nil)), Done)))))));
    assert SweepSpans(Cons(Span(15, 29, 6), Cons(Span(33, 35, 1), Cons(Span(33, 44, 7), Cons(Span(45, 52, 2), Cons(Span(57, 61, 8), Cons(Span(83, 97, 3), Cons(Span(89, 97, 9), Cons(Span(118, 131, 10), Cons(Span(122, 144, 4), Cons(Span(142, 150, 11), Cons(Span(152, 156, 5), Cons(Span(152, 156, 12), Nil)))))))))))), Cons(Span(0, 25, 0), Nil)) == Next(Cons(Span(0, 25, 0), Cons(Span(15, 29, 6), Nil)), Next(Cons(Span(33, 35, 1), Cons(Span(33, 44, 7), Nil)), Next(Cons(Span(45, 52, 2), Nil), Next(Cons(Span(57, 61, 8), Nil), Next(Cons(Span(83, 97, 3), Cons(Span(89, 97, 9), Nil)), Next(Cons(Span(118, 131, 10), Cons(Span(122, 144, 4), Cons(Span(142, 150, 11), Nil))), Next(Cons(Span(152, 156, 5), Cons(Span(152, 156, 12), Nil)), Done)))))));
    assert SweepSpans(Cons(Span(0, 25, 0), Cons(Span(15, 29, 6), Cons(Span(33, 35, 1), Cons(Span(33, 44, 7), Cons(Span(45, 52, 2), Cons(Span(57, 61, 8), Cons(Span(83, 97, 3), Cons(Span(89, 97, 9), Cons(Span(118, 131, 10), Cons(Span(122, 144, 4), Cons(Span(142, 150, 11), Cons(Span(152, 156, 5), Cons(Span(152, 156, 12), Nil))))))))))))), Nil) == Next(Cons(Span(0, 25, 0), Cons(Span(15, 29, 6), Nil)), Next(Cons(Span(33, 35, 1), Cons(Span(33, 44, 7), Nil)), Next(Cons(Span(45, 52, 2), Nil), Next(Cons(Span(57, 61, 8), Nil), Next(Cons(Span(83, 97, 3), Cons(Span(89, 97, 9), Nil)), Next(Cons(Span(118, 131, 10), Cons(Span(122, 144, 4), Cons(Span(142, 150, 11), Nil))), Next(Cons(Span(152, 156, 5), Cons(Span(152, 156, 12), Nil)), Done)))))));
  }

  lemma {:induction false} SamplePickAll(xs: seq<Ann>)
    requires |xs| == |SAMPLE_SPANS| && AllMirror(xs, SAMPLE_GROUPS)
    ensures PickAll(xs, SAMPLE_GROUPS)
         == [[xs[0], xs[6]], [xs[1], xs[7]], [xs[2]], [xs[8]], [xs[3], xs[9]],
             [xs[10], xs[4], xs[11]], [xs[5], xs[12]]]
  {
    var g0 := SAMPLE_GROUPS;
    var g1 := g0.rest;
    assert AllMirror(xs, g1);
    var g2 := g1.rest;
    assert AllMirror(xs, g2);
    var g3 := g2.rest;
    assert AllMirror(xs, g3);
    var g4 := g3.rest;
    assert AllMirror(xs, g4);
    var g5 := g4.rest;
    assert AllMirror(xs, g5);
    var g6 := g5.rest;
    assert AllMirror(xs, g6);
    var g7 := g6.rest;
    assert AllMirror(xs, g7);
    assert g7 == Done;
    assert Pick(xs, g6.group) == [xs[5], xs[12]];
    assert PickAll(xs, g6) == [Pick(xs, g6.group)] + PickAll(xs, g7);
    assert Pick(xs, g5.group.tail) == [xs[4], xs[11]];
    assert Pick(xs, g5.group) == [xs[10], xs[4], xs[11]];
    assert PickAll(xs, g5) == [Pick(xs, g5.group)] + PickAll(xs, g6);
    assert Pick(xs, g4.group) == [xs[3], xs[9]];
    assert PickAll(xs, g4) == [Pick(xs, g4.group)] + PickAll(xs, g5);
    assert Pick(xs, g3.group) == [xs[8]];
    assert PickAll(xs, g3) == [Pick(xs, g3.group)] + PickAll(xs, g4);
    assert Pick(xs, g2.group) == [xs[2]];
    assert PickAll(xs, g2) == [Pick(xs, g2.group)] + PickAll(xs, g3);
    assert Pick(xs, g1.group) == [xs[1], xs[7]];
    assert PickAll(xs, g1) == [Pick(xs, g1.group)] + PickAll(xs, g2);
    assert Pick(xs, g0.group) == [xs[0], xs[6]];
    assert PickAll(xs, g0) == [Pick(xs, g0.group)] + PickAll(xs, g1);
  }

  /** Any thirteen annotations with the sample's offsets. */
  predicate HasSampleSpans(xs: seq<Ann>) {
    |xs| == |SAMPLE_SPANS|
    && forall i | 0 <= i < |xs| :: xs[i].start == Some(SAMPLE_SPANS[i].0) && xs[i].end == Some(SAMPLE_SPANS[i].1)
  }

  /** The sort and the sweep of `unionize_annotations` put the sample into
      seven groups; the sixth holds the HutchNER hospital name at 118, the
      Comprehend Medical address at 122 and the HutchNER name at 142. */
  lemma {:induction false} SampleGroups(xs: seq<Ann>)
    requires HasSampleSpans(xs)
    ensures AllHaveOffsets(xs)
    ensures |Groups(SortByStart(xs))| == 7
    ensures Groups(SortByStart(xs))[0] == [xs[0], xs[6]]
    ensures Groups(SortByStart(xs))[1] == [xs[1], xs[7]]
    ensures Groups(SortByStart(xs))[2] == [xs[2]]
    ensures Groups(SortByStart(xs))[3] == [xs[8]]
    ensures Groups(SortByStart(xs))[4] == [xs[3], xs[9]]
    ensures Groups(SortByStart(xs))[5] == [xs[10], xs[4], xs[11]]
    ensures Groups(SortByStart(xs))[6] == [xs[5], xs[12]]
  {
    PickTagged(xs, SAMPLE_SPANS, 0);
    assert xs[0..] == xs;
    PickSort(xs, Tagged(SAMPLE_SPANS, 0));
    SampleSortSpans();
    SampleSweepSpans();
    MirrorsSweep(xs, SAMPLE_SORTED, Nil);
    PickSweep(xs, SAMPLE_SORTED, Nil);
    SamplePickAll(xs);
  }

  // ---------------------------------------------------------------------
  // The outputs of the sample

  /** The test's records as the factories build them: the six Comprehend
      Medical records first, then the seven HutchNER ones. */
  predicate IsSample(xs: seq<Ann>) {
    |xs| == 13
    && xs[0] == Compmed(0, 25, 0.99, "NAME", "Patient is Mr. John Smith")
    && xs[1] == Compmed(33, 35, 0.98, "AGE", "48")
    && xs[2] == Compmed(45, 52, 0.97, "PROFESSION", "teacher")
    && xs[3] == Compmed(83, 97, 0.96, "PHONE_OR_FAX", "(555) 867-5309")
    && xs[4] == Compmed(122, 144, 0.95, "ADDRESS", "Sesame St, Seattle, WA")
    && xs[5] == Compmed(152, 156, 0.94, "NAME", "Test")
    && xs[6] == Hutchner(15, 29, 0.01, "PATIENT_OR_FAMILY_NAME", "John Smith Jr.")
    && xs[7] == Hutchner(33, 44, 0.02, "AGE", "48-year-old")
    && xs[8] == Hutchner(57, 61, 0.03, "PROFESSION", "chef")
    && xs[9] == Hutchner(89, 97, 0.04, "PHONE_NUMBER", "867-5309")
    && xs[10] == Hutchner(118, 131, 0.05, "HOSPITAL_NAME", "123 Sesame St")
    && xs[11] == Hutchner(142, 150, 0.06, "HOSPITAL_NAME", "WA 99999")
    && xs[12] == Hutchner(152, 156, 0.07, "URL_OR_IP", "Test")
  }

  lemma SampleHasSpans(xs: seq<Ann>)
    requires IsSample(xs)
    ensures HasSampleSpans(xs)
  {
  }

  /** A group of good sources that chain into one another merges; an
      "UNKNOWN" merged type keeps it whole, any other type splits it. */
  lemma {:induction false} ChainOutputs(g: seq<Ann>)
    requires |g| > 0 && WellFormed(g) && SortedByStart(g) && Chained(g) && AllGood(g)
    requires ResolvedType(g).Success?
    ensures FoldAdd(EmptyWindow, g).Success? && FoldAdd(EmptyWindow, g).value.sources == g
    ensures ResolvedType(g).value == Some(UNKNOWN) ==>
      FromAnnotationsSpec(g) == Success([Group(FoldAdd(EmptyWindow, g).value)])
    ensures ResolvedType(g).value != Some(UNKNOWN) && SingleType(g) ==>
      FromAnnotationsSpec(g) == Success(Leaves(g))
    ensures ResolvedType(g).value != Some(UNKNOWN) && !SingleType(g) && SingleParent(g) ==>
      FromAnnotationsSpec(g) == EmitRuns(Runs(g))
  {
    FoldChainSucceeds(g);
  }

  /** The conditions of `ChainOutputs` for one source. */
  lemma ChainOfOne(a: Ann)
    requires Good(a) && a.start.value <= a.end.value
    ensures WellFormed([a]) && SortedByStart([a]) && Chained([a]) && AllGood([a])
  {
  }

  /** ... for two sources, the second starting within the first. */
  lemma ChainOfTwo(a: Ann, b: Ann)
    requires Good(a) && Good(b) && a.start.value <= a.end.value && b.start.value <= b.end.value
    requires a.start.value <= b.start.value < a.end.value
    ensures WellFormed([a, b]) && SortedByStart([a, b]) && Chained([a, b]) && AllGood([a, b])
  {
    assert [a, b][..1] == [a];
  }

  /** ... for three sources, each starting before the largest end so far. */
  lemma ChainOfThree(a: Ann, b: Ann, c: Ann)
    requires Good(a) && Good(b) && Good(c)
    requires a.start.value <= a.end.value && b.start.value <= b.end.value && c.start.value <= c.end.value
    requires a.start.value <= b.start.value <= c.start.value
    requires b.start.value < a.end.value && c.start.value < Max(a.end.value, b.end.value)
    ensures WellFormed([a, b, c]) && SortedByStart([a, b, c]) && Chained([a, b, c]) && AllGood([a, b, c])
  {
    assert [a, b, c][..1] == [a] && [a, b, c][..2] == [a, b] && [a, b][..1] == [a];
  }

  /** A lone source is emitted as itself. */
  lemma OneOutput(a: Ann)
    requires Good(a) && a.start.value <= a.end.value && a.typ != Some(UNKNOWN)
    ensures FromAnnotationsSpec([a]) == Success([Leaf(a)])
  {
    ChainOfOne(a);
    assert SingleType([a]);
    ChainOutputs([a]);
    assert Leaves([a]) == [Leaf(a)];
  }

  /** Two sources of one label are emitted as themselves. */
  lemma SameLabelOutputs(a: Ann, b: Ann)
    requires Good(a) && Good(b) && a.start.value <= a.end.value && b.start.value <= b.end.value
    requires a.start.value <= b.start.value < a.end.value
    requires a.typ == b.typ && a.typ != Some(UNKNOWN)
    ensures FromAnnotationsSpec([a, b]) == Success([Leaf(a), Leaf(b)])
  {
    ChainOfTwo(a, b);
    assert SingleType([a, b]);
    ChainOutputs([a, b]);
    assert Leaves([a, b]) == [Leaf(a), Leaf(b)];
  }

  /** Two sources of different families make one merged annotation. */
  lemma UnknownPairOutputs(a: Ann, b: Ann)
    requires Good(a) && Good(b) && a.start.value <= a.end.value && b.start.value <= b.end.value
    requires a.start.value <= b.start.value < a.end.value
    requires a.typ != b.typ && ParentType(a) != ParentType(b)
    ensures FromAnnotationsSpec([a, b]).Success?
    ensures |FromAnnotationsSpec([a, b]).value| == 1 && FromAnnotationsSpec([a, b]).value[0].Group?
    ensures FromAnnotationsSpec([a, b]).value[0].window.sources == [a, b]
  {
    ChainOfTwo(a, b);
    assert [a, b][0] == a && [a, b][1] == b;
    assert !SingleType([a, b]) && !SingleParent([a, b]);
    ChainOutputs([a, b]);
  }

  /** Two different labels make two runs; three labels, each different from
      the one before it, make three. */
  lemma PairRuns(a: Ann, b: Ann)
    requires a.typ != b.typ
    ensures Runs([a, b]) == [[a], [b]]
  {
    assert [a, b][1..] == [b] && [b][1..] == [] && [] + [a] == [a];
    assert RunsFrom([b], [a]) == [[a]] + RunsFrom([], [b]) == [[a], [b]];
  }

  lemma TripleRuns(a: Ann, b: Ann, c: Ann)
    requires a.typ != b.typ && b.typ != c.typ
    ensures Runs([a, b, c]) == [[a], [b], [c]]
  {
    assert [a, b, c][1..] == [b, c] && [b, c][1..] == [c] && [c][1..] == [] && [] + [a] == [a];
    assert RunsFrom([c], [b]) == [[b]] + RunsFrom([], [c]) == [[b], [c]];
    assert RunsFrom([b, c], [a]) == [[a]] + RunsFrom([c], [b]);
  }

  lemma EmitTwoLones(a: Ann, b: Ann)
    requires !Empty(a) && !Empty(b)
    ensures EmitRuns([[a], [b]]) == Success([Group(Lone(a)), Group(Lone(b))])
  {
    assert EmitRuns([]) == Success([]);
    EmitLone(b, [], []);
    assert [[b]] + [] == [[b]] && [Group(Lone(b))] + [] == [Group(Lone(b))];
    EmitLone(a, [[b]], [Group(Lone(b))]);
    assert [[a]] + [[b]] == [[a], [b]];
    assert [Group(Lone(a))] + [Group(Lone(b))] == [Group(Lone(a)), Group(Lone(b))];
  }

  lemma EmitThreeLones(a: Ann, b: Ann, c: Ann)
    requires !Empty(a) && !Empty(b) && !Empty(c)
    ensures EmitRuns([[a], [b], [c]]) == Success([Group(Lone(a)), Group(Lone(b)), Group(Lone(c))])
  {
    EmitTwoLones(b, c);
    EmitLone(a, [[b], [c]], [Group(Lone(b)), Group(Lone(c))]);
    assert [[a]] + [[b], [c]] == [[a], [b], [c]];
    assert [Group(Lone(a))] + [Group(Lone(b)), Group(Lone(c))]
      == [Group(Lone(a)), Group(Lone(b)), Group(Lone(c))];
  }

  /** Two labels of one family, resolved to a type other than "UNKNOWN":
      the split gives one merged annotation per source. */
  lemma FamilyPairOutputs(a: Ann, b: Ann)
    requires Good(a) && Good(b) && a.start.value <= a.end.value && b.start.value <= b.end.value
    requires a.start.value <= b.start.value < a.end.value
    requires a.typ != b.typ && ParentType(a) == ParentType(b)
    requires ResolvedType([a, b]).Success? && ResolvedType([a, b]).value != Some(UNKNOWN)
    ensures FromAnnotationsSpec([a, b]) == Success([Group(Lone(a)), Group(Lone(b))])
  {
    ChainOfTwo(a, b);
    assert [a, b][0] == a && [a, b][1] == b;
    assert !SingleType([a, b]) && SingleParent([a, b]);
    ChainOutputs([a, b]);
    PairRuns(a, b);
    EmitTwoLones(a, b);
  }

  /** Three labels of one family, each different from the one before it,
      resolved to a type other than "UNKNOWN": one merged annotation per
      source. */
  lemma FamilyTripleOutputs(a: Ann, b: Ann, c: Ann)
    requires Good(a) && Good(b) && Good(c)
    requires a.start.value <= a.end.value && b.start.value <= b.end.value && c.start.value <= c.end.value
    requires a.start.value <= b.start.value <= c.start.value
    requires b.start.value < a.end.value && c.start.value < Max(a.end.value, b.end.value)
    requires a.typ != b.typ && b.typ != c.typ && ParentType(a) == ParentType(b) == ParentType(c)
    requires ResolvedType([a, b, c]).Success? && ResolvedType([a, b, c]).value != Some(UNKNOWN)
    ensures FromAnnotationsSpec([a, b, c]) == Success([Group(Lone(a)), Group(Lone(b)), Group(Lone(c))])
  {
    var g := [a, b, c];
    ChainOfThree(a, b, c);
    assert g[0] == a && g[1] == b && g[2] == c;
    assert !SingleType(g) && SingleParent(g);
    ChainOutputs(g);
    TripleRuns(a, b, c);
    EmitThreeLones(a, b, c);
  }

  /** The address group of the sample: two HOSPITAL_NAME subtypes around
      an ADDRESS, both subtypes scoring under the threshold. */
  lemma AddressTriple(h1: Ann, c: Ann, h2: Ann)
    requires h1 == Hutchner(118, 131, 0.05, "HOSPITAL_NAME", "123 Sesame St")
    requires c == Compmed(122, 144, 0.95, "ADDRESS", "Sesame St, Seattle, WA")
    requires h2 == Hutchner(142, 150, 0.06, "HOSPITAL_NAME", "WA 99999")
    ensures ResolvedType([h1, c, h2]) == Success(Some("ADDRESS"))
  {
    var g := [h1, c, h2];
    assert ParentType(h1) == Some("ADDRESS") == ParentType(h2) && ParentType(c) == Some("ADDRESS");
    assert g[0] == h1 && g[1] == c && g[2] == h2;
    assert !SingleType(g) && SingleParent(g);
    assert g[1..] == [c, h2] && [c, h2][1..] == [h2] && [h2][1..] == [];
    assert Subtypes([h2]) == [h2] && Subtypes([c, h2]) == [h2];
    assert Subtypes(g) == [h1, h2];
  }

  // What `from_annotations` makes of each overlap group of the sample.

  /** The NAME pair splits into one merged annotation per source. */
  lemma SampleNamePair(c: Ann, h: Ann)
    requires c == Compmed(0, 25, 0.99, "NAME", "Patient is Mr. John Smith")
    requires h == Hutchner(15, 29, 0.01, "PATIENT_OR_FAMILY_NAME", "John Smith Jr.")
    ensures FromAnnotationsSpec([c, h]) == Success([Group(Lone(c)), Group(Lone(h))])
  {
    TaxonomyTwoLevel();
    assert ParentType(h) == Some("NAME") == ParentType(c);
    ParentThenSubtype(c, h);
    FamilyPairOutputs(c, h);
  }

  /** The AGE pair keeps both records as leaves. */
  lemma SampleAgePair(c: Ann, h: Ann)
    requires c == Compmed(33, 35, 0.98, "AGE", "48")
    requires h == Hutchner(33, 44, 0.02, "AGE", "48-year-old")
    ensures FromAnnotationsSpec([c, h]) == Success([Leaf(c), Leaf(h)])
  {
    SameLabelOutputs(c, h);
  }

  /** The two PROFESSION records do not overlap: each stays a leaf. */
  lemma SampleProfessions(c: Ann, h: Ann)
    requires c == Compmed(45, 52, 0.97, "PROFESSION", "teacher")
    requires h == Hutchner(57, 61, 0.03, "PROFESSION", "chef")
    ensures FromAnnotationsSpec([c]) == Success([Leaf(c)])
    ensures FromAnnotationsSpec([h]) == Success([Leaf(h)])
  {
    TaxonomyTwoLevel();
    OneOutput(c);
    OneOutput(h);
  }

  /** PHONE_OR_FAX and PHONE_NUMBER have no common parent: one merged
      annotation of type "UNKNOWN". */
  lemma SamplePhonePair(c: Ann, h: Ann)
    requires c == Compmed(83, 97, 0.96, "PHONE_OR_FAX", "(555) 867-5309")
    requires h == Hutchner(89, 97, 0.04, "PHONE_NUMBER", "867-5309")
    ensures FromAnnotationsSpec([c, h]).Success? && |FromAnnotationsSpec([c, h]).value| == 1
  {
    assert ParentType(c) == Some("PHONE_OR_FAX") && ParentType(h) == Some("PHONE_NUMBER");
    UnknownPairOutputs(c, h);
  }

  /** The address triple splits into one merged annotation per source. */
  lemma SampleAddressTriple(h1: Ann, c: Ann, h2: Ann)
    requires h1 == Hutchner(118, 131, 0.05, "HOSPITAL_NAME", "123 Sesame St")
    requires c == Compmed(122, 144, 0.95, "ADDRESS", "Sesame St, Seattle, WA")
    requires h2 == Hutchner(142, 150, 0.06, "HOSPITAL_NAME", "WA 99999")
    ensures FromAnnotationsSpec([h1, c, h2]) == Success([Group(Lone(h1)), Group(Lone(c)), Group(Lone(h2))])
  {
    TaxonomyTwoLevel();
    AddressTriple(h1, c, h2);
    assert ParentType(h1) == ParentType(c) == ParentType(h2);
    assert Good(h1) && Good(c) && Good(h2);
    FamilyTripleOutputs(h1, c, h2);
  }

  /** NAME and URL_OR_IP on the same text: one merged annotation of type
      "UNKNOWN". */
  lemma SampleTestPair(c: Ann, h: Ann)
    requires c == Compmed(152, 156, 0.94, "NAME", "Test")
    requires h == Hutchner(152, 156, 0.07, "URL_OR_IP", "Test")
    ensures FromAnnotationsSpec([c, h]).Success? && |FromAnnotationsSpec([c, h]).value| == 1
  {
    assert ParentType(c) == Some("NAME") && ParentType(h) == Some("URL_OR_IP");
    UnknownPairOutputs(c, h);
  }

  /** Emitting a list of groups from position `k` on. */
  lemma {:induction false} EmitFrom(gs: seq<seq<Ann>>, k: nat)
    requires k < |gs| && FromAnnotationsSpec(gs[k]).Success?
    ensures EmitGroups(gs[k..]) == Then(FromAnnotationsSpec(gs[k]).value, EmitGroups(gs[k + 1..]))
  {
    assert gs[k..][0] == gs[k] && gs[k..][1..] == gs[k + 1..];
  }

  /** Seven groups that all merge emit their outputs one after the other. */
  lemma {:induction false} EmitSeven(gs: seq<seq<Ann>>, o0: seq<Out>, o1: seq<Out>, o2: seq<Out>, o3: seq<Out>,
                  o4: seq<Out>, o5: seq<Out>, o6: seq<Out>)
    requires |gs| == 7
    requires FromAnnotationsSpec(gs[0]) == Success(o0) && FromAnnotationsSpec(gs[1]) == Success(o1)
    requires FromAnnotationsSpec(gs[2]) == Success(o2) && FromAnnotationsSpec(gs[3]) == Success(o3)
    requires FromAnnotationsSpec(gs[4]) == Success(o4) && FromAnnotationsSpec(gs[5]) == Success(o5)
    requires FromAnnotationsSpec(gs[6]) == Success(o6)
    ensures EmitGroups(gs) == Success(o0 + (o1 + (o2 + (o3 + (o4 + (o5 + o6))))))
  {
    assert gs[7..] == [];
    EmitFrom(gs, 6);
    assert o6 + [] == o6;
    EmitFrom(gs, 5);
    EmitFrom(gs, 4);
    EmitFrom(gs, 3);
    EmitFrom(gs, 2);
    EmitFrom(gs, 1);
    EmitFrom(gs, 0);
    assert gs[0..] == gs;
  }

  lemma OriginsOfThree(a: Ann, b: Ann, c: Ann)
    requires a.origin == "hutchner" && b.origin == "compmed" && c.origin == "hutchner"
    ensures SourceOrigins([a, b, c]) == {"hutchner", "compmed"}
  {
    var g := [a, b, c];
    assert g[0] == a && g[1] == b && g[2] == c;
  }

  lemma SixthOut(o0: seq<Out>, o1: seq<Out>, o2: seq<Out>, o3: seq<Out>, rest: seq<Out>)
    requires |o0| == 2 && |o1| == 2 && |o2| == 1 && |o3| >= 1
    ensures |o0 + (o1 + (o2 + (o3 + rest)))| == 5 + |o3| + |rest|
    ensures (o0 + (o1 + (o2 + (o3 + rest))))[5] == o3[0]
  {
  }

  /** `unionize_annotations` on the sample: seven overlap groups, the sixth
      holding three annotations of both origins, and eleven outputs in all,
      the sixth of which is the lone HutchNER PROFESSION "chef". */
  lemma {:induction false} SampleUnion(xs: seq<Ann>)
    requires IsSample(xs)
    ensures AllHaveOffsets(xs)
    ensures |Groups(SortByStart(xs))| == 7 && |Groups(SortByStart(xs))[5]| == 3
    ensures SourceOrigins(Groups(SortByStart(xs))[5]) == {"hutchner", "compmed"}
    ensures UnionizeSpec(xs).Success? && |UnionizeSpec(xs).value| == 11
    ensures UnionizeSpec(xs).value[5] == Leaf(xs[8])
  {
    SampleHasSpans(xs);
    SampleGroups(xs);
    var gs := Groups(SortByStart(xs));
    OriginsOfThree(xs[10], xs[4], xs[11]);
    SampleNamePair(xs[0], xs[6]);
    SampleAgePair(xs[1], xs[7]);
    SampleProfessions(xs[2], xs[8]);
    SamplePhonePair(xs[3], xs[9]);
    SampleAddressTriple(xs[10], xs[4], xs[11]);
    SampleTestPair(xs[5], xs[12]);
    var o4 := FromAnnotationsSpec(gs[4]).value;
    var o5 := [Group(Lone(xs[10])), Group(Lone(xs[4])), Group(Lone(xs[11]))];
    var o6 := FromAnnotationsSpec(gs[6]).value;
    EmitSeven(gs, [Group(Lone(xs[0])), Group(Lone(xs[6]))], [Leaf(xs[1]), Leaf(xs[7])], [Leaf(xs[2])],
              [Leaf(xs[8])], o4, o5, o6);
    SixthOut([Group(Lone(xs[0])), Group(Lone(xs[6]))], [Leaf(xs[1]), Leaf(xs[7])], [Leaf(xs[2])],
             [Leaf(xs[8])], o4 + (o5 + o6));
  }
}
