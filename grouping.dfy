/** The grouping step shared by both `unionize_annotations` functions:
    Python's stable `sorted(..., key=start)` and the partition of the sorted
    spans into overlap groups. A span joins the open group exactly when it
    starts strictly before the group's running maximum end; a span that only
    touches that end opens a new group. */
module Grouping {
  import opened Common

  predicate SortedByStart(xs: seq<Ann>)
    requires AllHaveOffsets(xs)
  {
    forall i, j | 0 <= i < j < |xs| :: xs[i].start.value <= xs[j].start.value
  }

  /** The first annotation of a sorted list has the smallest start. */
  lemma SortedMinStart(xs: seq<Ann>)
    requires |xs| > 0 && AllHaveOffsets(xs) && SortedByStart(xs)
    ensures MinStart(xs) == xs[0].start.value
  {
    var i :| 0 <= i < |xs| && MinStart(xs) == xs[i].start.value;
    assert i == 0 || xs[0].start.value <= xs[i].start.value;
  }

  /** The annotations of `xs` that start at `k`, in their order in `xs`. */
  function StartingAt(xs: seq<Ann>, k: int): seq<Ann>
    requires AllHaveOffsets(xs)
  {
    if xs == [] then []
    else (if xs[0].start.value == k then [xs[0]] else []) + StartingAt(xs[1..], k)
  }

  /** Inserts `x` before the first element that does not start before it. */
  function Insert(x: Ann, ys: seq<Ann>): (r: seq<Ann>)
    requires HasOffsets(x) && AllHaveOffsets(ys)
    ensures AllHaveOffsets(r)
    ensures multiset(r) == multiset(ys) + multiset{x}
  {
    if ys == [] || x.start.value <= ys[0].start.value then [x] + ys
    else
      assert ys == [ys[0]] + ys[1..];
      [ys[0]] + Insert(x, ys[1..])
  }

  lemma {:induction false} InsertSorted(x: Ann, ys: seq<Ann>)
    requires HasOffsets(x) && AllHaveOffsets(ys) && SortedByStart(ys)
    ensures SortedByStart(Insert(x, ys))
  {
    if ys != [] && x.start.value > ys[0].start.value {
      SortedTail(ys);
      InsertSorted(x, ys[1..]);
      InsertBound(x, ys[1..], ys[0].start.value);
      SortedCons(ys[0], Insert(x, ys[1..]));
    } else if ys != [] {
      forall i | 0 <= i < |ys| ensures x.start.value <= ys[i].start.value {
        assert i == 0 || ys[0].start.value <= ys[i].start.value;
      }
      SortedCons(x, ys);
    }
  }

  /** The tail of a sorted list is sorted and starts no earlier than its
      head. */
  lemma SortedTail(ys: seq<Ann>)
    requires ys != [] && AllHaveOffsets(ys) && SortedByStart(ys)
    ensures AllHaveOffsets(ys[1..]) && SortedByStart(ys[1..])
    ensures forall i | 0 <= i < |ys| - 1 :: ys[0].start.value <= ys[1..][i].start.value
  {
    assert forall i | 0 <= i < |ys| - 1 :: ys[1..][i] == ys[i + 1];
  }

  /** A lower bound of `x` and of `ys` bounds their insertion. */
  lemma {:induction false} InsertBound(x: Ann, ys: seq<Ann>, b: int)
    requires HasOffsets(x) && AllHaveOffsets(ys) && b <= x.start.value
    requires forall i | 0 <= i < |ys| :: b <= ys[i].start.value
    ensures forall i | 0 <= i < |Insert(x, ys)| :: b <= Insert(x, ys)[i].start.value
  {
    if ys == [] || x.start.value <= ys[0].start.value {
      assert forall i | 1 <= i < |ys| + 1 :: ([x] + ys)[i] == ys[i - 1];
    } else {
      assert forall i | 0 <= i < |ys| - 1 :: ys[1..][i] == ys[i + 1];
      InsertBound(x, ys[1..], b);
      var t := Insert(x, ys[1..]);
      assert forall i | 1 <= i < |t| + 1 :: ([ys[0]] + t)[i] == t[i - 1];
    }
  }

  /** A head that starts no later than any element of a sorted tail. */
  lemma SortedCons(y: Ann, t: seq<Ann>)
    requires HasOffsets(y) && AllHaveOffsets(t) && SortedByStart(t)
    requires forall i | 0 <= i < |t| :: y.start.value <= t[i].start.value
    ensures AllHaveOffsets([y] + t) && SortedByStart([y] + t)
  {
    var r := [y] + t;
    assert forall i | 1 <= i < |r| :: r[i] == t[i - 1];
  }

  /** Python's `sorted(xs, key=lambda x: x.start)`, by insertion. */
  function SortByStart(xs: seq<Ann>): (r: seq<Ann>)
    requires AllHaveOffsets(xs)
    ensures AllHaveOffsets(r)
    ensures multiset(r) == multiset(xs)
  {
    if xs == [] then []
    else
      assert xs == [xs[0]] + xs[1..];
      Insert(xs[0], SortByStart(xs[1..]))
  }

  /** One step of the sort: the head is inserted into the sorted tail. */
  lemma SortCons(a: Ann, t: seq<Ann>)
    requires HasOffsets(a) && AllHaveOffsets(t)
    ensures AllHaveOffsets([a] + t) && AllHaveOffsets(SortByStart(t))
    ensures SortByStart([a] + t) == Insert(a, SortByStart(t))
  {
    assert ([a] + t)[0] == a && ([a] + t)[1..] == t;
    assert AllHaveOffsets([a] + t) by {
      forall i | 0 <= i < |[a] + t| ensures HasOffsets(([a] + t)[i]) {
        if i > 0 { assert ([a] + t)[i] == t[i - 1]; }
      }
    }
  }

  /** Sorting a list that is already sorted changes nothing. */
  lemma {:induction false} SortSorted(xs: seq<Ann>)
    requires AllHaveOffsets(xs) && SortedByStart(xs)
    ensures SortByStart(xs) == xs
  {
    if xs != [] {
      SortedTail(xs);
      SortSorted(xs[1..]);
      assert xs == [xs[0]] + xs[1..];
      SortCons(xs[0], xs[1..]);
    }
  }

  /** The output of the sort is ordered by start. */
  lemma {:induction false} SortIsSorted(xs: seq<Ann>)
    requires AllHaveOffsets(xs)
    ensures SortedByStart(SortByStart(xs))
  {
    if xs != [] {
      SortIsSorted(xs[1..]);
      InsertSorted(xs[0], SortByStart(xs[1..]));
    }
  }

  /** Sorting twice is sorting once. */
  lemma SortIdempotent(xs: seq<Ann>)
    requires AllHaveOffsets(xs)
    ensures SortByStart(SortByStart(xs)) == SortByStart(xs)
  {
    SortIsSorted(xs);
    SortSorted(SortByStart(xs));
  }

  lemma {:induction false} InsertKeepsTies(x: Ann, ys: seq<Ann>, k: int)
    requires HasOffsets(x) && AllHaveOffsets(ys)
    ensures StartingAt(Insert(x, ys), k)
         == (if x.start.value == k then [x] else []) + StartingAt(ys, k)
  {
    var xk: seq<Ann> := if x.start.value == k then [x] else [];
    if ys == [] || x.start.value <= ys[0].start.value {
      assert ([x] + ys)[0] == x;
      assert ([x] + ys)[1..] == ys;
    } else {
      var t := Insert(x, ys[1..]);
      var yk: seq<Ann> := if ys[0].start.value == k then [ys[0]] else [];
      InsertKeepsTies(x, ys[1..], k);
      StartingAtCons(ys[0], t, k);
      assert StartingAt(ys, k) == yk + StartingAt(ys[1..], k);
      SwapEmpty(xk, yk, StartingAt(ys[1..], k));
    }
  }

  lemma StartingAtCons(y: Ann, t: seq<Ann>, k: int)
    requires HasOffsets(y) && AllHaveOffsets(t)
    ensures AllHaveOffsets([y] + t)
    ensures StartingAt([y] + t, k) == (if y.start.value == k then [y] else []) + StartingAt(t, k)
  {
    assert ([y] + t)[0] == y;
    assert ([y] + t)[1..] == t;
  }

  /** Two lists of which one is empty commute in front of a third. */
  lemma SwapEmpty<T>(a: seq<T>, b: seq<T>, c: seq<T>)
    requires a == [] || b == []
    ensures b + (a + c) == a + (b + c)
  {
    if a == [] {
      assert a + c == c && a + (b + c) == b + c;
    } else {
      assert b + (a + c) == a + c && b + c == c;
    }
  }

  /** The sort is stable: the annotations that share one start keep the
      order they had in the input. Together with the multiset clause of
      `SortByStart` this pins the output down completely. */
  lemma {:induction false} SortIsStable(xs: seq<Ann>, k: int)
    requires AllHaveOffsets(xs)
    ensures StartingAt(SortByStart(xs), k) == StartingAt(xs, k)
  {
    if xs != [] {
      SortIsStable(xs[1..], k);
      InsertKeepsTies(xs[0], SortByStart(xs[1..]), k);
    }
  }

  // ---------------------------------------------------------------------
  // The overlap groups

  /** The groups that the scan still emits when `cur` is the open group and
      `xs` are the sorted spans not yet reached. */
  function Sweep(xs: seq<Ann>, cur: seq<Ann>): (r: seq<seq<Ann>>)
    requires AllHaveOffsets(xs) && AllHaveOffsets(cur)
    ensures r == [] <==> xs == [] && cur == []
    ensures |r| <= |xs| + (if cur == [] then 0 else 1)
    decreases |xs|
  {
    if xs == [] then (if cur == [] then [] else [cur])
    else if cur != [] && MaxEnd(cur) <= xs[0].start.value then [cur] + Sweep(xs[1..], [xs[0]])
    else Sweep(xs[1..], cur + [xs[0]])
  }

  /** The next span joins the open group: it starts before the group's
      maximum end, or no group is open. */
  lemma SweepJoin(y: Ann, ys: seq<Ann>, cur: seq<Ann>)
    requires HasOffsets(y) && AllHaveOffsets(ys) && AllHaveOffsets(cur)
    requires cur == [] || y.start.value < MaxEnd(cur)
    ensures AllHaveOffsets([y] + ys) && AllHaveOffsets(cur + [y])
    ensures Sweep([y] + ys, cur) == Sweep(ys, cur + [y])
  {
    assert ([y] + ys)[0] == y && ([y] + ys)[1..] == ys;
    assert AllHaveOffsets([y] + ys) by {
      forall i | 0 <= i < |[y] + ys| ensures HasOffsets(([y] + ys)[i]) {
        if i > 0 { assert ([y] + ys)[i] == ys[i - 1]; }
      }
    }
    assert AllHaveOffsets(cur + [y]) by {
      forall i | 0 <= i < |cur + [y]| ensures HasOffsets((cur + [y])[i]) {
        if i < |cur| { assert (cur + [y])[i] == cur[i]; }
      }
    }
  }

  /** The next span starts at or after the open group's maximum end: the
      group is closed and the span opens the next one. */
  lemma SweepCut(y: Ann, ys: seq<Ann>, cur: seq<Ann>)
    requires HasOffsets(y) && AllHaveOffsets(ys) && AllHaveOffsets(cur)
    requires cur != [] && MaxEnd(cur) <= y.start.value
    ensures AllHaveOffsets([y] + ys)
    ensures Sweep([y] + ys, cur) == [cur] + Sweep(ys, [y])
  {
    assert ([y] + ys)[0] == y && ([y] + ys)[1..] == ys;
    assert AllHaveOffsets([y] + ys) by {
      forall i | 0 <= i < |[y] + ys| ensures HasOffsets(([y] + ys)[i]) {
        if i > 0 { assert ([y] + ys)[i] == ys[i - 1]; }
      }
    }
  }

  /** The overlap groups of a list of spans sorted by start. */
  function Groups(xs: seq<Ann>): (r: seq<seq<Ann>>)
    requires AllHaveOffsets(xs)
    ensures (r == [] <==> xs == []) && |r| <= |xs|
  {
    Sweep(xs, [])
  }

  function Flatten(gs: seq<seq<Ann>>): seq<Ann> {
    if gs == [] then [] else gs[0] + Flatten(gs[1..])
  }

  /** Each member after the first starts strictly before the maximum end of
      the members before it. */
  predicate Chained(g: seq<Ann>)
    requires AllHaveOffsets(g)
  {
    forall j | 1 <= j < |g| :: g[j].start.value < MaxEnd(g[..j])
  }

  /** No group is empty and every member has offsets. */
  predicate GroupsOk(gs: seq<seq<Ann>>) {
    forall i | 0 <= i < |gs| :: gs[i] != [] && AllHaveOffsets(gs[i])
  }

  /** Each group after the first starts at or after the maximum end of the
      group before it. */
  predicate Separated(gs: seq<seq<Ann>>)
    requires GroupsOk(gs)
  {
    forall i | 0 <= i < |gs| - 1 :: MaxEnd(gs[i]) <= gs[i + 1][0].start.value
  }

  /** Closing the open group: a group whose maximum end is not past the next
      start is emitted on its own. */
  lemma SweepClose(xs: seq<Ann>, cur: seq<Ann>)
    requires AllHaveOffsets(xs) && AllHaveOffsets(cur) && cur != []
    requires xs == [] || MaxEnd(cur) <= xs[0].start.value
    ensures Sweep(xs, cur) == [cur] + Sweep(xs, [])
  {
    if xs != [] {
      assert [] + [xs[0]] == [xs[0]];
    }
  }

  lemma {:induction false} SweepHead(xs: seq<Ann>, cur: seq<Ann>)
    requires AllHaveOffsets(xs) && AllHaveOffsets(cur) && cur != []
    ensures |Sweep(xs, cur)| > 0 && Sweep(xs, cur)[0] != [] && Sweep(xs, cur)[0][0] == cur[0]
    decreases |xs|
  {
    if xs != [] && !(MaxEnd(cur) <= xs[0].start.value) {
      SweepHead(xs[1..], cur + [xs[0]]);
    }
  }

  lemma {:induction false} SweepFlatten(xs: seq<Ann>, cur: seq<Ann>)
    requires AllHaveOffsets(xs) && AllHaveOffsets(cur)
    ensures Flatten(Sweep(xs, cur)) == cur + xs
    decreases |xs|
  {
    if xs == [] {
      if cur != [] {
        assert Flatten([cur]) == cur + Flatten([]);
      }
    } else if cur != [] && MaxEnd(cur) <= xs[0].start.value {
      SweepFlatten(xs[1..], [xs[0]]);
      FlattenCons(cur, Sweep(xs[1..], [xs[0]]));
      AppendHead([], xs);
      ConcatAssoc(cur, [xs[0]], xs[1..]);
    } else {
      SweepFlatten(xs[1..], cur + [xs[0]]);
      AppendHead(cur, xs);
    }
  }

  lemma FlattenCons(g: seq<Ann>, gs: seq<seq<Ann>>)
    ensures Flatten([g] + gs) == g + Flatten(gs)
  {
    assert ([g] + gs)[1..] == gs;
  }

  lemma SortedParts(a: seq<Ann>, b: seq<Ann>)
    requires AllHaveOffsets(a + b) && SortedByStart(a + b)
    ensures AllHaveOffsets(a) && SortedByStart(a)
    ensures AllHaveOffsets(b) && SortedByStart(b)
  {
    forall i | 0 <= i < |a| ensures HasOffsets(a[i]) {
      assert (a + b)[i] == a[i];
    }
    forall i | 0 <= i < |b| ensures HasOffsets(b[i]) {
      assert (a + b)[|a| + i] == b[i];
    }
    forall i, j | 0 <= i < j < |a| ensures a[i].start.value <= a[j].start.value {
      assert (a + b)[i] == a[i] && (a + b)[j] == a[j];
    }
    forall i, j | 0 <= i < j < |b| ensures b[i].start.value <= b[j].start.value {
      assert (a + b)[|a| + i] == b[i] && (a + b)[|a| + j] == b[j];
    }
  }

  /** A span that starts before the running maximum end keeps a group
      chained. */
  lemma ChainedExtend(cur: seq<Ann>, x: Ann)
    requires AllHaveOffsets(cur) && HasOffsets(x) && Chained(cur)
    requires cur == [] || x.start.value < MaxEnd(cur)
    ensures AllHaveOffsets(cur + [x]) && Chained(cur + [x])
  {
    var c := cur + [x];
    assert AllHaveOffsets(c) by {
      forall i | 0 <= i < |c| ensures HasOffsets(c[i]) {
        if i < |cur| { assert c[i] == cur[i]; } else { assert c[i] == x; }
      }
    }
    forall j | 1 <= j < |c| ensures c[j].start.value < MaxEnd(c[..j]) {
      if j < |cur| {
        assert c[j] == cur[j] && c[..j] == cur[..j];
        assert cur[j].start.value < MaxEnd(cur[..j]);
      } else {
        assert c[j] == x && c[..j] == cur;
      }
    }
  }

  lemma {:induction false} SweepGroupsOk(xs: seq<Ann>, cur: seq<Ann>)
    requires AllHaveOffsets(xs) && AllHaveOffsets(cur)
    ensures GroupsOk(Sweep(xs, cur))
    decreases |xs|
  {
    if xs != [] {
      if cur != [] && MaxEnd(cur) <= xs[0].start.value {
        SweepGroupsOk(xs[1..], [xs[0]]);
      } else {
        SweepGroupsOk(xs[1..], cur + [xs[0]]);
      }
    }
  }

  lemma ChainedCons(g: seq<Ann>, gs: seq<seq<Ann>>)
    requires g != [] && AllHaveOffsets(g) && GroupsOk(gs)
    requires Chained(g) && forall i | 0 <= i < |gs| :: Chained(gs[i])
    ensures GroupsOk([g] + gs) && forall i | 0 <= i < |[g] + gs| :: Chained(([g] + gs)[i])
  {
    forall i | 0 <= i < |[g] + gs|
      ensures ([g] + gs)[i] != [] && AllHaveOffsets(([g] + gs)[i]) && Chained(([g] + gs)[i])
    {
      if i > 0 {
        assert ([g] + gs)[i] == gs[i - 1];
      }
    }
  }

  lemma {:induction false} SweepChained(xs: seq<Ann>, cur: seq<Ann>)
    requires AllHaveOffsets(xs) && AllHaveOffsets(cur) && Chained(cur)
    ensures GroupsOk(Sweep(xs, cur))
    ensures forall i | 0 <= i < |Sweep(xs, cur)| :: Chained(Sweep(xs, cur)[i])
    decreases |xs|
  {
    SweepGroupsOk(xs, cur);
    if xs != [] {
      if cur != [] && MaxEnd(cur) <= xs[0].start.value {
        SweepChained(xs[1..], [xs[0]]);
        ChainedCons(cur, Sweep(xs[1..], [xs[0]]));
      } else {
        ChainedExtend(cur, xs[0]);
        SweepChained(xs[1..], cur + [xs[0]]);
      }
    }
  }

  lemma {:induction false} SweepSorted(xs: seq<Ann>, cur: seq<Ann>)
    requires AllHaveOffsets(xs) && AllHaveOffsets(cur) && AllHaveOffsets(cur + xs)
    requires SortedByStart(cur + xs)
    ensures GroupsOk(Sweep(xs, cur))
    ensures forall i | 0 <= i < |Sweep(xs, cur)| :: SortedByStart(Sweep(xs, cur)[i])
    decreases |xs|
  {
    SweepGroupsOk(xs, cur);
    if xs == [] {
      assert cur + xs == cur;
    } else {
      SortedParts(cur, xs);
      if cur != [] && MaxEnd(cur) <= xs[0].start.value {
        assert [xs[0]] + xs[1..] == xs;
        SweepSorted(xs[1..], [xs[0]]);
        var gs := Sweep(xs, cur);
        assert forall i | 1 <= i < |gs| :: gs[i] == Sweep(xs[1..], [xs[0]])[i - 1];
      } else {
        assert (cur + [xs[0]]) + xs[1..] == cur + xs;
        SweepSorted(xs[1..], cur + [xs[0]]);
      }
    }
  }

  lemma {:induction false} SweepSeparated(xs: seq<Ann>, cur: seq<Ann>)
    requires AllHaveOffsets(xs) && AllHaveOffsets(cur)
    ensures GroupsOk(Sweep(xs, cur)) && Separated(Sweep(xs, cur))
    decreases |xs|
  {
    SweepGroupsOk(xs, cur);
    if xs != [] {
      if cur != [] && MaxEnd(cur) <= xs[0].start.value {
        var rest := Sweep(xs[1..], [xs[0]]);
        SweepSeparated(xs[1..], [xs[0]]);
        SweepHead(xs[1..], [xs[0]]);
        var gs := [cur] + rest;
        forall i | 0 <= i < |gs| - 1
          ensures MaxEnd(gs[i]) <= gs[i + 1][0].start.value
        {
          if i > 0 {
            assert gs[i] == rest[i - 1] && gs[i + 1] == rest[i];
          } else {
            assert gs[1] == rest[0];
          }
        }
      } else {
        SweepSeparated(xs[1..], cur + [xs[0]]);
      }
    }
  }

  /** Every sorted span lands in exactly one group, in order; no group is
      empty; inside a group each span starts strictly before the running
      maximum end; and each new group starts at or after the previous group's
      maximum end. */
  lemma GroupsPartition(xs: seq<Ann>)
    requires AllHaveOffsets(xs) && SortedByStart(xs)
    ensures Flatten(Groups(xs)) == xs
    ensures GroupsOk(Groups(xs))
    ensures forall i | 0 <= i < |Groups(xs)| :: Chained(Groups(xs)[i]) && SortedByStart(Groups(xs)[i])
    ensures Separated(Groups(xs))
  {
    SweepFlatten(xs, []);
    assert [] + xs == xs;
    SweepChained(xs, []);
    SweepSorted(xs, []);
    SweepSeparated(xs, []);
  }
}
