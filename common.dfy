/** Values shared by both annotation engines: optional fields, results and
    errors, the leaf annotation record, Python's upper-casing and string
    slicing, and the text splice that `add_annotation` performs. */
module Common {

  datatype Option<+T> = None | Some(value: T)

  datatype Result<+T, +E> = Success(value: T) | Failure(error: E)

  datatype Outcome<+E> = Pass | Fail(error: E)

  /** The exceptions the engines raise. */
  datatype Error =
    | EmptyAnnotation                                // ValueError: new annotation cannot be empty
    | NoOverlap                                      // ValueError: annotation text must overlap
    | EmptyList                                      // ValueError: annotation list cannot be empty
    | EmptyMax                                       // ValueError: max() of an empty list
    | NoneScore                                      // TypeError: a score of None is compared
    | IncompatibleType(typeSet: set<Option<string>>) // IncompatibleTypeException and its type_set

  /** One annotator's claim about a span of the note: `Annotation` in both
      engines. Fields that the Python object leaves as None are `None`. */
  datatype Ann = Ann(
    origin: string,
    start: Option<int>,
    end: Option<int>,
    score: Option<real>,
    text: Option<string>,
    typ: Option<string>,
    typeMap: map<string, string>)

  /** Python truthiness of an optional string: present and not "". */
  predicate Truthy(s: Option<string>) {
    s.Some? && s.value != ""
  }

  /** `x.get(k, d)` on a dict whose keys are strings. */
  function Get(m: map<string, string>, k: Option<string>, d: Option<string>): (r: Option<string>)
    ensures k.Some? && k.value in m ==> r == Some(m[k.value])
    ensures (k.None? || k.value !in m) ==> r == d
  {
    if k.Some? && k.value in m then Some(m[k.value]) else d
  }

  /** Prepends `prefix` to a successful list result; a failure passes through. */
  function Then<T>(prefix: seq<T>, r: Result<seq<T>, Error>): (s: Result<seq<T>, Error>)
    ensures s.Success? <==> r.Success?
    ensures s.Success? ==> s.value == prefix + r.value
    ensures s.Failure? ==> s == r
  {
    if r.Success? then Success(prefix + r.value) else r
  }

  lemma ThenNil<T>(r: Result<seq<T>, Error>)
    ensures Then([], r) == r
  {
    if r.Success? {
      assert [] + r.value == r.value;
    }
  }

  lemma ThenThen<T>(a: seq<T>, b: seq<T>, r: Result<seq<T>, Error>)
    ensures Then(a, Then(b, r)) == Then(a + b, r)
  {
    if r.Success? {
      assert a + (b + r.value) == (a + b) + r.value;
    }
  }

  /** Growing a prefix by one element. */
  lemma ConcatAssoc<T>(a: seq<T>, b: seq<T>, c: seq<T>)
    ensures (a + b) + c == a + (b + c)
  {
  }

  lemma AppendHead<T>(p: seq<T>, s: seq<T>)
    requires s != []
    ensures (p + [s[0]]) + s[1..] == p + s
  {
  }

  /** Dropping one more element of a suffix. */
  lemma DropOne<T>(s: seq<T>, k: int)
    requires 0 <= k < |s|
    ensures s[k..][0] == s[k] && s[k..][1..] == s[k + 1..]
  {
  }

  lemma TakeSnoc<T>(s: seq<T>, j: int)
    requires 0 <= j < |s|
    ensures s[..j] + [s[j]] == s[..j + 1]
  {
  }

  // ---------------------------------------------------------------------
  // Upper-casing (the `type` setter calls str.upper())

  predicate IsLower(c: char) {
    'a' <= c <= 'z'
  }

  function UpperChar(c: char): (u: char)
    ensures !IsLower(u)
    ensures IsLower(c) ==> u as int == c as int - 32
    ensures !IsLower(c) ==> u == c
  {
    if IsLower(c) then (c as int - 32) as char else c
  }

  /** str.upper() on ASCII letters. */
  function Upper(s: string): (r: string)
    ensures |r| == |s|
    ensures forall i | 0 <= i < |r| :: !IsLower(r[i])
    ensures forall i | 0 <= i < |r| :: IsLower(s[i]) ==> r[i] as int == s[i] as int - 32
    ensures forall i | 0 <= i < |r| :: !IsLower(s[i]) ==> r[i] == s[i]
  {
    if s == [] then [] else [UpperChar(s[0])] + Upper(s[1..])
  }

  /** Upper-casing is the identity on a string with no lower-case letter,
      so it is idempotent. */
  lemma {:induction false} UpperFixesUpper(s: string)
    requires forall i | 0 <= i < |s| :: !IsLower(s[i])
    ensures Upper(s) == s
  {
    if s != [] {
      UpperFixesUpper(s[1..]);
    }
  }

  lemma UpperIdempotent(s: string)
    ensures Upper(Upper(s)) == Upper(s)
  {
    UpperFixesUpper(Upper(s));
  }

  // ---------------------------------------------------------------------
  // Python slicing

  /** Python's `s[k:]`: a start past the end gives "", a negative start
      counts from the end and is clamped at the front. */
  function PySliceFrom(s: string, k: int): (r: string)
    ensures |r| == if k >= 0 then (if k <= |s| then |s| - k else 0)
                  else (if -k <= |s| then -k else |s|)
    ensures r == s[|s| - |r|..]
  {
    if k >= 0 then (if k <= |s| then s[k..] else [])
    else (if -k <= |s| then s[|s| + k..] else s)
  }

  // ---------------------------------------------------------------------
  // Offsets of a list of annotations

  predicate HasOffsets(a: Ann) {
    a.start.Some? && a.end.Some?
  }

  predicate AllHaveOffsets(xs: seq<Ann>) {
    forall i | 0 <= i < |xs| :: HasOffsets(xs[i])
  }

  lemma SplitOffsets(xs: seq<Ann>, k: int)
    requires AllHaveOffsets(xs) && 0 <= k <= |xs|
    ensures AllHaveOffsets(xs[..k]) && AllHaveOffsets(xs[k..])
  {
  }

  function Min(a: int, b: int): int { if a <= b then a else b }

  function Max(a: int, b: int): int { if a >= b then a else b }

  /** The smallest start of a non-empty list: `min(...)` of the window. */
  function MinStart(xs: seq<Ann>): (m: int)
    requires |xs| > 0 && AllHaveOffsets(xs)
    ensures forall i | 0 <= i < |xs| :: m <= xs[i].start.value
    ensures exists i | 0 <= i < |xs| :: m == xs[i].start.value
  {
    if |xs| == 1 then xs[0].start.value
    else
      Min(MinStart(xs[..|xs| - 1]), xs[|xs| - 1].start.value)
  }

  /** The largest end of a non-empty list: `max(...)` of the window. */
  function MaxEnd(xs: seq<Ann>): (m: int)
    requires |xs| > 0 && AllHaveOffsets(xs)
    ensures forall i | 0 <= i < |xs| :: xs[i].end.value <= m
    ensures exists i | 0 <= i < |xs| :: m == xs[i].end.value
  {
    if |xs| == 1 then xs[0].end.value
    else
      Max(MaxEnd(xs[..|xs| - 1]), xs[|xs| - 1].end.value)
  }

  // ---------------------------------------------------------------------
  // The text splice of add_annotation

  /** `text == doc[start:end]` with the slice inside the document. */
  predicate Covers(doc: string, start: int, end: int, text: string) {
    0 <= start <= end <= |doc| && text == doc[start..end]
  }

  /** An annotation whose text is the part of `doc` its offsets name. */
  predicate AnnCovers(doc: string, a: Ann) {
    a.start.Some? && a.end.Some? && a.text.Some?
    && Covers(doc, a.start.value, a.end.value, a.text.value)
  }

  /** The new text of a window `[ms, me)` holding `mt` after a piece
      `[as, ae)` holding `at` is added: the piece's tail past the window is
      appended, or its head before the window is prepended. */
  function SpliceText(ms: int, me: int, mt: string, as_: int, ae: int, at: string): string {
    if ms <= as_ then mt + PySliceFrom(at, me - as_)
    else at + PySliceFrom(mt, ae - ms)
  }

  /** When both texts are the parts of one document their offsets name and
      the two ranges overlap or touch, the slice index is never negative and
      the splice is exactly the document over the union of the ranges: a
      contained piece adds nothing and an enclosing piece replaces the text. */
  lemma SpliceReconstructs(doc: string, ms: int, me: int, mt: string, as_: int, ae: int, at: string)
    requires Covers(doc, ms, me, mt) && Covers(doc, as_, ae, at)
    requires !(me < as_ || ms > ae)
    ensures ms <= as_ ==> me - as_ >= 0
    ensures ms > as_ ==> ae - ms >= 0
    ensures SpliceText(ms, me, mt, as_, ae, at) == doc[Min(ms, as_)..Max(me, ae)]
  {
    if ms <= as_ {
      var k := me - as_;
      if ae <= me {
        assert PySliceFrom(at, k) == [];
      } else {
        assert PySliceFrom(at, k) == doc[me..ae];
        assert doc[ms..me] + doc[me..ae] == doc[ms..ae];
      }
    } else {
      var k := ae - ms;
      if me <= ae {
        assert PySliceFrom(mt, k) == [];
      } else {
        assert PySliceFrom(mt, k) == doc[ae..me];
        assert doc[as_..ae] + doc[ae..me] == doc[as_..me];
      }
    }
  }
}
