/** How a `MergedAnnotation` of the flaskphiid engine reports its type and
    score from its source annotations (flaskphiid/annotation.py, the
    `source_*`, `type`, `score` and `has_compatible_family_typelist`
    properties). Every function here takes the list of sources. */
module PhiResolution {
  import opened Common
  import opened PhiAnnotation

  // ---------------------------------------------------------------------
  // The source_* properties

  function SourceTypes(xs: seq<Ann>): (s: set<Option<string>>)
    ensures forall i | 0 <= i < |xs| :: xs[i].typ in s
    ensures forall t | t in s :: exists i | 0 <= i < |xs| :: xs[i].typ == t
  {
    set i | 0 <= i < |xs| :: xs[i].typ
  }

  function SourceParentTypes(xs: seq<Ann>): (s: set<Option<string>>)
    ensures forall i | 0 <= i < |xs| :: ParentType(xs[i]) in s
    ensures forall t | t in s :: exists i | 0 <= i < |xs| :: ParentType(xs[i]) == t
  {
    set i | 0 <= i < |xs| :: ParentType(xs[i])
  }

  function SourceScores(xs: seq<Ann>): (r: seq<Option<real>>)
    ensures |r| == |xs|
    ensures forall i | 0 <= i < |xs| :: r[i] == xs[i].score
  {
    if xs == [] then [] else [xs[0].score] + SourceScores(xs[1..])
  }

  function SourceOrigins(xs: seq<Ann>): (s: set<string>)
    ensures forall i | 0 <= i < |xs| :: xs[i].origin in s
    ensures forall o | o in s :: exists i | 0 <= i < |xs| :: xs[i].origin == o
  {
    set i | 0 <= i < |xs| :: xs[i].origin
  }

  // ---------------------------------------------------------------------
  // One label, one family

  /** `len(source_types) == 1`, stated on the list. */
  predicate SingleType(xs: seq<Ann>) {
    |xs| > 0 && forall i | 0 <= i < |xs| :: xs[i].typ == xs[0].typ
  }

  /** `len(source_parent_types) == 1`, stated on the list. */
  predicate SingleParent(xs: seq<Ann>) {
    |xs| > 0 && forall i | 0 <= i < |xs| :: ParentType(xs[i]) == ParentType(xs[0])
  }

  lemma SingletonSet<T>(s: set<T>, x: T)
    requires x in s
    ensures |s| == 1 <==> s == {x}
  {
    var r := s - {x};
    assert s == r + {x};
    assert |s| == |r| + 1;
  }

  /** The list form of the decision agrees with the set the source counts. */
  lemma SingleTypeIff(xs: seq<Ann>)
    ensures SingleType(xs) <==> |SourceTypes(xs)| == 1
  {
    var s := SourceTypes(xs);
    if |xs| == 0 {
      assert s == {};
    } else {
      SingletonSet(s, xs[0].typ);
      if SingleType(xs) {
        assert s == {xs[0].typ};
      } else {
        var i :| 0 <= i < |xs| && xs[i].typ != xs[0].typ;
        assert xs[i].typ in s;
      }
    }
  }

  lemma SingleParentIff(xs: seq<Ann>)
    ensures SingleParent(xs) <==> |SourceParentTypes(xs)| == 1
  {
    var s := SourceParentTypes(xs);
    if |xs| == 0 {
      assert s == {};
    } else {
      SingletonSet(s, ParentType(xs[0]));
      if SingleParent(xs) {
        assert s == {ParentType(xs[0])};
      } else {
        var i :| 0 <= i < |xs| && ParentType(xs[i]) != ParentType(xs[0]);
        assert ParentType(xs[i]) in s;
      }
    }
  }

  // ---------------------------------------------------------------------
  // Subtypes and the best-scored one

  /** An annotation whose label is refined by its taxonomy. */
  predicate IsSubtype(a: Ann) {
    a.typ != ParentType(a)
  }

  /** `[x for x in sources if x.type != x.parent_type]`. */
  function Subtypes(xs: seq<Ann>): (r: seq<Ann>)
    ensures |r| <= |xs|
    ensures forall a | a in r :: a in xs && IsSubtype(a)
    ensures forall a | a in xs && IsSubtype(a) :: a in r
  {
    if xs == [] then []
    else (if IsSubtype(xs[0]) then [xs[0]] else []) + Subtypes(xs[1..])
  }

  /** Two labels of one family: at least one of them is a subtype, so the
      list `max` is applied to is never empty. */
  lemma SubtypesNonEmpty(xs: seq<Ann>)
    requires SingleParent(xs) && !SingleType(xs)
    ensures |Subtypes(xs)| > 0
  {
    var i :| 0 <= i < |xs| && xs[i].typ != xs[0].typ;
    if !IsSubtype(xs[0]) {
      assert xs[i].typ != ParentType(xs[i]);
      assert xs[i] in Subtypes(xs);
    } else {
      assert xs[0] in Subtypes(xs);
    }
  }

  predicate Scored(xs: seq<Ann>) {
    forall i | 0 <= i < |xs| :: xs[i].score.Some?
  }

  lemma SubtypesScored(xs: seq<Ann>)
    requires Scored(xs)
    ensures Scored(Subtypes(xs))
  {
    var subs := Subtypes(xs);
    forall i | 0 <= i < |subs|
      ensures subs[i].score.Some?
    {
      assert subs[i] in xs;
    }
  }

  function MaxReal(a: real, b: real): real { if a >= b then a else b }

  /** The largest score of a scored list. */
  function MaxScore(xs: seq<Ann>): (m: real)
    requires |xs| > 0 && Scored(xs)
    ensures forall i | 0 <= i < |xs| :: xs[i].score.value <= m
    ensures exists i | 0 <= i < |xs| :: xs[i].score.value == m
  {
    if |xs| == 1 then xs[0].score.value
    else MaxReal(MaxScore(xs[..|xs| - 1]), xs[|xs| - 1].score.value)
  }

  /** `max(xs, key=attrgetter('score'))`: Python keeps the first element of
      largest score and replaces it only by a strictly larger one. */
  function Top(xs: seq<Ann>): (t: Ann)
    requires |xs| > 0 && Scored(xs)
    ensures t.score.Some? && t.score.value == MaxScore(xs)
    ensures exists i | 0 <= i < |xs| ::
      xs[i] == t && (forall j | 0 <= j < i :: xs[j].score.value < t.score.value)
  {
    if |xs| == 1 then xs[0]
    else
      var p := xs[..|xs| - 1];
      var t := Top(p);
      var last := xs[|xs| - 1];
      if last.score.value > t.score.value then
        assert forall j | 0 <= j < |xs| - 1 :: xs[j] == p[j];
        last
      else
        var i :| 0 <= i < |p| && p[i] == t && forall j | 0 <= j < i :: p[j].score.value < t.score.value;
        assert xs[i] == t && forall j | 0 <= j < i :: xs[j] == p[j];
        t
  }

  /** Python's `max` over the list of scores: a single element is returned
      as it is (None included); with two or more, comparing a None raises
      TypeError. */
  function PyMaxScore(xs: seq<Ann>): (r: Result<Option<real>, Error>)
    requires |xs| > 0
    ensures r.Failure? <==> |xs| > 1 && !Scored(xs)
    ensures r.Failure? ==> r.error == NoneScore
    ensures r.Success? && Scored(xs) ==> r.value == Some(MaxScore(xs))
    ensures r.Success? && !Scored(xs) ==> r.value == xs[0].score
  {
    if |xs| == 1 then Success(xs[0].score)
    else if !Scored(xs) then Failure(NoneScore)
    else Success(Some(MaxScore(xs)))
  }

  /** Python's `max` by score: a single element is returned without a
      comparison; with two or more, comparing a None raises TypeError. */
  function PyTop(xs: seq<Ann>): (r: Result<Ann, Error>)
    requires |xs| > 0
    ensures r.Failure? <==> |xs| > 1 && !Scored(xs)
    ensures r.Failure? ==> r.error == NoneScore
    ensures r.Success? ==> r.value in xs
    ensures r.Success? && Scored(xs) ==> r.value == Top(xs)
  {
    if |xs| == 1 then Success(xs[0])
    else if !Scored(xs) then Failure(NoneScore)
    else
      var t := Top(xs);
      assert t in xs;
      Success(t)
  }

  // ---------------------------------------------------------------------
  // The merged type and score

  /** The `type` property of a merged annotation. */
  function ResolvedType(xs: seq<Ann>): (r: Result<Option<string>, Error>)
    ensures r.Failure? ==> r.error == NoneScore
  {
    if SingleType(xs) then Success(xs[0].typ)
    else if SingleParent(xs) then
      SubtypesNonEmpty(xs);
      match PyTop(Subtypes(xs))
      case Failure(e) => Failure(e)
      case Success(top) =>
        if top.score.None? then Failure(NoneScore)
        else if top.score.value >= TYPE_THRESHOLD then Success(top.typ)
        else Success(ParentType(xs[0]))
    else Success(Some(UNKNOWN))
  }

  /** The `score` property of a merged annotation. */
  function ResolvedScore(xs: seq<Ann>): (r: Result<Option<real>, Error>)
    ensures r.Failure? ==> r.error == NoneScore
  {
    if SingleType(xs) then PyMaxScore(xs)
    else if SingleParent(xs) then
      SubtypesNonEmpty(xs);
      match PyMaxScore(Subtypes(xs))
      case Failure(e) => Failure(e)
      case Success(s) =>
        if s.None? then Failure(NoneScore)
        else if s.value >= TYPE_THRESHOLD then Success(s)
        else PyMaxScore(xs)
    else Success(Some(TYPE_THRESHOLD))
  }

  /** `has_compatible_family_typelist`: the merged type is not "UNKNOWN". */
  function HasCompatibleFamilyTypelist(xs: seq<Ann>): (r: Result<bool, Error>)
    ensures r.Failure? <==> ResolvedType(xs).Failure?
    ensures r.Success? ==> (r.value <==> ResolvedType(xs).value != Some(UNKNOWN))
  {
    match ResolvedType(xs)
    case Failure(e) => Failure(e)
    case Success(t) => Success(t != Some(UNKNOWN))
  }

  // ---------------------------------------------------------------------
  // Properties of the resolution

  /** The type raises exactly when the sources span several labels of one
      family and some subtype has no score. */
  lemma ResolvedTypeFails(xs: seq<Ann>)
    ensures ResolvedType(xs).Failure? <==>
      !SingleType(xs) && SingleParent(xs) && !Scored(Subtypes(xs))
    ensures ResolvedType(xs).Failure? ==> ResolvedType(xs).error == NoneScore
  {
    if !SingleType(xs) && SingleParent(xs) {
      SubtypesNonEmpty(xs);
      var subs := Subtypes(xs);
      if Scored(subs) {
        assert PyTop(subs).value.score.Some?;
      } else if |subs| == 1 {
        assert subs[0].score.None?;
        assert PyTop(subs) == Success(subs[0]);
      }
    }
  }

  /** With every source scored, the score never raises and is present. */
  lemma ResolvedScoreFails(xs: seq<Ann>)
    requires Scored(xs)
    ensures ResolvedScore(xs).Success? && ResolvedScore(xs).value.Some?
  {
    if !SingleType(xs) && SingleParent(xs) {
      SubtypesNonEmpty(xs);
      SubtypesScored(xs);
    }
  }

  /** When every source is scored, the merged type and score are decided by
      the table of the source: one label gives that label and the top score;
      one family gives the best subtype and its score when that score
      reaches the threshold, else the family and the top score of all
      sources; anything else gives "UNKNOWN" at the threshold. */
  lemma ResolutionTable(xs: seq<Ann>)
    requires |xs| > 0 && Scored(xs)
    ensures SingleType(xs) ==>
      ResolvedType(xs) == Success(xs[0].typ) && ResolvedScore(xs) == Success(Some(MaxScore(xs)))
    ensures !SingleType(xs) && SingleParent(xs) ==>
      |Subtypes(xs)| > 0 && Scored(Subtypes(xs)) &&
      (MaxScore(Subtypes(xs)) >= TYPE_THRESHOLD ==>
        ResolvedType(xs) == Success(Top(Subtypes(xs)).typ)
        && ResolvedScore(xs) == Success(Some(MaxScore(Subtypes(xs))))) &&
      (MaxScore(Subtypes(xs)) < TYPE_THRESHOLD ==>
        ResolvedType(xs) == Success(ParentType(xs[0]))
        && ResolvedScore(xs) == Success(Some(MaxScore(xs))))
    ensures !SingleType(xs) && !SingleParent(xs) ==>
      ResolvedType(xs) == Success(Some(UNKNOWN)) && ResolvedScore(xs) == Success(Some(TYPE_THRESHOLD))
  {
    if !SingleType(xs) && SingleParent(xs) {
      SubtypesNonEmpty(xs);
      SubtypesScored(xs);
      var subs := Subtypes(xs);
      if |subs| == 1 {
        assert Top(subs) == subs[0];
      }
      if MaxScore(subs) < TYPE_THRESHOLD {
        assert |xs| > 1;
      }
    }
  }

  /** The merged type is always a label of a source, the family of the
      first source, or "UNKNOWN"; it is "UNKNOWN" whenever both the labels
      and the families differ. */
  lemma ResolvedTypeIsKnownLabel(xs: seq<Ann>)
    requires ResolvedType(xs).Success?
    ensures var t := ResolvedType(xs).value;
      t == Some(UNKNOWN) || (|xs| > 0 && t == ParentType(xs[0]))
      || exists i | 0 <= i < |xs| :: t == xs[i].typ
    ensures !SingleType(xs) && !SingleParent(xs) ==> ResolvedType(xs).value == Some(UNKNOWN)
  {
    if SingleType(xs) {
      assert ResolvedType(xs).value == xs[0].typ;
    } else if SingleParent(xs) {
      SubtypesNonEmpty(xs);
      var subs := Subtypes(xs);
      var top := PyTop(subs).value;
      assert top in xs;
      var i :| 0 <= i < |xs| && xs[i] == top;
      if top.score.value >= TYPE_THRESHOLD {
        assert ResolvedType(xs).value == xs[i].typ;
      }
    }
  }

  /** The merged score is the score of some source or the threshold. */
  lemma ResolvedScoreIsSourceScore(xs: seq<Ann>)
    requires Scored(xs)
    ensures ResolvedScore(xs).Success? && ResolvedScore(xs).value.Some?
    ensures var s := ResolvedScore(xs).value.value;
      s == TYPE_THRESHOLD || exists i | 0 <= i < |xs| :: xs[i].score == Some(s)
  {
    ResolvedScoreFails(xs);
    if SingleType(xs) {
    } else if SingleParent(xs) {
      ResolutionTable(xs);
      var subs := Subtypes(xs);
      if MaxScore(subs) >= TYPE_THRESHOLD {
        var j :| 0 <= j < |subs| && subs[j].score.value == MaxScore(subs);
        assert subs[j] in xs;
      }
    }
  }

  /** With scored sources of one family, the merged annotation reports a
      subtype exactly when its score reaches the threshold, and then the
      reported score is that subtype's own score. */
  lemma SubtypeChosenAtThreshold(xs: seq<Ann>)
    requires Scored(xs) && SingleParent(xs) && !SingleType(xs)
    requires forall i | 0 <= i < |xs| :: IsSubtype(xs[i])
    ensures ResolvedScore(xs).Success? && ResolvedScore(xs).value.Some?
    ensures ResolvedScore(xs).value.value >= TYPE_THRESHOLD <==>
      exists i | 0 <= i < |xs| :: ResolvedType(xs) == Success(xs[i].typ)
        && xs[i].score == ResolvedScore(xs).value
  {
    ResolutionTable(xs);
    var subs := Subtypes(xs);
    if MaxScore(subs) >= TYPE_THRESHOLD {
      var t := Top(subs);
      var k :| 0 <= k < |subs| && subs[k] == t;
      assert t in xs;
      var i :| 0 <= i < |xs| && xs[i] == t;
      assert ResolvedType(xs) == Success(xs[i].typ);
    } else {
      forall i | 0 <= i < |xs|
        ensures !(ResolvedType(xs) == Success(xs[i].typ) && xs[i].score == ResolvedScore(xs).value)
      {
        assert xs[i] in subs;
      }
    }
  }

  /** A compatible group is one label or one family. (One label need not
      mean one family: two annotators may attach different taxonomies to
      the same label.) */
  lemma CompatibleIsOneFamily(xs: seq<Ann>)
    requires HasCompatibleFamilyTypelist(xs) == Success(true)
    ensures SingleType(xs) || SingleParent(xs)
  {
  }

  /** Conversely, scored sources of one family whose labels and family are
      never "UNKNOWN" form a compatible group. */
  lemma OneFamilyIsCompatible(xs: seq<Ann>)
    requires Scored(xs) && SingleParent(xs)
    requires forall i | 0 <= i < |xs| :: xs[i].typ != Some(UNKNOWN) && ParentType(xs[i]) != Some(UNKNOWN)
    ensures HasCompatibleFamilyTypelist(xs) == Success(true)
  {
    ResolvedTypeFails(xs);
    SubtypesScored(xs);
    ResolvedTypeIsKnownLabel(xs);
    ResolutionTable(xs);
  }

  /** What a single source reports through a merged annotation is its own
      label and score. */
  lemma SingleSource(a: Ann)
    ensures ResolvedType([a]) == Success(a.typ)
    ensures ResolvedScore([a]) == Success(a.score)
  {
  }

  /** The sources a group keeps are non-empty annotations with a score
      whose taxonomy has no blank parent; those are the ones the factories
      make from records carrying a score. */
  predicate Good(a: Ann) {
    !Empty(a) && a.score.Some? && NamedParents(a.typeMap)
  }

  predicate AllGood(xs: seq<Ann>) {
    forall i | 0 <= i < |xs| :: Good(xs[i])
  }

  lemma AllGoodSnoc(xs: seq<Ann>, a: Ann)
    requires AllGood(xs) && Good(a)
    ensures AllGood(xs + [a])
  {
    assert forall i | 0 <= i < |xs| :: (xs + [a])[i] == xs[i];
  }

  /** Over good sources the merged type never raises and is never blank, so
      a merged annotation with offsets and text is never `empty()`. */
  lemma GoodTypeTruthy(xs: seq<Ann>)
    requires AllGood(xs)
    ensures ResolvedType(xs).Success? && Truthy(ResolvedType(xs).value)
  {
    if |xs| > 0 {
      assert Scored(xs);
      ResolvedTypeFails(xs);
      SubtypesScored(xs);
      ResolvedTypeIsKnownLabel(xs);
      ResolutionTable(xs);
      if !SingleType(xs) && SingleParent(xs) {
        var subs := Subtypes(xs);
        if MaxScore(subs) >= TYPE_THRESHOLD {
          assert Top(subs) in xs;
        } else {
          assert !Empty(xs[0]);
        }
      }
    }
  }
}
