/** Leaf annotations of the flaskphiid engine (flaskphiid/annotation.py):
    the HutchNER taxonomy, the two factories, the `type` setter,
    `parent_type`, `empty` and `to_dict`. */
module PhiAnnotation {
  import opened Common

  /** HutchNER labels and the Comprehend Medical label each one refines. */
  const HUTCHNER_TYPE_MAP: map<string, string> := map[
    "WARD" := "ADDRESS",
    "SPECIALTY" := "ADDRESS",
    "HOSPITAL_NAME" := "ADDRESS",
    "MEDICAL_RECORD_NUMBER" := "ID",
    "PATIENT_OR_FAMILY_NAME" := "NAME",
    "PROVIDER_NAME" := "NAME",
    "EMPLOYER" := "PROFESSION"
  ]

  const TYPE_THRESHOLD: real := 0.5

  const UNKNOWN: string := "UNKNOWN"

  /** A Comprehend Medical entity; a key missing from the dict is `None`. */
  datatype CompMedRecord = CompMedRecord(
    beginOffset: Option<int>, endOffset: Option<int>, score: Option<real>,
    typ: Option<string>, text: Option<string>)

  /** A HutchNER token label; a key missing from the dict is `None`. */
  datatype HutchNerRecord = HutchNerRecord(
    start: Option<int>, stop: Option<int>, confidence: Option<real>,
    nerLabel: Option<string>, text: Option<string>)

  /** The serialised annotation built by `to_dict`. */
  datatype AnnDict = AnnDict(
    origin: string, start: Option<int>, end: Option<int>, score: Option<real>,
    typ: Option<string>, text: Option<string>)

  /** The `type` setter: a falsy label is stored as None, any other is
      upper-cased. */
  function NormalizeType(t: Option<string>): (r: Option<string>)
    ensures r.Some? <==> Truthy(t)
    ensures r.Some? ==> |r.value| == |t.value| && r.value != ""
    ensures r.Some? ==> forall i | 0 <= i < |r.value| :: !IsLower(r.value[i])
  {
    if Truthy(t) then Some(Upper(t.value)) else None
  }

  /** Setting a stored type again leaves it as it is. */
  lemma NormalizeTypeIdempotent(t: Option<string>)
    ensures NormalizeType(NormalizeType(t)) == NormalizeType(t)
  {
    if Truthy(t) {
      UpperIdempotent(t.value);
    }
  }

  /** `Annotation(origin)`: every field unset and an empty taxonomy. */
  function NewAnnotation(origin: string): (a: Ann)
    ensures a.origin == origin && a.typeMap == map[]
    ensures Empty(a)
  {
    Ann(origin, None, None, None, None, None, map[])
  }

  /** `AnnotationFactory.from_compmed`. */
  function FromCompmed(rec: CompMedRecord): (a: Ann)
    ensures a.origin == "compmed" && a.typeMap == map[]
    ensures a.start == rec.beginOffset && a.end == rec.endOffset
    ensures a.score == rec.score && a.text == rec.text
    ensures a.typ == NormalizeType(rec.typ)
  {
    var a := NewAnnotation("compmed");
    a.(start := rec.beginOffset, end := rec.endOffset, score := rec.score,
       typ := NormalizeType(rec.typ), text := rec.text)
  }

  /** `AnnotationFactory.from_hutchner`. */
  function FromHutchner(rec: HutchNerRecord): (a: Ann)
    ensures a.origin == "hutchner" && a.typeMap == HUTCHNER_TYPE_MAP
    ensures a.start == rec.start && a.end == rec.stop
    ensures a.score == rec.confidence && a.text == rec.text
    ensures a.typ == NormalizeType(rec.nerLabel)
  {
    var a := NewAnnotation("hutchner");
    a.(start := rec.start, end := rec.stop, score := rec.confidence,
       typ := NormalizeType(rec.nerLabel), text := rec.text, typeMap := HUTCHNER_TYPE_MAP)
  }

  /** `parent_type`: the taxonomy entry for the type, or the type itself. */
  function ParentType(a: Ann): Option<string> {
    Get(a.typeMap, a.typ, a.typ)
  }

  /** `empty()`: an offset that is None, or a falsy text or type. An offset
      of 0 is present. */
  predicate Empty(a: Ann) {
    !(a.start.Some? && a.end.Some? && Truthy(a.text) && Truthy(a.typ))
  }

  /** Every taxonomy entry names a parent (true of both tables the factories
      attach). */
  predicate NamedParents(m: map<string, string>) {
    forall k | k in m :: m[k] != ""
  }

  /** The taxonomy has two levels: every parent is a non-blank label that
      is not refined further, so the parent of a parent is itself. */
  lemma TaxonomyTwoLevel()
    ensures NamedParents(HUTCHNER_TYPE_MAP)
    ensures forall k | k in HUTCHNER_TYPE_MAP :: HUTCHNER_TYPE_MAP[k] !in HUTCHNER_TYPE_MAP
  {
  }

  /** `to_dict()` of a leaf annotation. */
  function ToDict(a: Ann): AnnDict {
    AnnDict(a.origin, a.start, a.end, a.score, a.typ, a.text)
  }

  // ---------------------------------------------------------------------
  // Properties of the factories

  /** A HutchNER annotation is non-empty exactly when the record has both
      offsets (0 included), a non-blank text and a non-blank label. */
  lemma FromHutchnerEmpty(rec: HutchNerRecord)
    ensures !Empty(FromHutchner(rec)) <==>
      rec.start.Some? && rec.stop.Some? && Truthy(rec.text) && Truthy(rec.nerLabel)
  {
  }

  /** A Comprehend Medical annotation is non-empty exactly when the record
      has both offsets (0 included), a non-blank text and a non-blank type. */
  lemma FromCompmedEmpty(rec: CompMedRecord)
    ensures !Empty(FromCompmed(rec)) <==>
      rec.beginOffset.Some? && rec.endOffset.Some? && Truthy(rec.text) && Truthy(rec.typ)
  {
  }

  /** The parent of a HutchNER annotation is the taxonomy entry of its
      upper-cased label, and the upper-cased label itself when the table has
      no entry. */
  lemma FromHutchnerParent(rec: HutchNerRecord)
    requires Truthy(rec.nerLabel)
    ensures Upper(rec.nerLabel.value) in HUTCHNER_TYPE_MAP ==>
      ParentType(FromHutchner(rec)) == Some(HUTCHNER_TYPE_MAP[Upper(rec.nerLabel.value)])
    ensures Upper(rec.nerLabel.value) !in HUTCHNER_TYPE_MAP ==>
      ParentType(FromHutchner(rec)) == Some(Upper(rec.nerLabel.value))
  {
  }

  /** A Comprehend Medical annotation is its own parent. */
  lemma FromCompmedParent(rec: CompMedRecord)
    ensures ParentType(FromCompmed(rec)) == NormalizeType(rec.typ)
  {
  }

  /** Every parent either factory attaches is a non-blank label, so the
      parent of a non-empty factory annotation is never blank. */
  lemma FactoryParentsNamed(c: CompMedRecord, h: HutchNerRecord)
    ensures NamedParents(FromCompmed(c).typeMap) && NamedParents(FromHutchner(h).typeMap)
    ensures !Empty(FromCompmed(c)) ==> Truthy(ParentType(FromCompmed(c)))
    ensures !Empty(FromHutchner(h)) ==> Truthy(ParentType(FromHutchner(h)))
  {
  }

  /** `to_dict` of a factory annotation reports the record's own values,
      with the type upper-cased. */
  lemma ToDictOfFactories(c: CompMedRecord, h: HutchNerRecord)
    ensures ToDict(FromCompmed(c))
         == AnnDict("compmed", c.beginOffset, c.endOffset, c.score, NormalizeType(c.typ), c.text)
    ensures ToDict(FromHutchner(h))
         == AnnDict("hutchner", h.start, h.stop, h.confidence, NormalizeType(h.nerLabel), h.text)
  {
  }
}
