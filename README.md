# Annotation reconciliation of FlaskPHI_ID, in Dafny

FlaskPHI_ID finds protected health information in clinical text with two
recognisers (Amazon Comprehend Medical and HutchNER). It reconciles their
answers into one list of annotations. This project models that
reconciliation core and proves properties of it. The core comes in two
engines:

- `flaskphiid/annotation.py`: the current engine.
  - Leaf annotations are built by two factories.
  - A merged annotation absorbs overlapping sources one at a time and
    resolves its type and score from a two-level label taxonomy with a
    0.5 threshold.
  - It can be split again into runs of equal labels.
  - `unionize_annotations` sorts by start, walks the character indexes
    and hands each group of overlapping annotations to `from_annotations`.
- `flaskdeid/annotation.py`: the older engine. It has the same shape with a
  different taxonomy and different rules.

## Layout

| file | module | what it holds |
|---|---|---|
| `common.dfy` | `Common` | option/result types, the annotation record, `str.upper()` on ASCII, Python's `s[k:]`, min/max of offsets, the text splice |
| `grouping.dfy` | `Grouping` | the stable sort by start and the group partition of a sorted list (the sweep) |
| `phi_annotation.dfy` | `PhiAnnotation` | the flaskphiid taxonomy, threshold, type setter, factories, `parent_type`, `empty()`, `to_dict()` |
| `phi_resolution.dfy` | `PhiResolution` | the `source_*` properties, the merged `type`, `score` and `has_compatible_family_typelist` |
| `phi_merge.dfy` | `PhiMerge` | the `MergedAnnotation` class: `add_annotation`, the split, `to_dict`, and the factories that merge |
| `phi_union.dfy` | `PhiUnion` | `unionize_annotations` as a method with its two loops |
| `phi_examples.dfy` | `PhiExamples` | the merged-type and split scenarios of the repository's tests, worked out on the model |
| `phi_sample.dfy` | `PhiSample` | the unionize test on its thirteen sample records: the sort and the sweep replayed on tagged offsets, and the merge of each group |
| `deid.dfy` | `Deid` | the whole flaskdeid engine, reusing the shared record and grouping |

## How the model is built

- **Annotations.** A leaf annotation is a value (`Common.Ann`). Its `type`
  setter (upper-case, or None when falsy) is applied when the factories
  build it.
- **Merged annotations.**
  - `MergedAnnotation` is a class with the fields the source updates in
    place: `start`, `end`, `text`, `type_map` and `source_annotations`.
  - Each method is proved against a function of the fields (`View()`, a
    `PhiMerge.Window`). `AddTo` is one step of `add_annotation`. `FoldAdd`
    is the loop of the factories. `SplitSpec` is
    `split_annotations_by_subtypes`.
  - The method that performs the split has the source's loop over runs,
    with invariants tying it to `Runs`/`EmitRuns`.
- **Errors.** Every `raise` becomes a `Failure`:
  - an empty list, an empty annotation and spans that do not meet raise
    ValueError;
  - a split across families raises IncompatibleTypeException; the model
    keeps its `type_set`;
  - `max` or `>=` on a score that is None raises TypeError.
- **Unionize.** `unionize_annotations` is a method with the source's loops:
  the index loop, the close-group test and the inner `while pop(0)`. It is
  proved equal to `EmitGroups(Groups(SortByStart(xs)))`.
  - `Grouping.Groups` is the sweep. It is proved to partition the sorted
    list into groups that are chained inside and separated from each other.
  - This holds whenever every span has `0 <= start < end`. A negative start
    makes the source return `[]`, and that case is proved as well.

Behaviour of the source that the proofs establish:

- **flaskphiid merged type.**
  - One label: that label. The score is the largest score.
  - One family but several labels: the first top-scoring subtype, when it
    reaches the threshold. Otherwise the parent of the first source, with
    the largest score overall.
  - Otherwise `"UNKNOWN"`, with score 0.5 (`ResolutionTable`).
  - So the second compound-address scenario of the tests (subtype scores
    0.8) resolves to `HOSPITAL_NAME` with score 0.8. The test asserts the
    parent's type and score (`PhiExamples.CompoundAddress`).
  - In the split test without a split, all subtype scores are 0.01, so the
    type is `ADDRESS`. That test expects `HOSPITAL_NAME`
    (`PhiExamples.CompoundsAreAddresses`).
- **flaskphiid split.**
  - The split emits one merged annotation per run of equal consecutive
    labels, the parent source included. The perfect line-up case
    therefore gives four outputs, where the test expects three
    (`PhiExamples.SplitPerfectLineUp`).
  - A run whose pieces have gaps fails with the overlap error
    (`PhiExamples.SplitGapFails`).
  - Between them the outputs keep exactly the merged sources, in order
    (`PhiMerge.SplitKeepsSources`).
- **flaskphiid factories.** `from_annotations` returns a list: the split,
  or the single merged annotation when the type is `"UNKNOWN"`. It never
  raises IncompatibleTypeException
  (`PhiMerge.FromAnnotationsNeverIncompatible`).
- **flaskphiid grouping and merging.**
  - `unionize_annotations` groups by strict overlap: a span that starts
    where the group ends opens a new group.
  - Every group then merges without an overlap error
    (`PhiUnion.GroupsMergeDisjoint`).
  - Each output's text is the part of the document its offsets name
    (`PhiUnion.UnionizeCover`).
  - On the thirteen sample records of the unionize test the sweep finds
    seven groups. The sixth holds three sources from two origins, as the
    test expects (`PhiSample.SampleUnion`).
  - The groups do not map one-to-one onto outputs. The NAME pair and the
    address triple are split, one merged annotation per source. The AGE
    pair and each single record come back as leaves. The result has eleven
    annotations, where the test asserts seven, and its sixth entry is the
    PROFESSION leaf of the HutchNER list, which has no `source_annotations`.
- **flaskdeid `empty()`.**
  - It tests offsets by truthiness, so an annotation at offset 0 is empty
    (`Deid.EmptyVsPhi`).
  - The first sample record of the repository's deid tests starts at 0.
    Any unionize over a list of spans with `0 <= start < end` that holds it
    therefore fails with ValueError (`Deid.SampleAtZeroFails`). A list that
    also holds a negative start returns `[]` instead, because nothing is
    ever merged.
- **flaskdeid merged annotation.**
  - It has no score setter, so the score is always None.
  - The type ignores the threshold (`Deid.MergedTypeVsPhi`).
  - `add_annotation` has no overlap guard.
  - A merged annotation whose type is falsy (sources whose taxonomy maps
    them to `""`) takes the span of the next source as if it were empty
    (`Deid.EmptyMergedOverwrites`, `Deid.BlankParentReachable`). With the
    engine's own taxonomy this cannot happen, and the start never becomes
    0 (`Deid.ZeroStartUnreachable`).

## Model

| member | source | states |
|---|---|---|
| Common.Get | flaskphiid/annotation.py:94 | `dict.get(k, d)`: the mapped value when the key is present, else the default |
| Common.UpperChar | flaskphiid/annotation.py:90 | a lower-case ASCII letter is shifted by 32; every other character is kept; no lower-case letter remains |
| Common.Upper | flaskphiid/annotation.py:90 | same length, no lower-case letter left, each letter shifted and every other character kept |
| Common.UpperFixesUpper | flaskphiid/annotation.py:90 | a label with no lower-case letter is returned unchanged |
| Common.UpperIdempotent | flaskphiid/annotation.py:90 | upper-casing twice is upper-casing once |
| Common.PySliceFrom | flaskphiid/annotation.py:180-182 | Python's `s[k:]` for any integer `k`, negative included: a suffix of `s` whose length follows Python's clamping |
| Common.MinStart | flaskphiid/annotation.py:183 | the smallest start: at most every start and equal to one of them |
| Common.MaxEnd | flaskphiid/annotation.py:184 | the largest end: at least every end and equal to one of them |
| Common.SpliceText | flaskphiid/annotation.py:179-182 | the text splice of `add_annotation`; what it yields on a document is stated by `Common.SpliceReconstructs` |
| Common.SpliceReconstructs | flaskphiid/annotation.py:179-184 | when both texts are what the document holds at their offsets and the spans meet, the slice index is never negative and the spliced text is the document over the union span |
| Grouping.SortByStart | flaskphiid/annotation.py:221 | `sorted(..., key=start)` yields a permutation of its input |
| Grouping.Insert | flaskphiid/annotation.py:221 | inserting one annotation adds exactly it to the multiset |
| Grouping.InsertSorted | flaskphiid/annotation.py:221 | insertion keeps a list sorted by start |
| Grouping.SortIsSorted | flaskphiid/annotation.py:221 | the sorted list is ordered by start |
| Grouping.InsertKeepsTies | flaskphiid/annotation.py:221 | insertion keeps the order of the annotations with one start |
| Grouping.SortIsStable | flaskphiid/annotation.py:221 | the sort is stable: the annotations with any given start keep their input order |
| Grouping.SortedMinStart | flaskphiid/annotation.py:221 | the first element of a list sorted by start has the smallest start |
| Grouping.SortCons | flaskphiid/annotation.py:221 | sorting a list with a head is inserting the head into the sorted tail |
| Grouping.SortSorted | flaskphiid/annotation.py:221 | an already sorted list is left as it is |
| Grouping.SortIdempotent | flaskphiid/annotation.py:221 | sorting twice is sorting once |
| Grouping.Sweep | flaskphiid/annotation.py:224-233 | the scan yields no group iff nothing is open and nothing is left, and at most one group per span, plus one for an open group |
| Grouping.SweepJoin | flaskphiid/annotation.py:230-231 | a span that starts before the open group's max end, or with no group open, joins the open group |
| Grouping.SweepCut | flaskphiid/annotation.py:226-228 | a span starting at or after the open group's max end closes it and opens the next group |
| Grouping.Groups | flaskphiid/annotation.py:221-233 | the groups of a list: none iff the list is empty, and never more groups than spans |
| Grouping.SweepClose | flaskphiid/annotation.py:226-228 | a group whose max end does not pass the next start is closed as it is |
| Grouping.SweepHead | flaskphiid/annotation.py:230-231 | the first group begins with the open group's first member |
| Grouping.SweepFlatten | flaskphiid/annotation.py:224-233 | concatenating the groups gives back the open group followed by the rest |
| Grouping.SweepGroupsOk | flaskphiid/annotation.py:224-233 | every group is non-empty |
| Grouping.SweepChained | flaskphiid/annotation.py:224-231 | inside each group every member starts strictly before the max end of those before it |
| Grouping.SweepSorted | flaskphiid/annotation.py:221-231 | every group of a sorted list is sorted |
| Grouping.SweepSeparated | flaskphiid/annotation.py:226-228 | each group starts at or after the max end of the group before it |
| Grouping.GroupsPartition | flaskphiid/annotation.py:221-233 | the groups of a sorted list partition it in order into non-empty, sorted, chained groups that are separated from each other |
| PhiAnnotation.NormalizeType | flaskphiid/annotation.py:88-90 | the type setter: a label only for a truthy input, of the same length, non-empty and free of lower-case letters |
| PhiAnnotation.NormalizeTypeIdempotent | flaskphiid/annotation.py:88-90 | setting an already set type again changes nothing |
| PhiAnnotation.NewAnnotation | flaskphiid/annotation.py:75-82 | a fresh annotation has the given origin, an empty taxonomy, and is empty |
| PhiAnnotation.TaxonomyTwoLevel | flaskphiid/annotation.py:5-13 | every parent of `HUTCHNER_TYPE_MAP` is a non-blank label that is not itself refined |
| PhiAnnotation.ParentType | flaskphiid/annotation.py:92-94 | `parent_type`; its values for factory annotations are stated by `FromHutchnerParent` and `FromCompmedParent` |
| PhiAnnotation.Empty | flaskphiid/annotation.py:96-97 | `empty()`; its cases for factory annotations are stated by `FromHutchnerEmpty` and `FromCompmedEmpty` |
| PhiAnnotation.ToDict | flaskphiid/annotation.py:99-107 | `to_dict()` of a leaf; stated for factory annotations by `ToDictOfFactories` |
| PhiAnnotation.FromCompmed | flaskphiid/annotation.py:30-37 | origin "compmed", the record's offsets, score and text, its type through the setter, no taxonomy |
| PhiAnnotation.FromHutchner | flaskphiid/annotation.py:40-48 | origin "hutchner", start/stop/confidence/text of the record, the label through the setter, the HutchNER taxonomy |
| PhiAnnotation.FromHutchnerEmpty | flaskphiid/annotation.py:96-97 | a HutchNER annotation is non-empty iff both offsets are present (0 counts as present) and text and label are non-blank |
| PhiAnnotation.FromCompmedEmpty | flaskphiid/annotation.py:96-97 | the same for a Comprehend Medical annotation |
| PhiAnnotation.FromHutchnerParent | flaskphiid/annotation.py:92-94 | the parent of a HutchNER label is its taxonomy entry, or the label itself when it has none |
| PhiAnnotation.FromCompmedParent | flaskphiid/annotation.py:92-94 | a Comprehend Medical annotation is its own parent |
| PhiAnnotation.FactoryParentsNamed | flaskphiid/annotation.py:5-13 | every taxonomy entry names a parent, so a non-empty factory annotation has a truthy parent |
| PhiAnnotation.ToDictOfFactories | flaskphiid/annotation.py:99-107 | `to_dict()` of a factory annotation carries its origin and the record's fields |
| PhiResolution.SourceTypes | flaskphiid/annotation.py:116-118 | the set of the sources' types: each type is in it and each member is some source's type |
| PhiResolution.SourceParentTypes | flaskphiid/annotation.py:120-122 | the same for the parent types |
| PhiResolution.SourceScores | flaskphiid/annotation.py:124-126 | the scores, in source order, one per source |
| PhiResolution.SourceOrigins | flaskphiid/annotation.py:128-130 | the set of the sources' origins |
| PhiResolution.SingleTypeIff | flaskphiid/annotation.py:134 | `len(source_types) == 1` iff the list is non-empty and all types equal the first |
| PhiResolution.SingleParentIff | flaskphiid/annotation.py:136 | `len(source_parent_types) == 1` iff all parents equal the first |
| PhiResolution.Subtypes | flaskphiid/annotation.py:137 | exactly the sources whose type differs from their parent |
| PhiResolution.SubtypesNonEmpty | flaskphiid/annotation.py:136-138 | one family with several labels always has a subtype, so the `max` there never sees an empty list |
| PhiResolution.SubtypesScored | flaskphiid/annotation.py:137 | the subtypes of scored sources are scored |
| PhiResolution.MaxScore | flaskphiid/annotation.py:155 | the largest score: at least every score and equal to one of them |
| PhiResolution.Top | flaskphiid/annotation.py:138 | `max(key=score)`: a source with the largest score, the first such |
| PhiResolution.PyMaxScore | flaskphiid/annotation.py:155 | Python's `max` of the scores: a lone None is returned, a None beside others raises, otherwise the largest |
| PhiResolution.PyTop | flaskphiid/annotation.py:138 | the same failure rule for `max(key=score)`; on scored lists the first top-scoring source |
| PhiResolution.HasCompatibleFamilyTypelist | flaskphiid/annotation.py:148-150 | fails iff the type fails; true iff the type is not "UNKNOWN" |
| PhiResolution.ResolvedType | flaskphiid/annotation.py:132-142 | the merged `type` can only raise TypeError; its cases are stated by `ResolutionTable`, `ResolvedTypeFails` and `ResolvedTypeIsKnownLabel` |
| PhiResolution.ResolvedScore | flaskphiid/annotation.py:152-162 | the merged `score` can only raise TypeError; its cases are stated by `ResolutionTable`, `ResolvedScoreFails` and `ResolvedScoreIsSourceScore` |
| PhiResolution.ResolvedTypeFails | flaskphiid/annotation.py:132-142 | the type raises iff there is one family of several labels and some subtype has no score |
| PhiResolution.ResolvedScoreFails | flaskphiid/annotation.py:152-162 | with scored sources the score never raises and is never None |
| PhiResolution.ResolutionTable | flaskphiid/annotation.py:132-162 | the three cases of type and score: one label, one family (above or below the threshold), several families |
| PhiResolution.ResolvedTypeIsKnownLabel | flaskphiid/annotation.py:132-142 | the type is "UNKNOWN", the first source's parent or some source's type, and "UNKNOWN" across families |
| PhiResolution.ResolvedScoreIsSourceScore | flaskphiid/annotation.py:152-162 | the score is the threshold or some source's score |
| PhiResolution.SubtypeChosenAtThreshold | flaskphiid/annotation.py:137-140 | among one family's subtypes the score reaches the threshold iff the type is a source's label carrying that score |
| PhiResolution.CompatibleIsOneFamily | flaskphiid/annotation.py:148-150 | a compatible typelist means one label or one family |
| PhiResolution.OneFamilyIsCompatible | flaskphiid/annotation.py:148-150 | one family whose labels are not "UNKNOWN" is compatible |
| PhiResolution.SingleSource | flaskphiid/annotation.py:132-135 | one source gives its own type and score |
| PhiResolution.GoodTypeTruthy | flaskphiid/annotation.py:132-142 | non-empty scored sources with named parents give a truthy type |
| PhiExamples.ParentThenSubtype | flaskphiid/annotation.py:132-162 | a parent then a subtype: the subtype's label and score at the threshold, otherwise the parent's label with the larger score |
| PhiExamples.SubtypeThenParent | flaskphiid/annotation.py:132-162 | the same with the subtype first |
| PhiExamples.NameFamily | test/flaskphiid/test_annotation.py:234-258 | NAME with a 0.01 subtype gives NAME/0.99; with a 0.8 subtype, in either order, PATIENT_OR_FAMILY_NAME/0.8 |
| PhiExamples.ParentThenThreeSubtypes | flaskphiid/annotation.py:132-162 | a parent and three subtypes scored alike: the first subtype's label at the threshold, else the parent's |
| PhiExamples.CompoundAddress | test/flaskphiid/test_annotation.py:288-313 | the compound address gives ADDRESS/0.99 at subtype scores 0.01 and HOSPITAL_NAME/0.8 at 0.8 |
| PhiExamples.TwoSubtypes | test/flaskphiid/test_annotation.py:269-277 | PATIENT_OR_FAMILY_NAME 0.6 with PROVIDER_NAME 0.01 gives PATIENT_OR_FAMILY_NAME/0.6 |
| PhiExamples.SameLabel | test/flaskphiid/test_annotation.py:226-232 | AGE 0.98 with AGE 0.02 gives AGE/0.98 |
| PhiExamples.MismatchedFamilies | test/flaskphiid/test_annotation.py:315-320 | NAME with URL_OR_IP gives UNKNOWN with score 0.5 |
| PhiExamples.LineUpSplit | flaskphiid/annotation.py:192-204 | a parent and three subtypes of distinct consecutive labels split into four single-source merged annotations |
| PhiExamples.GapSplit | flaskphiid/annotation.py:196-202 | a parent and one label run with a gap in it: the split raises the overlap error |
| PhiExamples.CompoundsAreAddresses | test/flaskphiid/test_annotation_splitting.py:183-229 | both address compounds of the split tests resolve to ADDRESS |
| PhiExamples.SplitPerfectLineUp | test/flaskphiid/test_annotation_splitting.py:250-309 | the perfectly lined-up compound splits into four outputs, the ADDRESS source first |
| PhiExamples.SplitGapFails | test/flaskphiid/test_annotation_splitting.py:183-233 | the gapped HOSPITAL_NAME compound's split raises the overlap error |
| PhiMerge.MergedEmpty | flaskphiid/annotation.py:96-97 | a fresh merged annotation is empty; one with offsets and text is not, unless its type raises |
| PhiMerge.AddTo | flaskphiid/annotation.py:168-186 | one add: an empty annotation is refused; on success the sources grow by exactly that annotation; every failure is an add error |
| PhiMerge.FoldAdd | flaskphiid/annotation.py:54-56 | the loop of adds in the factories only raises add errors; its sources are stated by `FoldSources` |
| PhiMerge.FoldSources | flaskphiid/annotation.py:55-56 | folding the adds appends all sources, or fails exactly at the first failing add |
| PhiMerge.FirstMap | flaskphiid/annotation.py:185 | `self.type_map or ann.type_map`: the first non-empty taxonomy among the sources |
| PhiMerge.HullExtend | flaskphiid/annotation.py:183-185 | after an add, start, end and taxonomy are the min, the max and the first non-empty taxonomy |
| PhiMerge.InvNotEmpty | flaskphiid/annotation.py:171 | a merged annotation holding good sources is not empty |
| PhiMerge.AddRejects | flaskphiid/annotation.py:176-177 | a good annotation is refused iff its span misses the window, with the overlap error |
| PhiMerge.AddToFresh | flaskphiid/annotation.py:171-175 | the first add copies span, text and taxonomy |
| PhiMerge.AddPreservesInv | flaskphiid/annotation.py:168-186 | a successful add keeps the window the min/max hull of its sources with their first taxonomy |
| PhiMerge.AddReconstructs | flaskphiid/annotation.py:179-182 | when every text is what the document holds at its offsets, the merged text stays so |
| PhiMerge.AddStep | flaskphiid/annotation.py:168-186 | one add keeps both the hull invariant and the document correspondence |
| PhiMerge.FoldKeepsInv | flaskphiid/annotation.py:54-56 | a successful fold keeps the invariant and the document correspondence |
| PhiMerge.FoldChainRest | flaskphiid/annotation.py:176-186 | sources that each meet the growing window are all absorbed |
| PhiMerge.ChainStep | flaskphiid/annotation.py:176-186 | a good source meeting the window is absorbed |
| PhiMerge.FoldChainSucceeds | flaskphiid/annotation.py:51-56 | a sorted chained group of good sources merges into the window from its first start to its max end |
| PhiMerge.Leaves | flaskphiid/annotation.py:189-190 | one output per source, each the source itself |
| PhiMerge.OutSourcesLeaves | flaskphiid/annotation.py:189-190 | the unsplit case returns exactly the sources |
| PhiMerge.RunsFrom | flaskphiid/annotation.py:196-202 | the loop that cuts runs yields at least one run and never more runs than annotations, plus one for an open run |
| PhiMerge.RunsFromFlatten | flaskphiid/annotation.py:196-202 | the runs concatenate back to the sources |
| PhiMerge.RunsFromShape | flaskphiid/annotation.py:196-202 | every run is non-empty and of one label, and neighbouring runs differ in label |
| PhiMerge.RunsPartition | flaskphiid/annotation.py:196-202 | the runs are the maximal equal-label blocks of the sources, in order |
| PhiMerge.FromUnsplittableSpec | flaskphiid/annotation.py:63-70 | an empty list raises; success is a single merged annotation of exactly the given sources |
| PhiMerge.EmitRuns | flaskphiid/annotation.py:196-204 | a successful split by runs gives exactly one merged annotation per run |
| PhiMerge.EmitRunsSources | flaskphiid/annotation.py:196-204 | the outputs of the runs carry exactly the runs' sources |
| PhiMerge.SplitSpec | flaskphiid/annotation.py:188-206 | a successful split gives at least one and at most one output per source |
| PhiMerge.SplitKeepsSources | flaskphiid/annotation.py:188-206 | a split returns exactly the merged sources, in order |
| PhiMerge.FromAnnotationsSpec | flaskphiid/annotation.py:51-60 | a successful `from_annotations` gives at least one and at most one output per input |
| PhiMerge.FromAnnotationsNeverIncompatible | flaskphiid/annotation.py:51-60 | `from_annotations` only raises the empty-list or add errors, never the incompatible-type error |
| PhiMerge.EmitRunsErrors | flaskphiid/annotation.py:196-204 | splitting by runs only raises add errors |
| PhiMerge.FromAnnotationsKeepsSources | flaskphiid/annotation.py:51-60 | `from_annotations` returns exactly its input sources, in order |
| PhiMerge.AddGoodError | flaskphiid/annotation.py:168-177 | a good annotation can only be refused for not overlapping |
| PhiMerge.FoldGoodErrors | flaskphiid/annotation.py:54-56 | merging good sources can only fail for not overlapping |
| PhiMerge.RunsOf | flaskphiid/annotation.py:196-202 | runs are non-empty and inherit goodness and document correspondence |
| PhiMerge.EmitRunsGoodErrors | flaskphiid/annotation.py:196-204 | the runs of good sources can only fail for not overlapping |
| PhiMerge.FromAnnotationsGoodErrors | flaskphiid/annotation.py:51-60 | `from_annotations` of good sources can only fail for not overlapping |
| PhiMerge.EmitRunsCover | flaskphiid/annotation.py:196-204 | each output of the runs keeps the invariant and the document correspondence |
| PhiMerge.FromAnnotationsCases | flaskphiid/annotation.py:51-60 | a success merged all sources, then split when compatible, otherwise returned the one merged annotation |
| PhiMerge.SplitCover | flaskphiid/annotation.py:188-206 | every output of a split keeps the invariant and the document correspondence |
| PhiMerge.FromAnnotationsCover | flaskphiid/annotation.py:51-60 | every output of `from_annotations` over good sources matches the document |
| PhiMerge.ToDicts | flaskphiid/annotation.py:214 | the detailed dictionaries are the sources' `to_dict()`, in order |
| PhiMerge.MergedToDict | flaskphiid/annotation.py:208-215 | succeeds iff type and score do; origin "merged", the span and text, the resolved type and score; the per-source scores in order; the type and origin lists hold exactly the sources' values; details only when asked, and then each source's `to_dict()` in order |
| PhiMerge.MergedToDictOfScored | flaskphiid/annotation.py:208-215 | with scored sources `to_dict()` never raises |
| PhiMerge.MergedAnnotation.constructor | flaskphiid/annotation.py:112-114 | a new merged annotation has no span, text, taxonomy or sources |
| PhiMerge.MergedAnnotation.Type | flaskphiid/annotation.py:132-142 | the `type` property reads the resolution of the current sources |
| PhiMerge.MergedAnnotation.IsEmpty | flaskphiid/annotation.py:96-97 | `empty()` of the current fields |
| PhiMerge.MergedAnnotation.AddAnnotation | flaskphiid/annotation.py:168-186 | on success the fields become the add step's result; on failure the error is raised and nothing changes |
| PhiMerge.MergedAnnotation.AddAll | flaskphiid/annotation.py:55-56 | the loop of adds ends in the folded fields, or raises the first failure |
| PhiMerge.MergedAnnotation.SplitAnnotationsBySubtypes | flaskphiid/annotation.py:188-206 | the loop over runs returns the split of the current fields |
| PhiMerge.FromUnsplittable | flaskphiid/annotation.py:63-70 | the method returns the unsplittable merge |
| PhiMerge.FromAnnotations | flaskphiid/annotation.py:51-60 | the method returns `from_annotations` of its input |
| PhiUnion.EmitGroups | flaskphiid/annotation.py:227 | no group gives no output |
| PhiUnion.UnionizeSpec | flaskphiid/annotation.py:219-220 | an empty input gives an empty output |
| PhiUnion.EmitGroupsAppend | flaskphiid/annotation.py:227 | merging two lists of groups is the first's outputs then the second's, or the first failure |
| PhiUnion.EmitGroupsOne | flaskphiid/annotation.py:227 | one group gives `from_annotations` of it |
| PhiUnion.EmitClose | flaskphiid/annotation.py:226-228 | closing a group extends the outputs with its merge, or fails with its error |
| PhiUnion.UnionizeAnnotations | flaskphiid/annotation.py:218-234 | on spans with `0 <= start < end` the loops give `from_annotations` of each group of the sorted list; a negative start gives `[]` |
| PhiUnion.Walk | flaskphiid/annotation.py:224-233 | the index loop with the close test and the pop loop computes the groups' outputs |
| PhiUnion.TakeStartingAt | flaskphiid/annotation.py:230-231 | the pop loop moves every annotation starting at the index into the open group and leaves the sweep's result unchanged |
| PhiUnion.TakeOne | flaskphiid/annotation.py:231 | one pop keeps the sweep's result |
| PhiUnion.CloseGroup | flaskphiid/annotation.py:226-228 | a group that has ended by the index is closed as the sweep closes it |
| PhiUnion.PendingNext | flaskphiid/annotation.py:224 | moving to the next index keeps the walk's precondition |
| PhiUnion.EndsBy | flaskphiid/annotation.py:226 | `all(ann.end <= idx)` iff the max end is at most `idx` |
| PhiUnion.SortedBounds | flaskphiid/annotation.py:221-224 | the sorted list is non-empty and within the walk's range, or starts negative when some input does |
| PhiUnion.SortedNegativeHead | flaskphiid/annotation.py:221 | a negative start sorts to the head |
| PhiUnion.EmitGroupsSources | flaskphiid/annotation.py:224-233 | the outputs carry exactly the groups' sources |
| PhiUnion.UnionizeKeepsSources | flaskphiid/annotation.py:218-234 | the result carries exactly the input sources, in start order |
| PhiUnion.GroupMembers | flaskphiid/annotation.py:224-231 | every group member comes from the sorted list |
| PhiUnion.GroupsOf | flaskphiid/annotation.py:224-231 | the groups inherit goodness and document correspondence |
| PhiUnion.EmitGroupsGoodErrors | flaskphiid/annotation.py:227 | groups of good sources can only fail for not overlapping |
| PhiUnion.UnionizeGoodErrors | flaskphiid/annotation.py:218-234 | unionizing good annotations can only fail for not overlapping |
| PhiUnion.EmitGroupsCover | flaskphiid/annotation.py:227 | every output of the groups matches the document |
| PhiUnion.UnionizeCover | flaskphiid/annotation.py:218-234 | every output's text is the document between its offsets |
| PhiSample.Pick | flaskphiid/annotation.py:221-231 | the annotations named by a list of tagged offsets, which is empty iff the list is |
| PhiSample.PickInsert | flaskphiid/annotation.py:221 | inserting a tagged offset and picking is picking and inserting the annotation |
| PhiSample.PickSort | flaskphiid/annotation.py:221 | sorting the tagged offsets and picking is sorting the picked annotations |
| PhiSample.PickTagged | flaskphiid/annotation.py:221 | tagging each record's offsets with its position and picking gives back the records |
| PhiSample.MaxEndCons | flaskphiid/annotation.py:226 | the max end of a list with a head is the larger of the head's end and the tail's max end |
| PhiSample.PickMaxEnd | flaskphiid/annotation.py:226 | the max end of the tagged offsets is that of the picked annotations |
| PhiSample.PickSnoc | flaskphiid/annotation.py:231 | appending a tagged offset and picking is appending its annotation |
| PhiSample.PickSweep | flaskphiid/annotation.py:224-233 | the sweep over tagged offsets, picked, is the sweep over the annotations |
| PhiSample.SampleSortSpans | test/flaskphiid/test_annotation.py:16-129 | the sample's offsets sorted by start, the equal starts in input order |
| PhiSample.SampleSweepSpans | test/flaskphiid/test_annotation.py:16-129 | the sweep of the sorted sample offsets gives its seven groups |
| PhiSample.SampleGroups | test/flaskphiid/test_annotation.py:16-129 | any thirteen annotations with the sample's offsets fall into seven groups, each named member by member |
| PhiSample.ChainOutputs | flaskphiid/annotation.py:51-60 | a chained group of good sources merges; "UNKNOWN" gives the one merged annotation, one label gives leaves, one family gives the runs |
| PhiSample.OneOutput | flaskphiid/annotation.py:51-60 | one good annotation comes back as a leaf |
| PhiSample.SameLabelOutputs | flaskphiid/annotation.py:51-60 | two overlapping annotations of one label come back as two leaves |
| PhiSample.UnknownPairOutputs | flaskphiid/annotation.py:51-60 | two overlapping annotations of different families give one merged annotation of both |
| PhiSample.PairRuns | flaskphiid/annotation.py:196-202 | two different labels make two runs |
| PhiSample.TripleRuns | flaskphiid/annotation.py:196-202 | three labels, each differing from its neighbour, make three runs |
| PhiSample.FamilyPairOutputs | flaskphiid/annotation.py:51-60 | two overlapping labels of one family, without "UNKNOWN", split into one merged annotation per source |
| PhiSample.FamilyTripleOutputs | flaskphiid/annotation.py:51-60 | the same for three labels |
| PhiSample.AddressTriple | test/flaskphiid/test_annotation.py:57-66 | the address group of the sample (this record with the HutchNER records at :108-121) resolves to ADDRESS |
| PhiSample.SampleNamePair | test/flaskphiid/test_annotation.py:17-26 | the NAME pair of the sample (this record with the HutchNER record at :80-86) splits into two outputs |
| PhiSample.SampleAgePair | test/flaskphiid/test_annotation.py:27-36 | the AGE pair of the sample (with the record at :87-93) comes back as two leaves |
| PhiSample.SampleProfessions | test/flaskphiid/test_annotation.py:37-46 | each PROFESSION record of the sample (this one and the one at :94-100) comes back as a leaf |
| PhiSample.SamplePhonePair | test/flaskphiid/test_annotation.py:47-56 | the phone pair of the sample (with the record at :101-107) gives one merged annotation |
| PhiSample.SampleAddressTriple | test/flaskphiid/test_annotation.py:57-66 | the address triple of the sample (with the records at :108-121) splits into three outputs |
| PhiSample.SampleTestPair | test/flaskphiid/test_annotation.py:67-76 | the "Test" pair of the sample (with the record at :122-128) gives one merged annotation |
| PhiSample.EmitSeven | flaskphiid/annotation.py:227-233 | seven groups that all merge give their outputs one after another |
| PhiSample.SampleUnion | test/flaskphiid/test_annotation.py:333-343 | on the sample the groups are seven and the sixth holds three sources of two origins; the result has eleven annotations and its sixth is a leaf |
| PhiUnion.GroupsWellFormed | flaskphiid/annotation.py:224-231 | groups of well-formed spans are well formed |
| PhiUnion.GroupsMergeDisjoint | flaskphiid/annotation.py:218-234 | every group merges into its hull without an overlap error, and the groups are separated |
| Deid.FromMedlp | flaskdeid/annotation.py:21-28 | origin "medlp", the record's offsets, score and text, its type through the setter, no taxonomy |
| Deid.FromHutchner | flaskdeid/annotation.py:31-39 | origin "hutchner", the record's fields, the flaskdeid taxonomy |
| Deid.TaxonomyTwoLevel | flaskdeid/annotation.py:4-12 | every parent of the flaskdeid `HUTCHNER_TYPE_MAP` is a non-blank label that is not itself refined |
| Deid.Empty | flaskdeid/annotation.py:74-75 | `empty()` by truthiness; compared with flaskphiid by `Deid.EmptyVsPhi` |
| Deid.EmptyVsPhi | flaskdeid/annotation.py:74-75 | empty iff empty by the flaskphiid rule or an offset is 0 |
| Deid.FromMedlpAtZero | flaskdeid/annotation.py:74-75 | a record at offset 0 gives an empty annotation, which flaskphiid would not call empty |
| Deid.FromHutchnerParent | flaskdeid/annotation.py:70-72 | the HutchNER parent through the flaskdeid taxonomy, which names every parent |
| Deid.MergedType | flaskdeid/annotation.py:106-112 | "UNKNOWN", the first source's type or its parent; the common type when all agree |
| Deid.MergedTypeVsPhi | flaskdeid/annotation.py:106-112 | agrees with flaskphiid except for one family of several labels, where flaskdeid always takes the parent |
| Deid.GoodTypeTruthy | flaskdeid/annotation.py:106-112 | good sources give a truthy type |
| Deid.AddTo | flaskdeid/annotation.py:114-128 | refused iff the annotation is empty; on success the sources grow by it and the taxonomy is kept |
| Deid.MergedEmpty | flaskdeid/annotation.py:117 | `empty()` of a merged annotation; its reachable cases are stated by `Deid.InvNotEmpty` and `Deid.BlankParentReachable` |
| Deid.FoldAdd | flaskdeid/annotation.py:46-47 | the loop of adds only raises the empty-annotation error and keeps the taxonomy |
| Deid.FoldFails | flaskdeid/annotation.py:46-47 | the adds fail iff some source is empty |
| Deid.FoldSources | flaskdeid/annotation.py:46-47 | a successful fold appends all sources |
| Deid.InvNotEmpty | flaskdeid/annotation.py:117 | a merged annotation of good sources is never empty and never at 0 |
| Deid.AddPreservesInv | flaskdeid/annotation.py:114-128 | adding a good annotation succeeds and keeps the hull invariant |
| Deid.FoldKeepsInv | flaskdeid/annotation.py:46-47 | merging good sources succeeds, keeps the invariant and holds them all |
| Deid.AddReconstructs | flaskdeid/annotation.py:122-127 | when spans meet and texts match the document, the merged text still matches |
| Deid.FoldChainCovers | flaskdeid/annotation.py:46-47 | a chain of meeting sources merges into a window matching the document |
| Deid.GroupMerge | flaskdeid/annotation.py:42-48 | a sorted chained group merges into its hull |
| Deid.GroupCovers | flaskdeid/annotation.py:42-48 | such a group's merged text matches the document |
| Deid.EmptyMergedOverwrites | flaskdeid/annotation.py:117-120 | a merged annotation at offset 0 or with a falsy type takes the new span and text, keeping its sources |
| Deid.ZeroStartUnreachable | flaskdeid/annotation.py:117-120 | merging good sources never yields start 0 |
| Deid.BlankParentReachable | flaskdeid/annotation.py:117-120 | sources whose taxonomy maps to "" make the merged type falsy |
| Deid.MergedToDict | flaskdeid/annotation.py:130-137 | origin "merged", score None, the merged type, the span and text, per-source scores in order, the type and origin lists hold exactly the sources' values, details only when asked, and then each source's `to_dict()` in order |
| Deid.MergedAnnotation.constructor | flaskdeid/annotation.py:90-92 | a new merged annotation has no span, text or sources |
| Deid.MergedAnnotation.IsEmpty | flaskdeid/annotation.py:74-75 | `empty()` of the current fields |
| Deid.MergedAnnotation.AddAnnotation | flaskdeid/annotation.py:114-128 | on success the fields become the add step's result; an empty annotation raises and changes nothing |
| Deid.FromAnnotationsSpec | flaskdeid/annotation.py:42-48 | fails with the empty-list error iff the list is empty, otherwise only with the empty-annotation error |
| Deid.FromAnnotations | flaskdeid/annotation.py:42-48 | the method returns the one merged annotation |
| Deid.FromAnnotationsFails | flaskdeid/annotation.py:42-48 | fails iff the list is empty or holds an empty annotation; a success holds all sources |
| Deid.EmitGroups | flaskdeid/annotation.py:147 | one merged annotation per group |
| Deid.UnionizeSpec | flaskdeid/annotation.py:144 | `max()` of an empty list raises iff the input is empty |
| Deid.UnionizeErrors | flaskdeid/annotation.py:140-154 | a non-empty input can only fail for an empty annotation |
| Deid.EmitGroupsAppend | flaskdeid/annotation.py:147-153 | merging two lists of groups is the first's outputs then the second's, or the first failure |
| Deid.EmitClose | flaskdeid/annotation.py:146-148 | closing a group appends its merge, or fails with its error |
| Deid.UnionizeAnnotations | flaskdeid/annotation.py:140-154 | an empty input raises; well-formed spans give the merge of each group of the sorted list; a negative start gives `[]` |
| Deid.Walk | flaskdeid/annotation.py:144-153 | the index loop computes the groups' merges |
| Deid.EmitGroupsFails | flaskdeid/annotation.py:147-153 | the groups fail iff some member is empty |
| Deid.UnionizeFails | flaskdeid/annotation.py:140-154 | unionize fails iff the input is empty or holds an empty annotation |
| Deid.SampleAtZeroFails | test/flaskdeid/test_annotation.py:249-259 | any input holding the first sample record (offset 0) fails with the empty-annotation error |
| Deid.EmitGroupsSources | flaskdeid/annotation.py:147-153 | the outputs carry exactly the groups' sources |
| Deid.UnionizeKeepsSources | flaskdeid/annotation.py:140-154 | the result carries exactly the input sources, in start order |
| Deid.EmitGroupsMerge | flaskdeid/annotation.py:147 | mergeable groups each merge into their hull |
| Deid.GroupsInherit | flaskdeid/annotation.py:141-151 | the groups are separated and inherit goodness and document correspondence |
| Deid.GroupsMembers | flaskdeid/annotation.py:141-151 | the groups are chained, sorted, separated, and their members come from the input |
| Deid.UnionizeMerges | flaskdeid/annotation.py:140-154 | good well-formed input succeeds with one merged hull per separated group |

## Left out

- I/O, Flask routes and the recogniser clients (`identifyphi.py`, `compmed_.py`, `hutchner.py`, `medlp.py`, `deid.py`, `run.py`, `__init__.py`, `decorators.py`, `setup.py`) are not part of this model. They only produce the records the factories read.
- `flaskdeid/merge.py` is not part of this model: it builds on a `defaultdict` and is outside the reconciliation core.
- `str.upper()` is modelled on ASCII letters only; Unicode case mapping is out of scope.
- Scores are `real`; floating-point rounding is not modelled.
- The order of the sets in `to_dict()` (`list(set(...))`) is not fixed by Python. The model states membership only.
- Exception messages are not modelled: each exception becomes an error value, and IncompatibleTypeException keeps its `type_set`.
- Object identity and aliasing: outputs are value snapshots of merged annotations. The flaskphiid taxonomy dictionary shared between annotations is a value.
- Offsets that are None make Python's comparisons raise TypeError. The models of sorting and unionize require present offsets (`AllHaveOffsets`) instead of modelling that error.
- The `type` setter is applied when an annotation is built. Later assignments (`ann.type = ...`, `ann.score = ...` in the tests) are modelled by building the annotation with the new field.
- A Comprehend Medical or MedLP record is one `CompMedRecord` shape; the HutchNER label is the record's `label` field.
- Deid.MergedAnnotation.Type: the flaskdeid `type` property is a plain function of the fields with no contract of its own; its properties are stated on `Deid.MergedType`.
- PhiUnion.UnionizeAnnotations: equality with the specification is proved for spans with `0 <= start < end` and for inputs with a negative start. Other shapes (a zero-length span, a start past the last end) are not covered by the contract.
- Deid.UnionizeAnnotations: the same restriction as in flaskphiid, plus the empty-input error.
- PhiResolution.ResolutionTable: stated for scored sources. Unscored sources are covered by `ResolvedTypeFails`, `PyMaxScore` and `PyTop`.
- The scenario lemmas of `PhiExamples` build their annotations with the labels already upper-case, as the setter leaves them.
