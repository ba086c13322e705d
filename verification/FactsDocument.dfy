/** The journal's documents for normalized facts: the encoders of
    tools/controller_policy.py and the decoder of tools/controller_store.py. */
module FactsDocument {
  import opened Text
  import opened Facts
  import opened StorableFacts

  // ------------------------------------------------------------ documents

  /** A parsed JSON value. */
  datatype Json =
    | Null
    | Bool(flag: bool)
    | Int(number: int)
    | Str(text: string)
    | List(entries: seq<Json>)
    | Object(fields: map<Field, Json>)

  type Doc = map<Field, Json>

  /** The field names the documents use, and any other. */
  datatype Field =
    | FKey | FState | FIssue | FBlockedBy | FPriority | FResources | FSeat | FProfile | FReadyAt
    | FWorkItemKey | FDispatchId | FFailureClass | FWorktree
    | FCandidateSha | FReviewedSha | FReviewStatus | FReviewDispatchId | FAdjudicationSha | FAdjudicationStatus
    | FGateSha | FGateStatus | FLandedSha | FCloseEvidenceSha | FRecoveryKind | FResultPublished | FDeliveryConflict
    | FRevision | FContentDigest | FContent | FParentIssue
    | FPath | FKind | FDetail | FRecordedAt
    | FCurator | FOutcomes | FInitiatives | FWorkItems | FWorkRuns
    | FDebt | FWipLimit | FBars | FPriorityOrder | FTransitions
    | Other(name: string)

  /** Why a document is refused: the collection and field each reason code spells out. */
  datatype Refusal =
    | NotFacts
    | FactsFields
    | NotList(collection: Field)
    | NotObject(collection: Field)
    | EntryFields(collection: Field)
    | BadValue(collection: Field, field: Field)
    | Invalid(field: Field)

  datatype Decoding = Decoded(facts: ControlFacts) | Refused(reason: Refusal)

  const OUTCOME_FIELDS: set<Field> := {FKey, FRevision, FContentDigest}
  const OUTCOME_OPTIONAL: set<Field> := {FContent, FParentIssue}
  const LIFECYCLE_FIELDS: set<Field> := {FKey, FState}
  const ITEM_OPTIONAL: set<Field> := {FIssue, FBlockedBy, FPriority, FResources, FSeat, FProfile, FReadyAt}
  const RUN_OPTIONAL: set<Field> :=
    {FWorkItemKey, FDispatchId, FFailureClass, FWorktree, FIssue, FCandidateSha, FReviewedSha, FReviewStatus,
     FReviewDispatchId, FAdjudicationSha, FAdjudicationStatus, FGateSha, FGateStatus, FLandedSha, FCloseEvidenceSha,
     FRecoveryKind, FResultPublished, FDeliveryConflict}
  const FACTS_FIELDS: set<Field> := {FCurator, FOutcomes, FInitiatives, FWorkItems, FWorkRuns}
  const FACTS_OPTIONAL: set<Field> := {FDebt, FWipLimit, FBars, FPriorityOrder, FTransitions}

  const DEFAULT_SEAT := "implementer"

  // ------------------------------------------------------------ encoding

  function OptionalText(s: Option<string>): Option<Json> {
    if s.Some? then Some(Str(s.value)) else None
  }

  function OptionalInt(n: Option<int>): Option<Json> {
    if n.Some? then Some(Int(n.value)) else None
  }

  function OptionalTexts(texts: seq<string>): Option<Json> {
    if texts == [] then None else Some(Texts(texts))
  }

  function Texts(texts: seq<string>): Json {
    List(seq(|texts|, i requires 0 <= i < |texts| => Str(texts[i])))
  }

  function Flag(b: bool): Option<Json> {
    if b then Some(Bool(true)) else None
  }

  /** One field of `_work_item_document`. */
  function ItemField(item: WorkItem, f: Field): Option<Json> {
    match f
    case FKey => Some(Str(item.key))
    case FState => Some(Str(item.state))
    case FIssue => OptionalInt(item.issue)
    case FBlockedBy => OptionalTexts(item.blockedBy)
    case FPriority => OptionalInt(item.priority)
    case FResources => OptionalTexts(item.exclusiveResources)
    case FSeat => if item.seat == DEFAULT_SEAT then None else Some(Str(item.seat))
    case FProfile => OptionalText(item.profile)
    case FReadyAt => OptionalText(item.readyAt)
    case _ => None
  }

  function ItemDocument(item: WorkItem): Doc {
    map f | f in LIFECYCLE_FIELDS + ITEM_OPTIONAL && ItemField(item, f).Some? :: ItemField(item, f).value
  }

  /** One field of `_work_run_document`. */
  function RunField(run: WorkRun, f: Field): Option<Json> {
    match f
    case FKey => Some(Str(run.key))
    case FState => Some(Str(run.state))
    case FWorkItemKey => OptionalText(run.workItemKey)
    case FDispatchId => OptionalText(run.dispatchId)
    case FFailureClass => OptionalText(run.failureClass)
    case FWorktree => OptionalText(run.worktree)
    case FIssue => OptionalInt(run.issue)
    case FCandidateSha => OptionalText(run.candidateSha)
    case FReviewedSha => OptionalText(run.reviewedSha)
    case FReviewStatus => OptionalText(run.reviewStatus)
    case FReviewDispatchId => OptionalText(run.reviewDispatchId)
    case FAdjudicationSha => OptionalText(run.adjudicationSha)
    case FAdjudicationStatus => OptionalText(run.adjudicationStatus)
    case FGateSha => OptionalText(run.gateSha)
    case FGateStatus => OptionalText(run.gateStatus)
    case FLandedSha => OptionalText(run.landedSha)
    case FCloseEvidenceSha => OptionalText(run.closeEvidenceSha)
    case FRecoveryKind => OptionalText(run.recoveryKind)
    case FResultPublished => Flag(run.resultPublished)
    case FDeliveryConflict => Flag(run.deliveryConflict)
    case _ => None
  }

  function RunDocument(run: WorkRun): Doc {
    map f | f in LIFECYCLE_FIELDS + RUN_OPTIONAL && RunField(run, f).Some? :: RunField(run, f).value
  }

  function OutcomeField(o: DesiredOutcome, f: Field): Option<Json> {
    match f
    case FKey => Some(Str(o.key))
    case FRevision => Some(Int(o.revision))
    case FContentDigest => Some(Str(o.contentDigest))
    case FContent => OptionalText(o.content)
    case FParentIssue => OptionalInt(o.parentIssue)
    case _ => None
  }

  function OutcomeDocument(o: DesiredOutcome): Doc {
    map f | f in OUTCOME_FIELDS + OUTCOME_OPTIONAL && OutcomeField(o, f).Some? :: OutcomeField(o, f).value
  }

  function InitiativeDocument(i: Initiative): Doc {
    map[FKey := Str(i.key), FState := Str(i.state)]
  }

  function DebtDocument(d: WorktreeDebt): Doc {
    var document: Doc := map[FIssue := Int(d.issue), FPath := Str(d.path)];
    if d.workItemKey.Some? then document[FWorkItemKey := Str(d.workItemKey.value)] else document
  }

  function BarDocument(b: ExternalBar): Doc {
    var document: Doc := map[FKey := Str(b.key), FKind := Str(b.kind)];
    if b.detail != "" then document[FDetail := Str(b.detail)] else document
  }

  function TransitionDocument(t: ReadyTransition): Doc {
    map[FKey := Str(t.key), FRecordedAt := Str(t.recordedAt)]
  }

  // ------------------------------------------------------------ field readers

  /** `_string`: present, a string, not empty. */
  predicate IsText(d: Doc, f: Field) {
    f in d && d[f].Str? && d[f].text != ""
  }

  /** `_optional_fact_text`. */
  predicate IsOptionalText(d: Doc, f: Field, allowEmpty: bool) {
    f in d ==> d[f].Str? && (allowEmpty || d[f].text != "")
  }

  /** `_optional_text`, which also takes an explicit null. */
  predicate IsNullableText(d: Doc, f: Field) {
    f in d ==> d[f].Null? || (d[f].Str? && d[f].text != "")
  }

  predicate IsNullableIssue(d: Doc, f: Field) {
    f in d ==> d[f].Null? || IsInt(d, f, 1)
  }

  predicate IsInt(d: Doc, f: Field, least: int) {
    f in d && d[f].Int? && d[f].number >= least
  }

  predicate IsOptionalInt(d: Doc, f: Field, least: int) {
    f in d ==> IsInt(d, f, least)
  }

  predicate IsTexts(j: Json) {
    j.List? && forall i :: 0 <= i < |j.entries| ==> j.entries[i].Str? && j.entries[i].text != ""
  }

  predicate IsOptionalTexts(d: Doc, f: Field) {
    f in d ==> IsTexts(d[f])
  }

  predicate IsOptionalBool(d: Doc, f: Field) {
    f in d ==> d[f].Bool?
  }

  predicate HasFields(d: Doc, required: set<Field>, optional: set<Field>) {
    required <= d.Keys <= required + optional
  }

  function TextOf(d: Doc, f: Field): Option<string> {
    if f in d && d[f].Str? then Some(d[f].text) else None
  }

  function ValueOf(d: Doc, f: Field): string {
    if f in d && d[f].Str? then d[f].text else ""
  }

  function IntOf(d: Doc, f: Field): Option<int> {
    if f in d && d[f].Int? then Some(d[f].number) else None
  }

  function NumberOf(d: Doc, f: Field): int {
    if f in d && d[f].Int? then d[f].number else 0
  }

  function TextsOf(d: Doc, f: Field): seq<string> {
    if f in d && d[f].List? then
      seq(|d[f].entries|, i requires 0 <= i < |d[f].entries| =>
        if d[f].entries[i].Str? then d[f].entries[i].text else "")
    else []
  }

  predicate FlagOf(d: Doc, f: Field) {
    f in d && d[f].Bool? && d[f].flag
  }

  // ------------------------------------------------------------ decoding

  /** `_lifecycle_entry` and `_work_item_entry`. */
  function ItemFault(d: Doc): Option<Refusal> {
    if !HasFields(d, LIFECYCLE_FIELDS, ITEM_OPTIONAL) then Some(EntryFields(FWorkItems))
    else if !IsText(d, FKey) then Some(Invalid(FKey))
    else if !IsText(d, FState) then Some(Invalid(FState))
    else if !IsOptionalInt(d, FIssue, 1) then Some(BadValue(FWorkItems, FIssue))
    else if !IsOptionalTexts(d, FBlockedBy) then Some(BadValue(FWorkItems, FBlockedBy))
    else if !IsOptionalInt(d, FPriority, 0) then Some(BadValue(FWorkItems, FPriority))
    else if !IsOptionalTexts(d, FResources) then Some(BadValue(FWorkItems, FResources))
    else if !IsOptionalText(d, FSeat, false) then Some(BadValue(FWorkItems, FSeat))
    else if !IsOptionalText(d, FProfile, false) then Some(BadValue(FWorkItems, FProfile))
    else if !IsOptionalText(d, FReadyAt, false) then Some(BadValue(FWorkItems, FReadyAt))
    else None
  }

  /** `_work_item_value`. */
  function ItemOf(d: Doc): WorkItem {
    WorkItem(ValueOf(d, FKey), ValueOf(d, FState), IntOf(d, FIssue), TextsOf(d, FBlockedBy), IntOf(d, FPriority),
             TextsOf(d, FResources), if Truthy(TextOf(d, FSeat)) then ValueOf(d, FSeat) else DEFAULT_SEAT,
             TextOf(d, FProfile), TextOf(d, FReadyAt))
  }

  /** `_lifecycle_entry` and `_work_run_entry`. */
  function RunFault(d: Doc): Option<Refusal> {
    if !HasFields(d, LIFECYCLE_FIELDS, RUN_OPTIONAL) then Some(EntryFields(FWorkRuns))
    else if !IsText(d, FKey) then Some(Invalid(FKey))
    else if !IsText(d, FState) then Some(Invalid(FState))
    else if !IsOptionalText(d, FWorkItemKey, false) then Some(BadValue(FWorkRuns, FWorkItemKey))
    else if !IsOptionalText(d, FDispatchId, false) then Some(BadValue(FWorkRuns, FDispatchId))
    else if !IsOptionalText(d, FFailureClass, false) then Some(BadValue(FWorkRuns, FFailureClass))
    else if !IsOptionalText(d, FWorktree, false) then Some(BadValue(FWorkRuns, FWorktree))
    else if !IsOptionalInt(d, FIssue, 1) then Some(BadValue(FWorkRuns, FIssue))
    else if !IsOptionalText(d, FCandidateSha, false) then Some(BadValue(FWorkRuns, FCandidateSha))
    else if !IsOptionalText(d, FReviewedSha, false) then Some(BadValue(FWorkRuns, FReviewedSha))
    else if !IsOptionalText(d, FReviewStatus, false) then Some(BadValue(FWorkRuns, FReviewStatus))
    else if !IsOptionalText(d, FReviewDispatchId, false) then Some(BadValue(FWorkRuns, FReviewDispatchId))
    else if !IsOptionalText(d, FAdjudicationSha, false) then Some(BadValue(FWorkRuns, FAdjudicationSha))
    else if !IsOptionalText(d, FAdjudicationStatus, false) then Some(BadValue(FWorkRuns, FAdjudicationStatus))
    else if !IsOptionalText(d, FGateSha, false) then Some(BadValue(FWorkRuns, FGateSha))
    else if !IsOptionalText(d, FGateStatus, false) then Some(BadValue(FWorkRuns, FGateStatus))
    else if !IsOptionalText(d, FLandedSha, false) then Some(BadValue(FWorkRuns, FLandedSha))
    else if !IsOptionalText(d, FCloseEvidenceSha, false) then Some(BadValue(FWorkRuns, FCloseEvidenceSha))
    else if !IsOptionalText(d, FRecoveryKind, false) then Some(BadValue(FWorkRuns, FRecoveryKind))
    else if !IsOptionalBool(d, FResultPublished) then Some(BadValue(FWorkRuns, FResultPublished))
    else if !IsOptionalBool(d, FDeliveryConflict) then Some(BadValue(FWorkRuns, FDeliveryConflict))
    else None
  }

  /** `_work_run_value`. */
  function RunOf(d: Doc): WorkRun {
    WorkRun(ValueOf(d, FKey), ValueOf(d, FState), TextOf(d, FWorkItemKey), TextOf(d, FDispatchId),
            TextOf(d, FFailureClass), TextOf(d, FWorktree), IntOf(d, FIssue), TextOf(d, FCandidateSha),
            TextOf(d, FReviewedSha), TextOf(d, FReviewStatus), TextOf(d, FReviewDispatchId),
            TextOf(d, FAdjudicationSha), TextOf(d, FAdjudicationStatus), TextOf(d, FGateSha), TextOf(d, FGateStatus),
            TextOf(d, FLandedSha), TextOf(d, FCloseEvidenceSha), TextOf(d, FRecoveryKind),
            FlagOf(d, FResultPublished), FlagOf(d, FDeliveryConflict))
  }

  /** `_outcome_entry`. */
  function OutcomeFault(d: Doc): Option<Refusal> {
    if !HasFields(d, OUTCOME_FIELDS, OUTCOME_OPTIONAL) then Some(EntryFields(FOutcomes))
    else if !IsText(d, FKey) then Some(Invalid(FKey))
    else if !IsInt(d, FRevision, 1) then Some(BadValue(FOutcomes, FRevision))
    else if !IsText(d, FContentDigest) then Some(Invalid(FContentDigest))
    else if !IsNullableText(d, FContent) then Some(Invalid(FContent))
    else if !IsNullableIssue(d, FParentIssue) then Some(Invalid(FParentIssue))
    else None
  }

  function OutcomeOf(d: Doc): DesiredOutcome {
    DesiredOutcome(ValueOf(d, FKey), NumberOf(d, FRevision), ValueOf(d, FContentDigest),
                   TextOf(d, FContent), IntOf(d, FParentIssue))
  }

  function InitiativeFault(d: Doc): Option<Refusal> {
    if !HasFields(d, LIFECYCLE_FIELDS, {}) then Some(EntryFields(FInitiatives))
    else if !IsText(d, FKey) then Some(Invalid(FKey))
    else if !IsText(d, FState) then Some(Invalid(FState))
    else None
  }

  function InitiativeOf(d: Doc): Initiative {
    Initiative(ValueOf(d, FKey), ValueOf(d, FState))
  }

  /** `_worktree_debt_entry`. */
  function DebtFault(d: Doc): Option<Refusal> {
    if !HasFields(d, {FIssue, FPath}, {FWorkItemKey}) then Some(EntryFields(FDebt))
    else if !IsInt(d, FIssue, 1) then Some(BadValue(FDebt, FIssue))
    else if !IsText(d, FPath) then Some(Invalid(FPath))
    else if !IsOptionalText(d, FWorkItemKey, false) then Some(BadValue(FDebt, FWorkItemKey))
    else None
  }

  function DebtOf(d: Doc): WorktreeDebt {
    WorktreeDebt(NumberOf(d, FIssue), ValueOf(d, FPath), TextOf(d, FWorkItemKey))
  }

  /** `_external_bar_entry`. */
  function BarFault(d: Doc): Option<Refusal> {
    if !HasFields(d, {FKey, FKind}, {FDetail}) then Some(EntryFields(FBars))
    else if !IsText(d, FKey) then Some(Invalid(FKey))
    else if !IsText(d, FKind) then Some(Invalid(FKind))
    else if !IsOptionalText(d, FDetail, true) then Some(BadValue(FBars, FDetail))
    else None
  }

  function BarOf(d: Doc): ExternalBar {
    ExternalBar(ValueOf(d, FKey), ValueOf(d, FKind), ValueOf(d, FDetail))
  }

  /** `_ready_transition_entry`. */
  function TransitionFault(d: Doc): Option<Refusal> {
    if !HasFields(d, {FKey, FRecordedAt}, {}) then Some(EntryFields(FTransitions))
    else if !IsText(d, FKey) then Some(Invalid(FKey))
    else if !IsText(d, FRecordedAt) then Some(Invalid(FRecordedAt))
    else None
  }

  function TransitionOf(d: Doc): ReadyTransition {
    ReadyTransition(ValueOf(d, FKey), ValueOf(d, FRecordedAt))
  }

  // ------------------------------------------------------------ the whole document

  /** One collection: how its entries are written, checked and read, and which may be stored. */
  datatype Codec<!T(!new)> = Codec(
    field: Field,
    document: T -> Doc,
    fault: Doc -> Option<Refusal>,
    value: Doc -> T,
    storable: T -> bool,
    notObject: Refusal)

  const OUTCOMES := Codec(FOutcomes, OutcomeDocument, OutcomeFault, OutcomeOf, StorableOutcome, NotObject(FOutcomes))
  const INITIATIVES := Codec(FInitiatives, InitiativeDocument, InitiativeFault, InitiativeOf, StorableInitiative,
                             NotObject(FInitiatives))
  const ITEMS := Codec(FWorkItems, ItemDocument, ItemFault, ItemOf, StorableItem, NotObject(FWorkItems))
  const RUNS := Codec(FWorkRuns, RunDocument, RunFault, RunOf, StorableRun, NotObject(FWorkRuns))
  const DEBTS := Codec(FDebt, DebtDocument, DebtFault, DebtOf, StorableDebt, EntryFields(FDebt))
  const BARS := Codec(FBars, BarDocument, BarFault, BarOf, StorableBar, EntryFields(FBars))
  const TRANSITIONS := Codec(FTransitions, TransitionDocument, TransitionFault, TransitionOf, StorableTransition,
                             EntryFields(FTransitions))

  function Objects<T(!new)>(values: seq<T>, c: Codec<T>): Json {
    List(seq(|values|, i requires 0 <= i < |values| => Object(c.document(values[i]))))
  }

  function OptionalObjects<T(!new)>(values: seq<T>, c: Codec<T>): Option<Json> {
    if |values| == 0 then None else Some(Objects(values, c))
  }

  /** One field of `facts_document`. */
  function FactsField(f: ControlFacts, field: Field): Option<Json> {
    match field
    case FCurator => Some(if f.configuredCurator.Some? then Str(f.configuredCurator.value) else Null)
    case FOutcomes => Some(Objects(f.desiredOutcomes, OUTCOMES))
    case FInitiatives => Some(Objects(f.initiatives, INITIATIVES))
    case FWorkItems => Some(Objects(f.workItems, ITEMS))
    case FWorkRuns => Some(Objects(f.workRuns, RUNS))
    case FDebt => OptionalObjects(f.worktreeDebt, DEBTS)
    case FWipLimit => OptionalInt(f.wipLimit)
    case FBars => OptionalObjects(f.externalBars, BARS)
    case FPriorityOrder => OptionalTexts(f.priorityOrder)
    case FTransitions => OptionalObjects(f.readyTransitions, TRANSITIONS)
    case _ => None
  }

  /** `facts_document`. */
  function Encode(f: ControlFacts): Doc {
    map field | field in FACTS_FIELDS + FACTS_OPTIONAL && FactsField(f, field).Some? :: FactsField(f, field).value
  }

  /** Each entry an object that passes its own check, in order. */
  function EntriesFault<T(!new)>(entries: seq<Json>, c: Codec<T>): Option<Refusal> {
    if entries == [] then None
    else if !entries[0].Object? then Some(c.notObject)
    else if c.fault(entries[0].fields).Some? then c.fault(entries[0].fields)
    else EntriesFault(entries[1..], c)
  }

  function CollectionFault<T(!new)>(d: Doc, c: Codec<T>): Option<Refusal> {
    if c.field !in d || !d[c.field].List? then Some(NotList(c.field)) else EntriesFault(d[c.field].entries, c)
  }

  /** `_optional_fact_collection`. */
  function OptionalFault<T(!new)>(d: Doc, c: Codec<T>): Option<Refusal> {
    if c.field !in d then None else CollectionFault(d, c)
  }

  function Earlier(a: Option<Refusal>, b: Option<Refusal>): Option<Refusal> {
    if a.Some? then a else b
  }

  function CollectionsFault(d: Doc): Option<Refusal> {
    Earlier(CollectionFault(d, OUTCOMES),
    Earlier(CollectionFault(d, INITIATIVES),
    Earlier(CollectionFault(d, ITEMS),
    Earlier(CollectionFault(d, RUNS),
    Earlier(OptionalFault(d, DEBTS),
    Earlier(OptionalFault(d, BARS),
            OptionalFault(d, TRANSITIONS)))))))
  }

  /** `_facts_document`. */
  function FactsFault(d: Doc): Option<Refusal> {
    if !HasFields(d, FACTS_FIELDS, FACTS_OPTIONAL) then Some(FactsFields)
    else if !IsNullableText(d, FCurator) then Some(Invalid(FCurator))
    else if CollectionsFault(d).Some? then CollectionsFault(d)
    else if !IsOptionalInt(d, FWipLimit, 0) then Some(Invalid(FWipLimit))
    else if !IsOptionalTexts(d, FPriorityOrder) then Some(Invalid(FPriorityOrder))
    else None
  }

  function ValuesOf<T(!new)>(d: Doc, c: Codec<T>): seq<T> {
    if c.field in d && d[c.field].List? then
      seq(|d[c.field].entries|, i requires 0 <= i < |d[c.field].entries| => c.value(FieldsOf(d[c.field].entries[i])))
    else []
  }

  function FieldsOf(j: Json): Doc {
    if j.Object? then j.fields else map[]
  }

  /** `_facts_value`, after its validation. */
  function FactsOf(d: Doc): ControlFacts {
    ControlFacts(TextOf(d, FCurator), ValuesOf(d, OUTCOMES), ValuesOf(d, INITIATIVES), ValuesOf(d, ITEMS),
                 ValuesOf(d, RUNS), ValuesOf(d, DEBTS), IntOf(d, FWipLimit), ValuesOf(d, BARS),
                 TextsOf(d, FPriorityOrder), ValuesOf(d, TRANSITIONS))
  }

  /** `_facts_value`. */
  function Decode(j: Json): Decoding {
    if !j.Object? then Refused(NotFacts)
    else match FactsFault(j.fields)
      case Some(reason) => Refused(reason)
      case None => Decoded(FactsOf(j.fields))
  }

  predicate All<T(!new)>(values: seq<T>, c: Codec<T>) {
    forall i :: 0 <= i < |values| ==> c.storable(values[i])
  }

  /** Storability, collection by collection as the codecs see it. */
  lemma StorableByCollection(f: ControlFacts)
    ensures Storable(f) <==>
            && Filled(f.configuredCurator)
            && All(f.desiredOutcomes, OUTCOMES) && All(f.initiatives, INITIATIVES)
            && All(f.workItems, ITEMS) && All(f.workRuns, RUNS) && All(f.worktreeDebt, DEBTS)
            && Least(f.wipLimit, 0) && All(f.externalBars, BARS) && AllFilled(f.priorityOrder)
            && All(f.readyTransitions, TRANSITIONS)
  {
    AllMembers(f.desiredOutcomes, OUTCOMES);
    AllMembers(f.initiatives, INITIATIVES);
    AllMembers(f.workItems, ITEMS);
    AllMembers(f.workRuns, RUNS);
    AllMembers(f.worktreeDebt, DEBTS);
    AllMembers(f.externalBars, BARS);
    AllMembers(f.readyTransitions, TRANSITIONS);
  }

  lemma AllMembers<T(!new)>(values: seq<T>, c: Codec<T>)
    ensures All(values, c) <==> forall v :: v in values ==> c.storable(v)
  {
    if All(values, c) {
      forall v | v in values ensures c.storable(v) {
        var i :| 0 <= i < |values| && values[i] == v;
      }
    }
  }

  // ------------------------------------------------------------ round trips, entity by entity

  lemma TextsRoundTrip(texts: seq<string>)
    ensures IsTexts(Texts(texts)) <==> AllFilled(texts)
    ensures forall d: Doc, f :: f in d && d[f] == Texts(texts) ==> TextsOf(d, f) == texts
  {
    var entries := Texts(texts).entries;
    forall i | 0 <= i < |texts| ensures entries[i].Str? && entries[i].text == texts[i] {}
  }

  /** The field's check says whether the value may be stored, and its reader gives the value back. */
  predicate ReadsText(d: Doc, f: Field, v: Option<string>) {
    (IsOptionalText(d, f, false) <==> Filled(v)) && TextOf(d, f) == v
  }

  predicate ReadsName(d: Doc, f: Field, v: string) {
    (IsText(d, f) <==> v != "") && ValueOf(d, f) == v
  }

  predicate ReadsInt(d: Doc, f: Field, v: Option<int>, least: int) {
    (IsOptionalInt(d, f, least) <==> Least(v, least)) && IntOf(d, f) == v
  }

  predicate ReadsFlag(d: Doc, f: Field, v: bool) {
    IsOptionalBool(d, f) && FlagOf(d, f) == v
  }

  predicate ReadsTexts(d: Doc, f: Field, v: seq<string>) {
    (IsOptionalTexts(d, f) <==> AllFilled(v)) && TextsOf(d, f) == v
  }

  predicate ReadsRun(d: Doc, run: WorkRun) {
    && ReadsName(d, FKey, run.key) && ReadsName(d, FState, run.state) && ReadsInt(d, FIssue, run.issue, 1)
    && ReadsText(d, FWorkItemKey, run.workItemKey) && ReadsText(d, FDispatchId, run.dispatchId)
    && ReadsText(d, FFailureClass, run.failureClass) && ReadsText(d, FWorktree, run.worktree)
    && ReadsText(d, FCandidateSha, run.candidateSha) && ReadsText(d, FReviewedSha, run.reviewedSha)
    && ReadsText(d, FReviewStatus, run.reviewStatus) && ReadsText(d, FReviewDispatchId, run.reviewDispatchId)
    && ReadsText(d, FAdjudicationSha, run.adjudicationSha) && ReadsText(d, FAdjudicationStatus, run.adjudicationStatus)
    && ReadsText(d, FGateSha, run.gateSha) && ReadsText(d, FGateStatus, run.gateStatus)
    && ReadsText(d, FLandedSha, run.landedSha) && ReadsText(d, FCloseEvidenceSha, run.closeEvidenceSha)
    && ReadsText(d, FRecoveryKind, run.recoveryKind)
    && ReadsFlag(d, FResultPublished, run.resultPublished) && ReadsFlag(d, FDeliveryConflict, run.deliveryConflict)
  }

  lemma RunReads(d: Doc, run: WorkRun)
    requires HasFields(d, LIFECYCLE_FIELDS, RUN_OPTIONAL) && ReadsRun(d, run)
    ensures RunFault(d).None? <==> StorableRun(run)
    ensures RunOf(d) == run
  {
  }

  lemma RunText(run: WorkRun, f: Field, v: Option<string>)
    requires f in RUN_OPTIONAL && RunField(run, f) == OptionalText(v)
    ensures ReadsText(RunDocument(run), f, v)
  {
  }

  lemma RunRest(run: WorkRun)
    ensures var d := RunDocument(run);
            && HasFields(d, LIFECYCLE_FIELDS, RUN_OPTIONAL)
            && ReadsName(d, FKey, run.key) && ReadsName(d, FState, run.state) && ReadsInt(d, FIssue, run.issue, 1)
            && ReadsFlag(d, FResultPublished, run.resultPublished)
            && ReadsFlag(d, FDeliveryConflict, run.deliveryConflict)
  {
  }

  lemma RunLaunchTexts(run: WorkRun)
    ensures var d := RunDocument(run);
            && ReadsText(d, FWorkItemKey, run.workItemKey)
            && ReadsText(d, FDispatchId, run.dispatchId)
            && ReadsText(d, FFailureClass, run.failureClass)
            && ReadsText(d, FWorktree, run.worktree)
            && ReadsText(d, FRecoveryKind, run.recoveryKind)
  {
    RunText(run, FWorkItemKey, run.workItemKey);
    RunText(run, FDispatchId, run.dispatchId);
    RunText(run, FFailureClass, run.failureClass);
    RunText(run, FWorktree, run.worktree);
    RunText(run, FRecoveryKind, run.recoveryKind);
  }

  lemma RunReviewTexts(run: WorkRun)
    ensures var d := RunDocument(run);
            && ReadsText(d, FCandidateSha, run.candidateSha)
            && ReadsText(d, FReviewedSha, run.reviewedSha)
            && ReadsText(d, FReviewStatus, run.reviewStatus)
            && ReadsText(d, FReviewDispatchId, run.reviewDispatchId)
            && ReadsText(d, FAdjudicationSha, run.adjudicationSha)
            && ReadsText(d, FAdjudicationStatus, run.adjudicationStatus)
  {
    RunText(run, FCandidateSha, run.candidateSha);
    RunText(run, FReviewedSha, run.reviewedSha);
    RunText(run, FReviewStatus, run.reviewStatus);
    RunText(run, FReviewDispatchId, run.reviewDispatchId);
    RunText(run, FAdjudicationSha, run.adjudicationSha);
    RunText(run, FAdjudicationStatus, run.adjudicationStatus);
  }

  lemma RunGateTexts(run: WorkRun)
    ensures var d := RunDocument(run);
            && ReadsText(d, FGateSha, run.gateSha)
            && ReadsText(d, FGateStatus, run.gateStatus)
            && ReadsText(d, FLandedSha, run.landedSha)
            && ReadsText(d, FCloseEvidenceSha, run.closeEvidenceSha)
  {
    RunText(run, FGateSha, run.gateSha);
    RunText(run, FGateStatus, run.gateStatus);
    RunText(run, FLandedSha, run.landedSha);
    RunText(run, FCloseEvidenceSha, run.closeEvidenceSha);
  }

  lemma RunRoundTrip(run: WorkRun)
    ensures RunFault(RunDocument(run)).None? <==> StorableRun(run)
    ensures RunOf(RunDocument(run)) == run
  {
    RunRest(run);
    RunLaunchTexts(run);
    RunReviewTexts(run);
    RunGateTexts(run);
    RunReads(RunDocument(run), run);
  }

  predicate ReadsItem(d: Doc, item: WorkItem) {
    && ReadsName(d, FKey, item.key) && ReadsName(d, FState, item.state) && ReadsInt(d, FIssue, item.issue, 1)
    && ReadsTexts(d, FBlockedBy, item.blockedBy) && ReadsInt(d, FPriority, item.priority, 0)
    && ReadsTexts(d, FResources, item.exclusiveResources)
    && (IsOptionalText(d, FSeat, false) <==> item.seat != "")
    && (item.seat != "" ==> (if Truthy(TextOf(d, FSeat)) then ValueOf(d, FSeat) else DEFAULT_SEAT) == item.seat)
    && ReadsText(d, FProfile, item.profile) && ReadsText(d, FReadyAt, item.readyAt)
  }

  lemma ItemReads(d: Doc, item: WorkItem)
    requires HasFields(d, LIFECYCLE_FIELDS, ITEM_OPTIONAL) && ReadsItem(d, item)
    ensures ItemFault(d).None? <==> StorableItem(item)
    ensures StorableItem(item) ==> ItemOf(d) == item
  {
  }

  lemma ItemTexts(item: WorkItem, f: Field, v: seq<string>)
    requires f in ITEM_OPTIONAL && ItemField(item, f) == OptionalTexts(v)
    ensures ReadsTexts(ItemDocument(item), f, v)
  {
    TextsRoundTrip(v);
  }

  lemma ItemRest(item: WorkItem)
    ensures var d := ItemDocument(item);
            && HasFields(d, LIFECYCLE_FIELDS, ITEM_OPTIONAL)
            && ReadsName(d, FKey, item.key) && ReadsName(d, FState, item.state)
            && ReadsInt(d, FIssue, item.issue, 1) && ReadsInt(d, FPriority, item.priority, 0)
            && ReadsText(d, FProfile, item.profile) && ReadsText(d, FReadyAt, item.readyAt)
            && (IsOptionalText(d, FSeat, false) <==> item.seat != "")
            && (item.seat != "" ==> (if Truthy(TextOf(d, FSeat)) then ValueOf(d, FSeat) else DEFAULT_SEAT) == item.seat)
  {
  }

  lemma ItemRoundTrip(item: WorkItem)
    ensures ItemFault(ItemDocument(item)).None? <==> StorableItem(item)
    ensures StorableItem(item) ==> ItemOf(ItemDocument(item)) == item
  {
    ItemRest(item);
    ItemTexts(item, FBlockedBy, item.blockedBy);
    ItemTexts(item, FResources, item.exclusiveResources);
    ItemReads(ItemDocument(item), item);
  }

  lemma OutcomeRoundTrip(o: DesiredOutcome)
    ensures OutcomeFault(OutcomeDocument(o)).None? <==> StorableOutcome(o)
    ensures StorableOutcome(o) ==> OutcomeOf(OutcomeDocument(o)) == o
  {
  }

  lemma InitiativeRoundTrip(v: Initiative)
    ensures InitiativeFault(InitiativeDocument(v)).None? <==> StorableInitiative(v)
    ensures InitiativeOf(InitiativeDocument(v)) == v
  {
  }

  lemma DebtRoundTrip(v: WorktreeDebt)
    ensures DebtFault(DebtDocument(v)).None? <==> StorableDebt(v)
    ensures DebtOf(DebtDocument(v)) == v
  {
  }

  lemma BarRoundTrip(v: ExternalBar)
    ensures BarFault(BarDocument(v)).None? <==> StorableBar(v)
    ensures BarOf(BarDocument(v)) == v
  {
  }

  lemma TransitionRoundTrip(v: ReadyTransition)
    ensures TransitionFault(TransitionDocument(v)).None? <==> StorableTransition(v)
    ensures TransitionOf(TransitionDocument(v)) == v
  {
  }

  // ------------------------------------------------------------ collections

  /** An entry's check refuses exactly what may not be stored, reading undoes
      writing, and whatever passes the check reads as something storable. */
  ghost predicate Faithful<T(!new)>(c: Codec<T>) {
    && (forall v :: c.fault(c.document(v)).None? <==> c.storable(v))
    && (forall v :: c.storable(v) ==> c.value(c.document(v)) == v)
    && (forall d :: c.fault(d).None? ==> c.storable(c.value(d)))
  }

  lemma {:induction false} EntriesAllPass<T(!new)>(entries: seq<Json>, c: Codec<T>)
    ensures EntriesFault(entries, c).None?
            <==> forall i :: 0 <= i < |entries| ==> entries[i].Object? && c.fault(entries[i].fields).None?
  {
    if entries != [] {
      EntriesAllPass(entries[1..], c);
      assert forall i :: 1 <= i < |entries| ==> entries[i] == entries[1..][i - 1];
    }
  }

  lemma CollectionRoundTrip<T(!new)>(d: Doc, values: seq<T>, c: Codec<T>)
    requires Faithful(c) && c.field in d && d[c.field] == Objects(values, c)
    ensures CollectionFault(d, c).None? <==> All(values, c)
    ensures All(values, c) ==> ValuesOf(d, c) == values
  {
    var entries := d[c.field].entries;
    EntriesAllPass(entries, c);
    forall i | 0 <= i < |values| ensures c.fault(entries[i].fields).None? <==> c.storable(values[i]) {
      assert entries[i] == Object(c.document(values[i]));
    }
    if All(values, c) {
      forall i | 0 <= i < |values| ensures ValuesOf(d, c)[i] == values[i] {
        assert entries[i] == Object(c.document(values[i])) && FieldsOf(entries[i]) == c.document(values[i]);
        assert ValuesOf(d, c)[i] == c.value(FieldsOf(entries[i]));
        assert c.storable(values[i]);
      }
      assert ValuesOf(d, c) == values;
    }
  }

  lemma CollectionReadsStorable<T(!new)>(d: Doc, c: Codec<T>)
    requires Faithful(c)
    ensures OptionalFault(d, c).None? ==> All(ValuesOf(d, c), c)
  {
    if c.field in d && d[c.field].List? {
      var entries := d[c.field].entries;
      EntriesAllPass(entries, c);
      if OptionalFault(d, c).None? {
        forall i | 0 <= i < |entries| ensures c.storable(ValuesOf(d, c)[i]) {
          assert entries[i].Object? && c.fault(entries[i].fields).None?;
          assert FieldsOf(entries[i]) == entries[i].fields;
        }
      }
    }
  }

  lemma OutcomesFaithful()
    ensures Faithful(OUTCOMES)
  {
    forall v
      ensures OutcomeFault(OutcomeDocument(v)).None? <==> StorableOutcome(v)
      ensures StorableOutcome(v) ==> OutcomeOf(OutcomeDocument(v)) == v
    { OutcomeRoundTrip(v); }
  }

  lemma ItemsFaithful()
    ensures Faithful(ITEMS)
  {
    forall v
      ensures ItemFault(ItemDocument(v)).None? <==> StorableItem(v)
      ensures StorableItem(v) ==> ItemOf(ItemDocument(v)) == v
    { ItemRoundTrip(v); }
    forall d | ItemFault(d).None? ensures StorableItem(ItemOf(d)) { ItemReadsStorable(d); }
  }

  lemma ItemReadsStorable(d: Doc)
    requires ItemFault(d).None?
    ensures StorableItem(ItemOf(d))
  {
    forall f | f == FBlockedBy || f == FResources ensures AllFilled(TextsOf(d, f)) {}
  }

  lemma RunsFaithful()
    ensures Faithful(RUNS)
  {
    forall v
      ensures RunFault(RunDocument(v)).None? <==> StorableRun(v)
      ensures StorableRun(v) ==> RunOf(RunDocument(v)) == v
    { RunRoundTrip(v); }
    forall d | RunFault(d).None? ensures StorableRun(RunOf(d)) { RunReadsStorable(d); }
  }

  lemma RunReadsStorable(d: Doc)
    requires RunFault(d).None?
    ensures StorableRun(RunOf(d))
  {
  }

  lemma InitiativesFaithful()
    ensures Faithful(INITIATIVES)
  {
    forall v
      ensures InitiativeFault(InitiativeDocument(v)).None? <==> StorableInitiative(v)
      ensures InitiativeOf(InitiativeDocument(v)) == v
    {
      InitiativeRoundTrip(v);
    }
  }

  lemma DebtsFaithful()
    ensures Faithful(DEBTS)
  {
    forall v ensures DebtFault(DebtDocument(v)).None? <==> StorableDebt(v) ensures DebtOf(DebtDocument(v)) == v {
      DebtRoundTrip(v);
    }
  }

  lemma BarsFaithful()
    ensures Faithful(BARS)
  {
    forall v ensures BarFault(BarDocument(v)).None? <==> StorableBar(v) ensures BarOf(BarDocument(v)) == v {
      BarRoundTrip(v);
    }
  }

  lemma TransitionsFaithful()
    ensures Faithful(TRANSITIONS)
  {
    forall v
      ensures TransitionFault(TransitionDocument(v)).None? <==> StorableTransition(v)
      ensures TransitionOf(TransitionDocument(v)) == v
    {
      TransitionRoundTrip(v);
    }
  }

  // ------------------------------------------------------------ the whole document, there and back

  /** The collection's check decides storability, and its reader gives the values back. */
  ghost predicate Reads<T(!new)>(d: Doc, values: seq<T>, c: Codec<T>) {
    (OptionalFault(d, c).None? <==> All(values, c)) && (All(values, c) ==> ValuesOf(d, c) == values)
  }

  lemma RequiredReads<T(!new)>(d: Doc, values: seq<T>, c: Codec<T>)
    requires Faithful(c) && c.field in d && d[c.field] == Objects(values, c)
    ensures Reads(d, values, c)
  {
    CollectionRoundTrip(d, values, c);
  }

  lemma OptionalReads<T(!new)>(d: Doc, values: seq<T>, c: Codec<T>)
    requires Faithful(c) && (if |values| == 0 then c.field !in d else c.field in d && d[c.field] == Objects(values, c))
    ensures Reads(d, values, c)
  {
    if |values| != 0 { CollectionRoundTrip(d, values, c); }
  }

  lemma EncodeAt(f: ControlFacts, field: Field)
    requires field in FACTS_FIELDS + FACTS_OPTIONAL
    ensures field in Encode(f) <==> FactsField(f, field).Some?
    ensures field in Encode(f) ==> Encode(f)[field] == FactsField(f, field).value
  {
  }

  lemma OutcomesRead(f: ControlFacts)
    ensures FOutcomes in Encode(f) && Reads(Encode(f), f.desiredOutcomes, OUTCOMES)
  {
    EncodeAt(f, FOutcomes);
    OutcomesFaithful();
    RequiredReads(Encode(f), f.desiredOutcomes, OUTCOMES);
  }

  lemma InitiativesRead(f: ControlFacts)
    ensures FInitiatives in Encode(f) && Reads(Encode(f), f.initiatives, INITIATIVES)
  {
    EncodeAt(f, FInitiatives);
    InitiativesFaithful();
    RequiredReads(Encode(f), f.initiatives, INITIATIVES);
  }

  lemma ItemsRead(f: ControlFacts)
    ensures FWorkItems in Encode(f) && Reads(Encode(f), f.workItems, ITEMS)
  {
    EncodeAt(f, FWorkItems);
    ItemsFaithful();
    RequiredReads(Encode(f), f.workItems, ITEMS);
  }

  lemma RunsRead(f: ControlFacts)
    ensures FWorkRuns in Encode(f) && Reads(Encode(f), f.workRuns, RUNS)
  {
    EncodeAt(f, FWorkRuns);
    RunsFaithful();
    RequiredReads(Encode(f), f.workRuns, RUNS);
  }

  lemma DebtsRead(f: ControlFacts)
    ensures Reads(Encode(f), f.worktreeDebt, DEBTS)
  {
    EncodeAt(f, FDebt);
    DebtsFaithful();
    OptionalReads(Encode(f), f.worktreeDebt, DEBTS);
  }

  lemma BarsRead(f: ControlFacts)
    ensures Reads(Encode(f), f.externalBars, BARS)
  {
    EncodeAt(f, FBars);
    BarsFaithful();
    OptionalReads(Encode(f), f.externalBars, BARS);
  }

  lemma TransitionsRead(f: ControlFacts)
    ensures Reads(Encode(f), f.readyTransitions, TRANSITIONS)
  {
    EncodeAt(f, FTransitions);
    TransitionsFaithful();
    OptionalReads(Encode(f), f.readyTransitions, TRANSITIONS);
  }

  lemma EnvelopeReads(f: ControlFacts)
    ensures HasFields(Encode(f), FACTS_FIELDS, FACTS_OPTIONAL)
  {
  }

  lemma ScalarsRead(f: ControlFacts)
    ensures var d := Encode(f);
            && (IsNullableText(d, FCurator) <==> Filled(f.configuredCurator))
            && TextOf(d, FCurator) == f.configuredCurator
            && ReadsInt(d, FWipLimit, f.wipLimit, 0)
  {
    EncodeAt(f, FCurator);
    EncodeAt(f, FWipLimit);
  }

  lemma OrderReads(f: ControlFacts)
    ensures ReadsTexts(Encode(f), FPriorityOrder, f.priorityOrder)
  {
    EncodeAt(f, FPriorityOrder);
    TextsRoundTrip(f.priorityOrder);
  }

  /** Decoding the document of any facts gives back those very facts, unless a
      value is one the decoder refuses; then it refuses, and never yields others. */
  lemma FactsRoundTrip(f: ControlFacts)
    ensures Decode(Object(Encode(f))) == Decoded(f) <==> Storable(f)
    ensures Decode(Object(Encode(f))).Refused? <==> !Storable(f)
  {
    EnvelopeReads(f);
    ScalarsRead(f);
    OrderReads(f);
    OutcomesRead(f);
    InitiativesRead(f);
    ItemsRead(f);
    RunsRead(f);
    DebtsRead(f);
    BarsRead(f);
    TransitionsRead(f);
    WholeReads(Encode(f), f);
  }

  lemma WholeReads(d: Doc, f: ControlFacts)
    requires HasFields(d, FACTS_FIELDS, FACTS_OPTIONAL)
    requires IsNullableText(d, FCurator) <==> Filled(f.configuredCurator)
    requires TextOf(d, FCurator) == f.configuredCurator
    requires ReadsInt(d, FWipLimit, f.wipLimit, 0) && ReadsTexts(d, FPriorityOrder, f.priorityOrder)
    requires FOutcomes in d && FInitiatives in d && FWorkItems in d && FWorkRuns in d
    requires Reads(d, f.desiredOutcomes, OUTCOMES) && Reads(d, f.initiatives, INITIATIVES)
    requires Reads(d, f.workItems, ITEMS) && Reads(d, f.workRuns, RUNS)
    requires Reads(d, f.worktreeDebt, DEBTS) && Reads(d, f.externalBars, BARS)
             && Reads(d, f.readyTransitions, TRANSITIONS)
    ensures FactsFault(d).None? <==> Storable(f)
    ensures Storable(f) ==> FactsOf(d) == f
  {
    StorableByCollection(f);
  }

  /** Whatever decodes is storable, so one trip through the journal settles the facts for good. */
  lemma DecodedIsStorable(j: Json)
    ensures Decode(j).Decoded? ==> Storable(Decode(j).facts)
    ensures Decode(j).Decoded? ==> Decode(Object(Encode(Decode(j).facts))) == Decode(j)
  {
    if Decode(j).Decoded? {
      CollectionsReadStorable(j.fields);
      FactsRoundTrip(Decode(j).facts);
    }
  }

  lemma CollectionsReadStorable(d: Doc)
    requires FactsFault(d).None?
    ensures Storable(FactsOf(d))
  {
    StorableByCollection(FactsOf(d));
    WorkReadsStorable(d);
    OutcomesFaithful();
    InitiativesFaithful();
    DebtsFaithful();
    BarsFaithful();
    TransitionsFaithful();
    CollectionReadsStorable(d, OUTCOMES);
    CollectionReadsStorable(d, INITIATIVES);
    CollectionReadsStorable(d, DEBTS);
    CollectionReadsStorable(d, BARS);
    CollectionReadsStorable(d, TRANSITIONS);
  }

  lemma WorkReadsStorable(d: Doc)
    requires OptionalFault(d, ITEMS).None? && OptionalFault(d, RUNS).None?
    ensures All(ValuesOf(d, ITEMS), ITEMS) && All(ValuesOf(d, RUNS), RUNS)
  {
    ItemsFaithful();
    RunsFaithful();
    CollectionReadsStorable(d, ITEMS);
    CollectionReadsStorable(d, RUNS);
  }
}
