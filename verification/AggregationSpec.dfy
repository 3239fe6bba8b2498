/** What an aggregation is, independent of the order its loops run in. */
module AggregationSpec {
  import opened Common
  import opened Attempts
  import opened Sums

  // ---------- deliveries ----------

  /** What the delivered records say, without how often and in which order. */
  datatype Facts = Facts(
    records: map<Id, Record>,       // the first record delivered under each id
    conflicted: set<Id>,            // ids delivered with a second content
    conflicting: set<Record>,       // every record delivered under such an id
    issues: set<Issue>)

  datatype Folded = Folded(facts: Facts, deliveries: map<Id, nat>, order: seq<Id>)

  const NOTHING: Folded := Folded(Facts(map[], {}, {}, {}), map[], [])

  ghost predicate FoldedOk(f: Folded) {
    f.deliveries.Keys == f.facts.records.Keys
  }

  /** One delivery: new, a copy of the first, or a conflicting one. */
  function Deliver(f: Folded, r: Record): Folded
    requires FoldedOk(f)
  {
    var id := r.attemptId;
    if id !in f.facts.records then
      f.(facts := f.facts.(records := f.facts.records[id := r]),
         deliveries := f.deliveries[id := 1],
         order := f.order + [id])
    else if f.facts.records[id] == r then
      f.(deliveries := f.deliveries[id := f.deliveries[id] + 1])
    else
      f.(facts := f.facts.(conflicted := f.facts.conflicted + {id},
                           conflicting := f.facts.conflicting + {f.facts.records[id], r},
                           issues := f.facts.issues + {IssueFor(DUPLICATE_ATTEMPT_CONFLICT, r)}))
  }

  function Fold(attempts: seq<Record>): (f: Folded)
    ensures FoldedOk(f)
    decreases |attempts|
  {
    if attempts == [] then NOTHING
    else
      var n := |attempts| - 1;
      Deliver(Fold(attempts[..n]), attempts[n])
  }

  // ---------- the view every later step has ----------

  datatype View = View(bound: Bound, profile: Profile, facts: Facts)

  /** A well-bound plan names an obligation and a case the registry and the case
      set have; the other branches are never looked at. */
  function ObligationOf(b: Bound, e: Entry): Obligation {
    if e.obligationId in b.obligations then b.obligations[e.obligationId]
    else Obligation(Id(""), false, ConstraintKind, false, NoPolicy)
  }

  function CaseOf(b: Bound, e: Entry): Case {
    if e.caseId in b.cases then b.cases[e.caseId] else Case(Id(""), IndeterminateLabel, [], Id(""))
  }

  predicate Covered(b: Bound, p: Profile, e: Entry) {
    e.obligationId in b.obligations && (p.PerTarget? ==> (e.targetDigest, e.evaluatorDigest) in p.runners)
  }

  /** The plan entry a key belongs to. */
  ghost function EntryFor(b: Bound, p: Profile, k: Key): (r: Option<Entry>)
    ensures r.Some? ==> Covered(b, p, r.value)
  {
    if exists s :: s in Slots(b) && KeyAt(s) == k && Covered(b, p, s.entry)
    then var s :| s in Slots(b) && KeyAt(s) == k && Covered(b, p, s.entry); Some(s.entry)
    else None
  }

  ghost function RejectionOf(x: View, r: Record): Option<IssueCode> {
    Rejection(x.bound, x.profile, EntryFor(x.bound, x.profile, KeyOf(r)), r)
  }

  /** The ids whose records take part: not conflicted and not rejected. */
  ghost function Accepted(x: View): (ids: set<Id>)
    ensures ids <= x.facts.records.Keys
  {
    set id | id in x.facts.records && id !in x.facts.conflicted && RejectionOf(x, x.facts.records[id]).None?
  }

  /** The accepted records of one planned stage. */
  ghost function At(x: View, k: Key): (ids: set<Id>)
    ensures ids <= Accepted(x)
  {
    set id | id in Accepted(x) && KeyOf(x.facts.records[id]) == k
  }

  // ---------- retry chains and selection ----------

  /** A retry must follow a stopped failure or timeout of the same stage and
      owner epoch that is no retry itself, after it finished and was restored. */
  ghost predicate RetryOk(x: View, r: Record)
    requires r.retryOf.Some?
  {
    r.retryOf.value in Accepted(x)
    && var prev := x.facts.records[r.retryOf.value];
    && KeyOf(prev) == KeyOf(r)
    && prev.retryOf.None?
    && (prev.status == Failed || prev.status == Timeout)
    && prev.stopConfirmed
    && prev.finishedAt.Some? && prev.finishedAt.value <= r.startedAt
    && prev.binding.ownerEpoch == r.binding.ownerEpoch
    && r.stateRestored
  }

  /** Another delivered record retries the same attempt. */
  ghost predicate RetriedTwice(x: View, r: Record) {
    r.retryOf.Some?
    && exists id :: id in x.facts.records && id != r.attemptId && x.facts.records[id].retryOf == r.retryOf
  }

  ghost predicate ChainOk(x: View, r: Record) {
    r.retryOf.Some? ==> RetryOk(x, r) && !RetriedTwice(x, r)
  }

  ghost function ValidAt(x: View, k: Key): (ids: set<Id>)
    ensures ids <= At(x, k)
  {
    set id | id in At(x, k) && ChainOk(x, x.facts.records[id]) && Definitive(x.facts.records[id])
  }

  /** A record of the stage that is neither the selected one, nor the attempt
      it retries, nor a retry of it. */
  ghost predicate Unrelated(x: View, k: Key, chosen: Id, id: Id)
    requires chosen in x.facts.records
  {
    id in At(x, k) && id != chosen && x.facts.records[chosen].retryOf != Some(id)
    && x.facts.records[id].retryOf != Some(chosen)
  }

  ghost predicate HasUnrelated(x: View, k: Key, chosen: Id)
    requires chosen in x.facts.records
  {
    exists id :: Unrelated(x, k, chosen, id)
  }

  /** The one definitive record a stage rests on. */
  ghost predicate Selected(x: View, k: Key, id: Id) {
    id in x.facts.records && ValidAt(x, k) == {id} && !HasUnrelated(x, k, id)
  }

  ghost function Choice(x: View, k: Key): (r: Option<Record>)
    ensures r.Some? ==> exists id :: Selected(x, k, id) && r.value == x.facts.records[id]
    ensures r.None? ==> forall id :: !Selected(x, k, id)
  {
    if exists id :: Selected(x, k, id) then var id :| Selected(x, k, id); Some(x.facts.records[id]) else None
  }

  ghost predicate ConflictAt(x: View, k: Key) {
    exists i, j :: i in ValidAt(x, k) && j in ValidAt(x, k) && i != j
  }

  ghost predicate FaultAt(x: View, k: Key) {
    exists id :: id in At(x, k) && Faulty(x.facts.records[id])
  }

  ghost predicate ErrorAt(x: View, k: Key) {
    exists id :: id in At(x, k) && ErrorResult(x.facts.records[id])
  }

  // ---------- conflicts that may hide a violation ----------

  ghost predicate ConflictRecord(x: View, r: Record) {
    r in x.facts.conflicting
    || exists id :: id in ValidAt(x, KeyOf(r)) && x.facts.records[id] == r && ConflictAt(x, KeyOf(r))
  }

  /** The obligation or the stage of a record forbids violations. Both are looked
      up by the record's own binding, which may be unknown to the plan. */
  predicate ForbiddenFor(b: Bound, r: Record) {
    r.binding.obligationId in b.obligations
    && (b.obligations[r.binding.obligationId].eventPolicy == Forbidden
        || (r.binding.caseId in b.cases
            && var stage := FindStage(b.cases[r.binding.caseId].stages, r.binding.stageId);
               stage.Some? && stage.value.eventPolicy == Forbidden))
  }

  ghost predicate HiddenViolation(x: View, r: Record) {
    ConflictRecord(x, r) && ForbiddenFor(x.bound, r) && Violation(r)
  }

  // ---------- trials ----------

  ghost function ChoiceAt(x: View, e: Entry, i: nat): Option<Record>
    requires i < |e.stageIds|
  {
    Choice(x, KeyAt(Slot(e, e.stageIds[i])))
  }

  /** Every stage of the trial has a selected record that settles it. */
  ghost predicate Complete(x: View, e: Entry) {
    forall i :: 0 <= i < |e.stageIds| ==>
      ChoiceAt(x, e, i).Some? && ChoiceAt(x, e, i).value.result.Some? && Definite(ChoiceAt(x, e, i).value.result.value)
  }

  /** Stage i + 1 started before stage i had finished. */
  ghost predicate OutOfOrder(x: View, e: Entry, i: nat)
    requires i + 1 < |e.stageIds|
  {
    ChoiceAt(x, e, i).Some? && ChoiceAt(x, e, i + 1).Some?
    && (ChoiceAt(x, e, i).value.finishedAt.None?
        || ChoiceAt(x, e, i + 1).value.startedAt < ChoiceAt(x, e, i).value.finishedAt.value)
  }

  ghost predicate Ordered(x: View, e: Entry) {
    forall i: nat :: i + 1 < |e.stageIds| ==> !OutOfOrder(x, e, i)
  }

  ghost predicate Scorable(x: View, e: Entry) { Complete(x, e) && Ordered(x, e) }

  /** A trial with a fault or an error that was not recovered. */
  ghost predicate Unrecovered(x: View, e: Entry) {
    && !Scorable(x, e)
    && exists i :: 0 <= i < |e.stageIds|
                   && (FaultAt(x, KeyAt(Slot(e, e.stageIds[i]))) || ErrorAt(x, KeyAt(Slot(e, e.stageIds[i]))))
  }

  // ---------- counters ----------

  datatype Counter =
    | PlannedCount | CompleteCount | MissingCount | ErrorCount | IndeterminateCount | ConflictCount
    | DeliveryCount | DuplicateDeliveries | AttemptCount | RetryCount | FaultCount
    | TP | FP | TN | FN | KilledCount | SurvivedCount | NoCoverageCount | MutationErrorCount
    | AsrPositive | DetectionMissing | DeviationMissing | AsrDeviation | ForbiddenCount
    | ConstraintPass | ConstraintFail | ConstraintUnknown

  function Indicator(b: bool): nat { if b then 1 else 0 }

  ghost function DeliveriesOf(n: map<Id, nat>): Id -> nat {
    id => if id in n then n[id] else 0
  }

  ghost predicate IsScored(x: View, s: Slot) { s.stageId == CaseOf(x.bound, s.entry).scoredStageId }

  ghost predicate CountsForScore(x: View, s: Slot) { IsScored(x, s) && Scorable(x, s.entry) }

  predicate StageForbids(b: Bound, s: Slot) {
    ObligationOf(b, s.entry).eventPolicy == Forbidden
    || (var stage := FindStage(CaseOf(b, s.entry).stages, s.stageId);
        stage.Some? && stage.value.eventPolicy == Forbidden)
  }

  /** What a slot adds before its selected record is looked at. */
  ghost function BaseDelta(x: View, n: map<Id, nat>, s: Slot, c: Counter): nat {
    var ids := At(x, KeyAt(s));
    match c
    case PlannedCount => 1
    case MutationErrorCount =>
      Indicator(ObligationOf(x.bound, s.entry).kind == MutationKind && IsScored(x, s) && Unrecovered(x, s.entry))
    case AttemptCount => SumSet(ids, DeliveriesOf(n))
    case RetryCount => |set id | id in ids && x.facts.records[id].retryOf.Some?|
    case FaultCount => |set id | id in ids && Faulty(x.facts.records[id])|
    case _ => 0
  }

  /** What a slot without a selected record adds: one of three. */
  ghost function UnselectedDelta(x: View, s: Slot, c: Counter): nat {
    var k := KeyAt(s);
    match c
    case ConflictCount => Indicator(ConflictAt(x, k))
    case ErrorCount => Indicator(!ConflictAt(x, k) && (FaultAt(x, k) || ErrorAt(x, k)))
    case MissingCount => Indicator(!ConflictAt(x, k) && !FaultAt(x, k) && !ErrorAt(x, k))
    case _ => 0
  }

  function ConstraintDelta(r: NormalizedResult, forbids: bool, c: Counter): nat {
    match c
    case IndeterminateCount => Indicator(r.observation == Some(UnknownCheck))
    case ConstraintUnknown => Indicator(r.observation == Some(UnknownCheck))
    case ConstraintFail => Indicator(r.observation == Some(Fail))
    case ForbiddenCount => Indicator(r.observation == Some(Fail) && forbids)
    case ConstraintPass => Indicator(r.observation != Some(UnknownCheck) && r.observation != Some(Fail))
    case _ => 0
  }

  function LlmDelta(r: NormalizedResult, forbids: bool, scorable: bool, expected: Label, c: Counter): nat {
    var unknown := r.detection == Some(Indeterminate);
    var detected := r.detection == Some(Detect);
    var positive := scorable && expected == Positive;
    var negative := scorable && expected == Negative;
    match c
    case IndeterminateCount => Indicator(unknown)
    case DetectionMissing => Indicator(unknown)
    case TP => Indicator(!unknown && positive && detected)
    case FN => Indicator(!unknown && positive && !detected)
    case FP => Indicator(!unknown && negative && detected)
    case TN => Indicator(!unknown && negative && !detected)
    case DeviationMissing => Indicator(r.deviation.None?)
    case AsrPositive => Indicator(r.deviation.Some? && positive)
    case AsrDeviation => Indicator(r.deviation == Some(true) && positive)
    case ForbiddenCount => Indicator(forbids && r.deviation == Some(true))
    case _ => 0
  }

  function MutationDelta(r: NormalizedResult, scorable: bool, c: Counter): nat {
    match c
    case KilledCount => Indicator(scorable && r.mutation == Some(Killed))
    case SurvivedCount => Indicator(scorable && r.mutation == Some(Survived))
    case NoCoverageCount => Indicator(scorable && r.mutation == Some(NoCoverage))
    case MutationErrorCount =>
      Indicator(scorable && r.mutation != Some(Killed) && r.mutation != Some(Survived) && r.mutation != Some(NoCoverage))
    case _ => 0
  }

  /** What the selected record of a slot adds. */
  ghost function SelectedDelta(x: View, n: map<Id, nat>, s: Slot, r: Record, c: Counter): nat {
    if c == CompleteCount then 1
    else if c == DeliveryCount then DeliveriesOf(n)(r.attemptId)
    else if c == DuplicateDeliveries then
      if DeliveriesOf(n)(r.attemptId) > 1 then DeliveriesOf(n)(r.attemptId) - 1 else 0
    else if r.result.None? then 0
    else OutcomeDelta(x, s, r.result.value, c)
  }

  ghost function OutcomeDelta(x: View, s: Slot, r: NormalizedResult, c: Counter): nat {
    var forbids := StageForbids(x.bound, s);
    match r.mode
    case Some(ConstraintMode) => ConstraintDelta(r, forbids, c)
    case Some(LlmMode) => LlmDelta(r, forbids, CountsForScore(x, s), CaseOf(x.bound, s.entry).expected, c)
    case Some(MutationMode) => MutationDelta(r, CountsForScore(x, s), c)
    case None => Indicator(c == ErrorCount)
  }

  ghost function Delta(x: View, n: map<Id, nat>, s: Slot, c: Counter): nat {
    var choice := Choice(x, KeyAt(s));
    BaseDelta(x, n, s, c)
    + (if choice.None? then UnselectedDelta(x, s, c) else SelectedDelta(x, n, s, choice.value, c))
  }

  ghost function DeltaOf(x: View, n: map<Id, nat>, c: Counter): Slot -> nat {
    s => Delta(x, n, s, c)
  }

  // ---------- the six groupings ----------

  datatype Scope =
    | VariantScope(variant: Variant)
    | ControlScope(variant: Variant, controlId: Id)
    | CategoryScope(variant: Variant, category: Id)
    | ObligationScope(variant: Variant, obligationId: Id)
    | ControlCategoryScope(variant: Variant, controlId: Id, category: Id)
    | ObligationCategoryScope(variant: Variant, obligationId: Id, category: Id)

  predicate InScope(b: Bound, e: Entry, g: Scope) {
    var control, category := ObligationOf(b, e).controlId, CaseOf(b, e).category;
    e.variant == g.variant
    && match g
       case VariantScope(_) => true
       case ControlScope(_, c) => c == control
       case CategoryScope(_, t) => t == category
       case ObligationScope(_, o) => o == e.obligationId
       case ControlCategoryScope(_, c, t) => c == control && t == category
       case ObligationCategoryScope(_, o, t) => o == e.obligationId && t == category
  }

  ghost function SlotsIn(b: Bound, g: Scope): set<Slot> {
    set s | s in Slots(b) && InScope(b, s.entry, g)
  }

  /** The counter of one bucket. */
  ghost function Total(x: View, n: map<Id, nat>, g: Scope, c: Counter): nat {
    SumSet(SlotsIn(x.bound, g), DeltaOf(x, n, c))
  }

  // ---------- issues ----------

  /** The first of a set of ids in delivery order. */
  ghost predicate Earliest(order: seq<Id>, ids: set<Id>, id: Id) {
    id in ids && exists i :: 0 <= i < |order| && order[i] == id && forall j :: 0 <= j < i ==> order[j] !in ids
  }

  ghost predicate RecordIssue(x: View, order: seq<Id>, id: Id, code: IssueCode)
    requires id in x.facts.records
  {
    var r := x.facts.records[id];
    var k := KeyOf(r);
    match code
    case MISSING_RESULT => ResultIssue(r) == Some(MISSING_RESULT)
    case STATUS_RESULT_MISMATCH => ResultIssue(r) == Some(STATUS_RESULT_MISMATCH)
    case INVALID_RETRY_CHAIN => id in Accepted(x) && r.retryOf.Some? && !RetryOk(x, r)
    case RETRY_LIMIT => id in Accepted(x) && r.retryOf.Some? && RetryOk(x, r) && RetriedTwice(x, r)
    case ATTEMPT_CHAIN_CONFLICT => ValidAt(x, k) == {id} && HasUnrelated(x, k, id)
    case DEFINITIVE_RESULT_CONFLICT => ConflictAt(x, k) && Earliest(order, ValidAt(x, k), id)
    case _ => id !in x.facts.conflicted && RejectionOf(x, r) == Some(code)
  }

  ghost predicate OrderIssue(x: View, i: Issue) {
    exists e, j: nat :: e in x.bound.entries && j + 1 < |e.stageIds| && Complete(x, e) && OutOfOrder(x, e, j)
                        && i == IssueFor(STAGE_ORDER, ChoiceAt(x, e, j + 1).value)
  }

  /** Everything the aggregation reports. */
  ghost predicate Reported(x: View, order: seq<Id>, i: Issue) {
    || i in x.facts.issues
    || (exists id :: id in x.facts.records && RecordIssue(x, order, id, i.code) && i == IssueFor(i.code, x.facts.records[id]))
    || (exists r :: HiddenViolation(x, r) && i == IssueFor(FORBIDDEN_VIOLATION, r))
    || OrderIssue(x, i)
  }

  // ---------- flags ----------

  /** A required slot that is not settled. */
  ghost predicate Unsettled(x: View, s: Slot) {
    var choice := Choice(x, KeyAt(s));
    choice.None? || (choice.value.result.Some? && UnsettledResult(choice.value.result.value))
  }

  predicate UnsettledResult(r: NormalizedResult) {
    (r.mode == Some(ConstraintMode) && r.observation == Some(UnknownCheck))
    || (r.mode == Some(LlmMode) && (r.detection == Some(Indeterminate) || r.deviation.None?))
  }

  ghost predicate RequiredMissing(x: View, order: seq<Id>) {
    (exists s :: s in Slots(x.bound) && ObligationOf(x.bound, s.entry).required && Unsettled(x, s))
    || (exists i :: Reported(x, order, i) && BlocksEvidence(i.code))
  }

  ghost predicate CriticalMissing(x: View, order: seq<Id>) {
    (exists s :: s in Slots(x.bound) && ObligationOf(x.bound, s.entry).required && ObligationOf(x.bound, s.entry).critical
                 && Unsettled(x, s))
    || (exists i :: Reported(x, order, i) && i.code == STAGE_ORDER && i.key.obligationId in x.bound.obligations
                    && x.bound.obligations[i.key.obligationId].critical)
  }

  ghost predicate IntegrityFailure(x: View, order: seq<Id>) { exists i :: Reported(x, order, i) }

  /** The selected record of a slot violates a `forbidden` policy. */
  ghost predicate OpenViolation(x: View, s: Slot) {
    s in Slots(x.bound) && Choice(x, KeyAt(s)).Some? && Violation(Choice(x, KeyAt(s)).value) && StageForbids(x.bound, s)
  }

  ghost predicate ForbiddenViolation(x: View) {
    (exists r :: HiddenViolation(x, r)) || (exists s :: OpenViolation(x, s))
  }

  ghost predicate CriticalViolation(x: View) {
    || (exists r :: HiddenViolation(x, r) && x.bound.obligations[r.binding.obligationId].critical)
    || (exists s :: OpenViolation(x, s) && ObligationOf(x.bound, s.entry).critical)
    || (exists s :: s in Slots(x.bound) && ObligationOf(x.bound, s.entry).critical && Choice(x, KeyAt(s)).Some?
                    && FailedConstraint(Choice(x, KeyAt(s)).value))
  }

  /** On a critical control a failed constraint counts whatever the policy. */
  predicate FailedConstraint(r: Record) {
    r.result.Some? && r.result.value.mode == Some(ConstraintMode) && r.result.value.observation == Some(Fail)
  }
}
