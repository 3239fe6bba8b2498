/** Attempt records, the bound plan they are measured against, and the checks
    that look at one record alone. */
module Attempts {
  import opened Common

  const MAX_ATTEMPTS := 20000

  datatype Variant = Candidate | Baseline
  datatype Status = Completed | Failed | Timeout | Cancelled | UnknownStatus
  datatype Mode = ConstraintMode | MutationMode | LlmMode
  datatype Check = Pass | Fail | UnknownCheck
  datatype Mutation = Killed | Survived | NoCoverage | MutationError
  datatype Detection = Detect | Allow | Indeterminate
  datatype ErrorClass = ExecutionFailure | BaselineNotPass | UnrelatedFailure | MutationNotApplied

  datatype Binding = Binding(
    runId: Id, operationId: Id, ownerEpoch: int, contractDigest: Digest, targetDigest: Digest,
    obligationId: Id, caseId: Id, trialId: Id, stageId: Id, fixtureDigest: Digest, adapterDigest: Digest,
    policyDigest: Digest, evaluatorDigest: Digest, isolationDigest: Digest)

  datatype NormalizedResult = NormalizedResult(
    binding: Binding, mode: Option<Mode>, observation: Option<Check>, mutation: Option<Mutation>,
    detection: Option<Detection>, deviation: Option<bool>, errorClass: Option<ErrorClass>,
    rawDigest: Option<Digest>)

  datatype Record = Record(
    attemptId: Id, variant: Variant, retryOf: Option<Id>, startedAt: int, finishedAt: Option<int>,
    stopConfirmed: bool, status: Status, stateRestored: bool, binding: Binding,
    result: Option<NormalizedResult>)

  datatype AggregationError =
    | ATTEMPT_LIMIT | INVALID_AGGREGATION | INVALID_RETRY | TIME_ORDER | BINDING_MISMATCH
    | EXECUTION_PROFILE_SCOPE_MISMATCH

  /** Which fields a normalized result may carry in each mode. */
  predicate ValidResult(r: NormalizedResult) {
    && r.binding.ownerEpoch >= 1
    && match r.mode
       case None =>
         r.observation.None? && r.detection.None? && r.deviation.None? && r.mutation == Some(MutationError)
         && r.errorClass.Some? && r.rawDigest.None?
       case Some(ConstraintMode) =>
         r.observation.Some? && r.mutation.None? && r.detection.None? && r.deviation.None?
         && r.errorClass.None? && r.rawDigest.Some?
       case Some(MutationMode) =>
         r.observation.Some? && r.mutation.Some? && r.detection.None? && r.deviation.None? && r.rawDigest.Some?
         && (r.mutation == Some(MutationError) <==> r.errorClass.Some?)
       case Some(LlmMode) =>
         r.observation.None? && r.mutation.None? && r.detection.Some? && r.errorClass.None? && r.rawDigest.Some?
  }

  function RecordError(r: Record): Option<AggregationError> {
    if r.retryOf == Some(r.attemptId) then Some(INVALID_RETRY)
    else if !IsUint(r.startedAt) || (r.finishedAt.Some? && !IsUint(r.finishedAt.value)) then Some(INVALID_AGGREGATION)
    else if r.finishedAt.Some? && r.finishedAt.value < r.startedAt then Some(TIME_ORDER)
    else if r.binding.ownerEpoch < 1 then Some(BINDING_MISMATCH)
    else if r.result.Some? && !ValidResult(r.result.value) then Some(INVALID_AGGREGATION)
    else None
  }

  predicate ValidRecord(r: Record) { RecordError(r).None? }

  /** A stopped, finished, completed attempt with a usable result. */
  predicate Definitive(r: Record) {
    r.status == Completed && r.finishedAt.Some? && r.stopConfirmed && r.result.Some?
    && r.result.value.mutation != Some(MutationError)
  }

  predicate Faulty(r: Record) { r.status != Completed }

  predicate ErrorResult(r: Record) {
    r.result.Some? && (r.result.value.mode.None? || r.result.value.mutation == Some(MutationError))
  }

  /** The selected result of a stage settles it. */
  predicate Definite(r: NormalizedResult) {
    match r.mode
    case Some(ConstraintMode) => r.observation != Some(UnknownCheck)
    case Some(LlmMode) => r.detection != Some(Indeterminate)
    case _ => r.mutation != Some(MutationError)
  }

  /** What a result violates where the policy is `forbidden`. */
  predicate Violation(r: Record) {
    r.result.Some?
    && ((r.result.value.mode == Some(ConstraintMode) && r.result.value.observation == Some(Fail))
        || (r.result.value.mode == Some(LlmMode) && r.result.value.deviation == Some(true)))
  }

  // ---------- the bound plan ----------

  datatype Kind = ConstraintKind | MutationKind | LlmMetricKind
  datatype EventPolicy = Forbidden | AggregateOnly | NoPolicy
  datatype Label = Positive | Negative | IndeterminateLabel

  /** A registry obligation together with the control it belongs to. */
  datatype Obligation = Obligation(
    controlId: Id, critical: bool, kind: Kind, required: bool, eventPolicy: EventPolicy)

  datatype Stage = Stage(stageId: Id, eventPolicy: EventPolicy)

  datatype Case = Case(category: Id, expected: Label, stages: seq<Stage>, scoredStageId: Id)

  datatype Entry = Entry(
    variant: Variant, obligationId: Id, caseId: Id, trialId: Id, stageIds: seq<Id>,
    targetDigest: Digest, evaluatorDigest: Digest)

  datatype Bound = Bound(
    runId: Id, contractDigest: Digest, policyDigest: Digest, environmentDigest: Digest,
    createdAt: int, deadline: int,
    obligations: map<Id, Obligation>, cases: map<Id, Case>, entries: seq<Entry>)

  datatype Runner = Runner(fixtureDigest: Digest, adapterDigests: set<Digest>)

  /** One runner for everything, or one for each (target, evaluator) pair. */
  datatype Profile =
    | Single(isolationDigest: Digest, runner: Runner)
    | PerTarget(isolationDigest: Digest, runners: map<(Digest, Digest), Runner>)

  function PlannedPairs(b: Bound): set<(Digest, Digest)> {
    set e | e in b.entries :: (e.targetDigest, e.evaluatorDigest)
  }

  /** A per-target profile must cover the plan's pairs, no more and no less. */
  function CheckPlan(p: Profile, b: Bound): Option<AggregationError> {
    match p
    case Single(_, _) => None
    case PerTarget(isolation, runners) =>
      if isolation != b.environmentDigest then Some(BINDING_MISMATCH)
      else if PlannedPairs(b) == {} || PlannedPairs(b) != runners.Keys then Some(EXECUTION_PROFILE_SCOPE_MISMATCH)
      else None
  }

  function RunnerFor(p: Profile, e: Entry): Runner
    requires p.PerTarget? ==> (e.targetDigest, e.evaluatorDigest) in p.runners
  {
    if p.Single? then p.runner else p.runners[(e.targetDigest, e.evaluatorDigest)]
  }

  function StageIds(stages: seq<Stage>): (ids: seq<Id>)
    ensures |ids| == |stages| && forall i :: 0 <= i < |ids| ==> ids[i] == stages[i].stageId
  {
    seq(|stages|, i requires 0 <= i < |stages| => stages[i].stageId)
  }

  /** The trial an entry plans; a plan names each trial once. */
  datatype Trial = Trial(variant: Variant, obligationId: Id, caseId: Id, trialId: Id)

  function TrialOf(e: Entry): Trial { Trial(e.variant, e.obligationId, e.caseId, e.trialId) }

  ghost predicate EntryOk(b: Bound, e: Entry) {
    && e.obligationId in b.obligations
    && e.caseId in b.cases
    && e.stageIds == StageIds(b.cases[e.caseId].stages)
    && Distinct(e.stageIds)
    && b.cases[e.caseId].scoredStageId in e.stageIds
  }

  /** What binding a run guarantees about its plan. */
  ghost predicate WellBound(b: Bound) {
    && (forall e :: e in b.entries ==> EntryOk(b, e))
    && (forall i, j :: 0 <= i < j < |b.entries| ==> TrialOf(b.entries[i]) != TrialOf(b.entries[j]))
  }

  datatype Key = Key(variant: Variant, obligationId: Id, caseId: Id, trialId: Id, stageId: Id)

  /** A planned stage of a trial: the unit the denominators count. */
  datatype Slot = Slot(entry: Entry, stageId: Id)

  function KeyAt(s: Slot): Key {
    Key(s.entry.variant, s.entry.obligationId, s.entry.caseId, s.entry.trialId, s.stageId)
  }

  function Slots(b: Bound): set<Slot> {
    set e, id | e in b.entries && id in e.stageIds :: Slot(e, id)
  }

  function KeyOf(r: Record): Key {
    Key(r.variant, r.binding.obligationId, r.binding.caseId, r.binding.trialId, r.binding.stageId)
  }

  function FindStage(stages: seq<Stage>, id: Id): (r: Option<Stage>)
    ensures r.Some? <==> exists i :: 0 <= i < |stages| && stages[i].stageId == id
    ensures r.Some? ==> r.value in stages && r.value.stageId == id
  {
    if stages == [] then None
    else if stages[0].stageId == id then Some(stages[0])
    else FindStage(stages[1..], id)
  }

  // ---------- issues ----------

  /** `EXPECTED_BINDING_MISMATCH` and `INVALID_RETRY_CHAIN` stand for the codes
      `BINDING_MISMATCH` and `INVALID_RETRY`, which here name errors. */
  datatype IssueCode =
    | DUPLICATE_ATTEMPT_CONFLICT | MISSING_RESULT | STATUS_RESULT_MISMATCH | OUT_OF_RUN_WINDOW
    | UNPLANNED_ATTEMPT | EXPECTED_BINDING_MISMATCH | RESULT_BINDING_MISMATCH | RESULT_MODE_MISMATCH
    | INVALID_RETRY_CHAIN | RETRY_LIMIT | ATTEMPT_CHAIN_CONFLICT | DEFINITIVE_RESULT_CONFLICT
    | FORBIDDEN_VIOLATION | STAGE_ORDER

  /** An issue names the record it was raised for by its six identifying fields. */
  datatype Issue = Issue(code: IssueCode, key: Key, attemptId: Id)

  function IssueFor(code: IssueCode, r: Record): Issue { Issue(code, KeyOf(r), r.attemptId) }

  /** Issues that make the run's required evidence incomplete. */
  predicate BlocksEvidence(code: IssueCode) {
    code in {DUPLICATE_ATTEMPT_CONFLICT, DEFINITIVE_RESULT_CONFLICT, UNPLANNED_ATTEMPT, EXPECTED_BINDING_MISMATCH,
             RESULT_BINDING_MISMATCH, INVALID_RETRY_CHAIN, ATTEMPT_CHAIN_CONFLICT, STAGE_ORDER, OUT_OF_RUN_WINDOW,
             MISSING_RESULT}
  }

  function ExpectedMode(k: Kind): Mode {
    match k
    case ConstraintKind => ConstraintMode
    case MutationKind => MutationMode
    case LlmMetricKind => LlmMode
  }

  /** What is wrong with a record's own status and result, if anything. */
  function ResultIssue(r: Record): Option<IssueCode> {
    if r.status == Completed && r.result.None? then Some(MISSING_RESULT)
    else if r.status != Completed && r.result.Some?
            && (r.result.value.mode.Some? || r.result.value.mutation != Some(MutationError))
    then Some(STATUS_RESULT_MISMATCH)
    else None
  }

  predicate BindingMatches(b: Bound, p: Profile, e: Entry, r: Record)
    requires p.PerTarget? ==> (e.targetDigest, e.evaluatorDigest) in p.runners
  {
    && r.binding.runId == b.runId
    && r.binding.contractDigest == b.contractDigest
    && r.binding.policyDigest == b.policyDigest
    && r.binding.fixtureDigest == RunnerFor(p, e).fixtureDigest
    && r.binding.isolationDigest == p.isolationDigest
    && r.binding.targetDigest == e.targetDigest
    && r.binding.evaluatorDigest == e.evaluatorDigest
    && r.binding.adapterDigest in RunnerFor(p, e).adapterDigests
  }

  predicate ModeMatches(o: Obligation, r: NormalizedResult) {
    r.mode == Some(ExpectedMode(o.kind)) || (r.mode.None? && r.mutation == Some(MutationError))
  }

  /** Why a delivered record does not belong to the run, in the order the
      reasons are looked at; `entry` is the plan entry of its key, if any. */
  function Rejection(b: Bound, p: Profile, entry: Option<Entry>, r: Record): Option<IssueCode>
    requires entry.Some? ==> entry.value.obligationId in b.obligations
    requires entry.Some? && p.PerTarget? ==> (entry.value.targetDigest, entry.value.evaluatorDigest) in p.runners
  {
    if r.startedAt < b.createdAt || (r.finishedAt.Some? && r.finishedAt.value > b.deadline) then Some(OUT_OF_RUN_WINDOW)
    else if entry.None? then Some(UNPLANNED_ATTEMPT)
    else if !BindingMatches(b, p, entry.value, r) then Some(EXPECTED_BINDING_MISMATCH)
    else if r.result.Some? && r.result.value.binding != r.binding then Some(RESULT_BINDING_MISMATCH)
    else if r.result.Some? && !ModeMatches(b.obligations[entry.value.obligationId], r.result.value)
    then Some(RESULT_MODE_MISMATCH)
    else None
  }
}
