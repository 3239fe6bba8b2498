/** What an attempt, a selection and each counter mean, said without the
    definitions the aggregation is computed with. */
module CountLaws {
  import opened Common
  import opened Attempts
  import opened AggregationSpec
  import opened DeliveryLaws
  import opened AggregationLaws
  import opened VerdictLaws
  import opened Sums

  // ---------- attempts ----------

  /** A result carries the fields its mode gives a meaning to, and no others. */
  predicate Meaningful(v: NormalizedResult) {
    && v.binding.ownerEpoch >= 1
    && (v.observation.Some? <==> v.mode == Some(ConstraintMode) || v.mode == Some(MutationMode))
    && (v.detection.Some? <==> v.mode == Some(LlmMode))
    && (v.deviation.Some? ==> v.mode == Some(LlmMode))
    && (v.rawDigest.Some? <==> v.mode.Some?)
    && (v.mutation.Some? <==> v.mode.None? || v.mode == Some(MutationMode))
    && (v.mode.None? ==> v.mutation == Some(MutationError))
    && (v.errorClass.Some? <==> v.mutation == Some(MutationError))
  }

  lemma MeaningfulIs(v: NormalizedResult)
    ensures ValidResult(v) <==> Meaningful(v)
  {
    if v.mode.Some? {
      var m := v.mode.value;
      assert m.ConstraintMode? || m.MutationMode? || m.LlmMode?;
    }
  }

  /** Exactly these records are taken in: no retry of itself, times in range and
      in order, an owner, and a meaningful result if any. */
  lemma ValidExactly(r: Record)
    ensures ValidRecord(r) <==>
              && r.retryOf != Some(r.attemptId)
              && 0 <= r.startedAt <= MAX_INTEGER
              && (r.finishedAt.Some? ==> r.startedAt <= r.finishedAt.value <= MAX_INTEGER)
              && r.binding.ownerEpoch >= 1
              && (r.result.Some? ==> Meaningful(r.result.value))
  {
    hide ValidResult, Meaningful;
    if r.result.Some? { MeaningfulIs(r.result.value); }
  }

  predicate InWindow(b: Bound, r: Record) {
    b.createdAt <= r.startedAt && (r.finishedAt.Some? ==> r.finishedAt.value <= b.deadline)
  }

  /** Bound to this plan: its run, contract and policy, the entry's target and
      evaluator, and the runner the profile has for them. */
  predicate BoundTo(b: Bound, p: Profile, e: Entry, r: Record) {
    && r.binding.runId == b.runId && r.binding.contractDigest == b.contractDigest
    && r.binding.policyDigest == b.policyDigest && r.binding.isolationDigest == p.isolationDigest
    && r.binding.targetDigest == e.targetDigest && r.binding.evaluatorDigest == e.evaluatorDigest
    && (p.Single? ==> r.binding.fixtureDigest == p.runner.fixtureDigest
                      && r.binding.adapterDigest in p.runner.adapterDigests)
    && (p.PerTarget? ==> (e.targetDigest, e.evaluatorDigest) in p.runners
                         && var runner := p.runners[(e.targetDigest, e.evaluatorDigest)];
                         r.binding.fixtureDigest == runner.fixtureDigest && r.binding.adapterDigest in runner.adapterDigests)
  }

  predicate ReportsOnItself(r: Record) { r.result.Some? ==> r.result.value.binding == r.binding }

  predicate InMode(k: Kind, r: Record) {
    r.result.Some? ==>
      || (r.result.value.mode.None? && r.result.value.mutation == Some(MutationError))
      || match k
         case ConstraintKind => r.result.value.mode == Some(ConstraintMode)
         case MutationKind => r.result.value.mode == Some(MutationMode)
         case LlmMetricKind => r.result.value.mode == Some(LlmMode)
  }

  /** Exactly these records are counted at a planned stage: those that ran inside
      the run's window, bound to exactly this plan, with a result, if any, on the
      same binding and in the mode of the obligation, or an error. */
  lemma TakesPartExactly(x: View, s: Slot, id: Id)
    requires Ready(x.bound, x.profile) && s in Slots(x.bound)
    ensures id in At(x, KeyAt(s)) <==>
              && id in x.facts.records && id !in x.facts.conflicted
              && var r := x.facts.records[id];
              && KeyOf(r) == KeyAt(s) && InWindow(x.bound, r) && BoundTo(x.bound, x.profile, s.entry, r)
              && ReportsOnItself(r) && InMode(ObligationOf(x.bound, s.entry).kind, r)
  {
    hide Ready, Slots;
    SlotEntry(x.bound, x.profile, s);
    EntryCovered(x.bound, x.profile, s);
  }

  // ---------- selection ----------

  /** A finished, stopped attempt with a result that is no error. */
  predicate Conclusive(r: Record) {
    r.status == Completed && r.finishedAt.Some? && r.stopConfirmed && r.result.Some?
    && r.result.value.mutation != Some(MutationError)
  }

  /** A retry of a failed attempt: of the same stage and owner epoch, itself no
      retry, stopped and finished before it. */
  predicate Follows(prev: Record, r: Record) {
    && prev.retryOf.None? && (prev.status == Failed || prev.status == Timeout) && prev.stopConfirmed
    && prev.finishedAt.Some? && prev.finishedAt.value <= r.startedAt
    && prev.binding.ownerEpoch == r.binding.ownerEpoch && r.stateRestored
  }

  /** An attempt of its own, or the only retry of an attempt of its stage. */
  ghost predicate OwnOrRetry(x: View, k: Key, r: Record) {
    r.retryOf.Some? ==>
      && r.retryOf.value in At(x, k) && Follows(x.facts.records[r.retryOf.value], r)
      && forall id :: id in x.facts.records && x.facts.records[id].retryOf == r.retryOf ==> id == r.attemptId
  }

  ghost predicate Stands(x: View, k: Key, id: Id) {
    id in At(x, k) && Conclusive(x.facts.records[id]) && OwnOrRetry(x, k, x.facts.records[id])
  }

  lemma StandsIs(x: View, k: Key, id: Id)
    requires RecordsOk(x)
    ensures id in ValidAt(x, k) <==> Stands(x, k, id)
  {
    hide ValidRecord, RejectionOf;
  }

  lemma StandsAt(x: View, k: Key, id: Id)
    requires Stands(x, k, id)
    ensures id in At(x, k)
  {
  }

  /** A stage rests on a record exactly when that is the only conclusive one and
      every other attempt of the stage is the one it retries or a retry of it. */
  lemma ChosenExactly(x: View, k: Key, id: Id)
    requires RecordsOk(x) && id in x.facts.records
    ensures Choice(x, k) == Some(x.facts.records[id]) <==>
              && Stands(x, k, id)
              && forall j :: j in At(x, k) && j != id ==>
                   && !Stands(x, k, j)
                   && (x.facts.records[id].retryOf == Some(j) || x.facts.records[j].retryOf == Some(id))
  {
    hide ValidRecord, Stands, At, ValidAt, HasUnrelated;
    forall j ensures j in ValidAt(x, k) <==> Stands(x, k, j) { StandsIs(x, k, j); }
    forall j | Stands(x, k, j) ensures j in At(x, k) { StandsAt(x, k, j); }
    AllRelated(x, k, id);
    if Choice(x, k) == Some(x.facts.records[id]) {
      var i :| Selected(x, k, i) && x.facts.records[i] == x.facts.records[id];
      assert i == id;
    }
    if Stands(x, k, id) && forall j :: j in At(x, k) && j != id ==>
                && !Stands(x, k, j) && (x.facts.records[id].retryOf == Some(j) || x.facts.records[j].retryOf == Some(id)) {
      assert ValidAt(x, k) == {id};
      assert Selected(x, k, id);
      var i :| Selected(x, k, i) && Choice(x, k) == Some(x.facts.records[i]);
      assert i in ValidAt(x, k);
    }
  }

  lemma AllRelated(x: View, k: Key, id: Id)
    requires id in x.facts.records
    ensures HasUnrelated(x, k, id) <==>
              exists j :: j in At(x, k) && j != id
                          && x.facts.records[id].retryOf != Some(j) && x.facts.records[j].retryOf != Some(id)
  {
    hide At;
    if j :| Unrelated(x, k, id, j) { }
    if j :| j in At(x, k) && j != id && x.facts.records[id].retryOf != Some(j) && x.facts.records[j].retryOf != Some(id) {
      assert Unrelated(x, k, id, j);
    }
  }

  // ---------- the plan ----------

  /** A profile fits a plan exactly when it has one runner for everything, or was
      made for the plan's environment and has runners for just the targets and
      evaluators of its entries, of which there are some. */
  lemma FitsExactly(p: Profile, b: Bound)
    ensures CheckPlan(p, b).None? <==>
              p.Single?
              || (p.isolationDigest == b.environmentDigest && b.entries != []
                  && (forall e :: e in b.entries ==> (e.targetDigest, e.evaluatorDigest) in p.runners)
                  && (forall pair :: pair in p.runners ==>
                        exists e :: e in b.entries && pair == (e.targetDigest, e.evaluatorDigest)))
    ensures CheckPlan(p, b) == Some(BINDING_MISMATCH) <==> p.PerTarget? && p.isolationDigest != b.environmentDigest
  {
    forall e | e in b.entries ensures (e.targetDigest, e.evaluatorDigest) in PlannedPairs(b) {}
    if b.entries != [] {
      assert b.entries[0] in b.entries;
    }
    if p.PerTarget? && p.isolationDigest == b.environmentDigest && b.entries != []
       && (forall e :: e in b.entries ==> (e.targetDigest, e.evaluatorDigest) in p.runners)
       && (forall pair :: pair in p.runners ==> exists e :: e in b.entries && pair == (e.targetDigest, e.evaluatorDigest)) {
      assert PlannedPairs(b) == p.runners.Keys;
    }
  }

  /** Exactly these planned stages count in a bucket. */
  lemma BucketExactly(b: Bound, p: Profile, g: Scope, s: Slot)
    requires Ready(b, p)
    ensures s in SlotsIn(b, g) <==>
              && s.entry in b.entries && s.stageId in s.entry.stageIds && s.entry.variant == g.variant
              && (g.ObligationScope? || g.ObligationCategoryScope? ==> s.entry.obligationId == g.obligationId)
              && (g.ControlScope? || g.ControlCategoryScope? ==>
                    s.entry.obligationId in b.obligations && b.obligations[s.entry.obligationId].controlId == g.controlId)
              && (g.CategoryScope? || g.ControlCategoryScope? || g.ObligationCategoryScope? ==>
                    s.entry.caseId in b.cases && b.cases[s.entry.caseId].category == g.category)
  {
    hide CheckPlan;
    if s.entry in b.entries { assert EntryOk(b, s.entry); }
  }

  // ---------- what a stage came to ----------

  /** The obligation forbids violations, or this stage of the case does. */
  predicate PolicyForbids(b: Bound, s: Slot) {
    && s.entry.obligationId in b.obligations && s.entry.caseId in b.cases
    && (b.obligations[s.entry.obligationId].eventPolicy == Forbidden
        || exists stage :: stage in b.cases[s.entry.caseId].stages && stage.stageId == s.stageId
                           && stage.eventPolicy == Forbidden)
  }

  lemma ForbidsIs(b: Bound, p: Profile, s: Slot)
    requires Ready(b, p) && s in Slots(b)
    ensures StageForbids(b, s) <==> PolicyForbids(b, s)
  {
    hide CheckPlan;
    EntryPlanned(b, s);
    assert EntryOk(b, s.entry);
    var stages := b.cases[s.entry.caseId].stages;
    var i :| 0 <= i < |s.entry.stageIds| && s.entry.stageIds[i] == s.stageId;
    assert stages[i].stageId == s.stageId;
    forall stage | stage in stages && stage.stageId == s.stageId ensures stage == stages[i] {
      var j :| 0 <= j < |stages| && stages[j] == stage;
      assert s.entry.stageIds[j] == s.entry.stageIds[i];
    }
  }

  /** Two attempts stand against each other. */
  ghost predicate Contested(x: View, k: Key) { exists i, j :: Stands(x, k, i) && Stands(x, k, j) && i != j }

  ghost predicate Failing(x: View, k: Key, id: Id) {
    id in At(x, k)
    && var r := x.facts.records[id];
       r.status != Completed || (r.result.Some? && r.result.value.mutation == Some(MutationError))
  }

  /** An attempt did not complete, or reported an error. */
  ghost predicate Disturbed(x: View, k: Key) { exists id :: Failing(x, k, id) }

  lemma ContestedIs(x: View, k: Key)
    requires RecordsOk(x)
    ensures ConflictAt(x, k) <==> Contested(x, k)
  {
    hide ValidRecord, Stands, At, ValidAt;
    forall j ensures j in ValidAt(x, k) <==> Stands(x, k, j) { StandsIs(x, k, j); }
  }

  lemma DisturbedIs(x: View, k: Key)
    requires RecordsOk(x)
    ensures FaultAt(x, k) || ErrorAt(x, k) <==> Disturbed(x, k)
  {
    hide RejectionOf;
    forall id | id in At(x, k)
      ensures Faulty(x.facts.records[id]) || ErrorResult(x.facts.records[id]) <==> Failing(x, k, id)
    {
      assert ValidRecord(x.facts.records[id]);
    }
  }

  /** The counters that count planned stages. */
  predicate CountsStages(c: Counter) {
    c.PlannedCount? || c.CompleteCount? || c.ConflictCount? || c.ErrorCount? || c.MissingCount? || c.IndeterminateCount?
    || c.DetectionMissing? || c.DeviationMissing? || c.ForbiddenCount? || c.ConstraintPass? || c.ConstraintFail?
    || c.ConstraintUnknown?
  }

  /** What the result a stage rests on adds to, by the kind of its obligation. */
  predicate ResultCounts(o: Obligation, forbids: bool, r: NormalizedResult, c: Counter) {
    match c
    case ConstraintPass => o.kind == ConstraintKind && r.observation == Some(Pass)
    case ConstraintFail => o.kind == ConstraintKind && r.observation == Some(Fail)
    case ConstraintUnknown => o.kind == ConstraintKind && r.observation == Some(UnknownCheck)
    case IndeterminateCount => (o.kind == ConstraintKind && r.observation == Some(UnknownCheck))
                               || (o.kind == LlmMetricKind && r.detection == Some(Indeterminate))
    case DetectionMissing => o.kind == LlmMetricKind && r.detection == Some(Indeterminate)
    case DeviationMissing => o.kind == LlmMetricKind && r.deviation.None?
    case ForbiddenCount => forbids && ((o.kind == ConstraintKind && r.observation == Some(Fail))
                                       || (o.kind == LlmMetricKind && r.deviation == Some(true)))
    case _ => c.CompleteCount? || c.PlannedCount?
  }

  /** What a planned stage came to. */
  ghost predicate CameTo(x: View, s: Slot, c: Counter) {
    var k, choice := KeyAt(s), Choice(x, KeyAt(s));
    if choice.Some? && choice.value.result.Some? then
      ResultCounts(ObligationOf(x.bound, s.entry), PolicyForbids(x.bound, s), choice.value.result.value, c)
    else match c
         case PlannedCount => true
         case ConflictCount => Contested(x, k)
         case ErrorCount => !Contested(x, k) && Disturbed(x, k)
         case MissingCount => !Contested(x, k) && !Disturbed(x, k)
         case _ => false
  }

  ghost function StagesThat(x: View, g: Scope, c: Counter): set<Slot> {
    set s | s in SlotsIn(x.bound, g) && CameTo(x, s, c)
  }

  lemma ConstraintCounts(o: Obligation, forbids: bool, r: NormalizedResult, c: Counter)
    requires CountsStages(c) && !c.PlannedCount? && !c.CompleteCount?
    requires o.kind == ConstraintKind && r.mode == Some(ConstraintMode) && ValidResult(r)
    ensures ConstraintDelta(r, forbids, c) == Indicator(ResultCounts(o, forbids, r, c))
  {
    var v := r.observation.value;
    assert v.Pass? || v.Fail? || v.UnknownCheck?;
  }

  lemma LlmCounts(o: Obligation, forbids: bool, scorable: bool, expected: Label, r: NormalizedResult, c: Counter)
    requires CountsStages(c) && !c.PlannedCount? && !c.CompleteCount?
    requires o.kind == LlmMetricKind && r.mode == Some(LlmMode)
    ensures LlmDelta(r, forbids, scorable, expected, c) == Indicator(ResultCounts(o, forbids, r, c))
  {
  }

  lemma MutationCounts(o: Obligation, forbids: bool, scorable: bool, r: NormalizedResult, c: Counter)
    requires CountsStages(c) && !c.PlannedCount? && !c.CompleteCount?
    requires o.kind == MutationKind
    ensures MutationDelta(r, scorable, c) == Indicator(ResultCounts(o, forbids, r, c))
  {
  }

  lemma OutcomeCounts(x: View, s: Slot, c: Counter)
    requires Ready(x.bound, x.profile) && RecordsOk(x) && s in Slots(x.bound) && Choice(x, KeyAt(s)).Some?
    requires CountsStages(c) && !c.PlannedCount? && !c.CompleteCount?
    ensures Choice(x, KeyAt(s)).value.result.Some?
    ensures var r, o := Choice(x, KeyAt(s)).value.result.value, ObligationOf(x.bound, s.entry);
            OutcomeDelta(x, s, r, c) == Indicator(ResultCounts(o, StageForbids(x.bound, s), r, c))
  {
    hide Ready, RecordsOk, Slots, Choice, StageForbids, CountsForScore, CaseOf, ObligationOf, ResultCounts;
    hide ConstraintDelta, LlmDelta, MutationDelta, Definitive, CountsStages;
    ChoiceSound(x, s);
    var r, o, forbids := Choice(x, KeyAt(s)).value.result.value, ObligationOf(x.bound, s.entry), StageForbids(x.bound, s);
    match o.kind
    case ConstraintKind => ConstraintCounts(o, forbids, r, c);
    case LlmMetricKind => LlmCounts(o, forbids, CountsForScore(x, s), CaseOf(x.bound, s.entry).expected, r, c);
    case MutationKind => MutationCounts(o, forbids, CountsForScore(x, s), r, c);
  }

  lemma NoBaseStage(x: View, n: map<Id, nat>, s: Slot, c: Counter)
    requires CountsStages(c)
    ensures BaseDelta(x, n, s, c) == Indicator(c.PlannedCount?)
  {
    hide At, IsScored, Unrecovered, ObligationOf;
  }

  lemma UnselectedCounts(x: View, s: Slot, c: Counter)
    requires RecordsOk(x) && CountsStages(c) && !c.PlannedCount? && Choice(x, KeyAt(s)).None?
    ensures UnselectedDelta(x, s, c) == Indicator(CameTo(x, s, c))
  {
    hide RecordsOk, Choice, Contested, Disturbed, FaultAt, ErrorAt, ConflictAt, PolicyForbids, ObligationOf;
    ContestedIs(x, KeyAt(s));
    DisturbedIs(x, KeyAt(s));
  }

  lemma SelectedCounts(x: View, n: map<Id, nat>, s: Slot, c: Counter)
    requires Ready(x.bound, x.profile) && RecordsOk(x) && s in Slots(x.bound) && Choice(x, KeyAt(s)).Some?
    requires CountsStages(c) && !c.PlannedCount?
    ensures SelectedDelta(x, n, s, Choice(x, KeyAt(s)).value, c) == Indicator(CameTo(x, s, c))
  {
    hide Ready, RecordsOk, Slots, Choice, OutcomeDelta, PolicyForbids, StageForbids, ObligationOf, Contested, Disturbed;
    hide ResultCounts, DeliveriesOf, Definitive, ValidResult, ExpectedMode;
    ChoiceSound(x, s);
    ForbidsIs(x.bound, x.profile, s);
    if c.CompleteCount? { AlwaysComplete(x, s); } else { OutcomeCounts(x, s, c); }
  }

  lemma AlwaysComplete(x: View, s: Slot)
    requires Choice(x, KeyAt(s)).Some? && Choice(x, KeyAt(s)).value.result.Some?
    ensures CameTo(x, s, CompleteCount) && CameTo(x, s, PlannedCount)
  {
    hide Choice, PolicyForbids, ObligationOf;
  }

  lemma StageCounts(x: View, n: map<Id, nat>, s: Slot, c: Counter)
    requires Ready(x.bound, x.profile) && RecordsOk(x) && s in Slots(x.bound) && CountsStages(c)
    ensures Delta(x, n, s, c) == Indicator(CameTo(x, s, c))
  {
    hide Ready, RecordsOk, Slots, Choice, BaseDelta, UnselectedDelta, SelectedDelta, CameTo, CountsStages;
    NoBaseStage(x, n, s, c);
    if c.PlannedCount? {
      SlotConserved(x, n, s);
      AlwaysPlanned(x, s);
    } else if Choice(x, KeyAt(s)).None? {
      UnselectedCounts(x, s, c);
    } else {
      SelectedCounts(x, n, s, c);
    }
  }

  lemma AlwaysPlanned(x: View, s: Slot)
    ensures CameTo(x, s, PlannedCount)
  {
    hide Choice, PolicyForbids, ObligationOf, Contested, Disturbed;
  }

  /** In every bucket each of these counters is the number of planned stages that
      came to it. */
  lemma StagesMean(x: View, n: map<Id, nat>, g: Scope, c: Counter)
    requires Ready(x.bound, x.profile) && RecordsOk(x) && CountsStages(c)
    ensures Total(x, n, g, c) == |StagesThat(x, g, c)|
  {
    hide Ready, RecordsOk, Delta, CameTo, InScope, CountsStages;
    var ss, part, f := SlotsIn(x.bound, g), StagesThat(x, g, c), DeltaOf(x, n, c);
    forall s | s in ss ensures f(s) == Indicator(CameTo(x, s, c)) { StageCounts(x, n, s, c); }
    SumSubset(ss, part, f);
    SumOnes(part, f);
  }

  // ---------- the attempts of a bucket ----------

  ghost function AttemptsOf(x: View): Slot -> set<Id> { s => At(x, KeyAt(s)) }

  /** The records counted at the planned stages of a bucket. */
  ghost function AttemptsIn(x: View, g: Scope): set<Id> { Joined(SlotsIn(x.bound, g), AttemptsOf(x)) }

  lemma AttemptsApart(x: View, s: Slot, t: Slot)
    requires Ready(x.bound, x.profile) && s in Slots(x.bound) && t in Slots(x.bound) && s != t
    ensures AttemptsOf(x)(s) !! AttemptsOf(x)(t)
  {
    hide Ready, Slots, RejectionOf;
    ReadyBound(x.bound, x.profile);
    if KeyAt(s) == KeyAt(t) { SameKeySameSlot(x.bound, s, t); }
  }

  /** Every delivery of an accepted record is counted as an attempt. */
  lemma AttemptsMean(x: View, n: map<Id, nat>, g: Scope)
    requires Ready(x.bound, x.profile)
    ensures Total(x, n, g, AttemptCount) == SumSet(AttemptsIn(x, g), DeliveriesOf(n))
  {
    hide Ready, At, DeliveriesOf, InScope, BaseDelta;
    var ss := SlotsIn(x.bound, g);
    forall s, t | s in ss && t in ss && s != t ensures AttemptsOf(x)(s) !! AttemptsOf(x)(t) { AttemptsApart(x, s, t); }
    forall s | s in ss ensures DeltaOf(x, n, AttemptCount)(s) == SumSet(AttemptsOf(x)(s), DeliveriesOf(n)) {
      AttemptDelta(x, n, s);
    }
    SumJoined(ss, AttemptsOf(x), DeliveriesOf(n), DeltaOf(x, n, AttemptCount));
  }

  predicate CountsAttempts(c: Counter) { c.AttemptCount? || c.RetryCount? || c.FaultCount? }

  lemma OnlyBase(x: View, n: map<Id, nat>, s: Slot, c: Counter)
    requires CountsAttempts(c)
    ensures Delta(x, n, s, c) == BaseDelta(x, n, s, c)
  {
    hide Choice, BaseDelta, ConflictAt, FaultAt, ErrorAt, OutcomeDelta, DeliveriesOf;
    if Choice(x, KeyAt(s)).Some? && Choice(x, KeyAt(s)).value.result.Some? {
      NoAttempts(x, s, Choice(x, KeyAt(s)).value.result.value, c);
    }
  }

  lemma NoAttempts(x: View, s: Slot, r: NormalizedResult, c: Counter)
    requires CountsAttempts(c)
    ensures OutcomeDelta(x, s, r, c) == 0
  {
    hide CountsForScore, StageForbids, CaseOf;
  }

  lemma AttemptDelta(x: View, n: map<Id, nat>, s: Slot)
    ensures Delta(x, n, s, AttemptCount) == SumSet(At(x, KeyAt(s)), DeliveriesOf(n))
  {
    hide Delta, At, DeliveriesOf, IsScored, Unrecovered, ObligationOf;
    OnlyBase(x, n, s, AttemptCount);
  }

  /** The attempts of a kind a bucket counts. */
  datatype AttemptKind = Retries | Faults

  predicate OfKind(r: Record, kind: AttemptKind) {
    match kind
    case Retries => r.retryOf.Some?
    case Faults => r.status == Failed || r.status == Timeout || r.status == Cancelled || r.status == UnknownStatus
  }

  function CounterOf(kind: AttemptKind): Counter { if kind.Retries? then RetryCount else FaultCount }

  ghost function ThoseOf(x: View, ids: set<Id>, kind: AttemptKind): set<Id> {
    set id | id in ids && id in x.facts.records && OfKind(x.facts.records[id], kind)
  }

  ghost function KindsOf(x: View, kind: AttemptKind): Slot -> set<Id> { s => ThoseOf(x, At(x, KeyAt(s)), kind) }

  lemma KindDelta(x: View, n: map<Id, nat>, s: Slot, kind: AttemptKind)
    ensures Delta(x, n, s, CounterOf(kind)) == |KindsOf(x, kind)(s)|
  {
    hide Delta, At, DeliveriesOf, IsScored, Unrecovered, ObligationOf;
    OnlyBase(x, n, s, CounterOf(kind));
    if kind.Retries? {
      RetriesAre(x, At(x, KeyAt(s)));
    } else {
      FaultsAre(x, At(x, KeyAt(s)));
    }
  }

  lemma RetriesAre(x: View, ids: set<Id>)
    requires ids <= x.facts.records.Keys
    ensures ThoseOf(x, ids, Retries) == set id | id in ids && x.facts.records[id].retryOf.Some?
  {
  }

  lemma FaultsAre(x: View, ids: set<Id>)
    requires ids <= x.facts.records.Keys
    ensures ThoseOf(x, ids, Faults) == set id | id in ids && Faulty(x.facts.records[id])
  {
    forall r: Record ensures Faulty(r) <==> OfKind(r, Faults) {
      var a := r.status;
      assert a.Completed? || a.Failed? || a.Timeout? || a.Cancelled? || a.UnknownStatus?;
    }
  }

  lemma KindsApart(x: View, kind: AttemptKind, s: Slot, t: Slot)
    requires Ready(x.bound, x.profile) && s in Slots(x.bound) && t in Slots(x.bound) && s != t
    ensures KindsOf(x, kind)(s) !! KindsOf(x, kind)(t)
  {
    hide Ready, Slots, At, OfKind;
    AttemptsApart(x, s, t);
  }

  lemma KindsJoined(x: View, g: Scope, kind: AttemptKind)
    ensures Joined(SlotsIn(x.bound, g), KindsOf(x, kind)) == ThoseOf(x, AttemptsIn(x, g), kind)
  {
    hide At, OfKind, SlotsIn;
    var ss, ids := SlotsIn(x.bound, g), AttemptsIn(x, g);
    forall id ensures id in Joined(ss, KindsOf(x, kind)) <==> id in ThoseOf(x, ids, kind) {
      if s :| s in ss && id in KindsOf(x, kind)(s) { assert id in AttemptsOf(x)(s); }
      if id in ids {
        var s :| s in ss && id in AttemptsOf(x)(s);
        assert OfKind(x.facts.records[id], kind) ==> id in KindsOf(x, kind)(s);
      }
    }
  }

  function One(id: Id): nat { 1 }

  /** Retries and faults are counted once for each accepted record, however often
      it was delivered. */
  lemma KindsMean(x: View, n: map<Id, nat>, g: Scope, kind: AttemptKind)
    requires Ready(x.bound, x.profile)
    ensures Total(x, n, g, CounterOf(kind)) == |ThoseOf(x, AttemptsIn(x, g), kind)|
  {
    hide Ready, At, InScope, Delta, CounterOf, KindsOf, ThoseOf, AttemptsIn, Joined;
    var ss, f := SlotsIn(x.bound, g), DeltaOf(x, n, CounterOf(kind));
    forall s, t | s in ss && t in ss && s != t ensures KindsOf(x, kind)(s) !! KindsOf(x, kind)(t) {
      KindsApart(x, kind, s, t);
    }
    forall s | s in ss ensures f(s) == SumSet(KindsOf(x, kind)(s), One) {
      KindDelta(x, n, s, kind);
      SumOnes(KindsOf(x, kind)(s), One);
    }
    SumJoined(ss, KindsOf(x, kind), One, f);
    KindsJoined(x, g, kind);
    SumOnes(ThoseOf(x, AttemptsIn(x, g), kind), One);
  }

  /** Every stage that rests on a record counts its deliveries: one of them as the
      result and the others as duplicates. */
  lemma DeliveriesAdd(x: View, n: map<Id, nat>, g: Scope)
    requires Ready(x.bound, x.profile) && RecordsOk(x) && n.Keys == x.facts.records.Keys
    requires forall id :: id in n ==> n[id] >= 1
    ensures Total(x, n, g, DeliveryCount) == Total(x, n, g, CompleteCount) + Total(x, n, g, DuplicateDeliveries)
  {
    hide Ready, RecordsOk, Delta, InScope;
    var ss := SlotsIn(x.bound, g);
    forall s | s in ss
      ensures DeltaOf(x, n, DeliveryCount)(s)
              == DeltaOf(x, n, CompleteCount)(s) + DeltaOf(x, n, DuplicateDeliveries)(s)
    {
      DeliveryDelta(x, n, s);
    }
    SumPlus(ss, DeltaOf(x, n, CompleteCount), DeltaOf(x, n, DuplicateDeliveries), DeltaOf(x, n, DeliveryCount));
  }

  /** The deliveries a stage counts are those of the record it rests on. */
  lemma DeliveryDelta(x: View, n: map<Id, nat>, s: Slot)
    requires Ready(x.bound, x.profile) && RecordsOk(x) && s in Slots(x.bound) && n.Keys == x.facts.records.Keys
    requires forall id :: id in n ==> n[id] >= 1
    ensures Delta(x, n, s, DeliveryCount)
            == if Choice(x, KeyAt(s)).None? then 0 else DeliveriesOf(n)(Choice(x, KeyAt(s)).value.attemptId)
    ensures Delta(x, n, s, DeliveryCount) == Delta(x, n, s, CompleteCount) + Delta(x, n, s, DuplicateDeliveries)
  {
    hide Ready, RecordsOk, Slots, Choice, At, ConflictAt, FaultAt, ErrorAt, IsScored, Unrecovered, ObligationOf, OutcomeDelta;
    if Choice(x, KeyAt(s)).Some? { ChoiceSound(x, s); }
  }

  // ---------- trials ----------

  /** A stage rests on a result that decides it. */
  ghost predicate Decided(x: View, s: Slot) {
    var choice := Choice(x, KeyAt(s));
    && choice.Some? && choice.value.result.Some?
    && var r := choice.value.result.value;
    match ObligationOf(x.bound, s.entry).kind
    case ConstraintKind => r.observation == Some(Pass) || r.observation == Some(Fail)
    case MutationKind => r.mutation == Some(Killed) || r.mutation == Some(Survived) || r.mutation == Some(NoCoverage)
    case LlmMetricKind => r.detection == Some(Detect) || r.detection == Some(Allow)
  }

  /** A stage started no earlier than the one before it had finished. */
  ghost predicate InTurn(x: View, e: Entry, i: nat)
    requires i + 1 < |e.stageIds|
  {
    var first, second := Choice(x, KeyAt(Slot(e, e.stageIds[i]))), Choice(x, KeyAt(Slot(e, e.stageIds[i + 1])));
    && first.Some? && second.Some?
    && first.value.finishedAt.Some? && first.value.finishedAt.value <= second.value.startedAt
  }

  lemma DecidedIs(x: View, s: Slot)
    requires Ready(x.bound, x.profile) && RecordsOk(x) && s in Slots(x.bound)
    ensures Decided(x, s) <==> Choice(x, KeyAt(s)).Some? && Choice(x, KeyAt(s)).value.result.Some?
                               && Definite(Choice(x, KeyAt(s)).value.result.value)
  {
    hide Ready, RecordsOk, Slots, Choice;
    if Choice(x, KeyAt(s)).Some? {
      ChoiceSound(x, s);
      var r := Choice(x, KeyAt(s)).value.result.value;
      if r.observation.Some? { var o := r.observation.value; assert o.Pass? || o.Fail? || o.UnknownCheck?; }
      if r.detection.Some? { var d := r.detection.value; assert d.Detect? || d.Allow? || d.Indeterminate?; }
      if r.mutation.Some? { var m := r.mutation.value; assert m.Killed? || m.Survived? || m.NoCoverage? || m.MutationError?; }
    }
  }

  lemma InTurnIs(x: View, e: Entry, i: nat)
    requires i + 1 < |e.stageIds| && ChoiceAt(x, e, i).Some? && ChoiceAt(x, e, i + 1).Some?
    ensures InTurn(x, e, i) <==> !OutOfOrder(x, e, i)
  {
    hide Choice;
  }

  /** A trial is scored exactly when every stage of its plan rests on a result that
      decides it and the stages ran one after the other. */
  lemma ScorableExactly(x: View, e: Entry)
    requires Ready(x.bound, x.profile) && RecordsOk(x) && e in x.bound.entries
    ensures Scorable(x, e) <==>
              && (forall id :: id in e.stageIds ==> Decided(x, Slot(e, id)))
              && (forall i: nat :: i + 1 < |e.stageIds| ==> InTurn(x, e, i))
  {
    hide Ready, RecordsOk, Decided, InTurn, OutOfOrder, ChoiceAt, Definite;
    forall i | 0 <= i < |e.stageIds|
      ensures Decided(x, Slot(e, e.stageIds[i]))
              <==> ChoiceAt(x, e, i).Some? && ChoiceAt(x, e, i).value.result.Some?
                   && Definite(ChoiceAt(x, e, i).value.result.value)
    {
      SlotOf(x.bound, e, i);
      DecidedIs(x, Slot(e, e.stageIds[i]));
      ChoiceOfSlot(x, e, i);
    }
    if Complete(x, e) {
      forall i: nat | i + 1 < |e.stageIds| ensures InTurn(x, e, i) <==> !OutOfOrder(x, e, i) { InTurnIs(x, e, i); }
    }
  }

  lemma ChoiceOfSlot(x: View, e: Entry, i: nat)
    requires i < |e.stageIds|
    ensures ChoiceAt(x, e, i) == Choice(x, KeyAt(Slot(e, e.stageIds[i])))
  {
  }

  /** A trial that could not be scored, with an attempt that failed. */
  ghost predicate Lost(x: View, e: Entry) {
    !Scorable(x, e) && exists id :: id in e.stageIds && Disturbed(x, KeyAt(Slot(e, id)))
  }

  lemma LostIs(x: View, e: Entry)
    requires RecordsOk(x)
    ensures Unrecovered(x, e) <==> Lost(x, e)
  {
    hide RecordsOk, Scorable, FaultAt, ErrorAt, Disturbed;
    forall id ensures Disturbed(x, KeyAt(Slot(e, id))) <==> FaultAt(x, KeyAt(Slot(e, id))) || ErrorAt(x, KeyAt(Slot(e, id))) {
      DisturbedIs(x, KeyAt(Slot(e, id)));
    }
  }

  ghost function LostTrials(x: View, g: Scope): set<Entry> {
    set e | e in x.bound.entries && InScope(x.bound, e, g) && ObligationOf(x.bound, e).kind == MutationKind && Lost(x, e)
  }

  lemma NoErrorOutcome(x: View, s: Slot)
    requires Ready(x.bound, x.profile) && RecordsOk(x) && s in Slots(x.bound)
    ensures Outcome(x, s, MutationErrorCount) == 0
  {
    hide Ready, RecordsOk, Slots, Choice, StageForbids, CaseOf, ObligationOf, OutcomeDelta, CountsForScore;
    if Choice(x, KeyAt(s)).Some? {
      ChoiceSound(x, s);
      OutcomeByKind(x, s, MutationErrorCount);
      var r := Choice(x, KeyAt(s)).value.result.value;
      if r.mutation.Some? { var m := r.mutation.value; assert m.Killed? || m.Survived? || m.NoCoverage? || m.MutationError?; }
    }
  }

  /** The mutation errors of a bucket are its lost mutation trials. */
  lemma MutationErrorsMean(x: View, n: map<Id, nat>, g: Scope)
    requires Ready(x.bound, x.profile) && RecordsOk(x)
    ensures Total(x, n, g, MutationErrorCount) == |LostTrials(x, g)|
  {
    hide Ready, RecordsOk, Delta, Outcome, IsScored, Lost, CaseOf, ObligationOf, InScope, Unrecovered;
    var ss, trials := SlotsIn(x.bound, g), LostTrials(x, g);
    forall s | s in ss ensures DeltaOf(x, n, MutationErrorCount)(s) == Indicator(IsScored(x, s) && s.entry in trials) {
      EntryPlanned(x.bound, s);
      ErrorDelta(x, n, s);
      NoErrorOutcome(x, s);
      LostIs(x, s.entry);
    }
    forall e | e in trials ensures Slot(e, CaseOf(x.bound, e).scoredStageId) in ss {
      ScoredSlotPlanned(x.bound, x.profile, e);
    }
    ScoredSum(x, ss, trials, DeltaOf(x, n, MutationErrorCount));
  }
}
