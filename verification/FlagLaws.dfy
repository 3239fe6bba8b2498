/** What each flag of an aggregation means, in terms of its counts, its plan and
    its records. */
module FlagLaws {
  import opened Common
  import opened Attempts
  import opened AggregationSpec
  import opened DeliveryLaws
  import opened AggregationLaws
  import opened AggregationCounts
  import opened AggregationRun
  import opened ComparisonLaws
  import opened CountLaws

  // ---------- counts and flags ----------

  /** A counter of a bucket moves exactly when some stage of it came to that. */
  lemma SomeStage(x: View, n: map<Id, nat>, g: Scope, c: Counter)
    requires Ready(x.bound, x.profile) && RecordsOk(x) && CountsStages(c)
    ensures Total(x, n, g, c) > 0 <==> exists s :: s in SlotsIn(x.bound, g) && CameTo(x, s, c)
  {
    hide Ready, RecordsOk, Total, CameTo, SlotsIn, CountsStages;
    StagesMean(x, n, g, c);
    if s :| s in SlotsIn(x.bound, g) && CameTo(x, s, c) {
      assert s in StagesThat(x, g, c);
    }
    if StagesThat(x, g, c) != {} {
      var s :| s in StagesThat(x, g, c);
    }
  }

  lemma InOwnBuckets(b: Bound, s: Slot)
    requires s in Slots(b)
    ensures s in SlotsIn(b, VariantScope(s.entry.variant))
    ensures s in SlotsIn(b, ObligationScope(s.entry.variant, s.entry.obligationId))
  {
    hide Slots, ObligationOf, CaseOf;
  }

  lemma BucketMember(b: Bound, g: Scope, s: Slot)
    requires s in SlotsIn(b, g)
    ensures s in Slots(b) && (g.ObligationScope? ==> s.entry.obligationId == g.obligationId)
  {
    hide Slots, ObligationOf, CaseOf;
  }

  lemma CameToResult(x: View, s: Slot, c: Counter)
    requires Choice(x, KeyAt(s)).Some? && Choice(x, KeyAt(s)).value.result.Some?
    ensures CameTo(x, s, c) <==>
              ResultCounts(ObligationOf(x.bound, s.entry), PolicyForbids(x.bound, s), Choice(x, KeyAt(s)).value.result.value, c)
  {
    hide Choice, PolicyForbids, ObligationOf, ResultCounts;
  }

  lemma CameToNothing(x: View, s: Slot, c: Counter)
    requires Choice(x, KeyAt(s)).None?
    ensures CameTo(x, s, ConflictCount) || CameTo(x, s, ErrorCount) || CameTo(x, s, MissingCount)
    ensures c.ForbiddenCount? || c.ConstraintFail? ==> !CameTo(x, s, c)
  {
    hide Choice, PolicyForbids, ObligationOf, ResultCounts, Contested, Disturbed;
  }

  lemma BreakingResult(o: Obligation, forbids: bool, r: Record)
    requires r.result.Some? && ValidResult(r.result.value) && r.result.value.mode == Some(ExpectedMode(o.kind))
    ensures Violation(r) && forbids <==> ResultCounts(o, forbids, r.result.value, ForbiddenCount)
    ensures FailedConstraint(r) <==> ResultCounts(o, forbids, r.result.value, ConstraintFail)
  {
  }

  lemma OpenIs(x: View, s: Slot)
    requires Ready(x.bound, x.profile) && RecordsOk(x) && s in Slots(x.bound)
    ensures OpenViolation(x, s) <==> CameTo(x, s, ForbiddenCount)
    ensures Choice(x, KeyAt(s)).Some? && FailedConstraint(Choice(x, KeyAt(s)).value) <==> CameTo(x, s, ConstraintFail)
  {
    hide Ready, RecordsOk, Slots, Choice, PolicyForbids, StageForbids, ObligationOf, CameTo, ResultCounts, Violation;
    hide FailedConstraint, ValidResult, Definitive, ExpectedMode;
    ForbidsIs(x.bound, x.profile, s);
    if Choice(x, KeyAt(s)).Some? {
      ChoiceSound(x, s);
      CameToResult(x, s, ForbiddenCount);
      CameToResult(x, s, ConstraintFail);
      BreakingResult(ObligationOf(x.bound, s.entry), PolicyForbids(x.bound, s), Choice(x, KeyAt(s)).value);
    } else {
      CameToNothing(x, s, ForbiddenCount);
      CameToNothing(x, s, ConstraintFail);
    }
  }

  /** Some stage openly violates a policy exactly when a variant counts a forbidden
      violation. */
  lemma OpenExactly(x: View, n: map<Id, nat>)
    requires Ready(x.bound, x.profile) && RecordsOk(x)
    ensures (exists s :: OpenViolation(x, s)) <==>
              Total(x, n, VariantScope(Candidate), ForbiddenCount) + Total(x, n, VariantScope(Baseline), ForbiddenCount) > 0
  {
    hide Ready, RecordsOk, Total, CameTo, SlotsIn;
    assert forall s :: OpenViolation(x, s) ==> s in Slots(x.bound);
    hide OpenViolation, Slots;
    SomeStage(x, n, VariantScope(Candidate), ForbiddenCount);
    SomeStage(x, n, VariantScope(Baseline), ForbiddenCount);
    if s :| OpenViolation(x, s) {
      OpenIs(x, s);
      InOwnBuckets(x.bound, s);
      assert s.entry.variant == Candidate || s.entry.variant == Baseline;
    }
    if s :| s in SlotsIn(x.bound, VariantScope(Candidate)) && CameTo(x, s, ForbiddenCount) {
      BucketMember(x.bound, VariantScope(Candidate), s);
      OpenIs(x, s);
    }
    if s :| s in SlotsIn(x.bound, VariantScope(Baseline)) && CameTo(x, s, ForbiddenCount) {
      BucketMember(x.bound, VariantScope(Baseline), s);
      OpenIs(x, s);
    }
  }

  // ---------- records in conflict ----------

  /** The record was delivered under an id with several contents, or is one of
      several that stand against each other. */
  ghost predicate Contradictory(x: View, r: Record) {
    || r in x.facts.conflicting
    || exists i, j :: Stands(x, KeyOf(r), i) && Stands(x, KeyOf(r), j) && i != j && x.facts.records[i] == r
  }

  /** Its own obligation forbids violations, or the first stage of its own case
      with its stage id does. */
  ghost predicate OwnPolicyForbids(b: Bound, r: Record) {
    && r.binding.obligationId in b.obligations
    && (b.obligations[r.binding.obligationId].eventPolicy == Forbidden
        || (r.binding.caseId in b.cases
            && exists i :: FirstStage(b.cases[r.binding.caseId].stages, r.binding.stageId, i)
                           && b.cases[r.binding.caseId].stages[i].eventPolicy == Forbidden))
  }

  ghost predicate FirstStage(stages: seq<Stage>, id: Id, i: int) {
    0 <= i < |stages| && stages[i].stageId == id && forall j :: 0 <= j < i ==> stages[j].stageId != id
  }

  /** The two results that break a forbidding policy. */
  predicate Breaks(r: Record) {
    && r.result.Some?
    && match r.result.value.mode
       case Some(ConstraintMode) => r.result.value.observation == Some(Fail)
       case Some(LlmMode) => r.result.value.deviation == Some(true)
       case _ => false
  }

  ghost predicate BrokenInConflict(x: View, r: Record) {
    Contradictory(x, r) && OwnPolicyForbids(x.bound, r) && Breaks(r)
  }

  lemma {:induction false} FirstFound(stages: seq<Stage>, id: Id, i: int)
    requires FirstStage(stages, id, i)
    ensures FindStage(stages, id) == Some(stages[i])
    decreases |stages|
  {
    if i > 0 {
      assert stages[0].stageId != id;
      assert FirstStage(stages[1..], id, i - 1) by {
        forall j | 0 <= j < i - 1 ensures stages[1..][j].stageId != id { assert stages[j + 1].stageId != id; }
      }
      FirstFound(stages[1..], id, i - 1);
    }
  }

  lemma {:induction false} FoundFirst(stages: seq<Stage>, id: Id) returns (i: int)
    requires FindStage(stages, id).Some?
    ensures FirstStage(stages, id, i)
    decreases |stages|
  {
    if stages[0].stageId == id {
      i := 0;
    } else {
      i := FoundFirst(stages[1..], id);
      i := i + 1;
      forall j | 0 <= j < i ensures stages[j].stageId != id {
        if j > 0 { assert stages[1..][j - 1].stageId != id; }
      }
    }
  }

  lemma OwnPolicyIs(b: Bound, r: Record)
    ensures ForbiddenFor(b, r) <==> OwnPolicyForbids(b, r)
  {
    if r.binding.caseId in b.cases {
      var stages, id := b.cases[r.binding.caseId].stages, r.binding.stageId;
      hide FirstStage;
      if FindStage(stages, id).Some? {
        var i := FoundFirst(stages, id);
        FirstFound(stages, id, i);
        assert FirstStage(stages, id, i) && 0 <= i < |stages| by { InRange(stages, id, i); }
      }
      if i :| FirstStage(stages, id, i) && stages[i].eventPolicy == Forbidden { FirstFound(stages, id, i); }
    }
  }

  lemma InRange(stages: seq<Stage>, id: Id, i: int)
    requires FirstStage(stages, id, i)
    ensures 0 <= i < |stages|
  {
  }

  lemma ContradictoryIs(x: View, r: Record)
    requires RecordsOk(x)
    ensures ConflictRecord(x, r) <==> Contradictory(x, r)
  {
    hide RecordsOk, Stands, ValidAt;
    var k := KeyOf(r);
    forall id ensures id in ValidAt(x, k) <==> Stands(x, k, id) { StandsIs(x, k, id); }
    if id :| id in ValidAt(x, k) && x.facts.records[id] == r && ConflictAt(x, k) {
      var i, j :| i in ValidAt(x, k) && j in ValidAt(x, k) && i != j;
      var other := if i == id then j else i;
      assert Stands(x, k, id) && Stands(x, k, other) && id != other;
    }
    if i, j :| Stands(x, k, i) && Stands(x, k, j) && i != j && x.facts.records[i] == r {
      assert ConflictAt(x, k);
    }
  }

  lemma HiddenIs(x: View, r: Record)
    requires RecordsOk(x)
    ensures HiddenViolation(x, r) <==> BrokenInConflict(x, r)
  {
    hide RecordsOk, ConflictRecord, Contradictory, ForbiddenFor, OwnPolicyForbids;
    ContradictoryIs(x, r);
    OwnPolicyIs(x.bound, r);
  }

  // ---------- the flags ----------

  /** A forbidden violation is flagged exactly when a variant counts one or a
      contradictory record breaks its own policy. */
  lemma ForbiddenExactly(x: View, n: map<Id, nat>)
    requires Ready(x.bound, x.profile) && RecordsOk(x)
    ensures ForbiddenViolation(x) <==>
              || Total(x, n, VariantScope(Candidate), ForbiddenCount) + Total(x, n, VariantScope(Baseline), ForbiddenCount) > 0
              || exists r :: BrokenInConflict(x, r)
  {
    hide Ready, RecordsOk, Total, HiddenViolation, OpenViolation, BrokenInConflict;
    OpenExactly(x, n);
    forall r ensures HiddenViolation(x, r) <==> BrokenInConflict(x, r) { HiddenIs(x, r); }
  }

  /** An obligation of a critical control counts a forbidden violation or a failed
      constraint, whatever its policy. */
  ghost predicate CriticallyBroken(x: View, n: map<Id, nat>, v: Variant, o: Id) {
    && o in x.bound.obligations && x.bound.obligations[o].critical
    && Total(x, n, ObligationScope(v, o), ForbiddenCount) + Total(x, n, ObligationScope(v, o), ConstraintFail) > 0
  }

  lemma BrokenStage(x: View, n: map<Id, nat>, s: Slot)
    requires Ready(x.bound, x.profile) && RecordsOk(x) && s in Slots(x.bound) && ObligationOf(x.bound, s.entry).critical
    requires CameTo(x, s, ForbiddenCount) || CameTo(x, s, ConstraintFail)
    ensures CriticallyBroken(x, n, s.entry.variant, s.entry.obligationId)
  {
    hide Ready, RecordsOk, Total, CameTo, SlotsIn, Slots, ObligationOf;
    var g := ObligationScope(s.entry.variant, s.entry.obligationId);
    InOwnBuckets(x.bound, s);
    EntryCovered(x.bound, x.profile, s);
    SomeStage(x, n, g, ForbiddenCount);
    SomeStage(x, n, g, ConstraintFail);
  }

  lemma StageBroken(x: View, n: map<Id, nat>, v: Variant, o: Id) returns (s: Slot)
    requires Ready(x.bound, x.profile) && RecordsOk(x) && CriticallyBroken(x, n, v, o)
    ensures s in Slots(x.bound) && ObligationOf(x.bound, s.entry).critical
    ensures CameTo(x, s, ForbiddenCount) || CameTo(x, s, ConstraintFail)
  {
    hide Ready, RecordsOk, Total, CameTo, SlotsIn, Slots, ObligationOf;
    var g := ObligationScope(v, o);
    SomeStage(x, n, g, ForbiddenCount);
    SomeStage(x, n, g, ConstraintFail);
    s :| s in SlotsIn(x.bound, g) && (CameTo(x, s, ForbiddenCount) || CameTo(x, s, ConstraintFail));
    BucketMember(x.bound, g, s);
    EntryCovered(x.bound, x.profile, s);
  }

  /** A critical violation is flagged exactly when an obligation of a critical
      control is broken in the counts or by a contradictory record. */
  lemma CriticalExactly(x: View, n: map<Id, nat>)
    requires Ready(x.bound, x.profile) && RecordsOk(x)
    ensures CriticalViolation(x) <==>
              || (exists v, o :: CriticallyBroken(x, n, v, o))
              || (exists r :: BrokenInConflict(x, r) && r.binding.obligationId in x.bound.obligations
                              && x.bound.obligations[r.binding.obligationId].critical)
  {
    hide Ready, RecordsOk, CriticallyBroken, CameTo, ConflictRecord, Violation, FailedConstraint, Choice, ObligationOf;
    hide BrokenInConflict;
    forall r ensures HiddenViolation(x, r) <==> BrokenInConflict(x, r) { HiddenIs(x, r); }
    forall s | s in Slots(x.bound)
      ensures OpenViolation(x, s) <==> CameTo(x, s, ForbiddenCount)
      ensures Choice(x, KeyAt(s)).Some? && FailedConstraint(Choice(x, KeyAt(s)).value) <==> CameTo(x, s, ConstraintFail)
    {
      OpenIs(x, s);
    }
    assert forall s :: OpenViolation(x, s) ==> s in Slots(x.bound);
    assert forall r :: HiddenViolation(x, r) ==> r.binding.obligationId in x.bound.obligations;
    hide OpenViolation, HiddenViolation, Slots;
    if s :| s in Slots(x.bound) && ObligationOf(x.bound, s.entry).critical
            && (CameTo(x, s, ForbiddenCount) || CameTo(x, s, ConstraintFail)) {
      BrokenStage(x, n, s);
    }
    if v, o :| CriticallyBroken(x, n, v, o) {
      var s := StageBroken(x, n, v, o);
      assert CriticalViolation(x);
    }
  }

  /** Some planned stage of the obligation is not settled: it rests on no record,
      or on one that leaves a verdict open. */
  ghost predicate Unfinished(x: View, n: map<Id, nat>, v: Variant, o: Id) {
    var g := ObligationScope(v, o);
    || Total(x, n, g, CompleteCount) < Total(x, n, g, PlannedCount)
    || Total(x, n, g, ConstraintUnknown) > 0 || Total(x, n, g, DetectionMissing) > 0 || Total(x, n, g, DeviationMissing) > 0
  }

  ghost predicate LeftOpen(x: View, s: Slot) {
    || CameTo(x, s, ConflictCount) || CameTo(x, s, ErrorCount) || CameTo(x, s, MissingCount)
    || CameTo(x, s, ConstraintUnknown) || CameTo(x, s, DetectionMissing) || CameTo(x, s, DeviationMissing)
  }

  lemma OpenResult(o: Obligation, forbids: bool, r: NormalizedResult)
    requires ValidResult(r) && r.mode == Some(ExpectedMode(o.kind))
    ensures UnsettledResult(r) <==>
              || ResultCounts(o, forbids, r, ConstraintUnknown) || ResultCounts(o, forbids, r, DetectionMissing)
              || ResultCounts(o, forbids, r, DeviationMissing)
    ensures !ResultCounts(o, forbids, r, ConflictCount) && !ResultCounts(o, forbids, r, ErrorCount)
            && !ResultCounts(o, forbids, r, MissingCount)
  {
  }

  lemma LeftOpenIs(x: View, s: Slot)
    requires Ready(x.bound, x.profile) && RecordsOk(x) && s in Slots(x.bound)
    ensures Unsettled(x, s) <==> LeftOpen(x, s)
  {
    hide Ready, RecordsOk, Slots, Choice, PolicyForbids, ObligationOf, CameTo, ResultCounts, UnsettledResult, ValidResult;
    hide Definitive, ExpectedMode;
    if Choice(x, KeyAt(s)).Some? {
      ChoiceSound(x, s);
      CameToResult(x, s, ConflictCount);
      CameToResult(x, s, ErrorCount);
      CameToResult(x, s, MissingCount);
      CameToResult(x, s, ConstraintUnknown);
      CameToResult(x, s, DetectionMissing);
      CameToResult(x, s, DeviationMissing);
      OpenResult(ObligationOf(x.bound, s.entry), PolicyForbids(x.bound, s), Choice(x, KeyAt(s)).value.result.value);
    } else {
      CameToNothing(x, s, MissingCount);
    }
  }

  lemma UnfinishedIs(x: View, n: map<Id, nat>, v: Variant, o: Id)
    requires Ready(x.bound, x.profile) && RecordsOk(x)
    ensures Unfinished(x, n, v, o) <==> exists s :: s in SlotsIn(x.bound, ObligationScope(v, o)) && LeftOpen(x, s)
  {
    hide Ready, RecordsOk, Total, CameTo, SlotsIn;
    var g := ObligationScope(v, o);
    BucketConserved(x, n, g);
    SomeStage(x, n, g, ConflictCount);
    SomeStage(x, n, g, ErrorCount);
    SomeStage(x, n, g, MissingCount);
    SomeStage(x, n, g, ConstraintUnknown);
    SomeStage(x, n, g, DetectionMissing);
    SomeStage(x, n, g, DeviationMissing);
  }

  lemma UnsettledCounts(x: View, n: map<Id, nat>, s: Slot)
    requires Ready(x.bound, x.profile) && RecordsOk(x) && s in Slots(x.bound) && Unsettled(x, s)
    ensures Unfinished(x, n, s.entry.variant, s.entry.obligationId)
  {
    hide Ready, RecordsOk, Unfinished, Unsettled, LeftOpen, SlotsIn, Slots;
    LeftOpenIs(x, s);
    InOwnBuckets(x.bound, s);
    UnfinishedIs(x, n, s.entry.variant, s.entry.obligationId);
  }

  lemma CountsUnsettled(x: View, n: map<Id, nat>, v: Variant, o: Id) returns (s: Slot)
    requires Ready(x.bound, x.profile) && RecordsOk(x) && Unfinished(x, n, v, o)
    ensures s in Slots(x.bound) && s.entry.obligationId == o && Unsettled(x, s)
  {
    hide Ready, RecordsOk, Unfinished, Unsettled, LeftOpen, SlotsIn, Slots;
    UnfinishedIs(x, n, v, o);
    s :| s in SlotsIn(x.bound, ObligationScope(v, o)) && LeftOpen(x, s);
    BucketMember(x.bound, ObligationScope(v, o), s);
    LeftOpenIs(x, s);
  }

  /** The issues that leave the evidence of a run incomplete: all but a mismatch of
      status and result, a wrong mode, a second retry and a hidden violation. */
  predicate Blocking(code: IssueCode) {
    code != STATUS_RESULT_MISMATCH && code != RESULT_MODE_MISMATCH && code != RETRY_LIMIT && code != FORBIDDEN_VIOLATION
  }

  lemma BlockingIs(code: IssueCode)
    ensures BlocksEvidence(code) <==> Blocking(code)
  {
  }

  ghost predicate RequiredUnfinished(x: View, n: map<Id, nat>, v: Variant, o: Id) {
    o in x.bound.obligations && x.bound.obligations[o].required && Unfinished(x, n, v, o)
  }

  /** Required evidence is missing exactly when a required obligation is unfinished
      in the counts or an issue leaves the evidence incomplete. */
  lemma RequiredExactly(x: View, order: seq<Id>, n: map<Id, nat>)
    requires Ready(x.bound, x.profile) && RecordsOk(x)
    ensures RequiredMissing(x, order) <==>
              || (exists v, o :: RequiredUnfinished(x, n, v, o))
              || (exists i :: Reported(x, order, i) && Blocking(i.code))
  {
    hide Ready, RecordsOk, Unfinished, Unsettled, Reported, Slots, ObligationOf, BlocksEvidence, Blocking;
    forall c ensures BlocksEvidence(c) <==> Blocking(c) { BlockingIs(c); }
    if s :| s in Slots(x.bound) && ObligationOf(x.bound, s.entry).required && Unsettled(x, s) {
      UnsettledCounts(x, n, s);
      EntryCovered(x.bound, x.profile, s);
      assert RequiredUnfinished(x, n, s.entry.variant, s.entry.obligationId);
    }
    if v, o :| RequiredUnfinished(x, n, v, o) {
      var s := CountsUnsettled(x, n, v, o);
      EntryCovered(x.bound, x.profile, s);
    }
  }

  /** Critical evidence is missing exactly when a required obligation of a critical
      control is unfinished or the stages of a trial of one ran out of order. */
  lemma CriticalMissingExactly(x: View, order: seq<Id>, n: map<Id, nat>)
    requires Ready(x.bound, x.profile) && RecordsOk(x)
    ensures CriticalMissing(x, order) <==>
              || (exists v, o :: RequiredUnfinished(x, n, v, o) && x.bound.obligations[o].critical)
              || (exists i :: Reported(x, order, i) && i.code == STAGE_ORDER && i.key.obligationId in x.bound.obligations
                              && x.bound.obligations[i.key.obligationId].critical)
  {
    hide Ready, RecordsOk, Unfinished, Unsettled, Reported, Slots, ObligationOf;
    if s :| s in Slots(x.bound) && ObligationOf(x.bound, s.entry).required && ObligationOf(x.bound, s.entry).critical
            && Unsettled(x, s) {
      UnsettledCounts(x, n, s);
      EntryCovered(x.bound, x.profile, s);
      assert RequiredUnfinished(x, n, s.entry.variant, s.entry.obligationId);
    }
    if v, o :| RequiredUnfinished(x, n, v, o) && x.bound.obligations[o].critical {
      var s := CountsUnsettled(x, n, v, o);
      EntryCovered(x.bound, x.profile, s);
    }
  }

  // ---------- a finished aggregation ----------

  ghost function CellOf(a: Aggregation, g: Scope, c: Counter): nat { Get(a.cells, g, c) }

  ghost predicate OpenInCells(a: Aggregation, v: Variant, o: Id) {
    var g := ObligationScope(v, o);
    || CellOf(a, g, CompleteCount) < CellOf(a, g, PlannedCount)
    || CellOf(a, g, ConstraintUnknown) > 0 || CellOf(a, g, DetectionMissing) > 0 || CellOf(a, g, DeviationMissing) > 0
  }

  ghost predicate BrokenInCells(a: Aggregation, v: Variant, o: Id) {
    CellOf(a, ObligationScope(v, o), ForbiddenCount) + CellOf(a, ObligationScope(v, o), ConstraintFail) > 0
  }

  /** The five flags that an aggregation ends with, read off its own counts and
      issues and the contradictory records. */
  lemma FlagsMean(b: Bound, p: Profile, attempts: seq<Record>, a: Aggregation)
    requires Ready(b, p) && AllValid(attempts)
    requires IsAggregation(View(b, p, Fold(attempts).facts), Fold(attempts).order, Fold(attempts).deliveries, a)
    ensures var x := View(b, p, Fold(attempts).facts);
            && (a.integrityFailure <==> a.issues != {})
            && (a.forbiddenViolation <==>
                  || CellOf(a, VariantScope(Candidate), ForbiddenCount) + CellOf(a, VariantScope(Baseline), ForbiddenCount) > 0
                  || exists r :: BrokenInConflict(x, r))
            && (a.criticalViolation <==>
                  || (exists v, o :: o in b.obligations && b.obligations[o].critical && BrokenInCells(a, v, o))
                  || (exists r :: BrokenInConflict(x, r) && r.binding.obligationId in b.obligations
                                  && b.obligations[r.binding.obligationId].critical))
            && (a.requiredMissing <==>
                  || (exists v, o :: o in b.obligations && b.obligations[o].required && OpenInCells(a, v, o))
                  || (exists i :: i in a.issues && Blocking(i.code)))
            && (a.criticalMissing <==>
                  || (exists v, o :: o in b.obligations && b.obligations[o].required && b.obligations[o].critical
                                     && OpenInCells(a, v, o))
                  || (exists i :: i in a.issues && i.code == STAGE_ORDER && i.key.obligationId in b.obligations
                                  && b.obligations[i.key.obligationId].critical))
  {
    hide Ready, AllValid, Fold, RecordsOk, Reported, Total, Get, BrokenInConflict, Blocking;
    hide RequiredMissing, CriticalMissing, ForbiddenViolation, CriticalViolation;
    var x, order, n := View(b, p, Fold(attempts).facts), Fold(attempts).order, Fold(attempts).deliveries;
    FoldRecordsOk(b, p, attempts);
    ForbiddenExactly(x, n);
    CriticalExactly(x, n);
    RequiredExactly(x, order, n);
    CriticalMissingExactly(x, order, n);
    forall v, o
      ensures RequiredUnfinished(x, n, v, o) <==> o in b.obligations && b.obligations[o].required && OpenInCells(a, v, o)
      ensures CriticallyBroken(x, n, v, o) <==> o in b.obligations && b.obligations[o].critical && BrokenInCells(a, v, o)
    {
    }
    hide RequiredUnfinished, CriticallyBroken, OpenInCells, BrokenInCells;
  }
}
