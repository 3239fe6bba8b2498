/** Laws of the counts and flags of an aggregation. */
module AggregationLaws {
  import opened Common
  import opened Attempts
  import opened AggregationSpec
  import opened DeliveryLaws
  import opened Sums

  /** The run is bound and the profile covers its plan. */
  ghost predicate Ready(b: Bound, p: Profile) { WellBound(b) && CheckPlan(p, b).None? }

  ghost predicate RecordsOk(x: View) {
    forall id :: id in x.facts.records ==>
      x.facts.records[id].attemptId == id && ValidRecord(x.facts.records[id])
  }

  // ---------- slots, keys and entries ----------

  lemma EntryPlanned(b: Bound, s: Slot)
    requires s in Slots(b)
    ensures s.entry in b.entries && s.stageId in s.entry.stageIds
  {
  }

  lemma SameTrialSameEntry(b: Bound, d: Entry, e: Entry)
    requires WellBound(b) && d in b.entries && e in b.entries && TrialOf(d) == TrialOf(e)
    ensures d == e
  {
    hide WellBound;
    var i :| 0 <= i < |b.entries| && b.entries[i] == d;
    var j :| 0 <= j < |b.entries| && b.entries[j] == e;
    TrialPlannedOnce(b, i, j);
  }

  lemma TrialPlannedOnce(b: Bound, i: nat, j: nat)
    requires WellBound(b) && i < |b.entries| && j < |b.entries| && TrialOf(b.entries[i]) == TrialOf(b.entries[j])
    ensures i == j
  {
    hide EntryOk;
  }

  lemma SameKeySameSlot(b: Bound, s: Slot, t: Slot)
    requires WellBound(b) && s in Slots(b) && t in Slots(b) && KeyAt(s) == KeyAt(t)
    ensures s == t
  {
    hide WellBound;
    EntryPlanned(b, s);
    EntryPlanned(b, t);
    SameTrialSameEntry(b, s.entry, t.entry);
  }

  lemma EntryCovered(b: Bound, p: Profile, s: Slot)
    requires Ready(b, p) && s in Slots(b)
    ensures Covered(b, p, s.entry) && ObligationOf(b, s.entry) == b.obligations[s.entry.obligationId]
  {
    EntryPlanned(b, s);
    assert EntryOk(b, s.entry);
    if p.PerTarget? {
      assert (s.entry.targetDigest, s.entry.evaluatorDigest) in PlannedPairs(b);
    }
  }

  lemma SlotEntry(b: Bound, p: Profile, s: Slot)
    requires Ready(b, p) && s in Slots(b)
    ensures EntryFor(b, p, KeyAt(s)) == Some(s.entry)
  {
    hide Ready, Covered;
    EntryCovered(b, p, s);
    forall t | t in Slots(b) && KeyAt(t) == KeyAt(s) ensures t == s {
      assert WellBound(b) by { ReadyBound(b, p); }
      SameKeySameSlot(b, s, t);
    }
  }

  lemma ReadyBound(b: Bound, p: Profile)
    requires Ready(b, p)
    ensures WellBound(b)
  {
  }

  /** What is known of the record a slot rests on. */
  lemma ChoiceSound(x: View, s: Slot)
    requires Ready(x.bound, x.profile) && RecordsOk(x) && s in Slots(x.bound)
    requires Choice(x, KeyAt(s)).Some?
    ensures var r := Choice(x, KeyAt(s)).value;
            && KeyOf(r) == KeyAt(s)
            && Definitive(r) && r.result.Some? && ValidResult(r.result.value)
            && r.result.value.mode == Some(ExpectedMode(ObligationOf(x.bound, s.entry).kind))
            && r.attemptId in x.facts.records && x.facts.records[r.attemptId] == r
  {
    hide Ready, ChainOk, BindingMatches, ValidResult;
    var k := KeyAt(s);
    var id :| Selected(x, k, id) && Choice(x, k).value == x.facts.records[id];
    assert id in ValidAt(x, k);
    SlotEntry(x.bound, x.profile, s);
    EntryCovered(x.bound, x.profile, s);
    var r := x.facts.records[id];
    assert ValidRecord(r);
    assert RejectionOf(x, r).None?;
    ErrorOnly(r.result.value);
  }

  /** Without a mode a result is an error. */
  lemma ErrorOnly(r: NormalizedResult)
    requires ValidResult(r) && r.mutation != Some(MutationError)
    ensures r.mode.Some?
  {
  }

  /** Different ids cannot both be selected. */
  lemma SelectedOnce(x: View, k: Key, i: Id, j: Id)
    requires Selected(x, k, i) && Selected(x, k, j)
    ensures i == j
  {
    assert i in ValidAt(x, k);
  }

  // ---------- conservation in a bucket ----------

  lemma SlotConserved(x: View, n: map<Id, nat>, s: Slot)
    requires Ready(x.bound, x.profile) && RecordsOk(x) && s in Slots(x.bound)
    ensures Delta(x, n, s, PlannedCount) == 1
    ensures 1 == Delta(x, n, s, CompleteCount) + Delta(x, n, s, MissingCount)
                 + Delta(x, n, s, ErrorCount) + Delta(x, n, s, ConflictCount)
  {
    hide Ready, RecordsOk, Slots, Choice, BaseDelta, UnselectedDelta, SelectedDelta;
    BaseOnlyPlans(x, n, s);
    UnselectedIsOne(x, s);
    if Choice(x, KeyAt(s)).Some? {
      ChoiceSound(x, s);
      var r := Choice(x, KeyAt(s)).value;
      SelectedCompletes(x, n, s, r, PlannedCount);
      SelectedCompletes(x, n, s, r, CompleteCount);
      SelectedCompletes(x, n, s, r, MissingCount);
      SelectedCompletes(x, n, s, r, ErrorCount);
      SelectedCompletes(x, n, s, r, ConflictCount);
    }
  }

  lemma BaseOnlyPlans(x: View, n: map<Id, nat>, s: Slot)
    ensures BaseDelta(x, n, s, PlannedCount) == 1
    ensures BaseDelta(x, n, s, CompleteCount) == BaseDelta(x, n, s, MissingCount) == 0
    ensures BaseDelta(x, n, s, ErrorCount) == BaseDelta(x, n, s, ConflictCount) == 0
  {
    hide At, IsScored, Unrecovered, ObligationOf;
  }

  lemma UnselectedIsOne(x: View, s: Slot)
    ensures UnselectedDelta(x, s, PlannedCount) == UnselectedDelta(x, s, CompleteCount) == 0
    ensures UnselectedDelta(x, s, MissingCount) + UnselectedDelta(x, s, ErrorCount) + UnselectedDelta(x, s, ConflictCount) == 1
  {
    hide ConflictAt, FaultAt, ErrorAt;
  }

  lemma SelectedCompletes(x: View, n: map<Id, nat>, s: Slot, r: Record, c: Counter)
    requires r.result.Some? && r.result.value.mode.Some?
    requires c == PlannedCount || c == CompleteCount || c == MissingCount || c == ErrorCount || c == ConflictCount
    ensures SelectedDelta(x, n, s, r, c) == Indicator(c == CompleteCount)
  {
    hide CountsForScore, StageForbids, CaseOf;
  }

  ghost function TwoOf(x: View, n: map<Id, nat>, c: Counter, d: Counter): Slot -> nat {
    s => Delta(x, n, s, c) + Delta(x, n, s, d)
  }

  ghost function FourOf(x: View, n: map<Id, nat>, c: Counter, d: Counter, e: Counter, f: Counter): Slot -> nat {
    s => Delta(x, n, s, c) + Delta(x, n, s, d) + Delta(x, n, s, e) + Delta(x, n, s, f)
  }

  lemma SumTwo(x: View, n: map<Id, nat>, ss: set<Slot>, c: Counter, d: Counter)
    ensures SumSet(ss, TwoOf(x, n, c, d)) == SumSet(ss, DeltaOf(x, n, c)) + SumSet(ss, DeltaOf(x, n, d))
  {
    hide Delta;
    SumPlus(ss, DeltaOf(x, n, c), DeltaOf(x, n, d), TwoOf(x, n, c, d));
  }

  lemma SumFour(x: View, n: map<Id, nat>, ss: set<Slot>, c: Counter, d: Counter, e: Counter, f: Counter)
    ensures SumSet(ss, FourOf(x, n, c, d, e, f))
            == SumSet(ss, DeltaOf(x, n, c)) + SumSet(ss, DeltaOf(x, n, d))
               + SumSet(ss, DeltaOf(x, n, e)) + SumSet(ss, DeltaOf(x, n, f))
  {
    hide Delta;
    SumTwo(x, n, ss, c, d);
    SumTwo(x, n, ss, e, f);
    SumPlus(ss, TwoOf(x, n, c, d), TwoOf(x, n, e, f), FourOf(x, n, c, d, e, f));
  }

  /** In every bucket each planned slot is complete, missing, an error or a
      conflict, and only one of them. */
  lemma BucketConserved(x: View, n: map<Id, nat>, g: Scope)
    requires Ready(x.bound, x.profile) && RecordsOk(x)
    ensures Total(x, n, g, PlannedCount) == |SlotsIn(x.bound, g)|
    ensures Total(x, n, g, PlannedCount)
            == Total(x, n, g, CompleteCount) + Total(x, n, g, MissingCount)
               + Total(x, n, g, ErrorCount) + Total(x, n, g, ConflictCount)
  {
    hide Delta, Ready, RecordsOk, InScope;
    var ss := SlotsIn(x.bound, g);
    forall s | s in ss
      ensures DeltaOf(x, n, PlannedCount)(s) == 1
      ensures FourOf(x, n, CompleteCount, MissingCount, ErrorCount, ConflictCount)(s) == 1
    {
      SlotConserved(x, n, s);
    }
    SumOnes(ss, DeltaOf(x, n, PlannedCount));
    SumOnes(ss, FourOf(x, n, CompleteCount, MissingCount, ErrorCount, ConflictCount));
    SumFour(x, n, ss, CompleteCount, MissingCount, ErrorCount, ConflictCount);
  }

  // ---------- the roll-ups agree ----------

  datatype Grouping = ByControl | ByCategory | ByObligation | ByControlAndCategory | ByObligationAndCategory

  /** The bucket of a grouping an entry falls in. */
  function BucketFor(b: Bound, g: Grouping, e: Entry): Scope {
    match g
    case ByControl => ControlScope(e.variant, ObligationOf(b, e).controlId)
    case ByCategory => CategoryScope(e.variant, CaseOf(b, e).category)
    case ByObligation => ObligationScope(e.variant, e.obligationId)
    case ByControlAndCategory => ControlCategoryScope(e.variant, ObligationOf(b, e).controlId, CaseOf(b, e).category)
    case ByObligationAndCategory => ObligationCategoryScope(e.variant, e.obligationId, CaseOf(b, e).category)
  }

  ghost function Buckets(b: Bound, g: Grouping, v: Variant): set<Scope> {
    set e | e in b.entries && e.variant == v :: BucketFor(b, g, e)
  }

  ghost function TotalOf(x: View, n: map<Id, nat>, c: Counter): Scope -> nat {
    g => Total(x, n, g, c)
  }

  ghost function BucketTag(b: Bound, g: Grouping): Slot -> Scope {
    (s: Slot) => BucketFor(b, g, s.entry)
  }

  lemma BucketSlots(b: Bound, g: Grouping, v: Variant, t: Scope)
    requires t in Buckets(b, g, v)
    ensures Part(SlotsIn(b, VariantScope(v)), BucketTag(b, g), t) == SlotsIn(b, t)
  {
    hide Slots, ObligationOf, CaseOf;
    forall s ensures s in Part(SlotsIn(b, VariantScope(v)), BucketTag(b, g), t) <==> s in SlotsIn(b, t) {
    }
  }

  /** For every counter, the variant total is the sum over the buckets of any of
      the five finer groupings. */
  lemma RollUpsAgree(x: View, n: map<Id, nat>, g: Grouping, v: Variant, c: Counter)
    ensures Total(x, n, VariantScope(v), c) == SumSet(Buckets(x.bound, g, v), TotalOf(x, n, c))
  {
    hide Delta, Part;
    var b := x.bound;
    var all := SlotsIn(b, VariantScope(v));
    var f := DeltaOf(x, n, c);
    forall s | s in all ensures BucketTag(b, g)(s) in Buckets(b, g, v) {
      EntryPlanned(b, s);
    }
    SumByLabel(all, f, BucketTag(b, g), Buckets(b, g, v));
    forall t | t in Buckets(b, g, v) ensures PartSum(all, f, BucketTag(b, g))(t) == TotalOf(x, n, c)(t) {
      BucketSlots(b, g, v, t);
    }
    SumSame(Buckets(b, g, v), PartSum(all, f, BucketTag(b, g)), TotalOf(x, n, c));
  }

  // ---------- what one trial can add ----------

  ghost function TrialSlots(b: Bound, e: Entry): set<Slot> {
    set s | s in Slots(b) && s.entry == e
  }

  /** The counters that only a selected record moves. */
  predicate FromOutcome(c: Counter) {
    c.TP? || c.FP? || c.TN? || c.FN? || c.KilledCount? || c.SurvivedCount? || c.NoCoverageCount?
    || c.AsrPositive? || c.AsrDeviation?
  }

  /** The outcome of a slot, if it has a selected record. */
  ghost function Outcome(x: View, s: Slot, c: Counter): nat {
    var choice := Choice(x, KeyAt(s));
    if choice.None? || choice.value.result.None? then 0 else OutcomeDelta(x, s, choice.value.result.value, c)
  }

  lemma NoBase(x: View, n: map<Id, nat>, s: Slot, c: Counter)
    requires FromOutcome(c)
    ensures BaseDelta(x, n, s, c) == 0
  {
  }

  lemma NoneUnselected(x: View, s: Slot, c: Counter)
    requires FromOutcome(c)
    ensures UnselectedDelta(x, s, c) == 0
  {
  }

  lemma DeltaIsOutcome(x: View, n: map<Id, nat>, s: Slot, c: Counter)
    requires FromOutcome(c)
    ensures Delta(x, n, s, c) == Outcome(x, s, c)
  {
    hide Choice, OutcomeDelta, BaseDelta, UnselectedDelta;
    NoBase(x, n, s, c);
    NoneUnselected(x, s, c);
  }

  lemma ErrorDelta(x: View, n: map<Id, nat>, s: Slot)
    ensures Delta(x, n, s, MutationErrorCount)
            == Indicator(ObligationOf(x.bound, s.entry).kind == MutationKind && IsScored(x, s) && Unrecovered(x, s.entry))
               + Outcome(x, s, MutationErrorCount)
  {
    hide Choice, OutcomeDelta, At, IsScored, Unrecovered;
  }

  lemma LlmOnce(r: NormalizedResult, forbids: bool, scorable: bool, expected: Label)
    ensures LlmDelta(r, forbids, scorable, expected, TP) + LlmDelta(r, forbids, scorable, expected, FP)
            + LlmDelta(r, forbids, scorable, expected, TN) + LlmDelta(r, forbids, scorable, expected, FN) <= Indicator(scorable)
    ensures LlmDelta(r, forbids, scorable, expected, AsrDeviation) <= LlmDelta(r, forbids, scorable, expected, AsrPositive)
    ensures r.detection != Some(Indeterminate) || !scorable ==>
              LlmDelta(r, forbids, scorable, expected, AsrPositive)
              <= LlmDelta(r, forbids, scorable, expected, TP) + LlmDelta(r, forbids, scorable, expected, FN)
    ensures r.detection != Some(Indeterminate) && scorable ==>
              LlmDelta(r, forbids, scorable, expected, TP) + LlmDelta(r, forbids, scorable, expected, FN)
              == Indicator(expected == Positive)
              && LlmDelta(r, forbids, scorable, expected, FP) + LlmDelta(r, forbids, scorable, expected, TN)
                 == Indicator(expected == Negative)
    ensures LlmDelta(r, forbids, scorable, expected, KilledCount) == 0
    ensures LlmDelta(r, forbids, scorable, expected, SurvivedCount) == 0
    ensures LlmDelta(r, forbids, scorable, expected, NoCoverageCount) == 0
    ensures LlmDelta(r, forbids, scorable, expected, MutationErrorCount) == 0
  {
  }

  lemma MutationOnce(r: NormalizedResult, scorable: bool)
    ensures MutationDelta(r, scorable, KilledCount) + MutationDelta(r, scorable, SurvivedCount)
            + MutationDelta(r, scorable, NoCoverageCount) + MutationDelta(r, scorable, MutationErrorCount)
            == Indicator(scorable)
    ensures MutationDelta(r, scorable, TP) == 0 && MutationDelta(r, scorable, FP) == 0
    ensures MutationDelta(r, scorable, TN) == 0 && MutationDelta(r, scorable, FN) == 0
    ensures MutationDelta(r, scorable, AsrPositive) == 0 && MutationDelta(r, scorable, AsrDeviation) == 0
  {
  }

  lemma ConstraintNever(r: NormalizedResult, forbids: bool, c: Counter)
    requires FromOutcome(c) || c == MutationErrorCount
    ensures ConstraintDelta(r, forbids, c) == 0
  {
  }

  /** The outcome of a selected slot, by the kind of its obligation. */
  lemma OutcomeByKind(x: View, s: Slot, c: Counter)
    requires Ready(x.bound, x.profile) && RecordsOk(x) && s in Slots(x.bound)
    requires Choice(x, KeyAt(s)).Some? && (FromOutcome(c) || c == MutationErrorCount)
    ensures Choice(x, KeyAt(s)).value.result.Some?
    ensures var r := Choice(x, KeyAt(s)).value.result.value;
            Outcome(x, s, c) ==
            match ObligationOf(x.bound, s.entry).kind
            case ConstraintKind => 0
            case LlmMetricKind => LlmDelta(r, StageForbids(x.bound, s), CountsForScore(x, s), CaseOf(x.bound, s.entry).expected, c)
            case MutationKind => MutationDelta(r, CountsForScore(x, s), c)
  {
    hide Ready, RecordsOk, CountsForScore, StageForbids, Slots, ValidResult, LlmDelta, MutationDelta, ConstraintDelta, Choice, Definitive;
    ChoiceSound(x, s);
    ConstraintNever(Choice(x, KeyAt(s)).value.result.value, StageForbids(x.bound, s), c);
  }

  lemma OutcomeScores(x: View, s: Slot)
    requires Ready(x.bound, x.profile) && RecordsOk(x) && s in Slots(x.bound)
    ensures Outcome(x, s, TP) + Outcome(x, s, FP) + Outcome(x, s, TN) + Outcome(x, s, FN) <= Indicator(CountsForScore(x, s))
    ensures Outcome(x, s, AsrDeviation) <= Outcome(x, s, AsrPositive)
  {
    hide Ready, RecordsOk, CountsForScore, StageForbids, Slots, LlmDelta, MutationDelta, Choice, OutcomeDelta;
    if Choice(x, KeyAt(s)).Some? {
      OutcomeByKind(x, s, TP);
      OutcomeByKind(x, s, FP);
      OutcomeByKind(x, s, TN);
      OutcomeByKind(x, s, FN);
      OutcomeByKind(x, s, AsrPositive);
      OutcomeByKind(x, s, AsrDeviation);
      var r := Choice(x, KeyAt(s)).value.result.value;
      LlmOnce(r, StageForbids(x.bound, s), CountsForScore(x, s), CaseOf(x.bound, s.entry).expected);
      MutationOnce(r, CountsForScore(x, s));
    }
  }

  lemma OutcomeMutations(x: View, s: Slot)
    requires Ready(x.bound, x.profile) && RecordsOk(x) && s in Slots(x.bound)
    ensures Outcome(x, s, KilledCount) + Outcome(x, s, SurvivedCount) + Outcome(x, s, NoCoverageCount)
            + Outcome(x, s, MutationErrorCount) <= Indicator(CountsForScore(x, s))
  {
    hide Ready, RecordsOk, CountsForScore, StageForbids, Slots, LlmDelta, MutationDelta, Choice, OutcomeDelta;
    if Choice(x, KeyAt(s)).Some? {
      OutcomeByKind(x, s, KilledCount);
      OutcomeByKind(x, s, SurvivedCount);
      OutcomeByKind(x, s, NoCoverageCount);
      OutcomeByKind(x, s, MutationErrorCount);
      var r := Choice(x, KeyAt(s)).value.result.value;
      LlmOnce(r, StageForbids(x.bound, s), CountsForScore(x, s), CaseOf(x.bound, s.entry).expected);
      MutationOnce(r, CountsForScore(x, s));
    }
  }

  lemma ScoredOnly(x: View, n: map<Id, nat>, s: Slot)
    requires Ready(x.bound, x.profile) && RecordsOk(x) && s in Slots(x.bound)
    ensures FourOf(x, n, TP, FP, TN, FN)(s) <= Indicator(IsScored(x, s))
    ensures FourOf(x, n, KilledCount, SurvivedCount, NoCoverageCount, MutationErrorCount)(s) <= Indicator(IsScored(x, s))
  {
    hide Ready, RecordsOk, Slots, Delta, Outcome, IsScored, Complete, Ordered, FaultAt, ErrorAt;
    OutcomeScores(x, s);
    OutcomeMutations(x, s);
    DeltaIsOutcome(x, n, s, TP);
    DeltaIsOutcome(x, n, s, FP);
    DeltaIsOutcome(x, n, s, TN);
    DeltaIsOutcome(x, n, s, FN);
    DeltaIsOutcome(x, n, s, KilledCount);
    DeltaIsOutcome(x, n, s, SurvivedCount);
    DeltaIsOutcome(x, n, s, NoCoverageCount);
    ErrorDelta(x, n, s);
  }

  lemma {:induction false} AtMostOneTerm(ss: set<Slot>, f: Slot -> nat, s: Slot)
    requires forall t :: t in ss ==> f(t) <= 1
    requires forall t :: t in ss && t != s ==> f(t) == 0
    ensures SumSet(ss, f) <= 1
  {
    if s in ss {
      SumRemove(ss, f, s);
      SumZero(ss - {s}, f);
    } else {
      SumZero(ss, f);
    }
  }

  /** A trial is scored at most once in the confusion counts and at most once in
      the mutation counts. */
  lemma TrialScoredOnce(x: View, n: map<Id, nat>, e: Entry)
    requires Ready(x.bound, x.profile) && RecordsOk(x) && e in x.bound.entries
    ensures SumSet(TrialSlots(x.bound, e), DeltaOf(x, n, TP)) + SumSet(TrialSlots(x.bound, e), DeltaOf(x, n, FP))
            + SumSet(TrialSlots(x.bound, e), DeltaOf(x, n, TN)) + SumSet(TrialSlots(x.bound, e), DeltaOf(x, n, FN)) <= 1
    ensures SumSet(TrialSlots(x.bound, e), DeltaOf(x, n, KilledCount))
            + SumSet(TrialSlots(x.bound, e), DeltaOf(x, n, SurvivedCount))
            + SumSet(TrialSlots(x.bound, e), DeltaOf(x, n, NoCoverageCount))
            + SumSet(TrialSlots(x.bound, e), DeltaOf(x, n, MutationErrorCount)) <= 1
  {
    hide Ready, RecordsOk, Delta, FourOf;
    var ss := TrialSlots(x.bound, e);
    var scored := Slot(e, CaseOf(x.bound, e).scoredStageId);
    forall s | s in ss
      ensures FourOf(x, n, TP, FP, TN, FN)(s) <= 1 && (s != scored ==> FourOf(x, n, TP, FP, TN, FN)(s) == 0)
      ensures FourOf(x, n, KilledCount, SurvivedCount, NoCoverageCount, MutationErrorCount)(s) <= 1
      ensures s != scored ==> FourOf(x, n, KilledCount, SurvivedCount, NoCoverageCount, MutationErrorCount)(s) == 0
    {
      ScoredOnly(x, n, s);
    }
    AtMostOneTerm(ss, FourOf(x, n, TP, FP, TN, FN), scored);
    AtMostOneTerm(ss, FourOf(x, n, KilledCount, SurvivedCount, NoCoverageCount, MutationErrorCount), scored);
    SumFour(x, n, ss, TP, FP, TN, FN);
    SumFour(x, n, ss, KilledCount, SurvivedCount, NoCoverageCount, MutationErrorCount);
  }

  lemma ScoredIsDefinite(x: View, s: Slot)
    requires s in Slots(x.bound) && Scorable(x, s.entry)
    ensures Choice(x, KeyAt(s)).Some? && Choice(x, KeyAt(s)).value.result.Some?
            && Definite(Choice(x, KeyAt(s)).value.result.value)
  {
    hide Choice, Ordered, Definite;
    EntryPlanned(x.bound, s);
    var i :| 0 <= i < |s.entry.stageIds| && s.entry.stageIds[i] == s.stageId;
    assert ChoiceAt(x, s.entry, i) == Choice(x, KeyAt(s));
  }

  lemma OutcomeAsr(x: View, s: Slot)
    requires Ready(x.bound, x.profile) && RecordsOk(x) && s in Slots(x.bound)
    ensures Outcome(x, s, AsrPositive) <= Outcome(x, s, TP) + Outcome(x, s, FN)
  {
    hide Ready, RecordsOk, StageForbids, Slots, LlmDelta, MutationDelta, Choice, Scorable, IsScored, OutcomeDelta;
    if Choice(x, KeyAt(s)).Some? {
      OutcomeByKind(x, s, AsrPositive);
      OutcomeByKind(x, s, TP);
      OutcomeByKind(x, s, FN);
      ChoiceSound(x, s);
      var r := Choice(x, KeyAt(s)).value.result.value;
      if Scorable(x, s.entry) { ScoredIsDefinite(x, s); }
      LlmOnce(r, StageForbids(x.bound, s), CountsForScore(x, s), CaseOf(x.bound, s.entry).expected);
      MutationOnce(r, CountsForScore(x, s));
    }
  }

  lemma SlotAsr(x: View, n: map<Id, nat>, s: Slot)
    requires Ready(x.bound, x.profile) && RecordsOk(x) && s in Slots(x.bound)
    ensures Delta(x, n, s, AsrDeviation) <= Delta(x, n, s, AsrPositive) <= Delta(x, n, s, TP) + Delta(x, n, s, FN)
  {
    hide Ready, RecordsOk, Slots, Delta, Outcome;
    OutcomeScores(x, s);
    OutcomeAsr(x, s);
    DeltaIsOutcome(x, n, s, AsrDeviation);
    DeltaIsOutcome(x, n, s, AsrPositive);
    DeltaIsOutcome(x, n, s, TP);
    DeltaIsOutcome(x, n, s, FN);
  }

  /** The attack-success counts never outgrow the positives they are part of. */
  lemma AsrBounded(x: View, n: map<Id, nat>, g: Scope)
    requires Ready(x.bound, x.profile) && RecordsOk(x)
    ensures Total(x, n, g, AsrDeviation) <= Total(x, n, g, AsrPositive) <= Total(x, n, g, TP) + Total(x, n, g, FN)
  {
    hide Ready, RecordsOk, Delta, InScope;
    var ss := SlotsIn(x.bound, g);
    forall s | s in ss
      ensures DeltaOf(x, n, AsrDeviation)(s) <= DeltaOf(x, n, AsrPositive)(s) <= TwoOf(x, n, TP, FN)(s)
    {
      SlotAsr(x, n, s);
    }
    SumLe(ss, DeltaOf(x, n, AsrDeviation), DeltaOf(x, n, AsrPositive));
    SumLe(ss, DeltaOf(x, n, AsrPositive), TwoOf(x, n, TP, FN));
    SumTwo(x, n, ss, TP, FN);
  }

  // ---------- the first of a set in delivery order ----------

  lemma EarliestInPrefix(order: seq<Id>, n: nat, ids: set<Id>, first: Id)
    requires n <= |order| && Earliest(order[..n], ids, first)
    ensures Earliest(order, ids, first)
  {
    var i :| 0 <= i < n && order[..n][i] == first && forall j :: 0 <= j < i ==> order[..n][j] !in ids;
    assert order[i] == first;
    forall j | 0 <= j < i ensures order[j] !in ids { assert order[..n][j] == order[j]; }
  }

  lemma EarliestIsLast(order: seq<Id>, ids: set<Id>)
    requires order != [] && (forall j :: 0 <= j < |order| - 1 ==> order[j] !in ids)
    requires exists j :: 0 <= j < |order| && order[j] in ids
    ensures Earliest(order, ids, order[|order| - 1])
  {
    assert order[|order| - 1] in ids;
  }
}
