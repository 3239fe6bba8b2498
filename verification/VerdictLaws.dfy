/** What the flags of an aggregation guarantee about its records and counts. */
module VerdictLaws {
  import opened Common
  import opened Attempts
  import opened AggregationSpec
  import opened DeliveryLaws
  import opened AggregationLaws
  import opened Sums

  // ---------- fixed denominators ----------

  lemma SlotOf(b: Bound, e: Entry, i: nat)
    requires e in b.entries && i < |e.stageIds|
    ensures Slot(e, e.stageIds[i]) in Slots(b)
  {
  }

  lemma SettledStage(x: View, order: seq<Id>, e: Entry, i: nat)
    requires Ready(x.bound, x.profile) && RecordsOk(x) && !RequiredMissing(x, order)
    requires e in x.bound.entries && ObligationOf(x.bound, e).required && i < |e.stageIds|
    ensures ChoiceAt(x, e, i).Some? && ChoiceAt(x, e, i).value.result.Some?
    ensures Definite(ChoiceAt(x, e, i).value.result.value)
    ensures !UnsettledResult(ChoiceAt(x, e, i).value.result.value)
  {
    hide Ready, RecordsOk, Slots, Reported, Choice, ValidResult;
    var s := Slot(e, e.stageIds[i]);
    SlotOf(x.bound, e, i);
    assert !Unsettled(x, s);
    ChoiceSound(x, s);
  }

  lemma DisorderReported(x: View, order: seq<Id>, e: Entry, i: nat)
    requires e in x.bound.entries && i + 1 < |e.stageIds| && Complete(x, e) && OutOfOrder(x, e, i)
    ensures Reported(x, order, IssueFor(STAGE_ORDER, ChoiceAt(x, e, i + 1).value))
  {
    hide Complete, ChoiceAt;
    assert OrderIssue(x, IssueFor(STAGE_ORDER, ChoiceAt(x, e, i + 1).value));
  }

  lemma NoStageDisorder(x: View, order: seq<Id>, e: Entry, i: nat)
    requires !RequiredMissing(x, order) && e in x.bound.entries && i + 1 < |e.stageIds| && Complete(x, e)
    ensures !OutOfOrder(x, e, i)
  {
    hide Complete, ChoiceAt, Unsettled, Reported;
    if OutOfOrder(x, e, i) { DisorderReported(x, order, e, i); }
  }

  /** If nothing required is missing, every required trial is scorable. */
  lemma RequiredTrialsScorable(x: View, order: seq<Id>, e: Entry)
    requires Ready(x.bound, x.profile) && RecordsOk(x) && !RequiredMissing(x, order)
    requires e in x.bound.entries && ObligationOf(x.bound, e).required
    ensures Scorable(x, e)
  {
    hide RequiredMissing, Ready, RecordsOk, OutOfOrder, ChoiceAt, Definite;
    forall i | 0 <= i < |e.stageIds|
      ensures ChoiceAt(x, e, i).Some? && ChoiceAt(x, e, i).value.result.Some?
              && Definite(ChoiceAt(x, e, i).value.result.value)
    {
      SettledStage(x, order, e, i);
    }
    forall i: nat | i + 1 < |e.stageIds| ensures !OutOfOrder(x, e, i) { NoStageDisorder(x, order, e, i); }
  }

  /** The trials a plan holds for an obligation, by the label of their case. */
  ghost function PlannedTrials(b: Bound, v: Variant, o: Id): set<Entry> {
    set e | e in b.entries && e.variant == v && e.obligationId == o
  }

  ghost function TrialsLabelled(b: Bound, v: Variant, o: Id, expected: Label): set<Entry> {
    set e | e in PlannedTrials(b, v, o) && CaseOf(b, e).expected == expected
  }

  ghost function ScoredSlots(b: Bound, es: set<Entry>): set<Slot> {
    set e | e in es :: Slot(e, CaseOf(b, e).scoredStageId)
  }

  lemma {:induction false} ScoredSlotsSize(b: Bound, es: set<Entry>)
    ensures |ScoredSlots(b, es)| == |es|
    decreases |es|
  {
    if es == {} {
      assert ScoredSlots(b, es) == {};
    } else {
      var e :| e in es;
      ScoredSlotsSize(b, es - {e});
      assert ScoredSlots(b, es) == ScoredSlots(b, es - {e}) + {Slot(e, CaseOf(b, e).scoredStageId)};
    }
  }

  lemma ScoredSlotPlanned(b: Bound, p: Profile, e: Entry)
    requires Ready(b, p) && e in b.entries
    ensures Slot(e, CaseOf(b, e).scoredStageId) in Slots(b)
  {
    assert EntryOk(b, e);
  }

  /** One term for each trial of `es`, nothing elsewhere: the sum counts `es`. */
  lemma ScoredSum(x: View, ss: set<Slot>, es: set<Entry>, f: Slot -> nat)
    requires Ready(x.bound, x.profile) && es <= set e | e in x.bound.entries
    requires forall e :: e in es ==> Slot(e, CaseOf(x.bound, e).scoredStageId) in ss
    requires forall s :: s in ss ==> f(s) == Indicator(IsScored(x, s) && s.entry in es)
    ensures SumSet(ss, f) == |es|
  {
    hide Ready, CaseOf;
    var part := ScoredSlots(x.bound, es);
    SumSubset(ss, part, f);
    SumOnes(part, f);
    ScoredSlotsSize(x.bound, es);
  }

  /** The terms of a slot whose trial is scorable and settled. */
  lemma SettledLlm(x: View, n: map<Id, nat>, s: Slot)
    requires Ready(x.bound, x.profile) && RecordsOk(x) && s in Slots(x.bound) && Scorable(x, s.entry)
    requires ObligationOf(x.bound, s.entry).kind == LlmMetricKind
    ensures TwoOf(x, n, TP, FN)(s) == Indicator(IsScored(x, s) && CaseOf(x.bound, s.entry).expected == Positive)
    ensures TwoOf(x, n, FP, TN)(s) == Indicator(IsScored(x, s) && CaseOf(x.bound, s.entry).expected == Negative)
  {
    hide Ready, RecordsOk, Slots, Delta, Scorable, IsScored, Choice, Outcome, StageForbids, CaseOf, ObligationOf;
    ScoredIsDefinite(x, s);
    ChoiceSound(x, s);
    DeltaIsOutcome(x, n, s, TP);
    DeltaIsOutcome(x, n, s, FN);
    DeltaIsOutcome(x, n, s, FP);
    DeltaIsOutcome(x, n, s, TN);
    OutcomeByKind(x, s, TP);
    OutcomeByKind(x, s, FN);
    OutcomeByKind(x, s, FP);
    OutcomeByKind(x, s, TN);
  }

  ghost function ThreeOf(x: View, n: map<Id, nat>, c: Counter, d: Counter, e: Counter): Slot -> nat {
    s => Delta(x, n, s, c) + Delta(x, n, s, d) + Delta(x, n, s, e)
  }

  lemma SettledMutation(x: View, n: map<Id, nat>, s: Slot)
    requires Ready(x.bound, x.profile) && RecordsOk(x) && s in Slots(x.bound) && Scorable(x, s.entry)
    requires ObligationOf(x.bound, s.entry).kind == MutationKind
    ensures ThreeOf(x, n, KilledCount, SurvivedCount, NoCoverageCount)(s) == Indicator(IsScored(x, s))
    ensures DeltaOf(x, n, MutationErrorCount)(s) == 0
  {
    hide Ready, RecordsOk, Slots, Delta, Complete, Ordered, IsScored, Choice, Outcome, StageForbids, CaseOf, ObligationOf;
    ScoredIsDefinite(x, s);
    ChoiceSound(x, s);
    DeltaIsOutcome(x, n, s, KilledCount);
    DeltaIsOutcome(x, n, s, SurvivedCount);
    DeltaIsOutcome(x, n, s, NoCoverageCount);
    ErrorDelta(x, n, s);
    OutcomeByKind(x, s, KilledCount);
    OutcomeByKind(x, s, SurvivedCount);
    OutcomeByKind(x, s, NoCoverageCount);
    OutcomeByKind(x, s, MutationErrorCount);
    var r := Choice(x, KeyAt(s)).value.result.value;
    assert r.mutation.Some?;
    var m := r.mutation.value;
    assert m.Killed? || m.Survived? || m.NoCoverage?;
  }

  lemma InObligation(b: Bound, v: Variant, o: Id, s: Slot)
    requires s in SlotsIn(b, ObligationScope(v, o))
    ensures s in Slots(b) && s.entry in PlannedTrials(b, v, o)
  {
    hide CaseOf, ObligationOf;
    EntryPlanned(b, s);
  }

  lemma ScoredInObligation(b: Bound, p: Profile, v: Variant, o: Id, e: Entry)
    requires Ready(b, p) && e in PlannedTrials(b, v, o)
    ensures Slot(e, CaseOf(b, e).scoredStageId) in SlotsIn(b, ObligationScope(v, o))
  {
    hide Ready, Slots, CaseOf, ObligationOf;
    ScoredSlotPlanned(b, p, e);
  }

  ghost predicate RequiredKind(b: Bound, v: Variant, o: Id, k: Kind) {
    forall e :: e in PlannedTrials(b, v, o) ==> ObligationOf(b, e).required && ObligationOf(b, e).kind == k
  }

  /** If nothing required is missing, the confusion counts of a required LLM
      obligation have the planned denominators: one score for every planned
      positive trial and one for every planned negative one. */
  lemma FixedConfusion(x: View, order: seq<Id>, n: map<Id, nat>, v: Variant, o: Id)
    requires Ready(x.bound, x.profile) && RecordsOk(x) && !RequiredMissing(x, order)
    requires RequiredKind(x.bound, v, o, LlmMetricKind)
    ensures var g := ObligationScope(v, o);
            && Total(x, n, g, TP) + Total(x, n, g, FN) == |TrialsLabelled(x.bound, v, o, Positive)|
            && Total(x, n, g, FP) + Total(x, n, g, TN) == |TrialsLabelled(x.bound, v, o, Negative)|
  {
    hide Ready, RecordsOk, RequiredMissing, Delta, TwoOf, IsScored, CaseOf, ObligationOf, SlotsIn, Scorable;
    var ss := SlotsIn(x.bound, ObligationScope(v, o));
    var positive := TrialsLabelled(x.bound, v, o, Positive);
    var negative := TrialsLabelled(x.bound, v, o, Negative);
    forall s | s in ss
      ensures TwoOf(x, n, TP, FN)(s) == Indicator(IsScored(x, s) && s.entry in positive)
      ensures TwoOf(x, n, FP, TN)(s) == Indicator(IsScored(x, s) && s.entry in negative)
    {
      InObligation(x.bound, v, o, s);
      RequiredTrialsScorable(x, order, s.entry);
      SettledLlm(x, n, s);
    }
    forall e | e in PlannedTrials(x.bound, v, o) ensures Slot(e, CaseOf(x.bound, e).scoredStageId) in ss {
      ScoredInObligation(x.bound, x.profile, v, o, e);
    }
    ScoredSum(x, ss, positive, TwoOf(x, n, TP, FN));
    ScoredSum(x, ss, negative, TwoOf(x, n, FP, TN));
    SumTwo(x, n, ss, TP, FN);
    SumTwo(x, n, ss, FP, TN);
  }

  lemma SumThree(x: View, n: map<Id, nat>, ss: set<Slot>, c: Counter, d: Counter, e: Counter)
    ensures SumSet(ss, ThreeOf(x, n, c, d, e))
            == SumSet(ss, DeltaOf(x, n, c)) + SumSet(ss, DeltaOf(x, n, d)) + SumSet(ss, DeltaOf(x, n, e))
  {
    hide Delta;
    SumTwo(x, n, ss, c, d);
    SumPlus(ss, TwoOf(x, n, c, d), DeltaOf(x, n, e), ThreeOf(x, n, c, d, e));
  }

  /** Likewise for mutation obligations: every planned trial is killed, survived
      or not covered, and none is an error. */
  lemma FixedMutation(x: View, order: seq<Id>, n: map<Id, nat>, v: Variant, o: Id)
    requires Ready(x.bound, x.profile) && RecordsOk(x) && !RequiredMissing(x, order)
    requires RequiredKind(x.bound, v, o, MutationKind)
    ensures var g := ObligationScope(v, o);
            && Total(x, n, g, KilledCount) + Total(x, n, g, SurvivedCount) + Total(x, n, g, NoCoverageCount)
               == |PlannedTrials(x.bound, v, o)|
            && Total(x, n, g, MutationErrorCount) == 0
  {
    hide Ready, RecordsOk, RequiredMissing, Delta, ThreeOf, DeltaOf, IsScored, CaseOf, ObligationOf, SlotsIn, Scorable;
    var ss := SlotsIn(x.bound, ObligationScope(v, o));
    var trials := PlannedTrials(x.bound, v, o);
    forall s | s in ss
      ensures ThreeOf(x, n, KilledCount, SurvivedCount, NoCoverageCount)(s) == Indicator(IsScored(x, s) && s.entry in trials)
      ensures DeltaOf(x, n, MutationErrorCount)(s) == 0
    {
      InObligation(x.bound, v, o, s);
      RequiredTrialsScorable(x, order, s.entry);
      SettledMutation(x, n, s);
    }
    forall e | e in trials ensures Slot(e, CaseOf(x.bound, e).scoredStageId) in ss {
      ScoredInObligation(x.bound, x.profile, v, o, e);
    }
    ScoredSum(x, ss, trials, ThreeOf(x, n, KilledCount, SurvivedCount, NoCoverageCount));
    SumZero(ss, DeltaOf(x, n, MutationErrorCount));
    SumThree(x, n, ss, KilledCount, SurvivedCount, NoCoverageCount);
  }

  // ---------- what the score counters count ----------

  /** How the scored stage of a scorable trial came out. */
  ghost predicate ScoresAs(x: View, e: Entry, c: Counter) {
    var choice := Choice(x, KeyAt(Slot(e, CaseOf(x.bound, e).scoredStageId)));
    && Scorable(x, e) && choice.Some? && choice.value.result.Some?
    && var r, k, expected := choice.value.result.value, ObligationOf(x.bound, e).kind, CaseOf(x.bound, e).expected;
    match c
    case TP => k == LlmMetricKind && expected == Positive && r.detection == Some(Detect)
    case FN => k == LlmMetricKind && expected == Positive && r.detection == Some(Allow)
    case FP => k == LlmMetricKind && expected == Negative && r.detection == Some(Detect)
    case TN => k == LlmMetricKind && expected == Negative && r.detection == Some(Allow)
    case AsrPositive => k == LlmMetricKind && expected == Positive && r.deviation.Some?
    case AsrDeviation => k == LlmMetricKind && expected == Positive && r.deviation == Some(true)
    case KilledCount => k == MutationKind && r.mutation == Some(Killed)
    case SurvivedCount => k == MutationKind && r.mutation == Some(Survived)
    case NoCoverageCount => k == MutationKind && r.mutation == Some(NoCoverage)
    case _ => false
  }

  ghost function ScoringTrials(x: View, g: Scope, c: Counter): set<Entry> {
    set e | e in x.bound.entries && InScope(x.bound, e, g) && ScoresAs(x, e, c)
  }

  lemma DetectionKnown(x: View, s: Slot)
    requires Ready(x.bound, x.profile) && RecordsOk(x) && s in Slots(x.bound) && Choice(x, KeyAt(s)).Some?
    requires ObligationOf(x.bound, s.entry).kind == LlmMetricKind
    ensures Choice(x, KeyAt(s)).value.result.Some? && Choice(x, KeyAt(s)).value.result.value.detection.Some?
  {
    hide Ready, RecordsOk, Slots, Choice, Definitive;
    ChoiceSound(x, s);
  }

  lemma LlmScore(r: NormalizedResult, forbids: bool, scorable: bool, expected: Label, c: Counter)
    requires FromOutcome(c) && r.detection.Some?
    ensures LlmDelta(r, forbids, scorable, expected, c)
            == Indicator(scorable && match c
                                     case TP => expected == Positive && r.detection == Some(Detect)
                                     case FN => expected == Positive && r.detection == Some(Allow)
                                     case FP => expected == Negative && r.detection == Some(Detect)
                                     case TN => expected == Negative && r.detection == Some(Allow)
                                     case AsrPositive => expected == Positive && r.deviation.Some?
                                     case AsrDeviation => expected == Positive && r.deviation == Some(true)
                                     case _ => false)
  {
    var d := r.detection.value;
    assert d.Detect? || d.Allow? || d.Indeterminate?;
  }

  lemma MutationScoreOf(r: NormalizedResult, scorable: bool, c: Counter)
    requires FromOutcome(c)
    ensures MutationDelta(r, scorable, c)
            == Indicator(scorable && match c
                                     case KilledCount => r.mutation == Some(Killed)
                                     case SurvivedCount => r.mutation == Some(Survived)
                                     case NoCoverageCount => r.mutation == Some(NoCoverage)
                                     case _ => false)
  {
  }

  lemma SlotScores(x: View, s: Slot, c: Counter)
    requires Ready(x.bound, x.profile) && RecordsOk(x) && s in Slots(x.bound) && FromOutcome(c)
    ensures Outcome(x, s, c) == Indicator(IsScored(x, s) && ScoresAs(x, s.entry, c))
  {
    hide Ready, RecordsOk, Slots, Choice, StageForbids, Scorable, LlmDelta, MutationDelta, OutcomeDelta;
    if Choice(x, KeyAt(s)).Some? {
      OutcomeByKind(x, s, c);
      var r := Choice(x, KeyAt(s)).value.result.value;
      MutationScoreOf(r, CountsForScore(x, s), c);
      if ObligationOf(x.bound, s.entry).kind == LlmMetricKind {
        DetectionKnown(x, s);
        LlmScore(r, StageForbids(x.bound, s), CountsForScore(x, s), CaseOf(x.bound, s.entry).expected, c);
      }
    }
  }

  /** Every score counter of every bucket is the number of scorable trials of the
      bucket that came out that way in their scored stage. */
  lemma ScoresMean(x: View, n: map<Id, nat>, g: Scope, c: Counter)
    requires Ready(x.bound, x.profile) && RecordsOk(x) && FromOutcome(c)
    ensures Total(x, n, g, c) == |ScoringTrials(x, g, c)|
  {
    hide Ready, RecordsOk, Delta, Outcome, IsScored, ScoresAs, CaseOf, ObligationOf, FromOutcome, InScope;
    var ss, trials := SlotsIn(x.bound, g), ScoringTrials(x, g, c);
    forall s | s in ss ensures DeltaOf(x, n, c)(s) == Indicator(IsScored(x, s) && s.entry in trials) {
      EntryPlanned(x.bound, s);
      DeltaIsOutcome(x, n, s, c);
      SlotScores(x, s, c);
    }
    forall e | e in trials ensures Slot(e, CaseOf(x.bound, e).scoredStageId) in ss {
      ScoredSlotPlanned(x.bound, x.profile, e);
    }
    ScoredSum(x, ss, trials, DeltaOf(x, n, c));
  }
}
