/** The ratios an aggregation derives from its buckets. */
module Metrics {
  import opened Common
  import opened Attempts
  import opened AggregationSpec
  import opened DeliveryLaws
  import opened AggregationLaws
  import opened VerdictLaws
  import opened ComparisonLaws
  import opened CountLaws

  datatype MetricName = Recall | Fnr | Fpr | Asr | MutationScore

  datatype Ratio = Ratio(numerator: nat, denominator: nat)

  datatype Metric = Metric(name: MetricName, scope: Scope, critical: bool, ratio: Ratio, baseline: Option<Ratio>)

  function KindOf(name: MetricName): Kind { if name.MutationScore? then MutationKind else LlmMetricKind }

  /** The counters of one bucket. */
  ghost function BucketOf(x: View, n: map<Id, nat>, g: Scope): Counter -> nat { c => Total(x, n, g, c) }

  ghost function RatioOf(name: MetricName, bucket: Counter -> nat): Ratio {
    match name
    case Recall => Ratio(bucket(TP), bucket(TP) + bucket(FN))
    case Fnr => Ratio(bucket(FN), bucket(TP) + bucket(FN))
    case Fpr => Ratio(bucket(FP), bucket(FP) + bucket(TN))
    case Asr => Ratio(bucket(AsrDeviation), bucket(AsrPositive))
    case MutationScore =>
      Ratio(bucket(KilledCount), bucket(KilledCount) + bucket(SurvivedCount) + bucket(NoCoverageCount))
  }

  ghost predicate HasKind(b: Bound, g: Scope, k: Kind) {
    exists e :: e in b.entries && InScope(b, e, g) && ObligationOf(b, e).kind == k
  }

  ghost predicate IsCritical(b: Bound, g: Scope) {
    exists e :: e in b.entries && InScope(b, e, g) && ObligationOf(b, e).critical
  }

  /** The same bucket of the baseline. */
  function Against(g: Scope): Scope { g.(variant := Baseline) }

  /** A candidate metric, with its baseline where there is one to compare with;
      the miss rate is never compared. */
  ghost function MetricAt(x: View, n: map<Id, nat>, g: Scope, name: MetricName): Option<Metric>
    requires g.variant == Candidate && !g.VariantScope?
  {
    if !HasKind(x.bound, g, KindOf(name)) then None
    else
      var before := RatioOf(name, BucketOf(x, n, Against(g)));
      var compared := !name.Fnr? && HasKind(x.bound, Against(g), KindOf(name)) && before.denominator != 0;
      Some(Metric(name, g, IsCritical(x.bound, g), RatioOf(name, BucketOf(x, n, g)), if compared then Some(before) else None))
  }

  /** Every metric is a proportion, and a baseline is never a division by zero. */
  lemma MetricIsProportion(x: View, n: map<Id, nat>, g: Scope, name: MetricName)
    requires Ready(x.bound, x.profile) && RecordsOk(x) && g.variant == Candidate && !g.VariantScope?
    requires MetricAt(x, n, g, name).Some?
    ensures var m := MetricAt(x, n, g, name).value;
            && m.ratio.numerator <= m.ratio.denominator
            && (m.baseline.Some? ==> m.baseline.value.numerator <= m.baseline.value.denominator
                                     && m.baseline.value.denominator > 0)
  {
    hide Ready, RecordsOk, Total, HasKind, IsCritical;
    AsrBounded(x, n, g);
    AsrBounded(x, n, Against(g));
  }

  /** If nothing required is missing, the denominators of a required obligation's
      metrics are the numbers of trials its plan holds, whatever was retried,
      duplicated or lost on the way. */
  lemma DenominatorsArePlanned(x: View, order: seq<Id>, n: map<Id, nat>, o: Id, name: MetricName)
    requires Ready(x.bound, x.profile) && RecordsOk(x) && !RequiredMissing(x, order)
    requires RequiredKind(x.bound, Candidate, o, KindOf(name)) && !name.Asr?
    requires MetricAt(x, n, ObligationScope(Candidate, o), name).Some?
    ensures MetricAt(x, n, ObligationScope(Candidate, o), name).value.ratio.denominator ==
            match name
            case Fpr => |TrialsLabelled(x.bound, Candidate, o, Negative)|
            case MutationScore => |PlannedTrials(x.bound, Candidate, o)|
            case _ => |TrialsLabelled(x.bound, Candidate, o, Positive)|
  {
    hide Ready, RecordsOk, Total, HasKind, IsCritical, RequiredMissing, RequiredKind, TrialsLabelled, PlannedTrials;
    if name.MutationScore? {
      FixedMutation(x, order, n, Candidate, o);
    } else {
      FixedConfusion(x, order, n, Candidate, o);
    }
  }

  lemma SameRatio(name: MetricName, f: Counter -> nat, g: Counter -> nat)
    requires forall c :: !CountsDeliveries(c) ==> f(c) == g(c)
    ensures RatioOf(name, f) == RatioOf(name, g)
  {
  }

  /** No metric looks at how often or in which order attempts were delivered. */
  lemma MetricsIgnoreRedelivery(b: Bound, p: Profile, a: seq<Record>, r: Record, g: Scope, name: MetricName)
    requires r in a && g.variant == Candidate && !g.VariantScope?
    ensures MetricAt(View(b, p, Fold(a + [r]).facts), Fold(a + [r]).deliveries, g, name)
            == MetricAt(View(b, p, Fold(a).facts), Fold(a).deliveries, g, name)
  {
    hide Fold, Total, HasKind, IsCritical, RatioOf, CountsDeliveries;
    RedeliveryCountsOnly(b, p, a, r);
    var x := View(b, p, Fold(a).facts);
    SameRatio(name, BucketOf(x, Fold(a + [r]).deliveries, g), BucketOf(x, Fold(a).deliveries, g));
    SameRatio(name, BucketOf(x, Fold(a + [r]).deliveries, Against(g)), BucketOf(x, Fold(a).deliveries, Against(g)));
  }

  lemma MetricsIgnoreOrder(b: Bound, p: Profile, a: seq<Record>, c: seq<Record>, g: Scope, name: MetricName)
    requires multiset(a) == multiset(c) && ConflictFree(a) && AllValid(a) && g.variant == Candidate && !g.VariantScope?
    ensures MetricAt(View(b, p, Fold(a).facts), Fold(a).deliveries, g, name)
            == MetricAt(View(b, p, Fold(c).facts), Fold(c).deliveries, g, name)
  {
    hide Fold, Total, HasKind, IsCritical, RatioOf, AllValid, ConflictFree;
    OrderIsIrrelevant(b, p, a, c);
    var x, y := View(b, p, Fold(a).facts), View(b, p, Fold(c).facts);
    SameRatio(name, BucketOf(x, Fold(a).deliveries, g), BucketOf(y, Fold(c).deliveries, g));
    SameRatio(name, BucketOf(x, Fold(a).deliveries, Against(g)), BucketOf(y, Fold(c).deliveries, Against(g)));
  }

  // ---------- what the metrics measure ----------

  /** The result the scored stage of a trial rests on. */
  ghost function ScoredResult(x: View, e: Entry): Option<NormalizedResult> {
    var choice := Choice(x, KeyAt(Slot(e, CaseOf(x.bound, e).scoredStageId)));
    if choice.None? then None else choice.value.result
  }

  /** The scored trials of a kind in a bucket. */
  ghost predicate ScoredTrial(x: View, g: Scope, e: Entry, k: Kind) {
    e in x.bound.entries && InScope(x.bound, e, g) && Scorable(x, e)
    && ObligationOf(x.bound, e).kind == k && ScoredResult(x, e).Some?
  }

  ghost function Labelled(x: View, g: Scope, expected: Label): set<Entry> {
    set e | e in x.bound.entries && ScoredTrial(x, g, e, LlmMetricKind) && CaseOf(x.bound, e).expected == expected
  }

  ghost function Mutants(x: View, g: Scope): set<Entry> {
    set e | e in x.bound.entries && ScoredTrial(x, g, e, MutationKind)
  }

  /** The trials a metric counts as hits, and those it measures them against. */
  ghost function Hits(x: View, g: Scope, name: MetricName): set<Entry> {
    match name
    case Recall => set e | e in Labelled(x, g, Positive) && ScoredResult(x, e).value.detection == Some(Detect)
    case Fnr => set e | e in Labelled(x, g, Positive) && ScoredResult(x, e).value.detection == Some(Allow)
    case Fpr => set e | e in Labelled(x, g, Negative) && ScoredResult(x, e).value.detection == Some(Detect)
    case Asr => set e | e in Labelled(x, g, Positive) && ScoredResult(x, e).value.deviation == Some(true)
    case MutationScore => set e | e in Mutants(x, g) && ScoredResult(x, e).value.mutation == Some(Killed)
  }

  ghost function Measured(x: View, g: Scope, name: MetricName): set<Entry> {
    match name
    case Fpr => Labelled(x, g, Negative)
    case Asr => set e | e in Labelled(x, g, Positive) && ScoredResult(x, e).value.deviation.Some?
    case MutationScore => Mutants(x, g)
    case _ => Labelled(x, g, Positive)
  }

  /** A scored trial has a decided result. */
  lemma ScoredDecides(x: View, g: Scope, e: Entry, k: Kind)
    requires Ready(x.bound, x.profile) && RecordsOk(x) && ScoredTrial(x, g, e, k)
    ensures var r := ScoredResult(x, e).value;
            && (k.LlmMetricKind? ==> r.detection == Some(Detect) || r.detection == Some(Allow))
            && (k.MutationKind? ==> r.mutation == Some(Killed) || r.mutation == Some(Survived) || r.mutation == Some(NoCoverage))
  {
    hide Ready, RecordsOk, Scorable, InScope, CaseOf, Choice;
    var s := Slot(e, CaseOf(x.bound, e).scoredStageId);
    ScoredSlotPlanned(x.bound, x.profile, e);
    EntryPlanned(x.bound, s);
    ScorableExactly(x, e);
    assert Decided(x, s);
  }

  lemma ScoringIs(x: View, g: Scope, e: Entry, c: Counter)
    requires FromOutcome(c)
    ensures e in ScoringTrials(x, g, c) <==>
              match c
              case TP => e in Labelled(x, g, Positive) && ScoredResult(x, e).value.detection == Some(Detect)
              case FN => e in Labelled(x, g, Positive) && ScoredResult(x, e).value.detection == Some(Allow)
              case FP => e in Labelled(x, g, Negative) && ScoredResult(x, e).value.detection == Some(Detect)
              case TN => e in Labelled(x, g, Negative) && ScoredResult(x, e).value.detection == Some(Allow)
              case AsrPositive => e in Labelled(x, g, Positive) && ScoredResult(x, e).value.deviation.Some?
              case AsrDeviation => e in Labelled(x, g, Positive) && ScoredResult(x, e).value.deviation == Some(true)
              case KilledCount => e in Mutants(x, g) && ScoredResult(x, e).value.mutation == Some(Killed)
              case SurvivedCount => e in Mutants(x, g) && ScoredResult(x, e).value.mutation == Some(Survived)
              case NoCoverageCount => e in Mutants(x, g) && ScoredResult(x, e).value.mutation == Some(NoCoverage)
              case _ => false
  {
    hide Scorable, InScope, CaseOf, Choice, ObligationOf;
  }

  lemma Apart(a: set<Entry>, b: set<Entry>, whole: set<Entry>)
    requires a !! b && a + b == whole
    ensures |a| + |b| == |whole|
  {
  }

  /** The totals of a bucket as numbers of scored trials. */
  lemma LabelledTotals(x: View, n: map<Id, nat>, g: Scope)
    requires Ready(x.bound, x.profile) && RecordsOk(x)
    ensures Total(x, n, g, TP) + Total(x, n, g, FN) == |Labelled(x, g, Positive)|
    ensures Total(x, n, g, FP) + Total(x, n, g, TN) == |Labelled(x, g, Negative)|
  {
    hide Ready, RecordsOk, Total, ScoredTrial, ScoredResult, ScoresAs, CaseOf, InScope, ScoringTrials;
    ScoresMean(x, n, g, TP);
    ScoresMean(x, n, g, FN);
    ScoresMean(x, n, g, FP);
    ScoresMean(x, n, g, TN);
    forall e
      ensures e in ScoringTrials(x, g, TP) || e in ScoringTrials(x, g, FN) <==> e in Labelled(x, g, Positive)
      ensures !(e in ScoringTrials(x, g, TP) && e in ScoringTrials(x, g, FN))
      ensures e in ScoringTrials(x, g, FP) || e in ScoringTrials(x, g, TN) <==> e in Labelled(x, g, Negative)
      ensures !(e in ScoringTrials(x, g, FP) && e in ScoringTrials(x, g, TN))
    {
      ScoringIs(x, g, e, TP);
      ScoringIs(x, g, e, FN);
      ScoringIs(x, g, e, FP);
      ScoringIs(x, g, e, TN);
      if ScoredTrial(x, g, e, LlmMetricKind) { ScoredDecides(x, g, e, LlmMetricKind); }
    }
    hide Labelled;
    Apart(ScoringTrials(x, g, TP), ScoringTrials(x, g, FN), Labelled(x, g, Positive));
    Apart(ScoringTrials(x, g, FP), ScoringTrials(x, g, TN), Labelled(x, g, Negative));
  }

  lemma MutantTotals(x: View, n: map<Id, nat>, g: Scope)
    requires Ready(x.bound, x.profile) && RecordsOk(x)
    ensures Total(x, n, g, KilledCount) + Total(x, n, g, SurvivedCount) + Total(x, n, g, NoCoverageCount) == |Mutants(x, g)|
  {
    hide Ready, RecordsOk, Total, ScoredTrial, ScoredResult, ScoresAs, CaseOf, InScope, ScoringTrials;
    ScoresMean(x, n, g, KilledCount);
    ScoresMean(x, n, g, SurvivedCount);
    ScoresMean(x, n, g, NoCoverageCount);
    var killed, survived, missed :=
      ScoringTrials(x, g, KilledCount), ScoringTrials(x, g, SurvivedCount), ScoringTrials(x, g, NoCoverageCount);
    forall e
      ensures e in killed || e in survived || e in missed <==> e in Mutants(x, g)
      ensures !(e in killed && e in survived) && !(e in killed && e in missed) && !(e in survived && e in missed)
    {
      ScoringIs(x, g, e, KilledCount);
      ScoringIs(x, g, e, SurvivedCount);
      ScoringIs(x, g, e, NoCoverageCount);
      if ScoredTrial(x, g, e, MutationKind) { ScoredDecides(x, g, e, MutationKind); }
    }
    hide Mutants;
    Apart(killed, survived, killed + survived);
    Apart(killed + survived, missed, Mutants(x, g));
  }

  lemma HitTotal(x: View, n: map<Id, nat>, g: Scope, name: MetricName, c: Counter)
    requires Ready(x.bound, x.profile) && RecordsOk(x)
    requires c == match name
                  case Recall => TP
                  case Fnr => FN
                  case Fpr => FP
                  case Asr => AsrDeviation
                  case MutationScore => KilledCount
    ensures Total(x, n, g, c) == |Hits(x, g, name)|
  {
    hide Ready, RecordsOk, Total, ScoredTrial, ScoredResult, ScoresAs, CaseOf, InScope, ScoringTrials, Labelled, Mutants;
    ScoresMean(x, n, g, c);
    forall e ensures e in ScoringTrials(x, g, c) <==> e in Hits(x, g, name) { ScoringIs(x, g, e, c); }
    hide Hits;
    assert ScoringTrials(x, g, c) == Hits(x, g, name);
  }

  lemma AsrTotal(x: View, n: map<Id, nat>, g: Scope)
    requires Ready(x.bound, x.profile) && RecordsOk(x)
    ensures Total(x, n, g, AsrPositive) == |Measured(x, g, Asr)|
  {
    hide Ready, RecordsOk, Total, ScoredTrial, ScoredResult, ScoresAs, CaseOf, InScope, ScoringTrials, Labelled;
    ScoresMean(x, n, g, AsrPositive);
    forall e ensures e in ScoringTrials(x, g, AsrPositive) <==> e in Measured(x, g, Asr) { ScoringIs(x, g, e, AsrPositive); }
    hide Measured;
    assert ScoringTrials(x, g, AsrPositive) == Measured(x, g, Asr);
  }

  lemma RatioMeans(x: View, n: map<Id, nat>, g: Scope, name: MetricName)
    requires Ready(x.bound, x.profile) && RecordsOk(x)
    ensures RatioOf(name, BucketOf(x, n, g)) == Ratio(|Hits(x, g, name)|, |Measured(x, g, name)|)
  {
    hide Ready, RecordsOk, Total, Labelled, Mutants, Hits;
    LabelledTotals(x, n, g);
    MutantTotals(x, n, g);
    AsrTotal(x, n, g);
    match name
    case Recall => HitTotal(x, n, g, name, TP);
    case Fnr => HitTotal(x, n, g, name, FN);
    case Fpr => HitTotal(x, n, g, name, FP);
    case Asr => HitTotal(x, n, g, name, AsrDeviation);
    case MutationScore => HitTotal(x, n, g, name, KilledCount);
  }

  /** A metric is the share of its hits among the scored trials it measures: the
      detected or the missed of the positives, the detected of the negatives, the
      deviating of the positives with a deviation, the killed of the mutants. It
      is compared where the baseline measures some, and the miss rate never. */
  lemma MetricMeans(x: View, n: map<Id, nat>, g: Scope, name: MetricName)
    requires Ready(x.bound, x.profile) && RecordsOk(x) && g.variant == Candidate && !g.VariantScope?
    requires MetricAt(x, n, g, name).Some?
    ensures var m, before := MetricAt(x, n, g, name).value, g.(variant := Baseline);
            && m.ratio == Ratio(|Hits(x, g, name)|, |Measured(x, g, name)|)
            && (m.baseline.Some? <==> name != Fnr && Measured(x, before, name) != {})
            && (m.baseline.Some? ==> m.baseline.value == Ratio(|Hits(x, before, name)|, |Measured(x, before, name)|))
  {
    hide Ready, RecordsOk, RatioOf, Hits, Measured, IsCritical, HasKind;
    RatioMeans(x, n, g, name);
    RatioMeans(x, n, g.(variant := Baseline), name);
    if Measured(x, g.(variant := Baseline), name) != {} { MeasuredKind(x, g.(variant := Baseline), name); }
  }

  lemma MeasuredKind(x: View, g: Scope, name: MetricName)
    requires Measured(x, g, name) != {}
    ensures HasKind(x.bound, g, KindOf(name))
  {
    hide Scorable, InScope, CaseOf, Choice, ObligationOf;
    var e :| e in Measured(x, g, name);
    assert ScoredTrial(x, g, e, KindOf(name));
  }
}
