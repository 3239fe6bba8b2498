/** The counting loop: every planned stage adds to six buckets at once. */
module AggregationCounts {
  import opened Common
  import opened Attempts
  import opened AggregationSpec
  import opened AggregationLaws
  import opened AggregationLoops
  import opened AggregationSelection
  import opened Sums

  datatype Cell = Cell(scope: Scope, counter: Counter)

  function Get(cells: map<Cell, nat>, g: Scope, c: Counter): nat {
    if Cell(g, c) in cells then cells[Cell(g, c)] else 0
  }

  /** The six buckets an entry adds to. */
  function ScopesOf(b: Bound, e: Entry): seq<Scope> {
    var control, category := ObligationOf(b, e).controlId, CaseOf(b, e).category;
    [VariantScope(e.variant), ControlScope(e.variant, control), CategoryScope(e.variant, category),
     ObligationScope(e.variant, e.obligationId), ControlCategoryScope(e.variant, control, category),
     ObligationCategoryScope(e.variant, e.obligationId, category)]
  }

  lemma ScopesAre(b: Bound, e: Entry)
    ensures forall g :: g in ScopesOf(b, e) <==> InScope(b, e, g)
    ensures Distinct(ScopesOf(b, e))
  {
    hide ObligationOf, CaseOf;
    forall g ensures g in ScopesOf(b, e) <==> InScope(b, e, g) {
      var six := ScopesOf(b, e);
      assert g in six <==> g == six[0] || g == six[1] || g == six[2] || g == six[3] || g == six[4] || g == six[5];
    }
  }

  /** The buckets of an entry grew by the given amounts, the others did not. */
  ghost predicate Grew(before: map<Cell, nat>, after: map<Cell, nat>, b: Bound, e: Entry, gain: Counter -> nat) {
    forall g, c :: Get(after, g, c) == Get(before, g, c) + (if InScope(b, e, g) then gain(c) else 0)
  }

  ghost function Nothing(): Counter -> nat { c => 0 }

  ghost function Only(c: Counter, amount: nat): Counter -> nat { d => if d == c then amount else 0 }

  ghost function Both(f: Counter -> nat, g: Counter -> nat): Counter -> nat { c => f(c) + g(c) }

  /** One increment on top of others. */
  ghost function Plus(f: Counter -> nat, c: Counter, amount: nat): Counter -> nat { Both(f, Only(c, amount)) }

  lemma PlusAt(f: Counter -> nat, c: Counter, amount: nat, d: Counter)
    ensures Plus(f, c, amount)(d) == f(d) + if d == c then amount else 0
  {
  }

  lemma OnlyAt(c: Counter, amount: nat, d: Counter)
    ensures Only(c, amount)(d) == if d == c then amount else 0
  {
  }

  lemma NothingAt(c: Counter)
    ensures Nothing()(c) == 0
  {
  }

  // What one planned stage adds, part by part.

  ghost function BaseGain(x: View, n: map<Id, nat>, s: Slot): Counter -> nat { c => BaseDelta(x, n, s, c) }

  ghost function UnselectedGain(x: View, s: Slot): Counter -> nat { c => UnselectedDelta(x, s, c) }

  ghost function SelectedGain(x: View, n: map<Id, nat>, s: Slot, r: Record): Counter -> nat { c => SelectedDelta(x, n, s, r, c) }

  ghost function ConstraintGain(r: NormalizedResult, forbids: bool): Counter -> nat { c => ConstraintDelta(r, forbids, c) }

  ghost function LlmGain(r: NormalizedResult, forbids: bool, scorable: bool, expected: Label): Counter -> nat {
    c => LlmDelta(r, forbids, scorable, expected, c)
  }

  ghost function MutationGain(r: NormalizedResult, scorable: bool): Counter -> nat { c => MutationDelta(r, scorable, c) }

  ghost function Members(ids: seq<Id>): set<Id> { set id | id in ids }

  ghost function RetriesAmong(x: View, ids: set<Id>): set<Id>
    requires ids <= x.facts.records.Keys
  {
    set id | id in ids && x.facts.records[id].retryOf.Some?
  }

  ghost function FaultsAmong(x: View, ids: set<Id>): set<Id>
    requires ids <= x.facts.records.Keys
  {
    set id | id in ids && Faulty(x.facts.records[id])
  }

  lemma OneMoreRetry(x: View, ids: set<Id>, id: Id)
    requires ids <= x.facts.records.Keys && id in x.facts.records && id !in ids
    ensures |RetriesAmong(x, ids + {id})| == |RetriesAmong(x, ids)| + Indicator(x.facts.records[id].retryOf.Some?)
  {
    if x.facts.records[id].retryOf.Some? {
      assert RetriesAmong(x, ids + {id}) == RetriesAmong(x, ids) + {id};
    } else {
      assert RetriesAmong(x, ids + {id}) == RetriesAmong(x, ids);
    }
  }

  lemma OneMoreFault(x: View, ids: set<Id>, id: Id)
    requires ids <= x.facts.records.Keys && id in x.facts.records && id !in ids
    ensures |FaultsAmong(x, ids + {id})| == |FaultsAmong(x, ids)| + Indicator(Faulty(x.facts.records[id]))
  {
    hide Faulty;
    if Faulty(x.facts.records[id]) {
      assert FaultsAmong(x, ids + {id}) == FaultsAmong(x, ids) + {id};
    } else {
      assert FaultsAmong(x, ids + {id}) == FaultsAmong(x, ids);
    }
  }

  /** How often the records of a stage were delivered, how many of them are
      retries and how many ended in a fault. */
  method SumRecords(x: View, n: map<Id, nat>, records: seq<Id>) returns (deliveries: nat, retries: nat, faults: nat)
    requires n.Keys == x.facts.records.Keys && Members(records) <= x.facts.records.Keys && Distinct(records)
    ensures deliveries == SumSet(Members(records), DeliveriesOf(n))
    ensures retries == |RetriesAmong(x, Members(records))|
    ensures faults == |FaultsAmong(x, Members(records))|
  {
    hide SumSet, Faulty;
    deliveries, retries, faults := 0, 0, 0;
    SumZero(Members([]), DeliveriesOf(n));
    var j := 0;
    while j < |records|
      invariant 0 <= j <= |records| && Members(records[..j]) <= x.facts.records.Keys
      invariant deliveries == SumSet(Members(records[..j]), DeliveriesOf(n))
      invariant retries == |RetriesAmong(x, Members(records[..j]))|
      invariant faults == |FaultsAmong(x, Members(records[..j]))|
    {
      var id := records[j];
      assert id in Members(records) && id !in Members(records[..j]);
      assert Members(records[..j + 1]) == Members(records[..j]) + {id};
      SumAdd(Members(records[..j]), DeliveriesOf(n), id);
      OneMoreRetry(x, Members(records[..j]), id);
      OneMoreFault(x, Members(records[..j]), id);
      deliveries := deliveries + n[id];
      if x.facts.records[id].retryOf.Some? { retries := retries + 1; }
      if Faulty(x.facts.records[id]) { faults := faults + 1; }
      j := j + 1;
    }
    assert records[..j] == records;
  }

  lemma BaseAt(x: View, n: map<Id, nat>, s: Slot, records: seq<Id>, error: bool, c: Counter)
    requires forall id :: id in records <==> id in At(x, KeyAt(s))
    requires Members(records) <= x.facts.records.Keys
    requires error <==> ObligationOf(x.bound, s.entry).kind == MutationKind && IsScored(x, s) && Unrecovered(x, s.entry)
    ensures BaseDelta(x, n, s, c) == match c
                                     case PlannedCount => 1
                                     case MutationErrorCount => Indicator(error)
                                     case AttemptCount => SumSet(Members(records), DeliveriesOf(n))
                                     case RetryCount => |RetriesAmong(x, Members(records))|
                                     case FaultCount => |FaultsAmong(x, Members(records))|
                                     case _ => 0
  {
    hide At, Faulty, IsScored, Unrecovered, SumSet, ObligationOf;
    var ids := At(x, KeyAt(s));
    assert Members(records) == ids;
    assert RetriesAmong(x, ids) == set id | id in ids && x.facts.records[id].retryOf.Some?;
    assert FaultsAmong(x, ids) == set id | id in ids && Faulty(x.facts.records[id]);
  }

  lemma GrewTwice(m0: map<Cell, nat>, m1: map<Cell, nat>, m2: map<Cell, nat>, b: Bound, e: Entry,
                  f: Counter -> nat, g: Counter -> nat)
    requires Grew(m0, m1, b, e, f) && Grew(m1, m2, b, e, g)
    ensures Grew(m0, m2, b, e, Both(f, g))
  {
    hide Get, InScope;
  }

  lemma GrewBy(before: map<Cell, nat>, after: map<Cell, nat>, b: Bound, e: Entry, f: Counter -> nat, g: Counter -> nat)
    requires Grew(before, after, b, e, f) && forall c :: f(c) == g(c)
    ensures Grew(before, after, b, e, g)
  {
    hide Get, InScope;
  }

  lemma GrewNothing(cells: map<Cell, nat>, b: Bound, e: Entry)
    ensures Grew(cells, cells, b, e, Nothing())
  {
    hide Get, InScope;
  }

  ghost predicate Gained(before: map<Cell, nat>, after: map<Cell, nat>, scopes: seq<Scope>, c: Counter, amount: nat) {
    forall g, d :: Get(after, g, d) == Get(before, g, d) + (if g in scopes && d == c then amount else 0)
  }

  lemma GainedNext(before: map<Cell, nat>, after: map<Cell, nat>, next: map<Cell, nat>, scopes: seq<Scope>, j: nat,
                   c: Counter, amount: nat)
    requires j < |scopes| && Distinct(scopes) && Gained(before, after, scopes[..j], c, amount)
    requires next == after[Cell(scopes[j], c) := Get(after, scopes[j], c) + amount]
    ensures Gained(before, next, scopes[..j + 1], c, amount)
  {
    forall g, d ensures Get(next, g, d) == Get(before, g, d) + (if g in scopes[..j + 1] && d == c then amount else 0) {
      GainedAt(before, after, next, scopes, j, c, amount, g, d);
    }
  }

  lemma GainedAt(before: map<Cell, nat>, after: map<Cell, nat>, next: map<Cell, nat>, scopes: seq<Scope>, j: nat,
                 c: Counter, amount: nat, g: Scope, d: Counter)
    requires j < |scopes| && Distinct(scopes) && Gained(before, after, scopes[..j], c, amount)
    requires next == after[Cell(scopes[j], c) := Get(after, scopes[j], c) + amount]
    ensures Get(next, g, d) == Get(before, g, d) + (if g in scopes[..j + 1] && d == c then amount else 0)
  {
    assert Get(after, g, d) == Get(before, g, d) + (if g in scopes[..j] && d == c then amount else 0);
    hide Gained;
    assert scopes[j] !in scopes[..j];
    assert g in scopes[..j + 1] <==> g in scopes[..j] || g == scopes[j];
  }

  class Tally {
    var cells: map<Cell, nat>

    constructor ()
      ensures cells == map[]
    {
      cells := map[];
    }

    /** Adds to one counter of the six buckets of an entry. */
    method Inc(b: Bound, e: Entry, c: Counter, amount: nat)
      modifies this
      ensures Grew(old(cells), cells, b, e, Only(c, amount))
    {
      hide InScope, ScopesOf, Get;
      var scopes := ScopesOf(b, e);
      ScopesAre(b, e);
      ghost var before := cells;
      var j := 0;
      while j < |scopes|
        invariant 0 <= j <= |scopes| && Gained(before, cells, scopes[..j], c, amount)
      {
        var next := cells[Cell(scopes[j], c) := Get(cells, scopes[j], c) + amount];
        GainedNext(before, cells, next, scopes, j, c, amount);
        cells := next;
        j := j + 1;
      }
      assert scopes[..j] == scopes;
    }

    /** As Inc, on top of what the entry has gained since `base`. */
    method Add(b: Bound, e: Entry, c: Counter, amount: nat, ghost base: map<Cell, nat>, ghost gain: Counter -> nat)
      requires Grew(base, cells, b, e, gain)
      modifies this
      ensures Grew(base, cells, b, e, Plus(gain, c, amount))
    {
      hide Grew;
      ghost var before := cells;
      Inc(b, e, c, amount);
      GrewTwice(base, before, cells, b, e, gain, Only(c, amount));
    }

    /** What a planned stage adds before its selected record is looked at. */
    method CountBase(x: View, n: map<Id, nat>, s: Slot, records: seq<Id>, unrecovered: bool)
      requires n.Keys == x.facts.records.Keys && Members(records) <= x.facts.records.Keys && Distinct(records)
      requires forall id :: id in records <==> id in At(x, KeyAt(s))
      requires unrecovered <==> Unrecovered(x, s.entry)
      modifies this
      ensures Grew(old(cells), cells, x.bound, s.entry, BaseGain(x, n, s))
    {
      hide Grew, Plus, Both, Only, Nothing, BaseGain, At, Unrecovered, ObligationOf, CaseOf, SumSet, RetriesAmong, FaultsAmong;
      var b, e := x.bound, s.entry;
      ghost var before := cells;
      GrewNothing(before, b, e);
      Add(b, e, PlannedCount, 1, before, Nothing());
      ghost var gain := Plus(Nothing(), PlannedCount, 1);
      var failed := ObligationOf(b, e).kind == MutationKind && s.stageId == CaseOf(b, e).scoredStageId && unrecovered;
      if failed {
        Add(b, e, MutationErrorCount, 1, before, gain);
        gain := Plus(gain, MutationErrorCount, 1);
      }
      var deliveries, retries, faults := SumRecords(x, n, records);
      Add(b, e, AttemptCount, deliveries, before, gain);
      gain := Plus(gain, AttemptCount, deliveries);
      Add(b, e, RetryCount, retries, before, gain);
      gain := Plus(gain, RetryCount, retries);
      Add(b, e, FaultCount, faults, before, gain);
      BaseGrew(before, cells, x, n, s, records, failed);
    }

    /** A stage without a selected record is a conflict, an error or missing. */
    method CountUnselected(x: View, s: Slot, conflict: bool, trouble: bool)
      requires conflict <==> ConflictAt(x, KeyAt(s))
      requires trouble <==> FaultAt(x, KeyAt(s)) || ErrorAt(x, KeyAt(s))
      modifies this
      ensures Grew(old(cells), cells, x.bound, s.entry, UnselectedGain(x, s))
    {
      hide *;
      if conflict {
        Inc(x.bound, s.entry, ConflictCount, 1);
      } else if trouble {
        Inc(x.bound, s.entry, ErrorCount, 1);
      } else {
        Inc(x.bound, s.entry, MissingCount, 1);
      }
      UnselectedGrew(old(cells), cells, x, s, conflict, trouble);
    }

    method CountConstraint(b: Bound, e: Entry, r: NormalizedResult, forbids: bool)
      modifies this
      ensures Grew(old(cells), cells, b, e, ConstraintGain(r, forbids))
    {
      hide Grew, Plus, Both, Only, Nothing, ConstraintGain;
      ghost var before := cells;
      GrewNothing(before, b, e);
      ghost var gain := Nothing();
      if r.observation == Some(UnknownCheck) {
        Add(b, e, IndeterminateCount, 1, before, gain);
        gain := Plus(gain, IndeterminateCount, 1);
        Add(b, e, ConstraintUnknown, 1, before, gain);
        gain := Plus(gain, ConstraintUnknown, 1);
      } else if r.observation == Some(Fail) {
        Add(b, e, ConstraintFail, 1, before, gain);
        gain := Plus(gain, ConstraintFail, 1);
        if forbids {
          Add(b, e, ForbiddenCount, 1, before, gain);
          gain := Plus(gain, ForbiddenCount, 1);
        }
      } else {
        Add(b, e, ConstraintPass, 1, before, gain);
        gain := Plus(gain, ConstraintPass, 1);
      }
      ConstraintGrew(before, cells, b, e, r, forbids);
    }

    method CountLlm(b: Bound, e: Entry, r: NormalizedResult, forbids: bool, scorable: bool, expected: Label)
      modifies this
      ensures Grew(old(cells), cells, b, e, LlmGain(r, forbids, scorable, expected))
    {
      hide Grew, Plus, Both, Only, Nothing, LlmGain;
      ghost var before := cells;
      GrewNothing(before, b, e);
      ghost var gain := Nothing();
      var detected := r.detection == Some(Detect);
      if r.detection == Some(Indeterminate) {
        Add(b, e, IndeterminateCount, 1, before, gain);
        gain := Plus(gain, IndeterminateCount, 1);
        Add(b, e, DetectionMissing, 1, before, gain);
        gain := Plus(gain, DetectionMissing, 1);
      } else if scorable && expected == Positive {
        var c := if detected then TP else FN;
        Add(b, e, c, 1, before, gain);
        gain := Plus(gain, c, 1);
      } else if scorable && expected == Negative {
        var c := if detected then FP else TN;
        Add(b, e, c, 1, before, gain);
        gain := Plus(gain, c, 1);
      }
      if r.deviation.None? {
        Add(b, e, DeviationMissing, 1, before, gain);
        gain := Plus(gain, DeviationMissing, 1);
      } else if scorable && expected == Positive {
        Add(b, e, AsrPositive, 1, before, gain);
        gain := Plus(gain, AsrPositive, 1);
        Add(b, e, AsrDeviation, Indicator(r.deviation.value), before, gain);
        gain := Plus(gain, AsrDeviation, Indicator(r.deviation.value));
      }
      if forbids && r.deviation == Some(true) {
        Add(b, e, ForbiddenCount, 1, before, gain);
        gain := Plus(gain, ForbiddenCount, 1);
      }
      LlmGrew(before, cells, b, e, r, forbids, scorable, expected);
    }

    method CountMutation(b: Bound, e: Entry, r: NormalizedResult, scorable: bool)
      modifies this
      ensures Grew(old(cells), cells, b, e, MutationGain(r, scorable))
    {
      hide Grew, Only, Nothing, MutationGain;
      GrewNothing(cells, b, e);
      if scorable { Inc(b, e, OutcomeCounter(r), 1); }
      MutationGrew(old(cells), cells, b, e, r, scorable);
    }

    /** What the selected record of a stage adds. */
    method CountSelected(x: View, n: map<Id, nat>, s: Slot, r: Record, scorable: bool)
      requires r.attemptId in n && r.result.Some?
      requires scorable <==> CountsForScore(x, s)
      modifies this
      ensures Grew(old(cells), cells, x.bound, s.entry, SelectedGain(x, n, s, r))
    {
      hide Grew, Plus, Both, Only, Nothing, SelectedGain, OutcomeGain, CountsForScore, StageForbids, CaseOf;
      hide ConstraintGain, LlmGain, MutationGain;
      var b, e, deliveries := x.bound, s.entry, n[r.attemptId];
      ghost var before := cells;
      GrewNothing(before, b, e);
      ghost var gain := Nothing();
      Add(b, e, CompleteCount, 1, before, gain);
      gain := Plus(gain, CompleteCount, 1);
      Add(b, e, DeliveryCount, deliveries, before, gain);
      gain := Plus(gain, DeliveryCount, deliveries);
      var copies := if deliveries > 1 then deliveries - 1 else 0;
      Add(b, e, DuplicateDeliveries, copies, before, gain);
      gain := Plus(gain, DuplicateDeliveries, copies);
      ghost var middle := cells;
      match r.result.value.mode {
        case Some(ConstraintMode) => CountConstraint(b, e, r.result.value, StageForbids(b, s));
        case Some(LlmMode) => CountLlm(b, e, r.result.value, StageForbids(b, s), scorable, CaseOf(b, e).expected);
        case Some(MutationMode) => CountMutation(b, e, r.result.value, scorable);
        case None => Inc(b, e, ErrorCount, 1);
      }
      OutcomeGrew(x, s, r.result.value, middle, cells);
      GrewTwice(before, middle, cells, b, e, gain, OutcomeGain(x, s, r.result.value));
      SelectedGrew(before, cells, x, n, s, r);
    }
  }

  function OutcomeCounter(r: NormalizedResult): Counter {
    if r.mutation == Some(Killed) then KilledCount
    else if r.mutation == Some(Survived) then SurvivedCount
    else if r.mutation == Some(NoCoverage) then NoCoverageCount
    else MutationErrorCount
  }

  /** What the increments of CountBase come to. */
  ghost function BaseSteps(error: bool, deliveries: nat, retries: nat, faults: nat): Counter -> nat {
    var gain := Plus(Nothing(), PlannedCount, 1);
    var also := if error then Plus(gain, MutationErrorCount, 1) else gain;
    Plus(Plus(Plus(also, AttemptCount, deliveries), RetryCount, retries), FaultCount, faults)
  }

  lemma BaseStepsAt(error: bool, deliveries: nat, retries: nat, faults: nat, c: Counter)
    ensures BaseSteps(error, deliveries, retries, faults)(c) == match c
                                                                case PlannedCount => 1
                                                                case MutationErrorCount => Indicator(error)
                                                                case AttemptCount => deliveries
                                                                case RetryCount => retries
                                                                case FaultCount => faults
                                                                case _ => 0
  {
    hide Plus, Nothing;
    var f := Plus(Nothing(), PlannedCount, 1);
    var g := if error then Plus(f, MutationErrorCount, 1) else f;
    var h := Plus(g, AttemptCount, deliveries);
    NothingAt(c);
    PlusAt(Nothing(), PlannedCount, 1, c);
    PlusAt(f, MutationErrorCount, 1, c);
    PlusAt(g, AttemptCount, deliveries, c);
    PlusAt(h, RetryCount, retries, c);
    PlusAt(Plus(h, RetryCount, retries), FaultCount, faults, c);
  }

  lemma BaseGrew(before: map<Cell, nat>, after: map<Cell, nat>, x: View, n: map<Id, nat>, s: Slot, records: seq<Id>, error: bool)
    requires forall id :: id in records <==> id in At(x, KeyAt(s))
    requires Members(records) <= x.facts.records.Keys
    requires error <==> ObligationOf(x.bound, s.entry).kind == MutationKind && IsScored(x, s) && Unrecovered(x, s.entry)
    requires Grew(before, after, x.bound, s.entry,
                  BaseSteps(error, SumSet(Members(records), DeliveriesOf(n)), |RetriesAmong(x, Members(records))|,
                            |FaultsAmong(x, Members(records))|))
    ensures Grew(before, after, x.bound, s.entry, BaseGain(x, n, s))
  {
    hide Grew, BaseDelta, BaseSteps, At, Unrecovered, IsScored, SumSet, ObligationOf, RetriesAmong, FaultsAmong, Members;
    var deliveries, retries, faults
      := SumSet(Members(records), DeliveriesOf(n)), |RetriesAmong(x, Members(records))|, |FaultsAmong(x, Members(records))|;
    forall c ensures BaseSteps(error, deliveries, retries, faults)(c) == BaseGain(x, n, s)(c) {
      BaseStepsAt(error, deliveries, retries, faults, c);
      BaseAt(x, n, s, records, error, c);
    }
    GrewBy(before, after, x.bound, s.entry, BaseSteps(error, deliveries, retries, faults), BaseGain(x, n, s));
  }

  lemma UnselectedAt(x: View, s: Slot, conflict: bool, trouble: bool, c: Counter)
    requires conflict <==> ConflictAt(x, KeyAt(s))
    requires trouble <==> FaultAt(x, KeyAt(s)) || ErrorAt(x, KeyAt(s))
    ensures Only(if conflict then ConflictCount else if trouble then ErrorCount else MissingCount, 1)(c)
            == UnselectedGain(x, s)(c)
  {
    hide ConflictAt, FaultAt, ErrorAt;
  }

  lemma UnselectedGrew(before: map<Cell, nat>, after: map<Cell, nat>, x: View, s: Slot, conflict: bool, trouble: bool)
    requires conflict <==> ConflictAt(x, KeyAt(s))
    requires trouble <==> FaultAt(x, KeyAt(s)) || ErrorAt(x, KeyAt(s))
    requires Grew(before, after, x.bound, s.entry,
                  Only(if conflict then ConflictCount else if trouble then ErrorCount else MissingCount, 1))
    ensures Grew(before, after, x.bound, s.entry, UnselectedGain(x, s))
  {
    hide *;
    var c := if conflict then ConflictCount else if trouble then ErrorCount else MissingCount;
    forall d ensures Only(c, 1)(d) == UnselectedGain(x, s)(d) { UnselectedAt(x, s, conflict, trouble, d); }
    GrewBy(before, after, x.bound, s.entry, Only(c, 1), UnselectedGain(x, s));
  }

  ghost function ConstraintSteps(r: NormalizedResult, forbids: bool): Counter -> nat {
    if r.observation == Some(UnknownCheck)
    then Plus(Plus(Nothing(), IndeterminateCount, 1), ConstraintUnknown, 1)
    else if r.observation == Some(Fail)
    then if forbids then Plus(Plus(Nothing(), ConstraintFail, 1), ForbiddenCount, 1)
         else Plus(Nothing(), ConstraintFail, 1)
    else Plus(Nothing(), ConstraintPass, 1)
  }

  lemma ConstraintAt(r: NormalizedResult, forbids: bool, c: Counter)
    ensures ConstraintSteps(r, forbids)(c) == ConstraintGain(r, forbids)(c)
  {
    hide Plus, Nothing;
    NothingAt(c);
    PlusAt(Nothing(), IndeterminateCount, 1, c);
    PlusAt(Plus(Nothing(), IndeterminateCount, 1), ConstraintUnknown, 1, c);
    PlusAt(Nothing(), ConstraintFail, 1, c);
    PlusAt(Plus(Nothing(), ConstraintFail, 1), ForbiddenCount, 1, c);
    PlusAt(Nothing(), ConstraintPass, 1, c);
  }

  lemma ConstraintGrew(before: map<Cell, nat>, after: map<Cell, nat>, b: Bound, e: Entry, r: NormalizedResult, forbids: bool)
    requires Grew(before, after, b, e, ConstraintSteps(r, forbids))
    ensures Grew(before, after, b, e, ConstraintGain(r, forbids))
  {
    hide *;
    forall c ensures ConstraintSteps(r, forbids)(c) == ConstraintGain(r, forbids)(c) { ConstraintAt(r, forbids, c); }
    GrewBy(before, after, b, e, ConstraintSteps(r, forbids), ConstraintGain(r, forbids));
  }

  ghost function DetectionSteps(r: NormalizedResult, scorable: bool, expected: Label): Counter -> nat {
    if r.detection == Some(Indeterminate)
    then Plus(Plus(Nothing(), IndeterminateCount, 1), DetectionMissing, 1)
    else if scorable && expected == Positive
    then Plus(Nothing(), if r.detection == Some(Detect) then TP else FN, 1)
    else if scorable && expected == Negative
    then Plus(Nothing(), if r.detection == Some(Detect) then FP else TN, 1)
    else Nothing()
  }

  ghost function DeviationSteps(r: NormalizedResult, scorable: bool, expected: Label): Counter -> nat {
    var gain := DetectionSteps(r, scorable, expected);
    if r.deviation.None? then Plus(gain, DeviationMissing, 1)
    else if scorable && expected == Positive
    then Plus(Plus(gain, AsrPositive, 1), AsrDeviation, Indicator(r.deviation.value))
    else gain
  }

  ghost function LlmSteps(r: NormalizedResult, forbids: bool, scorable: bool, expected: Label): Counter -> nat {
    var gain := DeviationSteps(r, scorable, expected);
    if forbids && r.deviation == Some(true) then Plus(gain, ForbiddenCount, 1) else gain
  }

  lemma DetectionAt(r: NormalizedResult, scorable: bool, expected: Label, c: Counter)
    ensures DetectionSteps(r, scorable, expected)(c)
            == if c == TP || c == FN || c == FP || c == TN || c == IndeterminateCount || c == DetectionMissing
               then LlmDelta(r, false, scorable, expected, c) else 0
  {
    hide Plus, Nothing;
    NothingAt(c);
    PlusAt(Nothing(), IndeterminateCount, 1, c);
    PlusAt(Plus(Nothing(), IndeterminateCount, 1), DetectionMissing, 1, c);
    PlusAt(Nothing(), if r.detection == Some(Detect) then TP else FN, 1, c);
    PlusAt(Nothing(), if r.detection == Some(Detect) then FP else TN, 1, c);
  }

  lemma DeviationAt(r: NormalizedResult, scorable: bool, expected: Label, c: Counter)
    ensures DeviationSteps(r, scorable, expected)(c) == LlmDelta(r, false, scorable, expected, c)
  {
    hide Plus, DetectionSteps;
    var f := DetectionSteps(r, scorable, expected);
    DetectionAt(r, scorable, expected, c);
    PlusAt(f, DeviationMissing, 1, c);
    PlusAt(f, AsrPositive, 1, c);
    if r.deviation.Some? {
      PlusAt(Plus(f, AsrPositive, 1), AsrDeviation, Indicator(r.deviation.value), c);
    }
  }

  lemma LlmAt(r: NormalizedResult, forbids: bool, scorable: bool, expected: Label, c: Counter)
    ensures LlmSteps(r, forbids, scorable, expected)(c) == LlmGain(r, forbids, scorable, expected)(c)
  {
    hide Plus, DeviationSteps;
    DeviationAt(r, scorable, expected, c);
    PlusAt(DeviationSteps(r, scorable, expected), ForbiddenCount, 1, c);
  }

  lemma LlmGrew(before: map<Cell, nat>, after: map<Cell, nat>, b: Bound, e: Entry, r: NormalizedResult, forbids: bool,
                scorable: bool, expected: Label)
    requires Grew(before, after, b, e, LlmSteps(r, forbids, scorable, expected))
    ensures Grew(before, after, b, e, LlmGain(r, forbids, scorable, expected))
  {
    hide *;
    forall c ensures LlmSteps(r, forbids, scorable, expected)(c) == LlmGain(r, forbids, scorable, expected)(c) {
      LlmAt(r, forbids, scorable, expected, c);
    }
    GrewBy(before, after, b, e, LlmSteps(r, forbids, scorable, expected), LlmGain(r, forbids, scorable, expected));
  }

  ghost function MutationSteps(r: NormalizedResult, scorable: bool): Counter -> nat {
    if scorable then Only(OutcomeCounter(r), 1) else Nothing()
  }

  lemma MutationAt(r: NormalizedResult, scorable: bool, c: Counter)
    ensures MutationSteps(r, scorable)(c) == MutationGain(r, scorable)(c)
  {
    hide Only, Nothing;
    NothingAt(c);
    OnlyAt(OutcomeCounter(r), 1, c);
  }

  lemma MutationGrew(before: map<Cell, nat>, after: map<Cell, nat>, b: Bound, e: Entry, r: NormalizedResult, scorable: bool)
    requires Grew(before, after, b, e, MutationSteps(r, scorable))
    ensures Grew(before, after, b, e, MutationGain(r, scorable))
  {
    hide *;
    forall c ensures MutationSteps(r, scorable)(c) == MutationGain(r, scorable)(c) { MutationAt(r, scorable, c); }
    GrewBy(before, after, b, e, MutationSteps(r, scorable), MutationGain(r, scorable));
  }

  ghost function OutcomeGain(x: View, s: Slot, r: NormalizedResult): Counter -> nat { c => OutcomeDelta(x, s, r, c) }

  ghost function ModeGain(x: View, s: Slot, r: NormalizedResult): Counter -> nat {
    match r.mode
    case Some(ConstraintMode) => ConstraintGain(r, StageForbids(x.bound, s))
    case Some(LlmMode) => LlmGain(r, StageForbids(x.bound, s), CountsForScore(x, s), CaseOf(x.bound, s.entry).expected)
    case Some(MutationMode) => MutationGain(r, CountsForScore(x, s))
    case None => Only(ErrorCount, 1)
  }

  lemma OutcomeAt(x: View, s: Slot, r: NormalizedResult, c: Counter)
    ensures ModeGain(x, s, r)(c) == OutcomeGain(x, s, r)(c)
  {
    hide CountsForScore, StageForbids, CaseOf, ConstraintDelta, LlmDelta, MutationDelta;
  }

  lemma OutcomeGrew(x: View, s: Slot, r: NormalizedResult, before: map<Cell, nat>, after: map<Cell, nat>)
    requires Grew(before, after, x.bound, s.entry, ModeGain(x, s, r))
    ensures Grew(before, after, x.bound, s.entry, OutcomeGain(x, s, r))
  {
    hide *;
    forall c ensures ModeGain(x, s, r)(c) == OutcomeGain(x, s, r)(c) { OutcomeAt(x, s, r, c); }
    GrewBy(before, after, x.bound, s.entry, ModeGain(x, s, r), OutcomeGain(x, s, r));
  }

  lemma OutcomeNever(x: View, s: Slot, r: NormalizedResult, c: Counter)
    requires c == CompleteCount || c == DeliveryCount || c == DuplicateDeliveries
    ensures OutcomeDelta(x, s, r, c) == 0
  {
    hide CountsForScore, StageForbids, CaseOf;
  }

  ghost function DeliverySteps(deliveries: nat): Counter -> nat {
    Plus(Plus(Plus(Nothing(), CompleteCount, 1), DeliveryCount, deliveries), DuplicateDeliveries, if deliveries > 1 then deliveries - 1 else 0)
  }

  lemma DeliveryAt(deliveries: nat, c: Counter)
    ensures DeliverySteps(deliveries)(c)
            == if c == CompleteCount then 1 else if c == DeliveryCount then deliveries
               else if c == DuplicateDeliveries && deliveries > 1 then deliveries - 1 else 0
  {
    hide Plus, Nothing;
    var f := Plus(Nothing(), CompleteCount, 1);
    NothingAt(c);
    PlusAt(Nothing(), CompleteCount, 1, c);
    PlusAt(f, DeliveryCount, deliveries, c);
    PlusAt(Plus(f, DeliveryCount, deliveries), DuplicateDeliveries, if deliveries > 1 then deliveries - 1 else 0, c);
  }

  lemma SelectedAt(x: View, n: map<Id, nat>, s: Slot, r: Record, c: Counter)
    requires r.attemptId in n && r.result.Some?
    ensures Both(DeliverySteps(n[r.attemptId]), OutcomeGain(x, s, r.result.value))(c) == SelectedGain(x, n, s, r)(c)
  {
    hide OutcomeDelta, DeliverySteps;
    DeliveryAt(n[r.attemptId], c);
    if c == CompleteCount || c == DeliveryCount || c == DuplicateDeliveries { OutcomeNever(x, s, r.result.value, c); }
  }

  lemma SelectedGrew(before: map<Cell, nat>, after: map<Cell, nat>, x: View, n: map<Id, nat>, s: Slot, r: Record)
    requires r.attemptId in n && r.result.Some?
    requires Grew(before, after, x.bound, s.entry, Both(DeliverySteps(n[r.attemptId]), OutcomeGain(x, s, r.result.value)))
    ensures Grew(before, after, x.bound, s.entry, SelectedGain(x, n, s, r))
  {
    hide *;
    var gain := Both(DeliverySteps(n[r.attemptId]), OutcomeGain(x, s, r.result.value));
    forall c ensures gain(c) == SelectedGain(x, n, s, r)(c) { SelectedAt(x, n, s, r, c); }
    GrewBy(before, after, x.bound, s.entry, gain, SelectedGain(x, n, s, r));
  }
}
