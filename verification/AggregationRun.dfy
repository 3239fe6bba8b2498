/** One aggregation from its inputs to counts, issues and flags. */
module AggregationRun {
  import opened Common
  import opened Attempts
  import opened AggregationSpec
  import opened DeliveryLaws
  import opened AggregationLaws
  import opened ComparisonLaws
  import opened AggregationLoops
  import opened AggregationSelection
  import opened AggregationTrials
  import opened AggregationCounts
  import opened Sums

  // ---------- one planned stage ----------

  /** Everything the earlier loops leave for the counting loop. */
  datatype Prepared = Prepared(
    logical: map<Key, seq<Id>>, selected: map<Key, Record>, conflictKeys: set<Key>,
    faults: set<Key>, errors: set<Key>, scorable: set<Entry>)

  ghost predicate PreparedOk(x: View, order: seq<Id>, q: Prepared) {
    && OrderOk(x, order) && LogicalOk(x, order, q.logical)
    && ChosenOk(x, q.selected)
    && (forall k :: k in q.conflictKeys <==> ConflictAt(x, k))
    && KeysOk(x, q.faults, q.errors)
    && (forall e :: e in q.scorable <==> e in x.bound.entries && Scorable(x, e))
  }

  lemma StageFacts(x: View, order: seq<Id>, q: Prepared, s: Slot)
    requires PreparedOk(x, order, q) && Ready(x.bound, x.profile) && s in Slots(x.bound)
    ensures forall id :: id in ListedAt(q.logical, KeyAt(s)) <==> id in At(x, KeyAt(s))
    ensures Distinct(ListedAt(q.logical, KeyAt(s)))
    ensures Found(q.selected, KeyAt(s)) == Choice(x, KeyAt(s))
    ensures KeyAt(s) in q.conflictKeys <==> ConflictAt(x, KeyAt(s))
    ensures KeyAt(s) in q.faults || KeyAt(s) in q.errors <==> FaultAt(x, KeyAt(s)) || ErrorAt(x, KeyAt(s))
    ensures TrialOf(s.entry) in Troubled(q.faults, q.errors) && s.entry !in q.scorable <==> Unrecovered(x, s.entry)
    ensures s.entry in q.scorable <==> Scorable(x, s.entry)
  {
    hide OrderOk, LogicalOk, At, Choice, ConflictAt, FaultAt, ErrorAt, Scorable, Ready, Slots, Troubled;
    var k := KeyAt(s);
    EntryPlanned(x.bound, s);
    if k in q.logical { LogicalAt(x, order, q.logical, k); } else { NoRecords(x, order, q.logical, k); }
    TroubledTrial(x, q.faults, q.errors, s.entry);
  }

  ghost function DeltaGain(x: View, n: map<Id, nat>, s: Slot): Counter -> nat { c => Delta(x, n, s, c) }

  lemma DeltaIs(x: View, n: map<Id, nat>, s: Slot, before: map<Cell, nat>, middle: map<Cell, nat>, after: map<Cell, nat>)
    requires Grew(before, middle, x.bound, s.entry, BaseGain(x, n, s))
    requires var choice := Choice(x, KeyAt(s));
             Grew(middle, after, x.bound, s.entry,
                  if choice.None? then UnselectedGain(x, s) else SelectedGain(x, n, s, choice.value))
    ensures Grew(before, after, x.bound, s.entry, DeltaGain(x, n, s))
  {
    hide Grew, Choice, BaseDelta, UnselectedDelta, SelectedDelta;
    var choice := Choice(x, KeyAt(s));
    var rest := if choice.None? then UnselectedGain(x, s) else SelectedGain(x, n, s, choice.value);
    GrewTwice(before, middle, after, x.bound, s.entry, BaseGain(x, n, s), rest);
    GrewBy(before, after, x.bound, s.entry, Both(BaseGain(x, n, s), rest), DeltaGain(x, n, s));
  }

  /** The body of the counting loop, for the counters. */
  method CountStage(x: View, order: seq<Id>, n: map<Id, nat>, q: Prepared, s: Slot, tally: Tally)
    requires Ready(x.bound, x.profile) && RecordsOk(x) && PreparedOk(x, order, q) && s in Slots(x.bound)
    requires n.Keys == x.facts.records.Keys
    modifies tally
    ensures Grew(old(tally.cells), tally.cells, x.bound, s.entry, DeltaGain(x, n, s))
  {
    hide Grew, Ready, RecordsOk, PreparedOk, Slots, At, Choice, Scorable, Unrecovered, Troubled;
    hide BaseGain, UnselectedGain, SelectedGain, DeltaGain, ConflictAt, FaultAt, ErrorAt, CaseOf;
    var k := KeyAt(s);
    StageFacts(x, order, q, s);
    var unrecovered := TrialOf(s.entry) in Troubled(q.faults, q.errors) && s.entry !in q.scorable;
    tally.CountBase(x, n, s, ListedAt(q.logical, k), unrecovered);
    ghost var middle := tally.cells;
    var choice := Found(q.selected, k);
    if choice.None? {
      tally.CountUnselected(x, s, k in q.conflictKeys, k in q.faults || k in q.errors);
    } else {
      ChoiceSound(x, s);
      var scored := s.stageId == CaseOf(x.bound, s.entry).scoredStageId;
      tally.CountSelected(x, n, s, choice.value, scored && s.entry in q.scorable);
    }
    DeltaIs(x, n, s, old(tally.cells), middle, tally.cells);
  }

  // ---------- the verdict of one planned stage ----------

  datatype Verdict = Verdict(requiredMissing: bool, criticalMissing: bool, forbidden: bool, criticalViolation: bool)

  ghost predicate MissingHere(x: View, s: Slot) { ObligationOf(x.bound, s.entry).required && Unsettled(x, s) }

  ghost predicate CriticalMissingHere(x: View, s: Slot) { MissingHere(x, s) && ObligationOf(x.bound, s.entry).critical }

  ghost predicate CriticalHere(x: View, s: Slot) {
    ObligationOf(x.bound, s.entry).critical
    && (OpenViolation(x, s) || (Choice(x, KeyAt(s)).Some? && FailedConstraint(Choice(x, KeyAt(s)).value)))
  }

  /** The body of the counting loop, for the flags. */
  method JudgeStage(x: View, s: Slot, choice: Option<Record>, before: Verdict) returns (v: Verdict)
    requires Ready(x.bound, x.profile) && RecordsOk(x) && s in Slots(x.bound) && choice == Choice(x, KeyAt(s))
    ensures v.requiredMissing <==> before.requiredMissing || MissingHere(x, s)
    ensures v.criticalMissing <==> before.criticalMissing || CriticalMissingHere(x, s)
    ensures v.forbidden <==> before.forbidden || OpenViolation(x, s)
    ensures v.criticalViolation <==> before.criticalViolation || CriticalHere(x, s)
  {
    hide Ready, RecordsOk, Slots, Choice, StageForbids, ObligationOf;
    var o := ObligationOf(x.bound, s.entry);
    v := before;
    if choice.None? {
      if o.required {
        v := v.(requiredMissing := true);
        if o.critical { v := v.(criticalMissing := true); }
      }
      return;
    }
    ChoiceSound(x, s);
    var r := choice.value.result.value;
    var forbids := StageForbids(x.bound, s);
    if r.mode == Some(ConstraintMode) {
      if r.observation == Some(UnknownCheck) {
        if o.required { v := v.(requiredMissing := true, criticalMissing := v.criticalMissing || o.critical); }
      } else if r.observation == Some(Fail) {
        if forbids { v := v.(forbidden := true, criticalViolation := v.criticalViolation || o.critical); }
        if o.critical { v := v.(criticalViolation := true); }
      }
    } else if r.mode == Some(LlmMode) {
      if r.detection == Some(Indeterminate) && o.required {
        v := v.(requiredMissing := true, criticalMissing := v.criticalMissing || o.critical);
      }
      if r.deviation.None? && o.required {
        v := v.(requiredMissing := true, criticalMissing := v.criticalMissing || o.critical);
      }
      if forbids && r.deviation == Some(true) {
        v := v.(forbidden := true, criticalViolation := v.criticalViolation || o.critical);
      }
    }
  }

  // ---------- the counting loop ----------

  ghost function Reached(ss: set<Slot>, b: Bound, g: Scope): set<Slot> { set s | s in ss && InScope(b, s.entry, g) }

  ghost predicate Counted(x: View, n: map<Id, nat>, ss: set<Slot>, cells: map<Cell, nat>) {
    forall g, c :: Get(cells, g, c) == SumSet(Reached(ss, x.bound, g), DeltaOf(x, n, c))
  }

  lemma CountedNothing(x: View, n: map<Id, nat>)
    ensures Counted(x, n, {}, map[])
  {
    hide SumSet, DeltaOf, InScope;
    forall g, c ensures Get(map[], g, c) == SumSet(Reached({}, x.bound, g), DeltaOf(x, n, c)) {
      SumZero(Reached({}, x.bound, g), DeltaOf(x, n, c));
    }
  }

  lemma CountedNext(x: View, n: map<Id, nat>, ss: set<Slot>, s: Slot, before: map<Cell, nat>, after: map<Cell, nat>)
    requires s !in ss && Counted(x, n, ss, before) && Grew(before, after, x.bound, s.entry, DeltaGain(x, n, s))
    ensures Counted(x, n, ss + {s}, after)
  {
    hide Counted, Grew;
    forall g, c ensures Get(after, g, c) == SumSet(Reached(ss + {s}, x.bound, g), DeltaOf(x, n, c)) {
      CountedAt(x, n, ss, s, before, after, g, c);
    }
    assert Counted(x, n, ss + {s}, after) by { CountedAll(x, n, ss + {s}, after); }
  }

  lemma CountedAll(x: View, n: map<Id, nat>, ss: set<Slot>, cells: map<Cell, nat>)
    requires forall g, c :: Get(cells, g, c) == SumSet(Reached(ss, x.bound, g), DeltaOf(x, n, c))
    ensures Counted(x, n, ss, cells)
  {
    hide Get, SumSet, Reached, DeltaOf;
  }

  lemma CountedAt(x: View, n: map<Id, nat>, ss: set<Slot>, s: Slot, before: map<Cell, nat>, after: map<Cell, nat>,
                  g: Scope, c: Counter)
    requires s !in ss && Counted(x, n, ss, before) && Grew(before, after, x.bound, s.entry, DeltaGain(x, n, s))
    ensures Get(after, g, c) == SumSet(Reached(ss + {s}, x.bound, g), DeltaOf(x, n, c))
  {
    hide SumSet, InScope, Delta, Get;
    assert Get(before, g, c) == SumSet(Reached(ss, x.bound, g), DeltaOf(x, n, c));
    assert Get(after, g, c) == Get(before, g, c) + if InScope(x.bound, s.entry, g) then DeltaGain(x, n, s)(c) else 0;
    hide Counted, Grew;
    if InScope(x.bound, s.entry, g) {
      assert Reached(ss + {s}, x.bound, g) == Reached(ss, x.bound, g) + {s};
      SumAdd(Reached(ss, x.bound, g), DeltaOf(x, n, c), s);
    } else {
      assert Reached(ss + {s}, x.bound, g) == Reached(ss, x.bound, g);
    }
  }

  ghost predicate Judged(x: View, ss: set<Slot>, before: Verdict, v: Verdict) {
    && (v.requiredMissing <==> before.requiredMissing || exists s :: s in ss && MissingHere(x, s))
    && (v.criticalMissing <==> before.criticalMissing || exists s :: s in ss && CriticalMissingHere(x, s))
    && (v.forbidden <==> before.forbidden || exists s :: s in ss && OpenViolation(x, s))
    && (v.criticalViolation <==> before.criticalViolation || exists s :: s in ss && CriticalHere(x, s))
  }

  lemma JudgedNext(x: View, ss: set<Slot>, s: Slot, before: Verdict, v: Verdict, w: Verdict)
    requires Judged(x, ss, before, v)
    requires w.requiredMissing <==> v.requiredMissing || MissingHere(x, s)
    requires w.criticalMissing <==> v.criticalMissing || CriticalMissingHere(x, s)
    requires w.forbidden <==> v.forbidden || OpenViolation(x, s)
    requires w.criticalViolation <==> v.criticalViolation || CriticalHere(x, s)
    ensures Judged(x, ss + {s}, before, w)
  {
    hide MissingHere, CriticalMissingHere, OpenViolation, CriticalHere;
  }

  lemma PlannedSlots(b: Bound, p: Profile, planned: map<Key, Entry>)
    requires Ready(b, p) && PlannedOk(b, p, planned)
    ensures forall k :: k in planned ==> Slot(planned[k], k.stageId) in Slots(b) && KeyAt(Slot(planned[k], k.stageId)) == k
    ensures forall s :: s in Slots(b) ==> KeyAt(s) in planned && planned[KeyAt(s)] == s.entry
  {
    hide Ready, Slots, Covered;
    forall k | k in planned
      ensures Slot(planned[k], k.stageId) in Slots(b) && KeyAt(Slot(planned[k], k.stageId)) == k
    {
      assert EntryFor(b, p, k) == Some(planned[k]);
      var s :| s in Slots(b) && KeyAt(s) == k && s.entry == planned[k];
      assert s == Slot(planned[k], k.stageId);
    }
    forall s | s in Slots(b) ensures KeyAt(s) in planned && planned[KeyAt(s)] == s.entry {
      SlotEntry(b, p, s);
    }
  }

  ghost function Done(b: Bound, todo: set<Key>): set<Slot> { set s | s in Slots(b) && KeyAt(s) !in todo }

  lemma DoneNext(b: Bound, p: Profile, planned: map<Key, Entry>, todo: set<Key>, k: Key)
    requires Ready(b, p) && PlannedOk(b, p, planned) && todo <= planned.Keys && k in todo
    ensures var s := Slot(planned[k], k.stageId);
            && s in Slots(b) && KeyAt(s) == k && s !in Done(b, todo)
            && Done(b, todo - {k}) == Done(b, todo) + {s}
  {
    hide Ready, PlannedOk, Slots;
    PlannedSlots(b, p, planned);
    var s := Slot(planned[k], k.stageId);
    assert forall t :: t in Slots(b) && KeyAt(t) == k ==> t == s;
  }

  lemma DoneBounds(b: Bound, p: Profile, planned: map<Key, Entry>)
    requires Ready(b, p) && PlannedOk(b, p, planned)
    ensures Done(b, planned.Keys) == {} && Done(b, {}) == Slots(b)
  {
    hide Ready, PlannedOk, Slots;
    PlannedSlots(b, p, planned);
  }

  method CountAll(x: View, order: seq<Id>, n: map<Id, nat>, planned: map<Key, Entry>, q: Prepared, before: Verdict)
    returns (tally: Tally, v: Verdict)
    requires Ready(x.bound, x.profile) && RecordsOk(x) && PreparedOk(x, order, q)
    requires PlannedOk(x.bound, x.profile, planned) && n.Keys == x.facts.records.Keys
    ensures fresh(tally)
    ensures Counted(x, n, Slots(x.bound), tally.cells)
    ensures Judged(x, Slots(x.bound), before, v)
  {
    hide Ready, RecordsOk, PreparedOk, PlannedOk, Slots, Counted, Judged, Grew, Done, Choice, KeyAt;
    hide MissingHere, CriticalMissingHere, OpenViolation, CriticalHere;
    tally := new Tally();
    v := before;
    CountedNothing(x, n);
    DoneBounds(x.bound, x.profile, planned);
    assert Judged(x, {}, before, v) by { NothingJudged(x, before); }
    var todo := planned.Keys;
    while todo != {}
      invariant todo <= planned.Keys && fresh(tally)
      invariant Counted(x, n, Done(x.bound, todo), tally.cells)
      invariant Judged(x, Done(x.bound, todo), before, v)
      decreases |todo|
    {
      var k :| k in todo;
      var s := Slot(planned[k], k.stageId);
      DoneNext(x.bound, x.profile, planned, todo, k);
      StageFacts(x, order, q, s);
      ghost var cells, w := tally.cells, v;
      CountStage(x, order, n, q, s, tally);
      CountedNext(x, n, Done(x.bound, todo), s, cells, tally.cells);
      v := JudgeStage(x, s, Found(q.selected, k), v);
      JudgedNext(x, Done(x.bound, todo), s, before, w, v);
      todo := todo - {k};
    }
  }

  lemma NothingJudged(x: View, before: Verdict)
    ensures Judged(x, {}, before, before)
  {
  }

  // ---------- the whole ----------

  datatype Aggregation = Aggregation(
    requiredMissing: bool, criticalMissing: bool, integrityFailure: bool, forbiddenViolation: bool,
    criticalViolation: bool, issues: set<Issue>, cells: map<Cell, nat>)

  ghost predicate FlagsOk(x: View, order: seq<Id>, a: Aggregation) {
    && (a.requiredMissing <==> RequiredMissing(x, order))
    && (a.criticalMissing <==> CriticalMissing(x, order))
    && (a.integrityFailure <==> IntegrityFailure(x, order))
    && (a.forbiddenViolation <==> ForbiddenViolation(x))
    && (a.criticalViolation <==> CriticalViolation(x))
  }

  ghost predicate IsAggregation(x: View, order: seq<Id>, n: map<Id, nat>, a: Aggregation) {
    && FlagsOk(x, order, a)
    && (forall i :: i in a.issues <==> Reported(x, order, i))
    && (forall g, c :: Get(a.cells, g, c) == Total(x, n, g, c))
  }

  ghost predicate ResultRaised(x: View, i: Issue) {
    exists id :: id in x.facts.records && ResultIssue(x.facts.records[id]).Some?
                 && i == IssueFor(ResultIssue(x.facts.records[id]).value, x.facts.records[id])
  }

  ghost predicate RejectionRaised(x: View, i: Issue) { exists id :: Rejected(x, id) && i == RejectionIssue(x, id) }

  ghost predicate ViolationRaised(x: View, i: Issue) {
    exists r :: HiddenViolation(x, r) && i == IssueFor(FORBIDDEN_VIOLATION, r)
  }

  lemma RecordIssueSplit(x: View, order: seq<Id>, id: Id, code: IssueCode)
    requires id in x.facts.records
    ensures RecordIssue(x, order, id, code)
            <==> ResultIssue(x.facts.records[id]) == Some(code)
                 || (Rejected(x, id) && RejectionOf(x, x.facts.records[id]) == Some(code))
                 || ((ChainCode(code) || ChoiceCode(code)) && RecordIssue(x, order, id, code))
  {
    hide Accepted, ValidAt, HasUnrelated, ConflictAt, Earliest, RetryOk, RetriedTwice, BindingMatches, ModeMatches, EntryFor;
  }

  /** The issues the loops raise are the ones an aggregation reports. */
  lemma ReportedIs(x: View, order: seq<Id>, i: Issue)
    requires RecordsOk(x)
    ensures Reported(x, order, i)
            <==> i in x.facts.issues || ResultRaised(x, i) || RejectionRaised(x, i) || StageRaised(x, order, i)
                 || ViolationRaised(x, i) || OrderIssue(x, i)
  {
    hide RecordIssue, HiddenViolation, OrderIssue, ResultIssue, RejectionOf, ValidRecord, ChainCode, ChoiceCode;
    if id :| id in x.facts.records && RecordIssue(x, order, id, i.code) && i == IssueFor(i.code, x.facts.records[id]) {
      RecordIssueSplit(x, order, id, i.code);
    }
    if StageRaised(x, order, i) {
      assert RecordIssue(x, order, i.attemptId, i.code);
    }
    if id :| id in x.facts.records && ResultIssue(x.facts.records[id]).Some?
             && i == IssueFor(ResultIssue(x.facts.records[id]).value, x.facts.records[id]) {
      RecordIssueSplit(x, order, id, i.code);
    }
    if id :| Rejected(x, id) && i == RejectionIssue(x, id) {
      RecordIssueSplit(x, order, id, i.code);
    }
  }

  lemma FoldOrderOk(b: Bound, p: Profile, a: seq<Record>)
    requires AllValid(a)
    ensures var x := View(b, p, Fold(a).facts);
            OrderOk(x, Fold(a).order) && RecordsOk(x) && Fold(a).deliveries.Keys == x.facts.records.Keys
  {
    hide Fold;
    FoldRecordsOk(b, p, a);
    OrderIs(a);
  }

  lemma ConflictsJoined(x: View, contradicted: set<Record>)
    requires ContradictedOk(x, {}, contradicted)
    ensures forall r :: r in x.facts.conflicting + contradicted <==> ConflictRecord(x, r)
  {
    hide ValidAt, ConflictAt;
  }

  lemma FlagsJoined(x: View, order: seq<Id>, issues: set<Issue>, forbidden: bool, critical: bool, v: Verdict)
    requires forall i :: i in issues <==> Reported(x, order, i)
    requires forbidden <==> exists r :: HiddenViolation(x, r)
    requires Judged(x, Slots(x.bound), Verdict(false, false, forbidden, critical), v)
    ensures RequiredMissing(x, order) <==> v.requiredMissing || exists i :: i in issues && BlocksEvidence(i.code)
    ensures CriticalMissing(x, order) <==>
              v.criticalMissing
              || exists i :: i in issues && i.code == STAGE_ORDER && i.key.obligationId in x.bound.obligations
                             && x.bound.obligations[i.key.obligationId].critical
    ensures IntegrityFailure(x, order) <==> issues != {}
    ensures ForbiddenViolation(x) <==> v.forbidden
  {
    hide Reported, HiddenViolation, Slots, Unsettled, BlocksEvidence, Choice, FailedConstraint, ObligationOf;
    assert forall s :: OpenViolation(x, s) ==> s in Slots(x.bound);
    hide OpenViolation;
  }

  lemma CriticalJoined(x: View, forbidden: bool, critical: bool, v: Verdict)
    requires critical <==> exists r :: CriticalHidden(x, r)
    requires Judged(x, Slots(x.bound), Verdict(false, false, forbidden, critical), v)
    ensures CriticalViolation(x) <==> v.criticalViolation
  {
    hide ConflictRecord, Slots, Choice, FailedConstraint, ObligationOf, StageForbids, Violation;
    if r :| HiddenViolation(x, r) && x.bound.obligations[r.binding.obligationId].critical { assert CriticalHidden(x, r); }
    if r :| CriticalHidden(x, r) { assert CriticalViolation(x); }
    if s :| s in Slots(x.bound) && CriticalHere(x, s) { assert CriticalViolation(x); }
    if s :| OpenViolation(x, s) && ObligationOf(x.bound, s.entry).critical { assert CriticalHere(x, s); }
    if s :| s in Slots(x.bound) && ObligationOf(x.bound, s.entry).critical && Choice(x, KeyAt(s)).Some?
            && FailedConstraint(Choice(x, KeyAt(s)).value) { assert CriticalHere(x, s); }
  }

  /** Attempts in any order, delivered any number of times, become the counts,
      issues and flags that the specification gives their set. */
  method Aggregate(b: Bound, p: Profile, attempts: seq<Record>) returns (out: Result<Aggregation, AggregationError>)
    requires WellBound(b)
    ensures out.Ok? <==> CheckPlan(p, b).None? && |attempts| <= MAX_ATTEMPTS && AllValid(attempts)
    ensures CheckPlan(p, b).Some? ==> out == Err(CheckPlan(p, b).value)
    ensures CheckPlan(p, b).None? && |attempts| > MAX_ATTEMPTS ==> out == Err(ATTEMPT_LIMIT)
    ensures out.Ok? ==>
              IsAggregation(View(b, p, Fold(attempts).facts), Fold(attempts).order, Fold(attempts).deliveries, out.value)
  {
    hide WellBound, ValidRecord, Fold, IsAggregation, Ready, RecordsOk, OrderOk, PlannedOk, LogicalOk, ChoicesOk, ConflictsOk;
    hide ContradictedOk, StageIssuesOk, Counted, Judged, KeysOk, ChosenOk, CompleteOk, HiddenViolation, CriticalHidden;
    hide ResultIssue, Rejected, OrderIssue, ConflictRecord, FaultAt, ErrorAt, Scorable, PreparedOk, CheckPlan, PlannedPairs;
    var planError := CheckPlan(p, b);
    if planError.Some? { return Err(planError.value); }
    if |attempts| > MAX_ATTEMPTS { return Err(ATTEMPT_LIMIT); }
    var folded := FoldDeliveries(attempts);
    if folded.Err? { return Err(folded.error); }
    var x, order, n := View(b, p, folded.value.facts), folded.value.order, folded.value.deliveries;
    assert Ready(b, p) by { BoundReady(b, p); }
    FoldOrderOk(b, p, attempts);
    var resultIssues := FindResultIssues(x, order);
    var planned := PlanKeys(b, p);
    var logical, accepted, rejections := CollectLogical(x, order, planned);
    var selected, conflictKeys, contradicted, stageIssues := SelectAll(x, order, logical, accepted);
    var faults, errors := FaultKeys(x, order, logical);
    ConflictsJoined(x, contradicted);
    var forbidden, critical, violations := FindViolations(x, x.facts.conflicting + contradicted);
    SelectionChosen(x, selected);
    var complete := CompleteTrials(x, selected);
    var scorable, disorder := OrderTrials(x, selected, complete);
    var q := Prepared(logical, selected, conflictKeys, faults, errors, scorable);
    AllPrepared(x, order, q);
    var tally, v := CountAll(x, order, n, planned, q, Verdict(false, false, forbidden, critical));
    var issues := x.facts.issues + resultIssues + rejections + stageIssues + violations + disorder;
    IssuesJoined(x, order, resultIssues, rejections, stageIssues, violations, disorder, issues);
    FlagsJoined(x, order, issues, forbidden, critical, v);
    CriticalJoined(x, forbidden, critical, v);
    var blocked := exists i :: i in issues && BlocksEvidence(i.code);
    var disordered := exists i :: i in issues && i.code == STAGE_ORDER && i.key.obligationId in b.obligations
                                  && b.obligations[i.key.obligationId].critical;
    var result := Aggregation(v.requiredMissing || blocked, v.criticalMissing || disordered, issues != {},
                              v.forbidden, v.criticalViolation, issues, tally.cells);
    AggregationIs(x, order, n, result);
    return Ok(result);
  }

  lemma BoundReady(b: Bound, p: Profile)
    requires WellBound(b) && CheckPlan(p, b).None?
    ensures Ready(b, p)
  {
  }

  lemma SelectionChosen(x: View, selected: map<Key, Record>)
    requires ChoicesOk(x, {}, selected)
    ensures ChosenOk(x, selected)
  {
    hide Choice;
  }

  lemma AllPrepared(x: View, order: seq<Id>, q: Prepared)
    requires OrderOk(x, order) && LogicalOk(x, order, q.logical) && ChosenOk(x, q.selected)
    requires ConflictsOk(x, {}, q.conflictKeys)
    requires forall k :: k in q.faults <==> FaultAt(x, k)
    requires forall k :: k in q.errors <==> ErrorAt(x, k)
    requires forall e :: e in q.scorable <==> e in x.bound.entries && Scorable(x, e)
    ensures PreparedOk(x, order, q)
  {
    hide OrderOk, LogicalOk, ChosenOk, ConflictAt, FaultAt, ErrorAt, Scorable;
  }

  lemma IssuesJoined(x: View, order: seq<Id>, resultIssues: set<Issue>, rejections: set<Issue>, stageIssues: set<Issue>,
                     violations: set<Issue>, disorder: set<Issue>, issues: set<Issue>)
    requires RecordsOk(x)
    requires forall i :: i in resultIssues <==> ResultRaised(x, i)
    requires forall i :: i in rejections <==> RejectionRaised(x, i)
    requires StageIssuesOk(x, order, {}, stageIssues)
    requires forall i :: i in violations <==> ViolationRaised(x, i)
    requires forall i :: i in disorder <==> OrderIssue(x, i)
    requires issues == x.facts.issues + resultIssues + rejections + stageIssues + violations + disorder
    ensures forall i :: i in issues <==> Reported(x, order, i)
  {
    hide RecordsOk, ResultRaised, RejectionRaised, StageRaised, ViolationRaised, OrderIssue, Reported;
    forall i ensures i in issues <==> Reported(x, order, i) { ReportedIs(x, order, i); }
  }

  lemma AggregationIs(x: View, order: seq<Id>, n: map<Id, nat>, a: Aggregation)
    requires FlagsOk(x, order, a) && Counted(x, n, Slots(x.bound), a.cells)
    requires forall i :: i in a.issues <==> Reported(x, order, i)
    ensures IsAggregation(x, order, n, a)
  {
    hide FlagsOk, Reported, SumSet, DeltaOf, Slots, Get, InScope;
    forall g, c ensures Get(a.cells, g, c) == Total(x, n, g, c) {
      assert Reached(Slots(x.bound), x.bound, g) == SlotsIn(x.bound, g);
    }
  }
}
