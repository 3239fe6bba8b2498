/** Two aggregations compared: more deliveries, another order, a redelivery; and
    what a run without any issue looks like stage by stage. */
module ComparisonLaws {
  import opened Common
  import opened Attempts
  import opened AggregationSpec
  import opened DeliveryLaws
  import opened AggregationLaws
  import opened Sums

  /** The delivery order lists every id. */
  ghost predicate Lists(order: seq<Id>, x: View) {
    forall id :: id in x.facts.records ==> id in order
  }

  lemma {:induction false} EarliestExists(order: seq<Id>, ids: set<Id>, id: Id) returns (first: Id)
    requires id in ids && id in order
    ensures Earliest(order, ids, first)
    decreases |order|
  {
    hide Earliest;
    var n := |order| - 1;
    if exists j :: 0 <= j < n && order[j] in ids {
      var j :| 0 <= j < n && order[j] in ids;
      assert order[..n][j] == order[j];
      first := EarliestExists(order[..n], ids, order[j]);
      EarliestInPrefix(order, n, ids, first);
    } else {
      first := order[n];
      EarliestIsLast(order, ids);
    }
  }

  // ---------- a run without issues ----------

  ghost predicate Clean(x: View, order: seq<Id>) {
    Lists(order, x) && !IntegrityFailure(x, order)
  }

  lemma NoRecordIssue(x: View, order: seq<Id>, id: Id, code: IssueCode)
    requires Clean(x, order) && id in x.facts.records
    ensures !RecordIssue(x, order, id, code)
  {
    hide RecordIssue;
    if RecordIssue(x, order, id, code) {
      IssueReported(x, order, id, code);
    }
  }

  lemma IssueReported(x: View, order: seq<Id>, id: Id, code: IssueCode)
    requires id in x.facts.records && RecordIssue(x, order, id, code)
    ensures Reported(x, order, IssueFor(code, x.facts.records[id]))
  {
    hide RecordIssue, HiddenViolation, OrderIssue;
  }

  /** Without issues every delivered record takes part. */
  lemma CleanAccepts(x: View, order: seq<Id>, id: Id)
    requires Clean(x, order) && RecordsOk(x) && id in x.facts.records && id !in x.facts.conflicted
    ensures id in Accepted(x)
  {
    hide Clean, RecordsOk;
    var rejection := RejectionOf(x, x.facts.records[id]);
    if rejection.Some? { NoRecordIssue(x, order, id, rejection.value); }
  }

  /** Without issues every retry is a good one. */
  lemma CleanChains(x: View, order: seq<Id>, id: Id)
    requires Clean(x, order) && id in Accepted(x)
    ensures ChainOk(x, x.facts.records[id])
  {
    hide Clean, RetryOk, RetriedTwice;
    NoRecordIssue(x, order, id, INVALID_RETRY_CHAIN);
    NoRecordIssue(x, order, id, RETRY_LIMIT);
  }

  lemma ValidKey(x: View, k: Key, id: Id)
    requires id in ValidAt(x, k)
    ensures id in x.facts.records && KeyOf(x.facts.records[id]) == k && id in Accepted(x)
    ensures ChainOk(x, x.facts.records[id]) && Definitive(x.facts.records[id])
  {
  }

  /** Without issues a stage has at most one definitive record. */
  lemma CleanUnique(x: View, order: seq<Id>, k: Key)
    requires Clean(x, order)
    ensures !ConflictAt(x, k)
  {
    hide IntegrityFailure, ValidAt;
    if ConflictAt(x, k) {
      var i, j :| i in ValidAt(x, k) && j in ValidAt(x, k) && i != j;
      ValidKey(x, k, i);
      var first := EarliestExists(order, ValidAt(x, k), i);
      ValidKey(x, k, first);
      NoRecordIssue(x, order, first, DEFINITIVE_RESULT_CONFLICT);
    }
  }

  /** Without issues a definitive record is the selected one. */
  lemma CleanSelects(x: View, order: seq<Id>, k: Key, id: Id)
    requires Clean(x, order) && id in ValidAt(x, k)
    ensures Selected(x, k, id)
  {
    hide Clean, ValidAt, HasUnrelated;
    CleanUnique(x, order, k);
    ValidKey(x, k, id);
    assert ValidAt(x, k) == {id};
    NoRecordIssue(x, order, id, ATTEMPT_CHAIN_CONFLICT);
  }

  lemma SelectedIsChoice(x: View, k: Key, id: Id)
    requires Selected(x, k, id)
    ensures Choice(x, k) == Some(x.facts.records[id])
  {
    hide ValidAt, HasUnrelated;
    forall j | Selected(x, k, j) ensures j == id { SelectedOnce(x, k, id, j); }
  }

  /** A predecessor and its one retry, as the repository allows them. */
  ghost predicate RetryPair(prev: Record, r: Record) {
    && r.retryOf == Some(prev.attemptId)
    && prev.retryOf.None?
    && (prev.status == Failed || prev.status == Timeout)
    && prev.stopConfirmed && prev.finishedAt.Some? && prev.finishedAt.value <= r.startedAt
    && prev.binding.ownerEpoch == r.binding.ownerEpoch
    && r.stateRestored
  }

  /** If an aggregation reports no issue, every completed stage rests either on
      a single attempt or on exactly one stopped failure and its one retry. */
  lemma CleanChain(x: View, order: seq<Id>, k: Key, id: Id)
    requires Clean(x, order) && RecordsOk(x) && Selected(x, k, id)
    ensures Definitive(x.facts.records[id])
    ensures var r := x.facts.records[id];
            if r.retryOf.None? then At(x, k) == {id}
            else && r.retryOf.value in x.facts.records
                 && At(x, k) == {r.retryOf.value, id}
                 && RetryPair(x.facts.records[r.retryOf.value], r)
  {
    hide Clean, Accepted;
    assert id in ValidAt(x, k);
    var r := x.facts.records[id];
    ValidKey(x, k, id);
    forall j | j in At(x, k) ensures j == id || r.retryOf == Some(j) {
      if j != id && r.retryOf != Some(j) {
        assert !Unrelated(x, k, id, j);
        CleanChains(x, order, j);
      }
    }
    if r.retryOf.Some? { assert RetryOk(x, r); }
  }

  // ---------- a violation is not washed out ----------

  lemma CleanFacts(a: seq<Record>, x: View, order: seq<Id>)
    requires x.facts == Fold(a).facts && Clean(x, order)
    ensures x.facts.conflicted == {} && x.facts.conflicting == {}
  {
    hide Fold, Lists;
    FoldIs(a);
    forall i ensures i !in x.facts.issues { FactIssueReported(x, order, i); }
    assert x.facts.issues == {};
    FoldConflicts(a, Fold(a));
  }

  lemma FactIssueReported(x: View, order: seq<Id>, i: Issue)
    ensures i in x.facts.issues ==> Reported(x, order, i)
  {
  }

  lemma FoldConflicts(a: seq<Record>, f: Folded)
    requires FoldMeans(a, f) && f.facts.issues == {}
    ensures f.facts.conflicted == {} && f.facts.conflicting == {}
  {
    forall r | r in a ensures r == f.facts.records[r.attemptId] {
      assert IssueFor(DUPLICATE_ATTEMPT_CONFLICT, r) !in f.facts.issues;
    }
  }

  lemma DefinitiveCarriesOver(x: View, y: View, order: seq<Id>, k: Key, id: Id)
    requires y.bound == x.bound && y.profile == x.profile && FactsGrow(x.facts, y.facts)
    requires Clean(y, order) && RecordsOk(y) && y.facts.conflicted == {} && id in ValidAt(x, k)
    ensures id in ValidAt(y, k)
  {
    hide Clean, ChainOk, RecordsOk;
    ValidKey(x, k, id);
    CleanAccepts(y, order, id);
    CleanChains(y, order, id);
  }

  /** A view with more records and no issue: nothing was hidden before, and the
      selected records of before are selected still. */
  lemma ViolationCarriesOver(x: View, y: View, order: seq<Id>)
    requires y.bound == x.bound && y.profile == x.profile && FactsGrow(x.facts, y.facts)
    requires Clean(y, order) && RecordsOk(y) && y.facts.conflicted == {} && y.facts.conflicting == {}
    requires ForbiddenViolation(x)
    ensures ForbiddenViolation(y)
  {
    hide Clean, RecordsOk, ValidAt, StageForbids, ForbiddenFor, Slots, Choice, Selected;
    if exists r :: HiddenViolation(x, r) {
      var r :| HiddenViolation(x, r);
      NothingHidden(x, y, order, r);
      assert false;
    } else {
      var s :| OpenViolation(x, s);
      ChoiceCarriesOver(x, y, order, KeyAt(s));
      assert OpenViolation(y, s);
    }
  }

  /** The same for the critical ones, which include failed constraints. */
  lemma CriticalCarriesOver(x: View, y: View, order: seq<Id>)
    requires y.bound == x.bound && y.profile == x.profile && FactsGrow(x.facts, y.facts)
    requires Clean(y, order) && RecordsOk(y) && y.facts.conflicted == {} && y.facts.conflicting == {}
    requires CriticalViolation(x)
    ensures CriticalViolation(y)
  {
    hide Clean, RecordsOk, ValidAt, StageForbids, ForbiddenFor, Slots, Choice, Selected, FailedConstraint, ObligationOf;
    if exists r :: HiddenViolation(x, r) {
      var r :| HiddenViolation(x, r);
      NothingHidden(x, y, order, r);
      assert false;
    } else if exists s :: OpenViolation(x, s) && ObligationOf(x.bound, s.entry).critical {
      var s :| OpenViolation(x, s) && ObligationOf(x.bound, s.entry).critical;
      ChoiceCarriesOver(x, y, order, KeyAt(s));
      assert OpenViolation(y, s);
    } else {
      var s :| s in Slots(x.bound) && ObligationOf(x.bound, s.entry).critical && Choice(x, KeyAt(s)).Some?
               && FailedConstraint(Choice(x, KeyAt(s)).value);
      ChoiceCarriesOver(x, y, order, KeyAt(s));
    }
  }

  lemma NothingHidden(x: View, y: View, order: seq<Id>, r: Record)
    requires y.bound == x.bound && y.profile == x.profile && FactsGrow(x.facts, y.facts)
    requires Clean(y, order) && RecordsOk(y) && y.facts.conflicted == {} && y.facts.conflicting == {}
    ensures !ConflictRecord(x, r)
  {
    hide Clean, RecordsOk, ValidAt;
    if ConflictRecord(x, r) {
      assert r !in x.facts.conflicting;
      var k := KeyOf(r);
      var i, j :| i in ValidAt(x, k) && j in ValidAt(x, k) && i != j;
      DefinitiveCarriesOver(x, y, order, k, i);
      DefinitiveCarriesOver(x, y, order, k, j);
      CleanUnique(y, order, k);
    }
  }

  lemma ChoiceCarriesOver(x: View, y: View, order: seq<Id>, k: Key)
    requires y.bound == x.bound && y.profile == x.profile && FactsGrow(x.facts, y.facts)
    requires Clean(y, order) && RecordsOk(y) && y.facts.conflicted == {}
    requires Choice(x, k).Some?
    ensures Choice(y, k) == Choice(x, k)
  {
    hide Clean, RecordsOk, ValidAt, HasUnrelated;
    var id :| Selected(x, k, id) && Choice(x, k).value == x.facts.records[id];
    assert id in ValidAt(x, k);
    DefinitiveCarriesOver(x, y, order, k, id);
    CleanSelects(y, order, k, id);
    SelectedIsChoice(y, k, id);
  }

  ghost predicate AllValid(a: seq<Record>) { forall r :: r in a ==> ValidRecord(r) }

  lemma FoldRecordsOk(b: Bound, p: Profile, a: seq<Record>)
    requires AllValid(a)
    ensures RecordsOk(View(b, p, Fold(a).facts)) && Lists(Fold(a).order, View(b, p, Fold(a).facts))
  {
    hide Fold, ValidRecord;
    FoldIs(a);
    OrderIs(a);
    FoldMembers(a, Fold(a));
  }

  lemma FoldMembers(a: seq<Record>, f: Folded)
    requires FoldMeans(a, f)
    ensures forall id :: id in f.facts.records ==> f.facts.records[id] in a && f.facts.records[id].attemptId == id
  {
  }

  /** A forbidden violation cannot be silently washed out: whatever attempts are
      appended, the violation is still reported or the run has an integrity
      failure. */
  lemma ViolationNotWashedOut(b: Bound, p: Profile, a: seq<Record>, more: seq<Record>)
    requires AllValid(a + more)
    requires ForbiddenViolation(View(b, p, Fold(a).facts))
    ensures var f := Fold(a + more);
            ForbiddenViolation(View(b, p, f.facts)) || IntegrityFailure(View(b, p, f.facts), f.order)
  {
    hide Fold, ForbiddenViolation, IntegrityFailure, AllValid, FactsGrow;
    var x, y := View(b, p, Fold(a).facts), View(b, p, Fold(a + more).facts);
    FoldRecordsOk(b, p, a + more);
    AppendedFold(a, more);
    if !IntegrityFailure(y, Fold(a + more).order) {
      CleanFacts(a + more, y, Fold(a + more).order);
      ViolationCarriesOver(x, y, Fold(a + more).order);
    }
  }

  /** Nor can a critical one. */
  lemma CriticalNotWashedOut(b: Bound, p: Profile, a: seq<Record>, more: seq<Record>)
    requires AllValid(a + more)
    requires CriticalViolation(View(b, p, Fold(a).facts))
    ensures var f := Fold(a + more);
            CriticalViolation(View(b, p, f.facts)) || IntegrityFailure(View(b, p, f.facts), f.order)
  {
    hide Fold, CriticalViolation, IntegrityFailure, AllValid, FactsGrow;
    var x, y := View(b, p, Fold(a).facts), View(b, p, Fold(a + more).facts);
    FoldRecordsOk(b, p, a + more);
    AppendedFold(a, more);
    if !IntegrityFailure(y, Fold(a + more).order) {
      CleanFacts(a + more, y, Fold(a + more).order);
      CriticalCarriesOver(x, y, Fold(a + more).order);
    }
  }

  // ---------- order and redelivery ----------

  /** Issues agree up to which of several definitive records is named first. */
  lemma IssueInAnyOrder(x: View, o: seq<Id>, p: seq<Id>, i: Issue) returns (j: Issue)
    requires Reported(x, o, i) && Lists(p, x)
    ensures Reported(x, p, j) && j.code == i.code && j.key == i.key
    ensures i.code != DEFINITIVE_RESULT_CONFLICT ==> j == i
  {
    hide HiddenViolation, OrderIssue, ValidAt, ConflictAt, HasUnrelated, RetryOk, RetriedTwice, Accepted, Earliest, RejectionOf;
    j := i;
    if exists id :: id in x.facts.records && RecordIssue(x, o, id, i.code) && i == IssueFor(i.code, x.facts.records[id]) {
      var id :| id in x.facts.records && RecordIssue(x, o, id, i.code) && i == IssueFor(i.code, x.facts.records[id]);
      if i.code == DEFINITIVE_RESULT_CONFLICT {
        var k := KeyOf(x.facts.records[id]);
        var first := EarliestInOrder(x, o, p, k, id);
        j := IssueFor(i.code, x.facts.records[first]);
        assert RecordIssue(x, p, first, i.code);
      } else {
        assert RecordIssue(x, p, id, i.code);
      }
    }
  }

  lemma EarliestInOrder(x: View, o: seq<Id>, p: seq<Id>, k: Key, id: Id) returns (first: Id)
    requires Lists(p, x) && Earliest(o, ValidAt(x, k), id)
    ensures Earliest(p, ValidAt(x, k), first) && first in x.facts.records && KeyOf(x.facts.records[first]) == k
  {
    hide ValidAt;
    assert id in ValidAt(x, k);
    ValidKey(x, k, id);
    first := EarliestExists(p, ValidAt(x, k), id);
    ValidKey(x, k, first);
  }

  /** The three flags that look at issues do not depend on the delivery order. */
  lemma FlagsIgnoreOrder(x: View, o: seq<Id>, p: seq<Id>)
    requires Lists(o, x) && Lists(p, x)
    ensures RequiredMissing(x, o) <==> RequiredMissing(x, p)
    ensures CriticalMissing(x, o) <==> CriticalMissing(x, p)
    ensures IntegrityFailure(x, o) <==> IntegrityFailure(x, p)
  {
    FlagsCarry(x, o, p);
    FlagsCarry(x, p, o);
  }

  lemma FlagsCarry(x: View, o: seq<Id>, p: seq<Id>)
    requires Lists(p, x)
    ensures RequiredMissing(x, o) ==> RequiredMissing(x, p)
    ensures CriticalMissing(x, o) ==> CriticalMissing(x, p)
    ensures IntegrityFailure(x, o) ==> IntegrityFailure(x, p)
  {
    hide Unsettled, Reported, Lists, Slots;
    if i :| Reported(x, o, i) && BlocksEvidence(i.code) {
      var j := IssueInAnyOrder(x, o, p, i);
    }
    if i :| Reported(x, o, i) && i.code == STAGE_ORDER && i.key.obligationId in x.bound.obligations
            && x.bound.obligations[i.key.obligationId].critical {
      var j := IssueInAnyOrder(x, o, p, i);
    }
    if i :| Reported(x, o, i) {
      var j := IssueInAnyOrder(x, o, p, i);
    }
  }

  /** When no attempt id carries two contents, the order of delivery changes
      nothing: the same counts (the same view and delivery numbers) and the same
      five flags. */
  lemma OrderIsIrrelevant(b: Bound, p: Profile, a: seq<Record>, c: seq<Record>)
    requires multiset(a) == multiset(c) && ConflictFree(a) && AllValid(a)
    ensures var f, g := Fold(a), Fold(c);
            var x, y := View(b, p, f.facts), View(b, p, g.facts);
            && (forall s, k :: Total(x, f.deliveries, s, k) == Total(y, g.deliveries, s, k))
            && (RequiredMissing(x, f.order) <==> RequiredMissing(y, g.order))
            && (CriticalMissing(x, f.order) <==> CriticalMissing(y, g.order))
            && (IntegrityFailure(x, f.order) <==> IntegrityFailure(y, g.order))
            && (ForbiddenViolation(x) <==> ForbiddenViolation(y))
            && (CriticalViolation(x) <==> CriticalViolation(y))
  {
    hide Fold, RequiredMissing, CriticalMissing, IntegrityFailure, ForbiddenViolation, CriticalViolation, Total, ValidRecord, ConflictFree;
    PermutedFold(a, c);
    SameMembers(a, c);
    FoldRecordsOk(b, p, a);
    FoldRecordsOk(b, p, c);
    FlagsIgnoreOrder(View(b, p, Fold(a).facts), Fold(a).order, Fold(c).order);
  }

  predicate CountsDeliveries(c: Counter) {
    c.AttemptCount? || c.DeliveryCount? || c.DuplicateDeliveries?
  }

  /** A stage counts the deliveries of an attempt: as one of its attempts if it
      was accepted, and as a delivery and a duplicate if it was selected. */
  ghost predicate Counts(x: View, s: Slot, id: Id, c: Counter) {
    match c
    case AttemptCount => id in At(x, KeyAt(s))
    case DeliveryCount => Choice(x, KeyAt(s)).Some? && Choice(x, KeyAt(s)).value.attemptId == id
    case DuplicateDeliveries => Choice(x, KeyAt(s)).Some? && Choice(x, KeyAt(s)).value.attemptId == id
    case _ => false
  }

  /** The stages of a bucket that do. */
  ghost function CountedAt(x: View, g: Scope, id: Id, c: Counter): set<Slot> {
    set s | s in SlotsIn(x.bound, g) && Counts(x, s, id, c)
  }

  ghost function OneMore(n: map<Id, nat>, id: Id): map<Id, nat>
    requires id in n
  {
    n[id := n[id] + 1]
  }

  lemma AttemptsRise(ids: set<Id>, n: map<Id, nat>, id: Id)
    requires id in n
    ensures SumSet(ids, DeliveriesOf(OneMore(n, id))) == SumSet(ids, DeliveriesOf(n)) + Indicator(id in ids)
  {
    hide SumSet;
    var f, g := DeliveriesOf(n), DeliveriesOf(OneMore(n, id));
    if id in ids {
      SumRemove(ids, f, id);
      SumRemove(ids, g, id);
      SumSame(ids - {id}, f, g);
    } else {
      SumSame(ids, f, g);
    }
  }

  lemma BaseRises(x: View, n: map<Id, nat>, id: Id, s: Slot, c: Counter)
    requires id in n
    ensures BaseDelta(x, OneMore(n, id), s, c)
            == BaseDelta(x, n, s, c) + Indicator(c.AttemptCount? && id in At(x, KeyAt(s)))
  {
    hide At, IsScored, Unrecovered, ObligationOf, SumSet, OneMore;
    AttemptsRise(At(x, KeyAt(s)), n, id);
  }

  lemma SelectedRises(x: View, n: map<Id, nat>, id: Id, s: Slot, r: Record, c: Counter)
    requires id in n && n[id] >= 1
    ensures SelectedDelta(x, OneMore(n, id), s, r, c)
            == SelectedDelta(x, n, s, r, c) + Indicator((c.DeliveryCount? || c.DuplicateDeliveries?) && r.attemptId == id)
  {
    hide OutcomeDelta;
  }

  lemma DeltaRises(x: View, n: map<Id, nat>, id: Id, s: Slot, c: Counter)
    requires id in n && n[id] >= 1
    ensures Delta(x, OneMore(n, id), s, c) == Delta(x, n, s, c) + Indicator(Counts(x, s, id, c))
  {
    hide Choice, SelectedDelta, UnselectedDelta, BaseDelta, OneMore, At;
    BaseRises(x, n, id, s, c);
    if Choice(x, KeyAt(s)).Some? { SelectedRises(x, n, id, s, Choice(x, KeyAt(s)).value, c); }
  }

  lemma TotalRises(x: View, n: map<Id, nat>, id: Id, g: Scope, c: Counter)
    requires id in n && n[id] >= 1
    ensures Total(x, OneMore(n, id), g, c) == Total(x, n, g, c) + |CountedAt(x, g, id, c)|
  {
    hide Delta, SlotsIn, Counts, SumSet, OneMore;
    var slots, counted := SlotsIn(x.bound, g), CountedAt(x, g, id, c);
    var ones: Slot -> nat := s => if s in counted then 1 else 0;
    forall s | s in slots ensures DeltaOf(x, OneMore(n, id), c)(s) == DeltaOf(x, n, c)(s) + ones(s) {
      DeltaRises(x, n, id, s, c);
    }
    SumPlus(slots, DeltaOf(x, n, c), ones, DeltaOf(x, OneMore(n, id), c));
    SumSubset(slots, counted, ones);
    SumOnes(counted, ones);
  }

  lemma OthersCountNothing(x: View, g: Scope, id: Id, c: Counter)
    requires !CountsDeliveries(c)
    ensures CountedAt(x, g, id, c) == {}
  {
  }

  /** An attempt that is delivered again, to any list, changes no fact, no issue
      and no flag. Each of the three delivery counters rises, in every bucket, by
      the number of stages there that count the attempt; no other counter does,
      and a copy with other contents than the first counts nowhere. */
  lemma RedeliveryCountsOnly(b: Bound, p: Profile, a: seq<Record>, r: Record)
    requires r in a
    ensures r.attemptId in Fold(a).facts.records
    ensures var f, g := Fold(a), Fold(a + [r]);
            var x, y := View(b, p, f.facts), View(b, p, g.facts);
            && y == x && g.order == f.order
            && (forall s, c :: Total(y, g.deliveries, s, c)
                               == Total(x, f.deliveries, s, c)
                                  + if f.facts.records[r.attemptId] == r then |CountedAt(x, s, r.attemptId, c)| else 0)
            && (forall s, c :: !CountsDeliveries(c) ==> Total(y, g.deliveries, s, c) == Total(x, f.deliveries, s, c))
  {
    hide Fold, Total, CountedAt, CountsDeliveries;
    RedeliveredFold(a, r);
    var x, f, g := View(b, p, Fold(a).facts), Fold(a), Fold(a + [r]);
    if f.facts.records[r.attemptId] == r {
      forall s, c ensures Total(x, g.deliveries, s, c) == Total(x, f.deliveries, s, c) + |CountedAt(x, s, r.attemptId, c)| {
        TotalRises(x, f.deliveries, r.attemptId, s, c);
      }
      forall s, c | !CountsDeliveries(c) ensures |CountedAt(x, s, r.attemptId, c)| == 0 {
        OthersCountNothing(x, s, r.attemptId, c);
      }
    }
  }

  /** A stage that counts an attempt is its own stage. */
  lemma CountedHere(x: View, s: Slot, id: Id, c: Counter)
    requires Counts(x, s, id, c) && forall i :: i in x.facts.records ==> x.facts.records[i].attemptId == i
    ensures id in x.facts.records && KeyOf(x.facts.records[id]) == KeyAt(s)
  {
  }

  lemma OneStageCounts(x: View, g: Scope, id: Id, c: Counter)
    requires WellBound(x.bound) && forall i :: i in x.facts.records ==> x.facts.records[i].attemptId == i
    ensures |CountedAt(x, g, id, c)| <= 1
  {
    hide Counts, WellBound, InScope;
    var counted := CountedAt(x, g, id, c);
    if t :| t in counted {
      forall u | u in counted ensures u == t {
        CountedHere(x, t, id, c);
        CountedHere(x, u, id, c);
        SameKeySameSlot(x.bound, u, t);
      }
      assert counted == {t};
    }
  }

  lemma CountedExists(x: View, g: Scope, id: Id, c: Counter)
    ensures CountedAt(x, g, id, c) != {}
            <==> exists t :: t in Slots(x.bound) && InScope(x.bound, t.entry, g) && Counts(x, t, id, c)
  {
    hide Counts, InScope, Slots;
    forall t | t in Slots(x.bound) && InScope(x.bound, t.entry, g) && Counts(x, t, id, c) ensures t in CountedAt(x, g, id, c) {
    }
  }

  /** So a counter rises by at most one: by one exactly in the buckets, at most
      six, of the one stage that counts the attempt. */
  lemma RedeliveryCountsOnce(b: Bound, p: Profile, a: seq<Record>, r: Record, s: Scope, c: Counter)
    requires r in a && Ready(b, p)
    ensures var f, g := Fold(a), Fold(a + [r]);
            var x, y := View(b, p, f.facts), View(b, p, g.facts);
            r.attemptId in f.facts.records
            && Total(y, g.deliveries, s, c)
               == Total(x, f.deliveries, s, c)
                  + Indicator(f.facts.records[r.attemptId] == r
                              && exists t :: t in Slots(b) && InScope(b, t.entry, s) && Counts(x, t, r.attemptId, c))
  {
    hide Fold, Total, Counts, Ready, InScope, CountedAt, WellBound, Slots;
    RedeliveryCountsOnly(b, p, a, r);
    IdsMatch(a);
    ReadyBound(b, p);
    OneStageCounts(View(b, p, Fold(a).facts), s, r.attemptId, c);
    CountedExists(View(b, p, Fold(a).facts), s, r.attemptId, c);
  }

  lemma IdsMatch(a: seq<Record>)
    ensures forall i :: i in Fold(a).facts.records ==> Fold(a).facts.records[i].attemptId == i
  {
    FoldIs(a);
  }
}
