/** The loops between selection and counting: faults, violations hidden by
    conflicts, and which trials can be scored. */
module AggregationTrials {
  import opened Common
  import opened Attempts
  import opened AggregationSpec
  import opened AggregationLaws
  import opened AggregationLoops
  import opened AggregationSelection

  // ---------- faults and errors ----------

  method FaultKeys(x: View, order: seq<Id>, logical: map<Key, seq<Id>>) returns (faults: set<Key>, errors: set<Key>)
    requires OrderOk(x, order) && LogicalOk(x, order, logical)
    ensures forall k :: k in faults <==> FaultAt(x, k)
    ensures forall k :: k in errors <==> ErrorAt(x, k)
  {
    hide OrderOk, LogicalOk, FaultAt, ErrorAt, Faulty, ErrorResult, At;
    faults, errors := {}, {};
    var todo := logical.Keys;
    forall k | k !in todo ensures !FaultAt(x, k) && !ErrorAt(x, k) { NoFault(x, order, logical, k); }
    while todo != {}
      invariant todo <= logical.Keys
      invariant forall k :: k in faults <==> k !in todo && FaultAt(x, k)
      invariant forall k :: k in errors <==> k !in todo && ErrorAt(x, k)
      decreases |todo|
    {
      var k :| k in todo;
      LogicalAt(x, order, logical, k);
      FaultsListed(x, k, logical[k]);
      if exists id :: id in logical[k] && Faulty(x.facts.records[id]) { faults := faults + {k}; }
      if exists id :: id in logical[k] && ErrorResult(x.facts.records[id]) { errors := errors + {k}; }
      todo := todo - {k};
    }
  }

  lemma NoFault(x: View, order: seq<Id>, logical: map<Key, seq<Id>>, k: Key)
    requires OrderOk(x, order) && LogicalOk(x, order, logical) && k !in logical
    ensures !FaultAt(x, k) && !ErrorAt(x, k)
  {
    hide OrderOk, LogicalOk, At, Faulty, ErrorResult;
    NoRecords(x, order, logical, k);
  }

  lemma LogicalAt(x: View, order: seq<Id>, logical: map<Key, seq<Id>>, k: Key)
    requires OrderOk(x, order) && LogicalOk(x, order, logical) && k in logical
    ensures forall id :: id in logical[k] <==> id in At(x, k)
    ensures Distinct(logical[k])
  {
    hide OrderOk, LogicalOk, At, Listed;
    StageListed(x, order, logical, k);
    AllAtListed(x, order, k, logical[k]);
  }

  lemma FaultsListed(x: View, k: Key, records: seq<Id>)
    requires forall id :: id in records <==> id in At(x, k)
    ensures FaultAt(x, k) <==> exists id :: id in records && Faulty(x.facts.records[id])
    ensures ErrorAt(x, k) <==> exists id :: id in records && ErrorResult(x.facts.records[id])
  {
    hide At, Faulty, ErrorResult;
  }

  // ---------- violations that a conflict hides ----------

  ghost predicate CriticalHidden(x: View, r: Record) {
    HiddenViolation(x, r) && x.bound.obligations[r.binding.obligationId].critical
  }

  method FindViolations(x: View, conflicts: set<Record>)
    returns (forbidden: bool, critical: bool, issues: set<Issue>)
    requires forall r :: r in conflicts <==> ConflictRecord(x, r)
    ensures forbidden <==> exists r :: HiddenViolation(x, r)
    ensures critical <==> exists r :: CriticalHidden(x, r)
    ensures forall i :: i in issues <==> exists r :: HiddenViolation(x, r) && i == IssueFor(FORBIDDEN_VIOLATION, r)
  {
    hide ConflictRecord, ForbiddenFor, Violation;
    forbidden, critical, issues := false, false, {};
    var todo := conflicts;
    while todo != {}
      invariant todo <= conflicts
      invariant forbidden <==> exists r :: r !in todo && HiddenViolation(x, r)
      invariant critical <==> exists r :: r !in todo && CriticalHidden(x, r)
      invariant forall i :: i in issues <==>
                  exists r :: r !in todo && HiddenViolation(x, r) && i == IssueFor(FORBIDDEN_VIOLATION, r)
      decreases |todo|
    {
      var r :| r in todo;
      if ForbiddenFor(x.bound, r) && Violation(r) {
        ForbiddenKnown(x.bound, r);
        assert HiddenViolation(x, r);
        forbidden := true;
        if x.bound.obligations[r.binding.obligationId].critical { critical := true; }
        issues := issues + {IssueFor(FORBIDDEN_VIOLATION, r)};
      } else {
        assert !HiddenViolation(x, r);
      }
      todo := todo - {r};
    }
  }

  lemma ForbiddenKnown(b: Bound, r: Record)
    requires ForbiddenFor(b, r)
    ensures r.binding.obligationId in b.obligations
  {
  }

  // ---------- trials ----------

  ghost predicate ChosenOk(x: View, selected: map<Key, Record>) {
    forall k :: Found(selected, k) == Choice(x, k)
  }

  method AllDefinite(x: View, selected: map<Key, Record>, e: Entry) returns (complete: bool)
    requires ChosenOk(x, selected)
    ensures complete <==> Complete(x, e)
  {
    hide Choice, Definite;
    var i := 0;
    while i < |e.stageIds|
      invariant 0 <= i <= |e.stageIds|
      invariant forall j :: 0 <= j < i ==>
                  ChoiceAt(x, e, j).Some? && ChoiceAt(x, e, j).value.result.Some? && Definite(ChoiceAt(x, e, j).value.result.value)
    {
      var chosen := Found(selected, KeyAt(Slot(e, e.stageIds[i])));
      assert chosen == ChoiceAt(x, e, i);
      if chosen.None? || chosen.value.result.None? || !Definite(chosen.value.result.value) { return false; }
      i := i + 1;
    }
    return true;
  }

  ghost predicate CompleteOk(x: View, trials: set<Entry>) {
    forall e :: e in trials <==> e in x.bound.entries && Complete(x, e)
  }

  method CompleteTrials(x: View, selected: map<Key, Record>) returns (trials: set<Entry>)
    requires ChosenOk(x, selected)
    ensures CompleteOk(x, trials)
  {
    hide ChosenOk, Complete;
    trials := {};
    var es := x.bound.entries;
    var i := 0;
    while i < |es|
      invariant 0 <= i <= |es|
      invariant forall e :: e in trials <==> e in es[..i] && Complete(x, e)
    {
      assert forall e :: e in es[..i + 1] <==> e in es[..i] || e == es[i];
      var complete := AllDefinite(x, selected, es[i]);
      if complete { trials := trials + {es[i]}; }
      i := i + 1;
    }
    assert es[..i] == es;
  }

  ghost predicate DisorderAt(x: View, e: Entry, i: Issue, j: nat) {
    j + 1 < |e.stageIds| && OutOfOrder(x, e, j) && i == IssueFor(STAGE_ORDER, ChoiceAt(x, e, j + 1).value)
  }

  ghost predicate DisorderBefore(x: View, e: Entry, i: Issue, n: int) {
    exists j: nat :: j + 1 < n && DisorderAt(x, e, i, j)
  }

  lemma StageChosen(x: View, selected: map<Key, Record>, e: Entry, j: nat)
    requires ChosenOk(x, selected) && Complete(x, e) && j < |e.stageIds|
    ensures Found(selected, KeyAt(Slot(e, e.stageIds[j]))) == ChoiceAt(x, e, j) && ChoiceAt(x, e, j).Some?
  {
    hide Choice, Definite;
  }

  lemma DisorderNext(x: View, e: Entry, j: nat)
    requires 1 <= j < |e.stageIds|
    ensures forall i :: DisorderBefore(x, e, i, j + 1) <==> DisorderBefore(x, e, i, j) || DisorderAt(x, e, i, j - 1)
  {
    hide DisorderAt;
    forall i ensures DisorderBefore(x, e, i, j + 1) <==> DisorderBefore(x, e, i, j) || DisorderAt(x, e, i, j - 1) {
      if m: nat :| m + 1 < j + 1 && DisorderAt(x, e, i, m) { assert m == j - 1 || m + 1 < j; }
      if m: nat :| m + 1 < j && DisorderAt(x, e, i, m) { assert m + 1 < j + 1; }
    }
  }

  /** Compares each stage of a trial with the one before it. */
  method StageDisorder(x: View, selected: map<Key, Record>, e: Entry) returns (issues: set<Issue>)
    requires ChosenOk(x, selected) && Complete(x, e)
    ensures forall i :: i in issues <==> DisorderIn(x, e, i)
    ensures issues == {} <==> Ordered(x, e)
  {
    hide ChosenOk, Complete, Ordered, ChoiceAt, DisorderBefore;
    issues := {};
    NoDisorderBefore(x, e);
    var j := 1;
    while j < |e.stageIds|
      invariant 1 <= j && (j <= |e.stageIds| || j == 1)
      invariant forall i :: i in issues <==> DisorderBefore(x, e, i, j)
    {
      StageChosen(x, selected, e, j - 1);
      StageChosen(x, selected, e, j);
      DisorderNext(x, e, j);
      var previous := Found(selected, KeyAt(Slot(e, e.stageIds[j - 1])));
      var current := Found(selected, KeyAt(Slot(e, e.stageIds[j])));
      if previous.value.finishedAt.None? || current.value.startedAt < previous.value.finishedAt.value {
        issues := issues + {IssueFor(STAGE_ORDER, current.value)};
      }
      j := j + 1;
    }
    DisorderAll(x, e, j);
    OrderedWhen(x, e, issues);
  }

  lemma NoDisorderBefore(x: View, e: Entry)
    ensures forall i :: !DisorderBefore(x, e, i, 1)
  {
    hide DisorderAt;
  }

  lemma DisorderAll(x: View, e: Entry, n: int)
    requires n >= |e.stageIds|
    ensures forall i :: DisorderBefore(x, e, i, n) <==> DisorderIn(x, e, i)
  {
    hide OutOfOrder, ChoiceAt;
    forall i | DisorderIn(x, e, i) ensures DisorderBefore(x, e, i, n) {
      var j: nat :| DisorderAt(x, e, i, j);
      assert j + 1 < |e.stageIds|;
    }
  }

  lemma OrderedWhen(x: View, e: Entry, issues: set<Issue>)
    requires forall i :: i in issues <==> DisorderIn(x, e, i)
    ensures issues == {} <==> Ordered(x, e)
  {
    hide ChoiceAt;
    if !Ordered(x, e) {
      var j: nat :| j + 1 < |e.stageIds| && OutOfOrder(x, e, j);
      var i := IssueFor(STAGE_ORDER, ChoiceAt(x, e, j + 1).value);
      assert DisorderAt(x, e, i, j);
      assert DisorderIn(x, e, i);
    } else {
      assert forall i :: i !in issues;
    }
  }

  method OrderTrials(x: View, selected: map<Key, Record>, complete: set<Entry>)
    returns (scorable: set<Entry>, issues: set<Issue>)
    requires ChosenOk(x, selected) && CompleteOk(x, complete)
    ensures forall e :: e in scorable <==> e in x.bound.entries && Scorable(x, e)
    ensures forall i :: i in issues <==> OrderIssue(x, i)
  {
    hide ChosenOk, Complete, Ordered, DisorderAt;
    scorable, issues := complete, {};
    var todo := complete;
    while todo != {}
      invariant todo <= complete
      invariant forall e :: e in scorable <==> e in complete && (e in todo || Ordered(x, e))
      invariant forall i :: i in issues <==> exists e :: e in complete && e !in todo && DisorderIn(x, e, i)
      decreases |todo|
    {
      var e :| e in todo;
      var found := StageDisorder(x, selected, e);
      issues := issues + found;
      if found != {} { scorable := scorable - {e}; }
      todo := todo - {e};
    }
    forall i ensures OrderIssue(x, i) <==> exists e :: e in complete && DisorderIn(x, e, i) { DisorderIs(x, complete, i); }
  }

  ghost predicate DisorderIn(x: View, e: Entry, i: Issue) { exists j: nat :: DisorderAt(x, e, i, j) }

  lemma DisorderIs(x: View, complete: set<Entry>, i: Issue)
    requires CompleteOk(x, complete)
    ensures OrderIssue(x, i) <==> exists e :: e in complete && DisorderIn(x, e, i)
  {
    hide Complete, ChoiceAt;
    if OrderIssue(x, i) {
      var e, j: nat :| e in x.bound.entries && j + 1 < |e.stageIds| && Complete(x, e) && OutOfOrder(x, e, j)
                       && i == IssueFor(STAGE_ORDER, ChoiceAt(x, e, j + 1).value);
      assert DisorderAt(x, e, i, j);
    }
    if e :| e in complete && DisorderIn(x, e, i) {
      var j: nat :| DisorderAt(x, e, i, j);
      assert Complete(x, e);
    }
  }

  // ---------- trials that ended in a fault ----------

  function TrialKey(k: Key): Trial { Trial(k.variant, k.obligationId, k.caseId, k.trialId) }

  function Troubled(faults: set<Key>, errors: set<Key>): set<Trial> {
    set k | k in faults + errors :: TrialKey(k)
  }

  ghost predicate KeysOk(x: View, faults: set<Key>, errors: set<Key>) {
    && (forall k :: k in faults <==> FaultAt(x, k))
    && (forall k :: k in errors <==> ErrorAt(x, k))
  }

  lemma PlannedRecord(x: View, k: Key)
    requires FaultAt(x, k) || ErrorAt(x, k)
    ensures exists s :: s in Slots(x.bound) && KeyAt(s) == k
  {
    hide Faulty, ErrorResult, BindingMatches, ModeMatches, Slots;
    var id :| id in At(x, k);
    assert RejectionOf(x, x.facts.records[id]).None?;
  }

  /** Four fields of a key name the trial, so the trials with a fault or error
      that cannot be scored are the unrecovered ones. */
  lemma TroubledTrial(x: View, faults: set<Key>, errors: set<Key>, e: Entry)
    requires Ready(x.bound, x.profile) && KeysOk(x, faults, errors) && e in x.bound.entries
    ensures TrialOf(e) in Troubled(faults, errors) && !Scorable(x, e) <==> Unrecovered(x, e)
  {
    hide Ready, FaultAt, ErrorAt, Scorable, WellBound, Slots;
    if TrialOf(e) in Troubled(faults, errors) {
      var k :| k in faults + errors && TrialKey(k) == TrialOf(e);
      PlannedRecord(x, k);
      var s :| s in Slots(x.bound) && KeyAt(s) == k;
      EntryPlanned(x.bound, s);
      ReadyBound(x.bound, x.profile);
      SameTrialSameEntry(x.bound, e, s.entry);
      var i :| 0 <= i < |e.stageIds| && e.stageIds[i] == s.stageId;
      assert KeyAt(Slot(e, e.stageIds[i])) == k;
    }
    if i :| 0 <= i < |e.stageIds|
            && (FaultAt(x, KeyAt(Slot(e, e.stageIds[i]))) || ErrorAt(x, KeyAt(Slot(e, e.stageIds[i])))) {
      var k := KeyAt(Slot(e, e.stageIds[i]));
      assert k in faults + errors && TrialKey(k) == TrialOf(e);
    }
  }
}
