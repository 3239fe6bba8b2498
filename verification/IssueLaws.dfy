/** What an aggregation reports as issues, code by code. */
module IssueLaws {
  import opened Common
  import opened Attempts
  import opened AggregationSpec
  import opened DeliveryLaws
  import opened AggregationLaws
  import opened VerdictLaws
  import opened ComparisonLaws
  import opened CountLaws
  import opened FlagLaws

  // ---------- records that are not counted ----------

  /** The planned stage of a record, if there is one. */
  ghost predicate PlannedAs(b: Bound, s: Slot, r: Record) { s in Slots(b) && KeyAt(s) == KeyOf(r) }

  ghost predicate Planned(b: Bound, r: Record) { exists s :: PlannedAs(b, s, r) }

  ghost predicate BoundAsPlanned(x: View, r: Record) {
    exists s :: PlannedAs(x.bound, s, r) && BoundTo(x.bound, x.profile, s.entry, r)
  }

  ghost predicate InPlannedMode(x: View, r: Record) {
    exists s :: PlannedAs(x.bound, s, r) && InMode(ObligationOf(x.bound, s.entry).kind, r)
  }

  /** Why a record is not counted: the first of five reasons. */
  ghost predicate Rejects(x: View, r: Record, code: IssueCode) {
    match code
    case OUT_OF_RUN_WINDOW => !InWindow(x.bound, r)
    case UNPLANNED_ATTEMPT => InWindow(x.bound, r) && !Planned(x.bound, r)
    case EXPECTED_BINDING_MISMATCH => InWindow(x.bound, r) && Planned(x.bound, r) && !BoundAsPlanned(x, r)
    case RESULT_BINDING_MISMATCH => InWindow(x.bound, r) && BoundAsPlanned(x, r) && !ReportsOnItself(r)
    case RESULT_MODE_MISMATCH =>
      InWindow(x.bound, r) && BoundAsPlanned(x, r) && ReportsOnItself(r) && !InPlannedMode(x, r)
    case _ => false
  }

  lemma UnplannedIs(x: View, r: Record)
    requires Ready(x.bound, x.profile)
    ensures EntryFor(x.bound, x.profile, KeyOf(r)).Some? <==> Planned(x.bound, r)
  {
    hide Ready, Slots, Covered;
    if s :| PlannedAs(x.bound, s, r) { SlotEntry(x.bound, x.profile, s); }
    if s :| s in Slots(x.bound) && KeyAt(s) == KeyOf(r) && Covered(x.bound, x.profile, s.entry) {
      assert PlannedAs(x.bound, s, r);
    }
  }

  lemma PlannedIs(x: View, s: Slot, r: Record)
    requires Ready(x.bound, x.profile) && PlannedAs(x.bound, s, r)
    ensures BoundAsPlanned(x, r) <==> BoundTo(x.bound, x.profile, s.entry, r)
    ensures InPlannedMode(x, r) <==> InMode(ObligationOf(x.bound, s.entry).kind, r)
  {
    hide Ready, Slots, BoundTo, InMode, ObligationOf;
    ReadyBound(x.bound, x.profile);
    forall t | PlannedAs(x.bound, t, r) ensures t == s { SameKeySameSlot(x.bound, s, t); }
  }

  lemma RejectsExactly(x: View, r: Record, code: IssueCode)
    requires Ready(x.bound, x.profile)
    ensures RejectionOf(x, r) == Some(code) <==> Rejects(x, r, code)
  {
    hide Ready, Slots, PlannedAs, BoundAsPlanned, InPlannedMode, ObligationOf;
    UnplannedIs(x, r);
    if s :| PlannedAs(x.bound, s, r) {
      PlannedIs(x, s, r);
      PlannedEntry(x, s, r);
    } else {
      NotPlanned(x, r);
    }
  }

  lemma PlannedEntry(x: View, s: Slot, r: Record)
    requires Ready(x.bound, x.profile) && PlannedAs(x.bound, s, r)
    ensures EntryFor(x.bound, x.profile, KeyOf(r)) == Some(s.entry) && Covered(x.bound, x.profile, s.entry)
    ensures ObligationOf(x.bound, s.entry) == x.bound.obligations[s.entry.obligationId]
  {
    hide Ready, Slots;
    SlotEntry(x.bound, x.profile, s);
    EntryCovered(x.bound, x.profile, s);
  }

  lemma NotPlanned(x: View, r: Record)
    requires !Planned(x.bound, r)
    ensures !BoundAsPlanned(x, r) && !InPlannedMode(x, r)
  {
    hide PlannedAs;
  }

  /** What is wrong with one delivered record or with the stage it stands for. */
  ghost predicate Grounds(x: View, order: seq<Id>, id: Id, code: IssueCode)
    requires id in x.facts.records
  {
    var r := x.facts.records[id];
    var k := KeyOf(r);
    match code
    case MISSING_RESULT => r.status == Completed && r.result.None?
    case STATUS_RESULT_MISMATCH =>
      r.status != Completed && r.result.Some?
      && !(r.result.value.mode.None? && r.result.value.mutation == Some(MutationError))
    case INVALID_RETRY_CHAIN =>
      id in At(x, k) && r.retryOf.Some? && !(r.retryOf.value in At(x, k) && Follows(x.facts.records[r.retryOf.value], r))
    case RETRY_LIMIT =>
      id in At(x, k) && r.retryOf.Some? && r.retryOf.value in At(x, k) && Follows(x.facts.records[r.retryOf.value], r)
      && exists j :: j in x.facts.records && j != id && x.facts.records[j].retryOf == r.retryOf
    case ATTEMPT_CHAIN_CONFLICT =>
      Stands(x, k, id) && (forall j :: Stands(x, k, j) ==> j == id)
      && exists j :: j in At(x, k) && j != id && r.retryOf != Some(j) && x.facts.records[j].retryOf != Some(id)
    case DEFINITIVE_RESULT_CONFLICT =>
      && Stands(x, k, id) && (exists j :: Stands(x, k, j) && j != id)
      && exists i :: 0 <= i < |order| && order[i] == id && forall j :: 0 <= j < i ==> !Stands(x, k, order[j])
    case _ => id !in x.facts.conflicted && Rejects(x, r, code)
  }

  lemma RetryGrounds(x: View, order: seq<Id>, id: Id, code: IssueCode)
    requires RecordsOk(x) && id in x.facts.records && (code.INVALID_RETRY_CHAIN? || code.RETRY_LIMIT?)
    ensures RecordIssue(x, order, id, code) <==> Grounds(x, order, id, code)
  {
    hide ValidRecord, RejectionOf, Stands, ConflictAt, ValidAt, HasUnrelated, Rejects;
  }

  lemma StageGrounds(x: View, order: seq<Id>, id: Id, code: IssueCode)
    requires RecordsOk(x) && id in x.facts.records && (code.ATTEMPT_CHAIN_CONFLICT? || code.DEFINITIVE_RESULT_CONFLICT?)
    ensures RecordIssue(x, order, id, code) <==> Grounds(x, order, id, code)
  {
    hide RecordsOk, RejectionOf, Stands, ValidAt, At, HasUnrelated, Rejects;
    var k := KeyOf(x.facts.records[id]);
    forall j ensures j in ValidAt(x, k) <==> Stands(x, k, j) { StandsIs(x, k, j); }
    AllRelated(x, k, id);
    assert ValidAt(x, k) == {id} <==> Stands(x, k, id) && forall j :: Stands(x, k, j) ==> j == id;
  }

  lemma GroundsExactly(x: View, order: seq<Id>, id: Id, code: IssueCode)
    requires Ready(x.bound, x.profile) && RecordsOk(x) && id in x.facts.records
    ensures RecordIssue(x, order, id, code) <==> Grounds(x, order, id, code)
  {
    hide Ready, RecordsOk, RejectionOf, Rejects, At, ValidAt, HasUnrelated, ConflictAt, Stands, Earliest;
    match code
    case INVALID_RETRY_CHAIN => RetryGrounds(x, order, id, code);
    case RETRY_LIMIT => RetryGrounds(x, order, id, code);
    case ATTEMPT_CHAIN_CONFLICT => StageGrounds(x, order, id, code);
    case DEFINITIVE_RESULT_CONFLICT => StageGrounds(x, order, id, code);
    case MISSING_RESULT =>
    case STATUS_RESULT_MISMATCH =>
    case _ => RejectsExactly(x, x.facts.records[id], code);
  }

  /** The stage after stage `j` of a decided trial started too early. */
  ghost predicate Disordered(x: View, e: Entry, j: nat) {
    && e in x.bound.entries && (forall id :: id in e.stageIds ==> Decided(x, Slot(e, id)))
    && j + 1 < |e.stageIds| && !InTurn(x, e, j)
  }

  ghost predicate DisorderIssue(x: View, i: Issue, e: Entry, j: nat) {
    Disordered(x, e, j) && ChoiceAt(x, e, j + 1).Some? && i == IssueFor(STAGE_ORDER, ChoiceAt(x, e, j + 1).value)
  }

  lemma DisorderedIs(x: View, e: Entry, j: nat)
    requires Ready(x.bound, x.profile) && RecordsOk(x) && e in x.bound.entries && j + 1 < |e.stageIds|
    ensures Disordered(x, e, j) <==> Complete(x, e) && OutOfOrder(x, e, j)
  {
    hide Ready, RecordsOk, Decided, InTurn, OutOfOrder, ChoiceAt, Definite;
    forall i | 0 <= i < |e.stageIds|
      ensures Decided(x, Slot(e, e.stageIds[i]))
              <==> ChoiceAt(x, e, i).Some? && ChoiceAt(x, e, i).value.result.Some?
                   && Definite(ChoiceAt(x, e, i).value.result.value)
    {
      SlotOf(x.bound, e, i);
      DecidedIs(x, Slot(e, e.stageIds[i]));
      ChoiceOfSlot(x, e, i);
    }
    if Complete(x, e) { InTurnIs(x, e, j); }
  }

  lemma DisorderIssues(x: View, i: Issue)
    requires Ready(x.bound, x.profile) && RecordsOk(x)
    ensures OrderIssue(x, i) <==> exists e, j: nat :: DisorderIssue(x, i, e, j)
  {
    hide Ready, RecordsOk, Decided, InTurn, OutOfOrder, ChoiceAt, Definite, Disordered;
    if e, j: nat :| e in x.bound.entries && j + 1 < |e.stageIds| && Complete(x, e) && OutOfOrder(x, e, j)
                    && i == IssueFor(STAGE_ORDER, ChoiceAt(x, e, j + 1).value) {
      DisorderedIs(x, e, j);
      assert ChoiceAt(x, e, j + 1).Some? by { CompleteAt(x, e, j + 1); }
      assert DisorderIssue(x, i, e, j);
    }
    if e, j: nat :| DisorderIssue(x, i, e, j) {
      assert e in x.bound.entries && j + 1 < |e.stageIds| by { DisorderPlanned(x, e, j); }
      DisorderedIs(x, e, j);
    }
  }

  lemma CompleteAt(x: View, e: Entry, j: nat)
    requires Complete(x, e) && j < |e.stageIds|
    ensures ChoiceAt(x, e, j).Some?
  {
    hide ChoiceAt, Definite;
  }

  lemma DisorderPlanned(x: View, e: Entry, j: nat)
    requires Disordered(x, e, j)
    ensures e in x.bound.entries && j + 1 < |e.stageIds|
  {
    hide Decided, InTurn;
  }

  /** Everything an aggregation reports: ids delivered with several contents, what
      is wrong with a record or its stage, violations of contradictory records and
      stages of decided trials that ran out of turn. */
  lemma IssuesExactly(b: Bound, p: Profile, a: seq<Record>, i: Issue)
    requires Ready(b, p) && AllValid(a)
    ensures var x, order := View(b, p, Fold(a).facts), Fold(a).order;
            Reported(x, order, i) <==>
              || (exists r :: r in a && r.attemptId in x.facts.records && r != x.facts.records[r.attemptId]
                              && i == IssueFor(DUPLICATE_ATTEMPT_CONFLICT, r))
              || (exists id :: id in x.facts.records && Grounds(x, order, id, i.code)
                               && i == IssueFor(i.code, x.facts.records[id]))
              || (exists r :: BrokenInConflict(x, r) && i == IssueFor(FORBIDDEN_VIOLATION, r))
              || (exists e, j: nat :: DisorderIssue(x, i, e, j))
  {
    hide Ready, RecordsOk, AllValid, Fold, HiddenViolation, BrokenInConflict, RecordIssue, Grounds, OrderIssue, DisorderIssue;
    var x, order := View(b, p, Fold(a).facts), Fold(a).order;
    FoldRecordsOk(b, p, a);
    ConflictIssuesAre(a, Fold(a), i);
    DisorderIssues(x, i);
    forall r ensures HiddenViolation(x, r) <==> BrokenInConflict(x, r) { HiddenIs(x, r); }
    forall id | id in x.facts.records
      ensures RecordIssue(x, order, id, i.code) <==> Grounds(x, order, id, i.code)
    {
      GroundsExactly(x, order, id, i.code);
    }
  }

  lemma ConflictIssuesAre(a: seq<Record>, f: Folded, i: Issue)
    requires f == Fold(a)
    ensures i in f.facts.issues <==>
              exists r :: r in a && r.attemptId in f.facts.records && r != f.facts.records[r.attemptId]
                          && i == IssueFor(DUPLICATE_ATTEMPT_CONFLICT, r)
  {
    hide Fold;
    FoldIs(a);
  }
}
