/** The loop that chooses the record each planned stage rests on. */
module AggregationSelection {
  import opened Common
  import opened Attempts
  import opened AggregationSpec
  import opened AggregationLaws
  import opened AggregationLoops

  // ---------- retries ----------

  ghost function Retrying(x: View, target: Id): iset<Id> {
    iset id | id in x.facts.records && x.facts.records[id].retryOf == Some(target)
  }

  method CountRetries(x: View, order: seq<Id>, target: Id) returns (count: nat)
    requires OrderOk(x, order)
    ensures count == |Listed(order, Retrying(x, target))|
  {
    count := 0;
    var i := 0;
    while i < |order|
      invariant 0 <= i <= |order| && count == |Listed(order[..i], Retrying(x, target))|
    {
      ListedNext(order, i, Retrying(x, target));
      if x.facts.records[order[i]].retryOf == Some(target) { count := count + 1; }
      i := i + 1;
    }
    assert order[..i] == order;
  }

  lemma TwoRetries(x: View, order: seq<Id>, id: Id)
    requires OrderOk(x, order) && RecordsOk(x) && id in x.facts.records && x.facts.records[id].retryOf.Some?
    ensures |Listed(order, Retrying(x, x.facts.records[id].retryOf.value))| > 1 <==> RetriedTwice(x, x.facts.records[id])
  {
    hide Listed, ValidRecord;
    var r := x.facts.records[id];
    var ids := Retrying(x, r.retryOf.value);
    var listed := Listed(order, ids);
    ListedMembers(order, ids);
    assert id in listed;
    if |listed| > 1 {
      assert listed[0] != listed[1] && listed[0] in listed && listed[1] in listed;
      assert exists other :: other in listed && other != id;
    } else {
      assert listed == [id];
      assert forall other :: other in ids && other in order ==> other == id;
    }
  }

  /** What is wrong with a record as a retry, if anything. */
  ghost function ChainIssue(x: View, r: Record): Option<IssueCode> {
    if r.retryOf.None? then None
    else if !RetryOk(x, r) then Some(INVALID_RETRY_CHAIN)
    else if RetriedTwice(x, r) then Some(RETRY_LIMIT)
    else None
  }

  method CheckRetry(x: View, order: seq<Id>, accepted: set<Id>, id: Id) returns (issue: Option<IssueCode>)
    requires OrderOk(x, order) && RecordsOk(x) && accepted == Accepted(x) && id in x.facts.records
    ensures issue == ChainIssue(x, x.facts.records[id])
  {
    hide Accepted, RecordsOk, Listed, RetriedTwice, OrderOk;
    var r := x.facts.records[id];
    if r.retryOf.None? { return None; }
    if r.retryOf.value !in accepted { return Some(INVALID_RETRY_CHAIN); }
    var previous := x.facts.records[r.retryOf.value];
    if || KeyOf(previous) != KeyOf(r)
       || previous.retryOf.Some?
       || !(previous.status == Failed || previous.status == Timeout)
       || !previous.stopConfirmed || previous.finishedAt.None?
       || previous.finishedAt.value > r.startedAt
       || previous.binding.ownerEpoch != r.binding.ownerEpoch
       || !r.stateRestored
    {
      return Some(INVALID_RETRY_CHAIN);
    }
    var retries := CountRetries(x, order, r.retryOf.value);
    TwoRetries(x, order, id);
    return if retries > 1 then Some(RETRY_LIMIT) else None;
  }

  // ---------- one stage ----------

  predicate ChainCode(c: IssueCode) { c.INVALID_RETRY_CHAIN? || c.RETRY_LIMIT? }

  predicate ChoiceCode(c: IssueCode) { c.ATTEMPT_CHAIN_CONFLICT? || c.DEFINITIVE_RESULT_CONFLICT? }

  /** The issue is one the aggregation reports for the record it names. */
  ghost predicate Raised(x: View, order: seq<Id>, i: Issue) {
    i.attemptId in x.facts.records && i == IssueFor(i.code, x.facts.records[i.attemptId])
    && RecordIssue(x, order, i.attemptId, i.code)
  }

  ghost predicate ChainRaised(x: View, i: Issue) {
    i.attemptId in x.facts.records && i == IssueFor(i.code, x.facts.records[i.attemptId])
    && ChainIssue(x, x.facts.records[i.attemptId]) == Some(i.code)
  }

  method ValidRecords(x: View, order: seq<Id>, accepted: set<Id>, k: Key, records: seq<Id>)
    returns (valid: seq<Id>, issues: set<Issue>)
    requires OrderOk(x, order) && RecordsOk(x) && accepted == Accepted(x) && records == Listed(order, I(At(x, k)))
    ensures valid == Listed(order, I(ValidAt(x, k)))
    ensures forall i :: i in issues <==> i.attemptId in At(x, k) && ChainRaised(x, i)
  {
    hide OrderOk, Accepted, ChainIssue, Definitive, Listed, ValidAt, At;
    ListedMembers(order, I(At(x, k)));
    AllAtListed(x, order, k, records);
    valid, issues := [], {};
    ListedNothing(I(ValidAt(x, k)));
    var j := 0;
    while j < |records|
      invariant 0 <= j <= |records|
      invariant valid == Listed(records[..j], I(ValidAt(x, k)))
      invariant forall i :: i in issues <==> i.attemptId in records[..j] && ChainRaised(x, i)
    {
      var id := records[j];
      assert id in At(x, k);
      var r := x.facts.records[id];
      assert forall other :: other in records[..j + 1] <==> other in records[..j] || other == id;
      ListedNext(records, j, I(ValidAt(x, k)));
      var issue := CheckRetry(x, order, accepted, id);
      ValidOne(x, k, id, issue);
      if issue.Some? {
        issues := issues + {IssueFor(issue.value, r)};
      } else if Definitive(r) {
        valid := valid + [id];
      }
      j := j + 1;
    }
    assert records[..j] == records;
    ListedTwice(order, I(At(x, k)), I(ValidAt(x, k)));
  }

  lemma AllAtListed(x: View, order: seq<Id>, k: Key, records: seq<Id>)
    requires OrderOk(x, order) && records == Listed(order, I(At(x, k)))
    ensures forall id :: id in records <==> id in At(x, k)
    ensures Distinct(records)
  {
    hide Listed, Accepted;
    ListedMembers(order, I(At(x, k)));
  }

  lemma ValidOne(x: View, k: Key, id: Id, issue: Option<IssueCode>)
    requires RecordsOk(x) && id in At(x, k) && issue == ChainIssue(x, x.facts.records[id])
    ensures id in ValidAt(x, k) <==> issue.None? && Definitive(x.facts.records[id])
    ensures forall i: Issue :: i.attemptId == id ==>
              (ChainRaised(x, i) <==> issue.Some? && i == IssueFor(issue.value, x.facts.records[id]))
  {
    hide RetryOk, RetriedTwice, Definitive, ValidRecord;
  }

  lemma ChainRaisedIs(x: View, order: seq<Id>, i: Issue)
    requires i.attemptId in Accepted(x) && ChainCode(i.code)
    ensures ChainRaised(x, i) <==> Raised(x, order, i)
  {
    hide Accepted, RetryOk, RetriedTwice;
  }

  ghost predicate UnrelatedTo(x: View, k: Key, chosen: Id, records: seq<Id>)
    requires chosen in x.facts.records
  {
    exists id :: id in records && Unrelated(x, k, chosen, id)
  }

  method AnyUnrelated(x: View, k: Key, chosen: Id, records: seq<Id>) returns (found: bool)
    requires chosen in x.facts.records && forall id :: id in records <==> id in At(x, k)
    ensures found <==> HasUnrelated(x, k, chosen)
  {
    hide At;
    found := false;
    var j := 0;
    while j < |records|
      invariant 0 <= j <= |records|
      invariant found <==> UnrelatedTo(x, k, chosen, records[..j])
    {
      var id := records[j];
      assert id in records && id in At(x, k);
      assert forall other :: other in records[..j + 1] <==> other in records[..j] || other == id;
      if id != chosen && x.facts.records[chosen].retryOf != Some(id) && x.facts.records[id].retryOf != Some(chosen) {
        assert Unrelated(x, k, chosen, id);
        found := true;
      } else {
        assert !Unrelated(x, k, chosen, id);
      }
      j := j + 1;
    }
    assert records[..j] == records;
  }

  lemma SingleIs(s: set<Id>, listed: seq<Id>)
    requires Distinct(listed) && forall id :: id in listed <==> id in s
    ensures |listed| == 0 <==> s == {}
    ensures |listed| == 1 ==> s == {listed[0]}
    ensures |listed| > 1 <==> exists i, j :: i in s && j in s && i != j
  {
    if |listed| > 1 { assert listed[0] in listed && listed[1] in listed; }
    if |listed| == 1 { assert s == {listed[0]}; }
  }

  lemma ValidListed(x: View, order: seq<Id>, k: Key, valid: seq<Id>)
    requires OrderOk(x, order) && valid == Listed(order, I(ValidAt(x, k)))
    ensures forall id :: id in valid <==> id in ValidAt(x, k)
    ensures Distinct(valid)
  {
    hide Listed, Accepted;
    ListedMembers(order, I(ValidAt(x, k)));
    assert forall id :: id in ValidAt(x, k) ==> id in x.facts.records;
  }

  method SelectStage(x: View, order: seq<Id>, k: Key, records: seq<Id>, valid: seq<Id>)
    returns (chosen: Option<Id>, conflict: bool, issue: Option<Issue>)
    requires OrderOk(x, order) && RecordsOk(x)
    requires records == Listed(order, I(At(x, k))) && valid == Listed(order, I(ValidAt(x, k)))
    ensures chosen.Some? ==> Selected(x, k, chosen.value)
    ensures chosen.None? ==> forall id :: !Selected(x, k, id)
    ensures conflict <==> ConflictAt(x, k)
    ensures forall i: Issue :: ChoiceCode(i.code) && i.key == k ==> (issue == Some(i) <==> Raised(x, order, i))
    ensures issue.Some? ==> ChoiceCode(issue.value.code) && issue.value.key == k
  {
    hide OrderOk, Listed, ValidAt, At, HasUnrelated, Raised, RecordsOk;
    ValidListed(x, order, k, valid);
    AllAtListed(x, order, k, records);
    SingleIs(ValidAt(x, k), valid);
    chosen, conflict, issue := None, false, None;
    if |valid| == 1 {
      var unrelated := AnyUnrelated(x, k, valid[0], records);
      if unrelated {
        issue := Some(IssueFor(ATTEMPT_CHAIN_CONFLICT, x.facts.records[valid[0]]));
      } else {
        chosen := Some(valid[0]);
      }
      OnlyChainConflict(x, order, k, valid[0]);
    } else if |valid| > 1 {
      conflict := true;
      issue := Some(IssueFor(DEFINITIVE_RESULT_CONFLICT, x.facts.records[valid[0]]));
      ListedFirst(order, ValidAt(x, k));
      OnlyDefinitiveConflict(x, order, k, valid[0]);
    } else {
      NoChoiceIssue(x, order, k);
    }
  }

  lemma AtKey(x: View, k: Key, id: Id)
    requires id in ValidAt(x, k)
    ensures id in x.facts.records && KeyOf(x.facts.records[id]) == k && id in At(x, k)
  {
  }

  lemma OnlyChainConflict(x: View, order: seq<Id>, k: Key, id: Id)
    requires RecordsOk(x) && ValidAt(x, k) == {id} && id in x.facts.records
    ensures KeyOf(x.facts.records[id]) == k
    ensures forall i: Issue :: ChoiceCode(i.code) && i.key == k ==>
              (Raised(x, order, i) <==> i == IssueFor(ATTEMPT_CHAIN_CONFLICT, x.facts.records[id]) && HasUnrelated(x, k, id))
  {
    hide ValidAt, HasUnrelated, ValidRecord;
    AtKey(x, k, id);
  }

  lemma SameFirst(order: seq<Id>, ids: set<Id>, i: Id, j: Id)
    requires Earliest(order, ids, i) && Earliest(order, ids, j)
    ensures i == j
  {
  }

  lemma OnlyDefinitiveConflict(x: View, order: seq<Id>, k: Key, id: Id)
    requires RecordsOk(x) && ConflictAt(x, k) && id in x.facts.records && Earliest(order, ValidAt(x, k), id)
    ensures KeyOf(x.facts.records[id]) == k
    ensures forall i: Issue :: ChoiceCode(i.code) && i.key == k ==>
              (Raised(x, order, i) <==> i == IssueFor(DEFINITIVE_RESULT_CONFLICT, x.facts.records[id]))
  {
    hide ValidAt, HasUnrelated, ValidRecord, Earliest;
    assert id in ValidAt(x, k) by { EarliestIn(order, ValidAt(x, k), id); }
    AtKey(x, k, id);
    forall i: Issue | ChoiceCode(i.code) && i.key == k
      ensures Raised(x, order, i) <==> i == IssueFor(DEFINITIVE_RESULT_CONFLICT, x.facts.records[id])
    {
      if Raised(x, order, i) && i.code == DEFINITIVE_RESULT_CONFLICT {
        SameFirst(order, ValidAt(x, k), i.attemptId, id);
      }
    }
  }

  lemma EarliestIn(order: seq<Id>, ids: set<Id>, id: Id)
    requires Earliest(order, ids, id)
    ensures id in ids
  {
  }

  lemma NoChoiceIssue(x: View, order: seq<Id>, k: Key)
    requires ValidAt(x, k) == {}
    ensures forall i: Issue :: ChoiceCode(i.code) && i.key == k ==> !Raised(x, order, i)
  {
    hide ValidAt, HasUnrelated;
  }

  // ---------- all stages ----------

  function Found<K(==), V>(m: map<K, V>, k: K): Option<V> { if k in m then Some(m[k]) else None }

  function AsSet<T(==)>(o: Option<T>): set<T> { if o.Some? then {o.value} else {} }

  function RecordsOf(x: View, ids: seq<Id>): set<Record>
    requires forall id :: id in ids ==> id in x.facts.records
  {
    set id | id in ids :: x.facts.records[id]
  }

  /** One of several definitive records of its stage. */
  ghost predicate Contradicted(x: View, r: Record) {
    exists id :: id in ValidAt(x, KeyOf(r)) && x.facts.records[id] == r && ConflictAt(x, KeyOf(r))
  }

  ghost predicate StageRaised(x: View, order: seq<Id>, i: Issue) {
    (ChainCode(i.code) || ChoiceCode(i.code)) && Raised(x, order, i)
  }

  // What the stages outside `todo` have contributed.

  ghost predicate ChoicesOk(x: View, todo: set<Key>, selected: map<Key, Record>) {
    forall k :: if k in todo then k !in selected else Choice(x, k) == Found(selected, k)
  }

  ghost predicate ConflictsOk(x: View, todo: set<Key>, conflictKeys: set<Key>) {
    forall k :: k in conflictKeys <==> k !in todo && ConflictAt(x, k)
  }

  ghost predicate ContradictedOk(x: View, todo: set<Key>, contradicted: set<Record>) {
    forall r :: r in contradicted <==> KeyOf(r) !in todo && Contradicted(x, r)
  }

  ghost predicate StageIssuesOk(x: View, order: seq<Id>, todo: set<Key>, issues: set<Issue>) {
    forall i: Issue :: i in issues <==> i.key !in todo && StageRaised(x, order, i)
  }

  method SelectAll(x: View, order: seq<Id>, logical: map<Key, seq<Id>>, accepted: set<Id>)
    returns (selected: map<Key, Record>, conflictKeys: set<Key>, contradicted: set<Record>, issues: set<Issue>)
    requires OrderOk(x, order) && RecordsOk(x) && LogicalOk(x, order, logical) && accepted == Accepted(x)
    ensures ChoicesOk(x, {}, selected) && ConflictsOk(x, {}, conflictKeys)
    ensures ContradictedOk(x, {}, contradicted) && StageIssuesOk(x, order, {}, issues)
  {
    hide OrderOk, RecordsOk, LogicalOk, Accepted, Listed, At, ValidAt, ConflictAt, Selected;
    hide ChoicesOk, ConflictsOk, ContradictedOk, StageIssuesOk, ChainRaised, Raised;
    selected, conflictKeys, contradicted, issues := map[], {}, {}, {};
    var todo := logical.Keys;
    NothingElsewhere(x, order, logical);
    while todo != {}
      invariant todo <= logical.Keys
      invariant ChoicesOk(x, todo, selected) && ConflictsOk(x, todo, conflictKeys)
      invariant ContradictedOk(x, todo, contradicted) && StageIssuesOk(x, order, todo, issues)
      decreases |todo|
    {
      var k :| k in todo;
      var records := logical[k];
      StageListed(x, order, logical, k);
      var valid, chainIssues := ValidRecords(x, order, accepted, k, records);
      var chosen, conflict, issue := SelectStage(x, order, k, records, valid);
      ValidListed(x, order, k, valid);
      ValidKnown(x, k);
      ChosenKnown(x, k, chosen);
      ChoiceDone(x, todo, k, selected, chosen);
      ConflictDone(x, todo, k, conflictKeys, conflict);
      ContradictedDone(x, todo, k, contradicted, valid, conflict);
      IssuesDone(x, order, todo, k, issues, chainIssues, issue);
      if chosen.Some? { selected := selected[k := x.facts.records[chosen.value]]; }
      if conflict {
        conflictKeys := conflictKeys + {k};
        contradicted := contradicted + RecordsOf(x, valid);
      }
      issues := issues + chainIssues + AsSet(issue);
      todo := todo - {k};
    }
  }

  lemma StageListed(x: View, order: seq<Id>, logical: map<Key, seq<Id>>, k: Key)
    requires LogicalOk(x, order, logical) && k in logical
    ensures logical[k] == Listed(order, I(At(x, k)))
  {
    hide At, Listed;
    assert ListedAt(logical, k) == Listed(order, I(At(x, k)));
  }

  lemma NoRecords(x: View, order: seq<Id>, logical: map<Key, seq<Id>>, k: Key)
    requires OrderOk(x, order) && LogicalOk(x, order, logical) && k !in logical
    ensures At(x, k) == {} && ValidAt(x, k) == {}
  {
    hide At, Listed;
    assert ListedAt(logical, k) == Listed(order, I(At(x, k)));
    AllAtListed(x, order, k, []);
  }

  lemma RaisedAt(x: View, order: seq<Id>, i: Issue)
    requires RecordsOk(x) && StageRaised(x, order, i)
    ensures i.attemptId in At(x, i.key)
  {
    hide ValidRecord, RetryOk, RetriedTwice, RejectionOf, HasUnrelated;
  }

  lemma NothingElsewhere(x: View, order: seq<Id>, logical: map<Key, seq<Id>>)
    requires OrderOk(x, order) && RecordsOk(x) && LogicalOk(x, order, logical)
    ensures ChoicesOk(x, logical.Keys, map[]) && ConflictsOk(x, logical.Keys, {})
    ensures ContradictedOk(x, logical.Keys, {}) && StageIssuesOk(x, order, logical.Keys, {})
  {
    hide OrderOk, RecordsOk, LogicalOk, At, ValidAt, HasUnrelated, StageRaised;
    forall k | k !in logical ensures Choice(x, k).None? && !ConflictAt(x, k) && ValidAt(x, k) == {} {
      NoRecords(x, order, logical, k);
    }
    forall i: Issue | i.key !in logical ensures !StageRaised(x, order, i) {
      NoRecords(x, order, logical, i.key);
      if StageRaised(x, order, i) { RaisedAt(x, order, i); }
    }
  }

  lemma ValidKnown(x: View, k: Key)
    ensures forall id :: id in ValidAt(x, k) ==> id in x.facts.records && KeyOf(x.facts.records[id]) == k
  {
    hide ChainOk, Definitive, Accepted;
  }

  lemma ChosenKnown(x: View, k: Key, chosen: Option<Id>)
    requires chosen.Some? ==> Selected(x, k, chosen.value)
    requires chosen.None? ==> forall id :: !Selected(x, k, id)
    ensures chosen.Some? ==> chosen.value in x.facts.records && Choice(x, k) == Some(x.facts.records[chosen.value])
    ensures chosen.None? ==> Choice(x, k).None?
  {
    hide ValidAt, HasUnrelated;
    if chosen.Some? {
      forall id | Selected(x, k, id) ensures id == chosen.value { SelectedOnce(x, k, id, chosen.value); }
    }
  }

  lemma ChoiceDone(x: View, todo: set<Key>, k: Key, selected: map<Key, Record>, chosen: Option<Id>)
    requires ChoicesOk(x, todo, selected) && k in todo
    requires chosen.Some? ==> chosen.value in x.facts.records && Choice(x, k) == Some(x.facts.records[chosen.value])
    requires chosen.None? ==> Choice(x, k).None?
    ensures ChoicesOk(x, todo - {k}, if chosen.Some? then selected[k := x.facts.records[chosen.value]] else selected)
  {
    hide Choice;
  }

  lemma ConflictDone(x: View, todo: set<Key>, k: Key, conflictKeys: set<Key>, conflict: bool)
    requires ConflictsOk(x, todo, conflictKeys) && k in todo && (conflict <==> ConflictAt(x, k))
    ensures ConflictsOk(x, todo - {k}, if conflict then conflictKeys + {k} else conflictKeys)
  {
    hide ConflictAt;
  }

  lemma ContradictedDone(x: View, todo: set<Key>, k: Key, contradicted: set<Record>, valid: seq<Id>, conflict: bool)
    requires ContradictedOk(x, todo, contradicted) && k in todo && (conflict <==> ConflictAt(x, k))
    requires forall id :: id in valid <==> id in ValidAt(x, k)
    requires forall id :: id in ValidAt(x, k) ==> id in x.facts.records && KeyOf(x.facts.records[id]) == k
    ensures ContradictedOk(x, todo - {k}, if conflict then contradicted + RecordsOf(x, valid) else contradicted)
  {
    hide ConflictAt, ValidAt;
  }

  lemma IssuesDone(x: View, order: seq<Id>, todo: set<Key>, k: Key, issues: set<Issue>, chainIssues: set<Issue>,
                   issue: Option<Issue>)
    requires RecordsOk(x) && StageIssuesOk(x, order, todo, issues) && k in todo
    requires forall i :: i in chainIssues <==> i.attemptId in At(x, k) && ChainRaised(x, i)
    requires forall i: Issue :: ChoiceCode(i.code) && i.key == k ==> (issue == Some(i) <==> Raised(x, order, i))
    requires issue.Some? ==> ChoiceCode(issue.value.code) && issue.value.key == k
    ensures StageIssuesOk(x, order, todo - {k}, issues + chainIssues + AsSet(issue))
  {
    hide At, ChainRaised, Raised, RecordsOk;
    forall i: Issue ensures i in chainIssues <==> i.key == k && ChainCode(i.code) && Raised(x, order, i) {
      ChainIssueHere(x, order, k, i);
    }
  }

  lemma ChainIssueHere(x: View, order: seq<Id>, k: Key, i: Issue)
    requires RecordsOk(x)
    ensures i.attemptId in At(x, k) && ChainRaised(x, i) <==> i.key == k && ChainCode(i.code) && Raised(x, order, i)
  {
    hide RecordsOk, RetryOk, RetriedTwice, Accepted, RecordIssue;
    if i.key == k && ChainCode(i.code) && Raised(x, order, i) {
      RaisedAt(x, order, i);
    }
    if i.attemptId in At(x, k) {
      if ChainCode(i.code) { ChainRaisedIs(x, order, i); }
    }
  }
}
