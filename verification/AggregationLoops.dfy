/** The loops that turn delivered records into one selected record for each
    planned stage. */
module AggregationLoops {
  import opened Common
  import opened Attempts
  import opened AggregationSpec
  import opened DeliveryLaws
  import opened AggregationLaws

  // ---------- deliveries ----------

  method FoldDeliveries(attempts: seq<Record>) returns (out: Result<Folded, AggregationError>)
    ensures out.Ok? <==> forall r :: r in attempts ==> ValidRecord(r)
    ensures out.Ok? ==> out.value == Fold(attempts)
    ensures out.Err? ==> exists i :: 0 <= i < |attempts| && RecordError(attempts[i]) == Some(out.error)
                                     && forall j :: 0 <= j < i ==> ValidRecord(attempts[j])
  {
    hide RecordError, Fold;
    FoldNothing(attempts);
    var records, deliveries, order := map[], map[], [];
    var conflicted, conflicting, issues := {}, {}, {};
    var i := 0;
    while i < |attempts|
      invariant 0 <= i <= |attempts|
      invariant Folded(Facts(records, conflicted, conflicting, issues), deliveries, order) == Fold(attempts[..i])
      invariant forall j :: 0 <= j < i ==> ValidRecord(attempts[j])
    {
      FoldNext(attempts, i);
      var r := attempts[i];
      var error := RecordError(r);
      if error.Some? {
        assert r in attempts && !ValidRecord(r);
        return Err(error.value);
      }
      if r.attemptId in records {
        var first := records[r.attemptId];
        if first != r {
          issues := issues + {IssueFor(DUPLICATE_ATTEMPT_CONFLICT, r)};
          conflicted := conflicted + {r.attemptId};
          conflicting := conflicting + {first, r};
        } else {
          deliveries := deliveries[r.attemptId := deliveries[r.attemptId] + 1];
        }
      } else {
        records := records[r.attemptId := r];
        deliveries := deliveries[r.attemptId := 1];
        order := order + [r.attemptId];
      }
      i := i + 1;
    }
    assert attempts[..i] == attempts;
    return Ok(Folded(Facts(records, conflicted, conflicting, issues), deliveries, order));
  }

  lemma FoldNothing(attempts: seq<Record>)
    ensures Fold(attempts[..0]) == NOTHING
  {
  }

  lemma FoldNext(attempts: seq<Record>, i: nat)
    requires i < |attempts|
    ensures Fold(attempts[..i + 1]) == Deliver(Fold(attempts[..i]), attempts[i])
  {
    hide Deliver;
    assert attempts[..i + 1][..i] == attempts[..i];
  }

  /** The ids of a set, in delivery order. */
  function Listed(order: seq<Id>, ids: iset<Id>): seq<Id>
    decreases |order|
  {
    if order == [] then []
    else
      var n := |order| - 1;
      Listed(order[..n], ids) + if order[n] in ids then [order[n]] else []
  }

  ghost function I(ids: set<Id>): iset<Id> { iset id | id in ids }

  lemma ListedNothing(ids: iset<Id>)
    ensures Listed([], ids) == []
  {
  }

  lemma ListedNext(order: seq<Id>, i: nat, ids: iset<Id>)
    requires i < |order|
    ensures Listed(order[..i + 1], ids) == Listed(order[..i], ids) + if order[i] in ids then [order[i]] else []
  {
    assert order[..i + 1][..i] == order[..i];
  }

  lemma {:induction false} ListedMembers(order: seq<Id>, ids: iset<Id>)
    ensures forall id :: id in Listed(order, ids) <==> id in order && id in ids
    ensures Distinct(order) ==> Distinct(Listed(order, ids))
    decreases |order|
  {
    if order != [] {
      var n := |order| - 1;
      ListedMembers(order[..n], ids);
      assert order == order[..n] + [order[n]];
    }
  }

  /** Filtering a listing again is listing the smaller set. */
  lemma {:induction false} ListedTwice(order: seq<Id>, ids: iset<Id>, part: iset<Id>)
    requires part <= ids
    ensures Listed(Listed(order, ids), part) == Listed(order, part)
    decreases |order|
  {
    if order != [] {
      var n := |order| - 1;
      ListedTwice(order[..n], ids, part);
      if order[n] in ids {
        var whole := Listed(order[..n], ids) + [order[n]];
        assert whole[..|whole| - 1] == Listed(order[..n], ids) && whole[|whole| - 1] == order[n];
        assert Listed(order, ids) == whole;
      } else {
        assert Listed(order, ids) == Listed(order[..n], ids) && Listed(order, part) == Listed(order[..n], part);
      }
    }
  }

  lemma {:induction false} ListedFirst(order: seq<Id>, ids: set<Id>)
    requires Listed(order, I(ids)) != []
    ensures Earliest(order, ids, Listed(order, I(ids))[0])
    decreases |order|
  {
    hide Earliest;
    var n := |order| - 1;
    var before := Listed(order[..n], I(ids));
    if before != [] {
      ListedFirst(order[..n], ids);
      EarliestInPrefix(order, n, ids, before[0]);
    } else {
      ListedMembers(order[..n], I(ids));
      forall j | 0 <= j < n ensures order[j] !in ids {
        var id := order[j];
        assert order[..n][j] == id;
        assert id in before <==> id in ids;
      }
      EarliestIsLast(order, ids);
    }
  }

  // ---------- issues of single records ----------

  ghost predicate OrderOk(x: View, order: seq<Id>) {
    Distinct(order) && forall id :: id in order <==> id in x.facts.records
  }

  method FindResultIssues(x: View, order: seq<Id>) returns (issues: set<Issue>)
    requires OrderOk(x, order)
    ensures forall i :: i in issues <==>
              exists id :: id in x.facts.records && ResultIssue(x.facts.records[id]).Some?
                           && i == IssueFor(ResultIssue(x.facts.records[id]).value, x.facts.records[id])
  {
    hide ResultIssue;
    issues := {};
    var i := 0;
    while i < |order|
      invariant 0 <= i <= |order|
      invariant forall j :: j in issues <==>
                  exists id :: id in order[..i] && ResultIssue(x.facts.records[id]).Some?
                               && j == IssueFor(ResultIssue(x.facts.records[id]).value, x.facts.records[id])
    {
      var r := x.facts.records[order[i]];
      assert forall id :: id in order[..i + 1] <==> id in order[..i] || id == order[i];
      var issue := ResultIssue(r);
      if issue.Some? { issues := issues + {IssueFor(issue.value, r)}; }
      i := i + 1;
    }
    assert order[..i] == order;
  }

  // ---------- the plan ----------

  /** The keys of the plan and the entry each belongs to. */
  ghost predicate PlannedOk(b: Bound, p: Profile, planned: map<Key, Entry>) {
    forall k :: EntryFor(b, p, k) == if k in planned then Some(planned[k]) else None
  }

  method PlanKeys(b: Bound, p: Profile) returns (planned: map<Key, Entry>)
    requires Ready(b, p)
    ensures PlannedOk(b, p, planned)
  {
    hide Ready, Covered;
    planned := map[];
    var i := 0;
    while i < |b.entries|
      invariant 0 <= i <= |b.entries|
      invariant forall k :: k in planned <==> exists s :: s in Slots(b) && s.entry in b.entries[..i] && KeyAt(s) == k
      invariant forall k :: k in planned ==> exists s :: s in Slots(b) && s.entry == planned[k] && KeyAt(s) == k
    {
      planned := PlanEntry(b, p, planned, b.entries[i], b.entries[..i]);
      assert b.entries[..i + 1] == b.entries[..i] + [b.entries[i]];
      i := i + 1;
    }
    assert b.entries[..i] == b.entries;
    forall s | s in Slots(b) ensures s.entry in b.entries { EntryPlanned(b, s); }
    forall k | k in planned ensures EntryFor(b, p, k) == Some(planned[k]) {
      var s :| s in Slots(b) && s.entry == planned[k] && KeyAt(s) == k;
      SlotEntry(b, p, s);
    }
  }

  method PlanEntry(b: Bound, p: Profile, before: map<Key, Entry>, e: Entry, ghost done: seq<Entry>)
    returns (planned: map<Key, Entry>)
    requires e in b.entries
    requires forall k :: k in before <==> exists s :: s in Slots(b) && s.entry in done && KeyAt(s) == k
    requires forall k :: k in before ==> exists s :: s in Slots(b) && s.entry == before[k] && KeyAt(s) == k
    ensures forall k :: k in planned <==> exists s :: s in Slots(b) && (s.entry in done || s.entry == e) && KeyAt(s) == k
    ensures forall k :: k in planned ==> exists s :: s in Slots(b) && s.entry == planned[k] && KeyAt(s) == k
  {
    planned := before;
    var j := 0;
    while j < |e.stageIds|
      invariant 0 <= j <= |e.stageIds|
      invariant forall k :: k in planned <==>
                  k in before || exists m :: 0 <= m < j && KeyAt(Slot(e, e.stageIds[m])) == k
      invariant forall k :: k in planned ==> exists s :: s in Slots(b) && s.entry == planned[k] && KeyAt(s) == k
    {
      var s := Slot(e, e.stageIds[j]);
      assert s in Slots(b);
      planned := planned[KeyAt(s) := e];
      j := j + 1;
    }
    StagesOf(b, e, done, planned, before);
  }

  lemma StagesOf(b: Bound, e: Entry, done: seq<Entry>, planned: map<Key, Entry>, before: map<Key, Entry>)
    requires e in b.entries
    requires forall k :: k in before <==> exists s :: s in Slots(b) && s.entry in done && KeyAt(s) == k
    requires forall k :: k in planned <==>
               k in before || exists m :: 0 <= m < |e.stageIds| && KeyAt(Slot(e, e.stageIds[m])) == k
    ensures forall k :: k in planned <==> exists s :: s in Slots(b) && (s.entry in done || s.entry == e) && KeyAt(s) == k
  {
    forall k ensures k in planned <==> exists s :: s in Slots(b) && (s.entry in done || s.entry == e) && KeyAt(s) == k {
      if exists m :: 0 <= m < |e.stageIds| && KeyAt(Slot(e, e.stageIds[m])) == k {
        var m :| 0 <= m < |e.stageIds| && KeyAt(Slot(e, e.stageIds[m])) == k;
        assert Slot(e, e.stageIds[m]) in Slots(b);
      }
      if exists s :: s in Slots(b) && s.entry == e && KeyAt(s) == k {
        var s :| s in Slots(b) && s.entry == e && KeyAt(s) == k;
        EntryPlanned(b, s);
        var m :| 0 <= m < |e.stageIds| && e.stageIds[m] == s.stageId;
      }
    }
  }

  // ---------- logical records ----------

  function ListedAt(logical: map<Key, seq<Id>>, k: Key): seq<Id> { if k in logical then logical[k] else [] }

  /** For every planned stage its accepted records, in delivery order. */
  ghost predicate LogicalOk(x: View, order: seq<Id>, logical: map<Key, seq<Id>>) {
    (forall k :: ListedAt(logical, k) == Listed(order, I(At(x, k)))) && (forall k :: k in logical ==> logical[k] != [])
  }

  ghost predicate Rejected(x: View, id: Id) {
    id in x.facts.records && id !in x.facts.conflicted && RejectionOf(x, x.facts.records[id]).Some?
  }

  ghost function RejectionIssue(x: View, id: Id): Issue
    requires Rejected(x, id)
  {
    IssueFor(RejectionOf(x, x.facts.records[id]).value, x.facts.records[id])
  }

  method CollectLogical(x: View, order: seq<Id>, planned: map<Key, Entry>)
    returns (logical: map<Key, seq<Id>>, accepted: set<Id>, issues: set<Issue>)
    requires OrderOk(x, order) && PlannedOk(x.bound, x.profile, planned)
    ensures LogicalOk(x, order, logical)
    ensures accepted == Accepted(x)
    ensures forall i :: i in issues <==> exists id :: Rejected(x, id) && i == RejectionIssue(x, id)
  {
    logical, accepted, issues := map[], {}, {};
    var i := 0;
    while i < |order|
      invariant 0 <= i <= |order|
      invariant LogicalOk(x, order[..i], logical)
      invariant forall id :: id in accepted <==> id in order[..i] && id in Accepted(x)
      invariant forall j :: j in issues <==> exists id :: id in order[..i] && Rejected(x, id) && j == RejectionIssue(x, id)
    {
      hide PlannedOk, LogicalOk, Accepted, RejectionOf, Rejection;
      var id := order[i];
      var r := x.facts.records[id];
      var k := KeyOf(r);
      assert forall j :: j in order[..i + 1] <==> j in order[..i] || j == id;
      if id in x.facts.conflicted {
        NotAccepted(x, id);
        LogicalSkips(x, order, i, logical);
      } else {
        PlannedEntry(x, planned, k);
        var rejection := Rejection(x.bound, x.profile, if k in planned then Some(planned[k]) else None, r);
        RejectionKnown(x, id, planned, rejection);
        if rejection.Some? {
          issues := issues + {IssueFor(rejection.value, r)};
          LogicalSkips(x, order, i, logical);
        } else {
          LogicalAdds(x, order, i, logical);
          logical := logical[k := ListedAt(logical, k) + [id]];
          accepted := accepted + {id};
        }
      }
      i := i + 1;
    }
    assert order[..i] == order;
  }

  lemma NotAccepted(x: View, id: Id)
    requires id in x.facts.conflicted
    ensures id !in Accepted(x) && !Rejected(x, id)
  {
  }

  lemma PlannedEntry(x: View, planned: map<Key, Entry>, k: Key)
    requires PlannedOk(x.bound, x.profile, planned)
    ensures EntryFor(x.bound, x.profile, k) == if k in planned then Some(planned[k]) else None
    ensures k in planned ==> Covered(x.bound, x.profile, planned[k])
  {
  }

  lemma RejectionKnown(x: View, id: Id, planned: map<Key, Entry>, rejection: Option<IssueCode>)
    requires PlannedOk(x.bound, x.profile, planned) && id in x.facts.records && id !in x.facts.conflicted
    requires var k := KeyOf(x.facts.records[id]);
             k in planned ==> Covered(x.bound, x.profile, planned[k])
    requires var r := x.facts.records[id];
             rejection == Rejection(x.bound, x.profile, if KeyOf(r) in planned then Some(planned[KeyOf(r)]) else None, r)
    ensures RejectionOf(x, x.facts.records[id]) == rejection
    ensures rejection.None? <==> id in Accepted(x)
    ensures rejection.Some? <==> Rejected(x, id)
  {
  }

  lemma LogicalSkips(x: View, order: seq<Id>, i: nat, logical: map<Key, seq<Id>>)
    requires i < |order| && order[i] !in Accepted(x) && LogicalOk(x, order[..i], logical)
    ensures LogicalOk(x, order[..i + 1], logical)
  {
    hide Accepted;
    forall k ensures ListedAt(logical, k) == Listed(order[..i + 1], I(At(x, k))) { ListedNext(order, i, I(At(x, k))); }
  }

  lemma LogicalAdds(x: View, order: seq<Id>, i: nat, logical: map<Key, seq<Id>>)
    requires i < |order| && order[i] in Accepted(x) && LogicalOk(x, order[..i], logical)
    ensures var k := KeyOf(x.facts.records[order[i]]);
            LogicalOk(x, order[..i + 1], logical[k := ListedAt(logical, k) + [order[i]]])
  {
    hide Accepted;
    var own := KeyOf(x.facts.records[order[i]]);
    var after := logical[own := ListedAt(logical, own) + [order[i]]];
    forall k ensures ListedAt(after, k) == Listed(order[..i + 1], I(At(x, k))) { ListedNext(order, i, I(At(x, k))); }
  }
}
