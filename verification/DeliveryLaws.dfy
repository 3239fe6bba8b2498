/** What folding the deliveries computes, and how it depends on their order. */
module DeliveryLaws {
  import opened Common
  import opened Attempts
  import opened AggregationSpec

  /** The fold, said without its loop. */
  ghost predicate FoldMeans(a: seq<Record>, f: Folded) {
    && FoldedOk(f)
    && (forall id :: id in f.facts.records ==> f.facts.records[id] in a && f.facts.records[id].attemptId == id)
    && (forall r :: r in a ==> r.attemptId in f.facts.records)
    && (forall id :: id in f.facts.conflicted <==>
          exists r :: r in a && r.attemptId == id && r != f.facts.records[r.attemptId])
    && (forall r :: r in f.facts.conflicting <==> r in a && r.attemptId in f.facts.conflicted)
    && (forall i :: i in f.facts.issues <==>
          exists r :: r in a && r != f.facts.records[r.attemptId] && i == IssueFor(DUPLICATE_ATTEMPT_CONFLICT, r))
    && (forall id :: id in f.deliveries ==> f.deliveries[id] == multiset(a)[f.facts.records[id]])
  }

  ghost predicate OrderMeans(f: Folded) {
    Distinct(f.order) && forall id :: id in f.order <==> id in f.facts.records
  }

  lemma LastIn(a: seq<Record>)
    requires a != []
    ensures forall r :: r in a <==> r in a[..|a| - 1] || r == a[|a| - 1]
    ensures multiset(a) == multiset(a[..|a| - 1]) + multiset{a[|a| - 1]}
  {
    assert a == a[..|a| - 1] + [a[|a| - 1]];
  }

  lemma NewDelivery(a: seq<Record>, f: Folded, b: seq<Record>, r: Record)
    requires FoldMeans(a, f) && r.attemptId !in f.facts.records
    requires forall q :: q in b <==> q in a || q == r
    requires multiset(b) == multiset(a) + multiset{r}
    ensures FoldMeans(b, Deliver(f, r))
  {
    var g := Deliver(f, r);
    assert r !in a;
    assert multiset(a)[r] == 0;
    forall q | q in a ensures g.facts.records[q.attemptId] == f.facts.records[q.attemptId] {}
    ConflictsSame(a, f, b, g, r);
  }

  lemma ConflictsSame(a: seq<Record>, f: Folded, b: seq<Record>, g: Folded, r: Record)
    requires FoldMeans(a, f) && forall q :: q in b <==> q in a || q == r
    requires g.facts == f.facts.(records := g.facts.records) && r.attemptId in g.facts.records
    requires r == g.facts.records[r.attemptId]
    requires forall q :: q in a ==> q.attemptId in g.facts.records && g.facts.records[q.attemptId] == f.facts.records[q.attemptId]
    ensures forall id :: id in g.facts.conflicted <==>
              exists q :: q in b && q.attemptId == id && q != g.facts.records[q.attemptId]
    ensures forall i :: i in g.facts.issues <==>
              exists q :: q in b && q != g.facts.records[q.attemptId] && i == IssueFor(DUPLICATE_ATTEMPT_CONFLICT, q)
  {
  }

  lemma CopyDelivery(a: seq<Record>, f: Folded, b: seq<Record>, r: Record)
    requires FoldMeans(a, f) && r.attemptId in f.facts.records && f.facts.records[r.attemptId] == r
    requires forall q :: q in b <==> q in a || q == r
    requires multiset(b) == multiset(a) + multiset{r}
    ensures FoldMeans(b, Deliver(f, r))
  {
    ConflictsSame(a, f, b, Deliver(f, r), r);
  }

  lemma ConflictingDelivery(a: seq<Record>, f: Folded, b: seq<Record>, r: Record)
    requires FoldMeans(a, f) && r.attemptId in f.facts.records && f.facts.records[r.attemptId] != r
    requires forall q :: q in b <==> q in a || q == r
    requires multiset(b) == multiset(a) + multiset{r}
    ensures FoldMeans(b, Deliver(f, r))
  {
    var g := Deliver(f, r);
    ConflictIds(a, f, b, g, r);
    ConflictIssues(a, f, b, g, r);
    forall id | id in f.deliveries ensures g.deliveries[id] == multiset(b)[g.facts.records[id]] {
      assert g.facts.records[id] != r;
    }
    ConflictMembers(a, f, b, g, r);
  }

  lemma ConflictIds(a: seq<Record>, f: Folded, b: seq<Record>, g: Folded, r: Record)
    requires FoldMeans(a, f) && r.attemptId in f.facts.records && f.facts.records[r.attemptId] != r
    requires forall q :: q in b <==> q in a || q == r
    requires g.facts.records == f.facts.records && g.facts.conflicted == f.facts.conflicted + {r.attemptId}
    ensures forall id :: id in g.facts.conflicted <==>
              exists q :: q in b && q.attemptId == id && q != g.facts.records[q.attemptId]
  {
  }

  lemma ConflictIssues(a: seq<Record>, f: Folded, b: seq<Record>, g: Folded, r: Record)
    requires FoldMeans(a, f) && r.attemptId in f.facts.records && f.facts.records[r.attemptId] != r
    requires forall q :: q in b <==> q in a || q == r
    requires g.facts.records == f.facts.records
    requires g.facts.issues == f.facts.issues + {IssueFor(DUPLICATE_ATTEMPT_CONFLICT, r)}
    ensures forall i :: i in g.facts.issues <==>
              exists q :: q in b && q != g.facts.records[q.attemptId] && i == IssueFor(DUPLICATE_ATTEMPT_CONFLICT, q)
  {
  }

  /** Before a conflict is known, an id has one content: its first record. */
  lemma ConflictMembers(a: seq<Record>, f: Folded, b: seq<Record>, g: Folded, r: Record)
    requires FoldMeans(a, f) && r.attemptId in f.facts.records && f.facts.records[r.attemptId] != r
    requires forall q :: q in b <==> q in a || q == r
    requires g == Deliver(f, r)
    ensures forall q :: q in g.facts.conflicting <==> q in b && q.attemptId in g.facts.conflicted
  {
    forall q ensures q in g.facts.conflicting <==> q in b && q.attemptId in g.facts.conflicted {
      if q in a && q.attemptId == r.attemptId && q.attemptId !in f.facts.conflicted {
        assert q == f.facts.records[q.attemptId];
      }
    }
  }

  lemma {:induction false} FoldIs(a: seq<Record>)
    ensures FoldMeans(a, Fold(a))
    decreases |a|
  {
    hide FoldMeans;
    if a == [] {
      EmptyFold();
    } else {
      var n := |a| - 1;
      FoldIs(a[..n]);
      LastIn(a);
      var f := Fold(a[..n]);
      if a[n].attemptId !in f.facts.records {
        NewDelivery(a[..n], f, a, a[n]);
      } else if f.facts.records[a[n].attemptId] == a[n] {
        CopyDelivery(a[..n], f, a, a[n]);
      } else {
        ConflictingDelivery(a[..n], f, a, a[n]);
      }
    }
  }

  lemma EmptyFold()
    ensures FoldMeans([], NOTHING)
  {
  }

  lemma {:induction false} OrderIs(a: seq<Record>)
    ensures OrderMeans(Fold(a))
    decreases |a|
  {
    if a != [] { OrderIs(a[..|a| - 1]); }
  }

  // ---------- order and redelivery ----------

  /** No attempt id carries two different contents. */
  ghost predicate ConflictFree(a: seq<Record>) {
    forall r, q :: r in a && q in a && r.attemptId == q.attemptId ==> r == q
  }

  lemma SameMembers(a: seq<Record>, b: seq<Record>)
    requires multiset(a) == multiset(b)
    ensures forall r :: r in a <==> r in b
  {
    forall r ensures r in a <==> r in b {
      assert r in a <==> r in multiset(a);
      assert r in b <==> r in multiset(b);
    }
  }

  lemma FactsOf(a: seq<Record>, b: seq<Record>, f: Folded, g: Folded)
    requires FoldMeans(a, f) && FoldMeans(b, g) && ConflictFree(a)
    requires forall r :: r in a <==> r in b
    ensures f.facts.records == g.facts.records
    ensures f.facts.conflicted == {} && f.facts.conflicting == {} && f.facts.issues == {}
  {
    forall id | id in f.facts.records ensures id in g.facts.records && g.facts.records[id] == f.facts.records[id] {
    }
    assert f.facts.records.Keys == g.facts.records.Keys by {
      forall id | id in g.facts.records ensures id in f.facts.records {}
    }
  }

  lemma ConflictFreeMembers(a: seq<Record>, b: seq<Record>)
    requires ConflictFree(a) && forall r :: r in a <==> r in b
    ensures ConflictFree(b)
  {
  }

  /** In any order the same facts and the same delivery counts come out. */
  lemma PermutedFold(a: seq<Record>, b: seq<Record>)
    requires multiset(a) == multiset(b) && ConflictFree(a)
    ensures Fold(a).facts == Fold(b).facts && Fold(a).deliveries == Fold(b).deliveries
  {
    hide Fold;
    SameMembers(a, b);
    FoldIs(a);
    FoldIs(b);
    ConflictFreeMembers(a, b);
    FactsOf(a, b, Fold(a), Fold(b));
    FactsOf(b, a, Fold(b), Fold(a));
    DeliveriesSame(a, b, Fold(a), Fold(b));
  }

  lemma DeliveriesSame(a: seq<Record>, b: seq<Record>, f: Folded, g: Folded)
    requires FoldMeans(a, f) && FoldMeans(b, g) && multiset(a) == multiset(b)
    requires f.facts.records == g.facts.records
    ensures f.deliveries == g.deliveries
  {
    assert f.deliveries.Keys == g.deliveries.Keys;
  }

  /** Redelivering a record, conflicting or not, changes no fact; the number of
      deliveries of its id goes up by one exactly for an identical copy. */
  lemma RedeliveredFold(a: seq<Record>, r: Record)
    requires r in a
    ensures Fold(a + [r]).facts == Fold(a).facts && Fold(a + [r]).order == Fold(a).order
    ensures r.attemptId in Fold(a).facts.records && r.attemptId in Fold(a).deliveries
            && Fold(a).deliveries[r.attemptId] >= 1
    ensures Fold(a + [r]).deliveries
            == if Fold(a).facts.records[r.attemptId] == r
               then Fold(a).deliveries[r.attemptId := Fold(a).deliveries[r.attemptId] + 1]
               else Fold(a).deliveries
  {
    FoldIs(a);
    assert (a + [r])[..|a|] == a;
    RecordKnown(a, Fold(a), r);
    RedeliveredFacts(a, Fold(a), r);
  }

  lemma RedeliveredFacts(a: seq<Record>, f: Folded, r: Record)
    requires FoldMeans(a, f) && r in a
    ensures Deliver(f, r).facts == f.facts && Deliver(f, r).order == f.order
  {
    hide FoldMeans;
    RecordKnown(a, f, r);
    if f.facts.records[r.attemptId] != r {
      ConflictKnown(a, f, r);
      assert f.facts.conflicted + {r.attemptId} == f.facts.conflicted;
      assert f.facts.conflicting + {f.facts.records[r.attemptId], r} == f.facts.conflicting;
      assert f.facts.issues + {IssueFor(DUPLICATE_ATTEMPT_CONFLICT, r)} == f.facts.issues;
    }
  }

  lemma RecordKnown(a: seq<Record>, f: Folded, r: Record)
    requires FoldMeans(a, f) && r in a
    ensures FoldedOk(f) && r.attemptId in f.facts.records && f.facts.records[r.attemptId] in a
    ensures f.facts.records[r.attemptId].attemptId == r.attemptId
  {
  }

  lemma ConflictKnown(a: seq<Record>, f: Folded, r: Record)
    requires FoldMeans(a, f) && r in a && r.attemptId in f.facts.records && f.facts.records[r.attemptId] != r
    ensures r.attemptId in f.facts.conflicted && r in f.facts.conflicting
    ensures f.facts.records[r.attemptId] in f.facts.conflicting
    ensures IssueFor(DUPLICATE_ATTEMPT_CONFLICT, r) in f.facts.issues
  {
    RecordKnown(a, f, r);
  }

  /** Later deliveries add facts and take none away. */
  ghost predicate FactsGrow(f: Facts, g: Facts) {
    && (forall id :: id in f.records ==> id in g.records && g.records[id] == f.records[id])
    && f.conflicted <= g.conflicted
    && f.conflicting <= g.conflicting
    && f.issues <= g.issues
  }

  lemma {:induction false} AppendedFold(a: seq<Record>, b: seq<Record>)
    ensures FactsGrow(Fold(a).facts, Fold(a + b).facts)
    decreases |b|
  {
    hide FactsGrow, Deliver, Fold;
    if b == [] {
      assert a + b == a;
      FactsStay(Fold(a).facts);
    } else {
      var n := |b| - 1;
      AppendedFold(a, b[..n]);
      assert (a + b)[..|a| + n] == a + b[..n];
      FoldLast(a + b);
      DeliverGrows(Fold(a + b[..n]), b[n]);
      FactsGrowOn(Fold(a).facts, Fold(a + b[..n]).facts, Fold(a + b).facts);
    }
  }

  lemma FoldLast(a: seq<Record>)
    requires a != []
    ensures Fold(a) == Deliver(Fold(a[..|a| - 1]), a[|a| - 1])
  {
  }

  lemma FactsStay(f: Facts)
    ensures FactsGrow(f, f)
  {
  }

  lemma DeliverGrows(f: Folded, r: Record)
    requires FoldedOk(f)
    ensures FactsGrow(f.facts, Deliver(f, r).facts)
  {
  }

  lemma FactsGrowOn(f: Facts, g: Facts, h: Facts)
    requires FactsGrow(f, g) && FactsGrow(g, h)
    ensures FactsGrow(f, h)
  {
  }
}
