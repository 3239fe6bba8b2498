/** The summary of a supervised run (tools/verify_synthetic_llm.py). */
module RunSummary {
  import opened Common
  import opened ChildOutput
  import opened Scheduler
  import opened Sums

  datatype Confusion = Confusion(
    tp: nat, fn: nat, fp: nat, tn: nat, expectedIndeterminate: nat, matched: nat, mismatched: nat)

  datatype Totals = Totals(prompt: int, completion: int, total: int)

  datatype Summary = Summary(
    counts: Confusion, usage: Totals, usageKnown: bool, complete: nat, mismatchedStages: nat,
    reservedRemaining: nat, finished: bool, agreement: bool)

  /** The results of a run are those of its first cases, in order. */
  ghost predicate Aligned(cases: seq<Case>, results: seq<CaseResult>) {
    && |results| <= |cases|
    && (forall i, j :: 0 <= i < j < |cases| ==> cases[i].caseId != cases[j].caseId)
    && (forall j :: 0 <= j < |results| ==> ResultOk(cases[j], results[j]))
  }

  // ---------- what the summary counts ----------

  function CompleteCount(results: seq<CaseResult>): nat
    decreases |results|
  {
    if results == [] then 0
    else CompleteCount(results[..|results| - 1]) + if results[|results| - 1].complete then 1 else 0
  }

  function UsedTotal(results: seq<CaseResult>): nat
    decreases |results|
  {
    if results == [] then 0 else UsedTotal(results[..|results| - 1]) + UsedBy(results[|results| - 1].records)
  }

  /** The prompt and completion tokens of all records that report usage. */
  function PromptBy(records: seq<StageRecord>): int
    decreases |records|
  {
    if records == [] then 0
    else
      var last := records[|records| - 1];
      PromptBy(records[..|records| - 1]) + if last.usage.Some? then last.usage.value.prompt else 0
  }

  function CompletionBy(records: seq<StageRecord>): int
    decreases |records|
  {
    if records == [] then 0
    else
      var last := records[|records| - 1];
      CompletionBy(records[..|records| - 1]) + if last.usage.Some? then last.usage.value.completion else 0
  }

  function PromptTotal(results: seq<CaseResult>): int
    decreases |results|
  {
    if results == [] then 0 else PromptTotal(results[..|results| - 1]) + PromptBy(results[|results| - 1].records)
  }

  function CompletionTotal(results: seq<CaseResult>): int
    decreases |results|
  {
    if results == [] then 0 else CompletionTotal(results[..|results| - 1]) + CompletionBy(results[|results| - 1].records)
  }

  /** The tokens of complete cases alone. */
  function CompleteUsed(results: seq<CaseResult>): nat
    decreases |results|
  {
    if results == [] then 0
    else CompleteUsed(results[..|results| - 1])
         + if results[|results| - 1].complete then UsedBy(results[|results| - 1].records) else 0
  }

  /** What stays reserved for submitted cases that are not complete. */
  function Held(cases: seq<Case>, results: seq<CaseResult>): nat
    requires |results| <= |cases|
    decreases |results|
  {
    if results == [] then 0
    else
      var n := |results| - 1;
      Held(cases, results[..n]) + if results[n].complete then 0 else Reservation(cases[n])
  }

  /** Whether a case was decided, by its last stage, in the given way. */
  predicate Decided(c: Case, r: CaseResult, expected: Label, actual: Detection) {
    && r.complete && c.expected == expected
    && r.records != [] && r.records[|r.records| - 1].selection.Some?
    && r.records[|r.records| - 1].selection.value.detection == actual
  }

  function CountOf(cases: seq<Case>, results: seq<CaseResult>, expected: Label, actual: Detection): nat
    requires |results| <= |cases|
    decreases |results|
  {
    if results == [] then 0
    else
      var n := |results| - 1;
      CountOf(cases, results[..n], expected, actual) + if Decided(cases[n], results[n], expected, actual) then 1 else 0
  }

  /** The stages of a complete case, up to the n-th, that differ from their target. */
  function Mismatches(c: Case, r: CaseResult, n: nat): nat {
    if n == 0 then 0 else Mismatches(c, r, n - 1) + if Agrees(c, r, n - 1) then 0 else 1
  }

  predicate Agrees(c: Case, r: CaseResult, i: nat) {
    && i < |r.records| && i < |c.stages|
    && r.records[i].selection.Some? && r.records[i].selection.value.detection == c.stages[i].expected
  }

  function MismatchTotal(cases: seq<Case>, results: seq<CaseResult>): nat
    requires |results| <= |cases|
    decreases |results|
  {
    if results == [] then 0
    else
      var n := |results| - 1;
      MismatchTotal(cases, results[..n])
      + if results[n].complete then Mismatches(cases[n], results[n], |cases[n].stages|) else 0
  }

  ghost predicate ConfusionOk(cases: seq<Case>, results: seq<CaseResult>, q: Confusion)
    requires |results| <= |cases|
  {
    && q.tp == CountOf(cases, results, Positive, Detect) && q.fn == CountOf(cases, results, Positive, Allow)
    && q.fp == CountOf(cases, results, Negative, Detect) && q.tn == CountOf(cases, results, Negative, Allow)
    && q.matched == CountOf(cases, results, IndeterminateLabel, Indeterminate)
    && q.mismatched == CountOf(cases, results, Positive, Indeterminate) + CountOf(cases, results, Negative, Indeterminate)
                       + CountOf(cases, results, IndeterminateLabel, Detect) + CountOf(cases, results, IndeterminateLabel, Allow)
    && q.expectedIndeterminate == q.matched + CountOf(cases, results, IndeterminateLabel, Detect)
                                  + CountOf(cases, results, IndeterminateLabel, Allow)
  }

  // ---------- the loops ----------

  /** A dictionary from stage id to record keeps the last of each id. */
  function RecordFor(records: seq<StageRecord>, stageId: Id): Option<StageRecord>
    decreases |records|
  {
    if records == [] then None
    else if records[|records| - 1].stageId == stageId then Some(records[|records| - 1])
    else RecordFor(records[..|records| - 1], stageId)
  }

  lemma {:induction false} RecordForAt(records: seq<StageRecord>, j: nat)
    requires j < |records| && forall a, b :: 0 <= a < b < |records| ==> records[a].stageId != records[b].stageId
    ensures RecordFor(records, records[j].stageId) == Some(records[j])
    decreases |records|
  {
    if j < |records| - 1 { RecordForAt(records[..|records| - 1], j); }
  }

  lemma OneMoreRecord(records: seq<StageRecord>, i: nat)
    requires i < |records|
    ensures UsedBy(records[..i + 1]) == UsedBy(records[..i]) + TokensOf(records[i])
    ensures PromptBy(records[..i + 1])
            == PromptBy(records[..i]) + if records[i].usage.Some? then records[i].usage.value.prompt else 0
    ensures CompletionBy(records[..i + 1])
            == CompletionBy(records[..i]) + if records[i].usage.Some? then records[i].usage.value.completion else 0
    ensures AllKnown(records[..i + 1]) <==> AllKnown(records[..i]) && records[i].usage.Some?
  {
    assert records[..i + 1][..i] == records[..i];
    assert records[..i + 1] == records[..i] + [records[i]];
    hide UsedBy, TokensOf, PromptBy, CompletionBy;
    if AllKnown(records[..i + 1]) {
      assert records[..i + 1][i].usage.Some?;
      assert forall k :: 0 <= k < i ==> records[..i][k] == records[..i + 1][k];
    }
  }

  method AddUsage(c: Case, r: CaseResult, before: Totals) returns (after: Totals, known: bool)
    requires ResultOk(c, r)
    ensures after.total == before.total + UsedBy(r.records)
    ensures after.prompt == before.prompt + PromptBy(r.records)
    ensures after.completion == before.completion + CompletionBy(r.records)
    ensures after.prompt + after.completion - after.total == before.prompt + before.completion - before.total
    ensures known <==> AllKnown(r.records)
  {
    hide UsedBy, AllKnown, PromptBy, CompletionBy;
    after, known := before, true;
    NothingUsed(r.records);
    var i := 0;
    while i < |r.records|
      invariant 0 <= i <= |r.records|
      invariant after.total == before.total + UsedBy(r.records[..i])
      invariant after.prompt == before.prompt + PromptBy(r.records[..i])
      invariant after.completion == before.completion + CompletionBy(r.records[..i])
      invariant after.prompt + after.completion - after.total == before.prompt + before.completion - before.total
      invariant known <==> AllKnown(r.records[..i])
    {
      OneMoreRecord(r.records, i);
      var u := r.records[i].usage;
      if u.None? {
        known := false;
      } else {
        assert UsageOk(u.value);
        after := Totals(after.prompt + u.value.prompt, after.completion + u.value.completion, after.total + u.value.total);
      }
      i := i + 1;
    }
    assert r.records[..i] == r.records;
  }

  lemma NothingUsed(records: seq<StageRecord>)
    ensures UsedBy(records[..0]) == PromptBy(records[..0]) == CompletionBy(records[..0]) == 0 && AllKnown(records[..0])
  {
  }

  method AddMismatches(c: Case, r: CaseResult, before: nat) returns (after: nat)
    requires ResultOk(c, r) && r.complete
    ensures after == before + Mismatches(c, r, |c.stages|)
  {
    after := before;
    var i := 0;
    while i < |c.stages|
      invariant 0 <= i <= |c.stages| && after == before + Mismatches(c, r, i)
    {
      RecordForAt(r.records, i);
      var record := RecordFor(r.records, c.stages[i].stageId);
      if record.None? || record.value.status != StageComplete {
        after := after + 1;
      } else if record.value.selection.value.detection != c.stages[i].expected {
        after := after + 1;
      }
      i := i + 1;
    }
  }

  method AddOutcome(c: Case, r: CaseResult, before: Confusion) returns (after: Confusion)
    requires ResultOk(c, r) && r.complete
    ensures after.tp == before.tp + (if Decided(c, r, Positive, Detect) then 1 else 0)
    ensures after.fn == before.fn + (if Decided(c, r, Positive, Allow) then 1 else 0)
    ensures after.fp == before.fp + (if Decided(c, r, Negative, Detect) then 1 else 0)
    ensures after.tn == before.tn + (if Decided(c, r, Negative, Allow) then 1 else 0)
    ensures after.matched == before.matched + (if Decided(c, r, IndeterminateLabel, Indeterminate) then 1 else 0)
    ensures after.mismatched - before.mismatched
            == (if Decided(c, r, Positive, Indeterminate) then 1 else 0) + (if Decided(c, r, Negative, Indeterminate) then 1 else 0)
               + (if Decided(c, r, IndeterminateLabel, Detect) then 1 else 0)
               + (if Decided(c, r, IndeterminateLabel, Allow) then 1 else 0)
    ensures after.expectedIndeterminate == before.expectedIndeterminate + (if c.expected == IndeterminateLabel then 1 else 0)
  {
    after := before;
    var last := |c.stages| - 1;
    RecordForAt(r.records, last);
    var scored := RecordFor(r.records, c.stages[last].stageId);
    if scored.None? || scored.value.status != StageComplete { return; }
    var actual := scored.value.selection.value.detection;
    if c.expected == IndeterminateLabel {
      after := after.(expectedIndeterminate := after.expectedIndeterminate + 1);
    }
    if actual == Indeterminate {
      if c.expected == IndeterminateLabel {
        after := after.(matched := after.matched + 1);
      } else {
        after := after.(mismatched := after.mismatched + 1);
      }
    } else if c.expected == Positive {
      if actual == Detect { after := after.(tp := after.tp + 1); } else { after := after.(fn := after.fn + 1); }
    } else if c.expected == Negative {
      if actual == Allow { after := after.(tn := after.tn + 1); } else { after := after.(fp := after.fp + 1); }
    } else {
      after := after.(mismatched := after.mismatched + 1);
    }
  }

  method CasesById(cases: seq<Case>) returns (byId: map<Id, Case>)
    requires forall i, j :: 0 <= i < j < |cases| ==> cases[i].caseId != cases[j].caseId
    ensures forall j :: 0 <= j < |cases| ==> cases[j].caseId in byId && byId[cases[j].caseId] == cases[j]
  {
    byId := map[];
    var i := 0;
    while i < |cases|
      invariant 0 <= i <= |cases|
      invariant forall j :: 0 <= j < i ==> cases[j].caseId in byId && byId[cases[j].caseId] == cases[j]
    {
      byId := byId[cases[i].caseId := cases[i]];
      i := i + 1;
    }
  }

  lemma OneMoreResult(cases: seq<Case>, results: seq<CaseResult>, j: nat)
    requires j < |results| <= |cases|
    ensures CompleteCount(results[..j + 1]) == CompleteCount(results[..j]) + if results[j].complete then 1 else 0
    ensures UsedTotal(results[..j + 1]) == UsedTotal(results[..j]) + UsedBy(results[j].records)
    ensures PromptTotal(results[..j + 1]) == PromptTotal(results[..j]) + PromptBy(results[j].records)
    ensures CompletionTotal(results[..j + 1]) == CompletionTotal(results[..j]) + CompletionBy(results[j].records)
    ensures Held(cases, results[..j + 1]) == Held(cases, results[..j]) + if results[j].complete then 0 else Reservation(cases[j])
    ensures forall e, a :: CountOf(cases, results[..j + 1], e, a)
                           == CountOf(cases, results[..j], e, a) + if Decided(cases[j], results[j], e, a) then 1 else 0
  {
    hide Decided, UsedBy, PromptBy, CompletionBy, Reservation;
    assert results[..j + 1][..j] == results[..j];
  }

  lemma OneMoreMismatch(cases: seq<Case>, results: seq<CaseResult>, j: nat)
    requires j < |results| <= |cases|
    ensures MismatchTotal(cases, results[..j + 1])
            == MismatchTotal(cases, results[..j])
               + if results[j].complete then Mismatches(cases[j], results[j], |cases[j].stages|) else 0
  {
    hide Mismatches;
    assert results[..j + 1][..j] == results[..j];
  }

  lemma UndecidedUnlessComplete(c: Case, r: CaseResult)
    ensures !r.complete ==> forall e, a :: !Decided(c, r, e, a)
  {
  }

  lemma ExpectedCounts(c: Case, r: CaseResult)
    requires ResultOk(c, r) && r.complete
    ensures c.expected == IndeterminateLabel <==>
              Decided(c, r, IndeterminateLabel, Detect) || Decided(c, r, IndeterminateLabel, Allow)
              || Decided(c, r, IndeterminateLabel, Indeterminate)
    ensures !(Decided(c, r, IndeterminateLabel, Detect) && Decided(c, r, IndeterminateLabel, Allow))
    ensures !(Decided(c, r, IndeterminateLabel, Detect) && Decided(c, r, IndeterminateLabel, Indeterminate))
    ensures !(Decided(c, r, IndeterminateLabel, Allow) && Decided(c, r, IndeterminateLabel, Indeterminate))
  {
  }

  ghost predicate CountedTo(cases: seq<Case>, results: seq<CaseResult>, j: nat, q: Confusion)
    requires j <= |results| <= |cases|
  {
    ConfusionOk(cases, results[..j], q)
  }

  lemma ConfusionNext(cases: seq<Case>, results: seq<CaseResult>, j: nat, q: Confusion, w: Confusion)
    requires j < |results| <= |cases| && CountedTo(cases, results, j, q) && ResultOk(cases[j], results[j])
    requires if !results[j].complete then w == q else
               var c, r := cases[j], results[j];
               && w.tp == q.tp + (if Decided(c, r, Positive, Detect) then 1 else 0)
               && w.fn == q.fn + (if Decided(c, r, Positive, Allow) then 1 else 0)
               && w.fp == q.fp + (if Decided(c, r, Negative, Detect) then 1 else 0)
               && w.tn == q.tn + (if Decided(c, r, Negative, Allow) then 1 else 0)
               && w.matched == q.matched + (if Decided(c, r, IndeterminateLabel, Indeterminate) then 1 else 0)
               && w.mismatched - q.mismatched
                  == (if Decided(c, r, Positive, Indeterminate) then 1 else 0)
                     + (if Decided(c, r, Negative, Indeterminate) then 1 else 0)
                     + (if Decided(c, r, IndeterminateLabel, Detect) then 1 else 0)
                     + (if Decided(c, r, IndeterminateLabel, Allow) then 1 else 0)
               && w.expectedIndeterminate == q.expectedIndeterminate + (if c.expected == IndeterminateLabel then 1 else 0)
    ensures CountedTo(cases, results, j + 1, w)
  {
    OneMoreResult(cases, results, j);
    UndecidedUnlessComplete(cases[j], results[j]);
    if results[j].complete { ExpectedCounts(cases[j], results[j]); }
    hide Decided, CountOf, ResultOk;
  }

  /** Every field of a summary, by what it counts. */
  ghost predicate SummaryOk(cases: seq<Case>, results: seq<CaseResult>, s: Summary)
    requires |results| <= |cases|
  {
    && ConfusionOk(cases, results, s.counts)
    && s.complete == CompleteCount(results)
    && s.usage == Totals(PromptTotal(results), CompletionTotal(results), UsedTotal(results))
    && s.usage.prompt + s.usage.completion == s.usage.total
    && (s.usageKnown <==> forall j :: 0 <= j < |results| ==> results[j].complete)
    && s.reservedRemaining == Held(cases, results)
    && s.mismatchedStages == MismatchTotal(cases, results)
    && (s.finished <==> s.complete == |cases|)
    && (s.agreement <==> s.complete == |cases| && s.mismatchedStages == 0)
  }

  method Summarise(cases: seq<Case>, results: seq<CaseResult>) returns (s: Summary)
    requires Aligned(cases, results)
    ensures SummaryOk(cases, results, s)
  {
    hide Decided, CountOf, CountedTo, ConfusionOk, CompleteCount, Held, MismatchTotal, Mismatches, ResultOk;
    hide UsedTotal, PromptTotal, CompletionTotal, UsedBy, PromptBy, CompletionBy;
    var byId := CasesById(cases);
    var counts := Confusion(0, 0, 0, 0, 0, 0, 0);
    var usage, known, complete, mismatched, held := Totals(0, 0, 0), true, 0, 0, 0;
    NothingCounted(cases, results);
    var j := 0;
    while j < |results|
      invariant 0 <= j <= |results|
      invariant CountedTo(cases, results, j, counts)
      invariant complete == CompleteCount(results[..j])
      invariant usage == Totals(PromptTotal(results[..j]), CompletionTotal(results[..j]), UsedTotal(results[..j]))
      invariant usage.prompt + usage.completion == usage.total
      invariant known <==> forall i :: 0 <= i < j ==> results[i].complete
      invariant held == Held(cases, results[..j])
      invariant mismatched == MismatchTotal(cases, results[..j])
    {
      var r := results[j];
      assert ResultOk(cases[j], r);
      SameCase(cases[j], r);
      var c := byId[r.caseId];
      OneMoreResult(cases, results, j);
      OneMoreMismatch(cases, results, j);
      ghost var q := counts;
      var allKnown: bool;
      usage, allKnown := AddUsage(c, r, usage);
      if !allKnown { known := false; }
      if !r.complete {
        known := false;
        held := held + Reservation(c);
      } else {
        CompleteKnown(c, r);
        complete := complete + 1;
        mismatched := AddMismatches(c, r, mismatched);
        counts := AddOutcome(c, r, counts);
      }
      ConfusionNext(cases, results, j, q, counts);
      j := j + 1;
    }
    assert results[..j] == results;
    assert ConfusionOk(cases, results, counts) by { CountedAll(cases, results, counts); }
    s := Summary(counts, usage, known, complete, mismatched, held, complete == |cases|, complete == |cases| && mismatched == 0);
  }

  lemma CountedAll(cases: seq<Case>, results: seq<CaseResult>, q: Confusion)
    requires |results| <= |cases| && CountedTo(cases, results, |results|, q)
    ensures ConfusionOk(cases, results, q)
  {
    assert results[..|results|] == results;
  }

  lemma NothingCounted(cases: seq<Case>, results: seq<CaseResult>)
    requires |results| <= |cases|
    ensures CountedTo(cases, results, 0, Confusion(0, 0, 0, 0, 0, 0, 0))
    ensures CompleteCount(results[..0]) == 0 && UsedTotal(results[..0]) == 0 && Held(cases, results[..0]) == 0
    ensures PromptTotal(results[..0]) == CompletionTotal(results[..0]) == 0
    ensures MismatchTotal(cases, results[..0]) == 0
  {
  }

  lemma SameCase(c: Case, r: CaseResult)
    requires ResultOk(c, r)
    ensures r.caseId == c.caseId && |r.records| <= |c.stages|
  {
  }

  lemma CompleteKnown(c: Case, r: CaseResult)
    requires ResultOk(c, r) && r.complete
    ensures AllKnown(r.records) && |r.records| == |c.stages|
  {
  }

  // ---------- what the counts mean ----------

  lemma DecidedOnce(c: Case, r: CaseResult)
    requires ResultOk(c, r)
    ensures (if r.complete then 1 else 0)
            == (if Decided(c, r, Positive, Detect) then 1 else 0) + (if Decided(c, r, Positive, Allow) then 1 else 0)
               + (if Decided(c, r, Negative, Detect) then 1 else 0) + (if Decided(c, r, Negative, Allow) then 1 else 0)
               + (if Decided(c, r, IndeterminateLabel, Indeterminate) then 1 else 0)
               + (if Decided(c, r, Positive, Indeterminate) then 1 else 0)
               + (if Decided(c, r, Negative, Indeterminate) then 1 else 0)
               + (if Decided(c, r, IndeterminateLabel, Detect) then 1 else 0)
               + (if Decided(c, r, IndeterminateLabel, Allow) then 1 else 0)
  {
  }

  /** Every complete case is counted in exactly one of the six outcomes. */
  lemma {:induction false} OutcomesCover(cases: seq<Case>, results: seq<CaseResult>, q: Confusion)
    requires Aligned(cases, results) && ConfusionOk(cases, results, q)
    ensures q.tp + q.fn + q.fp + q.tn + q.matched + q.mismatched == CompleteCount(results)
    decreases |results|
  {
    if results != [] {
      var n := |results| - 1;
      var rest := results[..n];
      var w := Confusion(
        CountOf(cases, rest, Positive, Detect), CountOf(cases, rest, Positive, Allow),
        CountOf(cases, rest, Negative, Detect), CountOf(cases, rest, Negative, Allow),
        CountOf(cases, rest, IndeterminateLabel, Indeterminate) + CountOf(cases, rest, IndeterminateLabel, Detect)
        + CountOf(cases, rest, IndeterminateLabel, Allow),
        CountOf(cases, rest, IndeterminateLabel, Indeterminate),
        CountOf(cases, rest, Positive, Indeterminate) + CountOf(cases, rest, Negative, Indeterminate)
        + CountOf(cases, rest, IndeterminateLabel, Detect) + CountOf(cases, rest, IndeterminateLabel, Allow));
      OutcomesCover(cases, rest, w);
      DecidedOnce(cases[n], results[n]);
      OneMoreResult(cases, results, n);
      assert results[..n + 1] == results;
      hide Decided, CountOf, CompleteCount, ResultOk;
    }
  }

  /** The values of the leading filled-in results. */
  function Values(results: seq<Option<CaseResult>>, n: nat): (r: seq<CaseResult>)
    requires n <= |results| && forall i :: 0 <= i < n ==> results[i].Some?
    ensures |r| == n && forall i :: 0 <= i < n ==> r[i] == results[i].value
  {
    seq(n, i requires 0 <= i < n => results[i].value)
  }

  lemma BelowNext(n: nat)
    requires n > 0
    ensures Below(n) == Below(n - 1) + {n - 1} && n - 1 !in Below(n - 1)
  {
  }

  lemma ClaimsNext(cases: seq<Case>, all: seq<Option<CaseResult>>, n: nat)
    requires 0 < n <= |all| == |cases| && forall i :: 0 <= i < n ==> all[i].Some?
    ensures CompleteUsed(Values(all, n)) + Held(cases, Values(all, n))
            == CompleteUsed(Values(all, n - 1)) + Held(cases, Values(all, n - 1)) + Claims(cases, all)(n - 1)
  {
    hide UsedBy, Reservation;
    assert Values(all, n)[..n - 1] == Values(all, n - 1);
  }

  lemma {:induction false} ClaimsAre(cases: seq<Case>, all: seq<Option<CaseResult>>, n: nat)
    requires n <= |all| == |cases| && forall i :: 0 <= i < n ==> all[i].Some?
    ensures SumSet(Below(n), Claims(cases, all)) == CompleteUsed(Values(all, n)) + Held(cases, Values(all, n))
    decreases n
  {
    if n == 0 {
      SumZero(Below(0), Claims(cases, all));
    } else {
      hide *;
      ClaimsAre(cases, all, n - 1);
      ClaimsNext(cases, all, n);
      BelowNext(n);
      SumAdd(Below(n - 1), Claims(cases, all), n - 1);
    }
  }

  lemma UsedNext(all: seq<Option<CaseResult>>, n: nat)
    requires 0 < n <= |all| && forall i :: 0 <= i < n ==> all[i].Some?
    ensures UsedTotal(Values(all, n)) == UsedTotal(Values(all, n - 1)) + Used(all)(n - 1)
  {
    hide UsedBy;
    assert Values(all, n)[..n - 1] == Values(all, n - 1);
  }

  lemma {:induction false} UsedAre(all: seq<Option<CaseResult>>, n: nat)
    requires n <= |all| && forall i :: 0 <= i < n ==> all[i].Some?
    ensures SumSet(Below(n), Used(all)) == UsedTotal(Values(all, n))
    decreases n
  {
    if n == 0 {
      SumZero(Below(0), Used(all));
    } else {
      hide *;
      UsedAre(all, n - 1);
      UsedNext(all, n);
      BelowNext(n);
      SumAdd(Below(n - 1), Used(all), n - 1);
    }
  }

  function Calls(cases: seq<Case>): nat
    decreases |cases|
  {
    if cases == [] then 0 else Calls(cases[..|cases| - 1]) + |cases[|cases| - 1].stages|
  }

  method CountCalls(cases: seq<Case>) returns (calls: nat)
    ensures calls == Calls(cases)
  {
    calls := 0;
    var i := 0;
    while i < |cases|
      invariant 0 <= i <= |cases| && calls == Calls(cases[..i])
    {
      assert cases[..i + 1][..i] == cases[..i];
      calls := calls + |cases[i].stages|;
      i := i + 1;
    }
    assert cases[..i] == cases;
  }

  datatype Report =
    | CaseLimit
    | PreflightLimit
    | Ran(summary: Summary, results: seq<CaseResult>, stop: Option<StopReason>)

  /** Supervises a run and summarises it. Whatever the schedule: the tokens the
      summary reports, incomplete cases included, fit the budget; so do the tokens
      of the complete cases together with everything still held in reserve; and
      every complete case has one outcome. */
  method RunVerification(cases: seq<Case>, children: seq<Child>, late: nat -> bool, raises: int -> bool)
    returns (report: Report, ghost run: seq<State>, expired: bool, ghost raised: bool)
    requires |children| == |cases|
    requires forall i, j :: 0 <= i < j < |cases| ==> cases[i].caseId != cases[j].caseId
    ensures (NeverLate(late) ==> !expired) && (NoneRaises(raises) ==> !raised)
    ensures report.CaseLimit? <==> |cases| > MAX_CASES
    ensures report.PreflightLimit? <==> |cases| <= MAX_CASES && Calls(cases) > MAX_CALLS
    ensures !report.Ran? ==> run == [InitialState(cases)]
    ensures report.Ran? ==>
              var summary, results := report.summary, report.results;
              && IsRun(cases, run) && Aligned(cases, results)
              && (forall i :: 0 <= i < |results| ==>
                    FromChild(cases[i], children[i], results[i])
                    && ResultFrom(cases[i], children[i], results[i], raised, expired))
              && SummaryOk(cases, results, summary) && summary.usage.total <= MAX_TOKENS
              && CompleteUsed(results) + summary.reservedRemaining <= MAX_TOKENS
              && summary.counts.tp + summary.counts.fn + summary.counts.fp + summary.counts.tn
                 + summary.counts.matched + summary.counts.mismatched == summary.complete
              && (report.stop.None? ==> |results| == |cases| && summary.reservedRemaining == 0 && summary.finished)
              && (!expired && !raised && AllFit(cases)
                  && (forall i :: 0 <= i < |cases| ==> Settles(KeptOf(cases[i], children[i]))) ==>
                    report.stop.None? && summary.finished)
  {
    hide IsRun, SumSet, Claims, Used, UsedTotal, Submitted, ConfusionOk, CompleteUsed, Held, CompleteCount, Settles;
    hide DocumentOk, InitialState, KeptOf, AllFit, ResultFrom;
    run, expired, raised := [InitialState(cases)], false, false;
    if |cases| > MAX_CASES { return CaseLimit, run, expired, raised; }
    var calls := CountCalls(cases);
    if calls > MAX_CALLS { return PreflightLimit, run, expired, raised; }
    var all, submitted, stop;
    all, submitted, stop, run, expired, raised := Supervise(cases, children, late, raises);
    var results := Values(all, submitted);
    assert Aligned(cases, results);
    var summary := Summarise(cases, results);
    SubmittedBelow(all, submitted);
    ClaimsAre(cases, all, submitted);
    UsedAre(all, submitted);
    OutcomesCover(cases, results, summary.counts);
    if stop.None? {
      forall i | 0 <= i < |results| ensures results[i].complete { SettledComplete(results[i]); }
      AllComplete(cases, results);
    }
    report := Ran(summary, results, stop);
  }

  lemma SubmittedBelow(all: seq<Option<CaseResult>>, n: nat)
    requires n <= |all| && forall i :: 0 <= i < |all| ==> (all[i].Some? <==> i < n)
    ensures Submitted(all) == Below(n)
  {
  }

  lemma SettledComplete(r: CaseResult)
    requires Settles(r)
    ensures r.complete
  {
  }

  lemma {:induction false} AllComplete(cases: seq<Case>, results: seq<CaseResult>)
    requires |results| <= |cases| && forall i :: 0 <= i < |results| ==> results[i].complete
    ensures CompleteCount(results) == |results| && Held(cases, results) == 0
    decreases |results|
  {
    if results != [] { AllComplete(cases, results[..|results| - 1]); }
  }
}
