/** The budgeted scheduler: up to four cases at a time, a token reservation for
    each of them, and no more submissions once anything is uncertain
    (tools/verify_synthetic_llm.py). */
module Scheduler {
  import opened Common
  import opened ChildOutput
  import opened Sums

  const MAX_TOKENS := 10000000
  const MAX_WORKERS := 4
  const MAX_CASES := 10000
  const MAX_CALLS := 20000

  datatype StopReason = RunTimeout | PreflightBudget | Uncertain(reason: Option<Reason>)

  /** The supervisor's variables between two of its steps. */
  datatype State = State(
    active: map<int, nat>,                 // index of a running case -> its reservation
    activeReserved: int,
    settled: int,
    results: seq<Option<CaseResult>>,
    next: nat,
    stop: Option<StopReason>)

  function Reservation(c: Case): nat { RESERVED_TOKENS_PER_STAGE * |c.stages| }

  function InitialState(cases: seq<Case>): State {
    State(map[], 0, 0, seq(|cases|, i => None), 0, None)
  }

  const NO_CASES: set<int> := {}

  // ---------- usage ----------

  function TokensOf(r: StageRecord): nat { if r.usage.Some? && r.usage.value.total > 0 then r.usage.value.total else 0 }

  function UsedBy(records: seq<StageRecord>): nat
    decreases |records|
  {
    if records == [] then 0 else UsedBy(records[..|records| - 1]) + TokensOf(records[|records| - 1])
  }

  predicate AllKnown(records: seq<StageRecord>) { forall i :: 0 <= i < |records| ==> records[i].usage.Some? }

  /** The tokens a finished case is known to have used. */
  method UsageFor(c: Case, r: CaseResult) returns (used: Option<nat>)
    requires ResultOk(c, r)
    ensures used == if r.complete then Some(UsedBy(r.records)) else None
  {
    if !r.complete { return None; }
    var total := 0;
    var i := 0;
    while i < |r.records|
      invariant 0 <= i <= |r.records| && total == UsedBy(r.records[..i])
    {
      assert r.records[..i + 1][..i] == r.records[..i];
      assert UsageOk(r.records[i].usage.value);
      total := total + r.records[i].usage.value.total;
      i := i + 1;
    }
    assert r.records[..i] == r.records;
    return Some(total);
  }

  lemma {:induction false} UsedBounded(c: Case, records: seq<StageRecord>)
    requires forall i :: 0 <= i < |records| && records[i].usage.Some? ==> UsageOk(records[i].usage.value)
    ensures UsedBy(records) <= RESERVED_TOKENS_PER_STAGE * |records|
    decreases |records|
  {
    if records != [] { UsedBounded(c, records[..|records| - 1]); }
  }

  /** No case can use more than was reserved for it, complete or not. */
  lemma WithinReservation(c: Case, r: CaseResult)
    requires ResultOk(c, r)
    ensures UsedBy(r.records) <= Reservation(c)
  {
    hide UsedBy, UsageOk;
    UsedBounded(c, r.records);
  }

  // ---------- the steps ----------

  /** A result whose tokens are settled; anything else keeps its reservation. */
  predicate Settles(r: CaseResult) { r.complete && !r.remoteStopUnknown && r.status == CaseComplete }

  function StopFor(r: CaseResult): StopReason { Uncertain(r.reason) }

  ghost predicate Submits(cases: seq<Case>, s: State, t: State) {
    && s.next < |cases| && s.stop.None? && |s.active| < MAX_WORKERS
    && s.settled + s.activeReserved + Reservation(cases[s.next]) <= MAX_TOKENS
    && t == s.(active := s.active[s.next := Reservation(cases[s.next])],
               activeReserved := s.activeReserved + Reservation(cases[s.next]),
               next := s.next + 1)
  }

  ghost predicate Refuses(cases: seq<Case>, s: State, t: State) {
    && s.next < |cases| && s.stop.None?
    && (t == s.(stop := Some(RunTimeout))
        || (t == s.(stop := Some(PreflightBudget))
            && s.settled + s.activeReserved + Reservation(cases[s.next]) > MAX_TOKENS))
  }

  function Finished(s: State, i: nat, r: CaseResult): State
    requires i in s.active && i < |s.results|
  {
    s.(active := s.active - {i},
       activeReserved := s.activeReserved - s.active[i],
       settled := if Settles(r) then s.settled + UsedBy(r.records) else s.settled,
       results := s.results[i := Some(r)],
       stop := if Settles(r) then s.stop else Some(StopFor(r)))
  }

  ghost predicate Finishes(cases: seq<Case>, s: State, t: State) {
    exists i, r :: i in s.active && 0 <= i < |s.results| == |cases| && ResultOk(cases[i], r) && t == Finished(s, i, r)
  }

  /** Nothing finished in time: every running case is written off at once. */
  function GivenUp(cases: seq<Case>, s: State, stillRunning: set<int>): State
    requires |s.results| == |cases|
  {
    s.(active := map[], stop := Some(RunTimeout),
       results := seq(|cases|, i requires 0 <= i < |cases| =>
         if i in s.active then Some(LostResult(cases[i], i in stillRunning)) else s.results[i]))
  }

  function LostResult(c: Case, running: bool): CaseResult {
    ExpectedRecord(c).(status := CaseTimeout, reason := Some(RUN_TIMEOUT), remoteStopUnknown := running)
  }

  ghost predicate GivesUp(cases: seq<Case>, s: State, t: State) {
    |s.results| == |cases| && s.active != map[] && exists stillRunning :: t == GivenUp(cases, s, stillRunning)
  }

  ghost predicate Step(cases: seq<Case>, s: State, t: State) {
    Submits(cases, s, t) || Refuses(cases, s, t) || Finishes(cases, s, t) || GivesUp(cases, s, t)
  }

  // ---------- the budget ----------

  ghost function Reserve(cases: seq<Case>): int -> nat {
    (i: int) => if 0 <= i < |cases| then Reservation(cases[i]) else 0
  }

  /** The tokens each filled-in result reports. */
  ghost function Used(results: seq<Option<CaseResult>>): int -> nat {
    (i: int) => if 0 <= i < |results| && results[i].Some? then UsedBy(results[i].value.records) else 0
  }

  ghost function FinishedSet(s: State, settled: bool): set<int> {
    set i | 0 <= i < |s.results| && s.results[i].Some? && Settles(s.results[i].value) == settled
  }

  /** Settled tokens, and the reservations of everything that may still use some. */
  ghost function Exposure(cases: seq<Case>, s: State): int {
    s.settled + SumSet(s.active.Keys, Reserve(cases)) + SumSet(FinishedSet(s, false), Reserve(cases))
  }

  ghost predicate ShapeOk(cases: seq<Case>, s: State) {
    && |s.results| == |cases| && s.next <= |cases|
    && (forall i :: i in s.active ==> 0 <= i < s.next && s.active[i] == Reservation(cases[i]) && s.results[i].None?)
    && (forall i :: 0 <= i < s.next ==> i in s.active || s.results[i].Some?)
    && (forall i :: s.next <= i < |cases| ==> s.results[i].None?)
    && (forall i :: 0 <= i < |cases| && s.results[i].Some? ==> ResultOk(cases[i], s.results[i].value))
  }

  ghost predicate BudgetOk(cases: seq<Case>, s: State) {
    && |s.active| <= MAX_WORKERS
    && s.settled == SumSet(FinishedSet(s, true), Used(s.results))
    && Exposure(cases, s) <= MAX_TOKENS
    && (FinishedSet(s, false) != {} ==> s.stop.Some?)
    && s.activeReserved >= SumSet(s.active.Keys, Reserve(cases))
    && (s.stop.None? ==> s.activeReserved == SumSet(s.active.Keys, Reserve(cases)))
  }

  ghost predicate Inv(cases: seq<Case>, s: State) { ShapeOk(cases, s) && BudgetOk(cases, s) }

  lemma InitialOk(cases: seq<Case>)
    ensures Inv(cases, InitialState(cases))
  {
    var s := InitialState(cases);
    assert FinishedSet(s, true) == {} && FinishedSet(s, false) == {} && s.active.Keys == {};
    SumZero(NO_CASES, Used(s.results));
    SumZero(NO_CASES, Reserve(cases));
  }

  lemma SameResults(s: State, t: State)
    requires t.results == s.results
    ensures FinishedSet(t, true) == FinishedSet(s, true) && FinishedSet(t, false) == FinishedSet(s, false)
    ensures SumSet(FinishedSet(t, true), Used(t.results)) == SumSet(FinishedSet(s, true), Used(s.results))
  {
    hide SumSet, Settles, UsedBy;
    SumSame(FinishedSet(s, true), Used(s.results), Used(t.results));
  }

  lemma ActiveAdds(cases: seq<Case>, s: State)
    requires ShapeOk(cases, s) && s.next < |cases|
    ensures var active := s.active[s.next := Reservation(cases[s.next])];
            && |active| == |s.active| + 1
            && SumSet(active.Keys, Reserve(cases)) == SumSet(s.active.Keys, Reserve(cases)) + Reservation(cases[s.next])
  {
    hide SumSet, Reservation;
    var active := s.active[s.next := Reservation(cases[s.next])];
    assert s.next !in s.active;
    assert active.Keys == s.active.Keys + {s.next};
    SumAdd(s.active.Keys, Reserve(cases), s.next);
  }

  lemma ActiveDrops(cases: seq<Case>, s: State, i: int)
    requires ShapeOk(cases, s) && i in s.active
    ensures |s.active - {i}| <= |s.active|
    ensures SumSet((s.active - {i}).Keys, Reserve(cases)) == SumSet(s.active.Keys, Reserve(cases)) - s.active[i]
  {
    hide SumSet, Reservation;
    var active := s.active - {i};
    assert active.Keys == s.active.Keys - {i};
    SumRemove(s.active.Keys, Reserve(cases), i);
    assert |active.Keys| <= |s.active.Keys|;
  }

  lemma NoReservations(cases: seq<Case>)
    ensures SumSet(NO_CASES, Reserve(cases)) == 0
  {
    SumZero(NO_CASES, Reserve(cases));
  }

  lemma SubmitsBudget(cases: seq<Case>, s: State, t: State)
    requires Inv(cases, s) && Submits(cases, s, t)
    ensures BudgetOk(cases, t)
  {
    ActiveAdds(cases, s);
    hide ShapeOk, SumSet, FinishedSet, Used, Reserve, Reservation;
    SameResults(s, t);
    NoReservations(cases);
    assert FinishedSet(s, false) == NO_CASES;
  }

  lemma SubmitsShape(cases: seq<Case>, s: State, t: State)
    requires ShapeOk(cases, s) && Submits(cases, s, t)
    ensures ShapeOk(cases, t)
  {
    hide ResultOk, Reservation;
  }

  lemma SubmitsKeeps(cases: seq<Case>, s: State, t: State)
    requires Inv(cases, s) && Submits(cases, s, t)
    ensures Inv(cases, t)
  {
    hide ShapeOk, BudgetOk, Submits;
    SubmitsShape(cases, s, t);
    SubmitsBudget(cases, s, t);
  }

  lemma RefusesKeeps(cases: seq<Case>, s: State, t: State)
    requires Inv(cases, s) && Refuses(cases, s, t)
    ensures Inv(cases, t)
  {
    hide ResultOk, SumSet, Settles, UsedBy;
    assert FinishedSet(t, true) == FinishedSet(s, true) && FinishedSet(t, false) == FinishedSet(s, false);
    SumSame(FinishedSet(s, true), Used(s.results), Used(t.results));
  }

  lemma FinishedShape(cases: seq<Case>, s: State, i: nat, r: CaseResult)
    requires ShapeOk(cases, s) && i in s.active && i < |s.results| && ResultOk(cases[i], r)
    ensures ShapeOk(cases, Finished(s, i, r))
  {
    hide ResultOk, Settles, UsedBy;
  }

  lemma FinishedSettled(cases: seq<Case>, s: State, i: nat, r: CaseResult)
    requires ShapeOk(cases, s) && i in s.active && i < |s.results|
    ensures var t := Finished(s, i, r);
            SumSet(FinishedSet(t, true), Used(t.results))
            == SumSet(FinishedSet(s, true), Used(s.results)) + if Settles(r) then UsedBy(r.records) else 0
  {
    hide ResultOk, Settles, UsedBy, Reservation, SumSet;
    var t := Finished(s, i, r);
    SumSame(FinishedSet(s, true), Used(s.results), Used(t.results));
    if Settles(r) {
      assert FinishedSet(t, true) == FinishedSet(s, true) + {i};
      SumAdd(FinishedSet(s, true), Used(t.results), i);
    } else {
      assert FinishedSet(t, true) == FinishedSet(s, true);
    }
  }

  lemma FinishedOpen(cases: seq<Case>, s: State, i: nat, r: CaseResult)
    requires ShapeOk(cases, s) && i in s.active && i < |s.results|
    ensures var t := Finished(s, i, r);
            && SumSet(FinishedSet(t, false), Reserve(cases))
               == SumSet(FinishedSet(s, false), Reserve(cases)) + (if Settles(r) then 0 else s.active[i])
            && (Settles(r) ==> FinishedSet(t, false) == FinishedSet(s, false))
  {
    hide ResultOk, Settles, UsedBy, Reservation, SumSet;
    var t := Finished(s, i, r);
    if Settles(r) {
      assert FinishedSet(t, false) == FinishedSet(s, false);
    } else {
      assert FinishedSet(t, false) == FinishedSet(s, false) + {i};
      SumAdd(FinishedSet(s, false), Reserve(cases), i);
    }
  }

  lemma ActiveIs(cases: seq<Case>, s: State, i: int)
    requires ShapeOk(cases, s) && i in s.active
    ensures 0 <= i < |s.results| == |cases| && s.active[i] == Reservation(cases[i])
  {
    hide ResultOk, Reservation;
  }

  lemma FinishedBudget(cases: seq<Case>, s: State, i: nat, r: CaseResult)
    requires Inv(cases, s) && i in s.active && i < |s.results| && ResultOk(cases[i], r)
    ensures BudgetOk(cases, Finished(s, i, r))
  {
    hide ResultOk, SumSet, Settles, UsedBy, ShapeOk, FinishedSet, Used, Reserve, Reservation;
    ActiveIs(cases, s, i);
    WithinReservation(cases[i], r);
    FinishedSettled(cases, s, i, r);
    FinishedOpen(cases, s, i, r);
    ActiveDrops(cases, s, i);
  }

  lemma LostOk(c: Case, running: bool)
    ensures ResultOk(c, LostResult(c, running)) && !Settles(LostResult(c, running))
  {
  }

  lemma GivenUpShape(cases: seq<Case>, s: State, stillRunning: set<int>)
    requires ShapeOk(cases, s)
    ensures ShapeOk(cases, GivenUp(cases, s, stillRunning))
    ensures forall i :: i in s.active ==> !Settles(LostResult(cases[i], i in stillRunning))
  {
    hide ResultOk, Settles, LostResult, Reservation;
    forall i | i in s.active
      ensures ResultOk(cases[i], LostResult(cases[i], i in stillRunning)) && !Settles(LostResult(cases[i], i in stillRunning))
    {
      LostOk(cases[i], i in stillRunning);
    }
  }

  lemma GivenUpSums(cases: seq<Case>, s: State, stillRunning: set<int>)
    requires ShapeOk(cases, s)
    requires forall i :: i in s.active ==> !Settles(LostResult(cases[i], i in stillRunning))
    ensures var t := GivenUp(cases, s, stillRunning);
            && SumSet(FinishedSet(t, true), Used(t.results)) == SumSet(FinishedSet(s, true), Used(s.results))
            && SumSet(FinishedSet(t, false), Reserve(cases))
               == SumSet(FinishedSet(s, false), Reserve(cases)) + SumSet(s.active.Keys, Reserve(cases))
  {
    hide ResultOk, Settles, LostResult, Reservation, UsedBy, SumSet;
    var t := GivenUp(cases, s, stillRunning);
    assert FinishedSet(t, true) == FinishedSet(s, true);
    assert FinishedSet(t, false) == FinishedSet(s, false) + s.active.Keys;
    SumUnion(FinishedSet(s, false), s.active.Keys, Reserve(cases));
    SumSame(FinishedSet(s, true), Used(s.results), Used(t.results));
  }

  lemma GivenUpKeeps(cases: seq<Case>, s: State, stillRunning: set<int>)
    requires Inv(cases, s) && s.active != map[]
    ensures Inv(cases, GivenUp(cases, s, stillRunning))
  {
    GivenUpShape(cases, s, stillRunning);
    GivenUpSums(cases, s, stillRunning);
    hide ResultOk, SumSet, ShapeOk, FinishedSet, Used, Reserve, Settles, LostResult, Reservation;
    NoReservations(cases);
    var t := GivenUp(cases, s, stillRunning);
    assert t.active.Keys == NO_CASES && t.stop.Some? && t.settled == s.settled;
    hide GivenUp;
  }

  lemma StepKeeps(cases: seq<Case>, s: State, t: State)
    requires Inv(cases, s) && Step(cases, s, t)
    ensures Inv(cases, t)
  {
    hide Inv, Submits, Refuses, Finished, GivenUp, ResultOk;
    if Submits(cases, s, t) {
      SubmitsKeeps(cases, s, t);
    } else if Refuses(cases, s, t) {
      RefusesKeeps(cases, s, t);
    } else if Finishes(cases, s, t) {
      var i, r :| i in s.active && 0 <= i < |s.results| == |cases| && ResultOk(cases[i], r) && t == Finished(s, i, r);
      assert Inv(cases, t) by { FinishedKeeps(cases, s, i, r); }
    } else {
      var stillRunning :| t == GivenUp(cases, s, stillRunning);
      GivenUpKeeps(cases, s, stillRunning);
    }
  }

  lemma FinishedKeeps(cases: seq<Case>, s: State, i: nat, r: CaseResult)
    requires Inv(cases, s) && i in s.active && i < |s.results| && ResultOk(cases[i], r)
    ensures Inv(cases, Finished(s, i, r))
  {
    hide ShapeOk, BudgetOk, Finished, ResultOk;
    FinishedShape(cases, s, i, r);
    FinishedBudget(cases, s, i, r);
  }

  // ---------- whole runs ----------

  ghost predicate IsRun(cases: seq<Case>, run: seq<State>) {
    && run != [] && run[0] == InitialState(cases)
    && forall k :: 0 < k < |run| ==> Step(cases, run[k - 1], run[k])
  }

  /** However the cases finish, at no moment do the settled tokens, the running
      reservations and the reservations of uncertain cases exceed the budget,
      and at no moment do more than four cases run. */
  lemma {:induction false} RunKeepsBudget(cases: seq<Case>, run: seq<State>, k: nat)
    requires IsRun(cases, run) && k < |run|
    ensures Inv(cases, run[k])
    ensures Exposure(cases, run[k]) <= MAX_TOKENS && |run[k].active| <= MAX_WORKERS
    decreases k
  {
    hide Step, Exposure, ShapeOk, InitialState;
    if k == 0 {
      InitialOk(cases);
    } else {
      RunKeepsBudget(cases, run, k - 1);
      assert Inv(cases, run[k]) by { StepKeeps(cases, run[k - 1], run[k]); }
    }
  }

  lemma {:induction false} NextGrows(cases: seq<Case>, run: seq<State>, j: nat, k: nat)
    requires IsRun(cases, run) && j <= k < |run|
    ensures run[j].next <= run[k].next
    decreases k
  {
    if j < k {
      NextGrows(cases, run, j, k - 1);
      assert Step(cases, run[k - 1], run[k]);
    }
  }

  /** No case is submitted twice. */
  lemma SubmittedOnce(cases: seq<Case>, run: seq<State>, j: nat, k: nat)
    requires IsRun(cases, run) && j < k && k + 1 < |run|
    requires Submits(cases, run[j], run[j + 1]) && Submits(cases, run[k], run[k + 1])
    ensures run[j].next != run[k].next
  {
    hide Step, InitialState;
    NextGrows(cases, run, j + 1, k);
  }

  /** A result once filled in is never replaced. */
  lemma {:induction false} ResultsStay(cases: seq<Case>, run: seq<State>, j: nat, k: nat, i: nat)
    requires IsRun(cases, run) && j <= k < |run| && i < |cases|
    requires |run[j].results| == |cases| && run[j].results[i].Some?
    ensures |run[k].results| == |cases| && run[k].results[i] == run[j].results[i]
    decreases k
  {
    hide InitialState, ResultOk, Submits, Refuses, BudgetOk, LostResult;
    if j < k {
      ResultsStay(cases, run, j, k - 1, i);
      RunKeepsBudget(cases, run, k - 1);
      assert Step(cases, run[k - 1], run[k]);
      StepResults(cases, run[k - 1], run[k], i);
    }
  }

  lemma StepResults(cases: seq<Case>, s: State, t: State, i: nat)
    requires ShapeOk(cases, s) && Step(cases, s, t) && i < |cases| && s.results[i].Some?
    ensures |t.results| == |cases| && t.results[i] == s.results[i]
  {
    hide ResultOk, LostResult, Settles, UsedBy;
  }

  // ---------- the loop ----------

  /** What the results of a finished run claim of the budget: the tokens of the
      complete cases, and for every other submitted case its reservation. */
  ghost function Claims(cases: seq<Case>, results: seq<Option<CaseResult>>): int -> nat {
    (i: int) => if 0 <= i < |results| && i < |cases| && results[i].Some?
         then if results[i].value.complete then UsedBy(results[i].value.records) else Reservation(cases[i])
         else 0
  }

  ghost function Submitted(results: seq<Option<CaseResult>>): set<int> { set i | 0 <= i < |results| && results[i].Some? }

  lemma FinalSets(cases: seq<Case>, s: State)
    requires ShapeOk(cases, s)
    ensures var settled, open := FinishedSet(s, true), FinishedSet(s, false);
            && Submitted(s.results) == settled + open && settled !! open
            && (forall i :: i in settled ==> Used(s.results)(i) == Claims(cases, s.results)(i))
            && (forall i :: i in open ==> Claims(cases, s.results)(i) <= Reserve(cases)(i) && Used(s.results)(i) <= Reserve(cases)(i))
  {
    hide ResultOk, UsedBy, Reservation;
    forall i | i in FinishedSet(s, false) ensures Used(s.results)(i) <= Reserve(cases)(i) {
      WithinReservation(cases[i], s.results[i].value);
    }
  }

  /** In the end both what the results claim and what they report fits. */
  lemma FinalClaims(cases: seq<Case>, s: State)
    requires Inv(cases, s) && s.active == map[]
    ensures SumSet(Submitted(s.results), Claims(cases, s.results)) <= MAX_TOKENS
    ensures SumSet(Submitted(s.results), Used(s.results)) <= MAX_TOKENS
  {
    FinalSets(cases, s);
    hide SumSet, ShapeOk, FinishedSet, Used, Reserve, Claims, Submitted;
    var settled, open := FinishedSet(s, true), FinishedSet(s, false);
    SumUnion(settled, open, Claims(cases, s.results));
    SumUnion(settled, open, Used(s.results));
    SumSame(settled, Used(s.results), Claims(cases, s.results));
    SumLe(open, Claims(cases, s.results), Reserve(cases));
    SumLe(open, Used(s.results), Reserve(cases));
    assert s.active.Keys == {};
    SumZero(NO_CASES, Reserve(cases));
  }

  // ---------- what the loop needs of one state ----------

  lemma FirstState(cases: seq<Case>) returns (run: seq<State>)
    ensures run == [InitialState(cases)] && IsRun(cases, run) && Inv(cases, run[0])
  {
    hide Inv;
    run := [InitialState(cases)];
    InitialOk(cases);
  }

  lemma Append(cases: seq<Case>, run: seq<State>, t: State) returns (more: seq<State>)
    requires IsRun(cases, run) && Inv(cases, run[|run| - 1]) && Step(cases, run[|run| - 1], t)
    ensures more == run + [t] && IsRun(cases, more) && Inv(cases, t)
  {
    hide Step, InitialState, Inv;
    StepKeeps(cases, run[|run| - 1], t);
    more := run + [t];
  }

  lemma NotNegative(cases: seq<Case>, s: State)
    requires Inv(cases, s)
    ensures s.settled >= 0 && s.activeReserved >= 0
  {
  }

  lemma ExpectedOk(c: Case, child: Child)
    ensures FromChild(c, child, ExpectedRecord(c))
  {
    hide DocumentOk;
  }

  lemma RefuseStep(cases: seq<Case>, s: State, stop: StopReason)
    requires s.next < |cases| && s.stop.None?
    requires stop == RunTimeout
             || (stop == PreflightBudget && s.settled + s.activeReserved + Reservation(cases[s.next]) > MAX_TOKENS)
    ensures Step(cases, s, s.(stop := Some(stop)))
  {
    hide Submits, Finishes, GivesUp;
  }

  lemma WriteOffStep(cases: seq<Case>, s: State, stillRunning: set<int>, after: seq<Option<CaseResult>>)
    requires |s.results| == |cases| == |after| && s.active != map[]
    requires forall i :: 0 <= i < |cases| ==>
               after[i] == if i in s.active then Some(LostResult(cases[i], i in stillRunning)) else s.results[i]
    ensures Step(cases, s, s.(active := map[], stop := Some(RunTimeout), results := after))
  {
    hide Submits, Finishes, Refuses, LostResult;
    var t := GivenUp(cases, s, stillRunning);
    assert t.results == after;
  }

  lemma FinishedIs(s: State, i: nat, c: Case, r: CaseResult, used: Option<nat>)
    requires i in s.active && i < |s.results| && ResultOk(c, r)
    requires used == if r.complete then Some(UsedBy(r.records)) else None
    ensures var open := used.None? || r.remoteStopUnknown || r.status != CaseComplete;
            Finished(s, i, r) == State(s.active - {i}, s.activeReserved - s.active[i],
                                       if open then s.settled else s.settled + used.value,
                                       s.results[i := Some(r)], s.next,
                                       if open then Some(StopFor(r)) else s.stop)
  {
    hide UsedBy;
  }

  lemma InvKnows(cases: seq<Case>, s: State)
    requires Inv(cases, s)
    ensures |s.results| == |cases| && s.next <= |cases|
    ensures forall i :: i in s.active ==> 0 <= i < |cases| && s.active[i] == Reservation(cases[i])
    ensures s.active == map[] ==>
              forall i :: 0 <= i < |cases| ==> (s.results[i].Some? <==> i < s.next)
    ensures forall i :: 0 <= i < |cases| && s.results[i].Some? ==> ResultOk(cases[i], s.results[i].value)
    ensures s.stop.None? ==> forall i :: 0 <= i < |cases| && s.results[i].Some? ==> Settles(s.results[i].value)
  {
    hide ResultOk, Settles, SumSet, Reservation, Exposure;
    assert forall i :: 0 <= i < |s.results| && s.results[i].Some? && !Settles(s.results[i].value) ==> i in FinishedSet(s, false);
  }

  lemma SubmitStep(cases: seq<Case>, s: State, reservation: nat)
    requires Inv(cases, s) && s.next < |cases| && s.stop.None? && |s.active| < MAX_WORKERS
    requires reservation == Reservation(cases[s.next]) && s.settled + s.activeReserved + reservation <= MAX_TOKENS
    ensures var t := s.(active := s.active[s.next := reservation], activeReserved := s.activeReserved + reservation,
                        next := s.next + 1);
            Step(cases, s, t) && |t.active| == |s.active| + 1
  {
    hide Reserve, SumSet, Reservation;
    ActiveAdds(cases, s);
  }

  lemma FinishStep(cases: seq<Case>, s: State, i: int, r: CaseResult)
    requires Inv(cases, s) && i in s.active && 0 <= i < |s.results| == |cases| && ResultOk(cases[i], r)
    ensures Step(cases, s, Finished(s, i, r))
    ensures |s.active - {i}| == |s.active| - 1
  {
    hide Finished, ResultOk, Inv, Submits, Refuses, GivesUp;
    assert Finishes(cases, s, Finished(s, i, r));
    var rest := s.active - {i};
    assert rest.Keys == s.active.Keys - {i};
    assert |rest.Keys| == |s.active.Keys| - 1;
  }

  lemma SomeIndex(s: set<int>)
    requires s != {}
    ensures exists i: int :: i in s
  {
    assert (forall i: int :: i !in s) ==> s == NO_CASES;
  }

  method WriteOff(cases: seq<Case>, results: seq<Option<CaseResult>>, active: set<int>, stillRunning: set<int>)
    returns (after: seq<Option<CaseResult>>)
    requires |results| == |cases| && forall i :: i in active ==> 0 <= i < |cases|
    ensures |after| == |cases|
    ensures forall i :: 0 <= i < |cases| ==>
              after[i] == if i in active then Some(LostResult(cases[i], i in stillRunning)) else results[i]
  {
    after := results;
    var todo := active;
    while todo != {}
      invariant todo <= active && |after| == |cases|
      invariant forall i :: 0 <= i < |cases| ==>
                  after[i] == if i in active && i !in todo then Some(LostResult(cases[i], i in stillRunning)) else results[i]
      decreases |todo|
    {
      SomeIndex(todo);
      var i: int :| i in todo;
      after := after[i := Some(LostResult(cases[i], i in stillRunning))];
      todo := todo - {i};
    }
  }

  /** The run so far has reached state `s`, which keeps the invariant. */
  ghost predicate Reached(cases: seq<Case>, run: seq<State>, s: State) {
    run != [] && IsRun(cases, run) && run[|run| - 1] == s && Inv(cases, s) && s.next <= |cases|
  }

  lemma Reaches(cases: seq<Case>, run: seq<State>, s: State, t: State) returns (more: seq<State>)
    requires Reached(cases, run, s) && Step(cases, s, t)
    ensures Reached(cases, more, t)
  {
    hide Step, Inv;
    more := Append(cases, run, t);
    InvKnows(cases, t);
  }

  ghost function Measure(cases: seq<Case>, s: State): int { 2 * (|cases| - s.next) + |s.active| }

  /** A result is what is kept of its child, unless the call for it raised or the
      deadline passed before it was collected. */
  ghost predicate ResultFrom(c: Case, child: Child, r: CaseResult, raised: bool, expired: bool) {
    || r == KeptOf(c, child)
    || (raised && r == CaseResult(c.caseId, CaseError, Some(CHILD_OUTPUT_INVALID), [], false, true, false))
    || (expired && r == CaseResult(c.caseId, CaseTimeout, Some(RUN_TIMEOUT), [], false, true, r.remoteStopUnknown))
  }

  ghost predicate AllFrom(cases: seq<Case>, children: seq<Child>, results: seq<Option<CaseResult>>, raised: bool, expired: bool) {
    |children| == |cases| == |results|
    && forall i :: 0 <= i < |cases| && results[i].Some? ==>
         FromChild(cases[i], children[i], results[i].value)
         && ResultFrom(cases[i], children[i], results[i].value, raised, expired)
  }

  lemma FromLater(cases: seq<Case>, children: seq<Child>, results: seq<Option<CaseResult>>, raised: bool, expired: bool,
                  raisedLater: bool, expiredLater: bool)
    requires AllFrom(cases, children, results, raised, expired) && (raised ==> raisedLater) && (expired ==> expiredLater)
    ensures AllFrom(cases, children, results, raisedLater, expiredLater)
  {
    hide FromChild, KeptOf;
  }

  // ---------- why a run stops ----------

  /** The reservations of all cases together fit the budget. */
  ghost predicate AllFit(cases: seq<Case>) { SumSet(Below(|cases|), Reserve(cases)) <= MAX_TOKENS }

  ghost function Below(n: nat): set<int>
    ensures forall i :: i in Below(n) <==> 0 <= i < n
  {
    if n == 0 then {} else Below(n - 1) + {n - 1}
  }

  /** A case settles exactly when its child ended well with a complete document
      that is in order and leaves nothing running remotely. */
  lemma SettlesExactly(c: Case, child: Child)
    ensures Settles(KeptOf(c, child)) <==>
              && child.Exited? && child.returnCode == 0 && child.output.Some? && DocumentOk(c, child.output.value)
              && child.output.value.complete && !child.output.value.remoteStopUnknown
  {
    hide DocumentOk;
  }

  /** Each stop reason has its cause. */
  ghost predicate StopOk(cases: seq<Case>, s: State, expired: bool) {
    match s.stop
    case None => true
    case Some(RunTimeout) => expired
    case Some(PreflightBudget) => !AllFit(cases)
    case Some(Uncertain(reason)) =>
      exists i :: 0 <= i < |s.results| && s.results[i].Some? && !Settles(s.results[i].value)
                  && s.results[i].value.reason == reason
  }

  /** What is settled and what is reserved never exceeds the reservations of the
      cases submitted so far. */
  lemma CommittedBounded(cases: seq<Case>, s: State)
    requires Inv(cases, s) && s.stop.None? && s.next < |cases|
    ensures s.settled + s.activeReserved + Reservation(cases[s.next]) <= SumSet(Below(|cases|), Reserve(cases))
  {
    var settled, active := FinishedSet(s, true), s.active.Keys;
    CommittedSets(cases, s);
    assert Reserve(cases)(s.next) == Reservation(cases[s.next]);
    assert s.settled == SumSet(settled, Used(s.results)) && s.activeReserved == SumSet(active, Reserve(cases));
    hide *;
    SumLe(settled, Used(s.results), Reserve(cases));
    SumUnion(settled, active, Reserve(cases));
    SumAdd(settled + active, Reserve(cases), s.next);
    SumPart(settled + active + {s.next}, Below(|cases|), Reserve(cases));
  }

  lemma CommittedSets(cases: seq<Case>, s: State)
    requires ShapeOk(cases, s) && s.next < |cases|
    ensures var settled, active := FinishedSet(s, true), s.active.Keys;
            && settled !! active && s.next !in settled + active
            && settled + active + {s.next} <= Below(|cases|)
            && forall i :: i in settled ==> Used(s.results)(i) <= Reserve(cases)(i)
  {
    hide Reservation, UsedBy, ResultOk, Settles;
    forall i | i in FinishedSet(s, true) ensures Used(s.results)(i) <= Reserve(cases)(i) {
      WithinReservation(cases[i], s.results[i].value);
    }
  }

  lemma SumPart(part: set<int>, all: set<int>, f: int -> nat)
    requires part <= all
    ensures SumSet(part, f) <= SumSet(all, f)
  {
    hide SumSet;
    SumUnion(part, all - part, f);
    assert part + (all - part) == all;
  }

  /** The deadline as it is looked at: `late(t)` says whether it has passed at the
      t-th look. */
  ghost predicate NeverLate(late: nat -> bool) { forall t :: !late(t) }

  /** Submits cases in order while a worker, the budget and the deadline allow. */
  method SubmitReady(cases: seq<Case>, late: nat -> bool, firstLook: nat, before: State, wasExpired: bool, ghost run: seq<State>)
    returns (s: State, look: nat, expired: bool, ghost more: seq<State>)
    requires Reached(cases, run, before) && StopOk(cases, before, wasExpired)
    ensures StopOk(cases, s, expired) && (wasExpired ==> expired) && (NeverLate(late) && !wasExpired ==> !expired)
    ensures Reached(cases, more, s) && Measure(cases, s) <= Measure(cases, before)
    ensures s.active == map[] ==> s.stop.Some? || s.next == |cases|
    ensures s.results == before.results
  {
    hide Reached, Step, Reservation, AllFit, Settles;
    s, look, expired, more := before, firstLook, wasExpired, run;
    assert s.next <= |cases| by { ReachedKnows(cases, more, s); }
    while s.next < |cases| && s.stop.None? && |s.active| < MAX_WORKERS
      invariant Reached(cases, more, s) && s.next <= |cases| && Measure(cases, s) <= Measure(cases, before)
      invariant s.results == before.results && StopOk(cases, s, expired) && (wasExpired ==> expired)
      invariant NeverLate(late) && !wasExpired ==> !expired
      decreases |cases| - s.next
    {
      ReachedKnows(cases, more, s);
      expired := expired || late(look);
      look := look + 1;
      if expired {
        RefuseStep(cases, s, RunTimeout);
        more := Reaches(cases, more, s, s.(stop := Some(RunTimeout)));
        s := s.(stop := Some(RunTimeout));
        break;
      }
      var reservation := Reservation(cases[s.next]);
      if reservation > MAX_TOKENS || s.settled + s.activeReserved + reservation > MAX_TOKENS {
        BudgetExceeded(cases, s);
        RefuseStep(cases, s, PreflightBudget);
        more := Reaches(cases, more, s, s.(stop := Some(PreflightBudget)));
        s := s.(stop := Some(PreflightBudget));
        break;
      }
      SubmitStep(cases, s, reservation);
      ghost var last := s;
      s := s.(active := s.active[s.next := reservation], activeReserved := s.activeReserved + reservation, next := s.next + 1);
      more := Reaches(cases, more, last, s);
    }
  }

  lemma BudgetExceeded(cases: seq<Case>, s: State)
    requires Inv(cases, s) && s.stop.None? && s.next < |cases|
    requires s.settled + s.activeReserved + Reservation(cases[s.next]) > MAX_TOKENS
    ensures !AllFit(cases)
  {
    hide Inv, Reservation;
    CommittedBounded(cases, s);
  }

  lemma ReachedKnows(cases: seq<Case>, run: seq<State>, s: State)
    requires Reached(cases, run, s)
    ensures Inv(cases, s) && s.next <= |cases| && s.settled >= 0 && s.activeReserved >= 0
  {
    NotNegative(cases, s);
  }

  /** `raises(i)` says whether the call for case i raises instead of returning. */
  ghost predicate NoneRaises(raises: int -> bool) { forall i :: !raises(i) }

  /** Takes the results of the cases that are done. */
  method CollectDone(cases: seq<Case>, children: seq<Child>, raises: int -> bool, before: State, done: set<int>,
                     ghost expired: bool, ghost wasRaised: bool, ghost run: seq<State>)
    returns (s: State, ghost raised: bool, ghost more: seq<State>)
    requires AllFrom(cases, children, before.results, wasRaised, expired) && StopOk(cases, before, expired)
    requires Reached(cases, run, before) && done <= before.active.Keys && done != {}
    ensures Reached(cases, more, s) && Measure(cases, s) < Measure(cases, before)
    ensures AllFrom(cases, children, s.results, raised, expired) && StopOk(cases, s, expired)
    ensures (wasRaised ==> raised) && (NoneRaises(raises) && !wasRaised ==> !raised)
  {
    hide Reached, Step, Reservation, ResultOk, UsedBy, Finished, Inv, StopFor, DocumentOk, AllFrom, StopOk, KeptOf, FromChild;
    s, raised, more := before, wasRaised, run;
    var todo := done;
    while todo != {}
      invariant Reached(cases, more, s) && todo <= s.active.Keys && AllFrom(cases, children, s.results, raised, expired)
      invariant StopOk(cases, s, expired) && (wasRaised ==> raised) && (NoneRaises(raises) && !wasRaised ==> !raised)
      invariant Measure(cases, s) <= Measure(cases, before) && (todo == {} ==> Measure(cases, s) < Measure(cases, before))
      decreases |todo|
    {
      SomeIndex(todo);
      var i: int :| i in todo;
      ReachedKnows(cases, more, s);
      InvKnows(cases, s);
      FromSizes(cases, children, s.results, raised, expired);
      var r := ExpectedRecord(cases[i]);
      FromLater(cases, children, s.results, raised, expired, raised || raises(i), expired);
      raised := raised || raises(i);
      if raises(i) {
        ExpectedOk(cases[i], children[i]);
      } else {
        r := RunChildCase(cases[i], children[i]);
      }
      FromOk(cases[i], children[i], r);
      var used := UsageFor(cases[i], r);
      FinishStep(cases, s, i, r);
      FinishedIs(s, i, cases[i], r, used);
      more := Reaches(cases, more, s, Finished(s, i, r));
      OneMoreFrom(cases, children, s.results, i, r, raised, expired);
      FinishedStop(cases, s, i, r, expired);
      var open := used.None? || r.remoteStopUnknown || r.status != CaseComplete;
      s := State(s.active - {i}, s.activeReserved - s.active[i], if open then s.settled else s.settled + used.value,
                 s.results[i := Some(r)], s.next, if open then Some(StopFor(r)) else s.stop);
      todo := todo - {i};
    }
  }

  lemma FromSizes(cases: seq<Case>, children: seq<Child>, results: seq<Option<CaseResult>>, raised: bool, expired: bool)
    requires AllFrom(cases, children, results, raised, expired)
    ensures |children| == |cases| == |results|
  {
  }

  lemma FromOk(c: Case, child: Child, r: CaseResult)
    requires FromChild(c, child, r)
    ensures ResultOk(c, r)
  {
  }

  lemma OneMoreFrom(cases: seq<Case>, children: seq<Child>, results: seq<Option<CaseResult>>, i: nat, r: CaseResult,
                    raised: bool, expired: bool)
    requires AllFrom(cases, children, results, raised, expired) && i < |cases|
    requires FromChild(cases[i], children[i], r) && ResultFrom(cases[i], children[i], r, raised, expired)
    ensures AllFrom(cases, children, results[i := Some(r)], raised, expired)
  {
    hide FromChild, ResultFrom;
  }

  /** A result that settles leaves the stop reason; another one becomes it. */
  lemma FinishedStop(cases: seq<Case>, s: State, i: nat, r: CaseResult, expired: bool)
    requires Inv(cases, s) && StopOk(cases, s, expired) && i in s.active && i < |s.results|
    ensures StopOk(cases, Finished(s, i, r), expired)
  {
    hide SumSet, ResultOk, Reservation, UsedBy, AllFit, Settles, BudgetOk;
    var t := Finished(s, i, r);
    assert s.results[i].None?;
    if Settles(r) {
      if s.stop.Some? && s.stop.value.Uncertain? {
        var j :| 0 <= j < |s.results| && s.results[j].Some? && !Settles(s.results[j].value)
                 && s.results[j].value.reason == s.stop.value.reason;
        assert t.results[j] == s.results[j];
      }
    } else {
      assert t.results[i] == Some(r);
    }
  }

  /** One look at the deadline, and a wait that ends when some of the running
      cases have finished or with the deadline. */
  method Wait(active: set<int>, late: nat -> bool, look: nat) returns (done: set<int>, timedOut: bool)
    requires active != {}
    ensures timedOut <==> late(look) || late(look + 1)
    ensures done <= active && (!timedOut ==> done != {})
  {
    timedOut := late(look) || late(look + 1);
    done := {};
    if !timedOut {
      assert active <= active && active != {};
      done :| done <= active && done != {};
    }
  }

  /** Writes off what is still running when the deadline has passed. */
  method GiveUp(cases: seq<Case>, children: seq<Child>, before: State, ghost raised: bool, ghost run: seq<State>)
    returns (s: State, ghost more: seq<State>)
    requires Reached(cases, run, before) && before.active != map[]
    requires AllFrom(cases, children, before.results, raised, true)
    ensures Reached(cases, more, s) && s.active == map[] && s.stop == Some(RunTimeout)
    ensures AllFrom(cases, children, s.results, raised, true) && StopOk(cases, s, true)
  {
    hide Reached, Step, Inv, AllFrom, StopOk, LostResult;
    var stillRunning: set<int> := *;
    ReachedKnows(cases, run, before);
    InvKnows(cases, before);
    var after := WriteOff(cases, before.results, before.active.Keys, stillRunning);
    WriteOffStep(cases, before, stillRunning, after);
    WrittenOffFrom(cases, children, before.results, before.active.Keys, stillRunning, after, raised);
    s := before.(active := map[], stop := Some(RunTimeout), results := after);
    more := Reaches(cases, run, before, s);
    TimedOutOk(cases, s);
  }

  /** Runs the cases. Which of the running cases have finished whenever a wait
      ends, whether the deadline has passed at each look, which calls raise and
      what each child does are all arbitrary; `expired` and `raised` say whether a
      look found the deadline passed and whether a call raised. */
  method Supervise(cases: seq<Case>, children: seq<Child>, late: nat -> bool, raises: int -> bool)
    returns (results: seq<Option<CaseResult>>, submitted: nat, stop: Option<StopReason>, ghost run: seq<State>,
             expired: bool, ghost raised: bool)
    requires |children| == |cases|
    ensures IsRun(cases, run)
    ensures var s := run[|run| - 1];
            s.active == map[] && s.results == results && s.next == submitted && s.stop == stop
    ensures |results| == |cases| && submitted <= |cases|
    ensures forall i :: 0 <= i < |cases| ==> (results[i].Some? <==> i < submitted)
    ensures forall i :: 0 <= i < submitted ==>
              FromChild(cases[i], children[i], results[i].value)
              && ResultFrom(cases[i], children[i], results[i].value, raised, expired)
    ensures submitted < |cases| ==> stop.Some?
    ensures StopOk(cases, run[|run| - 1], expired)
    ensures (NeverLate(late) ==> !expired) && (NoneRaises(raises) ==> !raised)
    ensures !expired && !raised && AllFit(cases) && (forall i :: 0 <= i < |cases| ==> Settles(KeptOf(cases[i], children[i]))) ==>
              stop.None? && submitted == |cases|
              && forall i :: 0 <= i < |cases| ==> results[i] == Some(KeptOf(cases[i], children[i]))
    ensures stop.None? ==> forall i :: 0 <= i < submitted ==> Settles(results[i].value)
    ensures SumSet(Submitted(results), Claims(cases, results)) <= MAX_TOKENS
    ensures SumSet(Submitted(results), Used(results)) <= MAX_TOKENS
  {
    hide Inv, Step, IsRun, Reached, ResultOk, Settles, SumSet, Submitted, Claims, Used, LostResult, FromChild, KeptOf;
    hide StopOk, AllFit, ResultFrom, AllFrom;
    var s := InitialState(cases);
    run := FirstState(cases);
    assert Reached(cases, run, s) by { ReachedFirst(cases, run); }
    var look := 0;
    expired, raised := false, false;
    StartsOk(cases, children);
    while s.active != map[] || (s.next < |cases| && s.stop.None?)
      invariant Reached(cases, run, s) && AllFrom(cases, children, s.results, raised, expired) && StopOk(cases, s, expired)
      invariant (NeverLate(late) ==> !expired) && (NoneRaises(raises) ==> !raised)
      decreases Measure(cases, s)
    {
      ghost var before := expired;
      ReachedKnows(cases, run, s);
      s, look, expired, run := SubmitReady(cases, late, look, s, expired, run);
      FromLater(cases, children, s.results, raised, before, raised, expired);
      if s.active == map[] { break; }
      var done, timedOut := Wait(s.active.Keys, late, look);
      StopLater(cases, s, expired, expired || timedOut);
      FromLater(cases, children, s.results, raised, expired, raised, expired || timedOut);
      expired, look := expired || timedOut, look + 2;
      if expired {
        s, run := GiveUp(cases, children, s, raised, run);
        break;
      }
      s, raised, run := CollectDone(cases, children, raises, s, done, expired, raised, run);
    }
    Concludes(cases, children, run, s, expired, raised);
    results, submitted, stop := s.results, s.next, s.stop;
  }

  lemma Concludes(cases: seq<Case>, children: seq<Child>, run: seq<State>, s: State, expired: bool, raised: bool)
    requires Reached(cases, run, s) && AllFrom(cases, children, s.results, raised, expired) && StopOk(cases, s, expired)
    requires s.active == map[] && (s.next >= |cases| || s.stop.Some?)
    ensures IsRun(cases, run) && run != [] && run[|run| - 1] == s && |children| == |cases| == |s.results| && s.next <= |cases|
    ensures forall i :: 0 <= i < |cases| ==> (s.results[i].Some? <==> i < s.next)
    ensures forall i :: 0 <= i < s.next ==>
              FromChild(cases[i], children[i], s.results[i].value)
              && ResultFrom(cases[i], children[i], s.results[i].value, raised, expired)
    ensures s.stop.None? ==> forall i :: 0 <= i < s.next ==> Settles(s.results[i].value)
    ensures !expired && !raised && AllFit(cases) && (forall i :: 0 <= i < |cases| ==> Settles(KeptOf(cases[i], children[i]))) ==>
              s.stop.None? && s.next == |cases|
              && forall i :: 0 <= i < |cases| ==> s.results[i] == Some(KeptOf(cases[i], children[i]))
    ensures SumSet(Submitted(s.results), Claims(cases, s.results)) <= MAX_TOKENS
    ensures SumSet(Submitted(s.results), Used(s.results)) <= MAX_TOKENS
  {
    hide Inv, IsRun, Reached, ResultOk, Settles, SumSet, Submitted, Claims, Used, FromChild, KeptOf, StopOk, AllFit, ResultFrom;
    ReachedKnows(cases, run, s);
    InvKnows(cases, s);
    FinalClaims(cases, s);
    ReachedRun(cases, run, s);
    if !expired && !raised && AllFit(cases) && forall i :: 0 <= i < |cases| ==> Settles(KeptOf(cases[i], children[i])) {
      NothingStops(cases, children, s);
    }
  }

  lemma StartsOk(cases: seq<Case>, children: seq<Child>)
    requires |children| == |cases|
    ensures StopOk(cases, InitialState(cases), false) && AllFrom(cases, children, InitialState(cases).results, false, false)
  {
  }

  lemma StopLater(cases: seq<Case>, s: State, expired: bool, later: bool)
    requires StopOk(cases, s, expired) && (expired ==> later)
    ensures StopOk(cases, s, later)
  {
    hide Settles, AllFit;
  }

  lemma TimedOutOk(cases: seq<Case>, s: State)
    requires s.stop == Some(RunTimeout)
    ensures StopOk(cases, s, true)
  {
  }

  lemma NothingStops(cases: seq<Case>, children: seq<Child>, s: State)
    requires AllFrom(cases, children, s.results, false, false) && StopOk(cases, s, false) && AllFit(cases)
    requires forall i :: 0 <= i < |cases| ==> Settles(KeptOf(cases[i], children[i]))
    ensures s.stop.None?
    ensures forall i :: 0 <= i < |cases| && s.results[i].Some? ==> s.results[i] == Some(KeptOf(cases[i], children[i]))
  {
    hide Settles, KeptOf, FromChild, AllFit;
    forall i | 0 <= i < |cases| && s.results[i].Some?
      ensures s.results[i] == Some(KeptOf(cases[i], children[i])) && Settles(s.results[i].value)
    {
      assert ResultFrom(cases[i], children[i], s.results[i].value, false, false);
    }
  }

  lemma WrittenOffFrom(cases: seq<Case>, children: seq<Child>, results: seq<Option<CaseResult>>, active: set<int>,
                       stillRunning: set<int>, after: seq<Option<CaseResult>>, raised: bool)
    requires AllFrom(cases, children, results, raised, true) && |after| == |cases|
    requires forall i :: 0 <= i < |cases| ==>
               after[i] == if i in active then Some(LostResult(cases[i], i in stillRunning)) else results[i]
    ensures AllFrom(cases, children, after, raised, true)
  {
    hide DocumentOk, KeptOf;
  }

  lemma ReachedFirst(cases: seq<Case>, run: seq<State>)
    requires run == [InitialState(cases)] && IsRun(cases, run) && Inv(cases, run[0])
    ensures Reached(cases, run, InitialState(cases))
  {
    hide Inv, IsRun;
  }

  lemma ReachedRun(cases: seq<Case>, run: seq<State>, s: State)
    requires Reached(cases, run, s)
    ensures IsRun(cases, run) && run != [] && run[|run| - 1] == s
  {
    hide Inv;
  }
}
