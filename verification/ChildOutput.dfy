/** One case handed to a child process, and what of its output is kept
    (tools/verify_synthetic_llm.py). */
module ChildOutput {
  import opened Common

  const MAX_PROMPT_TOKENS := 32768
  const MAX_COMPLETION_TOKENS := 128
  const RESERVED_TOKENS_PER_STAGE := MAX_PROMPT_TOKENS + MAX_COMPLETION_TOKENS

  datatype Detection = Detect | Allow | Indeterminate
  datatype Action = Apply | Block | Defer
  datatype Label = Positive | Negative | IndeterminateLabel

  datatype Stage = Stage(stageId: Id, expected: Detection)
  datatype Case = Case(caseId: Id, expected: Label, stages: seq<Stage>)

  datatype Usage = Usage(prompt: int, completion: int, total: int)
  datatype Selection = Selection(detection: Detection, action: Action)
  datatype Observations = Observations(detection: Detection, deviation: Option<bool>)
  datatype Effect = Effect(before: int, after: int, applied: bool)
  datatype StageStatus = StageComplete | InvalidOutput

  /** A record as it is decoded, before any of its fields is trusted. */
  datatype StageRecord = StageRecord(
    caseId: Id, stageId: Id, status: StageStatus, reason: Option<Id>, usage: Option<Usage>,
    selection: Option<Selection>, observations: Option<Observations>, effect: Option<Effect>)

  /** A decoded document; `addressed` says that version, kind, purpose, case,
      pack, endpoint and model are the ones asked for. */
  datatype Document = Document(
    addressed: bool, records: seq<StageRecord>, complete: bool, failed: bool, remoteStopUnknown: bool)

  predicate UsageOk(u: Usage) {
    && u.prompt >= 0 && u.completion >= 0 && u.total >= 0
    && u.prompt <= MAX_PROMPT_TOKENS && u.completion <= MAX_COMPLETION_TOKENS
    && u.prompt + u.completion == u.total
  }

  /** The side-effect counter after a record, if the record is well formed. */
  function RecordShape(r: StageRecord, caseId: Id, stages: seq<Stage>, counter: int): Option<int> {
    if r.caseId != caseId || !(exists i :: 0 <= i < |stages| && stages[i].stageId == r.stageId) then None
    else match r.status
      case StageComplete =>
        if r.reason.Some? || r.selection.None? then None
        else if r.usage.None? || !UsageOk(r.usage.value) then None
        else if r.observations.None? || r.observations.value.detection != r.selection.value.detection then None
        else if r.effect.None? || r.effect.value.before < 0 || r.effect.value.after < 0
                || r.effect.value.before != counter then None
        else
          var applies := r.selection.value.action == Apply;
          if r.effect.value.applied != applies || r.effect.value.after != counter + (if applies then 1 else 0) then None
          else Some(r.effect.value.after)
      case InvalidOutput =>
        if r.usage.Some? && !UsageOk(r.usage.value) then None
        else if r.reason.None? || r.selection.Some? || r.observations.Some? || r.effect.Some? then None
        else Some(counter)
  }

  // ---------- what a document must say ----------

  /** How many side effects the records report. */
  function Applied(records: seq<StageRecord>): nat
    decreases |records|
  {
    if records == [] then 0
    else
      var last := records[|records| - 1];
      Applied(records[..|records| - 1]) + if last.selection.Some? && last.selection.value.action == Apply then 1 else 0
  }

  /** Said without a loop: a record tells the stage it is at and the number of
      side effects before it. */
  ghost predicate RecordOk(c: Case, records: seq<StageRecord>, i: nat)
    requires i < |records| <= |c.stages|
  {
    var r := records[i];
    && r.caseId == c.caseId && r.stageId == c.stages[i].stageId
    && (r.usage.Some? ==> UsageOk(r.usage.value))
    && match r.status
       case StageComplete =>
         && r.reason.None? && r.usage.Some? && r.selection.Some? && r.observations.Some? && r.effect.Some?
         && r.observations.value.detection == r.selection.value.detection
         && r.effect.value.before == Applied(records[..i])
         && r.effect.value.after == Applied(records[..i + 1])
         && (r.effect.value.applied <==> r.selection.value.action == Apply)
       case InvalidOutput => r.reason.Some? && r.selection.None? && r.observations.None? && r.effect.None?
  }

  ghost predicate DocumentOk(c: Case, d: Document) {
    && d.addressed
    && 1 <= |d.records| <= |c.stages|
    && (forall i, j :: 0 <= i < j < |d.records| ==> d.records[i].stageId != d.records[j].stageId)
    && (forall i :: 0 <= i < |d.records| ==> RecordOk(c, d.records, i))
    && (d.complete ==> !d.failed && |d.records| == |c.stages|
                       && forall i :: 0 <= i < |d.records| ==> d.records[i].status == StageComplete)
    && (!d.complete ==> d.failed
                        && forall i :: 0 <= i < |d.records| ==>
                             (d.records[i].status == InvalidOutput <==> i == |d.records| - 1))
  }

  /** The checks of the reader, one record after the other. */
  ghost predicate ShapesOk(c: Case, records: seq<StageRecord>, n: nat)
    requires n <= |records|
  {
    && (forall i :: 0 <= i < n ==> RecordShape(records[i], c.caseId, c.stages, Applied(records[..i])).Some?)
    && (forall i, j :: 0 <= i < j < n ==> records[i].stageId != records[j].stageId)
  }

  lemma ShapeCounts(c: Case, records: seq<StageRecord>, i: nat)
    requires i < |records|
    requires RecordShape(records[i], c.caseId, c.stages, Applied(records[..i])).Some?
    ensures RecordShape(records[i], c.caseId, c.stages, Applied(records[..i])).value == Applied(records[..i + 1])
  {
    hide UsageOk;
    assert records[..i + 1][..i] == records[..i];
  }

  lemma ShapeIsOk(c: Case, records: seq<StageRecord>, i: nat)
    requires i < |records| <= |c.stages| && records[i].stageId == c.stages[i].stageId
    ensures RecordShape(records[i], c.caseId, c.stages, Applied(records[..i])).Some? <==> RecordOk(c, records, i)
  {
    hide UsageOk;
    assert records[..i + 1][..i] == records[..i];
  }

  method ParseChildOutput(c: Case, output: Option<Document>) returns (accepted: bool)
    ensures accepted <==> output.Some? && DocumentOk(c, output.value)
  {
    hide RecordShape, Applied, RecordOk;
    if output.None? || !output.value.addressed { return false; }
    var d := output.value;
    var records, stages := d.records, c.stages;
    if !(1 <= |records| <= |stages|) { return false; }
    var seen: set<Id> := {};
    var counter := 0;
    NoneApplied(records);
    var i := 0;
    while i < |records|
      invariant 0 <= i <= |records| && ShapesOk(c, records, i)
      invariant counter == Applied(records[..i])
      invariant forall id :: id in seen <==> exists j :: 0 <= j < i && records[j].stageId == id
    {
      var next := RecordShape(records[i], c.caseId, stages, counter);
      if next.None? || records[i].stageId in seen {
        NotOk(c, d, i);
        return false;
      }
      ShapeCounts(c, records, i);
      counter := next.value;
      seen := seen + {records[i].stageId};
      i := i + 1;
    }
    if exists j :: 0 <= j < |records| && records[j].stageId != stages[j].stageId {
      NotPrefix(c, d);
      return false;
    }
    assert forall j :: 0 <= j < |records| ==> RecordOk(c, records, j) by { AllOk(c, records); }
    if d.complete && (d.failed || |records| != |stages|
                      || exists j :: 0 <= j < |records| && (records[j].status != StageComplete || records[j].usage.None?))
    {
      assert !DocumentOk(c, d) by { IncompleteRecord(c, d); }
      return false;
    }
    if !d.complete && (!d.failed || records[|records| - 1].status != InvalidOutput
                       || exists j :: 0 <= j < |records| - 1 && records[j].status == InvalidOutput)
    {
      return false;
    }
    return true;
  }

  lemma NoneApplied(records: seq<StageRecord>)
    ensures Applied(records[..0]) == 0
  {
  }

  lemma NotOk(c: Case, d: Document, i: nat)
    requires i < |d.records| <= |c.stages|
    requires RecordShape(d.records[i], c.caseId, c.stages, Applied(d.records[..i])).None?
             || exists j :: 0 <= j < i && d.records[j].stageId == d.records[i].stageId
    ensures !DocumentOk(c, d)
  {
    hide RecordShape;
    if DocumentOk(c, d) {
      assert RecordOk(c, d.records, i);
      ShapeIsOk(c, d.records, i);
    }
  }

  lemma NotPrefix(c: Case, d: Document)
    requires |d.records| <= |c.stages|
    requires exists j :: 0 <= j < |d.records| && d.records[j].stageId != c.stages[j].stageId
    ensures !DocumentOk(c, d)
  {
    var j :| 0 <= j < |d.records| && d.records[j].stageId != c.stages[j].stageId;
    assert !RecordOk(c, d.records, j);
  }

  lemma AllOk(c: Case, records: seq<StageRecord>)
    requires |records| <= |c.stages| && ShapesOk(c, records, |records|)
    requires forall j :: 0 <= j < |records| ==> records[j].stageId == c.stages[j].stageId
    ensures forall j :: 0 <= j < |records| ==> RecordOk(c, records, j)
  {
    hide RecordShape, RecordOk;
    forall j | 0 <= j < |records| ensures RecordOk(c, records, j) { ShapeIsOk(c, records, j); }
  }

  lemma IncompleteRecord(c: Case, d: Document)
    requires d.complete
    requires d.failed || |d.records| != |c.stages|
             || exists j :: 0 <= j < |d.records| && (d.records[j].status != StageComplete || d.records[j].usage.None?)
    ensures !DocumentOk(c, d)
  {
    if DocumentOk(c, d) {
      forall j | 0 <= j < |d.records| ensures d.records[j].status == StageComplete && d.records[j].usage.Some? {
        assert RecordOk(c, d.records, j);
      }
    }
  }

  // ---------- the child as a whole ----------

  /** How a child ended, and what its output decodes to. */
  datatype Child =
    | TimedOut
    | NotExited(reason: Id)
    | Exited(output: Option<Document>, returnCode: int)

  datatype CaseStatus = CaseComplete | CaseError | CaseTimeout

  datatype Reason = CASE_TIMEOUT | CHILD_OUTPUT_INVALID | CHILD_INCOMPLETE | RUN_TIMEOUT | CHILD_FAILED(code: Id)

  datatype CaseResult = CaseResult(
    caseId: Id, status: CaseStatus, reason: Option<Reason>, records: seq<StageRecord>, complete: bool, failed: bool,
    remoteStopUnknown: bool)

  function ExpectedRecord(c: Case): CaseResult {
    CaseResult(c.caseId, CaseError, Some(CHILD_OUTPUT_INVALID), [], false, true, false)
  }

  /** What is kept of a child: a document that is in order and fits the exit code
      says everything; otherwise nothing is kept, and only a child that was still
      running may go on remotely. */
  ghost function KeptOf(c: Case, child: Child): CaseResult {
    match child
    case TimedOut => CaseResult(c.caseId, CaseTimeout, Some(CASE_TIMEOUT), [], false, true, true)
    case NotExited(reason) => CaseResult(c.caseId, CaseError, Some(CHILD_FAILED(reason)), [], false, true, false)
    case Exited(output, returnCode) =>
      if output.Some? && DocumentOk(c, output.value) && (output.value.complete <==> returnCode == 0) then
        var d := output.value;
        if d.complete then CaseResult(c.caseId, CaseComplete, None, d.records, true, false, d.remoteStopUnknown)
        else CaseResult(c.caseId, CaseError, Some(CHILD_INCOMPLETE), d.records, false, true, d.remoteStopUnknown)
      else CaseResult(c.caseId, CaseError, Some(CHILD_OUTPUT_INVALID), [], false, true, false)
  }

  /** The child ended, and its document is in order and fits its exit code. */
  ghost predicate Fits(c: Case, child: Child) {
    child.Exited? && child.output.Some? && DocumentOk(c, child.output.value)
    && (child.output.value.complete <==> child.returnCode == 0)
  }

  method RunChildCase(c: Case, child: Child) returns (r: CaseResult)
    ensures r == KeptOf(c, child)
    ensures Fits(c, child) ==>
              var d := child.output.value;
              && r.records == d.records && r.complete == d.complete && r.failed == d.failed
              && r.remoteStopUnknown == d.remoteStopUnknown
              && (d.complete ==> r.status == CaseComplete && r.reason.None?)
              && (!d.complete ==> r.status == CaseError && r.reason == Some(CHILD_INCOMPLETE))
    ensures !Fits(c, child) ==>
              && r.records == [] && !r.complete && r.failed && (r.remoteStopUnknown <==> child.TimedOut?)
              && match child
                 case TimedOut => r.status == CaseTimeout && r.reason == Some(CASE_TIMEOUT)
                 case NotExited(reason) => r.status == CaseError && r.reason == Some(CHILD_FAILED(reason))
                 case Exited(_, _) => r.status == CaseError && r.reason == Some(CHILD_OUTPUT_INVALID)
    ensures FromChild(c, child, r)
    ensures r.complete <==> child.Exited? && child.returnCode == 0 && child.output.Some?
                            && child.output.value.complete && DocumentOk(c, child.output.value)
  {
    hide DocumentOk, RecordOk;
    match child
    case TimedOut =>
      r := ExpectedRecord(c).(status := CaseTimeout, reason := Some(CASE_TIMEOUT), remoteStopUnknown := true);
    case NotExited(reason) =>
      r := ExpectedRecord(c).(reason := Some(CHILD_FAILED(reason)));
    case Exited(output, returnCode) =>
      var accepted := ParseChildOutput(c, output);
      if !accepted || (output.value.complete != (returnCode == 0)) {
        r := ExpectedRecord(c);
      } else {
        var d := output.value;
        r := CaseResult(c.caseId, if d.complete then CaseComplete else CaseError,
                        if d.complete then None else Some(CHILD_INCOMPLETE),
                        d.records, d.complete, d.failed, d.remoteStopUnknown);
        FailedUnlessComplete(c, d);
        DocumentResult(c, d, r);
      }
  }

  lemma FailedUnlessComplete(c: Case, d: Document)
    requires DocumentOk(c, d)
    ensures d.failed <==> !d.complete
  {
  }

  /** A complete result is the accepted output of a child that ended well. */
  ghost predicate FromChild(c: Case, child: Child, r: CaseResult) {
    && ResultOk(c, r)
    && (r.complete ==> child.Exited? && child.returnCode == 0 && child.output.Some?
                       && child.output.value.complete && DocumentOk(c, child.output.value)
                       && r.records == child.output.value.records)
  }

  /** What a result may say, whatever the child did. */
  ghost predicate ResultOk(c: Case, r: CaseResult) {
    && r.caseId == c.caseId
    && |r.records| <= |c.stages|
    && (forall i :: 0 <= i < |r.records| ==> r.records[i].stageId == c.stages[i].stageId)
    && (forall i, j :: 0 <= i < j < |r.records| ==> r.records[i].stageId != r.records[j].stageId)
    && (forall i :: 0 <= i < |r.records| && r.records[i].usage.Some? ==> UsageOk(r.records[i].usage.value))
    && (forall i :: 0 <= i < |r.records| && r.records[i].status == StageComplete ==>
          r.records[i].usage.Some? && r.records[i].selection.Some?)
    && (r.complete ==> r.status == CaseComplete && |r.records| == |c.stages| && |r.records| > 0
                       && forall i :: 0 <= i < |r.records| ==> r.records[i].status == StageComplete)
    && (!r.complete ==> r.status != CaseComplete)
  }

  lemma DocumentResult(c: Case, d: Document, r: CaseResult)
    requires DocumentOk(c, d) && r.caseId == c.caseId && r.records == d.records && r.complete == d.complete
    requires r.complete <==> r.status == CaseComplete
    ensures ResultOk(c, r) && r.records != []
  {
    hide UsageOk;
    forall i | 0 <= i < |d.records|
      ensures d.records[i].stageId == c.stages[i].stageId
      ensures d.records[i].usage.Some? ==> UsageOk(d.records[i].usage.value)
      ensures d.records[i].status == StageComplete ==> d.records[i].usage.Some? && d.records[i].selection.Some?
    {
      assert RecordOk(c, d.records, i);
    }
  }
}
