/** The checkpointed client that adopts a policy, run against the authority
    with crashes at any point and re-run any number of times. */
module SetupDriver {
  import opened Common
  import opened Adoption
  import opened AdoptionInvariant
  import opened AdoptionSafety
  import opened AdoptionAudit

  datatype StepName = ProposeStep | ValidateStep | AdoptStep

  /** The fixed arguments of one adoption; `generation` is the one it starts from. */
  datatype Plan = Plan(tag: string, proposalId: Id, seriesId: Id, policy: Policy, generation: int)

  function KeyText(n: StepName): string {
    match n
    case ProposeStep => "policy-propose"
    case ValidateStep => "policy-validate"
    case AdoptStep => "policy-adopt"
  }

  function RequestId(plan: Plan, n: StepName): Id {
    Id(plan.tag + "-" + KeyText(n))
  }

  function ActorOf(n: StepName): Actor {
    if n == ValidateStep then Validator else Manager
  }

  function PeerOf(n: StepName): Peer {
    if n == ValidateStep then Peer(12003, 12003) else Peer(12001, 12001)
  }

  function ValidationId(plan: Plan): Id { Id(plan.proposalId.text + "-validation") }

  function RequestOf(plan: Plan, n: StepName): Request {
    match n
    case ProposeStep => ProposeRequest(RequestId(plan, n), plan.proposalId, plan.seriesId, plan.generation, plan.policy)
    case ValidateStep => ValidateRequest(RequestId(plan, n), plan.proposalId, ValidationId(plan))
    case AdoptStep => AdoptRequest(RequestId(plan, n), plan.proposalId, ValidationId(plan), plan.generation)
  }

  /** The action and request id the client checks in an answer. */
  predicate Answers(plan: Plan, n: StepName, v: Response) {
    && v.requestId == RequestId(plan, n)
    && match n
       case ProposeStep => v.Proposed?
       case ValidateStep => v.Validated?
       case AdoptStep => v.Adopted?
  }

  // ---------- checkpoint and driver ----------

  datatype CheckKey = RequestKey(step: StepName) | ResponseKey(step: StepName)
  datatype Payload = Sent(peer: Peer, request: Request) | Received(response: Response)

  type Checkpoint = map<CheckKey, Payload>

  /** Write-once: the same content again is accepted, any other refused. */
  function Put(c: Checkpoint, k: CheckKey, p: Payload): Option<Checkpoint> {
    if k !in c then Some(c[k := p]) else if c[k] == p then Some(c) else None
  }

  /** Where the client process is. Its memory is lost in a crash (`Idle`). */
  datatype Driver =
    | Idle
    | Running(step: StepName)
    | Ready(step: StepName)
    | Holding(step: StepName, answer: Response)
    | Done(result: Response)

  datatype System = System(store: Store, checkpoint: Checkpoint, driver: Driver)

  /** `Late`: a request the client has checkpointed reaches the authority (again)
      without the client waiting for it, as one that timed out and was still
      under way when the client gave up or started anew. */
  datatype Happening =
    | Start
    | Prepare
    | Send(env: Env)
    | Save
    | Crash
    | Late(step: StepName, env: Env)
    | Foreign(event: Event)

  /** After an answer: the next step, the result, or an error that ends the run. */
  function Advance(plan: Plan, n: StepName, v: Response): Driver {
    match n
    case ProposeStep => Running(ValidateStep)
    case ValidateStep => if v.Validated? then Running(AdoptStep) else Idle
    case AdoptStep => if v.Adopted? && v.generation == plan.generation + 1 then Done(v) else Idle
  }

  function OwnEvent(plan: Plan, n: StepName, env: Env): Event { Event(PeerOf(n), RequestOf(plan, n), env) }

  function Happen(cfg: Config, plan: Plan, sys: System, h: Happening): System {
    match h
    case Start => if sys.driver.Idle? || sys.driver.Done? then sys.(driver := Running(ProposeStep)) else sys
    case Crash => sys.(driver := Idle)
    case Foreign(e) => sys.(store := Apply(cfg, sys.store, e).store)
    case Late(n, env) =>
      if RequestKey(n) in sys.checkpoint then sys.(store := Apply(cfg, sys.store, OwnEvent(plan, n, env)).store) else sys
    case Prepare =>
      if !sys.driver.Running? then sys
      else
        var n := sys.driver.step;
        var put := Put(sys.checkpoint, RequestKey(n), Sent(PeerOf(n), RequestOf(plan, n)));
        if put.None? then sys.(driver := Idle)
        else if ResponseKey(n) in put.value && put.value[ResponseKey(n)].Received? then
          sys.(checkpoint := put.value, driver := Advance(plan, n, put.value[ResponseKey(n)].response))
        else sys.(checkpoint := put.value, driver := Ready(n))
    case Send(env) =>
      if !sys.driver.Ready? then sys
      else
        var n := sys.driver.step;
        var answer := Apply(cfg, sys.store, OwnEvent(plan, n, env));
        sys.(store := answer.store, driver := if answer.outcome.Ok? then Holding(n, answer.outcome.value) else Idle)
    case Save =>
      if !sys.driver.Holding? then sys
      else
        var n, v := sys.driver.step, sys.driver.answer;
        if !Answers(plan, n, v) then sys.(driver := Idle)
        else
          var put := Put(sys.checkpoint, ResponseKey(n), Received(v));
          if put.None? then sys.(driver := Idle)
          else sys.(checkpoint := put.value, driver := Advance(plan, n, v))
  }

  function Happens(cfg: Config, plan: Plan, sys: System, hs: seq<Happening>): System
    decreases |hs|
  {
    if hs == [] then sys else Happens(cfg, plan, Happen(cfg, plan, sys, hs[0]), hs[1..])
  }

  /** The step whose request a happening brings to the authority, if any. */
  function StepOf(sys: System, h: Happening): Option<StepName> {
    match h
    case Send(_) => if sys.driver.Ready? then Some(sys.driver.step) else None
    case Late(n, _) => if RequestKey(n) in sys.checkpoint then Some(n) else None
    case _ => None
  }

  function EventOf(plan: Plan, sys: System, h: Happening): Option<Event> {
    match h
    case Foreign(e) => Some(e)
    case Send(env) => if StepOf(sys, h).Some? then Some(OwnEvent(plan, StepOf(sys, h).value, env)) else None
    case Late(_, env) => if StepOf(sys, h).Some? then Some(OwnEvent(plan, StepOf(sys, h).value, env)) else None
    case _ => None
  }

  lemma HappenStore(cfg: Config, plan: Plan, sys: System, h: Happening)
    ensures Happen(cfg, plan, sys, h).store
            == if EventOf(plan, sys, h).Some? then Apply(cfg, sys.store, EventOf(plan, sys, h).value).store else sys.store
  {
    hide Apply, OwnEvent;
  }

  /** An answer to another request, or of another kind than the step's, is never
      saved: it ends the run. */
  lemma WrongAnswerDropped(cfg: Config, plan: Plan, sys: System)
    requires sys.driver.Holding?
    requires var n, v := sys.driver.step, sys.driver.answer;
             || v.requestId.text != plan.tag + "-" + KeyText(n)
             || (n == ProposeStep && !v.Proposed?) || (n == ValidateStep && !v.Validated?) || (n == AdoptStep && !v.Adopted?)
    ensures Happen(cfg, plan, sys, Save) == sys.(driver := Idle)
  {
  }

  /** Others may dispatch anything but adoptions into the driver's series and
      requests under its ids: the driver is the sole one of the series. */
  predicate Apart(plan: Plan, s: Store, e: Event) {
    && (forall n :: e.request.requestId != RequestId(plan, n))
    && !(e.request.AdoptRequest? && e.request.proposalId in s.proposals
         && s.proposals[e.request.proposalId].seriesId == plan.seriesId)
  }

  predicate SoleDriver(cfg: Config, plan: Plan, sys: System, hs: seq<Happening>)
    decreases |hs|
  {
    hs != [] ==>
      && (hs[0].Foreign? ==> Apart(plan, sys.store, hs[0].event))
      && SoleDriver(cfg, plan, Happen(cfg, plan, sys, hs[0]), hs[1..])
  }

  /** Before the first run: none of the three requests was ever answered. */
  ghost predicate Untouched(cfg: Config, plan: Plan, sys: System) {
    && WellFormed(cfg) && Invariant(cfg, sys.store)
    && sys.checkpoint == map[] && sys.driver == Idle
    && (forall n :: RequestId(plan, n) !in sys.store.idempotency)
  }

  // ---------- what one keyed dispatch does ----------

  /** The row the authority keeps for an answered step, and the answer in it. */
  ghost predicate AnsweredBy(cfg: Config, plan: Plan, s: Store, n: StepName, v: Response) {
    && RequestId(plan, n) in s.idempotency
    && Normalize(cfg, RequestOf(plan, n)).Ok?
    && s.idempotency[RequestId(plan, n)]
       == Saved(cfg.hash(RequestDoc(Normalize(cfg, RequestOf(plan, n)).value)), ActorOf(n), ContextOf(ActorOf(n)),
                Some(v), Some(cfg.hash(ResponseDoc(v))))
    && Answers(plan, n, v)
    && (n == ProposeStep ==> ProposalHere(plan, s) && s.proposals[plan.proposalId].expectedGeneration == plan.generation
                             && s.proposals[plan.proposalId].policyDigest
                                == cfg.hash(PolicyDoc(Normalize(cfg, RequestOf(plan, n)).value.policy)))
    && (n == ValidateStep ==> ValidationId(plan) in s.validations
                              && s.validations[ValidationId(plan)].proposalId == plan.proposalId)
    && (n == AdoptStep ==> v.generation == plan.generation + 1)
  }

  predicate ProposalHere(plan: Plan, s: Store) {
    plan.proposalId in s.proposals && s.proposals[plan.proposalId].seriesId == plan.seriesId
  }

  lemma IdsDiffer(plan: Plan, m: StepName, n: StepName)
    requires m != n
    ensures RequestId(plan, m) != RequestId(plan, n)
  {
    assert |RequestId(plan, m).text| != |RequestId(plan, n).text|;
  }

  lemma OnlyOwnId(cfg: Config, s: Store, e: Event, id: Id)
    requires id != e.request.requestId && id !in s.idempotency
    ensures id !in Apply(cfg, s, e).store.idempotency
  {
    hide Propose, Validate, AdoptChecks, CurrentPolicy, ReplayOf, Normalize;
    if Attempt(cfg, s, e.peer, e.request, e.env).Ok? {
      var (actor, r) := Admit(cfg, e.peer, e.request).value;
      assert r.requestId == e.request.requestId by { NormalizeKeepsId(cfg, e.request); }
      OnlyOwnIdWork(cfg, s, r, actor, e.env, id);
    }
  }

  lemma OnlyOwnIdWork(cfg: Config, s: Store, r: Request, actor: Actor, env: Env, id: Id)
    requires id != r.requestId && id !in s.idempotency && Transact(cfg, s, r, actor, env).Ok?
    ensures id !in Transact(cfg, s, r, actor, env).value.store.idempotency
  {
    hide Act, ReplayOf;
    if Now(s, env.clock).Ok? && Act(cfg, s.(lastClock := Now(s, env.clock).value), r, actor, Now(s, env.clock).value, env).Ok? {
      ActKeepsRows(cfg, s.(lastClock := Now(s, env.clock).value), r, actor, Now(s, env.clock).value, env);
    }
  }

  /** A successful first `propose` leaves the plan's proposal in the table. */
  lemma ProposeLeaves(cfg: Config, s: Store, r: Request, now: int)
    requires r.ProposeRequest? && Propose(cfg, s, r, Manager, ContextOf(Manager), now).Ok?
    ensures var c := Propose(cfg, s, r, Manager, ContextOf(Manager), now).value;
            r.proposalId in c.store.proposals && c.response.Proposed?
            && var row := c.store.proposals[r.proposalId];
               row.seriesId == r.seriesId && row.expectedGeneration == r.expectedGeneration
               && row.policyDigest == cfg.hash(PolicyDoc(r.policy))
  {
  }

  lemma ValidateLeaves(cfg: Config, s: Store, r: Request, now: int)
    requires r.ValidateRequest? && Validate(cfg, s, r, Validator, ContextOf(Validator), now).Ok?
    ensures var c := Validate(cfg, s, r, Validator, ContextOf(Validator), now).value;
            c.response.Validated? && r.validationId in c.store.validations
            && c.store.validations[r.validationId].proposalId == r.proposalId
  {
  }

  lemma WorkSaves(cfg: Config, s: Store, r: Request, actor: Actor, env: Env)
    requires !Uncached(cfg, r) && RevokedActor(s, actor) == Ok(false)
    requires r.requestId !in s.idempotency && Transact(cfg, s, r, actor, env).Ok?
    ensures Now(s, env.clock).Ok?
    ensures var t := s.(lastClock := Now(s, env.clock).value);
            Act(cfg, t, r, actor, t.lastClock, env).Ok?
            && var c := Act(cfg, t, r, actor, t.lastClock, env).value;
               var d := Transact(cfg, s, r, actor, env).value;
               d.response == c.response && d.store.proposals == c.store.proposals && d.store.current == c.store.current
               && d.store.validations == c.store.validations
  {
    hide Act;
  }

  lemma FirstAnswer(cfg: Config, plan: Plan, s: Store, n: StepName, env: Env)
    requires WellFormed(cfg) && Invariant(cfg, s)
    requires RequestId(plan, n) !in s.idempotency
    requires Apply(cfg, s, OwnEvent(plan, n, env)).outcome.Ok?
    ensures var a := Apply(cfg, s, OwnEvent(plan, n, env));
            AnsweredBy(cfg, plan, a.store, n, a.outcome.value)
  {
    hide Invariant, Act, Transact, WellFormed;
    var e := OwnEvent(plan, n, env);
    var r := Normalize(cfg, e.request).value;
    NormalizeKeepsId(cfg, e.request);
    var c := Transact(cfg, s, r, ActorOf(n), env).value;
    assert Apply(cfg, s, e) == Step(c.store, Ok(c.response));
    SavedBy(cfg, s, r, ActorOf(n), env);
    ActorFree(cfg, s, r, ActorOf(n), env);
    WorkSaves(cfg, s, r, ActorOf(n), env);
    AnswerKind(cfg, s, r, n, env);
  }

  lemma ActorFree(cfg: Config, s: Store, r: Request, actor: Actor, env: Env)
    requires Transact(cfg, s, r, actor, env).Ok?
    ensures RevokedActor(s, actor) == Ok(false)
  {
  }

  lemma AnswerKind(cfg: Config, s: Store, r: Request, n: StepName, env: Env)
    requires Now(s, env.clock).Ok?
    requires match n case ProposeStep => r.ProposeRequest? case ValidateStep => r.ValidateRequest? case AdoptStep => r.AdoptRequest?
    requires var t := s.(lastClock := Now(s, env.clock).value); Act(cfg, t, r, ActorOf(n), t.lastClock, env).Ok?
    ensures var t := s.(lastClock := Now(s, env.clock).value);
            var c := Act(cfg, t, r, ActorOf(n), t.lastClock, env).value;
            && c.response.requestId == r.requestId
            && (n == ProposeStep ==> c.response.Proposed? && r.proposalId in c.store.proposals
                                     && c.store.proposals[r.proposalId].seriesId == r.seriesId
                                     && c.store.proposals[r.proposalId].expectedGeneration == r.expectedGeneration
                                     && c.store.proposals[r.proposalId].policyDigest == cfg.hash(PolicyDoc(r.policy)))
            && (n == ValidateStep ==> c.response.Validated? && r.validationId in c.store.validations
                                      && c.store.validations[r.validationId].proposalId == r.proposalId)
            && (n == AdoptStep ==> c.response.Adopted? && c.response.generation == r.expectedGeneration + 1)
  {
    hide Propose, Validate, AdoptChecks;
    var t := s.(lastClock := Now(s, env.clock).value);
    AnswersRequest(cfg, t, r, ActorOf(n), env);
    match n
    case ProposeStep => ProposeLeaves(cfg, t, r, t.lastClock);
    case ValidateStep => ValidateLeaves(cfg, t, r, t.lastClock);
    case AdoptStep =>
  }

  /** A keyed step that was answered before gets the same answer again, unless its
      actor was revoked, and either way changes nothing. */
  lemma RepeatedAnswer(cfg: Config, plan: Plan, s: Store, n: StepName, v: Response, env: Env)
    requires WellFormed(cfg) && Invariant(cfg, s) && AnsweredBy(cfg, plan, s, n, v)
    ensures var a := Apply(cfg, s, OwnEvent(plan, n, env));
            a.store == s
            && a.outcome == if ActorEntity(ActorOf(n)) in s.revocations then Err(AUTHORITY_REVOKED) else Ok(v)
  {
    hide Invariant, Transact, Work, WellFormed;
    var e := OwnEvent(plan, n, env);
    var r := Normalize(cfg, e.request).value;
    NormalizeKeepsId(cfg, e.request);
    if ActorEntity(ActorOf(n)) in s.revocations {
      RevokedActorLockedOut(cfg, s, [], e);
    } else {
      ReplaysSaved(cfg, s, r, ActorOf(n), env, v);
    }
  }

  /** How a dispatch moves the generation of one series. */
  lemma GenerationMoves(cfg: Config, s: Store, e: Event, seriesId: Id)
    requires WellFormed(cfg) && Invariant(cfg, s)
    ensures var s' := Apply(cfg, s, e).store;
            if e.request.AdoptRequest? && e.request.requestId !in s.idempotency
               && Apply(cfg, s, e).outcome.Ok? && e.request.proposalId in s.proposals
               && s.proposals[e.request.proposalId].seriesId == seriesId
            then Generation(s, seriesId) == e.request.expectedGeneration && Generation(s', seriesId) == Generation(s, seriesId) + 1
            else Generation(s', seriesId) == Generation(s, seriesId)
  {
    hide Invariant, Transact, WellFormed, ReceiptMatches;
    if Attempt(cfg, s, e.peer, e.request, e.env).Ok? {
      var (actor, r) := Admit(cfg, e.peer, e.request).value;
      NormalizeKeepsId(cfg, e.request);
      TransactShape(cfg, s, r, actor, e.env);
    }
  }

  // ---------- the invariant of the whole system ----------

  ghost predicate RequestsOk(plan: Plan, c: Checkpoint) {
    forall n :: RequestKey(n) in c ==> c[RequestKey(n)] == Sent(PeerOf(n), RequestOf(plan, n))
  }

  /** A request is only checkpointed once the proposal it names was answered. */
  ghost predicate SentOk(plan: Plan, s: Store, c: Checkpoint) {
    forall n :: RequestKey(n) in c ==> n == ProposeStep || ProposalHere(plan, s)
  }

  /** Every saved response is the answer the authority keeps for that step. */
  ghost predicate ResponsesOk(cfg: Config, plan: Plan, s: Store, c: Checkpoint) {
    forall n :: ResponseKey(n) in c ==>
      c[ResponseKey(n)].Received? && AnsweredBy(cfg, plan, s, n, c[ResponseKey(n)].response)
  }

  ghost predicate DriverOk(cfg: Config, plan: Plan, sys: System) {
    match sys.driver
    case Idle => true
    case Running(n) => n == ProposeStep || ProposalHere(plan, sys.store)
    case Ready(n) => n == ProposeStep || ProposalHere(plan, sys.store)
    case Holding(n, v) => ProposalHere(plan, sys.store) && AnsweredBy(cfg, plan, sys.store, n, v)
    case Done(v) => AnsweredBy(cfg, plan, sys.store, AdoptStep, v)
  }

  /** An answered step was answered by the plan's own request. */
  ghost predicate StepsOk(cfg: Config, plan: Plan, s: Store) {
    forall n :: RequestId(plan, n) in s.idempotency ==>
      s.idempotency[RequestId(plan, n)].response.Some?
      && AnsweredBy(cfg, plan, s, n, s.idempotency[RequestId(plan, n)].response.value)
  }

  /** Once the adoption is answered the series stands where the plan wants it. */
  predicate GenerationOk(plan: Plan, s: Store) {
    RequestId(plan, AdoptStep) in s.idempotency ==> Generation(s, plan.seriesId) == plan.generation + 1
  }

  ghost predicate SystemOk(cfg: Config, plan: Plan, sys: System) {
    && Invariant(cfg, sys.store)
    && RequestsOk(plan, sys.checkpoint)
    && SentOk(plan, sys.store, sys.checkpoint)
    && ResponsesOk(cfg, plan, sys.store, sys.checkpoint)
    && DriverOk(cfg, plan, sys)
    && StepsOk(cfg, plan, sys.store)
    && GenerationOk(plan, sys.store)
  }

  lemma AnswerStays(cfg: Config, plan: Plan, s: Store, s': Store, n: StepName, v: Response)
    requires AnsweredBy(cfg, plan, s, n, v) && Extends(s, s')
    ensures AnsweredBy(cfg, plan, s', n, v)
  {
  }

  lemma ResponsesKept(cfg: Config, plan: Plan, s: Store, s': Store, c: Checkpoint)
    requires ResponsesOk(cfg, plan, s, c) && Extends(s, s')
    ensures ResponsesOk(cfg, plan, s', c)
  {
    hide AnsweredBy, Extends;
    forall n | ResponseKey(n) in c ensures AnsweredBy(cfg, plan, s', n, c[ResponseKey(n)].response) {
      AnswerStays(cfg, plan, s, s', n, c[ResponseKey(n)].response);
    }
  }

  lemma StepsKept(cfg: Config, plan: Plan, s: Store, s': Store)
    requires StepsOk(cfg, plan, s) && Extends(s, s')
    requires forall n :: RequestId(plan, n) in s'.idempotency && RequestId(plan, n) !in s.idempotency ==>
               s'.idempotency[RequestId(plan, n)].response.Some?
               && AnsweredBy(cfg, plan, s', n, s'.idempotency[RequestId(plan, n)].response.value)
    ensures StepsOk(cfg, plan, s')
  {
    hide AnsweredBy;
    forall n | RequestId(plan, n) in s.idempotency
      ensures RequestId(plan, n) in s'.idempotency && s'.idempotency[RequestId(plan, n)].response.Some?
              && AnsweredBy(cfg, plan, s', n, s'.idempotency[RequestId(plan, n)].response.value)
    {
      SavedStays(s, s', RequestId(plan, n));
      AnswerStays(cfg, plan, s, s', n, s.idempotency[RequestId(plan, n)].response.value);
    }
  }

  lemma HereStays(plan: Plan, s: Store, s': Store)
    requires ProposalHere(plan, s) && Extends(s, s')
    ensures ProposalHere(plan, s')
  {
  }

  /** What the checkpoint and the client rely on is still there in a later store. */
  lemma HeldStays(cfg: Config, plan: Plan, sys: System, s': Store)
    requires SystemOk(cfg, plan, sys) && Extends(sys.store, s')
    ensures SentOk(plan, s', sys.checkpoint) && ResponsesOk(cfg, plan, s', sys.checkpoint)
    ensures DriverOk(cfg, plan, sys.(store := s'))
  {
    hide Invariant, Extends, RequestsOk, ResponsesOk, StepsOk, GenerationOk, AnsweredBy, ProposalHere;
    var s := sys.store;
    ResponsesKept(cfg, plan, s, s', sys.checkpoint);
    if ProposalHere(plan, s) { HereStays(plan, s, s'); }
    match sys.driver
    case Holding(n, v) => AnswerStays(cfg, plan, s, s', n, v);
    case Done(v) => AnswerStays(cfg, plan, s, s', AdoptStep, v);
    case _ =>
  }

  lemma ForeignKeeps(cfg: Config, plan: Plan, sys: System, e: Event)
    requires WellFormed(cfg) && SystemOk(cfg, plan, sys) && Apart(plan, sys.store, e)
    ensures SystemOk(cfg, plan, Happen(cfg, plan, sys, Foreign(e)))
  {
    hide Invariant, Extends, Dispatch, RequestsOk, SentOk, ResponsesOk, StepsOk, DriverOk, AnsweredBy, WellFormed, Generation;
    hide RequestId;
    var s, s' := sys.store, Apply(cfg, sys.store, e).store;
    DispatchKeepsInvariant(cfg, s, e);
    HeldStays(cfg, plan, sys, s');
    forall n | RequestId(plan, n) !in s.idempotency ensures RequestId(plan, n) !in s'.idempotency {
      OnlyOwnId(cfg, s, e, RequestId(plan, n));
    }
    StepsKept(cfg, plan, s, s');
    GenerationMoves(cfg, s, e, plan.seriesId);
    if RequestId(plan, AdoptStep) in s.idempotency { SavedStays(s, s', RequestId(plan, AdoptStep)); }
  }

  lemma NeedsProposal(cfg: Config, plan: Plan, s: Store, n: StepName, v: Response)
    requires if n == ProposeStep then AnsweredBy(cfg, plan, s, n, v) else ProposalHere(plan, s)
    ensures ProposalHere(plan, s)
  {
  }

  /** The proposal that a request names is the plan's own. */
  predicate MaySend(plan: Plan, s: Store, n: StepName) { n == ProposeStep || ProposalHere(plan, s) }

  lemma StepMaySend(cfg: Config, plan: Plan, sys: System, h: Happening)
    requires SystemOk(cfg, plan, sys) && StepOf(sys, h).Some?
    ensures MaySend(plan, sys.store, StepOf(sys, h).value)
  {
    hide Invariant, RequestsOk, ResponsesOk, StepsOk, GenerationOk, AnsweredBy, ProposalHere;
  }

  /** A step answered before is answered again, or refused, and changes nothing. */
  lemma RepeatIsIdle(cfg: Config, plan: Plan, sys: System, n: StepName, env: Env)
    requires WellFormed(cfg) && SystemOk(cfg, plan, sys) && RequestId(plan, n) in sys.store.idempotency
    ensures var a := Apply(cfg, sys.store, OwnEvent(plan, n, env));
            a.store == sys.store && (a.outcome.Ok? ==> AnsweredBy(cfg, plan, a.store, n, a.outcome.value))
  {
    hide Invariant, Dispatch, RequestsOk, SentOk, ResponsesOk, DriverOk, GenerationOk, AnsweredBy, WellFormed, RequestId;
    RepeatedAnswer(cfg, plan, sys.store, n, sys.store.idempotency[RequestId(plan, n)].response.value, env);
  }

  /** The first answered dispatch of a step: its row is the only new one. */
  lemma FirstKeeps(cfg: Config, plan: Plan, sys: System, n: StepName, env: Env)
    requires WellFormed(cfg) && SystemOk(cfg, plan, sys) && MaySend(plan, sys.store, n)
    requires RequestId(plan, n) !in sys.store.idempotency
    ensures var a := Apply(cfg, sys.store, OwnEvent(plan, n, env));
            SystemOk(cfg, plan, sys.(store := a.store))
            && (a.outcome.Ok? ==> AnsweredBy(cfg, plan, a.store, n, a.outcome.value))
  {
    hide Invariant, Extends, RequestsOk, SentOk, ResponsesOk, StepsOk, DriverOk, AnsweredBy, WellFormed, Generation, RequestId;
    hide Attempt, ProposalHere;
    var s := sys.store;
    var e := OwnEvent(plan, n, env);
    var a := Apply(cfg, s, e);
    DispatchKeepsInvariant(cfg, s, e);
    HeldStays(cfg, plan, sys, a.store);
    GenerationMoves(cfg, s, e, plan.seriesId);
    if a.outcome.Ok? {
      FirstAnswer(cfg, plan, s, n, env);
      AnswerIsSaved(cfg, plan, a.store, n, a.outcome.value);
      forall m | m != n && RequestId(plan, m) !in s.idempotency ensures RequestId(plan, m) !in a.store.idempotency {
        IdsDiffer(plan, m, n);
        OnlyOwnId(cfg, s, e, RequestId(plan, m));
      }
      StepsKept(cfg, plan, s, a.store);
      SentGeneration(cfg, plan, s, n, env);
    }
  }

  /** Any dispatch of a step's request, whether the client waits for it or not. */
  lemma OwnKeeps(cfg: Config, plan: Plan, sys: System, n: StepName, env: Env)
    requires WellFormed(cfg) && SystemOk(cfg, plan, sys) && MaySend(plan, sys.store, n)
    ensures var a := Apply(cfg, sys.store, OwnEvent(plan, n, env));
            SystemOk(cfg, plan, sys.(store := a.store))
            && (a.outcome.Ok? ==> ProposalHere(plan, a.store) && AnsweredBy(cfg, plan, a.store, n, a.outcome.value))
  {
    hide SystemOk, WellFormed, Apply, RequestId, AnsweredBy, Extends;
    var a := Apply(cfg, sys.store, OwnEvent(plan, n, env));
    StoreOk(cfg, plan, sys);
    DispatchKeepsInvariant(cfg, sys.store, OwnEvent(plan, n, env));
    if RequestId(plan, n) in sys.store.idempotency {
      RepeatIsIdle(cfg, plan, sys, n, env);
    } else {
      FirstKeeps(cfg, plan, sys, n, env);
    }
    if a.outcome.Ok? {
      if n != ProposeStep { HereStays(plan, sys.store, a.store); }
      NeedsProposal(cfg, plan, a.store, n, a.outcome.value);
    }
  }

  lemma StoreOk(cfg: Config, plan: Plan, sys: System)
    requires SystemOk(cfg, plan, sys)
    ensures Invariant(cfg, sys.store)
  {
  }

  lemma SendKeeps(cfg: Config, plan: Plan, sys: System, env: Env)
    requires WellFormed(cfg) && SystemOk(cfg, plan, sys) && sys.driver.Ready?
    ensures SystemOk(cfg, plan, Happen(cfg, plan, sys, Send(env)))
  {
    hide Invariant, WellFormed, Apply, RequestsOk, SentOk, ResponsesOk, StepsOk, GenerationOk, AnsweredBy, ProposalHere, OwnEvent;
    StepMaySend(cfg, plan, sys, Send(env));
    OwnKeeps(cfg, plan, sys, sys.driver.step, env);
  }

  lemma AnswerIsSaved(cfg: Config, plan: Plan, s: Store, n: StepName, v: Response)
    requires AnsweredBy(cfg, plan, s, n, v)
    ensures RequestId(plan, n) in s.idempotency && s.idempotency[RequestId(plan, n)].response == Some(v)
  {
  }

  lemma SentGeneration(cfg: Config, plan: Plan, s: Store, n: StepName, env: Env)
    requires WellFormed(cfg) && Invariant(cfg, s) && GenerationOk(plan, s)
    requires RequestId(plan, n) !in s.idempotency && (n == ProposeStep || ProposalHere(plan, s))
    requires Apply(cfg, s, OwnEvent(plan, n, env)).outcome.Ok?
    ensures GenerationOk(plan, Apply(cfg, s, OwnEvent(plan, n, env)).store)
  {
    hide Invariant, Attempt, WellFormed, Generation, AnsweredBy, Extends;
    var e := OwnEvent(plan, n, env);
    var a := Apply(cfg, s, e);
    GenerationMoves(cfg, s, e, plan.seriesId);
    FirstAnswer(cfg, plan, s, n, env);
    AnswerIsSaved(cfg, plan, a.store, n, a.outcome.value);
    DispatchKeepsInvariant(cfg, s, e);
    if n != AdoptStep {
      IdsDiffer(plan, AdoptStep, n);
      if RequestId(plan, AdoptStep) in s.idempotency {
        SavedStays(s, a.store, RequestId(plan, AdoptStep));
      } else {
        OnlyOwnId(cfg, s, e, RequestId(plan, AdoptStep));
      }
    }
  }

  lemma LocalKeeps(cfg: Config, plan: Plan, sys: System, h: Happening)
    requires SystemOk(cfg, plan, sys) && (h.Start? || h.Prepare? || h.Save? || h.Crash?)
    ensures SystemOk(cfg, plan, Happen(cfg, plan, sys, h)) && Happen(cfg, plan, sys, h).store == sys.store
  {
    hide Invariant, StepsOk, GenerationOk, RequestId, AnsweredBy, ProposalHere, RequestOf, PeerOf;
    forall n, v | AnsweredBy(cfg, plan, sys.store, n, v) ensures AnswerFits(plan, sys.store, n, v) {
      AnswerIs(cfg, plan, sys.store, n, v);
    }
  }

  /** What an answer is and leaves, without the row it is kept in. */
  predicate AnswerFits(plan: Plan, s: Store, n: StepName, v: Response) {
    && Answers(plan, n, v)
    && (n == ProposeStep ==> ProposalHere(plan, s))
    && (n == AdoptStep ==> v.generation == plan.generation + 1)
  }

  lemma AnswerIs(cfg: Config, plan: Plan, s: Store, n: StepName, v: Response)
    requires AnsweredBy(cfg, plan, s, n, v)
    ensures AnswerFits(plan, s, n, v)
  {
  }

  lemma HappenKeeps(cfg: Config, plan: Plan, sys: System, h: Happening)
    requires WellFormed(cfg) && SystemOk(cfg, plan, sys)
    requires h.Foreign? ==> Apart(plan, sys.store, h.event)
    ensures SystemOk(cfg, plan, Happen(cfg, plan, sys, h))
  {
    hide SystemOk, WellFormed, Apply, RequestId, OwnEvent;
    match h
    case Foreign(e) => ForeignKeeps(cfg, plan, sys, e);
    case Send(env) => if sys.driver.Ready? { SendKeeps(cfg, plan, sys, env); }
    case Late(n, env) =>
      if RequestKey(n) in sys.checkpoint {
        StepMaySend(cfg, plan, sys, h);
        OwnKeeps(cfg, plan, sys, n, env);
      }
    case _ => LocalKeeps(cfg, plan, sys, h);
  }

  lemma {:induction false} HappensKeep(cfg: Config, plan: Plan, sys: System, hs: seq<Happening>)
    requires WellFormed(cfg) && SystemOk(cfg, plan, sys) && SoleDriver(cfg, plan, sys, hs)
    ensures SystemOk(cfg, plan, Happens(cfg, plan, sys, hs))
    decreases |hs|
  {
    hide SystemOk, WellFormed, Happen, Apart;
    if hs != [] {
      HappenKeeps(cfg, plan, sys, hs[0]);
      HappensKeep(cfg, plan, Happen(cfg, plan, sys, hs[0]), hs[1..]);
    }
  }

  lemma UntouchedOk(cfg: Config, plan: Plan, sys: System)
    requires Untouched(cfg, plan, sys)
    ensures SystemOk(cfg, plan, sys)
  {
    hide Invariant, WellFormed, Generation;
  }

  // ---------- exactly once ----------

  /** How many times a dispatch of the given step changed the authority. */
  function Commits(cfg: Config, plan: Plan, sys: System, hs: seq<Happening>, n: StepName): nat
    decreases |hs|
  {
    if hs == [] then 0
    else
      var next := Happen(cfg, plan, sys, hs[0]);
      (if StepOf(sys, hs[0]) == Some(n) && next.store != sys.store then 1 else 0) + Commits(cfg, plan, next, hs[1..], n)
  }

  lemma StoreGrows(cfg: Config, plan: Plan, sys: System, h: Happening)
    requires WellFormed(cfg) && SystemOk(cfg, plan, sys)
    ensures Extends(sys.store, Happen(cfg, plan, sys, h).store)
  {
    hide SystemOk, Invariant, WellFormed, Happen, Apply, Extends, EventOf;
    ExtendsReflexive(sys.store);
    StoreOk(cfg, plan, sys);
    HappenStore(cfg, plan, sys, h);
    if EventOf(plan, sys, h).Some? { DispatchKeepsInvariant(cfg, sys.store, EventOf(plan, sys, h).value); }
  }

  lemma IdStays(cfg: Config, plan: Plan, sys: System, h: Happening, id: Id)
    requires WellFormed(cfg) && SystemOk(cfg, plan, sys) && id in sys.store.idempotency
    ensures id in Happen(cfg, plan, sys, h).store.idempotency
  {
    hide SystemOk, WellFormed, Happen, Extends;
    StoreGrows(cfg, plan, sys, h);
    SavedStays(sys.store, Happen(cfg, plan, sys, h).store, id);
  }

  /** A change by a step leaves the step answered. */
  lemma CommitAnswers(cfg: Config, plan: Plan, sys: System, h: Happening)
    requires WellFormed(cfg) && SystemOk(cfg, plan, sys) && StepOf(sys, h).Some?
    requires Happen(cfg, plan, sys, h).store != sys.store
    ensures var n := StepOf(sys, h).value;
            RequestId(plan, n) !in sys.store.idempotency
            && RequestId(plan, n) in Happen(cfg, plan, sys, h).store.idempotency
  {
    hide SystemOk, WellFormed, RequestId, Attempt, Invariant, Happen, OwnEvent;
    var n := StepOf(sys, h).value;
    HappenStore(cfg, plan, sys, h);
    if RequestId(plan, n) in sys.store.idempotency {
      RepeatIsIdle(cfg, plan, sys, n, h.env);
    } else {
      StoreOk(cfg, plan, sys);
      FirstAnswer(cfg, plan, sys.store, n, h.env);
    }
  }

  lemma {:induction false} AtMostOnce(cfg: Config, plan: Plan, sys: System, hs: seq<Happening>, n: StepName)
    requires WellFormed(cfg) && SystemOk(cfg, plan, sys) && SoleDriver(cfg, plan, sys, hs)
    ensures Commits(cfg, plan, sys, hs, n) <= 1
    ensures RequestId(plan, n) in sys.store.idempotency ==> Commits(cfg, plan, sys, hs, n) == 0
    decreases |hs|
  {
    hide SystemOk, WellFormed, Happen, RequestId, Apart;
    if hs != [] {
      var next := Happen(cfg, plan, sys, hs[0]);
      HappenKeeps(cfg, plan, sys, hs[0]);
      AtMostOnce(cfg, plan, next, hs[1..], n);
      if StepOf(sys, hs[0]) == Some(n) && next.store != sys.store {
        CommitAnswers(cfg, plan, sys, hs[0]);
      } else if RequestId(plan, n) in sys.store.idempotency {
        IdStays(cfg, plan, sys, hs[0], RequestId(plan, n));
      }
    }
  }

  /** The series moves when the adoption is first answered, from the plan's
      generation to the next one, and at no other time. */
  predicate Tracks(plan: Plan, s: Store, t: Store) {
    var id := RequestId(plan, AdoptStep);
    if id in t.idempotency && id !in s.idempotency
    then Generation(s, plan.seriesId) == plan.generation && Generation(t, plan.seriesId) == plan.generation + 1
    else Generation(t, plan.seriesId) == Generation(s, plan.seriesId) && (id in t.idempotency <==> id in s.idempotency)
  }

  lemma SentTracks(cfg: Config, plan: Plan, sys: System, n: StepName, env: Env)
    requires WellFormed(cfg) && SystemOk(cfg, plan, sys) && MaySend(plan, sys.store, n)
    requires RequestId(plan, n) !in sys.store.idempotency
    ensures Tracks(plan, sys.store, Apply(cfg, sys.store, OwnEvent(plan, n, env)).store)
  {
    hide SystemOk, Invariant, Extends, AnsweredBy, WellFormed, Generation, RequestId, Attempt;
    var s, e := sys.store, OwnEvent(plan, n, env);
    var a := Apply(cfg, s, e);
    StoreOk(cfg, plan, sys);
    GenerationMoves(cfg, s, e, plan.seriesId);
    if a.outcome.Ok? {
      FirstAnswer(cfg, plan, s, n, env);
      AnswerIsSaved(cfg, plan, a.store, n, a.outcome.value);
      if n != AdoptStep {
        IdsDiffer(plan, AdoptStep, n);
        DispatchKeepsInvariant(cfg, s, e);
        if RequestId(plan, AdoptStep) in s.idempotency {
          SavedStays(s, a.store, RequestId(plan, AdoptStep));
        } else {
          OnlyOwnId(cfg, s, e, RequestId(plan, AdoptStep));
        }
      }
    }
  }

  lemma IdsStay(cfg: Config, plan: Plan, sys: System, h: Happening, id: Id)
    requires WellFormed(cfg) && SystemOk(cfg, plan, sys)
    ensures id in sys.store.idempotency ==> id in Happen(cfg, plan, sys, h).store.idempotency
  {
    hide SystemOk, WellFormed, Happen;
    if id in sys.store.idempotency { IdStays(cfg, plan, sys, h, id); }
  }

  lemma HappenTracks(cfg: Config, plan: Plan, sys: System, h: Happening)
    requires WellFormed(cfg) && SystemOk(cfg, plan, sys)
    requires h.Foreign? ==> Apart(plan, sys.store, h.event)
    ensures Tracks(plan, sys.store, Happen(cfg, plan, sys, h).store)
  {
    hide SystemOk, WellFormed, Apply, RequestId, Generation, Happen, OwnEvent;
    HappenStore(cfg, plan, sys, h);
    if h.Foreign? {
      var id := RequestId(plan, AdoptStep);
      StoreOk(cfg, plan, sys);
      GenerationMoves(cfg, sys.store, h.event, plan.seriesId);
      IdsStay(cfg, plan, sys, h, id);
      if id !in sys.store.idempotency { OnlyOwnId(cfg, sys.store, h.event, id); }
    } else if StepOf(sys, h).Some? {
      var n := StepOf(sys, h).value;
      StepMaySend(cfg, plan, sys, h);
      if RequestId(plan, n) in sys.store.idempotency {
        RepeatIsIdle(cfg, plan, sys, n, h.env);
      } else {
        SentTracks(cfg, plan, sys, n, h.env);
      }
    }
  }

  lemma {:induction false} RunTracks(cfg: Config, plan: Plan, sys: System, hs: seq<Happening>)
    requires WellFormed(cfg) && SystemOk(cfg, plan, sys) && SoleDriver(cfg, plan, sys, hs)
    ensures Tracks(plan, sys.store, Happens(cfg, plan, sys, hs).store)
    decreases |hs|
  {
    hide SystemOk, WellFormed, Happen, Apart, RequestId, Generation;
    if hs != [] {
      HappenKeeps(cfg, plan, sys, hs[0]);
      HappenTracks(cfg, plan, sys, hs[0]);
      RunTracks(cfg, plan, Happen(cfg, plan, sys, hs[0]), hs[1..]);
    }
  }

  /** Crashes before sending, after the commit or before the answer is saved, in
      any number and order, with late copies of the client's own requests and any
      dispatches of others in between: each of
      the three steps changes the authority at most once; whatever the
      checkpoint holds for a step is the one answer the authority gave to it;
      and the series either stays where it was, or was at the plan's generation
      and moved by exactly one, as it did whenever the client returns. */
  lemma ExactlyOnce(cfg: Config, plan: Plan, sys: System, hs: seq<Happening>)
    requires Untouched(cfg, plan, sys) && SoleDriver(cfg, plan, sys, hs)
    ensures forall n :: Commits(cfg, plan, sys, hs, n) <= 1
    ensures var end := Happens(cfg, plan, sys, hs);
            var before, after := Generation(sys.store, plan.seriesId), Generation(end.store, plan.seriesId);
            && (forall n :: ResponseKey(n) in end.checkpoint ==>
                  end.checkpoint[ResponseKey(n)].Received?
                  && AnsweredBy(cfg, plan, end.store, n, end.checkpoint[ResponseKey(n)].response))
            && (after == before || (before == plan.generation && after == plan.generation + 1))
            && (end.driver.Done? ==>
                  && before == plan.generation && after == plan.generation + 1
                  && AnsweredBy(cfg, plan, end.store, AdoptStep, end.driver.result)
                  && end.driver.result.generation == plan.generation + 1)
  {
    hide Invariant, WellFormed, Happen, Generation, SoleDriver;
    UntouchedOk(cfg, plan, sys);
    HappensKeep(cfg, plan, sys, hs);
    RunTracks(cfg, plan, sys, hs);
    forall n ensures Commits(cfg, plan, sys, hs, n) <= 1 { AtMostOnce(cfg, plan, sys, hs, n); }
  }

  /** Two answers to the same step, at any two points of a run, are the same. */
  lemma {:induction false} OneAnswerPerStep(cfg: Config, plan: Plan, sys: System, hs: seq<Happening>, n: StepName, v: Response, w: Response)
    requires WellFormed(cfg) && SystemOk(cfg, plan, sys) && SoleDriver(cfg, plan, sys, hs)
    requires AnsweredBy(cfg, plan, sys.store, n, v)
    requires AnsweredBy(cfg, plan, Happens(cfg, plan, sys, hs).store, n, w)
    ensures v == w
    decreases |hs|
  {
    hide SystemOk, WellFormed, Happen, RequestId, Apart;
    if hs != [] {
      var next := Happen(cfg, plan, sys, hs[0]);
      HappenKeeps(cfg, plan, sys, hs[0]);
      StoreGrows(cfg, plan, sys, hs[0]);
      AnswerStays(cfg, plan, sys.store, next.store, n, v);
      OneAnswerPerStep(cfg, plan, next, hs[1..], n, v, w);
    }
  }
}
