/** A client that nothing disturbs gets through, whatever earlier runs have left
    behind: the exactly-once statement is not kept by never finishing. */
module SetupProgress {
  import opened Common
  import opened Adoption
  import opened AdoptionInvariant
  import opened AdoptionSafety
  import opened AdoptionAudit
  import opened SetupDriver
  import opened SetupClient

  // ---------- the order of the steps ----------

  predicate Answered(plan: Plan, s: Store, n: StepName) { RequestId(plan, n) in s.idempotency }

  function StepBefore(n: StepName): StepName { if n == AdoptStep then ValidateStep else ProposeStep }

  predicate Due(plan: Plan, s: Store, n: StepName) { n == ProposeStep || Answered(plan, s, StepBefore(n)) }

  /** A step is reached, sent and answered only after the one before it was answered. */
  predicate OrderOk(plan: Plan, sys: System) {
    && (forall n :: Answered(plan, sys.store, n) ==> Due(plan, sys.store, n))
    && (forall n :: RequestKey(n) in sys.checkpoint ==> Due(plan, sys.store, n))
    && (sys.driver.Running? || sys.driver.Ready? ==> Due(plan, sys.store, sys.driver.step))
  }

  lemma AnswersStay(cfg: Config, plan: Plan, sys: System, h: Happening)
    requires WellFormed(cfg) && SystemOk(cfg, plan, sys)
    ensures forall n :: Answered(plan, sys.store, n) ==> Answered(plan, Happen(cfg, plan, sys, h).store, n)
  {
    hide SystemOk, WellFormed, Happen, RequestId;
    forall n | Answered(plan, sys.store, n) ensures Answered(plan, Happen(cfg, plan, sys, h).store, n) {
      IdStays(cfg, plan, sys, h, RequestId(plan, n));
    }
  }

  lemma StillDue(cfg: Config, plan: Plan, sys: System, h: Happening)
    requires WellFormed(cfg) && SystemOk(cfg, plan, sys)
    ensures forall n :: Due(plan, sys.store, n) ==> Due(plan, Happen(cfg, plan, sys, h).store, n)
  {
    hide SystemOk, WellFormed, Happen, Answered;
    AnswersStay(cfg, plan, sys, h);
  }

  /** Only its own dispatch answers a step. */
  lemma NewAnswer(cfg: Config, plan: Plan, sys: System, h: Happening, n: StepName)
    requires WellFormed(cfg) && SystemOk(cfg, plan, sys) && !Answered(plan, sys.store, n)
    requires h.Foreign? ==> Apart(plan, sys.store, h.event)
    requires StepOf(sys, h) != Some(n)
    ensures !Answered(plan, Happen(cfg, plan, sys, h).store, n)
  {
    hide SystemOk, WellFormed, RequestId, Apply, Happen;
    HappenStore(cfg, plan, sys, h);
    if EventOf(plan, sys, h).Some? {
      if StepOf(sys, h).Some? { IdsDiffer(plan, n, StepOf(sys, h).value); }
      OnlyOwnId(cfg, sys.store, EventOf(plan, sys, h).value, RequestId(plan, n));
    }
  }

  lemma StepDue(plan: Plan, sys: System, h: Happening)
    requires OrderOk(plan, sys) && StepOf(sys, h).Some?
    ensures Due(plan, sys.store, StepOf(sys, h).value)
  {
    hide Due;
  }

  lemma OrderKeeps(cfg: Config, plan: Plan, sys: System, h: Happening)
    requires WellFormed(cfg) && SystemOk(cfg, plan, sys) && OrderOk(plan, sys)
    requires h.Foreign? ==> Apart(plan, sys.store, h.event)
    ensures OrderOk(plan, Happen(cfg, plan, sys, h))
  {
    hide SystemOk, WellFormed, Happen, Apart, Answered, Due, StepOf;
    var next := Happen(cfg, plan, sys, h);
    StillDue(cfg, plan, sys, h);
    forall n | Answered(plan, next.store, n) ensures Due(plan, next.store, n) {
      if StepOf(sys, h) == Some(n) {
        StepDue(plan, sys, h);
      } else if !Answered(plan, sys.store, n) {
        NewAnswer(cfg, plan, sys, h, n);
      }
    }
    NewlySent(cfg, plan, sys, h);
    DriverOrder(cfg, plan, sys, h);
  }

  /** The client checkpoints the request of the step it is at. */
  lemma NewlySent(cfg: Config, plan: Plan, sys: System, h: Happening)
    ensures forall n :: RequestKey(n) in Happen(cfg, plan, sys, h).checkpoint ==>
              RequestKey(n) in sys.checkpoint || sys.driver == Running(n)
  {
    hide Apply, RequestOf, PeerOf, OwnEvent, Advance, Answers;
  }

  /** What the client has in hand was answered. */
  predicate InHand(plan: Plan, sys: System) {
    && (forall n :: ResponseKey(n) in sys.checkpoint && sys.checkpoint[ResponseKey(n)].Received? ==> Answered(plan, sys.store, n))
    && (sys.driver.Holding? ==> Answered(plan, sys.store, sys.driver.step))
  }

  lemma HandKnown(cfg: Config, plan: Plan, sys: System)
    requires SystemOk(cfg, plan, sys)
    ensures InHand(plan, sys)
  {
    hide Invariant, StepsOk, GenerationOk, AnsweredBy, Answered, RequestsOk, ProposalHere;
    forall n, v | AnsweredBy(cfg, plan, sys.store, n, v) ensures Answered(plan, sys.store, n) {
      IsAnswered(cfg, plan, sys.store, n, v);
    }
  }

  /** The client only moves on from a step it has an answer to. */
  lemma DriverMoves(cfg: Config, plan: Plan, sys: System, h: Happening)
    requires InHand(plan, sys)
    ensures var d := Happen(cfg, plan, sys, h).driver;
            d.Running? || d.Ready? ==>
              || d.step == ProposeStep
              || ((sys.driver.Running? || sys.driver.Ready?) && d.step == sys.driver.step)
              || Answered(plan, sys.store, StepBefore(d.step))
  {
    hide RequestId, RequestOf, PeerOf, Apply, Answered, Answers, Put;
    match h {
      case Prepare =>
        if sys.driver.Running? {
          var n := sys.driver.step;
          var put := Put(sys.checkpoint, RequestKey(n), Sent(PeerOf(n), RequestOf(plan, n)));
          if put.Some? { PutKeeps(sys.checkpoint, RequestKey(n), Sent(PeerOf(n), RequestOf(plan, n)), ResponseKey(n)); }
        }
      case _ =>
    }
  }

  lemma PutKeeps(c: Checkpoint, k: CheckKey, p: Payload, other: CheckKey)
    requires Put(c, k, p).Some? && k != other
    ensures (other in Put(c, k, p).value <==> other in c) && (other in c ==> Put(c, k, p).value[other] == c[other])
  {
  }

  lemma DriverOrder(cfg: Config, plan: Plan, sys: System, h: Happening)
    requires WellFormed(cfg) && SystemOk(cfg, plan, sys) && OrderOk(plan, sys)
    ensures var next := Happen(cfg, plan, sys, h);
            next.driver.Running? || next.driver.Ready? ==> Due(plan, next.store, next.driver.step)
  {
    hide SystemOk, WellFormed, Happen, Answered, InHand;
    HandKnown(cfg, plan, sys);
    StillDue(cfg, plan, sys, h);
    DriverMoves(cfg, plan, sys, h);
  }

  lemma IsAnswered(cfg: Config, plan: Plan, s: Store, n: StepName, v: Response)
    requires AnsweredBy(cfg, plan, s, n, v)
    ensures Answered(plan, s, n)
  {
  }

  /** Whatever crashed, arrived late and however often, the steps were answered
      in order. */
  lemma {:induction false} RunsInOrder(cfg: Config, plan: Plan, sys: System, hs: seq<Happening>)
    requires WellFormed(cfg) && SystemOk(cfg, plan, sys) && OrderOk(plan, sys) && SoleDriver(cfg, plan, sys, hs)
    ensures OrderOk(plan, Happens(cfg, plan, sys, hs))
    decreases |hs|
  {
    hide SystemOk, WellFormed, Happen, Apart, OrderOk;
    if hs != [] {
      HappenKeeps(cfg, plan, sys, hs[0]);
      OrderKeeps(cfg, plan, sys, hs[0]);
      RunsInOrder(cfg, plan, Happen(cfg, plan, sys, hs[0]), hs[1..]);
    }
  }

  // ---------- what an undisturbed run writes ----------

  function Normal(cfg: Config, plan: Plan): Policy
    requires cfg.normalize(plan.policy).Some?
  {
    cfg.normalize(plan.policy).value
  }

  function PlanDigest(cfg: Config, plan: Plan): Digest
    requires cfg.normalize(plan.policy).Some?
  {
    cfg.hash(PolicyDoc(Normal(cfg, plan)))
  }

  /** The request as the authority hashes and keeps it. */
  function Kept(cfg: Config, plan: Plan, n: StepName): Request
    requires cfg.normalize(plan.policy).Some?
  {
    if n == ProposeStep
    then ProposeRequest(RequestId(plan, n), plan.proposalId, plan.seriesId, plan.generation, Normal(cfg, plan))
    else RequestOf(plan, n)
  }

  function Row(cfg: Config, plan: Plan, n: StepName, v: Response): Saved
    requires cfg.normalize(plan.policy).Some?
  {
    Saved(cfg.hash(RequestDoc(Kept(cfg, plan, n))), ActorOf(n), ContextOf(ActorOf(n)), Some(v), Some(cfg.hash(ResponseDoc(v))))
  }

  function TheProposal(cfg: Config, plan: Plan, created: int): Proposal
    requires cfg.normalize(plan.policy).Some?
  {
    Proposal(plan.seriesId, plan.generation, Normal(cfg, plan), PlanDigest(cfg, plan), created, Manager,
             ContextOf(Manager), cfg.bootstrapDigest, cfg.validatorDigest)
  }

  function TheValidation(cfg: Config, plan: Plan, s: Store, observed: int): Validation
    requires cfg.normalize(plan.policy).Some?
  {
    Validation(plan.proposalId, PlanDigest(cfg, plan), plan.generation, observed, observed + VALIDATION_TTL, Validator,
               ContextOf(Validator), s.permissionGeneration, cfg.bootstrapDigest, cfg.validatorDigest)
  }

  /** What the clock reads at each of the three calls. */
  function At(envs: StepName -> Env, n: StepName): int { if envs(n).clock.Some? then envs(n).clock.value else -1 }

  /** A proposal or validation left behind is used again, with its own time. */
  function CreatedAt(plan: Plan, s: Store, envs: StepName -> Env): int {
    if plan.proposalId in s.proposals then s.proposals[plan.proposalId].createdAt else At(envs, ProposeStep)
  }

  function ObservedAt(plan: Plan, s: Store, envs: StepName -> Env): int {
    if ValidationId(plan) in s.validations then s.validations[ValidationId(plan)].observedAt else At(envs, ValidateStep)
  }

  /** The answer a step gets when it is dispatched for the first time. */
  function AnswerTo(cfg: Config, plan: Plan, s: Store, envs: StepName -> Env, n: StepName): Response
    requires cfg.normalize(plan.policy).Some?
  {
    var id, digest, observed := RequestId(plan, n), PlanDigest(cfg, plan), ObservedAt(plan, s, envs);
    match n
    case ProposeStep =>
      Proposed(id, plan.proposalId, plan.seriesId, plan.generation, digest, CreatedAt(plan, s, envs))
    case ValidateStep =>
      Validated(id, ValidationId(plan), plan.proposalId, digest, observed, observed + VALIDATION_TTL, Validator,
                ContextOf(Validator), s.permissionGeneration)
    case AdoptStep =>
      Adopted(id, plan.seriesId, plan.generation + 1, plan.proposalId, ValidationId(plan), digest, Normal(cfg, plan),
              At(envs, n), Manager, ContextOf(Manager), plan.generation, s.permissionGeneration, cfg.bootstrapDigest,
              cfg.validatorDigest, Validator, ContextOf(Validator), observed, observed + VALIDATION_TTL)
  }

  // ---------- when nothing stands in the way ----------

  /** The documents still to be written are not too large. */
  ghost predicate Fits(cfg: Config, plan: Plan, s: Store, envs: StepName -> Env)
    requires cfg.normalize(plan.policy).Some?
  {
    && cfg.fits(PolicyDoc(Normal(cfg, plan)))
    && forall n :: !Answered(plan, s, n) ==>
         cfg.fits(RequestDoc(Kept(cfg, plan, n))) && cfg.fits(ResponseDoc(AnswerTo(cfg, plan, s, envs, n)))
  }

  predicate ClocksOk(plan: Plan, s: Store, envs: StepName -> Env) {
    && 0 <= At(envs, ProposeStep) <= At(envs, ValidateStep) <= At(envs, AdoptStep) <= MAX_INTEGER
    && At(envs, ValidateStep) + VALIDATION_TTL <= MAX_INTEGER
    && At(envs, AdoptStep) < ObservedAt(plan, s, envs) + VALIDATION_TTL
    && forall n :: !Answered(plan, s, n) ==> s.lastClock <= At(envs, n)
  }

  /** The series is where the plan starts, and what is already in the tables under
      the plan's ids is the plan's own: proposed in this form under today's
      validator, validated with nothing revoked since. */
  ghost predicate Opens(cfg: Config, plan: Plan, s: Store)
    requires cfg.normalize(plan.policy).Some?
  {
    && 0 <= plan.generation < MAX_INTEGER && Generation(s, plan.seriesId) == plan.generation
    && (plan.proposalId in s.proposals ==>
          var p := s.proposals[plan.proposalId];
          p.seriesId == plan.seriesId && p.expectedGeneration == plan.generation
          && p.policyDigest == PlanDigest(cfg, plan) && p.validatorDigest == cfg.validatorDigest)
    && (ValidationId(plan) in s.validations ==>
          s.validations[ValidationId(plan)].proposalId == plan.proposalId
          && NoLaterRevocation(s, s.validations[ValidationId(plan)]))
  }

  /** Nothing has closed the way: the plan is adopted or its start still stands,
      and neither actor was revoked. */
  ghost predicate Way(cfg: Config, plan: Plan, s: Store) {
    && cfg.normalize(plan.policy).Some?
    && ActorEntity(Manager) !in s.revocations && ActorEntity(Validator) !in s.revocations
    && (Answered(plan, s, AdoptStep) || Opens(cfg, plan, s))
  }

  /** What a run started now needs of the authority, its clock and its limit. */
  ghost predicate Favourable(cfg: Config, plan: Plan, s: Store, envs: StepName -> Env) {
    && Way(cfg, plan, s)
    && (Answered(plan, s, AdoptStep) || (ClocksOk(plan, s, envs) && Fits(cfg, plan, s, envs)))
  }

  // ---------- one dispatch ----------

  /** What the three actions read, written out. */
  ghost predicate Facts(cfg: Config, plan: Plan, s: Store, envs: StepName -> Env) {
    && cfg.normalize(plan.policy).Some? && cfg.fits(PolicyDoc(Normal(cfg, plan)))
    && StoredPolicy(cfg, Normal(cfg, plan), PlanDigest(cfg, plan)) == Ok(Normal(cfg, plan))
    && ClocksOk(plan, s, envs) && 0 <= ObservedAt(plan, s, envs) && ObservedAt(plan, s, envs) + VALIDATION_TTL <= MAX_INTEGER
    && IsUint(CreatedAt(plan, s, envs)) && IsUint(s.permissionGeneration) && -1 <= s.lastClock
    && 0 <= plan.generation < MAX_INTEGER && CurrentGeneration(s, plan.seriesId) == Ok(plan.generation)
    && (plan.proposalId in s.proposals ==>
          s.proposals[plan.proposalId] == TheProposal(cfg, plan, CreatedAt(plan, s, envs)))
    && (ValidationId(plan) in s.validations ==>
          s.validations[ValidationId(plan)] == TheValidation(cfg, plan, s, ObservedAt(plan, s, envs)))
    && ActorEntity(Manager) !in s.revocations && ActorEntity(Validator) !in s.revocations
    && ValidationEntity(ValidationId(plan)) !in s.revocations
    && Key(plan.seriesId, plan.generation + 1) !in s.history
  }

  lemma ProposalIs(cfg: Config, plan: Plan, s: Store)
    requires WellFormed(cfg) && ProposalsOk(cfg, s) && cfg.normalize(plan.policy).Some? && Opens(cfg, plan, s)
    requires plan.proposalId in s.proposals
    ensures s.proposals[plan.proposalId] == TheProposal(cfg, plan, s.proposals[plan.proposalId].createdAt)
    ensures 0 <= s.proposals[plan.proposalId].createdAt <= s.lastClock
  {
    hide NoLaterRevocation, Generation, ValidationId;
    var p := s.proposals[plan.proposalId];
    assert ProposalOk(cfg, s, p);
    assert PolicyDoc(p.policy) == PolicyDoc(Normal(cfg, plan));
  }

  lemma ValidationIs(cfg: Config, plan: Plan, s: Store)
    requires WellFormed(cfg) && EpochOk(s) && ProposalsOk(cfg, s) && ValidationsOk(cfg, s)
    requires cfg.normalize(plan.policy).Some? && Opens(cfg, plan, s) && ValidationId(plan) in s.validations
    ensures var v := s.validations[ValidationId(plan)];
            v == TheValidation(cfg, plan, s, v.observedAt) && 0 <= v.observedAt && v.observedAt + VALIDATION_TTL <= MAX_INTEGER
  {
    hide WellFormed, EpochOk, ProposalsOk, NoLaterRevocation, Generation, ValidationId;
    var v := s.validations[ValidationId(plan)];
    assert ValidationOk(cfg, s, ValidationId(plan), v);
    NoLaterRevocationExact(s, v);
    ProposalIs(cfg, plan, s);
  }

  lemma PolicyReads(cfg: Config, plan: Plan)
    requires WellFormed(cfg) && cfg.normalize(plan.policy).Some? && cfg.fits(PolicyDoc(Normal(cfg, plan)))
    ensures StoredPolicy(cfg, Normal(cfg, plan), PlanDigest(cfg, plan)) == Ok(Normal(cfg, plan))
  {
    assert cfg.normalize(Normal(cfg, plan)) == Some(Normal(cfg, plan));
  }

  lemma TablesRead(cfg: Config, plan: Plan, s: Store)
    requires TablesOk(cfg, s) && cfg.normalize(plan.policy).Some? && Opens(cfg, plan, s)
    ensures IsUint(s.permissionGeneration) && -1 <= s.lastClock <= MAX_INTEGER
    ensures ValidationId(plan) !in s.validations ==> ValidationEntity(ValidationId(plan)) !in s.revocations
    ensures Key(plan.seriesId, plan.generation + 1) !in s.history
    ensures CurrentGeneration(s, plan.seriesId) == Ok(plan.generation)
  {
    hide ProposalsOk, ValidationsOk, CurrentOk, HistoryRowsOk, IntervalOk, NoLaterRevocation, ValidationId;
  }

  lemma NotRevoked(s: Store, v: Validation, id: Id, cfg: Config)
    requires ValidationOk(cfg, s, id, v) && NoLaterRevocation(s, v)
    ensures ValidationEntity(id) !in s.revocations
  {
  }

  /** A proposal under the plan's id, with the time it was made at. */
  lemma ProposalFacts(cfg: Config, plan: Plan, s: Store, envs: StepName -> Env)
    requires WellFormed(cfg) && ProposalsOk(cfg, s) && cfg.normalize(plan.policy).Some?
    requires Opens(cfg, plan, s) && ClocksOk(plan, s, envs) && s.lastClock <= MAX_INTEGER
    ensures IsUint(CreatedAt(plan, s, envs))
    ensures plan.proposalId in s.proposals ==>
              s.proposals[plan.proposalId] == TheProposal(cfg, plan, CreatedAt(plan, s, envs))
  {
    hide WellFormed, ProposalsOk, Opens, ObservedAt, Answered, TheProposal;
    if plan.proposalId in s.proposals { ProposalIs(cfg, plan, s); }
  }

  lemma ValidationFacts(cfg: Config, plan: Plan, s: Store, envs: StepName -> Env)
    requires WellFormed(cfg) && EpochOk(s) && ProposalsOk(cfg, s) && ValidationsOk(cfg, s)
    requires cfg.normalize(plan.policy).Some? && Opens(cfg, plan, s) && ClocksOk(plan, s, envs)
    ensures 0 <= ObservedAt(plan, s, envs) && ObservedAt(plan, s, envs) + VALIDATION_TTL <= MAX_INTEGER
    ensures ValidationId(plan) in s.validations ==>
              s.validations[ValidationId(plan)] == TheValidation(cfg, plan, s, ObservedAt(plan, s, envs))
              && ValidationEntity(ValidationId(plan)) !in s.revocations
  {
    hide WellFormed, EpochOk, ProposalsOk, ValidationOk, Generation, CreatedAt, Answered, TheValidation, ValidationId;
    hide NoLaterRevocation;
    if ValidationId(plan) in s.validations {
      ValidationIs(cfg, plan, s);
      NotRevoked(s, s.validations[ValidationId(plan)], ValidationId(plan), cfg);
    }
  }

  lemma FavourableFacts(cfg: Config, plan: Plan, s: Store, envs: StepName -> Env)
    requires WellFormed(cfg) && Invariant(cfg, s) && Favourable(cfg, plan, s, envs) && !Answered(plan, s, AdoptStep)
    ensures Facts(cfg, plan, s, envs)
  {
    hide WellFormed, EpochOk, ProposalsOk, ValidationsOk, CurrentOk, HistoryRowsOk, HistoryEndsOk, IntervalOk, SavedOk;
    hide StoredPolicy, ValidationId, NoLaterRevocation, Answered, CurrentGeneration, Generation;
    hide TheProposal, TheValidation, CreatedAt, ObservedAt, PlanDigest, Kept, AnswerTo, Normal;
    PolicyReads(cfg, plan);
    TablesRead(cfg, plan, s);
    ProposalFacts(cfg, plan, s, envs);
    ValidationFacts(cfg, plan, s, envs);
  }

  lemma KeptIs(cfg: Config, plan: Plan, n: StepName)
    requires cfg.normalize(plan.policy).Some? && IsUint(plan.generation) && cfg.fits(RequestDoc(Kept(cfg, plan, n)))
    ensures Admit(cfg, PeerOf(n), RequestOf(plan, n)) == Ok((ActorOf(n), Kept(cfg, plan, n)))
    ensures !Uncached(cfg, Kept(cfg, plan, n)) && Kept(cfg, plan, n).requestId == RequestId(plan, n)
  {
    hide RequestId;
  }

  /** An unanswered step whose action succeeds is committed with its answer. */
  lemma StepCommits(cfg: Config, plan: Plan, s: Store, n: StepName, env: Env, t: int, c: Change)
    requires cfg.normalize(plan.policy).Some? && IsUint(plan.generation)
    requires cfg.fits(RequestDoc(Kept(cfg, plan, n))) && cfg.fits(ResponseDoc(c.response))
    requires RequestId(plan, n) !in s.idempotency && ActorEntity(ActorOf(n)) !in s.revocations
    requires env.clock == Some(t) && IsUint(t) && -1 <= s.lastClock <= t
    requires Act(cfg, s.(lastClock := t), Kept(cfg, plan, n), ActorOf(n), t, env) == Ok(c)
    ensures Apply(cfg, s, OwnEvent(plan, n, env))
            == Step(c.store.(idempotency := c.store.idempotency[RequestId(plan, n) := Row(cfg, plan, n, c.response)]), Ok(c.response))
  {
    KeptIs(cfg, plan, n);
    hide Admit, Act, Kept, RequestOf, PeerOf, ActorOf, RequestId, Uncached;
  }

  lemma Proposes(cfg: Config, plan: Plan, s: Store, envs: StepName -> Env)
    requires Facts(cfg, plan, s, envs)
    ensures var t := At(envs, ProposeStep);
            Act(cfg, s.(lastClock := t), Kept(cfg, plan, ProposeStep), Manager, t, envs(ProposeStep))
            == Ok(Change(s.(lastClock := t,
                            proposals := s.proposals[plan.proposalId := TheProposal(cfg, plan, CreatedAt(plan, s, envs))]),
                         AnswerTo(cfg, plan, s, envs, ProposeStep)))
  {
    hide RequestId, StoredPolicy, ValidationId;
    if plan.proposalId in s.proposals {
      assert s.proposals[plan.proposalId := s.proposals[plan.proposalId]] == s.proposals;
    }
  }

  lemma Validates(cfg: Config, plan: Plan, s: Store, envs: StepName -> Env)
    requires Facts(cfg, plan, s, envs) && plan.proposalId in s.proposals
    ensures var t, id := At(envs, ValidateStep), ValidationId(plan);
            Act(cfg, s.(lastClock := t), Kept(cfg, plan, ValidateStep), Validator, t, envs(ValidateStep))
            == Ok(Change(s.(lastClock := t,
                            validations := s.validations[id := TheValidation(cfg, plan, s, ObservedAt(plan, s, envs))]),
                         AnswerTo(cfg, plan, s, envs, ValidateStep)))
  {
    hide RequestId, StoredPolicy, ValidationId;
    if ValidationId(plan) in s.validations {
      assert s.validations[ValidationId(plan) := s.validations[ValidationId(plan)]] == s.validations;
    }
  }

  lemma ChecksPass(cfg: Config, plan: Plan, s: Store, envs: StepName -> Env)
    requires Facts(cfg, plan, s, envs) && plan.proposalId in s.proposals && ValidationId(plan) in s.validations
    ensures var t := At(envs, AdoptStep);
            AdoptChecks(cfg, s.(lastClock := t), RequestOf(plan, AdoptStep), Manager, ContextOf(Manager), t)
            == Ok(Normal(cfg, plan))
  {
    hide RequestId, StoredPolicy, ValidationId;
  }

  lemma Adopts(cfg: Config, plan: Plan, s: Store, envs: StepName -> Env) returns (c: Change)
    requires Facts(cfg, plan, s, envs) && plan.proposalId in s.proposals && ValidationId(plan) in s.validations
    ensures var t := At(envs, AdoptStep);
            Act(cfg, s.(lastClock := t), Kept(cfg, plan, AdoptStep), Manager, t, envs(AdoptStep)) == Ok(c)
    ensures c.response == AnswerTo(cfg, plan, s, envs, AdoptStep) && c.store.revocations == s.revocations
  {
    hide RequestId, StoredPolicy, ValidationId, AdoptChecks;
    ChecksPass(cfg, plan, s, envs);
    var t := At(envs, AdoptStep);
    c := Act(cfg, s.(lastClock := t), Kept(cfg, plan, AdoptStep), Manager, t, envs(AdoptStep)).value;
  }

  // ---------- the store after one dispatch ----------

  /** What a first propose or validate leaves. */
  function Written(cfg: Config, plan: Plan, s: Store, envs: StepName -> Env, n: StepName): Store
    requires cfg.normalize(plan.policy).Some?
  {
    var idempotency := s.idempotency[RequestId(plan, n) := Row(cfg, plan, n, AnswerTo(cfg, plan, s, envs, n))];
    var u := s.(lastClock := At(envs, n), idempotency := idempotency);
    match n
    case ProposeStep =>
      u.(proposals := s.proposals[plan.proposalId := TheProposal(cfg, plan, CreatedAt(plan, s, envs))])
    case ValidateStep =>
      u.(validations := s.validations[ValidationId(plan) := TheValidation(cfg, plan, s, ObservedAt(plan, s, envs))])
    case AdoptStep => u
  }

  /** What the step needs that the steps before it have left. */
  predicate Prepared(plan: Plan, s: Store, n: StepName) {
    && (n != ProposeStep ==> plan.proposalId in s.proposals)
    && (n == AdoptStep ==> ValidationId(plan) in s.validations)
  }

  /** The rest of what a commit needs besides its action. */
  ghost predicate CanCommit(cfg: Config, plan: Plan, s: Store, envs: StepName -> Env, n: StepName) {
    && cfg.normalize(plan.policy).Some? && Facts(cfg, plan, s, envs) && Prepared(plan, s, n) && !Answered(plan, s, n)
    && cfg.fits(RequestDoc(Kept(cfg, plan, n))) && cfg.fits(ResponseDoc(AnswerTo(cfg, plan, s, envs, n)))
    && envs(n).clock == Some(At(envs, n)) && IsUint(At(envs, n)) && -1 <= s.lastClock <= At(envs, n)
    && IsUint(plan.generation) && ActorEntity(ActorOf(n)) !in s.revocations
  }

  ghost predicate Dispatched(cfg: Config, plan: Plan, s: Store, envs: StepName -> Env, n: StepName)
    requires cfg.normalize(plan.policy).Some?
  {
    var a := Apply(cfg, s, OwnEvent(plan, n, envs(n)));
    && a.outcome == Ok(AnswerTo(cfg, plan, s, envs, n))
    && (n != AdoptStep ==> a.store == Written(cfg, plan, s, envs, n))
    && (n == AdoptStep ==> a.store.revocations == s.revocations)
  }

  lemma FirstPropose(cfg: Config, plan: Plan, s: Store, envs: StepName -> Env)
    requires CanCommit(cfg, plan, s, envs, ProposeStep)
    ensures Dispatched(cfg, plan, s, envs, ProposeStep)
  {
    hide Facts, Act, Kept, RequestOf, PeerOf, AnswerTo, Row, Apply, TheProposal, Prepared;
    var n, t := ProposeStep, At(envs, ProposeStep);
    Proposes(cfg, plan, s, envs);
    StepCommits(cfg, plan, s, n, envs(n), t, Act(cfg, s.(lastClock := t), Kept(cfg, plan, n), Manager, t, envs(n)).value);
  }

  lemma FirstValidate(cfg: Config, plan: Plan, s: Store, envs: StepName -> Env)
    requires CanCommit(cfg, plan, s, envs, ValidateStep)
    ensures Dispatched(cfg, plan, s, envs, ValidateStep)
  {
    hide Facts, Act, Kept, RequestOf, PeerOf, AnswerTo, Row, Apply, TheValidation;
    var n, t := ValidateStep, At(envs, ValidateStep);
    Validates(cfg, plan, s, envs);
    StepCommits(cfg, plan, s, n, envs(n), t, Act(cfg, s.(lastClock := t), Kept(cfg, plan, n), Validator, t, envs(n)).value);
  }

  lemma FirstAdopt(cfg: Config, plan: Plan, s: Store, envs: StepName -> Env)
    requires CanCommit(cfg, plan, s, envs, AdoptStep)
    ensures Dispatched(cfg, plan, s, envs, AdoptStep)
  {
    hide Facts, Act, Kept, RequestOf, PeerOf, AnswerTo, Row, Apply;
    var c := Adopts(cfg, plan, s, envs);
    StepCommits(cfg, plan, s, AdoptStep, envs(AdoptStep), At(envs, AdoptStep), c);
  }

  lemma ClockInTables(cfg: Config, s: Store)
    requires Invariant(cfg, s)
    ensures -1 <= s.lastClock
  {
  }

  lemma CommitReady(cfg: Config, plan: Plan, s: Store, envs: StepName -> Env, n: StepName)
    requires WellFormed(cfg) && Invariant(cfg, s) && Favourable(cfg, plan, s, envs)
    requires !Answered(plan, s, n) && !Answered(plan, s, AdoptStep) && Prepared(plan, s, n)
    ensures CanCommit(cfg, plan, s, envs, n)
  {
    hide Invariant, WellFormed, Kept, AnswerTo, Opens, StoredPolicy, Answered, CurrentGeneration, TheProposal, TheValidation, RequestId;
    hide CreatedAt, ObservedAt, Normal, Prepared;
    ClockInTables(cfg, s);
    FavourableFacts(cfg, plan, s, envs);
  }

  lemma FirstDispatch(cfg: Config, plan: Plan, s: Store, envs: StepName -> Env, n: StepName)
    requires WellFormed(cfg) && Invariant(cfg, s) && Favourable(cfg, plan, s, envs)
    requires !Answered(plan, s, n) && !Answered(plan, s, AdoptStep) && Prepared(plan, s, n)
    ensures Dispatched(cfg, plan, s, envs, n)
  {
    CommitReady(cfg, plan, s, envs, n);
    hide *;
    match n
    case ProposeStep => FirstPropose(cfg, plan, s, envs);
    case ValidateStep => FirstValidate(cfg, plan, s, envs);
    case AdoptStep => FirstAdopt(cfg, plan, s, envs);
  }

  lemma SameAnswers(cfg: Config, plan: Plan, s: Store, u: Store, envs: StepName -> Env, n: StepName)
    requires cfg.normalize(plan.policy).Some? && u.permissionGeneration == s.permissionGeneration
    requires CreatedAt(plan, u, envs) == CreatedAt(plan, s, envs) && ObservedAt(plan, u, envs) == ObservedAt(plan, s, envs)
    ensures AnswerTo(cfg, plan, u, envs, n) == AnswerTo(cfg, plan, s, envs, n)
  {
  }

  lemma WrittenClocks(cfg: Config, plan: Plan, s: Store, envs: StepName -> Env, n: StepName)
    requires cfg.normalize(plan.policy).Some? && ClocksOk(plan, s, envs) && n != AdoptStep
    requires !Answered(plan, s, n) && !Answered(plan, s, AdoptStep) && (n == ValidateStep ==> Answered(plan, s, ProposeStep))
    ensures var u := Written(cfg, plan, s, envs, n);
            && ClocksOk(plan, u, envs)
            && CreatedAt(plan, u, envs) == CreatedAt(plan, s, envs) && ObservedAt(plan, u, envs) == ObservedAt(plan, s, envs)
            && (forall m :: Answered(plan, u, m) <==> Answered(plan, s, m) || m == n)
  {
    hide RequestId, ValidationId, Row, AnswerTo;
    forall m ensures Answered(plan, Written(cfg, plan, s, envs, n), m) <==> Answered(plan, s, m) || m == n {
      if m != n { IdsDiffer(plan, m, n); }
    }
  }

  lemma WrittenOpens(cfg: Config, plan: Plan, s: Store, envs: StepName -> Env, n: StepName)
    requires cfg.normalize(plan.policy).Some? && EpochOk(s) && Opens(cfg, plan, s) && n != AdoptStep
    ensures Opens(cfg, plan, Written(cfg, plan, s, envs, n))
  {
    hide RequestId, ValidationId, Row, AnswerTo, Normal;
  }

  /** A step that is taken leaves the rest of the way open. */
  lemma StillFavourable(cfg: Config, plan: Plan, s: Store, envs: StepName -> Env, n: StepName)
    requires EpochOk(s) && Favourable(cfg, plan, s, envs) && n != AdoptStep
    requires !Answered(plan, s, n) && !Answered(plan, s, AdoptStep) && (n == ValidateStep ==> Answered(plan, s, ProposeStep))
    ensures Favourable(cfg, plan, Written(cfg, plan, s, envs, n), envs)
  {
    WrittenClocks(cfg, plan, s, envs, n);
    WrittenOpens(cfg, plan, s, envs, n);
    var u := Written(cfg, plan, s, envs, n);
    assert u.permissionGeneration == s.permissionGeneration && u.revocations == s.revocations;
    hide Written, Opens, ClocksOk, AnswerTo, Answered, EpochOk, Kept, RequestId;
    forall m | !Answered(plan, u, m) ensures cfg.fits(ResponseDoc(AnswerTo(cfg, plan, u, envs, m))) {
      SameAnswers(cfg, plan, s, u, envs, m);
    }
  }

  // ---------- one step of a run that nothing disturbs ----------

  predicate Returned(plan: Plan, d: Driver) { d.Done? && d.result.Adopted? && d.result.generation == plan.generation + 1 }

  /** The client is through with the step. */
  predicate Past(plan: Plan, n: StepName, d: Driver) {
    match n
    case ProposeStep => d == Running(ValidateStep)
    case ValidateStep => d == Running(AdoptStep)
    case AdoptStep => Returned(plan, d)
  }

  lemma AnswerGoesOn(cfg: Config, plan: Plan, s: Store, n: StepName, v: Response)
    requires AnsweredBy(cfg, plan, s, n, v)
    ensures Answers(plan, n, v) && Past(plan, n, Advance(plan, n, v))
  {
  }

  lemma SavedHere(cfg: Config, plan: Plan, sys: System, n: StepName)
    requires SystemOk(cfg, plan, sys) && ResponseKey(n) in sys.checkpoint
    ensures sys.checkpoint[ResponseKey(n)].Received?
    ensures Past(plan, n, Advance(plan, n, sys.checkpoint[ResponseKey(n)].response))
  {
    hide Invariant, StepsOk, GenerationOk, AnsweredBy, RequestsOk, DriverOk, Past, Advance, RequestId, Answers;
    AnswerGoesOn(cfg, plan, sys.store, n, sys.checkpoint[ResponseKey(n)].response);
  }

  lemma SentHere(cfg: Config, plan: Plan, sys: System, n: StepName)
    requires SystemOk(cfg, plan, sys) && RequestKey(n) in sys.checkpoint
    ensures sys.checkpoint[RequestKey(n)] == Sent(PeerOf(n), RequestOf(plan, n))
  {
    hide Invariant, StepsOk, GenerationOk, AnsweredBy, ResponsesOk, DriverOk, RequestOf, PeerOf;
  }

  lemma PrepareGoesOn(cfg: Config, plan: Plan, sys: System, n: StepName)
    requires SystemOk(cfg, plan, sys) && sys.driver == Running(n)
    ensures var next := Happen(cfg, plan, sys, Prepare);
            && next.store == sys.store
            && if ResponseKey(n) in sys.checkpoint then Past(plan, n, next.driver)
               else next.driver == Ready(n) && ResponseKey(n) !in next.checkpoint
  {
    hide SystemOk, RequestOf, PeerOf, Past, Advance;
    if ResponseKey(n) in sys.checkpoint { SavedHere(cfg, plan, sys, n); }
    if RequestKey(n) in sys.checkpoint { SentHere(cfg, plan, sys, n); }
  }

  lemma HeldHere(cfg: Config, plan: Plan, sys: System)
    requires SystemOk(cfg, plan, sys) && sys.driver.Holding?
    ensures AnsweredBy(cfg, plan, sys.store, sys.driver.step, sys.driver.answer)
  {
    hide Invariant, StepsOk, GenerationOk, AnsweredBy, RequestsOk, ResponsesOk, ProposalHere;
  }

  lemma SaveGoesOn(cfg: Config, plan: Plan, sys: System, n: StepName)
    requires SystemOk(cfg, plan, sys) && sys.driver.Holding? && sys.driver.step == n && ResponseKey(n) !in sys.checkpoint
    ensures var next := Happen(cfg, plan, sys, Save); next.store == sys.store && Past(plan, n, next.driver)
  {
    hide SystemOk, AnsweredBy, Answers, Past, Advance, RequestId, Apply, RequestOf, PeerOf;
    HeldHere(cfg, plan, sys);
    AnswerGoesOn(cfg, plan, sys.store, n, sys.driver.answer);
  }

  lemma SavedAnswer(cfg: Config, plan: Plan, sys: System, n: StepName) returns (v: Response)
    requires SystemOk(cfg, plan, sys) && Answered(plan, sys.store, n)
    ensures AnsweredBy(cfg, plan, sys.store, n, v)
  {
    hide Invariant, RequestsOk, ResponsesOk, GenerationOk, RequestId, AnsweredBy, DriverOk;
    v := sys.store.idempotency[RequestId(plan, n)].response.value;
  }

  /** What the steps before this one have left. */
  lemma IsPrepared(cfg: Config, plan: Plan, sys: System, n: StepName)
    requires SystemOk(cfg, plan, sys) && OrderOk(plan, sys) && sys.driver == Ready(n)
    ensures Prepared(plan, sys.store, n)
    ensures n == ValidateStep ==> Answered(plan, sys.store, ProposeStep)
    ensures !Answered(plan, sys.store, n) ==> !Answered(plan, sys.store, AdoptStep)
  {
    hide Invariant, RequestsOk, ResponsesOk, GenerationOk, RequestId, StepsOk, Answered;
    assert StepBefore(AdoptStep) == ValidateStep && StepBefore(ValidateStep) == ProposeStep;
    if n == AdoptStep {
      var v := SavedAnswer(cfg, plan, sys, ValidateStep);
      assert ValidationId(plan) in sys.store.validations;
    }
  }

  lemma AdoptedFavours(cfg: Config, plan: Plan, s: Store, u: Store, envs: StepName -> Env)
    requires Favourable(cfg, plan, s, envs) && u.revocations == s.revocations && Answered(plan, u, AdoptStep)
    ensures Favourable(cfg, plan, u, envs)
  {
  }

  lemma ActorsFree(cfg: Config, plan: Plan, s: Store, envs: StepName -> Env, n: StepName)
    requires Favourable(cfg, plan, s, envs)
    ensures ActorEntity(ActorOf(n)) !in s.revocations
  {
    hide Opens, ClocksOk, Fits, Answered;
  }

  lemma FirstGoesOn(cfg: Config, plan: Plan, s: Store, envs: StepName -> Env, n: StepName)
    requires WellFormed(cfg) && Invariant(cfg, s) && Favourable(cfg, plan, s, envs)
    requires !Answered(plan, s, n) && !Answered(plan, s, AdoptStep) && Prepared(plan, s, n)
    requires n == ValidateStep ==> Answered(plan, s, ProposeStep)
    ensures var a := Apply(cfg, s, OwnEvent(plan, n, envs(n)));
            a.outcome.Ok? && Favourable(cfg, plan, a.store, envs)
  {
    assert cfg.normalize(plan.policy).Some?;
    hide Invariant, WellFormed, Apply, RequestId, Favourable, Written, RequestOf, PeerOf, Prepared, Answered, AnswerTo;
    FirstDispatch(cfg, plan, s, envs, n);
    if n != AdoptStep {
      EpochHere(cfg, s);
      StillFavourable(cfg, plan, s, envs, n);
    } else {
      AdoptAnswers(cfg, plan, s, envs(n));
      AdoptedFavours(cfg, plan, s, Apply(cfg, s, OwnEvent(plan, n, envs(n))).store, envs);
    }
  }

  /** The answer of a step, first or repeated. */
  lemma SendGoesOn(cfg: Config, plan: Plan, sys: System, envs: StepName -> Env, n: StepName)
    requires WellFormed(cfg) && SystemOk(cfg, plan, sys) && OrderOk(plan, sys) && Favourable(cfg, plan, sys.store, envs)
    requires sys.driver == Ready(n)
    ensures var next := Happen(cfg, plan, sys, Send(envs(n)));
            && next.driver.Holding? && next.driver.step == n && next.checkpoint == sys.checkpoint
            && Favourable(cfg, plan, next.store, envs)
  {
    hide Invariant, WellFormed, Apply, RequestId, AnsweredBy, SystemOk, OrderOk, Favourable, RequestOf, PeerOf, Prepared, ActorOf;
    hide Answered;
    StoreOk(cfg, plan, sys);
    IsPrepared(cfg, plan, sys, n);
    ActorsFree(cfg, plan, sys.store, envs, n);
    if Answered(plan, sys.store, n) {
      var v := SavedAnswer(cfg, plan, sys, n);
      RepeatedAnswer(cfg, plan, sys.store, n, v, envs(n));
    } else {
      FirstGoesOn(cfg, plan, sys.store, envs, n);
    }
  }

  lemma EpochHere(cfg: Config, s: Store)
    requires Invariant(cfg, s)
    ensures EpochOk(s)
  {
  }

  lemma AdoptAnswers(cfg: Config, plan: Plan, s: Store, env: Env)
    requires WellFormed(cfg) && Invariant(cfg, s) && !Answered(plan, s, AdoptStep)
    requires Apply(cfg, s, OwnEvent(plan, AdoptStep, env)).outcome.Ok?
    ensures Answered(plan, Apply(cfg, s, OwnEvent(plan, AdoptStep, env)).store, AdoptStep)
  {
    hide Invariant, WellFormed, Apply, RequestId;
    FirstAnswer(cfg, plan, s, AdoptStep, env);
  }

  /** One keyed call that nothing disturbs: whatever an earlier run has saved or
      had answered, the client comes through. */
  lemma StepGoesOn(cfg: Config, plan: Plan, sys: System, envs: StepName -> Env, n: StepName)
    requires WellFormed(cfg) && SystemOk(cfg, plan, sys) && OrderOk(plan, sys) && Favourable(cfg, plan, sys.store, envs)
    requires sys.driver == Running(n)
    ensures var next := Happens(cfg, plan, sys, CallOf(envs, n));
            && SystemOk(cfg, plan, next) && OrderOk(plan, next) && Favourable(cfg, plan, next.store, envs)
            && Past(plan, n, next.driver)
  {
    hide SystemOk, WellFormed, Happen, OrderOk, Favourable;
    var ready := Happen(cfg, plan, sys, Prepare);
    var held := Happen(cfg, plan, ready, Send(envs(n)));
    HappensSingly(cfg, plan, sys, Prepare, Send(envs(n)), Save);
    HappenKeeps(cfg, plan, sys, Prepare);
    OrderKeeps(cfg, plan, sys, Prepare);
    PrepareGoesOn(cfg, plan, sys, n);
    HappenKeeps(cfg, plan, ready, Send(envs(n)));
    OrderKeeps(cfg, plan, ready, Send(envs(n)));
    HappenKeeps(cfg, plan, held, Save);
    OrderKeeps(cfg, plan, held, Save);
    if ResponseKey(n) in sys.checkpoint {
      Rests(cfg, plan, ready, envs(n));
    } else {
      SendGoesOn(cfg, plan, ready, envs, n);
      SaveGoesOn(cfg, plan, held, n);
    }
  }
}
