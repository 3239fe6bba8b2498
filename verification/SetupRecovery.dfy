/** A crash costs a re-run and nothing else: whatever an earlier run was cut short
    in, the next one that is let through returns the one adoption. */
module SetupRecovery {
  import opened Common
  import opened Adoption
  import opened AdoptionInvariant
  import opened AdoptionSafety
  import opened AdoptionAudit
  import opened SetupDriver
  import opened SetupClient
  import opened SetupProgress

  // ---------- whole runs ----------

  lemma StartKeeps(cfg: Config, plan: Plan, sys: System)
    requires WellFormed(cfg) && SystemOk(cfg, plan, sys) && OrderOk(plan, sys) && sys.driver.Idle?
    ensures var start := sys.(driver := Running(ProposeStep)); SystemOk(cfg, plan, start) && OrderOk(plan, start)
  {
    hide SystemOk, WellFormed, OrderOk, Apply;
    HappenKeeps(cfg, plan, sys, Start);
    OrderKeeps(cfg, plan, sys, Start);
  }

  lemma ReturnedMoved(cfg: Config, plan: Plan, sys: System)
    requires SystemOk(cfg, plan, sys) && Returned(plan, sys.driver)
    ensures Generation(sys.store, plan.seriesId) == plan.generation + 1
  {
    hide Invariant, StepsOk, RequestsOk, ResponsesOk, Generation, RequestId;
  }

  /** From any state an earlier run may have left, a run that is not cut short
      returns the adoption, and the series stands at the generation after the
      plan's. */
  lemma RerunAdopts(cfg: Config, plan: Plan, sys: System, envs: StepName -> Env)
    requires WellFormed(cfg) && SystemOk(cfg, plan, sys) && OrderOk(plan, sys) && sys.driver.Idle?
    requires Favourable(cfg, plan, sys.store, envs)
    ensures var end := Happens(cfg, plan, sys, Undisturbed(envs));
            Returned(plan, end.driver) && Generation(end.store, plan.seriesId) == plan.generation + 1
  {
    hide SystemOk, WellFormed, Happen, Happens, OrderOk, Favourable, CallOf, Generation;
    var start := sys.(driver := Running(ProposeStep));
    StartsRun(cfg, plan, sys);
    StartKeeps(cfg, plan, sys);
    var h0, h1, h2 := CallOf(envs, ProposeStep), CallOf(envs, ValidateStep), CallOf(envs, AdoptStep);
    HappensInTurn(cfg, plan, sys, [Start], h0);
    HappensInTurn(cfg, plan, sys, [Start] + h0, h1);
    HappensInTurn(cfg, plan, sys, [Start] + h0 + h1, h2);
    StepGoesOn(cfg, plan, start, envs, ProposeStep);
    StepGoesOn(cfg, plan, Happens(cfg, plan, start, h0), envs, ValidateStep);
    StepGoesOn(cfg, plan, Happens(cfg, plan, Happens(cfg, plan, start, h0), h1), envs, AdoptStep);
    ReturnedMoved(cfg, plan, Happens(cfg, plan, sys, Undisturbed(envs)));
  }

  lemma UntouchedOrder(cfg: Config, plan: Plan, sys: System)
    requires Untouched(cfg, plan, sys)
    ensures OrderOk(plan, sys) && WellFormed(cfg) && sys.driver.Idle?
  {
    hide Invariant, WellFormed, RequestId;
  }

  /** The first run of a plan. */
  lemma CleanRunAdopts(cfg: Config, plan: Plan, sys: System, envs: StepName -> Env)
    requires Untouched(cfg, plan, sys) && Favourable(cfg, plan, sys.store, envs)
    ensures var end := Happens(cfg, plan, sys, Undisturbed(envs));
            Returned(plan, end.driver) && Generation(end.store, plan.seriesId) == plan.generation + 1
  {
    hide SystemOk, OrderOk, Favourable, Untouched, Happens, Undisturbed, Generation, WellFormed, Returned;
    UntouchedOk(cfg, plan, sys);
    UntouchedOrder(cfg, plan, sys);
    RerunAdopts(cfg, plan, sys, envs);
  }

  /** From an empty authority: its size limit has to admit seven documents, and
      its clock must not run back nor past the validation window. */
  lemma FirstAdoption(cfg: Config, plan: Plan, envs: StepName -> Env)
    requires WellFormed(cfg) && plan.generation == 0 && cfg.normalize(plan.policy).Some?
    requires cfg.fits(PolicyDoc(Normal(cfg, plan)))
    requires forall n :: cfg.fits(RequestDoc(Kept(cfg, plan, n)))
    requires forall n :: cfg.fits(ResponseDoc(AnswerTo(cfg, plan, EMPTY, envs, n)))
    requires 0 <= At(envs, ProposeStep) <= At(envs, ValidateStep) <= At(envs, AdoptStep)
    requires At(envs, AdoptStep) < At(envs, ValidateStep) + VALIDATION_TTL <= MAX_INTEGER
    ensures var end := Happens(cfg, plan, System(EMPTY, map[], Idle), Undisturbed(envs));
            Returned(plan, end.driver) && Generation(end.store, plan.seriesId) == 1
  {
    EmptyStoreOk(cfg);
    hide WellFormed, Invariant, Happens, Undisturbed, Kept, AnswerTo, Normal;
    CleanRunAdopts(cfg, plan, System(EMPTY, map[], Idle), envs);
  }

  // ---------- what keeps the way open ----------

  /** The tables a dispatch leaves are those of its action. */
  lemma TablesAfter(cfg: Config, s: Store, r: Request, actor: Actor, env: Env)
    requires Transact(cfg, s, r, actor, env).Ok?
    ensures var u := Transact(cfg, s, r, actor, env).value.store;
            || u == s
            || (Now(s, env.clock).Ok?
                && var t := s.(lastClock := Now(s, env.clock).value);
                   Act(cfg, t, r, actor, t.lastClock, env).Ok?
                   && SameTables(Act(cfg, t, r, actor, t.lastClock, env).value.store, u))
  {
    hide Act;
  }

  predicate SameTables(s: Store, u: Store) {
    && u.proposals == s.proposals && u.validations == s.validations && u.revocations == s.revocations
    && u.permissionGeneration == s.permissionGeneration
  }

  predicate Revokes(r: Request) { r.RevokeActorRequest? || r.RevokeValidationRequest? }

  ghost predicate ProposalsLeft(cfg: Config, s: Store, r: Request, u: Store) {
    forall id :: id in u.proposals ==>
      || (id in s.proposals && u.proposals[id] == s.proposals[id])
      || (r.ProposeRequest? && r.proposalId == id && ProposalFor(cfg, r, u.proposals[id]))
  }

  predicate ProposalFor(cfg: Config, r: Request, p: Proposal)
    requires r.ProposeRequest?
  {
    && p.seriesId == r.seriesId && p.expectedGeneration == r.expectedGeneration
    && p.policyDigest == cfg.hash(PolicyDoc(r.policy)) && p.validatorDigest == cfg.validatorDigest
  }

  ghost predicate ValidationsLeft(s: Store, r: Request, u: Store) {
    forall id :: id in u.validations ==>
      || (id in s.validations && u.validations[id] == s.validations[id])
      || (r.ValidateRequest? && r.validationId == id && u.validations[id].proposalId == r.proposalId
          && u.validations[id].permissionGeneration == s.permissionGeneration)
  }

  /** Only a revocation revokes; a proposal and a validation are only ever
      written by their own request, with its contents. */
  ghost predicate Leaves(cfg: Config, s: Store, r: Request, u: Store) {
    && u.revocations == s.revocations && u.permissionGeneration == s.permissionGeneration
    && ProposalsLeft(cfg, s, r, u) && ValidationsLeft(s, r, u)
  }

  lemma ProposeAdds(cfg: Config, s: Store, r: Request, actor: Actor)
    requires r.ProposeRequest? && Propose(cfg, s, r, actor, ContextOf(actor), s.lastClock).Ok?
    ensures Leaves(cfg, s, r, Propose(cfg, s, r, actor, ContextOf(actor), s.lastClock).value.store)
  {
  }

  lemma ValidateAdds(cfg: Config, s: Store, r: Request, actor: Actor)
    requires r.ValidateRequest? && Validate(cfg, s, r, actor, ContextOf(actor), s.lastClock).Ok?
    ensures Leaves(cfg, s, r, Validate(cfg, s, r, actor, ContextOf(actor), s.lastClock).value.store)
  {
    hide StoredPolicy;
  }

  lemma ActLeaves(cfg: Config, s: Store, r: Request, actor: Actor, env: Env)
    requires Act(cfg, s, r, actor, s.lastClock, env).Ok? && !Revokes(r)
    ensures Leaves(cfg, s, r, Act(cfg, s, r, actor, s.lastClock, env).value.store)
  {
    hide AdoptChecks, CurrentPolicy, Propose, Validate;
    match r
    case ProposeRequest(_, _, _, _, _) => ProposeAdds(cfg, s, r, actor);
    case ValidateRequest(_, _, _) => ValidateAdds(cfg, s, r, actor);
    case _ =>
  }

  lemma DispatchLeaves(cfg: Config, s: Store, e: Event)
    requires Apply(cfg, s, e).outcome.Ok? && !Revokes(e.request)
    ensures Normalize(cfg, e.request).Ok?
    ensures Leaves(cfg, s, Normalize(cfg, e.request).value, Apply(cfg, s, e).store)
  {
    hide Transact, Act, Normalize;
    var (actor, r) := Admit(cfg, e.peer, e.request).value;
    NormalizeKeepsId(cfg, e.request);
    TablesAfter(cfg, s, r, actor, e.env);
    if Transact(cfg, s, r, actor, e.env).value.store != s {
      ActLeaves(cfg, s.(lastClock := Now(s, e.env.clock).value), r, actor, e.env);
    }
  }

  /** What a dispatch must not do: revoke, or use the plan's ids for another
      proposal or validation. */
  predicate Harmless(plan: Plan, r: Request) {
    && !Revokes(r)
    && (r.ProposeRequest? && r.proposalId == plan.proposalId ==> r == RequestOf(plan, ProposeStep))
    && (r.ValidateRequest? && r.validationId == ValidationId(plan) ==> r.proposalId == plan.proposalId)
  }

  lemma OpensKept(cfg: Config, plan: Plan, s: Store, e: Event)
    requires EpochOk(s) && Harmless(plan, e.request)
    ensures Apply(cfg, s, e).store.revocations == s.revocations
    ensures cfg.normalize(plan.policy).Some? && Opens(cfg, plan, s)
            && Generation(Apply(cfg, s, e).store, plan.seriesId) == Generation(s, plan.seriesId)
            ==> Opens(cfg, plan, Apply(cfg, s, e).store)
  {
    hide Attempt, ValidationId, Generation, EpochOk, NoLaterRevocation;
    var u := Apply(cfg, s, e).store;
    if Apply(cfg, s, e).outcome.Ok? {
      DispatchLeaves(cfg, s, e);
      if cfg.normalize(plan.policy).Some? && Opens(cfg, plan, s) && ValidationId(plan) in u.validations {
        NothingLater(s, u, u.validations[ValidationId(plan)]);
      }
    }
  }

  lemma NothingLater(s: Store, u: Store, v: Validation)
    requires EpochOk(s) && u.revocations == s.revocations
    requires NoLaterRevocation(s, v) || v.permissionGeneration == s.permissionGeneration
    ensures NoLaterRevocation(u, v)
  {
  }

  lemma OwnHarmless(plan: Plan, n: StepName)
    ensures Harmless(plan, RequestOf(plan, n))
  {
    hide RequestId, ValidationId;
  }

  /** No dispatch of the client, and no harmless one of others, closes the way. */
  lemma WayKept(cfg: Config, plan: Plan, sys: System, h: Happening)
    requires WellFormed(cfg) && SystemOk(cfg, plan, sys) && Way(cfg, plan, sys.store)
    requires h.Foreign? ==> Apart(plan, sys.store, h.event) && Harmless(plan, h.event.request)
    ensures Way(cfg, plan, Happen(cfg, plan, sys, h).store)
  {
    HappenTracks(cfg, plan, sys, h);
    AnswersStay(cfg, plan, sys, h);
    StoreOk(cfg, plan, sys);
    EpochHere(cfg, sys.store);
    hide SystemOk, WellFormed, Apart, Harmless, Opens, Generation, RequestId, Apply, Invariant, EpochOk, RequestOf, PeerOf, Happen;
    HappenStore(cfg, plan, sys, h);
    if StepOf(sys, h).Some? { OwnHarmless(plan, StepOf(sys, h).value); }
    if EventOf(plan, sys, h).Some? { OpensKept(cfg, plan, sys.store, EventOf(plan, sys, h).value); }
  }

  // ---------- recovery from crashes ----------

  /** Others may dispatch what they like but what is the client's own business. */
  predicate Quiet(cfg: Config, plan: Plan, sys: System, hs: seq<Happening>)
    decreases |hs|
  {
    hs != [] ==>
      && (hs[0].Foreign? ==> Apart(plan, sys.store, hs[0].event) && Harmless(plan, hs[0].event.request))
      && Quiet(cfg, plan, Happen(cfg, plan, sys, hs[0]), hs[1..])
  }

  lemma {:induction false} QuietKeeps(cfg: Config, plan: Plan, sys: System, hs: seq<Happening>)
    requires WellFormed(cfg) && SystemOk(cfg, plan, sys) && OrderOk(plan, sys) && Way(cfg, plan, sys.store)
    requires Quiet(cfg, plan, sys, hs)
    ensures var end := Happens(cfg, plan, sys, hs);
            SystemOk(cfg, plan, end) && OrderOk(plan, end) && Way(cfg, plan, end.store)
    decreases |hs|
  {
    hide SystemOk, WellFormed, Happen, Apart, OrderOk, Way, Harmless;
    if hs != [] {
      HappenKeeps(cfg, plan, sys, hs[0]);
      OrderKeeps(cfg, plan, sys, hs[0]);
      WayKept(cfg, plan, sys, hs[0]);
      QuietKeeps(cfg, plan, Happen(cfg, plan, sys, hs[0]), hs[1..]);
    }
  }

  lemma CrashIs(cfg: Config, plan: Plan, sys: System)
    ensures Happen(cfg, plan, sys, Crash) == sys.(driver := Idle)
  {
  }

  /** However often earlier runs crashed and wherever, and whatever of theirs
      arrived late: as long as nothing was revoked and nobody else adopted into
      the series or took the plan's ids, the next run that is not cut short
      returns the adoption, unless its clock runs back, the validation it has to
      use has expired, or a document it still has to write is too large. */
  lemma CrashedRunRecovers(cfg: Config, plan: Plan, sys: System, hs: seq<Happening>, envs: StepName -> Env)
    requires Untouched(cfg, plan, sys) && Way(cfg, plan, sys.store) && Quiet(cfg, plan, sys, hs)
    requires var s := Happens(cfg, plan, sys, hs).store;
             Answered(plan, s, AdoptStep) || (ClocksOk(plan, s, envs) && Fits(cfg, plan, s, envs))
    ensures var end := Happens(cfg, plan, sys, hs + [Crash] + Undisturbed(envs));
            Returned(plan, end.driver) && Generation(end.store, plan.seriesId) == plan.generation + 1
  {
    hide SystemOk, WellFormed, Happen, Happens, OrderOk, Way, ClocksOk, Fits, Answered, Quiet, Untouched;
    hide Undisturbed, Generation, Returned;
    UntouchedOk(cfg, plan, sys);
    UntouchedOrder(cfg, plan, sys);
    QuietKeeps(cfg, plan, sys, hs);
    var cut := Happens(cfg, plan, sys, hs);
    CrashIs(cfg, plan, cut);
    HappenKeeps(cfg, plan, cut, Crash);
    OrderKeeps(cfg, plan, cut, Crash);
    HappensSingly(cfg, plan, cut, Crash, Crash, Crash);
    HappensInTurn(cfg, plan, sys, hs, [Crash]);
    HappensInTurn(cfg, plan, sys, hs + [Crash], Undisturbed(envs));
    RerunAdopts(cfg, plan, cut.(driver := Idle), envs);
  }
}
