/** What each kind of request does when it is answered for the first time: when
    it succeeds, what it writes, what it answers, and what follows from that for
    every later request. */
module AdoptionEffects {
  import opened Common
  import opened Adoption
  import opened AdoptionInvariant
  import opened AdoptionSafety
  import opened AdoptionAudit

  /** A request whose id was not answered before. */
  predicate New(s: Store, e: Event) { e.request.requestId !in s.idempotency }

  // ---------- who may send what ----------

  /** The container user each action is reserved for; the candidate has none. */
  predicate UserMaySend(cfg: Config, peer: Peer, r: Request) {
    && peer.uid == peer.gid
    && match r
       case ProposeRequest(_, _, _, _, _) => peer.uid == 12001
       case AdoptRequest(_, _, _, _) => peer.uid == 12001
       case ValidateRequest(_, _, _) => peer.uid == 12003
       case RevokeActorRequest(_, _) => peer.uid == 12004
       case RevokeValidationRequest(_, _) => peer.uid == 12004
       case CurrentRequest(_, _) => peer.uid == 12001 || peer.uid == 12003 || peer.uid == 12004
       case ReceiptRequest(_, _) => peer.uid == 12001 || peer.uid == 12003 || peer.uid == 12004
       case ExtensionRequest(_, action, _) =>
         action in cfg.extensionActions
         && (|| (peer.uid == 12001 && Manager in cfg.extensionActions[action])
             || (peer.uid == 12003 && Validator in cfg.extensionActions[action])
             || (peer.uid == 12004 && Operator in cfg.extensionActions[action]))
  }

  /** The request in its normal form is small enough and in range. */
  ghost predicate WellFormedRequest(cfg: Config, r: Request) {
    match r
    case ProposeRequest(_, _, _, g, p) =>
      0 <= g <= MAX_INTEGER && cfg.normalize(p).Some? && cfg.fits(RequestDoc(r.(policy := cfg.normalize(p).value)))
    case AdoptRequest(_, _, _, g) => 0 <= g <= MAX_INTEGER && cfg.fits(RequestDoc(r))
    case ExtensionRequest(_, action, _) => action in cfg.extensionActions && cfg.fits(RequestDoc(r))
    case _ => cfg.fits(RequestDoc(r))
  }

  /** Exactly these requests reach the tables. */
  lemma AdmitsExactly(cfg: Config, peer: Peer, r: Request)
    ensures Admit(cfg, peer, r).Ok? <==> UserMaySend(cfg, peer, r) && WellFormedRequest(cfg, r)
    ensures Admit(cfg, peer, r).Ok? ==>
              Identity(peer) == Some(Admit(cfg, peer, r).value.0)
              && Admit(cfg, peer, r).value.1
                 == if r.ProposeRequest? then r.(policy := cfg.normalize(r.policy).value) else r
  {
  }

  // ---------- a request answered for the first time ----------

  /** The answer is computed at one reading of the clock, which never runs back;
      the row for the request id is the only other trace of the transaction. */
  lemma FirstWork(cfg: Config, s: Store, e: Event)
    requires New(s, e) && Apply(cfg, s, e).outcome.Ok?
    ensures Admit(cfg, e.peer, e.request).Ok? && e.env.clock.Some?
    ensures var (actor, r), t := Admit(cfg, e.peer, e.request).value, e.env.clock.value;
            && ActorEntity(actor) !in s.revocations
            && s.lastClock <= t && 0 <= t <= MAX_INTEGER
            && var a := Act(cfg, s.(lastClock := t), r, actor, t, e.env);
            && a.Ok? && Apply(cfg, s, e).outcome == Ok(a.value.response)
            && Apply(cfg, s, e).store == a.value.store.(idempotency := Apply(cfg, s, e).store.idempotency)
            && a.value.store.idempotency == s.idempotency
  {
    hide Act;
    var (actor, r) := Admit(cfg, e.peer, e.request).value;
    NormalizeKeepsId(cfg, e.request);
    ActKeepsRows(cfg, s.(lastClock := e.env.clock.value), r, actor, e.env.clock.value, e.env);
  }

  lemma WorkExactly(cfg: Config, s: Store, r: Request, actor: Actor, env: Env)
    requires r.requestId !in s.idempotency && -1 <= s.lastClock <= MAX_INTEGER
    ensures ActorEntity(actor) in s.revocations ==> Transact(cfg, s, r, actor, env).Err?
    ensures ActorEntity(actor) !in s.revocations ==>
              (Transact(cfg, s, r, actor, env).Ok? <==>
                 && env.clock.Some? && s.lastClock <= env.clock.value && 0 <= env.clock.value <= MAX_INTEGER
                 && var a := Act(cfg, s.(lastClock := env.clock.value), r, actor, env.clock.value, env);
                 && a.Ok? && (Uncached(cfg, r) || cfg.fits(ResponseDoc(a.value.response))))
  {
    hide Act;
  }

  /** And exactly then it is answered. */
  lemma AnsweredExactly(cfg: Config, s: Store, e: Event)
    requires Invariant(cfg, s) && New(s, e)
    ensures Apply(cfg, s, e).outcome.Ok? <==>
              && UserMaySend(cfg, e.peer, e.request) && WellFormedRequest(cfg, e.request)
              && var (actor, r) := Admit(cfg, e.peer, e.request).value;
              && ActorEntity(actor) !in s.revocations
              && e.env.clock.Some? && s.lastClock <= e.env.clock.value && 0 <= e.env.clock.value <= MAX_INTEGER
              && var a := Act(cfg, s.(lastClock := e.env.clock.value), r, actor, e.env.clock.value, e.env);
              && a.Ok? && (e.request.CurrentRequest? || Fresh(cfg, e.request) || cfg.fits(ResponseDoc(a.value.response)))
  {
    AdmitsExactly(cfg, e.peer, e.request);
    hide Act, Transact, Admit, UserMaySend, WellFormedRequest;
    ClockHere(cfg, s);
    if Admit(cfg, e.peer, e.request).Ok? {
      var (actor, r) := Admit(cfg, e.peer, e.request).value;
      WorkExactly(cfg, s, r, actor, e.env);
    }
  }

  lemma ClockHere(cfg: Config, s: Store)
    requires Invariant(cfg, s)
    ensures -1 <= s.lastClock <= MAX_INTEGER
  {
  }

  // ---------- propose, validate, adopt ----------

  /** A proposal is for the generation the series is at; proposing the same again
      under its id is no change. */
  lemma ProposesExactly(cfg: Config, s: Store, r: Request, now: int)
    requires WellFormed(cfg) && TablesOk(cfg, s) && r.ProposeRequest?
    ensures Propose(cfg, s, r, Manager, ContextOf(Manager), now).Ok? <==>
              && r.expectedGeneration == Generation(s, r.seriesId) && cfg.fits(PolicyDoc(r.policy))
              && (r.proposalId in s.proposals ==>
                    var p := s.proposals[r.proposalId];
                    p.seriesId == r.seriesId && p.expectedGeneration == r.expectedGeneration && p.policy == r.policy)
  {
    hide EpochOk, ValidationsOk, HistoryRowsOk, HistoryEndsOk, IntervalOk;
    GenerationsPositive(cfg, s);
    if r.proposalId in s.proposals {
      assert ProposalOk(cfg, s, s.proposals[r.proposalId]);
      assert PolicyDoc(s.proposals[r.proposalId].policy) == PolicyDoc(r.policy)
        <==> s.proposals[r.proposalId].policy == r.policy;
    }
  }

  lemma ProposeEffect(cfg: Config, s: Store, e: Event)
    requires New(s, e) && e.request.ProposeRequest? && Apply(cfg, s, e).outcome.Ok?
    ensures e.peer == Peer(12001, 12001) && e.env.clock.Some? && cfg.normalize(e.request.policy).Some?
    ensures var q, t, u := e.request, e.env.clock.value, Apply(cfg, s, e).store;
            var policy := cfg.normalize(q.policy).value;
            var made := Proposal(q.seriesId, q.expectedGeneration, policy, cfg.hash(PolicyDoc(policy)), t, Manager,
                                  ContextOf(Manager), cfg.bootstrapDigest, cfg.validatorDigest);
            var row := if q.proposalId in s.proposals then s.proposals[q.proposalId] else made;
            && u == s.(lastClock := t, idempotency := u.idempotency, proposals := u.proposals)
            && u.proposals == s.proposals[q.proposalId := row]
            && Apply(cfg, s, e).outcome
               == Ok(Proposed(q.requestId, q.proposalId, q.seriesId, q.expectedGeneration, cfg.hash(PolicyDoc(policy)),
                              row.createdAt))
  {
    AdmitsExactly(cfg, e.peer, e.request);
    FirstWork(cfg, s, e);
    hide Apply, Admit;
    assert e.request.proposalId in s.proposals ==>
             s.proposals[e.request.proposalId := s.proposals[e.request.proposalId]] == s.proposals;
  }

  /** A validation is of a proposal made under today's validator; validating it
      again under its id is no change. */
  lemma ValidatesExactly(cfg: Config, s: Store, r: Request, now: int)
    requires TablesOk(cfg, s) && r.ValidateRequest?
    ensures Validate(cfg, s, r, Validator, ContextOf(Validator), now).Ok? <==>
              && r.proposalId in s.proposals && s.proposals[r.proposalId].validatorDigest == cfg.validatorDigest
              && ActorEntity(Validator) !in s.revocations && now + 86400 <= MAX_INTEGER
              && (r.validationId in s.validations ==> s.validations[r.validationId].proposalId == r.proposalId)
  {
    hide EpochOk, CurrentOk, HistoryRowsOk, HistoryEndsOk, IntervalOk;
    EpochInRange(s);
    ClockInRange(s);
    if r.proposalId in s.proposals {
      assert ProposalOk(cfg, s, s.proposals[r.proposalId]);
      GenerationSmall(cfg, s, s.proposals[r.proposalId]);
      if r.validationId in s.validations {
        assert ValidationOk(cfg, s, r.validationId, s.validations[r.validationId]);
      }
    }
  }

  lemma GenerationSmall(cfg: Config, s: Store, p: Proposal)
    requires TablesOk(cfg, s) && ProposalOk(cfg, s, p)
    ensures IsUint(p.expectedGeneration)
  {
  }

  lemma ValidateEffect(cfg: Config, s: Store, e: Event)
    requires New(s, e) && e.request.ValidateRequest? && Apply(cfg, s, e).outcome.Ok?
    ensures e.peer == Peer(12003, 12003) && e.env.clock.Some? && e.request.proposalId in s.proposals
    ensures var q, t, u := e.request, e.env.clock.value, Apply(cfg, s, e).store;
            var p := s.proposals[q.proposalId];
            var made := Validation(q.proposalId, p.policyDigest, p.expectedGeneration, t, t + 86400, Validator,
                                    ContextOf(Validator), s.permissionGeneration, cfg.bootstrapDigest, cfg.validatorDigest);
            var row := if q.validationId in s.validations then s.validations[q.validationId] else made;
            && u == s.(lastClock := t, idempotency := u.idempotency, validations := u.validations)
            && u.validations == s.validations[q.validationId := row]
            && Apply(cfg, s, e).outcome
               == Ok(Validated(q.requestId, q.validationId, q.proposalId, p.policyDigest, row.observedAt, row.expiresAt,
                               Validator, ContextOf(Validator), row.permissionGeneration))
  {
    AdmitsExactly(cfg, e.peer, e.request);
    FirstWork(cfg, s, e);
    hide Apply, Admit;
    assert e.request.validationId in s.validations ==>
             s.validations[e.request.validationId := s.validations[e.request.validationId]] == s.validations;
  }

  function AdoptedRow(s: Store, q: Request, t: int): Adoption
    requires q.AdoptRequest? && q.proposalId in s.proposals
  {
    var p := s.proposals[q.proposalId];
    Adoption(p.seriesId, q.expectedGeneration + 1, q.proposalId, q.validationId, p.policy, p.policyDigest, t, Manager,
             ContextOf(Manager))
  }

  function AdoptedAnswer(cfg: Config, s: Store, q: Request, t: int): Response
    requires q.AdoptRequest? && q.proposalId in s.proposals && q.validationId in s.validations
  {
    var p, v := s.proposals[q.proposalId], s.validations[q.validationId];
    Adopted(q.requestId, p.seriesId, q.expectedGeneration + 1, q.proposalId, q.validationId, p.policyDigest, p.policy, t,
            Manager, ContextOf(Manager), q.expectedGeneration, s.permissionGeneration, cfg.bootstrapDigest,
            cfg.validatorDigest, v.actor, v.context, v.observedAt, v.expiresAt)
  }

  /** The current row of the series is replaced and the same row added to the
      history, at the next generation; nothing else changes. */
  ghost predicate AdoptsInto(cfg: Config, s: Store, q: Request, t: int, u: Store)
    requires q.AdoptRequest? && q.proposalId in s.proposals
  {
    var row := AdoptedRow(s, q, t);
    && u.proposals == s.proposals && u.validations == s.validations && u.revocations == s.revocations
    && u.permissionGeneration == s.permissionGeneration
    && u.current == s.current[row.seriesId := row]
    && u.history == if cfg.keepsHistory then s.history[Key(row.seriesId, row.generation) := row] else s.history
  }

  lemma AdoptEffect(cfg: Config, s: Store, e: Event)
    requires Invariant(cfg, s) && New(s, e) && e.request.AdoptRequest? && Apply(cfg, s, e).outcome.Ok?
    ensures e.peer == Peer(12001, 12001) && e.env.clock.Some?
    ensures MayAdopt(cfg, s, e.request, e.env.clock.value)
    ensures e.request.proposalId in s.proposals && e.request.validationId in s.validations
    ensures var q, t, u := e.request, e.env.clock.value, Apply(cfg, s, e).store;
            && AdoptsInto(cfg, s, q, t, u) && u.lastClock == t
            && Apply(cfg, s, e).outcome == Ok(AdoptedAnswer(cfg, s, q, t))
  {
    AdoptIsAct(cfg, s, e);
    hide *;
    var t := s.(lastClock := e.env.clock.value);
    TablesHere(cfg, s);
    TablesLater(cfg, s, t);
    AdoptsExactly(cfg, t, e.request, t.lastClock);
    AdoptLeaves(cfg, t, e.request, t.lastClock);
    MayStill(cfg, s, t, e.request);
    SameInto(cfg, s, t, e.request, t.lastClock, Adopt(cfg, t, e.request, Manager, ContextOf(Manager), t.lastClock).value.store,
             Apply(cfg, s, e).store);
  }

  lemma SameInto(cfg: Config, s: Store, t: Store, q: Request, now: int, u: Store, w: Store)
    requires t == s.(lastClock := t.lastClock) && w == u.(idempotency := w.idempotency)
    requires q.AdoptRequest? && q.proposalId in s.proposals && q.validationId in s.validations
    requires AdoptsInto(cfg, t, q, now, u)
    ensures AdoptsInto(cfg, s, q, now, w) && AdoptedAnswer(cfg, t, q, now) == AdoptedAnswer(cfg, s, q, now)
  {
  }

  lemma AdoptIsAct(cfg: Config, s: Store, e: Event)
    requires New(s, e) && e.request.AdoptRequest? && Apply(cfg, s, e).outcome.Ok?
    ensures e.peer == Peer(12001, 12001) && e.env.clock.Some? && s.lastClock <= e.env.clock.value <= MAX_INTEGER
    ensures var t := e.env.clock.value;
            var a := Adopt(cfg, s.(lastClock := t), e.request, Manager, ContextOf(Manager), t);
            && a.Ok? && Apply(cfg, s, e).outcome == Ok(a.value.response)
            && Apply(cfg, s, e).store == a.value.store.(idempotency := Apply(cfg, s, e).store.idempotency)
  {
    AdmitsExactly(cfg, e.peer, e.request);
    FirstWork(cfg, s, e);
    hide Apply, Admit, Adopt;
  }

  lemma AdoptLeaves(cfg: Config, s: Store, r: Request, now: int)
    requires TablesOk(cfg, s) && r.AdoptRequest? && Adopt(cfg, s, r, Manager, ContextOf(Manager), now).Ok?
    ensures r.proposalId in s.proposals && r.validationId in s.validations
    ensures var c := Adopt(cfg, s, r, Manager, ContextOf(Manager), now).value;
            AdoptsInto(cfg, s, r, now, c.store) && c.store.lastClock == s.lastClock
            && c.response == AdoptedAnswer(cfg, s, r, now)
  {
    hide AdoptChecks, TablesOk, StoredPolicy;
    ChecksGive(cfg, s, r, now);
    StoredIs(cfg, s, r.proposalId);
  }

  lemma TablesLater(cfg: Config, s: Store, t: Store)
    requires TablesOk(cfg, s) && t == s.(lastClock := t.lastClock) && s.lastClock <= t.lastClock <= MAX_INTEGER
    ensures TablesOk(cfg, t)
  {
    ClockKeeps(cfg, s, t);
  }

  lemma MayStill(cfg: Config, s: Store, t: Store, r: Request)
    requires r.AdoptRequest? && t == s.(lastClock := t.lastClock) && MayAdopt(cfg, t, r, t.lastClock)
    ensures MayAdopt(cfg, s, r, t.lastClock) && r.proposalId in s.proposals && r.validationId in s.validations
  {
  }

  lemma StoredIs(cfg: Config, s: Store, id: Id)
    requires TablesOk(cfg, s)
    ensures id in s.proposals ==>
              StoredPolicy(cfg, s.proposals[id].policy, s.proposals[id].policyDigest) == Ok(s.proposals[id].policy)
  {
    hide EpochOk, ValidationsOk, CurrentOk, HistoryRowsOk, HistoryEndsOk, IntervalOk;
    if id in s.proposals { assert ProposalOk(cfg, s, s.proposals[id]); }
  }

  lemma ChecksGive(cfg: Config, s: Store, r: Request, now: int)
    requires r.AdoptRequest? && AdoptChecks(cfg, s, r, Manager, ContextOf(Manager), now).Ok?
    ensures r.proposalId in s.proposals && r.validationId in s.validations
    ensures StoredPolicy(cfg, s.proposals[r.proposalId].policy, s.proposals[r.proposalId].policyDigest)
            == AdoptChecks(cfg, s, r, Manager, ContextOf(Manager), now)
  {
    hide StoredPolicy, CurrentGeneration;
  }

  // ---------- revocations ----------

  /** Revoking an actor revokes exactly this actor, under the next permission
      generation, and says so. */
  lemma RevokeActorEffect(cfg: Config, s: Store, e: Event)
    requires New(s, e) && e.request.RevokeActorRequest? && Apply(cfg, s, e).outcome.Ok?
    ensures e.peer == Peer(12004, 12004) && e.env.clock.Some? && e.request.target.Named?
    ensures var a, t, g, u := e.request.target.actor, e.env.clock.value, s.permissionGeneration + 1, Apply(cfg, s, e).store;
            && ActorEntity(a) !in s.revocations
            && u == s.(lastClock := t, idempotency := u.idempotency, permissionGeneration := g,
                       revocations := s.revocations[ActorEntity(a) := Revocation(g, t)])
            && Apply(cfg, s, e).outcome == Ok(ActorRevoked(e.request.requestId, a, g, t, Operator))
  {
    AdmitsExactly(cfg, e.peer, e.request);
    FirstWork(cfg, s, e);
    hide Apply, Admit;
  }

  lemma RevokeValidationEffect(cfg: Config, s: Store, e: Event)
    requires New(s, e) && e.request.RevokeValidationRequest? && Apply(cfg, s, e).outcome.Ok?
    ensures e.peer == Peer(12004, 12004) && e.env.clock.Some?
    ensures var id, t, g, u := e.request.validationId, e.env.clock.value, s.permissionGeneration + 1, Apply(cfg, s, e).store;
            && id in s.validations && ValidationEntity(id) !in s.revocations
            && u == s.(lastClock := t, idempotency := u.idempotency, permissionGeneration := g,
                       revocations := s.revocations[ValidationEntity(id) := Revocation(g, t)])
            && Apply(cfg, s, e).outcome == Ok(ValidationRevoked(e.request.requestId, id, g, t))
  {
    AdmitsExactly(cfg, e.peer, e.request);
    FirstWork(cfg, s, e);
    hide Apply, Admit;
  }

  /** When the operator's revocation goes through: the name is known, not revoked
      yet, and generations are left. */
  lemma RevokesExactly(cfg: Config, s: Store, r: Request, now: int, env: Env)
    requires TablesOk(cfg, s) && (r.RevokeActorRequest? || r.RevokeValidationRequest?)
    ensures Act(cfg, s, r, Operator, now, env).Ok? <==>
              && s.permissionGeneration < MAX_INTEGER
              && match r
                 case RevokeActorRequest(_, target) => target.Named? && ActorEntity(target.actor) !in s.revocations
                 case RevokeValidationRequest(_, id) => id in s.validations && ValidationEntity(id) !in s.revocations
  {
    hide ProposalsOk, ValidationsOk, CurrentOk, HistoryRowsOk, HistoryEndsOk, IntervalOk;
    EpochInRange(s);
  }

  /** After a revocation of an actor was answered, every later dispatch of that
      actor fails; and if it was the manager or the validator, nothing is ever
      adopted again. */
  lemma RevokedForGood(cfg: Config, s: Store, e: Event, events: seq<Event>, f: Event)
    requires WellFormed(cfg) && Invariant(cfg, s)
    requires New(s, e) && e.request.RevokeActorRequest? && Apply(cfg, s, e).outcome.Ok?
    ensures e.request.target.Named?
    ensures var t := Run(cfg, Apply(cfg, s, e).store, events);
            && (Identity(f.peer) == Some(e.request.target.actor) ==>
                  Apply(cfg, t, f).outcome.Err? && Apply(cfg, t, f).store == t)
            && (e.request.target.actor == Manager || e.request.target.actor == Validator ==>
                  t.current == s.current && t.history == s.history)
            && (e.request.target.actor == Operator ==> t.permissionGeneration == s.permissionGeneration + 1)
  {
    hide Invariant, WellFormed, Apply, Run;
    RevokeActorEffect(cfg, s, e);
    DispatchKeepsInvariant(cfg, s, e);
    var u := Apply(cfg, s, e).store;
    if Identity(f.peer) == Some(e.request.target.actor) { RevokedActorLockedOut(cfg, u, events, f); }
    if e.request.target.actor == Manager || e.request.target.actor == Validator { AdoptionsFreeze(cfg, u, events); }
    if e.request.target.actor == Operator { RevocationsFreeze(cfg, u, events); }
  }

  predicate RevokesSomething(e: Event) { e.request.RevokeActorRequest? || e.request.RevokeValidationRequest? }

  /** And whoever or whatever was revoked: nothing adopted before is valid at any
      later point. */
  lemma RevocationEndsValidity(cfg: Config, s: Store, e: Event, events: seq<Event>, k: Key, now: int)
    requires WellFormed(cfg) && Invariant(cfg, s)
    requires New(s, e) && RevokesSomething(e) && Apply(cfg, s, e).outcome.Ok? && k in s.history
    ensures var t := Run(cfg, Apply(cfg, s, e).store, events);
            PolicyAt(cfg, t, k.seriesId, k.generation, now).Ok? && !Valid(PolicyAt(cfg, t, k.seriesId, k.generation, now).value)
  {
    hide Invariant, WellFormed, Apply, Run, PolicyAt, TablesOk, NoLaterRevocation, Extends;
    var u := Apply(cfg, s, e).store;
    DispatchKeepsInvariant(cfg, s, e);
    RunKeepsInvariant(cfg, u, events);
    var t := Run(cfg, u, events);
    ExtendsTransitive(s, u, t);
    TablesHere(cfg, s);
    TablesHere(cfg, t);
    var entity: Entity;
    if e.request.RevokeActorRequest? {
      RevokeActorEffect(cfg, s, e);
      entity := ActorEntity(e.request.target.actor);
    } else {
      RevokeValidationEffect(cfg, s, e);
      entity := ValidationEntity(e.request.validationId);
    }
    LaterThanRow(cfg, s, u, t, k, entity);
    ValidExact(cfg, t, k, now);
  }

  lemma TablesHere(cfg: Config, s: Store)
    requires Invariant(cfg, s)
    ensures TablesOk(cfg, s)
  {
  }

  /** A row adopted before a revocation rests on an older validation. */
  lemma LaterThanRow(cfg: Config, s: Store, u: Store, t: Store, k: Key, entity: Entity)
    requires TablesOk(cfg, s) && Extends(s, t) && Extends(u, t) && k in s.history
    requires entity in u.revocations && u.revocations[entity].generation > s.permissionGeneration
    ensures k in t.history && t.history[k] == s.history[k]
    ensures t.history[k].validationId in t.validations
    ensures !NoLaterRevocation(t, t.validations[t.history[k].validationId])
  {
    hide EpochOk, CurrentOk, HistoryEndsOk, IntervalOk, ProposalsOk;
    var row := s.history[k];
    assert RowOk(cfg, s, row);
    assert ValidationOk(cfg, s, row.validationId, s.validations[row.validationId]);
    assert entity in t.revocations && t.revocations[entity] == u.revocations[entity];
  }

  // ---------- reads ----------

  /** A read and an extension write nothing but the clock and the request's row. */
  lemma ReadEffect(cfg: Config, s: Store, e: Event)
    requires New(s, e) && Apply(cfg, s, e).outcome.Ok?
    requires e.request.CurrentRequest? || e.request.ReceiptRequest? || e.request.ExtensionRequest?
    ensures e.env.clock.Some?
    ensures var u := Apply(cfg, s, e).store; u == s.(lastClock := e.env.clock.value, idempotency := u.idempotency)
    ensures e.request.ExtensionRequest? ==> e.env.extension == Apply(cfg, s, e).outcome
  {
    AdmitsExactly(cfg, e.peer, e.request);
    FirstWork(cfg, s, e);
    hide Apply, Admit, CurrentPolicy;
  }

  /** A receipt is given exactly for an answered adoption, and is its answer. */
  lemma ReceiptExactly(cfg: Config, s: Store, r: Request)
    requires SavedOk(cfg, s) && r.ReceiptRequest?
    ensures Receipt(cfg, s, r)
            == if r.adoptionRequestId !in s.idempotency then Err(RECEIPT_MISSING)
               else match s.idempotency[r.adoptionRequestId].response
                    case None => Err(STORAGE_CORRUPT)
                    case Some(v) =>
                      if v.Adopted? then Ok(Change(s, ReceiptView(r.requestId, r.adoptionRequestId, v))) else Err(RECEIPT_INVALID)
  {
  }

  /** At any later point of a run a receipt request for an adoption gets exactly
      the answer it was given, if it gets through at all. */
  lemma ReceiptReturns(cfg: Config, s: Store, e: Event, events: seq<Event>, f: Event)
    requires WellFormed(cfg) && Invariant(cfg, s) && New(s, e) && e.request.AdoptRequest? && Apply(cfg, s, e).outcome.Ok?
    requires f.request.ReceiptRequest? && f.request.adoptionRequestId == e.request.requestId
    ensures Apply(cfg, s, e).outcome.value.Adopted?
    ensures var t := Run(cfg, Apply(cfg, s, e).store, events);
            var view := ReceiptView(f.request.requestId, e.request.requestId, Apply(cfg, s, e).outcome.value);
            && Receipt(cfg, t, f.request) == Ok(Change(t, view))
            && (New(t, f) && Apply(cfg, t, f).outcome.Ok? ==> Apply(cfg, t, f).outcome == Ok(view))
  {
    hide Invariant, WellFormed, Apply, Run, Extends, Receipt;
    var u := Apply(cfg, s, e).store;
    var t := Run(cfg, u, events);
    AdoptSaved(cfg, s, e);
    DispatchKeepsInvariant(cfg, s, e);
    RunKeepsInvariant(cfg, u, events);
    SavedStays(u, t, e.request.requestId);
    SavedHere(cfg, t);
    ReceiptExactly(cfg, t, f.request);
    if New(t, f) && Apply(cfg, t, f).outcome.Ok? {
      AdmitsExactly(cfg, f.peer, f.request);
      FirstWork(cfg, t, f);
      SavedTick(cfg, t, f.env.clock.value);
      ReceiptExactly(cfg, t.(lastClock := f.env.clock.value), f.request);
    }
  }

  lemma SavedHere(cfg: Config, s: Store)
    requires Invariant(cfg, s)
    ensures SavedOk(cfg, s)
  {
  }

  lemma SavedTick(cfg: Config, s: Store, t: int)
    requires SavedOk(cfg, s)
    ensures SavedOk(cfg, s.(lastClock := t))
  {
  }

  lemma AdoptSaved(cfg: Config, s: Store, e: Event)
    requires WellFormed(cfg) && Invariant(cfg, s) && New(s, e) && e.request.AdoptRequest? && Apply(cfg, s, e).outcome.Ok?
    ensures var u := Apply(cfg, s, e).store;
            e.request.requestId in u.idempotency
            && u.idempotency[e.request.requestId].response == Some(Apply(cfg, s, e).outcome.value)
    ensures Apply(cfg, s, e).outcome.value.Adopted?
  {
    hide *;
    AdoptEffect(cfg, s, e);
    AnswerSaved(cfg, s, e);
    AnsweredAdopted(cfg, s, e.request, e.env.clock.value);
  }

  lemma AnsweredAdopted(cfg: Config, s: Store, q: Request, t: int)
    requires q.AdoptRequest? && q.proposalId in s.proposals && q.validationId in s.validations
    ensures AdoptedAnswer(cfg, s, q, t).Adopted?
  {
  }

  lemma AnswerSaved(cfg: Config, s: Store, e: Event)
    requires WellFormed(cfg) && Invariant(cfg, s) && e.request.AdoptRequest? && Apply(cfg, s, e).outcome.Ok?
    ensures var u := Apply(cfg, s, e).store;
            e.request.requestId in u.idempotency
            && u.idempotency[e.request.requestId].response == Some(Apply(cfg, s, e).outcome.value)
  {
    hide Invariant, WellFormed, Transact, Normalize;
    var (actor, r) := Admit(cfg, e.peer, e.request).value;
    NormalizeKeepsId(cfg, e.request);
    SavedBy(cfg, s, r, actor, e.env);
  }

  /** What a `current` dispatch answers, first or repeated: the current row, and
      whether its window is open with nothing revoked since its validation. */
  lemma CurrentAnswers(cfg: Config, s: Store, e: Event)
    requires WellFormed(cfg) && Invariant(cfg, s) && e.request.CurrentRequest? && Apply(cfg, s, e).outcome.Ok?
    ensures e.env.clock.Some?
    ensures e.request.seriesId in s.current ==> s.current[e.request.seriesId].validationId in s.validations
    ensures var id := e.request.seriesId;
            Apply(cfg, s, e).outcome
            == Ok(CurrentView(e.request.requestId,
                              if id !in s.current then Unadopted(id, 0)
                              else
                                var row := s.current[id];
                                var v := s.validations[row.validationId];
                                AdoptedView(id, row.generation, e.env.clock.value < v.observedAt + 86400 && NoLaterRevocation(s, v),
                                            row.policy, row.proposalId, row.validationId, row.policyDigest, row.adoptedAt)))
  {
    CurrentIsView(cfg, s, e);
    ReportReads(cfg, s, e, Apply(cfg, s, e).outcome.value.view);
    TablesHere(cfg, s);
    if e.request.seriesId in s.current {
      CurrentReads(cfg, s, e.request.seriesId, e.env.clock.value);
      CurrentRow(cfg, s, e.request.seriesId);
      CurrentVerdict(cfg, s, e.request.seriesId, e.env.clock.value);
    }
    hide Apply, Invariant, TablesOk, StillValid, WellFormed, NoLaterRevocation;
  }

  lemma CurrentVerdict(cfg: Config, s: Store, seriesId: Id, now: int)
    requires TablesOk(cfg, s) && seriesId in s.current
    ensures var row := s.current[seriesId];
            row.proposalId in s.proposals && row.validationId in s.validations && row.seriesId == seriesId
            && var v := s.validations[row.validationId];
               StillValid(cfg, s, row, s.proposals[row.proposalId], now, true)
               == Ok(now < v.observedAt + 86400 && NoLaterRevocation(s, v))
  {
    hide StillValid, EpochOk, ProposalsOk, ValidationsOk, HistoryRowsOk, HistoryEndsOk, IntervalOk, NoLaterRevocation;
    CurrentRow(cfg, s, seriesId);
    RowNames(cfg, s, s.current[seriesId]);
    VerdictExact(cfg, s, s.current[seriesId], now);
  }

  lemma CurrentIsView(cfg: Config, s: Store, e: Event)
    requires e.request.CurrentRequest? && Apply(cfg, s, e).outcome.Ok? && WellFormed(cfg) && Invariant(cfg, s)
    ensures Apply(cfg, s, e).outcome.value.CurrentView? && Reports(cfg, s, e, Apply(cfg, s, e).outcome.value.view)
  {
    hide TablesOk, CurrentPolicy, WellFormed;
    var (actor, r) := Admit(cfg, e.peer, e.request).value;
    MarkerReplay(cfg, s, r, actor);
  }

  /** After an adoption was answered, a later read of its series that still finds
      its generation reports exactly what was adopted. */
  lemma CurrentReportsAdoption(cfg: Config, s: Store, e: Event, events: seq<Event>, f: Event)
    requires WellFormed(cfg) && Invariant(cfg, s) && New(s, e) && e.request.AdoptRequest? && Apply(cfg, s, e).outcome.Ok?
    requires e.request.proposalId in s.proposals && f.request.CurrentRequest?
    requires f.request.seriesId == s.proposals[e.request.proposalId].seriesId
    requires var t := Run(cfg, Apply(cfg, s, e).store, events);
             Apply(cfg, t, f).outcome.Ok? && Apply(cfg, t, f).outcome.value.CurrentView?
             && Apply(cfg, t, f).outcome.value.view.generation == e.request.expectedGeneration + 1
    ensures e.env.clock.Some?
    ensures var t, p := Run(cfg, Apply(cfg, s, e).store, events), s.proposals[e.request.proposalId];
            var view := Apply(cfg, t, f).outcome.value.view;
            view.AdoptedView?
            && view == AdoptedView(p.seriesId, e.request.expectedGeneration + 1, view.valid, p.policy, e.request.proposalId,
                                   e.request.validationId, p.policyDigest, e.env.clock.value)
  {
    hide Invariant, WellFormed, Apply, Run, MayAdopt, Extends, NoLaterRevocation;
    var u := Apply(cfg, s, e).store;
    var t := Run(cfg, u, events);
    AdoptEffect(cfg, s, e);
    DispatchKeepsInvariant(cfg, s, e);
    RunKeepsInvariant(cfg, u, events);
    CurrentAnswers(cfg, t, f);
    StillThere(u, t, f.request.seriesId);
  }

  lemma StillThere(u: Store, t: Store, id: Id)
    requires Extends(u, t) && id in u.current
    ensures id in t.current && (t.current[id] == u.current[id] || t.current[id].generation > u.current[id].generation)
  {
  }
}
