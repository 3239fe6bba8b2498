/** The adoption store as the object the broker holds: tables updated in place
    inside a transaction that is rolled back on any error. */
module AdoptionStore {
  import opened Common
  import opened Adoption

  class AdoptionStore {
    const cfg: Config
    var lastClock: int
    var permissionGeneration: int
    var proposals: map<Id, Proposal>
    var validations: map<Id, Validation>
    var current: map<Id, Adoption>
    var revocations: map<Entity, Revocation>
    var idempotency: map<Id, Saved>
    var history: map<Key, Adoption>

    /** The tables as one value. */
    function Tables(): Store
      reads this
    {
      Store(lastClock, permissionGeneration, proposals, validations, current, revocations, idempotency, history)
    }

    constructor (cfg: Config)
      ensures this.cfg == cfg && Tables() == EMPTY
    {
      this.cfg := cfg;
      lastClock, permissionGeneration := -1, 0;
      proposals, validations, current, revocations, idempotency, history := map[], map[], map[], map[], map[], map[];
    }

    method ReadClock(clock: Option<int>) returns (out: Outcome<int>)
      modifies this`lastClock
      ensures out == Now(old(Tables()), clock)
      ensures Tables() == if out.Ok? then old(Tables()).(lastClock := out.value) else old(Tables())
    {
      if clock.None? || clock.value < 0 || clock.value > MAX_INTEGER { return Err(CLOCK_UNAVAILABLE); }
      if lastClock < -1 || lastClock > MAX_INTEGER { return Err(STORAGE_CORRUPT); }
      if clock.value < lastClock { return Err(CLOCK_ROLLBACK); }
      lastClock := clock.value;
      return Ok(clock.value);
    }

    method ProposePolicy(r: Request, actor: Actor, context: Context, now: int) returns (out: Outcome<Response>)
      requires r.ProposeRequest?
      modifies this`proposals
      ensures match Propose(cfg, old(Tables()), r, actor, context, now)
              case Ok(c) => out == Ok(c.response) && Tables() == c.store
              case Err(e) => out == Err(e)
    {
      var generation :- CurrentGeneration(Tables(), r.seriesId);
      if r.expectedGeneration != generation { return Err(GENERATION_CONFLICT); }
      var digest :- DigestOf(cfg, PolicyDoc(r.policy));
      var createdAt := now;
      if r.proposalId in proposals {
        var row := proposals[r.proposalId];
        if row.seriesId != r.seriesId || row.expectedGeneration != r.expectedGeneration
           || row.policyDigest != digest || row.actor != actor || row.context != context {
          return Err(PROPOSAL_CONFLICT);
        }
        createdAt := row.createdAt;
      } else {
        proposals := proposals[r.proposalId := Proposal(r.seriesId, r.expectedGeneration, r.policy, digest, now,
                                                        actor, context, cfg.bootstrapDigest, cfg.validatorDigest)];
      }
      return Ok(Proposed(r.requestId, r.proposalId, r.seriesId, r.expectedGeneration, digest, createdAt));
    }

    method ValidateProposal(r: Request, actor: Actor, context: Context, now: int) returns (out: Outcome<Response>)
      requires r.ValidateRequest?
      modifies this`validations
      ensures match Validate(cfg, old(Tables()), r, actor, context, now)
              case Ok(c) => out == Ok(c.response) && Tables() == c.store
              case Err(e) => out == Err(e)
    {
      if r.proposalId !in proposals { return Err(PROPOSAL_MISSING); }
      var proposal := proposals[r.proposalId];
      if !IsUint(proposal.expectedGeneration) || !IsUint(proposal.createdAt) { return Err(STORAGE_CORRUPT); }
      if proposal.bootstrapDigest != cfg.bootstrapDigest || proposal.validatorDigest != cfg.validatorDigest {
        return Err(PROPOSAL_STALE);
      }
      var _ :- StoredPolicy(cfg, proposal.policy, proposal.policyDigest);
      var revoked :- RevokedActor(Tables(), actor);
      if revoked { return Err(AUTHORITY_REVOKED); }
      var permission :- PermissionGeneration(Tables());
      var expiresAt := now + VALIDATION_TTL;
      if expiresAt > MAX_INTEGER { return Err(INVALID_TIME); }
      if r.validationId in validations {
        var row := validations[r.validationId];
        if row.proposalId != r.proposalId || row.proposalDigest != proposal.policyDigest
           || row.actor != actor || row.context != context {
          return Err(VALIDATION_CONFLICT);
        }
      } else {
        validations := validations[r.validationId :=
          Validation(r.proposalId, proposal.policyDigest, proposal.expectedGeneration, now, expiresAt, actor, context,
                     permission, cfg.bootstrapDigest, cfg.validatorDigest)];
      }
      var row := validations[r.validationId];
      return Ok(Validated(r.requestId, r.validationId, r.proposalId, proposal.policyDigest, row.observedAt,
                          row.expiresAt, actor, context, row.permissionGeneration));
    }

    /** The current row is replaced before the history row is inserted: a key
        already there fails the transaction half-way. */
    method AdoptProposal(r: Request, actor: Actor, context: Context, now: int) returns (out: Outcome<Response>)
      requires r.AdoptRequest?
      modifies this`current, this`history
      ensures match Adopt(cfg, old(Tables()), r, actor, context, now)
              case Ok(c) => out == Ok(c.response) && Tables() == c.store
              case Err(e) => out == Err(e)
    {
      hide CurrentGeneration, PermissionGeneration, RevokedActor, StoredPolicy;
      if r.proposalId !in proposals { return Err(PROPOSAL_MISSING); }
      if r.validationId !in validations { return Err(VALIDATION_MISSING); }
      var proposal := proposals[r.proposalId];
      var validation := validations[r.validationId];
      if !IsUint(validation.expectedGeneration) || !WindowOk(validation) { return Err(STORAGE_CORRUPT); }
      var generation :- CurrentGeneration(Tables(), proposal.seriesId);
      if r.expectedGeneration != generation || r.expectedGeneration != proposal.expectedGeneration
         || validation.expectedGeneration != r.expectedGeneration {
        return Err(GENERATION_CONFLICT);
      }
      if proposal.actor != actor || proposal.context != context { return Err(AUTHORITY_DENIED); }
      if validation.proposalId != r.proposalId || validation.proposalDigest != proposal.policyDigest {
        return Err(VALIDATION_CONFLICT);
      }
      if proposal.bootstrapDigest != cfg.bootstrapDigest || proposal.validatorDigest != cfg.validatorDigest
         || validation.bootstrapDigest != cfg.bootstrapDigest || validation.validatorDigest != cfg.validatorDigest {
        return Err(PROPOSAL_STALE);
      }
      if ValidationEntity(r.validationId) in revocations { return Err(VALIDATION_REVOKED); }
      var permission :- PermissionGeneration(Tables());
      if validation.permissionGeneration != permission { return Err(AUTHORITY_REVOKED); }
      var revoked :- RevokedActor(Tables(), validation.actor);
      if revoked { return Err(AUTHORITY_REVOKED); }
      if now >= validation.expiresAt { return Err(VALIDATION_EXPIRED); }
      var policy :- StoredPolicy(cfg, proposal.policy, proposal.policyDigest);
      if generation >= MAX_INTEGER { return Err(GENERATION_EXHAUSTED); }
      generation := generation + 1;
      var row := Adoption(proposal.seriesId, generation, r.proposalId, r.validationId, policy, proposal.policyDigest,
                          now, actor, context);
      current := current[proposal.seriesId := row];
      if cfg.keepsHistory {
        if Key(proposal.seriesId, generation) in history { return Err(STORAGE_CORRUPT); }
        history := history[Key(proposal.seriesId, generation) := row];
      }
      return Ok(Adopted(r.requestId, proposal.seriesId, generation, r.proposalId, r.validationId,
                        proposal.policyDigest, policy, now, actor, context, r.expectedGeneration,
                        permissionGeneration, cfg.bootstrapDigest, cfg.validatorDigest, validation.actor,
                        validation.context, validation.observedAt, validation.expiresAt));
    }

    method RevokeEntity(entity: Entity, now: int) returns (out: Outcome<int>)
      modifies this`permissionGeneration, this`revocations
      ensures match Revoke(old(Tables()), entity, now)
              case Ok(s) => out == Ok(s.permissionGeneration) && Tables() == s
              case Err(e) => out == Err(e)
    {
      var generation :- PermissionGeneration(Tables());
      if generation >= MAX_INTEGER { return Err(GENERATION_EXHAUSTED); }
      generation := generation + 1;
      permissionGeneration := generation;
      revocations := revocations[entity := Revocation(generation, now)];
      return Ok(generation);
    }

    /** One admitted action; its writes stay pending until the caller commits. */
    method Perform(r: Request, actor: Actor, now: int, env: Env) returns (out: Outcome<Response>)
      modifies this`proposals, this`validations, this`current, this`history, this`permissionGeneration, this`revocations
      ensures match Act(cfg, old(Tables()), r, actor, now, env)
              case Ok(c) => out == Ok(c.response) && Tables() == c.store
              case Err(e) => out == Err(e)
    {
      match r {
        case ProposeRequest(_, _, _, _, _) => out := ProposePolicy(r, actor, ContextOf(actor), now);
        case ValidateRequest(_, _, _) => out := ValidateProposal(r, actor, ContextOf(actor), now);
        case AdoptRequest(_, _, _, _) => out := AdoptProposal(r, actor, ContextOf(actor), now);
        case CurrentRequest(id, seriesId) =>
          var view :- CurrentPolicy(cfg, Tables(), seriesId, now);
          out := Ok(CurrentView(id, view));
        case ReceiptRequest(_, _) =>
          var c :- Receipt(cfg, Tables(), r);
          out := Ok(c.response);
        case RevokeActorRequest(id, target) =>
          if target.Unknown? { return Err(INVALID_ACTOR); }
          if ActorEntity(target.actor) in revocations { return Err(ACTOR_REVOKED); }
          var generation :- RevokeEntity(ActorEntity(target.actor), now);
          out := Ok(ActorRevoked(id, target.actor, generation, now, actor));
        case RevokeValidationRequest(id, validationId) =>
          if validationId !in validations { return Err(VALIDATION_MISSING); }
          if ValidationEntity(validationId) in revocations { return Err(VALIDATION_REVOKED); }
          var generation :- RevokeEntity(ValidationEntity(validationId), now);
          out := Ok(ValidationRevoked(id, validationId, generation, now));
        case ExtensionRequest(_, _, _) =>
          var c :- Extension(cfg, Tables(), r, env);
          out := Ok(c.response);
      }
    }

    method SaveResult(r: Request, actor: Actor, response: Response, seen: bool) returns (out: Outcome<()>)
      modifies this`idempotency
      ensures match StoreResult(cfg, old(Tables()), r, actor, response, seen)
              case Ok(s) => out == Ok(()) && Tables() == s
              case Err(e) => out == Err(e)
    {
      var digest := cfg.hash(RequestDoc(r));
      if Uncached(cfg, r) {
        if !seen {
          idempotency := idempotency[r.requestId := Saved(digest, actor, ContextOf(actor), None, None)];
        }
        return Ok(());
      }
      var d :- DigestOf(cfg, ResponseDoc(response));
      idempotency := idempotency[r.requestId := Saved(digest, actor, ContextOf(actor), Some(response), Some(d))];
      return Ok(());
    }

    method WorkInPlace(r: Request, actor: Actor, env: Env, seen: bool) returns (out: Outcome<Response>)
      modifies this
      ensures match Work(cfg, old(Tables()), r, actor, env, seen)
              case Ok(c) => out == Ok(c.response) && Tables() == c.store
              case Err(e) => out == Err(e)
    {
      hide Act, StoreResult, Now;
      var now :- ReadClock(env.clock);
      var response :- Perform(r, actor, now, env);
      var _ :- SaveResult(r, actor, response, seen);
      return Ok(response);
    }

    method TransactInPlace(r: Request, actor: Actor, env: Env) returns (out: Outcome<Response>)
      modifies this
      ensures match Transact(cfg, old(Tables()), r, actor, env)
              case Ok(c) => out == Ok(c.response) && Tables() == c.store
              case Err(e) => out == Err(e)
    {
      hide Work, ReplayOf, RevokedActor;
      var revoked :- RevokedActor(Tables(), actor);
      if revoked { return Err(AUTHORITY_REVOKED); }
      var replay :- ReplayOf(cfg, Tables(), r.requestId, cfg.hash(RequestDoc(r)), actor, ContextOf(actor));
      if replay.Stored? && Fresh(cfg, r) { return Err(STORAGE_CORRUPT); }
      if !replay.Absent? && !Uncached(cfg, r) {
        if replay.Marker? { return Err(STORAGE_CORRUPT); }
        return Ok(replay.response);
      }
      out := WorkInPlace(r, actor, env, !replay.Absent?);
    }

    /** One request: committed on success, rolled back whole on error. */
    method HandleRequest(peer: Peer, request: Request, env: Env) returns (out: Outcome<Response>)
      modifies this
      ensures Step(Tables(), out) == Dispatch(cfg, old(Tables()), peer, request, env)
    {
      var admitted :- Admit(cfg, peer, request);
      var before := Tables();
      out := TransactInPlace(admitted.1, admitted.0, env);
      if out.Err? {
        lastClock, permissionGeneration := before.lastClock, before.permissionGeneration;
        proposals, validations, current := before.proposals, before.validations, before.current;
        revocations, idempotency, history := before.revocations, before.idempotency, before.history;
      }
    }
  }
}
