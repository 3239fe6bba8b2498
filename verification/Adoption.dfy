/** The policy adoption authority as transitions on a value of its tables.

    Each function below describes one method of the store; `Dispatch` is the
    transaction around them: an error leaves every table, the clock included,
    as it was. */
module Adoption {
  import opened Common

  const VALIDATION_TTL: int := 86400

  // ---------- identities ----------

  datatype Actor = Manager | Candidate | Validator | Operator

  /** The context string each identity is mapped to; one per actor. */
  datatype Context = ContextOf(actor: Actor)

  datatype Peer = Peer(uid: int, gid: int)

  function Identity(peer: Peer): Option<Actor> {
    if peer == Peer(12001, 12001) then Some(Manager)
    else if peer == Peer(12002, 12002) then Some(Candidate)
    else if peer == Peer(12003, 12003) then Some(Validator)
    else if peer == Peer(12004, 12004) then Some(Operator)
    else None
  }

  // ---------- documents ----------

  datatype Policy = Policy(body: string)

  /** The actor named by a revocation request: one of the four, or unknown text. */
  datatype ActorName = Named(actor: Actor) | Unknown(text: string)

  datatype Request =
    | ProposeRequest(requestId: Id, proposalId: Id, seriesId: Id, expectedGeneration: int, policy: Policy)
    | ValidateRequest(requestId: Id, proposalId: Id, validationId: Id)
    | AdoptRequest(requestId: Id, proposalId: Id, validationId: Id, expectedGeneration: int)
    | CurrentRequest(requestId: Id, seriesId: Id)
    | ReceiptRequest(requestId: Id, adoptionRequestId: Id)
    | RevokeActorRequest(requestId: Id, target: ActorName)
    | RevokeValidationRequest(requestId: Id, validationId: Id)
    | ExtensionRequest(requestId: Id, action: Id, body: string)

  datatype Response =
    | Proposed(requestId: Id, proposalId: Id, seriesId: Id, expectedGeneration: int,
               proposalDigest: Digest, createdAt: int)
    | Validated(requestId: Id, validationId: Id, proposalId: Id, proposalDigest: Digest,
                observedAt: int, expiresAt: int, validatorId: Actor, validatorContext: Context,
                permissionGeneration: int)
    | Adopted(requestId: Id, seriesId: Id, generation: int, proposalId: Id, validationId: Id,
              proposalDigest: Digest, policy: Policy, adoptedAt: int, actor: Actor, context: Context,
              expectedGeneration: int, permissionGeneration: int, bootstrapDigest: Digest,
              validatorDigest: Digest, validationActor: Actor, validationContext: Context,
              validationObservedAt: int, validationExpiresAt: int)
    | CurrentView(requestId: Id, view: PolicyView)
    | ReceiptView(requestId: Id, adoptionRequestId: Id, receipt: Response)
    | ActorRevoked(requestId: Id, actorId: Actor, permissionGeneration: int, revokedAt: int, revokedBy: Actor)
    | ValidationRevoked(requestId: Id, validationId: Id, permissionGeneration: int, revokedAt: int)
    | ExtensionResult(requestId: Id, action: Id, body: string)

  /** What a read of one generation reports. `Unadopted` has valid = False. */
  datatype PolicyView =
    | Unadopted(seriesId: Id, generation: int)
    | AdoptedView(seriesId: Id, generation: int, valid: bool, policy: Policy, proposalId: Id,
                  validationId: Id, policyDigest: Digest, adoptedAt: int)

  predicate Valid(v: PolicyView) { v.AdoptedView? && v.valid }

  datatype Document = PolicyDoc(policy: Policy) | RequestDoc(request: Request) | ResponseDoc(response: Response)

  datatype ErrorCode =
    | AUTHORITY_MISSING | AUTHORITY_DENIED | AUTHORITY_REVOKED
    | INVALID_ACTION | INVALID_POLICY | INVALID_GENERATION | INVALID_TIME | INVALID_ACTOR
    | REQUEST_CONFLICT | REQUEST_TOO_LARGE | CLOCK_UNAVAILABLE | CLOCK_ROLLBACK
    | STORAGE_CORRUPT | GENERATION_CONFLICT | GENERATION_EXHAUSTED
    | PROPOSAL_MISSING | PROPOSAL_CONFLICT | PROPOSAL_STALE
    | VALIDATION_MISSING | VALIDATION_CONFLICT | VALIDATION_REVOKED | VALIDATION_EXPIRED
    | ACTOR_REVOKED | RECEIPT_MISSING | RECEIPT_INVALID | HISTORY_MISSING
    | EXTENSION_INVALID | EXTENSION_FAILURE

  /** What the deployment fixes when it opens the store. `normalize` is
      validate_policy_profile, `hash` is SHA-256 of the canonical bytes and
      `fits` is the document size limit. */
  datatype Config = Config(
    bootstrapDigest: Digest,
    validatorDigest: Digest,
    predecessors: set<Digest>,
    keepsHistory: bool,
    extensionActions: map<Id, set<Actor>>,
    freshActions: set<Id>,
    normalize: Policy -> Option<Policy>,
    hash: Document -> Digest,
    fits: Document -> bool)

  ghost predicate WellFormed(cfg: Config) {
    && (forall p :: cfg.normalize(p).Some? ==> cfg.normalize(cfg.normalize(p).value) == cfg.normalize(p))
    && (forall d, e :: cfg.hash(d) == cfg.hash(e) ==> d == e)
    && cfg.freshActions <= cfg.extensionActions.Keys
    && (forall a :: a in cfg.extensionActions ==> Candidate !in cfg.extensionActions[a])
  }

  /** One clock reading (None: the clock raised) and what the extension did. */
  datatype Env = Env(clock: Option<int>, extension: Result<Response, ErrorCode>)

  // ---------- tables ----------

  datatype Proposal = Proposal(
    seriesId: Id, expectedGeneration: int, policy: Policy, policyDigest: Digest, createdAt: int,
    actor: Actor, context: Context, bootstrapDigest: Digest, validatorDigest: Digest)

  datatype Validation = Validation(
    proposalId: Id, proposalDigest: Digest, expectedGeneration: int, observedAt: int, expiresAt: int,
    actor: Actor, context: Context, permissionGeneration: int, bootstrapDigest: Digest,
    validatorDigest: Digest)

  /** A row of current_profiles and of policy_adoptions: the columns are the same. */
  datatype Adoption = Adoption(
    seriesId: Id, generation: int, proposalId: Id, validationId: Id, policy: Policy,
    policyDigest: Digest, adoptedAt: int, actor: Actor, context: Context)

  datatype Entity = ActorEntity(actor: Actor) | ValidationEntity(id: Id)

  datatype Revocation = Revocation(generation: int, observedAt: int)

  datatype Saved = Saved(requestDigest: Digest, actor: Actor, context: Context,
                         response: Option<Response>, responseDigest: Option<Digest>)

  datatype Key = Key(seriesId: Id, generation: int)

  datatype Store = Store(
    lastClock: int,
    permissionGeneration: int,
    proposals: map<Id, Proposal>,
    validations: map<Id, Validation>,
    current: map<Id, Adoption>,
    revocations: map<Entity, Revocation>,
    idempotency: map<Id, Saved>,
    history: map<Key, Adoption>)

  const EMPTY: Store := Store(-1, 0, map[], map[], map[], map[], map[], map[])

  type Outcome<T> = Result<T, ErrorCode>

  // ---------- shared checks ----------

  function DigestOf(cfg: Config, d: Document): Outcome<Digest> {
    if cfg.fits(d) then Ok(cfg.hash(d)) else Err(REQUEST_TOO_LARGE)
  }

  predicate ProfileMatches(cfg: Config, value: Digest) {
    value == cfg.validatorDigest || value in cfg.predecessors
  }

  function Now(s: Store, clock: Option<int>): Outcome<int> {
    if clock.None? || !IsUint(clock.value) then Err(CLOCK_UNAVAILABLE)
    else if s.lastClock < -1 || s.lastClock > MAX_INTEGER then Err(STORAGE_CORRUPT)
    else if clock.value < s.lastClock then Err(CLOCK_ROLLBACK)
    else Ok(clock.value)
  }

  function RevokedActor(s: Store, actor: Actor): Outcome<bool> {
    if ActorEntity(actor) !in s.revocations then Ok(false)
    else if IsUint(s.revocations[ActorEntity(actor)].generation) then Ok(true)
    else Err(STORAGE_CORRUPT)
  }

  function PermissionGeneration(s: Store): Outcome<int> {
    if IsUint(s.permissionGeneration) then Ok(s.permissionGeneration) else Err(STORAGE_CORRUPT)
  }

  function CurrentGeneration(s: Store, seriesId: Id): Outcome<int> {
    if seriesId !in s.current then Ok(0)
    else if IsUint(s.current[seriesId].generation) then Ok(s.current[seriesId].generation)
    else Err(STORAGE_CORRUPT)
  }

  /** The generation a series is at; 0 before its first adoption. */
  function Generation(s: Store, seriesId: Id): int {
    if seriesId in s.current then s.current[seriesId].generation else 0
  }

  /** A stored policy, decoded, validated again and compared with its digest. */
  function StoredPolicy(cfg: Config, policy: Policy, digest: Digest): Outcome<Policy> {
    var validated := cfg.normalize(policy);
    if validated.None? then Err(STORAGE_CORRUPT)
    else
      var d :- DigestOf(cfg, PolicyDoc(validated.value));
      if d != digest then Err(STORAGE_CORRUPT) else Ok(validated.value)
  }

  predicate WindowOk(v: Validation) {
    0 <= v.observedAt <= v.expiresAt <= MAX_INTEGER
  }

  // ---------- request admission ----------

  /** Request checking; a proposed policy is replaced by its normal form. */
  function Normalize(cfg: Config, r: Request): Outcome<Request> {
    var normal :- match r
      case ProposeRequest(_, _, _, g, p) =>
        if !IsUint(g) then Err(INVALID_GENERATION)
        else if cfg.normalize(p).None? then Err(INVALID_POLICY)
        else Ok(r.(policy := cfg.normalize(p).value))
      case AdoptRequest(_, _, _, g) =>
        if !IsUint(g) then Err(INVALID_GENERATION) else Ok(r)
      case ExtensionRequest(_, action, _) =>
        if action !in cfg.extensionActions then Err(INVALID_ACTION) else Ok(r)
      case _ => Ok(r);
    if cfg.fits(RequestDoc(normal)) then Ok(normal) else Err(REQUEST_TOO_LARGE)
  }

  predicate Allowed(cfg: Config, actor: Actor, r: Request) {
    && actor != Candidate
    && match r
       case ProposeRequest(_, _, _, _, _) => actor == Manager
       case AdoptRequest(_, _, _, _) => actor == Manager
       case ValidateRequest(_, _, _) => actor == Validator
       case RevokeActorRequest(_, _) => actor == Operator
       case RevokeValidationRequest(_, _) => actor == Operator
       case CurrentRequest(_, _) => true
       case ReceiptRequest(_, _) => true
       case ExtensionRequest(_, action, _) =>
         action in cfg.extensionActions && actor in cfg.extensionActions[action]
  }

  predicate Fresh(cfg: Config, r: Request) {
    r.ExtensionRequest? && r.action in cfg.freshActions
  }

  /** Requests whose response is computed anew each time and never stored. */
  predicate Uncached(cfg: Config, r: Request) {
    r.CurrentRequest? || Fresh(cfg, r)
  }

  // ---------- idempotency ----------

  datatype Replay = Absent | Marker | Stored(response: Response)

  function ReplayOf(cfg: Config, s: Store, id: Id, digest: Digest, actor: Actor, context: Context): Outcome<Replay> {
    if id !in s.idempotency then Ok(Absent)
    else
      var row := s.idempotency[id];
      if row.requestDigest != digest || row.actor != actor || row.context != context then Err(REQUEST_CONFLICT)
      else if row.response.None? then
        if row.responseDigest.Some? then Err(STORAGE_CORRUPT) else Ok(Marker)
      else
        var d :- DigestOf(cfg, ResponseDoc(row.response.value));
        if row.responseDigest != Some(d) then Err(STORAGE_CORRUPT) else Ok(Stored(row.response.value))
  }

  // ---------- actions ----------

  datatype Change = Change(store: Store, response: Response)

  function Propose(cfg: Config, s: Store, r: Request, actor: Actor, context: Context, now: int): Outcome<Change>
    requires r.ProposeRequest?
  {
    var generation :- CurrentGeneration(s, r.seriesId);
    if r.expectedGeneration != generation then Err(GENERATION_CONFLICT)
    else
      var digest :- DigestOf(cfg, PolicyDoc(r.policy));
      if r.proposalId in s.proposals then
        var row := s.proposals[r.proposalId];
        if row.seriesId != r.seriesId || row.expectedGeneration != r.expectedGeneration
           || row.policyDigest != digest || row.actor != actor || row.context != context
        then Err(PROPOSAL_CONFLICT)
        else Ok(Change(s, Proposed(r.requestId, r.proposalId, r.seriesId, r.expectedGeneration, digest, row.createdAt)))
      else
        var row := Proposal(r.seriesId, r.expectedGeneration, r.policy, digest, now, actor, context,
                            cfg.bootstrapDigest, cfg.validatorDigest);
        Ok(Change(s.(proposals := s.proposals[r.proposalId := row]),
                  Proposed(r.requestId, r.proposalId, r.seriesId, r.expectedGeneration, digest, now)))
  }

  function Validate(cfg: Config, s: Store, r: Request, actor: Actor, context: Context, now: int): Outcome<Change>
    requires r.ValidateRequest?
  {
    if r.proposalId !in s.proposals then Err(PROPOSAL_MISSING)
    else
      var proposal := s.proposals[r.proposalId];
      if !IsUint(proposal.expectedGeneration) || !IsUint(proposal.createdAt) then Err(STORAGE_CORRUPT)
      else if proposal.bootstrapDigest != cfg.bootstrapDigest || proposal.validatorDigest != cfg.validatorDigest
      then Err(PROPOSAL_STALE)
      else
        var _ :- StoredPolicy(cfg, proposal.policy, proposal.policyDigest);
        var revoked :- RevokedActor(s, actor);
        if revoked then Err(AUTHORITY_REVOKED)
        else
          var permission :- PermissionGeneration(s);
          if now + VALIDATION_TTL > MAX_INTEGER then Err(INVALID_TIME)
          else if r.validationId in s.validations then
            var row := s.validations[r.validationId];
            if row.proposalId != r.proposalId || row.proposalDigest != proposal.policyDigest
               || row.actor != actor || row.context != context
            then Err(VALIDATION_CONFLICT)
            else Ok(Change(s, Validated(r.requestId, r.validationId, r.proposalId, proposal.policyDigest,
                                        row.observedAt, row.expiresAt, actor, context, row.permissionGeneration)))
          else
            var row := Validation(r.proposalId, proposal.policyDigest, proposal.expectedGeneration, now,
                                  now + VALIDATION_TTL, actor, context, permission,
                                  cfg.bootstrapDigest, cfg.validatorDigest);
            Ok(Change(s.(validations := s.validations[r.validationId := row]),
                      Validated(r.requestId, r.validationId, r.proposalId, proposal.policyDigest,
                                now, now + VALIDATION_TTL, actor, context, permission)))
  }

  /** The checks an adoption passes before it writes, in the order they run. */
  function AdoptChecks(cfg: Config, s: Store, r: Request, actor: Actor, context: Context, now: int): Outcome<Policy>
    requires r.AdoptRequest?
  {
    if r.proposalId !in s.proposals then Err(PROPOSAL_MISSING)
    else if r.validationId !in s.validations then Err(VALIDATION_MISSING)
    else
      var proposal := s.proposals[r.proposalId];
      var validation := s.validations[r.validationId];
      if !IsUint(validation.expectedGeneration) || !WindowOk(validation) then Err(STORAGE_CORRUPT)
      else
        var generation :- CurrentGeneration(s, proposal.seriesId);
        if r.expectedGeneration != generation || r.expectedGeneration != proposal.expectedGeneration
           || validation.expectedGeneration != r.expectedGeneration
        then Err(GENERATION_CONFLICT)
        else if proposal.actor != actor || proposal.context != context then Err(AUTHORITY_DENIED)
        else if validation.proposalId != r.proposalId || validation.proposalDigest != proposal.policyDigest
        then Err(VALIDATION_CONFLICT)
        else if proposal.bootstrapDigest != cfg.bootstrapDigest || proposal.validatorDigest != cfg.validatorDigest
                || validation.bootstrapDigest != cfg.bootstrapDigest
                || validation.validatorDigest != cfg.validatorDigest
        then Err(PROPOSAL_STALE)
        else if ValidationEntity(r.validationId) in s.revocations then Err(VALIDATION_REVOKED)
        else
          var permission :- PermissionGeneration(s);
          if validation.permissionGeneration != permission then Err(AUTHORITY_REVOKED)
          else
            var revoked :- RevokedActor(s, validation.actor);
            if revoked then Err(AUTHORITY_REVOKED)
            else if now >= validation.expiresAt then Err(VALIDATION_EXPIRED)
            else
              var policy :- StoredPolicy(cfg, proposal.policy, proposal.policyDigest);
              if generation >= MAX_INTEGER then Err(GENERATION_EXHAUSTED) else Ok(policy)
  }

  function Adopt(cfg: Config, s: Store, r: Request, actor: Actor, context: Context, now: int): Outcome<Change>
    requires r.AdoptRequest?
  {
    var policy :- AdoptChecks(cfg, s, r, actor, context, now);
    var proposal := s.proposals[r.proposalId];
    var validation := s.validations[r.validationId];
    var row := Adoption(proposal.seriesId, r.expectedGeneration + 1, r.proposalId, r.validationId, policy,
                        proposal.policyDigest, now, actor, context);
    if cfg.keepsHistory && Key(row.seriesId, row.generation) in s.history then Err(STORAGE_CORRUPT)
    else
      var history := if cfg.keepsHistory then s.history[Key(row.seriesId, row.generation) := row] else s.history;
      Ok(Change(s.(current := s.current[row.seriesId := row], history := history),
                Adopted(r.requestId, row.seriesId, row.generation, r.proposalId, r.validationId,
                        row.policyDigest, policy, now, actor, context, r.expectedGeneration,
                        s.permissionGeneration, cfg.bootstrapDigest, cfg.validatorDigest,
                        validation.actor, validation.context, validation.observedAt, validation.expiresAt)))
  }

  /** The validity verdict both reads compute; `linked` is the part in which
      they differ. Later conditions are only looked at while earlier ones hold. */
  function StillValid(cfg: Config, s: Store, row: Adoption, proposal: Proposal, now: int, linked: bool): Outcome<bool>
    requires row.validationId in s.validations
  {
    var v := s.validations[row.validationId];
    if !linked || v.proposalId != row.proposalId || v.proposalDigest != row.policyDigest
       || v.bootstrapDigest != cfg.bootstrapDigest || v.validatorDigest != proposal.validatorDigest
       || !ProfileMatches(cfg, v.validatorDigest) || now >= v.expiresAt
    then Ok(false)
    else
      var permission :- PermissionGeneration(s);
      if v.permissionGeneration != permission || ValidationEntity(row.validationId) in s.revocations then Ok(false)
      else
        var validatorGone :- RevokedActor(s, v.actor);
        if validatorGone then Ok(false)
        else
          var adopterGone :- RevokedActor(s, row.actor);
          Ok(!adopterGone)
  }

  function CurrentPolicy(cfg: Config, s: Store, seriesId: Id, now: int): Outcome<PolicyView> {
    if seriesId !in s.current then Ok(Unadopted(seriesId, 0))
    else
      var row := s.current[seriesId];
      if !IsUint(row.generation) then Err(STORAGE_CORRUPT)
      else
        var policy :- StoredPolicy(cfg, row.policy, row.policyDigest);
        if row.proposalId !in s.proposals then Err(STORAGE_CORRUPT)
        else
          var proposal := s.proposals[row.proposalId];
          if proposal.seriesId != seriesId || proposal.policyDigest != row.policyDigest
             || !ProfileMatches(cfg, proposal.validatorDigest)
          then Err(STORAGE_CORRUPT)
          else if row.validationId in s.validations
                  && (!WindowOk(s.validations[row.validationId])
                      || !IsUint(s.validations[row.validationId].permissionGeneration))
          then Err(STORAGE_CORRUPT)
          else
            var valid :- if row.validationId !in s.validations then Ok(false)
                         else StillValid(cfg, s, row, proposal, now, true);
            Ok(AdoptedView(seriesId, row.generation, valid, policy, row.proposalId, row.validationId,
                           row.policyDigest, row.adoptedAt))
  }

  function PolicyAt(cfg: Config, s: Store, seriesId: Id, generation: int, now: int): Outcome<PolicyView> {
    if !IsUint(generation) then Err(INVALID_GENERATION)
    else if !cfg.keepsHistory then Err(HISTORY_MISSING)
    else if Key(seriesId, generation) !in s.history then Ok(Unadopted(seriesId, generation))
    else
      var row := s.history[Key(seriesId, generation)];
      if !(1 <= row.generation <= MAX_INTEGER) then Err(STORAGE_CORRUPT)
      else
        var policy :- StoredPolicy(cfg, row.policy, row.policyDigest);
        if row.proposalId !in s.proposals then Err(STORAGE_CORRUPT)
        else
          var proposal := s.proposals[row.proposalId];
          if proposal.seriesId != seriesId || proposal.expectedGeneration != generation - 1
             || proposal.policyDigest != row.policyDigest || proposal.actor != row.actor
             || proposal.context != row.context || proposal.bootstrapDigest != cfg.bootstrapDigest
             || !ProfileMatches(cfg, proposal.validatorDigest)
          then Err(STORAGE_CORRUPT)
          else if row.validationId in s.validations && !WindowOk(s.validations[row.validationId])
          then Err(STORAGE_CORRUPT)
          else
            var valid :- if row.validationId !in s.validations then Ok(false)
                         else StillValid(cfg, s, row, proposal, now,
                                         s.validations[row.validationId].expectedGeneration == generation - 1);
            Ok(AdoptedView(seriesId, generation, valid, policy, row.proposalId, row.validationId,
                           row.policyDigest, row.adoptedAt))
  }

  function Receipt(cfg: Config, s: Store, r: Request): Outcome<Change>
    requires r.ReceiptRequest?
  {
    if r.adoptionRequestId !in s.idempotency then Err(RECEIPT_MISSING)
    else
      var row := s.idempotency[r.adoptionRequestId];
      if row.response.None? || row.responseDigest.None? then Err(STORAGE_CORRUPT)
      else
        var receipt := row.response.value;
        var digest :- DigestOf(cfg, ResponseDoc(receipt));
        if Some(digest) != row.responseDigest then Err(STORAGE_CORRUPT)
        else if !receipt.Adopted? || receipt.requestId != r.adoptionRequestId then Err(RECEIPT_INVALID)
        else Ok(Change(s, ReceiptView(r.requestId, r.adoptionRequestId, receipt)))
  }

  /** Bumps the permission generation and records the entity under it. */
  function Revoke(s: Store, entity: Entity, now: int): Outcome<Store> {
    var generation :- PermissionGeneration(s);
    if generation >= MAX_INTEGER then Err(GENERATION_EXHAUSTED)
    else Ok(s.(permissionGeneration := generation + 1,
               revocations := s.revocations[entity := Revocation(generation + 1, now)]))
  }

  function RevokeActor(s: Store, r: Request, actor: Actor, now: int): Outcome<Change>
    requires r.RevokeActorRequest?
  {
    if r.target.Unknown? then Err(INVALID_ACTOR)
    else if ActorEntity(r.target.actor) in s.revocations then Err(ACTOR_REVOKED)
    else
      var s' :- Revoke(s, ActorEntity(r.target.actor), now);
      Ok(Change(s', ActorRevoked(r.requestId, r.target.actor, s'.permissionGeneration, now, actor)))
  }

  function RevokeValidation(s: Store, r: Request, now: int): Outcome<Change>
    requires r.RevokeValidationRequest?
  {
    if r.validationId !in s.validations then Err(VALIDATION_MISSING)
    else if ValidationEntity(r.validationId) in s.revocations then Err(VALIDATION_REVOKED)
    else
      var s' :- Revoke(s, ValidationEntity(r.validationId), now);
      Ok(Change(s', ValidationRevoked(r.requestId, r.validationId, s'.permissionGeneration, now)))
  }

  /** An extension's own tables are not modelled: its answer is an input. */
  function Extension(cfg: Config, s: Store, r: Request, env: Env): Outcome<Change>
    requires r.ExtensionRequest?
  {
    var response :- env.extension;
    if !response.ExtensionResult? || response.action != r.action || response.requestId != r.requestId
    then Err(EXTENSION_INVALID)
    else
      var _ :- DigestOf(cfg, ResponseDoc(response));
      Ok(Change(s, response))
  }

  function Act(cfg: Config, s: Store, r: Request, actor: Actor, now: int, env: Env): Outcome<Change> {
    match r
    case ProposeRequest(_, _, _, _, _) => Propose(cfg, s, r, actor, ContextOf(actor), now)
    case ValidateRequest(_, _, _) => Validate(cfg, s, r, actor, ContextOf(actor), now)
    case AdoptRequest(_, _, _, _) => Adopt(cfg, s, r, actor, ContextOf(actor), now)
    case CurrentRequest(id, seriesId) =>
      var view :- CurrentPolicy(cfg, s, seriesId, now);
      Ok(Change(s, CurrentView(id, view)))
    case ReceiptRequest(_, _) => Receipt(cfg, s, r)
    case RevokeActorRequest(_, _) => RevokeActor(s, r, actor, now)
    case RevokeValidationRequest(_, _) => RevokeValidation(s, r, now)
    case ExtensionRequest(_, _, _) => Extension(cfg, s, r, env)
  }

  /** The row the store keeps for an answered request: a marker without a
      response for the uncached actions, the response and its digest otherwise. */
  function StoreResult(cfg: Config, s: Store, r: Request, actor: Actor, response: Response, seen: bool): Outcome<Store> {
    var digest := cfg.hash(RequestDoc(r));
    if Uncached(cfg, r) then
      Ok(if seen then s
         else s.(idempotency := s.idempotency[r.requestId := Saved(digest, actor, ContextOf(actor), None, None)]))
    else
      var d :- DigestOf(cfg, ResponseDoc(response));
      Ok(s.(idempotency := s.idempotency[r.requestId := Saved(digest, actor, ContextOf(actor), Some(response), Some(d))]))
  }

  /** Reads the clock, acts and keeps the answer. */
  function Work(cfg: Config, s: Store, r: Request, actor: Actor, env: Env, seen: bool): Outcome<Change> {
    var now :- Now(s, env.clock);
    var change :- Act(cfg, s.(lastClock := now), r, actor, now, env);
    var s' :- StoreResult(cfg, change.store, r, actor, change.response, seen);
    Ok(Change(s', change.response))
  }

  /** The body of the transaction for an admitted request. */
  function Transact(cfg: Config, s: Store, r: Request, actor: Actor, env: Env): Outcome<Change> {
    var revoked :- RevokedActor(s, actor);
    if revoked then Err(AUTHORITY_REVOKED)
    else
      var replay :- ReplayOf(cfg, s, r.requestId, cfg.hash(RequestDoc(r)), actor, ContextOf(actor));
      if replay.Stored? && Fresh(cfg, r) then Err(STORAGE_CORRUPT)
      else if !replay.Absent? && !Uncached(cfg, r) then
        if replay.Marker? then Err(STORAGE_CORRUPT) else Ok(Change(s, replay.response))
      else Work(cfg, s, r, actor, env, !replay.Absent?)
  }

  /** Who may ask what, decided before any table is read. */
  function Admit(cfg: Config, peer: Peer, r: Request): Outcome<(Actor, Request)> {
    var identity := Identity(peer);
    if identity.None? then Err(AUTHORITY_MISSING)
    else
      var normal :- Normalize(cfg, r);
      if !Allowed(cfg, identity.value, normal) then Err(AUTHORITY_DENIED)
      else Ok((identity.value, normal))
  }

  function Attempt(cfg: Config, s: Store, peer: Peer, r: Request, env: Env): Outcome<Change> {
    var (actor, normal) :- Admit(cfg, peer, r);
    Transact(cfg, s, normal, actor, env)
  }

  datatype Step = Step(store: Store, outcome: Outcome<Response>)

  /** One call of the store: commit on success, roll everything back on error. */
  function Dispatch(cfg: Config, s: Store, peer: Peer, r: Request, env: Env): Step {
    match Attempt(cfg, s, peer, r, env)
    case Ok(change) => Step(change.store, Ok(change.response))
    case Err(e) => Step(s, Err(e))
  }

  // ---------- runs ----------

  datatype Event = Event(peer: Peer, request: Request, env: Env)

  function Apply(cfg: Config, s: Store, e: Event): Step {
    Dispatch(cfg, s, e.peer, e.request, e.env)
  }

  function Run(cfg: Config, s: Store, events: seq<Event>): Store
    decreases |events|
  {
    if events == [] then s else Run(cfg, Apply(cfg, s, events[0]).store, events[1..])
  }
}
