/** Dead corruption branches, revocation freezes, replays and the audit trail
    of the adoption authority. */
module AdoptionAudit {
  import opened Common
  import opened Adoption
  import opened AdoptionInvariant
  import opened AdoptionSafety

  // ---------- corruption ----------

  /** The request passed every gate in front of the action itself. */
  predicate ReachesAction(cfg: Config, s: Store, r: Request, actor: Actor, env: Env) {
    && RevokedActor(s, actor) == Ok(false)
    && var replay := ReplayOf(cfg, s, r.requestId, cfg.hash(RequestDoc(r)), actor, ContextOf(actor));
    && replay.Ok?
    && (replay.value.Absent? || Uncached(cfg, r))
    && Now(s, env.clock).Ok?
  }

  /** The request asks for the receipt of a request that stored only a marker. */
  predicate NamesMarker(s: Store, r: Request) {
    r.ReceiptRequest? && r.adoptionRequestId in s.idempotency && s.idempotency[r.adoptionRequestId].response.None?
  }

  predicate ExtensionSaysCorrupt(r: Request, env: Env) {
    r.ExtensionRequest? && env.extension == Err(STORAGE_CORRUPT)
  }

  lemma ProposeSound(cfg: Config, s: Store, r: Request, actor: Actor, now: int)
    requires r.ProposeRequest? && CurrentOk(cfg, s) && ProposalsOk(cfg, s)
    ensures Propose(cfg, s, r, actor, ContextOf(actor), now) != Err(STORAGE_CORRUPT)
  {
    GenerationsPositive(cfg, s);
  }

  lemma ValidateSound(cfg: Config, s: Store, r: Request, actor: Actor, now: int)
    requires r.ValidateRequest? && EpochOk(s) && ProposalsOk(cfg, s)
    ensures Validate(cfg, s, r, actor, ContextOf(actor), now) != Err(STORAGE_CORRUPT)
  {
    hide EpochOk;
    EpochInRange(s);
    if r.proposalId in s.proposals {
      assert ProposalOk(cfg, s, s.proposals[r.proposalId]);
      ClockInRange(s);
    }
  }

  lemma ClockInRange(s: Store)
    requires EpochOk(s)
    ensures -1 <= s.lastClock <= MAX_INTEGER
  {
  }

  lemma AdoptChecksSound(cfg: Config, s: Store, r: Request, actor: Actor, now: int)
    requires r.AdoptRequest? && EpochOk(s) && ProposalsOk(cfg, s) && ValidationsOk(cfg, s) && CurrentOk(cfg, s)
    ensures AdoptChecks(cfg, s, r, actor, ContextOf(actor), now) != Err(STORAGE_CORRUPT)
  {
    hide EpochOk, CurrentOk;
    EpochInRange(s);
    GenerationsPositive(cfg, s);
    if r.proposalId in s.proposals && r.validationId in s.validations {
      assert ValidationOk(cfg, s, r.validationId, s.validations[r.validationId]);
      assert ProposalOk(cfg, s, s.proposals[r.proposalId]);
    }
  }

  lemma AdoptSound(cfg: Config, s: Store, r: Request, actor: Actor, now: int)
    requires r.AdoptRequest? && TablesOk(cfg, s)
    ensures Adopt(cfg, s, r, actor, ContextOf(actor), now) != Err(STORAGE_CORRUPT)
  {
    hide EpochOk, ProposalsOk, ValidationsOk, CurrentOk, HistoryRowsOk, IntervalOk;
    AdoptChecksSound(cfg, s, r, actor, now);
  }

  /** What an adoption needs, said of the rows: a proposal for exactly the next
      generation, validated in this very form by the validator, less than 86400
      seconds ago, with nothing at all revoked since, under today's validator. */
  ghost predicate MayAdopt(cfg: Config, s: Store, r: Request, now: int)
    requires r.AdoptRequest?
  {
    && r.proposalId in s.proposals && r.validationId in s.validations
    && var p, v := s.proposals[r.proposalId], s.validations[r.validationId];
    && v.proposalId == r.proposalId
    && r.expectedGeneration == p.expectedGeneration == Generation(s, p.seriesId)
    && NoLaterRevocation(s, v)
    && now < v.observedAt + 86400
    && p.validatorDigest == cfg.validatorDigest
    && r.expectedGeneration < MAX_INTEGER
  }

  lemma ChecksExactly(cfg: Config, s: Store, r: Request, now: int)
    requires r.AdoptRequest? && EpochOk(s) && ProposalsOk(cfg, s) && ValidationsOk(cfg, s) && CurrentOk(cfg, s)
    ensures AdoptChecks(cfg, s, r, Manager, ContextOf(Manager), now).Ok? <==> MayAdopt(cfg, s, r, now)
  {
    hide EpochOk, CurrentOk, NoLaterRevocation;
    EpochInRange(s);
    GenerationsPositive(cfg, s);
    if r.proposalId in s.proposals && r.validationId in s.validations {
      var v := s.validations[r.validationId];
      assert ValidationOk(cfg, s, r.validationId, v);
      assert ProposalOk(cfg, s, s.proposals[r.proposalId]);
      NoLaterRevocationExact(s, v);
      if v.permissionGeneration == s.permissionGeneration { NothingRevokedAfter(s, v.permissionGeneration); }
    }
  }

  lemma NothingRevokedAfter(s: Store, epoch: int)
    requires EpochOk(s) && epoch == s.permissionGeneration
    ensures forall e :: RevokedAfter(s, e, epoch) ==> e !in s.revocations
  {
  }

  /** In a reachable store an adoption succeeds exactly when the rows allow it:
      every other check it makes passes by then. */
  lemma AdoptsExactly(cfg: Config, s: Store, r: Request, now: int)
    requires TablesOk(cfg, s) && r.AdoptRequest?
    ensures Adopt(cfg, s, r, Manager, ContextOf(Manager), now).Ok? <==> MayAdopt(cfg, s, r, now)
  {
    ChecksExactly(cfg, s, r, now);
    hide EpochOk, ProposalsOk, ValidationsOk, CurrentOk, HistoryRowsOk, IntervalOk, AdoptChecks, NoLaterRevocation;
  }

  lemma ReceiptSound(cfg: Config, s: Store, r: Request)
    requires r.ReceiptRequest? && SavedOk(cfg, s)
    ensures Receipt(cfg, s, r) == Err(STORAGE_CORRUPT) <==> NamesMarker(s, r)
  {
  }

  lemma ActSound(cfg: Config, s: Store, r: Request, actor: Actor, now: int, env: Env)
    requires Invariant(cfg, s)
    ensures Act(cfg, s, r, actor, now, env) == Err(STORAGE_CORRUPT)
            <==> NamesMarker(s, r) || ExtensionSaysCorrupt(r, env)
  {
    hide EpochOk, ProposalsOk, ValidationsOk, CurrentOk, HistoryRowsOk, HistoryEndsOk, IntervalOk, SavedOk;
    hide Propose, Validate, Adopt, CurrentPolicy, Receipt;
    match r
    case ProposeRequest(_, _, _, _, _) => ProposeSound(cfg, s, r, actor, now);
    case ValidateRequest(_, _, _) => ValidateSound(cfg, s, r, actor, now);
    case AdoptRequest(_, _, _, _) => AdoptSound(cfg, s, r, actor, now);
    case CurrentRequest(_, id) =>
      if id in s.current {
        CurrentReads(cfg, s, id, now);
      } else {
        NeverAdopted(cfg, s, id, now);
      }
    case ReceiptRequest(_, _) => ReceiptSound(cfg, s, r);
    case RevokeActorRequest(_, _) => EpochInRange(s);
    case RevokeValidationRequest(_, _) => EpochInRange(s);
    case ExtensionRequest(_, _, _) =>
  }

  lemma NeverAdopted(cfg: Config, s: Store, seriesId: Id, now: int)
    requires seriesId !in s.current
    ensures CurrentPolicy(cfg, s, seriesId, now) == Ok(Unadopted(seriesId, 0))
  {
  }

  lemma GatesSound(cfg: Config, s: Store, r: Request, actor: Actor)
    requires WellFormed(cfg) && Invariant(cfg, s)
    ensures RevokedActor(s, actor).Ok?
    ensures var replay := ReplayOf(cfg, s, r.requestId, cfg.hash(RequestDoc(r)), actor, ContextOf(actor));
            && replay != Err(STORAGE_CORRUPT)
            && (replay.Ok? && Uncached(cfg, r) ==> !replay.value.Stored?)
            && (replay.Ok? && !Uncached(cfg, r) ==> !replay.value.Marker?)
  {
    hide ProposalsOk, ValidationsOk, CurrentOk, HistoryRowsOk, HistoryEndsOk, IntervalOk;
    if r.requestId in s.idempotency {
      assert SavedRequestOk(cfg, r.requestId, s.idempotency[r.requestId]);
    }
  }

  lemma WorkSound(cfg: Config, s: Store, r: Request, actor: Actor, env: Env, seen: bool)
    requires Invariant(cfg, s)
    ensures Work(cfg, s, r, actor, env, seen) == Err(STORAGE_CORRUPT)
            <==> Now(s, env.clock).Ok? && (NamesMarker(s, r) || ExtensionSaysCorrupt(r, env))
  {
    hide TablesOk, SavedOk, Act, StoreResult;
    ClockReadable(cfg, s);
    if Now(s, env.clock).Ok? {
      var now := Now(s, env.clock).value;
      var t := s.(lastClock := now);
      ClockAdvances(cfg, s, now);
      SavedKept(cfg, s, t);
      ActSound(cfg, t, r, actor, now, env);
      if Act(cfg, t, r, actor, now, env).Ok? {
        var c := Act(cfg, t, r, actor, now, env).value;
        ResultSound(cfg, c.store, r, actor, c.response, seen);
      }
    }
  }

  lemma TransactSound(cfg: Config, s: Store, r: Request, actor: Actor, env: Env)
    requires WellFormed(cfg) && Invariant(cfg, s)
    ensures Transact(cfg, s, r, actor, env) == Err(STORAGE_CORRUPT)
            <==> ReachesAction(cfg, s, r, actor, env) && (NamesMarker(s, r) || ExtensionSaysCorrupt(r, env))
  {
    hide TablesOk, SavedOk, Work, WellFormed, NamesMarker, ExtensionSaysCorrupt;
    GatesSound(cfg, s, r, actor);
    WorkSound(cfg, s, r, actor, env, true);
    WorkSound(cfg, s, r, actor, env, false);
  }

  lemma ClockReadable(cfg: Config, s: Store)
    requires TablesOk(cfg, s)
    ensures -1 <= s.lastClock <= MAX_INTEGER
  {
  }

  lemma ResultSound(cfg: Config, s: Store, r: Request, actor: Actor, response: Response, seen: bool)
    ensures StoreResult(cfg, s, r, actor, response, seen) != Err(STORAGE_CORRUPT)
  {
  }

  /** No reachable store is ever reported corrupt, with exactly two exceptions:
      a receipt asked of a request that left only a marker (a `current` request
      or a fresh extension action), and an extension that says so itself. */
  lemma CorruptExactly(cfg: Config, s: Store, e: Event)
    requires WellFormed(cfg) && Invariant(cfg, s)
    ensures Apply(cfg, s, e).outcome == Err(STORAGE_CORRUPT)
            <==> Admit(cfg, e.peer, e.request).Ok?
                 && var (actor, r) := Admit(cfg, e.peer, e.request).value;
                    ReachesAction(cfg, s, r, actor, e.env) && (NamesMarker(s, r) || ExtensionSaysCorrupt(r, e.env))
  {
    hide Invariant, Transact, ReachesAction, WellFormed;
    if Admit(cfg, e.peer, e.request).Ok? {
      var (actor, r) := Admit(cfg, e.peer, e.request).value;
      TransactSound(cfg, s, r, actor, e.env);
    }
  }

  // ---------- what one dispatch can change ----------

  predicate AdoptedResponse(row: Saved) { row.response.Some? && row.response.value.Adopted? }

  /** The saved response of an adoption and the history row it wrote agree. */
  predicate ReceiptMatches(row: Adoption, a: Response)
    requires a.Adopted?
  {
    row == Adoption(a.seriesId, a.generation, a.proposalId, a.validationId, a.policy, a.proposalDigest,
                    a.adoptedAt, a.actor, a.context)
  }

  /** A dispatch that adopts nothing: the rows and receipts of adoptions stay. */
  predicate AdoptsNothing(s: Store, s': Store) {
    && s'.current == s.current
    && s'.history == s.history
    && (forall id :: id in s'.idempotency && id !in s.idempotency ==> !AdoptedResponse(s'.idempotency[id]))
  }

  /** A dispatch that adopts: one new row and, under one new id, its receipt. */
  ghost predicate AdoptsOne(cfg: Config, s: Store, s': Store, id: Id, row: Adoption) {
    && id !in s.idempotency
    && id in s'.idempotency
    && AdoptedResponse(s'.idempotency[id])
    && ReceiptMatches(row, s'.idempotency[id].response.value)
    && s'.idempotency == s.idempotency[id := s'.idempotency[id]]
    && row.generation == Generation(s, row.seriesId) + 1
    && s'.current == s.current[row.seriesId := row]
    && s'.history == if cfg.keepsHistory then s.history[Key(row.seriesId, row.generation) := row] else s.history
  }

  lemma ActShape(cfg: Config, s: Store, r: Request, actor: Actor, now: int, env: Env)
    requires !r.AdoptRequest? && Act(cfg, s, r, actor, now, env).Ok?
    ensures var c := Act(cfg, s, r, actor, now, env).value;
            c.store.current == s.current && c.store.history == s.history
            && c.store.idempotency == s.idempotency && !c.response.Adopted?
  {
    hide CurrentPolicy, StoredPolicy;
  }

  lemma AdoptShape(cfg: Config, s: Store, r: Request)
    requires TablesOk(cfg, s) && r.AdoptRequest? && ActorEntity(Manager) !in s.revocations
    requires Adopt(cfg, s, r, Manager, ContextOf(Manager), s.lastClock).Ok?
    ensures r.proposalId in s.proposals
    ensures var c := Adopt(cfg, s, r, Manager, ContextOf(Manager), s.lastClock).value;
            AddsRow(cfg, s, c.store, NewRow(s, r)) && c.response.Adopted? && ReceiptMatches(NewRow(s, r), c.response)
  {
    hide TablesOk, AdoptChecks, AddsRow;
    AdoptKeeps(cfg, s, r);
    AdoptResponse(cfg, s, r);
  }

  lemma AdoptResponse(cfg: Config, s: Store, r: Request)
    requires TablesOk(cfg, s) && r.AdoptRequest? && ActorEntity(Manager) !in s.revocations
    requires Adopt(cfg, s, r, Manager, ContextOf(Manager), s.lastClock).Ok?
    ensures r.proposalId in s.proposals
    ensures var c := Adopt(cfg, s, r, Manager, ContextOf(Manager), s.lastClock).value;
            c.response.Adopted? && ReceiptMatches(NewRow(s, r), c.response)
  {
    hide EpochOk, ProposalsOk, ValidationsOk, CurrentOk, HistoryRowsOk, HistoryEndsOk, IntervalOk, RowOk, StoredPolicy;
    AdoptedRowOk(cfg, s, r);
  }

  lemma OtherWorkShape(cfg: Config, s: Store, r: Request, actor: Actor, env: Env, seen: bool)
    requires !r.AdoptRequest? && Work(cfg, s, r, actor, env, seen).Ok?
    ensures AdoptsNothing(s, Work(cfg, s, r, actor, env, seen).value.store)
  {
    hide Act;
    var now := Now(s, env.clock).value;
    ActShape(cfg, s.(lastClock := now), r, actor, now, env);
  }

  lemma AdoptWorkShape(cfg: Config, s: Store, r: Request, env: Env)
    requires TablesOk(cfg, s) && r.AdoptRequest? && ActorEntity(Manager) !in s.revocations && r.requestId !in s.idempotency
    requires Work(cfg, s, r, Manager, env, false).Ok?
    ensures r.proposalId in s.proposals && Now(s, env.clock).Ok?
    ensures var t := s.(lastClock := Now(s, env.clock).value);
            AdoptsOne(cfg, s, Work(cfg, s, r, Manager, env, false).value.store, r.requestId, NewRow(t, r))
  {
    hide TablesOk, Act, Adopt;
    var now := Now(s, env.clock).value;
    var t := s.(lastClock := now);
    ClockAdvances(cfg, s, now);
    AdoptAct(cfg, t, r, now, env);
    AdoptShape(cfg, t, r);
  }

  /** Every dispatch adopts nothing or exactly one row with its receipt. */
  lemma TransactShape(cfg: Config, s: Store, r: Request, actor: Actor, env: Env)
    requires WellFormed(cfg) && Invariant(cfg, s) && Allowed(cfg, actor, r)
    requires Transact(cfg, s, r, actor, env).Ok?
    ensures var s' := Transact(cfg, s, r, actor, env).value.store;
            if r.AdoptRequest? && r.requestId !in s.idempotency then
              r.proposalId in s.proposals && ActorEntity(Manager) !in s.revocations && Now(s, env.clock).Ok?
              && var t := s.(lastClock := Now(s, env.clock).value); AdoptsOne(cfg, s, s', r.requestId, NewRow(t, r))
            else AdoptsNothing(s, s')
  {
    hide TablesOk, SavedOk, Work, WellFormed, AdoptsOne, NewRow;
    GatesSound(cfg, s, r, actor);
    var replay := ReplayOf(cfg, s, r.requestId, cfg.hash(RequestDoc(r)), actor, ContextOf(actor)).value;
    if replay.Absent? || Uncached(cfg, r) {
      if r.AdoptRequest? {
        AdoptWorkShape(cfg, s, r, env);
      } else {
        OtherWorkShape(cfg, s, r, actor, env, !replay.Absent?);
      }
    }
  }

  lemma AdoptAct(cfg: Config, s: Store, r: Request, now: int, env: Env)
    requires r.AdoptRequest?
    ensures Act(cfg, s, r, Manager, now, env) == Adopt(cfg, s, r, Manager, ContextOf(Manager), now)
  {
  }

  ghost predicate StepShape(cfg: Config, s: Store, s': Store) {
    AdoptsNothing(s, s') || exists id, row :: AdoptsOne(cfg, s, s', id, row)
  }

  lemma DispatchShape(cfg: Config, s: Store, e: Event)
    requires WellFormed(cfg) && Invariant(cfg, s)
    ensures StepShape(cfg, s, Apply(cfg, s, e).store)
  {
    hide Invariant, Transact, AdoptsOne, Normalize, WellFormed;
    if Attempt(cfg, s, e.peer, e.request, e.env).Ok? {
      var (actor, r) := Admit(cfg, e.peer, e.request).value;
      TransactShape(cfg, s, r, actor, e.env);
    }
  }

  // ---------- revocation freezes ----------

  /** A revoked actor is locked out: every later dispatch of its peer fails and
      changes nothing, a replay of an answered request included. */
  lemma RevokedActorLockedOut(cfg: Config, s: Store, events: seq<Event>, e: Event)
    requires WellFormed(cfg) && Invariant(cfg, s)
    requires Identity(e.peer).Some? && ActorEntity(Identity(e.peer).value) in s.revocations
    ensures var t := Run(cfg, s, events);
            Apply(cfg, t, e).outcome.Err? && Apply(cfg, t, e).store == t
            && (Admit(cfg, e.peer, e.request).Ok? ==> Apply(cfg, t, e).outcome == Err(AUTHORITY_REVOKED))
  {
    hide TablesOk, SavedOk, Normalize, WellFormed;
    RunKeepsInvariant(cfg, s, events);
    var t := Run(cfg, s, events);
    assert ActorEntity(Identity(e.peer).value) in t.revocations;
    GatesSound(cfg, t, e.request, Identity(e.peer).value);
  }

  lemma NoAdoptionWithout(cfg: Config, s: Store, e: Event)
    requires WellFormed(cfg) && Invariant(cfg, s)
    requires ActorEntity(Manager) in s.revocations || ActorEntity(Validator) in s.revocations
    ensures Apply(cfg, s, e).store.current == s.current && Apply(cfg, s, e).store.history == s.history
  {
    hide Invariant, Transact, Normalize, WellFormed, Adopt;
    if Attempt(cfg, s, e.peer, e.request, e.env).Ok? {
      var (actor, r) := Admit(cfg, e.peer, e.request).value;
      TransactShape(cfg, s, r, actor, e.env);
      if r.AdoptRequest? && r.requestId !in s.idempotency {
        ValidatorNeeded(cfg, s, r, actor, e.env);
        assert false;
      }
    }
  }

  lemma ValidatorNeeded(cfg: Config, s: Store, r: Request, actor: Actor, env: Env)
    requires Invariant(cfg, s) && r.AdoptRequest? && r.requestId !in s.idempotency
    requires Allowed(cfg, actor, r) && Transact(cfg, s, r, actor, env).Ok?
    ensures ActorEntity(Manager) !in s.revocations && ActorEntity(Validator) !in s.revocations
  {
    hide EpochOk, ProposalsOk, CurrentOk, HistoryRowsOk, HistoryEndsOk, IntervalOk, SavedOk, StoredPolicy;
    var t := s.(lastClock := Now(s, env.clock).value);
    assert Adopt(cfg, t, r, Manager, ContextOf(Manager), t.lastClock).Ok?;
    assert ValidationOk(cfg, s, r.validationId, s.validations[r.validationId]);
  }

  /** After the manager or the validator is revoked, no series moves again. */
  lemma {:induction false} AdoptionsFreeze(cfg: Config, s: Store, events: seq<Event>)
    requires WellFormed(cfg) && Invariant(cfg, s)
    requires ActorEntity(Manager) in s.revocations || ActorEntity(Validator) in s.revocations
    ensures Run(cfg, s, events).current == s.current
    ensures Run(cfg, s, events).history == s.history
    decreases |events|
  {
    hide Invariant, Dispatch, WellFormed;
    if events != [] {
      var t := Apply(cfg, s, events[0]).store;
      NoAdoptionWithout(cfg, s, events[0]);
      DispatchKeepsInvariant(cfg, s, events[0]);
      AdoptionsFreeze(cfg, t, events[1..]);
    }
  }

  lemma OnlyOperatorRevokes(cfg: Config, s: Store, r: Request, actor: Actor, now: int, env: Env)
    requires Allowed(cfg, actor, r) && actor != Operator && Act(cfg, s, r, actor, now, env).Ok?
    ensures var s' := Act(cfg, s, r, actor, now, env).value.store;
            s'.revocations == s.revocations && s'.permissionGeneration == s.permissionGeneration
  {
    hide CurrentPolicy, StoredPolicy;
  }

  lemma NoRevocationWithout(cfg: Config, s: Store, e: Event)
    requires WellFormed(cfg) && Invariant(cfg, s) && ActorEntity(Operator) in s.revocations
    ensures var s' := Apply(cfg, s, e).store;
            s'.revocations == s.revocations && s'.permissionGeneration == s.permissionGeneration
  {
    hide TablesOk, SavedOk, Act, Normalize, Allowed, WellFormed, ReplayOf;
    if Attempt(cfg, s, e.peer, e.request, e.env).Ok? {
      var (actor, r) := Admit(cfg, e.peer, e.request).value;
      GatesSound(cfg, s, r, actor);
      var replay := ReplayOf(cfg, s, r.requestId, cfg.hash(RequestDoc(r)), actor, ContextOf(actor)).value;
      if replay.Absent? || Uncached(cfg, r) {
        var now := Now(s, e.env.clock).value;
        OnlyOperatorRevokes(cfg, s.(lastClock := now), r, actor, now, e.env);
      }
    }
  }

  /** After the operator is revoked, the revocation set is final. */
  lemma {:induction false} RevocationsFreeze(cfg: Config, s: Store, events: seq<Event>)
    requires WellFormed(cfg) && Invariant(cfg, s) && ActorEntity(Operator) in s.revocations
    ensures Run(cfg, s, events).revocations == s.revocations
    ensures Run(cfg, s, events).permissionGeneration == s.permissionGeneration
    decreases |events|
  {
    hide Invariant, Dispatch, WellFormed;
    if events != [] {
      var t := Apply(cfg, s, events[0]).store;
      NoRevocationWithout(cfg, s, events[0]);
      DispatchKeepsInvariant(cfg, s, events[0]);
      RevocationsFreeze(cfg, t, events[1..]);
    }
  }

  // ---------- replays ----------

  /** What a successful dispatch leaves behind for its request id. */
  lemma SavedBy(cfg: Config, s: Store, r: Request, actor: Actor, env: Env)
    requires WellFormed(cfg) && Invariant(cfg, s) && !Uncached(cfg, r)
    requires Transact(cfg, s, r, actor, env).Ok?
    ensures var c := Transact(cfg, s, r, actor, env).value;
            r.requestId in c.store.idempotency
            && c.store.idempotency[r.requestId]
               == Saved(cfg.hash(RequestDoc(r)), actor, ContextOf(actor), Some(c.response), Some(cfg.hash(ResponseDoc(c.response))))
  {
    hide TablesOk, Act, WellFormed;
  }

  lemma ReplaysSaved(cfg: Config, s: Store, r: Request, actor: Actor, env: Env, response: Response)
    requires WellFormed(cfg) && Invariant(cfg, s) && !Uncached(cfg, r) && ActorEntity(actor) !in s.revocations
    requires r.requestId in s.idempotency
    requires s.idempotency[r.requestId]
             == Saved(cfg.hash(RequestDoc(r)), actor, ContextOf(actor), Some(response), Some(cfg.hash(ResponseDoc(response))))
    ensures Transact(cfg, s, r, actor, env) == Ok(Change(s, response))
  {
    hide TablesOk, Act;
  }

  /** Redelivering an answered request at any later point returns the first
      answer and changes nothing, unless its actor was revoked meanwhile. */
  lemma RedeliveryReplays(cfg: Config, s: Store, e: Event, events: seq<Event>, env: Env)
    requires WellFormed(cfg) && Invariant(cfg, s) && Apply(cfg, s, e).outcome.Ok?
    requires !Uncached(cfg, e.request)
    ensures var t := Run(cfg, Apply(cfg, s, e).store, events);
            Dispatch(cfg, t, e.peer, e.request, env)
            == (if ActorEntity(Identity(e.peer).value) in t.revocations then Step(t, Err(AUTHORITY_REVOKED))
                else Step(t, Apply(cfg, s, e).outcome))
  {
    hide Invariant, Transact, Extends, WellFormed;
    var (actor, r) := Admit(cfg, e.peer, e.request).value;
    var t0 := Apply(cfg, s, e).store;
    var t := Run(cfg, t0, events);
    DispatchKeepsInvariant(cfg, s, e);
    RunKeepsInvariant(cfg, t0, events);
    SavedBy(cfg, s, r, actor, e.env);
    SavedStays(t0, t, r.requestId);
    if ActorEntity(actor) in t.revocations {
      RevokedActorLockedOut(cfg, t, [], Event(e.peer, e.request, env));
    } else {
      ReplaysSaved(cfg, t, r, actor, env, Apply(cfg, s, e).outcome.value);
    }
  }

  lemma SavedStays(s: Store, s': Store, id: Id)
    requires Extends(s, s') && id in s.idempotency
    ensures id in s'.idempotency && s'.idempotency[id] == s.idempotency[id]
  {
  }

  /** An answered request, of whatever kind, holds its id for itself. */
  lemma HoldsId(cfg: Config, s: Store, r: Request, actor: Actor, env: Env)
    requires Transact(cfg, s, r, actor, env).Ok?
    ensures var u := Transact(cfg, s, r, actor, env).value.store;
            r.requestId in u.idempotency
            && u.idempotency[r.requestId].requestDigest == cfg.hash(RequestDoc(r)) && u.idempotency[r.requestId].actor == actor
  {
    hide Act;
    if Now(s, env.clock).Ok? && Act(cfg, s.(lastClock := Now(s, env.clock).value), r, actor, Now(s, env.clock).value, env).Ok? {
      ActKeepsRows(cfg, s.(lastClock := Now(s, env.clock).value), r, actor, Now(s, env.clock).value, env);
    }
  }

  lemma ActKeepsRows(cfg: Config, s: Store, r: Request, actor: Actor, now: int, env: Env)
    requires Act(cfg, s, r, actor, now, env).Ok?
    ensures Act(cfg, s, r, actor, now, env).value.store.idempotency == s.idempotency
  {
    hide CurrentPolicy, StoredPolicy, AdoptChecks;
  }

  lemma IdTaken(cfg: Config, s: Store, r: Request, actor: Actor, env: Env)
    requires WellFormed(cfg) && Invariant(cfg, s) && r.requestId in s.idempotency
    requires s.idempotency[r.requestId].requestDigest != cfg.hash(RequestDoc(r)) || s.idempotency[r.requestId].actor != actor
    ensures Transact(cfg, s, r, actor, env)
            == Err(if ActorEntity(actor) in s.revocations then AUTHORITY_REVOKED else REQUEST_CONFLICT)
  {
    hide Act, ProposalsOk, ValidationsOk, CurrentOk, HistoryRowsOk, HistoryEndsOk, IntervalOk, SavedOk;
  }

  /** Once a request was answered, any other content or actor under its id is
      refused at any later point, and changes nothing. */
  lemma OtherContentRefused(cfg: Config, s: Store, e: Event, events: seq<Event>, f: Event)
    requires WellFormed(cfg) && Invariant(cfg, s) && Apply(cfg, s, e).outcome.Ok?
    requires f.request.requestId == e.request.requestId
    requires Admit(cfg, f.peer, f.request) != Admit(cfg, e.peer, e.request)
    ensures var t := Run(cfg, Apply(cfg, s, e).store, events);
            Apply(cfg, t, f)
            == Step(t, match Admit(cfg, f.peer, f.request)
                       case Err(error) => Err(error)
                       case Ok(admitted) =>
                         Err(if ActorEntity(admitted.0) in t.revocations then AUTHORITY_REVOKED else REQUEST_CONFLICT))
  {
    hide Invariant, Transact, Extends, WellFormed, Normalize;
    var (actor, r) := Admit(cfg, e.peer, e.request).value;
    var t0 := Apply(cfg, s, e).store;
    var t := Run(cfg, t0, events);
    DispatchKeepsInvariant(cfg, s, e);
    RunKeepsInvariant(cfg, t0, events);
    HoldsId(cfg, s, r, actor, e.env);
    NormalizeKeepsId(cfg, e.request);
    SavedStays(t0, t, r.requestId);
    if Admit(cfg, f.peer, f.request).Ok? {
      var (other, q) := Admit(cfg, f.peer, f.request).value;
      NormalizeKeepsId(cfg, f.request);
      DigestsTell(cfg, r, q);
      IdTaken(cfg, t, q, other, f.env);
    }
  }

  lemma NormalizeKeepsId(cfg: Config, r: Request)
    requires Normalize(cfg, r).Ok?
    ensures Normalize(cfg, r).value.requestId == r.requestId
    ensures !r.ProposeRequest? ==> Normalize(cfg, r).value == r
    ensures r.ProposeRequest? ==> Normalize(cfg, r).value == r.(policy := Normalize(cfg, r).value.policy)
  {
  }

  lemma DigestsTell(cfg: Config, r: Request, q: Request)
    requires WellFormed(cfg)
    ensures r != q ==> cfg.hash(RequestDoc(r)) != cfg.hash(RequestDoc(q))
  {
    assert r != q ==> RequestDoc(r) != RequestDoc(q);
  }

  // ---------- the audit trail ----------

  /** Where the saved answer of a request points: the history row it adopted. */
  function ReceiptKey(row: Saved): Key
    requires AdoptedResponse(row)
  {
    Key(row.response.value.seriesId, row.response.value.generation)
  }

  ghost predicate HasReceipt(s: Store, k: Key) {
    exists id :: id in s.idempotency && AdoptedResponse(s.idempotency[id]) && ReceiptKey(s.idempotency[id]) == k
  }

  ghost predicate ReceiptsPoint(s: Store) {
    forall id :: id in s.idempotency && AdoptedResponse(s.idempotency[id]) ==>
      ReceiptKey(s.idempotency[id]) in s.history
      && ReceiptMatches(s.history[ReceiptKey(s.idempotency[id])], s.idempotency[id].response.value)
  }

  ghost predicate ReceiptsDistinct(s: Store) {
    forall i, j :: i in s.idempotency && j in s.idempotency && i != j
                   && AdoptedResponse(s.idempotency[i]) && AdoptedResponse(s.idempotency[j])
      ==> ReceiptKey(s.idempotency[i]) != ReceiptKey(s.idempotency[j])
  }

  ghost predicate RowsHaveReceipts(s: Store) {
    forall k :: k in s.history ==> HasReceipt(s, k)
  }

  /** Every series has history rows for exactly the generations 1..current. */
  ghost predicate HistoryComplete(s: Store) {
    forall id, g :: Key(id, g) in s.history <==> 1 <= g <= Generation(s, id)
  }

  ghost predicate AuditOk(s: Store) {
    ReceiptsPoint(s) && ReceiptsDistinct(s) && RowsHaveReceipts(s) && HistoryComplete(s)
  }

  lemma AuditUntouched(s: Store, s': Store)
    requires AuditOk(s) && AdoptsNothing(s, s') && RecordsGrow(s, s')
    ensures AuditOk(s')
  {
    forall k | k in s'.history ensures HasReceipt(s', k) {
      assert HasReceipt(s, k);
      var id :| id in s.idempotency && AdoptedResponse(s.idempotency[id]) && ReceiptKey(s.idempotency[id]) == k;
      assert s'.idempotency[id] == s.idempotency[id];
    }
  }

  lemma ReceiptsGrow(cfg: Config, s: Store, s': Store, id: Id, row: Adoption)
    requires ReceiptsPoint(s) && ReceiptsDistinct(s) && AdoptsOne(cfg, s, s', id, row) && cfg.keepsHistory
    requires Key(row.seriesId, row.generation) !in s.history
    ensures ReceiptsPoint(s') && ReceiptsDistinct(s')
  {
    forall i | i in s.idempotency && AdoptedResponse(s.idempotency[i])
      ensures ReceiptKey(s.idempotency[i]) in s.history
    {
    }
  }

  lemma RowsKeepReceipts(cfg: Config, s: Store, s': Store, id: Id, row: Adoption)
    requires RowsHaveReceipts(s) && AdoptsOne(cfg, s, s', id, row) && cfg.keepsHistory
    ensures RowsHaveReceipts(s')
  {
    forall k | k in s'.history ensures HasReceipt(s', k) {
      if k in s.history {
        assert HasReceipt(s, k);
        var i :| i in s.idempotency && AdoptedResponse(s.idempotency[i]) && ReceiptKey(s.idempotency[i]) == k;
        assert s'.idempotency[i] == s.idempotency[i];
      } else {
        assert id in s'.idempotency && ReceiptKey(s'.idempotency[id]) == k;
      }
    }
  }

  lemma HistoryStaysComplete(cfg: Config, s: Store, s': Store, id: Id, row: Adoption)
    requires HistoryComplete(s) && AdoptsOne(cfg, s, s', id, row) && cfg.keepsHistory
    requires Generation(s, row.seriesId) >= 0
    ensures HistoryComplete(s') && Key(row.seriesId, row.generation) !in s.history
  {
  }

  lemma NonNegativeGeneration(cfg: Config, s: Store, id: Id)
    requires TablesOk(cfg, s)
    ensures Generation(s, id) >= 0
  {
    GenerationsPositive(cfg, s);
  }

  lemma AuditStep(cfg: Config, s: Store, e: Event)
    requires WellFormed(cfg) && Invariant(cfg, s) && cfg.keepsHistory && AuditOk(s)
    ensures AuditOk(Apply(cfg, s, e).store)
  {
    hide TablesOk, SavedOk, Dispatch, AdoptsNothing, AdoptsOne, WellFormed;
    hide ReceiptsPoint, ReceiptsDistinct, RowsHaveReceipts, HistoryComplete;
    var s' := Apply(cfg, s, e).store;
    DispatchShape(cfg, s, e);
    DispatchKeepsInvariant(cfg, s, e);
    if AdoptsNothing(s, s') {
      AuditUntouched(s, s');
    } else {
      var id, row :| AdoptsOne(cfg, s, s', id, row);
      NonNegativeGeneration(cfg, s, row.seriesId);
      HistoryStaysComplete(cfg, s, s', id, row);
      ReceiptsGrow(cfg, s, s', id, row);
      RowsKeepReceipts(cfg, s, s', id, row);
    }
  }

  lemma {:induction false} AuditRun(cfg: Config, s: Store, events: seq<Event>)
    requires WellFormed(cfg) && Invariant(cfg, s) && cfg.keepsHistory && AuditOk(s)
    ensures AuditOk(Run(cfg, s, events))
    decreases |events|
  {
    hide Invariant, AuditOk, Dispatch, WellFormed;
    if events != [] {
      AuditStep(cfg, s, events[0]);
      DispatchKeepsInvariant(cfg, s, events[0]);
      AuditRun(cfg, Apply(cfg, s, events[0]).store, events[1..]);
    }
  }

  /** From an empty store with a history, in every run: the history generations
      of a series are exactly 1..current; adopt request ids with a saved answer
      correspond one to one with history rows, field by field; and no proposal
      and no validation is adopted twice. */
  lemma AuditBijection(cfg: Config, events: seq<Event>)
    requires WellFormed(cfg) && cfg.keepsHistory
    ensures var s := Run(cfg, EMPTY, events);
            && HistoryComplete(s)
            && ReceiptsPoint(s)
            && ReceiptsDistinct(s)
            && RowsHaveReceipts(s)
            && (forall j, k :: j in s.history && k in s.history && j != k ==>
                  s.history[j].proposalId != s.history[k].proposalId
                  && s.history[j].validationId != s.history[k].validationId)
  {
    hide Invariant, WellFormed, Dispatch;
    EmptyStoreOk(cfg);
    AuditRun(cfg, EMPTY, events);
    RunKeepsInvariant(cfg, EMPTY, events);
    AdoptedOnce(cfg, Run(cfg, EMPTY, events));
  }

  lemma AdoptedOnce(cfg: Config, s: Store)
    requires Invariant(cfg, s)
    ensures forall j, k :: j in s.history && k in s.history && j != k ==>
              s.history[j].proposalId != s.history[k].proposalId
              && s.history[j].validationId != s.history[k].validationId
  {
    hide EpochOk, ProposalsOk, ValidationsOk, CurrentOk, HistoryEndsOk, IntervalOk, SavedOk;
    forall j, k | j in s.history && k in s.history && j != k
      ensures s.history[j].proposalId != s.history[k].proposalId
              && s.history[j].validationId != s.history[k].validationId
    {
      assert RowOk(cfg, s, s.history[j]) && RowOk(cfg, s, s.history[k]);
      assert j == Key(j.seriesId, j.generation) && k == Key(k.seriesId, k.generation);
    }
  }
}
