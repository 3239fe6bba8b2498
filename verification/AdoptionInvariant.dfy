/** What every reachable adoption store satisfies, and how stores evolve. */
module AdoptionInvariant {
  import opened Common
  import opened Adoption

  // ---------- the invariant, table by table ----------

  /** The permission generation counts the revocations; their generations are
      distinct and lie in 1..n, hence (`EpochsExact`) are exactly 1..n. */
  ghost predicate EpochOk(s: Store) {
    && -1 <= s.lastClock <= MAX_INTEGER
    && |s.revocations| == s.permissionGeneration <= MAX_INTEGER
    && (forall e :: e in s.revocations ==> 1 <= s.revocations[e].generation <= s.permissionGeneration)
    && (forall e, f :: e in s.revocations && f in s.revocations && e != f
          ==> s.revocations[e].generation != s.revocations[f].generation)
    && (forall id :: ValidationEntity(id) in s.revocations ==> id in s.validations)
  }

  /** If the entity is revoked, that happened after the given epoch. */
  predicate RevokedAfter(s: Store, e: Entity, epoch: int) {
    e in s.revocations ==> s.revocations[e].generation > epoch
  }

  ghost predicate ProposalOk(cfg: Config, s: Store, p: Proposal) {
    && cfg.normalize(p.policy) == Some(p.policy)
    && cfg.fits(PolicyDoc(p.policy))
    && p.policyDigest == cfg.hash(PolicyDoc(p.policy))
    && 0 <= p.expectedGeneration <= Generation(s, p.seriesId)
    && p.expectedGeneration <= MAX_INTEGER
    && 0 <= p.createdAt <= s.lastClock
    && p.actor == Manager
    && p.context == ContextOf(Manager)
    && p.bootstrapDigest == cfg.bootstrapDigest
    && ProfileMatches(cfg, p.validatorDigest)
  }

  ghost predicate ValidationOk(cfg: Config, s: Store, id: Id, v: Validation) {
    && v.proposalId in s.proposals
    && var p := s.proposals[v.proposalId];
    && v.proposalDigest == p.policyDigest
    && v.expectedGeneration == p.expectedGeneration
    && v.validatorDigest == p.validatorDigest
    && v.bootstrapDigest == cfg.bootstrapDigest
    && 0 <= v.observedAt <= s.lastClock
    && v.expiresAt == v.observedAt + VALIDATION_TTL <= MAX_INTEGER
    && v.actor == Validator
    && v.context == ContextOf(Validator)
    && 0 <= v.permissionGeneration <= s.permissionGeneration
    && RevokedAfter(s, ValidationEntity(id), v.permissionGeneration)
    && RevokedAfter(s, ActorEntity(Validator), v.permissionGeneration)
  }

  /** An adoption row agrees with the proposal and validation it names. */
  ghost predicate RowOk(cfg: Config, s: Store, row: Adoption) {
    && row.proposalId in s.proposals
    && row.validationId in s.validations
    && var p := s.proposals[row.proposalId];
    && var v := s.validations[row.validationId];
    && row.seriesId == p.seriesId
    && row.generation == p.expectedGeneration + 1 <= MAX_INTEGER
    && row.policy == p.policy
    && row.policyDigest == p.policyDigest
    && row.actor == Manager
    && row.context == ContextOf(Manager)
    && v.proposalId == row.proposalId
    && v.observedAt <= row.adoptedAt < v.expiresAt
    && row.adoptedAt <= s.lastClock
    && RevokedAfter(s, ActorEntity(Manager), v.permissionGeneration)
  }

  ghost predicate HistoryRowsOk(cfg: Config, s: Store) {
    && (!cfg.keepsHistory ==> s.history == map[])
    && (forall k :: k in s.history ==>
          s.history[k].seriesId == k.seriesId && s.history[k].generation == k.generation
          && RowOk(cfg, s, s.history[k]))
  }

  /** The history of a series ends in the row current_profiles holds. */
  ghost predicate HistoryEndsOk(cfg: Config, s: Store) {
    && (forall k :: k in s.history ==> k.seriesId in s.current && k.generation <= s.current[k.seriesId].generation)
    && (forall id :: id in s.current && cfg.keepsHistory ==>
          && Key(id, s.current[id].generation) in s.history
          && s.history[Key(id, s.current[id].generation)] == s.current[id])
  }

  /** The generations a series has history rows for have no gap up to the current one. */
  ghost predicate IntervalOk(s: Store) {
    forall id, g, h {:trigger Key(id, g) in s.history, Key(id, h) in s.history} ::
      Key(id, g) in s.history && g <= h <= Generation(s, id) ==> Key(id, h) in s.history
  }

  ghost predicate ProposalsOk(cfg: Config, s: Store) {
    forall id :: id in s.proposals ==> ProposalOk(cfg, s, s.proposals[id])
  }

  ghost predicate ValidationsOk(cfg: Config, s: Store) {
    forall id :: id in s.validations ==> ValidationOk(cfg, s, id, s.validations[id])
  }

  ghost predicate CurrentOk(cfg: Config, s: Store) {
    forall id :: id in s.current ==> s.current[id].seriesId == id && RowOk(cfg, s, s.current[id])
  }

  predicate KnownAction(cfg: Config, r: Request) {
    r.ExtensionRequest? ==> r.action in cfg.extensionActions
  }

  /** The request whose digest a saved row carries: it has the row's id, and the
      row is a bare marker exactly for the uncached actions. */
  ghost predicate SavedRequestOk(cfg: Config, id: Id, row: Saved) {
    forall q :: cfg.hash(RequestDoc(q)) == row.requestDigest ==>
      q.requestId == id && KnownAction(cfg, q) && (Uncached(cfg, q) <==> row.response.None?)
  }

  ghost predicate SavedOk(cfg: Config, s: Store) {
    forall id :: id in s.idempotency ==>
      && var row := s.idempotency[id];
      && (row.response.None? <==> row.responseDigest.None?)
      && SavedRequestOk(cfg, id, row)
      && (row.response.Some? ==>
            && cfg.fits(ResponseDoc(row.response.value))
            && row.responseDigest == Some(cfg.hash(ResponseDoc(row.response.value)))
            && row.response.value.requestId == id)
  }

  ghost predicate TablesOk(cfg: Config, s: Store) {
    && EpochOk(s)
    && ProposalsOk(cfg, s)
    && ValidationsOk(cfg, s)
    && CurrentOk(cfg, s)
    && HistoryRowsOk(cfg, s)
    && HistoryEndsOk(cfg, s)
    && IntervalOk(s)
  }

  ghost predicate Invariant(cfg: Config, s: Store) {
    TablesOk(cfg, s) && SavedOk(cfg, s)
  }

  // ---------- evolution ----------

  ghost predicate ProposalsGrow(s: Store, s': Store) {
    forall id :: id in s.proposals ==> id in s'.proposals && s'.proposals[id] == s.proposals[id]
  }

  ghost predicate ValidationsGrow(s: Store, s': Store) {
    forall id :: id in s.validations ==> id in s'.validations && s'.validations[id] == s.validations[id]
  }

  ghost predicate RecordsGrow(s: Store, s': Store) {
    && (forall id :: id in s.idempotency ==> id in s'.idempotency && s'.idempotency[id] == s.idempotency[id])
    && (forall k :: k in s.history ==> k in s'.history && s'.history[k] == s.history[k])
  }

  /** Clock and epoch never go back; new revocations get later epochs. */
  ghost predicate EpochGrows(s: Store, s': Store) {
    && s.lastClock <= s'.lastClock
    && s.permissionGeneration <= s'.permissionGeneration
    && (forall e :: e in s.revocations ==> e in s'.revocations && s'.revocations[e] == s.revocations[e])
    && (forall e :: e in s'.revocations && e !in s.revocations
          ==> s'.revocations[e].generation > s.permissionGeneration)
  }

  ghost predicate CurrentMoves(s: Store, s': Store) {
    forall id :: id in s.current ==>
      id in s'.current
      && (s'.current[id] == s.current[id] || s'.current[id].generation > s.current[id].generation)
  }

  /** Rows are only ever added; the one table that is updated in place only
      moves to later generations. */
  ghost predicate Extends(s: Store, s': Store) {
    && ProposalsGrow(s, s')
    && ValidationsGrow(s, s')
    && RecordsGrow(s, s')
    && EpochGrows(s, s')
    && CurrentMoves(s, s')
  }

  lemma ExtendsTransitive(s: Store, t: Store, u: Store)
    requires Extends(s, t) && Extends(t, u)
    ensures Extends(s, u)
  {
    assert ProposalsGrow(s, u);
    assert ValidationsGrow(s, u);
    assert RecordsGrow(s, u);
    assert EpochGrows(s, u);
    assert CurrentMoves(s, u);
  }

  // ---------- rows already there stay well linked ----------

  lemma RowKept(cfg: Config, s: Store, s': Store, row: Adoption)
    requires RowOk(cfg, s, row) && ValidationsOk(cfg, s)
    requires ProposalsGrow(s, s') && ValidationsGrow(s, s') && EpochGrows(s, s')
    ensures RowOk(cfg, s', row)
  {
    assert ValidationOk(cfg, s, row.validationId, s.validations[row.validationId]);
  }

  lemma ValidationKept(cfg: Config, s: Store, s': Store, id: Id, v: Validation)
    requires ValidationOk(cfg, s, id, v)
    requires ProposalsGrow(s, s') && EpochGrows(s, s')
    ensures ValidationOk(cfg, s', id, v)
  {
  }

  lemma ValidationsKept(cfg: Config, s: Store, s': Store)
    requires ValidationsOk(cfg, s)
    requires ProposalsGrow(s, s') && EpochGrows(s, s') && s'.validations == s.validations
    ensures ValidationsOk(cfg, s')
  {
    forall id | id in s'.validations ensures ValidationOk(cfg, s', id, s'.validations[id]) {
      ValidationKept(cfg, s, s', id, s.validations[id]);
    }
  }

  lemma ProposalsKept(cfg: Config, s: Store, s': Store)
    requires ProposalsOk(cfg, s)
    requires CurrentMoves(s, s') && s.lastClock <= s'.lastClock && s'.proposals == s.proposals
    requires forall id :: id in s'.current ==> s'.current[id].generation >= 0
    ensures ProposalsOk(cfg, s')
  {
    forall id | id in s'.proposals ensures ProposalOk(cfg, s', s'.proposals[id]) {
      assert ProposalOk(cfg, s, s.proposals[id]);
    }
  }

  lemma CurrentKept(cfg: Config, s: Store, s': Store)
    requires CurrentOk(cfg, s) && ValidationsOk(cfg, s)
    requires ProposalsGrow(s, s') && ValidationsGrow(s, s') && EpochGrows(s, s') && s'.current == s.current
    ensures CurrentOk(cfg, s')
  {
    hide RowOk, ValidationsOk;
    forall id | id in s'.current ensures RowOk(cfg, s', s'.current[id]) {
      RowKept(cfg, s, s', s.current[id]);
    }
  }

  lemma HistoryRowsKept(cfg: Config, s: Store, s': Store)
    requires HistoryRowsOk(cfg, s) && ValidationsOk(cfg, s)
    requires ProposalsGrow(s, s') && ValidationsGrow(s, s') && EpochGrows(s, s') && s'.history == s.history
    ensures HistoryRowsOk(cfg, s')
  {
    hide RowOk, ValidationsOk;
    forall k | k in s'.history ensures RowOk(cfg, s', s'.history[k]) {
      RowKept(cfg, s, s', s.history[k]);
    }
  }

  /** A step that writes neither the current rows nor the history. */
  lemma AdoptionsKept(cfg: Config, s: Store, s': Store)
    requires CurrentOk(cfg, s) && ValidationsOk(cfg, s) && HistoryRowsOk(cfg, s) && HistoryEndsOk(cfg, s) && IntervalOk(s)
    requires ProposalsGrow(s, s') && ValidationsGrow(s, s') && EpochGrows(s, s')
    requires s'.current == s.current && s'.history == s.history
    ensures CurrentOk(cfg, s') && HistoryRowsOk(cfg, s') && HistoryEndsOk(cfg, s') && IntervalOk(s')
  {
    CurrentKept(cfg, s, s');
    HistoryRowsKept(cfg, s, s');
    HistoryEndsKept(cfg, s, s');
  }

  lemma HistoryEndsKept(cfg: Config, s: Store, s': Store)
    requires HistoryEndsOk(cfg, s) && IntervalOk(s)
    requires s'.current == s.current && s'.history == s.history
    ensures HistoryEndsOk(cfg, s') && IntervalOk(s')
  {
  }

  lemma GenerationsPositive(cfg: Config, s: Store)
    requires CurrentOk(cfg, s) && ProposalsOk(cfg, s)
    ensures forall id :: id in s.current ==> 1 <= s.current[id].generation <= MAX_INTEGER
  {
    forall id | id in s.current ensures 1 <= s.current[id].generation <= MAX_INTEGER {
      assert ProposalOk(cfg, s, s.proposals[s.current[id].proposalId]);
    }
  }

  // ---------- each action keeps the tables ----------

  /** Moves the clock, or writes the idempotency table, and nothing else. */
  lemma ClockKeeps(cfg: Config, s: Store, s': Store)
    requires TablesOk(cfg, s) && s.lastClock <= s'.lastClock <= MAX_INTEGER
    requires s' == s.(lastClock := s'.lastClock, idempotency := s'.idempotency)
    ensures TablesOk(cfg, s')
  {
    hide RowOk, ValidationOk, ProposalOk;
    GenerationsPositive(cfg, s);
    ProposalsKept(cfg, s, s');
    ValidationsKept(cfg, s, s');
    AdoptionsKept(cfg, s, s');
  }

  lemma ProposalRowAdded(cfg: Config, s: Store, s': Store, id: Id, p: Proposal)
    requires ProposalsOk(cfg, s) && ProposalOk(cfg, s, p) && id !in s.proposals
    requires s' == s.(proposals := s.proposals[id := p])
    ensures ProposalsOk(cfg, s')
  {
    forall k | k in s'.proposals ensures ProposalOk(cfg, s', s'.proposals[k]) {
      if k != id { assert ProposalOk(cfg, s, s.proposals[k]); }
    }
  }

  lemma ProposalAdded(cfg: Config, s: Store, s': Store, id: Id, p: Proposal)
    requires TablesOk(cfg, s) && ProposalOk(cfg, s, p) && id !in s.proposals
    requires s' == s.(proposals := s.proposals[id := p])
    ensures TablesOk(cfg, s') && Extends(s, s')
  {
    hide EpochOk, ProposalsOk, ValidationsOk, CurrentOk, HistoryRowsOk, HistoryEndsOk, IntervalOk, ProposalOk;
    ProposalRowAdded(cfg, s, s', id, p);
    EpochSame(s, s');
    ValidationsKept(cfg, s, s');
    AdoptionsKept(cfg, s, s');
  }

  lemma ProposalWritten(cfg: Config, s: Store, r: Request)
    requires r.ProposeRequest? && s.lastClock >= 0
    requires cfg.normalize(r.policy) == Some(r.policy) && IsUint(r.expectedGeneration)
    requires Propose(cfg, s, r, Manager, ContextOf(Manager), s.lastClock).Ok?
    ensures var s' := Propose(cfg, s, r, Manager, ContextOf(Manager), s.lastClock).value.store;
            if r.proposalId in s.proposals then s' == s
            else r.proposalId in s'.proposals
                 && s' == s.(proposals := s.proposals[r.proposalId := s'.proposals[r.proposalId]])
                 && ProposalOk(cfg, s, s'.proposals[r.proposalId])
  {
  }

  lemma ProposeKeeps(cfg: Config, s: Store, r: Request)
    requires TablesOk(cfg, s) && r.ProposeRequest? && s.lastClock >= 0
    requires cfg.normalize(r.policy) == Some(r.policy) && IsUint(r.expectedGeneration)
    requires Propose(cfg, s, r, Manager, ContextOf(Manager), s.lastClock).Ok?
    ensures var s' := Propose(cfg, s, r, Manager, ContextOf(Manager), s.lastClock).value.store;
            TablesOk(cfg, s') && Extends(s, s') && s'.idempotency == s.idempotency
  {
    hide TablesOk, ProposalOk, Propose, Extends;
    ProposalWritten(cfg, s, r);
    var s' := Propose(cfg, s, r, Manager, ContextOf(Manager), s.lastClock).value.store;
    if r.proposalId in s.proposals {
      ExtendsReflexive(s);
    } else {
      ProposalAdded(cfg, s, s', r.proposalId, s'.proposals[r.proposalId]);
    }
  }

  lemma EpochSame(s: Store, s': Store)
    requires EpochOk(s) && ValidationsGrow(s, s')
    requires s' == s.(proposals := s'.proposals, validations := s'.validations)
    ensures EpochOk(s')
  {
  }

  lemma ValidationRowAdded(cfg: Config, s: Store, s': Store, id: Id, v: Validation)
    requires ValidationsOk(cfg, s) && ValidationOk(cfg, s, id, v) && id !in s.validations
    requires s' == s.(validations := s.validations[id := v])
    ensures ValidationsOk(cfg, s')
  {
    hide ValidationOk;
    forall k | k in s'.validations ensures ValidationOk(cfg, s', k, s'.validations[k]) {
      ValidationKept(cfg, s, s', k, s'.validations[k]);
    }
  }

  lemma ValidationAdded(cfg: Config, s: Store, s': Store, id: Id, v: Validation)
    requires TablesOk(cfg, s) && ValidationOk(cfg, s, id, v) && id !in s.validations
    requires s' == s.(validations := s.validations[id := v])
    ensures TablesOk(cfg, s') && Extends(s, s')
  {
    hide EpochOk, ProposalsOk, ValidationsOk, CurrentOk, HistoryRowsOk, HistoryEndsOk, IntervalOk, ValidationOk;
    ValidationRowAdded(cfg, s, s', id, v);
    EpochSame(s, s');
    ProposalsUntouched(cfg, s, s');
    AdoptionsKept(cfg, s, s');
  }

  /** The validation a first `validate` writes, in terms of its proposal. */
  lemma ValidationWritten(cfg: Config, s: Store, r: Request)
    requires EpochOk(s) && ProposalsOk(cfg, s) && r.ValidateRequest? && s.lastClock >= 0
    requires ActorEntity(Validator) !in s.revocations
    requires Validate(cfg, s, r, Validator, ContextOf(Validator), s.lastClock).Ok?
    ensures var s' := Validate(cfg, s, r, Validator, ContextOf(Validator), s.lastClock).value.store;
            if r.validationId in s.validations then s' == s
            else r.validationId in s'.validations
                 && s' == s.(validations := s.validations[r.validationId := s'.validations[r.validationId]])
                 && ValidationOk(cfg, s, r.validationId, s'.validations[r.validationId])
  {
    assert ProposalOk(cfg, s, s.proposals[r.proposalId]);
  }

  lemma ValidateKeeps(cfg: Config, s: Store, r: Request)
    requires TablesOk(cfg, s) && r.ValidateRequest? && s.lastClock >= 0
    requires ActorEntity(Validator) !in s.revocations
    requires Validate(cfg, s, r, Validator, ContextOf(Validator), s.lastClock).Ok?
    ensures var s' := Validate(cfg, s, r, Validator, ContextOf(Validator), s.lastClock).value.store;
            TablesOk(cfg, s') && Extends(s, s') && s'.idempotency == s.idempotency
  {
    hide EpochOk, ProposalsOk, ValidationsOk, CurrentOk, HistoryRowsOk, HistoryEndsOk, IntervalOk;
    hide ValidationOk, Validate, Extends;
    ValidationWritten(cfg, s, r);
    var s' := Validate(cfg, s, r, Validator, ContextOf(Validator), s.lastClock).value.store;
    if r.validationId in s.validations {
      ExtendsReflexive(s);
    } else {
      ValidationAdded(cfg, s, s', r.validationId, s'.validations[r.validationId]);
    }
  }

  /** The row a successful adoption writes, spelled out from its two sources. */
  function NewRow(s: Store, r: Request): Adoption
    requires r.AdoptRequest? && r.proposalId in s.proposals
  {
    var p := s.proposals[r.proposalId];
    Adoption(p.seriesId, r.expectedGeneration + 1, r.proposalId, r.validationId, p.policy, p.policyDigest,
             s.lastClock, Manager, ContextOf(Manager))
  }

  lemma AdoptedRowOk(cfg: Config, s: Store, r: Request)
    requires r.AdoptRequest? && ActorEntity(Manager) !in s.revocations
    requires ProposalsOk(cfg, s) && ValidationsOk(cfg, s)
    requires AdoptChecks(cfg, s, r, Manager, ContextOf(Manager), s.lastClock).Ok?
    ensures r.expectedGeneration == Generation(s, s.proposals[r.proposalId].seriesId) < MAX_INTEGER
    ensures AdoptChecks(cfg, s, r, Manager, ContextOf(Manager), s.lastClock).value == s.proposals[r.proposalId].policy
    ensures RowOk(cfg, s, NewRow(s, r))
  {
    assert ProposalOk(cfg, s, s.proposals[r.proposalId]);
    assert ValidationOk(cfg, s, r.validationId, s.validations[r.validationId]);
  }

  /** `s'` is `s` with the row adopted. */
  ghost predicate AddsRow(cfg: Config, s: Store, s': Store, row: Adoption) {
    && row.generation == Generation(s, row.seriesId) + 1
    && s' == s.(current := s.current[row.seriesId := row],
                history := if cfg.keepsHistory then s.history[Key(row.seriesId, row.generation) := row] else s.history)
  }

  lemma RowLinksKept(cfg: Config, s: Store, s': Store, row: Adoption)
    requires ProposalsOk(cfg, s) && ValidationsOk(cfg, s) && CurrentOk(cfg, s)
    requires RowOk(cfg, s, row) && AddsRow(cfg, s, s', row)
    ensures ProposalsOk(cfg, s') && ValidationsOk(cfg, s')
  {
    hide ValidationsOk, RowOk;
    GenerationsPositive(cfg, s);
    ProposalsKept(cfg, s, s');
    ValidationsKept(cfg, s, s');
  }

  lemma RowsKept(cfg: Config, s: Store, s': Store, row: Adoption)
    requires ValidationsOk(cfg, s) && CurrentOk(cfg, s) && HistoryRowsOk(cfg, s)
    requires RowOk(cfg, s, row) && AddsRow(cfg, s, s', row)
    ensures CurrentOk(cfg, s') && HistoryRowsOk(cfg, s')
  {
    hide RowOk, ValidationsOk;
    RowKept(cfg, s, s', row);
    forall id | id in s.current ensures RowOk(cfg, s', s.current[id]) { RowKept(cfg, s, s', s.current[id]); }
    forall k | k in s.history ensures RowOk(cfg, s', s.history[k]) { RowKept(cfg, s, s', s.history[k]); }
  }

  lemma HistoryMoves(cfg: Config, s: Store, s': Store, row: Adoption)
    requires HistoryEndsOk(cfg, s) && AddsRow(cfg, s, s', row)
    requires cfg.keepsHistory || s.history == map[]
    ensures HistoryEndsOk(cfg, s')
  {
  }

  lemma IntervalMoves(cfg: Config, s: Store, s': Store, row: Adoption)
    requires IntervalOk(s) && AddsRow(cfg, s, s', row)
    requires cfg.keepsHistory || s.history == map[]
    ensures IntervalOk(s')
  {
    forall id, g, h {:trigger Key(id, g) in s'.history, Key(id, h) in s'.history}
      | Key(id, g) in s'.history && g <= h <= Generation(s', id)
      ensures Key(id, h) in s'.history
    {
      if Key(id, g) in s.history && h <= Generation(s, id) {
        assert Key(id, h) in s.history;
      }
    }
  }

  lemma AdoptMoves(cfg: Config, s: Store, s': Store, row: Adoption)
    requires AddsRow(cfg, s, s', row) && HistoryEndsOk(cfg, s)
    ensures Extends(s, s')
  {
    if cfg.keepsHistory && Key(row.seriesId, row.generation) in s.history { assert false; }
  }

  lemma AdoptKeeps(cfg: Config, s: Store, r: Request)
    requires TablesOk(cfg, s) && r.AdoptRequest? && ActorEntity(Manager) !in s.revocations
    requires Adopt(cfg, s, r, Manager, ContextOf(Manager), s.lastClock).Ok?
    ensures var s' := Adopt(cfg, s, r, Manager, ContextOf(Manager), s.lastClock).value.store;
            TablesOk(cfg, s') && Extends(s, s') && s'.idempotency == s.idempotency
            && AddsRow(cfg, s, s', NewRow(s, r))
  {
    hide ProposalsOk, ValidationsOk, CurrentOk, HistoryEndsOk, IntervalOk, Extends, AdoptChecks, RowOk;
    AdoptedRowOk(cfg, s, r);
    var s' := Adopt(cfg, s, r, Manager, ContextOf(Manager), s.lastClock).value.store;
    var row := NewRow(s, r);
    RowLinksKept(cfg, s, s', row);
    RowsKept(cfg, s, s', row);
    HistoryMoves(cfg, s, s', row);
    IntervalMoves(cfg, s, s', row);
    AdoptMoves(cfg, s, s', row);
  }

  lemma EpochMoves(s: Store, s': Store, e: Entity)
    requires EpochOk(s) && e !in s.revocations && s.permissionGeneration < MAX_INTEGER
    requires e.ValidationEntity? ==> e.id in s.validations
    requires s' == s.(permissionGeneration := s.permissionGeneration + 1,
                      revocations := s.revocations[e := Revocation(s.permissionGeneration + 1, s.lastClock)])
    ensures EpochOk(s') && EpochGrows(s, s')
  {
  }

  lemma RevokeKeeps(cfg: Config, s: Store, e: Entity)
    requires TablesOk(cfg, s) && s.lastClock >= 0 && e !in s.revocations
    requires e.ValidationEntity? ==> e.id in s.validations
    requires Revoke(s, e, s.lastClock).Ok?
    ensures var s' := Revoke(s, e, s.lastClock).value;
            TablesOk(cfg, s') && Extends(s, s') && s'.idempotency == s.idempotency
  {
    hide EpochOk, ProposalsOk, ValidationsOk, CurrentOk, HistoryRowsOk, HistoryEndsOk, IntervalOk, EpochGrows;
    var s' := Revoke(s, e, s.lastClock).value;
    EpochMoves(s, s', e);
    ProposalsUntouched(cfg, s, s');
    ValidationsKept(cfg, s, s');
    AdoptionsKept(cfg, s, s');
  }

  lemma ProposalsUntouched(cfg: Config, s: Store, s': Store)
    requires ProposalsOk(cfg, s)
    requires s'.proposals == s.proposals && s'.current == s.current && s'.lastClock == s.lastClock
    ensures ProposalsOk(cfg, s')
  {
  }

  lemma ActKeeps(cfg: Config, s: Store, r: Request, actor: Actor, env: Env)
    requires TablesOk(cfg, s) && s.lastClock >= 0
    requires Allowed(cfg, actor, r) && ActorEntity(actor) !in s.revocations
    requires r.ProposeRequest? ==> cfg.normalize(r.policy) == Some(r.policy) && IsUint(r.expectedGeneration)
    requires Act(cfg, s, r, actor, s.lastClock, env).Ok?
    ensures var c := Act(cfg, s, r, actor, s.lastClock, env).value;
            TablesOk(cfg, c.store) && Extends(s, c.store) && c.store.idempotency == s.idempotency
  {
    hide TablesOk, Propose, Validate, Adopt, Revoke, CurrentPolicy;
    match r
    case ProposeRequest(_, _, _, _, _) => ProposeKeeps(cfg, s, r);
    case ValidateRequest(_, _, _) => ValidateKeeps(cfg, s, r);
    case AdoptRequest(_, _, _, _) => AdoptKeeps(cfg, s, r);
    case RevokeActorRequest(_, _) => RevokeKeeps(cfg, s, ActorEntity(r.target.actor));
    case RevokeValidationRequest(_, id) => RevokeKeeps(cfg, s, ValidationEntity(id));
    case _ =>
  }

  // ---------- a whole dispatch ----------

  /** The answer is addressed to the request that asked. */
  lemma AnswersRequest(cfg: Config, s: Store, r: Request, actor: Actor, env: Env)
    requires Act(cfg, s, r, actor, s.lastClock, env).Ok?
    ensures Act(cfg, s, r, actor, s.lastClock, env).value.response.requestId == r.requestId
  {
  }

  lemma TablesKeptByResult(cfg: Config, s: Store, s': Store)
    requires TablesOk(cfg, s) && s' == s.(idempotency := s'.idempotency)
    ensures TablesOk(cfg, s')
  {
    hide TablesOk;
    EpochLow(cfg, s);
    ClockKeeps(cfg, s, s');
  }

  lemma EpochLow(cfg: Config, s: Store)
    requires TablesOk(cfg, s)
    ensures s.lastClock <= MAX_INTEGER
  {
  }

  lemma NewRowRequest(cfg: Config, r: Request, actor: Actor, response: Option<Response>)
    requires WellFormed(cfg) && KnownAction(cfg, r) && (Uncached(cfg, r) <==> response.None?)
    ensures forall d :: SavedRequestOk(cfg, r.requestId, Saved(cfg.hash(RequestDoc(r)), actor, ContextOf(actor), response, d))
  {
    forall q | cfg.hash(RequestDoc(q)) == cfg.hash(RequestDoc(r)) ensures q == r {
      assert RequestDoc(q) == RequestDoc(r);
    }
  }

  lemma StoreResultKeeps(cfg: Config, s: Store, r: Request, actor: Actor, response: Response, seen: bool)
    requires WellFormed(cfg) && Invariant(cfg, s) && response.requestId == r.requestId && KnownAction(cfg, r)
    requires seen <==> r.requestId in s.idempotency
    requires seen ==> Uncached(cfg, r)
    requires StoreResult(cfg, s, r, actor, response, seen).Ok?
    ensures var s' := StoreResult(cfg, s, r, actor, response, seen).value;
            Invariant(cfg, s') && Extends(s, s')
  {
    hide EpochOk, ProposalsOk, ValidationsOk, CurrentOk, HistoryRowsOk, HistoryEndsOk, IntervalOk, SavedRequestOk;
    var s' := StoreResult(cfg, s, r, actor, response, seen).value;
    TablesKeptByResult(cfg, s, s');
    NewRowRequest(cfg, r, actor, if Uncached(cfg, r) then None else Some(response));
  }

  lemma ClockAdvances(cfg: Config, s: Store, now: int)
    requires TablesOk(cfg, s) && s.lastClock <= now <= MAX_INTEGER
    ensures TablesOk(cfg, s.(lastClock := now)) && Extends(s, s.(lastClock := now))
  {
    hide TablesOk;
    ClockKeeps(cfg, s, s.(lastClock := now));
  }

  lemma ExtendsReflexive(s: Store)
    ensures Extends(s, s)
  {
  }

  lemma SavedKept(cfg: Config, s: Store, s': Store)
    requires SavedOk(cfg, s) && s'.idempotency == s.idempotency
    ensures SavedOk(cfg, s')
  {
  }

  lemma TransactKeeps(cfg: Config, s: Store, q: Request, r: Request, actor: Actor, env: Env)
    requires WellFormed(cfg) && Invariant(cfg, s)
    requires Normalize(cfg, q) == Ok(r) && Allowed(cfg, actor, r)
    requires Transact(cfg, s, r, actor, env).Ok?
    ensures var s' := Transact(cfg, s, r, actor, env).value.store;
            Invariant(cfg, s') && Extends(s, s')
  {
    hide TablesOk, SavedOk, Extends, Act, StoreResult;
    var replay := ReplayOf(cfg, s, r.requestId, cfg.hash(RequestDoc(r)), actor, ContextOf(actor)).value;
    if replay.Absent? || Uncached(cfg, r) {
      var now := Now(s, env.clock).value;
      var t := s.(lastClock := now);
      ClockAdvances(cfg, s, now);
      var c := Act(cfg, t, r, actor, now, env).value;
      ActKeeps(cfg, t, r, actor, env);
      AnswersRequest(cfg, t, r, actor, env);
      SavedKept(cfg, s, c.store);
      StoreResultKeeps(cfg, c.store, r, actor, c.response, !replay.Absent?);
      var s' := Transact(cfg, s, r, actor, env).value.store;
      ExtendsTransitive(s, t, c.store);
      ExtendsTransitive(s, c.store, s');
    } else {
      ExtendsReflexive(s);
    }
  }

  /** One dispatch, whatever the peer, request, clock and extension do. */
  lemma DispatchKeepsInvariant(cfg: Config, s: Store, e: Event)
    requires WellFormed(cfg) && Invariant(cfg, s)
    ensures Invariant(cfg, Apply(cfg, s, e).store) && Extends(s, Apply(cfg, s, e).store)
  {
    hide Invariant, Extends, Transact;
    ExtendsReflexive(s);
    if Attempt(cfg, s, e.peer, e.request, e.env).Ok? {
      var (actor, normal) := Admit(cfg, e.peer, e.request).value;
      TransactKeeps(cfg, s, e.request, normal, actor, e.env);
    }
  }

  lemma {:induction false} RunKeepsInvariant(cfg: Config, s: Store, events: seq<Event>)
    requires WellFormed(cfg) && Invariant(cfg, s)
    ensures Invariant(cfg, Run(cfg, s, events)) && Extends(s, Run(cfg, s, events))
    decreases |events|
  {
    hide Invariant, Extends;
    ExtendsReflexive(s);
    if events != [] {
      var t := Apply(cfg, s, events[0]).store;
      DispatchKeepsInvariant(cfg, s, events[0]);
      RunKeepsInvariant(cfg, t, events[1..]);
      ExtendsTransitive(s, t, Run(cfg, t, events[1..]));
    }
  }

  lemma EmptyStoreOk(cfg: Config)
    ensures Invariant(cfg, EMPTY)
  {
  }
}
