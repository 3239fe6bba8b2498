/** The artifact and evidence store as transitions on a value of its tables
    (src/gah/artifacts.py). */
module Artifacts {
  import opened Common

  const RETENTION_SECONDS := 90 * 86400
  const FRESHNESS_SECONDS := 86400
  const BASELINE_SECONDS := 30 * 86400

  datatype Kind = ControlRegistry | CaseSet

  datatype Name = Name(kind: Kind, id: Id)

  datatype Ref = Ref(name: Name, digest: Digest)

  datatype Reason = USER_WITHDRAWN | DATA_POLICY | RETENTION_EXPIRED | SUPERSEDED

  datatype Evidence = Evidence(
    evidenceId: Id, artifact: Ref, subject: Ref, conditions: Ref, producer: Ref,
    observedAt: int, collectedAt: int, retentionUntil: int)

  datatype State = VALID | EXPIRED | REVOKED | DELETED

  datatype Validity = Validity(evidenceId: Id, state: State, checkedAt: int, validUntil: int, generation: int)

  datatype Call =
    | Put(name: Name, raw: string)
    | Get(ref: Ref)
    | Record(id: Id, artifact: Ref, subject: Ref, conditions: Ref, producer: Ref, observedAt: int, retention: Option<int>)
    | Read(id: Id)
    | Check(id: Id, baseline: bool)
    | RevokeEvidence(id: Id, reason: Reason)
    | Delete(ref: Ref, reason: Reason)

  datatype Answer =
    | Stored(ref: Ref)
    | Document(payload: string)
    | Recorded(evidence: Evidence)
    | Used(evidence: Evidence, use: Validity)
    | Checked(use: Validity)
    | Generation(generation: int)

  datatype Error =
    | INVALID_DOCUMENT | DATA_NOT_ADMITTED | INVALID_CONTRACT | EVIDENCE_TIME | EVIDENCE_RETENTION
    | CLOCK_UNAVAILABLE | CLOCK_ROLLBACK | STORAGE_CORRUPT | GENERATION_EXHAUSTED
    | ARTIFACT_MISSING | ARTIFACT_BINDING | ARTIFACT_DELETED | ARTIFACT_CONFLICT
    | EVIDENCE_MISSING | EVIDENCE_CONFLICT

  /** `admit` validates a document for a name and gives its canonical form;
      `hash` is SHA-256; `allowed` is the supervisor's admission table. */
  datatype Config = Config(allowed: map<Name, Digest>, admit: (Name, string) -> Option<string>, hash: string -> Digest)

  /** A canonical document is its own canonical form. */
  ghost predicate WellFormed(cfg: Config) {
    forall n, raw :: cfg.admit(n, raw).Some? ==> cfg.admit(n, cfg.admit(n, raw).value) == cfg.admit(n, raw)
  }

  // ---------- tables ----------

  /** A deleted artifact keeps its row, without its payload. */
  datatype ArtifactRow = ArtifactRow(payload: Option<string>, digest: Digest)

  /** The columns of an evidence row besides the document. */
  datatype EvidenceRow = EvidenceRow(artifact: Ref, value: Evidence)

  datatype Entity = ArtifactEntity(name: Name) | EvidenceEntity(id: Id)

  datatype Revocation = Revocation(reason: Reason, observedAt: int, generation: int)

  datatype Store = Store(
    lastClock: int, generation: int, artifacts: map<Name, ArtifactRow>, evidence: map<Id, EvidenceRow>,
    revocations: map<Entity, Revocation>)

  const EMPTY: Store := Store(-1, 0, map[], map[], map[])

  // ---------- checks ----------

  function EvidenceError(e: Evidence): Option<Error> {
    if !(IsUint(e.observedAt) && IsUint(e.collectedAt) && IsUint(e.retentionUntil)) then Some(INVALID_CONTRACT)
    else if !(e.observedAt <= e.collectedAt <= e.retentionUntil) then Some(EVIDENCE_TIME)
    else if e.retentionUntil - e.observedAt > RETENTION_SECONDS then Some(EVIDENCE_RETENTION)
    else None
  }

  function Now(s: Store, clock: Option<int>): Result<int, Error> {
    if clock.None? then Err(CLOCK_UNAVAILABLE)
    else if !IsUint(clock.value) then Err(INVALID_CONTRACT)
    else if !(-1 <= s.lastClock <= MAX_INTEGER) then Err(STORAGE_CORRUPT)
    else if clock.value < s.lastClock then Err(CLOCK_ROLLBACK)
    else Ok(clock.value)
  }

  function RowOf(s: Store, r: Ref): Result<ArtifactRow, Error> {
    if r.name !in s.artifacts then Err(ARTIFACT_MISSING)
    else if s.artifacts[r.name].digest != r.digest then Err(ARTIFACT_BINDING)
    else Ok(s.artifacts[r.name])
  }

  function VerifiedArtifact(cfg: Config, n: Name, row: ArtifactRow): Result<string, Error> {
    if row.payload.None? then Err(ARTIFACT_DELETED)
    else if cfg.admit(n, row.payload.value) != Some(row.payload.value) || cfg.hash(row.payload.value) != row.digest
    then Err(STORAGE_CORRUPT)
    else Ok(row.payload.value)
  }

  function VerifiedEvidence(s: Store, id: Id): Result<Evidence, Error> {
    if id !in s.evidence then Err(EVIDENCE_MISSING)
    else
      var row := s.evidence[id];
      if EvidenceError(row.value).Some? || row.value.evidenceId != id || row.value.artifact != row.artifact
      then Err(STORAGE_CORRUPT) else Ok(row.value)
  }

  function GenerationOf(s: Store): Result<int, Error> {
    if IsUint(s.generation) then Ok(s.generation) else Err(STORAGE_CORRUPT)
  }

  function ValidUntil(e: Evidence, baseline: bool): int {
    var until := e.observedAt + if baseline then BASELINE_SECONDS else FRESHNESS_SECONDS;
    if e.retentionUntil <= until then e.retentionUntil else until
  }

  // ---------- operations inside the transaction ----------

  datatype Done = Done(store: Store, answer: Answer)

  type Outcome = Result<Done, Error>

  function DoPut(cfg: Config, s: Store, name: Name, payload: string): Outcome {
    var digest := cfg.hash(payload);
    if name in s.artifacts then
      var row := s.artifacts[name];
      var _ :- VerifiedArtifact(cfg, name, row);
      if row.payload != Some(payload) || row.digest != digest then Err(ARTIFACT_CONFLICT)
      else Ok(Done(s, Stored(Ref(name, digest))))
    else Ok(Done(s.(artifacts := s.artifacts[name := ArtifactRow(Some(payload), digest)]), Stored(Ref(name, digest))))
  }

  function DoGet(cfg: Config, s: Store, ref: Ref): Outcome {
    var row :- RowOf(s, ref);
    var payload :- VerifiedArtifact(cfg, ref.name, row);
    Ok(Done(s, Document(payload)))
  }

  function RetentionFor(c: Call): int
    requires c.Record?
  {
    if c.retention.Some? then c.retention.value else c.observedAt + RETENTION_SECONDS
  }

  function EvidenceOf(c: Call, collectedAt: int): Evidence
    requires c.Record?
  {
    Evidence(c.id, c.artifact, c.subject, c.conditions, c.producer, c.observedAt, collectedAt, RetentionFor(c))
  }

  /** Recording known evidence again gives the first record back. */
  function DoRecord(cfg: Config, s: Store, c: Call, now: int): Outcome
    requires c.Record?
  {
    if c.id in s.evidence then
      var previous :- VerifiedEvidence(s, c.id);
      var value := EvidenceOf(c, previous.collectedAt);
      if EvidenceError(value).Some? then Err(EvidenceError(value).value)
      else if value != previous then Err(EVIDENCE_CONFLICT)
      else Ok(Done(s, Recorded(previous)))
    else
      var value := EvidenceOf(c, now);
      if EvidenceError(value).Some? then Err(EvidenceError(value).value)
      else
        var row :- RowOf(s, c.artifact);
        var _ :- VerifiedArtifact(cfg, c.artifact.name, row);
        Ok(Done(s.(evidence := s.evidence[c.id := EvidenceRow(c.artifact, value)]), Recorded(value)))
  }

  /** Deletion outranks revocation, and revocation outranks expiry. */
  function ValidityOf(cfg: Config, s: Store, e: Evidence, now: int, baseline: bool): Result<Validity, Error> {
    var row :- RowOf(s, e.artifact);
    var until := ValidUntil(e, baseline);
    var state :- if row.payload.None? then Ok(DELETED)
                 else
                   var _ :- VerifiedArtifact(cfg, e.artifact.name, row);
                   Ok(if EvidenceEntity(e.evidenceId) in s.revocations then REVOKED
                      else if now > until then EXPIRED else VALID);
    var generation :- GenerationOf(s);
    Ok(Validity(e.evidenceId, state, now, until, generation))
  }

  function DoRead(cfg: Config, s: Store, id: Id, now: int): Outcome {
    var e :- VerifiedEvidence(s, id);
    var use :- ValidityOf(cfg, s, e, now, false);
    Ok(Done(s, Used(e, use)))
  }

  function DoCheck(cfg: Config, s: Store, id: Id, baseline: bool, now: int): Outcome {
    var e :- VerifiedEvidence(s, id);
    var use :- ValidityOf(cfg, s, e, now, baseline);
    Ok(Done(s, Checked(use)))
  }

  /** The first revocation of an entity takes the next generation. */
  function Revoke(s: Store, e: Entity, reason: Reason, now: int): Outcome {
    if e in s.revocations then Ok(Done(s, Generation(s.revocations[e].generation)))
    else
      var generation :- GenerationOf(s);
      if generation + 1 > MAX_INTEGER then Err(GENERATION_EXHAUSTED)
      else
        var next := generation + 1;
        Ok(Done(s.(revocations := s.revocations[e := Revocation(reason, now, next)], generation := next), Generation(next)))
  }

  function DoRevoke(s: Store, id: Id, reason: Reason, now: int): Outcome {
    var _ :- VerifiedEvidence(s, id);
    Revoke(s, EvidenceEntity(id), reason, now)
  }

  function DoDelete(s: Store, ref: Ref, reason: Reason, now: int): Outcome {
    var row :- RowOf(s, ref);
    var done :- Revoke(s, ArtifactEntity(ref.name), reason, now);
    Ok(Done(done.store.(artifacts := done.store.artifacts[ref.name := row.(payload := None)]), done.answer))
  }

  // ---------- one call ----------

  /** What is refused before the transaction begins. */
  function Refusal(cfg: Config, c: Call): Option<Error> {
    match c
    case Put(name, raw) =>
      var payload := cfg.admit(name, raw);
      if payload.None? then Some(INVALID_DOCUMENT)
      else if name !in cfg.allowed || cfg.allowed[name] != cfg.hash(payload.value) then Some(DATA_NOT_ADMITTED)
      else None
    case Record(_, _, _, _, _, observedAt, _) =>
      if !IsUint(observedAt) || !IsUint(RetentionFor(c)) then Some(INVALID_CONTRACT) else None
    case _ => None
  }

  function Serve(cfg: Config, s: Store, c: Call, now: int): Outcome {
    match c
    case Put(name, raw) =>
      var payload := cfg.admit(name, raw);
      if payload.None? then Err(INVALID_DOCUMENT) else DoPut(cfg, s, name, payload.value)
    case Get(ref) => DoGet(cfg, s, ref)
    case Record(_, _, _, _, _, _, _) => DoRecord(cfg, s, c, now)
    case Read(id) => DoRead(cfg, s, id, now)
    case Check(id, baseline) => DoCheck(cfg, s, id, baseline, now)
    case RevokeEvidence(id, reason) => DoRevoke(s, id, reason, now)
    case Delete(ref, reason) => DoDelete(s, ref, reason, now)
  }

  function Transact(cfg: Config, s: Store, c: Call, clock: Option<int>): Outcome {
    if Refusal(cfg, c).Some? then Err(Refusal(cfg, c).value)
    else
      var now :- Now(s, clock);
      Serve(cfg, s.(lastClock := now), c, now)
  }

  /** A call that fails leaves the store as it was. */
  function Apply(cfg: Config, s: Store, c: Call, clock: Option<int>): Store {
    var out := Transact(cfg, s, c, clock);
    if out.Ok? then out.value.store else s
  }

  datatype Event = Event(call: Call, clock: Option<int>)

  function Run(cfg: Config, s: Store, events: seq<Event>): Store
    decreases |events|
  {
    if events == [] then s
    else
      var n := |events| - 1;
      Apply(cfg, Run(cfg, s, events[..n]), events[n].call, events[n].clock)
  }

  // ---------- the invariant ----------

  ghost predicate ArtifactsOk(cfg: Config, s: Store) {
    forall n :: n in s.artifacts && s.artifacts[n].payload.Some? ==>
      cfg.admit(n, s.artifacts[n].payload.value) == s.artifacts[n].payload
      && cfg.hash(s.artifacts[n].payload.value) == s.artifacts[n].digest
      && n in cfg.allowed && cfg.allowed[n] == s.artifacts[n].digest
  }

  ghost predicate EvidenceOk(s: Store) {
    forall id :: id in s.evidence ==>
      var row := s.evidence[id];
      && EvidenceError(row.value).None? && row.value.evidenceId == id && row.value.artifact == row.artifact
      && row.artifact.name in s.artifacts && s.artifacts[row.artifact.name].digest == row.artifact.digest
      && row.value.collectedAt <= s.lastClock
  }

  /** Only a revoked artifact has lost its payload. */
  ghost predicate DeletedOk(s: Store) {
    forall n :: n in s.artifacts ==> (s.artifacts[n].payload.None? <==> ArtifactEntity(n) in s.revocations)
  }

  ghost predicate RevocationsOk(s: Store) {
    && (forall id :: EvidenceEntity(id) in s.revocations ==> id in s.evidence)
    && (forall n :: ArtifactEntity(n) in s.revocations ==> n in s.artifacts)
    && (forall e :: e in s.revocations ==> s.revocations[e].observedAt <= s.lastClock)
  }

  /** Each revocation has its own generation, none above the number of them. */
  ghost predicate GenerationsOk(s: Store) {
    s.generation == |s.revocations| && s.generation <= MAX_INTEGER
    && InRange(s.revocations, s.generation) && OwnGenerations(s.revocations)
  }

  ghost predicate InRange(m: map<Entity, Revocation>, n: int) {
    forall e :: e in m ==> 1 <= m[e].generation <= n
  }

  ghost predicate OwnGenerations(m: map<Entity, Revocation>) {
    forall e, f :: e in m && f in m && e != f ==> m[e].generation != m[f].generation
  }

  ghost predicate ClockOk(s: Store) { -1 <= s.lastClock <= MAX_INTEGER }

  ghost predicate Invariant(cfg: Config, s: Store) {
    ClockOk(s) && ArtifactsOk(cfg, s) && EvidenceOk(s) && DeletedOk(s) && RevocationsOk(s) && GenerationsOk(s)
  }

  /** How a store may change over any number of calls. */
  ghost predicate Extends(s: Store, t: Store) {
    && s.lastClock <= t.lastClock && s.generation <= t.generation
    && (forall n :: n in s.artifacts ==>
          n in t.artifacts && t.artifacts[n].digest == s.artifacts[n].digest
          && (t.artifacts[n].payload == s.artifacts[n].payload || t.artifacts[n].payload.None?))
    && (forall id :: id in s.evidence ==> id in t.evidence && t.evidence[id] == s.evidence[id])
    && (forall e :: e in s.revocations ==> e in t.revocations && t.revocations[e] == s.revocations[e])
  }
}
