/** The artifact store as an object: tables updated in place inside a
    transaction that is rolled back on any error. */
module ArtifactStore {
  import opened Common
  import opened Artifacts

  class ArtifactStore {
    const cfg: Config
    var lastClock: int
    var generation: int
    var artifacts: map<Name, ArtifactRow>
    var evidence: map<Id, EvidenceRow>
    var revocations: map<Entity, Revocation>

    /** The tables as one value. */
    function Tables(): Store
      reads this
    {
      Store(lastClock, generation, artifacts, evidence, revocations)
    }

    constructor (cfg: Config)
      ensures this.cfg == cfg && Tables() == EMPTY
    {
      this.cfg := cfg;
      lastClock, generation := -1, 0;
      artifacts, evidence, revocations := map[], map[], map[];
    }

    method ReadClock(clock: Option<int>) returns (out: Result<int, Error>)
      modifies this`lastClock
      ensures out == Now(old(Tables()), clock)
      ensures Tables() == if out.Ok? then old(Tables()).(lastClock := out.value) else old(Tables())
    {
      if clock.None? { return Err(CLOCK_UNAVAILABLE); }
      if !IsUint(clock.value) { return Err(INVALID_CONTRACT); }
      if lastClock < -1 || lastClock > MAX_INTEGER { return Err(STORAGE_CORRUPT); }
      if clock.value < lastClock { return Err(CLOCK_ROLLBACK); }
      lastClock := clock.value;
      return Ok(clock.value);
    }

    /** Stores an admitted document; storing the same again is no change. */
    method PutArtifact(name: Name, payload: string) returns (out: Result<Answer, Error>)
      modifies this`artifacts
      ensures match DoPut(cfg, old(Tables()), name, payload)
              case Ok(d) => out == Ok(d.answer) && Tables() == d.store
              case Err(e) => out == Err(e)
    {
      var digest := cfg.hash(payload);
      if name in artifacts {
        var row := artifacts[name];
        var _ :- VerifiedArtifact(cfg, name, row);
        if row.payload != Some(payload) || row.digest != digest { return Err(ARTIFACT_CONFLICT); }
      } else {
        artifacts := artifacts[name := ArtifactRow(Some(payload), digest)];
      }
      return Ok(Stored(Ref(name, digest)));
    }

    method RecordEvidence(c: Call, now: int) returns (out: Result<Answer, Error>)
      requires c.Record?
      modifies this`evidence
      ensures match DoRecord(cfg, old(Tables()), c, now)
              case Ok(d) => out == Ok(d.answer) && Tables() == d.store
              case Err(e) => out == Err(e)
    {
      hide EvidenceError, VerifiedArtifact;
      if c.id in evidence {
        var previous :- VerifiedEvidence(Tables(), c.id);
        var value := EvidenceOf(c, previous.collectedAt);
        var error := EvidenceError(value);
        if error.Some? { return Err(error.value); }
        if value != previous { return Err(EVIDENCE_CONFLICT); }
        return Ok(Recorded(previous));
      }
      var value := EvidenceOf(c, now);
      var error := EvidenceError(value);
      if error.Some? { return Err(error.value); }
      var row :- RowOf(Tables(), c.artifact);
      var _ :- VerifiedArtifact(cfg, c.artifact.name, row);
      evidence := evidence[c.id := EvidenceRow(c.artifact, value)];
      return Ok(Recorded(value));
    }

    method RevokeEntity(e: Entity, reason: Reason, now: int) returns (out: Result<Answer, Error>)
      modifies this`generation, this`revocations
      ensures match Revoke(old(Tables()), e, reason, now)
              case Ok(d) => out == Ok(d.answer) && Tables() == d.store
              case Err(e) => out == Err(e)
    {
      if e in revocations { return Ok(Generation(revocations[e].generation)); }
      var next :- GenerationOf(Tables());
      next := next + 1;
      if next > MAX_INTEGER { return Err(GENERATION_EXHAUSTED); }
      revocations := revocations[e := Revocation(reason, now, next)];
      generation := next;
      return Ok(Generation(next));
    }

    /** Revokes the artifact, then empties its row. */
    method DeleteArtifact(ref: Ref, reason: Reason, now: int) returns (out: Result<Answer, Error>)
      modifies this`generation, this`revocations, this`artifacts
      ensures match DoDelete(old(Tables()), ref, reason, now)
              case Ok(d) => out == Ok(d.answer) && Tables() == d.store
              case Err(e) => out == Err(e)
    {
      var row :- RowOf(Tables(), ref);
      out := RevokeEntity(ArtifactEntity(ref.name), reason, now);
      if out.Ok? { artifacts := artifacts[ref.name := row.(payload := None)]; }
    }

    /** One operation; its writes stay pending until the caller commits. */
    method Perform(c: Call, now: int) returns (out: Result<Answer, Error>)
      requires Refusal(cfg, c).None?
      modifies this`generation, this`revocations, this`artifacts, this`evidence
      ensures match Serve(cfg, old(Tables()), c, now)
              case Ok(d) => out == Ok(d.answer) && Tables() == d.store
              case Err(e) => out == Err(e)
    {
      hide DoRecord, DoDelete, DoPut, Revoke, VerifiedEvidence, ValidityOf, VerifiedArtifact;
      match c {
        case Put(name, raw) => out := PutArtifact(name, cfg.admit(name, raw).value);
        case Get(ref) =>
          var row :- RowOf(Tables(), ref);
          var payload :- VerifiedArtifact(cfg, ref.name, row);
          out := Ok(Document(payload));
        case Record(_, _, _, _, _, _, _) => out := RecordEvidence(c, now);
        case Read(id) =>
          var e :- VerifiedEvidence(Tables(), id);
          var use :- ValidityOf(cfg, Tables(), e, now, false);
          out := Ok(Used(e, use));
        case Check(id, baseline) =>
          var e :- VerifiedEvidence(Tables(), id);
          var use :- ValidityOf(cfg, Tables(), e, now, baseline);
          out := Ok(Checked(use));
        case RevokeEvidence(id, reason) =>
          var _ :- VerifiedEvidence(Tables(), id);
          out := RevokeEntity(EvidenceEntity(id), reason, now);
        case Delete(ref, reason) => out := DeleteArtifact(ref, reason, now);
      }
    }

    /** One call: committed on success, rolled back whole on error. */
    method Handle(c: Call, clock: Option<int>) returns (out: Result<Answer, Error>)
      modifies this
      ensures Tables() == Apply(cfg, old(Tables()), c, clock)
      ensures match Transact(cfg, old(Tables()), c, clock)
              case Ok(d) => out == Ok(d.answer)
              case Err(e) => out == Err(e)
    {
      hide Serve, Refusal, Now;
      var refusal := Refusal(cfg, c);
      if refusal.Some? { return Err(refusal.value); }
      var before := Tables();
      var now := ReadClock(clock);
      if now.Ok? {
        out := Perform(c, now.value);
      } else {
        out := Err(now.error);
      }
      if out.Err? {
        lastClock, generation := before.lastClock, before.generation;
        artifacts, evidence, revocations := before.artifacts, before.evidence, before.revocations;
      }
    }
  }
}
