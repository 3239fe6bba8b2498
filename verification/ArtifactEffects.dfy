/** What each call of the artifact store does: when it succeeds, what it writes
    and answers, and what later calls then say. */
module ArtifactEffects {
  import opened Common
  import opened Artifacts
  import opened ArtifactLaws

  /** The clock can be read and has not run back. */
  predicate InTime(s: Store, clock: Option<int>) {
    clock.Some? && 0 <= clock.value <= MAX_INTEGER && s.lastClock <= clock.value
  }

  lemma Gate(cfg: Config, s: Store, c: Call, clock: Option<int>)
    ensures Transact(cfg, s, c, clock).Ok? ==> InTime(s, clock)
    ensures Invariant(cfg, s) ==>
              (Transact(cfg, s, c, clock).Ok? <==>
                 Refusal(cfg, c).None? && InTime(s, clock) && Serve(cfg, s.(lastClock := clock.value), c, clock.value).Ok?)
  {
    hide Serve, Refusal, ArtifactsOk, EvidenceOk, DeletedOk, RevocationsOk, GenerationsOk;
  }

  // ---------- documents ----------

  /** A document is stored in its canonical form, if that form is admitted under
      its name; a name keeps the first document it was given. */
  lemma PutExactly(cfg: Config, s: Store, name: Name, raw: string, clock: Option<int>)
    requires WellFormed(cfg) && Invariant(cfg, s)
    ensures Transact(cfg, s, Put(name, raw), clock).Ok? <==>
              && cfg.admit(name, raw).Some? && InTime(s, clock)
              && name in cfg.allowed && cfg.allowed[name] == cfg.hash(cfg.admit(name, raw).value)
              && (name in s.artifacts ==> s.artifacts[name].payload == cfg.admit(name, raw))
  {
    Gate(cfg, s, Put(name, raw), clock);
    hide WellFormed, EvidenceOk, DeletedOk, RevocationsOk, GenerationsOk;
  }

  lemma PutEffect(cfg: Config, s: Store, name: Name, raw: string, clock: Option<int>)
    requires Transact(cfg, s, Put(name, raw), clock).Ok?
    ensures clock.Some? && cfg.admit(name, raw).Some?
    ensures var payload := cfg.admit(name, raw).value;
            && Apply(cfg, s, Put(name, raw), clock)
               == s.(lastClock := clock.value, artifacts := s.artifacts[name := ArtifactRow(Some(payload), cfg.hash(payload))])
            && Transact(cfg, s, Put(name, raw), clock).value.answer == Stored(Ref(name, cfg.hash(payload)))
  {
    Gate(cfg, s, Put(name, raw), clock);
    if name in s.artifacts { assert s.artifacts[name := s.artifacts[name]] == s.artifacts; }
  }

  /** A reference is read exactly while its document is stored, and reading
      changes nothing but the clock. */
  lemma GetExactly(cfg: Config, s: Store, ref: Ref, clock: Option<int>)
    requires Invariant(cfg, s)
    ensures Transact(cfg, s, Get(ref), clock).Ok? <==>
              InTime(s, clock) && ref.name in s.artifacts && s.artifacts[ref.name].digest == ref.digest
              && s.artifacts[ref.name].payload.Some?
    ensures Transact(cfg, s, Get(ref), clock).Ok? ==>
              Transact(cfg, s, Get(ref), clock)
              == Ok(Done(s.(lastClock := clock.value), Document(s.artifacts[ref.name].payload.value)))
    ensures (&& InTime(s, clock) && ref.name in s.artifacts && s.artifacts[ref.name].digest == ref.digest
             && s.artifacts[ref.name].payload.None?) ==>
              Transact(cfg, s, Get(ref), clock) == Err(ARTIFACT_DELETED)
  {
    Gate(cfg, s, Get(ref), clock);
    hide EvidenceOk, DeletedOk, RevocationsOk, GenerationsOk;
  }

  /** What was stored is read back, at any later point, until it is deleted. */
  lemma PutThenGet(cfg: Config, s: Store, name: Name, raw: string, first: Option<int>, events: seq<Event>, clock: Option<int>)
    requires WellFormed(cfg) && Invariant(cfg, s) && Transact(cfg, s, Put(name, raw), first).Ok?
    requires InTime(Run(cfg, Apply(cfg, s, Put(name, raw), first), events), clock)
    ensures cfg.admit(name, raw).Some?
    ensures var t, payload := Run(cfg, Apply(cfg, s, Put(name, raw), first), events), cfg.admit(name, raw).value;
            Transact(cfg, t, Get(Ref(name, cfg.hash(payload))), clock)
            == if ArtifactEntity(name) in t.revocations then Err(ARTIFACT_DELETED)
               else Ok(Done(t.(lastClock := clock.value), Document(payload)))
  {
    hide WellFormed, Invariant, Run, Transact, Extends;
    var u := Apply(cfg, s, Put(name, raw), first);
    PutEffect(cfg, s, name, raw, first);
    ApplyKeeps(cfg, s, Put(name, raw), first);
    RunKeeps(cfg, u, events);
    var t := Run(cfg, u, events);
    RowStays(u, t, name);
    DeletedIs(cfg, t, name);
    GetExactly(cfg, t, Ref(name, cfg.hash(cfg.admit(name, raw).value)), clock);
  }

  lemma RowStays(s: Store, t: Store, n: Name)
    requires Extends(s, t) && n in s.artifacts
    ensures n in t.artifacts && t.artifacts[n].digest == s.artifacts[n].digest
    ensures t.artifacts[n].payload == s.artifacts[n].payload || t.artifacts[n].payload.None?
  {
  }

  lemma DeletedIs(cfg: Config, s: Store, n: Name)
    requires Invariant(cfg, s) && n in s.artifacts
    ensures s.artifacts[n].payload.None? <==> ArtifactEntity(n) in s.revocations
  {
  }

  // ---------- evidence ----------

  /** The row a first record leaves. */
  function NewEvidence(c: Call, collectedAt: int): Evidence
    requires c.Record?
  {
    Evidence(c.id, c.artifact, c.subject, c.conditions, c.producer, c.observedAt, collectedAt,
             if c.retention.Some? then c.retention.value else c.observedAt + 90 * 86400)
  }

  /** New evidence is recorded exactly when it was observed before it is collected,
      is not retained for more than 90 days, and names a stored document. */
  lemma RecordsExactly(cfg: Config, s: Store, c: Call, clock: Option<int>)
    requires Invariant(cfg, s) && c.Record? && c.id !in s.evidence
    ensures Transact(cfg, s, c, clock).Ok? <==>
              && InTime(s, clock)
              && var e := NewEvidence(c, clock.value);
              && 0 <= e.observedAt <= e.collectedAt <= e.retentionUntil <= MAX_INTEGER
              && e.retentionUntil <= e.observedAt + 90 * 86400
              && c.artifact.name in s.artifacts && s.artifacts[c.artifact.name].digest == c.artifact.digest
              && s.artifacts[c.artifact.name].payload.Some?
  {
    Gate(cfg, s, c, clock);
    hide EvidenceOk, DeletedOk, RevocationsOk, GenerationsOk;
  }

  lemma RecordEffect(cfg: Config, s: Store, c: Call, clock: Option<int>)
    requires c.Record? && c.id !in s.evidence && Transact(cfg, s, c, clock).Ok?
    ensures clock.Some?
    ensures var e := NewEvidence(c, clock.value);
            && Apply(cfg, s, c, clock)
               == s.(lastClock := clock.value, evidence := s.evidence[c.id := EvidenceRow(c.artifact, e)])
            && Transact(cfg, s, c, clock).value.answer == Recorded(e)
  {
    Gate(cfg, s, c, clock);
  }

  /** The verdict on evidence, and until when it may be given. */
  function Verdict(s: Store, e: Evidence, baseline: bool, now: int): Validity {
    var window := e.observedAt + if baseline then 30 * 86400 else 86400;
    var until := if e.retentionUntil < window then e.retentionUntil else window;
    var state := if ArtifactEntity(e.artifact.name) in s.revocations then DELETED
                 else if EvidenceEntity(e.evidenceId) in s.revocations then REVOKED
                 else if now > until then EXPIRED
                 else VALID;
    Validity(e.evidenceId, state, now, until, s.generation)
  }

  /** A check and a read succeed exactly for recorded evidence, report this
      verdict, and change nothing but the clock. */
  lemma ChecksExactly(cfg: Config, s: Store, id: Id, baseline: bool, clock: Option<int>)
    requires Invariant(cfg, s)
    ensures Transact(cfg, s, Check(id, baseline), clock).Ok? <==> InTime(s, clock) && id in s.evidence
    ensures Transact(cfg, s, Read(id), clock).Ok? <==> InTime(s, clock) && id in s.evidence
    ensures InTime(s, clock) && id in s.evidence ==>
              var e := s.evidence[id].value;
              && Transact(cfg, s, Check(id, baseline), clock)
                 == Ok(Done(s.(lastClock := clock.value), Checked(Verdict(s, e, baseline, clock.value))))
              && Transact(cfg, s, Read(id), clock)
                 == Ok(Done(s.(lastClock := clock.value), Used(e, Verdict(s, e, false, clock.value))))
  {
    hide Invariant, ValidityOf, VerifiedEvidence, Verdict;
    Gate(cfg, s, Check(id, baseline), clock);
    Gate(cfg, s, Read(id), clock);
    if InTime(s, clock) {
      var t := s.(lastClock := clock.value);
      Ticks(cfg, s, clock);
      if id in s.evidence {
        EvidenceReads(cfg, t, id);
        VerdictIs(cfg, t, id, baseline, clock.value);
        VerdictIs(cfg, t, id, false, clock.value);
        SameVerdict(s, t, s.evidence[id].value, baseline, clock.value);
        SameVerdict(s, t, s.evidence[id].value, false, clock.value);
      } else {
        assert VerifiedEvidence(t, id).Err? by { NoEvidence(t, id); }
      }
    }
  }

  lemma Ticks(cfg: Config, s: Store, clock: Option<int>)
    requires Invariant(cfg, s) && InTime(s, clock)
    ensures Invariant(cfg, s.(lastClock := clock.value)) && Now(s, clock) == Ok(clock.value)
  {
    assert Now(s, clock) == Ok(clock.value) by { assert ClockOk(s); }
    hide Invariant;
    ClockKeeps(cfg, s, clock);
  }

  lemma SameVerdict(s: Store, t: Store, e: Evidence, baseline: bool, now: int)
    requires t.revocations == s.revocations && t.generation == s.generation
    ensures Verdict(t, e, baseline, now) == Verdict(s, e, baseline, now)
  {
  }

  lemma NoEvidence(s: Store, id: Id)
    requires id !in s.evidence
    ensures VerifiedEvidence(s, id).Err?
  {
  }

  lemma EvidenceReads(cfg: Config, s: Store, id: Id)
    requires Invariant(cfg, s) && id in s.evidence
    ensures VerifiedEvidence(s, id) == Ok(s.evidence[id].value)
  {
    hide ArtifactsOk, DeletedOk, RevocationsOk, GenerationsOk;
  }

  lemma ArtifactReads(cfg: Config, s: Store, id: Id)
    requires Invariant(cfg, s) && id in s.evidence
    ensures var r := s.evidence[id].value.artifact;
            && RowOf(s, r).Ok? && s.evidence[id].value.evidenceId == id
            && (RowOf(s, r).value.payload.None? <==> ArtifactEntity(r.name) in s.revocations)
            && (RowOf(s, r).value.payload.Some? ==> VerifiedArtifact(cfg, r.name, RowOf(s, r).value).Ok?)
    ensures GenerationOf(s) == Ok(s.generation)
  {
    hide EvidenceError, InRange, OwnGenerations, RevocationsOk;
  }

  lemma VerdictIs(cfg: Config, s: Store, id: Id, baseline: bool, now: int)
    requires Invariant(cfg, s) && id in s.evidence
    ensures ValidityOf(cfg, s, s.evidence[id].value, now, baseline) == Ok(Verdict(s, s.evidence[id].value, baseline, now))
  {
    hide Invariant, RowOf, VerifiedArtifact, GenerationOf;
    ArtifactReads(cfg, s, id);
  }

  /** What was recorded is read back, unchanged, at any later point. */
  lemma RecordThenRead(cfg: Config, s: Store, c: Call, first: Option<int>, events: seq<Event>, clock: Option<int>)
    requires WellFormed(cfg) && Invariant(cfg, s) && c.Record? && c.id !in s.evidence && Transact(cfg, s, c, first).Ok?
    requires InTime(Run(cfg, Apply(cfg, s, c, first), events), clock)
    ensures first.Some?
    ensures var t, e := Run(cfg, Apply(cfg, s, c, first), events), NewEvidence(c, first.value);
            Transact(cfg, t, Read(c.id), clock)
            == Ok(Done(t.(lastClock := clock.value), Used(e, Verdict(t, e, false, clock.value))))
  {
    hide WellFormed, Invariant, Run, Transact, Extends, Verdict;
    var u := Apply(cfg, s, c, first);
    RecordEffect(cfg, s, c, first);
    ApplyKeeps(cfg, s, c, first);
    RunKeeps(cfg, u, events);
    EvidenceStays(u, Run(cfg, u, events), c.id);
    ChecksExactly(cfg, Run(cfg, u, events), c.id, false, clock);
  }

  lemma EvidenceStays(s: Store, t: Store, id: Id)
    requires Extends(s, t) && id in s.evidence
    ensures id in t.evidence && t.evidence[id] == s.evidence[id]
  {
  }

  // ---------- revocation and deletion ----------

  lemma RevokesExactly(cfg: Config, s: Store, id: Id, reason: Reason, clock: Option<int>)
    requires Invariant(cfg, s)
    ensures Transact(cfg, s, RevokeEvidence(id, reason), clock).Ok? <==>
              InTime(s, clock) && id in s.evidence && (EvidenceEntity(id) in s.revocations || s.generation < MAX_INTEGER)
  {
    Gate(cfg, s, RevokeEvidence(id, reason), clock);
    hide ArtifactsOk, DeletedOk, RevocationsOk;
  }

  /** Revoking evidence revokes exactly this evidence, under the next generation,
      at the clock read and for the reason given; again, it answers the first
      generation and changes nothing but the clock. */
  lemma RevokeEffect(cfg: Config, s: Store, id: Id, reason: Reason, clock: Option<int>)
    requires Transact(cfg, s, RevokeEvidence(id, reason), clock).Ok?
    ensures clock.Some? && EvidenceEntity(id) in Apply(cfg, s, RevokeEvidence(id, reason), clock).revocations
    ensures var t, u, g := clock.value, Apply(cfg, s, RevokeEvidence(id, reason), clock), s.generation + 1;
            && u == (if EvidenceEntity(id) in s.revocations then s.(lastClock := t)
                     else s.(lastClock := t, generation := g,
                             revocations := s.revocations[EvidenceEntity(id) := Revocation(reason, t, g)]))
            && Transact(cfg, s, RevokeEvidence(id, reason), clock).value.answer
               == Generation(u.revocations[EvidenceEntity(id)].generation)
  {
    Gate(cfg, s, RevokeEvidence(id, reason), clock);
  }

  lemma DeletesExactly(cfg: Config, s: Store, ref: Ref, reason: Reason, clock: Option<int>)
    requires Invariant(cfg, s)
    ensures Transact(cfg, s, Delete(ref, reason), clock).Ok? <==>
              InTime(s, clock) && ref.name in s.artifacts && s.artifacts[ref.name].digest == ref.digest
              && (ArtifactEntity(ref.name) in s.revocations || s.generation < MAX_INTEGER)
  {
    Gate(cfg, s, Delete(ref, reason), clock);
    hide ArtifactsOk, EvidenceOk, DeletedOk, RevocationsOk;
  }

  /** Deleting revokes the artifact in the same way and empties its row. */
  lemma DeleteEffect(cfg: Config, s: Store, ref: Ref, reason: Reason, clock: Option<int>)
    requires Transact(cfg, s, Delete(ref, reason), clock).Ok?
    ensures clock.Some? && ArtifactEntity(ref.name) in Apply(cfg, s, Delete(ref, reason), clock).revocations
    ensures var t, u, g := clock.value, Apply(cfg, s, Delete(ref, reason), clock), s.generation + 1;
            var emptied := s.artifacts[ref.name := ArtifactRow(None, ref.digest)];
            && u == (if ArtifactEntity(ref.name) in s.revocations then s.(lastClock := t, artifacts := emptied)
                     else s.(lastClock := t, artifacts := emptied, generation := g,
                             revocations := s.revocations[ArtifactEntity(ref.name) := Revocation(reason, t, g)]))
            && Transact(cfg, s, Delete(ref, reason), clock).value.answer
               == Generation(u.revocations[ArtifactEntity(ref.name)].generation)
  {
    Gate(cfg, s, Delete(ref, reason), clock);
  }

  /** After a revocation was answered, every later check and read of the evidence
      reports it revoked, or its artifact deleted. */
  lemma RevokedForGood(cfg: Config, s: Store, id: Id, reason: Reason, first: Option<int>, events: seq<Event>,
                       baseline: bool, clock: Option<int>)
    requires WellFormed(cfg) && Invariant(cfg, s) && Transact(cfg, s, RevokeEvidence(id, reason), first).Ok?
    requires InTime(Run(cfg, Apply(cfg, s, RevokeEvidence(id, reason), first), events), clock)
    ensures var t := Run(cfg, Apply(cfg, s, RevokeEvidence(id, reason), first), events);
            var check, read := Transact(cfg, t, Check(id, baseline), clock), Transact(cfg, t, Read(id), clock);
            && check.Ok? && check.value.answer.Checked? && read.Ok? && read.value.answer.Used?
            && (check.value.answer.use.state == REVOKED || check.value.answer.use.state == DELETED)
            && read.value.answer.use.state == check.value.answer.use.state
  {
    hide WellFormed, Invariant, Run, Transact, Extends;
    var u := Apply(cfg, s, RevokeEvidence(id, reason), first);
    RevokeEffect(cfg, s, id, reason, first);
    RevokesExactly(cfg, s, id, reason, first);
    ApplyKeeps(cfg, s, RevokeEvidence(id, reason), first);
    RunKeeps(cfg, u, events);
    var t := Run(cfg, u, events);
    EvidenceStays(u, t, id);
    RevocationStays(u, t, EvidenceEntity(id));
    NamedSo(cfg, t, id);
    ChecksExactly(cfg, t, id, baseline, clock);
  }

  lemma RevocationStays(s: Store, t: Store, e: Entity)
    requires Extends(s, t) && e in s.revocations
    ensures e in t.revocations
  {
  }

  lemma NamedSo(cfg: Config, s: Store, id: Id)
    requires Invariant(cfg, s) && id in s.evidence
    ensures s.evidence[id].value.evidenceId == id && s.evidence[id].value.artifact == s.evidence[id].artifact
  {
  }

  /** After a deletion was answered, the document is never read again, and every
      check of evidence for it reports the deletion. */
  lemma DeletedForGood(cfg: Config, s: Store, ref: Ref, reason: Reason, first: Option<int>, events: seq<Event>,
                       id: Id, baseline: bool, clock: Option<int>)
    requires WellFormed(cfg) && Invariant(cfg, s) && Transact(cfg, s, Delete(ref, reason), first).Ok?
    requires InTime(Run(cfg, Apply(cfg, s, Delete(ref, reason), first), events), clock)
    ensures var t := Run(cfg, Apply(cfg, s, Delete(ref, reason), first), events);
            && Transact(cfg, t, Get(ref), clock) == Err(ARTIFACT_DELETED)
            && (id in t.evidence && t.evidence[id].artifact.name == ref.name ==>
                  Transact(cfg, t, Check(id, baseline), clock).Ok?
                  && Transact(cfg, t, Check(id, baseline), clock).value.answer.Checked?
                  && Transact(cfg, t, Check(id, baseline), clock).value.answer.use.state == DELETED)
  {
    hide WellFormed, Invariant, Run, Transact, Extends;
    var u := Apply(cfg, s, Delete(ref, reason), first);
    DeleteEffect(cfg, s, ref, reason, first);
    ApplyKeeps(cfg, s, Delete(ref, reason), first);
    RunKeeps(cfg, u, events);
    var t := Run(cfg, u, events);
    RowStays(u, t, ref.name);
    RevocationStays(u, t, ArtifactEntity(ref.name));
    DeletedIs(cfg, t, ref.name);
    GetExactly(cfg, t, ref, clock);
    if id in t.evidence { NamedSo(cfg, t, id); }
    ChecksExactly(cfg, t, id, baseline, clock);
  }
}
