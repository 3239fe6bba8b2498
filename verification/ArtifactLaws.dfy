/** What every run of the artifact store keeps. */
module ArtifactLaws {
  import opened Common
  import opened Artifacts

  lemma EmptyOk(cfg: Config)
    ensures Invariant(cfg, EMPTY)
  {
  }

  lemma ExtendsAll(s: Store, t: Store, u: Store)
    requires Extends(s, t) && Extends(t, u)
    ensures Extends(s, u)
  {
  }

  lemma ClockKeeps(cfg: Config, s: Store, clock: Option<int>)
    requires Invariant(cfg, s) && Now(s, clock).Ok?
    ensures Invariant(cfg, s.(lastClock := Now(s, clock).value)) && Extends(s, s.(lastClock := Now(s, clock).value))
  {
    hide EvidenceError, GenerationsOk;
    var t := s.(lastClock := Now(s, clock).value);
    SameGenerations(s, t);
  }

  lemma SameGenerations(s: Store, t: Store)
    requires GenerationsOk(s) && t.revocations == s.revocations && t.generation == s.generation
    ensures GenerationsOk(t)
  {
  }

  lemma Canonical(cfg: Config, n: Name, raw: string)
    requires WellFormed(cfg) && cfg.admit(n, raw).Some?
    ensures cfg.admit(n, cfg.admit(n, raw).value) == cfg.admit(n, raw)
  {
  }

  // ---------- one table at a time ----------

  ghost function WithRow(s: Store, n: Name, row: ArtifactRow): Store { s.(artifacts := s.artifacts[n := row]) }

  lemma RowArtifacts(cfg: Config, s: Store, n: Name, row: ArtifactRow)
    requires ArtifactsOk(cfg, s)
    requires row.payload.Some? ==> cfg.admit(n, row.payload.value) == row.payload && cfg.hash(row.payload.value) == row.digest
                                   && n in cfg.allowed && cfg.allowed[n] == row.digest
    ensures ArtifactsOk(cfg, WithRow(s, n, row))
  {
  }

  lemma RowEvidence(s: Store, n: Name, row: ArtifactRow)
    requires EvidenceOk(s) && (n in s.artifacts ==> row.digest == s.artifacts[n].digest)
    ensures EvidenceOk(WithRow(s, n, row))
  {
    hide EvidenceError;
  }

  lemma RowDeleted(s: Store, n: Name, row: ArtifactRow)
    requires forall m :: m in s.artifacts && m != n ==> (s.artifacts[m].payload.None? <==> ArtifactEntity(m) in s.revocations)
    requires row.payload.None? <==> ArtifactEntity(n) in s.revocations
    ensures DeletedOk(WithRow(s, n, row))
  {
  }

  lemma RowExtends(s: Store, n: Name, row: ArtifactRow)
    requires n in s.artifacts ==> row.digest == s.artifacts[n].digest && row.payload.None?
    ensures Extends(s, WithRow(s, n, row))
  {
  }

  lemma RowRevocations(s: Store, n: Name, row: ArtifactRow)
    requires RevocationsOk(s) && GenerationsOk(s)
    ensures RevocationsOk(WithRow(s, n, row)) && GenerationsOk(WithRow(s, n, row))
  {
  }

  lemma PutKeeps(cfg: Config, s: Store, name: Name, raw: string)
    requires WellFormed(cfg) && Invariant(cfg, s) && Refusal(cfg, Put(name, raw)).None?
    requires DoPut(cfg, s, name, cfg.admit(name, raw).value).Ok?
    ensures var t := DoPut(cfg, s, name, cfg.admit(name, raw).value).value.store;
            Invariant(cfg, t) && Extends(s, t)
  {
    Canonical(cfg, name, raw);
    hide WellFormed, ArtifactsOk, EvidenceOk, GenerationsOk, Extends, VerifiedArtifact;
    if name in s.artifacts {
      ExtendsSelf(s);
    } else {
      var payload := cfg.admit(name, raw).value;
      var row := ArtifactRow(Some(payload), cfg.hash(payload));
      assert ArtifactEntity(name) !in s.revocations;
      RowArtifacts(cfg, s, name, row);
      RowEvidence(s, name, row);
      RowDeleted(s, name, row);
      RowRevocations(s, name, row);
      RowExtends(s, name, row);
    }
  }

  lemma EvidenceAdded(s: Store, id: Id, row: EvidenceRow)
    requires EvidenceOk(s) && EvidenceError(row.value).None? && row.value.evidenceId == id && row.value.artifact == row.artifact
    requires row.artifact.name in s.artifacts && s.artifacts[row.artifact.name].digest == row.artifact.digest
    requires row.value.collectedAt <= s.lastClock && id !in s.evidence
    ensures EvidenceOk(s.(evidence := s.evidence[id := row])) && Extends(s, s.(evidence := s.evidence[id := row]))
  {
    hide EvidenceError;
  }

  lemma RecordKeeps(cfg: Config, s: Store, c: Call, now: int)
    requires Invariant(cfg, s) && c.Record? && s.lastClock == now
    requires DoRecord(cfg, s, c, now).Ok?
    ensures var t := DoRecord(cfg, s, c, now).value.store;
            Invariant(cfg, t) && Extends(s, t)
  {
    hide EvidenceError, GenerationsOk, EvidenceOk, VerifiedArtifact, VerifiedEvidence, Extends;
    var t := DoRecord(cfg, s, c, now).value.store;
    SameGenerations(s, t);
    if c.id in s.evidence {
      ExtendsSelf(s);
    } else {
      EvidenceAdded(s, c.id, EvidenceRow(c.artifact, EvidenceOf(c, now)));
    }
  }

  /** The entity is revoked, if it was not already. */
  ghost predicate RevokedOne(s: Store, t: Store, e: Entity) {
    && t == s.(revocations := t.revocations, generation := t.generation)
    && e in t.revocations
    && (if e in s.revocations then t == s
        else t.generation == s.generation + 1 && s.generation < MAX_INTEGER
             && t.revocations == s.revocations[e := t.revocations[e]]
             && t.revocations[e].generation == t.generation && t.revocations[e].observedAt == s.lastClock)
  }

  lemma RevokeIs(s: Store, e: Entity, reason: Reason)
    requires Revoke(s, e, reason, s.lastClock).Ok?
    ensures RevokedOne(s, Revoke(s, e, reason, s.lastClock).value.store, e)
  {
  }

  lemma OneMoreEntity(m: map<Entity, Revocation>, e: Entity, r: Revocation)
    requires e !in m
    ensures |m[e := r]| == |m| + 1
  {
    assert m[e := r].Keys == m.Keys + {e};
  }

  lemma OneMoreGeneration(m: map<Entity, Revocation>, e: Entity, r: Revocation, n: nat)
    requires OwnGenerations(m) && InRange(m, n) && e !in m && r.generation == n + 1
    ensures OwnGenerations(m[e := r]) && InRange(m[e := r], n + 1)
  {
  }

  lemma RevokedGenerations(s: Store, t: Store, e: Entity)
    requires GenerationsOk(s) && RevokedOne(s, t, e)
    ensures GenerationsOk(t)
  {
    if e !in s.revocations {
      var m, r := s.revocations, t.revocations[e];
      OneMoreEntity(m, e, r);
      OneMoreGeneration(m, e, r, s.generation);
      hide OwnGenerations, InRange;
    }
  }

  lemma RevokedRevocations(s: Store, t: Store, e: Entity)
    requires RevocationsOk(s) && RevokedOne(s, t, e)
    requires match e case EvidenceEntity(id) => id in s.evidence case ArtifactEntity(n) => n in s.artifacts
    ensures RevocationsOk(t)
  {
  }

  lemma RevokedExtends(s: Store, t: Store, e: Entity)
    requires RevokedOne(s, t, e)
    ensures Extends(s, t)
  {
  }

  lemma RevokedArtifacts(cfg: Config, s: Store, t: Store, e: Entity)
    requires ArtifactsOk(cfg, s) && EvidenceOk(s) && RevokedOne(s, t, e)
    ensures ArtifactsOk(cfg, t) && EvidenceOk(t)
  {
    hide EvidenceError;
  }

  lemma RevokedDeleted(s: Store, t: Store, e: Entity)
    requires DeletedOk(s) && RevokedOne(s, t, e)
    ensures forall n :: n in t.artifacts && e != ArtifactEntity(n) ==>
              (t.artifacts[n].payload.None? <==> ArtifactEntity(n) in t.revocations)
  {
  }

  lemma RevokeKeeps(cfg: Config, s: Store, id: Id, reason: Reason, now: int)
    requires Invariant(cfg, s) && s.lastClock == now && DoRevoke(s, id, reason, now).Ok?
    ensures var t := DoRevoke(s, id, reason, now).value.store;
            Invariant(cfg, t) && Extends(s, t)
  {
    assert id in s.evidence;
    var e, t := EvidenceEntity(id), DoRevoke(s, id, reason, now).value.store;
    RevokeIs(s, e, reason);
    hide DoRevoke, RevokedOne, GenerationsOk, RevocationsOk, ArtifactsOk, EvidenceOk, Extends;
    RevokedGenerations(s, t, e);
    RevokedRevocations(s, t, e);
    RevokedExtends(s, t, e);
    RevokedArtifacts(cfg, s, t, e);
    RevokedDeleted(s, t, e);
    assert ClockOk(t) by { RevokedClock(s, t, e); }
  }

  lemma RevokedClock(s: Store, t: Store, e: Entity)
    requires ClockOk(s) && RevokedOne(s, t, e)
    ensures ClockOk(t)
  {
  }

  lemma DeleteIs(s: Store, ref: Ref, reason: Reason) returns (u: Store, row: ArtifactRow)
    requires DoDelete(s, ref, reason, s.lastClock).Ok?
    ensures RevokedOne(s, u, ArtifactEntity(ref.name)) && ref.name in s.artifacts && u.artifacts == s.artifacts
    ensures row.payload.None? && row.digest == s.artifacts[ref.name].digest
    ensures DoDelete(s, ref, reason, s.lastClock).value.store == WithRow(u, ref.name, row)
    ensures ArtifactEntity(ref.name) in u.revocations
  {
    u := Revoke(s, ArtifactEntity(ref.name), reason, s.lastClock).value.store;
    row := s.artifacts[ref.name].(payload := None);
    RevokeIs(s, ArtifactEntity(ref.name), reason);
  }

  lemma DeleteKeeps(cfg: Config, s: Store, ref: Ref, reason: Reason, now: int)
    requires Invariant(cfg, s) && s.lastClock == now && DoDelete(s, ref, reason, now).Ok?
    ensures var t := DoDelete(s, ref, reason, now).value.store;
            Invariant(cfg, t) && Extends(s, t)
  {
    hide DoDelete, RevokedOne, GenerationsOk, RevocationsOk, ArtifactsOk, EvidenceOk, Extends;
    var e := ArtifactEntity(ref.name);
    var u, row := DeleteIs(s, ref, reason);
    RevokedGenerations(s, u, e);
    RevokedRevocations(s, u, e);
    RevokedExtends(s, u, e);
    RevokedArtifacts(cfg, s, u, e);
    RevokedDeleted(s, u, e);
    RevokedClock(s, u, e);
    RowArtifacts(cfg, u, ref.name, row);
    RowEvidence(u, ref.name, row);
    RowDeleted(u, ref.name, row);
    RowRevocations(u, ref.name, row);
    RowExtends(u, ref.name, row);
    ExtendsAll(s, u, WithRow(u, ref.name, row));
  }

  lemma ServeKeeps(cfg: Config, s: Store, c: Call, now: int)
    requires WellFormed(cfg) && Invariant(cfg, s) && Refusal(cfg, c).None? && s.lastClock == now
    requires Serve(cfg, s, c, now).Ok?
    ensures Invariant(cfg, Serve(cfg, s, c, now).value.store) && Extends(s, Serve(cfg, s, c, now).value.store)
  {
    hide Invariant, WellFormed, DoPut, DoRecord, DoRevoke, DoDelete, VerifiedEvidence, VerifiedArtifact, ValidityOf;
    match c {
      case Put(name, raw) => PutKeeps(cfg, s, name, raw);
      case Record(_, _, _, _, _, _, _) => RecordKeeps(cfg, s, c, now);
      case RevokeEvidence(id, reason) => RevokeKeeps(cfg, s, id, reason, now);
      case Delete(ref, reason) => DeleteKeeps(cfg, s, ref, reason, now);
      case _ =>
    }
  }

  lemma ApplyKeeps(cfg: Config, s: Store, c: Call, clock: Option<int>)
    requires WellFormed(cfg) && Invariant(cfg, s)
    ensures Invariant(cfg, Apply(cfg, s, c, clock)) && Extends(s, Apply(cfg, s, c, clock))
  {
    hide Invariant, WellFormed, Serve, Refusal, Extends;
    if Transact(cfg, s, c, clock).Ok? {
      ClockKeeps(cfg, s, clock);
      var now := Now(s, clock).value;
      ServeKeeps(cfg, s.(lastClock := now), c, now);
      ExtendsAll(s, s.(lastClock := now), Apply(cfg, s, c, clock));
    } else {
      ExtendsSelf(s);
    }
  }

  lemma ExtendsSelf(s: Store)
    ensures Extends(s, s)
  {
  }

  /** Whatever is called, and whatever the clock reads. */
  lemma {:induction false} RunKeeps(cfg: Config, s: Store, events: seq<Event>)
    requires WellFormed(cfg) && Invariant(cfg, s)
    ensures Invariant(cfg, Run(cfg, s, events)) && Extends(s, Run(cfg, s, events))
    decreases |events|
  {
    hide Invariant, Extends, Apply, WellFormed;
    if events == [] {
      ExtendsSelf(s);
    } else {
      var n := |events| - 1;
      RunKeeps(cfg, s, events[..n]);
      ApplyKeeps(cfg, Run(cfg, s, events[..n]), events[n].call, events[n].clock);
      ExtendsAll(s, Run(cfg, s, events[..n]), Run(cfg, s, events));
    }
  }

  // ---------- corruption is never reported ----------

  lemma ArtifactSound(cfg: Config, s: Store, n: Name)
    requires Invariant(cfg, s) && n in s.artifacts
    ensures VerifiedArtifact(cfg, n, s.artifacts[n]) != Err(STORAGE_CORRUPT)
  {
    hide EvidenceError, GenerationsOk;
  }

  lemma EvidenceSound(cfg: Config, s: Store, id: Id)
    requires Invariant(cfg, s)
    ensures VerifiedEvidence(s, id) != Err(STORAGE_CORRUPT)
    ensures VerifiedEvidence(s, id).Ok? ==> id in s.evidence && VerifiedEvidence(s, id).value == s.evidence[id].value
    ensures VerifiedEvidence(s, id).Ok? ==> s.evidence[id].value.artifact.name in s.artifacts
  {
    hide EvidenceError, GenerationsOk, ArtifactsOk, DeletedOk;
  }

  lemma GenerationSound(cfg: Config, s: Store)
    requires Invariant(cfg, s)
    ensures GenerationOf(s).Ok?
  {
  }

  lemma RecordSound(cfg: Config, s: Store, c: Call, now: int)
    requires Invariant(cfg, s) && c.Record?
    ensures DoRecord(cfg, s, c, now) != Err(STORAGE_CORRUPT)
  {
    hide Invariant, VerifiedArtifact, VerifiedEvidence;
    EvidenceSound(cfg, s, c.id);
    if c.artifact.name in s.artifacts { ArtifactSound(cfg, s, c.artifact.name); }
  }

  lemma ValiditySound(cfg: Config, s: Store, id: Id, now: int, baseline: bool)
    requires Invariant(cfg, s)
    ensures VerifiedEvidence(s, id).Ok? ==>
              ValidityOf(cfg, s, VerifiedEvidence(s, id).value, now, baseline) != Err(STORAGE_CORRUPT)
  {
    hide Invariant, VerifiedArtifact, VerifiedEvidence, GenerationOf;
    EvidenceSound(cfg, s, id);
    GenerationSound(cfg, s);
    if VerifiedEvidence(s, id).Ok? { ArtifactSound(cfg, s, s.evidence[id].value.artifact.name); }
  }

  lemma ServeSound(cfg: Config, s: Store, c: Call, now: int)
    requires Invariant(cfg, s)
    ensures Serve(cfg, s, c, now) != Err(STORAGE_CORRUPT)
  {
    hide Invariant, VerifiedArtifact, VerifiedEvidence, GenerationOf, ValidityOf, DoRecord;
    GenerationSound(cfg, s);
    match c {
      case Put(name, _) => if name in s.artifacts { ArtifactSound(cfg, s, name); }
      case Get(ref) => if ref.name in s.artifacts { ArtifactSound(cfg, s, ref.name); }
      case Record(_, _, _, _, _, _, _) => RecordSound(cfg, s, c, now);
      case Read(id) => EvidenceSound(cfg, s, id); ValiditySound(cfg, s, id, now, false);
      case Check(id, baseline) => EvidenceSound(cfg, s, id); ValiditySound(cfg, s, id, now, baseline);
      case RevokeEvidence(id, _) => EvidenceSound(cfg, s, id);
      case Delete(_, _) =>
    }
  }

  /** No reachable store makes any call report corruption. */
  lemma NoCorruption(cfg: Config, s: Store, c: Call, clock: Option<int>)
    requires Invariant(cfg, s)
    ensures Transact(cfg, s, c, clock) != Err(STORAGE_CORRUPT)
  {
    assert ClockOk(s);
    hide Invariant, Serve;
    if Now(s, clock).Ok? {
      ClockKeeps(cfg, s, clock);
      ServeSound(cfg, s.(lastClock := Now(s, clock).value), c, Now(s, clock).value);
    }
  }

  // ---------- evidence only moves forward ----------

  function Rank(state: State): nat {
    match state
    case VALID => 0
    case EXPIRED => 1
    case REVOKED => 2
    case DELETED => 3
  }

  lemma ValidityTotal(cfg: Config, s: Store, id: Id, now: int, baseline: bool)
    requires Invariant(cfg, s) && id in s.evidence
    ensures ValidityOf(cfg, s, s.evidence[id].value, now, baseline).Ok?
  {
    hide EvidenceError;
  }

  lemma StateForward(cfg: Config, s: Store, t: Store, id: Id, early: int, late: int, baseline: bool)
    requires Invariant(cfg, s) && Invariant(cfg, t) && Extends(s, t) && id in s.evidence && early <= late
    ensures id in t.evidence && t.evidence[id] == s.evidence[id]
    ensures var a := ValidityOf(cfg, s, s.evidence[id].value, early, baseline);
            var b := ValidityOf(cfg, t, s.evidence[id].value, late, baseline);
            a.Ok? && b.Ok? && Rank(a.value.state) <= Rank(b.value.state) && a.value.validUntil == b.value.validUntil
  {
    hide EvidenceError, GenerationsOk, ArtifactsOk, VerifiedArtifact;
    ValidityTotal(cfg, s, id, early, baseline);
    ValidityTotal(cfg, t, id, late, baseline);
  }

  /** In any run, two checks of the same evidence in the same mode report states
      in the order VALID, EXPIRED, REVOKED, DELETED, whatever happens between. */
  lemma EvidenceMovesForward(cfg: Config, s: Store, id: Id, baseline: bool, first: Option<int>, events: seq<Event>,
                             second: Option<int>)
    requires WellFormed(cfg) && Invariant(cfg, s)
    requires Transact(cfg, s, Check(id, baseline), first).Ok?
    requires var t := Run(cfg, Apply(cfg, s, Check(id, baseline), first), events);
             Transact(cfg, t, Check(id, baseline), second).Ok?
    ensures var t := Run(cfg, Apply(cfg, s, Check(id, baseline), first), events);
            var a := Transact(cfg, s, Check(id, baseline), first).value.answer;
            var b := Transact(cfg, t, Check(id, baseline), second).value.answer;
            && a.Checked? && b.Checked? && Rank(a.use.state) <= Rank(b.use.state)
            && a.use.validUntil == b.use.validUntil && a.use.generation <= b.use.generation
            && a.use.checkedAt <= b.use.checkedAt
  {
    hide WellFormed, Invariant, Extends, Run, EvidenceError, ValidityOf;
    var c := Check(id, baseline);
    var s1 := Apply(cfg, s, c, first);
    ApplyKeeps(cfg, s, c, first);
    RunKeeps(cfg, s1, events);
    var t := Run(cfg, s1, events);
    ApplyKeeps(cfg, t, c, second);
    var t1 := Apply(cfg, t, c, second);
    CheckIs(cfg, s, id, baseline, first);
    CheckIs(cfg, t, id, baseline, second);
    assert Extends(s1, t1) by { ExtendsAll(s1, t, t1); }
    assert s1.lastClock <= t1.lastClock && s1.generation <= t1.generation by { ExtendsGrows(s1, t1); }
    StateForward(cfg, s1, t1, id, s1.lastClock, t1.lastClock, baseline);
  }

  lemma ExtendsGrows(s: Store, t: Store)
    requires Extends(s, t)
    ensures s.lastClock <= t.lastClock && s.generation <= t.generation
  {
  }

  /** A check reads the store it leaves behind, at the clock it recorded. */
  lemma CheckIs(cfg: Config, s: Store, id: Id, baseline: bool, clock: Option<int>)
    requires Transact(cfg, s, Check(id, baseline), clock).Ok?
    ensures var t := Apply(cfg, s, Check(id, baseline), clock);
            && id in t.evidence
            && ValidityOf(cfg, t, t.evidence[id].value, t.lastClock, baseline).Ok?
            && Transact(cfg, s, Check(id, baseline), clock).value.answer
               == Checked(ValidityOf(cfg, t, t.evidence[id].value, t.lastClock, baseline).value)
            && ValidityOf(cfg, t, t.evidence[id].value, t.lastClock, baseline).value.checkedAt == t.lastClock
            && ValidityOf(cfg, t, t.evidence[id].value, t.lastClock, baseline).value.generation == t.generation
  {
    hide EvidenceError, RowOf, VerifiedArtifact, ValidUntil;
  }

  // ---------- deletion is final ----------

  /** Once deleted, a name is never stored again and no evidence can be recorded
      for it, in any later run. */
  lemma DeletedForever(cfg: Config, s: Store, n: Name, events: seq<Event>, raw: string, clock: Option<int>)
    requires WellFormed(cfg) && Invariant(cfg, s) && n in s.artifacts && s.artifacts[n].payload.None?
    ensures var t := Run(cfg, s, events);
            && n in t.artifacts && t.artifacts[n].payload.None?
            && Transact(cfg, t, Put(n, raw), clock).Err?
            && forall c: Call :: c.Record? && c.artifact.name == n && c.id !in t.evidence ==> Transact(cfg, t, c, clock).Err?
  {
    hide WellFormed, Invariant, EvidenceError, Run;
    RunKeeps(cfg, s, events);
  }

  lemma DeleteEmpties(cfg: Config, s: Store, ref: Ref, reason: Reason, clock: Option<int>)
    requires Transact(cfg, s, Delete(ref, reason), clock).Ok?
    ensures var t := Apply(cfg, s, Delete(ref, reason), clock);
            ref.name in t.artifacts && t.artifacts[ref.name].payload.None?
  {
  }

  // ---------- records ----------

  /** Recording known evidence again either fails or returns the first record,
      and changes nothing but the clock. */
  lemma RecordAgain(cfg: Config, s: Store, c: Call, clock: Option<int>)
    requires Invariant(cfg, s) && c.Record? && c.id in s.evidence
    ensures var out := Transact(cfg, s, c, clock);
            out.Ok? ==> out.value.answer == Recorded(s.evidence[c.id].value)
                        && out.value.store == s.(lastClock := out.value.store.lastClock)
    ensures Transact(cfg, s, c, clock).Ok? <==>
              Refusal(cfg, c).None? && Now(s, clock).Ok?
              && EvidenceOf(c, s.evidence[c.id].value.collectedAt) == s.evidence[c.id].value
  {
    hide GenerationsOk;
  }

  /** Fresh evidence is also good as a baseline. */
  lemma FreshIsBaseline(cfg: Config, s: Store, e: Evidence, now: int)
    requires ValidityOf(cfg, s, e, now, false).Ok? && ValidityOf(cfg, s, e, now, false).value.state == VALID
    ensures ValidityOf(cfg, s, e, now, true).Ok? && ValidityOf(cfg, s, e, now, true).value.state == VALID
  {
  }

  function EpochOf(r: Revocation): int { r.generation }

  /** The generations of the revocations are exactly 1..n. */
  lemma GenerationsExact(cfg: Config, events: seq<Event>)
    requires WellFormed(cfg)
    ensures var s := Run(cfg, EMPTY, events);
            s.generation == |s.revocations| && Image(s.revocations, EpochOf) == OneTo(s.generation)
  {
    hide WellFormed, Run, OneTo, Image;
    EmptyOk(cfg);
    RunKeeps(cfg, EMPTY, events);
    var s := Run(cfg, EMPTY, events);
    assert GenerationsOk(s);
    hide Invariant;
    NumberedOneTo(s.revocations, EpochOf);
  }

  /** Valid evidence vouches for an artifact that is stored unchanged under an
      admitted digest, and was not revoked. */
  lemma ValidMeans(cfg: Config, s: Store, id: Id, now: int, baseline: bool)
    requires Invariant(cfg, s) && id in s.evidence
    ensures var e := s.evidence[id].value;
            var v := ValidityOf(cfg, s, e, now, baseline);
            v.Ok? && (v.value.state == VALID <==>
                        s.artifacts[e.artifact.name].payload.Some? && EvidenceEntity(id) !in s.revocations
                        && ArtifactEntity(e.artifact.name) !in s.revocations
                        && now <= ValidUntil(e, baseline))
  {
    hide EvidenceError, GenerationsOk;
    ValidityTotal(cfg, s, id, now, baseline);
  }
}
