/** The checks a migration runs over the policy tables, and the step that seeds
    the immutable history from the current rows. */
module AdoptionMigration {
  import opened Common
  import opened Adoption
  import opened AdoptionInvariant
  import opened AdoptionAudit
  import AdoptionStore

  // ---------- the checks ----------

  /** An adoption row matches the proposal and the validation it names. */
  predicate PolicyRowOk(s: Store, row: Adoption) {
    && row.proposalId in s.proposals
    && row.validationId in s.validations
    && var p := s.proposals[row.proposalId];
    && var v := s.validations[row.validationId];
    && row.seriesId == p.seriesId
    && p.expectedGeneration >= 0
    && row.generation == p.expectedGeneration + 1
    && row.policyDigest == p.policyDigest
    && row.policy == p.policy
    && v.proposalId == row.proposalId
    && v.proposalDigest == p.policyDigest
  }

  predicate CurrentRowOk(s: Store, id: Id)
    requires id in s.current
  {
    var row := s.current[id];
    PolicyRowOk(s, row) && Key(row.seriesId, row.generation) in s.history
    && s.history[Key(row.seriesId, row.generation)] == row
  }

  predicate ValidationRowOk(s: Store, id: Id)
    requires id in s.validations
  {
    var v := s.validations[id];
    v.proposalId in s.proposals && s.proposals[v.proposalId].policyDigest == v.proposalDigest
  }

  /** The policy part of the history graph check. */
  ghost predicate PolicyGraphOk(s: Store) {
    && (forall k :: k in s.history ==> PolicyRowOk(s, s.history[k]))
    && (forall id :: id in s.current ==> CurrentRowOk(s, id))
    && (forall id :: id in s.validations ==> ValidationRowOk(s, id))
  }

  method VerifyValidations(s: Store) returns (ok: bool)
    ensures ok <==> forall id :: id in s.validations ==> ValidationRowOk(s, id)
  {
    var todo := s.validations.Keys;
    while todo != {}
      invariant todo <= s.validations.Keys
      invariant forall id :: id in s.validations && id !in todo ==> ValidationRowOk(s, id)
      decreases |todo|
    {
      hide ValidationRowOk;
      var id :| id in todo;
      if !ValidationRowOk(s, id) { return false; }
      todo := todo - {id};
    }
    return true;
  }

  method VerifyHistory(s: Store) returns (ok: bool)
    ensures ok <==> forall k :: k in s.history ==> PolicyRowOk(s, s.history[k])
  {
    var todo := s.history.Keys;
    while todo != {}
      invariant todo <= s.history.Keys
      invariant forall k :: k in s.history && k !in todo ==> PolicyRowOk(s, s.history[k])
      decreases |todo|
    {
      hide PolicyRowOk;
      var k :| k in todo;
      if !PolicyRowOk(s, s.history[k]) { return false; }
      todo := todo - {k};
    }
    return true;
  }

  method VerifyCurrent(s: Store) returns (ok: bool)
    ensures ok <==> forall id :: id in s.current ==> CurrentRowOk(s, id)
  {
    var todo := s.current.Keys;
    while todo != {}
      invariant todo <= s.current.Keys
      invariant forall id :: id in s.current && id !in todo ==> CurrentRowOk(s, id)
      decreases |todo|
    {
      hide CurrentRowOk;
      var id :| id in todo;
      if !CurrentRowOk(s, id) { return false; }
      todo := todo - {id};
    }
    return true;
  }

  /** The check as the loops it is: each table is walked row by row, and the
      first row that does not match fails the whole check. */
  method VerifyPolicyGraph(s: Store) returns (ok: bool)
    ensures ok <==> PolicyGraphOk(s)
  {
    hide PolicyRowOk, CurrentRowOk, ValidationRowOk;
    ok := VerifyValidations(s);
    if !ok { return; }
    ok := VerifyHistory(s);
    if !ok { return; }
    ok := VerifyCurrent(s);
  }

  lemma RowLinked(cfg: Config, s: Store, row: Adoption)
    requires RowOk(cfg, s, row) && ProposalsOk(cfg, s) && ValidationsOk(cfg, s)
    ensures PolicyRowOk(s, row)
  {
    assert ProposalOk(cfg, s, s.proposals[row.proposalId]);
    assert ValidationOk(cfg, s, row.validationId, s.validations[row.validationId]);
  }

  /** Every store the authority can reach with a history passes the check. */
  lemma ReachableStorePasses(cfg: Config, s: Store)
    requires TablesOk(cfg, s) && cfg.keepsHistory
    ensures PolicyGraphOk(s)
  {
    hide RowOk, ValidationsOk, ProposalsOk, EpochOk, IntervalOk, PolicyRowOk;
    forall k | k in s.history ensures PolicyRowOk(s, s.history[k]) { RowLinked(cfg, s, s.history[k]); }
    forall id | id in s.current ensures PolicyRowOk(s, s.current[id]) { RowLinked(cfg, s, s.current[id]); }
    forall id | id in s.validations ensures ValidationRowOk(s, id) { ValidationLinked(cfg, s, id); }
  }

  lemma ValidationLinked(cfg: Config, s: Store, id: Id)
    requires ValidationsOk(cfg, s) && id in s.validations
    ensures ValidationRowOk(s, id)
  {
    assert ValidationOk(cfg, s, id, s.validations[id]);
  }

  // ---------- seeding ----------

  /** The rows of current_profiles as rows of policy_adoptions. */
  function CurrentRows(s: Store): (m: map<Key, Adoption>)
    ensures forall k :: k in m ==> k.seriesId in s.current && m[k] == s.current[k.seriesId]
                                   && k.generation == s.current[k.seriesId].generation
    ensures forall id :: id in s.current ==> Key(id, s.current[id].generation) in m
  {
    map id | id in s.current :: Key(id, s.current[id].generation) := s.current[id]
  }

  /** The looser row check the seeding step ends with. */
  predicate SeedRowOk(s: Store, id: Id)
    requires id in s.current
  {
    var row := s.current[id];
    && row.proposalId in s.proposals
    && row.validationId in s.validations
    && s.proposals[row.proposalId].seriesId == row.seriesId
    && s.proposals[row.proposalId].policyDigest == row.policyDigest
    && s.validations[row.validationId].proposalId == row.proposalId
    && s.validations[row.validationId].proposalDigest == row.policyDigest
  }

  /** A history that is already there must be the current rows; an empty one
      becomes them; every current row must match its proposal and validation. */
  ghost function Seed(s: Store): Outcome<Store> {
    if s.history != map[] && s.history != CurrentRows(s) then Err(STORAGE_CORRUPT)
    else if exists id :: id in s.current && !SeedRowOk(s, id) then Err(STORAGE_CORRUPT)
    else Ok(s.(history := CurrentRows(s)))
  }

  lemma CurrentRowsNone(s: Store)
    ensures s.current == map[] <==> CurrentRows(s) == map[]
  {
    if s.current != map[] {
      var id :| id in s.current;
      assert Key(id, s.current[id].generation) in CurrentRows(s);
    }
  }

  /** The bulk insert of the current rows into an empty history. */
  method InsertCurrentRows(db: AdoptionStore.AdoptionStore)
    requires db.history == map[]
    modifies db`history
    ensures db.history == CurrentRows(old(db.Tables()))
  {
    ghost var rows := CurrentRows(db.Tables());
    var todo := db.current.Keys;
    while todo != {}
      invariant todo <= db.current.Keys
      invariant forall k :: k in db.history <==> k in rows && k.seriesId !in todo
      invariant forall k :: k in db.history ==> db.history[k] == rows[k]
      decreases |todo|
    {
      var id :| id in todo;
      db.history := db.history[Key(id, db.current[id].generation) := db.current[id]];
      todo := todo - {id};
    }
  }

  method CheckSeeded(s: Store) returns (ok: bool)
    ensures ok <==> forall id :: id in s.current ==> SeedRowOk(s, id)
  {
    var todo := s.current.Keys;
    while todo != {}
      invariant todo <= s.current.Keys
      invariant forall id :: id in s.current && id !in todo ==> SeedRowOk(s, id)
      decreases |todo|
    {
      hide SeedRowOk;
      var id :| id in todo;
      if !SeedRowOk(s, id) { return false; }
      todo := todo - {id};
    }
    return true;
  }

  method SeedPolicyAdoptions(db: AdoptionStore.AdoptionStore) returns (out: Outcome<()>)
    modifies db`history
    ensures match Seed(old(db.Tables()))
            case Ok(s) => out == Ok(()) && db.Tables() == s
            case Err(e) => out == Err(e)
  {
    hide SeedRowOk;
    ghost var s := db.Tables();
    CurrentRowsNone(s);
    if db.history != map[] && db.history != CurrentRows(db.Tables()) { return Err(STORAGE_CORRUPT); }
    if db.history == map[] && db.current != map[] { InsertCurrentRows(db); }
    forall id | id in s.current ensures SeedRowOk(s, id) <==> SeedRowOk(db.Tables(), id) {
      SeedRowSame(s, db.Tables(), id);
    }
    var ok := CheckSeeded(db.Tables());
    if !ok { return Err(STORAGE_CORRUPT); }
    return Ok(());
  }

  lemma SeedRowSame(s: Store, s': Store, id: Id)
    requires id in s.current && s' == s.(history := s'.history)
    ensures SeedRowOk(s, id) <==> SeedRowOk(s', id)
  {
  }

  /** The deployment after the migration: a history, possibly a new validator
      profile that still accepts the old ones, possibly more actions. */
  ghost predicate Migrates(cfg: Config, cfg': Config) {
    && WellFormed(cfg) && WellFormed(cfg')
    && !cfg.keepsHistory && cfg'.keepsHistory
    && cfg'.bootstrapDigest == cfg.bootstrapDigest
    && cfg'.normalize == cfg.normalize && cfg'.hash == cfg.hash && cfg'.fits == cfg.fits
    && (forall d :: ProfileMatches(cfg, d) ==> ProfileMatches(cfg', d))
    && (forall a :: a in cfg.extensionActions ==>
          a in cfg'.extensionActions && (a in cfg'.freshActions <==> a in cfg.freshActions))
  }

  lemma SeededRowOk(cfg: Config, cfg': Config, s: Store, s': Store, row: Adoption)
    requires RowOk(cfg, s, row) && s' == s.(history := s'.history)
    ensures RowOk(cfg', s', row)
  {
  }

  lemma SeededLinksOk(cfg: Config, cfg': Config, s: Store, s': Store)
    requires Migrates(cfg, cfg') && ProposalsOk(cfg, s) && ValidationsOk(cfg, s) && EpochOk(s)
    requires s' == s.(history := s'.history)
    ensures ProposalsOk(cfg', s') && ValidationsOk(cfg', s') && EpochOk(s')
  {
    hide EpochOk, WellFormed;
    forall id | id in s'.proposals ensures ProposalOk(cfg', s', s'.proposals[id]) {
      assert ProposalOk(cfg, s, s.proposals[id]);
    }
    forall id | id in s'.validations ensures ValidationOk(cfg', s', id, s'.validations[id]) {
      assert ValidationOk(cfg, s, id, s.validations[id]);
    }
    SeededEpochOk(s, s');
  }

  lemma SeededEpochOk(s: Store, s': Store)
    requires EpochOk(s) && s' == s.(history := s'.history)
    ensures EpochOk(s')
  {
  }

  lemma SeededSavedOk(cfg: Config, cfg': Config, s: Store, s': Store)
    requires Migrates(cfg, cfg') && SavedOk(cfg, s) && s'.idempotency == s.idempotency
    ensures SavedOk(cfg', s')
  {
    hide WellFormed;
    forall id | id in s.idempotency ensures SavedRequestOk(cfg', id, s.idempotency[id]) {
      assert SavedRequestOk(cfg, id, s.idempotency[id]);
    }
  }

  lemma SeededHistoryOk(cfg: Config, cfg': Config, s: Store, s': Store)
    requires CurrentOk(cfg, s) && cfg'.keepsHistory && s' == s.(history := CurrentRows(s))
    ensures CurrentOk(cfg', s') && HistoryRowsOk(cfg', s') && HistoryEndsOk(cfg', s') && IntervalOk(s')
  {
    hide RowOk;
    forall id | id in s.current ensures RowOk(cfg', s', s.current[id]) {
      SeededRowOk(cfg, cfg', s, s', s.current[id]);
    }
  }

  lemma SeedSucceeds(cfg: Config, s: Store)
    requires TablesOk(cfg, s) && !cfg.keepsHistory
    ensures Seed(s) == Ok(s.(history := CurrentRows(s)))
  {
    hide RowOk, PolicyRowOk, EpochOk, ProposalsOk, ValidationsOk, SeedRowOk;
    forall id | id in s.current ensures SeedRowOk(s, id) {
      assert RowOk(cfg, s, s.current[id]);
      RowLinked(cfg, s, s.current[id]);
      SeedRowLinked(s, id);
    }
  }

  lemma SeedRowLinked(s: Store, id: Id)
    requires id in s.current && PolicyRowOk(s, s.current[id])
    ensures SeedRowOk(s, id)
  {
  }

  /** Seeding a store that kept no history succeeds, and gives a store the
      authority can go on with under the migrated configuration: the invariant
      holds and the history check passes. */
  lemma SeedEstablishes(cfg: Config, cfg': Config, s: Store)
    requires Migrates(cfg, cfg') && Invariant(cfg, s)
    ensures Seed(s).Ok?
    ensures Invariant(cfg', Seed(s).value) && PolicyGraphOk(Seed(s).value)
  {
    hide EpochOk, ProposalsOk, ValidationsOk, CurrentOk, SavedOk, WellFormed, Seed, PolicyGraphOk;
    SeedSucceeds(cfg, s);
    var s' := s.(history := CurrentRows(s));
    SeededLinksOk(cfg, cfg', s, s');
    SeededSavedOk(cfg, cfg', s, s');
    SeededHistoryOk(cfg, cfg', s, s');
    ReachableStorePasses(cfg', s');
  }

  // ---------- after the migration ----------

  /** The first generation a series has a history row for. */
  function FirstKept(seeded: Store, id: Id): int {
    if id in seeded.current then seeded.current[id].generation else 1
  }

  /** The history of every series is the interval from the seeded generation
      (or 1) to the current one. */
  ghost predicate HistorySpans(seeded: Store, s: Store) {
    forall id, g :: Key(id, g) in s.history <==> FirstKept(seeded, id) <= g <= Generation(s, id)
  }

  lemma SpansStep(cfg: Config, seeded: Store, s: Store, s': Store)
    requires HistorySpans(seeded, s) && StepShape(cfg, s, s') && cfg.keepsHistory
    requires forall id :: FirstKept(seeded, id) <= Generation(s, id) + 1
    ensures HistorySpans(seeded, s')
    ensures forall id :: FirstKept(seeded, id) <= Generation(s', id) + 1
  {
    hide AdoptsOne;
    if !AdoptsNothing(s, s') {
      var id, row :| AdoptsOne(cfg, s, s', id, row);
      SpansAdopted(cfg, seeded, s, s', id, row);
    }
  }

  lemma SpansAdopted(cfg: Config, seeded: Store, s: Store, s': Store, id: Id, row: Adoption)
    requires HistorySpans(seeded, s) && AdoptsOne(cfg, s, s', id, row) && cfg.keepsHistory
    requires forall i :: FirstKept(seeded, i) <= Generation(s, i) + 1
    ensures HistorySpans(seeded, s')
    ensures forall i :: FirstKept(seeded, i) <= Generation(s', i) + 1
  {
    assert FirstKept(seeded, row.seriesId) <= row.generation;
  }

  lemma {:induction false} SpansRun(cfg: Config, seeded: Store, s: Store, events: seq<Event>)
    requires WellFormed(cfg) && Invariant(cfg, s) && cfg.keepsHistory && HistorySpans(seeded, s)
    requires forall id :: FirstKept(seeded, id) <= Generation(s, id) + 1
    ensures HistorySpans(seeded, Run(cfg, s, events))
    decreases |events|
  {
    hide Invariant, WellFormed, Dispatch, HistorySpans, StepShape, FirstKept, Generation;
    if events != [] {
      var t := Apply(cfg, s, events[0]).store;
      DispatchShape(cfg, s, events[0]);
      DispatchKeepsInvariant(cfg, s, events[0]);
      SpansStep(cfg, seeded, s, t);
      SpansRun(cfg, seeded, t, events[1..]);
    }
  }

  /** A store run without a history, seeded, and run on with one: at every later
      point it passes the check, and the history of each series is a contiguous
      interval that ends at its current generation. */
  lemma MigratedRuns(cfg: Config, cfg': Config, before: seq<Event>, after: seq<Event>)
    requires Migrates(cfg, cfg')
    ensures var s := Run(cfg, EMPTY, before);
            Seed(s).Ok?
            && var t := Run(cfg', Seed(s).value, after);
               PolicyGraphOk(t) && HistorySpans(s, t)
  {
    hide WellFormed, TablesOk, SavedOk, PolicyGraphOk;
    EmptyStoreOk(cfg);
    RunKeepsInvariant(cfg, EMPTY, before);
    var s := Run(cfg, EMPTY, before);
    SeedEstablishes(cfg, cfg', s);
    var s' := Seed(s).value;
    SeededSpans(cfg, s);
    RunKeepsInvariant(cfg', s', after);
    SpansRun(cfg', s, s', after);
    ReachableStorePasses(cfg', Run(cfg', s', after));
  }

  lemma SeededSpans(cfg: Config, s: Store)
    requires TablesOk(cfg, s)
    ensures HistorySpans(s, s.(history := CurrentRows(s)))
    ensures forall id :: FirstKept(s, id) <= Generation(s, id) + 1
  {
    hide EpochOk, HistoryRowsOk, HistoryEndsOk, IntervalOk, ValidationsOk, RowOk, ProposalOk;
    GenerationsPositive(cfg, s);
    assert forall id :: Generation(s.(history := CurrentRows(s)), id) == Generation(s, id);
  }
}
