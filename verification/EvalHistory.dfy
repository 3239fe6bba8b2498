/** The evaluation part of the history graph check, on the path where following
    generations and adopted contracts are accepted. */
module EvalHistory {
  import opened Common

  datatype Key = Key(seriesId: Id, generation: int)

  datatype EvalProposal = EvalProposal(seriesId: Id, generation: int, digest: Digest)

  /** A validation with the two references its payload repeats. */
  datatype EvalValidation = EvalValidation(
    proposalId: Id, proposalDigest: Digest, payloadProposalId: Id, payloadProposalDigest: Digest)

  /** A row of eval_current and of eval_adoptions. */
  datatype EvalRow = EvalRow(
    seriesId: Id, generation: int, proposalId: Id, validationId: Id, digest: Digest, payload: string)

  datatype Db = Db(
    proposals: map<Id, EvalProposal>,
    validations: map<Id, EvalValidation>,
    current: map<Id, EvalRow>,
    adoptions: map<Key, EvalRow>)

  /** The primary keys are columns of the rows. */
  ghost predicate Keyed(db: Db) {
    && (forall id :: id in db.current ==> db.current[id].seriesId == id)
    && (forall k :: k in db.adoptions ==> Key(db.adoptions[k].seriesId, db.adoptions[k].generation) == k)
  }

  predicate ValidationOk(db: Db, v: EvalValidation) {
    && v.proposalId in db.proposals
    && v.proposalDigest == db.proposals[v.proposalId].digest
    && v.payloadProposalId == v.proposalId
    && v.payloadProposalDigest == v.proposalDigest
  }

  predicate RowOk(db: Db, row: EvalRow) {
    && row.proposalId in db.proposals
    && row.validationId in db.validations
    && var p := db.proposals[row.proposalId];
    && var v := db.validations[row.validationId];
    && row.seriesId == p.seriesId
    && row.generation == p.generation
    && row.digest == p.digest
    && v.proposalId == row.proposalId
    && v.proposalDigest == p.digest
  }

  /** The current row is the history row of its generation. */
  predicate CurrentKept(db: Db, row: EvalRow) {
    var k := Key(row.seriesId, row.generation);
    k in db.adoptions && db.adoptions[k] == row
  }

  /** The neighbours one history row must have, branch by branch. */
  predicate NeighboursOk(db: Db, row: EvalRow) {
    if row.seriesId !in db.current then false
    else
      var current := db.current[row.seriesId];
      if row.generation > 1 && Key(row.seriesId, row.generation - 1) !in db.adoptions then false
      else if 1 <= row.generation < current.generation then Key(row.seriesId, row.generation + 1) in db.adoptions
      else row == current
  }

  ghost predicate Accepts(db: Db) {
    && (forall id :: id in db.validations ==> ValidationOk(db, db.validations[id]))
    && (forall id :: id in db.current ==> RowOk(db, db.current[id]) && CurrentKept(db, db.current[id]))
    && (forall k :: k in db.adoptions ==> RowOk(db, db.adoptions[k]) && NeighboursOk(db, db.adoptions[k]))
  }

  method VerifyEvalHistory(db: Db) returns (ok: bool)
    ensures ok <==> Accepts(db)
  {
    hide RowOk, NeighboursOk, ValidationOk, CurrentKept;
    var ids := db.validations.Keys;
    while ids != {}
      invariant ids <= db.validations.Keys
      invariant forall id :: id in db.validations && id !in ids ==> ValidationOk(db, db.validations[id])
      decreases |ids|
    {
      var id :| id in ids;
      if !ValidationOk(db, db.validations[id]) { return false; }
      ids := ids - {id};
    }
    ok := VerifyCurrent(db);
    if !ok { return; }
    ok := VerifyAdoptions(db);
  }

  method VerifyCurrent(db: Db) returns (ok: bool)
    ensures ok <==> forall id :: id in db.current ==> RowOk(db, db.current[id]) && CurrentKept(db, db.current[id])
  {
    hide RowOk, CurrentKept;
    var ids := db.current.Keys;
    while ids != {}
      invariant ids <= db.current.Keys
      invariant forall id :: id in db.current && id !in ids ==> RowOk(db, db.current[id]) && CurrentKept(db, db.current[id])
      decreases |ids|
    {
      var id :| id in ids;
      if !RowOk(db, db.current[id]) || !CurrentKept(db, db.current[id]) { return false; }
      ids := ids - {id};
    }
    return true;
  }

  method VerifyAdoptions(db: Db) returns (ok: bool)
    ensures ok <==> forall k :: k in db.adoptions ==> RowOk(db, db.adoptions[k]) && NeighboursOk(db, db.adoptions[k])
  {
    hide RowOk, NeighboursOk;
    var keys := db.adoptions.Keys;
    while keys != {}
      invariant keys <= db.adoptions.Keys
      invariant forall k :: k in db.adoptions && k !in keys ==> RowOk(db, db.adoptions[k]) && NeighboursOk(db, db.adoptions[k])
      decreases |keys|
    {
      var k :| k in keys;
      if !RowOk(db, db.adoptions[k]) || !NeighboursOk(db, db.adoptions[k]) { return false; }
      keys := keys - {k};
    }
    return true;
  }

  // ---------- what acceptance means ----------

  lemma AcceptedRow(db: Db, k: Key)
    requires Accepts(db) && k in db.adoptions
    ensures NeighboursOk(db, db.adoptions[k])
  {
    hide NeighboursOk, RowOk, ValidationOk, CurrentKept;
  }

  lemma AcceptedCurrent(db: Db, id: Id)
    requires Accepts(db) && id in db.current
    ensures CurrentKept(db, db.current[id])
  {
    hide NeighboursOk, RowOk, ValidationOk, CurrentKept;
  }

  /** Walking from a history row to its predecessors reaches every earlier one. */
  lemma {:induction false} DownTo(db: Db, id: Id, from: int, g: int)
    requires Keyed(db) && Accepts(db) && Key(id, from) in db.adoptions && 1 <= g <= from
    ensures Key(id, g) in db.adoptions
    decreases from - g
  {
    hide Accepts;
    AcceptedRow(db, Key(id, from));
    if g < from { DownTo(db, id, from - 1, g); }
  }

  /** The history of one series, stated without neighbours: generations 1..c and
      nothing else when the current generation c is at least 1, only the current
      row otherwise, and in both cases row c is the current row. */
  ghost predicate Gapless(db: Db, id: Id)
    requires id in db.current
  {
    var c := db.current[id].generation;
    && (forall g :: Key(id, g) in db.adoptions <==> g == c || 1 <= g <= c)
    && db.adoptions[Key(id, c)] == db.current[id]
  }

  lemma AcceptedIsGapless(db: Db, id: Id)
    requires Keyed(db) && Accepts(db) && id in db.current
    ensures Gapless(db, id)
  {
    hide Accepts;
    var c := db.current[id].generation;
    AcceptedCurrent(db, id);
    forall g ensures Key(id, g) in db.adoptions <==> g == c || 1 <= g <= c {
      if 1 <= g <= c { DownTo(db, id, c, g); }
      if Key(id, g) in db.adoptions { AcceptedRow(db, Key(id, g)); }
    }
  }

  lemma GaplessIsAccepted(db: Db, k: Key)
    requires Keyed(db) && k in db.adoptions && k.seriesId in db.current && Gapless(db, k.seriesId)
    ensures NeighboursOk(db, db.adoptions[k])
  {
    assert db.adoptions[k].seriesId == k.seriesId && db.adoptions[k].generation == k.generation;
  }

  /** The check accepts exactly the databases whose rows match their proposals
      and validations and whose histories have no gap and no stray row. */
  lemma AcceptsExactly(db: Db)
    requires Keyed(db)
    ensures Accepts(db) <==>
            && (forall id :: id in db.validations ==> ValidationOk(db, db.validations[id]))
            && (forall id :: id in db.current ==> RowOk(db, db.current[id]) && Gapless(db, id))
            && (forall k :: k in db.adoptions ==> RowOk(db, db.adoptions[k]) && k.seriesId in db.current)
  {
    hide RowOk, ValidationOk, Gapless, NeighboursOk, CurrentKept;
    if Accepts(db) {
      forall id | id in db.current ensures Gapless(db, id) { AcceptedIsGapless(db, id); }
      forall k | k in db.adoptions ensures k.seriesId in db.current { NeighboursHaveCurrent(db, k); }
    }
    if (forall id :: id in db.current ==> Gapless(db, id)) && (forall k :: k in db.adoptions ==> k.seriesId in db.current) {
      forall k | k in db.adoptions ensures NeighboursOk(db, db.adoptions[k]) { GaplessIsAccepted(db, k); }
      forall id | id in db.current ensures CurrentKept(db, db.current[id]) { GaplessKeepsCurrent(db, id); }
    }
  }

  lemma NeighboursHaveCurrent(db: Db, k: Key)
    requires Keyed(db) && k in db.adoptions && NeighboursOk(db, db.adoptions[k])
    ensures k.seriesId in db.current
  {
    assert db.adoptions[k].seriesId == k.seriesId;
  }

  lemma GaplessKeepsCurrent(db: Db, id: Id)
    requires Keyed(db) && id in db.current && Gapless(db, id)
    ensures CurrentKept(db, db.current[id])
  {
  }
}
