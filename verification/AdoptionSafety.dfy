/** Whole-run properties of the adoption authority. */
module AdoptionSafety {
  import opened Common
  import opened Adoption
  import opened AdoptionInvariant

  // ---------- revocation epochs ----------

  function EpochOf(r: Revocation): int { r.generation }

  /** The permission generation is the number of revocations, and their
      generations are exactly 1..n. */
  lemma EpochsExact(s: Store)
    requires EpochOk(s)
    ensures |s.revocations| == s.permissionGeneration
    ensures Image(s.revocations, EpochOf) == OneTo(s.permissionGeneration)
  {
    NumberedOneTo(s.revocations, EpochOf);
  }

  // ---------- what `valid` means ----------

  /** Nothing, actor or validation, was revoked after the validation was issued. */
  ghost predicate NoLaterRevocation(s: Store, v: Validation) {
    forall e :: e in s.revocations ==> s.revocations[e].generation <= v.permissionGeneration
  }

  lemma NoLaterRevocationExact(s: Store, v: Validation)
    requires EpochOk(s) && 0 <= v.permissionGeneration <= s.permissionGeneration
    ensures NoLaterRevocation(s, v) <==> v.permissionGeneration == s.permissionGeneration
  {
    if v.permissionGeneration < s.permissionGeneration {
      EpochsExact(s);
      assert s.permissionGeneration in Image(s.revocations, EpochOf);
    }
  }

  /** The verdict on an adopted row, in full: its 86400-second window is open
      and no revocation of any kind came after its validation. */
  lemma VerdictExact(cfg: Config, s: Store, row: Adoption, now: int)
    requires EpochOk(s) && ProposalsOk(cfg, s) && ValidationsOk(cfg, s) && RowOk(cfg, s, row)
    ensures var v := s.validations[row.validationId];
            StillValid(cfg, s, row, s.proposals[row.proposalId], now, true)
              == Ok(now < v.observedAt + 86400 && NoLaterRevocation(s, v))
  {
    hide EpochOk;
    var v := s.validations[row.validationId];
    assert ValidationOk(cfg, s, row.validationId, v);
    assert ProposalOk(cfg, s, s.proposals[row.proposalId]);
    NoLaterRevocationExact(s, v);
    EpochInRange(s);
  }

  lemma EpochInRange(s: Store)
    requires EpochOk(s)
    ensures IsUint(s.permissionGeneration)
    ensures forall e :: e in s.revocations ==> 1 <= s.revocations[e].generation <= s.permissionGeneration
  {
  }

  lemma StoredPolicyReads(cfg: Config, s: Store, row: Adoption)
    requires ProposalsOk(cfg, s) && RowOk(cfg, s, row)
    ensures StoredPolicy(cfg, row.policy, row.policyDigest) == Ok(row.policy)
    ensures ProfileMatches(cfg, s.proposals[row.proposalId].validatorDigest)
    ensures s.proposals[row.proposalId].bootstrapDigest == cfg.bootstrapDigest
    ensures 1 <= row.generation
  {
    assert ProposalOk(cfg, s, s.proposals[row.proposalId]);
  }

  /** The view both reads give of a well linked row. */
  function ViewOf(s: Store, row: Adoption, valid: bool): PolicyView {
    AdoptedView(row.seriesId, row.generation, valid, row.policy, row.proposalId, row.validationId,
                row.policyDigest, row.adoptedAt)
  }

  lemma CurrentReads(cfg: Config, s: Store, seriesId: Id, now: int)
    requires TablesOk(cfg, s) && seriesId in s.current
    ensures var row := s.current[seriesId];
            row.validationId in s.validations && row.proposalId in s.proposals
            && StillValid(cfg, s, row, s.proposals[row.proposalId], now, true).Ok?
            && CurrentPolicy(cfg, s, seriesId, now)
               == Ok(ViewOf(s, row, StillValid(cfg, s, row, s.proposals[row.proposalId], now, true).value))
  {
    hide HistoryRowsOk, HistoryEndsOk, IntervalOk, StillValid, EpochOk;
    var row := s.current[seriesId];
    assert RowOk(cfg, s, row);
    VerdictExact(cfg, s, row, now);
    StoredPolicyReads(cfg, s, row);
    assert ValidationOk(cfg, s, row.validationId, s.validations[row.validationId]);
    EpochInRange(s);
  }

  lemma HistoryReads(cfg: Config, s: Store, k: Key, now: int)
    requires TablesOk(cfg, s) && k in s.history
    ensures var row := s.history[k];
            row.validationId in s.validations && row.proposalId in s.proposals
            && StillValid(cfg, s, row, s.proposals[row.proposalId], now, true).Ok?
            && PolicyAt(cfg, s, k.seriesId, k.generation, now)
               == Ok(ViewOf(s, row, StillValid(cfg, s, row, s.proposals[row.proposalId], now, true).value))
  {
    hide CurrentOk, HistoryEndsOk, IntervalOk, StillValid, EpochOk;
    var row := s.history[k];
    assert RowOk(cfg, s, row);
    VerdictExact(cfg, s, row, now);
    StoredPolicyReads(cfg, s, row);
    assert ValidationOk(cfg, s, row.validationId, s.validations[row.validationId]);
    assert ProposalOk(cfg, s, s.proposals[row.proposalId]);
  }

  /** Reading the current generation from the history and from the current row
      gives the very same view, in every reachable store and at every time. */
  lemma ReadsAgree(cfg: Config, s: Store, seriesId: Id, now: int)
    requires TablesOk(cfg, s) && cfg.keepsHistory
    ensures PolicyAt(cfg, s, seriesId, Generation(s, seriesId), now) == CurrentPolicy(cfg, s, seriesId, now)
    ensures CurrentPolicy(cfg, s, seriesId, now).Ok?
  {
    hide EpochOk, ProposalsOk, ValidationsOk, CurrentOk, HistoryRowsOk, IntervalOk, PolicyAt;
    if seriesId in s.current {
      var k := Key(seriesId, s.current[seriesId].generation);
      assert k in s.history && s.history[k] == s.current[seriesId];
      CurrentReads(cfg, s, seriesId, now);
      HistoryReads(cfg, s, k, now);
    } else {
      assert PolicyAt(cfg, s, seriesId, 0, now) == Ok(Unadopted(seriesId, 0)) by { NoRowReads(cfg, s, seriesId, now); }
    }
  }

  /** The verdict of a history read, in full. */
  lemma ValidExact(cfg: Config, s: Store, k: Key, now: int)
    requires TablesOk(cfg, s) && k in s.history && s.history[k].validationId in s.validations
    ensures PolicyAt(cfg, s, k.seriesId, k.generation, now).Ok?
    ensures var v := s.validations[s.history[k].validationId];
            (now < v.observedAt + 86400 && NoLaterRevocation(s, v))
            <==> Valid(PolicyAt(cfg, s, k.seriesId, k.generation, now).value)
  {
    hide EpochOk, ProposalsOk, ValidationsOk, CurrentOk, HistoryEndsOk, IntervalOk, RowOk, PolicyAt, StillValid, NoLaterRevocation;
    HistoryReads(cfg, s, k, now);
    VerdictExact(cfg, s, s.history[k], now);
  }

  lemma NoRowReads(cfg: Config, s: Store, seriesId: Id, now: int)
    requires HistoryEndsOk(cfg, s) && cfg.keepsHistory && seriesId !in s.current
    ensures PolicyAt(cfg, s, seriesId, 0, now) == Ok(Unadopted(seriesId, 0))
  {
    if Key(seriesId, 0) in s.history { assert false; }
  }

  // ---------- validity is never regained ----------

  lemma VerdictOnlyFalls(cfg: Config, s: Store, s': Store, row: Adoption, now: int, now': int)
    requires TablesOk(cfg, s) && TablesOk(cfg, s') && Extends(s, s') && RowOk(cfg, s, row) && now <= now'
    ensures row.proposalId in s'.proposals && row.validationId in s'.validations
    ensures StillValid(cfg, s', row, s'.proposals[row.proposalId], now', true) == Ok(true)
            ==> StillValid(cfg, s, row, s.proposals[row.proposalId], now, true) == Ok(true)
  {
    hide CurrentOk, HistoryRowsOk, HistoryEndsOk, IntervalOk, ProposalsOk, StillValid, RowOk, EpochOk;
    RowKept(cfg, s, s', row);
    RowNames(cfg, s, row);
    RowNames(cfg, s', row);
    VerdictExact(cfg, s, row, now);
    VerdictExact(cfg, s', row, now');
  }

  lemma RowNames(cfg: Config, s: Store, row: Adoption)
    requires RowOk(cfg, s, row)
    ensures row.proposalId in s.proposals && row.validationId in s.validations
  {
  }

  /** Once a generation of a series is reported not valid, it is not valid at
      any later state and time, whatever is dispatched in between. */
  lemma NeverRegained(cfg: Config, s: Store, events: seq<Event>, k: Key, now: int, now': int)
    requires WellFormed(cfg) && Invariant(cfg, s) && k in s.history && now <= now'
    requires PolicyAt(cfg, s, k.seriesId, k.generation, now).Ok?
    requires !Valid(PolicyAt(cfg, s, k.seriesId, k.generation, now).value)
    ensures PolicyAt(cfg, Run(cfg, s, events), k.seriesId, k.generation, now').Ok?
    ensures !Valid(PolicyAt(cfg, Run(cfg, s, events), k.seriesId, k.generation, now').value)
  {
    hide TablesOk, StillValid, PolicyAt;
    RunKeepsInvariant(cfg, s, events);
    var s' := Run(cfg, s, events);
    assert k in s'.history && s'.history[k] == s.history[k];
    assert RowOk(cfg, s, s.history[k]) by { HistoryRow(cfg, s, k); }
    VerdictOnlyFalls(cfg, s, s', s.history[k], now, now');
    HistoryReads(cfg, s, k, now);
    HistoryReads(cfg, s', k, now');
  }

  lemma HistoryRow(cfg: Config, s: Store, k: Key)
    requires TablesOk(cfg, s) && k in s.history
    ensures RowOk(cfg, s, s.history[k])
  {
  }

  /** The answer of a `current` dispatch, and the clock it was taken at. */
  ghost predicate Reports(cfg: Config, s: Store, e: Event, view: PolicyView) {
    && Apply(cfg, s, e).outcome.Ok?
    && e.request.CurrentRequest?
    && Apply(cfg, s, e).outcome == Ok(CurrentView(e.request.requestId, view))
  }

  lemma ReportReads(cfg: Config, s: Store, e: Event, view: PolicyView)
    requires WellFormed(cfg) && Invariant(cfg, s) && Reports(cfg, s, e, view)
    ensures e.env.clock.Some? && s.lastClock <= e.env.clock.value == Apply(cfg, s, e).store.lastClock
    ensures CurrentPolicy(cfg, s, e.request.seriesId, e.env.clock.value) == Ok(view)
    ensures Apply(cfg, s, e).store.current == s.current
  {
    hide TablesOk, CurrentPolicy, StillValid, WellFormed;
    var (actor, r) := Admit(cfg, e.peer, e.request).value;
    assert r == e.request;
    assert Transact(cfg, s, r, actor, e.env).Ok?;
    MarkerReplay(cfg, s, r, actor);
    ClockIrrelevant(cfg, s, e.env.clock.value, r.seriesId, e.env.clock.value);
  }

  /** A saved row that answers a `current` request is a marker. */
  lemma MarkerReplay(cfg: Config, s: Store, r: Request, actor: Actor)
    requires SavedOk(cfg, s) && Uncached(cfg, r)
    ensures ReplayOf(cfg, s, r.requestId, cfg.hash(RequestDoc(r)), actor, ContextOf(actor)).Ok?
            ==> !ReplayOf(cfg, s, r.requestId, cfg.hash(RequestDoc(r)), actor, ContextOf(actor)).value.Stored?
  {
    if r.requestId in s.idempotency {
      assert SavedRequestOk(cfg, r.requestId, s.idempotency[r.requestId]);
    }
  }

  lemma ClockIrrelevant(cfg: Config, s: Store, c: int, seriesId: Id, now: int)
    ensures CurrentPolicy(cfg, s.(lastClock := c), seriesId, now) == CurrentPolicy(cfg, s, seriesId, now)
  {
  }

  /** The same at the interface: of two `current` answers about the same
      generation of a series, a later one is valid only if the earlier one was. */
  lemma ReportsNeverRegain(cfg: Config, s: Store, e: Event, events: seq<Event>, e': Event,
                           view: PolicyView, view': PolicyView)
    requires WellFormed(cfg) && Invariant(cfg, s)
    requires Reports(cfg, s, e, view)
    requires Reports(cfg, Run(cfg, Apply(cfg, s, e).store, events), e', view')
    requires e'.request.seriesId == e.request.seriesId && view'.generation == view.generation
    ensures Valid(view') ==> Valid(view)
  {
    hide TablesOk, CurrentPolicy, StillValid, Run, Dispatch, SavedOk;
    var t := Apply(cfg, s, e).store;
    var u := Run(cfg, t, events);
    DispatchKeepsInvariant(cfg, s, e);
    RunKeepsInvariant(cfg, t, events);
    ReportReads(cfg, s, e, view);
    ReportReads(cfg, u, e', view');
    ExtendsTransitive(s, t, u);
    if Valid(view') {
      SameGenerationSameRow(cfg, s, u, e.request.seriesId, view, view', e.env.clock.value, e'.env.clock.value);
      CurrentRow(cfg, s, e.request.seriesId);
      VerdictOnlyFalls(cfg, s, u, s.current[e.request.seriesId], e.env.clock.value, e'.env.clock.value);
      CurrentReads(cfg, s, e.request.seriesId, e.env.clock.value);
      CurrentReads(cfg, u, e.request.seriesId, e'.env.clock.value);
    }
  }

  lemma CurrentRow(cfg: Config, s: Store, seriesId: Id)
    requires TablesOk(cfg, s) && seriesId in s.current
    ensures RowOk(cfg, s, s.current[seriesId])
  {
  }

  lemma SameGenerationSameRow(cfg: Config, s: Store, u: Store, seriesId: Id, view: PolicyView, view': PolicyView,
                              now: int, now': int)
    requires TablesOk(cfg, s) && TablesOk(cfg, u) && Extends(s, u)
    requires CurrentPolicy(cfg, s, seriesId, now) == Ok(view)
    requires CurrentPolicy(cfg, u, seriesId, now') == Ok(view')
    requires view'.generation == view.generation && view'.AdoptedView?
    ensures seriesId in s.current && seriesId in u.current && u.current[seriesId] == s.current[seriesId]
  {
    hide TablesOk, StillValid;
    if seriesId in u.current {
      CurrentReads(cfg, u, seriesId, now');
      PositiveGeneration(cfg, u, seriesId);
    }
    if seriesId in s.current { CurrentReads(cfg, s, seriesId, now); }
  }

  lemma PositiveGeneration(cfg: Config, s: Store, seriesId: Id)
    requires TablesOk(cfg, s) && seriesId in s.current
    ensures s.current[seriesId].generation >= 1
  {
    GenerationsPositive(cfg, s);
  }
}
