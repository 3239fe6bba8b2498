# Verified model of the evaluation authority

This project models the parts of the repository that carry state across
requests, retries and crashes, and proves what they guarantee over whole runs.
It is plain Dafny 4.11; `dafny verify dfyconfig.toml` checks all of it.

## What is modelled

**Attempt aggregation** (`src/gah/aggregation.py`). Attempt records arrive in any
order, duplicated, conflicting or retried. `AggregationSpec` says what an
aggregation is without its loops: the fold of the deliveries, the accepted
records of a planned stage, retry chains, the one definitive record a stage
rests on, which trials can be scored, the 27 counters of the six groupings,
the issues and the five flags. `AggregationLoops`, `AggregationSelection`,
`AggregationTrials`, `AggregationCounts` and `AggregationRun` are the loops of
`_aggregate_validated`; `AggregationRun.Aggregate` is proved to produce exactly
what the specification says. `AggregationLaws`, `VerdictLaws` and `ComparisonLaws`
prove the laws of that specification. `CountLaws`, `FlagLaws`, `IssueLaws` and `Metrics` say
what each counter, flag, issue and metric means without the definitions they are computed
with: a counter is the number of stages, attempts or trials of a plain description, a flag
is read off the counts, and a metric is a share of scored trials.

**Policy adoption authority** (`src/gah/adoption.py`). `Adoption` gives every
method as a transition on a value of the tables, `AdoptionStore` is the class
that updates the tables in place and rolls back on error, and is proved equal to
the transitions. `AdoptionInvariant` holds the inductive invariant,
`AdoptionSafety` and `AdoptionAudit` what follows for whole runs, and `AdoptionEffects` what
each request does when it is first answered and what every later request then gets. `SetupDriver`,
`SetupClient`, `SetupProgress` and `SetupRecovery` connect it to the checkpointed
client of `tools/setup_apply.py`; `AdoptionMigration` and `EvalHistory` to the history
checks and the seeding step of `src/gah/adoption_migrations.py`.

**Budgeted scheduler** (`tools/verify_synthetic_llm.py`). `ChildOutput` is the
reader of one child's output, `Scheduler` the supervised loop together with the
state machine it refines, `RunSummary` the summary. Completion order, the looks at the
deadline, raising calls and child behaviour are arbitrary.

**Smaller state machines.** `Artifacts`, `ArtifactLaws`, `ArtifactEffects` and
`ArtifactStore` (`src/gah/artifacts.py`); `Ownership` and `AuthorityRuntime`
(`tools/authority_runtime.py`); `Framing` (`src/gah/authority.py`);
`HistoryMerge` (`tools/ci_history.py`).

### One property that does not hold

Deployment names are meant to be written to `deployment.json` before their
container exists. Two things go wrong.

`_create` skips the save when the name is already in memory, and the name stays
in memory when the save before it failed. A `prepare` whose save fails and a
second `prepare` leave a running broker that no file names:
`Ownership.UnrecordedBroker`. `Ownership.CreationSafeExactly` gives the exact
condition under which a creation is safe whatever its save and its docker
command do: the name is new to the instance, or it is in the file. Client names
are fresh, so only the broker can be affected.

A save reads the file, merges it and writes the union, and is no
compare-and-swap: of two overlapping saves the later write takes back the names
of the earlier one (`Ownership.OverlapLosesExactly`), and a container can go
unrecorded (`Ownership.UnrecordedClient`). The source leaves it to its callers
to keep saves apart, and the model states what follows from that: no name is ever
lost (`Ownership.RecordedNeverLost`), and without failed saves every live
container is recorded at every point (`Ownership.RecordedWithoutFailedSaves`).

### Assumptions

- Digests are injective, and a digest of a document determines it.
- `canonical_bytes` and `decode_document` are inverse on valid documents;
  validators are deterministic and accept their own canonical form.
- Only one runtime object of a deployment is in use at a time: the tools hold the
  deployment's `operation_lock` around it. One thread at a time creates and saves
  with it: the object's own mutex does that for the clients it reuses, its callers
  do otherwise. The ownership results that need this
  say so in a `requires` on the writes; `Ownership.LockedRunsExclude` derives it.
- A SQLite transaction is all-or-nothing, a bounded file write is atomic, and a
  checkpoint entry is written once.
- Clocks, deadlines, completion order, which calls of a child raise, segmentation of a
  stream, docker commands and extension answers are arbitrary inputs.
- A bound plan gives each entry exactly the stages of its case, with the scored
  stage among them, and names each (variant, obligation, case, trial) once.
- Case ids of one scheduled run are distinct.
- Issues are kept as a set. The issue for several definitive results names the
  first of them in delivery order, so that one issue depends on the order of
  delivery; counts, metrics and flags do not.

## Model

| member | source | states |
|---|---|---|
| AggregationRun.Aggregate | src/gah/aggregation.py:256-733 | An aggregation succeeds exactly when the profile fits the plan, there are at most 20000 attempts and each is valid; its counts, issues and five flags are the ones the loop-free specification gives the delivered records |
| AggregationLoops.FoldDeliveries | src/gah/aggregation.py:265-282 | De-duplication keeps the first record of each id, counts identical copies, and collects every conflicting content; it fails at the first invalid record |
| AggregationLoops.CollectLogical | src/gah/aggregation.py:308-346 | Per planned stage the accepted records in delivery order, and one issue for every record that is out of the run window, unplanned or bound elsewhere |
| AggregationLoops.PlanKeys | src/gah/aggregation.py:300-307 | Every planned (variant, obligation, case, trial, stage) key belongs to exactly one plan entry |
| AggregationLoops.FindResultIssues | src/gah/aggregation.py:284-290 | Exactly the completed records without a result and the failed ones with a usable result are reported |
| AggregationSelection.CheckRetry | src/gah/aggregation.py:363-377 | A retry is accepted only after one stopped failure or timeout of the same stage and owner epoch that is no retry itself, finished before it, and is retried by no other delivered record |
| AggregationSelection.SelectStage | src/gah/aggregation.py:378-398 | A stage selects its one definitive record unless an unrelated attempt exists; several definitive records are a conflict, with the issue named after the first delivered |
| AggregationSelection.SelectAll | src/gah/aggregation.py:348-398 | After the loop every stage has its choice, its conflict mark and its issues, and no other |
| AggregationTrials.FindViolations | src/gah/aggregation.py:433-457 | The two violation flags hold exactly when some record in conflict violates a forbidden policy, looked up by the record's own binding |
| AggregationTrials.OrderTrials | src/gah/aggregation.py:475-493 | Scorable are exactly the complete trials whose stages start after the previous one finished; every disorder is an issue |
| AggregationTrials.CompleteTrials | src/gah/aggregation.py:458-474 | Exactly the trials with a settling selected record for each stage are complete |
| AggregationTrials.TroubledTrial | src/gah/aggregation.py:418-428 | Comparing four key fields finds exactly the trials with an unrecovered fault or error |
| AggregationCounts.Tally.CountSelected | src/gah/aggregation.py:543-610 | The increments of a selected record, in all six buckets and no other, add up to the specified delta of each counter |
| AggregationCounts.Tally.CountBase | src/gah/aggregation.py:513-526 | The increments every planned stage makes first: planned, unrecovered mutation, deliveries, retries, faults |
| AggregationCounts.Tally.CountUnselected | src/gah/aggregation.py:528-542 | A stage without a selected record adds to exactly one of conflict, error, missing |
| AggregationRun.JudgeStage | src/gah/aggregation.py:537-609 | One stage raises each of the four flags exactly when it is required and unsettled, critical, or an open violation |
| AggregationRun.ReportedIs | src/gah/aggregation.py:265-493 | The issues the separate loops raise are together exactly the reported ones |
| DeliveryLaws.FoldIs | src/gah/aggregation.py:269-282 | What the fold means without its loop: conflicted ids, conflicting records, issues, and deliveries as multiplicities |
| AggregationLaws.ChoiceSound | src/gah/aggregation.py:360-398 | A selected record has the stage's key, is definitive, and carries a valid result in the mode of its obligation |
| AggregationLaws.BucketConserved | src/gah/aggregation.py:511-545 | In every bucket planned equals the number of planned stages and is the sum of complete, missing, error and conflict |
| AggregationLaws.RollUpsAgree | src/gah/aggregation.py:496-512 | For each counter the variant total is the sum over controls, over categories, over obligations, and over both crossed groupings |
| AggregationLaws.TrialScoredOnce | src/gah/aggregation.py:550-608 | A trial adds to at most one of tp, fp, tn, fn and to at most one of killed, survived, no coverage, mutation error |
| AggregationLaws.AsrBounded | src/gah/aggregation.py:571-598 | In every bucket asr_deviation is at most asr_positive, and that at most tp + fn |
| VerdictLaws.ScoresMean | src/gah/aggregation.py:562-608 | Every tp, fp, tn, fn, asr, killed, survived and no-coverage counter of every bucket is the number of its scorable trials whose scored stage came out that way |
| CountLaws.ValidExactly | src/gah/aggregation.py:100-185 | Which records are taken in, field by field: times in order, an owner, no retry of itself, and in a result just the fields its mode gives a meaning to |
| CountLaws.FitsExactly | src/gah/execution_profiles.py:40-48 | A profile fits a plan exactly when it has one runner, or was made for the environment and has runners for exactly the planned targets and evaluators |
| CountLaws.TakesPartExactly | src/gah/aggregation.py:308-346 | A record counts at a planned stage exactly when its id has one content and it ran in the window, is bound to this plan, and reports on itself in the mode of the obligation |
| CountLaws.ChosenExactly | src/gah/aggregation.py:348-398 | A stage rests on a record exactly when that is its only conclusive attempt, of its own or the only retry of a stopped failure, and every other attempt is the one it retries or a retry of it |
| CountLaws.BucketExactly | src/gah/aggregation.py:496-512 | Which planned stages each of the six groupings puts in a bucket |
| CountLaws.StagesMean | src/gah/aggregation.py:511-598 | In every bucket planned, complete, conflict, error, missing, indeterminate, detection and deviation missing, constraint pass, fail and unknown, and forbidden are each the number of planned stages that came to it; forbidden means a forbidding obligation or stage and a failed constraint or a deviation |
| CountLaws.AttemptsMean | src/gah/aggregation.py:517-519 | attempts is the number of deliveries of the records that count in the bucket |
| CountLaws.KindsMean | src/gah/aggregation.py:520-526 | retry_count and fault_count are numbers of these records, however often they were delivered |
| CountLaws.DeliveriesAdd | src/gah/aggregation.py:543-548 | delivery_count is complete plus duplicate_deliveries in every bucket |
| CountLaws.ScorableExactly | src/gah/aggregation.py:458-494 | A trial is scored exactly when every stage rests on a result that decides it and none started before the last one had finished |
| CountLaws.MutationErrorsMean | src/gah/aggregation.py:513-516 | mutation_error is the number of mutation trials that could not be scored and had a failed attempt |
| FlagLaws.FlagsMean | src/gah/aggregation.py:429-627 | The five flags of a finished aggregation, read off its own counts and issues and the contradictory records |
| FlagLaws.OpenExactly | src/gah/aggregation.py:564-597 | Some stage openly violates a policy exactly when the forbidden counters of the two variants are not both zero |
| FlagLaws.ForbiddenExactly | src/gah/aggregation.py:433-457 | A forbidden violation is flagged exactly for such a stage, or a contradictory record with a failed constraint or a deviation under its own forbidding policy |
| FlagLaws.CriticalExactly | src/gah/aggregation.py:564-597 | A critical violation, exactly for a forbidden or failed-constraint count of an obligation of a critical control, or such a contradictory record |
| FlagLaws.RequiredExactly | src/gah/aggregation.py:537-618 | Required evidence is missing exactly when a required obligation counts an incomplete stage or an open verdict, or an issue blocks |
| FlagLaws.CriticalMissingExactly | src/gah/aggregation.py:537-623 | The same for critical controls, where only a disorder of stages blocks |
| IssueLaws.RejectsExactly | src/gah/aggregation.py:308-346 | Which one of five reasons rejects a record |
| IssueLaws.IssuesExactly | src/gah/aggregation.py:265-493 | Every reported issue, code by code, from the deliveries and the plan |
| VerdictLaws.RequiredTrialsScorable | src/gah/aggregation.py:458-494 | If nothing required is missing, every trial of a required obligation is scorable |
| VerdictLaws.FixedConfusion | src/gah/aggregation.py:549-618 | If nothing required is missing, tp + fn and fp + tn of a required LLM obligation are the planned numbers of positive and negative trials |
| VerdictLaws.FixedMutation | src/gah/aggregation.py:549-618 | Likewise killed + survived + no coverage is the number of planned mutation trials, with no mutation error |
| Metrics.DenominatorsArePlanned | src/gah/aggregation.py:671-687 | The denominators of recall, fnr, fpr and the mutation score are then the numbers of trials the plan holds |
| Metrics.MetricMeans | src/gah/aggregation.py:671-702 | A metric is the share of detected or missed positives, detected negatives, deviating positives or killed mutants among the scored trials it measures, and has a baseline exactly where the baseline measures some and it is not the miss rate |
| Metrics.MetricIsProportion | src/gah/aggregation.py:671-702 | Every metric has numerator at most denominator, and a baseline is only compared with a non-zero denominator |
| Metrics.MetricsIgnoreOrder | src/gah/aggregation.py:688-702 | Without conflicting contents no metric depends on the order of delivery |
| Metrics.MetricsIgnoreRedelivery | src/gah/aggregation.py:688-702 | No metric changes when a delivered record is delivered again |
| ComparisonLaws.OrderIsIrrelevant | src/gah/aggregation.py:256-733 | If no attempt id carries two contents, every permutation gives the same counts and the same five flags |
| ComparisonLaws.RedeliveryCountsOnly | src/gah/aggregation.py:269-282 | A redelivered record changes no fact, no issue and no flag; attempts, delivery_count and duplicate_deliveries of a bucket rise by the number of its stages that count the attempt, and no other counter changes |
| ComparisonLaws.RedeliveryCountsOnce | src/gah/aggregation.py:513-548 | These counters rise by exactly one in the six buckets of the one stage that accepted (attempts) or selected (the other two) the attempt, for an identical copy, and otherwise not at all |
| ComparisonLaws.ViolationNotWashedOut | src/gah/aggregation.py:433-457 | Whatever attempts are appended, a forbidden violation stays reported or the aggregation has an integrity failure |
| ComparisonLaws.CriticalNotWashedOut | src/gah/aggregation.py:433-457 | The same for a critical violation, failed constraints on critical controls included |
| ComparisonLaws.CleanChain | src/gah/aggregation.py:360-398 | Without any issue every completed stage rests on one attempt, or on exactly one stopped failure and its one later retry in the same owner epoch |
| AdoptionInvariant.DispatchKeepsInvariant | src/gah/adoption.py:529-638 | One dispatch by any peer at any clock keeps the invariant over all tables and only extends them |
| AdoptionInvariant.RunKeepsInvariant | src/gah/adoption.py:529-638 | So does every sequence of dispatches |
| AdoptionStore.AdoptionStore.HandleRequest | src/gah/adoption.py:529-638 | The in-place transaction ends in exactly the store and answer of the transition, and in the old store on any error |
| AdoptionStore.AdoptionStore.AdoptProposal | src/gah/adoption.py:709-784 | Every check in the source's order on the tables in place (generation compare-and-swap, two-person check, staleness, revocation, epoch, expiry), then the row and the history insert, with the transition's outcome |
| AdoptionStore.AdoptionStore.RevokeEntity | src/gah/adoption.py:927-956 | A revocation bumps the permission generation and records the entity under it |
| AdoptionSafety.EpochsExact | src/gah/adoption.py:927-956 | The permission generation is the number of revocations and their generations are exactly 1..n |
| AdoptionSafety.VerdictExact | src/gah/adoption.py:786-834 | An adopted row is valid exactly while its 86400-second window is open and nothing at all was revoked after its validation |
| AdoptionSafety.ValidExact | src/gah/adoption.py:836-900 | The same verdict for a read of any generation from the history |
| AdoptionSafety.ReadsAgree | src/gah/adoption.py:786-900 | Reading the current generation from the history gives the same view as reading the current row, in every reachable store at every time |
| AdoptionSafety.NeverRegained | src/gah/adoption.py:836-900 | Once a generation is reported not valid it is not valid in any later store and at any later time |
| AdoptionSafety.ReportsNeverRegain | src/gah/adoption.py:786-834 | Of two `current` answers about one generation, the later is valid only if the earlier was |
| AdoptionAudit.AdoptsExactly | src/gah/adoption.py:709-784 | In a reachable store an adoption succeeds exactly when its proposal is for the next generation and was validated in this form less than 86400 seconds ago, with nothing revoked since and the validator unchanged |
| AdoptionAudit.CorruptExactly | src/gah/adoption.py:529-638 | A dispatch reports corruption exactly when a receipt names a response-less marker or the extension itself says so |
| AdoptionAudit.RevokedActorLockedOut | src/gah/adoption.py:567-569 | After its revocation every dispatch of an actor fails and changes nothing, replays included |
| AdoptionAudit.AdoptionsFreeze | src/gah/adoption.py:709-784 | After the manager or the validator is revoked no current row and no history row changes again |
| AdoptionAudit.RevocationsFreeze | src/gah/adoption.py:927-956 | After the operator is revoked the revocations and the permission generation are final |
| AdoptionAudit.RedeliveryReplays | src/gah/adoption.py:494-514 | An answered request sent again at any later point gets the first answer and changes nothing, unless its actor was revoked |
| AdoptionAudit.OtherContentRefused | src/gah/adoption.py:494-514 | Once a request was answered, at any later point of a run any other content or actor under its id gets its own admission error, a revocation or a conflict, and changes nothing |
| AdoptionAudit.AuditBijection | src/gah/adoption.py:709-784 | From an empty store: history generations are exactly 1..current, saved adopt answers and history rows correspond one to one field by field, and nothing is adopted twice |
| AdoptionEffects.AdmitsExactly | src/gah/adoption.py:529-557 | Which user may send which request, and which requests reach the tables |
| AdoptionEffects.AnsweredExactly | src/gah/adoption.py:567-638 | A new request is answered exactly when it is admitted, its sender is not revoked, the clock has not run back, its own work succeeds and a stored answer fits |
| AdoptionEffects.ProposesExactly | src/gah/adoption.py:640-660 | A proposal succeeds exactly for the generation its series is at and, under a known id, for the same content |
| AdoptionEffects.ProposeEffect | src/gah/adoption.py:640-660 | It writes exactly its row, with the clock and today's digests, and answers it |
| AdoptionEffects.ValidatesExactly | src/gah/adoption.py:662-707 | A validation succeeds exactly for a proposal made under today's validator and, under a known id, for the same proposal |
| AdoptionEffects.ValidateEffect | src/gah/adoption.py:662-707 | It writes exactly its row, with a window of 86400 seconds and the permission generation, and answers it |
| AdoptionEffects.AdoptEffect | src/gah/adoption.py:709-784 | An answered adoption puts the proposal's policy at the next generation of its series, in the current and the history row, changes nothing else, and answers all of it |
| AdoptionEffects.RevokeActorEffect | src/gah/adoption.py:927-941 | An answered revocation of an actor revokes exactly this actor, under the next permission generation and at the clock read, and answers with these |
| AdoptionEffects.RevokeValidationEffect | src/gah/adoption.py:943-955 | Likewise for a validation |
| AdoptionEffects.RevokesExactly | src/gah/adoption.py:927-955 | A revocation succeeds exactly for a known name or a stored validation that is not revoked yet, while generations are left |
| AdoptionEffects.RevokedForGood | src/gah/adoption.py:927-941 | After the revocation was answered, at any later point of a run every dispatch of the target fails; for the manager or validator nothing is adopted again, for the operator nothing is revoked again |
| AdoptionEffects.RevocationEndsValidity | src/gah/adoption.py:927-955 | After any answered revocation no generation adopted before is ever valid again |
| AdoptionEffects.ReadEffect | src/gah/adoption.py:786-925 | A read, a receipt and an extension write nothing but the clock and the request's own row |
| AdoptionEffects.CurrentAnswers | src/gah/adoption.py:786-834 | A `current` request gets the current row, valid exactly while its window is open and nothing was revoked since its validation |
| AdoptionEffects.CurrentReportsAdoption | src/gah/adoption.py:709-834 | After an adoption, a later read that still finds its generation reports exactly the policy, ids and time adopted |
| AdoptionEffects.ReceiptExactly | src/gah/adoption.py:902-925 | A receipt is given exactly for an answered adoption |
| AdoptionEffects.ReceiptReturns | src/gah/adoption.py:902-925 | At any later point of a run a receipt for an adoption holds exactly its first answer |
| SetupDriver.WrongAnswerDropped | tools/setup_apply.py:58-66 | An answer to another request or of another kind is never saved |
| SetupDriver.ExactlyOnce | tools/setup_apply.py:46-86 | With crashes at any point, any number of re-runs, and late or repeated deliveries of the client's own requests, each step changes the authority at most once, saved answers are the authority's own, and the series stays where it was or moves from the plan's generation g to exactly g + 1, as it has whenever the client returned |
| SetupDriver.OneAnswerPerStep | tools/setup_apply.py:51-67 | All answers a step ever gets are the first one issued |
| SetupDriver.HappensKeep | tools/setup_apply.py:46-86 | Store, checkpoint and client agree after every sequence of sends, late deliveries, crashes and foreign dispatches |
| SetupClient.Steps.Call | tools/setup_apply.py:51-67 | One keyed call, wherever it dies, is a sequence of the modelled happenings |
| SetupClient.Steps.AdoptPolicy | tools/setup_apply.py:74-86 | A run of propose, validate, adopt is such a sequence and returns only as `Done`; without a fault it is the undisturbed run of the recovery results |
| SetupProgress.RunsInOrder | tools/setup_apply.py:51-86 | Whatever crashes and arrives late, no step is answered, sent or reached before the one before it was answered |
| SetupProgress.StepGoesOn | tools/setup_apply.py:51-67 | An undisturbed keyed call comes through, whether its answer was saved, given but not saved, or not given yet, and leaves the conditions for the next one |
| SetupRecovery.WayKept | tools/setup_apply.py:51-86 | Neither the client's own dispatches nor harmless ones of others make the plan's adoption impossible |
| SetupRecovery.RerunAdopts | tools/setup_apply.py:74-86 | From whatever earlier runs left, an undisturbed run returns the adoption of generation g + 1 and the series stands there, given actors not revoked, the plan's start still open, the clock inside the window, and the documents still to be written within the size limit |
| SetupRecovery.CleanRunAdopts | tools/setup_apply.py:74-86 | In particular the first run |
| SetupRecovery.FirstAdoption | tools/setup_apply.py:74-86 | From an empty authority: seven documents that fit and a monotone clock inside the window suffice |
| SetupRecovery.CrashedRunRecovers | tools/setup_apply.py:74-86 | After any crashes and late deliveries at any points, with nothing revoked and nobody else adopting into the series or using the plan's ids, the next undisturbed run returns the adoption, given a clock that neither runs back nor passes the window of the validation it uses, and a size limit that admits what is still to be written |
| AdoptionMigration.VerifyPolicyGraph | src/gah/adoption_migrations.py:373-396 | The loops accept exactly the stores whose history and current rows match their proposals and validations |
| AdoptionMigration.ReachableStorePasses | src/gah/adoption_migrations.py:373-396 | Every store the authority can reach passes the check |
| AdoptionMigration.SeedPolicyAdoptions | src/gah/adoption_migrations.py:596-615 | Seeding inserts exactly the current rows, or fails on a non-empty history or an unlinked row |
| AdoptionMigration.SeedEstablishes | src/gah/adoption_migrations.py:596-635 | Seeding a reachable store without history succeeds and establishes the invariant and the check |
| AdoptionMigration.MigratedRuns | src/gah/adoption_migrations.py:596-635 | After any run, the seeding and any further run, the check passes and each history is a contiguous interval ending at the current generation |
| EvalHistory.VerifyEvalHistory | src/gah/adoption_migrations.py:446-476 | The loops accept exactly when every current row and every history row passes its neighbour checks |
| EvalHistory.DownTo | src/gah/adoption_migrations.py:462-466 | By induction over predecessors an accepted history has every generation below one it has |
| EvalHistory.AcceptedIsGapless | src/gah/adoption_migrations.py:446-476 | An accepted series at c has history rows for exactly 1..c, and row c equals the current row |
| EvalHistory.AcceptsExactly | src/gah/adoption_migrations.py:446-476 | The check accepts exactly the keyed databases whose rows match and whose histories have no gap and no stray row |
| ChildOutput.ParseChildOutput | tools/verify_synthetic_llm.py:246-289 | The reader accepts exactly the documents whose records are a prefix of the stages, count side effects correctly and agree with their verdict |
| ChildOutput.ShapeIsOk | tools/verify_synthetic_llm.py:176-243 | The field-by-field record check at its running counter is the position-wise meaning of a record |
| ChildOutput.RunChildCase | tools/verify_synthetic_llm.py:311-357 | An accepted document that fits the exit code gives its records, flags and remote-stop mark, with no reason or `CHILD_INCOMPLETE`; in every other case nothing is kept, and status and reason are fixed by what the child did |
| Scheduler.StepKeeps | tools/verify_synthetic_llm.py:576-632 | Each submission, refusal, completion and write-off keeps the budget invariant |
| Scheduler.RunKeepsBudget | tools/verify_synthetic_llm.py:576-632 | In every run settled tokens, running reservations and reservations of uncertain cases never exceed the budget, and at most four cases run |
| Scheduler.SubmittedOnce | tools/verify_synthetic_llm.py:577-593 | No case is submitted twice |
| Scheduler.ResultsStay | tools/verify_synthetic_llm.py:603-632 | A result once filled in is never replaced |
| Scheduler.WithinReservation | tools/verify_synthetic_llm.py:176-243 | No case reports more tokens than were reserved for it |
| Scheduler.SettlesExactly | tools/verify_synthetic_llm.py:617-631 | A case settles exactly when its child exits with 0 and a complete document that is in order and leaves nothing running remotely |
| Scheduler.Supervise | tools/verify_synthetic_llm.py:549-641 | The loop terminates, is a run of the state machine, fills exactly a prefix of the results with what each child left, stops only for a reason that holds, and ends with both the reported tokens and the remaining claims of its results within the budget; if the deadline never passes, no call raises, all reservations fit together and every child settles, all cases are submitted and nothing stops the run |
| RunSummary.Summarise | tools/verify_synthetic_llm.py:364-470 | Every count, the prompt, completion and total tokens, and the remaining reservation of the summary, against definitions without its loops |
| RunSummary.OutcomesCover | tools/verify_synthetic_llm.py:408-427 | Every complete case is in exactly one of six outcomes |
| RunSummary.RunVerification | tools/verify_synthetic_llm.py:483-656 | For every schedule the total tokens the summary reports, incomplete cases included, fit the budget, and so do the tokens of complete cases together with the remaining reservations; the summary is the one of the results, and finished if nothing stops the run |
| ArtifactLaws.RunKeeps | src/gah/artifacts.py:142-305 | Every run of calls keeps the store's invariant and only extends its tables |
| ArtifactEffects.PutExactly | src/gah/artifacts.py:174-188 | A document is stored exactly when its canonical form is admitted under its name and the name has no other document and no deletion |
| ArtifactEffects.PutEffect | src/gah/artifacts.py:174-188 | Storing writes exactly the canonical document and answers its reference |
| ArtifactEffects.GetExactly | src/gah/artifacts.py:190-195 | A reference is read exactly while its document is stored |
| ArtifactEffects.PutThenGet | src/gah/artifacts.py:174-195 | At any later point of a run the reference of a stored document returns it, until it is deleted and reported so |
| ArtifactEffects.RecordsExactly | src/gah/artifacts.py:217-244 | New evidence is recorded exactly when its times are in order, its retention is within 90 days and its document is stored |
| ArtifactEffects.RecordEffect | src/gah/artifacts.py:217-244 | Recording writes exactly the evidence, collected at the clock read |
| ArtifactEffects.RecordThenRead | src/gah/artifacts.py:217-251 | At any later point recorded evidence is read back unchanged |
| ArtifactEffects.ChecksExactly | src/gah/artifacts.py:246-274 | A check and a read report the verdict that the revocations and the clock give, for exactly the recorded evidence |
| ArtifactEffects.RevokesExactly | src/gah/artifacts.py:276-294 | Evidence is revoked exactly if recorded, while generations are left or it was revoked before |
| ArtifactEffects.RevokeEffect | src/gah/artifacts.py:276-294 | A first revocation writes exactly this entity under the next generation with its reason and time; a repeated one answers the first generation and writes nothing |
| ArtifactEffects.RevokedForGood | src/gah/artifacts.py:253-294 | After an answered revocation every later check and read of the evidence reports it revoked or its document deleted |
| ArtifactEffects.DeletesExactly | src/gah/artifacts.py:296-305 | A deletion succeeds exactly for a stored name and its digest, while generations are left or it was deleted before |
| ArtifactEffects.DeleteEffect | src/gah/artifacts.py:296-305 | It revokes the artifact in the same way and empties its row |
| ArtifactEffects.DeletedForGood | src/gah/artifacts.py:253-305 | After an answered deletion the document is never read again and every check of evidence for it reports the deletion |
| ArtifactLaws.EvidenceMovesForward | src/gah/artifacts.py:253-274 | Two checks of the same evidence in one mode report states in the order VALID, EXPIRED, REVOKED, DELETED |
| ArtifactLaws.DeletedForever | src/gah/artifacts.py:174-188 | A deleted name is never stored again and takes no new evidence |
| ArtifactLaws.DeleteEmpties | src/gah/artifacts.py:296-305 | A successful deletion leaves the row without its payload |
| ArtifactLaws.RecordAgain | src/gah/artifacts.py:217-244 | Recording known evidence again succeeds exactly for the same content, returns the first record and extends nothing |
| ArtifactLaws.FreshIsBaseline | src/gah/artifacts.py:253-265 | Evidence valid as fresh is valid as a baseline |
| ArtifactLaws.ValidMeans | src/gah/artifacts.py:253-265 | Evidence is valid exactly when its artifact is stored, neither of them is revoked, and its time has not passed |
| ArtifactLaws.GenerationsExact | src/gah/artifacts.py:276-285 | In every run the revocation generations are exactly 1..n |
| ArtifactLaws.NoCorruption | src/gah/artifacts.py:163-215 | No reachable store makes a call report corruption |
| ArtifactStore.ArtifactStore.Handle | src/gah/artifacts.py:108-122 | The in-place transaction equals the transition, and rolls back on any error |
| ArtifactStore.ArtifactStore.DeleteArtifact | src/gah/artifacts.py:296-305 | The revocation and the emptied payload, in place |
| Ownership.AlwaysRecorded | tools/authority_runtime.py:345-364 | At every crash point of a run whose creations are guarded and whose writes are excluded from each other's saves, each live container is in the file |
| Ownership.RecordedWithoutFailedSaves | tools/authority_runtime.py:345-364 | In particular in every run in which no save fails, with any crashes and any interleaving that keeps saves from overlapping |
| Ownership.CreationSafeExactly | tools/authority_runtime.py:345-364 | A creation nobody else writes into is safe for all outcomes of its read, its write and its command if and only if the name is new to the instance or already in the file |
| Ownership.FreshNameIsSafe | tools/authority_runtime.py:528-540 | Such a creation under a name new to the instance, as every client gets, is safe for all outcomes |
| Ownership.UnrecordedBroker | tools/authority_runtime.py:366-378 | A prepare with a failed save and a second prepare leave a broker that no file names, although no writes overlap |
| Ownership.RecordedNeverLost | tools/authority_runtime.py:174-198 | While nobody writes between another instance's read and write, no event removes a name from the file, and every list about to be written holds the whole file |
| Ownership.OverlapLosesExactly | tools/authority_runtime.py:174-198 | Of two overlapping saves the second write takes a name back exactly when the first list has one that the second lacks |
| Ownership.UnrecordedClient | tools/authority_runtime.py:174-198 | Without the exclusion two overlapping saves leave a client that no file names, though its name was new and no save failed |
| Ownership.LockedRunsExclude | tools/setup_apply.py:284-285 | If a runtime object is opened only while no other one is open, as the deployment lock ensures, writes exclude each other |
| AuthorityRuntime.AuthorityRuntime.Save | tools/authority_runtime.py:174-198 | The save is the read-and-merge and the write event of the model, with what each failure leaves of file and memory |
| AuthorityRuntime.AuthorityRuntime.CreateContainer | tools/authority_runtime.py:345-364 | A creation in place is the modelled sequence of begin, write and create, whatever the save and docker do |
| AuthorityRuntime.AuthorityRuntime.RemoveContainer | tools/authority_runtime.py:651-677 | Success means exactly this container is gone; no other is ever touched |
| AuthorityRuntime.AuthorityRuntime.Cleanup | tools/authority_runtime.py:687-715 | Success means nothing is left; if every live container was recorded the final scan cannot find one, and an unrecorded one is left and reported |
| Framing.RoundTrip | src/gah/authority.py:43-68 | What is sent is received unchanged, or it is empty or too large and not sent |
| Framing.AcceptsOneFrame | src/gah/authority.py:43-59 | Exactly the streams that are one whole frame of a document are accepted |
| Framing.NoCutNoTail | src/gah/authority.py:43-59 | A cut frame and a frame with anything after it are refused, each with its error |
| Framing.UnpackPack | src/gah/authority.py:45 | The big-endian header reads back the length that was written |
| Framing.Connection.ReadExact | src/gah/authority.py:26-40 | Reads exactly the next bytes however they are cut; a timeout exactly when time was up at a look, incomplete only if the stream is shorter |
| Framing.Connection.ReceiveFrame | src/gah/authority.py:43-59 | For every segmentation the outcome is a timeout if time was up at one of the looks at the deadline, and otherwise the one of the whole stream |
| Framing.Exchange | src/gah/authority.py:43-68 | If time is never up, sending and receiving over one connection yields the document, or a size refusal exactly for an empty or too large one |
| HistoryMerge.Collect | tools/ci_history.py:157-180 | The merge fails exactly on conflicting observations of one run, and otherwise is the ordered list of each module's last three successes |
| HistoryMerge.KeptTwice | tools/ci_history.py:169-176 | Keeping the last three of what was kept and more is keeping the last three of all |
| HistoryMerge.CollectInBatches | tools/ci_history.py:157-180 | Collecting in two calls gives the history of one call, without new conflicts |
| HistoryMerge.CollectKnown | tools/ci_history.py:157-180 | Collecting reports that hold nothing new into the merged history changes nothing and meets no conflict |
| HistoryMerge.CollectTwice | tools/ci_history.py:157-180 | In particular collecting the same reports a second time |
| HistoryMerge.LastAreKept | tools/ci_history.py:173-176 | The last three of a sorted module are exactly the successes with fewer than three newer ones |

## Left out

- JSON, schema and identifier checks, document size limits and digest formats: a document is a typed value; in the adoption authority the size limit is the predicate `fits`.
- SQLite, docker, socket, subprocess and file-system mechanics: transactions, commands and writes are atomic steps that may fail.
- Extension actions of the authority: their answer is an input, their own tables are not part of this model; neither are the pilot and catalog request keys.
- Predecessor validator digests: a fixed set in the configuration.
- The migration's evaluation tables other than `eval_current`, `eval_adoptions`, `eval_proposals` and `eval_validations`, and its known-version digest tables.
- The history check on other paths than `following` with `adopted`: line 402 rebinds the parameter there.
- The cached wrapper around the aggregation, its input binding, metric identifiers, `metric_scopes` and the sorting of issues.
- The contract half of the driver's plan: its three calls are those of the policy half on other tables.
- The client's retry on a rolled-back clock: one happening of the model stands for the call with its retry.
- The calibration before a scheduled run, its progress files and the list of reason codes.
- Image, configuration and probe checks of the runtime, volumes, and the choice of client to reuse.
- Plan-bound collection of timing reports: the checks of report names and of the locked plan.
- The order in which the source walks dictionaries: loops over keys and groups take them in any order, which no result depends on.
