# Account-truth evidence: a verified model

This project models the parts of Karkinos that decide whether broker evidence may be trusted, and
proves what they keep:

* the order-lifecycle evidence store and the two-phase collector that feeds it, as a state machine
  over single transactions with crashes and several processes;
* the roll-forward of a local broker statement, the independent lineage check of the rows it derives,
  and continuity between imports;
* the import store, the reconciliation with the ledger, and the score that opens or closes the gate;
* the maximum-drawdown evidence: its builder and the validator that replays it;
* accept/revoke review chains, and the poller that waits for a stable file.

## How to read it

| files | what is there |
|---|---|
| `LifecycleValues`, `LifecyclePreviews`, `LifecycleStore` | orders and fills, the preview of one export, the `record` transaction and what every sequence of it keeps |
| `CollectorPreviews`, `Collector` | the preview of a collector batch; prepare, commit and finalise as atomic steps; `System`, `Action`, `Next`, `Play` |
| `CollectorInvariant`, `CollectorTheorems`, `CollectorRace`, `CollectorTerminal`, `CollectorCrash` | the invariant over all interleavings, its consequences, the race that undoes "recorded", when "recorded" is terminal, crash refinement |
| `Repositories` | the two repositories as classes, proved against the transactions on values |
| `Projection` | resolving one order; clearance and terminal outcome |
| `Statement`, `RollForward`, `RollForwardRuns` | statement rows and their parser; the roll-forward, alone and over any sequence of days |
| `Lineage`, `LineageOrders`, `Continuity`, `ContinuityTheorems`, `HistoryModes` | the lineage check and its agreement with the roll-forward; transitions between imports, and what their modes mean |
| `EvidenceStore`, `Reconciliation`, `ReconciliationTheorems`, `Score` | the import store; the report and what "pass" means; score and gate |
| `Drawdown`, `DrawdownEvidence` | peaks and drawdowns over real numbers; builder, validator, error bound |
| `ReviewChains`, `Poller` | review chains under interleaving; the polling state machine |

What a fingerprint covers is represented by the hashed value itself, so equal fingerprints mean equal
values; the twelve-digit tags in derived event ids are treated as whole fingerprints. Decimals are
exact real numbers, so two spellings of one number are one number. Identifiers are numbers compared
for equality, 0 being the empty string. Timestamps normalised to UTC are numbers; statement times keep
both the text they sort by and the instant they parse to. SQL tables are sequences in id order, and
each SQLite transaction is one step. Fresh identifiers, clocks, the release review and the answers of
other repositories are parameters. A violated UNIQUE constraint rolls its transaction back. Offsets of
Shanghai are the constant eight hours.

Where a source class updates rows in place the model has a class whose methods are proved equal to a
function on the old contents; the laws are then proved of that function.

## Findings

* `_finalize_blocked` updates a run without looking at its status, so "recorded" is not terminal:
  `CollectorRace.RecordedIsNotTerminal` gives the sequence of steps, and
  `CollectorRace.RecordedStaysUnlessOverwritten` the exact condition for one step. The only way there is
  a refused release check: while those of a run stay clear, its recorded row never changes again, under
  any interleaving (`CollectorTerminal.RecordedIsTerminal`). The cursor results hold all the same.
* Lineage orders base rows by the text of their time, the roll-forward by the instant. With mixed
  offsets an accepted roll-forward can therefore fail the lineage check
  (`LineageOrders.MixedOffsetsCanBlock`); `Lineage.LineageOfRolledFile` says exactly when it passes.
* The drawdown tolerance is absolute below one unit of cash, so small curves can hide a drawdown.
  `DrawdownEvidence.BoundIsExact` gives the most the expected drawdown can be off for every floor of the
  curve, and `DrawdownEvidence.FourUnitsIff` the exact floor from which 4e-9 is guaranteed: one unit of
  cash less 1e-9. `DrawdownEvidence.TinyCurvesHideDrawdown` is a curve that loses half unseen.
* A changed parser that counts the same number of rows leaves the events of the earlier parse in the
  import store while the run takes over the new counts (`EvidenceStore.OldParseIsKept`).
  `EvidenceStore.NewParseStagedIff` says exactly when a save stages the new parse, and
  `EvidenceStore.FirstParseStays` which parse is stored after any sequence of saves.
* The poller asks once more whether the file is there when it records an error, and a file that is
  missing then does not restart the stability window (`Poller.MissingAfterErrorIsIgnored`).
  `Poller.StagedNeverMissingIff` gives the exact condition for a staged file never to have been found
  missing: no poll since its signature was seen met an error while the file was away, which is when the
  status always showed it as present.
* The continuity mode "append_only_activity" never occurs: added activity always changes the stable
  source facts, so the mode is then the one with a state refresh (`HistoryModes.ModeMeans`).

## Model

| member | source | states |
|---|---|---|
| LifecycleValues.ValidationSoundAndComplete | account_truth/broker_order_lifecycle_values.py:132-215 | the blocker list is empty exactly when order and fills tell one consistent story: quantities fit the status, every fill belongs to the order and lies in its time span, trade ids differ, fills add up to the filled quantity and to the average price within 0.0001 |
| LifecycleValues.CheckFills | account_truth/broker_order_lifecycle_values.py:174-202 | the loop over the fills finds the blockers of each fill against all earlier ones and both running totals |
| LifecycleValues.ValidateOrderAndFills | account_truth/broker_order_lifecycle_values.py:132-215 | the caller's list is extended and stays empty exactly on consistent evidence |
| LifecyclePreviews.PassingPreviewIsConsistent | account_truth/broker_order_lifecycle_preview.py:63-192 | a preview without blockers carries consistent evidence, a capture time and an account reference |
| LifecycleStore.LatestDominates | account_truth/broker_order_lifecycle_uow.py:153-182 | the newest passed row by capture time is also the one with the greatest sequence, and shares provider and account with every passed row of its venue |
| LifecycleStore.MaxIsLatest | account_truth/broker_order_lifecycle_collector_uow.py:493-517 | `MAX(source_sequence)` of a scope and the newest row by capture time name the same row |
| LifecycleStore.NewestMatchIsEnough | account_truth/broker_order_lifecycle_uow.py:184-224 | a row that agrees with the newest row naming one of its ids agrees with every older passed row |
| LifecycleStore.NothingFoundIff | account_truth/broker_order_lifecycle_uow.py:147-225 | on a sound store the checks against the newest row and the newest match find nothing exactly when the new row fits all passed rows |
| LifecycleStore.RecordKeepsSound | account_truth/broker_order_lifecycle_uow.py:33-145 | any call of `record` keeps ids distinct, passed rows increasing, identities one-to-one and facts complete |
| LifecycleStore.RecordIsIdempotent | account_truth/broker_order_lifecycle_uow.py:72-82 | replaying a stored preview changes nothing and answers with the stored row |
| LifecycleStore.EveryRunIsSound | account_truth/broker_order_lifecycle_uow.py:33-224 | over any sequence of `record` calls: one-to-one ids, contract a function of identity, increasing sequence and capture time, constant provider and account |
| CollectorPreviews.NormalizeIdentity | account_truth/broker_order_lifecycle_collector_preview.py:189-272 | the caller's list is only extended, and by nothing exactly when every id is well formed, an account is given and every status is known |
| CollectorPreviews.NormalizeRuntime | account_truth/broker_order_lifecycle_collector_preview.py:275-341 | the runtime record, and both lists grown by the cursor, count, source, callback, connection and batch checks |
| CollectorPreviews.PreviewLifecycle | account_truth/broker_order_lifecycle_collector_preview.py:415-459 | the evidence preview; the caller's list is only extended, and by nothing exactly when the evidence of a complete batch is there, passes and names its scope, account, time and cursor |
| CollectorPreviews.PreviewCollectorBatch | account_truth/broker_order_lifecycle_collector_preview.py:73-156 | the preview grown step by step has no blocker exactly for a ready batch |
| CollectorPreviews.ReadyIff | account_truth/broker_order_lifecycle_collector_preview.py:344-459 | no blocker exactly for a well-formed whole batch of one event with consecutive cursor and telemetry fitting its mode, whose passing evidence names its scope, account, time and cursor |
| CollectorPreviews.PreviewedBatchIsBound | account_truth/broker_order_lifecycle_collector_preview.py:301-307 | a recordable batch has consecutive cursors; without blockers it carries passing evidence of its own scope whose sequence is the cursor |
| CollectorInvariant.PreparedMeansNoBlocker | account_truth/broker_order_lifecycle_collector_uow.py:129-195 | a run is prepared only at the expected cursor, unclaimed, with no earlier run at it |
| CollectorInvariant.PrepareKeepsInv | account_truth/broker_order_lifecycle_collector_uow.py:46-283 | preparing keeps the database invariant: ids, cursors and settled runs stay in the same order |
| CollectorInvariant.AdvanceKeepsInv | account_truth/broker_order_lifecycle_collector_uow.py:346-444 | so does advancing the cursor |
| CollectorInvariant.FinalizeKeepsInv | account_truth/broker_order_lifecycle_collector_uow.py:519-555 | so does marking a run blocked, whatever status it has by then |
| CollectorInvariant.EveryRunKeepsInv | account_truth/broker_order_lifecycle_collector_uow.py:46-555 | the invariant holds after every interleaving of prepares, commits, external records, release changes and crashes |
| CollectorTheorems.CursorMovesByOne | account_truth/broker_order_lifecycle_collector_uow.py:357-376 | one action leaves a cursor row alone or raises it by exactly one, and never removes it |
| CollectorTheorems.CursorCountsWrites | account_truth/broker_order_lifecycle_collector_uow.py:377-422 | after a scope's first cursor row its cursor counts the later writes, over any run |
| CollectorTheorems.OneLiveRunPerCursor | account_truth/broker_order_lifecycle_collector_uow.py:181-195 | at most one prepared or recorded run of a scope and cursor at a time |
| CollectorTheorems.RecordedOnce | account_truth/broker_order_lifecycle_collector_uow.py:346-444 | at most one run of a scope and cursor ever becomes recorded, even if the first is later marked blocked |
| CollectorTheorems.HealthIsLatestStatus | account_truth/broker_order_lifecycle_projection.py:336-425 | in a reachable database the health of a bound observation is exactly the status of the newest non-duplicate run of its scope |
| CollectorTheorems.RecordedRunIsHealthy | account_truth/broker_order_lifecycle_projection.py:291-444 | after any run, a newest run that is recorded reports its own observation healthy |
| CollectorTheorems.PrepareAgain | account_truth/broker_order_lifecycle_collector_uow.py:93-115 | preparing the same preview again answers with the stored run and writes nothing |
| CollectorTheorems.DuplicateRepeatsRun | account_truth/broker_order_lifecycle_collector_uow.py:154-180 | a new run is a duplicate exactly when nothing blocks it and the same evidence was recorded at its cursor; it repeats that observation and carries nothing to commit |
| CollectorTheorems.CommitRecordsIff | account_truth/broker_order_lifecycle_collector_uow.py:285-455 | an uninterrupted commit of a prepared run records it exactly when the release is clear, its evidence is or would be stored as passed, and its scope is at its cursor; the cursor row is then its own |
| CollectorRace.RecordedStaysUnlessOverwritten | account_truth/broker_order_lifecycle_collector_uow.py:527-545 | a recorded run stays recorded exactly unless the step finalises a refused commit of it |
| CollectorRace.RecordedIsNotTerminal | account_truth/broker_order_lifecycle_collector_uow.py:305-320 | a concrete run of two racing commits in which a recorded run becomes blocked |
| CollectorTerminal.RefusedRecordingDooms | account_truth/broker_order_lifecycle_collector_uow.py:318-344 | a commit that the store refuses leaves its evidence stored as failed and its run unrecorded |
| CollectorTerminal.RefusedAdvanceDooms | account_truth/broker_order_lifecycle_collector_uow.py:346-381 | a commit that the cursor refuses leaves the scope past the cursor of its run |
| CollectorTerminal.EveryRefusalIsForGood | account_truth/broker_order_lifecycle_collector_uow.py:285-455 | over every interleaving, while the release checks of a run are clear, each of its refused commits was refused for a reason that lasts |
| CollectorTerminal.RecordedIsTerminal | account_truth/broker_order_lifecycle_collector_uow.py:285-545 | over every interleaving a recorded run keeps its row for ever, as long as no release check of its commits is refused |
| CollectorCrash.RetryCompletes | account_truth/broker_order_lifecycle_collector_uow.py:285-455 | from every point a commit can be killed at, one retry reaches the end of the uninterrupted commit |
| CollectorCrash.CrashRefinement | account_truth/broker_order_lifecycle_collector_uow.py:285-455 | any undisturbed interleaving of commits, crashes and retries of a run, followed by one retry, leaves its venue as one uninterrupted commit would have |
| CollectorCrash.IngestSurvivesCrashes | account_truth/broker_order_lifecycle_collector.py:85-96 | `ingest` killed anywhere after its first transaction and retried equals the `ingest` that was never killed |
| Repositories.EvidenceRepository.CheckTransaction | account_truth/broker_order_lifecycle_uow.py:147-225 | reading two rows of a sound store finds nothing exactly when the new row comes after every passed row of its venue, with its provider and account, and corresponds with every passed row of its scope |
| Repositories.EvidenceRepository.InsertFills | account_truth/broker_order_lifecycle_uow.py:262-302 | inserts every fill in order, or reports a repeated trade id |
| Repositories.EvidenceRepository.Record | account_truth/broker_order_lifecycle_uow.py:33-145 | the object's tables and answer are those of the transaction; a violated constraint rolls back |
| Repositories.CollectorRepository.Prepare | account_truth/broker_order_lifecycle_collector_uow.py:46-283 | new contents and answer are those of the prepare transaction |
| Repositories.CollectorRepository.RecordStep | account_truth/broker_order_lifecycle_collector_uow.py:322-344 | the recording step of a commit, through the evidence repository's own transaction |
| Repositories.CollectorRepository.AdvanceStep | account_truth/broker_order_lifecycle_collector_uow.py:346-455 | the advancing transaction, re-reading the run |
| Repositories.CollectorRepository.FinalizeStep | account_truth/broker_order_lifecycle_collector_uow.py:519-555 | the finalising UPDATE |
| Repositories.CollectorRepository.CommitPrepared | account_truth/broker_order_lifecycle_collector_uow.py:285-455 | an uninterrupted commit is the composition of its steps |
| Repositories.CollectorRepository.Ingest | account_truth/broker_order_lifecycle_collector.py:85-96 | prepare, then commit what was prepared |
| Projection.TerminalOutcome | account_truth/broker_order_lifecycle_projection.py:176-288 | blocked exactly when the evidence does not settle the request; otherwise terminal exactly for filled or cancelled orders; quantities, fill count and blockers as found |
| Projection.ClearanceAgainstOutcome | account_truth/broker_order_lifecycle_projection.py:143-173 | on any evidence: a terminal fill exactly when clearance has nothing to say, the request is not empty and the fills add up |
| Projection.EveryRunIsTruthful | account_truth/broker_order_lifecycle_collector_uow.py:46-455 | over every interleaving each passed observation is consistent |
| Projection.ConstraintsHold | account_truth/broker_order_lifecycle_uow.py:262-302 | over every interleaving neither an external record nor the recording step of a commit violates the uniqueness of trade ids |
| Projection.FoundEvidence | account_truth/broker_order_lifecycle_projection.py:30-140 | resolution finds the newest row naming the order, with exactly its order and fills, the fills in time order |
| Projection.ConsumersAgree | account_truth/broker_order_lifecycle_projection.py:143-288 | on resolved evidence clearance is empty exactly for a terminal fill; a terminal outcome has filled + cancelled = order quantity = requested quantity and fills summing to filled |
| Projection.TerminalNeedsOnlyTheContract | account_truth/broker_order_lifecycle_projection.py:234-270 | on resolved evidence a terminal order settles exactly when the collector allows it and symbol, side and quantity match |
| Projection.ClearanceIgnoresFills | account_truth/broker_order_lifecycle_projection.py:143-173 | hand-made evidence that clearance lets through and the outcome refuses |
| Statement.ParseRows | account_truth/broker_statement.py:188-254 | the loop with seen rows and counters stages every valid row once with its first duplicate |
| Statement.PassMeansClean | account_truth/broker_statement.py:353-361 | a file passes exactly when all rows are valid and distinct; each is then staged once, in order |
| Statement.CountsBalance | account_truth/broker_statement.py:193-254 | rows = valid + invalid, and valid = distinct valid rows + duplicates |
| RollForward.CarryCash | account_truth/broker_statement_roll_forward.py:351-371 | last stated balance plus later net amounts equals the left fold that resets at each stated balance |
| RollForward.LatestIsNewest | account_truth/broker_statement_roll_forward.py:380-383 | the dictionary keeps the newest event of each symbol |
| RollForward.PrepareRollForward | account_truth/broker_statement_roll_forward.py:254-446 | the preparation step by step, including every refusal, gives the prepared file |
| RollForward.OutputKeepsBase | account_truth/broker_statement_roll_forward.py:287-297 | stripping the output again gives back exactly the base rows |
| RollForward.RollingComposes | account_truth/broker_statement_roll_forward.py:254-446 | rolling to one day and then another is rolling to the other alone, in either order |
| RollForwardRuns.CheckLedger | account_truth/broker_statement_roll_forward.py:496-527 | two running maxima decide whether any ledger row is unreadable, newer than the source, or recorded after the file |
| RollForwardRuns.StatementFile.RollTo | account_truth/broker_statement_roll_forward.py:124-251 | the file, whether its bytes are the writer's own, and its modification time after one roll, including refusals for size, failed or disturbed reads, a change before the write and a failed write |
| RollForwardRuns.SecondRollIsUnchanged | account_truth/broker_statement_roll_forward.py:208-219 | rolling again to the same day leaves the file unchanged, if it can be read |
| RollForwardRuns.RollsCompose | account_truth/broker_statement_roll_forward.py:124-251 | a detour over another day is not blocked by the ledger guard and ends in the same file |
| RollForwardRuns.LastRollDecides | account_truth/broker_statement_roll_forward.py:124-251 | over any sequence of days, ledgers and disturbances the file is the preparation of the original for the last day that was not blocked |
| RollForwardRuns.SourceStays | account_truth/broker_statement_roll_forward.py:404-406 | base rows, and so the source fingerprint, never change |
| Lineage.SplitEvents | account_truth/source_fact_lineage.py:60-86 | the first loop finds repeated or missing ids and row numbers and bad fingerprints, and splits base from derived rows |
| Lineage.ScanDerived | account_truth/source_fact_lineage.py:258-331 | the loop over derived rows accumulates blockers, dates, tags, counts and symbols |
| Lineage.ProjectLineage | account_truth/source_fact_lineage.py:49-124 | the projection as a function of the import: stable source, counts, date, source tag and blockers |
| Lineage.RolledFileStates | account_truth/broker_statement_roll_forward.py:404-446 | after the base rows: one cash row with the carried balance, then one position row for each base symbol with the facts of its newest row |
| Lineage.OutputIsClean | account_truth/broker_statement_roll_forward.py:254-446 | a rolled file parses without a blocker and has distinct event ids |
| Lineage.LineageOfRolledFile | account_truth/source_fact_lineage.py:49-352 | a rolled file passes the check exactly when text order and instant order agree on the seven facts of each symbol; one cash row, one position row a symbol, the day, and the stable source |
| LineageOrders.OneOffsetPasses | account_truth/source_fact_lineage.py:228-352 | with one time format and offset every rolled file passes, after any rolls |
| LineageOrders.RolledFilesMatch | account_truth/source_fact_lineage.py:127-145 | two rolled files of one source match, so reviews carry over |
| LineageOrders.MixedOffsetsCanBlock | account_truth/source_fact_lineage.py:245-255 | a file with two offsets that rolls forward and then fails the check |
| Continuity.ActivityByEventId | account_truth/source_fact_continuity.py:301-317 | the dictionary of activity, or nothing when an id is empty, repeated or a duplicate row |
| Continuity.CheckSettlement | account_truth/source_fact_continuity.py:132-157 | the loop over unchanged events counts moved settlement dates and rewritten rows and finds an unsafe one |
| Continuity.AssessContinuity | account_truth/source_fact_continuity.py:56-211 | blockers, mode and counts of one transition |
| ContinuityTheorems.ChainExtends | account_truth/source_fact_continuity.py:93-130 | along a chain of continuous steps whose first times are known nothing is lost or changed, and everything added is no earlier than the first import's latest activity |
| ContinuityTheorems.DirectDiffersOnlyInSettlement | account_truth/source_fact_continuity.py:250-262 | the direct assessment of the two ends of such a chain can only object to settlement dates |
| ContinuityTheorems.DirectIsContinuous | account_truth/source_fact_continuity.py:250-262 | and objects to nothing when snapshot dates never go back |
| ContinuityTheorems.AssessHistory | account_truth/source_fact_continuity.py:214-279 | the scan with its limit, truncation, missing import and order, the loop over adjacent imports, then the direct assessment: blockers, mode, number of transitions, their modes, and the direct counts |
| ContinuityTheorems.HistoryIsItsSteps | account_truth/source_fact_continuity.py:214-279 | a history is continuous exactly when the scan sees all stored imports in order and each step is continuous |
| HistoryModes.ModeMeans | account_truth/source_fact_continuity.py:154-175 | the mode is material drift exactly when blocked; else append with state refresh exactly when activity was added, daily roll-forward exactly when the stable source is the same, and never plain append |
| HistoryModes.HistoryModeMeans | account_truth/source_fact_continuity.py:240-279 | a continuous history is an append exactly when one of its steps is, and a daily roll-forward when all are; one transition for each import after the first |
| ContinuityTheorems.RolledFilesAreContinuous | account_truth/source_fact_continuity.py:160-175 | two rolled files of one source are continuous, in the daily roll-forward mode |
| ContinuityTheorems.RemovedThenRestored | account_truth/source_fact_continuity.py:93-110 | an event in the first import, gone from the second and back in the third: the ends are continuous, and the step that lost it has just that blocker |
| EvidenceStore.EvidenceImports.SavePreview | account_truth/broker_evidence.py:95-183 | tables and answer after one save |
| EvidenceStore.EvidenceImports.UpdateExistingImportRun | account_truth/broker_evidence.py:185-302 | tables and answer after a replay |
| EvidenceStore.EverySequenceKeepsInv | account_truth/broker_evidence.py:95-302 | over any serial sequence of saves: one run for each fingerprint, blocked runs empty, others with exactly their valid rows |
| EvidenceStore.IdentityIsForever | account_truth/broker_evidence.py:193-195 | a run's id, fingerprint and first-seen time never change |
| EvidenceStore.AcceptedReplay | account_truth/broker_evidence.py:224-235 | replaying an accepted file leaves all events; it is refused exactly when another, nonzero count was staged |
| EvidenceStore.EventsAreParsed | account_truth/broker_evidence.py:95-302 | with one parser the events of every run are exactly those of its file's parse |
| EvidenceStore.NewParseStagedIff | account_truth/broker_evidence.py:185-302 | after an accepted save the events are the new parse exactly when the file had no run, its run was blocked or empty, or the same was staged |
| EvidenceStore.FirstSinceMeans | account_truth/broker_evidence.py:261-296 | "first since the last blocked one": nothing blocked since, and every earlier such parse was blocked again |
| EvidenceStore.FirstParseStays | account_truth/broker_evidence.py:95-302 | over any sequence of saves, whatever parsers: the events of a file are its first nonempty accepted parse since the last blocked one |
| EvidenceStore.OldParseIsKept | account_truth/broker_evidence.py:261-296 | two saved calls with different parses of one file, after which the first parse is still stored |
| Reconciliation.Aggregate | account_truth/reconciliation.py:383-425 | the dictionaries of the aggregation loops hold the sums by symbol |
| Reconciliation.Remember | account_truth/reconciliation.py:524-541 | the dictionary of asset classes by symbol |
| Reconciliation.ClassifyItems | account_truth/reconciliation.py:517-575 | the loop gives each item its class, or one blocked item for each class of an ambiguous symbol |
| Reconciliation.BuildReport | account_truth/reconciliation.py:80-256 | the report as a function of the books: status, differences, suggested actions, classified items with their context, and lanes |
| ReconciliationTheorems.PassMeansReconciled | account_truth/reconciliation.py:120-256 | "pass" exactly when both snapshots exist, no held class is uncovered, every comparison is within its tolerance and no compared symbol has two asset classes |
| ReconciliationTheorems.AccountLaneRepeatsReport | account_truth/reconciliation.py:578-608 | the account lane repeats status and unresolved count; nothing is unresolved, and no action suggested, exactly when the report passes |
| Score.LowerScore | account_truth/score.py:113-132 | the score as a function of status, unresolved mismatches and freshness |
| Score.CollectReasons | account_truth/score.py:147-163 | the list of blocking reasons |
| Score.BuildScore | account_truth/score.py:63-110 | the whole score as a function of report, reviews and freshness: value, gate, category statuses, counts, actions, reasons and limitations |
| Score.ScoreAndGate | account_truth/score.py:113-144 | gate: pass exactly for a passing report and fresh data, blocked exactly for a blocked or mismatched report or missing data, else degraded |
| Score.ReviewsDoNotMoveTheGate | account_truth/score.py:191-202 | for reports the reconciler builds no set of reviews moves score or gate |
| Score.GateOpensOnReconciledBooks | account_truth/score.py:135-144 | the gate opens exactly for reconciled books and fresh data |
| Score.OpenGateIsClean | account_truth/score.py:63-163 | behind an open gate every category passes and there is no action, reason or limitation |
| Score.ReviewsMoveOnlyCounts | account_truth/score.py:74-85 | unresolved plus resolved is the report's unresolved count |
| Score.ReviewsResolveOneContext | account_truth/score.py:204-225 | warnings of one key that one set of reviews resolves state the same facts in the same context |
| Drawdown.MaxDrawdownIsMax | analytics/backtest_drawdown_evidence.py:42-62 | the running-peak maximum is the greatest relative fall over all pairs, the anchor included |
| Drawdown.DrawdownMovesLittle | analytics/backtest_drawdown_evidence.py:269-274 | it moves by at most 1 - s * t when each level is at least s and t times the other |
| Drawdown.DrawdownIsStable | analytics/backtest_drawdown_evidence.py:269-274 | it moves by at most twice the relative perturbation of the levels |
| DrawdownEvidence.CompleteIff | analytics/backtest_drawdown_evidence.py:22-40 | built evidence is complete exactly for a clean curve of enough points and a usable initial cash |
| DrawdownEvidence.Build | analytics/backtest_drawdown_evidence.py:14-95 | the builder's loops give one point a row with running peak and decline, the issues and the maximum |
| DrawdownEvidence.Replay | analytics/backtest_drawdown_evidence.py:161-200 | the replay loop accepts exactly when every point fits the running peak of the reported equities |
| DrawdownEvidence.Validate | analytics/backtest_drawdown_evidence.py:98-211 | the validator decides acceptance |
| DrawdownEvidence.AcceptedWithinBound | analytics/backtest_drawdown_evidence.py:161-211 | acceptance on a curve not below a floor puts the expected drawdown within the bound of that floor of the true maximum |
| DrawdownEvidence.BoundIsExact | analytics/backtest_drawdown_evidence.py:161-274 | for every floor a guarantee holds for all accepted evidence exactly when it is at least the bound |
| DrawdownEvidence.FourUnitsIff | analytics/backtest_drawdown_evidence.py:161-274 | 4e-9 is guaranteed exactly for floors of at least one unit of cash less 1e-9 |
| DrawdownEvidence.AcceptedDrawdownIsClose | analytics/backtest_drawdown_evidence.py:161-211 | acceptance puts the expected drawdown within 2e-9 plus twice the relative tolerance of the true maximum over all pairs |
| DrawdownEvidence.AcceptedWithinFourUnits | analytics/backtest_drawdown_evidence.py:161-211 | within 4e-9 for curves of at least one unit of cash |
| DrawdownEvidence.BuiltEvidenceIsAccepted | analytics/backtest_drawdown_evidence.py:14-211 | every complete evidence the builder makes is accepted for its own curve and summaries |
| DrawdownEvidence.TinyCurvesHideDrawdown | analytics/backtest_drawdown_evidence.py:269-274 | a curve far below one unit of cash that loses half, with accepted evidence of no drawdown |
| ReviewChains.ReviewRepository.RecordReview | account_truth/citic_source_query_window_review_uow.py:52-93 | table and answer after recording, for both stores |
| ReviewChains.ReviewRepository.RevokeLatest | account_truth/citic_source_query_window_review_uow.py:130-160 | table and answer after revoking in one transaction |
| ReviewChains.ReviewRepository.CommitRevocation | account_truth/citic_source_scope_review_uow.py:126-143 | the second transaction of a scope revocation |
| ReviewChains.ChainsAlternate | account_truth/citic_source_scope_review_uow.py:66-143 | under every interleaving each intake's reviews alternate accepted, revoked, each superseding its immediate predecessor |
| ReviewChains.RecordAgain | account_truth/citic_source_query_window_review_uow.py:68-78 | recording the same acceptance again adds nothing and answers with the stored review, whether the first answer was new or not |
| ReviewChains.RevokeAgain | account_truth/citic_source_query_window_review_uow.py:136-140 | revoking a window review again adds nothing and answers with the stored revocation |
| ReviewChains.WrittenRevokeAgain | account_truth/citic_source_scope_review_uow.py:115-143 | checking a scope revocation again after it was written answers with the stored revocation and leaves nothing to write |
| ReviewChains.SupersededOnce | account_truth/citic_source_scope_review_uow.py:126-143 | over every interleaving no review is superseded twice, so an acceptance is revoked at most once |
| ReviewChains.RevokedIsForever | account_truth/citic_source_scope_review_uow.py:115-143 | whatever happens after an acceptance was revoked, revoking it again writes nothing, in one transaction or in two; the answer is the stored revocation while that is the newest review, else that the review is out of date |
| ReviewChains.OneRevocationWins | account_truth/citic_source_scope_review_uow.py:128-133 | of two checked scope revocations only one is written |
| Poller.StatementCollector.CollectOnce | account_truth/broker_statement_collector.py:122-328 | every field and status value after one poll, the looks it took and the question after an error |
| Poller.EveryRunKeepsInv | account_truth/broker_statement_collector.py:122-328 | the candidate is always explained by an earlier poll and undisturbed looks since; the processed fingerprint and the repeated counts are those of the file staged last, and the success time is that of the last one not blocked |
| Poller.StagedFilesAreStable | account_truth/broker_statement_collector.py:169-232 | a file is staged only when its signature was seen at least the delay before, every metadata read since saw it or failed, and the bytes fit |
| Poller.StagedNeverMissingIff | account_truth/broker_statement_collector.py:309-328 | from the poll a staged file goes back to, no poll found it missing exactly when the status showed it as present after each, and exactly when none met an error while the file was away |
| Poller.MissingAfterErrorIsIgnored | account_truth/broker_statement_collector.py:309-328 | polls that stage a file although the poll before found it missing |
| Poller.NeverTwiceInARow | account_truth/broker_statement_collector.py:243-256 | no fingerprint is staged twice in a row |

## Left out

* SQLite itself, schemas, migrations, read-only connections, acknowledgement strings, and copying rows to and from JSON and dataclasses.
* CSV, JSON, decimal, date and regular-expression parsing: the model starts from parsed fields with flags for what did not parse.
* Decimal contexts: the 28-digit rounding of Python decimals is not modelled.
* A resolution that finds no lifecycle or collector tables at all; the tables always exist here.
* How the roll-forward replaces a file (temporary file, sync, mode); what the file system answers is an input.
* The owner's switches and the 5000-row limit around the roll-forward.
* Adapter releases and conformance: the release review is an answer of clear or blocked.
* Freshness timestamps of collector batches and source names, beyond the age check of one export.
* Detail texts of reports and scores; detail codes follow from category, status and symbol.
* The attested content of a review: one value stands for it.
* Lineage history over stored imports, which repeats the comparison of stable sources for each import.
* Message texts and the configured constants in the poller's status.
* Benchmark, factor, capacity and fee evidence, and the weaker review stores that follow the same chains.
