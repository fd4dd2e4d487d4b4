/** "Recorded" is not terminal: the one action that undoes it, and a run in which it happens. */
module CollectorRace {
  import opened LifecycleValues
  import opened LifecyclePreviews
  import opened LifecycleStore
  import opened CollectorPreviews
  import opened Collector
  import opened CollectorInvariant
  import opened CollectorTheorems

  /** The step finalises a refused commit of this run. */
  predicate Overwrites(s: System, a: Action, k: nat) {
    a.FinalizeStep? && CommitOf(s, a.pid).Blocking? && RunIndex(s.db.runs, CommitOf(s, a.pid).run.runId) == k
  }

  /** A recorded run stays recorded exactly unless the step finalises another, refused commit of it: the
      UPDATE does not look at the status. */
  lemma RecordedStaysUnlessOverwritten(s: System, a: Action, k: nat)
    requires k < |s.db.runs| && s.db.runs[k].status.Recorded?
    ensures k < |Next(s, a).db.runs|
    ensures Next(s, a).db.runs[k].status.Recorded? <==> !Overwrites(s, a, k)
    ensures !Overwrites(s, a, k) ==> Next(s, a).db.runs[k] == s.db.runs[k]
  {
    match a {
      case Prepare(preview, release) => PrepareAppendsOrStays(s.db, preview, release);
      case AdvanceStep(pid) => AdvanceLeavesRecorded(s.db, CommitOf(s, pid), k);
      case _ =>
    }
  }

  lemma AdvanceLeavesRecorded(db: Database, c: Commit, k: nat)
    requires k < |db.runs| && db.runs[k].status.Recorded?
    ensures k < |AdvanceCursor(db, c).0.runs| && AdvanceCursor(db, c).0.runs[k] == db.runs[k]
  {
  }

  // ---------------------------------------------------------------- a run in which it happens

  function Good(value: Token): Text { Text(value, true) }

  const ORDER := RawOrder(
    Good(1), Good(2), Good(3), Buy, Submitted, Some(1.0), Some(0.0), Some(0.0), None, 1, 1)

  const EXPORT := Export([], Good(1), true, Good(1), Good(1), 1, 1, Some(1), Some(ORDER), [], 1)

  const BATCH := Batch(
    [], Good(1), Good(1), Good(1), Good(1), Good(1), Good(1), Good(1), Good(1), Good(1), Good(1), 1,
    Reviewed, Replay, NotContacted, NotApplicable, Complete, Some(0), Some(1), Some(1), Some(0), Some(0), Some(0),
    1, Some(EXPORT))

  const EVIDENCE := PreviewExport(EXPORT, 1, 120)
  const PREVIEW := PreviewBatch(BATCH, 1, 120)

  lemma EvidencePasses()
    ensures EVIDENCE.blockers == [] && EVIDENCE.core == ExportCore(EXPORT)
  {
    var core := ExportCore(EXPORT);
    assert core.fills == [];
    assert Consistent(core.order, [], 1);
    ValidationSoundAndComplete(core.order, [], 1);
    hide Consistent, ValidationBlockers;
  }

  lemma BatchFits()
    ensures IdentityFits(BATCH) && CountsFit(BATCH) && ModeFits(BATCH)
    ensures BATCH.contentBlockers == [] && BATCH.capturedAt == 1 && BATCH.batch.Complete? && BATCH.eventCount == Some(1)
    ensures BatchRuntime(BATCH).cursorPrevious == 0 && BatchRuntime(BATCH).cursorCurrent == 1
    ensures BATCH.runId.value == 1 && BATCH.lifecycle == Some(EXPORT) && BATCH.cursorCurrent == Some(1)
  {
  }

  lemma BatchNamesEvidence()
    ensures ExportCore(EXPORT).scope == BatchScope(BATCH) && ExportCore(EXPORT).capturedAt == BATCH.capturedAt
    ensures ExportCore(EXPORT).accountRef == AccountRefOf(BATCH.account, BATCH.provider.value)
    ensures ExportCore(EXPORT).sequence == 1
  {
  }

  /** What the preview of a ready batch is. */
  lemma ReadyPreview(b: Batch, e: Export, p: CollectorPreview, evidence: LifecyclePreview)
    requires p == PreviewBatch(b, 1, 120) && b.lifecycle == Some(e) && evidence == PreviewExport(e, 1, 120)
    requires Ready(b, Some(evidence))
    ensures FromBatch(p) && p.recordable && p.core.blockers == [] && PreviewIntact(p)
    ensures p.prepared == Some(evidence) && p.runId == b.runId.value && p.core.runtime == BatchRuntime(b)
    ensures p.core.scope == evidence.core.scope
  {
    hide PreviewExport, RecordBlockers, LifecycleBlockers, RuntimeBlockers, Unique;
    ReadyIff(b, 1, 120);
  }

  lemma PreviewPasses()
    ensures FromBatch(PREVIEW) && PREVIEW.recordable && PREVIEW.core.blockers == []
    ensures PREVIEW.prepared == Some(EVIDENCE) && PreviewIntact(PREVIEW) && PREVIEW.runId == 1
    ensures PREVIEW.core.runtime.cursorPrevious == 0 && PREVIEW.core.runtime.cursorCurrent == 1
    ensures PREVIEW.core.scope == EVIDENCE.core.scope
  {
    hide PreviewExport, ExportCore, PreviewBatch, IdentityFits, CountsFit, ModeFits, FromBatch, PreviewIntact, BatchScope,
         AccountRefOf, BatchRuntime;
    EvidencePasses();
    BatchFits();
    BatchNamesEvidence();
    ReadyPreview(BATCH, EXPORT, PREVIEW, EVIDENCE);
  }

  function FirstRun(): Run { Run(1, PREVIEW.core, Prepared, [], None, Some(EVIDENCE)) }
  function FirstRunRecorded(): Run { Run(1, PREVIEW.core, Recorded, [], Some(EVIDENCE.core), None) }
  function FirstRow(): Observation { Observation(EVIDENCE.core, true, []) }
  function FirstStore(): LifecycleStore.Store { Insert(EMPTY_STORE, FirstRow()) }

  /** The first run of an empty database, when nothing blocks it. */
  lemma PrepareFirst(p: CollectorPreview)
    requires PreviewIntact(p) && p.core.blockers == [] && p.core.runtime.cursorPrevious == 0
    ensures PrepareRun(EMPTY_DATABASE, p, []).0
            == Database([Run(p.runId, p.core, Prepared, [], None, p.prepared)], map[], EMPTY_STORE)
  {
  }

  lemma FirstPrepare()
    ensures PrepareRun(EMPTY_DATABASE, PREVIEW, []).0 == Database([FirstRun()], map[], EMPTY_STORE)
  {
    PreviewPasses();
    PrepareFirst(PREVIEW);
  }

  /** The first evidence of an empty store, when it carries no blocker. */
  lemma RecordFirst(run: Run, p: LifecyclePreview)
    requires p.blockers == [] && Intact(p) && DistinctTrades(p.core.fills) && run.prepared == Some(p)
    ensures RecordEvidence(Database([run], map[], EMPTY_STORE), Cleared(run))
            == (Database([run], map[], Insert(EMPTY_STORE, Observation(p.core, true, []))), Evidenced(run, p.core))
  {
    assert TransactionBlockers(EMPTY_STORE, p.core) == [];
    assert p.blockers + TransactionBlockers(EMPTY_STORE, p.core) == [];
  }

  lemma FirstRecord()
    ensures RecordEvidence(Database([FirstRun()], map[], EMPTY_STORE), Cleared(FirstRun()))
            == (Database([FirstRun()], map[], FirstStore()), Evidenced(FirstRun(), EVIDENCE.core))
  {
    EvidenceIsIntact();
    hide RecordEvidence, PreviewExport, PreviewBatch, Intact, Insert;
    RecordFirst(FirstRun(), EVIDENCE);
  }

  lemma EvidenceIsIntact()
    ensures EVIDENCE.blockers == [] && Intact(EVIDENCE) && DistinctTrades(EVIDENCE.core.fills)
  {
    EvidencePasses();
    hide ExportBlockers;
  }

  lemma FirstExpected(db: Database, run: Run, row: Observation)
    requires db.cursors == map[] && db.store.observations == [row]
    requires row.pass && row.core.scope == run.core.scope && row.core.sequence == run.core.runtime.cursorCurrent > 0
    ensures ExpectedPreviousFromRun(db, run) == run.core.runtime.cursorPrevious
  {
  }

  /** The first cursor row of a scope, when the newest evidence is the run's own. */
  lemma AdvanceFirst(db: Database, run: Run, id: EvidenceCore)
    requires db.runs == [run] && run.status.Prepared?
    requires ExpectedPreviousFromRun(db, run) == run.core.runtime.cursorPrevious
    ensures AdvanceCursor(db, Evidenced(run, id)).0.runs == [Run(run.runId, run.core, Recorded, [], Some(id), None)]
  {
  }

  lemma FirstAdvance()
    ensures AdvanceCursor(Database([FirstRun()], map[], FirstStore()), Evidenced(FirstRun(), EVIDENCE.core)).0.runs
            == [FirstRunRecorded()]
  {
    PreviewPasses();
    var db := Database([FirstRun()], map[], FirstStore());
    assert FirstStore().observations == [FirstRow()];
    FirstExpected(db, FirstRun(), FirstRow());
    AdvanceFirst(db, FirstRun(), EVIDENCE.core);
  }

  /** One run prepared, two commits opened; one is cleared, the other refused. */
  function Race(p: CollectorPreview, runId: Token): (r: seq<Action>)
    ensures |r| == 8
  {
    [Prepare(p, [])] + TwoCommits(runId)
  }

  function TwoCommits(runId: Token): seq<Action> {
    [Begin(0, runId), Begin(1, runId), ReleaseCheck(0, []), ReleaseCheck(1, [ReleaseReview(1)]),
     RecordStep(0), AdvanceStep(0), FinalizeStep(1)]
  }

  lemma PlayStep(actions: seq<Action>, n: nat)
    requires n < |actions|
    ensures Play(INITIAL, actions[..n + 1]) == Next(Play(INITIAL, actions[..n]), actions[n])
  {
    assert actions[..n + 1][..n] == actions[..n];
  }

  lemma RaceOpens(p: CollectorPreview, run: Run)
    requires PrepareRun(EMPTY_DATABASE, p, []).0 == Database([run], map[], EMPTY_STORE) && run.status.Prepared?
    ensures var s := Play(INITIAL, Race(p, run.runId)[..5]);
            && s.db == Database([run], map[], EMPTY_STORE)
            && CommitOf(s, 0) == Cleared(run)
            && CommitOf(s, 1).Blocking? && CommitOf(s, 1).run == run
  {
    var race := Race(p, run.runId);
    assert race[..0] == [];
    PlayStep(race, 0);
    PlayStep(race, 1);
    PlayStep(race, 2);
    PlayStep(race, 3);
    PlayStep(race, 4);
    assert RunIndex([run], run.runId) == 0;
  }

  lemma RaceRecords(p: CollectorPreview, run: Run, store: LifecycleStore.Store, id: EvidenceCore)
    requires PrepareRun(EMPTY_DATABASE, p, []).0 == Database([run], map[], EMPTY_STORE) && run.status.Prepared?
    requires RecordEvidence(Database([run], map[], EMPTY_STORE), Cleared(run))
             == (Database([run], map[], store), Evidenced(run, id))
    ensures var s := Play(INITIAL, Race(p, run.runId)[..6]);
            && s.db == Database([run], map[], store)
            && CommitOf(s, 0) == Evidenced(run, id)
            && CommitOf(s, 1).Blocking? && CommitOf(s, 1).run == run
  {
    RaceOpens(p, run);
    PlayStep(Race(p, run.runId), 5);
  }

  lemma RaceAdvances(p: CollectorPreview, run: Run, store: LifecycleStore.Store, id: EvidenceCore, done: Run)
    requires PrepareRun(EMPTY_DATABASE, p, []).0 == Database([run], map[], EMPTY_STORE) && run.status.Prepared?
    requires RecordEvidence(Database([run], map[], EMPTY_STORE), Cleared(run))
             == (Database([run], map[], store), Evidenced(run, id))
    requires AdvanceCursor(Database([run], map[], store), Evidenced(run, id)).0.runs == [done]
    ensures var s := Play(INITIAL, Race(p, run.runId)[..7]);
            s.db.runs == [done] && CommitOf(s, 1).Blocking? && CommitOf(s, 1).run == run
  {
    hide RecordEvidence, PrepareRun, ExpectedPreviousFromRun;
    RaceRecords(p, run, store, id);
    PlayStep(Race(p, run.runId), 6);
  }

  lemma RaceEnds(p: CollectorPreview, runId: Token, done: Run)
    requires var s := Play(INITIAL, Race(p, runId)[..7]);
             s.db.runs == [done] && CommitOf(s, 1).Blocking? && CommitOf(s, 1).run.runId == runId
    requires done.runId == runId
    ensures var runs := Play(INITIAL, Race(p, runId)).db.runs; |runs| == 1 && runs[0].status.BlockedRun?
  {
  }

  lemma RaceIsPossible(p: CollectorPreview, runId: Token)
    requires AllPossible([Prepare(p, [])])
    ensures AllPossible(Race(p, runId))
  {
  }

  lemma OnePossible(p: CollectorPreview)
    requires FromBatch(p)
    ensures AllPossible([Prepare(p, [])])
  {
    hide FromBatch;
    assert Possible(Prepare(p, []));
  }

  /** Two commits of one run race with a release change: the run is recorded, then marked blocked. */
  lemma RecordedIsNotTerminal()
    ensures exists p: CollectorPreview :: AllPossible(Race(p, 1)) && RecordedThenBlocked(Race(p, 1))
  {
    PreviewPasses();
    OnePossible(PREVIEW);
    RaceIsPossible(PREVIEW, 1);
    RaceHappens();
  }

  predicate RecordedThenBlocked(actions: seq<Action>)
    requires |actions| == 8
  {
    var before, after := Play(INITIAL, actions[..7]).db.runs, Play(INITIAL, actions).db.runs;
    |before| == 1 && before[0].status.Recorded? && |after| == 1 && after[0].status.BlockedRun?
  }

  lemma RaceHappens()
    ensures RecordedThenBlocked(Race(PREVIEW, 1))
  {
    FirstPrepare();
    FirstRecord();
    FirstAdvance();
    RaceAdvances(PREVIEW, FirstRun(), FirstStore(), EVIDENCE.core, FirstRunRecorded());
    RaceEnds(PREVIEW, 1, FirstRunRecorded());
  }
}
