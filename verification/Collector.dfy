/**
 The transactions of the two-phase collector, each one atomic step on the database:
 `prepare` persists a run; a commit opens a run, checks the release, records its evidence through
 the observation store, then advances the cursor or marks the run blocked.
 */
module Collector {
  import opened LifecycleValues
  import opened LifecyclePreviews
  import opened LifecycleStore
  import opened CollectorPreviews

  datatype RunStatus = Prepared | Recorded | Duplicate | BlockedRun

  datatype Run = Run(
    runId: Token, core: CollectorCore, status: RunStatus, blockers: seq<Blocker>,
    observationId: Option<EvidenceCore>, prepared: Option<LifecyclePreview>)

  /** The cursor row of a scope, written only by the advancing transaction. */
  datatype Cursor = Cursor(
    deployment: Deployment, releaseStatus: ReleaseStatus, scope: Scope, accountRef: AccountRef,
    lastCursor: nat, lastRunId: Token, lastBatchFingerprint: (Token, CollectorCore),
    lastObservationId: EvidenceCore)

  datatype Database = Database(runs: seq<Run>, cursors: map<Scope, Cursor>, store: Store)

  const EMPTY_DATABASE := Database([], map[], EMPTY_STORE)

  // ---------------------------------------------------------------- queries

  /** Index of the run with this id, or -1. */
  function RunIndex(runs: seq<Run>, runId: Token): (r: int)
    ensures -1 <= r < |runs|
    ensures r >= 0 ==> runs[r].runId == runId
    ensures r < 0 ==> forall i :: 0 <= i < |runs| ==> runs[i].runId != runId
  {
    if runs == [] then -1
    else if runs[|runs| - 1].runId == runId then |runs| - 1
    else RunIndex(runs[..|runs| - 1], runId)
  }

  predicate AtCursor(run: Run, scope: Scope, cursor: nat) {
    run.core.scope == scope && run.core.runtime.cursorCurrent == cursor
  }

  /** Newest recorded or duplicate run of a scope at a cursor. */
  function PriorAtCursor(runs: seq<Run>, scope: Scope, cursor: nat): (r: Option<Run>)
    ensures r.None? <==> forall i :: 0 <= i < |runs| && AtCursor(runs[i], scope, cursor) ==>
                           !runs[i].status.Recorded? && !runs[i].status.Duplicate?
    ensures r.Some? ==> r.value in runs && AtCursor(r.value, scope, cursor)
  {
    if runs == [] then None
    else
      var last := runs[|runs| - 1];
      if AtCursor(last, scope, cursor) && (last.status.Recorded? || last.status.Duplicate?)
      then Some(last)
      else PriorAtCursor(runs[..|runs| - 1], scope, cursor)
  }

  predicate Claimed(runs: seq<Run>, scope: Scope, cursor: nat) {
    exists i :: 0 <= i < |runs| && AtCursor(runs[i], scope, cursor) && runs[i].status.Prepared?
  }

  /** Where the next batch of a scope has to start. */
  function ExpectedPrevious(db: Database, scope: Scope): nat {
    if scope in db.cursors then db.cursors[scope].lastCursor
    else MaxSequence(db.store.observations, scope)
  }

  /** The same question asked by a commit: before the first cursor row, the run's own evidence may
      already be the newest (a replay after a crash). */
  function ExpectedPreviousFromRun(db: Database, run: Run): nat {
    if run.core.scope in db.cursors then db.cursors[run.core.scope].lastCursor
    else
      var latest := MaxSequence(db.store.observations, run.core.scope);
      if latest == run.core.runtime.cursorCurrent then run.core.runtime.cursorPrevious else latest
  }

  // ---------------------------------------------------------------- prepare

  datatype PrepareOutcome = PrepareRefused(blockers: seq<Blocker>) | Answer(run: Run, reused: bool)

  predicate PreviewIntact(p: CollectorPreview) {
    && p.contractsHold && p.recordable
    && p.batchFingerprint == (p.runId, p.core) && p.evidenceFingerprint == p.core
  }

  /** The fields of a deployment that must not change, in the order they are compared. */
  function Fields(d: Deployment): (r: seq<Token>)
    ensures |r| == 6
  {
    [d.collectorId, d.deploymentId, d.version, d.fingerprint, d.releaseRef, d.authorizationRef]
  }

  function ChangedFields(had: seq<Token>, has: seq<Token>, n: nat): seq<Blocker>
    requires n <= |had| == |has|
  {
    if n == 0 then []
    else ChangedFields(had, has, n - 1) + When(had[n - 1] != has[n - 1], CollectorFieldChanged(n - 1))
  }

  function CursorRowBlockers(cursor: Cursor, core: CollectorCore): seq<Blocker> {
    When(cursor.accountRef != core.accountRef, CollectorAccountChanged)
    + ChangedFields(Fields(cursor.deployment), Fields(core.deployment), 6)
  }

  function OrderingBlockers(db: Database, core: CollectorCore, prior: Option<Run>): seq<Blocker> {
    var expected := ExpectedPrevious(db, core.scope);
    if prior.Some? then When(prior.value.core != core, CursorEvidenceConflict)
    else if core.runtime.cursorPrevious < expected then [CursorOutOfOrder]
    else When(core.runtime.cursorPrevious > expected, CursorGap)
  }

  function PrepareBlockers(db: Database, core: CollectorCore, release: seq<Blocker>, prior: Option<Run>)
    : seq<Blocker>
  {
    core.blockers + release
    + (if core.scope in db.cursors then CursorRowBlockers(db.cursors[core.scope], core) else [])
    + OrderingBlockers(db, core, prior)
    + When(Claimed(db.runs, core.scope, core.runtime.cursorCurrent), CursorAlreadyPrepared)
  }

  function NewRun(db: Database, p: CollectorPreview, release: seq<Blocker>): Run {
    var prior := PriorAtCursor(db.runs, p.core.scope, p.core.runtime.cursorCurrent);
    var blockers := Unique(PrepareBlockers(db, p.core, release, prior));
    var same := prior.Some? && prior.value.core == p.core;
    var status := if blockers != [] then BlockedRun else if same then Duplicate else Prepared;
    Run(p.runId, p.core, status, blockers, if same then prior.value.observationId else None,
        if status == Prepared then p.prepared else None)
  }

  function PrepareRun(db: Database, p: CollectorPreview, release: seq<Blocker>)
    : (Database, PrepareOutcome)
  {
    if !PreviewIntact(p) then (db, PrepareRefused([PreviewIntegrity]))
    else
      var k := RunIndex(db.runs, p.runId);
      if k >= 0 then
        if db.runs[k].core != p.core then (db, PrepareRefused([RunIdConflict]))
        else (db, Answer(db.runs[k], true))
      else
        var run := NewRun(db, p, release);
        (db.(runs := db.runs + [run]), Answer(run, false))
  }

  // ---------------------------------------------------------------- commit

  /** How far one commit has got.  Every phase keeps the row it read when it opened the run. */
  datatype Commit =
    | Opened(run: Run)
    | Cleared(run: Run)
    | Evidenced(run: Run, observationId: EvidenceCore)
    | Blocking(run: Run, blockers: seq<Blocker>, blockedBy: Option<EvidenceCore>)
    | Finished

  function OpenRun(db: Database, runId: Token): Commit {
    var k := RunIndex(db.runs, runId);
    if k >= 0 && db.runs[k].status.Prepared? then Opened(db.runs[k]) else Finished
  }

  function CheckRelease(c: Commit, release: seq<Blocker>): Commit {
    if !c.Opened? then c
    else if release == [] then Cleared(c.run)
    else Blocking(c.run, [ReleaseReviewBlocked] + release, None)
  }

  function RecordEvidence(db: Database, c: Commit): (Database, Commit) {
    if !c.Cleared? then (db, c)
    else if c.run.prepared.None? then (db, Blocking(c.run, [RecordRejected, PreviewIntegrity], None))
    else
      var (store, outcome) := Record(db.store, c.run.prepared.value);
      var phase := match outcome
        case RecordRefused(blockers) => Blocking(c.run, [RecordRejected] + blockers, None)
        case ConstraintViolated => Finished
        case Stored(row, _) =>
          if row.pass then Evidenced(c.run, row.core)
          else Blocking(c.run, [EvidenceBlocked] + row.blockers, Some(row.core));
      (db.(store := store), phase)
  }

  function CursorFor(run: Run, observationId: EvidenceCore): Cursor {
    Cursor(run.core.deployment, run.core.releaseStatus, run.core.scope, run.core.accountRef,
           run.core.runtime.cursorCurrent, run.runId, (run.runId, run.core), observationId)
  }

  function Advanced(db: Database, k: nat, observationId: EvidenceCore): Database
    requires k < |db.runs|
  {
    var run := db.runs[k];
    Database(
      db.runs[k := Run(run.runId, run.core, Recorded, [], Some(observationId), None)],
      db.cursors[run.core.scope := CursorFor(run, observationId)],
      db.store)
  }

  function AdvanceCursor(db: Database, c: Commit): (Database, Commit) {
    if !c.Evidenced? then (db, c)
    else
      var k := RunIndex(db.runs, c.run.runId);
      if k < 0 || !db.runs[k].status.Prepared? then (db, Finished)
      else if db.runs[k].core.runtime.cursorPrevious != ExpectedPreviousFromRun(db, db.runs[k]) then
        (db, Blocking(c.run, [CursorChangedDuringCommit], Some(c.observationId)))
      else (Advanced(db, k, c.observationId), Finished)
  }

  /** The UPDATE of `_finalize_blocked`: it does not look at the status the run has by now. */
  function FinalizeBlocked(db: Database, c: Commit): (Database, Commit) {
    if !c.Blocking? then (db, c)
    else
      var k := RunIndex(db.runs, c.run.runId);
      if k < 0 then (db, Finished)
      else
        var run := Run(c.run.runId, db.runs[k].core, BlockedRun, Unique(c.blockers), c.blockedBy, None);
        (db.(runs := db.runs[k := run]), Finished)
  }

  /** A commit that nothing interrupts. */
  function CommitPrepared(db: Database, runId: Token, release: seq<Blocker>): Database {
    var (db1, c1) := RecordEvidence(db, CheckRelease(OpenRun(db, runId), release));
    var (db2, c2) := AdvanceCursor(db1, c1);
    FinalizeBlocked(db2, c2).0
  }

  /** `ingest`: prepare, then commit what was prepared. */
  function Ingest(db: Database, p: CollectorPreview, release: seq<Blocker>, recheck: seq<Blocker>): Database {
    var (prepared, answer) := PrepareRun(db, p, release);
    if answer.Answer? && answer.run.status.Prepared?
    then CommitPrepared(prepared, answer.run.runId, recheck)
    else prepared
  }

  // ---------------------------------------------------------------- interleavings

  /** A database and the commits in flight on it, by process. */
  datatype System = System(db: Database, commits: map<nat, Commit>)

  const INITIAL := System(EMPTY_DATABASE, map[])

  datatype Action =
    | Prepare(preview: CollectorPreview, release: seq<Blocker>)
    | ExternalRecord(evidence: LifecyclePreview)
    | Begin(pid: nat, runId: Token)
    | ReleaseCheck(pid: nat, release: seq<Blocker>)
    | RecordStep(pid: nat)
    | AdvanceStep(pid: nat)
    | FinalizeStep(pid: nat)
    | Crash(pid: nat)

  /** Previews come from the preview functions; nothing else is assumed about an action. */
  ghost predicate Possible(a: Action) {
    match a
    case Prepare(preview, _) => FromBatch(preview)
    case ExternalRecord(evidence) => FromExport(evidence)
    case _ => true
  }

  function CommitOf(s: System, pid: nat): Commit {
    if pid in s.commits then s.commits[pid] else Finished
  }

  function After(s: System, pid: nat, result: (Database, Commit)): System {
    System(result.0, s.commits[pid := result.1])
  }

  function Next(s: System, a: Action): System {
    match a
    case Prepare(preview, release) => s.(db := PrepareRun(s.db, preview, release).0)
    case ExternalRecord(evidence) => s.(db := s.db.(store := Record(s.db.store, evidence).0))
    case Begin(pid, runId) =>
      if CommitOf(s, pid).Finished? then After(s, pid, (s.db, OpenRun(s.db, runId))) else s
    case ReleaseCheck(pid, release) => After(s, pid, (s.db, CheckRelease(CommitOf(s, pid), release)))
    case RecordStep(pid) => After(s, pid, RecordEvidence(s.db, CommitOf(s, pid)))
    case AdvanceStep(pid) => After(s, pid, AdvanceCursor(s.db, CommitOf(s, pid)))
    case FinalizeStep(pid) => After(s, pid, FinalizeBlocked(s.db, CommitOf(s, pid)))
    case Crash(pid) => After(s, pid, (s.db, Finished))
  }

  function Play(s: System, actions: seq<Action>): System {
    if actions == [] then s
    else Next(Play(s, actions[..|actions| - 1]), actions[|actions| - 1])
  }

  ghost predicate AllPossible(actions: seq<Action>) {
    forall i :: 0 <= i < |actions| ==> Possible(actions[i])
  }
}
