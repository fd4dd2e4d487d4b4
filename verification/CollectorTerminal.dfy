/**
 While the release review of a run stays clear, "recorded" is terminal: whatever else happens, a
 commit of the run that is refused was refused for a reason that keeps the run from being recorded
 for good.
 */
module CollectorTerminal {
  import opened LifecycleValues
  import opened LifecyclePreviews
  import opened LifecycleStore
  import opened CollectorPreviews
  import opened Collector
  import opened CollectorInvariant
  import opened CollectorTheorems
  import opened CollectorRace

  // ---------------------------------------------------------------- commits and the run they read

  /** A prepared run carries evidence that the store will not refuse. */
  predicate Carries(run: Run) {
    && run.status.Prepared? && run.prepared.Some? && Intact(run.prepared.value) && Consecutive(run.core)
  }

  predicate RowCarries(row: Run) {
    row.status.Prepared? ==> Carries(row)
  }

  /** The stored run, still as the commit read it, or recorded with the evidence it read. */
  predicate Linked(db: Database, run: Run) {
    var k := RunIndex(db.runs, run.runId);
    && Carries(run) && k >= 0 && db.runs[k].core == run.core
    && (db.runs[k].status.Prepared? ==> db.runs[k] == run)
    && (db.runs[k].status.Recorded? ==> db.runs[k].observationId == Some(run.prepared.value.core))
  }

  predicate CommitLinked(db: Database, c: Commit) {
    !c.Finished? ==> Linked(db, c.run) && (c.Evidenced? ==> c.observationId == c.run.prepared.value.core)
  }

  predicate LinkedInv(s: System) {
    && (forall i :: 0 <= i < |s.db.runs| ==> RowCarries(s.db.runs[i]))
    && (forall pid :: pid in s.commits ==> CommitLinked(s.db, s.commits[pid]))
  }

  /** What one transaction may do to a row: nothing, mark it blocked, or record a prepared one with its
      own evidence. */
  predicate RowMoves(a: Run, b: Run) {
    && b.runId == a.runId && b.core == a.core
    && (b == a || b.status.BlockedRun?
        || (b.status.Recorded? && Carries(a) && b.observationId == Some(a.prepared.value.core)))
  }

  predicate RowsMove(a: Database, b: Database) {
    && |a.runs| <= |b.runs| && DistinctRuns(b.runs)
    && (forall i :: 0 <= i < |a.runs| ==> RowMoves(a.runs[i], b.runs[i]))
    && (forall i :: |a.runs| <= i < |b.runs| ==> RowCarries(b.runs[i]))
  }

  lemma MovesKeepLinked(a: Database, b: Database, run: Run)
    requires RowsMove(a, b) && Linked(a, run)
    ensures Linked(b, run)
  {
    OwnIndex(b.runs, RunIndex(a.runs, run.runId));
  }

  lemma MovesKeepRows(a: Database, b: Database)
    requires RowsMove(a, b) && forall i :: 0 <= i < |a.runs| ==> RowCarries(a.runs[i])
    ensures forall i :: 0 <= i < |b.runs| ==> RowCarries(b.runs[i])
  {
    forall i | 0 <= i < |b.runs| ensures RowCarries(b.runs[i]) {
      if i < |a.runs| {
        assert RowMoves(a.runs[i], b.runs[i]);
      }
    }
  }

  lemma ExportIsIntact(p: LifecyclePreview)
    requires FromExport(p)
    ensures Intact(p)
  {
  }

  lemma NewRunCarries(db: Database, p: CollectorPreview, release: seq<Blocker>)
    requires FromBatch(p) && PreviewIntact(p)
    ensures RowCarries(NewRun(db, p, release))
  {
    if NewRun(db, p, release).status.Prepared? {
      PreparedMeansNoBlocker(db, p, release);
      PreviewedBatchIsBound(p);
      ExportIsIntact(p.prepared.value);
    }
  }

  lemma PrepareMoves(db: Database, p: CollectorPreview, release: seq<Blocker>)
    requires Inv(db) && FromBatch(p)
    ensures RowsMove(db, PrepareRun(db, p, release).0)
  {
    hide FromBatch, PrepareRun, NewRun, Sound, InCursorOrder, RunFits, CursorFits, Carries, Grows;
    PrepareAppendsOrStays(db, p, release);
    PrepareKeepsInv(db, p, release);
    if PreviewIntact(p) {
      NewRunCarries(db, p, release);
    }
  }

  lemma AdvanceMoves(db: Database, c: Commit)
    requires Inv(db) && CommitFits(db, c) && CommitLinked(db, c)
    ensures RowsMove(db, AdvanceCursor(db, c).0)
  {
    hide CommitFits, Sound, InCursorOrder, RunFits, CursorFits, Carries, Grows, ExpectedPreviousFromRun,
         RecordEvidence, FinalizeBlocked;
    CommitStepKeeps(db, c);
  }

  lemma FinalizeMoves(db: Database, c: Commit)
    requires Inv(db) && CommitFits(db, c)
    ensures RowsMove(db, FinalizeBlocked(db, c).0)
  {
    hide CommitFits, Sound, InCursorOrder, RunFits, CursorFits, Carries, Grows, RecordEvidence, AdvanceCursor;
    CommitStepKeeps(db, c);
    if c.Blocking? {
      forall i | 0 <= i < |db.runs| ensures RowMoves(db.runs[i], FinalizeBlocked(db, c).0.runs[i]) {
        FinalizeChanges(db, c, i);
      }
    }
  }

  lemma CommitsFit(s: System, pid: nat)
    requires SystemInv(s) && LinkedInv(s)
    ensures Inv(s.db) && CommitFits(s.db, CommitOf(s, pid)) && CommitLinked(s.db, CommitOf(s, pid))
  {
    hide Inv, Linked;
  }

  /** Steps that touch no row. */
  lemma StaysMoves(s: System, a: Action)
    requires Inv(s.db) && !a.Prepare? && !a.AdvanceStep? && !a.FinalizeStep?
    ensures RowsMove(s.db, Next(s, a).db)
  {
    hide Sound, InCursorOrder, RunFits, CursorFits, Carries, Record;
  }

  lemma NextMoves(s: System, a: Action)
    requires SystemInv(s) && LinkedInv(s) && Possible(a)
    ensures RowsMove(s.db, Next(s, a).db)
  {
    hide SystemInv, LinkedInv, Inv, CommitFits, CommitLinked, RowsMove, PrepareRun, AdvanceCursor, FinalizeBlocked;
    CommitsFit(s, if a.AdvanceStep? || a.FinalizeStep? then a.pid else 0);
    match a {
      case Prepare(preview, release) => PrepareMoves(s.db, preview, release);
      case AdvanceStep(pid) => AdvanceMoves(s.db, CommitOf(s, pid));
      case FinalizeStep(pid) => FinalizeMoves(s.db, CommitOf(s, pid));
      case _ => StaysMoves(s, a);
    }
  }

  // ---------------------------------------------------------------- the link is kept

  lemma OpenIsLinked(db: Database, runId: Token)
    requires forall i :: 0 <= i < |db.runs| ==> RowCarries(db.runs[i])
    ensures CommitLinked(db, OpenRun(db, runId))
  {
  }

  lemma RecordingIsLinked(db: Database, c: Commit)
    requires CommitLinked(db, c)
    ensures CommitLinked(RecordEvidence(db, c).0, RecordEvidence(db, c).1)
  {
  }

  /** What a step may do to the commit of a process. */
  lemma CommitMoves(s: System, a: Action, pid: nat)
    requires pid in Next(s, a).commits
    ensures var c, next := CommitOf(s, pid), Next(s, a).commits[pid];
            || next == c || next.Finished?
            || (c.Finished? && a.Begin? && a.pid == pid && next == OpenRun(s.db, a.runId) && Next(s, a).db == s.db)
            || (c.Opened? && a.ReleaseCheck? && a.pid == pid && next == CheckRelease(c, a.release))
            || (c.Cleared? && a.RecordStep? && a.pid == pid && next.run == c.run
                && (Next(s, a).db, next) == RecordEvidence(s.db, c))
            || (c.Evidenced? && a.AdvanceStep? && a.pid == pid && next.Blocking? && next.run == c.run
                && (Next(s, a).db, next) == AdvanceCursor(s.db, c))
  {
    hide PrepareRun, Record, OpenRun, ExpectedPreviousFromRun;
  }

  /** The commit a step leaves behind. */
  lemma StepIsLinked(s: System, a: Action, pid: nat)
    requires SystemInv(s) && LinkedInv(s) && Possible(a)
    requires pid in Next(s, a).commits
    ensures CommitLinked(Next(s, a).db, Next(s, a).commits[pid])
  {
    hide SystemInv, Inv, CommitFits, RowsMove, Linked, Next, RecordEvidence, AdvanceCursor, OpenRun;
    CommitsFit(s, pid);
    NextMoves(s, a);
    CommitMoves(s, a, pid);
    var c := CommitOf(s, pid);
    if c.Finished? {
      if a.Begin? {
        OpenIsLinked(s.db, a.runId);
      }
    } else {
      MovesKeepLinked(s.db, Next(s, a).db, c.run);
      RecordingIsLinked(s.db, c);
    }
  }

  lemma NextKeepsLinked(s: System, a: Action)
    requires SystemInv(s) && LinkedInv(s) && Possible(a)
    ensures LinkedInv(Next(s, a))
  {
    hide SystemInv, RowsMove, Next, CommitLinked, RowCarries;
    NextMoves(s, a);
    MovesKeepRows(s.db, Next(s, a).db);
    forall pid | pid in Next(s, a).commits ensures CommitLinked(Next(s, a).db, Next(s, a).commits[pid]) {
      StepIsLinked(s, a, pid);
    }
  }

  // ---------------------------------------------------------------- what keeps a run from being recorded

  /** The scope has moved past the run: its expected cursor will never come back. */
  predicate Gone(db: Database, run: Run) {
    if run.core.scope in db.cursors
    then db.cursors[run.core.scope].lastCursor > run.core.runtime.cursorPrevious
    else MaxSequence(db.store.observations, run.core.scope) > run.core.runtime.cursorCurrent
  }

  /** The run's own evidence is stored as failed. */
  predicate Failed(rows: seq<Observation>, id: EvidenceCore) {
    exists i :: 0 <= i < |rows| && rows[i].core == id && !rows[i].pass
  }

  /** The run is not recorded, and never will be. */
  predicate Doomed(db: Database, run: Run)
    requires Linked(db, run)
  {
    var row := db.runs[RunIndex(db.runs, run.runId)];
    && !row.status.Recorded?
    && (row.status.BlockedRun? || Gone(db, run) || Failed(db.store.observations, run.prepared.value.core))
  }

  lemma FailedStays(a: seq<Observation>, b: seq<Observation>, id: EvidenceCore)
    requires a <= b && Failed(a, id)
    ensures Failed(b, id)
  {
    var i :| 0 <= i < |a| && a[i].core == id && !a[i].pass;
    assert b[i] == a[i];
  }

  lemma FailedIsNotPassed(rows: seq<Observation>, id: EvidenceCore)
    requires DistinctIds(rows)
    ensures !(Failed(rows, id) && PassedRow(rows, id))
  {
  }

  /** The cursor row an advance writes lies beyond everything the scope has shown. */
  lemma AdvancedCursor(db: Database, k: nat, id: EvidenceCore)
    requires Inv(db) && k < |db.runs| && db.runs[k].status.Prepared?
    requires db.runs[k].core.runtime.cursorPrevious == ExpectedPreviousFromRun(db, db.runs[k])
    ensures var scope, run := db.runs[k].core.scope, db.runs[k];
            if scope in db.cursors then CursorOf(run) == db.cursors[scope].lastCursor + 1
            else CursorOf(run) >= MaxSequence(db.store.observations, scope)
  {
    assert RunFits(db, db.runs[k]);
  }

  lemma AdvanceKeepsGone(db: Database, c: Commit, run: Run)
    requires Inv(db) && Consecutive(run.core) && Gone(db, run)
    ensures Gone(AdvanceCursor(db, c).0, run)
  {
    if AdvanceCursor(db, c).0 != db {
      AdvancedCursor(db, RunIndex(db.runs, c.run.runId), c.observationId);
    }
  }

  lemma GoneStays(s: System, a: Action, run: Run)
    requires SystemInv(s) && Possible(a) && Consecutive(run.core) && Gone(s.db, run)
    ensures Gone(Next(s, a).db, run)
  {
    if a.AdvanceStep? {
      AdvanceKeepsGone(s.db, CommitOf(s, a.pid), run);
    } else {
      NextKeepsInv(s, a);
      OnlyAdvanceWritesCursors(s, a);
      MaxSequenceGrows(s.db.store.observations, Next(s, a).db.store.observations, run.core.scope);
    }
  }

  lemma OnlyAdvanceRecords(s: System, a: Action, k: nat)
    requires k < |s.db.runs| && k < |Next(s, a).db.runs| && !a.AdvanceStep?
    ensures Next(s, a).db.runs[k].status.Recorded? ==> s.db.runs[k].status.Recorded?
  {
    hide NewRun, Record;
  }

  /** No step records a run that is doomed. */
  lemma DoomedIsNotRecorded(s: System, a: Action, run: Run)
    requires SystemInv(s) && LinkedInv(s) && Possible(a) && Linked(s.db, run) && Doomed(s.db, run)
    ensures Linked(Next(s, a).db, run)
    ensures !Next(s, a).db.runs[RunIndex(Next(s, a).db.runs, run.runId)].status.Recorded?
  {
    hide SystemInv, LinkedInv, Inv, CommitFits, CommitLinked, Gone, Failed, AdvanceCursor, Carries;
    var k := RunIndex(s.db.runs, run.runId);
    NextMoves(s, a);
    MovesKeepLinked(s.db, Next(s, a).db, run);
    OwnIndex(Next(s, a).db.runs, k);
    if a.AdvanceStep? {
      CommitsFit(s, a.pid);
      DoomedIsNotAdvanced(s.db, CommitOf(s, a.pid), run);
    } else {
      OnlyAdvanceRecords(s, a, k);
    }
  }

  lemma DoomedIsNotAdvanced(db: Database, c: Commit, run: Run)
    requires Inv(db) && CommitFits(db, c) && CommitLinked(db, c) && Linked(db, run) && Doomed(db, run)
    ensures var k := RunIndex(db.runs, run.runId);
            k < |AdvanceCursor(db, c).0.runs| && AdvanceCursor(db, c).0.runs[k] == db.runs[k]
  {
    if c.Evidenced? && c.run.runId == run.runId {
      FailedIsNotPassed(db.store.observations, run.prepared.value.core);
    }
  }

  lemma DoomedStays(s: System, a: Action, run: Run)
    requires SystemInv(s) && LinkedInv(s) && Possible(a) && Linked(s.db, run) && Doomed(s.db, run)
    ensures Linked(Next(s, a).db, run) && Doomed(Next(s, a).db, run)
  {
    hide SystemInv, LinkedInv, Next, Gone, Failed;
    var k := RunIndex(s.db.runs, run.runId);
    DoomedIsNotRecorded(s, a, run);
    NextMoves(s, a);
    OwnIndex(Next(s, a).db.runs, k);
    NextKeepsInv(s, a);
    if s.db.runs[k].status.BlockedRun? {
      assert RowMoves(s.db.runs[k], Next(s, a).db.runs[k]);
    } else if Gone(s.db, run) {
      GoneStays(s, a, run);
    } else {
      FailedStays(s.db.store.observations, Next(s, a).db.store.observations, run.prepared.value.core);
    }
  }

  // ---------------------------------------------------------------- how a cleared commit is refused

  /** Refused by the store: the evidence is then stored as failed. */
  lemma RefusedRecordingDooms(db: Database, c: Commit)
    requires Inv(db) && c.Cleared? && CommitLinked(db, c) && RecordEvidence(db, c).1.Blocking?
    ensures Linked(RecordEvidence(db, c).0, c.run) && Doomed(RecordEvidence(db, c).0, c.run)
  {
    var p, k := c.run.prepared.value, RunIndex(db.runs, c.run.runId);
    var (store, outcome) := Record(db.store, p);
    assert outcome.Stored? && !outcome.row.pass && outcome.row in store.observations && outcome.row.core == p.core;
    assert Failed(store.observations, p.core);
    RecordKeepsSound(db.store, p);
    RecordAppends(db.store, p);
    FailedIsNotPassed(store.observations, p.core);
    if db.runs[k].status.Recorded? {
      assert RunFits(db, db.runs[k]);
      GrowthKeepsPassed(db.store.observations, store.observations, p.core);
    }
  }

  /** Refused by the cursor: the scope has then moved past the run. */
  lemma RefusedAdvanceDooms(db: Database, c: Commit)
    requires Inv(db) && c.Evidenced? && CommitLinked(db, c) && AdvanceCursor(db, c).1.Blocking?
    ensures AdvanceCursor(db, c).0 == db && Doomed(db, c.run)
  {
    assert RunFits(db, db.runs[RunIndex(db.runs, c.run.runId)]);
  }

  // ---------------------------------------------------------------- whole runs

  /** Every refused commit of the run in flight was refused for good. */
  predicate RefusedIsDoomed(s: System, runId: Token)
    requires LinkedInv(s)
  {
    forall pid :: pid in s.commits && s.commits[pid].Blocking? && s.commits[pid].run.runId == runId ==>
      Doomed(s.db, s.commits[pid].run)
  }

  /** The action is no refusal of the run by the release review. */
  predicate ReleaseStaysClear(s: System, a: Action, runId: Token) {
    a.ReleaseCheck? && CommitOf(s, a.pid).Opened? && CommitOf(s, a.pid).run.runId == runId ==> a.release == []
  }

  predicate AlwaysClear(actions: seq<Action>, runId: Token) {
    actions == []
    || (AlwaysClear(actions[..|actions| - 1], runId)
        && ReleaseStaysClear(Play(INITIAL, actions[..|actions| - 1]), actions[|actions| - 1], runId))
  }

  lemma OpensNothingRefused(db: Database, runId: Token)
    ensures !OpenRun(db, runId).Blocking?
  {
  }

  lemma StepIsDoomed(s: System, a: Action, runId: Token, pid: nat)
    requires SystemInv(s) && LinkedInv(s) && Possible(a) && RefusedIsDoomed(s, runId)
    requires ReleaseStaysClear(s, a, runId) && LinkedInv(Next(s, a))
    requires pid in Next(s, a).commits && Next(s, a).commits[pid].Blocking? && Next(s, a).commits[pid].run.runId == runId
    ensures Doomed(Next(s, a).db, Next(s, a).commits[pid].run)
  {
    hide SystemInv, Inv, CommitFits, Next, Linked, Doomed, RecordEvidence, AdvanceCursor, OpenRun;
    var c := CommitOf(s, pid);
    CommitsFit(s, pid);
    CommitMoves(s, a, pid);
    if c.Blocking? {
      DoomedStays(s, a, c.run);
    } else if c.Cleared? {
      RefusedRecordingDooms(s.db, c);
    } else if c.Evidenced? {
      RefusedAdvanceDooms(s.db, c);
    } else if c.Finished? && a.Begin? {
      OpensNothingRefused(s.db, a.runId);
    }
  }

  lemma StepKeepsRefusals(s: System, a: Action, runId: Token)
    requires SystemInv(s) && LinkedInv(s) && RefusedIsDoomed(s, runId)
    requires Possible(a) && ReleaseStaysClear(s, a, runId)
    ensures LinkedInv(Next(s, a)) && RefusedIsDoomed(Next(s, a), runId)
  {
    hide SystemInv, Next, Linked, Doomed;
    NextKeepsLinked(s, a);
    forall pid | pid in Next(s, a).commits && Next(s, a).commits[pid].Blocking? && Next(s, a).commits[pid].run.runId == runId
      ensures Doomed(Next(s, a).db, Next(s, a).commits[pid].run)
    {
      StepIsDoomed(s, a, runId, pid);
    }
  }

  lemma {:induction false} EveryRefusalIsForGood(actions: seq<Action>, runId: Token)
    requires AllPossible(actions) && AlwaysClear(actions, runId)
    ensures SystemInv(Play(INITIAL, actions)) && LinkedInv(Play(INITIAL, actions))
    ensures RefusedIsDoomed(Play(INITIAL, actions), runId)
  {
    EveryRunKeepsInv(actions);
    if actions != [] {
      hide SystemInv, LinkedInv, RefusedIsDoomed, Next, ReleaseStaysClear;
      var front, a := actions[..|actions| - 1], actions[|actions| - 1];
      EveryRefusalIsForGood(front, runId);
      StepKeepsRefusals(Play(INITIAL, front), a, runId);
    }
  }

  predicate IsRecorded(db: Database, runId: Token) {
    var k := RunIndex(db.runs, runId);
    k >= 0 && db.runs[k].status.Recorded?
  }

  function RowOf(db: Database, runId: Token): Run
    requires IsRecorded(db, runId)
  {
    db.runs[RunIndex(db.runs, runId)]
  }

  lemma StepKeepsRecorded(s: System, a: Action, runId: Token)
    requires SystemInv(s) && LinkedInv(s) && RefusedIsDoomed(s, runId) && Possible(a) && IsRecorded(s.db, runId)
    ensures IsRecorded(Next(s, a).db, runId)
    ensures RowOf(Next(s, a).db, runId) == RowOf(s.db, runId)
  {
    hide SystemInv, Next, Inv, CommitFits, Carries;
    var k := RunIndex(s.db.runs, runId);
    RecordedStaysUnlessOverwritten(s, a, k);
    NextMoves(s, a);
    OwnIndex(Next(s, a).db.runs, k);
    RecordedIsNotRefused(s, runId, if a.FinalizeStep? then a.pid else 0);
  }

  lemma RecordedIsNotRefused(s: System, runId: Token, pid: nat)
    requires LinkedInv(s) && RefusedIsDoomed(s, runId) && IsRecorded(s.db, runId)
    ensures !(CommitOf(s, pid).Blocking? && CommitOf(s, pid).run.runId == runId)
  {
    hide Carries, Gone, Failed;
  }

  lemma LastStepKeepsRecorded(actions: seq<Action>, runId: Token)
    requires actions != [] && AllPossible(actions) && AlwaysClear(actions, runId)
    requires IsRecorded(Play(INITIAL, actions[..|actions| - 1]).db, runId)
    ensures IsRecorded(Play(INITIAL, actions).db, runId)
    ensures RowOf(Play(INITIAL, actions).db, runId) == RowOf(Play(INITIAL, actions[..|actions| - 1]).db, runId)
  {
    hide Next, LinkedInv, RefusedIsDoomed, SystemInv, IsRecorded, ReleaseStaysClear;
    EveryRefusalIsForGood(actions[..|actions| - 1], runId);
    StepKeepsRecorded(Play(INITIAL, actions[..|actions| - 1]), actions[|actions| - 1], runId);
  }

  /** Over every interleaving of prepares, commits, external records and crashes: once a run is recorded
      its row never changes again, as long as no release check of its commits is ever refused. */
  lemma {:induction false} RecordedIsTerminal(actions: seq<Action>, n: nat, runId: Token)
    requires n <= |actions| && AllPossible(actions) && AlwaysClear(actions, runId)
    requires IsRecorded(Play(INITIAL, actions[..n]).db, runId)
    ensures IsRecorded(Play(INITIAL, actions).db, runId)
    ensures RowOf(Play(INITIAL, actions).db, runId) == RowOf(Play(INITIAL, actions[..n]).db, runId)
  {
    hide Next, Possible, IsRecorded, ReleaseStaysClear;
    if n == |actions| {
      assert actions[..n] == actions;
    } else {
      var front := actions[..|actions| - 1];
      assert front[..n] == actions[..n];
      RecordedIsTerminal(front, n, runId);
      LastStepKeepsRecorded(actions, runId);
    }
  }
}
