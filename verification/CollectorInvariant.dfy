/**
 What every reachable database keeps, under any interleaving of prepares, commits, external
 records, release changes and crashes.
 */
module CollectorInvariant {
  import opened LifecycleValues
  import opened LifecyclePreviews
  import opened LifecycleStore
  import opened CollectorPreviews
  import opened Collector

  function CursorOf(run: Run): nat { run.core.runtime.cursorCurrent }

  /** The run the cursor row of its scope was written for. */
  predicate IsLast(db: Database, run: Run) {
    run.core.scope in db.cursors && db.cursors[run.core.scope].lastRunId == run.runId
  }

  /** Runs whose position in the cursor order is settled. */
  predicate Placed(db: Database, run: Run) {
    run.status.Prepared? || run.status.Recorded? || IsLast(db, run)
  }

  predicate DistinctRuns(runs: seq<Run>) {
    forall i, j :: 0 <= i < j < |runs| ==> runs[i].runId != runs[j].runId
  }

  lemma OwnIndex(runs: seq<Run>, k: nat)
    requires DistinctRuns(runs) && k < |runs|
    ensures RunIndex(runs, runs[k].runId) == k
  {
  }

  /** Ids, cursors and commits stay in the same order. */
  predicate InCursorOrder(db: Database) {
    forall i, j :: 0 <= i < j < |db.runs| && db.runs[i].core.scope == db.runs[j].core.scope
                   && Placed(db, db.runs[i]) && Placed(db, db.runs[j]) ==>
      CursorOf(db.runs[i]) < CursorOf(db.runs[j])
  }

  predicate RunFits(db: Database, run: Run) {
    && (run.status.Prepared? ==>
          && Consecutive(run.core) && Bound(run.core, run.prepared)
          && run.core.runtime.cursorPrevious <= ExpectedPrevious(db, run.core.scope))
    && (run.status.Recorded? ==>
          && run.core.scope in db.cursors
          && CursorOf(run) <= db.cursors[run.core.scope].lastCursor
          && run.observationId.Some?
          && Evidence(db.store, run, run.observationId.value))
  }

  /** A passed observation of the run's own scope whose sequence is the run's cursor. */
  predicate Evidence(store: Store, run: Run, id: EvidenceCore) {
    && id.scope == run.core.scope && id.sequence == CursorOf(run)
    && PassedRow(store.observations, id)
  }

  predicate PassedRow(rows: seq<Observation>, id: EvidenceCore) {
    exists i :: 0 <= i < |rows| && rows[i].core == id && rows[i].pass
  }

  predicate CursorFits(db: Database, scope: Scope)
    requires scope in db.cursors
  {
    exists k :: 0 <= k < |db.runs| && CursorFrom(db.cursors[scope], db.runs[k], scope)
  }

  predicate CursorFrom(cursor: Cursor, run: Run, scope: Scope) {
    && run.core.scope == scope
    && (run.status.Recorded? || run.status.BlockedRun?)
    && cursor == CursorFor(run, cursor.lastObservationId)
  }

  predicate Inv(db: Database) {
    && Sound(db.store)
    && DistinctRuns(db.runs)
    && InCursorOrder(db)
    && (forall i :: 0 <= i < |db.runs| ==> RunFits(db, db.runs[i]))
    && (forall scope :: scope in db.cursors ==> CursorFits(db, scope))
  }

  /** A commit in flight still talks about a stored run, with the core it read. */
  predicate Known(db: Database, run: Run) {
    exists k :: 0 <= k < |db.runs| && db.runs[k].runId == run.runId && db.runs[k].core == run.core
                && !db.runs[k].status.Duplicate?
  }

  predicate CommitFits(db: Database, c: Commit) {
    match c
    case Opened(run) => Known(db, run) && Bound(run.core, run.prepared)
    case Cleared(run) => Known(db, run) && Bound(run.core, run.prepared)
    case Evidenced(run, id) => Known(db, run) && Evidence(db.store, run, id)
    case Blocking(run, _, _) => Known(db, run)
    case Finished => true
  }

  predicate SystemInv(s: System) {
    Inv(s.db) && forall pid :: pid in s.commits ==> CommitFits(s.db, s.commits[pid])
  }

  // ---------------------------------------------------------------- growth

  /** What no transaction undoes: rows stay, cores stay, passed observations stay passed, and a run
      that is not a duplicate never becomes one. */
  predicate Grows(a: Database, b: Database) {
    && |a.runs| <= |b.runs|
    && (forall i :: 0 <= i < |a.runs| ==>
          && a.runs[i].runId == b.runs[i].runId && a.runs[i].core == b.runs[i].core
          && (!a.runs[i].status.Duplicate? ==> !b.runs[i].status.Duplicate?))
    && a.store.observations <= b.store.observations
  }

  lemma GrowthKeepsCommits(a: Database, b: Database, c: Commit)
    requires Grows(a, b) && CommitFits(a, c)
    ensures CommitFits(b, c)
  {
  }

  lemma GrowthKeepsPassed(a: seq<Observation>, b: seq<Observation>, id: EvidenceCore)
    requires a <= b && PassedRow(a, id)
    ensures PassedRow(b, id)
  {
  }

  lemma {:induction false} MaxSequenceGrows(a: seq<Observation>, b: seq<Observation>, scope: Scope)
    requires a <= b
    ensures MaxSequence(a, scope) <= MaxSequence(b, scope)
  {
  }

  // ---------------------------------------------------------------- the store moves

  lemma RecordAppends(store: Store, p: LifecyclePreview)
    ensures store.observations <= Record(store, p).0.observations
  {
  }

  lemma StoreStepKeepsInv(db: Database, p: LifecyclePreview)
    requires Inv(db)
    ensures var next := db.(store := Record(db.store, p).0); Inv(next) && Grows(db, next)
  {
    var next := db.(store := Record(db.store, p).0);
    RecordKeepsSound(db.store, p);
    RecordAppends(db.store, p);
    forall i | 0 <= i < |next.runs| ensures RunFits(next, next.runs[i]) {
      var run := db.runs[i];
      assert RunFits(db, run);
      MaxSequenceGrows(db.store.observations, next.store.observations, run.core.scope);
      if run.status.Recorded? {
        GrowthKeepsPassed(db.store.observations, next.store.observations, run.observationId.value);
      }
    }
    assert forall i :: 0 <= i < |db.runs| ==> (Placed(next, db.runs[i]) <==> Placed(db, db.runs[i]));
    forall scope | scope in next.cursors ensures CursorFits(next, scope) {
      assert CursorFits(db, scope);
    }
  }

  /** A commit that stored a passing row holds evidence for its run. */
  lemma RecordGivesEvidence(db: Database, c: Commit)
    requires CommitFits(db, c) && c.Cleared? && RecordEvidence(db, c).1.Evidenced?
    ensures CommitFits(RecordEvidence(db, c).0, RecordEvidence(db, c).1)
  {
    var (next, phase) := RecordEvidence(db, c);
    var p := c.run.prepared.value;
    var (store, outcome) := Record(db.store, p);
    assert outcome.row.core == p.core;
    assert outcome.row in store.observations;
    assert PassedRow(store.observations, p.core);
    var k :| 0 <= k < |db.runs| && db.runs[k].runId == c.run.runId && db.runs[k].core == c.run.core
             && !db.runs[k].status.Duplicate?;
    assert next.runs[k] == db.runs[k];
  }

  // ---------------------------------------------------------------- a run is prepared

  lemma PreparedRunComesLast(db: Database, p: CollectorPreview, release: seq<Blocker>, i: nat)
    requires Inv(db) && i < |db.runs|
    requires PreviewIntact(p) && Consecutive(p.core) && NewRun(db, p, release).status.Prepared?
    requires db.runs[i].core.scope == p.core.scope && Placed(db, db.runs[i])
    ensures CursorOf(db.runs[i]) < p.core.runtime.cursorCurrent
  {
    var run := db.runs[i];
    var prior := PriorAtCursor(db.runs, p.core.scope, p.core.runtime.cursorCurrent);
    PreparedMeansNoBlocker(db, p, release);
    assert RunFits(db, run);
    if run.status.Prepared? {
      assert !AtCursor(run, p.core.scope, p.core.runtime.cursorCurrent);
    } else if IsLast(db, run) {
      LastRunHasLastCursor(db, i);
    }
  }

  lemma PreparedMeansNoBlocker(db: Database, p: CollectorPreview, release: seq<Blocker>)
    requires NewRun(db, p, release).status.Prepared?
    ensures p.core.blockers == [] && release == []
    ensures p.core.runtime.cursorPrevious == ExpectedPrevious(db, p.core.scope)
    ensures !Claimed(db.runs, p.core.scope, p.core.runtime.cursorCurrent)
    ensures PriorAtCursor(db.runs, p.core.scope, p.core.runtime.cursorCurrent).None?
  {
    var prior := PriorAtCursor(db.runs, p.core.scope, p.core.runtime.cursorCurrent);
    assert PrepareBlockers(db, p.core, release, prior) == [];
    assert OrderingBlockers(db, p.core, prior) == [];
  }

  /** The cursor row and the run it names agree. */
  lemma LastRunHasLastCursor(db: Database, i: nat)
    requires DistinctRuns(db.runs) && i < |db.runs| && IsLast(db, db.runs[i])
    requires CursorFits(db, db.runs[i].core.scope)
    ensures CursorFrom(db.cursors[db.runs[i].core.scope], db.runs[i], db.runs[i].core.scope)
  {
  }

  lemma AppendKeepsCursorRows(db: Database, run: Run)
    requires Inv(db) && (forall i :: 0 <= i < |db.runs| ==> db.runs[i].runId != run.runId)
    ensures var next := db.(runs := db.runs + [run]);
            forall scope :: scope in next.cursors ==>
              CursorFits(next, scope) && next.cursors[scope].lastRunId != run.runId
  {
    var next := db.(runs := db.runs + [run]);
    forall scope | scope in next.cursors
      ensures CursorFits(next, scope) && next.cursors[scope].lastRunId != run.runId
    {
      assert CursorFits(db, scope);
      var k :| 0 <= k < |db.runs| && CursorFrom(db.cursors[scope], db.runs[k], scope);
      assert CursorFrom(next.cursors[scope], next.runs[k], scope);
    }
  }

  predicate ComesLast(db: Database, run: Run) {
    forall i :: 0 <= i < |db.runs| && db.runs[i].core.scope == run.core.scope && Placed(db, db.runs[i]) ==>
      CursorOf(db.runs[i]) < CursorOf(run)
  }

  lemma AppendKeepsOrder(db: Database, run: Run)
    requires Inv(db) && (forall i :: 0 <= i < |db.runs| ==> db.runs[i].runId != run.runId)
    requires Placed(db, run) ==> ComesLast(db, run)
    ensures InCursorOrder(db.(runs := db.runs + [run])) && DistinctRuns(db.runs + [run])
  {
  }

  lemma NewRunFits(db: Database, p: CollectorPreview, release: seq<Blocker>)
    requires PreviewIntact(p) && FromBatch(p)
    ensures RunFits(db, NewRun(db, p, release))
    ensures NewRun(db, p, release).status.Prepared? ==> Consecutive(p.core)
  {
  }

  lemma AppendKeepsInv(db: Database, run: Run)
    requires Inv(db) && (forall i :: 0 <= i < |db.runs| ==> db.runs[i].runId != run.runId)
    requires RunFits(db, run) && (Placed(db, run) ==> ComesLast(db, run))
    ensures var next := db.(runs := db.runs + [run]); Inv(next) && Grows(db, next)
  {
    var next := db.(runs := db.runs + [run]);
    AppendKeepsCursorRows(db, run);
    AppendKeepsOrder(db, run);
    forall i | 0 <= i < |next.runs| ensures RunFits(next, next.runs[i]) {
      assert i < |db.runs| ==> RunFits(db, db.runs[i]);
    }
  }

  lemma FreshRunIsPlacedByStatus(db: Database, run: Run)
    requires Inv(db) && (forall i :: 0 <= i < |db.runs| ==> db.runs[i].runId != run.runId)
    ensures Placed(db, run) <==> run.status.Prepared? || run.status.Recorded?
  {
  }

  lemma NewRunComesLast(db: Database, p: CollectorPreview, release: seq<Blocker>)
    requires Inv(db) && FromBatch(p) && PreviewIntact(p) && NewRun(db, p, release).status.Prepared?
    ensures ComesLast(db, NewRun(db, p, release))
  {
    NewRunFits(db, p, release);
    forall i | 0 <= i < |db.runs| && db.runs[i].core.scope == p.core.scope && Placed(db, db.runs[i])
      ensures CursorOf(db.runs[i]) < p.core.runtime.cursorCurrent
    {
      PreparedRunComesLast(db, p, release, i);
    }
  }

  lemma NewRunKeepsInv(db: Database, p: CollectorPreview, release: seq<Blocker>)
    requires Inv(db) && FromBatch(p) && PreviewIntact(p) && RunIndex(db.runs, p.runId) < 0
    ensures var next := db.(runs := db.runs + [NewRun(db, p, release)]); Inv(next) && Grows(db, next)
  {
    var run := NewRun(db, p, release);
    FreshRunIsPlacedByStatus(db, run);
    NewRunFits(db, p, release);
    if run.status.Prepared? {
      NewRunComesLast(db, p, release);
    }
    AppendKeepsInv(db, run);
  }

  lemma PrepareKeepsInv(db: Database, p: CollectorPreview, release: seq<Blocker>)
    requires Inv(db) && FromBatch(p)
    ensures var next := PrepareRun(db, p, release).0; Inv(next) && Grows(db, next)
  {
    PrepareAppendsOrStays(db, p, release);
    if PreviewIntact(p) && RunIndex(db.runs, p.runId) < 0 {
      NewRunKeepsInv(db, p, release);
    }
  }

  lemma PrepareAppendsOrStays(db: Database, p: CollectorPreview, release: seq<Blocker>)
    ensures PrepareRun(db, p, release).0
            == if PreviewIntact(p) && RunIndex(db.runs, p.runId) < 0
               then db.(runs := db.runs + [NewRun(db, p, release)]) else db
  {
  }

  // ---------------------------------------------------------------- the cursor advances

  lemma AdvanceKeepsRunFits(db: Database, k: nat, id: EvidenceCore, i: nat)
    requires Inv(db) && k < |db.runs| && i < |db.runs|
    requires db.runs[k].status.Prepared? && Evidence(db.store, db.runs[k], id)
    requires db.runs[k].core.runtime.cursorPrevious == ExpectedPreviousFromRun(db, db.runs[k])
    ensures RunFits(Advanced(db, k, id), Advanced(db, k, id).runs[i])
  {
  }

  lemma AdvanceKeepsCursorFits(db: Database, k: nat, id: EvidenceCore, scope: Scope)
    requires Inv(db) && k < |db.runs| && db.runs[k].status.Prepared?
    requires scope in Advanced(db, k, id).cursors
    ensures CursorFits(Advanced(db, k, id), scope)
  {
    var next := Advanced(db, k, id);
    if scope == db.runs[k].core.scope {
      assert CursorFrom(next.cursors[scope], next.runs[k], scope);
    } else {
      assert CursorFits(db, scope);
      var x :| 0 <= x < |db.runs| && CursorFrom(db.cursors[scope], db.runs[x], scope);
      assert next.runs[x] == db.runs[x];
      assert CursorFrom(next.cursors[scope], next.runs[x], scope);
    }
  }

  /** Changing runs in place keeps the order when no run becomes placed. */
  lemma InPlaceKeepsOrder(a: Database, b: Database)
    requires InCursorOrder(a) && DistinctRuns(a.runs) && |a.runs| == |b.runs|
    requires forall i :: 0 <= i < |a.runs| ==> b.runs[i].runId == a.runs[i].runId && b.runs[i].core == a.runs[i].core
    requires forall i :: 0 <= i < |a.runs| && Placed(b, b.runs[i]) ==> Placed(a, a.runs[i])
    ensures InCursorOrder(b) && DistinctRuns(b.runs)
  {
  }

  lemma AdvancePlacesNothing(db: Database, k: nat, id: EvidenceCore, i: nat)
    requires k < |db.runs| && db.runs[k].status.Prepared? && DistinctRuns(db.runs) && i < |db.runs|
    requires Placed(Advanced(db, k, id), Advanced(db, k, id).runs[i])
    ensures Placed(db, db.runs[i])
  {
  }

  lemma AdvanceKeepsInv(db: Database, k: nat, id: EvidenceCore)
    requires Inv(db) && k < |db.runs|
    requires db.runs[k].status.Prepared? && Evidence(db.store, db.runs[k], id)
    requires db.runs[k].core.runtime.cursorPrevious == ExpectedPreviousFromRun(db, db.runs[k])
    ensures Inv(Advanced(db, k, id)) && Grows(db, Advanced(db, k, id))
  {
    hide Sound, InCursorOrder, RunFits, CursorFits, Placed, Evidence, ExpectedPreviousFromRun;
    var next := Advanced(db, k, id);
    forall i | 0 <= i < |next.runs| ensures RunFits(next, next.runs[i]) {
      AdvanceKeepsRunFits(db, k, id, i);
    }
    forall scope | scope in next.cursors ensures CursorFits(next, scope) {
      AdvanceKeepsCursorFits(db, k, id, scope);
    }
    forall i | 0 <= i < |db.runs| && Placed(next, next.runs[i]) ensures Placed(db, db.runs[i]) {
      AdvancePlacesNothing(db, k, id, i);
    }
    InPlaceKeepsOrder(db, next);
  }

  // ---------------------------------------------------------------- a run is marked blocked

  lemma FinalizeChanges(db: Database, c: Commit, i: nat)
    requires c.Blocking? && i < |db.runs|
    ensures var next := FinalizeBlocked(db, c).0;
            && |next.runs| == |db.runs| && next.cursors == db.cursors && next.store == db.store
            && next.runs[i].runId == db.runs[i].runId && next.runs[i].core == db.runs[i].core
            && (next.runs[i] == db.runs[i] || next.runs[i].status.BlockedRun?)
  {
  }

  lemma FinalizeKeepsCursor(db: Database, c: Commit, scope: Scope)
    requires c.Blocking? && scope in db.cursors && CursorFits(db, scope)
    ensures scope in FinalizeBlocked(db, c).0.cursors && CursorFits(FinalizeBlocked(db, c).0, scope)
  {
    var next := FinalizeBlocked(db, c).0;
    var x :| 0 <= x < |db.runs| && CursorFrom(db.cursors[scope], db.runs[x], scope);
    FinalizeChanges(db, c, x);
    assert CursorFrom(next.cursors[scope], next.runs[x], scope);
  }

  /** A run left alone or marked blocked still fits, and is not newly placed. */
  lemma BlockedFits(db: Database, next: Database, run: Run, now: Run)
    requires RunFits(db, run) && next.cursors == db.cursors && next.store == db.store
    requires now.runId == run.runId && now.core == run.core && (now == run || now.status.BlockedRun?)
    ensures RunFits(next, now) && (Placed(next, now) ==> Placed(db, run))
  {
    hide PassedRow, Bound;
  }

  lemma FinalizeKeepsInv(db: Database, c: Commit)
    requires Inv(db) && CommitFits(db, c) && c.Blocking?
    ensures var next := FinalizeBlocked(db, c).0; Inv(next) && Grows(db, next)
  {
    hide Sound, InCursorOrder, RunFits, CursorFits, Placed;
    var next := FinalizeBlocked(db, c).0;
    forall i | 0 <= i < |db.runs|
      ensures next.runs[i].runId == db.runs[i].runId && next.runs[i].core == db.runs[i].core
              && (next.runs[i] == db.runs[i] || next.runs[i].status.BlockedRun?)
    {
      FinalizeChanges(db, c, i);
    }
    forall i | 0 <= i < |next.runs| ensures RunFits(next, next.runs[i]) && (Placed(next, next.runs[i]) ==> Placed(db, db.runs[i])) {
      BlockedFits(db, next, db.runs[i], next.runs[i]);
    }
    InPlaceKeepsOrder(db, next);
    forall scope | scope in next.cursors ensures CursorFits(next, scope) {
      FinalizeKeepsCursor(db, c, scope);
    }
  }

  // ---------------------------------------------------------------- every action

  lemma AllCommitsKept(s: System, db: Database)
    requires SystemInv(s) && Grows(s.db, db)
    ensures forall pid :: pid in s.commits ==> CommitFits(db, s.commits[pid])
  {
    forall pid | pid in s.commits ensures CommitFits(db, s.commits[pid]) {
      GrowthKeepsCommits(s.db, db, s.commits[pid]);
    }
  }

  lemma RecordStepKeeps(db: Database, c: Commit)
    requires Inv(db) && CommitFits(db, c)
    ensures Inv(RecordEvidence(db, c).0) && Grows(db, RecordEvidence(db, c).0)
            && CommitFits(RecordEvidence(db, c).0, RecordEvidence(db, c).1)
  {
    hide Inv, Record, Bound;
    if c.Cleared? && c.run.prepared.Some? {
      StoreStepKeepsInv(db, c.run.prepared.value);
      if RecordEvidence(db, c).1.Evidenced? {
        RecordGivesEvidence(db, c);
      } else if RecordEvidence(db, c).1.Blocking? {
        GrowthKeepsCommits(db, RecordEvidence(db, c).0, Blocking(c.run, [], None));
      }
    }
  }

  lemma AdvanceStepKeeps(db: Database, c: Commit)
    requires Inv(db) && CommitFits(db, c)
    ensures Inv(AdvanceCursor(db, c).0) && Grows(db, AdvanceCursor(db, c).0)
            && CommitFits(AdvanceCursor(db, c).0, AdvanceCursor(db, c).1)
  {
    hide Sound, InCursorOrder, RunFits, CursorFits, ExpectedPreviousFromRun, PassedRow;
    if c.Evidenced? {
      var k := RunIndex(db.runs, c.run.runId);
      var x :| 0 <= x < |db.runs| && db.runs[x].runId == c.run.runId && db.runs[x].core == c.run.core
               && !db.runs[x].status.Duplicate?;
      assert x == k;
      if AdvanceCursor(db, c).0 != db {
        AdvanceKeepsInv(db, k, c.observationId);
      }
    }
  }

  lemma FinalizeStepKeeps(db: Database, c: Commit)
    requires Inv(db) && CommitFits(db, c)
    ensures Inv(FinalizeBlocked(db, c).0) && Grows(db, FinalizeBlocked(db, c).0)
            && CommitFits(FinalizeBlocked(db, c).0, FinalizeBlocked(db, c).1)
  {
    hide Inv;
    if c.Blocking? {
      FinalizeKeepsInv(db, c);
    }
  }

  lemma CommitStepKeeps(db: Database, c: Commit)
    requires Inv(db) && CommitFits(db, c)
    ensures Inv(RecordEvidence(db, c).0) && Grows(db, RecordEvidence(db, c).0)
            && CommitFits(RecordEvidence(db, c).0, RecordEvidence(db, c).1)
    ensures Inv(AdvanceCursor(db, c).0) && Grows(db, AdvanceCursor(db, c).0)
            && CommitFits(AdvanceCursor(db, c).0, AdvanceCursor(db, c).1)
    ensures Inv(FinalizeBlocked(db, c).0) && Grows(db, FinalizeBlocked(db, c).0)
            && CommitFits(FinalizeBlocked(db, c).0, FinalizeBlocked(db, c).1)
  {
    hide *;
    RecordStepKeeps(db, c);
    AdvanceStepKeeps(db, c);
    FinalizeStepKeeps(db, c);
  }

  lemma CommitOfFits(s: System, pid: nat)
    requires SystemInv(s)
    ensures Inv(s.db) && CommitFits(s.db, CommitOf(s, pid))
  {
    hide Inv, Known;
  }

  lemma GrowsItself(db: Database)
    ensures Grows(db, db)
  {
  }

  lemma GrownSystem(s: System, db: Database)
    requires SystemInv(s) && Inv(db) && Grows(s.db, db)
    ensures SystemInv(s.(db := db))
  {
    hide Inv, CommitFits, Grows;
    AllCommitsKept(s, db);
  }

  lemma StepOfCommitKeeps(s: System, pid: nat, result: (Database, Commit))
    requires SystemInv(s) && Inv(result.0) && Grows(s.db, result.0) && CommitFits(result.0, result.1)
    ensures SystemInv(After(s, pid, result))
  {
    AllCommitsKept(s, result.0);
  }

  lemma OpenKeeps(db: Database, runId: Token)
    requires Inv(db)
    ensures CommitFits(db, OpenRun(db, runId))
  {
  }

  lemma NextKeepsInv(s: System, a: Action)
    requires SystemInv(s) && Possible(a)
    ensures SystemInv(Next(s, a)) && Grows(s.db, Next(s, a).db)
  {
    hide SystemInv, Inv, CommitFits, Grows, OpenRun, RecordEvidence, AdvanceCursor, FinalizeBlocked, PrepareRun, Record;
    var pid := if a.Prepare? || a.ExternalRecord? then 0 else a.pid;
    CommitOfFits(s, pid);
    GrowsItself(s.db);
    match a {
      case Prepare(preview, release) =>
        PrepareKeepsInv(s.db, preview, release);
        GrownSystem(s, Next(s, a).db);
      case ExternalRecord(evidence) =>
        StoreStepKeepsInv(s.db, evidence);
        GrownSystem(s, Next(s, a).db);
      case Begin(_, runId) =>
        OpenKeeps(s.db, runId);
        StepOfCommitKeeps(s, pid, (s.db, OpenRun(s.db, runId)));
      case ReleaseCheck(_, release) =>
        CheckKeeps(s.db, CommitOf(s, pid), release);
        StepOfCommitKeeps(s, pid, (s.db, CheckRelease(CommitOf(s, pid), release)));
      case Crash(_) =>
        CheckKeeps(s.db, Finished, []);
        StepOfCommitKeeps(s, pid, (s.db, Finished));
      case RecordStep(_) =>
        RecordStepKeeps(s.db, CommitOf(s, pid));
        StepOfCommitKeeps(s, pid, RecordEvidence(s.db, CommitOf(s, pid)));
      case AdvanceStep(_) =>
        AdvanceStepKeeps(s.db, CommitOf(s, pid));
        StepOfCommitKeeps(s, pid, AdvanceCursor(s.db, CommitOf(s, pid)));
      case FinalizeStep(_) =>
        FinalizeStepKeeps(s.db, CommitOf(s, pid));
        StepOfCommitKeeps(s, pid, FinalizeBlocked(s.db, CommitOf(s, pid)));
    }
  }

  lemma CheckKeeps(db: Database, c: Commit, release: seq<Blocker>)
    requires c.Finished? || CommitFits(db, c)
    ensures CommitFits(db, CheckRelease(c, release)) && CommitFits(db, Finished)
  {
    hide Known, Bound, Evidence;
  }

  /** Over every sequence of possible actions. */
  lemma {:induction false} EveryRunKeepsInv(actions: seq<Action>)
    requires AllPossible(actions)
    ensures SystemInv(Play(INITIAL, actions))
  {
    if actions != [] {
      EveryRunKeepsInv(actions[..|actions| - 1]);
      NextKeepsInv(Play(INITIAL, actions[..|actions| - 1]), actions[|actions| - 1]);
    }
  }
}
