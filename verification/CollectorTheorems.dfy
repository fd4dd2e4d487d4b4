/** Whole-run properties of the collector that follow from the invariant. */
module CollectorTheorems {
  import opened LifecycleValues
  import opened LifecyclePreviews
  import opened LifecycleStore
  import opened CollectorPreviews
  import opened Collector
  import opened CollectorInvariant

  // ---------------------------------------------------------------- cursors

  lemma AdvanceMovesByOne(db: Database, c: Commit, scope: Scope)
    requires Inv(db) && scope in db.cursors
    ensures var next := AdvanceCursor(db, c).0.cursors;
            scope in next
            && (next[scope] == db.cursors[scope] || next[scope].lastCursor == db.cursors[scope].lastCursor + 1)
  {
    if c.Evidenced? {
      var k := RunIndex(db.runs, c.run.runId);
      if k >= 0 {
        assert RunFits(db, db.runs[k]);
      }
    }
  }

  lemma OnlyAdvanceWritesCursors(s: System, a: Action)
    requires !a.AdvanceStep?
    ensures Next(s, a).db.cursors == s.db.cursors
  {
    hide Record, NewRun;
  }

  /** One action either leaves the cursor row of a scope alone or raises its cursor by exactly one;
      no action removes the row. */
  lemma CursorMovesByOne(s: System, a: Action, scope: Scope)
    requires SystemInv(s) && scope in s.db.cursors
    ensures scope in Next(s, a).db.cursors
    ensures Next(s, a).db.cursors[scope] == s.db.cursors[scope]
            || Next(s, a).db.cursors[scope].lastCursor == s.db.cursors[scope].lastCursor + 1
  {
    hide Inv, AdvanceCursor, RecordEvidence, FinalizeBlocked, PrepareRun, Record;
    if a.AdvanceStep? {
      AdvanceMovesByOne(s.db, CommitOf(s, a.pid), scope);
    } else {
      OnlyAdvanceWritesCursors(s, a);
    }
  }

  /** How many of the actions wrote the cursor row of a scope. */
  function CursorWrites(s: System, actions: seq<Action>, scope: Scope): nat {
    if actions == [] then 0
    else
      var before := Play(s, actions[..|actions| - 1]);
      var after := Next(before, actions[|actions| - 1]);
      CursorWrites(s, actions[..|actions| - 1], scope)
      + if scope in before.db.cursors && scope in after.db.cursors
           && before.db.cursors[scope] != after.db.cursors[scope] then 1 else 0
  }

  /** After a scope's first cursor row, its cursor counts the writes: no gap, no repeat. */
  lemma {:induction false} CursorCountsWrites(s: System, actions: seq<Action>, scope: Scope)
    requires SystemInv(s) && AllPossible(actions) && scope in s.db.cursors
    ensures SystemInv(Play(s, actions)) && scope in Play(s, actions).db.cursors
    ensures Play(s, actions).db.cursors[scope].lastCursor
            == s.db.cursors[scope].lastCursor + CursorWrites(s, actions, scope)
  {
    hide SystemInv, Next, Possible;
    if actions != [] {
      var front, last := actions[..|actions| - 1], actions[|actions| - 1];
      CursorCountsWrites(s, front, scope);
      CursorMovesByOne(Play(s, front), last, scope);
      NextKeepsInv(Play(s, front), last);
    }
  }

  /** At most one run of a scope is prepared at a cursor, and never beside a recorded one. */
  lemma OneLiveRunPerCursor(db: Database, i: nat, j: nat)
    requires Inv(db) && i < |db.runs| && j < |db.runs|
    requires db.runs[i].status.Prepared? || db.runs[i].status.Recorded?
    requires db.runs[j].status.Prepared? || db.runs[j].status.Recorded?
    requires db.runs[i].core.scope == db.runs[j].core.scope && CursorOf(db.runs[i]) == CursorOf(db.runs[j])
    ensures i == j
  {
    assert !(i < j) && !(j < i);
  }

  predicate RecordedRun(db: Database, runId: Token, scope: Scope, cursor: nat) {
    exists k :: 0 <= k < |db.runs| && db.runs[k].runId == runId && db.runs[k].status.Recorded?
                && AtCursor(db.runs[k], scope, cursor)
  }

  /** Only the advancing transaction turns a run recorded. */
  lemma OthersRecordNothing(s: System, a: Action, k: nat)
    requires !a.AdvanceStep? && k < |Next(s, a).db.runs| && Next(s, a).db.runs[k].status.Recorded?
    ensures k < |s.db.runs| && s.db.runs[k] == Next(s, a).db.runs[k]
  {
  }

  lemma AdvanceRecordsNextCursor(db: Database, c: Commit, k: nat)
    requires Inv(db) && k < |AdvanceCursor(db, c).0.runs| && AdvanceCursor(db, c).0.runs[k].status.Recorded?
    ensures k < |db.runs|
    ensures db.runs[k] == AdvanceCursor(db, c).0.runs[k]
            || (db.runs[k].core == AdvanceCursor(db, c).0.runs[k].core
                && (db.runs[k].core.scope in db.cursors ==>
                      CursorOf(db.runs[k]) == db.cursors[db.runs[k].core.scope].lastCursor + 1))
  {
  }

  lemma AdvanceStepDatabase(s: System, a: Action)
    requires a.AdvanceStep?
    ensures Next(s, a).db == AdvanceCursor(s.db, CommitOf(s, a.pid)).0
  {
    hide AdvanceCursor;
  }

  /** A run that one action turns recorded has a cursor beyond the row it found. */
  lemma NewlyRecordedIsBeyond(s: System, a: Action, runId: Token, scope: Scope, cursor: nat)
    requires SystemInv(s) && scope in s.db.cursors
    requires RecordedRun(Next(s, a).db, runId, scope, cursor)
    ensures RecordedRun(s.db, runId, scope, cursor) || cursor == s.db.cursors[scope].lastCursor + 1
  {
    hide Next, Inv;
    var next := Next(s, a).db;
    var k :| 0 <= k < |next.runs| && next.runs[k].runId == runId && next.runs[k].status.Recorded?
             && AtCursor(next.runs[k], scope, cursor);
    if a.AdvanceStep? {
      AdvanceStepDatabase(s, a);
      AdvanceRecordsNextCursor(s.db, CommitOf(s, a.pid), k);
    } else {
      OthersRecordNothing(s, a, k);
    }
  }

  lemma {:induction false} LaterRecordedIsBeyond(s: System, actions: seq<Action>, runId: Token, scope: Scope, cursor: nat)
    requires SystemInv(s) && AllPossible(actions) && scope in s.db.cursors
    requires RecordedRun(Play(s, actions).db, runId, scope, cursor)
    ensures RecordedRun(s.db, runId, scope, cursor) || cursor > s.db.cursors[scope].lastCursor
  {
    hide SystemInv, Next, Possible, RecordedRun;
    if actions != [] {
      var front, last := actions[..|actions| - 1], actions[|actions| - 1];
      var mid := Play(s, front);
      CursorCountsWrites(s, front, scope);
      NewlyRecordedIsBeyond(mid, last, runId, scope, cursor);
      if RecordedRun(mid.db, runId, scope, cursor) {
        LaterRecordedIsBeyond(s, front, runId, scope, cursor);
      }
    }
  }

  /** At most one run of a scope and cursor ever becomes recorded, even if the first is marked
      blocked again later. */
  lemma RecordedOnce(s: System, actions: seq<Action>, first: Token, later: Token, scope: Scope, cursor: nat)
    requires SystemInv(s) && AllPossible(actions)
    requires RecordedRun(s.db, first, scope, cursor)
    requires RecordedRun(Play(s, actions).db, later, scope, cursor)
    ensures first == later
  {
    hide Next, Possible, InCursorOrder, Sound, CursorFits;
    var i :| 0 <= i < |s.db.runs| && s.db.runs[i].runId == first && s.db.runs[i].status.Recorded?
             && AtCursor(s.db.runs[i], scope, cursor);
    assert RunFits(s.db, s.db.runs[i]);
    LaterRecordedIsBeyond(s, actions, later, scope, cursor);
    var j :| 0 <= j < |s.db.runs| && s.db.runs[j].runId == later && s.db.runs[j].status.Recorded?
             && AtCursor(s.db.runs[j], scope, cursor);
    OneLiveRunPerCursor(s.db, i, j);
  }

  // ---------------------------------------------------------------- collector health

  datatype Health = NotBound | Healthy | RecoveryPending | LatestBlocked | Unbound | Inconsistent

  datatype HealthBlocker =
    | ObservationNotBound | BindingMismatch(field: nat) | SequenceBindingMismatch
    | RecoveryIsPending | LatestRunBlocked | LatestRunInvalid
    | StateMissing | StateMismatch(field: nat) | StateCursorMismatch

  /** Newest run of a scope by id that is not a duplicate, as an index, or -1. */
  function LatestRun(runs: seq<Run>, scope: Scope): (r: int)
    ensures -1 <= r < |runs|
    ensures r >= 0 ==> runs[r].core.scope == scope && !runs[r].status.Duplicate?
    ensures forall i :: r < i < |runs| && runs[i].core.scope == scope ==> runs[i].status.Duplicate?
  {
    if runs == [] then -1
    else if runs[|runs| - 1].core.scope == scope && !runs[|runs| - 1].status.Duplicate? then |runs| - 1
    else LatestRun(runs[..|runs| - 1], scope)
  }

  predicate BoundTo(run: Run, id: EvidenceCore) {
    run.status.Recorded? && run.observationId == Some(id)
  }

  /** Oldest recorded run bound to an observation, or -1. */
  function MatchingRun(runs: seq<Run>, id: EvidenceCore): (r: int)
    ensures -1 <= r < |runs|
    ensures r >= 0 ==> BoundTo(runs[r], id)
    ensures r < 0 ==> forall i :: 0 <= i < |runs| ==> !BoundTo(runs[i], id)
  {
    if runs == [] then -1
    else
      var earlier := MatchingRun(runs[..|runs| - 1], id);
      if earlier >= 0 then earlier
      else if BoundTo(runs[|runs| - 1], id) then |runs| - 1
      else -1
  }

  function BindingBlockers(runs: seq<Run>, matching: int, id: EvidenceCore): seq<HealthBlocker>
    requires matching < |runs|
  {
    if matching < 0 then [ObservationNotBound]
    else
      var run := runs[matching];
      When(run.core.scope.provider != id.scope.provider, BindingMismatch(0))
      + When(run.core.scope.venue.gateway != id.scope.venue.gateway, BindingMismatch(1))
      + When(run.core.scope.venue.accountAlias != id.scope.venue.accountAlias, BindingMismatch(2))
      + When(CursorOf(run) != id.sequence, SequenceBindingMismatch)
  }

  function LatestBlockersOf(db: Database, run: Run): seq<HealthBlocker> {
    match run.status
    case Prepared => [RecoveryIsPending]
    case BlockedRun => [LatestRunBlocked]
    case Duplicate => [LatestRunInvalid]
    case Recorded =>
      if run.core.scope !in db.cursors then [StateMissing]
      else
        var a, b := db.cursors[run.core.scope], run.core;
        When(a.deployment.collectorId != b.deployment.collectorId, StateMismatch(0))
        + When(a.deployment.deploymentId != b.deployment.deploymentId, StateMismatch(1))
        + When(a.deployment.fingerprint != b.deployment.fingerprint, StateMismatch(2))
        + When(a.deployment.releaseRef != b.deployment.releaseRef, StateMismatch(3))
        + When(a.deployment.authorizationRef != b.deployment.authorizationRef, StateMismatch(4))
        + When(a.scope != b.scope, StateMismatch(5))
        + When(a.lastCursor != CursorOf(run), StateCursorMismatch)
  }

  /** The collector evidence reported with an observation. */
  function CollectorHealth(db: Database, id: EvidenceCore): (h: Health) {
    var latest := LatestRun(db.runs, id.scope);
    if latest < 0 then NotBound
    else
      var matching := MatchingRun(db.runs, id);
      var run := db.runs[latest];
      var blockers := BindingBlockers(db.runs, matching, id) + LatestBlockersOf(db, run);
      if blockers == [] then Healthy
      else if run.status.Prepared? then RecoveryPending
      else if run.status.BlockedRun? then LatestBlocked
      else if matching < 0 then Unbound
      else Inconsistent
  }

  /** A recorded run that is the newest of its scope is the one the cursor row was written for. */
  lemma NewestRecordedOwnsCursor(db: Database, scope: Scope, latest: nat)
    requires Inv(db) && latest == LatestRun(db.runs, scope) && db.runs[latest].status.Recorded?
    ensures scope in db.cursors && CursorFrom(db.cursors[scope], db.runs[latest], scope)
  {
    hide Sound, Evidence, Bound, LatestRun;
    assert RunFits(db, db.runs[latest]);
    assert CursorFits(db, scope);
    var k :| 0 <= k < |db.runs| && CursorFrom(db.cursors[scope], db.runs[k], scope);
    hide RunFits, CursorFits;
    assert Placed(db, db.runs[k]) && Placed(db, db.runs[latest]);
    assert k <= latest;
  }

  /** An observation some recorded run is bound to always passes the binding checks. */
  lemma BindingNeverMismatches(db: Database, id: EvidenceCore)
    requires Inv(db) && MatchingRun(db.runs, id) >= 0
    ensures BindingBlockers(db.runs, MatchingRun(db.runs, id), id) == []
  {
  }

  /** In a reachable database the collector of a bound observation is healthy exactly when the newest
      non-duplicate run of its scope is recorded, and never inconsistent. */
  lemma HealthIsLatestStatus(db: Database, id: EvidenceCore)
    requires Inv(db) && MatchingRun(db.runs, id) >= 0
    ensures var latest := LatestRun(db.runs, id.scope);
            latest >= 0
            && CollectorHealth(db, id)
               == match db.runs[latest].status
                  case Recorded => Healthy
                  case Prepared => RecoveryPending
                  case _ => LatestBlocked
  {
    var matching := MatchingRun(db.runs, id);
    assert RunFits(db, db.runs[matching]);
    BindingNeverMismatches(db, id);
    var latest := LatestRun(db.runs, id.scope);
    if db.runs[latest].status.Recorded? {
      NewestRecordedOwnsCursor(db, id.scope, latest);
      assert LatestBlockersOf(db, db.runs[latest]) == [];
    }
  }

  /** After any possible actions, a newest run that is recorded reports its own observation healthy. */
  lemma RecordedRunIsHealthy(actions: seq<Action>, scope: Scope)
    requires AllPossible(actions)
    ensures var db := Play(INITIAL, actions).db;
            var latest := LatestRun(db.runs, scope);
            latest >= 0 && db.runs[latest].status.Recorded? ==>
              db.runs[latest].observationId.Some?
              && db.runs[latest].observationId.value.scope == scope
              && CollectorHealth(db, db.runs[latest].observationId.value) == Healthy
  {
    EveryRunKeepsInv(actions);
    var db := Play(INITIAL, actions).db;
    var latest := LatestRun(db.runs, scope);
    if latest >= 0 && db.runs[latest].status.Recorded? {
      assert RunFits(db, db.runs[latest]);
      var id := db.runs[latest].observationId.value;
      assert BoundTo(db.runs[latest], id);
      HealthIsLatestStatus(db, id);
    }
  }

  // ---------------------------------------------------------------- one uninterrupted commit

  /** The evidence is stored as passed, or would be. */
  predicate WouldPass(store: Store, p: LifecyclePreview) {
    var existing := FindObservation(store.observations, p.core);
    if existing.Some? then existing.value.pass
    else p.blockers == [] && TransactionBlockers(store, p.core) == [] && DistinctTrades(p.core.fills)
  }

  /** The run starts where its scope is.  Before the first cursor row evidence that is new comes last; stored
      evidence has to be the newest of the scope. */
  predicate AtItsCursor(db: Database, run: Run, p: LifecyclePreview) {
    if run.core.scope in db.cursors then db.cursors[run.core.scope].lastCursor == run.core.runtime.cursorPrevious
    else FindObservation(db.store.observations, p.core).Some? ==>
           MaxSequence(db.store.observations, run.core.scope) == CursorOf(run)
  }

  predicate CanRecord(db: Database, run: Run, release: seq<Blocker>) {
    && release == [] && run.prepared.Some? && Intact(run.prepared.value)
    && WouldPass(db.store, run.prepared.value) && AtItsCursor(db, run, run.prepared.value)
  }

  lemma LastIsGreatest(rows: seq<Observation>, row: Observation)
    requires row.pass && forall r :: r in rows && PassedAt(r, row.core.scope.venue) ==> r.core.sequence < row.core.sequence
    ensures MaxSequence(rows + [row], row.core.scope) == row.core.sequence
  {
    var all, m := rows + [row], MaxSequence(rows + [row], row.core.scope);
    assert all[|rows|] == row && PassedIn(row, row.core.scope);
    assert row.core.sequence <= m;
    if m != 0 {
      var r :| r in all && PassedIn(r, row.core.scope) && r.core.sequence == m;
      assert r in rows || r == row;
    }
  }

  /** Recording leaves a passed row exactly when it was there or would pass. */
  lemma RecordPassesIff(store: Store, p: LifecyclePreview)
    requires Intact(p)
    ensures var (next, outcome) := Record(store, p);
            && (outcome.Stored? && outcome.row.pass <==> WouldPass(store, p))
            && (WouldPass(store, p) ==>
                  outcome.row.core == p.core
                  && next == if FindObservation(store.observations, p.core).Some? then store
                             else Insert(store, Observation(p.core, true, [])))
  {
    if FindObservation(store.observations, p.core).None? && p.blockers == [] && TransactionBlockers(store, p.core) == [] {
      assert p.blockers + TransactionBlockers(store, p.core) == [];
    }
  }

  /** Where the commit finds its scope once its evidence is stored. */
  lemma ExpectedAfterRecording(db: Database, run: Run, p: LifecyclePreview, store: Store)
    requires Inv(db) && Consecutive(run.core) && Intact(p) && WouldPass(db.store, p)
    requires p.core.scope == run.core.scope && p.core.sequence == CursorOf(run)
    requires store == Record(db.store, p).0
    ensures ExpectedPreviousFromRun(db.(store := store), run) == run.core.runtime.cursorPrevious
            <==> AtItsCursor(db, run, p)
  {
    RecordPassesIff(db.store, p);
    var existing := FindObservation(db.store.observations, p.core);
    if existing.Some? {
      assert PassedIn(existing.value, run.core.scope);
    } else {
      var row := Observation(p.core, true, []);
      forall r | r in db.store.observations && PassedAt(r, p.core.scope.venue) ensures r.core.sequence < p.core.sequence {
        NewRowComesLast(db.store, p.core, r);
      }
      LastIsGreatest(db.store.observations, row);
    }
  }

  /** From recorded evidence: the run is recorded, or marked blocked. */
  lemma EvidencedCommitEnds(db: Database, k: nat, id: EvidenceCore)
    requires DistinctRuns(db.runs) && k < |db.runs| && db.runs[k].status.Prepared?
    ensures var run := db.runs[k];
            var (db2, c2) := AdvanceCursor(db, Evidenced(run, id));
            var next := FinalizeBlocked(db2, c2).0;
            && k < |next.runs|
            && (if ExpectedPreviousFromRun(db, run) == run.core.runtime.cursorPrevious
                then next == Advanced(db, k, id) else next.runs[k].status.BlockedRun?)
  {
    OwnIndex(db.runs, k);
  }

  lemma RefusedCommitEnds(db: Database, k: nat, c: Commit)
    requires DistinctRuns(db.runs) && k < |db.runs| && c.Blocking? && c.run.runId == db.runs[k].runId
    ensures var next := FinalizeBlocked(AdvanceCursor(db, c).0, AdvanceCursor(db, c).1).0;
            k < |next.runs| && next.runs[k].status.BlockedRun?
  {
    OwnIndex(db.runs, k);
  }

  /** A prepared run, committed without interruption, is recorded exactly when the release is clear, its
      evidence passes and its scope is at its cursor; the cursor row is then its own. */
  lemma CommitRecordsIff(db: Database, k: nat, release: seq<Blocker>)
    requires Inv(db) && k < |db.runs| && db.runs[k].status.Prepared?
    ensures var run, next := db.runs[k], CommitPrepared(db, db.runs[k].runId, release);
            && k < |next.runs|
            && (next.runs[k].status.Recorded? <==> CanRecord(db, run, release))
            && (CanRecord(db, run, release) ==>
                  var id := run.prepared.value.core;
                  && next.runs == db.runs[k := Run(run.runId, run.core, Recorded, [], Some(id), None)]
                  && next.cursors == db.cursors[run.core.scope := CursorFor(run, id)])
  {
    var run := db.runs[k];
    OwnIndex(db.runs, k);
    assert RunFits(db, run);
    if release != [] {
      RefusedCommitEnds(db, k, CheckRelease(Opened(run), release));
    } else {
      ClearedCommitEnds(db, k);
    }
  }

  lemma ClearedCommitEnds(db: Database, k: nat)
    requires Inv(db) && k < |db.runs| && db.runs[k].status.Prepared?
    ensures var run := db.runs[k];
            var (db1, c1) := RecordEvidence(db, Cleared(run));
            var (db2, c2) := AdvanceCursor(db1, c1);
            var next := FinalizeBlocked(db2, c2).0;
            && k < |next.runs|
            && (if CanRecord(db, run, []) then next == Advanced(db1, k, run.prepared.value.core)
                else !next.runs[k].status.Recorded?)
  {
    var run := db.runs[k];
    assert RunFits(db, run);
    var p := run.prepared.value;
    var (db1, c1) := RecordEvidence(db, Cleared(run));
    assert db1.runs == db.runs && db1.cursors == db.cursors;
    if Intact(p) && WouldPass(db.store, p) {
      RecordPassesIff(db.store, p);
      ExpectedAfterRecording(db, run, p, db1.store);
      EvidencedCommitEnds(db1, k, p.core);
    } else if c1.Blocking? {
      RefusedCommitEnds(db1, k, c1);
    } else if Intact(p) {
      RecordPassesIff(db.store, p);
    }
  }

  // ---------------------------------------------------------------- repeats

  /** Preparing an answered preview again answers with the stored run and writes nothing. */
  lemma PrepareAgain(db: Database, p: CollectorPreview, release: seq<Blocker>, later: seq<Blocker>)
    requires PrepareRun(db, p, release).1.Answer?
    ensures var (next, answer) := PrepareRun(db, p, release);
            PrepareRun(next, p, later) == (next, Answer(answer.run, true))
  {
    PrepareAppendsOrStays(db, p, release);
  }

  /** A new run is a duplicate exactly when nothing blocks it and a run of its scope and cursor was
      recorded before with the same evidence; it then repeats that run's observation and carries
      nothing to commit. */
  lemma DuplicateRepeatsRun(db: Database, p: CollectorPreview, release: seq<Blocker>)
    ensures var run := NewRun(db, p, release);
            var prior := PriorAtCursor(db.runs, p.core.scope, p.core.runtime.cursorCurrent);
            && (run.status.Duplicate? <==> run.blockers == [] && prior.Some?)
            && (run.status.Duplicate? ==>
                  prior.value.core == p.core && run.observationId == prior.value.observationId && run.prepared.None?)
  {
    var prior := PriorAtCursor(db.runs, p.core.scope, p.core.runtime.cursorCurrent);
    if NewRun(db, p, release).blockers == [] {
      assert PrepareBlockers(db, p.core, release, prior) == [];
      assert OrderingBlockers(db, p.core, prior) == [];
    }
  }
}
