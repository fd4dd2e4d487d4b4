/**
 Crash refinement.  A commit may be killed after any of its transactions and retried, by any number
 of processes at once, while other venues are busy: seen from its own venue, every retry that runs
 to its end leaves the database of one uninterrupted commit.
 */
module CollectorCrash {
  import opened LifecycleValues
  import opened LifecyclePreviews
  import opened LifecycleStore
  import opened CollectorPreviews
  import opened Collector
  import opened CollectorInvariant

  // ---------------------------------------------------------------- the view of one venue

  function Keep<T(!new)>(rows: seq<T>, keep: T -> bool): seq<T> {
    if rows == [] then []
    else Keep(rows[..|rows| - 1], keep) + if keep(rows[|rows| - 1]) then [rows[|rows| - 1]] else []
  }

  function RunOf(venue: Venue): Run -> bool { (run: Run) => run.core.scope.venue == venue }
  function RowOf(venue: Venue): Observation -> bool { (row: Observation) => row.core.scope.venue == venue }
  function OrderOf(venue: Venue): OrderRow -> bool { (row: OrderRow) => row.observationId.scope.venue == venue }
  function FillOf(venue: Venue): FillRow -> bool { (row: FillRow) => row.observationId.scope.venue == venue }

  function StoreView(store: Store, venue: Venue): Store {
    Store(Keep(store.observations, RowOf(venue)), Keep(store.orders, OrderOf(venue)),
          Keep(store.fills, FillOf(venue)))
  }

  function CursorView(cursors: map<Scope, Cursor>, venue: Venue): map<Scope, Cursor> {
    map scope | scope in cursors && scope.venue == venue :: cursors[scope]
  }

  /** Runs, cursor rows and evidence of one venue, in id order. */
  function View(db: Database, venue: Venue): Database {
    Database(Keep(db.runs, RunOf(venue)), CursorView(db.cursors, venue), StoreView(db.store, venue))
  }

  lemma KeepStep<T(!new)>(rows: seq<T>, keep: T -> bool)
    requires rows != []
    ensures var front, last, kept := rows[..|rows| - 1], rows[|rows| - 1], Keep(rows, keep);
            if keep(last)
            then |kept| > 0 && kept[|kept| - 1] == last && kept[..|kept| - 1] == Keep(front, keep)
            else kept == Keep(front, keep)
  {
  }

  lemma {:induction false} KeepAppend<T(!new)>(a: seq<T>, b: seq<T>, keep: T -> bool)
    ensures Keep(a + b, keep) == Keep(a, keep) + Keep(b, keep)
  {
    if b == [] {
      assert a + b == a;
    } else {
      KeepAppend(a, b[..|b| - 1], keep);
      assert (a + b)[..|a + b| - 1] == a + b[..|b| - 1];
    }
  }

  lemma {:induction false} KeepAll<T(!new)>(rows: seq<T>, keep: T -> bool, all: bool)
    requires forall row :: row in rows ==> keep(row) == all
    ensures Keep(rows, keep) == if all then rows else []
  {
    if rows != [] {
      KeepAll(rows[..|rows| - 1], keep, all);
      assert rows == rows[..|rows| - 1] + [rows[|rows| - 1]];
    }
  }

  // ---------------------------------------------------------------- queries see only their venue

  lemma {:induction false} ViewFindsObservation(rows: seq<Observation>, venue: Venue, id: EvidenceCore)
    requires id.scope.venue == venue
    ensures FindObservation(Keep(rows, RowOf(venue)), id) == FindObservation(rows, id)
  {
    if rows != [] {
      ViewFindsObservation(rows[..|rows| - 1], venue, id);
      KeepStep(rows, RowOf(venue));
    }
  }

  lemma {:induction false} ViewFindsOrder(rows: seq<OrderRow>, venue: Venue, id: EvidenceCore)
    requires id.scope.venue == venue
    ensures FindOrder(Keep(rows, OrderOf(venue)), id) == FindOrder(rows, id)
  {
    if rows != [] {
      ViewFindsOrder(rows[..|rows| - 1], venue, id);
      KeepStep(rows, OrderOf(venue));
    }
  }

  lemma {:induction false} ViewSameLatest(rows: seq<Observation>, venue: Venue)
    ensures LatestPassed(Keep(rows, RowOf(venue)), venue) == LatestPassed(rows, venue)
  {
    if rows != [] {
      ViewSameLatest(rows[..|rows| - 1], venue);
      KeepStep(rows, RowOf(venue));
    }
  }

  lemma {:induction false} ViewSameMax(rows: seq<Observation>, scope: Scope)
    ensures MaxSequence(Keep(rows, RowOf(scope.venue)), scope) == MaxSequence(rows, scope)
  {
    if rows != [] {
      ViewSameMax(rows[..|rows| - 1], scope);
      KeepStep(rows, RowOf(scope.venue));
    }
  }

  lemma {:induction false} ViewSameMatch(rows: seq<Observation>, orders: seq<OrderRow>, scope: Scope, order: Order)
    ensures NewestMatch(Keep(rows, RowOf(scope.venue)), Keep(orders, OrderOf(scope.venue)), scope, order)
            == NewestMatch(rows, orders, scope, order)
  {
    if rows != [] {
      ViewSameMatch(rows[..|rows| - 1], orders, scope, order);
      KeepStep(rows, RowOf(scope.venue));
      if rows[|rows| - 1].core.scope.venue == scope.venue {
        ViewFindsOrder(orders, scope.venue, rows[|rows| - 1].core);
      }
    }
  }

  lemma ViewSameBlockers(store: Store, core: EvidenceCore)
    ensures TransactionBlockers(StoreView(store, core.scope.venue), core) == TransactionBlockers(store, core)
  {
    hide Keep, LatestPassed, NewestMatch, FindOrder, LatestBlockers;
    var venue := core.scope.venue;
    ViewSameLatest(store.observations, venue);
    ViewSameMatch(store.observations, store.orders, core.scope, core.order);
    var newest := NewestMatch(store.observations, store.orders, core.scope, core.order);
    if newest.Some? {
      ViewFindsOrder(store.orders, venue, newest.value.core);
    }
  }

  lemma ViewSameRow(store: Store, p: LifecyclePreview)
    ensures NewRow(StoreView(store, p.core.scope.venue), p) == NewRow(store, p)
  {
    ViewSameBlockers(store, p.core);
  }

  lemma KeepMore<T(!new)>(rows: seq<T>, more: seq<T>, keep: T -> bool, all: bool)
    requires forall row :: row in more ==> keep(row) == all
    ensures Keep(rows + more, keep) == Keep(rows, keep) + if all then more else []
  {
    KeepAppend(rows, more, keep);
    KeepAll(more, keep, all);
  }

  lemma ViewOfInsert(store: Store, row: Observation, venue: Venue)
    ensures StoreView(Insert(store, row), venue)
            == if row.core.scope.venue == venue then Insert(StoreView(store, venue), row)
               else StoreView(store, venue)
  {
    hide Keep;
    var here := row.core.scope.venue == venue;
    KeepMore(store.observations, [row], RowOf(venue), here);
    KeepMore(store.orders, if row.pass then [OrderRow(row.core, row.core.order)] else [], OrderOf(venue), here);
    KeepMore(store.fills, if row.pass then FillRows(row.core) else [], FillOf(venue), here);
  }

  /** Recording in its own venue is the same on the view; recording elsewhere is not seen. */
  lemma ViewOfRecord(store: Store, p: LifecyclePreview, venue: Venue)
    ensures p.core.scope.venue == venue ==>
              Record(StoreView(store, venue), p) == (StoreView(Record(store, p).0, venue), Record(store, p).1)
    ensures p.core.scope.venue != venue ==> StoreView(Record(store, p).0, venue) == StoreView(store, venue)
  {
    ViewOfInsert(store, NewRow(store, p), venue);
    if p.core.scope.venue == venue {
      ViewFindsObservation(store.observations, venue, p.core);
      ViewSameRow(store, p);
    }
  }

  // ---------------------------------------------------------------- runs on the view

  /** A run of the venue is found in the view, at the view's own index. */
  lemma {:induction false} ViewFindsRun(runs: seq<Run>, venue: Venue, runId: Token)
    requires RunIndex(runs, runId) >= 0 && DistinctRuns(runs)
    requires runs[RunIndex(runs, runId)].core.scope.venue == venue
    ensures var kept := Keep(runs, RunOf(venue));
            RunIndex(kept, runId) >= 0 && kept[RunIndex(kept, runId)] == runs[RunIndex(runs, runId)]
  {
    KeepStep(runs, RunOf(venue));
    var front := runs[..|runs| - 1];
    if runs[|runs| - 1].runId != runId {
      ViewFindsRun(front, venue, runId);
    }
  }

  lemma {:induction false} ViewOfReplaceElsewhere(runs: seq<Run>, venue: Venue, k: nat, run: Run)
    requires k < |runs| && run.core.scope == runs[k].core.scope && run.core.scope.venue != venue
    ensures Keep(runs[k := run], RunOf(venue)) == Keep(runs, RunOf(venue))
  {
    KeepStep(runs, RunOf(venue));
    KeepStep(runs[k := run], RunOf(venue));
    if k == |runs| - 1 {
      assert runs[k := run][..|runs| - 1] == runs[..|runs| - 1];
    } else {
      ViewOfReplaceElsewhere(runs[..|runs| - 1], venue, k, run);
      assert runs[k := run][..|runs| - 1] == runs[..|runs| - 1][k := run];
    }
  }

  lemma KeepLast(front: seq<Run>, last: Run, venue: Venue)
    ensures Keep(front + [last], RunOf(venue))
            == Keep(front, RunOf(venue)) + if last.core.scope.venue == venue then [last] else []
  {
  }

  predicate SeenAt(kept: seq<Run>, replaced: seq<Run>, run: Run) {
    RunIndex(kept, run.runId) >= 0 && replaced == kept[RunIndex(kept, run.runId) := run]
  }

  lemma SeenAtLast(kept: seq<Run>, last: Run, run: Run)
    requires last.runId == run.runId
    ensures SeenAt(kept + [last], kept + [run], run)
  {
  }

  lemma SeenBefore(kept: seq<Run>, replaced: seq<Run>, last: Run, run: Run)
    requires SeenAt(kept, replaced, run) && last.runId != run.runId
    ensures SeenAt(kept + [last], replaced + [last], run)
  {
  }

  /** One more run after a replaced one. */
  lemma SeenNext(front: seq<Run>, k: nat, run: Run, last: Run, venue: Venue)
    requires k < |front| && last.runId != run.runId
    requires SeenAt(Keep(front, RunOf(venue)), Keep(front[k := run], RunOf(venue)), run)
    ensures SeenAt(Keep(front + [last], RunOf(venue)), Keep((front + [last])[k := run], RunOf(venue)), run)
  {
    hide SeenAt, Keep;
    assert (front + [last])[k := run] == front[k := run] + [last];
    KeepLast(front, last, venue);
    KeepLast(front[k := run], last, venue);
    if last.core.scope.venue == venue {
      SeenBefore(Keep(front, RunOf(venue)), Keep(front[k := run], RunOf(venue)), last, run);
    } else {
      assert Keep(front + [last], RunOf(venue)) == Keep(front, RunOf(venue));
      assert Keep(front[k := run] + [last], RunOf(venue)) == Keep(front[k := run], RunOf(venue));
    }
  }

  /** Replacing a run of the venue is seen in the view at the view's own index. */
  lemma {:induction false} ViewOfReplace(runs: seq<Run>, venue: Venue, k: nat, run: Run)
    requires DistinctRuns(runs) && k < |runs| && run.core.scope.venue == venue
    requires run.runId == runs[k].runId && run.core.scope == runs[k].core.scope
    ensures SeenAt(Keep(runs, RunOf(venue)), Keep(runs[k := run], RunOf(venue)), run)
  {
    hide SeenAt, Keep;
    var front, last := runs[..|runs| - 1], runs[|runs| - 1];
    assert runs == front + [last];
    if k == |runs| - 1 {
      assert runs[k := run] == front + [run];
      KeepLast(front, last, venue);
      KeepLast(front, run, venue);
      SeenAtLast(Keep(front, RunOf(venue)), last, run);
    } else {
      ViewOfReplace(front, venue, k, run);
      SeenNext(front, k, run, last, venue);
    }
  }

  // ---------------------------------------------------------------- steps on the view

  /** The commit talks about a stored run of this venue. */
  predicate Here(db: Database, c: Commit, venue: Venue) {
    !c.Finished? ==> Known(db, c.run) && c.run.core.scope.venue == venue
                     && (c.Cleared? && c.run.prepared.Some? ==> c.run.prepared.value.core.scope.venue == venue)
  }

  lemma KnownIndex(db: Database, run: Run)
    requires DistinctRuns(db.runs) && Known(db, run)
    ensures RunIndex(db.runs, run.runId) >= 0 && db.runs[RunIndex(db.runs, run.runId)].core == run.core
  {
  }

  lemma ViewOfOpen(db: Database, venue: Venue, runId: Token)
    requires DistinctRuns(db.runs) && RunIndex(db.runs, runId) >= 0
    requires db.runs[RunIndex(db.runs, runId)].core.scope.venue == venue
    ensures OpenRun(View(db, venue), runId) == OpenRun(db, runId)
  {
    ViewFindsRun(db.runs, venue, runId);
  }

  lemma ViewOfRecordEvidence(db: Database, c: Commit, venue: Venue)
    requires Here(db, c, venue)
    ensures RecordEvidence(View(db, venue), c) == (View(RecordEvidence(db, c).0, venue), RecordEvidence(db, c).1)
  {
    if c.Cleared? && c.run.prepared.Some? {
      ViewOfRecord(db.store, c.run.prepared.value, venue);
    }
  }

  lemma ViewOfExpected(db: Database, run: Run, venue: Venue)
    requires run.core.scope.venue == venue
    ensures ExpectedPreviousFromRun(View(db, venue), run) == ExpectedPreviousFromRun(db, run)
  {
    ViewSameMax(db.store.observations, run.core.scope);
  }

  lemma ViewOfAdvanced(db: Database, k: nat, id: EvidenceCore, venue: Venue)
    requires DistinctRuns(db.runs) && k < |db.runs| && db.runs[k].core.scope.venue == venue
    ensures var j := RunIndex(View(db, venue).runs, db.runs[k].runId);
            j >= 0 && View(db, venue).runs[j] == db.runs[k]
            && Advanced(View(db, venue), j, id) == View(Advanced(db, k, id), venue)
  {
    var run := db.runs[k];
    assert RunIndex(db.runs, run.runId) == k;
    ViewFindsRun(db.runs, venue, run.runId);
    ViewOfReplace(db.runs, venue, k, Run(run.runId, run.core, Recorded, [], Some(id), None));
    var j := RunIndex(View(db, venue).runs, run.runId);
    assert Advanced(View(db, venue), j, id).cursors == View(Advanced(db, k, id), venue).cursors;
  }

  lemma ViewOfAdvance(db: Database, c: Commit, venue: Venue)
    requires DistinctRuns(db.runs) && Here(db, c, venue)
    ensures AdvanceCursor(View(db, venue), c) == (View(AdvanceCursor(db, c).0, venue), AdvanceCursor(db, c).1)
  {
    if c.Evidenced? {
      KnownIndex(db, c.run);
      var k := RunIndex(db.runs, c.run.runId);
      ViewOfAdvanced(db, k, c.observationId, venue);
      ViewOfExpected(db, db.runs[k], venue);
    }
  }

  lemma ViewOfFinalize(db: Database, c: Commit, venue: Venue)
    requires DistinctRuns(db.runs) && Here(db, c, venue)
    ensures FinalizeBlocked(View(db, venue), c) == (View(FinalizeBlocked(db, c).0, venue), FinalizeBlocked(db, c).1)
  {
    if c.Blocking? {
      KnownIndex(db, c.run);
      var k := RunIndex(db.runs, c.run.runId);
      ViewFindsRun(db.runs, venue, c.run.runId);
      ViewOfReplace(db.runs, venue, k,
                    Run(c.run.runId, db.runs[k].core, BlockedRun, Unique(c.blockers), c.blockedBy, None));
    }
  }

  lemma AdvanceUnseen(db: Database, c: Commit, venue: Venue, there: Venue)
    requires DistinctRuns(db.runs) && Here(db, c, there) && there != venue && c.Evidenced?
    ensures View(AdvanceCursor(db, c).0, venue) == View(db, venue)
  {
    hide ExpectedPreviousFromRun, StoreView, Keep;
    KnownIndex(db, c.run);
    var k := RunIndex(db.runs, c.run.runId);
    var run := db.runs[k];
    ViewOfReplaceElsewhere(db.runs, venue, k, Run(run.runId, run.core, Recorded, [], Some(c.observationId), None));
    assert CursorView(Advanced(db, k, c.observationId).cursors, venue) == CursorView(db.cursors, venue);
  }

  lemma FinalizeUnseen(db: Database, c: Commit, venue: Venue, there: Venue)
    requires DistinctRuns(db.runs) && Here(db, c, there) && there != venue && c.Blocking?
    ensures View(FinalizeBlocked(db, c).0, venue) == View(db, venue)
  {
    hide StoreView, Keep;
    KnownIndex(db, c.run);
    var k := RunIndex(db.runs, c.run.runId);
    ViewOfReplaceElsewhere(db.runs, venue, k,
                           Run(c.run.runId, db.runs[k].core, BlockedRun, Unique(c.blockers), c.blockedBy, None));
  }

  lemma RecordUnseen(db: Database, c: Commit, venue: Venue, there: Venue)
    requires Here(db, c, there) && there != venue
    ensures View(RecordEvidence(db, c).0, venue) == View(db, venue)
  {
    hide Record, StoreView, Keep, Known;
    if c.Cleared? && c.run.prepared.Some? {
      ViewOfRecord(db.store, c.run.prepared.value, venue);
    }
  }

  /** A commit of another venue is not seen. */
  lemma ElsewhereUnseen(db: Database, c: Commit, venue: Venue, there: Venue)
    requires DistinctRuns(db.runs) && Here(db, c, there) && there != venue
    ensures View(RecordEvidence(db, c).0, venue) == View(db, venue)
    ensures View(AdvanceCursor(db, c).0, venue) == View(db, venue)
    ensures View(FinalizeBlocked(db, c).0, venue) == View(db, venue)
  {
    hide Here, View, RecordEvidence;
    RecordUnseen(db, c, venue, there);
    if c.Evidenced? {
      AdvanceUnseen(db, c, venue, there);
    }
    if c.Blocking? {
      FinalizeUnseen(db, c, venue, there);
    }
  }

  // ---------------------------------------------------------------- one run, retried

  /** What the uninterrupted commit of a prepared run would do, transaction by transaction, starting
      from database `d0` (a view): after recording, after advancing, at the end. */
  function AfterRecording(d0: Database, run: Run): (Database, Commit) { RecordEvidence(d0, Cleared(run)) }
  function AfterAdvance(d0: Database, run: Run): (Database, Commit) {
    AdvanceCursor(AfterRecording(d0, run).0, AfterRecording(d0, run).1)
  }
  function AfterCommit(d0: Database, run: Run): Database {
    FinalizeBlocked(AfterAdvance(d0, run).0, AfterAdvance(d0, run).1).0
  }

  /** A stored prepared run, and its id unique. */
  predicate HasPrepared(d0: Database, run: Run) {
    && RunIndex(d0.runs, run.runId) >= 0 && d0.runs[RunIndex(d0.runs, run.runId)] == run
    && run.status.Prepared?
  }

  lemma UninterruptedCommit(d0: Database, run: Run)
    requires HasPrepared(d0, run)
    ensures CommitPrepared(d0, run.runId, []) == AfterCommit(d0, run)
  {
  }

  /** Recording depends on the store alone and can be repeated. */
  lemma RecordingRepeats(d0: Database, run: Run, d: Database)
    requires d.store == d0.store || d.store == AfterRecording(d0, run).0.store
    ensures RecordEvidence(d, Cleared(run))
            == (d.(store := AfterRecording(d0, run).0.store), AfterRecording(d0, run).1)
  {
    hide Record;
    if run.prepared.Some? {
      var p := run.prepared.value;
      RecordKeepsUnlessStored(d0.store, p);
      if Record(d0.store, p).1.Stored? {
        RecordIsIdempotent(d0.store, p);
      }
    }
  }

  lemma RecordKeepsUnlessStored(store: Store, p: LifecyclePreview)
    ensures !Record(store, p).1.Stored? ==> Record(store, p).0 == store
  {
  }

  /** How far the view of the run's venue has got. */
  predicate Stage(d0: Database, run: Run, d: Database) {
    d == d0 || d == AfterRecording(d0, run).0 || d == AfterCommit(d0, run)
  }

  predicate Beyond(d0: Database, run: Run, d: Database) {
    d == AfterRecording(d0, run).0 || d == AfterCommit(d0, run)
  }

  /** What a commit of the run may know at a stage. */
  predicate Fits(d0: Database, run: Run, d: Database, c: Commit) {
    match c
    case Opened(r) => r == run
    case Cleared(r) => r == run
    case Evidenced(_, _) => c == AfterRecording(d0, run).1 && Beyond(d0, run, d)
    case Blocking(_, _, _) => c == AfterAdvance(d0, run).1 && Beyond(d0, run, d)
    case Finished => true
  }

  lemma RecordedStage(d0: Database, run: Run)
    ensures AfterRecording(d0, run).0 == d0.(store := AfterRecording(d0, run).0.store)
  {
    hide Record;
  }

  lemma ReplacedIndex(runs: seq<Run>, k: nat, run: Run)
    requires k < |runs| && RunIndex(runs, run.runId) == k
    ensures RunIndex(runs[k := run], run.runId) == k && runs[k := run][k] == run
  {
    SameIndex(runs, k, run);
  }

  lemma AdvancedStage(d: Database, c: Commit, k: nat)
    requires c.Evidenced? && RunIndex(d.runs, c.run.runId) == k
    ensures var next := AdvanceCursor(d, c).0;
            next.store == d.store && RunIndex(next.runs, c.run.runId) == k && next.runs[k].core == d.runs[k].core
            && (next == d || !next.runs[k].status.Prepared?)
  {
    hide ExpectedPreviousFromRun;
    ReplacedIndex(d.runs, k, Run(d.runs[k].runId, d.runs[k].core, Recorded, [], Some(c.observationId), None));
  }

  lemma FinalizedStage(d: Database, c: Commit, k: nat)
    requires c.Blocking? && RunIndex(d.runs, c.run.runId) == k
    ensures var next := FinalizeBlocked(d, c).0;
            next.store == d.store && RunIndex(next.runs, c.run.runId) == k && next.runs[k].core == d.runs[k].core
            && !next.runs[k].status.Prepared?
  {
    ReplacedIndex(d.runs, k, Run(c.run.runId, d.runs[k].core, BlockedRun, Unique(c.blockers), c.blockedBy, None));
  }

  /** The commit after each of its steps is still about the run. */
  lemma StagesKeepRun(d0: Database, run: Run)
    ensures AfterRecording(d0, run).1.Finished? || AfterRecording(d0, run).1.run == run
    ensures AfterAdvance(d0, run).1.Finished? || AfterAdvance(d0, run).1.run == run
    ensures AfterRecording(d0, run).1.Finished? || AfterRecording(d0, run).1.Evidenced? || AfterRecording(d0, run).1.Blocking?
    ensures AfterAdvance(d0, run).1.Finished? || AfterAdvance(d0, run).1.Blocking?
    ensures AfterAdvance(d0, run).1.Blocking? ==> AfterAdvance(d0, run).0 == AfterRecording(d0, run).0
  {
    hide Record, ExpectedPreviousFromRun;
  }

  lemma StepsWait(d: Database, c: Commit)
    ensures !c.Evidenced? ==> AdvanceCursor(d, c) == (d, c)
    ensures !c.Blocking? ==> FinalizeBlocked(d, c) == (d, c)
  {
  }

  lemma FinalStage(d0: Database, run: Run)
    requires HasPrepared(d0, run)
    ensures var k, d := RunIndex(d0.runs, run.runId), AfterCommit(d0, run);
            && d.store == AfterRecording(d0, run).0.store && RunIndex(d.runs, run.runId) == k && d.runs[k].core == run.core
            && (d == AfterRecording(d0, run).0 || !d.runs[k].status.Prepared?)
  {
    hide RecordEvidence, AdvanceCursor, FinalizeBlocked;
    var k := RunIndex(d0.runs, run.runId);
    var (d1, c1) := AfterRecording(d0, run);
    var (d2, c2) := AfterAdvance(d0, run);
    RecordedStage(d0, run);
    StagesKeepRun(d0, run);
    StepsWait(d1, c1);
    StepsWait(d2, c2);
    if c1.Evidenced? {
      AdvancedStage(d1, c1, k);
    }
    if c2.Blocking? {
      FinalizedStage(d2, c2, k);
    }
  }

  lemma StageStores(d0: Database, run: Run, d: Database)
    requires HasPrepared(d0, run) && Stage(d0, run, d)
    ensures d.store == d0.store || d.store == AfterRecording(d0, run).0.store
    ensures d == d0 || d == AfterRecording(d0, run).0 ==> d.runs == d0.runs
    ensures RunIndex(d.runs, run.runId) == RunIndex(d0.runs, run.runId)
    ensures d == AfterCommit(d0, run) ==>
              d == AfterRecording(d0, run).0 || !d.runs[RunIndex(d.runs, run.runId)].status.Prepared?
  {
    hide AfterRecording, AfterCommit;
    RecordedStage(d0, run);
    FinalStage(d0, run);
  }

  lemma {:induction false} SameIndex(runs: seq<Run>, k: nat, run: Run)
    requires k < |runs| && runs[k].runId == run.runId && RunIndex(runs, run.runId) == k
    ensures RunIndex(runs[k := run], run.runId) == k
  {
    if k < |runs| - 1 {
      SameIndex(runs[..|runs| - 1], k, run);
      assert runs[k := run][..|runs| - 1] == runs[..|runs| - 1][k := run];
    }
  }

  lemma OpenFits(d0: Database, run: Run, d: Database)
    requires HasPrepared(d0, run) && Stage(d0, run, d)
    ensures Fits(d0, run, d, OpenRun(d, run.runId))
  {
    StageStores(d0, run, d);
  }

  lemma RecordFits(d0: Database, run: Run, d: Database)
    requires HasPrepared(d0, run) && Stage(d0, run, d)
    ensures var (d1, c1) := RecordEvidence(d, Cleared(run)); Beyond(d0, run, d1) && Fits(d0, run, d1, c1)
  {
    hide RecordEvidence, AdvanceCursor, FinalizeBlocked;
    StageStores(d0, run, d);
    RecordingRepeats(d0, run, d);
    RecordedStage(d0, run);
    FinalStage(d0, run);
    StagesKeepRun(d0, run);
    StepsWait(AfterRecording(d0, run).0, AfterRecording(d0, run).1);
  }

  lemma AdvanceFits(d0: Database, run: Run, d: Database, c: Commit)
    requires HasPrepared(d0, run) && Stage(d0, run, d) && c.Evidenced? && Fits(d0, run, d, c)
    ensures var (d2, c2) := AdvanceCursor(d, c); Beyond(d0, run, d2) && Fits(d0, run, d2, c2)
  {
    hide RecordEvidence, ExpectedPreviousFromRun;
    StagesKeepRun(d0, run);
    StageStores(d0, run, d);
  }

  lemma FinalizeFits(d0: Database, run: Run, d: Database, c: Commit)
    requires HasPrepared(d0, run) && Stage(d0, run, d) && c.Blocking? && Fits(d0, run, d, c)
    ensures FinalizeBlocked(d, c).0 == AfterCommit(d0, run)
  {
    hide AfterRecording, AfterAdvance;
    StagesKeepRun(d0, run);
    RecordedStage(d0, run);
    StageStores(d0, run, d);
    FinalStage(d0, run);
    if d != AfterRecording(d0, run).0 {
      var k := RunIndex(d0.runs, run.runId);
      assert d.runs[k := d.runs[k]] == d.runs;
    }
  }

  /** From every stage, one uninterrupted retry reaches the end of the uninterrupted commit. */
  lemma RetryCompletes(d0: Database, run: Run, d: Database)
    requires HasPrepared(d0, run) && Stage(d0, run, d)
    ensures CommitPrepared(d, run.runId, []) == AfterCommit(d0, run)
  {
    StageStores(d0, run, d);
    if d == d0 || d == AfterRecording(d0, run).0 {
      RecordingRepeats(d0, run, d);
    }
  }

  // ---------------------------------------------------------------- any interleaving

  predicate About(c: Commit, runId: Token) {
    !c.Finished? && c.run.runId == runId
  }

  /** Nobody else writes the venue of the run, and the release check of its commits stays clear.
      Everything else is allowed: commits of this run by any process, crashes, other venues. */
  predicate Isolated(s: System, a: Action, run: Run) {
    var venue := run.core.scope.venue;
    match a
    case Prepare(preview, _) => preview.core.scope.venue != venue
    case ExternalRecord(evidence) => evidence.core.scope.venue != venue
    case Begin(_, runId) =>
      runId == run.runId
      || RunIndex(s.db.runs, runId) < 0
      || s.db.runs[RunIndex(s.db.runs, runId)].core.scope.venue != venue
    case ReleaseCheck(pid, release) => About(CommitOf(s, pid), run.runId) ==> release == []
    case _ => true
  }

  predicate Undisturbed(s: System, actions: seq<Action>, run: Run) {
    actions == []
    || (Undisturbed(s, actions[..|actions| - 1], run)
        && Isolated(Play(s, actions[..|actions| - 1]), actions[|actions| - 1], run))
  }

  predicate CommitInView(d0: Database, run: Run, d: Database, c: Commit) {
    if About(c, run.runId) then Fits(d0, run, d, c) && c.run.core == run.core
    else c.Finished? || c.run.core.scope.venue != run.core.scope.venue
  }

  /** The invariant of the interleaving: the venue is at a stage of the one uninterrupted commit. */
  ghost predicate InFlight(d0: Database, run: Run, s: System) {
    && SystemInv(s) && HasPrepared(d0, run) && Known(s.db, run) && Bound(run.core, run.prepared)
    && Stage(d0, run, View(s.db, run.core.scope.venue))
    && forall pid :: pid in s.commits ==>
         CommitInView(d0, run, View(s.db, run.core.scope.venue), s.commits[pid])
  }

  lemma StillInView(d0: Database, run: Run, d: Database, d': Database, c: Commit)
    requires CommitInView(d0, run, d, c)
    requires d' == d || Beyond(d0, run, d')
    ensures CommitInView(d0, run, d', c)
  {
  }

  lemma StepInView(d0: Database, run: Run, s: System, pid: nat, result: (Database, Commit))
    requires InFlight(d0, run, s) && SystemInv(After(s, pid, result)) && Known(result.0, run)
    requires var d, d' := View(s.db, run.core.scope.venue), View(result.0, run.core.scope.venue);
             (d' == d || Beyond(d0, run, d')) && CommitInView(d0, run, d', result.1)
    ensures InFlight(d0, run, After(s, pid, result))
  {
    var d, d' := View(s.db, run.core.scope.venue), View(result.0, run.core.scope.venue);
    var next := After(s, pid, result);
    forall p | p in next.commits ensures CommitInView(d0, run, d', next.commits[p]) {
      if p != pid {
        StillInView(d0, run, d, d', s.commits[p]);
      }
    }
  }

  lemma GrowthKeepsKnown(a: Database, b: Database, run: Run)
    requires Grows(a, b) && Known(a, run)
    ensures Known(b, run)
  {
  }

  lemma StepsKeepRun(db: Database, c: Commit)
    ensures RecordEvidence(db, c).1.Finished? || RecordEvidence(db, c).1.run == c.run
    ensures AdvanceCursor(db, c).1.Finished? || AdvanceCursor(db, c).1.run == c.run
    ensures FinalizeBlocked(db, c).1.Finished? || FinalizeBlocked(db, c).1.run == c.run
  {
  }

  /** A step of another venue's commit leaves this view and this run's commits alone. */
  lemma ElsewhereInView(d0: Database, run: Run, s: System, pid: nat, result: (Database, Commit))
    requires InFlight(d0, run, s) && SystemInv(After(s, pid, result)) && Known(result.0, run)
    requires !CommitOf(s, pid).Finished? && !About(CommitOf(s, pid), run.runId)
    requires result.1.Finished? || result.1.run == CommitOf(s, pid).run
    requires View(result.0, run.core.scope.venue) == View(s.db, run.core.scope.venue)
    ensures InFlight(d0, run, After(s, pid, result))
  {
  }

  /** A step of one of this run's commits that leaves it fitting. */
  lemma HereInView(d0: Database, run: Run, s: System, pid: nat, result: (Database, Commit))
    requires InFlight(d0, run, s) && SystemInv(After(s, pid, result)) && Known(result.0, run)
    requires About(CommitOf(s, pid), run.runId) && (result.1.Finished? || result.1.run == CommitOf(s, pid).run)
    requires Beyond(d0, run, View(result.0, run.core.scope.venue))
    requires Fits(d0, run, View(result.0, run.core.scope.venue), result.1)
    ensures InFlight(d0, run, After(s, pid, result))
  {
    StepInView(d0, run, s, pid, result);
  }

  lemma UntouchedInView(d0: Database, run: Run, s: System, pid: nat)
    requires InFlight(d0, run, s) && SystemInv(After(s, pid, (s.db, CommitOf(s, pid))))
    ensures InFlight(d0, run, After(s, pid, (s.db, CommitOf(s, pid))))
  {
  }

  /** The commit a process is at, when it is not about this run, belongs to another venue. */
  lemma OthersAreElsewhere(d0: Database, run: Run, s: System, pid: nat)
    requires InFlight(d0, run, s) && !CommitOf(s, pid).Finished?
    ensures Here(s.db, CommitOf(s, pid), CommitOf(s, pid).run.core.scope.venue)
    ensures About(CommitOf(s, pid), run.runId) ==>
              CommitOf(s, pid).run.core.scope.venue == run.core.scope.venue
              && Fits(d0, run, View(s.db, run.core.scope.venue), CommitOf(s, pid))
    ensures !About(CommitOf(s, pid), run.runId) ==>
              CommitOf(s, pid).run.core.scope.venue != run.core.scope.venue
  {
  }

  lemma RecordStepHere(d0: Database, run: Run, s: System, pid: nat, result: (Database, Commit))
    requires InFlight(d0, run, s) && SystemInv(After(s, pid, result)) && Known(result.0, run)
    requires result == RecordEvidence(s.db, CommitOf(s, pid))
    requires CommitOf(s, pid).Cleared? && About(CommitOf(s, pid), run.runId)
    ensures InFlight(d0, run, After(s, pid, result))
  {
    var c, venue := CommitOf(s, pid), run.core.scope.venue;
    StepsKeepRun(s.db, c);
    OthersAreElsewhere(d0, run, s, pid);
    ViewOfRecordEvidence(s.db, c, venue);
    RecordFits(d0, run, View(s.db, venue));
    HereInView(d0, run, s, pid, result);
  }

  lemma RecordStepElsewhere(d0: Database, run: Run, s: System, pid: nat, result: (Database, Commit))
    requires InFlight(d0, run, s) && SystemInv(After(s, pid, result)) && Known(result.0, run)
    requires result == RecordEvidence(s.db, CommitOf(s, pid))
    requires CommitOf(s, pid).Cleared? && !About(CommitOf(s, pid), run.runId)
    ensures InFlight(d0, run, After(s, pid, result))
  {
    var c, venue := CommitOf(s, pid), run.core.scope.venue;
    StepsKeepRun(s.db, c);
    OthersAreElsewhere(d0, run, s, pid);
    ElsewhereUnseen(s.db, c, venue, c.run.core.scope.venue);
    ElsewhereInView(d0, run, s, pid, result);
  }

  lemma RecordStepInView(d0: Database, run: Run, s: System, pid: nat, result: (Database, Commit))
    requires InFlight(d0, run, s) && SystemInv(After(s, pid, result)) && Known(result.0, run)
    requires result == RecordEvidence(s.db, CommitOf(s, pid))
    ensures InFlight(d0, run, After(s, pid, result))
  {
    var c := CommitOf(s, pid);
    if !c.Cleared? {
      UntouchedInView(d0, run, s, pid);
    } else if About(c, run.runId) {
      RecordStepHere(d0, run, s, pid, result);
    } else {
      RecordStepElsewhere(d0, run, s, pid, result);
    }
  }

  lemma AdvanceStepHere(d0: Database, run: Run, s: System, pid: nat, result: (Database, Commit))
    requires InFlight(d0, run, s) && SystemInv(After(s, pid, result)) && Known(result.0, run)
    requires result == AdvanceCursor(s.db, CommitOf(s, pid))
    requires CommitOf(s, pid).Evidenced? && About(CommitOf(s, pid), run.runId)
    ensures InFlight(d0, run, After(s, pid, result))
  {
    var c, venue := CommitOf(s, pid), run.core.scope.venue;
    StepsKeepRun(s.db, c);
    OthersAreElsewhere(d0, run, s, pid);
    ViewOfAdvance(s.db, c, venue);
    AdvanceFits(d0, run, View(s.db, venue), c);
    HereInView(d0, run, s, pid, result);
  }

  lemma AdvanceStepElsewhere(d0: Database, run: Run, s: System, pid: nat, result: (Database, Commit))
    requires InFlight(d0, run, s) && SystemInv(After(s, pid, result)) && Known(result.0, run)
    requires result == AdvanceCursor(s.db, CommitOf(s, pid))
    requires CommitOf(s, pid).Evidenced? && !About(CommitOf(s, pid), run.runId)
    ensures InFlight(d0, run, After(s, pid, result))
  {
    var c, venue := CommitOf(s, pid), run.core.scope.venue;
    StepsKeepRun(s.db, c);
    OthersAreElsewhere(d0, run, s, pid);
    ElsewhereUnseen(s.db, c, venue, c.run.core.scope.venue);
    ElsewhereInView(d0, run, s, pid, result);
  }

  lemma AdvanceStepInView(d0: Database, run: Run, s: System, pid: nat, result: (Database, Commit))
    requires InFlight(d0, run, s) && SystemInv(After(s, pid, result)) && Known(result.0, run)
    requires result == AdvanceCursor(s.db, CommitOf(s, pid))
    ensures InFlight(d0, run, After(s, pid, result))
  {
    var c := CommitOf(s, pid);
    if !c.Evidenced? {
      UntouchedInView(d0, run, s, pid);
    } else if About(c, run.runId) {
      AdvanceStepHere(d0, run, s, pid, result);
    } else {
      AdvanceStepElsewhere(d0, run, s, pid, result);
    }
  }

  lemma FinalizeStepHere(d0: Database, run: Run, s: System, pid: nat, result: (Database, Commit))
    requires InFlight(d0, run, s) && SystemInv(After(s, pid, result)) && Known(result.0, run)
    requires result == FinalizeBlocked(s.db, CommitOf(s, pid))
    requires CommitOf(s, pid).Blocking? && About(CommitOf(s, pid), run.runId)
    ensures InFlight(d0, run, After(s, pid, result))
  {
    var c, venue := CommitOf(s, pid), run.core.scope.venue;
    StepsKeepRun(s.db, c);
    OthersAreElsewhere(d0, run, s, pid);
    ViewOfFinalize(s.db, c, venue);
    FinalizeFits(d0, run, View(s.db, venue), c);
    HereInView(d0, run, s, pid, result);
  }

  lemma FinalizeStepElsewhere(d0: Database, run: Run, s: System, pid: nat, result: (Database, Commit))
    requires InFlight(d0, run, s) && SystemInv(After(s, pid, result)) && Known(result.0, run)
    requires result == FinalizeBlocked(s.db, CommitOf(s, pid))
    requires CommitOf(s, pid).Blocking? && !About(CommitOf(s, pid), run.runId)
    ensures InFlight(d0, run, After(s, pid, result))
  {
    var c, venue := CommitOf(s, pid), run.core.scope.venue;
    StepsKeepRun(s.db, c);
    OthersAreElsewhere(d0, run, s, pid);
    ElsewhereUnseen(s.db, c, venue, c.run.core.scope.venue);
    ElsewhereInView(d0, run, s, pid, result);
  }

  lemma FinalizeStepInView(d0: Database, run: Run, s: System, pid: nat, result: (Database, Commit))
    requires InFlight(d0, run, s) && SystemInv(After(s, pid, result)) && Known(result.0, run)
    requires result == FinalizeBlocked(s.db, CommitOf(s, pid))
    ensures InFlight(d0, run, After(s, pid, result))
  {
    var c := CommitOf(s, pid);
    if !c.Blocking? {
      UntouchedInView(d0, run, s, pid);
    } else if About(c, run.runId) {
      FinalizeStepHere(d0, run, s, pid, result);
    } else {
      FinalizeStepElsewhere(d0, run, s, pid, result);
    }
  }

  lemma BeginInView(d0: Database, run: Run, s: System, pid: nat, runId: Token)
    requires InFlight(d0, run, s) && Isolated(s, Begin(pid, runId), run) && SystemInv(Next(s, Begin(pid, runId)))
    ensures InFlight(d0, run, Next(s, Begin(pid, runId)))
  {
    var venue := run.core.scope.venue;
    if CommitOf(s, pid).Finished? {
      if runId == run.runId {
        KnownIndex(s.db, run);
        ViewOfOpen(s.db, venue, runId);
        OpenFits(d0, run, View(s.db, venue));
      }
      StepInView(d0, run, s, pid, (s.db, OpenRun(s.db, runId)));
    }
  }

  lemma PrepareElsewhere(db: Database, p: CollectorPreview, release: seq<Blocker>, venue: Venue)
    requires p.core.scope.venue != venue
    ensures View(PrepareRun(db, p, release).0, venue) == View(db, venue)
  {
  }

  /** A change that this venue does not see. */
  lemma UnseenInFlight(d0: Database, run: Run, s: System, db: Database)
    requires InFlight(d0, run, s) && SystemInv(s.(db := db)) && Known(db, run)
    requires View(db, run.core.scope.venue) == View(s.db, run.core.scope.venue)
    ensures InFlight(d0, run, s.(db := db))
  {
    hide SystemInv, View, CommitInView, Stage, Known, HasPrepared;
  }

  lemma StillKnown(d0: Database, run: Run, s: System, a: Action)
    requires InFlight(d0, run, s) && Possible(a)
    ensures SystemInv(s) && SystemInv(Next(s, a)) && Known(Next(s, a).db, run)
  {
    hide SystemInv, Next, Grows, Known, View, CommitInView, Stage;
    NextKeepsInv(s, a);
    GrowthKeepsKnown(s.db, Next(s, a).db, run);
  }

  lemma CheckInFlight(d0: Database, run: Run, s: System, pid: nat, release: seq<Blocker>)
    requires InFlight(d0, run, s) && Isolated(s, ReleaseCheck(pid, release), run)
    requires SystemInv(Next(s, ReleaseCheck(pid, release)))
    ensures InFlight(d0, run, Next(s, ReleaseCheck(pid, release)))
  {
    hide SystemInv, View, Stage, AfterRecording, AfterCommit;
    StepInView(d0, run, s, pid, (s.db, CheckRelease(CommitOf(s, pid), release)));
  }

  lemma IsolatedStepInFlight(d0: Database, run: Run, s: System, a: Action)
    requires InFlight(d0, run, s) && Possible(a) && Isolated(s, a, run)
    ensures InFlight(d0, run, Next(s, a))
  {
    hide InFlight, SystemInv, Known, View, Possible, PrepareRun, Record, RecordEvidence, AdvanceCursor, FinalizeBlocked,
         OpenRun;
    StillKnown(d0, run, s, a);
    var venue := run.core.scope.venue;
    match a {
      case Prepare(preview, release) =>
        PrepareElsewhere(s.db, preview, release, venue);
        UnseenInFlight(d0, run, s, Next(s, a).db);
      case ExternalRecord(evidence) =>
        RecordElsewhere(s.db, evidence, venue);
        UnseenInFlight(d0, run, s, Next(s, a).db);
      case Begin(pid, runId) => BeginInView(d0, run, s, pid, runId);
      case ReleaseCheck(pid, release) => CheckInFlight(d0, run, s, pid, release);
      case RecordStep(pid) => RecordStepInView(d0, run, s, pid, RecordEvidence(s.db, CommitOf(s, pid)));
      case AdvanceStep(pid) => AdvanceStepInView(d0, run, s, pid, AdvanceCursor(s.db, CommitOf(s, pid)));
      case FinalizeStep(pid) => FinalizeStepInView(d0, run, s, pid, FinalizeBlocked(s.db, CommitOf(s, pid)));
      case Crash(pid) => CrashInFlight(d0, run, s, pid);
    }
  }

  lemma RecordElsewhere(db: Database, p: LifecyclePreview, venue: Venue)
    requires p.core.scope.venue != venue
    ensures View(db.(store := Record(db.store, p).0), venue) == View(db, venue)
  {
    hide Record, StoreView;
    ViewOfRecord(db.store, p, venue);
  }

  lemma CrashInFlight(d0: Database, run: Run, s: System, pid: nat)
    requires InFlight(d0, run, s) && SystemInv(Next(s, Crash(pid)))
    ensures InFlight(d0, run, Next(s, Crash(pid)))
  {
    hide SystemInv, View, Stage, AfterRecording, AfterCommit;
    StepInView(d0, run, s, pid, (s.db, Finished));
  }

  lemma {:induction false} StaysInFlight(d0: Database, run: Run, s: System, actions: seq<Action>)
    requires InFlight(d0, run, s) && AllPossible(actions) && Undisturbed(s, actions, run)
    ensures InFlight(d0, run, Play(s, actions))
  {
    hide InFlight, Next, Possible, Isolated;
    if actions != [] {
      StaysInFlight(d0, run, s, actions[..|actions| - 1]);
      IsolatedStepInFlight(d0, run, Play(s, actions[..|actions| - 1]), actions[|actions| - 1]);
    }
  }

  /** The three database steps of a commit, from one that is cleared. */
  function Committed(db: Database, c: Commit): Database {
    var (db1, c1) := RecordEvidence(db, c);
    var (db2, c2) := AdvanceCursor(db1, c1);
    FinalizeBlocked(db2, c2).0
  }

  lemma StaysHere(db: Database, c: Commit, venue: Venue)
    requires Inv(db) && CommitFits(db, c) && (c.Finished? || c.run.core.scope.venue == venue)
    ensures Here(db, c, venue)
  {
  }

  lemma RecordingSeen(db: Database, c: Commit, venue: Venue)
    requires Inv(db) && CommitFits(db, c) && (c.Finished? || c.run.core.scope.venue == venue)
    ensures var (db1, c1) := RecordEvidence(db, c);
            && RecordEvidence(View(db, venue), c) == (View(db1, venue), c1)
            && Inv(db1) && CommitFits(db1, c1) && (c1.Finished? || c1.run.core.scope.venue == venue)
  {
    StaysHere(db, c, venue);
    ViewOfRecordEvidence(db, c, venue);
    CommitStepKeeps(db, c);
    StepsKeepRun(db, c);
  }

  lemma AdvanceSeen(db: Database, c: Commit, venue: Venue)
    requires Inv(db) && CommitFits(db, c) && (c.Finished? || c.run.core.scope.venue == venue)
    ensures var (db2, c2) := AdvanceCursor(db, c);
            && AdvanceCursor(View(db, venue), c) == (View(db2, venue), c2)
            && Inv(db2) && CommitFits(db2, c2) && (c2.Finished? || c2.run.core.scope.venue == venue)
  {
    StaysHere(db, c, venue);
    ViewOfAdvance(db, c, venue);
    CommitStepKeeps(db, c);
    StepsKeepRun(db, c);
  }

  lemma CommittedSeen(db: Database, c: Commit, venue: Venue)
    requires Inv(db) && CommitFits(db, c) && (c.Finished? || c.run.core.scope.venue == venue)
    ensures View(Committed(db, c), venue) == Committed(View(db, venue), c)
  {
    RecordingSeen(db, c, venue);
    var (db1, c1) := RecordEvidence(db, c);
    AdvanceSeen(db1, c1, venue);
    var (db2, c2) := AdvanceCursor(db1, c1);
    StaysHere(db2, c2, venue);
    ViewOfFinalize(db2, c2, venue);
  }

  lemma CommitIsCommitted(db: Database, runId: Token)
    ensures CommitPrepared(db, runId, []) == Committed(db, CheckRelease(OpenRun(db, runId), []))
  {
  }

  /** The commit of a stored run of the venue, seen from the venue. */
  lemma ViewOfCommit(db: Database, runId: Token, venue: Venue)
    requires Inv(db) && RunIndex(db.runs, runId) >= 0
    requires db.runs[RunIndex(db.runs, runId)].core.scope.venue == venue
    ensures View(CommitPrepared(db, runId, []), venue) == CommitPrepared(View(db, venue), runId, [])
  {
    ViewOfOpen(db, venue, runId);
    OpenKeeps(db, runId);
    CommitIsCommitted(db, runId);
    CommitIsCommitted(View(db, venue), runId);
    CommittedSeen(db, CheckRelease(OpenRun(db, runId), []), venue);
  }

  predicate NothingInFlight(s: System, venue: Venue) {
    forall pid :: pid in s.commits ==>
      s.commits[pid].Finished? || s.commits[pid].run.core.scope.venue != venue
  }

  lemma StartsInFlight(s: System, run: Run)
    requires SystemInv(s) && HasPrepared(s.db, run) && NothingInFlight(s, run.core.scope.venue)
    ensures InFlight(View(s.db, run.core.scope.venue), run, s)
  {
    var venue := run.core.scope.venue;
    var k := RunIndex(s.db.runs, run.runId);
    assert RunFits(s.db, s.db.runs[k]);
    ViewFindsRun(s.db.runs, venue, run.runId);
    forall pid | pid in s.commits
      ensures CommitInView(View(s.db, venue), run, View(s.db, venue), s.commits[pid])
    {
      var c := s.commits[pid];
      assert CommitFits(s.db, c);
      if About(c, run.runId) {
        KnownIndex(s.db, c.run);
        assert false;
      }
    }
  }

  /** Crash refinement.  Start where a run is prepared and no commit of its venue is in flight; let any
      undisturbed interleaving of commits, retries and crashes happen.  One retry that is not
      interrupted then leaves the venue exactly as one uninterrupted commit would have left it at
      the start; and once the run is no longer prepared, that is already the case. */
  lemma CrashRefinement(s: System, run: Run, actions: seq<Action>)
    requires SystemInv(s) && HasPrepared(s.db, run) && NothingInFlight(s, run.core.scope.venue)
    requires AllPossible(actions) && Undisturbed(s, actions, run)
    ensures var venue, later := run.core.scope.venue, Play(s, actions).db;
            View(CommitPrepared(later, run.runId, []), venue)
            == View(CommitPrepared(s.db, run.runId, []), venue)
    ensures var venue, later := run.core.scope.venue, Play(s, actions).db;
            RunIndex(later.runs, run.runId) >= 0
            && (!later.runs[RunIndex(later.runs, run.runId)].status.Prepared? ==>
                  View(later, venue) == View(CommitPrepared(s.db, run.runId, []), venue))
  {
    var venue, later := run.core.scope.venue, Play(s, actions).db;
    var d0, d := View(s.db, venue), View(later, venue);
    StartsInFlight(s, run);
    StaysInFlight(d0, run, s, actions);
    KnownIndex(later, run);
    ViewOfCommit(s.db, run.runId, venue);
    ViewOfCommit(later, run.runId, venue);
    UninterruptedCommit(d0, run);
    RetryCompletes(d0, run, d);
    if !later.runs[RunIndex(later.runs, run.runId)].status.Prepared? {
      ViewFindsRun(later.runs, venue, run.runId);
      StageStores(d0, run, d);
    }
  }

  lemma PreparedRunIsStored(db: Database, p: CollectorPreview, release: seq<Blocker>)
    requires PrepareRun(db, p, release).1.Answer? && PrepareRun(db, p, release).1.run.status.Prepared?
    ensures HasPrepared(PrepareRun(db, p, release).0, PrepareRun(db, p, release).1.run)
  {
  }

  /** `ingest` killed anywhere after its first transaction and retried by `commit_prepared` leaves its
      venue as the `ingest` that was never killed. */
  lemma IngestSurvivesCrashes(s: System, p: CollectorPreview, release: seq<Blocker>, actions: seq<Action>)
    requires SystemInv(s) && FromBatch(p)
    requires PrepareRun(s.db, p, release).1.Answer? && PrepareRun(s.db, p, release).1.run.status.Prepared?
    requires var prepared, run := Next(s, Prepare(p, release)), PrepareRun(s.db, p, release).1.run;
             NothingInFlight(prepared, run.core.scope.venue)
             && AllPossible(actions) && Undisturbed(prepared, actions, run)
    ensures var run := PrepareRun(s.db, p, release).1.run;
            View(CommitPrepared(Play(Next(s, Prepare(p, release)), actions).db, run.runId, []), run.core.scope.venue)
            == View(Ingest(s.db, p, release, []), run.core.scope.venue)
  {
    NextKeepsInv(s, Prepare(p, release));
    PreparedRunIsStored(s.db, p, release);
    CrashRefinement(Next(s, Prepare(p, release)), PrepareRun(s.db, p, release).1.run, actions);
  }
}
