/**
 The two repositories as objects.  Their methods insert and update rows in place, one
 transaction at a time, and are proved against the transactions on values: what was proved of
 those functions holds of these objects.
 */
module Repositories {
  import opened LifecycleValues
  import opened LifecyclePreviews
  import opened LifecycleStore
  import opened CollectorPreviews
  import opened Collector

  class EvidenceRepository {
    var observations: seq<Observation>
    var orders: seq<OrderRow>
    var fills: seq<FillRow>

    function Contents(): Store
      reads this
    {
      Store(observations, orders, fills)
    }

    constructor ()
      ensures Contents() == EMPTY_STORE
    {
      observations, orders, fills := [], [], [];
    }

    /** Provider, account, sequence and capture time against the newest passed row of the venue. */
    method CheckLatest(latest: Option<Observation>, core: EvidenceCore) returns (blockers: seq<Blocker>)
      ensures blockers == LatestBlockers(latest, core)
    {
      blockers := [];
      if latest.Some? {
        var row := latest.value.core;
        blockers := When(row.scope.provider != core.scope.provider, ProviderChanged);
        blockers := blockers + When(row.accountRef != core.accountRef, AccountIdentityChanged);
        if core.sequence < row.sequence {
          blockers := blockers + [SequenceRegressed];
        } else {
          blockers := blockers + When(core.sequence == row.sequence, SequenceConflict);
        }
        blockers := blockers + When(core.capturedAt <= row.capturedAt, CapturedAtNotMonotonic);
      }
    }

    /** Identity and contract against the newest row that names either order id. */
    method CheckTransaction(core: EvidenceCore) returns (blockers: seq<Blocker>)
      ensures blockers == TransactionBlockers(Contents(), core)
      ensures Sound(Contents()) ==> (blockers == [] <==> FollowsAll(observations, core))
    {
      if Sound(Contents()) {
        NothingFoundIff(Contents(), core);
      }
      blockers := CheckLatest(LatestPassed(observations, core.scope.venue), core);
      var conflicting := NewestMatch(observations, orders, core.scope, core.order);
      var drift: seq<Blocker> := [];
      if conflicting.Some? {
        drift := When(!SameIdentity(conflicting.value.core.order, core.order), OrderIdentityDrift);
        drift := drift + When(!SameContract(FindOrder(orders, conflicting.value.core).value, core.order), OrderContractDrift);
      }
      assert drift == MatchBlockers(conflicting, orders, core.order);
      blockers := blockers + drift;
    }

    method InsertOrder(core: EvidenceCore)
      modifies `orders
      ensures orders == old(orders) + [OrderRow(core, core.order)]
    {
      orders := orders + [OrderRow(core, core.order)];
    }

    /** Inserts row by row; a second fill with the same trade id violates the UNIQUE constraint. */
    method InsertFills(core: EvidenceCore) returns (ok: bool)
      modifies `fills
      ensures ok == DistinctTrades(core.fills)
      ensures ok ==> fills == old(fills) + FillRows(core)
    {
      var inserted: set<Token> := {};
      for i := 0 to |core.fills|
        invariant fills == old(fills) + FillRows(core)[..i]
        invariant forall t :: t in inserted <==> exists k :: 0 <= k < i && core.fills[k].tradeId == t
        invariant DistinctTrades(core.fills[..i])
      {
        if core.fills[i].tradeId in inserted {
          return false;
        }
        inserted := inserted + {core.fills[i].tradeId};
        fills := fills + [FillRow(core, core.fills[i])];
        assert core.fills[..i + 1] == core.fills[..i] + [core.fills[i]];
        assert FillRows(core)[..i + 1] == FillRows(core)[..i] + [FillRow(core, core.fills[i])];
      }
      assert core.fills[..|core.fills|] == core.fills;
      ok := true;
    }

    /** One transaction.  A violated constraint rolls every insert back. */
    method Record(p: LifecyclePreview) returns (outcome: RecordOutcome)
      modifies this
      ensures (Contents(), outcome) == LifecycleStore.Record(old(Contents()), p)
    {
      if !Intact(p) {
        return RecordRefused([PreviewIntegrity]);
      }
      var existing := FindObservation(observations, p.core);
      if existing.Some? {
        return Stored(existing.value, true);
      }
      var blockers := p.blockers;
      if blockers == [] {
        var extra := CheckTransaction(p.core);
        blockers := blockers + extra;
      }
      assert blockers == p.blockers + if p.blockers == [] then TransactionBlockers(Contents(), p.core) else [];
      var row := Observation(p.core, Unique(blockers) == [], Unique(blockers));
      assert row == NewRow(Contents(), p);
      var savepoint := (observations, orders, fills);
      observations := observations + [row];
      if row.pass {
        InsertOrder(p.core);
        var ok := InsertFills(p.core);
        if !ok {
          observations, orders, fills := savepoint.0, savepoint.1, savepoint.2;
          return ConstraintViolated;
        }
      }
      assert Contents() == Insert(old(Contents()), row);
      outcome := Stored(row, false);
    }
  }

  class CollectorRepository {
    const evidence: EvidenceRepository
    var runs: seq<Run>
    var cursors: map<Scope, Cursor>

    function Contents(): Database
      reads this, evidence
    {
      Database(runs, cursors, evidence.Contents())
    }

    constructor ()
      ensures Contents() == EMPTY_DATABASE && fresh(evidence)
    {
      evidence := new EvidenceRepository();
      runs, cursors := [], map[];
    }

    method CheckState(core: CollectorCore) returns (blockers: seq<Blocker>)
      ensures blockers == if core.scope in cursors then CursorRowBlockers(cursors[core.scope], core) else []
    {
      blockers := [];
      if core.scope in cursors {
        var state := cursors[core.scope];
        if state.accountRef != core.accountRef {
          blockers := blockers + [CollectorAccountChanged];
        }
        var had, has := Fields(state.deployment), Fields(core.deployment);
        ghost var account := blockers;
        assert account == account + ChangedFields(had, has, 0);
        for i := 0 to |had|
          invariant blockers == account + ChangedFields(had, has, i)
        {
          if had[i] != has[i] {
            blockers := blockers + [CollectorFieldChanged(i)];
          }
          assert blockers == account + ChangedFields(had, has, i + 1);
        }
      }
    }

    /** The prepare transaction; `release` is the answer of the release review asked before it. */
    method Prepare(p: CollectorPreview, release: seq<Blocker>) returns (outcome: PrepareOutcome)
      modifies `runs
      ensures (Contents(), outcome) == PrepareRun(old(Contents()), p, release)
    {
      if !PreviewIntact(p) {
        return PrepareRefused([PreviewIntegrity]);
      }
      var k := RunIndex(runs, p.runId);
      if k >= 0 {
        if runs[k].core != p.core {
          return PrepareRefused([RunIdConflict]);
        }
        return Answer(runs[k], true);
      }
      var core := p.core;
      var expected := ExpectedPrevious(Contents(), core.scope);
      var stateBlockers := CheckState(core);
      var blockers := core.blockers + release + stateBlockers;
      var prior := PriorAtCursor(runs, core.scope, core.runtime.cursorCurrent);
      var status, observationId := Prepared, None;
      var ordering: seq<Blocker> := [];
      if prior.Some? {
        if prior.value.core == core {
          status, observationId := Duplicate, prior.value.observationId;
        } else {
          ordering := [CursorEvidenceConflict];
        }
      } else if core.runtime.cursorPrevious < expected {
        ordering := [CursorOutOfOrder];
      } else if core.runtime.cursorPrevious > expected {
        ordering := [CursorGap];
      }
      assert ordering == OrderingBlockers(Contents(), core, prior);
      blockers := blockers + ordering;
      if Claimed(runs, core.scope, core.runtime.cursorCurrent) {
        blockers := blockers + [CursorAlreadyPrepared];
      }
      assert blockers == PrepareBlockers(Contents(), core, release, prior);
      blockers := Unique(blockers);
      if blockers != [] {
        status := BlockedRun;
      }
      var run := Run(p.runId, core, status, blockers, observationId, if status == Prepared then p.prepared else None);
      runs := runs + [run];
      outcome := Answer(run, false);
    }

    /** The recording step of a commit: the evidence repository's own transaction. */
    method RecordStep(c: Commit) returns (next: Commit)
      modifies evidence
      ensures (Contents(), next) == RecordEvidence(old(Contents()), c)
    {
      if !c.Cleared? {
        return c;
      }
      if c.run.prepared.None? {
        return Blocking(c.run, [RecordRejected, PreviewIntegrity], None);
      }
      var outcome := evidence.Record(c.run.prepared.value);
      match outcome {
        case RecordRefused(blockers) => next := Blocking(c.run, [RecordRejected] + blockers, None);
        case ConstraintViolated => next := Finished;
        case Stored(row, _) =>
          next := if row.pass then Evidenced(c.run, row.core)
                  else Blocking(c.run, [EvidenceBlocked] + row.blockers, Some(row.core));
      }
    }

    /** The second transaction of a commit: re-reads the run, then writes the cursor row and the run. */
    method AdvanceStep(c: Commit) returns (next: Commit)
      modifies `runs, `cursors
      ensures (Contents(), next) == AdvanceCursor(old(Contents()), c)
    {
      if !c.Evidenced? {
        return c;
      }
      var k := RunIndex(runs, c.run.runId);
      if k < 0 || !runs[k].status.Prepared? {
        return Finished;
      }
      var current := runs[k];
      if current.core.runtime.cursorPrevious != ExpectedPreviousFromRun(Contents(), current) {
        return Blocking(c.run, [CursorChangedDuringCommit], Some(c.observationId));
      }
      cursors := cursors[current.core.scope := CursorFor(current, c.observationId)];
      runs := runs[k := Run(current.runId, current.core, Recorded, [], Some(c.observationId), None)];
      next := Finished;
    }

    method FinalizeStep(c: Commit) returns (next: Commit)
      modifies `runs
      ensures (Contents(), next) == FinalizeBlocked(old(Contents()), c)
    {
      if !c.Blocking? {
        return c;
      }
      var k := RunIndex(runs, c.run.runId);
      if k >= 0 {
        runs := runs[k := Run(c.run.runId, runs[k].core, BlockedRun, Unique(c.blockers), c.blockedBy, None)];
      }
      next := Finished;
    }

    /** A commit that nothing interrupts; `release` is the review's second answer. */
    method CommitPrepared(runId: Token, release: seq<Blocker>)
      modifies this, evidence
      ensures Contents() == Collector.CommitPrepared(old(Contents()), runId, release)
    {
      var c := CheckRelease(OpenRun(Contents(), runId), release);
      c := RecordStep(c);
      c := AdvanceStep(c);
      c := FinalizeStep(c);
    }

    method Ingest(p: CollectorPreview, release: seq<Blocker>, recheck: seq<Blocker>)
      modifies this, evidence
      ensures Contents() == Collector.Ingest(old(Contents()), p, release, recheck)
    {
      var prepared := Prepare(p, release);
      if prepared.Answer? && prepared.run.status.Prepared? {
        CommitPrepared(prepared.run.runId, recheck);
      }
    }
  }
}
