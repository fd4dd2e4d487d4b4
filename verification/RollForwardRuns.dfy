/** Rolling a statement on disk: the ledger guard, the write, and any sequence of days. */
module RollForwardRuns {
  import opened LifecycleValues
  import opened Statement
  import opened RollForward

  /** A ledger row; a part that does not parse is None. */
  datatype LedgerEntry = LedgerEntry(id: Option<int>, eventAt: Option<int>, createdAt: Option<int>)

  /** Ledger rows, the ids a revision review lets pass, and the blocker of that review. */
  datatype Ledger = Ledger(entries: seq<LedgerEntry>, ignored: set<int>, integrity: Option<RollBlocker>)

  /** What the file system answers during one roll: whether metadata and bytes can be read, whether the size
      is allowed, whether the signature after reading and before writing is the one before reading, and
      whether the file can be replaced. */
  datatype Access = Access(
    statFails: bool, sizeFits: bool, readFails: bool, changedDuringRead: bool, changedBeforeWrite: bool,
    writeFails: bool)

  function ReadBlocker(io: Access): Option<RollBlocker> {
    if io.statFails then Some(FileUnreadable)
    else if !io.sizeFits then Some(FileSizeInvalid)
    else if io.readFails then Some(FileUnreadable)
    else if io.changedDuringRead then Some(FileChangedDuringRead)
    else None
  }

  function WriteBlocker(io: Access): Option<RollBlocker> {
    if io.changedBeforeWrite then Some(FileChangedBeforeWrite)
    else if io.writeFails then Some(WriteFailed)
    else None
  }

  /** Nothing else touches the file. */
  predicate Quiet(io: Access) { ReadBlocker(io).None? && WriteBlocker(io).None? }

  /** A file, whether its bytes are the ones the writer gives for its columns and rows (a byte-order mark,
      other line ends or other quoting would not be), and when it was last written. */
  datatype Disk = Disk(file: File, rendered: bool, modifiedAt: int)

  datatype RollStatus = Unchanged | RolledForward | RollBlocked(blocker: RollBlocker)

  // ---------------------------------------------------------------- the ledger guard

  predicate Ignored(entry: LedgerEntry, ignored: set<int>) {
    entry.id.Some? && entry.id.value in ignored
  }

  predicate Malformed(entry: LedgerEntry, ignored: set<int>) {
    entry.id.None? || (!Ignored(entry, ignored) && (entry.eventAt.None? || entry.createdAt.None?))
  }

  predicate HappenedAfter(entry: LedgerEntry, ignored: set<int>, instant: int) {
    !Ignored(entry, ignored) && entry.eventAt.Some? && entry.eventAt.value > instant
  }

  predicate CreatedAfter(entry: LedgerEntry, ignored: set<int>, instant: int) {
    !Ignored(entry, ignored) && entry.createdAt.Some? && entry.createdAt.value > instant
  }

  /** No ledger row may be newer than the newest source event, or recorded after the file was
      written. */
  function GuardBlocker(ledger: Ledger, latestSource: int, modifiedAt: int): Option<RollBlocker> {
    if exists e :: e in ledger.entries && Malformed(e, ledger.ignored) then Some(LedgerRecordInvalid)
    else if exists e :: e in ledger.entries && HappenedAfter(e, ledger.ignored, latestSource) then
      Some(SourcePredatesLedgerEvent)
    else if exists e :: e in ledger.entries && CreatedAfter(e, ledger.ignored, modifiedAt) then
      Some(SourcePredatesLedgerRevision)
    else None
  }

  function Later(a: Option<int>, b: int): (r: int)
    ensures r >= b && (a.Some? ==> r >= a.value) && (r == b || a == Some(r))
  {
    if a.Some? && a.value > b then a.value else b
  }

  lemma GuardStep(entries: seq<LedgerEntry>, ignored: set<int>, i: nat, instant: int)
    requires i < |entries|
    ensures (exists e :: e in entries[..i + 1] && HappenedAfter(e, ignored, instant))
            <==> HappenedAfter(entries[i], ignored, instant)
                 || exists e :: e in entries[..i] && HappenedAfter(e, ignored, instant)
    ensures (exists e :: e in entries[..i + 1] && CreatedAfter(e, ignored, instant))
            <==> CreatedAfter(entries[i], ignored, instant)
                 || exists e :: e in entries[..i] && CreatedAfter(e, ignored, instant)
  {
  }

  /** The loop of the source: two running maxima, and a row it cannot read ends it. */
  method CheckLedger(ledger: Ledger, latestSource: int, modifiedAt: int) returns (blocker: Option<RollBlocker>)
    ensures blocker == GuardBlocker(ledger, latestSource, modifiedAt)
  {
    var latestEventAt: Option<int>, latestCreatedAt: Option<int> := None, None;
    var entries, ignored := ledger.entries, ledger.ignored;
    for i := 0 to |entries|
      invariant forall e :: e in entries[..i] ==> !Malformed(e, ignored)
      invariant latestEventAt.Some? && latestEventAt.value > latestSource
                <==> exists e :: e in entries[..i] && HappenedAfter(e, ignored, latestSource)
      invariant latestCreatedAt.Some? && latestCreatedAt.value > modifiedAt
                <==> exists e :: e in entries[..i] && CreatedAfter(e, ignored, modifiedAt)
    {
      var entry := entries[i];
      assert entries[..i + 1] == entries[..i] + [entry];
      if Malformed(entry, ignored) {
        assert entry in entries;
        return Some(LedgerRecordInvalid);
      }
      GuardStep(entries, ignored, i, latestSource);
      GuardStep(entries, ignored, i, modifiedAt);
      if !Ignored(entry, ignored) {
        latestEventAt := Some(Later(latestEventAt, entry.eventAt.value));
        latestCreatedAt := Some(Later(latestCreatedAt, entry.createdAt.value));
      }
    }
    assert entries[..|entries|] == entries;
    if latestEventAt.Some? && latestEventAt.value > latestSource {
      return Some(SourcePredatesLedgerEvent);
    }
    if latestCreatedAt.Some? && latestCreatedAt.value > modifiedAt {
      return Some(SourcePredatesLedgerRevision);
    }
    blocker := None;
  }

  // ---------------------------------------------------------------- one roll

  /** Instant of the newest source event. */
  function LatestSource(base: seq<Row>): int {
    var events := InOrder(ByInstant, Clean(base));
    if events == [] || events[|events| - 1].row.occurredAt.at.None? then 0
    else events[|events| - 1].row.occurredAt.at.value
  }

  function Roll(disk: Disk, day: nat, ledger: Ledger, io: Access, now: int): (Disk, RollStatus) {
    if ReadBlocker(io).Some? then (disk, RollBlocked(ReadBlocker(io).value))
    else
      match Prepare(disk.file, day)
      case Refused(blocker) => (disk, RollBlocked(blocker))
      case Ready(output, source, _) =>
        var guard := GuardBlocker(ledger, LatestSource(source), disk.modifiedAt);
        if ledger.integrity.Some? then (disk, RollBlocked(ledger.integrity.value))
        else if guard.Some? then (disk, RollBlocked(guard.value))
        else if output == disk.file && disk.rendered then (disk, Unchanged)
        else if WriteBlocker(io).Some? then (disk, RollBlocked(WriteBlocker(io).value))
        else (Disk(output, true, now), RolledForward)
  }

  /** The file that is replaced: its content, and when it was last written. */
  class StatementFile {
    var file: File
    var rendered: bool
    var modifiedAt: int

    function Contents(): Disk
      reads this
    {
      Disk(file, rendered, modifiedAt)
    }

    constructor (disk: Disk)
      ensures Contents() == disk
    {
      file, rendered, modifiedAt := disk.file, disk.rendered, disk.modifiedAt;
    }

    /** What has to hold before anything is compared with the file; answers with the prepared output. */
    method PrepareRoll(day: nat, ledger: Ledger, io: Access) returns (outcome: Outcome)
      ensures outcome
              == if ReadBlocker(io).Some? then Refused(ReadBlocker(io).value)
                 else if Prepare(file, day).Refused? then Prepare(file, day)
                 else if ledger.integrity.Some? then Refused(ledger.integrity.value)
                 else
                   var guard := GuardBlocker(ledger, LatestSource(Prepare(file, day).source), modifiedAt);
                   if guard.Some? then Refused(guard.value) else Prepare(file, day)
    {
      if io.statFails {
        return Refused(FileUnreadable);
      }
      if !io.sizeFits {
        return Refused(FileSizeInvalid);
      }
      if io.readFails {
        return Refused(FileUnreadable);
      }
      if io.changedDuringRead {
        return Refused(FileChangedDuringRead);
      }
      outcome := PrepareRollForward(file, day);
      if outcome.Ready? {
        if ledger.integrity.Some? {
          return Refused(ledger.integrity.value);
        }
        var guard := CheckLedger(ledger, LatestSource(outcome.source), modifiedAt);
        if guard.Some? {
          return Refused(guard.value);
        }
      }
    }

    method RollTo(day: nat, ledger: Ledger, io: Access, now: int) returns (status: RollStatus)
      modifies this
      ensures (Contents(), status) == Roll(old(Contents()), day, ledger, io, now)
    {
      var prepared := PrepareRoll(day, ledger, io);
      if prepared.Refused? {
        return RollBlocked(prepared.blocker);
      }
      if prepared.output == file && rendered {
        return Unchanged;
      }
      if io.changedBeforeWrite {
        return RollBlocked(FileChangedBeforeWrite);
      }
      if io.writeFails {
        return RollBlocked(WriteFailed);
      }
      file, rendered, modifiedAt := prepared.output, true, now;
      status := RolledForward;
    }
  }

  // ---------------------------------------------------------------- laws of one roll

  lemma LaterFilePassesGuard(ledger: Ledger, latestSource: int, earlier: int, later: int)
    requires earlier <= later && GuardBlocker(ledger, latestSource, earlier).None?
    ensures GuardBlocker(ledger, latestSource, later).None?
  {
  }

  lemma RollGivesPrepared(disk: Disk, day: nat, ledger: Ledger, io: Access, now: int)
    ensures var (next, status) := Roll(disk, day, ledger, io, now);
            if status.RollBlocked? then next == disk
            else Prepare(disk.file, day).Ready? && next.file == Prepare(disk.file, day).output
                 && next.rendered && (next == disk || next.modifiedAt == now)
  {
  }

  lemma AlreadyPrepared(disk: Disk, day: nat, ledger: Ledger, io: Access, now: int)
    requires ReadBlocker(io).None? && disk.rendered
    requires Prepare(disk.file, day).Ready? && Prepare(disk.file, day).output == disk.file
    requires ledger.integrity.None?
    requires GuardBlocker(ledger, LatestSource(Prepare(disk.file, day).source), disk.modifiedAt).None?
    ensures Roll(disk, day, ledger, io, now) == (disk, Unchanged)
  {
  }

  lemma UnblockedMeans(disk: Disk, day: nat, ledger: Ledger, io: Access, now: int)
    requires !Roll(disk, day, ledger, io, now).1.RollBlocked?
    ensures Prepare(disk.file, day).Ready? && ledger.integrity.None?
    ensures GuardBlocker(ledger, LatestSource(Prepare(disk.file, day).source), disk.modifiedAt).None?
  {
  }

  /** Rolling again to the same day, with the same ledger, changes nothing, if only the file can be read. */
  lemma SecondRollIsUnchanged(disk: Disk, day: nat, ledger: Ledger, io: Access, again: Access, now: int, later: int)
    requires now >= disk.modifiedAt && !Roll(disk, day, ledger, io, now).1.RollBlocked? && ReadBlocker(again).None?
    ensures var next := Roll(disk, day, ledger, io, now).0; Roll(next, day, ledger, again, later) == (next, Unchanged)
  {
    hide Prepare, GuardBlocker, Roll;
    var next := Roll(disk, day, ledger, io, now).0;
    UnblockedMeans(disk, day, ledger, io, now);
    RollGivesPrepared(disk, day, ledger, io, now);
    RollingComposes(disk.file, day, day);
    LaterFilePassesGuard(ledger, LatestSource(Prepare(disk.file, day).source), disk.modifiedAt, next.modifiedAt);
    AlreadyPrepared(next, day, ledger, again, later);
  }

  /** A roll that nothing disturbs depends on what is prepared, and a later file passes wherever an earlier
      one did. */
  lemma SamePreparationSameRoll(a: Disk, b: Disk, day: nat, ledger: Ledger, io: Access, now: int)
    requires Prepare(b.file, day) == Prepare(a.file, day) && a.modifiedAt <= b.modifiedAt && Quiet(io)
    requires !Roll(a, day, ledger, io, now).1.RollBlocked?
    ensures !Roll(b, day, ledger, io, now).1.RollBlocked?
    ensures Roll(b, day, ledger, io, now).0.file == Roll(a, day, ledger, io, now).0.file
  {
    hide Prepare, GuardBlocker;
    LaterFilePassesGuard(ledger, LatestSource(Prepare(a.file, day).source), a.modifiedAt, b.modifiedAt);
  }

  /** A detour over another day ends where the direct roll ends. */
  lemma RollsCompose(
      disk: Disk, first: nat, second: nat, ledger: Ledger, io: Access, quiet: Access, now: int, after: int)
    requires now >= disk.modifiedAt && Quiet(quiet)
    requires !Roll(disk, first, ledger, io, now).1.RollBlocked? && !Roll(disk, second, ledger, quiet, after).1.RollBlocked?
    ensures var direct, detour := Roll(disk, second, ledger, quiet, after),
                                  Roll(Roll(disk, first, ledger, io, now).0, second, ledger, quiet, after);
            !detour.1.RollBlocked? && detour.0.file == direct.0.file
  {
    hide Prepare, GuardBlocker, Roll;
    RollGivesPrepared(disk, first, ledger, io, now);
    RollingComposes(disk.file, first, second);
    SamePreparationSameRoll(disk, Roll(disk, first, ledger, io, now).0, second, ledger, quiet, after);
  }

  // ---------------------------------------------------------------- whole runs

  datatype Step = Step(day: nat, ledger: Ledger, io: Access, now: int)

  function RollAll(disk: Disk, steps: seq<Step>): Disk {
    if steps == [] then disk
    else
      var before, last := RollAll(disk, steps[..|steps| - 1]), steps[|steps| - 1];
      Roll(before, last.day, last.ledger, last.io, last.now).0
  }

  /** Index of the last roll that was not blocked, or -1. */
  function LastUnblocked(disk: Disk, steps: seq<Step>): (k: int)
    ensures -1 <= k < |steps|
  {
    if steps == [] then -1
    else
      var front, last := steps[..|steps| - 1], steps[|steps| - 1];
      if !Roll(RollAll(disk, front), last.day, last.ledger, last.io, last.now).1.RollBlocked? then |steps| - 1
      else LastUnblocked(disk, front)
  }

  /** Preparing after some rolls is preparing the original. */
  lemma {:induction false} PrepareLooksThrough(disk: Disk, steps: seq<Step>, day: nat)
    ensures Prepare(RollAll(disk, steps).file, day) == Prepare(disk.file, day)
  {
    if steps != [] {
      var front, last := steps[..|steps| - 1], steps[|steps| - 1];
      PrepareLooksThrough(disk, front, day);
      var before := RollAll(disk, front);
      RollGivesPrepared(before, last.day, last.ledger, last.io, last.now);
      if !Roll(before, last.day, last.ledger, last.io, last.now).1.RollBlocked? {
        RollingComposes(before.file, last.day, day);
      }
    }
  }

  /** Over any sequence of days, ledgers and disturbances the file is the preparation of the original for the day of
      the last roll that was not blocked. */
  lemma {:induction false} LastRollDecides(disk: Disk, steps: seq<Step>)
    ensures var k := LastUnblocked(disk, steps);
            if k < 0 then RollAll(disk, steps) == disk
            else Prepare(disk.file, steps[k].day).Ready?
                 && RollAll(disk, steps).file == Prepare(disk.file, steps[k].day).output && RollAll(disk, steps).rendered
  {
    if steps != [] {
      var front, last := steps[..|steps| - 1], steps[|steps| - 1];
      LastRollDecides(disk, front);
      RollGivesPrepared(RollAll(disk, front), last.day, last.ledger, last.io, last.now);
      PrepareLooksThrough(disk, front, last.day);
    }
  }

  /** So the source rows, and with them the source fingerprint, never change. */
  lemma SourceStays(disk: Disk, steps: seq<Step>)
    ensures Base(RollAll(disk, steps).file.rows) == Base(disk.file.rows)
  {
    LastRollDecides(disk, steps);
    var k := LastUnblocked(disk, steps);
    if k >= 0 {
      OutputKeepsBase(disk.file, steps[k].day);
    }
  }
}
