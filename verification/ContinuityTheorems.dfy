/** Chains of continuous imports, and how the roll-forward moves along them. */
module ContinuityTheorems {
  import opened LifecycleValues
  import opened Statement
  import opened RollForward
  import opened Lineage
  import opened LineageOrders
  import opened Continuity

  // ---------------------------------------------------------------- one step

  /** Nothing lost, nothing changed; and once the earlier times are known, everything added is timed
      and no earlier than anything before. */
  predicate Extends(later: ActivityMap, earlier: ActivityMap) {
    && earlier.Keys <= later.Keys
    && (forall id :: id in earlier ==> Facts(later[id].row) == Facts(earlier[id].row))
    && (AllTimed(earlier, earlier.Keys) ==>
          AllTimed(later, later.Keys)
          && forall x, y :: x in later.Keys - earlier.Keys && y in earlier ==> TimeOf(earlier, y) <= TimeOf(later, x))
  }

  lemma SameFactsSameTime(a: ActivityMap, b: ActivityMap, id: EventId)
    requires id in a && id in b && Facts(a[id].row) == Facts(b[id].row)
    ensures Timed(a, id) == Timed(b, id) && TimeOf(a, id) == TimeOf(b, id)
  {
  }

  lemma NoBlockerExtends(current: ActivityMap, reviewed: ActivityMap, boundary: Option<int>)
    requires ActivityBlockers(current, reviewed, boundary) == []
    ensures Extends(current, reviewed)
    ensures !Unsafe(current, reviewed, boundary)
  {
    assert Removed(current, reviewed) == {} && Changed(current, reviewed) == {};
    forall id | id in reviewed
      ensures id in current && Facts(current[id].row) == Facts(reviewed[id].row)
    {
      assert id !in Removed(current, reviewed);
      assert id !in Changed(current, reviewed);
    }
    if AllTimed(reviewed, reviewed.Keys) {
      forall id | id in current.Keys ensures Timed(current, id) {
        if id in reviewed {
          SameFactsSameTime(current, reviewed, id);
        } else {
          assert id in Added(current, reviewed);
        }
      }
    }
  }

  lemma ExtendsIsTransitive(a: ActivityMap, b: ActivityMap, c: ActivityMap)
    requires Extends(b, a) && Extends(c, b) && AllTimed(a, a.Keys)
    ensures Extends(c, a)
  {
    forall x, y | x in c.Keys - a.Keys && y in a ensures TimeOf(a, y) <= TimeOf(c, x) {
      SameFactsSameTime(b, a, y);
      if x in b {
        SameFactsSameTime(c, b, x);
      }
    }
  }

  // ---------------------------------------------------------------- chains

  /** Every import is continuous with the one before it, and carries its daily snapshot. */
  predicate Chain(imports: seq<Import>) {
    |imports| < 2
    || (Chain(imports[..|imports| - 1]) && Continuous(imports[|imports| - 1], imports[|imports| - 2], true))
  }

  predicate FirstTimed(imports: seq<Import>) {
    imports != [] && AllTimed(KnownActivity(imports[0]), KnownActivity(imports[0]).Keys)
  }

  /** What every continuous import has. */
  predicate Sound(run: Import) {
    Project(run).blockers == [] && Activity(run.events).Some?
  }

  /** What one continuous step says. */
  lemma StepMeans(current: Import, reviewed: Import)
    requires Continuous(current, reviewed, true)
    ensures Sound(current) && Sound(reviewed) && Project(current).derivedCount >= 1
    ensures current.sourceType == reviewed.sourceType
    ensures Extends(KnownActivity(current), KnownActivity(reviewed))
    ensures !Unsafe(KnownActivity(current), KnownActivity(reviewed), Project(current).date)
  {
    assert ImportBlockers(current, reviewed, true) == [];
    NoBlockerExtends(KnownActivity(current), KnownActivity(reviewed), Project(current).date);
  }

  lemma ExtendsItself(a: ActivityMap)
    ensures Extends(a, a)
  {
  }

  predicate EachExtends(maps: seq<ActivityMap>) {
    forall i :: 0 < i < |maps| ==> Extends(maps[i], maps[i - 1])
  }

  lemma {:induction false} LastExtendsFirst(maps: seq<ActivityMap>)
    requires maps != [] && EachExtends(maps) && AllTimed(maps[0], maps[0].Keys)
    ensures Extends(maps[|maps| - 1], maps[0])
  {
    var n := |maps| - 1;
    if n == 0 {
      ExtendsItself(maps[0]);
    } else {
      LastExtendsFirst(maps[..n]);
      ExtendsIsTransitive(maps[0], maps[n - 1], maps[n]);
    }
  }

  lemma {:induction false} StepOfChain(imports: seq<Import>, i: nat)
    requires Chain(imports) && 0 < i < |imports|
    ensures Continuous(imports[i], imports[i - 1], true)
  {
    hide Continuous;
    if i < |imports| - 1 {
      StepOfChain(imports[..|imports| - 1], i);
    }
  }

  /** What a step of a chain says. */
  lemma StepOfChainMeans(imports: seq<Import>, i: nat)
    requires Chain(imports) && 0 < i < |imports|
    ensures Sound(imports[i]) && Sound(imports[i - 1]) && Project(imports[i]).derivedCount >= 1
    ensures imports[i].sourceType == imports[i - 1].sourceType
    ensures Extends(KnownActivity(imports[i]), KnownActivity(imports[i - 1]))
  {
    hide Continuous;
    StepOfChain(imports, i);
    StepMeans(imports[i], imports[i - 1]);
  }

  function KnownActivities(imports: seq<Import>): (maps: seq<ActivityMap>)
    ensures |maps| == |imports| && forall i :: 0 <= i < |imports| ==> maps[i] == KnownActivity(imports[i])
  {
    seq(|imports|, i requires 0 <= i < |imports| => KnownActivity(imports[i]))
  }

  lemma EachStepExtends(imports: seq<Import>, maps: seq<ActivityMap>)
    requires Chain(imports) && maps == KnownActivities(imports)
    ensures EachExtends(maps)
  {
    hide Continuous;
    forall i | 0 < i < |maps| ensures Extends(maps[i], maps[i - 1]) {
      StepOfChainMeans(imports, i);
    }
  }

  /** Continuity is transitive on activity: at the end of a chain nothing of the first import is lost
      or changed, and everything added is no earlier than the first import's latest activity. */
  lemma ChainExtends(imports: seq<Import>)
    requires Chain(imports) && FirstTimed(imports)
    ensures Extends(KnownActivity(imports[|imports| - 1]), KnownActivity(imports[0]))
  {
    EachStepExtends(imports, KnownActivities(imports));
    LastExtendsFirst(KnownActivities(imports));
  }

  lemma {:induction false} SameThroughout(xs: seq<Token>, i: nat)
    requires i < |xs| && forall j :: 0 < j < |xs| ==> xs[j] == xs[j - 1]
    ensures xs[i] == xs[0]
  {
    if i > 0 {
      SameThroughout(xs, i - 1);
    }
  }

  lemma StepHasOneSource(imports: seq<Import>, i: nat)
    requires Chain(imports) && 0 < i < |imports|
    ensures imports[i].sourceType == imports[i - 1].sourceType
  {
    StepOfChainMeans(imports, i);
  }

  lemma ChainHasOneSource(imports: seq<Import>)
    requires Chain(imports) && imports != []
    ensures imports[|imports| - 1].sourceType == imports[0].sourceType
  {
    hide Continuous;
    var sources := seq(|imports|, i requires 0 <= i < |imports| => imports[i].sourceType);
    forall j | 0 < j < |sources| ensures sources[j] == sources[j - 1] {
      StepHasOneSource(imports, j);
    }
    SameThroughout(sources, |imports| - 1);
  }

  lemma ChainIsSound(imports: seq<Import>)
    requires Chain(imports) && |imports| > 1
    ensures Sound(imports[0]) && Sound(imports[|imports| - 1])
    ensures Project(imports[|imports| - 1]).derivedCount >= 1
    ensures imports[|imports| - 1].sourceType == imports[0].sourceType
  {
    StepOfChainMeans(imports, 1);
    StepOfChainMeans(imports, |imports| - 1);
    ChainHasOneSource(imports);
  }

  lemma ExtendsLeavesSettlement(current: ActivityMap, reviewed: ActivityMap, boundary: Option<int>)
    requires Extends(current, reviewed) && AllTimed(reviewed, reviewed.Keys)
    ensures ActivityBlockers(current, reviewed, boundary)
            == When(Unsafe(current, reviewed, boundary), SettlementChangeUnsafe)
  {
  }

  /** Judged directly, the two ends of a chain differ at most in settlement dates. */
  lemma DirectDiffersOnlyInSettlement(imports: seq<Import>, requireSnapshot: bool)
    requires Chain(imports) && FirstTimed(imports) && |imports| > 1
    ensures var current, reviewed := imports[|imports| - 1], imports[0];
            Blockers(current, reviewed, requireSnapshot)
            == When(Unsafe(KnownActivity(current), KnownActivity(reviewed), Project(current).date), SettlementChangeUnsafe)
  {
    var current, reviewed := imports[|imports| - 1], imports[0];
    ChainIsSound(imports);
    ChainExtends(imports);
    ExtendsLeavesSettlement(KnownActivity(current), KnownActivity(reviewed), Project(current).date);
    SoundImports(current, reviewed, requireSnapshot);
  }

  lemma SoundImports(current: Import, reviewed: Import, requireSnapshot: bool)
    requires Sound(current) && Sound(reviewed) && Project(current).derivedCount >= 1
    requires current.sourceType == reviewed.sourceType
    ensures ImportBlockers(current, reviewed, requireSnapshot) == []
  {
  }

  // ---------------------------------------------------------------- settlement dates

  /** Snapshot dates never go back along the chain. */
  predicate DatesGrow(imports: seq<Import>) {
    |imports| < 3
    || (DatesGrow(imports[..|imports| - 1])
        && NotLater(Project(imports[|imports| - 2]).date, Project(imports[|imports| - 1]).date))
  }

  predicate NotLater(early: Option<int>, late: Option<int>) {
    early.Some? && late.Some? ==> early.value <= late.value
  }

  /** The settlement date of an event is the old one, or both lie within the boundary. */
  predicate SettlementHolds(current: ActivityMap, reviewed: ActivityMap, boundary: Option<int>, id: EventId)
    requires id in current && id in reviewed
  {
    current[id].row.settledAt == reviewed[id].row.settledAt || BothSettled(current[id], reviewed[id], boundary)
  }

  lemma SafeMeansHolds(current: ActivityMap, reviewed: ActivityMap, boundary: Option<int>, id: EventId)
    requires !Unsafe(current, reviewed, boundary) && id in current && id in reviewed
    requires Facts(current[id].row) == Facts(reviewed[id].row)
    ensures SettlementHolds(current, reviewed, boundary, id)
  {
  }

  lemma HoldsTransitive(a: ActivityMap, b: ActivityMap, c: ActivityMap, early: Option<int>, late: Option<int>, id: EventId)
    requires id in a && id in b && id in c
    requires SettlementHolds(b, a, early, id) && SettlementHolds(c, b, late, id)
    requires late.Some? && NotLater(early, late)
    ensures SettlementHolds(c, a, late, id)
  {
  }

  lemma CarriesDate(run: Import)
    requires Project(run).blockers == [] && Project(run).derivedCount >= 1
    ensures Project(run).date.Some?
  {
  }

  lemma {:induction false} ChainSettles(imports: seq<Import>, id: EventId)
    requires Chain(imports) && FirstTimed(imports) && DatesGrow(imports) && |imports| > 1
    requires id in KnownActivity(imports[0])
    ensures var n := |imports| - 1;
            id in KnownActivity(imports[n])
            && SettlementHolds(KnownActivity(imports[n]), KnownActivity(imports[0]), Project(imports[n]).date, id)
  {
    var n := |imports| - 1;
    var previous, current := KnownActivity(imports[n - 1]), KnownActivity(imports[n]);
    StepMeans(imports[n], imports[n - 1]);
    CarriesDate(imports[n]);
    ChainExtends(imports[..n]);
    SafeMeansHolds(current, previous, Project(imports[n]).date, id);
    if n > 1 {
      ChainSettles(imports[..n], id);
      HoldsTransitive(KnownActivity(imports[0]), previous, current, Project(imports[n - 1]).date,
                      Project(imports[n]).date, id);
    }
  }

  /** When snapshot dates never go back, the two ends of a chain are continuous themselves. */
  lemma DirectIsContinuous(imports: seq<Import>, requireSnapshot: bool)
    requires Chain(imports) && FirstTimed(imports) && DatesGrow(imports) && |imports| > 1
    ensures Continuous(imports[|imports| - 1], imports[0], requireSnapshot)
  {
    var current, reviewed := imports[|imports| - 1], imports[0];
    DirectDiffersOnlyInSettlement(imports, requireSnapshot);
    var a, r := KnownActivity(current), KnownActivity(reviewed);
    forall id | id in Resettled(a, r) ensures BothSettled(a[id], r[id], Project(current).date) {
      ChainSettles(imports, id);
    }
  }

  // ---------------------------------------------------------------- history

  function StepBlockers(imports: seq<Import>): seq<ContinuityBlocker> {
    if |imports| < 2 then []
    else
      var n := |imports| - 1;
      StepBlockers(imports[..n]) + Blockers(imports[n], imports[n - 1], true)
  }

  /** An import with its id.  The repository lists imports newest first. */
  datatype StoredImport = StoredImport(id: Token, run: Import)

  /** First place of an id in the list, or -1. */
  function IndexOf(listed: seq<StoredImport>, id: Token): (k: int)
    ensures -1 <= k < |listed|
    ensures k >= 0 ==> listed[k].id == id && forall i :: 0 <= i < k ==> listed[i].id != id
    ensures k < 0 ==> forall i :: 0 <= i < |listed| ==> listed[i].id != id
  {
    if listed == [] then -1
    else
      var k := IndexOf(listed[..|listed| - 1], id);
      if k >= 0 then k else if listed[|listed| - 1].id == id then |listed| - 1 else -1
  }

  function Listed(stored: seq<StoredImport>, limit: nat): seq<StoredImport> {
    if limit < |stored| then stored[..limit] else stored
  }

  /** The imports from the reviewed one to the current one, oldest first. */
  function Chronological(listed: seq<StoredImport>, current: nat, reviewed: nat): (r: seq<Import>)
    requires current <= reviewed < |listed|
    ensures |r| == reviewed - current + 1
    ensures r[0] == listed[reviewed].run && r[|r| - 1] == listed[current].run
  {
    seq(reviewed - current + 1, i requires 0 <= i <= reviewed - current => listed[reviewed - i].run)
  }

  /** The history assessment: the scan, every adjacent step, and the two ends directly. */
  function HistoryBlockers(stored: seq<StoredImport>, current: StoredImport, reviewed: StoredImport, limit: int)
    : seq<ContinuityBlocker>
  {
    if limit < 1 || limit > 1000 then [ScanLimitInvalid]
    else
      var listed := Listed(stored, limit);
      var truncated := When(|listed| == limit, ScanTruncated);
      var c, r := IndexOf(listed, current.id), IndexOf(listed, reviewed.id);
      if c < 0 || r < 0 then truncated + [ImportMissing]
      else if c > r then truncated + [ImportOrderInvalid]
      else
        Unique(truncated + StepBlockers(Chronological(listed, c, r))
               + Blockers(current.run, reviewed.run, current.id != reviewed.id))
  }

  function StepModes(imports: seq<Import>): seq<Mode> {
    if |imports| < 2 then []
    else
      var n := |imports| - 1;
      StepModes(imports[..n]) + [Assess(imports[n], imports[n - 1], true).mode]
  }

  /** What the history assessment answers; without a scan there are no counts of the two ends. */
  datatype HistoryAssessment = HistoryAssessment(
    blockers: seq<ContinuityBlocker>, mode: Mode, transitions: nat, modes: seq<Mode>, direct: Option<Assessment>)

  function BlockedHistory(blockers: seq<ContinuityBlocker>): HistoryAssessment {
    HistoryAssessment(blockers, MaterialDrift, 0, [], None)
  }

  function Assessed(stored: seq<StoredImport>, current: StoredImport, reviewed: StoredImport, limit: int)
    : HistoryAssessment
  {
    var blockers := HistoryBlockers(stored, current, reviewed, limit);
    if limit < 1 || limit > 1000 then BlockedHistory(blockers)
    else
      var listed := Listed(stored, limit);
      var c, r := IndexOf(listed, current.id), IndexOf(listed, reviewed.id);
      if c < 0 || r < 0 || c > r then BlockedHistory(blockers)
      else
        var direct := Assess(current.run, reviewed.run, current.id != reviewed.id);
        HistoryAssessment(blockers, if blockers == [] then direct.mode else MaterialDrift, r - c,
                          Unique(StepModes(Chronological(listed, c, r))), Some(direct))
  }

  lemma StepBlockersNext(imports: seq<Import>, k: nat)
    requires 0 < k < |imports|
    ensures StepBlockers(imports[..k + 1]) == StepBlockers(imports[..k]) + Blockers(imports[k], imports[k - 1], true)
    ensures StepModes(imports[..k + 1]) == StepModes(imports[..k]) + [Assess(imports[k], imports[k - 1], true).mode]
  {
    assert imports[..k + 1][..k] == imports[..k];
  }

  method AssessSteps(imports: seq<Import>) returns (blockers: seq<ContinuityBlocker>, modes: seq<Mode>)
    requires imports != []
    ensures blockers == StepBlockers(imports) && modes == StepModes(imports) && |modes| == |imports| - 1
  {
    blockers, modes := [], [];
    for k := 1 to |imports|
      invariant blockers == StepBlockers(imports[..k]) && modes == StepModes(imports[..k]) && |modes| == k - 1
    {
      StepBlockersNext(imports, k);
      var step := AssessContinuity(imports[k], imports[k - 1], true);
      blockers, modes := blockers + step.blockers, modes + [step.mode];
    }
    assert imports[..|imports|] == imports;
  }

  method AssessHistory(stored: seq<StoredImport>, current: StoredImport, reviewed: StoredImport, limit: int)
    returns (result: HistoryAssessment)
    ensures result == Assessed(stored, current, reviewed, limit)
    ensures result.blockers == HistoryBlockers(stored, current, reviewed, limit)
  {
    hide Assess, Blockers, StepBlockers, StepModes, Unique;
    if limit < 1 || limit > 1000 {
      return BlockedHistory([ScanLimitInvalid]);
    }
    var listed := Listed(stored, limit);
    var blockers := When(|listed| == limit, ScanTruncated);
    var currentIndex, reviewedIndex := IndexOf(listed, current.id), IndexOf(listed, reviewed.id);
    if currentIndex < 0 || reviewedIndex < 0 {
      return BlockedHistory(blockers + [ImportMissing]);
    }
    if currentIndex > reviewedIndex {
      return BlockedHistory(blockers + [ImportOrderInvalid]);
    }
    var steps, modes := AssessSteps(Chronological(listed, currentIndex, reviewedIndex));
    var direct := AssessContinuity(current.run, reviewed.run, current.id != reviewed.id);
    blockers := Unique(blockers + steps + direct.blockers);
    result := HistoryAssessment(blockers, if blockers == [] then direct.mode else MaterialDrift, |modes|,
                                Unique(modes), Some(direct));
  }

  lemma {:induction false} NoStepBlockerMeansChain(imports: seq<Import>)
    ensures StepBlockers(imports) == [] <==> Chain(imports)
  {
    if |imports| >= 2 {
      var n := |imports| - 1;
      NoStepBlockerMeansChain(imports[..n]);
    }
  }

  /** The scan sees all stored imports, the current one no older than the reviewed one. */
  predicate InScan(stored: seq<StoredImport>, current: StoredImport, reviewed: StoredImport, limit: int) {
    && |stored| < limit <= 1000
    && 0 <= IndexOf(stored, current.id) <= IndexOf(stored, reviewed.id)
  }

  function History(stored: seq<StoredImport>, current: StoredImport, reviewed: StoredImport): seq<Import>
    requires 0 <= IndexOf(stored, current.id) <= IndexOf(stored, reviewed.id)
  {
    Chronological(stored, IndexOf(stored, current.id), IndexOf(stored, reviewed.id))
  }

  /** The import asked about is the stored one. */
  predicate IsStored(stored: seq<StoredImport>, asked: StoredImport) {
    IndexOf(stored, asked.id) >= 0 ==> stored[IndexOf(stored, asked.id)] == asked
  }

  /** The blockers of the scan itself. */
  lemma OutOfScan(stored: seq<StoredImport>, current: StoredImport, reviewed: StoredImport, limit: int)
    requires !InScan(stored, current, reviewed, limit)
    ensures HistoryBlockers(stored, current, reviewed, limit) != []
  {
    if 1 <= limit <= 1000 {
      if |stored| >= limit {
        assert |Listed(stored, limit)| == limit;
      } else {
        assert Listed(stored, limit) == stored;
      }
    }
  }

  lemma InScanBlockers(stored: seq<StoredImport>, current: StoredImport, reviewed: StoredImport, limit: int)
    requires InScan(stored, current, reviewed, limit)
    ensures HistoryBlockers(stored, current, reviewed, limit) == []
            <==> StepBlockers(History(stored, current, reviewed)) == []
                 && Continuous(current.run, reviewed.run, current.id != reviewed.id)
  {
    assert Listed(stored, limit) == stored;
  }

  lemma HistoryEnds(stored: seq<StoredImport>, current: StoredImport, reviewed: StoredImport)
    requires current.id != reviewed.id && IsStored(stored, current) && IsStored(stored, reviewed)
    requires 0 <= IndexOf(stored, current.id) <= IndexOf(stored, reviewed.id)
    ensures var imports := History(stored, current, reviewed);
            |imports| > 1 && imports[0] == reviewed.run && imports[|imports| - 1] == current.run
  {
  }

  lemma StepsAreEnough(imports: seq<Import>)
    requires |imports| > 1 && FirstTimed(imports) && DatesGrow(imports)
    ensures StepBlockers(imports) == [] && Continuous(imports[|imports| - 1], imports[0], true) <==> Chain(imports)
  {
    NoStepBlockerMeansChain(imports);
    if Chain(imports) {
      DirectIsContinuous(imports, true);
    }
  }

  /** With growing snapshot dates and known times at the start, the direct check adds nothing: a history
      is continuous exactly when the scan sees all of it and each of its steps is. */
  lemma HistoryIsItsSteps(stored: seq<StoredImport>, current: StoredImport, reviewed: StoredImport, limit: int)
    requires current.id != reviewed.id && IsStored(stored, current) && IsStored(stored, reviewed)
    requires InScan(stored, current, reviewed, limit) ==>
               FirstTimed(History(stored, current, reviewed)) && DatesGrow(History(stored, current, reviewed))
    ensures HistoryBlockers(stored, current, reviewed, limit) == []
            <==> InScan(stored, current, reviewed, limit) && Chain(History(stored, current, reviewed))
  {
    if InScan(stored, current, reviewed, limit) {
      InScanBlockers(stored, current, reviewed, limit);
      HistoryEnds(stored, current, reviewed);
      StepsAreEnough(History(stored, current, reviewed));
    } else {
      OutOfScan(stored, current, reviewed, limit);
    }
  }

  // ---------------------------------------------------------------- the roll-forward is continuous

  lemma ActivityStep(events: seq<Event>, e: Event)
    ensures Activity(events + [e])
            == if Activity(events).None? || !IsActivity(e) then Activity(events)
               else if e.row.id == Plain(0) || e.row.id in Activity(events).value || e.duplicateOf.Some? then None
               else Some(Activity(events).value[e.row.id := e])
  {
  }

  lemma {:induction false} ActivityOfBase(events: seq<Event>)
    ensures Activity(BaseEvents(events)) == Activity(events)
  {
    if events != [] {
      var front, last := events[..|events| - 1], events[|events| - 1];
      ActivityOfBase(front);
      assert events == front + [last];
      ActivityStep(front, last);
      if !Derived(last.row.id) {
        ActivityStep(BaseEvents(front), last);
      } else {
        assert BaseEvents(events) == BaseEvents(front);
      }
    }
  }

  lemma {:induction false} CleanHasActivity(rows: seq<Row>)
    requires AllValid(rows) && RowIdsDistinct(rows)
    ensures Activity(Clean(rows)).Some?
    ensures forall id :: id in Activity(Clean(rows)).value ==> exists k :: 0 <= k < |rows| && rows[k].id == id
  {
    if rows != [] {
      var front, last := rows[..|rows| - 1], rows[|rows| - 1];
      CleanHasActivity(front);
      assert Clean(rows)[..|front|] == Clean(front);
      assert forall k :: 0 <= k < |front| ==> front[k] == rows[k];
    }
  }

  /** Rolling one source to two days gives continuous imports, whatever happens to be the later day,
      and the assessment names the mode. */
  lemma RolledFilesAreContinuous(file: File, first: nat, second: nat, sourceType: Token)
    requires Prepare(file, first).Ready? && Prepare(file, second).Ready? && OrdersAgree(Base(file.rows))
    ensures Assess(Staged(sourceType, Prepare(file, second).output.rows),
                   Staged(sourceType, Prepare(file, first).output.rows), true)
            == Assessment([], DailyRollForward, 0, 0, 0, 0, 0)
  {
    var base := Base(file.rows);
    var current := Staged(sourceType, Prepare(file, second).output.rows);
    var reviewed := Staged(sourceType, Prepare(file, first).output.rows);
    LineageOfRolledFile(file, first, sourceType);
    LineageOfRolledFile(file, second, sourceType);
    RolledActivity(file, first, sourceType);
    RolledActivity(file, second, sourceType);
    var a := KnownActivity(current);
    SelfContinuous(a, Project(current).date);
  }

  lemma RolledActivity(file: File, day: nat, sourceType: Token)
    requires Prepare(file, day).Ready?
    ensures var run := Staged(sourceType, Prepare(file, day).output.rows);
            Activity(run.events).Some? && Activity(run.events) == Activity(Clean(Base(file.rows)))
  {
    var run := Staged(sourceType, Prepare(file, day).output.rows);
    PreparedIsSettled(file, day);
    RolledEvents(Base(file.rows), day, sourceType);
    ActivityOfBase(run.events);
    CleanHasActivity(Base(file.rows));
  }

  lemma SelfContinuous(a: ActivityMap, boundary: Option<int>)
    ensures ActivityBlockers(a, a, boundary) == []
    ensures Added(a, a) == {} && Removed(a, a) == {} && Changed(a, a) == {} && Resettled(a, a) == {}
    ensures Rewritten(a, a, Unchanged(a, a)) == {}
  {
  }

  // ---------------------------------------------------------------- removed and restored

  function Opening(): Row {
    Bought(1, Iso(1 * HOUR, 0), 100.0, 10.0).(kind := PositionSnapshot)
  }

  function Trade(): Row { Bought(2, Iso(2 * HOUR, 0), 200.0, 20.0) }

  const WITH_TRADE := [Opening(), Trade()]
  const WITHOUT_TRADE := [Opening()]

  function FileOf(rows: seq<Row>): File { File(true, 1, true, true, rows) }

  lemma WholePrepares(day: nat)
    requires day >= 1
    ensures Prepare(FileOf(WITH_TRADE), day).Ready? && Base(WITH_TRADE) == WITH_TRADE && OrdersAgree(WITH_TRADE)
  {
    assert Opening().occurredAt.text > 0.0 && Trade().occurredAt.text > 0.0;
    assert Sample(Opening(), day) && Sample(Trade(), day);
    TwoRowsAccepted(Opening(), Trade(), day);
    OneOffsetHere();
    OneOffsetAgrees(WITH_TRADE, 0);
  }

  lemma PartPrepares(day: nat)
    requires day >= 1
    ensures Prepare(FileOf(WITHOUT_TRADE), day).Ready? && Base(WITHOUT_TRADE) == WITHOUT_TRADE && OrdersAgree(WITHOUT_TRADE)
  {
    assert Opening().occurredAt.text > 0.0;
    assert Sample(Opening(), day);
    OneRowAccepted(Opening(), day);
    OneOffsetHere();
    OneOffsetAgrees(WITHOUT_TRADE, 0);
  }

  lemma OneOffsetHere()
    ensures OneOffset(WITH_TRADE, 0) && OneOffset(WITHOUT_TRADE, 0)
  {
  }

  lemma TradeActivity()
    ensures Activity(Clean(WITHOUT_TRADE)) == Some(map[])
    ensures Activity(Clean(WITH_TRADE)).Some? && Plain(2) in Activity(Clean(WITH_TRADE)).value
  {
  }

  /** The event is in the first import, gone from the second and back in the third. */
  predicate RemovedAndRestored(a: Import, b: Import, c: Import, id: EventId) {
    && Activity(a.events).Some? && Activity(b.events).Some? && Activity(c.events).Some?
    && id in KnownActivity(a) && id !in KnownActivity(b) && id in KnownActivity(c)
  }

  lemma LosingEverything(current: ActivityMap, reviewed: ActivityMap, boundary: Option<int>)
    requires current == map[] && reviewed != map[]
    ensures ActivityBlockers(current, reviewed, boundary) == [ActivityRemoved]
  {
    assert Removed(current, reviewed) == reviewed.Keys && reviewed.Keys != {};
    assert Changed(current, reviewed) == {} && Added(current, reviewed) == {};
    assert Resettled(current, reviewed) == {};
  }

  /** A sound import of one account with its daily snapshot. */
  predicate Daily(run: Import) {
    Sound(run) && Project(run).derivedCount >= 1 && run.sourceType == 0
  }

  lemma LosingStep(current: Import, reviewed: Import)
    requires Daily(current) && Daily(reviewed) && KnownActivity(current) == map[] && KnownActivity(reviewed) != map[]
    ensures Blockers(current, reviewed, true) == [ActivityRemoved]
  {
    hide Project, ImportBlockers, ActivityBlockers, KnownActivity;
    SoundImports(current, reviewed, true);
    LosingEverything(KnownActivity(current), KnownActivity(reviewed), Project(current).date);
  }

  /** A rolled file that passes the lineage check. */
  lemma RolledIsDaily(file: File, day: nat)
    requires Prepare(file, day).Ready? && OrdersAgree(Base(file.rows))
    ensures Daily(Staged(0, Prepare(file, day).output.rows))
    ensures Activity(Staged(0, Prepare(file, day).output.rows).events) == Activity(Clean(Base(file.rows)))
  {
    LineageOfRolledFile(file, day, 0);
    RolledActivity(file, day, 0);
  }

  lemma WithTheTrade(first: nat, second: nat) returns (a: Import, c: Import)
    requires first >= 1 && second >= 1
    ensures Daily(a) && Activity(c.events).Some? && Continuous(c, a, true)
    ensures Plain(2) in KnownActivity(a) && Plain(2) in KnownActivity(c)
  {
    var file := FileOf(WITH_TRADE);
    WholePrepares(first);
    WholePrepares(second);
    TradeActivity();
    RolledIsDaily(file, first);
    RolledIsDaily(file, second);
    RolledFilesAreContinuous(file, first, second, 0);
    a, c := Staged(0, Prepare(file, first).output.rows), Staged(0, Prepare(file, second).output.rows);
  }

  lemma WithoutTheTrade(day: nat) returns (b: Import)
    requires day >= 1
    ensures Daily(b) && KnownActivity(b) == map[]
  {
    PartPrepares(day);
    TradeActivity();
    RolledIsDaily(FileOf(WITHOUT_TRADE), day);
    b := Staged(0, Prepare(FileOf(WITHOUT_TRADE), day).output.rows);
  }

  /** The converse of the chain fails: with an event removed and then restored the two ends are
      continuous, and the step that lost the event has no fault but that. */
  lemma RemovedThenRestored()
    ensures exists a: Import, b: Import, c: Import, id: EventId ::
              RemovedAndRestored(a, b, c, id) && Continuous(c, a, true) && Blockers(b, a, true) == [ActivityRemoved]
  {
    var a, c := WithTheTrade(1, 3);
    var b := WithoutTheTrade(2);
    LosingStep(b, a);
    assert RemovedAndRestored(a, b, c, Plain(2));
  }
}
