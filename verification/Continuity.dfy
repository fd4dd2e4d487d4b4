/** Continuity between imports: what may be added, and what must stay. */
module Continuity {
  import opened LifecycleValues
  import opened Statement
  import opened RollForward
  import opened Lineage

  datatype ContinuityBlocker =
    | CurrentLineageBlocked | ReviewedLineageBlocked | SourceTypeChanged | DailySnapshotMissing
    | ActivityIdentityInvalid | ActivityRemoved | ActivityChanged | ActivityTimeInvalid | NotAppendOnly
    | SettlementChangeUnsafe
    | ScanLimitInvalid | ScanTruncated | ImportMissing | ImportOrderInvalid

  datatype Mode =
    | MaterialDrift | AppendWithStateRefresh | AppendOnly | DailyRollForward | StateRefresh

  datatype Assessment = Assessment(
    blockers: seq<ContinuityBlocker>, mode: Mode, added: nat, removed: nat, changed: nat, settlementChanged: nat,
    metadataChanged: nat)

  type ActivityMap = map<EventId, Event>

  // ---------------------------------------------------------------- activity

  predicate IsActivity(e: Event) { !Derived(e.row.id) && !IsSnapshot(e.row.kind) }

  /** Events by id, or None when an id is empty or repeated, or a row is a duplicate. */
  function Activity(events: seq<Event>): Option<ActivityMap> {
    if events == [] then Some(map[])
    else
      var before, last := Activity(events[..|events| - 1]), events[|events| - 1];
      if before.None? || !IsActivity(last) then before
      else if last.row.id == Plain(0) || last.row.id in before.value || last.duplicateOf.Some? then None
      else Some(before.value[last.row.id := last])
  }

  lemma {:induction false} NoActivityOfPrefix(events: seq<Event>, i: nat)
    requires i <= |events| && Activity(events[..i]).None?
    ensures Activity(events).None?
  {
    if i < |events| {
      assert events[..|events| - 1][..i] == events[..i];
      NoActivityOfPrefix(events[..|events| - 1], i);
    } else {
      assert events[..i] == events;
    }
  }

  method ActivityByEventId(events: seq<Event>) returns (activity: Option<ActivityMap>)
    ensures activity == Activity(events)
  {
    var result: ActivityMap := map[];
    for i := 0 to |events|
      invariant Activity(events[..i]) == Some(result)
    {
      var e := events[i];
      assert events[..i + 1][..i] == events[..i];
      if IsActivity(e) {
        if e.row.id == Plain(0) || e.row.id in result || e.duplicateOf.Some? {
          NoActivityOfPrefix(events, i + 1);
          return None;
        }
        result := result[e.row.id := e];
      }
    }
    assert events[..|events|] == events;
    activity := Some(result);
  }


  /** The economic facts: everything but settlement, names and notes. */
  function Facts(row: Row): Row {
    row.(settledAt := NoDate, instrument := 0, note := 0, finite := true, decimalsGiven := true, orderIdsSafe := true)
  }

  predicate Timed(activity: ActivityMap, id: EventId)
    requires id in activity
  {
    activity[id].row.occurredAt.at.Some?
  }

  predicate AllTimed(activity: ActivityMap, ids: set<EventId>)
    requires ids <= activity.Keys
  {
    forall id :: id in ids ==> Timed(activity, id)
  }

  function TimeOf(activity: ActivityMap, id: EventId): int
    requires id in activity
  {
    if Timed(activity, id) then activity[id].row.occurredAt.at.value else 0
  }

  // ---------------------------------------------------------------- the assessment

  function Removed(current: ActivityMap, reviewed: ActivityMap): set<EventId> { reviewed.Keys - current.Keys }
  function Added(current: ActivityMap, reviewed: ActivityMap): set<EventId> { current.Keys - reviewed.Keys }

  function Changed(current: ActivityMap, reviewed: ActivityMap): set<EventId> {
    set id | id in current.Keys * reviewed.Keys && Facts(current[id].row) != Facts(reviewed[id].row)
  }

  /** Some added event comes before some reviewed one, all reviewed times being known. */
  predicate Inserted(current: ActivityMap, reviewed: ActivityMap) {
    && AllTimed(reviewed, reviewed.Keys)
    && exists a, r :: a in Added(current, reviewed) && r in reviewed.Keys
                      && TimeOf(current, a) < TimeOf(reviewed, r)
  }

  predicate SettledBy(date: DateText, boundary: Option<int>) {
    boundary.Some?
    && match date
       case NoDate => true
       case DateOf(day, _) => day <= boundary.value
       case GarbledDate(_) => false
  }

  function Unchanged(current: ActivityMap, reviewed: ActivityMap): set<EventId> {
    current.Keys * reviewed.Keys - Changed(current, reviewed)
  }

  /** Those of the events whose settlement date is another. */
  function Moved(current: ActivityMap, reviewed: ActivityMap, ids: set<EventId>): set<EventId>
    requires ids <= current.Keys && ids <= reviewed.Keys
  {
    set id | id in ids && current[id].row.settledAt != reviewed[id].row.settledAt
  }

  function Resettled(current: ActivityMap, reviewed: ActivityMap): set<EventId> {
    Moved(current, reviewed, Unchanged(current, reviewed))
  }

  /** Those of the events whose row is another in any way. */
  function Rewritten(current: ActivityMap, reviewed: ActivityMap, ids: set<EventId>): set<EventId>
    requires ids <= current.Keys && ids <= reviewed.Keys
  {
    set id | id in ids && current[id].row != reviewed[id].row
  }

  predicate BothSettled(current: Event, reviewed: Event, boundary: Option<int>) {
    SettledBy(current.row.settledAt, boundary) && SettledBy(reviewed.row.settledAt, boundary)
  }

  predicate UnsafeAmong(current: ActivityMap, reviewed: ActivityMap, boundary: Option<int>, ids: set<EventId>)
    requires ids <= current.Keys && ids <= reviewed.Keys
  {
    exists id :: id in ids && !BothSettled(current[id], reviewed[id], boundary)
  }

  predicate Unsafe(current: ActivityMap, reviewed: ActivityMap, boundary: Option<int>) {
    UnsafeAmong(current, reviewed, boundary, Resettled(current, reviewed))
  }

  function ActivityBlockers(current: ActivityMap, reviewed: ActivityMap, boundary: Option<int>): seq<ContinuityBlocker> {
    When(Removed(current, reviewed) != {}, ActivityRemoved)
    + When(Changed(current, reviewed) != {}, ActivityChanged)
    + (if !AllTimed(current, Added(current, reviewed)) then [ActivityTimeInvalid]
       else When(Inserted(current, reviewed), NotAppendOnly))
    + When(Unsafe(current, reviewed, boundary), SettlementChangeUnsafe)
  }

  function ImportBlockers(current: Import, reviewed: Import, requireSnapshot: bool): seq<ContinuityBlocker> {
    When(Project(current).blockers != [], CurrentLineageBlocked)
    + When(Project(reviewed).blockers != [], ReviewedLineageBlocked)
    + When(current.sourceType != reviewed.sourceType, SourceTypeChanged)
    + When(requireSnapshot && Project(current).derivedCount < 1, DailySnapshotMissing)
    + When(Activity(current.events).None? || Activity(reviewed.events).None?, ActivityIdentityInvalid)
  }

  function KnownActivity(run: Import): ActivityMap {
    if Activity(run.events).Some? then Activity(run.events).value else map[]
  }

  function Blockers(current: Import, reviewed: Import, requireSnapshot: bool): seq<ContinuityBlocker> {
    ImportBlockers(current, reviewed, requireSnapshot)
    + ActivityBlockers(KnownActivity(current), KnownActivity(reviewed), Project(current).date)
  }

  predicate Continuous(current: Import, reviewed: Import, requireSnapshot: bool) {
    Blockers(current, reviewed, requireSnapshot) == []
  }

  function ModeOf(current: Import, reviewed: Import, blockers: seq<ContinuityBlocker>): Mode {
    var added := Added(KnownActivity(current), KnownActivity(reviewed)) != {};
    var exact := Project(current).source == Project(reviewed).source;
    if blockers != [] then MaterialDrift
    else if added && !exact then AppendWithStateRefresh
    else if added then AppendOnly
    else if exact then DailyRollForward
    else StateRefresh
  }

  function Assess(current: Import, reviewed: Import, requireSnapshot: bool): Assessment {
    var a, r := KnownActivity(current), KnownActivity(reviewed);
    var blockers := Blockers(current, reviewed, requireSnapshot);
    Assessment(blockers, ModeOf(current, reviewed, blockers), |Added(a, r)|, |Removed(a, r)|, |Changed(a, r)|,
               |Resettled(a, r)|, |Rewritten(a, r, Unchanged(a, r))|)
  }

  // ---------------------------------------------------------------- the loop over shared events

  lemma MovedStep(current: ActivityMap, reviewed: ActivityMap, boundary: Option<int>, seen: set<EventId>, id: EventId)
    requires seen <= current.Keys && seen <= reviewed.Keys && id in current && id in reviewed && id !in seen
    ensures var moved := current[id].row.settledAt != reviewed[id].row.settledAt;
            var before, after := Moved(current, reviewed, seen), Moved(current, reviewed, seen + {id});
            && |after| == |before| + (if moved then 1 else 0)
            && (UnsafeAmong(current, reviewed, boundary, after)
                <==> UnsafeAmong(current, reviewed, boundary, before)
                     || (moved && !BothSettled(current[id], reviewed[id], boundary)))
  {
    var before, after := Moved(current, reviewed, seen), Moved(current, reviewed, seen + {id});
    if current[id].row.settledAt != reviewed[id].row.settledAt {
      assert after == before + {id} && id in after;
    } else {
      assert after == before;
    }
  }

  lemma RewrittenStep(current: ActivityMap, reviewed: ActivityMap, seen: set<EventId>, id: EventId)
    requires seen <= current.Keys && seen <= reviewed.Keys && id in current && id in reviewed && id !in seen
    ensures |Rewritten(current, reviewed, seen + {id})|
            == |Rewritten(current, reviewed, seen)| + (if current[id].row != reviewed[id].row then 1 else 0)
  {
    var before, after := Rewritten(current, reviewed, seen), Rewritten(current, reviewed, seen + {id});
    assert after == if current[id].row != reviewed[id].row then before + {id} else before;
  }

  method CheckSettlement(current: ActivityMap, reviewed: ActivityMap, boundary: Option<int>, shared: set<EventId>)
    returns (count: nat, rewritten: nat, unsafe: bool)
    requires shared <= current.Keys && shared <= reviewed.Keys
    ensures count == |Moved(current, reviewed, shared)| && rewritten == |Rewritten(current, reviewed, shared)|
    ensures unsafe == UnsafeAmong(current, reviewed, boundary, Moved(current, reviewed, shared))
  {
    count, rewritten, unsafe := 0, 0, false;
    var todo := shared;
    while todo != {}
      invariant todo <= shared
      invariant count == |Moved(current, reviewed, shared - todo)|
      invariant rewritten == |Rewritten(current, reviewed, shared - todo)|
      invariant unsafe == UnsafeAmong(current, reviewed, boundary, Moved(current, reviewed, shared - todo))
      decreases |todo|
    {
      var id :| id in todo;
      MovedStep(current, reviewed, boundary, shared - todo, id);
      RewrittenStep(current, reviewed, shared - todo, id);
      assert shared - (todo - {id}) == (shared - todo) + {id};
      todo := todo - {id};
      if current[id].row.settledAt != reviewed[id].row.settledAt {
        count := count + 1;
        unsafe := unsafe || !BothSettled(current[id], reviewed[id], boundary);
      }
      if current[id].row != reviewed[id].row {
        rewritten := rewritten + 1;
      }
    }
    assert shared - todo == shared;
  }

  method AssessContinuity(current: Import, reviewed: Import, requireSnapshot: bool) returns (result: Assessment)
    ensures result == Assess(current, reviewed, requireSnapshot)
    ensures result.blockers == Blockers(current, reviewed, requireSnapshot)
  {
    var currentLineage := ProjectLineage(current);
    var reviewedLineage := ProjectLineage(reviewed);
    var currentActivity := ActivityByEventId(current.events);
    var reviewedActivity := ActivityByEventId(reviewed.events);
    var a := if currentActivity.Some? then currentActivity.value else map[];
    var r := if reviewedActivity.Some? then reviewedActivity.value else map[];
    var order := if !AllTimed(a, Added(a, r)) then [ActivityTimeInvalid] else When(Inserted(a, r), NotAppendOnly);
    var count, rewritten, unsafe := CheckSettlement(a, r, currentLineage.date, Unchanged(a, r));
    var blockers := ImportBlockers(current, reviewed, requireSnapshot)
      + (When(Removed(a, r) != {}, ActivityRemoved) + When(Changed(a, r) != {}, ActivityChanged) + order
         + When(unsafe, SettlementChangeUnsafe));
    result := Assessment(blockers, ModeOf(current, reviewed, blockers), |Added(a, r)|, |Removed(a, r)|,
                         |Changed(a, r)|, count, rewritten);
  }
}
