/** The import store: one run for each file fingerprint, and the events staged for it. */
module EvidenceStore {
  import opened LifecycleValues
  import opened Statement

  /** What is imported: a parsed file and its fingerprint. */
  datatype FilePreview = FilePreview(fingerprint: Token, sourceType: Token, preview: Preview)

  datatype ImportRun = ImportRun(
    id: Token, fingerprint: Token, sourceType: Token, sourceName: Token, rowCount: nat, validCount: nat,
    invalidCount: nat, duplicateCount: nat, status: Status, createdAt: int)

  datatype StoredEvent = StoredEvent(runId: Token, event: Event, createdAt: int)

  datatype Tables = Tables(runs: seq<ImportRun>, events: seq<StoredEvent>)

  const EMPTY := Tables([], [])

  /** One call of `save_preview`; `id` is the identifier drawn for a new run. */
  datatype Call = Call(file: FilePreview, sourceName: Token, now: int, id: Token)

  /** The last two leave the tables as they were. */
  datatype SaveOutcome = Saved(run: ImportRun) | ReplayConflict | IdTaken

  // ---------------------------------------------------------------- queries

  /** The run of a fingerprint, ORDER BY created_at, id LIMIT 1, as an index, or -1. */
  function RunOf(runs: seq<ImportRun>, fingerprint: Token): (k: int)
    ensures -1 <= k < |runs|
    ensures k >= 0 ==> runs[k].fingerprint == fingerprint
    ensures k < 0 ==> forall i :: 0 <= i < |runs| ==> runs[i].fingerprint != fingerprint
  {
    if runs == [] then -1
    else
      var k, n := RunOf(runs[..|runs| - 1], fingerprint), |runs| - 1;
      if runs[n].fingerprint == fingerprint && (k < 0 || runs[n].createdAt < runs[k].createdAt) then n else k
  }

  function EventsOf(events: seq<StoredEvent>, id: Token): seq<Event> {
    if events == [] then []
    else
      EventsOf(events[..|events| - 1], id)
      + if events[|events| - 1].runId == id then [events[|events| - 1].event] else []
  }

  function WithoutEvents(events: seq<StoredEvent>, id: Token): seq<StoredEvent> {
    if events == [] then []
    else
      WithoutEvents(events[..|events| - 1], id)
      + if events[|events| - 1].runId == id then [] else [events[|events| - 1]]
  }

  function Rows(id: Token, events: seq<Event>, now: int): seq<StoredEvent> {
    seq(|events|, i requires 0 <= i < |events| => StoredEvent(id, events[i], now))
  }

  // ---------------------------------------------------------------- saving

  function NewRun(c: Call): ImportRun {
    var p := c.file.preview;
    ImportRun(c.id, c.file.fingerprint, c.file.sourceType, c.sourceName, p.rowCount, p.validCount, p.invalidCount,
              p.duplicateCount, p.status, c.now)
  }

  /** A replay rewrites what the parser says and keeps id, fingerprint and first-seen time. */
  function Replayed(run: ImportRun, c: Call): ImportRun {
    NewRun(c).(id := run.id, fingerprint := run.fingerprint, createdAt := run.createdAt)
  }

  predicate Conflicts(run: ImportRun, stored: nat, p: Preview) {
    (run.status.Blocked? && stored != 0)
    || (!run.status.Blocked? && !p.status.Blocked? && stored != p.validCount && stored != 0)
  }

  function ReplayedEvents(t: Tables, run: ImportRun, c: Call): seq<StoredEvent> {
    var stored := EventsOf(t.events, run.id);
    if c.file.preview.status.Blocked? then WithoutEvents(t.events, run.id)
    else if run.status.Blocked? || stored == [] then t.events + Rows(run.id, c.file.preview.events, c.now)
    else t.events
  }

  function Save(t: Tables, c: Call): (Tables, SaveOutcome) {
    var p, k := c.file.preview, RunOf(t.runs, c.file.fingerprint);
    if k >= 0 then
      var run := t.runs[k];
      if Conflicts(run, |EventsOf(t.events, run.id)|, p) then (t, ReplayConflict)
      else (Tables(t.runs[k := Replayed(run, c)], ReplayedEvents(t, run, c)), Saved(Replayed(run, c)))
    else if exists i :: 0 <= i < |t.runs| && t.runs[i].id == c.id then (t, IdTaken)
    else
      (Tables(t.runs + [NewRun(c)],
              t.events + (if p.status.Blocked? then [] else Rows(c.id, p.events, c.now))),
       Saved(NewRun(c)))
  }

  class EvidenceImports {
    var runs: seq<ImportRun>
    var events: seq<StoredEvent>

    function Contents(): Tables
      reads this
    {
      Tables(runs, events)
    }

    constructor ()
      ensures Contents() == EMPTY
    {
      runs, events := [], [];
    }

    method InsertEvents(id: Token, staged: seq<Event>, now: int)
      modifies `events
      ensures events == old(events) + Rows(id, staged, now)
    {
      for i := 0 to |staged|
        invariant events == old(events) + Rows(id, staged, now)[..i]
      {
        events := events + [StoredEvent(id, staged[i], now)];
        assert Rows(id, staged, now)[..i + 1] == Rows(id, staged, now)[..i] + [StoredEvent(id, staged[i], now)];
      }
    }

    method SavePreview(c: Call) returns (outcome: SaveOutcome)
      modifies this
      ensures (Contents(), outcome) == Save(old(Contents()), c)
    {
      var existing := RunOf(runs, c.file.fingerprint);
      if existing >= 0 {
        outcome := UpdateExistingImportRun(existing, c);
        return;
      }
      if exists i :: 0 <= i < |runs| && runs[i].id == c.id {
        return IdTaken;
      }
      runs := runs + [NewRun(c)];
      if !c.file.preview.status.Blocked? {
        InsertEvents(c.id, c.file.preview.events, c.now);
      }
      assert events == old(events) + if c.file.preview.status.Blocked? then [] else Rows(c.id, c.file.preview.events, c.now);
      outcome := Saved(NewRun(c));
    }

    /** An idempotent replay of a known file. */
    method UpdateExistingImportRun(k: nat, c: Call) returns (outcome: SaveOutcome)
      requires k < |runs| && k == RunOf(runs, c.file.fingerprint)
      modifies this
      ensures (Contents(), outcome) == Save(old(Contents()), c)
    {
      var run, p := runs[k], c.file.preview;
      var count := |EventsOf(events, run.id)|;
      if run.status.Blocked? && count != 0 {
        return ReplayConflict;
      }
      if !run.status.Blocked? && !p.status.Blocked? && count != p.validCount && count != 0 {
        return ReplayConflict;
      }
      runs := runs[k := Replayed(run, c)];
      if p.status.Blocked? {
        events := WithoutEvents(events, run.id);
      } else if run.status.Blocked? || count == 0 {
        InsertEvents(run.id, p.events, c.now);
      }
      outcome := Saved(Replayed(run, c));
    }
  }

  // ---------------------------------------------------------------- events by run

  lemma {:induction false} EventsOfAppend(a: seq<StoredEvent>, b: seq<StoredEvent>, id: Token)
    ensures EventsOf(a + b, id) == EventsOf(a, id) + EventsOf(b, id)
  {
    if b == [] {
      assert a + b == a;
    } else {
      EventsOfAppend(a, b[..|b| - 1], id);
      assert (a + b)[..|a + b| - 1] == a + b[..|b| - 1];
    }
  }

  lemma {:induction false} EventsOfRows(own: Token, staged: seq<Event>, now: int, id: Token)
    ensures EventsOf(Rows(own, staged, now), id) == if id == own then staged else []
  {
    if staged != [] {
      var n := |staged| - 1;
      EventsOfRows(own, staged[..n], now, id);
      assert Rows(own, staged, now)[..n] == Rows(own, staged[..n], now);
      assert staged == staged[..n] + [staged[n]];
    }
  }

  lemma {:induction false} EventsOfWithout(events: seq<StoredEvent>, gone: Token, id: Token)
    ensures EventsOf(WithoutEvents(events, gone), id) == if id == gone then [] else EventsOf(events, id)
  {
    if events != [] {
      var front, last := events[..|events| - 1], events[|events| - 1];
      EventsOfWithout(front, gone, id);
      EventsOfAppend(WithoutEvents(front, gone), if last.runId == gone then [] else [last], id);
      if last.runId != gone {
        assert EventsOf([last], id) == EventsOf([last][..0], id) + if last.runId == id then [last.event] else [];
      }
    }
  }

  lemma {:induction false} NoEventsOf(events: seq<StoredEvent>, id: Token)
    requires forall i :: 0 <= i < |events| ==> events[i].runId != id
    ensures EventsOf(events, id) == []
  {
    if events != [] {
      NoEventsOf(events[..|events| - 1], id);
    }
  }

  lemma ReplayEvents(t: Tables, run: ImportRun, c: Call, id: Token)
    ensures EventsOf(ReplayedEvents(t, run, c), id)
            == if id != run.id then EventsOf(t.events, id)
               else if c.file.preview.status.Blocked? then []
               else if run.status.Blocked? then EventsOf(t.events, id) + c.file.preview.events
               else if EventsOf(t.events, id) == [] then c.file.preview.events
               else EventsOf(t.events, id)
  {
    EventsOfWithout(t.events, run.id, id);
    EventsOfAppend(t.events, Rows(run.id, c.file.preview.events, c.now), id);
    EventsOfRows(run.id, c.file.preview.events, c.now, id);
  }

  lemma FirstSaveEvents(t: Tables, c: Call, id: Token)
    requires AllOwned(t.runs, t.events) && !HasRun(t.runs, c.id)
    ensures EventsOf(t.events + (if c.file.preview.status.Blocked? then [] else Rows(c.id, c.file.preview.events, c.now)), id)
            == if id != c.id then EventsOf(t.events, id)
               else if c.file.preview.status.Blocked? then [] else c.file.preview.events
  {
    var more := if c.file.preview.status.Blocked? then [] else Rows(c.id, c.file.preview.events, c.now);
    EventsOfAppend(t.events, more, id);
    EventsOfRows(c.id, c.file.preview.events, c.now, id);
    forall i | 0 <= i < |t.events| ensures t.events[i].runId != c.id {
      assert t.events[i] in t.events;
    }
    NoEventsOf(t.events, c.id);
  }

  /** What one save does to the events of any run. */
  lemma SaveEvents(t: Tables, c: Call, id: Token)
    requires Inv(t)
    ensures var next := Save(t, c);
            var k := RunOf(t.runs, c.file.fingerprint);
            EventsOf(next.0.events, id)
            == if next.1.Saved? && next.1.run.id == id then
                 if c.file.preview.status.Blocked? then []
                 else if k >= 0 && !t.runs[k].status.Blocked? && EventsOf(t.events, id) != [] then EventsOf(t.events, id)
                 else c.file.preview.events
               else EventsOf(t.events, id)
  {
    var k := RunOf(t.runs, c.file.fingerprint);
    if k >= 0 {
      ReplayEvents(t, t.runs[k], c, id);
      assert Holds(t, k);
    } else if Save(t, c).1.Saved? {
      assert !HasRun(t.runs, c.id);
      FirstSaveEvents(t, c, id);
    }
  }

  // ---------------------------------------------------------------- what every sequence keeps

  predicate DistinctRuns(runs: seq<ImportRun>) {
    forall i, j :: 0 <= i < j < |runs| ==> runs[i].fingerprint != runs[j].fingerprint && runs[i].id != runs[j].id
  }

  /** A blocked run holds nothing, any other exactly as many events as it counts valid rows. */
  predicate Holds(t: Tables, k: nat)
    requires k < |t.runs|
  {
    |EventsOf(t.events, t.runs[k].id)| == if t.runs[k].status.Blocked? then 0 else t.runs[k].validCount
  }

  predicate HasRun(runs: seq<ImportRun>, id: Token) {
    exists k :: 0 <= k < |runs| && runs[k].id == id
  }

  predicate AllOwned(runs: seq<ImportRun>, events: seq<StoredEvent>) {
    forall e :: e in events ==> HasRun(runs, e.runId)
  }

  predicate Inv(t: Tables) {
    && DistinctRuns(t.runs)
    && (forall k :: 0 <= k < |t.runs| ==> Holds(t, k))
    && AllOwned(t.runs, t.events)
  }

  /** Previews come from the parser: it stages what it counts. */
  predicate Counted(c: Call) { c.file.preview.validCount == |c.file.preview.events| }

  /** Nothing a save does to a run changes its id, its fingerprint or when it was first seen. */
  predicate KeepsIdentity(a: Tables, b: Tables) {
    |a.runs| <= |b.runs|
    && forall k :: 0 <= k < |a.runs| ==>
         b.runs[k].id == a.runs[k].id && b.runs[k].fingerprint == a.runs[k].fingerprint
         && b.runs[k].createdAt == a.runs[k].createdAt
  }

  lemma SaveKeepsIdentity(t: Tables, c: Call)
    ensures KeepsIdentity(t, Save(t, c).0)
  {
  }

  lemma SaveKeepsRuns(t: Tables, c: Call)
    requires DistinctRuns(t.runs)
    ensures DistinctRuns(Save(t, c).0.runs)
  {
  }

  lemma {:induction false} WithoutIsPart(events: seq<StoredEvent>, gone: Token)
    ensures forall e :: e in WithoutEvents(events, gone) ==> e in events
  {
    if events != [] {
      WithoutIsPart(events[..|events| - 1], gone);
    }
  }

  lemma RunsStay(a: Tables, b: Tables, id: Token)
    requires KeepsIdentity(a, b) && HasRun(a.runs, id)
    ensures HasRun(b.runs, id)
  {
  }

  lemma SaveKeepsOwners(t: Tables, c: Call)
    requires Inv(t)
    ensures AllOwned(Save(t, c).0.runs, Save(t, c).0.events)
  {
    var next := Save(t, c).0;
    var k := RunOf(t.runs, c.file.fingerprint);
    SaveKeepsIdentity(t, c);
    if k >= 0 {
      WithoutIsPart(t.events, t.runs[k].id);
      assert next.runs[k].id == t.runs[k].id;
    }
    forall e | e in next.events ensures HasRun(next.runs, e.runId) {
      if e in t.events {
        RunsStay(t, next, e.runId);
      } else if k < 0 {
        assert next.runs[|t.runs|].id == e.runId;
      }
    }
  }

  lemma SaveKeepsCounts(t: Tables, c: Call, k: nat)
    requires Inv(t) && Counted(c) && k < |Save(t, c).0.runs|
    ensures Holds(Save(t, c).0, k)
  {
    var (next, outcome) := Save(t, c);
    SaveKeepsRuns(t, c);
    SaveEvents(t, c, next.runs[k].id);
    var found := RunOf(t.runs, c.file.fingerprint);
    if k < |t.runs| {
      assert Holds(t, k);
    }
    if found >= 0 {
      assert Holds(t, found);
    }
  }

  lemma SaveKeepsInv(t: Tables, c: Call)
    requires Inv(t) && Counted(c)
    ensures Inv(Save(t, c).0)
  {
    SaveKeepsRuns(t, c);
    SaveKeepsOwners(t, c);
    forall k | 0 <= k < |Save(t, c).0.runs| ensures Holds(Save(t, c).0, k) {
      SaveKeepsCounts(t, c, k);
    }
  }

  // ---------------------------------------------------------------- whole runs

  function SaveAll(t: Tables, calls: seq<Call>): Tables {
    if calls == [] then t else Save(SaveAll(t, calls[..|calls| - 1]), calls[|calls| - 1]).0
  }

  predicate AllCounted(calls: seq<Call>) {
    forall i :: 0 <= i < |calls| ==> Counted(calls[i])
  }

  /** Over any serial sequence of saves: one run for each fingerprint, blocked runs empty, the others
      exactly as full as they count. */
  lemma {:induction false} EverySequenceKeepsInv(calls: seq<Call>)
    requires AllCounted(calls)
    ensures Inv(SaveAll(EMPTY, calls))
  {
    if calls != [] {
      EverySequenceKeepsInv(calls[..|calls| - 1]);
      SaveKeepsInv(SaveAll(EMPTY, calls[..|calls| - 1]), calls[|calls| - 1]);
    }
  }

  /** And no run's id, fingerprint or first-seen time ever changes. */
  lemma {:induction false} IdentityIsForever(t: Tables, calls: seq<Call>)
    ensures KeepsIdentity(t, SaveAll(t, calls))
  {
    if calls != [] {
      IdentityIsForever(t, calls[..|calls| - 1]);
      SaveKeepsIdentity(SaveAll(t, calls[..|calls| - 1]), calls[|calls| - 1]);
    }
  }

  /** Replaying an accepted file over an accepted run leaves every event as it is; it is refused exactly
      when the parser now counts another, nonzero number of rows. */
  lemma AcceptedReplay(t: Tables, c: Call)
    requires Inv(t) && Counted(c) && RunOf(t.runs, c.file.fingerprint) >= 0
    requires !c.file.preview.status.Blocked? && !t.runs[RunOf(t.runs, c.file.fingerprint)].status.Blocked?
    ensures var run := t.runs[RunOf(t.runs, c.file.fingerprint)];
            var (next, outcome) := Save(t, c);
            && (outcome.ReplayConflict? <==> run.validCount != 0 && run.validCount != c.file.preview.validCount)
            && (run.validCount != 0 ==> next.events == t.events)
            && (outcome.Saved? ==> |EventsOf(next.events, run.id)| == c.file.preview.validCount)
  {
    var k := RunOf(t.runs, c.file.fingerprint);
    assert Holds(t, k);
    SaveEvents(t, c, t.runs[k].id);
  }

  // ---------------------------------------------------------------- one parser

  /** The previews of one parser: a fingerprint determines what is staged. */
  predicate SameParser(calls: seq<Call>) {
    forall i, j :: 0 <= i < |calls| && 0 <= j < |calls| && calls[i].file.fingerprint == calls[j].file.fingerprint ==>
      calls[i].file.preview == calls[j].file.preview
  }

  /** The run stages what this preview says. */
  predicate Stages(t: Tables, k: nat, p: Preview)
    requires k < |t.runs|
  {
    && t.runs[k].status == p.status && t.runs[k].validCount == p.validCount
    && EventsOf(t.events, t.runs[k].id) == if p.status.Blocked? then [] else p.events
  }

  /** Every run so far stages the preview of some call with its fingerprint. */
  predicate StagesCalls(t: Tables, calls: seq<Call>) {
    forall k :: 0 <= k < |t.runs| ==> StagesSome(t, k, calls)
  }

  predicate StagesSome(t: Tables, k: nat, calls: seq<Call>)
    requires k < |t.runs|
  {
    exists i :: 0 <= i < |calls| && calls[i].file.fingerprint == t.runs[k].fingerprint
                && Stages(t, k, calls[i].file.preview)
  }

  /** A run that the save does not touch stages what it staged. */
  lemma UntouchedStages(t: Tables, c: Call, k: nat, p: Preview)
    requires Inv(t) && k < |t.runs| && t.runs[k].fingerprint != c.file.fingerprint && Stages(t, k, p)
    ensures Save(t, c).0.runs[k] == t.runs[k] && Stages(Save(t, c).0, k, p)
  {
    SaveEvents(t, c, t.runs[k].id);
  }

  /** A replay of the same preview stages it again. */
  lemma ReplayStages(t: Tables, c: Call, k: nat)
    requires Inv(t) && Counted(c) && k < |t.runs| && t.runs[k].fingerprint == c.file.fingerprint
    requires Stages(t, k, c.file.preview)
    ensures Save(t, c).0.runs[k].fingerprint == c.file.fingerprint && Stages(Save(t, c).0, k, c.file.preview)
  {
    assert k == RunOf(t.runs, c.file.fingerprint);
    SaveEvents(t, c, t.runs[k].id);
  }

  lemma FirstSaveStages(t: Tables, c: Call)
    requires Inv(t) && |Save(t, c).0.runs| > |t.runs|
    ensures Save(t, c).0.runs[|t.runs|].fingerprint == c.file.fingerprint && Stages(Save(t, c).0, |t.runs|, c.file.preview)
    ensures |Save(t, c).0.runs| == |t.runs| + 1
  {
    SaveEvents(t, c, c.id);
  }

  lemma SaveStages(t: Tables, before: seq<Call>, c: Call, k: nat)
    requires Inv(t) && Counted(c) && SameParser(before + [c]) && StagesCalls(t, before)
    requires k < |Save(t, c).0.runs|
    ensures StagesSome(Save(t, c).0, k, before + [c])
  {
    var all := before + [c];
    assert all[|before|] == c;
    if k < |t.runs| {
      assert StagesSome(t, k, before);
      var i :| 0 <= i < |before| && before[i].file.fingerprint == t.runs[k].fingerprint
               && Stages(t, k, before[i].file.preview);
      assert all[i] == before[i];
      if t.runs[k].fingerprint == c.file.fingerprint {
        assert all[i].file.preview == all[|before|].file.preview;
        ReplayStages(t, c, k);
      } else {
        UntouchedStages(t, c, k, before[i].file.preview);
      }
    } else {
      FirstSaveStages(t, c);
    }
  }

  /** With one parser the staged events of every run are exactly what the parser says of its file. */
  lemma {:induction false} EventsAreParsed(calls: seq<Call>)
    requires AllCounted(calls) && SameParser(calls)
    ensures StagesCalls(SaveAll(EMPTY, calls), calls)
  {
    if calls != [] {
      var front, c := calls[..|calls| - 1], calls[|calls| - 1];
      assert calls == front + [c];
      EventsAreParsed(front);
      EverySequenceKeepsInv(front);
      var t := SaveAll(EMPTY, front);
      forall k | 0 <= k < |Save(t, c).0.runs| ensures StagesSome(Save(t, c).0, k, calls) {
        SaveStages(t, front, c, k);
      }
    }
  }

  // ---------------------------------------------------------------- a changed parser

  /** After an accepted save the events are those of the new parse exactly when nothing was staged for
      the file, or the same. */
  lemma NewParseStagedIff(t: Tables, c: Call)
    requires Inv(t) && Counted(c) && !c.file.preview.status.Blocked? && Save(t, c).1.Saved?
    ensures var k, (next, outcome) := RunOf(t.runs, c.file.fingerprint), Save(t, c);
            EventsOf(next.events, outcome.run.id) == c.file.preview.events
            <==> k < 0 || t.runs[k].status.Blocked? || EventsOf(t.events, t.runs[k].id) == []
                 || EventsOf(t.events, t.runs[k].id) == c.file.preview.events
  {
    SaveEvents(t, c, Save(t, c).1.run.id);
  }

  /** A call, and whether it was saved. */
  datatype Attempt = Attempt(call: Call, saved: bool)

  function Attempts(calls: seq<Call>): (r: seq<Attempt>)
    ensures |r| == |calls| && forall i :: 0 <= i < |r| ==> r[i].call == calls[i]
  {
    if calls == [] then []
    else
      var front, c := calls[..|calls| - 1], calls[|calls| - 1];
      Attempts(front) + [Attempt(c, Save(SaveAll(EMPTY, front), c).1.Saved?)]
  }

  /** A saved call of this file that was accepted and staged something. */
  predicate Accepts(a: Attempt, fingerprint: Token) {
    a.saved && a.call.file.fingerprint == fingerprint
    && !a.call.file.preview.status.Blocked? && a.call.file.preview.events != []
  }

  /** A saved call of this file that was blocked. */
  predicate Blocks(a: Attempt, fingerprint: Token) {
    a.saved && a.call.file.fingerprint == fingerprint && a.call.file.preview.status.Blocked?
  }

  /** The first nonempty accepted parse of a file since the last blocked one, as an index. */
  function FirstSince(attempts: seq<Attempt>, fingerprint: Token): (r: Option<nat>)
    ensures r.Some? ==> r.value < |attempts|
  {
    if attempts == [] then None
    else
      var n := |attempts| - 1;
      var before := FirstSince(attempts[..n], fingerprint);
      if Blocks(attempts[n], fingerprint) then None
      else if before.None? && Accepts(attempts[n], fingerprint) then Some(n)
      else before
  }

  predicate BlockedBetween(attempts: seq<Attempt>, fingerprint: Token, i: int, j: int) {
    exists m :: 0 <= m < |attempts| && i < m < j && Blocks(attempts[m], fingerprint)
  }

  /** What "first since the last blocked one" means: nothing blocked since, and before every earlier
      parse of the kind came a blocked one; there is none when every such parse was blocked again. */
  predicate IsFirstSince(attempts: seq<Attempt>, fingerprint: Token, r: Option<nat>) {
    var end := if r.Some? then r.value else |attempts|;
    && (r.Some? ==> end < |attempts| && Accepts(attempts[end], fingerprint))
    && (forall m :: end < m < |attempts| ==> !Blocks(attempts[m], fingerprint))
    && (forall i :: 0 <= i < end && Accepts(attempts[i], fingerprint) ==> BlockedBetween(attempts, fingerprint, i, end))
  }

  lemma BetweenFront(attempts: seq<Attempt>, fingerprint: Token, i: int, j: int)
    requires attempts != [] && BlockedBetween(attempts[..|attempts| - 1], fingerprint, i, j)
    ensures BlockedBetween(attempts, fingerprint, i, j) && BlockedBetween(attempts, fingerprint, i, |attempts|)
  {
    var m :| 0 <= m < |attempts| - 1 && i < m < j && Blocks(attempts[..|attempts| - 1][m], fingerprint);
    assert Blocks(attempts[m], fingerprint);
  }

  lemma {:induction false} FirstSinceMeans(attempts: seq<Attempt>, fingerprint: Token)
    ensures IsFirstSince(attempts, fingerprint, FirstSince(attempts, fingerprint))
  {
    if attempts != [] {
      var n, r := |attempts| - 1, FirstSince(attempts, fingerprint);
      FirstSinceMeans(attempts[..n], fingerprint);
      var before := FirstSince(attempts[..n], fingerprint);
      var end := if r.Some? then r.value else n + 1;
      forall i | 0 <= i < end && Accepts(attempts[i], fingerprint)
        ensures BlockedBetween(attempts, fingerprint, i, end)
      {
        if Blocks(attempts[n], fingerprint) {
          assert i < n;
        } else {
          assert attempts[..n][i] == attempts[i];
          BetweenFront(attempts, fingerprint, i, if before.Some? then before.value else n);
        }
      }
    }
  }

  function Staged(calls: seq<Call>, first: Option<nat>): seq<Event>
    requires first.Some? ==> first.value < |calls|
  {
    if first.Some? then calls[first.value].file.preview.events else []
  }

  lemma AttemptsNext(front: seq<Call>, c: Call)
    ensures Attempts(front + [c]) == Attempts(front) + [Attempt(c, Save(SaveAll(EMPTY, front), c).1.Saved?)]
  {
    assert (front + [c])[..|front|] == front;
  }

  lemma FirstSinceNext(front: seq<Attempt>, a: Attempt, fingerprint: Token)
    ensures FirstSince(front + [a], fingerprint)
            == if Blocks(a, fingerprint) then None
               else if FirstSince(front, fingerprint).None? && Accepts(a, fingerprint) then Some(|front|)
               else FirstSince(front, fingerprint)
  {
    assert (front + [a])[..|front|] == front;
  }

  lemma SaveKeepsFound(t: Tables, c: Call, fingerprint: Token)
    requires RunOf(t.runs, fingerprint) >= 0 || (Save(t, c).1.Saved? && c.file.fingerprint == fingerprint)
    ensures RunOf(Save(t, c).0.runs, fingerprint) >= 0
  {
    var k := RunOf(t.runs, fingerprint);
    SaveKeepsIdentity(t, c);
    assert Save(t, c).0.runs[if k >= 0 then k else |t.runs|].fingerprint == fingerprint;
  }

  /** An accepted file has a run. */
  lemma {:induction false} FirstHasRun(calls: seq<Call>, fingerprint: Token)
    requires FirstSince(Attempts(calls), fingerprint).Some?
    ensures RunOf(SaveAll(EMPTY, calls).runs, fingerprint) >= 0
  {
    var front, c := calls[..|calls| - 1], calls[|calls| - 1];
    var t := SaveAll(EMPTY, front);
    assert calls == front + [c];
    AttemptsNext(front, c);
    FirstSinceNext(Attempts(front), Attempt(c, Save(t, c).1.Saved?), fingerprint);
    if FirstSince(Attempts(front), fingerprint).Some? {
      FirstHasRun(front, fingerprint);
    }
    SaveKeepsFound(t, c, fingerprint);
  }

  predicate TriedIn(front: seq<Call>, attempts: seq<Attempt>) {
    |attempts| == |front| && forall i :: 0 <= i < |front| ==> attempts[i].call == front[i]
  }

  lemma StagedNext(front: seq<Call>, attempts: seq<Attempt>, c: Call, saved: bool, fingerprint: Token)
    requires TriedIn(front, attempts)
    ensures var before := Staged(front, FirstSince(attempts, fingerprint));
            Staged(front + [c], FirstSince(attempts + [Attempt(c, saved)], fingerprint))
            == if !saved || c.file.fingerprint != fingerprint then before
               else if c.file.preview.status.Blocked? then []
               else if before != [] then before
               else c.file.preview.events
  {
    FirstSinceNext(attempts, Attempt(c, saved), fingerprint);
    FirstIsNonempty(attempts, fingerprint);
  }

  /** The saved run is the one of the file. */
  lemma SavedRunIsOfFile(t: Tables, c: Call, k: nat)
    requires Inv(t) && Save(t, c).1.Saved? && k < |Save(t, c).0.runs|
    ensures Save(t, c).1.run.id == Save(t, c).0.runs[k].id <==> c.file.fingerprint == Save(t, c).0.runs[k].fingerprint
    ensures c.file.fingerprint == Save(t, c).0.runs[k].fingerprint ==>
              k == if RunOf(t.runs, c.file.fingerprint) >= 0 then RunOf(t.runs, c.file.fingerprint) else |t.runs|
  {
    SaveKeepsRuns(t, c);
  }

  /** What one more call does to the events of one run. */
  lemma StagedStep(t: Tables, front: seq<Call>, attempts: seq<Attempt>, c: Call, k: nat)
    requires Inv(t) && Counted(c) && k < |Save(t, c).0.runs| && TriedIn(front, attempts)
    requires k < |t.runs| ==>
               EventsOf(t.events, t.runs[k].id) == Staged(front, FirstSince(attempts, t.runs[k].fingerprint))
    requires k >= |t.runs| ==> FirstSince(attempts, c.file.fingerprint).None?
    ensures var next, outcome := Save(t, c).0, Save(t, c).1;
            EventsOf(next.events, next.runs[k].id)
            == Staged(front + [c], FirstSince(attempts + [Attempt(c, outcome.Saved?)], next.runs[k].fingerprint))
  {
    var next := Save(t, c).0;
    StagedNext(front, attempts, c, Save(t, c).1.Saved?, next.runs[k].fingerprint);
    SaveKeepsIdentity(t, c);
    SaveEvents(t, c, next.runs[k].id);
    if Save(t, c).1.Saved? {
      SavedRunIsOfFile(t, c, k);
    }
    if k < |t.runs| {
      assert Holds(t, k);
    } else {
      NewRunHasNone(t, c);
    }
  }

  lemma NewRunHasNone(t: Tables, c: Call)
    requires Inv(t) && |Save(t, c).0.runs| > |t.runs|
    ensures RunOf(t.runs, c.file.fingerprint) < 0 && Save(t, c).1 == Saved(NewRun(c))
    ensures Save(t, c).0.runs == t.runs + [NewRun(c)]
  {
  }

  lemma FirstIsNonempty(attempts: seq<Attempt>, fingerprint: Token)
    ensures var r := FirstSince(attempts, fingerprint);
            r.Some? ==> attempts[r.value].call.file.preview.events != []
  {
    FirstSinceMeans(attempts, fingerprint);
  }

  /** Over any sequence of saves, whatever parsers made the previews: the events of a file are those of
      its first nonempty accepted parse since the last blocked one. */
  lemma {:induction false} FirstParseStays(calls: seq<Call>, k: nat)
    requires AllCounted(calls) && k < |SaveAll(EMPTY, calls).runs|
    ensures var t := SaveAll(EMPTY, calls);
            EventsOf(t.events, t.runs[k].id) == Staged(calls, FirstSince(Attempts(calls), t.runs[k].fingerprint))
  {
    var front, c := calls[..|calls| - 1], calls[|calls| - 1];
    assert calls == front + [c];
    EverySequenceKeepsInv(front);
    if k < |SaveAll(EMPTY, front).runs| {
      FirstParseStays(front, k);
    } else if FirstSince(Attempts(front), c.file.fingerprint).Some? {
      FirstHasRun(front, c.file.fingerprint);
    }
    AttemptsNext(front, c);
    StagedStep(SaveAll(EMPTY, front), front, Attempts(front), c, k);
  }

  const DEPOSIT := Row(
    Plain(1), TransferIn, Iso(1, 0), NoDate, 0, 0, 0, 1, 0.0, 0.0, 0.0, 0.0, 0.0, 1.0, 0.0, None, None, None,
    0, 0, 0, 0, true, true, true)

  /** The file with fingerprint 1, as a parser that reads this net amount sees it. */
  function ParsedAs(net: real): Call {
    Call(FilePreview(1, 1, Parsed([DEPOSIT.(net := net)])), 0, 0, 1)
  }

  lemma OneRowParsed(net: real)
    ensures ParsedAs(net).file.preview.events == [Event(2, DEPOSIT.(net := net), None)]
    ensures ParsedAs(net).file.preview.status.Pass? && Counted(ParsedAs(net))
  {
    var rows := [DEPOSIT.(net := net)];
    assert Iso(1, 0).text > 0.0;
    PassMeansClean(rows);
    assert Clean(rows) == [Event(2, rows[0], None)];
  }

  /** Two calls whose previews of one file differ, both saved; the first parse stays. */
  predicate KeepsOldParse(first: Call, second: Call) {
    var t := SaveAll(EMPTY, [first, second]);
    && first.file.fingerprint == second.file.fingerprint && Counted(first) && Counted(second)
    && !first.file.preview.status.Blocked? && !second.file.preview.status.Blocked?
    && Attempts([first, second]) == [Attempt(first, true), Attempt(second, true)]
    && first.file.preview.events != second.file.preview.events
    && EventsOf(t.events, first.id) == first.file.preview.events
  }

  lemma SaveAllNext(front: seq<Call>, c: Call)
    ensures SaveAll(EMPTY, front + [c]) == Save(SaveAll(EMPTY, front), c).0
  {
    assert (front + [c])[..|front|] == front;
  }

  lemma SaveTwice(first: Call, second: Call)
    ensures SaveAll(EMPTY, [first, second]) == Save(SaveAll(EMPTY, [first]), second).0
    ensures Attempts([first, second])
            == [Attempt(first, Save(EMPTY, first).1.Saved?), Attempt(second, Save(SaveAll(EMPTY, [first]), second).1.Saved?)]
  {
    assert [first, second] == [first] + [second] && [first] == [] + [first];
    SaveAllNext([first], second);
    AttemptsNext([first], second);
    AttemptsNext([], first);
  }

  /** The store does keep an earlier parse: a replay with another parse of the same count is accepted, and
      stages nothing. */
  lemma OldParseIsKept()
    ensures exists first: Call, second: Call :: KeepsOldParse(first, second)
  {
    var first, second := ParsedAs(1.0), ParsedAs(2.0);
    OneRowParsed(1.0);
    OneRowParsed(2.0);
    FirstIsSaved(first);
    SaveTwice(first, second);
    SecondKeepsFirst(SaveAll(EMPTY, [first]), first, second);
    assert KeepsOldParse(first, second);
  }

  lemma FirstIsSaved(c: Call)
    requires Counted(c) && !c.file.preview.status.Blocked?
    ensures Save(EMPTY, c).1 == Saved(NewRun(c)) && Inv(SaveAll(EMPTY, [c]))
    ensures SaveAll(EMPTY, [c]) == Tables([NewRun(c)], Rows(c.id, c.file.preview.events, c.now))
    ensures EventsOf(SaveAll(EMPTY, [c]).events, c.id) == c.file.preview.events
  {
    assert [c][..0] == [];
    EverySequenceKeepsInv([c]);
    EventsOfRows(c.id, c.file.preview.events, c.now, c.id);
  }

  lemma SecondKeepsFirst(t: Tables, first: Call, second: Call)
    requires Inv(t) && t.runs == [NewRun(first)] && Counted(second)
    requires first.file.fingerprint == second.file.fingerprint
    requires !first.file.preview.status.Blocked? && !second.file.preview.status.Blocked?
    requires EventsOf(t.events, first.id) == first.file.preview.events != []
    requires |first.file.preview.events| == |second.file.preview.events|
    ensures Save(t, second).1.Saved? && EventsOf(Save(t, second).0.events, first.id) == first.file.preview.events
  {
    assert RunOf(t.runs, second.file.fingerprint) == 0;
    SaveEvents(t, second, first.id);
  }
}
