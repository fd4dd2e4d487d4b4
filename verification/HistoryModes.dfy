/** What the mode of an assessment says: of one step, and of a whole history. */
module HistoryModes {
  import opened LifecycleValues
  import opened Statement
  import opened RollForward
  import opened Lineage
  import opened Continuity
  import opened ContinuityTheorems

  // ---------------------------------------------------------------- one step

  /** The stable rows name the id of some activity. */
  predicate HasActivity(rows: multiset<Row>, id: EventId) {
    exists row :: row in rows && row.id == id && !Derived(row.id) && !IsSnapshot(row.kind)
  }

  lemma BaseRowsNext(events: seq<Event>, e: Event)
    ensures multiset(RowsOf(BaseEvents(events + [e])))
            == multiset(RowsOf(BaseEvents(events))) + if Derived(e.row.id) then multiset{} else multiset{e.row}
  {
    assert (events + [e])[..|events|] == events;
    if Derived(e.row.id) {
      assert BaseEvents(events + [e]) == BaseEvents(events);
    } else {
      assert RowsOf(BaseEvents(events + [e])) == RowsOf(BaseEvents(events)) + [e.row];
    }
  }

  /** The activity of an import is named by its stable rows alone. */
  lemma {:induction false} ActivityIds(events: seq<Event>)
    requires Activity(events).Some?
    ensures forall id :: id in Activity(events).value <==> HasActivity(multiset(RowsOf(BaseEvents(events))), id)
  {
    if events != [] {
      var front, last := events[..|events| - 1], events[|events| - 1];
      assert events == front + [last];
      ActivityIds(front);
      BaseRowsNext(front, last);
      ActivityStep(front, last);
      var before, after := multiset(RowsOf(BaseEvents(front))), multiset(RowsOf(BaseEvents(events)));
      forall id ensures HasActivity(after, id) <==> HasActivity(before, id) || (IsActivity(last) && id == last.row.id) {
        if HasActivity(before, id) {
          var row :| row in before && row.id == id && !Derived(row.id) && !IsSnapshot(row.kind);
          assert row in after;
        } else if IsActivity(last) && id == last.row.id {
          assert last.row in after;
        }
      }
    }
  }

  /** With the same stable rows nothing is added. */
  lemma SameSourceAddsNothing(current: Import, reviewed: Import)
    requires Activity(current.events).Some? && Activity(reviewed.events).Some?
    requires Project(current).source == Project(reviewed).source
    ensures Added(KnownActivity(current), KnownActivity(reviewed)) == {}
  {
    ActivityIds(current.events);
    ActivityIds(reviewed.events);
  }

  predicate Adds(current: Import, reviewed: Import) {
    Added(KnownActivity(current), KnownActivity(reviewed)) != {}
  }

  lemma ContinuousHasActivity(current: Import, reviewed: Import, requireSnapshot: bool)
    requires Continuous(current, reviewed, requireSnapshot)
    ensures Activity(current.events).Some? && Activity(reviewed.events).Some?
    ensures KnownActivity(reviewed).Keys <= KnownActivity(current).Keys
  {
    hide Project;
    assert ImportBlockers(current, reviewed, requireSnapshot) == [];
    assert ActivityBlockers(KnownActivity(current), KnownActivity(reviewed), Project(current).date) == [];
    assert Removed(KnownActivity(current), KnownActivity(reviewed)) == {};
    assert forall id :: id in KnownActivity(reviewed).Keys ==>
                          id !in Removed(KnownActivity(current), KnownActivity(reviewed));
  }

  /** What the mode of an assessment means: material drift exactly when it is blocked; else an append with
      state refresh exactly when activity was added, a daily roll-forward exactly when the stable source is
      the same, and never a plain append. */
  lemma ModeMeans(current: Import, reviewed: Import, requireSnapshot: bool)
    ensures var mode := Assess(current, reviewed, requireSnapshot).mode;
            && (mode.MaterialDrift? <==> !Continuous(current, reviewed, requireSnapshot))
            && !mode.AppendOnly?
            && (Continuous(current, reviewed, requireSnapshot) ==>
                  && (mode.AppendWithStateRefresh? <==> Adds(current, reviewed))
                  && (mode.DailyRollForward? <==> Project(current).source == Project(reviewed).source))
  {
    hide Project, ImportBlockers, ActivityBlockers, KnownActivity;
    if Continuous(current, reviewed, requireSnapshot) {
      ContinuousHasActivity(current, reviewed, requireSnapshot);
      if Project(current).source == Project(reviewed).source {
        SameSourceAddsNothing(current, reviewed);
      }
    }
  }

  // ---------------------------------------------------------------- along a chain

  lemma {:induction false} StepModesAt(imports: seq<Import>)
    ensures |StepModes(imports)| == if imports == [] then 0 else |imports| - 1
    ensures forall i :: 0 < i < |imports| ==> StepModes(imports)[i - 1] == Assess(imports[i], imports[i - 1], true).mode
  {
    hide Assess;
    if |imports| >= 2 {
      StepModesAt(imports[..|imports| - 1]);
    }
  }

  /** A step adds activity. */
  predicate AddsSomewhere(imports: seq<Import>) {
    exists i :: 0 < i < |imports| && Adds(imports[i], imports[i - 1])
  }

  lemma NoIdLost(imports: seq<Import>, i: nat)
    requires Chain(imports) && 0 < i < |imports|
    ensures KnownActivity(imports[i - 1]).Keys <= KnownActivity(imports[i]).Keys
  {
    hide Continuous, KnownActivity;
    StepOfChain(imports, i);
    ContinuousHasActivity(imports[i], imports[i - 1], true);
  }

  /** Ids only grow along a chain, so the ends differ exactly when some step added. */
  lemma {:induction false} ChainAdds(imports: seq<Import>)
    requires Chain(imports) && imports != []
    ensures KnownActivity(imports[0]).Keys <= KnownActivity(imports[|imports| - 1]).Keys
    ensures Adds(imports[|imports| - 1], imports[0]) <==> AddsSomewhere(imports)
  {
    hide Continuous, KnownActivity;
    var n := |imports| - 1;
    if n > 0 {
      var front := imports[..n];
      ChainAdds(front);
      NoIdLost(imports, n);
      assert AddsSomewhere(imports) <==> AddsSomewhere(front) || Adds(imports[n], imports[n - 1]) by {
        if AddsSomewhere(front) {
          var i :| 0 < i < |front| && Adds(front[i], front[i - 1]);
          assert Adds(imports[i], imports[i - 1]);
        }
        if AddsSomewhere(imports) {
          var i :| 0 < i < |imports| && Adds(imports[i], imports[i - 1]);
          assert i < n ==> Adds(front[i], front[i - 1]);
        }
      }
    }
  }

  predicate SameSources(imports: seq<Import>) {
    forall i :: 0 < i < |imports| ==> Project(imports[i]).source == Project(imports[i - 1]).source
  }

  lemma {:induction false} SourcesStay(imports: seq<Import>)
    requires SameSources(imports) && imports != []
    ensures Project(imports[|imports| - 1]).source == Project(imports[0]).source
  {
    hide Project;
    if |imports| > 1 {
      SourcesStay(imports[..|imports| - 1]);
    }
  }

  /** What the mode of the step to import `i` means. */
  predicate Says(imports: seq<Import>, i: nat, mode: Mode)
    requires 0 < i < |imports|
  {
    && !mode.MaterialDrift? && !mode.AppendOnly?
    && (mode.AppendWithStateRefresh? <==> Adds(imports[i], imports[i - 1]))
    && (mode.DailyRollForward? <==> Project(imports[i]).source == Project(imports[i - 1]).source)
  }

  lemma StepModeMeans(imports: seq<Import>, i: nat)
    requires Chain(imports) && 0 < i < |imports|
    ensures |StepModes(imports)| == |imports| - 1 && Says(imports, i, StepModes(imports)[i - 1])
  {
    hide Continuous, Assess, Adds, Project;
    StepModesAt(imports);
    StepOfChain(imports, i);
    ModeMeans(imports[i], imports[i - 1], true);
  }

  predicate AllDaily(modes: seq<Mode>) {
    forall k :: 0 <= k < |modes| ==> modes[k].DailyRollForward?
  }

  /** What the modes of the steps say together. */
  lemma StepModesMean(imports: seq<Import>)
    requires Chain(imports) && imports != []
    ensures MaterialDrift !in StepModes(imports) && AppendOnly !in StepModes(imports)
    ensures AppendWithStateRefresh in StepModes(imports) <==> AddsSomewhere(imports)
    ensures AllDaily(StepModes(imports)) <==> SameSources(imports)
  {
    hide Continuous, Assess, Adds, Project, Chain, StepModes;
    var modes := StepModes(imports);
    StepModesAt(imports);
    forall k | 0 <= k < |modes| ensures Says(imports, k + 1, modes[k]) {
      StepModeMeans(imports, k + 1);
    }
    if AppendWithStateRefresh in modes {
      var k :| 0 <= k < |modes| && modes[k] == AppendWithStateRefresh;
      assert Says(imports, k + 1, modes[k]);
      assert Adds(imports[k + 1], imports[k + 1 - 1]);
    }
    if AddsSomewhere(imports) {
      var i :| 0 < i < |imports| && Adds(imports[i], imports[i - 1]);
      assert Says(imports, i - 1 + 1, modes[i - 1]);
    }
    if AllDaily(modes) {
      forall i | 0 < i < |imports| ensures Project(imports[i]).source == Project(imports[i - 1]).source {
        assert Says(imports, i - 1 + 1, modes[i - 1]);
      }
    }
    if SameSources(imports) {
      forall k | 0 <= k < |modes| ensures modes[k].DailyRollForward? {
        assert Says(imports, k + 1, modes[k]);
        assert Project(imports[k + 1]).source == Project(imports[k + 1 - 1]).source;
      }
    }
  }

  // ---------------------------------------------------------------- a whole history

  /** The mode of a continuous history: an append with state refresh exactly when one of its steps is, a daily
      roll-forward when all of its steps are; and it has one step for each import after the first. */
  lemma HistoryModeMeans(stored: seq<StoredImport>, current: StoredImport, reviewed: StoredImport, limit: int)
    requires current.id != reviewed.id && IsStored(stored, current) && IsStored(stored, reviewed)
    requires HistoryBlockers(stored, current, reviewed, limit) == []
    ensures var result := Assessed(stored, current, reviewed, limit);
            && InScan(stored, current, reviewed, limit)
            && result.transitions == |History(stored, current, reviewed)| - 1 >= 1
            && MaterialDrift !in result.modes && AppendOnly !in result.modes
            && !result.mode.MaterialDrift? && !result.mode.AppendOnly?
            && (result.mode.AppendWithStateRefresh? <==> AppendWithStateRefresh in result.modes)
            && (result.modes == [DailyRollForward] ==> result.mode.DailyRollForward?)
  {
    hide Assess, Continuous, Blockers, StepBlockers, StepModes, Chain, Project, KnownActivity, SameSources, AddsSomewhere;
    if !InScan(stored, current, reviewed, limit) {
      OutOfScan(stored, current, reviewed, limit);
    }
    InScanBlockers(stored, current, reviewed, limit);
    assert Listed(stored, limit) == stored;
    var imports := History(stored, current, reviewed);
    HistoryEnds(stored, current, reviewed);
    NoStepBlockerMeansChain(imports);
    StepModesMean(imports);
    ChainAdds(imports);
    ModeMeans(current.run, reviewed.run, true);
    var result := Assessed(stored, current, reviewed, limit);
    assert result.modes == Unique(StepModes(imports));
    if result.modes == [DailyRollForward] {
      forall k | 0 <= k < |StepModes(imports)| ensures StepModes(imports)[k].DailyRollForward? {
        assert StepModes(imports)[k] in result.modes;
      }
      SourcesStay(imports);
    }
  }
}
