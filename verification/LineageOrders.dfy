/** When the two orders agree: one format and offset is enough, mixed offsets are not. */
module LineageOrders {
  import opened LifecycleValues
  import opened Statement
  import opened RollForward
  import opened RollForwardRuns
  import opened Lineage

  /** Text order is instant order on these events. */
  predicate SameOrder(events: seq<Event>) {
    forall a, b :: a in events && b in events ==> (Before(ByText, a, b) <==> Before(ByInstant, a, b))
  }

  lemma {:induction false} SamePlace(sorted: seq<Event>, e: Event)
    requires forall x :: x in sorted ==> (Before(ByText, e, x) <==> Before(ByInstant, e, x))
    ensures Place(ByText, sorted, e) == Place(ByInstant, sorted, e)
  {
    if sorted != [] {
      SamePlace(sorted[..|sorted| - 1], e);
    }
  }

  lemma {:induction false} SameOrderSameSort(events: seq<Event>)
    requires SameOrder(events)
    ensures InOrder(ByText, events) == InOrder(ByInstant, events)
  {
    if events != [] {
      var front, last := events[..|events| - 1], events[|events| - 1];
      SameOrderSameSort(front);
      InOrderKeepsElements(ByInstant, front);
      SamePlace(InOrder(ByInstant, front), last);
    }
  }

  /** Every time is written in the one ISO format with the same offset. */
  ghost predicate OneOffset(base: seq<Row>, offset: int) {
    forall k :: 0 <= k < |base| ==> exists local: nat :: base[k].occurredAt == Iso(local, offset)
  }

  lemma OneOffsetSameOrder(base: seq<Row>, offset: int)
    requires OneOffset(base, offset)
    ensures SameOrder(Clean(base))
  {
  }

  lemma OneOffsetAgrees(base: seq<Row>, offset: int)
    requires OneOffset(base, offset)
    ensures OrdersAgree(base)
  {
    hide OneOffset, InOrder, LatestBySymbol;
    OneOffsetSameOrder(base, offset);
    SameOrderSameSort(Clean(base));
  }

  /** With one format and offset every rolled file passes the independent check, after any rolls. */
  lemma OneOffsetPasses(disk: Disk, steps: seq<Step>, offset: int, sourceType: Token)
    requires OneOffset(Base(disk.file.rows), offset) && LastUnblocked(disk, steps) >= 0
    ensures Project(Staged(sourceType, RollAll(disk, steps).file.rows)).blockers == []
  {
    hide Prepare, RollAll, LastUnblocked, OneOffset, OrdersAgree, Project, Staged, Base;
    LastRollDecides(disk, steps);
    var day := steps[LastUnblocked(disk, steps)].day;
    OneOffsetAgrees(Base(disk.file.rows), offset);
    LineageOfRolledFile(disk.file, day, sourceType);
  }

  /** Reviews carry over between any two rolled files of one source. */
  lemma RolledFilesMatch(file: File, first: nat, second: nat, sourceType: Token)
    requires Prepare(file, first).Ready? && Prepare(file, second).Ready? && OrdersAgree(Base(file.rows))
    ensures Match(Project(Staged(sourceType, Prepare(file, second).output.rows)),
                  Project(Staged(sourceType, Prepare(file, first).output.rows)), true)
  {
    LineageOfRolledFile(file, first, sourceType);
    LineageOfRolledFile(file, second, sourceType);
  }

  // ---------------------------------------------------------------- mixed offsets

  const HOUR := 3600 * SECOND

  function Bought(id: nat, at: Stamp, position: real, cash: real): Row {
    Row(Plain(id), TradeBuy, at, NoDate, 1, 1, 1, 1, 0.0, 0.0, 0.0, 0.0, 0.0, 0.0, 0.0, Some(cash), Some(position),
        Some(1.0), 0, 0, 0, 0, true, true, true)
  }

  /** Ten o'clock in Shanghai comes before nine o'clock in London, but is written later. */
  const MIXED := [Bought(1, Iso(10 * HOUR, 8 * HOUR), 100.0, 10.0), Bought(2, Iso(9 * HOUR, 0), 200.0, 20.0)]

  lemma TwoInOrder(order: Ordering, a: Event, b: Event)
    ensures InOrder(order, [a, b]) == if Before(order, b, a) then [b, a] else [a, b]
  {
    assert [a, b][..1] == [a] && [a][..0] == [];
    assert InOrder(order, [a]) == [a];
    if Before(order, b, a) {
      assert Place(order, [], b) == [b];
    }
  }

  lemma TwoLatest(a: Event, b: Event)
    requires a.row.symbol == b.row.symbol != 0
    ensures LatestBySymbol([a, b]) == map[a.row.symbol := b]
    ensures Anchor([a, b]) == if b.row.cash.Some? then 1 else if a.row.cash.Some? then 0 else -1
  {
    assert [a, b][..1] == [a] && [a][..0] == [];
    assert LatestBySymbol([a]) == map[a.row.symbol := a];
  }

  function First(): Event { Event(2, MIXED[0], None) }
  function Second(): Event { Event(3, MIXED[1], None) }

  lemma MixedOrders()
    ensures InOrder(ByInstant, Clean(MIXED)) == [First(), Second()]
    ensures InOrder(ByText, Clean(MIXED)) == [Second(), First()]
  {
    assert Clean(MIXED) == [First(), Second()];
    TwoInOrder(ByInstant, First(), Second());
    TwoInOrder(ByText, First(), Second());
  }

  /** A plain, complete row of one day's evidence. */
  predicate Sample(row: Row, day: nat) {
    && Valid(row) && !Derived(row.id) && !Incomplete(row) && row.finite && row.cash.Some? && row.symbol != 0
    && row.occurredAt.at.Some? && row.occurredAt.at.value <= CutoffInstant(day)
  }

  lemma TwoRowsSource(a: Row, b: Row, day: nat)
    requires Sample(a, day) && Sample(b, day) && a.id != b.id
    ensures SourceBlocker([a, b]).None? && ValueBlocker([a, b], day).None? && Base([a, b]) == [a, b]
    ensures Clean([a, b]) == [Event(2, a, None), Event(3, b, None)]
  {
    var rows := [a, b];
    PassMeansClean(rows);
    PlainIsBase(rows);
    assert AllValid(rows) && Distinct(rows) && IdsDistinct(Clean(rows));
  }

  lemma TwoRowsAccepted(a: Row, b: Row, day: nat)
    requires Sample(a, day) && Sample(b, day) && a.id != b.id && a.symbol == b.symbol
    requires a.occurredAt.at.value <= b.occurredAt.at.value
    ensures BaseBlocker([a, b], day).None? && Base([a, b]) == [a, b]
    ensures InOrder(ByInstant, Clean([a, b])) == [Event(2, a, None), Event(3, b, None)]
  {
    var rows := [a, b];
    TwoRowsSource(a, b, day);
    TwoInOrder(ByInstant, Event(2, a, None), Event(3, b, None));
    TwoLatest(Event(2, a, None), Event(3, b, None));
    assert a.symbol in LatestBySymbol(InOrder(ByInstant, Clean(rows)));
  }

  lemma OneRowSource(a: Row, day: nat)
    requires Sample(a, day)
    ensures SourceBlocker([a]).None? && ValueBlocker([a], day).None? && Base([a]) == [a]
    ensures Clean([a]) == [Event(2, a, None)]
  {
    PassMeansClean([a]);
    PlainIsBase([a]);
    assert AllValid([a]) && Distinct([a]) && IdsDistinct(Clean([a]));
  }

  lemma OneRowAccepted(a: Row, day: nat)
    requires Sample(a, day)
    ensures BaseBlocker([a], day).None? && Base([a]) == [a]
  {
    OneRowSource(a, day);
    var e := Event(2, a, None);
    assert [e][..0] == [];
    assert InOrder(ByInstant, [e]) == [e];
    assert a.symbol in LatestBySymbol([e]);
  }

  lemma MixedIsAccepted()
    ensures BaseBlocker(MIXED, 1).None? && Base(MIXED) == MIXED
    ensures !OrdersAgree(MIXED)
  {
    assert MIXED[0].occurredAt.text > 0.0 && MIXED[1].occurredAt.text > 0.0;
    TwoRowsAccepted(MIXED[0], MIXED[1], 1);
    assert MIXED == [MIXED[0], MIXED[1]];
    MixedOrders();
    TwoLatest(First(), Second());
    TwoLatest(Second(), First());
    assert 1 in ByInstantOf(MIXED) && !Agrees(ByTextOf(MIXED), ByInstantOf(MIXED), 1);
  }

  /** With mixed offsets an accepted roll-forward can fail the independent check. */
  lemma MixedOffsetsCanBlock()
    ensures exists file: File, day: nat ::
              Prepare(file, day).Ready? && Project(Staged(0, Prepare(file, day).output.rows)).blockers != []
  {
    var file := File(true, 1, true, true, MIXED);
    MixedIsAccepted();
    LineageOfRolledFile(file, 1, 0);
    assert Prepare(file, 1).Ready?;
  }
}
