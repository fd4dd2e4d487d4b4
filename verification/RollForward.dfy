/**
 The daily roll-forward of a local statement: derived snapshots are stripped, cash and positions are
 recomputed from the remaining rows, and one new derived set is appended.
 */
module RollForward {
  import opened LifecycleValues
  import opened Statement

  /** A statement file.  `columns` is its header; the flags say that the bytes decode, that the header
      is an accepted one, and that no row has more cells than the header. */
  datatype File = File(readable: bool, columns: Token, headerValid: bool, shapeValid: bool, rows: seq<Row>)

  datatype RollBlocker =
    | EncodingInvalid | SchemaInvalid | RowShapeInvalid | SourceEventsMissing | SourceValidationBlocked
    | EventIdentityConflict | EventTimeInvalid | SourceAfterCutoff | NonFiniteValue | CashAnchorMissing
    | PositionScopeMissing | PositionStateIncomplete
    | LedgerIntegrity | LedgerRecordInvalid | SourcePredatesLedgerEvent | SourcePredatesLedgerRevision
    | FileUnreadable | FileSizeInvalid | FileChangedDuringRead | FileChangedBeforeWrite | WriteFailed

  const SHANGHAI := 28800 * SECOND
  const CUTOFF := 31500 * SECOND
  const ROLL_NOTE: Token := 1

  /** Rows that are not derived snapshots. */
  function Base(rows: seq<Row>): seq<Row> {
    if rows == [] then []
    else Base(rows[..|rows| - 1]) + if Derived(rows[|rows| - 1].id) then [] else [rows[|rows| - 1]]
  }

  // ---------------------------------------------------------------- order of events

  /** The roll-forward orders events by instant, the lineage check by the text of the time. */
  datatype Ordering = ByInstant | ByText

  function Key(order: Ordering, e: Event): real {
    match order
    case ByInstant => if e.row.occurredAt.at.Some? then e.row.occurredAt.at.value as real else 0.0
    case ByText => e.row.occurredAt.text
  }

  predicate Before(order: Ordering, a: Event, b: Event) {
    Key(order, a) < Key(order, b) || (Key(order, a) == Key(order, b) && a.number < b.number)
  }

  function Place(order: Ordering, sorted: seq<Event>, e: Event): seq<Event> {
    if sorted == [] || !Before(order, e, sorted[|sorted| - 1]) then sorted + [e]
    else Place(order, sorted[..|sorted| - 1], e) + [sorted[|sorted| - 1]]
  }

  /** `sorted(events, key=(time, row))`. */
  function InOrder(order: Ordering, events: seq<Event>): seq<Event> {
    if events == [] then [] else Place(order, InOrder(order, events[..|events| - 1]), events[|events| - 1])
  }

  predicate Ordered(order: Ordering, events: seq<Event>) {
    forall i, j :: 0 <= i < j < |events| ==> Before(order, events[i], events[j])
  }

  predicate Numbered(events: seq<Event>) {
    forall i, j :: 0 <= i < j < |events| ==> events[i].number < events[j].number
  }

  lemma {:induction false} PlaceKeepsElements(order: Ordering, sorted: seq<Event>, e: Event)
    ensures multiset(Place(order, sorted, e)) == multiset(sorted) + multiset{e}
  {
    if sorted != [] && Before(order, e, sorted[|sorted| - 1]) {
      PlaceKeepsElements(order, sorted[..|sorted| - 1], e);
      assert sorted == sorted[..|sorted| - 1] + [sorted[|sorted| - 1]];
    }
  }

  lemma {:induction false} InOrderKeepsElements(order: Ordering, events: seq<Event>)
    ensures multiset(InOrder(order, events)) == multiset(events)
    ensures |InOrder(order, events)| == |events|
    ensures forall e :: e in InOrder(order, events) <==> e in events
  {
    if events != [] {
      var front, last := events[..|events| - 1], events[|events| - 1];
      InOrderKeepsElements(order, front);
      PlaceKeepsElements(order, InOrder(order, front), last);
      assert events == front + [last];
    }
    SameMultisetSameElements(InOrder(order, events), events);
  }

  lemma SameMultisetSameElements(a: seq<Event>, b: seq<Event>)
    requires multiset(a) == multiset(b)
    ensures |a| == |b| && forall e :: e in a <==> e in b
  {
    assert |multiset(a)| == |a| && |multiset(b)| == |b|;
    assert forall e :: e in a <==> e in multiset(a);
    assert forall e :: e in b <==> e in multiset(b);
  }

  lemma {:induction false} PlaceKeepsOrder(order: Ordering, sorted: seq<Event>, e: Event)
    requires Ordered(order, sorted) && forall x :: x in sorted ==> x.number != e.number
    ensures Ordered(order, Place(order, sorted, e))
  {
    if sorted != [] && Before(order, e, sorted[|sorted| - 1]) {
      var front, last := sorted[..|sorted| - 1], sorted[|sorted| - 1];
      PlaceKeepsOrder(order, front, e);
      PlacedBefore(order, front, last, e);
    }
  }

  lemma PlacedBefore(order: Ordering, front: seq<Event>, last: Event, e: Event)
    requires Ordered(order, front + [last]) && Before(order, e, last)
    ensures forall x :: x in Place(order, front, e) ==> Before(order, x, last)
  {
    PlaceKeepsElements(order, front, e);
    forall x | x in Place(order, front, e) ensures Before(order, x, last) {
      assert x in multiset(Place(order, front, e));
      if x != e {
        var j :| 0 <= j < |front| && front[j] == x;
        assert (front + [last])[j] == x && (front + [last])[|front|] == last;
      }
    }
  }

  lemma {:induction false} InOrderIsOrdered(order: Ordering, events: seq<Event>)
    requires Numbered(events)
    ensures Ordered(order, InOrder(order, events))
  {
    if events != [] {
      var front, last := events[..|events| - 1], events[|events| - 1];
      InOrderIsOrdered(order, front);
      InOrderKeepsElements(order, front);
      PlaceKeepsOrder(order, InOrder(order, front), last);
    }
  }

  // ---------------------------------------------------------------- cash

  /** Walk the events: a stated balance replaces the running one; anything else that is not a snapshot
      adds its net amount; before the first stated balance there is nothing to add to. */
  function Folded(events: seq<Event>): Option<real> {
    if events == [] then None
    else
      var before, row := Folded(events[..|events| - 1]), events[|events| - 1].row;
      if row.cash.Some? then row.cash
      else if before.None? || IsSnapshot(row.kind) then before
      else Some(before.value + row.net)
  }

  lemma FoldedStep(events: seq<Event>, i: nat)
    requires i < |events|
    ensures var before, row := Folded(events[..i]), events[i].row;
            Folded(events[..i + 1])
            == if row.cash.Some? then row.cash
               else if before.None? || IsSnapshot(row.kind) then before
               else Some(before.value + row.net)
  {
    assert events[..i + 1][..i] == events[..i];
  }

  /** Last event with a stated balance, or -1. */
  function Anchor(events: seq<Event>): (k: int)
    ensures -1 <= k < |events|
    ensures k >= 0 ==> events[k].row.cash.Some?
    ensures forall i :: k < i < |events| ==> events[i].row.cash.None?
  {
    if events == [] then -1
    else if events[|events| - 1].row.cash.Some? then |events| - 1
    else Anchor(events[..|events| - 1])
  }

  lemma {:induction false} NoAnchorNoBalance(events: seq<Event>)
    ensures Folded(events).Some? <==> Anchor(events) >= 0
  {
    if events != [] {
      NoAnchorNoBalance(events[..|events| - 1]);
    }
  }

  /** The source takes the last stated balance and adds the net amounts of later events, comparing
      (time, row) pairs; on ordered events that is the fold above. */
  method CarryCash(events: seq<Event>) returns (balance: Option<real>)
    requires Ordered(ByInstant, events)
    ensures balance == Folded(events)
  {
    var k := Anchor(events);
    NoAnchorNoBalance(events);
    if k < 0 {
      return None;
    }
    var cash := events[k].row.cash.value;
    for i := 0 to |events|
      invariant Some(cash) == if i <= k then events[k].row.cash else Folded(events[..i])
    {
      FoldedStep(events, i);
      assert Before(ByInstant, events[k], events[i]) <==> i > k;
      if Before(ByInstant, events[k], events[i]) && !IsSnapshot(events[i].row.kind) {
        cash := cash + events[i].row.net;
      }
    }
    assert events[..|events|] == events;
    balance := Some(cash);
  }

  // ---------------------------------------------------------------- positions

  /** The newest event of each symbol. */
  function LatestBySymbol(events: seq<Event>): (m: map<Token, Event>)
    ensures 0 !in m
  {
    if events == [] then map[]
    else
      var before, last := LatestBySymbol(events[..|events| - 1]), events[|events| - 1];
      if last.row.symbol != 0 then before[last.row.symbol := last] else before
  }

  method CollectLatest(events: seq<Event>) returns (latest: map<Token, Event>)
    ensures latest == LatestBySymbol(events)
  {
    latest := map[];
    for i := 0 to |events|
      invariant latest == LatestBySymbol(events[..i])
    {
      assert events[..i + 1][..i] == events[..i];
      if events[i].row.symbol != 0 {
        latest := latest[events[i].row.symbol := events[i]];
      }
    }
    assert events[..|events|] == events;
  }

  /** What "newest" means. */
  lemma {:induction false} LatestIsNewest(order: Ordering, events: seq<Event>, symbol: Token)
    requires Ordered(order, events) && symbol in LatestBySymbol(events)
    ensures LatestBySymbol(events)[symbol] in events && LatestBySymbol(events)[symbol].row.symbol == symbol
    ensures forall e :: e in events && e.row.symbol == symbol && e != LatestBySymbol(events)[symbol] ==>
              Before(order, e, LatestBySymbol(events)[symbol])
  {
    var front, last := events[..|events| - 1], events[|events| - 1];
    assert events == front + [last];
    if last.row.symbol == symbol {
      forall e | e in front ensures Before(order, e, last) {
        var i :| 0 <= i < |front| && front[i] == e;
        assert events[i] == e && events[|front|] == last;
      }
    } else {
      LatestIsNewest(order, front, symbol);
    }
  }

  lemma {:induction false} LatestCoversSymbols(events: seq<Event>, symbol: Token)
    ensures symbol in LatestBySymbol(events)
            <==> symbol != 0 && exists e :: e in events && e.row.symbol == symbol
  {
    if events != [] {
      var front, last := events[..|events| - 1], events[|events| - 1];
      LatestCoversSymbols(front, symbol);
      assert events == front + [last];
      if symbol != 0 && last.row.symbol == symbol {
        assert last in events;
      }
      if e :| e in front && e.row.symbol == symbol {
        assert e in events;
      }
    }
  }

  // ---------------------------------------------------------------- symbols in order

  function AddSymbol(symbols: seq<Token>, symbol: Token): seq<Token> {
    if symbols == [] then [symbol]
    else
      var last := symbols[|symbols| - 1];
      if last == symbol then symbols
      else if last < symbol then symbols + [symbol]
      else AddSymbol(symbols[..|symbols| - 1], symbol) + [last]
  }

  /** The symbols of the events, ascending and without repetition. */
  function Symbols(events: seq<Event>): seq<Token> {
    if events == [] then []
    else
      var before, symbol := Symbols(events[..|events| - 1]), events[|events| - 1].row.symbol;
      if symbol != 0 then AddSymbol(before, symbol) else before
  }

  predicate Ascending(symbols: seq<Token>) {
    forall i, j :: 0 <= i < j < |symbols| ==> symbols[i] < symbols[j]
  }

  lemma {:induction false} AddSymbolAdds(symbols: seq<Token>, symbol: Token)
    ensures forall x :: x in AddSymbol(symbols, symbol) <==> x in symbols || x == symbol
  {
    if symbols != [] {
      var front, last := symbols[..|symbols| - 1], symbols[|symbols| - 1];
      AddSymbolAdds(front, symbol);
      assert symbols == front + [last];
    }
  }

  lemma {:induction false} AddSymbolAscends(symbols: seq<Token>, symbol: Token)
    requires Ascending(symbols)
    ensures Ascending(AddSymbol(symbols, symbol))
  {
    if symbols != [] && symbols[|symbols| - 1] > symbol {
      var front, last := symbols[..|symbols| - 1], symbols[|symbols| - 1];
      AddSymbolAscends(front, symbol);
      AddSymbolAdds(front, symbol);
      forall x | x in front ensures x < last {
        var i :| 0 <= i < |front| && front[i] == x;
        assert symbols[i] == x;
      }
      var added := AddSymbol(front, symbol);
      forall i | 0 <= i < |added| ensures added[i] < last {
        assert added[i] in added;
      }
    }
  }

  lemma {:induction false} SymbolsAreKeys(events: seq<Event>)
    ensures Ascending(Symbols(events))
    ensures forall x :: x in Symbols(events) <==> x in LatestBySymbol(events)
  {
    if events != [] {
      var front, symbol := events[..|events| - 1], events[|events| - 1].row.symbol;
      SymbolsAreKeys(front);
      AddSymbolAscends(Symbols(front), symbol);
      AddSymbolAdds(Symbols(front), symbol);
    }
  }

  // ---------------------------------------------------------------- the derived set

  /** 08:45 in Shanghai on a day. */
  function CutoffStamp(day: nat): Stamp { Iso(day * DAY + CUTOFF, SHANGHAI) }

  function CutoffInstant(day: nat): int { day * DAY + CUTOFF - SHANGHAI }

  function SnapshotRow(id: EventId, kind: Kind, day: nat, currency: Token): Row {
    Row(id, kind, CutoffStamp(day), DateOf(day, 0), 0, 0, 0, currency, 0.0, 0.0, 0.0, 0.0, 0.0, 0.0, 0.0,
        None, None, None, 0, ROLL_NOTE, 0, 0, true, true, true)
  }

  function CashRow(source: seq<Row>, day: nat, currency: Token, balance: real): Row {
    SnapshotRow(CashId(day, source), CashSnapshot, day, currency).(cash := Some(balance))
  }

  function PositionRow(source: seq<Row>, day: nat, symbol: Token, row: Row): Row {
    SnapshotRow(PositionId(day, symbol, source), PositionSnapshot, day, row.currency).(
      symbol := symbol, instrument := row.instrument, assetClass := row.assetClass, price := row.price,
      position := row.position, cost := row.cost, costMethod := row.costMethod)
  }

  function PositionRows(source: seq<Row>, day: nat, symbols: seq<Token>, latest: map<Token, Event>): (r: seq<Row>)
    requires forall x :: x in symbols ==> x in latest
    ensures |r| == |symbols|
  {
    if symbols == [] then []
    else
      var front, symbol := symbols[..|symbols| - 1], symbols[|symbols| - 1];
      PositionRows(source, day, front, latest) + [PositionRow(source, day, symbol, latest[symbol].row)]
  }

  function DerivedSet(
    source: seq<Row>, day: nat, currency: Token, balance: real, symbols: seq<Token>, latest: map<Token, Event>)
    : (r: seq<Row>)
    requires forall x :: x in symbols ==> x in latest
    ensures |r| == 1 + |symbols|
  {
    [CashRow(source, day, currency, balance)] + PositionRows(source, day, symbols, latest)
  }

  function AnchorCurrency(events: seq<Event>): Token {
    if Anchor(events) < 0 then 0 else events[Anchor(events)].row.currency
  }

  function Balance(events: seq<Event>): real {
    if Folded(events).Some? then Folded(events).value else 0.0
  }

  /** The rows appended for a day. */
  function Generated(base: seq<Row>, day: nat): seq<Row> {
    var events := InOrder(ByInstant, Clean(base));
    SymbolsAreKeys(events);
    DerivedSet(base, day, AnchorCurrency(events), Balance(events), Symbols(events), LatestBySymbol(events))
  }

  // ---------------------------------------------------------------- preparing

  predicate IdsDistinct(events: seq<Event>) {
    forall i, j :: 0 <= i < j < |events| ==> events[i].row.id != events[j].row.id
  }

  predicate Incomplete(row: Row) {
    row.position.None? || row.cost.None? || row.instrument == 0 || row.assetClass == 0 || row.currency == 0
  }

  datatype Outcome = Refused(blocker: RollBlocker) | Ready(output: File, source: seq<Row>, positions: nat)

  function SourceBlocker(base: seq<Row>): Option<RollBlocker> {
    if base == [] then Some(SourceEventsMissing)
    else if Statement.Parsed(base).status != Pass then Some(SourceValidationBlocked)
    else if !IdsDistinct(Clean(base)) then Some(EventIdentityConflict)
    else None
  }

  function ValueBlocker(base: seq<Row>, day: nat): Option<RollBlocker> {
    if exists row :: row in base && row.occurredAt.at.None? then Some(EventTimeInvalid)
    else if exists row :: row in base && row.occurredAt.at.Some? && row.occurredAt.at.value > CutoffInstant(day) then
      Some(SourceAfterCutoff)
    else if exists row :: row in base && !row.finite then Some(NonFiniteValue)
    else None
  }

  function StateBlocker(events: seq<Event>): Option<RollBlocker> {
    var latest := LatestBySymbol(events);
    if Anchor(events) < 0 then Some(CashAnchorMissing)
    else if latest == map[] then Some(PositionScopeMissing)
    else if exists symbol :: symbol in latest && Incomplete(latest[symbol].row) then Some(PositionStateIncomplete)
    else None
  }

  /** What decides, as a function of the base rows alone. */
  function BaseBlocker(base: seq<Row>, day: nat): Option<RollBlocker> {
    if SourceBlocker(base).Some? then SourceBlocker(base)
    else if ValueBlocker(base, day).Some? then ValueBlocker(base, day)
    else StateBlocker(InOrder(ByInstant, Clean(base)))
  }

  function FileBlocker(file: File): Option<RollBlocker> {
    if !file.readable then Some(EncodingInvalid)
    else if !file.headerValid then Some(SchemaInvalid)
    else if !file.shapeValid then Some(RowShapeInvalid)
    else None
  }

  function Prepare(file: File, day: nat): Outcome {
    var base := Base(file.rows);
    if FileBlocker(file).Some? then Refused(FileBlocker(file).value)
    else if BaseBlocker(base, day).Some? then Refused(BaseBlocker(base, day).value)
    else
      Ready(File(true, file.columns, true, true, base + Generated(base, day)), base,
            |Symbols(InOrder(ByInstant, Clean(base)))|)
  }

  // ---------------------------------------------------------------- preparing, step by step

  method StripDerived(rows: seq<Row>) returns (base: seq<Row>)
    ensures base == Base(rows)
  {
    base := [];
    for i := 0 to |rows|
      invariant base == Base(rows[..i])
    {
      assert rows[..i + 1][..i] == rows[..i];
      if !Derived(rows[i].id) {
        base := base + [rows[i]];
      }
    }
    assert rows[..|rows|] == rows;
  }

  /** `any(... > effective_at)`: looking only at the last event in order is enough. */
  lemma LastIsLatest(events: seq<Event>, cutoff: int)
    requires Ordered(ByInstant, events) && events != []
    requires forall e :: e in events ==> e.row.occurredAt.at.Some?
    ensures events[|events| - 1].row.occurredAt.at.value > cutoff
            <==> exists e :: e in events && e.row.occurredAt.at.value > cutoff
  {
  }

  method AppendPositions(source: seq<Row>, day: nat, symbols: seq<Token>, latest: map<Token, Event>)
    returns (rows: seq<Row>)
    requires forall x :: x in symbols ==> x in latest
    ensures rows == PositionRows(source, day, symbols, latest)
  {
    rows := [];
    for i := 0 to |symbols|
      invariant rows == PositionRows(source, day, symbols[..i], latest)
    {
      assert symbols[..i + 1][..i] == symbols[..i];
      rows := rows + [PositionRow(source, day, symbols[i], latest[symbols[i]].row)];
    }
    assert symbols[..|symbols|] == symbols;
  }

  lemma OrderedEvents(base: seq<Row>)
    ensures var events := InOrder(ByInstant, Clean(base));
            Ordered(ByInstant, events)
            && (forall e :: e in events ==> e.row in base)
            && (forall row :: row in base ==> exists e :: e in events && e.row == row)
            && |events| == |base|
  {
    InOrderIsOrdered(ByInstant, Clean(base));
    InOrderKeepsElements(ByInstant, Clean(base));
    var events := InOrder(ByInstant, Clean(base));
    forall e | e in events ensures e.row in base {
      assert e in Clean(base);
    }
    forall row | row in base ensures exists e :: e in events && e.row == row {
      var i :| 0 <= i < |base| && base[i] == row;
      assert Clean(base)[i] in Clean(base) && Clean(base)[i].row == row;
    }
  }

  method CheckSource(base: seq<Row>) returns (blocker: Option<RollBlocker>)
    ensures blocker == SourceBlocker(base)
  {
    if base == [] {
      return Some(SourceEventsMissing);
    }
    var preview := ParseRows(base);
    PassMeansClean(base);
    if preview.status != Pass || |preview.events| != |base| {
      return Some(SourceValidationBlocked);
    }
    if !IdsDistinct(preview.events) {
      return Some(EventIdentityConflict);
    }
    blocker := None;
  }

  /** The cutoff is checked on the last event in order only. */
  method CheckValues(base: seq<Row>, day: nat) returns (blocker: Option<RollBlocker>)
    requires base != []
    ensures blocker == ValueBlocker(base, day)
  {
    var events := InOrder(ByInstant, Clean(base));
    OrderedEvents(base);
    if exists row :: row in base && row.occurredAt.at.None? {
      return Some(EventTimeInvalid);
    }
    LastIsLatest(events, CutoffInstant(day));
    if events[|events| - 1].row.occurredAt.at.value > CutoffInstant(day) {
      return Some(SourceAfterCutoff);
    }
    assert !exists row :: row in base && row.occurredAt.at.Some? && row.occurredAt.at.value > CutoffInstant(day);
    blocker := if exists row :: row in base && !row.finite then Some(NonFiniteValue) else None;
  }

  /** Cash and positions carried forward, or the reason there are none. */
  method CarryState(events: seq<Event>)
    returns (blocker: Option<RollBlocker>, balance: real, latest: map<Token, Event>)
    requires Ordered(ByInstant, events)
    ensures blocker == StateBlocker(events)
    ensures blocker.None? ==> Folded(events) == Some(balance) && latest == LatestBySymbol(events)
  {
    var cash := CarryCash(events);
    NoAnchorNoBalance(events);
    latest := map[];
    if cash.None? {
      return Some(CashAnchorMissing), 0.0, latest;
    }
    balance := cash.value;
    latest := CollectLatest(events);
    if latest == map[] {
      return Some(PositionScopeMissing), balance, latest;
    }
    blocker := if exists symbol :: symbol in latest && Incomplete(latest[symbol].row)
               then Some(PositionStateIncomplete) else None;
  }

  /** The preparation as the source runs it. */
  method PrepareRollForward(file: File, day: nat) returns (outcome: Outcome)
    ensures outcome == Prepare(file, day)
  {
    if FileBlocker(file).Some? {
      return Refused(FileBlocker(file).value);
    }
    var base := StripDerived(file.rows);
    var blocker := CheckSource(base);
    if blocker.None? {
      blocker := CheckValues(base, day);
    }
    if blocker.Some? {
      return Refused(blocker.value);
    }
    var events := InOrder(ByInstant, Clean(base));
    OrderedEvents(base);
    var state, balance, latest := CarryState(events);
    if state.Some? {
      return Refused(state.value);
    }
    SymbolsAreKeys(events);
    var positions := AppendPositions(base, day, Symbols(events), latest);
    var generated := [CashRow(base, day, AnchorCurrency(events), balance)] + positions;
    assert generated == Generated(base, day);
    outcome := Ready(File(true, file.columns, true, true, base + generated), base, |Symbols(events)|);
  }

  // ---------------------------------------------------------------- composition

  lemma {:induction false} BaseAppend(a: seq<Row>, b: seq<Row>)
    ensures Base(a + b) == Base(a) + Base(b)
  {
    if b == [] {
      assert a + b == a;
    } else {
      BaseAppend(a, b[..|b| - 1]);
      assert (a + b)[..|a + b| - 1] == a + b[..|b| - 1];
    }
  }

  lemma {:induction false} BaseIsPlain(rows: seq<Row>)
    ensures forall row :: row in Base(rows) ==> !Derived(row.id)
  {
    if rows != [] {
      BaseIsPlain(rows[..|rows| - 1]);
    }
  }

  lemma {:induction false} PlainIsBase(rows: seq<Row>)
    requires forall row :: row in rows ==> !Derived(row.id)
    ensures Base(rows) == rows
  {
    if rows != [] {
      PlainIsBase(rows[..|rows| - 1]);
      assert rows == rows[..|rows| - 1] + [rows[|rows| - 1]];
    }
  }

  lemma {:induction false} PositionRowsAreDerived(source: seq<Row>, day: nat, symbols: seq<Token>, latest: map<Token, Event>)
    requires forall x :: x in symbols ==> x in latest
    ensures Base(PositionRows(source, day, symbols, latest)) == []
  {
    if symbols != [] {
      PositionRowsAreDerived(source, day, symbols[..|symbols| - 1], latest);
    }
  }

  lemma GeneratedIsDerived(base: seq<Row>, day: nat)
    ensures Base(Generated(base, day)) == []
  {
    var events := InOrder(ByInstant, Clean(base));
    SymbolsAreKeys(events);
    var cash := [CashRow(base, day, AnchorCurrency(events), Balance(events))];
    PositionRowsAreDerived(base, day, Symbols(events), LatestBySymbol(events));
    BaseAppend(cash, PositionRows(base, day, Symbols(events), LatestBySymbol(events)));
    assert Base(cash) == Base(cash[..0]) + [];
  }

  /** The derived set is stripped again, and nothing else is. */
  lemma OutputKeepsBase(file: File, day: nat)
    requires Prepare(file, day).Ready?
    ensures Base(Prepare(file, day).output.rows) == Base(file.rows)
    ensures Prepare(file, day).source == Base(file.rows)
  {
    var base := Base(file.rows);
    BaseIsPlain(file.rows);
    PlainIsBase(base);
    GeneratedIsDerived(base, day);
    BaseAppend(base, Generated(base, day));
  }

  /** Preparing looks at the header and the base rows only. */
  lemma PrepareSeesOnlyBase(a: File, b: File, day: nat)
    requires FileBlocker(a).None? && FileBlocker(b).None?
    requires a.columns == b.columns && Base(a.rows) == Base(b.rows)
    ensures Prepare(a, day) == Prepare(b, day)
  {
  }

  /** Rolling to one day and then to another is rolling to the other alone, whichever comes first. */
  lemma RollingComposes(file: File, first: nat, second: nat)
    requires Prepare(file, first).Ready?
    ensures Prepare(Prepare(file, first).output, second) == Prepare(file, second)
  {
    OutputKeepsBase(file, first);
    PrepareSeesOnlyBase(Prepare(file, first).output, file, second);
  }
}
