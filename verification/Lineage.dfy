/** The independent check of derived snapshots, and its agreement with the roll-forward. */
module Lineage {
  import opened LifecycleValues
  import opened Statement
  import opened RollForward

  datatype LineageBlocker =
    | EventCountMismatch | EventIdentityInvalid | RowIdentityInvalid | RowFingerprintInvalid | BaseEventsMissing
    | DerivedDuplicate
    | NoteInvalid | AmountInvalid | CashInvalid | DerivedIdentityInvalid | PositionInvalid | TimeInvalid
    | CashCountInvalid | PositionCountInvalid | PositionSetInvalid | BatchInvalid

  /** The staged import: what its run claims, its events in row order, and the places of events whose
      stored row fingerprint is not a digest. */
  datatype Import = Import(sourceType: Token, validCount: Option<nat>, events: seq<Event>, undigested: set<nat>)

  /** The stable part of an import: its base rows, in no order. */
  datatype Source = Source(sourceType: Token, rows: multiset<Row>)

  datatype Projection = Projection(
    source: Source, baseCount: nat, derivedCount: nat, cashCount: nat, positionCount: nat,
    date: Option<int>, tag: Option<seq<Row>>, blockers: seq<LineageBlocker>)

  function BaseEvents(events: seq<Event>): seq<Event> {
    if events == [] then []
    else
      var last := events[|events| - 1];
      BaseEvents(events[..|events| - 1]) + if Derived(last.row.id) then [] else [last]
  }

  function DerivedEvents(events: seq<Event>): seq<Event> {
    if events == [] then []
    else
      var last := events[|events| - 1];
      DerivedEvents(events[..|events| - 1]) + if Derived(last.row.id) then [last] else []
  }

  function RowsOf(events: seq<Event>): (r: seq<Row>)
    ensures |r| == |events|
  {
    seq(|events|, i requires 0 <= i < |events| => events[i].row)
  }

  // ---------------------------------------------------------------- identities

  function Ids(events: seq<Event>): set<EventId> { set e | e in events && e.row.id != Plain(0) :: e.row.id }
  function Numbers(events: seq<Event>): set<nat> { set e | e in events && e.number > 0 :: e.number }

  /** What the first loop finds wrong with one event. */
  function EventBlockers(front: seq<Event>, e: Event, undigested: bool): seq<LineageBlocker> {
    When(e.row.id == Plain(0) || e.row.id in Ids(front), EventIdentityInvalid)
    + When(e.number == 0 || e.number in Numbers(front), RowIdentityInvalid)
    + When(undigested, RowFingerprintInvalid)
  }

  function IdentityBlockers(events: seq<Event>, undigested: set<nat>): seq<LineageBlocker> {
    if events == [] then []
    else
      var n := |events| - 1;
      IdentityBlockers(events[..n], undigested) + EventBlockers(events[..n], events[n], n in undigested)
  }

  lemma SplitStep(events: seq<Event>, undigested: set<nat>, i: nat)
    requires i < |events|
    ensures BaseEvents(events[..i + 1]) == BaseEvents(events[..i]) + (if Derived(events[i].row.id) then [] else [events[i]])
    ensures DerivedEvents(events[..i + 1])
            == DerivedEvents(events[..i]) + (if Derived(events[i].row.id) then [events[i]] else [])
    ensures IdentityBlockers(events[..i + 1], undigested)
            == IdentityBlockers(events[..i], undigested) + EventBlockers(events[..i], events[i], i in undigested)
  {
    assert events[..i + 1][..i] == events[..i] && events[..i + 1][i] == events[i];
  }

  lemma SeenStep(events: seq<Event>, i: nat)
    requires i < |events|
    ensures var front, e := events[..i], events[i];
            && Ids(events[..i + 1]) == Ids(front) + (if e.row.id == Plain(0) then {} else {e.row.id})
            && Numbers(events[..i + 1]) == Numbers(front) + (if e.number == 0 then {} else {e.number})
  {
  }

  /** One event against the ids and row numbers seen so far. */
  method CheckEvent(e: Event, undigested: bool, front: seq<Event>, eventIds: set<EventId>, rowNumbers: set<nat>)
    returns (blockers: seq<LineageBlocker>, ids: set<EventId>, numbers: set<nat>)
    requires eventIds == Ids(front) && rowNumbers == Numbers(front)
    ensures blockers == EventBlockers(front, e, undigested)
    ensures ids == eventIds + (if e.row.id == Plain(0) then {} else {e.row.id})
    ensures numbers == rowNumbers + (if e.number == 0 then {} else {e.number})
  {
    ids, numbers := eventIds, rowNumbers;
    blockers := When(e.row.id == Plain(0) || e.row.id in eventIds, EventIdentityInvalid);
    if e.row.id != Plain(0) && e.row.id !in eventIds {
      ids := ids + {e.row.id};
    }
    blockers := blockers + When(e.number == 0 || e.number in rowNumbers, RowIdentityInvalid);
    if e.number != 0 && e.number !in rowNumbers {
      numbers := numbers + {e.number};
    }
    blockers := blockers + When(undigested, RowFingerprintInvalid);
  }

  /** The first loop: it splits the events and keeps the ids and row numbers it has seen. */
  method SplitEvents(events: seq<Event>, undigested: set<nat>)
    returns (blockers: seq<LineageBlocker>, base: seq<Event>, derived: seq<Event>)
    ensures blockers == IdentityBlockers(events, undigested)
    ensures base == BaseEvents(events) && derived == DerivedEvents(events)
  {
    blockers, base, derived := [], [], [];
    var eventIds: set<EventId>, rowNumbers: set<nat> := {}, {};
    for i := 0 to |events|
      invariant blockers == IdentityBlockers(events[..i], undigested)
      invariant base == BaseEvents(events[..i]) && derived == DerivedEvents(events[..i])
      invariant eventIds == Ids(events[..i]) && rowNumbers == Numbers(events[..i])
    {
      SplitStep(events, undigested, i);
      SeenStep(events, i);
      var found;
      found, eventIds, rowNumbers := CheckEvent(events[i], i in undigested, events[..i], eventIds, rowNumbers);
      blockers := blockers + found;
      if Derived(events[i].row.id) {
        derived := derived + [events[i]];
      } else {
        base := base + [events[i]];
      }
    }
    assert events[..|events|] == events;
  }

  // ---------------------------------------------------------------- derived snapshots

  datatype Scan = Scan(
    blockers: seq<LineageBlocker>, dates: set<int>, tags: set<seq<Row>>, cash: nat, positions: nat,
    symbols: set<Token>)

  const START := Scan([], {}, {}, 0, 0, {})

  predicate ZeroAmounts(row: Row) {
    && row.finite && row.quantity == 0.0 && row.gross == 0.0 && row.fee == 0.0 && row.tax == 0.0
    && row.net == 0.0 && row.transferFee == 0.0
  }

  /** The seven facts a derived position repeats. */
  predicate SameFacts(a: Row, b: Row) {
    && a.instrument == b.instrument && a.assetClass == b.assetClass && a.currency == b.currency
    && a.price == b.price && a.position == b.position && a.cost == b.cost && a.costMethod == b.costMethod
  }

  predicate PositionHolds(latest: map<Token, Event>, seen: set<Token>, row: Row, symbolTag: Token) {
    && row.symbol != 0 && row.symbol !in seen && symbolTag == row.symbol
    && row.position.Some? && row.cost.Some?
    && row.symbol in latest && SameFacts(row, latest[row.symbol].row)
  }

  predicate AtCutoff(row: Row, instant: int, date: nat) {
    var shanghai := instant + SHANGHAI;
    shanghai / DAY == date && shanghai % DAY == CUTOFF && row.settledAt == DateOf(date, 0)
  }

  function TimeStep(s: Scan, row: Row, date: nat): Scan {
    if row.occurredAt.at.None? then s.(blockers := s.blockers + [TimeInvalid])
    else
      var instant := row.occurredAt.at.value;
      s.(blockers := s.blockers + When(!AtCutoff(row, instant, date), TimeInvalid),
         dates := s.dates + {(instant + SHANGHAI) / DAY})
  }

  function ScanStep(latest: map<Token, Event>, s: Scan, row: Row): Scan {
    var blockers := s.blockers + When(row.note != ROLL_NOTE, NoteInvalid) + When(!ZeroAmounts(row), AmountInvalid);
    if row.id.CashId? && row.kind.CashSnapshot? then
      TimeStep(Scan(blockers + When(row.cash.None?, CashInvalid), s.dates, s.tags + {row.id.source}, s.cash + 1,
                    s.positions, s.symbols), row, row.id.date)
    else if row.id.PositionId? && row.kind.PositionSnapshot? then
      TimeStep(Scan(blockers + When(!PositionHolds(latest, s.symbols, row, row.id.symbolTag), PositionInvalid),
                    s.dates, s.tags + {row.id.source}, s.cash, s.positions + 1, s.symbols + {row.symbol}),
               row, row.id.date)
    else s.(blockers := blockers + [DerivedIdentityInvalid])
  }

  function ScanAll(latest: map<Token, Event>, rows: seq<Row>): Scan {
    if rows == [] then START else ScanStep(latest, ScanAll(latest, rows[..|rows| - 1]), rows[|rows| - 1])
  }

  method ScanDerived(latest: map<Token, Event>, derived: seq<Event>) returns (s: Scan)
    ensures s == ScanAll(latest, RowsOf(derived))
  {
    s := START;
    for i := 0 to |derived|
      invariant s == ScanAll(latest, RowsOf(derived)[..i])
    {
      assert RowsOf(derived)[..i + 1][..i] == RowsOf(derived)[..i];
      s := ScanStep(latest, s, derived[i].row);
    }
    assert RowsOf(derived)[..|derived|] == RowsOf(derived);
  }

  /** The member of a set when there is exactly one. */
  ghost predicate IsOnly<T(!new)>(s: set<T>, x: T) { x in s && s == {x} }

  function Only<T(!new)>(s: set<T>): (r: Option<T>)
    ensures r.Some? <==> exists x :: IsOnly(s, x)
    ensures r.Some? ==> s == {r.value}
  {
    if |s| == 1 then
      var x :| x in s;
      SingleMember(s, x);
      assert IsOnly(s, x);
      Some(x)
    else
      assert forall x :: !IsOnly(s, x);
      None
  }

  lemma SingleMember<T>(s: set<T>, x: T)
    requires |s| == 1 && x in s
    ensures s == {x}
  {
    assert |s - {x}| == 0;
  }

  function DerivedBlockers(latest: map<Token, Event>, s: Scan): seq<LineageBlocker> {
    s.blockers
    + When(s.cash != 1, CashCountInvalid) + When(s.positions < 1, PositionCountInvalid)
    + When(s.symbols != latest.Keys, PositionSetInvalid)
    + When(Only(s.dates).None? || Only(s.tags).None?, BatchInvalid)
  }

  function Project(run: Import): Projection {
    var base, derived := BaseEvents(run.events), DerivedEvents(run.events);
    var latest := LatestBySymbol(InOrder(ByText, base));
    var s := ScanAll(latest, RowsOf(derived));
    var blockers :=
      When(run.validCount != Some(|run.events|), EventCountMismatch)
      + IdentityBlockers(run.events, run.undigested)
      + When(base == [], BaseEventsMissing)
      + When(exists e :: e in derived && e.duplicateOf.Some?, DerivedDuplicate)
      + if derived == [] then [] else DerivedBlockers(latest, s);
    Projection(Source(run.sourceType, multiset(RowsOf(base))), |base|, |derived|, s.cash, s.positions,
               Only(s.dates), Only(s.tags), Unique(blockers))
  }

  method ProjectLineage(run: Import) returns (p: Projection)
    ensures p == Project(run)
  {
    hide ScanAll, LatestBySymbol, InOrder, IdentityBlockers, BaseEvents, DerivedEvents, Unique;
    var identity, base, derived := SplitEvents(run.events, run.undigested);
    var latest := CollectLatest(InOrder(ByText, base));
    var s := ScanDerived(latest, derived);
    var blockers :=
      When(run.validCount != Some(|run.events|), EventCountMismatch)
      + identity
      + When(base == [], BaseEventsMissing)
      + When(exists e :: e in derived && e.duplicateOf.Some?, DerivedDuplicate)
      + if derived == [] then [] else DerivedBlockers(latest, s);
    p := Projection(Source(run.sourceType, multiset(RowsOf(base))), |base|, |derived|, s.cash, s.positions,
                    Only(s.dates), Only(s.tags), Unique(blockers));
  }

  /** `source_fact_lineages_match`: both pass, and the stable facts are the same. */
  predicate Match(current: Projection, reviewed: Projection, requireSnapshot: bool) {
    && current.blockers == [] && reviewed.blockers == []
    && current.source == reviewed.source && current.baseCount == reviewed.baseCount
    && (requireSnapshot ==> current.derivedCount > 0)
  }

  // ---------------------------------------------------------------- the events of a rolled file

  lemma {:induction false} PositionRowAt(source: seq<Row>, day: nat, symbols: seq<Token>, latest: map<Token, Event>, k: nat)
    requires (forall x :: x in symbols ==> x in latest) && k < |symbols|
    ensures PositionRows(source, day, symbols, latest)[k] == PositionRow(source, day, symbols[k], latest[symbols[k]].row)
  {
    if k < |symbols| - 1 {
      PositionRowAt(source, day, symbols[..|symbols| - 1], latest, k);
    }
  }

  /** Complete rows of accepted source events, one for each symbol. */
  predicate Complete(symbols: seq<Token>, latest: map<Token, Event>) {
    && Ascending(symbols) && symbols != []
    && forall x :: x in symbols ==>
         x in latest && x != 0 && Valid(latest[x].row) && !Incomplete(latest[x].row) && latest[x].row.symbol == x
  }

  lemma DerivedSetAt(source: seq<Row>, day: nat, currency: Token, balance: real, symbols: seq<Token>,
                     latest: map<Token, Event>, k: nat)
    requires Complete(symbols, latest) && k <= |symbols|
    ensures DerivedSet(source, day, currency, balance, symbols, latest)[k]
            == if k == 0 then CashRow(source, day, currency, balance)
               else PositionRow(source, day, symbols[k - 1], latest[symbols[k - 1]].row)
  {
    if k > 0 {
      PositionRowAt(source, day, symbols, latest, k - 1);
    }
  }

  lemma DerivedSetIsValid(source: seq<Row>, day: nat, currency: Token, balance: real, symbols: seq<Token>,
                          latest: map<Token, Event>, k: nat)
    requires Complete(symbols, latest) && k <= |symbols| && currency != 0
    ensures Valid(DerivedSet(source, day, currency, balance, symbols, latest)[k])
  {
    DerivedSetAt(source, day, currency, balance, symbols, latest, k);
    assert CutoffStamp(day).text >= 1.0;
  }

  lemma DerivedIdsDiffer(source: seq<Row>, day: nat, currency: Token, balance: real, symbols: seq<Token>,
                         latest: map<Token, Event>, j: nat, k: nat)
    requires Complete(symbols, latest) && j < k <= |symbols|
    ensures var rows := DerivedSet(source, day, currency, balance, symbols, latest);
            rows[j].id != rows[k].id && Derived(rows[j].id) && Derived(rows[k].id)
  {
    DerivedSetAt(source, day, currency, balance, symbols, latest, j);
    DerivedSetAt(source, day, currency, balance, symbols, latest, k);
  }

  predicate RowIdsDistinct(rows: seq<Row>) {
    forall i, j :: 0 <= i < j < |rows| ==> rows[i].id != rows[j].id
  }

  lemma DerivedSetIds(source: seq<Row>, day: nat, currency: Token, balance: real, symbols: seq<Token>,
                      latest: map<Token, Event>)
    requires Complete(symbols, latest)
    ensures var rows := DerivedSet(source, day, currency, balance, symbols, latest);
            RowIdsDistinct(rows) && forall k :: 0 <= k < |rows| ==> Derived(rows[k].id)
  {
    var rows := DerivedSet(source, day, currency, balance, symbols, latest);
    forall j, k | 0 <= j < k < |rows| ensures rows[j].id != rows[k].id {
      DerivedIdsDiffer(source, day, currency, balance, symbols, latest, j, k);
    }
    forall k | 0 <= k < |rows| ensures Derived(rows[k].id) {
      DerivedSetAt(source, day, currency, balance, symbols, latest, k);
    }
  }

  lemma AppendIds(base: seq<Row>, more: seq<Row>)
    requires RowIdsDistinct(base) && RowIdsDistinct(more)
    requires (forall k :: 0 <= k < |base| ==> !Derived(base[k].id))
             && (forall k :: 0 <= k < |more| ==> Derived(more[k].id))
    ensures RowIdsDistinct(base + more)
  {
  }

  // ---------------------------------------------------------------- accepted base rows

  /** What the roll-forward knows of the base rows it accepts. */
  predicate Settled(base: seq<Row>) {
    && AllValid(base) && Distinct(base) && RowIdsDistinct(base) && base != []
    && (forall k :: 0 <= k < |base| ==> !Derived(base[k].id) && base[k].occurredAt.at.Some?)
    && Anchor(InOrder(ByInstant, Clean(base))) >= 0
    && LatestBySymbol(InOrder(ByInstant, Clean(base))) != map[]
    && forall x :: x in LatestBySymbol(InOrder(ByInstant, Clean(base))) ==>
         !Incomplete(LatestBySymbol(InOrder(ByInstant, Clean(base)))[x].row)
  }

  lemma PreparedIsSettled(file: File, day: nat)
    requires Prepare(file, day).Ready?
    ensures Settled(Base(file.rows))
    ensures Prepare(file, day).output.rows == Base(file.rows) + Generated(Base(file.rows), day)
  {
    hide InOrder, LatestBySymbol, Anchor, Base;
    var base := Base(file.rows);
    BaseIsPlain(file.rows);
    PassMeansClean(base);
    forall i, j | 0 <= i < j < |base| ensures base[i].id != base[j].id {
      assert Clean(base)[i].row.id != Clean(base)[j].row.id;
    }
  }

  lemma SettledIsComplete(base: seq<Row>)
    requires Settled(base)
    ensures var events := InOrder(ByInstant, Clean(base));
            Complete(Symbols(events), LatestBySymbol(events)) && AnchorCurrency(events) != 0
  {
    var events := InOrder(ByInstant, Clean(base));
    var latest := LatestBySymbol(events);
    SymbolsAreKeys(events);
    OrderedEvents(base);
    var x :| x in latest;
    assert x in Symbols(events);
    forall x | x in Symbols(events)
      ensures x in latest && x != 0 && Valid(latest[x].row) && latest[x].row.symbol == x
    {
      LatestIsNewest(ByInstant, events, x);
      var i :| 0 <= i < |base| && base[i] == latest[x].row;
    }
    var anchor := events[Anchor(events)];
    assert anchor in events;
    var i :| 0 <= i < |base| && base[i] == anchor.row;
  }

  /** A rolled file parses without a blocker: every row is staged once, in order. */
  lemma OutputIsClean(base: seq<Row>, day: nat)
    requires Settled(base)
    ensures var rows := base + Generated(base, day);
            Statement.Parsed(rows).status == Pass && Statement.Parsed(rows).events == Clean(rows)
            && RowIdsDistinct(rows)
  {
    var events := InOrder(ByInstant, Clean(base));
    var more := Generated(base, day);
    SettledIsComplete(base);
    DerivedSetIds(base, day, AnchorCurrency(events), Balance(events), Symbols(events), LatestBySymbol(events));
    forall k | 0 <= k < |more| ensures Valid(more[k]) {
      DerivedSetIsValid(base, day, AnchorCurrency(events), Balance(events), Symbols(events), LatestBySymbol(events), k);
    }
    AppendIds(base, more);
    PassMeansClean(base + more);
  }

  // ---------------------------------------------------------------- scanning a derived set

  /** The newest row by instant and the newest row by text agree on the seven facts. */
  predicate Agrees(byText: map<Token, Event>, byInstant: map<Token, Event>, symbol: Token)
    requires symbol in byInstant
  {
    symbol in byText && SameFacts(byInstant[symbol].row, byText[symbol].row)
  }

  function Disagreements(byText: map<Token, Event>, byInstant: map<Token, Event>, symbols: seq<Token>)
    : seq<LineageBlocker>
    requires forall x :: x in symbols ==> x in byInstant
  {
    if symbols == [] then []
    else
      var symbol := symbols[|symbols| - 1];
      Disagreements(byText, byInstant, symbols[..|symbols| - 1])
      + When(!Agrees(byText, byInstant, symbol), PositionInvalid)
  }

  lemma {:induction false} NoDisagreement(byText: map<Token, Event>, byInstant: map<Token, Event>, symbols: seq<Token>)
    requires forall x :: x in symbols ==> x in byInstant
    ensures Disagreements(byText, byInstant, symbols) == []
            <==> forall x :: x in symbols ==> Agrees(byText, byInstant, x)
  {
    if symbols != [] {
      hide Agrees;
      NoDisagreement(byText, byInstant, symbols[..|symbols| - 1]);
      assert symbols == symbols[..|symbols| - 1] + [symbols[|symbols| - 1]];
    }
  }

  function SetOf(symbols: seq<Token>): set<Token> { set x | x in symbols }

  lemma CutoffHolds(row: Row, day: nat)
    requires row.settledAt == DateOf(day, 0)
    ensures AtCutoff(row, day * DAY + CUTOFF - SHANGHAI, day)
    ensures (day * DAY + CUTOFF - SHANGHAI + SHANGHAI) / DAY == day
  {
  }

  lemma ScanCash(byText: map<Token, Event>, source: seq<Row>, day: nat, currency: Token, balance: real)
    ensures ScanStep(byText, START, CashRow(source, day, currency, balance))
            == Scan([], {day as int}, {source}, 1, 0, {})
  {
    hide AtCutoff;
    CutoffHolds(CashRow(source, day, currency, balance), day);
  }

  /** The scan of a derived set after its cash row and some positions. */
  function ScanUpTo(byText: map<Token, Event>, latest: map<Token, Event>, source: seq<Row>, day: nat, symbols: seq<Token>)
    : Scan
    requires forall x :: x in symbols ==> x in latest
  {
    Scan(Disagreements(byText, latest, symbols), {day as int}, {source}, 1, |symbols|, SetOf(symbols))
  }

  lemma ScanNext(byText: map<Token, Event>, latest: map<Token, Event>, source: seq<Row>, day: nat, symbols: seq<Token>,
                 symbol: Token)
    requires Complete(symbols + [symbol], latest) && forall x :: x in symbols ==> x in latest
    ensures ScanStep(byText, ScanUpTo(byText, latest, source, day, symbols), PositionRow(source, day, symbol, latest[symbol].row))
            == ScanUpTo(byText, latest, source, day, symbols + [symbol])
  {
  }

  lemma CompletePrefix(symbols: seq<Token>, latest: map<Token, Event>, k: nat)
    requires Complete(symbols, latest) && 0 < k <= |symbols|
    ensures Complete(symbols[..k], latest)
  {
  }

  lemma ScanAllStep(byText: map<Token, Event>, rows: seq<Row>, k: nat)
    requires k < |rows|
    ensures ScanAll(byText, rows[..k + 1]) == ScanStep(byText, ScanAll(byText, rows[..k]), rows[k])
  {
    assert rows[..k + 1][..k] == rows[..k] && rows[..k + 1][k] == rows[k];
  }

  /** One more position row is scanned. */
  lemma ScanMore(byText: map<Token, Event>, rows: seq<Row>, latest: map<Token, Event>, source: seq<Row>, day: nat,
                 symbols: seq<Token>, k: nat)
    requires Complete(symbols, latest) && 0 < k <= |symbols| && k < |rows|
    requires rows[k] == PositionRow(source, day, symbols[k - 1], latest[symbols[k - 1]].row)
    requires ScanAll(byText, rows[..k]) == ScanUpTo(byText, latest, source, day, symbols[..k - 1])
    ensures ScanAll(byText, rows[..k + 1]) == ScanUpTo(byText, latest, source, day, symbols[..k])
  {
    ScanAllStep(byText, rows, k);
    assert symbols[..k] == symbols[..k - 1] + [symbols[k - 1]];
    CompletePrefix(symbols, latest, k);
    ScanNext(byText, latest, source, day, symbols[..k - 1], symbols[k - 1]);
  }

  lemma {:induction false} ScanOfDerivedSet(
      byText: map<Token, Event>, source: seq<Row>, day: nat, currency: Token, balance: real, symbols: seq<Token>,
      latest: map<Token, Event>, k: nat)
    requires Complete(symbols, latest) && k <= |symbols|
    ensures ScanAll(byText, DerivedSet(source, day, currency, balance, symbols, latest)[..k + 1])
            == ScanUpTo(byText, latest, source, day, symbols[..k])
  {
    var rows := DerivedSet(source, day, currency, balance, symbols, latest);
    DerivedSetAt(source, day, currency, balance, symbols, latest, k);
    if k == 0 {
      ScanAllStep(byText, rows, 0);
      assert rows[..0] == [];
      ScanCash(byText, source, day, currency, balance);
      assert SetOf(symbols[..0]) == {};
    } else {
      ScanOfDerivedSet(byText, source, day, currency, balance, symbols, latest, k - 1);
      ScanMore(byText, rows, latest, source, day, symbols, k);
    }
  }

  // ---------------------------------------------------------------- splitting a rolled file

  lemma {:induction false} CleanIdentity(rows: seq<Row>)
    requires AllValid(rows) && RowIdsDistinct(rows)
    ensures IdentityBlockers(Clean(rows), {}) == []
  {
    if rows != [] {
      var front, last := rows[..|rows| - 1], rows[|rows| - 1];
      CleanIdentity(front);
      assert Clean(rows)[..|front|] == Clean(front);
      assert last.id !in Ids(Clean(front));
      assert |rows| + 1 !in Numbers(Clean(front));
    }
  }

  lemma SplitNext(events: seq<Event>, e: Event)
    ensures BaseEvents(events + [e]) == BaseEvents(events) + if Derived(e.row.id) then [] else [e]
    ensures DerivedEvents(events + [e]) == DerivedEvents(events) + if Derived(e.row.id) then [e] else []
  {
    assert (events + [e])[..|events|] == events;
  }

  lemma {:induction false} SplitAppend(a: seq<Event>, b: seq<Event>)
    ensures BaseEvents(a + b) == BaseEvents(a) + BaseEvents(b)
    ensures DerivedEvents(a + b) == DerivedEvents(a) + DerivedEvents(b)
  {
    if b == [] {
      assert a + b == a;
    } else {
      hide BaseEvents, DerivedEvents;
      var front, last := b[..|b| - 1], b[|b| - 1];
      assert a + b == (a + front) + [last] && b == front + [last];
      SplitAppend(a, front);
      SplitNext(a + front, last);
      SplitNext(front, last);
    }
  }

  lemma {:induction false} OneKind(events: seq<Event>, derived: bool)
    requires forall k :: 0 <= k < |events| ==> Derived(events[k].row.id) == derived
    ensures BaseEvents(events) == if derived then [] else events
    ensures DerivedEvents(events) == if derived then events else []
  {
    if events != [] {
      OneKind(events[..|events| - 1], derived);
      assert events == events[..|events| - 1] + [events[|events| - 1]];
    }
  }

  lemma CleanAppend(base: seq<Row>, more: seq<Row>)
    ensures Clean(base + more) == Clean(base) + Clean(base + more)[|base|..]
    ensures RowsOf(Clean(base + more)[|base|..]) == more
  {
  }

  predicate Kinds(rows: seq<Row>, derived: bool) {
    forall k :: 0 <= k < |rows| ==> Derived(rows[k].id) == derived
  }

  lemma OneKindOfRows(events: seq<Event>, rows: seq<Row>, derived: bool)
    requires RowsOf(events) == rows && Kinds(rows, derived)
    ensures BaseEvents(events) == if derived then [] else events
    ensures DerivedEvents(events) == if derived then events else []
  {
    forall k | 0 <= k < |events| ensures Derived(events[k].row.id) == derived {
      assert RowsOf(events)[k] == events[k].row;
    }
    OneKind(events, derived);
  }

  lemma CleanSplits(base: seq<Row>, more: seq<Row>)
    requires Kinds(base, false) && Kinds(more, true)
    ensures BaseEvents(Clean(base + more)) == Clean(base)
    ensures DerivedEvents(Clean(base + more)) == Clean(base + more)[|base|..]
  {
    var tail := Clean(base + more)[|base|..];
    CleanAppend(base, more);
    assert RowsOf(Clean(base)) == base;
    SplitAppend(Clean(base), tail);
    OneKindOfRows(Clean(base), base, false);
    OneKindOfRows(tail, more, true);
  }

  // ---------------------------------------------------------------- the agreement

  function ByTextOf(base: seq<Row>): map<Token, Event> { LatestBySymbol(InOrder(ByText, Clean(base))) }
  function ByInstantOf(base: seq<Row>): map<Token, Event> { LatestBySymbol(InOrder(ByInstant, Clean(base))) }

  lemma SameKeys(base: seq<Row>)
    ensures ByTextOf(base).Keys == ByInstantOf(base).Keys
  {
    InOrderKeepsElements(ByText, Clean(base));
    InOrderKeepsElements(ByInstant, Clean(base));
    forall x ensures x in ByTextOf(base) <==> x in ByInstantOf(base) {
      LatestCoversSymbols(InOrder(ByText, Clean(base)), x);
      LatestCoversSymbols(InOrder(ByInstant, Clean(base)), x);
    }
  }

  /** Text order and instant order pick rows with the same facts, symbol by symbol. */
  predicate OrdersAgree(base: seq<Row>) {
    forall x :: x in ByInstantOf(base) ==> Agrees(ByTextOf(base), ByInstantOf(base), x)
  }

  /** The import a parsed and staged file makes. */
  function Staged(sourceType: Token, rows: seq<Row>): Import {
    var preview := Statement.Parsed(rows);
    Import(sourceType, Some(preview.validCount), preview.events, {})
  }

  /** The scan of a rolled file's derived rows. */
  lemma RolledScan(base: seq<Row>, day: nat)
    requires Settled(base)
    ensures var symbols := Symbols(InOrder(ByInstant, Clean(base)));
            (forall x :: x in symbols ==> x in ByInstantOf(base))
            && SetOf(symbols) == ByTextOf(base).Keys
            && ScanAll(ByTextOf(base), Generated(base, day))
               == ScanUpTo(ByTextOf(base), ByInstantOf(base), base, day, symbols)
  {
    hide InOrder, LatestBySymbol, Symbols, AnchorCurrency, Balance, Complete, ScanAll, Settled;
    var events := InOrder(ByInstant, Clean(base));
    var symbols := Symbols(events);
    SettledIsComplete(base);
    SymbolsAreKeys(events);
    SameKeys(base);
    ScanOfDerivedSet(ByTextOf(base), base, day, AnchorCurrency(events), Balance(events), symbols, ByInstantOf(base),
                     |symbols|);
    assert symbols[..|symbols|] == symbols;
    assert Generated(base, day)[..|symbols| + 1] == Generated(base, day);
  }

  /** Only disagreements are left of the final checks. */
  lemma FinalChecks(byText: map<Token, Event>, latest: map<Token, Event>, base: seq<Row>, day: nat, symbols: seq<Token>)
    requires (forall x :: x in symbols ==> x in latest) && symbols != [] && SetOf(symbols) == byText.Keys
    ensures DerivedBlockers(byText, ScanUpTo(byText, latest, base, day, symbols))
            == Disagreements(byText, latest, symbols)
    ensures Only(ScanUpTo(byText, latest, base, day, symbols).dates) == Some(day as int)
    ensures Only(ScanUpTo(byText, latest, base, day, symbols).tags) == Some(base)
  {
  }

  lemma RolledEvents(base: seq<Row>, day: nat, sourceType: Token)
    requires Settled(base)
    ensures var run := Staged(sourceType, base + Generated(base, day));
            && run.validCount == Some(|run.events|) && IdentityBlockers(run.events, run.undigested) == []
            && BaseEvents(run.events) == Clean(base) && RowsOf(DerivedEvents(run.events)) == Generated(base, day)
            && forall e :: e in DerivedEvents(run.events) ==> e.duplicateOf.None?
  {
    hide InOrder, LatestBySymbol, Symbols, AnchorCurrency, Balance, Complete, BaseEvents, DerivedEvents, IdentityBlockers,
         Distinct, AllValid;
    var events := InOrder(ByInstant, Clean(base));
    var rows := base + Generated(base, day);
    OutputIsClean(base, day);
    PassMeansClean(rows);
    SettledIsComplete(base);
    DerivedSetIds(base, day, AnchorCurrency(events), Balance(events), Symbols(events), LatestBySymbol(events));
    CleanIdentity(rows);
    CleanSplits(base, Generated(base, day));
    CleanAppend(base, Generated(base, day));
    assert forall e :: e in Clean(rows) ==> e.duplicateOf.None?;
    assert forall e :: e in Clean(rows)[|base|..] ==> e in Clean(rows);
  }

  lemma NothingElseObjects(run: Import, base: seq<Row>)
    requires run.validCount == Some(|run.events|) && IdentityBlockers(run.events, run.undigested) == [] && base != []
    requires BaseEvents(run.events) == Clean(base) && DerivedEvents(run.events) != []
    requires forall e :: e in DerivedEvents(run.events) ==> e.duplicateOf.None?
    ensures var s := ScanAll(ByTextOf(base), RowsOf(DerivedEvents(run.events)));
            Project(run) == Projection(
              Source(run.sourceType, multiset(base)), |base|, |DerivedEvents(run.events)|, s.cash, s.positions,
              Only(s.dates), Only(s.tags), Unique(DerivedBlockers(ByTextOf(base), s)))
  {
    hide ScanAll, DerivedBlockers, LatestBySymbol, InOrder, IdentityBlockers, Only, BaseEvents, DerivedEvents, Unique;
    assert RowsOf(Clean(base)) == base;
    var s := ScanAll(ByTextOf(base), RowsOf(DerivedEvents(run.events)));
    assert [] + [] + [] + [] + DerivedBlockers(ByTextOf(base), s) == DerivedBlockers(ByTextOf(base), s);
  }

  lemma LineageOfSettled(base: seq<Row>, day: nat, sourceType: Token)
    requires Settled(base)
    ensures var p := Project(Staged(sourceType, base + Generated(base, day)));
            var symbols := Symbols(InOrder(ByInstant, Clean(base)));
            && (forall x :: x in symbols ==> x in ByInstantOf(base))
            && p == Projection(Source(sourceType, multiset(base)), |base|, 1 + |symbols|, 1, |symbols|,
                               Some(day as int), Some(base), Unique(Disagreements(ByTextOf(base), ByInstantOf(base), symbols)))
  {
    var run := Staged(sourceType, base + Generated(base, day));
    var symbols := Symbols(InOrder(ByInstant, Clean(base)));
    RolledEvents(base, day, sourceType);
    assert |Generated(base, day)| == |DerivedEvents(run.events)|;
    RolledScan(base, day);
    SettledIsComplete(base);
    NothingElseObjects(run, base);
    FinalChecks(ByTextOf(base), ByInstantOf(base), base, day, symbols);
  }

  /** What the appended rows say: one cash row with the carried balance in the anchor's currency, then
      for each base symbol, ascending, one position row with the facts of its newest row. */
  predicate States(rows: seq<Row>, base: seq<Row>, day: nat) {
    var events, symbols := InOrder(ByInstant, Clean(base)), Symbols(InOrder(ByInstant, Clean(base)));
    && |rows| == |base| + 1 + |symbols| && rows[..|base|] == base
    && Anchor(events) >= 0
    && rows[|base|].id == CashId(day, base) && rows[|base|].kind.CashSnapshot?
    && rows[|base|].cash == Folded(events)
    && rows[|base|].currency == events[Anchor(events)].row.currency
    && Ascending(symbols) && SetOf(symbols) == ByInstantOf(base).Keys
    && forall k :: 0 <= k < |symbols| ==> StatesPosition(rows[|base| + 1 + k], base, day, symbols[k])
  }

  lemma RolledFileStates(file: File, day: nat)
    requires Prepare(file, day).Ready?
    ensures States(Prepare(file, day).output.rows, Base(file.rows), day)
  {
    PreparedIsSettled(file, day);
    RolledRowsState(Base(file.rows), day);
  }

  lemma RolledRowsState(base: seq<Row>, day: nat)
    requires Settled(base)
    ensures States(base + Generated(base, day), base, day)
  {
    var more := Generated(base, day);
    SymbolsAreKeys(InOrder(ByInstant, Clean(base)));
    CashStated(base, day);
    PositionsStated(base, day);
    assert (base + more)[..|base|] == base && (base + more)[|base|] == more[0];
  }

  lemma PositionsStated(base: seq<Row>, day: nat)
    requires Settled(base)
    ensures var symbols := Symbols(InOrder(ByInstant, Clean(base)));
            && |Generated(base, day)| == 1 + |symbols|
            && forall k :: 0 <= k < |symbols| ==>
                 StatesPosition((base + Generated(base, day))[|base| + 1 + k], base, day, symbols[k])
  {
    var symbols, more := Symbols(InOrder(ByInstant, Clean(base))), Generated(base, day);
    CashStated(base, day);
    forall k | 0 <= k < |symbols| ensures StatesPosition((base + more)[|base| + 1 + k], base, day, symbols[k]) {
      PositionStated(base, day, k);
      assert (base + more)[|base| + 1 + k] == more[k + 1];
    }
  }

  lemma CashStated(base: seq<Row>, day: nat)
    requires Settled(base)
    ensures var events, cash := InOrder(ByInstant, Clean(base)), Generated(base, day)[0];
            && cash.id == CashId(day, base) && cash.kind.CashSnapshot? && cash.cash == Folded(events)
            && cash.currency == events[Anchor(events)].row.currency
    ensures |Generated(base, day)| == 1 + |Symbols(InOrder(ByInstant, Clean(base)))|
  {
    var events := InOrder(ByInstant, Clean(base));
    SettledIsComplete(base);
    NoAnchorNoBalance(events);
    DerivedSetAt(base, day, AnchorCurrency(events), Balance(events), Symbols(events), ByInstantOf(base), 0);
  }

  lemma PositionStated(base: seq<Row>, day: nat, k: nat)
    requires Settled(base) && k < |Symbols(InOrder(ByInstant, Clean(base)))|
    ensures StatesPosition(Generated(base, day)[k + 1], base, day, Symbols(InOrder(ByInstant, Clean(base)))[k])
  {
    var events := InOrder(ByInstant, Clean(base));
    SettledIsComplete(base);
    DerivedSetAt(base, day, AnchorCurrency(events), Balance(events), Symbols(events), ByInstantOf(base), k + 1);
    assert Symbols(events)[k] in Symbols(events);
  }

  predicate StatesPosition(row: Row, base: seq<Row>, day: nat, symbol: Token) {
    && symbol in ByInstantOf(base) && row.id == PositionId(day, symbol, base) && row.kind.PositionSnapshot?
    && row.symbol == symbol && SameFacts(row, ByInstantOf(base)[symbol].row) && ZeroAmounts(row)
  }

  /** The independent check agrees with the roll-forward: a rolled file, parsed and staged, passes
      exactly when, for every symbol, the newest base row by text and the newest by instant carry the
      same facts.  It then shows one cash row, one position row for each base symbol, and the day. */
  lemma LineageOfRolledFile(file: File, day: nat, sourceType: Token)
    requires Prepare(file, day).Ready?
    ensures var base := Base(file.rows);
            var p := Project(Staged(sourceType, Prepare(file, day).output.rows));
            && (p.blockers == [] <==> OrdersAgree(base))
            && p.cashCount == 1 && p.positionCount == |Symbols(InOrder(ByInstant, Clean(base)))|
            && p.derivedCount == 1 + p.positionCount && p.baseCount == |base|
            && p.date == Some(day as int) && p.tag == Some(base)
            && p.source == Source(sourceType, multiset(base))
  {
    var base := Base(file.rows);
    PreparedIsSettled(file, day);
    LineageOfSettled(base, day, sourceType);
    SymbolsAreKeys(InOrder(ByInstant, Clean(base)));
    NoDisagreement(ByTextOf(base), ByInstantOf(base), Symbols(InOrder(ByInstant, Clean(base))));
  }
}
