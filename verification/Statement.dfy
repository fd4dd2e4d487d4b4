/** Canonical broker statement rows and the loop that parses them. */
module Statement {
  import opened LifecycleValues

  /** A time text: its place in the lexicographic order of texts, and the instant (microseconds since
      the year 1, UTC) it parses to when it is a timezone-aware ISO time.  `text` 0.0 is the empty
      text. */
  datatype Stamp = Stamp(text: real, at: Option<int>)

  const SECOND := 1000000
  const DAY := 86400 * SECOND

  /** Place of an offset among offsets as they are written: "+" sorts before "-". */
  function OffsetRank(offset: int): int { if offset >= 0 then offset else DAY - offset }

  /** A local time written in the one ISO format with its offset: texts compare by local time first,
      then by offset. */
  function Iso(local: nat, offset: int): Stamp {
    Stamp(1.0 + local as real + OffsetRank(offset) as real / (2 * DAY) as real, Some(local - offset))
  }

  datatype DateText = NoDate | DateOf(day: nat, rest: nat) | GarbledDate(token: nat)

  datatype Kind =
    | TradeBuy | TradeSell | Dividend | FeeEvent | TaxEvent | TransferIn | TransferOut
    | PositionSnapshot | CashSnapshot | OtherKind

  /** Event ids: a derived snapshot's id carries the prefix of the daily roll-forward, its date, and
      tags that are digests of the symbol and of the source rows.  `Plain(0)` is the empty id. */
  datatype EventId =
    | Plain(token: nat)
    | CashId(date: nat, source: seq<Row>)
    | PositionId(date: nat, symbolTag: Token, source: seq<Row>)
    | OtherPrefixed(token: nat)

  /** One row.  `finite` says that every decimal is finite; `decimalsGiven` and `orderIdsSafe` stand
      for the spelling checks on decimals and order ids. */
  datatype Row = Row(
    id: EventId, kind: Kind, occurredAt: Stamp, settledAt: DateText, symbol: Token, instrument: Token,
    assetClass: Token, currency: Token, quantity: real, price: real, gross: real, fee: real, tax: real,
    net: real, transferFee: real, cash: Option<real>, position: Option<real>, cost: Option<real>,
    costMethod: Token, note: Token, brokerOrderId: Token, clientOrderId: Token,
    finite: bool, decimalsGiven: bool, orderIdsSafe: bool)

  predicate Derived(id: EventId) { !id.Plain? }

  predicate NeedsSymbol(kind: Kind) {
    kind.TradeBuy? || kind.TradeSell? || kind.Dividend? || kind.PositionSnapshot?
  }

  predicate IsSnapshot(kind: Kind) { kind.CashSnapshot? || kind.PositionSnapshot? }

  /** The row has no validation error. */
  predicate Valid(row: Row) {
    && row.id != Plain(0) && !row.kind.OtherKind?
    && (NeedsSymbol(row.kind) ==> row.symbol != 0)
    && row.occurredAt.text != 0.0 && row.currency != 0
    && row.orderIdsSafe && row.decimalsGiven
  }

  // ---------------------------------------------------------------- parsing

  /** A staged event: the row, its number in the file (the first row is line 2), and the first equal
      row before it. */
  datatype Event = Event(number: nat, row: Row, duplicateOf: Option<nat>)

  datatype Status = Pass | Warning | Blocked

  datatype Preview = Preview(
    rowCount: nat, validCount: nat, invalidCount: nat, duplicateCount: nat, status: Status, events: seq<Event>)

  /** Line of the first row equal to `row`. */
  function FirstAt(rows: seq<Row>, row: Row): (r: Option<nat>)
    ensures r.None? <==> row !in rows
  {
    if rows == [] then None
    else
      var front := rows[..|rows| - 1];
      assert rows == front + [rows[|rows| - 1]];
      if FirstAt(front, row).Some? then FirstAt(front, row)
      else if rows[|rows| - 1] == row then Some(|rows| + 1)
      else None
  }

  function Events(rows: seq<Row>): (r: seq<Event>)
    ensures |r| <= |rows|
  {
    if rows == [] then []
    else
      var front, last := rows[..|rows| - 1], rows[|rows| - 1];
      Events(front) + if Valid(last) then [Event(|rows| + 1, last, FirstAt(front, last))] else []
  }

  function Duplicates(events: seq<Event>): nat {
    if events == [] then 0
    else Duplicates(events[..|events| - 1]) + if events[|events| - 1].duplicateOf.Some? then 1 else 0
  }

  function StatusOf(invalid: nat, duplicates: nat): Status {
    if invalid > 0 then Blocked else if duplicates > 0 then Warning else Pass
  }

  function Parsed(rows: seq<Row>): Preview {
    var events := Events(rows);
    Preview(|rows|, |events|, |rows| - |events|, Duplicates(events),
            StatusOf(|rows| - |events|, Duplicates(events)), events)
  }

  lemma FirstAtStep(rows: seq<Row>, i: nat, row: Row)
    requires i < |rows|
    ensures FirstAt(rows[..i + 1], row)
            == if FirstAt(rows[..i], row).Some? then FirstAt(rows[..i], row)
               else if rows[i] == row then Some(i + 2) else None
  {
    assert rows[..i + 1][..i] == rows[..i];
  }

  lemma EventsStep(rows: seq<Row>, i: nat)
    requires i < |rows|
    ensures Events(rows[..i + 1])
            == Events(rows[..i]) + if Valid(rows[i]) then [Event(i + 2, rows[i], FirstAt(rows[..i], rows[i]))] else []
  {
    hide Valid, FirstAt;
    assert rows[..i + 1][..i] == rows[..i];
  }

  /** The dictionary of the valid rows seen so far, each with the line it was first seen at. */
  ghost predicate Remembers(seen: map<Row, nat>, rows: seq<Row>) {
    forall row :: if row in seen then Valid(row) && FirstAt(rows, row) == Some(seen[row])
                  else !Valid(row) || FirstAt(rows, row).None?
  }

  lemma RemembersNext(seen: map<Row, nat>, rows: seq<Row>, i: nat)
    requires i < |rows| && Remembers(seen, rows[..i])
    ensures Remembers(if Valid(rows[i]) && rows[i] !in seen then seen[rows[i] := i + 2] else seen, rows[..i + 1])
  {
    hide Valid, FirstAt;
    var next := if Valid(rows[i]) && rows[i] !in seen then seen[rows[i] := i + 2] else seen;
    forall row
      ensures if row in next then Valid(row) && FirstAt(rows[..i + 1], row) == Some(next[row])
              else !Valid(row) || FirstAt(rows[..i + 1], row).None?
    {
      FirstAtStep(rows, i, row);
    }
  }

  lemma DuplicatesStep(events: seq<Event>, event: Event)
    ensures Duplicates(events + [event]) == Duplicates(events) + if event.duplicateOf.Some? then 1 else 0
  {
  }

  /** The loop of the source: rows seen so far by fingerprint, and three counters. */
  method ParseRows(rows: seq<Row>) returns (preview: Preview)
    ensures preview == Parsed(rows)
  {
    hide Valid;
    var events: seq<Event> := [];
    var seenRows: map<Row, nat> := map[];
    var duplicateCount, invalidCount := 0, 0;
    for i := 0 to |rows|
      invariant events == Events(rows[..i]) && duplicateCount == Duplicates(events)
      invariant invalidCount == i - |events|
      invariant Remembers(seenRows, rows[..i])
    {
      EventsStep(rows, i);
      RemembersNext(seenRows, rows, i);
      if !Valid(rows[i]) {
        invalidCount := invalidCount + 1;
      } else {
        var duplicateOf := if rows[i] in seenRows then Some(seenRows[rows[i]]) else None;
        if duplicateOf.Some? {
          duplicateCount := duplicateCount + 1;
        } else {
          seenRows := seenRows[rows[i] := i + 2];
        }
        DuplicatesStep(events, Event(i + 2, rows[i], duplicateOf));
        events := events + [Event(i + 2, rows[i], duplicateOf)];
      }
    }
    assert rows[..|rows|] == rows;
    preview := Preview(|rows|, |events|, invalidCount, duplicateCount, StatusOf(invalidCount, duplicateCount), events);
  }

  // ---------------------------------------------------------------- what the counts mean

  predicate Distinct(rows: seq<Row>) {
    forall i, j :: 0 <= i < j < |rows| ==> rows[i] != rows[j]
  }

  predicate AllValid(rows: seq<Row>) {
    forall i :: 0 <= i < |rows| ==> Valid(rows[i])
  }

  /** The event of each row of a clean file. */
  function Clean(rows: seq<Row>): seq<Event> {
    seq(|rows|, i requires 0 <= i < |rows| => Event(i + 2, rows[i], None))
  }

  lemma PassStep(front: seq<Row>, last: Row)
    ensures Parsed(front + [last]).status == Pass
            <==> Parsed(front).status == Pass && Valid(last) && last !in front
    ensures Parsed(front + [last]).status == Pass ==>
              Parsed(front + [last]).events == Parsed(front).events + [Event(|front| + 2, last, None)]
  {
    assert (front + [last])[..|front|] == front;
  }

  lemma CleanNext(front: seq<Row>, last: Row)
    ensures Clean(front + [last]) == Clean(front) + [Event(|front| + 2, last, None)]
  {
  }

  lemma CleanStep(front: seq<Row>, last: Row)
    ensures AllValid(front + [last]) && Distinct(front + [last])
            <==> AllValid(front) && Distinct(front) && Valid(last) && last !in front
  {
    var rows := front + [last];
    assert rows[|front|] == last && forall i :: 0 <= i < |front| ==> rows[i] == front[i];
  }

  /** A file passes exactly when every row is valid and no two are equal; each row is then staged once,
      in order. */
  lemma {:induction false} PassMeansClean(rows: seq<Row>)
    ensures Parsed(rows).status == Pass <==> AllValid(rows) && Distinct(rows)
    ensures Parsed(rows).status == Pass ==> Parsed(rows).events == Clean(rows)
  {
    if rows != [] {
      hide Valid, AllValid, Distinct, Parsed, Clean;
      var front, last := rows[..|rows| - 1], rows[|rows| - 1];
      assert rows == front + [last];
      PassMeansClean(front);
      PassStep(front, last);
      CleanStep(front, last);
      CleanNext(front, last);
    }
  }

  function ValidRows(rows: seq<Row>): set<Row> { set row | row in rows && Valid(row) }

  /** Every row is valid or counted invalid; every valid row is new or counted a duplicate. */
  lemma {:induction false} CountsBalance(rows: seq<Row>)
    ensures Parsed(rows).rowCount == Parsed(rows).validCount + Parsed(rows).invalidCount
    ensures Parsed(rows).validCount == |ValidRows(rows)| + Parsed(rows).duplicateCount
  {
    if rows == [] {
      assert ValidRows(rows) == {};
    } else {
      var front, last := rows[..|rows| - 1], rows[|rows| - 1];
      CountsBalance(front);
      assert rows == front + [last];
      if Valid(last) {
        DuplicatesStep(Events(front), Event(|rows| + 1, last, FirstAt(front, last)));
        assert ValidRows(rows) == ValidRows(front) + {last};
      } else {
        assert ValidRows(rows) == ValidRows(front) && Events(rows) == Events(front);
      }
    }
  }
}
