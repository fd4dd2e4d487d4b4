/**
 The observation store: the transaction of `record` on the three evidence tables, and what every
 sequence of such transactions keeps.

 A table is a sequence in id order.  Rows of the observation table are never updated or deleted.
 */
module LifecycleStore {
  import opened LifecycleValues
  import opened LifecyclePreviews

  /** `pass` is the validation status; the observation id column is the fingerprint of `core`. */
  datatype Observation = Observation(core: EvidenceCore, pass: bool, blockers: seq<Blocker>)
  datatype OrderRow = OrderRow(observationId: EvidenceCore, order: Order)
  datatype FillRow = FillRow(observationId: EvidenceCore, fill: Fill)

  datatype Store = Store(observations: seq<Observation>, orders: seq<OrderRow>, fills: seq<FillRow>)

  const EMPTY_STORE := Store([], [], [])

  /** `Rejected` and `ConstraintViolated` leave the tables as they were: the first raises before the
      transaction, the second rolls it back. */
  datatype RecordOutcome =
    | RecordRefused(blockers: seq<Blocker>)
    | ConstraintViolated
    | Stored(row: Observation, reused: bool)

  // ---------------------------------------------------------------- queries

  function FindObservation(rows: seq<Observation>, id: EvidenceCore): (r: Option<Observation>)
    ensures r.Some? ==> r.value in rows && r.value.core == id
    ensures r.None? ==> forall row :: row in rows ==> row.core != id
  {
    if rows == [] then None
    else if rows[|rows| - 1].core == id then Some(rows[|rows| - 1])
    else FindObservation(rows[..|rows| - 1], id)
  }

  function FindOrder(rows: seq<OrderRow>, id: EvidenceCore): (r: Option<Order>)
    ensures r.Some? ==> OrderRow(id, r.value) in rows
    ensures r.None? ==> forall row :: row in rows ==> row.observationId != id
  {
    if rows == [] then None
    else if rows[|rows| - 1].observationId == id then Some(rows[|rows| - 1].order)
    else FindOrder(rows[..|rows| - 1], id)
  }

  function FillsOf(rows: seq<FillRow>, id: EvidenceCore): seq<Fill> {
    if rows == [] then []
    else
      FillsOf(rows[..|rows| - 1], id)
      + if rows[|rows| - 1].observationId == id then [rows[|rows| - 1].fill] else []
  }

  predicate PassedAt(row: Observation, venue: Venue) {
    row.pass && row.core.scope.venue == venue
  }

  /** Passed rows of a venue, ORDER BY captured_at DESC, id DESC LIMIT 1. */
  function LatestPassed(rows: seq<Observation>, venue: Venue): (r: Option<Observation>)
    ensures r.None? <==> forall row :: row in rows ==> !PassedAt(row, venue)
    ensures r.Some? ==> r.value in rows && PassedAt(r.value, venue)
                        && forall row :: row in rows && PassedAt(row, venue) ==>
                             row.core.capturedAt <= r.value.core.capturedAt
  {
    if rows == [] then None
    else
      var front, last := rows[..|rows| - 1], rows[|rows| - 1];
      var earlier := LatestPassed(front, venue);
      assert rows == front + [last];
      if PassedAt(last, venue)
         && (earlier.None? || last.core.capturedAt >= earlier.value.core.capturedAt)
      then Some(last) else earlier
  }

  predicate PassedIn(row: Observation, scope: Scope) {
    row.pass && row.core.scope == scope
  }

  /** SELECT MAX(source_sequence) over the passed rows of a scope, 0 when there is none. */
  function MaxSequence(rows: seq<Observation>, scope: Scope): (r: nat)
    ensures forall row :: row in rows && PassedIn(row, scope) ==> row.core.sequence <= r
    ensures r == 0 || exists row :: row in rows && PassedIn(row, scope) && row.core.sequence == r
  {
    if rows == [] then 0
    else
      var front, last := rows[..|rows| - 1], rows[|rows| - 1];
      var earlier := MaxSequence(front, scope);
      assert rows == front + [last];
      if PassedIn(last, scope) && last.core.sequence > earlier then last.core.sequence else earlier
  }

  /** A passed row of the scope that names the broker order or the client order, joined with its
      order fact. */
  predicate Matches(row: Observation, orders: seq<OrderRow>, scope: Scope, order: Order) {
    && PassedIn(row, scope)
    && FindOrder(orders, row.core).Some?
    && (row.core.order.brokerOrderId == order.brokerOrderId
        || row.core.order.clientOrderId == order.clientOrderId)
  }

  /** The matching rows, ORDER BY source_sequence DESC, id DESC LIMIT 1. */
  function NewestMatch(rows: seq<Observation>, orders: seq<OrderRow>, scope: Scope, order: Order)
    : (r: Option<Observation>)
    ensures r.None? <==> forall row :: row in rows ==> !Matches(row, orders, scope, order)
    ensures r.Some? ==> r.value in rows && Matches(r.value, orders, scope, order)
  {
    if rows == [] then None
    else
      var front, last := rows[..|rows| - 1], rows[|rows| - 1];
      var earlier := NewestMatch(front, orders, scope, order);
      assert rows == front + [last];
      if Matches(last, orders, scope, order)
         && (earlier.None? || last.core.sequence >= earlier.value.core.sequence)
      then Some(last) else earlier
  }

  // ---------------------------------------------------------------- the transaction

  predicate Intact(p: LifecyclePreview) {
    && p.contractsHold
    && p.evidenceFingerprint == p.core && p.observationId == p.core
    && p.validationPass == (p.blockers == []) && p.readyToRecord == (p.blockers == [])
  }

  function LatestBlockers(latest: Option<Observation>, core: EvidenceCore): seq<Blocker> {
    if latest.None? then []
    else
      var row := latest.value.core;
      When(row.scope.provider != core.scope.provider, ProviderChanged)
      + When(row.accountRef != core.accountRef, AccountIdentityChanged)
      + (if core.sequence < row.sequence then [SequenceRegressed]
         else When(core.sequence == row.sequence, SequenceConflict))
      + When(core.capturedAt <= row.capturedAt, CapturedAtNotMonotonic)
  }

  predicate SameContract(a: Order, b: Order) {
    a.symbol == b.symbol && a.side == b.side && a.orderQuantity == b.orderQuantity
  }

  predicate SameIdentity(a: Order, b: Order) {
    a.brokerOrderId == b.brokerOrderId && a.clientOrderId == b.clientOrderId
  }

  function MatchBlockers(matching: Option<Observation>, orders: seq<OrderRow>, order: Order): seq<Blocker>
    requires matching.Some? ==> FindOrder(orders, matching.value.core).Some?
  {
    if matching.None? then []
    else
      When(!SameIdentity(matching.value.core.order, order), OrderIdentityDrift)
      + When(!SameContract(FindOrder(orders, matching.value.core).value, order), OrderContractDrift)
  }

  function TransactionBlockers(store: Store, core: EvidenceCore): seq<Blocker> {
    LatestBlockers(LatestPassed(store.observations, core.scope.venue), core)
    + MatchBlockers(NewestMatch(store.observations, store.orders, core.scope, core.order),
                    store.orders, core.order)
  }

  function FillRows(core: EvidenceCore): seq<FillRow> {
    seq(|core.fills|, i requires 0 <= i < |core.fills| => FillRow(core, core.fills[i]))
  }

  function NewRow(store: Store, p: LifecyclePreview): Observation {
    var blockers := Unique(p.blockers + if p.blockers == [] then TransactionBlockers(store, p.core) else []);
    Observation(p.core, blockers == [], blockers)
  }

  function Insert(store: Store, row: Observation): Store {
    Store(store.observations + [row],
          store.orders + (if row.pass then [OrderRow(row.core, row.core.order)] else []),
          store.fills + (if row.pass then FillRows(row.core) else []))
  }

  /** One call of `record`, as one atomic step.  A second fill with one trade id violates
      UNIQUE(observation_id, broker_trade_id). */
  function Record(store: Store, p: LifecyclePreview): (Store, RecordOutcome) {
    if !Intact(p) then (store, RecordRefused([PreviewIntegrity]))
    else
      var existing := FindObservation(store.observations, p.core);
      if existing.Some? then (store, Stored(existing.value, true))
      else
        var row := NewRow(store, p);
        if row.pass && !DistinctTrades(p.core.fills) then (store, ConstraintViolated)
        else (Insert(store, row), Stored(row, false))
  }

  // ---------------------------------------------------------------- what every run keeps

  predicate DistinctIds(rows: seq<Observation>) {
    forall i, j :: 0 <= i < j < |rows| ==> rows[i].core != rows[j].core
  }

  /** Passed rows of one venue: sequence and capture time strictly increase, provider and account
      never change. */
  predicate Ordered(rows: seq<Observation>) {
    forall i, j :: 0 <= i < j < |rows| && rows[i].pass && rows[j].pass
                   && rows[i].core.scope.venue == rows[j].core.scope.venue ==>
      && rows[i].core.sequence < rows[j].core.sequence
      && rows[i].core.capturedAt < rows[j].core.capturedAt
      && rows[i].core.scope == rows[j].core.scope
      && rows[i].core.accountRef == rows[j].core.accountRef
  }

  /** Broker and client order ids are in one-to-one correspondence, and the pair determines symbol,
      side and quantity. */
  predicate Corresponds(a: Order, b: Order) {
    && (a.brokerOrderId == b.brokerOrderId <==> a.clientOrderId == b.clientOrderId)
    && (a.brokerOrderId == b.brokerOrderId ==> SameContract(a, b))
  }

  predicate OneToOne(rows: seq<Observation>) {
    forall i, j :: 0 <= i < |rows| && 0 <= j < |rows| && rows[i].pass && rows[j].pass
                   && rows[i].core.scope == rows[j].core.scope ==>
      Corresponds(rows[i].core.order, rows[j].core.order)
  }

  /** Every passed observation has its own order and fills; no fact belongs to anything else. */
  predicate FactsComplete(store: Store) {
    && (forall row :: row in store.observations && row.pass ==>
          && FindOrder(store.orders, row.core) == Some(row.core.order)
          && FillsOf(store.fills, row.core) == row.core.fills)
    && (forall o :: o in store.orders ==>
          exists row :: row in store.observations && row.core == o.observationId && row.pass)
    && (forall f :: f in store.fills ==>
          exists row :: row in store.observations && row.core == f.observationId && row.pass)
  }

  predicate Sound(store: Store) {
    DistinctIds(store.observations) && Ordered(store.observations)
    && OneToOne(store.observations) && FactsComplete(store)
  }

  // ---------------------------------------------------------------- lemmas on one step

  /** In an ordered table the row with the greatest capture time is the last passed row of the
      venue, so it also carries the greatest sequence. */
  lemma LatestDominates(rows: seq<Observation>, venue: Venue)
    requires Ordered(rows)
    ensures var latest := LatestPassed(rows, venue);
            latest.Some? ==> forall row :: row in rows && PassedAt(row, venue) ==>
              && row.core.sequence <= latest.value.core.sequence
              && row.core.scope == latest.value.core.scope
              && row.core.accountRef == latest.value.core.accountRef
              && (row != latest.value ==> row.core.sequence < latest.value.core.sequence
                                          && row.core.capturedAt < latest.value.core.capturedAt)
  {
    var latest := LatestPassed(rows, venue);
    if latest.Some? {
      var k :| 0 <= k < |rows| && rows[k] == latest.value;
      forall row | row in rows && PassedAt(row, venue)
        ensures row.core.sequence <= latest.value.core.sequence
                && row.core.scope == latest.value.core.scope
                && row.core.accountRef == latest.value.core.accountRef
                && (row != latest.value ==> row.core.sequence < latest.value.core.sequence
                                            && row.core.capturedAt < latest.value.core.capturedAt)
      {
        var i :| 0 <= i < |rows| && rows[i] == row;
        assert !(k < i);
      }
    }
  }

  /** The collector's MAX(source_sequence) and the store's latest row name the same observation. */
  lemma MaxIsLatest(rows: seq<Observation>, scope: Scope)
    requires Ordered(rows)
    ensures var latest := LatestPassed(rows, scope.venue);
            MaxSequence(rows, scope)
            == if latest.Some? && latest.value.core.scope == scope then latest.value.core.sequence else 0
  {
    LatestDominates(rows, scope.venue);
    var latest := LatestPassed(rows, scope.venue);
    var m := MaxSequence(rows, scope);
    if latest.Some? && latest.value.core.scope == scope {
      assert PassedIn(latest.value, scope);
      if m != 0 {
        var row :| row in rows && PassedIn(row, scope) && row.core.sequence == m;
        assert PassedAt(row, scope.venue);
      }
    } else {
      assert forall row :: row in rows && PassedIn(row, scope) ==> PassedAt(row, scope.venue);
    }
  }

  /** Comparing a new row with the newest matching row is enough: it then agrees with every older
      one. */
  lemma NewestMatchIsEnough(store: Store, core: EvidenceCore, row: Observation)
    requires Sound(store) && TransactionBlockers(store, core) == []
    requires row in store.observations && PassedIn(row, core.scope)
    ensures Corresponds(row.core.order, core.order)
  {
    var newest := NewestMatch(store.observations, store.orders, core.scope, core.order);
    assert MatchBlockers(newest, store.orders, core.order) == [];
    assert FindOrder(store.orders, row.core).Some?;
    if newest.None? {
      assert !Matches(row, store.orders, core.scope, core.order);
    } else {
      assert SameIdentity(newest.value.core.order, core.order)
             && SameContract(newest.value.core.order, core.order);
      var i :| 0 <= i < |store.observations| && store.observations[i] == row;
      var j :| 0 <= j < |store.observations| && store.observations[j] == newest.value;
      assert Corresponds(store.observations[i].core.order, store.observations[j].core.order);
    }
  }

  /** A row that passes comes after every passed row of its venue. */
  lemma NewRowComesLast(store: Store, core: EvidenceCore, row: Observation)
    requires Ordered(store.observations) && TransactionBlockers(store, core) == []
    requires row in store.observations && PassedAt(row, core.scope.venue)
    ensures row.core.sequence < core.sequence && row.core.capturedAt < core.capturedAt
    ensures row.core.scope == core.scope && row.core.accountRef == core.accountRef
  {
    LatestDominates(store.observations, core.scope.venue);
    var latest := LatestPassed(store.observations, core.scope.venue);
    assert LatestBlockers(latest, core) == [];
  }

  /** What a new row has to be to every passed row of its venue: later, of the same account and provider;
      and to every one of its scope: in correspondence. */
  predicate Follows(core: EvidenceCore, row: Observation) {
    && (PassedAt(row, core.scope.venue) ==>
          && row.core.sequence < core.sequence && row.core.capturedAt < core.capturedAt
          && row.core.scope == core.scope && row.core.accountRef == core.accountRef)
    && (PassedIn(row, core.scope) ==> Corresponds(row.core.order, core.order))
  }

  predicate FollowsAll(rows: seq<Observation>, core: EvidenceCore) {
    forall row :: row in rows ==> Follows(core, row)
  }

  lemma LatestFits(store: Store, core: EvidenceCore)
    requires Sound(store) && FollowsAll(store.observations, core)
    ensures LatestBlockers(LatestPassed(store.observations, core.scope.venue), core) == []
  {
    var latest := LatestPassed(store.observations, core.scope.venue);
    if latest.Some? {
      assert Follows(core, latest.value);
    }
  }

  lemma NewestMatchFits(store: Store, core: EvidenceCore)
    requires Sound(store) && FollowsAll(store.observations, core)
    ensures MatchBlockers(NewestMatch(store.observations, store.orders, core.scope, core.order), store.orders, core.order)
            == []
  {
    var newest := NewestMatch(store.observations, store.orders, core.scope, core.order);
    if newest.Some? {
      assert Follows(core, newest.value);
    }
  }

  /** The two rows the transaction looks at stand for all: it finds nothing exactly when the new row fits
      every stored one. */
  lemma NothingFoundIff(store: Store, core: EvidenceCore)
    requires Sound(store)
    ensures TransactionBlockers(store, core) == [] <==> FollowsAll(store.observations, core)
  {
    if TransactionBlockers(store, core) == [] {
      forall row | row in store.observations ensures Follows(core, row) {
        if PassedAt(row, core.scope.venue) {
          NewRowComesLast(store, core, row);
          NewestMatchIsEnough(store, core, row);
        }
      }
    }
    if FollowsAll(store.observations, core) {
      LatestFits(store, core);
      NewestMatchFits(store, core);
    }
  }

  lemma FindOrderAppend(rows: seq<OrderRow>, extra: OrderRow, id: EvidenceCore)
    ensures FindOrder(rows + [extra], id)
            == if extra.observationId == id then Some(extra.order) else FindOrder(rows, id)
  {
  }

  lemma {:induction false} FillsOfAppend(rows: seq<FillRow>, extra: seq<FillRow>, id: EvidenceCore)
    ensures FillsOf(rows + extra, id) == FillsOf(rows, id) + FillsOf(extra, id)
  {
    if extra == [] {
      assert rows + extra == rows;
    } else {
      FillsOfAppend(rows, extra[..|extra| - 1], id);
      assert (rows + extra)[..|rows + extra| - 1] == rows + extra[..|extra| - 1];
    }
  }

  lemma {:induction false} FillsOfOwnRows(rows: seq<FillRow>, fills: seq<Fill>, own: EvidenceCore, id: EvidenceCore)
    requires |rows| == |fills| && forall i :: 0 <= i < |rows| ==> rows[i] == FillRow(own, fills[i])
    ensures FillsOf(rows, id) == if id == own then fills else []
  {
    if rows != [] {
      FillsOfOwnRows(rows[..|rows| - 1], fills[..|fills| - 1], own, id);
      assert fills == fills[..|fills| - 1] + [fills[|fills| - 1]];
    }
  }

  lemma {:induction false} FillsOfAbsent(rows: seq<FillRow>, id: EvidenceCore)
    requires forall f :: f in rows ==> f.observationId != id
    ensures FillsOf(rows, id) == []
  {
    if rows != [] {
      FillsOfAbsent(rows[..|rows| - 1], id);
    }
  }

  lemma InsertedFacts(store: Store, row: Observation, r: Observation)
    requires FactsComplete(store) && FindObservation(store.observations, row.core).None?
    requires r.pass && (r in store.observations || r == row)
    ensures FindOrder(Insert(store, row).orders, r.core) == Some(r.core.order)
    ensures FillsOf(Insert(store, row).fills, r.core) == r.core.fills
  {
    var next := Insert(store, row);
    if row.pass {
      FindOrderAppend(store.orders, OrderRow(row.core, row.core.order), r.core);
      FillsOfAppend(store.fills, FillRows(row.core), r.core);
      FillsOfOwnRows(FillRows(row.core), row.core.fills, row.core, r.core);
      if r !in store.observations {
        FillsOfAbsent(store.fills, row.core);
      }
    } else {
      assert next.orders == store.orders && next.fills == store.fills;
    }
  }

  lemma InsertKeepsFacts(store: Store, row: Observation)
    requires FactsComplete(store) && FindObservation(store.observations, row.core).None?
    ensures FactsComplete(Insert(store, row))
  {
    var next := Insert(store, row);
    assert row in next.observations;
    assert forall r :: r in store.observations ==> r in next.observations;
    forall r | r in next.observations && r.pass
      ensures FindOrder(next.orders, r.core) == Some(r.core.order)
              && FillsOf(next.fills, r.core) == r.core.fills
    {
      InsertedFacts(store, row, r);
    }
    forall o | o in next.orders
      ensures exists r :: r in next.observations && r.core == o.observationId && r.pass
    {
      assert o in store.orders || (row.pass && o.observationId == row.core);
    }
    forall f | f in next.fills
      ensures exists r :: r in next.observations && r.core == f.observationId && r.pass
    {
      assert f in store.fills || (row.pass && f in FillRows(row.core));
    }
  }

  lemma AppendKeepsOrdered(rows: seq<Observation>, row: Observation)
    requires Ordered(rows)
    requires row.pass ==> forall r :: r in rows && PassedAt(r, row.core.scope.venue) ==>
               r.core.sequence < row.core.sequence && r.core.capturedAt < row.core.capturedAt
               && r.core.scope == row.core.scope && r.core.accountRef == row.core.accountRef
    ensures Ordered(rows + [row])
  {
  }

  lemma AppendKeepsOneToOne(rows: seq<Observation>, row: Observation)
    requires OneToOne(rows)
    requires row.pass ==> forall r :: r in rows && PassedIn(r, row.core.scope) ==>
                            Corresponds(r.core.order, row.core.order)
    ensures OneToOne(rows + [row])
  {
  }

  /** Every call of `record`, whatever preview it is given, keeps the store sound. */
  lemma RecordKeepsSound(store: Store, p: LifecyclePreview)
    requires Sound(store)
    ensures Sound(Record(store, p).0)
  {
    var next := Record(store, p).0;
    if next != store {
      var row := NewRow(store, p);
      InsertKeepsFacts(store, row);
      if row.pass {
        forall r | r in store.observations && PassedAt(r, p.core.scope.venue)
          ensures r.core.sequence < p.core.sequence && r.core.capturedAt < p.core.capturedAt
                  && r.core.scope == p.core.scope && r.core.accountRef == p.core.accountRef
        {
          NewRowComesLast(store, p.core, r);
        }
        forall r | r in store.observations && PassedIn(r, p.core.scope)
          ensures Corresponds(r.core.order, p.core.order)
        {
          NewestMatchIsEnough(store, p.core, r);
        }
      }
      AppendKeepsOrdered(store.observations, row);
      AppendKeepsOneToOne(store.observations, row);
    }
  }

  /** Replaying a stored preview changes nothing and answers with the stored row. */
  lemma RecordIsIdempotent(store: Store, p: LifecyclePreview)
    requires Record(store, p).1.Stored?
    ensures var (next, first) := Record(store, p);
            Record(next, p) == (next, Stored(first.row, true))
  {
  }

  // ---------------------------------------------------------------- whole runs

  function RecordAll(store: Store, previews: seq<LifecyclePreview>): Store {
    if previews == [] then store
    else Record(RecordAll(store, previews[..|previews| - 1]), previews[|previews| - 1]).0
  }

  /** Over any sequence of `record` calls: identities stay one-to-one, the contract stays a function
      of the identity, sequence and capture time increase, provider and account stay constant. */
  lemma {:induction false} EveryRunIsSound(previews: seq<LifecyclePreview>)
    ensures Sound(RecordAll(EMPTY_STORE, previews))
  {
    if previews != [] {
      EveryRunIsSound(previews[..|previews| - 1]);
      RecordKeepsSound(RecordAll(EMPTY_STORE, previews[..|previews| - 1]), previews[|previews| - 1]);
    }
  }
}
