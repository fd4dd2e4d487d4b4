/** Reading lifecycle evidence back: the resolution of one order, and its two consumers. */
module Projection {
  import opened LifecycleValues
  import opened LifecyclePreviews
  import opened LifecycleStore
  import opened CollectorPreviews
  import opened Collector
  import opened CollectorInvariant
  import opened CollectorTheorems

  datatype Identity = Identity(venue: Venue, brokerOrderId: Token, clientOrderId: Token)

  datatype Resolution =
    | IdentityIncomplete
    | NotFound
    | EvidenceRefused(observation: Observation, health: Health)
    | IdentityConflict(observation: Observation, health: Health)
    | Found(observation: Observation, health: Health, order: Order, fills: seq<Fill>)

  predicate Complete(who: Identity) {
    who.venue.gateway != 0 && who.venue.accountAlias != 0 && who.brokerOrderId != 0 && who.clientOrderId != 0
  }

  /** Passed or blocked, a row that names the broker order or the client order. */
  predicate Names(row: Observation, who: Identity) {
    row.core.scope.venue == who.venue
    && (row.core.order.brokerOrderId == who.brokerOrderId || row.core.order.clientOrderId == who.clientOrderId)
  }

  /** ORDER BY captured_at DESC, id DESC LIMIT 1 over the rows that name the order. */
  function NewestNamed(rows: seq<Observation>, who: Identity): (r: Option<Observation>)
    ensures r.None? <==> forall row :: row in rows ==> !Names(row, who)
    ensures r.Some? ==> r.value in rows && Names(r.value, who)
                        && forall row :: row in rows && Names(row, who) ==>
                             row.core.capturedAt <= r.value.core.capturedAt
  {
    if rows == [] then None
    else
      var front, last := rows[..|rows| - 1], rows[|rows| - 1];
      var earlier := NewestNamed(front, who);
      assert rows == front + [last];
      if Names(last, who) && (earlier.None? || last.core.capturedAt >= earlier.value.core.capturedAt)
      then Some(last) else earlier
  }

  // ---------------------------------------------------------------- ORDER BY filled_at, id

  function PlaceFill(sorted: seq<Fill>, fill: Fill): seq<Fill> {
    if sorted == [] then [fill]
    else if sorted[|sorted| - 1].filledAt <= fill.filledAt then sorted + [fill]
    else PlaceFill(sorted[..|sorted| - 1], fill) + [sorted[|sorted| - 1]]
  }

  function ByTime(fills: seq<Fill>): seq<Fill> {
    if fills == [] then [] else PlaceFill(ByTime(fills[..|fills| - 1]), fills[|fills| - 1])
  }

  predicate InTime(fills: seq<Fill>) {
    forall j, k :: 0 <= j < k < |fills| ==> fills[j].filledAt <= fills[k].filledAt
  }

  lemma {:induction false} PlaceFillAdds(sorted: seq<Fill>, fill: Fill)
    ensures multiset(PlaceFill(sorted, fill)) == multiset(sorted) + multiset{fill}
  {
    if sorted != [] && sorted[|sorted| - 1].filledAt > fill.filledAt {
      PlaceFillAdds(sorted[..|sorted| - 1], fill);
      assert sorted == sorted[..|sorted| - 1] + [sorted[|sorted| - 1]];
    }
  }

  lemma {:induction false} PlaceFillTotals(sorted: seq<Fill>, fill: Fill)
    ensures FillTotal(PlaceFill(sorted, fill)) == FillTotal(sorted) + fill.quantity
  {
    if sorted != [] && sorted[|sorted| - 1].filledAt > fill.filledAt {
      var front, last := sorted[..|sorted| - 1], sorted[|sorted| - 1];
      PlaceFillTotals(front, fill);
      assert (PlaceFill(front, fill) + [last])[..|PlaceFill(front, fill)|] == PlaceFill(front, fill);
    } else if sorted != [] {
      assert (sorted + [fill])[..|sorted|] == sorted;
    }
  }

  lemma PlacedIsEarlier(front: seq<Fill>, last: Fill, fill: Fill)
    requires InTime(front + [last]) && last.filledAt > fill.filledAt
    ensures forall f :: f in PlaceFill(front, fill) ==> f.filledAt <= last.filledAt
  {
    PlaceFillAdds(front, fill);
    forall f | f in PlaceFill(front, fill) ensures f.filledAt <= last.filledAt {
      assert f in multiset(PlaceFill(front, fill));
      if f != fill {
        var j :| 0 <= j < |front| && front[j] == f;
        assert (front + [last])[j] == f && (front + [last])[|front|] == last;
      }
    }
  }

  lemma {:induction false} PlaceFillSorts(sorted: seq<Fill>, fill: Fill)
    requires InTime(sorted)
    ensures InTime(PlaceFill(sorted, fill))
  {
    if sorted != [] && sorted[|sorted| - 1].filledAt > fill.filledAt {
      var front, last := sorted[..|sorted| - 1], sorted[|sorted| - 1];
      PlaceFillSorts(front, fill);
      assert sorted == front + [last];
      PlacedIsEarlier(front, last, fill);
    }
  }

  lemma {:induction false} ByTimeSorts(fills: seq<Fill>)
    ensures InTime(ByTime(fills))
  {
    if fills != [] {
      ByTimeSorts(fills[..|fills| - 1]);
      PlaceFillSorts(ByTime(fills[..|fills| - 1]), fills[|fills| - 1]);
    }
  }

  lemma {:induction false} ByTimeKeeps(fills: seq<Fill>)
    ensures multiset(ByTime(fills)) == multiset(fills)
  {
    if fills != [] {
      var front, last := fills[..|fills| - 1], fills[|fills| - 1];
      ByTimeKeeps(front);
      PlaceFillAdds(ByTime(front), last);
      assert multiset(fills) == multiset(front) + multiset{last} by {
        assert fills == front + [last];
      }
    }
  }

  lemma {:induction false} ByTimeTotals(fills: seq<Fill>)
    ensures FillTotal(ByTime(fills)) == FillTotal(fills)
  {
    if fills != [] {
      ByTimeTotals(fills[..|fills| - 1]);
      PlaceFillTotals(ByTime(fills[..|fills| - 1]), fills[|fills| - 1]);
    }
  }

  // ---------------------------------------------------------------- resolution

  /** A passed row without its order fact is refused like a blocked one. */
  function Resolve(db: Database, who: Identity): Resolution {
    if !Complete(who) then IdentityIncomplete
    else
      var newest := NewestNamed(db.store.observations, who);
      if newest.None? then NotFound
      else
        var row := newest.value;
        var health := CollectorHealth(db, row.core);
        var order := FindOrder(db.store.orders, row.core);
        if !row.pass then EvidenceRefused(row, health)
        else if row.core.order.brokerOrderId != who.brokerOrderId
                || row.core.order.clientOrderId != who.clientOrderId then IdentityConflict(row, health)
        else if order.None? then EvidenceRefused(row, health)
        else Found(row, health, order.value, ByTime(FillsOf(db.store.fills, row.core)))
  }

  /** The collector has to be healthy only once some run of the scope exists. */
  predicate CollectorRefuses(health: Health) {
    !health.NotBound? && !health.Healthy?
  }

  // ---------------------------------------------------------------- the two consumers

  /** The controlled order of the order management system. */
  datatype Request = Request(symbol: Token, side: Side, quantity: real)

  datatype ClearanceBlocker = ClearanceEvidenceBlocked | CollectorUnhealthy | EvidenceMismatch

  function Clearance(request: Request, evidence: Resolution): seq<ClearanceBlocker> {
    match evidence
    case EvidenceRefused(_, _) => [ClearanceEvidenceBlocked]
    case IdentityConflict(_, _) => [ClearanceEvidenceBlocked]
    case Found(_, health, order, _) =>
      if CollectorRefuses(health) then [CollectorUnhealthy]
      else if !order.status.Filled? || order.symbol != request.symbol || order.side != request.side
              || Abs(order.orderQuantity) != Abs(request.quantity)
              || Abs(order.filledQuantity) != Abs(request.quantity)
              || Abs(order.cancelledQuantity) != 0.0 then [EvidenceMismatch]
      else []
    case _ => []
  }

  datatype OutcomeStatus = NotAvailable | OutcomeBlocked | Terminal | NonTerminal

  datatype OutcomeBlocker =
    | OutcomeEvidenceBlocked | OutcomeCollectorUnhealthy | SymbolMismatch | SideMismatch
    | QuantityMismatch | FillMismatch | CancelMismatch | FillSumDiffers

  datatype Outcome = Outcome(
    status: OutcomeStatus, terminal: Option<OrderStatus>, orderQuantity: real, filledQuantity: real,
    cancelledQuantity: real, fillCount: nat, blockers: seq<OutcomeBlocker>)

  function AbsTotal(fills: seq<Fill>): real {
    if fills == [] then 0.0 else AbsTotal(fills[..|fills| - 1]) + Abs(fills[|fills| - 1].quantity)
  }

  predicate TerminalStatus(status: OrderStatus) { status.Filled? || status.Cancelled? }

  /** What the outcome has to mean: a request met exactly, by an order that is over, whose fills add
      up. */
  predicate Settles(request: Request, health: Health, order: Order, fills: seq<Fill>) {
    var expected, filled, cancelled := Abs(request.quantity), Abs(order.filledQuantity), Abs(order.cancelledQuantity);
    && !CollectorRefuses(health)
    && order.symbol == request.symbol && order.side == request.side
    && expected > 0.0 && Abs(order.orderQuantity) == expected
    && (order.status.Filled? ==> filled == expected && cancelled == 0.0)
    && (order.status.Cancelled? ==> cancelled > 0.0 && filled + cancelled == expected)
    && AbsTotal(fills) == filled
  }

  /** Which check objects, in the order the source lists them. */
  function OutcomeBlockers(request: Request, health: Health, order: Order, fills: seq<Fill>): seq<OutcomeBlocker> {
    var expected, filled, cancelled := Abs(request.quantity), Abs(order.filledQuantity), Abs(order.cancelledQuantity);
    When(CollectorRefuses(health), OutcomeCollectorUnhealthy)
    + When(order.symbol != request.symbol, SymbolMismatch)
    + When(order.side != request.side, SideMismatch)
    + When(expected == 0.0 || Abs(order.orderQuantity) != expected, QuantityMismatch)
    + When(order.status.Filled? && (filled != expected || cancelled != 0.0), FillMismatch)
    + When(order.status.Cancelled? && (cancelled == 0.0 || filled + cancelled != expected), CancelMismatch)
    + When(AbsTotal(fills) != filled, FillSumDiffers)
  }

  /** No check objects exactly when the evidence settles the request. */
  lemma NothingObjectsMeansSettled(request: Request, health: Health, order: Order, fills: seq<Fill>)
    ensures OutcomeBlockers(request, health, order, fills) == [] <==> Settles(request, health, order, fills)
  {
  }

  method SumFills(fills: seq<Fill>) returns (total: real)
    ensures total == AbsTotal(fills)
  {
    total := 0.0;
    for i := 0 to |fills|
      invariant total == AbsTotal(fills[..i])
    {
      assert fills[..i + 1][..i] == fills[..i];
      total := total + Abs(fills[i].quantity);
    }
    assert fills[..|fills|] == fills;
  }

  /** The growing list of blockers. */
  method CheckOutcome(request: Request, health: Health, order: Order, fills: seq<Fill>)
    returns (blockers: seq<OutcomeBlocker>)
    ensures blockers == OutcomeBlockers(request, health, order, fills)
  {
    var expected, filled, cancelled := Abs(request.quantity), Abs(order.filledQuantity), Abs(order.cancelledQuantity);
    blockers := When(CollectorRefuses(health), OutcomeCollectorUnhealthy);
    blockers := blockers + When(order.symbol != request.symbol, SymbolMismatch);
    blockers := blockers + When(order.side != request.side, SideMismatch);
    blockers := blockers + When(expected == 0.0 || Abs(order.orderQuantity) != expected, QuantityMismatch);
    blockers := blockers + When(order.status.Filled? && (filled != expected || cancelled != 0.0), FillMismatch);
    blockers := blockers
      + When(order.status.Cancelled? && (cancelled == 0.0 || filled + cancelled != expected), CancelMismatch);
    var fillQuantity := SumFills(fills);
    blockers := blockers + When(fillQuantity != filled, FillSumDiffers);
  }

  /** The outcome of any resolution. */
  method TerminalOutcome(request: Request, evidence: Resolution) returns (outcome: Outcome)
    ensures outcome.status.NotAvailable? <==> evidence.NotFound? || evidence.IdentityIncomplete?
    ensures evidence.EvidenceRefused? || evidence.IdentityConflict? ==>
              outcome.status.OutcomeBlocked? && outcome.blockers == [OutcomeEvidenceBlocked]
    ensures evidence.Found? ==>
              var settled := Settles(request, evidence.health, evidence.order, evidence.fills);
              var order, over := evidence.order, TerminalStatus(evidence.order.status);
              && outcome.blockers == Unique(OutcomeBlockers(request, evidence.health, order, evidence.fills))
              && outcome.status == (if !settled then OutcomeBlocked else if over then Terminal else NonTerminal)
              && outcome.terminal == (if over then Some(order.status) else None)
              && outcome.orderQuantity == Abs(order.orderQuantity)
              && outcome.filledQuantity == Abs(order.filledQuantity)
              && outcome.cancelledQuantity == Abs(order.cancelledQuantity)
              && outcome.fillCount == |evidence.fills|
  {
    match evidence {
      case EvidenceRefused(_, _) => outcome := Outcome(OutcomeBlocked, None, 0.0, 0.0, 0.0, 0, [OutcomeEvidenceBlocked]);
      case IdentityConflict(_, _) => outcome := Outcome(OutcomeBlocked, None, 0.0, 0.0, 0.0, 0, [OutcomeEvidenceBlocked]);
      case Found(_, health, order, fills) =>
        var blockers := CheckOutcome(request, health, order, fills);
        NothingObjectsMeansSettled(request, health, order, fills);
        var terminal := if TerminalStatus(order.status) then Some(order.status) else None;
        outcome := Outcome(
          if blockers != [] then OutcomeBlocked else if terminal.Some? then Terminal else NonTerminal,
          terminal, Abs(order.orderQuantity), Abs(order.filledQuantity), Abs(order.cancelledQuantity),
          |fills|, Unique(blockers));
      case _ => outcome := Outcome(NotAvailable, None, 0.0, 0.0, 0.0, 0, []);
    }
  }

  /** On any evidence: the outcome is a terminal fill exactly when clearance has nothing to say, the
      request is not empty and the fills add up.  Clearance itself looks at neither. */
  lemma ClearanceAgainstOutcome(request: Request, evidence: Resolution)
    requires evidence.Found?
    ensures evidence.order.status.Filled? && Settles(request, evidence.health, evidence.order, evidence.fills)
            <==> Clearance(request, evidence) == []
                 && Abs(request.quantity) > 0.0
                 && AbsTotal(evidence.fills) == Abs(evidence.order.filledQuantity)
  {
  }

  // ---------------------------------------------------------------- passed evidence is consistent

  ghost predicate Traced(run: Run) {
    run.prepared.Some? ==> FromExport(run.prepared.value)
  }

  predicate TellsOneStory(rows: seq<Observation>) {
    forall i :: 0 <= i < |rows| && rows[i].pass ==>
      Consistent(rows[i].core.order, rows[i].core.fills, rows[i].core.capturedAt)
  }

  /** Every prepared preview came from the preview function, so every passed row is consistent. */
  ghost predicate Truthful(s: System) {
    && TellsOneStory(s.db.store.observations)
    && (forall i :: 0 <= i < |s.db.runs| ==> Traced(s.db.runs[i]))
    && (forall pid :: pid in s.commits && !s.commits[pid].Finished? ==> Traced(s.commits[pid].run))
  }

  lemma StoryAppend(rows: seq<Observation>, row: Observation)
    requires TellsOneStory(rows)
    requires row.pass ==> Consistent(row.core.order, row.core.fills, row.core.capturedAt)
    ensures TellsOneStory(rows + [row])
  {
  }

  lemma RecordRows(store: Store, p: LifecyclePreview)
    ensures Record(store, p).0.observations == store.observations
            || (Record(store, p).0.observations == store.observations + [NewRow(store, p)] && NewRow(store, p).core == p.core
                && (NewRow(store, p).pass ==> p.blockers == []))
  {
  }

  lemma RecordStaysTruthful(store: Store, p: LifecyclePreview)
    requires TellsOneStory(store.observations) && FromExport(p)
    ensures TellsOneStory(Record(store, p).0.observations)
  {
    RecordRows(store, p);
    if Record(store, p).0.observations != store.observations {
      if p.blockers == [] {
        PassingPreviewIsConsistent(p);
      }
      StoryAppend(store.observations, NewRow(store, p));
    }
  }

  lemma PreparedRunIsTraced(db: Database, p: CollectorPreview, release: seq<Blocker>)
    requires FromBatch(p) && PreviewIntact(p)
    ensures Traced(NewRun(db, p, release))
  {
    PreviewedBatchIsBound(p);
    if NewRun(db, p, release).status.Prepared? {
      PreparedMeansNoBlocker(db, p, release);
    }
  }

  lemma StepStaysTruthful(s: System, pid: nat, result: (Database, Commit))
    requires Truthful(s) && TellsOneStory(result.0.store.observations)
    requires result.1.Finished? || Traced(result.1.run)
    requires forall i :: 0 <= i < |result.0.runs| ==> Traced(result.0.runs[i])
    ensures Truthful(After(s, pid, result))
  {
  }

  lemma RecordStepTruthful(s: System, pid: nat)
    requires Truthful(s)
    ensures Truthful(After(s, pid, RecordEvidence(s.db, CommitOf(s, pid))))
  {
    hide TellsOneStory, FromExport, Record;
    var c := CommitOf(s, pid);
    if c.Cleared? && c.run.prepared.Some? {
      RecordStaysTruthful(s.db.store, c.run.prepared.value);
    }
    StepStaysTruthful(s, pid, RecordEvidence(s.db, c));
  }

  lemma AdvanceStepTruthful(s: System, pid: nat)
    requires Truthful(s)
    ensures Truthful(After(s, pid, AdvanceCursor(s.db, CommitOf(s, pid))))
  {
  }

  lemma FinalizeStepTruthful(s: System, pid: nat)
    requires Truthful(s)
    ensures Truthful(After(s, pid, FinalizeBlocked(s.db, CommitOf(s, pid))))
  {
  }

  lemma TruthfulWith(s: System, db: Database)
    requires Truthful(s) && db.store == s.db.store
    requires forall i :: 0 <= i < |db.runs| ==> Traced(db.runs[i])
    ensures Truthful(s.(db := db))
  {
  }

  lemma PrepareTruthful(s: System, p: CollectorPreview, release: seq<Blocker>)
    requires Truthful(s) && FromBatch(p)
    ensures Truthful(s.(db := PrepareRun(s.db, p, release).0))
  {
    hide PrepareRun, NewRun, Traced, TellsOneStory, FromBatch;
    var db := PrepareRun(s.db, p, release).0;
    PrepareAppendsOrStays(s.db, p, release);
    if db != s.db {
      PreparedRunIsTraced(s.db, p, release);
      forall i | 0 <= i < |db.runs| ensures Traced(db.runs[i]) {
        assert i < |s.db.runs| ==> db.runs[i] == s.db.runs[i];
      }
      TruthfulWith(s, db);
    }
  }

  lemma NextStaysTruthful(s: System, a: Action)
    requires Truthful(s) && Possible(a)
    ensures Truthful(Next(s, a))
  {
    hide PrepareRun, RecordEvidence, AdvanceCursor, FinalizeBlocked, TellsOneStory, FromExport, FromBatch, Record;
    match a {
      case Prepare(preview, release) => PrepareTruthful(s, preview, release);
      case ExternalRecord(evidence) => RecordStaysTruthful(s.db.store, evidence);
      case RecordStep(pid) => RecordStepTruthful(s, pid);
      case Begin(pid, runId) => StepStaysTruthful(s, pid, (s.db, OpenRun(s.db, runId)));
      case AdvanceStep(pid) => AdvanceStepTruthful(s, pid);
      case FinalizeStep(pid) => FinalizeStepTruthful(s, pid);
      case _ =>
    }
  }

  lemma {:induction false} EveryRunIsTruthful(actions: seq<Action>)
    requires AllPossible(actions)
    ensures Truthful(Play(INITIAL, actions))
  {
    if actions != [] {
      EveryRunIsTruthful(actions[..|actions| - 1]);
      NextStaysTruthful(Play(INITIAL, actions[..|actions| - 1]), actions[|actions| - 1]);
    }
  }

  // ---------------------------------------------------------------- constraints hold

  /** The trade ids of a row that passes are distinct. */
  lemma PassingTradesDiffer(store: Store, p: LifecyclePreview)
    requires FromExport(p) && NewRow(store, p).pass
    ensures DistinctTrades(p.core.fills)
  {
    hide PreviewExport, ExportCore, ExportBlockers, TransactionBlockers;
    assert p.blockers == [];
    PassingPreviewIsConsistent(p);
  }

  /** A preview the preview function made never violates the uniqueness of trade ids. */
  lemma ExportNeverViolates(store: Store, p: LifecyclePreview)
    requires FromExport(p)
    ensures !Record(store, p).1.ConstraintViolated?
  {
    hide FromExport, NewRow, DistinctTrades, Intact, Insert;
    if NewRow(store, p).pass {
      PassingTradesDiffer(store, p);
    }
  }

  lemma RecordingNeverStops(db: Database, c: Commit)
    requires c.Cleared? && Traced(c.run)
    ensures !RecordEvidence(db, c).1.Finished?
  {
    hide FromExport, Record;
    if c.run.prepared.Some? {
      ExportNeverViolates(db.store, c.run.prepared.value);
    }
  }

  lemma CommitIsTraced(s: System, pid: nat)
    requires Truthful(s) && !CommitOf(s, pid).Finished?
    ensures Traced(CommitOf(s, pid).run)
  {
    hide TellsOneStory, Traced;
  }

  /** Over every interleaving no constraint of the evidence tables is ever violated: neither an external
      record nor the recording step of a commit ends in a rolled-back transaction. */
  lemma ConstraintsHold(actions: seq<Action>, last: Action)
    requires AllPossible(actions) && Possible(last)
    ensures var s := Play(INITIAL, actions);
            && (last.ExternalRecord? ==> !Record(s.db.store, last.evidence).1.ConstraintViolated?)
            && (last.RecordStep? && CommitOf(s, last.pid).Cleared? ==>
                  !RecordEvidence(s.db, CommitOf(s, last.pid)).1.Finished?)
  {
    EveryRunIsTruthful(actions);
    hide Truthful, Traced, FromExport, Record, RecordEvidence, FromBatch, Play;
    var s := Play(INITIAL, actions);
    if last.ExternalRecord? {
      ExportNeverViolates(s.db.store, last.evidence);
    } else if last.RecordStep? && CommitOf(s, last.pid).Cleared? {
      CommitIsTraced(s, last.pid);
      RecordingNeverStops(s.db, CommitOf(s, last.pid));
    }
  }

  // ---------------------------------------------------------------- the consumers agree

  lemma {:induction false} PositiveFillsTotal(fills: seq<Fill>)
    requires forall k :: 0 <= k < |fills| ==> fills[k].quantity > 0.0
    ensures AbsTotal(fills) == FillTotal(fills)
  {
    if fills != [] {
      PositiveFillsTotal(fills[..|fills| - 1]);
    }
  }

  /** What a resolution that finds evidence hands over: the order and the fills of one consistent
      passed observation, none newer, the fills in time order. */
  lemma FoundEvidence(actions: seq<Action>, who: Identity)
    requires AllPossible(actions) && Resolve(Play(INITIAL, actions).db, who).Found?
    ensures var db := Play(INITIAL, actions).db;
            var found := Resolve(db, who);
            && found.observation in db.store.observations && found.observation.pass
            && (forall row :: row in db.store.observations && Names(row, who) ==>
                  row.core.capturedAt <= found.observation.core.capturedAt)
            && found.order == found.observation.core.order
            && found.order.brokerOrderId == who.brokerOrderId && found.order.clientOrderId == who.clientOrderId
            && multiset(found.fills) == multiset(found.observation.core.fills) && InTime(found.fills)
            && Consistent(found.order, found.observation.core.fills, found.observation.core.capturedAt)
            && AbsTotal(found.fills) == found.order.filledQuantity
  {
    EveryRunKeepsInv(actions);
    EveryRunIsTruthful(actions);
    var db := Play(INITIAL, actions).db;
    var found := Resolve(db, who);
    var core := found.observation.core;
    assert FillsOf(db.store.fills, core) == core.fills;
    ByTimeSorts(core.fills);
    ByTimeKeeps(core.fills);
    ByTimeTotals(core.fills);
    forall k | 0 <= k < |found.fills| ensures found.fills[k].quantity > 0.0 {
      assert found.fills[k] in multiset(found.fills);
      assert found.fills[k] in core.fills;
    }
    PositiveFillsTotal(found.fills);
  }

  /** Evidence as a passed observation gives it. */
  predicate Passed(found: Resolution) {
    && found.Found?
    && Consistent(found.order, found.observation.core.fills, found.observation.core.capturedAt)
    && AbsTotal(found.fills) == found.order.filledQuantity
  }

  lemma AgreeOnPassed(request: Request, found: Resolution)
    requires Passed(found)
    ensures var settled := Settles(request, found.health, found.order, found.fills);
            && (Clearance(request, found) == [] <==> found.order.status.Filled? && settled)
            && (settled && TerminalStatus(found.order.status) ==>
                  && found.order.filledQuantity + found.order.cancelledQuantity == found.order.orderQuantity
                  && found.order.orderQuantity == Abs(request.quantity)
                  && AbsTotal(found.fills) == found.order.filledQuantity)
  {
  }

  lemma ContractDecides(request: Request, found: Resolution)
    requires Passed(found) && TerminalStatus(found.order.status)
    ensures Settles(request, found.health, found.order, found.fills)
            <==> !CollectorRefuses(found.health)
                 && found.order.symbol == request.symbol && found.order.side == request.side
                 && found.order.orderQuantity == Abs(request.quantity)
  {
  }

  /** On evidence from a passed observation the two consumers agree: nothing blocks clearance exactly
      when the outcome is a terminal fill; and a terminal outcome accounts for the whole order. */
  lemma ConsumersAgree(actions: seq<Action>, who: Identity, request: Request)
    requires AllPossible(actions) && Resolve(Play(INITIAL, actions).db, who).Found?
    ensures var found := Resolve(Play(INITIAL, actions).db, who);
            var settled := Settles(request, found.health, found.order, found.fills);
            && (Clearance(request, found) == [] <==> found.order.status.Filled? && settled)
            && (settled && TerminalStatus(found.order.status) ==>
                  && found.order.filledQuantity + found.order.cancelledQuantity == found.order.orderQuantity
                  && found.order.orderQuantity == Abs(request.quantity)
                  && AbsTotal(found.fills) == found.order.filledQuantity)
  {
    FoundEvidence(actions, who);
    var found := Resolve(Play(INITIAL, actions).db, who);
    AgreeOnPassed(request, found);
  }

  /** Over consistent evidence the fill and cancel checks of the outcome never fire on their own: a
      terminal order settles exactly when the collector allows it and the contract matches. */
  lemma TerminalNeedsOnlyTheContract(actions: seq<Action>, who: Identity, request: Request)
    requires AllPossible(actions) && Resolve(Play(INITIAL, actions).db, who).Found?
    requires TerminalStatus(Resolve(Play(INITIAL, actions).db, who).order.status)
    ensures var found := Resolve(Play(INITIAL, actions).db, who);
            Settles(request, found.health, found.order, found.fills)
            <==> !CollectorRefuses(found.health)
                 && found.order.symbol == request.symbol && found.order.side == request.side
                 && found.order.orderQuantity == Abs(request.quantity)
  {
    FoundEvidence(actions, who);
    ContractDecides(request, Resolve(Play(INITIAL, actions).db, who));
  }

  /** Hand-made evidence on which the two disagree: cleared, yet the fills do not add up. */
  lemma ClearanceIgnoresFills()
    ensures exists request: Request, evidence: Resolution :: evidence.Found? && Clearance(request, evidence) == []
              && !Settles(request, evidence.health, evidence.order, evidence.fills)
  {
    var order := Order(1, 2, 3, Buy, Filled, 100.0, 100.0, 0.0, Some(1.0), 1, 2);
    var core := EvidenceCore(Scope(1, Venue(1, 1)), AccountRef(1, 1), 3, 1, order, [], 1);
    var evidence := Found(Observation(core, true, []), Healthy, order, []);
    var request := Request(3, Buy, 100.0);
    assert Clearance(request, evidence) == [];
  }
}
