/**
 Values of the broker order-lifecycle evidence: orders, fills, the checks that decide whether
 an exported order and its fills are consistent, and the preview of one export.

 Identifiers and account references are only ever compared for equality, so they are numbers
 (0 is the empty string).  Decimals are exact.  Timestamps are normalised to UTC by the
 source before they are compared as text, so they are numbers too (0 is the empty string,
 which sorts before every timestamp).  A SHA-256 fingerprint is represented by the value that is
 hashed: equal fingerprints mean equal values.
 */
module LifecycleValues {

  datatype Option<+T> = None | Some(value: T)

  type Token = nat
  type Instant = nat

  datatype Side = Buy | Sell | OtherSide
  datatype OrderStatus =
    Submitted | Open | PartiallyFilled | Filled | Cancelled | Rejected | OtherStatus

  /** The reasons the source lists when it refuses evidence (one constructor per code). */
  datatype Blocker =
      // preview of one export
    | ContentInvalid(code: nat) | FieldInvalid(field: nat)
    | SnapshotKindInvalid | AccountIdMissing | CapturedAtInvalid | SourceSequenceInvalid
    | SnapshotInFuture | SnapshotStale | ExactlyOneOrderRequired
    | SideInvalid | StatusInvalid
      // consistency of an order and its fills
    | QuantityNotPositive | QuantitiesNegative | ComponentsExceedTotal
    | NonfillStatusHasQuantity | PartialFillInvalid | FilledInvalid | CancelledInvalid
    | OrderTimeRegressed | OrderUpdatedAfterCapture
    | TradeIdDuplicate | FillFieldMismatch(field: nat)
    | FillQuantityNotPositive | FillPriceNotPositive | FillBeforeSubmission | FillAfterUpdate
    | FillSumMismatch | AverageMissing | AverageMismatch | AverageWithoutFill
      // transaction checks of the observation store
    | ProviderChanged | AccountIdentityChanged | SequenceRegressed | SequenceConflict
    | CapturedAtNotMonotonic | OrderIdentityDrift | OrderContractDrift
    | PreviewIntegrity | RunIdConflict
      // collector batches
    | CursorNotConsecutive | CallbackCountsInvalid | LiveContactNotReadOnly | ReleaseNotReviewed
    | OfflineContactInvalid | OfflineConnectionInvalid | SourceContactUnknown
    | CallbackEventCountMismatch | CallbackTelemetryModeMismatch
    | Disconnected | LiveSourceNotConnected | PartialBatch | CompleteBatchEventCountInvalid
    | LifecycleMissing | LifecycleFieldMismatch(field: nat) | LifecycleAccountMismatch
      // collector transactions
    | ReleaseReview(code: nat) | ReleaseReviewBlocked | CollectorAccountChanged
    | CollectorFieldChanged(field: nat) | CursorEvidenceConflict | CursorOutOfOrder | CursorGap
    | CursorAlreadyPrepared | RecordRejected | EvidenceBlocked | CursorChangedDuringCommit

  /** `list(dict.fromkeys(items))`: first occurrences, in order. */
  function Unique<T(==,!new)>(items: seq<T>): (r: seq<T>)
    ensures forall x :: x in r <==> x in items
    ensures r == [] <==> items == []
  {
    if items == [] then []
    else
      var front := Unique(items[..|items| - 1]);
      var last := items[|items| - 1];
      assert items == items[..|items| - 1] + [last];
      if last in items[..|items| - 1] then front else front + [last]
  }

  datatype Order = Order(
    brokerOrderId: Token, clientOrderId: Token, symbol: Token, side: Side, status: OrderStatus,
    orderQuantity: real, filledQuantity: real, cancelledQuantity: real,
    averagePrice: Option<real>, submittedAt: Instant, updatedAt: Instant)

  datatype Fill = Fill(
    tradeId: Token, brokerOrderId: Token, clientOrderId: Token, symbol: Token, side: Side,
    quantity: real, price: real, fee: real, tax: real, transferFee: real, netAmount: real,
    filledAt: Instant)

  function Abs(x: real): (r: real)
    ensures r >= 0.0 && (r == x || r == -x)
  {
    if x < 0.0 then -x else x
  }

  function FillTotal(fills: seq<Fill>): real {
    if fills == [] then 0.0 else FillTotal(fills[..|fills| - 1]) + fills[|fills| - 1].quantity
  }

  function WeightedTotal(fills: seq<Fill>): real {
    if fills == [] then 0.0
    else WeightedTotal(fills[..|fills| - 1]) + fills[|fills| - 1].quantity * fills[|fills| - 1].price
  }

  predicate TradeIdSeen(fills: seq<Fill>, tradeId: Token) {
    exists k :: 0 <= k < |fills| && fills[k].tradeId == tradeId
  }

  const AVERAGE_TOLERANCE := 0.0001

  // ---------------------------------------------------------------- consistency, as meant

  predicate FillBelongs(order: Order, fill: Fill) {
    && fill.brokerOrderId == order.brokerOrderId
    && fill.clientOrderId == order.clientOrderId
    && fill.symbol == order.symbol
    && fill.side == order.side
    && fill.quantity > 0.0
    && fill.price > 0.0
    && order.submittedAt <= fill.filledAt <= order.updatedAt
  }

  predicate AllBelong(order: Order, fills: seq<Fill>) {
    forall k :: 0 <= k < |fills| ==> FillBelongs(order, fills[k])
  }

  predicate DistinctTrades(fills: seq<Fill>) {
    forall j, k :: 0 <= j < k < |fills| ==> fills[j].tradeId != fills[k].tradeId
  }

  predicate QuantitiesFitStatus(order: Order) {
    match order.status
    case Submitted | Open | Rejected => order.filledQuantity == 0.0 && order.cancelledQuantity == 0.0
    case PartiallyFilled =>
      0.0 < order.filledQuantity < order.orderQuantity && order.cancelledQuantity == 0.0
    case Filled => order.filledQuantity == order.orderQuantity && order.cancelledQuantity == 0.0
    case Cancelled =>
      order.cancelledQuantity > 0.0
      && order.filledQuantity + order.cancelledQuantity == order.orderQuantity
    case OtherStatus => true
  }

  predicate AverageFits(order: Order, fills: seq<Fill>) {
    if order.filledQuantity > 0.0 then
      && order.averagePrice.Some?
      && order.averagePrice.value > 0.0
      && (FillTotal(fills) > 0.0 ==>
            Abs(WeightedTotal(fills) / FillTotal(fills) - order.averagePrice.value) <= AVERAGE_TOLERANCE)
    else
      order.averagePrice.None?
  }

  predicate TimesFit(order: Order, capturedAt: Instant) {
    && (order.submittedAt != 0 && order.updatedAt != 0 ==> order.submittedAt <= order.updatedAt)
    && (order.updatedAt != 0 && capturedAt != 0 ==> order.updatedAt <= capturedAt)
  }

  /** What it means for an order and its fills to tell one consistent story. */
  predicate Consistent(order: Order, fills: seq<Fill>, capturedAt: Instant) {
    && order.orderQuantity > 0.0
    && order.filledQuantity >= 0.0
    && order.cancelledQuantity >= 0.0
    && order.filledQuantity + order.cancelledQuantity <= order.orderQuantity
    && QuantitiesFitStatus(order)
    && TimesFit(order, capturedAt)
    && AllBelong(order, fills)
    && DistinctTrades(fills)
    && FillTotal(fills) == order.filledQuantity
    && AverageFits(order, fills)
  }

  // ---------------------------------------------------------------- the checks, as coded

  /** The one-item list of a check that fires. */
  function When<T>(condition: bool, item: T): seq<T> {
    if condition then [item] else []
  }

  function OrderBlockers(order: Order, capturedAt: Instant): seq<Blocker> {
    var filled, cancelled, quantity := order.filledQuantity, order.cancelledQuantity, order.orderQuantity;
    When(quantity <= 0.0, QuantityNotPositive)
    + When(filled < 0.0 || cancelled < 0.0, QuantitiesNegative)
    + When(filled + cancelled > quantity, ComponentsExceedTotal)
    + When((order.status.Submitted? || order.status.Open? || order.status.Rejected?)
           && (filled != 0.0 || cancelled != 0.0), NonfillStatusHasQuantity)
    + When(order.status.PartiallyFilled? && !(0.0 < filled < quantity && cancelled == 0.0), PartialFillInvalid)
    + When(order.status.Filled? && !(filled == quantity && cancelled == 0.0), FilledInvalid)
    + When(order.status.Cancelled? && !(cancelled > 0.0 && filled + cancelled == quantity), CancelledInvalid)
    + When(order.submittedAt != 0 && order.updatedAt != 0 && order.submittedAt > order.updatedAt, OrderTimeRegressed)
    + When(order.updatedAt != 0 && capturedAt != 0 && order.updatedAt > capturedAt, OrderUpdatedAfterCapture)
  }

  function FillBlockers(order: Order, seen: bool, fill: Fill): seq<Blocker> {
    When(seen, TradeIdDuplicate)
    + When(fill.brokerOrderId != order.brokerOrderId, FillFieldMismatch(0))
    + When(fill.clientOrderId != order.clientOrderId, FillFieldMismatch(1))
    + When(fill.symbol != order.symbol, FillFieldMismatch(2))
    + When(fill.side != order.side, FillFieldMismatch(3))
    + When(fill.quantity <= 0.0, FillQuantityNotPositive)
    + When(fill.price <= 0.0, FillPriceNotPositive)
    + When(fill.filledAt < order.submittedAt, FillBeforeSubmission)
    + When(fill.filledAt > order.updatedAt, FillAfterUpdate)
  }

  function FillsBlockers(order: Order, fills: seq<Fill>): seq<Blocker> {
    if fills == [] then []
    else
      FillsBlockers(order, fills[..|fills| - 1])
      + FillBlockers(order, TradeIdSeen(fills[..|fills| - 1], fills[|fills| - 1].tradeId), fills[|fills| - 1])
  }

  function TotalBlockers(order: Order, fillTotal: real, weightedTotal: real): seq<Blocker> {
    When(fillTotal != order.filledQuantity, FillSumMismatch)
    + if order.filledQuantity > 0.0 then
        if order.averagePrice.None? || order.averagePrice.value <= 0.0 then [AverageMissing]
        else if fillTotal > 0.0 then
          When(Abs(weightedTotal / fillTotal - order.averagePrice.value) > AVERAGE_TOLERANCE, AverageMismatch)
        else []
      else When(order.averagePrice.Some?, AverageWithoutFill)
  }

  function ValidationBlockers(order: Order, fills: seq<Fill>, capturedAt: Instant): seq<Blocker> {
    OrderBlockers(order, capturedAt) + FillsBlockers(order, fills)
    + TotalBlockers(order, FillTotal(fills), WeightedTotal(fills))
  }

  lemma FillBlockersEmptyIff(order: Order, seen: bool, fill: Fill)
    ensures FillBlockers(order, seen, fill) == [] <==> !seen && FillBelongs(order, fill)
  {
  }

  lemma DistinctStep(front: seq<Fill>, last: Fill)
    ensures DistinctTrades(front + [last]) <==> DistinctTrades(front) && !TradeIdSeen(front, last.tradeId)
  {
    var fills := front + [last];
    assert fills[|front|] == last && forall k :: 0 <= k < |front| ==> fills[k] == front[k];
  }

  lemma BelongStep(order: Order, front: seq<Fill>, last: Fill)
    ensures AllBelong(order, front + [last]) <==> AllBelong(order, front) && FillBelongs(order, last)
  {
    var fills := front + [last];
    assert fills[|front|] == last && forall k :: 0 <= k < |front| ==> fills[k] == front[k];
  }

  lemma {:induction false} FillsBlockersEmptyIff(order: Order, fills: seq<Fill>)
    ensures FillsBlockers(order, fills) == [] <==> AllBelong(order, fills) && DistinctTrades(fills)
  {
    if fills != [] {
      var front, last := fills[..|fills| - 1], fills[|fills| - 1];
      assert fills == front + [last];
      FillsBlockersEmptyIff(order, front);
      FillBlockersEmptyIff(order, TradeIdSeen(front, last.tradeId), last);
      DistinctStep(front, last);
      BelongStep(order, front, last);
    }
  }

  /** The list of blockers is empty exactly on consistent evidence. */
  lemma ValidationSoundAndComplete(order: Order, fills: seq<Fill>, capturedAt: Instant)
    ensures ValidationBlockers(order, fills, capturedAt) == [] <==> Consistent(order, fills, capturedAt)
  {
    FillsBlockersEmptyIff(order, fills);
    OrderBlockersEmptyIff(order, capturedAt);
    TotalBlockersEmptyIff(order, fills);
  }

  lemma OrderBlockersEmptyIff(order: Order, capturedAt: Instant)
    ensures OrderBlockers(order, capturedAt) == [] <==>
            && order.orderQuantity > 0.0 && order.filledQuantity >= 0.0 && order.cancelledQuantity >= 0.0
            && order.filledQuantity + order.cancelledQuantity <= order.orderQuantity
            && QuantitiesFitStatus(order) && TimesFit(order, capturedAt)
  {
  }

  lemma TotalBlockersEmptyIff(order: Order, fills: seq<Fill>)
    ensures TotalBlockers(order, FillTotal(fills), WeightedTotal(fills)) == [] <==>
            FillTotal(fills) == order.filledQuantity && AverageFits(order, fills)
  {
  }

  lemma SeenStep(fills: seq<Fill>, i: nat)
    requires i < |fills|
    ensures forall t :: TradeIdSeen(fills[..i + 1], t) <==> TradeIdSeen(fills[..i], t) || t == fills[i].tradeId
  {
    forall t ensures TradeIdSeen(fills[..i + 1], t) <==> TradeIdSeen(fills[..i], t) || t == fills[i].tradeId {
      assert fills[..i + 1][i].tradeId == fills[i].tradeId;
      if k :| 0 <= k < i && fills[..i][k].tradeId == t {
        assert fills[..i + 1][k].tradeId == t;
      }
    }
  }

  lemma FillsStep(order: Order, fills: seq<Fill>, i: nat)
    requires i < |fills|
    ensures FillsBlockers(order, fills[..i + 1])
            == FillsBlockers(order, fills[..i])
               + FillBlockers(order, TradeIdSeen(fills[..i], fills[i].tradeId), fills[i])
    ensures FillTotal(fills[..i + 1]) == FillTotal(fills[..i]) + fills[i].quantity
    ensures WeightedTotal(fills[..i + 1]) == WeightedTotal(fills[..i]) + fills[i].quantity * fills[i].price
  {
    assert fills[..i + 1][..i] == fills[..i] && fills[..i + 1][i] == fills[i];
  }

  /** The loop of the source: it walks the fills once, keeping the trade ids it has seen and two
      running totals. */
  method CheckFills(order: Order, fills: seq<Fill>)
    returns (blockers: seq<Blocker>, fillTotal: real, weightedTotal: real)
    ensures blockers == FillsBlockers(order, fills)
    ensures fillTotal == FillTotal(fills) && weightedTotal == WeightedTotal(fills)
  {
    blockers, fillTotal, weightedTotal := [], 0.0, 0.0;
    var seenTradeIds: set<Token> := {};
    for i := 0 to |fills|
      invariant forall t :: t in seenTradeIds <==> TradeIdSeen(fills[..i], t)
      invariant fillTotal == FillTotal(fills[..i]) && weightedTotal == WeightedTotal(fills[..i])
      invariant blockers == FillsBlockers(order, fills[..i])
    {
      FillsStep(order, fills, i);
      SeenStep(fills, i);
      blockers := blockers + FillBlockers(order, fills[i].tradeId in seenTradeIds, fills[i]);
      seenTradeIds := seenTradeIds + {fills[i].tradeId};
      fillTotal := fillTotal + fills[i].quantity;
      weightedTotal := weightedTotal + fills[i].quantity * fills[i].price;
    }
    assert fills[..|fills|] == fills;
  }

  /** Appends to the caller's list; the list stays empty exactly on consistent evidence. */
  method ValidateOrderAndFills(order: Order, fills: seq<Fill>, capturedAt: Instant, blockers0: seq<Blocker>)
    returns (blockers: seq<Blocker>)
    ensures blockers == blockers0 + ValidationBlockers(order, fills, capturedAt)
    ensures blockers == [] <==> blockers0 == [] && Consistent(order, fills, capturedAt)
  {
    var fillsBlockers, fillTotal, weightedTotal := CheckFills(order, fills);
    blockers := blockers0
      + (OrderBlockers(order, capturedAt) + fillsBlockers + TotalBlockers(order, fillTotal, weightedTotal));
    ValidationSoundAndComplete(order, fills, capturedAt);
  }
}
