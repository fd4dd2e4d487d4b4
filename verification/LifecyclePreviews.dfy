/** The preview of one exact-order export: normalisation, blockers, and the evidence core whose
    fingerprint names the observation. */
module LifecyclePreviews {
  import opened LifecycleValues

  /** A venue is what the observation store keys by; a scope is what a collector keys by. */
  datatype Venue = Venue(gateway: Token, accountAlias: Token)
  datatype Scope = Scope(provider: Token, venue: Venue)
  datatype AccountRef = NoAccount | AccountRef(account: Token, provider: Token)

  /** Everything that enters the evidence fingerprint.  An observation id is a fingerprint of that
      fingerprint, so the core itself stands for the id. */
  datatype EvidenceCore = EvidenceCore(
    scope: Scope, accountRef: AccountRef, capturedAt: Instant, sequence: nat,
    order: Order, fills: seq<Fill>, fileFingerprint: Token)

  /** What `record` receives.  The fingerprint and status fields are claims made by the caller,
      checked again before anything is stored; `contractsHold` stands for the schema versions and
      the constant safety flags. */
  datatype LifecyclePreview = LifecyclePreview(
    core: EvidenceCore, evidenceFingerprint: EvidenceCore, observationId: EvidenceCore,
    blockers: seq<Blocker>, validationPass: bool, readyToRecord: bool, contractsHold: bool)

  // ---------------------------------------------------------------- decoded input

  /** A text field after stripping, and whether it matches the identifier pattern. */
  datatype Text = Text(value: Token, wellFormed: bool)

  datatype RawOrder = RawOrder(
    brokerOrderId: Text, clientOrderId: Text, symbol: Text, side: Side, status: OrderStatus,
    orderQuantity: Option<real>, filledQuantity: Option<real>, cancelledQuantity: Option<real>,
    averagePrice: Option<Option<real>>, submittedAt: Instant, updatedAt: Instant)

  datatype RawFill = RawFill(
    tradeId: Text, brokerOrderId: Text, clientOrderId: Text, symbol: Text, side: Side,
    quantity: Option<real>, price: Option<real>, fee: Option<real>, tax: Option<real>,
    transferFee: Option<real>, netAmount: Option<real>, filledAt: Instant)

  /** One decoded export.  `contentBlockers` are those of decoding, unknown or sensitive fields and
      the schema version; a decimal is None when it is missing, unparsable or not finite. */
  datatype Export = Export(
    contentBlockers: seq<Blocker>, provider: Text, exactOrderKind: bool, gateway: Text,
    accountAlias: Text, account: Token, capturedAt: Instant, sequence: Option<nat>,
    order: Option<RawOrder>, fills: seq<RawFill>, fileFingerprint: Token)

  // ---------------------------------------------------------------- normalisation

  function NormalDecimal(raw: Option<real>): (r: real)
    ensures r >= 0.0
  {
    if raw.Some? && raw.value >= 0.0 then raw.value else 0.0
  }

  function DecimalBlockers(raw: Option<real>, field: nat): seq<Blocker> {
    When(raw.None? || raw.value < 0.0, FieldInvalid(field))
  }

  const MISSING_ORDER := RawOrder(
    Text(0, false), Text(0, false), Text(0, false), OtherSide, OtherStatus, None, None, None, None, 0, 0)

  function NormalOrder(raw: RawOrder): Order {
    Order(raw.brokerOrderId.value, raw.clientOrderId.value, raw.symbol.value, raw.side, raw.status,
          NormalDecimal(raw.orderQuantity), NormalDecimal(raw.filledQuantity),
          NormalDecimal(raw.cancelledQuantity),
          if raw.averagePrice.None? then None else Some(NormalDecimal(raw.averagePrice.value)),
          raw.submittedAt, raw.updatedAt)
  }

  function NormalOrderBlockers(raw: RawOrder): seq<Blocker> {
    When(!raw.brokerOrderId.wellFormed, FieldInvalid(1))
    + When(!raw.clientOrderId.wellFormed, FieldInvalid(2))
    + DecimalBlockers(raw.orderQuantity, 3) + DecimalBlockers(raw.filledQuantity, 4)
    + DecimalBlockers(raw.cancelledQuantity, 5)
    + (if raw.averagePrice.None? then [] else DecimalBlockers(raw.averagePrice.value, 6))
    + When(raw.submittedAt == 0, FieldInvalid(7)) + When(raw.updatedAt == 0, FieldInvalid(8))
    + When(!raw.symbol.wellFormed, FieldInvalid(9))
    + When(raw.side.OtherSide?, SideInvalid) + When(raw.status.OtherStatus?, StatusInvalid)
  }

  function NormalFill(raw: RawFill): Fill {
    Fill(raw.tradeId.value, raw.brokerOrderId.value, raw.clientOrderId.value, raw.symbol.value,
         raw.side, NormalDecimal(raw.quantity), NormalDecimal(raw.price), NormalDecimal(raw.fee),
         NormalDecimal(raw.tax), NormalDecimal(raw.transferFee),
         if raw.netAmount.Some? then raw.netAmount.value else 0.0, raw.filledAt)
  }

  function NormalFillBlockers(raw: RawFill): seq<Blocker> {
    When(!raw.tradeId.wellFormed, FieldInvalid(11))
    + When(!raw.brokerOrderId.wellFormed, FieldInvalid(12))
    + When(!raw.clientOrderId.wellFormed, FieldInvalid(13))
    + DecimalBlockers(raw.quantity, 14) + DecimalBlockers(raw.price, 15)
    + DecimalBlockers(raw.fee, 31) + DecimalBlockers(raw.tax, 32) + DecimalBlockers(raw.transferFee, 33)
    + When(raw.netAmount.None?, FieldInvalid(34))
    + When(raw.filledAt == 0, FieldInvalid(16)) + When(!raw.symbol.wellFormed, FieldInvalid(17))
    + When(raw.side.OtherSide?, SideInvalid)
  }

  function NormalFillsBlockers(raws: seq<RawFill>): seq<Blocker> {
    if raws == [] then [] else NormalFillBlockers(raws[0]) + NormalFillsBlockers(raws[1..])
  }

  // ---------------------------------------------------------------- the preview

  function ClampedAge(maxSnapshotAge: int): int {
    if maxSnapshotAge < 30 then 30 else if maxSnapshotAge > 3600 then 3600 else maxSnapshotAge
  }

  function AgeBlockers(capturedAt: Instant, observedAt: Instant, maxSnapshotAge: int): seq<Blocker> {
    if capturedAt == 0 then []
    else if observedAt - capturedAt < -5 then [SnapshotInFuture]
    else When(observedAt - capturedAt > ClampedAge(maxSnapshotAge), SnapshotStale)
  }

  function ExportCore(e: Export): EvidenceCore {
    EvidenceCore(
      Scope(e.provider.value, Venue(e.gateway.value, e.accountAlias.value)),
      if e.account == 0 then NoAccount else AccountRef(e.account, e.provider.value),
      e.capturedAt,
      if e.sequence.Some? then e.sequence.value else 0,
      NormalOrder(if e.order.Some? then e.order.value else MISSING_ORDER),
      seq(|e.fills|, i requires 0 <= i < |e.fills| => NormalFill(e.fills[i])),
      e.fileFingerprint)
  }

  function ExportBlockers(e: Export, observedAt: Instant, maxSnapshotAge: int): seq<Blocker> {
    var core := ExportCore(e);
    e.contentBlockers
    + When(e.capturedAt == 0, CapturedAtInvalid) + When(e.sequence.None?, SourceSequenceInvalid)
    + When(!e.provider.wellFormed, FieldInvalid(20)) + When(!e.exactOrderKind, SnapshotKindInvalid)
    + When(!e.gateway.wellFormed, FieldInvalid(21)) + When(!e.accountAlias.wellFormed, FieldInvalid(22))
    + When(e.account == 0, AccountIdMissing)
    + AgeBlockers(e.capturedAt, observedAt, maxSnapshotAge)
    + When(e.order.None?, ExactlyOneOrderRequired)
    + NormalOrderBlockers(if e.order.Some? then e.order.value else MISSING_ORDER)
    + NormalFillsBlockers(e.fills)
    + ValidationBlockers(core.order, core.fills, e.capturedAt)
  }

  function PreviewExport(e: Export, observedAt: Instant, maxSnapshotAge: int): LifecyclePreview {
    var core := ExportCore(e);
    var blockers := Unique(ExportBlockers(e, observedAt, maxSnapshotAge));
    LifecyclePreview(core, core, core, blockers, blockers == [], blockers == [], true)
  }

  /** Previews the preview function can produce. */
  ghost predicate FromExport(p: LifecyclePreview) {
    exists e, observedAt, maxSnapshotAge :: p == PreviewExport(e, observedAt, maxSnapshotAge)
  }

  /** A preview that carries no blocker tells a consistent story with a positive quantity. */
  lemma PassingPreviewIsConsistent(p: LifecyclePreview)
    requires FromExport(p) && p.blockers == []
    ensures Consistent(p.core.order, p.core.fills, p.core.capturedAt)
    ensures p.core.capturedAt != 0 && p.core.accountRef.AccountRef?
  {
    var e, observedAt, maxSnapshotAge :| p == PreviewExport(e, observedAt, maxSnapshotAge);
    assert ExportBlockers(e, observedAt, maxSnapshotAge) == [];
    ValidationSoundAndComplete(p.core.order, p.core.fills, e.capturedAt);
  }
}
