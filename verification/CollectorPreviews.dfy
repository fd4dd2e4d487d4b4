/** The preview of one collector batch: which runs may be prepared at all. */
module CollectorPreviews {
  import opened LifecycleValues
  import opened LifecyclePreviews

  datatype Deployment = Deployment(
    collectorId: Token, deploymentId: Token, version: Token, fingerprint: Token,
    releaseRef: Token, authorizationRef: Token)

  datatype Mode = Callback | Poll | Replay | Fixture | OtherMode
  datatype Contact = NotContacted | ReadOnlyContact | UnknownContact | OtherContact
  datatype Connection = Connected | NotConnected | NotApplicable | OtherConnection
  datatype BatchStatus = Complete | Partial | OtherBatch
  datatype ReleaseStatus = Unreviewed | Reviewed | OtherRelease

  datatype Runtime = Runtime(
    cursorPrevious: nat, cursorCurrent: nat, eventCount: nat, callbacks: nat, duplicates: nat,
    outOfOrder: nat, capturedAt: Instant)

  /** What enters the fingerprints.  The evidence fingerprint is that of the core, the batch
      fingerprint that of the core together with the run id. */
  datatype CollectorCore = CollectorCore(
    deployment: Deployment, releaseStatus: ReleaseStatus, scope: Scope, accountRef: AccountRef,
    mode: Mode, contact: Contact, connection: Connection, batch: BatchStatus, runtime: Runtime,
    lifecycle: Option<EvidenceCore>, blockers: seq<Blocker>)

  datatype CollectorPreview = CollectorPreview(
    runId: Token, core: CollectorCore, batchFingerprint: (Token, CollectorCore),
    evidenceFingerprint: CollectorCore, recordable: bool, prepared: Option<LifecyclePreview>,
    contractsHold: bool)

  // ---------------------------------------------------------------- decoded input

  /** A batch as decoded; `contentBlockers` are those of decoding, unknown fields and schema version. */
  datatype Batch = Batch(
    contentBlockers: seq<Blocker>, runId: Text, collectorId: Text, deploymentId: Text, version: Text,
    deploymentFingerprint: Text, releaseRef: Text, authorizationRef: Text, provider: Text,
    gateway: Text, accountAlias: Text, account: Token, releaseStatus: ReleaseStatus, mode: Mode,
    contact: Contact, connection: Connection, batch: BatchStatus, cursorPrevious: Option<int>,
    cursorCurrent: Option<int>, eventCount: Option<int>, callbacks: Option<int>,
    duplicates: Option<int>, outOfOrder: Option<int>, capturedAt: Instant,
    lifecycle: Option<Export>)

  function NormalCount(raw: Option<int>): nat {
    if raw.Some? && raw.value >= 0 then raw.value else 0
  }

  function CountBlockers(raw: Option<int>, field: nat): seq<Blocker> {
    When(raw.None? || raw.value < 0, FieldInvalid(field))
  }

  function BatchRuntime(b: Batch): Runtime {
    Runtime(NormalCount(b.cursorPrevious), NormalCount(b.cursorCurrent), NormalCount(b.eventCount),
            NormalCount(b.callbacks), NormalCount(b.duplicates), NormalCount(b.outOfOrder), b.capturedAt)
  }

  function BatchScope(b: Batch): Scope {
    Scope(b.provider.value, Venue(b.gateway.value, b.accountAlias.value))
  }

  function AccountRefOf(account: Token, provider: Token): AccountRef {
    if account == 0 then NoAccount else AccountRef(account, provider)
  }

  // The source hands one list from check to check; every function below takes the list found so
  // far and gives it back with its own findings at the end.

  function IdentityBlockers(b: Batch, found: seq<Blocker>): seq<Blocker> {
    found
    + When(!b.runId.wellFormed, FieldInvalid(40)) + When(!b.collectorId.wellFormed, FieldInvalid(41))
    + When(!b.deploymentId.wellFormed, FieldInvalid(42)) + When(!b.version.wellFormed, FieldInvalid(43))
    + When(!b.releaseRef.wellFormed, FieldInvalid(44))
    + When(!b.authorizationRef.wellFormed, FieldInvalid(45))
    + When(!b.provider.wellFormed, FieldInvalid(46)) + When(!b.gateway.wellFormed, FieldInvalid(47))
    + When(!b.accountAlias.wellFormed, FieldInvalid(48)) + When(b.account == 0, AccountIdMissing)
    + When(!b.deploymentFingerprint.wellFormed, FieldInvalid(49))
    + When(b.releaseStatus.OtherRelease?, FieldInvalid(50)) + When(b.mode.OtherMode?, FieldInvalid(51))
    + When(b.contact.OtherContact?, FieldInvalid(52))
    + When(b.connection.OtherConnection?, FieldInvalid(53)) + When(b.batch.OtherBatch?, FieldInvalid(54))
  }

  function TelemetryBlockers(b: Batch, found: seq<Blocker>): seq<Blocker> {
    var r := BatchRuntime(b);
    found
    + CountBlockers(b.cursorPrevious, 55) + CountBlockers(b.cursorCurrent, 56)
    + When(r.cursorCurrent <= 0 || r.cursorCurrent != r.cursorPrevious + 1, CursorNotConsecutive)
    + CountBlockers(b.eventCount, 57) + CountBlockers(b.callbacks, 58)
    + CountBlockers(b.duplicates, 59) + CountBlockers(b.outOfOrder, 60)
    + When(r.duplicates + r.outOfOrder > r.callbacks, CallbackCountsInvalid)
    + When(b.capturedAt == 0, CapturedAtInvalid)
  }

  /** Blockers that forbid persisting the batch at all. */
  function RecordBlockers(b: Batch): seq<Blocker> {
    TelemetryBlockers(b, IdentityBlockers(b, b.contentBlockers))
  }

  predicate Live(b: Batch) { b.mode.Callback? || b.mode.Poll? }

  predicate Offline(b: Batch) { b.mode.Replay? || b.mode.Fixture? }

  function SourceAndCallbackBlockers(b: Batch, r: Runtime, found: seq<Blocker>): seq<Blocker> {
    found
    + When(Live(b) && !b.contact.ReadOnlyContact?, LiveContactNotReadOnly)
    + When(Live(b) && !b.releaseStatus.Reviewed?, ReleaseNotReviewed)
    + When(Offline(b) && !b.contact.NotContacted?, OfflineContactInvalid)
    + When(Offline(b) && !b.connection.NotApplicable?, OfflineConnectionInvalid)
    + When(b.contact.UnknownContact?, SourceContactUnknown)
    + When(b.mode.Callback? && r.eventCount != r.callbacks - r.duplicates - r.outOfOrder,
           CallbackEventCountMismatch)
    + When(!b.mode.Callback? && (r.callbacks != 0 || r.duplicates != 0 || r.outOfOrder != 0),
           CallbackTelemetryModeMismatch)
  }

  function ConnectionAndBatchBlockers(b: Batch, r: Runtime, found: seq<Blocker>): seq<Blocker> {
    found
    + When(b.connection.NotConnected?, Disconnected)
    + When(Live(b) && !b.connection.Connected?, LiveSourceNotConnected)
    + When(b.batch.Partial?, PartialBatch)
    + When(b.batch.Complete? && r.eventCount != 1, CompleteBatchEventCountInvalid)
  }

  /** Blockers that are persisted with the run and keep it from being prepared. */
  function RuntimeBlockers(b: Batch): seq<Blocker> {
    var r := BatchRuntime(b);
    ConnectionAndBatchBlockers(b, r, SourceAndCallbackBlockers(b, r, []))
  }

  function LifecycleBindingBlockers(b: Batch, p: LifecyclePreview, found: seq<Blocker>): seq<Blocker> {
    found
    + When(p.core.scope.provider != b.provider.value, LifecycleFieldMismatch(0))
    + When(p.core.scope.venue.gateway != b.gateway.value, LifecycleFieldMismatch(1))
    + When(p.core.scope.venue.accountAlias != b.accountAlias.value, LifecycleFieldMismatch(2))
    + When(p.core.capturedAt != b.capturedAt, LifecycleFieldMismatch(3))
    + When(p.core.sequence != BatchRuntime(b).cursorCurrent, LifecycleFieldMismatch(4))
    + When(p.core.accountRef != AccountRefOf(b.account, b.provider.value), LifecycleAccountMismatch)
    + p.blockers
  }

  function LifecycleOf(b: Batch, observedAt: Instant, maxSnapshotAge: int): Option<LifecyclePreview> {
    if b.lifecycle.None? then None else Some(PreviewExport(b.lifecycle.value, observedAt, maxSnapshotAge))
  }

  function LifecycleBlockers(b: Batch, lifecycle: Option<LifecyclePreview>, found: seq<Blocker>): seq<Blocker> {
    if lifecycle.None? then found + When(b.batch.Complete?, LifecycleMissing)
    else LifecycleBindingBlockers(b, lifecycle.value, found)
  }

  function Core(b: Batch, lifecycle: Option<LifecyclePreview>, blockers: seq<Blocker>): CollectorCore {
    CollectorCore(
      Deployment(b.collectorId.value, b.deploymentId.value, b.version.value,
                 b.deploymentFingerprint.value, b.releaseRef.value, b.authorizationRef.value),
      b.releaseStatus, BatchScope(b), EffectiveAccount(b, lifecycle), b.mode, b.contact, b.connection,
      b.batch, BatchRuntime(b), if lifecycle.None? then None else Some(lifecycle.value.core), blockers)
  }

  function EffectiveAccount(b: Batch, lifecycle: Option<LifecyclePreview>): AccountRef {
    if lifecycle.Some? && lifecycle.value.core.accountRef.AccountRef? then lifecycle.value.core.accountRef
    else AccountRefOf(b.account, b.provider.value)
  }

  function PreviewBatch(b: Batch, observedAt: Instant, maxSnapshotAge: int): CollectorPreview {
    var lifecycle := LifecycleOf(b, observedAt, maxSnapshotAge);
    var record := RecordBlockers(b);
    var core := Core(b, lifecycle, Unique(record + LifecycleBlockers(b, lifecycle, RuntimeBlockers(b))));
    CollectorPreview(
      b.runId.value, core, (b.runId.value, core), core,
      record == [] && core.accountRef.AccountRef?, lifecycle, true)
  }

  ghost predicate FromBatch(p: CollectorPreview) {
    exists b, observedAt, maxSnapshotAge :: p == PreviewBatch(b, observedAt, maxSnapshotAge)
  }

  /** What the store relies on but does not check again: cursors are consecutive, and a batch
      without blockers carries evidence of its own scope whose sequence is the cursor. */
  predicate Bound(core: CollectorCore, prepared: Option<LifecyclePreview>) {
    && prepared.Some?
    && prepared.value.core.scope == core.scope
    && prepared.value.core.sequence == core.runtime.cursorCurrent
  }

  predicate Consecutive(core: CollectorCore) {
    core.runtime.cursorCurrent == core.runtime.cursorPrevious + 1
  }

  // ---------------------------------------------------------------- what a ready batch is

  /** Every id is well formed, an account is given, and every status is a known one. */
  predicate IdentityFits(b: Batch) {
    && b.runId.wellFormed && b.collectorId.wellFormed && b.deploymentId.wellFormed && b.version.wellFormed
    && b.deploymentFingerprint.wellFormed && b.releaseRef.wellFormed && b.authorizationRef.wellFormed
    && b.provider.wellFormed && b.gateway.wellFormed && b.accountAlias.wellFormed
    && b.account != 0
    && !b.releaseStatus.OtherRelease? && !b.mode.OtherMode? && !b.contact.OtherContact?
    && !b.connection.OtherConnection? && !b.batch.OtherBatch?
  }

  predicate IsCount(raw: Option<int>) { raw.Some? && raw.value >= 0 }

  predicate CountsFit(b: Batch) {
    && IsCount(b.cursorPrevious) && IsCount(b.cursorCurrent) && IsCount(b.eventCount)
    && IsCount(b.callbacks) && IsCount(b.duplicates) && IsCount(b.outOfOrder)
    && b.cursorCurrent.value == b.cursorPrevious.value + 1
    && b.duplicates.value + b.outOfOrder.value <= b.callbacks.value
  }

  /** What each mode of collection may claim about its source. */
  predicate ModeFits(b: Batch)
    requires CountsFit(b)
  {
    match b.mode
    case Callback =>
      && b.contact.ReadOnlyContact? && b.connection.Connected? && b.releaseStatus.Reviewed?
      && b.eventCount.value + b.duplicates.value + b.outOfOrder.value == b.callbacks.value
    case Poll =>
      && b.contact.ReadOnlyContact? && b.connection.Connected? && b.releaseStatus.Reviewed?
      && b.callbacks.value == 0
    case Replay | Fixture =>
      b.contact.NotContacted? && b.connection.NotApplicable? && b.callbacks.value == 0
    case OtherMode => false
  }

  /** A batch that may advance the cursor: a whole batch of one event, told consistently for its
      mode, whose evidence passes and names the same scope, account, time and cursor. */
  predicate Ready(b: Batch, lifecycle: Option<LifecyclePreview>) {
    && b.contentBlockers == [] && IdentityFits(b) && b.capturedAt != 0 && CountsFit(b) && ModeFits(b)
    && b.batch.Complete? && b.eventCount.value == 1
    && lifecycle.Some? && Names(b, lifecycle.value)
  }

  /** The evidence passes and names the batch's own scope, account, time and cursor. */
  predicate Names(b: Batch, p: LifecyclePreview) {
    && p.blockers == []
    && p.core.scope == BatchScope(b)
    && p.core.accountRef == AccountRefOf(b.account, b.provider.value)
    && p.core.capturedAt == b.capturedAt
    && p.core.sequence == BatchRuntime(b).cursorCurrent
  }

  /** What the evidence of a batch has to be: present in a complete batch, and its own. */
  predicate EvidenceFits(b: Batch, lifecycle: Option<LifecyclePreview>) {
    if lifecycle.None? then !b.batch.Complete? else Names(b, lifecycle.value)
  }

  /** The identity checks add nothing exactly to a batch whose identity fits. */
  lemma IdentityAddsNothingIff(b: Batch, found: seq<Blocker>)
    ensures IdentityBlockers(b, found) == found <==> IdentityFits(b)
    ensures found <= IdentityBlockers(b, found)
  {
    assert |IdentityBlockers(b, found)| == |found| <==> IdentityFits(b);
  }

  /** The evidence checks add nothing exactly to a batch whose evidence fits. */
  lemma EvidenceAddsNothingIff(b: Batch, lifecycle: Option<LifecyclePreview>, found: seq<Blocker>)
    ensures LifecycleBlockers(b, lifecycle, found) == found <==> EvidenceFits(b, lifecycle)
    ensures found <= LifecycleBlockers(b, lifecycle, found)
  {
    assert |LifecycleBlockers(b, lifecycle, found)| == |found| <==> EvidenceFits(b, lifecycle);
  }

  lemma RecordableIff(b: Batch)
    ensures RecordBlockers(b) == [] <==>
            b.contentBlockers == [] && IdentityFits(b) && b.capturedAt != 0 && CountsFit(b)
  {
    IdentityAddsNothingIff(b, b.contentBlockers);
    TelemetryEmptyIff(b, IdentityBlockers(b, b.contentBlockers));
  }

  lemma TelemetryEmptyIff(b: Batch, found: seq<Blocker>)
    ensures TelemetryBlockers(b, found) == [] <==> found == [] && b.capturedAt != 0 && CountsFit(b)
  {
  }

  lemma RunnableIff(b: Batch)
    requires IdentityFits(b) && b.capturedAt != 0 && CountsFit(b)
    ensures RuntimeBlockers(b) == [] <==> ModeFits(b) && b.batch.Complete? && b.eventCount.value == 1
  {
  }

  /** The preview lists no blocker exactly for a ready batch, and a ready batch may be recorded. */
  lemma ReadyIff(b: Batch, observedAt: Instant, maxSnapshotAge: int)
    ensures PreviewBatch(b, observedAt, maxSnapshotAge).core.blockers == []
            <==> Ready(b, LifecycleOf(b, observedAt, maxSnapshotAge))
    ensures PreviewBatch(b, observedAt, maxSnapshotAge).core.blockers == []
            ==> PreviewBatch(b, observedAt, maxSnapshotAge).recordable
  {
    var lifecycle := LifecycleOf(b, observedAt, maxSnapshotAge);
    RecordableIff(b);
    if RecordBlockers(b) == [] {
      RunnableIff(b);
      EvidenceAddsNothingIff(b, lifecycle, RuntimeBlockers(b));
    }
  }

  lemma PreviewedBatchIsBound(p: CollectorPreview)
    requires FromBatch(p)
    ensures p.recordable ==> Consecutive(p.core)
    ensures p.recordable && p.core.blockers == [] ==>
              Bound(p.core, p.prepared) && FromExport(p.prepared.value) && p.prepared.value.blockers == []
              && p.core.runtime.capturedAt == p.prepared.value.core.capturedAt
  {
    var b, observedAt, maxSnapshotAge :| p == PreviewBatch(b, observedAt, maxSnapshotAge);
    if p.recordable {
      RecordableIff(b);
      if p.core.blockers == [] {
        ReadyIff(b, observedAt, maxSnapshotAge);
        var lifecycle := LifecycleOf(b, observedAt, maxSnapshotAge);
        assert lifecycle.value == PreviewExport(b.lifecycle.value, observedAt, maxSnapshotAge);
      }
    }
  }

  // ---------------------------------------------------------------- the preview, step by step

  method NormalizeIdentity(b: Batch, recordBlockers0: seq<Blocker>) returns (recordBlockers: seq<Blocker>)
    ensures recordBlockers == IdentityBlockers(b, recordBlockers0)
    ensures recordBlockers0 <= recordBlockers
    ensures recordBlockers == recordBlockers0 <==> IdentityFits(b)
  {
    recordBlockers := recordBlockers0;
    recordBlockers := recordBlockers + When(!b.runId.wellFormed, FieldInvalid(40));
    recordBlockers := recordBlockers + When(!b.collectorId.wellFormed, FieldInvalid(41));
    recordBlockers := recordBlockers + When(!b.deploymentId.wellFormed, FieldInvalid(42));
    recordBlockers := recordBlockers + When(!b.version.wellFormed, FieldInvalid(43));
    recordBlockers := recordBlockers + When(!b.releaseRef.wellFormed, FieldInvalid(44));
    recordBlockers := recordBlockers + When(!b.authorizationRef.wellFormed, FieldInvalid(45));
    recordBlockers := recordBlockers + When(!b.provider.wellFormed, FieldInvalid(46));
    recordBlockers := recordBlockers + When(!b.gateway.wellFormed, FieldInvalid(47));
    recordBlockers := recordBlockers + When(!b.accountAlias.wellFormed, FieldInvalid(48));
    recordBlockers := recordBlockers + When(b.account == 0, AccountIdMissing);
    recordBlockers := recordBlockers + When(!b.deploymentFingerprint.wellFormed, FieldInvalid(49));
    recordBlockers := recordBlockers + When(b.releaseStatus.OtherRelease?, FieldInvalid(50));
    recordBlockers := recordBlockers + When(b.mode.OtherMode?, FieldInvalid(51));
    recordBlockers := recordBlockers + When(b.contact.OtherContact?, FieldInvalid(52));
    recordBlockers := recordBlockers + When(b.connection.OtherConnection?, FieldInvalid(53));
    recordBlockers := recordBlockers + When(b.batch.OtherBatch?, FieldInvalid(54));
    IdentityAddsNothingIff(b, recordBlockers0);
  }

  /** A count that is missing or negative is reported and becomes zero. */
  method NormalizeCount(raw: Option<int>, field: nat, blockers0: seq<Blocker>)
    returns (count: nat, blockers: seq<Blocker>)
    ensures count == NormalCount(raw) && blockers == blockers0 + CountBlockers(raw, field)
  {
    if raw.None? || raw.value < 0 {
      return 0, blockers0 + [FieldInvalid(field)];
    }
    count, blockers := raw.value, blockers0;
    assert blockers0 + [] == blockers0;
  }

  /** The runtime record is filled in stage by stage, and the checks on source and callbacks run
      before the time of capture is known. */
  method NormalizeRuntime(b: Batch, recordBlockers0: seq<Blocker>, blockers0: seq<Blocker>)
    returns (runtime: Runtime, recordBlockers: seq<Blocker>, blockers: seq<Blocker>)
    ensures runtime == BatchRuntime(b) && recordBlockers == TelemetryBlockers(b, recordBlockers0)
    ensures blockers == ConnectionAndBatchBlockers(b, runtime, SourceAndCallbackBlockers(b, runtime, blockers0))
  {
    var previous, current, events, callbacks, duplicates, outOfOrder;
    previous, recordBlockers := NormalizeCount(b.cursorPrevious, 55, recordBlockers0);
    current, recordBlockers := NormalizeCount(b.cursorCurrent, 56, recordBlockers);
    recordBlockers := recordBlockers + When(current <= 0 || current != previous + 1, CursorNotConsecutive);
    events, recordBlockers := NormalizeCount(b.eventCount, 57, recordBlockers);
    callbacks, recordBlockers := NormalizeCount(b.callbacks, 58, recordBlockers);
    duplicates, recordBlockers := NormalizeCount(b.duplicates, 59, recordBlockers);
    outOfOrder, recordBlockers := NormalizeCount(b.outOfOrder, 60, recordBlockers);
    recordBlockers := recordBlockers + When(duplicates + outOfOrder > callbacks, CallbackCountsInvalid);
    runtime := Runtime(previous, current, events, callbacks, duplicates, outOfOrder, 0);
    blockers := AppendSourceAndCallback(b, runtime, blockers0);
    runtime := runtime.(capturedAt := b.capturedAt);
    recordBlockers := recordBlockers + When(runtime.capturedAt == 0, CapturedAtInvalid);
    blockers := AppendConnectionAndBatch(b, runtime, blockers);
  }

  method AppendSourceAndCallback(b: Batch, r: Runtime, blockers0: seq<Blocker>) returns (blockers: seq<Blocker>)
    ensures blockers == SourceAndCallbackBlockers(b, r, blockers0)
    ensures blockers == SourceAndCallbackBlockers(b, r.(capturedAt := b.capturedAt), blockers0)
  {
    var contact, release, offlineContact, offlineConnection := [], [], [], [];
    if b.mode in {Callback, Poll} {
      contact := When(b.contact != ReadOnlyContact, LiveContactNotReadOnly);
      release := When(b.releaseStatus != Reviewed, ReleaseNotReviewed);
    } else if b.mode in {Replay, Fixture} {
      offlineContact := When(b.contact != NotContacted, OfflineContactInvalid);
      offlineConnection := When(b.connection != NotApplicable, OfflineConnectionInvalid);
    }
    blockers := blockers0 + contact + release + offlineContact + offlineConnection;
    blockers := blockers + When(b.contact == UnknownContact, SourceContactUnknown);
    var accepted := r.callbacks - r.duplicates - r.outOfOrder;
    blockers := blockers + When(b.mode == Callback && r.eventCount != accepted, CallbackEventCountMismatch);
    blockers := blockers
      + When(b.mode != Callback && (r.callbacks != 0 || r.duplicates != 0 || r.outOfOrder != 0),
             CallbackTelemetryModeMismatch);
  }

  method AppendConnectionAndBatch(b: Batch, r: Runtime, blockers0: seq<Blocker>) returns (blockers: seq<Blocker>)
    ensures blockers == ConnectionAndBatchBlockers(b, r, blockers0)
  {
    blockers := blockers0 + When(b.connection == NotConnected, Disconnected);
    blockers := blockers + When(b.mode in {Callback, Poll} && b.connection != Connected, LiveSourceNotConnected);
    blockers := blockers + When(b.batch == Partial, PartialBatch);
    blockers := blockers + When(b.batch == Complete && r.eventCount != 1, CompleteBatchEventCountInvalid);
  }

  method PreviewLifecycle(b: Batch, r: Runtime, observedAt: Instant, maxSnapshotAge: int, blockers0: seq<Blocker>)
    returns (lifecycle: Option<LifecyclePreview>, blockers: seq<Blocker>)
    requires r == BatchRuntime(b)
    ensures lifecycle == LifecycleOf(b, observedAt, maxSnapshotAge)
    ensures blockers == LifecycleBlockers(b, lifecycle, blockers0)
    ensures blockers0 <= blockers
    ensures blockers == blockers0 <==> EvidenceFits(b, lifecycle)
  {
    EvidenceAddsNothingIff(b, LifecycleOf(b, observedAt, maxSnapshotAge), blockers0);
    if b.lifecycle.None? {
      return None, blockers0 + When(b.batch == Complete, LifecycleMissing);
    }
    var p := PreviewExport(b.lifecycle.value, observedAt, maxSnapshotAge);
    lifecycle := Some(p);
    blockers := blockers0 + When(p.core.scope.provider != b.provider.value, LifecycleFieldMismatch(0));
    blockers := blockers + When(p.core.scope.venue.gateway != b.gateway.value, LifecycleFieldMismatch(1));
    blockers := blockers + When(p.core.scope.venue.accountAlias != b.accountAlias.value, LifecycleFieldMismatch(2));
    blockers := blockers + When(p.core.capturedAt != r.capturedAt, LifecycleFieldMismatch(3));
    blockers := blockers + When(p.core.sequence != r.cursorCurrent, LifecycleFieldMismatch(4));
    blockers := blockers
      + When(p.core.accountRef != AccountRefOf(b.account, b.provider.value), LifecycleAccountMismatch);
    blockers := blockers + p.blockers;
  }

  /** The preview of one batch: two growing lists, and a preview without blockers exactly for a
      ready batch. */
  method PreviewCollectorBatch(b: Batch, observedAt: Instant, maxSnapshotAge: int) returns (p: CollectorPreview)
    ensures p == PreviewBatch(b, observedAt, maxSnapshotAge)
    ensures p.core.blockers == [] <==> Ready(b, p.prepared)
    ensures p.core.blockers == [] ==> p.recordable
  {
    var recordBlockers := NormalizeIdentity(b, b.contentBlockers);
    var runtime, blockers;
    runtime, recordBlockers, blockers := NormalizeRuntime(b, recordBlockers, []);
    var lifecycle;
    lifecycle, blockers := PreviewLifecycle(b, runtime, observedAt, maxSnapshotAge, blockers);
    var core := Core(b, lifecycle, Unique(recordBlockers + blockers));
    ReadyIff(b, observedAt, maxSnapshotAge);
    p := CollectorPreview(
      b.runId.value, core, (b.runId.value, core), core,
      recordBlockers == [] && core.accountRef.AccountRef?, lifecycle, true);
  }
}
