/** The poller of one local statement file: it stages a file only once it has been stable. */
module Poller {
  import opened LifecycleValues
  import opened Statement
  import opened EvidenceStore

  datatype Signature = Signature(modified: int, size: nat)

  /** A metadata read: the file is not there, its metadata cannot be read, or it has a signature. */
  datatype Look = Gone | Unreadable | Saw(signature: Signature)

  /** Bytes that do not decode, or a parsed file. */
  datatype Content = NotText | Parsable(file: FilePreview)

  /** Reading the bytes and looking again: `after` is Gone or Unreadable when either fails. */
  datatype Reading = Reading(length: nat, content: Content, after: Look)

  /** What one poll meets: both clocks, the first look, the read, the id of the import run if staging
      succeeds, and whether the file is there when an error is recorded. */
  datatype Poll = Poll(
    now: int, at: int, before: Look, reading: Reading, hasRepository: bool, runId: Option<Token>, isFile: bool)

  datatype Config = Config(enabled: bool, delay: int, maxBytes: nat)

  datatype PollState =
    | Disabled | WaitingForFile | PendingStability | Imported | UnchangedFile | BlockedFile | Failed

  datatype ErrorCode =
    | NoError | StatFailed | TooLarge | ReadFailed | RepositoryMissing | NotUtf8 | StageFailed | ValidationBlocked

  datatype Staging = Staging(runId: Token, file: FilePreview)

  /** What the status repeats of the file staged last. */
  datatype Summary = Summary(
    fingerprint: Token, runId: Token, validation: Status, rows: nat, valid: nat, invalid: nat, duplicates: nat)

  datatype Collector = Collector(
    candidate: Option<Signature>, firstSeen: Option<int>, processed: Option<Token>, state: PollState,
    error: ErrorCode, filePresent: bool, observedAt: Option<int>, processedAt: Option<int>, succeededAt: Option<int>,
    summary: Option<Summary>)

  /** What one poll did: the looks it took, in order; the answer to the plain question after an error
      whether the file is there; and what it staged. */
  datatype Trace = Trace(
    now: int, at: int, looks: seq<Look>, asked: Option<bool>, staged: Option<Staging>, length: nat)

  function Fresh(config: Config, isFile: bool): Collector {
    Collector(None, None, None, if config.enabled then WaitingForFile else Disabled, NoError, config.enabled && isFile,
              None, None, None, None)
  }

  function Observed(c: Collector, p: Poll, state: PollState, error: ErrorCode, present: bool): Collector {
    c.(state := state, error := error, filePresent := present, observedAt := Some(p.at))
  }

  function Processed(c: Collector, p: Poll, state: PollState, error: ErrorCode, present: bool): Collector {
    Observed(c, p, state, error, present).(processedAt := Some(p.at))
  }

  function Lost(c: Collector, p: Poll): Collector {
    Observed(c.(candidate := None, firstSeen := None), p, WaitingForFile, NoError, false)
  }

  function Restarted(c: Collector, p: Poll, signature: Signature): Collector {
    Observed(c.(candidate := Some(signature), firstSeen := Some(p.now)), p, PendingStability, NoError, true)
  }

  /** An error is recorded with one more question about the file, and leaves the candidate as it was. */
  function Erred(c: Collector, p: Poll, error: ErrorCode): Collector {
    Processed(c, p, if error.NotUtf8? then BlockedFile else Failed, error, p.isFile)
  }

  function SummaryOf(staging: Staging): Summary {
    var preview := staging.file.preview;
    Summary(staging.file.fingerprint, staging.runId, preview.status, preview.rowCount, preview.validCount,
            preview.invalidCount, preview.duplicateCount)
  }

  function ImportedAs(c: Collector, p: Poll, staging: Staging): Collector {
    var blocked := staging.file.preview.status.Blocked?;
    Processed(
      c.(processed := Some(staging.file.fingerprint), summary := Some(SummaryOf(staging)),
         succeededAt := if blocked then c.succeededAt else Some(p.at)),
      p, if blocked then BlockedFile else Imported, if blocked then ValidationBlocked else NoError, true)
  }

  predicate WasBlocked(c: Collector) { c.summary.Some? && c.summary.value.validation.Blocked? }

  /** What goes wrong with bytes that fit the signature. */
  function StageError(c: Collector, p: Poll): Option<ErrorCode> {
    match p.reading.content
    case NotText => Some(NotUtf8)
    case Parsable(file) =>
      if Some(file.fingerprint) == c.processed then None
      else if !p.hasRepository then Some(RepositoryMissing)
      else if p.runId.None? then Some(StageFailed)
      else None
  }

  /** The bytes were read and fit the signature, and nothing goes wrong with them. */
  function Stage(c: Collector, p: Poll): (Collector, Option<Staging>)
    requires StageError(c, p).None?
  {
    var file := p.reading.content.file;
    if Some(file.fingerprint) == c.processed then
      (Observed(c, p, if WasBlocked(c) then BlockedFile else UnchangedFile, NoError, true), None)
    else
      (ImportedAs(c, p, Staging(p.runId.value, file)), Some(Staging(p.runId.value, file)))
  }

  predicate Fits(signature: Signature, r: Reading) {
    r.after == Saw(signature) && r.length == signature.size
  }

  function Looked(p: Poll, looks: seq<Look>): Trace { Trace(p.now, p.at, looks, None, None, 0) }

  function Asked(p: Poll, looks: seq<Look>): Trace { Looked(p, looks).(asked := Some(p.isFile)) }

  /** Read the bytes, look again, and stage. */
  function ReadAndStage(c: Collector, p: Poll, signature: Signature): (Collector, Trace) {
    var looks := [Saw(signature), p.reading.after];
    match p.reading.after
    case Gone => (Lost(c, p), Looked(p, looks))
    case Unreadable => (Erred(c, p, ReadFailed), Asked(p, looks))
    case Saw(after) =>
      if !Fits(signature, p.reading) then (Restarted(c, p, after), Looked(p, looks))
      else if StageError(c, p).Some? then (Erred(c, p, StageError(c, p).value), Asked(p, looks))
      else
        var (next, staged) := Stage(c, p);
        (next, Looked(p, looks).(staged := staged, length := p.reading.length))
  }

  predicate Waiting(config: Config, c: Collector, now: int) {
    c.firstSeen.None? || now - c.firstSeen.value < config.delay
  }

  /** One poll. */
  function PollOnce(config: Config, c: Collector, p: Poll): (Collector, Trace) {
    if !config.enabled then (c, Looked(p, []))
    else
      match p.before
      case Gone => (Lost(c, p), Looked(p, [Gone]))
      case Unreadable => (Erred(c, p, StatFailed), Asked(p, [Unreadable]))
      case Saw(signature) =>
        var looked := Looked(p, [Saw(signature)]);
        if Some(signature) != c.candidate then (Restarted(c, p, signature), looked)
        else if Waiting(config, c, p.now) then (Observed(c, p, PendingStability, NoError, true), looked)
        else if signature.size > config.maxBytes then (Processed(c, p, BlockedFile, TooLarge, true), looked)
        else ReadAndStage(c, p, signature)
  }

  class StatementCollector {
    const config: Config
    var candidate: Option<Signature>
    var firstSeen: Option<int>
    var processed: Option<Token>
    var state: PollState
    var error: ErrorCode
    var filePresent: bool
    var observedAt: Option<int>
    var processedAt: Option<int>
    var succeededAt: Option<int>
    var summary: Option<Summary>

    function Contents(): Collector
      reads this
    {
      Collector(candidate, firstSeen, processed, state, error, filePresent, observedAt, processedAt, succeededAt, summary)
    }

    constructor (config: Config, isFile: bool)
      ensures this.config == config && Contents() == Fresh(config, isFile)
    {
      this.config := config;
      candidate, firstSeen, processed, summary := None, None, None, None;
      observedAt, processedAt, succeededAt := None, None, None;
      state, error := if config.enabled then WaitingForFile else Disabled, NoError;
      filePresent := config.enabled && isFile;
    }

    method Observe(at: int, state: PollState, error: ErrorCode, present: bool)
      modifies `state, `error, `filePresent, `observedAt
      ensures this.state == state && this.error == error && filePresent == present && observedAt == Some(at)
    {
      this.state, this.error, filePresent, observedAt := state, error, present, Some(at);
    }

    method Lose(p: Poll)
      modifies this
      ensures Contents() == Lost(old(Contents()), p)
    {
      candidate, firstSeen := None, None;
      Observe(p.at, WaitingForFile, NoError, false);
    }

    method Restart(p: Poll, signature: Signature)
      modifies this
      ensures Contents() == Restarted(old(Contents()), p, signature)
    {
      candidate, firstSeen := Some(signature), Some(p.now);
      Observe(p.at, PendingStability, NoError, true);
    }

    method RecordError(p: Poll, code: ErrorCode)
      modifies this
      ensures Contents() == Erred(old(Contents()), p, code)
    {
      Observe(p.at, if code.NotUtf8? then BlockedFile else Failed, code, p.isFile);
      processedAt := Some(p.at);
    }

    method Import(p: Poll, staging: Staging)
      modifies this
      ensures Contents() == ImportedAs(old(Contents()), p, staging)
    {
      processed, summary := Some(staging.file.fingerprint), Some(SummaryOf(staging));
      var blocked := staging.file.preview.status.Blocked?;
      if !blocked {
        succeededAt := Some(p.at);
      }
      Observe(p.at, if blocked then BlockedFile else Imported, if blocked then ValidationBlocked else NoError, true);
      processedAt := Some(p.at);
    }

    /** Parse and stage; answers with what was staged, and whether an error was recorded instead. */
    method StageFile(p: Poll) returns (staged: Option<Staging>, failed: bool)
      modifies this
      ensures failed == StageError(old(Contents()), p).Some?
      ensures failed ==> staged.None? && Contents() == Erred(old(Contents()), p, StageError(old(Contents()), p).value)
      ensures !failed ==> (Contents(), staged) == Stage(old(Contents()), p)
    {
      staged, failed := None, false;
      match p.reading.content {
        case NotText =>
          RecordError(p, NotUtf8);
          failed := true;
        case Parsable(file) =>
          if Some(file.fingerprint) == processed {
            Observe(p.at, if summary.Some? && summary.value.validation.Blocked? then BlockedFile else UnchangedFile,
                    NoError, true);
          } else if !p.hasRepository {
            RecordError(p, RepositoryMissing);
            failed := true;
          } else if p.runId.None? {
            RecordError(p, StageFailed);
            failed := true;
          } else {
            staged := Some(Staging(p.runId.value, file));
            Import(p, staged.value);
          }
      }
    }

    method CollectOnce(p: Poll) returns (trace: Trace)
      modifies this
      ensures (Contents(), trace) == PollOnce(config, old(Contents()), p)
    {
      if !config.enabled {
        return Looked(p, []);
      }
      if p.before.Gone? {
        Lose(p);
        return Looked(p, [Gone]);
      }
      if p.before.Unreadable? {
        RecordError(p, StatFailed);
        return Asked(p, [Unreadable]);
      }
      var signature := p.before.signature;
      trace := Looked(p, [p.before]);
      if candidate != Some(signature) {
        Restart(p, signature);
        return;
      }
      if firstSeen.None? || p.now - firstSeen.value < config.delay {
        Observe(p.at, PendingStability, NoError, true);
        return;
      }
      if signature.size > config.maxBytes {
        Observe(p.at, BlockedFile, TooLarge, true);
        processedAt := Some(p.at);
        return;
      }
      trace := ReadFile(p, signature);
    }

    method ReadFile(p: Poll, signature: Signature) returns (trace: Trace)
      modifies this
      ensures (Contents(), trace) == ReadAndStage(old(Contents()), p, signature)
    {
      var looks := [Saw(signature), p.reading.after];
      trace := Looked(p, looks);
      match p.reading.after {
        case Gone => Lose(p);
        case Unreadable =>
          RecordError(p, ReadFailed);
          trace := Asked(p, looks);
        case Saw(after) =>
          if signature != after || p.reading.length != after.size {
            Restart(p, after);
          } else {
            var staged, failed := StageFile(p);
            trace := if failed then Asked(p, looks)
                     else Looked(p, looks).(staged := staged, length := p.reading.length);
          }
      }
    }
  }

  // ---------------------------------------------------------------- whole runs

  /** Whether the file is there at the start only shows in the status. */
  function After(config: Config, polls: seq<Poll>): Collector {
    if polls == [] then Fresh(config, false)
    else PollOnce(config, After(config, polls[..|polls| - 1]), polls[|polls| - 1]).0
  }

  function TraceOf(config: Config, polls: seq<Poll>): (r: seq<Trace>)
    ensures |r| == |polls|
  {
    if polls == [] then []
    else
      var front := polls[..|polls| - 1];
      TraceOf(config, front) + [PollOnce(config, After(config, front), polls[|polls| - 1]).1]
  }

  /** Every metadata read saw this signature, or failed. */
  predicate Steady(looks: seq<Look>, signature: Signature) {
    forall i :: 0 <= i < |looks| ==> looks[i] == Saw(signature) || looks[i].Unreadable?
  }

  /** The poll at `k` ended by seeing the signature, and nothing has disturbed it since. */
  predicate StableSince(traces: seq<Trace>, k: nat, signature: Signature)
    requires k < |traces|
  {
    && traces[k].looks != [] && traces[k].looks[|traces[k].looks| - 1] == Saw(signature)
    && forall j :: k < j < |traces| ==> Steady(traces[j].looks, signature)
  }

  /** The candidate signature was first seen by an earlier poll at the time remembered for it. */
  predicate Explains(c: Collector, traces: seq<Trace>) {
    c.candidate.Some? ==>
      c.firstSeen.Some?
      && exists k :: 0 <= k < |traces| && traces[k].now == c.firstSeen.value && StableSince(traces, k, c.candidate.value)
  }

  /** What was staged last. */
  function LastStaged(traces: seq<Trace>): Option<Staging> {
    if traces == [] then None
    else if traces[|traces| - 1].staged.Some? then traces[|traces| - 1].staged
    else LastStaged(traces[..|traces| - 1])
  }

  predicate Succeeds(t: Trace) { t.staged.Some? && !t.staged.value.file.preview.status.Blocked? }

  /** When a file that passed validation was staged last. */
  function LastSuccess(traces: seq<Trace>): Option<int> {
    if traces == [] then None
    else if Succeeds(traces[|traces| - 1]) then Some(traces[|traces| - 1].at)
    else LastSuccess(traces[..|traces| - 1])
  }

  /** The status repeats what was staged last, and knows when something last passed. */
  predicate Repeats(c: Collector, traces: seq<Trace>) {
    && (match LastStaged(traces)
        case None => c.processed.None? && c.summary.None?
        case Some(staging) => c.processed == Some(staging.file.fingerprint) && c.summary == Some(SummaryOf(staging)))
    && c.succeededAt == LastSuccess(traces)
  }

  predicate Inv(c: Collector, traces: seq<Trace>) {
    Explains(c, traces) && Repeats(c, traces)
  }

  lemma StaysStable(traces: seq<Trace>, t: Trace, k: nat, signature: Signature)
    requires k < |traces| && StableSince(traces, k, signature) && Steady(t.looks, signature)
    ensures StableSince(traces + [t], k, signature)
  {
  }

  lemma StillExplained(c: Collector, next: Collector, traces: seq<Trace>, t: Trace)
    requires Explains(c, traces) && next.candidate == c.candidate && next.firstSeen == c.firstSeen
    requires c.candidate.Some? ==> Steady(t.looks, c.candidate.value)
    ensures Explains(next, traces + [t])
  {
    if c.candidate.Some? {
      var k :| 0 <= k < |traces| && traces[k].now == c.firstSeen.value && StableSince(traces, k, c.candidate.value);
      StaysStable(traces, t, k, c.candidate.value);
      assert (traces + [t])[k] == traces[k];
    }
  }

  lemma NewlyExplained(next: Collector, traces: seq<Trace>, t: Trace)
    requires next.candidate.Some? && next.firstSeen == Some(t.now)
    requires t.looks != [] && t.looks[|t.looks| - 1] == Saw(next.candidate.value)
    ensures Explains(next, traces + [t])
  {
    assert (traces + [t])[|traces|] == t;
    assert StableSince(traces + [t], |traces|, next.candidate.value);
  }

  /** What a poll may do to the candidate. */
  lemma CandidateStep(config: Config, c: Collector, p: Poll)
    ensures var (next, t) := PollOnce(config, c, p);
            || next.candidate.None?
            || (next.candidate == c.candidate && next.firstSeen == c.firstSeen && Steady(t.looks, c.candidate.value))
            || (next.firstSeen == Some(t.now) && t.looks != [] && t.looks[|t.looks| - 1] == Saw(next.candidate.value))
  {
  }

  lemma PollExplains(config: Config, c: Collector, p: Poll, traces: seq<Trace>)
    requires Explains(c, traces)
    ensures var (next, t) := PollOnce(config, c, p); Explains(next, traces + [t])
  {
    var (next, t) := PollOnce(config, c, p);
    CandidateStep(config, c, p);
    if next.candidate.None? {
    } else if next.candidate == c.candidate && next.firstSeen == c.firstSeen && Steady(t.looks, c.candidate.value) {
      StillExplained(c, next, traces, t);
    } else {
      NewlyExplained(next, traces, t);
    }
  }

  /** What a poll remembers of what it staged. */
  predicate Remembers(c: Collector, next: Collector, t: Trace) {
    && next.processed == (if t.staged.Some? then Some(t.staged.value.file.fingerprint) else c.processed)
    && next.summary == (if t.staged.Some? then Some(SummaryOf(t.staged.value)) else c.summary)
    && next.succeededAt == (if Succeeds(t) then Some(t.at) else c.succeededAt)
  }

  lemma ReadRemembers(c: Collector, p: Poll, signature: Signature)
    ensures var (next, t) := ReadAndStage(c, p, signature); Remembers(c, next, t)
  {
  }

  /** A poll remembers exactly what it staged. */
  lemma ProcessedStep(config: Config, c: Collector, p: Poll)
    ensures var (next, t) := PollOnce(config, c, p); Remembers(c, next, t)
  {
    hide ReadAndStage;
    if p.before.Saw? {
      ReadRemembers(c, p, p.before.signature);
    }
  }

  lemma RepeatsAppend(c: Collector, next: Collector, traces: seq<Trace>, t: Trace)
    requires Repeats(c, traces) && Remembers(c, next, t)
    ensures Repeats(next, traces + [t])
  {
    assert (traces + [t])[..|traces|] == traces;
  }

  lemma PollKeepsInv(config: Config, c: Collector, p: Poll, traces: seq<Trace>)
    requires Inv(c, traces)
    ensures Inv(PollOnce(config, c, p).0, traces + [PollOnce(config, c, p).1])
  {
    PollExplains(config, c, p, traces);
    ProcessedStep(config, c, p);
    RepeatsAppend(c, PollOnce(config, c, p).0, traces, PollOnce(config, c, p).1);
  }

  lemma {:induction false} EveryRunKeepsInv(config: Config, polls: seq<Poll>)
    ensures Inv(After(config, polls), TraceOf(config, polls))
  {
    if polls != [] {
      var front := polls[..|polls| - 1];
      EveryRunKeepsInv(config, front);
      PollKeepsInv(config, After(config, front), polls[|polls| - 1], TraceOf(config, front));
    }
  }

  /** What staging takes, in one poll. */
  lemma StagingStep(config: Config, c: Collector, p: Poll)
    requires PollOnce(config, c, p).1.staged.Some?
    ensures var (next, t) := PollOnce(config, c, p);
            && c.candidate.Some? && c.firstSeen.Some? && p.now - c.firstSeen.value >= config.delay
            && t.looks == [Saw(c.candidate.value), Saw(c.candidate.value)]
            && t.length == c.candidate.value.size <= config.maxBytes
            && Some(t.staged.value.file.fingerprint) != c.processed
  {
  }

  /** At poll `k`, at least the delay before the last one, the signature was seen; no look since then
      saw anything else; and the bytes staged last have its size. */
  predicate Stable(config: Config, traces: seq<Trace>, k: nat, signature: Signature)
    requires k < |traces| - 1
  {
    var last := traces[|traces| - 1];
    && last.now - traces[k].now >= config.delay
    && StableSince(traces, k, signature)
    && last.looks == [Saw(signature), Saw(signature)]
    && last.length == signature.size <= config.maxBytes
  }

  ghost predicate StableBefore(config: Config, traces: seq<Trace>) {
    exists k: nat, signature: Signature ::
      k < |traces| - 1 && Stable(config, traces, k, signature)
  }

  /** Over any sequence of polls a file is staged only once it has been stable. */
  lemma StagedFilesAreStable(config: Config, polls: seq<Poll>)
    requires polls != []
    ensures TraceOf(config, polls)[|polls| - 1].staged.Some? ==> StableBefore(config, TraceOf(config, polls))
  {
    var front, p := polls[..|polls| - 1], polls[|polls| - 1];
    hide PollOnce, Repeats;
    EveryRunKeepsInv(config, front);
    var traces, c := TraceOf(config, front), After(config, front);
    var t := PollOnce(config, c, p).1;
    if t.staged.Some? {
      StagingStep(config, c, p);
      var signature := c.candidate.value;
      var k :| 0 <= k < |traces| && traces[k].now == c.firstSeen.value && StableSince(traces, k, signature);
      StaysStable(traces, t, k, signature);
      assert Stable(config, traces + [t], k, signature);
    }
  }

  /** The same fingerprint is never staged twice in a row. */
  lemma NeverTwiceInARow(config: Config, polls: seq<Poll>)
    requires polls != []
    ensures var last := TraceOf(config, polls)[|polls| - 1];
            var before := LastStaged(TraceOf(config, polls[..|polls| - 1]));
            last.staged.Some? && before.Some? ==> last.staged.value.file.fingerprint != before.value.file.fingerprint
  {
    var front, p := polls[..|polls| - 1], polls[|polls| - 1];
    EveryRunKeepsInv(config, front);
    if PollOnce(config, After(config, front), p).1.staged.Some? {
      StagingStep(config, After(config, front), p);
    }
  }

  // ---------------------------------------------------------------- the question after an error

  /** A poll that finds the file missing: when it looks, or when it asks after an error. */
  predicate FindsNoFile(t: Trace) { Gone in t.looks || t.asked == Some(false) }

  /** No poll after the one at `k` found the file missing. */
  predicate NeverMissing(traces: seq<Trace>, k: nat) {
    forall j :: k < j < |traces| ==> !FindsNoFile(traces[j])
  }

  /** What the status says after the poll at `j`. */
  predicate FilePresentAfter(config: Config, polls: seq<Poll>, j: nat)
    requires j < |polls|
  {
    After(config, polls[..j + 1]).filePresent
  }

  predicate PresentSince(config: Config, polls: seq<Poll>, k: nat) {
    forall j :: k < j < |polls| ==> FilePresentAfter(config, polls, j)
  }

  /** The error a poll records, from what it meets. */
  function ErrorIn(config: Config, c: Collector, p: Poll): Option<ErrorCode> {
    if p.before.Unreadable? then Some(StatFailed)
    else if p.before.Gone? || Some(p.before.signature) != c.candidate || Waiting(config, c, p.now) then None
    else if p.before.signature.size > config.maxBytes || p.reading.after.Gone? then None
    else if p.reading.after.Unreadable? then Some(ReadFailed)
    else if !Fits(p.before.signature, p.reading) then None
    else StageError(c, p)
  }

  /** The poll at `j` meets an error while the file is away. */
  predicate ErrsWithoutFile(config: Config, polls: seq<Poll>, j: nat)
    requires j < |polls|
  {
    ErrorIn(config, After(config, polls[..j]), polls[j]).Some? && !polls[j].isFile
  }

  predicate NoErrorWithoutFile(config: Config, polls: seq<Poll>, k: nat) {
    forall j :: k < j < |polls| ==> !ErrsWithoutFile(config, polls, j)
  }

  /** The status after a poll says exactly whether the poll found the file missing; if no look found it
      gone, that takes an error while the file is away. */
  lemma MissingStep(config: Config, c: Collector, p: Poll)
    requires config.enabled
    ensures var (next, t) := PollOnce(config, c, p);
            && (next.filePresent <==> !FindsNoFile(t))
            && (Gone !in t.looks ==> (FindsNoFile(t) <==> ErrorIn(config, c, p).Some? && !p.isFile))
  {
  }

  lemma {:induction false} TraceAt(config: Config, polls: seq<Poll>, j: nat)
    requires j < |polls|
    ensures (After(config, polls[..j + 1]), TraceOf(config, polls)[j]) == PollOnce(config, After(config, polls[..j]), polls[j])
  {
    assert polls[..j + 1][..j] == polls[..j];
    if j < |polls| - 1 {
      TraceAt(config, polls[..|polls| - 1], j);
      assert polls[..|polls| - 1][..j] == polls[..j] && polls[..|polls| - 1][..j + 1] == polls[..j + 1];
    } else {
      assert polls[..j + 1] == polls;
    }
  }

  /** A poller that looks at all is enabled. */
  lemma LooksMeanEnabled(config: Config, polls: seq<Poll>, k: nat)
    requires k < |polls| && TraceOf(config, polls)[k].looks != []
    ensures config.enabled
  {
    TraceAt(config, polls, k);
  }

  /** While a signature is steady: no poll found the file missing exactly when the status always showed it,
      and exactly when no poll met an error while the file was away. */
  lemma NeverMissingIff(config: Config, polls: seq<Poll>, k: nat, signature: Signature)
    requires k < |polls| && StableSince(TraceOf(config, polls), k, signature)
    ensures NeverMissing(TraceOf(config, polls), k) <==> PresentSince(config, polls, k)
    ensures NeverMissing(TraceOf(config, polls), k) <==> NoErrorWithoutFile(config, polls, k)
  {
    hide PollOnce;
    LooksMeanEnabled(config, polls, k);
    forall j | k < j < |polls|
      ensures FindsNoFile(TraceOf(config, polls)[j]) <==> !FilePresentAfter(config, polls, j)
      ensures FindsNoFile(TraceOf(config, polls)[j]) <==> ErrsWithoutFile(config, polls, j)
    {
      TraceAt(config, polls, j);
      MissingStep(config, After(config, polls[..j]), polls[j]);
      assert Steady(TraceOf(config, polls)[j].looks, signature);
    }
  }

  /** A staged file goes back to a poll that saw its signature; and from each such poll on, the file was
      never found missing exactly when the status always showed it, and exactly when no error was met
      while it was away. */
  lemma StagedNeverMissingIff(config: Config, polls: seq<Poll>)
    requires polls != [] && TraceOf(config, polls)[|polls| - 1].staged.Some?
    ensures StableBefore(config, TraceOf(config, polls))
    ensures forall k: nat, signature: Signature ::
              k < |polls| - 1 && Stable(config, TraceOf(config, polls), k, signature) ==>
                && (NeverMissing(TraceOf(config, polls), k) <==> PresentSince(config, polls, k))
                && (NeverMissing(TraceOf(config, polls), k) <==> NoErrorWithoutFile(config, polls, k))
  {
    StagedFilesAreStable(config, polls);
    forall k: nat, signature: Signature | k < |polls| - 1 && Stable(config, TraceOf(config, polls), k, signature)
      ensures NeverMissing(TraceOf(config, polls), k) <==> PresentSince(config, polls, k)
      ensures NeverMissing(TraceOf(config, polls), k) <==> NoErrorWithoutFile(config, polls, k)
    {
      NeverMissingIff(config, polls, k, signature);
    }
  }

  const WATCHING := Config(true, 1, 100)
  const SEEN := Saw(Signature(1, 1))
  const STATEMENT := FilePreview(1, 1, Preview(0, 0, 0, 0, Pass, []))

  /** A poll that sees the file, and one that cannot read its metadata and then finds no file. */
  function Seeing(now: int): Poll { Poll(now, now, SEEN, Reading(1, Parsable(STATEMENT), SEEN), true, Some(1), true) }
  function Missing(now: int): Poll {
    Poll(now, now, Unreadable, Reading(0, NotText, Unreadable), true, Some(1), false)
  }

  /** The file is staged although the poll before found it missing, as the status then said. */
  predicate StagedPastMissing(config: Config, polls: seq<Poll>) {
    var traces := TraceOf(config, polls);
    && |polls| == 3 && Stable(config, traces, 0, Signature(1, 1)) && traces[2].staged.Some?
    && FindsNoFile(traces[1])
  }

  lemma TwoMore(config: Config, first: Poll, second: Poll, third: Poll)
    ensures var c1 := PollOnce(config, Fresh(config, false), first);
            var c2 := PollOnce(config, c1.0, second);
            TraceOf(config, [first, second, third]) == [c1.1, c2.1, PollOnce(config, c2.0, third).1]
  {
    assert [first, second, third][..2] == [first, second];
    assert [first, second][..1] == [first] && [first][..0] == [];
    assert After(config, []) == Fresh(config, false) && TraceOf(config, []) == [];
    assert After(config, [first]) == PollOnce(config, Fresh(config, false), first).0;
    assert TraceOf(config, [first]) == [PollOnce(config, Fresh(config, false), first).1];
  }

  /** The stability window is not interrupted by a file that is missing when an error is recorded: that
      question does not reset the candidate. */
  lemma MissingAfterErrorIsIgnored()
    ensures exists config: Config, polls: seq<Poll> :: StagedPastMissing(config, polls)
  {
    TwoMore(WATCHING, Seeing(0), Missing(5), Seeing(10));
    assert StagedPastMissing(WATCHING, [Seeing(0), Missing(5), Seeing(10)]);
  }
}
