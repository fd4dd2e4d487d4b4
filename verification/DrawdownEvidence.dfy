/** The drawdown evidence: the builder, the validator that replays it, and what acceptance means. */
module DrawdownEvidence {
  import opened LifecycleValues
  import opened Drawdown

  /** A timestamp is its own canonical text: the instant and the offset it is written with. */
  datatype Stamp = Stamp(at: int, offset: int)
  datatype Row = Row(stamp: Stamp, equity: real)

  /** A curve entry as received; a part that does not parse is None. */
  datatype RawRow = RawRow(stamp: Option<Stamp>, equity: Option<real>)

  datatype Issue =
    | PointInvalid(index: nat) | NotIncreasing(index: nat) | InitialCashInvalid
    | PointsInsufficient | NormalizationIncomplete

  datatype Model = RunningPeak | InitialCashPeak | OtherModel

  datatype Point = Point(
    index: Option<int>, stamp: Option<Stamp>, equity: Option<real>, peak: Option<real>,
    drawdown: Option<real>, exactFields: bool)

  /** `constantsHold` stands for the schema version, the texts and the constant safety flags. */
  datatype Core = Core(
    complete: bool, model: Model, initialCash: Option<real>, pointCount: Option<int>,
    observationCount: Option<int>, maxDrawdown: Option<real>, points: seq<Point>, issues: seq<Issue>,
    curveOnly: bool, constantsHold: bool)

  datatype Evidence = Evidence(core: Core, fingerprint: Core)

  // ---------------------------------------------------------------- normalised curves

  function EquityRow(raw: RawRow): (r: Option<Row>)
    ensures r.Some? ==> r.value.equity > 0.0
  {
    if raw.stamp.Some? && raw.equity.Some? && raw.equity.value > 0.0
    then Some(Row(raw.stamp.value, raw.equity.value)) else None
  }

  /** The rows that parse, in order. */
  function Parsed(raws: seq<RawRow>): (r: seq<Row>)
    ensures |r| <= |raws|
    ensures forall k :: 0 <= k < |r| ==> r[k].equity > 0.0
  {
    if raws == [] then []
    else
      var row := EquityRow(raws[|raws| - 1]);
      Parsed(raws[..|raws| - 1]) + if row.Some? then [row.value] else []
  }

  function RowIssues(raws: seq<RawRow>): seq<Issue> {
    if raws == [] then []
    else
      var front, row := raws[..|raws| - 1], EquityRow(raws[|raws| - 1]);
      var before := Parsed(front);
      RowIssues(front)
      + if row.None? then [PointInvalid(|front|)]
        else if before != [] && row.value.stamp.at <= before[|before| - 1].stamp.at then [NotIncreasing(|front|)]
        else []
  }

  predicate Increasing(rows: seq<Row>) {
    forall j, k :: 0 <= j < k < |rows| ==> rows[j].stamp.at < rows[k].stamp.at
  }

  /** Every entry parses and time increases strictly. */
  predicate CleanCurve(raws: seq<RawRow>) {
    |Parsed(raws)| == |raws| && Increasing(Parsed(raws))
  }

  function Equities(rows: seq<Row>): (r: seq<real>)
    ensures |r| == |rows|
    ensures forall k :: 0 <= k < |r| ==> r[k] == rows[k].equity
  {
    seq(|rows|, k requires 0 <= k < |rows| => rows[k].equity)
  }

  lemma {:induction false} NoIssueMeansClean(raws: seq<RawRow>)
    ensures RowIssues(raws) == [] <==> CleanCurve(raws)
  {
    if raws != [] {
      var front := raws[..|raws| - 1];
      NoIssueMeansClean(front);
      var row, before := EquityRow(raws[|raws| - 1]), Parsed(front);
      if row.Some? {
        assert Parsed(raws) == before + [row.value];
        AppendIncreases(before, row.value);
        assert RowIssues(raws) == [] ==> RowIssues(front) == [];
      }
    }
  }

  lemma AppendIncreases(rows: seq<Row>, row: Row)
    ensures Increasing(rows + [row])
            <==> Increasing(rows) && (rows == [] || rows[|rows| - 1].stamp.at < row.stamp.at)
  {
    var all := rows + [row];
    if Increasing(all) {
      assert forall k :: 0 <= k < |rows| ==> rows[k] == all[k];
      assert rows == [] || all[|rows| - 1].stamp.at < all[|rows|].stamp.at;
    }
    if Increasing(rows) && (rows == [] || rows[|rows| - 1].stamp.at < row.stamp.at) {
      forall j, k | 0 <= j < k < |all| ensures all[j].stamp.at < all[k].stamp.at {
        assert k == |rows| && j < |rows| - 1 ==> rows[j].stamp.at < rows[|rows| - 1].stamp.at;
      }
    }
  }

  // ---------------------------------------------------------------- the builder

  /** `initial_cash` as passed: absent, unparsable, or a number. */
  type InitialCash = Option<Option<real>>

  function AnchorOf(cash: InitialCash): Option<real> {
    if cash.Some? then cash.value else None
  }

  function UsableAnchor(cash: InitialCash): (r: Option<real>)
    ensures Anchored(r)
  {
    if AnchorOf(cash).Some? && AnchorOf(cash).value > 0.0 then AnchorOf(cash) else None
  }

  function MinimumPoints(cash: InitialCash): nat {
    if UsableAnchor(cash).Some? then 1 else 2
  }

  function PointOf(anchor: Option<real>, rows: seq<Row>, k: nat): Point
    requires k < |rows| && Positive(Equities(rows))
  {
    var peak := PositivePeak(anchor, Equities(rows), k);
    Point(Some(k), Some(rows[k].stamp), Some(rows[k].equity), Some(peak),
          Some(DeclineAt(anchor, Equities(rows), k)), true)
  }

  function PointsUpTo(anchor: Option<real>, rows: seq<Row>, n: nat): (r: seq<Point>)
    requires Positive(Equities(rows)) && n <= |rows|
    ensures |r| == n
  {
    if n == 0 then [] else PointsUpTo(anchor, rows, n - 1) + [PointOf(anchor, rows, n - 1)]
  }

  function PointsOf(anchor: Option<real>, rows: seq<Row>): (r: seq<Point>)
    requires Positive(Equities(rows))
    ensures |r| == |rows|
  {
    PointsUpTo(anchor, rows, |rows|)
  }

  lemma {:induction false} PointAt(anchor: Option<real>, rows: seq<Row>, n: nat, k: nat)
    requires Positive(Equities(rows)) && k < n <= |rows|
    ensures PointsUpTo(anchor, rows, n)[k] == PointOf(anchor, rows, k)
  {
    if k < n - 1 {
      PointAt(anchor, rows, n - 1, k);
    }
  }

  function BuildIssues(raws: seq<RawRow>, cash: InitialCash): seq<Issue> {
    RowIssues(raws)
    + (if cash.Some? && UsableAnchor(cash).None? then [InitialCashInvalid] else [])
    + (if |raws| < MinimumPoints(cash) then [PointsInsufficient] else [])
    + (if |Parsed(raws)| != |raws| then [NormalizationIncomplete] else [])
  }

  function Built(raws: seq<RawRow>, cash: InitialCash): Evidence {
    var rows, anchor := Parsed(raws), AnchorOf(cash);
    var issues := Unique(BuildIssues(raws, cash));
    var core := Core(
      issues == [] && |rows| >= MinimumPoints(cash), if anchor.Some? then InitialCashPeak else RunningPeak,
      anchor, Some(|raws|), Some(|rows|), Some(MaxDrawdown(UsableAnchor(cash), Equities(rows))),
      PointsOf(UsableAnchor(cash), rows), issues, anchor.None?, true);
    Evidence(core, core)
  }

  /** What makes built evidence complete. */
  lemma CompleteIff(raws: seq<RawRow>, cash: InitialCash)
    ensures Built(raws, cash).core.complete
            <==> CleanCurve(raws) && |raws| >= MinimumPoints(cash) && (cash.Some? ==> UsableAnchor(cash).Some?)
  {
    NoIssueMeansClean(raws);
  }

  lemma ParsedStep(raws: seq<RawRow>, i: nat)
    requires i < |raws|
    ensures var row, before := EquityRow(raws[i]), Parsed(raws[..i]);
            && Parsed(raws[..i + 1]) == before + (if row.Some? then [row.value] else [])
            && RowIssues(raws[..i + 1])
               == RowIssues(raws[..i])
                  + if row.None? then [PointInvalid(i)]
                    else if before != [] && row.value.stamp.at <= before[|before| - 1].stamp.at then [NotIncreasing(i)]
                    else []
  {
    assert raws[..i + 1][..i] == raws[..i];
  }

  /** The first loop of the builder. */
  method NormalizeRows(raws: seq<RawRow>) returns (normalized: seq<Row>, issues: seq<Issue>)
    ensures normalized == Parsed(raws) && issues == RowIssues(raws)
  {
    normalized, issues := [], [];
    for i := 0 to |raws|
      invariant normalized == Parsed(raws[..i]) && issues == RowIssues(raws[..i])
    {
      ParsedStep(raws, i);
      var parsed := EquityRow(raws[i]);
      if parsed.None? {
        issues := issues + [PointInvalid(i)];
      } else {
        if normalized != [] && parsed.value.stamp.at <= normalized[|normalized| - 1].stamp.at {
          issues := issues + [NotIncreasing(i)];
        }
        normalized := normalized + [parsed.value];
      }
    }
    assert raws[..|raws|] == raws;
  }

  /** One step of a running peak. */
  lemma PeakStep(anchor: Option<real>, levels: seq<real>, i: nat)
    requires i < |levels|
    ensures Peak(anchor, levels[..i + 1])
            == if i == 0 && anchor.None? then levels[0] else Max(Peak(anchor, levels[..i]), levels[i])
  {
    assert levels[..i + 1][..i] == levels[..i];
  }

  /** The second loop of the builder: a running peak, and one point for each row. */
  method BuildPoints(anchor: Option<real>, rows: seq<Row>) returns (points: seq<Point>)
    requires Positive(Equities(rows)) && Anchored(anchor)
    ensures points == PointsOf(anchor, rows)
  {
    points := [];
    var peak := anchor;
    for i := 0 to |rows|
      invariant peak == if i == 0 then anchor else Some(Peak(anchor, Equities(rows)[..i]))
      invariant points == PointsUpTo(anchor, rows, i)
    {
      var point, high := BuildPoint(anchor, peak, rows, i);
      points := points + [point];
      peak := Some(high);
    }
  }

  method BuildPoint(anchor: Option<real>, peak: Option<real>, rows: seq<Row>, i: nat)
    returns (point: Point, high: real)
    requires Positive(Equities(rows)) && i < |rows|
    requires peak == if i == 0 then anchor else Some(Peak(anchor, Equities(rows)[..i]))
    ensures point == PointOf(anchor, rows, i) && high == Peak(anchor, Equities(rows)[..i + 1])
  {
    var equity := rows[i].equity;
    PeakStep(anchor, Equities(rows), i);
    high := if peak.None? then equity else Max(peak.value, equity);
    assert high == PositivePeak(anchor, Equities(rows), i);
    point := Point(Some(i), Some(rows[i].stamp), Some(equity), Some(high), Some(Decline(high, equity)), true);
  }

  /** The final `max(...)` of the builder. */
  method LargestDrawdown(points: seq<Point>) returns (largest: real)
    ensures largest == Largest(Reported(points))
  {
    largest := 0.0;
    for i := 0 to |points|
      invariant largest == Largest(Reported(points)[..i])
    {
      assert Reported(points)[..i + 1][..i] == Reported(points)[..i];
      largest := Max(largest, Reported(points)[i]);
    }
    assert Reported(points)[..|points|] == Reported(points);
  }

  function Reported(points: seq<Point>): (r: seq<real>)
    ensures |r| == |points|
  {
    seq(|points|, k requires 0 <= k < |points| =>
      if points[k].drawdown.Some? then points[k].drawdown.value else 0.0)
  }

  lemma {:induction false} BuiltMaximum(anchor: Option<real>, rows: seq<Row>, n: nat)
    requires Positive(Equities(rows)) && n <= |rows|
    ensures Largest(Reported(PointsUpTo(anchor, rows, n))) == MaxDrawdown(anchor, Equities(rows)[..n])
  {
    if n > 0 {
      var points, levels := PointsUpTo(anchor, rows, n), Equities(rows);
      BuiltMaximum(anchor, rows, n - 1);
      assert Reported(points)[..n - 1] == Reported(PointsUpTo(anchor, rows, n - 1));
      assert levels[..n][..n - 1] == levels[..n - 1];
      DeclineAtFront(anchor, levels, n, n - 1);
    }
  }

  lemma BuiltDrawdown(anchor: Option<real>, rows: seq<Row>)
    requires Positive(Equities(rows))
    ensures Largest(Reported(PointsOf(anchor, rows))) == MaxDrawdown(anchor, Equities(rows))
  {
    BuiltMaximum(anchor, rows, |rows|);
    assert Equities(rows)[..|rows|] == Equities(rows);
  }

  method CheckCurve(raws: seq<RawRow>, cash: InitialCash) returns (rows: seq<Row>, issues: seq<Issue>)
    ensures rows == Parsed(raws) && issues == BuildIssues(raws, cash)
  {
    rows, issues := NormalizeRows(raws);
    if cash.Some? && UsableAnchor(cash).None? {
      issues := issues + [InitialCashInvalid];
    }
    if |raws| < MinimumPoints(cash) {
      issues := issues + [PointsInsufficient];
    }
    if |rows| != |raws| {
      issues := issues + [NormalizationIncomplete];
    }
  }

  method Build(raws: seq<RawRow>, cash: InitialCash) returns (evidence: Evidence)
    ensures evidence == Built(raws, cash)
  {
    var rows, issues := CheckCurve(raws, cash);
    var anchor := AnchorOf(cash);
    var points := BuildPoints(UsableAnchor(cash), rows);
    var largest := LargestDrawdown(points);
    BuiltDrawdown(UsableAnchor(cash), rows);
    issues := Unique(issues);
    var core := Core(
      issues == [] && |points| >= MinimumPoints(cash), if anchor.Some? then InitialCashPeak else RunningPeak,
      anchor, Some(|raws|), Some(|points|), Some(largest), points, issues, anchor.None?, true);
    evidence := Evidence(core, core);
  }

  // ---------------------------------------------------------------- the validator

  const UNIT := 0.000000001

  predicate Close(left: real, right: real) {
    Abs(left - right) <= Max(UNIT, Max(Abs(left), Abs(right)) * UNIT)
  }

  /** The persisted curve and summaries the evidence is bound to; unparsable ones are None. */
  datatype Expected = Expected(
    maxDrawdown: Option<real>, curve: Option<seq<RawRow>>, initialEquity: Option<real>, finalEquity: Option<real>)

  predicate Fraction(x: Option<real>) { x.Some? && 0.0 <= x.value < 1.0 }
  predicate Above(x: Option<real>) { x.Some? && x.value > 0.0 }

  function AnchorFor(core: Core, expected: Expected): Option<real> {
    if core.model.InitialCashPeak? then expected.initialEquity else None
  }

  predicate HeaderFits(e: Evidence, expected: Expected) {
    var core := e.core;
    var anchored := core.model.InitialCashPeak?;
    && |core.points| >= (if anchored then 1 else 2)
    && core.constantsHold && core.complete && !core.model.OtherModel?
    && expected.curve.Some? && CleanCurve(expected.curve.value)
    && |expected.curve.value| == |core.points|
    && Fraction(expected.maxDrawdown) && Above(expected.initialEquity) && Above(expected.finalEquity)
    && Fraction(core.maxDrawdown)
    && core.pointCount == Some(|core.points|) && core.observationCount == Some(|core.points|)
    && core.issues == [] && core.curveOnly == !anchored
    && (anchored ==> core.initialCash == expected.initialEquity)
    && e.fingerprint == core
  }

  predicate WellFormed(p: Point, k: nat, row: Row) {
    && p.exactFields && p.index == Some(k) && p.stamp == Some(row.stamp)
    && Above(p.equity) && Above(p.peak) && Fraction(p.drawdown) && Close(p.equity.value, row.equity)
  }

  function Given(points: seq<Point>): (r: seq<real>)
    ensures |r| == |points|
    ensures forall k :: 0 <= k < |points| ==> r[k] > 0.0
    ensures forall k :: 0 <= k < |points| && Above(points[k].equity) ==> r[k] == points[k].equity.value
  {
    seq(|points|, k requires 0 <= k < |points| => if Above(points[k].equity) then points[k].equity.value else 1.0)
  }

  predicate PointFits(anchor: Option<real>, points: seq<Point>, rows: seq<Row>, k: nat)
    requires k < |points| == |rows|
  {
    var peak := PositivePeak(anchor, Given(points), k);
    && WellFormed(points[k], k, rows[k])
    && Close(points[k].peak.value, peak)
    && Close(points[k].drawdown.value, DeclineAt(anchor, Given(points), k))
  }

  predicate AllFit(anchor: Option<real>, points: seq<Point>, rows: seq<Row>, n: nat)
    requires n <= |points| == |rows|
  {
    n == 0 || (AllFit(anchor, points, rows, n - 1) && PointFits(anchor, points, rows, n - 1))
  }

  lemma {:induction false} AllFitAt(anchor: Option<real>, points: seq<Point>, rows: seq<Row>, n: nat, k: nat)
    requires k < n <= |points| == |rows| && AllFit(anchor, points, rows, n)
    ensures PointFits(anchor, points, rows, k)
  {
    if k < n - 1 {
      AllFitAt(anchor, points, rows, n - 1, k);
    }
  }

  /** What the validator accepts. */
  predicate Accepted(value: Option<Evidence>, expected: Expected) {
    && value.Some? && HeaderFits(value.value, expected)
    && var core, rows := value.value.core, Parsed(expected.curve.value);
       var points, last := core.points, |core.points| - 1;
    && AllFit(AnchorFor(core, expected), points, rows, |points|)
    && (core.model.InitialCashPeak? || Close(Given(points)[0], expected.initialEquity.value))
    && Close(Given(points)[last], expected.finalEquity.value)
    && Largest(Reported(points)) == core.maxDrawdown.value
    && Close(core.maxDrawdown.value, expected.maxDrawdown.value)
  }

  method NormalizedCurve(raws: seq<RawRow>) returns (rows: Option<seq<Row>>)
    ensures rows == if CleanCurve(raws) then Some(Parsed(raws)) else None
  {
    hide CleanCurve;
    var normalized: seq<Row> := [];
    for i := 0 to |raws|
      invariant normalized == Parsed(raws[..i]) && RowIssues(raws[..i]) == []
    {
      ParsedStep(raws, i);
      var parsed := EquityRow(raws[i]);
      if parsed.None? || (normalized != [] && parsed.value.stamp.at <= normalized[|normalized| - 1].stamp.at) {
        IssueMeansUnclean(raws, i + 1);
        return None;
      }
      normalized := normalized + [parsed.value];
    }
    assert raws[..|raws|] == raws;
    NoIssueMeansClean(raws);
    rows := Some(normalized);
  }

  lemma IssueMeansUnclean(raws: seq<RawRow>, i: nat)
    requires i <= |raws| && RowIssues(raws[..i]) != []
    ensures !CleanCurve(raws)
  {
    hide CleanCurve, RowIssues;
    IssuesStay(raws, i);
    NoIssueMeansClean(raws);
  }

  lemma {:induction false} IssuesStay(raws: seq<RawRow>, i: nat)
    requires i <= |raws| && RowIssues(raws[..i]) != []
    ensures RowIssues(raws) != []
  {
    if i < |raws| {
      assert raws[..|raws| - 1][..i] == raws[..i];
      IssuesStay(raws[..|raws| - 1], i);
    } else {
      assert raws[..i] == raws;
    }
  }

  /** One point of the replay, against the peak before it; answers with the peak after it. */
  method ReplayPoint(anchor: Option<real>, peak: Option<real>, points: seq<Point>, rows: seq<Row>, i: nat)
    returns (ok: bool, high: real)
    requires |points| == |rows| && i < |points| && Increasing(rows) && Anchored(anchor)
    requires peak == if i == 0 then anchor else Some(Peak(anchor, Given(points)[..i]))
    requires i > 0 ==> points[i - 1].stamp == Some(rows[i - 1].stamp)
    ensures ok == PointFits(anchor, points, rows, i)
    ensures ok ==> high == Peak(anchor, Given(points)[..i + 1])
  {
    var p := points[i];
    if !p.exactFields || p.index != Some(i) || p.stamp.None?
       || (i > 0 && p.stamp.value.at <= points[i - 1].stamp.value.at)
       || !Above(p.equity) || !Above(p.peak) || !Fraction(p.drawdown)
       || p.stamp.value != rows[i].stamp || !Close(p.equity.value, rows[i].equity)
    {
      return false, 0.0;
    }
    var equity := p.equity.value;
    PeakStep(anchor, Given(points), i);
    high := if peak.None? then equity else Max(peak.value, equity);
    assert high == PositivePeak(anchor, Given(points), i);
    ok := Close(p.peak.value, high) && Close(p.drawdown.value, Decline(high, equity));
  }

  lemma FitMeans(anchor: Option<real>, points: seq<Point>, rows: seq<Row>, k: nat)
    requires k < |points| == |rows| && PointFits(anchor, points, rows, k)
    ensures points[k].stamp == Some(rows[k].stamp)
    ensures points[k].drawdown.Some? && Reported(points)[k] == points[k].drawdown.value
  {
  }

  lemma LargestStep(xs: seq<real>, i: nat)
    requires i < |xs|
    ensures Largest(xs[..i + 1]) == Max(Largest(xs[..i]), xs[i])
  {
    assert xs[..i + 1][..i] == xs[..i];
  }

  /** The replay: a running peak over the reported equities. */
  method Replay(anchor: Option<real>, points: seq<Point>, rows: seq<Row>) returns (ok: bool, largest: real)
    requires |points| == |rows| && Anchored(anchor) && Increasing(rows)
    ensures ok == AllFit(anchor, points, rows, |points|)
    ensures ok ==> largest == Largest(Reported(points))
  {
    var peak := anchor;
    largest := 0.0;
    for i := 0 to |points|
      invariant peak == if i == 0 then anchor else Some(Peak(anchor, Given(points)[..i]))
      invariant AllFit(anchor, points, rows, i)
      invariant i > 0 ==> points[i - 1].stamp == Some(rows[i - 1].stamp)
      invariant largest == Largest(Reported(points)[..i])
    {
      var fits, high := ReplayPoint(anchor, peak, points, rows, i);
      if !fits {
        if AllFit(anchor, points, rows, |points|) {
          AllFitAt(anchor, points, rows, |points|, i);
        }
        return false, 0.0;
      }
      FitMeans(anchor, points, rows, i);
      LargestStep(Reported(points), i);
      largest := Max(largest, points[i].drawdown.value);
      peak := Some(high);
    }
    assert Reported(points)[..|points|] == Reported(points);
    ok := true;
  }

  method Validate(value: Option<Evidence>, expected: Expected) returns (ok: bool)
    ensures ok == Accepted(value, expected)
  {
    if value.None? || expected.curve.None? {
      return false;
    }
    var core := value.value.core;
    var rows := NormalizedCurve(expected.curve.value);
    if rows.None? || !HeaderFits(value.value, expected) {
      return false;
    }
    var fits, largest := Replay(AnchorFor(core, expected), core.points, rows.value);
    if !fits {
      return false;
    }
    AllFitAt(AnchorFor(core, expected), core.points, rows.value, |core.points|, 0);
    AllFitAt(AnchorFor(core, expected), core.points, rows.value, |core.points|, |core.points| - 1);
    ok := (core.model.InitialCashPeak? || Close(core.points[0].equity.value, expected.initialEquity.value))
          && Close(core.points[|core.points| - 1].equity.value, expected.finalEquity.value)
          && largest == core.maxDrawdown.value
          && Close(core.maxDrawdown.value, expected.maxDrawdown.value);
  }

  // ---------------------------------------------------------------- what acceptance means

  /** The least ratio of a level to one accepted for it, when no level is below the floor: accepted
      levels overshoot by at most the tolerance of the larger of the two. */
  function Over(floor: real): (r: real)
    requires floor > 0.0
    ensures 0.0 < r < 1.0
  {
    QuotientTimes(floor, floor + UNIT);
    RatioBounds(floor, floor + UNIT);
    var r := floor / (floor + UNIT);
    if r <= 1.0 - UNIT then r else 1.0 - UNIT
  }

  /** The least ratio of an accepted level to the level it stands for. */
  function Under(floor: real): (r: real)
    requires floor > 0.0
    ensures 0.0 <= r < 1.0
  {
    if floor >= 1.0 then 1.0 - UNIT
    else if floor > UNIT then ProperRatio(UNIT, floor); 1.0 - UNIT / floor
    else 0.0
  }

  lemma ProperRatio(a: real, b: real)
    requires 0.0 < a < b
    ensures 0.0 < a / b < 1.0
  {
    QuotientTimes(a, b);
    CancelStrict(0.0, a / b, b);
    CancelStrict(a / b, 1.0, b);
  }

  /** Above the level by no more than one unit: the ratio is least at the floor. */
  lemma OverByUnit(q: real, e: real, floor: real)
    requires 0.0 < floor <= e < q <= e + UNIT
    ensures floor / (floor + UNIT) * q <= e
  {
    var ratio, rest := floor / (floor + UNIT), e - floor;
    QuotientTimes(floor, floor + UNIT);
    ProperRatio(floor, floor + UNIT);
    Shrinks(ratio, rest);
    assert ratio * (floor + UNIT + rest) == ratio * (floor + UNIT) + ratio * rest;
    Scales(ratio, q, floor + UNIT + rest);
  }

  lemma ShrunkBelow(u: real, x: real, y: real)
    requires Factor(u) && 0.0 < x <= y
    ensures u * x <= y
  {
    Shrinks(u, x);
  }

  lemma SmallerBelow(u: real, v: real, x: real, y: real)
    requires 0.0 < x && u <= v && v * x <= y
    ensures u * x <= y
  {
    Scales(x, u, v);
  }

  lemma OverHolds(q: real, e: real, floor: real)
    requires 0.0 < floor <= e && 0.0 < q && Close(q, e)
    ensures Over(floor) * q <= e
  {
    var r := Over(floor);
    if q <= e {
      ShrunkBelow(r, q, e);
    } else if q >= 1.0 {
      CloseAbove(e, q);
      SmallerBelow(r, 1.0 - UNIT, q, e);
    } else {
      OverByUnit(q, e, floor);
      SmallerBelow(r, floor / (floor + UNIT), q, e);
    }
  }

  /** From one unit of cash on, the tolerance is a part of the larger level. */
  lemma CloseAbove(small: real, large: real)
    requires 0.0 < small < large && 1.0 <= large && (Close(small, large) || Close(large, small))
    ensures (1.0 - UNIT) * large <= small
  {
    assert Max(Abs(small), Abs(large)) == large && large * UNIT >= UNIT;
    assert large - small <= large * UNIT;
    assert (1.0 - UNIT) * large == large - large * UNIT;
  }

  /** A unit is the larger part of the floor than of any level above it. */
  lemma UnderByUnit(e: real, floor: real)
    requires UNIT < floor <= e
    ensures (1.0 - UNIT / floor) * e <= e - UNIT
  {
    var w := UNIT / floor;
    QuotientTimes(UNIT, floor);
    ProperRatio(UNIT, floor);
    Scales(w, floor, e);
    assert (1.0 - w) * e == e - w * e;
  }

  lemma UnderBelowOne(floor: real)
    requires 0.0 < floor
    ensures Under(floor) <= 1.0 - UNIT
  {
    if UNIT < floor < 1.0 {
      var w := UNIT / floor;
      QuotientTimes(UNIT, floor);
      ProperRatio(UNIT, floor);
      Scales(w, floor, 1.0);
    }
  }

  lemma UnderHolds(q: real, e: real, floor: real)
    requires 0.0 < floor <= e && 0.0 < q && Close(q, e)
    ensures Under(floor) * e <= q
  {
    var u := Under(floor);
    if q >= e {
      ShrunkBelow(u, e, q);
    } else if e >= 1.0 {
      UnderBelowOne(floor);
      CloseAbove(q, e);
      SmallerBelow(u, 1.0 - UNIT, e, q);
    } else if floor > UNIT {
      UnderByUnit(e, floor);
    }
  }

  /** Closeness to a level that is not below the floor is nearness in both factors. */
  lemma CloseIsNear(q: real, e: real, floor: real)
    requires 0.0 < floor <= e && 0.0 < q && Close(q, e)
    ensures Near(q, e, Over(floor), Under(floor))
  {
    OverHolds(q, e, floor);
    UnderHolds(q, e, floor);
  }

  predicate NotBelow(rows: seq<Row>, floor: real) {
    forall k :: 0 <= k < |rows| ==> rows[k].equity >= floor
  }

  lemma GivenIsNear(anchor: Option<real>, points: seq<Point>, rows: seq<Row>, floor: real)
    requires |points| == |rows| && AllFit(anchor, points, rows, |points|)
    requires floor > 0.0 && NotBelow(rows, floor)
    ensures AllNear(Given(points), Equities(rows), Over(floor), Under(floor))
  {
    forall k | 0 <= k < |points| ensures Near(Given(points)[k], Equities(rows)[k], Over(floor), Under(floor)) {
      AllFitAt(anchor, points, rows, |points|, k);
      CloseIsNear(Given(points)[k], rows[k].equity, floor);
    }
  }

  lemma CloseFractions(x: real, y: real)
    requires 0.0 <= x < 1.0 && 0.0 <= y < 1.0 && Close(x, y)
    ensures Abs(x - y) <= UNIT
  {
  }

  lemma ReportIsClose(anchor: Option<real>, points: seq<Point>, rows: seq<Row>, k: nat)
    requires k < |points| == |rows| && AllFit(anchor, points, rows, |points|)
    ensures Abs(Reported(points)[k] - DeclineAt(anchor, Given(points), k)) <= UNIT
  {
    AllFitAt(anchor, points, rows, |points|, k);
    var peak := PositivePeak(anchor, Given(points), k);
    DeclineBounds(peak, Given(points)[k]);
    FitMeans(anchor, points, rows, k);
    CloseFractions(points[k].drawdown.value, DeclineAt(anchor, Given(points), k));
  }

  /** The true maximum is the number the expected equities lead to. */
  lemma TrueMaximum(anchor: Option<real>, levels: seq<real>, d: real)
    requires Positive(levels) && levels != [] && Positive(Levels(anchor, levels))
    requires IsMaxDrawdown(Levels(anchor, levels), d)
    ensures d == MaxDrawdown(anchor, levels)
  {
    MaxDrawdownIsMax(anchor, levels);
    MaxDrawdownIsUnique(Levels(anchor, levels), d, MaxDrawdown(anchor, levels));
  }

  /** The first reported drawdowns are close to the declines of the given equities. */
  predicate ReportsClose(anchor: Option<real>, reported: seq<real>, given: seq<real>, n: nat)
    requires n <= |reported| == |given| && Positive(given)
  {
    n == 0
    || (ReportsClose(anchor, reported, given, n - 1)
        && Abs(reported[n - 1] - DeclineAt(anchor, given, n - 1)) <= UNIT)
  }

  lemma {:induction false} FitsReportClose(anchor: Option<real>, points: seq<Point>, rows: seq<Row>, n: nat)
    requires n <= |points| == |rows| && AllFit(anchor, points, rows, |points|)
    ensures ReportsClose(anchor, Reported(points), Given(points), n)
  {
    if n > 0 {
      FitsReportClose(anchor, points, rows, n - 1);
      ReportIsClose(anchor, points, rows, n - 1);
    }
  }

  lemma MaxDrawdownStep(anchor: Option<real>, levels: seq<real>, n: nat)
    requires n < |levels| && Positive(levels)
    ensures MaxDrawdown(anchor, levels[..n + 1]) == Max(MaxDrawdown(anchor, levels[..n]), DeclineAt(anchor, levels, n))
  {
    assert levels[..n + 1][..n] == levels[..n];
    DeclineAtFront(anchor, levels, n + 1, n);
  }

  lemma {:induction false} ReportedMaximum(anchor: Option<real>, reported: seq<real>, given: seq<real>, n: nat)
    requires n <= |reported| == |given| && Positive(given) && ReportsClose(anchor, reported, given, n)
    ensures Abs(Largest(reported[..n]) - MaxDrawdown(anchor, given[..n])) <= UNIT
  {
    if n > 0 {
      hide MaxDrawdown, Largest, DeclineAt, Max;
      ReportedMaximum(anchor, reported, given, n - 1);
      LargestStep(reported, n - 1);
      MaxDrawdownStep(anchor, given, n - 1);
      MaxClose(Largest(reported[..n - 1]), reported[n - 1],
               MaxDrawdown(anchor, given[..n - 1]), DeclineAt(anchor, given, n - 1), UNIT);
    }
  }

  lemma Triangle(a: real, b: real, c: real, x: real, y: real)
    requires Abs(a - b) <= x && Abs(b - c) <= y
    ensures Abs(a - c) <= x + y
  {
  }

  /** What the rest of the proof needs of acceptance. */
  lemma AcceptedMeans(value: Option<Evidence>, expected: Expected)
    requires Accepted(value, expected)
    ensures var core, rows := value.value.core, Parsed(expected.curve.value);
            && |core.points| == |rows| > 0 && Anchored(AnchorFor(core, expected))
            && Positive(Equities(rows))
            && AllFit(AnchorFor(core, expected), core.points, rows, |core.points|)
            && Abs(expected.maxDrawdown.value - Largest(Reported(core.points))) <= UNIT
  {
  }

  lemma AcceptedReport(value: Option<Evidence>, expected: Expected)
    requires Accepted(value, expected)
    ensures var core := value.value.core;
            Abs(Largest(Reported(core.points)) - MaxDrawdown(AnchorFor(core, expected), Given(core.points))) <= UNIT
  {
    FitsReportClose(AnchorFor(value.value.core, expected), value.value.core.points,
                    Parsed(expected.curve.value), |value.value.core.points|);
    WholeReportedMaximum(AnchorFor(value.value.core, expected), Reported(value.value.core.points),
                         Given(value.value.core.points));
  }

  lemma WholeReportedMaximum(anchor: Option<real>, reported: seq<real>, given: seq<real>)
    requires |reported| == |given| && Positive(given) && ReportsClose(anchor, reported, given, |given|)
    ensures Abs(Largest(reported) - MaxDrawdown(anchor, given)) <= UNIT
  {
    ReportedMaximum(anchor, reported, given, |given|);
    assert reported[..|given|] == reported && given[..|given|] == given;
  }

  /** One unit at each of the two comparisons of drawdowns, and what two factors lose. */
  function Slack(s: real, t: real): real { 2.0 * UNIT + (1.0 - s * t) }

  /** The most an expected drawdown can be off when no expected equity is below the floor. */
  function Bound(floor: real): real
    requires floor > 0.0
  {
    Slack(Over(floor), Under(floor))
  }

  /** Two comparisons lie between the expected drawdown and the maximum of the reported equities. */
  lemma AcceptedIsNearGiven(value: Option<Evidence>, expected: Expected)
    requires Accepted(value, expected)
    ensures var core := value.value.core;
            Abs(expected.maxDrawdown.value - MaxDrawdown(AnchorFor(core, expected), Given(core.points))) <= 2.0 * UNIT
  {
    AcceptedMeans(value, expected);
    AcceptedReport(value, expected);
    var core := value.value.core;
    Triangle(expected.maxDrawdown.value, Largest(Reported(core.points)),
             MaxDrawdown(AnchorFor(core, expected), Given(core.points)), UNIT, UNIT);
  }

  lemma NearGivenIsNear(x: real, anchor: Option<real>, given: seq<real>, equities: seq<real>, s: real, t: real)
    requires Positive(given) && Positive(equities) && Anchored(anchor) && Factor(s) && Factor(t)
    requires AllNear(given, equities, s, t) && Abs(x - MaxDrawdown(anchor, given)) <= 2.0 * UNIT
    ensures Abs(x - MaxDrawdown(anchor, equities)) <= Slack(s, t)
  {
    DrawdownMovesLittle(anchor, given, equities, s, t);
    Triangle(x, MaxDrawdown(anchor, given), MaxDrawdown(anchor, equities), 2.0 * UNIT, 1.0 - s * t);
  }

  /** And the reported equities are near those of the expected curve, in factors `s` and `t`. */
  lemma AcceptedIsNearMaximum(value: Option<Evidence>, expected: Expected, s: real, t: real)
    requires Accepted(value, expected) && Factor(s) && Factor(t)
    requires AllNear(Given(value.value.core.points), Equities(Parsed(expected.curve.value)), s, t)
    ensures var rows := Parsed(expected.curve.value);
            Positive(Equities(rows))
            && Abs(expected.maxDrawdown.value - MaxDrawdown(AnchorFor(value.value.core, expected), Equities(rows)))
               <= Slack(s, t)
  {
    AcceptedMeans(value, expected);
    AcceptedIsNearGiven(value, expected);
    NearGivenIsNear(expected.maxDrawdown.value, AnchorFor(value.value.core, expected),
                    Given(value.value.core.points), Equities(Parsed(expected.curve.value)), s, t);
  }

  /** An accepted pair on a curve that is not below the floor, and the true maximum of that curve. */
  predicate Judged(value: Option<Evidence>, expected: Expected, d: real, floor: real) {
    && Accepted(value, expected) && NotBelow(Parsed(expected.curve.value), floor)
    && IsTrueMaximum(AnchorFor(value.value.core, expected), expected.curve.value, d)
  }

  /** Acceptance pins the expected drawdown down to the true maximum over all pairs of the expected
      curve, up to the bound of the floor. */
  lemma AcceptedWithinBound(value: Option<Evidence>, expected: Expected, d: real, floor: real)
    requires floor > 0.0 && Judged(value, expected, d, floor)
    ensures Abs(expected.maxDrawdown.value - d) <= Bound(floor)
  {
    JudgedIsNear(value, expected, floor);
    NearTrueMaximum(value, expected, d, Over(floor), Under(floor));
  }

  lemma JudgedIsNear(value: Option<Evidence>, expected: Expected, floor: real)
    requires Accepted(value, expected) && floor > 0.0 && NotBelow(Parsed(expected.curve.value), floor)
    ensures AllNear(Given(value.value.core.points), Equities(Parsed(expected.curve.value)), Over(floor), Under(floor))
  {
    AcceptedMeans(value, expected);
    GivenIsNear(AnchorFor(value.value.core, expected), value.value.core.points, Parsed(expected.curve.value), floor);
  }

  lemma NearTrueMaximum(value: Option<Evidence>, expected: Expected, d: real, s: real, t: real)
    requires Accepted(value, expected) && Factor(s) && Factor(t)
    requires IsTrueMaximum(AnchorFor(value.value.core, expected), expected.curve.value, d)
    requires AllNear(Given(value.value.core.points), Equities(Parsed(expected.curve.value)), s, t)
    ensures Abs(expected.maxDrawdown.value - d) <= Slack(s, t)
  {
    AcceptedMeans(value, expected);
    AcceptedIsNearMaximum(value, expected, s, t);
    TrueMaximum(AnchorFor(value.value.core, expected), Equities(Parsed(expected.curve.value)), d);
  }

  lemma FactorsBound(floor: real, s: real, delta: real)
    requires floor > 0.0 && UNIT <= delta && delta * floor >= UNIT && s == 1.0 - delta && Factor(s)
    ensures Over(floor) >= s && Under(floor) >= s
  {
    var r := floor / (floor + UNIT);
    QuotientTimes(floor, floor + UNIT);
    Shrinks(s, UNIT);
    assert s * (floor + UNIT) == floor - delta * floor + s * UNIT;
    Cancel(s, r, floor + UNIT);
    if UNIT < floor {
      QuotientTimes(UNIT, floor);
      Cancel(UNIT / floor, delta, floor);
    } else {
      Scales(floor, delta, 1.0);
    }
  }

  lemma BoundIsRelative(floor: real, delta: real)
    requires floor > 0.0 && UNIT <= delta && delta * floor >= UNIT
    ensures Bound(floor) <= 2.0 * UNIT + 2.0 * delta
  {
    if delta <= 1.0 {
      var s := 1.0 - delta;
      FactorsBound(floor, s, delta);
      ProductsMonotone(s, Over(floor), s, Under(floor));
      TwiceTheLoss(s, delta);
    } else {
      ProductsMonotone(0.0, Over(floor), 0.0, Under(floor));
    }
  }

  /** The same bound in terms of `delta`, the relative error that the absolute tolerance amounts to when
      no expected equity is below `floor`. */
  lemma AcceptedDrawdownIsClose(value: Option<Evidence>, expected: Expected, floor: real, delta: real, d: real)
    requires Accepted(value, expected) && floor > 0.0 && NotBelow(Parsed(expected.curve.value), floor)
    requires delta >= UNIT && delta * floor >= UNIT
    requires IsTrueMaximum(AnchorFor(value.value.core, expected), expected.curve.value, d)
    ensures Abs(expected.maxDrawdown.value - d) <= 2.0 * UNIT + 2.0 * delta
  {
    AcceptedWithinBound(value, expected, d, floor);
    BoundIsRelative(floor, delta);
  }

  /** The greatest fall over all pairs of the curve, the anchor included when there is one. */
  predicate IsTrueMaximum(anchor: Option<real>, curve: seq<RawRow>, d: real) {
    var levels := Levels(anchor, Equities(Parsed(curve)));
    Positive(levels) && IsMaxDrawdown(levels, d)
  }

  /** For curves of at least one unit of cash: within 4e-9. */
  lemma AcceptedWithinFourUnits(value: Option<Evidence>, expected: Expected, d: real)
    requires Accepted(value, expected) && NotBelow(Parsed(expected.curve.value), 1.0)
    requires IsTrueMaximum(AnchorFor(value.value.core, expected), expected.curve.value, d)
    ensures Abs(expected.maxDrawdown.value - d) <= 0.000000004
  {
    AcceptedDrawdownIsClose(value, expected, 1.0, UNIT, d);
  }

  // ---------------------------------------------------------------- built evidence is accepted

  lemma CloseToItself(x: real)
    ensures Close(x, x)
  {
  }

  lemma BuiltPointsGive(anchor: Option<real>, rows: seq<Row>)
    requires Positive(Equities(rows))
    ensures Given(PointsOf(anchor, rows)) == Equities(rows)
  {
    forall k | 0 <= k < |rows| ensures Given(PointsOf(anchor, rows))[k] == Equities(rows)[k] {
      PointAt(anchor, rows, |rows|, k);
      assert Equities(rows)[k] > 0.0;
    }
  }

  lemma BuiltPointFits(anchor: Option<real>, rows: seq<Row>, k: nat)
    requires Positive(Equities(rows)) && k < |rows|
    ensures PointFits(anchor, PointsOf(anchor, rows), rows, k)
  {
    BuiltPointsGive(anchor, rows);
    PointAt(anchor, rows, |rows|, k);
    var peak := PositivePeak(anchor, Equities(rows), k);
    assert Equities(rows)[k] > 0.0;
    DeclineBounds(peak, rows[k].equity);
    CloseToItself(peak);
    CloseToItself(rows[k].equity);
    CloseToItself(DeclineAt(anchor, Equities(rows), k));
  }

  lemma {:induction false} BuiltPointsFit(anchor: Option<real>, rows: seq<Row>, n: nat)
    requires Positive(Equities(rows)) && n <= |rows|
    ensures AllFit(anchor, PointsOf(anchor, rows), rows, n)
  {
    if n > 0 {
      BuiltPointsFit(anchor, rows, n - 1);
      BuiltPointFits(anchor, rows, n - 1);
    }
  }

  /** The summaries of the built evidence's own curve. */
  function OwnSummaries(raws: seq<RawRow>, cash: InitialCash): Expected
    requires Built(raws, cash).core.complete
  {
    CompleteIff(raws, cash);
    var rows := Parsed(raws);
    Expected(Built(raws, cash).core.maxDrawdown, Some(raws),
             if cash.Some? then AnchorOf(cash) else Some(rows[0].equity), Some(rows[|rows| - 1].equity))
  }

  lemma BuiltHeaderFits(raws: seq<RawRow>, cash: InitialCash)
    requires Built(raws, cash).core.complete
    ensures HeaderFits(Built(raws, cash), OwnSummaries(raws, cash))
    ensures AnchorFor(Built(raws, cash).core, OwnSummaries(raws, cash)) == UsableAnchor(cash)
  {
    CompleteIff(raws, cash);
    DrawdownIsFraction(UsableAnchor(cash), Equities(Parsed(raws)));
  }

  /** Every complete evidence the builder makes is accepted for its own curve and summaries. */
  lemma BuiltEvidenceIsAccepted(raws: seq<RawRow>, cash: InitialCash)
    requires Built(raws, cash).core.complete
    ensures Accepted(Some(Built(raws, cash)), OwnSummaries(raws, cash))
  {
    BuiltHeaderFits(raws, cash);
    var rows, anchor := Parsed(raws), UsableAnchor(cash);
    BuiltPointsFit(anchor, rows, |rows|);
    BuiltPointsGive(anchor, rows);
    BuiltDrawdown(anchor, rows);
    CloseToItself(rows[0].equity);
    CloseToItself(rows[|rows| - 1].equity);
    CloseToItself(Built(raws, cash).core.maxDrawdown.value);
  }

  // ---------------------------------------------------------------- the bound is exact

  function FlatCurve(x: real): seq<RawRow> {
    [RawRow(Some(Stamp(0, 0)), Some(x)), RawRow(Some(Stamp(1, 0)), Some(x))]
  }

  function FlatRows(x: real): seq<Row> { [Row(Stamp(0, 0), x), Row(Stamp(1, 0), x)] }

  function PointAtPeak(k: nat, equity: real, peak: real, drawdown: real): Point {
    Point(Some(k), Some(Stamp(k, 0)), Some(equity), Some(peak), Some(drawdown), true)
  }

  /** Evidence of a fall from `high` to `low`, reported one unit too large. */
  function FallEvidence(high: real, low: real, reported: real): Evidence {
    var points := [PointAtPeak(0, high, high, 0.0), PointAtPeak(1, low, high, reported)];
    var core := Core(true, RunningPeak, None, Some(2), Some(2), Some(reported), points, [], true, true);
    Evidence(core, core)
  }

  lemma FlatParses(x: real)
    requires x > 0.0
    ensures Parsed(FlatCurve(x)) == FlatRows(x) && CleanCurve(FlatCurve(x))
  {
    var raws := FlatCurve(x);
    assert raws[..1] == [raws[0]] && raws[..1][..0] == [];
    assert Parsed(raws[..1]) == [Row(Stamp(0, 0), x)];
  }

  lemma FlatMaximum(x: real)
    requires x > 0.0
    ensures IsTrueMaximum(None, FlatCurve(x), 0.0)
  {
    FlatParses(x);
    SelfDecline(x);
    var levels := Levels(None, Equities(FlatRows(x)));
    assert levels == [x, x];
    assert 0.0 == Decline(levels[0], levels[0]);
  }

  lemma FallFits(high: real, low: real, reported: real, x: real)
    requires x > 0.0 && 0.0 < low <= high && Close(high, x) && Close(low, x)
    requires reported == Decline(high, low) + UNIT < 1.0
    ensures AllFit(None, FallEvidence(high, low, reported).core.points, FlatRows(x), 2)
    ensures Given(FallEvidence(high, low, reported).core.points) == [high, low]
    ensures Largest(Reported(FallEvidence(high, low, reported).core.points)) == reported
  {
    var points, rows := FallEvidence(high, low, reported).core.points, FlatRows(x);
    assert Given(points) == [high, low] && Reported(points) == [0.0, reported];
    PeakStep(None, Given(points), 0);
    PeakStep(None, Given(points), 1);
    DeclineBounds(high, low);
    SelfDecline(high);
    assert PointFits(None, points, rows, 0) && PointFits(None, points, rows, 1);
    assert AllFit(None, points, rows, 1);
    LargestStep([0.0, reported], 0);
    LargestStep([0.0, reported], 1);
    assert [0.0, reported][..0] == [] && [0.0, reported][..2] == [0.0, reported];
  }

  /** On a flat curve a fall can be reported whose levels are close to it, and two more units. */
  lemma FallAccepted(high: real, low: real, x: real)
    requires x > 0.0 && 0.0 < low <= high && Close(high, x) && Close(low, x)
    requires Decline(high, low) + 2.0 * UNIT < 1.0
    ensures Judged(Some(FallEvidence(high, low, Decline(high, low) + UNIT)),
                   Expected(Some(Decline(high, low) + 2.0 * UNIT), Some(FlatCurve(x)), Some(x), Some(x)), 0.0, x)
  {
    DeclineBounds(high, low);
    FlatParses(x);
    FlatMaximum(x);
    FallFits(high, low, Decline(high, low) + UNIT, x);
  }

  lemma StretchIsClose(x: real, high: real)
    requires x > 0.0 && high > 0.0 && high * (1.0 - UNIT) == x
    ensures high >= x && Close(high, x)
  {
    assert high * (1.0 - UNIT) == high - high * UNIT;
  }

  /** The highest level that is close to `x`. */
  lemma Highest(x: real) returns (high: real)
    requires x > 0.0
    ensures high * Over(x) == x && high >= x && Close(high, x)
  {
    if Over(x) == 1.0 - UNIT {
      high := x / (1.0 - UNIT);
      QuotientTimes(x, 1.0 - UNIT);
      StretchIsClose(x, high);
    } else {
      high := x + UNIT;
      QuotientTimes(x, x + UNIT);
    }
  }

  lemma PositiveProduct(a: real, b: real)
    requires 0.0 < a && 0.0 < b
    ensures 0.0 < a * b
  {
  }

  /** The lowest level that is close to `x`. */
  lemma Lowest(x: real) returns (low: real)
    requires x > 0.0 && Under(x) > 0.0
    ensures low == Under(x) * x && 0.0 < low <= x && Close(low, x)
  {
    var t := Under(x);
    low := t * x;
    Shrinks(t, x);
    PositiveProduct(t, x);
    if x >= 1.0 {
      assert t * x == x - UNIT * x;
    } else {
      QuotientTimes(UNIT, x);
      assert t * x == x - UNIT / x * x;
    }
  }

  lemma FallIsLoss(x: real, s: real, t: real, high: real, low: real)
    requires x > 0.0 && high > 0.0 && high * s == x && low == t * x
    ensures Decline(high, low) == 1.0 - s * t
  {
    var r, w := low / high, s * t;
    QuotientTimes(low, high);
    assert w * high == t * (high * s);
    Cancel(r, w, high);
    Cancel(w, r, high);
    DeclineIsOneMinusRatio(high, low);
  }

  /** Some accepted evidence on a curve that is not below the floor is off by exactly `error`. */
  ghost predicate Attained(floor: real, error: real) {
    exists value: Option<Evidence>, expected: Expected, d: real ::
      Judged(value, expected, d, floor) && expected.maxDrawdown.value - d == error
  }

  lemma AttainedOnFlatCurve(high: real, low: real, x: real, loss: real)
    requires x > 0.0 && 0.0 < low <= high && Close(high, x) && Close(low, x)
    requires loss == Decline(high, low) && loss + 2.0 * UNIT < 1.0
    ensures Attained(x, loss + 2.0 * UNIT)
  {
    FallAccepted(high, low, x);
    var expected := Expected(Some(loss + 2.0 * UNIT), Some(FlatCurve(x)), Some(x), Some(x));
    assert Judged(Some(FallEvidence(high, low, loss + UNIT)), expected, 0.0, x);
  }

  lemma UnderIsPositive(floor: real)
    requires floor > 0.0 && Bound(floor) < 1.0
    ensures Under(floor) > 0.0
  {
    var s, t := Over(floor), Under(floor);
    assert t == 0.0 ==> s * t == 0.0;
  }

  lemma AttainedWith(floor: real, s: real, t: real, high: real, low: real)
    requires floor > 0.0 && high * s == floor && high >= floor && Close(high, floor)
    requires low == t * floor && 0.0 < low <= floor && Close(low, floor) && Slack(s, t) < 1.0
    ensures Attained(floor, Slack(s, t))
  {
    FallIsLoss(floor, s, t, high, low);
    AttainedOnFlatCurve(high, low, floor, 1.0 - s * t);
  }

  /** The bound is attained at every floor where it says anything. */
  lemma BoundIsAttained(floor: real)
    requires floor > 0.0 && Bound(floor) < 1.0
    ensures Attained(floor, Bound(floor))
  {
    hide Over, Under, Close, Attained;
    UnderIsPositive(floor);
    var high := Highest(floor);
    var low := Lowest(floor);
    AttainedWith(floor, Over(floor), Under(floor), high, low);
  }

  /** Acceptance never lets the expected drawdown be off by more than this. */
  ghost predicate AlwaysWithin(floor: real, error: real) {
    forall value: Option<Evidence>, expected: Expected, d: real ::
      Judged(value, expected, d, floor) ==> Abs(expected.maxDrawdown.value - d) <= error
  }

  /** What acceptance guarantees on curves that are not below a floor: exactly the bound. */
  lemma BoundIsExact(floor: real, error: real)
    requires floor > 0.0 && Bound(floor) < 1.0
    ensures AlwaysWithin(floor, error) <==> Bound(floor) <= error
  {
    if Bound(floor) <= error {
      BoundHolds(floor, error);
    } else {
      BoundIsAttained(floor);
    }
  }

  lemma BoundHolds(floor: real, error: real)
    requires floor > 0.0 && Bound(floor) <= error
    ensures AlwaysWithin(floor, error)
  {
    forall value: Option<Evidence>, expected: Expected, d: real | Judged(value, expected, d, floor)
      ensures Abs(expected.maxDrawdown.value - d) <= error
    {
      AcceptedWithinBound(value, expected, d, floor);
    }
  }

  lemma LowerFloor(floor: real, higher: real, error: real)
    requires floor <= higher && AlwaysWithin(floor, error)
    ensures AlwaysWithin(higher, error)
  {
    forall value: Option<Evidence>, expected: Expected, d: real | Judged(value, expected, d, higher)
      ensures Abs(expected.maxDrawdown.value - d) <= error
    {
      assert Judged(value, expected, d, floor);
    }
  }

  lemma OverNearOne(floor: real)
    requires floor > 0.0
    ensures floor >= 1.0 - UNIT ==> Over(floor) == 1.0 - UNIT
    ensures floor < 1.0 - UNIT ==> Over(floor) * (floor + UNIT) == floor
  {
    var r := floor / (floor + UNIT);
    QuotientTimes(floor, floor + UNIT);
    if floor >= 1.0 - UNIT {
      Cancel(1.0 - UNIT, r, floor + UNIT);
    } else {
      Cancel(r, 1.0 - UNIT, floor + UNIT);
    }
  }

  /** From one unit below one unit of cash on, four units are enough. */
  lemma EnoughAbove(floor: real)
    requires floor >= 1.0 - UNIT
    ensures Bound(floor) <= 4.0 * UNIT
  {
    OverNearOne(floor);
    var t := Under(floor);
    if floor < 1.0 {
      var w := UNIT / floor;
      QuotientTimes(UNIT, floor);
      ProperRatio(UNIT, floor);
      Scales(w, 1.0 - UNIT, floor);
      assert (1.0 - UNIT) * t == 1.0 - UNIT - w * (1.0 - UNIT);
    } else {
      assert (1.0 - UNIT) * t == 1.0 - 2.0 * UNIT + UNIT * UNIT;
    }
  }

  /** Below that they are not; and from half a unit of cash on the bound says something. */
  lemma TooMuchBelow(floor: real)
    requires 0.5 <= floor < 1.0 - UNIT
    ensures 4.0 * UNIT < Bound(floor) < 1.0
  {
    OverNearOne(floor);
    var s, t, w := Over(floor), Under(floor), UNIT / floor;
    QuotientTimes(UNIT, floor);
    LossTimes(s, t, w, floor);
    CancelStrict(s * t, 1.0 - 2.0 * UNIT, floor + UNIT);
    CancelStrict(2.0 * UNIT, s * t, floor + UNIT);
  }

  lemma LossTimes(s: real, t: real, w: real, floor: real)
    requires s * (floor + UNIT) == floor && w * floor == UNIT && t == 1.0 - w
    ensures s * t * (floor + UNIT) == floor - UNIT
  {
    calc {
      s * t * (floor + UNIT);
      t * (s * (floor + UNIT));
      t * floor;
      floor - w * floor;
    }
  }

  /** Acceptance is within four units for every curve that is not below a floor exactly when that floor
      is at least one unit of cash, less one unit of tolerance. */
  lemma FourUnitsIff(floor: real)
    requires floor > 0.0
    ensures AlwaysWithin(floor, 4.0 * UNIT) <==> floor >= 1.0 - UNIT
  {
    if floor >= 1.0 - UNIT {
      EnoughAbove(floor);
      BoundHolds(floor, 4.0 * UNIT);
    } else if AlwaysWithin(floor, 4.0 * UNIT) {
      var higher := Max(floor, 0.5);
      TooMuchBelow(higher);
      LowerFloor(floor, higher, 4.0 * UNIT);
      BoundIsExact(higher, 4.0 * UNIT);
    }
  }

  // ---------------------------------------------------------------- below one unit of cash

  const TINY_CURVE := [RawRow(Some(Stamp(0, 0)), Some(0.000000002)), RawRow(Some(Stamp(1, 0)), Some(0.000000001))]

  function FlatPoint(k: nat): Point {
    Point(Some(k), Some(Stamp(k, 0)), Some(0.0000000015), Some(0.0000000015), Some(0.0), true)
  }

  /** The floor is needed: on a curve far below one unit of cash, flat evidence is accepted with
      drawdown zero although the curve loses half. */
  lemma TinyCurvesHideDrawdown()
    ensures exists value: Option<Evidence>, expected: Expected, d: real ::
              Accepted(value, expected) && value.value.core.model.RunningPeak?
              && IsHalf(expected, d) && expected.maxDrawdown == Some(0.0)
  {
    var points := [FlatPoint(0), FlatPoint(1)];
    var core := Core(true, RunningPeak, None, Some(2), Some(2), Some(0.0), points, [], true, true);
    var expected := Expected(Some(0.0), Some(TINY_CURVE), Some(0.000000002), Some(0.000000001));
    TinyParses();
    TinyFits(points, Parsed(TINY_CURVE));
    assert Reported(points) == [0.0, 0.0];
    assert Accepted(Some(Evidence(core, core)), expected);
    assert IsHalf(expected, 0.5);
  }

  predicate IsHalf(expected: Expected, d: real) {
    && d == 0.5 && expected.curve.Some?
    && var rows := Parsed(expected.curve.value);
       |rows| == 2 && Decline(rows[0].equity, rows[1].equity) == d
  }

  lemma TinyParses()
    ensures Parsed(TINY_CURVE) == [Row(Stamp(0, 0), 0.000000002), Row(Stamp(1, 0), 0.000000001)]
    ensures CleanCurve(TINY_CURVE)
  {
  }

  lemma TinyFits(points: seq<Point>, rows: seq<Row>)
    requires points == [FlatPoint(0), FlatPoint(1)]
    requires rows == [Row(Stamp(0, 0), 0.000000002), Row(Stamp(1, 0), 0.000000001)]
    ensures AllFit(None, points, rows, 2)
  {
    assert Given(points) == [0.0000000015, 0.0000000015];
    SelfDecline(0.0000000015);
    PeakStep(None, Given(points), 0);
    PeakStep(None, Given(points), 1);
    assert PointFits(None, points, rows, 0) && PointFits(None, points, rows, 1);
    assert AllFit(None, points, rows, 1);
  }
}
