/** The account-truth score and its gate. */
module Score {
  import opened LifecycleValues
  import opened Reconciliation
  import opened ReconciliationTheorems

  datatype Freshness = Fresh | Stale | Absent

  datatype ReviewStatus = Accepted | IgnoredDifference | KnownDifference | OtherReview

  /** What a review is bound to: an item's key, and its facts with their context (the fingerprint leaves
      out the asset class alone). */
  datatype ItemKey = ItemKey(category: Category, symbol: Token)
  datatype Review = Review(key: ItemKey, status: ReviewStatus, facts: Item)

  function KeyOf(item: Item): ItemKey { ItemKey(item.category, item.symbol) }
  function FactsOf(item: Item): Item { item.(assetClass := 0) }

  datatype Gate = GatePass | GateDegraded | GateBlocked

  datatype Reason = BlockedReport | MissingEvidence | UnresolvedDifference(category: Category)

  datatype Limitation = StaleEvidence | UnresolvedEvidence

  datatype TruthScore = TruthScore(
    score: int, gate: Gate, cash: ItemStatus, position: ItemStatus, fee: ItemStatus, cost: ItemStatus,
    freshness: Freshness, unresolved: nat, resolved: nat, actions: seq<Action>, reasons: seq<Reason>,
    limitations: seq<Limitation>)

  // ---------------------------------------------------------------- reviews

  /** The last review of each key. */
  function ByItem(reviews: seq<Review>): map<ItemKey, Review> {
    if reviews == [] then map[]
    else ByItem(reviews[..|reviews| - 1])[reviews[|reviews| - 1].key := reviews[|reviews| - 1]]
  }

  /** Only a warning can be resolved, by a review of exactly its facts. */
  predicate Resolved(item: Item, reviews: map<ItemKey, Review>) {
    && !item.status.Mismatched? && !item.status.Stopped?
    && KeyOf(item) in reviews && !reviews[KeyOf(item)].status.OtherReview? && reviews[KeyOf(item)].facts == FactsOf(item)
  }

  function UnresolvedItems(items: seq<Item>, reviews: map<ItemKey, Review>): seq<Item> {
    if items == [] then []
    else
      var last := items[|items| - 1];
      UnresolvedItems(items[..|items| - 1], reviews)
      + if !last.status.Passed? && !Resolved(last, reviews) then [last] else []
  }

  function ResolvedCount(items: seq<Item>, reviews: map<ItemKey, Review>): nat {
    if items == [] then 0
    else
      var last := items[|items| - 1];
      ResolvedCount(items[..|items| - 1], reviews) + if !last.status.Passed? && Resolved(last, reviews) then 1 else 0
  }

  function Mismatches(items: seq<Item>): nat {
    if items == [] then 0
    else Mismatches(items[..|items| - 1]) + if items[|items| - 1].status.Mismatched? then 1 else 0
  }

  // ---------------------------------------------------------------- score, reasons, gate

  function StatusPenalty(status: ItemStatus): int {
    match status
    case Warned => 15
    case Mismatched => 40
    case _ => 0
  }

  function FreshnessPenalty(freshness: Freshness): int {
    match freshness
    case Fresh => 0
    case Stale => 20
    case Absent => 35
  }

  function Clamp(value: int): int { if value < 0 then 0 else if value > 100 then 100 else value }

  function ScoreOf(status: ItemStatus, mismatches: nat, freshness: Freshness): int {
    if status.Stopped? then 0
    else Clamp(100 - StatusPenalty(status) - FreshnessPenalty(freshness) - 10 * mismatches)
  }

  function ItemReasons(status: ItemStatus, items: seq<Item>): seq<Reason> {
    if items == [] then []
    else
      var before, last := ItemReasons(status, items[..|items| - 1]), items[|items| - 1];
      if (last.status.Mismatched? || status.Stopped?) && UnresolvedDifference(last.category) !in before
      then before + [UnresolvedDifference(last.category)] else before
  }

  function Reasons(status: ItemStatus, items: seq<Item>, freshness: Freshness): seq<Reason> {
    (if status.Stopped? then [BlockedReport] else [])
    + (if freshness.Absent? then [MissingEvidence] else [])
    + ItemReasons(status, items)
  }

  function GateOf(score: int, reasons: seq<Reason>): Gate {
    if reasons != [] || score < 60 then GateBlocked else if score < 90 then GateDegraded else GatePass
  }

  function InCategories(items: seq<Item>, categories: set<Category>): seq<Item> {
    if items == [] then []
    else
      InCategories(items[..|items| - 1], categories)
      + if items[|items| - 1].category in categories then [items[|items| - 1]] else []
  }

  /** The worst status of the items of these categories; nothing to say is a pass. */
  function StatusIn(items: seq<Item>, categories: set<Category>): ItemStatus {
    Worst(InCategories(items, categories))
  }

  function Limitations(unresolved: seq<Item>, freshness: Freshness): seq<Limitation> {
    When(!freshness.Fresh?, StaleEvidence) + When(unresolved != [], UnresolvedEvidence)
  }

  function TruthOf(report: Report, reviews: seq<Review>, freshness: Freshness): TruthScore {
    var unresolved := UnresolvedItems(report.items, ByItem(reviews));
    var score := ScoreOf(report.status, Mismatches(unresolved), freshness);
    var reasons := Reasons(report.status, unresolved, freshness);
    TruthScore(score, GateOf(score, reasons),
               StatusIn(report.items, {CashItem}), StatusIn(report.items, {PositionItem}),
               StatusIn(report.items, {FeeItem, TaxItem, TransferItem}), StatusIn(report.items, {CostItem}),
               freshness, |unresolved|, ResolvedCount(report.items, ByItem(reviews)), Actions(unresolved), reasons,
               Limitations(unresolved, freshness))
  }

  /** `_score`: one value, lowered step by step. */
  method LowerScore(status: ItemStatus, unresolved: seq<Item>, freshness: Freshness) returns (value: int)
    ensures value == ScoreOf(status, Mismatches(unresolved), freshness)
  {
    if status.Stopped? {
      return 0;
    }
    value := 100;
    if status.Warned? {
      value := value - 15;
    }
    if status.Mismatched? {
      value := value - 40;
    }
    if freshness.Stale? {
      value := value - 20;
    }
    if freshness.Absent? {
      value := value - 35;
    }
    var mismatches := 0;
    for i := 0 to |unresolved|
      invariant mismatches == Mismatches(unresolved[..i])
    {
      assert unresolved[..i + 1][..i] == unresolved[..i];
      if unresolved[i].status.Mismatched? {
        mismatches := mismatches + 1;
      }
    }
    assert unresolved[..|unresolved|] == unresolved;
    value := Clamp(value - 10 * mismatches);
  }

  method CollectReasons(status: ItemStatus, unresolved: seq<Item>, freshness: Freshness) returns (reasons: seq<Reason>)
    ensures reasons == Reasons(status, unresolved, freshness)
  {
    var head := (if status.Stopped? then [BlockedReport] else []) + (if freshness.Absent? then [MissingEvidence] else []);
    var tail: seq<Reason> := [];
    for i := 0 to |unresolved|
      invariant tail == ItemReasons(status, unresolved[..i])
    {
      assert unresolved[..i + 1][..i] == unresolved[..i];
      var reason := UnresolvedDifference(unresolved[i].category);
      if (unresolved[i].status.Mismatched? || status.Stopped?) && reason !in tail {
        tail := tail + [reason];
      }
    }
    assert unresolved[..|unresolved|] == unresolved;
    reasons := head + tail;
  }

  method BuildScore(report: Report, reviews: seq<Review>, freshness: Freshness) returns (truth: TruthScore)
    ensures truth == TruthOf(report, reviews, freshness)
  {
    var byItem := ByItem(reviews);
    var unresolved := UnresolvedItems(report.items, byItem);
    var reasons := CollectReasons(report.status, unresolved, freshness);
    var score := LowerScore(report.status, unresolved, freshness);
    var actions := UniqueActions(unresolved);
    var limitations := if freshness.Fresh? then [] else [StaleEvidence];
    if unresolved != [] {
      limitations := limitations + [UnresolvedEvidence];
    }
    assert limitations == Limitations(unresolved, freshness);
    truth := TruthScore(
      score, GateOf(score, reasons), StatusIn(report.items, {CashItem}), StatusIn(report.items, {PositionItem}),
      StatusIn(report.items, {FeeItem, TaxItem, TransferItem}), StatusIn(report.items, {CostItem}),
      freshness, |unresolved|, ResolvedCount(report.items, byItem), actions, reasons, limitations);
  }

  // ---------------------------------------------------------------- reviews do not move the gate

  lemma MismatchesNext(items: seq<Item>, item: Item)
    ensures Mismatches(items + [item]) == Mismatches(items) + if item.status.Mismatched? then 1 else 0
  {
    assert (items + [item])[..|items|] == items;
  }

  /** No review removes a mismatch. */
  lemma {:induction false} ReviewsKeepMismatches(items: seq<Item>, reviews: map<ItemKey, Review>)
    ensures Mismatches(UnresolvedItems(items, reviews)) == Mismatches(items)
  {
    if items != [] {
      var front, last := items[..|items| - 1], items[|items| - 1];
      ReviewsKeepMismatches(front, reviews);
      UnresolvedNext(front, last, reviews);
      assert items == front + [last];
      MismatchesNext(front, last);
      MismatchesNext(UnresolvedItems(front, reviews), last);
    }
  }

  lemma UnresolvedNext(front: seq<Item>, last: Item, reviews: map<ItemKey, Review>)
    ensures UnresolvedItems(front + [last], reviews)
            == if !last.status.Passed? && !Resolved(last, reviews) then UnresolvedItems(front, reviews) + [last]
               else UnresolvedItems(front, reviews)
  {
    assert (front + [last])[..|front|] == front;
  }

  lemma {:induction false} ReasonsNeedMismatch(status: ItemStatus, items: seq<Item>)
    requires !status.Stopped?
    ensures ItemReasons(status, items) == [] <==> Mismatches(items) == 0
  {
    if items != [] {
      ReasonsNeedMismatch(status, items[..|items| - 1]);
    }
  }

  lemma {:induction false} AnyMismatchCounts(items: seq<Item>)
    ensures Any(items, Mismatched) <==> Mismatches(items) > 0
  {
    if items != [] {
      AnyMismatchCounts(items[..|items| - 1]);
    }
  }

  /** Reports the reconciler builds: the status is the worst of the items. */
  lemma ReportStatusIsWorst(books: Books)
    ensures ReportOf(books).status == Worst(ReportOf(books).items)
  {
  }

  /** Score and gate, for any reviews: functions of the report and the freshness alone. */
  lemma ScoreAndGate(report: Report, reviews: seq<Review>, freshness: Freshness)
    requires report.status == Worst(report.items)
    ensures TruthOf(report, reviews, freshness).score == ScoreOf(report.status, Mismatches(report.items), freshness)
    ensures TruthOf(report, reviews, freshness).gate
            == if report.status.Passed? && freshness.Fresh? then GatePass
               else if report.status.Stopped? || report.status.Mismatched? || freshness.Absent? then GateBlocked
               else GateDegraded
  {
    var unresolved := UnresolvedItems(report.items, ByItem(reviews));
    ReviewsKeepMismatches(report.items, ByItem(reviews));
    AnyMismatchCounts(report.items);
    if !report.status.Stopped? {
      ReasonsNeedMismatch(report.status, unresolved);
    }
  }

  /** For reports the reconciler builds no review moves the score or the gate. */
  lemma ReviewsDoNotMoveTheGate(books: Books, some: seq<Review>, others: seq<Review>, freshness: Freshness)
    ensures var report := ReportOf(books);
            TruthOf(report, some, freshness).score == TruthOf(report, others, freshness).score
            && TruthOf(report, some, freshness).gate == TruthOf(report, others, freshness).gate
  {
    ReportStatusIsWorst(books);
    ScoreAndGate(ReportOf(books), some, freshness);
    ScoreAndGate(ReportOf(books), others, freshness);
  }

  /** The gate opens exactly for reconciled books and fresh data. */
  lemma GateOpensOnReconciledBooks(books: Books, reviews: seq<Review>, freshness: Freshness)
    ensures TruthOf(ReportOf(books), reviews, freshness).gate.GatePass? <==> Reconciled(books) && freshness.Fresh?
  {
    ReportStatusIsWorst(books);
    ScoreAndGate(ReportOf(books), reviews, freshness);
    PassMeansReconciled(books);
  }

  /** A review answers for one context: warnings of one key that are resolved together say the same. */
  lemma ReviewsResolveOneContext(a: Item, b: Item, reviews: map<ItemKey, Review>)
    requires Resolved(a, reviews) && Resolved(b, reviews) && KeyOf(a) == KeyOf(b)
    ensures a.context == b.context && FactsOf(a) == FactsOf(b)
  {
  }

  lemma {:induction false} Balanced(items: seq<Item>, reviews: map<ItemKey, Review>)
    ensures |UnresolvedItems(items, reviews)| + ResolvedCount(items, reviews) == Unresolved(items)
  {
    if items != [] {
      Balanced(items[..|items| - 1], reviews);
    }
  }

  /** Reviews only move items from the unresolved count to the resolved one. */
  lemma ReviewsMoveOnlyCounts(books: Books, reviews: seq<Review>, freshness: Freshness)
    ensures var truth := TruthOf(ReportOf(books), reviews, freshness);
            truth.unresolved + truth.resolved == ReportOf(books).unresolved
  {
    Balanced(ReportOf(books).items, ByItem(reviews));
    if books.broker == [] {
      assert [NO_EVIDENCE][..0] == [];
      assert Unresolved([NO_EVIDENCE]) == 1;
    }
  }

  lemma {:induction false} PassedLeavesNothing(items: seq<Item>, reviews: map<ItemKey, Review>, categories: set<Category>)
    requires AllPassed(items)
    ensures UnresolvedItems(items, reviews) == [] && AllPassed(InCategories(items, categories))
  {
    if items != [] {
      PassedLeavesNothing(items[..|items| - 1], reviews, categories);
      AllPassedAppend(InCategories(items[..|items| - 1], categories),
                      if items[|items| - 1].category in categories then [items[|items| - 1]] else []);
    }
  }

  lemma PassedStatus(items: seq<Item>, reviews: map<ItemKey, Review>, categories: set<Category>)
    requires AllPassed(items)
    ensures StatusIn(items, categories).Passed?
  {
    PassedLeavesNothing(items, reviews, categories);
    WorstPasses(InCategories(items, categories));
  }

  /** An open gate leaves nothing to say: every category passes, and there is no action, no reason and no
      limitation. */
  lemma OpenGateIsClean(books: Books, reviews: seq<Review>, freshness: Freshness)
    requires TruthOf(ReportOf(books), reviews, freshness).gate.GatePass?
    ensures var truth := TruthOf(ReportOf(books), reviews, freshness);
            && truth.cash.Passed? && truth.position.Passed? && truth.fee.Passed? && truth.cost.Passed?
            && truth.unresolved == 0 && truth.actions == [] && truth.reasons == [] && truth.limitations == []
  {
    var items, byItem := ReportOf(books).items, ByItem(reviews);
    ReportStatusIsWorst(books);
    ScoreAndGate(ReportOf(books), reviews, freshness);
    WorstPasses(items);
    PassedLeavesNothing(items, byItem, {});
    PassedStatus(items, byItem, {CashItem});
    PassedStatus(items, byItem, {PositionItem});
    PassedStatus(items, byItem, {FeeItem, TaxItem, TransferItem});
    PassedStatus(items, byItem, {CostItem});
  }
}
