/** What a passing report means. */
module ReconciliationTheorems {
  import opened LifecycleValues
  import opened Statement
  import opened Reconciliation

  predicate AllPassed(items: seq<Item>) {
    items == [] || (items[|items| - 1].status.Passed? && AllPassed(items[..|items| - 1]))
  }

  lemma {:induction false} WorstPasses(items: seq<Item>)
    ensures Worst(items).Passed? <==> AllPassed(items)
  {
    if items != [] {
      WorstPasses(items[..|items| - 1]);
    }
  }

  lemma {:induction false} NothingUnresolved(items: seq<Item>)
    ensures Unresolved(items) == 0 <==> AllPassed(items)
  {
    if items != [] {
      NothingUnresolved(items[..|items| - 1]);
    }
  }

  lemma {:induction false} AllPassedAppend(a: seq<Item>, b: seq<Item>)
    ensures AllPassed(a + b) <==> AllPassed(a) && AllPassed(b)
  {
    if b == [] {
      assert a + b == a;
    } else {
      AllPassedAppend(a, b[..|b| - 1]);
      assert (a + b)[..|a + b| - 1] == a + b[..|b| - 1];
    }
  }

  // ---------------------------------------------------------------- items that stay passed

  predicate Ambiguous(known: seq<(Token, AssetClass)>, symbol: Token) {
    symbol != 0 && |Candidates(known, symbol)| > 1
  }

  /** Every item passes and none is about a symbol with several asset classes. */
  predicate Clear(items: seq<Item>, known: seq<(Token, AssetClass)>) {
    items == []
    || (Clear(items[..|items| - 1], known)
        && items[|items| - 1].status.Passed? && !Ambiguous(known, items[|items| - 1].symbol))
  }

  lemma {:induction false} ClearAppend(a: seq<Item>, b: seq<Item>, known: seq<(Token, AssetClass)>)
    ensures Clear(a + b, known) <==> Clear(a, known) && Clear(b, known)
  {
    if b == [] {
      assert a + b == a;
    } else {
      ClearAppend(a, b[..|b| - 1], known);
      assert (a + b)[..|a + b| - 1] == a + b[..|b| - 1];
    }
  }

  lemma ClearOne(item: Item, known: seq<(Token, AssetClass)>)
    ensures Clear([item], known) <==> item.status.Passed? && !Ambiguous(known, item.symbol)
  {
  }

  lemma ClassifyOnePasses(item: Item, candidates: set<AssetClass>)
    ensures AllPassed(ClassifyOne(item, candidates))
            <==> item.status.Passed? && !(item.symbol != 0 && |candidates| > 1)
  {
  }

  lemma {:induction false} ClassifyPasses(items: seq<Item>, known: seq<(Token, AssetClass)>)
    ensures AllPassed(Classify(items, known)) <==> Clear(items, known)
  {
    if items != [] {
      var front, last := items[..|items| - 1], items[|items| - 1];
      ClassifyPasses(front, known);
      ClassifyOnePasses(last, Candidates(known, last.symbol));
      AllPassedAppend(Classify(front, known), ClassifyOne(last, Candidates(known, last.symbol)));
    }
  }

  // ---------------------------------------------------------------- each group of items

  predicate Within(broker: real, local: real, tolerance: real) { Abs(broker - local) <= tolerance }

  predicate PartsWithin(b: Components, l: Components) {
    && Within(b.gross, l.gross, MONEY_TOLERANCE) && Within(b.net, l.net, MONEY_TOLERANCE)
    && Within(b.fee, l.fee, MONEY_TOLERANCE) && Within(b.tax, l.tax, MONEY_TOLERANCE)
    && Within(b.transferFee, l.transferFee, MONEY_TOLERANCE)
  }

  predicate PositionHolds(snapshot: map<Token, BrokerFact>, holding: map<Token, PositionFact>, s: Token) {
    Within(BrokerQuantity(snapshot, s), LocalQuantity(holding, s), QUANTITY_TOLERANCE)
  }

  predicate CostHolds(snapshot: map<Token, BrokerFact>, costed: map<Token, PositionFact>, s: Token) {
    Within(CostValue(CostOf(snapshot, s)), Value(LocalCost(costed, s)), CostToleranceOf(snapshot, costed, s))
  }

  lemma {:induction false} PositionItemsClear(
      snapshot: map<Token, BrokerFact>, holding: map<Token, PositionFact>, symbols: seq<Token>, known: seq<(Token, AssetClass)>)
    ensures Clear(PositionItems(snapshot, holding, symbols), known)
            <==> forall s :: s in symbols ==> PositionHolds(snapshot, holding, s) && !Ambiguous(known, s)
  {
    if symbols != [] {
      var front, last := symbols[..|symbols| - 1], symbols[|symbols| - 1];
      PositionItemsClear(snapshot, holding, front, known);
      assert last in symbols && forall s :: s in symbols <==> s in front || s == last;
      ClearAppend(PositionItems(snapshot, holding, front), [PositionItemOf(snapshot, holding, last)], known);
      ClearOne(PositionItemOf(snapshot, holding, last), known);
    }
  }

  lemma {:induction false} CostItemsClear(
      snapshot: map<Token, BrokerFact>, costed: map<Token, PositionFact>, symbols: seq<Token>, known: seq<(Token, AssetClass)>)
    ensures Clear(CostItems(snapshot, costed, symbols), known)
            <==> forall s :: s in symbols ==> CostHolds(snapshot, costed, s) && !Ambiguous(known, s)
  {
    if symbols != [] {
      var front, last := symbols[..|symbols| - 1], symbols[|symbols| - 1];
      CostItemsClear(snapshot, costed, front, known);
      assert last in symbols && forall s :: s in symbols <==> s in front || s == last;
      ClearAppend(CostItems(snapshot, costed, front), [CostItemOf(snapshot, costed, last)], known);
      ClearOne(CostItemOf(snapshot, costed, last), known);
    }
  }

  lemma OneTradeClear(b: Components, l: Components, symbol: Token, known: seq<(Token, AssetClass)>)
    ensures Clear(TradeItemsOf(b, l, symbol), known) <==> PartsWithin(b, l) && !Ambiguous(known, symbol)
  {
    var items := TradeItemsOf(b, l, symbol);
    assert items == [items[0]] + [items[1]] + [items[2]] + [items[3]] + [items[4]];
    ClearAppend([items[0]] + [items[1]] + [items[2]] + [items[3]], [items[4]], known);
    ClearAppend([items[0]] + [items[1]] + [items[2]], [items[3]], known);
    ClearAppend([items[0]] + [items[1]], [items[2]], known);
    ClearAppend([items[0]], [items[1]], known);
    ClearOne(items[0], known);
    ClearOne(items[1], known);
    ClearOne(items[2], known);
    ClearOne(items[3], known);
    ClearOne(items[4], known);
  }

  lemma {:induction false} TradeItemsClear(
      broker: seq<Option<Trade>>, ledger: seq<Option<Trade>>, symbols: seq<Token>, known: seq<(Token, AssetClass)>)
    ensures Clear(TradeItems(broker, ledger, symbols), known)
            <==> forall s :: s in symbols ==> PartsWithin(PartOf(broker, s), PartOf(ledger, s)) && !Ambiguous(known, s)
  {
    if symbols != [] {
      var front, symbol := symbols[..|symbols| - 1], symbols[|symbols| - 1];
      assert symbol in symbols && forall s :: s in symbols <==> s in front || s == symbol;
      TradeItemsClear(broker, ledger, front, known);
      OneTradeClear(PartOf(broker, symbol), PartOf(ledger, symbol), symbol, known);
      ClearAppend(TradeItems(broker, ledger, front), TradeItemsOf(PartOf(broker, symbol), PartOf(ledger, symbol), symbol), known);
    }
  }

  lemma UncoveredClear(covered: seq<AssetClass>, classes: seq<AssetClass>, known: seq<(Token, AssetClass)>)
    ensures Clear(UncoveredItems(covered, classes), known) <==> classes == []
  {
  }

  // ---------------------------------------------------------------- the whole report

  predicate CashHolds(books: Books) {
    HasCashSnapshot(books.broker) && Within(Value(LatestCash(books.broker)), Value(books.balance), MONEY_TOLERANCE)
  }

  predicate FeesHold(books: Books) {
    Within(Fees(books.broker).0, LedgerFees(books.ledger).0, MONEY_TOLERANCE)
    && Within(Fees(books.broker).1, LedgerFees(books.ledger).1, MONEY_TOLERANCE)
  }

  predicate Identified(books: Books, symbols: set<Token>) {
    forall s :: s in symbols ==> !Ambiguous(Known(books), s)
  }

  predicate PositionsHold(books: Books) {
    forall s :: s in PositionSymbols(books) ==> PositionHolds(Snapshot(books.broker), Holding(ScopeOf(books)), s)
  }

  predicate CostsHold(books: Books) {
    forall s :: s in CostSymbols(books) ==> CostHolds(Snapshot(books.broker), Costed(ScopeOf(books)), s)
  }

  predicate TradesHold(books: Books) {
    forall s :: s in TradeSymbols(books) ==>
      PartsWithin(PartOf(BrokerTrades(books.broker), s), PartOf(LedgerTrades(books.ledger), s))
  }

  /** What "pass" has to mean: both snapshots are there and cover every held class, every comparison is
      within its tolerance, and no compared symbol has two asset classes. */
  predicate Reconciled(books: Books) {
    && HasPositionSnapshot(books.broker) && Uncovered(books) == {}
    && CashHolds(books) && FeesHold(books) && PositionsHold(books) && CostsHold(books) && TradesHold(books)
    && Identified(books, PositionSymbols(books) + TradeSymbols(books) + CostSymbols(books))
  }

  lemma CashClear(books: Books)
    ensures Clear([CashPart(books)], Known(books)) <==> CashHolds(books)
  {
  }

  lemma FeeClear(books: Books)
    ensures Clear(FeePart(books), Known(books)) <==> FeesHold(books)
  {
    var items := FeePart(books);
    assert items == [items[0]] + [items[1]];
    ClearAppend([items[0]], [items[1]], Known(books));
    ClearOne(items[0], Known(books));
    ClearOne(items[1], Known(books));
  }

  lemma PositionClear(books: Books)
    ensures Clear(PositionPart(books), Known(books))
            <==> HasPositionSnapshot(books.broker) && Uncovered(books) == {} && PositionsHold(books)
                 && Identified(books, PositionSymbols(books))
  {
    var known := Known(books);
    if HasPositionSnapshot(books.broker) {
      var snapshot, holding := Snapshot(books.broker), Holding(ScopeOf(books));
      var symbols := Sorted(PositionSymbols(books));
      SortedElements(PositionSymbols(books));
      PositionItemsClear(snapshot, holding, symbols, known);
      var covered, uncovered := Sorted(Covered(books.broker)), Sorted(Uncovered(books));
      UncoveredClear(covered, uncovered, known);
      ClearAppend(PositionItems(snapshot, holding, symbols), UncoveredItems(covered, uncovered), known);
    } else {
      ClearOne(Missing(PositionItem), known);
    }
  }

  lemma TradeClear(books: Books)
    ensures Clear(TradePart(books), Known(books)) <==> TradesHold(books) && Identified(books, TradeSymbols(books))
  {
    SortedElements(TradeSymbols(books));
    TradeItemsClear(BrokerTrades(books.broker), LedgerTrades(books.ledger), Sorted(TradeSymbols(books)), Known(books));
  }

  lemma CostClear(books: Books)
    requires HasPositionSnapshot(books.broker)
    ensures Clear(CostPart(books), Known(books)) <==> CostsHold(books) && Identified(books, CostSymbols(books))
  {
    SortedElements(CostSymbols(books));
    CostItemsClear(Snapshot(books.broker), Costed(ScopeOf(books)), Sorted(CostSymbols(books)), Known(books));
  }

  lemma ItemsClear(books: Books)
    ensures Clear(Items(books), Known(books))
            <==> Clear([CashPart(books)], Known(books)) && Clear(PositionPart(books), Known(books))
                 && Clear(TradePart(books), Known(books)) && Clear(FeePart(books), Known(books))
                 && Clear(CostPart(books), Known(books))
  {
    var known := Known(books);
    var a := [CashPart(books)];
    ClearAppend(a, PositionPart(books), known);
    ClearAppend(a + PositionPart(books), TradePart(books), known);
    ClearAppend(a + PositionPart(books) + TradePart(books), FeePart(books), known);
    ClearAppend(a + PositionPart(books) + TradePart(books) + FeePart(books), CostPart(books), known);
  }

  lemma ClearMeansReconciled(books: Books)
    ensures Clear(Items(books), Known(books)) <==> Reconciled(books)
  {
    ItemsClear(books);
    CashClear(books);
    PositionClear(books);
    TradeClear(books);
    FeeClear(books);
    if HasPositionSnapshot(books.broker) {
      CostClear(books);
    }
  }

  /** A report passes exactly when the books reconcile. */
  lemma PassMeansReconciled(books: Books)
    ensures ReportOf(books).status.Passed? <==> Reconciled(books)
  {
    if books.broker == [] {
      assert !HasCashSnapshot(books.broker);
    } else {
      WorstPasses(Classify(Items(books), Known(books)));
      ClassifyPasses(Items(books), Known(books));
      ClearMeansReconciled(books);
    }
  }

  /** Something is to be done exactly when something is unresolved. */
  lemma {:induction false} NothingToDo(items: seq<Item>)
    ensures Actions(items) == [] <==> AllPassed(items)
  {
    if items != [] {
      NothingToDo(items[..|items| - 1]);
    }
  }

  lemma {:induction false} ClassifyKeepsSome(items: seq<Item>, known: seq<(Token, AssetClass)>)
    ensures |Classify(items, known)| >= |items|
  {
    if items != [] {
      ClassifyKeepsSome(items[..|items| - 1], known);
    }
  }

  /** The account lane repeats the report, and nothing is unresolved exactly when it passes. */
  lemma AccountLaneRepeatsReport(books: Books)
    ensures var report := ReportOf(books);
            && report.account == Lane(Some(report.status), |report.items|, report.unresolved)
            && (report.unresolved == 0 <==> report.status.Passed?)
            && (report.actions == [] <==> report.status.Passed?)
  {
    var report := ReportOf(books);
    if books.broker == [] {
      assert report.items[..0] == [];
    } else {
      ClassifyKeepsSome(Items(books), Known(books));
      assert |Items(books)| >= 1;
    }
    WorstPasses(report.items);
    NothingUnresolved(report.items);
    NothingToDo(report.items);
  }
}
