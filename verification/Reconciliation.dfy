/** The reconciliation of staged broker evidence with the local ledger. */
module Reconciliation {
  import opened LifecycleValues
  import opened Statement

  const MONEY_TOLERANCE := 0.005
  const QUANTITY_TOLERANCE := 0.000001

  /** Asset classes; 0 is none given.  Exchange-traded and open-end funds are funds. */
  type AssetClass = nat
  const STOCK: AssetClass := 1
  const FUND: AssetClass := 2
  const CASH: AssetClass := 3
  const ACCOUNT: AssetClass := 4
  const UNKNOWN: AssetClass := 5
  const ETF: AssetClass := 6
  const OPEN_END_FUND: AssetClass := 7

  function Normal(c: AssetClass): AssetClass { if c == ETF || c == OPEN_END_FUND then FUND else c }

  /** A decimal and how many places it is shown with. */
  datatype Shown = Shown(value: real, places: nat)

  datatype CostMethod = BrokerRemainingCost | OtherMethod(token: nat)

  datatype BrokerFact = BrokerFact(
    kind: Kind, symbol: Token, assetClass: AssetClass, cash: Option<real>, position: Option<real>,
    cost: Option<Shown>, costMethod: CostMethod, gross: real, net: real, fee: real, tax: real, transferFee: real)

  datatype LedgerFact = LedgerFact(
    kind: Kind, symbol: Token, assetClass: AssetClass, quantity: real, price: real, gross: real, net: real,
    fee: real, tax: real, transferFee: real)

  datatype PositionFact = PositionFact(
    symbol: Token, quantity: real, cost: Option<real>, costMethod: CostMethod, assetClass: AssetClass)

  /** Everything one report compares. */
  datatype Books = Books(
    broker: seq<BrokerFact>, ledger: seq<LedgerFact>, balance: Option<real>, positions: seq<PositionFact>)

  datatype Category =
    | ImportItem | CashItem | PositionItem | GrossItem | NetItem | FeeItem | TaxItem | TransferItem | CostItem

  datatype ItemStatus = Passed | Warned | Mismatched | Stopped

  /** How the tolerance of a cost basis follows the places the broker shows. */
  datatype Display = Display(places: nat, tolerance: real, rawDifference: real)

  /** What an item says about how it was compared. */
  datatype Context =
    | NoContext
    | ScopeContext(covered: seq<AssetClass>, uncovered: AssetClass)
    | CostContext(broker: CostMethod, local: CostMethod, display: Option<Display>)
    | ConflictContext(within: Context, classes: seq<AssetClass>)

  datatype Item = Item(
    category: Category, status: ItemStatus, broker: real, local: real, difference: real, symbol: Token,
    assetClass: AssetClass, context: Context)

  datatype Action =
    | ImportEvidence | ProvideCashSnapshot | ProvidePositionSnapshot | ReviewIdentity
    | ReviewDifference(category: Category)

  /** The status is None when there was nothing to evaluate. */
  datatype Lane = Lane(status: Option<ItemStatus>, itemCount: nat, unresolved: nat)

  datatype Report = Report(
    status: ItemStatus, cashDifference: real, feeDifference: real, taxDifference: real, unresolved: nat,
    actions: seq<Action>, items: seq<Item>, stock: Lane, fund: Lane, cash: Lane, account: Lane)

  // ---------------------------------------------------------------- trade components by symbol

  datatype Components = Components(gross: real, net: real, fee: real, tax: real, transferFee: real)
  const ZERO := Components(0.0, 0.0, 0.0, 0.0, 0.0)

  function Plus(a: Components, b: Components): Components {
    Components(a.gross + b.gross, a.net + b.net, a.fee + b.fee, a.tax + b.tax, a.transferFee + b.transferFee)
  }

  datatype Trade = Trade(symbol: Token, parts: Components)

  predicate IsTrade(kind: Kind, symbol: Token) { (kind.TradeBuy? || kind.TradeSell?) && symbol != 0 }

  function BrokerTrade(f: BrokerFact): Option<Trade> {
    if IsTrade(f.kind, f.symbol) then Some(Trade(f.symbol, Components(f.gross, f.net, f.fee, f.tax, f.transferFee)))
    else None
  }

  /** A ledger row without a gross amount counts quantity times price. */
  function LedgerTrade(f: LedgerFact): Option<Trade> {
    if IsTrade(f.kind, f.symbol) then
      Some(Trade(f.symbol, Components(if f.gross != 0.0 then f.gross else f.quantity * f.price, f.net, f.fee, f.tax,
                                      f.transferFee)))
    else None
  }

  function BrokerTrades(facts: seq<BrokerFact>): (r: seq<Option<Trade>>)
    ensures |r| == |facts|
  {
    seq(|facts|, i requires 0 <= i < |facts| => BrokerTrade(facts[i]))
  }

  function LedgerTrades(facts: seq<LedgerFact>): (r: seq<Option<Trade>>)
    ensures |r| == |facts|
  {
    seq(|facts|, i requires 0 <= i < |facts| => LedgerTrade(facts[i]))
  }

  /** Sum of the components of one symbol. */
  function PartOf(trades: seq<Option<Trade>>, symbol: Token): Components {
    if trades == [] then ZERO
    else
      var before, last := PartOf(trades[..|trades| - 1], symbol), trades[|trades| - 1];
      if last.Some? && last.value.symbol == symbol then Plus(before, last.value.parts) else before
  }

  predicate Trades(trades: seq<Option<Trade>>, symbol: Token) {
    exists i :: 0 <= i < |trades| && trades[i].Some? && trades[i].value.symbol == symbol
  }

  lemma TradesStep(trades: seq<Option<Trade>>, i: nat, symbol: Token)
    requires i < |trades|
    ensures Trades(trades[..i + 1], symbol)
            <==> Trades(trades[..i], symbol) || (trades[i].Some? && trades[i].value.symbol == symbol)
    ensures PartOf(trades[..i + 1], symbol)
            == if trades[i].Some? && trades[i].value.symbol == symbol
               then Plus(PartOf(trades[..i], symbol), trades[i].value.parts) else PartOf(trades[..i], symbol)
  {
    assert trades[..i + 1][..i] == trades[..i];
    if Trades(trades[..i], symbol) {
      var k :| 0 <= k < i && trades[k].Some? && trades[k].value.symbol == symbol;
      assert trades[..i + 1][k] == trades[k];
    }
    assert trades[..i + 1][i] == trades[i];
  }

  lemma {:induction false} NoTradeNoPart(trades: seq<Option<Trade>>, symbol: Token)
    requires !Trades(trades, symbol)
    ensures PartOf(trades, symbol) == ZERO
  {
    if trades != [] {
      var n := |trades| - 1;
      TradesStep(trades, n, symbol);
      assert trades[..n + 1] == trades;
      NoTradeNoPart(trades[..n], symbol);
    }
  }

  /** Both aggregation loops of the source are this one, on the trade part of each row. */
  method Aggregate(trades: seq<Option<Trade>>) returns (components: map<Token, Components>)
    ensures forall s :: s in components <==> Trades(trades, s)
    ensures forall s :: s in components ==> components[s] == PartOf(trades, s)
  {
    components := map[];
    for i := 0 to |trades|
      invariant forall s :: s in components <==> Trades(trades[..i], s)
      invariant forall s :: s in components ==> components[s] == PartOf(trades[..i], s)
    {
      forall s ensures Trades(trades[..i + 1], s) <==> Trades(trades[..i], s) || (trades[i].Some? && trades[i].value.symbol == s)
               ensures PartOf(trades[..i + 1], s)
                       == if trades[i].Some? && trades[i].value.symbol == s
                          then Plus(PartOf(trades[..i], s), trades[i].value.parts) else PartOf(trades[..i], s) {
        TradesStep(trades, i, s);
      }
      if trades[i].Some? {
        var trade := trades[i].value;
        if trade.symbol !in components {
          NoTradeNoPart(trades[..i], trade.symbol);
        }
        var known := if trade.symbol in components then components[trade.symbol] else ZERO;
        components := components[trade.symbol := Plus(known, trade.parts)];
      }
    }
    assert trades[..|trades|] == trades;
  }

  function ComponentsOf(components: map<Token, Components>, symbol: Token): Components {
    if symbol in components then components[symbol] else ZERO
  }

  // ---------------------------------------------------------------- what the evidence covers

  predicate HasCashSnapshot(broker: seq<BrokerFact>) {
    exists i :: 0 <= i < |broker| && broker[i].kind.CashSnapshot?
  }

  predicate HasPositionSnapshot(broker: seq<BrokerFact>) {
    exists i :: 0 <= i < |broker| && broker[i].kind.PositionSnapshot?
  }

  /** Asset classes some position snapshot speaks for. */
  function Covered(broker: seq<BrokerFact>): set<AssetClass> {
    set f | f in broker && f.kind.PositionSnapshot? && Normal(f.assetClass) != 0 :: Normal(f.assetClass)
  }

  function Uncovered(books: Books): set<AssetClass> {
    if Covered(books.broker) == {} then {}
    else
      set p | p in books.positions && Normal(p.assetClass) != 0 && Normal(p.assetClass) !in Covered(books.broker)
        :: Normal(p.assetClass)
  }

  predicate InCover(covered: set<AssetClass>, p: PositionFact) {
    covered == {} || Normal(p.assetClass) == 0 || Normal(p.assetClass) in covered
  }

  /** Positions outside the covered classes are not compared. */
  function InScope(covered: set<AssetClass>, positions: seq<PositionFact>): seq<PositionFact> {
    if positions == [] then []
    else
      InScope(covered, positions[..|positions| - 1])
      + if InCover(covered, positions[|positions| - 1]) then [positions[|positions| - 1]] else []
  }

  function ScopeOf(books: Books): seq<PositionFact> { InScope(Covered(books.broker), books.positions) }

  // ---------------------------------------------------------------- values by symbol (the last one wins)

  function LatestCash(broker: seq<BrokerFact>): Option<real> {
    if broker == [] then None
    else if broker[|broker| - 1].cash.Some? then broker[|broker| - 1].cash
    else LatestCash(broker[..|broker| - 1])
  }

  predicate Snapshots(f: BrokerFact) { f.kind.PositionSnapshot? && f.symbol != 0 }

  function Snapshot(broker: seq<BrokerFact>): map<Token, BrokerFact> {
    if broker == [] then map[]
    else
      var before, last := Snapshot(broker[..|broker| - 1]), broker[|broker| - 1];
      if Snapshots(last) then before[last.symbol := last] else before
  }

  function Holding(positions: seq<PositionFact>): map<Token, PositionFact> {
    if positions == [] then map[]
    else Holding(positions[..|positions| - 1])[positions[|positions| - 1].symbol := positions[|positions| - 1]]
  }

  /** Positions with a cost basis. */
  function Costed(positions: seq<PositionFact>): map<Token, PositionFact> {
    if positions == [] then map[]
    else
      var before, last := Costed(positions[..|positions| - 1]), positions[|positions| - 1];
      if last.cost.Some? then before[last.symbol := last] else before
  }

  function Value(x: Option<real>): real { if x.Some? then x.value else 0.0 }

  function Fees(broker: seq<BrokerFact>): (real, real) {
    if broker == [] then (0.0, 0.0)
    else
      var before, last := Fees(broker[..|broker| - 1]), broker[|broker| - 1];
      (before.0 + last.fee, before.1 + last.tax)
  }

  function LedgerFees(ledger: seq<LedgerFact>): (real, real) {
    if ledger == [] then (0.0, 0.0)
    else
      var before, last := LedgerFees(ledger[..|ledger| - 1]), ledger[|ledger| - 1];
      (before.0 + last.fee, before.1 + last.tax)
  }

  // ---------------------------------------------------------------- comparisons

  function Tolerance(category: Category): real {
    match category
    case CashItem | FeeItem | TaxItem | TransferItem | GrossItem | NetItem => MONEY_TOLERANCE
    case _ => QUANTITY_TOLERANCE
  }

  function Compared(category: Category, broker: real, local: real, tolerance: real, symbol: Token): Item {
    var close := Abs(broker - local) <= tolerance;
    Item(category, if close then Passed else Mismatched, broker, local, if close then 0.0 else broker - local, symbol, 0,
         NoContext)
  }

  /** A comparison with the tolerance of its category. */
  function ItemOf(category: Category, broker: real, local: real, symbol: Token): Item {
    Compared(category, broker, local, Tolerance(category), symbol)
  }

  function Missing(category: Category): Item {
    Item(category, Warned, 0.0, 0.0, 0.0, 0, 0, NoContext)
  }

  function UncoveredItem(covered: seq<AssetClass>, assetClass: AssetClass): Item {
    Missing(PositionItem).(assetClass := assetClass, context := ScopeContext(covered, assetClass))
  }

  function HalfUnit(places: nat): real { if places == 0 then 0.5 else HalfUnit(places - 1) / 10.0 }

  predicate ByDisplay(b: Option<Shown>, bm: CostMethod, l: Option<real>, lm: CostMethod) {
    bm == BrokerRemainingCost && lm == BrokerRemainingCost && b.Some? && l.Some?
  }

  function CostTolerance(b: Option<Shown>, bm: CostMethod, l: Option<real>, lm: CostMethod): real {
    if ByDisplay(b, bm, l, lm) then
      if HalfUnit(b.value.places) < MONEY_TOLERANCE then HalfUnit(b.value.places) else MONEY_TOLERANCE
    else QUANTITY_TOLERANCE
  }

  const NO_METHOD := OtherMethod(0)
  const UNSPECIFIED := OtherMethod(1)
  const MOVING_AVERAGE := OtherMethod(2)

  function CostContextOf(b: Option<Shown>, bm: CostMethod, l: Option<real>, lm: CostMethod): Context {
    CostContext(
      if bm == NO_METHOD then UNSPECIFIED else bm, if lm == NO_METHOD then MOVING_AVERAGE else lm,
      if ByDisplay(b, bm, l, lm)
      then Some(Display(b.value.places, CostTolerance(b, bm, l, lm), b.value.value - l.value)) else None)
  }

  function CostOf(snapshot: map<Token, BrokerFact>, symbol: Token): Option<Shown> {
    if symbol in snapshot then snapshot[symbol].cost else None
  }

  function LocalCost(costed: map<Token, PositionFact>, symbol: Token): Option<real> {
    if symbol in costed then costed[symbol].cost else None
  }

  function BrokerMethod(snapshot: map<Token, BrokerFact>, symbol: Token): CostMethod {
    if symbol in snapshot then snapshot[symbol].costMethod else NO_METHOD
  }

  function LocalMethod(costed: map<Token, PositionFact>, symbol: Token): CostMethod {
    if symbol in costed then costed[symbol].costMethod else NO_METHOD
  }

  function CostToleranceOf(snapshot: map<Token, BrokerFact>, costed: map<Token, PositionFact>, symbol: Token): real {
    CostTolerance(CostOf(snapshot, symbol), BrokerMethod(snapshot, symbol), LocalCost(costed, symbol),
                  LocalMethod(costed, symbol))
  }

  function BrokerQuantity(snapshot: map<Token, BrokerFact>, symbol: Token): real {
    if symbol in snapshot then Value(snapshot[symbol].position) else 0.0
  }

  function LocalQuantity(holding: map<Token, PositionFact>, symbol: Token): real {
    if symbol in holding then holding[symbol].quantity else 0.0
  }

  function CostValue(x: Option<Shown>): real { if x.Some? then x.value.value else 0.0 }

  function PositionItemOf(snapshot: map<Token, BrokerFact>, holding: map<Token, PositionFact>, symbol: Token): Item {
    ItemOf(PositionItem, BrokerQuantity(snapshot, symbol), LocalQuantity(holding, symbol), symbol)
  }

  function CostItemOf(snapshot: map<Token, BrokerFact>, costed: map<Token, PositionFact>, symbol: Token): Item {
    Compared(CostItem, CostValue(CostOf(snapshot, symbol)), Value(LocalCost(costed, symbol)),
             CostToleranceOf(snapshot, costed, symbol), symbol)
    .(context := CostContextOf(CostOf(snapshot, symbol), BrokerMethod(snapshot, symbol), LocalCost(costed, symbol),
                               LocalMethod(costed, symbol)))
  }

  function TradeItemsOf(b: Components, l: Components, symbol: Token): seq<Item> {
    [ItemOf(GrossItem, b.gross, l.gross, symbol),
     ItemOf(NetItem, b.net, l.net, symbol),
     ItemOf(FeeItem, b.fee, l.fee, symbol),
     ItemOf(TaxItem, b.tax, l.tax, symbol),
     ItemOf(TransferItem, b.transferFee, l.transferFee, symbol)]
  }

  // ---------------------------------------------------------------- symbols, ascending

  lemma {:induction false} GreatestExists(s: set<nat>)
    requires s != {}
    ensures exists m :: m in s && forall x :: x in s ==> x <= m
  {
    var a :| a in s;
    var rest := s - {a};
    if rest == {} {
      assert s == {a};
    } else {
      GreatestExists(rest);
      var m :| m in rest && forall x :: x in rest ==> x <= m;
      var top := if a > m then a else m;
      forall x | x in s ensures x <= top {
        assert x == a || x in rest;
      }
      assert top in s;
    }
  }

  /** `sorted(s)` */
  function Sorted(s: set<nat>): (r: seq<nat>)
    ensures |r| == |s|
  {
    if s == {} then []
    else
      GreatestExists(s);
      var m :| m in s && forall x :: x in s ==> x <= m;
      Sorted(s - {m}) + [m]
  }

  lemma {:induction false} SortedElements(s: set<nat>)
    ensures forall x :: x in Sorted(s) <==> x in s
  {
    if s != {} {
      var r := Sorted(s);
      var m := r[|r| - 1];
      assert m in s && r == Sorted(s - {m}) + [m];
      SortedElements(s - {m});
    }
  }

  // ---------------------------------------------------------------- items

  function PositionItems(snapshot: map<Token, BrokerFact>, holding: map<Token, PositionFact>, symbols: seq<Token>): seq<Item> {
    if symbols == [] then []
    else
      PositionItems(snapshot, holding, symbols[..|symbols| - 1])
      + [PositionItemOf(snapshot, holding, symbols[|symbols| - 1])]
  }

  function CostItems(snapshot: map<Token, BrokerFact>, costed: map<Token, PositionFact>, symbols: seq<Token>): seq<Item> {
    if symbols == [] then []
    else
      CostItems(snapshot, costed, symbols[..|symbols| - 1])
      + [CostItemOf(snapshot, costed, symbols[|symbols| - 1])]
  }

  function UncoveredItems(covered: seq<AssetClass>, classes: seq<AssetClass>): seq<Item> {
    if classes == [] then []
    else UncoveredItems(covered, classes[..|classes| - 1]) + [UncoveredItem(covered, classes[|classes| - 1])]
  }

  function TradeItems(broker: seq<Option<Trade>>, ledger: seq<Option<Trade>>, symbols: seq<Token>): seq<Item> {
    if symbols == [] then []
    else
      var front, symbol := symbols[..|symbols| - 1], symbols[|symbols| - 1];
      TradeItems(broker, ledger, front) + TradeItemsOf(PartOf(broker, symbol), PartOf(ledger, symbol), symbol)
  }

  function PositionSymbols(books: Books): set<Token> {
    Snapshot(books.broker).Keys + Holding(ScopeOf(books)).Keys
  }

  function CostSymbols(books: Books): set<Token> {
    Snapshot(books.broker).Keys + Costed(ScopeOf(books)).Keys
  }

  function TradedIn(trades: seq<Option<Trade>>): set<Token> {
    set i | 0 <= i < |trades| && trades[i].Some? :: trades[i].value.symbol
  }

  function TradeSymbols(books: Books): set<Token> {
    TradedIn(BrokerTrades(books.broker)) + TradedIn(LedgerTrades(books.ledger))
  }

  function CashPart(books: Books): Item {
    if HasCashSnapshot(books.broker)
    then ItemOf(CashItem, Value(LatestCash(books.broker)), Value(books.balance), 0)
    else Missing(CashItem)
  }

  function PositionPart(books: Books): seq<Item> {
    if HasPositionSnapshot(books.broker) then
      PositionItems(Snapshot(books.broker), Holding(ScopeOf(books)), Sorted(PositionSymbols(books)))
      + UncoveredItems(Sorted(Covered(books.broker)), Sorted(Uncovered(books)))
    else [Missing(PositionItem)]
  }

  function TradePart(books: Books): seq<Item> {
    TradeItems(BrokerTrades(books.broker), LedgerTrades(books.ledger), Sorted(TradeSymbols(books)))
  }

  function FeePart(books: Books): seq<Item> {
    [ItemOf(FeeItem, Fees(books.broker).0, LedgerFees(books.ledger).0, 0),
     ItemOf(TaxItem, Fees(books.broker).1, LedgerFees(books.ledger).1, 0)]
  }

  function CostPart(books: Books): seq<Item> {
    if HasPositionSnapshot(books.broker)
    then CostItems(Snapshot(books.broker), Costed(ScopeOf(books)), Sorted(CostSymbols(books)))
    else []
  }

  /** The comparisons, in the order the source lists them. */
  function Items(books: Books): seq<Item> {
    [CashPart(books)] + PositionPart(books) + TradePart(books) + FeePart(books) + CostPart(books)
  }

  // ---------------------------------------------------------------- classification

  /** What is known of a symbol's asset class. */
  function Known(books: Books): seq<(Token, AssetClass)> {
    seq(|books.broker|, i requires 0 <= i < |books.broker| => (books.broker[i].symbol, Normal(books.broker[i].assetClass)))
    + seq(|books.ledger|, i requires 0 <= i < |books.ledger| => (books.ledger[i].symbol, Normal(books.ledger[i].assetClass)))
    + seq(|ScopeOf(books)|, i requires 0 <= i < |ScopeOf(books)| => (ScopeOf(books)[i].symbol, Normal(ScopeOf(books)[i].assetClass)))
  }

  function Candidates(known: seq<(Token, AssetClass)>, symbol: Token): set<AssetClass> {
    set k | k in known && k.0 == symbol && k.0 != 0 && k.1 != 0 :: k.1
  }

  method Remember(known: seq<(Token, AssetClass)>) returns (classes: map<Token, set<AssetClass>>)
    ensures forall s :: s in classes ==> classes[s] == Candidates(known, s)
    ensures forall s :: s !in classes ==> Candidates(known, s) == {}
  {
    classes := map[];
    for i := 0 to |known|
      invariant forall s :: s in classes ==> classes[s] == Candidates(known[..i], s)
      invariant forall s :: s !in classes ==> Candidates(known[..i], s) == {}
    {
      var (symbol, assetClass) := known[i];
      CandidatesStep(known, i);
      if symbol != 0 && assetClass != 0 {
        var old' := if symbol in classes then classes[symbol] else {};
        classes := classes[symbol := old' + {assetClass}];
      }
    }
    assert known[..|known|] == known;
  }

  lemma CandidatesStep(known: seq<(Token, AssetClass)>, i: nat)
    requires i < |known|
    ensures forall s :: Candidates(known[..i + 1], s)
                        == if known[i].0 == s && s != 0 && known[i].1 != 0 then Candidates(known[..i], s) + {known[i].1}
                           else Candidates(known[..i], s)
  {
  }

  function OwnClass(item: Item, candidates: set<AssetClass>): AssetClass {
    if Normal(item.assetClass) != 0 then Normal(item.assetClass)
    else if item.category.CashItem? then CASH
    else if item.symbol == 0 then ACCOUNT
    else if |candidates| == 1 then Sorted(candidates)[0]
    else UNKNOWN
  }

  function StoppedItems(item: Item, classes: seq<AssetClass>): seq<Item> {
    seq(|classes|, i requires 0 <= i < |classes| =>
      item.(status := Stopped, assetClass := classes[i], context := ConflictContext(item.context, classes)))
  }

  /** An item about a symbol with several asset classes becomes one stopped item for each. */
  function ClassifyOne(item: Item, candidates: set<AssetClass>): seq<Item> {
    if item.symbol != 0 && |candidates| > 1 then StoppedItems(item, Sorted(candidates))
    else [item.(assetClass := OwnClass(item, candidates))]
  }

  function Classify(items: seq<Item>, known: seq<(Token, AssetClass)>): seq<Item> {
    if items == [] then []
    else
      var last := items[|items| - 1];
      Classify(items[..|items| - 1], known) + ClassifyOne(last, Candidates(known, last.symbol))
  }

  method ClassifyItems(items: seq<Item>, known: seq<(Token, AssetClass)>) returns (classified: seq<Item>)
    ensures classified == Classify(items, known)
  {
    var classes := Remember(known);
    classified := [];
    for i := 0 to |items|
      invariant classified == Classify(items[..i], known)
    {
      assert items[..i + 1][..i] == items[..i];
      var candidates := if items[i].symbol in classes then classes[items[i].symbol] else {};
      classified := classified + ClassifyOne(items[i], candidates);
    }
    assert items[..|items|] == items;
  }

  // ---------------------------------------------------------------- the report

  predicate Any(items: seq<Item>, status: ItemStatus) {
    items != [] && (items[|items| - 1].status == status || Any(items[..|items| - 1], status))
  }

  function Worst(items: seq<Item>): ItemStatus {
    if Any(items, Stopped) then Stopped
    else if Any(items, Mismatched) then Mismatched
    else if Any(items, Warned) then Warned
    else Passed
  }

  function Unresolved(items: seq<Item>): nat {
    if items == [] then 0
    else Unresolved(items[..|items| - 1]) + if items[|items| - 1].status.Passed? then 0 else 1
  }

  function LaneOf(items: seq<Item>): Lane {
    Lane(if items == [] then None else Some(Worst(items)), |items|, Unresolved(items))
  }

  function InLane(items: seq<Item>, lane: AssetClass): seq<Item> {
    if items == [] then []
    else InLane(items[..|items| - 1], lane) + if items[|items| - 1].assetClass == lane then [items[|items| - 1]] else []
  }

  const NO_EVIDENCE := Item(ImportItem, Stopped, 0.0, 0.0, 0.0, 0, ACCOUNT, NoContext)

  /** The action an item suggests. */
  function ActionOf(item: Item): Option<Action> {
    match item.status
    case Passed => None
    case Warned => Some(if item.category.CashItem? then ProvideCashSnapshot else ProvidePositionSnapshot)
    case Mismatched => Some(ReviewDifference(item.category))
    case Stopped => Some(if item.category.ImportItem? then ImportEvidence else ReviewIdentity)
  }

  /** The suggested actions, each once. */
  function Actions(items: seq<Item>): seq<Action> {
    if items == [] then []
    else
      var before, action := Actions(items[..|items| - 1]), ActionOf(items[|items| - 1]);
      if action.Some? && action.value !in before then before + [action.value] else before
  }

  method UniqueActions(items: seq<Item>) returns (actions: seq<Action>)
    ensures actions == Actions(items)
  {
    actions := [];
    for i := 0 to |items|
      invariant actions == Actions(items[..i])
    {
      assert items[..i + 1][..i] == items[..i];
      var action := ActionOf(items[i]);
      if action.Some? && action.value !in actions {
        actions := actions + [action.value];
      }
    }
    assert items[..|items|] == items;
  }

  function NoEvidenceReport(): Report {
    Report(Stopped, 0.0, 0.0, 0.0, 1, [ImportEvidence], [NO_EVIDENCE], LaneOf([]), LaneOf([]), LaneOf([]),
           LaneOf([NO_EVIDENCE]))
  }

  /** The report over classified items. */
  function Assembled(books: Books, items: seq<Item>): Report {
    var fees, ledger := Fees(books.broker), LedgerFees(books.ledger);
    Report(Worst(items),
           if HasCashSnapshot(books.broker) then Value(LatestCash(books.broker)) - Value(books.balance) else 0.0,
           fees.0 - ledger.0, fees.1 - ledger.1, Unresolved(items), Actions(items), items,
           LaneOf(InLane(items, STOCK)), LaneOf(InLane(items, FUND)), LaneOf(InLane(items, CASH)), LaneOf(items))
  }

  function ReportOf(books: Books): Report {
    if books.broker == [] then NoEvidenceReport()
    else Assembled(books, Classify(Items(books), Known(books)))
  }

  method ItemsOfComponents(
      broker: seq<Option<Trade>>, ledger: seq<Option<Trade>>, brokerComponents: map<Token, Components>,
      ledgerComponents: map<Token, Components>, symbols: seq<Token>)
    returns (items: seq<Item>)
    requires forall s :: ComponentsOf(brokerComponents, s) == PartOf(broker, s)
    requires forall s :: ComponentsOf(ledgerComponents, s) == PartOf(ledger, s)
    ensures items == TradeItems(broker, ledger, symbols)
  {
    items := [];
    for i := 0 to |symbols|
      invariant items == TradeItems(broker, ledger, symbols[..i])
    {
      assert symbols[..i + 1][..i] == symbols[..i];
      var s := symbols[i];
      items := items + TradeItemsOf(ComponentsOf(brokerComponents, s), ComponentsOf(ledgerComponents, s), s);
    }
    assert symbols[..|symbols|] == symbols;
  }

  /** The trade items, from the two aggregated dictionaries. */
  method TradeComponentItems(books: Books) returns (items: seq<Item>)
    ensures items == TradePart(books)
  {
    var broker, ledger := BrokerTrades(books.broker), LedgerTrades(books.ledger);
    var brokerComponents := Aggregate(broker);
    var ledgerComponents := Aggregate(ledger);
    SameSymbols(brokerComponents, broker);
    SameSymbols(ledgerComponents, ledger);
    items := ItemsOfComponents(broker, ledger, brokerComponents, ledgerComponents,
                               Sorted(brokerComponents.Keys + ledgerComponents.Keys));
  }

  lemma SameSymbols(components: map<Token, Components>, trades: seq<Option<Trade>>)
    requires forall s :: s in components <==> Trades(trades, s)
    requires forall s :: s in components ==> components[s] == PartOf(trades, s)
    ensures components.Keys == TradedIn(trades)
    ensures forall s :: ComponentsOf(components, s) == PartOf(trades, s)
  {
    TradedIsTrades(trades);
    forall s ensures ComponentsOf(components, s) == PartOf(trades, s) {
      PartIsComponent(components, trades, s);
    }
  }

  lemma TradedIsTrades(trades: seq<Option<Trade>>)
    ensures forall s :: s in TradedIn(trades) <==> Trades(trades, s)
  {
  }

  lemma PartIsComponent(components: map<Token, Components>, trades: seq<Option<Trade>>, symbol: Token)
    requires forall s :: s in components <==> Trades(trades, s)
    requires forall s :: s in components ==> components[s] == PartOf(trades, s)
    ensures ComponentsOf(components, symbol) == PartOf(trades, symbol)
  {
    if symbol !in components {
      NoTradeNoPart(trades, symbol);
    }
  }

  method BuildReport(books: Books) returns (report: Report)
    ensures report == ReportOf(books)
  {
    if books.broker == [] {
      return NoEvidenceReport();
    }
    var trades := TradeComponentItems(books);
    var items := ClassifyItems([CashPart(books)] + PositionPart(books) + trades + FeePart(books) + CostPart(books),
                               Known(books));
    var actions := UniqueActions(items);
    report := Assembled(books, items).(actions := actions);
  }
}
