/** Stock changes only together with a movement that records it: no call creates or loses stock. */
module StockConservation {
  import opened Basics
  import opened Sums
  import opened Sale
  import opened SaleSteps
  import opened PosRuns
  import opened SaleInvariant
  import opened LifecycleLaws
  import Inbox

  function MovedProduct(m: Movement): string { m.productId }

  function DeltaOf(m: Movement): int { m.delta }

  /** What the movements of an order did to one product. */
  function NetMoved(movements: seq<Movement>, productId: string): int {
    SumAt(movements, MovedProduct, productId, DeltaOf)
  }

  /** On-hand stock; a missing row reads as none, as GetBalance reads it. */
  function Level(balances: Balances, key: (string, string)): int {
    if key in balances then balances[key].onHand else 0
  }

  function Unit(m: Movement): int { 1 }

  /** How many movements of an order concern one product. */
  function MoveCount(movements: seq<Movement>, productId: string): int {
    SumAt(movements, MovedProduct, productId, Unit)
  }

  /** The version of a stock row; a missing one is inserted with version 1. */
  function VersionOf(balances: Balances, key: (string, string)): int {
    if key in balances then balances[key].version else 1
  }

  /** Each movement of a product moved its stock by its delta and its version by one. */
  predicate InBalance(tx: Tx, t: Tx, p: string) {
    var key := (tx.order.storeId, p);
    && Level(t.balances, key) - NetMoved(t.order.movements, p) ==
         Level(tx.balances, key) - NetMoved(tx.order.movements, p)
    && VersionOf(t.balances, key) - MoveCount(t.order.movements, p) ==
         VersionOf(tx.balances, key) - MoveCount(tx.order.movements, p)
  }

  /** For every product of the store, stock moved by what the new movements say; other stores are untouched. */
  ghost predicate Conserves(tx: Tx, t: Tx) {
    && t.order.storeId == tx.order.storeId && tx.order.movements <= t.order.movements
    && tx.balances.Keys <= t.balances.Keys && (forall p :: InBalance(tx, t, p))
    && (forall key: (string, string) | key.0 != tx.order.storeId ::
          (key in t.balances <==> key in tx.balances) && (key in t.balances ==> t.balances[key] == tx.balances[key]))
  }

  lemma ConservesTwice(a: Tx, b: Tx, c: Tx)
    requires Conserves(a, b) && Conserves(b, c)
    ensures Conserves(a, c)
  {
    forall p ensures InBalance(a, c, p) {
      assert InBalance(a, b, p) && InBalance(b, c, p);
    }
  }

  /** Nothing about stock changed. */
  predicate SameStock(tx: Tx, t: Tx) {
    t.order.storeId == tx.order.storeId && t.order.movements == tx.order.movements && t.balances == tx.balances
  }

  lemma SameStockConserves(tx: Tx, t: Tx)
    requires SameStock(tx, t)
    ensures Conserves(tx, t)
  {
  }

  /** One movement, recorded with the balance it left. */
  lemma MoveConserves(tx: Tx, item: Item, id: MovementId, kind: MovementKind, delta: int)
    requires (tx.order.storeId, item.productId) in tx.balances
    ensures var t := Move(tx, item, id, kind, delta);
            Conserves(tx, t) && t.order.movements[|tx.order.movements|].balanceAfter ==
              Level(t.balances, (tx.order.storeId, item.productId))
  {
    var t := Move(tx, item, id, kind, delta);
    var m := t.order.movements[|tx.order.movements|];
    forall p ensures InBalance(tx, t, p) {
      SumAtAppend(tx.order.movements, m, MovedProduct, p, DeltaOf);
      SumAtAppend(tx.order.movements, m, MovedProduct, p, Unit);
      hide SumAt;
    }
  }

  lemma RestoreLineConserves(tx: Tx, returnId: string, lines: seq<LedgerLine>, k: nat)
    requires k < |lines|
    ensures var r := RestoreLine(tx, returnId, lines, k);
            r.Ok? ==> Conserves(tx, r.value)
  {
    hide Conserves, FindItem, FindMovement, Issued, Restored, Move;
    SameStockConserves(tx, tx);
    var item := FindItem(tx.order.items, lines[k].itemId);
    if item.Some? && (tx.order.storeId, item.value.productId) in tx.balances {
      MoveConserves(tx, item.value, PartialMovement(returnId, lines[k].itemId), SaleReturn, lines[k].quantity);
    }
  }

  lemma {:induction false} RestoreLinesConserve(tx: Tx, returnId: string, lines: seq<LedgerLine>, k: nat)
    requires k <= |lines|
    ensures var r := RestoreLines(tx, returnId, lines, k);
            r.Ok? ==> Conserves(tx, r.value)
    decreases |lines| - k
  {
    hide Conserves, RestoreLine;
    SameStockConserves(tx, tx);
    if k < |lines| {
      var r := RestoreLine(tx, returnId, lines, k);
      if r.Ok? {
        RestoreLineConserves(tx, returnId, lines, k);
        RestoreLinesConserve(r.value, returnId, lines, k + 1);
        var s := RestoreLines(r.value, returnId, lines, k + 1);
        if s.Ok? {
          ConservesTwice(tx, r.value, s.value);
        }
      }
    }
  }

  /** A missing balance row starts at nothing. */
  lemma FirstRowConserves(tx: Tx, key: (string, string))
    requires key !in tx.balances && key.0 == tx.order.storeId
    ensures Conserves(tx, tx.(balances := tx.balances[key := Balance(0, 1)]))
  {
    hide NetMoved, MoveCount;
  }

  lemma IssueItemConserves(tx: Tx, item: Item, tracked: map<string, bool>)
    ensures var r := IssueItem(tx, item, tracked);
            r.Ok? ==> Conserves(tx, r.value)
  {
    hide Conserves, Moved, Move;
    SameStockConserves(tx, tx);
    var key := (tx.order.storeId, item.productId);
    if key in tx.balances {
      assert tx.(balances := tx.balances) == tx;
      MoveConserves(tx, item, IssueMovement(item.id), SaleIssue, -item.quantity);
    } else {
      var with := tx.(balances := tx.balances[key := Balance(0, 1)]);
      FirstRowConserves(tx, key);
      MoveConserves(with, item, IssueMovement(item.id), SaleIssue, -item.quantity);
      ConservesTwice(tx, with, Move(with, item, IssueMovement(item.id), SaleIssue, -item.quantity));
    }
  }

  lemma {:induction false} IssueItemsConserve(tx: Tx, items: seq<Item>, k: nat, tracked: map<string, bool>)
    requires k <= |items|
    ensures var r := IssueItems(tx, items, k, tracked);
            r.Ok? ==> Conserves(tx, r.value)
    decreases |items| - k
  {
    hide Conserves, IssueItem;
    SameStockConserves(tx, tx);
    if k < |items| {
      var r := IssueItem(tx, items[k], tracked);
      if r.Ok? {
        IssueItemConserves(tx, items[k], tracked);
        IssueItemsConserve(r.value, items, k + 1, tracked);
        var s := IssueItems(r.value, items, k + 1, tracked);
        if s.Ok? {
          ConservesTwice(tx, r.value, s.value);
        }
      }
    }
  }

  lemma RestoreItemConserves(tx: Tx, item: Item)
    ensures var r := RestoreItem(tx, item);
            r.Ok? ==> Conserves(tx, r.value)
  {
    hide Conserves, Moved, Move;
    SameStockConserves(tx, tx);
    if (tx.order.storeId, item.productId) in tx.balances {
      MoveConserves(tx, item, ReturnMovement(item.id), SaleReturn, item.quantity);
    }
  }

  lemma {:induction false} RestoreItemsConserve(tx: Tx, items: seq<Item>, k: nat)
    requires k <= |items|
    ensures var r := RestoreItems(tx, items, k);
            r.Ok? ==> Conserves(tx, r.value)
    decreases |items| - k
  {
    hide Conserves, RestoreItem;
    SameStockConserves(tx, tx);
    if k < |items| {
      var r := RestoreItem(tx, items[k]);
      if r.Ok? {
        RestoreItemConserves(tx, items[k]);
        RestoreItemsConserve(r.value, items, k + 1);
        var s := RestoreItems(r.value, items, k + 1);
        if s.Ok? {
          ConservesTwice(tx, r.value, s.value);
        }
      }
    }
  }

  // ---- money does not touch stock ------------------------------------------------------------------------

  lemma RefundKeepsStock(tx: Tx, input: PaymentInput)
    ensures var r := CreateRefund(tx, input);
            r.Ok? ==> SameStock(tx, r.value)
  {
    hide NetPaid, FindClient, Upper, Trim;
  }

  lemma {:induction false} ReverseLoopKeepsStock(tx: Tx, returnId: string, captures: seq<Capture>, refund: int,
      total: int, i: nat, given: int, ids: nat -> string)
    requires i <= |captures|
    ensures var r := ReverseLoop(tx, returnId, captures, refund, total, i, given, ids);
            r.Ok? ==> SameStock(tx, r.value)
    decreases |captures| - i
  {
    hide CreateRefund, Rounding.ProportionalFloor;
    if i < |captures| {
      var c := captures[i];
      var target := if i == |captures| - 1 then refund - given else Rounding.ProportionalFloor(c.amount, refund, total);
      if target == c.refunded {
        ReverseLoopKeepsStock(tx, returnId, captures, refund, total, i + 1, given + target, ids);
      } else {
        var input := RefundInput(RefundClientId(returnId, c.id), c, target - c.refunded, ids(i));
        RefundKeepsStock(tx, input);
        if CreateRefund(tx, input).Ok? {
          ReverseLoopKeepsStock(CreateRefund(tx, input).value, returnId, captures, refund, total, i + 1,
                                given + target, ids);
        }
      }
    }
  }

  lemma ReverseTendersKeepsStock(tx: Tx, returnId: string, refund: int, ids: nat -> string)
    ensures var r := ReverseTenders(tx, returnId, refund, ids);
            r.Ok? ==> SameStock(tx, r.value)
  {
    var captures := Captures(tx.order.payments);
    ReverseLoopKeepsStock(tx, returnId, captures, refund, SumOf(captures, AmountOf), 0, 0, ids);
    hide ReverseLoop, LoadCaptures, SumOf;
  }

  lemma {:induction false} RefundCapturesKeepStock(tx: Tx, captures: seq<Capture>, i: nat, ids: nat -> string)
    requires i <= |captures|
    ensures var r := RefundCaptures(tx, captures, i, ids);
            r.Ok? ==> SameStock(tx, r.value)
    decreases |captures| - i
  {
    hide CreateRefund;
    if i < |captures| {
      var input := RefundInput(FullRefundClientId(tx.order.id, captures[i].id), captures[i], captures[i].amount,
                               ids(i));
      RefundKeepsStock(tx, input);
      if CreateRefund(tx, input).Ok? {
        RefundCapturesKeepStock(CreateRefund(tx, input).value, captures, i + 1, ids);
      }
    }
  }

  // ---- whole calls ---------------------------------------------------------------------------------------------

  lemma ReturnConserves(tx: Tx, input: ReturnInput, plan: Plan, ids: nat -> string)
    ensures var r := ReturnBody(tx, input, plan, ids);
            r.Ok? ==> Conserves(tx, r.value)
  {
    hide Conserves, ReverseTenders, RestoreLines, LedgerLines, LedgerRefund, LedgerAccepts, FindReturn, SameRecord,
         NewReturn;
    var t1 := AppendReturn(tx, NewReturn(input, plan));
    if t1.Ok? && ReturnBody(tx, input, plan, ids).Ok? {
      var refund := LedgerRefund(tx.order.ledger) + plan.refund;
      ReverseTendersKeepsStock(t1.value, input.id, refund, ids);
      var t2 := ReverseTenders(t1.value, input.id, refund, ids).value;
      assert SameStock(tx, t2);
      SameStockConserves(tx, t2);
      RestoreLinesConserve(t2, input.id, LedgerLines(plan.lines), 0);
      var t3 := RestoreLines(t2, input.id, LedgerLines(plan.lines), 0).value;
      ConservesTwice(tx, t2, t3);
      var t := ReturnBody(tx, input, plan, ids).value;
      assert SameStock(t3, t);
      SameStockConserves(t3, t);
      ConservesTwice(tx, t3, t);
    }
  }

  lemma CompletionConserves(tx: Tx, tracked: map<string, bool>)
    ensures var r := Complete(tx, tracked);
            r.Ok? ==> Conserves(tx, r.value)
  {
    hide Conserves, IssueItems, NewReceipt;
    if Complete(tx, tracked).Ok? {
      IssueItemsConserve(tx, tx.order.items, 0, tracked);
      var t1, t := IssueItems(tx, tx.order.items, 0, tracked).value, Complete(tx, tracked).value;
      assert SameStock(t1, t);
      SameStockConserves(t1, t);
      ConservesTwice(tx, t1, t);
    }
  }

  lemma RefundConserves(tx: Tx, initiator: string, approver: string, reason: string, ids: nat -> string)
    ensures var r := RefundFullSale(tx, initiator, approver, reason, ids);
            r.Ok? ==> Conserves(tx, r.value)
  {
    hide Conserves, RestoreItems, RefundCaptures, NetPaid, LoadCaptures, SumOf, Trim;
    if RefundFullSale(tx, initiator, approver, reason, ids).Ok? {
      RefundCapturesKeepStock(tx, Captures(tx.order.payments), 0, ids);
      var t1 := ReverseAllTenders(tx, ids).value;
      assert SameStock(tx, t1);
      SameStockConserves(tx, t1);
      RestoreItemsConserve(t1, tx.order.items, 0);
      var t2, t := RestoreItems(t1, tx.order.items, 0).value,
        RefundFullSale(tx, initiator, approver, reason, ids).value;
      ConservesTwice(tx, t1, t2);
      assert SameStock(t2, t);
      SameStockConserves(t2, t);
      ConservesTwice(tx, t2, t);
    }
  }

  /** Every call on an order, from any state: stock and movements change together or not at all. */
  lemma CallsConserveStock(tx: Tx, op: Op)
    requires !op.CreateSale? && !op.StockFromCentral?
    ensures var r := Call(tx, op);
            r.Ok? ==> Conserves(tx, r.value)
  {
    hide Conserves, Complete, RefundFullSale, ReturnBody, PlanPartialReturn, Replay, NetPaid, FindClient, Upper, Trim,
         Normalized, ValidReturnInput;
    SameStockConserves(tx, tx);
    match op {
      case Pay(_, payment, at) =>
        if Call(tx, op).Ok? { SameStockConserves(tx, Call(tx, op).value); }
      case CompleteSale(_, tracked) => CompletionConserves(tx, tracked);
      case VoidSale(_, initiator, approver, reason) =>
        if Call(tx, op).Ok? { SameStockConserves(tx, Call(tx, op).value); }
      case ReturnSome(request, ids) =>
        var input := Normalized(request);
        var plan := PlanPartialReturn(tx.order, input.lines, LoadHistory(tx.order.ledger));
        if plan.Ok? { ReturnConserves(tx, input, plan.value, ids); }
      case RefundAll(_, initiator, approver, reason, ids) => RefundConserves(tx, initiator, approver, reason, ids);
    }
  }

  // ---- whole runs, and what Central's figure does to them ---------------------------------------------------

  /** The movements a call appended to the order it names. */
  function NewMovements(db: Db, op: Op): seq<Movement> {
    if op.StockFromCentral? || OrderOf(op) !in db.orders || OrderOf(op) !in Next(db, op).orders then []
    else
      var before, after := db.orders[OrderOf(op)].movements, Next(db, op).orders[OrderOf(op)].movements;
      if |before| <= |after| then after[|before|..] else []
  }

  /** The movements of one stock row that a call made. */
  function MovesOf(db: Db, op: Op, key: (string, string)): seq<Movement> {
    if !op.StockFromCentral? && OrderOf(op) in db.orders && db.orders[OrderOf(op)].storeId == key.0
    then NewMovements(db, op) else []
  }

  /** How many local movements of a stock row a run made, and what they add up to. */
  function CountInRun(db: Db, ops: seq<Op>, key: (string, string)): int
    decreases |ops|
  {
    if |ops| == 0 then 0 else MoveCount(MovesOf(db, ops[0], key), key.1) + CountInRun(Next(db, ops[0]), ops[1..], key)
  }

  function MovedInRun(db: Db, ops: seq<Op>, key: (string, string)): int
    decreases |ops|
  {
    if |ops| == 0 then 0 else NetMoved(MovesOf(db, ops[0], key), key.1) + MovedInRun(Next(db, ops[0]), ops[1..], key)
  }

  /** Central reports stock for this row. */
  predicate Reports(op: Op, key: (string, string)) {
    op.StockFromCentral? && op.productId == key.1 && op.store == Some(key.0)
  }

  lemma CallMovesStock(tx: Tx, t: Tx, key: (string, string))
    requires Conserves(tx, t)
    ensures |tx.order.movements| <= |t.order.movements|
    ensures var added := if tx.order.storeId == key.0 then t.order.movements[|tx.order.movements|..] else [];
            && Level(t.balances, key) == Level(tx.balances, key) + NetMoved(added, key.1)
            && VersionOf(t.balances, key) == VersionOf(tx.balances, key) + MoveCount(added, key.1)
            && (key in tx.balances ==> key in t.balances)
  {
    NoMoves(key.1);
    if tx.order.storeId == key.0 {
      var added := t.order.movements[|tx.order.movements|..];
      assert t.order.movements == tx.order.movements + added;
      SumConcat(tx.order.movements, added, Only(MovedProduct, key.1, DeltaOf));
      SumConcat(tx.order.movements, added, Only(MovedProduct, key.1, Unit));
      assert InBalance(tx, t, key.1) && (tx.order.storeId, key.1) == key;
    }
  }

  /** One call: the row changes by the movements it made, in quantity and in version. */
  lemma StepMovesStock(db: Db, op: Op, key: (string, string))
    requires DbInv(db) && Permitted(db, op) && !Reports(op, key)
    ensures var after, moves := Next(db, op).balances, MovesOf(db, op, key);
            && Level(after, key) == Level(db.balances, key) + NetMoved(moves, key.1)
            && VersionOf(after, key) == VersionOf(db.balances, key) + MoveCount(moves, key.1)
            && (key in db.balances ==> key in after)
  {
    hide DbInv, Call, Permitted, NewOrder, Trim, ValidReturnInput, ValidPayment, NetMoved, MoveCount, TxInv, Conserves,
         Level, VersionOf;
    NoMoves(key.1);
    if !op.StockFromCentral? && !op.CreateSale? && OrderOf(op) in db.orders {
      var id := OrderOf(op);
      OpenedOrder(db, id);
      var r := Call(Open(db, id), op);
      CallsConserveStock(Open(db, id), op);
      CalledOrder(db, op);
      if Apply(db, op).Ok? {
        CallMovesStock(Open(db, id), r.value, key);
      } else {
        NothingMoved(db, op, key);
      }
    } else {
      NothingMoved(db, op, key);
      if op.StockFromCentral? {
        OtherRowStays(db.balances, op, key);
      }
    }
  }

  lemma NothingMoved(db: Db, op: Op, key: (string, string))
    requires op.StockFromCentral? || OrderOf(op) !in db.orders || Next(db, op).orders == db.orders
    ensures MovesOf(db, op, key) == []
  {
  }

  lemma OtherRowStays(balances: Balances, op: Op, key: (string, string))
    requires op.StockFromCentral? && !Reports(op, key)
    ensures var after := Inbox.StockAfter(balances, op.productId, op.product, op.store, op.stock);
            (key in after <==> key in balances) && Level(after, key) == Level(balances, key)
              && VersionOf(after, key) == VersionOf(balances, key)
  {
  }

  lemma NoMoves(p: string)
    ensures NetMoved([], p) == 0 && MoveCount([], p) == 0
  {
  }

  lemma OpenedOrder(db: Db, id: string)
    requires DbInv(db) && id in db.orders
    ensures db.orders[id].id == id
  {
  }

  lemma CalledOrder(db: Db, op: Op)
    requires DbInv(db) && Permitted(db, op) && !op.CreateSale? && !op.StockFromCentral? && OrderOf(op) in db.orders
    ensures var r := Call(Open(db, OrderOf(op)), op);
            r.Ok? ==> r.value.order.id == OrderOf(op)
  {
    var tx := Open(db, OrderOf(op));
    assert TxInv(tx) && tx.order.id == OrderOf(op);
    hide TxInv, Call;
    CallKeepsInv(tx, op);
    if Call(tx, op).Ok? {
      SameId(tx, Call(tx, op).value);
    }
  }

  lemma {:induction false} RunMovesStock(db: Db, ops: seq<Op>, key: (string, string))
    requires DbInv(db) && AllPermitted(db, ops) && forall i | 0 <= i < |ops| :: !Reports(ops[i], key)
    ensures var after := Run(db, ops).balances;
            && Level(after, key) == Level(db.balances, key) + MovedInRun(db, ops, key)
            && VersionOf(after, key) == VersionOf(db.balances, key) + CountInRun(db, ops, key)
            && (key in db.balances ==> key in after)
    decreases |ops|
  {
    hide DbInv, Permitted, Next, MovesOf, Level, VersionOf, NetMoved, MoveCount;
    if |ops| > 0 {
      StepKeepsInv(db, ops[0]);
      StepMovesStock(db, ops[0], key);
      RunMovesStock(Next(db, ops[0]), ops[1..], key);
    }
  }

  lemma {:induction false} CountNotNegative(db: Db, ops: seq<Op>, key: (string, string))
    ensures CountInRun(db, ops, key) >= 0
    decreases |ops|
  {
    if |ops| > 0 {
      CountNotNegative(Next(db, ops[0]), ops[1..], key);
      SumNotNegative(MovesOf(db, ops[0], key), key.1);
    }
  }

  lemma {:induction false} SumNotNegative(movements: seq<Movement>, p: string)
    ensures MoveCount(movements, p) >= 0
  {
    if |movements| > 0 {
      SumNotNegative(movements[..|movements| - 1], p);
      SumAtLast(movements, MovedProduct, p, Unit);
    }
  }

  /**
   * What Central's stock figure does to local movements. After any run of calls that moved a stock
   * row `count` times by `moved` in total, an upsert of the product with figure `stock` and version
   * `version` leaves exactly that row if and only if `version` is at least the version before the
   * run plus `count`. Then the row is what it would be had none of the calls happened: the
   * movements are gone from it. Otherwise the upsert leaves the stock alone.
   */
  lemma CentralStockWipesMovementsExactlyWhen(db: Db, ops: seq<Op>, product: Inbox.Product, store: string,
      productId: string, stock: int)
    requires DbInv(db) && AllPermitted(db, ops) && (store, productId) in db.balances && store != "" && product.tracked
    requires forall i | 0 <= i < |ops| :: !Reports(ops[i], (store, productId))
    ensures var key, report := (store, productId), StockFromCentral(productId, product, Some(store), Some(stock));
            var later := Run(db, ops);
            var after, count := Next(later, report), CountInRun(db, ops, key);
            && Level(later.balances, key) == db.balances[key].onHand + MovedInRun(db, ops, key)
            && (key in after.balances && after.balances[key] == Balance(stock, product.version) <==>
                product.version >= db.balances[key].version + count)
            && (product.version >= db.balances[key].version + count ==>
                after.balances[key] == Next(db, report).balances[key])
            && (product.version < db.balances[key].version + count ==> after == later)
  {
    RunMovesStock(db, ops, (store, productId));
    CountNotNegative(db, ops, (store, productId));
    hide DbInv, AllPermitted, Run, CountInRun, MovedInRun;
  }
}
