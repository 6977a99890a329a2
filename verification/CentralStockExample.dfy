/** A run of ordinary calls in which Central's figure hides what was sold. */
module CentralStockExample {
  import opened Basics
  import opened Sums
  import opened Sale
  import opened SaleSteps
  import opened SaleInvariant
  import LifecycleLaws
  import Inbox
  import opened PosRuns
  import PosTheorems
  import opened ExampleRuns
  import opened SingleSale

  function Reported(version: int): Inbox.Product {
    Inbox.Product(None, "rice", None, "", true, true, version)
  }

  const STOCK_KEY := ("s", "p")

  lemma ReportReaches(orders: map<string, Order>, clients: map<string, string>, returnOwner: map<string, string>,
      balances: Balances, version: int, stock: int)
    requires PosTheorems.Reachable(Db(orders, clients, returnOwner, balances))
    requires STOCK_KEY in balances ==> version >= balances[STOCK_KEY].version
    ensures PosTheorems.Reachable(Db(orders, clients, returnOwner, balances[STOCK_KEY := Balance(stock, version)]))
  {
    var db, op := Db(orders, clients, returnOwner, balances),
      StockFromCentral("p", Reported(version), Some("s"), Some(stock));
    hide PosTheorems.Reachable;
    assert Permitted(db, op);
    ReachableNext(db, op);
  }

  /**
   * Central reports ten in stock, the till sells three and has seven, then Central's next version of
   * the product arrives with the ten it knows: the till has ten again, though three were issued.
   */
  lemma CentralForgetsTheSale() returns (before: Db, after: Db)
    ensures PosTheorems.Reachable(before) && PosTheorems.Reachable(after) && "o" in before.orders
            && after.orders == before.orders
    ensures STOCK_KEY in before.balances && before.balances[STOCK_KEY].onHand == 7
            && Issued(before.orders["o"].movements, "i") == 3
    ensures after == Next(before, StockFromCentral("p", Reported(2), Some("s"), Some(10)))
    ensures STOCK_KEY in after.balances && after.balances[STOCK_KEY].onHand == 10
  {
    EmptyIsReachable();
    hide PosTheorems.Reachable;
    ReportReaches(map[], map[], map[], map[], 1, 10);
    var start := map[STOCK_KEY := Balance(10, 1)];
    assert map[][STOCK_KEY := Balance(10, 1)] == start;
    CreateReaches("INR", Hundred(3), start);
    var o := LifecycleLaws.NewOrder("o", "s", "INR", [Hundred(3)]);
    var tx := Tx(o, map[], map[], start);
    SaleKeys(o, map[], map[], start);
    SaleInv(o, map[], map[], start);
    var t := ThreeIssued(tx);
    Reaches(OneSale(o, map[], map[], start), CompleteSale("o", TRACKED), t);
    before := OneSale(t.order, t.clients, t.returnOwner, t.balances);
    ReportReaches(before.orders, t.clients, t.returnOwner, t.balances, 2, 10);
    after := Next(before, StockFromCentral("p", Reported(2), Some("s"), Some(10)));
    assert after == Db(before.orders, t.clients, t.returnOwner, t.balances[STOCK_KEY := Balance(10, 2)]);
  }

  lemma ThreeIssued(tx: Tx) returns (t: Tx)
    requires TxInv(tx) && tx.order == LifecycleLaws.NewOrder("o", "s", "INR", [Hundred(3)])
             && tx.balances == map[STOCK_KEY := Balance(10, 1)]
    ensures Complete(tx, TRACKED) == Ok(t) && t.order.id == "o"
    ensures STOCK_KEY in t.balances && t.balances[STOCK_KEY] == Balance(7, 2) && Issued(t.order.movements, "i") == 3
  {
    var item := Hundred(3);
    assert tx.order.items == [item] && tx.order.movements == [] && tx.order.storeId == "s" && !tx.order.completed
           && tx.order.facts == [] && tx.order.receipt == None;
    assert FactsOk(tx.order) && LifecycleOk(tx.order);
    var moved := Move(tx, item, IssueMovement("i"), SaleIssue, -3);
    hide TxInv, NewReceipt, FactsOk, LifecycleOk, SumOf, Complete, LifecycleLaws.NewOrder;
    LifecycleLaws.CompletionStages(tx, TRACKED);
    assert tx.(balances := tx.balances) == tx;
    assert !Moved([], "i", SaleIssue);
    assert IssueItem(tx, item, TRACKED) == Ok(moved);
    assert IssueItems(moved, [item], 1, TRACKED) == Ok(moved);
    assert IssueItems(tx, [item], 0, TRACKED) == Ok(moved);
    t := moved.(order := LifecycleLaws.CompletedOrder(tx.order).(movements := moved.order.movements));
    var m := moved.order.movements[0];
    assert moved.order.movements == [m] && [m][..0] == [];
    SumAtLast([m], MovedItem, "i", IssuedQuantity);
    assert SumAt([], MovedItem, "i", IssuedQuantity) == 0 by { SumAtAbsent([], MovedItem, "i", IssuedQuantity); }
  }
}
