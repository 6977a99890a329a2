/**
 * The sale facts and the outbox together: each committed call appends the facts it recorded to the
 * outbox in its own transaction, and the dispatchers carry them to Central. Central accepts the
 * facts of an order in the order of their versions.
 */
module FactDelivery {
  import opened Basics
  import opened Sale
  import opened SaleSteps
  import opened SaleInvariant
  import PartialReturns
  import LifecycleLaws
  import FullRefundLaws
  import opened PosRuns
  import PosTheorems
  import StockConservation
  import OutboxTable
  import Dispatch = DispatchProtocol

  // ---- what a call adds to the facts ----------------------------------------------------------------------

  /** A call adds at most two facts, all of the version it leaves the order with. */
  ghost predicate AddsFacts(o: Order, o': Order) {
    && o.facts <= o'.facts && |o'.facts| <= |o.facts| + 2
    && (forall i | |o.facts| <= i < |o'.facts| :: o'.facts[i].version == o'.version)
    && o.version <= o'.version && (|o'.facts| > |o.facts| ==> o.version < o'.version)
  }

  lemma PayAddsNoFacts(tx: Tx, payment: PaymentInput, at: nat)
    requires at <= |tx.order.payments|
    ensures var r := RecordPayment(tx, payment, at);
            r.Ok? ==> AddsFacts(tx.order, r.value.order)
  {
    hide FindClient, NetPaid, Upper, Trim;
  }

  lemma ReturnAddsFacts(tx: Tx, input: ReturnInput, ids: nat -> string)
    requires TxInv(tx)
    ensures var r := ReturnPartial(tx, input, ids);
            r.Ok? ==> AddsFacts(tx.order, r.value.0.order)
  {
    hide TxInv, ReturnPartial, PartialReturns.EverythingReturned, PartialReturns.OnlyAdds, PartialReturns.Repeats,
         LedgerRefund, ReversedTotal, CapturedTotal;
    if input.id in tx.returnOwner {
      RepeatWritesNothing(tx, input, ids);
    } else {
      PartialReturns.FirstReturn(tx, input, ids);
    }
  }

  lemma CallAddsFacts(tx: Tx, op: Op)
    requires TxInv(tx) && !op.CreateSale? && !op.StockFromCentral?
    ensures var r := Call(tx, op);
            r.Ok? ==> AddsFacts(tx.order, r.value.order)
  {
    hide TxInv, RecordPayment, Complete, Void, ReturnPartial, RefundFullSale, Normalized, PartialReturns.OnlyAdds,
         FullRefundLaws.AllCapturesOpen, FullRefundLaws.FullRows, Captures;
    match op {
      case Pay(_, payment, at) => PayAddsNoFacts(tx, payment, Position(tx.order.payments, at));
      case CompleteSale(_, tracked) =>
        LifecycleLaws.CompletionExactly(tx, tracked);
        NothingBefore(tx);
      case VoidSale(_, initiator, approver, reason) => LifecycleLaws.VoidExactly(tx, initiator, approver, reason);
      case ReturnSome(request, ids) => ReturnAddsFacts(tx, Normalized(request), ids);
      case RefundAll(_, initiator, approver, reason, ids) => FullRefundLaws.FullRefundExactly(tx, initiator, approver,
          reason, ids);
    }
  }

  // ---- the two halves as one system --------------------------------------------------------------------------

  /** Id and created_at of an outbox row. */
  datatype Stamp = Stamp(id: string, createdAt: string)

  /** `events` lists the outbox rows of each order's facts, oldest first. */
  datatype System = System(db: Db, out: Dispatch.State, events: map<string, seq<string>>)

  const INIT_SYSTEM := System(EMPTY_DB, Dispatch.INIT, map[])

  datatype Act =
    | Sell(op: Op, stamps: seq<Stamp>)  // a service call and the outbox rows of its transaction
    | Sync(step: Dispatch.Step)         // anything else that happens to the outbox

  function Key(orderId: string): string { "sales_order:" + orderId }

  function EventsOf(s: System, id: string): seq<string> {
    if id in s.events then s.events[id] else []
  }

  /** How many facts a call added to the order it names. */
  function Added(db: Db, op: Op): nat {
    if op.StockFromCentral? || OrderOf(op) !in db.orders || OrderOf(op) !in Next(db, op).orders then 0
    else
      var before, after := db.orders[OrderOf(op)].facts, Next(db, op).orders[OrderOf(op)].facts;
      if |before| <= |after| then |after| - |before| else 0
  }

  /** INSERT of the first `n` rows, all under one ordering key. */
  function Enqueue(out: Dispatch.State, key: string, stamps: seq<Stamp>, n: nat): Dispatch.State
    requires n <= |stamps|
  {
    if n == 0 then out
    else
      var stamp := stamps[n - 1];
      Dispatch.Next(Enqueue(out, key, stamps, n - 1), Dispatch.Append(stamp.id, key, stamp.createdAt, stamp.createdAt))
  }

  function Ids(stamps: seq<Stamp>, n: nat): (ids: seq<string>)
    requires n <= |stamps|
    ensures |ids| == n
  {
    seq(n, i requires 0 <= i < n => stamps[i].id)
  }

  function Advance(s: System, act: Act): System {
    match act
    case Sync(step) => s.(out := Dispatch.Next(s.out, step))
    case Sell(op, stamps) =>
      var n := Added(s.db, op);
      if n > |stamps| then s
      else if n == 0 then s.(db := Next(s.db, op))
      else
        var id := OrderOf(op);
        System(Next(s.db, op), Enqueue(s.out, Key(id), stamps, n), s.events[id := EventsOf(s, id) + Ids(stamps, n)])
  }

  function Unfold(s: System, acts: seq<Act>): System
    decreases |acts|
  {
    if |acts| == 0 then s else Unfold(Advance(s, acts[0]), acts[1..])
  }

  // ---- what a run may assume ------------------------------------------------------------------------------------

  /** The new row is fresh and sorts after every row of its key. */
  predicate Latest(rows: OutboxTable.Rows, stamp: Stamp, key: string) {
    && stamp.id !in rows
    && forall r | r in rows && rows[r].key == key ::
         Less(rows[r].createdAt, stamp.createdAt) || (rows[r].createdAt == stamp.createdAt && Less(r, stamp.id))
  }

  predicate AllLatest(out: Dispatch.State, key: string, stamps: seq<Stamp>, n: nat)
    requires n <= |stamps|
  {
    n == 0 || (AllLatest(out, key, stamps, n - 1) && Latest(Enqueue(out, key, stamps, n - 1).rows, stamps[n - 1], key))
  }

  predicate MayHappen(s: System, act: Act) {
    match act
    case Sync(step) => Dispatch.Allowed(s.out, step) && !step.Skip?
    case Sell(op, stamps) =>
      Permitted(s.db, op) && Added(s.db, op) <= |stamps|
      && (Added(s.db, op) > 0 ==> AllLatest(s.out, Key(OrderOf(op)), stamps, Added(s.db, op)))
  }

  predicate AllMayHappen(s: System, acts: seq<Act>)
    decreases |acts|
  {
    |acts| == 0 || (MayHappen(s, acts[0]) && AllMayHappen(Advance(s, acts[0]), acts[1..]))
  }

  // ---- the invariant ----------------------------------------------------------------------------------------------

  /** Each event is a row of the order's key, and each sorts before the next ones. */
  ghost predicate Queued(rows: OutboxTable.Rows, key: string, events: seq<string>) {
    && (forall i | 0 <= i < |events| :: events[i] in rows && rows[events[i]].key == key)
    && (forall i, j | 0 <= i < j < |events| :: OutboxTable.Precedes(rows, events[i], events[j]))
  }

  predicate Sorted(facts: seq<Fact>, version: nat) {
    && (forall i, j | 0 <= i < j < |facts| :: facts[i].version <= facts[j].version)
    && (forall i | 0 <= i < |facts| :: facts[i].version <= version)
  }

  ghost predicate Linked(s: System, id: string)
    requires id in s.db.orders
  {
    && |EventsOf(s, id)| == |s.db.orders[id].facts|
    && Queued(s.out.rows, Key(id), EventsOf(s, id))
    && Sorted(s.db.orders[id].facts, s.db.orders[id].version)
  }

  ghost predicate SystemInv(s: System) {
    && DbInv(s.db) && Dispatch.Inv(s.out) && Dispatch.DeliveryInv(s.out)
    && (forall id | id in s.db.orders :: Linked(s, id))
    && (forall id | id in s.events :: id in s.db.orders)
  }

  // ---- the outbox half -------------------------------------------------------------------------------------------

  /** Rows that were there are still there, in the same order. */
  ghost predicate KeepsRows(rows: OutboxTable.Rows, rows': OutboxTable.Rows) {
    forall id | id in rows :: id in rows' && rows'[id].key == rows[id].key && rows'[id].createdAt == rows[id].createdAt
  }

  lemma QueuedStays(rows: OutboxTable.Rows, rows': OutboxTable.Rows, key: string, events: seq<string>)
    requires Queued(rows, key, events) && KeepsRows(rows, rows')
    ensures Queued(rows', key, events)
  {
    hide Less;
    forall i, j | 0 <= i < j < |events| ensures OutboxTable.Precedes(rows', events[i], events[j]) {
      assert OutboxTable.Precedes(rows, events[i], events[j]);
    }
  }

  lemma StepKeepsRows(out: Dispatch.State, step: Dispatch.Step)
    ensures KeepsRows(out.rows, Dispatch.Next(out, step).rows)
  {
    if step.Append? {
      hide Less;
    } else {
      Dispatch.StepKeepsOrder(out, step);
      hide Dispatch.Next;
    }
  }

  lemma LatestIsAllowed(out: Dispatch.State, stamp: Stamp, key: string)
    requires Latest(out.rows, stamp, key)
    ensures Dispatch.Allowed(out, Dispatch.Append(stamp.id, key, stamp.createdAt, stamp.createdAt))
  {
    forall f | f in out.wire && f in out.rows && out.rows[f].key == key
      ensures !(Less(stamp.createdAt, out.rows[f].createdAt)
                || (stamp.createdAt == out.rows[f].createdAt && Less(stamp.id, f)))
    {
      NotBothWays(out.rows[f].createdAt, stamp.createdAt);
      NotBothWays(f, stamp.id);
    }
  }

  lemma NotBothWays(a: string, b: string)
    ensures !(Less(a, b) && Less(b, a)) && !Less(a, a)
  {
    LessIrreflexive(a);
    if Less(a, b) && Less(b, a) {
      LessTransitive(a, b, a);
    }
  }

  /** Appending the stamped rows keeps the protocol's invariants and queues them after all others of the key. */
  lemma {:induction false} EnqueueQueues(out: Dispatch.State, key: string, stamps: seq<Stamp>, n: nat,
      events: seq<string>)
    requires n <= |stamps| && AllLatest(out, key, stamps, n) && Dispatch.Inv(out) && Dispatch.DeliveryInv(out)
    requires Queued(out.rows, key, events)
    ensures var out' := Enqueue(out, key, stamps, n);
            Dispatch.Inv(out') && Dispatch.DeliveryInv(out') && KeepsRows(out.rows, out'.rows)
              && Queued(out'.rows, key, events + Ids(stamps, n))
  {
    if n == 0 {
      assert events + Ids(stamps, 0) == events;
    } else {
      EnqueueQueues(out, key, stamps, n - 1, events);
      var mid, stamp := Enqueue(out, key, stamps, n - 1), stamps[n - 1];
      var step := Dispatch.Append(stamp.id, key, stamp.createdAt, stamp.createdAt);
      hide Less, Dispatch.Inv, Dispatch.DeliveryInv, Queued, Dispatch.Next, Latest, Dispatch.Allowed;
      LatestIsAllowed(mid, stamp, key);
      Dispatch.StepKeepsInv(mid, step);
      Dispatch.StepKeepsDelivery(mid, step);
      StepKeepsRows(mid, step);
      OneMoreQueued(mid, stamp, key, events + Ids(stamps, n - 1));
      assert events + Ids(stamps, n) == events + Ids(stamps, n - 1) + [stamp.id];
    }
  }

  lemma OneMoreQueued(out: Dispatch.State, stamp: Stamp, key: string, events: seq<string>)
    requires Latest(out.rows, stamp, key) && Queued(out.rows, key, events)
    ensures Queued(Dispatch.Next(out, Dispatch.Append(stamp.id, key, stamp.createdAt, stamp.createdAt)).rows, key,
                   events + [stamp.id])
  {
    var rows := Dispatch.Next(out, Dispatch.Append(stamp.id, key, stamp.createdAt, stamp.createdAt)).rows;
    var all := events + [stamp.id];
    hide Less;
    forall i, j | 0 <= i < j < |all| ensures OutboxTable.Precedes(rows, all[i], all[j]) {
      if j < |events| {
        assert OutboxTable.Precedes(out.rows, events[i], events[j]);
      } else {
        assert all[i] == events[i] && events[i] in out.rows;
      }
    }
  }

  // ---- the system keeps its invariant -----------------------------------------------------------------------

  lemma SyncKeepsInv(s: System, step: Dispatch.Step)
    requires SystemInv(s) && MayHappen(s, Sync(step))
    ensures SystemInv(Advance(s, Sync(step)))
  {
    var t := Advance(s, Sync(step));
    hide DbInv, Dispatch.Inv, Dispatch.DeliveryInv, Queued, Dispatch.Next, Dispatch.Allowed;
    Dispatch.StepKeepsInv(s.out, step);
    Dispatch.StepKeepsDelivery(s.out, step);
    StepKeepsRows(s.out, step);
    forall id | id in t.db.orders ensures Linked(t, id) {
      assert Linked(s, id);
      QueuedStays(s.out.rows, t.out.rows, Key(id), EventsOf(s, id));
    }
  }

  lemma SameAddsNothing(o: Order)
    ensures AddsFacts(o, o)
  {
  }

  /** The order a call names is what the call made of it, or what it was. */
  lemma NamedOrder(db: Db, op: Op)
    requires !op.CreateSale? && !op.StockFromCentral? && OrderOf(op) in db.orders
    requires var r := Call(Open(db, OrderOf(op)), op);
             r.Ok? ==> r.value.order.id == OrderOf(op)
    ensures OrderOf(op) in Next(db, op).orders
    ensures var o', r := Next(db, op).orders[OrderOf(op)], Call(Open(db, OrderOf(op)), op);
            o' == db.orders[OrderOf(op)] || (r.Ok? && o' == r.value.order)
  {
    hide Call, ValidReturnInput, ValidPayment, Normalized;
  }

  lemma NamedOrderFacts(db: Db, op: Op)
    requires DbInv(db) && Permitted(db, op) && !op.CreateSale? && !op.StockFromCentral? && OrderOf(op) in db.orders
    ensures OrderOf(op) in Next(db, op).orders && AddsFacts(db.orders[OrderOf(op)], Next(db, op).orders[OrderOf(op)])
  {
    hide DbInv, Permitted, Call, TxInv, AddsFacts, Next, Normalized;
    var id := OrderOf(op);
    PosTheorems.OpenInv(db, id);
    CallAddsFacts(Open(db, id), op);
    StockConservation.CalledOrder(db, op);
    NamedOrder(db, op);
    SameAddsNothing(db.orders[id]);
  }

  /** The facts of every order after a call. */
  lemma FactsAfter(db: Db, op: Op, id: string)
    requires DbInv(db) && Permitted(db, op) && id in db.orders
    ensures id in Next(db, op).orders
    ensures var o, o' := db.orders[id], Next(db, op).orders[id];
            if !op.StockFromCentral? && OrderOf(op) == id
            then AddsFacts(o, o') && |o'.facts| == |o.facts| + Added(db, op) else o' == o
  {
    hide DbInv, Permitted, Next, AddsFacts, Advances, Normalized;
    StepAdvances(db, op, id);
    SameAddsNothing(db.orders[id]);
    if !op.CreateSale? && !op.StockFromCentral? && OrderOf(op) == id {
      NamedOrderFacts(db, op);
      FactsGrow(db.orders[id], Next(db, op).orders[id]);
    } else if op.CreateSale? && op.id == id {
      TakenIdCreatesNothing(db, op);
    }
  }

  lemma FactsGrow(o: Order, o': Order)
    requires AddsFacts(o, o')
    ensures |o.facts| <= |o'.facts|
  {
  }

  lemma TakenIdCreatesNothing(db: Db, op: Op)
    requires op.CreateSale? && op.id in db.orders
    ensures Next(db, op) == db
  {
  }

  lemma NewOrderHasNoFacts(db: Db, op: Op, id: string)
    requires DbInv(db) && Permitted(db, op) && id !in db.orders && id in Next(db, op).orders
    ensures Next(db, op).orders[id].facts == [] && Next(db, op).orders[id].version == 1 && op.CreateSale? && op.id == id
  {
    if !op.CreateSale? && !op.StockFromCentral? && OrderOf(op) in db.orders {
      StockConservation.CalledOrder(db, op);
    }
    hide DbInv, Permitted, Call, ValidReturnInput, Normalized;
  }

  lemma SortedNext(o: Order, o': Order)
    requires Sorted(o.facts, o.version) && AddsFacts(o, o')
    ensures Sorted(o'.facts, o'.version)
  {
  }

  lemma SellKeepsInv(s: System, op: Op, stamps: seq<Stamp>)
    requires SystemInv(s) && MayHappen(s, Sell(op, stamps))
    ensures SystemInv(Advance(s, Sell(op, stamps)))
  {
    var t, n := Advance(s, Sell(op, stamps)), Added(s.db, op);
    hide DbInv, Dispatch.Inv, Dispatch.DeliveryInv, Queued, Permitted, Next, Sorted, AddsFacts, Enqueue, AllLatest;
    StepKeepsInv(s.db, op);
    if n > 0 {
      assert Linked(s, OrderOf(op));
      EnqueueQueues(s.out, Key(OrderOf(op)), stamps, n, EventsOf(s, OrderOf(op)));
    } else {
      assert KeepsRows(s.out.rows, s.out.rows);
    }
    forall id | id in t.db.orders ensures Linked(t, id) {
      if id in s.db.orders {
        OldOrderLinked(s, op, stamps, id);
      } else {
        NewOrderHasNoFacts(s.db, op, id);
        NothingQueued(t.out.rows, Key(id));
      }
    }
    forall id | id in t.events ensures id in t.db.orders {
      if id in s.db.orders {
        FactsAfter(s.db, op, id);
      }
    }
  }

  lemma NothingQueued(rows: OutboxTable.Rows, key: string)
    ensures Queued(rows, key, []) && Sorted([], 1)
  {
  }

  lemma OldOrderLinked(s: System, op: Op, stamps: seq<Stamp>, id: string)
    requires SystemInv(s) && MayHappen(s, Sell(op, stamps)) && id in s.db.orders
    requires var n := Added(s.db, op);
             n > 0 ==> KeepsRows(s.out.rows, Enqueue(s.out, Key(OrderOf(op)), stamps, n).rows)
                       && Queued(Enqueue(s.out, Key(OrderOf(op)), stamps, n).rows, Key(OrderOf(op)),
                                 EventsOf(s, OrderOf(op)) + Ids(stamps, n))
    ensures var t := Advance(s, Sell(op, stamps));
            id in t.db.orders && Linked(t, id)
  {
    hide DbInv, Linked, Dispatch.Inv, Dispatch.DeliveryInv, Queued, Permitted, Next, Sorted, AddsFacts, Enqueue,
         AllLatest, Added, KeepsRows;
    var t, n := Advance(s, Sell(op, stamps)), Added(s.db, op);
    LinkParts(s, id) by { assert Linked(s, id); }
    hide SystemInv, MayHappen;
    InvParts(s, op, stamps);
    ReportsAddNothing(s.db, op);
    FactsAfter(s.db, op, id);
    assert t.db == Next(s.db, op);
    if !op.StockFromCentral? && OrderOf(op) == id {
      SortedNext(s.db.orders[id], t.db.orders[id]);
      assert n == 0 ==> t.out == s.out && EventsOf(t, id) == EventsOf(s, id);
    } else {
      if n > 0 {
        QueuedStays(s.out.rows, t.out.rows, Key(id), EventsOf(s, id));
      }
      assert EventsOf(t, id) == EventsOf(s, id);
    }
    LinkFrom(t, id);
  }

  lemma ReportsAddNothing(db: Db, op: Op)
    ensures op.StockFromCentral? ==> Added(db, op) == 0
  {
  }

  lemma InvParts(s: System, op: Op, stamps: seq<Stamp>)
    requires SystemInv(s) && MayHappen(s, Sell(op, stamps))
    ensures DbInv(s.db) && Permitted(s.db, op) && Added(s.db, op) <= |stamps|
  {
  }

  lemma LinkParts(s: System, id: string)
    requires id in s.db.orders && Linked(s, id)
    ensures |EventsOf(s, id)| == |s.db.orders[id].facts| && Queued(s.out.rows, Key(id), EventsOf(s, id))
    ensures Sorted(s.db.orders[id].facts, s.db.orders[id].version)
  {
  }

  lemma LinkFrom(s: System, id: string)
    requires id in s.db.orders
    ensures (|EventsOf(s, id)| == |s.db.orders[id].facts| && Queued(s.out.rows, Key(id), EventsOf(s, id))
             && Sorted(s.db.orders[id].facts, s.db.orders[id].version)) ==> Linked(s, id)
  {
  }

  lemma {:induction false} UnfoldKeepsInv(s: System, acts: seq<Act>)
    requires SystemInv(s) && AllMayHappen(s, acts)
    ensures SystemInv(Unfold(s, acts))
    decreases |acts|
  {
    hide SystemInv, MayHappen, Advance;
    if |acts| > 0 {
      match acts[0] {
        case Sync(step) => SyncKeepsInv(s, step);
        case Sell(op, stamps) => SellKeepsInv(s, op, stamps);
      }
      UnfoldKeepsInv(Advance(s, acts[0]), acts[1..]);
    }
  }

  lemma InitialSystem()
    ensures SystemInv(INIT_SYSTEM)
  {
  }

  /**
   * In every run of calls and dispatch steps without manual skips, in which each new row of an
   * order sorts after its earlier rows: when Central has accepted a fact of an order it has accepted
   * all earlier facts of the order before it, their versions do not decrease, and a fact whose row
   * is published has been accepted. No fact of a committed call is missing from the outbox.
   */
  lemma FactsArriveInVersionOrder(acts: seq<Act>, id: string, i: nat, j: nat)
    requires AllMayHappen(INIT_SYSTEM, acts) && id in Unfold(INIT_SYSTEM, acts).db.orders
    requires i < j < |Unfold(INIT_SYSTEM, acts).db.orders[id].facts|
    ensures var s := Unfold(INIT_SYSTEM, acts);
            var facts, events := s.db.orders[id].facts, EventsOf(s, id);
            && |events| == |facts| && events[i] in s.out.rows && events[j] in s.out.rows && events[i] != events[j]
            && facts[i].version <= facts[j].version
            && (forall p | 0 <= p < |s.out.accepted| && s.out.accepted[p] == events[j] ::
                  events[i] in s.out.accepted[..p])
            && (s.out.rows[events[j]].status == OutboxTable.Published ==>
                events[j] in s.out.accepted && events[i] in s.out.accepted)
  {
    InitialSystem();
    UnfoldKeepsInv(INIT_SYSTEM, acts);
    var s := Unfold(INIT_SYSTEM, acts);
    var events := EventsOf(s, id);
    assert Linked(s, id);
    assert OutboxTable.Precedes(s.out.rows, events[i], events[j]);
    NotBothWays(s.out.rows[events[i]].createdAt, s.out.rows[events[i]].createdAt);
    NotBothWays(events[i], events[i]);
    hide Unfold, AllMayHappen, DbInv, Less, Dispatch.Inv, Queued;
    if s.out.rows[events[j]].status == OutboxTable.Published {
      var p :| 0 <= p < |s.out.accepted| && s.out.accepted[p] == events[j];
      assert events[i] in s.out.accepted[..p];
    }
  }
}
