/** The order service: checkout, the saga handlers and the timeout sweeper. */
module Orders {
  import opened Commerce
  import Messaging

  datatype Status = Pending | StockReserved | Confirmed | Cancelled | CancelledNoStock

  datatype Order = Order(status: Status, items: seq<Line>, total: nat, key: string, createdAt: int, tenant: string)

  /** Who checks out, and how many orders the tenant's plan allows; no limit applies without Redis. */
  datatype Buyer = Buyer(tenant: string, limit: Option<nat>)

  /** How a checkout ends: a new order, the tenant's earlier order for the key, or an error. */
  datatype Checkout = Placed(order: OrderId) | Existing(order: OrderId) | QuotaExceeded | KeyConflict

  datatype Db = Db(orders: map<OrderId, Order>, outbox: seq<Event>)

  predicate Live(status: Status) { status.Pending? || status.StockReserved? }

  predicate Accepts(m: Message) {
    m.event.body.InventoryReserved? || m.event.body.InventoryReserveFailed? ||
    m.event.body.PaymentSuccess? || m.event.body.PaymentFailed?
  }

  function SetStatus(db: Db, o: OrderId, status: Status): Db
    requires o in db.orders
  {
    db.(orders := db.orders[o := db.orders[o].(status := status)])
  }

  /** Cancels an order and writes its compensation event in the same transaction. */
  function Cancel(db: Db, o: OrderId): Db {
    if o in db.orders && Live(db.orders[o].status) then
      SetStatus(db, o, Cancelled)
        .(outbox := Write(db.outbox, OrderService, OrderCancelled(o, Unpriced(db.orders[o].items))))
    else db
  }

  function Handle(db: Db, m: Message): Db {
    match m.event.body
    case InventoryReserved(o, _) =>
      if o in db.orders && db.orders[o].status.Pending? then SetStatus(db, o, StockReserved) else db
    case InventoryReserveFailed(o) =>
      if o in db.orders && Live(db.orders[o].status) then SetStatus(db, o, CancelledNoStock) else db
    case PaymentSuccess(o, _) =>
      if o in db.orders && db.orders[o].status.StockReserved? then SetStatus(db, o, Confirmed) else db
    case PaymentFailed(o, _) => Cancel(db, o)
    case _ => db
  }

  predicate KeyUsed(db: Db, key: string) {
    exists o :: o in db.orders && db.orders[o].key == key
  }

  predicate QuotaReached(db: Db, buyer: Buyer) {
    buyer.limit.Some? && |set o | o in db.orders && db.orders[o].tenant == buyer.tenant| >= buyer.limit.value
  }

  /**
    Checkout: over quota or with a used idempotency key nothing changes, whichever tenant used the key;
    otherwise a pending order and its event are added.
  */
  function Create(db: Db, o: OrderId, buyer: Buyer, key: string, items: seq<Line>, now: int): Db {
    if QuotaReached(db, buyer) || KeyUsed(db, key) || o in db.orders then db
    else Db(db.orders[o := Order(Pending, items, Total(items), key, now, buyer.tenant)],
            Write(db.outbox, OrderService, OrderCreated(o, Total(items), items)))
  }

  predicate Stale(order: Order, cutoff: int) { Live(order.status) && order.createdAt <= cutoff }

  function StaleIds(orders: map<OrderId, Order>, cutoff: int): set<OrderId> {
    set o | o in orders && Stale(orders[o], cutoff)
  }

  /** One sweep transaction: those of the selected orders that are stale are cancelled. */
  function SweepBatch(db: Db, selected: seq<OrderId>, cutoff: int): Db {
    if |selected| == 0 then db
    else
      var before := SweepBatch(db, selected[..|selected| - 1], cutoff);
      var o := selected[|selected| - 1];
      if o in before.orders && Stale(before.orders[o], cutoff) then Cancel(before, o) else before
  }

  /** Every stale order cancelled, every other order as it was. */
  function Swept(orders: map<OrderId, Order>, cutoff: int): map<OrderId, Order> {
    map o | o in orders :: if Stale(orders[o], cutoff) then orders[o].(status := Cancelled) else orders[o]
  }

  predicate Distinct(s: seq<OrderId>) { forall i, j :: 0 <= i < j < |s| ==> s[i] != s[j] }

  class Service {
    var orders: map<OrderId, Order>
    var outbox: seq<Event>
    var inbox: set<EventId>

    ghost function Node(): Messaging.Node<Db>
      reads this
    {
      Messaging.Node(Db(orders, outbox), inbox)
    }

    constructor ()
      ensures Node() == Messaging.Node(Db(map[], []), {})
    {
      orders, outbox, inbox := map[], [], {};
    }

    /**
      Checkout. `newId` is the id the new order would get. The key is looked up within the tenant, but its
      column is unique across tenants, so another tenant's key makes the insert fail.
    */
    method CreateOrder(newId: OrderId, buyer: Buyer, key: string, items: seq<Line>, now: int) returns (result: Checkout)
      requires newId !in orders
      modifies this`orders, this`outbox
      ensures Node().db == Create(old(Node().db), newId, buyer, key, items, now)
      ensures result.QuotaExceeded? <==> QuotaReached(old(Node().db), buyer)
      ensures result.Placed? <==> !QuotaReached(old(Node().db), buyer) && !KeyUsed(old(Node().db), key)
      ensures result.Placed? ==> result.order == newId && newId in orders && orders[newId].total == Sum(UnitPrices(items))
      ensures result.Existing? ==> result.order in old(orders) && orders[result.order].key == key && orders[result.order].tenant == buyer.tenant
      ensures result.KeyConflict? ==>
                exists o :: o in orders && orders[o].key == key && orders[o].tenant != buyer.tenant
    {
      if buyer.limit.Some? {
        var count := |set o | o in orders && orders[o].tenant == buyer.tenant|;
        if count >= buyer.limit.value {
          return QuotaExceeded;
        }
      }
      if existing :| existing in orders && orders[existing].key == key && orders[existing].tenant == buyer.tenant {
        return Existing(existing);
      }
      if other :| other in orders && orders[other].key == key {
        return KeyConflict;
      }
      var total, saved, i := 0, [], 0;
      while i < |items|
        invariant i <= |items|
        invariant saved == items[..i] && total == Total(items[..i])
      {
        assert items[..i + 1][..i] == items[..i];
        total := total + items[i].quantity * items[i].unitPrice;
        saved := saved + [items[i]];
        i := i + 1;
      }
      assert items[..i] == items;
      TotalIsPerUnit(items);
      orders := orders[newId := Order(Pending, saved, total, key, now, buyer.tenant)];
      outbox := Write(outbox, OrderService, OrderCreated(newId, total, items));
      result := Placed(newId);
    }

    /** One delivery whose transaction commits. */
    method ProcessEvent(m: Message)
      modifies this
      ensures Node() == Messaging.Receive(Accepts, Handle, old(Node()), m)
    {
      if m.event.id in inbox {
        return;
      }
      match m.event.body {
        case InventoryReserved(o, _) =>
          if o in orders && orders[o].status == Pending {
            orders := orders[o := orders[o].(status := StockReserved)];
          }
        case InventoryReserveFailed(o) =>
          if o in orders && (orders[o].status == Pending || orders[o].status == StockReserved) {
            orders := orders[o := orders[o].(status := CancelledNoStock)];
          }
        case PaymentSuccess(o, _) =>
          if o in orders && orders[o].status == StockReserved {
            orders := orders[o := orders[o].(status := Confirmed)];
          }
        case PaymentFailed(o, _) =>
          if o in orders && (orders[o].status == Pending || orders[o].status == StockReserved) {
            CancelOrder(o);
          }
        case _ => return;
      }
      inbox := inbox + {m.event.id};
    }

    method CancelOrder(o: OrderId)
      requires o in orders && Live(orders[o].status)
      modifies this`orders, this`outbox
      ensures Node().db == Cancel(old(Node().db), o)
    {
      orders := orders[o := orders[o].(status := Cancelled)];
      outbox := Write(outbox, OrderService, OrderCancelled(o, Unpriced(orders[o].items)));
    }

    /** The sweeper's query: at most `limit` of the stale orders, in no particular order. */
    method SelectStale(cutoff: int, limit: nat) returns (selected: seq<OrderId>)
      ensures Distinct(selected) && |selected| <= limit
      ensures forall o :: o in selected ==> o in StaleIds(orders, cutoff)
      ensures |selected| < limit ==> forall o :: o in StaleIds(orders, cutoff) ==> o in selected
    {
      selected := [];
      var rest := StaleIds(orders, cutoff);
      while |selected| < limit && rest != {}
        invariant Distinct(selected) && |selected| <= limit
        invariant forall o :: o in StaleIds(orders, cutoff) <==> o in selected || o in rest
        invariant forall o :: o in rest ==> o !in selected
        decreases limit - |selected|
      {
        var o :| o in rest;
        selected, rest := selected + [o], rest - {o};
      }
    }

    /** The body of one sweep transaction. */
    method CancelSelected(selected: seq<OrderId>, cutoff: int)
      requires Distinct(selected)
      requires forall i :: 0 <= i < |selected| ==> selected[i] in StaleIds(orders, cutoff)
      modifies this`orders, this`outbox
      ensures Node().db == SweepBatch(old(Node().db), selected, cutoff)
    {
      var i := 0;
      while i < |selected|
        invariant i <= |selected|
        invariant Node().db == SweepBatch(old(Node().db), selected[..i], cutoff)
      {
        SweepBatchOrders(old(Node().db), selected[..i], cutoff);
        assert selected[..i + 1][..i] == selected[..i];
        CancelOrder(selected[i]);
        i := i + 1;
      }
      assert selected[..i] == selected;
    }

    /**
      The sweep loop: one transaction per batch until a batch comes back empty. Round r reads the clock
      and so uses the cutoff cutoffs(r). `swept` lists the cancelled orders in the order in which their
      compensation events were written; `rounds` counts the batches that found something.
    */
    method SweepStaleSagas(cutoffs: nat -> int, batchSize: nat) returns (total: nat, ghost swept: seq<OrderId>, rounds: nat)
      requires forall i: nat, j: nat :: i <= j ==> cutoffs(i) <= cutoffs(j)
      modifies this`orders, this`outbox
      ensures Distinct(swept) && total == |swept|
      ensures forall o :: o in swept <==> batchSize > 0 && o in StaleIds(old(orders), cutoffs(rounds))
      ensures Node().db == SweepBatch(old(Node().db), swept, cutoffs(rounds))
      ensures orders == if batchSize > 0 then Swept(old(orders), cutoffs(rounds)) else old(orders)
    {
      total, swept, rounds := 0, [], 0;
      ghost var was := Node().db;
      ghost var live := LiveIds(orders);
      while true
        invariant Distinct(swept) && total == |swept|
        invariant batchSize == 0 ==> swept == []
        invariant forall o :: o in swept ==> o in StaleIds(old(orders), cutoffs(rounds))
        invariant was == old(Node().db) && live == LiveIds(old(orders))
        invariant Node().db == SweepBatch(was, swept, cutoffs(rounds))
        decreases |live| - |swept|
      {
        SweepBatchOrders(was, swept, cutoffs(rounds));
        var selected := SelectStale(cutoffs(rounds), batchSize);
        if |selected| == 0 {
          if batchSize > 0 { SweepIsComplete(was, swept, cutoffs(rounds)); }
          break;
        }
        assert forall i :: 0 <= i < |selected| ==> selected[i] in selected;
        CancelSelected(selected, cutoffs(rounds));
        SweepBatchConcat(was, swept, selected, cutoffs(rounds));
        swept := swept + selected;
        total := total + |selected|;
        LaterCutoff(was, swept, cutoffs(rounds), cutoffs(rounds + 1));
        rounds := rounds + 1;
        DistinctFits(swept, live);
      }
    }
  }

  function LiveIds(orders: map<OrderId, Order>): set<OrderId> {
    set o | o in orders && Live(orders[o].status)
  }

  /** Orders stale at one cutoff are stale at a later one, so sweeping them is the same sweep. */
  lemma {:induction false} LaterCutoff(db: Db, selected: seq<OrderId>, cutoff: int, later: int)
    requires cutoff <= later && forall o :: o in selected ==> o in StaleIds(db.orders, cutoff)
    ensures SweepBatch(db, selected, cutoff) == SweepBatch(db, selected, later)
    ensures forall o :: o in selected ==> o in StaleIds(db.orders, later)
  {
    if |selected| > 0 {
      var n := |selected| - 1;
      assert forall o :: o in selected[..n] ==> o in selected;
      LaterCutoff(db, selected[..n], cutoff, later);
      SweepBatchOrders(db, selected[..n], cutoff);
      assert selected[n] in selected;
    }
  }

  lemma {:induction false} DistinctFits(s: seq<OrderId>, all: set<OrderId>)
    requires Distinct(s) && forall o :: o in s ==> o in all
    ensures |s| <= |all|
  {
    if |s| > 0 {
      var last := s[|s| - 1];
      DistinctFits(s[..|s| - 1], all - {last});
    }
  }

  /** A sweep touches exactly the selected stale orders and only ever cancels. */
  lemma {:induction false} SweepBatchOrders(db: Db, selected: seq<OrderId>, cutoff: int)
    ensures SweepBatch(db, selected, cutoff).orders.Keys == db.orders.Keys
    ensures forall o :: o in db.orders ==>
              SweepBatch(db, selected, cutoff).orders[o] ==
              if o in selected && Stale(db.orders[o], cutoff) then db.orders[o].(status := Cancelled) else db.orders[o]
  {
    if |selected| > 0 {
      var n := |selected| - 1;
      SweepBatchOrders(db, selected[..n], cutoff);
      assert selected == selected[..n] + [selected[n]];
    }
  }

  /** If nothing stale is left, everything stale was swept. */
  lemma SweepIsComplete(db: Db, swept: seq<OrderId>, cutoff: int)
    requires forall o :: o in swept ==> o in StaleIds(db.orders, cutoff)
    requires forall o :: o !in StaleIds(SweepBatch(db, swept, cutoff).orders, cutoff)
    ensures forall o :: o in swept <==> o in StaleIds(db.orders, cutoff)
    ensures SweepBatch(db, swept, cutoff).orders == Swept(db.orders, cutoff)
  {
    SweepBatchOrders(db, swept, cutoff);
    forall o | o in StaleIds(db.orders, cutoff) ensures o in swept {
      assert o in StaleIds(SweepBatch(db, swept, cutoff).orders, cutoff) || o in swept;
    }
  }

  lemma {:induction false} SweepBatchConcat(db: Db, a: seq<OrderId>, b: seq<OrderId>, cutoff: int)
    ensures SweepBatch(db, a + b, cutoff) == SweepBatch(SweepBatch(db, a, cutoff), b, cutoff)
  {
    if b == [] {
      assert a + b == a;
    } else {
      var n := |b| - 1;
      SweepBatchConcat(db, a, b[..n], cutoff);
      assert (a + b)[..|a + b| - 1] == a + b[..n];
    }
  }

  lemma SweepOneMore(db: Db, selected: seq<OrderId>, cutoff: int)
    requires |selected| > 0 && Distinct(selected)
    requires selected[|selected| - 1] in db.orders && Stale(db.orders[selected[|selected| - 1]], cutoff)
    ensures var before, o := SweepBatch(db, selected[..|selected| - 1], cutoff), selected[|selected| - 1];
            SweepBatch(db, selected, cutoff).outbox == Write(before.outbox, OrderService, OrderCancelled(o, Unpriced(db.orders[o].items)))
  {
    SweepBatchOrders(db, selected[..|selected| - 1], cutoff);
  }

  /** A sweep of distinct stale orders writes one compensation event for each, with its own items. */
  lemma {:induction false} SweepBatchEvents(db: Db, selected: seq<OrderId>, cutoff: int)
    requires Distinct(selected)
    requires forall i :: 0 <= i < |selected| ==> selected[i] in db.orders && Stale(db.orders[selected[i]], cutoff)
    ensures |SweepBatch(db, selected, cutoff).outbox| == |db.outbox| + |selected|
    ensures db.outbox <= SweepBatch(db, selected, cutoff).outbox
    ensures forall i :: 0 <= i < |selected| ==>
              SweepBatch(db, selected, cutoff).outbox[|db.outbox| + i] ==
              Event(EventId(OrderService, |db.outbox| + i), OrderCancelled(selected[i], Unpriced(db.orders[selected[i]].items)))
  {
    if |selected| > 0 {
      SweepBatchEvents(db, selected[..|selected| - 1], cutoff);
      SweepOneMore(db, selected, cutoff);
    }
  }
}
