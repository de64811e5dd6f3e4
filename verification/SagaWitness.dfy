/**
  A failed payment releases its order twice: once for the failure itself and once for the
  cancellation it causes. The run below shows the second release taking another order's stock.
*/
module SagaWitness {
  import opened Commerce
  import opened Saga
  import Messaging
  import Stock
  import Orders
  import Inventory
  import Payments
  import Ledger

  const ONE: seq<Line> := [Line(0, 1, 5)]
  const START: Stock.Rows := map[0 := Stock.Row(2, 0, 1)]

  const SHOPPER := Orders.Buyer("shop", None)

  const CREATED_1 := Event(EventId(OrderService, 0), OrderCreated(1, 5, ONE))
  const CREATED_2 := Event(EventId(OrderService, 1), OrderCreated(2, 5, ONE))
  const RESERVED_1 := Event(EventId(InventoryService, 0), InventoryReserved(1, ONE))
  const RESERVED_2 := Event(EventId(InventoryService, 1), InventoryReserved(2, ONE))
  const FAILED_1 := Event(EventId(PaymentService, 0), PaymentFailed(1, ONE))
  const CANCELLED_1 := Event(EventId(OrderService, 2), OrderCancelled(1, [Line(0, 1, 0)]))

  /** Two orders are placed and their creation events published. */
  const PLACE: seq<Action> := [Create(1, SHOPPER, "first", ONE, 0), Create(2, SHOPPER, "second", ONE, 0), Poll(OrderService, {0, 1}, true)]

  /** Both orders are reserved and the reservations published. */
  const RESERVE: seq<Action> :=
    [ToInventory(Message(CREATED_1, false), true), ToInventory(Message(CREATED_2, false), true), Poll(InventoryService, {0, 1}, true)]

  /** The first order's card is declined, which releases it, cancels it and publishes the cancellation. */
  const DECLINE: seq<Action> :=
    [ToPayments(Message(RESERVED_1, true), true), Poll(PaymentService, {0}, true), ToInventory(Message(FAILED_1, false), true),
     ToOrders(Message(FAILED_1, false), true), Poll(OrderService, {2}, true)]

  /** The cancellation releases it a second time. */
  const RELEASE: seq<Action> := [ToInventory(Message(CANCELLED_1, false), true)]

  lemma RunThree(s: State, actions: seq<Action>)
    requires |actions| == 3
    ensures Run(s, actions) == Step(Step(Step(s, actions[0]), actions[1]), actions[2])
  {
    RunNext(s, actions);
    RunNext(Step(s, actions[0]), actions[1..]);
    RunOne(Step(Step(s, actions[0]), actions[1]), actions[2]);
    assert actions[1..][1..] == [actions[2]];
  }

  lemma Demands()
    ensures forall p :: Demand(ONE, p) == if p == 0 then 1 else 0
    ensures forall p :: Hits(ONE, p) == if p == 0 then 1 else 0
    ensures Total(ONE) == 5 && Unpriced(ONE) == [Line(0, 1, 0)]
    ensures forall p :: Demand([Line(0, 1, 0)], p) == if p == 0 then 1 else 0
    ensures forall p :: Hits([Line(0, 1, 0)], p) == if p == 0 then 1 else 0
  {
    assert ONE[..0] == [] && [Line(0, 1, 0)][..0] == [];
  }

  lemma PlaceOne(s: State, o: OrderId, key: string)
    requires o !in s.orders.db.orders && !Orders.KeyUsed(s.orders.db, key)
    ensures var t := Step(s, Create(o, SHOPPER, key, ONE, 0));
            t == s.(orders := t.orders) && t.orders.inbox == s.orders.inbox &&
            t.orders.db.orders == s.orders.db.orders[o := Orders.Order(Orders.Pending, ONE, 5, key, 0, "shop")] &&
            t.orders.db.outbox == Write(s.orders.db.outbox, OrderService, OrderCreated(o, 5, ONE))
  {
    Demands();
  }

  lemma Place(s: State)
    requires s == Initial(START)
    ensures var t := Run(s, PLACE);
            t.orders.db.outbox == [CREATED_1, CREATED_2] && CREATED_1 in t.channel && CREATED_2 in t.channel &&
            1 in t.orders.db.orders && t.orders.db.orders[1] == Orders.Order(Orders.Pending, ONE, 5, "first", 0, "shop") &&
            t.orders.inbox == {} && t.inventory == s.inventory && t.payments == s.payments && t.book == s.book &&
            FAILED_1.id !in t.processed && CANCELLED_1.id !in t.processed &&
            RESERVED_1.id !in t.processed
  {
    RunThree(s, PLACE);
    PlaceOne(s, 1, "first");
    var one := Step(s, PLACE[0]);
    assert "first" != "second" by { assert |"first"| != |"second"|; }
    PlaceOne(one, 2, "second");
    var two := Step(one, PLACE[1]);
    assert Outbox(two, OrderService) == [CREATED_1, CREATED_2];
    Send(two, OrderService, {0, 1}, 0);
    Send(two, OrderService, {0, 1}, 1);
  }

  lemma ReserveOne(s: State, e: Event, o: OrderId)
    requires e.body == OrderCreated(o, 5, ONE) && Handles(s, Message(e, false))
    requires 0 in s.book.rows && s.book.rows[0].available >= 1 && s.book.rows == s.inventory.db.rows
    ensures var t := Step(s, ToInventory(Message(e, false), true));
            t == s.(inventory := t.inventory, book := t.book) && t.inventory.inbox == s.inventory.inbox + {e.id} &&
            t.inventory.db.outbox == Write(s.inventory.db.outbox, InventoryService, InventoryReserved(o, ONE)) &&
            t.book.held == s.book.held + [Ledger.Held(o, ONE[0])] && t.book.batches == s.book.batches &&
            t.inventory.db.rows == t.book.rows && 0 in t.book.rows &&
            t.book.rows[0] == Stock.Row(s.book.rows[0].available - 1, s.book.rows[0].reserved + 1, s.book.rows[0].version + 1)
  {
    Demands();
    assert Stock.Fits(s.book.rows, ONE);
    assert Ledger.Tag(o, ONE) == [Ledger.Held(o, ONE[0])];
  }

  /** One poll that sends row n of a worker's outbox. */
  lemma Send(s: State, w: Service, sent: set<nat>, n: nat)
    requires n in sent && n < |Outbox(s, w)| && Outbox(s, w)[n].id !in s.processed
    ensures var t := Step(s, Poll(w, sent, true));
            t == s.(channel := t.channel, processed := t.processed) && s.channel <= t.channel && Outbox(s, w)[n] in t.channel &&
            forall id :: id in t.processed && id !in s.processed ==>
              exists k :: k in sent && k < |Outbox(s, w)| && Outbox(s, w)[k].id == id
  {
  }

  lemma TwoReserved(s: State)
    requires CREATED_1 in s.channel && CREATED_2 in s.channel
    requires s.inventory == Messaging.Node(Inventory.Db(START, []), {}) && s.book == Ledger.Opening(START)
    ensures var t := Step(Step(s, RESERVE[0]), RESERVE[1]);
            t == s.(inventory := t.inventory, book := t.book) && Outbox(t, InventoryService) == [RESERVED_1, RESERVED_2] &&
            0 in t.book.rows && t.book.rows[0].reserved == 2 && t.inventory.db.rows == t.book.rows &&
            t.book.held == [Ledger.Held(1, ONE[0]), Ledger.Held(2, ONE[0])] && t.book.batches == [] &&
            t.inventory.inbox == {CREATED_1.id, CREATED_2.id}
  {
    ReserveOne(s, CREATED_1, 1);
    ReserveOne(Step(s, RESERVE[0]), CREATED_2, 2);
  }

  lemma ReserveBoth(s: State)
    requires CREATED_1 in s.channel && CREATED_2 in s.channel
    requires s.inventory == Messaging.Node(Inventory.Db(START, []), {}) && s.book == Ledger.Opening(START)
    requires RESERVED_1.id !in s.processed && FAILED_1.id !in s.processed && CANCELLED_1.id !in s.processed
    ensures var t := Run(s, RESERVE);
            t.orders == s.orders && t.payments == s.payments && s.channel <= t.channel &&
            RESERVED_1 in t.channel && 0 in t.book.rows && t.book.rows[0].reserved == 2 &&
            t.book.held == [Ledger.Held(1, ONE[0]), Ledger.Held(2, ONE[0])] && t.book.batches == [] &&
            t.inventory.db.rows == t.book.rows && t.inventory.inbox == {CREATED_1.id, CREATED_2.id} &&
            FAILED_1.id !in t.processed && CANCELLED_1.id !in t.processed
  {
    RunThree(s, RESERVE);
    TwoReserved(s);
    Send(Step(Step(s, RESERVE[0]), RESERVE[1]), InventoryService, {0, 1}, 0);
  }

  lemma GiveOne(s: State, e: Event, lines: seq<Line>)
    requires e.body == PaymentFailed(1, lines) || e.body == OrderCancelled(1, lines)
    requires lines == ONE || lines == [Line(0, 1, 0)]
    requires Handles(s, Message(e, false))
    requires 0 in s.book.rows && s.book.rows[0].reserved >= 1 && s.book.rows == s.inventory.db.rows
    ensures var t := Step(s, ToInventory(Message(e, false), true));
            t == s.(inventory := t.inventory, book := t.book) && t.inventory.inbox == s.inventory.inbox + {e.id} &&
            t.book.held == Ledger.Without(s.book.held, 1) && t.book.batches == s.book.batches &&
            t.inventory.db.rows == t.book.rows && 0 in t.book.rows &&
            t.book.rows[0].reserved == s.book.rows[0].reserved - 1
  {
    Demands();
  }

  lemma WithoutFirst()
    ensures Ledger.Without([Ledger.Held(1, ONE[0]), Ledger.Held(2, ONE[0])], 1) == [Ledger.Held(2, ONE[0])]
    ensures Ledger.Without([Ledger.Held(2, ONE[0])], 1) == [Ledger.Held(2, ONE[0])]
    ensures Ledger.Outstanding([Ledger.Held(2, ONE[0])], 0) == 1
  {
    var a, b := Ledger.Held(1, ONE[0]), Ledger.Held(2, ONE[0]);
    assert [a][..0] == [] && [b][..0] == [];
    assert Ledger.Without([a], 1) == [] && Ledger.Without([b], 1) == [] + [b] == [b];
    assert [a, b][..1] == [a] && [] + [b] == [b];
    assert Ledger.HeldLines([b]) == ONE;
    Demands();
  }

  /** The facts about stock and order 1 that the two releases start from. */
  ghost predicate BothHeld(s: State) {
    RESERVED_1 in s.channel && s.orders.inbox == {} && s.orders.db.outbox == [CREATED_1, CREATED_2] &&
    1 in s.orders.db.orders && s.orders.db.orders[1] == Orders.Order(Orders.Pending, ONE, 5, "first", 0, "shop") &&
    0 in s.book.rows && s.book.rows[0].reserved == 2 && s.book.rows == s.inventory.db.rows &&
    s.book.held == [Ledger.Held(1, ONE[0]), Ledger.Held(2, ONE[0])] && s.book.batches == [] &&
    s.inventory.inbox == {CREATED_1.id, CREATED_2.id} && CANCELLED_1.id !in s.processed
  }

  lemma DeclineOne(s: State)
    requires BothHeld(s) && s.payments == Messaging.Node(Payments.Db([], []), {}) && FAILED_1.id !in s.processed
    ensures var t := Step(Step(s, DECLINE[0]), DECLINE[1]);
            BothHeld(t) && FAILED_1 in t.channel
  {
    var paid := Step(s, DECLINE[0]);
    assert Outbox(paid, PaymentService) == [FAILED_1];
    Send(paid, PaymentService, {0}, 0);
  }

  lemma ReleaseTwice(s: State)
    requires BothHeld(s) && FAILED_1 in s.channel
    ensures var t := Step(Step(Step(Step(s, DECLINE[2]), DECLINE[3]), DECLINE[4]), RELEASE[0]);
            0 in t.book.rows && t.book.rows[0].reserved == 0 && t.book.batches == [] && t.inventory.db.rows == t.book.rows &&
            t.book.held == [Ledger.Held(2, ONE[0])]
  {
    WithoutFirst();
    GiveOne(s, FAILED_1, ONE);
    var given := Step(s, DECLINE[2]);
    CancelOne(given);
    var cancelled := Step(given, DECLINE[3]);
    Send(cancelled, OrderService, {2}, 2);
    GiveOne(Step(cancelled, DECLINE[4]), CANCELLED_1, [Line(0, 1, 0)]);
  }

  lemma CancelOne(s: State)
    requires FAILED_1 in s.channel && s.orders.inbox == {} && s.orders.db.outbox == [CREATED_1, CREATED_2]
    requires 1 in s.orders.db.orders && s.orders.db.orders[1] == Orders.Order(Orders.Pending, ONE, 5, "first", 0, "shop")
    ensures var t := Step(s, DECLINE[3]);
            t == s.(orders := t.orders) && t.orders.db.outbox == [CREATED_1, CREATED_2, CANCELLED_1]
  {
    Demands();
  }

  lemma Decline(s: State)
    requires BothHeld(s) && s.payments == Messaging.Node(Payments.Db([], []), {}) && FAILED_1.id !in s.processed
    ensures var t := Run(s, DECLINE + RELEASE);
            0 in t.book.rows && t.book.rows[0].reserved == 0 && t.book.batches == [] && t.inventory.db.rows == t.book.rows &&
            t.book.held == [Ledger.Held(2, ONE[0])]
  {
    RunConcat(s, DECLINE, RELEASE);
    RunOne(Run(s, DECLINE), RELEASE[0]);
    RunNext(s, DECLINE);
    RunNext(Step(s, DECLINE[0]), DECLINE[1..]);
    assert DECLINE[1..][1..] == DECLINE[2..];
    RunThree(Step(Step(s, DECLINE[0]), DECLINE[1]), DECLINE[2..]);
    DeclineOne(s);
    ReleaseTwice(Step(Step(s, DECLINE[0]), DECLINE[1]));
  }

  /**
    A reachable run after which order 2 still holds its unit in the ledger while nothing at all is
    reserved: the ledger and the rows have parted.
  */
  lemma DoubleReleaseTakesAnothersStock()
    ensures var s := Run(Initial(START), PLACE + RESERVE + (DECLINE + RELEASE));
            0 in s.inventory.db.rows && s.inventory.db.rows[0].reserved == 0 &&
            Ledger.Outstanding(s.book.held, 0) == 1 && !Ledger.Exact(START, s.book, 0)
  {
    var s := Initial(START);
    Place(s);
    var placed := Run(s, PLACE);
    ReserveBoth(placed);
    Decline(Run(placed, RESERVE));
    RunConcat(s, PLACE, RESERVE);
    RunConcat(s, PLACE + RESERVE, DECLINE + RELEASE);
    WithoutFirst();
  }
}
