/**
  A reachable run in which one unit is sold twice although no card is declined: an order that found no
  stock is swept out before it hears so, and its compensation releases the unit that another order holds.
*/
module SagaOversoldWitness {
  import opened Commerce
  import opened Saga
  import opened SagaTheorems
  import opened SagaRest
  import opened SagaWitness
  import Messaging
  import Stock
  import Orders
  import Inventory
  import Payments
  import Ledger

  /** A single unit. */
  const SINGLE: Stock.Rows := map[0 := Stock.Row(1, 0, 1)]

  function Ordered(status: Orders.Status, key: string, now: int): Orders.Order {
    Orders.Order(status, ONE, 5, key, now, "shop")
  }

  function FromOrders(n: nat, body: Body): Event { Event(EventId(OrderService, n), body) }
  function FromInventory(n: nat, body: Body): Event { Event(EventId(InventoryService, n), body) }
  function FromPayments(n: nat, body: Body): Event { Event(EventId(PaymentService, n), body) }

  const MADE_1 := FromOrders(0, OrderCreated(1, 5, ONE))
  const MADE_2 := FromOrders(1, OrderCreated(2, 5, ONE))
  const MADE_3 := FromOrders(2, OrderCreated(3, 5, ONE))
  const SWEPT_1 := FromOrders(3, OrderCancelled(1, [Line(0, 1, 0)]))
  const KEPT_2 := FromInventory(0, InventoryReserved(2, ONE))
  const NONE_1 := FromInventory(1, InventoryReserveFailed(1))
  const BACK_1 := FromInventory(2, InventoryReleased(1))
  const KEPT_3 := FromInventory(3, InventoryReserved(3, ONE))
  const PAID_2 := FromPayments(0, PaymentSuccess(2, ONE))
  const PAID_3 := FromPayments(1, PaymentSuccess(3, ONE))

  function Tell(e: Event): Message { Message(e, false) }

  const PLACE_ALL: seq<Action> := [Create(1, SHOPPER, "a", ONE, 0), Create(2, SHOPPER, "bb", ONE, 1), Create(3, SHOPPER, "ccc", ONE, 2)]

  const PUBLISH_ALL: seq<Action> := [Poll(OrderService, {0}, true), Poll(OrderService, {1}, true), Poll(OrderService, {2}, true)]

  /** Order 2 gets the unit, order 1 finds none and is swept out. */
  const SWEEP_FIRST: seq<Action> := [ToInventory(Tell(MADE_2), true), ToInventory(Tell(MADE_1), true), Sweep([1], 0)]

  /** Its compensation frees order 2's unit, and order 3 gets it. */
  const FREE: seq<Action> := [Poll(OrderService, {3}, true), ToInventory(Tell(SWEPT_1), true), ToInventory(Tell(MADE_3), true)]

  const CHARGE_BOTH: seq<Action> := [Poll(InventoryService, {0}, true), Poll(InventoryService, {3}, true), ToPayments(Tell(KEPT_2), true)]

  const CHARGED_BOTH: seq<Action> := [ToPayments(Tell(KEPT_3), true), Poll(PaymentService, {0}, true), Poll(PaymentService, {1}, true)]

  const CONFIRM: seq<Action> := [ToOrders(Tell(KEPT_2), true), ToOrders(Tell(PAID_2), true), ToOrders(Tell(KEPT_3), true)]

  const CONFIRM_LAST: seq<Action> := [ToOrders(Tell(PAID_3), true)]

  const OVERSELL: seq<Action> := PLACE_ALL + PUBLISH_ALL + SWEEP_FIRST + FREE + CHARGE_BOTH + CHARGED_BOTH + CONFIRM + CONFIRM_LAST

  /** The orders once all are placed, with the given statuses. */
  function Three(one: Orders.Status, two: Orders.Status, three: Orders.Status): map<OrderId, Orders.Order> {
    map[1 := Ordered(one, "a", 0), 2 := Ordered(two, "bb", 1), 3 := Ordered(three, "ccc", 2)]
  }

  // ---------- single steps ----------

  lemma PlaceAt(db: Orders.Db, o: OrderId, key: string, now: int)
    requires o !in db.orders && !Orders.KeyUsed(db, key)
    ensures Orders.Create(db, o, SHOPPER, key, ONE, now) ==
            Orders.Db(db.orders[o := Ordered(Orders.Pending, key, now)], Write(db.outbox, OrderService, OrderCreated(o, 5, ONE)))
  {
    Demands();
  }

  lemma Stocked(s: State, e: Event)
    requires Handles(s, Tell(e))
    ensures var t := Step(s, ToInventory(Tell(e), true));
            t == s.(inventory := Messaging.Node(Inventory.Handle(s.inventory.db, Tell(e)), s.inventory.inbox + {e.id}), book := t.book)
  {
  }

  /** Reserving one unit of the only product, if it is there. */
  lemma HandleMade(db: Inventory.Db, e: Event, o: OrderId, available: nat, reserved: nat, version: int)
    requires db.rows == map[0 := Stock.Row(available, reserved, version)] && e.body == OrderCreated(o, 5, ONE)
    ensures Inventory.Handle(db, Tell(e)) ==
            if available >= 1
            then Inventory.Db(map[0 := Stock.Row(available - 1, reserved + 1, version + 1)], Write(db.outbox, InventoryService, InventoryReserved(o, ONE)))
            else Inventory.Db(db.rows, Write(db.outbox, InventoryService, InventoryReserveFailed(o)))
  {
    Demands();
    if available >= 1 {
      assert Stock.Fits(db.rows, ONE);
    } else {
      assert ONE[0].product == 0 && !Stock.Fits(db.rows, ONE);
      assert Stock.FailsAt(db.rows, ONE, 0) by { assert ONE[..0] == []; }
      assert ONE[..0] == [];
      assert Stock.Bump(db.rows, [], 2) == db.rows;
    }
  }

  lemma HandleSwept(db: Inventory.Db, available: nat, reserved: nat, version: int)
    requires db.rows == map[0 := Stock.Row(available, reserved, version)] && reserved >= 1
    ensures Inventory.Handle(db, Tell(SWEPT_1)) ==
            Inventory.Db(map[0 := Stock.Row(available + 1, reserved - 1, version + 1)], Write(db.outbox, InventoryService, InventoryReleased(1)))
  {
    Demands();
  }

  lemma Heeded(s: State, e: Event)
    requires e in s.channel && e.id.source != OrderService && e.id !in s.orders.inbox && Orders.Accepts(Tell(e))
    ensures Step(s, ToOrders(Tell(e), true)) ==
            s.(orders := Messaging.Node(Orders.Handle(s.orders.db, Tell(e)), s.orders.inbox + {e.id}))
  {
  }

  lemma Charges(s: State, e: Event, o: OrderId)
    requires e in s.channel && e.id.source == InventoryService && e.id !in s.payments.inbox && e.body == InventoryReserved(o, ONE)
    ensures Step(s, ToPayments(Tell(e), true)) ==
            s.(payments := Messaging.Node(
                 Payments.Db(s.payments.db.payments + [Payments.Payment(o, 5)], Write(s.payments.db.outbox, PaymentService, PaymentSuccess(o, ONE))),
                 s.payments.inbox + {e.id}))
  {
    Demands();
  }

  lemma SweepFirst(db: Orders.Db)
    requires db == Orders.Db(Three(Orders.Pending, Orders.Pending, Orders.Pending), [MADE_1, MADE_2, MADE_3])
    ensures Orders.SweepBatch(db, [1], 0) ==
            Orders.Db(Three(Orders.Cancelled, Orders.Pending, Orders.Pending), [MADE_1, MADE_2, MADE_3, SWEPT_1])
  {
    Demands();
    assert [1][..0] == [];
    assert Orders.SweepBatch(db, [], 0) == db;
    assert Orders.SweepBatch(db, [1], 0) == Orders.Cancel(db, 1);
  }

  // ---------- the run, three steps at a time ----------

  lemma PlaceAll(s: State)
    requires s == Initial(SINGLE)
    ensures Run(s, PLACE_ALL) ==
            s.(orders := Messaging.Node(Orders.Db(Three(Orders.Pending, Orders.Pending, Orders.Pending), [MADE_1, MADE_2, MADE_3]), {}))
  {
    RunThree(s, PLACE_ALL);
    assert |"a"| == 1 && |"bb"| == 2 && |"ccc"| == 3;
    PlaceAt(s.orders.db, 1, "a", 0);
    var one := Step(s, PLACE_ALL[0]);
    assert one.orders.db == Orders.Db(map[1 := Ordered(Orders.Pending, "a", 0)], [MADE_1]);
    PlaceAt(one.orders.db, 2, "bb", 1);
    var two := Step(one, PLACE_ALL[1]);
    assert two.orders.db == Orders.Db(map[1 := Ordered(Orders.Pending, "a", 0), 2 := Ordered(Orders.Pending, "bb", 1)], [MADE_1, MADE_2]);
    PlaceAt(two.orders.db, 3, "ccc", 2);
    var three := Step(two, PLACE_ALL[2]);
    assert three.orders.db.orders == Three(Orders.Pending, Orders.Pending, Orders.Pending);
    assert three.orders.db.outbox == [MADE_1, MADE_2, MADE_3];
  }

  lemma PublishAll(s: State)
    requires s.orders.db.outbox == [MADE_1, MADE_2, MADE_3] && s.channel == {} && s.processed == {}
    ensures Run(s, PUBLISH_ALL) == s.(channel := {MADE_1, MADE_2, MADE_3}, processed := {MADE_1.id, MADE_2.id, MADE_3.id})
  {
    RunThree(s, PUBLISH_ALL);
    PollPublishes(s, OrderService, 0);
    PollPublishes(Step(s, PUBLISH_ALL[0]), OrderService, 1);
    PollPublishes(Step(Step(s, PUBLISH_ALL[0]), PUBLISH_ALL[1]), OrderService, 2);
  }

  lemma FirstAnswers(s: State)
    requires s.inventory == Messaging.Node(Inventory.Db(SINGLE, []), {}) && s.channel == {MADE_1, MADE_2, MADE_3}
    ensures var t := Step(Step(s, SWEEP_FIRST[0]), SWEEP_FIRST[1]);
            t == s.(book := t.book,
                    inventory := Messaging.Node(Inventory.Db(map[0 := Stock.Row(0, 1, 2)], [KEPT_2, NONE_1]), {MADE_2.id, MADE_1.id}))
  {
    Stocked(s, MADE_2);
    HandleMade(s.inventory.db, MADE_2, 2, 1, 0, 1);
    var one := Step(s, SWEEP_FIRST[0]);
    assert one.inventory.db == Inventory.Db(map[0 := Stock.Row(0, 1, 2)], [KEPT_2]);
    Stocked(one, MADE_1);
    HandleMade(one.inventory.db, MADE_1, 1, 0, 1, 2);
    assert Write([KEPT_2], InventoryService, InventoryReserveFailed(1)) == [KEPT_2, NONE_1];
  }

  lemma SweepsFirst(s: State)
    requires s.orders == Messaging.Node(Orders.Db(Three(Orders.Pending, Orders.Pending, Orders.Pending), [MADE_1, MADE_2, MADE_3]), {})
    requires s.inventory == Messaging.Node(Inventory.Db(SINGLE, []), {}) && s.channel == {MADE_1, MADE_2, MADE_3}
    ensures var t := Run(s, SWEEP_FIRST);
            t == s.(book := t.book,
                    orders := Messaging.Node(Orders.Db(Three(Orders.Cancelled, Orders.Pending, Orders.Pending), [MADE_1, MADE_2, MADE_3, SWEPT_1]), {}),
                    inventory := Messaging.Node(Inventory.Db(map[0 := Stock.Row(0, 1, 2)], [KEPT_2, NONE_1]), {MADE_2.id, MADE_1.id}))
  {
    RunThree(s, SWEEP_FIRST);
    FirstAnswers(s);
    SweepFirst(s.orders.db);
  }

  lemma Released(s: State)
    requires SWEPT_1 in s.channel
    requires s.inventory == Messaging.Node(Inventory.Db(map[0 := Stock.Row(0, 1, 2)], [KEPT_2, NONE_1]), {MADE_2.id, MADE_1.id})
    ensures var t := Step(s, FREE[1]);
            t == s.(book := t.book,
                    inventory := Messaging.Node(Inventory.Db(map[0 := Stock.Row(1, 0, 3)], [KEPT_2, NONE_1, BACK_1]), {MADE_2.id, MADE_1.id, SWEPT_1.id}))
  {
    Stocked(s, SWEPT_1);
    HandleSwept(s.inventory.db, 0, 1, 2);
    assert Write([KEPT_2, NONE_1], InventoryService, InventoryReleased(1)) == [KEPT_2, NONE_1, BACK_1];
  }

  lemma Resold(s: State)
    requires MADE_3 in s.channel
    requires s.inventory == Messaging.Node(Inventory.Db(map[0 := Stock.Row(1, 0, 3)], [KEPT_2, NONE_1, BACK_1]), {MADE_2.id, MADE_1.id, SWEPT_1.id})
    ensures var t := Step(s, FREE[2]);
            t == s.(inventory := t.inventory, book := t.book) && t.inventory.db.outbox == [KEPT_2, NONE_1, BACK_1, KEPT_3]
  {
    Stocked(s, MADE_3);
    HandleMade(s.inventory.db, MADE_3, 3, 1, 0, 3);
  }

  lemma Frees(s: State)
    requires s.orders.db.outbox == [MADE_1, MADE_2, MADE_3, SWEPT_1] && s.channel == {MADE_1, MADE_2, MADE_3}
    requires s.processed == {MADE_1.id, MADE_2.id, MADE_3.id}
    requires s.inventory == Messaging.Node(Inventory.Db(map[0 := Stock.Row(0, 1, 2)], [KEPT_2, NONE_1]), {MADE_2.id, MADE_1.id})
    ensures var t := Run(s, FREE);
            t == s.(inventory := t.inventory, book := t.book, channel := t.channel, processed := t.processed) &&
            t.inventory.db.outbox == [KEPT_2, NONE_1, BACK_1, KEPT_3] &&
            t.processed == {MADE_1.id, MADE_2.id, MADE_3.id, SWEPT_1.id}
  {
    RunThree(s, FREE);
    PollPublishes(s, OrderService, 3);
    var sent := Step(s, FREE[0]);
    Released(sent);
    Resold(Step(sent, FREE[1]));
  }

  lemma ChargesFirst(s: State)
    requires s.inventory.db.outbox == [KEPT_2, NONE_1, BACK_1, KEPT_3] && s.payments == Messaging.Node(Payments.Db([], []), {})
    requires s.processed == {MADE_1.id, MADE_2.id, MADE_3.id, SWEPT_1.id}
    ensures var t := Run(s, CHARGE_BOTH);
            t.orders == s.orders && {KEPT_2, KEPT_3} <= t.channel && t.payments.inbox == {KEPT_2.id} &&
            t.payments.db.outbox == [PAID_2] && PAID_2.id !in t.processed && PAID_3.id !in t.processed
  {
    RunThree(s, CHARGE_BOTH);
    PollPublishes(s, InventoryService, 0);
    var one := Step(s, CHARGE_BOTH[0]);
    PollPublishes(one, InventoryService, 3);
    Charges(Step(one, CHARGE_BOTH[1]), KEPT_2, 2);
  }

  lemma ChargesSecond(s: State)
    requires {KEPT_2, KEPT_3} <= s.channel && s.payments.inbox == {KEPT_2.id}
    requires s.payments.db.outbox == [PAID_2] && PAID_2.id !in s.processed && PAID_3.id !in s.processed
    ensures var t := Run(s, CHARGED_BOTH);
            t.orders == s.orders && {KEPT_2, KEPT_3, PAID_2, PAID_3} <= t.channel
  {
    RunThree(s, CHARGED_BOTH);
    Charges(s, KEPT_3, 3);
    var one := Step(s, CHARGED_BOTH[0]);
    assert one.payments.db.outbox == [PAID_2, PAID_3];
    PollPublishes(one, PaymentService, 0);
    PollPublishes(Step(one, CHARGED_BOTH[1]), PaymentService, 1);
  }

  lemma Confirms(s: State)
    requires s.orders == Messaging.Node(Orders.Db(Three(Orders.Cancelled, Orders.Pending, Orders.Pending), [MADE_1, MADE_2, MADE_3, SWEPT_1]), {})
    requires {KEPT_2, KEPT_3, PAID_2, PAID_3} <= s.channel
    ensures Run(Run(s, CONFIRM), CONFIRM_LAST).orders.db.orders == Three(Orders.Cancelled, Orders.Confirmed, Orders.Confirmed)
  {
    RunThree(s, CONFIRM);
    Heeded(s, KEPT_2);
    var one := Step(s, CONFIRM[0]);
    Heeded(one, PAID_2);
    var two := Step(one, CONFIRM[1]);
    Heeded(two, KEPT_3);
    var three := Step(two, CONFIRM[2]);
    assert three.orders.db.orders == Three(Orders.Cancelled, Orders.Confirmed, Orders.StockReserved);
    RunOne(three, CONFIRM_LAST[0]);
    Heeded(three, PAID_3);
  }

  lemma {:induction false} NothingRestocked(s: State, actions: seq<Action>)
    requires forall i :: 0 <= i < |actions| ==> !actions[i].Restock?
    ensures Run(s, actions).book.restocked == s.book.restocked
  {
    if |actions| > 0 { NothingRestocked(s, actions[..|actions| - 1]); }
  }

  lemma TwoConfirmed()
    ensures ConfirmedDemand(Three(Orders.Cancelled, Orders.Confirmed, Orders.Confirmed), [2, 3], 0) == 2
  {
    Demands();
    assert [2, 3][..1] == [2] && [2][..0] == [];
  }

  lemma RunsOut()
    ensures Run(Initial(SINGLE), OVERSELL).orders.db.orders == Three(Orders.Cancelled, Orders.Confirmed, Orders.Confirmed)
  {
    var s0 := Initial(SINGLE);
    PlaceAll(s0);
    var s1 := Run(s0, PLACE_ALL);
    RunConcat(s0, PLACE_ALL, PUBLISH_ALL);
    PublishAll(s1);
    var s2 := Run(s1, PUBLISH_ALL);
    RunConcat(s0, PLACE_ALL + PUBLISH_ALL, SWEEP_FIRST);
    SweepsFirst(s2);
    var s3 := Run(s2, SWEEP_FIRST);
    RunConcat(s0, PLACE_ALL + PUBLISH_ALL + SWEEP_FIRST, FREE);
    Frees(s3);
    var s4 := Run(s3, FREE);
    RunConcat(s0, PLACE_ALL + PUBLISH_ALL + SWEEP_FIRST + FREE, CHARGE_BOTH);
    RunConcat(s0, PLACE_ALL + PUBLISH_ALL + SWEEP_FIRST + FREE + CHARGE_BOTH, CHARGED_BOTH);
    ChargesFirst(s4);
    ChargesSecond(Run(s4, CHARGE_BOTH));
    RunConcat(s0, PLACE_ALL + PUBLISH_ALL + SWEEP_FIRST + FREE + CHARGE_BOTH + CHARGED_BOTH, CONFIRM);
    RunConcat(s0, PLACE_ALL + PUBLISH_ALL + SWEEP_FIRST + FREE + CHARGE_BOTH + CHARGED_BOTH + CONFIRM, CONFIRM_LAST);
    Confirms(Run(Run(s4, CHARGE_BOTH), CHARGED_BOTH));
  }

  /** Two confirmed orders for the one unit there ever was, in a run without a declined card or a restock. */
  lemma SweptFailureOversells()
    ensures var s := Run(Initial(SINGLE), OVERSELL);
            ConfirmedDemand(s.orders.db.orders, [2, 3], 0) == 2 && Ledger.InitialTotal(SINGLE, 0) == 1 &&
            s.book.restocked == [] && Stolen(SINGLE, OVERSELL, 0) > 0
    ensures forall i :: 0 <= i < |OVERSELL| ==> Moves(OVERSELL[i], o => false) || OVERSELL[i].Create? || OVERSELL[i].Sweep?
  {
    RunsOut();
    TwoConfirmed();
    NothingRestocked(Initial(SINGLE), OVERSELL);
    OversoldByStolenOnly(SINGLE, OVERSELL, [2, 3], 0);
  }
}
