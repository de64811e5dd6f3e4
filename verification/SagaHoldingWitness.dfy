/**
  A reachable run in which a compensation is handled before the creation it compensates: everything
  arrives, and a cancelled order is charged and keeps its stock reserved.
*/
module SagaHoldingWitness {
  import opened Commerce
  import opened Saga
  import opened SagaProgress
  import opened SagaHolding
  import opened SagaWitness
  import Messaging
  import Orders
  import Inventory
  import Payments
  import Ledger

  const CANCELLED := Event(EventId(OrderService, 1), OrderCancelled(1, [Line(0, 1, 0)]))
  const RELEASED := Event(EventId(InventoryService, 0), InventoryReleased(1))
  const LATE := Event(EventId(InventoryService, 1), InventoryReserved(1, ONE))
  const PAID := Event(EventId(PaymentService, 0), PaymentSuccess(1, ONE))

  /** The order is placed, swept out and both events are published. */
  const CANCEL: seq<Action> := [Create(1, SHOPPER, "first", ONE, 0), Sweep([1], 0), Poll(OrderService, {0, 1}, true)]

  /** The cancellation arrives first, then the creation. */
  const SWAP: seq<Action> :=
    [ToInventory(Message(CANCELLED, false), true), ToInventory(Message(CREATED_1, false), true), Poll(InventoryService, {0, 1}, true)]

  /** The late reservation is charged, and all answers arrive. */
  const CHARGE: seq<Action> :=
    [ToPayments(Message(LATE, false), true), Poll(PaymentService, {0}, true), ToOrders(Message(LATE, false), true)]

  const LAST: Action := ToOrders(Message(PAID, false), true)

  const DEAD: Orders.Order := Orders.Order(Orders.Cancelled, ONE, 5, "first", 0, "shop")

  lemma SendBoth(s: State, w: Service, e: Event, f: Event)
    requires Outbox(s, w) == [e, f] && e.id !in s.processed && f.id !in s.processed
    ensures Step(s, Poll(w, {0, 1}, true)) == s.(channel := s.channel + {e, f}, processed := s.processed + {e.id, f.id})
  {
    assert Outbox(s, w)[0] == e && Outbox(s, w)[1] == f;
  }

  lemma SweepOut(s: State)
    requires s.orders == Messaging.Node(Orders.Db(map[1 := DEAD.(status := Orders.Pending)], [CREATED_1]), {})
    ensures Step(s, Sweep([1], 0)) == s.(orders := Messaging.Node(Orders.Db(map[1 := DEAD], [CREATED_1, CANCELLED]), {}))
  {
    Demands();
    assert [1][..0] == [];
    assert Orders.SweepBatch(s.orders.db, [], 0) == s.orders.db;
    assert Orders.SweepBatch(s.orders.db, [1], 0) == Orders.Cancel(s.orders.db, 1);
    assert Orders.Cancel(s.orders.db, 1).outbox == [CREATED_1, CANCELLED];
    assert Orders.Cancel(s.orders.db, 1).orders == map[1 := DEAD];
  }

  lemma Cancel(s: State)
    requires s == Initial(START)
    ensures Run(s, CANCEL) ==
            s.(orders := Messaging.Node(Orders.Db(map[1 := DEAD], [CREATED_1, CANCELLED]), {}),
               channel := {CREATED_1, CANCELLED}, processed := {CREATED_1.id, CANCELLED.id})
  {
    RunThree(s, CANCEL);
    PlaceOne(s, 1, "first");
    var placed := Step(s, CANCEL[0]);
    assert placed.orders.db == Orders.Db(map[1 := DEAD.(status := Orders.Pending)], [CREATED_1]);
    SweepOut(placed);
    SendBoth(Step(placed, CANCEL[1]), OrderService, CREATED_1, CANCELLED);
  }

  /** Releasing an order that holds nothing, when nothing is reserved. */
  lemma ReleaseNothing(s: State)
    requires s.book == Ledger.Opening(START) && s.inventory == Messaging.Node(Inventory.Db(START, []), {}) && CANCELLED in s.channel
    ensures var t := Step(s, SWAP[0]);
            t == s.(inventory := t.inventory, book := t.book) && t.inventory.inbox == {CANCELLED.id} &&
            t.inventory.db.outbox == [RELEASED] && t.book.held == [] && t.book.batches == [] &&
            t.inventory.db.rows == t.book.rows && 0 in t.book.rows && t.book.rows[0].available == 2
  {
    Demands();
  }

  lemma Swap(s: State)
    requires s.book == Ledger.Opening(START) && s.inventory == Messaging.Node(Inventory.Db(START, []), {})
    requires s.channel == {CREATED_1, CANCELLED} && s.processed == {CREATED_1.id, CANCELLED.id}
    ensures var t := Run(s, SWAP);
            t.orders == s.orders && t.payments == s.payments && t.channel == {CREATED_1, CANCELLED, RELEASED, LATE} &&
            t.processed == {CREATED_1.id, CANCELLED.id, RELEASED.id, LATE.id} &&
            t.inventory.inbox == {CANCELLED.id, CREATED_1.id} && t.inventory.db.outbox == [RELEASED, LATE] &&
            t.book.held == [Ledger.Held(1, ONE[0])]
  {
    RunThree(s, SWAP);
    ReleaseNothing(s);
    var released := Step(s, SWAP[0]);
    ReserveOne(released, CREATED_1, 1);
    SendBoth(Step(released, SWAP[1]), InventoryService, RELEASED, LATE);
  }

  lemma ChargeLate(s: State)
    requires LATE in s.channel && s.payments == Messaging.Node(Payments.Db([], []), {})
    ensures Step(s, CHARGE[0]) == s.(payments := Messaging.Node(Payments.Db([Payments.Payment(1, 5)], [PAID]), {LATE.id}))
  {
    Demands();
    var node := Messaging.Receive(Payments.Accepts, Payments.Handle, s.payments, Message(LATE, false));
    assert node.db.payments == [Payments.Payment(1, 5)] && node.db.outbox == [PAID];
  }

  lemma SendPaid(s: State)
    requires Outbox(s, PaymentService) == [PAID] && PAID.id !in s.processed
    ensures Step(s, CHARGE[1]) == s.(channel := s.channel + {PAID}, processed := s.processed + {PAID.id})
  {
    assert Outbox(s, PaymentService)[0] == PAID;
  }

  /** A cancelled order ignores both answers, and both are recorded. */
  lemma Ignore(s: State)
    requires s.orders == Messaging.Node(Orders.Db(map[1 := DEAD], [CREATED_1, CANCELLED]), {})
    requires LATE in s.channel && PAID in s.channel
    ensures Step(Step(s, CHARGE[2]), LAST) == s.(orders := s.orders.(inbox := {LATE.id, PAID.id}))
  {
    assert Step(s, CHARGE[2]) == s.(orders := s.orders.(inbox := {LATE.id}));
  }

  lemma Finish(s: State)
    requires s.channel == {CREATED_1, CANCELLED, RELEASED, LATE} && s.payments == Messaging.Node(Payments.Db([], []), {})
    requires s.processed == {CREATED_1.id, CANCELLED.id, RELEASED.id, LATE.id}
    requires s.orders == Messaging.Node(Orders.Db(map[1 := DEAD], [CREATED_1, CANCELLED]), {})
    ensures var t := Run(s, CHARGE + [LAST]);
            t.inventory == s.inventory && t.book == s.book && t.orders == s.orders.(inbox := {LATE.id, PAID.id}) &&
            t.payments == Messaging.Node(Payments.Db([Payments.Payment(1, 5)], [PAID]), {LATE.id}) &&
            t.channel == {CREATED_1, CANCELLED, RELEASED, LATE, PAID}
  {
    RunConcat(s, CHARGE, [LAST]);
    RunThree(s, CHARGE);
    ChargeLate(s);
    var charged := Step(s, CHARGE[0]);
    SendPaid(charged);
    var sent := Step(charged, CHARGE[1]);
    RunOne(Step(sent, CHARGE[2]), LAST);
    Ignore(sent);
  }

  lemma IsQuiet(s: State)
    requires s.orders.db.outbox == [CREATED_1, CANCELLED] && s.inventory.db.outbox == [RELEASED, LATE] && s.payments.db.outbox == [PAID]
    requires s.channel == {CREATED_1, CANCELLED, RELEASED, LATE, PAID}
    requires s.orders.inbox == {LATE.id, PAID.id} && s.inventory.inbox == {CANCELLED.id, CREATED_1.id} && s.payments.inbox == {LATE.id}
    ensures Quiet(s)
  {
    forall source, i | 0 <= i < |Outbox(s, source)| ensures Outbox(s, source)[i] in s.channel {
      match source {
        case OrderService =>
        case InventoryService =>
        case PaymentService =>
      }
    }
  }

  /** Everything sent has arrived; the cancelled order is charged, and its stock is still reserved. */
  lemma EarlyCompensationIsLost()
    ensures var actions := CANCEL + SWAP + (CHARGE + [LAST]);
            var s := Run(Initial(START), actions);
            Quiet(s) && 1 in s.orders.db.orders && s.orders.db.orders[1].status.Cancelled? &&
            s.payments.db.payments == [Payments.Payment(1, 5)] &&
            Ledger.HeldFor(s.book.held, 1) == ONE && !Compensated(START, actions, 1)
  {
    var s0 := Initial(START);
    Cancel(s0);
    Swap(Run(s0, CANCEL));
    RunConcat(s0, CANCEL, SWAP);
    Finish(Run(s0, CANCEL + SWAP));
    RunConcat(s0, CANCEL + SWAP, CHARGE + [LAST]);
    var actions := CANCEL + SWAP + (CHARGE + [LAST]);
    var s := Run(s0, actions);
    IsQuiet(s);
    var h := Ledger.Held(1, ONE[0]);
    assert [h][..0] == [] && [] + [h.line] == ONE && Ledger.HeldFor([h], 1) == ONE;
    HoldingIsExact(START, actions, 1);
  }
}
