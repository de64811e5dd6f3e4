/** A reachable run in which a payment overtakes its reservation: everything arrives, and the order is left STOCK_RESERVED. */
module SagaOvertakingWitness {
  import opened Commerce
  import opened Saga
  import opened SagaProgress
  import opened SagaOvertaking
  import opened SagaWitness
  import Messaging
  import Orders
  import Payments
  import Stock

  const SUCCESS_1 := Event(EventId(PaymentService, 0), PaymentSuccess(1, ONE))

  /** The order is placed, published and reserved. */
  const RESERVED: seq<Action> :=
    [Create(1, SHOPPER, "first", ONE, 0), Poll(OrderService, {0}, true), ToInventory(Message(CREATED_1, false), true)]

  /** The reservation is published and paid, and the payment published. */
  const PAID: seq<Action> :=
    [Poll(InventoryService, {0}, true), ToPayments(Message(RESERVED_1, false), true), Poll(PaymentService, {0}, true)]

  const OVERTAKE: Action := ToOrders(Message(SUCCESS_1, false), true)

  const CATCH_UP: Action := ToOrders(Message(RESERVED_1, false), true)

  /** One poll of a worker whose only row has not been sent. */
  lemma SendOnly(s: State, w: Service, e: Event)
    requires Outbox(s, w) == [e] && e.id !in s.processed
    ensures Step(s, Poll(w, {0}, true)) == s.(channel := s.channel + {e}, processed := s.processed + {e.id})
  {
    assert Outbox(s, w)[0] == e;
  }

  lemma Reserve(s: State)
    requires s == Initial(START)
    ensures var t := Run(s, RESERVED);
            t.orders == Messaging.Node(Orders.Db(map[1 := Orders.Order(Orders.Pending, ONE, 5, "first", 0, "shop")], [CREATED_1]), {}) &&
            t.inventory.db.outbox == [RESERVED_1] && t.inventory.inbox == {CREATED_1.id} &&
            t.payments == s.payments && t.channel == {CREATED_1} && t.processed == {CREATED_1.id}
  {
    RunThree(s, RESERVED);
    PlaceOne(s, 1, "first");
    var placed := Step(s, RESERVED[0]);
    SendOnly(placed, OrderService, CREATED_1);
    ReserveOne(Step(placed, RESERVED[1]), CREATED_1, 1);
  }

  lemma Pay(s: State)
    requires s.inventory.db.outbox == [RESERVED_1] && s.payments == Messaging.Node(Payments.Db([], []), {})
    requires s.channel == {CREATED_1} && s.processed == {CREATED_1.id}
    ensures var t := Run(s, PAID);
            t.orders == s.orders && t.inventory == s.inventory && t.channel == {CREATED_1, RESERVED_1, SUCCESS_1} &&
            t.payments == Messaging.Node(Payments.Db([Payments.Payment(1, 5)], [SUCCESS_1]), {RESERVED_1.id})
  {
    RunThree(s, PAID);
    SendOnly(s, InventoryService, RESERVED_1);
    var sent := Step(s, PAID[0]);
    Charge(sent);
    SendOnly(Step(sent, PAID[1]), PaymentService, SUCCESS_1);
  }

  lemma Charge(s: State)
    requires RESERVED_1 in s.channel && s.payments == Messaging.Node(Payments.Db([], []), {})
    ensures Step(s, PAID[1]) ==
            s.(payments := Messaging.Node(Payments.Db([Payments.Payment(1, 5)], [SUCCESS_1]), {RESERVED_1.id}))
  {
    Demands();
    var node := Messaging.Receive(Payments.Accepts, Payments.Handle, s.payments, Message(RESERVED_1, false));
    assert node.db.payments == [Payments.Payment(1, 5)] && node.db.outbox == [SUCCESS_1];
  }

  /** The state in which the order is paid and reserved but the order service has heard neither. */
  ghost predicate Unheard(s: State) {
    s.orders == Messaging.Node(Orders.Db(map[1 := Orders.Order(Orders.Pending, ONE, 5, "first", 0, "shop")], [CREATED_1]), {}) &&
    s.inventory.db.outbox == [RESERVED_1] && s.inventory.inbox == {CREATED_1.id} &&
    s.payments == Messaging.Node(Payments.Db([Payments.Payment(1, 5)], [SUCCESS_1]), {RESERVED_1.id}) &&
    s.channel == {CREATED_1, RESERVED_1, SUCCESS_1}
  }

  lemma Deliver(s: State)
    requires Unheard(s)
    ensures Overtakes(s, OVERTAKE, 1)
    ensures var t := Step(Step(s, OVERTAKE), CATCH_UP);
            t == s.(orders := t.orders) && t.orders.inbox == {SUCCESS_1.id, RESERVED_1.id} &&
            t.orders.db == Orders.Db(map[1 := Orders.Order(Orders.StockReserved, ONE, 5, "first", 0, "shop")], [CREATED_1])
  {
    var heard := Step(s, OVERTAKE);
    assert heard == s.(orders := s.orders.(inbox := {SUCCESS_1.id}));
  }

  lemma IsQuiet(s: State)
    requires s.orders.db.outbox == [CREATED_1] && s.inventory.db.outbox == [RESERVED_1] && s.payments.db.outbox == [SUCCESS_1]
    requires s.channel == {CREATED_1, RESERVED_1, SUCCESS_1}
    requires s.orders.inbox == {SUCCESS_1.id, RESERVED_1.id} && s.inventory.inbox == {CREATED_1.id} && s.payments.inbox == {RESERVED_1.id}
    ensures Quiet(s)
  {
    forall source, i | 0 <= i < |Outbox(s, source)| ensures Outbox(s, source)[i] in s.channel {
      match source {
        case OrderService =>
        case InventoryService =>
        case PaymentService =>
      }
    }
  }

  /** Everything sent has arrived, the order was charged and reserved, and it is neither confirmed nor cancelled. */
  lemma PaymentOvertakesReservation()
    ensures var actions := RESERVED + PAID + [OVERTAKE] + [CATCH_UP];
            var s := Run(Initial(START), actions);
            Quiet(s) && Overtaken(START, actions, 1) && !SweptOut(START, actions, 1) &&
            1 in s.orders.db.orders && s.orders.db.orders[1].status.StockReserved? &&
            s.payments.db.payments == [Payments.Payment(1, 5)]
  {
    var s0 := Initial(START);
    Reserve(s0);
    RunConcat(s0, RESERVED, PAID);
    Pay(Run(s0, RESERVED));
    var s := Run(s0, RESERVED + PAID);
    Deliver(s);
    RunConcat(s0, RESERVED + PAID, [OVERTAKE]);
    RunOne(s, OVERTAKE);
    RunConcat(s0, RESERVED + PAID + [OVERTAKE], [CATCH_UP]);
    RunOne(Step(s, OVERTAKE), CATCH_UP);
    IsQuiet(Step(Step(s, OVERTAKE), CATCH_UP));
    var upTo := RESERVED + PAID + [OVERTAKE];
    assert upTo[..|upTo| - 1] == RESERVED + PAID;
    assert (upTo + [CATCH_UP])[..|upTo|] == upTo;
    NoSweepNoSwept(START, upTo + [CATCH_UP], 1);
  }

  lemma {:induction false} NoSweepNoSwept(rows: Stock.Rows, actions: seq<Action>, o: OrderId)
    requires forall i :: 0 <= i < |actions| ==> !actions[i].Sweep?
    ensures !SweptOut(rows, actions, o)
  {
    if |actions| > 0 { NoSweepNoSwept(rows, actions[..|actions| - 1], o); }
  }
}
