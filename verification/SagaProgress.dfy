/**
  What the saga achieves once every message has arrived: no order is left pending, and the only orders
  left between the states are those whose payment overtook their reservation.
*/
module SagaProgress {
  import opened Commerce
  import opened Saga
  import opened SagaLaws
  import opened SagaOrders
  import opened SagaSafety
  import opened SagaTheorems
  import Messaging
  import Stock
  import Orders
  import Inventory
  import Payments

  /** An inbox only knows ids of rows that exist. */
  ghost predicate Knows(inbox: set<EventId>, source: Service, outbox: seq<Event>) {
    forall id :: id in inbox && id.source == source ==> id.n < |outbox|
  }

  ghost predicate AllKnown(s: State, inbox: set<EventId>) {
    Knows(inbox, OrderService, s.orders.db.outbox) &&
    Knows(inbox, InventoryService, s.inventory.db.outbox) &&
    Knows(inbox, PaymentService, s.payments.db.outbox)
  }

  ghost predicate InboxesKnown(s: State) {
    AllKnown(s, s.orders.inbox) && AllKnown(s, s.inventory.inbox) && AllKnown(s, s.payments.inbox)
  }

  /** A creation that was handled was answered. */
  ghost predicate Answered(db: Orders.Db, answers: seq<Event>, inbox: set<EventId>, o: OrderId)
    requires o in db.orders
  {
    Heard(db.outbox, inbox, CreationOf(db, o)) ==>
      Says(answers, ReservationOf(db, o)) || Says(answers, InventoryReserveFailed(o))
  }

  /** A reservation that was handled was settled. */
  ghost predicate PaidOrNot(db: Orders.Db, answers: seq<Event>, outcomes: seq<Event>, inbox: set<EventId>, o: OrderId)
    requires o in db.orders
  {
    Heard(answers, inbox, ReservationOf(db, o)) ==> Says(outcomes, SuccessOf(db, o)) || Says(outcomes, FailureOf(db, o))
  }

  /** What the order service has heard has moved the order on. */
  ghost predicate Moved(db: Orders.Db, answers: seq<Event>, outcomes: seq<Event>, inbox: set<EventId>, o: OrderId)
    requires o in db.orders
  {
    var status := db.orders[o].status;
    (Heard(answers, inbox, ReservationOf(db, o)) ==> !status.Pending?) &&
    (Heard(answers, inbox, InventoryReserveFailed(o)) ==> !Orders.Live(status)) &&
    (Heard(outcomes, inbox, FailureOf(db, o)) ==> !Orders.Live(status))
  }

  ghost predicate Progress(s: State) {
    var db, answers, outcomes := s.orders.db, s.inventory.db.outbox, s.payments.db.outbox;
    InboxesKnown(s) &&
    forall o :: o in db.orders ==>
      Answered(db, answers, s.inventory.inbox, o) && PaidOrNot(db, answers, outcomes, s.payments.inbox, o) &&
      Moved(db, answers, outcomes, s.orders.inbox, o)
  }

  /** A new row cannot have been heard before it was written. */
  lemma HeardBefore(outbox: seq<Event>, outbox': seq<Event>, source: Service, inbox: set<EventId>, body: Body)
    requires outbox <= outbox' && Numbered(outbox', source) && Knows(inbox, source, outbox)
    ensures Heard(outbox', inbox, body) ==> Heard(outbox, inbox, body)
  {
    if Heard(outbox', inbox, body) {
      var i :| 0 <= i < |outbox'| && outbox'[i].body == body && outbox'[i].id in inbox;
      assert outbox[i] == outbox'[i];
    }
  }

  /** One more id is one more thing heard. */
  lemma HeardNow(outbox: seq<Event>, inbox: set<EventId>, e: Event, body: Body)
    requires InOutbox(outbox, e) && (forall i, j :: 0 <= i < j < |outbox| ==> outbox[i].id != outbox[j].id)
    ensures Heard(outbox, inbox + {e.id}, body) ==> Heard(outbox, inbox, body) || e.body == body
  {
    if Heard(outbox, inbox + {e.id}, body) {
      var i :| 0 <= i < |outbox| && outbox[i].body == body && outbox[i].id in inbox + {e.id};
      if outbox[i].id == e.id { assert outbox[e.id.n] == e; }
    }
  }

  lemma HeardElsewhere(outbox: seq<Event>, source: Service, inbox: set<EventId>, id: EventId, body: Body)
    requires Numbered(outbox, source) && id.source != source
    ensures Heard(outbox, inbox + {id}, body) ==> Heard(outbox, inbox, body)
  {
    if Heard(outbox, inbox + {id}, body) {
      var i :| 0 <= i < |outbox| && outbox[i].body == body && outbox[i].id in inbox + {id};
    }
  }

  lemma KnownStays(s: State, s': State, inbox: set<EventId>)
    requires AllKnown(s, inbox)
    requires s.orders.db.outbox <= s'.orders.db.outbox
    requires s.inventory.db.outbox <= s'.inventory.db.outbox
    requires s.payments.db.outbox <= s'.payments.db.outbox
    ensures AllKnown(s', inbox)
  {
  }

  lemma KnownGrows(s: State, inbox: set<EventId>, e: Event)
    requires AllKnown(s, inbox) && InOutbox(Outbox(s, e.id.source), e)
    ensures AllKnown(s, inbox + {e.id})
  {
  }

  // ---------- the order service moves ----------

  /** The order service grew without hearing anything new. */
  lemma OrdersGrewProgress(s: State, db: Orders.Db)
    requires Inv(s) && Progress(s) && Grows(s.orders.db, db) && Numbered(db.outbox, OrderService)
    requires forall o :: Climbs(s.orders.db.orders, db.orders, o)
    ensures Progress(s.(orders := s.orders.(db := db)))
  {
    var s', was, answers, outcomes := s.(orders := s.orders.(db := db)), s.orders.db, s.inventory.db.outbox, s.payments.db.outbox;
    KnownStays(s, s', s.orders.inbox);
    KnownStays(s, s', s.inventory.inbox);
    KnownStays(s, s', s.payments.inbox);
    forall o | o in db.orders
      ensures Answered(db, answers, s.inventory.inbox, o) && PaidOrNot(db, answers, outcomes, s.payments.inbox, o) &&
              Moved(db, answers, outcomes, s.orders.inbox, o)
    {
      if o in was.orders { OldOrderProgress(s, db, o); } else { NewOrderProgress(s, db, o); }
    }
  }

  lemma OldOrderProgress(s: State, db: Orders.Db, o: OrderId)
    requires Progress(s) && Grows(s.orders.db, db) && Numbered(db.outbox, OrderService) && o in s.orders.db.orders
    requires Climbs(s.orders.db.orders, db.orders, o)
    ensures Answered(db, s.inventory.db.outbox, s.inventory.inbox, o)
    ensures PaidOrNot(db, s.inventory.db.outbox, s.payments.db.outbox, s.payments.inbox, o)
    ensures Moved(db, s.inventory.db.outbox, s.payments.db.outbox, s.orders.inbox, o)
  {
    HeardBefore(s.orders.db.outbox, db.outbox, OrderService, s.inventory.inbox, CreationOf(db, o));
    assert Answered(s.orders.db, s.inventory.db.outbox, s.inventory.inbox, o);
    assert Moved(s.orders.db, s.inventory.db.outbox, s.payments.db.outbox, s.orders.inbox, o);
  }

  /** Nobody has spoken of an order that does not exist yet. */
  lemma NewOrderProgress(s: State, db: Orders.Db, o: OrderId)
    requires Inv(s) && Progress(s) && Grows(s.orders.db, db) && Numbered(db.outbox, OrderService)
    requires o in db.orders && o !in s.orders.db.orders
    ensures Answered(db, s.inventory.db.outbox, s.inventory.inbox, o)
    ensures PaidOrNot(db, s.inventory.db.outbox, s.payments.db.outbox, s.payments.inbox, o)
    ensures Moved(db, s.inventory.db.outbox, s.payments.db.outbox, s.orders.inbox, o)
  {
    var was, answers, outcomes := s.orders.db, s.inventory.db.outbox, s.payments.db.outbox;
    HeardBefore(was.outbox, db.outbox, OrderService, s.inventory.inbox, CreationOf(db, o));
    NotSpokenOf(was, answers, s.inventory.inbox, outcomes, s.payments.inbox, o);
    assert forall i :: 0 <= i < |was.outbox| && was.outbox[i].body.OrderCreated? ==> was.outbox[i].body.order != o;
    assert !Heard(was.outbox, s.inventory.inbox, CreationOf(db, o));
  }

  lemma NotSpokenOf(db: Orders.Db, answers: seq<Event>, inbox: set<EventId>, outcomes: seq<Event>, paymentInbox: set<EventId>, o: OrderId)
    requires Answers(db, answers, inbox) && Outcomes(db, answers, outcomes, paymentInbox) && o !in db.orders
    ensures forall i :: 0 <= i < |answers| && KindOf(answers[i].body) == Answer ==> answers[i].body.order != o
    ensures forall i :: 0 <= i < |outcomes| && KindOf(outcomes[i].body) == Outcome ==> outcomes[i].body.order != o
  {
    forall i | 0 <= i < |outcomes| && KindOf(outcomes[i].body) == Outcome ensures outcomes[i].body.order != o {
      assert OutcomeBacked(db, answers, paymentInbox, outcomes[i].body);
    }
  }

  lemma UniqueIds(outbox: seq<Event>, source: Service)
    requires Numbered(outbox, source)
    ensures forall i, j :: 0 <= i < j < |outbox| ==> outbox[i].id != outbox[j].id
  {
  }

  /** Handling an event about one order moves that order as its message demands. */
  lemma HandlingMoves(db: Orders.Db, m: Message, answers: seq<Event>, outcomes: seq<Event>, inbox: set<EventId>, o: OrderId)
    requires o in db.orders && Moved(db, answers, outcomes, inbox, o)
    requires Numbered(answers, InventoryService) && Numbered(outcomes, PaymentService) && Orders.Accepts(m)
    requires InOutbox(if KindOf(m.event.body) == Answer then answers else outcomes, m.event)
    requires m.event.id.source == Author(KindOf(m.event.body))
    ensures o in Orders.Handle(db, m).orders && Moved(Orders.Handle(db, m), answers, outcomes, inbox + {m.event.id}, o)
  {
    var e := m.event;
    UniqueIds(answers, InventoryService);
    UniqueIds(outcomes, PaymentService);
    if KindOf(e.body) == Answer {
      HeardNow(answers, inbox, e, ReservationOf(db, o));
      HeardNow(answers, inbox, e, InventoryReserveFailed(o));
      HeardElsewhere(outcomes, PaymentService, inbox, e.id, FailureOf(db, o));
    } else {
      HeardNow(outcomes, inbox, e, FailureOf(db, o));
      HeardElsewhere(answers, InventoryService, inbox, e.id, ReservationOf(db, o));
      HeardElsewhere(answers, InventoryService, inbox, e.id, InventoryReserveFailed(o));
    }
  }

  /** A delivered event stays where it is, in the outbox of its author. */
  lemma DeliveredOutcomeOrAnswer(s: State, m: Message)
    requires Inv(s) && m.event in s.channel && Orders.Accepts(m)
    ensures InOutbox(if KindOf(m.event.body) == Answer then s.inventory.db.outbox else s.payments.db.outbox, m.event)
    ensures m.event.id.source == Author(KindOf(m.event.body))
    ensures Numbered(s.inventory.db.outbox, InventoryService) && Numbered(s.payments.db.outbox, PaymentService)
  {
    Delivered(s, m.event);
  }

  lemma HandleGrows(db: Orders.Db, m: Message)
    requires Numbered(db.outbox, OrderService)
    ensures Grows(db, Orders.Handle(db, m)) && Numbered(Orders.Handle(db, m).outbox, OrderService)
    ensures forall o :: Climbs(db.orders, Orders.Handle(db, m).orders, o)
  {
  }

  lemma HandledProgress(s: State, m: Message)
    requires Inv(s) && Progress(s)
    ensures Progress(s.(orders := s.orders.(db := Orders.Handle(s.orders.db, m))))
  {
    HandleGrows(s.orders.db, m);
    OrdersGrewProgress(s, Orders.Handle(s.orders.db, m));
  }

  /** Recording one more handled event, once its order has moved. */
  lemma RecordedProgress(s: State, e: Event)
    requires Progress(s) && InOutbox(Outbox(s, e.id.source), e)
    requires forall o :: o in s.orders.db.orders ==>
               Moved(s.orders.db, s.inventory.db.outbox, s.payments.db.outbox, s.orders.inbox + {e.id}, o)
    ensures Progress(s.(orders := s.orders.(inbox := s.orders.inbox + {e.id})))
  {
    KnownGrows(s, s.orders.inbox, e);
  }

  lemma ToOrdersProgress(s: State, m: Message)
    requires Inv(s) && Progress(s) && m.event in s.channel && m.event.id !in s.orders.inbox && Orders.Accepts(m)
    ensures Progress(s.(orders := Messaging.Receive(Orders.Accepts, Orders.Handle, s.orders, m)))
  {
    HandledProgress(s, m);
    DeliveredOutcomeOrAnswer(s, m);
    ReceivedProgress(s, m);
  }

  lemma ReceivedProgress(s: State, m: Message)
    requires Progress(s) && Progress(s.(orders := s.orders.(db := Orders.Handle(s.orders.db, m))))
    requires InOutbox(if KindOf(m.event.body) == Answer then s.inventory.db.outbox else s.payments.db.outbox, m.event)
    requires m.event.id.source == Author(KindOf(m.event.body)) && m.event.id !in s.orders.inbox && Orders.Accepts(m)
    requires Numbered(s.inventory.db.outbox, InventoryService) && Numbered(s.payments.db.outbox, PaymentService)
    ensures Progress(s.(orders := Messaging.Receive(Orders.Accepts, Orders.Handle, s.orders, m)))
  {
    var db := Orders.Handle(s.orders.db, m);
    forall o | o in db.orders
      ensures Moved(db, s.inventory.db.outbox, s.payments.db.outbox, s.orders.inbox + {m.event.id}, o)
    {
      MovedInState(s, o);
      HandlingMoves(s.orders.db, m, s.inventory.db.outbox, s.payments.db.outbox, s.orders.inbox, o);
    }
    RecordedProgress(s.(orders := s.orders.(db := db)), m.event);
  }

  lemma MovedInState(s: State, o: OrderId)
    requires Progress(s) && o in s.orders.db.orders
    ensures Moved(s.orders.db, s.inventory.db.outbox, s.payments.db.outbox, s.orders.inbox, o)
  {
  }

  // ---------- the inventory service answers ----------

  /** What the tables of one order say after the answer. */
  lemma AnsweringOrder(s: State, m: Message, body: Body, o: OrderId)
    requires Inv(s) && Progress(s) && o in s.orders.db.orders
    requires var e := m.event;
             (e.id.source == OrderService ==> InOutbox(s.orders.db.outbox, e)) &&
             (e.body == CreationOf(s.orders.db, o) ==> body == ReservationOf(s.orders.db, o) || body == InventoryReserveFailed(o))
    requires Numbered(Write(s.inventory.db.outbox, InventoryService, body), InventoryService)
    ensures var db, answers, outcomes := s.orders.db, Write(s.inventory.db.outbox, InventoryService, body), s.payments.db.outbox;
            Answered(db, answers, s.inventory.inbox + {m.event.id}, o) &&
            PaidOrNot(db, answers, outcomes, s.payments.inbox, o) && Moved(db, answers, outcomes, s.orders.inbox, o)
  {
    var db, answers := s.orders.db, s.inventory.db.outbox;
    AnswerProgress(db, answers, s.inventory.inbox, m.event, body, o);
    UnheardAnswer(db, answers, Write(answers, InventoryService, body), s.payments.db.outbox, s.orders.inbox, s.payments.inbox, o);
  }

  lemma AnsweringProgress(s: State, m: Message)
    requires Inv(s) && Progress(s) && Handles(s, m)
    ensures Progress(Step(s, ToInventory(m, true)))
  {
    AnsweringKnows(s, m);
    var body := AnsweringReply(s, m);
    forall o | o in s.orders.db.orders
      ensures var db, answers, outcomes := s.orders.db, Write(s.inventory.db.outbox, InventoryService, body), s.payments.db.outbox;
              Answered(db, answers, s.inventory.inbox + {m.event.id}, o) &&
              PaidOrNot(db, answers, outcomes, s.payments.inbox, o) && Moved(db, answers, outcomes, s.orders.inbox, o)
    {
      AnsweringOrder(s, m, body, o);
    }
  }

  lemma AnsweringReply(s: State, m: Message) returns (body: Body)
    requires Inv(s) && Handles(s, m)
    ensures var s' := Step(s, ToInventory(m, true));
            s'.orders == s.orders && s'.payments == s.payments && s'.inventory.inbox == s.inventory.inbox + {m.event.id} &&
            s'.inventory.db.outbox == Write(s.inventory.db.outbox, InventoryService, body)
    ensures Numbered(Write(s.inventory.db.outbox, InventoryService, body), InventoryService)
    ensures m.event.id.source == OrderService ==> InOutbox(s.orders.db.outbox, m.event)
    ensures forall o :: o in s.orders.db.orders && m.event.body == CreationOf(s.orders.db, o) ==>
              body == ReservationOf(s.orders.db, o) || body == InventoryReserveFailed(o)
  {
    StepKeeps(s, ToInventory(m, true));
    Delivered(s, m.event);
    body := Reply(s, m);
  }

  lemma AnsweringKnows(s: State, m: Message)
    requires Inv(s) && InboxesKnown(s) && Handles(s, m)
    ensures InboxesKnown(Step(s, ToInventory(m, true)))
  {
    var s', e, inbox := Step(s, ToInventory(m, true)), m.event, s.inventory.inbox;
    Delivered(s, e);
    KnownStays(s, s', s.orders.inbox);
    KnownStays(s, s', s.payments.inbox);
    KnownGrows(s, inbox, e);
    KnownStays(s, s', inbox + {e.id});
  }

  /** What the other services have not yet heard does not oblige them. */
  lemma UnheardAnswer(db: Orders.Db, answers: seq<Event>, answers': seq<Event>, outcomes: seq<Event>,
                      orders: set<EventId>, payments: set<EventId>, o: OrderId)
    requires o in db.orders && answers <= answers' && Numbered(answers', InventoryService)
    requires Knows(orders, InventoryService, answers) && Knows(payments, InventoryService, answers)
    requires PaidOrNot(db, answers, outcomes, payments, o) && Moved(db, answers, outcomes, orders, o)
    ensures PaidOrNot(db, answers', outcomes, payments, o) && Moved(db, answers', outcomes, orders, o)
  {
    HeardBefore(answers, answers', InventoryService, payments, ReservationOf(db, o));
    HeardBefore(answers, answers', InventoryService, orders, ReservationOf(db, o));
    HeardBefore(answers, answers', InventoryService, orders, InventoryReserveFailed(o));
  }

  /** Recording e and writing body keeps creations answered, if body answers e whenever e is a creation. */
  lemma AnswerProgress(db: Orders.Db, was: seq<Event>, inbox: set<EventId>, e: Event, body: Body, o: OrderId)
    requires o in db.orders && Answered(db, was, inbox, o) && Numbered(db.outbox, OrderService)
    requires e.id.source == OrderService ==> InOutbox(db.outbox, e)
    requires e.body == CreationOf(db, o) ==> body == ReservationOf(db, o) || body == InventoryReserveFailed(o)
    ensures Answered(db, Write(was, InventoryService, body), inbox + {e.id}, o)
  {
    var now := Write(was, InventoryService, body);
    SaysAtEnd(was, InventoryService, body);
    if Says(was, ReservationOf(db, o)) {
      SaysMore(was, now, ReservationOf(db, o));
    } else if Says(was, InventoryReserveFailed(o)) {
      SaysMore(was, now, InventoryReserveFailed(o));
    } else if e.id.source == OrderService {
      UniqueIds(db.outbox, OrderService);
      HeardNow(db.outbox, inbox, e, CreationOf(db, o));
    } else {
      HeardElsewhere(db.outbox, OrderService, inbox, e.id, CreationOf(db, o));
    }
  }

  /** What the inventory service writes when it handles a creation answers it. */
  lemma Reply(s: State, m: Message) returns (body: Body)
    requires Inv(s) && Handles(s, m)
    ensures Inventory.Handle(s.inventory.db, m).outbox == Write(s.inventory.db.outbox, InventoryService, body)
    ensures m.event.body.OrderCreated? ==>
              body == InventoryReserved(m.event.body.order, m.event.body.items) || body == InventoryReserveFailed(m.event.body.order)
    ensures m.event.id.source == OrderService ==> InOutbox(s.orders.db.outbox, m.event)
  {
    var e := m.event;
    Delivered(s, e);
    body := match e.body
      case OrderCreated(o, _, items) =>
        if Stock.Fits(s.inventory.db.rows, items) then InventoryReserved(o, items) else InventoryReserveFailed(o)
      case _ => InventoryReleased(e.body.order);
  }

  // ---------- the payment service settles ----------

  lemma SettlingProgress(s: State, m: Message)
    requires Inv(s) && Progress(s) && m.event in s.channel && m.event.id.source == InventoryService
    requires m.event.id !in s.payments.inbox && Payments.Accepts(m)
    ensures Progress(s.(payments := Messaging.Receive(Payments.Accepts, Payments.Handle, s.payments, m)))
  {
    var s', db, e, inbox := s.(payments := Messaging.Receive(Payments.Accepts, Payments.Handle, s.payments, m)),
                            s.orders.db, m.event, s.payments.inbox;
    Delivered(s, e);
    KnownStays(s, s', s.orders.inbox);
    KnownStays(s, s', s.inventory.inbox);
    KnownGrows(s, inbox, e);
    KnownStays(s, s', inbox + {e.id});
    ToPaymentsKeeps(s, m);
    forall o | o in db.orders
      ensures PaidOrNot(db, s.inventory.db.outbox, s'.payments.db.outbox, s'.payments.inbox, o)
      ensures Moved(db, s.inventory.db.outbox, s'.payments.db.outbox, s.orders.inbox, o)
    {
      OutcomeProgress(s, m, o);
      HeardBefore(s.payments.db.outbox, s'.payments.db.outbox, PaymentService, s.orders.inbox, FailureOf(db, o));
      assert Moved(db, s.inventory.db.outbox, s.payments.db.outbox, s.orders.inbox, o);
    }
  }

  lemma OutcomeProgress(s: State, m: Message, o: OrderId)
    requires Inv(s) && Progress(s) && m.event in s.channel && m.event.id.source == InventoryService
    requires m.event.id !in s.payments.inbox && Payments.Accepts(m) && o in s.orders.db.orders
    ensures var node := Messaging.Receive(Payments.Accepts, Payments.Handle, s.payments, m);
            PaidOrNot(s.orders.db, s.inventory.db.outbox, node.db.outbox, node.inbox, o)
  {
    var db, e, inbox, answers, was := s.orders.db, m.event, s.payments.inbox, s.inventory.db.outbox, s.payments.db.outbox;
    var now := Payments.Handle(s.payments.db, m).outbox;
    Delivered(s, e);
    assert PaidOrNot(db, answers, was, inbox, o);
    UniqueIds(answers, InventoryService);
    if Heard(answers, inbox + {e.id}, ReservationOf(db, o)) {
      HeardNow(answers, inbox, e, ReservationOf(db, o));
      if Heard(answers, inbox, ReservationOf(db, o)) {
        if Says(was, SuccessOf(db, o)) { SaysMore(was, now, SuccessOf(db, o)); } else { SaysMore(was, now, FailureOf(db, o)); }
      } else {
        SaysAtEnd(was, PaymentService, if m.declined then FailureOf(db, o) else SuccessOf(db, o));
      }
    }
  }

  // ---------- every run ----------

  lemma CreationProgress(s: State, o: OrderId, buyer: Orders.Buyer, key: string, items: seq<Line>, now: int)
    requires Inv(s) && Progress(s)
    ensures Progress(s.(orders := s.orders.(db := Orders.Create(s.orders.db, o, buyer, key, items, now))))
  {
    CreateKeeps(s.orders.db, o, buyer, key, items, now, s.inventory.db.outbox, s.payments.db.outbox);
    OrdersGrewProgress(s, Orders.Create(s.orders.db, o, buyer, key, items, now));
  }

  lemma SweepProgress(s: State, selected: seq<OrderId>, cutoff: int)
    requires Inv(s) && Progress(s)
    ensures Progress(s.(orders := s.orders.(db := Orders.SweepBatch(s.orders.db, selected, cutoff))))
  {
    SweepKeeps(s.orders.db, selected, cutoff, s.inventory.db.outbox, s.payments.db.outbox);
    forall o ensures Climbs(s.orders.db.orders, Orders.SweepBatch(s.orders.db, selected, cutoff).orders, o) {
      StepClimbs(s, Sweep(selected, cutoff), o);
    }
    OrdersGrewProgress(s, Orders.SweepBatch(s.orders.db, selected, cutoff));
  }

  lemma StepProgresses(s: State, a: Action)
    requires Inv(s) && Progress(s)
    ensures Progress(Step(s, a))
  {
    match a {
      case Create(o, buyer, key, items, now) =>
        CreationProgress(s, o, buyer, key, items, now);
      case Sweep(selected, cutoff) =>
        SweepProgress(s, selected, cutoff);
      case ToOrders(m, commits) =>
        if commits && m.event in s.channel && m.event.id.source != OrderService && m.event.id !in s.orders.inbox && Orders.Accepts(m) {
          ToOrdersProgress(s, m);
        }
      case ToInventory(m, commits) => if commits && Handles(s, m) { AnsweringProgress(s, m); }
      case ToPayments(m, commits) =>
        if commits && m.event in s.channel && m.event.id.source == InventoryService && m.event.id !in s.payments.inbox && Payments.Accepts(m) {
          SettlingProgress(s, m);
        }
      case _ => SameTalkSameProgress(s, Step(s, a));
    }
  }

  /** Progress is about tables of orders, outboxes and inboxes only. */
  lemma SameTalkSameProgress(s: State, s': State)
    requires Progress(s) && s'.orders == s.orders && s'.payments == s.payments
    requires s'.inventory.inbox == s.inventory.inbox && s'.inventory.db.outbox == s.inventory.db.outbox
    ensures Progress(s')
  {
  }

  lemma {:induction false} RunProgresses(rows: Stock.Rows, actions: seq<Action>)
    ensures Progress(Run(Initial(rows), actions))
  {
    if |actions| > 0 {
      var before := actions[..|actions| - 1];
      RunProgresses(rows, before);
      RunKeeps(rows, before);
      StepProgresses(Run(Initial(rows), before), actions[|actions| - 1]);
    }
  }

  /** Every row is published and every published event has been handled by all who handle its kind. */
  ghost predicate Quiet(s: State) {
    (forall source, i :: 0 <= i < |Outbox(s, source)| ==> Outbox(s, source)[i] in s.channel) &&
    (forall e :: e in s.channel && Orders.Accepts(Message(e, false)) ==> e.id in s.orders.inbox) &&
    (forall e :: e in s.channel && Inventory.Accepts(Message(e, false)) ==> e.id in s.inventory.inbox) &&
    (forall e :: e in s.channel && Payments.Accepts(Message(e, false)) ==> e.id in s.payments.inbox)
  }

  lemma QuietMeansHeard(s: State, source: Service, inbox: set<EventId>, body: Body)
    requires Quiet(s) && Says(Outbox(s, source), body)
    requires forall e :: e in s.channel && e.body == body ==> e.id in inbox
    ensures Heard(Outbox(s, source), inbox, body)
  {
    var i :| 0 <= i < |Outbox(s, source)| && Outbox(s, source)[i].body == body;
    assert Outbox(s, source)[i] in s.channel;
  }

  /**
    When everything sent has arrived, no order is pending; an order that was not served is cancelled,
    one whose card was declined is cancelled; and an order still between the states has been charged,
    its payment having overtaken its reservation.
  */
  lemma QuietShopIsSettled(rows: Stock.Rows, actions: seq<Action>, o: OrderId)
    requires Quiet(Run(Initial(rows), actions)) && o in Run(Initial(rows), actions).orders.db.orders
    ensures var s := Run(Initial(rows), actions);
            var db, status := s.orders.db, s.orders.db.orders[o].status;
            && !status.Pending?
            && (Says(s.inventory.db.outbox, ReservationOf(db, o)) || Says(s.inventory.db.outbox, InventoryReserveFailed(o)))
            && (Says(s.inventory.db.outbox, InventoryReserveFailed(o)) ==> status.CancelledNoStock? || status.Cancelled?)
            && (Says(s.payments.db.outbox, FailureOf(db, o)) ==> status.Cancelled?)
            && (status.StockReserved? ==> Charged(s.payments.db.payments, o))
  {
    var s := Run(Initial(rows), actions);
    RunKeeps(rows, actions);
    RunProgresses(rows, actions);
    QuietIsAnswered(s, o);
    if Says(s.inventory.db.outbox, InventoryReserveFailed(o)) {
      UnservedIsCancelled(s, o);
    } else {
      ReservedIsSettled(s, o);
    }
    if Says(s.payments.db.outbox, FailureOf(s.orders.db, o)) { DeclinedIsCancelled(s, o); }
  }

  lemma QuietIsAnswered(s: State, o: OrderId)
    requires Inv(s) && Progress(s) && Quiet(s) && o in s.orders.db.orders
    ensures Says(s.inventory.db.outbox, ReservationOf(s.orders.db, o)) || Says(s.inventory.db.outbox, InventoryReserveFailed(o))
  {
    QuietMeansHeard(s, OrderService, s.inventory.inbox, CreationOf(s.orders.db, o));
    assert Answered(s.orders.db, s.inventory.db.outbox, s.inventory.inbox, o);
  }

  lemma UnservedIsCancelled(s: State, o: OrderId)
    requires Inv(s) && Progress(s) && Quiet(s) && o in s.orders.db.orders
    requires Says(s.inventory.db.outbox, InventoryReserveFailed(o))
    ensures s.orders.db.orders[o].status.CancelledNoStock? || s.orders.db.orders[o].status.Cancelled?
  {
    var db, answers := s.orders.db, s.inventory.db.outbox;
    MovedInState(s, o);
    QuietMeansHeard(s, InventoryService, s.orders.inbox, InventoryReserveFailed(o));
    assert StatusBacked(db, answers, s.payments.db.outbox, o);
    if db.orders[o].status.Confirmed? { SaysOnce(answers, InventoryReserveFailed(o), ReservationOf(db, o)); }
  }

  lemma DeclinedIsCancelled(s: State, o: OrderId)
    requires Inv(s) && Progress(s) && Quiet(s) && o in s.orders.db.orders
    requires Says(s.payments.db.outbox, FailureOf(s.orders.db, o))
    ensures s.orders.db.orders[o].status.Cancelled?
  {
    MovedInState(s, o);
    QuietMeansHeard(s, PaymentService, s.orders.inbox, FailureOf(s.orders.db, o));
    FailedWasReserved(s, o);
    OnlyCancelled(s.orders.db, s.inventory.db.outbox, s.payments.db.outbox, o);
  }

  /** A reserved and declined order can only be live or cancelled. */
  lemma OnlyCancelled(db: Orders.Db, answers: seq<Event>, outcomes: seq<Event>, o: OrderId)
    requires o in db.orders && StatusBacked(db, answers, outcomes, o)
    requires Unique(answers, Answer) && Says(answers, ReservationOf(db, o))
    requires Unique(outcomes, Outcome) && Says(outcomes, FailureOf(db, o))
    ensures Orders.Live(db.orders[o].status) || db.orders[o].status.Cancelled?
  {
    if db.orders[o].status.Confirmed? {
      SaysOnce(outcomes, FailureOf(db, o), SuccessOf(db, o));
    } else if db.orders[o].status.CancelledNoStock? {
      SaysOnce(answers, InventoryReserveFailed(o), ReservationOf(db, o));
    }
  }

  lemma ReservedIsSettled(s: State, o: OrderId)
    requires Inv(s) && Progress(s) && Quiet(s) && o in s.orders.db.orders
    requires Says(s.inventory.db.outbox, ReservationOf(s.orders.db, o))
    ensures !s.orders.db.orders[o].status.Pending?
    ensures s.orders.db.orders[o].status.StockReserved? ==> Charged(s.payments.db.payments, o)
  {
    var db, answers, outcomes := s.orders.db, s.inventory.db.outbox, s.payments.db.outbox;
    MovedInState(s, o);
    QuietMeansHeard(s, InventoryService, s.orders.inbox, ReservationOf(db, o));
    QuietMeansHeard(s, InventoryService, s.payments.inbox, ReservationOf(db, o));
    assert PaidOrNot(db, answers, outcomes, s.payments.inbox, o);
    if Says(outcomes, FailureOf(db, o)) { DeclinedIsCancelled(s, o); } else { SuccessIsCharged(s, o); }
  }

  lemma FailedWasReserved(s: State, o: OrderId)
    requires Inv(s) && o in s.orders.db.orders && Says(s.payments.db.outbox, FailureOf(s.orders.db, o))
    ensures Says(s.inventory.db.outbox, ReservationOf(s.orders.db, o))
  {
    var db, answers, outcomes := s.orders.db, s.inventory.db.outbox, s.payments.db.outbox;
    var i :| 0 <= i < |outcomes| && outcomes[i].body == FailureOf(db, o);
    assert OutcomeBacked(db, answers, s.payments.inbox, outcomes[i].body);
    var j :| 0 <= j < |answers| && answers[j].body == ReservationOf(db, o) && answers[j].id in s.payments.inbox;
  }

  lemma SuccessIsCharged(s: State, o: OrderId)
    requires Inv(s) && o in s.orders.db.orders && Says(s.payments.db.outbox, SuccessOf(s.orders.db, o))
    ensures Charged(s.payments.db.payments, o)
  {
    var outcomes := s.payments.db.outbox;
    var i :| 0 <= i < |outcomes| && outcomes[i].body == SuccessOf(s.orders.db, o);
    assert outcomes[i].body.PaymentSuccess?;
  }
}
