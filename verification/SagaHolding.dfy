/**
  What an order holds in stock at any time, exactly. A compensation that is handled before the order's
  creation releases nothing, and the reservation that follows is never given back.
*/
module SagaHolding {
  import opened Commerce
  import opened Saga
  import opened SagaLaws
  import opened SagaOrders
  import opened SagaServices
  import opened SagaSafety
  import opened SagaProgress
  import Stock
  import Orders
  import Ledger

  predicate Compensation(body: Body) { body.PaymentFailed? || body.OrderCancelled? }

  /** The inventory service handles a compensation of the order, having handled its creation before. */
  ghost predicate CompensatesLate(s: State, a: Action, o: OrderId) {
    a.ToInventory? && a.commits && Handles(s, a.message) && Compensation(a.message.event.body) &&
    a.message.event.body.order == o && o in s.orders.db.orders &&
    Heard(s.orders.db.outbox, s.inventory.inbox, CreationOf(s.orders.db, o))
  }

  /** Some compensation of the order was handled after its creation. */
  ghost predicate Compensated(rows: Stock.Rows, actions: seq<Action>, o: OrderId) {
    |actions| > 0 &&
    (Compensated(rows, actions[..|actions| - 1], o) ||
     CompensatesLate(Run(Initial(rows), actions[..|actions| - 1]), actions[|actions| - 1], o))
  }

  /** What the order holds: its items if they were reserved and no compensation came after its creation. */
  ghost predicate HoldsExactly(s: State, compensated: bool, o: OrderId) {
    var db, answers := s.orders.db, s.inventory.db.outbox;
    (compensated ==> o in db.orders && Heard(db.outbox, s.inventory.inbox, CreationOf(db, o))) &&
    Ledger.HeldFor(s.book.held, o) ==
      if o in db.orders && Says(answers, ReservationOf(db, o)) && !compensated then db.orders[o].items else []
  }

  /** What a handled creation does to the inventory service and the ledger. */
  lemma ReservationStep(s: State, a: Action, o: OrderId) returns (body: Body)
    requires s.inventory.db.rows == s.book.rows && a.ToInventory? && a.commits && Handles(s, a.message) && a.message.event.body.OrderCreated?
    ensures var s', e := Step(s, a), a.message.event;
            s'.orders == s.orders && s'.inventory.inbox == s.inventory.inbox + {e.id} &&
            s'.inventory.db.outbox == Write(s.inventory.db.outbox, InventoryService, body) &&
            body in {InventoryReserved(e.body.order, e.body.items), InventoryReserveFailed(e.body.order)} &&
            Ledger.HeldFor(s'.book.held, o) ==
              Ledger.HeldFor(s.book.held, o) + if body.InventoryReserved? && e.body.order == o then e.body.items else []
  {
    var q, items := a.message.event.body.order, a.message.event.body.items;
    if Stock.Fits(s.book.rows, items) {
      body := InventoryReserved(q, items);
      Ledger.HeldForConcat(s.book.held, Ledger.Tag(q, items), o);
      Ledger.HeldForTag(q, items, o);
    } else {
      body := InventoryReserveFailed(q);
    }
  }

  lemma ReservationHolds(s: State, a: Action, compensated: bool, o: OrderId)
    requires Inv(s) && HoldsExactly(s, compensated, o) && a.ToInventory? && a.commits && Handles(s, a.message)
    requires a.message.event.body.OrderCreated?
    ensures HoldsExactly(Step(s, a), compensated, o)
  {
    var e, db, answers, inbox := a.message.event, s.orders.db, s.inventory.db.outbox, s.inventory.inbox;
    Delivered(s, e);
    NotYetAnswered(db, answers, inbox, e);
    var body := ReservationStep(s, a, o);
    if o in db.orders {
      HeardMore(db.outbox, db.outbox, inbox, inbox + {e.id}, CreationOf(db, o));
      if body == ReservationOf(db, o) {
        SaysAtEnd(answers, InventoryService, body);
      } else {
        SaysOfOthers(answers, InventoryService, body, ReservationOf(db, o));
      }
      if o == e.body.order && compensated { HeardOnce(db.outbox, inbox, e); }
    }
    NotSaidIfSilent(db, answers, e.body.order);
  }

  lemma NotSaidIfSilent(db: Orders.Db, answers: seq<Event>, o: OrderId)
    requires Silent(answers, Answer, o) && o in db.orders
    ensures !Says(answers, ReservationOf(db, o))
  {
  }

  /** What a handled compensation does to the inventory service and the ledger. */
  lemma CompensationStep(s: State, a: Action, o: OrderId)
    requires a.ToInventory? && a.commits && Handles(s, a.message) && Compensation(a.message.event.body)
    ensures var s', e := Step(s, a), a.message.event;
            s'.orders == s.orders && s'.inventory.inbox == s.inventory.inbox + {e.id} &&
            s'.inventory.db.outbox == Write(s.inventory.db.outbox, InventoryService, InventoryReleased(e.body.order)) &&
            Ledger.HeldFor(s'.book.held, o) == if e.body.order == o then [] else Ledger.HeldFor(s.book.held, o)
  {
    Ledger.HeldForWithout(s.book.held, a.message.event.body.order, o);
  }

  /** An order that is compensated before its creation holds nothing anyway. */
  lemma CompensationHolds(s: State, a: Action, compensated: bool, o: OrderId)
    requires Inv(s) && HoldsExactly(s, compensated, o) && a.ToInventory? && a.commits && Handles(s, a.message)
    requires Compensation(a.message.event.body)
    ensures HoldsExactly(Step(s, a), compensated || CompensatesLate(s, a, o), o)
  {
    CompensationStep(s, a, o);
    assert Answers(s.orders.db, s.inventory.db.outbox, s.inventory.inbox);
    if o in s.orders.db.orders { ReleaseTalk(s.orders.db, s.inventory.db.outbox, s.inventory.inbox, a.message.event, o); }
  }

  /** A release answers nothing, and what was reserved had been created. */
  lemma ReleaseTalk(db: Orders.Db, answers: seq<Event>, inbox: set<EventId>, e: Event, o: OrderId)
    requires Answers(db, answers, inbox) && o in db.orders
    ensures Heard(db.outbox, inbox, CreationOf(db, o)) ==> Heard(db.outbox, inbox + {e.id}, CreationOf(db, o))
    ensures Says(Write(answers, InventoryService, InventoryReleased(e.body.order)), ReservationOf(db, o)) <==>
            Says(answers, ReservationOf(db, o))
    ensures Says(answers, ReservationOf(db, o)) ==> Heard(db.outbox, inbox, CreationOf(db, o))
  {
    HeardMore(db.outbox, db.outbox, inbox, inbox + {e.id}, CreationOf(db, o));
    SaysOfOthers(answers, InventoryService, InventoryReleased(e.body.order), ReservationOf(db, o));
    if Says(answers, ReservationOf(db, o)) { ReservedWasHeard(db, answers, inbox, o); }
  }

  lemma ReservedWasHeard(db: Orders.Db, answers: seq<Event>, inbox: set<EventId>, o: OrderId)
    requires Answers(db, answers, inbox) && o in db.orders && Says(answers, ReservationOf(db, o))
    ensures Heard(db.outbox, inbox, CreationOf(db, o))
  {
    var i :| 0 <= i < |answers| && answers[i].body == ReservationOf(db, o);
    assert AnswerBacked(db, inbox, answers[i].body);
  }

  /** A step that is not the inventory service handling an event changes nothing the order holds. */
  lemma OtherStepHolds(s: State, a: Action, compensated: bool, o: OrderId)
    requires Inv(s) && HoldsExactly(s, compensated, o)
    requires !(a.ToInventory? && a.commits && Handles(s, a.message))
    ensures HoldsExactly(Step(s, a), compensated, o)
  {
    var s', db, answers := Step(s, a), s.orders.db, s.inventory.db.outbox;
    OtherStepFacts(s, a, o);
    if o in db.orders {
      HeardMore(db.outbox, s'.orders.db.outbox, s.inventory.inbox, s.inventory.inbox, CreationOf(db, o));
    } else if o in s'.orders.db.orders && Says(answers, ReservationOf(s'.orders.db, o)) {
      ReservedIsKnown(db, answers, s.inventory.inbox, o, s'.orders.db.orders[o].items);
    }
  }

  lemma OtherStepFacts(s: State, a: Action, o: OrderId)
    requires !(a.ToInventory? && a.commits && Handles(s, a.message))
    ensures var s' := Step(s, a);
            s'.inventory.inbox == s.inventory.inbox && s'.inventory.db.outbox == s.inventory.db.outbox &&
            s'.book.held == s.book.held && s.orders.db.outbox <= s'.orders.db.outbox &&
            (o in s.orders.db.orders ==>
               o in s'.orders.db.orders && CreationOf(s'.orders.db, o) == CreationOf(s.orders.db, o))
  {
    if a.Sweep? {
      Orders.SweepBatchOrders(s.orders.db, a.selected, a.cutoff);
      SweepOnlyWrites(s.orders.db, a.selected, a.cutoff);
    }
  }

  lemma {:induction false} SweepOnlyWrites(db: Orders.Db, selected: seq<OrderId>, cutoff: int)
    ensures db.outbox <= Orders.SweepBatch(db, selected, cutoff).outbox
  {
    if |selected| > 0 { SweepOnlyWrites(db, selected[..|selected| - 1], cutoff); }
  }

  lemma StepHolds(s: State, a: Action, compensated: bool, o: OrderId)
    requires Inv(s) && HoldsExactly(s, compensated, o)
    ensures HoldsExactly(Step(s, a), compensated || CompensatesLate(s, a, o), o)
  {
    if !(a.ToInventory? && a.commits && Handles(s, a.message)) {
      OtherStepHolds(s, a, compensated, o);
    } else if a.message.event.body.OrderCreated? {
      ReservationHolds(s, a, compensated, o);
    } else {
      CompensationHolds(s, a, compensated, o);
    }
  }

  /** In every reachable state an order holds its items exactly if they were reserved and not compensated since. */
  lemma {:induction false} HoldingIsExact(rows: Stock.Rows, actions: seq<Action>, o: OrderId)
    ensures HoldsExactly(Run(Initial(rows), actions), Compensated(rows, actions, o), o)
  {
    if |actions| > 0 {
      var before := actions[..|actions| - 1];
      HoldingIsExact(rows, before, o);
      RunKeeps(rows, before);
      StepHolds(Run(Initial(rows), before), actions[|actions| - 1], Compensated(rows, before, o), o);
    }
  }

  /**
    Compensation is complete exactly when it is not early: once everything sent has arrived, a cancelled
    order whose non-empty items were reserved has given them back if and only if some compensation of it
    was handled after its creation.
  */
  lemma CancelledGivesBackIffCompensated(rows: Stock.Rows, actions: seq<Action>, o: OrderId)
    requires var s := Run(Initial(rows), actions);
             Quiet(s) && o in s.orders.db.orders && s.orders.db.orders[o].status.Cancelled? &&
             s.orders.db.orders[o].items != [] && Says(s.inventory.db.outbox, ReservationOf(s.orders.db, o))
    ensures Ledger.HeldFor(Run(Initial(rows), actions).book.held, o) == [] <==> Compensated(rows, actions, o)
    ensures var s := Run(Initial(rows), actions);
            Released(s.orders.db, s.payments.db.outbox, s.inventory.inbox, o)
  {
    var s := Run(Initial(rows), actions);
    HoldingIsExact(rows, actions, o);
    RunKeeps(rows, actions);
    QuietMeansHeard(s, OrderService, s.inventory.inbox, CancellationOf(s.orders.db, o));
  }
}
