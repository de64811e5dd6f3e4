/** Every transaction of the inventory and payment services keeps the laws across the boundaries. */
module SagaServices {
  import opened Commerce
  import opened SagaLaws
  import opened SagaOrders
  import Stock
  import Orders
  import Payments
  import Ledger

  // ---------- laws that survive when another service grows ----------

  lemma AnswersSurvive(db: Orders.Db, db': Orders.Db, answers: seq<Event>, inbox: set<EventId>)
    requires Answers(db, answers, inbox) && Grows(db, db')
    ensures Answers(db', answers, inbox)
  {
    forall i | 0 <= i < |answers| && KindOf(answers[i].body) == Answer
      ensures AnswerBacked(db', inbox, answers[i].body)
    {
      HeardMore(db.outbox, db'.outbox, inbox, inbox, CreationOf(db, answers[i].body.order));
    }
  }

  lemma OutcomesSurvive(db: Orders.Db, db': Orders.Db, answers: seq<Event>, answers': seq<Event>, outcomes: seq<Event>, inbox: set<EventId>)
    requires Outcomes(db, answers, outcomes, inbox) && Grows(db, db') && answers <= answers'
    ensures Outcomes(db', answers', outcomes, inbox)
  {
    forall i | 0 <= i < |outcomes| && KindOf(outcomes[i].body) == Outcome
      ensures OutcomeBacked(db', answers', inbox, outcomes[i].body)
    {
      assert OutcomeBacked(db, answers, inbox, outcomes[i].body);
      HeardMore(answers, answers', inbox, inbox, ReservationOf(db, outcomes[i].body.order));
    }
  }

  lemma ChargesSurvive(db: Orders.Db, db': Orders.Db, payments: seq<Payments.Payment>, outcomes: seq<Event>)
    requires Charges(db, payments, outcomes) && Grows(db, db')
    ensures Charges(db', payments, outcomes)
  {
  }

  lemma BackedSurvives(db: Orders.Db, answers: seq<Event>, answers': seq<Event>, outcomes: seq<Event>, outcomes': seq<Event>)
    requires Backed(db, answers, outcomes) && answers <= answers' && outcomes <= outcomes'
    ensures Backed(db, answers', outcomes')
  {
    forall o | o in db.orders ensures StatusBacked(db, answers', outcomes', o) {
      assert StatusBacked(db, answers, outcomes, o);
      match db.orders[o].status {
        case StockReserved => SaysMore(answers, answers', ReservationOf(db, o));
        case Confirmed =>
          SaysMore(answers, answers', ReservationOf(db, o));
          SaysMore(outcomes, outcomes', SuccessOf(db, o));
        case CancelledNoStock => SaysMore(answers, answers', InventoryReserveFailed(o));
        case _ =>
      }
    }
  }

  /** Only known orders are ever reserved. */
  lemma ReservedIsKnown(db: Orders.Db, answers: seq<Event>, inbox: set<EventId>, o: OrderId, items: seq<Line>)
    requires Answers(db, answers, inbox) && Says(answers, InventoryReserved(o, items))
    ensures o in db.orders && items == db.orders[o].items
  {
    var i :| 0 <= i < |answers| && answers[i].body == InventoryReserved(o, items);
    assert KindOf(answers[i].body) == Answer;
  }

  lemma ReleasedSurvives(db: Orders.Db, db': Orders.Db, outcomes: seq<Event>, outcomes': seq<Event>, inbox: set<EventId>, inbox': set<EventId>, o: OrderId)
    requires o in db.orders && Grows(db, db') && outcomes <= outcomes' && inbox <= inbox'
    ensures Released(db, outcomes, inbox, o) ==> Released(db', outcomes', inbox', o)
  {
    HeardMore(outcomes, outcomes', inbox, inbox', FailureOf(db, o));
    HeardMore(db.outbox, db'.outbox, inbox, inbox', CancellationOf(db, o));
  }

  lemma HoldsSurvives(db: Orders.Db, db': Orders.Db, answers: seq<Event>, outcomes: seq<Event>, outcomes': seq<Event>, inbox: set<EventId>, book: Ledger.Book)
    requires Holds(db, answers, outcomes, inbox, book) && Answers(db, answers, inbox)
    requires Grows(db, db') && outcomes <= outcomes'
    ensures Holds(db', answers, outcomes', inbox, book)
  {
    forall o ensures HoldsRight(db', answers, outcomes', inbox, book, o) {
      assert HoldsRight(db, answers, outcomes, inbox, book, o);
      if o in db'.orders && Says(answers, ReservationOf(db', o)) {
        ReservedIsKnown(db, answers, inbox, o, db'.orders[o].items);
        ReleasedSurvives(db, db', outcomes, outcomes', inbox, inbox, o);
      }
    }
  }

  // ---------- the inventory service ----------

  /** A creation that has not been handled has not been answered. */
  lemma NotYetAnswered(db: Orders.Db, answers: seq<Event>, inbox: set<EventId>, e: Event)
    requires Creations(db) && Numbered(db.outbox, OrderService) && Answers(db, answers, inbox)
    requires InOutbox(db.outbox, e) && e.body.OrderCreated? && e.id !in inbox
    ensures e.body.order in db.orders && e.body == CreationOf(db, e.body.order)
    ensures Silent(answers, Answer, e.body.order)
  {
    var o := e.body.order;
    forall i | 0 <= i < |answers| && KindOf(answers[i].body) == Answer ensures answers[i].body.order != o {
      if answers[i].body.order == o {
        assert AnswerBacked(db, inbox, answers[i].body);
        HeardOnce(db.outbox, inbox, e);
      }
    }
  }

  lemma AnswerKept(db: Orders.Db, answers: seq<Event>, inbox: set<EventId>, e: Event, body: Body)
    requires Numbered(answers, InventoryService) && Answers(db, answers, inbox)
    requires Author(KindOf(body)) == InventoryService
    requires KindOf(body) == Answer ==> Silent(answers, Answer, body.order) && AnswerBacked(db, inbox + {e.id}, body)
    ensures Numbered(Write(answers, InventoryService, body), InventoryService)
    ensures Answers(db, Write(answers, InventoryService, body), inbox + {e.id})
  {
    WriteKeeps(answers, InventoryService, body, Answer);
    var answers' := Write(answers, InventoryService, body);
    forall i | 0 <= i < |answers'| && KindOf(answers'[i].body) == Answer
      ensures AnswerBacked(db, inbox + {e.id}, answers'[i].body)
    {
      if i < |answers| {
        assert AnswerBacked(db, inbox, answers[i].body);
        HeardMore(db.outbox, db.outbox, inbox, inbox + {e.id}, CreationOf(db, answers[i].body.order));
      }
    }
  }

  /** A new answer about one order leaves what is said about the others. */
  lemma SaysOfOthers(outbox: seq<Event>, source: Service, body: Body, other: Body)
    requires body != other
    ensures Says(Write(outbox, source, body), other) <==> Says(outbox, other)
  {
    var outbox' := Write(outbox, source, body);
    if Says(outbox', other) {
      var i :| 0 <= i < |outbox'| && outbox'[i].body == other;
      assert outbox[i].body == other;
    } else if Says(outbox, other) {
      SaysMore(outbox, outbox', other);
    }
  }

  lemma ReserveKeepsHolds(db: Orders.Db, answers: seq<Event>, outcomes: seq<Event>, inbox: set<EventId>, book: Ledger.Book, e: Event)
    requires Holds(db, answers, outcomes, inbox, book) && Silent(answers, Answer, e.body.order)
    requires e.body.OrderCreated? && e.body.order in db.orders && e.body == CreationOf(db, e.body.order)
    ensures var OrderCreated(o, _, items) := e.body;
            var body := if Stock.Fits(book.rows, items) then InventoryReserved(o, items) else InventoryReserveFailed(o);
            Holds(db, Write(answers, InventoryService, body), outcomes, inbox + {e.id}, Ledger.Post(book, Ledger.Reserve(o, items)))
  {
    var OrderCreated(o, _, items) := e.body;
    var fits := Stock.Fits(book.rows, items);
    var body := if fits then InventoryReserved(o, items) else InventoryReserveFailed(o);
    var answers', book' := Write(answers, InventoryService, body), Ledger.Post(book, Ledger.Reserve(o, items));
    assert !Says(answers, ReservationOf(db, o));
    SaysAtEnd(answers, InventoryService, body);
    forall q ensures HoldsRight(db, answers', outcomes, inbox + {e.id}, book', q) {
      assert HoldsRight(db, answers, outcomes, inbox, book, q);
      if fits {
        Ledger.HeldForConcat(book.held, Ledger.Tag(o, items), q);
        Ledger.HeldForTag(o, items, q);
      }
      if q in db.orders {
        if q != o || !fits { SaysOfOthers(answers, InventoryService, body, ReservationOf(db, q)); }
        ReleasedSurvives(db, db, outcomes, outcomes, inbox, inbox + {e.id}, q);
      }
    }
  }

  /** The body of a compensation event of an order. */
  ghost predicate Compensates(db: Orders.Db, body: Body) {
    body.order in db.orders && (body == FailureOf(db, body.order) || body == CancellationOf(db, body.order))
  }

  lemma ReleaseKeepsHolds(db: Orders.Db, answers: seq<Event>, outcomes: seq<Event>, inbox: set<EventId>, book: Ledger.Book, e: Event)
    requires Holds(db, answers, outcomes, inbox, book) && Compensates(db, e.body)
    requires InOutbox(if e.body.PaymentFailed? then outcomes else db.outbox, e)
    ensures Holds(db, Write(answers, InventoryService, InventoryReleased(e.body.order)), outcomes, inbox + {e.id},
                  Ledger.Post(book, Ledger.Release(e.body.order, e.body.items)))
  {
    var o := e.body.order;
    var answers' := Write(answers, InventoryService, InventoryReleased(o));
    var book' := Ledger.Post(book, Ledger.Release(o, e.body.items));
    forall q ensures HoldsRight(db, answers', outcomes, inbox + {e.id}, book', q) {
      assert HoldsRight(db, answers, outcomes, inbox, book, q);
      Ledger.HeldForWithout(book.held, o, q);
      if q in db.orders {
        SaysOfOthers(answers, InventoryService, InventoryReleased(o), ReservationOf(db, q));
        ReleasedSurvives(db, db, outcomes, outcomes, inbox, inbox + {e.id}, q);
      }
    }
    assert Released(db, outcomes, inbox + {e.id}, o);
  }

  // ---------- the payment service ----------

  /** A reservation that has not been handled has not been settled. */
  lemma NotYetSettled(db: Orders.Db, answers: seq<Event>, inbox: set<EventId>, outcomes: seq<Event>, paymentInbox: set<EventId>, e: Event)
    requires Answers(db, answers, inbox) && Numbered(answers, InventoryService) && Outcomes(db, answers, outcomes, paymentInbox)
    requires InOutbox(answers, e) && e.body.InventoryReserved? && e.id !in paymentInbox
    ensures e.body.order in db.orders && e.body == ReservationOf(db, e.body.order)
    ensures Silent(outcomes, Outcome, e.body.order)
  {
    var o := e.body.order;
    assert AnswerBacked(db, inbox, e.body);
    forall i | 0 <= i < |outcomes| && KindOf(outcomes[i].body) == Outcome ensures outcomes[i].body.order != o {
      if outcomes[i].body.order == o {
        assert OutcomeBacked(db, answers, paymentInbox, outcomes[i].body);
        HeardOnce(answers, paymentInbox, e);
      }
    }
  }

  lemma OutcomeKept(db: Orders.Db, answers: seq<Event>, outcomes: seq<Event>, inbox: set<EventId>, e: Event, body: Body)
    requires Numbered(outcomes, PaymentService) && Outcomes(db, answers, outcomes, inbox)
    requires KindOf(body) == Outcome && Silent(outcomes, Outcome, body.order)
    requires OutcomeBacked(db, answers, inbox + {e.id}, body)
    ensures Numbered(Write(outcomes, PaymentService, body), PaymentService)
    ensures Outcomes(db, answers, Write(outcomes, PaymentService, body), inbox + {e.id})
  {
    WriteKeeps(outcomes, PaymentService, body, Outcome);
    var outcomes' := Write(outcomes, PaymentService, body);
    forall i | 0 <= i < |outcomes'| && KindOf(outcomes'[i].body) == Outcome
      ensures OutcomeBacked(db, answers, inbox + {e.id}, outcomes'[i].body)
    {
      if i < |outcomes| {
        assert OutcomeBacked(db, answers, inbox, outcomes[i].body);
        HeardMore(answers, answers, inbox, inbox + {e.id}, ReservationOf(db, outcomes[i].body.order));
      }
    }
  }

  lemma NotYetCharged(db: Orders.Db, payments: seq<Payments.Payment>, outcomes: seq<Event>, o: OrderId)
    requires Charges(db, payments, outcomes) && Silent(outcomes, Outcome, o)
    ensures forall a :: 0 <= a < |payments| ==> payments[a].order != o
  {
    forall a | 0 <= a < |payments| ensures payments[a].order != o {
      assert Says(outcomes, SuccessOf(db, payments[a].order));
      var i :| 0 <= i < |outcomes| && outcomes[i].body == SuccessOf(db, payments[a].order);
      assert KindOf(outcomes[i].body) == Outcome;
    }
  }

  lemma FailureKeepsCharges(db: Orders.Db, payments: seq<Payments.Payment>, outcomes: seq<Event>, o: OrderId)
    requires Charges(db, payments, outcomes) && o in db.orders
    ensures Charges(db, payments, Write(outcomes, PaymentService, FailureOf(db, o)))
  {
    var outcomes' := Write(outcomes, PaymentService, FailureOf(db, o));
    forall a | 0 <= a < |payments| ensures Says(outcomes', SuccessOf(db, payments[a].order)) {
      SaysMore(outcomes, outcomes', SuccessOf(db, payments[a].order));
    }
  }

  lemma SuccessKeepsCharges(db: Orders.Db, payments: seq<Payments.Payment>, outcomes: seq<Event>, o: OrderId)
    requires Charges(db, payments, outcomes) && Silent(outcomes, Outcome, o) && o in db.orders
    ensures Charges(db, payments + [Payments.Payment(o, db.orders[o].total)], Write(outcomes, PaymentService, SuccessOf(db, o)))
  {
    NotYetCharged(db, payments, outcomes, o);
    var outcomes', payments' := Write(outcomes, PaymentService, SuccessOf(db, o)), payments + [Payments.Payment(o, db.orders[o].total)];
    forall a | 0 <= a < |payments'|
      ensures payments'[a].order in db.orders && payments'[a].amount == db.orders[payments'[a].order].total &&
              Says(outcomes', SuccessOf(db, payments'[a].order))
    {
      if a < |payments| {
        assert payments'[a] == payments[a];
        SaysMore(outcomes, outcomes', SuccessOf(db, payments[a].order));
      } else {
        SaysAtEnd(outcomes, PaymentService, SuccessOf(db, o));
      }
    }
    forall i | 0 <= i < |outcomes'| && outcomes'[i].body.PaymentSuccess? ensures Charged(payments', outcomes'[i].body.order) {
      if i < |outcomes| {
        var a :| 0 <= a < |payments| && payments[a].order == outcomes[i].body.order;
        assert payments'[a].order == outcomes'[i].body.order;
      } else {
        assert payments'[|payments|].order == o;
      }
    }
  }
}
