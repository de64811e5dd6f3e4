/** What holds in every reachable state of the composed saga. */
module SagaSafety {
  import opened Commerce
  import opened Saga
  import opened SagaLaws
  import opened SagaOrders
  import opened SagaServices
  import Messaging
  import Stock
  import Orders
  import Payments

  lemma PublishedSurvives(s: State, s': State)
    requires Published(s) && s'.channel == s.channel && s'.processed == s.processed
    requires s.orders.db.outbox <= s'.orders.db.outbox
    requires s.inventory.db.outbox <= s'.inventory.db.outbox
    requires s.payments.db.outbox <= s'.payments.db.outbox
    ensures Published(s')
  {
    forall id | id in s'.processed ensures exists e :: e in s'.channel && e.id == id {
      var e :| e in s.channel && e.id == id;
      assert e in s'.channel;
    }
  }

  lemma OrderStepKeeps(s: State, node: Messaging.Node<Orders.Db>)
    requires Inv(s) && Grows(s.orders.db, node.db)
    requires OrderLaws(node.db, s.inventory.db.outbox, s.payments.db.outbox)
    ensures Inv(s.(orders := node))
  {
    var db, db', answers, outcomes := s.orders.db, node.db, s.inventory.db.outbox, s.payments.db.outbox;
    PublishedSurvives(s, s.(orders := node));
    AnswersSurvive(db, db', answers, s.inventory.inbox);
    OutcomesSurvive(db, db', answers, answers, outcomes, s.payments.inbox);
    ChargesSurvive(db, db', s.payments.db.payments, outcomes);
    HoldsSurvives(db, db', answers, outcomes, outcomes, s.inventory.inbox, s.book);
  }

  lemma ToOrdersKeeps(s: State, m: Message)
    requires Inv(s) && m.event in s.channel && m.event.id.source != OrderService
    ensures Inv(s.(orders := Messaging.Receive(Orders.Accepts, Orders.Handle, s.orders, m)))
  {
    if m.event.id !in s.orders.inbox && Orders.Accepts(m) {
      Delivered(s, m.event);
      HandleKeeps(s.orders.db, m, s.inventory.db.outbox, s.inventory.inbox, s.payments.db.outbox, s.payments.inbox);
      OrderStepKeeps(s, Messaging.Receive(Orders.Accepts, Orders.Handle, s.orders, m));
    }
  }

  lemma CompensationIsRight(s: State, e: Event)
    requires Inv(s) && e in s.channel && (e.body.PaymentFailed? || e.body.OrderCancelled?)
    ensures Compensates(s.orders.db, e.body)
    ensures InOutbox(if e.body.PaymentFailed? then s.payments.db.outbox else s.orders.db.outbox, e)
  {
    Delivered(s, e);
    if e.body.PaymentFailed? {
      assert OutcomeBacked(s.orders.db, s.inventory.db.outbox, s.payments.inbox, e.body);
    }
  }

  lemma ReservationKeeps(s: State, m: Message)
    requires Inv(s) && Handles(s, m) && m.event.body.OrderCreated?
    ensures Inv(Step(s, ToInventory(m, true)))
  {
    var e, db, answers, inbox := m.event, s.orders.db, s.inventory.db.outbox, s.inventory.inbox;
    Delivered(s, e);
    NotYetAnswered(db, answers, inbox, e);
    var body := if Stock.Fits(s.book.rows, e.body.items) then InventoryReserved(e.body.order, e.body.items) else InventoryReserveFailed(e.body.order);
    assert Heard(db.outbox, inbox + {e.id}, CreationOf(db, e.body.order));
    AnswerKept(db, answers, inbox, e, body);
    ReserveKeepsHolds(db, answers, s.payments.db.outbox, inbox, s.book, e);
    InventoryGrewKeeps(s, Step(s, ToInventory(m, true)));
  }

  lemma CompensationKeeps(s: State, m: Message)
    requires Inv(s) && Handles(s, m) && !m.event.body.OrderCreated?
    ensures Inv(Step(s, ToInventory(m, true)))
  {
    var e, db, answers, inbox := m.event, s.orders.db, s.inventory.db.outbox, s.inventory.inbox;
    CompensationIsRight(s, e);
    ReleaseIsAnswered(db, answers, inbox, e);
    ReleaseKeepsHolds(db, answers, s.payments.db.outbox, inbox, s.book, e);
    InventoryGrewKeeps(s, Step(s, ToInventory(m, true)));
  }

  lemma ReleaseIsAnswered(db: Orders.Db, answers: seq<Event>, inbox: set<EventId>, e: Event)
    requires Numbered(answers, InventoryService) && Answers(db, answers, inbox)
    ensures var answers' := Write(answers, InventoryService, InventoryReleased(e.body.order));
            Numbered(answers', InventoryService) && Answers(db, answers', inbox + {e.id}) && answers <= answers'
  {
    AnswerKept(db, answers, inbox, e, InventoryReleased(e.body.order));
  }

  /** The laws that do not depend on what the inventory service wrote, only that it grew. */
  lemma InventoryGrewKeeps(s: State, s': State)
    requires Inv(s) && s' == s.(inventory := s'.inventory, book := s'.book)
    requires s.inventory.db.outbox <= s'.inventory.db.outbox
    requires Numbered(s'.inventory.db.outbox, InventoryService)
    requires Answers(s.orders.db, s'.inventory.db.outbox, s'.inventory.inbox)
    requires s'.inventory.db.rows == s'.book.rows
    requires Holds(s.orders.db, s'.inventory.db.outbox, s.payments.db.outbox, s'.inventory.inbox, s'.book)
    ensures Inv(s')
  {
    var db, answers, answers', outcomes := s.orders.db, s.inventory.db.outbox, s'.inventory.db.outbox, s.payments.db.outbox;
    PublishedSurvives(s, s');
    OutcomesSurvive(db, db, answers, answers', outcomes, s.payments.inbox);
    BackedSurvives(db, answers, answers', outcomes, outcomes);
  }

  lemma ToPaymentsKeeps(s: State, m: Message)
    requires Inv(s) && m.event in s.channel && m.event.id.source == InventoryService
    ensures Inv(s.(payments := Messaging.Receive(Payments.Accepts, Payments.Handle, s.payments, m)))
  {
    if m.event.id !in s.payments.inbox && Payments.Accepts(m) {
      var e, db, answers, outcomes := m.event, s.orders.db, s.inventory.db.outbox, s.payments.db.outbox;
      var s' := s.(payments := Messaging.Receive(Payments.Accepts, Payments.Handle, s.payments, m));
      Delivered(s, e);
      NotYetSettled(db, answers, s.inventory.inbox, outcomes, s.payments.inbox, e);
      var o := e.body.order;
      assert Heard(answers, s'.payments.inbox, ReservationOf(db, o));
      OutcomeKept(db, answers, outcomes, s.payments.inbox, e, if m.declined then FailureOf(db, o) else SuccessOf(db, o));
      if m.declined {
        FailureKeepsCharges(db, s.payments.db.payments, outcomes, o);
      } else {
        SuccessKeepsCharges(db, s.payments.db.payments, outcomes, o);
      }
      PaymentsGrewKeeps(s, s');
    }
  }

  lemma PaymentsGrewKeeps(s: State, s': State)
    requires Inv(s) && s' == s.(payments := s'.payments)
    requires s.payments.db.outbox <= s'.payments.db.outbox
    requires Numbered(s'.payments.db.outbox, PaymentService)
    requires Outcomes(s.orders.db, s.inventory.db.outbox, s'.payments.db.outbox, s'.payments.inbox)
    requires Charges(s.orders.db, s'.payments.db.payments, s'.payments.db.outbox)
    ensures Inv(s')
  {
    var db, answers, outcomes, outcomes' := s.orders.db, s.inventory.db.outbox, s.payments.db.outbox, s'.payments.db.outbox;
    PublishedSurvives(s, s');
    BackedSurvives(db, answers, answers, outcomes, outcomes');
    HoldsSurvives(db, db, answers, outcomes, outcomes', s.inventory.inbox, s.book);
  }

  lemma PollKeeps(s: State, w: Service, sent: set<nat>, marks: bool)
    requires Inv(s)
    ensures Inv(Step(s, Poll(w, sent, marks)))
  {
    assert Numbered(Outbox(s, w), w);
    PollIsPublished(s, w, sent, marks);
  }

  lemma PollIsPublished(s: State, w: Service, sent: set<nat>, marks: bool)
    requires Published(s) && Numbered(Outbox(s, w), w)
    ensures Published(Step(s, Poll(w, sent, marks)))
  {
    var s', rows := Step(s, Poll(w, sent, marks)), Outbox(s, w);
    forall e | e in s'.channel ensures InOutbox(Outbox(s', e.id.source), e) {
      if e !in s.channel {
        var n :| n in sent && n < |rows| && rows[n].id !in s.processed && rows[n] == e;
      }
    }
    forall id | id in s'.processed ensures exists e :: e in s'.channel && e.id == id {
      if id !in s.processed {
        var n :| n in sent && n < |rows| && rows[n].id !in s.processed && rows[n].id == id;
        assert rows[n] in s'.channel;
      } else {
        var e :| e in s.channel && e.id == id;
        assert e in s'.channel;
      }
    }
  }

  lemma StepKeeps(s: State, a: Action)
    requires Inv(s)
    ensures Inv(Step(s, a))
  {
    var db, answers, outcomes := s.orders.db, s.inventory.db.outbox, s.payments.db.outbox;
    match a {
      case Create(o, buyer, key, items, now) =>
        CreateKeeps(db, o, buyer, key, items, now, answers, outcomes);
        OrderStepKeeps(s, s.orders.(db := Orders.Create(db, o, buyer, key, items, now)));
      case Sweep(selected, cutoff) =>
        SweepKeeps(db, selected, cutoff, answers, outcomes);
        OrderStepKeeps(s, s.orders.(db := Orders.SweepBatch(db, selected, cutoff)));
      case ToOrders(m, commits) =>
        if commits && m.event in s.channel && m.event.id.source != OrderService { ToOrdersKeeps(s, m); }
      case ToInventory(m, commits) =>
        if commits && Handles(s, m) {
          if m.event.body.OrderCreated? { ReservationKeeps(s, m); } else { CompensationKeeps(s, m); }
        }
      case ToPayments(m, commits) =>
        if commits && m.event in s.channel && m.event.id.source == InventoryService { ToPaymentsKeeps(s, m); }
      case Poll(w, sent, marks) => PollKeeps(s, w, sent, marks);
      case Restock(_, _) => StockStepKeeps(s, Step(s, a));
      case ReserveBatch(_) => if Step(s, a) != s { StockStepKeeps(s, Step(s, a)); }
    }
  }

  /** Stock movements outside the saga leave its messages and its held lines alone. */
  lemma StockStepKeeps(s: State, s': State)
    requires Inv(s) && s'.orders == s.orders && s'.payments == s.payments
    requires s'.channel == s.channel && s'.processed == s.processed
    requires s'.inventory == s.inventory.(db := s.inventory.db.(rows := s'.inventory.db.rows))
    requires s'.inventory.db.rows == s'.book.rows && s'.book.held == s.book.held
    ensures Inv(s')
  {
    var db, answers, outcomes, inbox := s.orders.db, s.inventory.db.outbox, s.payments.db.outbox, s.inventory.inbox;
    forall o ensures HoldsRight(db, answers, outcomes, inbox, s'.book, o) {
      assert HoldsRight(db, answers, outcomes, inbox, s.book, o);
    }
    InventoryGrewKeeps(s, s');
  }

  /** A poll that commits takes row n of the outbox of w. */
  predicate Takes(s: State, a: Action, w: Service, n: nat) {
    a.Poll? && a.marks && a.worker == w && n in a.sent && n < |Outbox(s, w)|
  }

  predicate TakenByPoll(rows: Stock.Rows, actions: seq<Action>, w: Service, n: nat) {
    |actions| > 0 &&
    (TakenByPoll(rows, actions[..|actions| - 1], w, n) || Takes(Run(Initial(rows), actions[..|actions| - 1]), actions[|actions| - 1], w, n))
  }

  lemma StepMarksTaken(s: State, a: Action, w: Service, n: nat)
    requires Inv(s)
    ensures EventId(w, n) in Step(s, a).processed <==> EventId(w, n) in s.processed || Takes(s, a, w, n)
  {
    if a.Poll? {
      assert Numbered(Outbox(s, a.worker), a.worker);
      var ids := set k | k in a.sent && k < |Outbox(s, a.worker)| && Outbox(s, a.worker)[k].id !in s.processed :: Outbox(s, a.worker)[k].id;
      if Takes(s, a, w, n) && EventId(w, n) !in s.processed {
        assert Outbox(s, w)[n].id == EventId(w, n);
        assert EventId(w, n) in ids;
      }
    }
  }

  /** A row is marked as published exactly if a poll that reached its commit took it; a crash marks nothing. */
  lemma {:induction false} MarkedIffTaken(rows: Stock.Rows, actions: seq<Action>, w: Service, n: nat)
    ensures EventId(w, n) in Run(Initial(rows), actions).processed <==> TakenByPoll(rows, actions, w, n)
  {
    if |actions| > 0 {
      var before := actions[..|actions| - 1];
      MarkedIffTaken(rows, before, w, n);
      RunKeeps(rows, before);
      StepMarksTaken(Run(Initial(rows), before), actions[|actions| - 1], w, n);
    }
  }

  lemma {:induction false} RunKeeps(rows: Stock.Rows, actions: seq<Action>)
    ensures Inv(Run(Initial(rows), actions))
  {
    if |actions| > 0 {
      RunKeeps(rows, actions[..|actions| - 1]);
      StepKeeps(Run(Initial(rows), actions[..|actions| - 1]), actions[|actions| - 1]);
    }
  }
}
