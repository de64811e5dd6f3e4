/**
  Charged does not mean confirmed: a payment success that is handled while its order is still pending
  is recorded and ignored. This is exactly what keeps a charged order from being confirmed.
*/
module SagaOvertaking {
  import opened Commerce
  import opened Saga
  import opened SagaLaws
  import opened SagaOrders
  import opened SagaSafety
  import opened SagaTheorems
  import opened SagaProgress
  import Stock
  import Orders

  /** The order service handles this event now, and not before. */
  predicate HandledNow(s: State, a: Action) {
    a.ToOrders? && a.commits && a.message.event in s.channel && a.message.event.id.source != OrderService &&
    a.message.event.id !in s.orders.inbox && Orders.Accepts(a.message)
  }

  /** A payment success handled before the reservation it pays for. */
  predicate Overtakes(s: State, a: Action, o: OrderId) {
    HandledNow(s, a) && a.message.event.body.PaymentSuccess? && a.message.event.body.order == o &&
    o in s.orders.db.orders && s.orders.db.orders[o].status.Pending?
  }

  predicate Overtaken(rows: Stock.Rows, actions: seq<Action>, o: OrderId) {
    |actions| > 0 &&
    (Overtaken(rows, actions[..|actions| - 1], o) || Overtakes(Run(Initial(rows), actions[..|actions| - 1]), actions[|actions| - 1], o))
  }

  /** What a heard success has done to its order. */
  ghost predicate SuccessEffect(db: Orders.Db, outcomes: seq<Event>, inbox: set<EventId>, overtaken: bool, o: OrderId)
    requires o in db.orders
  {
    var heard, status := Heard(outcomes, inbox, SuccessOf(db, o)), db.orders[o].status;
    (overtaken ==> heard && !status.Confirmed?) && (heard && !overtaken ==> !Orders.Live(status))
  }

  /** No success of the order is heard twice. */
  lemma FirstSuccess(s: State, m: Message, o: OrderId)
    requires Inv(s) && m.event in s.channel && m.event.id !in s.orders.inbox && o in s.orders.db.orders
    requires m.event.body.PaymentSuccess? && m.event.body.order == o
    ensures m.event.body == SuccessOf(s.orders.db, o) && !Heard(s.payments.db.outbox, s.orders.inbox, SuccessOf(s.orders.db, o))
    ensures InOutbox(s.payments.db.outbox, m.event)
  {
    var outcomes := s.payments.db.outbox;
    Delivered(s, m.event);
    assert OutcomeBacked(s.orders.db, s.inventory.db.outbox, s.payments.inbox, m.event.body);
    if Heard(outcomes, s.orders.inbox, m.event.body) { HeardOnce(outcomes, s.orders.inbox, m.event); }
  }

  lemma OtherHandled(s: State, m: Message, o: OrderId)
    requires Inv(s) && m.event in s.channel && Orders.Accepts(m) && o in s.orders.db.orders
    requires m.event.body != SuccessOf(s.orders.db, o)
    ensures Heard(s.payments.db.outbox, s.orders.inbox + {m.event.id}, SuccessOf(s.orders.db, o)) ==>
            Heard(s.payments.db.outbox, s.orders.inbox, SuccessOf(s.orders.db, o))
  {
    DeliveredOutcomeOrAnswer(s, m);
    if KindOf(m.event.body) == Outcome {
      UniqueIds(s.payments.db.outbox, PaymentService);
      HeardNow(s.payments.db.outbox, s.orders.inbox, m.event, SuccessOf(s.orders.db, o));
    } else {
      HeardElsewhere(s.payments.db.outbox, PaymentService, s.orders.inbox, m.event.id, SuccessOf(s.orders.db, o));
    }
  }

  /** Only the success of an order confirms it. */
  lemma OtherEvents(db: Orders.Db, m: Message, o: OrderId)
    requires o in db.orders && !(m.event.body.PaymentSuccess? && m.event.body.order == o)
    ensures o in Orders.Handle(db, m).orders
    ensures Orders.Handle(db, m).orders[o].status.Confirmed? ==> db.orders[o].status.Confirmed?
    ensures !Orders.Live(db.orders[o].status) ==> !Orders.Live(Orders.Handle(db, m).orders[o].status)
    ensures SuccessOf(Orders.Handle(db, m), o) == SuccessOf(db, o)
  {
  }

  lemma HandlingEffect(s: State, m: Message, overtaken: bool, o: OrderId)
    requires Inv(s) && HandledNow(s, ToOrders(m, true)) && o in s.orders.db.orders
    requires SuccessEffect(s.orders.db, s.payments.db.outbox, s.orders.inbox, overtaken, o)
    ensures o in Orders.Handle(s.orders.db, m).orders
    ensures SuccessEffect(Orders.Handle(s.orders.db, m), s.payments.db.outbox, s.orders.inbox + {m.event.id},
                          overtaken || Overtakes(s, ToOrders(m, true), o), o)
  {
    var db, outcomes, inbox := s.orders.db, s.payments.db.outbox, s.orders.inbox;
    if m.event.body.PaymentSuccess? && m.event.body.order == o {
      FirstSuccess(s, m, o);
      assert outcomes[m.event.id.n] == m.event;
    } else {
      OtherEvents(db, m, o);
      OtherHandled(s, m, o);
      HeardMore(outcomes, outcomes, inbox, inbox + {m.event.id}, SuccessOf(db, o));
    }
  }

  /** A step in which the order service handles nothing confirms nothing. */
  lemma IdleStep(s: State, a: Action, o: OrderId)
    requires !HandledNow(s, a) && o in s.orders.db.orders
    ensures o in Step(s, a).orders.db.orders && Step(s, a).orders.inbox == s.orders.inbox
    ensures s.payments.db.outbox <= Step(s, a).payments.db.outbox
    ensures SuccessOf(Step(s, a).orders.db, o) == SuccessOf(s.orders.db, o)
    ensures Step(s, a).orders.db.orders[o].status in {s.orders.db.orders[o].status, Orders.Cancelled}
  {
    if a.Sweep? { Orders.SweepBatchOrders(s.orders.db, a.selected, a.cutoff); }
  }

  lemma IdleKeepsEffect(db: Orders.Db, db': Orders.Db, outcomes: seq<Event>, outcomes': seq<Event>, inbox: set<EventId>, overtaken: bool, o: OrderId)
    requires o in db.orders && o in db'.orders && SuccessOf(db', o) == SuccessOf(db, o)
    requires db'.orders[o].status in {db.orders[o].status, Orders.Cancelled}
    requires outcomes <= outcomes' && Numbered(outcomes', PaymentService) && Knows(inbox, PaymentService, outcomes)
    requires SuccessEffect(db, outcomes, inbox, overtaken, o)
    ensures SuccessEffect(db', outcomes', inbox, overtaken, o)
  {
    HeardMore(outcomes, outcomes', inbox, inbox, SuccessOf(db, o));
    HeardBefore(outcomes, outcomes', PaymentService, inbox, SuccessOf(db, o));
  }

  lemma IdleEffect(s: State, a: Action, overtaken: bool, o: OrderId)
    requires Inv(Step(s, a)) && Progress(s) && !HandledNow(s, a) && o in s.orders.db.orders
    requires SuccessEffect(s.orders.db, s.payments.db.outbox, s.orders.inbox, overtaken, o)
    ensures o in Step(s, a).orders.db.orders && Step(s, a).orders.inbox == s.orders.inbox
    ensures SuccessEffect(Step(s, a).orders.db, Step(s, a).payments.db.outbox, s.orders.inbox, overtaken, o)
  {
    IdleStep(s, a, o);
    IdleKeepsEffect(s.orders.db, Step(s, a).orders.db, s.payments.db.outbox, Step(s, a).payments.db.outbox, s.orders.inbox, overtaken, o);
  }

  /** Nothing was heard of an order before it existed. */
  lemma NewOrderEffect(s: State, a: Action, o: OrderId)
    requires Inv(s) && o !in s.orders.db.orders && o in Step(s, a).orders.db.orders
    ensures SuccessEffect(Step(s, a).orders.db, Step(s, a).payments.db.outbox, Step(s, a).orders.inbox, false, o)
  {
    StepClimbs(s, a, o);
    if a.Sweep? { Orders.SweepBatchOrders(s.orders.db, a.selected, a.cutoff); }
    NotSpokenOf(s.orders.db, s.inventory.db.outbox, s.inventory.inbox, s.payments.db.outbox, s.payments.inbox, o);
  }

  lemma {:induction false} NeverOvertakenUnborn(rows: Stock.Rows, actions: seq<Action>, o: OrderId)
    requires Overtaken(rows, actions, o)
    ensures o in Run(Initial(rows), actions).orders.db.orders
  {
    var before, a := actions[..|actions| - 1], actions[|actions| - 1];
    if Overtaken(rows, before, o) { NeverOvertakenUnborn(rows, before, o); }
    StepClimbs(Run(Initial(rows), before), a, o);
  }

  lemma {:induction false} SuccessesActOrAreOvertaken(rows: Stock.Rows, actions: seq<Action>, o: OrderId)
    requires o in Run(Initial(rows), actions).orders.db.orders
    ensures var s := Run(Initial(rows), actions);
            SuccessEffect(s.orders.db, s.payments.db.outbox, s.orders.inbox, Overtaken(rows, actions, o), o)
  {
    if |actions| > 0 {
      var before, a := actions[..|actions| - 1], actions[|actions| - 1];
      var s := Run(Initial(rows), before);
      RunKeeps(rows, before);
      RunProgresses(rows, before);
      if o !in s.orders.db.orders {
        if Overtaken(rows, before, o) { NeverOvertakenUnborn(rows, before, o); }
        NewOrderEffect(s, a, o);
      } else {
        SuccessesActOrAreOvertaken(rows, before, o);
        if HandledNow(s, a) {
          HandlingEffect(s, a.message, Overtaken(rows, before, o), o);
        } else {
          StepKeeps(s, a);
          IdleEffect(s, a, Overtaken(rows, before, o), o);
        }
      }
    }
  }

  // ---------- what cancels a charged order ----------

  /** The sweep finds the order stale and cancels it. */
  predicate Sweeps(s: State, a: Action, o: OrderId) {
    a.Sweep? && o in a.selected && o in s.orders.db.orders && Orders.Stale(s.orders.db.orders[o], a.cutoff)
  }

  predicate SweptOut(rows: Stock.Rows, actions: seq<Action>, o: OrderId) {
    |actions| > 0 &&
    (SweptOut(rows, actions[..|actions| - 1], o) || Sweeps(Run(Initial(rows), actions[..|actions| - 1]), actions[|actions| - 1], o))
  }

  /** A cancelled order was swept or declined. */
  ghost predicate CancelCause(db: Orders.Db, outcomes: seq<Event>, swept: bool, o: OrderId) {
    (swept ==> o in db.orders && db.orders[o].status.Cancelled?) &&
    (o in db.orders && db.orders[o].status.Cancelled? ==> swept || Says(outcomes, FailureOf(db, o)))
  }

  lemma FailureIsSaid(s: State, m: Message)
    requires Inv(s) && m.event in s.channel && m.event.body.PaymentFailed?
    ensures m.event.body.order in s.orders.db.orders
    ensures Says(s.payments.db.outbox, FailureOf(s.orders.db, m.event.body.order))
  {
    Delivered(s, m.event);
    assert OutcomeBacked(s.orders.db, s.inventory.db.outbox, s.payments.inbox, m.event.body);
  }

  /** Only a sweep or a declined card newly cancels an order. */
  lemma NewlyCancelled(s: State, a: Action, o: OrderId)
    requires o in Step(s, a).orders.db.orders && Step(s, a).orders.db.orders[o].status.Cancelled?
    ensures o in s.orders.db.orders
    ensures s.orders.db.orders[o].status.Cancelled? || Sweeps(s, a, o) ||
            (HandledNow(s, a) && a.message.event.body.PaymentFailed? && a.message.event.body.order == o)
  {
    if a.Sweep? { Orders.SweepBatchOrders(s.orders.db, a.selected, a.cutoff); }
  }

  lemma CauseStep(s: State, a: Action, swept: bool, o: OrderId)
    requires Inv(s) && CancelCause(s.orders.db, s.payments.db.outbox, swept, o)
    ensures CancelCause(Step(s, a).orders.db, Step(s, a).payments.db.outbox, swept || Sweeps(s, a, o), o)
  {
    var s' := Step(s, a);
    StepClimbs(s, a, o);
    if a.Sweep? { Orders.SweepBatchOrders(s.orders.db, a.selected, a.cutoff); }
    if o in s'.orders.db.orders && s'.orders.db.orders[o].status.Cancelled? && !swept && !Sweeps(s, a, o) {
      NewlyCancelled(s, a, o);
      if !s.orders.db.orders[o].status.Cancelled? { FailureIsSaid(s, a.message); }
      ItemsStay(s, a, o);
      SaysMore(s.payments.db.outbox, s'.payments.db.outbox, FailureOf(s.orders.db, o));
    }
  }

  lemma ItemsStay(s: State, a: Action, o: OrderId)
    requires o in s.orders.db.orders
    ensures o in Step(s, a).orders.db.orders && FailureOf(Step(s, a).orders.db, o) == FailureOf(s.orders.db, o)
    ensures s.payments.db.outbox <= Step(s, a).payments.db.outbox
  {
    if a.Sweep? { Orders.SweepBatchOrders(s.orders.db, a.selected, a.cutoff); }
  }

  lemma {:induction false} CancelledHasCause(rows: Stock.Rows, actions: seq<Action>, o: OrderId)
    ensures var s := Run(Initial(rows), actions);
            CancelCause(s.orders.db, s.payments.db.outbox, SweptOut(rows, actions, o), o)
  {
    if |actions| > 0 {
      var before := actions[..|actions| - 1];
      CancelledHasCause(rows, before, o);
      RunKeeps(rows, before);
      CauseStep(Run(Initial(rows), before), actions[|actions| - 1], SweptOut(rows, before, o), o);
    }
  }

  /**
    When everything sent has arrived, a charged order is CANCELLED if a sweep found it stale, otherwise
    still STOCK_RESERVED if its payment was handled before its reservation, and otherwise CONFIRMED.
  */
  lemma ConfirmedUnlessOvertaken(rows: Stock.Rows, actions: seq<Action>, o: OrderId)
    requires Quiet(Run(Initial(rows), actions)) && Charged(Run(Initial(rows), actions).payments.db.payments, o)
    ensures o in Run(Initial(rows), actions).orders.db.orders
    ensures Run(Initial(rows), actions).orders.db.orders[o].status ==
            if SweptOut(rows, actions, o) then Orders.Cancelled
            else if Overtaken(rows, actions, o) then Orders.StockReserved else Orders.Confirmed
  {
    var s := Run(Initial(rows), actions);
    RunKeeps(rows, actions);
    ChargedWasReserved(s, o);
    ChargedSucceeded(s, o);
    QuietMeansHeard(s, PaymentService, s.orders.inbox, SuccessOf(s.orders.db, o));
    SuccessesActOrAreOvertaken(rows, actions, o);
    QuietShopIsSettled(rows, actions, o);
    CancelledHasCause(rows, actions, o);
    if s.orders.db.orders[o].status.CancelledNoStock? { NoStockIsNotCharged(s, o); }
    if Says(s.payments.db.outbox, FailureOf(s.orders.db, o)) {
      SaysOnce(s.payments.db.outbox, FailureOf(s.orders.db, o), SuccessOf(s.orders.db, o));
    }
  }

  lemma ChargedSucceeded(s: State, o: OrderId)
    requires Inv(s) && Charged(s.payments.db.payments, o)
    ensures o in s.orders.db.orders && Says(s.payments.db.outbox, SuccessOf(s.orders.db, o))
  {
    var a :| 0 <= a < |s.payments.db.payments| && s.payments.db.payments[a].order == o;
  }
}
