/** Every transaction of the order service keeps the laws of its own tables. */
module SagaOrders {
  import opened Commerce
  import opened Saga
  import opened SagaLaws
  import Orders

  /** The order service only ever adds orders and events, and only ever changes a status. */
  ghost predicate Grows(db: Orders.Db, db': Orders.Db) {
    db.orders.Keys <= db'.orders.Keys && db.outbox <= db'.outbox &&
    forall o :: o in db.orders ==> db'.orders[o].(status := db.orders[o].status) == db.orders[o]
  }

  lemma GrowsTransitive(a: Orders.Db, b: Orders.Db, c: Orders.Db)
    requires Grows(a, b) && Grows(b, c)
    ensures Grows(a, c)
  {
    assert forall o :: o in a.orders ==> c.orders[o].(status := b.orders[o].status) == b.orders[o];
  }

  lemma CancelKeepsCreations(db: Orders.Db, o: OrderId)
    requires Numbered(db.outbox, OrderService) && Creations(db)
    ensures Creations(Orders.Cancel(db, o))
  {
    var db' := Orders.Cancel(db, o);
    if db' != db {
      WriteKeeps(db.outbox, OrderService, CancellationOf(db, o), Creation);
      forall q | q in db'.orders ensures Says(db'.outbox, CreationOf(db', q)) {
        SaysMore(db.outbox, db'.outbox, CreationOf(db, q));
      }
    }
  }

  lemma CancelKeepsCancellations(db: Orders.Db, o: OrderId)
    requires Numbered(db.outbox, OrderService) && Cancellations(db)
    ensures Cancellations(Orders.Cancel(db, o)) && Numbered(Orders.Cancel(db, o).outbox, OrderService)
  {
    var db' := Orders.Cancel(db, o);
    if db' != db {
      WriteKeeps(db.outbox, OrderService, CancellationOf(db, o), Cancellation);
      SaysAtEnd(db.outbox, OrderService, CancellationOf(db, o));
      forall q | q in db'.orders && db'.orders[q].status.Cancelled? ensures Says(db'.outbox, CancellationOf(db', q)) {
        if q != o { SaysMore(db.outbox, db'.outbox, CancellationOf(db, q)); }
      }
    }
  }

  lemma CancelKeepsBacked(db: Orders.Db, o: OrderId, answers: seq<Event>, outcomes: seq<Event>)
    requires Backed(db, answers, outcomes)
    ensures Backed(Orders.Cancel(db, o), answers, outcomes)
  {
    var db' := Orders.Cancel(db, o);
    forall q | q in db'.orders ensures StatusBacked(db', answers, outcomes, q) {
      assert StatusBacked(db, answers, outcomes, q);
    }
  }

  lemma CancelKeepsOrdered(db: Orders.Db, o: OrderId)
    requires Ordered(db)
    ensures Ordered(Orders.Cancel(db, o)) && Grows(db, Orders.Cancel(db, o))
  {
  }

  lemma CancelKeeps(db: Orders.Db, o: OrderId, answers: seq<Event>, outcomes: seq<Event>)
    requires OrderLaws(db, answers, outcomes)
    ensures OrderLaws(Orders.Cancel(db, o), answers, outcomes) && Grows(db, Orders.Cancel(db, o))
  {
    CancelKeepsCreations(db, o);
    CancelKeepsCancellations(db, o);
    CancelKeepsBacked(db, o, answers, outcomes);
    CancelKeepsOrdered(db, o);
  }

  lemma {:induction false} SweepKeeps(db: Orders.Db, selected: seq<OrderId>, cutoff: int, answers: seq<Event>, outcomes: seq<Event>)
    requires OrderLaws(db, answers, outcomes)
    ensures OrderLaws(Orders.SweepBatch(db, selected, cutoff), answers, outcomes)
    ensures Grows(db, Orders.SweepBatch(db, selected, cutoff))
  {
    if |selected| > 0 {
      var n := |selected| - 1;
      var before := Orders.SweepBatch(db, selected[..n], cutoff);
      SweepKeeps(db, selected[..n], cutoff, answers, outcomes);
      CancelKeeps(before, selected[n], answers, outcomes);
      GrowsTransitive(db, before, Orders.SweepBatch(db, selected, cutoff));
    }
  }

  lemma CreateKeepsCreations(db: Orders.Db, o: OrderId, buyer: Orders.Buyer, key: string, items: seq<Line>, now: int)
    requires Numbered(db.outbox, OrderService) && Creations(db)
    ensures Creations(Orders.Create(db, o, buyer, key, items, now)) && Numbered(Orders.Create(db, o, buyer, key, items, now).outbox, OrderService)
  {
    var db' := Orders.Create(db, o, buyer, key, items, now);
    if db' != db {
      WriteKeeps(db.outbox, OrderService, CreationOf(db', o), Creation);
      SaysAtEnd(db.outbox, OrderService, CreationOf(db', o));
      forall q | q in db'.orders ensures Says(db'.outbox, CreationOf(db', q)) {
        if q != o { SaysMore(db.outbox, db'.outbox, CreationOf(db, q)); }
      }
    }
  }

  lemma CreateKeepsCancellations(db: Orders.Db, o: OrderId, buyer: Orders.Buyer, key: string, items: seq<Line>, now: int)
    requires Numbered(db.outbox, OrderService) && Cancellations(db)
    ensures Cancellations(Orders.Create(db, o, buyer, key, items, now))
  {
    var db' := Orders.Create(db, o, buyer, key, items, now);
    if db' != db {
      WriteKeeps(db.outbox, OrderService, CreationOf(db', o), Cancellation);
      forall q | q in db'.orders && db'.orders[q].status.Cancelled? ensures Says(db'.outbox, CancellationOf(db', q)) {
        SaysMore(db.outbox, db'.outbox, CancellationOf(db, q));
      }
    }
  }

  lemma CreateKeepsBacked(db: Orders.Db, o: OrderId, buyer: Orders.Buyer, key: string, items: seq<Line>, now: int, answers: seq<Event>, outcomes: seq<Event>)
    requires Backed(db, answers, outcomes)
    ensures Backed(Orders.Create(db, o, buyer, key, items, now), answers, outcomes)
  {
    var db' := Orders.Create(db, o, buyer, key, items, now);
    forall q | q in db'.orders ensures StatusBacked(db', answers, outcomes, q) {
      assert q in db.orders ==> StatusBacked(db, answers, outcomes, q);
    }
  }

  lemma CreateKeepsOrdered(db: Orders.Db, o: OrderId, buyer: Orders.Buyer, key: string, items: seq<Line>, now: int)
    requires Ordered(db)
    ensures Ordered(Orders.Create(db, o, buyer, key, items, now)) && Grows(db, Orders.Create(db, o, buyer, key, items, now))
  {
  }

  lemma CreateKeeps(db: Orders.Db, o: OrderId, buyer: Orders.Buyer, key: string, items: seq<Line>, now: int, answers: seq<Event>, outcomes: seq<Event>)
    requires OrderLaws(db, answers, outcomes)
    ensures OrderLaws(Orders.Create(db, o, buyer, key, items, now), answers, outcomes)
    ensures Grows(db, Orders.Create(db, o, buyer, key, items, now))
  {
    CreateKeepsCreations(db, o, buyer, key, items, now);
    CreateKeepsCancellations(db, o, buyer, key, items, now);
    CreateKeepsBacked(db, o, buyer, key, items, now, answers, outcomes);
    CreateKeepsOrdered(db, o, buyer, key, items, now);
  }

  lemma StatusKeepsCreations(db: Orders.Db, o: OrderId, status: Orders.Status)
    requires Creations(db) && o in db.orders
    ensures Creations(Orders.SetStatus(db, o, status))
  {
    var db' := Orders.SetStatus(db, o, status);
    forall q | q in db'.orders ensures CreationOf(db', q) == CreationOf(db, q) { }
  }

  lemma StatusKeepsCancellations(db: Orders.Db, o: OrderId, status: Orders.Status)
    requires Cancellations(db) && o in db.orders && !db.orders[o].status.Cancelled? && !status.Cancelled?
    ensures Cancellations(Orders.SetStatus(db, o, status))
  {
    var db' := Orders.SetStatus(db, o, status);
    forall q | q in db'.orders ensures CancellationOf(db', q) == CancellationOf(db, q) { }
  }

  lemma StatusKeeps(db: Orders.Db, o: OrderId, status: Orders.Status, answers: seq<Event>, outcomes: seq<Event>)
    requires OrderLaws(db, answers, outcomes) && o in db.orders
    requires !db.orders[o].status.Cancelled? && !status.Cancelled?
    requires StatusBacked(Orders.SetStatus(db, o, status), answers, outcomes, o)
    ensures OrderLaws(Orders.SetStatus(db, o, status), answers, outcomes) && Grows(db, Orders.SetStatus(db, o, status))
  {
    StatusKeepsCreations(db, o, status);
    StatusKeepsCancellations(db, o, status);
    StatusKeepsBacked(db, o, status, answers, outcomes);
  }

  lemma StatusKeepsBacked(db: Orders.Db, o: OrderId, status: Orders.Status, answers: seq<Event>, outcomes: seq<Event>)
    requires Backed(db, answers, outcomes) && o in db.orders
    requires StatusBacked(Orders.SetStatus(db, o, status), answers, outcomes, o)
    ensures Backed(Orders.SetStatus(db, o, status), answers, outcomes) && Grows(db, Orders.SetStatus(db, o, status))
  {
    var db' := Orders.SetStatus(db, o, status);
    forall q | q in db'.orders ensures StatusBacked(db', answers, outcomes, q) {
      assert StatusBacked(db, answers, outcomes, q);
    }
  }

  /** A delivered event is what its author's outbox says. */
  lemma Delivered(s: State, e: Event)
    requires Inv(s) && e in s.channel
    ensures Says(Outbox(s, e.id.source), e.body) && Author(KindOf(e.body)) == e.id.source
    ensures InOutbox(Outbox(s, e.id.source), e)
  {
  }

  lemma HandleKeeps(db: Orders.Db, m: Message, answers: seq<Event>, inventoryInbox: set<EventId>, outcomes: seq<Event>, paymentInbox: set<EventId>)
    requires OrderLaws(db, answers, outcomes)
    requires Answers(db, answers, inventoryInbox) && Outcomes(db, answers, outcomes, paymentInbox)
    requires KindOf(m.event.body) == Answer ==> Says(answers, m.event.body)
    requires KindOf(m.event.body) == Outcome ==> Says(outcomes, m.event.body)
    ensures OrderLaws(Orders.Handle(db, m), answers, outcomes) && Grows(db, Orders.Handle(db, m))
  {
    var o := m.event.body.order;
    match m.event.body {
      case InventoryReserved(_, _) =>
        if o in db.orders && db.orders[o].status.Pending? {
          assert AnswerBacked(db, inventoryInbox, m.event.body);
          StatusKeeps(db, o, Orders.StockReserved, answers, outcomes);
        }
      case InventoryReserveFailed(_) =>
        if o in db.orders && Orders.Live(db.orders[o].status) {
          StatusKeeps(db, o, Orders.CancelledNoStock, answers, outcomes);
        }
      case PaymentSuccess(_, _) =>
        if o in db.orders && db.orders[o].status.StockReserved? {
          assert OutcomeBacked(db, answers, paymentInbox, m.event.body);
          assert StatusBacked(db, answers, outcomes, o);
          StatusKeeps(db, o, Orders.Confirmed, answers, outcomes);
        }
      case PaymentFailed(_, _) => CancelKeeps(db, o, answers, outcomes);
      case _ =>
    }
  }
}
