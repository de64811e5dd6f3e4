/** The laws that every reachable state of the saga obeys, service by service and boundary by boundary. */
module SagaLaws {
  import opened Commerce
  import opened Saga
  import Orders
  import Payments
  import Ledger

  /** The kinds of event of which an order has at most one. */
  datatype Kind = Creation | Cancellation | Answer | Outcome | Release

  function KindOf(body: Body): Kind {
    match body
    case OrderCreated(_, _, _) => Creation
    case OrderCancelled(_, _) => Cancellation
    case InventoryReserved(_, _) => Answer
    case InventoryReserveFailed(_) => Answer
    case InventoryReleased(_) => Release
    case PaymentSuccess(_, _) => Outcome
    case PaymentFailed(_, _) => Outcome
  }

  /** The only service that writes this kind of event. */
  function Author(kind: Kind): Service {
    match kind
    case Creation => OrderService
    case Cancellation => OrderService
    case Answer => InventoryService
    case Release => InventoryService
    case Outcome => PaymentService
  }

  // ---------- what is said in an outbox, and heard by an inbox ----------

  ghost predicate Says(outbox: seq<Event>, body: Body) {
    exists i :: 0 <= i < |outbox| && outbox[i].body == body
  }

  ghost predicate Heard(outbox: seq<Event>, inbox: set<EventId>, body: Body) {
    exists i :: 0 <= i < |outbox| && outbox[i].body == body && outbox[i].id in inbox
  }

  ghost predicate Silent(outbox: seq<Event>, kind: Kind, o: OrderId) {
    forall i :: 0 <= i < |outbox| && KindOf(outbox[i].body) == kind ==> outbox[i].body.order != o
  }

  ghost predicate Unique(outbox: seq<Event>, kind: Kind) {
    forall i, j :: 0 <= i < j < |outbox| && KindOf(outbox[i].body) == kind && KindOf(outbox[j].body) == kind ==>
      outbox[i].body.order != outbox[j].body.order
  }

  ghost predicate Numbered(outbox: seq<Event>, source: Service) {
    forall i :: 0 <= i < |outbox| ==> outbox[i].id == EventId(source, i) && Author(KindOf(outbox[i].body)) == source
  }

  lemma SaysMore(outbox: seq<Event>, outbox': seq<Event>, body: Body)
    requires outbox <= outbox' && Says(outbox, body)
    ensures Says(outbox', body)
  {
    var i :| 0 <= i < |outbox| && outbox[i].body == body;
    assert outbox'[i] == outbox[i];
  }

  lemma HeardMore(outbox: seq<Event>, outbox': seq<Event>, inbox: set<EventId>, inbox': set<EventId>, body: Body)
    requires outbox <= outbox' && inbox <= inbox'
    ensures Heard(outbox, inbox, body) ==> Heard(outbox', inbox', body)
  {
    if Heard(outbox, inbox, body) {
      var i :| 0 <= i < |outbox| && outbox[i].body == body && outbox[i].id in inbox;
      assert outbox'[i] == outbox[i];
    }
  }

  lemma SaysAtEnd(outbox: seq<Event>, source: Service, body: Body)
    ensures Says(Write(outbox, source, body), body)
  {
    assert Write(outbox, source, body)[|outbox|].body == body;
  }

  /** Writing an event keeps the numbering, and keeps events unique if it is the first of its kind. */
  lemma WriteKeeps(outbox: seq<Event>, source: Service, body: Body, kind: Kind)
    requires Numbered(outbox, source) && Author(KindOf(body)) == source && Unique(outbox, kind)
    requires KindOf(body) == kind ==> Silent(outbox, kind, body.order)
    ensures Numbered(Write(outbox, source, body), source) && Unique(Write(outbox, source, body), kind)
  {
  }

  /** Two places that say something of one kind about one order are the same place. */
  lemma SamePlace(outbox: seq<Event>, kind: Kind, i: nat, j: nat)
    requires Unique(outbox, kind) && i < |outbox| && j < |outbox|
    requires KindOf(outbox[i].body) == kind == KindOf(outbox[j].body) && outbox[i].body.order == outbox[j].body.order
    ensures i == j
  {
  }

  /** What the outbox says of a kind about an order is all it says of that kind about that order. */
  lemma SaysOnce(outbox: seq<Event>, a: Body, b: Body)
    requires Unique(outbox, KindOf(a)) && Says(outbox, a) && Says(outbox, b)
    requires KindOf(a) == KindOf(b) && a.order == b.order
    ensures a == b
  {
    var i :| 0 <= i < |outbox| && outbox[i].body == a;
    var j :| 0 <= j < |outbox| && outbox[j].body == b;
    SamePlace(outbox, KindOf(a), i, j);
  }

  // ---------- plumbing ----------

  ghost predicate InOutbox(outbox: seq<Event>, e: Event) {
    e.id.n < |outbox| && outbox[e.id.n] == e
  }

  /** If an event's body was heard, and is said only once of its order, then it is that event. */
  lemma HeardOnce(outbox: seq<Event>, inbox: set<EventId>, e: Event)
    requires Unique(outbox, KindOf(e.body)) && InOutbox(outbox, e) && Heard(outbox, inbox, e.body)
    ensures e.id in inbox
  {
    var j: nat :| j < |outbox| && outbox[j].body == e.body && outbox[j].id in inbox;
    SamePlace(outbox, KindOf(e.body), e.id.n, j);
  }

  /** Only committed outbox rows are ever published, and only published rows are marked. */
  ghost predicate Published(s: State) {
    (forall e :: e in s.channel ==> InOutbox(Outbox(s, e.id.source), e)) &&
    (forall id :: id in s.processed ==> exists e :: e in s.channel && e.id == id)
  }


  // ---------- the order service ----------

  /** Totals are totals, and an idempotency key stands for one order. */
  ghost predicate Ordered(db: Orders.Db) {
    (forall o :: o in db.orders ==> db.orders[o].total == Total(db.orders[o].items)) &&
    (forall o, q :: o in db.orders && q in db.orders && db.orders[o].key == db.orders[q].key ==> o == q)
  }

  function CreationOf(db: Orders.Db, o: OrderId): Body
    requires o in db.orders
  {
    OrderCreated(o, db.orders[o].total, db.orders[o].items)
  }

  function ReservationOf(db: Orders.Db, o: OrderId): Body
    requires o in db.orders
  {
    InventoryReserved(o, db.orders[o].items)
  }

  function SuccessOf(db: Orders.Db, o: OrderId): Body
    requires o in db.orders
  {
    PaymentSuccess(o, db.orders[o].items)
  }

  function FailureOf(db: Orders.Db, o: OrderId): Body
    requires o in db.orders
  {
    PaymentFailed(o, db.orders[o].items)
  }

  function CancellationOf(db: Orders.Db, o: OrderId): Body
    requires o in db.orders
  {
    OrderCancelled(o, Unpriced(db.orders[o].items))
  }

  /** Every order has its own one creation event, and there are no others. */
  ghost predicate Creations(db: Orders.Db) {
    Unique(db.outbox, Creation) &&
    (forall o :: o in db.orders ==> Says(db.outbox, CreationOf(db, o))) &&
    (forall i :: 0 <= i < |db.outbox| && db.outbox[i].body.OrderCreated? ==>
       db.outbox[i].body.order in db.orders && db.outbox[i].body == CreationOf(db, db.outbox[i].body.order))
  }

  /** Exactly one cancellation event for a cancelled order, none for any other. */
  ghost predicate Cancellations(db: Orders.Db) {
    Unique(db.outbox, Cancellation) &&
    (forall o :: o in db.orders && db.orders[o].status.Cancelled? ==> Says(db.outbox, CancellationOf(db, o))) &&
    (forall i :: 0 <= i < |db.outbox| && db.outbox[i].body.OrderCancelled? ==>
       var o := db.outbox[i].body.order;
       o in db.orders && db.orders[o].status.Cancelled? && db.outbox[i].body == CancellationOf(db, o))
  }

  // ---------- across the services ----------

  /** The inventory service answers each creation it has handled, once and with the order's items. */
  ghost predicate AnswerBacked(db: Orders.Db, inbox: set<EventId>, body: Body) {
    body.order in db.orders &&
    (body.InventoryReserved? ==> body == ReservationOf(db, body.order)) &&
    Heard(db.outbox, inbox, CreationOf(db, body.order))
  }

  ghost predicate Answers(db: Orders.Db, outbox: seq<Event>, inbox: set<EventId>) {
    Unique(outbox, Answer) &&
    forall i :: 0 <= i < |outbox| && KindOf(outbox[i].body) == Answer ==> AnswerBacked(db, inbox, outbox[i].body)
  }

  /** The payment service settles each reservation it has handled, once, with the order's items. */
  ghost predicate OutcomeBacked(db: Orders.Db, answers: seq<Event>, inbox: set<EventId>, body: Body) {
    body.order in db.orders && (body == SuccessOf(db, body.order) || body == FailureOf(db, body.order)) &&
    Heard(answers, inbox, ReservationOf(db, body.order))
  }

  ghost predicate Outcomes(db: Orders.Db, answers: seq<Event>, outbox: seq<Event>, inbox: set<EventId>) {
    Unique(outbox, Outcome) &&
    forall i :: 0 <= i < |outbox| && KindOf(outbox[i].body) == Outcome ==>
      OutcomeBacked(db, answers, inbox, outbox[i].body)
  }

  ghost predicate Charged(payments: seq<Payments.Payment>, o: OrderId) {
    exists a :: 0 <= a < |payments| && payments[a].order == o
  }

  /** A payment stands for exactly one success event, for the order's total; an order has at most one. */
  ghost predicate Charges(db: Orders.Db, payments: seq<Payments.Payment>, outbox: seq<Event>) {
    (forall a :: 0 <= a < |payments| ==>
       payments[a].order in db.orders && payments[a].amount == db.orders[payments[a].order].total &&
       Says(outbox, SuccessOf(db, payments[a].order))) &&
    (forall a, b :: 0 <= a < b < |payments| ==> payments[a].order != payments[b].order) &&
    (forall i :: 0 <= i < |outbox| && outbox[i].body.PaymentSuccess? ==> Charged(payments, outbox[i].body.order))
  }

  /** A status is backed by the event that led to it. */
  ghost predicate StatusBacked(db: Orders.Db, answers: seq<Event>, outcomes: seq<Event>, o: OrderId)
    requires o in db.orders
  {
    match db.orders[o].status
    case Pending => true
    case StockReserved => Says(answers, ReservationOf(db, o))
    case Confirmed => Says(answers, ReservationOf(db, o)) && Says(outcomes, SuccessOf(db, o))
    case Cancelled => true
    case CancelledNoStock => Says(answers, InventoryReserveFailed(o))
  }

  ghost predicate Backed(db: Orders.Db, answers: seq<Event>, outcomes: seq<Event>) {
    forall o :: o in db.orders ==> StatusBacked(db, answers, outcomes, o)
  }

  /** The inventory service has handled a compensation event of the order. */
  ghost predicate Released(db: Orders.Db, outcomes: seq<Event>, inbox: set<EventId>, o: OrderId)
    requires o in db.orders
  {
    Heard(outcomes, inbox, FailureOf(db, o)) || Heard(db.outbox, inbox, CancellationOf(db, o))
  }

  /** An order holds its items or nothing; a reserved order holds them until it is released. */
  ghost predicate HoldsRight(db: Orders.Db, answers: seq<Event>, outcomes: seq<Event>, inbox: set<EventId>, book: Ledger.Book, o: OrderId) {
    var held := Ledger.HeldFor(book.held, o);
    (held != [] ==> o in db.orders && held == db.orders[o].items && Says(answers, ReservationOf(db, o))) &&
    (o in db.orders && Says(answers, ReservationOf(db, o)) && !Released(db, outcomes, inbox, o) ==>
       held == db.orders[o].items)
  }

  ghost predicate Holds(db: Orders.Db, answers: seq<Event>, outcomes: seq<Event>, inbox: set<EventId>, book: Ledger.Book) {
    forall o :: HoldsRight(db, answers, outcomes, inbox, book, o)
  }

  /** The laws of the order service's tables; the two outboxes are the other services'. */
  ghost predicate OrderLaws(db: Orders.Db, answers: seq<Event>, outcomes: seq<Event>) {
    Numbered(db.outbox, OrderService) && Ordered(db) && Creations(db) && Cancellations(db) && Backed(db, answers, outcomes)
  }

  /** The invariant of the whole system. */
  ghost predicate Inv(s: State) {
    var db, answers, outcomes := s.orders.db, s.inventory.db.outbox, s.payments.db.outbox;
    Published(s) && OrderLaws(db, answers, outcomes) &&
    Numbered(answers, InventoryService) && Answers(db, answers, s.inventory.inbox) &&
    Numbered(outcomes, PaymentService) && Outcomes(db, answers, outcomes, s.payments.inbox) &&
    Charges(db, s.payments.db.payments, outcomes) &&
    s.inventory.db.rows == s.book.rows && Holds(db, answers, outcomes, s.inventory.inbox, s.book)
  }
}
