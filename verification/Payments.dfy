/** The payment service in its simulated mode: one charge attempt per reserved order. */
module Payments {
  import opened Commerce
  import Messaging

  /** A completed charge, in cents. */
  datatype Payment = Payment(order: OrderId, amount: nat)

  datatype Db = Db(payments: seq<Payment>, outbox: seq<Event>)

  predicate Accepts(m: Message) { m.event.body.InventoryReserved? }

  function Handle(db: Db, m: Message): Db {
    match m.event.body
    case InventoryReserved(o, items) =>
      if m.declined
      then db.(outbox := Write(db.outbox, PaymentService, PaymentFailed(o, items)))
      else Db(db.payments + [Payment(o, Total(items))], Write(db.outbox, PaymentService, PaymentSuccess(o, items)))
    case _ => db
  }

  class Service {
    var payments: seq<Payment>
    var outbox: seq<Event>
    var inbox: set<EventId>

    ghost function Node(): Messaging.Node<Db>
      reads this
    {
      Messaging.Node(Db(payments, outbox), inbox)
    }

    constructor ()
      ensures Node() == Messaging.Node(Db([], []), {})
    {
      payments, outbox, inbox := [], [], {};
    }

    /** One delivery whose transaction commits. */
    method ProcessEvent(m: Message)
      modifies this
      ensures Node() == Messaging.Receive(Accepts, Handle, old(Node()), m)
    {
      if m.event.id in inbox || !m.event.body.InventoryReserved? {
        return;
      }
      TotalIsPerUnit(m.event.body.items);
      ProcessPayment(m.event.body.order, m.event.body.items, m.declined);
      inbox := inbox + {m.event.id};
    }

    method ProcessPayment(o: OrderId, items: seq<Line>, declined: bool)
      modifies this`payments, this`outbox
      ensures declined ==> payments == old(payments) &&
                           outbox == Write(old(outbox), PaymentService, PaymentFailed(o, items))
      ensures !declined ==> payments == old(payments) + [Payment(o, Sum(UnitPrices(items)))] &&
                            outbox == Write(old(outbox), PaymentService, PaymentSuccess(o, items))
    {
      var amount, i := 0, 0;
      while i < |items|
        invariant i <= |items| && amount == Total(items[..i])
      {
        assert items[..i + 1][..i] == items[..i];
        amount := amount + items[i].quantity * items[i].unitPrice;
        i := i + 1;
      }
      assert items[..i] == items;
      TotalIsPerUnit(items);
      if declined {
        outbox := Write(outbox, PaymentService, PaymentFailed(o, items));
      } else {
        payments := payments + [Payment(o, amount)];
        outbox := Write(outbox, PaymentService, PaymentSuccess(o, items));
      }
    }
  }
}
