/**
  The choreographed checkout saga: three services with their own tables, transactional outboxes and
  inboxes, and a channel that may deliver any published event at any time, any number of times.
*/
module Saga {
  import opened Commerce
  import Messaging
  import Stock
  import Orders
  import Inventory
  import Payments
  import Ledger

  /**
    `channel` holds every event ever published, `processed` the outbox rows marked as published.
    `book` is a history variable: the ledger of the inventory transactions committed so far.
  */
  datatype State = State(
    orders: Messaging.Node<Orders.Db>,
    inventory: Messaging.Node<Inventory.Db>,
    payments: Messaging.Node<Payments.Db>,
    channel: set<Event>,
    processed: set<EventId>,
    book: Ledger.Book)

  datatype Action =
    | Create(order: OrderId, buyer: Orders.Buyer, key: string, items: seq<Line>, now: int)
    | Sweep(selected: seq<OrderId>, cutoff: int)
    | ToOrders(message: Message, commits: bool)
    | ToInventory(message: Message, commits: bool)
    | ToPayments(message: Message, commits: bool)
    | Poll(worker: Service, sent: set<nat>, marks: bool)
    | Restock(product: ProductId, quantity: nat)
    | ReserveBatch(lines: seq<Line>)

  function Initial(rows: Stock.Rows): State {
    State(Messaging.Node(Orders.Db(map[], []), {}),
          Messaging.Node(Inventory.Db(rows, []), {}),
          Messaging.Node(Payments.Db([], []), {}),
          {}, {}, Ledger.Opening(rows))
  }

  function Outbox(s: State, source: Service): seq<Event> {
    match source
    case OrderService => s.orders.db.outbox
    case InventoryService => s.inventory.db.outbox
    case PaymentService => s.payments.db.outbox
  }

  /** What an accepted inventory event means in the ledger. */
  function EntryOf(body: Body): Ledger.Entry
    requires body.OrderCreated? || body.PaymentFailed? || body.OrderCancelled?
  {
    match body
    case OrderCreated(o, _, items) => Ledger.Reserve(o, items)
    case PaymentFailed(o, items) => Ledger.Release(o, items)
    case OrderCancelled(o, items) => Ledger.Release(o, items)
  }

  /** The delivery makes the inventory service handle the event, now and not before. */
  predicate Handles(s: State, m: Message) {
    m.event in s.channel && m.event.id.source != InventoryService &&
    m.event.id !in s.inventory.inbox && Inventory.Accepts(m)
  }

  /** One committed or aborted transaction of one service, or one poll of an outbox worker. */
  function Step(s: State, a: Action): State {
    match a
    case Create(o, buyer, key, items, now) =>
      s.(orders := s.orders.(db := Orders.Create(s.orders.db, o, buyer, key, items, now)))
    case Sweep(selected, cutoff) =>
      s.(orders := s.orders.(db := Orders.SweepBatch(s.orders.db, selected, cutoff)))
    case ToOrders(m, commits) =>
      if commits && m.event in s.channel && m.event.id.source != OrderService
      then s.(orders := Messaging.Receive(Orders.Accepts, Orders.Handle, s.orders, m)) else s
    case ToInventory(m, commits) =>
      if commits && Handles(s, m)
      then s.(inventory := Messaging.Receive(Inventory.Accepts, Inventory.Handle, s.inventory, m),
              book := Ledger.Post(s.book, EntryOf(m.event.body))) else s
    case ToPayments(m, commits) =>
      if commits && m.event in s.channel && m.event.id.source == InventoryService
      then s.(payments := Messaging.Receive(Payments.Accepts, Payments.Handle, s.payments, m)) else s
    case Poll(w, sent, marks) =>
      // sends some unprocessed committed rows; a crash before the commit leaves them unmarked
      var rows := Outbox(s, w);
      var ids := set n | n in sent && n < |rows| && rows[n].id !in s.processed :: rows[n].id;
      s.(channel := s.channel + (set n | n in sent && n < |rows| && rows[n].id !in s.processed :: rows[n]),
         processed := if marks then s.processed + ids else s.processed)
    case Restock(p, quantity) =>
      s.(inventory := s.inventory.(db := s.inventory.db.(rows := Stock.Restocked(s.inventory.db.rows, p, quantity))),
         book := Ledger.Post(s.book, Ledger.Restock(p, quantity)))
    case ReserveBatch(lines) =>
      if Stock.Fits(s.inventory.db.rows, lines)
      then s.(inventory := s.inventory.(db := s.inventory.db.(rows := Stock.Take(s.inventory.db.rows, lines))),
              book := Ledger.Post(s.book, Ledger.Batch(lines))) else s
  }

  function Run(s: State, actions: seq<Action>): State {
    if |actions| == 0 then s else Step(Run(s, actions[..|actions| - 1]), actions[|actions| - 1])
  }

  lemma {:induction false} RunConcat(s: State, a: seq<Action>, b: seq<Action>)
    ensures Run(s, a + b) == Run(Run(s, a), b)
  {
    if b == [] {
      assert a + b == a;
    } else {
      RunConcat(s, a, b[..|b| - 1]);
      assert (a + b)[..|a + b| - 1] == a + b[..|b| - 1];
    }
  }

  lemma RunOne(s: State, a: Action)
    ensures Run(s, [a]) == Step(s, a)
  {
    assert [a][..0] == [];
  }

  lemma RunNext(s: State, actions: seq<Action>)
    requires |actions| > 0
    ensures Run(s, actions) == Run(Step(s, actions[0]), actions[1..])
  {
    RunConcat(s, [actions[0]], actions[1..]);
    RunOne(s, actions[0]);
    assert actions == [actions[0]] + actions[1..];
  }
}
