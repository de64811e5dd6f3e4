/**
  Exactly-once effect end to end: outbox, at-least-once worker, reordering channel and inbox together
  leave each service as if every distinct event had been handled once.
*/
module SagaExactlyOnce {
  import opened Commerce
  import opened Saga
  import opened SagaLaws
  import opened SagaSafety
  import M = Messaging
  import Stock
  import Orders
  import Inventory
  import Payments

  /** What an action feeds into the order service. Deliveries of unpublished events do not happen. */
  function OrderInput(s: State, a: Action): Option<M.Input<Orders.Db>> {
    match a
    case Create(o, buyer, key, items, now) => Some(M.Local((db: Orders.Db) => Orders.Create(db, o, buyer, key, items, now)))
    case Sweep(selected, cutoff) => Some(M.Local((db: Orders.Db) => Orders.SweepBatch(db, selected, cutoff)))
    case ToOrders(m, commits) =>
      if m.event in s.channel && m.event.id.source != OrderService then Some(M.Delivery(m, commits)) else None
    case _ => None
  }

  function InventoryInput(s: State, a: Action): Option<M.Input<Inventory.Db>> {
    match a
    case ToInventory(m, commits) =>
      if m.event in s.channel && m.event.id.source != InventoryService then Some(M.Delivery(m, commits)) else None
    case Restock(p, quantity) =>
      Some(M.Local((db: Inventory.Db) => db.(rows := Stock.Restocked(db.rows, p, quantity))))
    case ReserveBatch(lines) =>
      Some(M.Local((db: Inventory.Db) => if Stock.Fits(db.rows, lines) then db.(rows := Stock.Take(db.rows, lines)) else db))
    case _ => None
  }

  function PaymentInput(s: State, a: Action): Option<M.Input<Payments.Db>> {
    match a
    case ToPayments(m, commits) =>
      if m.event in s.channel && m.event.id.source == InventoryService then Some(M.Delivery(m, commits)) else None
    case _ => None
  }

  function Appended<T>(inputs: seq<T>, next: Option<T>): seq<T> {
    if next.Some? then inputs + [next.value] else inputs
  }

  function OrderInputs(s: State, actions: seq<Action>): seq<M.Input<Orders.Db>> {
    if |actions| == 0 then []
    else
      var before := actions[..|actions| - 1];
      Appended(OrderInputs(s, before), OrderInput(Run(s, before), actions[|actions| - 1]))
  }

  function InventoryInputs(s: State, actions: seq<Action>): seq<M.Input<Inventory.Db>> {
    if |actions| == 0 then []
    else
      var before := actions[..|actions| - 1];
      Appended(InventoryInputs(s, before), InventoryInput(Run(s, before), actions[|actions| - 1]))
  }

  function PaymentInputs(s: State, actions: seq<Action>): seq<M.Input<Payments.Db>> {
    if |actions| == 0 then []
    else
      var before := actions[..|actions| - 1];
      Appended(PaymentInputs(s, before), PaymentInput(Run(s, before), actions[|actions| - 1]))
  }

  /** A node after one more input, if there is one. */
  function Fed<D>(accepts: Message -> bool, handle: (D, Message) -> D, node: M.Node<D>, next: Option<M.Input<D>>): M.Node<D> {
    if next.Some? then M.Absorb(accepts, handle, node, next.value) else node
  }

  lemma RunAppends<D>(accepts: Message -> bool, handle: (D, Message) -> D, node: M.Node<D>, inputs: seq<M.Input<D>>, next: Option<M.Input<D>>)
    ensures M.Run(accepts, handle, node, Appended(inputs, next)) == Fed(accepts, handle, M.Run(accepts, handle, node, inputs), next)
  {
    if next.Some? {
      assert (inputs + [next.value])[..|inputs|] == inputs;
    }
  }

  lemma OrderStepIsInput(s: State, a: Action)
    ensures Step(s, a).orders == Fed(Orders.Accepts, Orders.Handle, s.orders, OrderInput(s, a))
  {
  }

  lemma InventoryStepIsInput(s: State, a: Action)
    ensures Step(s, a).inventory == Fed(Inventory.Accepts, Inventory.Handle, s.inventory, InventoryInput(s, a))
  {
  }

  lemma PaymentStepIsInput(s: State, a: Action)
    ensures Step(s, a).payments == Fed(Payments.Accepts, Payments.Handle, s.payments, PaymentInput(s, a))
  {
  }

  lemma {:induction false} OrdersFollowInputs(s: State, actions: seq<Action>)
    ensures Run(s, actions).orders == M.Run(Orders.Accepts, Orders.Handle, s.orders, OrderInputs(s, actions))
  {
    if |actions| > 0 {
      var before, a := actions[..|actions| - 1], actions[|actions| - 1];
      OrdersFollowInputs(s, before);
      OrderStepIsInput(Run(s, before), a);
      RunAppends(Orders.Accepts, Orders.Handle, s.orders, OrderInputs(s, before), OrderInput(Run(s, before), a));
    }
  }

  lemma {:induction false} InventoryFollowsInputs(s: State, actions: seq<Action>)
    ensures Run(s, actions).inventory == M.Run(Inventory.Accepts, Inventory.Handle, s.inventory, InventoryInputs(s, actions))
  {
    if |actions| > 0 {
      var before, a := actions[..|actions| - 1], actions[|actions| - 1];
      InventoryFollowsInputs(s, before);
      InventoryStepIsInput(Run(s, before), a);
      RunAppends(Inventory.Accepts, Inventory.Handle, s.inventory, InventoryInputs(s, before), InventoryInput(Run(s, before), a));
    }
  }

  lemma {:induction false} PaymentsFollowInputs(s: State, actions: seq<Action>)
    ensures Run(s, actions).payments == M.Run(Payments.Accepts, Payments.Handle, s.payments, PaymentInputs(s, actions))
  {
    if |actions| > 0 {
      var before, a := actions[..|actions| - 1], actions[|actions| - 1];
      PaymentsFollowInputs(s, before);
      PaymentStepIsInput(Run(s, before), a);
      RunAppends(Payments.Accepts, Payments.Handle, s.payments, PaymentInputs(s, before), PaymentInput(Run(s, before), a));
    }
  }

  /** Every delivery in the inputs is of a row that its author committed. */
  ghost predicate Committed<D>(s: State, inputs: seq<M.Input<D>>) {
    forall i :: 0 <= i < |inputs| && inputs[i].Delivery? ==>
      InOutbox(Outbox(s, inputs[i].message.event.id.source), inputs[i].message.event)
  }

  lemma ChannelGrows(s: State, a: Action)
    ensures s.channel <= Step(s, a).channel
  {
  }

  /** Every delivered event of the inputs has been published. */
  ghost predicate Sent<D>(channel: set<Event>, inputs: seq<M.Input<D>>) {
    forall i :: 0 <= i < |inputs| && inputs[i].Delivery? ==> inputs[i].message.event in channel
  }

  lemma SentAppended<D>(channel: set<Event>, channel': set<Event>, inputs: seq<M.Input<D>>, next: Option<M.Input<D>>)
    requires Sent(channel, inputs) && channel <= channel'
    requires next.Some? && next.value.Delivery? ==> next.value.message.event in channel'
    ensures Sent(channel', Appended(inputs, next))
  {
  }

  lemma {:induction false} InputsAreSent(s: State, actions: seq<Action>)
    ensures Sent(Run(s, actions).channel, OrderInputs(s, actions))
    ensures Sent(Run(s, actions).channel, InventoryInputs(s, actions))
    ensures Sent(Run(s, actions).channel, PaymentInputs(s, actions))
  {
    if |actions| > 0 {
      var before, a := actions[..|actions| - 1], actions[|actions| - 1];
      var was, now := Run(s, before), Run(s, actions);
      InputsAreSent(s, before);
      ChannelGrows(was, a);
      SentAppended(was.channel, now.channel, OrderInputs(s, before), OrderInput(was, a));
      SentAppended(was.channel, now.channel, InventoryInputs(s, before), InventoryInput(was, a));
      SentAppended(was.channel, now.channel, PaymentInputs(s, before), PaymentInput(was, a));
    }
  }

  lemma SentIsCommitted<D>(s: State, inputs: seq<M.Input<D>>)
    requires Inv(s) && Sent(s.channel, inputs)
    ensures Committed(s, inputs)
  {
  }

  /**
    For every run: the order service's tables and outbox equal the replay of its inputs with repeats,
    aborted attempts and ignored events removed, and each delivered event is a committed outbox row of
    its author, however often workers crashed between publishing and committing.
  */
  lemma OrderEffectsHappenOnce(rows: Stock.Rows, actions: seq<Action>)
    ensures var s0, s := Initial(rows), Run(Initial(rows), actions);
            s.orders.db == M.Replay(Orders.Handle, s0.orders.db, M.Firsts(Orders.Accepts, OrderInputs(s0, actions))) &&
            Committed(s, OrderInputs(s0, actions))
  {
    OrdersFollowInputs(Initial(rows), actions);
    M.ExactlyOnce(Orders.Accepts, Orders.Handle, Initial(rows).orders.db, OrderInputs(Initial(rows), actions));
    InputsAreSent(Initial(rows), actions);
    RunKeeps(rows, actions);
    SentIsCommitted(Run(Initial(rows), actions), OrderInputs(Initial(rows), actions));
  }

  /** The same for the inventory service. */
  lemma InventoryEffectsHappenOnce(rows: Stock.Rows, actions: seq<Action>)
    ensures var s0, s := Initial(rows), Run(Initial(rows), actions);
            s.inventory.db == M.Replay(Inventory.Handle, s0.inventory.db, M.Firsts(Inventory.Accepts, InventoryInputs(s0, actions))) &&
            Committed(s, InventoryInputs(s0, actions))
  {
    InventoryFollowsInputs(Initial(rows), actions);
    M.ExactlyOnce(Inventory.Accepts, Inventory.Handle, Initial(rows).inventory.db, InventoryInputs(Initial(rows), actions));
    InputsAreSent(Initial(rows), actions);
    RunKeeps(rows, actions);
    SentIsCommitted(Run(Initial(rows), actions), InventoryInputs(Initial(rows), actions));
  }

  /** The same for the payment service. */
  lemma PaymentEffectsHappenOnce(rows: Stock.Rows, actions: seq<Action>)
    ensures var s0, s := Initial(rows), Run(Initial(rows), actions);
            s.payments.db == M.Replay(Payments.Handle, s0.payments.db, M.Firsts(Payments.Accepts, PaymentInputs(s0, actions))) &&
            Committed(s, PaymentInputs(s0, actions))
  {
    PaymentsFollowInputs(Initial(rows), actions);
    M.ExactlyOnce(Payments.Accepts, Payments.Handle, Initial(rows).payments.db, PaymentInputs(Initial(rows), actions));
    InputsAreSent(Initial(rows), actions);
    RunKeeps(rows, actions);
    SentIsCommitted(Run(Initial(rows), actions), PaymentInputs(Initial(rows), actions));
  }
}
