/** What becomes of an order depends on its own events and sweeps only, never on other orders' traffic. */
module OrderIsolation {
  import opened Commerce
  import opened Saga
  import Messaging
  import Orders

  /** What can move an order: a first-handled event about it, or a sweep that selects it. */
  datatype Move = Hears(body: Body) | SweptAt(cutoff: int)

  /** An order-service action on the order service alone; the delivered event has been published. */
  function Apply(node: Messaging.Node<Orders.Db>, a: Action): Messaging.Node<Orders.Db> {
    match a
    case Create(o, buyer, key, items, now) => node.(db := Orders.Create(node.db, o, buyer, key, items, now))
    case Sweep(selected, cutoff) => node.(db := Orders.SweepBatch(node.db, selected, cutoff))
    case ToOrders(m, commits) => if commits then Messaging.Receive(Orders.Accepts, Orders.Handle, node, m) else node
    case _ => node
  }

  function ApplyAll(node: Messaging.Node<Orders.Db>, actions: seq<Action>): Messaging.Node<Orders.Db> {
    if |actions| == 0 then node else Apply(ApplyAll(node, actions[..|actions| - 1]), actions[|actions| - 1])
  }

  /** The move that an action makes on order o, if any; a repeated or aborted delivery makes none. */
  function MoveOf(node: Messaging.Node<Orders.Db>, a: Action, o: OrderId): Option<Move> {
    match a
    case Sweep(selected, cutoff) => if o in selected then Some(SweptAt(cutoff)) else None
    case ToOrders(m, commits) =>
      if commits && m.event.id !in node.inbox && Orders.Accepts(m) && m.event.body.order == o
      then Some(Hears(m.event.body)) else None
    case _ => None
  }

  /** The moves of a history on order o, without ids and without other orders' traffic. */
  function Moves(node: Messaging.Node<Orders.Db>, actions: seq<Action>, o: OrderId): seq<Move> {
    if |actions| == 0 then []
    else
      var before, a := actions[..|actions| - 1], actions[|actions| - 1];
      match MoveOf(ApplyAll(node, before), a, o)
      case Some(move) => Moves(node, before, o) + [move]
      case None => Moves(node, before, o)
  }

  /** The saga's state machine for one order. */
  function After(order: Orders.Order, move: Move): Orders.Order {
    var live, pending, reserved := Orders.Live(order.status), order.status.Pending?, order.status.StockReserved?;
    match move
    case SweptAt(cutoff) => if live && order.createdAt <= cutoff then order.(status := Orders.Cancelled) else order
    case Hears(InventoryReserved(_, _)) => if pending then order.(status := Orders.StockReserved) else order
    case Hears(InventoryReserveFailed(_)) => if live then order.(status := Orders.CancelledNoStock) else order
    case Hears(PaymentSuccess(_, _)) => if reserved then order.(status := Orders.Confirmed) else order
    case Hears(PaymentFailed(_, _)) => if live then order.(status := Orders.Cancelled) else order
    case Hears(_) => order
  }

  function Fate(order: Orders.Order, moves: seq<Move>): Orders.Order {
    if |moves| == 0 then order else After(Fate(order, moves[..|moves| - 1]), moves[|moves| - 1])
  }

  lemma ApplyIsMove(node: Messaging.Node<Orders.Db>, a: Action, o: OrderId)
    requires o in node.db.orders
    ensures o in Apply(node, a).db.orders
    ensures Apply(node, a).db.orders[o] ==
            match MoveOf(node, a, o) case Some(move) => After(node.db.orders[o], move) case None => node.db.orders[o]
  {
    if a.Sweep? { Orders.SweepBatchOrders(node.db, a.selected, a.cutoff); }
  }

  /** An order's row is the fate of its own moves, whatever else the service does. */
  lemma {:induction false} RowIsFate(node: Messaging.Node<Orders.Db>, actions: seq<Action>, o: OrderId)
    requires o in node.db.orders
    ensures o in ApplyAll(node, actions).db.orders
    ensures ApplyAll(node, actions).db.orders[o] == Fate(node.db.orders[o], Moves(node, actions, o))
  {
    if |actions| > 0 {
      var before, a := actions[..|actions| - 1], actions[|actions| - 1];
      RowIsFate(node, before, o);
      ApplyIsMove(ApplyAll(node, before), a, o);
      var moves := Moves(node, before, o);
      if MoveOf(ApplyAll(node, before), a, o).Some? {
        assert Moves(node, actions, o)[..|moves|] == moves;
      }
    }
  }

  /** The composed system lets the action happen: a delivered event has been published to the service. */
  predicate Happens(s: State, a: Action) {
    a.ToOrders? ==> a.message.event in s.channel && a.message.event.id.source != OrderService
  }

  /** The actions of a run that happen. */
  function Feasible(s: State, actions: seq<Action>): seq<Action> {
    if |actions| == 0 then []
    else
      var before, a := actions[..|actions| - 1], actions[|actions| - 1];
      if Happens(Run(s, before), a) then Feasible(s, before) + [a] else Feasible(s, before)
  }

  lemma StepInSystem(s: State, a: Action)
    ensures Step(s, a).orders == if Happens(s, a) then Apply(s.orders, a) else s.orders
  {
  }

  lemma ApplyOneMore(node: Messaging.Node<Orders.Db>, actions: seq<Action>, a: Action)
    ensures ApplyAll(node, actions + [a]) == Apply(ApplyAll(node, actions), a)
  {
    assert (actions + [a])[..|actions|] == actions;
  }

  /** The order service inside the composed system is the order service on its own. */
  lemma {:induction false} ServiceInSystem(s: State, actions: seq<Action>)
    ensures Run(s, actions).orders == ApplyAll(s.orders, Feasible(s, actions))
  {
    if |actions| > 0 {
      var before, a := actions[..|actions| - 1], actions[|actions| - 1];
      ServiceInSystem(s, before);
      StepInSystem(Run(s, before), a);
      ApplyOneMore(s.orders, Feasible(s, before), a);
    }
  }

  /** The moves that a run of the composed system makes on order o. */
  function SystemMoves(s: State, actions: seq<Action>, o: OrderId): seq<Move> {
    Moves(s.orders, Feasible(s, actions), o)
  }

  /**
    In the composed system an order's fate depends on its own first-handled events and its own sweeps
    only: two runs, from states and through traffic as different as they like, that make the same moves
    on an order they start with alike leave it alike.
  */
  lemma FateDependsOnOwnMoves(s: State, t: State, one: seq<Action>, other: seq<Action>, o: OrderId)
    requires o in s.orders.db.orders && o in t.orders.db.orders && s.orders.db.orders[o] == t.orders.db.orders[o]
    requires SystemMoves(s, one, o) == SystemMoves(t, other, o)
    ensures o in Run(s, one).orders.db.orders && o in Run(t, other).orders.db.orders
    ensures Run(s, one).orders.db.orders[o] == Run(t, other).orders.db.orders[o]
    ensures Run(s, one).orders.db.orders[o] == Fate(s.orders.db.orders[o], SystemMoves(s, one, o))
  {
    ServiceInSystem(s, one);
    ServiceInSystem(t, other);
    RowIsFate(s.orders, Feasible(s, one), o);
    RowIsFate(t.orders, Feasible(t, other), o);
  }
}
