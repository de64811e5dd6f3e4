/**
  From every reachable state the shop can come to rest: some continuation of polls and deliveries alone
  publishes every row and handles every event, whichever cards are declined.
*/
module SagaRest {
  import opened Commerce
  import opened Saga
  import opened SagaLaws
  import opened SagaSafety
  import opened SagaProgress
  import Stock
  import Orders
  import Inventory
  import Payments

  /** What has been published, and what each service has handled. */
  datatype Traffic = Traffic(channel: set<Event>, orders: set<EventId>, inventory: set<EventId>, payments: set<EventId>)

  function TrafficOf(s: State): Traffic { Traffic(s.channel, s.orders.inbox, s.inventory.inbox, s.payments.inbox) }

  predicate NoLess(t: Traffic, u: Traffic) {
    t.channel <= u.channel && t.orders <= u.orders && t.inventory <= u.inventory && t.payments <= u.payments
  }

  // ---------- work that is left ----------

  /** The work that an event can still cause once written: its publication and all handlings that follow from it. */
  function Weight(body: Body): nat {
    1 + AtOrders(body) + AtInventory(body) + AtPayments(body)
  }

  /** A handling, and the weight of the heaviest event it can write. */
  function AtOrders(body: Body): nat {
    match body
    case PaymentFailed(_, _) => 1 + 3
    case InventoryReserved(_, _) => 1
    case InventoryReserveFailed(_) => 1
    case PaymentSuccess(_, _) => 1
    case _ => 0
  }

  function AtInventory(body: Body): nat {
    match body
    case OrderCreated(_, _, _) => 1 + 10
    case PaymentFailed(_, _) => 1 + 1
    case OrderCancelled(_, _) => 1 + 1
    case _ => 0
  }

  function AtPayments(body: Body): nat { if body.InventoryReserved? then 1 + 7 else 0 }

  /** What is left of an event's weight. */
  function Left(e: Event, t: Traffic): nat {
    (if e in t.channel then 0 else 1) +
    (if e.id in t.orders then 0 else AtOrders(e.body)) +
    (if e.id in t.inventory then 0 else AtInventory(e.body)) +
    (if e.id in t.payments then 0 else AtPayments(e.body))
  }

  function Work(outbox: seq<Event>, t: Traffic): nat {
    if |outbox| == 0 then 0 else Work(outbox[..|outbox| - 1], t) + Left(outbox[|outbox| - 1], t)
  }

  function TotalWork(s: State): nat {
    var t := TrafficOf(s);
    Work(s.orders.db.outbox, t) + Work(s.inventory.db.outbox, t) + Work(s.payments.db.outbox, t)
  }

  lemma {:induction false} WorkShrinks(outbox: seq<Event>, t: Traffic, u: Traffic)
    requires NoLess(t, u)
    ensures Work(outbox, u) <= Work(outbox, t)
  {
    if |outbox| > 0 { WorkShrinks(outbox[..|outbox| - 1], t, u); }
  }

  /** What one row is relieved of, its outbox is relieved of. */
  lemma {:induction false} WorkDrops(outbox: seq<Event>, t: Traffic, u: Traffic, e: Event, drop: nat)
    requires NoLess(t, u) && e in outbox && Left(e, u) + drop <= Left(e, t)
    ensures Work(outbox, u) + drop <= Work(outbox, t)
  {
    var n := |outbox| - 1;
    if outbox[n] == e {
      WorkShrinks(outbox[..n], t, u);
    } else {
      assert outbox == outbox[..n] + [outbox[n]];
      WorkDrops(outbox[..n], t, u, e, drop);
    }
  }

  lemma WriteAddsWork(outbox: seq<Event>, source: Service, body: Body, t: Traffic)
    ensures Work(Write(outbox, source, body), t) <= Work(outbox, t) + Weight(body)
  {
    assert Write(outbox, source, body)[..|outbox|] == outbox;
  }

  /** A step that only relieves the event e, in the outbox of its author, relieves the shop. */
  lemma ShopRelieved(s: State, t: Traffic, u: Traffic, e: Event, drop: nat)
    requires NoLess(t, u) && e in Outbox(s, e.id.source) && Left(e, u) + drop <= Left(e, t)
    ensures Work(s.orders.db.outbox, u) + Work(s.inventory.db.outbox, u) + Work(s.payments.db.outbox, u) + drop <=
            Work(s.orders.db.outbox, t) + Work(s.inventory.db.outbox, t) + Work(s.payments.db.outbox, t)
  {
    WorkShrinks(s.orders.db.outbox, t, u);
    WorkShrinks(s.inventory.db.outbox, t, u);
    WorkShrinks(s.payments.db.outbox, t, u);
    WorkDrops(Outbox(s, e.id.source), t, u, e, drop);
  }

  // ---------- steps that do some of it ----------

  /** A poll or a delivery; a card is declined as `declined` says. */
  predicate Moves(a: Action, declined: OrderId -> bool) {
    match a
    case Poll(_, _, _) => true
    case ToOrders(_, _) => true
    case ToInventory(_, _) => true
    case ToPayments(m, _) => m.declined == declined(m.event.body.order)
    case _ => false
  }

  lemma MarkedIsSent(s: State, w: Service, n: nat)
    requires Inv(s) && n < |Outbox(s, w)| && Outbox(s, w)[n].id in s.processed
    ensures Outbox(s, w)[n] in s.channel
  {
    assert Numbered(Outbox(s, w), w);
    var sent :| sent in s.channel && sent.id == Outbox(s, w)[n].id;
    assert InOutbox(Outbox(s, w), sent);
  }

  lemma PollPublishes(s: State, w: Service, n: nat)
    requires n < |Outbox(s, w)| && Outbox(s, w)[n].id !in s.processed
    ensures var s', e := Step(s, Poll(w, {n}, true)), Outbox(s, w)[n];
            s' == s.(channel := s.channel + {e}, processed := s.processed + {e.id})
  {
  }

  /** The row is published by a poll that takes it alone. */
  lemma PollWorks(s: State, w: Service, n: nat)
    requires Inv(s) && n < |Outbox(s, w)| && Outbox(s, w)[n] !in s.channel
    ensures TotalWork(Step(s, Poll(w, {n}, true))) < TotalWork(s)
  {
    var e, t := Outbox(s, w)[n], TrafficOf(s);
    if e.id in s.processed { MarkedIsSent(s, w, n); }
    PollPublishes(s, w, n);
    WrittenBy(s, w, n);
    ShopRelieved(s, t, t.(channel := t.channel + {e}), e, 1);
  }

  lemma WrittenBy(s: State, w: Service, n: nat)
    requires Inv(s) && n < |Outbox(s, w)|
    ensures Outbox(s, w)[n].id.source == w
  {
    assert Numbered(Outbox(s, w), w);
  }

  /** The order service writes nothing, or the cancellation of a declined order. */
  lemma OrdersWrite(s: State, m: Message, t: Traffic)
    requires m.event in s.channel && m.event.id.source != OrderService && Orders.Accepts(m) && m.event.id !in s.orders.inbox
    ensures var s' := Step(s, ToOrders(m, true));
            s'.inventory == s.inventory && s'.payments == s.payments && s'.channel == s.channel &&
            s'.orders.inbox == s.orders.inbox + {m.event.id} &&
            Work(s'.orders.db.outbox, t) < Work(s.orders.db.outbox, t) + AtOrders(m.event.body)
  {
    var outbox, o := s.orders.db.outbox, m.event.body.order;
    if m.event.body.PaymentFailed? && o in s.orders.db.orders && Orders.Live(s.orders.db.orders[o].status) {
      WriteAddsWork(outbox, OrderService, CancellationOf(s.orders.db, o), t);
    }
  }

  lemma ToOrdersWorks(s: State, m: Message)
    requires Inv(s) && m.event in s.channel && Orders.Accepts(m) && m.event.id !in s.orders.inbox
    ensures TotalWork(Step(s, ToOrders(m, true))) < TotalWork(s)
  {
    Sent(s, m.event);
    var t := TrafficOf(s);
    var u := t.(orders := t.orders + {m.event.id});
    OrdersWrite(s, m, u);
    ShopRelieved(s, t, u, m.event, AtOrders(m.event.body));
  }

  lemma InventoryWrites(s: State, m: Message) returns (body: Body)
    requires Handles(s, m)
    ensures var s' := Step(s, ToInventory(m, true));
            s'.orders == s.orders && s'.payments == s.payments && s'.channel == s.channel &&
            s'.inventory.inbox == s.inventory.inbox + {m.event.id} &&
            s'.inventory.db.outbox == Write(s.inventory.db.outbox, InventoryService, body)
    ensures Weight(body) < AtInventory(m.event.body)
  {
    body := Step(s, ToInventory(m, true)).inventory.db.outbox[|s.inventory.db.outbox|].body;
  }

  lemma ToInventoryWorks(s: State, m: Message)
    requires Inv(s) && m.event in s.channel && Inventory.Accepts(m) && m.event.id !in s.inventory.inbox
    ensures TotalWork(Step(s, ToInventory(m, true))) < TotalWork(s)
  {
    Sent(s, m.event);
    var body := InventoryWrites(s, m);
    var t := TrafficOf(s);
    var u := t.(inventory := t.inventory + {m.event.id});
    ShopRelieved(s, t, u, m.event, AtInventory(m.event.body));
    WriteAddsWork(s.inventory.db.outbox, InventoryService, body, u);
  }

  lemma PaymentsWrites(s: State, m: Message) returns (body: Body)
    requires m.event in s.channel && m.event.id.source == InventoryService && Payments.Accepts(m) && m.event.id !in s.payments.inbox
    ensures var s' := Step(s, ToPayments(m, true));
            s'.orders == s.orders && s'.inventory == s.inventory && s'.channel == s.channel &&
            s'.payments.inbox == s.payments.inbox + {m.event.id} &&
            s'.payments.db.outbox == Write(s.payments.db.outbox, PaymentService, body)
    ensures Weight(body) < AtPayments(m.event.body)
  {
    body := Step(s, ToPayments(m, true)).payments.db.outbox[|s.payments.db.outbox|].body;
  }

  lemma ToPaymentsWorks(s: State, m: Message)
    requires Inv(s) && m.event in s.channel && Payments.Accepts(m) && m.event.id !in s.payments.inbox
    ensures TotalWork(Step(s, ToPayments(m, true))) < TotalWork(s)
  {
    Sent(s, m.event);
    var body := PaymentsWrites(s, m);
    var t := TrafficOf(s);
    var u := t.(payments := t.payments + {m.event.id});
    ShopRelieved(s, t, u, m.event, AtPayments(m.event.body));
    WriteAddsWork(s.payments.db.outbox, PaymentService, body, u);
  }

  /** A published event is a row of its author's outbox. */
  lemma Sent(s: State, e: Event)
    requires Inv(s) && e in s.channel
    ensures e in Outbox(s, e.id.source) && Author(KindOf(e.body)) == e.id.source
  {
    var rows := Outbox(s, e.id.source);
    assert InOutbox(rows, e);
    assert Numbered(rows, e.id.source) && rows[e.id.n] == e;
  }

  /** While the shop is not at rest, some poll or delivery reduces the work that is left. */
  lemma SomethingWorks(s: State, declined: OrderId -> bool) returns (a: Action)
    requires Inv(s) && !Quiet(s)
    ensures Moves(a, declined) && TotalWork(Step(s, a)) < TotalWork(s)
  {
    if source, i :| 0 <= i < |Outbox(s, source)| && Outbox(s, source)[i] !in s.channel {
      PollWorks(s, source, i);
      return Poll(source, {i}, true);
    }
    if e :| e in s.channel && Orders.Accepts(Message(e, false)) && e.id !in s.orders.inbox {
      ToOrdersWorks(s, Message(e, false));
      return ToOrders(Message(e, false), true);
    }
    if e :| e in s.channel && Inventory.Accepts(Message(e, false)) && e.id !in s.inventory.inbox {
      ToInventoryWorks(s, Message(e, false));
      return ToInventory(Message(e, false), true);
    }
    var e :| e in s.channel && Payments.Accepts(Message(e, false)) && e.id !in s.payments.inbox;
    ToPaymentsWorks(s, Message(e, declined(e.body.order)));
    a := ToPayments(Message(e, declined(e.body.order)), true);
  }

  lemma {:induction false} WorkEnds(s: State, declined: OrderId -> bool) returns (more: seq<Action>)
    requires Inv(s)
    ensures (forall i :: 0 <= i < |more| ==> Moves(more[i], declined)) && Quiet(Run(s, more))
    decreases TotalWork(s)
  {
    more := [];
    if !Quiet(s) {
      var a := SomethingWorks(s, declined);
      StepKeeps(s, a);
      var rest := WorkEnds(Step(s, a), declined);
      more := [a] + rest;
      RunNext(s, more);
    }
  }

  /**
    Every reachable state has a continuation without new orders, sweeps, restocks or batches that brings
    the shop to rest, whichever orders have their cards declined.
  */
  lemma RestIsReachable(rows: Stock.Rows, actions: seq<Action>, declined: OrderId -> bool)
    ensures exists more :: (forall i :: 0 <= i < |more| ==> Moves(more[i], declined)) && Quiet(Run(Initial(rows), actions + more))
  {
    RunKeeps(rows, actions);
    var more := WorkEnds(Run(Initial(rows), actions), declined);
    RunConcat(Initial(rows), actions, more);
  }
}
