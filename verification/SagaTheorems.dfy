/** The promises of the checkout saga, for every run from an empty shop. */
module SagaTheorems {
  import opened Commerce
  import opened Saga
  import opened SagaLaws
  import opened SagaSafety
  import Stock
  import Orders
  import Ledger

  // ---------- payments ----------

  lemma ConfirmedIsCharged(s: State, o: OrderId)
    requires Inv(s) && o in s.orders.db.orders && s.orders.db.orders[o].status.Confirmed?
    ensures Charged(s.payments.db.payments, o) && Says(s.inventory.db.outbox, ReservationOf(s.orders.db, o))
  {
    var db, outcomes := s.orders.db, s.payments.db.outbox;
    assert StatusBacked(db, s.inventory.db.outbox, outcomes, o);
    var i :| 0 <= i < |outcomes| && outcomes[i].body == SuccessOf(db, o);
    assert outcomes[i].body.PaymentSuccess?;
  }

  lemma ChargedWasReserved(s: State, o: OrderId)
    requires Inv(s) && Charged(s.payments.db.payments, o)
    ensures o in s.orders.db.orders && Says(s.inventory.db.outbox, ReservationOf(s.orders.db, o))
  {
    var db, answers, outcomes := s.orders.db, s.inventory.db.outbox, s.payments.db.outbox;
    var a :| 0 <= a < |s.payments.db.payments| && s.payments.db.payments[a].order == o;
    assert Says(outcomes, SuccessOf(db, o));
    var i :| 0 <= i < |outcomes| && outcomes[i].body == SuccessOf(db, o);
    assert OutcomeBacked(db, answers, s.payments.inbox, outcomes[i].body);
    var j :| 0 <= j < |answers| && answers[j].body == ReservationOf(db, o) && answers[j].id in s.payments.inbox;
  }

  lemma NoStockIsNotCharged(s: State, o: OrderId)
    requires Inv(s) && o in s.orders.db.orders && s.orders.db.orders[o].status.CancelledNoStock?
    ensures !Charged(s.payments.db.payments, o)
  {
    assert StatusBacked(s.orders.db, s.inventory.db.outbox, s.payments.db.outbox, o);
    if Charged(s.payments.db.payments, o) {
      ChargedWasReserved(s, o);
      SaysOnce(s.inventory.db.outbox, InventoryReserveFailed(o), ReservationOf(s.orders.db, o));
    }
  }

  /**
    However deliveries are duplicated, reordered, aborted or crashed: an order is charged at most
    once, always for its own total; a confirmed order is charged and was reserved with its own
    items; an order cancelled for lack of stock is not charged.
  */
  lemma PaymentsAreSafe(rows: Stock.Rows, actions: seq<Action>)
    ensures var s := Run(Initial(rows), actions);
            var orders, payments := s.orders.db.orders, s.payments.db.payments;
            && (forall a, b :: 0 <= a < b < |payments| ==> payments[a].order != payments[b].order)
            && (forall a :: 0 <= a < |payments| ==>
                  payments[a].order in orders && payments[a].amount == orders[payments[a].order].total &&
                  payments[a].amount == Sum(UnitPrices(orders[payments[a].order].items)))
            && (forall o :: o in orders && orders[o].status.Confirmed? ==>
                  Charged(payments, o) && Says(s.inventory.db.outbox, InventoryReserved(o, orders[o].items)))
            && (forall o :: o in orders && orders[o].status.CancelledNoStock? ==> !Charged(payments, o))
  {
    RunKeeps(rows, actions);
    var s := Run(Initial(rows), actions);
    forall o: OrderId | o in s.orders.db.orders
      ensures s.orders.db.orders[o].total == Total(s.orders.db.orders[o].items) == Sum(UnitPrices(s.orders.db.orders[o].items))
    {
      TotalIsPerUnit(s.orders.db.orders[o].items);
    }
    forall o | o in s.orders.db.orders && s.orders.db.orders[o].status.Confirmed?
      ensures Charged(s.payments.db.payments, o) &&
              Says(s.inventory.db.outbox, InventoryReserved(o, s.orders.db.orders[o].items))
    {
      ConfirmedIsCharged(s, o);
    }
    forall o | o in s.orders.db.orders && s.orders.db.orders[o].status.CancelledNoStock?
      ensures !Charged(s.payments.db.payments, o)
    {
      NoStockIsNotCharged(s, o);
    }
  }

  // ---------- compensation ----------

  /** In every reachable state an order is cancelled exactly when it has a cancellation event, and never has two. */
  lemma CancelledIffCompensated(rows: Stock.Rows, actions: seq<Action>, o: OrderId)
    ensures var db := Run(Initial(rows), actions).orders.db;
            && Unique(db.outbox, Cancellation)
            && (o in db.orders && db.orders[o].status.Cancelled? <==>
                exists i :: 0 <= i < |db.outbox| && db.outbox[i].body.OrderCancelled? && db.outbox[i].body.order == o)
            && (o in db.orders && db.orders[o].status.Cancelled? ==>
                Says(db.outbox, OrderCancelled(o, Unpriced(db.orders[o].items))))
  {
    RunKeeps(rows, actions);
    var db := Run(Initial(rows), actions).orders.db;
    if o in db.orders && db.orders[o].status.Cancelled? {
      var i :| 0 <= i < |db.outbox| && db.outbox[i].body == CancellationOf(db, o);
      assert db.outbox[i].body.OrderCancelled?;
    }
  }

  /** One order per idempotency key. */
  lemma KeysAreIdempotent(rows: Stock.Rows, actions: seq<Action>)
    ensures var orders := Run(Initial(rows), actions).orders.db.orders;
            forall o, q :: o in orders && q in orders && orders[o].key == orders[q].key ==> o == q
  {
    RunKeeps(rows, actions);
  }

  // ---------- stock ----------

  /** The ledger entry that an action posts, if any. */
  function Entry(s: State, a: Action): Option<Ledger.Entry> {
    match a
    case ToInventory(m, commits) => if commits && Handles(s, m) then Some(EntryOf(m.event.body)) else None
    case Restock(p, quantity) => Some(Ledger.Restock(p, quantity))
    case ReserveBatch(lines) => if Stock.Fits(s.inventory.db.rows, lines) then Some(Ledger.Batch(lines)) else None
    case _ => None
  }

  /** A release names exactly what its order holds, or its order holds nothing. */
  lemma ReleaseMatches(s: State, a: Action, p: ProductId)
    requires Inv(s) && Entry(s, a).Some?
    ensures Ledger.Covers(s.book, Entry(s, a).value, p) && Ledger.AllOrNothing(s.book, Entry(s, a).value, p)
  {
    if Entry(s, a).value.Release? {
      var body := a.message.event.body;
      CompensationIsRight(s, a.message.event);
      var db := s.orders.db;
      assert HoldsRight(db, s.inventory.db.outbox, s.payments.db.outbox, s.inventory.inbox, s.book, body.order);
      DemandIgnoresPrices(db.orders[body.order].items, p);
    }
  }

  /**
    Over every run, whatever is released twice or never reserved: available plus reserved is what
    was there plus what was restocked, neither is negative, and no more is reserved than orders and
    batches reserved and orders have not yet released.
  */
  lemma {:induction false} StockIsConserved(rows: Stock.Rows, actions: seq<Action>, p: ProductId)
    requires Stock.NonNegative(rows)
    ensures Ledger.Conserved(rows, Run(Initial(rows), actions).book, p)
    ensures Run(Initial(rows), actions).inventory.db.rows == Run(Initial(rows), actions).book.rows
  {
    RunKeeps(rows, actions);
    if |actions| > 0 {
      var before, a := actions[..|actions| - 1], actions[|actions| - 1];
      var s := Run(Initial(rows), before);
      StockIsConserved(rows, before, p);
      RunKeeps(rows, before);
      if Entry(s, a).Some? {
        ReleaseMatches(s, a, p);
        Ledger.PostConserves(rows, s.book, Entry(s, a).value, p);
      }
    }
  }

  /** What the run restocks of a product, by its actions. */
  function RestockedBy(actions: seq<Action>, p: ProductId): nat {
    if |actions| == 0 then 0
    else
      var a := actions[|actions| - 1];
      RestockedBy(actions[..|actions| - 1], p) + if a.Restock? && a.product == p then a.quantity else 0
  }

  /** What the run reserves of a product in batches that find their stock. */
  function BatchedBy(s: State, actions: seq<Action>, p: ProductId): nat {
    if |actions| == 0 then 0
    else
      var before, a := actions[..|actions| - 1], actions[|actions| - 1];
      BatchedBy(s, before, p) + if a.ReserveBatch? && Stock.Fits(Run(s, before).inventory.db.rows, a.lines) then Demand(a.lines, p) else 0
  }

  lemma StepTellsHistory(s: State, a: Action, p: ProductId)
    requires s.inventory.db.rows == s.book.rows
    ensures Demand(Step(s, a).book.restocked, p) ==
            Demand(s.book.restocked, p) + if a.Restock? && a.product == p then a.quantity else 0
    ensures Demand(Step(s, a).book.batches, p) ==
            Demand(s.book.batches, p) + if a.ReserveBatch? && Stock.Fits(s.inventory.db.rows, a.lines) then Demand(a.lines, p) else 0
  {
    match a {
      case Restock(q, quantity) => DemandOfConcat(s.book.restocked, [Line(q, quantity, 0)], p);
      case ReserveBatch(lines) => DemandOfConcat(s.book.batches, lines, p);
      case _ =>
    }
  }

  /** The ledger tells the run's own history: all restocks and all batches that found their stock. */
  lemma {:induction false} LedgerTellsHistory(rows: Stock.Rows, actions: seq<Action>, p: ProductId)
    ensures Demand(Run(Initial(rows), actions).book.restocked, p) == RestockedBy(actions, p)
    ensures Demand(Run(Initial(rows), actions).book.batches, p) == BatchedBy(Initial(rows), actions, p)
  {
    if |actions| > 0 {
      var before := actions[..|actions| - 1];
      LedgerTellsHistory(rows, before, p);
      RunKeeps(rows, before);
      StepTellsHistory(Run(Initial(rows), before), actions[|actions| - 1], p);
    }
  }

  /** What is in stock in every run: what was there plus what the run restocked, however it is split. */
  lemma StockIsInitialPlusRestocked(rows: Stock.Rows, actions: seq<Action>, p: ProductId)
    requires Stock.NonNegative(rows) && p in Run(Initial(rows), actions).inventory.db.rows
    ensures var row := Run(Initial(rows), actions).inventory.db.rows[p];
            row.available + row.reserved == Ledger.InitialTotal(rows, p) + RestockedBy(actions, p)
  {
    StockIsConserved(rows, actions, p);
    LedgerTellsHistory(rows, actions, p);
  }

  /** Every release along the run is of an order that still holds its lines, or meets no reserved stock at all. */
  ghost predicate ReleasesAreHarmless(rows: Stock.Rows, actions: seq<Action>, p: ProductId) {
    forall k :: 0 <= k < |actions| && Entry(Run(Initial(rows), actions[..k]), actions[k]).Some? ==>
      Ledger.Harmless(Run(Initial(rows), actions[..k]).book, Entry(Run(Initial(rows), actions[..k]), actions[k]).value, p)
  }

  ghost predicate ExactAllAlong(rows: Stock.Rows, actions: seq<Action>, p: ProductId) {
    forall k :: 0 <= k <= |actions| ==> Ledger.Exact(rows, Run(Initial(rows), actions[..k]).book, p)
  }

  lemma ExactStep(rows: Stock.Rows, actions: seq<Action>, k: nat, p: ProductId)
    requires Stock.NonNegative(rows) && k < |actions|
    requires Ledger.Exact(rows, Run(Initial(rows), actions[..k]).book, p)
    ensures Ledger.Exact(rows, Run(Initial(rows), actions[..k + 1]).book, p) <==>
            var s := Run(Initial(rows), actions[..k]);
            Entry(s, actions[k]).Some? ==> Ledger.Harmless(s.book, Entry(s, actions[k]).value, p)
  {
    var s := Run(Initial(rows), actions[..k]);
    assert actions[..k + 1][..k] == actions[..k];
    StockIsConserved(rows, actions[..k], p);
    RunKeeps(rows, actions[..k]);
    if Entry(s, actions[k]).Some? {
      ReleaseMatches(s, actions[k], p);
      Ledger.ExactIffHarmless(rows, s.book, Entry(s, actions[k]).value, p);
    }
  }

  lemma {:induction false} ExactUpTo(rows: Stock.Rows, actions: seq<Action>, k: nat, p: ProductId)
    requires Stock.NonNegative(rows) && k <= |actions| && ReleasesAreHarmless(rows, actions, p)
    ensures Ledger.Exact(rows, Run(Initial(rows), actions[..k]).book, p)
  {
    if k > 0 {
      ExactUpTo(rows, actions, k - 1, p);
      ExactStep(rows, actions, k - 1, p);
    }
  }

  /**
    The exact condition: reserved stock equals the outstanding order lines plus batch reservations
    throughout a run if and only if no release of the run takes stock its order does not hold.
  */
  lemma ExactIffReleasesHarmless(rows: Stock.Rows, actions: seq<Action>, p: ProductId)
    requires Stock.NonNegative(rows)
    ensures ExactAllAlong(rows, actions, p) <==> ReleasesAreHarmless(rows, actions, p)
  {
    if ReleasesAreHarmless(rows, actions, p) {
      forall k | 0 <= k <= |actions| ensures Ledger.Exact(rows, Run(Initial(rows), actions[..k]).book, p) {
        ExactUpTo(rows, actions, k, p);
      }
    }
    if ExactAllAlong(rows, actions, p) {
      forall k | 0 <= k < |actions| && Entry(Run(Initial(rows), actions[..k]), actions[k]).Some?
        ensures Ledger.Harmless(Run(Initial(rows), actions[..k]).book, Entry(Run(Initial(rows), actions[..k]), actions[k]).value, p)
      {
        ExactStep(rows, actions, k, p);
      }
    }
  }

  // ---------- what releases take in excess ----------

  /** What the action takes of the product beyond what the released order holds. */
  function ExcessOf(s: State, a: Action, p: ProductId): int {
    if Entry(s, a).Some? then Ledger.Excess(s.book, Entry(s, a).value, p) else 0
  }

  /** What the releases of a run have taken from others, less what others' releases found missing. */
  function Stolen(rows: Stock.Rows, actions: seq<Action>, p: ProductId): int {
    if |actions| == 0 then 0
    else
      var before := actions[..|actions| - 1];
      Stolen(rows, before, p) + ExcessOf(Run(Initial(rows), before), actions[|actions| - 1], p)
  }

  lemma StepBalances(start: Stock.Rows, s: State, a: Action, p: ProductId)
    requires Ledger.Conserved(start, s.book, p)
    ensures Ledger.Claimed(start, Step(s, a).book, p) - Ledger.ReservedOf(Step(s, a).book, p) ==
            Ledger.Claimed(start, s.book, p) - Ledger.ReservedOf(s.book, p) + ExcessOf(s, a, p)
  {
    if Entry(s, a).Some? { Ledger.PostBalances(start, s.book, Entry(s, a).value, p); }
  }

  lemma {:induction false} ClaimsBalance(rows: Stock.Rows, actions: seq<Action>, p: ProductId)
    requires Stock.NonNegative(rows)
    ensures Ledger.Claimed(rows, Run(Initial(rows), actions).book, p) ==
            Ledger.ReservedOf(Run(Initial(rows), actions).book, p) + Stolen(rows, actions, p)
  {
    if |actions| > 0 {
      var before := actions[..|actions| - 1];
      ClaimsBalance(rows, before, p);
      StockIsConserved(rows, before, p);
      StepBalances(rows, Run(Initial(rows), before), actions[|actions| - 1], p);
    }
  }

  /**
    In every run, with no condition on it: what orders and batches claim of a product is what is reserved
    of it plus what releases took in excess. So the ledger is exact exactly when that sum is nothing.
  */
  lemma ClaimsAreReservedOrStolen(rows: Stock.Rows, actions: seq<Action>, p: ProductId)
    requires Stock.NonNegative(rows)
    ensures var book := Run(Initial(rows), actions).book;
            Ledger.Claimed(rows, book, p) == Ledger.ReservedOf(book, p) + Stolen(rows, actions, p)
    ensures Ledger.Exact(rows, Run(Initial(rows), actions).book, p) <==> Stolen(rows, actions, p) == 0
  {
    ClaimsBalance(rows, actions, p);
    StockIsConserved(rows, actions, p);
  }

  /** Every release of the run moves exactly what its order holds. */
  ghost predicate ReleasesMoveWhatIsHeld(rows: Stock.Rows, actions: seq<Action>, p: ProductId) {
    forall k :: 0 <= k < |actions| ==> ExcessOf(Run(Initial(rows), actions[..k]), actions[k], p) == 0
  }

  lemma StolenOneMore(rows: Stock.Rows, actions: seq<Action>, k: nat, p: ProductId)
    requires k < |actions|
    ensures Stolen(rows, actions[..k + 1], p) ==
            Stolen(rows, actions[..k], p) + ExcessOf(Run(Initial(rows), actions[..k]), actions[k], p)
  {
    assert actions[..k + 1][..k] == actions[..k];
  }

  lemma {:induction false} NothingStolenUpTo(rows: Stock.Rows, actions: seq<Action>, k: nat, p: ProductId)
    requires ReleasesMoveWhatIsHeld(rows, actions, p) && k <= |actions|
    ensures Stolen(rows, actions[..k], p) == 0
  {
    if k > 0 {
      NothingStolenUpTo(rows, actions, k - 1, p);
      StolenOneMore(rows, actions, k - 1, p);
    }
  }

  /**
    The cap of a release never bites, and a release of an order that holds nothing moves nothing, throughout
    a run if and only if its releases are harmless.
  */
  lemma HarmlessIffReleasesMoveWhatIsHeld(rows: Stock.Rows, actions: seq<Action>, p: ProductId)
    requires Stock.NonNegative(rows)
    ensures ReleasesAreHarmless(rows, actions, p) <==> ReleasesMoveWhatIsHeld(rows, actions, p)
  {
    ExactIffReleasesHarmless(rows, actions, p);
    if ReleasesMoveWhatIsHeld(rows, actions, p) {
      forall k | 0 <= k <= |actions| ensures Ledger.Exact(rows, Run(Initial(rows), actions[..k]).book, p) {
        NothingStolenUpTo(rows, actions, k, p);
        ClaimsAreReservedOrStolen(rows, actions[..k], p);
      }
    }
    if ReleasesAreHarmless(rows, actions, p) {
      forall k | 0 <= k < |actions| ensures ExcessOf(Run(Initial(rows), actions[..k]), actions[k], p) == 0 {
        ExactUpTo(rows, actions, k, p);
        ExactUpTo(rows, actions, k + 1, p);
        ClaimsAreReservedOrStolen(rows, actions[..k], p);
        ClaimsAreReservedOrStolen(rows, actions[..k + 1], p);
        StolenOneMore(rows, actions, k, p);
      }
    }
  }

  /** With harmless releases every release of held lines moves the full demand it names. */
  lemma CapNeverBites(rows: Stock.Rows, actions: seq<Action>, k: nat, p: ProductId)
    requires Stock.NonNegative(rows) && ReleasesAreHarmless(rows, actions, p) && k < |actions|
    requires var s := Run(Initial(rows), actions[..k]);
             Entry(s, actions[k]).Some? && Entry(s, actions[k]).value.Release? && p in s.book.rows &&
             Ledger.HeldFor(s.book.held, Entry(s, actions[k]).value.order) != []
    ensures var s := Run(Initial(rows), actions[..k]);
            var lines := Entry(s, actions[k]).value.lines;
            Stock.Returned(s.book.rows[p], lines, p) == Demand(lines, p)
  {
    HarmlessIffReleasesMoveWhatIsHeld(rows, actions, p);
    RunKeeps(rows, actions[..k]);
    ReleaseMatches(Run(Initial(rows), actions[..k]), actions[k], p);
    assert ExcessOf(Run(Initial(rows), actions[..k]), actions[k], p) == 0;
  }

  lemma ChargedIsNotDeclined(db: Orders.Db, outcomes: seq<Event>, inbox: set<EventId>, o: OrderId)
    requires o in db.orders && Unique(outcomes, Outcome) && Says(outcomes, SuccessOf(db, o))
    ensures !Heard(outcomes, inbox, FailureOf(db, o))
  {
    if Heard(outcomes, inbox, FailureOf(db, o)) {
      var i :| 0 <= i < |outcomes| && outcomes[i].body == FailureOf(db, o) && outcomes[i].id in inbox;
      SaysOnce(outcomes, FailureOf(db, o), SuccessOf(db, o));
    }
  }

  /** A confirmed order's stock is never given back. */
  lemma ConfirmedStillHolds(s: State, o: OrderId)
    requires Inv(s) && o in s.orders.db.orders && s.orders.db.orders[o].status.Confirmed?
    ensures Ledger.HeldFor(s.book.held, o) == s.orders.db.orders[o].items
  {
    var db, answers, outcomes, inbox := s.orders.db, s.inventory.db.outbox, s.payments.db.outbox, s.inventory.inbox;
    assert StatusBacked(db, answers, outcomes, o);
    assert HoldsRight(db, answers, outcomes, inbox, s.book, o);
    ChargedIsNotDeclined(db, outcomes, inbox, o);
  }

  /** Confirmed demand of a product over a list of orders. */
  function ConfirmedDemand(orders: map<OrderId, Orders.Order>, ids: seq<OrderId>, p: ProductId): nat {
    if |ids| == 0 then 0
    else
      var o := ids[|ids| - 1];
      ConfirmedDemand(orders, ids[..|ids| - 1], p) +
      if o in orders && orders[o].status.Confirmed? then Demand(orders[o].items, p) else 0
  }

  lemma {:induction false} ConfirmedIsHeld(s: State, ids: seq<OrderId>, p: ProductId)
    requires Inv(s)
    ensures ConfirmedDemand(s.orders.db.orders, ids, p) <= Ledger.HeldByAll(s.book.held, ids, p)
  {
    if |ids| > 0 {
      var o := ids[|ids| - 1];
      ConfirmedIsHeld(s, ids[..|ids| - 1], p);
      if o in s.orders.db.orders && s.orders.db.orders[o].status.Confirmed? { ConfirmedStillHolds(s, o); }
    }
  }

  /** In every run confirmed quantities stay within initial plus restocked stock plus what was stolen. */
  lemma OversoldByStolenOnly(rows: Stock.Rows, actions: seq<Action>, ids: seq<OrderId>, p: ProductId)
    requires Stock.NonNegative(rows) && Orders.Distinct(ids)
    ensures var s := Run(Initial(rows), actions);
            ConfirmedDemand(s.orders.db.orders, ids, p) <=
            Ledger.InitialTotal(rows, p) + Demand(s.book.restocked, p) + Stolen(rows, actions, p)
  {
    var s := Run(Initial(rows), actions);
    RunKeeps(rows, actions);
    StockIsConserved(rows, actions, p);
    ClaimsAreReservedOrStolen(rows, actions, p);
    ConfirmedIsHeld(s, ids, p);
    Ledger.HeldByAllBounded(s.book.held, ids, p);
  }

  /** Without harmful releases a product is never oversold: confirmed quantities stay within initial plus restocked stock. */
  lemma NeverOversold(rows: Stock.Rows, actions: seq<Action>, ids: seq<OrderId>, p: ProductId)
    requires Stock.NonNegative(rows) && ReleasesAreHarmless(rows, actions, p) && Orders.Distinct(ids)
    ensures var s := Run(Initial(rows), actions);
            ConfirmedDemand(s.orders.db.orders, ids, p) <= Ledger.InitialTotal(rows, p) + Demand(s.book.restocked, p)
  {
    HarmlessIffReleasesMoveWhatIsHeld(rows, actions, p);
    NothingStolenUpTo(rows, actions, |actions|, p);
    assert actions[..|actions|] == actions;
    OversoldByStolenOnly(rows, actions, ids, p);
  }

  // ---------- quota ----------

  function OwnOrders(orders: map<OrderId, Orders.Order>, tenant: string): set<OrderId> {
    set o | o in orders && orders[o].tenant == tenant
  }

  /** Whether a new order is placed depends on the tenant's own orders only, and on keys. */
  lemma PlacedIffBelowQuota(db: Orders.Db, o: OrderId, buyer: Orders.Buyer, key: string, items: seq<Line>, now: int)
    requires o !in db.orders && !Orders.KeyUsed(db, key)
    ensures var after := Orders.Create(db, o, buyer, key, items, now).orders;
            (o in after <==> (buyer.limit.Some? ==> |OwnOrders(db.orders, buyer.tenant)| < buyer.limit.value)) &&
            (o in after ==> after[o].tenant == buyer.tenant)
  {
    assert OwnOrders(db.orders, buyer.tenant) == set q | q in db.orders && db.orders[q].tenant == buyer.tenant;
  }

  /** Every checkout of the tenant in the run carries the limit. */
  predicate Limited(actions: seq<Action>, tenant: string, limit: nat) {
    forall i :: 0 <= i < |actions| && actions[i].Create? && actions[i].buyer.tenant == tenant ==> actions[i].buyer.limit == Some(limit)
  }

  lemma TenantsStay(s: State, a: Action, tenant: string)
    requires !a.Create?
    ensures OwnOrders(Step(s, a).orders.db.orders, tenant) == OwnOrders(s.orders.db.orders, tenant)
  {
    if a.Sweep? { Orders.SweepBatchOrders(s.orders.db, a.selected, a.cutoff); }
  }

  lemma CreateStaysInQuota(s: State, a: Action, tenant: string, limit: nat)
    requires a.Create? && Limited([a], tenant, limit) && |OwnOrders(s.orders.db.orders, tenant)| <= limit
    ensures |OwnOrders(Step(s, a).orders.db.orders, tenant)| <= limit
  {
    var db, own := s.orders.db, OwnOrders(s.orders.db.orders, tenant);
    assert [a][0] == a;
    var after := OwnOrders(Step(s, a).orders.db.orders, tenant);
    if a.order !in db.orders && !Orders.KeyUsed(db, a.key) {
      PlacedIffBelowQuota(db, a.order, a.buyer, a.key, a.items, a.now);
      if a.order in Step(s, a).orders.db.orders && a.buyer.tenant == tenant {
        assert after == own + {a.order};
      } else {
        assert after == own;
      }
    } else {
      assert after == own;
    }
  }

  /** In every run a tenant whose checkouts carry a limit never has more orders than that, whatever others order. */
  lemma {:induction false} QuotaIsKept(rows: Stock.Rows, actions: seq<Action>, tenant: string, limit: nat)
    requires Limited(actions, tenant, limit)
    ensures |OwnOrders(Run(Initial(rows), actions).orders.db.orders, tenant)| <= limit
  {
    if |actions| == 0 {
      assert OwnOrders(Run(Initial(rows), actions).orders.db.orders, tenant) == {};
    } else {
      var before, a := actions[..|actions| - 1], actions[|actions| - 1];
      QuotaIsKept(rows, before, tenant, limit);
      if a.Create? { CreateStaysInQuota(Run(Initial(rows), before), a, tenant, limit); } else { TenantsStay(Run(Initial(rows), before), a, tenant); }
    }
  }

  // ---------- statuses only climb ----------

  function Rank(status: Orders.Status): nat {
    match status
    case Pending => 0
    case StockReserved => 1
    case _ => 2
  }

  /** An order stays, and its status stays or climbs; a terminal status is final. */
  predicate Climbs(before: map<OrderId, Orders.Order>, after: map<OrderId, Orders.Order>, o: OrderId) {
    o in before ==>
      o in after && (after[o].status == before[o].status || Rank(before[o].status) < Rank(after[o].status))
  }

  lemma StepClimbs(s: State, a: Action, o: OrderId)
    ensures Climbs(s.orders.db.orders, Step(s, a).orders.db.orders, o)
  {
    if a.Sweep? { Orders.SweepBatchOrders(s.orders.db, a.selected, a.cutoff); }
  }

  lemma {:induction false} StatusesClimb(s: State, actions: seq<Action>, o: OrderId)
    ensures Climbs(s.orders.db.orders, Run(s, actions).orders.db.orders, o)
  {
    if |actions| > 0 {
      var before := actions[..|actions| - 1];
      StatusesClimb(s, before, o);
      StepClimbs(Run(s, before), actions[|actions| - 1], o);
    }
  }
}
