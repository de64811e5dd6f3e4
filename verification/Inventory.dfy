/** The inventory service: its event handlers and its two stock operations, on rows updated in place. */
module Inventory {
  import opened Commerce
  import opened Stock
  import Messaging

  datatype Db = Db(rows: Rows, outbox: seq<Event>)

  datatype BatchResult = Reserved | Insufficient | Conflict

  predicate Accepts(m: Message) {
    m.event.body.OrderCreated? || m.event.body.PaymentFailed? || m.event.body.OrderCancelled?
  }

  function Handle(db: Db, m: Message): Db {
    match m.event.body
    case OrderCreated(o, _, items) =>
      Db(Attempt(db.rows, items),
         Write(db.outbox, InventoryService, if Fits(db.rows, items) then InventoryReserved(o, items) else InventoryReserveFailed(o)))
    case PaymentFailed(o, items) => Db(Give(db.rows, items), Write(db.outbox, InventoryService, InventoryReleased(o)))
    case OrderCancelled(o, items) => Db(Give(db.rows, items), Write(db.outbox, InventoryService, InventoryReleased(o)))
    case _ => db
  }

  /** The view that attempt i of a batch works on. */
  function View(rows: Rows, meanwhile: seq<Rows>, i: nat): Rows
    requires i <= |meanwhile|
  {
    if i == 0 then rows else meanwhile[i - 1]
  }

  /** The result of a batch and the rows it leaves, attempt by attempt. */
  function Batch(rows: Rows, items: seq<Line>, maxRetries: nat, meanwhile: seq<Rows>): (BatchResult, Rows)
    decreases maxRetries
  {
    if maxRetries == 0 then (Conflict, rows)
    else if !Fits(rows, items) then (Insufficient, rows)
    else if meanwhile == [] then (Reserved, Stock.Take(rows, items))
    else Batch(meanwhile[0], items, maxRetries - 1, meanwhile[1..])
  }

  /** Only the first i attempts' views are known to fit. */
  predicate FitBefore(rows: Rows, meanwhile: seq<Rows>, items: seq<Line>, i: nat)
    requires i <= |meanwhile| + 1
  {
    forall a: nat :: a < i ==> Fits(View(rows, meanwhile, a), items)
  }

  class Service {
    var rows: Rows
    var outbox: seq<Event>
    var inbox: set<EventId>

    ghost function Node(): Messaging.Node<Db>
      reads this
    {
      Messaging.Node(Db(rows, outbox), inbox)
    }

    constructor (rows: Rows)
      ensures Node() == Messaging.Node(Db(rows, []), {})
    {
      this.rows, outbox, inbox := rows, [], {};
    }

    /** One delivery whose transaction commits. */
    method HandleEvent(m: Message)
      modifies this
      ensures Node() == Messaging.Receive(Accepts, Handle, old(Node()), m)
    {
      if m.event.id in inbox {
        return;
      }
      match m.event.body {
        case OrderCreated(o, _, items) => HandleOrderCreated(o, items);
        case PaymentFailed(o, items) => HandleReleaseStock(o, items, |items|);
        case OrderCancelled(o, items) => HandleReleaseStock(o, items, |items|);
        case _ => return;
      }
      inbox := inbox + {m.event.id};
    }

    method HandleOrderCreated(o: OrderId, items: seq<Line>)
      modifies this`rows, this`outbox
      ensures rows == Attempt(old(rows), items)
      ensures outbox == Write(old(outbox), InventoryService,
                              if Fits(old(rows), items) then InventoryReserved(o, items) else InventoryReserveFailed(o))
    {
      ReservesAllIffFits(rows, items);
      var k := TakeLines(items);
      if k < |items| {
        UndoLines(old(rows), items[..k]);
        outbox := Write(outbox, InventoryService, InventoryReserveFailed(o));
      } else {
        assert items[..k] == items;
        outbox := Write(outbox, InventoryService, InventoryReserved(o, items));
      }
    }

    /** Deducts line after line and stops at the first line that cannot be served. */
    method TakeLines(items: seq<Line>) returns (k: nat)
      modifies this`rows
      ensures k == FirstFailure(old(rows), items, 0)
      ensures rows == Stock.Take(old(rows), items[..k])
    {
      k := 0;
      while k < |items|
        invariant k <= |items|
        invariant rows == Stock.Take(old(rows), items[..k])
        invariant FirstFailure(old(rows), items, 0) == FirstFailure(old(rows), items, k)
      {
        var Line(p, quantity, _) := items[k];
        if p !in rows || rows[p].available < quantity {
          return;
        }
        forall q { DemandStep(items, k, q); }
        rows := rows[p := Row(rows[p].available - quantity, rows[p].reserved + quantity, rows[p].version + 1)];
        k := k + 1;
      }
    }

    /** The compensating loop: puts the deducted lines back, one by one. */
    method UndoLines(ghost before: Rows, reserved: seq<Line>)
      requires rows == Stock.Take(before, reserved)
      modifies this`rows
      ensures rows == Bump(before, reserved, 2)
    {
      var j := 0;
      while j < |reserved|
        invariant j <= |reserved|
        invariant rows == HalfUndone(before, reserved, j)
      {
        var Line(p, quantity, _) := reserved[j];
        UndoOneMore(before, reserved, j);
        if p in rows {
          rows := rows[p := Row(rows[p].available + quantity, rows[p].reserved - quantity, rows[p].version + 1)];
        }
        j := j + 1;
      }
      assert reserved[..j] == reserved;
    }

    /**
      The capped release. `lockedOut` is the line whose lock is not granted, past the end if all are: the
      handler swallows the timeout, keeps what it released so far and writes no event.
    */
    method HandleReleaseStock(o: OrderId, items: seq<Line>, lockedOut: nat)
      modifies this`rows, this`outbox
      ensures rows == Give(old(rows), if lockedOut < |items| then items[..lockedOut] else items)
      ensures outbox == if lockedOut < |items| then old(outbox) else Write(old(outbox), InventoryService, InventoryReleased(o))
    {
      var k := 0;
      while k < |items|
        invariant k <= |items| && k <= lockedOut
        invariant outbox == old(outbox)
        invariant rows == Give(old(rows), items[..k])
      {
        if k == lockedOut {
          return;
        }
        GiveOneMore(old(rows), items, k);
        GiveLine(items[k]);
        k := k + 1;
      }
      assert items[..k] == items;
      outbox := Write(outbox, InventoryService, InventoryReleased(o));
    }

    /** The body of the release loop; a product without a row is passed over. */
    method GiveLine(line: Line)
      modifies this`rows
      ensures rows == OneLineGiven(old(rows), line)
    {
      var Line(p, quantity, _) := line;
      if p in rows {
        var back := Min(rows[p].reserved, quantity);
        rows := rows[p := Row(rows[p].available + back, rows[p].reserved - back, rows[p].version + 1)];
      }
    }

    method Restock(p: ProductId, quantity: nat)
      modifies this`rows
      ensures rows == Restocked(old(rows), p, quantity)
    {
      if p !in rows {
        rows := rows[p := Row(quantity, 0, 1)];
      } else {
        rows := rows[p := rows[p].(available := rows[p].available + quantity, version := rows[p].version + 1)];
      }
    }

    /**
      Reserves a batch with retries. `rows` is the transaction's view, each row read at a moment of its own;
      meanwhile[i] is the view read anew after attempt i turned out stale, any rows at all, and an attempt
      past the end of meanwhile meets no conflict. A stale attempt and an attempt short of stock are rolled
      back to their savepoint, versions included.
    */
    method ReserveBatch(items: seq<Line>, maxRetries: nat, meanwhile: seq<Rows>) returns (result: BatchResult)
      modifies this`rows
      ensures result.Reserved? <==> |meanwhile| < maxRetries && FitBefore(old(rows), meanwhile, items, |meanwhile| + 1)
      ensures result.Reserved? ==> rows == Stock.Take(View(old(rows), meanwhile, |meanwhile|), items)
      ensures result.Conflict? <==> |meanwhile| >= maxRetries && FitBefore(old(rows), meanwhile, items, maxRetries)
      ensures result.Conflict? ==> rows == View(old(rows), meanwhile, maxRetries)
      ensures result.Insufficient? ==>
                exists a: nat :: a <= |meanwhile| && a < maxRetries && FitBefore(old(rows), meanwhile, items, a) &&
                                 rows == View(old(rows), meanwhile, a) && !Fits(rows, items)
      ensures (result, rows) == Batch(old(rows), items, maxRetries, meanwhile)
    {
      var attempt := 0;
      while attempt < maxRetries
        invariant attempt <= maxRetries && attempt <= |meanwhile|
        invariant rows == View(old(rows), meanwhile, attempt)
        invariant FitBefore(old(rows), meanwhile, items, attempt)
        invariant Batch(old(rows), items, maxRetries, meanwhile) == Batch(rows, items, maxRetries - attempt, meanwhile[attempt..])
      {
        var savepoint := rows;
        ReservesAllIffFits(rows, items);
        var k := TakeLines(items);
        if k < |items| {
          rows := savepoint;
          return Insufficient;
        }
        assert items[..k] == items;
        if attempt == |meanwhile| {
          return Reserved;
        }
        rows := meanwhile[attempt];
        attempt := attempt + 1;
      }
      result := Conflict;
    }
  }

  /** All lines taken and the first j put back. */
  ghost function HalfUndone(before: Rows, reserved: seq<Line>, j: nat): Rows
    requires j <= |reserved|
  {
    map p | p in before ::
      Row(before[p].available - Demand(reserved, p) + Demand(reserved[..j], p),
          before[p].reserved + Demand(reserved, p) - Demand(reserved[..j], p),
          before[p].version + Hits(reserved, p) + Hits(reserved[..j], p))
  }

  lemma UndoOneMore(before: Rows, reserved: seq<Line>, j: nat)
    requires j < |reserved|
    ensures var half, p, q := HalfUndone(before, reserved, j), reserved[j].product, reserved[j].quantity;
            HalfUndone(before, reserved, j + 1) ==
            if p !in before then half
            else half[p := Row(half[p].available + q, half[p].reserved - q, half[p].version + 1)]
  {
    forall q { DemandStep(reserved, j, q); }
  }

  /** A capped move of one line. */
  function OneLineGiven(rows: Rows, line: Line): Rows {
    if line.product !in rows then rows
    else
      var row := rows[line.product];
      var back := Min(row.reserved, line.quantity);
      rows[line.product := Row(row.available + back, row.reserved - back, row.version + 1)]
  }

  /** Releasing one more line is a capped move of that line alone. */
  lemma GiveOneMore(rows: Rows, items: seq<Line>, k: nat)
    requires k < |items|
    ensures Give(rows, items[..k + 1]) == OneLineGiven(Give(rows, items[..k]), items[k])
  {
    forall q { DemandStep(items, k, q); }
    HitsMeansNamed(items[..k], items[k].product);
  }

  /**
    Wherever a batch ends without exhausting its retries, it ends on some view as the order handler
    would: it succeeds exactly when the handler would reserve the same lines on that view, and both
    leave the same stock levels, although one rolls back to a savepoint and the other undoes line by line.
  */
  lemma {:induction false} BatchRollbackAgrees(rows: Rows, items: seq<Line>, maxRetries: nat, meanwhile: seq<Rows>, m: Message, outbox: seq<Event>)
    requires m.event.body.OrderCreated? && m.event.body.items == items
    requires !Batch(rows, items, maxRetries, meanwhile).0.Conflict?
    ensures exists a: nat :: a <= |meanwhile| &&
              var (result, after) := Batch(rows, items, maxRetries, meanwhile);
              var handled := Handle(Db(View(rows, meanwhile, a), outbox), m);
              Levels(after) == Levels(handled.rows) &&
              (result.Reserved? <==> handled.outbox[|outbox|].body == InventoryReserved(m.event.body.order, items)) &&
              (result.Insufficient? <==> handled.outbox[|outbox|].body == InventoryReserveFailed(m.event.body.order))
    decreases maxRetries
  {
    if !Fits(rows, items) || meanwhile == [] {
      assert View(rows, meanwhile, 0) == rows;
    } else {
      BatchRollbackAgrees(meanwhile[0], items, maxRetries - 1, meanwhile[1..], m, outbox);
      var (result, after) := Batch(rows, items, maxRetries, meanwhile);
      var a: nat :| a <= |meanwhile| - 1 &&
        var handled := Handle(Db(View(meanwhile[0], meanwhile[1..], a), outbox), m);
        Levels(after) == Levels(handled.rows) &&
        (result.Reserved? <==> handled.outbox[|outbox|].body == InventoryReserved(m.event.body.order, items)) &&
        (result.Insufficient? <==> handled.outbox[|outbox|].body == InventoryReserveFailed(m.event.body.order));
      assert View(rows, meanwhile, a + 1) == View(meanwhile[0], meanwhile[1..], a);
    }
  }
}
