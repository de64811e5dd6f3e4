/** Values shared by the order, inventory and payment services: order lines and domain events. */
module Commerce {
  type ProductId = nat
  type OrderId = nat

  datatype Option<+T> = None | Some(value: T)

  /** One payload item. Prices are whole cents; an item without a price counts as 0. */
  datatype Line = Line(product: ProductId, quantity: nat, unitPrice: nat)

  datatype Service = OrderService | InventoryService | PaymentService

  /** A fresh event id: the n-th row a service ever wrote to its outbox. */
  datatype EventId = EventId(source: Service, n: nat)

  datatype Body =
    | OrderCreated(order: OrderId, total: nat, items: seq<Line>)
    | OrderCancelled(order: OrderId, items: seq<Line>)
    | InventoryReserved(order: OrderId, items: seq<Line>)
    | InventoryReserveFailed(order: OrderId)
    | InventoryReleased(order: OrderId)
    | PaymentSuccess(order: OrderId, items: seq<Line>)
    | PaymentFailed(order: OrderId, items: seq<Line>)

  datatype Event = Event(id: EventId, body: Body)

  /** A delivery of an event; `declined` is the card outcome if the delivery leads to a charge. */
  datatype Message = Message(event: Event, declined: bool)

  /** Appends one event to a service's outbox. */
  function Write(outbox: seq<Event>, source: Service, body: Body): seq<Event> {
    outbox + [Event(EventId(source, |outbox|), body)]
  }

  /** Total price of a list of lines. */
  function Total(lines: seq<Line>): nat {
    if |lines| == 0 then 0
    else Total(lines[..|lines| - 1]) + lines[|lines| - 1].quantity * lines[|lines| - 1].unitPrice
  }

  /** The prices of single units: one for every unit of every line. */
  function UnitPrices(lines: seq<Line>): seq<nat> {
    if |lines| == 0 then []
    else seq(lines[0].quantity, _ => lines[0].unitPrice) + UnitPrices(lines[1..])
  }

  function Sum(prices: seq<nat>): nat {
    if |prices| == 0 then 0 else prices[0] + Sum(prices[1..])
  }

  lemma {:induction false} SumOfConcat(a: seq<nat>, b: seq<nat>)
    ensures Sum(a + b) == Sum(a) + Sum(b)
  {
    if a == [] {
      assert a + b == b;
    } else {
      SumOfConcat(a[1..], b);
      assert (a + b)[1..] == a[1..] + b;
    }
  }

  lemma {:induction false} SumOfEqual(quantity: nat, price: nat)
    ensures Sum(seq(quantity, _ => price)) == quantity * price
  {
    if quantity > 0 {
      SumOfEqual(quantity - 1, price);
      assert seq(quantity, _ => price)[1..] == seq(quantity - 1, _ => price);
      assert quantity * price == (quantity - 1) * price + price;
    }
  }

  lemma {:induction false} TotalOfConcat(a: seq<Line>, b: seq<Line>)
    ensures Total(a + b) == Total(a) + Total(b)
  {
    if b == [] {
      assert a + b == a;
    } else {
      TotalOfConcat(a, b[..|b| - 1]);
      assert (a + b)[..|a + b| - 1] == a + b[..|b| - 1];
    }
  }

  /** A total is the price of every single unit ordered, added up. */
  lemma {:induction false} TotalIsPerUnit(lines: seq<Line>)
    ensures Total(lines) == Sum(UnitPrices(lines))
  {
    if lines != [] {
      TotalIsPerUnit(lines[1..]);
      TotalOfConcat([lines[0]], lines[1..]);
      assert [lines[0]] + lines[1..] == lines && [lines[0]][..0] == [];
      SumOfEqual(lines[0].quantity, lines[0].unitPrice);
      SumOfConcat(seq(lines[0].quantity, _ => lines[0].unitPrice), UnitPrices(lines[1..]));
    }
  }

  /** The items of a compensation event: product and quantity only. */
  function Unpriced(lines: seq<Line>): seq<Line> {
    seq(|lines|, i requires 0 <= i < |lines| => Line(lines[i].product, lines[i].quantity, 0))
  }

  /** Summed quantity of a product over a list of lines. */
  function Demand(lines: seq<Line>, p: ProductId): nat {
    if |lines| == 0 then 0
    else Demand(lines[..|lines| - 1], p) +
         if lines[|lines| - 1].product == p then lines[|lines| - 1].quantity else 0
  }

  /** How many lines name a product. */
  function Hits(lines: seq<Line>, p: ProductId): nat {
    if |lines| == 0 then 0
    else Hits(lines[..|lines| - 1], p) + if lines[|lines| - 1].product == p then 1 else 0
  }

  lemma {:induction false} DemandOfPrefix(lines: seq<Line>, k: nat, p: ProductId)
    requires k <= |lines|
    ensures Demand(lines[..k], p) <= Demand(lines, p)
  {
    if k < |lines| {
      DemandOfPrefix(lines[..|lines| - 1], k, p);
      assert lines[..|lines| - 1][..k] == lines[..k];
    } else {
      assert lines[..k] == lines;
    }
  }

  lemma {:induction false} DemandOfConcat(a: seq<Line>, b: seq<Line>, p: ProductId)
    ensures Demand(a + b, p) == Demand(a, p) + Demand(b, p)
    ensures Hits(a + b, p) == Hits(a, p) + Hits(b, p)
  {
    if b == [] {
      assert a + b == a;
    } else {
      DemandOfConcat(a, b[..|b| - 1], p);
      assert (a + b)[..|a + b| - 1] == a + b[..|b| - 1];
    }
  }

  lemma {:induction false} DemandIgnoresPrices(lines: seq<Line>, p: ProductId)
    ensures Demand(Unpriced(lines), p) == Demand(lines, p)
    ensures Hits(Unpriced(lines), p) == Hits(lines, p)
  {
    if |lines| > 0 {
      DemandIgnoresPrices(lines[..|lines| - 1], p);
      assert Unpriced(lines)[..|lines| - 1] == Unpriced(lines[..|lines| - 1]);
    }
  }

  /** A product that is not named is not demanded. */
  lemma {:induction false} HitsMeansNamed(lines: seq<Line>, p: ProductId)
    ensures Hits(lines, p) == 0 ==> Demand(lines, p) == 0
    ensures Hits(lines, p) > 0 <==> exists i :: 0 <= i < |lines| && lines[i].product == p
  {
    if |lines| > 0 {
      var n := |lines| - 1;
      HitsMeansNamed(lines[..n], p);
      if exists i :: 0 <= i < |lines| && lines[i].product == p {
        var i :| 0 <= i < |lines| && lines[i].product == p;
        assert i < n ==> lines[..n][i].product == p;
      }
      if Hits(lines[..n], p) > 0 {
        var i :| 0 <= i < n && lines[..n][i].product == p;
        assert lines[i].product == p;
      }
    }
  }

  lemma DemandWithout(b: seq<Line>, i: nat, p: ProductId)
    requires i < |b|
    ensures Demand(b, p) == Demand(b[..i] + b[i + 1..], p) + if b[i].product == p then b[i].quantity else 0
  {
    DemandOfConcat(b[..i], b[i + 1..], p);
    DemandOfConcat(b[..i] + [b[i]], b[i + 1..], p);
    assert (b[..i] + [b[i]])[..i] == b[..i];
    assert b == b[..i] + [b[i]] + b[i + 1..];
  }

  lemma LinesWithout(b: seq<Line>, i: nat)
    requires i < |b|
    ensures multiset(b[..i] + b[i + 1..]) == multiset(b) - multiset{b[i]}
  {
    assert b == b[..i] + [b[i]] + b[i + 1..];
  }

  /** Demand does not depend on the order of the lines. */
  lemma {:induction false} DemandOfPermutation(a: seq<Line>, b: seq<Line>, p: ProductId)
    requires multiset(a) == multiset(b)
    ensures Demand(a, p) == Demand(b, p)
  {
    if |a| == 0 {
      assert |multiset(b)| == |b|;
    } else {
      var n := |a| - 1;
      assert a[n] in multiset(b);
      var i :| 0 <= i < |b| && b[i] == a[n];
      DemandWithout(a, n, p);
      DemandWithout(b, i, p);
      var rest := b[..i] + b[i + 1..];
      assert a[..n] + a[n + 1..] == a[..n];
      LinesWithout(a, n);
      LinesWithout(b, i);
      DemandOfPermutation(a[..n], rest, p);
    }
  }
}
