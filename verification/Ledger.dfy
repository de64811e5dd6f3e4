/**
  A double-entry view of stock: what was reserved for which order and is not yet released, what was
  reserved in batches, and what was restocked, next to the rows the inventory service keeps.
*/
module Ledger {
  import opened Commerce
  import opened Stock

  datatype Entry =
    | Reserve(order: OrderId, lines: seq<Line>)
    | Release(order: OrderId, lines: seq<Line>)
    | Batch(lines: seq<Line>)
    | Restock(product: ProductId, quantity: nat)

  /** One reserved and not yet released line, with the order it was reserved for. */
  datatype Held = Held(order: OrderId, line: Line)

  datatype Book = Book(rows: Rows, held: seq<Held>, batches: seq<Line>, restocked: seq<Line>)

  function Tag(o: OrderId, lines: seq<Line>): seq<Held> {
    seq(|lines|, i requires 0 <= i < |lines| => Held(o, lines[i]))
  }

  /** The lines still held for one order. */
  function HeldFor(held: seq<Held>, o: OrderId): seq<Line> {
    if |held| == 0 then []
    else
      var h := held[|held| - 1];
      if h.order == o then HeldFor(held[..|held| - 1], o) + [h.line] else HeldFor(held[..|held| - 1], o)
  }

  function Without(held: seq<Held>, o: OrderId): seq<Held> {
    if |held| == 0 then []
    else
      var h := held[|held| - 1];
      if h.order == o then Without(held[..|held| - 1], o) else Without(held[..|held| - 1], o) + [h]
  }

  function HeldLines(held: seq<Held>): seq<Line> {
    seq(|held|, i requires 0 <= i < |held| => held[i].line)
  }

  function Outstanding(held: seq<Held>, p: ProductId): nat { Demand(HeldLines(held), p) }

  function Post(book: Book, entry: Entry): Book {
    match entry
    case Reserve(o, lines) =>
      Book(Attempt(book.rows, lines),
           if Fits(book.rows, lines) then book.held + Tag(o, lines) else book.held, book.batches, book.restocked)
    case Release(o, lines) =>
      book.(rows := Give(book.rows, lines), held := Without(book.held, o))
    case Batch(lines) =>
      if Fits(book.rows, lines) then book.(rows := Take(book.rows, lines), batches := book.batches + lines) else book
    case Restock(p, quantity) =>
      book.(rows := Restocked(book.rows, p, quantity), restocked := book.restocked + [Line(p, quantity, 0)])
  }

  function Opening(rows: Rows): Book { Book(rows, [], [], []) }

  function InitialTotal(rows: Rows, p: ProductId): int {
    if p in rows then rows[p].available + rows[p].reserved else 0
  }

  function InitialReserved(rows: Rows, p: ProductId): int { if p in rows then rows[p].reserved else 0 }

  /** Everything the ledger says is reserved of a product. */
  function Claimed(start: Rows, book: Book, p: ProductId): int {
    InitialReserved(start, p) + Outstanding(book.held, p) + Demand(book.batches, p)
  }

  /** Stock is neither created nor lost, never negative, and never reserved beyond what is claimed. */
  predicate Conserved(start: Rows, book: Book, p: ProductId) {
    InitialReserved(start, p) >= 0 &&
    if p in book.rows then
      var Row(available, reserved, _) := book.rows[p];
      && 0 <= available && 0 <= reserved <= Claimed(start, book, p)
      && available + reserved == InitialTotal(start, p) + Demand(book.restocked, p)
    else
      p !in start && Demand(book.restocked, p) == 0 && Claimed(start, book, p) == 0
  }

  /** The ledger matches the row: every claim is backed by reserved stock. */
  predicate Exact(start: Rows, book: Book, p: ProductId) {
    p in book.rows ==> book.rows[p].reserved == Claimed(start, book, p)
  }

  /** A release of an order that holds anything names at least what the order holds. */
  predicate Covers(book: Book, entry: Entry, p: ProductId) {
    entry.Release? ==> Demand(HeldFor(book.held, entry.order), p) <= Demand(entry.lines, p)
  }

  lemma HeldLinesConcat(a: seq<Held>, b: seq<Held>)
    ensures HeldLines(a + b) == HeldLines(a) + HeldLines(b)
  {
  }

  lemma HeldLinesOfTag(o: OrderId, lines: seq<Line>)
    ensures HeldLines(Tag(o, lines)) == lines
  {
  }

  /** Releasing an order removes exactly its own lines from what is outstanding. */
  lemma {:induction false} OutstandingSplits(held: seq<Held>, o: OrderId, p: ProductId)
    ensures Outstanding(held, p) == Outstanding(Without(held, o), p) + Demand(HeldFor(held, o), p)
  {
    if |held| > 0 {
      var n := |held| - 1;
      OutstandingSplits(held[..n], o, p);
      assert HeldLines(held)[..n] == HeldLines(held[..n]);
      HeldLinesConcat(Without(held[..n], o), [held[n]]);
      assert HeldLines([held[n]]) == [held[n].line];
      DemandOfConcat(HeldLines(Without(held[..n], o)), [held[n].line], p);
      DemandOfConcat(HeldFor(held[..n], o), [held[n].line], p);
    }
  }

  lemma OutstandingGrows(held: seq<Held>, o: OrderId, lines: seq<Line>, p: ProductId)
    ensures Outstanding(held + Tag(o, lines), p) == Outstanding(held, p) + Demand(lines, p)
  {
    HeldLinesConcat(held, Tag(o, lines));
    HeldLinesOfTag(o, lines);
    DemandOfConcat(HeldLines(held), lines, p);
  }

  lemma FitsFor(rows: Rows, lines: seq<Line>, p: ProductId)
    requires Fits(rows, lines)
    ensures p in rows && rows[p].available >= 0 ==> Demand(lines, p) <= rows[p].available
    ensures p !in rows ==> Demand(lines, p) == 0
  {
    HitsMeansNamed(lines, p);
    if Hits(lines, p) > 0 {
      var i :| 0 <= i < |lines| && lines[i].product == p;
    }
  }

  /** One entry keeps the conservation law, whatever the entry. */
  lemma PostConserves(start: Rows, book: Book, entry: Entry, p: ProductId)
    requires Conserved(start, book, p) && Covers(book, entry, p)
    ensures Conserved(start, Post(book, entry), p)
  {
    match entry {
      case Reserve(o, lines) =>
        if Fits(book.rows, lines) {
          FitsFor(book.rows, lines, p);
          OutstandingGrows(book.held, o, lines, p);
        }
      case Release(o, lines) =>
        OutstandingSplits(book.held, o, p);
        HitsMeansNamed(lines, p);
      case Batch(lines) =>
        if Fits(book.rows, lines) {
          FitsFor(book.rows, lines, p);
          DemandOfConcat(book.batches, lines, p);
        }
      case Restock(q, quantity) =>
        DemandOfConcat(book.restocked, [Line(q, quantity, 0)], p);
    }
  }

  function ReservedOf(book: Book, p: ProductId): int { if p in book.rows then book.rows[p].reserved else 0 }

  /**
    What a release takes beyond what its order holds. It is negative when less is left in the row than the
    order holds, because an earlier release has taken from it.
  */
  function Excess(book: Book, entry: Entry, p: ProductId): int {
    if entry.Release? && p in book.rows
    then Returned(book.rows[p], entry.lines, p) - Demand(HeldFor(book.held, entry.order), p)
    else 0
  }

  /** The gap between what is claimed and what is reserved moves by exactly what a release takes in excess. */
  lemma PostBalances(start: Rows, book: Book, entry: Entry, p: ProductId)
    requires Conserved(start, book, p)
    ensures Claimed(start, Post(book, entry), p) - ReservedOf(Post(book, entry), p) ==
            Claimed(start, book, p) - ReservedOf(book, p) + Excess(book, entry, p)
  {
    match entry {
      case Reserve(o, lines) =>
        if Fits(book.rows, lines) {
          FitsFor(book.rows, lines, p);
          OutstandingGrows(book.held, o, lines, p);
        }
      case Release(o, lines) =>
        OutstandingSplits(book.held, o, p);
      case Batch(lines) =>
        if Fits(book.rows, lines) {
          FitsFor(book.rows, lines, p);
          DemandOfConcat(book.batches, lines, p);
        }
      case Restock(q, quantity) =>
        DemandOfConcat(book.restocked, [Line(q, quantity, 0)], p);
    }
  }

  /**
    When a release is harmless: what it would move is what the order still holds. An order that
    holds nothing is released harmlessly only if nothing of the product is reserved at all.
  */
  predicate Harmless(book: Book, entry: Entry, p: ProductId) {
    entry.Release? && p in book.rows && Demand(entry.lines, p) > 0 ==>
      HeldFor(book.held, entry.order) != [] || book.rows[p].reserved == 0
  }

  /** An order holds either nothing or exactly what its release names. */
  predicate AllOrNothing(book: Book, entry: Entry, p: ProductId) {
    entry.Release? ==>
      HeldFor(book.held, entry.order) == [] || Demand(HeldFor(book.held, entry.order), p) == Demand(entry.lines, p)
  }

  /** From an exact ledger, an entry leads to an exact ledger if and only if it is harmless. */
  lemma ExactIffHarmless(start: Rows, book: Book, entry: Entry, p: ProductId)
    requires Conserved(start, book, p) && AllOrNothing(book, entry, p) && Exact(start, book, p)
    ensures Exact(start, Post(book, entry), p) <==> Harmless(book, entry, p)
  {
    match entry {
      case Reserve(o, lines) =>
        OutstandingGrows(book.held, o, lines, p);
      case Release(o, lines) =>
        OutstandingSplits(book.held, o, p);
        HitsMeansNamed(lines, p);
      case Batch(lines) =>
        DemandOfConcat(book.batches, lines, p);
      case Restock(q, quantity) =>
        DemandOfConcat(book.restocked, [Line(q, quantity, 0)], p);
    }
  }

  lemma {:induction false} HeldForConcat(a: seq<Held>, b: seq<Held>, o: OrderId)
    ensures HeldFor(a + b, o) == HeldFor(a, o) + HeldFor(b, o)
  {
    if b == [] {
      assert a + b == a;
    } else {
      var n := |b| - 1;
      HeldForConcat(a, b[..n], o);
      assert (a + b)[..|a + b| - 1] == a + b[..n];
    }
  }

  lemma {:induction false} HeldForTag(o: OrderId, lines: seq<Line>, q: OrderId)
    ensures HeldFor(Tag(o, lines), q) == if q == o then lines else []
  {
    if |lines| > 0 {
      var n := |lines| - 1;
      HeldForTag(o, lines[..n], q);
      assert Tag(o, lines)[..n] == Tag(o, lines[..n]);
    }
  }

  lemma {:induction false} HeldForWithout(held: seq<Held>, o: OrderId, q: OrderId)
    ensures HeldFor(Without(held, o), q) == if q == o then [] else HeldFor(held, q)
  {
    if |held| > 0 {
      var n := |held| - 1;
      HeldForWithout(held[..n], o, q);
      HeldForConcat(Without(held[..n], o), [held[n]], q);
    }
  }

  /** Summed demand of what a list of orders holds. */
  function HeldByAll(held: seq<Held>, orders: seq<OrderId>, p: ProductId): nat {
    if |orders| == 0 then 0
    else HeldByAll(held, orders[..|orders| - 1], p) + Demand(HeldFor(held, orders[|orders| - 1]), p)
  }

  lemma {:induction false} HeldByOthers(held: seq<Held>, orders: seq<OrderId>, o: OrderId, p: ProductId)
    requires o !in orders
    ensures HeldByAll(Without(held, o), orders, p) == HeldByAll(held, orders, p)
  {
    if |orders| > 0 {
      HeldByOthers(held, orders[..|orders| - 1], o, p);
      HeldForWithout(held, o, orders[|orders| - 1]);
    }
  }

  /** Distinct orders cannot hold more than is outstanding. */
  lemma {:induction false} HeldByAllBounded(held: seq<Held>, orders: seq<OrderId>, p: ProductId)
    requires forall i, j :: 0 <= i < j < |orders| ==> orders[i] != orders[j]
    ensures HeldByAll(held, orders, p) <= Outstanding(held, p)
    decreases |orders|
  {
    if |orders| > 0 {
      var n := |orders| - 1;
      OutstandingSplits(held, orders[n], p);
      HeldByOthers(held, orders[..n], orders[n], p);
      HeldByAllBounded(Without(held, orders[n]), orders[..n], p);
    }
  }
}
