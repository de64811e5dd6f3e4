/**
  Stock rows and what the inventory service does to them.
  The closed forms here are the specification of the loops in the class Inventory.
*/
module Stock {
  import opened Commerce

  datatype Row = Row(available: int, reserved: int, version: int)

  type Rows = map<ProductId, Row>

  /** The part of a row that is stock; the version only serves the optimistic check. */
  datatype Level = Level(available: int, reserved: int)

  function Levels(rows: Rows): map<ProductId, Level> {
    map p | p in rows :: Level(rows[p].available, rows[p].reserved)
  }

  predicate NonNegative(rows: Rows) {
    forall p :: p in rows ==> rows[p].available >= 0 && rows[p].reserved >= 0
  }

  function Min(a: int, b: int): int { if a <= b then a else b }

  /** Every line names a product with a row. */
  predicate Known(rows: Rows, lines: seq<Line>) {
    forall i :: 0 <= i < |lines| ==> lines[i].product in rows
  }

  /** The summed demand of each product fits what is available. */
  predicate Fits(rows: Rows, lines: seq<Line>) {
    Known(rows, lines) &&
    forall i :: 0 <= i < |lines| ==> Demand(lines, lines[i].product) <= rows[lines[i].product].available
  }

  /** Moves the demand of the lines from available to reserved. */
  function Take(rows: Rows, lines: seq<Line>): Rows {
    map p | p in rows :: Row(rows[p].available - Demand(lines, p),
                             rows[p].reserved + Demand(lines, p),
                             rows[p].version + Hits(lines, p))
  }

  /** Leaves the stock alone; a version moves once for every time a line is applied or undone. */
  function Bump(rows: Rows, lines: seq<Line>, times: nat): Rows {
    map p | p in rows :: rows[p].(version := rows[p].version + times * Hits(lines, p))
  }

  /** What a release puts back into a row: the demand, capped by what is reserved. */
  function Returned(row: Row, lines: seq<Line>, p: ProductId): int {
    if Hits(lines, p) == 0 then 0 else Min(row.reserved, Demand(lines, p))
  }

  /** Moves the demand of the lines back. */
  function Give(rows: Rows, lines: seq<Line>): Rows {
    map p | p in rows ::
      var back := Returned(rows[p], lines, p);
      Row(rows[p].available + back, rows[p].reserved - back, rows[p].version + Hits(lines, p))
  }

  /** Adds stock, creating the row when there is none. */
  function Restocked(rows: Rows, p: ProductId, quantity: nat): Rows {
    if p in rows
    then rows[p := rows[p].(available := rows[p].available + quantity, version := rows[p].version + 1)]
    else rows[p := Row(quantity, 0, 1)]
  }

  /** The first line that the rows, already reduced by the lines before it, cannot serve. */
  predicate FailsAt(rows: Rows, lines: seq<Line>, k: nat) {
    k < |lines| &&
    (lines[k].product !in rows ||
     rows[lines[k].product].available - Demand(lines[..k], lines[k].product) < lines[k].quantity)
  }

  function FirstFailure(rows: Rows, lines: seq<Line>, from: nat): (k: nat)
    requires from <= |lines|
    ensures from <= k <= |lines|
    ensures k < |lines| ==> FailsAt(rows, lines, k)
    ensures forall j :: from <= j < k ==> !FailsAt(rows, lines, j)
    decreases |lines| - from
  {
    if from == |lines| || FailsAt(rows, lines, from) then from else FirstFailure(rows, lines, from + 1)
  }

  /** The rows after an attempt to reserve: all of it, or only version bumps. */
  function Attempt(rows: Rows, lines: seq<Line>): Rows {
    if Fits(rows, lines) then Take(rows, lines)
    else Bump(rows, lines[..FirstFailure(rows, lines, 0)], 2)
  }

  lemma DemandStep(lines: seq<Line>, k: nat, p: ProductId)
    requires k < |lines|
    ensures Demand(lines[..k + 1], p) == Demand(lines[..k], p) + if lines[k].product == p then lines[k].quantity else 0
    ensures Hits(lines[..k + 1], p) == Hits(lines[..k], p) + if lines[k].product == p then 1 else 0
  {
    assert lines[..k + 1][..k] == lines[..k];
  }

  /** If no line fails in turn, every prefix's demand is served, product by product. */
  lemma {:induction false} NoFailureFits(rows: Rows, lines: seq<Line>, k: nat, p: ProductId)
    requires k <= |lines|
    requires forall j :: 0 <= j < k ==> !FailsAt(rows, lines, j)
    ensures Hits(lines[..k], p) > 0 ==> p in rows && Demand(lines[..k], p) <= rows[p].available
  {
    if k > 0 {
      NoFailureFits(rows, lines, k - 1, p);
      DemandStep(lines, k - 1, p);
      assert !FailsAt(rows, lines, k - 1);
    }
  }

  /**
    The line-by-line loop succeeds exactly when the summed demand of every product fits,
    repeated products included.
  */
  lemma ReservesAllIffFits(rows: Rows, lines: seq<Line>)
    ensures FirstFailure(rows, lines, 0) == |lines| <==> Fits(rows, lines)
  {
    var k := FirstFailure(rows, lines, 0);
    if k == |lines| {
      assert lines[..k] == lines;
      forall i | 0 <= i < |lines|
        ensures lines[i].product in rows && Demand(lines, lines[i].product) <= rows[lines[i].product].available
      {
        HitsMeansNamed(lines, lines[i].product);
        NoFailureFits(rows, lines, k, lines[i].product);
      }
    } else {
      var p := lines[k].product;
      DemandStep(lines, k, p);
      DemandOfPrefix(lines, k + 1, p);
    }
  }

  /** A failed attempt leaves every stock level as it was and moves no version backwards. */
  lemma FailedAttemptUndoesItself(rows: Rows, lines: seq<Line>)
    requires !Fits(rows, lines)
    ensures Levels(Attempt(rows, lines)) == Levels(rows)
    ensures forall p :: p in rows ==> Attempt(rows, lines)[p].version >= rows[p].version
  {
  }

  /** Any order of the same lines reserves the same stock, or fails alike. */
  lemma ReservationIgnoresLineOrder(rows: Rows, a: seq<Line>, b: seq<Line>)
    requires multiset(a) == multiset(b)
    ensures Fits(rows, a) == Fits(rows, b)
    ensures Levels(Attempt(rows, a)) == Levels(Attempt(rows, b))
  {
    forall p ensures Demand(a, p) == Demand(b, p) { DemandOfPermutation(a, b, p); }
    FitsOneWay(rows, a, b);
    FitsOneWay(rows, b, a);
  }

  lemma FitsOneWay(rows: Rows, a: seq<Line>, b: seq<Line>)
    requires multiset(a) == multiset(b)
    requires forall p :: Demand(a, p) == Demand(b, p)
    ensures Fits(rows, a) ==> Fits(rows, b)
  {
    if Fits(rows, a) {
      forall i | 0 <= i < |b|
        ensures b[i].product in rows && Demand(b, b[i].product) <= rows[b[i].product].available
      {
        assert b[i] in multiset(a);
        var j :| 0 <= j < |a| && a[j] == b[i];
      }
    }
  }

  /** Reserving and then releasing the same lines restores every level. */
  lemma GiveUndoesTake(rows: Rows, lines: seq<Line>)
    requires NonNegative(rows) && Fits(rows, lines)
    ensures NonNegative(Take(rows, lines))
    ensures Levels(Give(Take(rows, lines), lines)) == Levels(rows)
  {
    TakeKeepsStock(rows, lines);
    forall p { HitsMeansNamed(lines, p); }
  }

  lemma TakeKeepsStock(rows: Rows, lines: seq<Line>)
    requires NonNegative(rows) && Fits(rows, lines)
    ensures NonNegative(Take(rows, lines))
  {
    forall p | p in rows ensures Demand(lines, p) <= rows[p].available {
      HitsMeansNamed(lines, p);
      if Hits(lines, p) > 0 {
        var i :| 0 <= i < |lines| && lines[i].product == p;
      }
    }
  }
}
