/**
  Concurrent transactions on stock rows: each reads its rows one by one at moments of its own, computes
  on what it read, and commits only if every row it writes still has the version it read.
*/
module Occ {
  import opened Commerce
  import opened Stock

  datatype Op =
    | Reserve(lines: seq<Line>)
    | Release(lines: seq<Line>)
    | Restock(product: ProductId, quantity: nat)

  /** A running transaction with the rows as it first read them; None is a row found missing. */
  datatype Txn = Txn(op: Op, view: map<ProductId, Option<Row>>)

  /** `log` holds the committed stock-changing transactions in commit order. */
  datatype State = State(rows: Rows, txns: map<nat, Txn>, log: seq<Op>)

  datatype Action = Begin(txn: nat, op: Op) | Read(txn: nat, product: ProductId) | Commit(txn: nat) | Abort(txn: nat)

  predicate Names(op: Op, p: ProductId) {
    match op
    case Reserve(lines) => exists i :: 0 <= i < |lines| && lines[i].product == p
    case Release(lines) => exists i :: 0 <= i < |lines| && lines[i].product == p
    case Restock(q, _) => p == q
  }

  function Seen(txn: Txn): Rows {
    map p | p in txn.view && txn.view[p].Some? :: txn.view[p].value
  }

  /** What an operation makes of rows it has to itself. */
  function Apply(op: Op, rows: Rows): Rows {
    match op
    case Reserve(lines) => Attempt(rows, lines)
    case Release(lines) => Give(rows, lines)
    case Restock(p, quantity) => Restocked(rows, p, quantity)
  }

  function Serial(rows: Rows, log: seq<Op>): Rows {
    if |log| == 0 then rows else Apply(log[|log| - 1], Serial(rows, log[..|log| - 1]))
  }

  /** The lines whose rows were found. */
  function Found(lines: seq<Line>, rows: Rows): seq<Line> {
    if |lines| == 0 then []
    else
      var last := lines[|lines| - 1];
      if last.product in rows then Found(lines[..|lines| - 1], rows) + [last] else Found(lines[..|lines| - 1], rows)
  }

  /** What a transaction did to stock: nothing if it ran short, only the found rows if it released. */
  function Effect(txn: Txn): Option<Op> {
    match txn.op
    case Reserve(lines) => if Fits(Seen(txn), lines) then Some(txn.op) else None
    case Release(lines) => Some(Release(Found(lines, Seen(txn))))
    case Restock(_, _) => Some(txn.op)
  }

  /** Everything has been read that the loop reads before it finishes or stops at a failing line. */
  predicate Ready(txn: Txn) {
    match txn.op
    case Reserve(lines) =>
      var k := FirstFailure(Seen(txn), lines, 0);
      forall i :: 0 <= i <= k && i < |lines| ==> lines[i].product in txn.view
    case Release(lines) => forall i :: 0 <= i < |lines| ==> lines[i].product in txn.view
    case Restock(p, _) => p in txn.view
  }

  function Written(txn: Txn): Rows {
    var after, seen := Apply(txn.op, Seen(txn)), Seen(txn);
    map p | p in after && (p !in seen || after[p] != seen[p]) :: after[p]
  }

  /** The version check of each UPDATE, and the primary key check of an INSERT. */
  predicate Validates(rows: Rows, txn: Txn) {
    var seen := Seen(txn);
    forall p :: p in Written(txn) ==>
      if p in seen then p in rows && rows[p].version == seen[p].version else p !in rows
  }

  function Step(s: State, a: Action): State {
    match a
    case Begin(t, op) => if t in s.txns then s else s.(txns := s.txns[t := Txn(op, map[])])
    case Read(t, p) =>
      if t in s.txns && Names(s.txns[t].op, p) && p !in s.txns[t].view then
        var seen := if p in s.rows then Some(s.rows[p]) else None;
        s.(txns := s.txns[t := s.txns[t].(view := s.txns[t].view[p := seen])])
      else s
    case Commit(t) =>
      if t in s.txns && Ready(s.txns[t]) then
        var txn := s.txns[t];
        if Validates(s.rows, txn) then
          State(s.rows + Written(txn), s.txns - {t}, if Effect(txn).Some? then s.log + [Effect(txn).value] else s.log)
        else s.(txns := s.txns - {t})
      else s
    case Abort(t) => s.(txns := s.txns - {t})
  }

  function Run(s: State, actions: seq<Action>): State {
    if |actions| == 0 then s else Step(Run(s, actions[..|actions| - 1]), actions[|actions| - 1])
  }

  /** A row read earlier is no newer than the row now, and is that row if the versions agree. */
  predicate Older(seen: Row, now: Row) {
    seen.version <= now.version && (seen.version == now.version ==> seen == now)
  }

  ghost predicate ViewsAreOlder(s: State) {
    forall t, p :: t in s.txns && p in s.txns[t].view && s.txns[t].view[p].Some? ==>
      p in s.rows && Older(s.txns[t].view[p].value, s.rows[p])
  }

  /** Writing a row always moves its version forward. */
  lemma WritesMoveVersions(txn: Txn, p: ProductId)
    requires p in Written(txn) && p in Seen(txn)
    ensures Seen(txn)[p].version < Written(txn)[p].version
  {
    match txn.op {
      case Reserve(lines) =>
        HitsMeansNamed(lines, p);
        HitsMeansNamed(lines[..FirstFailure(Seen(txn), lines, 0)], p);
      case Release(lines) => HitsMeansNamed(lines, p);
      case Restock(_, _) =>
    }
  }

  /** A named product that the operation applies to is written. */
  lemma EffectWritesNamed(txn: Txn, p: ProductId)
    requires Effect(txn).Some? && Names(txn.op, p) && p in Seen(txn)
    ensures p in Written(txn)
  {
    match txn.op {
      case Reserve(lines) => HitsMeansNamed(lines, p);
      case Release(lines) => HitsMeansNamed(lines, p);
      case Restock(_, _) =>
    }
  }

  lemma {:induction false} FoundDemand(lines: seq<Line>, rows: Rows, p: ProductId)
    ensures Demand(Found(lines, rows), p) == if p in rows then Demand(lines, p) else 0
    ensures Hits(Found(lines, rows), p) == if p in rows then Hits(lines, p) else 0
  {
    if |lines| > 0 {
      var n := |lines| - 1;
      FoundDemand(lines[..n], rows, p);
      DemandOfConcat(Found(lines[..n], rows), [lines[n]], p);
    }
  }

  /** If every row was found, the transaction released exactly its lines. */
  lemma {:induction false} AllFound(lines: seq<Line>, rows: Rows)
    requires Known(rows, lines)
    ensures Found(lines, rows) == lines
  {
    if |lines| > 0 {
      AllFound(lines[..|lines| - 1], rows);
    }
  }

  /** Level of a product; versions do not count. */
  function LevelOf(rows: Rows, p: ProductId): Option<Level> {
    if p in rows then Some(Level(rows[p].available, rows[p].reserved)) else None
  }

  lemma FitsDependsOnLevels(a: Rows, b: Rows, lines: seq<Line>)
    requires forall p :: LevelOf(a, p) == LevelOf(b, p)
    ensures Fits(a, lines) ==> Fits(b, lines)
  {
    if Fits(a, lines) {
      forall i | 0 <= i < |lines|
        ensures lines[i].product in b && Demand(lines, lines[i].product) <= b[lines[i].product].available
      {
        assert LevelOf(a, lines[i].product) == LevelOf(b, lines[i].product);
      }
    }
  }

  /** What an operation does to levels depends on levels only. */
  lemma ApplyDependsOnLevels(op: Op, a: Rows, b: Rows, p: ProductId)
    requires forall q :: LevelOf(a, q) == LevelOf(b, q)
    ensures LevelOf(Apply(op, a), p) == LevelOf(Apply(op, b), p)
  {
    assert LevelOf(a, p) == LevelOf(b, p);
    if op.Reserve? {
      FitsDependsOnLevels(a, b, op.lines);
      FitsDependsOnLevels(b, a, op.lines);
    }
  }

  /** A validated transaction has read the current state of every row it writes. */
  lemma ValidatedIsFresh(s: State, t: nat, p: ProductId)
    requires t in s.txns && ViewsAreOlder(s) && Validates(s.rows, s.txns[t])
    requires p in Written(s.txns[t]) && p in Seen(s.txns[t])
    ensures p in s.rows && s.rows[p] == Seen(s.txns[t])[p]
  {
    assert s.txns[t].view[p].Some?;
  }

  /** A reservation that fits the rows it read, and is validated, fits the rows it commits on. */
  lemma ValidatedFits(s: State, t: nat)
    requires t in s.txns && ViewsAreOlder(s) && Validates(s.rows, s.txns[t])
    requires s.txns[t].op.Reserve? && Fits(Seen(s.txns[t]), s.txns[t].op.lines)
    ensures Fits(s.rows, s.txns[t].op.lines)
  {
    var txn := s.txns[t];
    var lines := txn.op.lines;
    forall i | 0 <= i < |lines|
      ensures lines[i].product in s.rows && Demand(lines, lines[i].product) <= s.rows[lines[i].product].available
    {
      EffectWritesNamed(txn, lines[i].product);
      ValidatedIsFresh(s, t, lines[i].product);
    }
  }

  lemma UnwrittenUntouched(s: State, t: nat, p: ProductId)
    requires t in s.txns && p !in Written(s.txns[t]) && Effect(s.txns[t]).Some?
    requires s.txns[t].op.Reserve? ==> Fits(s.rows, s.txns[t].op.lines)
    ensures LevelOf(Apply(Effect(s.txns[t]).value, s.rows), p) == LevelOf(s.rows, p)
  {
    var txn := s.txns[t];
    match txn.op {
      case Reserve(lines) =>
        HitsMeansNamed(lines, p);
        if Hits(lines, p) > 0 {
          var i :| 0 <= i < |lines| && lines[i].product == p;
          EffectWritesNamed(txn, p);
        }
      case Release(lines) =>
        FoundDemand(lines, Seen(txn), p);
        HitsMeansNamed(lines, p);
        if Hits(lines, p) > 0 && p in Seen(txn) { EffectWritesNamed(txn, p); }
      case Restock(q, _) =>
        if p == q && p in Seen(txn) { EffectWritesNamed(txn, p); }
    }
  }

  lemma WrittenIsApplied(s: State, t: nat, p: ProductId)
    requires t in s.txns && ViewsAreOlder(s) && Validates(s.rows, s.txns[t])
    requires p in Written(s.txns[t]) && Effect(s.txns[t]).Some?
    requires s.txns[t].op.Reserve? ==> Fits(s.rows, s.txns[t].op.lines)
    ensures LevelOf(Written(s.txns[t]), p) == LevelOf(Apply(Effect(s.txns[t]).value, s.rows), p)
  {
    var txn := s.txns[t];
    if p in Seen(txn) {
      ValidatedIsFresh(s, t, p);
      if txn.op.Release? { FoundDemand(txn.op.lines, Seen(txn), p); }
    }
  }

  /** A commit changes the stock levels exactly as its effect would on the rows at that moment. */
  lemma CommitActsSerially(s: State, t: nat, p: ProductId)
    requires t in s.txns && ViewsAreOlder(s) && Validates(s.rows, s.txns[t])
    ensures LevelOf(s.rows + Written(s.txns[t]), p) ==
            if Effect(s.txns[t]).Some? then LevelOf(Apply(Effect(s.txns[t]).value, s.rows), p) else LevelOf(s.rows, p)
  {
    var txn := s.txns[t];
    if Effect(txn).Some? {
      if txn.op.Reserve? { ValidatedFits(s, t); }
      if p in Written(txn) { WrittenIsApplied(s, t, p); } else { UnwrittenUntouched(s, t, p); }
    } else if p in Written(txn) {
      ValidatedIsFresh(s, t, p);
    }
  }

  lemma CommitKeepsViews(s: State, t: nat)
    requires t in s.txns && ViewsAreOlder(s) && Validates(s.rows, s.txns[t])
    ensures ViewsAreOlder(s.(rows := s.rows + Written(s.txns[t]), txns := s.txns - {t}))
  {
    var rows := s.rows + Written(s.txns[t]);
    forall u, p | u in s.txns - {t} && p in s.txns[u].view && s.txns[u].view[p].Some?
      ensures p in rows && Older(s.txns[u].view[p].value, rows[p])
    {
      if p in Written(s.txns[t]) && p in Seen(s.txns[t]) {
        ValidatedIsFresh(s, t, p);
        WritesMoveVersions(s.txns[t], p);
      }
    }
  }

  /** Every logged reservation fits when its turn comes in the serial replay. */
  ghost predicate ReservationsFit(rows: Rows, log: seq<Op>) {
    forall k :: 0 <= k < |log| && log[k].Reserve? ==> Fits(Serial(rows, log[..k]), log[k].lines)
  }

  ghost predicate Serializable(start: Rows, s: State) {
    ViewsAreOlder(s) && (forall p :: LevelOf(s.rows, p) == LevelOf(Serial(start, s.log), p)) && ReservationsFit(start, s.log)
  }

  lemma CommitKeepsSerializable(start: Rows, s: State, t: nat)
    requires Serializable(start, s) && t in s.txns && Ready(s.txns[t]) && Validates(s.rows, s.txns[t])
    ensures Serializable(start, Step(s, Commit(t)))
  {
    var s', effect := Step(s, Commit(t)), Effect(s.txns[t]);
    CommitKeepsViews(s, t);
    if effect.Some? {
      assert s'.log[..|s.log|] == s.log;
      forall k | 0 <= k < |s'.log| && s'.log[k].Reserve? ensures Fits(Serial(start, s'.log[..k]), s'.log[k].lines) {
        if k < |s.log| {
          assert s'.log[..k] == s.log[..k];
        } else {
          ValidatedFits(s, t);
          FitsDependsOnLevels(s.rows, Serial(start, s.log), s'.log[k].lines);
        }
      }
    }
    forall p ensures LevelOf(s'.rows, p) == LevelOf(Serial(start, s'.log), p) {
      CommitActsSerially(s, t, p);
      if effect.Some? { ApplyDependsOnLevels(effect.value, s.rows, Serial(start, s.log), p); }
    }
  }

  predicate Commits(s: State, a: Action) {
    a.Commit? && a.txn in s.txns && Ready(s.txns[a.txn]) && Validates(s.rows, s.txns[a.txn])
  }

  lemma OtherStepsOnlyRead(s: State, a: Action)
    requires ViewsAreOlder(s) && !Commits(s, a)
    ensures ViewsAreOlder(Step(s, a)) && Step(s, a).rows == s.rows && Step(s, a).log == s.log
  {
  }

  /**
    Any interleaving of reads, commits and aborts leaves the stock levels of running the committed
    stock-changing transactions one after another in commit order; and in that serial run every
    committed reservation finds its stock.
  */
  lemma {:induction false} InterleavingsAreSerial(start: Rows, actions: seq<Action>)
    ensures Serializable(start, Run(State(start, map[], []), actions))
  {
    if |actions| > 0 {
      var s, a := Run(State(start, map[], []), actions[..|actions| - 1]), actions[|actions| - 1];
      InterleavingsAreSerial(start, actions[..|actions| - 1]);
      if Commits(s, a) { CommitKeepsSerializable(start, s, a.txn); } else { OtherStepsOnlyRead(s, a); }
    }
  }

  // ---------- what commits ----------

  function RowAt(rows: Rows, p: ProductId): Option<Row> { if p in rows then Some(rows[p]) else None }

  /** Every row that the transaction writes is still as it read it. */
  predicate StillAsRead(s: State, t: nat)
    requires t in s.txns
  {
    forall p :: p in Written(s.txns[t]) ==> p in s.txns[t].view && RowAt(s.rows, p) == s.txns[t].view[p]
  }

  lemma WritesWhatItNames(txn: Txn, p: ProductId)
    requires Ready(txn) && p in Written(txn)
    ensures p in txn.view
  {
  }

  lemma ValidatesIffStillAsRead(s: State, t: nat)
    requires t in s.txns && Ready(s.txns[t]) && ViewsAreOlder(s)
    ensures Validates(s.rows, s.txns[t]) <==> StillAsRead(s, t)
  {
    var txn := s.txns[t];
    forall p | p in Written(txn) ensures p in txn.view { WritesWhatItNames(txn, p); }
    if Validates(s.rows, txn) {
      forall p | p in Written(txn) ensures RowAt(s.rows, p) == txn.view[p] {
        if p in Seen(txn) { ValidatedIsFresh(s, t, p); }
      }
    }
  }

  /**
    Which commits take effect: one whose written rows are all as it read them changes the stock levels as
    its operation does to the rows of that moment, and is logged if it changes stock; any other commit
    changes no row and is not logged. Either way the transaction is over.
  */
  lemma CommitTakesEffectIffStillAsRead(s: State, t: nat)
    requires t in s.txns && Ready(s.txns[t]) && ViewsAreOlder(s)
    ensures var s', effect := Step(s, Commit(t)), Effect(s.txns[t]);
            s'.txns == s.txns - {t} &&
            if StillAsRead(s, t) then
              && s'.log == (if effect.Some? then s.log + [effect.value] else s.log)
              && forall p :: LevelOf(s'.rows, p) == if effect.Some? then LevelOf(Apply(effect.value, s.rows), p) else LevelOf(s.rows, p)
            else s'.rows == s.rows && s'.log == s.log
  {
    ValidatesIffStillAsRead(s, t);
    if StillAsRead(s, t) {
      forall p ensures LevelOf(Step(s, Commit(t)).rows, p) ==
                       if Effect(s.txns[t]).Some? then LevelOf(Apply(Effect(s.txns[t]).value, s.rows), p) else LevelOf(s.rows, p)
      {
        CommitActsSerially(s, t, p);
      }
    }
  }

  /** The products an operation names. */
  function Named(op: Op): seq<ProductId> {
    match op
    case Reserve(lines) => seq(|lines|, i requires 0 <= i < |lines| => lines[i].product)
    case Release(lines) => seq(|lines|, i requires 0 <= i < |lines| => lines[i].product)
    case Restock(p, _) => [p]
  }

  function Reads(t: nat, products: seq<ProductId>): seq<Action> {
    seq(|products|, i requires 0 <= i < |products| => Read(t, products[i]))
  }

  function ViewOf(rows: Rows, products: seq<ProductId>): map<ProductId, Option<Row>> {
    map p | p in products :: RowAt(rows, p)
  }

  /** The state with one transaction open on the products read so far. */
  function Reading(s: State, t: nat, op: Op, products: seq<ProductId>): State {
    s.(txns := s.txns[t := Txn(op, ViewOf(s.rows, products))])
  }

  lemma ViewOneMore(rows: Rows, products: seq<ProductId>, p: ProductId)
    ensures ViewOf(rows, products + [p]) == ViewOf(rows, products)[p := RowAt(rows, p)]
  {
  }

  lemma ReadOneMore(s: State, t: nat, op: Op, products: seq<ProductId>, p: ProductId)
    requires Names(op, p)
    ensures Step(Reading(s, t, op, products), Read(t, p)) == Reading(s, t, op, products + [p])
  {
    var r := Reading(s, t, op, products);
    ViewOneMore(s.rows, products, p);
    if p in products {
      assert r.txns[t].view[p := RowAt(s.rows, p)] == r.txns[t].view;
    } else {
      assert Step(r, Read(t, p)).txns == s.txns[t := Txn(op, ViewOf(s.rows, products + [p]))];
    }
  }

  /** Reading with nothing in between: the view is the rows. */
  lemma {:induction false} ReadsSeeRows(s: State, t: nat, op: Op, products: seq<ProductId>)
    requires forall p :: p in products ==> Names(op, p)
    ensures Run(Reading(s, t, op, []), Reads(t, products)) == Reading(s, t, op, products)
  {
    if products != [] {
      var n := |products| - 1;
      assert products == products[..n] + [products[n]];
      ReadsSeeRows(s, t, op, products[..n]);
      assert Reads(t, products)[..n] == Reads(t, products[..n]);
      ReadOneMore(s, t, op, products[..n], products[n]);
    }
  }

  /** Begin, all reads and the commit, with nothing in between. */
  function Solo(t: nat, op: Op): seq<Action> { [Begin(t, op)] + Reads(t, Named(op)) + [Commit(t)] }

  lemma NamedAreNamed(op: Op, p: ProductId)
    ensures p in Named(op) <==> Names(op, p)
  {
    if !op.Restock? {
      var lines := op.lines;
      assert forall i :: 0 <= i < |lines| ==> Named(op)[i] == lines[i].product;
    }
  }

  lemma SoloView(s: State, t: nat, op: Op)
    requires t !in s.txns
    ensures Run(s, [Begin(t, op)] + Reads(t, Named(op))) == Reading(s, t, op, Named(op))
  {
    forall p ensures p in Named(op) <==> Names(op, p) { NamedAreNamed(op, p); }
    ReadsSeeRows(s, t, op, Named(op));
    RunAfterOne(s, Begin(t, op), Reads(t, Named(op)));
    assert ViewOf(s.rows, []) == map[];
  }

  lemma {:induction false} RunAfterOne(s: State, a: Action, actions: seq<Action>)
    ensures Run(s, [a] + actions) == Run(Step(s, a), actions)
  {
    if actions == [] {
      assert [a] + actions == [a] && [a][..0] == [];
    } else {
      var n := |actions| - 1;
      RunAfterOne(s, a, actions[..n]);
      assert ([a] + actions)[..|actions|] == [a] + actions[..n];
    }
  }

  /** A view that has everything the operation names, as the rows have it. */
  ghost predicate SeesAll(rows: Rows, txn: Txn) {
    (forall p :: p in txn.view <==> Names(txn.op, p)) && (forall p :: p in txn.view ==> txn.view[p] == RowAt(rows, p))
  }

  lemma EffectOfSeeingAll(rows: Rows, txn: Txn, p: ProductId)
    requires SeesAll(rows, txn)
    ensures LevelOf(Apply(txn.op, rows), p) ==
            if Effect(txn).Some? then LevelOf(Apply(Effect(txn).value, rows), p) else LevelOf(rows, p)
  {
    match txn.op {
      case Reserve(lines) =>
        forall i | 0 <= i < |lines| ensures RowAt(Seen(txn), lines[i].product) == RowAt(rows, lines[i].product) {
          assert Names(txn.op, lines[i].product);
        }
        assert Fits(Seen(txn), lines) <==> Fits(rows, lines);
      case Release(lines) =>
        FoundDemand(lines, Seen(txn), p);
        HitsMeansNamed(lines, p);
      case Restock(_, _) =>
    }
  }

  /** Begin, reads and commit with nothing in between do to the stock levels just what the operation does. */
  lemma SoloTakesEffect(s: State, t: nat, op: Op, p: ProductId)
    requires t !in s.txns && ViewsAreOlder(s)
    ensures Run(s, Solo(t, op)).txns == s.txns && LevelOf(Run(s, Solo(t, op)).rows, p) == LevelOf(Apply(op, s.rows), p)
  {
    var ready, before := Reading(s, t, op, Named(op)), [Begin(t, op)] + Reads(t, Named(op));
    SoloView(s, t, op);
    assert Solo(t, op)[..|before|] == before;
    assert Run(s, Solo(t, op)) == Step(ready, Commit(t));
    SoloIsReady(s, t, op);
    CommitTakesEffectIffStillAsRead(ready, t);
    EffectOfSeeingAll(s.rows, ready.txns[t], p);
  }

  /** An aborted transaction leaves no trace. */
  lemma AbortLeavesNoTrace(s: State, t: nat, op: Op)
    requires t !in s.txns
    ensures Run(s, [Begin(t, op)] + Reads(t, Named(op)) + [Abort(t)]) == s
  {
    var before := [Begin(t, op)] + Reads(t, Named(op));
    SoloView(s, t, op);
    assert (before + [Abort(t)])[..|before|] == before;
    assert Reading(s, t, op, Named(op)).txns - {t} == s.txns;
  }

  lemma SoloIsReady(s: State, t: nat, op: Op)
    requires ViewsAreOlder(s)
    ensures var ready := Reading(s, t, op, Named(op));
            Ready(ready.txns[t]) && ViewsAreOlder(ready) && SeesAll(s.rows, ready.txns[t]) && StillAsRead(ready, t)
  {
    var ready := Reading(s, t, op, Named(op));
    forall p ensures p in ready.txns[t].view <==> Names(op, p) { NamedAreNamed(op, p); }
    SeesAllIsReady(s.rows, ready.txns[t]);
    forall p | p in Written(ready.txns[t]) ensures p in ready.txns[t].view { WritesWhatItNames(ready.txns[t], p); }
  }

  lemma SeesAllIsReady(rows: Rows, txn: Txn)
    requires SeesAll(rows, txn)
    ensures Ready(txn)
  {
    match txn.op {
      case Reserve(lines) =>
        forall i | 0 <= i < |lines| ensures lines[i].product in txn.view { assert Names(txn.op, lines[i].product); }
      case Release(lines) =>
        forall i | 0 <= i < |lines| ensures lines[i].product in txn.view { assert Names(txn.op, lines[i].product); }
      case Restock(q, _) => assert Names(txn.op, q);
    }
  }

  lemma StepIsNewer(s: State, a: Action, p: ProductId)
    requires ViewsAreOlder(s) && p in s.rows
    ensures p in Step(s, a).rows && Older(s.rows[p], Step(s, a).rows[p])
  {
    if Commits(s, a) {
      if p in Written(s.txns[a.txn]) && p in Seen(s.txns[a.txn]) {
        ValidatedIsFresh(s, a.txn, p);
        WritesMoveVersions(s.txns[a.txn], p);
      }
    }
  }

  lemma StepKeepsViews(s: State, a: Action)
    requires ViewsAreOlder(s)
    ensures ViewsAreOlder(Step(s, a))
  {
    if Commits(s, a) { CommitKeepsViews(s, a.txn); } else { OtherStepsOnlyRead(s, a); }
  }

  /** Versions never fall, and a row whose version has not moved has not changed. */
  lemma {:induction false} EqualVersionMeansUnchanged(s: State, actions: seq<Action>, p: ProductId)
    requires ViewsAreOlder(s) && p in s.rows
    ensures p in Run(s, actions).rows && Older(s.rows[p], Run(s, actions).rows[p])
    ensures ViewsAreOlder(Run(s, actions))
  {
    if |actions| > 0 {
      var before, a := Run(s, actions[..|actions| - 1]), actions[|actions| - 1];
      EqualVersionMeansUnchanged(s, actions[..|actions| - 1], p);
      StepIsNewer(before, a, p);
      StepKeepsViews(before, a);
    }
  }

  /** The transaction has been running since moment k. */
  ghost predicate OpenSince(start: State, actions: seq<Action>, t: nat, k: nat)
    requires k <= |actions|
  {
    forall j :: k <= j <= |actions| ==> t in Run(start, actions[..j]).txns
  }

  /** A row as some moment of the transaction's life had it. */
  ghost predicate WasSo(start: State, actions: seq<Action>, t: nat, p: ProductId, seen: Option<Row>) {
    exists k :: 0 <= k <= |actions| && OpenSince(start, actions, t, k) && seen == RowAt(Run(start, actions[..k]).rows, p)
  }

  lemma StillOpen(start: State, actions: seq<Action>, t: nat, k: nat)
    requires |actions| > 0 && k < |actions| && OpenSince(start, actions[..|actions| - 1], t, k) && t in Run(start, actions).txns
    ensures OpenSince(start, actions, t, k)
  {
    forall j | k <= j <= |actions| ensures t in Run(start, actions[..j]).txns {
      if j < |actions| {
        assert actions[..|actions| - 1][..j] == actions[..j];
      } else {
        assert actions[..j] == actions;
      }
    }
  }

  /** A transaction only ever works on rows as they were while it ran. */
  lemma {:induction false} ViewsWereSo(start: State, actions: seq<Action>, t: nat, p: ProductId)
    requires start.txns == map[] && t in Run(start, actions).txns && p in Run(start, actions).txns[t].view
    ensures WasSo(start, actions, t, p, Run(start, actions).txns[t].view[p])
  {
    var n := |actions| - 1;
    var before, a := Run(start, actions[..n]), actions[n];
    assert actions[..n + 1] == actions;
    if t in before.txns && p in before.txns[t].view {
      ViewsWereSo(start, actions[..n], t, p);
      var k :| 0 <= k <= n && OpenSince(start, actions[..n], t, k) && before.txns[t].view[p] == RowAt(Run(start, actions[..n][..k]).rows, p);
      assert actions[..n][..k] == actions[..k];
      StillOpen(start, actions, t, k);
    } else {
      assert Run(start, actions[..n]).rows == before.rows;
      assert OpenSince(start, actions, t, n);
    }
  }

  /** Reads are repeatable: what a transaction has read it keeps for as long as it runs, whatever others commit. */
  lemma {:induction false} ReadsAreRepeatable(s: State, actions: seq<Action>, t: nat, p: ProductId)
    requires OpenSince(s, actions, t, 0) && t in s.txns && p in s.txns[t].view
    ensures var u := Run(s, actions).txns;
            t in u && u[t].op == s.txns[t].op && p in u[t].view && u[t].view[p] == s.txns[t].view[p]
  {
    if |actions| > 0 {
      var before := actions[..|actions| - 1];
      forall j | 0 <= j <= |before| ensures t in Run(s, before[..j]).txns { assert before[..j] == actions[..j]; }
      ReadsAreRepeatable(s, before, t, p);
      assert actions[..|actions|] == actions;
    }
  }

  lemma ShortLineShortAll(rows: Rows, seen: Rows, lines: seq<Line>, k: nat)
    requires FailsAt(seen, lines, k) && RowAt(rows, lines[k].product) == RowAt(seen, lines[k].product)
    ensures !Fits(rows, lines)
  {
    DemandStep(lines, k, lines[k].product);
    DemandOfPrefix(lines, k + 1, lines[k].product);
  }

  /** A reservation that is refused did not fit the rows at some moment between its first read and its commit. */
  lemma RefusalsWereShort(start: State, actions: seq<Action>, t: nat)
    requires start.txns == map[] && t in Run(start, actions).txns
    requires var txn := Run(start, actions).txns[t]; Ready(txn) && txn.op.Reserve? && Effect(txn).None?
    ensures exists k :: 0 <= k <= |actions| && OpenSince(start, actions, t, k) &&
                        !Fits(Run(start, actions[..k]).rows, Run(start, actions).txns[t].op.lines)
  {
    var txn := Run(start, actions).txns[t];
    var lines, seen := txn.op.lines, Seen(txn);
    ReservesAllIffFits(seen, lines);
    var i := FirstFailure(seen, lines, 0);
    var p := lines[i].product;
    ViewsWereSo(start, actions, t, p);
    var k :| 0 <= k <= |actions| && OpenSince(start, actions, t, k) && txn.view[p] == RowAt(Run(start, actions[..k]).rows, p);
    ShortLineShortAll(Run(start, actions[..k]).rows, seen, lines, i);
  }
}
