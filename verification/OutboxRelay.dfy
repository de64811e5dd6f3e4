/** The outbox worker: polls the oldest unpublished rows, sends them, and marks what was sent in one commit. */
module OutboxRelay {
  /** The columns of an outbox row that the worker reads and writes; a row is known by its position. */
  datatype Row = Row(createdAt: int, processed: bool, retries: nat)

  datatype State = State(table: seq<Row>, published: set<nat>)

  /**
    ok[i] tells whether sending records[i] succeeds. The worker attempts the first `attempted` records;
    only one that attempted them all can commit, and it may still die before it does.
  */
  datatype Action =
    | Insert(createdAt: int)
    | Poll(records: seq<nat>, ok: seq<bool>, attempted: nat, commits: bool)

  predicate Settled(row: Row, maxRetries: nat) { row.processed || row.retries >= maxRetries }

  /** The worker's query: at most `limit` unsettled rows, oldest first, none older left out. */
  ghost predicate OldestPending(table: seq<Row>, records: seq<nat>, limit: nat, maxRetries: nat) {
    && (forall i :: 0 <= i < |records| ==> records[i] < |table| && !Settled(table[records[i]], maxRetries))
    && (forall i, j :: 0 <= i < j < |records| ==>
          records[i] != records[j] && table[records[i]].createdAt <= table[records[j]].createdAt)
    && |records| <= limit
    && (forall k :: 0 <= k < |table| && !Settled(table[k], maxRetries) && k !in records ==>
          |records| == limit && forall i :: 0 <= i < |records| ==> table[records[i]].createdAt <= table[k].createdAt)
  }

  function Attempted(row: Row, ok: bool): Row {
    if ok then row.(processed := true) else row.(retries := row.retries + 1)
  }

  predicate InRange(table: seq<Row>, records: seq<nat>) {
    forall i :: 0 <= i < |records| ==> records[i] < |table|
  }

  function Marked(table: seq<Row>, records: seq<nat>, ok: seq<bool>): (marked: seq<Row>)
    requires |records| == |ok| && InRange(table, records)
    ensures |marked| == |table|
  {
    if |records| == 0 then table
    else
      var n := |records| - 1;
      var before := Marked(table, records[..n], ok[..n]);
      before[records[n] := Attempted(before[records[n]], ok[n])]
  }

  function Sent(records: seq<nat>, ok: seq<bool>): set<nat>
    requires |records| == |ok|
  {
    if |records| == 0 then {}
    else
      var n := |records| - 1;
      Sent(records[..n], ok[..n]) + if ok[n] then {records[n]} else {}
  }

  class Worker {
    var table: seq<Row>
    var published: set<nat>
    const batchSize: nat
    const maxRetries: nat

    constructor (batchSize: nat, maxRetries: nat)
      ensures table == [] && published == {} && this.batchSize == batchSize && this.maxRetries == maxRetries
    {
      this.batchSize, this.maxRetries, table, published := batchSize, maxRetries, [], {};
    }

    /** One poll over the rows the query returned. Sends happen at once, marks only with the commit. */
    method ProcessBatch(records: seq<nat>, ok: seq<bool>, attempted: nat, commits: bool)
      requires |records| == |ok| && OldestPending(table, records, batchSize, maxRetries)
      requires attempted <= |records| && (commits ==> attempted == |records|)
      modifies this
      ensures State(table, published) ==
              Step(old(State(table, published)), Poll(records, ok, attempted, commits), batchSize, maxRetries)
      ensures !commits ==> table == old(table)
      ensures published == old(published) + Sent(records[..attempted], ok[..attempted])
    {
      var working := SendRecords(records[..attempted], ok[..attempted]);
      if commits {
        assert records[..attempted] == records && ok[..attempted] == ok;
        table := working;
      }
    }

    /** The loop over the records; the marks stay in the session until the commit. */
    method SendRecords(records: seq<nat>, ok: seq<bool>) returns (working: seq<Row>)
      requires |records| == |ok| && InRange(table, records)
      modifies this`published
      ensures working == Marked(table, records, ok)
      ensures published == old(published) + Sent(records, ok)
    {
      working := table;
      var i := 0;
      while i < |records|
        invariant i <= |records|
        invariant working == Marked(table, records[..i], ok[..i])
        invariant published == old(published) + Sent(records[..i], ok[..i])
      {
        assert records[..i + 1][..i] == records[..i] && ok[..i + 1][..i] == ok[..i];
        if ok[i] {
          published := published + {records[i]};
          working := working[records[i] := working[records[i]].(processed := true)];
        } else {
          working := working[records[i] := working[records[i]].(retries := working[records[i]].retries + 1)];
        }
        i := i + 1;
      }
      assert records[..i] == records && ok[..i] == ok;
    }
  }

  lemma {:induction false} SentAreRecords(records: seq<nat>, ok: seq<bool>, k: nat)
    requires |records| == |ok| && k in Sent(records, ok)
    ensures k in records
  {
    var n := |records| - 1;
    if k in Sent(records[..n], ok[..n]) {
      SentAreRecords(records[..n], ok[..n], k);
      assert records == records[..n] + [records[n]];
    }
  }

  /** The poll is over what the query returns, and commits only after attempting it all. */
  ghost predicate Possible(s: State, a: Action, batchSize: nat, maxRetries: nat) {
    a.Poll? ==>
      |a.records| == |a.ok| && OldestPending(s.table, a.records, batchSize, maxRetries) &&
      a.attempted <= |a.records| && (a.commits ==> a.attempted == |a.records|)
  }

  ghost function Step(s: State, a: Action, batchSize: nat, maxRetries: nat): State {
    match a
    case Insert(createdAt) => s.(table := s.table + [Row(createdAt, false, 0)])
    case Poll(records, ok, attempted, commits) =>
      if Possible(s, a, batchSize, maxRetries) then
        State(if commits then Marked(s.table, records, ok) else s.table,
              s.published + Sent(records[..attempted], ok[..attempted]))
      else s
  }

  ghost function Run(s: State, actions: seq<Action>, batchSize: nat, maxRetries: nat): State {
    if |actions| == 0 then s
    else Step(Run(s, actions[..|actions| - 1], batchSize, maxRetries), actions[|actions| - 1], batchSize, maxRetries)
  }

  /** A poll that reaches its commit. */
  ghost predicate Commits(s: State, a: Action, batchSize: nat, maxRetries: nat) {
    a.Poll? && Possible(s, a, batchSize, maxRetries) && a.commits
  }

  ghost function CommittedPolls(s: State, actions: seq<Action>, batchSize: nat, maxRetries: nat): nat {
    if |actions| == 0 then 0
    else
      var before := actions[..|actions| - 1];
      CommittedPolls(s, before, batchSize, maxRetries) +
      if Commits(Run(s, before, batchSize, maxRetries), actions[|actions| - 1], batchSize, maxRetries) then 1 else 0
  }

  // ---------- marks and messages ----------

  lemma {:induction false} MarkedAt(table: seq<Row>, records: seq<nat>, ok: seq<bool>, k: nat)
    requires |records| == |ok| && InRange(table, records) && k < |table|
    ensures Marked(table, records, ok)[k].createdAt == table[k].createdAt
    ensures Marked(table, records, ok)[k].processed <==> table[k].processed || k in Sent(records, ok)
    ensures k !in records ==> Marked(table, records, ok)[k] == table[k]
    ensures Marked(table, records, ok)[k].retries >= table[k].retries
  {
    if |records| > 0 {
      var n := |records| - 1;
      MarkedAt(table, records[..n], ok[..n], k);
    }
  }

  /** Every row marked as processed was published, and only committed rows were published. */
  ghost predicate Honest(s: State) {
    (forall k :: 0 <= k < |s.table| && s.table[k].processed ==> k in s.published) &&
    (forall k :: k in s.published ==> k < |s.table|)
  }

  lemma StepIsHonest(s: State, a: Action, batchSize: nat, maxRetries: nat)
    requires Honest(s)
    ensures Honest(Step(s, a, batchSize, maxRetries))
  {
    if a.Poll? && Possible(s, a, batchSize, maxRetries) {
      var records, ok := a.records[..a.attempted], a.ok[..a.attempted];
      forall k | k in Sent(records, ok) ensures k < |s.table| { SentAreRecords(records, ok, k); }
      if a.commits {
        assert records == a.records && ok == a.ok;
        forall k | 0 <= k < |s.table| && Marked(s.table, a.records, a.ok)[k].processed
          ensures k in Step(s, a, batchSize, maxRetries).published
        {
          MarkedAt(s.table, a.records, a.ok, k);
        }
      }
    }
  }

  lemma {:induction false} RunIsHonest(s: State, actions: seq<Action>, batchSize: nat, maxRetries: nat)
    requires Honest(s)
    ensures Honest(Run(s, actions, batchSize, maxRetries))
  {
    if |actions| > 0 {
      RunIsHonest(s, actions[..|actions| - 1], batchSize, maxRetries);
      StepIsHonest(Run(s, actions[..|actions| - 1], batchSize, maxRetries), actions[|actions| - 1], batchSize, maxRetries);
    }
  }

  lemma MarksAreHonest(actions: seq<Action>, batchSize: nat, maxRetries: nat)
    ensures Honest(Run(State([], {}), actions, batchSize, maxRetries))
  {
    RunIsHonest(State([], {}), actions, batchSize, maxRetries);
  }

  lemma {:induction false} SentAtMost(records: seq<nat>, ok: seq<bool>)
    requires |records| == |ok|
    ensures |Sent(records, ok)| <= |records|
  {
    if |records| > 0 { SentAtMost(records[..|records| - 1], ok[..|records| - 1]); }
  }

  /** One poll publishes at most a batch, and nothing that it did not take. */
  lemma PollSendsAtMostBatch(s: State, a: Action, batchSize: nat, maxRetries: nat)
    requires a.Poll?
    ensures |Step(s, a, batchSize, maxRetries).published - s.published| <= batchSize
  {
    if Possible(s, a, batchSize, maxRetries) {
      var sent := Sent(a.records[..a.attempted], a.ok[..a.attempted]);
      SentAtMost(a.records[..a.attempted], a.ok[..a.attempted]);
      SubsetIsSmaller(Step(s, a, batchSize, maxRetries).published - s.published, sent);
    }
  }

  lemma {:induction false} SubsetIsSmaller(a: set<nat>, b: set<nat>)
    requires a <= b
    ensures |a| <= |b|
  {
    if x :| x in a { SubsetIsSmaller(a - {x}, b - {x}); }
  }

  // ---------- no starvation ----------

  function Remaining(row: Row, maxRetries: nat): nat {
    if Settled(row, maxRetries) then 0 else maxRetries - row.retries
  }

  /** Summed remaining retry budgets of the rows no newer than `time`. */
  function Budget(table: seq<Row>, time: int, maxRetries: nat): nat {
    if |table| == 0 then 0
    else
      var last := table[|table| - 1];
      Budget(table[..|table| - 1], time, maxRetries) + if last.createdAt <= time then Remaining(last, maxRetries) else 0
  }

  lemma {:induction false} BudgetAfter(table: seq<Row>, k: nat, row: Row, time: int, maxRetries: nat)
    requires k < |table| && row.createdAt == table[k].createdAt
    ensures Budget(table[k := row], time, maxRetries) - (if row.createdAt <= time then Remaining(row, maxRetries) else 0)
         == Budget(table, time, maxRetries) - (if row.createdAt <= time then Remaining(table[k], maxRetries) else 0)
  {
    var n := |table| - 1;
    if k < n {
      BudgetAfter(table[..n], k, row, time, maxRetries);
      assert table[k := row][..n] == table[..n][k := row];
    } else {
      assert table[k := row][..n] == table[..n];
    }
  }

  lemma BudgetCovers(table: seq<Row>, k: nat, time: int, maxRetries: nat)
    requires k < |table| && table[k].createdAt <= time
    ensures Remaining(table[k], maxRetries) <= Budget(table, time, maxRetries)
  {
    BudgetAfter(table, k, table[k].(processed := true), time, maxRetries);
  }

  /** How many of the records are no newer than `time`. */
  function NoNewer(table: seq<Row>, records: seq<nat>, time: int): nat
    requires InRange(table, records)
  {
    if |records| == 0 then 0
    else
      var n := |records| - 1;
      NoNewer(table, records[..n], time) + if table[records[n]].createdAt <= time then 1 else 0
  }

  /** Every attempt spends: distinct unsettled rows no newer than `time` each take at least one off the budget. */
  lemma {:induction false} AttemptsSpend(table: seq<Row>, records: seq<nat>, ok: seq<bool>, time: int, maxRetries: nat)
    requires |records| == |ok| && InRange(table, records)
    requires forall i, j :: 0 <= i < j < |records| ==> records[i] != records[j]
    requires forall i :: 0 <= i < |records| ==> !Settled(table[records[i]], maxRetries)
    ensures Budget(Marked(table, records, ok), time, maxRetries) + NoNewer(table, records, time) <= Budget(table, time, maxRetries)
  {
    if |records| > 0 {
      var n := |records| - 1;
      AttemptsSpend(table, records[..n], ok[..n], time, maxRetries);
      var before := Marked(table, records[..n], ok[..n]);
      MarkedAt(table, records[..n], ok[..n], records[n]);
      BudgetAfter(before, records[n], Attempted(before[records[n]], ok[n]), time, maxRetries);
    }
  }

  lemma {:induction false} FirstCounts(table: seq<Row>, records: seq<nat>, time: int)
    requires InRange(table, records) && |records| > 0 && table[records[0]].createdAt <= time
    ensures NoNewer(table, records, time) > 0
  {
    if |records| > 1 { FirstCounts(table, records[..|records| - 1], time); }
  }

  /** While a row is unsettled, a poll starts with a row that is no newer. */
  lemma PollStartsOld(table: seq<Row>, records: seq<nat>, limit: nat, maxRetries: nat, k: nat)
    requires limit > 0 && OldestPending(table, records, limit, maxRetries) && k < |table| && !Settled(table[k], maxRetries)
    ensures |records| > 0 && table[records[0]].createdAt <= table[k].createdAt
  {
    if k in records {
      var i :| 0 <= i < |records| && records[i] == k;
    }
  }

  /** How many rows that are no newer than `time` the run commits. */
  function LateRows(actions: seq<Action>, time: int): nat {
    if |actions| == 0 then 0
    else
      var last := actions[|actions| - 1];
      LateRows(actions[..|actions| - 1], time) + if last.Insert? && last.createdAt <= time then 1 else 0
  }

  lemma InsertAddsBudget(table: seq<Row>, createdAt: int, time: int, maxRetries: nat)
    ensures Budget(table + [Row(createdAt, false, 0)], time, maxRetries) ==
            Budget(table, time, maxRetries) + if createdAt <= time then maxRetries else 0
  {
    assert (table + [Row(createdAt, false, 0)])[..|table|] == table;
  }

  lemma CommitSpends(s: State, a: Action, batchSize: nat, maxRetries: nat, k: nat, time: int)
    requires batchSize > 0 && k < |s.table| && s.table[k].createdAt == time && Commits(s, a, batchSize, maxRetries)
    ensures var table := Step(s, a, batchSize, maxRetries).table;
            k < |table| && table[k].createdAt == time && (Settled(s.table[k], maxRetries) ==> Settled(table[k], maxRetries)) &&
            Budget(table, time, maxRetries) + (if Settled(s.table[k], maxRetries) then 0 else 1) <= Budget(s.table, time, maxRetries)
  {
    MarkedAt(s.table, a.records, a.ok, k);
    AttemptsSpend(s.table, a.records, a.ok, time, maxRetries);
    if !Settled(s.table[k], maxRetries) {
      PollStartsOld(s.table, a.records, batchSize, maxRetries, k);
      FirstCounts(s.table, a.records, time);
    }
  }

  lemma {:induction false} PollsSpendBudget(s: State, actions: seq<Action>, batchSize: nat, maxRetries: nat, k: nat)
    requires batchSize > 0 && k < |s.table|
    ensures var table, time := Run(s, actions, batchSize, maxRetries).table, s.table[k].createdAt;
            k < |table| && table[k].createdAt == time &&
            (Settled(table[k], maxRetries) ||
             Budget(table, time, maxRetries) + CommittedPolls(s, actions, batchSize, maxRetries)
             <= Budget(s.table, time, maxRetries) + LateRows(actions, time) * maxRetries)
  {
    if |actions| > 0 {
      var n, time := |actions| - 1, s.table[k].createdAt;
      var before := Run(s, actions[..n], batchSize, maxRetries);
      PollsSpendBudget(s, actions[..n], batchSize, maxRetries, k);
      if actions[n].Insert? {
        InsertAddsBudget(before.table, actions[n].createdAt, time, maxRetries);
        assert (LateRows(actions[..n], time) + 1) * maxRetries == LateRows(actions[..n], time) * maxRetries + maxRetries;
      } else if Commits(before, actions[n], batchSize, maxRetries) {
        CommitSpends(before, actions[n], batchSize, maxRetries, k, time);
      }
    }
  }

  /**
    No row starves, whatever fails, whatever crashes and whatever is committed later: a row is processed
    or out of retries after as many committed polls as the retry budgets of the rows no newer than it
    add up to, plus a full budget for each such row that is committed meanwhile.
  */
  lemma EveryRowSettles(s: State, actions: seq<Action>, batchSize: nat, maxRetries: nat, k: nat)
    requires batchSize > 0 && k < |s.table|
    requires CommittedPolls(s, actions, batchSize, maxRetries) >=
             Budget(s.table, s.table[k].createdAt, maxRetries) + LateRows(actions, s.table[k].createdAt) * maxRetries
    ensures k < |Run(s, actions, batchSize, maxRetries).table|
    ensures Settled(Run(s, actions, batchSize, maxRetries).table[k], maxRetries)
  {
    PollsSpendBudget(s, actions, batchSize, maxRetries, k);
    BudgetCovers(Run(s, actions, batchSize, maxRetries).table, k, s.table[k].createdAt, maxRetries);
  }

  lemma {:induction false} NoLateRows(actions: seq<Action>, time: int)
    requires forall i :: 0 <= i < |actions| && actions[i].Insert? ==> actions[i].createdAt > time
    ensures LateRows(actions, time) == 0
  {
    if |actions| > 0 { NoLateRows(actions[..|actions| - 1], time); }
  }

  /** If rows committed later are newer, the budget at the start is bound enough. */
  lemma NewerRowsDoNotDelay(s: State, actions: seq<Action>, batchSize: nat, maxRetries: nat, k: nat)
    requires batchSize > 0 && k < |s.table|
    requires forall i :: 0 <= i < |actions| && actions[i].Insert? ==> actions[i].createdAt > s.table[k].createdAt
    requires CommittedPolls(s, actions, batchSize, maxRetries) >= Budget(s.table, s.table[k].createdAt, maxRetries)
    ensures k < |Run(s, actions, batchSize, maxRetries).table|
    ensures Settled(Run(s, actions, batchSize, maxRetries).table[k], maxRetries)
  {
    NoLateRows(actions, s.table[k].createdAt);
    EveryRowSettles(s, actions, batchSize, maxRetries, k);
  }

  lemma TiedPoll()
    ensures var both, poll := [Row(0, false, 0), Row(0, false, 0)], Poll([1], [true], 1, true);
            Commits(State(both, {}), poll, 1, 1) && Step(State(both, {}), poll, 1, 1).table == [Row(0, false, 0), Row(0, true, 0)]
  {
    var both := [Row(0, false, 0), Row(0, false, 0)];
    assert OldestPending(both, [1], 1, 1) by {
      assert [1][0] == 1 && 1 in [1];
    }
    assert [1][..0] == [] && [true][..0] == [];
    assert Marked(both, [1], [true]) == both[1 := Row(0, true, 0)];
  }

  lemma OneRowBudget()
    ensures Budget([Row(0, false, 0)], 0, 1) == 1
  {
    assert [Row(0, false, 0)][..0] == [];
  }

  /**
    The extra term is needed: with one row of budget 1 pending, a later row with the same timestamp may
    take its poll.
  */
  lemma TiesCanOvertake()
    ensures var s, actions := State([Row(0, false, 0)], {}), [Insert(0), Poll([1], [true], 1, true)];
            CommittedPolls(s, actions, 1, 1) >= Budget(s.table, 0, 1) && !Settled(Run(s, actions, 1, 1).table[0], 1)
  {
    var s, actions := State([Row(0, false, 0)], {}), [Insert(0), Poll([1], [true], 1, true)];
    OneRowBudget();
    TiedPoll();
    assert actions[..1] == [Insert(0)] && [Insert(0)][..0] == [];
    assert Run(s, [Insert(0)], 1, 1) == State([Row(0, false, 0), Row(0, false, 0)], {});
  }

  /** A worker that dies between its last send and its commit leaves a published row unmarked, to be sent again. */
  lemma CrashRepublishes(s: State, records: seq<nat>, ok: seq<bool>, batchSize: nat, maxRetries: nat, k: nat)
    requires |records| == |ok| && OldestPending(s.table, records, batchSize, maxRetries) && k in Sent(records, ok)
    ensures var s' := Step(s, Poll(records, ok, |records|, false), batchSize, maxRetries);
            k in s'.published && k < |s'.table| && !s'.table[k].processed && OldestPending(s'.table, records, batchSize, maxRetries)
  {
    SentAreRecords(records, ok, k);
    assert records[..|records|] == records && ok[..|records|] == ok;
  }

  // ---------- what is never published ----------

  /** The poll sends row k, whether or not it reaches its commit. */
  ghost predicate Sends(s: State, a: Action, batchSize: nat, maxRetries: nat, k: nat) {
    a.Poll? && Possible(s, a, batchSize, maxRetries) && k in Sent(a.records[..a.attempted], a.ok[..a.attempted])
  }

  ghost predicate SomeSendSucceeds(s: State, actions: seq<Action>, batchSize: nat, maxRetries: nat, k: nat) {
    |actions| > 0 &&
    (SomeSendSucceeds(s, actions[..|actions| - 1], batchSize, maxRetries, k) ||
     Sends(Run(s, actions[..|actions| - 1], batchSize, maxRetries), actions[|actions| - 1], batchSize, maxRetries, k))
  }

  lemma {:induction false} PublishedIffSent(s: State, actions: seq<Action>, batchSize: nat, maxRetries: nat, k: nat)
    requires k !in s.published
    ensures k in Run(s, actions, batchSize, maxRetries).published <==> SomeSendSucceeds(s, actions, batchSize, maxRetries, k)
  {
    if |actions| > 0 { PublishedIffSent(s, actions[..|actions| - 1], batchSize, maxRetries, k); }
  }

  /** Out of retries and never sent. */
  predicate Lost(s: State, k: nat, maxRetries: nat) {
    k < |s.table| && !s.table[k].processed && s.table[k].retries >= maxRetries && k !in s.published
  }

  lemma LostStepStaysLost(s: State, a: Action, batchSize: nat, maxRetries: nat, k: nat)
    requires Lost(s, k, maxRetries)
    ensures Lost(Step(s, a, batchSize, maxRetries), k, maxRetries)
  {
    if a.Poll? && Possible(s, a, batchSize, maxRetries) {
      var records, ok := a.records[..a.attempted], a.ok[..a.attempted];
      assert k !in a.records;
      if k in Sent(records, ok) { SentAreRecords(records, ok, k); }
      MarkedAt(s.table, a.records, a.ok, k);
    }
  }

  /** The worker never looks at a lost row again. */
  lemma {:induction false} LostStaysLost(s: State, actions: seq<Action>, batchSize: nat, maxRetries: nat, k: nat)
    requires Lost(s, k, maxRetries)
    ensures Lost(Run(s, actions, batchSize, maxRetries), k, maxRetries)
  {
    if |actions| > 0 {
      LostStaysLost(s, actions[..|actions| - 1], batchSize, maxRetries, k);
      LostStepStaysLost(Run(s, actions[..|actions| - 1], batchSize, maxRetries), actions[|actions| - 1], batchSize, maxRetries, k);
    }
  }

  /**
    Exactly when a committed event is lost: with the polls that settle a row behind it, the row is
    unpublished if and only if none of its sends succeeded, and then it is out of retries and stays
    unpublished for good.
  */
  lemma LostIffNoSendSucceeds(s: State, actions: seq<Action>, later: seq<Action>, batchSize: nat, maxRetries: nat, k: nat)
    requires Honest(s) && batchSize > 0 && k < |s.table| && k !in s.published
    requires CommittedPolls(s, actions, batchSize, maxRetries) >=
             Budget(s.table, s.table[k].createdAt, maxRetries) + LateRows(actions, s.table[k].createdAt) * maxRetries
    ensures var t := Run(s, actions, batchSize, maxRetries);
            (k !in t.published <==> !SomeSendSucceeds(s, actions, batchSize, maxRetries, k)) &&
            (k !in t.published ==> Lost(t, k, maxRetries) && Lost(Run(t, later, batchSize, maxRetries), k, maxRetries))
  {
    var t := Run(s, actions, batchSize, maxRetries);
    PublishedIffSent(s, actions, batchSize, maxRetries, k);
    EveryRowSettles(s, actions, batchSize, maxRetries, k);
    RunIsHonest(s, actions, batchSize, maxRetries);
    if k !in t.published { LostStaysLost(t, later, batchSize, maxRetries, k); }
  }

  // ---------- how many attempts a row gets ----------

  /** Row k is among the records of a committed poll and its send fails. */
  ghost predicate FailsToSend(s: State, a: Action, batchSize: nat, maxRetries: nat, k: nat) {
    Commits(s, a, batchSize, maxRetries) && exists i :: 0 <= i < |a.records| && a.records[i] == k && !a.ok[i]
  }

  ghost function FailedAttempts(s: State, actions: seq<Action>, batchSize: nat, maxRetries: nat, k: nat): nat {
    if |actions| == 0 then 0
    else
      var before := actions[..|actions| - 1];
      FailedAttempts(s, before, batchSize, maxRetries, k) +
      if FailsToSend(Run(s, before, batchSize, maxRetries), actions[|actions| - 1], batchSize, maxRetries, k) then 1 else 0
  }

  lemma {:induction false} MarkedRetries(table: seq<Row>, records: seq<nat>, ok: seq<bool>, k: nat)
    requires |records| == |ok| && InRange(table, records) && k < |table|
    requires forall i, j :: 0 <= i < j < |records| ==> records[i] != records[j]
    ensures Marked(table, records, ok)[k].retries ==
            table[k].retries + if exists i :: 0 <= i < |records| && records[i] == k && !ok[i] then 1 else 0
  {
    if |records| > 0 {
      var n := |records| - 1;
      MarkedRetries(table, records[..n], ok[..n], k);
      if i :| 0 <= i < |records| && records[i] == k && !ok[i] {
        assert i < n ==> records[..n][i] == k && !ok[..n][i];
      }
    }
  }

  function StartingRetries(s: State, k: nat): nat { if k < |s.table| then s.table[k].retries else 0 }

  /** A retry count is what it was, or nothing for a row inserted since, plus the failed attempts that were committed. */
  lemma {:induction false} RetriesCountFailures(s: State, actions: seq<Action>, batchSize: nat, maxRetries: nat, k: nat)
    requires k < |Run(s, actions, batchSize, maxRetries).table|
    ensures Run(s, actions, batchSize, maxRetries).table[k].retries ==
            StartingRetries(s, k) + FailedAttempts(s, actions, batchSize, maxRetries, k)
  {
    if |actions| > 0 {
      var before, a := actions[..|actions| - 1], actions[|actions| - 1];
      var t := Run(s, before, batchSize, maxRetries);
      if k < |t.table| {
        RetriesCountFailures(s, before, batchSize, maxRetries, k);
        if Commits(t, a, batchSize, maxRetries) { MarkedRetries(t.table, a.records, a.ok, k); }
      } else {
        NotThereNotTried(s, before, batchSize, maxRetries, k);
      }
    }
  }

  lemma {:induction false} NotThereNotTried(s: State, actions: seq<Action>, batchSize: nat, maxRetries: nat, k: nat)
    requires k >= |Run(s, actions, batchSize, maxRetries).table|
    ensures k >= |s.table| && FailedAttempts(s, actions, batchSize, maxRetries, k) == 0
  {
    if |actions| > 0 { NotThereNotTried(s, actions[..|actions| - 1], batchSize, maxRetries, k); }
  }

  lemma {:induction false} NeverTriedTooOften(actions: seq<Action>, batchSize: nat, maxRetries: nat, k: nat)
    ensures FailedAttempts(State([], {}), actions, batchSize, maxRetries, k) <= maxRetries
  {
    if |actions| > 0 {
      var before, a := actions[..|actions| - 1], actions[|actions| - 1];
      NeverTriedTooOften(before, batchSize, maxRetries, k);
      if FailsToSend(Run(State([], {}), before, batchSize, maxRetries), a, batchSize, maxRetries, k) {
        RetriesCountFailures(State([], {}), before, batchSize, maxRetries, k);
      }
    }
  }

  /**
    No row is given up early or tried too often: in every run from an empty table an unprocessed row is out
    of retries exactly if its sends have failed max_retries times in committed polls, and never more.
  */
  lemma GivenUpAfterMaxRetries(actions: seq<Action>, batchSize: nat, maxRetries: nat, k: nat)
    requires k < |Run(State([], {}), actions, batchSize, maxRetries).table|
    requires !Run(State([], {}), actions, batchSize, maxRetries).table[k].processed
    ensures Settled(Run(State([], {}), actions, batchSize, maxRetries).table[k], maxRetries) <==>
            FailedAttempts(State([], {}), actions, batchSize, maxRetries, k) == maxRetries
  {
    RetriesCountFailures(State([], {}), actions, batchSize, maxRetries, k);
    NeverTriedTooOften(actions, batchSize, maxRetries, k);
  }

  /** A committed row whose only permitted send fails is lost. */
  lemma FailedSendLosesRow(later: seq<Action>)
    ensures var s := Run(State([], {}), [Insert(0), Poll([0], [false], 1, true)], 1, 1);
            Lost(s, 0, 1) && Lost(Run(s, later, 1, 1), 0, 1)
  {
    var actions := [Insert(0), Poll([0], [false], 1, true)];
    assert actions[..1] == [Insert(0)] && [Insert(0)][..0] == [];
    var one := State([Row(0, false, 0)], {});
    assert Run(State([], {}), [Insert(0)], 1, 1) == one;
    assert OldestPending(one.table, [0], 1, 1) by {
      assert [0][0] == 0 && 0 in [0];
    }
    assert [0][..0] == [] && [false][..0] == [] && [0][..1] == [0] && [false][..1] == [false];
    LostStaysLost(Run(State([], {}), actions, 1, 1), later, 1, 1, 0);
  }
}
