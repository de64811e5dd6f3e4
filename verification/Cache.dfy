/** The two-tier cache-aside lookup with single-flight locks, under an explicit clock. */
module Cache {
  import opened Commerce

  type Key = string

  /** A fetched payload; Null is the result None, which the first tier cannot tell from a miss. */
  datatype Value = Null | Payload(n: int)

  datatype Entry = Entry(value: Value, expiry: real)

  type Store = map<Key, Entry>

  /** A first-tier entry lives up to and including its expiry. */
  function Lookup(store: Store, k: Key, now: real): Value {
    if k in store && now <= store[k].expiry then store[k].value else Null
  }

  /** Reading an expired entry removes it. */
  function AfterLookup(store: Store, k: Key, now: real): Store {
    if k in store && now > store[k].expiry then store - {k} else store
  }

  class LocalCache {
    var store: Store
    const defaultTtl: real

    constructor (defaultTtl: real)
      ensures store == map[] && this.defaultTtl == defaultTtl
    {
      store, this.defaultTtl := map[], defaultTtl;
    }

    method Get(k: Key, now: real) returns (v: Value)
      modifies this
      ensures v == Lookup(old(store), k, now) && store == AfterLookup(old(store), k, now)
      ensures v != Null ==> k in old(store) && now <= old(store)[k].expiry && v == old(store)[k].value
      ensures k in old(store) && now <= old(store)[k].expiry ==> v == old(store)[k].value && store == old(store)
      ensures k in store <==> k in old(store) && now <= old(store)[k].expiry
    {
      if k !in store {
        return Null;
      }
      var entry := store[k];
      if now > entry.expiry {
        store := store - {k};
        return Null;
      }
      v := entry.value;
    }

    method Set(k: Key, v: Value, ttl: Option<real>, now: real)
      modifies this
      ensures store == old(store)[k := Entry(v, now + if ttl.Some? then ttl.value else defaultTtl)]
      ensures forall later: real :: Lookup(store, k, later) ==
                if later <= now + (if ttl.Some? then ttl.value else defaultTtl) then v else Null
    {
      var duration := if ttl.Some? then ttl.value else defaultTtl;
      store := store[k := Entry(v, now + duration)];
    }

    method Delete(k: Key)
      modifies this
      ensures store == old(store) - {k}
    {
      store := store - {k};
    }

    method Clear()
      modifies this
      ensures store == map[]
    {
      store := map[];
    }
  }

  // ---------- many callers ----------

  datatype Config = Config(ttl: real, l1Ttl: real)

  /** A completed fetch from the primary database. */
  datatype Fetch = Fetch(key: Key, value: Value, at: real)

  /** Where a call stands; `redis` tells whether it got hold of a second-tier client. */
  datatype Phase =
    | Waiting(key: Key, redis: bool)
    | Fetching(key: Key, redis: bool)
    | Returned(key: Key, value: Value, at: real)
    | Raised

  datatype State = State(now: real, l1: Store, l2: Store, locks: map<Key, nat>, callers: map<nat, Phase>, fetches: set<Fetch>)

  datatype Action =
    | Start(caller: nat, key: Key, redis: bool, readable: bool)
    | Acquire(caller: nat, readable: bool)
    | Finish(caller: nat, value: Value, writes: bool)
    | Fail(caller: nat)
    | FetchElsewhere(key: Key, value: Value)
    | EvictL1(key: Key)
    | EvictL2(key: Key)
    | Tick(elapsed: real)

  /** A second-tier entry is gone from its expiry on. */
  function LookupL2(store: Store, k: Key, now: real): Option<Value> {
    if k in store && now < store[k].expiry then Some(store[k].value) else None
  }

  /** Both lookups, first tier then second; None means neither had it. */
  function Lookups(c: Config, s: State, caller: nat, k: Key, redis: bool, readable: bool, otherwise: State): State {
    var local := Lookup(s.l1, k, s.now);
    var shared := LookupL2(s.l2, k, s.now);
    if local != Null then s.(callers := s.callers[caller := Returned(k, local, s.now)])
    else if redis && readable && shared.Some? then
      s.(l1 := s.l1[k := Entry(shared.value, s.now + c.l1Ttl)], callers := s.callers[caller := Returned(k, shared.value, s.now)])
    else otherwise
  }

  function Step(c: Config, s: State, a: Action): State {
    match a
    case Start(caller, k, redis, readable) =>
      if caller in s.callers then s
      else
        var missed := s.(l1 := AfterLookup(s.l1, k, s.now));
        Lookups(c, s, caller, k, redis, readable, missed.(callers := s.callers[caller := Waiting(k, redis)]))
    case Acquire(caller, readable) =>
      if caller in s.callers && s.callers[caller].Waiting? && s.callers[caller].key !in s.locks then
        var Waiting(k, redis) := s.callers[caller];
        var missed := s.(l1 := AfterLookup(s.l1, k, s.now));
        Lookups(c, s, caller, k, redis, readable,
                missed.(callers := s.callers[caller := Fetching(k, redis)], locks := s.locks[k := caller]))
      else s
    case Finish(caller, v, writes) =>
      if caller in s.callers && s.callers[caller].Fetching? then
        var Fetching(k, redis) := s.callers[caller];
        State(s.now, s.l1[k := Entry(v, s.now + c.l1Ttl)],
              if redis && writes then s.l2[k := Entry(v, s.now + c.ttl)] else s.l2,
              s.locks - {k}, s.callers[caller := Returned(k, v, s.now)], s.fetches + {Fetch(k, v, s.now)})
      else s
    case Fail(caller) =>
      if caller in s.callers && s.callers[caller].Fetching? then
        s.(locks := s.locks - {s.callers[caller].key}, callers := s.callers[caller := Raised])
      else s
    case FetchElsewhere(k, v) =>
      s.(l2 := s.l2[k := Entry(v, s.now + c.ttl)], fetches := s.fetches + {Fetch(k, v, s.now)})
    case EvictL1(k) => s.(l1 := s.l1 - {k})
    case EvictL2(k) => s.(l2 := s.l2 - {k})
    case Tick(elapsed) => if elapsed >= 0.0 then s.(now := s.now + elapsed) else s
  }

  function Run(c: Config, s: State, actions: seq<Action>): State {
    if |actions| == 0 then s else Step(c, Run(c, s, actions[..|actions| - 1]), actions[|actions| - 1])
  }

  function Initial(now: real): State { State(now, map[], map[], map[], map[], {}) }

  // ---------- staleness ----------

  /** Some fetch of the key gave this value no earlier than `age` before `at`. */
  ghost predicate FetchedWithin(fetches: set<Fetch>, k: Key, v: Value, at: real, age: real) {
    exists f :: f in fetches && f.key == k && f.value == v && at <= f.at + age
  }

  ghost predicate Fresh(c: Config, s: State) {
    (forall k :: k in s.l2 ==> FetchedWithin(s.fetches, k, s.l2[k].value, s.l2[k].expiry, c.ttl)) &&
    (forall k :: k in s.l1 ==> FetchedWithin(s.fetches, k, s.l1[k].value, s.l1[k].expiry, c.ttl + c.l1Ttl)) &&
    (forall i :: i in s.callers && s.callers[i].Returned? ==>
       FetchedWithin(s.fetches, s.callers[i].key, s.callers[i].value, s.callers[i].at, c.ttl + c.l1Ttl))
  }

  lemma MoreFetches(fetches: set<Fetch>, more: set<Fetch>, k: Key, v: Value, at: real, age: real)
    requires fetches <= more && FetchedWithin(fetches, k, v, at, age)
    ensures FetchedWithin(more, k, v, at, age)
  {
    var f :| f in fetches && f.key == k && f.value == v && at <= f.at + age;
    assert f in more;
  }

  lemma Later(fetches: set<Fetch>, k: Key, v: Value, at: real, age: real, at': real, age': real)
    requires FetchedWithin(fetches, k, v, at, age) && at' - at <= age' - age
    ensures FetchedWithin(fetches, k, v, at', age')
  {
    var f :| f in fetches && f.key == k && f.value == v && at <= f.at + age;
    assert at' <= f.at + age';
  }

  lemma LookupsAreFresh(c: Config, s: State, caller: nat, k: Key, redis: bool, readable: bool, otherwise: State)
    requires c.ttl >= 0.0 && c.l1Ttl >= 0.0 && Fresh(c, s) && Fresh(c, otherwise)
    ensures Fresh(c, Lookups(c, s, caller, k, redis, readable, otherwise))
  {
    if Lookup(s.l1, k, s.now) != Null {
      Later(s.fetches, k, s.l1[k].value, s.l1[k].expiry, c.ttl + c.l1Ttl, s.now, c.ttl + c.l1Ttl);
    } else if redis && readable && LookupL2(s.l2, k, s.now).Some? {
      Later(s.fetches, k, s.l2[k].value, s.l2[k].expiry, c.ttl, s.now + c.l1Ttl, c.ttl + c.l1Ttl);
      Later(s.fetches, k, s.l2[k].value, s.l2[k].expiry, c.ttl, s.now, c.ttl + c.l1Ttl);
    }
  }

  lemma FetchIsFresh(c: Config, s: State, s': State, f: Fetch)
    requires c.ttl >= 0.0 && c.l1Ttl >= 0.0 && Fresh(c, s) && s'.fetches == s.fetches + {f}
    requires forall k :: k in s'.l2 ==> (k in s.l2 && s'.l2[k] == s.l2[k]) || (k == f.key && s'.l2[k] == Entry(f.value, f.at + c.ttl))
    requires forall k :: k in s'.l1 ==> (k in s.l1 && s'.l1[k] == s.l1[k]) || (k == f.key && s'.l1[k] == Entry(f.value, f.at + c.l1Ttl))
    requires forall i :: i in s'.callers ==>
               (i in s.callers && s'.callers[i] == s.callers[i]) || s'.callers[i] == Returned(f.key, f.value, f.at)
    ensures Fresh(c, s')
  {
    assert f in s'.fetches;
    forall k | k in s'.l2 ensures FetchedWithin(s'.fetches, k, s'.l2[k].value, s'.l2[k].expiry, c.ttl) {
      if k in s.l2 && s'.l2[k] == s.l2[k] { MoreFetches(s.fetches, s'.fetches, k, s.l2[k].value, s.l2[k].expiry, c.ttl); }
    }
    forall k | k in s'.l1 ensures FetchedWithin(s'.fetches, k, s'.l1[k].value, s'.l1[k].expiry, c.ttl + c.l1Ttl) {
      if k in s.l1 && s'.l1[k] == s.l1[k] { MoreFetches(s.fetches, s'.fetches, k, s.l1[k].value, s.l1[k].expiry, c.ttl + c.l1Ttl); }
    }
    forall i | i in s'.callers && s'.callers[i].Returned?
      ensures FetchedWithin(s'.fetches, s'.callers[i].key, s'.callers[i].value, s'.callers[i].at, c.ttl + c.l1Ttl)
    {
      if i in s.callers && s'.callers[i] == s.callers[i] {
        MoreFetches(s.fetches, s'.fetches, s.callers[i].key, s.callers[i].value, s.callers[i].at, c.ttl + c.l1Ttl);
      }
    }
  }

  lemma StepKeepsFresh(c: Config, s: State, a: Action)
    requires c.ttl >= 0.0 && c.l1Ttl >= 0.0 && Fresh(c, s)
    ensures Fresh(c, Step(c, s, a))
  {
    match a {
      case Start(caller, k, redis, readable) =>
        if caller !in s.callers {
          LookupsAreFresh(c, s, caller, k, redis, readable,
            s.(l1 := AfterLookup(s.l1, k, s.now), callers := s.callers[caller := Waiting(k, redis)]));
        }
      case Acquire(caller, readable) =>
        if caller in s.callers && s.callers[caller].Waiting? && s.callers[caller].key !in s.locks {
          var Waiting(k, redis) := s.callers[caller];
          LookupsAreFresh(c, s, caller, k, redis, readable,
            s.(l1 := AfterLookup(s.l1, k, s.now), callers := s.callers[caller := Fetching(k, redis)], locks := s.locks[k := caller]));
        }
      case Finish(caller, v, writes) =>
        if caller in s.callers && s.callers[caller].Fetching? {
          FetchIsFresh(c, s, Step(c, s, a), Fetch(s.callers[caller].key, v, s.now));
        }
      case FetchElsewhere(k, v) => FetchIsFresh(c, s, Step(c, s, a), Fetch(k, v, s.now));
      case _ =>
    }
  }

  /** Every value ever returned was fetched for its key at most ttl + l1_ttl seconds before it was returned. */
  lemma {:induction false} NothingStaleIsReturned(c: Config, start: real, actions: seq<Action>)
    requires c.ttl >= 0.0 && c.l1Ttl >= 0.0
    ensures Fresh(c, Run(c, Initial(start), actions))
  {
    if |actions| > 0 {
      NothingStaleIsReturned(c, start, actions[..|actions| - 1]);
      StepKeepsFresh(c, Run(c, Initial(start), actions[..|actions| - 1]), actions[|actions| - 1]);
    }
  }

  // ---------- which tier answers ----------

  predicate LiveInFirst(s: State, k: Key) { k in s.l1 && s.now <= s.l1[k].expiry && s.l1[k].value != Null }

  predicate LiveInSecond(s: State, k: Key) { k in s.l2 && s.now < s.l2[k].expiry }

  /** A call on the key is answered by a tier: at once, with no fetch and no lock. */
  ghost predicate AnsweredByTier(c: Config, s: State, s': State, caller: nat, k: Key) {
    && s'.callers == s.callers[caller := Returned(k, if LiveInFirst(s, k) then s.l1[k].value else if k in s.l2 then s.l2[k].value else Null, s.now)]
    && s'.locks == s.locks && s'.fetches == s.fetches && s'.l2 == s.l2
    && (!LiveInFirst(s, k) ==> k in s.l2 && k in s'.l1 && s'.l1[k] == Entry(s.l2[k].value, s.now + c.l1Ttl))
  }

  /**
    Who answers a call: the first tier if it has a live value, else the second if it has a live entry and
    can be read, which then warms the first for l1_ttl; otherwise the call waits for the lock.
  */
  lemma StartIsAnsweredIffLive(c: Config, s: State, caller: nat, k: Key, redis: bool, readable: bool)
    requires caller !in s.callers
    ensures var s' := Step(c, s, Start(caller, k, redis, readable));
            if LiveInFirst(s, k) || (redis && readable && LiveInSecond(s, k)) then AnsweredByTier(c, s, s', caller, k)
            else s'.callers == s.callers[caller := Waiting(k, redis)] && s'.fetches == s.fetches && s'.locks == s.locks
  {
  }

  /** The same behind the lock: without a live entry the caller that gets the free lock fetches. */
  lemma AcquireIsAnsweredIffLive(c: Config, s: State, caller: nat, readable: bool)
    requires caller in s.callers && s.callers[caller].Waiting? && s.callers[caller].key !in s.locks
    ensures var s', k, redis := Step(c, s, Acquire(caller, readable)), s.callers[caller].key, s.callers[caller].redis;
            if LiveInFirst(s, k) || (redis && readable && LiveInSecond(s, k)) then AnsweredByTier(c, s, s', caller, k)
            else s'.callers == s.callers[caller := Fetching(k, redis)] && k in s'.locks && s'.locks[k] == caller
  {
  }

  lemma SecondTierOnlyRenewed(c: Config, s: State, a: Action, k: Key, until: real)
    requires c.ttl >= 0.0 && a != EvictL2(k) && k in s.l2 && s.l2[k].expiry >= until && until <= s.now + c.ttl
    ensures k in Step(c, s, a).l2 && Step(c, s, a).l2[k].expiry >= until && s.now <= Step(c, s, a).now
  {
  }

  lemma {:induction false} SecondTierLasts(c: Config, s: State, actions: seq<Action>, k: Key, until: real)
    requires c.ttl >= 0.0 && k in s.l2 && s.l2[k].expiry >= until && until <= s.now + c.ttl
    requires forall j :: 0 <= j < |actions| ==> actions[j] != EvictL2(k)
    ensures var t := Run(c, s, actions); k in t.l2 && t.l2[k].expiry >= until && s.now <= t.now
  {
    if |actions| > 0 {
      SecondTierLasts(c, s, actions[..|actions| - 1], k, until);
      SecondTierOnlyRenewed(c, Run(c, s, actions[..|actions| - 1]), actions[|actions| - 1], k, until);
    }
  }

  /**
    A fetch serves its key for the whole ttl: after one that wrote the second tier, every call on the key
    that can read it is answered by a tier without a fetch until ttl has passed or the entry is evicted.
  */
  lemma FetchServesForTtl(c: Config, s: State, fetcher: nat, v: Value, actions: seq<Action>, i: nat)
    requires c.ttl >= 0.0 && fetcher in s.callers && s.callers[fetcher].Fetching? && s.callers[fetcher].redis
    requires forall j :: 0 <= j < |actions| ==> actions[j] != EvictL2(s.callers[fetcher].key)
    requires Run(c, Step(c, s, Finish(fetcher, v, true)), actions).now < s.now + c.ttl
    requires i !in Run(c, Step(c, s, Finish(fetcher, v, true)), actions).callers
    ensures var k, t := s.callers[fetcher].key, Run(c, Step(c, s, Finish(fetcher, v, true)), actions);
            AnsweredByTier(c, t, Step(c, t, Start(i, k, true, true)), i, k)
  {
    var k, stored := s.callers[fetcher].key, Step(c, s, Finish(fetcher, v, true));
    SecondTierLasts(c, stored, actions, k, s.now + c.ttl);
    StartIsAnsweredIffLive(c, Run(c, stored, actions), i, k, true, true);
  }

  // ---------- single flight ----------

  /** The lock of a key is held by the one caller that is fetching it. */
  ghost predicate LocksAreFetches(s: State) {
    (forall k :: k in s.locks ==> s.locks[k] in s.callers && s.callers[s.locks[k]].Fetching? && s.callers[s.locks[k]].key == k) &&
    (forall i :: i in s.callers && s.callers[i].Fetching? ==> s.callers[i].key in s.locks && s.locks[s.callers[i].key] == i)
  }

  lemma {:induction false} OneFetchAtATime(c: Config, start: real, actions: seq<Action>, i: nat, j: nat)
    ensures LocksAreFetches(Run(c, Initial(start), actions))
    ensures var callers := Run(c, Initial(start), actions).callers;
            i in callers && j in callers && callers[i].Fetching? && callers[j].Fetching? && callers[i].key == callers[j].key ==> i == j
  {
    if |actions| > 0 {
      OneFetchAtATime(c, start, actions[..|actions| - 1], i, j);
      StepKeepsLocks(c, Run(c, Initial(start), actions[..|actions| - 1]), actions[|actions| - 1]);
    }
  }

  lemma StepKeepsLocks(c: Config, s: State, a: Action)
    requires LocksAreFetches(s)
    ensures LocksAreFetches(Step(c, s, a))
  {
  }

  /** The first tier holds a live value for the key and nobody is fetching it. */
  predicate Warm(s: State, k: Key, entry: Entry) {
    k in s.l1 && s.l1[k] == entry && entry.value != Null && k !in s.locks
  }

  /** A successful fetch warms the first tier, and the second if it can be written. */
  lemma FinishWarms(c: Config, s: State, caller: nat, v: Value, writes: bool)
    requires caller in s.callers && s.callers[caller].Fetching? && v != Null
    ensures Warm(Step(c, s, Finish(caller, v, writes)), s.callers[caller].key, Entry(v, s.now + c.l1Ttl))
    ensures s.callers[caller].redis && writes && c.ttl > 0.0 ==>
              LookupL2(Step(c, s, Finish(caller, v, writes)).l2, s.callers[caller].key, s.now) == Some(v)
  {
  }

  lemma StepKeepsWarm(c: Config, s: State, a: Action, k: Key, entry: Entry)
    requires LocksAreFetches(s) && Warm(s, k, entry) && s.now <= entry.expiry && a != EvictL1(k)
    ensures Warm(Step(c, s, a), k, entry)
    ensures forall i :: i in s.callers && s.callers[i].Waiting? && s.callers[i].key == k ==>
              i in Step(c, s, a).callers &&
              (Step(c, s, a).callers[i] == s.callers[i] || Step(c, s, a).callers[i] == Returned(k, entry.value, s.now))
  {
  }

  /** Nobody waits, was answered from the warm entry, or does not concern the key. */
  predicate Settled(phase: Phase, before: Phase, k: Key, v: Value) {
    phase == before || (phase.Returned? && phase.key == k && phase.value == v)
  }

  lemma StepServes(c: Config, s: State, a: Action, k: Key, entry: Entry, i: nat, before: Phase)
    requires LocksAreFetches(s) && Warm(s, k, entry) && s.now <= entry.expiry && a != EvictL1(k)
    requires before.Waiting? && before.key == k && i in s.callers && Settled(s.callers[i], before, k, entry.value)
    ensures Warm(Step(c, s, a), k, entry) && LocksAreFetches(Step(c, s, a)) && s.now <= Step(c, s, a).now
    ensures i in Step(c, s, a).callers && Settled(Step(c, s, a).callers[i], before, k, entry.value)
  {
    StepKeepsLocks(c, s, a);
    StepKeepsWarm(c, s, a, k, entry);
  }

  lemma TimePasses(c: Config, s: State, a: Action)
    ensures s.now <= Step(c, s, a).now
  {
  }

  /**
    A caller that waited behind a successful fetch of a non-null value, and moves while the entry is
    live and not evicted, returns that value and fetches nothing.
  */
  lemma {:induction false} WaitersAreServed(c: Config, s: State, actions: seq<Action>, k: Key, entry: Entry, i: nat)
    requires LocksAreFetches(s) && Warm(s, k, entry)
    requires Run(c, s, actions).now <= entry.expiry && forall j :: 0 <= j < |actions| ==> actions[j] != EvictL1(k)
    requires i in s.callers && s.callers[i].Waiting? && s.callers[i].key == k
    ensures var t := Run(c, s, actions);
            LocksAreFetches(t) && Warm(t, k, entry) && s.now <= t.now &&
            i in t.callers && Settled(t.callers[i], s.callers[i], k, entry.value)
  {
    if |actions| > 0 {
      var before, a := actions[..|actions| - 1], actions[|actions| - 1];
      TimePasses(c, Run(c, s, before), a);
      WaitersAreServed(c, s, before, k, entry, i);
      StepServes(c, Run(c, s, before), a, k, entry, i, s.callers[i]);
    }
  }

  /** When such a caller gets the lock, it returns the value at once. */
  lemma AcquireServesWarm(c: Config, s: State, i: nat, readable: bool, k: Key, entry: Entry)
    requires Warm(s, k, entry) && s.now <= entry.expiry
    requires i in s.callers && s.callers[i].Waiting? && s.callers[i].key == k
    ensures Step(c, s, Acquire(i, readable)) == s.(callers := s.callers[i := Returned(k, entry.value, s.now)])
  {
  }

  /**
    Single flight, from the fetch to the waiter: in every reachable state, once a caller finishes with a
    non-null value, each caller that was waiting for the key has returned that value or is still waiting
    and returns it without fetching when it gets the lock, while the entry is live and not evicted.
  */
  lemma FetchServesWaiters(c: Config, start: real, before: seq<Action>, fetcher: nat, v: Value, writes: bool,
                           actions: seq<Action>, i: nat, readable: bool)
    requires var s := Run(c, Initial(start), before);
             && fetcher in s.callers && s.callers[fetcher].Fetching? && v != Null
             && i in s.callers && s.callers[i].Waiting? && s.callers[i].key == s.callers[fetcher].key
             && Run(c, Step(c, s, Finish(fetcher, v, writes)), actions).now <= s.now + c.l1Ttl
             && forall j :: 0 <= j < |actions| ==> actions[j] != EvictL1(s.callers[fetcher].key)
    ensures var s := Run(c, Initial(start), before);
            var k, t := s.callers[fetcher].key, Run(c, Step(c, s, Finish(fetcher, v, writes)), actions);
            && i in t.callers
            && ((t.callers[i].Returned? && t.callers[i].key == k && t.callers[i].value == v) ||
                (t.callers[i] == s.callers[i] &&
                 Step(c, t, Acquire(i, readable)) == t.(callers := t.callers[i := Returned(k, v, t.now)])))
  {
    var s := Run(c, Initial(start), before);
    var k, entry, warm := s.callers[fetcher].key, Entry(v, s.now + c.l1Ttl), Step(c, s, Finish(fetcher, v, writes));
    OneFetchAtATime(c, start, before, fetcher, fetcher);
    StepKeepsLocks(c, s, Finish(fetcher, v, writes));
    FinishWarms(c, s, fetcher, v, writes);
    WaitersAreServed(c, warm, actions, k, entry, i);
    var t := Run(c, warm, actions);
    if t.callers[i] == s.callers[i] { AcquireServesWarm(c, t, i, readable, k, entry); }
  }
}
