/** The fixed-window request limiter: a counter per key that expires a window after its first hit. */
module RateLimit {
  type Key = string

  /** A Redis counter with the instant it disappears. */
  datatype Counter = Counter(count: nat, expires: int)

  datatype Config = Config(maxRequests: nat, window: nat)

  datatype Request = Request(key: Key, at: int)

  predicate Running(store: map<Key, Counter>, r: Request) { r.key in store && r.at < store[r.key].expires }

  /** INCR, and EXPIRE on a first hit, as one step. */
  function Counted(c: Config, store: map<Key, Counter>, r: Request): Counter {
    if Running(store, r) then store[r.key].(count := store[r.key].count + 1) else Counter(1, r.at + c.window)
  }

  class RateLimiter {
    const config: Config
    var store: map<Key, Counter>

    constructor (config: Config)
      ensures store == map[] && this.config == config
    {
      this.config, store := config, map[];
    }

    method Call(r: Request) returns (admitted: bool)
      modifies this
      ensures store == old(store)[r.key := Counted(config, old(store), r)]
      ensures admitted <==> Counted(config, old(store), r).count <= config.maxRequests
    {
      var count, expires := 1, r.at + config.window;
      if r.key in store && r.at < store[r.key].expires {
        count, expires := store[r.key].count + 1, store[r.key].expires;
      }
      store := store[r.key := Counter(count, expires)];
      admitted := count <= config.maxRequests;
    }
  }

  function After(c: Config, requests: seq<Request>): map<Key, Counter> {
    if |requests| == 0 then map[]
    else
      var before := After(c, requests[..|requests| - 1]);
      var r := requests[|requests| - 1];
      before[r.key := Counted(c, before, r)]
  }

  predicate Admitted(c: Config, requests: seq<Request>, i: nat)
    requires i < |requests|
  {
    Counted(c, After(c, requests[..i]), requests[i]).count <= c.maxRequests
  }

  /** The instant the window of request i opened. */
  function WindowStart(c: Config, requests: seq<Request>, i: nat): int
    requires i < |requests|
  {
    Counted(c, After(c, requests[..i]), requests[i]).expires - c.window
  }

  /** Time does not run backwards. */
  predicate Ordered(requests: seq<Request>) {
    forall i, j :: 0 <= i < j < |requests| ==> requests[i].at <= requests[j].at
  }

  /** Admitted requests of a key that arrived in the span [from, from + window). */
  function AdmittedIn(c: Config, requests: seq<Request>, k: Key, from: int): nat {
    if |requests| == 0 then 0
    else
      var n := |requests| - 1;
      AdmittedIn(c, requests[..n], k, from) +
      if requests[n].key == k && Admitted(c, requests, n) && from <= requests[n].at < from + c.window then 1 else 0
  }

  /** Admitted requests of a key whose window opened in [from, from + window). */
  function AdmittedByWindow(c: Config, requests: seq<Request>, k: Key, from: int): nat {
    if |requests| == 0 then 0
    else
      var n := |requests| - 1;
      AdmittedByWindow(c, requests[..n], k, from) +
      if requests[n].key == k && Admitted(c, requests, n) && from <= WindowStart(c, requests, n) < from + c.window then 1 else 0
  }

  predicate Within(c: Config, counter: Counter, from: int) {
    from <= counter.expires - c.window < from + c.window
  }

  function Least(a: nat, b: nat): nat { if a <= b then a else b }

  /**
    At most one window of a key opens in any span as long as a window, so a window, and any such
    group of windows, admits at most max_requests requests.
  */
  lemma {:induction false} WindowsAdmitMax(c: Config, requests: seq<Request>, k: Key, from: int)
    requires Ordered(requests)
    ensures AdmittedByWindow(c, requests, k, from) <= c.maxRequests
    ensures var store := After(c, requests);
            k !in store || store[k].expires - c.window < from ==> AdmittedByWindow(c, requests, k, from) == 0
    ensures var store := After(c, requests);
            k in store && Within(c, store[k], from) ==> AdmittedByWindow(c, requests, k, from) == Least(store[k].count, c.maxRequests)
    ensures var store := After(c, requests);
            k in store && |requests| > 0 ==> store[k].expires - c.window <= requests[|requests| - 1].at
  {
    if |requests| > 0 {
      var n := |requests| - 1;
      var before := requests[..n];
      WindowsAdmitMax(c, before, k, from);
      assert n > 0 ==> before[|before| - 1].at <= requests[n].at;
    }
  }

  /** A request falls into its window. */
  lemma {:induction false} StartsAreRecent(c: Config, requests: seq<Request>, k: Key, from: int)
    requires Ordered(requests)
    ensures AdmittedIn(c, requests, k, from) <=
            AdmittedByWindow(c, requests, k, from - c.window) + AdmittedByWindow(c, requests, k, from)
  {
    if |requests| > 0 {
      var n := |requests| - 1;
      var before := requests[..n];
      StartsAreRecent(c, before, k, from);
      WindowsAdmitMax(c, before, requests[n].key, from);
      assert n > 0 ==> before[|before| - 1].at <= requests[n].at;
    }
  }

  /** Every half-open span of one window length admits at most twice the maximum, for any arrivals. */
  lemma SpansAdmitTwiceMax(c: Config, requests: seq<Request>, k: Key, from: int)
    requires Ordered(requests)
    ensures AdmittedIn(c, requests, k, from) <= 2 * c.maxRequests
  {
    StartsAreRecent(c, requests, k, from);
    WindowsAdmitMax(c, requests, k, from - c.window);
    WindowsAdmitMax(c, requests, k, from);
  }

  /** The current window of a key opened no earlier than any of its requests' windows, and not within a length of an older one. */
  lemma {:induction false} LatestWindow(c: Config, requests: seq<Request>, i: nat)
    requires Ordered(requests) && i < |requests|
    ensures var store := After(c, requests);
            requests[i].key in store &&
            (WindowStart(c, requests, i) == store[requests[i].key].expires - c.window ||
             WindowStart(c, requests, i) + c.window <= store[requests[i].key].expires - c.window)
    ensures WindowStart(c, requests, i) <= requests[i].at
  {
    var n := |requests| - 1;
    var before := requests[..n];
    if i < n {
      LatestWindow(c, before, i);
      assert before[..i] == requests[..i];
    } else if n > 0 {
      WindowsAdmitMax(c, before, requests[n].key, 0);
      assert before[|before| - 1].at <= requests[n].at;
    }
  }

  /** Requests of the key before request i that fell into its window. */
  function HitsBefore(c: Config, requests: seq<Request>, k: Key, start: int): nat {
    if |requests| == 0 then 0
    else
      var n := |requests| - 1;
      HitsBefore(c, requests[..n], k, start) + if requests[n].key == k && WindowStart(c, requests, n) == start then 1 else 0
  }

  /** A counter holds the hits of its window, and no window of the key opened later. */
  lemma {:induction false} CounterCountsHits(c: Config, requests: seq<Request>, k: Key)
    requires Ordered(requests) && c.window > 0
    ensures var store := After(c, requests);
            k in store ==> store[k].count == HitsBefore(c, requests, k, store[k].expires - c.window)
    ensures forall start :: HitsBefore(c, requests, k, start) > 0 ==>
              k in After(c, requests) && start <= After(c, requests)[k].expires - c.window
  {
    if |requests| > 0 {
      var n := |requests| - 1;
      CounterCountsHits(c, requests[..n], k);
    }
  }

  /**
    A request falls into a window that opened at it or less than a window length before it, and is admitted
    exactly if fewer than max_requests requests of its key fell into that window before it.
  */
  lemma AdmittedIffRoom(c: Config, requests: seq<Request>, i: nat)
    requires Ordered(requests) && c.window > 0 && i < |requests|
    ensures var start := WindowStart(c, requests, i);
            start <= requests[i].at < start + c.window &&
            (Admitted(c, requests, i) <==> HitsBefore(c, requests[..i], requests[i].key, start) < c.maxRequests)
  {
    var k, before := requests[i].key, requests[..i];
    CounterCountsHits(c, before, k);
    WindowsAdmitMax(c, before, k, 0);
    if i > 0 { assert before[i - 1].at <= requests[i].at; }
  }

  /** Two requests of a key share a window, or the later one's window opened a full length after the earlier one's. */
  lemma WindowsAreApart(c: Config, requests: seq<Request>, i: nat, j: nat)
    requires Ordered(requests) && i < j < |requests| && requests[i].key == requests[j].key
    ensures WindowStart(c, requests, i) == WindowStart(c, requests, j) ||
            WindowStart(c, requests, i) + c.window <= WindowStart(c, requests, j)
  {
    LatestWindow(c, requests[..j], i);
    assert requests[..j][..i] == requests[..i];
  }
}
