/** The circuit breaker, with the retry policy it is wrapped around. */
module Breaker {
  datatype CircuitState = Closed | Open | HalfOpen

  datatype Status = Status(state: CircuitState, failures: nat, since: real)

  datatype Config = Config(threshold: int, recovery: real)

  datatype Result = Rejected | Succeeded | Failed

  /** OPEN becomes HALF_OPEN once the recovery timeout has passed. */
  function Checked(c: Config, b: Status, now: real): Status {
    if b.state.Open? && now - b.since >= c.recovery then Status(HalfOpen, b.failures, now) else b
  }

  function Recovered(b: Status, now: real): Status {
    if b.state.Closed? then b.(failures := 0) else Status(Closed, 0, now)
  }

  /** Only a CLOSED breaker opens; a failure in HALF_OPEN leaves it HALF_OPEN. */
  function Worsened(c: Config, b: Status, now: real): Status {
    if b.state.Closed? && b.failures + 1 >= c.threshold then Status(Open, b.failures + 1, now)
    else b.(failures := b.failures + 1)
  }

  /** What a whole call does when nothing else runs meanwhile. */
  function AfterCall(c: Config, maxAttempts: nat, b: Status, call: Call): Status {
    var checked := Checked(c, b, call.start);
    if checked.state.Open? then checked
    else if SomeAttemptSucceeds(maxAttempts, call.outcome) then Recovered(checked, call.finish)
    else Worsened(c, checked, call.finish)
  }

  /** A call of the wrapped operation: attempt i, if it is made, succeeds if outcome(i). */
  datatype Call = Call(start: real, finish: real, outcome: nat -> bool)

  class CircuitBreaker {
    const config: Config
    var state: CircuitState
    var failureCount: nat
    var lastStateChange: real

    ghost function Value(): Status
      reads this
    {
      Status(state, failureCount, lastStateChange)
    }

    constructor (config: Config, now: real)
      ensures Value() == Status(Closed, 0, now) && this.config == config
    {
      this.config, state, failureCount, lastStateChange := config, Closed, 0, now;
    }

    method TransitionTo(newState: CircuitState, now: real)
      modifies this
      ensures Value() == Status(newState, old(failureCount), now)
    {
      state, lastStateChange := newState, now;
    }

    method RecordSuccess(now: real)
      modifies this
      ensures Value() == Recovered(old(Value()), now)
    {
      failureCount := 0;
      if state != Closed {
        TransitionTo(Closed, now);
      }
    }

    method RecordFailure(now: real)
      modifies this
      ensures Value() == Worsened(config, old(Value()), now)
    {
      failureCount := failureCount + 1;
      if state == Closed && failureCount >= config.threshold {
        TransitionTo(Open, now);
      }
    }

    method CheckState(now: real)
      modifies this
      ensures Value() == Checked(config, old(Value()), now)
    {
      if state == Open {
        var elapsed := now - lastStateChange;
        if elapsed >= config.recovery {
          TransitionTo(HalfOpen, now);
        }
      }
    }

    /** The wrapped operation: breaker outside, retry inside. */
    method Execute(call: Call, maxAttempts: nat) returns (result: Result, invocations: nat)
      modifies this
      ensures result.Rejected? <==> old(state).Open? && call.start < old(lastStateChange) + config.recovery
      ensures result.Succeeded? <==> !result.Rejected? && SomeAttemptSucceeds(maxAttempts, call.outcome)
      ensures Value() == AfterCall(config, maxAttempts, old(Value()), call)
      ensures invocations == InvocationsOf(config, maxAttempts, old(Value()), call)
    {
      CheckState(call.start);
      if state == Open {
        return Rejected, 0;
      }
      var ok;
      ok, invocations := Retry(maxAttempts, call.outcome);
      if ok {
        RecordSuccess(call.finish);
        result := Succeeded;
      } else {
        RecordFailure(call.finish);
        result := Failed;
      }
    }
  }

  predicate SomeAttemptSucceeds(maxAttempts: nat, outcome: nat -> bool) {
    exists i :: 0 <= i < Attempts(maxAttempts) && outcome(i)
  }

  /** Invocations that a call makes: none if it is rejected. */
  function InvocationsOf(c: Config, maxAttempts: nat, b: Status, call: Call): nat {
    if Checked(c, b, call.start).state.Open? then 0 else Invocations(maxAttempts, call.outcome)
  }

  /** The policy stops after max_attempts, but only ever looks after an attempt. */
  function Attempts(maxAttempts: nat): nat { if maxAttempts == 0 then 1 else maxAttempts }

  /** One more than the failures before the first success, or all attempts. */
  function Invocations(maxAttempts: nat, outcome: nat -> bool): nat {
    InvocationsFrom(Attempts(maxAttempts), outcome, 0)
  }

  function InvocationsFrom(n: nat, outcome: nat -> bool, i: nat): (r: nat)
    requires i < n
    ensures i < r <= n
    ensures forall j :: i <= j < r - 1 ==> !outcome(j)
    ensures r == n || outcome(r - 1)
    decreases n - i
  {
    if outcome(i) || i + 1 == n then i + 1 else InvocationsFrom(n, outcome, i + 1)
  }

  method Retry(maxAttempts: nat, outcome: nat -> bool) returns (ok: bool, invocations: nat)
    ensures ok <==> SomeAttemptSucceeds(maxAttempts, outcome)
    ensures invocations == Invocations(maxAttempts, outcome)
    ensures 1 <= invocations && (maxAttempts >= 1 ==> invocations <= maxAttempts)
    ensures forall i :: 0 <= i < invocations - 1 ==> !outcome(i)
    ensures if ok then outcome(invocations - 1) else !outcome(invocations - 1) && invocations >= maxAttempts
    ensures maxAttempts == 0 ==> invocations == 1
  {
    ok, invocations := false, 0;
    while true
      invariant invocations < Attempts(maxAttempts) && !ok
      invariant forall i :: 0 <= i < invocations ==> !outcome(i)
      invariant InvocationsFrom(Attempts(maxAttempts), outcome, invocations) == Invocations(maxAttempts, outcome)
      decreases Attempts(maxAttempts) - invocations
    {
      ok := outcome(invocations);
      invocations := invocations + 1;
      if ok || invocations >= maxAttempts {
        return;
      }
    }
  }

  // ---------- any interleaving of calls ----------

  /** Calls overlap: each starts with a check, and ends in its own time. */
  datatype Event = Starts(now: real) | Succeeds(now: real) | Fails(now: real)

  /** The breaker and the calls it has let through and that have not ended. */
  datatype System = System(breaker: Status, running: nat)

  function Step(c: Config, s: System, e: Event): System {
    match e
    case Starts(now) =>
      var b := Checked(c, s.breaker, now);
      System(b, if b.state.Open? then s.running else s.running + 1)
    case Succeeds(now) => if s.running > 0 then System(Recovered(s.breaker, now), s.running - 1) else s
    case Fails(now) => if s.running > 0 then System(Worsened(c, s.breaker, now), s.running - 1) else s
  }

  function Run(c: Config, s: System, events: seq<Event>): System {
    if |events| == 0 then s else Step(c, Run(c, s, events[..|events| - 1]), events[|events| - 1])
  }

  /** Event i ends a call that was running. */
  predicate Ends(c: Config, s: System, events: seq<Event>, i: nat)
    requires i < |events|
  {
    !events[i].Starts? && Run(c, s, events[..i]).running > 0
  }

  /** Failed calls after the last successful one. */
  function FailuresSinceSuccess(c: Config, s: System, events: seq<Event>): nat {
    if |events| == 0 then 0
    else
      var n := |events| - 1;
      var before := FailuresSinceSuccess(c, s, events[..n]);
      if !Ends(c, s, events, n) then before else if events[n].Succeeds? then 0 else before + 1
  }

  /**
    In every interleaving the count is the failures since the last success, and the breaker is
    CLOSED exactly while that count is below the threshold.
  */
  lemma {:induction false} CountAndStateAgree(c: Config, created: real, events: seq<Event>)
    requires c.threshold >= 1
    ensures var s0 := System(Status(Closed, 0, created), 0);
            var b := Run(c, s0, events).breaker;
            b.failures == FailuresSinceSuccess(c, s0, events) && (b.state.Closed? <==> b.failures < c.threshold)
  {
    if |events| > 0 {
      CountAndStateAgree(c, created, events[..|events| - 1]);
    }
  }

  /** A threshold below one breaks the rule from the start. */
  lemma ThresholdMatters(c: Config, created: real)
    ensures (forall events: seq<Event> :: var b := Run(c, System(Status(Closed, 0, created), 0), events).breaker;
               b.state.Closed? <==> b.failures < c.threshold) <==> c.threshold >= 1
  {
    var s0 := System(Status(Closed, 0, created), 0);
    if c.threshold >= 1 {
      forall events: seq<Event>
        ensures var b := Run(c, s0, events).breaker; b.state.Closed? <==> b.failures < c.threshold
      {
        CountAndStateAgree(c, created, events);
      }
    } else {
      assert Run(c, s0, []).breaker == s0.breaker;
    }
  }

  /** The breaker is still OPEN since the same moment and has let nothing new through. */
  predicate StillShut(s: System, t: System) {
    t.breaker.state.Open? && t.breaker.since == s.breaker.since && t.running <= s.running
  }

  /** A call that was running when the breaker opened ends well. */
  predicate SomeRunningSucceeds(c: Config, s: System, events: seq<Event>) {
    exists i :: 0 <= i < |events| && events[i].Succeeds? && Ends(c, s, events, i)
  }

  lemma {:induction false} ShutWhileNoneSucceeds(c: Config, s: System, events: seq<Event>)
    requires s.breaker.state.Open? && !SomeRunningSucceeds(c, s, events)
    requires forall i :: 0 <= i < |events| && events[i].Starts? ==> events[i].now < s.breaker.since + c.recovery
    ensures StillShut(s, Run(c, s, events))
  {
    if |events| > 0 {
      var before, n := events[..|events| - 1], |events| - 1;
      forall i | 0 <= i < n && before[i].Succeeds? ensures !Ends(c, s, before, i) {
        assert before[..i] == events[..i];
        assert !Ends(c, s, events, i);
      }
      ShutWhileNoneSucceeds(c, s, before);
      assert events[n].Succeeds? ==> !Ends(c, s, events, n);
    }
  }

  /**
    Before the recovery timeout an OPEN breaker stays shut, letting no call through, for as long as and
    only as long as none of the calls still running from before succeeds.
  */
  lemma OpenLetsNothingThrough(c: Config, s: System, events: seq<Event>)
    requires s.breaker.state.Open?
    requires forall i :: 0 <= i < |events| && events[i].Starts? ==> events[i].now < s.breaker.since + c.recovery
    ensures (forall k :: 0 <= k <= |events| ==> StillShut(s, Run(c, s, events[..k]))) <==> !SomeRunningSucceeds(c, s, events)
  {
    if SomeRunningSucceeds(c, s, events) {
      var i :| 0 <= i < |events| && events[i].Succeeds? && Ends(c, s, events, i);
      assert events[..i + 1][..i] == events[..i];
      assert !StillShut(s, Run(c, s, events[..i + 1]));
    } else {
      forall k | 0 <= k <= |events| ensures StillShut(s, Run(c, s, events[..k])) {
        forall i | 0 <= i < k && events[..k][i].Succeeds? ensures !Ends(c, s, events[..k], i) {
          assert events[..k][..i] == events[..i];
          assert !Ends(c, s, events, i);
        }
        ShutWhileNoneSucceeds(c, s, events[..k]);
      }
    }
  }

  // ---------- recovery ----------

  /** A start is turned away exactly while the breaker is OPEN and its recovery timeout has not passed. */
  lemma TurnedAwayIffRecovering(c: Config, s: System, now: real)
    ensures Step(c, s, Starts(now)).running == s.running <==> s.breaker.state.Open? && now < s.breaker.since + c.recovery
    ensures Step(c, s, Starts(now)).running == s.running || Step(c, s, Starts(now)).running == s.running + 1
    ensures s.breaker.state.Open? && now >= s.breaker.since + c.recovery ==>
              Step(c, s, Starts(now)).breaker == Status(HalfOpen, s.breaker.failures, now)
  {
  }

  /** Every call that starts is let through. */
  predicate AllLetThrough(c: Config, s: System, events: seq<Event>) {
    forall i :: 0 <= i < |events| && events[i].Starts? ==> Run(c, s, events[..i + 1]).running == Run(c, s, events[..i]).running + 1
  }

  lemma {:induction false} HalfOpenWhileNoneSucceeds(c: Config, s: System, events: seq<Event>)
    requires s.breaker.state.HalfOpen? && !SomeRunningSucceeds(c, s, events)
    ensures Run(c, s, events).breaker.state.HalfOpen?
  {
    if |events| > 0 {
      var n := |events| - 1;
      NoneSucceedsBefore(c, s, events, n);
      HalfOpenWhileNoneSucceeds(c, s, events[..n]);
      assert events[n].Succeeds? ==> !Ends(c, s, events, n);
    }
  }

  lemma NoneSucceedsBefore(c: Config, s: System, events: seq<Event>, k: nat)
    requires k <= |events| && !SomeRunningSucceeds(c, s, events)
    ensures !SomeRunningSucceeds(c, s, events[..k])
  {
    forall i | 0 <= i < k && events[..k][i].Succeeds? ensures !Ends(c, s, events[..k], i) {
      assert events[..k][..i] == events[..i];
      assert !Ends(c, s, events, i);
    }
  }

  lemma SuccessCloses(c: Config, s: System, now: real)
    requires s.running > 0
    ensures Step(c, s, Succeeds(now)).breaker.state.Closed? && Step(c, s, Succeeds(now)).breaker.failures == 0
  {
  }

  /**
    A HALF_OPEN breaker stays so, whatever fails, and lets every call through, for as long as and only as
    long as none of its calls succeeds; the success closes it with its count at nothing.
  */
  lemma HalfOpenTriesUntilSuccess(c: Config, s: System, events: seq<Event>)
    requires s.breaker.state.HalfOpen?
    ensures (forall k :: 0 <= k <= |events| ==> Run(c, s, events[..k]).breaker.state.HalfOpen?) <==> !SomeRunningSucceeds(c, s, events)
    ensures !SomeRunningSucceeds(c, s, events) ==> AllLetThrough(c, s, events)
    ensures forall i :: 0 <= i < |events| && events[i].Succeeds? && Ends(c, s, events, i) ==>
              Run(c, s, events[..i + 1]).breaker.state.Closed? && Run(c, s, events[..i + 1]).breaker.failures == 0
  {
    forall i | 0 <= i < |events| ensures Run(c, s, events[..i + 1]) == Step(c, Run(c, s, events[..i]), events[i]) {
      assert events[..i + 1][..i] == events[..i];
    }
    if !SomeRunningSucceeds(c, s, events) {
      forall k | 0 <= k <= |events| ensures Run(c, s, events[..k]).breaker.state.HalfOpen? {
        NoneSucceedsBefore(c, s, events, k);
        HalfOpenWhileNoneSucceeds(c, s, events[..k]);
      }
    } else {
      var i :| 0 <= i < |events| && events[i].Succeeds? && Ends(c, s, events, i);
      assert Run(c, s, events[..i + 1]).breaker.state.Closed?;
    }
  }

  /** A call that nothing else overlaps is its start followed by its end. */
  lemma CallIsStartThenEnd(c: Config, maxAttempts: nat, b: Status, call: Call)
    ensures var ends := if SomeAttemptSucceeds(maxAttempts, call.outcome) then Succeeds(call.finish) else Fails(call.finish);
            Run(c, System(b, 0), [Starts(call.start), ends]) == System(AfterCall(c, maxAttempts, b, call), 0)
  {
    var ends := if SomeAttemptSucceeds(maxAttempts, call.outcome) then Succeeds(call.finish) else Fails(call.finish);
    var both := [Starts(call.start), ends];
    assert both[..1] == [Starts(call.start)] && [Starts(call.start)][..0] == [];
    assert Run(c, System(b, 0), [Starts(call.start)]) == Step(c, System(b, 0), Starts(call.start));
    assert Run(c, System(b, 0), both) == Step(c, Run(c, System(b, 0), both[..1]), ends);
  }

  // ---------- failing calls one after another ----------

  function AfterCalls(c: Config, maxAttempts: nat, b: Status, calls: seq<Call>): Status {
    if |calls| == 0 then b
    else AfterCall(c, maxAttempts, AfterCalls(c, maxAttempts, b, calls[..|calls| - 1]), calls[|calls| - 1])
  }

  /** Invocations of the operation over the calls. */
  function TotalInvocations(c: Config, maxAttempts: nat, b: Status, calls: seq<Call>): nat {
    if |calls| == 0 then 0
    else
      var before := calls[..|calls| - 1];
      TotalInvocations(c, maxAttempts, b, before) +
      InvocationsOf(c, maxAttempts, AfterCalls(c, maxAttempts, b, before), calls[|calls| - 1])
  }

  lemma AllAttemptsAreMade(maxAttempts: nat, outcome: nat -> bool)
    requires forall i :: 0 <= i < Attempts(maxAttempts) ==> !outcome(i)
    ensures Invocations(maxAttempts, outcome) == Attempts(maxAttempts) && !SomeAttemptSucceeds(maxAttempts, outcome)
  {
  }

  /** Calls after the breaker opened start before its recovery timeout; threshold-many calls open it. */
  predicate BeforeRecovery(c: Config, calls: seq<Call>) {
    c.threshold >= 1 &&
    forall i, k :: 0 <= k < i < |calls| && k == c.threshold - 1 ==> calls[i].start < calls[k].finish + c.recovery
  }

  predicate AllFail(maxAttempts: nat, calls: seq<Call>) {
    forall i, j :: 0 <= i < |calls| && 0 <= j < Attempts(maxAttempts) ==> !calls[i].outcome(j)
  }

  /**
    From a fresh breaker, with every attempt failing, exactly threshold calls reach the operation, so it
    is invoked threshold times the attempts per call before rejection starts, and not once after.
  */
  lemma {:induction false} FailingRunIsCutOff(c: Config, maxAttempts: nat, created: real, calls: seq<Call>)
    requires BeforeRecovery(c, calls) && AllFail(maxAttempts, calls)
    ensures var b := AfterCalls(c, maxAttempts, Status(Closed, 0, created), calls);
            if |calls| < c.threshold then b == Status(Closed, |calls|, created)
            else b == Status(Open, c.threshold, calls[c.threshold - 1].finish)
    ensures TotalInvocations(c, maxAttempts, Status(Closed, 0, created), calls) ==
            (if |calls| < c.threshold then |calls| else c.threshold) * Attempts(maxAttempts)
  {
    if |calls| > 0 {
      var n := |calls| - 1;
      FailingRunIsCutOff(c, maxAttempts, created, calls[..n]);
      AllAttemptsAreMade(maxAttempts, calls[n].outcome);
      if n < c.threshold {
        assert (n + 1) * Attempts(maxAttempts) == n * Attempts(maxAttempts) + Attempts(maxAttempts);
      }
    }
  }
}
