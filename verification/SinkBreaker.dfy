/** The event sink's circuit breaker (polytrader/events/sink.py). */
module SinkBreaker {
  import opened Prelude

  datatype CircuitState = Closed | Open | HalfOpen

  datatype Limits = Limits(threshold: nat, cooldown: real)

  datatype Breaker = Breaker(state: CircuitState, failureCount: nat, lastFailure: Option<real>)
  {
    /** An open breaker turns half-open once the cooldown has passed since the last failure. */
    function Poll(l: Limits, now: real): Breaker {
      if state == Open && lastFailure.Some? && now - lastFailure.value >= l.cooldown then this.(state := HalfOpen)
      else this
    }

    predicate Allows(l: Limits, now: real) {
      Poll(l, now).state != Open
    }

    function Succeed(): Breaker {
      if state == Open then this else this.(state := Closed, failureCount := 0)
    }

    function Fail(l: Limits, now: real): Breaker {
      Breaker(
        if state == HalfOpen || (state == Closed && failureCount + 1 >= l.threshold) then Open else state,
        failureCount + 1,
        Some(now))
    }
  }

  const FRESH := Breaker(Closed, 0, None)

  class SimpleCircuitBreaker {
    const limits: Limits
    var state: CircuitState
    var failureCount: nat
    var lastFailureTime: Option<real>

    function View(): Breaker
      reads this
    {
      Breaker(state, failureCount, lastFailureTime)
    }

    constructor (limits: Limits)
      ensures this.limits == limits && View() == FRESH
    {
      this.limits := limits;
      state, failureCount, lastFailureTime := Closed, 0, None;
    }

    method RecordSuccess()
      modifies this
      ensures View() == old(View()).Succeed()
    {
      if state == HalfOpen {
        state := Closed;
        failureCount := 0;
      } else if state == Closed {
        failureCount := 0;
      }
    }

    method RecordFailure(now: real)
      modifies this
      ensures View() == old(View()).Fail(limits, now)
    {
      failureCount := failureCount + 1;
      lastFailureTime := Some(now);
      if state == Closed {
        if failureCount >= limits.threshold {
          state := Open;
        }
      } else if state == HalfOpen {
        state := Open;
      }
    }

    method IsOpen(now: real) returns (open: bool)
      modifies this
      ensures View() == old(View()).Poll(limits, now)
      ensures open <==> old(state) == Open &&
                        !(old(lastFailureTime).Some? && now - old(lastFailureTime).value >= limits.cooldown)
      ensures state == if old(state) == Open && !open then HalfOpen else old(state)
    {
      if state == Open {
        if lastFailureTime.Some? {
          var elapsed := now - lastFailureTime.value;
          if elapsed >= limits.cooldown {
            state := HalfOpen;
            return false;
          }
        }
        return true;
      }
      return false;
    }

    method AllowRequest(now: real) returns (allowed: bool)
      modifies this
      ensures View() == old(View()).Poll(limits, now)
      ensures allowed == old(View()).Allows(limits, now)
      ensures allowed <==> old(state) == Open ==>
                             old(lastFailureTime).Some? && now - old(lastFailureTime).value >= limits.cooldown
      ensures state == if old(state) == Open && allowed then HalfOpen else old(state)
    {
      if state == Open {
        var open := IsOpen(now);
        return !open;
      }
      return true;
    }
  }

  // ---- Failures since the last success -----------------------------------------------

  /** The breaker against the times of the failures since the last success: while it is closed
      it has counted them all and they are fewer than the threshold; from the threshold on,
      consecutive failures are at least a cooldown apart. */
  ghost predicate Tracks(b: Breaker, l: Limits, failures: seq<real>, clock: real) {
    && (forall i, j :: 0 <= i <= j < |failures| ==> failures[i] <= failures[j] <= clock)
    && (forall i :: l.threshold <= i < |failures| && i >= 1 ==> failures[i] >= failures[i - 1] + l.cooldown)
    && (b.state == Closed ==> b.failureCount == |failures| < l.threshold)
    && (b.state != Closed ==>
          && |failures| >= l.threshold
          && failures != [] && b.lastFailure == Some(failures[|failures| - 1]))
    && (b.state == HalfOpen ==> clock >= failures[|failures| - 1] + l.cooldown)
  }

  lemma PollTracks(b: Breaker, l: Limits, failures: seq<real>, clock: real)
    requires Tracks(b, l, failures, clock)
    ensures Tracks(b.Poll(l, clock), l, failures, clock)
  {
  }

  /** Requests are let through exactly while there have been fewer failures than the threshold, or
      once a cooldown has passed since the last one: no breaker stays open for ever. */
  lemma AllowsIff(b: Breaker, l: Limits, failures: seq<real>, clock: real)
    requires Tracks(b, l, failures, clock)
    ensures b.Allows(l, clock) <==>
            |failures| < l.threshold || (failures != [] && clock >= failures[|failures| - 1] + l.cooldown)
  {
  }

  /** The first request after a cooldown probes: its success closes the breaker, its failure opens
      it again at once. */
  lemma ProbeDecides(b: Breaker, l: Limits, failures: seq<real>, clock: real, later: real)
    requires Tracks(b, l, failures, clock) && b.state != Closed && later >= failures[|failures| - 1] + l.cooldown
    ensures var probing := b.Poll(l, later);
            && probing.Succeed() == Breaker(Closed, 0, b.lastFailure)
            && (l.cooldown > 0.0 ==> !probing.Fail(l, later).Allows(l, later))
  {
  }

  /** A failure is only ever recorded by a flush that was let through. */
  lemma FailTracks(b: Breaker, l: Limits, failures: seq<real>, clock: real)
    requires Tracks(b, l, failures, clock) && b.state != Open && l.threshold >= 1
    ensures Tracks(b.Fail(l, clock), l, failures + [clock], clock)
  {
  }

  lemma SucceedTracks(b: Breaker, l: Limits, failures: seq<real>, clock: real)
    requires Tracks(b, l, failures, clock) && b.state != Open && l.threshold >= 1
    ensures Tracks(b.Succeed(), l, [], clock)
  {
  }

  lemma {:induction false} Spacing(b: Breaker, l: Limits, failures: seq<real>, clock: real, i: nat, n: nat)
    requires Tracks(b, l, failures, clock) && l.threshold >= 1
    requires i + 1 >= l.threshold && i + n < |failures|
    ensures failures[i + n] >= failures[i] + Times(n, l.cooldown)
  {
    if n > 0 {
      Spacing(b, l, failures, clock, i, n - 1);
      assert failures[i + n] >= failures[i + n - 1] + l.cooldown;
      assert Times(n, l.cooldown) == Times(n - 1, l.cooldown) + l.cooldown;
    }
  }

  /** How many whole cooldowns fit into a period. */
  function Cooldowns(period: real, cooldown: real): int
    requires cooldown > 0.0
  {
    (period / cooldown).Floor
  }

  function Times(n: nat, cooldown: real): real {
    n as real * cooldown
  }

  lemma NoTimes(cooldown: real)
    ensures Times(0, cooldown) == 0.0
  {
  }

  lemma FloorBound(n: nat, cooldown: real, period: real)
    requires cooldown > 0.0 && Times(n, cooldown) <= period
    ensures n <= Cooldowns(period, cooldown)
  {
    var most := period / cooldown;
    assert most * cooldown == period;
    assert n as real > most ==> n as real * cooldown > most * cooldown;
  }

  /** Without a success in between, any period sees at most the threshold plus one failure per
      full cooldown. */
  lemma FailureRate(b: Breaker, l: Limits, failures: seq<real>, clock: real, first: nat, last: nat, period: real)
    requires Tracks(b, l, failures, clock) && l.threshold >= 1 && l.cooldown > 0.0
    requires first <= last < |failures| && failures[last] - failures[first] <= period
    ensures last - first + 1 <= l.threshold + Cooldowns(period, l.cooldown)
  {
    hide Times, Cooldowns;
    var i := if first + 1 >= l.threshold then first else l.threshold - 1;
    if i <= last {
      var n: nat := last - i;
      Spacing(b, l, failures, clock, i, n);
      assert failures[i + n] == failures[last] && failures[i] >= failures[first];
      FloorBound(n, l.cooldown, period);
    } else {
      assert failures[last] >= failures[first];
      NoTimes(l.cooldown);
      FloorBound(0, l.cooldown, period);
    }
  }
}
