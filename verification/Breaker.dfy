/** The circuit breaker of internal/router/breaker.go. Times and durations are nanoseconds. */
module Breaker {
  datatype State = Closed | Open | HalfOpen

  datatype Value = Value(state: State, failures: int, threshold: int, recoveryTimeout: int, openedAt: int) {
    /** Whether a call may start now; an open breaker past its timeout becomes half-open by the question. */
    predicate Allowed(now: int) {
      state != Open || now - openedAt >= recoveryTimeout
    }

    function AfterAllow(now: int): Value {
      if state == Open && Allowed(now) then this.(state := HalfOpen) else this
    }

    function AfterSuccess(): Value {
      this.(failures := 0, state := Closed)
    }

    function AfterFailure(now: int): Value {
      if state == HalfOpen || failures + 1 >= threshold then
        this.(failures := failures + 1, state := Open, openedAt := now)
      else this.(failures := failures + 1)
    }
  }

  /** A failure counts one. It opens a half-open breaker, and one whose failures reach its threshold, from now on; any
      other stays as it is. */
  lemma FailureExactly(b: Value, now: int)
    ensures var f := b.AfterFailure(now);
      && f.failures == b.failures + 1 && f.threshold == b.threshold && f.recoveryTimeout == b.recoveryTimeout
      && (b.state == HalfOpen || f.failures >= b.threshold ==> f.state == Open && f.openedAt == now)
      && (b.state != HalfOpen && f.failures < b.threshold ==> f.state == b.state && f.openedAt == b.openedAt)
  {
  }

  const SECOND := 1_000_000_000

  function New(threshold: int, recoveryTimeout: int): Value {
    Value(Closed, 0,
          if threshold <= 0 then 3 else threshold, if recoveryTimeout <= 0 then SECOND else recoveryTimeout, 0)
  }

  class Cell {
    ghost const owner: string  // the upstream the cell belongs to
    var state: State
    var failures: int
    var threshold: int
    var recoveryTimeout: int
    var openedAt: int

    ghost function Contents(): Value
      reads this
    {
      Value(state, failures, threshold, recoveryTimeout, openedAt)
    }

    constructor (threshold: int, recoveryTimeout: int, ghost owner: string)
      ensures Contents() == New(threshold, recoveryTimeout) && this.owner == owner
    {
      this.owner := owner;
      state, failures, openedAt := Closed, 0, 0;
      this.threshold := if threshold <= 0 then 3 else threshold;
      this.recoveryTimeout := if recoveryTimeout <= 0 then SECOND else recoveryTimeout;
    }

    method Allow(now: int) returns (ok: bool)
      modifies this
      ensures ok == old(Contents()).Allowed(now)
      ensures Contents() == old(Contents()).AfterAllow(now)
    {
      if state != Open {
        return true;
      }
      if now - openedAt >= recoveryTimeout {
        state := HalfOpen;
        return true;
      }
      ok := false;
    }

    method Success()
      modifies this
      ensures Contents() == old(Contents()).AfterSuccess()
    {
      failures := 0;
      state := Closed;
    }

    method Failure(now: int)
      modifies this
      ensures Contents() == old(Contents()).AfterFailure(now)
    {
      failures := failures + 1;
      if state == HalfOpen || failures >= threshold {
        state := Open;
        openedAt := now;
      }
    }
  }
}
