/** `retry.OnError(backoff, retriable, fn)` from client-go: call `fn` up to
    `steps` times (the backoff's step count), stop at the first success or at the
    first error that is not retriable, and after the last step return the last
    error. The delay between attempts is not modelled. The i-th call of `fn`
    (counting from 0) returns `attempt(i)`. */
module Retry {
  import opened Api

  /** An attempt after which another is made, if steps remain. */
  predicate Retries<T>(r: Result<T>, retriable: Error -> bool) {
    r.Err? && retriable(r.error)
  }

  /** `r` is what OnError returns after `calls` attempts: every attempt but the
      last asked for a retry, `r` is the last one, and the run stopped early only
      because that attempt did not ask for a retry. */
  ghost predicate IsRun<T>(steps: nat, retriable: Error -> bool, attempt: nat -> Result<T>, r: Result<T>, calls: nat) {
    && 1 <= calls <= steps
    && r == attempt(calls - 1)
    && (forall j :: 0 <= j < calls - 1 ==> Retries(attempt(j), retriable))
    && (calls < steps ==> !Retries(r, retriable))
  }

  method OnError<T>(steps: nat, retriable: Error -> bool, attempt: nat -> Result<T>) returns (r: Result<T>, calls: nat)
    requires steps >= 1
    ensures IsRun(steps, retriable, attempt, r, calls)
  {
    r := attempt(0);
    calls := 1;
    while calls < steps && Retries(r, retriable)
      invariant 1 <= calls <= steps
      invariant r == attempt(calls - 1)
      invariant forall j :: 0 <= j < calls - 1 ==> Retries(attempt(j), retriable)
    {
      r := attempt(calls);
      calls := calls + 1;
    }
  }

  /** A run is determined by its attempts: two results that both satisfy OnError's
      postcondition made the same number of calls and return the same value. */
  lemma RunIsUnique<T>(steps: nat, retriable: Error -> bool, attempt: nat -> Result<T>,
                       r1: Result<T>, c1: nat, r2: Result<T>, c2: nat)
    requires IsRun(steps, retriable, attempt, r1, c1)
    requires IsRun(steps, retriable, attempt, r2, c2)
    ensures c1 == c2 && r1 == r2
  {
  }

  /** A retriable error is returned only once every step has been used, each of
      them on a retriable error. */
  lemma RetriableErrorMeansExhausted<T>(steps: nat, retriable: Error -> bool, attempt: nat -> Result<T>, r: Result<T>, calls: nat)
    requires IsRun(steps, retriable, attempt, r, calls)
    requires r.Err? && retriable(r.error)
    ensures calls == steps
    ensures forall j :: 0 <= j < steps ==> Retries(attempt(j), retriable)
  {
  }
}
