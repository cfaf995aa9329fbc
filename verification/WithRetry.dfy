/** The retry loop around a transaction callback. */
module WithRetry {
  import opened Prelude

  /** What a failed call threw, as far as the loop looks: its SQLSTATE, if it has one. */
  datatype Thrown = Thrown(code: Option<string>) | Unreachable

  /** Serialization failures and deadlocks. */
  predicate Retryable(code: string)
  {
    code == "40001" || code == "40P01"
  }

  predicate CanRetry(t: Thrown)
  {
    t.Thrown? && t.code.Some? && Retryable(t.code.value)
  }

  function Pow2(n: nat): nat
  {
    if n == 0 then 1 else 2 * Pow2(n - 1)
  }

  /**
   `outcome(k)` is what the k-th call of the callback returns or throws. The loop answers with the outcome of its
   last call: the first that succeeded, threw something else than a serialization failure or a deadlock, or was
   the last one allowed. It slept 10, 20, 40, ... ms in between.
   */
  method Run<T>(outcome: nat -> Result<T, Thrown>, maxAttempts: nat)
    returns (r: Result<T, Thrown>, calls: nat, sleptMs: nat)
    ensures maxAttempts == 0 ==> calls == 0 && r == Err(Unreachable)
    ensures maxAttempts > 0 ==> 1 <= calls <= maxAttempts && r == outcome(calls)
    ensures forall k :: 1 <= k < calls ==> outcome(k).Err? && CanRetry(outcome(k).error)
    ensures maxAttempts > 0 ==> r.Ok? || !CanRetry(r.error) || calls == maxAttempts
    ensures calls > 0 ==> sleptMs == 10 * (Pow2(calls - 1) - 1)
  {
    calls, sleptMs := 0, 0;
    for attempt := 1 to maxAttempts + 1
      invariant calls == attempt - 1
      invariant forall k :: 1 <= k < attempt ==> outcome(k).Err? && CanRetry(outcome(k).error)
      invariant attempt > 1 ==> calls < maxAttempts
      invariant sleptMs == 10 * (Pow2(attempt - 1) - 1)
    {
      r := outcome(attempt);
      calls := attempt;
      if r.Ok? || !CanRetry(r.error) || attempt >= maxAttempts {
        return;
      }
      sleptMs := sleptMs + 10 * Pow2(attempt - 1);
    }
    r := Err(Unreachable);
  }
}
