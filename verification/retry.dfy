/** The `@retry(stop=stop_after_attempt(3), reraise=True)` wrapper that guards the API
    backend's three operations and the DataHub GraphQL query: the wrapped call runs
    again while it raises, at most three times in all, and the last exception is
    re-raised. The exponential back-off between attempts is a wait and is not
    modelled. An attempt is a function of its number (1, 2 or 3), which is how the
    model lets a remote service answer differently on each try. */
module Retry {
  import opened Wrappers
  import opened Json

  const MaxAttempts := 3

  /** The attempts from number `k` on. */
  function RetryFrom<T>(attempt: nat -> Result<T, Exception>, k: nat): Result<T, Exception>
    requires 1 <= k <= MaxAttempts
    decreases MaxAttempts - k
  {
    var r := attempt(k);
    if r.Ok? || k == MaxAttempts then r else RetryFrom(attempt, k + 1)
  }

  /** The wrapped call. */
  function Retried<T>(attempt: nat -> Result<T, Exception>): Result<T, Exception> {
    RetryFrom(attempt, 1)
  }

  /** The wrapper returns the first attempt that succeeds, after attempts that all
      failed; when all three fail it re-raises the third exception. */
  lemma {:induction false} RetryFromOutcome<T>(attempt: nat -> Result<T, Exception>, k: nat)
    requires 1 <= k <= MaxAttempts
    ensures RetryFrom(attempt, k).Ok? <==> exists j :: k <= j <= MaxAttempts && attempt(j).Ok?
    ensures RetryFrom(attempt, k).Ok? ==>
      exists j :: k <= j <= MaxAttempts && RetryFrom(attempt, k) == attempt(j)
        && forall m :: k <= m < j ==> attempt(m).Err?
    ensures RetryFrom(attempt, k).Err? ==> RetryFrom(attempt, k) == attempt(MaxAttempts)
    decreases MaxAttempts - k
  {
    if attempt(k).Err? && k < MaxAttempts {
      RetryFromOutcome(attempt, k + 1);
      if RetryFrom(attempt, k).Ok? {
        var j :| k + 1 <= j <= MaxAttempts && RetryFrom(attempt, k + 1) == attempt(j)
          && forall m :: k + 1 <= m < j ==> attempt(m).Err?;
        assert forall m :: k <= m < j ==> attempt(m).Err?;
      }
    }
  }

  /** The wrapped call succeeds exactly when one of the three attempts does, and then
      returns the first success; otherwise it raises what the third attempt raised. */
  lemma RetriedOutcome<T>(attempt: nat -> Result<T, Exception>)
    ensures Retried(attempt).Ok? <==> exists j :: 1 <= j <= MaxAttempts && attempt(j).Ok?
    ensures Retried(attempt).Ok? ==>
      exists j :: 1 <= j <= MaxAttempts && Retried(attempt) == attempt(j)
        && forall m :: 1 <= m < j ==> attempt(m).Err?
    ensures Retried(attempt).Err? ==> Retried(attempt) == attempt(MaxAttempts)
  {
    RetryFromOutcome(attempt, 1);
  }

  /** A first attempt that succeeds is the result: no second attempt is made. */
  lemma RetriedFirst<T>(attempt: nat -> Result<T, Exception>)
    requires attempt(1).Ok?
    ensures Retried(attempt) == attempt(1)
  {
  }

  /** A call that behaves the same on every attempt (a deterministic failure such as a
      malformed prompt input, or a service that always answers the same) gives the
      same result once wrapped. */
  lemma RetriedStable<T>(attempt: nat -> Result<T, Exception>)
    requires forall j :: 1 <= j <= MaxAttempts ==> attempt(j) == attempt(1)
    ensures Retried(attempt) == attempt(1)
  {
    RetryFromOutcome(attempt, 1);
  }
}
