/**
  The query-cache retry policy: a failure whose status is a client error
  (400 to 499) is never retried; any other failure is retried while fewer than
  three (queries) or two (mutations) failures have been counted. The wait before
  attempt `a` is `min(1000 * 2^a, 30000)` milliseconds.
 */
module QueryPolicy {
  import opened Api

  const QueryRetryLimit := 3
  const MutationRetryLimit := 2
  const BaseDelayMs := 1000
  const MaxDelayMs := 30000

  predicate IsClientError(status: int) {
    400 <= status < 500
  }

  /** The query `retry` option. */
  predicate ShouldRetryQuery(failureCount: nat, error: ApiError) {
    !IsClientError(error.status) && failureCount < QueryRetryLimit
  }

  /** The mutation `retry` option. */
  predicate ShouldRetryMutation(failureCount: nat, error: ApiError) {
    !IsClientError(error.status) && failureCount < MutationRetryLimit
  }

  function Pow2(n: nat): (p: nat)
    ensures p >= 1
  {
    if n == 0 then 1 else 2 * Pow2(n - 1)
  }

  /** `retryDelay(attemptIndex)`, for queries and mutations alike. */
  function RetryDelay(attemptIndex: nat): (d: nat)
    ensures BaseDelayMs <= d <= MaxDelayMs
  {
    var raw := BaseDelayMs * Pow2(attemptIndex);
    if raw <= MaxDelayMs then raw else MaxDelayMs
  }

  lemma {:induction false} Pow2Monotone(a: nat, b: nat)
    requires a <= b
    ensures Pow2(a) <= Pow2(b)
    decreases b
  {
    if a < b {
      Pow2Monotone(a, b - 1);
    }
  }

  lemma {:induction false} Pow2AtLeast32(a: nat)
    requires a >= 5
    ensures Pow2(a) >= 32
  {
    Pow2Monotone(5, a);
  }

  /** The first retry waits one second. */
  lemma FirstDelay()
    ensures RetryDelay(0) == 1000
  {
  }

  /** Later attempts never wait less. */
  lemma {:induction false} DelayMonotone(a: nat, b: nat)
    requires a <= b
    ensures RetryDelay(a) <= RetryDelay(b)
  {
    Pow2Monotone(a, b);
  }

  /** From the sixth attempt on the delay is the 30-second cap. */
  lemma {:induction false} DelayCapped(a: nat)
    requires a >= 5
    ensures RetryDelay(a) == MaxDelayMs
  {
    Pow2AtLeast32(a);
  }

  /** Below the cap each attempt waits twice as long as the one before. */
  lemma {:induction false} DelayDoubles(a: nat)
    requires a < 4
    ensures RetryDelay(a + 1) == 2 * RetryDelay(a)
  {
    Pow2Monotone(a + 1, 4);
  }

  /** A client error is never retried, by queries or mutations, whatever the count. */
  lemma ClientErrorsNeverRetried(failureCount: nat, error: ApiError)
    requires IsClientError(error.status)
    ensures !ShouldRetryQuery(failureCount, error) && !ShouldRetryMutation(failureCount, error)
  {
  }

  /** The mutation policy is the stricter: whatever a mutation retries, a query retries too. */
  lemma MutationRetryImpliesQueryRetry(failureCount: nat, error: ApiError)
    ensures ShouldRetryMutation(failureCount, error) ==> ShouldRetryQuery(failureCount, error)
  {
  }

  /** A request that never got a response (status 0) is retried while fewer than three failures. */
  lemma NetworkFailureRetried(failureCount: nat)
    ensures ShouldRetryQuery(failureCount, Classify(NoResponse)) <==> failureCount < 3
    ensures ShouldRetryMutation(failureCount, Classify(NoResponse)) <==> failureCount < 2
  {
  }

  /** Every classified response with a status in [400, 500) is final; 5xx responses are retried. */
  lemma ResponseStatusDecidesRetry(failureCount: nat, status: int, body: ResponseBody)
    ensures ShouldRetryQuery(failureCount, Classify(WithResponse(status, body))) <==>
      !(400 <= status < 500) && failureCount < 3
  {
  }
}
