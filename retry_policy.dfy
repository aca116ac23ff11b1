/** The client's retry policy (campus-chat/src/app/queryClient.ts): whether a
    failed query or mutation is tried again, and how long to wait first.

    The error's HTTP status is `error?.response?.status`: `None` when the
    request never got a response (a network error), in which case every
    numeric comparison in the source is false. `failureCount` and
    `attemptIndex` both count the failures seen so far, starting at 0. */
module RetryPolicy {
  import opened Wrappers

  /** 408 Request Timeout, section 15.5.9 of RFC 9110. */
  const RequestTimeout := 408
  /** 429 Too Many Requests, section 4 of RFC 6585. */
  const TooManyRequests := 429
  /** 503 Service Unavailable, section 15.6.4 of RFC 9110. */
  const ServiceUnavailable := 503

  const QueryDelayBase := 1000
  const QueryDelayCap := 30000
  const MutationDelayBase := 2000
  const MutationDelayCap := 10000

  function Pow2(n: nat): (r: nat)
    ensures r >= 1
  {
    if n == 0 then 1 else 2 * Pow2(n - 1)
  }

  /** A client error other than 408. */
  predicate IsClientError(status: Option<int>)
  {
    status.Some? && 400 <= status.value < 500 && status.value != RequestTimeout
  }

  predicate IsServerError(status: Option<int>)
  {
    status.Some? && status.value >= 500
  }

  /** `queries.retry` */
  predicate QueryShouldRetry(failureCount: nat, status: Option<int>): (b: bool)
    ensures b ==> failureCount < 3 && !IsClientError(status)
    ensures failureCount < 2 && !IsClientError(status) ==> b
  {
    if IsClientError(status) then false
    else if IsServerError(status) then failureCount < 3
    else failureCount < 2
  }

  /** How many times a query failing with the same status again and again is
      retried before React Query gives up. */
  function QueryRetryBudget(status: Option<int>): (n: nat)
    ensures n <= 3
    ensures n == 0 <==> IsClientError(status)
  {
    if IsClientError(status) then 0
    else if IsServerError(status) then 3
    else 2
  }

  /** `queries.retryDelay`: exponential backoff from one second, capped at 30 seconds. */
  function QueryRetryDelay(attemptIndex: nat): (d: nat)
    ensures QueryDelayBase <= d <= QueryDelayCap
  {
    Min(QueryDelayBase * Pow2(attemptIndex), QueryDelayCap)
  }

  /** `mutations.retry`: only 503 and 429 are retried, twice at most. */
  predicate MutationShouldRetry(failureCount: nat, status: Option<int>): (b: bool)
    ensures b ==> failureCount < 2 && status.Some? && status.value in {ServiceUnavailable, TooManyRequests}
    ensures !b && failureCount < 2 ==> status != Some(ServiceUnavailable) && status != Some(TooManyRequests)
  {
    if status == Some(ServiceUnavailable) || status == Some(TooManyRequests) then failureCount < 2
    else false
  }

  function MutationRetryBudget(status: Option<int>): (n: nat)
    ensures n <= 2
    ensures n > 0 <==> status == Some(ServiceUnavailable) || status == Some(TooManyRequests)
  {
    if status == Some(ServiceUnavailable) || status == Some(TooManyRequests) then 2 else 0
  }

  /** `mutations.retryDelay`: exponential backoff from two seconds, capped at 10 seconds. */
  function MutationRetryDelay(attemptIndex: nat): (d: nat)
    ensures MutationDelayBase <= d <= MutationDelayCap
  {
    Min(MutationDelayBase * Pow2(attemptIndex), MutationDelayCap)
  }

  function Min(a: int, b: int): (m: int)
    ensures m <= a && m <= b && (m == a || m == b)
  {
    if a <= b then a else b
  }

  // ----- what the decisions mean -----

  /** A query is retried exactly while fewer failures than its budget have
      been seen: never for a client error other than 408, three times for a
      server error, twice for 408, for any other status and for a network
      error. */
  lemma QueryRetryIsBudget(failureCount: nat, status: Option<int>)
    ensures QueryShouldRetry(failureCount, status) <==> failureCount < QueryRetryBudget(status)
    ensures IsClientError(status) ==> !QueryShouldRetry(failureCount, status)
    ensures IsServerError(status) ==> (QueryShouldRetry(failureCount, status) <==> failureCount < 3)
    ensures status.None? ==> (QueryShouldRetry(failureCount, status) <==> failureCount < 2)
    ensures status == Some(RequestTimeout) ==> (QueryShouldRetry(failureCount, status) <==> failureCount < 2)
  {
  }

  /** Once a query is given up, further failures do not revive it. */
  lemma QueryGiveUpIsFinal(failureCount: nat, later: nat, status: Option<int>)
    requires failureCount <= later
    requires !QueryShouldRetry(failureCount, status)
    ensures !QueryShouldRetry(later, status)
  {
  }

  /** A mutation is retried only for 503 and 429, and then only while fewer
      than two failures have been seen; every other error ends it at once. */
  lemma MutationRetryIsBudget(failureCount: nat, status: Option<int>)
    ensures MutationShouldRetry(failureCount, status) <==> failureCount < MutationRetryBudget(status)
    ensures MutationShouldRetry(failureCount, status)
            <==> (status == Some(ServiceUnavailable) || status == Some(TooManyRequests)) && failureCount < 2
  {
  }

  /** The two policies disagree on 429: a rate-limited query is a client
      error and is never retried, a rate-limited mutation is retried twice. A
      503 is retried by both, three times as a query and twice as a mutation. */
  lemma RateLimitAndUnavailable(failureCount: nat)
    ensures !QueryShouldRetry(failureCount, Some(TooManyRequests))
    ensures MutationShouldRetry(failureCount, Some(TooManyRequests)) <==> failureCount < 2
    ensures QueryRetryBudget(Some(ServiceUnavailable)) == 3 && MutationRetryBudget(Some(ServiceUnavailable)) == 2
  {
  }

  lemma {:induction false} Pow2Monotone(a: nat, b: nat)
    requires a <= b
    ensures Pow2(a) <= Pow2(b)
    decreases b
  {
    if a < b {
      Pow2Monotone(a, b - 1);
    }
  }

  /** Waiting longer after each failure: both delays never shrink as the
      attempt index grows. */
  lemma {:induction false} RetryDelaysMonotone(a: nat, b: nat)
    requires a <= b
    ensures QueryRetryDelay(a) <= QueryRetryDelay(b)
    ensures MutationRetryDelay(a) <= MutationRetryDelay(b)
  {
    Pow2Monotone(a, b);
  }

  /** The query schedule: 1, 2, 4, 8, 16 seconds, then 30 seconds for ever. */
  lemma {:induction false} QueryDelaySchedule(a: nat)
    ensures a == 0 ==> QueryRetryDelay(a) == 1000
    ensures a == 1 ==> QueryRetryDelay(a) == 2000
    ensures a == 2 ==> QueryRetryDelay(a) == 4000
    ensures a == 3 ==> QueryRetryDelay(a) == 8000
    ensures a == 4 ==> QueryRetryDelay(a) == 16000
    ensures a >= 5 ==> QueryRetryDelay(a) == QueryDelayCap
  {
    if a >= 5 {
      Pow2Monotone(5, a);
      assert Pow2(5) == 32;
    } else if a == 4 {
      assert Pow2(4) == 16;
    }
  }

  /** The mutation schedule: 2, 4 and 8 seconds, then 10 seconds for ever. */
  lemma {:induction false} MutationDelaySchedule(a: nat)
    ensures a == 0 ==> MutationRetryDelay(a) == 2000
    ensures a == 1 ==> MutationRetryDelay(a) == 4000
    ensures a == 2 ==> MutationRetryDelay(a) == 8000
    ensures a >= 3 ==> MutationRetryDelay(a) == MutationDelayCap
  {
    if a >= 3 {
      Pow2Monotone(3, a);
      assert Pow2(3) == 8;
    } else if a == 2 {
      assert Pow2(2) == 4;
    }
  }

  /** Total waiting before a query failing the same way for ever is given up:
      the delays before each granted retry, added up. */
  function QueryWaitBeforeGivingUp(status: Option<int>): (total: nat)
  {
    DelaySum(QueryRetryBudget(status), QueryRetryDelay)
  }

  function DelaySum(n: nat, delay: nat -> nat): (total: nat)
  {
    if n == 0 then 0 else DelaySum(n - 1, delay) + delay(n - 1)
  }

  /** A server error costs 1 + 2 + 4 seconds of waiting, a network error or a
      408 1 + 2 seconds, a client error none; a 503 mutation
      2 + 4 seconds. */
  lemma WaitsBeforeGivingUp(status: Option<int>)
    ensures IsServerError(status) ==> QueryWaitBeforeGivingUp(status) == 7000
    ensures (status.None? || status == Some(RequestTimeout)) ==> QueryWaitBeforeGivingUp(status) == 3000
    ensures IsClientError(status) ==> QueryWaitBeforeGivingUp(status) == 0
    ensures DelaySum(MutationRetryBudget(Some(ServiceUnavailable)), MutationRetryDelay) == 6000
  {
    QueryDelaySchedule(0);
    QueryDelaySchedule(1);
    QueryDelaySchedule(2);
    MutationDelaySchedule(0);
    MutationDelaySchedule(1);
  }
}
