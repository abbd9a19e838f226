// Retry classification and exponential backoff with jitter.
module Retry {
  import opened Basics

  const RETRYABLE_ERROR_CODES: set<string> :=
    {"comfy_timeout", "comfy_disconnect", "comfy_transient", "worker_lease_expired", "worker_unreachable"}

  const NON_RETRYABLE_ERROR_CODES: set<string> :=
    {"comfy_rejected", "workflow_invalid", "quota_exceeded", "malformed_response", "comfy_permanent"}

  const BASE_SECONDS: real := 2.0
  const FACTOR: real := 2.0
  const MAX_SECONDS: real := 120.0
  const JITTER_RATIO: real := 0.2

  predicate IsRetryable(errorCode: string, attemptNo: int, maxAttempts: int) {
    if attemptNo >= maxAttempts then false
    else if errorCode in NON_RETRYABLE_ERROR_CODES then false
    else errorCode in RETRYABLE_ERROR_CODES
  }

  function Power(base: real, n: nat): real {
    if n == 0 then 1.0 else base * Power(base, n - 1)
  }

  function RawBackoff(attemptNo: int): real {
    var grown := BASE_SECONDS * Power(FACTOR, Max(attemptNo - 1, 0));
    if grown < MAX_SECONDS then grown else MAX_SECONDS
  }

  /** The random generator's uniform draw is the parameter jitter, in [-1, 1]. */
  function BackoffSeconds(attemptNo: int, jitter: real): real {
    var raw := RawBackoff(attemptNo);
    var delay := raw + jitter * (raw * JITTER_RATIO);
    if delay < 0.0 then 0.0 else delay
  }

  /** A caller's delay, or the queue's own draw for the attempt after the bump. */
  function ChosenDelay(delay: Option<real>, attemptNo: int, jitter: real): real {
    if delay.Some? then delay.value else BackoffSeconds(attemptNo, jitter)
  }

  /** The lower edge of the jitter band of the n-th attempt: 0.8 * min(2^n, 120). */
  function ShortestDelay(n: nat): real {
    var grown := Power(2.0, n);
    0.8 * (if grown < 120.0 then grown else 120.0)
  }

  lemma {:induction false} PowerGrows(n: nat)
    ensures Power(2.0, n) >= 1.0
    ensures Power(2.0, n + 1) == 2.0 * Power(2.0, n)
  {
    if n > 0 { PowerGrows(n - 1); }
  }

  /** Every draw of the n-th backoff lies within 20% of min(2^n, 120); the clamp at zero never acts. */
  lemma BackoffBand(n: nat, jitter: real)
    requires n >= 1 && -1.0 <= jitter <= 1.0
    ensures ShortestDelay(n) <= BackoffSeconds(n, jitter) <= 1.5 * ShortestDelay(n)
    ensures ShortestDelay(n) >= 0.8
  {
    hide Power;
    PowerGrows(n - 1);
    PowerGrows(n);
    var raw := RawBackoff(n);
    assert 0.8 * raw == ShortestDelay(n);
    DelayBand(raw, jitter);
  }

  lemma Product(a: real, b: real)
    requires a >= 0.0 && b >= 0.0
    ensures a * b >= 0.0
  {
  }

  lemma DelayBand(raw: real, jitter: real)
    requires raw >= 0.0 && -1.0 <= jitter <= 1.0
    ensures 0.8 * raw <= raw + jitter * (raw * JITTER_RATIO) <= 1.2 * raw
  {
    var span := raw * JITTER_RATIO;
    Product(1.0 - jitter, span);
    Product(1.0 + jitter, span);
    assert (1.0 - jitter) * span == span - jitter * span;
    assert (1.0 + jitter) * span == span + jitter * span;
  }

  /** Longer after every failure. */
  lemma ShortestDelayGrows(n: nat)
    ensures ShortestDelay(n) <= ShortestDelay(n + 1)
  {
    PowerGrows(n);
  }

  /** An attempt number that has reached the maximum is never retried, whatever the code; below it the five
      faults that may pass are, and no other code. */
  lemma LastAttemptIsFinal(errorCode: string, attemptNo: int, maxAttempts: int)
    ensures IsRetryable(errorCode, attemptNo, maxAttempts) <==>
              attemptNo < maxAttempts &&
              errorCode in {"comfy_timeout", "comfy_disconnect", "comfy_transient", "worker_lease_expired", "worker_unreachable"}
  {
    assert RETRYABLE_ERROR_CODES !! NON_RETRYABLE_ERROR_CODES;
  }

  /** The band is used to its edges: the extreme draws are 20% under and over min(2^n, 120). */
  lemma BackoffEdges(n: nat)
    requires n >= 1
    ensures BackoffSeconds(n, -1.0) == ShortestDelay(n) && BackoffSeconds(n, 1.0) == 1.5 * ShortestDelay(n)
  {
    hide Power;
    PowerGrows(n - 1);
    PowerGrows(n);
    assert 0.8 * RawBackoff(n) == ShortestDelay(n);
  }
}
