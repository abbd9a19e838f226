// What one reconciliation of one job does, as a function of the snapshot it read and of
// the status ComfyUI reports: _reconcile_job, _resolve_via_comfy and _fail_or_retry.
module ReconcilePolicy {
  import opened Basics
  import opened Jobs
  import opened JobEntry
  import Retry

  /** The columns of list_active's row that the reconciler reads. */
  datatype Seen = Seen(
    attempt: nat, maxAttempts: int, promptId: Option<string>,
    leaseExpiresAt: Option<Time>, queuedAt: Time)

  function SeenOf(e: Entry): Seen {
    Seen(e.job.attempt, e.job.maxAttempts, ShownPrompt(e),
         if Current(e).Some? then Some(Current(e).value.leaseExpiresAt) else None, e.job.queuedAt)
  }

  /** get_status, an oracle here. */
  datatype Status =
    | StSucceeded(outputs: seq<Value>)
    | StRunning
    | StUnknown
    | StFailed(error: Option<string>)

  const LEASE_SECONDS: real := 120.0
  const STALE_RUNNING_SECONDS: real := 300.0

  /** now is the instant the pass started, at the instant of the write. */
  function FailOrRetry(seen: Seen, code: string, detail: Option<string>, jitter: real, at: Time): Op {
    var attemptNo := seen.attempt + 1;
    if Retry.IsRetryable(code, attemptNo, seen.maxAttempts)
    then OpRetryWait(code, detail, Retry.BackoffSeconds(attemptNo, jitter), at)
    else OpFailed(code, detail, at)
  }

  predicate LeaseExpired(seen: Seen, now: Time) {
    seen.leaseExpiresAt.Some? && seen.leaseExpiresAt.value < now
  }

  function Resolve(seen: Seen, status: Status, now: Time, jitter: real, at: Time): Option<Op> {
    match status
    case StSucceeded(outputs) => Some(OpSucceeded(map["outputs" := VList(outputs)], at))
    case StRunning => Some(OpRenew(at + LEASE_SECONDS))
    case StUnknown =>
      var expired :=
        LeaseExpired(seen, now) || (seen.leaseExpiresAt.None? && now - seen.queuedAt >= STALE_RUNNING_SECONDS);
      if expired
      then Some(FailOrRetry(seen, "comfy_transient", Some("prompt_unknown_to_comfy_after_lease"), jitter, at))
      else None
    case StFailed(error) => Some(FailOrRetry(seen, "comfy_transient", error, jitter, at))
  }

  function Reconcile(seen: Seen, status: Status, now: Time, jitter: real, at: Time): Option<Op> {
    if seen.promptId.Some? && seen.promptId.value != ""
    then Resolve(seen, status, now, jitter, at)
    else if LeaseExpired(seen, now)
    then Some(FailOrRetry(seen, "worker_lease_expired", Some("lease expired with no prompt_id"), jitter, at))
    else None
  }

  /** The reconciler never touches a healthy job: with a lease still valid, only a definite
      answer from ComfyUI for a known prompt id makes it write an outcome. */
  lemma HealthyJobIsLeftAlone(seen: Seen, status: Status, now: Time, jitter: real, at: Time)
    requires seen.leaseExpiresAt.Some? && now <= seen.leaseExpiresAt.value
    ensures var r := Reconcile(seen, status, now, jitter, at);
            (r.None? || r.value.OpRenew?) <==>
              (seen.promptId.None? || seen.promptId.value == "" || status.StRunning? || status.StUnknown?)
  {
  }

  /** An id that ComfyUI does not know is given up on once the lease is over; a snapshot without a lease, which
      only a queue that claims without one returns, is given five minutes from when the job was queued. */
  lemma UnknownIsGivenUpIff(seen: Seen, now: Time, jitter: real, at: Time)
    requires seen.promptId.Some? && seen.promptId.value != ""
    ensures Reconcile(seen, StUnknown, now, jitter, at).Some? <==>
              if seen.leaseExpiresAt.Some? then seen.leaseExpiresAt.value < now else now - seen.queuedAt >= 300.0
  {
  }

  /** A retry is only ever scheduled below the maximum, and never before its shortest backoff;
      at the maximum the same fault fails the job. */
  lemma RetryWithinBounds(seen: Seen, status: Status, now: Time, jitter: real, at: Time)
    requires -1.0 <= jitter <= 1.0
    ensures var r := Reconcile(seen, status, now, jitter, at);
            r.Some? && r.value.OpRetryWait? ==>
              && seen.attempt + 1 < seen.maxAttempts
              && Retry.ShortestDelay(seen.attempt + 1) <= r.value.delay
              && r.value.now == at
    ensures seen.attempt + 1 >= seen.maxAttempts ==>
              (Reconcile(seen, status, now, jitter, at).None? ||
               !Reconcile(seen, status, now, jitter, at).value.OpRetryWait?)
    ensures var r := Reconcile(seen, status, now, jitter, at);
            r.Some? ==>
              && (r.value.OpSucceeded? || r.value.OpFailed? || r.value.OpRetryWait? || r.value.OpRenew?)
              && OpTime(r.value, at) == at
  {
    Retry.BackoffBand(seen.attempt + 1, jitter);
  }
}
