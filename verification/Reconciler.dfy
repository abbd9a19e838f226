// ReconcilerService: one pass over the active jobs, each resolved against ComfyUI or its lease.
module Reconciler {
  import opened Basics
  import opened Jobs
  import opened JobEntry
  import opened PostgresQueue
  import opened Protocol
  import ClaimOrder
  import RP = ReconcilePolicy
  import Retry

  /** What the outside world does during a pass, per job: ComfyUI's answer, the backoff draw and
      the instant of the write. */
  datatype World = World(status: Id -> RP.Status, jitter: Id -> real, at: Id -> Time)

  function Decision(w: World, seen: RP.Seen, id: Id, now: Time): Option<Op> {
    RP.Reconcile(seen, w.status(id), now, w.jitter(id), w.at(id))
  }

  /** A pass that read the store s at `now`, after the jobs of `done`. */
  function PassOver(s: Store, done: seq<Id>, w: World, now: Time): Store {
    map id | id in s ::
      if id in done then ApplyMaybe(s[id], Decision(w, RP.SeenOf(s[id]), id, now)) else s[id]
  }

  lemma PassOverSnoc(s: Store, done: seq<Id>, id: Id, w: World, now: Time)
    requires id in s && id !in done
    ensures PassOver(s, done + [id], w, now) ==
            OnMaybe(PassOver(s, done, w, now), id, Decision(w, RP.SeenOf(s[id]), id, now))
  {
  }

  lemma PassOverNone(s: Store, w: World, now: Time)
    ensures PassOver(s, [], w, now) == s
  {
  }

  class ReconcilerService {
    const queue: PostgresJobQueue

    constructor (queue: PostgresJobQueue)
      ensures this.queue == queue
    {
      this.queue := queue;
    }

    method FailOrRetry(id: Id, seen: RP.Seen, code: string, detail: Option<string>, jitter: real, at: Time)
      requires queue.Valid()
      modifies queue
      ensures queue.Valid()
      ensures queue.Contents() == OnJob(old(queue.Contents()), id, RP.FailOrRetry(seen, code, detail, jitter, at))
    {
      var attemptNo := seen.attempt + 1;
      if Retry.IsRetryable(code, attemptNo, seen.maxAttempts) {
        var delay := Retry.BackoffSeconds(attemptNo, jitter);
        queue.MarkRetryWait(id, code, detail, Some(delay), jitter, at);
      } else {
        queue.MarkFailed(id, code, detail, at);
      }
    }

    method ResolveViaComfy(id: Id, seen: RP.Seen, status: RP.Status, now: Time, jitter: real, at: Time)
      requires queue.Valid()
      modifies queue
      ensures queue.Valid()
      ensures queue.Contents() == OnMaybe(old(queue.Contents()), id, RP.Resolve(seen, status, now, jitter, at))
    {
      match status
      case StSucceeded(outputs) =>
        queue.MarkSucceeded(id, map["outputs" := VList(outputs)], at);
      case StRunning =>
        queue.RenewLease(id, RP.LEASE_SECONDS, at);
      case StUnknown =>
        var expired := seen.leaseExpiresAt.Some? && seen.leaseExpiresAt.value < now;
        if !expired && seen.leaseExpiresAt.None? {
          expired := now - seen.queuedAt >= RP.STALE_RUNNING_SECONDS;
        }
        if expired {
          FailOrRetry(id, seen, "comfy_transient", Some("prompt_unknown_to_comfy_after_lease"), jitter, at);
        }
      case StFailed(error) =>
        FailOrRetry(id, seen, "comfy_transient", error, jitter, at);
    }

    method ReconcileJob(id: Id, seen: RP.Seen, status: RP.Status, now: Time, jitter: real, at: Time)
      requires queue.Valid()
      modifies queue
      ensures queue.Valid()
      ensures queue.Contents() == OnMaybe(old(queue.Contents()), id, RP.Reconcile(seen, status, now, jitter, at))
    {
      if seen.promptId.Some? && seen.promptId.value != "" {
        ResolveViaComfy(id, seen, status, now, jitter, at);
        return;
      }
      if seen.leaseExpiresAt.Some? && seen.leaseExpiresAt.value < now {
        FailOrRetry(id, seen, "worker_lease_expired", Some("lease expired with no prompt_id"), jitter, at);
      }
    }

    /** Whatever order list_active returns, every active job is resolved from what it was when the
        pass began, and nothing else is touched. */
    method RunOnce(w: World, now: Time) returns (examined: nat, ghost ids: seq<Id>)
      requires queue.Valid()
      modifies queue
      ensures queue.Valid()
      ensures ClaimOrder.Lists(ids, ActiveInKinds(old(queue.jobs), None)) && examined == |ids|
      ensures queue.Contents() == PassOver(old(queue.Contents()), ids, w, now)
    {
      hide Apply, RP.SeenOf, RP.Reconcile, OnMaybe, PassOver;
      var active, seen := queue.ListActive();
      PassOverNone(queue.Contents(), w, now);
      ids := active;
      var i := 0;
      while i < |active|
        invariant 0 <= i <= |active|
        invariant queue.Valid()
        invariant queue.Contents() == PassOver(old(queue.Contents()), active[..i], w, now)
      {
        var id := active[i];
        assert active[..i + 1] == active[..i] + [id];
        PassOverSnoc(old(queue.Contents()), active[..i], id, w, now);
        ReconcileJob(id, seen[id], w.status(id), now, w.jitter(id), w.at(id));
        i := i + 1;
      }
      assert active[..i] == active;
      return |active|, active;
    }
  }

  // ---- what a pass achieves ---------------------------------------------------------------

  /** The job shows an id that ComfyUI can be asked about. */
  predicate Askable(e: Entry) { ShownPrompt(e).Some? && ShownPrompt(e).value != "" }

  predicate LeaseOut(e: Entry, now: Time) { Current(e).Some? && Current(e).value.leaseExpiresAt < now }

  /** A job is still active after the pass exactly when ComfyUI may still be working on it: it has
      a prompt id that is running, or unknown with a lease that has not run out; or it has no prompt id
      and no expired lease. */
  lemma StillActiveIff(s: Store, ids: seq<Id>, w: World, now: Time, id: Id)
    requires ClaimOrder.Lists(ids, ActiveInKinds(Rows(s), None)) && id in ids
    ensures id in s
    ensures IsActive(PassOver(s, ids, w, now)[id].job.state) <==>
              if Askable(s[id]) then
                w.status(id).StRunning? || (w.status(id).StUnknown? && !LeaseOut(s[id], now))
              else !LeaseOut(s[id], now)
  {
  }

  /** A job heard to be running gets its newest attempt's lease extended to 120 seconds from the write, and is
      otherwise as it was, events included. */
  lemma RunningRenewsLease(s: Store, ids: seq<Id>, w: World, now: Time, id: Id, no: nat)
    requires ClaimOrder.Lists(ids, ActiveInKinds(Rows(s), None)) && id in ids && id in s
    requires Askable(s[id]) && w.status(id).StRunning? && IsGreatest(no, s[id].attempts.Keys)
    ensures PassOver(s, ids, w, now)[id] ==
            s[id].(attempts := s[id].attempts[no := s[id].attempts[no].(leaseExpiresAt := w.at(id) + 120.0)])
  {
    RenewalMovesLease(s[id], OpRenew(w.at(id) + 120.0), no);
  }

  /** Why a pass gives up on a job, with the code and detail it records: an answer that the generation failed,
      an id that ComfyUI does not know any more once the lease is over, or no id at all by then. */
  function GivenUp(e: Entry, status: RP.Status, now: Time): Option<(string, Option<string>)> {
    if Askable(e) && status.StFailed? then Some(("comfy_transient", status.error))
    else if Askable(e) && status.StUnknown? && LeaseOut(e, now) then Some(("comfy_transient", Some("prompt_unknown_to_comfy_after_lease")))
    else if !Askable(e) && LeaseOut(e, now)
    then Some(("worker_lease_expired", Some("lease expired with no prompt_id")))
    else None
  }

  /** A job that is given up on waits for a retry while it has an attempt to go, and has failed otherwise; the row
      and its newest attempt say why. Of all others, only a finished generation leaves the active states. */
  lemma GivenUpIsRetriedOrFailed(s: Store, ids: seq<Id>, w: World, now: Time, id: Id)
    requires ClaimOrder.Lists(ids, ActiveInKinds(Rows(s), None)) && id in ids && id in s
    requires s[id].attempts != map[]
    ensures var e, e', why := s[id], PassOver(s, ids, w, now)[id], GivenUp(s[id], w.status(id), now);
            && (why.Some? ==>
                  && e'.job.state == (if e.job.attempt + 1 < e.job.maxAttempts then RetryWait else Failed)
                  && e'.job.errorCode == Some(why.value.0) && e'.job.errorDetail == why.value.1
                  && e'.job.attempt == e.job.attempt + (if e'.job.state == RetryWait then 1 else 0)
                  && Current(e').Some? && Current(e').value.finished && Current(e').value.state == e'.job.state
                  && Current(e').value.errorCode == Some(why.value.0))
            && (why.None? ==>
                  e'.job.state == (if Askable(e) && w.status(id).StSucceeded? then Succeeded else e.job.state))
  {
    var e, why := s[id], GivenUp(s[id], w.status(id), now);
    DecisionOnGivenUp(w, e, id, now);
    var op := Decision(w, RP.SeenOf(e), id, now);
    assert PassOver(s, ids, w, now)[id] == ApplyMaybe(e, op);
    assert IsActive(e.job.state);
    if why.Some? {
      GivenUpEntry(e, op.value, LatestNo(e.attempts));
    } else if op.Some? {
      assert op.value.OpSucceeded? ==> Apply(e, op.value).job.state == Succeeded;
      assert op.value.OpRenew? ==> Apply(e, op.value).job.state == e.job.state;
    }
  }

  lemma DecisionOnGivenUp(w: World, e: Entry, id: Id, now: Time)
    ensures var why, op := GivenUp(e, w.status(id), now), Decision(w, RP.SeenOf(e), id, now);
            if why.Some? then
              && op.Some?
              && (if e.job.attempt + 1 < e.job.maxAttempts
                  then op.value.OpRetryWait? && op.value.code == why.value.0 && op.value.detail == why.value.1
                  else op.value == OpFailed(why.value.0, why.value.1, w.at(id)))
            else if Askable(e) && w.status(id).StSucceeded? then op.Some? && op.value.OpSucceeded?
            else op.Some? ==> op.value.OpRenew?
  {
    hide Retry.BackoffSeconds, Retry.IsRetryable, LatestNo;
    Retry.LastAttemptIsFinal("comfy_transient", e.job.attempt + 1, e.job.maxAttempts);
    Retry.LastAttemptIsFinal("worker_lease_expired", e.job.attempt + 1, e.job.maxAttempts);
  }

  lemma GivenUpEntry(e: Entry, op: Op, no: nat)
    requires IsActive(e.job.state) && (op.OpFailed? || op.OpRetryWait?) && IsGreatest(no, e.attempts.Keys)
    ensures var e' := Apply(e, op);
            && e'.job.state == (if op.OpRetryWait? then RetryWait else Failed)
            && e'.job.errorCode == Some(op.code) && e'.job.errorDetail == op.detail
            && e'.job.attempt == e.job.attempt + (if op.OpRetryWait? then 1 else 0)
            && Current(e').Some? && Current(e').value.finished && Current(e').value.state == e'.job.state
            && Current(e').value.errorCode == Some(op.code)
  {
    OutcomeClosesNewest(e, op, no);
    assert Apply(e, op).attempts.Keys == e.attempts.Keys;
    SameGreatest(e.attempts, Apply(e, op).attempts);
    assert no in Apply(e, op).attempts;
  }

  /** A finished generation is recorded by the pass, with its outputs on the newest attempt. */
  lemma FinishedIsRecorded(s: Store, ids: seq<Id>, w: World, now: Time, id: Id)
    requires ClaimOrder.Lists(ids, ActiveInKinds(Rows(s), None)) && id in ids && id in s
    requires ShownPrompt(s[id]).Some? && ShownPrompt(s[id]).value != "" && w.status(id).StSucceeded?
    ensures var e := PassOver(s, ids, w, now)[id];
            && e.job.state.Succeeded? && e.job.errorCode.None?
            && Current(e).Some?
            && Current(e).value.result == Some(map["outputs" := VList(w.status(id).outputs)])
            && Current(e).value.promptId == ShownPrompt(s[id])
  {
    var no := LatestNo(s[id].attempts);
    var e := PassOver(s, ids, w, now)[id];
    assert e.attempts.Keys == s[id].attempts.Keys;
    assert no in e.attempts;
    SameGreatest(s[id].attempts, e.attempts);
  }

  // ---- a pass is a run of the protocol ------------------------------------------------------

  /** The jobs are resolved one after another, however long each takes. */
  ghost predicate InSequence(w: World, ids: seq<Id>, start: Time) {
    && (forall i :: 0 <= i < |ids| ==> start <= w.at(ids[i]))
    && (forall i, j :: 0 <= i < j < |ids| ==> w.at(ids[i]) <= w.at(ids[j]))
  }

  ghost predicate FairDraws(w: World) { forall id :: -1.0 <= w.jitter(id) <= 1.0 }

  /** Before each reconciliation the time it takes to get there. */
  function Steps(k: Id, ids: seq<Id>, w: World, clock: Time): seq<Step> {
    if ids == [] then []
    else
      [Wait(w.at(ids[0]) - clock), ReconcileNext(k, ids[0], w.status(ids[0]), w.jitter(ids[0]))] +
      Steps(k, ids[1..], w, w.at(ids[0]))
  }

  function OnEach(s: Store, ids: seq<Id>, w: World, seen: map<Id, RP.Seen>, now: Time): Store
    requires forall id :: id in ids ==> id in seen
  {
    if ids == [] then s
    else OnEach(OnMaybe(s, ids[0], Decision(w, seen[ids[0]], ids[0], now)), ids[1..], w, seen, now)
  }

  lemma OneStep(h: Hypotheses, cfg: Config, s: System, k: Id, id: Id, w: World)
    requires FairDraws(w) && s.clock <= w.at(id) && id in PassRows(s, k) && (h.oneReconciler ==> k == 0)
    ensures var wait, step := Wait(w.at(id) - s.clock), ReconcileNext(k, id, w.status(id), w.jitter(id));
            && Enabled(cfg, s, wait) && Allowed(h, s, wait)
            && Enabled(cfg, Next(cfg, s, wait), step) && Allowed(h, Next(cfg, s, wait), step)
            && var s' := Next(cfg, Next(cfg, s, wait), step);
               && s'.clock == w.at(id)
               && s'.store == OnMaybe(s.store, id, Decision(w, PassRows(s, k)[id], id, s.passes[k].at))
               && k in s'.passes && s'.passes[k] == Pass(s.passes[k].at, PassRows(s, k) - {id})
  {
    hide RP.Reconcile, OnMaybe;
  }

  lemma {:induction false} StepsRun(h: Hypotheses, cfg: Config, s: System, k: Id, ids: seq<Id>, w: World,
                                    steps: seq<Step>, after: Store)
    requires FairDraws(w) && InSequence(w, ids, s.clock) && NoDup(ids) && (h.oneReconciler ==> k == 0)
    requires k in s.passes && forall id :: id in ids ==> id in PassRows(s, k)
    requires steps == Steps(k, ids, w, s.clock)
    requires after == OnEach(s.store, ids, w, PassRows(s, k), s.passes[k].at)
    ensures Legal(h, cfg, s, steps)
    ensures Run(h, cfg, s, steps).store == after
    ensures PassRows(Run(h, cfg, s, steps), k) == PassRows(s, k) - Elements(ids)
    decreases |ids|
  {
    NoSteps(h, cfg, s);
    if ids != [] {
      StepsUnfold(k, ids, w, s.clock);
      OnEachUnfold(s.store, ids, w, PassRows(s, k), s.passes[k].at);
      hide Next, Enabled, Allowed, RP.Reconcile, OnMaybe, FairDraws, Legal, Run, InSequence, Decision, Steps, OnEach;
      var id, rest := ids[0], ids[1..];
      OneStep(h, cfg, s, k, id, w);
      var wait, step := Wait(w.at(id) - s.clock), ReconcileNext(k, id, w.status(id), w.jitter(id));
      var s' := Next(cfg, Next(cfg, s, wait), step);
      var later := Steps(k, rest, w, w.at(id));
      assert steps == [wait, step] + later;
      TailFacts(w, ids, s.clock);
      assert forall x :: x in rest ==> x in PassRows(s', k) && PassRows(s', k)[x] == PassRows(s, k)[x];
      hide PassRows, NoDup, Elements;
      OnEachFrame(s'.store, rest, w, PassRows(s, k), PassRows(s', k), s.passes[k].at);
      StepsRun(h, cfg, s', k, rest, w, later, after);
      TwoMore(h, cfg, s, wait, step, later);
      MinusAll(PassRows(s, k), ids);
    }
  }

  lemma MinusAll(m: map<Id, RP.Seen>, ids: seq<Id>)
    requires ids != []
    ensures (m - {ids[0]}) - Elements(ids[1..]) == m - Elements(ids)
  {
    assert Elements(ids) == {ids[0]} + Elements(ids[1..]);
  }

  lemma StepsUnfold(k: Id, ids: seq<Id>, w: World, clock: Time)
    requires ids != []
    ensures Steps(k, ids, w, clock) ==
            [Wait(w.at(ids[0]) - clock), ReconcileNext(k, ids[0], w.status(ids[0]), w.jitter(ids[0]))] +
            Steps(k, ids[1..], w, w.at(ids[0]))
  {
  }

  lemma OnEachUnfold(s: Store, ids: seq<Id>, w: World, seen: map<Id, RP.Seen>, now: Time)
    requires ids != [] && forall id :: id in ids ==> id in seen
    ensures OnEach(s, ids, w, seen, now) ==
            OnEach(OnMaybe(s, ids[0], Decision(w, seen[ids[0]], ids[0], now)), ids[1..], w, seen, now)
  {
  }

  lemma TwoMore(h: Hypotheses, cfg: Config, s: System, a: Step, b: Step, later: seq<Step>)
    requires Enabled(cfg, s, a) && Allowed(h, s, a)
    requires Enabled(cfg, Next(cfg, s, a), b) && Allowed(h, Next(cfg, s, a), b)
    requires Legal(h, cfg, Next(cfg, Next(cfg, s, a), b), later)
    ensures Legal(h, cfg, s, [a, b] + later)
    ensures Run(h, cfg, s, [a, b] + later) == Run(h, cfg, Next(cfg, Next(cfg, s, a), b), later)
  {
    hide Next, Enabled, Allowed;
    assert ([a, b] + later)[1..] == [b] + later && ([b] + later)[1..] == later;
    assert Legal(h, cfg, Next(cfg, s, a), [b] + later);
  }

  lemma TailFacts(w: World, ids: seq<Id>, start: Time)
    requires ids != [] && NoDup(ids) && InSequence(w, ids, start)
    ensures NoDup(ids[1..]) && InSequence(w, ids[1..], w.at(ids[0]))
    ensures forall id :: id in ids[1..] ==> id in ids && id != ids[0]
  {
  }

  lemma {:induction false} OnEachFrame(s: Store, ids: seq<Id>, w: World, a: map<Id, RP.Seen>, b: map<Id, RP.Seen>, now: Time)
    requires forall id :: id in ids ==> id in a && id in b && a[id] == b[id]
    ensures OnEach(s, ids, w, a, now) == OnEach(s, ids, w, b, now)
  {
    if ids != [] {
      OnEachFrame(OnMaybe(s, ids[0], Decision(w, a[ids[0]], ids[0], now)), ids[1..], w, a, b, now);
    }
  }

  lemma {:induction false} OnEachIsPassOver(s0: Store, s: Store, done: seq<Id>, ids: seq<Id>, w: World,
                                            seen: map<Id, RP.Seen>, now: Time)
    requires NoDup(done + ids)
    requires forall id :: id in ids ==> id in s0 && id in seen && seen[id] == RP.SeenOf(s0[id])
    requires s == PassOver(s0, done, w, now)
    ensures OnEach(s, ids, w, seen, now) == PassOver(s0, done + ids, w, now)
    decreases |ids|
  {
    if ids == [] {
      assert done + ids == done;
    } else {
      assert forall k :: 0 <= k < |done| ==> (done + ids)[k] == done[k] && (done + ids)[|done|] == ids[0];
      PassOverSnoc(s0, done, ids[0], w, now);
      assert (done + [ids[0]]) + ids[1..] == done + ids;
      OnEachIsPassOver(s0, OnMaybe(s, ids[0], Decision(w, seen[ids[0]], ids[0], now)), done + [ids[0]], ids[1..], w, seen, now);
    }
  }

  lemma PassBegun(h: Hypotheses, cfg: Config, s: System, k: Id)
    requires h.oneReconciler ==> k == 0
    ensures Enabled(cfg, s, BeginPass(k)) && Allowed(h, s, BeginPass(k))
    ensures var s' := Next(cfg, s, BeginPass(k));
            && s'.store == s.store && s'.clock == s.clock && k in s'.passes && s'.passes[k].at == s.clock
            && PassRows(s', k).Keys == ActiveInKinds(Rows(s.store), None)
            && forall id :: id in PassRows(s', k) ==> PassRows(s', k)[id] == RP.SeenOf(s.store[id])
  {
  }

  /** run_once refines the transition system: reading the snapshot and then reconciling job by job, in any
      order and each whenever it is its turn, is the run BeginPass, Wait, ReconcileNext, ...; and it uses
      the snapshot up. */
  lemma PassIsARun(h: Hypotheses, cfg: Config, s: System, k: Id, ids: seq<Id>, w: World)
    requires FairDraws(w) && InSequence(w, ids, s.clock) && (h.oneReconciler ==> k == 0)
    requires ClaimOrder.Lists(ids, ActiveInKinds(Rows(s.store), None))
    ensures Legal(h, cfg, s, [BeginPass(k)] + Steps(k, ids, w, s.clock))
    ensures Run(h, cfg, s, [BeginPass(k)] + Steps(k, ids, w, s.clock)).store == PassOver(s.store, ids, w, s.clock)
    ensures PassRows(Run(h, cfg, s, [BeginPass(k)] + Steps(k, ids, w, s.clock)), k) == map[]
  {
    hide Next, Enabled, Allowed, FairDraws;
    PassBegun(h, cfg, s, k);
    var s' := Next(cfg, s, BeginPass(k));
    assert ([BeginPass(k)] + Steps(k, ids, w, s.clock))[1..] == Steps(k, ids, w, s.clock);
    StepsRun(h, cfg, s', k, ids, w, Steps(k, ids, w, s.clock), OnEach(s.store, ids, w, PassRows(s', k), s.clock));
    PassOverNone(s.store, w, s.clock);
    assert [] + ids == ids;
    OnEachIsPassOver(s.store, s.store, [], ids, w, PassRows(s', k), s.clock);
    assert PassRows(s', k) - Elements(ids) == map[];
  }
}
