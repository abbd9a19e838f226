// Bounded retries over every run with one reconciler whose dispatches return.
module ProtocolBounds {
  import opened Basics
  import opened Jobs
  import opened JobEntry
  import opened Claim
  import opened Protocol
  import opened ProtocolSafety
  import AP = AdmissionPolicy
  import RP = ReconcilePolicy
  import Retry

  /** What the pass still holds is what the rows still say: only this reconciler schedules
      retries, and it forgets a job when it writes one. */
  ghost predicate PassCurrent(s: System) {
    forall id :: id in PassRows(s, 0) ==> StillAsSeen(s.store, id, PassRows(s, 0)[id])
  }

  ghost predicate StillAsSeen(store: Store, id: Id, seen: RP.Seen) {
    && id in store
    && seen.attempt == store[id].job.attempt
    && seen.maxAttempts == store[id].job.maxAttempts
    && !IsBacklog(store[id].job.state)
  }

  ghost predicate Bounded(s: System) {
    forall id :: id in s.store ==>
      s.store[id].job.attempt < s.store[id].job.maxAttempts && OnTime(s.store[id], s.clock)
  }

  /** What the transactions of such a run may do to a job: claims respect available_at, and a
      retry is this pass's, below the maximum and not before the shortest backoff. */
  ghost predicate Orderly(e: Entry, op: Op, clock: Time) {
    && OpTime(op, clock) == clock
    && (op.OpClaim? ==> Available(e.job, clock))
    && (op.OpRetryWait? ==>
          && !IsBacklog(e.job.state)
          && e.job.attempt + 1 < e.job.maxAttempts
          && Retry.ShortestDelay(e.job.attempt + 1) <= op.delay)
  }

  lemma StepOp(h: Hypotheses, cfg: Config, s: System, step: Step, id: Id) returns (op: Option<Op>)
    requires h.oneReconciler && h.submitsReturn && Enabled(cfg, s, step) && Allowed(h, s, step)
    requires PassCurrent(s) && id in s.store
    ensures id in Next(cfg, s, step).store
    ensures Next(cfg, s, step).store[id] == ApplyMaybe(s.store[id], op)
    ensures op.Some? ==> Orderly(s.store[id], op.value, s.clock)
    ensures op.Some? && op.value.OpRetryWait? ==> step.ReconcileNext? && step.id == id
  {
    op := OpFor(EffectOf(cfg, s, step), id);
    StepEntry(cfg, s, step, id);
    StepEffect(cfg, s, step);
    PickedEligible(cfg, s, step);
    if step.ReconcileNext? {
      RP.RetryWithinBounds(PassRows(s, 0)[step.id], step.status, s.passes[0].at, step.jitter, s.clock);
    }
  }

  lemma OrderlyBounds(e: Entry, op: Op, clock: Time)
    requires EntryInv(e) && OnTime(e, clock) && e.job.attempt < e.job.maxAttempts
    requires Orderly(e, op, clock)
    ensures OnTime(Apply(e, op), clock)
    ensures Apply(e, op).job.attempt < Apply(e, op).job.maxAttempts
    ensures op.OpRetryWait? || Apply(e, op).job.attempt == e.job.attempt
    ensures Apply(e, op).job.maxAttempts == e.job.maxAttempts
    ensures op.OpRetryWait? || IsBacklog(e.job.state) || !IsBacklog(Apply(e, op).job.state)
  {
    ApplyOnTime(e, op, clock);
  }

  lemma OnTimeLater(e: Entry, clock: Time, later: Time)
    requires OnTime(e, clock) && clock <= later
    ensures OnTime(e, later)
  {
  }

  lemma CreatedOnTime(j: Job, now: Time)
    requires j.state.Queued? && j.attempt == 0
    ensures OnTime(Created(j, now), now)
  {
  }

  lemma BoundedStep(h: Hypotheses, cfg: Config, s: System, step: Step)
    requires h.oneReconciler && h.submitsReturn && Enabled(cfg, s, step) && Allowed(h, s, step)
    requires LogsRight(h, s) && PassCurrent(s) && Bounded(s)
    ensures Bounded(Next(cfg, s, step))
  {
    var s' := Next(cfg, s, step);
    assert s.clock <= s'.clock by { StepEffect(cfg, s, step); }
    forall id | id in s'.store
      ensures s'.store[id].job.attempt < s'.store[id].job.maxAttempts && OnTime(s'.store[id], s'.clock)
    {
      if id in s.store {
        var op := StepOp(h, cfg, s, step, id);
        if op.Some? { OrderlyBounds(s.store[id], op.value, s.clock); }
      } else {
        StepNew(cfg, s, step, id);
        CreatedOnTime(AP.NewJob(s.admissions[step.r].request, step.queuedAt), s.clock);
      }
      OnTimeLater(s'.store[id], s.clock, s'.clock);
    }
  }

  lemma PassEntryStep(h: Hypotheses, cfg: Config, s: System, step: Step, id: Id)
    requires h.oneReconciler && h.submitsReturn && Enabled(cfg, s, step) && Allowed(h, s, step)
    requires LogsRight(h, s) && PassCurrent(s) && Bounded(s) && id in PassRows(s, 0)
    requires !(step.ReconcileNext? && step.id == id)
    ensures StillAsSeen(Next(cfg, s, step).store, id, PassRows(s, 0)[id])
  {
    var op := StepOp(h, cfg, s, step, id);
    if op.Some? { OrderlyBounds(s.store[id], op.value, s.clock); }
  }

  lemma PassKept(cfg: Config, s: System, step: Step)
    requires Enabled(cfg, s, step) && !(step.BeginPass? && step.k == 0)
    ensures PassRows(Next(cfg, s, step), 0) ==
            (if step.ReconcileNext? && step.k == 0 then PassRows(s, 0) - {step.id} else PassRows(s, 0))
  {
  }

  lemma JustRead(cfg: Config, s: System, step: Step)
    requires Enabled(cfg, s, step) && step == BeginPass(0)
    ensures PassCurrent(Next(cfg, s, step))
  {
  }

  /** A pending snapshot survives every step but its own reconciliation. */
  lemma PassStep(h: Hypotheses, cfg: Config, s: System, step: Step)
    requires h.oneReconciler && h.submitsReturn && Enabled(cfg, s, step) && Allowed(h, s, step)
    requires LogsRight(h, s) && PassCurrent(s) && Bounded(s)
    ensures PassCurrent(Next(cfg, s, step))
  {
    hide Enabled, LogsRight, Bounded, Apply;
    if step.BeginPass? && step.k == 0 {
      JustRead(cfg, s, step);
    } else {
      hide Next, StillAsSeen;
      PassKept(cfg, s, step);
      forall id | id in PassRows(s, 0) && !(step.ReconcileNext? && step.id == id)
        ensures StillAsSeen(Next(cfg, s, step).store, id, PassRows(s, 0)[id])
      {
        PassEntryStep(h, cfg, s, step, id);
      }
    }
  }

  // ---- the measure --------------------------------------------------------------------------

  /** State changes the job can still make: three per attempt left, fewer once it is claimed. */
  function Potential(j: Job): int {
    if IsTerminal(j.state) then 0
    else 3 * (j.maxAttempts - 1 - j.attempt) +
         (if IsBacklog(j.state) then 3 else if j.state.Dispatched? then 2 else 1)
  }

  lemma PotentialDrops(e: Entry, op: Op, clock: Time)
    requires EntryInv(e) && e.job.attempt < e.job.maxAttempts && Orderly(e, op, clock)
    ensures Potential(e.job) >= 0
    ensures Potential(Apply(e, op).job) <=
            Potential(e.job) - (if Apply(e, op).job.state != e.job.state then 1 else 0)
  {
  }

  lemma StepPotential(h: Hypotheses, cfg: Config, s: System, step: Step, id: Id)
    requires h.oneReconciler && h.submitsReturn && Enabled(cfg, s, step) && Allowed(h, s, step)
    requires LogsRight(h, s) && PassCurrent(s) && Bounded(s) && id in s.store
    ensures id in Next(cfg, s, step).store
    ensures Potential(Next(cfg, s, step).store[id].job) <=
            Potential(s.store[id].job) - StateChange(cfg, s, step, id)
  {
    var op := StepOp(h, cfg, s, step, id);
    if op.Some? { PotentialDrops(s.store[id], op.value, s.clock); }
  }

  /** 1 when the step changes the job's state, 0 otherwise. */
  ghost function StateChange(cfg: Config, s: System, step: Step, id: Id): nat
    requires Enabled(cfg, s, step)
  {
    if id in s.store && id in Next(cfg, s, step).store &&
       Next(cfg, s, step).store[id].job.state != s.store[id].job.state then 1 else 0
  }

  ghost function StateChanges(h: Hypotheses, cfg: Config, s: System, steps: seq<Step>, id: Id): nat
    requires Legal(h, cfg, s, steps)
    decreases |steps|
  {
    if steps == [] then 0
    else StateChange(cfg, s, steps[0], id) + StateChanges(h, cfg, Next(cfg, s, steps[0]), steps[1..], id)
  }

  ghost predicate InOrder(h: Hypotheses, s: System) {
    LogsRight(h, s) && PassCurrent(s) && Bounded(s)
  }

  lemma InOrderStep(h: Hypotheses, cfg: Config, s: System, step: Step)
    requires h.oneReconciler && h.submitsReturn && Enabled(cfg, s, step) && Allowed(h, s, step)
    requires InOrder(h, s)
    ensures InOrder(h, Next(cfg, s, step))
  {
    hide Next, Enabled, Allowed, LogsRight, PassCurrent, Bounded;
    LogsStep(h, cfg, s, step);
    BoundedStep(h, cfg, s, step);
    PassStep(h, cfg, s, step);
  }

  /** Along any run the state changes of a job are paid for by its potential; a job the run
      admits starts with three per attempt. */
  lemma {:induction false} ChangesArePaid(h: Hypotheses, cfg: Config, s: System, steps: seq<Step>, id: Id)
    requires h.oneReconciler && h.submitsReturn && InOrder(h, s) && Legal(h, cfg, s, steps)
    ensures InOrder(h, Run(h, cfg, s, steps))
    ensures StateChanges(h, cfg, s, steps, id) <=
            (if id in s.store then Max(0, Potential(s.store[id].job)) else 3 * AP.DEFAULT_MAX_ATTEMPTS)
    decreases |steps|
  {
    hide Next, Enabled, Allowed, LogsRight, PassCurrent, Bounded, Potential;
    if steps != [] {
      var s' := Next(cfg, s, steps[0]);
      InOrderStep(h, cfg, s, steps[0]);
      ChangesArePaid(h, cfg, s', steps[1..], id);
      if id in s.store {
        StepPotential(h, cfg, s, steps[0], id);
        PotentialNonNegative(h, s', id);
      } else if id in s'.store {
        StepNew(cfg, s, steps[0], id);
        NewPotential(s.admissions[steps[0].r].request, steps[0].queuedAt, s.clock);
      }
    }
  }

  lemma NewPotential(r: AP.Request, queuedAt: Time, now: Time)
    ensures Potential(Created(AP.NewJob(r, queuedAt), now).job) == 3 * AP.DEFAULT_MAX_ATTEMPTS
  {
  }

  lemma PotentialNonNegative(h: Hypotheses, s: System, id: Id)
    requires InOrder(h, s) && id in s.store
    ensures Potential(s.store[id].job) >= 0
  {
  }
}
