// What a renewed lease protects a running generation from.
module ProtocolLeases {
  import opened Basics
  import opened Jobs
  import opened JobEntry
  import opened Protocol
  import opened ProtocolSafety
  import opened ProtocolTheorems
  import RP = ReconcilePolicy

  /** The lease of this attempt lasts at least until then. */
  predicate LeasedUntil(s: System, id: Id, no: nat, until: Time) {
    id in s.store && no in s.store[id].attempts && s.store[id].attempts[no].leaseExpiresAt >= until
  }

  /** A claim opens a new attempt, a renewal extends to 120 seconds from now, and nothing else touches a lease. */
  lemma LeaseOfAttempt(e: Entry, op: Op, no: nat)
    requires EntryInv(e) && no in e.attempts
    ensures no in Apply(e, op).attempts
    ensures Apply(e, op).attempts[no].leaseExpiresAt == e.attempts[no].leaseExpiresAt ||
            (op.OpRenew? && Apply(e, op).attempts[no].leaseExpiresAt == op.expiresAt)
  {
    if op.OpClaim? && IsBacklog(e.job.state) { ClaimIsFresh(e, op.owner, op.expiresAt, op.now); }
  }

  lemma RenewalIsFromNow(cfg: Config, s: System, step: Step, id: Id)
    requires Enabled(cfg, s, step)
    ensures var op := OpFor(EffectOf(cfg, s, step), id);
            op.Some? && op.value.OpRenew? ==> op.value.expiresAt == s.clock + 120.0
  {
  }

  lemma LeaseStep(h: Hypotheses, cfg: Config, s: System, step: Step, id: Id, no: nat, until: Time)
    requires Safe(h, cfg, s) && Enabled(cfg, s, step) && LeasedUntil(s, id, no, until) && until <= s.clock + 120.0
    ensures LeasedUntil(Next(cfg, s, step), id, no, until) && s.clock <= Next(cfg, s, step).clock
  {
    hide Next, Enabled, Safe, LogsRight, ClaimsRight, Apply, EntryInv, ClaimedFirst, EffectOf, OpFor, After;
    StepEffect(cfg, s, step);
    SafeEntry(h, cfg, s, id);
    StepEntry(cfg, s, step, id);
    RenewalIsFromNow(cfg, s, step, id);
    var op := OpFor(EffectOf(cfg, s, step), id);
    if op.Some? { LeaseOfAttempt(s.store[id], op.value, no); }
  }

  lemma {:induction false} LeaseRun(h: Hypotheses, cfg: Config, s: System, steps: seq<Step>, id: Id, no: nat, until: Time)
    requires Safe(h, cfg, s) && Legal(h, cfg, s, steps) && LeasedUntil(s, id, no, until) && until <= s.clock + 120.0
    ensures LeasedUntil(Run(h, cfg, s, steps), id, no, until)
    decreases |steps|
  {
    if steps != [] {
      hide Next, Enabled, Allowed, Safe, LeasedUntil;
      SafeStep(h, cfg, s, steps[0]);
      LeaseStep(h, cfg, s, steps[0], id, no, until);
      LeaseRun(h, cfg, Next(cfg, s, steps[0]), steps[1..], id, no, until);
    }
  }

  // ---- the snapshot of a pass -------------------------------------------------------------

  /** While reconciler k begins no other pass, its rows only get fewer. */
  lemma {:induction false} SnapshotStays(h: Hypotheses, cfg: Config, s: System, steps: seq<Step>, k: Id)
    requires Legal(h, cfg, s, steps) && k in s.passes
    requires forall i :: 0 <= i < |steps| ==> steps[i] != BeginPass(k)
    ensures var s' := Run(h, cfg, s, steps);
            && k in s'.passes && s'.passes[k].at == s.passes[k].at
            && forall id :: id in s'.passes[k].rows ==> id in s.passes[k].rows && s'.passes[k].rows[id] == s.passes[k].rows[id]
    decreases |steps|
  {
    if steps != [] {
      hide Next, Enabled, Allowed;
      SnapshotStep(cfg, s, steps[0], k);
      SnapshotStays(h, cfg, Next(cfg, s, steps[0]), steps[1..], k);
    }
  }

  lemma SnapshotStep(cfg: Config, s: System, step: Step, k: Id)
    requires Enabled(cfg, s, step) && k in s.passes && step != BeginPass(k)
    ensures var s' := Next(cfg, s, step);
            && k in s'.passes && s'.passes[k].at == s.passes[k].at
            && forall id :: id in s'.passes[k].rows ==> id in s.passes[k].rows && s'.passes[k].rows[id] == s.passes[k].rows[id]
  {
    hide OnPicked, OnJob, OnMaybe, RP.Reconcile, RP.SeenOf, TasksFor, LaneActive, LaneSize;
  }

  lemma BegunPass(cfg: Config, s: System, k: Id)
    ensures var s' := Next(cfg, s, BeginPass(k));
            && s'.store == s.store && s'.clock == s.clock && k in s'.passes && s'.passes[k].at == s.clock
            && forall id :: id in s'.passes[k].rows ==> id in s.store && s'.passes[k].rows[id] == RP.SeenOf(s.store[id])
  {
  }

  // ---- the promise -----------------------------------------------------------------------

  /** The step hears ComfyUI say that the job's generation is running. */
  predicate HearsRunning(s: System, step: Step) {
    && step.ReconcileNext? && step.status.StRunning? && step.id in s.store
    && step.id in PassRows(s, step.k) && s.passes[step.k].rows[step.id].promptId.Some?
    && s.passes[step.k].rows[step.id].promptId.value != ""
  }

  lemma HeardIsLeased(cfg: Config, s: System, heard: Step, no: nat)
    requires Enabled(cfg, s, heard) && HearsRunning(s, heard) && IsGreatest(no, s.store[heard.id].attempts.Keys)
    ensures var e := s.store[heard.id];
            Next(cfg, s, heard).store ==
            s.store[heard.id := e.(attempts := e.attempts[no := e.attempts[no].(leaseExpiresAt := s.clock + 120.0)])]
    ensures Next(cfg, s, heard).clock == s.clock
  {
    RenewalMovesLease(s.store[heard.id], OpRenew(s.clock + 120.0), no);
    hide Apply;
  }

  lemma UnknownWithinLease(seen: RP.Seen, now: Time, jitter: real, at: Time)
    requires seen.leaseExpiresAt.Some? && now <= seen.leaseExpiresAt.value
    ensures RP.Reconcile(seen, RP.StUnknown, now, jitter, at) == None
  {
  }

  lemma LeaseSeen(e: Entry, no: nat, until: Time)
    requires IsGreatest(no, e.attempts.Keys) && e.attempts[no].leaseExpiresAt >= until
    ensures RP.SeenOf(e).leaseExpiresAt.Some? && RP.SeenOf(e).leaseExpiresAt.value >= until
  {
    assert LatestNo(e.attempts) == no;
  }

  lemma LeasedWhenBegun(h: Hypotheses, cfg: Config, s: System, heard: Step, no: nat, between: seq<Step>)
    requires Safe(h, cfg, s) && Enabled(cfg, s, heard) && Allowed(h, s, heard) && HearsRunning(s, heard)
    requires IsGreatest(no, s.store[heard.id].attempts.Keys) && Legal(h, cfg, Next(cfg, s, heard), between)
    ensures LeasedUntil(Run(h, cfg, Next(cfg, s, heard), between), heard.id, no, s.clock + 120.0)
  {
    hide Allowed, Safe, LeasedUntil, Next, Enabled, Legal, Run;
    SafeStep(h, cfg, s, heard);
    HeardIsLeased(cfg, s, heard, no);
    StillLeased(Next(cfg, s, heard), heard.id, no, s.clock + 120.0);
    LeaseRun(h, cfg, Next(cfg, s, heard), between, heard.id, no, s.clock + 120.0);
  }

  lemma ToldNothing(h: Hypotheses, cfg: Config, begun: System, id: Id, no: nat, until: Time, k: Id,
                    after: seq<Step>, jitter: real)
    requires LeasedUntil(begun, id, no, until) && begun.clock <= until
    requires id in begun.store && IsGreatest(no, begun.store[id].attempts.Keys)
    requires Legal(h, cfg, Next(cfg, begun, BeginPass(k)), after) && forall i :: 0 <= i < |after| ==> after[i] != BeginPass(k)
    requires Enabled(cfg, Run(h, cfg, Next(cfg, begun, BeginPass(k)), after), ReconcileNext(k, id, RP.StUnknown, jitter))
    ensures var end := Run(h, cfg, Next(cfg, begun, BeginPass(k)), after);
            Next(cfg, end, ReconcileNext(k, id, RP.StUnknown, jitter)).store == end.store
  {
    hide RP.SeenOf, LeasedUntil, Legal, Run, Next, RP.Reconcile;
    var reading := Next(cfg, begun, BeginPass(k));
    BegunPass(cfg, begun, k);
    SnapshotStays(h, cfg, reading, after, k);
    StillLeasedThen(begun, id, no, until);
    LeaseSeen(begun.store[id], no, until);
    NothingOnUnknown(cfg, Run(h, cfg, reading, after), k, id, jitter);
  }

  lemma NothingOnUnknown(cfg: Config, s: System, k: Id, id: Id, jitter: real)
    requires Enabled(cfg, s, ReconcileNext(k, id, RP.StUnknown, jitter))
    requires var seen := s.passes[k].rows[id]; seen.leaseExpiresAt.Some? && s.passes[k].at <= seen.leaseExpiresAt.value
    ensures Next(cfg, s, ReconcileNext(k, id, RP.StUnknown, jitter)).store == s.store
  {
    UnknownWithinLease(s.passes[k].rows[id], s.passes[k].at, jitter, s.clock);
  }

  /** A job that was heard to be running is left alone by every pass, of whichever reconciler, that begins within
      120 seconds and is told nothing, however late it gets round to the job, as long as no further attempt had
      been claimed when the pass began. */
  lemma HeardRunningIsLeft(h: Hypotheses, cfg: Config, s: System, heard: Step, no: nat, between: seq<Step>,
                           k: Id, after: seq<Step>, jitter: real)
    requires Safe(h, cfg, s) && Enabled(cfg, s, heard) && Allowed(h, s, heard) && HearsRunning(s, heard)
    requires IsGreatest(no, s.store[heard.id].attempts.Keys)
    requires Legal(h, cfg, Next(cfg, s, heard), between)
    requires var begun := Run(h, cfg, Next(cfg, s, heard), between);
             && begun.clock <= s.clock + 120.0
             && heard.id in begun.store && IsGreatest(no, begun.store[heard.id].attempts.Keys)
             && Legal(h, cfg, Next(cfg, begun, BeginPass(k)), after)
    requires forall i :: 0 <= i < |after| ==> after[i] != BeginPass(k)
    requires var end := Run(h, cfg, Next(cfg, Run(h, cfg, Next(cfg, s, heard), between), BeginPass(k)), after);
             Enabled(cfg, end, ReconcileNext(k, heard.id, RP.StUnknown, jitter))
    ensures var end := Run(h, cfg, Next(cfg, Run(h, cfg, Next(cfg, s, heard), between), BeginPass(k)), after);
            Next(cfg, end, ReconcileNext(k, heard.id, RP.StUnknown, jitter)).store == end.store
  {
    assert heard.ReconcileNext?;
    hide *;
    LeasedWhenBegun(h, cfg, s, heard, no, between);
    ToldNothing(h, cfg, Run(h, cfg, Next(cfg, s, heard), between), heard.id, no, s.clock + 120.0, k, after, jitter);
  }

  lemma StillLeased(s: System, id: Id, no: nat, until: Time)
    requires id in s.store && no in s.store[id].attempts && s.store[id].attempts[no].leaseExpiresAt == until
    ensures LeasedUntil(s, id, no, until)
  {
  }

  lemma StillLeasedThen(s: System, id: Id, no: nat, until: Time)
    requires LeasedUntil(s, id, no, until)
    ensures id in s.store && no in s.store[id].attempts && s.store[id].attempts[no].leaseExpiresAt >= until
  {
  }
}
