// The bounds of the protocol without hypotheses: exactly which steps have to be kept out of a run
// for a bound to hold at every moment of it.
module ProtocolConditions {
  import opened Basics
  import opened Jobs
  import opened JobEntry
  import opened Claim
  import opened Registry
  import opened Protocol
  import opened ProtocolSafety
  import opened ProtocolBounds
  import opened ProtocolTheorems
  import AP = AdmissionPolicy
  import Retry

  /** p holds now and after every step. */
  ghost predicate Always(h: Hypotheses, cfg: Config, s: System, steps: seq<Step>, p: System -> bool)
    requires Legal(h, cfg, s, steps)
    decreases |steps|
  {
    p(s) && (steps != [] ==> Always(h, cfg, Next(cfg, s, steps[0]), steps[1..], p))
  }

  /** Every step meets q in the state it is taken in. */
  ghost predicate EachStep(h: Hypotheses, cfg: Config, s: System, steps: seq<Step>, q: (System, Step) -> bool)
    requires Legal(h, cfg, s, steps)
    decreases |steps|
  {
    steps != [] ==> q(s, steps[0]) && EachStep(h, cfg, Next(cfg, s, steps[0]), steps[1..], q)
  }

  /** In a safe state where p holds, a step keeps p exactly when it meets q. */
  ghost predicate Decides(h: Hypotheses, cfg: Config, p: System -> bool, q: (System, Step) -> bool) {
    forall s, step :: Safe(h, cfg, s) && Enabled(cfg, s, step) && Allowed(h, s, step) && p(s) ==>
      (p(Next(cfg, s, step)) <==> q(s, step))
  }

  lemma {:induction false} AlwaysIff(h: Hypotheses, cfg: Config, s: System, steps: seq<Step>,
                                     p: System -> bool, q: (System, Step) -> bool)
    requires Safe(h, cfg, s) && Legal(h, cfg, s, steps) && p(s) && Decides(h, cfg, p, q)
    ensures Always(h, cfg, s, steps, p) <==> EachStep(h, cfg, s, steps, q)
    decreases |steps|
  {
    if steps != [] {
      hide Next, Enabled, Allowed, Safe;
      SafeStep(h, cfg, s, steps[0]);
      if p(Next(cfg, s, steps[0])) { AlwaysIff(h, cfg, Next(cfg, s, steps[0]), steps[1..], p, q); }
    }
  }

  /** The transaction a step makes on this job. */
  ghost function OpOn(cfg: Config, s: System, step: Step, id: Id): Option<Op> {
    if Enabled(cfg, s, step) then OpFor(EffectOf(cfg, s, step), id) else None
  }

  /** The step lifts this waiting job to running. */
  predicate Lifts(s: System, step: Step, id: Id) {
    step.StartRunning? && step.id == id && id in s.store && IsBacklog(s.store[id].job.state)
  }

  /** The step schedules a retry of this live job. */
  ghost predicate SchedulesRetry(cfg: Config, s: System, step: Step, id: Id) {
    && id in s.store && !IsTerminal(s.store[id].job.state)
    && OpOn(cfg, s, step, id).Some? && OpOn(cfg, s, step, id).value.OpRetryWait?
  }

  // ---- the active cap -----------------------------------------------------------------------

  ghost predicate CapKept(cfg: Config, s: System) { WithinCap(Rows(s.store), cfg.maxActive) }

  /** A mark_running that lifts a waiting job finds its user below the cap. */
  ghost predicate LiftFits(cfg: Config, s: System, step: Step) {
    step.StartRunning? && Lifts(s, step, step.id) ==>
      ActiveCount(Rows(s.store), s.store[step.id].job.user) < cfg.maxActive
  }

  lemma LiftedCount(m: Table, id: Id, u: Id)
    requires id in m && IsBacklog(m[id].state)
    ensures var m' := m[id := RowAfter(m[id], OpRunning)];
            ActiveCount(m', u) == ActiveCount(m, u) + (if m[id].user == u then 1 else 0)
  {
    var m' := m[id := RowAfter(m[id], OpRunning)];
    assert m'[id] == m[id].(state := Running);
    hide RowAfter;
    if m[id].user == u {
      assert ActiveOf(m', u) == ActiveOf(m, u) + {id};
    } else {
      assert ActiveOf(m', u) == ActiveOf(m, u);
    }
  }

  lemma LiftedCap(m: Table, id: Id, cap: int)
    requires id in m && IsBacklog(m[id].state) && WithinCap(m, cap)
    ensures WithinCap(m[id := RowAfter(m[id], OpRunning)], cap) <==> ActiveCount(m, m[id].user) < cap
  {
    var m' := m[id := RowAfter(m[id], OpRunning)];
    forall u ensures ActiveCount(m', u) <= cap <==> !(m[id].user == u && ActiveCount(m, u) == cap) {
      LiftedCount(m, id, u);
      assert ActiveCount(m, u) <= cap;
    }
  }

  lemma LiftedRows(cfg: Config, s: System, step: Step)
    requires step.StartRunning? && Enabled(cfg, s, step) && Lifts(s, step, step.id)
    ensures Rows(Next(cfg, s, step).store) == Rows(s.store)[step.id := RowAfter(s.store[step.id].job, OpRunning)]
  {
    StepEffect(cfg, s, step);
  }

  lemma CapStepIff(h: Hypotheses, cfg: Config, s: System, step: Step)
    requires cfg.maxActive > 0 && LogsRight(h, s) && Enabled(cfg, s, step) && CapKept(cfg, s)
    ensures CapKept(cfg, Next(cfg, s, step)) <==> LiftFits(cfg, s, step)
  {
    hide Next, Enabled, LogsRight, ActiveCount;
    if step.StartRunning? && Lifts(s, step, step.id) {
      LiftedRows(cfg, s, step);
      LiftedCap(Rows(s.store), step.id, cfg.maxActive);
    } else {
      assert InTime(s, step);
      UserCapStep(h, cfg, s, step);
    }
  }

  /** With no hypothesis on the actors: every user stays within the cap throughout a run exactly when each
      mark_running that comes after its job went back to waiting finds the user below the cap. */
  lemma ActiveCapIff(h: Hypotheses, cfg: Config, clock: Time, steps: seq<Step>)
    requires cfg.maxActive > 0 && Legal(h, cfg, Initial(clock), steps)
    ensures Always(h, cfg, Initial(clock), steps, s => CapKept(cfg, s)) <==>
            EachStep(h, cfg, Initial(clock), steps, (s, step) => LiftFits(cfg, s, step))
  {
    var p := (s: System) => CapKept(cfg, s);
    var q := (s: System, step: Step) => LiftFits(cfg, s, step);
    InitialSafe(h, cfg, clock);
    assert forall u :: ActiveOf(Rows(Initial(clock).store), u) == {};
    forall s, step | Safe(h, cfg, s) && Enabled(cfg, s, step) && Allowed(h, s, step) && p(s)
      ensures p(Next(cfg, s, step)) <==> q(s, step)
    {
      CapStepIff(h, cfg, s, step);
    }
    AlwaysIff(h, cfg, Initial(clock), steps, p, q);
  }

  // ---- the log --------------------------------------------------------------------------------

  ghost predicate LogIsRow(s: System, id: Id) {
    id in s.store ==> Replay(s.store[id].log) == ViewOf(s.store[id])
  }

  lemma LogStepIff(h: Hypotheses, cfg: Config, s: System, step: Step, id: Id)
    requires LogsRight(h, s) && Enabled(cfg, s, step) && LogIsRow(s, id)
    ensures LogIsRow(Next(cfg, s, step), id) <==> !Lifts(s, step, id)
  {
    if id in s.store {
      StepEntry(cfg, s, step, id);
      StepEffect(cfg, s, step);
      assert EntryInv(s.store[id]);
      hide Next, Enabled, LogsRight, Apply, Replay, ViewOf, EntryInv;
      var op := OpFor(EffectOf(cfg, s, step), id);
      if op.Some? { ReplayIff(s.store[id], op.value); }
    } else if id in Next(cfg, s, step).store {
      StepNew(cfg, s, step, id);
      CreatedReplays(AP.NewJob(s.admissions[step.r].request, step.queuedAt), s.clock);
    }
  }

  /** A job's log replays to its row throughout a run exactly when no mark_running reaches the job while it
      waits. */
  lemma LogReplaysIff(h: Hypotheses, cfg: Config, clock: Time, steps: seq<Step>, id: Id)
    requires Legal(h, cfg, Initial(clock), steps)
    ensures Always(h, cfg, Initial(clock), steps, s => LogIsRow(s, id)) <==>
            EachStep(h, cfg, Initial(clock), steps, (s, step) => !Lifts(s, step, id))
  {
    var p := (s: System) => LogIsRow(s, id);
    var q := (s: System, step: Step) => !Lifts(s, step, id);
    InitialSafe(h, cfg, clock);
    forall s, step | Safe(h, cfg, s) && Enabled(cfg, s, step) && Allowed(h, s, step) && p(s)
      ensures p(Next(cfg, s, step)) <==> q(s, step)
    {
      LogStepIff(h, cfg, s, step, id);
    }
    AlwaysIff(h, cfg, Initial(clock), steps, p, q);
  }

  // ---- retries ----------------------------------------------------------------------------------

  ghost predicate BelowMaximum(s: System, id: Id) {
    id in s.store ==> s.store[id].job.attempt < s.store[id].job.maxAttempts
  }

  /** A scheduled retry leaves the row, not the snapshot it was decided on, an attempt to go. */
  ghost predicate RetryFits(cfg: Config, s: System, step: Step, id: Id) {
    SchedulesRetry(cfg, s, step, id) ==> s.store[id].job.attempt + 1 < s.store[id].job.maxAttempts
  }

  lemma RetryRow(e: Entry, op: Op)
    ensures Apply(e, op).job.maxAttempts == e.job.maxAttempts
    ensures Apply(e, op).job.attempt ==
            e.job.attempt + (if op.OpRetryWait? && !IsTerminal(e.job.state) then 1 else 0)
  {
  }

  lemma RetryStepIff(cfg: Config, s: System, step: Step, id: Id)
    requires Enabled(cfg, s, step) && BelowMaximum(s, id)
    ensures BelowMaximum(Next(cfg, s, step), id) <==> RetryFits(cfg, s, step, id)
  {
    if id in s.store {
      StepEntry(cfg, s, step, id);
      hide Next, Enabled, Apply;
      var op := OpFor(EffectOf(cfg, s, step), id);
      if op.Some? { RetryRow(s.store[id], op.value); }
    } else if id in Next(cfg, s, step).store {
      StepNew(cfg, s, step, id);
    }
  }

  /** current_attempt stays below max_attempts throughout a run exactly when every retry that is scheduled,
      by whichever reconciler and whichever raising dispatch, leaves the row an attempt to go. */
  lemma RetriesBoundedIff(h: Hypotheses, cfg: Config, clock: Time, steps: seq<Step>, id: Id)
    requires Legal(h, cfg, Initial(clock), steps)
    ensures Always(h, cfg, Initial(clock), steps, s => BelowMaximum(s, id)) <==>
            EachStep(h, cfg, Initial(clock), steps, (s, step) => RetryFits(cfg, s, step, id))
  {
    var p := (s: System) => BelowMaximum(s, id);
    var q := (s: System, step: Step) => RetryFits(cfg, s, step, id);
    InitialSafe(h, cfg, clock);
    forall s, step | Safe(h, cfg, s) && Enabled(cfg, s, step) && Allowed(h, s, step) && p(s)
      ensures p(Next(cfg, s, step)) <==> q(s, step)
    {
      RetryStepIff(cfg, s, step, id);
    }
    AlwaysIff(h, cfg, Initial(clock), steps, p, q);
  }

  /** Every claim so far, and every claim available_at admits from here on, keeps the shortest backoff of
      every retry before it. */
  ghost predicate NeverEarly(s: System, id: Id) { id in s.store ==> OnTime(s.store[id], s.clock) }

  /** A scheduled retry waits at least the shortest backoff of the attempt the row is at. */
  ghost predicate DelayFits(cfg: Config, s: System, step: Step, id: Id) {
    SchedulesRetry(cfg, s, step, id) ==> Retry.ShortestDelay(s.store[id].job.attempt + 1) <= OpOn(cfg, s, step, id).value.delay
  }

  lemma RetryOnTimeIff(e: Entry, op: Op)
    requires op.OpRetryWait? && EntryInv(e) && OnTime(e, op.now) && !IsTerminal(e.job.state)
    ensures OnTime(Apply(e, op), op.now) <==> Retry.ShortestDelay(e.job.attempt + 1) <= op.delay
  {
    if Retry.ShortestDelay(e.job.attempt + 1) <= op.delay {
      ApplyOnTime(e, op, op.now);
    } else {
      var log := Apply(e, op).log;
      AppendFacts(e.log, EvRetry(op.code, op.detail, op.delay), op.now);
      assert log[..|e.log| + 1] == log;
      assert NotBefore(log, |e.log|) == op.now + Retry.ShortestDelay(e.job.attempt + 1);
    }
  }

  lemma ApplyOnTimeIff(e: Entry, op: Op, clock: Time)
    requires EntryInv(e) && OnTime(e, clock) && OpTime(op, clock) == clock
    requires op.OpClaim? ==> Available(e.job, clock)
    ensures OnTime(Apply(e, op), clock) <==>
            (op.OpRetryWait? && !IsTerminal(e.job.state) ==> Retry.ShortestDelay(e.job.attempt + 1) <= op.delay)
  {
    if op.OpRetryWait? && !IsTerminal(e.job.state) {
      RetryOnTimeIff(e, op);
    } else if !op.OpRetryWait? {
      ApplyOnTime(e, op, clock);
    } else {
      FinishedOnTime(e, op, clock);
    }
  }

  lemma FinishedOnTime(e: Entry, op: Op, clock: Time)
    requires IsTerminal(e.job.state) && OnTime(e, clock)
    ensures OnTime(Apply(e, op), clock)
  {
    TerminalStable(e, op);
  }

  lemma ClaimWhenAvailable(cfg: Config, s: System, step: Step, id: Id)
    requires Enabled(cfg, s, step) && id in s.store
    ensures var op := OpFor(EffectOf(cfg, s, step), id);
            op.Some? ==> OpTime(op.value, s.clock) == s.clock && (op.value.OpClaim? ==> Available(s.store[id].job, s.clock))
  {
    StepEffect(cfg, s, step);
    PickedEligible(cfg, s, step);
  }

  lemma ClockOrStore(cfg: Config, s: System, step: Step)
    requires Enabled(cfg, s, step)
    ensures Next(cfg, s, step).clock == s.clock || (s.clock <= Next(cfg, s, step).clock && EffectOf(cfg, s, step).Nothing?)
  {
  }

  lemma DelayEntryIff(h: Hypotheses, cfg: Config, s: System, step: Step, id: Id)
    requires LogsRight(h, s) && Enabled(cfg, s, step) && id in s.store && OnTime(s.store[id], s.clock)
    ensures id in Next(cfg, s, step).store
    ensures OnTime(Next(cfg, s, step).store[id], Next(cfg, s, step).clock) <==> DelayFits(cfg, s, step, id)
  {
    hide Next, Enabled, LogsRight, ApplyMaybe, EntryInv, OnTime, EffectOf, OpFor, DelayFits;
    LogEntry(h, s, id);
    DelayFitsMeans(cfg, s, step, id);
    ClockOrStore(cfg, s, step);
    StepEntry(cfg, s, step, id);
    ClaimWhenAvailable(cfg, s, step, id);
    QuietOnNobody(cfg, s, step, id);
    MaybeOnTimeIff(s.store[id], OpFor(EffectOf(cfg, s, step), id), s.clock, Next(cfg, s, step).clock);
  }

  lemma LogEntry(h: Hypotheses, s: System, id: Id)
    requires LogsRight(h, s) && id in s.store
    ensures EntryInv(s.store[id])
  {
  }

  lemma DelayFitsMeans(cfg: Config, s: System, step: Step, id: Id)
    requires Enabled(cfg, s, step) && id in s.store
    ensures var op := OpFor(EffectOf(cfg, s, step), id);
            DelayFits(cfg, s, step, id) <==>
            (op.Some? && op.value.OpRetryWait? && !IsTerminal(s.store[id].job.state) ==>
               Retry.ShortestDelay(s.store[id].job.attempt + 1) <= op.value.delay)
  {
    hide EffectOf, OpFor, Enabled;
  }

  lemma MaybeOnTimeIff(e: Entry, op: Option<Op>, clock: Time, later: Time)
    requires EntryInv(e) && OnTime(e, clock) && clock <= later
    requires op.Some? ==> later == clock && OpTime(op.value, clock) == clock
    requires op.Some? && op.value.OpClaim? ==> Available(e.job, clock)
    ensures OnTime(ApplyMaybe(e, op), later) <==>
            (op.Some? && op.value.OpRetryWait? && !IsTerminal(e.job.state) ==>
               Retry.ShortestDelay(e.job.attempt + 1) <= op.value.delay)
  {
    hide Apply, EntryInv, OnTime;
    if op.Some? { ApplyOnTimeIff(e, op.value, clock); } else { OnTimeLater(e, clock, later); }
  }

  lemma QuietOnNobody(cfg: Config, s: System, step: Step, id: Id)
    requires Enabled(cfg, s, step)
    ensures EffectOf(cfg, s, step).Nothing? ==> OpFor(EffectOf(cfg, s, step), id).None?
  {
  }

  lemma DelayStepIff(h: Hypotheses, cfg: Config, s: System, step: Step, id: Id)
    requires LogsRight(h, s) && Enabled(cfg, s, step) && NeverEarly(s, id)
    ensures NeverEarly(Next(cfg, s, step), id) <==> DelayFits(cfg, s, step, id)
  {
    hide OnTime, Next, Enabled, LogsRight, EffectOf, OpFor;
    if id in s.store {
      DelayEntryIff(h, cfg, s, step, id);
    } else if id in Next(cfg, s, step).store {
      ClockOrStore(cfg, s, step);
      StepNew(cfg, s, step, id);
      var j := AP.NewJob(s.admissions[step.r].request, step.queuedAt);
      CreatedOnTime(j, s.clock);
      OnTimeLater(Created(j, s.clock), s.clock, Next(cfg, s, step).clock);
    }
  }

  /** No retry can be claimed early at any moment of a run exactly when each is scheduled with at least the
      shortest backoff of the attempt its row is at. */
  lemma NeverEarlyIff(h: Hypotheses, cfg: Config, clock: Time, steps: seq<Step>, id: Id)
    requires Legal(h, cfg, Initial(clock), steps)
    ensures Always(h, cfg, Initial(clock), steps, s => NeverEarly(s, id)) <==>
            EachStep(h, cfg, Initial(clock), steps, (s, step) => DelayFits(cfg, s, step, id))
  {
    var p := (s: System) => NeverEarly(s, id);
    var q := (s: System, step: Step) => DelayFits(cfg, s, step, id);
    InitialSafe(h, cfg, clock);
    forall s, step | Safe(h, cfg, s) && Enabled(cfg, s, step) && Allowed(h, s, step) && p(s)
      ensures p(Next(cfg, s, step)) <==> q(s, step)
    {
      DelayStepIff(h, cfg, s, step, id);
    }
    AlwaysIff(h, cfg, Initial(clock), steps, p, q);
  }

  // ---- live jobs ----------------------------------------------------------------------------------

  ghost predicate LiveKept(s: System, b: Bucket, bound: nat) { |LiveIn(Rows(s.store), b)| <= bound }

  /** An INSERT into the bucket finds it below the bound, whatever its count read earlier. */
  ghost predicate InsertFits(s: System, step: Step, b: Bucket, bound: nat) {
    step.AdmitInsert? && step.r in s.admissions && !Refuses(s.store, s.admissions[step.r].request) &&
    FallsIn(s.admissions[step.r].request, b) ==>
      |LiveIn(Rows(s.store), b)| < bound
  }

  lemma InsertedLive(cfg: Config, s: System, step: Step, b: Bucket)
    requires step.AdmitInsert? && Enabled(cfg, s, step) && !Refuses(s.store, s.admissions[step.r].request)
    ensures LiveIn(Rows(Next(cfg, s, step).store), b) ==
            LiveIn(Rows(s.store), b) + (if FallsIn(s.admissions[step.r].request, b) then {step.id} else {})
    ensures step.id !in LiveIn(Rows(s.store), b)
  {
    StepEffect(cfg, s, step);
  }

  lemma LiveStepIff(h: Hypotheses, cfg: Config, s: System, step: Step, b: Bucket, bound: nat)
    requires LogsRight(h, s) && Enabled(cfg, s, step) && LiveKept(s, b, bound)
    ensures LiveKept(Next(cfg, s, step), b, bound) <==> InsertFits(s, step, b, bound)
  {
    hide Next, LogsRight, LiveIn, FallsIn;
    if step.AdmitInsert? && !Refuses(s.store, s.admissions[step.r].request) {
      InsertedLive(cfg, s, step, b);
    } else {
      StepGrows(h, cfg, s, step);
      var x := StepAdds(cfg, s, step);
      LiveGrowth(Rows(s.store), Rows(Next(cfg, s, step).store), x, b);
    }
  }

  /** The live jobs of a conversation or user stay within a bound throughout a run exactly when every INSERT
      finds them below it at that instant. */
  lemma LiveJobsIff(h: Hypotheses, cfg: Config, clock: Time, steps: seq<Step>, b: Bucket, bound: nat)
    requires Legal(h, cfg, Initial(clock), steps)
    ensures Always(h, cfg, Initial(clock), steps, s => LiveKept(s, b, bound)) <==>
            EachStep(h, cfg, Initial(clock), steps, (s, step) => InsertFits(s, step, b, bound))
  {
    var p := (s: System) => LiveKept(s, b, bound);
    var q := (s: System, step: Step) => InsertFits(s, step, b, bound);
    InitialSafe(h, cfg, clock);
    assert LiveIn(Rows(Initial(clock).store), b) == {};
    forall s, step | Safe(h, cfg, s) && Enabled(cfg, s, step) && Allowed(h, s, step) && p(s)
      ensures p(Next(cfg, s, step)) <==> q(s, step)
    {
      LiveStepIff(h, cfg, s, step, b, bound);
    }
    AlwaysIff(h, cfg, Initial(clock), steps, p, q);
  }

  // ---- the slots of a lane --------------------------------------------------------------------------

  ghost predicate LaneKept(s: System, lane: Backend, slots: nat) {
    |LaneActive(s.store, lane)| <= slots
  }

  /** A claim of the lane has a budget, or finds claimable candidates, for no more than the slots that are
      free at that instant; and a late mark_running finds a slot free. */
  ghost predicate SlotsFit(cfg: Config, s: System, step: Step, lane: Backend, slots: nat) {
    && (step.LaneClaim? && step.lane == lane ==>
          var free := slots - |LaneActive(s.store, lane)|;
          || Budget(s, step.k, lane) <= free
          || Claimable(Rows(s.store), Some(KindsForBackend(lane)), s.clock, cfg.maxActive) <= free)
    && (step.StartRunning? && Lifts(s, step, step.id) && s.store[step.id].job.kind in KindsForBackend(lane) ==>
          |LaneActive(s.store, lane)| < slots)
  }

  lemma LiftedLane(m: Table, id: Id, kinds: Option<set<string>>)
    requires id in m && IsBacklog(m[id].state)
    ensures |ActiveInKinds(m[id := RowAfter(m[id], OpRunning)], kinds)| ==
            |ActiveInKinds(m, kinds)| + (if InKinds(kinds, m[id].kind) then 1 else 0)
  {
    hide InKinds;
    var m' := m[id := RowAfter(m[id], OpRunning)];
    if InKinds(kinds, m[id].kind) {
      assert ActiveInKinds(m', kinds) == ActiveInKinds(m, kinds) + {id};
    } else {
      assert ActiveInKinds(m', kinds) == ActiveInKinds(m, kinds);
    }
  }

  lemma ClaimedLane(cfg: Config, s: System, step: Step)
    requires step.LaneClaim? && Enabled(cfg, s, step)
    ensures |LaneActive(Next(cfg, s, step).store, step.lane)| ==
            |LaneActive(s.store, step.lane)| +
            Min(Max(Budget(s, step.k, step.lane), 0),
                Claimable(Rows(s.store), Some(KindsForBackend(step.lane)), s.clock, cfg.maxActive))
  {
    OutcomeSize(Rows(s.store), Aging(s), Some(KindsForBackend(step.lane)), s.clock, Budget(s, step.k, step.lane),
                cfg.maxActive, step.picked);
    hide Claimable, ClaimOutcome, Picks, DispatchAll, OnPicked, Apply, KindsForBackend, Rows, Eligible, ActiveInKinds;
    PickedEligible(cfg, s, step);
    PickedWaits(s.store, step.lane, s.clock, step.picked);
    ClaimedRows(s.store, step.picked, EffectOf(cfg, s, step).claim);
    PickedRows(s.store, step.picked);
    FilledLane(Rows(s.store), step.lane, step.picked);
  }

  lemma PickedRows(s: Store, picked: seq<Id>)
    requires forall id :: id in picked ==> id in s && IsBacklog(s[id].job.state)
    ensures forall id :: id in picked ==> id in Rows(s) && IsBacklog(Rows(s)[id].state)
  {
  }

  lemma FilledLane(m: Table, lane: Backend, picked: seq<Id>)
    requires NoDup(picked)
    requires forall id :: id in picked ==> id in m && m[id].kind in KindsForBackend(lane) && IsBacklog(m[id].state)
    ensures |ActiveInKinds(DispatchAll(m, picked), Some(KindsForBackend(lane)))| ==
            |ActiveInKinds(m, Some(KindsForBackend(lane)))| + |picked|
  {
    hide KindsForBackend, DispatchAll;
    DispatchAllFrame(m, picked);
    NoDupCardinality(picked);
    var kinds := Some(KindsForBackend(lane));
    assert ActiveInKinds(DispatchAll(m, picked), kinds) == ActiveInKinds(m, kinds) + Elements(picked);
    assert ActiveInKinds(m, kinds) !! Elements(picked);
  }

  lemma SlotsStepIff(h: Hypotheses, cfg: Config, s: System, step: Step, lane: Backend, slots: nat)
    requires LogsRight(h, s) && Enabled(cfg, s, step) && LaneKept(s, lane, slots)
    ensures LaneKept(Next(cfg, s, step), lane, slots) <==> SlotsFit(cfg, s, step, lane, slots)
  {
    hide Next, LogsRight, LaneActive, KindsForBackend, ClaimOutcome, Apply;
    if step.LaneClaim? {
      if step.lane == lane { ClaimedLane(cfg, s, step); } else { LaneClaimStep(cfg, s, step, lane); }
    } else if step.StartRunning? && Lifts(s, step, step.id) {
      LiftedSlots(cfg, s, step, lane);
    } else {
      LaneQuietStep(h, cfg, s, step, lane);
    }
  }

  lemma LiftedSlots(cfg: Config, s: System, step: Step, lane: Backend)
    requires step.StartRunning? && Enabled(cfg, s, step) && Lifts(s, step, step.id)
    ensures |LaneActive(Next(cfg, s, step).store, lane)| ==
            |LaneActive(s.store, lane)| + (if s.store[step.id].job.kind in KindsForBackend(lane) then 1 else 0)
  {
    hide Next, KindsForBackend, ActiveInKinds;
    LiftedRows(cfg, s, step);
    LiftedLane(Rows(s.store), step.id, Some(KindsForBackend(lane)));
  }

  /** A lane stays within any number of slots throughout a run, with any number of schedulers, exactly when each claim
      of the lane has a budget, or claimable candidates, for no more slots than are free when it is made, and
      each late mark_running finds a slot. */
  lemma LaneCapIff(h: Hypotheses, cfg: Config, clock: Time, steps: seq<Step>, lane: Backend, slots: nat)
    requires Legal(h, cfg, Initial(clock), steps)
    ensures Always(h, cfg, Initial(clock), steps, s => LaneKept(s, lane, slots)) <==>
            EachStep(h, cfg, Initial(clock), steps, (s, step) => SlotsFit(cfg, s, step, lane, slots))
  {
    var p := (s: System) => LaneKept(s, lane, slots);
    var q := (s: System, step: Step) => SlotsFit(cfg, s, step, lane, slots);
    InitialSafe(h, cfg, clock);
    assert LaneActive(Initial(clock).store, lane) == {};
    forall s, step | Safe(h, cfg, s) && Enabled(cfg, s, step) && Allowed(h, s, step) && p(s)
      ensures p(Next(cfg, s, step)) <==> q(s, step)
    {
      SlotsStepIff(h, cfg, s, step, lane, slots);
    }
    AlwaysIff(h, cfg, Initial(clock), steps, p, q);
  }

  // ---- overlapping requests under one key ------------------------------------------------------------

  predicate SameKeyAs(a: AP.Request, b: AP.Request) { a.user == b.user && a.key == b.key && a.kind == b.kind }

  /** The INSERT of some request under this one's key. */
  predicate InsertsKey(s: System, step: Step, request: AP.Request) {
    step.AdmitInsert? && step.r in s.admissions && SameKeyAs(s.admissions[step.r].request, request)
  }

  lemma KeyStep(cfg: Config, s: System, step: Step, request: AP.Request)
    requires Enabled(cfg, s, step) && !Refuses(s.store, request)
    ensures Refuses(Next(cfg, s, step).store, request) <==> InsertsKey(s, step, request)
  {
    hide Next, Enabled;
    var s' := Next(cfg, s, step);
    if InsertsKey(s, step, request) {
      KeyInserted(cfg, s, step);
      TakenKeyRefuses(s'.store, step.id, request);
    } else if Refuses(s'.store, request) {
      var id :| id in AP.SameKey(Rows(s'.store), request.user, request.key, request.kind);
      if id in s.store {
        StepKeeps(cfg, s, step, id);
        TakenKeyRefuses(s.store, id, request);
      } else {
        StepNew(cfg, s, step, id);
      }
    }
  }

  lemma KeyInserted(cfg: Config, s: System, step: Step)
    requires step.AdmitInsert? && Enabled(cfg, s, step) && !Refuses(s.store, s.admissions[step.r].request)
    ensures step.id in Next(cfg, s, step).store
    ensures var j, request := Next(cfg, s, step).store[step.id].job, s.admissions[step.r].request;
            j.user == request.user && j.key == request.key && j.kind == request.kind
  {
    AdmittedIdentity(cfg, s, step);
  }

  /** A key once taken stays taken. */
  lemma RefusedForever(h: Hypotheses, cfg: Config, s: System, steps: seq<Step>, request: AP.Request)
    requires Legal(h, cfg, s, steps) && Refuses(s.store, request)
    ensures Refuses(Run(h, cfg, s, steps).store, request)
  {
    var id :| id in AP.SameKey(Rows(s.store), request.user, request.key, request.kind);
    FinishedForever(h, cfg, s, steps, id);
    hide Legal, Run;
    TakenKeyRefuses(Run(h, cfg, s, steps).store, id, request);
  }

  lemma {:induction false} KeyTakenIff(h: Hypotheses, cfg: Config, s: System, steps: seq<Step>, request: AP.Request)
    requires Legal(h, cfg, s, steps) && !Refuses(s.store, request)
    ensures !Refuses(Run(h, cfg, s, steps).store, request) <==>
            EachStep(h, cfg, s, steps, (s, step) => !InsertsKey(s, step, request))
    decreases |steps|
  {
    if steps != [] {
      hide Next, Enabled, Allowed, Refuses, InsertsKey;
      var s' := Next(cfg, s, steps[0]);
      KeyStep(cfg, s, steps[0], request);
      if Refuses(s'.store, request) {
        RefusedForever(h, cfg, s', steps[1..], request);
      } else {
        KeyTakenIff(h, cfg, s', steps[1..], request);
      }
    }
  }

  /** A request whose look-up found nothing gets its job at the INSERT exactly when no INSERT under its key,
      by whichever request, comes in between; otherwise its own adds nothing. */
  lemma InsertAddsIff(h: Hypotheses, cfg: Config, s: System, lookup: Step, between: seq<Step>, insert: Step)
    requires lookup.AdmitLookup? && lookup.found.None? && Enabled(cfg, s, lookup)
    requires Legal(h, cfg, Next(cfg, s, lookup), between)
    requires var s' := Run(h, cfg, Next(cfg, s, lookup), between);
             && insert.AdmitInsert? && insert.r == lookup.r && Enabled(cfg, s', insert)
             && s'.admissions[insert.r].request == lookup.request
    ensures var s' := Run(h, cfg, Next(cfg, s, lookup), between);
            var free := EachStep(h, cfg, Next(cfg, s, lookup), between, (s, step) => !InsertsKey(s, step, lookup.request));
            && (insert.id in Next(cfg, s', insert).store <==> free)
            && (!free ==> Next(cfg, s', insert) == Dropped(s', insert.r))
  {
    hide Legal, Run, Allowed;
    KeyTakenIff(h, cfg, Next(cfg, s, lookup), between, lookup.request);
    var s' := Run(h, cfg, Next(cfg, s, lookup), between);
    if Refuses(s'.store, lookup.request) {
      RefusedInsert(cfg, s', insert);
    } else {
      KeyInserted(cfg, s', insert);
    }
  }
}
