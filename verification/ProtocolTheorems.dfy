// The promises of the job lifecycle, for every run that starts from an empty store.
module ProtocolTheorems {
  import opened Basics
  import opened Jobs
  import opened JobEntry
  import opened Claim
  import opened ClaimOrder
  import opened Registry
  import opened StateMachine
  import opened Protocol
  import opened ProtocolSafety
  import opened ProtocolBounds
  import AP = AdmissionPolicy
  import RP = ReconcilePolicy
  import Fairness
  import Retry

  ghost function Reached(h: Hypotheses, cfg: Config, clock: Time, steps: seq<Step>): System
    requires Legal(h, cfg, Initial(clock), steps)
  {
    Run(h, cfg, Initial(clock), steps)
  }

  lemma ReachedSafe(h: Hypotheses, cfg: Config, clock: Time, steps: seq<Step>)
    requires Legal(h, cfg, Initial(clock), steps)
    ensures Safe(h, cfg, Reached(h, cfg, clock, steps))
  {
    InitialSafe(h, cfg, clock);
    SafeRun(h, cfg, Initial(clock), steps);
  }

  // ---- the event log ----------------------------------------------------------------------

  /** Whatever the actors do, however late: sequence numbers are 1..n, retry events count the
      attempts, dispatched numbers strictly increase and name the attempt rows, a terminal event
      is there exactly when the row is terminal, only once and last, and the log replays to every
      column but the phase of a live job. */
  lemma LogOfEveryRun(h: Hypotheses, cfg: Config, clock: Time, steps: seq<Step>, id: Id)
    requires Legal(h, cfg, Initial(clock), steps)
    requires id in Reached(h, cfg, clock, steps).store
    ensures var e := Reached(h, cfg, clock, steps).store[id];
            && (forall i :: 0 <= i < |e.log| ==> e.log[i].sequenceNo == i + 1)
            && Retries(e.log) == e.job.attempt
            && (forall i, j :: 0 <= i < j < |e.log| && e.log[i].body.EvDispatched? && e.log[j].body.EvDispatched? ==>
                  e.log[i].body.attemptNo < e.log[j].body.attemptNo)
            && (IsTerminal(e.job.state) <==> exists i :: 0 <= i < |e.log| && IsEnd(e.log[i].body))
            && (forall i :: 0 <= i < |e.log| && IsEnd(e.log[i].body) ==> i == |e.log| - 1)
            && Replay(e.log).attempt == e.job.attempt
            && Replay(e.log).attemptNos == e.attempts.Keys
            && Replay(e.log).errorCode == e.job.errorCode && Replay(e.log).errorDetail == e.job.errorDetail
            && (IsTerminal(e.job.state) ==> Replay(e.log).phase == PhaseOf(e.job.state))
  {
    ReachedSafe(h, cfg, clock, steps);
    var e := Reached(h, cfg, clock, steps).store[id];
    assert EntryInv(e) && ReplaysUpToPhase(e);
    if IsTerminal(e.job.state) { assert IsEnd(e.log[|e.log| - 1].body); }
  }

  /** When no mark_running reaches a job that is back in the backlog, the log is the row. */
  lemma LogReplaysToRow(h: Hypotheses, cfg: Config, clock: Time, steps: seq<Step>, id: Id)
    requires h.startsInTime && Legal(h, cfg, Initial(clock), steps)
    requires id in Reached(h, cfg, clock, steps).store
    ensures Replay(Reached(h, cfg, clock, steps).store[id].log) == ViewOf(Reached(h, cfg, clock, steps).store[id])
  {
    ReachedSafe(h, cfg, clock, steps);
  }

  /** Every claimable job gets a brand-new attempt row, showing no prompt id, whatever happened before. */
  lemma EveryClaimIsFresh(h: Hypotheses, cfg: Config, clock: Time, steps: seq<Step>, id: Id,
                          owner: string, expiresAt: Time)
    requires Legal(h, cfg, Initial(clock), steps)
    requires id in Reached(h, cfg, clock, steps).store
    requires IsBacklog(Reached(h, cfg, clock, steps).store[id].job.state)
    ensures var e := Reached(h, cfg, clock, steps).store[id];
            && (forall no :: no in e.attempts ==> no <= e.job.attempt)
            && e.job.attempt + 1 !in e.attempts
            && ShownPrompt(Apply(e, OpClaim(owner, expiresAt, clock))) == None
  {
    ReachedSafe(h, cfg, clock, steps);
    ClaimIsFresh(Reached(h, cfg, clock, steps).store[id], owner, expiresAt, clock);
  }

  /** From a claim on, and whatever else happens meanwhile, no prompt id shows until a dispatch of that
      very job sets one. */
  lemma {:induction false} NoPromptUntilSet(h: Hypotheses, cfg: Config, s: System, steps: seq<Step>, id: Id)
    requires Safe(h, cfg, s) && Legal(h, cfg, s, steps) && id in s.store && ShownPrompt(s.store[id]) == None
    requires forall i :: 0 <= i < |steps| && steps[i].SetPrompt? ==> steps[i].id != id
    ensures id in Run(h, cfg, s, steps).store && ShownPrompt(Run(h, cfg, s, steps).store[id]) == None
    decreases |steps|
  {
    if steps != [] {
      hide Next, Enabled, Allowed, Safe, ShownPrompt;
      SafeStep(h, cfg, s, steps[0]);
      NoPromptStep(h, cfg, s, steps[0], id);
      NoPromptUntilSet(h, cfg, Next(cfg, s, steps[0]), steps[1..], id);
    }
  }

  lemma PromptOp(cfg: Config, s: System, step: Step, id: Id)
    requires Enabled(cfg, s, step) && id in s.store
    ensures var op := OpFor(EffectOf(cfg, s, step), id);
            op.Some? && op.value.OpSetPrompt? ==> step.SetPrompt? && step.id == id
  {
    hide Next, Enabled, EffectOf;
    StepEffect(cfg, s, step);
  }

  lemma NoPromptStep(h: Hypotheses, cfg: Config, s: System, step: Step, id: Id)
    requires Safe(h, cfg, s) && Enabled(cfg, s, step) && id in s.store && ShownPrompt(s.store[id]) == None
    requires step.SetPrompt? ==> step.id != id
    ensures id in Next(cfg, s, step).store && ShownPrompt(Next(cfg, s, step).store[id]) == None
  {
    hide Next, Enabled, Safe, LogsRight, ClaimsRight, Apply, EntryInv, ShownPrompt, EffectOf, OpFor;
    SafeEntry(h, cfg, s, id);
    StepEntry(cfg, s, step, id);
    PromptOp(cfg, s, step, id);
    var op := OpFor(EffectOf(cfg, s, step), id);
    if op.Some? { PromptOnlyFromSet(s.store[id], op.value); }
  }

  /** Error columns: a succeeded job shows none, a failed or waiting-to-retry one shows one. */
  lemma ErrorsMatchState(h: Hypotheses, cfg: Config, clock: Time, steps: seq<Step>, id: Id)
    requires Legal(h, cfg, Initial(clock), steps)
    requires id in Reached(h, cfg, clock, steps).store
    ensures ErrorsRight(Reached(h, cfg, clock, steps).store[id].job)
  {
    ReachedSafe(h, cfg, clock, steps);
  }

  // ---- caps ---------------------------------------------------------------------------------

  /** No user ever has more than max_active_jobs_per_user jobs dispatched or running, across both
      lanes and any number of schedulers. */
  lemma ActiveCapHolds(h: Hypotheses, cfg: Config, clock: Time, steps: seq<Step>, u: Id)
    requires h.startsInTime && cfg.maxActive > 0 && Legal(h, cfg, Initial(clock), steps)
    ensures ActiveCount(Rows(Reached(h, cfg, clock, steps).store), u) <= cfg.maxActive
  {
    ReachedSafe(h, cfg, clock, steps);
  }

  /** With one scheduler each lane stays within its configured slots: the Gemini slots, and the ComfyUI slots
      with the buffer that may be pending there. */
  lemma LaneCapHolds(h: Hypotheses, cfg: Config, clock: Time, steps: seq<Step>)
    requires h.startsInTime && h.oneScheduler && Legal(h, cfg, Initial(clock), steps)
    ensures |LaneActive(Reached(h, cfg, clock, steps).store, Gemini)| <= Max(0, cfg.geminiSlots)
    ensures |LaneActive(Reached(h, cfg, clock, steps).store, Comfyui)| <=
            Max(0, cfg.comfySlots + Max(0, cfg.pendingBuffer))
  {
    ReachedSafe(h, cfg, clock, steps);
    assert LanesBounded(cfg, Reached(h, cfg, clock, steps));
    assert Slots(cfg, Gemini) == cfg.geminiSlots;
  }

  /** The most admissions of a bucket that are ever between their count and their INSERT at once. */
  ghost function Peak(h: Hypotheses, cfg: Config, s: System, steps: seq<Step>, b: Bucket): nat
    requires Legal(h, cfg, s, steps)
    decreases |steps|
  {
    if steps == [] then |CountedFor(s, b)|
    else Max(|CountedFor(s, b)|, Peak(h, cfg, Next(cfg, s, steps[0]), steps[1..], b))
  }

  lemma {:induction false} ConservedRun(h: Hypotheses, cfg: Config, s: System, steps: seq<Step>, b: Bucket, width: nat)
    requires Safe(h, cfg, s) && h.startsInTime && Legal(h, cfg, s, steps)
    requires cfg.maxActive > 0 && cfg.caps.maxQueued > 0
    requires Conserved(cfg, s, b, width) && Peak(h, cfg, s, steps, b) <= width
    ensures Conserved(cfg, Run(h, cfg, s, steps), b, width)
    decreases |steps|
  {
    if steps != [] {
      hide Next, Enabled, Allowed, Conserved, CountedFor;
      SafeStep(h, cfg, s, steps[0]);
      ConservedStep(h, cfg, s, steps[0], b, width);
      ConservedRun(h, cfg, Next(cfg, s, steps[0]), steps[1..], b, width);
    }
  }

  /** Retries re-enter the backlog unchecked, and the caps are read in one transaction and the job inserted
      in a later one; yet the live jobs of a conversation, and of a user without conversations, exceed the
      two caps together by no more than the other admissions that were under way at once. */
  lemma LiveJobsBound(h: Hypotheses, cfg: Config, clock: Time, steps: seq<Step>, b: Bucket)
    requires h.startsInTime && cfg.maxActive > 0 && cfg.caps.maxQueued > 0
    requires Legal(h, cfg, Initial(clock), steps)
    requires Concerns(Rows(Reached(h, cfg, clock, steps).store), b)
    ensures |LiveIn(Rows(Reached(h, cfg, clock, steps).store), b)| <=
            cfg.caps.maxQueued + cfg.maxActive + Max(0, Peak(h, cfg, Initial(clock), steps, b) - 1)
  {
    var s := Initial(clock);
    InitialSafe(h, cfg, clock);
    assert LiveIn(Rows(s.store), b) == {} && CountedFor(s, b) == {};
    ConservedRun(h, cfg, s, steps, b, Max(1, Peak(h, cfg, s, steps, b)));
  }

  lemma {:induction false} SerialPeak(h: Hypotheses, cfg: Config, s: System, steps: seq<Step>, b: Bucket)
    requires h.serialAdmissions && Legal(h, cfg, s, steps) && |CountedFor(s, b)| <= 1
    ensures Peak(h, cfg, s, steps, b) <= 1
    decreases |steps|
  {
    if steps != [] {
      SerialStep(h, cfg, s, steps[0], b);
      hide Next, Enabled, Allowed, CountedFor;
      SerialPeak(h, cfg, Next(cfg, s, steps[0]), steps[1..], b);
    }
  }

  lemma SerialStep(h: Hypotheses, cfg: Config, s: System, step: Step, b: Bucket)
    requires h.serialAdmissions && Enabled(cfg, s, step) && Allowed(h, s, step) && |CountedFor(s, b)| <= 1
    ensures |CountedFor(Next(cfg, s, step), b)| <= 1
  {
    CountedStep(cfg, s, step, b);
    var before, after := CountedFor(s, b), CountedFor(Next(cfg, s, step), b);
    if after <= before {
      SubsetCardinality(after, before);
    } else {
      assert before == {};
      CountedByOwn(cfg, s, step, b);
      SubsetCardinality(after, {step.r});
    }
  }

  lemma CountedByOwn(cfg: Config, s: System, step: Step, b: Bucket)
    requires Enabled(cfg, s, step) && step.AdmitOwn? && CountedFor(s, b) == {}
    ensures CountedFor(Next(cfg, s, step), b) <= {step.r}
  {
    assert CountedFor(Next(cfg, s, step), b) - {step.r} <= CountedFor(s, b);
  }

  /** So with admissions of a bucket one at a time, never more than the two caps together. */
  lemma LiveJobsConserved(h: Hypotheses, cfg: Config, clock: Time, steps: seq<Step>, c: Id, u: Id)
    requires h.startsInTime && h.serialAdmissions && cfg.maxActive > 0 && cfg.caps.maxQueued > 0
    requires Legal(h, cfg, Initial(clock), steps)
    ensures var m := Rows(Reached(h, cfg, clock, steps).store);
            && |LiveInConversation(m, c)| <= cfg.caps.maxQueued + cfg.maxActive
            && (Solo(m, u) ==> |LiveOfUser(m, u)| <= cfg.caps.maxQueued + cfg.maxActive)
  {
    hide Legal, LiveInConversation, LiveOfUser, Solo, Peak;
    forall b: Bucket ensures CountedFor(Initial(clock), b) == {} {}
    SerialPeak(h, cfg, Initial(clock), steps, OfConversation(c));
    LiveJobsBound(h, cfg, clock, steps, OfConversation(c));
    SerialPeak(h, cfg, Initial(clock), steps, OfUser(u));
    if Solo(Rows(Reached(h, cfg, clock, steps).store), u) { LiveJobsBound(h, cfg, clock, steps, OfUser(u)); }
  }

  // ---- bounded retries --------------------------------------------------------------------------

  lemma InitialInOrder(h: Hypotheses, clock: Time)
    ensures InOrder(h, Initial(clock))
  {
  }

  /** One reconciler, submits that return: current_attempt stays below max_attempts, the job is
      claimed at most max_attempts times, and changes state at most 3 * max_attempts times. */
  lemma RetriesAreBounded(h: Hypotheses, cfg: Config, clock: Time, steps: seq<Step>, id: Id)
    requires h.oneReconciler && h.submitsReturn && Legal(h, cfg, Initial(clock), steps)
    requires id in Reached(h, cfg, clock, steps).store
    ensures var e := Reached(h, cfg, clock, steps).store[id];
            && e.job.attempt < e.job.maxAttempts
            && Claims(e.log) <= e.job.maxAttempts
            && StateChanges(h, cfg, Initial(clock), steps, id) <= 3 * AP.DEFAULT_MAX_ATTEMPTS
  {
    hide Next, Enabled, Legal, Run, StateChanges, StateChange, Numbered, EndsRight, FreshAttempts, Replay;
    InitialInOrder(h, clock);
    ChangesArePaid(h, cfg, Initial(clock), steps, id);
    assert InOrder(h, Reached(h, cfg, clock, steps));
  }

  /** The n-th retry is never claimed again sooner than 0.8 * min(2^n, 120) seconds after it was
      scheduled, n counting the retries up to it. */
  lemma NoEarlyReclaim(h: Hypotheses, cfg: Config, clock: Time, steps: seq<Step>, id: Id, i: nat, j: nat)
    requires h.oneReconciler && h.submitsReturn && Legal(h, cfg, Initial(clock), steps)
    requires id in Reached(h, cfg, clock, steps).store
    requires var log := Reached(h, cfg, clock, steps).store[id].log;
             i < j < |log| && log[i].body.EvRetry? && log[j].body.EvDispatched?
    ensures var log := Reached(h, cfg, clock, steps).store[id].log;
            log[i].at + Retry.ShortestDelay(Retries(log[..i + 1])) <= log[j].at
  {
    InitialInOrder(h, clock);
    ChangesArePaid(h, cfg, Initial(clock), steps, id);
    var e := Reached(h, cfg, clock, steps).store[id];
    assert OnTime(e, Reached(h, cfg, clock, steps).clock);
    assert NotBefore(e.log, i) <= e.log[j].at;
  }

  // ---- stability ------------------------------------------------------------------------------

  /** From any state on, whoever acts: a job is never lost, what admission fixed never changes,
      and a finished job's row and log never change again. */
  lemma {:induction false} FinishedForever(h: Hypotheses, cfg: Config, s: System, steps: seq<Step>, id: Id)
    requires Legal(h, cfg, s, steps) && id in s.store
    ensures id in Run(h, cfg, s, steps).store
    ensures IdentityOf(Run(h, cfg, s, steps).store[id].job) == IdentityOf(s.store[id].job)
    ensures IsTerminal(s.store[id].job.state) ==>
              && Run(h, cfg, s, steps).store[id].job == s.store[id].job
              && Run(h, cfg, s, steps).store[id].log == s.store[id].log
    decreases |steps|
  {
    if steps != [] {
      StepKeeps(cfg, s, steps[0], id);
      FinishedForever(h, cfg, Next(cfg, s, steps[0]), steps[1..], id);
    }
  }

  /** What a finished job's newest attempt stored, if it has one. */
  function StoredResult(e: Entry): Option<Payload> {
    if Current(e).Some? then Current(e).value.result else None
  }

  /** The result a job ended with stays what it is through every run, also when it ended without ever
      having been claimed. */
  lemma {:induction false} ResultForever(h: Hypotheses, cfg: Config, s: System, steps: seq<Step>, id: Id)
    requires Legal(h, cfg, s, steps) && id in s.store && IsTerminal(s.store[id].job.state)
    ensures id in Run(h, cfg, s, steps).store
    ensures var e' := Run(h, cfg, s, steps).store[id];
            StoredResult(e') == StoredResult(s.store[id]) && (Current(e').Some? <==> Current(s.store[id]).Some?)
    decreases |steps|
  {
    if steps != [] {
      hide Next, Enabled, Allowed, Apply;
      StepEntry(cfg, s, steps[0], id);
      var op := OpFor(EffectOf(cfg, s, steps[0]), id);
      if op.Some? { TerminalStable(s.store[id], op.value); }
      ResultForever(h, cfg, Next(cfg, s, steps[0]), steps[1..], id);
    }
  }

  /** Every change of state a reachable job makes: a queued job is only claimed or cancelled; a waiting job
      is started or finished only by a late actor, which a mark_running in time, and one reconciler with
      submits that return, rule out. */
  lemma ChangesOfEveryRun(h: Hypotheses, cfg: Config, clock: Time, steps: seq<Step>, step: Step, id: Id)
    requires Legal(h, cfg, Initial(clock), steps)
    requires var s := Reached(h, cfg, clock, steps);
             Enabled(cfg, s, step) && Allowed(h, s, step) && id in s.store
    ensures var s := Reached(h, cfg, clock, steps);
            id in Next(cfg, s, step).store &&
            var a, b := s.store[id].job.state, Next(cfg, s, step).store[id].job.state;
            && (a != b ==> TimelyChange(a, b) || LateChange(a, b))
            && (h.startsInTime && a != b && b.Running? ==> a.Dispatched?)
            && (h.startsInTime && h.oneReconciler && h.submitsReturn && a != b ==> TimelyChange(a, b))
  {
    ReachedSafe(h, cfg, clock, steps);
    var s := Reached(h, cfg, clock, steps);
    if h.oneReconciler && h.submitsReturn {
      InitialInOrder(h, clock);
      ChangesArePaid(h, cfg, Initial(clock), steps, id);
    }
    ChangeInStep(h, cfg, s, step, id);
  }

  lemma ChangeInStep(h: Hypotheses, cfg: Config, s: System, step: Step, id: Id)
    requires Safe(h, cfg, s) && Enabled(cfg, s, step) && Allowed(h, s, step) && id in s.store
    requires h.oneReconciler && h.submitsReturn ==> PassCurrent(s)
    ensures id in Next(cfg, s, step).store
    ensures var a, b := s.store[id].job.state, Next(cfg, s, step).store[id].job.state;
            && (a != b ==> TimelyChange(a, b) || LateChange(a, b))
            && (h.startsInTime && a != b && b.Running? ==> a.Dispatched?)
            && (h.startsInTime && h.oneReconciler && h.submitsReturn && a != b ==> TimelyChange(a, b))
  {
    hide Next, Enabled, Allowed, EffectOf, Safe, PassCurrent, ClaimedFirst, LogsRight, ClaimsRight, Apply, AboutAClaimedJob,
         TimelyChange, LateChange, OpFor;
    SafeEntry(h, cfg, s, id);
    StepEntry(cfg, s, step, id);
    ClaimedOp(cfg, s, step, id);
    var op := OpFor(EffectOf(cfg, s, step), id);
    if op.Some? {
      if h.startsInTime {
        assert InTime(s, step) by { TimelyStart(h, s, step); }
        StartIsInTime(cfg, s, step, id);
      }
      LateOp(h, cfg, s, step, id);
      EveryChange(s.store[id], op.value);
      RunsOnlyByStart(s.store[id], op.value);
    }
  }

  lemma SafeEntry(h: Hypotheses, cfg: Config, s: System, id: Id)
    requires Safe(h, cfg, s) && id in s.store
    ensures LogsRight(h, s) && ClaimsRight(s) && EntryInv(s.store[id])
    ensures ClaimedFirst(s.store[id]) && !s.store[id].job.state.Admitted? && !s.store[id].job.state.Cancelling?
  {
    assert EntryInv(s.store[id]);
  }

  lemma TimelyStart(h: Hypotheses, s: System, step: Step)
    requires h.startsInTime && Allowed(h, s, step)
    ensures InTime(s, step)
  {
  }

  lemma RunsOnlyByStart(e: Entry, op: Op)
    ensures Apply(e, op).job.state.Running? && !e.job.state.Running? ==> op.OpRunning?
    ensures op.OpSetPrompt? ==> Apply(e, op).job.state == e.job.state
  {
  }

  /** Under the three hypotheses no transaction but a claim or a cancel reaches a waiting job and changes it. */
  lemma LateOp(h: Hypotheses, cfg: Config, s: System, step: Step, id: Id)
    requires Enabled(cfg, s, step) && Allowed(h, s, step) && id in s.store
    requires h.startsInTime && h.oneReconciler && h.submitsReturn ==> PassCurrent(s)
    ensures var op := OpFor(EffectOf(cfg, s, step), id);
            h.startsInTime && h.oneReconciler && h.submitsReturn && op.Some? && AboutAClaimedJob(op.value) ==>
              op.value.OpSetPrompt? || !IsBacklog(s.store[id].job.state)
  {
    StepEffect(cfg, s, step);
    if step.ReconcileNext? && h.oneReconciler { assert step.id in PassRows(s, 0); }
  }

  // ---- idempotent admission over runs ---------------------------------------------------------

  lemma AnsweredAgain(h: Hypotheses, cfg: Config, s: System, id: Id, again: Step)
    requires Safe(h, cfg, s) && id in s.store && again.AdmitLookup? && Enabled(cfg, s, again)
    requires var j := s.store[id].job;
             j.user == again.request.user && j.key == again.request.key &&
             j.kind == again.request.kind && j.payload == again.request.payload
    ensures AP.Existing(Rows(s.store), again.request, again.found) == Some(AP.Replay(id))
    ensures Next(cfg, s, again) == s
  {
    hide LogsRight, ClaimsRight;
    var m := Rows(s.store);
    assert id in AP.SameKey(m, again.request.user, again.request.key, again.request.kind);
    assert again.found.Some? && again.found.value == id;
  }

  lemma AdmittedIdentity(cfg: Config, s: System, step: Step)
    requires step.AdmitInsert? && Enabled(cfg, s, step) && !Refuses(s.store, s.admissions[step.r].request)
    ensures step.id in Next(cfg, s, step).store
    ensures IdentityOf(Next(cfg, s, step).store[step.id].job) ==
            IdentityOf(AP.NewJob(s.admissions[step.r].request, step.queuedAt))
  {
    StepEffect(cfg, s, step);
  }

  /** Once a request has been inserted as a job, its key is taken at every later point of the run. */
  lemma KeyStaysTaken(h: Hypotheses, cfg: Config, s: System, first: Step, later: seq<Step>)
    requires Safe(h, cfg, s) && first.AdmitInsert? && Enabled(cfg, s, first) && Allowed(h, s, first)
    requires !Refuses(s.store, s.admissions[first.r].request)
    requires Legal(h, cfg, Next(cfg, s, first), later)
    ensures var s' := Run(h, cfg, Next(cfg, s, first), later);
            && Safe(h, cfg, s') && first.id in s'.store
            && IdentityOf(s'.store[first.id].job) == IdentityOf(AP.NewJob(s.admissions[first.r].request, first.queuedAt))
  {
    hide Next, Enabled, Allowed, Safe, Refuses;
    var s1 := Next(cfg, s, first);
    AdmittedIdentity(cfg, s, first);
    SafeStep(h, cfg, s, first);
    SafeRun(h, cfg, s1, later);
    FinishedForever(h, cfg, s1, later, first.id);
  }

  /** A request that was inserted as a job is, at any later point of the run and however full the queue is by
      then, answered with the same job again by the look-up alone, and nothing changes. */
  lemma ReadmissionReplays(h: Hypotheses, cfg: Config, s: System, first: Step, later: seq<Step>, again: Step)
    requires Safe(h, cfg, s) && first.AdmitInsert? && Enabled(cfg, s, first) && Allowed(h, s, first)
    requires !Refuses(s.store, s.admissions[first.r].request)
    requires Legal(h, cfg, Next(cfg, s, first), later)
    requires again.AdmitLookup? && again.request == s.admissions[first.r].request
    requires Enabled(cfg, Run(h, cfg, Next(cfg, s, first), later), again)
    ensures var s' := Run(h, cfg, Next(cfg, s, first), later);
            && AP.Existing(Rows(s'.store), again.request, again.found) == Some(AP.Replay(first.id))
            && Next(cfg, s', again) == s'
  {
    KeyStaysTaken(h, cfg, s, first, later);
    hide Next, Allowed, Safe, Refuses, Legal, Run;
    AnsweredAgain(h, cfg, Run(h, cfg, Next(cfg, s, first), later), first.id, again);
  }

  /** A request that was looked up before another with its key was inserted is not replayed: its own INSERT,
      at any later point, fails on the unique constraint and adds nothing. */
  lemma LateDuplicateIsRefused(h: Hypotheses, cfg: Config, s: System, first: Step, later: seq<Step>, second: Step)
    requires Safe(h, cfg, s) && first.AdmitInsert? && Enabled(cfg, s, first) && Allowed(h, s, first)
    requires !Refuses(s.store, s.admissions[first.r].request)
    requires Legal(h, cfg, Next(cfg, s, first), later)
    requires second.AdmitInsert? && Enabled(cfg, Run(h, cfg, Next(cfg, s, first), later), second)
    requires var p, q := s.admissions[first.r].request, Run(h, cfg, Next(cfg, s, first), later).admissions[second.r].request;
             p.user == q.user && p.key == q.key && p.kind == q.kind
    ensures var s' := Run(h, cfg, Next(cfg, s, first), later);
            Next(cfg, s', second).store == s'.store && second.r !in Next(cfg, s', second).admissions
  {
    KeyStaysTaken(h, cfg, s, first, later);
    hide Allowed, Safe, Legal, Run, Next, Refuses;
    var s' := Run(h, cfg, Next(cfg, s, first), later);
    TakenKeyRefuses(s'.store, first.id, s'.admissions[second.r].request);
    RefusedInsert(cfg, s', second);
  }

  lemma RefusedInsert(cfg: Config, s: System, insert: Step)
    requires insert.AdmitInsert? && Enabled(cfg, s, insert) && Refuses(s.store, s.admissions[insert.r].request)
    ensures Next(cfg, s, insert) == Dropped(s, insert.r)
  {
  }

  lemma TakenKeyRefuses(s: Store, id: Id, r: AP.Request)
    requires id in s && s[id].job.user == r.user && s[id].job.key == r.key && s[id].job.kind == r.kind
    ensures Refuses(s, r)
  {
    assert id in AP.SameKey(Rows(s), r.user, r.key, r.kind);
  }

  /** At most one job per (user, key, kind), ever, whatever admissions overlap: the unique constraint sees
      to it, not the look-up. */
  lemma OneJobPerKey(h: Hypotheses, cfg: Config, clock: Time, steps: seq<Step>, a: Id, b: Id)
    requires Legal(h, cfg, Initial(clock), steps)
    requires var s := Reached(h, cfg, clock, steps).store;
             && a in s && b in s && s[a].job.user == s[b].job.user
             && s[a].job.key == s[b].job.key && s[a].job.kind == s[b].job.kind
    ensures a == b
  {
    ReachedSafe(h, cfg, clock, steps);
    var m := Rows(Reached(h, cfg, clock, steps).store);
    assert AP.UniqueKeys(m) && a in m && b in m;
  }
}
