// SchedulerService: reserve capacity per backend lane, claim, dispatch.
module Scheduler {
  import opened Basics
  import opened Jobs
  import opened JobEntry
  import opened Claim
  import opened ClaimOrder
  import opened Registry
  import opened PostgresQueue
  import opened Protocol
  import ProtocolSafety
  import Fairness
  import Retry

  /** How a submit to the backend ends: the result carries a prompt id, or the call raises. */
  datatype Submission = Returned(promptId: string) | Raised(exceptionType: string)

  /** What _dispatch does to the store. */
  function AfterDispatch(s: Store, id: Id, outcome: Submission, jitter: real, now: Time): Store {
    var started := OnJob(s, id, OpRunning);
    match outcome
    case Returned(promptId) => OnJob(started, id, OpSetPrompt(promptId))
    case Raised(exceptionType) =>
      if id in started
      then OnJob(started, id, RaisedOp(started[id], "dispatch_error:" + exceptionType, jitter, now))
      else started
  }

  /** Registered workers stop the ComfyUI lane only when none of them is online. */
  predicate LaneOpen(workersOnline: seq<bool>) { workersOnline == [] || true in workersOnline }

  /** The slots a lane has left. */
  function Reservable(cfg: Config, s: Store, lane: Backend, workersOnline: seq<bool>): int {
    if lane.Comfyui? && !LaneOpen(workersOnline) then 0
    else Max(0, Slots(cfg, lane) - |LaneActive(s, lane)|)
  }

  ghost predicate TickClaim(cfg: Config, s: Store, lane: Backend, budget: int, now: Time, picked: seq<Id>) {
    ClaimOutcome(Rows(s), AgedPriority(now, Fairness.AGING_INCREMENT_PER_MINUTE), Some(KindsForBackend(lane)),
                 now, budget, cfg.maxActive, picked)
  }

  lemma RowsJoined(q: PostgresJobQueue)
    requires q.Valid()
    ensures Rows(q.Contents()) == q.jobs
  {
  }

  class SchedulerService {
    const queue: PostgresJobQueue
    const settings: Config
    const ownerId: string
    const leaseSeconds: real
    var inflight: set<Id>    // jobs whose dispatch task has not finished

    constructor (queue: PostgresJobQueue, settings: Config, ownerId: string, leaseSeconds: real)
      ensures this.queue == queue && this.settings == settings && inflight == {}
      ensures this.ownerId == ownerId && this.leaseSeconds == leaseSeconds
    {
      this.queue, this.settings, this.ownerId, this.leaseSeconds, inflight := queue, settings, ownerId, leaseSeconds, {};
    }

    method ReserveCapacityByBackend(workersOnline: seq<bool>) returns (comfy: int, gemini: int)
      requires queue.Valid()
      ensures comfy == Reservable(settings, queue.Contents(), Comfyui, workersOnline)
      ensures gemini == Reservable(settings, queue.Contents(), Gemini, workersOnline)
    {
      var geminiCapacity := settings.geminiSlots;
      var comfySlots := settings.comfySlots + Max(0, settings.pendingBuffer);
      var comfyActive := queue.CountActive(Some(KindsForBackend(Comfyui)));
      var geminiActive := queue.CountActive(Some(KindsForBackend(Gemini)));
      RowsJoined(queue);
      gemini := Max(0, geminiCapacity - geminiActive);
      var online := true in workersOnline;
      if !online && workersOnline != [] {
        comfy := 0;
      } else {
        comfy := Max(0, comfySlots - comfyActive);
      }
    }

    method ClaimForBackend(lane: Backend, capacity: int, now: Time) returns (claimed: seq<Id>)
      requires queue.Valid()
      modifies queue
      ensures queue.Valid()
      ensures TickClaim(settings, old(queue.Contents()), lane, capacity, now, claimed)
      ensures queue.Contents() == OnPicked(old(queue.Contents()), claimed, OpClaim(ownerId, now + leaseSeconds, now))
    {
      hide Picks, IsTopBatch, OnPicked, PostgresJobQueue.Contents, Chain;
      RowsJoined(queue);
      if capacity <= 0 {
        NothingClaimed(queue.Contents(), queue.jobs, None, 0, OpClaim(ownerId, now + leaseSeconds, now));
        return [];
      }
      claimed := queue.ClaimNext(capacity, Some(KindsForBackend(lane)), ownerId, leaseSeconds, settings.maxActive, now);
    }

    /** One tick: the capacity is read once, each lane claims against its own. */
    method Tick(workersOnline: seq<bool>, now: Time, later: Time)
      returns (claimed: seq<Id>, ghost comfyJobs: seq<Id>, ghost geminiJobs: seq<Id>)
      requires queue.Valid()
      modifies queue, this`inflight
      ensures queue.Valid()
      ensures var before := old(queue.Contents());
              var between := OnPicked(before, comfyJobs, OpClaim(ownerId, now + leaseSeconds, now));
              && TickClaim(settings, before, Comfyui, Reservable(settings, before, Comfyui, workersOnline), now, comfyJobs)
              && TickClaim(settings, between, Gemini, Reservable(settings, before, Gemini, workersOnline), later, geminiJobs)
              && queue.Contents() == OnPicked(between, geminiJobs, OpClaim(ownerId, later + leaseSeconds, later))
      ensures claimed == comfyJobs + geminiJobs
      ensures inflight == old(inflight) + Elements(claimed)
    {
      hide *;
      var comfy, gemini := ReserveCapacityByBackend(workersOnline);
      var fromComfy := ClaimForBackend(Comfyui, comfy, now);
      var fromGemini := ClaimForBackend(Gemini, gemini, later);
      comfyJobs, geminiJobs := fromComfy, fromGemini;
      claimed := fromComfy + fromGemini;
      StartTasks(claimed);
    }

    method StartTasks(claimed: seq<Id>)
      modifies this`inflight
      ensures inflight == old(inflight) + Elements(claimed)
    {
      var i := 0;
      while i < |claimed|
        invariant 0 <= i <= |claimed|
        invariant inflight == old(inflight) + Elements(claimed[..i])
      {
        assert Elements(claimed[..i + 1]) == Elements(claimed[..i]) + {claimed[i]};
        inflight := inflight + {claimed[i]};
        i := i + 1;
      }
      assert claimed[..i] == claimed;
    }

    /** mark_running, submit, then either the prompt id or, whatever was raised, a retry. */
    method Dispatch(id: Id, outcome: Submission, jitter: real, now: Time)
      requires queue.Valid()
      modifies queue, this`inflight
      ensures queue.Valid()
      ensures queue.Contents() == AfterDispatch(old(queue.Contents()), id, outcome, jitter, now)
      ensures inflight == old(inflight) - {id}
    {
      queue.MarkRunning(id);
      ghost var started := queue.Contents();
      assert started == OnJob(old(queue.Contents()), id, OpRunning);
      hide Apply;
      match outcome {
        case Returned(promptId) =>
          queue.SetPromptId(id, promptId);
        case Raised(exceptionType) =>
          var detail := "dispatch_error:" + exceptionType;
          RowsJoined(queue);
          queue.MarkRetryWait(id, "worker_unreachable", Some(detail), None, jitter, now);
      }
      inflight := inflight - {id};
    }
  }

  // ---- the service refines the transition system ------------------------------------------------

  function TickSteps(k: Id, workersOnline: seq<bool>, comfyJobs: seq<Id>, geminiJobs: seq<Id>, owner: string,
                     lease: real, pause: real): seq<Step> {
    [Reserve(k, Comfyui, LaneOpen(workersOnline)), Reserve(k, Gemini, true), LaneClaim(k, Comfyui, comfyJobs, owner, lease),
     Wait(pause), LaneClaim(k, Gemini, geminiJobs, owner, lease)]
  }

  lemma ReserveRun(h: Hypotheses, cfg: Config, s: System, k: Id, workersOnline: seq<bool>)
    requires h.oneScheduler ==> k == 0
    ensures var steps := [Reserve(k, Comfyui, LaneOpen(workersOnline)), Reserve(k, Gemini, true)];
            && Legal(h, cfg, s, steps)
            && Run(h, cfg, s, steps) ==
                 WithBudget(WithBudget(s, k, Comfyui, Reservable(cfg, s.store, Comfyui, workersOnline)),
                            k, Gemini, Reservable(cfg, s.store, Gemini, workersOnline))
  {
    hide LaneActive, Slots, Legal, Run;
    hide TasksFor, OnPicked;
    var r1, r2 := Reserve(k, Comfyui, LaneOpen(workersOnline)), Reserve(k, Gemini, true);
    NoSteps(h, cfg, s);
    RunSnoc(h, cfg, s, [], r1);
    assert [] + [r1] == [r1];
    RunSnoc(h, cfg, s, [r1], r2);
    assert [r1] + [r2] == [r1, r2];
  }

  lemma ClaimedInStore(s: Store, lane: Backend, now: Time, cfg: Config, budget: int, picked: seq<Id>)
    requires TickClaim(cfg, s, lane, budget, now, picked)
    ensures forall id :: id in picked ==> id in s
  {
    OutcomeFacts(Rows(s), AgedPriority(now, Fairness.AGING_INCREMENT_PER_MINUTE), Some(KindsForBackend(lane)),
                 now, budget, cfg.maxActive, picked);
  }

  /** What Tick does to the queue is the run Reserve, Reserve, LaneClaim, Wait, LaneClaim of its scheduler, so
      every theorem about runs holds of it. */
  lemma TickIsARun(h: Hypotheses, cfg: Config, s: System, k: Id, workersOnline: seq<bool>, owner: string, lease: real,
                   later: Time, comfyJobs: seq<Id>, geminiJobs: seq<Id>, between: Store)
    requires s.clock <= later && (h.oneScheduler ==> k == 0)
    requires between == OnPicked(s.store, comfyJobs, OpClaim(owner, s.clock + lease, s.clock))
    requires TickClaim(cfg, s.store, Comfyui, Reservable(cfg, s.store, Comfyui, workersOnline), s.clock, comfyJobs)
    requires TickClaim(cfg, between, Gemini, Reservable(cfg, s.store, Gemini, workersOnline), later, geminiJobs)
    ensures var steps := TickSteps(k, workersOnline, comfyJobs, geminiJobs, owner, lease, later - s.clock);
            && Legal(h, cfg, s, steps)
            && Run(h, cfg, s, steps).store == OnPicked(between, geminiJobs, OpClaim(owner, later + lease, later))
  {
    hide Next, Enabled, Allowed, TickClaim, Legal, Run, OnPicked, Reservable;
    var steps := TickSteps(k, workersOnline, comfyJobs, geminiJobs, owner, lease, later - s.clock);
    ReserveRun(h, cfg, s, k, workersOnline);
    assert steps[..2] == [steps[0], steps[1]];
    var s2 := Run(h, cfg, s, steps[..2]);
    ClaimEnabled(h, cfg, s2, k, Comfyui, comfyJobs, owner, lease);
    AfterClaim(cfg, s2, k, Comfyui, comfyJobs, owner, lease);
    RunSnoc(h, cfg, s, steps[..2], steps[2]);
    assert steps[..2] + [steps[2]] == steps[..3];
    var s3 := Run(h, cfg, s, steps[..3]);
    WaitStep(h, cfg, s3, later);
    RunSnoc(h, cfg, s, steps[..3], steps[3]);
    assert steps[..3] + [steps[3]] == steps[..4];
    var s4 := Run(h, cfg, s, steps[..4]);
    ClaimEnabled(h, cfg, s4, k, Gemini, geminiJobs, owner, lease);
    AfterClaim(cfg, s4, k, Gemini, geminiJobs, owner, lease);
    RunSnoc(h, cfg, s, steps[..4], steps[4]);
    assert steps[..4] + [steps[4]] == steps;
  }

  lemma WaitStep(h: Hypotheses, cfg: Config, s: System, later: Time)
    requires s.clock <= later
    ensures Enabled(cfg, s, Wait(later - s.clock)) && Allowed(h, s, Wait(later - s.clock))
    ensures Next(cfg, s, Wait(later - s.clock)) == s.(clock := later)
  {
  }

  function OtherLane(lane: Backend): Backend { if lane.Comfyui? then Gemini else Comfyui }

  lemma AfterClaim(cfg: Config, s: System, k: Id, lane: Backend, picked: seq<Id>, owner: string, lease: real)
    requires Enabled(cfg, s, LaneClaim(k, lane, picked, owner, lease))
    ensures var s' := Next(cfg, s, LaneClaim(k, lane, picked, owner, lease));
            && s'.store == OnPicked(s.store, picked, OpClaim(owner, s.clock + lease, s.clock))
            && s'.clock == s.clock
            && Budget(s', k, OtherLane(lane)) == Budget(s, k, OtherLane(lane))
  {
    hide Enabled, ClaimOutcome, OnPicked, Rows, KindsForBackend, TasksFor;
  }

  lemma ClaimEnabled(h: Hypotheses, cfg: Config, s: System, k: Id, lane: Backend, picked: seq<Id>, owner: string, lease: real)
    requires TickClaim(cfg, s.store, lane, Budget(s, k, lane), s.clock, picked) && (h.oneScheduler ==> k == 0)
    ensures Enabled(cfg, s, LaneClaim(k, lane, picked, owner, lease))
    ensures Allowed(h, s, LaneClaim(k, lane, picked, owner, lease))
    ensures forall id :: id in picked ==> id in s.store
  {
    ClaimedInStore(s.store, lane, s.clock, cfg, Budget(s, k, lane), picked);
    hide ClaimOutcome, OnPicked, Rows, KindsForBackend, TasksFor;
  }

  function SecondStep(id: Id, no: nat, outcome: Submission, jitter: real): Step {
    match outcome
    case Returned(promptId) => SetPrompt(id, no, promptId)
    case Raised(exceptionType) => DispatchRaised(id, no, "dispatch_error:" + exceptionType, jitter)
  }

  /** A dispatch is the run StartRunning, Wait, SetPrompt of its task; or, when the submit raises, StartRunning,
      Wait, DispatchRaised. The submit may take any time. */
  lemma DispatchIsARun(h: Hypotheses, cfg: Config, s: System, id: Id, no: nat, outcome: Submission, jitter: real, later: Time)
    requires (id, no) in s.tasks && s.tasks[(id, no)].ToStart? && s.clock <= later && -1.0 <= jitter <= 1.0
    requires h.startsInTime ==> InTime(s, StartRunning(id, no))
    requires h.submitsReturn ==> outcome.Returned?
    ensures var steps := [StartRunning(id, no), Wait(later - s.clock), SecondStep(id, no, outcome, jitter)];
            && Legal(h, cfg, s, steps)
            && Run(h, cfg, s, steps).store == AfterDispatch(s.store, id, outcome, jitter, later)
            && (id, no) !in Run(h, cfg, s, steps).tasks
  {
    hide Legal, Run, Apply, RaisedOp;
    var first, wait, second := StartRunning(id, no), Wait(later - s.clock), SecondStep(id, no, outcome, jitter);
    NoSteps(h, cfg, s);
    RunSnoc(h, cfg, s, [], first);
    assert [] + [first] == [first];
    RunSnoc(h, cfg, s, [first], wait);
    assert [first] + [wait] == [first, wait];
    var s2 := Run(h, cfg, s, [first, wait]);
    assert s2.store == OnJob(s.store, id, OpRunning) && s2.clock == later;
    RunSnoc(h, cfg, s, [first, wait], second);
    assert [first, wait] + [second] == [first, wait, second];
  }

  /** A dispatch whose submit raises puts a live job back to wait for a retry, with the exception's name. */
  lemma RaisedDispatchWaits(s: Store, id: Id, exceptionType: string, jitter: real, now: Time)
    requires id in s && !IsTerminal(s[id].job.state)
    ensures var j, j' := s[id].job, AfterDispatch(s, id, Raised(exceptionType), jitter, now)[id].job;
            && j'.state == RetryWait && j'.attempt == j.attempt + 1 && j'.errorCode == Some("worker_unreachable")
            && j'.errorDetail == Some("dispatch_error:" + exceptionType)
    ensures forall x :: x in s && x != id ==> AfterDispatch(s, id, Raised(exceptionType), jitter, now)[x] == s[x]
  {
    hide Retry.BackoffSeconds;
  }

  // ---- what a tick and a dispatch achieve --------------------------------------------------------

  /** A reservation fills each lane up to its configured slots, and gives nothing where they are already used
      up; the ComfyUI lane gets nothing exactly when it is full or its registered workers are all offline. */
  lemma ReservationIsExact(cfg: Config, s: Store, workersOnline: seq<bool>)
    ensures var gemini, active := Reservable(cfg, s, Gemini, workersOnline), |LaneActive(s, Gemini)|;
            && gemini >= 0 && gemini + active == Max(active, cfg.geminiSlots)
    ensures var comfy, active := Reservable(cfg, s, Comfyui, workersOnline), |LaneActive(s, Comfyui)|;
            var slots := cfg.comfySlots + Max(0, cfg.pendingBuffer);
            && (comfy == 0 <==> active >= slots || (workersOnline != [] && true !in workersOnline))
            && (comfy != 0 ==> comfy + active == slots)
  {
  }

  /** So does a step that reserves. */
  lemma ReserveStepIsExact(cfg: Config, s: System, k: Id, online: bool)
    ensures var active := |LaneActive(s.store, Gemini)|;
            Budget(Next(cfg, s, Reserve(k, Gemini, online)), k, Gemini) + active == Max(active, cfg.geminiSlots)
    ensures var active := |LaneActive(s.store, Comfyui)|;
            Budget(Next(cfg, s, Reserve(k, Comfyui, online)), k, Comfyui) + active ==
            if online then Max(active, cfg.comfySlots + Max(0, cfg.pendingBuffer)) else active
  {
  }

  lemma ClaimWithinSlots(cfg: Config, s: Store, lane: Backend, budget: int, now: Time, picked: seq<Id>, op: Op, other: Backend)
    requires TickClaim(cfg, s, lane, budget, now, picked) && op.OpClaim?
    ensures var after := OnPicked(s, picked, op);
            && |LaneActive(after, other)| <= |LaneActive(s, other)| + (if other == lane then Max(0, budget) else 0)
            && (cfg.maxActive > 0 && WithinCap(Rows(s), cfg.maxActive) ==> WithinCap(Rows(after), cfg.maxActive))
  {
    hide ClaimOutcome, KindsForBackend, Rows, Eligible, ActiveInKinds, WithinCap, OnPicked, DispatchAll;
    OutcomeFacts(Rows(s), AgedPriority(now, Fairness.AGING_INCREMENT_PER_MINUTE), Some(KindsForBackend(lane)),
                 now, budget, cfg.maxActive, picked);
    PickedWaits(s, lane, now, picked);
    ProtocolSafety.ClaimedRows(s, picked, op);
    ProtocolSafety.LaneAfterClaim(Rows(s), lane, other, picked);
  }

  /** A tick never takes a lane past its configured slots, nor a user past the cap. */
  lemma TickWithinSlots(cfg: Config, s: Store, workersOnline: seq<bool>, owner: string, lease: real,
                        now: Time, later: Time, comfyJobs: seq<Id>, geminiJobs: seq<Id>, between: Store, lane: Backend)
    requires between == OnPicked(s, comfyJobs, OpClaim(owner, now + lease, now))
    requires TickClaim(cfg, s, Comfyui, Reservable(cfg, s, Comfyui, workersOnline), now, comfyJobs)
    requires TickClaim(cfg, between, Gemini, Reservable(cfg, s, Gemini, workersOnline), later, geminiJobs)
    ensures var after := OnPicked(between, geminiJobs, OpClaim(owner, later + lease, later));
            && |LaneActive(after, lane)| <=
                 Max(|LaneActive(s, lane)|, if lane.Gemini? then cfg.geminiSlots else cfg.comfySlots + Max(0, cfg.pendingBuffer))
            && (cfg.maxActive > 0 && WithinCap(Rows(s), cfg.maxActive) ==> WithinCap(Rows(after), cfg.maxActive))
  {
    hide TickClaim, OnPicked, LaneActive, Rows, WithinCap;
    ClaimWithinSlots(cfg, s, Comfyui, Reservable(cfg, s, Comfyui, workersOnline), now, comfyJobs,
                     OpClaim(owner, now + lease, now), lane);
    ClaimWithinSlots(cfg, between, Gemini, Reservable(cfg, s, Gemini, workersOnline), later, geminiJobs,
                     OpClaim(owner, later + lease, later), lane);
  }

  /** A claimed job whose submit returns is running under the attempt that claimed it, and shows
      exactly that submit's prompt id. */
  lemma DispatchShowsPrompt(e: Entry, owner: string, expiresAt: Time, now: Time, promptId: string)
    requires EntryInv(e) && IsBacklog(e.job.state)
    ensures var e' := Apply(Apply(Apply(e, OpClaim(owner, expiresAt, now)), OpRunning), OpSetPrompt(promptId));
            && e'.job.state.Running?
            && e'.attempts != map[] && LatestNo(e'.attempts) == e.job.attempt + 1
            && ShownPrompt(e') == Some(promptId)
            && (forall no :: no in e.attempts ==> no in e'.attempts && e'.attempts[no] == e.attempts[no])
  {
    ClaimIsFresh(e, owner, expiresAt, now);
    var e1 := Apply(Apply(e, OpClaim(owner, expiresAt, now)), OpRunning);
    var e' := Apply(e1, OpSetPrompt(promptId));
    assert e.job.attempt + 1 in e1.attempts;
    assert e'.attempts.Keys == e1.attempts.Keys;
    SameGreatest(e1.attempts, e'.attempts);
  }
}
