// The job lifecycle as a transition system: API requests, any number of schedulers, dispatches
// and reconcilers, each acting on what it read earlier, interleaved over one durable store. Every
// step is one transaction: an admission takes five of them, a dispatch two; the advisory lock
// makes a capped claim one.
module Protocol {
  import opened Basics
  import opened Jobs
  import opened JobEntry
  import opened Claim
  import opened ClaimOrder
  import opened Registry
  import AP = AdmissionPolicy
  import RP = ReconcilePolicy
  import Fairness
  import Retry

  datatype Config = Config(
    maxActive: int, caps: AP.Caps, comfySlots: int, pendingBuffer: int, geminiSlots: int,
    owners: map<Id, Id>)   // conversation -> owning user

  /** How far a request that has found no earlier job under its key has got. */
  datatype Stage = LookedUp | GlobalCounted | OwnCounted | Positioned(position: nat, at: Time)

  datatype Admission = Admission(request: AP.Request, stage: Stage)

  /** The rows a reconciler read and has not processed yet. */
  datatype Pass = Pass(at: Time, rows: map<Id, RP.Seen>)

  /** What a scheduler may still claim this tick, per lane. */
  datatype Lanes = Lanes(comfy: int, gemini: int)

  /** A dispatch task, created by the claim of that attempt. */
  datatype Task = ToStart | Submitting

  /** Requests, reconcilers and schedulers go by numbers; a dispatch by its job and attempt. */
  datatype System = System(
    clock: Time,
    store: Store,
    admissions: map<Id, Admission>,
    passes: map<Id, Pass>,
    budgets: map<Id, Lanes>,
    tasks: map<(Id, nat), Task>)

  datatype Step =
    | AdmitLookup(r: Id, request: AP.Request, found: Option<Id>)
    | AdmitGlobal(r: Id)
    | AdmitOwn(r: Id)
    | AdmitPosition(r: Id)
    | AdmitInsert(r: Id, id: Id, queuedAt: Time)
    | Abandon(r: Id)
    | Reserve(k: Id, lane: Backend, online: bool)
    | LaneClaim(k: Id, lane: Backend, picked: seq<Id>, owner: string, lease: real)
    | StartRunning(id: Id, no: nat)
    | SetPrompt(id: Id, no: nat, promptId: string)
    | DispatchRaised(id: Id, no: nat, detail: string, jitter: real)
    | BeginPass(k: Id)
    | ReconcileNext(k: Id, id: Id, status: RP.Status, jitter: real)
    | CancelJob(id: Id)
    | Wait(seconds: real)

  /** What a run may assume about its actors. */
  datatype Hypotheses = Hypotheses(
    startsInTime: bool,        // mark_running never reaches a job that is back in the backlog
    oneScheduler: bool,        // scheduler 0 is the only one
    oneReconciler: bool,       // reconciler 0 is the only one
    submitsReturn: bool,       // submit() reports failures in its result instead of raising
    serialAdmissions: bool)    // between a request's own count and its INSERT no other request for the
                               // same conversation (or user without one) is counted

  function Slots(cfg: Config, lane: Backend): int {
    match lane
    case Comfyui => cfg.comfySlots + Max(0, cfg.pendingBuffer)
    case Gemini => cfg.geminiSlots
  }

  function LanesOf(s: System, k: Id): Lanes { if k in s.budgets then s.budgets[k] else Lanes(0, 0) }

  function Budget(s: System, k: Id, lane: Backend): int {
    match lane case Comfyui => LanesOf(s, k).comfy case Gemini => LanesOf(s, k).gemini
  }

  function WithBudget(s: System, k: Id, lane: Backend, b: int): System {
    var lanes := LanesOf(s, k);
    s.(budgets := s.budgets[k := if lane.Comfyui? then lanes.(comfy := b) else lanes.(gemini := b)])
  }

  function PassRows(s: System, k: Id): map<Id, RP.Seen> {
    if k in s.passes then s.passes[k].rows else map[]
  }

  function LaneActive(s: Store, lane: Backend): set<Id> {
    ActiveInKinds(Rows(s), Some(KindsForBackend(lane)))
  }

  // ---- admissions -----------------------------------------------------------------

  /** The backlog a request is counted against: its conversation's, or its user's when it has none. */
  datatype Bucket = OfConversation(c: Id) | OfUser(u: Id)

  function BucketOf(r: AP.Request): Bucket {
    if r.conversation.Some? then OfConversation(r.conversation.value) else OfUser(r.user)
  }

  predicate Counted(a: Admission) { a.stage.OwnCounted? || a.stage.Positioned? }

  /** Requests that have passed this bucket's count and not inserted yet. */
  function CountedFor(s: System, b: Bucket): set<Id> {
    set r | r in s.admissions && Counted(s.admissions[r]) && BucketOf(s.admissions[r].request) == b
  }

  /** The workflow is registered, and the conversation the requester's own. */
  predicate WellFormed(cfg: Config, r: AP.Request) {
    && BackendForKind(r.kind).Some?
    && (r.conversation.Some? ==>
          r.conversation.value in cfg.owners && cfg.owners[r.conversation.value] == r.user)
  }

  function LaneSize(s: Store, kind: string): nat
    requires BackendForKind(kind).Some?
  {
    |Lane(Rows(s), Some(KindsForBackend(BackendForKind(kind).value)))|
  }

  function AtStage(s: System, r: Id, stage: Stage): System
    requires r in s.admissions
  {
    s.(admissions := s.admissions[r := s.admissions[r].(stage := stage)])
  }

  function Dropped(s: System, r: Id): System { s.(admissions := s.admissions - {r}) }

  /** The unique constraint on (user, key, kind) makes the INSERT fail and roll back. */
  predicate Refuses(s: Store, r: AP.Request) { AP.SameKey(Rows(s), r.user, r.key, r.kind) != {} }

  // ---- effects --------------------------------------------------------------------

  function OnVerdict(s: Store, id: Id, v: AP.Verdict, now: Time): Store {
    if v.Admit? then s[id := Created(v.job, now)] else s
  }

  function OnMaybe(s: Store, id: Id, op: Option<Op>): Store {
    if op.Some? then OnJob(s, id, op.value) else s
  }

  function Aging(s: System): Order { AgedPriority(s.clock, Fairness.AGING_INCREMENT_PER_MINUTE) }

  function TasksFor(s: Store, tasks: map<(Id, nat), Task>, picked: seq<Id>): map<(Id, nat), Task>
    requires forall id :: id in picked ==> id in s
  {
    tasks + map id | id in picked :: (id, s[id].job.attempt + 1) := ToStart
  }

  /** What the code of each actor demands or produces by itself. */
  ghost predicate Enabled(cfg: Config, s: System, step: Step) {
    match step
    case AdmitLookup(r, request, found) =>
      r !in s.admissions && AP.IsLookup(Rows(s.store), request, found) && WellFormed(cfg, request)
    case AdmitGlobal(r) => r in s.admissions && s.admissions[r].stage.LookedUp?
    case AdmitOwn(r) => r in s.admissions && s.admissions[r].stage.GlobalCounted?
    case AdmitPosition(r) =>
      r in s.admissions && s.admissions[r].stage.OwnCounted? && BackendForKind(s.admissions[r].request.kind).Some?
    case AdmitInsert(r, id, queuedAt) =>
      r in s.admissions && s.admissions[r].stage.Positioned? && id !in s.store &&
      s.admissions[r].stage.at <= queuedAt <= s.clock
    case Abandon(r) => r in s.admissions
    case LaneClaim(k, lane, picked, owner, lease) =>
      && (forall id :: id in picked ==> id in s.store)
      && ClaimOutcome(Rows(s.store), Aging(s), Some(KindsForBackend(lane)), s.clock, Budget(s, k, lane), cfg.maxActive, picked)
    case StartRunning(id, no) => (id, no) in s.tasks && s.tasks[(id, no)].ToStart?
    case SetPrompt(id, no, promptId) => (id, no) in s.tasks && s.tasks[(id, no)].Submitting?
    case DispatchRaised(id, no, detail, jitter) => (id, no) in s.tasks && -1.0 <= jitter <= 1.0
    case ReconcileNext(k, id, status, jitter) => id in PassRows(s, k) && -1.0 <= jitter <= 1.0
    case Wait(seconds) => seconds >= 0.0
    case _ => true
  }

  /** The step is no mark_running of a job that is waiting. */
  predicate InTime(s: System, step: Step) {
    step.StartRunning? && step.id in s.store ==> !IsBacklog(s.store[step.id].job.state)
  }

  ghost predicate Allowed(h: Hypotheses, s: System, step: Step) {
    && (h.startsInTime ==> InTime(s, step))
    && (h.oneScheduler && (step.Reserve? || step.LaneClaim?) ==> step.k == 0)
    && (h.oneReconciler && (step.BeginPass? || step.ReconcileNext?) ==> step.k == 0)
    && (h.submitsReturn ==> !step.DispatchRaised?)
    && (h.serialAdmissions && step.AdmitOwn? && step.r in s.admissions ==>
          CountedFor(s, BucketOf(s.admissions[step.r].request)) == {})
  }

  function RaisedOp(e: Entry, detail: string, jitter: real, now: Time): Op {
    OpRetryWait("worker_unreachable", Some(detail), Retry.BackoffSeconds(e.job.attempt + 1, jitter), now)
  }

  /** The transaction of a reconciliation, decided on the row the pass read. */
  function Resolution(s: System, k: Id, id: Id, status: RP.Status, jitter: real): Option<Op>
    requires id in PassRows(s, k)
  {
    RP.Reconcile(s.passes[k].rows[id], status, s.passes[k].at, jitter, s.clock)
  }

  ghost function Next(cfg: Config, s: System, step: Step): System
    requires Enabled(cfg, s, step)
  {
    match step
    case AdmitLookup(r, request, found) =>
      if found.None? then s.(admissions := s.admissions[r := Admission(request, LookedUp)]) else s
    case AdmitGlobal(r) => if AP.GlobalFull(cfg.caps, Rows(s.store)) then Dropped(s, r) else AtStage(s, r, GlobalCounted)
    case AdmitOwn(r) =>
      if AP.OwnFull(cfg.caps, Rows(s.store), s.admissions[r].request).Some? then Dropped(s, r) else AtStage(s, r, OwnCounted)
    case AdmitPosition(r) =>
      AtStage(s, r, Positioned(LaneSize(s.store, s.admissions[r].request.kind), s.clock))
    case AdmitInsert(r, id, queuedAt) =>
      var request := s.admissions[r].request;
      Dropped(if Refuses(s.store, request) then s
              else s.(store := s.store[id := Created(AP.NewJob(request, queuedAt), s.clock)]), r)
    case Abandon(r) => Dropped(s, r)
    case Reserve(k, lane, online) =>
      WithBudget(s, k, lane,
                 if lane.Comfyui? && !online then 0 else Max(0, Slots(cfg, lane) - |LaneActive(s.store, lane)|))
    case LaneClaim(k, lane, picked, owner, lease) =>
      WithBudget(s.(store := OnPicked(s.store, picked, OpClaim(owner, s.clock + lease, s.clock)),
                    tasks := TasksFor(s.store, s.tasks, picked)), k, lane, 0)
    case StartRunning(id, no) =>
      s.(store := OnJob(s.store, id, OpRunning), tasks := s.tasks[(id, no) := Submitting])
    case SetPrompt(id, no, promptId) =>
      s.(store := OnJob(s.store, id, OpSetPrompt(promptId)), tasks := s.tasks - {(id, no)})
    case DispatchRaised(id, no, detail, jitter) =>
      s.(store := if id in s.store then OnJob(s.store, id, RaisedOp(s.store[id], detail, jitter, s.clock)) else s.store,
         tasks := s.tasks - {(id, no)})
    case BeginPass(k) =>
      s.(passes := s.passes[k := Pass(s.clock,
           map id | id in s.store && IsActive(s.store[id].job.state) :: RP.SeenOf(s.store[id]))])
    case ReconcileNext(k, id, status, jitter) =>
      s.(store := OnMaybe(s.store, id, Resolution(s, k, id, status, jitter)),
         passes := s.passes[k := s.passes[k].(rows := s.passes[k].rows - {id})])
    case CancelJob(id) => s.(store := OnJob(s.store, id, OpCancel(s.clock)))
    case Wait(seconds) => s.(clock := s.clock + seconds)
  }

  function Initial(clock: Time): System { System(clock, map[], map[], map[], map[], map[]) }

  ghost predicate Legal(h: Hypotheses, cfg: Config, s: System, steps: seq<Step>)
    decreases |steps|
  {
    steps == [] ||
    (Enabled(cfg, s, steps[0]) && Allowed(h, s, steps[0]) && Legal(h, cfg, Next(cfg, s, steps[0]), steps[1..]))
  }

  ghost function Run(h: Hypotheses, cfg: Config, s: System, steps: seq<Step>): System
    requires Legal(h, cfg, s, steps)
    decreases |steps|
  {
    if steps == [] then s else Run(h, cfg, Next(cfg, s, steps[0]), steps[1..])
  }

  lemma NoSteps(h: Hypotheses, cfg: Config, s: System)
    ensures Legal(h, cfg, s, []) && Run(h, cfg, s, []) == s
  {
  }

  lemma {:induction false} RunAppend(h: Hypotheses, cfg: Config, s: System, steps: seq<Step>, more: seq<Step>)
    requires Legal(h, cfg, s, steps) && Legal(h, cfg, Run(h, cfg, s, steps), more)
    ensures Legal(h, cfg, s, steps + more)
    ensures Run(h, cfg, s, steps + more) == Run(h, cfg, Run(h, cfg, s, steps), more)
    decreases |steps|
  {
    hide Enabled, Next, Allowed;
    if steps == [] {
      assert steps + more == more;
    } else {
      assert (steps + more)[1..] == steps[1..] + more;
      RunAppend(h, cfg, Next(cfg, s, steps[0]), steps[1..], more);
    }
  }

  lemma RunSnoc(h: Hypotheses, cfg: Config, s: System, steps: seq<Step>, last: Step)
    requires Legal(h, cfg, s, steps)
    requires Enabled(cfg, Run(h, cfg, s, steps), last) && Allowed(h, Run(h, cfg, s, steps), last)
    ensures Legal(h, cfg, s, steps + [last])
    ensures Run(h, cfg, s, steps + [last]) == Next(cfg, Run(h, cfg, s, steps), last)
  {
    hide Enabled, Next, Allowed;
    assert [last][1..] == [];
    NoSteps(h, cfg, Next(cfg, Run(h, cfg, s, steps), last));
    RunAppend(h, cfg, s, steps, [last]);
  }

  // ---- every step is one of four things for the store ----------------------------------

  datatype Effect =
    | Nothing
    | One(id: Id, op: Op)
    | Claimed(kinds: Option<set<string>>, picked: seq<Id>, claim: Op)
    | Added(id: Id, job: Job)

  ghost function EffectOf(cfg: Config, s: System, step: Step): Effect
    requires Enabled(cfg, s, step)
  {
    match step
    case AdmitInsert(r, id, queuedAt) =>
      var request := s.admissions[r].request;
      if Refuses(s.store, request) then Nothing else Added(id, AP.NewJob(request, queuedAt))
    case LaneClaim(k, lane, picked, owner, lease) =>
      Claimed(Some(KindsForBackend(lane)), picked, OpClaim(owner, s.clock + lease, s.clock))
    case StartRunning(id, no) => if id in s.store then One(id, OpRunning) else Nothing
    case SetPrompt(id, no, promptId) => if id in s.store then One(id, OpSetPrompt(promptId)) else Nothing
    case DispatchRaised(id, no, detail, jitter) =>
      if id in s.store then One(id, RaisedOp(s.store[id], detail, jitter, s.clock)) else Nothing
    case ReconcileNext(k, id, status, jitter) =>
      var op := Resolution(s, k, id, status, jitter);
      if op.Some? && id in s.store then One(id, op.value) else Nothing
    case CancelJob(id) => if id in s.store then One(id, OpCancel(s.clock)) else Nothing
    case _ => Nothing
  }

  ghost function After(s: Store, f: Effect, now: Time): Store {
    match f
    case Nothing => s
    case One(id, op) => OnJob(s, id, op)
    case Claimed(_, picked, op) => OnPicked(s, picked, op)
    case Added(id, job) => s[id := Created(job, now)]
  }

  /** What a step does to the entry of a job that was there before it. */
  ghost function OpFor(f: Effect, id: Id): Option<Op> {
    match f
    case One(x, op) => if x == id then Some(op) else None
    case Claimed(_, picked, op) => if id in picked then Some(op) else None
    case _ => None
  }

  lemma StepEffect(cfg: Config, s: System, step: Step)
    requires Enabled(cfg, s, step)
    ensures var f := EffectOf(cfg, s, step);
            && Next(cfg, s, step).store == After(s.store, f, s.clock)
            && (f.One? ==> f.id in s.store && !f.op.OpClaim? && OpTime(f.op, s.clock) == s.clock)
            && (f.One? && f.op.OpRunning? ==> step.StartRunning? && step.id == f.id)
            && (f.One? && f.op.OpSetPrompt? ==> step.SetPrompt? && step.id == f.id)
            && (f.Claimed? ==> step.LaneClaim? && f.claim.OpClaim? && f.claim.now == s.clock)
            && (f.Added? ==> f.id !in s.store && step.AdmitInsert? && step.id == f.id &&
                             f.job == AP.NewJob(s.admissions[step.r].request, step.queuedAt) &&
                             !Refuses(s.store, s.admissions[step.r].request) && step.queuedAt <= s.clock)
            && s.clock <= Next(cfg, s, step).clock
  {
    hide RP.Reconcile, ClaimOutcome, OnPicked, TasksFor, LaneActive, LaneSize, AP.GlobalFull, AP.OwnFull;
    if step.ReconcileNext? {
      RP.RetryWithinBounds(s.passes[step.k].rows[step.id], step.status, s.passes[step.k].at, step.jitter, s.clock);
    }
  }

  /** Jobs are never deleted; a step acts on an existing job by at most one transaction. */
  lemma StepEntry(cfg: Config, s: System, step: Step, id: Id)
    requires Enabled(cfg, s, step) && id in s.store
    ensures var op := OpFor(EffectOf(cfg, s, step), id);
            && id in Next(cfg, s, step).store
            && Next(cfg, s, step).store[id] == ApplyMaybe(s.store[id], op)
  {
    StepEffect(cfg, s, step);
  }

  lemma StepNew(cfg: Config, s: System, step: Step, id: Id)
    requires Enabled(cfg, s, step) && id !in s.store && id in Next(cfg, s, step).store
    ensures step.AdmitInsert? && step.id == id && step.r in s.admissions
    ensures !Refuses(s.store, s.admissions[step.r].request)
    ensures Next(cfg, s, step).store ==
            s.store[id := Created(AP.NewJob(s.admissions[step.r].request, step.queuedAt), s.clock)]
    ensures step.queuedAt <= s.clock
  {
    StepEffect(cfg, s, step);
  }

  lemma PickedWaits(s: Store, lane: Backend, now: Time, picked: seq<Id>)
    requires forall id :: id in picked ==> id in Eligible(Rows(s), Some(KindsForBackend(lane)), now)
    ensures forall id :: id in picked ==>
              id in s && IsBacklog(s[id].job.state) && id in Rows(s) && Rows(s)[id].kind in KindsForBackend(lane)
  {
  }

  lemma PickedEligible(cfg: Config, s: System, step: Step)
    requires Enabled(cfg, s, step)
    ensures var f := EffectOf(cfg, s, step);
            f.Claimed? ==>
              && NoDup(f.picked)
              && (forall id :: id in f.picked ==> id in Eligible(Rows(s.store), f.kinds, s.clock))
              && (cfg.maxActive > 0 && WithinCap(Rows(s.store), cfg.maxActive) ==>
                    WithinCap(DispatchAll(Rows(s.store), f.picked), cfg.maxActive))
              && |f.picked| <= Max(Budget(s, step.k, step.lane), 0)
  {
    if step.LaneClaim? {
      OutcomeFacts(Rows(s.store), Aging(s), Some(KindsForBackend(step.lane)), s.clock,
                   Budget(s, step.k, step.lane), cfg.maxActive, step.picked);
    }
  }
}
