// The backlog against its caps: what each count answers, and what the counts bound over whole runs.
module ProtocolBacklog {
  import opened Basics
  import opened Jobs
  import opened JobEntry
  import opened Protocol
  import opened ProtocolSafety
  import opened ProtocolTheorems
  import opened ProtocolConditions
  import opened ProtocolPosition
  import AP = AdmissionPolicy

  /** The rows that are queued or waiting to retry. */
  function Backlogged(s: Store): set<Id> {
    set id | id in s && (s[id].job.state == Queued || s[id].job.state == RetryWait)
  }

  /** The system-wide count turns a request away exactly when so many rows wait, and lets it on otherwise. */
  lemma GlobalCountIff(cfg: Config, s: System, r: Id)
    requires Enabled(cfg, s, AdmitGlobal(r))
    ensures var s' := Next(cfg, s, AdmitGlobal(r));
            && s'.store == s.store
            && (r !in s'.admissions <==> cfg.caps.globalCap > 0 && |Backlogged(s.store)| >= cfg.caps.globalCap)
            && (r in s'.admissions ==> s'.admissions[r] == s.admissions[r].(stage := GlobalCounted))
  {
    assert Lane(Rows(s.store), None) == Backlogged(s.store);
  }

  /** Of these the conversation's, or the user's when the request has none. */
  function OwnBacklogged(s: Store, q: AP.Request): set<Id> {
    set id | id in Backlogged(s) &&
      if q.conversation.Some? then s[id].job.conversation == q.conversation else s[id].job.user == q.user
  }

  lemma OwnFullIff(caps: AP.Caps, s: Store, q: AP.Request)
    ensures AP.OwnFull(caps, Rows(s), q).Some? <==> caps.maxQueued > 0 && |OwnBacklogged(s, q)| >= caps.maxQueued
  {
    if q.conversation.Some? {
      assert ConversationBacklog(Rows(s), q.conversation.value) == OwnBacklogged(s, q);
    } else {
      assert UserBacklog(Rows(s), q.user) == OwnBacklogged(s, q);
    }
  }

  /** The requester's own count, likewise. */
  lemma OwnCountIff(cfg: Config, s: System, r: Id)
    requires Enabled(cfg, s, AdmitOwn(r))
    ensures var s', q := Next(cfg, s, AdmitOwn(r)), s.admissions[r].request;
            && s'.store == s.store
            && (r !in s'.admissions <==> cfg.caps.maxQueued > 0 && |OwnBacklogged(s.store, q)| >= cfg.caps.maxQueued)
            && (r in s'.admissions ==> s'.admissions[r] == s.admissions[r].(stage := OwnCounted))
  {
    hide OwnBacklogged, AP.OwnFull;
    OwnFullIff(cfg.caps, s.store, s.admissions[r].request);
  }

  // ---- every job was counted --------------------------------------------------------------

  /** The request has passed the system-wide count. */
  predicate PastGlobal(s: System, r: Id) { r in s.admissions && !s.admissions[r].stage.LookedUp? }

  ghost predicate BelowCap(cfg: Config, s: System) {
    cfg.caps.globalCap > 0 ==> |Backlogged(s.store)| < cfg.caps.globalCap
  }

  /** At some moment of the run request r was counted with the backlog below the system-wide cap. */
  ghost predicate WasCounted(h: Hypotheses, cfg: Config, s: System, steps: seq<Step>, r: Id)
    requires Legal(h, cfg, s, steps)
    decreases |steps|
  {
    steps != [] &&
    ((steps[0] == AdmitGlobal(r) && BelowCap(cfg, s)) || WasCounted(h, cfg, Next(cfg, s, steps[0]), steps[1..], r))
  }

  lemma PassesGlobal(cfg: Config, s: System, step: Step, r: Id)
    requires Enabled(cfg, s, step) && !PastGlobal(s, r) && PastGlobal(Next(cfg, s, step), r)
    ensures step == AdmitGlobal(r) && BelowCap(cfg, s)
  {
    hide OnPicked, OnJob, OnMaybe, TasksFor, LaneActive, LaneSize, AP.GlobalFull, AP.OwnFull, Backlogged;
    if step.AdmitGlobal? { GlobalCountIff(cfg, s, step.r); }
  }

  lemma {:induction false} CountedOnTheWay(h: Hypotheses, cfg: Config, s: System, steps: seq<Step>, r: Id)
    requires Legal(h, cfg, s, steps) && !PastGlobal(s, r) && PastGlobal(Run(h, cfg, s, steps), r)
    ensures WasCounted(h, cfg, s, steps, r)
    decreases |steps|
  {
    if steps != [] {
      hide Next, Enabled, Allowed, PastGlobal, BelowCap;
      if PastGlobal(Next(cfg, s, steps[0]), r) {
        PassesGlobal(cfg, s, steps[0], r);
      } else {
        CountedOnTheWay(h, cfg, Next(cfg, s, steps[0]), steps[1..], r);
      }
    }
  }

  /** However admissions overlap, no job is inserted whose request was not counted, at some moment before, with
      fewer rows waiting than the system-wide cap. */
  lemma InsertedWasCounted(h: Hypotheses, cfg: Config, clock: Time, steps: seq<Step>, insert: Step)
    requires Legal(h, cfg, Initial(clock), steps)
    requires insert.AdmitInsert? && Enabled(cfg, Reached(h, cfg, clock, steps), insert)
    ensures WasCounted(h, cfg, Initial(clock), steps, insert.r)
  {
    CountedOnTheWay(h, cfg, Initial(clock), steps, insert.r);
  }

  // ---- a bound on the whole backlog ----------------------------------------------------------

  /** The step puts one more row into the backlog: an INSERT, or a retry of a live job that is not waiting. */
  ghost predicate AddsOne(cfg: Config, s: System, step: Step)
    requires Enabled(cfg, s, step)
  {
    match EffectOf(cfg, s, step)
    case Added(id, job) => true
    case One(id, op) =>
      id in s.store && op.OpRetryWait? && !IsBacklog(s.store[id].job.state) && !IsTerminal(s.store[id].job.state)
    case _ => false
  }

  ghost predicate BacklogFits(cfg: Config, s: System, step: Step, bound: nat) {
    Enabled(cfg, s, step) && AddsOne(cfg, s, step) ==> |Backlogged(s.store)| < bound
  }

  ghost predicate BacklogKept(s: System, bound: nat) { |Backlogged(s.store)| <= bound }

  lemma BackloggedUpdate(s: Store, id: Id, e: Entry)
    ensures IsBacklog(e.job.state) && id !in Backlogged(s) ==> |Backlogged(s[id := e])| == |Backlogged(s)| + 1
    ensures !IsBacklog(e.job.state) || id in Backlogged(s) ==> |Backlogged(s[id := e])| <= |Backlogged(s)|
  {
    var b, b' := Backlogged(s), Backlogged(s[id := e]);
    if IsBacklog(e.job.state) && id !in b {
      assert b' == b + {id};
    } else {
      assert b' <= b;
      SubsetCardinality(b', b);
    }
  }

  lemma ClaimShrinks(s: Store, picked: seq<Id>, op: Op)
    requires op.OpClaim?
    ensures |Backlogged(OnPicked(s, picked, op))| <= |Backlogged(s)|
  {
    assert Backlogged(OnPicked(s, picked, op)) <= Backlogged(s);
    SubsetCardinality(Backlogged(OnPicked(s, picked, op)), Backlogged(s));
  }

  lemma BacklogStepIff(cfg: Config, s: System, step: Step, bound: nat)
    requires Enabled(cfg, s, step) && BacklogKept(s, bound)
    ensures BacklogKept(Next(cfg, s, step), bound) <==> BacklogFits(cfg, s, step, bound)
  {
    hide Next, Enabled, EffectOf, Apply, OnPicked, Backlogged, Created;
    StepEffect(cfg, s, step);
    match EffectOf(cfg, s, step)
    case Nothing =>
    case One(id, op) =>
      WaitsAfter(s.store[id], op);
      InBacklog(s.store, id);
      BackloggedUpdate(s.store, id, Apply(s.store[id], op));
    case Added(id, job) =>
      CreatedWaits(job, s.clock);
      InBacklog(s.store, id);
      BackloggedUpdate(s.store, id, Created(job, s.clock));
    case Claimed(_, picked, op) => ClaimShrinks(s.store, picked, op);
  }

  lemma InBacklog(s: Store, id: Id)
    ensures id in Backlogged(s) <==> id in s && IsBacklog(s[id].job.state)
  {
  }

  lemma CreatedWaits(j: Job, now: Time)
    ensures j.state.Queued? ==> IsBacklog(Created(j, now).job.state)
  {
  }

  /** The backlog stays within a bound throughout a run exactly when every INSERT, and every retry of a job that
      was not waiting, finds it below the bound at that instant. */
  lemma BacklogIff(h: Hypotheses, cfg: Config, clock: Time, steps: seq<Step>, bound: nat)
    requires Legal(h, cfg, Initial(clock), steps)
    ensures Always(h, cfg, Initial(clock), steps, s => BacklogKept(s, bound)) <==>
            EachStep(h, cfg, Initial(clock), steps, (s, step) => BacklogFits(cfg, s, step, bound))
  {
    var p := (s: System) => BacklogKept(s, bound);
    var q := (s: System, step: Step) => BacklogFits(cfg, s, step, bound);
    InitialSafe(h, cfg, clock);
    assert Backlogged(Initial(clock).store) == {};
    forall s, step | Safe(h, cfg, s) && Enabled(cfg, s, step) && Allowed(h, s, step) && p(s)
      ensures p(Next(cfg, s, step)) <==> q(s, step)
    {
      BacklogStepIff(cfg, s, step, bound);
    }
    AlwaysIff(h, cfg, Initial(clock), steps, p, q);
  }
}
