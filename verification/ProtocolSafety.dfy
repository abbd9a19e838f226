// Safety over every run: what each reachable state satisfies, under which hypotheses.
module ProtocolSafety {
  import opened Basics
  import opened Jobs
  import opened JobEntry
  import opened Claim
  import opened Registry
  import opened Protocol
  import AP = AdmissionPolicy
  import RP = ReconcilePolicy

  // ---- the log ------------------------------------------------------------------------

  ghost predicate LogsRight(h: Hypotheses, s: System) {
    forall id :: id in s.store ==>
      && EntryInv(s.store[id])
      && ReplaysUpToPhase(s.store[id])
      && (h.startsInTime ==> Replay(s.store[id].log) == ViewOf(s.store[id]))
  }

  lemma LogsStep(h: Hypotheses, cfg: Config, s: System, step: Step)
    requires LogsRight(h, s) && Enabled(cfg, s, step) && Allowed(h, s, step)
    ensures LogsRight(h, Next(cfg, s, step))
  {
    var s' := Next(cfg, s, step);
    forall id | id in s'.store
      ensures EntryInv(s'.store[id]) && ReplaysUpToPhase(s'.store[id])
      ensures h.startsInTime ==> Replay(s'.store[id].log) == ViewOf(s'.store[id])
    {
      if id in s.store {
        StepEntry(cfg, s, step, id);
        StepEffect(cfg, s, step);
        var op := OpFor(EffectOf(cfg, s, step), id);
        if op.Some? {
          ApplyInv(s.store[id], op.value);
          ReplayAlways(s.store[id], op.value);
          if h.startsInTime {
            StartIsInTime(cfg, s, step, id);
            ReplayIff(s.store[id], op.value);
          }
        }
      } else {
        StepNew(cfg, s, step, id);
        var j := AP.NewJob(s.admissions[step.r].request, step.queuedAt);
        CreatedInv(j, s.clock);
        CreatedReplays(j, s.clock);
      }
    }
  }

  lemma StartIsInTime(cfg: Config, s: System, step: Step, id: Id)
    requires Enabled(cfg, s, step) && InTime(s, step) && id in s.store
    ensures var op := OpFor(EffectOf(cfg, s, step), id);
            op.Some? && op.value.OpRunning? ==> !IsBacklog(s.store[id].job.state)
  {
    StepEffect(cfg, s, step);
  }

  // ---- claimed jobs --------------------------------------------------------------------------

  /** Dispatches and reconciliations are about jobs that have been claimed. */
  ghost predicate ClaimsRight(s: System) {
    && (forall id :: id in s.store ==> ClaimedFirst(s.store[id]))
    && (forall t :: t in s.tasks ==> t.0 in s.store && t.1 in s.store[t.0].attempts)
    && (forall k, id :: k in s.passes && id in s.passes[k].rows ==> id in s.store && s.store[id].attempts != map[])
  }

  lemma ClaimedOp(cfg: Config, s: System, step: Step, id: Id)
    requires ClaimsRight(s) && Enabled(cfg, s, step) && id in s.store
    ensures var op := OpFor(EffectOf(cfg, s, step), id);
            op.Some? && AboutAClaimedJob(op.value) ==> s.store[id].attempts != map[]
  {
    if step.StartRunning? || step.SetPrompt? || step.DispatchRaised? {
      assert (step.id, step.no) in s.tasks;
      assert step.no in s.store[step.id].attempts;
    }
  }

  lemma ClaimedEntry(cfg: Config, s: System, step: Step, id: Id)
    requires ClaimsRight(s) && Enabled(cfg, s, step) && id in s.store
    ensures id in Next(cfg, s, step).store && ClaimedFirst(Next(cfg, s, step).store[id])
    ensures s.store[id].attempts.Keys <= Next(cfg, s, step).store[id].attempts.Keys
  {
    StepEntry(cfg, s, step, id);
    ClaimedOp(cfg, s, step, id);
    var op := OpFor(EffectOf(cfg, s, step), id);
    if op.Some? { ClaimedFirstKept(s.store[id], op.value); }
  }

  lemma ClaimedTask(cfg: Config, s: System, step: Step, t: (Id, nat))
    requires ClaimsRight(s) && Enabled(cfg, s, step) && t in Next(cfg, s, step).tasks
    ensures t.0 in Next(cfg, s, step).store && t.1 in Next(cfg, s, step).store[t.0].attempts
  {
    hide Next, Enabled, ClaimedFirst, EffectOf, Apply;
    if t in s.tasks {
      ClaimedEntry(cfg, s, step, t.0);
    } else {
      TaskFrom(cfg, s, step, t);
      ClaimOpFor(cfg, s, step, t.0);
      StepEntry(cfg, s, step, t.0);
      ClaimedFirstKept(s.store[t.0], OpClaim(step.owner, s.clock + step.lease, s.clock));
    }
  }

  /** A new task is for the attempt a claim opens. */
  lemma TaskFrom(cfg: Config, s: System, step: Step, t: (Id, nat))
    requires Enabled(cfg, s, step) && t in Next(cfg, s, step).tasks && t !in s.tasks
    ensures step.LaneClaim? && t.0 in step.picked && t.0 in s.store && t.1 == s.store[t.0].job.attempt + 1
  {
    hide Next, TasksFor;
    TasksAfter(cfg, s, step);
    NewTasks(s.store, s.tasks, step.picked, t);
  }

  lemma ClaimOpFor(cfg: Config, s: System, step: Step, id: Id)
    requires Enabled(cfg, s, step) && step.LaneClaim? && id in step.picked
    ensures id in s.store && IsBacklog(s.store[id].job.state)
    ensures OpFor(EffectOf(cfg, s, step), id) == Some(OpClaim(step.owner, s.clock + step.lease, s.clock))
  {
    hide Next, ClaimOutcome, Eligible, Rows, WithinCap, DispatchAll;
    PickedEligible(cfg, s, step);
    PickedWaits(s.store, step.lane, s.clock, step.picked);
  }

  lemma TasksAfter(cfg: Config, s: System, step: Step)
    requires Enabled(cfg, s, step)
    ensures step.LaneClaim? ==> Next(cfg, s, step).tasks == TasksFor(s.store, s.tasks, step.picked)
    ensures !step.LaneClaim? ==> Next(cfg, s, step).tasks.Keys <= s.tasks.Keys
  {
    hide ClaimOutcome, OnPicked, OnJob, OnMaybe, LaneActive, TasksFor;
  }

  lemma NewTasks(s: Store, tasks: map<(Id, nat), Task>, picked: seq<Id>, t: (Id, nat))
    requires forall id :: id in picked ==> id in s
    requires t in TasksFor(s, tasks, picked) && t !in tasks
    ensures t.0 in picked && t.1 == s[t.0].job.attempt + 1
  {
  }

  lemma ClaimedPass(cfg: Config, s: System, step: Step, k: Id, id: Id)
    requires ClaimsRight(s) && Enabled(cfg, s, step)
    requires k in Next(cfg, s, step).passes && id in Next(cfg, s, step).passes[k].rows
    ensures id in Next(cfg, s, step).store && Next(cfg, s, step).store[id].attempts != map[]
  {
    PassFrom(cfg, s, step, k, id);
    hide Next, Enabled;
    ClaimedEntry(cfg, s, step, id);
  }

  /** A row in a pass was there before, or has just been read as active. */
  lemma PassFrom(cfg: Config, s: System, step: Step, k: Id, id: Id)
    requires Enabled(cfg, s, step)
    requires k in Next(cfg, s, step).passes && id in Next(cfg, s, step).passes[k].rows
    ensures (k in s.passes && id in s.passes[k].rows) || (id in s.store && IsActive(s.store[id].job.state))
  {
    hide OnPicked, ClaimOutcome, Apply, ApplyMaybe, OnJob, OnMaybe, RP.Reconcile, RP.SeenOf, TasksFor, LaneActive;
  }

  lemma ClaimsStep(cfg: Config, s: System, step: Step)
    requires ClaimsRight(s) && Enabled(cfg, s, step)
    ensures ClaimsRight(Next(cfg, s, step))
  {
    hide Next, Enabled, ClaimedFirst;
    var s' := Next(cfg, s, step);
    forall id | id in s'.store ensures ClaimedFirst(s'.store[id]) {
      if id in s.store { ClaimedEntry(cfg, s, step, id); } else { NewUnclaimed(cfg, s, step, id); }
    }
    forall t | t in s'.tasks ensures t.0 in s'.store && t.1 in s'.store[t.0].attempts { ClaimedTask(cfg, s, step, t); }
    forall k, id | k in s'.passes && id in s'.passes[k].rows ensures id in s'.store && s'.store[id].attempts != map[] {
      ClaimedPass(cfg, s, step, k, id);
    }
  }

  lemma NewUnclaimed(cfg: Config, s: System, step: Step, id: Id)
    requires Enabled(cfg, s, step) && id !in s.store && id in Next(cfg, s, step).store
    ensures ClaimedFirst(Next(cfg, s, step).store[id])
  {
    StepNew(cfg, s, step, id);
  }

  // ---- identities and keys ----------------------------------------------------------------

  /** A conversation's jobs all belong to the user who owns it. */
  ghost predicate Owned(owners: map<Id, Id>, m: Table) {
    forall id :: id in m && m[id].conversation.Some? ==>
      m[id].conversation.value in owners && owners[m[id].conversation.value] == m[id].user
  }

  ghost predicate KeysRight(cfg: Config, s: System) {
    && AP.UniqueKeys(Rows(s.store))
    && Owned(cfg.owners, Rows(s.store))
    && (forall r :: r in s.admissions ==> WellFormed(cfg, s.admissions[r].request))
  }

  /** A step never rewrites what admission fixed, nor anything of a finished job. */
  lemma StepKeeps(cfg: Config, s: System, step: Step, id: Id)
    requires Enabled(cfg, s, step) && id in s.store
    ensures id in Next(cfg, s, step).store
    ensures IdentityOf(Next(cfg, s, step).store[id].job) == IdentityOf(s.store[id].job)
    ensures IsTerminal(s.store[id].job.state) ==>
              && Next(cfg, s, step).store[id].job == s.store[id].job
              && Next(cfg, s, step).store[id].log == s.store[id].log
  {
    StepEntry(cfg, s, step, id);
    var op := OpFor(EffectOf(cfg, s, step), id);
    if op.Some? { IdentityKept(s.store[id], op.value); }
    if op.Some? && IsTerminal(s.store[id].job.state) { TerminalStable(s.store[id], op.value); }
  }

  lemma LivenessShrinks(e: Entry, op: Op)
    requires !e.job.state.Admitted? && !e.job.state.Cancelling?
    ensures !IsTerminal(Apply(e, op).job.state) ==> !IsTerminal(e.job.state)
  {
  }

  /** One table grew out of another by a step: no identity changed and no job came back to life. */
  ghost predicate Grown(m: Table, m': Table) {
    forall id :: id in m ==>
      id in m' && IdentityOf(m'[id]) == IdentityOf(m[id]) && (!IsTerminal(m'[id].state) ==> !IsTerminal(m[id].state))
  }

  lemma StepGrows(h: Hypotheses, cfg: Config, s: System, step: Step)
    requires LogsRight(h, s) && Enabled(cfg, s, step)
    ensures Grown(Rows(s.store), Rows(Next(cfg, s, step).store))
  {
    forall id | id in s.store
      ensures id in Next(cfg, s, step).store
      ensures IdentityOf(Next(cfg, s, step).store[id].job) == IdentityOf(s.store[id].job)
      ensures !IsTerminal(Next(cfg, s, step).store[id].job.state) ==> !IsTerminal(s.store[id].job.state)
    {
      StepEntry(cfg, s, step, id);
      StepKeeps(cfg, s, step, id);
      var op := OpFor(EffectOf(cfg, s, step), id);
      if op.Some? { LivenessShrinks(s.store[id], op.value); }
    }
  }

  /** The job a step adds, if any: its request's, under a key nobody has. */
  lemma StepAdds(cfg: Config, s: System, step: Step) returns (x: Option<Id>)
    requires Enabled(cfg, s, step)
    ensures var m, m' := Rows(s.store), Rows(Next(cfg, s, step).store);
            match x
            case None => m'.Keys <= m.Keys
            case Some(id) =>
              && step.AdmitInsert? && step.id == id && id !in m && m'.Keys == m.Keys + {id}
              && step.r in s.admissions && !Refuses(s.store, s.admissions[step.r].request)
              && IdentityOf(m'[id]) == IdentityOf(AP.NewJob(s.admissions[step.r].request, step.queuedAt))
  {
    StepEffect(cfg, s, step);
    var f := EffectOf(cfg, s, step);
    if f.Added? { x := Some(f.id); } else { x := None; }
  }

  lemma KeysCarry(owners: map<Id, Id>, m: Table, m': Table)
    requires AP.UniqueKeys(m) && Owned(owners, m) && m'.Keys <= m.Keys
    requires forall id :: id in m' ==> IdentityOf(m'[id]) == IdentityOf(m[id])
    ensures AP.UniqueKeys(m') && Owned(owners, m')
  {
    forall id | id in m' ensures m'[id].conversation == m[id].conversation && m'[id].user == m[id].user {}
  }

  lemma AdmissionsWellFormed(cfg: Config, s: System, step: Step)
    requires Enabled(cfg, s, step) && forall r :: r in s.admissions ==> WellFormed(cfg, s.admissions[r].request)
    ensures forall r :: r in Next(cfg, s, step).admissions ==> WellFormed(cfg, Next(cfg, s, step).admissions[r].request)
  {
  }

  lemma GrownIdentities(m: Table, m': Table)
    requires Grown(m, m')
    ensures forall id :: id in m ==> id in m' && IdentityOf(m'[id]) == IdentityOf(m[id])
  {
  }

  lemma KeysAdded(cfg: Config, m: Table, m': Table, x: Id, r: AP.Request, queuedAt: Time)
    requires AP.UniqueKeys(m) && Owned(cfg.owners, m) && WellFormed(cfg, r)
    requires AP.SameKey(m, r.user, r.key, r.kind) == {} && x !in m && m'.Keys == m.Keys + {x}
    requires IdentityOf(m'[x]) == IdentityOf(AP.NewJob(r, queuedAt))
    requires forall id :: id in m ==> IdentityOf(m'[id]) == IdentityOf(m[id])
    ensures AP.UniqueKeys(m') && Owned(cfg.owners, m')
  {
    var wider := m[x := AP.NewJob(r, queuedAt)];
    AP.AdmitKeepsUnique(m, r, x, queuedAt);
    assert Owned(cfg.owners, wider);
    forall id | id in m' ensures IdentityOf(m'[id]) == IdentityOf(wider[id]) {
      assert id in m ==> wider[id] == m[id];
    }
    hide AP.UniqueKeys, Owned;
    KeysCarry(cfg.owners, wider, m');
  }

  /** The unique constraint keeps keys unique, however admissions interleave. */
  lemma KeysStep(h: Hypotheses, cfg: Config, s: System, step: Step)
    requires LogsRight(h, s) && KeysRight(cfg, s) && Enabled(cfg, s, step)
    ensures KeysRight(cfg, Next(cfg, s, step))
  {
    AdmissionsWellFormed(cfg, s, step);
    hide Next, Enabled, LogsRight, EffectOf, Owned, AP.UniqueKeys, Rows, Grown;
    var m, m' := Rows(s.store), Rows(Next(cfg, s, step).store);
    StepGrows(h, cfg, s, step);
    GrownIdentities(m, m');
    var x := StepAdds(cfg, s, step);
    if x.Some? {
      assert WellFormed(cfg, s.admissions[step.r].request);
      KeysAdded(cfg, m, m', x.value, s.admissions[step.r].request, step.queuedAt);
    } else {
      KeysCarry(cfg.owners, m, m');
    }
  }

  // ---- active caps ---------------------------------------------------------------------------

  /** No transaction but a claim, and a mark_running in time, makes a job active; none revives one. */
  lemma ActivityShrinks(e: Entry, op: Op)
    requires !op.OpClaim? && !(op.OpRunning? && IsBacklog(e.job.state))
    requires !e.job.state.Admitted? && !e.job.state.Cancelling?
    ensures IsActive(Apply(e, op).job.state) ==> IsActive(e.job.state)
  {
  }

  lemma ClaimedRows(s: Store, picked: seq<Id>, op: Op)
    requires op.OpClaim? && forall id :: id in picked ==> id in s && IsBacklog(s[id].job.state)
    ensures Rows(OnPicked(s, picked, op)) == DispatchAll(Rows(s), picked)
  {
    DispatchAllFrame(Rows(s), picked);
  }

  /** In a step that claims nothing, the active jobs after it were active before it. */
  lemma NoNewActivity(h: Hypotheses, cfg: Config, s: System, step: Step, id: Id)
    requires LogsRight(h, s) && InTime(s, step) && Enabled(cfg, s, step)
    requires !EffectOf(cfg, s, step).Claimed?
    requires id in Next(cfg, s, step).store && IsActive(Next(cfg, s, step).store[id].job.state)
    ensures id in s.store && IsActive(s.store[id].job.state)
    ensures IdentityOf(Next(cfg, s, step).store[id].job) == IdentityOf(s.store[id].job)
  {
    if id in s.store {
      StepEntry(cfg, s, step, id);
      StepKeeps(cfg, s, step, id);
      StepEffect(cfg, s, step);
      var op := OpFor(EffectOf(cfg, s, step), id);
      if op.Some? {
        StartIsInTime(cfg, s, step, id);
        ActivityShrinks(s.store[id], op.value);
      }
    } else {
      StepNew(cfg, s, step, id);
      assert false;
    }
  }

  ghost predicate UserCapped(cfg: Config, s: System) {
    cfg.maxActive > 0 ==> WithinCap(Rows(s.store), cfg.maxActive)
  }

  lemma UserCapStep(h: Hypotheses, cfg: Config, s: System, step: Step)
    requires LogsRight(h, s) && InTime(s, step) && Enabled(cfg, s, step)
    requires UserCapped(cfg, s)
    ensures UserCapped(cfg, Next(cfg, s, step))
  {
    hide Next, Enabled, Allowed, LogsRight, EffectOf, DispatchAll, OnPicked, Apply;
    var f := EffectOf(cfg, s, step);
    var m, m' := Rows(s.store), Rows(Next(cfg, s, step).store);
    StepEffect(cfg, s, step);
    if f.Claimed? {
      PickedEligible(cfg, s, step);
      ClaimedRows(s.store, f.picked, f.claim);
    } else if cfg.maxActive > 0 {
      forall u ensures ActiveCount(m', u) <= cfg.maxActive {
        forall id | id in ActiveOf(m', u) ensures id in ActiveOf(m, u) { NoNewActivity(h, cfg, s, step, id); }
        SubsetCardinality(ActiveOf(m', u), ActiveOf(m, u));
        assert ActiveCount(m, u) <= cfg.maxActive;
      }
    }
  }

  ghost predicate LanesBounded(cfg: Config, s: System) {
    forall lane :: |LaneActive(s.store, lane)| + Max(0, Budget(s, 0, lane)) <= Max(0, Slots(cfg, lane))
  }

  lemma LaneStep(h: Hypotheses, cfg: Config, s: System, step: Step)
    requires LogsRight(h, s) && h.startsInTime && h.oneScheduler && Enabled(cfg, s, step) && Allowed(h, s, step)
    requires LanesBounded(cfg, s)
    ensures LanesBounded(cfg, Next(cfg, s, step))
  {
    hide LogsRight, LaneActive, Slots, OnPicked, ClaimOutcome, Apply;
    var s' := Next(cfg, s, step);
    forall lane ensures |LaneActive(s'.store, lane)| + Max(0, Budget(s', 0, lane)) <= Max(0, Slots(cfg, lane)) {
      if EffectOf(cfg, s, step).Claimed? {
        LaneClaimStep(cfg, s, step, lane);
      } else {
        LaneQuietStep(h, cfg, s, step, lane);
        BudgetStep(cfg, s, step, lane);
      }
    }
  }

  lemma LaneQuietStep(h: Hypotheses, cfg: Config, s: System, step: Step, lane: Backend)
    requires LogsRight(h, s) && InTime(s, step) && Enabled(cfg, s, step)
    requires !EffectOf(cfg, s, step).Claimed?
    ensures |LaneActive(Next(cfg, s, step).store, lane)| <= |LaneActive(s.store, lane)|
  {
    var s' := Next(cfg, s, step);
    forall id | id in LaneActive(s'.store, lane) ensures id in LaneActive(s.store, lane) {
      NoNewActivity(h, cfg, s, step, id);
    }
    SubsetCardinality(LaneActive(s'.store, lane), LaneActive(s.store, lane));
  }

  /** Outside a claim a budget changes only by reading the lane's free slots. */
  lemma BudgetStep(cfg: Config, s: System, step: Step, lane: Backend)
    requires Enabled(cfg, s, step) && !EffectOf(cfg, s, step).Claimed?
    ensures var s' := Next(cfg, s, step);
            || Budget(s', 0, lane) == Budget(s, 0, lane)
            || Max(0, Budget(s', 0, lane)) <= Max(0, Slots(cfg, lane) - |LaneActive(s.store, lane)|)
  {
  }

  lemma LaneClaimStep(cfg: Config, s: System, step: Step, lane: Backend)
    requires Enabled(cfg, s, step) && step.LaneClaim?
    ensures var s' := Next(cfg, s, step);
            && Budget(s', step.k, step.lane) == 0
            && (lane != step.lane ==> Budget(s', step.k, lane) == Budget(s, step.k, lane))
            && |LaneActive(s'.store, lane)| <=
                 |LaneActive(s.store, lane)| + (if lane == step.lane then Max(0, Budget(s, step.k, lane)) else 0)
  {
    hide ClaimOutcome, Picks, DispatchAll, OnPicked, Apply, KindsForBackend, Rows, Eligible, ActiveInKinds;
    var s' := Next(cfg, s, step);
    PickedEligible(cfg, s, step);
    PickedWaits(s.store, step.lane, s.clock, step.picked);
    ClaimedRows(s.store, step.picked, EffectOf(cfg, s, step).claim);
    LaneAfterClaim(Rows(s.store), step.lane, lane, step.picked);
  }

  lemma LaneAfterClaim(m: Table, claimed: Backend, lane: Backend, picked: seq<Id>)
    requires NoDup(picked) && forall id :: id in picked ==> id in m && m[id].kind in KindsForBackend(claimed)
    ensures |ActiveInKinds(DispatchAll(m, picked), Some(KindsForBackend(lane)))| <=
            |ActiveInKinds(m, Some(KindsForBackend(lane)))| + (if lane == claimed then |picked| else 0)
  {
    hide KindsForBackend, DispatchAll;
    DispatchAllFrame(m, picked);
    var kinds := Some(KindsForBackend(lane));
    var before, now := ActiveInKinds(m, kinds), ActiveInKinds(DispatchAll(m, picked), kinds);
    if lane == claimed {
      NoDupCardinality(picked);
      assert now <= before + Elements(picked);
      SubsetCardinality(now, before + Elements(picked));
    } else {
      forall id | id in picked ensures id !in now {
        LanesPartition(m[id].kind);
      }
      assert now <= before;
      SubsetCardinality(now, before);
    }
  }

  // ---- conservation ------------------------------------------------------------------------------

  function LiveInConversation(m: Table, c: Id): set<Id> {
    set id | id in m && m[id].conversation == Some(c) && !IsTerminal(m[id].state)
  }

  function LiveOfUser(m: Table, u: Id): set<Id> {
    set id | id in m && m[id].user == u && !IsTerminal(m[id].state)
  }

  /** None of u's jobs carries a conversation. */
  ghost predicate Solo(m: Table, u: Id) {
    forall id :: id in m && m[id].user == u ==> m[id].conversation.None?
  }

  /** A live job is waiting or active; the states the queue never uses are out of the way. */
  lemma LiveSplits(h: Hypotheses, cfg: Config, s: System)
    requires LogsRight(h, s) && KeysRight(cfg, s)
    ensures var m := Rows(s.store);
            && (forall u :: |LiveOfUser(m, u)| <= |UserBacklog(m, u)| + ActiveCount(m, u))
            && (forall c :: c in cfg.owners ==>
                  |LiveInConversation(m, c)| <= |ConversationBacklog(m, c)| + ActiveCount(m, cfg.owners[c]))
  {
    hide ReplaysUpToPhase, Replay, Numbered, EndsRight, FreshAttempts, ErrorsRight, Retries, Claims, AP.UniqueKeys;
    var m := Rows(s.store);
    forall u ensures |LiveOfUser(m, u)| <= |UserBacklog(m, u)| + ActiveCount(m, u) {
      assert LiveOfUser(m, u) <= UserBacklog(m, u) + ActiveOf(m, u);
      SubsetCardinality(LiveOfUser(m, u), UserBacklog(m, u) + ActiveOf(m, u));
    }
    forall c | c in cfg.owners
      ensures |LiveInConversation(m, c)| <= |ConversationBacklog(m, c)| + ActiveCount(m, cfg.owners[c])
    {
      var u := cfg.owners[c];
      assert LiveInConversation(m, c) <= ConversationBacklog(m, c) + ActiveOf(m, u);
      SubsetCardinality(LiveInConversation(m, c), ConversationBacklog(m, c) + ActiveOf(m, u));
    }
  }

  /** The live jobs a bucket is about. */
  function LiveIn(m: Table, b: Bucket): set<Id> {
    match b
    case OfConversation(c) => LiveInConversation(m, c)
    case OfUser(u) => LiveOfUser(m, u)
  }

  /** A job of this request is one of the bucket's. */
  predicate FallsIn(r: AP.Request, b: Bucket) {
    match b
    case OfConversation(c) => r.conversation == Some(c)
    case OfUser(u) => r.user == u
  }

  /** Live jobs change only by the job a step adds. */
  lemma LiveGrowth(m: Table, m': Table, x: Option<Id>, b: Bucket)
    requires Grown(m, m') && (if x.Some? then x.value !in m && m'.Keys == m.Keys + {x.value} else m'.Keys <= m.Keys)
    ensures |LiveIn(m', b)| <= |LiveIn(m, b)| + (if x.Some? && x.value in LiveIn(m', b) then 1 else 0)
  {
    var limit := LiveIn(m, b) + (if x.Some? && x.value in LiveIn(m', b) then {x.value} else {});
    forall id | id in LiveIn(m', b) ensures id in limit {
      assert id in m ==> IdentityOf(m'[id]) == IdentityOf(m[id]);
    }
    SubsetCardinality(LiveIn(m', b), limit);
  }

  /** For users, the count is only about those whose jobs carry no conversation. */
  ghost predicate Concerns(m: Table, b: Bucket) { b.OfUser? ==> Solo(m, b.u) }

  lemma SoloBefore(m: Table, m': Table, b: Bucket)
    requires Grown(m, m') && Concerns(m', b)
    ensures Concerns(m, b)
  {
    if b.OfUser? {
      forall id | id in m && m[id].user == b.u ensures m[id].conversation.None? {
        assert IdentityOf(m'[id]) == IdentityOf(m[id]);
      }
    }
  }

  /** Live jobs, and admissions of the bucket that have passed their count, never exceed the two caps by
      more than the admissions that may be under way at once; at most `width` of them are. */
  ghost predicate Conserved(cfg: Config, s: System, b: Bucket, width: nat) {
    Concerns(Rows(s.store), b) ==>
      |LiveIn(Rows(s.store), b)| + |CountedFor(s, b)| <= cfg.caps.maxQueued + cfg.maxActive - 1 + width
  }

  /** A request passes its count only while live jobs leave room. */
  lemma RoomAtCount(h: Hypotheses, cfg: Config, s: System, r: Id)
    requires LogsRight(h, s) && KeysRight(cfg, s) && UserCapped(cfg, s) && r in s.admissions
    requires cfg.maxActive > 0 && cfg.caps.maxQueued > 0
    requires AP.OwnFull(cfg.caps, Rows(s.store), s.admissions[r].request).None?
    ensures |LiveIn(Rows(s.store), BucketOf(s.admissions[r].request))| < cfg.caps.maxQueued + cfg.maxActive
  {
    LiveSplits(h, cfg, s);
    assert WellFormed(cfg, s.admissions[r].request);
  }

  /** What a step does to the requests that have passed a bucket's count. */
  lemma CountedStep(cfg: Config, s: System, step: Step, b: Bucket)
    requires Enabled(cfg, s, step)
    ensures var s' := Next(cfg, s, step);
            && (step.AdmitInsert? ==> CountedFor(s', b) == CountedFor(s, b) - {step.r})
            && (step.AdmitInsert? ==> (step.r in CountedFor(s, b) <==> BucketOf(s.admissions[step.r].request) == b))
            && (!step.AdmitInsert? ==>
                  CountedFor(s', b) <= CountedFor(s, b) ||
                  (step.AdmitOwn? && step.r in s.admissions && BucketOf(s.admissions[step.r].request) == b &&
                   AP.OwnFull(cfg.caps, Rows(s.store), s.admissions[step.r].request).None? && s'.store == s.store))
  {
  }

  lemma InsertedBucket(cfg: Config, s: System, step: Step, b: Bucket)
    requires Enabled(cfg, s, step) && step.AdmitInsert? && step.id in LiveIn(Rows(Next(cfg, s, step).store), b)
    requires Concerns(Rows(Next(cfg, s, step).store), b)
    ensures BucketOf(s.admissions[step.r].request) == b
  {
    StepEffect(cfg, s, step);
  }

  lemma ConservedStep(h: Hypotheses, cfg: Config, s: System, step: Step, b: Bucket, width: nat)
    requires LogsRight(h, s) && KeysRight(cfg, s) && UserCapped(cfg, s) && Enabled(cfg, s, step)
    requires cfg.maxActive > 0 && cfg.caps.maxQueued > 0 && Conserved(cfg, s, b, width)
    requires |CountedFor(Next(cfg, s, step), b)| <= width
    ensures Conserved(cfg, Next(cfg, s, step), b, width)
  {
    hide LogsRight, KeysRight, UserCapped, LiveIn, CountedFor, Next, Enabled, Concerns;
    var s' := Next(cfg, s, step);
    var m, m' := Rows(s.store), Rows(s'.store);
    StepGrows(h, cfg, s, step);
    CountedStep(cfg, s, step, b);
    if Concerns(m', b) {
      SoloBefore(m, m', b);
      var x := StepAdds(cfg, s, step);
      LiveGrowth(m, m', x, b);
      if step.AdmitInsert? {
        if x.Some? && x.value in LiveIn(m', b) {
          InsertedBucket(cfg, s, step, b);
          assert |CountedFor(s', b)| == |CountedFor(s, b)| - 1;
        } else {
          SubsetCardinality(CountedFor(s', b), CountedFor(s, b));
        }
      } else if CountedFor(s', b) <= CountedFor(s, b) {
        SubsetCardinality(CountedFor(s', b), CountedFor(s, b));
      } else {
        RoomAtCount(h, cfg, s, step.r);
      }
    }
  }

  // ---- all of it, over every run --------------------------------------------------------------------

  ghost predicate Safe(h: Hypotheses, cfg: Config, s: System) {
    && LogsRight(h, s)
    && KeysRight(cfg, s)
    && ClaimsRight(s)
    && (h.startsInTime ==> UserCapped(cfg, s))
    && (h.startsInTime && h.oneScheduler ==> LanesBounded(cfg, s))
  }

  lemma InitialSafe(h: Hypotheses, cfg: Config, clock: Time)
    ensures Safe(h, cfg, Initial(clock))
  {
    var m := Rows(Initial(clock).store);
    assert m == map[];
    assert forall u :: ActiveOf(m, u) == {};
    assert forall lane :: LaneActive(Initial(clock).store, lane) == {};
  }

  lemma SafeStep(h: Hypotheses, cfg: Config, s: System, step: Step)
    requires Safe(h, cfg, s) && Enabled(cfg, s, step) && Allowed(h, s, step)
    ensures Safe(h, cfg, Next(cfg, s, step))
  {
    LogsStep(h, cfg, s, step);
    KeysStep(h, cfg, s, step);
    ClaimsStep(cfg, s, step);
    if h.startsInTime {
      UserCapStep(h, cfg, s, step);
      if h.oneScheduler { LaneStep(h, cfg, s, step); }
    }
  }

  lemma {:induction false} SafeRun(h: Hypotheses, cfg: Config, s: System, steps: seq<Step>)
    requires Safe(h, cfg, s) && Legal(h, cfg, s, steps)
    ensures Safe(h, cfg, Run(h, cfg, s, steps))
    decreases |steps|
  {
    if steps != [] {
      SafeStep(h, cfg, s, steps[0]);
      SafeRun(h, cfg, Next(cfg, s, steps[0]), steps[1..]);
    }
  }
}
