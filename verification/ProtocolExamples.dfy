// Runs that break a bound when one hypothesis is dropped, all the others kept: every hypothesis is needed.
module ProtocolExamples {
  import opened Basics
  import opened Jobs
  import opened JobEntry
  import opened Claim
  import opened ClaimOrder
  import opened Registry
  import opened Protocol
  import opened ProtocolSafety
  import opened ProtocolTheorems
  import opened AdmissionRuns
  import AP = AdmissionPolicy
  import RP = ReconcilePolicy
  import Retry

  const LATE_STARTS: Hypotheses := Hypotheses(false, true, true, true, true)
  const TWO_SCHEDULERS: Hypotheses := Hypotheses(true, false, true, true, true)
  const TWO_RECONCILERS: Hypotheses := Hypotheses(true, true, false, true, true)
  const RAISING_SUBMITS: Hypotheses := Hypotheses(true, true, true, false, true)
  const OVERLAPPING_ADMISSIONS: Hypotheses := Hypotheses(true, true, true, true, false)
  const ALL_OF_THEM: Hypotheses := Hypotheses(true, true, true, true, true)

  /** One active and one waiting job per user, one ComfyUI slot. */
  const CFG: Config := Config(1, AP.Caps(1, 5000), 1, 0, 3, map[])

  const KIND: string := "image_basic"
  const LEASE: real := 120.0

  function Ask(user: Id, key: string): AP.Request { AP.Request(user, None, KIND, key, map[]) }

  function Fresh(user: Id, key: string): Entry { Created(AP.NewJob(Ask(user, key), 0.0), 0.0) }

  lemma Kinds()
    ensures BackendForKind(KIND) == Some(Comfyui) && KIND in KindsForBackend(Comfyui)
  {
    RegistryKeysUnique();
    FirstBackendFinds(REGISTRY, KIND);
    assert REGISTRY[2].name == KIND;
    LanesPartition(KIND);
  }

  // ---- one step after another ------------------------------------------------------------

  ghost predicate Gets(h: Hypotheses, steps: seq<Step>, s: System) {
    Legal(h, CFG, Initial(0.0), steps) && Run(h, CFG, Initial(0.0), steps) == s
  }

  lemma Then(h: Hypotheses, steps: seq<Step>, s: System, step: Step, t: System) returns (more: seq<Step>)
    requires Gets(h, steps, s) && Enabled(CFG, s, step) && Allowed(h, s, step) && Next(CFG, s, step) == t
    ensures Gets(h, more, t)
  {
    hide Enabled, Allowed, Next, Legal, Run;
    more := steps + [step];
    RunSnoc(h, CFG, Initial(0.0), steps, step);
  }

  lemma Waited(h: Hypotheses, steps: seq<Step>, s: System, seconds: real) returns (more: seq<Step>)
    requires Gets(h, steps, s) && seconds >= 0.0
    ensures Gets(h, more, s.(clock := s.clock + seconds))
  {
    hide Gets;
    more := Then(h, steps, s, Wait(seconds), s.(clock := s.clock + seconds));
  }

  /** Room for a request of this user. */
  predicate HasRoom(s: Store, user: Id) {
    |s| < 5000 && forall x :: x in s && s[x].job.user == user ==> !IsBacklog(s[x].job.state)
  }

  predicate FreeKey(s: Store, key: string) { forall x :: x in s ==> s[x].job.key != key }

  lemma RoomMeans(s: Store, user: Id, key: string)
    requires HasRoom(s, user)
    ensures FreeKey(s, key) ==> AP.IsLookup(Rows(s), Ask(user, key), None)
    ensures !AP.GlobalFull(CFG.caps, Rows(s)) && AP.OwnFull(CFG.caps, Rows(s), Ask(user, key)).None?
    ensures WellFormed(CFG, Ask(user, key))
  {
    Kinds();
    var m := Rows(s);
    assert FreeKey(s, key) ==> AP.SameKey(m, user, key, KIND) == {};
    assert UserBacklog(m, user) == {};
    SubsetCardinality(Lane(m, None), m.Keys);
    assert m.Keys == s.Keys;
  }

  predicate NoneCounted(s: System) { forall r :: r in s.admissions ==> !Counted(s.admissions[r]) }

  lemma NobodyCounted(s: System, b: Bucket)
    requires NoneCounted(s)
    ensures CountedFor(s, b) == {}
  {
  }

  /** A request that nobody disturbs, of a user with nothing waiting. */
  lemma Admitted(h: Hypotheses, steps: seq<Step>, s: System, r: Id, user: Id, key: string, id: Id)
    returns (more: seq<Step>)
    requires Gets(h, steps, s) && r !in s.admissions && (h.serialAdmissions ==> NoneCounted(s))
    requires id !in s.store && HasRoom(s.store, user) && FreeKey(s.store, key)
    ensures Gets(h, more, s.(store := s.store[id := Created(AP.NewJob(Ask(user, key), s.clock), s.clock)]))
  {
    hide Legal, Run, Next, Enabled, Allowed, Created, Script, CountedFor, HasRoom, FreeKey, NoneCounted, AP.GlobalFull, AP.OwnFull;
    var request := Ask(user, key);
    RoomMeans(s.store, user, key);
    if h.serialAdmissions { NobodyCounted(s, BucketOf(request)); }
    AdmissionIsARun(h, CFG, s, r, request, None, id);
    RunAppend(h, CFG, Initial(0.0), steps, Script(CFG, s, r, request, None, id));
    more := steps + Script(CFG, s, r, request, None, id);
  }

  // ---- claims ----------------------------------------------------------------------------

  predicate Waits(s: System, id: Id) {
    id in s.store && IsBacklog(s.store[id].job.state) && Available(s.store[id].job, s.clock) && s.store[id].job.kind == KIND
  }

  /** All rows tie in the claim order. */
  predicate Tied(s: Store) { forall x :: x in s ==> s[x].job.queuedAt == 0.0 && s[x].job.priority == 0 }

  predicate NobodyActive(s: Store, user: Id) {
    forall x :: x in s && s[x].job.user == user ==> !IsActive(s[x].job.state)
  }

  function ClaimOp(clock: Time): Op { OpClaim("scheduler", clock + LEASE, clock) }

  function Taken(s: System, k: Id, id: Id): System
    requires id in s.store
  {
    WithBudget(s.(store := s.store[id := Apply(s.store[id], ClaimOp(s.clock))],
                  tasks := s.tasks[(id, s.store[id].job.attempt + 1) := ToStart]), k, Comfyui, 0)
  }

  /** With one slot left and every row tied, any waiting job of an inactive user may be picked. */
  lemma MayPick(s: System, k: Id, id: Id)
    requires Waits(s, id) && Tied(s.store) && NobodyActive(s.store, s.store[id].job.user)
    requires Budget(s, k, Comfyui) == 1
    ensures Enabled(CFG, s, LaneClaim(k, Comfyui, [id], "scheduler", LEASE))
  {
    Kinds();
    hide KindsForBackend;
    var m, o, kinds := Rows(s.store), Aging(s), Some(KindsForBackend(Comfyui));
    assert ActiveOf(m, m[id].user) == {};
    assert IsBest(m, o, kinds, s.clock, 1, id);
    assert [id][1..] == [];
    assert Picks(Dispatch(m, id), o, kinds, s.clock, 0, 1, []);
    assert Picks(m, o, kinds, s.clock, 1, 1, [id]);
  }

  lemma OneTask(s: Store, tasks: map<(Id, nat), Task>, id: Id)
    requires id in s
    ensures TasksFor(s, tasks, [id]) == tasks[(id, s[id].job.attempt + 1) := ToStart]
  {
    var key := (id, s[id].job.attempt + 1);
    var made: map<(Id, nat), Task> := map x | x in [id] :: (x, s[x].job.attempt + 1) := ToStart;
    assert TasksFor(s, tasks, [id]) == tasks + made;
    hide *;
    assert id in [id] && key in made;
    assert forall x :: x in made.Keys ==> x == key;
  }

  lemma PickedStore(s: System, k: Id, id: Id)
    requires id in s.store && Enabled(CFG, s, LaneClaim(k, Comfyui, [id], "scheduler", LEASE))
    ensures Next(CFG, s, LaneClaim(k, Comfyui, [id], "scheduler", LEASE)) == Taken(s, k, id)
  {
    hide Apply, ClaimOutcome, KindsForBackend, TasksFor, WithBudget;
    assert OnPicked(s.store, [id], ClaimOp(s.clock)) == s.store[id := Apply(s.store[id], ClaimOp(s.clock))];
    OneTask(s.store, s.tasks, id);
  }

  lemma Takes(h: Hypotheses, steps: seq<Step>, s: System, k: Id, id: Id) returns (more: seq<Step>)
    requires Gets(h, steps, s) && (h.oneScheduler ==> k == 0)
    requires Waits(s, id) && Tied(s.store) && NobodyActive(s.store, s.store[id].job.user)
    requires Budget(s, k, Comfyui) == 1
    ensures Gets(h, more, Taken(s, k, id))
  {
    hide Gets, Enabled, Next, Taken;
    MayPick(s, k, id);
    PickedStore(s, k, id);
    more := Then(h, steps, s, LaneClaim(k, Comfyui, [id], "scheduler", LEASE), Taken(s, k, id));
  }

  lemma Reserves(h: Hypotheses, steps: seq<Step>, s: System, k: Id) returns (more: seq<Step>)
    requires Gets(h, steps, s) && (h.oneScheduler ==> k == 0)
    requires forall x :: x in s.store ==> !IsActive(s.store[x].job.state)
    ensures Gets(h, more, WithBudget(s, k, Comfyui, 1))
  {
    hide Gets, KindsForBackend;
    assert LaneActive(s.store, Comfyui) == {};
    more := Then(h, steps, s, Reserve(k, Comfyui, true), WithBudget(s, k, Comfyui, 1));
  }

  /** The job is claimed by scheduler 0: a fresh attempt, a task to dispatch it, nothing else. */
  lemma Claimed(h: Hypotheses, steps: seq<Step>, s: System, id: Id) returns (more: seq<Step>, t: System)
    requires Gets(h, steps, s) && Waits(s, id) && Tied(s.store)
    requires forall x :: x in s.store ==> !IsActive(s.store[x].job.state)
    ensures Gets(h, more, t)
    ensures t == s.(budgets := t.budgets, store := s.store[id := Apply(s.store[id], ClaimOp(s.clock))],
                    tasks := s.tasks[(id, s.store[id].job.attempt + 1) := ToStart])
  {
    hide Gets, Apply;
    more := Reserves(h, steps, s, 0);
    var s' := WithBudget(s, 0, Comfyui, 1);
    more := Takes(h, more, s', 0, id);
    t := Taken(s', 0, id);
  }

  /** The same when it is the only job. */
  lemma ClaimedAlone(h: Hypotheses, steps: seq<Step>, s: System, e: Entry) returns (more: seq<Step>, t: System)
    requires Gets(h, steps, s) && s.store == map[0 := e] && Waits(s, 0) && e.job.queuedAt == 0.0 && e.job.priority == 0
    ensures Gets(h, more, t)
    ensures t == s.(budgets := t.budgets, store := map[0 := Apply(e, ClaimOp(s.clock))],
                    tasks := s.tasks[(0, e.job.attempt + 1) := ToStart])
  {
    hide Gets, Apply;
    more, t := Claimed(h, steps, s, 0);
    assert t.store == map[0 := Apply(e, ClaimOp(s.clock))];
  }

  // ---- reconciliations ----------------------------------------------------------------------

  function LostOp(seen: RP.Seen, at: Time): (op: Op)
    ensures op.OpRetryWait? && op.now == at
  {
    OpRetryWait("worker_lease_expired", Some("lease expired with no prompt_id"),
                Retry.BackoffSeconds(seen.attempt + 1, 0.0), at)
  }

  lemma Begins(h: Hypotheses, steps: seq<Step>, s: System, k: Id, id: Id) returns (more: seq<Step>, t: System)
    requires Gets(h, steps, s) && (h.oneReconciler ==> k == 0)
    requires id in s.store && IsActive(s.store[id].job.state)
    ensures Gets(h, more, t) && t == s.(passes := t.passes)
    ensures k in t.passes && t.passes[k].at == s.clock
    ensures id in t.passes[k].rows && t.passes[k].rows[id] == RP.SeenOf(s.store[id])
    ensures forall x :: x in s.passes && x != k ==> x in t.passes && t.passes[x] == s.passes[x]
  {
    hide Gets, RP.SeenOf;
    t := Next(CFG, s, BeginPass(k));
    more := Then(h, steps, s, BeginPass(k), t);
  }

  /** A reconciler resolves a job whose lease, as it read it, has expired with no prompt id. */
  lemma Resolves(h: Hypotheses, steps: seq<Step>, s: System, k: Id, id: Id, seen: RP.Seen)
    returns (more: seq<Step>, t: System)
    requires Gets(h, steps, s) && (h.oneReconciler ==> k == 0)
    requires id in s.store && id in PassRows(s, k) && seen == s.passes[k].rows[id]
    requires seen.promptId == None && RP.LeaseExpired(seen, s.passes[k].at) && seen.attempt + 1 < seen.maxAttempts
    ensures Gets(h, more, t)
    ensures t == s.(passes := t.passes, store := s.store[id := Apply(s.store[id], LostOp(seen, s.clock))])
    ensures forall x :: x in s.passes && x != k ==> x in t.passes && t.passes[x] == s.passes[x]
  {
    Retry.LastAttemptIsFinal("worker_lease_expired", seen.attempt + 1, seen.maxAttempts);
    assert Resolution(s, k, id, RP.StUnknown, 0.0) == Some(LostOp(seen, s.clock));
    hide Gets, Apply, Resolution, LostOp;
    var step := ReconcileNext(k, id, RP.StUnknown, 0.0);
    t := Next(CFG, s, step);
    more := Then(h, steps, s, step, t);
  }

  /** A freshly claimed job nobody finishes: after the lease the reconciler schedules a retry, and waiting
      out the delay makes the job available again. */
  lemma GivesUp(h: Hypotheses, steps: seq<Step>, s: System, id: Id) returns (more: seq<Step>, t: System)
    requires Gets(h, steps, s) && id in s.store && IsActive(s.store[id].job.state)
    requires var seen := RP.SeenOf(s.store[id]);
             && seen.promptId == None && seen.leaseExpiresAt.Some? && seen.leaseExpiresAt.value < s.clock + 121.0
             && seen.attempt + 1 < seen.maxAttempts
    ensures Gets(h, more, t)
    ensures var seen := RP.SeenOf(s.store[id]);
            t == s.(passes := t.passes, clock := s.clock + 121.0,
                    store := s.store[id := Apply(s.store[id], LostOp(seen, s.clock + 121.0))])
  {
    hide Gets, Apply, RP.SeenOf, LostOp;
    more := Waited(h, steps, s, 121.0);
    more, t := Begins(h, more, s.(clock := s.clock + 121.0), 0, id);
    more, t := Resolves(h, more, t, 0, id, RP.SeenOf(s.store[id]));
  }

  lemma Delays()
    ensures Retry.BackoffSeconds(1, 0.0) == 2.0 && Retry.BackoffSeconds(2, 0.0) == 4.0
    ensures Retry.ShortestDelay(2) == 3.2 && Retry.ShortestDelay(3) == 6.4
  {
    assert Retry.Power(2.0, 0) == 1.0;
    assert Retry.Power(2.0, 1) == 2.0;
    assert Retry.Power(2.0, 2) == 4.0;
    assert Retry.Power(2.0, 3) == 8.0;
  }

  lemma ClaimedEntry(e: Entry, clock: Time)
    requires EntryInv(e) && IsBacklog(e.job.state)
    ensures var e' := Apply(e, ClaimOp(clock));
            && EntryInv(e')
            && e'.job == e.job.(state := Dispatched)
            && RP.SeenOf(e') == RP.Seen(e.job.attempt, e.job.maxAttempts, None, Some(clock + LEASE), e.job.queuedAt)
            && Claims(e'.log) == Claims(e.log) + 1
  {
    ApplyInv(e, ClaimOp(clock));
    ClaimIsFresh(e, "scheduler", clock + LEASE, clock);
    AppendFacts(e.log, EvDispatched(e.job.attempt + 1), clock);
  }

  lemma RetriedEntry(e: Entry, op: Op)
    requires EntryInv(e) && IsActive(e.job.state) && op.OpRetryWait?
    ensures var e' := Apply(e, op);
            && EntryInv(e')
            && e'.job == e.job.(state := RetryWait, attempt := e.job.attempt + 1, errorCode := Some(op.code),
                                errorDetail := op.detail, availableAt := Some(op.now + op.delay))
            && e'.log == AppendEvent(e.log, EvRetry(op.code, op.detail, op.delay), op.now)
            && Claims(e'.log) == Claims(e.log)
  {
    ApplyInv(e, op);
    AppendFacts(e.log, EvRetry(op.code, op.detail, op.delay), op.now);
  }

  // ---- a late mark_running ------------------------------------------------------------------

  lemma FreshEntry(user: Id, key: string)
    ensures EntryInv(Fresh(user, key)) && Claims(Fresh(user, key).log) == 0
    ensures Fresh(user, key).job == AP.NewJob(Ask(user, key), 0.0).(availableAt := Some(0.0))
  {
    CreatedInv(AP.NewJob(Ask(user, key), 0.0), 0.0);
  }

  function Two(a: Entry, b: Entry): (s: Store)
    ensures s.Keys == {0, 1} && s[0] == a && s[1] == b
  {
    map[0 := a, 1 := b]
  }

  predicate Dispatching(s: System, id: Id, no: nat) { (id, no) in s.tasks && s.tasks[(id, no)].ToStart? }

  lemma TwoUpdated(a: Entry, b: Entry, c: Entry)
    ensures Two(a, b)[0 := c] == Two(c, b) && Two(a, b)[1 := c] == Two(a, c)
    ensures map[0 := a][1 := b] == Two(a, b)
  {
  }

  /** Job 0 is admitted and claimed. */
  lemma OneActive(h: Hypotheses, e: Entry) returns (steps: seq<Step>, s: System)
    requires e == Fresh(7, "a")
    ensures Gets(h, steps, s) && s.clock == 0.0 && s.admissions == map[] && Dispatching(s, 0, 1)
    ensures s.store == map[0 := Apply(e, ClaimOp(0.0))]
  {
    hide Gets, Apply, Created;
    FreshEntry(7, "a");
    steps := Begun(h);
    s := Initial(0.0);
    steps := Admitted(h, steps, s, 0, 7, "a", 0);
    steps, s := ClaimedAlone(h, steps, s.(store := map[0 := e]), e);
  }

  /** Job 0 is admitted and claimed, then job 1 of the same user admitted. */
  lemma OneActiveOneWaiting(h: Hypotheses, e: Entry) returns (steps: seq<Step>, s: System)
    requires e == Fresh(7, "a")
    ensures Gets(h, steps, s) && s.clock == 0.0 && s.admissions == map[] && Dispatching(s, 0, 1)
    ensures s.store == Two(Apply(e, ClaimOp(0.0)), Fresh(7, "b"))
  {
    hide Gets, Apply, Created, Two, RP.SeenOf, Claims, EntryInv;
    FreshEntry(7, "a");
    ClaimedEntry(e, 0.0);
    var a := Apply(e, ClaimOp(0.0));
    steps, s := OneActive(h, e);
    steps := Admitted(h, steps, s, 0, 7, "b", 1);
    TwoUpdated(a, Fresh(7, "b"), a);
    s := s.(store := Two(a, Fresh(7, "b")));
  }

  lemma Begun(h: Hypotheses) returns (steps: seq<Step>)
    ensures Gets(h, steps, Initial(0.0))
  {
    steps := [];
    NoSteps(h, CFG, Initial(0.0));
  }

  /** The lease of job 0 runs out with its dispatch still on the way, and the reconciler gives the job back. */
  lemma GivenBack(h: Hypotheses, steps: seq<Step>, s: System, a: Entry, b: Entry, later: Time)
    returns (more: seq<Step>, t: System)
    requires Gets(h, steps, s) && s.store == Two(a, b) && Dispatching(s, 0, 1) && later == s.clock + 121.0
    requires EntryInv(a) && IsActive(a.job.state)
    requires RP.SeenOf(a) == RP.Seen(0, 3, None, Some(s.clock + LEASE), 0.0)
    ensures Gets(h, more, t) && Dispatching(t, 0, 1) && t.admissions == s.admissions && t.clock == later
    ensures t.store == Two(Apply(a, LostOp(RP.SeenOf(a), later)), b)
  {
    hide Gets, Apply, RP.SeenOf, LostOp, EntryInv, Two;
    TwoUpdated(a, b, Apply(a, LostOp(RP.SeenOf(a), later)));
    more, t := GivesUp(h, steps, s, 0);
  }

  /** Then job 1 is claimed. */
  lemma Overtaken(h: Hypotheses, steps: seq<Step>, s: System, a: Entry, b: Entry)
    returns (more: seq<Step>, t: System)
    requires Gets(h, steps, s) && s.store == Two(a, b) && Tied(s.store) && Dispatching(s, 0, 1)
    requires !IsActive(a.job.state) && b.job.state.Queued? && b.job.kind == KIND && Available(b.job, s.clock)
    requires b.job.attempt == 0
    ensures Gets(h, more, t) && Dispatching(t, 0, 1) && t.admissions == s.admissions
    ensures t.store == Two(a, Apply(b, ClaimOp(s.clock)))
  {
    hide Gets, Apply, Two;
    TwoUpdated(a, b, Apply(b, ClaimOp(s.clock)));
    more, t := Claimed(h, steps, s, 1);
  }

  lemma Started(h: Hypotheses, steps: seq<Step>, s: System, id: Id, no: nat) returns (more: seq<Step>)
    requires Gets(h, steps, s) && id in s.store && Dispatching(s, id, no)
    requires h.startsInTime ==> !IsBacklog(s.store[id].job.state)
    ensures Gets(h, more, s.(store := s.store[id := Apply(s.store[id], OpRunning)], tasks := s.tasks[(id, no) := Submitting]))
  {
    hide Gets, Apply;
    more := Then(h, steps, s, StartRunning(id, no),
                 s.(store := s.store[id := Apply(s.store[id], OpRunning)], tasks := s.tasks[(id, no) := Submitting]));
  }

  lemma LiftedState(a: Entry, b: Entry)
    requires a.job.state.RetryWait? && b.job.state.Dispatched? && a.job.user == b.job.user == 7
    requires a.job.kind == b.job.kind == KIND
    ensures var store := Two(Apply(a, OpRunning), b);
            && ActiveCount(Rows(store), 7) == 2 && |LaneActive(store, Comfyui)| == 2
            && store[0].log == a.log && store[0].job.state.Running?
  {
    Kinds();
    hide KindsForBackend;
    var store := Two(Apply(a, OpRunning), b);
    assert ActiveOf(Rows(store), 7) == {0, 1};
    assert LaneActive(store, Comfyui) == {0, 1};
  }

  lemma LostPhase(a: Entry, lost: Op)
    requires lost.OpRetryWait? && EntryInv(a) && IsActive(a.job.state)
    ensures Replay(Apply(a, lost).log).phase == WaitingRetry
  {
    RetriedEntry(a, lost);
    ReplayAppend(a.log, EvRetry(lost.code, lost.detail, lost.delay), lost.now);
  }

  /** Only now the first dispatch gets round to its mark_running. */
  lemma LateStarted(a: Entry, b: Entry) returns (steps: seq<Step>, s: System)
    requires a == Apply(Fresh(7, "a"), ClaimOp(0.0)) && b == Apply(Fresh(7, "b"), ClaimOp(121.0))
    ensures Gets(LATE_STARTS, steps, s) && s.admissions == map[]
    ensures s.store == Two(Apply(Apply(a, LostOp(RP.SeenOf(a), 121.0)), OpRunning), b)
  {
    hide Apply, RP.SeenOf, LostOp, EntryInv, Created, Claims, Gets, AppendEvent, Two;
    var e, f := Fresh(7, "a"), Fresh(7, "b");
    steps, s := OneActiveOneWaiting(LATE_STARTS, e);
    FreshEntry(7, "a");
    FreshEntry(7, "b");
    ClaimedEntry(e, 0.0);
    ClaimedEntry(f, 121.0);
    var lost := LostOp(RP.SeenOf(a), 121.0);
    RetriedEntry(a, lost);
    steps, s := GivenBack(LATE_STARTS, steps, s, a, f, 121.0);
    steps, s := Overtaken(LATE_STARTS, steps, s, Apply(a, lost), f);
    steps := Started(LATE_STARTS, steps, s, 0, 1);
    TwoUpdated(Apply(a, lost), b, Apply(Apply(a, lost), OpRunning));
    s := s.(store := Two(Apply(Apply(a, lost), OpRunning), b), tasks := s.tasks[(0, 1) := Submitting]);
  }

  lemma LateRows(a: Entry, b: Entry)
    requires a == Apply(Fresh(7, "a"), ClaimOp(0.0)) && b == Apply(Fresh(7, "b"), ClaimOp(121.0))
    ensures var lost := Apply(a, LostOp(RP.SeenOf(a), 121.0));
            && lost.job.state.RetryWait? && lost.job.user == b.job.user == 7 && lost.job.kind == b.job.kind == KIND
            && Replay(lost.log).phase == WaitingRetry
            && lost.job.key == "a" && b.job.key == "b" && lost.job.conversation == b.job.conversation == None
            && b.job.state.Dispatched?
  {
    hide Apply, RP.SeenOf, LostOp, EntryInv, Created, Claims, Replay, AppendEvent;
    FreshEntry(7, "a");
    FreshEntry(7, "b");
    ClaimedEntry(Fresh(7, "a"), 0.0);
    ClaimedEntry(Fresh(7, "b"), 121.0);
    LostPhase(a, LostOp(RP.SeenOf(a), 121.0));
    RetriedEntry(a, LostOp(RP.SeenOf(a), 121.0));
  }

  /** Without startsInTime: the user is past the cap, the lane past its slot, and the log of the job says
      waiting to retry while its row says running. */
  lemma LateStartBreaksCap() returns (steps: seq<Step>)
    ensures Legal(LATE_STARTS, CFG, Initial(0.0), steps)
    ensures var store := Run(LATE_STARTS, CFG, Initial(0.0), steps).store;
            && ActiveCount(Rows(store), 7) == CFG.maxActive + 1
            && |LaneActive(store, Comfyui)| == CFG.comfySlots + 1
            && 0 in store && Replay(store[0].log).phase == WaitingRetry && PhaseOf(store[0].job.state) == InFlight
  {
    hide Apply, RP.SeenOf, LostOp, Created, Legal, Run, LaneActive, ActiveCount, Replay, Two;
    var a, b := Apply(Fresh(7, "a"), ClaimOp(0.0)), Apply(Fresh(7, "b"), ClaimOp(121.0));
    var s;
    steps, s := LateStarted(a, b);
    LateRows(a, b);
    LiftedState(Apply(a, LostOp(RP.SeenOf(a), 121.0)), b);
  }

  /** And with both jobs active there is room for a third: more live jobs than the two caps together, although
      no two admissions ever overlapped. */
  lemma LateStartBreaksLiveBound() returns (steps: seq<Step>)
    ensures Legal(LATE_STARTS, CFG, Initial(0.0), steps)
    ensures Peak(LATE_STARTS, CFG, Initial(0.0), steps, OfUser(7)) <= 1
    ensures var m := Rows(Run(LATE_STARTS, CFG, Initial(0.0), steps).store);
            Solo(m, 7) && |LiveOfUser(m, 7)| == CFG.caps.maxQueued + CFG.maxActive + 1
  {
    hide Apply, RP.SeenOf, LostOp, Created, Gets, Replay, Two;
    var a, b := Apply(Fresh(7, "a"), ClaimOp(0.0)), Apply(Fresh(7, "b"), ClaimOp(121.0));
    var s;
    steps, s := LateStarted(a, b);
    LateRows(a, b);
    var lost := Apply(a, LostOp(RP.SeenOf(a), 121.0));
    StartedRow(lost);
    steps := Admitted(LATE_STARTS, steps, s, 0, 7, "c", 2);
    var c := Created(AP.NewJob(Ask(7, "c"), s.clock), s.clock);
    CreatedRow(AP.NewJob(Ask(7, "c"), s.clock), s.clock);
    ThreeLive(s.store[2 := c]);
    GetsMeans(LATE_STARTS, steps, s.(store := s.store[2 := c]));
    NobodyCounted(Initial(0.0), OfUser(7));
    hide Legal, Run, Peak;
    SerialPeak(LATE_STARTS, CFG, Initial(0.0), steps, OfUser(7));
  }

  lemma StartedRow(e: Entry)
    requires e.job.state.RetryWait?
    ensures Apply(e, OpRunning).job == e.job.(state := Running)
  {
  }

  lemma CreatedRow(j: Job, now: Time)
    ensures IdentityOf(Created(j, now).job) == IdentityOf(j) && Created(j, now).job.state == j.state
  {
  }

  lemma ThreeLive(s: Store)
    requires s.Keys == {0, 1, 2}
    requires forall x :: x in s ==> s[x].job.user == 7 && s[x].job.conversation.None? && !IsTerminal(s[x].job.state)
    ensures Solo(Rows(s), 7) && |LiveOfUser(Rows(s), 7)| == 3
  {
    assert LiveOfUser(Rows(s), 7) == {0, 1, 2};
  }

  // ---- overlapping admissions ---------------------------------------------------------------

  lemma LooksUp(h: Hypotheses, steps: seq<Step>, s: System, r: Id, user: Id, key: string) returns (more: seq<Step>)
    requires Gets(h, steps, s) && r !in s.admissions && HasRoom(s.store, user) && FreeKey(s.store, key)
    ensures Gets(h, more, Asking(s, r, Ask(user, key), LookedUp))
  {
    hide Gets, Next, Enabled, Allowed, HasRoom, FreeKey, AP.GlobalFull, AP.OwnFull, Asking;
    RoomMeans(s.store, user, key);
    LookupStep(h, CFG, s, r, Ask(user, key), None);
    more := Then(h, steps, s, AdmitLookup(r, Ask(user, key), None), Asking(s, r, Ask(user, key), LookedUp));
  }

  /** From the look-up to the position. */
  lemma Counts(h: Hypotheses, steps: seq<Step>, s: System, r: Id, user: Id, key: string) returns (more: seq<Step>)
    requires Gets(h, steps, Asking(s, r, Ask(user, key), LookedUp)) && r !in s.admissions
    requires (h.serialAdmissions ==> NoneCounted(s)) && HasRoom(s.store, user) && BackendForKind(KIND).Some?
    ensures Gets(h, more, Asking(s, r, Ask(user, key), Positioned(LaneSize(s.store, KIND), s.clock)))
  {
    hide Gets, Next, Enabled, Allowed, HasRoom, NoneCounted, AP.GlobalFull, AP.OwnFull, Asking, CountedFor, LaneSize, KindsForBackend;
    var request := Ask(user, key);
    RoomMeans(s.store, user, key);
    if h.serialAdmissions { NobodyCounted(s, BucketOf(request)); }
    GlobalStep(h, CFG, s, r, request);
    more := Then(h, steps, Asking(s, r, request, LookedUp), AdmitGlobal(r), Asking(s, r, request, GlobalCounted));
    OwnStep(h, CFG, s, r, request);
    more := Then(h, more, Asking(s, r, request, GlobalCounted), AdmitOwn(r), Asking(s, r, request, OwnCounted));
    PositionStep(h, CFG, s, r, request);
    more := Then(h, more, Asking(s, r, request, OwnCounted), AdmitPosition(r),
                 Asking(s, r, request, Positioned(LaneSize(s.store, KIND), s.clock)));
  }

  /** A request of a user with one job running has been counted and told its position, and then a second
      request of that user is admitted. */
  lemma OneInBetween(h: Hypotheses, e: Entry) returns (steps: seq<Step>, w: System)
    requires !h.serialAdmissions && e == Fresh(7, "a")
    ensures Gets(h, steps, w) && w.clock == 1.0 && w.admissions == map[1 := Protocol.Admission(Ask(7, "c"), Positioned(0, 0.0))]
    ensures w.store == Two(Apply(e, ClaimOp(0.0)), Fresh(7, "b"))
  {
    hide Gets, Apply, Created, Claims, EntryInv, KindsForBackend, Asking, LaneSize, Two, RP.SeenOf;
    var s;
    steps, s := OneActive(h, e);
    FreshEntry(7, "a");
    ClaimedEntry(e, 0.0);
    Kinds();
    EmptyLane(s.store);
    steps := LooksUp(h, steps, s, 1, 7, "c");
    steps := Counts(h, steps, s, 1, 7, "c");
    AskingMeans(s, 1, Ask(7, "c"), Positioned(0, 0.0));
    w := Asking(s, 1, Ask(7, "c"), Positioned(0, 0.0));
    steps := Admitted(h, steps, w, 2, 7, "b", 1);
    TwoUpdated(Apply(e, ClaimOp(0.0)), Fresh(7, "b"), e);
    w := w.(store := Two(Apply(e, ClaimOp(0.0)), Fresh(7, "b")));
    steps := Waited(h, steps, w, 1.0);
    w := w.(clock := 1.0);
  }

  /** Without serialAdmissions: now the first request is inserted too. The user has more live jobs than the two
      caps together allow, and the job is behind one other although its reported position is 0. */
  lemma OverlapBreaksCaps() returns (before: seq<Step>, insert: Step)
    ensures Legal(OVERLAPPING_ADMISSIONS, CFG, Initial(0.0), before + [insert])
    ensures Legal(OVERLAPPING_ADMISSIONS, CFG, Initial(0.0), before)
    ensures var mid := Run(OVERLAPPING_ADMISSIONS, CFG, Initial(0.0), before);
            var s := Run(OVERLAPPING_ADMISSIONS, CFG, Initial(0.0), before + [insert]);
            && Solo(Rows(s.store), 7)
            && |LiveOfUser(Rows(s.store), 7)| == CFG.caps.maxQueued + CFG.maxActive + 1
            && insert.AdmitInsert? && insert.r in mid.admissions && mid.admissions[insert.r].stage.Positioned?
            && mid.admissions[insert.r].stage.position == 0 && insert.id in s.store
            && |Ahead(Rows(s.store), Aging(s), Some(KindsForBackend(Comfyui)), insert.id)| == 1
  {
    hide Apply, Created, Claims, EntryInv, Legal, Run, KindsForBackend, Two, RP.SeenOf, Enabled, Next, Allowed;
    var e, c := Fresh(7, "a"), Created(AP.NewJob(Ask(7, "c"), 1.0), 1.0);
    FreshEntry(7, "a");
    FreshEntry(7, "b");
    ClaimedEntry(e, 0.0);
    var w;
    before, w := OneInBetween(OVERLAPPING_ADMISSIONS, e);
    insert := AdmitInsert(1, 2, 1.0);
    Inserts(OVERLAPPING_ADMISSIONS, w, c);
    RunSnoc(OVERLAPPING_ADMISSIONS, CFG, Initial(0.0), before, insert);
    hide LiveOfUser, Ahead, Solo;
    Crowded(w.store[2 := c], AgedPriority(1.0, 0.5));
  }

  lemma EmptyLane(s: Store)
    requires BackendForKind(KIND).Some? && forall x :: x in s ==> !IsBacklog(s[x].job.state)
    ensures LaneSize(s, KIND) == 0
  {
    assert Lane(Rows(s), Some(KindsForBackend(BackendForKind(KIND).value))) == {};
  }

  lemma AskingMeans(s: System, r: Id, request: AP.Request, stage: Stage)
    ensures Asking(s, r, request, stage) == s.(admissions := s.admissions[r := Protocol.Admission(request, stage)])
  {
  }

  lemma Inserts(h: Hypotheses, w: System, c: Entry)
    requires w.clock == 1.0 && w.admissions == map[1 := Protocol.Admission(Ask(7, "c"), Positioned(0, 0.0))]
    requires 2 !in w.store && forall x :: x in w.store ==> w.store[x].job.key != "c"
    requires c == Created(AP.NewJob(Ask(7, "c"), 1.0), 1.0)
    ensures Enabled(CFG, w, AdmitInsert(1, 2, 1.0)) && Allowed(h, w, AdmitInsert(1, 2, 1.0))
    ensures c.job == AP.NewJob(Ask(7, "c"), 1.0).(availableAt := Some(1.0))
    ensures Next(CFG, w, AdmitInsert(1, 2, 1.0)) == w.(store := w.store[2 := c], admissions := map[])
  {
    assert AP.SameKey(Rows(w.store), 7, "c", KIND) == {};
    assert w.admissions - {1} == map[];
  }

  lemma Crowded(s: Store, o: Order)
    requires s.Keys == {0, 1, 2} && o.AgedPriority? && o.rate == 0.5
    requires s[0].job == AP.NewJob(Ask(7, "a"), 0.0).(availableAt := Some(0.0), state := Dispatched)
    requires s[1].job == AP.NewJob(Ask(7, "b"), 0.0).(availableAt := Some(0.0))
    requires s[2].job == AP.NewJob(Ask(7, "c"), 1.0).(availableAt := Some(1.0))
    ensures Solo(Rows(s), 7) && |LiveOfUser(Rows(s), 7)| == 3
    ensures |Ahead(Rows(s), o, Some(KindsForBackend(Comfyui)), 2)| == 1
  {
    Kinds();
    hide KindsForBackend;
    assert LiveOfUser(Rows(s), 7) == {0, 1, 2};
    assert Ahead(Rows(s), o, Some(KindsForBackend(Comfyui)), 2) == {1};
  }

  // ---- two schedulers -------------------------------------------------------------------------

  lemma TwoWaiting(h: Hypotheses) returns (steps: seq<Step>)
    ensures Gets(h, steps, Initial(0.0).(store := Two(Fresh(7, "a"), Fresh(8, "b"))))
  {
    hide Created, Two, Gets;
    FreshEntry(7, "a");
    TwoUpdated(Fresh(7, "a"), Fresh(8, "b"), Fresh(7, "a"));
    steps := Begun(h);
    steps := Admitted(h, steps, Initial(0.0), 0, 7, "a", 0);
    steps := Admitted(h, steps, Initial(0.0).(store := map[0 := Fresh(7, "a")]), 0, 8, "b", 1);
  }

  /** Both schedulers have counted one free slot. */
  lemma TwoReserved(h: Hypotheses) returns (steps: seq<Step>, s: System)
    requires !h.oneScheduler
    ensures Gets(h, steps, s) && s.clock == 0.0 && s.store == Two(Fresh(7, "a"), Fresh(8, "b"))
    ensures Budget(s, 0, Comfyui) == Budget(s, 1, Comfyui) == 1
  {
    hide Created, Two, Gets;
    FreshEntry(7, "a");
    FreshEntry(8, "b");
    steps := TwoWaiting(h);
    s := Initial(0.0).(store := Two(Fresh(7, "a"), Fresh(8, "b")));
    steps := Reserves(h, steps, s, 0);
    s := WithBudget(s, 0, Comfyui, 1);
    steps := Reserves(h, steps, s, 1);
    s := WithBudget(s, 1, Comfyui, 1);
  }

  /** Without oneScheduler: both count the one slot as free, and each claims a job. */
  lemma TwoSchedulersFillOneSlot() returns (steps: seq<Step>)
    ensures Legal(TWO_SCHEDULERS, CFG, Initial(0.0), steps)
    ensures |LaneActive(Run(TWO_SCHEDULERS, CFG, Initial(0.0), steps).store, Comfyui)| == CFG.comfySlots + 1
  {
    hide Apply, Created, EntryInv, Claims, RP.SeenOf, Two, LaneActive, Gets;
    var a, b := Fresh(7, "a"), Fresh(8, "b");
    FreshEntry(7, "a");
    FreshEntry(8, "b");
    ClaimedEntry(a, 0.0);
    ClaimedEntry(b, 0.0);
    var a', b' := Apply(a, ClaimOp(0.0)), Apply(b, ClaimOp(0.0));
    TwoUpdated(a, b, a');
    TwoUpdated(a', b, b');
    var s;
    steps, s := TwoReserved(TWO_SCHEDULERS);
    steps := Takes(TWO_SCHEDULERS, steps, s, 0, 0);
    s := Taken(s, 0, 0);
    steps := Takes(TWO_SCHEDULERS, steps, s, 1, 1);
    BothActive(a', b');
    GetsMeans(TWO_SCHEDULERS, steps, Taken(s, 1, 1));
  }

  lemma GetsMeans(h: Hypotheses, steps: seq<Step>, s: System)
    requires Gets(h, steps, s)
    ensures Legal(h, CFG, Initial(0.0), steps) && Run(h, CFG, Initial(0.0), steps) == s
  {
  }

  lemma BothActive(a: Entry, b: Entry)
    requires IsActive(a.job.state) && IsActive(b.job.state) && a.job.kind == b.job.kind == KIND
    ensures |LaneActive(Two(a, b), Comfyui)| == 2
  {
    Kinds();
    hide KindsForBackend;
    assert LaneActive(Two(a, b), Comfyui) == {0, 1};
  }

  // ---- submits that raise -----------------------------------------------------------------------

  /** One job, waiting and claimable, after n retries. */
  predicate Retried(s: System, n: nat) {
    && s.store.Keys == {0} && Waits(s, 0) && Tied(s.store)
    && s.store[0].job.attempt == n && s.store[0].job.maxAttempts == AP.DEFAULT_MAX_ATTEMPTS
  }

  lemma Raises(h: Hypotheses, steps: seq<Step>, s: System, id: Id, no: nat) returns (more: seq<Step>, t: System)
    requires Gets(h, steps, s) && !h.submitsReturn && id in s.store && (id, no) in s.tasks
    ensures Gets(h, more, t)
    ensures var raised := RaisedOp(s.store[id], "dispatch_error:TimeoutError", 0.0, s.clock);
            t == s.(tasks := t.tasks, store := s.store[id := Apply(s.store[id], raised)])
  {
    hide Gets, Apply, RaisedOp;
    var step := DispatchRaised(id, no, "dispatch_error:TimeoutError", 0.0);
    t := Next(CFG, s, step);
    more := Then(h, steps, s, step, t);
  }

  lemma StartedEntry(e: Entry)
    requires EntryInv(e) && IsActive(e.job.state)
    ensures var e' := Apply(e, OpRunning);
            EntryInv(e') && e'.job == e.job.(state := Running) && e'.log == e.log && e'.attempts == e.attempts &&
            RP.SeenOf(e') == RP.SeenOf(e)
  {
    ApplyInv(e, OpRunning);
  }

  lemma RaisedOnce(h: Hypotheses, steps: seq<Step>, s: System, e: Entry, n: nat) returns (more: seq<Step>, t: System)
    requires !h.submitsReturn && Gets(h, steps, s) && Retried(s, n) && e == s.store[0] && EntryInv(e)
    ensures Gets(h, more, t) && Retried(t, n + 1)
    ensures EntryInv(t.store[0]) && Claims(t.store[0].log) == Claims(e.log) + 1
  {
    hide Gets, Apply, EntryInv, Claims, RP.SeenOf, Retry.BackoffSeconds;
    ClaimedEntry(e, s.clock);
    var a := Apply(e, ClaimOp(s.clock));
    StartedEntry(a);
    var b := Apply(a, OpRunning);
    var raised := RaisedOp(b, "dispatch_error:TimeoutError", 0.0, s.clock);
    RetriedEntry(b, raised);
    more, t := Claimed(h, steps, s, 0);
    more := Started(h, more, t, 0, n + 1);
    t := t.(store := t.store[0 := b], tasks := t.tasks[(0, n + 1) := Submitting]);
    more, t := Raises(h, more, t, 0, n + 1);
    NeverNegative(n + 1);
    more := Waited(h, more, t, raised.delay);
    t := t.(clock := t.clock + raised.delay);
  }

  lemma NeverNegative(n: nat)
    ensures Retry.BackoffSeconds(n, 0.0) >= 0.0
  {
  }

  /** Without submitsReturn: mark_retry_wait is called without asking is_retryable, so a job whose every submit
      raises is retried without end: for every n there is a run in which it has been claimed and retried n
      times, its maximum of three notwithstanding. */
  lemma {:induction false} RaisingSubmitsNeverStop(n: nat) returns (steps: seq<Step>, s: System)
    ensures Legal(RAISING_SUBMITS, CFG, Initial(0.0), steps) && s == Run(RAISING_SUBMITS, CFG, Initial(0.0), steps)
    ensures Retried(s, n) && EntryInv(s.store[0]) && Claims(s.store[0].log) == n
  {
    hide Legal, Run, EntryInv, Claims, Waits, Tied;
    if n == 0 {
      steps, s := OneWaiting(RAISING_SUBMITS);
    } else {
      steps, s := RaisingSubmitsNeverStop(n - 1);
      steps, s := RaisedOnce(RAISING_SUBMITS, steps, s, s.store[0], n - 1);
    }
  }

  lemma OneWaiting(h: Hypotheses) returns (steps: seq<Step>, s: System)
    ensures Gets(h, steps, s) && Retried(s, 0) && EntryInv(s.store[0]) && Claims(s.store[0].log) == 0
  {
    hide Gets, EntryInv, Claims, Created;
    FreshEntry(7, "a");
    steps := Begun(h);
    steps := Admitted(h, steps, Initial(0.0), 0, 7, "a", 0);
    s := Initial(0.0).(store := map[0 := Fresh(7, "a")]);
  }

  // ---- a second attempt -------------------------------------------------------------------------

  /** The entry of a job that was claimed at `at`, lost its lease, was retried and claimed again. */
  function Reclaimed(e: Entry, at: Time): Entry {
    var delay := Retry.BackoffSeconds(e.job.attempt + 1, 0.0);
    Apply(Apply(e, LostOp(RP.SeenOf(e), at + 121.0)), ClaimOp(at + 121.0 + delay))
  }

  /** A claimed job, its lease not yet run out, no prompt id shown. */
  ghost predicate Held(e: Entry, n: nat, at: Time) {
    && EntryInv(e) && IsActive(e.job.state) && e.job.kind == KIND && e.job.queuedAt == 0.0 && e.job.priority == 0
    && e.job.attempt == n
    && RP.SeenOf(e) == RP.Seen(n, AP.DEFAULT_MAX_ATTEMPTS, None, Some(at + LEASE), 0.0)
    && e.job.maxAttempts == AP.DEFAULT_MAX_ATTEMPTS
  }

  lemma ReclaimedEntry(e: Entry, n: nat, at: Time)
    requires Held(e, n, at)
    ensures Held(Reclaimed(e, at), n + 1, at + 121.0 + Retry.BackoffSeconds(n + 1, 0.0))
    ensures Claims(Reclaimed(e, at).log) == Claims(e.log) + 1
  {
    hide Apply, EntryInv, Claims, RP.SeenOf, Retry.BackoffSeconds;
    RetriedEntry(e, LostOp(RP.SeenOf(e), at + 121.0));
    ClaimedEntry(Apply(e, LostOp(RP.SeenOf(e), at + 121.0)), at + 121.0 + Retry.BackoffSeconds(n + 1, 0.0));
  }

  /** Reconciler k, which has read the job after its lease ran out, gives it back; after the delay it is
      claimed again. */
  lemma Reclaims(h: Hypotheses, steps: seq<Step>, s: System, e: Entry, n: nat, at: Time, k: Id)
    returns (more: seq<Step>, t: System)
    requires Gets(h, steps, s) && (h.oneReconciler ==> k == 0) && s.clock == at + 121.0
    requires s.store == map[0 := e] && Held(e, n, at) && n + 1 < AP.DEFAULT_MAX_ATTEMPTS
    requires 0 in PassRows(s, k) && s.passes[k].at == s.clock && s.passes[k].rows[0] == RP.SeenOf(e)
    ensures Gets(h, more, t) && t.store == map[0 := Reclaimed(e, at)] && t.admissions == s.admissions
    ensures t.clock == s.clock + Retry.BackoffSeconds(n + 1, 0.0)
    ensures t.tasks == s.tasks[(0, n + 2) := ToStart]
    ensures forall x :: x in s.passes && x != k ==> x in t.passes && t.passes[x] == s.passes[x]
  {
    hide Gets, Apply, EntryInv, RP.SeenOf, LostOp, Retry.BackoffSeconds, Retry.RawBackoff;
    var lost := LostOp(RP.SeenOf(e), s.clock);
    RetriedEntry(e, lost);
    LostDelay(RP.SeenOf(e), s.clock);
    NeverNegative(n + 1);
    more, t := Resolves(h, steps, s, k, 0, RP.SeenOf(e));
    more := Waited(h, more, t, lost.delay);
    more, t := ClaimedAlone(h, more, t.(clock := t.clock + lost.delay), Apply(e, lost));
  }

  lemma HeldAgain(h: Hypotheses, steps: seq<Step>, s: System, e: Entry, n: nat) returns (more: seq<Step>, t: System)
    requires Gets(h, steps, s) && s.store == map[0 := e] && Held(e, n, s.clock) && n + 1 < AP.DEFAULT_MAX_ATTEMPTS
    ensures Gets(h, more, t) && t.store == map[0 := Reclaimed(e, s.clock)]
    ensures t.clock == s.clock + 121.0 + Retry.BackoffSeconds(n + 1, 0.0)
    ensures t.tasks == s.tasks[(0, n + 2) := ToStart]
  {
    hide Gets, Reclaimed, EntryInv, RP.SeenOf, Retry.BackoffSeconds;
    more := Waited(h, steps, s, 121.0);
    more, t := Begins(h, more, s.(clock := s.clock + 121.0), 0, 0);
    more, t := Reclaims(h, more, t, e, n, s.clock, 0);
  }

  lemma LostDelay(seen: RP.Seen, at: Time)
    ensures LostOp(seen, at).delay == Retry.BackoffSeconds(seen.attempt + 1, 0.0)
  {
  }

  lemma FirstHeld(e: Entry)
    requires e == Fresh(7, "a")
    ensures Held(Apply(e, ClaimOp(0.0)), 0, 0.0) && Claims(Apply(e, ClaimOp(0.0)).log) == 1
  {
    hide Apply, EntryInv, Claims, RP.SeenOf;
    FreshEntry(7, "a");
    ClaimedEntry(e, 0.0);
  }

  // ---- two reconcilers --------------------------------------------------------------------------

  /** Both reconcilers read the job after its lease has run out; the first gives it back, and after the delay
      it is claimed once more. The second still has the job as it was. */
  lemma ReadByBoth(h: Hypotheses, steps: seq<Step>, s: System, e: Entry, n: nat) returns (more: seq<Step>, t: System)
    requires !h.oneReconciler && Gets(h, steps, s)
    requires s.store == map[0 := e] && Held(e, n, s.clock) && n + 1 < AP.DEFAULT_MAX_ATTEMPTS
    ensures Gets(h, more, t) && t.store == map[0 := Reclaimed(e, s.clock)]
    ensures t.clock == s.clock + 121.0 + Retry.BackoffSeconds(n + 1, 0.0)
    ensures 1 in t.passes && t.passes[1].at == s.clock + 121.0
    ensures 0 in t.passes[1].rows && t.passes[1].rows[0] == RP.SeenOf(e)
  {
    hide Gets, Reclaimed, EntryInv, RP.SeenOf, Retry.BackoffSeconds;
    more := Waited(h, steps, s, 121.0);
    more, t := Begins(h, more, s.(clock := s.clock + 121.0), 1, 0);
    more, t := Begins(h, more, t, 0, 0);
    more, t := Reclaims(h, more, t, e, n, s.clock, 0);
  }

  lemma ReadTwice() returns (steps: seq<Step>, s: System, e: Entry)
    ensures Gets(TWO_RECONCILERS, steps, s) && s.clock == 248.0
    ensures s.store == map[0 := e] && Held(e, 2, 248.0) && Claims(e.log) == 3
    ensures 1 in s.passes && s.passes[1].at == 244.0 && 0 in s.passes[1].rows
    ensures s.passes[1].rows[0] == RP.Seen(1, AP.DEFAULT_MAX_ATTEMPTS, None, Some(243.0), 0.0)
  {
    hide Gets, Apply, Created, Claims, RP.SeenOf, Reclaimed, EntryInv, Retry.BackoffSeconds;
    var a := Apply(Fresh(7, "a"), ClaimOp(0.0));
    FirstHeld(Fresh(7, "a"));
    Delays();
    ReclaimedEntry(a, 0, 0.0);
    ReclaimedEntry(Reclaimed(a, 0.0), 1, 123.0);
    e := Reclaimed(Reclaimed(a, 0.0), 123.0);
    steps, s := OneActive(TWO_RECONCILERS, Fresh(7, "a"));
    steps, s := HeldAgain(TWO_RECONCILERS, steps, s, a, 0);
    steps, s := ReadByBoth(TWO_RECONCILERS, steps, s, Reclaimed(a, 0.0), 1);
  }

  /** The last two events of a job that was retried and claimed again. */
  lemma EarlyEvents(e: Entry, lost: Op, claim: Op)
    requires EntryInv(e) && IsActive(e.job.state) && lost.OpRetryWait? && claim.OpClaim?
    ensures var log := Apply(Apply(e, lost), claim).log;
            var i := |log| - 2;
            && i >= 0 && log[i].body.EvRetry? && log[i].at == lost.now
            && log[i + 1].body.EvDispatched? && log[i + 1].at == claim.now
            && Retries(log[..i + 1]) == e.job.attempt + 1
  {
    hide Replay, Claims;
    var b := Apply(e, lost);
    ApplyInv(e, lost);
    AppendFacts(e.log, EvRetry(lost.code, lost.detail, lost.delay), lost.now);
    AppendFacts(b.log, EvDispatched(b.job.attempt + 1), claim.now);
    assert Apply(b, claim).log[..|b.log|] == b.log;
  }

  /** Without oneReconciler: the second acts on the first attempt's expired lease and takes the job away from
      its third attempt. The job reaches its maximum, is claimed a fourth time, and that sooner after its third
      retry than any backoff of a third retry is. */
  lemma StaleReconcilerPassesMaximum() returns (steps: seq<Step>)
    ensures Legal(TWO_RECONCILERS, CFG, Initial(0.0), steps)
    ensures var store := Run(TWO_RECONCILERS, CFG, Initial(0.0), steps).store;
            0 in store &&
            var e, log := store[0], store[0].log;
            && e.job.attempt == e.job.maxAttempts == 3 && Claims(log) == 4
            && |log| >= 2 && log[|log| - 2].body.EvRetry? && log[|log| - 1].body.EvDispatched?
            && log[|log| - 1].at < log[|log| - 2].at + Retry.ShortestDelay(Retries(log[..|log| - 1]))
  {
    hide Gets, Apply, Claims, RP.SeenOf, EntryInv, Retries, Retry.BackoffSeconds, Retry.ShortestDelay;
    var s, e;
    steps, s, e := ReadTwice();
    Delays();
    var seen := s.passes[1].rows[0];
    var lost := LostOp(seen, 248.0);
    RetriedEntry(e, lost);
    ClaimedEntry(Apply(e, lost), 252.0);
    EarlyEvents(e, lost, ClaimOp(252.0));
    steps, s := Resolves(TWO_RECONCILERS, steps, s, 1, 0, seen);
    steps := Waited(TWO_RECONCILERS, steps, s, 4.0);
    steps, s := ClaimedAlone(TWO_RECONCILERS, steps, s.(clock := 252.0), Apply(e, lost));
    GetsMeans(TWO_RECONCILERS, steps, s);
  }

  // ---- a late prompt id ---------------------------------------------------------------------------

  lemma SecondAttempt(e: Entry, at: Time)
    requires Held(e, 0, at) && e.attempts.Keys == {1} && e.attempts[1].promptId == None
    ensures var e' := Reclaimed(e, at);
            && e'.attempts.Keys == {1, 2} && LatestNo(e'.attempts) == 2 && e'.attempts[1].promptId == None
            && e'.job.state.Dispatched?
  {
    hide Replay, Claims, Retry.BackoffSeconds, Numbered, EndsRight, ErrorsRight;
    assert LatestNo(e.attempts) == 1;
    var lost := LostOp(RP.SeenOf(e), at + 121.0);
    ApplyInv(e, lost);
    ClaimIsFresh(Apply(e, lost), "scheduler", at + 121.0 + Retry.BackoffSeconds(1, 0.0) + LEASE,
                 at + 121.0 + Retry.BackoffSeconds(1, 0.0));
  }

  lemma FirstAttempt(e: Entry)
    requires e == Fresh(7, "a")
    ensures var b := Apply(Apply(e, ClaimOp(0.0)), OpRunning);
            Held(b, 0, 0.0) && b.attempts.Keys == {1} && b.attempts[1].promptId == None
  {
    hide EntryInv, Claims, RP.SeenOf;
    FirstHeld(e);
    StartedEntry(Apply(e, ClaimOp(0.0)));
  }

  /** With every hypothesis kept: a submit that returns only after its job was given back and claimed again
      writes its prompt id on the second attempt, whose own dispatch has not begun; the attempt the id belongs
      to never shows it. */
  lemma LatePromptShowsOnNextAttempt() returns (steps: seq<Step>)
    ensures Legal(ALL_OF_THEM, CFG, Initial(0.0), steps)
    ensures var s := Run(ALL_OF_THEM, CFG, Initial(0.0), steps);
            && steps != [] && steps[|steps| - 1] == SetPrompt(0, 1, "prompt")
            && 0 in s.store && s.store[0].attempts.Keys == {1, 2} && s.store[0].job.state.Dispatched?
            && Dispatching(s, 0, 2)
            && ShownPrompt(s.store[0]) == Some("prompt")
            && s.store[0].attempts[2].promptId == Some("prompt") && s.store[0].attempts[1].promptId == None
  {
    var s;
    steps, s := SecondDispatch();
    var e := s.store[0];
    var step := SetPrompt(0, 1, "prompt");
    assert Enabled(CFG, s, step) && Allowed(ALL_OF_THEM, s, step);
    RunSnoc(ALL_OF_THEM, CFG, Initial(0.0), steps, step);
    steps := steps + [step];
    PromptWritten(e);
    hide Legal, Run, Apply;
  }

  lemma PromptWritten(e: Entry)
    requires e.attempts.Keys == {1, 2} && LatestNo(e.attempts) == 2
    ensures var e' := Apply(e, OpSetPrompt("prompt"));
            && e'.attempts.Keys == {1, 2} && ShownPrompt(e') == Some("prompt")
            && e'.attempts[2].promptId == Some("prompt") && e'.attempts[1] == e.attempts[1] && e'.job == e.job
  {
    var e' := Apply(e, OpSetPrompt("prompt"));
    SameGreatest(e.attempts, e'.attempts);
  }

  /** The first dispatch is still submitting when the job is claimed a second time. */
  lemma SecondDispatch() returns (steps: seq<Step>, s: System)
    ensures Gets(ALL_OF_THEM, steps, s) && s.store.Keys == {0}
    ensures (0, 1) in s.tasks && s.tasks[(0, 1)].Submitting? && Dispatching(s, 0, 2)
    ensures var e := s.store[0];
            && e.attempts.Keys == {1, 2} && LatestNo(e.attempts) == 2 && e.attempts[1].promptId == None
            && e.job.state.Dispatched?
  {
    hide Gets, Apply, Created, Claims, RP.SeenOf, Reclaimed, EntryInv, Retry.BackoffSeconds, LatestNo;
    var e := Fresh(7, "a");
    var a := Apply(e, ClaimOp(0.0));
    FirstHeld(e);
    FirstAttempt(e);
    SecondAttempt(Apply(a, OpRunning), 0.0);
    steps, s := OneActive(ALL_OF_THEM, e);
    steps := Started(ALL_OF_THEM, steps, s, 0, 1);
    assert s.store[0 := Apply(a, OpRunning)] == map[0 := Apply(a, OpRunning)];
    s := s.(store := map[0 := Apply(a, OpRunning)], tasks := s.tasks[(0, 1) := Submitting]);
    steps, s := HeldAgain(ALL_OF_THEM, steps, s, Apply(a, OpRunning), 0);
  }

  // ---- a raise between a snapshot and its use ---------------------------------------------------

  /** The first dispatch raises after the reconciler has read the job, and the job is claimed again; the
      reconciler still has it at its first attempt, whose lease has run out. */
  lemma RaisedUnderPass() returns (steps: seq<Step>, s: System, e: Entry)
    ensures Gets(RAISING_SUBMITS, steps, s) && s.clock == 123.0 && s.store == map[0 := e]
    ensures EntryInv(e) && IsActive(e.job.state) && e.job.attempt == 1
    ensures e.job.kind == KIND && e.job.queuedAt == 0.0 && e.job.priority == 0
    ensures 0 in PassRows(s, 0) && s.passes[0].at == 121.0
    ensures s.passes[0].rows[0] == RP.Seen(0, AP.DEFAULT_MAX_ATTEMPTS, None, Some(120.0), 0.0)
  {
    hide Gets, Apply, Created, Claims, RP.SeenOf, EntryInv, RaisedOp;
    var a := Apply(Fresh(7, "a"), ClaimOp(0.0));
    FirstHeld(Fresh(7, "a"));
    StartedEntry(a);
    var b := Apply(a, OpRunning);
    var raised := RaisedOp(b, "dispatch_error:TimeoutError", 0.0, 121.0);
    RaisedMeans(b, 121.0);
    RetriedEntry(b, raised);
    ClaimedEntry(Apply(b, raised), 123.0);
    e := Apply(Apply(b, raised), ClaimOp(123.0));
    steps, s := OneActive(RAISING_SUBMITS, Fresh(7, "a"));
    steps := Started(RAISING_SUBMITS, steps, s, 0, 1);
    assert s.store[0 := b] == map[0 := b];
    s := s.(store := map[0 := b], tasks := s.tasks[(0, 1) := Submitting]);
    steps := Waited(RAISING_SUBMITS, steps, s, 121.0);
    steps, s := Begins(RAISING_SUBMITS, steps, s.(clock := 121.0), 0, 0);
    steps, s := Raises(RAISING_SUBMITS, steps, s, 0, 1);
    steps := Waited(RAISING_SUBMITS, steps, s, 2.0);
    steps, s := ClaimedAlone(RAISING_SUBMITS, steps, s.(clock := 123.0), Apply(b, raised));
  }

  lemma RaisedMeans(e: Entry, now: Time)
    requires e.job.attempt == 0
    ensures var raised := RaisedOp(e, "dispatch_error:TimeoutError", 0.0, now);
            raised.OpRetryWait? && raised.now == now && raised.delay == 2.0
  {
    Delays();
    hide Retry.BackoffSeconds;
  }

  /** Without submitsReturn: that reconciler schedules the second retry with the backoff of the first, and the
      job is claimed again sooner than any second backoff is. */
  lemma RaiseUnderPassIsEarly() returns (steps: seq<Step>)
    ensures Legal(RAISING_SUBMITS, CFG, Initial(0.0), steps)
    ensures var store := Run(RAISING_SUBMITS, CFG, Initial(0.0), steps).store;
            0 in store &&
            var log := store[0].log;
            && |log| >= 2 && log[|log| - 2].body.EvRetry? && log[|log| - 1].body.EvDispatched?
            && Retries(log[..|log| - 1]) == 2
            && log[|log| - 1].at < log[|log| - 2].at + Retry.ShortestDelay(2)
  {
    hide Gets, Apply, Claims, RP.SeenOf, EntryInv, Retries, Retry.BackoffSeconds, Retry.ShortestDelay;
    var s, e;
    steps, s, e := RaisedUnderPass();
    Delays();
    var seen := s.passes[0].rows[0];
    var lost := LostOp(seen, 123.0);
    RetriedEntry(e, lost);
    EarlyEvents(e, lost, ClaimOp(125.0));
    steps, s := Resolves(RAISING_SUBMITS, steps, s, 0, 0, seen);
    steps := Waited(RAISING_SUBMITS, steps, s, 2.0);
    steps, s := ClaimedAlone(RAISING_SUBMITS, steps, s.(clock := 125.0), Apply(e, lost));
    GetsMeans(RAISING_SUBMITS, steps, s);
  }

  // ---- two requests under one key ---------------------------------------------------------------

  /** One request has been looked up when another under its key is admitted and its job claimed; then the first
      is counted too. */
  lemma SecondUnderKey(h: Hypotheses, e: Entry) returns (steps: seq<Step>, w: System)
    requires e == Fresh(7, "a")
    ensures Gets(h, steps, w) && w.clock == 0.0
    ensures w.admissions == map[1 := Protocol.Admission(Ask(7, "a"), Positioned(0, 0.0))]
    ensures w.store == map[0 := Apply(e, ClaimOp(0.0))]
  {
    hide Gets, Apply, Created, Claims, EntryInv, KindsForBackend, Asking, LaneSize, RP.SeenOf, CountedFor;
    var s, request := Initial(0.0), Ask(7, "a");
    FreshEntry(7, "a");
    ClaimedEntry(e, 0.0);
    Kinds();
    steps := Begun(h);
    steps := LooksUp(h, steps, s, 1, 7, "a");
    AskingMeans(s, 1, request, LookedUp);
    w := Asking(s, 1, request, LookedUp);
    steps := Admitted(h, steps, w, 2, 7, "a", 0);
    steps, w := ClaimedAlone(h, steps, w.(store := map[0 := e]), e);
    s := w.(admissions := map[]);
    AskingMeans(s, 1, request, LookedUp);
    EmptyLane(s.store);
    steps := Counts(h, steps, s, 1, 7, "a");
    AskingMeans(s, 1, request, Positioned(0, 0.0));
    w := Asking(s, 1, request, Positioned(0, 0.0));
  }

  /** With every hypothesis kept: its INSERT is refused and leaves the store and everything but its own
      request as it was, while a request that looks up now is answered with the job. */
  lemma OverlappingKeyIsRefused() returns (before: seq<Step>, insert: Step)
    ensures Legal(ALL_OF_THEM, CFG, Initial(0.0), before) && Legal(ALL_OF_THEM, CFG, Initial(0.0), before + [insert])
    ensures var mid := Run(ALL_OF_THEM, CFG, Initial(0.0), before);
            var s := Run(ALL_OF_THEM, CFG, Initial(0.0), before + [insert]);
            && insert.AdmitInsert? && insert.r in mid.admissions && mid.admissions[insert.r].request == Ask(7, "a")
            && s == mid.(admissions := map[]) && s.store.Keys == {0}
            && AP.IsLookup(Rows(s.store), Ask(7, "a"), Some(0))
            && AP.Existing(Rows(s.store), Ask(7, "a"), Some(0)) == Some(AP.Replay(0))
  {
    hide Apply, Created, Claims, EntryInv, Legal, Run, RP.SeenOf, Enabled, Next, Allowed;
    var e := Fresh(7, "a");
    FreshEntry(7, "a");
    ClaimedEntry(e, 0.0);
    var w;
    before, w := SecondUnderKey(ALL_OF_THEM, e);
    insert := AdmitInsert(1, 1, 0.0);
    assert 0 in Rows(w.store) && Rows(w.store)[0] == w.store[0].job;
    DuplicateInsert(ALL_OF_THEM, w);
    RunSnoc(ALL_OF_THEM, CFG, Initial(0.0), before, insert);
  }

  lemma DuplicateInsert(h: Hypotheses, w: System)
    requires w.admissions == map[1 := Protocol.Admission(Ask(7, "a"), Positioned(0, 0.0))] && w.clock == 0.0
    requires w.store.Keys == {0} && w.store[0].job.user == 7 && w.store[0].job.key == "a" && w.store[0].job.kind == KIND
    ensures Enabled(CFG, w, AdmitInsert(1, 1, 0.0)) && Allowed(h, w, AdmitInsert(1, 1, 0.0))
    ensures Next(CFG, w, AdmitInsert(1, 1, 0.0)) == w.(admissions := map[])
  {
    TakenKeyRefuses(w.store, 0, Ask(7, "a"));
    hide Refuses;
    assert w.admissions - {1} == map[];
  }
}
