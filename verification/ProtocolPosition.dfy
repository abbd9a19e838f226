// The reported queue position against the rank the job gets: what the steps between the count and the
// INSERT add to it and take from it.
module ProtocolPosition {
  import opened Basics
  import opened Jobs
  import opened JobEntry
  import opened Claim
  import opened ClaimOrder
  import opened Registry
  import opened Protocol
  import opened ProtocolSafety
  import opened ProtocolTheorems
  import opened ProtocolWaiting
  import AP = AdmissionPolicy
  import Fairness

  /** The job belongs to the lane and was queued before the instant q. */
  predicate Earlier(j: Job, kinds: Option<set<string>>, q: Time) { InKinds(kinds, j.kind) && j.queuedAt < q }

  /** The jobs of the lane that wait and were queued before q. */
  function Front(m: Table, kinds: Option<set<string>>, q: Time): set<Id> {
    set x | x in m && IsBacklog(m[x].state) && Earlier(m[x], kinds, q)
  }

  /** Those of the picked jobs. */
  function EarlierOf(s: Store, picked: seq<Id>, kinds: Option<set<string>>, q: Time): set<Id> {
    set x | x in picked && x in s && Earlier(s[x].job, kinds, q)
  }

  /** The step brings one into the lane: a job inserted with an earlier queued_at, or an active one that is
      given back for a retry. */
  ghost function ComesIn(cfg: Config, s: System, step: Step, kinds: Option<set<string>>, q: Time): nat
    requires Enabled(cfg, s, step)
  {
    match EffectOf(cfg, s, step)
    case Added(id, job) => if Earlier(job, kinds, q) then 1 else 0
    case One(id, op) =>
      if id in s.store && Earlier(s.store[id].job, kinds, q) && op.OpRetryWait? &&
         !IsBacklog(s.store[id].job.state) && !IsTerminal(s.store[id].job.state) then 1 else 0
    case _ => 0
  }

  /** The step takes some out of the lane: those a claim picks, or a waiting one that is cancelled, started
      late or finished late. */
  ghost function GoesOut(cfg: Config, s: System, step: Step, kinds: Option<set<string>>, q: Time): nat
    requires Enabled(cfg, s, step)
  {
    match EffectOf(cfg, s, step)
    case Claimed(_, picked, _) => |EarlierOf(s.store, picked, kinds, q)|
    case One(id, op) =>
      if id in s.store && Earlier(s.store[id].job, kinds, q) && IsBacklog(s.store[id].job.state) &&
         (op.OpCancel? || op.OpRunning? || op.OpSucceeded? || op.OpFailed?) then 1 else 0
    case _ => 0
  }

  ghost function Arrivals(h: Hypotheses, cfg: Config, s: System, steps: seq<Step>, kinds: Option<set<string>>, q: Time): nat
    requires Legal(h, cfg, s, steps)
    decreases |steps|
  {
    if steps == [] then 0
    else ComesIn(cfg, s, steps[0], kinds, q) + Arrivals(h, cfg, Next(cfg, s, steps[0]), steps[1..], kinds, q)
  }

  ghost function Departures(h: Hypotheses, cfg: Config, s: System, steps: seq<Step>, kinds: Option<set<string>>, q: Time): nat
    requires Legal(h, cfg, s, steps)
    decreases |steps|
  {
    if steps == [] then 0
    else GoesOut(cfg, s, steps[0], kinds, q) + Departures(h, cfg, Next(cfg, s, steps[0]), steps[1..], kinds, q)
  }

  // ---- one step ---------------------------------------------------------------------------

  lemma FrontUpdate(m: Table, id: Id, j: Job, kinds: Option<set<string>>, q: Time)
    ensures var before, after := id in Front(m, kinds, q), IsBacklog(j.state) && Earlier(j, kinds, q);
            |Front(m[id := j], kinds, q)| == |Front(m, kinds, q)| + (if after then 1 else 0) - (if before then 1 else 0)
  {
    hide Earlier, IsBacklog;
    var front, front' := Front(m, kinds, q), Front(m[id := j], kinds, q);
    assert forall x :: x != id ==> (x in front' <==> x in front);
    hide Front;
    if id in front && id !in front' {
      assert front == front' + {id};
    } else if id !in front && id in front' {
      assert front' == front + {id};
    } else {
      assert front' == front;
    }
  }

  lemma SameEarlier(j: Job, k: Job, kinds: Option<set<string>>, q: Time)
    requires IdentityOf(j) == IdentityOf(k)
    ensures Earlier(j, kinds, q) <==> Earlier(k, kinds, q)
  {
  }

  /** Which transactions change whether a job waits. */
  lemma WaitsAfter(e: Entry, op: Op)
    requires !op.OpClaim?
    ensures var a, b := e.job.state, Apply(e, op).job.state;
            && (IsBacklog(b) && !IsBacklog(a) <==> op.OpRetryWait? && !IsBacklog(a) && !IsTerminal(a))
            && (IsBacklog(a) && !IsBacklog(b) <==>
                  IsBacklog(a) && (op.OpCancel? || op.OpRunning? || op.OpSucceeded? || op.OpFailed?))
  {
  }

  lemma FrontOfOne(s: Store, id: Id, op: Op, kinds: Option<set<string>>, q: Time)
    requires id in s && !op.OpClaim?
    ensures var j := s[id].job;
            |Front(Rows(OnJob(s, id, op)), kinds, q)| ==
            |Front(Rows(s), kinds, q)| +
            (if Earlier(j, kinds, q) && op.OpRetryWait? && !IsBacklog(j.state) && !IsTerminal(j.state) then 1 else 0) -
            (if Earlier(j, kinds, q) && IsBacklog(j.state) &&
                (op.OpCancel? || op.OpRunning? || op.OpSucceeded? || op.OpFailed?) then 1 else 0)
  {
    hide Apply, Earlier;
    WaitsAfter(s[id], op);
    IdentityKept(s[id], op);
    SameEarlier(s[id].job, Apply(s[id], op).job, kinds, q);
    assert Rows(OnJob(s, id, op)) == Rows(s)[id := Apply(s[id], op).job];
    FrontUpdate(Rows(s), id, Apply(s[id], op).job, kinds, q);
  }

  lemma FrontOfAdded(s: Store, id: Id, job: Job, now: Time, kinds: Option<set<string>>, q: Time)
    requires id !in s && job.state.Queued?
    ensures |Front(Rows(s[id := Created(job, now)]), kinds, q)| ==
            |Front(Rows(s), kinds, q)| + (if Earlier(job, kinds, q) then 1 else 0)
  {
    assert Rows(s[id := Created(job, now)]) == Rows(s)[id := Created(job, now).job];
    FrontUpdate(Rows(s), id, Created(job, now).job, kinds, q);
  }

  lemma FrontOfClaim(s: Store, picked: seq<Id>, op: Op, kinds: Option<set<string>>, q: Time)
    requires op.OpClaim? && forall id :: id in picked ==> id in s && IsBacklog(s[id].job.state)
    ensures |Front(Rows(OnPicked(s, picked, op)), kinds, q)| ==
            |Front(Rows(s), kinds, q)| - |EarlierOf(s, picked, kinds, q)|
  {
    hide Earlier, DispatchAll, Apply, InKinds;
    ClaimedRows(s, picked, op);
    DispatchAllFrame(Rows(s), picked);
    var m, m', gone := Rows(s), Rows(OnPicked(s, picked, op)), EarlierOf(s, picked, kinds, q);
    assert gone <= Front(m, kinds, q);
    forall x | x in m ensures Earlier(m'[x], kinds, q) <==> Earlier(m[x], kinds, q) { SameEarlier(m[x], m'[x], kinds, q); }
    assert Front(m', kinds, q) == Front(m, kinds, q) - gone;
  }

  lemma FrontStep(cfg: Config, s: System, step: Step, kinds: Option<set<string>>, q: Time)
    requires Enabled(cfg, s, step)
    ensures |Front(Rows(Next(cfg, s, step).store), kinds, q)| ==
            |Front(Rows(s.store), kinds, q)| + ComesIn(cfg, s, step, kinds, q) - GoesOut(cfg, s, step, kinds, q)
  {
    hide Next, Enabled, Earlier, Front, OnPicked, OnJob, EffectOf, Created, ClaimOutcome, Eligible;
    StepEffect(cfg, s, step);
    PickedEligible(cfg, s, step);
    var f := EffectOf(cfg, s, step);
    match f
    case Nothing =>
    case One(id, op) => FrontOfOne(s.store, id, op, kinds, q);
    case Added(id, job) => FrontOfAdded(s.store, id, job, s.clock, kinds, q);
    case Claimed(_, picked, op) =>
      PickedBacklog(cfg, s, step);
      FrontOfClaim(s.store, picked, op, kinds, q);
  }

  lemma PickedBacklog(cfg: Config, s: System, step: Step)
    requires Enabled(cfg, s, step)
    ensures var f := EffectOf(cfg, s, step);
            f.Claimed? ==> forall id :: id in f.picked ==> id in s.store && IsBacklog(s.store[id].job.state)
  {
    PickedEligible(cfg, s, step);
  }

  // ---- whole runs ---------------------------------------------------------------------------

  /** Whatever happens, the waiting jobs of a lane queued before q are the ones there were, and the arrivals,
      less the departures. */
  lemma {:induction false} FrontRun(h: Hypotheses, cfg: Config, s: System, steps: seq<Step>,
                                    kinds: Option<set<string>>, q: Time)
    requires Legal(h, cfg, s, steps)
    ensures |Front(Rows(Run(h, cfg, s, steps).store), kinds, q)| ==
            |Front(Rows(s.store), kinds, q)| + Arrivals(h, cfg, s, steps, kinds, q) - Departures(h, cfg, s, steps, kinds, q)
    decreases |steps|
  {
    if steps != [] {
      hide Next, Enabled, Allowed, ComesIn, GoesOut, Front;
      FrontStep(cfg, s, steps[0], kinds, q);
      FrontRun(h, cfg, Next(cfg, s, steps[0]), steps[1..], kinds, q);
    }
  }

  /** Rows as admission makes them, none queued in the future. */
  ghost predicate Produced(s: System) {
    Unranked(s.store) && forall id :: id in s.store ==> s.store[id].job.queuedAt <= s.clock
  }

  lemma {:induction false} ProducedRun(h: Hypotheses, cfg: Config, s: System, steps: seq<Step>)
    requires Produced(s) && Legal(h, cfg, s, steps)
    ensures Produced(Run(h, cfg, s, steps)) && s.clock <= Run(h, cfg, s, steps).clock
    decreases |steps|
  {
    if steps != [] {
      hide Next, Enabled, Allowed, Produced;
      ProducedStep(cfg, s, steps[0]);
      ProducedRun(h, cfg, Next(cfg, s, steps[0]), steps[1..]);
    }
  }

  lemma ProducedStep(cfg: Config, s: System, step: Step)
    requires Produced(s) && Enabled(cfg, s, step)
    ensures Produced(Next(cfg, s, step)) && s.clock <= Next(cfg, s, step).clock
  {
    hide Next, Enabled, EffectOf, After, OpFor;
    UnrankedStep(cfg, s, step);
    StepEffect(cfg, s, step);
    forall id | id in Next(cfg, s, step).store
      ensures Next(cfg, s, step).store[id].job.queuedAt <= Next(cfg, s, step).clock
    {
      if id in s.store { StepKeeps(cfg, s, step, id); } else { StepNew(cfg, s, step, id); }
    }
  }

  /** The counted jobs that will not be ahead: those queued at the very instant the new job is. */
  function Ties(m: Table, kinds: Option<set<string>>, q: Time): set<Id> {
    set x | x in Lane(m, kinds) && m[x].queuedAt == q
  }

  lemma LaneSplits(s: System, kinds: Option<set<string>>, q: Time)
    requires Produced(s) && s.clock <= q
    ensures |Lane(Rows(s.store), kinds)| == |Front(Rows(s.store), kinds, q)| + |Ties(Rows(s.store), kinds, q)|
  {
    hide InKinds;
    var m := Rows(s.store);
    assert Lane(m, kinds) == Front(m, kinds, q) + Ties(m, kinds, q);
    assert Front(m, kinds, q) !! Ties(m, kinds, q);
  }

  lemma PrecedesByTime(a: Job, b: Job, now: Time)
    requires a.priority == b.priority == 0
    ensures Precedes(AgedPriority(now, Fairness.AGING_INCREMENT_PER_MINUTE), a, b) <==> a.queuedAt < b.queuedAt
  {
    Fairness.AgedGap(0, a.queuedAt, 0, b.queuedAt, now, Fairness.AGING_INCREMENT_PER_MINUTE);
  }

  /** The rank of the job just inserted. */
  lemma RankIsFront(cfg: Config, s: System, insert: Step, kinds: Option<set<string>>)
    requires Produced(s) && insert.AdmitInsert? && Enabled(cfg, s, insert)
    requires !Refuses(s.store, s.admissions[insert.r].request)
    ensures insert.id in Next(cfg, s, insert).store
    ensures Ahead(Rows(Next(cfg, s, insert).store), Aging(s), kinds, insert.id) == Front(Rows(s.store), kinds, insert.queuedAt)
  {
    hide InKinds, Precedes, Refuses;
    StepEffect(cfg, s, insert);
    hide Next, Enabled;
    var m, j := Rows(s.store), Created(AP.NewJob(s.admissions[insert.r].request, insert.queuedAt), s.clock).job;
    assert Rows(Next(cfg, s, insert).store) == m[insert.id := j];
    PrecedesByTime(j, j, s.clock);
    forall x | x in m ensures Precedes(Aging(s), m[x], j) <==> m[x].queuedAt < insert.queuedAt {
      PrecedesByTime(m[x], j, s.clock);
    }
  }

  /** The position is counted in one transaction and the job inserted in a later one; anything may happen
      between. The rank the job gets is the position, less the counted jobs queued at the very same instant,
      plus the earlier ones that came in meanwhile, less the earlier ones that went out. So it is the
      reported position exactly when as many came in as went out or tied. */
  lemma ReportedPositionIff(h: Hypotheses, cfg: Config, clock: Time, before: seq<Step>, r: Id,
                            between: seq<Step>, insert: Step)
    requires Legal(h, cfg, Initial(clock), before)
    requires var s := Reached(h, cfg, clock, before);
             Enabled(cfg, s, AdmitPosition(r)) && Legal(h, cfg, Next(cfg, s, AdmitPosition(r)), between)
    requires var s1 := Next(cfg, Reached(h, cfg, clock, before), AdmitPosition(r));
             var s' := Run(h, cfg, s1, between);
             && insert.AdmitInsert? && insert.r == r && Enabled(cfg, s', insert)
             && s'.admissions[r] == s1.admissions[r] && !Refuses(s'.store, s'.admissions[r].request)
    ensures var s := Reached(h, cfg, clock, before);
            var s1 := Next(cfg, s, AdmitPosition(r));
            var s' := Run(h, cfg, s1, between);
            var kinds := Some(KindsForBackend(BackendForKind(s.admissions[r].request.kind).value));
            var q := insert.queuedAt;
            insert.id in Next(cfg, s', insert).store &&
            var rank := |Ahead(Rows(Next(cfg, s', insert).store), Aging(s'), kinds, insert.id)|;
            var position, ties := s'.admissions[r].stage.position, |Ties(Rows(s.store), kinds, q)|;
            var arrivals, departures := Arrivals(h, cfg, s1, between, kinds, q), Departures(h, cfg, s1, between, kinds, q);
            && rank == position - ties + arrivals - departures
            && (rank == position <==> arrivals == ties + departures)
  {
    hide Allowed, Refuses, Produced, Ties, Ahead, Front, Arrivals, Departures, InKinds;
    var s := Reached(h, cfg, clock, before);
    assert Produced(Initial(clock)) by { NothingProduced(clock); }
    ProducedRun(h, cfg, Initial(clock), before);
    var step := AdmitPosition(r);
    var s1 := Next(cfg, s, step);
    ProducedStep(cfg, s, step);
    ProducedRun(h, cfg, s1, between);
    var s' := Run(h, cfg, s1, between);
    var kinds := Some(KindsForBackend(BackendForKind(s.admissions[r].request.kind).value));
    assert s1.admissions[r] == Protocol.Admission(s.admissions[r].request, Positioned(|Lane(Rows(s.store), kinds)|, s.clock));
    hide Legal, Run;
    LaneSplits(s, kinds, insert.queuedAt);
    FrontRun(h, cfg, s1, between, kinds, insert.queuedAt);
    RankIsFront(cfg, s', insert, kinds);
  }

  lemma NothingProduced(clock: Time)
    ensures Produced(Initial(clock))
  {
  }
}
