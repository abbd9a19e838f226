// How long a job can be passed over.
module ProtocolWaiting {
  import opened Basics
  import opened Jobs
  import opened JobEntry
  import opened Claim
  import opened ClaimOrder
  import opened Registry
  import opened Protocol
  import opened ProtocolSafety
  import opened ProtocolTheorems
  import AP = AdmissionPolicy
  import Fairness

  /** The claim could have taken j, whose user is still under the cap afterwards, and took others. */
  ghost predicate PassesOver(cfg: Config, s: System, step: Step, j: Id) {
    && step.LaneClaim? && Enabled(cfg, s, step)
    && j in Eligible(Rows(s.store), Some(KindsForBackend(step.lane)), s.clock) && j !in step.picked
    && UnderCap(DispatchAll(Rows(s.store), step.picked), cfg.maxActive, j)
  }

  /** Slots that claims passing over j had to give, over a run. */
  ghost function SlotsPassed(h: Hypotheses, cfg: Config, s: System, steps: seq<Step>, j: Id): nat
    requires Legal(h, cfg, s, steps)
    decreases |steps|
  {
    if steps == [] then 0
    else (if PassesOver(cfg, s, steps[0], j) then Max(0, Budget(s, steps[0].k, steps[0].lane)) else 0) +
         SlotsPassed(h, cfg, Next(cfg, s, steps[0]), steps[1..], j)
  }

  /** Jobs of j's lane queued no later than j. */
  function Rivals(m: Table, j: Id): set<Id>
    requires j in m
  {
    set x | x in m && x != j && m[x].queuedAt <= m[j].queuedAt && BackendForKind(m[x].kind) == BackendForKind(m[j].kind)
  }

  /** Every row has the base priority and the maximum that admission gave it. */
  ghost predicate Unranked(s: Store) {
    forall id :: id in s ==> s[id].job.priority == 0 && s[id].job.maxAttempts == AP.DEFAULT_MAX_ATTEMPTS
  }

  lemma UnrankedStep(cfg: Config, s: System, step: Step)
    requires Enabled(cfg, s, step) && Unranked(s.store)
    ensures Unranked(Next(cfg, s, step).store)
  {
    hide Next, Enabled;
    forall id | id in Next(cfg, s, step).store
      ensures var j := Next(cfg, s, step).store[id].job; j.priority == 0 && j.maxAttempts == AP.DEFAULT_MAX_ATTEMPTS
    {
      if id in s.store { StepKeeps(cfg, s, step, id); } else { StepNew(cfg, s, step, id); }
    }
  }

  /** A claim that passes over j uses up its slots, and only on rivals. */
  lemma PassedForRivals(cfg: Config, s: System, step: Step, j: Id)
    requires PassesOver(cfg, s, step, j) && Unranked(s.store)
    ensures |step.picked| == Max(0, Budget(s, step.k, step.lane)) && NoDup(step.picked)
    ensures forall x :: x in step.picked ==> x in Rivals(Rows(s.store), j)
  {
    hide KindsForBackend, ClaimOutcome, DispatchAll, BackendForKind, Precedes;
    var m, kinds := Rows(s.store), Some(KindsForBackend(step.lane));
    var capacity := Budget(s, step.k, step.lane);
    PassedOver(m, Aging(s), kinds, s.clock, capacity, cfg.maxActive, step.picked, j);
    OutcomeFacts(m, Aging(s), kinds, s.clock, capacity, cfg.maxActive, step.picked);
    forall x | x in step.picked ensures x in Rivals(m, j) {
      LanesPartition(m[x].kind);
      LanesPartition(m[j].kind);
      Earlier(m[j], m[x], s.clock);
    }
  }

  lemma Earlier(a: Job, b: Job, now: Time)
    requires a.priority == b.priority == 0 && !Precedes(AgedPriority(now, Fairness.AGING_INCREMENT_PER_MINUTE), a, b)
    ensures b.queuedAt <= a.queuedAt
  {
    Fairness.AgedGap(0, a.queuedAt, 0, b.queuedAt, now, Fairness.AGING_INCREMENT_PER_MINUTE);
  }

  // ---- claims of a list of jobs ------------------------------------------------------------

  function ClaimsOf(s: Store, id: Id): nat { if id in s then Claims(s[id].log) else 0 }

  function TotalClaims(s: Store, ids: seq<Id>): nat {
    if ids == [] then 0 else ClaimsOf(s, ids[0]) + TotalClaims(s, ids[1..])
  }

  function Hits(ids: seq<Id>, picked: seq<Id>): nat {
    if ids == [] then 0 else (if ids[0] in picked then 1 else 0) + Hits(ids[1..], picked)
  }

  lemma {:induction false} HitsAll(ids: seq<Id>, picked: seq<Id>, some: set<Id>)
    requires NoDup(ids) && some == (set id | id in ids && id in picked)
    ensures Hits(ids, picked) == |some|
  {
    if ids != [] {
      var rest := set id | id in ids[1..] && id in picked;
      HitsAll(ids[1..], picked, rest);
      assert ids[0] !in ids[1..] && forall id :: id in ids <==> id == ids[0] || id in ids[1..];
      assert some == rest + (if ids[0] in picked then {ids[0]} else {});
    }
  }

  lemma {:induction false} TotalGrows(s: Store, t: Store, ids: seq<Id>, picked: seq<Id>)
    requires forall id :: ClaimsOf(t, id) >= ClaimsOf(s, id) + (if id in picked then 1 else 0)
    ensures TotalClaims(t, ids) >= TotalClaims(s, ids) + Hits(ids, picked)
  {
    if ids != [] { TotalGrows(s, t, ids[1..], picked); }
  }

  lemma {:induction false} TotalBounded(s: Store, ids: seq<Id>, most: nat)
    requires forall id :: id in s ==> Claims(s[id].log) <= most
    ensures TotalClaims(s, ids) <= most * |ids|
  {
    hide Claims;
    if ids != [] {
      TotalBounded(s, ids[1..], most);
      assert most * |ids| == most + most * (|ids| - 1);
    }
  }

  lemma ClaimsAfter(e: Entry, op: Op)
    requires EntryInv(e)
    ensures Claims(Apply(e, op).log) == Claims(e.log) + (if op.OpClaim? && IsBacklog(e.job.state) then 1 else 0)
  {
    if EventOf(e.job, op).Some? {
      RowFollowsEvent(e, op);
      AppendFacts(e.log, EventOf(e.job, op).value, OpTime(op, 0.0));
    }
  }

  function PickedBy(step: Step): seq<Id> { if step.LaneClaim? then step.picked else [] }

  lemma StepClaims(h: Hypotheses, cfg: Config, s: System, step: Step, id: Id)
    requires Safe(h, cfg, s) && Enabled(cfg, s, step)
    ensures ClaimsOf(Next(cfg, s, step).store, id) >=
            ClaimsOf(s.store, id) + (if id in PickedBy(step) then 1 else 0)
  {
    hide Next, Safe, Claims, EntryInv, Apply, ClaimOutcome, KindsForBackend, LogsRight, ClaimsRight;
    if id in s.store {
      SafeEntry(h, cfg, s, id);
      StepEntry(cfg, s, step, id);
      PickedEligible(cfg, s, step);
      var op := OpFor(EffectOf(cfg, s, step), id);
      if op.Some? { ClaimsAfter(s.store[id], op.value); }
    }
  }

  lemma StepTotal(h: Hypotheses, cfg: Config, s: System, step: Step, j: Id, ids: seq<Id>)
    requires Safe(h, cfg, s) && Enabled(cfg, s, step) && Unranked(s.store) && NoDup(ids)
    requires PassesOver(cfg, s, step, j) ==> forall x :: x in step.picked ==> x in ids
    ensures TotalClaims(Next(cfg, s, step).store, ids) >=
            TotalClaims(s.store, ids) + (if PassesOver(cfg, s, step, j) then Max(0, Budget(s, step.k, step.lane)) else 0)
  {
    hide Next, Enabled, Safe, ClaimsOf;
    var t := Next(cfg, s, step).store;
    forall id ensures ClaimsOf(t, id) >= ClaimsOf(s.store, id) + (if id in PickedBy(step) then 1 else 0) {
      StepClaims(h, cfg, s, step, id);
    }
    TotalGrows(s.store, t, ids, PickedBy(step));
    if PassesOver(cfg, s, step, j) {
      PassedForRivals(cfg, s, step, j);
      HitsAll(ids, step.picked, Elements(step.picked));
      NoDupCardinality(step.picked);
    }
  }

  lemma RivalStays(h: Hypotheses, cfg: Config, s: System, steps: seq<Step>, j: Id, x: Id)
    requires Legal(h, cfg, s, steps) && j in s.store && x in Rivals(Rows(s.store), j)
    ensures j in Run(h, cfg, s, steps).store && x in Rivals(Rows(Run(h, cfg, s, steps).store), j)
  {
    FinishedForever(h, cfg, s, steps, j);
    FinishedForever(h, cfg, s, steps, x);
    hide Legal, Run, BackendForKind;
  }

  lemma {:induction false} PassedRun(h: Hypotheses, cfg: Config, s: System, steps: seq<Step>, j: Id, ids: seq<Id>)
    requires Safe(h, cfg, s) && Unranked(s.store) && Legal(h, cfg, s, steps) && NoDup(ids)
    requires j in Run(h, cfg, s, steps).store && forall x :: x in Rivals(Rows(Run(h, cfg, s, steps).store), j) ==> x in ids
    ensures Unranked(Run(h, cfg, s, steps).store)
    ensures TotalClaims(Run(h, cfg, s, steps).store, ids) >=
            TotalClaims(s.store, ids) + SlotsPassed(h, cfg, s, steps, j)
    decreases |steps|
  {
    if steps != [] {
      hide Next, Enabled, Allowed, Safe, PassesOver, Rivals, Unranked, TotalClaims;
      if PassesOver(cfg, s, steps[0], j) { PickedAreListed(h, cfg, s, steps, j, ids); }
      SafeStep(h, cfg, s, steps[0]);
      UnrankedStep(cfg, s, steps[0]);
      StepTotal(h, cfg, s, steps[0], j, ids);
      PassedRun(h, cfg, Next(cfg, s, steps[0]), steps[1..], j, ids);
    }
  }

  lemma PickedAreListed(h: Hypotheses, cfg: Config, s: System, steps: seq<Step>, j: Id, ids: seq<Id>)
    requires Unranked(s.store) && Legal(h, cfg, s, steps) && steps != [] && PassesOver(cfg, s, steps[0], j)
    requires j in Run(h, cfg, s, steps).store && forall x :: x in Rivals(Rows(Run(h, cfg, s, steps).store), j) ==> x in ids
    ensures forall x :: x in steps[0].picked ==> x in ids
  {
    hide Next, Legal, Run, Rivals;
    assert j in s.store;
    PassedForRivals(cfg, s, steps[0], j);
    forall x | x in steps[0].picked ensures x in ids { RivalStays(h, cfg, s, steps, j, x); }
  }

  /** Bounded waiting: over any run the claims that could have taken j and took others had, together, at most
      max_attempts slots for each job of j's lane that was queued no later than j. Nobody queued later ever
      delays j, and however often rivals are retried, j is claimed once the slots have gone round. */
  lemma BoundedWaiting(h: Hypotheses, cfg: Config, clock: Time, steps: seq<Step>, j: Id)
    requires h.oneReconciler && h.submitsReturn && Legal(h, cfg, Initial(clock), steps)
    requires j in Reached(h, cfg, clock, steps).store
    ensures SlotsPassed(h, cfg, Initial(clock), steps, j) <=
            AP.DEFAULT_MAX_ATTEMPTS * |Rivals(Rows(Reached(h, cfg, clock, steps).store), j)|
  {
    var s := Reached(h, cfg, clock, steps).store;
    var ids := Arrangement(Rows(s), StaticPriority, Rivals(Rows(s), j));
    NoDupCardinality(ids);
    assert Elements(ids) == Rivals(Rows(s), j);
    InitialSafe(h, cfg, clock);
    NothingClaimed(clock, ids);
    PassedRun(h, cfg, Initial(clock), steps, j, ids);
    hide Legal, Run, Rivals, Claims, SlotsPassed;
    forall id | id in s ensures Claims(s[id].log) <= AP.DEFAULT_MAX_ATTEMPTS {
      RetriesAreBounded(h, cfg, clock, steps, id);
    }
    TotalBounded(s, ids, AP.DEFAULT_MAX_ATTEMPTS);
  }

  lemma {:induction false} NothingClaimed(clock: Time, ids: seq<Id>)
    ensures TotalClaims(Initial(clock).store, ids) == 0
  {
    if ids != [] { NothingClaimed(clock, ids[1..]); }
  }
}
