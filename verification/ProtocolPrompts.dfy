// Whether the prompt ids that show are those of the attempts they show on, over whole runs.
module ProtocolPrompts {
  import opened Basics
  import opened Jobs
  import opened JobEntry
  import opened Protocol
  import opened ProtocolSafety
  import opened ProtocolTheorems
  import opened ProtocolConditions

  /** The ids submitted for each attempt of a job so far: the dispatch of attempt no was given meant[no]. */
  type Meant = map<nat, string>

  function Noted(meant: Meant, step: Step, id: Id): Meant {
    if step.SetPrompt? && step.id == id then meant[step.no := step.promptId] else meant
  }

  /** Every attempt shows the id its own dispatch was given, or none if there is none yet. */
  ghost predicate ShowsOwn(attempts: Attempts, meant: Meant) {
    forall no :: no in attempts ==> attempts[no].promptId == if no in meant then Some(meant[no]) else None
  }

  ghost predicate OwnIds(s: System, id: Id, meant: Meant) { id in s.store ==> ShowsOwn(s.store[id].attempts, meant) }

  ghost predicate AlwaysOwn(h: Hypotheses, cfg: Config, s: System, steps: seq<Step>, id: Id, meant: Meant)
    requires Legal(h, cfg, s, steps)
    decreases |steps|
  {
    OwnIds(s, id, meant) &&
    (steps != [] ==> AlwaysOwn(h, cfg, Next(cfg, s, steps[0]), steps[1..], id, Noted(meant, steps[0], id)))
  }

  /** The dispatch that sets the id is the newest attempt's. */
  ghost predicate OfNewest(s: System, step: Step, id: Id) {
    step.SetPrompt? && step.id == id && id in s.store && s.store[id].attempts != map[] ==>
      step.no == LatestNo(s.store[id].attempts)
  }

  /** Ids are noted for attempts that exist, and a dispatch that is still to set one has none noted. */
  ghost predicate NotedRight(s: System, id: Id, meant: Meant) {
    && (forall no :: no in meant ==> id in s.store && no in s.store[id].attempts)
    && (forall no :: (id, no) in s.tasks ==> no !in meant)
  }

  // ---- one transaction -------------------------------------------------------------------

  /** Any other transaction keeps the ids, and opens at most the next attempt, without one. */
  lemma IdsKept(e: Entry, op: Op)
    requires EntryInv(e) && !op.OpSetPrompt?
    ensures var e' := Apply(e, op);
            && (forall no :: no in e.attempts ==> no in e'.attempts && e'.attempts[no].promptId == e.attempts[no].promptId)
            && (forall no :: no in e'.attempts && no !in e.attempts ==> e'.attempts[no].promptId == None)
  {
    if op.OpClaim? && IsBacklog(e.job.state) { ClaimIsFresh(e, op.owner, op.expiresAt, op.now); }
  }

  lemma OwnAfterSet(e: Entry, meant: Meant, no: nat, promptId: string)
    requires no in e.attempts && no !in meant && ShowsOwn(e.attempts, meant)
    ensures ShowsOwn(Apply(e, OpSetPrompt(promptId)).attempts, meant[no := promptId]) <==> no == LatestNo(e.attempts)
    ensures Apply(e, OpSetPrompt(promptId)).attempts.Keys == e.attempts.Keys
  {
    var last := LatestNo(e.attempts);
    var after := Apply(e, OpSetPrompt(promptId)).attempts;
    if no != last { assert after[no].promptId == None; }
  }

  lemma OwnAfterOther(e: Entry, op: Option<Op>, meant: Meant)
    requires EntryInv(e) && (op.Some? ==> !op.value.OpSetPrompt?)
    requires ShowsOwn(e.attempts, meant) && forall no :: no in meant ==> no in e.attempts
    ensures ShowsOwn(ApplyMaybe(e, op).attempts, meant) && e.attempts.Keys <= ApplyMaybe(e, op).attempts.Keys
  {
    hide Apply, EntryInv;
    if op.Some? { IdsKept(e, op.value); }
  }

  lemma KeysKept(e: Entry, op: Option<Op>)
    requires EntryInv(e)
    ensures e.attempts.Keys <= ApplyMaybe(e, op).attempts.Keys
  {
    if op.Some? && !op.value.OpSetPrompt? { IdsKept(e, op.value); }
  }

  // ---- one step --------------------------------------------------------------------------

  lemma SetEntry(cfg: Config, s: System, step: Step)
    requires step.SetPrompt? && Enabled(cfg, s, step) && step.id in s.store
    ensures Next(cfg, s, step).store == s.store[step.id := Apply(s.store[step.id], OpSetPrompt(step.promptId))]
    ensures (step.id, step.no) in s.tasks && Next(cfg, s, step).tasks == s.tasks - {(step.id, step.no)}
  {
    hide Apply;
  }

  lemma NotedStep(h: Hypotheses, cfg: Config, s: System, step: Step, id: Id, meant: Meant)
    requires Safe(h, cfg, s) && Enabled(cfg, s, step) && NotedRight(s, id, meant)
    ensures NotedRight(Next(cfg, s, step), id, Noted(meant, step, id))
  {
    hide Next, Enabled, Safe, LogsRight, Apply, EntryInv, ClaimedFirst;
    var s', meant' := Next(cfg, s, step), Noted(meant, step, id);
    if id in s.store {
      SafeEntry(h, cfg, s, id);
      StepEntry(cfg, s, step, id);
      KeysKept(s.store[id], OpFor(EffectOf(cfg, s, step), id));
      if step.SetPrompt? && step.id == id { SetEntry(cfg, s, step); assert (id, step.no) in s.tasks; }
    }
    TasksKnown(h, cfg, s);
    if step.SetPrompt? && step.id == id { SetTask(cfg, s, step); }
    forall no | no in meant' ensures id in s'.store && no in s'.store[id].attempts {
      if no in meant { assert no in s.store[id].attempts; }
    }
    forall no | (id, no) in s'.tasks ensures no !in meant' {
      TaskNotNoted(h, cfg, s, step, id, no, meant);
    }
  }

  lemma TasksKnown(h: Hypotheses, cfg: Config, s: System)
    requires Safe(h, cfg, s)
    ensures forall t :: t in s.tasks ==> t.0 in s.store && t.1 in s.store[t.0].attempts
  {
  }

  lemma SetTask(cfg: Config, s: System, step: Step)
    requires step.SetPrompt? && Enabled(cfg, s, step)
    ensures (step.id, step.no) in s.tasks && (step.id, step.no) !in Next(cfg, s, step).tasks
  {
  }

  lemma TaskNotNoted(h: Hypotheses, cfg: Config, s: System, step: Step, id: Id, no: nat, meant: Meant)
    requires Safe(h, cfg, s) && Enabled(cfg, s, step) && NotedRight(s, id, meant) && (id, no) in Next(cfg, s, step).tasks
    ensures no !in Noted(meant, step, id)
  {
    hide Next, Enabled, Safe, LogsRight, EntryInv;
    if (id, no) in s.tasks {
      if step.SetPrompt? && step.id == id { SetTask(cfg, s, step); }
    } else {
      TaskFrom(cfg, s, step, (id, no));
      FreshNumber(h, cfg, s, id, step);
    }
  }

  lemma FreshNumber(h: Hypotheses, cfg: Config, s: System, id: Id, step: Step)
    requires Safe(h, cfg, s) && Enabled(cfg, s, step) && step.LaneClaim? && id in step.picked && id in s.store
    ensures s.store[id].job.attempt + 1 !in s.store[id].attempts
  {
    hide Next, Safe, LogsRight, EntryInv, Enabled;
    ClaimOpFor(cfg, s, step, id);
    SafeEntry(h, cfg, s, id);
    ClaimIsFresh(s.store[id], "", 0.0, 0.0);
  }

  lemma OwnStepIff(h: Hypotheses, cfg: Config, s: System, step: Step, id: Id, meant: Meant)
    requires Safe(h, cfg, s) && Enabled(cfg, s, step) && NotedRight(s, id, meant) && OwnIds(s, id, meant)
    ensures OwnIds(Next(cfg, s, step), id, Noted(meant, step, id)) <==> OfNewest(s, step, id)
  {
    hide Next, Enabled, Safe, ShowsOwn;
    if step.SetPrompt? && step.id == id {
      OwnSetIff(h, cfg, s, step, meant);
    } else if id in s.store {
      OwnOtherStep(h, cfg, s, step, id, meant);
    } else {
      NewShowsOwn(cfg, s, step, id, meant);
    }
  }

  lemma OwnSetIff(h: Hypotheses, cfg: Config, s: System, step: Step, meant: Meant)
    requires Safe(h, cfg, s) && step.SetPrompt? && Enabled(cfg, s, step)
    requires NotedRight(s, step.id, meant) && OwnIds(s, step.id, meant)
    ensures OwnIds(Next(cfg, s, step), step.id, Noted(meant, step, step.id)) <==> OfNewest(s, step, step.id)
  {
    hide Next, Enabled, Safe, Apply, ShowsOwn;
    TasksKnown(h, cfg, s);
    SetTask(cfg, s, step);
    assert step.no in s.store[step.id].attempts && step.no !in meant;
    SetEntry(cfg, s, step);
    OwnAfterSet(s.store[step.id], meant, step.no, step.promptId);
  }

  lemma OwnOtherStep(h: Hypotheses, cfg: Config, s: System, step: Step, id: Id, meant: Meant)
    requires Safe(h, cfg, s) && Enabled(cfg, s, step) && id in s.store && !(step.SetPrompt? && step.id == id)
    requires NotedRight(s, id, meant) && OwnIds(s, id, meant)
    ensures OwnIds(Next(cfg, s, step), id, meant)
  {
    hide Next, Enabled, Safe, LogsRight, Apply, EntryInv, ClaimedFirst, ShowsOwn, EffectOf, OpFor;
    SafeEntry(h, cfg, s, id);
    StepEntry(cfg, s, step, id);
    PromptOp(cfg, s, step, id);
    OwnAfterOther(s.store[id], OpFor(EffectOf(cfg, s, step), id), meant);
  }

  lemma NewShowsOwn(cfg: Config, s: System, step: Step, id: Id, meant: Meant)
    requires Enabled(cfg, s, step) && id !in s.store && !(step.SetPrompt? && step.id == id)
    ensures OwnIds(Next(cfg, s, step), id, meant)
  {
    hide Next, Enabled;
    if id in Next(cfg, s, step).store { StepNew(cfg, s, step, id); }
  }

  // ---- over runs -------------------------------------------------------------------------

  lemma {:induction false} OwnIdsRun(h: Hypotheses, cfg: Config, s: System, steps: seq<Step>, id: Id, meant: Meant)
    requires Safe(h, cfg, s) && Legal(h, cfg, s, steps) && NotedRight(s, id, meant) && OwnIds(s, id, meant)
    ensures AlwaysOwn(h, cfg, s, steps, id, meant) <==> EachStep(h, cfg, s, steps, (s, step) => OfNewest(s, step, id))
    decreases |steps|
  {
    if steps != [] {
      hide Next, Enabled, Allowed, Safe, NotedRight, OwnIds, OfNewest, Noted;
      SafeStep(h, cfg, s, steps[0]);
      NotedStep(h, cfg, s, steps[0], id, meant);
      OwnStepIff(h, cfg, s, steps[0], id, meant);
      if OwnIds(Next(cfg, s, steps[0]), id, Noted(meant, steps[0], id)) {
        OwnIdsRun(h, cfg, Next(cfg, s, steps[0]), steps[1..], id, Noted(meant, steps[0], id));
      }
    }
  }

  /** Every prompt id that a job shows, on whichever attempt and at every moment of a run, is the one that
      attempt's own dispatch was given, exactly when each set_prompt_id of the job comes while its attempt is
      still the newest. */
  lemma OwnIdsIff(h: Hypotheses, cfg: Config, clock: Time, steps: seq<Step>, id: Id)
    requires Legal(h, cfg, Initial(clock), steps)
    ensures AlwaysOwn(h, cfg, Initial(clock), steps, id, map[]) <==>
            EachStep(h, cfg, Initial(clock), steps, (s, step) => OfNewest(s, step, id))
  {
    InitialSafe(h, cfg, clock);
    assert NotedRight(Initial(clock), id, map[]);
    OwnIdsRun(h, cfg, Initial(clock), steps, id, map[]);
  }
}
