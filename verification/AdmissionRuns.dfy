// Admission on the durable queue: five transactions, and what they come to when nobody interferes.
module AdmissionRuns {
  import opened Basics
  import opened Jobs
  import opened JobEntry
  import opened Registry
  import opened PostgresQueue
  import opened Protocol
  import AP = AdmissionPolicy
  import AD = Admission

  /** admit_generation_job from the look-up on, over PostgresJobQueue. With nobody in between, the five
      transactions are the one decision. */
  method AdmitOnPostgres(queue: PostgresJobQueue, s: AD.Settings, w: Workflow, ghost inputs: Payload, isPreview: bool,
                         request: AP.Request, newId: Id, now: Time)
    returns (r: Result<AD.AdmissionResult, AD.AdmissionError>, ghost found: Option<Id>)
    requires queue.Valid() && newId !in queue.jobs && BackendForKind(request.kind).Some?
    requires w.name == request.kind && isPreview == Truthy(Lookup(inputs, "preview"))
    modifies queue
    ensures queue.Valid()
    ensures AP.IsLookup(old(queue.jobs), request, found)
    ensures var v := AP.Decide(s.caps, old(queue.jobs), request, found, now);
            && AD.Answers(s, old(queue.jobs), newId, w, inputs, v, r)
            && queue.Contents() == OnVerdict(old(queue.Contents()), newId, v, now)
    ensures AD.AnsweredByCounts(s, old(queue.jobs), newId, w.backend, request, isPreview, r)
    ensures newId in queue.jobs <==> r.Ok? && !r.value.replayed
  {
    hide AD.AnsweredByCounts, AD.EstimateWaitSeconds, KindsForBackend, ConversationBacklog, UserBacklog, Lane, Lookup, Created;
    var existing := queue.FindByIdempotencyKey(request.user, request.key, request.kind);
    found := existing;
    AD.ByCounts(s, queue.jobs, newId, w, inputs, request, found, now);
    if existing.Some? {
      var job := queue.jobs[existing.value];
      if job.payload != request.payload { return Err(AD.IdempotencyConflict), found; }
      return Ok(AD.AdmissionResult(existing.value, job.state, job.kind, true, None, None,
                                   Truthy(Lookup(job.payload, "is_preview")))), found;
    }
    if AP.GlobalFull(s.caps, queue.jobs) { return Err(AD.QueueFull), found; }
    var full := AP.OwnFull(s.caps, queue.jobs, request);
    if full.Some? {
      return Err(if full.value.ConversationFull? then AD.ConversationFull else AD.UserFull), found;
    }
    var position := |Lane(queue.jobs, Some(KindsForBackend(w.backend)))|;
    var wait := AD.EstimateWaitSeconds(s, position, w.backend);
    var inserted := queue.Enqueue(newId, AP.NewJob(request, now), now);
    assert newId in queue.Contents() && queue.Contents().Keys == queue.jobs.Keys;
    r := Ok(AD.AdmissionResult(newId, Queued, request.kind, false, Some(position), wait, isPreview));
  }

  // ---- the same as steps of the protocol -----------------------------------------------------

  /** The transactions an undisturbed request gets to, one after the other at one instant. */
  function Script(cfg: Config, s: System, r: Id, request: AP.Request, found: Option<Id>, id: Id): seq<Step> {
    var m := Rows(s.store);
    if found.Some? then [AdmitLookup(r, request, found)]
    else if AP.GlobalFull(cfg.caps, m) then [AdmitLookup(r, request, found), AdmitGlobal(r)]
    else if AP.OwnFull(cfg.caps, m, request).Some? then [AdmitLookup(r, request, found), AdmitGlobal(r), AdmitOwn(r)]
    else [AdmitLookup(r, request, found), AdmitGlobal(r), AdmitOwn(r), AdmitPosition(r), AdmitInsert(r, id, s.clock)]
  }

  /** A step from one known state to another. */
  lemma Onward(h: Hypotheses, cfg: Config, s: System, steps: seq<Step>, mid: System, step: Step)
    requires Legal(h, cfg, s, steps) && Run(h, cfg, s, steps) == mid
    requires Enabled(cfg, mid, step) && Allowed(h, mid, step)
    ensures Legal(h, cfg, s, steps + [step]) && Run(h, cfg, s, steps + [step]) == Next(cfg, mid, step)
  {
    hide Next, Enabled, Allowed, Legal, Run;
    RunSnoc(h, cfg, s, steps, step);
  }

  function Asking(s: System, r: Id, request: AP.Request, stage: Stage): System {
    s.(admissions := s.admissions[r := Admission(request, stage)])
  }

  lemma LookupStep(h: Hypotheses, cfg: Config, s: System, r: Id, request: AP.Request, found: Option<Id>)
    requires r !in s.admissions && WellFormed(cfg, request) && AP.IsLookup(Rows(s.store), request, found)
    ensures var step := AdmitLookup(r, request, found);
            && Enabled(cfg, s, step) && Allowed(h, s, step)
            && Next(cfg, s, step) == if found.Some? then s else Asking(s, r, request, LookedUp)
  {
  }

  lemma GlobalStep(h: Hypotheses, cfg: Config, s: System, r: Id, request: AP.Request)
    requires r !in s.admissions
    ensures var mid, step := Asking(s, r, request, LookedUp), AdmitGlobal(r);
            && Enabled(cfg, mid, step) && Allowed(h, mid, step)
            && Next(cfg, mid, step) ==
                 if AP.GlobalFull(cfg.caps, Rows(s.store)) then s else Asking(s, r, request, GlobalCounted)
  {
    assert Asking(s, r, request, LookedUp).admissions - {r} == s.admissions;
  }

  lemma OwnStep(h: Hypotheses, cfg: Config, s: System, r: Id, request: AP.Request)
    requires r !in s.admissions && (h.serialAdmissions ==> CountedFor(s, BucketOf(request)) == {})
    ensures var mid, step := Asking(s, r, request, GlobalCounted), AdmitOwn(r);
            && Enabled(cfg, mid, step) && Allowed(h, mid, step)
            && Next(cfg, mid, step) ==
                 if AP.OwnFull(cfg.caps, Rows(s.store), request).Some? then s else Asking(s, r, request, OwnCounted)
  {
    var mid := Asking(s, r, request, GlobalCounted);
    assert mid.admissions - {r} == s.admissions;
    assert CountedFor(mid, BucketOf(request)) == CountedFor(s, BucketOf(request));
  }

  lemma PositionStep(h: Hypotheses, cfg: Config, s: System, r: Id, request: AP.Request)
    requires r !in s.admissions && WellFormed(cfg, request)
    ensures var mid, step := Asking(s, r, request, OwnCounted), AdmitPosition(r);
            && Enabled(cfg, mid, step) && Allowed(h, mid, step)
            && Next(cfg, mid, step) == Asking(s, r, request, Positioned(LaneSize(s.store, request.kind), s.clock))
  {
  }

  lemma InsertStep(h: Hypotheses, cfg: Config, s: System, r: Id, request: AP.Request, position: nat, id: Id)
    requires r !in s.admissions && id !in s.store && !Refuses(s.store, request)
    ensures var mid, step := Asking(s, r, request, Positioned(position, s.clock)), AdmitInsert(r, id, s.clock);
            && Enabled(cfg, mid, step) && Allowed(h, mid, step)
            && Next(cfg, mid, step) == s.(store := s.store[id := Created(AP.NewJob(request, s.clock), s.clock)])
  {
    assert Asking(s, r, request, Positioned(position, s.clock)).admissions - {r} == s.admissions;
  }

  /** An undisturbed admission is a run of the protocol that decides as AdmitOnPostgres and the in-memory
      admission do, and leaves nothing behind but the job. */
  lemma AdmissionIsARun(h: Hypotheses, cfg: Config, s: System, r: Id, request: AP.Request, found: Option<Id>, id: Id)
    requires r !in s.admissions && id !in s.store && WellFormed(cfg, request)
    requires AP.IsLookup(Rows(s.store), request, found)
    requires h.serialAdmissions ==> CountedFor(s, BucketOf(request)) == {}
    ensures Legal(h, cfg, s, Script(cfg, s, r, request, found, id))
    ensures Run(h, cfg, s, Script(cfg, s, r, request, found, id)) ==
            s.(store := OnVerdict(s.store, id, AP.Decide(cfg.caps, Rows(s.store), request, found, s.clock), s.clock))
  {
    hide Next, Enabled, Allowed, Legal, Run, AP.GlobalFull, AP.OwnFull, Asking, CountedFor, LaneSize, KindsForBackend;
    var a, b, c, d, e :=
      AdmitLookup(r, request, found), AdmitGlobal(r), AdmitOwn(r), AdmitPosition(r), AdmitInsert(r, id, s.clock);
    NoSteps(h, cfg, s);
    LookupStep(h, cfg, s, r, request, found);
    Onward(h, cfg, s, [], s, a);
    assert [] + [a] == [a];
    if found.None? {
      GlobalStep(h, cfg, s, r, request);
      Onward(h, cfg, s, [a], Asking(s, r, request, LookedUp), b);
      assert [a] + [b] == [a, b];
      if !AP.GlobalFull(cfg.caps, Rows(s.store)) {
        OwnStep(h, cfg, s, r, request);
        Onward(h, cfg, s, [a, b], Asking(s, r, request, GlobalCounted), c);
        assert [a, b] + [c] == [a, b, c];
        if AP.OwnFull(cfg.caps, Rows(s.store), request).None? {
          var position := LaneSize(s.store, request.kind);
          PositionStep(h, cfg, s, r, request);
          Onward(h, cfg, s, [a, b, c], Asking(s, r, request, OwnCounted), d);
          assert [a, b, c] + [d] == [a, b, c, d];
          InsertStep(h, cfg, s, r, request, position, id);
          Onward(h, cfg, s, [a, b, c, d], Asking(s, r, request, Positioned(position, s.clock)), e);
          assert [a, b, c, d] + [e] == [a, b, c, d, e];
        }
      }
    }
  }
}
