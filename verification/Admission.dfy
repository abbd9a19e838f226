// admit_generation_job and finalize_generation: what a request's inputs are normalised to, and
// the one validated way into the queue.
module Admission {
  import opened Basics
  import opened Jobs
  import opened ClaimOrder
  import opened Registry
  import opened MemoryQueue
  import AP = AdmissionPolicy
  import OV = Overrides

  datatype Settings = Settings(
    profiles: set<string>, allowlists: OV.Allowlists, previewEnabled: bool, previewSteps: int,
    caps: AP.Caps, comfySlots: int, geminiSlots: int, jobSeconds: real)

  datatype AdmissionError =
    | UnknownWorkflow
    | BadProfile(profile: OV.ProfileError)
    | InvalidOverride(override: OV.OverrideError)
    | PreviewNotSupported
    | IdempotencyConflict
    | QueueFull
    | ConversationFull
    | UserFull

  // ---- normalisation ----------------------------------------------------------------------

  /** model_profile, model_overrides and is_preview as they are stored; a preview also keeps the
      overrides it was asked for. */
  function ComfyPayload(s: Settings, inputs: Payload, profile: string, overrides: Payload): Payload {
    if Truthy(Lookup(inputs, "preview")) then
      inputs["model_profile" := VStr(profile)]
            ["model_overrides" := VObj(overrides["steps" := VInt(s.previewSteps)])]
            ["is_preview" := VBool(true)]
            ["preview_original_overrides" := VObj(overrides)]
    else
      inputs["model_profile" := VStr(profile)]["model_overrides" := VObj(overrides)]["is_preview" := VBool(false)]
  }

  /** The payload a request is admitted with, or why it is refused. */
  function Normalised(c: OV.Conversions, s: Settings, backend: Backend, inputs: Payload): Result<Payload, AdmissionError> {
    var preview := Truthy(Lookup(inputs, "preview"));
    match backend
    case Gemini => if preview then Err(PreviewNotSupported) else Ok(inputs)
    case Comfyui =>
      var profile := OV.ResolveProfileKey(s.profiles, Lookup(inputs, "model_profile"));
      var overrides := OV.Validated(c, s.allowlists, Lookup(inputs, "model_overrides"));
      if profile.Err? then Err(BadProfile(profile.error))
      else if overrides.Err? then Err(InvalidOverride(overrides.error))
      else if preview && !s.previewEnabled then Err(PreviewNotSupported)
      else Ok(ComfyPayload(s, inputs, profile.value, overrides.value))
  }

  method Normalise(c: OV.Conversions, s: Settings, backend: Backend, inputs: Payload)
    returns (r: Result<Payload, AdmissionError>)
    ensures r == Normalised(c, s, backend, inputs)
  {
    hide OV.Validated, OV.ResolveProfileKey;
    var isPreview := Truthy(Lookup(inputs, "preview"));
    if backend.Gemini? {
      return if isPreview then Err(PreviewNotSupported) else Ok(inputs);
    }
    var resolved := OV.ResolveProfileKey(s.profiles, Lookup(inputs, "model_profile"));
    if resolved.Err? { return Err(BadProfile(resolved.error)); }
    var validated := OV.ValidateOverrides(c, s.allowlists, Lookup(inputs, "model_overrides"));
    if validated.Err? { return Err(InvalidOverride(validated.error)); }
    var finalOverrides := validated.value;
    if isPreview {
      if !s.previewEnabled { return Err(PreviewNotSupported); }
      finalOverrides := finalOverrides["steps" := VInt(s.previewSteps)];
    }
    var stored := inputs["model_profile" := VStr(resolved.value)]["model_overrides" := VObj(finalOverrides)]
                        ["is_preview" := VBool(isPreview)];
    if isPreview { stored := stored["preview_original_overrides" := VObj(validated.value)]; }
    r := Ok(stored);
  }

  // ---- the preview / finalize round trip ------------------------------------------------------

  /** finalize_generation's reconstruction of the inputs, key by key. */
  function FinalInputs(stored: Payload, originalId: string): Payload {
    var restored := if "preview_original_overrides" in stored then stored["preview_original_overrides"] else VObj(map[]);
    (stored - {"preview", "is_preview", "preview_original_overrides"})
      ["model_overrides" := restored]["preview_of" := VStr(originalId)]
  }

  method RebuildInputs(stored: Payload, originalId: string) returns (finalInputs: Payload)
    ensures finalInputs == FinalInputs(stored, originalId)
  {
    KeysDiffer();
    finalInputs := stored - {"preview"};
    finalInputs := finalInputs - {"is_preview"};
    var original := if "preview_original_overrides" in finalInputs
      then finalInputs["preview_original_overrides"] else VObj(map[]);
    finalInputs := finalInputs - {"preview_original_overrides"};
    finalInputs := finalInputs["model_overrides" := original];
    finalInputs := finalInputs["preview_of" := VStr(originalId)];
  }

  lemma KeysDiffer()
    ensures var ks := ["preview", "is_preview", "preview_original_overrides", "model_overrides", "preview_of", "model_profile"];
            forall i, j :: 0 <= i < j < |ks| ==> ks[i] != ks[j]
  {
    assert |"preview"| == 7 && |"is_preview"| == 10 && |"preview_original_overrides"| == 26;
    assert |"model_overrides"| == 15 && |"preview_of"| == 10 && |"model_profile"| == 13;
    assert "is_preview"[0] == 'i' && "preview_of"[0] == 'p';
  }

  /** Normalising a stored non-preview payload again does not change it. */
  lemma NormalisationIdempotent(c: OV.Conversions, s: Settings, backend: Backend, inputs: Payload)
    requires OV.Faithful(c) && s.allowlists.maxNegativePromptChars >= 0
    requires !Truthy(Lookup(inputs, "preview")) && Normalised(c, s, backend, inputs).Ok?
    ensures Normalised(c, s, backend, Normalised(c, s, backend, inputs).value) == Normalised(c, s, backend, inputs)
  {
    hide OV.Validated, OV.ResolveProfileKey, OV.Faithful;
    KeysDiffer();
    if backend.Comfyui? {
      var profile := OV.ResolveProfileKey(s.profiles, Lookup(inputs, "model_profile"));
      var overrides := OV.Validated(c, s.allowlists, Lookup(inputs, "model_overrides"));
      OV.ResolveIdempotent(s.profiles, Lookup(inputs, "model_profile"));
      OV.ValidationIdempotent(c, s.allowlists, Lookup(inputs, "model_overrides"));
      var stored := Normalised(c, s, backend, inputs).value;
      assert stored == ComfyPayload(s, stored, profile.value, overrides.value);
    }
  }

  /** Finalizing a preview of the inputs x admits exactly the payload a direct, non-preview admission
      of x would store, plus preview_of; for every x but those that already carry the reserved key
      preview_original_overrides. */
  lemma FinalizeMatchesDirectIff(c: OV.Conversions, s: Settings, x: Payload, originalId: string)
    requires OV.Faithful(c) && s.allowlists.maxNegativePromptChars >= 0
    requires Truthy(Lookup(x, "preview")) && Normalised(c, s, Comfyui, x).Ok?
    ensures var stored := Normalised(c, s, Comfyui, x).value;
            var direct := Normalised(c, s, Comfyui, x - {"preview"});
            var final := Normalised(c, s, Comfyui, FinalInputs(stored, originalId));
            && direct.Ok? && final.Ok?
            && (final.value == direct.value["preview_of" := VStr(originalId)] <==>
                "preview_original_overrides" !in x)
  {
    hide OV.Validated, OV.ResolveProfileKey, OV.Faithful;
    KeysDiffer();
    var rawProfile, rawOverrides := Lookup(x, "model_profile"), Lookup(x, "model_overrides");
    var profile := OV.ResolveProfileKey(s.profiles, rawProfile).value;
    var overrides := OV.Validated(c, s.allowlists, rawOverrides).value;
    var stored := ComfyPayload(s, x, profile, overrides);
    assert Normalised(c, s, Comfyui, x) == Ok(stored);
    FinalLookups(s, x, originalId, profile, overrides);
    OV.ResolveIdempotent(s.profiles, rawProfile);
    OV.ValidationIdempotent(c, s.allowlists, rawOverrides);
    var inputs := FinalInputs(stored, originalId);
    assert Normalised(c, s, Comfyui, x - {"preview"}) == Ok(ComfyPayload(s, x - {"preview"}, profile, overrides));
    assert Normalised(c, s, Comfyui, inputs) == Ok(ComfyPayload(s, inputs, profile, overrides));
    SamePayloads(s, x, originalId, profile, overrides);
  }

  /** What a preview stores: the request with its resolved profile and its validated overrides, but for the
      step count, which is the preview's; and the overrides it was asked for, to be restored. A direct
      request stores the overrides themselves. */
  lemma PreviewStores(c: OV.Conversions, s: Settings, x: Payload)
    requires Normalised(c, s, Comfyui, x).Ok?
    ensures var stored := Normalised(c, s, Comfyui, x).value;
            var preview := Truthy(Lookup(x, "preview"));
            var overrides := OV.Validated(c, s.allowlists, Lookup(x, "model_overrides"));
            var profile := OV.ResolveProfileKey(s.profiles, Lookup(x, "model_profile"));
            && overrides.Ok? && profile.Ok?
            && Lookup(stored, "model_profile") == VStr(profile.value)
            && Lookup(stored, "is_preview") == VBool(preview)
            && Lookup(stored, "model_overrides") ==
                 VObj(if preview then overrides.value["steps" := VInt(s.previewSteps)] else overrides.value)
            && (preview ==> Lookup(stored, "preview_original_overrides") == VObj(overrides.value))
            && var written := {"model_profile", "is_preview", "model_overrides"} +
                              (if preview then {"preview_original_overrides"} else {});
               forall k :: k !in written ==> Lookup(stored, k) == Lookup(x, k)
  {
    KeysDiffer();
    hide OV.Validated, OV.ResolveProfileKey;
  }

  /** So a preview is rendered as the direct request would be, in the preview's number of steps. */
  lemma PreviewRendersAsDirect(c: OV.Conversions, s: Settings, x: Payload, p: OV.Profile)
    requires Truthy(Lookup(x, "preview")) && Normalised(c, s, Comfyui, x).Ok?
    ensures var preview, direct := Normalised(c, s, Comfyui, x), Normalised(c, s, Comfyui, x - {"preview"});
            && direct.Ok?
            && Lookup(preview.value, "model_overrides").VObj? && Lookup(direct.value, "model_overrides").VObj?
            && OV.Layered(p, Lookup(preview.value, "model_overrides").fields) ==
               OV.Layered(p, Lookup(direct.value, "model_overrides").fields).(steps := s.previewSteps)
  {
    KeysDiffer();
    PreviewAcceptedIff(c, s, x);
    assert Lookup(x - {"preview"}, "model_overrides") == Lookup(x, "model_overrides");
    assert Lookup(x - {"preview"}, "preview") == VNull;
    PreviewStores(c, s, x);
    PreviewStores(c, s, x - {"preview"});
    hide Normalised, OV.Layered, OV.Validated;
    OV.PreviewOnlyChangesSteps(p, OV.Validated(c, s.allowlists, Lookup(x, "model_overrides")).value, s.previewSteps);
  }

  /** Of the direct admission and the preview only the preview can be refused for being one. */
  lemma PreviewAcceptedIff(c: OV.Conversions, s: Settings, x: Payload)
    requires Truthy(Lookup(x, "preview"))
    ensures Normalised(c, s, Comfyui, x).Ok? <==>
            s.previewEnabled && Normalised(c, s, Comfyui, x - {"preview"}).Ok?
  {
    KeysDiffer();
    hide OV.Validated, OV.ResolveProfileKey;
    assert Lookup(x - {"preview"}, "model_profile") == Lookup(x, "model_profile");
    assert Lookup(x - {"preview"}, "model_overrides") == Lookup(x, "model_overrides");
  }

  lemma FinalLookups(s: Settings, x: Payload, originalId: string, profile: string, overrides: Payload)
    requires Truthy(Lookup(x, "preview"))
    ensures var inputs := FinalInputs(ComfyPayload(s, x, profile, overrides), originalId);
            && Lookup(inputs, "preview") == VNull
            && Lookup(inputs, "model_profile") == VStr(profile)
            && Lookup(inputs, "model_overrides") == VObj(overrides)
  {
    KeysDiffer();
  }

  lemma SamePayloads(s: Settings, x: Payload, originalId: string, profile: string, overrides: Payload)
    requires Truthy(Lookup(x, "preview"))
    ensures var inputs := FinalInputs(ComfyPayload(s, x, profile, overrides), originalId);
            ComfyPayload(s, inputs, profile, overrides) ==
            ComfyPayload(s, x - {"preview"}, profile, overrides)["preview_of" := VStr(originalId)] <==>
            "preview_original_overrides" !in x
  {
    KeysDiffer();
    var inputs := FinalInputs(ComfyPayload(s, x, profile, overrides), originalId);
    FinalLookups(s, x, originalId, profile, overrides);
    var final := ComfyPayload(s, inputs, profile, overrides);
    var direct := ComfyPayload(s, x - {"preview"}, profile, overrides)["preview_of" := VStr(originalId)];
    assert "preview_original_overrides" !in final;
    assert "preview_original_overrides" in direct <==> "preview_original_overrides" in x;
    forall key | key != "preview_original_overrides"
      ensures key in final <==> key in direct
      ensures key in final ==> final[key] == direct[key]
    {
    }
  }

  // ---- the estimate ---------------------------------------------------------------------------

  function CapacityForBackend(s: Settings, backend: Backend): int {
    match backend case Comfyui => s.comfySlots case Gemini => s.geminiSlots
  }

  function EstimateWaitSeconds(s: Settings, position: nat, backend: Backend): Option<real> {
    var capacity := CapacityForBackend(s, backend);
    if capacity <= 0 then None else Some(Rounds(position / capacity, s))
  }

  /** The time n rounds of jobs take. */
  function Rounds(n: int, s: Settings): real { n as real * s.jobSeconds }

  /** The estimate is the number of full rounds of the backend's slots that go before, times the duration
      of a job; so a job among the first of them waits for nothing. Without slots there is no estimate. */
  lemma EstimateCountsRounds(s: Settings, position: nat, backend: Backend, slots: int, rounds: nat)
    requires slots == if backend.Gemini? then s.geminiSlots else s.comfySlots
    requires slots > 0 ==> rounds * slots <= position < (rounds + 1) * slots
    ensures EstimateWaitSeconds(s, position, backend) ==
            if slots > 0 then Some(rounds as real * s.jobSeconds) else None
  {
    if slots > 0 {
      var k := CapacityForBackend(s, backend);
      var r := position - rounds * k;
      assert (rounds + 1) * k == rounds * k + k;
      QuotientIs(position, k, rounds, r);
      assert EstimateWaitSeconds(s, position, backend) == Some(Rounds(rounds, s));
      assert Rounds(rounds, s) == rounds as real * s.jobSeconds;
    }
  }

  // ---- admission --------------------------------------------------------------------------------

  datatype AdmissionResult = AdmissionResult(
    id: Id, state: State, kind: string, replayed: bool,
    position: Option<nat>, waitSeconds: Option<real>, isPreview: bool)

  /** What each verdict of the policy is answered with. */
  ghost predicate Answers(s: Settings, m: Table, newId: Id, w: Workflow, inputs: Payload, v: AP.Verdict,
                          r: Result<AdmissionResult, AdmissionError>) {
    match v
    case Replay(id) =>
      id in m &&
      r == Ok(AdmissionResult(id, m[id].state, m[id].kind, true, None, None, Truthy(Lookup(m[id].payload, "is_preview"))))
    case Conflict => r == Err(IdempotencyConflict)
    case QueueFull => r == Err(QueueFull)
    case ConversationFull => r == Err(ConversationFull)
    case UserFull => r == Err(UserFull)
    case Admit(job) =>
      var position := |Lane(m, Some(KindsForBackend(w.backend)))|;
      r == Ok(AdmissionResult(newId, Queued, w.name, false, Some(position), EstimateWaitSeconds(s, position, w.backend),
                       Truthy(Lookup(inputs, "preview"))))
  }

  /** What a well-formed request is told, from the rows as they are: a known key is replayed, or is a conflict;
      a new one is refused exactly when so many rows wait, first counted system-wide and then its
      conversation's, or its user's when it has none; otherwise it is queued behind its lane. */
  ghost predicate AnsweredByCounts(s: Settings, m: Table, newId: Id, backend: Backend, q: AP.Request, isPreview: bool,
                                   r: Result<AdmissionResult, AdmissionError>) {
    var known := set x | x in m && m[x].user == q.user && m[x].key == q.key && m[x].kind == q.kind;
    var waiting := set x | x in m && (m[x].state == Queued || m[x].state == RetryWait);
    var own := set x | x in waiting && if q.conversation.Some? then m[x].conversation == q.conversation else m[x].user == q.user;
    var lane := set x | x in waiting && BackendForKind(m[x].kind) == Some(backend);
    var full := s.caps.globalCap > 0 && |waiting| >= s.caps.globalCap;
    var ownFull := s.caps.maxQueued > 0 && |own| >= s.caps.maxQueued;
    if known != {} then
      exists x :: x in known &&
        r == (if m[x].payload != q.payload then Err(IdempotencyConflict)
              else Ok(AdmissionResult(x, m[x].state, q.kind, true, None, None, Truthy(Lookup(m[x].payload, "is_preview")))))
    else
      && (r == Err(QueueFull) <==> full)
      && (r == Err(ConversationFull) <==> !full && ownFull && q.conversation.Some?)
      && (r == Err(UserFull) <==> !full && ownFull && q.conversation.None?)
      && (!full && !ownFull ==>
            r == Ok(AdmissionResult(newId, Queued, q.kind, false, Some(|lane|), EstimateWaitSeconds(s, |lane|, backend), isPreview)))
  }

  lemma OwnBacklog(m: Table, q: AP.Request)
    ensures var waiting := set x | x in m && (m[x].state == Queued || m[x].state == RetryWait);
            var own := set x | x in waiting &&
              if q.conversation.Some? then m[x].conversation == q.conversation else m[x].user == q.user;
            && Lane(m, None) == waiting
            && own == if q.conversation.Some? then ConversationBacklog(m, q.conversation.value) else UserBacklog(m, q.user)
  {
  }

  lemma LaneRows(m: Table, backend: Backend)
    ensures Lane(m, Some(KindsForBackend(backend))) ==
            set x | x in Lane(m, None) && BackendForKind(m[x].kind) == Some(backend)
  {
    hide BackendForKind, KindsForBackend;
    forall x | x in m ensures m[x].kind in KindsForBackend(backend) <==> BackendForKind(m[x].kind) == Some(backend) {
      LanesPartition(m[x].kind);
    }
  }

  lemma VerdictByCounts(s: Settings, m: Table, newId: Id, w: Workflow, inputs: Payload, q: AP.Request,
                        found: Option<Id>, now: Time, r: Result<AdmissionResult, AdmissionError>)
    requires AP.IsLookup(m, q, found) && w.name == q.kind
    requires Answers(s, m, newId, w, inputs, AP.Decide(s.caps, m, q, found, now), r)
    ensures AnsweredByCounts(s, m, newId, w.backend, q, Truthy(Lookup(inputs, "preview")), r)
  {
    hide KindsForBackend, BackendForKind, EstimateWaitSeconds, Lookup, Truthy;
    if found.Some? {
      hide Lane, ConversationBacklog, UserBacklog;
      var known := set x | x in m && m[x].user == q.user && m[x].key == q.key && m[x].kind == q.kind;
      assert found.value in known;
    } else {
      OwnBacklog(m, q);
      LaneRows(m, w.backend);
      hide Lane, ConversationBacklog, UserBacklog;
    }
  }

  lemma ByCounts(s: Settings, m: Table, newId: Id, w: Workflow, inputs: Payload, q: AP.Request, found: Option<Id>, now: Time)
    requires AP.IsLookup(m, q, found) && w.name == q.kind
    ensures forall r :: Answers(s, m, newId, w, inputs, AP.Decide(s.caps, m, q, found, now), r) ==>
              AnsweredByCounts(s, m, newId, w.backend, q, Truthy(Lookup(inputs, "preview")), r)
  {
    hide Answers, AnsweredByCounts, AP.Decide;
    forall r | Answers(s, m, newId, w, inputs, AP.Decide(s.caps, m, q, found, now), r)
      ensures AnsweredByCounts(s, m, newId, w.backend, q, Truthy(Lookup(inputs, "preview")), r)
    {
      VerdictByCounts(s, m, newId, w, inputs, q, found, now, r);
    }
  }

  /** count_*_backlog and find_by_idempotency_key, then the caps in order, then the insertion. */
  method AdmitNormalised(queue: InMemoryJobQueue, s: Settings, w: Workflow, ghost inputs: Payload, isPreview: bool,
                         request: AP.Request, newId: Id, now: Time)
    returns (r: Result<AdmissionResult, AdmissionError>, ghost found: Option<Id>)
    requires queue.Valid() && newId !in queue.jobs
    requires w.name == request.kind && isPreview == Truthy(Lookup(inputs, "preview"))
    modifies queue
    ensures queue.Valid()
    ensures AP.IsLookup(old(queue.Rows()), request, found)
    ensures Answers(s, old(queue.Rows()), newId, w, inputs, AP.Decide(s.caps, old(queue.Rows()), request, found, now), r)
    ensures var v := AP.Decide(s.caps, old(queue.Rows()), request, found, now);
            queue.Rows() == if v.Admit? then old(queue.Rows())[newId := v.job] else old(queue.Rows())
    ensures AnsweredByCounts(s, old(queue.Rows()), newId, w.backend, request, isPreview, r)
    ensures newId in queue.Rows() <==> r.Ok? && !r.value.replayed
  {
    hide EstimateWaitSeconds, KindsForBackend, ConversationBacklog, UserBacklog, Lane, Lookup, AnsweredByCounts;
    var rows := queue.Rows();
    var existing := queue.FindByIdempotencyKey(request.user, request.key, request.kind);
    found := existing;
    ByCounts(s, rows, newId, w, inputs, request, found, now);
    if existing.Some? {
      var job := rows[existing.value];
      if job.payload != request.payload { return Err(IdempotencyConflict), found; }
      return Ok(AdmissionResult(existing.value, job.state, job.kind, true, None, None,
                         Truthy(Lookup(job.payload, "is_preview")))), found;
    }
    if s.caps.globalCap > 0 && |Lane(rows, None)| >= s.caps.globalCap { return Err(QueueFull), found; }
    if s.caps.maxQueued > 0 {
      if request.conversation.Some? {
        if |ConversationBacklog(rows, request.conversation.value)| >= s.caps.maxQueued {
          return Err(ConversationFull), found;
        }
      } else if |UserBacklog(rows, request.user)| >= s.caps.maxQueued {
        return Err(UserFull), found;
      }
    }
    var position := |Lane(rows, Some(KindsForBackend(w.backend)))|;
    var wait := EstimateWaitSeconds(s, position, w.backend);
    EnqueueNew(queue, request, newId, now);
    r := Ok(AdmissionResult(newId, Queued, request.kind, false, Some(position), wait, isPreview));
  }

  method EnqueueNew(queue: InMemoryJobQueue, request: AP.Request, newId: Id, now: Time)
    requires queue.Valid() && newId !in queue.jobs
    modifies queue
    ensures queue.Valid()
    ensures queue.Rows() == old(queue.Rows())[newId := AP.NewJob(request, now)]
  {
    var job := new QueuedJob(newId, AP.NewJob(request, now));
    queue.Enqueue(job);
  }

  datatype Submission = Submission(
    user: Id, name: string, version: string, inputs: Payload, key: string, conversation: Option<Id>)

  /** What admit_generation_job returns and leaves behind: a refusal leaves the table as it was. */
  ghost predicate AdmissionOutcome(c: OV.Conversions, s: Settings, q: Submission, newId: Id, now: Time,
                                   before: Table, after: Table, r: Result<AdmissionResult, AdmissionError>) {
    var w := ResolveWorkflow(q.name, q.version);
    if w.None? then r == Err(UnknownWorkflow) && after == before
    else
      var payload := Normalised(c, s, w.value.backend, q.inputs);
      if payload.Err? then r == Err(payload.error) && after == before
      else Decided(s, q, w.value, payload.value, newId, now, before, after, r)
  }

  ghost predicate Decided(s: Settings, q: Submission, w: Workflow, payload: Payload, newId: Id, now: Time,
                          before: Table, after: Table, r: Result<AdmissionResult, AdmissionError>) {
    var request := AP.Request(q.user, q.conversation, q.name, q.key, payload);
    exists found :: AP.IsLookup(before, request, found) &&
      var v := AP.Decide(s.caps, before, request, found, now);
      && Answers(s, before, newId, w, q.inputs, v, r)
      && after == if v.Admit? then before[newId := v.job] else before
  }

  /** admit_generation_job on the in-memory queue. */
  method AdmitGenerationJob(queue: InMemoryJobQueue, c: OV.Conversions, s: Settings, q: Submission, newId: Id, now: Time)
    returns (r: Result<AdmissionResult, AdmissionError>)
    requires queue.Valid() && newId !in queue.jobs
    modifies queue
    ensures queue.Valid()
    ensures AdmissionOutcome(c, s, q, newId, now, old(queue.Rows()), queue.Rows(), r)
    ensures var w := ResolveWorkflow(q.name, q.version);
            w.Some? && Normalised(c, s, w.value.backend, q.inputs).Ok? ==>
              AnsweredByCounts(s, old(queue.Rows()), newId, w.value.backend,
                               AP.Request(q.user, q.conversation, q.name, q.key, Normalised(c, s, w.value.backend, q.inputs).value),
                               Truthy(Lookup(q.inputs, "preview")), r)
  {
    hide AnsweredByCounts, ResolveWorkflow, Normalised, AP.IsLookup, AP.Decide, Answers, InMemoryJobQueue.Rows, Lookup, Lane;
    var w := ResolveWorkflow(q.name, q.version);
    if w.None? { return Err(UnknownWorkflow); }
    ResolvedWorkflowLane(q.name, q.version);
    var stored := Normalise(c, s, w.value.backend, q.inputs);
    if stored.Err? { return Err(stored.error); }
    ghost var found;
    r, found := AdmitNormalised(queue, s, w.value, q.inputs, Truthy(Lookup(q.inputs, "preview")),
                                AP.Request(q.user, q.conversation, q.name, q.key, stored.value), newId, now);
  }

  /** Sending the same raw request again returns the job it was admitted as, whatever happened to the
      job meanwhile and however full the queue is, and changes nothing. The replay reports the preview
      flag the job was stored with: the admission's own answer, unless a Gemini request carried an
      is_preview key of its own. */
  lemma ResubmissionReplays(c: OV.Conversions, s: Settings, q: Submission, id: Id, now: Time, before: Table, after: Table,
                            r: Result<AdmissionResult, AdmissionError>, later: Table, newId: Id, newNow: Time,
                            end: Table, again: Result<AdmissionResult, AdmissionError>)
    requires AdmissionOutcome(c, s, q, id, now, before, after, r) && r.Ok? && !r.value.replayed
    requires id in after && id in later && IdentityOf(later[id]) == IdentityOf(after[id]) && AP.UniqueKeys(later)
    requires AdmissionOutcome(c, s, q, newId, newNow, later, end, again)
    ensures end == later
    ensures again.Ok? && again.value.replayed && again.value.id == id && again.value.kind == r.value.kind
    ensures again.value.isPreview == r.value.isPreview <==>
            ResolveWorkflow(q.name, q.version).value.backend.Comfyui? || !Truthy(Lookup(q.inputs, "is_preview"))
  {
    hide ResolveWorkflow, Normalised, KindsForBackend, Lane, ConversationBacklog, UserBacklog;
    var w := ResolveWorkflow(q.name, q.version).value;
    StoredFlag(c, s, w.backend, q.inputs);
    ResolvedWorkflowLane(q.name, q.version);
    SameJobAnswers(s, q, w, Normalised(c, s, w.backend, q.inputs).value, id, now, before, after, r, later, newId, newNow, end, again);
  }

  /** The flag a payload is stored with. */
  lemma StoredFlag(c: OV.Conversions, s: Settings, backend: Backend, inputs: Payload)
    requires Normalised(c, s, backend, inputs).Ok?
    ensures Truthy(Lookup(Normalised(c, s, backend, inputs).value, "is_preview")) ==
            (if backend.Comfyui? then Truthy(Lookup(inputs, "preview")) else Truthy(Lookup(inputs, "is_preview")))
    ensures backend.Gemini? ==> !Truthy(Lookup(inputs, "preview"))
  {
    hide OV.Validated, OV.ResolveProfileKey;
    KeysDiffer();
  }

  lemma SameJobAnswers(s: Settings, q: Submission, w: Workflow, payload: Payload, id: Id, now: Time, before: Table,
                       after: Table, r: Result<AdmissionResult, AdmissionError>, later: Table, newId: Id, newNow: Time,
                       end: Table, again: Result<AdmissionResult, AdmissionError>)
    requires Decided(s, q, w, payload, id, now, before, after, r) && r.Ok? && !r.value.replayed
    requires id in after && id in later && IdentityOf(later[id]) == IdentityOf(after[id]) && AP.UniqueKeys(later)
    requires Decided(s, q, w, payload, newId, newNow, later, end, again)
    requires w.name == q.name
    ensures end == later
    ensures again.Ok? && again.value.replayed && again.value.id == id && again.value.kind == r.value.kind
    ensures again.value.isPreview == Truthy(Lookup(payload, "is_preview"))
    ensures r.value.isPreview == Truthy(Lookup(q.inputs, "preview"))
  {
    hide KindsForBackend, Lane, ConversationBacklog, UserBacklog, EstimateWaitSeconds;
    var request := AP.Request(q.user, q.conversation, q.name, q.key, payload);
    assert after[id] == AP.NewJob(request, now);
    assert id in AP.SameKey(later, q.user, q.key, q.name);
    forall found | AP.IsLookup(later, request, found)
      ensures AP.Decide(s.caps, later, request, found, newNow) == AP.Replay(id)
    {
      AP.ReplayBeatsCaps(s.caps, later, request, found, newNow, id);
    }
  }

  datatype FinalizeError =
    | NotFound
    | NotAPreview
    | NotFinished(state: State)
    | Refused(admission: AdmissionError)

  /** Why a preview cannot be finalized, before admission is asked; previewId is None when the path
      is not a UUID. */
  function FinalizeFault(m: Table, previewId: Option<Id>, user: Id): Option<FinalizeError> {
    if previewId.None? || previewId.value !in m || m[previewId.value].user != user then Some(NotFound)
    else if !Truthy(Lookup(m[previewId.value].payload, "is_preview")) then Some(NotAPreview)
    else if !m[previewId.value].state.Succeeded? then Some(NotFinished(m[previewId.value].state))
    else None
  }

  /** The endpoint promises to refuse what is not a preview. Of a job that stores a normalised request it
      tells a preview from another exactly when the job is a ComfyUI one or the caller did not put a key
      is_preview of his own into a Gemini request. */
  lemma PreviewGuardIff(c: OV.Conversions, s: Settings, backend: Backend, inputs: Payload, m: Table, id: Id)
    requires id in m && Normalised(c, s, backend, inputs) == Ok(m[id].payload)
    ensures (FinalizeFault(m, Some(id), m[id].user) == Some(NotAPreview) <==> !Truthy(Lookup(inputs, "preview"))) <==>
            (backend.Comfyui? || !Truthy(Lookup(inputs, "is_preview")))
  {
    hide Normalised, Lookup;
    StoredFlag(c, s, backend, inputs);
  }

  /** finalize_generation: the rebuilt inputs go through admission like any other request, outside
      any conversation. */
  method FinalizeGeneration(queue: InMemoryJobQueue, c: OV.Conversions, s: Settings, previewId: Option<Id>,
                            idText: Id -> string, user: Id, key: string, newId: Id, now: Time)
    returns (r: Result<AdmissionResult, FinalizeError>, ghost admitted: Result<AdmissionResult, AdmissionError>)
    requires queue.Valid() && newId !in queue.jobs
    modifies queue
    ensures queue.Valid()
    ensures var m := old(queue.Rows());
            var mine := previewId.Some? && previewId.value in m && m[previewId.value].user == user;
            var preview := mine && Truthy(Lookup(m[previewId.value].payload, "is_preview"));
            && (r == Err(NotFound) <==> !mine)
            && (r == Err(NotAPreview) <==> mine && !preview)
            && (r.Err? && r.error.NotFinished? <==> preview && m[previewId.value].state != Succeeded)
            && (r.Err? && r.error.NotFinished? ==> r.error.state == m[previewId.value].state)
            && (r.Err? && !r.error.Refused? ==> queue.Rows() == m)
    ensures var fault := FinalizeFault(old(queue.Rows()), previewId, user);
            if fault.Some? then r == Err(fault.value) && queue.Rows() == old(queue.Rows())
            else
              var j := old(queue.Rows())[previewId.value];
              && r == (if admitted.Ok? then Ok(admitted.value) else Err(Refused(admitted.error)))
              && AdmissionOutcome(c, s, Submission(user, j.kind, "v1", FinalInputs(j.payload, idText(previewId.value)), key, None),
                                  newId, now, old(queue.Rows()), queue.Rows(), admitted)
  {
    admitted := Err(UnknownWorkflow);
    if previewId.None? || previewId.value !in queue.jobs { return Err(NotFound), admitted; }
    var original := queue.jobs[previewId.value].Row();
    if original.user != user { return Err(NotFound), admitted; }
    if !Truthy(Lookup(original.payload, "is_preview")) { return Err(NotAPreview), admitted; }
    if !original.state.Succeeded? { return Err(NotFinished(original.state)), admitted; }
    hide AdmissionOutcome, FinalInputs, Lookup;
    var finalInputs := RebuildInputs(original.payload, idText(previewId.value));
    var result := AdmitGenerationJob(queue, c, s, Submission(user, original.kind, "v1", finalInputs, key, None), newId, now);
    admitted := result;
    if result.Err? { return Err(Refused(result.error)), admitted; }
    r := Ok(result.value);
  }

  /** End to end: a preview job that holds the payload of request x, once succeeded, is finalized into a
      job that stores what a direct admission of x without `preview` stores, plus preview_of. */
  lemma FinalizedJobPayload(c: OV.Conversions, s: Settings, x: Payload, idText: Id -> string, previewId: Id,
                            user: Id, key: string, newId: Id, now: Time, before: Table, after: Table,
                            r: Result<AdmissionResult, AdmissionError>)
    requires OV.Faithful(c) && s.allowlists.maxNegativePromptChars >= 0
    requires Truthy(Lookup(x, "preview")) && "preview_original_overrides" !in x
    requires previewId in before && newId !in before && FinalizeFault(before, Some(previewId), user).None?
    requires ResolveWorkflow(before[previewId].kind, "v1").Some?
    requires ResolveWorkflow(before[previewId].kind, "v1").value.backend.Comfyui?
    requires Normalised(c, s, Comfyui, x) == Ok(before[previewId].payload)
    requires AdmissionOutcome(c, s, Submission(user, before[previewId].kind, "v1",
                                               FinalInputs(before[previewId].payload, idText(previewId)), key, None),
                              newId, now, before, after, r)
    requires r.Ok? && !r.value.replayed
    ensures var direct := Normalised(c, s, Comfyui, x - {"preview"});
            && direct.Ok? && newId in after
            && after[newId].payload == direct.value["preview_of" := VStr(idText(previewId))]
            && after[newId].kind == before[previewId].kind && after[newId].state.Queued?
  {
    hide Normalised, FinalInputs, AP.IsLookup, ResolveWorkflow;
    FinalizeMatchesDirectIff(c, s, x, idText(previewId));
  }

  // ---- the reported position ----------------------------------------------------------------------

  lemma SameRowSameLane(m: Table, m': Table, x: Id, kinds: Option<set<string>>)
    requires x in m && x in m' && m'[x] == m[x]
    ensures x in Lane(m', kinds) <==> x in Lane(m, kinds)
  {
  }

  lemma {:induction false} LaneKeysSnoc(m: Table, m': Table, keys: seq<Id>, id: Id, kinds: Option<set<string>>)
    requires id !in keys && (forall x :: x in keys ==> x in m && x in m' && m'[x] == m[x])
    requires id in m' && id in Lane(m', kinds)
    ensures LaneKeys(m', keys + [id], kinds) == LaneKeys(m, keys, kinds) + [id]
  {
    hide Lane;
    if keys == [] {
      assert keys + [id] == [id] && [id][1..] == [];
      assert LaneKeys(m', [], kinds) == [];
    } else {
      assert (keys + [id])[1..] == keys[1..] + [id];
      SameRowSameLane(m, m', keys[0], kinds);
      LaneKeysSnoc(m, m', keys[1..], id, kinds);
    }
  }

  lemma {:induction false} InsertFrame(m: Table, m': Table, o: Order, x: Id, ids: seq<Id>)
    requires x in m && x in m' && m'[x] == m[x]
    requires forall id :: id in ids ==> id in m && id in m' && m'[id] == m[id]
    ensures Insert(m', o, x, ids) == Insert(m, o, x, ids)
  {
    if ids != [] { InsertFrame(m, m', o, x, ids[1..]); }
  }

  lemma {:induction false} SortFrame(m: Table, m': Table, o: Order, ids: seq<Id>)
    requires forall id :: id in ids ==> id in m && id in m' && m'[id] == m[id]
    ensures SortIds(m', o, ids) == SortIds(m, o, ids)
  {
    if ids != [] {
      SortFrame(m, m', o, ids[1..]);
      InsertFrame(m, m', o, ids[0], SortIds(m, o, ids[1..]));
    }
  }

  lemma WaitingIsLane(m: Table, keys: seq<Id>, kinds: Option<set<string>>)
    requires NoDup(keys) && forall x :: x in keys <==> x in m
    ensures Lists(LaneKeys(m, keys, kinds), Lane(m, kinds))
    ensures |LaneKeys(m, keys, kinds)| == |Lane(m, kinds)|
    ensures forall x :: x in LaneKeys(m, keys, kinds) ==> x in Lane(m, kinds)
  {
    LaneKeysList(m, keys, kinds);
    assert Lane(m, kinds) * Elements(keys) == Lane(m, kinds);
    NoDupCardinality(LaneKeys(m, keys, kinds));
    assert Elements(LaneKeys(m, keys, kinds)) == Lane(m, kinds);
  }

  lemma JoinsLane(m: Table, id: Id, j: Job, kinds: Option<set<string>>)
    requires IsBacklog(j.state) && InKinds(kinds, j.kind)
    ensures id in Lane(m[id := j], kinds)
  {
  }

  /** The position reported at admission is the new job's live rank: among jobs of the lane that it
      does not precede, ties included, the in-memory rank is the size of the lane. */
  lemma PositionIsMemoryRank(m: Table, keys: seq<Id>, id: Id, j: Job, kinds: Option<set<string>>)
    requires NoDup(keys) && (forall x :: x in keys <==> x in m) && id !in m
    requires IsBacklog(j.state) && InKinds(kinds, j.kind)
    requires forall x :: x in Lane(m, kinds) ==> !Precedes(StaticPriority, j, m[x])
    ensures var lane := SortedLane(m[id := j], keys + [id], kinds);
            |lane| == |Lane(m, kinds)| + 1 && lane[|Lane(m, kinds)|] == id
  {
    hide Lane, Precedes, Insert;
    var m' := m[id := j];
    assert id in Lane(m', kinds) by { JoinsLane(m, id, j, kinds); }
    var waiting := LaneKeys(m, keys, kinds);
    LaneKeysSnoc(m, m', keys, id, kinds);
    WaitingIsLane(m, keys, kinds);
    NewestSortsLast(m', StaticPriority, waiting, id);
    SortFrame(m, m', StaticPriority, waiting);
    assert |SortIds(m, StaticPriority, waiting)| == |multiset(SortIds(m, StaticPriority, waiting))| == |multiset(waiting)|;
  }

  lemma EarlierPrecedes(a: Job, j: Job, now: Time, rate: real)
    requires rate > 0.0 && a.priority == j.priority == 0 && a.queuedAt <= j.queuedAt
    ensures Precedes(AgedPriority(now, rate), a, j) <==> a.queuedAt < j.queuedAt
  {
    OvertakesIff(a, j, now, rate);
    var wait := (a.queuedAt - j.queuedAt) / 60.0;
    NonPositive(wait, rate);
  }

  lemma NonPositive(wait: real, rate: real)
    requires rate > 0.0 && wait <= 0.0
    ensures wait * rate <= 0.0
    ensures wait < 0.0 ==> wait * rate < 0.0
  {
  }

  lemma InLane(m: Table, kinds: Option<set<string>>)
    ensures forall x :: x in Lane(m, kinds) ==> x in m
  {
  }

  /** Among jobs that admission created earlier, as all jobs of the table are, the reported position
      is the in-memory rank; it is also the Postgres rank exactly when none of them is queued at the
      very same instant, since that rank counts strict predecessors only. */
  lemma AdmissionPositionIsRank(m: Table, keys: seq<Id>, id: Id, r: AP.Request, now: Time, rate: real,
                                kinds: Option<set<string>>)
    requires NoDup(keys) && (forall x :: x in keys <==> x in m) && id !in m && rate > 0.0
    requires InKinds(kinds, r.kind)
    requires forall x :: x in m ==> m[x].priority == 0 && m[x].effectivePriority == 0.0 && m[x].queuedAt <= now
    ensures var lane := SortedLane(m[id := AP.NewJob(r, now)], keys + [id], kinds);
            |lane| == |Lane(m, kinds)| + 1 && lane[|Lane(m, kinds)|] == id
    ensures |Ahead(m[id := AP.NewJob(r, now)], AgedPriority(now, rate), kinds, id)| == |Lane(m, kinds)| <==>
            forall x :: x in Lane(m, kinds) ==> m[x].queuedAt < now
  {
    var j := AP.NewJob(r, now);
    assert forall x :: x in Lane(m, kinds) ==> !Precedes(StaticPriority, j, m[x]);
    hide SortedLane, Ahead, Lane;
    PositionIsMemoryRank(m, keys, id, j, kinds);
    BackOfLane(m, AgedPriority(now, rate), kinds, id, j);
    forall x | x in m ensures Precedes(AgedPriority(now, rate), m[x], j) <==> m[x].queuedAt < now {
      EarlierPrecedes(m[x], j, now, rate);
    }
    InLane(m, kinds);
  }
}
