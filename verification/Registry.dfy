// The workflow registry and the partition of kinds into backend lanes.
module Registry {
  import opened Basics

  datatype Backend = Comfyui | Gemini

  datatype Workflow = Workflow(name: string, version: string, backend: Backend)

  const REGISTRY: seq<Workflow> := [
    Workflow("txt2img_basic", "v1", Comfyui),
    Workflow("img2img_basic", "v1", Comfyui),
    Workflow("image_basic", "v1", Comfyui),
    Workflow("poster_infographic", "v1", Gemini)
  ]

  function ResolveWorkflow(name: string, version: string): Option<Workflow> {
    if exists w :: w in REGISTRY && w.name == name && w.version == version
    then
      RegistryKeysUnique();
      var w :| w in REGISTRY && w.name == name && w.version == version;
      Some(w)
    else None
  }

  lemma RegistryKeysUnique()
    ensures forall v, w :: v in REGISTRY && w in REGISTRY && v.name == w.name ==> v == w
  {
    assert "txt2img_basic"[0] == 't' && "img2img_basic"[1] == 'm' && "image_basic"[2] == 'a' && "poster_infographic"[0] == 'p';
    assert "img2img_basic"[2] == 'g';
  }

  function KindsForBackend(b: Backend): set<string> {
    set w | w in REGISTRY && w.backend == b :: w.name
  }

  /** First registered definition of that name. */
  function BackendForKind(kind: string): Option<Backend> {
    FirstBackend(REGISTRY, kind)
  }

  function FirstBackend(ws: seq<Workflow>, kind: string): Option<Backend> {
    if ws == [] then None
    else if ws[0].name == kind then Some(ws[0].backend)
    else FirstBackend(ws[1..], kind)
  }

  lemma {:induction false} FirstBackendFinds(ws: seq<Workflow>, kind: string)
    ensures FirstBackend(ws, kind).None? <==> forall w :: w in ws ==> w.name != kind
    ensures FirstBackend(ws, kind).Some? ==>
              exists w :: w in ws && w.name == kind && FirstBackend(ws, kind) == Some(w.backend)
  {
    if ws != [] { FirstBackendFinds(ws[1..], kind); }
  }

  /** The two lanes partition the registered kinds, and a kind's lane is its backend. */
  lemma LanesPartition(kind: string)
    ensures KindsForBackend(Comfyui) !! KindsForBackend(Gemini)
    ensures forall b :: kind in KindsForBackend(b) <==> BackendForKind(kind) == Some(b)
  {
    RegistryKeysUnique();
    FirstBackendFinds(REGISTRY, kind);
    forall k | k in KindsForBackend(Comfyui) ensures k !in KindsForBackend(Gemini) {
      var v :| v in REGISTRY && v.backend == Comfyui && v.name == k;
    }
  }

  /** The lanes by name. */
  lemma LanesByName()
    ensures KindsForBackend(Comfyui) == {"txt2img_basic", "img2img_basic", "image_basic"}
    ensures KindsForBackend(Gemini) == {"poster_infographic"}
  {
    forall w | w in REGISTRY ensures w == REGISTRY[0] || w == REGISTRY[1] || w == REGISTRY[2] || w == REGISTRY[3] {}
    assert REGISTRY[0] in REGISTRY && REGISTRY[1] in REGISTRY && REGISTRY[2] in REGISTRY && REGISTRY[3] in REGISTRY;
  }

  /** Admission, the claim lanes and the router agree on where a job goes. */
  lemma ResolvedWorkflowLane(name: string, version: string)
    requires ResolveWorkflow(name, version).Some?
    ensures var w := ResolveWorkflow(name, version).value;
            w.name == name && BackendForKind(name) == Some(w.backend) && name in KindsForBackend(w.backend)
  {
    RegistryKeysUnique();
    FirstBackendFinds(REGISTRY, name);
  }
}
