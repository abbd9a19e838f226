// The prompt ids that carry their own routing: "<backend>:<worker index>:<real id>",
// "localfail:<hex>:<reason>" and "notconfigured:<provider>:<hex>". An id is minted by the
// scheduler process and decoded by the reconciler process, which share no memory.
module PromptIds {
  import opened Basics
  import opened Text
  import Registry

  // ---- one ComfyUI instance: locally failed submits ---------------------------------

  const LOCAL_FAIL_PREFIX: string := "localfail:"

  /** The id LiveComfyUIClient.submit mints when ComfyUI never accepted the prompt. */
  function LocalFailure(hex: string, reason: string): string { LOCAL_FAIL_PREFIX + hex + ":" + reason }

  /** get_status's prefix branch; None when the id is ComfyUI's own. */
  function LocalFailureReason(promptId: string): Option<string> {
    if LOCAL_FAIL_PREFIX <= promptId then
      var reason := Partition(promptId[|LOCAL_FAIL_PREFIX|..], ':').after;
      Some(if reason == "" then "local_failure" else reason)
    else None
  }

  /** Any reason survives, colons included; only the empty one is renamed. */
  lemma LocalFailureDecodes(hex: string, reason: string)
    requires ':' !in hex
    ensures LocalFailureReason(LocalFailure(hex, reason)) == Some(if reason == "" then "local_failure" else reason)
  {
    var id := LocalFailure(hex, reason);
    assert id[..|LOCAL_FAIL_PREFIX|] == LOCAL_FAIL_PREFIX;
    assert id[|LOCAL_FAIL_PREFIX|..] == hex + [':'] + reason;
    PartitionJoined(hex, ':', reason);
  }

  // ---- several workers ----------------------------------------------------------------

  function WorkerId(index: nat, realId: string): string { Decimal(index) + ":" + realId }

  /** Python's list indexing: a negative index counts from the end, anything else out of range
      is an IndexError. */
  function Indexed(k: nat, i: int): Option<nat> {
    if 0 <= i < k then Some(i) else if 0 <= k + i < k then Some(k + i) else None
  }

  /** MultiWorkerComfyUIClient._resolve over k workers. */
  function ResolveWorker(k: nat, promptId: string): Option<(nat, string)> {
    var p := Partition(promptId, ':');
    if !p.found then None
    else
      var index := ParseInt(p.before);
      if index.None? then None
      else
        var i := Indexed(k, index.value);
        if i.None? then None else Some((i.value, p.after))
  }

  lemma DecimalHasNoColon(n: nat)
    ensures ':' !in Decimal(n)
  {
  }

  /** Every process configured with k workers sends an id back to the worker that minted it. */
  lemma WorkerIdResolves(k: nat, index: nat, realId: string)
    requires index < k
    ensures ResolveWorker(k, WorkerId(index, realId)) == Some((index, realId))
  {
    DecimalHasNoColon(index);
    PartitionJoined(Decimal(index), ':', realId);
    assert WorkerId(index, realId) == Decimal(index) + [':'] + realId;
    ParseDecimal(index);
  }

  /** A process configured with fewer workers than the index cannot resolve the id at all, so it
      never asks the wrong worker. */
  lemma WorkerIdFewerWorkersIff(k: nat, index: nat, realId: string)
    ensures ResolveWorker(k, WorkerId(index, realId)) == None <==> index >= k
  {
    DecimalHasNoColon(index);
    PartitionJoined(Decimal(index), ':', realId);
    assert WorkerId(index, realId) == Decimal(index) + [':'] + realId;
    ParseDecimal(index);
  }

  // ---- several backends ------------------------------------------------------------------

  /** _resolve_backend: an unknown or missing kind goes to ComfyUI. */
  function ResolveBackend(kind: Option<string>): Registry.Backend {
    if kind.None? then Registry.Comfyui
    else
      var w := Registry.ResolveWorkflow(kind.value, "v1");
      if w.Some? && w.value.backend.Gemini? then Registry.Gemini else Registry.Comfyui
  }

  const NOT_CONFIGURED_TAG: string := "notconfigured"

  function BackendTag(b: Registry.Backend): string {
    match b case Comfyui => "comfyui" case Gemini => "gemini"
  }

  function BackendId(b: Registry.Backend, realId: string): string { BackendTag(b) + ":" + realId }

  function NotConfiguredId(provider: string, hex: string): string {
    NOT_CONFIGURED_TAG + ":" + provider + ":" + hex
  }

  /** Where CompositeComfyUIClient.get_status takes an id. */
  datatype Route =
    | ToBackend(backend: Registry.Backend, realId: string)
    | Failed(error: string)

  /** _decode and the branches of get_status; the Gemini client may be missing in this process. */
  function RouteOf(promptId: string, geminiConfigured: bool, imageProvider: string): Route {
    var p := Partition(promptId, ':');
    if !p.found then
      (if p.before == NOT_CONFIGURED_TAG then Failed(imageProvider + "_not_configured") else Failed("unknown_prompt_id"))
    else if p.before == NOT_CONFIGURED_TAG then
      var provider := Partition(p.after, ':').before;
      Failed((if provider == "" then imageProvider else provider) + "_not_configured")
    else if p.before == BackendTag(Registry.Comfyui) then ToBackend(Registry.Comfyui, p.after)
    else if p.before == BackendTag(Registry.Gemini) then
      (if geminiConfigured then ToBackend(Registry.Gemini, p.after) else Failed("unknown_prompt_id"))
    else Failed("unknown_prompt_id")
  }

  lemma TagsDiffer()
    ensures BackendTag(Registry.Comfyui) != BackendTag(Registry.Gemini)
    ensures NOT_CONFIGURED_TAG != BackendTag(Registry.Comfyui) && NOT_CONFIGURED_TAG != BackendTag(Registry.Gemini)
    ensures ':' !in BackendTag(Registry.Comfyui) && ':' !in BackendTag(Registry.Gemini) && ':' !in NOT_CONFIGURED_TAG
  {
    assert BackendTag(Registry.Comfyui)[0] == 'c' && BackendTag(Registry.Gemini)[0] == 'g' && NOT_CONFIGURED_TAG[0] == 'n';
  }

  /** An id goes back to its backend in any process that has that backend's client. */
  lemma BackendIdRoutes(b: Registry.Backend, realId: string, geminiConfigured: bool, imageProvider: string)
    ensures RouteOf(BackendId(b, realId), geminiConfigured, imageProvider) ==
            (if b.Gemini? && !geminiConfigured then Failed("unknown_prompt_id") else ToBackend(b, realId))
  {
    TagsDiffer();
    PartitionJoined(BackendTag(b), ':', realId);
    assert BackendId(b, realId) == BackendTag(b) + [':'] + realId;
  }

  /** Anything that does not start with one of the three tags is an unknown prompt id. */
  lemma StrangersAreUnknown(promptId: string, geminiConfigured: bool, imageProvider: string)
    requires ':' !in promptId || promptId[0] !in "cgn"
    requires promptId != NOT_CONFIGURED_TAG
    ensures RouteOf(promptId, geminiConfigured, imageProvider) == Failed("unknown_prompt_id")
  {
    TagsDiffer();
    var p := Partition(promptId, ':');
    if p.found && p.before != "" { assert promptId[0] == p.before[0]; }
    assert NOT_CONFIGURED_TAG[0] == 'n' && BackendTag(Registry.Comfyui)[0] == 'c' && BackendTag(Registry.Gemini)[0] == 'g';
  }

  /** The failure of an unconfigured provider names that provider wherever it is decoded. */
  lemma NotConfiguredRoutes(provider: string, hex: string, geminiConfigured: bool, imageProvider: string)
    requires ':' !in provider && provider != ""
    ensures RouteOf(NotConfiguredId(provider, hex), geminiConfigured, imageProvider) ==
            Failed(provider + "_not_configured")
  {
    TagsDiffer();
    var rest := provider + [':'] + hex;
    assert NotConfiguredId(provider, hex) == NOT_CONFIGURED_TAG + [':'] + rest;
    PartitionJoined(NOT_CONFIGURED_TAG, ':', rest);
    PartitionJoined(provider, ':', hex);
  }

  /** CompositeComfyUIClient.submit: the id it returns, given what the backend's own submit returned. */
  function CompositeSubmit(kind: Option<string>, geminiConfigured: bool, imageProvider: string, hex: string,
                           realId: string): string {
    var b := ResolveBackend(kind);
    if b.Gemini? && !geminiConfigured then NotConfiguredId(imageProvider, hex) else BackendId(b, realId)
  }

  /** Whatever submit returns for a job is decoded to the backend whose lane the job was claimed in, or
      to the failure that names the missing provider. */
  lemma CompositeRoundTrip(kind: string, b: Registry.Backend, configured: bool, provider: string, hex: string,
                           realId: string, decoderProvider: string)
    requires kind in Registry.KindsForBackend(b) && provider != "" && ':' !in provider
    ensures RouteOf(CompositeSubmit(Some(kind), configured, provider, hex, realId), configured, decoderProvider) ==
            (if b.Gemini? && !configured then Failed(provider + "_not_configured") else ToBackend(b, realId))
  {
    RegistryIsVersionOne(kind, b);
    if b.Gemini? && !configured {
      NotConfiguredRoutes(provider, hex, configured, decoderProvider);
    } else {
      BackendIdRoutes(b, realId, configured, decoderProvider);
    }
  }

  /** A kind that is not registered, or none, goes to ComfyUI. */
  lemma UnknownKindsGoToComfyUI(kind: Option<string>)
    requires kind.Some? ==> kind.value !in Registry.KindsForBackend(Registry.Gemini)
    ensures ResolveBackend(kind) == Registry.Comfyui
  {
    if kind.Some? { Registry.RegistryKeysUnique(); }
  }

  lemma RegistryIsVersionOne(kind: string, b: Registry.Backend)
    requires kind in Registry.KindsForBackend(b)
    ensures ResolveBackend(Some(kind)) == b
  {
    Registry.RegistryKeysUnique();
    var w :| w in Registry.REGISTRY && w.backend == b && w.name == kind;
    assert w.version == "v1";
  }

  // ---- the whole chain ----------------------------------------------------------------------

  /** Where a nested id ends up: the worker, and either the id ComfyUI knows or a recorded failure. */
  datatype Destination =
    | Worker(index: nat, realId: string)
    | LocalFail(index: nat, reason: string)
    | ImageProvider(realId: string)
    | Unknown(error: string)

  function Follow(k: nat, promptId: string, geminiConfigured: bool, imageProvider: string): Destination {
    match RouteOf(promptId, geminiConfigured, imageProvider)
    case Failed(error) => Unknown(error)
    case ToBackend(Gemini, realId) => ImageProvider(realId)
    case ToBackend(Comfyui, nested) =>
      var w := ResolveWorker(k, nested);
      if w.None? then Unknown("unknown_prompt_id")
      else if LocalFailureReason(w.value.1).Some? then LocalFail(w.value.0, LocalFailureReason(w.value.1).value)
      else Worker(w.value.0, w.value.1)
  }

  /** The id of a ComfyUI job, minted by one process, is decoded by any other process with the same
      worker list to the same worker and the same inner id, whatever characters that id contains. */
  lemma NestedIdRoundTrip(k: nat, index: nat, realId: string, geminiConfigured: bool, imageProvider: string)
    requires index < k
    ensures Follow(k, BackendId(Registry.Comfyui, WorkerId(index, realId)), geminiConfigured, imageProvider) ==
            (if LOCAL_FAIL_PREFIX <= realId
             then LocalFail(index, LocalFailureReason(realId).value)
             else Worker(index, realId))
  {
    BackendIdRoutes(Registry.Comfyui, WorkerId(index, realId), geminiConfigured, imageProvider);
    WorkerIdResolves(k, index, realId);
  }

  /** So does a submit that failed locally: the reason arrives in full. */
  lemma NestedFailureRoundTrip(k: nat, index: nat, hex: string, reason: string, geminiConfigured: bool, imageProvider: string)
    requires index < k && ':' !in hex && reason != ""
    ensures Follow(k, BackendId(Registry.Comfyui, WorkerId(index, LocalFailure(hex, reason))), geminiConfigured, imageProvider)
            == LocalFail(index, reason)
  {
    NestedIdRoundTrip(k, index, LocalFailure(hex, reason), geminiConfigured, imageProvider);
    LocalFailureDecodes(hex, reason);
    assert LocalFailure(hex, reason)[..|LOCAL_FAIL_PREFIX|] == LOCAL_FAIL_PREFIX;
  }

  /** No two (worker, inner id) pairs share an id. */
  lemma NestedIdsInjective(i: nat, a: string, j: nat, b: string)
    requires BackendId(Registry.Comfyui, WorkerId(i, a)) == BackendId(Registry.Comfyui, WorkerId(j, b))
    ensures i == j && a == b
  {
    var k := i + j + 1;
    BackendIdRoutes(Registry.Comfyui, WorkerId(i, a), true, "");
    BackendIdRoutes(Registry.Comfyui, WorkerId(j, b), true, "");
    WorkerIdResolves(k, i, a);
    WorkerIdResolves(k, j, b);
  }

  // ---- round robin over the workers ------------------------------------------------------------

  class MultiWorkerClient {
    const workers: nat
    var nextIndex: nat

    ghost predicate Valid() { workers > 0 }

    constructor (workers: nat)
      requires workers > 0
      ensures Valid() && this.workers == workers && nextIndex == 0
    {
      this.workers, nextIndex := workers, 0;
    }

    method PickWorker() returns (index: nat)
      requires Valid()
      modifies this`nextIndex
      ensures index == old(nextIndex) % workers && nextIndex == old(nextIndex) + 1
    {
      index := nextIndex % workers;
      nextIndex := nextIndex + 1;
    }

    /** submit: the chosen worker's own id, tagged with its index. */
    method Submit(realIds: nat -> string) returns (promptId: string)
      requires Valid()
      modifies this`nextIndex
      ensures nextIndex == old(nextIndex) + 1
      ensures var index := old(nextIndex) % workers;
              ResolveWorker(workers, promptId) == Some((index, realIds(index)))
    {
      var index := PickWorker();
      WorkerIdResolves(workers, index, realIds(index));
      promptId := WorkerId(index, realIds(index));
    }

    /** n submits in a row; the workers that got them, in order. */
    method PickMany(n: nat) returns (picked: seq<nat>)
      requires Valid()
      modifies this`nextIndex
      ensures nextIndex == old(nextIndex) + n
      ensures picked == RoundRobin(workers, old(nextIndex), n)
    {
      picked := [];
      var i := 0;
      while i < n
        invariant 0 <= i <= n && nextIndex == old(nextIndex) + i
        invariant picked == RoundRobin(workers, old(nextIndex), i)
      {
        var index := PickWorker();
        picked := picked + [index];
        i := i + 1;
      }
    }
  }

  /** The workers that submits number start, start + 1, ... go to. */
  function RoundRobin(k: nat, start: nat, n: nat): (r: seq<nat>)
    requires k > 0
    ensures |r| == n && forall i :: 0 <= i < n ==> r[i] == (start + i) % k
  {
    seq(n, i requires 0 <= i < n => (start + i) % k)
  }

  /** How many numbers below n are congruent to w. */
  function Share(k: nat, n: nat, w: nat): nat
    requires w < k
  {
    n / k + (if n % k > w then 1 else 0)
  }

  lemma ShareStep(k: nat, n: nat, w: nat)
    requires w < k
    ensures Share(k, n + 1, w) == Share(k, n, w) + (if n % k == w then 1 else 0)
  {
    var q, r := n / k, n % k;
    assert n == q * k + r;
    if r + 1 < k {
      QuotientIs(n + 1, k, q, r + 1);
    } else {
      assert n + 1 == (q + 1) * k;
      QuotientIs(n + 1, k, q + 1, 0);
    }
  }

  lemma {:induction false} RoundRobinCount(k: nat, start: nat, n: nat, w: nat)
    requires w < k
    ensures multiset(RoundRobin(k, start, n))[w] == Share(k, start + n, w) - Share(k, start, w)
  {
    if n > 0 {
      RoundRobinCount(k, start, n - 1, w);
      assert RoundRobin(k, start, n) == RoundRobin(k, start, n - 1) + [(start + n - 1) % k];
      ShareStep(k, start + n - 1, w);
    }
  }

  /** Over any n consecutive submits, wherever the counter stands, two workers' shares differ by at
      most one. */
  lemma SubmitsSpreadEvenly(k: nat, start: nat, n: nat, v: nat, w: nat)
    requires v < k && w < k
    ensures multiset(RoundRobin(k, start, n))[v] <= multiset(RoundRobin(k, start, n))[w] + 1
  {
    RoundRobinCount(k, start, n, v);
    RoundRobinCount(k, start, n, w);
  }
}
