// InMemoryJobQueue: the dictionary of job objects that development and tests use.
module MemoryQueue {
  import opened Basics
  import opened Jobs
  import opened ClaimOrder
  import opened Claim
  import opened JobEntry
  import AP = AdmissionPolicy
  import Retry

  datatype ExtraFields = ExtraFields(
    result: Option<Payload>, leaseOwner: Option<string>, leaseExpiresAt: Option<Time>, promptId: Option<string>)

  class QueuedJob {
    const id: Id
    const user: Id
    const conversation: Option<Id>
    const kind: string
    const priority: int
    const effectivePriority: real
    const payload: Payload
    const key: string
    const queuedAt: Time
    const maxAttempts: int
    var state: State
    var attempt: nat
    var errorCode: Option<string>
    var errorDetail: Option<string>
    var result: Option<Payload>
    var leaseOwner: Option<string>
    var leaseExpiresAt: Option<Time>
    var promptId: Option<string>
    var availableAt: Option<Time>

    constructor (id: Id, j: Job)
      ensures this.id == id && Row() == j
      ensures result.None? && leaseOwner.None? && leaseExpiresAt.None? && promptId.None?
    {
      this.id := id;
      user, conversation, kind, key, payload := j.user, j.conversation, j.kind, j.key, j.payload;
      priority, effectivePriority, queuedAt, maxAttempts := j.priority, j.effectivePriority, j.queuedAt, j.maxAttempts;
      state, attempt, errorCode, errorDetail, availableAt := j.state, j.attempt, j.errorCode, j.errorDetail, j.availableAt;
      result, leaseOwner, leaseExpiresAt, promptId := None, None, None, None;
    }

    /** The fields the durable adapter keeps in job_attempts instead. */
    function Extra(): ExtraFields
      reads this
    {
      ExtraFields(result, leaseOwner, leaseExpiresAt, promptId)
    }

    /** The columns the object shares with a generation_jobs row. */
    function Row(): Job
      reads this
    {
      Job(user, conversation, kind, state, priority, effectivePriority, payload, key, queuedAt,
          availableAt, attempt, maxAttempts, errorCode, errorDetail)
    }
  }

  /** What a transaction does to the columns both adapters keep. */
  function OnRow(m: Table, id: Id, op: Op): Table {
    if id in m then m[id := RowAfter(m[id], op)] else m
  }

  /** What an outcome does to the other fields: the lease goes, a success leaves its result. */
  function ExtraAfter(s: State, x: ExtraFields, op: Op): ExtraFields {
    if IsTerminal(s) then x
    else
      var cleared := x.(leaseOwner := None, leaseExpiresAt := None);
      match op
      case OpSucceeded(result, _) => cleared.(result := Some(result))
      case OpFailed(_, _, _) => cleared
      case OpRetryWait(_, _, _, _) => cleared
      case _ => x
  }

  function OnExtra(m: Table, x: map<Id, ExtraFields>, id: Id, op: Op): map<Id, ExtraFields> {
    if id in m && id in x then x[id := ExtraAfter(m[id].state, x[id], op)] else x
  }

  lemma Settles(m: Table, x: map<Id, ExtraFields>, id: Id, op: Op, row: Job, extra: ExtraFields)
    requires id in m && id in x && row == RowAfter(m[id], op) && extra == ExtraAfter(m[id].state, x[id], op)
    ensures m[id := row] == OnRow(m, id, op)
    ensures x[id := extra] == OnExtra(m, x, id, op)
  {
  }

  /** Ids of the eligible jobs, in dictionary order. */
  function EligibleKeys(m: Table, keys: seq<Id>, kinds: Option<set<string>>, now: Time): (r: seq<Id>)
    ensures forall id :: id in r ==> id in keys && id in m
  {
    if keys == [] then []
    else (if keys[0] in Eligible(m, kinds, now) then [keys[0]] else []) + EligibleKeys(m, keys[1..], kinds, now)
  }

  lemma {:induction false} EligibleKeysList(m: Table, keys: seq<Id>, kinds: Option<set<string>>, now: Time)
    requires NoDup(keys)
    ensures Lists(EligibleKeys(m, keys, kinds, now), Eligible(m, kinds, now) * Elements(keys))
  {
    if keys != [] {
      EligibleKeysList(m, keys[1..], kinds, now);
      assert keys[0] !in keys[1..];
      assert keys == [keys[0]] + keys[1..];
    }
  }

  function LaneKeys(m: Table, keys: seq<Id>, kinds: Option<set<string>>): (r: seq<Id>)
    ensures forall id :: id in r ==> id in keys && id in m
  {
    if keys == [] then []
    else (if keys[0] in Lane(m, kinds) then [keys[0]] else []) + LaneKeys(m, keys[1..], kinds)
  }

  lemma {:induction false} LaneKeysList(m: Table, keys: seq<Id>, kinds: Option<set<string>>)
    requires NoDup(keys)
    ensures Lists(LaneKeys(m, keys, kinds), Lane(m, kinds) * Elements(keys))
  {
    if keys != [] {
      LaneKeysList(m, keys[1..], kinds);
      assert keys[0] !in keys[1..];
      assert keys == [keys[0]] + keys[1..];
    }
  }

  lemma {:induction false} SnocDispatch(m: Table, ids: seq<Id>, id: Id)
    requires id in m && forall x :: x in ids ==> x in m
    ensures DispatchAll(m, ids + [id]) == Dispatch(DispatchAll(m, ids), id)
  {
    if ids == [] {
      assert ids + [id] == [id] && [id][1..] == [];
    } else {
      assert (ids + [id])[1..] == ids[1..] + [id];
      SnocDispatch(Dispatch(m, ids[0]), ids[1..], id);
    }
  }

  /** active_counts.get(user, 0). */
  function CountFor(counts: map<Id, nat>, u: Id): nat {
    if u in counts then counts[u] else 0
  }

  /** Active jobs of u among the first i of the dictionary. */
  function CountUpTo(m: Table, keys: seq<Id>, i: nat, u: Id): nat
    requires i <= |keys|
  {
    |ActiveOf(m, u) * Elements(keys[..i])|
  }

  lemma CountStep(m: Table, keys: seq<Id>, i: nat, u: Id)
    requires i < |keys| && NoDup(keys) && keys[i] in m
    ensures CountUpTo(m, keys, i + 1, u) ==
            CountUpTo(m, keys, i, u) + (if IsActive(m[keys[i]].state) && m[keys[i]].user == u then 1 else 0)
  {
    var before, after := ActiveOf(m, u) * Elements(keys[..i]), ActiveOf(m, u) * Elements(keys[..i + 1]);
    assert Elements(keys[..i + 1]) == Elements(keys[..i]) + {keys[i]};
    assert keys[i] !in Elements(keys[..i]);
    assert after == before + (if keys[i] in ActiveOf(m, u) then {keys[i]} else {});
  }

  ghost predicate CountsUpTo(counts: map<Id, nat>, m: Table, keys: seq<Id>, i: nat)
    requires i <= |keys|
  {
    forall u :: CountFor(counts, u) == CountUpTo(m, keys, i, u)
  }

  lemma CountsStep(counts: map<Id, nat>, m: Table, keys: seq<Id>, i: nat)
    requires i < |keys| && NoDup(keys) && keys[i] in m && CountsUpTo(counts, m, keys, i)
    ensures var u := m[keys[i]].user;
            CountsUpTo(if IsActive(m[keys[i]].state) then counts[u := CountFor(counts, u) + 1] else counts, m, keys, i + 1)
  {
    var u := m[keys[i]].user;
    var counts' := if IsActive(m[keys[i]].state) then counts[u := CountFor(counts, u) + 1] else counts;
    forall v ensures CountFor(counts', v) == CountUpTo(m, keys, i + 1, v) { CountStep(m, keys, i, v); }
  }

  lemma AllCounted(counts: map<Id, nat>, m: Table, keys: seq<Id>)
    requires CountsUpTo(counts, m, keys, |keys|) && forall id :: id in keys <==> id in m
    ensures forall u :: CountFor(counts, u) == ActiveCount(m, u)
  {
    forall u ensures CountFor(counts, u) == ActiveCount(m, u) {
      assert keys[..|keys|] == keys;
      assert ActiveOf(m, u) * Elements(keys) == ActiveOf(m, u);
    }
  }

  /** The sorted candidates of the in-memory claim. */
  function Candidates(m: Table, keys: seq<Id>, kinds: Option<set<string>>, now: Time): (r: seq<Id>)
    ensures forall id :: id in r ==> id in keys && id in m
  {
    SortIds(m, StaticPriority, EligibleKeys(m, keys, kinds, now))
  }

  lemma CandidatesReady(m: Table, keys: seq<Id>, kinds: Option<set<string>>, now: Time)
    requires NoDup(keys) && forall id :: id in keys <==> id in m
    ensures var c := Candidates(m, keys, kinds, now);
            && Lists(c, Eligible(m, kinds, now))
            && (forall k :: 0 <= k < |c| ==> !IsActive(m[c[k]].state))
            && (StrictOn(m, StaticPriority, Eligible(m, kinds, now)) ==> StrictlySorted(m, StaticPriority, c))
  {
    EligibleKeysList(m, keys, kinds, now);
    assert Eligible(m, kinds, now) * Elements(keys) == Eligible(m, kinds, now);
    SortIdsLists(m, StaticPriority, EligibleKeys(m, keys, kinds, now), Eligible(m, kinds, now));
  }

  function SortedLane(m: Table, keys: seq<Id>, kinds: Option<set<string>>): (r: seq<Id>)
    ensures forall id :: id in r ==> id in keys && id in m
  {
    SortIds(m, StaticPriority, LaneKeys(m, keys, kinds))
  }

  lemma LaneReady(m: Table, keys: seq<Id>, kinds: Option<set<string>>)
    requires NoDup(keys) && forall id :: id in keys <==> id in m
    ensures var lane := SortedLane(m, keys, kinds);
            && Lists(lane, Lane(m, kinds))
            && (StrictOn(m, StaticPriority, Lane(m, kinds)) ==> StrictlySorted(m, StaticPriority, lane))
  {
    LaneKeysList(m, keys, kinds);
    assert Lane(m, kinds) * Elements(keys) == Lane(m, kinds);
    SortIdsLists(m, StaticPriority, LaneKeys(m, keys, kinds), Lane(m, kinds));
  }

  ghost predicate LeasedTo(claimed: seq<QueuedJob>, owner: string, expiresAt: Time)
    reads claimed
  {
    forall k :: 0 <= k < |claimed| ==>
      claimed[k].leaseOwner == Some(owner) && claimed[k].leaseExpiresAt == Some(expiresAt)
  }

  /** The dictionary's objects with these ids, in this order. */
  ghost function Objects(jobs: map<Id, QueuedJob>, ids: seq<Id>): (r: seq<QueuedJob>)
    requires forall id :: id in ids ==> id in jobs
    ensures |r| == |ids| && forall k :: 0 <= k < |ids| ==> r[k] == jobs[ids[k]]
  {
    seq(|ids|, k requires 0 <= k < |ids| => jobs[ids[k]])
  }

  lemma ObjectsSnoc(jobs: map<Id, QueuedJob>, ids: seq<Id>, id: Id)
    requires id in jobs && forall x :: x in ids ==> x in jobs
    ensures Objects(jobs, ids + [id]) == Objects(jobs, ids) + [jobs[id]]
  {
  }

  /** The running count after one more claim; not kept when the cap is off. */
  function Bumped(counts: map<Id, nat>, cap: int, u: Id): map<Id, nat> {
    if cap > 0 then counts[u := CountFor(counts, u) + 1] else counts
  }

  /** The claim loop before candidate i: ids are claimed, `ahead` is what is still to come, and
      the running counts are the recounts. */
  ghost predicate ScanAt(m0: Table, m: Table, candidates: seq<Id>, i: nat, capacity: int, cap: int,
                         ids: seq<Id>, ahead: seq<Id>, counts: map<Id, nat>)
  {
    && i <= |candidates| && NoDup(candidates)
    && (forall id :: id in candidates ==> id in m0)
    && (forall id :: id in ids ==> id in m0)
    && m == DispatchAll(m0, ids)
    && (forall k :: i <= k < |candidates| ==> !IsActive(m[candidates[k]].state))
    && (cap > 0 ==> forall u :: CountFor(counts, u) == ActiveCount(m, u))
    && ahead == Scan(m, candidates[i..], capacity - |ids|, cap)
  }

  lemma ScanStarts(m: Table, keys: seq<Id>, kinds: Option<set<string>>, now: Time, capacity: int, cap: int,
                   candidates: seq<Id>, counts: map<Id, nat>)
    requires NoDup(keys) && forall id :: id in keys <==> id in m
    requires candidates == Candidates(m, keys, kinds, now)
    requires cap > 0 ==> forall u :: CountFor(counts, u) == ActiveCount(m, u)
    ensures ScanAt(m, m, candidates, 0, capacity, cap, [], Scan(m, candidates, capacity, cap), counts)
  {
    hide Candidates, Eligible, Scan;
    CandidatesReady(m, keys, kinds, now);
    assert candidates[0..] == candidates;
  }

  lemma ScanEnds(m0: Table, m: Table, candidates: seq<Id>, i: nat, capacity: int, cap: int,
                 ids: seq<Id>, ahead: seq<Id>, counts: map<Id, nat>)
    requires ScanAt(m0, m, candidates, i, capacity, cap, ids, ahead, counts)
    requires i >= |candidates| || |ids| >= capacity
    ensures ahead == []
    ensures (forall id :: id in ids ==> id in m0) && m == DispatchAll(m0, ids)
  {
  }

  lemma ScanSkips(m0: Table, m: Table, candidates: seq<Id>, i: nat, capacity: int, cap: int,
                  ids: seq<Id>, ahead: seq<Id>, counts: map<Id, nat>)
    requires ScanAt(m0, m, candidates, i, capacity, cap, ids, ahead, counts)
    requires i < |candidates| && |ids| < capacity
    requires cap > 0 && CountFor(counts, m[candidates[i]].user) >= cap
    ensures ScanAt(m0, m, candidates, i + 1, capacity, cap, ids, ahead, counts)
  {
    assert candidates[i..][0] == candidates[i] && candidates[i..][1..] == candidates[i + 1..];
  }

  lemma ScanTakes(m0: Table, m: Table, candidates: seq<Id>, i: nat, capacity: int, cap: int,
                  ids: seq<Id>, ahead: seq<Id>, counts: map<Id, nat>)
    requires ScanAt(m0, m, candidates, i, capacity, cap, ids, ahead, counts)
    requires i < |candidates| && |ids| < capacity
    requires cap > 0 ==> CountFor(counts, m[candidates[i]].user) < cap
    ensures ahead != [] && ahead[0] == candidates[i]
    ensures (ids + [candidates[i]]) + ahead[1..] == ids + ahead
    ensures var id, u := candidates[i], m[candidates[i]].user;
            ScanAt(m0, Dispatch(m, id), candidates, i + 1, capacity, cap, ids + [id], ahead[1..],
                   Bumped(counts, cap, u))
  {
    var id := candidates[i];
    assert candidates[i..][0] == id && candidates[i..][1..] == candidates[i + 1..];
    SnocDispatch(m0, ids, id);
    forall u { DispatchCount(m, id, u); }
  }

  method IndexOf(ids: seq<Id>, id: Id) returns (at: Option<nat>)
    ensures at.None? <==> id !in ids
    ensures at.Some? ==> at.value < |ids| && ids[at.value] == id && id !in ids[..at.value]
  {
    var i := 0;
    while i < |ids|
      invariant 0 <= i <= |ids|
      invariant id !in ids[..i]
    {
      if ids[i] == id { return Some(i); }
      i := i + 1;
    }
    assert ids[..i] == ids;
    at := None;
  }

  class InMemoryJobQueue {
    var jobs: map<Id, QueuedJob>
    var keys: seq<Id>    // the dictionary's iteration order
    var order: seq<Id>   // every enqueue, in turn

    ghost predicate Valid()
      reads this, jobs.Values
    {
      && NoDup(keys)
      && (forall id :: id in keys <==> id in jobs)
      && (forall id :: id in jobs ==> jobs[id].id == id)
    }

    function Rows(): Table
      reads this, jobs.Values
    {
      map id | id in jobs :: jobs[id].Row()
    }

    function Extras(): map<Id, ExtraFields>
      reads this, jobs.Values
    {
      map id | id in jobs :: jobs[id].Extra()
    }

    constructor ()
      ensures Valid() && Rows() == map[] && jobs == map[]
    {
      jobs, keys, order := map[], [], [];
    }

    method Enqueue(job: QueuedJob)
      requires Valid()
      modifies this
      ensures Valid()
      ensures jobs == old(jobs)[job.id := job] && order == old(order) + [job.id]
      ensures keys == if job.id in old(jobs) then old(keys) else old(keys) + [job.id]
      ensures Rows() == old(Rows())[job.id := job.Row()]
    {
      if job.id !in jobs { keys := keys + [job.id]; }
      jobs := jobs[job.id := job];
      order := order + [job.id];
    }

    // ---- the claim scan -----------------------------------------------------------

    /** How many dispatched or running jobs each user has. */
    method ActiveCounts() returns (counts: map<Id, nat>)
      requires Valid()
      ensures forall u :: CountFor(counts, u) == ActiveCount(Rows(), u)
    {
      counts := map[];
      ghost var m := Rows();
      var i := 0;
      while i < |keys|
        invariant 0 <= i <= |keys|
        invariant CountsUpTo(counts, m, keys, i)
      {
        var j := jobs[keys[i]];
        CountsStep(counts, m, keys, i);
        if IsActive(j.state) {
          counts := counts[j.user := CountFor(counts, j.user) + 1];
        }
        i := i + 1;
      }
      AllCounted(counts, m, keys);
    }

    /** job.state = "dispatched". */
    method SetDispatched(job: QueuedJob)
      requires Valid() && job.id in jobs && jobs[job.id] == job
      modifies job`state
      ensures Valid() && Rows() == Dispatch(old(Rows()), job.id)
    {
      job.state := Dispatched;
    }

    /** The loop over sorted candidates with a running count per user: exactly Scan. */
    method ClaimPass(candidates: seq<Id>, capacity: int, cap: int, activeCounts: map<Id, nat>)
      returns (claimed: seq<QueuedJob>, ghost ids: seq<Id>)
      requires Valid() && forall id :: id in candidates ==> id in jobs
      requires ScanAt(Rows(), Rows(), candidates, 0, capacity, cap, [], Scan(Rows(), candidates, capacity, cap), activeCounts)
      modifies jobs.Values`state
      ensures Valid()
      ensures ids == Scan(old(Rows()), candidates, capacity, cap)
      ensures forall id :: id in ids ==> id in jobs
      ensures Rows() == DispatchAll(old(Rows()), ids)
      ensures claimed == Objects(jobs, ids)
    {
      hide Scan, DispatchAll, ScanAt;
      claimed, ids := [], [];
      var counts: map<Id, nat> := activeCounts;
      ghost var m0 := Rows();
      ghost var ahead := Scan(m0, candidates, capacity, cap);
      var i := 0;
      while i < |candidates| && |claimed| < capacity
        invariant Valid() && jobs == old(jobs)
        invariant ScanAt(m0, Rows(), candidates, i, capacity, cap, ids, ahead, counts)
        invariant ids + ahead == Scan(m0, candidates, capacity, cap)
        invariant claimed == Objects(jobs, ids)
        decreases |candidates| - i
      {
        var job := jobs[candidates[i]];
        if cap > 0 && CountFor(counts, job.user) >= cap {
          ScanSkips(m0, Rows(), candidates, i, capacity, cap, ids, ahead, counts);
          i := i + 1;
          continue;
        }
        counts := TakeCandidate(candidates, i, capacity, cap, counts, m0, ids, ahead);
        claimed, ids, ahead := claimed + [job], ids + [candidates[i]], ahead[1..];
        i := i + 1;
      }
      ScanEnds(m0, Rows(), candidates, i, capacity, cap, ids, ahead, counts);
    }

    /** One candidate under the cap: it is dispatched and counted. */
    method TakeCandidate(candidates: seq<Id>, i: nat, capacity: int, cap: int, counts: map<Id, nat>,
                         ghost m0: Table, ghost ids: seq<Id>, ghost ahead: seq<Id>)
      returns (counts': map<Id, nat>)
      requires Valid() && i < |candidates| && |ids| < capacity && candidates[i] in jobs
      requires ScanAt(m0, Rows(), candidates, i, capacity, cap, ids, ahead, counts)
      requires cap > 0 ==> CountFor(counts, jobs[candidates[i]].user) < cap
      requires forall id :: id in ids ==> id in jobs
      modifies (var job: QueuedJob := jobs[candidates[i]]; job)`state
      ensures Valid()
      ensures ahead != [] && (ids + [candidates[i]]) + ahead[1..] == ids + ahead
      ensures ScanAt(m0, Rows(), candidates, i + 1, capacity, cap, ids + [candidates[i]], ahead[1..], counts')
      ensures Objects(jobs, ids + [candidates[i]]) == Objects(jobs, ids) + [jobs[candidates[i]]]
    {
      hide ScanAt, Scan, DispatchAll;
      var job := jobs[candidates[i]];
      ScanTakes(m0, Rows(), candidates, i, capacity, cap, ids, ahead, counts);
      ObjectsSnoc(jobs, ids, job.id);
      SetDispatched(job);
      counts' := if cap > 0 then counts[job.user := CountFor(counts, job.user) + 1] else counts;
    }

    /** claim_next: nothing but the states of the claimed jobs changes. */
    method ClaimNext(capacity: int, kinds: Option<set<string>>, cap: int, now: Time)
      returns (claimed: seq<QueuedJob>, ghost ids: seq<Id>)
      requires Valid()
      modifies jobs.Values`state
      ensures Valid()
      ensures ids == Scan(old(Rows()), Candidates(old(Rows()), keys, kinds, now), capacity, cap)
      ensures forall id :: id in ids ==> id in jobs
      ensures Rows() == DispatchAll(old(Rows()), ids)
      ensures claimed == Objects(jobs, ids)
      ensures forall x :: x in jobs ==> jobs[x].Extra() == old(jobs[x].Extra())
    {
      hide Candidates, Scan, DispatchAll, ScanAt;
      var candidates := Candidates(Rows(), keys, kinds, now);
      var counts: map<Id, nat> := map[];
      if cap > 0 { counts := ActiveCounts(); }
      ScanStarts(Rows(), keys, kinds, now, capacity, cap, candidates, counts);
      claimed, ids := ClaimPass(candidates, capacity, cap, counts);
    }

    method StampLeases(claimed: seq<QueuedJob>, owner: string, expiresAt: Time)
      requires Valid() && forall k :: 0 <= k < |claimed| ==> claimed[k] in jobs.Values
      modifies jobs.Values`leaseOwner, jobs.Values`leaseExpiresAt
      ensures Valid() && Rows() == old(Rows())
      ensures LeasedTo(claimed, owner, expiresAt)
      ensures forall x :: x in jobs && jobs[x] !in claimed ==>
                jobs[x].leaseOwner == old(jobs[x].leaseOwner) && jobs[x].leaseExpiresAt == old(jobs[x].leaseExpiresAt)
    {
      var i := 0;
      while i < |claimed|
        invariant 0 <= i <= |claimed|
        invariant Valid() && Rows() == old(Rows())
        invariant forall k :: 0 <= k < i ==>
                    claimed[k].leaseOwner == Some(owner) && claimed[k].leaseExpiresAt == Some(expiresAt)
        invariant forall x :: x in jobs && jobs[x] !in claimed ==>
                    jobs[x].leaseOwner == old(jobs[x].leaseOwner) && jobs[x].leaseExpiresAt == old(jobs[x].leaseExpiresAt)
      {
        claimed[i].leaseOwner := Some(owner);
        claimed[i].leaseExpiresAt := Some(expiresAt);
        i := i + 1;
      }
    }

    /** claim_next_with_lease: the same selection, plus the lease on each claimed object. */
    method ClaimNextWithLease(capacity: int, owner: string, leaseSeconds: real, kinds: Option<set<string>>, cap: int, now: Time)
      returns (claimed: seq<QueuedJob>, ghost ids: seq<Id>)
      requires Valid()
      modifies jobs.Values`state, jobs.Values`leaseOwner, jobs.Values`leaseExpiresAt
      ensures Valid()
      ensures ids == Scan(old(Rows()), Candidates(old(Rows()), keys, kinds, now), capacity, cap)
      ensures forall id :: id in ids ==> id in jobs
      ensures Rows() == DispatchAll(old(Rows()), ids)
      ensures claimed == Objects(jobs, ids)
      ensures LeasedTo(claimed, owner, now + leaseSeconds)
      ensures forall x :: x in jobs && jobs[x] !in claimed ==>
                jobs[x].leaseOwner == old(jobs[x].leaseOwner) && jobs[x].leaseExpiresAt == old(jobs[x].leaseExpiresAt)
      ensures forall x :: x in jobs ==> jobs[x].promptId == old(jobs[x].promptId)
    {
      hide *;
      claimed, ids := ClaimNext(capacity, kinds, cap, now);
      StampLeases(claimed, owner, now + leaseSeconds);
    }

    method RenewLease(id: Id, leaseSeconds: real, now: Time)
      requires Valid()
      modifies jobs.Values`leaseExpiresAt
      ensures Valid() && Rows() == old(Rows())
      ensures forall x :: x in jobs ==>
                jobs[x].leaseExpiresAt ==
                (if x == id && IsActive(jobs[x].state) then Some(now + leaseSeconds) else old(jobs[x].leaseExpiresAt))
    {
      if id !in jobs || !IsActive(jobs[id].state) { return; }
      jobs[id].leaseExpiresAt := Some(now + leaseSeconds);
    }

    // ---- transitions --------------------------------------------------------------

    /** No terminal guard here: see MemoryMarkRunningIff. */
    method MarkRunning(id: Id)
      requires Valid()
      modifies jobs.Values`state, jobs.Values`promptId
      ensures Valid()
      ensures Rows() == (if id in jobs then old(Rows())[id := old(Rows())[id].(state := Running)] else old(Rows()))
      ensures forall x :: x in jobs ==> jobs[x].promptId == (if x == id then None else old(jobs[x].promptId))
    {
      if id in jobs {
        var job := jobs[id];
        job.state := Running;
        job.promptId := None;
      }
    }

    /** When one job object is all that changed, one row is all that changed. */
    twostate lemma OneChanged(id: Id)
      requires id in jobs && jobs == old(jobs) && old(Valid()) && keys == old(keys)
      requires forall x :: x in jobs && jobs[x] != jobs[id] ==> unchanged(jobs[x])
      ensures Valid()
      ensures Rows() == old(Rows())[id := jobs[id].Row()]
      ensures Extras() == old(Extras())[id := jobs[id].Extra()]
      ensures id in old(Rows()) && old(Rows())[id] == old(jobs[id].Row())
      ensures id in old(Extras()) && old(Extras())[id] == old(jobs[id].Extra())
    {
      forall x | x in jobs && x != id
        ensures jobs[x].Row() == old(jobs[x].Row()) && jobs[x].Extra() == old(jobs[x].Extra())
      {
        assert jobs[x].id == x;
      }
    }

    method MarkSucceeded(id: Id, result: Payload)
      requires Valid()
      modifies jobs.Values
      ensures Valid() && Rows() == OnRow(old(Rows()), id, OpSucceeded(result, 0.0))
      ensures Extras() == OnExtra(old(Rows()), old(Extras()), id, OpSucceeded(result, 0.0))
    {
      if id in jobs {
        var job := jobs[id];
        if IsTerminal(job.state) { return; }
        job.state := Succeeded;
        job.result := Some(result);
        job.leaseOwner, job.leaseExpiresAt := None, None;
        job.errorCode, job.errorDetail := None, None;
        ghost var op := OpSucceeded(result, 0.0);
        assert job.Row() == RowAfter(old(job.Row()), op);
        assert job.Extra() == ExtraAfter(old(job.state), old(job.Extra()), op);
        hide Rows, Extras, Valid, RowAfter, OnRow, OnExtra, ExtraAfter, QueuedJob.Row, QueuedJob.Extra;
        OneChanged(id);
        Settles(old(Rows()), old(Extras()), id, op, job.Row(), job.Extra());
      }
    }

    method MarkFailed(id: Id, code: string, detail: Option<string>)
      requires Valid()
      modifies jobs.Values
      ensures Valid() && Rows() == OnRow(old(Rows()), id, OpFailed(code, detail, 0.0))
      ensures Extras() == OnExtra(old(Rows()), old(Extras()), id, OpFailed(code, detail, 0.0))
    {
      if id in jobs {
        var job := jobs[id];
        if IsTerminal(job.state) { return; }
        job.state := Failed;
        job.errorCode, job.errorDetail := Some(code), detail;
        job.leaseOwner, job.leaseExpiresAt := None, None;
        ghost var op := OpFailed(code, detail, 0.0);
        assert job.Row() == RowAfter(old(job.Row()), op);
        assert job.Extra() == ExtraAfter(old(job.state), old(job.Extra()), op);
        hide Rows, Extras, Valid, RowAfter, OnRow, OnExtra, ExtraAfter, QueuedJob.Row, QueuedJob.Extra;
        OneChanged(id);
        Settles(old(Rows()), old(Extras()), id, op, job.Row(), job.Extra());
      }
    }

    method MarkRetryWait(id: Id, code: string, detail: Option<string>, delay: Option<real>, jitter: real, now: Time)
      requires Valid()
      modifies jobs.Values
      ensures Valid()
      ensures id !in jobs ==> Rows() == old(Rows()) && Extras() == old(Extras())
      ensures id in jobs ==>
                var seconds := Retry.ChosenDelay(delay, old(jobs[id].attempt) + 1, jitter);
                && Rows() == OnRow(old(Rows()), id, OpRetryWait(code, detail, seconds, now))
                && Extras() == OnExtra(old(Rows()), old(Extras()), id, OpRetryWait(code, detail, seconds, now))
    {
      if id in jobs {
        var job := jobs[id];
        if IsTerminal(job.state) { return; }
        job.state := RetryWait;
        job.errorCode, job.errorDetail := Some(code), detail;
        job.attempt := job.attempt + 1;
        job.leaseOwner, job.leaseExpiresAt := None, None;
        var seconds := Retry.ChosenDelay(delay, job.attempt, jitter);
        job.availableAt := Some(now + seconds);
        ghost var op := OpRetryWait(code, detail, seconds, now);
        assert job.Row() == RowAfter(old(job.Row()), op);
        assert job.Extra() == ExtraAfter(old(job.state), old(job.Extra()), op);
        hide Rows, Extras, Valid, RowAfter, OnRow, OnExtra, ExtraAfter, QueuedJob.Row, QueuedJob.Extra;
        OneChanged(id);
        Settles(old(Rows()), old(Extras()), id, op, job.Row(), job.Extra());
      }
    }

    method SetPromptId(id: Id, promptId: string)
      requires Valid()
      modifies jobs.Values`promptId
      ensures Valid() && Rows() == old(Rows())
      ensures forall x :: x in jobs ==> jobs[x].promptId == (if x == id then Some(promptId) else old(jobs[x].promptId))
    {
      if id in jobs { jobs[id].promptId := Some(promptId); }
    }

    method Cancel(id: Id) returns (cancelled: bool)
      requires Valid()
      modifies jobs.Values`state
      ensures Valid() && Rows() == OnRow(old(Rows()), id, OpCancel(0.0))
      ensures cancelled <==> id in jobs && !IsTerminal(old(jobs[id].state))
    {
      if id !in jobs || IsTerminal(jobs[id].state) { return false; }
      jobs[id].state := Cancelled;
      cancelled := true;
    }

    // ---- reads --------------------------------------------------------------------

    /** The first job of the dictionary with that user, key and kind. */
    method FindByIdempotencyKey(user: Id, key: string, kind: string) returns (found: Option<Id>)
      requires Valid()
      ensures found.None? <==> AP.SameKey(Rows(), user, key, kind) == {}
      ensures found.Some? ==> found.value in AP.SameKey(Rows(), user, key, kind)
    {
      var i := 0;
      while i < |keys|
        invariant 0 <= i <= |keys|
        invariant forall k :: 0 <= k < i ==> keys[k] !in AP.SameKey(Rows(), user, key, kind)
      {
        var j := jobs[keys[i]];
        assert keys[i] in AP.SameKey(Rows(), user, key, kind) <==> j.user == user && j.key == key && j.kind == kind;
        if j.user == user && j.key == key && j.kind == kind { return Some(keys[i]); }
        i := i + 1;
      }
      found := None;
      forall id ensures id !in AP.SameKey(Rows(), user, key, kind) {
        assert id in AP.SameKey(Rows(), user, key, kind) ==> id in keys;
      }
    }

    /** The index in the sorted lane. */
    method QueueRank(id: Id, kinds: Option<set<string>>) returns (rank: Option<nat>)
      requires Valid()
      ensures rank.None? <==> id !in Lane(Rows(), kinds)
      ensures rank.Some? ==>
                var lane := SortedLane(Rows(), keys, kinds);
                rank.value < |lane| && lane[rank.value] == id
      ensures rank.Some? && StrictOn(Rows(), StaticPriority, Lane(Rows(), kinds)) ==>
                rank.value == |Ahead(Rows(), StaticPriority, kinds, id)|
    {
      if id !in jobs || !IsBacklog(jobs[id].state) { return None; }
      hide SortedLane, StrictOn, Precedes, Ahead, Lane;
      var lane := SortedLane(Rows(), keys, kinds);
      rank := IndexOf(lane, id);
      LaneReady(Rows(), keys, kinds);
      if rank.Some? && StrictOn(Rows(), StaticPriority, Lane(Rows(), kinds)) {
        RankIsIndex(Rows(), StaticPriority, kinds, lane, rank.value);
      }
    }
  }

  // ---- against the Postgres adapter ------------------------------------------------

  /** The in-memory mark_running is the Postgres one exactly on jobs that have not finished. */
  lemma MemoryMarkRunningIff(m: Table, id: Id)
    requires id in m
    ensures m[id := m[id].(state := Running)] == OnRow(m, id, OpRunning) <==> !IsTerminal(m[id].state)
  {
    if IsTerminal(m[id].state) {
      assert m[id := m[id].(state := Running)][id].state != m[id].state;
    }
  }

  /** Row by row the two stores stay equal: the projection of the durable store follows OnRow. */
  lemma AdaptersAgreeOnRows(s: Store, id: Id, op: Op)
    ensures JobEntry.Rows(OnJob(s, id, op)) == OnRow(JobEntry.Rows(s), id, op)
  {
  }

  /** One call on one job, of either adapter. */
  datatype Call = Call(id: Id, op: Op)

  /** What the in-memory call does to the table: mark_running has no terminal guard. */
  function InMemory(m: Table, c: Call): Table {
    if c.op.OpRunning? && c.id in m then m[c.id := m[c.id].(state := Running)] else OnRow(m, c.id, c.op)
  }

  /** The two stores, given the same calls, show the same rows now and after every call. */
  ghost predicate StayEqual(s: Store, m: Table, calls: seq<Call>)
    decreases |calls|
  {
    m == JobEntry.Rows(s) &&
    (calls != [] ==> StayEqual(OnJob(s, calls[0].id, calls[0].op), InMemory(m, calls[0]), calls[1..]))
  }

  /** No mark_running comes after its job has finished. */
  ghost predicate NoneStartedLate(s: Store, calls: seq<Call>)
    decreases |calls|
  {
    calls != [] ==>
      && (calls[0].op.OpRunning? && calls[0].id in s ==> !IsTerminal(s[calls[0].id].job.state))
      && NoneStartedLate(OnJob(s, calls[0].id, calls[0].op), calls[1..])
  }

  /** For any calls, claims and cancels among them, the adapters agree on every row throughout exactly when no
      mark_running comes after its job has finished. */
  lemma {:induction false} AdaptersAgreeIff(s: Store, calls: seq<Call>)
    ensures StayEqual(s, JobEntry.Rows(s), calls) <==> NoneStartedLate(s, calls)
    decreases |calls|
  {
    if calls != [] {
      var c := calls[0];
      var m := JobEntry.Rows(s);
      AdaptersAgreeOnRows(s, c.id, c.op);
      if c.id in m { MemoryMarkRunningIff(m, c.id); }
      if InMemory(m, c) == JobEntry.Rows(OnJob(s, c.id, c.op)) {
        AdaptersAgreeIff(OnJob(s, c.id, c.op), calls[1..]);
      }
    }
  }

  /** What an outcome leaves of the other fields of a live job: no lease, the same prompt id, and the result of a
      success; a finished job keeps them all. */
  lemma OutcomeDropsLease(s: State, x: ExtraFields, op: Op)
    requires IsOutcome(op)
    ensures !IsTerminal(s) ==>
              ExtraAfter(s, x, op) ==
              ExtraFields(if op.OpSucceeded? then Some(op.result) else x.result, None, None, x.promptId)
    ensures IsTerminal(s) ==> ExtraAfter(s, x, op) == x
  {
  }

  // ---- prompt ids of claimed jobs ----------------------------------------------------

  /** The prompt id of the object after one call on its job: only mark_running forgets it. */
  function PromptAfter(shown: Option<string>, op: Op): Option<string> {
    match op
    case OpRunning => None
    case OpSetPrompt(promptId) => Some(promptId)
    case _ => shown
  }

  function PromptOver(ops: seq<Op>): Option<string> {
    if ops == [] then None else PromptAfter(PromptOver(ops[..|ops| - 1]), ops[|ops| - 1])
  }

  /** The call wrote this id, and neither a mark_running nor another id came after it. */
  ghost predicate LastWrote(ops: seq<Op>, i: nat, promptId: string) {
    && i < |ops| && ops[i] == OpSetPrompt(promptId)
    && forall j :: i < j < |ops| ==> !ops[j].OpRunning? && !ops[j].OpSetPrompt?
  }

  /** A job shows the id that was last written, until its next mark_running: retried and claimed again, it
      shows the id of its previous attempt, which no row of the durable adapter does. */
  lemma {:induction false} ShownIdIff(ops: seq<Op>, promptId: string)
    ensures PromptOver(ops) == Some(promptId) <==> exists i :: LastWrote(ops, i, promptId)
  {
    if ops != [] {
      var n := |ops| - 1;
      ShownIdIff(ops[..n], promptId);
      var last := ops[n];
      if last.OpSetPrompt? && last.promptId == promptId {
        assert LastWrote(ops, n, promptId);
      } else if !last.OpSetPrompt? && !last.OpRunning? {
        forall i: nat ensures LastWrote(ops, i, promptId) <==> LastWrote(ops[..n], i, promptId) {
          assert forall j :: 0 <= j < n ==> ops[..n][j] == ops[j];
        }
      }
    }
  }

  /** After a claim the in-memory job shows an id exactly when it did before, the durable one never does. */
  lemma ClaimShowsStaleId(ops: seq<Op>, e: Entry, claim: Op)
    requires claim.OpClaim? && EntryInv(e) && IsBacklog(e.job.state)
    ensures PromptOver(ops + [claim]) == PromptOver(ops) && ShownPrompt(Apply(e, claim)) == None
  {
    assert (ops + [claim])[..|ops|] == ops;
    ClaimIsFresh(e, claim.owner, claim.expiresAt, claim.now);
  }
}
