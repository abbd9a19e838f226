// PostgresJobQueue: the job queue over the generation_jobs, job_attempts and job_events tables.
module PostgresQueue {
  import opened Basics
  import opened Jobs
  import opened JobEntry
  import opened ClaimOrder
  import opened Claim
  import opened Registry
  import AP = AdmissionPolicy
  import RP = ReconcilePolicy
  import Fairness
  import Retry

  datatype Insertion = Inserted | UnknownKind | IntegrityError

  /** The bookkeeping of a claimed row whose state the UPDATE has already set. */
  function Finalized(e: Entry, op: Op): Entry
    requires op.OpClaim?
  {
    var no := e.job.attempt + 1;
    e.(attempts := UpsertAttempt(e.attempts, no, op.owner, op.expiresAt),
       log := AppendEvent(e.log, EvDispatched(no), op.now))
  }

  /** A batch half way: every row of it is dispatched, the rows in `done` are also written up. */
  function HalfClaimed(s: Store, batch: seq<Id>, done: seq<Id>, op: Op): Store
    requires op.OpClaim?
  {
    map id | id in s ::
      if id in batch then
        var e := s[id].(job := s[id].job.(state := Dispatched));
        if id in done then Finalized(e, op) else e
      else s[id]
  }

  lemma HalfClaimedStep(s: Store, batch: seq<Id>, done: seq<Id>, id: Id, op: Op)
    requires op.OpClaim? && id in s && id in batch && id !in done
    ensures var half := HalfClaimed(s, batch, done, op);
            half[id := Finalized(half[id], op)] == HalfClaimed(s, batch, done + [id], op)
  {
  }

  lemma AllClaimed(s: Store, batch: seq<Id>, op: Op)
    requires op.OpClaim? && forall id :: id in batch ==> id in s && IsBacklog(s[id].job.state)
    ensures HalfClaimed(s, batch, batch, op) == OnPicked(s, batch, op)
  {
  }

  ghost function Joined(jobs: Table, attempts: map<Id, Attempts>, events: map<Id, seq<Event>>): Store
    requires attempts.Keys == jobs.Keys && events.Keys == jobs.Keys
  {
    map id | id in jobs :: Entry(jobs[id], attempts[id], events[id])
  }

  lemma JoinInsert(jobs: Table, attempts: map<Id, Attempts>, events: map<Id, seq<Event>>, id: Id, e: Entry)
    requires attempts.Keys == jobs.Keys && events.Keys == jobs.Keys
    ensures Joined(jobs[id := e.job], attempts[id := e.attempts], events[id := e.log]) ==
            Joined(jobs, attempts, events)[id := e]
  {
  }

  lemma NothingClaimed(s: Store, m: Table, kinds: Option<set<string>>, cap: int, op: Op)
    requires op.OpClaim?
    ensures Chain(m, AgedPriority(op.now, Fairness.AGING_INCREMENT_PER_MINUTE), kinds, op.now, cap, [])
    ensures DispatchAll(m, []) == m && OnPicked(s, [], op) == s
  {
  }

  class PostgresJobQueue {
    var jobs: Table
    var attempts: map<Id, Attempts>
    var events: map<Id, seq<Event>>

    /** Foreign keys: attempts and events belong to jobs. */
    ghost predicate Valid() reads this {
      attempts.Keys == jobs.Keys && events.Keys == jobs.Keys
    }

    /** The three tables joined per job. */
    ghost function Contents(): Store
      reads this
      requires Valid()
    {
      Joined(jobs, attempts, events)
    }

    constructor ()
      ensures Valid() && Contents() == map[]
    {
      jobs, attempts, events := map[], map[], map[];
    }

    // ---- row-level statements ---------------------------------------------------

    method AppendEventRow(id: Id, body: Body, now: Time)
      requires id in events
      modifies this`events
      ensures events == old(events)[id := AppendEvent(old(events)[id], body, now)]
    {
      events := events[id := AppendEvent(events[id], body, now)];
    }

    method UpdateLatestAttempt(id: Id, state: State, code: Option<string>, result: Option<Payload>)
      requires id in attempts
      modifies this`attempts
      ensures attempts == old(attempts)[id := CloseLatest(old(attempts)[id], state, code, result)]
    {
      var rows := attempts[id];
      if rows != map[] {
        var no := LatestNo(rows);
        var row := rows[no].(state := state, finished := true);
        if code.Some? { row := row.(errorCode := code); }
        if result.Some? { row := row.(result := result); }
        attempts := attempts[id := rows[no := row]];
      } else {
        attempts := attempts[id := rows];
      }
    }

    // ---- transitions ------------------------------------------------------------

    /** A duplicate primary key or (user, key, kind) makes the INSERT fail and roll back. */
    method Enqueue(id: Id, job: Job, now: Time) returns (r: Insertion)
      requires Valid()
      modifies this
      ensures Valid()
      ensures r.UnknownKind? <==> BackendForKind(job.kind).None?
      ensures r.IntegrityError? <==>
                BackendForKind(job.kind).Some? &&
                (id in old(jobs) || AP.SameKey(old(jobs), job.user, job.key, job.kind) != {})
      ensures Contents() == (if r.Inserted? then old(Contents())[id := Created(job, now)] else old(Contents()))
    {
      if BackendForKind(job.kind).None? { return UnknownKind; }
      if id in jobs || AP.SameKey(jobs, job.user, job.key, job.kind) != {} { return IntegrityError; }
      InsertRow(id, job, now);
      r := Inserted;
    }

    method InsertRow(id: Id, job: Job, now: Time)
      requires Valid()
      modifies this
      ensures Valid() && Contents() == old(Contents())[id := Created(job, now)]
    {
      var availableAt := if job.availableAt.Some? then job.availableAt else Some(job.queuedAt);
      jobs := jobs[id := job.(availableAt := availableAt)];
      attempts := attempts[id := map[]];
      events := events[id := []];
      AppendEventRow(id, EvCreated, now);
      JoinInsert(old(jobs), old(attempts), old(events), id, Created(job, now));
    }

    method MarkRunning(id: Id)
      requires Valid()
      modifies this
      ensures Valid() && Contents() == OnJob(old(Contents()), id, OpRunning)
    {
      if id in jobs && !IsTerminal(jobs[id].state) {
        jobs := jobs[id := jobs[id].(state := Running)];
      }
    }

    method MarkSucceeded(id: Id, result: Payload, now: Time)
      requires Valid()
      modifies this
      ensures Valid() && Contents() == OnJob(old(Contents()), id, OpSucceeded(result, now))
    {
      if id !in jobs || IsTerminal(jobs[id].state) { return; }
      jobs := jobs[id := jobs[id].(state := Succeeded, errorCode := None, errorDetail := None)];
      UpdateLatestAttempt(id, Succeeded, None, Some(result));
      AppendEventRow(id, EvSucceeded, now);
    }

    method MarkFailed(id: Id, code: string, detail: Option<string>, now: Time)
      requires Valid()
      modifies this
      ensures Valid() && Contents() == OnJob(old(Contents()), id, OpFailed(code, detail, now))
    {
      if id !in jobs || IsTerminal(jobs[id].state) { return; }
      jobs := jobs[id := jobs[id].(state := Failed, errorCode := Some(code), errorDetail := detail)];
      UpdateLatestAttempt(id, Failed, Some(code), None);
      AppendEventRow(id, EvFailed(code, detail), now);
    }

    /** delay None: the adapter draws its own backoff for the attempt after the bump. */
    method MarkRetryWait(id: Id, code: string, detail: Option<string>, delay: Option<real>, jitter: real, now: Time)
      requires Valid()
      modifies this
      ensures Valid()
      ensures id !in old(jobs) ==> Contents() == old(Contents())
      ensures id in old(jobs) ==>
                var seconds := Retry.ChosenDelay(delay, old(jobs)[id].attempt + 1, jitter);
                Contents() == OnJob(old(Contents()), id, OpRetryWait(code, detail, seconds, now))
    {
      if id !in jobs { return; }
      var nextAttempt := jobs[id].attempt + 1;
      var seconds := Retry.ChosenDelay(delay, nextAttempt, jitter);
      var availableAt := now + seconds;
      if IsTerminal(jobs[id].state) { return; }
      jobs := jobs[id := jobs[id].(state := RetryWait, attempt := jobs[id].attempt + 1,
                                   errorCode := Some(code), errorDetail := detail,
                                   availableAt := Some(availableAt))];
      UpdateLatestAttempt(id, RetryWait, Some(code), None);
      AppendEventRow(id, EvRetry(code, detail, seconds), now);
    }

    method SetPromptId(id: Id, promptId: string)
      requires Valid()
      modifies this
      ensures Valid() && Contents() == OnJob(old(Contents()), id, OpSetPrompt(promptId))
    {
      if id in attempts && attempts[id] != map[] {
        var no := LatestNo(attempts[id]);
        attempts := attempts[id := attempts[id][no := attempts[id][no].(promptId := Some(promptId))]];
      }
    }

    method RenewLease(id: Id, leaseSeconds: real, now: Time)
      requires Valid()
      modifies this
      ensures Valid() && Contents() == OnJob(old(Contents()), id, OpRenew(now + leaseSeconds))
    {
      var expiresAt := now + leaseSeconds;
      if id in attempts && attempts[id] != map[] {
        var no := LatestNo(attempts[id]);
        attempts := attempts[id := attempts[id][no := attempts[id][no].(leaseExpiresAt := expiresAt)]];
      }
    }

    method Cancel(id: Id, now: Time) returns (cancelled: bool)
      requires Valid()
      modifies this
      ensures Valid() && Contents() == OnJob(old(Contents()), id, OpCancel(now))
      ensures cancelled <==> id in old(jobs) && !IsTerminal(old(jobs)[id].state)
    {
      if id !in jobs || IsTerminal(jobs[id].state) { return false; }
      jobs := jobs[id := jobs[id].(state := Cancelled)];
      AppendEventRow(id, EvCancelled, now);
      cancelled := true;
    }

    // ---- claims -----------------------------------------------------------------

    /** SELECT ... ORDER BY ... LIMIT 1 over the rows not in `skip`. */
    method SelectBest(o: Order, kinds: Option<set<string>>, now: Time, cap: int, skip: set<Id>)
      returns (best: Option<Id>)
      ensures best.None? ==> forall x :: x in Eligible(jobs, kinds, now) && x !in skip ==> !UnderCap(jobs, cap, x)
      ensures best.Some? ==>
                && best.value in Eligible(jobs, kinds, now) && best.value !in skip && UnderCap(jobs, cap, best.value)
                && forall x :: x in Eligible(jobs, kinds, now) && x !in skip && UnderCap(jobs, cap, x) ==>
                     !Precedes(o, jobs[x], jobs[best.value])
    {
      var rows := set id | id in Eligible(jobs, kinds, now) && id !in skip && UnderCap(jobs, cap, id);
      best := None;
      var rest := rows;
      while rest != {}
        invariant rest <= rows
        invariant best.None? ==> rest == rows
        invariant best.Some? ==> best.value in rows
        invariant best.Some? ==> forall x :: x in rows - rest ==> !Precedes(o, jobs[x], jobs[best.value])
        decreases |rest|
      {
        var x :| x in rest;
        if best.None? || Precedes(o, jobs[x], jobs[best.value]) { best := Some(x); }
        rest := rest - {x};
      }
      assert rows - rest == rows;
      assert forall x :: x in Eligible(jobs, kinds, now) && x !in skip && UnderCap(jobs, cap, x) ==> x in rows;
    }

    /** Records the attempt row and the `dispatched` event of a row the UPDATE has just claimed. */
    method FinalizeClaimedRow(id: Id, owner: string, expiresAt: Time, now: Time)
      requires Valid() && id in jobs
      modifies this`attempts, this`events
      ensures Valid()
      ensures Contents() == old(Contents())[id := Finalized(old(Contents())[id], OpClaim(owner, expiresAt, now))]
    {
      var no := jobs[id].attempt + 1;
      attempts := attempts[id := UpsertAttempt(attempts[id], no, owner, expiresAt)];
      AppendEventRow(id, EvDispatched(no), now);
    }

    /** One claimed row: the UPDATE and its bookkeeping. */
    method ClaimRow(id: Id, owner: string, expiresAt: Time, now: Time)
      requires Valid() && id in jobs && IsBacklog(jobs[id].state)
      modifies this
      ensures Valid() && jobs == Dispatch(old(jobs), id)
      ensures Contents() == OnJob(old(Contents()), id, OpClaim(owner, expiresAt, now))
    {
      jobs := jobs[id := jobs[id].(state := Dispatched)];
      FinalizeClaimedRow(id, owner, expiresAt, now);
    }

    /** The capped path: one row per round trip under the advisory lock, recounting each time. */
    method ClaimOneByOne(capacity: nat, kinds: Option<set<string>>, owner: string, expiresAt: Time, cap: int, now: Time)
      returns (claimed: seq<Id>)
      requires Valid() && cap > 0
      modifies this
      ensures Valid()
      ensures Picks(old(jobs), AgedPriority(now, Fairness.AGING_INCREMENT_PER_MINUTE), kinds, now, capacity, cap, claimed)
      ensures Contents() == OnPicked(old(Contents()), claimed, OpClaim(owner, expiresAt, now))
    {
      hide Chain, Picks, DispatchAll, OnPicked, Precedes;
      NothingClaimed(Contents(), jobs, kinds, cap, OpClaim(owner, expiresAt, now));
      var o := AgedPriority(now, Fairness.AGING_INCREMENT_PER_MINUTE);
      claimed := [];
      var i := 0;
      while i < capacity
        invariant i == |claimed| <= capacity
        invariant Valid()
        invariant forall id :: id in claimed ==> id in old(jobs)
        invariant Chain(old(jobs), o, kinds, now, cap, claimed)
        invariant jobs == DispatchAll(old(jobs), claimed)
        invariant Contents() == OnPicked(old(Contents()), claimed, OpClaim(owner, expiresAt, now))
      {
        var best := SelectBest(o, kinds, now, cap, {});
        if best.None? {
          ChainPicks(old(jobs), o, kinds, now, capacity, cap, claimed);
          return;
        }
        var id := best.value;
        ChainSnoc(old(jobs), o, kinds, now, cap, claimed, id);
        OnPickedSnoc(old(Contents()), claimed, id, OpClaim(owner, expiresAt, now));
        ClaimRow(id, owner, expiresAt, now);
        claimed := claimed + [id];
        i := i + 1;
      }
      ChainPicks(old(jobs), o, kinds, now, capacity, cap, claimed);
    }

    /** The bookkeeping of every row a batch UPDATE returned. */
    method FinalizeAll(claimed: seq<Id>, owner: string, expiresAt: Time, now: Time, ghost start: Store)
      requires Valid() && NoDup(claimed) && forall id :: id in claimed ==> id in start
      requires Contents() == HalfClaimed(start, claimed, [], OpClaim(owner, expiresAt, now))
      modifies this
      ensures Valid() && Contents() == HalfClaimed(start, claimed, claimed, OpClaim(owner, expiresAt, now))
    {
      ghost var op := OpClaim(owner, expiresAt, now);
      var i := 0;
      while i < |claimed|
        invariant 0 <= i <= |claimed|
        invariant Valid() && Contents().Keys == start.Keys
        invariant Contents() == HalfClaimed(start, claimed, claimed[..i], op)
      {
        var id := claimed[i];
        ghost var next := claimed[..i + 1];
        assert next == claimed[..i] + [id];
        HalfClaimedStep(start, claimed, claimed[..i], id, op);
        FinalizeClaimedRow(id, owner, expiresAt, now);
        i := i + 1;
      }
      assert claimed[..i] == claimed;
    }

    /** UPDATE generation_jobs SET state = 'dispatched' WHERE id IN (...). */
    method DispatchRows(claimed: seq<Id>, ghost op: Op)
      requires Valid() && op.OpClaim?
      modifies this`jobs
      ensures Valid() && Contents() == HalfClaimed(old(Contents()), claimed, [], op)
    {
      jobs := map id | id in jobs :: if id in claimed then jobs[id].(state := Dispatched) else jobs[id];
    }

    /** The uncapped path: one UPDATE over the top rows, then the bookkeeping of each. */
    method ClaimBatch(capacity: nat, kinds: Option<set<string>>, owner: string, expiresAt: Time, now: Time)
      returns (claimed: seq<Id>)
      requires Valid()
      modifies this
      ensures Valid()
      ensures IsTopBatch(old(jobs), AgedPriority(now, Fairness.AGING_INCREMENT_PER_MINUTE), kinds, now, capacity, claimed)
      ensures Contents() == OnPicked(old(Contents()), claimed, OpClaim(owner, expiresAt, now))
    {
      claimed := SelectBatch(AgedPriority(now, Fairness.AGING_INCREMENT_PER_MINUTE), capacity, kinds, now);
      AllClaimed(Contents(), claimed, OpClaim(owner, expiresAt, now));
      DispatchRows(claimed, OpClaim(owner, expiresAt, now));
      FinalizeAll(claimed, owner, expiresAt, now, old(Contents()));
    }

    /** SELECT ... ORDER BY ... LIMIT capacity. */
    method SelectBatch(o: Order, capacity: nat, kinds: Option<set<string>>, now: Time) returns (batch: seq<Id>)
      ensures IsTopBatch(jobs, o, kinds, now, capacity, batch)
    {
      batch := [];
      while |batch| < capacity
        invariant NoDup(batch) && |batch| <= capacity
        invariant forall id :: id in batch ==> id in Eligible(jobs, kinds, now)
        invariant forall a, b :: a in batch && b in Eligible(jobs, kinds, now) && b !in batch ==>
                    !Precedes(o, jobs[b], jobs[a])
        invariant |batch| <= |Eligible(jobs, kinds, now)|
      {
        var best := SelectBest(o, kinds, now, 0, Elements(batch));
        if best.None? {
          assert Eligible(jobs, kinds, now) == Elements(batch);
          NoDupCardinality(batch);
          return;
        }
        batch := batch + [best.value];
        NoDupCardinality(batch);
        SubsetCardinality(Elements(batch), Eligible(jobs, kinds, now));
      }
    }

    /** claim_next_with_lease. */
    method ClaimNext(capacity: int, kinds: Option<set<string>>, owner: string, leaseSeconds: real, cap: int, now: Time)
      returns (claimed: seq<Id>)
      requires Valid()
      modifies this
      ensures Valid()
      ensures ClaimOutcome(old(jobs), AgedPriority(now, Fairness.AGING_INCREMENT_PER_MINUTE), kinds, now, capacity, cap, claimed)
      ensures Contents() == OnPicked(old(Contents()), claimed, OpClaim(owner, now + leaseSeconds, now))
    {
      if capacity <= 0 {
        claimed := [];
      } else if cap <= 0 {
        claimed := ClaimBatch(capacity, kinds, owner, now + leaseSeconds, now);
      } else {
        claimed := ClaimOneByOne(capacity, kinds, owner, now + leaseSeconds, cap, now);
      }
    }

    // ---- reads --------------------------------------------------------------------

    /** Every dispatched or running job, joined with its newest attempt. */
    method ListActive() returns (ids: seq<Id>, rows: map<Id, RP.Seen>)
      requires Valid()
      ensures Lists(ids, ActiveInKinds(jobs, None))
      ensures rows == map id | id in Contents() && IsActive(Contents()[id].job.state) :: RP.SeenOf(Contents()[id])
    {
      rows := map id | id in jobs && IsActive(jobs[id].state) ::
        RP.SeenOf(Entry(jobs[id], attempts[id], events[id]));
      ids := [];
      var rest := ActiveInKinds(jobs, None);
      while rest != {}
        invariant NoDup(ids) && rest <= ActiveInKinds(jobs, None)
        invariant forall k :: 0 <= k < |ids| ==> ids[k] in ActiveInKinds(jobs, None) - rest
        invariant forall id :: id in ActiveInKinds(jobs, None) - rest ==> id in ids
        decreases |rest|
      {
        var id :| id in rest;
        ids, rest := ids + [id], rest - {id};
      }
    }

    method CountActive(kinds: Option<set<string>>) returns (n: nat)
      ensures n == |ActiveInKinds(jobs, kinds)|
    {
      n := |ActiveInKinds(jobs, kinds)|;
    }

    /** The row with that user, key and kind, of which the unique constraint allows one. */
    method FindByIdempotencyKey(user: Id, key: string, kind: string) returns (found: Option<Id>)
      ensures found.None? <==> AP.SameKey(jobs, user, key, kind) == {}
      ensures found.Some? ==> found.value in AP.SameKey(jobs, user, key, kind)
    {
      var rows := AP.SameKey(jobs, user, key, kind);
      if rows == {} { return None; }
      var id :| id in rows;
      found := Some(id);
    }

    /** Two round trips: the target row, then the count of the rows ahead of it. */
    method QueueRank(id: Id, kinds: Option<set<string>>, now: Time) returns (rank: Option<nat>)
      ensures rank.None? <==> id !in jobs || !IsBacklog(jobs[id].state)
      ensures rank.Some? ==>
                rank.value == |Ahead(jobs, AgedPriority(now, Fairness.AGING_INCREMENT_PER_MINUTE), kinds, id)|
    {
      if id !in jobs || !IsBacklog(jobs[id].state) { return None; }
      var o := AgedPriority(now, Fairness.AGING_INCREMENT_PER_MINUTE);
      var key, queuedAt := SortKey(o, jobs[id]), jobs[id].queuedAt;
      var ahead := set x | x in Lane(jobs, kinds) &&
                     (SortKey(o, jobs[x]) > key || (SortKey(o, jobs[x]) == key && jobs[x].queuedAt < queuedAt));
      assert ahead == Ahead(jobs, o, kinds, id);
      rank := Some(|ahead|);
    }
  }
}
