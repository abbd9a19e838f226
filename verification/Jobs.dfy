// The generation_jobs row and the table keyed by job id.
module Jobs {
  import opened Basics

  type Id = nat     // stands for a UUID
  type Time = real  // seconds

  datatype State =
    | Queued | Admitted | Dispatched | Running | RetryWait
    | Cancelling | Cancelled | Succeeded | Failed

  predicate IsTerminal(s: State) { s.Cancelled? || s.Succeeded? || s.Failed? }

  predicate IsBacklog(s: State) { s.Queued? || s.RetryWait? }

  predicate IsActive(s: State) { s.Dispatched? || s.Running? }

  datatype Job = Job(
    user: Id,
    conversation: Option<Id>,
    kind: string,
    state: State,
    priority: int,
    effectivePriority: real,
    payload: Payload,
    key: string,
    queuedAt: Time,
    availableAt: Option<Time>,
    attempt: nat,
    maxAttempts: int,
    errorCode: Option<string>,
    errorDetail: Option<string>)

  type Table = map<Id, Job>

  /** What a job keeps for its whole life: no operation rewrites these columns. */
  datatype Identity = Identity(
    user: Id, conversation: Option<Id>, kind: string, key: string, payload: Payload,
    queuedAt: Time, priority: int, effectivePriority: real, maxAttempts: int)

  function IdentityOf(j: Job): Identity {
    Identity(j.user, j.conversation, j.kind, j.key, j.payload,
             j.queuedAt, j.priority, j.effectivePriority, j.maxAttempts)
  }

  predicate InKinds(kinds: Option<set<string>>, kind: string) {
    kinds.None? || kind in kinds.value
  }

  predicate Available(j: Job, now: Time) {
    j.availableAt.None? || j.availableAt.value <= now
  }

  // ---- counting -------------------------------------------------------------

  function ActiveOf(m: Table, u: Id): set<Id> {
    set id | id in m && m[id].user == u && IsActive(m[id].state)
  }

  /** How many of user u's jobs are dispatched or running. */
  function ActiveCount(m: Table, u: Id): nat { |ActiveOf(m, u)| }

  function ActiveInKinds(m: Table, kinds: Option<set<string>>): set<Id> {
    set id | id in m && IsActive(m[id].state) && InKinds(kinds, m[id].kind)
  }

  function Lane(m: Table, kinds: Option<set<string>>): set<Id> {
    set id | id in m && IsBacklog(m[id].state) && InKinds(kinds, m[id].kind)
  }

  function UserBacklog(m: Table, u: Id): set<Id> {
    set id | id in m && IsBacklog(m[id].state) && m[id].user == u
  }

  function ConversationBacklog(m: Table, c: Id): set<Id> {
    set id | id in m && IsBacklog(m[id].state) && m[id].conversation == Some(c)
  }

  function Dispatch(m: Table, id: Id): Table
    requires id in m
  {
    m[id := m[id].(state := Dispatched)]
  }

  function DispatchAll(m: Table, ids: seq<Id>): (r: Table)
    requires forall id :: id in ids ==> id in m
    ensures r.Keys == m.Keys
  {
    if ids == [] then m else DispatchAll(Dispatch(m, ids[0]), ids[1..])
  }

  lemma DispatchCount(m: Table, id: Id, u: Id)
    requires id in m && !IsActive(m[id].state)
    ensures ActiveCount(Dispatch(m, id), u) ==
            ActiveCount(m, u) + (if m[id].user == u then 1 else 0)
  {
    var m' := Dispatch(m, id);
    if m[id].user == u {
      assert ActiveOf(m', u) == ActiveOf(m, u) + {id};
    } else {
      assert ActiveOf(m', u) == ActiveOf(m, u);
    }
  }

  /** Dispatching a list of jobs rewrites the state of exactly those jobs and nothing else. */
  lemma {:induction false} DispatchAllFrame(m: Table, ids: seq<Id>)
    requires forall id :: id in ids ==> id in m
    ensures forall id :: id in m ==>
              DispatchAll(m, ids)[id] == (if id in ids then m[id].(state := Dispatched) else m[id])
  {
    if ids != [] {
      DispatchAllFrame(Dispatch(m, ids[0]), ids[1..]);
    }
  }
}
