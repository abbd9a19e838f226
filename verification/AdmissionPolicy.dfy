// Admission of a request whose inputs are already normalised: idempotency first, then the
// backlog caps, then a new row at the back of its lane.
module AdmissionPolicy {
  import opened Basics
  import opened Jobs

  datatype Caps = Caps(maxQueued: int, globalCap: int)

  datatype Request = Request(
    user: Id, conversation: Option<Id>, kind: string, key: string, payload: Payload)

  datatype Verdict =
    | Replay(id: Id)
    | Conflict
    | QueueFull
    | ConversationFull
    | UserFull
    | Admit(job: Job)

  const DEFAULT_MAX_ATTEMPTS: int := 3

  /** Jobs the idempotency lookup may return. */
  function SameKey(m: Table, user: Id, key: string, kind: string): set<Id> {
    set id | id in m && m[id].user == user && m[id].key == key && m[id].kind == kind
  }

  ghost predicate IsLookup(m: Table, r: Request, found: Option<Id>) {
    match found
    case None => SameKey(m, r.user, r.key, r.kind) == {}
    case Some(id) => id in SameKey(m, r.user, r.key, r.kind)
  }

  function NewJob(r: Request, now: Time): Job {
    Job(r.user, r.conversation, r.kind, Queued, 0, 0.0, r.payload, r.key, now, None,
        0, DEFAULT_MAX_ATTEMPTS, None, None)
  }

  /** What the idempotency lookup answers by itself. Payload hashes are abstracted to the payloads: the
      canonical form is taken to be injective. */
  function Existing(m: Table, r: Request, found: Option<Id>): Option<Verdict>
    requires found.Some? ==> found.value in m
  {
    if found.None? then None
    else if m[found.value].payload == r.payload then Some(Replay(found.value))
    else Some(Conflict)
  }

  /** count_global_backlog against the system-wide cap. */
  predicate GlobalFull(caps: Caps, m: Table) { caps.globalCap > 0 && |Lane(m, None)| >= caps.globalCap }

  /** count_conversation_backlog or count_user_backlog against the requester's cap. */
  function OwnFull(caps: Caps, m: Table, r: Request): (full: Option<Verdict>)
    ensures full.Some? ==> full.value == if r.conversation.Some? then ConversationFull else UserFull
  {
    if caps.maxQueued > 0 && r.conversation.Some? &&
       |ConversationBacklog(m, r.conversation.value)| >= caps.maxQueued then Some(ConversationFull)
    else if caps.maxQueued > 0 && r.conversation.None? && |UserBacklog(m, r.user)| >= caps.maxQueued then Some(UserFull)
    else None
  }

  /** The whole decision on one table, as an undisturbed request meets it. */
  function Decide(caps: Caps, m: Table, r: Request, found: Option<Id>, now: Time): Verdict
    requires found.Some? ==> found.value in m
  {
    if Existing(m, r, found).Some? then Existing(m, r, found).value
    else if GlobalFull(caps, m) then QueueFull
    else if OwnFull(caps, m, r).Some? then OwnFull(caps, m, r).value
    else Admit(NewJob(r, now))
  }

  /** At most one job per (user, key, kind). */
  ghost predicate UniqueKeys(m: Table) {
    forall a, b :: a in m && b in m && a != b ==>
      !(m[a].user == m[b].user && m[a].key == m[b].key && m[a].kind == m[b].kind)
  }

  /** Asking again for a job that exists returns it, however full the queue is. */
  lemma ReplayBeatsCaps(caps: Caps, m: Table, r: Request, found: Option<Id>, now: Time, id: Id)
    requires UniqueKeys(m) && IsLookup(m, r, found)
    requires id in SameKey(m, r.user, r.key, r.kind)
    ensures Decide(caps, m, r, found, now) == (if m[id].payload == r.payload then Replay(id) else Conflict)
  {
    assert found.Some?;
    assert found.value == id;
  }

  /** A new row never duplicates a key. */
  lemma AdmitKeepsUnique(m: Table, r: Request, id: Id, now: Time)
    requires UniqueKeys(m) && IsLookup(m, r, None) && id !in m
    ensures UniqueKeys(m[id := NewJob(r, now)])
  {
    forall x | x in m ensures !(m[x].user == r.user && m[x].key == r.key && m[x].kind == r.kind) {
      assert x !in SameKey(m, r.user, r.key, r.kind);
    }
  }
}
