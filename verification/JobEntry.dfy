// One job in the durable store: its generation_jobs row, its job_attempts rows and its
// append-only job_events, and what each transaction of the Postgres adapter does to them.
module JobEntry {
  import opened Basics
  import opened Jobs
  import opened StateMachine
  import Retry

  datatype Attempt = Attempt(
    state: State,
    leaseOwner: string,
    leaseExpiresAt: Time,
    promptId: Option<string>,
    errorCode: Option<string>,
    finished: bool,
    result: Option<Payload>)

  /** Rows of one job, keyed by attempt_no (unique per job). */
  type Attempts = map<nat, Attempt>

  datatype Body =
    | EvCreated
    | EvDispatched(attemptNo: nat)
    | EvSucceeded
    | EvFailed(code: string, detail: Option<string>)
    | EvRetry(code: string, detail: Option<string>, delay: real)
    | EvCancelled

  datatype Event = Event(sequenceNo: nat, at: Time, body: Body)

  datatype Entry = Entry(job: Job, attempts: Attempts, log: seq<Event>)

  /** One transaction on one job. */
  datatype Op =
    | OpClaim(owner: string, expiresAt: Time, now: Time)
    | OpRunning
    | OpSucceeded(result: Payload, now: Time)
    | OpFailed(code: string, detail: Option<string>, now: Time)
    | OpRetryWait(code: string, detail: Option<string>, delay: real, now: Time)
    | OpSetPrompt(promptId: string)
    | OpRenew(expiresAt: Time)
    | OpCancel(now: Time)

  // ---- job_events ---------------------------------------------------------------

  function SequenceNos(log: seq<Event>): seq<nat> { seq(|log|, i requires 0 <= i < |log| => log[i].sequenceNo) }

  function AppendEvent(log: seq<Event>, body: Body, at: Time): seq<Event> {
    log + [Event(MaxOf(SequenceNos(log)) + 1, at, body)]
  }

  // ---- job_attempts -------------------------------------------------------------

  predicate IsGreatest(x: nat, s: set<nat>) {
    x in s && forall y :: y in s ==> y <= x
  }

  lemma {:induction false} GreatestExists(s: set<nat>) returns (x: nat)
    requires s != {}
    ensures IsGreatest(x, s)
  {
    x :| x in s;
    if s != {x} {
      var a := x;
      var b := GreatestExists(s - {a});
      x := if a < b then b else a;
      assert forall y :: y in s ==> y == a || y in s - {a};
    }
  }

  /** max(attempt_no). */
  function LatestNo(attempts: Attempts): (no: nat)
    requires attempts != map[]
    ensures IsGreatest(no, attempts.Keys)
  {
    assert exists x :: IsGreatest(x, attempts.Keys) by {
      assert attempts.Keys == {} ==> attempts == map[];
      var x := GreatestExists(attempts.Keys);
    }
    var x :| IsGreatest(x, attempts.Keys);
    x
  }

  /** INSERT ... ON CONFLICT (job_id, attempt_no) DO UPDATE SET lease columns. */
  function UpsertAttempt(attempts: Attempts, no: nat, owner: string, expiresAt: Time): Attempts {
    if no in attempts
    then attempts[no := attempts[no].(leaseOwner := owner, leaseExpiresAt := expiresAt)]
    else attempts[no := Attempt(Dispatched, owner, expiresAt, None, None, false, None)]
  }

  /** _update_latest_attempt: a no-op when the job was never claimed. */
  function CloseLatest(attempts: Attempts, s: State, code: Option<string>, result: Option<Payload>): Attempts {
    if attempts == map[] then attempts
    else
      var no := LatestNo(attempts);
      var a := attempts[no];
      attempts[no := a.(state := s, finished := true,
                        errorCode := if code.Some? then code else a.errorCode,
                        result := if result.Some? then result else a.result)]
  }

  // ---- the transactions ---------------------------------------------------------

  /** The conditional UPDATE of generation_jobs. */
  function RowAfter(j: Job, op: Op): Job {
    if op.OpClaim? then (if IsBacklog(j.state) then j.(state := Dispatched) else j)
    else if IsTerminal(j.state) then j
    else match op
      case OpRunning => j.(state := Running)
      case OpSucceeded(_, _) => j.(state := Succeeded, errorCode := None, errorDetail := None)
      case OpFailed(code, detail, _) => j.(state := Failed, errorCode := Some(code), errorDetail := detail)
      case OpRetryWait(code, detail, delay, now) =>
        j.(state := RetryWait, attempt := j.attempt + 1, errorCode := Some(code), errorDetail := detail,
           availableAt := Some(now + delay))
      case OpCancel(_) => j.(state := Cancelled)
      case _ => j
  }

  /** The writes to job_attempts in the same transaction; the outcome writes only follow an
      UPDATE that matched, the prompt id and lease writes look at no state. */
  function AttemptsAfter(e: Entry, op: Op): Attempts {
    var live := !IsTerminal(e.job.state);
    match op
    case OpClaim(owner, expiresAt, _) =>
      if IsBacklog(e.job.state) then UpsertAttempt(e.attempts, e.job.attempt + 1, owner, expiresAt) else e.attempts
    case OpSucceeded(result, _) =>
      if live then CloseLatest(e.attempts, Succeeded, None, Some(result)) else e.attempts
    case OpFailed(code, _, _) => if live then CloseLatest(e.attempts, Failed, Some(code), None) else e.attempts
    case OpRetryWait(code, _, _, _) => if live then CloseLatest(e.attempts, RetryWait, Some(code), None) else e.attempts
    case OpSetPrompt(promptId) =>
      if e.attempts == map[] then e.attempts
      else
        var no := LatestNo(e.attempts);
        e.attempts[no := e.attempts[no].(promptId := Some(promptId))]
    case OpRenew(expiresAt) =>
      if e.attempts == map[] then e.attempts
      else
        var no := LatestNo(e.attempts);
        e.attempts[no := e.attempts[no].(leaseExpiresAt := expiresAt)]
    case _ => e.attempts
  }

  /** The event the transaction writes, if its conditional UPDATE matched the row. */
  function EventOf(j: Job, op: Op): Option<Body> {
    if op.OpClaim? && IsBacklog(j.state) then Some(EvDispatched(j.attempt + 1))
    else if IsTerminal(j.state) then None
    else match op
      case OpSucceeded(_, _) => Some(EvSucceeded)
      case OpFailed(code, detail, _) => Some(EvFailed(code, detail))
      case OpRetryWait(code, detail, delay, _) => Some(EvRetry(code, detail, delay))
      case OpCancel(_) => Some(EvCancelled)
      case _ => None
  }

  function OpTime(op: Op, clock: Time): Time {
    if op.OpClaim? || op.OpSucceeded? || op.OpFailed? || op.OpRetryWait? || op.OpCancel? then op.now else clock
  }

  function LogAfter(e: Entry, op: Op): seq<Event> {
    if EventOf(e.job, op).Some? then AppendEvent(e.log, EventOf(e.job, op).value, OpTime(op, 0.0)) else e.log
  }

  function Apply(e: Entry, op: Op): Entry {
    Entry(RowAfter(e.job, op), AttemptsAfter(e, op), LogAfter(e, op))
  }

  function ApplyMaybe(e: Entry, op: Option<Op>): Entry {
    if op.Some? then Apply(e, op.value) else e
  }

  /** enqueue of a row admission built: available_at defaults to queued_at. */
  function Created(j: Job, now: Time): Entry {
    var availableAt := if j.availableAt.Some? then j.availableAt else Some(j.queuedAt);
    Entry(j.(availableAt := availableAt), map[], AppendEvent([], EvCreated, now))
  }

  // ---- the whole store ----------------------------------------------------------

  type Store = map<Id, Entry>

  /** The generation_jobs table. */
  function Rows(s: Store): Table { map id | id in s :: s[id].job }

  function OnJob(s: Store, id: Id, op: Op): Store {
    if id in s then s[id := Apply(s[id], op)] else s
  }

  function OnPicked(s: Store, picked: seq<Id>, op: Op): Store {
    map id | id in s :: if id in picked then Apply(s[id], op) else s[id]
  }

  lemma OnPickedSnoc(s: Store, picked: seq<Id>, id: Id, op: Op)
    requires id in s && id !in picked
    ensures OnPicked(s, picked + [id], op) == OnJob(OnPicked(s, picked, op), id, op)
  {
  }

  /** The latest attempt, as the LATERAL join of get() shows it. */
  function Current(e: Entry): Option<Attempt> {
    if e.attempts == map[] then None else Some(e.attempts[LatestNo(e.attempts)])
  }

  function ShownPrompt(e: Entry): Option<string> {
    if Current(e).Some? then Current(e).value.promptId else None
  }

  // ---- the invariant of every reachable entry -----------------------------------

  predicate IsEnd(b: Body) { b.EvSucceeded? || b.EvFailed? || b.EvCancelled? }

  function Retries(log: seq<Event>): nat {
    if log == [] then 0
    else Retries(log[..|log| - 1]) + (if log[|log| - 1].body.EvRetry? then 1 else 0)
  }

  function Claims(log: seq<Event>): nat {
    if log == [] then 0
    else Claims(log[..|log| - 1]) + (if log[|log| - 1].body.EvDispatched? then 1 else 0)
  }

  ghost predicate Numbered(log: seq<Event>) {
    && log != []
    && (forall i :: 0 <= i < |log| ==> log[i].sequenceNo == i + 1)
    && (forall i :: 0 <= i < |log| ==> (log[i].body.EvCreated? <==> i == 0))
  }

  /** A terminal event exists exactly when the row is terminal, and then it is the last one. */
  ghost predicate EndsRight(e: Entry) {
    && (forall i :: 0 <= i < |e.log| - 1 ==> !IsEnd(e.log[i].body))
    && (e.log != [] ==> (IsEnd(e.log[|e.log| - 1].body) <==> IsTerminal(e.job.state)))
  }

  /** Attempt rows are numbered below the next claim's number, and the dispatched events carry
      exactly these numbers, strictly increasing. */
  ghost predicate FreshAttempts(e: Entry) {
    && (forall no :: no in e.attempts ==> no <= e.job.attempt + (if IsBacklog(e.job.state) then 0 else 1))
    && (forall i :: 0 <= i < |e.log| && e.log[i].body.EvDispatched? ==> e.log[i].body.attemptNo in e.attempts)
    && (forall i, j :: 0 <= i < j < |e.log| && e.log[i].body.EvDispatched? && e.log[j].body.EvDispatched? ==>
          e.log[i].body.attemptNo < e.log[j].body.attemptNo)
  }

  ghost predicate ErrorsRight(j: Job) {
    && (j.state.Succeeded? ==> j.errorCode.None?)
    && (j.state.Failed? || j.state.RetryWait? ==> j.errorCode.Some?)
  }

  ghost predicate EntryInv(e: Entry) {
    && Numbered(e.log)
    && EndsRight(e)
    && FreshAttempts(e)
    && ErrorsRight(e.job)
    && Retries(e.log) == e.job.attempt
    && Claims(e.log) <= e.job.attempt + (if IsBacklog(e.job.state) then 0 else 1)
    && e.job.availableAt.Some?
    && !e.job.state.Admitted? && !e.job.state.Cancelling?
  }

  lemma AppendFacts(log: seq<Event>, body: Body, at: Time)
    requires Numbered(log) && !body.EvCreated?
    ensures var log' := AppendEvent(log, body, at);
            && Numbered(log')
            && |log'| == |log| + 1
            && log'[|log|].body == body && log'[|log|].at == at
            && log'[..|log|] == log
            && Retries(log') == Retries(log) + (if body.EvRetry? then 1 else 0)
            && Claims(log') == Claims(log) + (if body.EvDispatched? then 1 else 0)
  {
    MaxOfNumbered(SequenceNos(log));
    var log' := AppendEvent(log, body, at);
    assert log'[..|log'| - 1] == log;
  }

  lemma FirstEvent(now: Time)
    ensures AppendEvent([], EvCreated, now) == [Event(1, now, EvCreated)]
  {
    assert SequenceNos([]) == [];
  }

  lemma CreatedInv(j: Job, now: Time)
    requires j.state.Queued? && j.attempt == 0
    ensures EntryInv(Created(j, now))
  {
    FirstEvent(now);
    var log := Created(j, now).log;
    assert log == [Event(1, now, EvCreated)] && log[..|log| - 1] == [];
  }

  /** Every transaction, by whichever actor and however late, keeps the invariant. */
  lemma ApplyInv(e: Entry, op: Op)
    requires EntryInv(e)
    ensures EntryInv(Apply(e, op))
  {
    ApplyLog(e, op);
    ApplyAttempts(e, op);
  }

  lemma ApplyLog(e: Entry, op: Op)
    requires EntryInv(e)
    ensures var e' := Apply(e, op);
            && Numbered(e'.log) && EndsRight(e') && ErrorsRight(e'.job)
            && Retries(e'.log) == e'.job.attempt
            && Claims(e'.log) <= e'.job.attempt + (if IsBacklog(e'.job.state) then 0 else 1)
  {
    if EventOf(e.job, op).Some? {
      RowFollowsEvent(e, op);
      AppendFacts(e.log, EventOf(e.job, op).value, OpTime(op, 0.0));
    }
  }

  /** The columns of the row that matter to the log, after the event it writes. */
  lemma RowFollowsEvent(e: Entry, op: Op)
    requires EventOf(e.job, op).Some?
    ensures var j, j', b := e.job, Apply(e, op).job, EventOf(e.job, op).value;
            && !b.EvCreated?
            && !IsTerminal(j.state)
            && (IsEnd(b) <==> IsTerminal(j'.state))
            && (b.EvRetry? <==> j'.state.RetryWait?)
            && (b.EvDispatched? <==> j'.state.Dispatched?)
            && (b.EvDispatched? ==> IsBacklog(j.state))
            && j'.attempt == j.attempt + (if b.EvRetry? then 1 else 0)
            && !j'.state.Queued?
  {
  }

  lemma ApplyAttempts(e: Entry, op: Op)
    requires FreshAttempts(e)
    ensures FreshAttempts(Apply(e, op))
  {
    var e' := Apply(e, op);
    assert e.attempts.Keys <= e'.attempts.Keys;
    assert forall i :: 0 <= i < |e.log| ==> e'.log[i] == e.log[i];
    if op.OpClaim? && IsBacklog(e.job.state) {
      assert e'.log[|e.log|].body == EvDispatched(e.job.attempt + 1);
    }
  }

  // ---- terminal stability --------------------------------------------------------

  /** No transaction changes anything a terminal row or its log says. */
  lemma TerminalStable(e: Entry, op: Op)
    requires IsTerminal(e.job.state)
    ensures Apply(e, op).job == e.job && Apply(e, op).log == e.log
    ensures Current(Apply(e, op)).Some? <==> Current(e).Some?
    ensures Current(e).Some? ==>
              && Current(Apply(e, op)).value.result == Current(e).value.result
              && Current(Apply(e, op)).value.errorCode == Current(e).value.errorCode
  {
    var e' := Apply(e, op);
    if e.attempts != map[] { assert e'.attempts.Keys == e.attempts.Keys; SameGreatest(e.attempts, e'.attempts); }
  }

  lemma SameGreatest(a: Attempts, b: Attempts)
    requires a != map[] && a.Keys == b.Keys
    ensures b != map[] && LatestNo(a) == LatestNo(b)
  {
    assert LatestNo(a) in b;
  }

  /** The columns admission wrote never change. */
  lemma IdentityKept(e: Entry, op: Op)
    ensures IdentityOf(Apply(e, op).job) == IdentityOf(e.job)
  {
  }

  /** A job without attempt rows has never been claimed: it is queued, or was cancelled from there. */
  ghost predicate ClaimedFirst(e: Entry) {
    && (e.job.state.Queued? ==> e.attempts == map[])
    && (e.attempts == map[] ==> e.job.state.Queued? || e.job.state.Cancelled?)
  }

  /** Only a claim or a cancel is a transaction about a job that has never been claimed. */
  predicate AboutAClaimedJob(op: Op) { !op.OpClaim? && !op.OpCancel? }

  lemma ClaimedFirstKept(e: Entry, op: Op)
    requires ClaimedFirst(e) && (AboutAClaimedJob(op) ==> e.attempts != map[])
    ensures ClaimedFirst(Apply(e, op))
    ensures e.attempts.Keys <= Apply(e, op).attempts.Keys
    ensures op.OpClaim? && IsBacklog(e.job.state) ==> e.job.attempt + 1 in Apply(e, op).attempts
  {
    assert e.attempts.Keys == {} ==> e.attempts == map[];
    if op.OpClaim? && IsBacklog(e.job.state) { assert e.job.attempt + 1 in Apply(e, op).attempts; }
  }

  /** Which change each transaction makes, for every state a job can be in. */
  lemma EveryChange(e: Entry, op: Op)
    requires ClaimedFirst(e) && (AboutAClaimedJob(op) ==> e.attempts != map[])
    requires !e.job.state.Admitted? && !e.job.state.Cancelling?
    ensures var a, b := e.job.state, Apply(e, op).job.state;
            a != b ==>
              if IsBacklog(a) && AboutAClaimedJob(op) then LateChange(a, b)
              else TimelyChange(a, b)
  {
  }

  /** And every one of these changes is some transaction's. */
  lemma ChangesHappen(j: Job, a: State, b: State) returns (op: Op)
    requires j.state == a && (TimelyChange(a, b) || LateChange(a, b))
    ensures RowAfter(j, op).state == b
    ensures LateChange(a, b) <==> IsBacklog(a) && AboutAClaimedJob(op)
  {
    op := match b
      case Dispatched => OpClaim("", 0.0, 0.0)
      case Running => OpRunning
      case Succeeded => OpSucceeded(map[], 0.0)
      case Failed => OpFailed("", None, 0.0)
      case RetryWait => OpRetryWait("", None, 0.0, 0.0)
      case _ => OpCancel(0.0);
  }

  /** cancel() lands where request_cancel's machine would, except that a dispatched or running
      job skips `cancelling`. */
  lemma CancelAgainstMachine(e: Entry, now: Time)
    requires !e.job.state.Cancelling?
    ensures var want := RequestCancel(e.job.state).newState;
            (Apply(e, OpCancel(now)).job.state == if want.Some? then want.value else e.job.state) <==>
              !IsActive(e.job.state)
  {
  }

  // ---- freshness -----------------------------------------------------------------

  /** Each claim inserts a brand-new attempt row, which becomes the current one and shows no
      prompt id: the ON CONFLICT arm is unreachable. */
  lemma ClaimIsFresh(e: Entry, owner: string, expiresAt: Time, now: Time)
    requires EntryInv(e) && IsBacklog(e.job.state)
    ensures var e' := Apply(e, OpClaim(owner, expiresAt, now));
            && e.job.attempt + 1 !in e.attempts
            && e'.attempts.Keys == e.attempts.Keys + {e.job.attempt + 1}
            && (forall no :: no in e.attempts ==> e'.attempts[no] == e.attempts[no])
            && LatestNo(e'.attempts) == e.job.attempt + 1
            && ShownPrompt(e') == None
            && Current(e').value.leaseOwner == owner && Current(e').value.leaseExpiresAt == expiresAt
  {
    var e' := Apply(e, OpClaim(owner, expiresAt, now));
    assert e.job.attempt + 1 in e'.attempts;
  }

  /** Only set_prompt_id makes a prompt id appear. */
  lemma PromptOnlyFromSet(e: Entry, op: Op)
    requires EntryInv(e) && !op.OpSetPrompt?
    ensures ShownPrompt(Apply(e, op)) == ShownPrompt(e) || ShownPrompt(Apply(e, op)) == None
  {
    var e' := Apply(e, op);
    if op.OpClaim? && IsBacklog(e.job.state) {
      ClaimIsFresh(e, op.owner, op.expiresAt, op.now);
    } else if e.attempts != map[] {
      assert e'.attempts.Keys == e.attempts.Keys;
      SameGreatest(e.attempts, e'.attempts);
    }
  }

  /** The adapter's documentation says per-attempt rows rule a stale prompt id out. They do not:
      set_prompt_id addresses the newest attempt, so a write by the dispatch of attempt `no`
      lands on attempt `no` exactly when no later attempt exists yet. */
  lemma PromptLandsIff(e: Entry, no: nat, promptId: string)
    requires no in e.attempts
    ensures var e' := Apply(e, OpSetPrompt(promptId));
            (e'.attempts == e.attempts[no := e.attempts[no].(promptId := Some(promptId))]) <==>
              no == LatestNo(e.attempts) ||
              (e.attempts[no].promptId == Some(promptId) &&
               e.attempts[LatestNo(e.attempts)].promptId == Some(promptId))
  {
    var last := LatestNo(e.attempts);
    var hit := e.attempts[last := e.attempts[last].(promptId := Some(promptId))];
    var meant := e.attempts[no := e.attempts[no].(promptId := Some(promptId))];
    assert Apply(e, OpSetPrompt(promptId)).attempts == hit;
    if no != last {
      assert hit[last].promptId == Some(promptId) && meant[last] == e.attempts[last];
      assert meant[no].promptId == Some(promptId) && hit[no] == e.attempts[no];
      if e.attempts[no].promptId == Some(promptId) && e.attempts[last].promptId == Some(promptId) {
        assert e.attempts[no].(promptId := Some(promptId)) == e.attempts[no];
        assert e.attempts[last].(promptId := Some(promptId)) == e.attempts[last];
        assert hit == e.attempts && meant == e.attempts;
      }
    }
  }

  // ---- the log replays to the row -------------------------------------------------

  datatype Phase = Waiting | WaitingRetry | InFlight | Ended(how: State)

  function PhaseOf(s: State): Phase {
    if s.Queued? then Waiting
    else if s.RetryWait? then WaitingRetry
    else if IsTerminal(s) then Ended(s)
    else InFlight
  }

  datatype View = View(
    phase: Phase, attempt: nat, errorCode: Option<string>, errorDetail: Option<string>, attemptNos: set<nat>)

  function ViewOf(e: Entry): View {
    View(PhaseOf(e.job.state), e.job.attempt, e.job.errorCode, e.job.errorDetail, e.attempts.Keys)
  }

  const START: View := View(Waiting, 0, None, None, {})

  function Replayed(v: View, b: Body): View {
    match b
    case EvCreated => START
    case EvDispatched(no) => v.(phase := InFlight, attemptNos := v.attemptNos + {no})
    case EvSucceeded => v.(phase := Ended(Succeeded), errorCode := None, errorDetail := None)
    case EvFailed(code, detail) => v.(phase := Ended(Failed), errorCode := Some(code), errorDetail := detail)
    case EvRetry(code, detail, _) =>
      v.(phase := WaitingRetry, attempt := v.attempt + 1, errorCode := Some(code), errorDetail := detail)
    case EvCancelled => v.(phase := Ended(Cancelled))
  }

  /** Folding the events of a job, oldest first. */
  function Replay(log: seq<Event>): View {
    if log == [] then START
    else Replayed(Replay(log[..|log| - 1]), log[|log| - 1].body)
  }

  lemma ReplayAppend(log: seq<Event>, body: Body, at: Time)
    ensures Replay(AppendEvent(log, body, at)) == Replayed(Replay(log), body)
  {
    var log' := AppendEvent(log, body, at);
    assert log'[..|log'| - 1] == log;
  }

  lemma CreatedReplays(j: Job, now: Time)
    requires j.state.Queued? && j.attempt == 0 && j.errorCode.None? && j.errorDetail.None?
    ensures Replay(Created(j, now).log) == ViewOf(Created(j, now))
  {
  }

  /** What the row shows changes exactly as the event says. */
  lemma ViewFollowsEvent(e: Entry, op: Op)
    ensures EventOf(e.job, op).Some? ==> ViewOf(Apply(e, op)) == Replayed(ViewOf(e), EventOf(e.job, op).value)
    ensures EventOf(e.job, op).None? ==>
              ViewOf(Apply(e, op)) ==
              (if op.OpRunning? && !IsTerminal(e.job.state) then ViewOf(e).(phase := InFlight) else ViewOf(e))
  {
    assert Apply(e, op).attempts.Keys ==
           e.attempts.Keys + (if op.OpClaim? && IsBacklog(e.job.state) then {e.job.attempt + 1} else {});
  }

  /** Replaying the log keeps giving the row after any transaction but one: a mark_running that
      reaches a row waiting in queued or retry_wait, which the UPDATE's guard lets through. */
  lemma ReplayIff(e: Entry, op: Op)
    requires Replay(e.log) == ViewOf(e) && !e.job.state.Admitted? && !e.job.state.Cancelling?
    ensures Replay(Apply(e, op).log) == ViewOf(Apply(e, op)) <==>
            !(op.OpRunning? && IsBacklog(e.job.state))
  {
    ViewFollowsEvent(e, op);
    if EventOf(e.job, op).Some? { ReplayAppend(e.log, EventOf(e.job, op).value, OpTime(op, 0.0)); }
  }

  /** The replayed log and the row agree on everything but, for a live job, the phase. */
  ghost predicate ReplaysUpToPhase(e: Entry) {
    && Replay(e.log).(phase := Waiting) == ViewOf(e).(phase := Waiting)
    && (IsTerminal(e.job.state) ==> Replay(e.log) == ViewOf(e))
  }

  /** With no hypothesis at all on the actors this much always survives. */
  lemma ReplayAlways(e: Entry, op: Op)
    requires ReplaysUpToPhase(e)
    ensures ReplaysUpToPhase(Apply(e, op))
  {
    ViewFollowsEvent(e, op);
    if EventOf(e.job, op).Some? { ReplayAppend(e.log, EventOf(e.job, op).value, OpTime(op, 0.0)); }
  }

  // ---- retries are not reclaimed early --------------------------------------------

  /** How many retries the job has had when event i is written, that event included. */
  function RetriesUpTo(log: seq<Event>, i: nat): nat
    requires i < |log|
  {
    Retries(log[..i + 1])
  }

  /** The earliest instant the retry event i allows the job to be claimed again. */
  function NotBefore(log: seq<Event>, i: nat): Time
    requires i < |log|
  {
    log[i].at + Retry.ShortestDelay(RetriesUpTo(log, i))
  }

  ghost predicate OnTime(e: Entry, clock: Time) {
    && e.job.availableAt.Some?
    && (forall i :: 0 <= i < |e.log| ==> e.log[i].at <= clock)
    && (forall i :: 0 <= i < |e.log| && e.log[i].body.EvRetry? ==>
          NotBefore(e.log, i) <= e.job.availableAt.value)
    && (forall i, j :: 0 <= i < j < |e.log| && e.log[i].body.EvRetry? && e.log[j].body.EvDispatched? ==>
          NotBefore(e.log, i) <= e.log[j].at)
  }

  lemma {:induction false} ShortestDelayMonotone(a: nat, b: nat)
    requires a <= b
    ensures Retry.ShortestDelay(a) <= Retry.ShortestDelay(b)
  {
    if a < b {
      ShortestDelayMonotone(a, b - 1);
      Retry.ShortestDelayGrows(b - 1);
    }
  }

  lemma {:induction false} RetriesPrefix(log: seq<Event>, n: nat)
    requires n <= |log|
    ensures Retries(log[..n]) <= Retries(log)
    decreases |log|
  {
    if n < |log| {
      var front := log[..|log| - 1];
      RetriesPrefix(front, n);
      assert front[..n] == log[..n];
    } else {
      assert log[..n] == log;
    }
  }

  lemma PrefixesKept(e: Entry, op: Op)
    ensures |e.log| <= |Apply(e, op).log|
    ensures forall i :: 0 <= i < |e.log| ==> Apply(e, op).log[i] == e.log[i]
    ensures forall i :: 0 <= i < |e.log| ==> NotBefore(Apply(e, op).log, i) == NotBefore(e.log, i)
  {
    forall i | 0 <= i < |e.log| ensures NotBefore(Apply(e, op).log, i) == NotBefore(e.log, i) {
      assert Apply(e, op).log[..i + 1] == e.log[..i + 1];
    }
  }

  lemma EarlierBound(log: seq<Event>, i: nat, n: nat, now: Time, delay: real)
    requires i < |log| && log[i].at <= now
    requires Retries(log) <= n && Retry.ShortestDelay(n) <= delay
    ensures NotBefore(log, i) <= now + delay
  {
    RetriesPrefix(log, i + 1);
    ShortestDelayMonotone(RetriesUpTo(log, i), n);
  }

  lemma RetryOnTime(e: Entry, op: Op)
    requires EntryInv(e) && op.OpRetryWait? && OnTime(e, op.now)
    requires !IsTerminal(e.job.state)
    requires Retry.ShortestDelay(e.job.attempt + 1) <= op.delay
    ensures forall i :: 0 <= i < |Apply(e, op).log| ==> NotBefore(Apply(e, op).log, i) <= op.now + op.delay
  {
    var log := Apply(e, op).log;
    AppendFacts(e.log, log[|e.log|].body, op.now);
    forall i | 0 <= i < |log| ensures NotBefore(log, i) <= op.now + op.delay {
      assert i < |e.log| ==> log[i] == e.log[i];
      EarlierBound(log, i, e.job.attempt + 1, op.now, op.delay);
    }
  }

  /** A claim at `now` needs available_at <= now; a retry must be scheduled with at least the
      shortest backoff of the attempt it opens. Then no retry is ever reclaimed early. */
  lemma ApplyOnTime(e: Entry, op: Op, clock: Time)
    requires EntryInv(e) && OnTime(e, clock)
    requires clock <= OpTime(op, clock)
    requires op.OpClaim? ==> Available(e.job, op.now)
    requires op.OpRetryWait? ==> Retry.ShortestDelay(e.job.attempt + 1) <= op.delay
    ensures OnTime(Apply(e, op), OpTime(op, clock))
  {
    var e' := Apply(e, op);
    PrefixesKept(e, op);
    if |e'.log| != |e.log| {
      assert |e'.log| == |e.log| + 1 && e'.log[|e.log|].at == OpTime(op, clock);
      if op.OpRetryWait? { RetryOnTime(e, op); }
    }
  }

  // ---- what a transaction leaves in the attempt rows -----------------------------------------

  predicate IsOutcome(op: Op) { op.OpSucceeded? || op.OpFailed? || op.OpRetryWait? }

  /** An outcome on a live job finishes its newest attempt, which then says what the row says; an older attempt
      is as it was, and so are the lease and the prompt id. */
  lemma OutcomeClosesNewest(e: Entry, op: Op, no: nat)
    requires IsOutcome(op) && !IsTerminal(e.job.state) && IsGreatest(no, e.attempts.Keys)
    ensures var e' := Apply(e, op);
            && e'.attempts.Keys == e.attempts.Keys
            && (forall n :: n in e.attempts && n != no ==> e'.attempts[n] == e.attempts[n])
            && var a, a' := e.attempts[no], e'.attempts[no];
               && a'.finished && a'.state == e'.job.state
               && a'.errorCode == (if op.OpSucceeded? then a.errorCode else e'.job.errorCode)
               && a'.result == (if op.OpSucceeded? then Some(op.result) else a.result)
               && a'.leaseOwner == a.leaseOwner && a'.leaseExpiresAt == a.leaseExpiresAt && a'.promptId == a.promptId
  {
  }

  /** A renewal moves the newest attempt's lease and nothing else, whatever the state; starting and cancelling
      touch no attempt. */
  lemma RenewalMovesLease(e: Entry, op: Op, no: nat)
    requires IsGreatest(no, e.attempts.Keys)
    ensures op.OpRenew? ==>
              Apply(e, op) == e.(attempts := e.attempts[no := e.attempts[no].(leaseExpiresAt := op.expiresAt)])
    ensures op.OpRunning? || op.OpCancel? ==> Apply(e, op).attempts == e.attempts
  {
  }

  /** The newest attempt speaks for the row: unfinished after a claim; after an outcome finished, with the
      row's state and the row's error. An attempt that is not the newest was given back for a retry. */
  ghost predicate AttemptsRight(e: Entry) {
    forall no :: IsGreatest(no, e.attempts.Keys) ==>
      var a := e.attempts[no];
      && (forall n :: n in e.attempts && n != no ==>
            e.attempts[n].finished && e.attempts[n].state == RetryWait && e.attempts[n].errorCode.Some?)
      && (e.job.state == Dispatched ==>
            !a.finished && a.state == Dispatched && a.errorCode == None && a.result == None)
      && (e.job.state in {Succeeded, Failed, RetryWait} ==> a.finished && a.state == e.job.state)
      && (e.job.state in {Failed, RetryWait} ==> a.errorCode == e.job.errorCode)
      && (e.job.state == Succeeded ==> a.result.Some?)
  }

  lemma AttemptsKept(e: Entry, op: Op)
    requires EntryInv(e) && ClaimedFirst(e) && AttemptsRight(e)
    ensures AttemptsRight(Apply(e, op))
  {
    hide *;
    if op.OpClaim? {
      ClaimedAttempts(e, op);
    } else if IsOutcome(op) {
      OutcomeAttempts(e, op);
    } else {
      OtherAttempts(e, op);
    }
  }

  lemma OutcomeAttempts(e: Entry, op: Op)
    requires AttemptsRight(e) && IsOutcome(op)
    ensures AttemptsRight(Apply(e, op))
  {
    if e.attempts != map[] && !IsTerminal(e.job.state) {
      OutcomeClosesNewest(e, op, LatestNo(e.attempts));
      hide LatestNo;
    }
  }

  lemma OtherAttempts(e: Entry, op: Op)
    requires AttemptsRight(e) && !op.OpClaim? && !IsOutcome(op)
    ensures AttemptsRight(Apply(e, op))
  {
    assert Apply(e, op).attempts.Keys == e.attempts.Keys;
  }

  lemma ClaimedAttempts(e: Entry, op: Op)
    requires EntryInv(e) && ClaimedFirst(e) && AttemptsRight(e) && op.OpClaim?
    ensures AttemptsRight(Apply(e, op))
  {
    hide Replay, Claims, Retries, Numbered, EndsRight;
    if IsBacklog(e.job.state) { ClaimIsFresh(e, op.owner, op.expiresAt, op.now); }
    if e.attempts != map[] && IsBacklog(e.job.state) {
      var no := LatestNo(e.attempts);
      assert e.job.state == RetryWait;
      assert e.attempts[no].finished && e.attempts[no].state == RetryWait && e.attempts[no].errorCode.Some?;
    }
  }

  // ---- when things happened ------------------------------------------------------------------

  /** The log is in the order things happened, none of them later than now; and a job waiting for its retry
      becomes available when its last event says. */
  ghost predicate Dated(e: Entry, clock: Time) {
    && (forall i :: 0 <= i < |e.log| ==> e.log[i].at <= clock)
    && (forall i, j :: 0 <= i < j < |e.log| ==> e.log[i].at <= e.log[j].at)
    && (e.job.state == RetryWait && e.log != [] ==>
          var last := e.log[|e.log| - 1];
          && last.body.EvRetry?
          && e.job.availableAt == Some(last.at + last.body.delay)
          && e.job.errorCode == Some(last.body.code) && e.job.errorDetail == last.body.detail)
  }

  lemma DatedKept(e: Entry, op: Op, clock: Time)
    requires EntryInv(e) && Dated(e, clock) && OpTime(op, clock) == clock
    ensures Dated(Apply(e, op), clock)
  {
    hide Replay, Claims, Retries, FreshAttempts, ErrorsRight, LatestNo;
    if EventOf(e.job, op).Some? {
      RowFollowsEvent(e, op);
      AppendFacts(e.log, EventOf(e.job, op).value, OpTime(op, 0.0));
      assert OpTime(op, 0.0) == clock;
      var log' := Apply(e, op).log;
      assert forall i :: 0 <= i < |e.log| ==> log'[i] == e.log[i];
    }
  }
}
