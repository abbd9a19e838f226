// What the rows, the attempts and the events of a job say of each other, in every reachable state.
module ProtocolRecords {
  import opened Basics
  import opened Jobs
  import opened JobEntry
  import opened Protocol
  import opened ProtocolSafety
  import opened ProtocolTheorems
  import AP = AdmissionPolicy
  import Retry

  ghost predicate Recorded(s: System) {
    forall id :: id in s.store ==> AttemptsRight(s.store[id]) && Dated(s.store[id], s.clock)
  }

  lemma DatedLater(e: Entry, clock: Time, later: Time)
    requires Dated(e, clock) && clock <= later
    ensures Dated(e, later)
  {
  }

  lemma OpIsNow(cfg: Config, s: System, step: Step, id: Id)
    requires Enabled(cfg, s, step)
    ensures var op := OpFor(EffectOf(cfg, s, step), id);
            op.Some? ==> OpTime(op.value, s.clock) == s.clock
  {
    hide Next, Enabled, EffectOf;
    StepEffect(cfg, s, step);
  }

  lemma RecordedEntry(h: Hypotheses, cfg: Config, s: System, step: Step, id: Id)
    requires Safe(h, cfg, s) && Recorded(s) && Enabled(cfg, s, step) && id in s.store
    ensures id in Next(cfg, s, step).store
    ensures AttemptsRight(Next(cfg, s, step).store[id]) && Dated(Next(cfg, s, step).store[id], s.clock)
  {
    hide Next, Enabled, Safe, LogsRight, ClaimsRight, Apply, EntryInv, ClaimedFirst, AttemptsRight, Dated, EffectOf, OpFor;
    SafeEntry(h, cfg, s, id);
    StepEntry(cfg, s, step, id);
    OpIsNow(cfg, s, step, id);
    var op := OpFor(EffectOf(cfg, s, step), id);
    if op.Some? {
      AttemptsKept(s.store[id], op.value);
      DatedKept(s.store[id], op.value, s.clock);
    }
  }

  lemma CreatedRecorded(j: Job, now: Time)
    requires j.state.Queued?
    ensures AttemptsRight(Created(j, now)) && Dated(Created(j, now), now)
  {
    FirstEvent(now);
  }

  lemma RecordedStep(h: Hypotheses, cfg: Config, s: System, step: Step)
    requires Safe(h, cfg, s) && Recorded(s) && Enabled(cfg, s, step)
    ensures Recorded(Next(cfg, s, step))
  {
    hide Next, Enabled, Safe, AttemptsRight, Dated, EffectOf, Created;
    StepEffect(cfg, s, step);
    var s' := Next(cfg, s, step);
    forall id | id in s'.store ensures AttemptsRight(s'.store[id]) && Dated(s'.store[id], s'.clock) {
      if id in s.store {
        RecordedEntry(h, cfg, s, step, id);
      } else {
        StepNew(cfg, s, step, id);
        CreatedRecorded(AP.NewJob(s.admissions[step.r].request, step.queuedAt), s.clock);
      }
      DatedLater(s'.store[id], s.clock, s'.clock);
    }
  }

  lemma {:induction false} RecordedRun(h: Hypotheses, cfg: Config, s: System, steps: seq<Step>)
    requires Safe(h, cfg, s) && Recorded(s) && Legal(h, cfg, s, steps)
    ensures Recorded(Run(h, cfg, s, steps))
    decreases |steps|
  {
    if steps != [] {
      hide Next, Enabled, Allowed, Safe, Recorded;
      SafeStep(h, cfg, s, steps[0]);
      RecordedStep(h, cfg, s, steps[0]);
      RecordedRun(h, cfg, Next(cfg, s, steps[0]), steps[1..]);
    }
  }

  /** Whoever acts and however late: the newest attempt of a job that was just claimed is unfinished; that of a
      succeeded, failed or waiting-to-retry job is finished and carries the job's own state and, of the last
      two, its error; every older attempt was given back for a retry. */
  lemma AttemptsOfEveryRun(h: Hypotheses, cfg: Config, clock: Time, steps: seq<Step>, id: Id, no: nat)
    requires Legal(h, cfg, Initial(clock), steps) && id in Reached(h, cfg, clock, steps).store
    requires IsGreatest(no, Reached(h, cfg, clock, steps).store[id].attempts.Keys)
    ensures var e := Reached(h, cfg, clock, steps).store[id];
            var a := e.attempts[no];
            && (e.job.state == Dispatched ==> !a.finished && a.state == Dispatched && a.errorCode == None && a.result == None)
            && (e.job.state in {Succeeded, Failed, RetryWait} ==> a.finished && a.state == e.job.state)
            && (e.job.state in {Failed, RetryWait} ==> a.errorCode == e.job.errorCode && a.errorCode.Some?)
            && (e.job.state == Succeeded ==> a.result.Some?)
            && (forall n :: n in e.attempts && n != no ==>
                  e.attempts[n].finished && e.attempts[n].state == RetryWait && e.attempts[n].errorCode.Some?)
  {
    InitialSafe(h, cfg, clock);
    RecordedRun(h, cfg, Initial(clock), steps);
    ReachedSafe(h, cfg, clock, steps);
    SafeEntry(h, cfg, Reached(h, cfg, clock, steps), id);
  }

  /** A succeeded, failed or waiting-to-retry job has such an attempt. */
  lemma OutcomeHasAttempt(h: Hypotheses, cfg: Config, clock: Time, steps: seq<Step>, id: Id)
    requires Legal(h, cfg, Initial(clock), steps) && id in Reached(h, cfg, clock, steps).store
    requires Reached(h, cfg, clock, steps).store[id].job.state in {Succeeded, Failed, RetryWait, Dispatched, Running}
    ensures exists no :: IsGreatest(no, Reached(h, cfg, clock, steps).store[id].attempts.Keys)
  {
    ReachedSafe(h, cfg, clock, steps);
    SafeEntry(h, cfg, Reached(h, cfg, clock, steps), id);
    var e := Reached(h, cfg, clock, steps).store[id];
    assert e.attempts != map[];
    assert IsGreatest(LatestNo(e.attempts), e.attempts.Keys);
  }

  /** The log of every job is in the order things happened, nothing in it is from the future, and a job
      waiting for its retry is available again exactly when, and for the reason, its last event says. */
  lemma EventsOfEveryRun(h: Hypotheses, cfg: Config, clock: Time, steps: seq<Step>, id: Id)
    requires Legal(h, cfg, Initial(clock), steps) && id in Reached(h, cfg, clock, steps).store
    ensures var s := Reached(h, cfg, clock, steps);
            var e := s.store[id];
            && (forall i :: 0 <= i < |e.log| ==> e.log[i].at <= s.clock)
            && (forall i, j :: 0 <= i < j < |e.log| ==> e.log[i].at <= e.log[j].at)
            && (e.job.state == RetryWait ==>
                  |e.log| > 0 &&
                  var last := e.log[|e.log| - 1];
                  && last.body.EvRetry?
                  && e.job.errorCode == Some(last.body.code) && e.job.errorDetail == last.body.detail
                  && e.job.availableAt == Some(last.at + last.body.delay))
  {
    InitialSafe(h, cfg, clock);
    RecordedRun(h, cfg, Initial(clock), steps);
    ReachedSafe(h, cfg, clock, steps);
    SafeEntry(h, cfg, Reached(h, cfg, clock, steps), id);
  }

  /** The row an INSERT adds: the request's own columns, at the start of its life, with the created event and
      no attempt; and every other row as it was. */
  lemma InsertedJob(cfg: Config, s: System, insert: Step)
    requires insert.AdmitInsert? && Enabled(cfg, s, insert) && !Refuses(s.store, s.admissions[insert.r].request)
    ensures var q := s.admissions[insert.r].request;
            Next(cfg, s, insert).store ==
            s.store[insert.id := Entry(
              Job(q.user, q.conversation, q.kind, Queued, 0, 0.0, q.payload, q.key, insert.queuedAt,
                  Some(insert.queuedAt), 0, 3, None, None),
              map[], [Event(1, s.clock, EvCreated)])]
  {
    FirstEvent(s.clock);
    StepEffect(cfg, s, insert);
  }

  /** What a cancel leaves of a job: a live one is cancelled, with one event and its attempts as they are; and
      whatever it was, nothing else happens. */
  lemma CancelLeaves(h: Hypotheses, cfg: Config, s: System, id: Id)
    requires Safe(h, cfg, s) && id in s.store
    ensures var e, s' := s.store[id], Next(cfg, s, CancelJob(id));
            && s' == s.(store := s'.store) && s'.store.Keys == s.store.Keys
            && (forall x :: x in s.store && x != id ==> s'.store[x] == s.store[x])
            && s'.store[id] ==
               if e.job.state in {Cancelled, Succeeded, Failed} then e
               else Entry(e.job.(state := Cancelled), e.attempts, e.log + [Event(|e.log| + 1, s.clock, EvCancelled)])
  {
    SafeEntry(h, cfg, s, id);
    CancelledEntry(s.store[id], s.clock);
    CancelStep(cfg, s, id);
    hide *;
  }

  lemma CancelStep(cfg: Config, s: System, id: Id)
    requires id in s.store
    ensures Next(cfg, s, CancelJob(id)) == s.(store := s.store[id := Apply(s.store[id], OpCancel(s.clock))])
  {
    hide Apply;
  }

  lemma CancelledEntry(e: Entry, now: Time)
    requires EntryInv(e)
    ensures Apply(e, OpCancel(now)) ==
            if e.job.state in {Cancelled, Succeeded, Failed} then e
            else Entry(e.job.(state := Cancelled), e.attempts, e.log + [Event(|e.log| + 1, now, EvCancelled)])
  {
    MaxOfNumbered(SequenceNos(e.log));
    hide Replay, Claims, Retries, FreshAttempts, EndsRight;
  }

  /** What a submit that raises leaves of a live job: one more attempt gone, waiting at least the shortest and
      at most one and a half times the shortest backoff of it, with the exception named. */
  lemma RaiseLeaves(cfg: Config, s: System, step: Step)
    requires step.DispatchRaised? && Enabled(cfg, s, step) && step.id in s.store
    requires !IsTerminal(s.store[step.id].job.state)
    ensures var j, j' := s.store[step.id].job, Next(cfg, s, step).store[step.id].job;
            && j'.state == RetryWait && j'.attempt == j.attempt + 1
            && j'.errorCode == Some("worker_unreachable") && j'.errorDetail == Some(step.detail)
            && j'.availableAt.Some?
            && Retry.ShortestDelay(j'.attempt) <= j'.availableAt.value - s.clock <= 1.5 * Retry.ShortestDelay(j'.attempt)
  {
    Retry.BackoffBand(s.store[step.id].job.attempt + 1, step.jitter);
  }
}
