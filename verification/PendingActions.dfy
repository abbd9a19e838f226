// A paid action waiting for its owner's confirmation: any number of confirm and cancel requests,
// interleaved transaction by transaction, over one pending_actions row.
module PendingActions {
  import opened Basics
  import opened Jobs

  datatype Status = Pending | Confirmed | CancelledAction | Expired

  datatype Action = Action(
    owner: Id, status: Status, expiresAt: Time, fingerprint: string, jobId: Option<Id>)

  datatype Outcome =
    | Eligible | NotFound | WrongOwner | AlreadyConfirmed | WasCancelled | WasExpired | ParamsChanged

  // ---- the pure rules -----------------------------------------------------------------

  function EvaluateConfirmation(a: Option<Action>, user: Id, now: Time, expected: Option<string>): Outcome {
    if a.None? then NotFound
    else if a.value.owner != user then WrongOwner
    else if a.value.status.CancelledAction? then WasCancelled
    else if a.value.status.Confirmed? then AlreadyConfirmed
    else if a.value.status.Expired? || a.value.expiresAt <= now then WasExpired
    else if expected.Some? && expected.value != a.value.fingerprint then ParamsChanged
    else Eligible
  }

  function EvaluateCancellation(a: Option<Action>, user: Id): Outcome {
    if a.None? then NotFound
    else if a.value.owner != user then WrongOwner
    else if a.value.status.Confirmed? then AlreadyConfirmed
    else Eligible
  }

  /** The look before the UPDATE and the UPDATE's own guard agree: an eligible request wins unless
      another one got in between. */
  lemma EligibleMeansGuardHolds(a: Action, user: Id, now: Time)
    ensures EvaluateConfirmation(Some(a), user, now, None).Eligible? <==>
            a.owner == user && CanConfirm(a, now)
  {
  }

  /** A caller that states the parameters it agreed to is refused for them exactly when it would be eligible
      without and they are not the ones that were priced. */
  lemma ChangedParameters(a: Option<Action>, user: Id, now: Time, expected: string)
    ensures EvaluateConfirmation(a, user, now, Some(expected)).ParamsChanged? <==>
            EvaluateConfirmation(a, user, now, None).Eligible? && expected != a.value.fingerprint
    ensures !EvaluateConfirmation(a, user, now, Some(expected)).ParamsChanged? ==>
            EvaluateConfirmation(a, user, now, Some(expected)) == EvaluateConfirmation(a, user, now, None)
  {
  }

  // ---- the transactions on the row ------------------------------------------------------

  /** WHERE status = 'pending' AND expires_at > :now. */
  predicate CanConfirm(a: Action, now: Time) { a.status.Pending? && a.expiresAt > now }

  function AfterConfirm(a: Action, now: Time): Action {
    if CanConfirm(a, now) then a.(status := Confirmed) else a
  }

  function AfterCancel(a: Action): Action {
    if a.status.Pending? then a.(status := CancelledAction) else a
  }

  // ---- requests in flight ----------------------------------------------------------------

  datatype Reply =
    | Executed(job: Id)
    | Replayed(job: Id)
    | Rejected(why: Outcome)
    | AlreadyProcessing
    | AdmissionFailed
    | Vanished               // the process died

  /** Where a confirm request stands. */
  datatype Confirm =
    | Ready(now: Time)       // found the row confirmable at its own start time
    | Won                    // its UPDATE matched
    | Lost                   // its UPDATE matched nothing
    | Holding(job: Id)       // admission answered, the id not yet recorded
    | Done(reply: Reply)

  datatype Cancel =
    | AboutToCancel
    | Finished(why: Outcome, shown: Option<Status>)

  /** winner, canceller, admissions and askers are history: which request confirmed, judged at which instant,
      which one cancelled, every job admission was asked for, and which user sent each request. */
  datatype World = World(
    clock: Time, action: Action, confirms: map<Id, Confirm>, cancels: map<Id, Cancel>,
    winner: Option<(Id, Time)>, canceller: Option<Id>, admissions: seq<(Id, Id)>,
    confirmAskers: map<Id, Id>, cancelAskers: map<Id, Id>)

  datatype Step =
    | ReadForConfirm(r: Id, user: Id, now: Time)
    | TryConfirm(r: Id)
    | ReadAgain(r: Id)
    | Admit(r: Id, result: Option<Id>)   // admission of this action's job, by any outcome
    | Record(r: Id)
    | ReadForCancel(r: Id, user: Id)
    | TryCancel(r: Id)
    | Crash(r: Id)
    | Wait(seconds: real)

  predicate At(w: World, r: Id, c: Confirm) { r in w.confirms && w.confirms[r] == c }

  predicate Enabled(w: World, step: Step) {
    match step
    case ReadForConfirm(r, user, now) => r !in w.confirms && now <= w.clock
    case TryConfirm(r) => r in w.confirms && w.confirms[r].Ready?
    case ReadAgain(r) => At(w, r, Lost)
    case Admit(r, result) => At(w, r, Won)
    case Record(r) => r in w.confirms && w.confirms[r].Holding?
    case ReadForCancel(r, user) => r !in w.cancels
    case TryCancel(r) => r in w.cancels && w.cancels[r].AboutToCancel?
    case Crash(r) => r in w.confirms && !w.confirms[r].Done?
    case Wait(seconds) => seconds >= 0.0
  }

  function Answer(a: Action, user: Id, now: Time): Confirm {
    var outcome := EvaluateConfirmation(Some(a), user, now, None);
    if outcome.AlreadyConfirmed? && a.jobId.Some? then Done(Replayed(a.jobId.value))
    else if outcome != Eligible then Done(Rejected(outcome))
    else Ready(now)
  }

  function AnswerLost(a: Action): Confirm {
    if a.status.Confirmed? && a.jobId.Some? then Done(Replayed(a.jobId.value)) else Done(AlreadyProcessing)
  }

  function AnswerCancel(a: Action, user: Id): Cancel {
    var outcome := EvaluateCancellation(Some(a), user);
    if outcome.Eligible? && a.status.Pending? then AboutToCancel
    else Finished(outcome, if outcome.Eligible? then Some(a.status) else None)
  }

  function Next(w: World, step: Step): World
    requires Enabled(w, step)
  {
    match step
    case ReadForConfirm(r, user, now) =>
      w.(confirms := w.confirms[r := Answer(w.action, user, now)], confirmAskers := w.confirmAskers[r := user])
    case TryConfirm(r) =>
      var now := w.confirms[r].now;
      if CanConfirm(w.action, now)
      then w.(action := AfterConfirm(w.action, now), confirms := w.confirms[r := Won], winner := Some((r, now)))
      else w.(confirms := w.confirms[r := Lost])
    case ReadAgain(r) => w.(confirms := w.confirms[r := AnswerLost(w.action)])
    case Admit(r, result) =>
      if result.Some?
      then w.(confirms := w.confirms[r := Holding(result.value)], admissions := w.admissions + [(r, result.value)])
      else w.(confirms := w.confirms[r := Done(AdmissionFailed)])
    case Record(r) =>
      var job := w.confirms[r].job;
      w.(action := w.action.(jobId := Some(job)), confirms := w.confirms[r := Done(Executed(job))])
    case ReadForCancel(r, user) =>
      w.(cancels := w.cancels[r := AnswerCancel(w.action, user)], cancelAskers := w.cancelAskers[r := user])
    case TryCancel(r) =>
      var after := AfterCancel(w.action);
      w.(action := after, cancels := w.cancels[r := Finished(Eligible, Some(after.status))],
         canceller := if w.action.status.Pending? then Some(r) else w.canceller)
    case Crash(r) => w.(confirms := w.confirms[r := Done(Vanished)])
    case Wait(seconds) => w.(clock := w.clock + seconds)
  }

  predicate Legal(w: World, steps: seq<Step>)
    decreases |steps|
  {
    steps == [] || (Enabled(w, steps[0]) && Legal(Next(w, steps[0]), steps[1..]))
  }

  function Run(w: World, steps: seq<Step>): World
    requires Legal(w, steps)
    decreases |steps|
  {
    if steps == [] then w else Run(Next(w, steps[0]), steps[1..])
  }

  /** An action nobody has touched. */
  predicate Fresh(w: World) {
    && w.action.status.Pending? && w.action.jobId.None?
    && w.confirms == map[] && w.cancels == map[] && w.winner.None? && w.canceller.None? && w.admissions == []
  }

  // ---- the invariant ------------------------------------------------------------------------

  /** The request still carries the action's execution. */
  predicate InCharge(w: World, r: Id) {
    r in w.confirms && (w.confirms[r].Won? || w.confirms[r].Holding?)
  }

  ghost predicate AnswersRight(w: World, r: Id)
    requires r in w.confirms
  {
    match w.confirms[r]
    case Ready(now) => now < w.action.expiresAt
    case Won => w.winner.Some? && w.winner.value.0 == r && w.admissions == [] && w.action.jobId.None?
    case Holding(job) =>
      w.winner.Some? && w.winner.value.0 == r && w.admissions == [(r, job)] && w.action.jobId.None?
    case Done(Executed(job)) => w.action.jobId == Some(job)
    case Done(Replayed(job)) => w.action.jobId == Some(job)
    case _ => true
  }

  ghost predicate Inv(w: World) {
    && (w.action.status.Confirmed? <==> w.winner.Some?)
    && (w.winner.Some? ==> w.winner.value.1 < w.action.expiresAt && w.winner.value.0 in w.confirms
                           && !w.confirms[w.winner.value.0].Ready?)
    && |w.admissions| <= 1
    && (w.admissions != [] ==> w.winner.Some? && w.admissions[0].0 == w.winner.value.0)
    && (w.action.jobId.Some? ==> w.admissions != [] && w.admissions[0].1 == w.action.jobId.value)
    && (forall r :: r in w.confirms ==> AnswersRight(w, r))
  }

  lemma FreshInv(w: World)
    requires Fresh(w)
    ensures Inv(w)
  {
  }

  lemma InvStep(w: World, step: Step)
    requires Inv(w) && Enabled(w, step)
    ensures Inv(Next(w, step))
  {
    if step.Record? || step.Admit? || step.TryConfirm? { assert AnswersRight(w, step.r); }
    forall r | r in Next(w, step).confirms ensures AnswersRight(Next(w, step), r) { AnswerStep(w, step, r); }
  }

  lemma AnswerStep(w: World, step: Step, r: Id)
    requires Inv(w) && Enabled(w, step) && r in Next(w, step).confirms
    ensures AnswersRight(Next(w, step), r)
  {
    if step.ReadForConfirm? {
      if step.r != r { assert AnswersRight(w, r); }
    } else {
      hide Answer, AnswerCancel, EvaluateConfirmation, EvaluateCancellation, AfterCancel;
      assert AnswersRight(w, r);
      if step.Record? || step.Admit? || step.TryConfirm? { assert AnswersRight(w, step.r); }
      CancelKeepsJob(w.action);
    }
  }

  lemma CancelKeepsJob(a: Action)
    ensures AfterCancel(a).jobId == a.jobId && AfterCancel(a).expiresAt == a.expiresAt
  {
  }

  lemma {:induction false} InvRun(w: World, steps: seq<Step>)
    requires Inv(w) && Legal(w, steps)
    ensures Inv(Run(w, steps))
    decreases |steps|
  {
    if steps != [] {
      InvStep(w, steps[0]);
      InvRun(Next(w, steps[0]), steps[1..]);
    }
  }

  // ---- whose requests ------------------------------------------------------------------------------

  /** A request that is past its look at the row was sent by the action's owner. */
  ghost predicate OwnersOnly(w: World) {
    && (forall r :: r in w.confirms ==>
          r in w.confirmAskers &&
          (!w.confirms[r].Done? || w.confirms[r].reply.Executed? || w.confirms[r].reply.Replayed? ==>
             w.confirmAskers[r] == w.action.owner))
    && (forall r :: r in w.cancels ==>
          r in w.cancelAskers &&
          (w.cancels[r].AboutToCancel? || w.cancels[r].shown.Some? ==> w.cancelAskers[r] == w.action.owner))
    && (w.winner.Some? ==>
          w.winner.value.0 in w.confirms && w.winner.value.0 in w.confirmAskers &&
          w.confirmAskers[w.winner.value.0] == w.action.owner)
    && (w.action.status.CancelledAction? <==> w.canceller.Some?)
    && (w.canceller.Some? ==>
          w.canceller.value in w.cancels && w.canceller.value in w.cancelAskers && w.cancelAskers[w.canceller.value] == w.action.owner)
  }

  lemma OwnersStep(w: World, step: Step)
    requires OwnersOnly(w) && Enabled(w, step)
    ensures OwnersOnly(Next(w, step)) && Next(w, step).action.owner == w.action.owner
  {
    if step.ReadForConfirm? || step.ReadForCancel? {
      OwnersReading(w, step);
    } else {
      hide Answer, AnswerCancel, EvaluateConfirmation, EvaluateCancellation;
    }
  }

  lemma OwnersReading(w: World, step: Step)
    requires OwnersOnly(w) && Enabled(w, step) && (step.ReadForConfirm? || step.ReadForCancel?)
    ensures OwnersOnly(Next(w, step)) && Next(w, step).action.owner == w.action.owner
  {
  }

  lemma {:induction false} OwnersRun(w: World, steps: seq<Step>)
    requires OwnersOnly(w) && Legal(w, steps)
    ensures OwnersOnly(Run(w, steps)) && Run(w, steps).action.owner == w.action.owner
    decreases |steps|
  {
    if steps != [] {
      hide Next, Enabled, OwnersOnly;
      OwnersStep(w, steps[0]);
      OwnersRun(Next(w, steps[0]), steps[1..]);
    }
  }

  /** However requests of whatever users interleave, an action is cancelled exactly when a cancel request of its
      owner cancelled it, and confirmed only by a confirm request of its owner; and nobody else is shown its
      status or its job. */
  lemma OnlyTheOwnerActs(w: World, steps: seq<Step>)
    requires Fresh(w) && Legal(w, steps)
    ensures var end := Run(w, steps);
            && end.action.owner == w.action.owner
            && (end.action.status.CancelledAction? <==> end.canceller.Some?)
            && (end.canceller.Some? ==>
                  end.canceller.value in end.cancelAskers && end.cancelAskers[end.canceller.value] == w.action.owner)
            && (end.action.status.Confirmed? ==>
                  && end.winner.Some? && end.winner.value.0 in end.confirmAskers
                  && end.confirmAskers[end.winner.value.0] == w.action.owner)
            && (forall r :: r in end.cancels && end.cancels[r].Finished? && end.cancels[r].shown.Some? ==>
                  r in end.cancelAskers && end.cancelAskers[r] == w.action.owner)
            && (forall r, job :: At(end, r, Done(Executed(job))) || At(end, r, Done(Replayed(job))) ==>
                  r in end.confirmAskers && end.confirmAskers[r] == w.action.owner)
  {
    OwnersRun(w, steps);
    FreshInv(w);
    InvRun(w, steps);
  }

  // ---- the promises, over every interleaving ----------------------------------------------------

  /** At most one job is ever admitted for an action, and only by a request whose UPDATE matched while
      the row was pending and, at that request's own start, unexpired. */
  lemma AtMostOneJob(w: World, steps: seq<Step>)
    requires Fresh(w) && Legal(w, steps)
    ensures var end := Run(w, steps);
            && |end.admissions| <= 1
            && (end.admissions != [] ==>
                  && end.action.status.Confirmed? && end.winner.Some?
                  && end.admissions[0].0 == end.winner.value.0
                  && end.winner.value.1 < end.action.expiresAt)
  {
    FreshInv(w);
    InvRun(w, steps);
  }

  /** A cancelled action has no job. */
  lemma CancelledHasNoJob(w: World, steps: seq<Step>)
    requires Fresh(w) && Legal(w, steps) && Run(w, steps).action.status.CancelledAction?
    ensures Run(w, steps).admissions == [] && Run(w, steps).action.jobId.None?
  {
    FreshInv(w);
    InvRun(w, steps);
  }

  /** Every request that is answered with a job is answered with the one that was admitted. */
  lemma AnswersAgree(w: World, steps: seq<Step>, r: Id, job: Id)
    requires Fresh(w) && Legal(w, steps)
    requires At(Run(w, steps), r, Done(Executed(job))) || At(Run(w, steps), r, Done(Replayed(job)))
    ensures var end := Run(w, steps);
            |end.admissions| == 1 && end.admissions[0].1 == job && end.action.jobId == Some(job)
  {
    FreshInv(w);
    InvRun(w, steps);
    assert AnswersRight(Run(w, steps), r);
  }

  /** The row's final say: once it is cancelled, or confirmed with a job recorded, no interleaving
      changes it. */
  lemma {:induction false} SettledForever(w: World, steps: seq<Step>)
    requires Inv(w) && Legal(w, steps)
    requires w.action.status.CancelledAction? || w.action.jobId.Some?
    ensures Run(w, steps).action == w.action && Run(w, steps).admissions == w.admissions
    decreases |steps|
  {
    if steps != [] {
      InvStep(w, steps[0]);
      if steps[0].Record? || steps[0].Admit? { assert AnswersRight(w, steps[0].r); }
      SettledForever(Next(w, steps[0]), steps[1..]);
    }
  }

  /** Once the id is recorded, the owner's every later confirm gets it, expired or not. */
  lemma RecordedIsReplayed(w: World, steps: seq<Step>, r: Id, now: Time)
    requires Inv(w) && Legal(w, steps) && w.action.jobId.Some?
    requires Enabled(Run(w, steps), ReadForConfirm(r, w.action.owner, now))
    ensures Next(Run(w, steps), ReadForConfirm(r, w.action.owner, now)).confirms[r] ==
            Done(Replayed(w.action.jobId.value))
  {
    SettledForever(w, steps);
  }

  /** A request whose UPDATE found the action settled by another is answered with the job exactly when its id is
      recorded by then, and otherwise told that it is being processed. */
  lemma LoserIsReplayedIff(w: World, r: Id)
    requires Inv(w) && At(w, r, Lost)
    ensures var answered := Next(w, ReadAgain(r)).confirms[r];
            answered == Done(if w.action.jobId.Some? then Replayed(w.action.jobId.value) else AlreadyProcessing)
    ensures Next(w, ReadAgain(r)).action == w.action
  {
  }

  // ---- where the code's comments promise more than it does ---------------------------------------

  /** Confirmed, no job recorded, and nobody left to record one. */
  ghost predicate Stuck(w: World) {
    w.action.status.Confirmed? && w.action.jobId.None? && forall r :: !InCharge(w, r)
  }

  lemma StuckStep(w: World, step: Step)
    requires Inv(w) && Stuck(w) && Enabled(w, step)
    ensures Stuck(Next(w, step)) && Next(w, step).admissions == w.admissions
    ensures forall r, job :: At(Next(w, step), r, Done(Executed(job))) || At(Next(w, step), r, Done(Replayed(job))) ==>
              r in w.confirms && Next(w, step).confirms[r] == w.confirms[r]
  {
    if step.Record? || step.Admit? { assert InCharge(w, step.r); }
    var w' := Next(w, step);
    forall r ensures !InCharge(w', r) { assert !InCharge(w, r); }
  }

  /** The idempotency key was meant to let a retry recover from a crash between confirming and
      enqueueing. It cannot: a stuck action stays stuck through every run, admits nothing, and answers
      no confirm with a job. */
  lemma {:induction false} StuckForever(w: World, steps: seq<Step>)
    requires Inv(w) && Stuck(w) && Legal(w, steps)
    ensures Stuck(Run(w, steps)) && Run(w, steps).admissions == w.admissions
    ensures forall r, job :: At(Run(w, steps), r, Done(Executed(job))) || At(Run(w, steps), r, Done(Replayed(job))) ==>
              r in w.confirms && w.confirms[r] == Run(w, steps).confirms[r]
    decreases |steps|
  {
    if steps != [] {
      hide Next, Enabled, Inv, Stuck;
      StuckStep(w, steps[0]);
      InvStep(w, steps[0]);
      StuckForever(Next(w, steps[0]), steps[1..]);
    }
  }

  /** A request that is not there yet will be answered with a job. */
  ghost predicate CanStillAnswer(w: World, r: Id) {
    exists steps, job :: Legal(w, steps) && At(Run(w, steps), r, Done(Replayed(job)))
  }

  /** Of a confirmed action, a later confirm can get the job exactly when the job is recorded or the
      winner is still at work. */
  lemma ReplayPossibleIff(w: World, r: Id)
    requires Inv(w) && w.action.status.Confirmed? && r !in w.confirms
    ensures CanStillAnswer(w, r) <==> !Stuck(w)
  {
    if Stuck(w) {
      forall steps, job | Legal(w, steps) ensures !At(Run(w, steps), r, Done(Replayed(job))) {
        StuckForever(w, steps);
      }
    } else if w.action.jobId.Some? {
      ReplaysAfter(w, [], r);
    } else {
      var winner :| InCharge(w, winner);
      assert AnswersRight(w, winner);
      if w.confirms[winner].Holding? {
        OneStep(w, Record(winner));
        ReplaysAfter(w, [Record(winner)], r);
      } else {
        var admit, record := Admit(winner, Some(0)), Record(winner);
        OneStep(w, admit);
        RunSnoc(w, [admit], record);
        ReplaysAfter(w, [admit] + [record], r);
      }
    }
  }

  lemma ReplaysAfter(w: World, steps: seq<Step>, r: Id)
    requires Legal(w, steps) && r !in Run(w, steps).confirms
    requires Run(w, steps).action.status.Confirmed? && Run(w, steps).action.jobId.Some?
    ensures CanStillAnswer(w, r)
  {
    var end := Run(w, steps);
    var last := ReadForConfirm(r, end.action.owner, end.clock);
    RunSnoc(w, steps, last);
    assert At(Run(w, steps + [last]), r, Done(Replayed(end.action.jobId.value)));
  }

  lemma {:induction false} RunSnoc(w: World, steps: seq<Step>, last: Step)
    requires Legal(w, steps) && Enabled(Run(w, steps), last)
    ensures Legal(w, steps + [last]) && Run(w, steps + [last]) == Next(Run(w, steps), last)
    decreases |steps|
  {
    hide Next, Enabled;
    if steps == [] {
      assert steps + [last] == [last] && [last][1..] == [];
      assert Legal(Next(w, last), []);
    } else {
      assert (steps + [last])[1..] == steps[1..] + [last];
      RunSnoc(Next(w, steps[0]), steps[1..], last);
    }
  }

  lemma NoSteps(w: World)
    ensures Legal(w, []) && Run(w, []) == w
  {
  }

  lemma OneStep(w: World, s1: Step)
    requires Enabled(w, s1)
    ensures Legal(w, [s1]) && Run(w, [s1]) == Next(w, s1)
  {
    NoSteps(w);
    RunSnoc(w, [], s1);
    assert [] + [s1] == [s1];
  }

  lemma ThreeSteps(w: World, s1: Step, s2: Step, s3: Step)
    requires Enabled(w, s1) && Enabled(Next(w, s1), s2) && Enabled(Next(Next(w, s1), s2), s3)
    ensures Legal(w, [s1, s2, s3]) && Run(w, [s1, s2, s3]) == Next(Next(Next(w, s1), s2), s3)
  {
    hide Next, Enabled, Legal, Run;
    OneStep(w, s1);
    RunSnoc(w, [s1], s2);
    assert [s1] + [s2] == [s1, s2];
    RunSnoc(w, [s1, s2], s3);
    assert [s1, s2] + [s3] == [s1, s2, s3];
  }

  /** A crash, or an admission refused for capacity, right after the UPDATE leaves any fresh action stuck;
      and the owner's retry is refused as already confirmed. */
  lemma CrashLeavesStuck(w: World, r: Id, retry: Id, crash: bool)
    requires Fresh(w) && w.clock < w.action.expiresAt && r != retry
    ensures var last := if crash then Crash(r) else Admit(r, None);
            var steps := [ReadForConfirm(r, w.action.owner, w.clock), TryConfirm(r), last];
            && Legal(w, steps) && Stuck(Run(w, steps))
            && Enabled(Run(w, steps), ReadForConfirm(retry, w.action.owner, w.clock))
            && Next(Run(w, steps), ReadForConfirm(retry, w.action.owner, w.clock)).confirms[retry] ==
                 Done(Rejected(AlreadyConfirmed))
  {
    var s1, s2 := ReadForConfirm(r, w.action.owner, w.clock), TryConfirm(r);
    var s3 := if crash then Crash(r) else Admit(r, None);
    ThreeSteps(w, s1, s2, s3);
  }

  /** The UPDATE compares expires_at with the instant the request began: a slow request confirms an
      action that has meanwhile expired, however long ago. */
  lemma SlowConfirmBeatsExpiry(w: World, r: Id, seconds: real)
    requires Fresh(w) && w.clock < w.action.expiresAt && seconds >= 0.0
    ensures var steps := [ReadForConfirm(r, w.action.owner, w.clock), Wait(seconds), TryConfirm(r)];
            && Legal(w, steps)
            && Run(w, steps).action.status.Confirmed? && At(Run(w, steps), r, Won)
            && Run(w, steps).clock == w.clock + seconds
  {
    var s1, s2, s3 := ReadForConfirm(r, w.action.owner, w.clock), Wait(seconds), TryConfirm(r);
    ThreeSteps(w, s1, s2, s3);
  }

  /** A request that read the action in time wins exactly when nobody has settled it, whatever the time is by
      then; so it wins as a guard judged at the UPDATE would let it exactly when the action is settled or
      still unexpired at that moment. */
  lemma UpdateWinsIff(w: World, r: Id)
    requires Inv(w) && Enabled(w, TryConfirm(r))
    ensures At(Next(w, TryConfirm(r)), r, Won) <==> w.action.status.Pending?
    ensures (At(Next(w, TryConfirm(r)), r, Won) <==> CanConfirm(w.action, w.clock)) <==>
            !w.action.status.Pending? || w.clock < w.action.expiresAt
  {
    assert AnswersRight(w, r);
  }

  /** A cancel that found the row pending and is overtaken by a confirm does not report a conflict: it
      answers with the confirmed row. */
  lemma OvertakenCancelShowsConfirmed(w: World, r: Id)
    requires Enabled(w, TryCancel(r))
    ensures var w' := Next(w, TryCancel(r));
            w'.cancels[r].shown == Some(CancelledAction) <==> w.action.status.Pending? || w.action.status.CancelledAction?
    ensures w.action.status.Confirmed? ==>
              Next(w, TryCancel(r)).cancels[r] == Finished(Eligible, Some(Confirmed)) && Next(w, TryCancel(r)).action == w.action
  {
  }

  /** And from any fresh, unexpired action there is such a run. */
  lemma CancelIsOvertaken(w: World, r: Id, cancel: Id)
    requires Fresh(w) && w.clock < w.action.expiresAt
    ensures var owner := w.action.owner;
            var steps := [ReadForCancel(cancel, owner), ReadForConfirm(r, owner, w.clock), TryConfirm(r), TryCancel(cancel)];
            && Legal(w, steps)
            && cancel in Run(w, steps).cancels && Run(w, steps).cancels[cancel] == Finished(Eligible, Some(Confirmed))
            && Run(w, steps).action == w.action.(status := Confirmed)
  {
    var owner := w.action.owner;
    var s1, s2, s3, s4 := ReadForCancel(cancel, owner), ReadForConfirm(r, owner, w.clock), TryConfirm(r), TryCancel(cancel);
    ThreeSteps(w, s1, s2, s3);
    RunSnoc(w, [s1, s2, s3], s4);
    assert [s1, s2, s3] + [s4] == [s1, s2, s3, s4];
  }

  // ---- the endpoints ---------------------------------------------------------------------------

  /** The row as the two endpoints update it, one statement at a time. */
  class PendingActionRow {
    var row: Action

    constructor (row: Action)
      ensures this.row == row
    {
      this.row := row;
    }

    /** UPDATE ... SET status = 'confirmed'; the number of rows it matched. */
    method UpdateToConfirmed(now: Time) returns (matched: nat)
      modifies this
      ensures matched == (if CanConfirm(old(row), now) then 1 else 0)
      ensures row == AfterConfirm(old(row), now)
    {
      matched := 0;
      if row.status.Pending? && row.expiresAt > now {
        row := row.(status := Confirmed);
        matched := 1;
      }
    }

    /** confirm_pending_action with nobody else about; admission is what admit_generation_job answers. */
    method ConfirmPendingAction(user: Id, now: Time, admission: Option<Id>) returns (reply: Reply)
      modifies this
      ensures row == ConfirmedAlone(old(row), user, now, admission).0
      ensures reply == ConfirmedAlone(old(row), user, now, admission).1
      ensures user != old(row).owner ==> row == old(row) && reply == Rejected(WrongOwner)
      ensures user == old(row).owner && old(row).status.Pending? && now < old(row).expiresAt ==>
                && row == old(row).(status := Confirmed, jobId := if admission.Some? then admission else old(row).jobId)
                && reply == (if admission.Some? then Executed(admission.value) else AdmissionFailed)
      ensures user == old(row).owner && !(old(row).status.Pending? && now < old(row).expiresAt) ==>
                && row == old(row)
                && reply == (match old(row).status
                             case Confirmed => (if old(row).jobId.Some? then Replayed(old(row).jobId.value)
                                                else Rejected(AlreadyConfirmed))
                             case CancelledAction => Rejected(WasCancelled)
                             case _ => Rejected(WasExpired))
    {
      var outcome := EvaluateConfirmation(Some(row), user, now, None);
      if outcome.AlreadyConfirmed? && row.jobId.Some? { return Replayed(row.jobId.value); }
      if outcome != Eligible { return Rejected(outcome); }
      var matched := UpdateToConfirmed(now);
      if admission.None? { return AdmissionFailed; }
      row := row.(jobId := admission);
      reply := Executed(admission.value);
    }

    /** cancel_pending_action with nobody else about. */
    method CancelPendingAction(user: Id) returns (why: Outcome, shown: Option<Status>)
      modifies this
      ensures var c := AnswerCancel(old(row), user);
              if c.AboutToCancel?
              then row == AfterCancel(old(row)) && why == Eligible && shown == Some(CancelledAction)
              else row == old(row) && c == Finished(why, shown)
      ensures user != old(row).owner ==> row == old(row) && why == WrongOwner && shown == None
      ensures user == old(row).owner && old(row).status.Pending? ==>
                row == old(row).(status := CancelledAction) && why == Eligible && shown == Some(CancelledAction)
      ensures user == old(row).owner && !old(row).status.Pending? ==>
                && row == old(row)
                && (if old(row).status.Confirmed? then why == AlreadyConfirmed && shown == None
                    else why == Eligible && shown == Some(old(row).status))
    {
      why := EvaluateCancellation(Some(row), user);
      if why.Eligible? && row.status.Pending? {
        row := row.(status := CancelledAction);
      }
      shown := if why.Eligible? then Some(row.status) else None;
    }
  }

  /** What a confirm does when nothing interferes. */
  function ConfirmedAlone(a: Action, user: Id, now: Time, admission: Option<Id>): (Action, Reply) {
    match Answer(a, user, now)
    case Done(reply) => (a, reply)
    case _ =>
      if admission.None? then (AfterConfirm(a, now), AdmissionFailed)
      else (AfterConfirm(a, now).(jobId := admission), Executed(admission.value))
  }

  function ConfirmScript(a: Action, r: Id, user: Id, now: Time, admission: Option<Id>): seq<Step> {
    if !Answer(a, user, now).Ready? then [ReadForConfirm(r, user, now)]
    else [ReadForConfirm(r, user, now), TryConfirm(r), Admit(r, admission)] + (if admission.Some? then [Record(r)] else [])
  }

  /** The endpoint refines the transition system: undisturbed, it is the run read, try, admit, record. */
  lemma ConfirmIsARun(w: World, r: Id, user: Id, now: Time, admission: Option<Id>)
    requires r !in w.confirms && now <= w.clock
    ensures var steps := ConfirmScript(w.action, r, user, now, admission);
            && Legal(w, steps)
            && Run(w, steps).action == ConfirmedAlone(w.action, user, now, admission).0
            && At(Run(w, steps), r, Done(ConfirmedAlone(w.action, user, now, admission).1))
  {
    var s1, s2, s3, s4 := ReadForConfirm(r, user, now), TryConfirm(r), Admit(r, admission), Record(r);
    OneStep(w, s1);
    var steps := ConfirmScript(w.action, r, user, now, admission);
    if Answer(w.action, user, now).Ready? {
      ThreeSteps(w, s1, s2, s3);
      if admission.Some? {
        RunSnoc(w, [s1, s2, s3], s4);
        assert steps == [s1, s2, s3] + [s4];
      } else {
        assert steps == [s1, s2, s3];
      }
    }
  }
}
