// The allowed-transitions map of a job's state, and what the queue's shortcuts are in it.
module StateMachine {
  import opened Basics
  import opened Jobs

  /** ALLOWED_TRANSITIONS. */
  function AllowedTransitions(from: State): set<State> {
    match from
    case Queued => {Admitted, Cancelled, Failed}
    case Admitted => {Dispatched, Cancelled, Failed}
    case Dispatched => {Running, Cancelling, Failed, RetryWait}
    case Running => {Succeeded, RetryWait, Cancelling, Failed}
    case RetryWait => {Queued, Failed, Cancelled}
    case Cancelling => {Cancelled, Failed}
    case Cancelled => {}
    case Succeeded => {}
    case Failed => {}
  }

  predicate CanTransition(from: State, to: State) {
    if IsTerminal(from) then false else to in AllowedTransitions(from)
  }

  /** A route through the map: every consecutive pair is an allowed edge. */
  predicate IsRoute(route: seq<State>) {
    route != [] && forall i :: 0 <= i < |route| - 1 ==> CanTransition(route[i], route[i + 1])
  }

  predicate Connects(route: seq<State>, from: State, to: State) {
    IsRoute(route) && route[0] == from && route[|route| - 1] == to
  }

  datatype CancelResult = CancelResult(alreadyTerminal: bool, newState: Option<State>)

  /** request_cancel: the richer machine, where active jobs pass through cancelling. */
  function RequestCancel(s: State): CancelResult {
    if IsTerminal(s) then CancelResult(true, None)
    else if s.Queued? || s.Admitted? then CancelResult(false, Some(Cancelled))
    else if IsActive(s) then CancelResult(false, Some(Cancelling))
    else if s.RetryWait? then CancelResult(false, Some(Cancelled))
    else CancelResult(false, None)
  }

  /** Every state request_cancel moves to is one allowed edge away, and asking again is harmless. */
  lemma RequestCancelIsAnEdge(s: State)
    ensures RequestCancel(s).alreadyTerminal <==> s in {Cancelled, Succeeded, Failed}
    ensures RequestCancel(s).newState ==
            if s in {Dispatched, Running} then Some(Cancelling)
            else if s in {Queued, Admitted, RetryWait} then Some(Cancelled)
            else None
    ensures var r := RequestCancel(s).newState;
            r.Some? ==> CanTransition(s, r.value) && !IsActive(r.value) && RequestCancel(r.value).newState.None?
  {
  }

  /** The map lets every live job fail, and reach cancelled at once or through cancelling. */
  lemma EveryLiveJobCanEnd(s: State)
    ensures CanTransition(s, Failed) <==> s !in {Cancelled, Succeeded, Failed}
    ensures CanTransition(s, Cancelled) || CanTransition(s, Cancelling) <==> s !in {Cancelled, Succeeded, Failed}
    ensures CanTransition(s, Succeeded) <==> s == Running
    ensures CanTransition(s, RetryWait) <==> s in {Dispatched, Running}
  {
  }

  // ---- the changes the durable queue makes --------------------------------------------

  /** One transaction of an actor that is in time: a claim, a dispatch, a reconciliation of the
      attempt it is about, a cancel. */
  predicate TimelyChange(a: State, b: State) {
    match a
    case Queued => b.Dispatched? || b.Cancelled?
    case RetryWait => b.Dispatched? || b.Cancelled?
    case Dispatched => b in {Running, Succeeded, Failed, RetryWait, Cancelled}
    case Running => b in {Succeeded, Failed, RetryWait, Cancelled}
    case _ => false
  }

  /** What the dispatch or the reconciliation of an earlier attempt can still do to a job that is
      waiting to retry. */
  predicate LateChange(a: State, b: State) { a.RetryWait? && b in {Running, Succeeded, Failed} }

  /** The path of the map a timely change stands for. */
  function Shortcut(a: State, b: State): seq<State> {
    if a.Queued? && b.Dispatched? then [Queued, Admitted, Dispatched]
    else if a.RetryWait? && b.Dispatched? then [RetryWait, Queued, Admitted, Dispatched]
    else if a.Dispatched? && b.Succeeded? then [Dispatched, Running, Succeeded]
    else if IsActive(a) && b.Cancelled? then [a, Cancelling, Cancelled]
    else [a, b]
  }

  /** Of the thirteen timely changes eight are edges and five jump; each jump is the shortest path of the
      map, and only a retry's own way back through queued passes a waiting state on it. */
  lemma TimelyChangeIsAShortcut(a: State, b: State)
    requires TimelyChange(a, b)
    ensures Connects(Shortcut(a, b), a, b)
    ensures |Shortcut(a, b)| == 2 <==> CanTransition(a, b)
    ensures forall i :: 0 < i < |Shortcut(a, b)| - 1 && IsBacklog(Shortcut(a, b)[i]) ==> a.RetryWait? && b.Dispatched? && i == 1
    ensures forall route :: Connects(route, a, b) ==> |Shortcut(a, b)| <= |route|
  {
    forall route | Connects(route, a, b) ensures |Shortcut(a, b)| <= |route| { NoShorterRoute(route, a, b); }
  }

  lemma NoShorterRoute(route: seq<State>, a: State, b: State)
    requires TimelyChange(a, b) && Connects(route, a, b)
    ensures |Shortcut(a, b)| <= |route|
  {
    assert |route| > 1 ==> CanTransition(route[0], route[1]);
    assert |route| > 2 ==> CanTransition(route[1], route[2]);
  }

  /** A late change is no such jump: but for the edge to failed, every path of the map from a waiting
      state to where it leads claims the job again. */
  lemma {:induction false} LateChangeSkipsAClaim(route: seq<State>, a: State, b: State)
    requires Connects(route, a, b) && (IsBacklog(a) || a.Admitted?) && (b.Running? || b.Succeeded?)
    ensures Dispatched in route
    decreases |route|
  {
    assert CanTransition(route[0], route[1]);
    assert route[1] in route;
    var rest := route[1..];
    assert forall i :: 0 <= i < |rest| ==> rest[i] == route[i + 1];
    assert Connects(rest, route[1], b);
    if IsTerminal(route[1]) {
      TerminalIsStuck(rest, route[1], b);
    } else if !route[1].Dispatched? {
      LateChangeSkipsAClaim(rest, route[1], b);
    }
  }

  lemma TerminalIsStuck(route: seq<State>, from: State, to: State)
    requires Connects(route, from, to) && IsTerminal(from)
    ensures to == from
  {
    assert |route| > 1 ==> CanTransition(route[0], route[1]);
  }
}
