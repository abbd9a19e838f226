// Priority aging and the round-robin visiting order.
module Fairness {
  import opened Basics

  const AGING_INCREMENT_PER_MINUTE: real := 0.5

  /** The aged priority as the Postgres queries compute it: no clamp on a future queued_at. */
  function Aged(priority: int, queuedAt: real, now: real, rate: real): real {
    priority as real + (now - queuedAt) / 60.0 * rate
  }

  /** effective_priority: the same with the age clamped at zero. */
  function EffectivePriority(priority: int, queuedAt: real, now: real, rate: real): real {
    var age := (now - queuedAt) / 60.0;
    priority as real + (if age < 0.0 then 0.0 else age) * rate
  }

  /** The two formulas agree exactly when the job is not from the future (or nothing ages). */
  lemma ClampIffFuture(priority: int, queuedAt: real, now: real, rate: real)
    ensures EffectivePriority(priority, queuedAt, now, rate) == Aged(priority, queuedAt, now, rate) <==>
            queuedAt <= now || rate == 0.0
  {
    var age := (now - queuedAt) / 60.0;
    assert age < 0.0 <==> now < queuedAt;
    if age < 0.0 && rate != 0.0 { assert age * rate != 0.0; }
  }

  /** The difference of two aged priorities does not depend on the clock. */
  lemma AgedGap(pa: int, qa: real, pb: int, qb: real, now: real, rate: real)
    ensures Aged(pa, qa, now, rate) - Aged(pb, qb, now, rate) ==
            (pa - pb) as real + (qb - qa) / 60.0 * rate
    ensures rate > 0.0 ==> ((qb - qa) / 60.0 * rate > 0.0 <==> qa < qb)
  {
    var x, y := (now - qa) / 60.0, (now - qb) / 60.0;
    assert x * rate - y * rate == (x - y) * rate;
    assert x - y == (qb - qa) / 60.0;
    var z := x - y;
    if rate > 0.0 {
      if z > 0.0 { assert z * rate > 0.0; }
      if z <= 0.0 { assert z * rate <= 0.0; }
    }
  }

  // ---- the round-robin visiting order ------------------------------------------

  predicate IsLeast(x: nat, s: set<nat>) {
    x in s && forall y :: y in s ==> x <= y
  }

  lemma {:induction false} LeastExists(s: set<nat>) returns (least: nat)
    requires s != {}
    ensures IsLeast(least, s)
  {
    least :| least in s;
    if s != {least} {
      var a := least;
      var x := LeastExists(s - {a});
      least := if a < x then a else x;
      assert forall y :: y in s ==> y == a || y in s - {a};
    }
  }

  /** Python's sorted(dict): the user ids in ascending order. */
  function SortedUsers(s: set<nat>): (r: seq<nat>)
    ensures forall u :: u in r <==> u in s
    ensures NoDup(r)
  {
    if s == {} then []
    else
      assert exists x :: IsLeast(x, s) by { var x := LeastExists(s); }
      var x :| IsLeast(x, s);
      [x] + SortedUsers(s - {x})
  }

  /** In ascending order. */
  lemma {:induction false} SortedUsersAscend(s: set<nat>, i: nat, j: nat)
    requires i < j < |SortedUsers(s)|
    ensures SortedUsers(s)[i] < SortedUsers(s)[j]
  {
    var first := LeastFirst(s);
    var rest := SortedUsers(s - {first});
    hide SortedUsers;
    if i == 0 {
      assert rest[j - 1] in rest && rest[j - 1] in s - {first};
    } else {
      SortedUsersAscend(s - {first}, i - 1, j - 1);
    }
  }

  lemma LeastFirst(s: set<nat>) returns (first: nat)
    requires SortedUsers(s) != []
    ensures IsLeast(first, s) && SortedUsers(s) == [first] + SortedUsers(s - {first})
  {
    first := SortedUsers(s)[0];
  }

  function Turns(depth: int): nat { Max(0, depth) }

  /** Turns taken by a user after r full rounds. */
  function Taken(depth: int, r: nat): nat { Min(Turns(depth), r) }

  /** One round: every user that still has work, in order. */
  function Visit(users: seq<nat>, depths: map<nat, int>, r: nat): seq<nat>
    requires forall u :: u in users ==> u in depths
  {
    if users == [] then []
    else (if depths[users[0]] > r then [users[0]] else []) + Visit(users[1..], depths, r)
  }

  function Deepest(users: seq<nat>, depths: map<nat, int>): (d: nat)
    requires forall u :: u in users ==> u in depths
    ensures forall u :: u in users ==> depths[u] <= d
  {
    if users == [] then 0 else Max(depths[users[0]], Deepest(users[1..], depths))
  }

  /** The rounds from the r-th on. */
  function Rounds(users: seq<nat>, depths: map<nat, int>, r: nat): seq<nat>
    requires forall u :: u in users ==> u in depths
    decreases Deepest(users, depths) - r
  {
    if r >= Deepest(users, depths) then []
    else Visit(users, depths, r) + Rounds(users, depths, r + 1)
  }

  lemma {:induction false} VisitCount(users: seq<nat>, depths: map<nat, int>, r: nat, u: nat)
    requires NoDup(users) && forall x :: x in users ==> x in depths
    ensures multiset(Visit(users, depths, r))[u] == (if u in users && depths[u] > r then 1 else 0)
  {
    if users != [] {
      VisitCount(users[1..], depths, r, u);
      assert users[0] !in users[1..];
    }
  }

  /** Every user gets exactly the turns it still had after r rounds. */
  lemma {:induction false} RoundsCount(users: seq<nat>, depths: map<nat, int>, r: nat, u: nat, order: seq<nat>)
    requires NoDup(users) && forall x :: x in users ==> x in depths
    requires u in users
    requires order == Rounds(users, depths, r)
    ensures multiset(order)[u] == Turns(depths[u]) - Taken(depths[u], r)
    decreases Deepest(users, depths) - r
  {
    hide Visit;
    if r < Deepest(users, depths) {
      VisitCount(users, depths, r, u);
      var rest := Rounds(users, depths, r + 1);
      RoundsCount(users, depths, r + 1, u, rest);
    }
  }

  lemma NextRound(users: seq<nat>, depths: map<nat, int>, r: nat, ahead: seq<nat>, sofar: seq<nat>)
    returns (rest: seq<nat>)
    requires forall u :: u in users ==> u in depths
    requires ahead == Rounds(users, depths, r) && r < Deepest(users, depths)
    ensures rest == Rounds(users, depths, r + 1)
    ensures sofar + Visit(users, depths, r) + rest == sofar + ahead
  {
    rest := Rounds(users, depths, r + 1);
    assert ahead == Visit(users, depths, r) + rest;
  }

  /** Wherever the order is cut, there is a round q such that every user has had its turns
      of q full rounds and at most one more. */
  lemma {:induction false} PrefixBand(users: seq<nat>, depths: map<nat, int>, r: nat, order: seq<nat>, n: nat)
    returns (q: nat)
    requires NoDup(users) && forall x :: x in users ==> x in depths
    requires order == Rounds(users, depths, r)
    requires n <= |order|
    ensures forall u :: u in users ==>
              Taken(depths[u], q) <= Taken(depths[u], r) + multiset(order[..n])[u] <= Taken(depths[u], q + 1)
    ensures q >= r
    decreases Deepest(users, depths) - r
  {
    hide Visit;
    q := r;
    if r < Deepest(users, depths) {
      var first := Visit(users, depths, r);
      var rest := NextRound(users, depths, r, order, []);
      assert order == first + rest;
      if n <= |first| {
        forall u | u in users ensures multiset(order[..n])[u] <= (if depths[u] > r then 1 else 0) {
          VisitCount(users, depths, r, u);
          assert order[..n] == first[..n] && first == first[..n] + first[n..];
        }
      } else {
        q := PrefixBand(users, depths, r + 1, rest, n - |first|);
        forall u | u in users
          ensures Taken(depths[u], r) + multiset(order[..n])[u] ==
                  Taken(depths[u], r + 1) + multiset(rest[..n - |first|])[u]
        {
          VisitCount(users, depths, r, u);
          assert order[..n] == first + rest[..n - |first|];
        }
      }
    }
  }

  /** Fairness of every prefix: a user that is two turns behind another has no work left. */
  lemma RoundRobinFair(users: seq<nat>, depths: map<nat, int>, order: seq<nat>, n: nat, u: nat, v: nat)
    requires NoDup(users) && forall x :: x in users <==> x in depths
    requires order == Rounds(users, depths, 0) && n <= |order|
    requires u in depths && v in depths
    ensures multiset(order[..n])[v] + 1 < multiset(order[..n])[u] ==>
              multiset(order[..n])[v] == Turns(depths[v])
  {
    var q := PrefixBand(users, depths, 0, order, n);
    assert u in users && v in users;
  }

  /** What a user has left after r full rounds. */
  function Left(depth: int, r: nat): int {
    if depth > 0 then depth - Taken(depth, r) else depth
  }

  /** The first i users have had round r, the others have not. */
  ghost predicate MidRound(remaining: map<nat, int>, depths: map<nat, int>, users: seq<nat>, i: nat, r: nat) {
    && remaining.Keys == depths.Keys
    && (forall k :: 0 <= k < |users| ==> users[k] in depths)
    && (forall k :: 0 <= k < |users| ==>
          remaining[users[k]] == Left(depths[users[k]], if k < i then r + 1 else r))
  }

  lemma {:induction false} DeepestUser(users: seq<nat>, depths: map<nat, int>) returns (k: nat)
    requires forall u :: u in users ==> u in depths
    requires Deepest(users, depths) > 0
    ensures k < |users| && depths[users[k]] == Deepest(users, depths)
  {
    if depths[users[0]] >= Deepest(users[1..], depths) {
      k := 0;
    } else {
      k := DeepestUser(users[1..], depths);
      k := k + 1;
    }
  }

  /** The inner for loop: one pass over the sorted users. */
  method VisitOnce(start: map<nat, int>, sofar: seq<nat>, sorted: seq<nat>,
                   ghost depths: map<nat, int>, ghost r: nat)
    returns (order: seq<nat>, remaining: map<nat, int>)
    requires NoDup(sorted) && MidRound(start, depths, sorted, 0, r)
    ensures order == sofar + Visit(sorted, depths, r)
    ensures MidRound(remaining, depths, sorted, 0, r + 1)
  {
    order, remaining := sofar, start;
    var i := 0;
    while i < |sorted|
      invariant 0 <= i <= |sorted|
      invariant MidRound(remaining, depths, sorted, i, r)
      invariant order + Visit(sorted[i..], depths, r) == sofar + Visit(sorted, depths, r)
    {
      var u := sorted[i];
      assert sorted[i..][1..] == sorted[i + 1..];
      if remaining[u] > 0 {
        order := order + [u];
        remaining := remaining[u := remaining[u] - 1];
      }
      i := i + 1;
    }
    assert sorted[i..] == [];
  }

  /** Some user still has work exactly while rounds are left. */
  lemma RoundsLeft(users: seq<nat>, depths: map<nat, int>, remaining: map<nat, int>, r: nat)
    requires NoDup(users) && (forall u :: u in users <==> u in depths)
    requires MidRound(remaining, depths, users, 0, r)
    ensures (exists u :: u in remaining && remaining[u] > 0) <==> r < Deepest(users, depths)
  {
    if r < Deepest(users, depths) {
      var k := DeepestUser(users, depths);
      assert remaining[users[k]] > 0;
    } else {
      forall u | u in remaining ensures remaining[u] <= 0 { assert u in users; }
    }
  }

  /** The nested loop, for arbitrary depths: it ends, and visits the users round by round. */
  method WeightedRoundRobinOrder(depths: map<nat, int>) returns (order: seq<nat>)
    ensures order == Rounds(SortedUsers(depths.Keys), depths, 0)
  {
    var remaining := depths;
    order := [];
    ghost var users := SortedUsers(depths.Keys);
    ghost var whole, r := Rounds(users, depths, 0), 0;
    ghost var ahead := whole;
    RoundsLeft(users, depths, remaining, r);
    while exists u :: u in remaining && remaining[u] > 0
      invariant MidRound(remaining, depths, users, 0, r)
      invariant (exists u :: u in remaining && remaining[u] > 0) <==> r < Deepest(users, depths)
      invariant ahead == Rounds(users, depths, r)
      invariant order + ahead == whole
      decreases Deepest(users, depths) - r
    {
      ahead := NextRound(users, depths, r, ahead, order);
      var sorted := SortedUsers(remaining.Keys);
      order, remaining := VisitOnce(remaining, order, sorted, depths, r);
      r := r + 1;
      RoundsLeft(users, depths, remaining, r);
    }
  }
}
