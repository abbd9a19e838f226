// Which waiting jobs a claim takes. Two algorithms over one table:
//   Scan   one pass over the sorted candidates, the in-memory adapter's loop;
//   Picks  re-select the best row, recount the active jobs, repeat: the Postgres loop.
module Claim {
  import opened Basics
  import opened Jobs
  import opened ClaimOrder
  import Fairness

  /** The WHERE clause of both adapters, the per-user cap apart. */
  function Eligible(m: Table, kinds: Option<set<string>>, now: Time): set<Id> {
    set id | id in m && IsBacklog(m[id].state) && InKinds(kinds, m[id].kind) && Available(m[id], now)
  }

  /** cap <= 0 switches the per-user cap off. */
  predicate UnderCap(m: Table, cap: int, id: Id)
    requires id in m
  {
    cap <= 0 || ActiveCount(m, m[id].user) < cap
  }

  // ---- the single sorted pass ----------------------------------------------------

  function Scan(m: Table, ids: seq<Id>, capacity: int, cap: int): (claimed: seq<Id>)
    requires forall id :: id in ids ==> id in m
    ensures forall id :: id in claimed ==> id in ids
    ensures |claimed| <= Max(capacity, 0)
    decreases |ids|
  {
    if ids == [] || capacity <= 0 then []
    else if !UnderCap(m, cap, ids[0]) then Scan(m, ids[1..], capacity, cap)
    else [ids[0]] + Scan(Dispatch(m, ids[0]), ids[1..], capacity - 1, cap)
  }

  // ---- the re-selecting loop -----------------------------------------------------

  /** id is what ORDER BY ... LIMIT 1 may return: eligible, under the cap, and no other
      such row strictly precedes it. */
  ghost predicate IsBest(m: Table, o: Order, kinds: Option<set<string>>, now: Time, cap: int, id: Id) {
    && id in Eligible(m, kinds, now)
    && UnderCap(m, cap, id)
    && forall x :: x in Eligible(m, kinds, now) && UnderCap(m, cap, x) ==> !Precedes(o, m[x], m[id])
  }

  ghost predicate NoneLeft(m: Table, kinds: Option<set<string>>, now: Time, cap: int) {
    forall x :: x in Eligible(m, kinds, now) ==> !UnderCap(m, cap, x)
  }

  /** picked is a possible outcome of the loop that claims one row per round trip. */
  ghost predicate Picks(m: Table, o: Order, kinds: Option<set<string>>, now: Time,
                        capacity: int, cap: int, picked: seq<Id>)
    decreases |picked|
  {
    if capacity <= 0 then picked == []
    else if picked == [] then NoneLeft(m, kinds, now, cap)
    else
      && IsBest(m, o, kinds, now, cap, picked[0])
      && Picks(Dispatch(m, picked[0]), o, kinds, now, capacity - 1, cap, picked[1..])
  }

  // ---- the two are equal -----------------------------------------------------------

  /** ids holds, in strict order, eligible rows only, and every eligible row still under the cap. */
  ghost predicate Covers(m: Table, o: Order, kinds: Option<set<string>>, now: Time, cap: int, ids: seq<Id>) {
    && NoDup(ids)
    && (forall id :: id in ids ==> id in Eligible(m, kinds, now))
    && StrictlySorted(m, o, ids)
    && (forall id :: id in Eligible(m, kinds, now) && UnderCap(m, cap, id) ==> id in ids)
  }

  lemma NotAhead(m: Table, o: Order, ids: seq<Id>)
    requires ids != [] && (forall id :: id in ids ==> id in m) && StrictlySorted(m, o, ids)
    ensures forall x :: x in ids ==> !Precedes(o, m[x], m[ids[0]])
  {
    forall x | x in ids ensures !Precedes(o, m[x], m[ids[0]]) {
      var k :| 0 <= k < |ids| && ids[k] == x;
      if k > 0 { assert Precedes(o, m[ids[0]], m[ids[k]]); }
    }
  }

  lemma SameKeys(m: Table, o: Order, id: Id)
    requires id in m
    ensures forall x, y :: x in m && y in m ==>
              (Precedes(o, Dispatch(m, id)[x], Dispatch(m, id)[y]) <==> Precedes(o, m[x], m[y]))
  {
  }

  lemma CoversTail(m: Table, o: Order, kinds: Option<set<string>>, now: Time, cap: int, ids: seq<Id>)
    requires ids != [] && Covers(m, o, kinds, now, cap, ids)
    ensures ids[0] in m
    ensures !UnderCap(m, cap, ids[0]) ==> Covers(m, o, kinds, now, cap, ids[1..])
    ensures UnderCap(m, cap, ids[0]) ==>
              && IsBest(m, o, kinds, now, cap, ids[0])
              && Covers(Dispatch(m, ids[0]), o, kinds, now, cap, ids[1..])
              && (forall x :: IsBest(m, o, kinds, now, cap, x) ==> x == ids[0])
  {
    hide *;
    CoversRest(m, o, kinds, now, cap, ids);
    if UnderCap(m, cap, ids[0]) { CoversBest(m, o, kinds, now, cap, ids); }
  }

  lemma CoversRest(m: Table, o: Order, kinds: Option<set<string>>, now: Time, cap: int, ids: seq<Id>)
    requires ids != [] && Covers(m, o, kinds, now, cap, ids)
    ensures ids[0] in m
    ensures !UnderCap(m, cap, ids[0]) ==> Covers(m, o, kinds, now, cap, ids[1..])
    ensures UnderCap(m, cap, ids[0]) ==> Covers(Dispatch(m, ids[0]), o, kinds, now, cap, ids[1..])
  {
    hide Precedes;
    var rest := ids[1..];
    assert forall j :: 0 <= j < |rest| ==> rest[j] == ids[j + 1];
    assert ids[0] in ids && forall id :: id in rest ==> id in ids;
    assert ids[0] !in rest;
    SameKeys(m, o, ids[0]);
    forall x | x in ids && x != ids[0] ensures x in rest {
      var k :| 0 <= k < |ids| && ids[k] == x;
      assert rest[k - 1] == x;
    }
    if UnderCap(m, cap, ids[0]) {
      var m' := Dispatch(m, ids[0]);
      forall x | x in Eligible(m', kinds, now) && UnderCap(m', cap, x) ensures x in rest {
        DispatchCount(m, ids[0], m[x].user);
      }
    }
  }

  lemma CoversBest(m: Table, o: Order, kinds: Option<set<string>>, now: Time, cap: int, ids: seq<Id>)
    requires ids != [] && Covers(m, o, kinds, now, cap, ids) && ids[0] in m && UnderCap(m, cap, ids[0])
    ensures IsBest(m, o, kinds, now, cap, ids[0])
    ensures forall x :: IsBest(m, o, kinds, now, cap, x) ==> x == ids[0]
  {
    hide Precedes;
    assert ids[0] in ids;
    NotAhead(m, o, ids);
    forall x | x in ids && x != ids[0] ensures Precedes(o, m[ids[0]], m[x]) {
      var k :| 0 <= k < |ids| && ids[k] == x;
    }
  }

  /** Whatever order-respecting choices the Postgres loop makes, when no two candidates
      tie it claims exactly what the sorted pass claims, in the same order; and the sorted
      pass is one of its outcomes. */
  lemma {:induction false} PicksIffScan(m: Table, o: Order, kinds: Option<set<string>>, now: Time,
                                        capacity: int, cap: int, ids: seq<Id>, picked: seq<Id>)
    requires Covers(m, o, kinds, now, cap, ids)
    ensures Picks(m, o, kinds, now, capacity, cap, picked) <==> picked == Scan(m, ids, capacity, cap)
    decreases |ids|
  {
    if capacity > 0 && ids != [] {
      assert ids[0] in ids;
      CoversTail(m, o, kinds, now, cap, ids);
      if !UnderCap(m, cap, ids[0]) {
        PicksIffScan(m, o, kinds, now, capacity, cap, ids[1..], picked);
      } else if picked != [] && picked[0] == ids[0] {
        PicksIffScan(Dispatch(m, ids[0]), o, kinds, now, capacity - 1, cap, ids[1..], picked[1..]);
        assert picked == [picked[0]] + picked[1..];
      }
    }
  }

  /** Claim refinement, for any sorted enumeration of a tie-free candidate set. */
  lemma ClaimRefinement(m: Table, o: Order, kinds: Option<set<string>>, now: Time,
                        capacity: int, cap: int, ids: seq<Id>, picked: seq<Id>)
    requires Lists(ids, Eligible(m, kinds, now))
    requires StrictlySorted(m, o, ids)
    ensures Picks(m, o, kinds, now, capacity, cap, picked) <==> picked == Scan(m, ids, capacity, cap)
  {
    PicksIffScan(m, o, kinds, now, capacity, cap, ids, picked);
  }

  /** Rows as admission creates them: both priority columns zero. */
  ghost predicate AdmissionProduced(m: Table, s: set<Id>) {
    forall id :: id in s && id in m ==> m[id].priority == 0 && m[id].effectivePriority == 0.0
  }

  ghost predicate DistinctTimes(m: Table, s: set<Id>) {
    forall a, b :: a in s && b in s && a in m && b in m && a != b ==> m[a].queuedAt != m[b].queuedAt
  }

  /** On admission-produced rows the aged key and the static key order by queued_at alike,
      at every instant and any positive aging rate. */
  lemma OrdersAgree(a: Job, b: Job, now: Time, rate: real)
    requires rate > 0.0
    requires a.priority == b.priority == 0 && a.effectivePriority == b.effectivePriority == 0.0
    ensures Precedes(AgedPriority(now, rate), a, b) <==> a.queuedAt < b.queuedAt
    ensures Precedes(StaticPriority, a, b) <==> a.queuedAt < b.queuedAt
  {
    Fairness.AgedGap(0, a.queuedAt, 0, b.queuedAt, now, rate);
  }

  /** Both adapters, each under its own sort key, claim the same jobs in the same order. */
  lemma AdaptersClaimAlike(m: Table, kinds: Option<set<string>>, now: Time, rate: real,
                           capacity: int, cap: int, keys: seq<Id>, picked: seq<Id>)
    requires rate > 0.0
    requires Lists(keys, Eligible(m, kinds, now))
    requires AdmissionProduced(m, Eligible(m, kinds, now))
    requires DistinctTimes(m, Eligible(m, kinds, now))
    ensures Picks(m, AgedPriority(now, rate), kinds, now, capacity, cap, picked) <==>
            picked == Scan(m, SortIds(m, StaticPriority, keys), capacity, cap)
  {
    var s := Eligible(m, kinds, now);
    forall a, b | a in s && b in s
      ensures Precedes(AgedPriority(now, rate), m[a], m[b]) <==> m[a].queuedAt < m[b].queuedAt
      ensures Precedes(StaticPriority, m[a], m[b]) <==> m[a].queuedAt < m[b].queuedAt
    {
      OrdersAgree(m[a], m[b], now, rate);
    }
    var sorted := SortIds(m, StaticPriority, keys);
    SortIdsLists(m, StaticPriority, keys, s);
    assert StrictlySorted(m, AgedPriority(now, rate), sorted);
    ClaimRefinement(m, AgedPriority(now, rate), kinds, now, capacity, cap, sorted, picked);
  }

  // ---- ties --------------------------------------------------------------------------

  /** ids enumerates s in an order the claim order allows; ties may stand either way. */
  ghost predicate Arranges(m: Table, o: Order, s: set<Id>, ids: seq<Id>) {
    Lists(ids, s) && (forall id :: id in ids ==> id in m) && Sorted(m, o, ids)
  }

  /** s holds eligible rows only, and every eligible row still under the cap. */
  ghost predicate Spans(m: Table, kinds: Option<set<string>>, now: Time, cap: int, s: set<Id>) {
    && s <= Eligible(m, kinds, now)
    && (forall id :: id in Eligible(m, kinds, now) && UnderCap(m, cap, id) ==> id in s)
  }

  lemma SpansRest(m: Table, kinds: Option<set<string>>, now: Time, cap: int, s: set<Id>, id: Id)
    requires Spans(m, kinds, now, cap, s) && id in s
    ensures UnderCap(m, cap, id) ==> Spans(Dispatch(m, id), kinds, now, cap, s - {id})
    ensures !UnderCap(m, cap, id) ==> Spans(m, kinds, now, cap, s - {id})
  {
    var m' := Dispatch(m, id);
    forall x | x in Eligible(m', kinds, now) && UnderCap(m', cap, x)
      ensures x in Eligible(m, kinds, now) && UnderCap(m, cap, x) && x != id
    {
      DispatchCount(m, id, m[x].user);
    }
  }

  lemma ArrangesRest(m: Table, o: Order, s: set<Id>, ids: seq<Id>)
    requires Arranges(m, o, s, ids) && ids != []
    ensures ids[0] in s && Arranges(m, o, s - {ids[0]}, ids[1..])
    ensures Arranges(Dispatch(m, ids[0]), o, s - {ids[0]}, ids[1..])
    ensures forall x :: x in s ==> !Precedes(o, m[x], m[ids[0]])
  {
    var rest := ids[1..];
    assert forall j :: 0 <= j < |rest| ==> rest[j] == ids[j + 1];
    forall x | x in s && x != ids[0] ensures x in rest {
      var k :| 0 <= k < |ids| && ids[k] == x;
      assert rest[k - 1] == x;
    }
    assert forall id :: id in rest ==> id in ids && id != ids[0];
  }

  /** The pass over any arrangement of the candidates is an outcome of the loop. */
  lemma {:induction false} ScanIsPicked(m: Table, o: Order, kinds: Option<set<string>>, now: Time,
                                        capacity: int, cap: int, s: set<Id>, ids: seq<Id>)
    requires Spans(m, kinds, now, cap, s) && Arranges(m, o, s, ids)
    ensures Picks(m, o, kinds, now, capacity, cap, Scan(m, ids, capacity, cap))
    decreases |ids|
  {
    if capacity > 0 && ids != [] {
      ArrangesRest(m, o, s, ids);
      SpansRest(m, kinds, now, cap, s, ids[0]);
      if !UnderCap(m, cap, ids[0]) {
        ScanIsPicked(m, o, kinds, now, capacity, cap, s - {ids[0]}, ids[1..]);
      } else {
        ScanIsPicked(Dispatch(m, ids[0]), o, kinds, now, capacity - 1, cap, s - {ids[0]}, ids[1..]);
        assert IsBest(m, o, kinds, now, cap, ids[0]);
      }
    }
  }

  /** Everybody put ahead of the best row by inserting it into a sorted list is over the cap. */
  lemma {:induction false} ScanInserted(m: Table, o: Order, capacity: int, cap: int, p: Id, ids: seq<Id>)
    requires p in m && !IsActive(m[p].state) && UnderCap(m, cap, p) && capacity > 0 && p !in ids
    requires forall id :: id in ids ==> id in m && (Precedes(o, m[id], m[p]) ==> !UnderCap(m, cap, id))
    ensures (InsertPermutes(m, o, p, ids);
             Scan(m, Insert(m, o, p, ids), capacity, cap) == [p] + Scan(Dispatch(m, p), ids, capacity - 1, cap))
    decreases |ids|
  {
    InsertPermutes(m, o, p, ids);
    if ids != [] && Precedes(o, m[ids[0]], m[p]) {
      assert ids[0] in ids && !UnderCap(m, cap, ids[0]);
      DispatchCount(m, p, m[ids[0]].user);
      InsertPermutes(m, o, p, ids[1..]);
      ScanInserted(m, o, capacity, cap, p, ids[1..]);
    }
  }

  lemma {:induction false} Arrangement(m: Table, o: Order, s: set<Id>) returns (ids: seq<Id>)
    requires forall id :: id in s ==> id in m
    ensures Arranges(m, o, s, ids)
  {
    if s == {} {
      ids := [];
    } else {
      var x :| x in s;
      var rest := Arrangement(m, o, s - {x});
      ids := Inserted(m, o, s, x, rest);
    }
  }

  lemma Inserted(m: Table, o: Order, s: set<Id>, x: Id, rest: seq<Id>) returns (ids: seq<Id>)
    requires x in s && x in m && Arranges(m, o, s - {x}, rest)
    ensures Arranges(m, o, s, ids)
    ensures ids == Insert(m, o, x, rest)
  {
    hide Precedes;
    InsertPermutes(m, o, x, rest);
    InsertSorted(m, o, x, rest);
    ids := Insert(m, o, x, rest);
    assert x !in rest;
    assert multiset([x] + rest) == multiset(rest) + multiset{x};
    MultisetNoDup([x] + rest, ids);
    assert forall i :: 0 <= i < |ids| ==> ids[i] in ids;
  }

  lemma SameArrangement(m: Table, o: Order, p: Id, s: set<Id>, ids: seq<Id>)
    requires p in m && p !in s && Arranges(Dispatch(m, p), o, s, ids)
    ensures Arranges(m, o, s, ids) && p !in ids
  {
    assert forall id :: id in ids ==> id in s && Dispatch(m, p)[id] == m[id];
  }

  lemma AheadOfBest(m: Table, o: Order, kinds: Option<set<string>>, now: Time, cap: int, p: Id, s: set<Id>, ids: seq<Id>)
    requires IsBest(m, o, kinds, now, cap, p) && s <= Eligible(m, kinds, now) && Arranges(m, o, s - {p}, ids)
    ensures forall id :: id in ids ==> id in m && (Precedes(o, m[id], m[p]) ==> !UnderCap(m, cap, id))
  {
    hide Precedes, UnderCap;
  }

  /** Every outcome of the loop is the pass over some arrangement. */
  lemma {:induction false} PickedIsScan(m: Table, o: Order, kinds: Option<set<string>>, now: Time,
                                        capacity: int, cap: int, s: set<Id>, picked: seq<Id>) returns (ids: seq<Id>)
    requires Spans(m, kinds, now, cap, s) && Picks(m, o, kinds, now, capacity, cap, picked)
    ensures Arranges(m, o, s, ids) && picked == Scan(m, ids, capacity, cap)
    decreases |picked|
  {
    if picked == [] {
      ids := Arrangement(m, o, s);
      if capacity > 0 { NobodyScanned(m, ids, capacity, cap); }
    } else {
      var p := picked[0];
      var m' := Dispatch(m, p);
      SpansRest(m, kinds, now, cap, s, p);
      var rest := PickedIsScan(m', o, kinds, now, capacity - 1, cap, s - {p}, picked[1..]);
      SameArrangement(m, o, p, s - {p}, rest);
      ids := Inserted(m, o, s, p, rest);
      AheadOfBest(m, o, kinds, now, cap, p, s, rest);
      ScanInserted(m, o, capacity, cap, p, rest);
    }
  }

  lemma {:induction false} NobodyScanned(m: Table, ids: seq<Id>, capacity: int, cap: int)
    requires forall id :: id in ids ==> id in m && !UnderCap(m, cap, id)
    ensures Scan(m, ids, capacity, cap) == []
    decreases |ids|
  {
    if ids != [] { NobodyScanned(m, ids[1..], capacity, cap); }
  }

  /** With ties the outcomes of the re-selecting loop are exactly the sorted passes, over all the orders in
      which tied rows may stand. */
  lemma PicksIffSomeScan(m: Table, o: Order, kinds: Option<set<string>>, now: Time,
                         capacity: int, cap: int, picked: seq<Id>)
    ensures Picks(m, o, kinds, now, capacity, cap, picked) <==>
            exists ids :: Arranges(m, o, Eligible(m, kinds, now), ids) && picked == Scan(m, ids, capacity, cap)
  {
    var s := Eligible(m, kinds, now);
    if Picks(m, o, kinds, now, capacity, cap, picked) {
      var ids := PickedIsScan(m, o, kinds, now, capacity, cap, s, picked);
    }
    forall ids | Arranges(m, o, s, ids)
      ensures Picks(m, o, kinds, now, capacity, cap, Scan(m, ids, capacity, cap))
    {
      ScanIsPicked(m, o, kinds, now, capacity, cap, s, ids);
    }
  }

  // ---- composition: what is claimed at a position depends only on what ranks ahead ---

  /** Scanning a list that goes on after `a` is scanning `a`, then the rest on what is left. */
  lemma {:induction false} ScanSplit(m: Table, a: seq<Id>, b: seq<Id>, capacity: int, cap: int,
                                     front: seq<Id>, back: seq<Id>, whole: seq<Id>)
    requires (forall id :: id in a ==> id in m) && (forall id :: id in b ==> id in m)
    requires front == Scan(m, a, capacity, cap)
    requires back == Scan(DispatchAll(m, front), b, capacity - |front|, cap)
    requires whole == Scan(m, a + b, capacity, cap)
    ensures whole == front + back
    decreases |a|
  {
    hide UnderCap;
    if a == [] {
      assert a + b == b;
    } else if capacity > 0 {
      assert (a + b)[0] == a[0] && (a + b)[1..] == a[1..] + b;
      if !UnderCap(m, cap, a[0]) {
        ScanSplit(m, a[1..], b, capacity, cap, front, back, whole);
      } else {
        var m' := Dispatch(m, a[0]);
        assert front == [a[0]] + front[1..] && whole == [a[0]] + whole[1..];
        ScanPrepend(m, a[0], front[1..]);
        ScanSplit(m', a[1..], b, capacity - 1, cap, front[1..], back, whole[1..]);
      }
    }
  }

  lemma ScanPrepend(m: Table, id: Id, tail: seq<Id>)
    requires id in m && forall x :: x in tail ==> x in m
    ensures DispatchAll(m, [id] + tail) == DispatchAll(Dispatch(m, id), tail)
  {
    assert ([id] + tail)[1..] == tail;
  }

  /** A candidate is claimed exactly when, counting only the claims that rank ahead of it,
      a slot is left and its user is under the cap. */
  lemma ClaimedIff(m: Table, ids: seq<Id>, capacity: int, cap: int, i: nat)
    requires NoDup(ids) && i < |ids|
    requires forall id :: id in ids ==> id in m
    ensures var front := Scan(m, ids[..i], capacity, cap);
            ids[i] in Scan(m, ids, capacity, cap) <==>
              |front| < capacity && UnderCap(DispatchAll(m, front), cap, ids[i])
  {
    var front := Scan(m, ids[..i], capacity, cap);
    DispatchAllFrame(m, front);
    assert ids == ids[..i] + ids[i..];
    var m' := DispatchAll(m, front);
    ScanSplit(m, ids[..i], ids[i..], capacity, cap, front,
              Scan(m', ids[i..], capacity - |front|, cap), Scan(m, ids, capacity, cap));
    assert ids[i..][0] == ids[i];
    assert ids[i] !in ids[..i];
    assert ids[i] !in ids[i..][1..];
  }

  // ---- how many -------------------------------------------------------------------

  /** Candidates of user u. */
  function CountOf(m: Table, ids: seq<Id>, u: Id): nat
    requires forall id :: id in ids ==> id in m
  {
    if ids == [] then 0
    else (if m[ids[0]].user == u then 1 else 0) + CountOf(m, ids[1..], u)
  }

  /** Sum over the users below n of min(candidates of u, slots u has left under the cap). */
  function Demand(m: Table, ids: seq<Id>, cap: int, n: nat): nat
    requires forall id :: id in ids ==> id in m
  {
    if n == 0 then 0
    else Demand(m, ids, cap, n - 1) + Min(CountOf(m, ids, n - 1), Max(0, cap - ActiveCount(m, n - 1)))
  }

  lemma {:induction false} CountOfDispatch(m: Table, ids: seq<Id>, u: Id, id: Id)
    requires id in m && forall x :: x in ids ==> x in m
    ensures CountOf(Dispatch(m, id), ids, u) == CountOf(m, ids, u)
  {
    if ids != [] { CountOfDispatch(m, ids[1..], u, id); }
  }

  /** A candidate whose user is at the cap adds no demand; one under it adds exactly one. */
  lemma {:induction false} DemandStep(m: Table, ids: seq<Id>, cap: int, n: nat)
    requires ids != [] && cap > 0
    requires forall id :: id in ids ==> id in m && !IsActive(m[id].state)
    ensures !UnderCap(m, cap, ids[0]) ==> Demand(m, ids, cap, n) == Demand(m, ids[1..], cap, n)
    ensures UnderCap(m, cap, ids[0]) ==>
              Demand(m, ids, cap, n) ==
              Demand(Dispatch(m, ids[0]), ids[1..], cap, n) + (if m[ids[0]].user < n then 1 else 0)
  {
    if n > 0 {
      DemandStep(m, ids, cap, n - 1);
      DispatchCount(m, ids[0], n - 1);
      CountOfDispatch(m, ids[1..], n - 1, ids[0]);
    }
  }

  lemma {:induction false} DemandNil(m: Table, cap: int, n: nat)
    ensures Demand(m, [], cap, n) == 0
  {
    if n > 0 { DemandNil(m, cap, n - 1); }
  }

  /** With a cap, the pass claims min(capacity, total demand). */
  lemma {:induction false} ClaimSize(m: Table, ids: seq<Id>, capacity: int, cap: int, n: nat)
    requires cap > 0 && NoDup(ids)
    requires forall id :: id in ids ==> id in m && !IsActive(m[id].state) && m[id].user < n
    ensures |Scan(m, ids, capacity, cap)| == Min(Max(capacity, 0), Demand(m, ids, cap, n))
    decreases |ids|
  {
    if ids == [] {
      DemandNil(m, cap, n);
    } else if capacity > 0 {
      DemandStep(m, ids, cap, n);
      assert forall id :: id in ids[1..] ==> id in ids && id != ids[0];
      if !UnderCap(m, cap, ids[0]) {
        ClaimSize(m, ids[1..], capacity, cap, n);
      } else {
        ClaimSize(Dispatch(m, ids[0]), ids[1..], capacity - 1, cap, n);
      }
    }
  }

  function CandidatesOf(m: Table, ids: seq<Id>, u: Id): set<Id>
    requires forall id :: id in ids ==> id in m
  {
    set id | id in ids && m[id].user == u
  }

  lemma {:induction false} CountOfSet(m: Table, ids: seq<Id>, u: Id)
    requires NoDup(ids) && forall id :: id in ids ==> id in m
    ensures CountOf(m, ids, u) == |CandidatesOf(m, ids, u)|
  {
    if ids == [] {
      assert CandidatesOf(m, ids, u) == {};
    } else {
      CountOfSet(m, ids[1..], u);
      assert ids[0] !in ids[1..] && forall id :: id in ids <==> id == ids[0] || id in ids[1..];
      assert CandidatesOf(m, ids, u) == CandidatesOf(m, ids[1..], u) + (if m[ids[0]].user == u then {ids[0]} else {});
    }
  }

  /** Demand does not depend on the order. */
  lemma {:induction false} DemandOfSet(m: Table, a: seq<Id>, b: seq<Id>, s: set<Id>, cap: int, n: nat)
    requires Lists(a, s) && Lists(b, s) && forall id :: id in s ==> id in m
    ensures Demand(m, a, cap, n) == Demand(m, b, cap, n)
  {
    if n > 0 {
      DemandOfSet(m, a, b, s, cap, n - 1);
      CountOfSet(m, a, n - 1);
      CountOfSet(m, b, n - 1);
      assert CandidatesOf(m, a, n - 1) == CandidatesOf(m, b, n - 1);
    }
  }

  /** However ties fall, the capped loop claims min(capacity, total demand). */
  lemma PickedSize(m: Table, o: Order, kinds: Option<set<string>>, now: Time,
                   capacity: int, cap: int, picked: seq<Id>, ids: seq<Id>, n: nat)
    requires cap > 0 && Picks(m, o, kinds, now, capacity, cap, picked)
    requires Lists(ids, Eligible(m, kinds, now)) && forall id :: id in ids ==> m[id].user < n
    ensures |picked| == Min(Max(capacity, 0), Demand(m, ids, cap, n))
  {
    var s := Eligible(m, kinds, now);
    var arranged := PickedIsScan(m, o, kinds, now, capacity, cap, s, picked);
    ClaimSize(m, arranged, capacity, cap, n);
    DemandOfSet(m, arranged, ids, s, cap, n);
  }

  /** Without a cap the pass takes the best `capacity` candidates and nothing else. */
  lemma {:induction false} UncappedScan(m: Table, ids: seq<Id>, capacity: int, cap: int)
    requires cap <= 0 && forall id :: id in ids ==> id in m
    ensures Scan(m, ids, capacity, cap) == ids[..Min(Max(capacity, 0), |ids|)]
    decreases |ids|
  {
    if ids != [] && capacity > 0 {
      UncappedScan(Dispatch(m, ids[0]), ids[1..], capacity - 1, cap);
    }
  }

  // ---- the uncapped batch statement of the Postgres adapter -----------------------

  /** UPDATE ... WHERE id IN (SELECT ... ORDER BY ... LIMIT capacity) RETURNING: a set of
      rows in no particular order. */
  ghost predicate IsTopBatch(m: Table, o: Order, kinds: Option<set<string>>, now: Time,
                             capacity: nat, batch: seq<Id>) {
    && NoDup(batch)
    && (forall id :: id in batch ==> id in Eligible(m, kinds, now))
    && |batch| == Min(capacity, |Eligible(m, kinds, now)|)
    && (forall a, b :: a in batch && b in Eligible(m, kinds, now) && b !in batch ==>
          !Precedes(o, m[b], m[a]))
  }

  /** Bounded overtaking of a single claim: whoever leaves an available job unclaimed took
      exactly `capacity` jobs, and with no ties every one of them ranks ahead of it. */
  lemma LeftBehind(m: Table, o: Order, kinds: Option<set<string>>, now: Time,
                   capacity: nat, batch: seq<Id>, j: Id)
    requires IsTopBatch(m, o, kinds, now, capacity, batch)
    requires StrictOn(m, o, Eligible(m, kinds, now))
    requires j in Eligible(m, kinds, now) && j !in batch
    ensures |batch| == capacity
    ensures forall a :: a in batch ==> Precedes(o, m[a], m[j])
  {
    if |batch| == |Eligible(m, kinds, now)| {
      NoDupCardinality(batch);
      SubsetCardinality(Elements(batch), Eligible(m, kinds, now));
      assert false;
    }
  }

  /** The batch is the sorted pass with the cap off, as a set. */
  lemma BatchIsScan(m: Table, o: Order, kinds: Option<set<string>>, now: Time,
                    capacity: nat, batch: seq<Id>, ids: seq<Id>)
    requires IsTopBatch(m, o, kinds, now, capacity, batch)
    requires Lists(ids, Eligible(m, kinds, now)) && StrictlySorted(m, o, ids)
    ensures Elements(batch) == Elements(Scan(m, ids, capacity, 0))
  {
    UncappedScan(m, ids, capacity, 0);
    NoDupCardinality(ids);
    NoDupCardinality(batch);
    assert Elements(ids) == Eligible(m, kinds, now);
    var k := Min(capacity, |ids|);
    var top := ids[..k];
    NoDupCardinality(top);
    if x :| x in batch && x !in top {
      var p :| 0 <= p < |ids| && ids[p] == x;
      forall q | 0 <= q < k ensures ids[q] in batch {
        assert Precedes(o, m[ids[q]], m[ids[p]]);
      }
      forall y | y in top ensures y in batch {
        var q :| 0 <= q < |top| && top[q] == y;
        assert ids[q] in batch;
      }
      assert x in Elements(batch) - Elements(top);
      assert Elements(top) <= Elements(batch);
      SubsetCardinality(Elements(top), Elements(batch));
      assert false;
    }
    SubsetCardinality(Elements(batch), Elements(top));
  }

  // ---- ranks move up ----------------------------------------------------------------

  /** An uncapped claim of k from an all-available lane takes exactly ranks 0..k-1 and
      lowers every other rank by k. */
  lemma ClaimShiftsRanks(m: Table, o: Order, kinds: Option<set<string>>, now: Time, ids: seq<Id>, k: nat, id: Id)
    requires Eligible(m, kinds, now) == Lane(m, kinds)
    requires Lists(ids, Lane(m, kinds)) && StrictlySorted(m, o, ids)
    requires k <= |ids|
    requires id in Lane(m, kinds)
    ensures id in Scan(m, ids, k, 0) <==> |Ahead(m, o, kinds, id)| < k
    ensures var m' := DispatchAll(m, Scan(m, ids, k, 0));
            id !in Scan(m, ids, k, 0) ==>
              id in Lane(m', kinds) && |Ahead(m', o, kinds, id)| == |Ahead(m, o, kinds, id)| - k
  {
    UncappedScan(m, ids, k, 0);
    assert Scan(m, ids, k, 0) == ids[..k];
    var i :| 0 <= i < |ids| && ids[i] == id;
    RankIsIndex(m, o, kinds, ids, i);
    if i < k {
      assert ids[..k][i] == id;
    } else {
      ShiftedRank(m, o, kinds, ids, k, i);
    }
  }

  lemma ShiftedRank(m: Table, o: Order, kinds: Option<set<string>>, ids: seq<Id>, k: nat, i: nat)
    requires Lists(ids, Lane(m, kinds)) && StrictlySorted(m, o, ids)
    requires k <= i < |ids|
    ensures ids[i] !in ids[..k]
    ensures var m' := DispatchAll(m, ids[..k]);
            ids[i] in Lane(m', kinds) && |Ahead(m', o, kinds, ids[i])| == i - k
  {
    hide Precedes, DispatchAll;
    DispatchAllFrame(m, ids[..k]);
    var m' := DispatchAll(m, ids[..k]);
    var rest := ids[k..];
    forall j | 0 <= j < |rest| ensures rest[j] == ids[k + j] && rest[j] !in ids[..k] {}
    forall x | x in Lane(m', kinds) ensures x in rest {
      assert x in Lane(m, kinds);
      var p :| 0 <= p < |ids| && ids[p] == x;
      assert p >= k;
      assert rest[p - k] == x;
    }
    assert Lists(rest, Lane(m', kinds));
    assert rest[i - k] == ids[i];
    RankIsIndex(m', o, kinds, rest, i - k);
  }

  // ---- building the outcome one row at a time --------------------------------------------

  /** Every row of the list was the best one when its turn came. */
  ghost predicate Chain(m: Table, o: Order, kinds: Option<set<string>>, now: Time, cap: int, picked: seq<Id>)
    decreases |picked|
  {
    picked == [] ||
    (IsBest(m, o, kinds, now, cap, picked[0]) &&
     Chain(Dispatch(m, picked[0]), o, kinds, now, cap, picked[1..]))
  }

  lemma BestIsFree(m: Table, o: Order, kinds: Option<set<string>>, now: Time, cap: int,
                   picked: seq<Id>, next: Id)
    requires forall id :: id in picked ==> id in m
    requires IsBest(DispatchAll(m, picked), o, kinds, now, cap, next)
    ensures next in m && next !in picked
  {
    DispatchAllFrame(m, picked);
  }

  lemma {:induction false} ChainSnoc(m: Table, o: Order, kinds: Option<set<string>>, now: Time, cap: int,
                                     picked: seq<Id>, next: Id)
    requires Chain(m, o, kinds, now, cap, picked)
    requires forall id :: id in picked ==> id in m
    requires IsBest(DispatchAll(m, picked), o, kinds, now, cap, next)
    ensures Chain(m, o, kinds, now, cap, picked + [next])
    ensures next in m && next !in picked
    ensures DispatchAll(m, picked + [next]) == Dispatch(DispatchAll(m, picked), next)
  {
    hide UnderCap, Precedes, IsBest, Eligible;
    BestIsFree(m, o, kinds, now, cap, picked, next);
    if picked == [] {
      assert [next][1..] == [] && picked + [next] == [next];
    } else {
      var m' := Dispatch(m, picked[0]);
      ChainSnoc(m', o, kinds, now, cap, picked[1..], next);
      assert (picked + [next])[1..] == picked[1..] + [next];
    }
  }

  lemma {:induction false} ChainPicks(m: Table, o: Order, kinds: Option<set<string>>, now: Time,
                                      capacity: nat, cap: int, picked: seq<Id>)
    requires Chain(m, o, kinds, now, cap, picked) && |picked| <= capacity
    requires forall id :: id in picked ==> id in m
    requires |picked| == capacity || NoneLeft(DispatchAll(m, picked), kinds, now, cap)
    ensures Picks(m, o, kinds, now, capacity, cap, picked)
    decreases |picked|
  {
    if picked != [] {
      ChainPicks(Dispatch(m, picked[0]), o, kinds, now, capacity - 1, cap, picked[1..]);
    }
  }

  // ---- caps ---------------------------------------------------------------------------

  /** What _claim may return: the capped loop, or the one-statement batch when the cap is off. */
  ghost predicate ClaimOutcome(m: Table, o: Order, kinds: Option<set<string>>, now: Time,
                               capacity: int, cap: int, picked: seq<Id>) {
    if capacity <= 0 then picked == []
    else if cap > 0 then Picks(m, o, kinds, now, capacity, cap, picked)
    else IsTopBatch(m, o, kinds, now, capacity, picked)
  }

  /** Whoever leaves j unclaimed, although it was available and its user is still under the cap afterwards,
      has used up its capacity, and on nobody that j precedes. */
  lemma PassedOver(m: Table, o: Order, kinds: Option<set<string>>, now: Time,
                   capacity: int, cap: int, picked: seq<Id>, j: Id)
    requires ClaimOutcome(m, o, kinds, now, capacity, cap, picked)
    requires j in Eligible(m, kinds, now) && j !in picked && forall id :: id in picked ==> id in m
    requires UnderCap(DispatchAll(m, picked), cap, j)
    ensures |picked| == Max(capacity, 0) && forall a :: a in picked ==> !Precedes(o, m[j], m[a])
  {
    if capacity > 0 && cap > 0 {
      PassedOverPicks(m, o, kinds, now, capacity, cap, picked, j);
    } else if capacity > 0 {
      NoDupCardinality(picked);
      SubsetCardinality(Elements(picked), Eligible(m, kinds, now));
      assert j !in Elements(picked);
    }
  }

  lemma {:induction false} PassedOverPicks(m: Table, o: Order, kinds: Option<set<string>>, now: Time,
                                           capacity: int, cap: int, picked: seq<Id>, j: Id)
    requires Picks(m, o, kinds, now, capacity, cap, picked)
    requires j in Eligible(m, kinds, now) && j !in picked && forall id :: id in picked ==> id in m
    requires UnderCap(DispatchAll(m, picked), cap, j)
    ensures UnderCap(m, cap, j)
    ensures |picked| == Max(capacity, 0) && forall a :: a in picked ==> !Precedes(o, m[j], m[a])
    decreases |picked|
  {
    if picked != [] {
      var m' := Dispatch(m, picked[0]);
      PassedOverPicks(m', o, kinds, now, capacity - 1, cap, picked[1..], j);
      DispatchCount(m, picked[0], m[j].user);
      assert picked == [picked[0]] + picked[1..];
      assert forall a :: a in picked[1..] ==> m'[a] == m[a] || a == picked[0];
    }
  }

  /** More than every user among the candidates. */
  function UserBound(m: Table, ids: seq<Id>): (n: nat)
    requires forall id :: id in ids ==> id in m
    ensures forall id :: id in ids ==> m[id].user < n
  {
    if ids == [] then 0 else Max(m[ids[0]].user + 1, UserBound(m, ids[1..]))
  }

  /** What a claim of the lane can take, as the table stands before it: all that is available, or with a cap
      the sum over users of min(candidates, slots left under the cap). */
  ghost function Claimable(m: Table, kinds: Option<set<string>>, now: Time, cap: int): nat {
    var ids := Listing(Eligible(m, kinds, now));
    if cap > 0 then Demand(m, ids, cap, UserBound(m, ids)) else |ids|
  }

  /** Whichever path it takes and however ties fall, a claim takes min(capacity, Claimable). */
  lemma OutcomeSize(m: Table, o: Order, kinds: Option<set<string>>, now: Time,
                    capacity: int, cap: int, picked: seq<Id>)
    requires ClaimOutcome(m, o, kinds, now, capacity, cap, picked)
    ensures |picked| == Min(Max(capacity, 0), Claimable(m, kinds, now, cap))
  {
    hide Precedes, UnderCap, Picks, Demand;
    var ids := Listing(Eligible(m, kinds, now));
    if capacity > 0 && cap > 0 {
      PickedSize(m, o, kinds, now, capacity, cap, picked, ids, UserBound(m, ids));
    } else {
      NoDupCardinality(ids);
      assert Elements(ids) == Eligible(m, kinds, now);
    }
  }

  ghost predicate WithinCap(m: Table, cap: int) {
    forall u :: ActiveCount(m, u) <= cap
  }

  /** The loop claims distinct eligible rows, at most `capacity` of them, and keeps every
      user within the cap. */
  lemma {:induction false} PicksFacts(m: Table, o: Order, kinds: Option<set<string>>, now: Time,
                                      capacity: int, cap: int, picked: seq<Id>)
    requires Picks(m, o, kinds, now, capacity, cap, picked)
    ensures NoDup(picked) && |picked| <= Max(capacity, 0)
    ensures forall id :: id in picked ==> id in Eligible(m, kinds, now)
    ensures cap > 0 && WithinCap(m, cap) ==> WithinCap(DispatchAll(m, picked), cap)
    decreases |picked|
  {
    if picked != [] {
      var id := picked[0];
      var m' := Dispatch(m, id);
      PicksFacts(m', o, kinds, now, capacity - 1, cap, picked[1..]);
      assert picked == [id] + picked[1..];
      assert id !in Eligible(m', kinds, now);
      forall x | x in Eligible(m', kinds, now) ensures x in Eligible(m, kinds, now) {}
      if cap > 0 && WithinCap(m, cap) {
        forall u ensures ActiveCount(m', u) <= cap { DispatchCount(m, id, u); }
      }
    }
  }

  lemma OutcomeFacts(m: Table, o: Order, kinds: Option<set<string>>, now: Time,
                     capacity: int, cap: int, picked: seq<Id>)
    requires ClaimOutcome(m, o, kinds, now, capacity, cap, picked)
    ensures NoDup(picked) && |picked| <= Max(capacity, 0)
    ensures forall id :: id in picked ==> id in Eligible(m, kinds, now)
    ensures cap > 0 && WithinCap(m, cap) ==> WithinCap(DispatchAll(m, picked), cap)
  {
    if capacity > 0 && cap > 0 { PicksFacts(m, o, kinds, now, capacity, cap, picked); }
  }
}
