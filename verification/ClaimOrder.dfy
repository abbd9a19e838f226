// The order in which waiting jobs are claimed, and a job's rank in it.
module ClaimOrder {
  import opened Basics
  import opened Jobs
  import Fairness

  /** The two sort keys: the in-memory adapter reads the static column, the
      Postgres adapter ages the base priority at query time. */
  datatype Order = StaticPriority | AgedPriority(now: Time, rate: real)

  function SortKey(o: Order, j: Job): real {
    match o
    case StaticPriority => j.effectivePriority
    case AgedPriority(now, rate) => Fairness.Aged(j.priority, j.queuedAt, now, rate)
  }

  /** Larger key first, then the earlier queued_at. */
  predicate Precedes(o: Order, a: Job, b: Job) {
    SortKey(o, a) > SortKey(o, b) ||
    (SortKey(o, a) == SortKey(o, b) && a.queuedAt < b.queuedAt)
  }

  /** In memory: the larger stored priority first, whatever the times; of equals the one queued earlier. */
  lemma StaticOrderIff(a: Job, b: Job)
    ensures Precedes(StaticPriority, a, b) <==>
              a.effectivePriority > b.effectivePriority ||
              (!(b.effectivePriority > a.effectivePriority) && a.queuedAt < b.queuedAt)
  {
  }

  /** The aged order is the same at every instant, and k overtakes j exactly when k's
      priority lead outweighs the ageing j gained by being queued earlier. A job queued more
      than (p_k - p_j) / rate minutes after j is therefore never ahead of it. */
  lemma OvertakesIff(k: Job, j: Job, now: Time, rate: real)
    requires rate > 0.0
    ensures Precedes(AgedPriority(now, rate), k, j) <==>
              var lead := (k.priority - j.priority) as real;
              var wait := (k.queuedAt - j.queuedAt) / 60.0;
              wait * rate < lead || (wait * rate == lead && wait < 0.0)
  {
    Fairness.AgedGap(k.priority, k.queuedAt, j.priority, j.queuedAt, now, rate);
    assert (j.queuedAt - k.queuedAt) / 60.0 == -((k.queuedAt - j.queuedAt) / 60.0);
    var w := (k.queuedAt - j.queuedAt) / 60.0;
    assert (-w) * rate == -(w * rate);
  }

  /** Bounded overtaking against the clamped effective_priority of the domain module: for jobs
      already queued, at any later time, the newcomer is behind. */
  lemma NeverOvertakes(k: Job, j: Job, now: Time, rate: real)
    requires rate > 0.0 && k.queuedAt <= now && j.queuedAt <= now
    requires (k.queuedAt - j.queuedAt) / 60.0 > (k.priority - j.priority) as real / rate
    ensures !Precedes(AgedPriority(now, rate), k, j)
    ensures Fairness.EffectivePriority(k.priority, k.queuedAt, now, rate) <
            Fairness.EffectivePriority(j.priority, j.queuedAt, now, rate)
  {
    var lead := (k.priority - j.priority) as real;
    var w := (k.queuedAt - j.queuedAt) / 60.0;
    assert (w - lead / rate) * rate > 0.0;
    assert (w - lead / rate) * rate == w * rate - lead;
    OvertakesIff(k, j, now, rate);
    Fairness.AgedGap(k.priority, k.queuedAt, j.priority, j.queuedAt, now, rate);
    Fairness.ClampIffFuture(k.priority, k.queuedAt, now, rate);
    Fairness.ClampIffFuture(j.priority, j.queuedAt, now, rate);
    assert (j.queuedAt - k.queuedAt) / 60.0 * rate == -(w * rate);
  }

  /** No two of these jobs tie, so there is exactly one claim order. */
  ghost predicate StrictOn(m: Table, o: Order, ids: set<Id>) {
    forall a, b :: a in ids && b in ids && a in m && b in m && a != b ==>
      Precedes(o, m[a], m[b]) || Precedes(o, m[b], m[a])
  }

  ghost predicate Sorted(m: Table, o: Order, ids: seq<Id>)
    requires forall id :: id in ids ==> id in m
  {
    forall i, j :: 0 <= i < j < |ids| ==> !Precedes(o, m[ids[j]], m[ids[i]])
  }

  ghost predicate StrictlySorted(m: Table, o: Order, ids: seq<Id>)
    requires forall id :: id in ids ==> id in m
  {
    forall i, j :: 0 <= i < j < |ids| ==> Precedes(o, m[ids[i]], m[ids[j]])
  }

  /** ids enumerates the set s, each member once. */
  ghost predicate Lists(ids: seq<Id>, s: set<Id>) {
    && NoDup(ids)
    && (forall i :: 0 <= i < |ids| ==> ids[i] in s)
    && (forall id :: id in s ==> id in ids)
  }

  /** Some enumeration. */
  ghost function Listing(s: set<Id>): (ids: seq<Id>)
    ensures Lists(ids, s)
  {
    if s == {} then []
    else
      var x :| x in s;
      [x] + Listing(s - {x})
  }

  // ---- Python's stable sorted(), by insertion -----------------------------------

  function Insert(m: Table, o: Order, x: Id, ids: seq<Id>): seq<Id>
    requires x in m && forall id :: id in ids ==> id in m
  {
    if ids == [] then [x]
    else if Precedes(o, m[ids[0]], m[x]) then [ids[0]] + Insert(m, o, x, ids[1..])
    else [x] + ids
  }

  function SortIds(m: Table, o: Order, ids: seq<Id>): (r: seq<Id>)
    requires forall id :: id in ids ==> id in m
    ensures multiset(r) == multiset(ids)
    ensures forall id :: id in r <==> id in ids
  {
    if ids == [] then []
    else
      var rest := SortIds(m, o, ids[1..]);
      InsertPermutes(m, o, ids[0], rest);
      assert ids == [ids[0]] + ids[1..];
      Insert(m, o, ids[0], rest)
  }

  lemma {:induction false} InsertPermutes(m: Table, o: Order, x: Id, ids: seq<Id>)
    requires x in m && forall id :: id in ids ==> id in m
    ensures multiset(Insert(m, o, x, ids)) == multiset(ids) + multiset{x}
    ensures forall id :: id in Insert(m, o, x, ids) <==> id == x || id in ids
  {
    if ids != [] && Precedes(o, m[ids[0]], m[x]) {
      InsertPermutes(m, o, x, ids[1..]);
      assert ids == [ids[0]] + ids[1..];
    }
  }

  lemma {:induction false} InsertSorted(m: Table, o: Order, x: Id, ids: seq<Id>)
    requires x in m && forall id :: id in ids ==> id in m
    requires Sorted(m, o, ids)
    ensures (InsertPermutes(m, o, x, ids); Sorted(m, o, Insert(m, o, x, ids)))
  {
    InsertPermutes(m, o, x, ids);
    if ids != [] && Precedes(o, m[ids[0]], m[x]) {
      InsertPermutes(m, o, x, ids[1..]);
      InsertSorted(m, o, x, ids[1..]);
      var tail := Insert(m, o, x, ids[1..]);
      forall j | 0 <= j < |tail| ensures !Precedes(o, m[tail[j]], m[ids[0]]) {
        if tail[j] != x { assert tail[j] in ids[1..]; }
      }
    }
  }

  lemma {:induction false} SortIdsSorted(m: Table, o: Order, ids: seq<Id>)
    requires forall id :: id in ids ==> id in m
    ensures Sorted(m, o, SortIds(m, o, ids))
  {
    if ids != [] {
      SortIdsSorted(m, o, ids[1..]);
      InsertSorted(m, o, ids[0], SortIds(m, o, ids[1..]));
    }
  }

  /** Sorting an enumeration of a tie-free set gives its strictly sorted enumeration. */
  lemma SortIdsLists(m: Table, o: Order, ids: seq<Id>, s: set<Id>)
    requires forall id :: id in ids ==> id in m
    requires Lists(ids, s)
    ensures Lists(SortIds(m, o, ids), s)
    ensures StrictOn(m, o, s) ==> StrictlySorted(m, o, SortIds(m, o, ids))
  {
    var r := SortIds(m, o, ids);
    SortIdsSorted(m, o, ids);
    MultisetNoDup(ids, r);
  }

  lemma {:induction false} MultisetNoDup(a: seq<Id>, b: seq<Id>)
    requires NoDup(a) && multiset(a) == multiset(b)
    ensures NoDup(b)
  {
    forall i, j | 0 <= i < j < |b| ensures b[i] != b[j] {
      if b[i] == b[j] {
        var x := b[i];
        assert b == b[..i] + [x] + b[i+1..j] + [x] + b[j+1..];
        assert multiset(b)[x] >= 2;
        MultiplicityAtMostOne(a, x);
      }
    }
  }

  lemma {:induction false} MultiplicityAtMostOne(a: seq<Id>, x: Id)
    requires NoDup(a)
    ensures multiset(a)[x] <= 1
  {
    if a != [] {
      MultiplicityAtMostOne(a[1..], x);
      assert a == [a[0]] + a[1..];
      if a[0] == x { assert x !in a[1..]; }
    }
  }

  // ---- rank -----------------------------------------------------------------

  /** Jobs of the lane that are claimed before id: the counting form of a rank. */
  function Ahead(m: Table, o: Order, kinds: Option<set<string>>, id: Id): set<Id>
    requires id in m
  {
    set x | x in Lane(m, kinds) && Precedes(o, m[x], m[id])
  }

  /** The index in the sorted lane is the number of strict predecessors. */
  lemma RankIsIndex(m: Table, o: Order, kinds: Option<set<string>>, sorted: seq<Id>, i: nat)
    requires Lists(sorted, Lane(m, kinds))
    requires StrictlySorted(m, o, sorted)
    requires i < |sorted|
    ensures |Ahead(m, o, kinds, sorted[i])| == i
  {
    var before := sorted[..i];
    forall x | x in Ahead(m, o, kinds, sorted[i]) ensures x in before {
      var k :| 0 <= k < |sorted| && sorted[k] == x;
      assert before[k] == x;
    }
    assert Ahead(m, o, kinds, sorted[i]) == Elements(before);
    NoDupCardinality(before);
  }

  /** Ranks of a tie-free lane are a bijection onto 0..n-1. */
  lemma RanksAreABijection(m: Table, o: Order, kinds: Option<set<string>>, sorted: seq<Id>)
    requires Lists(sorted, Lane(m, kinds))
    requires StrictlySorted(m, o, sorted)
    ensures |sorted| == |Lane(m, kinds)|
    ensures forall id :: id in Lane(m, kinds) ==> |Ahead(m, o, kinds, id)| < |Lane(m, kinds)|
    ensures forall a, b :: a in Lane(m, kinds) && b in Lane(m, kinds) && a != b ==>
              |Ahead(m, o, kinds, a)| != |Ahead(m, o, kinds, b)|
    ensures forall r :: 0 <= r < |sorted| ==> |Ahead(m, o, kinds, sorted[r])| == r
  {
    NoDupCardinality(sorted);
    assert Lane(m, kinds) == Elements(sorted);
    forall i: nat | i < |sorted| ensures |Ahead(m, o, kinds, sorted[i])| == i {
      RankIsIndex(m, o, kinds, sorted, i);
    }
  }

  /** A job that nothing in the lane follows or ties enters at the very back: its rank
      is the size the lane had before it. Exactly those jobs do. */
  lemma BackOfLane(m: Table, o: Order, kinds: Option<set<string>>, id: Id, j: Job)
    requires id !in m && IsBacklog(j.state) && InKinds(kinds, j.kind)
    ensures |Ahead(m[id := j], o, kinds, id)| == |Lane(m, kinds)| <==>
            forall x :: x in Lane(m, kinds) ==> Precedes(o, m[x], j)
  {
    var ahead := Ahead(m[id := j], o, kinds, id);
    assert ahead <= Lane(m, kinds);
    SubsetCardinality(ahead, Lane(m, kinds));
    assert (forall x :: x in Lane(m, kinds) ==> Precedes(o, m[x], j)) <==> ahead == Lane(m, kinds);
  }

  /** Stable sorting keeps the newest job last when it precedes nobody, ties included. */
  lemma {:induction false} NewestSortsLast(m: Table, o: Order, ids: seq<Id>, z: Id)
    requires z in m && forall id :: id in ids ==> id in m
    requires forall id :: id in ids ==> !Precedes(o, m[z], m[id])
    ensures SortIds(m, o, ids + [z]) == SortIds(m, o, ids) + [z]
  {
    if ids == [] {
      assert ids + [z] == [z];
      assert SortIds(m, o, [z]) == Insert(m, o, z, []);
    } else {
      NewestSortsLast(m, o, ids[1..], z);
      assert (ids + [z])[1..] == ids[1..] + [z];
      InsertBeforeLast(m, o, ids[0], SortIds(m, o, ids[1..]), z);
    }
  }

  lemma {:induction false} InsertBeforeLast(m: Table, o: Order, x: Id, ids: seq<Id>, z: Id)
    requires x in m && z in m && forall id :: id in ids ==> id in m
    requires !Precedes(o, m[z], m[x])
    ensures Insert(m, o, x, ids + [z]) == Insert(m, o, x, ids) + [z]
  {
    if ids == [] {
      assert ids + [z] == [z];
    } else {
      assert (ids + [z])[1..] == ids[1..] + [z];
      if Precedes(o, m[ids[0]], m[x]) { InsertBeforeLast(m, o, x, ids[1..], z); }
    }
  }
}
