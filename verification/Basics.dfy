// Shared vocabulary: optional values, JSON-shaped payloads, and facts about
// sequences and finite sets that several modules use.
module Basics {

  datatype Option<+T> = None | Some(value: T)

  datatype Result<+T, +E> = Ok(value: T) | Err(error: E)

  /** A decoded JSON document, the type of request inputs and stored payloads. */
  datatype Value =
    | VNull
    | VBool(b: bool)
    | VInt(n: int)
    | VReal(r: real)
    | VStr(s: string)
    | VList(items: seq<Value>)
    | VObj(fields: map<string, Value>)

  type Payload = map<string, Value>

  /** Python's truth value of a decoded JSON document. */
  predicate Truthy(v: Value) {
    match v
    case VNull => false
    case VBool(b) => b
    case VInt(n) => n != 0
    case VReal(r) => r != 0.0
    case VStr(s) => s != ""
    case VList(items) => items != []
    case VObj(fields) => fields != map[]
  }

  /** dict.get with None as the default. */
  function Lookup(p: Payload, k: string): Value {
    if k in p then p[k] else VNull
  }

  function Max(a: int, b: int): int { if a < b then b else a }

  function Min(a: int, b: int): int { if a < b then a else b }

  ghost predicate NoDup<T>(s: seq<T>) {
    forall i, j :: 0 <= i < j < |s| ==> s[i] != s[j]
  }

  function Elements<T>(s: seq<T>): set<T> { set x | x in s }

  lemma {:induction false} NoDupCardinality<T>(s: seq<T>)
    requires NoDup(s)
    ensures |Elements(s)| == |s|
  {
    if s != [] {
      var last := s[|s| - 1];
      var front := s[..|s| - 1];
      NoDupCardinality(front);
      assert Elements(s) == Elements(front) + {last};
    }
  }

  lemma {:induction false} SubsetCardinality<T>(a: set<T>, b: set<T>)
    requires a <= b
    ensures |a| <= |b|
    ensures |a| == |b| ==> a == b
  {
    if a != {} {
      var x :| x in a;
      SubsetCardinality(a - {x}, b - {x});
    }
  }

  /** coalesce(max(...), 0) over a column. */
  function MaxOf(column: seq<nat>): nat {
    if column == [] then 0 else Max(MaxOf(column[..|column| - 1]), column[|column| - 1])
  }

  lemma {:induction false} MaxOfNumbered(column: seq<nat>)
    requires forall i :: 0 <= i < |column| ==> column[i] == i + 1
    ensures MaxOf(column) == |column|
  {
    if column != [] { MaxOfNumbered(column[..|column| - 1]); }
  }

  // ---- division ---------------------------------------------------------------

  lemma QuotientIs(n: nat, k: nat, q: nat, r: nat)
    requires k > 0 && r < k && n == q * k + r
    ensures n / k == q && n % k == r
  {
    var d: int := n / k - q;
    assert n == (n / k) * k + n % k;
    assert d * k == r - n % k;
    Multiple(d, k);
  }

  lemma Multiple(d: int, k: int)
    requires k > 0
    ensures d >= 1 ==> d * k >= k
    ensures d <= -1 ==> d * k <= -k
  {
  }
}
