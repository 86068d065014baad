/**
 Priority levels: reservations held per level and their propagation, in place,
 to all levels below.
 */
module Priorities {
  import opened Sums
  import opened Weights

  /** No two priority levels share a Weights object. */
  predicate Separate(w: map<int, Weights>) {
    forall p, q :: p in w && q in w && p != q ==> w[p] != w[q]
  }

  /** The amounts of all levels. */
  function Levels(w: map<int, Weights>): map<int, Amounts>
    reads w.Values
  {
    map p | p in w :: w[p].m
  }

  function LevelAt(v: map<int, Amounts>, k: string): int -> int {
    (p: int) => if p in v then At(v[p], k) else 0
  }

  function UpFrom(keys: set<int>, p: int): set<int> {
    set q | q in keys && q >= p
  }

  /** The total of a resource over all levels from p upwards. */
  ghost function Above(v: map<int, Amounts>, p: int, k: string): int {
    SumSet(UpFrom(v.Keys, p), LevelAt(v, k))
  }

  predicate Ascending(keys: seq<int>) {
    forall i, j :: 0 <= i < j < |keys| ==> keys[i] < keys[j]
  }

  /** p put into its place. */
  function Insert(keys: seq<int>, p: int): (r: seq<int>)
    requires Ascending(keys) && p !in keys
    ensures Ascending(r) && forall q :: q in r <==> q in keys || q == p
  {
    if keys == [] || p < keys[0] then
      [p] + keys
    else
      var rest := Insert(keys[1..], p);
      assert forall q :: q in keys <==> q == keys[0] || q in keys[1..];
      assert forall j :: 0 <= j < |rest| ==> rest[j] in rest;
      [keys[0]] + rest
  }

  /** The keys of a map, sorted. */
  method SortedKeys(s: set<int>) returns (keys: seq<int>)
    ensures Ascending(keys)
    ensures forall p :: p in keys <==> p in s
  {
    keys := [];
    var todo := s;
    while todo != {}
      invariant Ascending(keys)
      invariant forall p :: p in keys <==> p in s && p !in todo
      decreases todo
    {
      ghost var _ := Member(todo);
      var p :| p in todo;
      todo := todo - {p};
      keys := Insert(keys, p);
    }
  }

  /** Sum of a resource over keys[i..]. */
  function Tail(v: map<int, Amounts>, keys: seq<int>, i: nat, k: string): int
    requires i <= |keys|
    decreases |keys| - i
  {
    if i == |keys| then 0 else LevelAt(v, k)(keys[i]) + Tail(v, keys, i + 1, k)
  }

  lemma {:induction false} UpFromStep(keys: seq<int>, s: set<int>, i: nat)
    requires Ascending(keys) && (forall p :: p in keys <==> p in s) && i < |keys|
    ensures keys[i] in UpFrom(s, keys[i])
    ensures UpFrom(s, keys[i]) - {keys[i]} == if i + 1 < |keys| then UpFrom(s, keys[i + 1]) else {}
  {
    assert keys[i] in keys;
    forall q | q in UpFrom(s, keys[i]) - {keys[i]}
      ensures i + 1 < |keys| && q >= keys[i + 1]
    {
      var j :| 0 <= j < |keys| && keys[j] == q;
      assert j > i;
    }
  }

  lemma {:induction false} TailIsAbove(v: map<int, Amounts>, keys: seq<int>, i: nat, k: string)
    requires Ascending(keys) && (forall p :: p in keys <==> p in v.Keys) && i < |keys|
    ensures Tail(v, keys, i, k) == Above(v, keys[i], k)
    decreases |keys| - i
  {
    UpFromStep(keys, v.Keys, i);
    SumSetRemove(UpFrom(v.Keys, keys[i]), keys[i], LevelAt(v, k));
    if i + 1 < |keys| {
      TailIsAbove(v, keys, i + 1, k);
    }
  }

  ghost predicate IsTail(m: Amounts, v: map<int, Amounts>, keys: seq<int>, i: nat)
    requires i < |keys|
  {
    forall k :: At(m, k) == Tail(v, keys, i, k)
  }

  lemma {:induction false} LastIsTail(v: map<int, Amounts>, keys: seq<int>)
    requires keys != [] && keys[|keys| - 1] in v
    ensures IsTail(v[keys[|keys| - 1]], v, keys, |keys| - 1)
  {
    var i := |keys| - 1;
    forall k
      ensures At(v[keys[i]], k) == Tail(v, keys, i, k)
    {
      assert Tail(v, keys, i + 1, k) == 0;
    }
  }

  lemma {:induction false} PlusIsTail(a: Amounts, b: Amounts, v: map<int, Amounts>, keys: seq<int>, i: nat)
    requires 0 < i < |keys| && keys[i - 1] in v && a == v[keys[i - 1]] && IsTail(b, v, keys, i)
    ensures IsTail(Plus(a, b), v, keys, i - 1)
  {
  }

  lemma {:induction false} TailsAreSums(v: map<int, Amounts>, keys: seq<int>, m: Amounts, i: nat)
    requires Ascending(keys) && (forall p :: p in keys <==> p in v.Keys) && i < |keys| && IsTail(m, v, keys, i)
    ensures forall k :: At(m, k) == Above(v, keys[i], k)
  {
    forall k
      ensures At(m, k) == Above(v, keys[i], k)
    {
      TailIsAbove(v, keys, i, k);
    }
  }

  /** Each level becomes, in place, the sum of the original levels from it
      upwards. */
  method AssertPriorities(w: map<int, Weights>)
    requires Separate(w)
    modifies w.Values
    ensures forall p :: p in w ==> forall k :: At(w[p].m, k) == Above(old(Levels(w)), p, k)
  {
    var keys := SortedKeys(w.Keys);
    ghost var v := Levels(w);
    if keys == [] {
      assert forall p :: p in w ==> p in keys;
      return;
    }
    assert forall j :: 0 <= j < |keys| ==> keys[j] in keys;
    var i := |keys| - 1;
    LastIsTail(v, keys);
    while i > 0
      invariant 0 <= i < |keys|
      invariant forall j :: i <= j < |keys| ==> keys[j] in w && IsTail(w[keys[j]].m, v, keys, j)
      invariant forall j :: 0 <= j < i ==> keys[j] in w && w[keys[j]].m == v[keys[j]]
    {
      PlusIsTail(w[keys[i - 1]].m, w[keys[i]].m, v, keys, i);
      w[keys[i - 1]].Add(w[keys[i]].m);
      i := i - 1;
    }
    forall p | p in w
      ensures forall k :: At(w[p].m, k) == Above(v, p, k)
    {
      var j :| 0 <= j < |keys| && keys[j] == p;
      TailsAreSums(v, keys, w[p].m, j);
    }
  }
}
