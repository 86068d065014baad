/**
 The dispatch order: a strict total order on AppWrappers with distinct UIDs,
 hence one sorted queue for any set of candidates.
 */
module Ordering {
  import opened Sums
  import opened Listings

  /** Lexicographic comparison of UIDs. */
  predicate LessUid(a: string, b: string) {
    b != [] && (a == [] || a[0] < b[0] || (a[0] == b[0] && LessUid(a[1..], b[1..])))
  }

  lemma {:induction false} LessUidIsTotal(a: string, b: string)
    ensures a != b ==> LessUid(a, b) || LessUid(b, a)
    ensures !(LessUid(a, b) && LessUid(b, a))
    ensures !LessUid(a, a)
  {
    if a != [] && b != [] {
      assert a == [a[0]] + a[1..] && b == [b[0]] + b[1..];
      LessUidIsTotal(a[1..], b[1..]);
    }
    if a != [] { LessUidIsTotal(a[1..], a[1..]); }
  }

  lemma {:induction false} LessUidIsTransitive(a: string, b: string, c: string)
    requires LessUid(a, b) && LessUid(b, c)
    ensures LessUid(a, c)
  {
    if a != [] && a[0] == b[0] == c[0] {
      LessUidIsTransitive(a[1..], b[1..], c[1..]);
    }
  }

  /** Higher priority first, then earlier creation, then UID. */
  predicate Before(a: Listed, b: Listed) {
    if a.priority != b.priority then a.priority > b.priority
    else if a.created != b.created then a.created < b.created
    else LessUid(a.uid, b.uid)
  }

  lemma {:induction false} BeforeIsStrictTotal(a: Listed, b: Listed, c: Listed)
    ensures !Before(a, a)
    ensures a.uid != b.uid ==> Before(a, b) || Before(b, a)
    ensures !(Before(a, b) && Before(b, a))
    ensures Before(a, b) && Before(b, c) ==> Before(a, c)
  {
    LessUidIsTotal(a.uid, b.uid);
    LessUidIsTotal(a.uid, a.uid);
    if LessUid(a.uid, b.uid) && LessUid(b.uid, c.uid) {
      LessUidIsTransitive(a.uid, b.uid, c.uid);
    }
  }

  predicate Sorted(q: seq<Listed>) {
    forall i, j :: 0 <= i < j < |q| ==> Before(q[i], q[j])
  }

  // ----- what the order is -----

  /** a comes before b letter by letter: at the first difference, or by ending
      there. */
  ghost predicate Lexicographic(a: string, b: string) {
    exists n: nat :: n <= |a| && n < |b| && a[..n] == b[..n] && (n == |a| || a[n] < b[n])
  }

  lemma {:induction false} LessUidIsLexicographic(a: string, b: string)
    ensures LessUid(a, b) <==> Lexicographic(a, b)
  {
    if b != [] {
      if a == [] {
        assert a[..0] == b[..0];
      } else {
        LessUidIsLexicographic(a[1..], b[1..]);
        LexicographicTail(a, b);
      }
    }
  }

  lemma {:induction false} LexicographicTail(a: string, b: string)
    requires a != [] && b != []
    ensures Lexicographic(a, b) <==> a[0] < b[0] || (a[0] == b[0] && Lexicographic(a[1..], b[1..]))
  {
    if a[0] < b[0] {
      assert a[..0] == b[..0];
    } else if a[0] == b[0] && Lexicographic(a[1..], b[1..]) {
      var n: nat :| n <= |a| - 1 && n < |b| - 1 && a[1..][..n] == b[1..][..n] && (n == |a| - 1 || a[1..][n] < b[1..][n]);
      assert a[..n + 1] == [a[0]] + a[1..][..n] && b[..n + 1] == [b[0]] + b[1..][..n];
    }
    if Lexicographic(a, b) && a[0] >= b[0] {
      var n: nat :| n <= |a| && n < |b| && a[..n] == b[..n] && (n == |a| || a[n] < b[n]);
      assert n > 0 && a[..n][0] == b[..n][0];
      assert a[1..][..n - 1] == a[..n][1..] && b[1..][..n - 1] == b[..n][1..];
    }
  }

  /** Priority does not increase; at equal priority, the older one comes first;
      at equal age, the one with the lexicographically smaller UID. */
  ghost predicate InDispatchOrder(q: seq<Listed>) {
    forall i, j :: 0 <= i < j < |q| ==>
      || q[i].priority > q[j].priority
      || (q[i].priority == q[j].priority && q[i].created < q[j].created)
      || (q[i].priority == q[j].priority && q[i].created == q[j].created && Lexicographic(q[i].uid, q[j].uid))
  }

  lemma {:induction false} SortedIsInDispatchOrder(q: seq<Listed>)
    ensures Sorted(q) <==> InDispatchOrder(q)
  {
    forall i, j | 0 <= i < j < |q|
      ensures LessUid(q[i].uid, q[j].uid) <==> Lexicographic(q[i].uid, q[j].uid)
    {
      LessUidIsLexicographic(q[i].uid, q[j].uid);
    }
  }

  /** Insertion before the first element that does not come earlier. */
  function Insert(q: seq<Listed>, x: Listed): (r: seq<Listed>)
    ensures multiset(r) == multiset(q) + multiset{x}
  {
    if q == [] then [x]
    else if Before(q[0], x) then
      assert q == [q[0]] + q[1..];
      [q[0]] + Insert(q[1..], x)
    else [x] + q
  }

  lemma {:induction false} InsertKeepsSorted(q: seq<Listed>, x: Listed)
    requires Sorted(q) && forall y :: y in q ==> y.uid != x.uid
    ensures Sorted(Insert(q, x))
  {
    if q != [] {
      if Before(q[0], x) {
        assert forall y :: y in q[1..] ==> y in q;
        InsertKeepsSorted(q[1..], x);
        var r := Insert(q[1..], x);
        forall j | 0 <= j < |r|
          ensures Before(q[0], r[j])
        {
          assert r[j] in multiset(r);
          if r[j] != x {
            assert r[j] in q[1..];
            var i :| 1 <= i < |q| && q[i] == r[j];
          }
        }
      } else {
        forall j | 0 <= j < |q|
          ensures Before(x, q[j])
        {
          assert q[0] in q;
          BeforeIsStrictTotal(x, q[0], q[j]);
          BeforeIsStrictTotal(q[0], x, q[j]);
        }
      }
    }
  }

  /** sort.Slice on the queue. */
  method SortQueue(q: seq<Listed>) returns (r: seq<Listed>)
    requires DistinctUids(q)
    ensures Sorted(r) && multiset(r) == multiset(q)
    ensures InDispatchOrder(r)
  {
    r := [];
    for i := 0 to |q|
      invariant Sorted(r) && multiset(r) == multiset(q[..i])
    {
      forall y | y in r
        ensures y.uid != q[i].uid
      {
        assert y in multiset(q[..i]);
        var j :| 0 <= j < i && q[j] == y;
      }
      InsertKeepsSorted(r, q[i]);
      r := Insert(r, q[i]);
      assert q[..i + 1] == q[..i] + [q[i]];
    }
    assert q[..|q|] == q;
    SortedIsInDispatchOrder(r);
  }

  lemma {:induction false} HeadComesFirst(a: seq<Listed>, x: Listed)
    requires Sorted(a) && x in a
    ensures x == a[0] || Before(a[0], x)
  {
    var i :| 0 <= i < |a| && a[i] == x;
  }

  lemma {:induction false} TailMultiset<T>(a: seq<T>)
    requires a != []
    ensures multiset(a[1..]) == multiset(a) - multiset{a[0]}
  {
    assert a == [a[0]] + a[1..];
  }

  lemma {:induction false} SameMembers<T>(a: seq<T>, b: seq<T>)
    requires multiset(a) == multiset(b)
    ensures |a| == |b| && forall x :: x in a ==> x in b
  {
    assert |multiset(a)| == |a| && |multiset(b)| == |b|;
    forall x | x in a
      ensures x in b
    {
      assert x in multiset(b);
    }
  }

  /** Sorting leaves no choice. */
  lemma {:induction false} SortedIsUnique(a: seq<Listed>, b: seq<Listed>)
    requires Sorted(a) && Sorted(b) && multiset(a) == multiset(b)
    ensures a == b
    decreases |a|
  {
    SameMembers(a, b);
    SameMembers(b, a);
    if a != [] {
      HeadComesFirst(a, b[0]);
      HeadComesFirst(b, a[0]);
      BeforeIsStrictTotal(a[0], b[0], a[0]);
      TailMultiset(a);
      TailMultiset(b);
      SortedIsUnique(a[1..], b[1..]);
      assert a == [a[0]] + a[1..] && b == [b[0]] + b[1..];
    }
  }

  // ----- cutting a queue at a priority -----

  function AtLeast(q: seq<Listed>, p: int): (r: seq<Listed>) {
    if q == [] then []
    else
      var rest := AtLeast(q[..|q| - 1], p);
      if q[|q| - 1].priority >= p then rest + [q[|q| - 1]] else rest
  }

  lemma {:induction false} AtLeastMembers(q: seq<Listed>, p: int)
    ensures forall x :: x in AtLeast(q, p) <==> x in q && x.priority >= p
    ensures forall x :: multiset(AtLeast(q, p))[x] == if x.priority >= p then multiset(q)[x] else 0
  {
    if q != [] {
      AtLeastMembers(q[..|q| - 1], p);
      assert q == q[..|q| - 1] + [q[|q| - 1]];
    }
  }

  /** In a sorted queue the AppWrappers of priority p and above come first. */
  lemma {:induction false} AtLeastIsPrefix(q: seq<Listed>, p: int)
    requires Sorted(q)
    ensures AtLeast(q, p) <= q && Sorted(AtLeast(q, p))
    ensures forall i :: |AtLeast(q, p)| <= i < |q| ==> q[i].priority < p
  {
    if q != [] {
      var init := q[..|q| - 1];
      AtLeastIsPrefix(init, p);
      assert init != [] ==> Before(q[|init| - 1], q[|q| - 1]);
      assert AtLeast(q, p) == q[..|AtLeast(q, p)|];
    }
  }
}
