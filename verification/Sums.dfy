/** Sums over sequences and over finite sets, independent of order. */
module Sums {
  function Sum<T>(s: seq<T>, f: T -> int): int {
    if s == [] then 0 else Sum(s[..|s| - 1], f) + f(s[|s| - 1])
  }

  lemma {:induction false} SumConcat<T>(a: seq<T>, b: seq<T>, f: T -> int)
    ensures Sum(a + b, f) == Sum(a, f) + Sum(b, f)
    decreases |b|
  {
    if b == [] {
      assert a + b == a;
    } else {
      SumConcat(a, b[..|b| - 1], f);
      assert (a + b)[..|a + b| - 1] == a + b[..|b| - 1];
    }
  }

  lemma {:induction false} SumEqual<T>(s: seq<T>, f: T -> int, g: T -> int)
    requires forall x :: x in s ==> f(x) == g(x)
    ensures Sum(s, f) == Sum(s, g)
  {
    if s != [] {
      SumEqual(s[..|s| - 1], f, g);
    }
  }

  lemma {:induction false} SumAtMost<T>(s: seq<T>, f: T -> int, g: T -> int)
    requires forall x :: x in s ==> f(x) <= g(x)
    ensures Sum(s, f) <= Sum(s, g)
  {
    if s != [] {
      SumAtMost(s[..|s| - 1], f, g);
    }
  }

  lemma {:induction false} SumSnoc<T>(s: seq<T>, x: T, f: T -> int)
    ensures Sum(s + [x], f) == Sum(s, f) + f(x)
  {
    assert (s + [x])[..|s|] == s;
  }

  lemma {:induction false} SumRemove<T>(s: seq<T>, i: nat, f: T -> int)
    requires i < |s|
    ensures Sum(s, f) == f(s[i]) + Sum(s[..i] + s[i + 1..], f)
    decreases |s|
  {
    var init, last := s[..|s| - 1], s[|s| - 1];
    if i == |init| {
      assert s[..i] + s[i + 1..] == init;
    } else {
      SumRemove(init, i, f);
      assert s[..i] + s[i + 1..] == (init[..i] + init[i + 1..]) + [last];
      SumSnoc(init[..i] + init[i + 1..], last, f);
    }
  }

  lemma {:induction false} MultisetWithout<T>(s: seq<T>, i: nat)
    requires i < |s|
    ensures multiset(s[..i] + s[i + 1..]) == multiset(s) - multiset{s[i]}
  {
    assert s == s[..i] + [s[i]] + s[i + 1..];
    assert multiset(s) == multiset(s[..i]) + multiset{s[i]} + multiset(s[i + 1..]);
  }

  lemma {:induction false} SumPermutation<T>(a: seq<T>, b: seq<T>, f: T -> int)
    requires multiset(a) == multiset(b)
    ensures Sum(a, f) == Sum(b, f)
    decreases |a|
  {
    if a == [] {
      assert |multiset(b)| == 0;
    } else {
      var n := |a| - 1;
      assert a[n] in multiset(b);
      var i :| 0 <= i < |b| && b[i] == a[n];
      MultisetWithout(a, n);
      MultisetWithout(b, i);
      assert a[..n] + a[n + 1..] == a[..n];
      SumPermutation(a[..n], b[..i] + b[i + 1..], f);
      SumRemove(b, i, f);
    }
  }

  // ----- sums over sets -----

  lemma {:induction false} Member<T>(s: set<T>) returns (x: T)
    requires s != {}
    ensures x in s
  {
    x :| x in s;
  }

  ghost function SumSet<T>(s: set<T>, f: T -> int): int {
    if s == {} then 0 else var x :| x in s; f(x) + SumSet(s - {x}, f)
  }

  lemma {:induction false} SumSetRemove<T>(s: set<T>, x: T, f: T -> int)
    requires x in s
    ensures SumSet(s, f) == f(x) + SumSet(s - {x}, f)
    decreases s
  {
    var y :| y in s && SumSet(s, f) == f(y) + SumSet(s - {y}, f);
    if x != y {
      SumSetRemove(s - {y}, x, f);
      SumSetRemove(s - {x}, y, f);
      assert s - {y} - {x} == s - {x} - {y};
    }
  }

  lemma {:induction false} SumSetEqual<T>(s: set<T>, f: T -> int, g: T -> int)
    requires forall x :: x in s ==> f(x) == g(x)
    ensures SumSet(s, f) == SumSet(s, g)
    decreases s
  {
    if s != {} {
      var x :| x in s;
      SumSetRemove(s, x, f);
      SumSetRemove(s, x, g);
      SumSetEqual(s - {x}, f, g);
    }
  }

  lemma {:induction false} SumSetZero<T>(s: set<T>, f: T -> int)
    requires forall x :: x in s ==> f(x) == 0
    ensures SumSet(s, f) == 0
    decreases s
  {
    if s != {} {
      var x :| x in s;
      SumSetRemove(s, x, f);
      SumSetZero(s - {x}, f);
    }
  }

  /** Changing a function at one point changes the sum by the difference. */
  lemma {:induction false} SumSetChange<T>(s: set<T>, x: T, f: T -> int, g: T -> int)
    requires x in s && forall y :: y in s && y != x ==> f(y) == g(y)
    ensures SumSet(s, g) == SumSet(s, f) + g(x) - f(x)
  {
    SumSetRemove(s, x, f);
    SumSetRemove(s, x, g);
    SumSetEqual(s - {x}, f, g);
  }
}
