/**
 Resource amounts. A Weights object is a map that its methods update in place,
 one entry after the other in any order; quantities are scaled integers.
 */
module Weights {
  type Amounts = map<string, int>

  /** An amount, with a missing entry read as zero. */
  function At(w: Amounts, k: string): int {
    if k in w then w[k] else 0
  }

  function Larger(x: int, y: int): int {
    if x < y then y else x
  }

  function Plus(a: Amounts, b: Amounts): (r: Amounts)
    ensures forall k :: At(r, k) == At(a, k) + At(b, k)
  {
    map k | k in a.Keys + b.Keys :: At(a, k) + At(b, k)
  }

  function Minus(a: Amounts, b: Amounts): (r: Amounts)
    ensures forall k :: At(r, k) == At(a, k) - At(b, k)
  {
    map k | k in a.Keys + b.Keys :: At(a, k) - At(b, k)
  }

  /** Subtraction from a quota: what the quota does not define stays undefined,
      that is, unlimited. */
  function QuotaMinus(a: Amounts, b: Amounts): (r: Amounts)
    ensures r.Keys == a.Keys && forall k :: k in r ==> r[k] == a[k] - At(b, k)
  {
    map k | k in a :: a[k] - At(b, k)
  }

  function PlusTimes(a: Amounts, c: int, b: Amounts): (r: Amounts)
    ensures forall k :: At(r, k) == At(a, k) + c * At(b, k)
  {
    map k | k in a.Keys + b.Keys :: At(a, k) + c * At(b, k)
  }

  /** Pointwise maximum over the entries of b; an entry missing in a counts as
      zero, so the result may be above a negative entry of b. */
  function Upper(a: Amounts, b: Amounts): (r: Amounts)
    ensures forall k :: At(r, k) == if k in b then Larger(At(a, k), b[k]) else At(a, k)
  {
    map k | k in a.Keys + b.Keys :: if k in b then Larger(At(a, k), b[k]) else At(a, k)
  }

  /** Every positive entry is covered. */
  predicate FitsIn(a: Amounts, r: Amounts) {
    forall k :: k in a && a[k] > 0 ==> k in r && a[k] <= r[k]
  }

  /** Every positive entry is covered where the quota is defined. */
  predicate QuotaFitsIn(a: Amounts, r: Amounts) {
    forall k :: k in a && a[k] > 0 && k in r ==> a[k] <= r[k]
  }

  /** A positive entry that is above the quota. */
  predicate Exceeds(a: Amounts, r: Amounts, k: string) {
    At(a, k) > 0 && k in r && At(a, k) > r[k]
  }

  /** FitsIn depends on amounts alone: missing capacity is zero capacity. */
  lemma {:induction false} FitsInIsPointwise(a: Amounts, r: Amounts)
    ensures FitsIn(a, r) <==> forall k :: At(a, k) > 0 ==> At(a, k) <= At(r, k)
  {
    if forall k :: At(a, k) > 0 ==> At(a, k) <= At(r, k) {
      forall k | k in a && a[k] > 0
        ensures k in r && a[k] <= r[k]
      {
        assert At(a, k) > 0;
      }
    }
  }

  // ----- one more entry -----

  lemma {:induction false} ReadNext(r: Amounts, todo: set<string>, k: string)
    requires todo <= r.Keys && k in todo
    ensures r - (todo - {k}) == (r - todo)[k := r[k]] && k !in r - todo
  {
  }

  lemma {:induction false} PlusNext(a: Amounts, r: Amounts, k: string, v: int)
    requires k !in r
    ensures Plus(a, r[k := v]) == Plus(a, r)[k := At(Plus(a, r), k) + v]
  {
  }

  lemma {:induction false} MinusNext(a: Amounts, r: Amounts, k: string, v: int)
    requires k !in r
    ensures Minus(a, r[k := v]) == Minus(a, r)[k := At(Minus(a, r), k) - v]
  {
  }

  lemma {:induction false} PlusTimesNext(a: Amounts, c: int, r: Amounts, k: string, v: int)
    requires k !in r
    ensures PlusTimes(a, c, r[k := v]) == PlusTimes(a, c, r)[k := At(PlusTimes(a, c, r), k) + c * v]
  {
  }

  lemma {:induction false} UpperNext(a: Amounts, r: Amounts, k: string, v: int)
    requires k !in r
    ensures Upper(a, r[k := v]) == Upper(a, r)[k := Larger(At(Upper(a, r), k), v)]
  {
  }

  predicate Distinct(s: seq<string>) {
    forall i, j :: 0 <= i < j < |s| ==> s[i] != s[j]
  }

  class Weights {
    var m: Amounts

    constructor (r: Amounts)
      ensures m == r
    {
      m := r;
    }

    method Add(r: Amounts)
      modifies this
      ensures m == Plus(old(m), r)
    {
      var todo := r.Keys;
      while todo != {}
        invariant todo <= r.Keys
        invariant m == Plus(old(m), r - todo)
        decreases todo
      {
        var k :| k in todo;
        ReadNext(r, todo, k);
        PlusNext(old(m), r - todo, k, r[k]);
        if k !in m {
          m := m[k := 0];
        }
        m := m[k := m[k] + r[k]];
        todo := todo - {k};
      }
    }

    method Sub(r: Amounts)
      modifies this
      ensures m == Minus(old(m), r)
    {
      var todo := r.Keys;
      while todo != {}
        invariant todo <= r.Keys
        invariant m == Minus(old(m), r - todo)
        decreases todo
      {
        var k :| k in todo;
        ReadNext(r, todo, k);
        MinusNext(old(m), r - todo, k, r[k]);
        if k !in m {
          m := m[k := 0];
        }
        m := m[k := m[k] - r[k]];
        todo := todo - {k};
      }
    }

    method QuotaSub(r: Amounts)
      modifies this
      ensures m == QuotaMinus(old(m), r)
    {
      var todo := r.Keys;
      while todo != {}
        invariant todo <= r.Keys
        invariant m == QuotaMinus(old(m), r - todo)
        decreases todo
      {
        var k :| k in todo;
        todo := todo - {k};
        if k !in m {
          continue;
        }
        m := m[k := m[k] - r[k]];
      }
    }

    method AddProd(c: int, r: Amounts)
      modifies this
      ensures m == PlusTimes(old(m), c, r)
    {
      var todo := r.Keys;
      while todo != {}
        invariant todo <= r.Keys
        invariant m == PlusTimes(old(m), c, r - todo)
        decreases todo
      {
        var k :| k in todo;
        ReadNext(r, todo, k);
        PlusTimesNext(old(m), c, r - todo, k, r[k]);
        if k !in m {
          m := m[k := 0];
        }
        m := m[k := m[k] + c * r[k]];
        todo := todo - {k};
      }
    }

    method Max(r: Amounts)
      modifies this
      ensures m == Upper(old(m), r)
    {
      var todo := r.Keys;
      while todo != {}
        invariant todo <= r.Keys
        invariant m == Upper(old(m), r - todo)
        decreases todo
      {
        var k :| k in todo;
        ReadNext(r, todo, k);
        UpperNext(old(m), r - todo, k, r[k]);
        if k !in m {
          m := m[k := 0];
        }
        if m[k] < r[k] {
          m := m[k := r[k]];
        }
        todo := todo - {k};
      }
    }

    /** The verdict and the names of the resources that fall short, each once. */
    method Fits(r: Amounts) returns (fits: bool, insufficient: seq<string>)
      ensures fits == FitsIn(m, r) && (fits <==> insufficient == [])
      ensures Distinct(insufficient)
      ensures forall k :: k in insufficient <==> k in m && m[k] > 0 && !(k in r && m[k] <= r[k])
    {
      insufficient := [];
      var todo := m.Keys;
      while todo != {}
        invariant todo <= m.Keys && Distinct(insufficient)
        invariant forall k :: k in insufficient <==> k in m && k !in todo && m[k] > 0 && !(k in r && m[k] <= r[k])
        decreases todo
      {
        var k :| k in todo;
        todo := todo - {k};
        if m[k] <= 0 {
          continue;
        }
        if k !in r || m[k] > r[k] {
          insufficient := insufficient + [k];
        }
      }
      fits := insufficient == [];
      assert fits || insufficient[0] in insufficient;
    }

    method QuotaFits(r: Amounts) returns (fits: bool, insufficient: seq<string>)
      ensures fits == QuotaFitsIn(m, r) && (fits <==> insufficient == [])
      ensures Distinct(insufficient)
      ensures forall k :: k in insufficient <==> Exceeds(m, r, k)
    {
      insufficient := [];
      var todo := m.Keys;
      while todo != {}
        invariant todo <= m.Keys && Distinct(insufficient)
        invariant forall k :: k in insufficient <==> k in m && k !in todo && m[k] > 0 && k in r && m[k] > r[k]
        decreases todo
      {
        var k :| k in todo;
        todo := todo - {k};
        if m[k] <= 0 || k !in r {
          continue;
        }
        if m[k] > r[k] {
          insufficient := insufficient + [k];
        }
      }
      fits := insufficient == [];
      assert fits || insufficient[0] in insufficient;
    }

    method Clone() returns (r: Weights)
      ensures fresh(r) && r.m == m
    {
      r := new Weights(map[]);
      r.Add(m);
      assert Plus(map[], m) == m;
    }
  }

  /** The position of the first occurrence. */
  function FirstIndex(s: seq<string>, k: string): (i: nat)
    requires k in s
    ensures i < |s| && s[i] == k && forall j :: 0 <= j < i ==> s[j] != k
  {
    if s[0] == k then 0 else 1 + FirstIndex(s[1..], k)
  }

  /** Every name among the first i has its first occurrence there. */
  lemma {:induction false} FirstIndexBelow(s: seq<string>, i: nat)
    requires i <= |s|
    ensures forall k :: k in s[..i] ==> k in s && FirstIndex(s, k) < i
  {
  }

  /** Each name once, in the order of first occurrence. */
  method RemoveDuplicates(s: seq<string>) returns (result: seq<string>)
    ensures Distinct(result)
    ensures forall k :: k in result <==> k in s
    ensures forall i, j :: 0 <= i < j < |result| ==> FirstIndex(s, result[i]) < FirstIndex(s, result[j])
  {
    result := [];
    for i := 0 to |s|
      invariant Distinct(result)
      invariant forall k :: k in result <==> k in s[..i]
      invariant forall k :: k in result ==> k in s
      invariant forall a, b :: 0 <= a < b < |result| ==> FirstIndex(s, result[a]) < FirstIndex(s, result[b])
    {
      if s[i] !in result {
        FirstIndexBelow(s, i);
        assert FirstIndex(s, s[i]) == i;
        result := result + [s[i]];
      }
    }
  }

  // ----- requests and limits -----

  datatype Pair = Pair(requests: Amounts, limits: Amounts)

  const NOTHING: Pair := Pair(map[], map[])

  function PairAt(m: map<string, Pair>, ns: string): Pair {
    if ns in m then m[ns] else NOTHING
  }

  function PairPlus(a: Pair, b: Pair): Pair {
    Pair(Plus(a.requests, b.requests), Plus(a.limits, b.limits))
  }

  function PairQuotaMinus(a: Pair, b: Pair): Pair {
    Pair(QuotaMinus(a.requests, b.requests), QuotaMinus(a.limits, b.limits))
  }

  /** Both dimensions of a pair in one notation. */
  function Part(p: Pair, limits: bool): Amounts {
    if limits then p.limits else p.requests
  }

  predicate PairQuotaFits(a: Pair, r: Pair) {
    QuotaFitsIn(a.requests, r.requests) && QuotaFitsIn(a.limits, r.limits)
  }
}
