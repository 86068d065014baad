/**
 ResourceQuota accounting within one dispatch cycle.
 */
module Quotas {
  import opened Options
  import opened Sums
  import W = Weights
  import opened Listings

  const LIMITS: string := "limits."
  const REQUESTS: string := "requests."

  // ----- reading a ResourceQuota -----

  /** A key that names a resource directly. */
  predicate Bare(k: string) {
    !(LIMITS <= k) && !(REQUESTS <= k)
  }

  function Entry(r: W.Amounts, k: string): Option<int> {
    if k in r then Some(r[k]) else None
  }

  function Least(a: Option<int>, b: Option<int>): Option<int> {
    if a.None? then b
    else if b.None? || a.value < b.value then a
    else b
  }

  /** The bound on requests of t: the least of the entries under its own name
      and under its name prefixed with "requests.". */
  function RequestBound(r: W.Amounts, t: string): Option<int> {
    Least(if Bare(t) then Entry(r, t) else None, Entry(r, REQUESTS + t))
  }

  function LimitBound(r: W.Amounts, t: string): Option<int> {
    Entry(r, LIMITS + t)
  }

  /** The pair meant by the entries of a quota, in whatever order they are read. */
  ghost predicate Means(p: W.Pair, r: W.Amounts) {
    && (forall t :: Entry(p.requests, t) == RequestBound(r, t))
    && (forall t :: Entry(p.limits, t) == LimitBound(r, t))
  }

  lemma {:induction false} MeaningIsUnique(p: W.Pair, q: W.Pair, r: W.Amounts)
    requires Means(p, r) && Means(q, r)
    ensures p == q
  {
    forall t
      ensures Entry(p.requests, t) == Entry(q.requests, t) && Entry(p.limits, t) == Entry(q.limits, t)
    {
    }
    SameEntries(p.requests, q.requests);
    SameEntries(p.limits, q.limits);
  }

  lemma {:induction false} SameEntries(a: W.Amounts, b: W.Amounts)
    requires forall t :: Entry(a, t) == Entry(b, t)
    ensures a == b
  {
    forall t
      ensures t in a <==> t in b
      ensures t in a ==> a[t] == b[t]
    {
      assert Entry(a, t) == Entry(b, t);
    }
  }

  /** Prefixed names are told apart from each other and from bare names. */
  lemma {:induction false} Prefixes(t: string, t0: string)
    ensures LIMITS + t == LIMITS + t0 <==> t == t0
    ensures REQUESTS + t == REQUESTS + t0 <==> t == t0
    ensures LIMITS + t != REQUESTS + t0
    ensures !Bare(LIMITS + t) && !Bare(REQUESTS + t)
    ensures (LIMITS + t)[|LIMITS|..] == t && (REQUESTS + t)[|REQUESTS|..] == t
    ensures LIMITS <= LIMITS + t && REQUESTS <= REQUESTS + t && !(LIMITS <= REQUESTS + t)
  {
    assert (REQUESTS + t)[0] == 'r' && (REQUESTS + t0)[0] == 'r' && LIMITS[0] == 'l' && (LIMITS + t)[0] == 'l';
    assert (LIMITS + t)[|LIMITS|..] == t && (LIMITS + t0)[|LIMITS|..] == t0;
    assert (REQUESTS + t)[|REQUESTS|..] == t && (REQUESTS + t0)[|REQUESTS|..] == t0;
  }

  lemma {:induction false} LimitBoundAfter(r: W.Amounts, t0: string, v: int, t: string)
    ensures RequestBound(r[LIMITS + t0 := v], t) == RequestBound(r, t)
    ensures LimitBound(r[LIMITS + t0 := v], t) == if t == t0 then Some(v) else LimitBound(r, t)
  {
    Prefixes(t, t0);
    Prefixes(t0, t);
  }

  lemma {:induction false} RequestBoundAfter(r: W.Amounts, k: string, t0: string, v: int, t: string)
    requires k !in r && ((Bare(k) && t0 == k) || k == REQUESTS + t0)
    ensures RequestBound(r[k := v], t) == if t == t0 then Least(RequestBound(r, t), Some(v)) else RequestBound(r, t)
    ensures LimitBound(r[k := v], t) == LimitBound(r, t)
  {
    Prefixes(t, t0);
    Prefixes(t0, t);
  }

  lemma {:induction false} LimitRead(p: W.Pair, r: W.Amounts, t0: string, v: int)
    requires Means(p, r) && LIMITS + t0 !in r
    ensures t0 !in p.limits
    ensures Means(p.(limits := p.limits[t0 := v]), r[LIMITS + t0 := v])
  {
    var r' := r[LIMITS + t0 := v];
    var limits' := p.limits[t0 := v];
    assert Entry(p.limits, t0) == LimitBound(r, t0);
    forall t
      ensures Entry(limits', t) == LimitBound(r', t) && Entry(p.requests, t) == RequestBound(r', t)
    {
      LimitBoundAfter(r, t0, v, t);
      assert Entry(p.limits, t) == LimitBound(r, t) && Entry(p.requests, t) == RequestBound(r, t);
    }
  }

  lemma {:induction false} RequestRead(p: W.Pair, r: W.Amounts, k: string, t0: string, v: int)
    requires Means(p, r) && k !in r
    requires (Bare(k) && t0 == k) || k == REQUESTS + t0
    ensures Means(if t0 in p.requests && p.requests[t0] <= v then p else p.(requests := p.requests[t0 := v]), r[k := v])
  {
    var requests' := if t0 in p.requests && p.requests[t0] <= v then p.requests else p.requests[t0 := v];
    forall t
      ensures Entry(requests', t) == RequestBound(r[k := v], t) && Entry(p.limits, t) == LimitBound(r[k := v], t)
    {
      RequestBoundAfter(r, k, t0, v, t);
      assert Entry(p.limits, t) == LimitBound(r, t) && Entry(p.requests, t) == RequestBound(r, t);
    }
  }

  /** Spelled out: a quota bounds the limits of t by its entry limits.t, and the
      requests of t by the smaller of its entries requests.t and, unless t itself
      has such a prefix, t. */
  lemma {:induction false} BoundsOf(p: W.Pair, r: W.Amounts, t: string)
    requires Means(p, r)
    ensures t in p.limits <==> "limits." + t in r
    ensures t in p.limits ==> p.limits[t] == r["limits." + t]
    ensures var bare := t in r && !("limits." <= t) && !("requests." <= t);
      && (t in p.requests <==> bare || "requests." + t in r)
      && (bare ==> p.requests[t] <= r[t])
      && ("requests." + t in r ==> p.requests[t] <= r["requests." + t])
      && (t in p.requests ==> (bare && p.requests[t] == r[t]) || ("requests." + t in r && p.requests[t] == r["requests." + t]))
  {
    assert Entry(p.limits, t) == LimitBound(r, t) && Entry(p.requests, t) == RequestBound(r, t);
  }

  /** getWeightsPairForResourceList. */
  method PairOfResourceList(r: W.Amounts) returns (p: W.Pair)
    ensures Means(p, r)
  {
    var requests: W.Amounts := map[];
    var limits: W.Amounts := map[];
    var todo := r.Keys;
    while todo != {}
      invariant todo <= r.Keys
      invariant Means(W.Pair(requests, limits), r - todo)
      decreases todo
    {
      ghost var _ := Member(todo);
      var k :| k in todo;
      W.ReadNext(r, todo, k);
      if LIMITS <= k {
        var trimmed := k[|LIMITS|..];
        assert k == LIMITS + trimmed;
        LimitRead(W.Pair(requests, limits), r - todo, trimmed, r[k]);
        if trimmed !in limits {
          limits := limits[trimmed := r[k]];
        }
      } else {
        var t := if REQUESTS <= k then k[|REQUESTS|..] else k;
        assert REQUESTS <= k ==> k == REQUESTS + t;
        RequestRead(W.Pair(requests, limits), r - todo, k, t, r[k]);
        if t !in requests || requests[t] > r[k] {
          requests := requests[t := r[k]];
        }
      }
      todo := todo - {k};
    }
    assert r - todo == r;
    p := W.Pair(requests, limits);
  }

  /** The resource a key is about. */
  function Trimmed(k: string): string {
    if LIMITS <= k then k[|LIMITS|..] else if REQUESTS <= k then k[|REQUESTS|..] else k
  }

  /** The pair meant by a resource list, as a function. */
  function Meaning(r: W.Amounts): (p: W.Pair)
    ensures Means(p, r)
  {
    var names := set k | k in r :: Trimmed(k);
    var p := W.Pair(
      map t | t in names && RequestBound(r, t).Some? :: RequestBound(r, t).value,
      map t | t in names && LimitBound(r, t).Some? :: LimitBound(r, t).value);
    assert Means(p, r) by {
      forall t
        ensures RequestBound(r, t).Some? || LimitBound(r, t).Some? ==> t in names
      {
        Prefixes(t, t);
        if LIMITS + t in r { assert Trimmed(LIMITS + t) == t; }
        if REQUESTS + t in r { assert Trimmed(REQUESTS + t) == t; }
        if Bare(t) && t in r { assert Trimmed(t) == t; }
      }
    }
    p
  }

  // ----- the tracker -----

  /** A tracked quota: its bounds, what the cluster reports as used, and what
      this cycle has granted so far. */
  datatype QuotaState = QuotaState(quota: W.Pair, used: W.Pair, granted: W.Pair)

  datatype Tracker = Tracker(state: map<string, QuotaState>, unadmitted: map<string, W.Pair>)

  function Track(t: Tracker, rq: ResourceQuota): Tracker {
    if rq.namespace in t.state then t
    else t.(state := t.state[rq.namespace := QuotaState(Meaning(rq.hard), Meaning(rq.used), W.NOTHING)])
  }

  /** What is left of a tracked quota. */
  function Headroom(t: Tracker, ns: string): W.Pair
    requires ns in t.state
  {
    var s := t.state[ns];
    var left := W.PairQuotaMinus(W.PairQuotaMinus(s.quota, s.used), s.granted);
    if ns in t.unadmitted then W.PairQuotaMinus(left, t.unadmitted[ns]) else left
  }

  /** The ask fits exactly if, for requests and limits alike, every positive
      amount of a resource that the quota defines stays within the quota on top
      of all that is used, unadmitted and granted. */
  lemma {:induction false} AdmissionIsExact(t: Tracker, ns: string, ask: W.Pair)
    requires ns in t.state
    ensures W.PairQuotaFits(ask, Headroom(t, ns)) <==>
      forall limits: bool, k: string :: W.At(W.Part(ask, limits), k) > 0 && k in W.Part(t.state[ns].quota, limits) ==>
        W.At(W.Part(t.state[ns].used, limits), k) + W.At(W.Part(W.PairAt(t.unadmitted, ns), limits), k)
          + W.At(W.Part(t.state[ns].granted, limits), k) + W.At(W.Part(ask, limits), k)
        <= W.Part(t.state[ns].quota, limits)[k]
  {
    var room := Headroom(t, ns);
    forall limits: bool, k: string
      ensures k in W.Part(room, limits) <==> k in W.Part(t.state[ns].quota, limits)
      ensures k in W.Part(room, limits) ==>
        W.Part(room, limits)[k] == W.Part(t.state[ns].quota, limits)[k] - W.At(W.Part(t.state[ns].used, limits), k) - W.At(W.Part(t.state[ns].granted, limits), k) - W.At(W.Part(W.PairAt(t.unadmitted, ns), limits), k)
    {
    }
    if W.PairQuotaFits(ask, room) {
      assert forall limits: bool :: W.QuotaFitsIn(W.Part(ask, limits), W.Part(room, limits));
    } else {
      var limits := W.QuotaFitsIn(ask.requests, room.requests);
      assert !W.QuotaFitsIn(W.Part(ask, limits), W.Part(room, limits));
      var k :| k in W.Part(ask, limits) && W.Part(ask, limits)[k] > 0 && k in W.Part(room, limits) && W.Part(ask, limits)[k] > W.Part(room, limits)[k];
      assert W.At(W.Part(ask, limits), k) > 0;
    }
  }

  function Allocated(t: Tracker, ns: string, ask: W.Pair): Tracker {
    if ns in t.state then
      t.(state := t.state[ns := t.state[ns].(granted := W.PairPlus(t.state[ns].granted, ask))])
    else t
  }

  class QuotaTracker {
    var state: map<string, QuotaState>
    var unadmitted: map<string, W.Pair>

    function Value(): Tracker
      reads this
    {
      Tracker(state, unadmitted)
    }

    constructor ()
      ensures Value() == Tracker(map[], map[])
    {
      state, unadmitted := map[], map[];
    }

    method Init(weightsPairMap: map<string, W.Pair>)
      modifies this
      ensures Value() == old(Value()).(unadmitted := weightsPairMap)
    {
      unadmitted := weightsPairMap;
    }

    method StartTracking(rq: ResourceQuota)
      modifies this
      ensures Value() == Track(old(Value()), rq)
    {
      if rq.namespace !in state {
        var quota := PairOfResourceList(rq.hard);
        var used := PairOfResourceList(rq.used);
        MeaningIsUnique(quota, Meaning(rq.hard), rq.hard);
        MeaningIsUnique(used, Meaning(rq.used), rq.used);
        state := state[rq.namespace := QuotaState(quota, used, W.Pair(map[], map[]))];
      }
    }

    /** Works on copies: quota minus used minus granted minus unadmitted. */
    method Remaining(ns: string) returns (left: W.Pair)
      requires ns in state
      ensures left == Headroom(Value(), ns)
    {
      var s := state[ns];
      var requests := new W.Weights(s.quota.requests);
      var limits := new W.Weights(s.quota.limits);
      requests.QuotaSub(s.used.requests);
      limits.QuotaSub(s.used.limits);
      requests.QuotaSub(s.granted.requests);
      limits.QuotaSub(s.granted.limits);
      if ns in unadmitted {
        requests.QuotaSub(unadmitted[ns].requests);
        limits.QuotaSub(unadmitted[ns].limits);
      }
      left := W.Pair(requests.m, limits.m);
    }

    /** Starts tracking the quota if it is new, and leaves every tracked value
        as it is. */
    method Satisfies(ask: W.Pair, rq: ResourceQuota) returns (fits: bool, insufficient: seq<string>)
      modifies this
      ensures Value() == Track(old(Value()), rq)
      ensures forall ns :: ns in old(state) ==> ns in state && state[ns] == old(state)[ns]
      ensures fits == W.PairQuotaFits(ask, Headroom(Value(), rq.namespace))
      ensures W.Distinct(insufficient) && (fits <==> insufficient == [])
      ensures var left := Headroom(Value(), rq.namespace);
        forall k :: k in insufficient <==> W.Exceeds(ask.requests, left.requests, k) || W.Exceeds(ask.limits, left.limits, k)
    {
      StartTracking(rq);
      var left := Remaining(rq.namespace);
      var requests := new W.Weights(ask.requests);
      var limits := new W.Weights(ask.limits);
      var requestsFit, requestsShort := requests.QuotaFits(left.requests);
      var limitsFit, limitsShort := limits.QuotaFits(left.limits);
      fits := requestsFit && limitsFit;
      if fits {
        insufficient := [];
      } else {
        assert (requestsShort + limitsShort)[0] in requestsShort + limitsShort;
        insufficient := W.RemoveDuplicates(requestsShort + limitsShort);
      }
    }

    /** Fails, changing nothing, if the namespace is not tracked or the ask was
        never computed. */
    method Allocate(ns: string, ask: Option<W.Pair>) returns (ok: bool)
      modifies this
      ensures ok == (ns in old(state) && ask.Some?)
      ensures Value() == if ok then Allocated(old(Value()), ns, ask.value) else old(Value())
    {
      ok := false;
      if ns in state && ask.Some? {
        var requests := new W.Weights(state[ns].granted.requests);
        var limits := new W.Weights(state[ns].granted.limits);
        requests.Add(ask.value.requests);
        limits.Add(ask.value.limits);
        state := state[ns := state[ns].(granted := W.Pair(requests.m, limits.m))];
        ok := true;
      }
    }
  }
}
