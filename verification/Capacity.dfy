/**
 What the selection loop does to cluster capacity: conservation, safety, and
 independence from lower priorities and from the order of the listing.
 */
module Capacity {
  import opened Options
  import opened Lifecycle
  import opened Sums
  import W = Weights
  import opened Listings
  import opened Ordering
  import opened Queue
  import opened Quotas
  import opened Selection

  /** What an AppWrapper takes from level p: its request if its own priority is
      p or higher. */
  function AskFrom(p: int, k: string): Listed -> int {
    (aw: Listed) => if aw.priority >= p then W.At(Requests(aw), k) else 0
  }

  /** The AppWrappers selected since st. */
  function New(st: Progress, r: Progress): seq<Listed>
    requires |st.selected| <= |r.selected|
  {
    r.selected[|st.selected|..]
  }

  lemma {:induction false} SelectionGrows(ctx: Context, st: Progress, queue: seq<Listed>)
    requires Covered(st.available, queue)
    ensures var r := ConsiderAll(ctx, st, queue);
      && st.selected <= r.selected
      && (forall x :: x in New(st, r) ==> x in queue)
  {
    if queue != [] {
      SelectionGrows(ctx, st, queue[..|queue| - 1]);
      var m := ConsiderAll(ctx, st, queue[..|queue| - 1]);
      var x := queue[|queue| - 1];
      assert x.priority in m.available;
      var r := Consider(ctx, m, x);
      if r.selected != m.selected {
        assert New(st, r) == New(st, m) + [x];
      }
    }
  }

  // ----- conservation -----

  /** At every point of the loop (a prefix of the queue), what is left of each
      level is what it opened with minus the requests selected at that priority
      or a higher one. */
  lemma {:induction false} Conservation(ctx: Context, st: Progress, queue: seq<Listed>, p: int, k: string)
    requires Covered(st.available, queue) && p in st.available
    ensures var r := ConsiderAll(ctx, st, queue);
      && st.selected <= r.selected
      && W.At(r.available[p], k) == W.At(st.available[p], k) - Sum(New(st, r), AskFrom(p, k))
  {
    SelectionGrows(ctx, st, queue);
    var r := ConsiderAll(ctx, st, queue);
    if queue == [] {
      assert New(st, r) == [];
    } else {
      var init := queue[..|queue| - 1];
      var x := queue[|queue| - 1];
      SelectionGrows(ctx, st, init);
      Conservation(ctx, st, init, p, k);
      var m := ConsiderAll(ctx, st, init);
      assert x.priority in m.available;
      if r.selected != m.selected {
        assert New(st, r) == New(st, m) + [x];
        SumSnoc(New(st, m), x, AskFrom(p, k));
      }
    }
  }

  /** For one cluster: capacity = left + reserved + selected, at every priority
      level and for every resource. */
  lemma {:induction false} CapacityIsConserved(ctx: Context, aws: seq<Listed>, cluster: Cluster, st: Progress, st': Progress, p: int, k: string)
    requires ClusterStep(ctx, aws, cluster, st, st') && p in st'.available
    ensures st.selected <= st'.selected
    ensures W.At(cluster.capacity, k)
      == W.At(st'.available[p], k) + Sum(aws, ReservedFrom(ctx, cluster.name, p, k)) + Sum(New(st, st'), AskFrom(p, k))
  {
    var available, queue :| ClusterStepOn(ctx, aws, cluster, st, available, queue, st');
    Conservation(ctx, st.(available := available), queue, p, k);
  }

  // ----- safety -----

  predicate PositiveAt(selected: seq<Listed>, p: int, k: string) {
    exists i :: 0 <= i < |selected| && selected[i].priority == p && W.At(Requests(selected[i]), k) > 0
  }

  lemma {:induction false} NeverOverdrawn(ctx: Context, st: Progress, queue: seq<Listed>, p: int, k: string)
    requires Covered(st.available, queue) && Sorted(queue) && p in st.available
    ensures var r := ConsiderAll(ctx, st, queue);
      st.selected <= r.selected && (PositiveAt(New(st, r), p, k) ==> W.At(r.available[p], k) >= 0)
  {
    SelectionGrows(ctx, st, queue);
    if queue != [] {
      var init := queue[..|queue| - 1];
      SelectionGrows(ctx, st, init);
      NeverOverdrawn(ctx, st, init, p, k);
      var m := ConsiderAll(ctx, st, init);
      assert queue == init + [queue[|queue| - 1]];
      assert queue[|queue| - 1].priority in m.available;
      StepIsSafe(ctx, st, m, queue[|queue| - 1], init, p, k);
    } else {
      assert New(st, st) == [];
    }
  }

  lemma {:induction false} StepIsSafe(ctx: Context, st: Progress, m: Progress, x: Listed, init: seq<Listed>, p: int, k: string)
    requires x.priority in m.available && p in m.available && st.selected <= m.selected
    requires Sorted(init + [x]) && forall y :: y in New(st, m) ==> y in init
    requires PositiveAt(New(st, m), p, k) ==> W.At(m.available[p], k) >= 0
    ensures var r := Consider(ctx, m, x);
      st.selected <= r.selected && (PositiveAt(New(st, r), p, k) ==> W.At(r.available[p], k) >= 0)
  {
    var r := Consider(ctx, m, x);
    if r.selected != m.selected {
      assert New(st, r) == New(st, m) + [x];
      if PositiveAt(New(st, r), p, k) {
        LastSelectionIsSafe(ctx, m, x, New(st, m), init, p, k);
      }
    }
  }

  lemma {:induction false} LastSelectionIsSafe(ctx: Context, m: Progress, x: Listed, chosen: seq<Listed>, init: seq<Listed>, p: int, k: string)
    requires x.priority in m.available && p in m.available
    requires Consider(ctx, m, x).selected != m.selected
    requires Sorted(init + [x]) && forall y :: y in chosen ==> y in init
    requires PositiveAt(chosen, p, k) ==> W.At(m.available[p], k) >= 0
    requires PositiveAt(chosen + [x], p, k)
    ensures W.At(Consider(ctx, m, x).available[p], k) >= 0
  {
    var queue := init + [x];
    W.FitsInIsPointwise(Requests(x), m.available[x.priority]);
    if !(x.priority == p && W.At(Requests(x), k) > 0) {
      var i :| 0 <= i < |chosen + [x]| && (chosen + [x])[i].priority == p && W.At(Requests((chosen + [x])[i]), k) > 0;
      assert chosen[i] in init;
      var j :| 0 <= j < |init| && init[j] == chosen[i];
      assert Before(queue[j], queue[|init|]);
    }
  }

  /** At the end no level is overdrawn in a resource that some AppWrapper
      selected at that level asked for, whatever the signs of other requests. */
  lemma {:induction false} CapacityIsNotExceeded(ctx: Context, aws: seq<Listed>, cluster: Cluster, st: Progress, st': Progress, p: int, k: string)
    requires ClusterStep(ctx, aws, cluster, st, st') && p in st'.available
    ensures st.selected <= st'.selected
    ensures PositiveAt(New(st, st'), p, k) ==>
      Sum(aws, ReservedFrom(ctx, cluster.name, p, k)) + Sum(New(st, st'), AskFrom(p, k)) <= W.At(cluster.capacity, k)
  {
    var available, queue :| ClusterStepOn(ctx, aws, cluster, st, available, queue, st');
    NeverOverdrawn(ctx, st.(available := available), queue, p, k);
    CapacityIsConserved(ctx, aws, cluster, st, st', p, k);
  }

  // ----- independence -----

  ghost predicate SameAmounts(a: W.Amounts, b: W.Amounts) {
    forall k :: W.At(a, k) == W.At(b, k)
  }

  /** Equal amounts at the levels of ps. */
  ghost predicate Agree(ps: set<int>, a: map<int, W.Amounts>, b: map<int, W.Amounts>) {
    forall p :: p in ps ==> p in a && p in b && SameAmounts(a[p], b[p])
  }

  /** Selections from agreeing levels make the same choices. */
  lemma {:induction false} AgreementIsKept(ctx: Context, ps: set<int>, st1: Progress, st2: Progress, queue: seq<Listed>)
    requires Covered(st1.available, queue) && Covered(st2.available, queue)
    requires forall i :: 0 <= i < |queue| ==> queue[i].priority in ps
    requires Agree(ps, st1.available, st2.available)
    requires st1.tracker == st2.tracker && st1.selected == st2.selected
    ensures var r1, r2 := ConsiderAll(ctx, st1, queue), ConsiderAll(ctx, st2, queue);
      && Agree(ps, r1.available, r2.available)
      && r1.tracker == r2.tracker && r1.selected == r2.selected
      && (st1.decisions == st2.decisions ==> r1.decisions == r2.decisions)
  {
    if queue != [] {
      var init := queue[..|queue| - 1];
      AgreementIsKept(ctx, ps, st1, st2, init);
      assert queue[|queue| - 1].priority in ps;
      TurnsAgree(ctx, ps, ConsiderAll(ctx, st1, init), ConsiderAll(ctx, st2, init), queue[|queue| - 1]);
    }
  }

  lemma {:induction false} TurnsAgree(ctx: Context, ps: set<int>, m1: Progress, m2: Progress, x: Listed)
    requires x.priority in ps && Agree(ps, m1.available, m2.available)
    requires m1.tracker == m2.tracker && m1.selected == m2.selected
    ensures var r1, r2 := Consider(ctx, m1, x), Consider(ctx, m2, x);
      && Agree(ps, r1.available, r2.available)
      && r1.tracker == r2.tracker && r1.selected == r2.selected
      && (m1.decisions == m2.decisions ==> r1.decisions == r2.decisions)
  {
    assert SameAmounts(m1.available[x.priority], m2.available[x.priority]);
    SameFit(Requests(x), m1.available[x.priority], m2.available[x.priority]);
    DebitKeepsAgreement(ps, m1.available, m2.available, x.priority, Requests(x));
  }

  lemma {:induction false} SameFit(request: W.Amounts, a: W.Amounts, b: W.Amounts)
    requires SameAmounts(a, b)
    ensures W.FitsIn(request, a) == W.FitsIn(request, b)
  {
    W.FitsInIsPointwise(request, a);
    W.FitsInIsPointwise(request, b);
  }

  lemma {:induction false} DebitKeepsAgreement(ps: set<int>, a: map<int, W.Amounts>, b: map<int, W.Amounts>, p: int, request: W.Amounts)
    requires Agree(ps, a, b)
    ensures Agree(ps, Debit(a, p, request), Debit(b, p, request))
  {
    forall q | q in ps
      ensures q in Debit(a, p, request) && q in Debit(b, p, request) && SameAmounts(Debit(a, p, request)[q], Debit(b, p, request)[q])
    {
      assert SameAmounts(a[q], b[q]);
      forall k
        ensures W.At(Debit(a, p, request)[q], k) == W.At(Debit(b, p, request)[q], k)
      {
        assert W.At(a[q], k) == W.At(b[q], k);
      }
    }
  }

  lemma {:induction false} CoveredParts(available: map<int, W.Amounts>, a: seq<Listed>, b: seq<Listed>)
    requires Covered(available, a + b)
    ensures Covered(available, a) && Covered(available, b)
  {
    assert forall i :: 0 <= i < |a| ==> (a + b)[i] == a[i];
    assert forall i :: 0 <= i < |b| ==> (a + b)[|a| + i] == b[i];
  }

  lemma {:induction false} ConsiderAllConcat(ctx: Context, st: Progress, a: seq<Listed>, b: seq<Listed>)
    requires Covered(st.available, a + b)
    ensures Covered(st.available, a)
    ensures Covered(ConsiderAll(ctx, st, a).available, b)
    ensures ConsiderAll(ctx, st, a + b) == ConsiderAll(ctx, ConsiderAll(ctx, st, a), b)
    decreases |b|
  {
    CoveredParts(st.available, a, b);
    if b == [] {
      assert a + b == a;
    } else {
      var rest := b[..|b| - 1];
      assert (a + b)[..|a + b| - 1] == a + rest && (a + b)[|a + b| - 1] == b[|b| - 1];
      ConsiderAllConcat(ctx, st, a, rest);
    }
  }

  lemma {:induction false} AtLeastConcat(a: seq<Listed>, b: seq<Listed>, p: int)
    requires forall x :: x in b ==> x.priority < p
    ensures AtLeast(a + b, p) == AtLeast(a, p)
    decreases |b|
  {
    if b == [] {
      assert a + b == a;
    } else {
      assert (a + b)[..|a + b| - 1] == a + b[..|b| - 1];
      assert b[|b| - 1] in b && (a + b)[|a + b| - 1] == b[|b| - 1];
      AtLeastConcat(a, b[..|b| - 1], p);
    }
  }

  /** The choices at priority p and above are made before lower priorities come
      into play. */
  lemma {:induction false} HighPrioritiesComeFirst(ctx: Context, st: Progress, queue: seq<Listed>, p: int)
    requires Covered(st.available, queue) && Sorted(queue)
    ensures var high := AtLeast(queue, p);
      && high <= queue && Covered(st.available, high)
      && AtLeast(ConsiderAll(ctx, st, queue).selected, p) == AtLeast(ConsiderAll(ctx, st, high).selected, p)
  {
    var high := AtLeast(queue, p);
    AtLeastIsPrefix(queue, p);
    var low := queue[|high|..];
    assert queue == high + low;
    ConsiderAllConcat(ctx, st, high, low);
    LowPrioritiesAddBelow(ctx, ConsiderAll(ctx, st, high), low, p);
  }

  lemma {:induction false} LowPrioritiesAddBelow(ctx: Context, m: Progress, low: seq<Listed>, p: int)
    requires Covered(m.available, low) && forall i :: 0 <= i < |low| ==> low[i].priority < p
    ensures AtLeast(ConsiderAll(ctx, m, low).selected, p) == AtLeast(m.selected, p)
  {
    SelectionGrows(ctx, m, low);
    var r := ConsiderAll(ctx, m, low);
    assert r.selected == m.selected + New(m, r);
    AtLeastConcat(m.selected, New(m, r), p);
  }

  lemma {:induction false} LowPrioritiesReserveBelow(ctx: Context, aws: seq<Listed>, cluster: string, p: int, q: int, k: string)
    requires q >= p
    ensures Sum(AtLeast(aws, p), ReservedFrom(ctx, cluster, q, k)) == Sum(aws, ReservedFrom(ctx, cluster, q, k))
  {
    if aws != [] {
      var init := aws[..|aws| - 1];
      LowPrioritiesReserveBelow(ctx, init, cluster, p, q, k);
      if aws[|aws| - 1].priority >= p {
        SumSnoc(AtLeast(init, p), aws[|aws| - 1], ReservedFrom(ctx, cluster, q, k));
      }
    }
  }

  lemma {:induction false} SamePriorities(ctx: Context, aws: seq<Listed>, aws': seq<Listed>, cluster: string, p: int, q: int)
    requires multiset(AtLeast(aws, p)) == multiset(AtLeast(aws', p))
    requires q >= p && q in KnownLevels(ctx, aws, cluster)
    ensures q in KnownLevels(ctx, aws', cluster)
  {
    var i :| 0 <= i < |aws| && Considered(ctx, aws[i], cluster) && aws[i].priority == q;
    AtLeastMembers(aws, p);
    AtLeastMembers(aws', p);
    assert aws[i] in AtLeast(aws, p);
    SameMembers(AtLeast(aws, p), AtLeast(aws', p));
    assert aws[i] in aws';
    var j :| 0 <= j < |aws'| && aws'[j] == aws[i];
  }

  lemma {:induction false} SameOpenings(ctx: Context, aws: seq<Listed>, aws': seq<Listed>, cluster: Cluster, p: int, a: map<int, W.Amounts>, b: map<int, W.Amounts>)
    requires multiset(AtLeast(aws, p)) == multiset(AtLeast(aws', p))
    requires Opening(ctx, aws, cluster, a) && Opening(ctx, aws', cluster, b)
    ensures Agree((set q | q in a.Keys && q >= p), a, b)
  {
    forall q | q in a && q >= p
      ensures q in b && SameAmounts(a[q], b[q])
    {
      SamePriorities(ctx, aws, aws', cluster.name, p, q);
      forall k
        ensures W.At(a[q], k) == W.At(b[q], k)
      {
        LowPrioritiesReserveBelow(ctx, aws, cluster.name, p, q, k);
        LowPrioritiesReserveBelow(ctx, aws', cluster.name, p, q, k);
        SumPermutation(AtLeast(aws, p), AtLeast(aws', p), ReservedFrom(ctx, cluster.name, q, k));
      }
    }
  }

  lemma {:induction false} SameHighQueues(ctx: Context, aws: seq<Listed>, aws': seq<Listed>, cluster: Cluster, p: int, queue: seq<Listed>, queue': seq<Listed>)
    requires multiset(AtLeast(aws, p)) == multiset(AtLeast(aws', p))
    requires QueueOf(ctx, aws, cluster, queue) && QueueOf(ctx, aws', cluster, queue')
    ensures AtLeast(queue, p) == AtLeast(queue', p)
  {
    AtLeastMembers(aws, p);
    AtLeastMembers(aws', p);
    AtLeastMembers(queue, p);
    AtLeastMembers(queue', p);
    CandidateMembers(ctx, aws, cluster.name);
    CandidateMembers(ctx, aws', cluster.name);
    forall x
      ensures multiset(AtLeast(queue, p))[x] == multiset(AtLeast(queue', p))[x]
    {
      assert multiset(queue)[x] == multiset(Candidates(ctx, aws, cluster.name))[x];
      assert multiset(queue')[x] == multiset(Candidates(ctx, aws', cluster.name))[x];
      assert x.priority >= p ==> multiset(AtLeast(aws, p))[x] == multiset(AtLeast(aws', p))[x];
    }
    assert multiset(AtLeast(queue, p)) == multiset(AtLeast(queue', p));
    AtLeastIsPrefix(queue, p);
    AtLeastIsPrefix(queue', p);
    SortedIsUnique(AtLeast(queue, p), AtLeast(queue', p));
  }

  /** Priority non-interference: if two listings hold the same AppWrappers of
      priority p and above, in whatever order, then the same AppWrappers of
      priority p and above are selected, in the same order, whatever else is
      queued or reserved below. */
  lemma {:induction false} PriorityNonInterference(ctx: Context, aws: seq<Listed>, aws': seq<Listed>, cluster: Cluster, p: int,
                                st: Progress, r: Progress, r': Progress)
    requires multiset(AtLeast(aws, p)) == multiset(AtLeast(aws', p))
    requires ClusterStep(ctx, aws, cluster, st, r) && ClusterStep(ctx, aws', cluster, st, r')
    ensures AtLeast(r.selected, p) == AtLeast(r'.selected, p)
  {
    var a, queue :| ClusterStepOn(ctx, aws, cluster, st, a, queue, r);
    var b, queue' :| ClusterStepOn(ctx, aws', cluster, st, b, queue', r');
    SameOpenings(ctx, aws, aws', cluster, p, a, b);
    SameHighQueues(ctx, aws, aws', cluster, p, queue, queue');
    HighPrioritiesComeFirst(ctx, st.(available := a), queue, p);
    HighPrioritiesComeFirst(ctx, st.(available := b), queue', p);
    var high := AtLeast(queue, p);
    AtLeastMembers(queue, p);
    var ps := set q | q in a.Keys && q >= p;
    forall i | 0 <= i < |high|
      ensures high[i].priority in ps
    {
      assert high[i] in high;
      assert high[i].priority in a;
    }
    AgreementIsKept(ctx, ps, st.(available := a), st.(available := b), high);
  }

  lemma {:induction false} AtLeastTwice(q: seq<Listed>, p: int)
    ensures AtLeast(AtLeast(q, p), p) == AtLeast(q, p)
  {
    if q != [] {
      var rest := AtLeast(q[..|q| - 1], p);
      AtLeastTwice(q[..|q| - 1], p);
      assert (rest + [q[|q| - 1]])[..|rest|] == rest;
    }
  }

  /** In particular, lower priorities can be deleted altogether. */
  lemma {:induction false} LowPrioritiesCanBeDeleted(ctx: Context, aws: seq<Listed>, cluster: Cluster, p: int, st: Progress, r: Progress, r': Progress)
    requires ClusterStep(ctx, aws, cluster, st, r) && ClusterStep(ctx, AtLeast(aws, p), cluster, st, r')
    ensures AtLeast(r.selected, p) == AtLeast(r'.selected, p)
  {
    AtLeastTwice(aws, p);
    PriorityNonInterference(ctx, aws, AtLeast(aws, p), cluster, p, st, r, r');
  }

  /** A priority below every listed one. */
  function Floor(q: seq<Listed>): int {
    if q == [] then 0
    else
      var rest := Floor(q[..|q| - 1]);
      if q[|q| - 1].priority < rest then q[|q| - 1].priority else rest
  }

  lemma {:induction false} EverythingAtLeast(q: seq<Listed>, p: int)
    requires p <= Floor(q)
    ensures AtLeast(q, p) == q && forall x :: x in q ==> x.priority >= p
  {
    if q != [] {
      EverythingAtLeast(q[..|q| - 1], p);
      assert q == q[..|q| - 1] + [q[|q| - 1]];
    }
  }

  lemma {:induction false} SameQueues(ctx: Context, aws: seq<Listed>, aws': seq<Listed>, cluster: Cluster, queue: seq<Listed>, queue': seq<Listed>)
    requires multiset(aws) == multiset(aws')
    requires QueueOf(ctx, aws, cluster, queue) && QueueOf(ctx, aws', cluster, queue')
    ensures queue == queue'
  {
    CandidateMembers(ctx, aws, cluster.name);
    CandidateMembers(ctx, aws', cluster.name);
    assert multiset(Candidates(ctx, aws, cluster.name)) == multiset(Candidates(ctx, aws', cluster.name));
    SortedIsUnique(queue, queue');
  }

  lemma {:induction false} OpeningsAgree(ctx: Context, aws: seq<Listed>, aws': seq<Listed>, cluster: Cluster, a: map<int, W.Amounts>, b: map<int, W.Amounts>)
    requires multiset(aws) == multiset(aws')
    requires Opening(ctx, aws, cluster, a) && Opening(ctx, aws', cluster, b)
    ensures a.Keys <= b.Keys && Agree(a.Keys, a, b)
  {
    var p := if Floor(aws) < Floor(aws') then Floor(aws) else Floor(aws');
    EverythingAtLeast(aws, p);
    EverythingAtLeast(aws', p);
    SameOpenings(ctx, aws, aws', cluster, p, a, b);
    LevelsAreAtLeast(ctx, aws, cluster.name, p);
    EveryLevel(a, p);
  }

  lemma {:induction false} EveryLevel(a: map<int, W.Amounts>, p: int)
    requires forall q :: q in a ==> q >= p
    ensures (set q | q in a.Keys && q >= p) == a.Keys
  {
  }

  /** The order of the listing does not matter for one cluster. */
  lemma {:induction false} ListOrderIndependence(ctx: Context, aws: seq<Listed>, aws': seq<Listed>, cluster: Cluster, st: Progress, r: Progress, r': Progress)
    requires multiset(aws) == multiset(aws')
    requires ClusterStep(ctx, aws, cluster, st, r) && ClusterStep(ctx, aws', cluster, st, r')
    ensures r.selected == r'.selected && r.tracker == r'.tracker && r.decisions == r'.decisions
    ensures r.available.Keys == r'.available.Keys && Agree(r.available.Keys, r.available, r'.available)
  {
    var a, queue :| ClusterStepOn(ctx, aws, cluster, st, a, queue, r);
    var b, queue' :| ClusterStepOn(ctx, aws', cluster, st, b, queue', r');
    OpeningsAgree(ctx, aws, aws', cluster, a, b);
    OpeningsAgree(ctx, aws', aws, cluster, b, a);
    SameQueues(ctx, aws, aws', cluster, queue, queue');
    AgreementIsKept(ctx, a.Keys, st.(available := a), st.(available := b), queue);
  }

  lemma {:induction false} LevelsAreAtLeast(ctx: Context, aws: seq<Listed>, cluster: string, p: int)
    requires forall x :: x in aws ==> x.priority >= p
    ensures forall q :: q in KnownLevels(ctx, aws, cluster) ==> q >= p
  {
    forall q | q in KnownLevels(ctx, aws, cluster)
      ensures q >= p
    {
      var i :| 0 <= i < |aws| && Considered(ctx, aws[i], cluster) && aws[i].priority == q;
      assert aws[i] in aws;
    }
  }

  /** Nor does it for a whole cycle over all clusters. */
  lemma {:induction false} CycleOrderIndependence(ctx: Context, aws: seq<Listed>, aws': seq<Listed>, clusters: seq<Cluster>, sts: seq<Progress>, sts': seq<Progress>, n: nat)
    requires multiset(aws) == multiset(aws')
    requires CycleSteps(ctx, aws, clusters, sts) && CycleSteps(ctx, aws', clusters, sts')
    requires sts[0].(available := map[]) == sts'[0].(available := map[]) && n <= |clusters|
    ensures sts[n].(available := map[]) == sts'[n].(available := map[])
  {
    if n > 0 {
      CycleOrderIndependence(ctx, aws, aws', clusters, sts, sts', n - 1);
      assert CycleStepAt(ctx, aws, clusters, sts, n - 1) && CycleStepAt(ctx, aws', clusters, sts', n - 1);
      ListOrderIndependence(ctx, aws, aws', clusters[n - 1], sts[n - 1].(available := map[]), sts[n], sts'[n]);
    }
  }
}
