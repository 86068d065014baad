/**
 selectForDispatch: the greedy allocation of cluster capacity and quota in
 queue order.
 */
module Selection {
  import opened Options
  import opened Lifecycle
  import opened Sums
  import W = Weights
  import opened Listings
  import opened Priorities
  import opened Ordering
  import opened Queue
  import opened Quotas

  datatype Reason = InsufficientResources | InsufficientQuota

  /** The state of the selection loop. */
  datatype Progress = Progress(
    available: map<int, W.Amounts>,
    tracker: Tracker,
    selected: seq<Listed>,
    decisions: map<string, Reason>)

  datatype Cluster = Cluster(name: string, capacity: W.Amounts)

  /** A request taken from its own priority level and all levels below. */
  function Debit(available: map<int, W.Amounts>, p: int, request: W.Amounts): map<int, W.Amounts> {
    map q | q in available :: if q <= p then W.Minus(available[q], request) else available[q]
  }

  /** The quota of a namespace; the code assumes there is at most one. */
  function QuotaIn(ctx: Context, ns: string): Option<ResourceQuota> {
    var quotas := ctx.quotas(ns);
    if quotas.Some? && quotas.value != [] then Some(quotas.value[0]) else None
  }

  /** The tracker after asking whether the AppWrapper's quota admits it. */
  function Asked(ctx: Context, t: Tracker, aw: Listed): Tracker {
    match QuotaIn(ctx, aw.namespace)
    case None => t
    case Some(rq) => Track(t, rq)
  }

  predicate Admitted(ctx: Context, t: Tracker, aw: Listed) {
    match QuotaIn(ctx, aw.namespace)
    case None => true
    case Some(rq) => W.PairQuotaFits(Ask(aw), Headroom(Track(t, rq), rq.namespace))
  }

  function Granted(ctx: Context, t: Tracker, aw: Listed): Tracker {
    match QuotaIn(ctx, aw.namespace)
    case None => t
    case Some(rq) => Allocated(Track(t, rq), aw.namespace, Ask(aw))
  }

  /** One iteration of the selection loop. */
  function Consider(ctx: Context, st: Progress, aw: Listed): Progress
    requires aw.priority in st.available
  {
    if !W.FitsIn(Requests(aw), st.available[aw.priority]) then
      st.(tracker := Asked(ctx, st.tracker, aw), decisions := st.decisions[aw.uid := InsufficientResources])
    else if !Admitted(ctx, st.tracker, aw) then
      st.(tracker := Asked(ctx, st.tracker, aw), decisions := st.decisions[aw.uid := InsufficientQuota])
    else
      Progress(Debit(st.available, aw.priority, Requests(aw)), Granted(ctx, st.tracker, aw), st.selected + [aw], st.decisions)
  }

  predicate Covered(available: map<int, W.Amounts>, queue: seq<Listed>) {
    forall i :: 0 <= i < |queue| ==> queue[i].priority in available
  }

  /** The loop over a queue. */
  function ConsiderAll(ctx: Context, st: Progress, queue: seq<Listed>): (r: Progress)
    requires Covered(st.available, queue)
    ensures r.available.Keys == st.available.Keys
  {
    if queue == [] then st
    else
      assert queue[|queue| - 1].priority in st.available;
      Consider(ctx, ConsiderAll(ctx, st, queue[..|queue| - 1]), queue[|queue| - 1])
  }

  predicate QuotaReadable(ctx: Context, aw: Listed) {
    ctx.quotas(aw.namespace).Some?
  }

  /** The quotas of every queued AppWrapper's namespace can be listed. */
  predicate QuotasReadable(ctx: Context, queue: seq<Listed>) {
    forall i :: 0 <= i < |queue| ==> QuotaReadable(ctx, queue[i])
  }

  lemma {:induction false} QuotasReadableSnoc(ctx: Context, queue: seq<Listed>, i: nat)
    requires i < |queue|
    ensures QuotasReadable(ctx, queue[..i]) && QuotaReadable(ctx, queue[i]) ==> QuotasReadable(ctx, queue[..i + 1])
    ensures !QuotaReadable(ctx, queue[i]) ==> !QuotasReadable(ctx, queue)
  {
  }

  // ----- the loops of the code -----

  method DebitLevels(available: map<int, W.Weights>, p: int, request: W.Amounts)
    requires Separate(available)
    modifies available.Values
    ensures Levels(available) == Debit(old(Levels(available)), p, request)
  {
    ghost var v := Levels(available);
    var todo := available.Keys;
    while todo != {}
      invariant todo <= available.Keys
      invariant forall q :: q in available ==>
        available[q].m == if q in todo || q > p then v[q] else W.Minus(v[q], request)
      decreases todo
    {
      ghost var _ := Member(todo);
      var q :| q in todo;
      if q <= p {
        assert available[q] in available.Values;
        available[q].Sub(request);
      }
      todo := todo - {q};
    }
  }

  /** Quota check for one AppWrapper; the ask is computed only if the namespace
      has a quota. */
  method CheckQuota(ctx: Context, tracker: QuotaTracker, aw: Listed) returns (ok: bool, fits: bool, ask: Option<W.Pair>)
    modifies tracker
    ensures ok == ctx.quotas(aw.namespace).Some?
    ensures ok ==> fits == Admitted(ctx, old(tracker.Value()), aw)
    ensures ok ==> ask == if QuotaIn(ctx, aw.namespace).Some? then Some(Ask(aw)) else None
    ensures tracker.Value() == Asked(ctx, old(tracker.Value()), aw)
  {
    var quotas := ctx.quotas(aw.namespace);
    ok, fits, ask := quotas.Some?, true, None;
    if quotas.Some? && |quotas.value| > 0 {
      var requests := Aggregate(aw, false);
      var limits := Aggregate(aw, true);
      ask := Some(W.Pair(requests.m, limits.m));
      var short;
      fits, short := tracker.Satisfies(ask.value, quotas.value[0]);
    }
  }

  /** Both checks passed: allocate, select, and take the request from the
      levels. */
  method Accept(available: map<int, W.Weights>, tracker: QuotaTracker, aw: Listed, request: W.Amounts, ask: Option<W.Pair>)
    requires Separate(available)
    modifies tracker, available.Values
    ensures Levels(available) == Debit(old(Levels(available)), aw.priority, request)
    ensures tracker.Value() == if ask.Some? then Allocated(old(tracker.Value()), aw.namespace, ask.value) else old(tracker.Value())
  {
    var _ := tracker.Allocate(aw.namespace, ask);
    DebitLevels(available, aw.priority, request);
  }

  method ConsiderOne(ctx: Context, available: map<int, W.Weights>, tracker: QuotaTracker,
                     selected: seq<Listed>, decisions: map<string, Reason>, aw: Listed)
    returns (ok: bool, selected': seq<Listed>, decisions': map<string, Reason>)
    requires Separate(available) && aw.priority in available
    modifies tracker, available.Values
    ensures ok == QuotaReadable(ctx, aw)
    ensures ok ==>
      Progress(Levels(available), tracker.Value(), selected', decisions')
      == Consider(ctx, Progress(old(Levels(available)), old(tracker.Value()), selected, decisions), aw)
  {
    selected', decisions' := selected, decisions;
    ghost var st := Progress(Levels(available), tracker.Value(), selected, decisions);
    var request := Aggregate(aw, false);
    var quotaFits, ask;
    ok, quotaFits, ask := CheckQuota(ctx, tracker, aw);
    assert Levels(available) == st.available;
    if !ok {
      return;
    }
    var fits, _ := request.Fits(available[aw.priority].m);
    assert fits == W.FitsIn(Requests(aw), st.available[aw.priority]);
    if !fits {
      decisions' := decisions[aw.uid := InsufficientResources];
    } else if !quotaFits {
      decisions' := decisions[aw.uid := InsufficientQuota];
    } else {
      selected' := selected + [aw];
      Accept(available, tracker, aw, request.m, ask);
      assert tracker.Value() == Granted(ctx, st.tracker, aw);
    }
  }

  /** Fresh copies of the capacity, minus what is reserved at each level. */
  method ComputeAvailable(capacity: W.Amounts, reserved: map<int, W.Weights>) returns (available: map<int, W.Weights>)
    ensures available.Keys == reserved.Keys && Separate(available)
    ensures forall p :: p in available ==> fresh(available[p])
    ensures forall p :: p in available ==> forall k :: W.At(available[p].m, k) == W.At(capacity, k) - W.At(reserved[p].m, k)
  {
    available := map[];
    var todo := reserved.Keys;
    while todo != {}
      invariant todo <= reserved.Keys && available.Keys == reserved.Keys - todo
      invariant Separate(available)
      invariant forall p :: p in available ==> fresh(available[p])
      invariant forall p :: p in available ==> available[p].m == W.Minus(W.Plus(map[], capacity), reserved[p].m)
      decreases todo
    {
      ghost var _ := Member(todo);
      var p :| p in todo;
      var level := new W.Weights(map[]);
      level.Add(capacity);
      level.Sub(reserved[p].m);
      available := available[p := level];
      todo := todo - {p};
    }
  }

  /** What a cluster has at each level before the selection starts. */
  ghost predicate Opening(ctx: Context, aws: seq<Listed>, cluster: Cluster, available: map<int, W.Amounts>) {
    && available.Keys == KnownLevels(ctx, aws, cluster.name)
    && (forall p :: p in available ==> forall k ::
          W.At(available[p], k) == W.At(cluster.capacity, k) - Sum(aws, ReservedFrom(ctx, cluster.name, p, k)))
  }

  /** The queue of a cluster. */
  ghost predicate QueueOf(ctx: Context, aws: seq<Listed>, cluster: Cluster, queue: seq<Listed>) {
    Sorted(queue) && multiset(queue) == multiset(Candidates(ctx, aws, cluster.name))
  }

  lemma {:induction false} QueueIsCovered(ctx: Context, aws: seq<Listed>, cluster: Cluster, available: map<int, W.Amounts>, queue: seq<Listed>)
    requires Opening(ctx, aws, cluster, available) && QueueOf(ctx, aws, cluster, queue)
    ensures Covered(available, queue)
  {
    CandidateMembers(ctx, aws, cluster.name);
    forall i | 0 <= i < |queue|
      ensures queue[i].priority in available
    {
      assert queue[i] in multiset(queue);
      assert queue[i] in aws;
      var j :| 0 <= j < |aws| && aws[j] == queue[i];
      assert aws[j].priority in KnownLevels(ctx, aws, cluster.name);
    }
  }

  /** The selection for one cluster: from the opening levels and the sorted
      queue to the outcome of the loop, all else carried over. */
  ghost predicate ClusterStep(ctx: Context, aws: seq<Listed>, cluster: Cluster, st: Progress, st': Progress) {
    exists available: map<int, W.Amounts>, queue: seq<Listed> ::
      ClusterStepOn(ctx, aws, cluster, st, available, queue, st')
  }

  ghost predicate ClusterStepOn(ctx: Context, aws: seq<Listed>, cluster: Cluster, st: Progress, available: map<int, W.Amounts>, queue: seq<Listed>, st': Progress) {
    && Opening(ctx, aws, cluster, available) && QueueOf(ctx, aws, cluster, queue)
    && Covered(available, queue)
    && st' == ConsiderAll(ctx, st.(available := available), queue)
  }

  /** The loop over the queue of a cluster; a failed listing of quotas ends it. */
  method WorkThrough(ctx: Context, available: map<int, W.Weights>, tracker: QuotaTracker,
                     selected: seq<Listed>, decisions: map<string, Reason>, queue: seq<Listed>)
    returns (ok: bool, selected': seq<Listed>, decisions': map<string, Reason>)
    requires Separate(available) && Covered(Levels(available), queue)
    modifies tracker, available.Values
    ensures ok == QuotasReadable(ctx, queue)
    ensures ok ==>
      Progress(Levels(available), tracker.Value(), selected', decisions')
      == ConsiderAll(ctx, Progress(old(Levels(available)), old(tracker.Value()), selected, decisions), queue)
  {
    ghost var st := Progress(Levels(available), tracker.Value(), selected, decisions);
    selected', decisions' := selected, decisions;
    for i := 0 to |queue|
      invariant QuotasReadable(ctx, queue[..i])
      invariant Progress(Levels(available), tracker.Value(), selected', decisions') == ConsiderAll(ctx, st, queue[..i])
    {
      assert queue[..i + 1][..i] == queue[..i];
      assert queue[i].priority in st.available;
      QuotasReadableSnoc(ctx, queue, i);
      ok, selected', decisions' := ConsiderOne(ctx, available, tracker, selected', decisions', queue[i]);
      if !ok {
        return;
      }
    }
    assert queue[..|queue|] == queue;
    ok := true;
  }

  /** Everything that the selection for a cluster has to list can be listed. */
  predicate ClusterReadable(ctx: Context, aws: seq<Listed>, cluster: Cluster) {
    Readable(ctx, aws, cluster.name) && QuotasReadable(ctx, Candidates(ctx, aws, cluster.name))
  }

  lemma {:induction false} SameReadable(ctx: Context, queue: seq<Listed>, queue': seq<Listed>)
    requires multiset(queue) == multiset(queue')
    ensures QuotasReadable(ctx, queue) ==> QuotasReadable(ctx, queue')
  {
    SameMembers(queue', queue);
    forall i | 0 <= i < |queue'| && QuotasReadable(ctx, queue)
      ensures QuotaReadable(ctx, queue'[i])
    {
      assert queue'[i] in queue;
    }
  }

  method SelectForCluster(ctx: Context, aws: seq<Listed>, cluster: Cluster, tracker: QuotaTracker,
                          selected: seq<Listed>, decisions: map<string, Reason>)
    returns (ok: bool, selected': seq<Listed>, decisions': map<string, Reason>, ghost final: map<int, W.Amounts>)
    requires DistinctUids(aws)
    modifies tracker
    ensures ok == ClusterReadable(ctx, aws, cluster)
    ensures ok ==> ClusterStep(ctx, aws, cluster,
                     Progress(map[], old(tracker.Value()), selected, decisions),
                     Progress(final, tracker.Value(), selected', decisions'))
  {
    final := map[];
    var readable, reserved, queue := BuildQueue(ctx, aws, cluster.name);
    if !readable {
      return false, selected, decisions, final;
    }
    var available := ComputeAvailable(cluster.capacity, reserved);
    ghost var opening := Levels(available);
    assert Opening(ctx, aws, cluster, opening) && QueueOf(ctx, aws, cluster, queue);
    QueueIsCovered(ctx, aws, cluster, opening, queue);
    SameReadable(ctx, queue, Candidates(ctx, aws, cluster.name));
    SameReadable(ctx, Candidates(ctx, aws, cluster.name), queue);
    ok, selected', decisions' := WorkThrough(ctx, available, tracker, selected, decisions, queue);
    final := Levels(available);
    ghost var st := Progress(map[], old(tracker.Value()), selected, decisions);
    assert ok ==> ClusterStepOn(ctx, aws, cluster, st, opening, queue, Progress(final, tracker.Value(), selected', decisions'));
  }

  /** A run over clusters, one after the other. */
  ghost predicate CycleSteps(ctx: Context, aws: seq<Listed>, clusters: seq<Cluster>, sts: seq<Progress>) {
    |sts| == |clusters| + 1 && CycleStepsTo(ctx, aws, clusters, sts, |clusters|)
  }

  /** The first n clusters of a run. */
  ghost predicate CycleStepsTo(ctx: Context, aws: seq<Listed>, clusters: seq<Cluster>, sts: seq<Progress>, n: nat)
    requires n <= |clusters| && n < |sts|
  {
    forall i {:trigger CycleStepAt(ctx, aws, clusters, sts, i)} :: 0 <= i < n ==> CycleStepAt(ctx, aws, clusters, sts, i)
  }

  ghost predicate CycleStepAt(ctx: Context, aws: seq<Listed>, clusters: seq<Cluster>, sts: seq<Progress>, i: nat)
    requires i < |clusters| && i + 1 < |sts|
  {
    ClusterStep(ctx, aws, clusters[i], sts[i].(available := map[]), sts[i + 1])
  }

  predicate AllReadable(ctx: Context, aws: seq<Listed>, clusters: seq<Cluster>) {
    AllReadableTo(ctx, aws, clusters, |clusters|)
  }

  predicate AllReadableTo(ctx: Context, aws: seq<Listed>, clusters: seq<Cluster>, n: nat)
    requires n <= |clusters|
  {
    forall i {:trigger ClusterReadable(ctx, aws, clusters[i])} :: 0 <= i < n ==> ClusterReadable(ctx, aws, clusters[i])
  }

  lemma {:induction false} AllReadableNext(ctx: Context, aws: seq<Listed>, clusters: seq<Cluster>, n: nat)
    requires n < |clusters| && AllReadableTo(ctx, aws, clusters, n)
    ensures ClusterReadable(ctx, aws, clusters[n]) <==> AllReadableTo(ctx, aws, clusters, n + 1)
    ensures !ClusterReadable(ctx, aws, clusters[n]) ==> !AllReadable(ctx, aws, clusters)
  {
  }

  lemma {:induction false} CycleStepsNext(ctx: Context, aws: seq<Listed>, clusters: seq<Cluster>, sts: seq<Progress>, n: nat, st: Progress)
    requires n < |clusters| && |sts| == n + 1 && CycleStepsTo(ctx, aws, clusters, sts, n)
    requires ClusterStep(ctx, aws, clusters[n], sts[n].(available := map[]), st)
    ensures CycleStepsTo(ctx, aws, clusters, sts + [st], n + 1)
  {
    forall i | 0 <= i < n + 1
      ensures CycleStepAt(ctx, aws, clusters, sts + [st], i)
    {
      if i < n { assert CycleStepAt(ctx, aws, clusters, sts, i); }
    }
  }

  method SelectForDispatch(ctx: Context, aws: seq<Listed>, clusters: seq<Cluster>, tracker: QuotaTracker, decisions: map<string, Reason>)
    returns (ok: bool, selected: seq<Listed>, decisions': map<string, Reason>, ghost sts: seq<Progress>)
    requires DistinctUids(aws)
    modifies tracker
    ensures ok == AllReadable(ctx, aws, clusters)
    ensures ok ==> CycleSteps(ctx, aws, clusters, sts)
    ensures ok ==> sts[0] == Progress(map[], old(tracker.Value()), [], decisions)
    ensures ok ==> sts[|clusters|].(available := map[]) == Progress(map[], tracker.Value(), selected, decisions')
  {
    selected, decisions' := [], decisions;
    sts := [Progress(map[], tracker.Value(), [], decisions)];
    for i := 0 to |clusters|
      invariant AllReadableTo(ctx, aws, clusters, i)
      invariant |sts| == i + 1 && CycleStepsTo(ctx, aws, clusters, sts, i)
      invariant sts[0] == Progress(map[], old(tracker.Value()), [], decisions)
      invariant sts[i].(available := map[]) == Progress(map[], tracker.Value(), selected, decisions')
    {
      ghost var final;
      AllReadableNext(ctx, aws, clusters, i);
      ok, selected, decisions', final := SelectForCluster(ctx, aws, clusters[i], tracker, selected, decisions');
      if !ok {
        return;
      }
      CycleStepsNext(ctx, aws, clusters, sts, i, Progress(final, tracker.Value(), selected, decisions'));
      sts := sts + [Progress(final, tracker.Value(), selected, decisions')];
    }
    ok := true;
  }
}
