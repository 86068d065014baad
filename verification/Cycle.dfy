/**
 A whole dispatch cycle, and the link between the two halves of the system:
 what the lifecycle protocol guarantees about lagging reads is what keeps the
 allocator from booking the same capacity twice.
 */
module Cycle {
  import opened Options
  import opened Lifecycle
  import P = Protocol
  import Ownership
  import opened Sums
  import W = Weights
  import opened Listings
  import opened Ordering
  import opened Queue
  import opened Quotas
  import opened Unadmitted
  import opened Selection
  import opened Capacity
  import opened Allowance

  // ----- no double booking -----

  /** An AppWrapper as listed, with the world it comes from. */
  datatype Backed = Backed(aw: Listed, spec: Spec, world: P.World)

  /** Reachable without a lost reply or a timeout on the dispatcher's side. */
  ghost predicate Reached(spec: Spec, w: P.World) {
    exists w0: P.World, ls: seq<P.Label> :: P.Initial(w0) && P.FaithfulRun(spec, w0, ls, w, Dispatcher)
  }

  /** The listing shows what the dispatcher's informer serves, however old, and
      the cycle consults the dispatcher's own write cache. */
  ghost predicate ListedFrom(ctx: Context, b: Backed) {
    && Reached(b.spec, b.world)
    && b.world.versions != []
    && b.world.disp.flight.Resting?
    && b.world.disp.view < |b.world.versions|
    && b.aw.status == b.world.versions[b.world.disp.view].status
    && b.world.disp.cache == if b.aw.uid in ctx.cache then Some(ctx.cache[b.aw.uid]) else None
  }

  function ServerPhase(b: Backed): Phase
    requires b.world.versions != []
  {
    P.Server(b.world).status.phase
  }

  function ListingOf(bs: seq<Backed>): (r: seq<Listed>) {
    if bs == [] then [] else ListingOf(bs[..|bs| - 1]) + [bs[|bs| - 1].aw]
  }

  /** An AppWrapper that is not idle on the server is classified as holding
      resources; one that is classified as waiting is queued on the server. */
  lemma {:induction false} ClassificationIsSafe(ctx: Context, b: Backed)
    requires ListedFrom(ctx, b)
    ensures ServerPhase(b).step != Idle ==> Reserves(ctx, b.aw)
    ensures Waits(ctx, b.aw) ==> ServerPhase(b) == Phase(Queued, Idle)
  {
    var w0, ls :| P.Initial(w0) && P.FaithfulRun(b.spec, w0, ls, b.world, Dispatcher);
    Ownership.EffectiveIdleIsCurrent(b.spec, w0, ls, b.world);
  }

  /** What an AppWrapper of priority p or higher that is not idle on the server
      holds: what it asks for or what its pods occupy, whichever is more. */
  ghost function HeldFrom(ctx: Context, cluster: string, p: int, k: string): Backed -> int {
    (b: Backed) =>
      if b.world.versions != [] && ServerPhase(b).step != Idle && (ctx.multiCluster ==> b.aw.cluster == Some(cluster)) && b.aw.priority >= p
      then W.Larger(W.At(Requests(b.aw), k), Occupied(ctx, b.aw, k)) else 0
  }

  /** A listed AppWrapper that asks for no negative amount of k. */
  ghost predicate Ordinary(ctx: Context, b: Backed, k: string) {
    ListedFrom(ctx, b) && W.At(Requests(b.aw), k) >= 0
  }

  ghost predicate AllOrdinary(ctx: Context, bs: seq<Backed>, k: string) {
    forall i {:trigger Ordinary(ctx, bs[i], k)} :: 0 <= i < |bs| ==> Ordinary(ctx, bs[i], k)
  }

  lemma {:induction false} ReservationCovers(ctx: Context, b: Backed, cluster: string, p: int, k: string)
    requires Ordinary(ctx, b, k)
    ensures HeldFrom(ctx, cluster, p, k)(b) <= ReservedFrom(ctx, cluster, p, k)(b.aw)
  {
    ClassificationIsSafe(ctx, b);
    ReservationIsLarger(ctx, b.aw, k);
  }

  /** What is reserved covers what all AppWrappers that are not idle on the
      server ask for or occupy. */
  lemma {:induction false} ReservationsCover(ctx: Context, bs: seq<Backed>, cluster: string, p: int, k: string)
    requires AllOrdinary(ctx, bs, k)
    ensures Sum(bs, HeldFrom(ctx, cluster, p, k)) <= Sum(ListingOf(bs), ReservedFrom(ctx, cluster, p, k))
  {
    if bs != [] {
      var init := bs[..|bs| - 1];
      var b := bs[|bs| - 1];
      forall i | 0 <= i < |init|
        ensures Ordinary(ctx, init[i], k)
      {
        assert Ordinary(ctx, bs[i], k);
      }
      ReservationsCover(ctx, init, cluster, p, k);
      assert Ordinary(ctx, bs[|bs| - 1], k);
      ReservationCovers(ctx, b, cluster, p, k);
      SumSnoc(ListingOf(init), b.aw, ReservedFrom(ctx, cluster, p, k));
    }
  }

  lemma {:induction false} ListedMembers(bs: seq<Backed>, x: Listed)
    requires x in ListingOf(bs)
    ensures exists i :: 0 <= i < |bs| && bs[i].aw == x
  {
    var init := bs[..|bs| - 1];
    if x in ListingOf(init) {
      ListedMembers(init, x);
      var i :| 0 <= i < |init| && init[i].aw == x;
      assert bs[i].aw == x;
    }
  }

  lemma {:induction false} SelectedWait(ctx: Context, aws: seq<Listed>, cluster: Cluster, st: Progress, st': Progress, x: Listed)
    requires ClusterStep(ctx, aws, cluster, st, st')
    ensures st.selected <= st'.selected
    ensures x in New(st, st') ==> x in aws && Considered(ctx, x, cluster.name) && Waits(ctx, x)
  {
    var available: map<int, W.Amounts>, queue: seq<Listed> :| ClusterStepOn(ctx, aws, cluster, st, available, queue, st');
    SelectionGrows(ctx, st.(available := available), queue);
    CandidateMembers(ctx, aws, cluster.name);
    SameMembers(queue, Candidates(ctx, aws, cluster.name));
  }

  lemma {:induction false} SelectedIsQueued(ctx: Context, bs: seq<Backed>, cluster: Cluster, st: Progress, st': Progress, x: Listed)
    requires forall i :: 0 <= i < |bs| ==> ListedFrom(ctx, bs[i])
    requires ClusterStep(ctx, ListingOf(bs), cluster, st, st')
    requires st.selected <= st'.selected && x in New(st, st')
    ensures QueuedIn(bs, x)
  {
    SelectedWait(ctx, ListingOf(bs), cluster, st, st', x);
    ListedMembers(bs, x);
    var i :| 0 <= i < |bs| && bs[i].aw == x;
    ClassificationIsSafe(ctx, bs[i]);
  }

  /** The AppWrapper is queued on the server. */
  ghost predicate QueuedIn(bs: seq<Backed>, x: Listed) {
    exists i :: 0 <= i < |bs| && bs[i].aw == x && bs[i].world.versions != [] && ServerPhase(bs[i]) == Phase(Queued, Idle)
  }

  /** No double booking under cache lag. However far the listing lags, whatever
      is selected is queued on the server, and if a positive amount of k was
      selected at priority p, then all that AppWrappers of priority p or higher
      need fits in the capacity of the cluster: what those not idle on the
      server ask for or their pods occupy, and what those just selected ask
      for. */
  lemma {:induction false} NoDoubleBooking(ctx: Context, bs: seq<Backed>, cluster: Cluster, st: Progress, st': Progress, p: int, k: string)
    requires AllOrdinary(ctx, bs, k)
    requires ClusterStep(ctx, ListingOf(bs), cluster, st, st') && p in st'.available
    ensures st.selected <= st'.selected
    ensures forall x :: x in New(st, st') ==> QueuedIn(bs, x)
    ensures PositiveAt(New(st, st'), p, k) ==>
      Sum(bs, HeldFrom(ctx, cluster.name, p, k)) + Sum(New(st, st'), AskFrom(p, k)) <= W.At(cluster.capacity, k)
  {
    CapacityIsNotExceeded(ctx, ListingOf(bs), cluster, st, st', p, k);
    ReservationsCover(ctx, bs, cluster.name, p, k);
    forall i | 0 <= i < |bs|
      ensures ListedFrom(ctx, bs[i])
    {
      assert Ordinary(ctx, bs[i], k);
    }
    forall x | x in New(st, st')
      ensures QueuedIn(bs, x)
    {
      SelectedIsQueued(ctx, bs, cluster, st, st', x);
    }
  }

  // ----- nobody's demand is forgotten -----

  /** However far the listing lags, an AppWrapper that is not idle on the server
      is counted in the demand of its own namespace, and in no other. */
  lemma {:induction false} DemandIsSafe(ctx: Context, b: Backed, ns: string)
    requires ListedFrom(ctx, b)
    ensures ServerPhase(b).step != Idle ==> (Pending(ctx, b.aw, ns) <==> b.aw.namespace == ns)
    ensures Pending(ctx, b.aw, ns) ==> b.aw.namespace == ns
  {
    ClassificationIsSafe(ctx, b);
  }

  /** What an AppWrapper of the namespace that is not idle on the server asks for
      beyond what it has created. */
  ghost function ActiveOutstanding(ctx: Context, ns: string, limits: bool, k: string): Backed -> int {
    (b: Backed) =>
      if b.world.versions != [] && ServerPhase(b).step != Idle && b.aw.namespace == ns
      then W.At(if limits then Ask(b.aw).limits else Ask(b.aw).requests, k) - CreatedTotal(ctx, b.aw, limits, k) else 0
  }

  /** A listed AppWrapper that has created no more than it asks for. */
  ghost predicate Modest(ctx: Context, b: Backed, limits: bool, k: string) {
    && ListedFrom(ctx, b)
    && W.At(if limits then Ask(b.aw).limits else Ask(b.aw).requests, k) >= CreatedTotal(ctx, b.aw, limits, k)
  }

  ghost predicate AllModest(ctx: Context, bs: seq<Backed>, limits: bool, k: string) {
    forall i {:trigger Modest(ctx, bs[i], limits, k)} :: 0 <= i < |bs| ==> Modest(ctx, bs[i], limits, k)
  }

  lemma {:induction false} DemandCovers(ctx: Context, b: Backed, ns: string, limits: bool, k: string)
    requires Modest(ctx, b, limits, k)
    ensures 0 <= ActiveOutstanding(ctx, ns, limits, k)(b) <= OutstandingOf(ctx, ns, limits, k)(b.aw)
  {
    DemandIsSafe(ctx, b, ns);
    OutstandingMeans(ctx, b.aw, limits, k);
  }

  lemma {:induction false} DemandsCover(ctx: Context, bs: seq<Backed>, ns: string, limits: bool, k: string)
    requires AllModest(ctx, bs, limits, k)
    ensures 0 <= Sum(bs, ActiveOutstanding(ctx, ns, limits, k)) <= Sum(ListingOf(bs), OutstandingOf(ctx, ns, limits, k))
    ensures forall x :: x in ListingOf(bs) ==> OutstandingOf(ctx, ns, limits, k)(x) >= 0
  {
    if bs != [] {
      var init := bs[..|bs| - 1];
      var b := bs[|bs| - 1];
      forall i | 0 <= i < |init|
        ensures Modest(ctx, init[i], limits, k)
      {
        assert Modest(ctx, bs[i], limits, k);
      }
      DemandsCover(ctx, init, ns, limits, k);
      assert Modest(ctx, bs[|bs| - 1], limits, k);
      DemandCovers(ctx, b, ns, limits, k);
      SumSnoc(ListingOf(init), b.aw, OutstandingOf(ctx, ns, limits, k));
    }
  }

  /** The unadmitted demand of a namespace is at least what the AppWrappers that
      are not idle on the server ask for beyond what they have created, however
      far the listing lags. */
  lemma {:induction false} DemandIsNotForgotten(ctx: Context, bs: seq<Backed>, ns: string, limits: bool, k: string)
    requires AllModest(ctx, bs, limits, k) && PodsNonNegative(ctx)
    ensures Amount(ctx, ListingOf(bs), ns, limits, k) >= Sum(bs, ActiveOutstanding(ctx, ns, limits, k)) >= 0
  {
    DemandsCover(ctx, bs, ns, limits, k);
    OpposedIsUnbalanced(ctx, ListingOf(bs), ns, limits, k);
    OrderMattersExactly(ctx, ListingOf(bs), ns, limits, k);
  }

  // ----- maximality for a cluster -----

  lemma {:induction false} SortedHaveDistinctUids(queue: seq<Listed>, aws: seq<Listed>, i: nat, j: nat)
    requires Sorted(queue) && DistinctUids(aws) && i < |queue| && j < |queue| && i != j
    requires queue[i] in aws && queue[j] in aws
    ensures queue[i].uid != queue[j].uid
  {
    var a :| 0 <= a < |aws| && aws[a] == queue[i];
    var b :| 0 <= b < |aws| && aws[b] == queue[j];
    assert Before(queue[i], queue[j]) || Before(queue[j], queue[i]);
    BeforeIsStrictTotal(queue[i], queue[j], queue[i]);
  }

  lemma {:induction false} ThirdParties(queue: seq<Listed>, aws: seq<Listed>, i: nat)
    requires Sorted(queue) && DistinctUids(aws) && i < |queue| && forall y :: y in queue ==> y in aws
    ensures queue == queue[..i] + ([queue[i]] + queue[i + 1..])
    ensures NoneHasUid(queue[..i], queue[i].uid) && NoneHasUid(queue[i + 1..], queue[i].uid)
  {
    forall j | 0 <= j < |queue| && j != i
      ensures queue[j].uid != queue[i].uid
    {
      SortedHaveDistinctUids(queue, aws, i, j);
    }
  }

  /** Every AppWrapper that waits for this cluster is selected, or refused for a
      recorded reason that still holds when the selection is over. */
  lemma {:induction false} NobodyIsForgotten(ctx: Context, aws: seq<Listed>, cluster: Cluster, st: Progress, st': Progress, x: Listed)
    requires ClusterStep(ctx, aws, cluster, st, st') && DistinctUids(aws)
    requires WellListed(ctx) && Genuine(ctx, st.tracker)
    requires forall y :: y in aws ==> AsksNonNegative(y)
    requires x in aws && Considered(ctx, x, cluster.name) && Waits(ctx, x)
    ensures x.priority in st'.available
    ensures
      || x in st'.selected
      || (DecisionFor(st', x.uid) == Some(InsufficientResources) && !W.FitsIn(Requests(x), st'.available[x.priority]))
      || (DecisionFor(st', x.uid) == Some(InsufficientQuota) && !Admitted(ctx, st'.tracker, x))
  {
    var available: map<int, W.Amounts>, queue: seq<Listed> :| ClusterStepOn(ctx, aws, cluster, st, available, queue, st');
    CandidateMembers(ctx, aws, cluster.name);
    SameMembers(queue, Candidates(ctx, aws, cluster.name));
    SameMembers(Candidates(ctx, aws, cluster.name), queue);
    assert forall y :: y in queue ==> y in aws;
    var i :| 0 <= i < |queue| && queue[i] == x;
    ThirdParties(queue, aws, i);
    SelectionIsMaximal(ctx, st.(available := available), queue[..i], x, queue[i + 1..]);
  }

  // ----- the cycle -----

  /** The bound of a quota holds for what is used, unadmitted and selected. */
  ghost predicate QuotaKept(ctx: Context, unadmitted: map<string, W.Pair>, selected: seq<Listed>, ns: string, limits: bool, k: string) {
    QuotaIn(ctx, ns).Some? && k in BoundOf(ctx, ns, limits) && AskedIn(selected, ns, limits, k) ==>
      W.At(W.Part(Meaning(QuotaIn(ctx, ns).value.used), limits), k) + W.At(W.Part(W.PairAt(unadmitted, ns), limits), k)
        + Sum(selected, AskIn(ns, limits, k))
      <= BoundOf(ctx, ns, limits)[k]
  }

  lemma {:induction false} CycleKeepsQuotas(ctx: Context, aws: seq<Listed>, clusters: seq<Cluster>, sts: seq<Progress>, unadmitted: map<string, W.Pair>)
    requires CycleSteps(ctx, aws, clusters, sts) && WellListed(ctx)
    requires sts[0].tracker == Tracker(map[], unadmitted) && sts[0].selected == []
    ensures forall ns: string, limits: bool, k: string :: QuotaKept(ctx, unadmitted, sts[|clusters|].selected, ns, limits, k)
  {
    forall ns: string, limits: bool, k: string
      ensures QuotaKept(ctx, unadmitted, sts[|clusters|].selected, ns, limits, k)
    {
      if QuotaIn(ctx, ns).Some? && k in BoundOf(ctx, ns, limits) {
        QuotaIsNotExceeded(ctx, aws, clusters, sts, unadmitted, ns, limits, k);
      }
    }
  }

  /** Over a cycle that lists the AppWrappers bs first: in every namespace with a
      quota, what the quota reports as used, what AppWrappers not idle on the
      server have yet to create, and what the cycle selects stay together within
      every bound that a selected ask draws on. */
  lemma {:induction false} NoQuotaOverrun(early: Context, bs: seq<Backed>, ctx: Context, aws: seq<Listed>, clusters: seq<Cluster>,
                                          sts: seq<Progress>, ns: string, quotas: seq<ResourceQuota>, limits: bool, k: string)
    requires AllModest(early, bs, limits, k) && PodsNonNegative(early)
    requires CycleSteps(ctx, aws, clusters, sts) && WellListed(ctx)
    requires sts[0].tracker == Tracker(map[], Weighed(early, ListingOf(bs))) && sts[0].selected == []
    requires ctx.quotas(ns) == Some(quotas) && quotas != []
    ensures var selected := sts[|clusters|].selected;
      var bound, used := Meaning(quotas[0].hard), Meaning(quotas[0].used);
      (exists i :: 0 <= i < |selected| && selected[i].namespace == ns && AskAt(selected[i], limits, k) > 0) && k in W.Part(bound, limits) ==>
        W.At(W.Part(used, limits), k) + Sum(bs, ActiveOutstanding(early, ns, limits, k)) + Sum(selected, AskIn(ns, limits, k))
        <= W.Part(bound, limits)[k]
  {
    DemandIsNotForgotten(early, bs, ns, limits, k);
    if k in W.Part(Meaning(quotas[0].hard), limits) {
      QuotaIsNotExceeded(ctx, aws, clusters, sts, Weighed(early, ListingOf(bs)), ns, limits, k);
    }
  }

  /** The selecting half of dispatch: a new tracker, initialised with the
      unadmitted demand if the AppWrappers could be listed for it, then the
      selection over all clusters from a second listing. */
  method SelectCycle(early: Context, listed: Option<seq<Listed>>, ctx: Context, aws: seq<Listed>,
                     clusters: seq<Cluster>, decisions: map<string, Reason>)
    returns (ok: bool, selected: seq<Listed>, decisions': map<string, Reason>, ghost sts: seq<Progress>)
    requires DistinctUids(aws)
    ensures ok == AllReadable(ctx, aws, clusters)
    ensures ok ==> CycleSteps(ctx, aws, clusters, sts)
    ensures ok ==> sts[0].tracker.state == map[] && sts[0].selected == [] && sts[0].decisions == decisions
    ensures ok ==> sts[|clusters|].selected == selected && sts[|clusters|].decisions == decisions'
    ensures ok ==> sts[0].tracker.unadmitted == if listed.Some? then Weighed(early, listed.value) else map[]
    ensures ok && listed.Some? && PodsNonNegative(early) ==> Accounts(sts[0].tracker.unadmitted, early, listed.value)
    ensures ok && WellListed(ctx) ==>
      forall ns: string, limits: bool, k: string :: QuotaKept(ctx, sts[0].tracker.unadmitted, selected, ns, limits, k)
  {
    var tracker := new QuotaTracker();
    ghost var unadmitted: map<string, W.Pair> := map[];
    if listed.Some? {
      var weights := UnadmittedPodsWeights(early, listed.value);
      tracker.Init(weights);
      unadmitted := weights;
    }
    ok, selected, decisions', sts := SelectForDispatch(ctx, aws, clusters, tracker, decisions);
    if ok && WellListed(ctx) {
      CycleKeepsQuotas(ctx, aws, clusters, sts, unadmitted);
    }
  }
}
