/**
 What a dispatch cycle reads: listed AppWrappers, pods, resource quotas, and
 the resource amounts derived from them.
 */
module Listings {
  import opened Options
  import opened Lifecycle
  import opened Sums
  import opened Weights

  datatype PodResources = PodResources(replicas: int, requests: Amounts, limits: Amounts)

  /** An AppWrapper as the dispatcher's listing shows it; `items` holds the
      custompodresources of each generic item. */
  datatype Listed = Listed(
    uid: string,
    namespace: string,
    name: string,
    priority: int,
    created: int,
    cluster: Option<string>,
    pause: int,
    status: Status,
    items: seq<seq<PodResources>>)

  datatype Container = Container(requests: Amounts, limits: Amounts)

  datatype Pod = Pod(containers: seq<Container>, initContainers: seq<Container>, overhead: Option<Amounts>, placed: bool, terminated: bool)

  datatype ResourceQuota = ResourceQuota(namespace: string, hard: Amounts, used: Amounts)

  /** One consistent reading of everything a cycle consults; None stands for an
      API error. */
  datatype Context = Context(
    cache: map<string, CacheEntry>,
    pods: (string, string) -> Option<seq<Pod>>,
    quotas: string -> Option<seq<ResourceQuota>>,
    now: int,
    multiCluster: bool)

  // ----- amounts asked for -----

  function Chosen(r: PodResources, limits: bool): Amounts {
    if limits then r.limits else r.requests
  }

  function AggregateItem(w: Amounts, item: seq<PodResources>, limits: bool): Amounts {
    if item == [] then w
    else PlusTimes(AggregateItem(w, item[..|item| - 1], limits), item[|item| - 1].replicas, Chosen(item[|item| - 1], limits))
  }

  function AggregateItems(items: seq<seq<PodResources>>, limits: bool): Amounts {
    if items == [] then map[]
    else AggregateItem(AggregateItems(items[..|items| - 1], limits), items[|items| - 1], limits)
  }

  function Requests(aw: Listed): Amounts {
    AggregateItems(aw.items, false)
  }

  /** Requests and limits, as a quota counts them. */
  function Ask(aw: Listed): Pair {
    Pair(AggregateItems(aw.items, false), AggregateItems(aw.items, true))
  }

  function PerReplica(limits: bool, k: string): PodResources -> int {
    (r: PodResources) => r.replicas * (if limits then At(r.limits, k) else At(r.requests, k))
  }

  function PerItem(limits: bool, k: string): seq<PodResources> -> int {
    (item: seq<PodResources>) => Sum(item, PerReplica(limits, k))
  }

  lemma {:induction false} ItemTotal(w: Amounts, item: seq<PodResources>, limits: bool, k: string)
    ensures At(AggregateItem(w, item, limits), k) == At(w, k) + Sum(item, PerReplica(limits, k))
  {
    if item != [] {
      ItemTotal(w, item[..|item| - 1], limits, k);
    }
  }

  /** The aggregate is the sum over all items of replicas times amount. */
  lemma {:induction false} AggregateTotal(items: seq<seq<PodResources>>, limits: bool, k: string)
    ensures At(AggregateItems(items, limits), k) == Sum(items, PerItem(limits, k))
  {
    if items != [] {
      AggregateTotal(items[..|items| - 1], limits, k);
      ItemTotal(AggregateItems(items[..|items| - 1], limits), items[|items| - 1], limits, k);
    }
  }

  lemma {:induction false} ItemsTotal(items: seq<seq<PodResources>>, limits: bool, k: string, g: PodResources -> int)
    requires forall r :: g(r) == PerReplica(limits, k)(r)
    ensures At(AggregateItems(items, limits), k) == Sum(items, (item: seq<PodResources>) => Sum(item, g))
  {
    AggregateTotal(items, limits, k);
    forall item | item in items
      ensures PerItem(limits, k)(item) == Sum(item, g)
    {
      SumEqual(item, PerReplica(limits, k), g);
    }
    SumEqual(items, PerItem(limits, k), (item: seq<PodResources>) => Sum(item, g));
  }

  /** What a cluster has to provide is the sum of requests, and what a quota
      counts is the sums of requests and of limits, each times the replicas. */
  lemma {:induction false} AskTotals(aw: Listed, k: string)
    ensures At(Requests(aw), k) == At(Ask(aw).requests, k)
      == Sum(aw.items, (item: seq<PodResources>) => Sum(item, (r: PodResources) => r.replicas * At(r.requests, k)))
    ensures At(Ask(aw).limits, k)
      == Sum(aw.items, (item: seq<PodResources>) => Sum(item, (r: PodResources) => r.replicas * At(r.limits, k)))
  {
    ItemsTotal(aw.items, false, k, (r: PodResources) => r.replicas * At(r.requests, k));
    ItemsTotal(aw.items, true, k, (r: PodResources) => r.replicas * At(r.limits, k));
  }

  /** aggregateRequests and aggregateLimits. */
  method Aggregate(aw: Listed, limits: bool) returns (w: Weights)
    ensures fresh(w) && w.m == AggregateItems(aw.items, limits)
    ensures forall k :: At(w.m, k) == Sum(aw.items, PerItem(limits, k))
  {
    w := new Weights(map[]);
    for i := 0 to |aw.items|
      invariant w.m == AggregateItems(aw.items[..i], limits)
    {
      var item := aw.items[i];
      ghost var before := w.m;
      for j := 0 to |item|
        invariant w.m == AggregateItem(before, item[..j], limits)
      {
        w.AddProd(item[j].replicas, if limits then item[j].limits else item[j].requests);
        assert item[..j + 1][..j] == item[..j];
      }
      assert item[..|item|] == item;
      assert aw.items[..i + 1][..i] == aw.items[..i];
    }
    assert aw.items[..|aw.items|] == aw.items;
    forall k
      ensures At(w.m, k) == Sum(aw.items, PerItem(limits, k))
    {
      AggregateTotal(aw.items, limits, k);
    }
  }

  // ----- amounts held by pods -----

  function Side(c: Container, limits: bool): Amounts {
    if limits then c.limits else c.requests
  }

  function AddContainers(cs: seq<Container>, limits: bool): Amounts {
    if cs == [] then map[] else Plus(AddContainers(cs[..|cs| - 1], limits), Side(cs[|cs| - 1], limits))
  }

  function MaxContainers(w: Amounts, cs: seq<Container>, limits: bool): Amounts {
    if cs == [] then w else Upper(MaxContainers(w, cs[..|cs| - 1], limits), Side(cs[|cs| - 1], limits))
  }

  /** What a pod occupies: the containers together, or any one init container
      if that is more, plus the overhead (which has no limits). */
  function PodAmounts(pod: Pod, limits: bool): Amounts {
    var w := MaxContainers(AddContainers(pod.containers, limits), pod.initContainers, limits);
    if !limits && pod.overhead.Some? then Plus(w, pod.overhead.value) else w
  }

  function PerContainer(limits: bool, k: string): Container -> int {
    (c: Container) => if limits then At(c.limits, k) else At(c.requests, k)
  }

  lemma {:induction false} ContainersTotal(cs: seq<Container>, limits: bool, k: string)
    ensures At(AddContainers(cs, limits), k) == Sum(cs, PerContainer(limits, k))
  {
    if cs != [] {
      ContainersTotal(cs[..|cs| - 1], limits, k);
    }
  }

  lemma {:induction false} MaxIsLeast(w: Amounts, cs: seq<Container>, limits: bool, k: string)
    ensures var r := At(MaxContainers(w, cs, limits), k);
      && At(w, k) <= r
      && (forall i :: 0 <= i < |cs| && k in Side(cs[i], limits) ==> At(Side(cs[i], limits), k) <= r)
      && (r == At(w, k) || exists i :: 0 <= i < |cs| && k in Side(cs[i], limits) && r == At(Side(cs[i], limits), k))
  {
    if cs != [] {
      MaxIsLeast(w, cs[..|cs| - 1], limits, k);
      var r := At(MaxContainers(w, cs, limits), k);
      if r != At(w, k) && !(k in Side(cs[|cs| - 1], limits) && r == At(Side(cs[|cs| - 1], limits), k)) {
        var i :| 0 <= i < |cs| - 1 && k in Side(cs[..|cs| - 1][i], limits) && r == At(Side(cs[..|cs| - 1][i], limits), k);
        assert cs[i] == cs[..|cs| - 1][i];
      }
    }
  }

  /** Apart from overhead, a pod occupies the least amount that covers both all
      its containers at once and each init container alone. */
  lemma {:induction false} PodAmountsAreLeast(pod: Pod, limits: bool, k: string)
    ensures
      var overhead := if !limits && pod.overhead.Some? then At(pod.overhead.value, k) else 0;
      var r := At(PodAmounts(pod, limits), k) - overhead;
      var amounts := (c: Container) => if limits then c.limits else c.requests;
      var together := Sum(pod.containers, (c: Container) => At(amounts(c), k));
      var inits := pod.initContainers;
      && together <= r
      && (forall i :: 0 <= i < |inits| && k in amounts(inits[i]) ==> amounts(inits[i])[k] <= r)
      && (r == together || exists i :: 0 <= i < |inits| && k in amounts(inits[i]) && r == amounts(inits[i])[k])
  {
    var amounts := (c: Container) => if limits then c.limits else c.requests;
    ContainersTotal(pod.containers, limits, k);
    SumEqual(pod.containers, PerContainer(limits, k), (c: Container) => At(amounts(c), k));
    MaxIsLeast(AddContainers(pod.containers, limits), pod.initContainers, limits, k);
  }

  /** NewWeightsForPod and NewLimitsWeightsForPod. */
  method WeightsForPod(pod: Pod, limits: bool) returns (w: Weights)
    ensures fresh(w) && w.m == PodAmounts(pod, limits)
  {
    w := new Weights(map[]);
    for i := 0 to |pod.containers|
      invariant w.m == AddContainers(pod.containers[..i], limits)
    {
      w.Add(Side(pod.containers[i], limits));
      assert pod.containers[..i + 1][..i] == pod.containers[..i];
    }
    assert pod.containers[..|pod.containers|] == pod.containers;
    ghost var together := w.m;
    for i := 0 to |pod.initContainers|
      invariant w.m == MaxContainers(together, pod.initContainers[..i], limits)
    {
      w.Max(Side(pod.initContainers[i], limits));
      assert pod.initContainers[..i + 1][..i] == pod.initContainers[..i];
    }
    assert pod.initContainers[..|pod.initContainers|] == pod.initContainers;
    if !limits && pod.overhead.Some? {
      w.Add(pod.overhead.value);
    }
  }

  /** All pods, or only those placed on a node and not terminated. */
  function PodsTotal(pods: seq<Pod>, limits: bool, all: bool): Amounts {
    if pods == [] then map[]
    else
      var rest := PodsTotal(pods[..|pods| - 1], limits, all);
      var pod := pods[|pods| - 1];
      if all || (pod.placed && !pod.terminated) then Plus(rest, PodAmounts(pod, limits)) else rest
  }

  /** It is the sum over exactly these pods. */
  lemma {:induction false} PodsTotalIsSum(pods: seq<Pod>, limits: bool, all: bool, k: string)
    ensures At(PodsTotal(pods, limits, all), k)
      == Sum(pods, (pod: Pod) => if all || (pod.placed && !pod.terminated) then At(PodAmounts(pod, limits), k) else 0)
  {
    if pods != [] {
      PodsTotalIsSum(pods[..|pods| - 1], limits, all, k);
    }
  }

  method TotalOfPods(pods: seq<Pod>, limits: bool, all: bool) returns (w: Weights)
    ensures fresh(w) && w.m == PodsTotal(pods, limits, all)
  {
    w := new Weights(map[]);
    for i := 0 to |pods|
      invariant w.m == PodsTotal(pods[..i], limits, all)
    {
      if all || (pods[i].placed && !pods[i].terminated) {
        var p := WeightsForPod(pods[i], limits);
        w.Add(p.m);
      }
      assert pods[..i + 1][..i] == pods[..i];
    }
    assert pods[..|pods|] == pods;
  }

  // ----- classification of listed AppWrappers -----

  function PhaseOf(ctx: Context, aw: Listed): Phase {
    Effective(if aw.uid in ctx.cache then Some(ctx.cache[aw.uid]) else None, aw.status)
  }

  predicate Considered(ctx: Context, aw: Listed, cluster: string) {
    ctx.multiCluster ==> aw.cluster == Some(cluster)
  }

  /** The AppWrapper has left the queue and holds resources. */
  predicate Reserves(ctx: Context, aw: Listed) {
    PhaseOf(ctx, aw).step != Idle
  }

  /** The AppWrapper waits for dispatch and its pause is over. */
  predicate Waits(ctx: Context, aw: Listed) {
    PhaseOf(ctx, aw) == Phase(Queued, Idle) && ctx.now > aw.status.requeueTime + aw.pause
  }

  /** What the AppWrapper is taken to hold: its request or what its running pods
      occupy, whichever is more. */
  function Reservation(ctx: Context, aw: Listed): Amounts {
    var pods := ctx.pods(aw.namespace, aw.name);
    Upper(Requests(aw), if pods.Some? then PodsTotal(pods.value, false, false) else map[])
  }

  /** What the pods of an AppWrapper occupy that are placed on a node and not
      terminated; nothing if they cannot be listed. */
  function Occupied(ctx: Context, aw: Listed, k: string): int {
    var pods := ctx.pods(aw.namespace, aw.name);
    if pods.None? then 0
    else Sum(pods.value, (pod: Pod) => if pod.placed && !pod.terminated then At(PodAmounts(pod, false), k) else 0)
  }

  /** A reservation is the request or what the pods occupy, whichever is more. */
  lemma {:induction false} ReservationIsLarger(ctx: Context, aw: Listed, k: string)
    ensures var request, occupied, r := At(Requests(aw), k), Occupied(ctx, aw, k), At(Reservation(ctx, aw), k);
      && request <= r && (r == request || r == occupied)
      && (occupied > 0 || request >= 0 ==> r == Larger(request, occupied))
  {
    var pods := ctx.pods(aw.namespace, aw.name);
    if pods.Some? {
      PodsTotalIsSum(pods.value, false, false, k);
      SumEqual(pods.value,
        (pod: Pod) => if false || (pod.placed && !pod.terminated) then At(PodAmounts(pod, false), k) else 0,
        (pod: Pod) => if pod.placed && !pod.terminated then At(PodAmounts(pod, false), k) else 0);
    }
  }

  /** The phase that the cycle goes by: what the write cache holds, if that is
      ahead of the listing, and otherwise what is listed. */
  lemma {:induction false} ClassificationMeans(ctx: Context, aw: Listed)
    ensures var ahead := aw.uid in ctx.cache && ctx.cache[aw.uid].count > aw.status.count;
      && (Reserves(ctx, aw) <==> if ahead then ctx.cache[aw.uid].phase.step != Idle else aw.status.phase.step != Idle)
      && (Waits(ctx, aw) <==>
            && (if ahead then ctx.cache[aw.uid].phase == Phase(Queued, Idle) else aw.status.phase == Phase(Queued, Idle))
            && ctx.now > aw.status.requeueTime + aw.pause)
  {
  }

  predicate DistinctUids(aws: seq<Listed>) {
    forall i, j :: 0 <= i < j < |aws| ==> aws[i].uid != aws[j].uid
  }
}
