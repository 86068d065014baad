/** buildQueue: reservations per priority level and the ordered queue. */
module Queue {
  import opened Options
  import opened Lifecycle
  import opened Sums
  import W = Weights
  import opened Listings
  import opened Priorities
  import opened Ordering

  predicate Reserving(ctx: Context, aw: Listed, cluster: string) {
    Considered(ctx, aw, cluster) && Reserves(ctx, aw)
  }

  /** Contribution of an AppWrapper to priority level p alone. */
  function ReservedAt(ctx: Context, cluster: string, p: int, k: string): Listed -> int {
    (aw: Listed) => if Reserving(ctx, aw, cluster) && aw.priority == p then W.At(Reservation(ctx, aw), k) else 0
  }

  /** Contribution of an AppWrapper to priority level p and all levels below. */
  function ReservedFrom(ctx: Context, cluster: string, p: int, k: string): Listed -> int {
    (aw: Listed) => if Reserving(ctx, aw, cluster) && aw.priority >= p then W.At(Reservation(ctx, aw), k) else 0
  }

  function KnownLevels(ctx: Context, aws: seq<Listed>, cluster: string): set<int> {
    set i | 0 <= i < |aws| && Considered(ctx, aws[i], cluster) :: aws[i].priority
  }

  function Candidates(ctx: Context, aws: seq<Listed>, cluster: string): seq<Listed> {
    if aws == [] then []
    else
      var rest := Candidates(ctx, aws[..|aws| - 1], cluster);
      var aw := aws[|aws| - 1];
      if Considered(ctx, aw, cluster) && Waits(ctx, aw) then rest + [aw] else rest
  }

  /** What is reserved at a level: the reservations of exactly the AppWrappers of
      the cluster that are not taken for idle and have that priority or a higher
      one. */
  lemma {:induction false} ReservedMeans(ctx: Context, aws: seq<Listed>, cluster: string, p: int, k: string)
    ensures Sum(aws, ReservedFrom(ctx, cluster, p, k)) == Sum(aws,
              (aw: Listed) => if (ctx.multiCluster ==> aw.cluster == Some(cluster)) && Reserves(ctx, aw) && aw.priority >= p
              then W.At(Reservation(ctx, aw), k) else 0)
  {
    SumEqual(aws, ReservedFrom(ctx, cluster, p, k),
      (aw: Listed) => if (ctx.multiCluster ==> aw.cluster == Some(cluster)) && Reserves(ctx, aw) && aw.priority >= p
      then W.At(Reservation(ctx, aw), k) else 0);
  }

  /** The pods of every AppWrapper that holds resources can be listed. */
  predicate Readable(ctx: Context, aws: seq<Listed>, cluster: string) {
    forall i :: 0 <= i < |aws| && Reserving(ctx, aws[i], cluster) ==> ctx.pods(aws[i].namespace, aws[i].name).Some?
  }

  lemma {:induction false} CandidateMembers(ctx: Context, aws: seq<Listed>, cluster: string)
    ensures forall x :: x in Candidates(ctx, aws, cluster) <==> x in aws && Considered(ctx, x, cluster) && Waits(ctx, x)
    ensures forall x ::
      (multiset(Candidates(ctx, aws, cluster))[x] == if Considered(ctx, x, cluster) && Waits(ctx, x) then multiset(aws)[x] else 0)
  {
    if aws != [] {
      CandidateMembers(ctx, aws[..|aws| - 1], cluster);
      assert aws == aws[..|aws| - 1] + [aws[|aws| - 1]];
    }
  }

  /** The queue holds exactly the AppWrappers of the cluster that the cache, if
      it is ahead of the listing, or else the listing shows as Queued/Idle, and
      whose pause is over. */
  ghost predicate QueuesExactly(ctx: Context, aws: seq<Listed>, cluster: string, queue: seq<Listed>) {
    forall x :: x in queue <==>
      && x in aws
      && (ctx.multiCluster ==> x.cluster == Some(cluster))
      && (if x.uid in ctx.cache && ctx.cache[x.uid].count > x.status.count then ctx.cache[x.uid].phase else x.status.phase) == Phase(Queued, Idle)
      && ctx.now > x.status.requeueTime + x.pause
  }

  lemma {:induction false} CandidatesQueueExactly(ctx: Context, aws: seq<Listed>, cluster: string)
    ensures QueuesExactly(ctx, aws, cluster, Candidates(ctx, aws, cluster))
  {
    CandidateMembers(ctx, aws, cluster);
  }

  lemma {:induction false} SameQueued(ctx: Context, aws: seq<Listed>, cluster: string, queue: seq<Listed>, queue': seq<Listed>)
    requires QueuesExactly(ctx, aws, cluster, queue) && multiset(queue) == multiset(queue')
    ensures QueuesExactly(ctx, aws, cluster, queue')
  {
    SameMembers(queue, queue');
    SameMembers(queue', queue);
  }

  lemma {:induction false} CandidatesAreDistinct(ctx: Context, aws: seq<Listed>, cluster: string)
    requires DistinctUids(aws)
    ensures DistinctUids(Candidates(ctx, aws, cluster))
  {
    if aws != [] {
      var init := aws[..|aws| - 1];
      CandidatesAreDistinct(ctx, init, cluster);
      CandidateMembers(ctx, init, cluster);
      var rest := Candidates(ctx, init, cluster);
      forall i | 0 <= i < |rest|
        ensures rest[i].uid != aws[|aws| - 1].uid
      {
        assert rest[i] in init;
      }
    }
  }

  // ----- levels -----

  ghost predicate IsLevel(m: W.Amounts, ctx: Context, aws: seq<Listed>, cluster: string, p: int) {
    forall k :: W.At(m, k) == Sum(aws, ReservedAt(ctx, cluster, p, k))
  }

  lemma {:induction false} LevelKept(m: W.Amounts, ctx: Context, aws: seq<Listed>, cluster: string, p: int, aw: Listed)
    requires IsLevel(m, ctx, aws, cluster, p) && !(Reserving(ctx, aw, cluster) && aw.priority == p)
    ensures IsLevel(m, ctx, aws + [aw], cluster, p)
  {
    forall k
      ensures W.At(m, k) == Sum(aws + [aw], ReservedAt(ctx, cluster, p, k))
    {
      SumSnoc(aws, aw, ReservedAt(ctx, cluster, p, k));
    }
  }

  lemma {:induction false} LevelGrows(m: W.Amounts, ctx: Context, aws: seq<Listed>, cluster: string, aw: Listed)
    requires IsLevel(m, ctx, aws, cluster, aw.priority) && Reserving(ctx, aw, cluster)
    ensures IsLevel(W.Plus(m, Reservation(ctx, aw)), ctx, aws + [aw], cluster, aw.priority)
  {
    forall k
      ensures W.At(W.Plus(m, Reservation(ctx, aw)), k) == Sum(aws + [aw], ReservedAt(ctx, cluster, aw.priority, k))
    {
      SumSnoc(aws, aw, ReservedAt(ctx, cluster, aw.priority, k));
    }
  }

  lemma {:induction false} NewLevelIsEmpty(ctx: Context, aws: seq<Listed>, cluster: string, p: int)
    requires p !in KnownLevels(ctx, aws, cluster)
    ensures IsLevel(map[], ctx, aws, cluster, p)
  {
    if aws != [] {
      var init := aws[..|aws| - 1];
      assert forall i :: 0 <= i < |init| ==> init[i] == aws[i];
      NewLevelIsEmpty(ctx, init, cluster, p);
      assert aws[|aws| - 1].priority == p ==> !Considered(ctx, aws[|aws| - 1], cluster);
      LevelKept(map[], ctx, init, cluster, p, aws[|aws| - 1]);
      assert init + [aws[|aws| - 1]] == aws;
    }
  }

  function PerLevel(ctx: Context, aws: seq<Listed>, cluster: string, k: string): int -> int {
    (q: int) => Sum(aws, ReservedAt(ctx, cluster, q, k))
  }

  /** Summing level by level or AppWrapper by AppWrapper is the same. */
  lemma {:induction false} LevelsExchange(ctx: Context, aws: seq<Listed>, cluster: string, levels: set<int>, p: int, k: string)
    requires KnownLevels(ctx, aws, cluster) <= levels
    ensures SumSet(UpFrom(levels, p), PerLevel(ctx, aws, cluster, k)) == Sum(aws, ReservedFrom(ctx, cluster, p, k))
  {
    var s := UpFrom(levels, p);
    if aws == [] {
      SumSetZero(s, PerLevel(ctx, aws, cluster, k));
    } else {
      var init := aws[..|aws| - 1];
      var aw := aws[|aws| - 1];
      assert forall i :: 0 <= i < |init| ==> init[i] == aws[i];
      LevelsExchange(ctx, init, cluster, levels, p, k);
      var f := PerLevel(ctx, init, cluster, k);
      var g := PerLevel(ctx, aws, cluster, k);
      assert forall q :: g(q) == f(q) + ReservedAt(ctx, cluster, q, k)(aw);
      if Reserving(ctx, aw, cluster) && aw.priority >= p {
        assert aws[|aws| - 1].priority in KnownLevels(ctx, aws, cluster);
        SumSetChange(s, aw.priority, f, g);
      } else {
        SumSetEqual(s, f, g);
      }
    }
  }

  /** Propagated levels hold what all AppWrappers of that priority or a higher
      one reserve. */
  lemma {:induction false} AboveIsReservedFrom(v: map<int, W.Amounts>, ctx: Context, aws: seq<Listed>, cluster: string, p: int, k: string)
    requires v.Keys == KnownLevels(ctx, aws, cluster)
    requires forall q :: q in v ==> IsLevel(v[q], ctx, aws, cluster, q)
    ensures Above(v, p, k) == Sum(aws, ReservedFrom(ctx, cluster, p, k))
  {
    SumSetEqual(UpFrom(v.Keys, p), LevelAt(v, k), PerLevel(ctx, aws, cluster, k));
    LevelsExchange(ctx, aws, cluster, v.Keys, p, k);
  }

  /** The pods and the request of one AppWrapper, whichever is more. */
  method Reserve(ctx: Context, aw: Listed) returns (ok: bool, w: W.Weights)
    ensures ok == ctx.pods(aw.namespace, aw.name).Some?
    ensures fresh(w) && (ok ==> w.m == Reservation(ctx, aw))
  {
    w := Aggregate(aw, false);
    var pods := ctx.pods(aw.namespace, aw.name);
    ok := pods.Some?;
    if ok {
      var running := TotalOfPods(pods.value, false, false);
      w.Max(running.m);
    }
  }

  /** The levels account for exactly the given AppWrappers. */
  ghost predicate LevelsOk(ctx: Context, aws: seq<Listed>, cluster: string, reserved: map<int, W.Weights>)
    reads reserved.Values
  {
    && Separate(reserved)
    && reserved.Keys == KnownLevels(ctx, aws, cluster)
    && (forall p :: p in reserved ==> IsLevel(reserved[p].m, ctx, aws, cluster, p))
  }

  lemma {:induction false} KnownLevelsSnoc(ctx: Context, aws: seq<Listed>, cluster: string, aw: Listed)
    ensures KnownLevels(ctx, aws + [aw], cluster)
      == KnownLevels(ctx, aws, cluster) + (if Considered(ctx, aw, cluster) then {aw.priority} else {})
  {
    var all := aws + [aw];
    assert all[|aws|] == aw;
    assert forall i :: 0 <= i < |aws| ==> all[i] == aws[i];
  }

  lemma {:induction false} IgnoredKeepsLevels(ctx: Context, aws: seq<Listed>, cluster: string, reserved: map<int, W.Weights>, aw: Listed)
    requires LevelsOk(ctx, aws, cluster, reserved) && !Reserving(ctx, aw, cluster)
    requires Considered(ctx, aw, cluster) ==> aw.priority in reserved
    ensures LevelsOk(ctx, aws + [aw], cluster, reserved)
  {
    KnownLevelsSnoc(ctx, aws, cluster, aw);
    forall p | p in reserved
      ensures IsLevel(reserved[p].m, ctx, aws + [aw], cluster, p)
    {
      LevelKept(reserved[p].m, ctx, aws, cluster, p, aw);
    }
  }

  /** Adds the reservation of one AppWrapper to its level, which exists. */
  method AddReservation(ctx: Context, ghost aws: seq<Listed>, aw: Listed, cluster: string, reserved: map<int, W.Weights>)
    returns (ok: bool)
    requires Separate(reserved) && aw.priority in reserved
    requires reserved.Keys == KnownLevels(ctx, aws, cluster) + {aw.priority}
    requires forall p :: p in reserved ==> IsLevel(reserved[p].m, ctx, aws, cluster, p)
    requires Reserving(ctx, aw, cluster)
    modifies reserved[aw.priority]
    ensures ok == ctx.pods(aw.namespace, aw.name).Some?
    ensures ok ==> LevelsOk(ctx, aws + [aw], cluster, reserved)
  {
    var w;
    ok, w := Reserve(ctx, aw);
    if ok {
      ghost var before := Levels(reserved);
      reserved[aw.priority].Add(w.m);
      LevelGrows(before[aw.priority], ctx, aws, cluster, aw);
      KnownLevelsSnoc(ctx, aws, cluster, aw);
      forall p | p in reserved
        ensures IsLevel(reserved[p].m, ctx, aws + [aw], cluster, p)
      {
        if p != aw.priority { LevelKept(before[p], ctx, aws, cluster, p, aw); }
      }
    }
  }

  /** One iteration of the accounting loop, for an AppWrapper of this cluster. */
  method Account(ctx: Context, ghost aws: seq<Listed>, aw: Listed, cluster: string, reserved: map<int, W.Weights>)
    returns (ok: bool, reserved': map<int, W.Weights>)
    requires LevelsOk(ctx, aws, cluster, reserved) && Considered(ctx, aw, cluster)
    modifies reserved.Values
    ensures ok == (Reserves(ctx, aw) ==> ctx.pods(aw.namespace, aw.name).Some?)
    ensures ok ==> LevelsOk(ctx, aws + [aw], cluster, reserved')
    ensures Separate(reserved')
    ensures forall p :: p in reserved' ==> (p in reserved && reserved'[p] == reserved[p]) || fresh(reserved'[p])
  {
    reserved' := reserved;
    if aw.priority !in reserved {
      NewLevelIsEmpty(ctx, aws, cluster, aw.priority);
      var level := new W.Weights(map[]);
      reserved' := reserved'[aw.priority := level];
    }
    KnownLevelsSnoc(ctx, aws, cluster, aw);
    if Reserves(ctx, aw) {
      ok := AddReservation(ctx, aws, aw, cluster, reserved');
    } else {
      ok := true;
      forall p | p in reserved'
        ensures IsLevel(reserved'[p].m, ctx, aws + [aw], cluster, p)
      {
        LevelKept(reserved'[p].m, ctx, aws, cluster, p, aw);
      }
    }
  }

  method BuildQueue(ctx: Context, aws: seq<Listed>, cluster: string)
    returns (ok: bool, reserved: map<int, W.Weights>, queue: seq<Listed>)
    requires DistinctUids(aws)
    ensures ok == Readable(ctx, aws, cluster)
    ensures ok ==> reserved.Keys == KnownLevels(ctx, aws, cluster)
    ensures Separate(reserved) && forall p :: p in reserved ==> fresh(reserved[p])
    ensures ok ==> forall p :: p in reserved ==> forall k ::
      W.At(reserved[p].m, k) == Sum(aws, ReservedFrom(ctx, cluster, p, k))
    ensures ok ==> Sorted(queue) && multiset(queue) == multiset(Candidates(ctx, aws, cluster))
    ensures ok ==> InDispatchOrder(queue) && QueuesExactly(ctx, aws, cluster, queue)
  {
    reserved := map[];
    queue := [];
    for i := 0 to |aws|
      invariant Readable(ctx, aws[..i], cluster)
      invariant forall p :: p in reserved ==> fresh(reserved[p])
      invariant LevelsOk(ctx, aws[..i], cluster, reserved)
      invariant queue == Candidates(ctx, aws[..i], cluster)
    {
      var aw := aws[i];
      assert aws[..i + 1] == aws[..i] + [aw];
      assert aws[..i + 1][..i] == aws[..i];
      if !Considered(ctx, aw, cluster) {
        IgnoredKeepsLevels(ctx, aws[..i], cluster, reserved, aw);
        continue;
      }
      var readable;
      readable, reserved := Account(ctx, aws[..i], aw, cluster, reserved);
      if !readable {
        assert aws[i] == aw;
        return false, reserved, queue;
      }
      if Waits(ctx, aw) {
        queue := queue + [aw];
      }
    }
    assert aws[..|aws|] == aws;
    ghost var v := Levels(reserved);
    AssertPriorities(reserved);
    forall p, k | p in reserved
      ensures W.At(reserved[p].m, k) == Sum(aws, ReservedFrom(ctx, cluster, p, k))
    {
      AboveIsReservedFrom(v, ctx, aws, cluster, p, k);
    }
    CandidatesAreDistinct(ctx, aws, cluster);
    CandidatesQueueExactly(ctx, aws, cluster);
    ghost var candidates := queue;
    queue := SortQueue(queue);
    SameQueued(ctx, aws, cluster, candidates, queue);
    ok := true;
  }
}
