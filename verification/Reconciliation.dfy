/**
 The two Reconcile methods as the code runs them, call by call, on a local copy
 of the AppWrapper, the write cache, the API server and the wrapped objects.
 Each call of Reconcile is shown to be a run of the protocol, the one that the
 replies of its surroundings determine: whatever is proved about all runs holds
 of the code's control flow.
 */
module Reconciliation {
  import opened Options
  import opened Lifecycle
  import opened Protocol
  import opened Runs
  import opened Reconcilers

  /** How the surroundings respond to one call of Reconcile, which starts at
      `now`: outcomes of API calls (of the finalizer update, and of any other
      write by the number of copies left in the selected list), of creations
      and deletions per item, and the pods found. Replies come at `later`. */
  datatype Env = Env(
    now: int,
    later: int,
    first: Outcome,
    outcomes: nat -> Outcome,
    createFaults: nat -> CreateFault,
    deleteFaults: nat -> bool,
    pods: nat)

  function ItemExists(spec: Spec, w: World, i: nat): bool {
    i < |spec.items| && spec.items[i].Some? && spec.items[i].value in w.resources
  }

  /** The step that the environment's responses dictate for a controller in the
      middle of something. */
  function Answer(spec: Spec, c: Controller, env: Env, w: World): Label
    requires !Get(w, c).flight.Resting?
  {
    match Get(w, c).flight
    case Selected(_, _, _) => Check(env.later)
    case Calling(_, request, rest, _) => Reply(c, if request.AddFinalizers? then env.first else env.outcomes(rest), env.later)
    case Building(_, i) => CreateItem(CreatedWith(env.createFaults(i), ItemExists(spec, w, i)), env.now)
    case Clearing(_, i, _) =>
      if i == |spec.items| then EndDelete(env.pods, env.now)
      else DeleteItem(RemovedWith(i < |spec.items| && spec.items[i].Some? && env.deleteFaults(i), ItemExists(spec, w, i)))
  }

  /** The labels lead from w to w', each as dictated, without a rest. */
  predicate Answered(spec: Spec, c: Controller, env: Env, w: World, ls: seq<Label>, w': World)
    decreases |ls|
  {
    if ls == [] then w == w'
    else
      && !Get(w, c).flight.Resting?
      && ls[0] == Answer(spec, c, env, w)
      && Enabled(spec, w, ls[0])
      && Answered(spec, c, env, Exec(spec, w, ls[0]), ls[1..], w')
  }

  lemma {:induction false} AnsweredSnoc(spec: Spec, c: Controller, env: Env, w: World, ls: seq<Label>, w': World)
    requires Answered(spec, c, env, w, ls, w')
    requires !Get(w', c).flight.Resting? && Enabled(spec, w', Answer(spec, c, env, w'))
    ensures var l := Answer(spec, c, env, w'); Answered(spec, c, env, w, ls + [l], Exec(spec, w', l))
    decreases |ls|
  {
    var l := Answer(spec, c, env, w');
    if ls == [] {
      assert [l][1..] == [];
      assert Answered(spec, c, env, Exec(spec, w', l), [], Exec(spec, w', l));
    } else {
      AnsweredSnoc(spec, c, env, Exec(spec, w, ls[0]), ls[1..], w');
      assert (ls + [l])[1..] == ls[1..] + [l];
    }
  }

  /** What is dictated is a run of the protocol. */
  lemma {:induction false} AnsweredIsRun(spec: Spec, c: Controller, env: Env, w: World, ls: seq<Label>, w': World)
    requires Answered(spec, c, env, w, ls, w')
    ensures Run(spec, w, ls, w')
    decreases |ls|
  {
    if ls != [] {
      AnsweredIsRun(spec, c, env, Exec(spec, w, ls[0]), ls[1..], w');
    }
  }

  /** And there is only one that comes to rest. */
  lemma {:induction false} AnsweredIsUnique(spec: Spec, c: Controller, env: Env, w: World, ls: seq<Label>, w1: World, ls': seq<Label>, w2: World)
    requires Answered(spec, c, env, w, ls, w1) && Get(w1, c).flight.Resting?
    requires Answered(spec, c, env, w, ls', w2) && Get(w2, c).flight.Resting?
    ensures ls == ls' && w1 == w2
    decreases |ls|
  {
    if ls != [] {
      assert ls[0] == ls'[0];
      AnsweredIsUnique(spec, c, env, Exec(spec, w, ls[0]), ls[1..], w1, ls'[1..], w2);
      assert ls == [ls[0]] + ls[1..] && ls' == [ls'[0]] + ls'[1..];
    }
  }

  /** A reconciler at work on one AppWrapper. The ghost fields follow one call
      of Reconcile through the protocol, from its first step on. */
  class Process {
    const spec: Spec
    const uid: string
    const me: Controller
    const api: ApiServer
    const cluster: Cluster
    const rec: Reconciler
    ghost var env: Env
    ghost var start: World
    ghost var world: World
    ghost var trace: seq<Label>

    constructor (spec: Spec, uid: string, api: ApiServer, cluster: Cluster, rec: Reconciler, ghost env: Env, ghost w: World)
      requires w.versions == api.versions && api.versions != [] && w.gone == api.gone && w.resources == cluster.existing
      requires Get(w, rec.controller).cache == Lookup(rec.cache, uid)
      ensures Linked() && world == w && start == w && trace == []
      ensures this.spec == spec && this.uid == uid && me == rec.controller
      ensures this.api == api && this.cluster == cluster && this.rec == rec
    {
      this.spec, this.uid, this.api, this.cluster, this.rec := spec, uid, api, cluster, rec;
      me := rec.controller;
      this.env, start, world, trace := env, w, w, [];
    }

    ghost function Mine(): Ctl
      reads this
    {
      Get(world, me)
    }

    /** The steps so far are the dictated ones, and they lead to the actual
        state. */
    ghost predicate Linked()
      reads this, api, cluster, rec
    {
      Tied() && Mine().cache == Lookup(rec.cache, uid)
    }

    ghost predicate Tied()
      reads this, api, cluster, rec
    {
      && rec.controller == me
      && Answered(spec, me, env, start, trace, world)
      && world.versions == api.versions && world.versions != [] && world.gone == api.gone
      && world.resources == cluster.existing
    }

    /** The first step of a call. */
    ghost method Enter(l: Label, env: Env)
      requires Enabled(spec, world, l)
      modifies this
      ensures world == start == Exec(spec, old(world), l) && trace == [] && this.env == env
      ensures Answered(spec, me, env, start, trace, world)
    {
      start, world, trace, this.env := Exec(spec, world, l), Exec(spec, world, l), [], env;
    }

    /** Any further step. */
    ghost method Take(l: Label)
      requires Answered(spec, me, env, start, trace, world)
      requires !Mine().flight.Resting? && l == Answer(spec, me, env, world) && Enabled(spec, world, l)
      modifies this
      ensures start == old(start) && env == old(env) && world == Exec(spec, old(world), l)
      ensures Answered(spec, me, env, start, trace, world)
    {
      AnsweredSnoc(spec, me, env, start, trace, world);
      world, trace := Exec(spec, world, l), trace + [l];
    }

    /** Other AppWrappers' cache entries. */
    ghost function OtherEntries(): map<string, CacheEntry>
      reads rec
    {
      rec.cache - {uid}
    }

    ghost predicate AboutTo(aw: AppWrapper, request: Request)
      reads this, aw
    {
      aw.uid == uid && Mine().flight.Calling? && Mine().flight.base == aw.base && Mine().flight.request == request
    }

    ghost predicate Settled()
      reads this
    {
      Mine().flight.Resting?
    }

    /** In the middle of a call. */
    ghost predicate Under(env: Env)
      reads this
    {
      this.env == env && world.clock <= env.later
    }

    /** The local copy still equals the stored version it was read from. */
    ghost predicate Fresh(aw: AppWrapper)
      reads this, aw
    {
      aw.uid == uid && aw.base < |world.versions| && aw.Value() == world.versions[aw.base]
    }

    /** After a commit the dispatching loop goes on to the next copy, if any. */
    ghost function Next(f: Flight, ok: bool): Flight
      requires f.Calling?
    {
      if ok && f.rest > 0 then Selected(f.base, f.rest - 1, f.since) else Resting
    }

    /** updateStatus is the reply to a prepared commit. */
    method Commit(aw: AppWrapper, phase: Phase, time: int, rest: nat, env: Env) returns (ok: bool)
      requires Linked() && Under(env) && AboutTo(aw, Request.Commit(NextStatus(me, aw.status, phase, time))) && Mine().flight.rest == rest
      modifies this, api, rec, aw
      ensures Linked() && Under(env) && start == old(start) && old(api.versions) <= api.versions
      ensures Mine().flight == Next(old(Mine().flight), ok) && OtherEntries() == old(OtherEntries())
    {
      Take(Reply(me, env.outcomes(rest), env.later));
      ok := rec.UpdateStatus(api, aw, phase, time, env.outcomes(rest));
    }

    /** A commit outside of the dispatching loop. */
    method Finish(aw: AppWrapper, phase: Phase, time: int, env: Env)
      requires Linked() && Under(env) && AboutTo(aw, Request.Commit(NextStatus(me, aw.status, phase, time))) && Mine().flight.rest == 0
      modifies this, api, rec, aw
      ensures Linked() && Settled() && Under(env) && start == old(start) && OtherEntries() == old(OtherEntries())
    {
      var _ := Commit(aw, phase, time, 0, env);
    }

    /** So is requeueOrFail. */
    method Fall(aw: AppWrapper, fatal: bool, env: Env)
      requires me == Runner && Linked() && Under(env)
      requires AboutTo(aw, Request.Commit(RequeueOrFail(spec, aw.status, fatal, env.now))) && Mine().flight.rest == 0
      modifies this, api, rec, aw
      ensures Linked() && Settled() && Under(env) && start == old(start) && OtherEntries() == old(OtherEntries())
    {
      Take(Reply(me, env.outcomes(0), env.later));
      var _ := rec.RequeueOrFail(api, aw, spec, fatal, env.now, env.outcomes(0));
    }

    /** What the protocol does when a finalizer is removed. */
    ghost method TakeRelease(env: Env)
      requires Answered(spec, me, env, start, trace, world) && world.versions != [] && Under(env)
      requires Mine().flight.Calling? && Mine().flight.request == RemoveFinalizer && Mine().flight.rest == 0
      modifies this
      ensures Answered(spec, me, env, start, trace, world) && start == old(start) && Under(env) && Settled()
      ensures world.resources == old(world.resources)
      ensures var outcome := env.outcomes(0);
        if old(Stores(world, Mine().flight.base, outcome)) then
          var o := old(WithoutFinalizer(Server(world), me));
          && world.versions == old(world.versions) + [o] && world.gone == Collectable(o)
          && Mine().cache == if outcome == Ok then None else old(Mine().cache)
        else world.versions == old(world.versions) && world.gone == old(world.gone) && Mine().cache == old(Mine().cache)
    {
      Take(Reply(me, env.outcomes(0), env.later));
    }

    /** Removal of this reconciler's own finalizer, then of the cache entry. */
    method Release(aw: AppWrapper, env: Env)
      requires Linked() && Under(env) && AboutTo(aw, RemoveFinalizer) && Mine().flight.rest == 0 && Fresh(aw)
      modifies this, api, rec, aw
      ensures Linked() && Settled() && Under(env) && start == old(start) && OtherEntries() == old(OtherEntries())
    {
      TakeRelease(env);
      aw.RemoveFinalizer(me);
      var ok := api.Update(aw, env.outcomes(0));
      if ok {
        rec.DeleteCached(aw);
      }
    }

    ghost function Plan(aw: AppWrapper, cache: Option<CacheEntry>, decided: bool, health: Health, now: int): Ctl
      reads this, aw
    {
      if me == Dispatcher then DispatcherPlan(aw.Value(), aw.base, cache, now, decided)
      else RunnerPlan(spec, aw.Value(), aw.base, cache, now, health)
    }

    /** The common start: read the AppWrapper and check for staleness. */
    method Open(view: nat, env: Env, ghost decided: bool, ghost health: Health) returns (aw: AppWrapper, stale: bool)
      requires Linked() && Settled() && view == Mine().view < |api.versions| && world.clock <= env.now <= env.later
      modifies this, rec
      ensures fresh(aw) && Tied() && Under(env) && world.clock == env.now
      ensures start == Exec(spec, old(world), Begin(me, env.now, decided, health)) && OtherEntries() == old(OtherEntries())
      ensures stale ==> Linked() && Settled()
      ensures !stale ==> Fresh(aw) && Mine() == Plan(aw, Lookup(rec.cache, uid), decided, health, env.now)
    {
      aw := new AppWrapper(uid, view, api.versions[view]);
      stale := rec.IsStale(aw, env.now);
      Enter(Begin(me, env.now, decided, health), env);
    }

    // ----- Dispatcher -----

    /** Both finalizers first, the status only if they were stored. */
    method Enqueue(aw: AppWrapper, env: Env)
      requires me == Dispatcher && Linked() && Under(env) && Fresh(aw)
      requires Mine().flight.Calling? && Mine().flight.rest == 0
      requires AboutTo(aw,
                 if aw.dispatchFinalizer && aw.runnerFinalizer then Request.Commit(NextStatus(me, aw.status, Phase(Queued, Idle), env.now))
                 else AddFinalizers)
      modifies this, api, rec, aw
      ensures Linked() && Settled() && start == old(start) && env == this.env && OtherEntries() == old(OtherEntries())
    {
      if aw.dispatchFinalizer && aw.runnerFinalizer {
        Finish(aw, Phase(Queued, Idle), env.now, env);
      } else {
        Take(Reply(me, env.first, env.later));
        aw.dispatchFinalizer, aw.runnerFinalizer := true, true;
        var ok := api.Update(aw, env.first);
        if ok {
          Finish(aw, Phase(Queued, Idle), env.later, env);
        }
      }
    }

    method DispatcherDeletes(aw: AppWrapper, ghost decided: bool, env: Env)
      requires me == Dispatcher && Tied() && Under(env) && Fresh(aw) && aw.deleting
      requires Mine() == Plan(aw, Lookup(rec.cache, uid), decided, CountError, env.now)
      modifies this, api, rec, aw
      ensures Linked() && Settled() && start == old(start) && env == this.env && OtherEntries() == old(OtherEntries())
    {
      if aw.runnerFinalizer {
        return;
      }
      if aw.dispatchFinalizer {
        Release(aw, env);
      } else {
        rec.DeleteCached(aw);
      }
    }

    /** Writes a queuing decision to the condition; the phase stays. */
    method Propagate(aw: AppWrapper, env: Env)
      requires Linked() && Under(env) && AboutTo(aw, WriteCondition) && Mine().flight.rest == 0 && Fresh(aw)
      modifies this, api, aw
      ensures Linked() && Settled() && Under(env) && start == old(start)
    {
      Take(Reply(me, env.outcomes(0), env.later));
      var _ := api.UpdateStatus(aw, env.outcomes(0));
    }

    method DispatcherMoves(aw: AppWrapper, decided: bool, env: Env)
      requires me == Dispatcher && Linked() && Under(env) && Fresh(aw) && !aw.deleting
      requires Mine() == Plan(aw, Lookup(rec.cache, uid), decided, CountError, env.now)
      modifies this, api, rec, aw
      ensures Linked() && Settled() && start == old(start) && env == this.env && OtherEntries() == old(OtherEntries())
    {
      match aw.status.phase
      case Phase(Empty, _) => Enqueue(aw, env);
      case Phase(Queued, _) =>
        if decided {
          Propagate(aw, env);
        }
      case Phase(Running, Dispatching) => Finish(aw, Phase(Running, Accepting), env.now, env);
      case Phase(Running, Deleted) =>
        aw.status := aw.status.(restarts := aw.status.restarts + 1);
        aw.status := aw.status.(requeueTime := env.now);
        Finish(aw, Phase(Queued, Idle), env.now, env);
      case Phase(Failed, Deleted) => Finish(aw, Phase(Failed, Idle), env.now, env);
      case _ =>
    }

    /** Dispatcher.Reconcile for one AppWrapper. `view` is the version that the
        reconciler's informer serves; `decided` tells whether a queuing decision
        waits to be written to the AppWrapper's condition. */
    method ReconcileDispatcher(view: nat, decided: bool, env: Env)
      requires me == Dispatcher && Linked() && Settled() && view == Mine().view < |api.versions|
      requires world.clock <= env.now <= env.later
      modifies this, api, rec
      ensures start == Exec(spec, old(world), Begin(me, env.now, decided, CountError)) && this.env == env
      ensures Linked() && Settled() && OtherEntries() == old(OtherEntries())
    {
      var aw, stale := Open(view, env, decided, CountError);
      if stale {
        return;
      }
      if aw.deleting {
        DispatcherDeletes(aw, decided, env);
      } else {
        DispatcherMoves(aw, decided, env);
      }
    }

    /** One entry of the selected list. */
    method DispatchOne(aw: AppWrapper, rest: nat, env: Env) returns (ok: bool)
      requires me == Dispatcher && Linked() && Under(env) && Fresh(aw)
      requires Mine().flight.Selected? && Mine().flight.base == aw.base && Mine().flight.rest == rest
      modifies this, api, rec, aw
      ensures Linked() && Under(env) && start == old(start) && OtherEntries() == old(OtherEntries())
      ensures old(api.versions) <= api.versions
      ensures Mine().flight ==
        var f := old(Mine().flight);
        if ok && f.rest > 0 then Selected(f.base, f.rest - 1, f.since) else Resting
    {
      var stale := rec.IsStale(aw, env.later);
      Take(Check(env.later));
      if stale || aw.status.phase.state != Queued {
        return false;
      }
      ok := Commit(aw, Phase(Running, Dispatching), env.later, rest, env);
    }

    /** The dispatching loop, seen from one AppWrapper that was listed as
        eligible and occurs 1 + extra times in the selected list. */
    method DispatchSelected(view: nat, extra: nat, env: Env)
      requires me == Dispatcher && Linked() && Settled() && view == Mine().view < |api.versions|
      requires world.clock <= env.now <= env.later && Eligible(spec, Mine().cache, api.versions[view].status, env.now)
      modifies this, api, rec
      ensures start == Exec(spec, old(world), List(env.now, extra)) && this.env == env
      ensures Linked() && Settled() && OtherEntries() == old(OtherEntries())
    {
      var o := api.versions[view];
      Enter(List(env.now, extra), env);
      ghost var listed := start;
      for i := 0 to 1 + extra
        invariant Linked() && Under(env) && start == listed
        invariant view < |api.versions| && api.versions[view] == o && OtherEntries() == old(OtherEntries())
        invariant Mine().flight == if i <= extra then Selected(view, extra - i, env.now) else Resting
      {
        var aw := new AppWrapper(uid, view, o);
        var ok := DispatchOne(aw, extra - i, env);
        if !ok {
          return;
        }
      }
    }

    // ----- Runner -----

    method CreateOne(aw: AppWrapper, i: nat, env: Env) returns (r: Created)
      requires me == Runner && Linked() && Under(env) && world.clock == env.now && Fresh(aw)
      requires Mine().flight == Building(aw.base, i) && i < |spec.items| && spec.items[i].Some?
      modifies this, cluster
      ensures Linked() && Under(env) && world.clock == env.now && start == old(start) && world.versions == old(world.versions)
      ensures Mine().flight ==
        if r.Made? || r.AlreadyThere? then Build(spec, aw.status, aw.base, i + 1, env.now)
        else Fallback(spec, aw.status, aw.base, r.fatal, env.now)
      ensures old(cluster.existing) <= cluster.existing
      ensures r.Made? || r.AlreadyThere? ==> spec.items[i].value in cluster.existing
    {
      r := cluster.Create(spec.items[i].value, env.createFaults(i));
      Take(CreateItem(r, env.now));
    }

    /** createResources: gives up at the first error. */
    method CreateResources(aw: AppWrapper, env: Env) returns (ok: bool, fatal: bool)
      requires me == Runner && Linked() && Under(env) && world.clock == env.now && Fresh(aw)
      requires Mine().flight == if Parses(spec) then Build(spec, aw.status, aw.base, 0, env.now) else Fallback(spec, aw.status, aw.base, true, env.now)
      modifies this, cluster
      ensures Linked() && Under(env) && start == old(start) && Fresh(aw)
      ensures AboutTo(aw, Request.Commit(if ok then NextStatus(Runner, aw.status, Phase(Running, Created), env.now) else RequeueOrFail(spec, aw.status, fatal, env.now)))
      ensures Mine().flight.rest == 0
      ensures ok ==> forall i :: 0 <= i < |spec.items| ==> spec.items[i].Some? && spec.items[i].value in cluster.existing
    {
      if exists i :: 0 <= i < |spec.items| && spec.items[i].None? {
        return false, true;
      }
      for i := 0 to |spec.items|
        invariant Linked() && Under(env) && world.clock == env.now && start == old(start)
        invariant world.versions == old(world.versions)
        invariant Mine().flight == Build(spec, aw.status, aw.base, i, env.now)
        invariant forall j :: 0 <= j < i ==> spec.items[j].value in cluster.existing
      {
        var r := CreateOne(aw, i, env);
        if r.NotMade? || r.MadeButFailed? {
          return false, r.fatal;
        }
      }
      return true, false;
    }

    /** A template that does not parse is skipped; an error counts as gone. */
    method DeleteOne(aw: AppWrapper, i: nat, env: Env) returns (found: bool)
      requires me == Runner && Linked() && Under(env) && Mine().flight.Clearing? && Mine().flight.next == i < |spec.items|
      modifies this
      ensures Linked() && Under(env) && start == old(start)
      ensures world.versions == old(world.versions) && world.clock == old(world.clock)
      ensures found <==> spec.items[i].Some? && spec.items[i].value in cluster.existing && !env.deleteFaults(i)
      ensures Mine().flight == old(Mine().flight).(next := i + 1, remaining := old(Mine().flight).remaining + if found then 1 else 0)
    {
      found := false;
      if spec.items[i].Some? {
        var r := cluster.Delete(spec.items[i].value, env.deleteFaults(i));
        Take(DeleteItem(r));
        found := r.StillThere?;
      } else {
        Take(DeleteItem(NotFound));
      }
    }

    /** deleteResources: done only if nothing was found, and with forced
        deletion enabled only if no pods are left either. */
    method DeleteResources(aw: AppWrapper, env: Env) returns (done: bool)
      requires me == Runner && Linked() && Under(env) && world.clock == env.now && Fresh(aw) && Mine().flight == Clearing(aw.base, 0, 0)
      modifies this
      ensures Linked() && Under(env) && start == old(start) && Fresh(aw)
      ensures !done ==> Settled()
      ensures done ==> Mine().flight.Calling? && Mine().flight.rest == 0
      ensures done ==> AboutTo(aw, if aw.deleting then RemoveFinalizer else Request.Commit(NextStatus(Runner, aw.status, Phase(aw.status.phase.state, Deleted), env.now)))
      ensures done <==>
        && (forall i :: 0 <= i < |spec.items| && spec.items[i].Some? && spec.items[i].value in cluster.existing ==> env.deleteFaults(i))
        && (spec.forceDeletion <= 0 || env.pods == 0)
    {
      var remaining := 0;
      for i := 0 to |spec.items|
        invariant Linked() && Under(env) && world.clock == env.now && start == old(start)
        invariant world.versions == old(world.versions)
        invariant Mine().flight == Clearing(aw.base, i, remaining)
        invariant remaining == 0 <==> forall j :: 0 <= j < i && spec.items[j].Some? && spec.items[j].value in cluster.existing ==> env.deleteFaults(j)
      {
        var found := DeleteOne(aw, i, env);
        if found {
          remaining := remaining + 1;
        }
      }
      Take(EndDelete(env.pods, env.now));
      done := remaining == 0 && (spec.forceDeletion <= 0 || env.pods == 0);
    }

    /** The health check of a running AppWrapper. */
    method CheckHealth(aw: AppWrapper, health: Health, env: Env)
      requires me == Runner && Linked() && Under(env) && Fresh(aw)
      requires Mine().flight == Monitor(spec, aw.status, aw.base, env.now, health)
      modifies this, api, rec, aw
      ensures Linked() && Settled() && start == old(start) && env == this.env && OtherEntries() == old(OtherEntries())
    {
      if health.CountError? {
        return;
      }
      if health.success {
        Finish(aw, Phase(Succeeded, Idle), env.now, env);
        return;
      }
      var minAvailable := spec.minAvailable;
      if minAvailable == 0 {
        minAvailable := 1;
      }
      if env.now > aw.status.dispatchTime + spec.requeueAfter && health.pods < minAvailable {
        Fall(aw, false, env);
      }
    }

    /** Deletion goes before the finalizer. */
    method RunnerDeletes(aw: AppWrapper, ghost health: Health, env: Env)
      requires me == Runner && Tied() && Under(env) && world.clock == env.now && Fresh(aw) && aw.deleting
      requires Mine() == Plan(aw, Lookup(rec.cache, uid), false, health, env.now)
      modifies this, api, rec, aw
      ensures Linked() && Settled() && start == old(start) && env == this.env && OtherEntries() == old(OtherEntries())
    {
      if aw.runnerFinalizer {
        var done := DeleteResources(aw, env);
        if done {
          Release(aw, env);
        }
      } else {
        rec.DeleteCached(aw);
      }
    }

    /** The two Deleting phases. */
    method Clear(aw: AppWrapper, env: Env)
      requires me == Runner && Linked() && Under(env) && world.clock == env.now && Fresh(aw) && !aw.deleting
      requires Mine().flight == Clearing(aw.base, 0, 0)
      modifies this, api, rec, aw
      ensures Linked() && Settled() && start == old(start) && env == this.env && OtherEntries() == old(OtherEntries())
    {
      var done := DeleteResources(aw, env);
      if done {
        Finish(aw, Phase(aw.status.phase.state, Deleted), env.now, env);
      }
    }

    method Create(aw: AppWrapper, env: Env)
      requires me == Runner && Linked() && Under(env) && world.clock == env.now && Fresh(aw)
      requires Mine().flight == if Parses(spec) then Build(spec, aw.status, aw.base, 0, env.now) else Fallback(spec, aw.status, aw.base, true, env.now)
      modifies this, api, rec, cluster, aw
      ensures Linked() && Settled() && start == old(start) && env == this.env && OtherEntries() == old(OtherEntries())
    {
      var ok, fatal := CreateResources(aw, env);
      if !ok {
        Fall(aw, fatal, env);
      } else {
        Finish(aw, Phase(Running, Created), env.now, env);
      }
    }

    method RunnerMoves(aw: AppWrapper, health: Health, env: Env)
      requires me == Runner && Linked() && Under(env) && world.clock == env.now && Fresh(aw) && !aw.deleting
      requires Mine() == Plan(aw, Lookup(rec.cache, uid), false, health, env.now)
      modifies this, api, rec, cluster, aw
      ensures Linked() && Settled() && start == old(start) && env == this.env && OtherEntries() == old(OtherEntries())
    {
      match aw.status.phase
      case Phase(Running, Accepting) =>
        aw.status := aw.status.(dispatchTime := env.now);
        Finish(aw, Phase(Running, Creating), env.now, env);
      case Phase(Running, Creating) => Create(aw, env);
      case Phase(Running, Created) => CheckHealth(aw, health, env);
      case Phase(Running, Deleting) => Clear(aw, env);
      case Phase(Failed, Deleting) => Clear(aw, env);
      case _ =>
    }

    /** Runner.Reconcile. */
    method ReconcileRunner(view: nat, health: Health, env: Env)
      requires me == Runner && Linked() && Settled() && view == Mine().view < |api.versions|
      requires world.clock <= env.now <= env.later
      modifies this, api, rec, cluster
      ensures start == Exec(spec, old(world), Begin(me, env.now, false, health)) && this.env == env
      ensures Linked() && Settled() && OtherEntries() == old(OtherEntries())
    {
      var aw, stale := Open(view, env, false, health);
      if stale {
        return;
      }
      if aw.deleting {
        RunnerDeletes(aw, health, env);
      } else {
        RunnerMoves(aw, health, env);
      }
    }
  }
}
