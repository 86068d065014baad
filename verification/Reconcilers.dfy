/**
 The state a reconciler updates in place: its write cache, its local copy of an
 AppWrapper, and the API server behind both. Each method is tied to the step
 functions of the protocol.
 */
module Reconcilers {
  import opened Options
  import opened Lifecycle
  import opened Protocol

  /** A reconciler's local copy; `base` is its resource version. */
  class AppWrapper {
    const uid: string
    const deleting: bool
    var base: nat
    var status: Status
    var dispatchFinalizer: bool
    var runnerFinalizer: bool

    constructor (uid: string, base: nat, o: Object)
      ensures this.uid == uid && this.base == base && Value() == o
    {
      this.uid, this.base, status, deleting := uid, base, o.status, o.deleting;
      dispatchFinalizer, runnerFinalizer := o.dispatchFinalizer, o.runnerFinalizer;
    }

    function Value(): Object
      reads this
    {
      Object(status, dispatchFinalizer, runnerFinalizer, deleting)
    }

    method RemoveFinalizer(c: Controller)
      modifies this
      ensures Value() == WithoutFinalizer(old(Value()), c) && base == old(base)
    {
      if c == Dispatcher {
        dispatchFinalizer := false;
      } else {
        runnerFinalizer := false;
      }
    }
  }

  /** The stored versions of one AppWrapper. Updates are subject to optimistic
      locking on the resource version; the outcome says whether the network
      cooperates. */
  class ApiServer {
    var versions: seq<Object>
    var gone: bool

    constructor (o: Object)
      ensures versions == [o] && !gone
    {
      versions, gone := [o], false;
    }

    /** Status().Update: everything but the status stays as stored. */
    method UpdateStatus(aw: AppWrapper, outcome: Outcome) returns (ok: bool)
      modifies this, aw
      ensures aw.status == old(aw.status)
      ensures ok == (old(Accepts(versions, gone, aw.base, outcome)) && outcome == Ok)
      ensures if old(Accepts(versions, gone, aw.base, outcome))
        then
          var o := old(versions[|versions| - 1]).(status := aw.status);
          versions == old(versions) + [o] && gone == Collectable(o)
        else versions == old(versions) && gone == old(gone)
      ensures aw.base == if ok then old(aw.base) + 1 else old(aw.base)
    {
      ok := false;
      if Accepts(versions, gone, aw.base, outcome) {
        var o := versions[|versions| - 1].(status := aw.status);
        versions := versions + [o];
        gone := Collectable(o);
        if outcome == Ok {
          aw.base := aw.base + 1;
          ok := true;
        }
      }
    }

    /** Update: the status stays as stored. */
    method Update(aw: AppWrapper, outcome: Outcome) returns (ok: bool)
      modifies this, aw
      ensures aw.Value() == old(aw.Value())
      ensures ok == (old(Accepts(versions, gone, aw.base, outcome)) && outcome == Ok)
      ensures if old(Accepts(versions, gone, aw.base, outcome))
        then
          var o := aw.Value().(status := old(versions[|versions| - 1]).status, deleting := old(versions[|versions| - 1]).deleting);
          versions == old(versions) + [o] && gone == Collectable(o)
        else versions == old(versions) && gone == old(gone)
      ensures aw.base == if ok then old(aw.base) + 1 else old(aw.base)
    {
      ok := false;
      if Accepts(versions, gone, aw.base, outcome) {
        var stored := versions[|versions| - 1];
        var o := stored.(dispatchFinalizer := aw.dispatchFinalizer, runnerFinalizer := aw.runnerFinalizer);
        versions := versions + [o];
        gone := Collectable(o);
        if outcome == Ok {
          aw.base := aw.base + 1;
          ok := true;
        }
      }
    }
  }

  datatype CreateFault = NoFault | Rejected(fatal: bool) | CreatedButFailed(fatal: bool)

  /** The reply to a creation. */
  function CreatedWith(fault: CreateFault, present: bool): Created {
    match fault
    case NoFault => if present then AlreadyThere else Made
    case Rejected(fatal) => NotMade(fatal)
    case CreatedButFailed(fatal) => MadeButFailed(fatal)
  }

  /** The reply to a deletion. */
  function RemovedWith(fault: bool, present: bool): Removed {
    if fault then DeleteError else if present then StillThere else NotFound
  }

  /** The wrapped objects that exist. A deletion in the background is accepted
      and takes effect later. */
  class Cluster {
    var existing: set<string>

    constructor ()
      ensures existing == {}
    {
      existing := {};
    }

    method Create(key: string, fault: CreateFault) returns (r: Created)
      modifies this
      ensures r == CreatedWith(fault, key in old(existing))
      ensures existing == if fault.Rejected? then old(existing) else old(existing) + {key}
    {
      r := CreatedWith(fault, key in existing);
      if !fault.Rejected? {
        existing := existing + {key};
      }
    }

    method Delete(key: string, fault: bool) returns (r: Removed)
      ensures r == RemovedWith(fault, key in existing)
    {
      r := RemovedWith(fault, key in existing);
    }
  }

  function Lookup<K, V>(m: map<K, V>, k: K): Option<V> {
    if k in m then Some(m[k]) else None
  }

  /** m with the entry at k replaced, or removed if there is none. */
  function Replaced<K, V>(m: map<K, V>, k: K, v: Option<V>): map<K, V> {
    if v.Some? then m[k := v.value] else m - {k}
  }

  /** The part shared by Dispatcher and Runner. */
  class Reconciler {
    const controller: Controller
    var cache: map<string, CacheEntry>

    constructor (controller: Controller)
      ensures this.controller == controller && cache == map[]
    {
      this.controller, cache := controller, map[];
    }

    method AddCached(aw: AppWrapper)
      modifies this
      ensures cache == Replaced(old(cache), aw.uid, Some(EntryOf(aw.status)))
    {
      cache := cache[aw.uid := CacheEntry(aw.status.phase, aw.status.count, None)];
    }

    method DeleteCached(aw: AppWrapper)
      modifies this
      ensures cache == Replaced(old(cache), aw.uid, None)
    {
      cache := cache - {aw.uid};
    }

    method GetCached(aw: AppWrapper) returns (phase: Phase)
      ensures phase == Effective(Lookup(cache, aw.uid), aw.status)
    {
      if aw.uid in cache && cache[aw.uid].count > aw.status.count {
        return cache[aw.uid].phase;
      }
      return aw.status.phase;
    }

    /** isStale changes no entry but that of the AppWrapper it is asked about. */
    method IsStale(aw: AppWrapper, now: int) returns (stale: bool)
      modifies this
      ensures stale == StaleCheck(Lookup(old(cache), aw.uid), aw.status, now).1
      ensures cache == Replaced(old(cache), aw.uid, StaleCheck(Lookup(old(cache), aw.uid), aw.status, now).0)
    {
      if aw.uid !in cache {
        return false;
      }
      var cached := cache[aw.uid];
      if cached.count < aw.status.count {
        cache := cache[aw.uid := CacheEntry(aw.status.phase, aw.status.count, None)];
        return false;
      }
      if cached.count > aw.status.count {
        if cached.conflict.Some? {
          if now > cached.conflict.value + CONFLICT_TIMEOUT {
            cache := cache - {aw.uid};
          }
        } else {
          cache := cache[aw.uid := cached.(conflict := Some(now))];
        }
        return true;
      }
      if cached.phase != aw.status.phase {
        cache := cache - {aw.uid};
        return true;
      }
      cache := cache[aw.uid := cached.(conflict := None)];
      return false;
    }

    /** updateStatus: the local copy always moves on; the server only if the
        local copy was current; the cache only if the server says so. */
    method UpdateStatus(api: ApiServer, aw: AppWrapper, phase: Phase, now: int, outcome: Outcome) returns (ok: bool)
      modifies this, api, aw
      ensures aw.status == NextStatus(controller, old(aw.status), phase, now)
      ensures ok == (old(Accepts(api.versions, api.gone, aw.base, outcome)) && outcome == Ok)
      ensures if old(Accepts(api.versions, api.gone, aw.base, outcome))
        then
          var o := old(api.versions[|api.versions| - 1]).(status := aw.status);
          api.versions == old(api.versions) + [o] && api.gone == Collectable(o)
        else api.versions == old(api.versions) && api.gone == old(api.gone)
      ensures cache == if ok then Replaced(old(cache), aw.uid, Some(EntryOf(aw.status))) else old(cache)
    {
      var log := aw.status.log + [Transition(now, controller, phase)];
      if |log| > LOG_LIMIT {
        log := log[1..];
      }
      aw.status := aw.status.(log := log);
      aw.status := aw.status.(count := aw.status.count + 1);
      aw.status := aw.status.(phase := phase);
      ok := api.UpdateStatus(aw, outcome);
      if ok {
        AddCached(aw);
      }
    }

    /** requeueOrFail: the only place where a failure is turned into a phase. */
    method RequeueOrFail(api: ApiServer, aw: AppWrapper, spec: Spec, fatal: bool, now: int, outcome: Outcome) returns (ok: bool)
      requires controller == Runner
      modifies this, api, aw
      ensures aw.status == Lifecycle.RequeueOrFail(spec, old(aw.status), fatal, now)
      ensures ok == (old(Accepts(api.versions, api.gone, aw.base, outcome)) && outcome == Ok)
      ensures cache == if ok then Replaced(old(cache), aw.uid, Some(EntryOf(aw.status))) else old(cache)
      ensures if old(Accepts(api.versions, api.gone, aw.base, outcome))
        then
          var o := old(api.versions[|api.versions| - 1]).(status := aw.status);
          api.versions == old(api.versions) + [o] && api.gone == Collectable(o)
        else api.versions == old(api.versions) && api.gone == old(api.gone)
    {
      if spec.minAvailable < 0 {
        ok := UpdateStatus(api, aw, Phase(Failed, aw.status.phase.step), now, outcome);
      } else if fatal || (spec.maxRequeuings > 0 && aw.status.restarts >= spec.maxRequeuings) {
        aw.status := aw.status.(requeueTime := now);
        ok := UpdateStatus(api, aw, Phase(Failed, Deleting), now, outcome);
      } else {
        aw.status := aw.status.(requeueTime := now);
        ok := UpdateStatus(api, aw, Phase(Running, Deleting), now, outcome);
      }
    }
  }
}
