/**
 What every run keeps, whatever faults it contains: the stored versions, the
 caches and the calls in flight all agree with one history of transitions, and
 that history follows the state diagram.
 */
module Coherence {
  import opened Options
  import opened Lifecycle
  import opened Protocol

  // ----- bounds on the number of transitions -----

  /** Distance of a phase from the last visit to Queued/Idle. */
  function Rank(p: Phase): int {
    match p
    case Phase(Empty, _) => -1
    case Phase(Queued, _) => 0
    case Phase(Running, Dispatching) => 1
    case Phase(Running, Accepting) => 2
    case Phase(Running, Creating) => 3
    case Phase(Running, Created) => 4
    case Phase(Running, Deleting) => 5
    case Phase(Running, Deleted) => 6
    case Phase(Succeeded, _) => 5
    case Phase(Failed, Creating) => 4
    case Phase(Failed, Created) => 5
    case Phase(Failed, Deleting) => 5
    case Phase(Failed, Deleted) => 6
    case Phase(Failed, _) => 7
    case _ => 0
  }

  /** On the way back to the queue. */
  predicate Retreating(p: Phase) {
    p == Phase(Running, Deleting) || p == Phase(Running, Deleted)
  }

  /** One trip through Queued/Idle takes at most seven transitions, and a trip
      ends in a restart only if the spec still allows one. */
  predicate Bounded(spec: Spec, s: Status) {
    && s.count <= 1 + 7 * s.restarts + Rank(s.phase)
    && (s.phase == START ==> s.restarts == 0)
    && (spec.minAvailable < 0 || !Parses(spec) ==> s.restarts == 0 && !Retreating(s.phase))
    && (!Parses(spec) ==> s.phase != Phase(Running, Created) && s.phase != Phase(Failed, Created))
    && (!Parses(spec) && s.phase.state == Failed && s.phase.step != Creating ==> s.count <= Rank(s.phase))
    && (!Parses(spec) ==> s.phase != Phase(Succeeded, Idle))
    && (spec.minAvailable < 0 ==> s.phase.state != Failed || s.phase.step == Creating || s.phase.step == Created)
    && (spec.maxRequeuings > 0 ==> s.restarts <= spec.maxRequeuings)
    && (spec.maxRequeuings > 0 && Retreating(s.phase) ==> s.restarts < spec.maxRequeuings)
  }

  // ----- the invariant -----

  /** The i-th transition put the AppWrapper back into the queue. */
  predicate Requeued(hist: seq<Transition>, i: nat) {
    0 < i <= |hist| && PhaseAt(hist, i - 1) == Phase(Running, Deleted)
  }

  /** A dispatch that follows a requeuing waits out the pause. */
  predicate PauseAt(spec: Spec, hist: seq<Transition>, i: nat)
    requires i < |hist|
  {
    Requeued(hist, i) ==> hist[i].time > hist[i - 1].time + spec.pause
  }

  predicate PausesOk(spec: Spec, hist: seq<Transition>) {
    forall i {:trigger PauseAt(spec, hist, i)} :: 0 <= i < |hist| ==> PauseAt(spec, hist, i)
  }

  /** A stored version is one point of the history, its log is the tail of the
      history, and it carries both finalizers from the first transition on until
      it is marked for deletion. */
  predicate VersionOk(spec: Spec, hist: seq<Transition>, o: Object) {
    && o.status.count <= |hist|
    && o.status.phase == PhaseAt(hist, o.status.count)
    && InDiagram(o.status.phase)
    && o.status.log == LastOf(hist[..o.status.count], LOG_LIMIT)
    && Bounded(spec, o.status)
    && (o.status.count > 0 && !o.deleting ==> o.dispatchFinalizer && o.runnerFinalizer)
    && (Requeued(hist, o.status.count) ==> o.status.requeueTime == hist[o.status.count - 1].time)
  }

  /** Counts never go down and a deletion mark never goes away. */
  predicate Precedes(a: Object, b: Object) {
    a.status.count <= b.status.count && (a.deleting ==> b.deleting)
  }

  predicate Ordered(versions: seq<Object>) {
    forall i, j {:trigger Precedes(versions[i], versions[j])} :: 0 <= i <= j < |versions| ==> Precedes(versions[i], versions[j])
  }

  /** The history is a path through the state diagram, each transition made by
      the owner of the phase it leaves. */
  predicate HistoryOk(hist: seq<Transition>) {
    forall i {:trigger EdgeAt(hist, i)} :: 0 <= i < |hist| ==> EdgeAt(hist, i)
  }

  /** A finalizer only goes from an object marked for deletion, and the
      dispatcher's only after the runner's. */
  predicate FinalizersInOrder(a: Object, b: Object) {
    && (a.runnerFinalizer && !b.runnerFinalizer ==> a.deleting && b.dispatchFinalizer == a.dispatchFinalizer)
    && (a.dispatchFinalizer && !b.dispatchFinalizer ==> a.deleting && !a.runnerFinalizer)
  }

  predicate EdgeAt(hist: seq<Transition>, i: nat)
    requires i < |hist|
  {
    Edge(hist[i].actor, PhaseAt(hist, i), hist[i].phase)
  }

  predicate CacheOk(hist: seq<Transition>, cache: Option<CacheEntry>) {
    cache.Some? ==> cache.value.count <= |hist| && cache.value.phase == PhaseAt(hist, cache.value.count)
  }

  /** The status s' that controller c may write over s. */
  predicate Successor(spec: Spec, c: Controller, s: Status, s': Status) {
    && Edge(c, s.phase, s'.phase)
    && s'.count == s.count + 1
    && s'.log != []
    && s'.log == Trim(s.log + [Transition(LastTime(s'), c, s'.phase)])
    && (s.phase == Phase(Running, Deleted) ==> s'.requeueTime == LastTime(s'))
    && s'.restarts == (if s.phase == Phase(Running, Deleted) then s.restarts + 1 else s.restarts)
    && (s'.phase == Phase(Running, Deleting) ==>
          spec.minAvailable >= 0 && Parses(spec) && (spec.maxRequeuings > 0 ==> s.restarts < spec.maxRequeuings))
    && (s'.phase == Phase(Running, Created) ==> Parses(spec))
    && (s'.phase == Phase(Failed, Deleting) ==> spec.minAvailable >= 0)
  }

  /** A dispatch was decided on a listing that was past its pause. */
  predicate PastPause(spec: Spec, s: Status, since: int) {
    since > s.requeueTime + spec.pause
  }

  predicate RequestOk(spec: Spec, c: Controller, o: Object, request: Request, since: int) {
    match request
    case RemoveFinalizer => o.deleting && (c == Dispatcher ==> !o.runnerFinalizer)
    case AddFinalizers => c == Dispatcher && o.status.phase == START && !o.deleting
    case WriteCondition => true
    case Commit(s) =>
      && Successor(spec, c, o.status, s)
      && (o.status.phase == START ==> o.dispatchFinalizer && o.runnerFinalizer)
      && (s.phase == Phase(Running, Dispatching) ==> PastPause(spec, o.status, since) && since <= LastTime(s))
  }

  predicate FlightOk(spec: Spec, versions: seq<Object>, c: Controller, view: nat, f: Flight)
    requires view < |versions|
  {
    match f
    case Resting => true
    case Calling(base, request, rest, since) =>
      && base < |versions|
      && versions[base].status.count <= versions[view].status.count
      && RequestOk(spec, c, versions[base], request, since)
      && (request.RemoveFinalizer? ==> base <= view)
      && (rest > 0 ==> c == Dispatcher && base <= view && PastPause(spec, versions[base].status, since))
    case Selected(base, _, since) =>
      c == Dispatcher && base <= view && PastPause(spec, versions[base].status, since)
    case Building(base, next) =>
      && c == Runner && base <= view && next < |spec.items| && Parses(spec)
      && versions[base].status.phase == Phase(Running, Creating) && !versions[base].deleting
    case Clearing(base, next, _) =>
      && c == Runner && base <= view && next <= |spec.items|
      && (versions[base].deleting || versions[base].status.phase == Phase(Running, Deleting) || versions[base].status.phase == Phase(Failed, Deleting))
  }

  predicate CtlOk(spec: Spec, versions: seq<Object>, hist: seq<Transition>, c: Controller, ctl: Ctl) {
    && ctl.view < |versions|
    && CacheOk(hist, ctl.cache)
    && FlightOk(spec, versions, c, ctl.view, ctl.flight)
  }

  predicate StoreOk(spec: Spec, versions: seq<Object>, hist: seq<Transition>) {
    && versions != []
    && (forall i {:trigger VersionOk(spec, hist, versions[i])} :: 0 <= i < |versions| ==> VersionOk(spec, hist, versions[i]))
    && Ordered(versions)
    && (forall i {:trigger FinalizersInOrder(versions[i], versions[i + 1])} :: 0 <= i < |versions| - 1 ==> FinalizersInOrder(versions[i], versions[i + 1]))
    && versions[|versions| - 1].status.count == |hist|
    && HistoryOk(hist) && PausesOk(spec, hist)
  }

  /** Work in progress of the dispatcher started no later than now. */
  predicate Timed(w: World) {
    w.disp.flight.Calling? || w.disp.flight.Selected? ==> w.disp.flight.since <= w.clock
  }

  predicate Coherent(spec: Spec, w: World) {
    && StoreOk(spec, w.versions, w.hist)
    && w.gone == Collectable(Server(w))
    && CtlOk(spec, w.versions, w.hist, Dispatcher, w.disp)
    && CtlOk(spec, w.versions, w.hist, Runner, w.run)
    && Timed(w)
  }

  // ----- the invariant holds -----

  lemma {:induction false} InitiallyCoherent(spec: Spec, w: World)
    requires Initial(w)
    ensures Coherent(spec, w)
  {
  }

  /** More versions and more history do not disturb a controller. */
  lemma {:induction false} GrowthKeepsCtlOk(spec: Spec, versions: seq<Object>, hist: seq<Transition>, versions': seq<Object>, hist': seq<Transition>, c: Controller, ctl: Ctl)
    requires CtlOk(spec, versions, hist, c, ctl)
    requires versions <= versions' && hist <= hist'
    ensures CtlOk(spec, versions', hist', c, ctl)
  {
  }

  /** Appending one version, possibly with one more transition. */
  lemma {:induction false} AppendKeepsStoreOk(spec: Spec, versions: seq<Object>, hist: seq<Transition>, o: Object, hist': seq<Transition>)
    requires StoreOk(spec, versions, hist)
    requires hist <= hist' && HistoryOk(hist') && PausesOk(spec, hist')
    requires VersionOk(spec, hist', o) && o.status.count == |hist'|
    requires versions[|versions| - 1].deleting ==> o.deleting
    requires FinalizersInOrder(versions[|versions| - 1], o)
    ensures StoreOk(spec, versions + [o], hist')
  {
    var n := |versions|;
    var versions' := versions + [o];
    forall i | 0 <= i < n
      ensures FinalizersInOrder(versions'[i], versions'[i + 1])
    {
      if i < n - 1 { assert FinalizersInOrder(versions[i], versions[i + 1]); }
    }
    forall i | 0 <= i < n
      ensures VersionOk(spec, hist', versions[i])
    {
      assert VersionOk(spec, hist, versions[i]);
      var k := versions[i].status.count;
      assert hist'[..k] == hist[..k];
      assert Requeued(hist', k) == Requeued(hist, k);
    }
    forall i | 0 <= i < n
      ensures versions[i].status.count <= |hist| && (versions[i].deleting ==> o.deleting)
    {
      assert Precedes(versions[i], versions[n - 1]);
    }
  }

  lemma {:induction false} LogFollowsHistory(hist: seq<Transition>, t: Transition)
    ensures Trim(LastOf(hist, LOG_LIMIT) + [t]) == LastOf(hist + [t], LOG_LIMIT)
  {
  }

  lemma {:induction false} EdgeExtendsHistory(hist: seq<Transition>, t: Transition)
    requires HistoryOk(hist) && Edge(t.actor, PhaseAt(hist, |hist|), t.phase)
    ensures HistoryOk(hist + [t])
  {
    var hist' := hist + [t];
    forall i | 0 <= i < |hist'|
      ensures EdgeAt(hist', i)
    {
      assert PhaseAt(hist', i) == PhaseAt(hist, i);
      if i < |hist| { assert EdgeAt(hist, i); }
    }
  }

  lemma {:induction false} PauseExtendsHistory(spec: Spec, hist: seq<Transition>, t: Transition)
    requires PausesOk(spec, hist) && (Requeued(hist, |hist|) ==> t.time > hist[|hist| - 1].time + spec.pause)
    ensures PausesOk(spec, hist + [t])
  {
    var hist' := hist + [t];
    forall i | 0 <= i < |hist'|
      ensures PauseAt(spec, hist', i)
    {
      assert i > 0 ==> PhaseAt(hist', i - 1) == PhaseAt(hist, i - 1);
      if i < |hist| { assert PauseAt(spec, hist, i); }
    }
  }

  lemma {:induction false} SuccessorIsBounded(spec: Spec, c: Controller, s: Status, s': Status)
    requires Bounded(spec, s) && Successor(spec, c, s, s')
    ensures Bounded(spec, s')
  {
  }

  lemma {:induction false} RequeueIsFollowedByDispatch(spec: Spec, hist: seq<Transition>, c: Controller, o: Object, s: Status, since: int)
    requires VersionOk(spec, hist, o) && o.status.count == |hist| && HistoryOk(hist)
    requires RequestOk(spec, c, o, Commit(s), since)
    ensures Requeued(hist, |hist|) ==> LastTime(s) > hist[|hist| - 1].time + spec.pause
  {
    if Requeued(hist, |hist|) {
      assert EdgeAt(hist, |hist| - 1);
    }
  }

  lemma {:induction false} CommitKeepsStoreOk(spec: Spec, versions: seq<Object>, hist: seq<Transition>, c: Controller, s: Status, since: int)
    requires StoreOk(spec, versions, hist)
    requires RequestOk(spec, c, versions[|versions| - 1], Commit(s), since)
    ensures var t := Transition(LastTime(s), c, s.phase);
      StoreOk(spec, versions + [versions[|versions| - 1].(status := s)], hist + [t])
  {
    var o := versions[|versions| - 1];
    var t := Transition(LastTime(s), c, s.phase);
    var hist' := hist + [t];
    assert VersionOk(spec, hist, o);
    assert hist[..|hist|] == hist && hist'[..|hist'|] == hist';
    LogFollowsHistory(hist, t);
    EdgeExtendsHistory(hist, t);
    RequeueIsFollowedByDispatch(spec, hist, c, o, s, since);
    PauseExtendsHistory(spec, hist, t);
    OwnerIsTheOnlyWayOut(o.status.phase);
    SuccessorIsBounded(spec, c, o.status, s);
    AppendKeepsStoreOk(spec, versions, hist, o.(status := s), hist');
  }

  lemma {:induction false} StoredKeepsStoreOk(spec: Spec, w: World, c: Controller, request: Request, since: int)
    requires StoreOk(spec, w.versions, w.hist)
    requires RequestOk(spec, c, Server(w), request, since)
    ensures var w' := Stored(w, c, request);
      && StoreOk(spec, w'.versions, w'.hist)
      && w.versions <= w'.versions && w.hist <= w'.hist
      && w'.gone == Collectable(Server(w'))
  {
    if request.Commit? {
      CommitKeepsStoreOk(spec, w.versions, w.hist, c, request.status, since);
    } else {
      UpdateKeepsStoreOk(spec, w.versions, w.hist, c, request, since);
    }
  }

  /** What an update of anything but the status makes of an object. */
  function Updated(o: Object, c: Controller, request: Request): Object
    requires !request.Commit?
  {
    match request
    case RemoveFinalizer => WithoutFinalizer(o, c)
    case AddFinalizers => o.(dispatchFinalizer := true, runnerFinalizer := true)
    case WriteCondition => o
  }

  lemma {:induction false} UpdateKeepsStoreOk(spec: Spec, versions: seq<Object>, hist: seq<Transition>, c: Controller, request: Request, since: int)
    requires StoreOk(spec, versions, hist) && !request.Commit?
    requires RequestOk(spec, c, versions[|versions| - 1], request, since)
    ensures StoreOk(spec, versions + [Updated(versions[|versions| - 1], c, request)], hist)
  {
    var o := versions[|versions| - 1];
    assert VersionOk(spec, hist, o);
    AppendKeepsStoreOk(spec, versions, hist, Updated(o, c, request), hist);
  }

  /** An ordinary transition along an edge of the diagram is a successor. */
  lemma {:induction false} NextIsSuccessor(spec: Spec, c: Controller, s: Status, s0: Status, p: Phase, now: int)
    requires Edge(c, s.phase, p) && p.step != Deleting && (p == Phase(Running, Created) ==> Parses(spec))
    requires s0.phase == s.phase && s0.count == s.count && s0.log == s.log
    requires s.phase == Phase(Running, Deleted) ==> s0.requeueTime == now
    requires s0.restarts == if s.phase == Phase(Running, Deleted) then s.restarts + 1 else s.restarts
    ensures Successor(spec, c, s, NextStatus(c, s0, p, now))
  {
  }

  lemma {:induction false} FallbackIsSuccessor(spec: Spec, s: Status, fatal: bool, now: int)
    requires s.phase == Phase(Running, Creating) || s.phase == Phase(Running, Created)
    requires fatal || Parses(spec)
    ensures Successor(spec, Runner, s, RequeueOrFail(spec, s, fatal, now))
    ensures RequeueOrFail(spec, s, fatal, now).phase != Phase(Running, Dispatching)
  {
  }

  /** The shape shared by all prepared status writes. */
  lemma {:induction false} CommitIsOk(spec: Spec, versions: seq<Object>, c: Controller, view: nat, base: nat, s': Status, now: int)
    requires view < |versions| && base < |versions|
    requires versions[base].status.count <= versions[view].status.count
    requires Successor(spec, c, versions[base].status, s')
    requires versions[base].status.phase == START ==> versions[base].dispatchFinalizer && versions[base].runnerFinalizer
    requires s'.phase != Phase(Running, Dispatching)
    ensures FlightOk(spec, versions, c, view, Calling(base, Commit(s'), 0, now))
  {
  }

  lemma {:induction false} ReplyKeepsCoherent(spec: Spec, w: World, c: Controller, outcome: Outcome, now: int)
    requires Coherent(spec, w) && Get(w, c).flight.Calling? && w.clock <= now
    ensures Coherent(spec, DoReply(w, c, outcome, now))
  {
    if Stores(w, Get(w, c).flight.base, outcome) {
      StoredReplyKeepsCoherent(spec, w, c, outcome, now);
    }
  }

  lemma {:induction false} StoredReplyKeepsCoherent(spec: Spec, w: World, c: Controller, outcome: Outcome, now: int)
    requires Coherent(spec, w) && Get(w, c).flight.Calling? && w.clock <= now && Stores(w, Get(w, c).flight.base, outcome)
    ensures Coherent(spec, DoReply(w, c, outcome, now))
  {
    var f := Get(w, c).flight;
    var w1 := Stored(w, c, f.request);
    StoredKeepsStoreOk(spec, w, c, f.request, f.since);
    GrowthKeepsCtlOk(spec, w.versions, w.hist, w1.versions, w1.hist, Dispatcher, w.disp);
    GrowthKeepsCtlOk(spec, w.versions, w.hist, w1.versions, w1.hist, Runner, w.run);
    if outcome == Ok {
      AcknowledgedIsOk(spec, w, c, now);
    }
  }

  lemma {:induction false} AcknowledgedIsOk(spec: Spec, w: World, c: Controller, now: int)
    requires Coherent(spec, w) && Get(w, c).flight.Calling? && Stores(w, Get(w, c).flight.base, Ok)
    ensures var w1 := Stored(w, c, Get(w, c).flight.request);
      CtlOk(spec, w1.versions, w1.hist, c, AfterReply(w, c, true, now))
  {
    var ctl := Get(w, c);
    var f := ctl.flight;
    var w1 := Stored(w, c, f.request);
    assert w1.versions[f.base] == w.versions[f.base] && w1.versions[ctl.view] == w.versions[ctl.view];
    match f.request
    case AddFinalizers =>
      var s := w.versions[f.base].status;
      NextIsSuccessor(spec, c, s, s, Phase(Queued, Idle), now);
      CommitIsOk(spec, w1.versions, c, ctl.view, f.base + 1, NextStatus(c, s, Phase(Queued, Idle), now), now);
    case Commit(s) =>
      assert VersionOk(spec, w.hist, Server(w));
    case _ =>
  }

  lemma {:induction false} CheckKeepsCacheOk(hist: seq<Transition>, cache: Option<CacheEntry>, s: Status, now: int)
    requires CacheOk(hist, cache)
    requires s.count <= |hist| && s.phase == PhaseAt(hist, s.count)
    ensures CacheOk(hist, StaleCheck(cache, s, now).0)
  {
  }

  lemma {:induction false} DispatcherPlanIsOk(spec: Spec, versions: seq<Object>, hist: seq<Transition>, base: nat, cache: Option<CacheEntry>, now: int, decided: bool)
    requires base < |versions| && VersionOk(spec, hist, versions[base]) && CacheOk(hist, cache)
    ensures CtlOk(spec, versions, hist, Dispatcher, DispatcherPlan(versions[base], base, cache, now, decided))
  {
    var o := versions[base];
    var s := o.status;
    if !o.deleting {
      match s.phase
      case Phase(Empty, _) =>
        if o.dispatchFinalizer && o.runnerFinalizer {
          NextIsSuccessor(spec, Dispatcher, s, s, Phase(Queued, Idle), now);
          CommitIsOk(spec, versions, Dispatcher, base, base, NextStatus(Dispatcher, s, Phase(Queued, Idle), now), now);
        }
      case Phase(Running, Dispatching) =>
        NextIsSuccessor(spec, Dispatcher, s, s, Phase(Running, Accepting), now);
        CommitIsOk(spec, versions, Dispatcher, base, base, NextStatus(Dispatcher, s, Phase(Running, Accepting), now), now);
      case Phase(Running, Deleted) =>
        var s0 := s.(restarts := s.restarts + 1, requeueTime := now);
        NextIsSuccessor(spec, Dispatcher, s, s0, Phase(Queued, Idle), now);
        CommitIsOk(spec, versions, Dispatcher, base, base, NextStatus(Dispatcher, s0, Phase(Queued, Idle), now), now);
      case Phase(Failed, Deleted) =>
        NextIsSuccessor(spec, Dispatcher, s, s, Phase(Failed, Idle), now);
        CommitIsOk(spec, versions, Dispatcher, base, base, NextStatus(Dispatcher, s, Phase(Failed, Idle), now), now);
      case _ =>
    }
  }

  lemma {:induction false} BuildIsOk(spec: Spec, versions: seq<Object>, view: nat, base: nat, next: nat, now: int)
    requires base <= view < |versions| && versions[base].status.count <= versions[view].status.count
    requires Parses(spec) && next <= |spec.items|
    requires versions[base].status.phase == Phase(Running, Creating) && !versions[base].deleting
    ensures FlightOk(spec, versions, Runner, view, Build(spec, versions[base].status, base, next, now))
  {
    var s := versions[base].status;
    if next == |spec.items| {
      NextIsSuccessor(spec, Runner, s, s, Phase(Running, Created), now);
      CommitIsOk(spec, versions, Runner, view, base, NextStatus(Runner, s, Phase(Running, Created), now), now);
    }
  }

  lemma {:induction false} FallbackIsOk(spec: Spec, versions: seq<Object>, view: nat, base: nat, fatal: bool, now: int)
    requires base <= view < |versions| && versions[base].status.count <= versions[view].status.count
    requires versions[base].status.phase == Phase(Running, Creating) || versions[base].status.phase == Phase(Running, Created)
    requires fatal || Parses(spec)
    ensures FlightOk(spec, versions, Runner, view, Fallback(spec, versions[base].status, base, fatal, now))
  {
    FallbackIsSuccessor(spec, versions[base].status, fatal, now);
    CommitIsOk(spec, versions, Runner, view, base, RequeueOrFail(spec, versions[base].status, fatal, now), now);
  }

  lemma {:induction false} AcceptIsOk(spec: Spec, versions: seq<Object>, base: nat, now: int)
    requires base < |versions| && versions[base].status.phase == Phase(Running, Accepting)
    ensures FlightOk(spec, versions, Runner, base, CommitTo(Runner, base, versions[base].status.(dispatchTime := now), Phase(Running, Creating), now))
  {
    var s := versions[base].status;
    var s0 := s.(dispatchTime := now);
    NextIsSuccessor(spec, Runner, s, s0, Phase(Running, Creating), now);
    CommitIsOk(spec, versions, Runner, base, base, NextStatus(Runner, s0, Phase(Running, Creating), now), now);
  }

  lemma {:induction false} RunnerPlanIsOk(spec: Spec, versions: seq<Object>, hist: seq<Transition>, base: nat, cache: Option<CacheEntry>, now: int, health: Health)
    requires base < |versions| && VersionOk(spec, hist, versions[base]) && CacheOk(hist, cache)
    ensures CtlOk(spec, versions, hist, Runner, RunnerPlan(spec, versions[base], base, cache, now, health))
  {
    var o := versions[base];
    var s := o.status;
    if !o.deleting {
      match s.phase
      case Phase(Running, Accepting) =>
        AcceptIsOk(spec, versions, base, now);
      case Phase(Running, Creating) =>
        if Parses(spec) { BuildIsOk(spec, versions, base, base, 0, now); } else { FallbackIsOk(spec, versions, base, base, true, now); }
      case Phase(Running, Created) => MonitorIsOk(spec, versions, hist, base, now, health);
      case _ =>
    }
  }

  lemma {:induction false} MonitorIsOk(spec: Spec, versions: seq<Object>, hist: seq<Transition>, base: nat, now: int, health: Health)
    requires base < |versions| && VersionOk(spec, hist, versions[base]) && versions[base].status.phase == Phase(Running, Created)
    ensures FlightOk(spec, versions, Runner, base, Monitor(spec, versions[base].status, base, now, health))
  {
    var s := versions[base].status;
    FallbackIsOk(spec, versions, base, base, false, now);
    NextIsSuccessor(spec, Runner, s, s, Phase(Succeeded, Idle), now);
    CommitIsOk(spec, versions, Runner, base, base, NextStatus(Runner, s, Phase(Succeeded, Idle), now), now);
  }

  lemma {:induction false} BeginKeepsCoherent(spec: Spec, w: World, l: Label)
    requires Coherent(spec, w) && Enabled(spec, w, l) && l.Begin?
    ensures Coherent(spec, Exec(spec, w, l))
  {
    if l.c == Dispatcher {
      DispatcherBegins(spec, w, l);
    } else {
      RunnerBegins(spec, w, l);
    }
  }

  lemma {:induction false} DispatcherBegins(spec: Spec, w: World, l: Label)
    requires Coherent(spec, w) && Enabled(spec, w, l) && l.Begin? && l.c == Dispatcher
    ensures Coherent(spec, Exec(spec, w, l))
  {
    var o := w.versions[w.disp.view];
    assert VersionOk(spec, w.hist, o);
    CheckKeepsCacheOk(w.hist, w.disp.cache, o.status, l.now);
    DispatcherPlanIsOk(spec, w.versions, w.hist, w.disp.view, StaleCheck(w.disp.cache, o.status, l.now).0, l.now, l.decided);
  }

  lemma {:induction false} RunnerBegins(spec: Spec, w: World, l: Label)
    requires Coherent(spec, w) && Enabled(spec, w, l) && l.Begin? && l.c == Runner
    ensures Coherent(spec, Exec(spec, w, l))
  {
    var o := w.versions[w.run.view];
    assert VersionOk(spec, w.hist, o);
    CheckKeepsCacheOk(w.hist, w.run.cache, o.status, l.now);
    RunnerPlanIsOk(spec, w.versions, w.hist, w.run.view, StaleCheck(w.run.cache, o.status, l.now).0, l.now, l.health);
  }

  lemma {:induction false} DispatchKeepsCoherent(spec: Spec, w: World, l: Label)
    requires Coherent(spec, w) && Enabled(spec, w, l) && (l.List? || l.Check?)
    ensures Coherent(spec, Exec(spec, w, l))
  {
    if l.Check? {
      var base := w.disp.flight.base;
      var s := w.versions[base].status;
      assert VersionOk(spec, w.hist, w.versions[base]) && Precedes(w.versions[base], w.versions[w.disp.view]);
      CheckKeepsCacheOk(w.hist, w.disp.cache, s, l.now);
      if s.phase.state == Queued {
        NextIsSuccessor(spec, Dispatcher, s, s, Phase(Running, Dispatching), l.now);
      }
    }
  }

  lemma {:induction false} ResourceStepKeepsCoherent(spec: Spec, w: World, l: Label)
    requires Coherent(spec, w) && Enabled(spec, w, l) && (l.CreateItem? || l.DeleteItem? || l.EndDelete?)
    ensures Coherent(spec, Exec(spec, w, l))
  {
    var f := w.run.flight;
    var o := w.versions[f.base];
    assert Precedes(o, w.versions[w.run.view]);
    match l
    case CreateItem(created, now) =>
      BuildIsOk(spec, w.versions, w.run.view, f.base, f.next + 1, now);
      if created.NotMade? || created.MadeButFailed? {
        FallbackIsOk(spec, w.versions, w.run.view, f.base, created.fatal, now);
      }
    case EndDelete(_, now) =>
      if !o.deleting {
        var p := Phase(o.status.phase.state, Deleted);
        NextIsSuccessor(spec, Runner, o.status, o.status, p, now);
        CommitIsOk(spec, w.versions, Runner, w.run.view, f.base, NextStatus(Runner, o.status, p, now), now);
      }
    case _ =>
  }

  lemma {:induction false} StoreStepKeepsCoherent(spec: Spec, w: World, l: Label)
    requires Coherent(spec, w) && Enabled(spec, w, l) && (l.UserDelete? || l.Touch?)
    ensures Coherent(spec, Exec(spec, w, l))
  {
    var o := if l.Touch? then Server(w) else Server(w).(deleting := true);
    assert VersionOk(spec, w.hist, Server(w));
    AppendKeepsStoreOk(spec, w.versions, w.hist, o, w.hist);
    GrowthKeepsCtlOk(spec, w.versions, w.hist, w.versions + [o], w.hist, Dispatcher, w.disp);
    GrowthKeepsCtlOk(spec, w.versions, w.hist, w.versions + [o], w.hist, Runner, w.run);
  }

  lemma {:induction false} AdvanceKeepsCoherent(spec: Spec, w: World, c: Controller, to: nat)
    requires Coherent(spec, w) && Get(w, c).view <= to < |w.versions|
    ensures Coherent(spec, Put(w, c, Get(w, c).(view := to)))
  {
    assert Precedes(w.versions[Get(w, c).view], w.versions[to]);
  }

  lemma {:induction false} EnvironmentKeepsCoherent(spec: Spec, w: World, l: Label)
    requires Coherent(spec, w) && Enabled(spec, w, l) && (l.Vanish? || l.Appear? || l.Restart?)
    ensures Coherent(spec, Exec(spec, w, l))
  {
  }

  lemma {:induction false} StepKeepsCoherent(spec: Spec, w: World, l: Label)
    requires Coherent(spec, w) && Enabled(spec, w, l)
    ensures Coherent(spec, Exec(spec, w, l))
  {
    match l
    case Begin(_, _, _, _) => BeginKeepsCoherent(spec, w, l);
    case List(_, _) => DispatchKeepsCoherent(spec, w, l);
    case Check(_) => DispatchKeepsCoherent(spec, w, l);
    case Reply(c, outcome, now) => ReplyKeepsCoherent(spec, w, c, outcome, now);
    case CreateItem(_, _) => ResourceStepKeepsCoherent(spec, w, l);
    case DeleteItem(_) => ResourceStepKeepsCoherent(spec, w, l);
    case EndDelete(_, _) => ResourceStepKeepsCoherent(spec, w, l);
    case UserDelete => StoreStepKeepsCoherent(spec, w, l);
    case Touch => StoreStepKeepsCoherent(spec, w, l);
    case Advance(c, to) => AdvanceKeepsCoherent(spec, w, c, to);
    case _ => EnvironmentKeepsCoherent(spec, w, l);
  }

  lemma {:induction false} RunKeepsCoherent(spec: Spec, w: World, ls: seq<Label>, w': World)
    requires Coherent(spec, w) && Run(spec, w, ls, w')
    ensures Coherent(spec, w')
    decreases |ls|
  {
    if ls != [] {
      StepKeepsCoherent(spec, w, ls[0]);
      RunKeepsCoherent(spec, Exec(spec, w, ls[0]), ls[1..], w');
    }
  }
}
