/**
 Facts about single transitions in arbitrary runs, faults included: what the
 log and the caches say about history, and when a dispatch may happen.
 */
module Transitions {
  import opened Options
  import opened Lifecycle
  import opened Protocol
  import opened Coherence
  import opened Bounds

  /** The committed transitions form a path through the state diagram, each
      made by the owner of the phase left; every stored log is the tail of that
      path; a cache entry is a point of it, so a read with the cached count
      always has the cached phase. */
  lemma {:induction false} HistoryIsAPath(spec: Spec, w0: World, ls: seq<Label>, w: World, c: Controller)
    requires Initial(w0) && Run(spec, w0, ls, w)
    ensures forall i {:trigger PhaseAt(w.hist, i)} :: 0 <= i < |w.hist| ==>
      Edge(w.hist[i].actor, PhaseAt(w.hist, i), w.hist[i].phase) && Owner(PhaseAt(w.hist, i)) == Some(w.hist[i].actor)
    ensures forall j :: 0 <= j < |w.versions| ==>
      && w.versions[j].status.count <= |w.hist|
      && w.versions[j].status.phase == PhaseAt(w.hist, w.versions[j].status.count)
      && w.versions[j].status.log == LastOf(w.hist[..w.versions[j].status.count], 20)
    ensures w.versions != [] && Server(w).status.count == |w.hist|
    ensures var cache := Get(w, c).cache;
      cache.Some? ==>
        && cache.value.count <= |w.hist| && cache.value.phase == PhaseAt(w.hist, cache.value.count)
        && forall j :: 0 <= j < |w.versions| && w.versions[j].status.count == cache.value.count ==> w.versions[j].status.phase == cache.value.phase
  {
    InitiallyCoherent(spec, w0);
    RunKeepsCoherent(spec, w0, ls, w);
    MovesAreOwned(w.hist);
    forall j | 0 <= j < |w.versions|
      ensures w.versions[j].status.count <= |w.hist|
      ensures w.versions[j].status.phase == PhaseAt(w.hist, w.versions[j].status.count)
      ensures w.versions[j].status.log == LastOf(w.hist[..w.versions[j].status.count], LOG_LIMIT)
    {
      VersionFollows(spec, w, j);
    }
    CacheFollows(spec, w, c);
  }

  lemma {:induction false} VersionFollows(spec: Spec, w: World, j: nat)
    requires Coherent(spec, w) && j < |w.versions|
    ensures var s := w.versions[j].status;
      s.count <= |w.hist| && s.phase == PhaseAt(w.hist, s.count) && s.log == LastOf(w.hist[..s.count], LOG_LIMIT)
  {
    assert VersionOk(spec, w.hist, w.versions[j]);
  }

  lemma {:induction false} CacheFollows(spec: Spec, w: World, c: Controller)
    requires Coherent(spec, w)
    ensures var cache := Get(w, c).cache;
      cache.Some? ==> cache.value.count <= |w.hist| && cache.value.phase == PhaseAt(w.hist, cache.value.count)
  {
  }

  lemma {:induction false} PathStaysInDiagram(hist: seq<Transition>, i: nat)
    requires HistoryOk(hist) && i <= |hist|
    ensures InDiagram(PhaseAt(hist, i))
  {
    if i > 0 {
      PathStaysInDiagram(hist, i - 1);
      assert EdgeAt(hist, i - 1);
      OwnerIsTheOnlyWayOut(PhaseAt(hist, i - 1));
    }
  }

  lemma {:induction false} MovesAreOwned(hist: seq<Transition>)
    requires HistoryOk(hist)
    ensures forall i {:trigger PhaseAt(hist, i)} :: 0 <= i < |hist| ==>
      Edge(hist[i].actor, PhaseAt(hist, i), hist[i].phase) && Owner(PhaseAt(hist, i)) == Some(hist[i].actor)
  {
    forall i | 0 <= i < |hist|
      ensures Edge(hist[i].actor, PhaseAt(hist, i), hist[i].phase) && Owner(PhaseAt(hist, i)) == Some(hist[i].actor)
    {
      MoveIsOwned(hist, i);
    }
  }

  lemma {:induction false} MoveIsOwned(hist: seq<Transition>, i: nat)
    requires HistoryOk(hist) && i < |hist|
    ensures Edge(hist[i].actor, PhaseAt(hist, i), hist[i].phase) && Owner(PhaseAt(hist, i)) == Some(hist[i].actor)
  {
    assert EdgeAt(hist, i);
    assert Edge(hist[i].actor, PhaseAt(hist, i), hist[i].phase);
    PathStaysInDiagram(hist, i);
    OwnerIsTheOnlyWayOut(PhaseAt(hist, i));
  }

  // ----- when a dispatch may happen -----

  /** A move to Running/Dispatching starts from Queued/Idle and happens
      strictly later than the stored requeue timestamp plus the pause, however
      stale the listing was that selected the AppWrapper. */
  lemma {:induction false} DispatchWaitsOutThePause(spec: Spec, w0: World, ls: seq<Label>, w: World, l: Label)
    requires Initial(w0) && Run(spec, w0, ls, w) && Enabled(spec, w, l)
    requires |Exec(spec, w, l).hist| != |w.hist|
    ensures var w' := Exec(spec, w, l);
      w'.versions != [] && (Server(w').status.phase == Phase(Running, Dispatching) ==>
        && Server(w).status.phase == Phase(Queued, Idle)
        && w'.clock > Server(w).status.requeueTime + spec.pause)
  {
    InitiallyCoherent(spec, w0);
    RunKeepsCoherent(spec, w0, ls, w);
    GrowthIsACommit(spec, w, l);
    if Server(Exec(spec, w, l)).status.phase == Phase(Running, Dispatching) {
      assert l.c == Dispatcher;
      assert PastPause(spec, Server(w).status, w.disp.flight.since);
    }
  }

  /** The transition after a requeuing is a dispatch, logged more than the pause
      later than the requeue time that any version stored in between carries. */
  lemma {:induction false} RedispatchesArePaused(spec: Spec, w0: World, ls: seq<Label>, w: World, i: nat)
    requires Initial(w0) && Run(spec, w0, ls, w)
    requires i + 1 < |w.hist| && w.hist[i].phase == Phase(Queued, Idle) && i > 0
    ensures PhaseAt(w.hist, i) == Phase(Running, Deleted)
    ensures w.hist[i + 1].phase == Phase(Running, Dispatching)
    ensures forall j :: 0 <= j < |w.versions| && w.versions[j].status.count == i + 1 ==>
      w.hist[i + 1].time > w.versions[j].status.requeueTime + spec.pause
  {
    InitiallyCoherent(spec, w0);
    RunKeepsCoherent(spec, w0, ls, w);
    assert EdgeAt(w.hist, i - 1) && EdgeAt(w.hist, i) && EdgeAt(w.hist, i + 1) && PauseAt(spec, w.hist, i + 1);
    forall j | 0 <= j < |w.versions| && w.versions[j].status.count == i + 1
      ensures w.versions[j].status.requeueTime == w.hist[i].time
    {
      assert VersionOk(spec, w.hist, w.versions[j]);
    }
  }

  // ----- at most one dispatch per cycle -----

  /** The number of dispatches in a history. */
  function Dispatches(hist: seq<Transition>): nat {
    if hist == [] then 0
    else Dispatches(hist[..|hist| - 1]) + if hist[|hist| - 1].phase == Phase(Running, Dispatching) then 1 else 0
  }

  /** The rest of the selected list holds copies that the cache has overtaken. */
  predicate Spent(w: World) {
    && w.disp.flight.Selected?
    && w.disp.flight.base < |w.versions|
    && w.disp.cache.Some?
    && w.disp.cache.value.count > w.versions[w.disp.flight.base].status.count
  }

  /** The dispatcher starts a new reconciliation or cycle, or is restarted. */
  predicate StartsOver(l: Label) {
    (l.Begin? || l.List? || l.Restart?) && Actor(l) == Some(Dispatcher)
  }

  /** The cycle may still dispatch the AppWrapper. */
  predicate MayDispatch(w: World) {
    || w.disp.flight.Selected?
    || (w.disp.flight.Calling? && w.disp.flight.request.Commit? && w.disp.flight.request.status.phase == Phase(Running, Dispatching))
  }

  /** It is past that: done, or left with spent copies. */
  predicate Past(w: World) {
    w.disp.flight.Resting? || Spent(w)
  }

  /** A step that does not store a status write leaves the history alone; the
      Runner's writes are no dispatches. */
  lemma {:induction false} OnlyTheDispatcherDispatches(spec: Spec, w: World, l: Label)
    requires Coherent(spec, w) && Enabled(spec, w, l)
    requires !(l.Reply? && l.c == Dispatcher)
    ensures Dispatches(Exec(spec, w, l).hist) == Dispatches(w.hist)
  {
    Frame(spec, w, l, Dispatcher);
    var hist' := Exec(spec, w, l).hist;
    if hist' != w.hist {
      assert hist'[..|w.hist|] == w.hist;
    }
  }

  lemma {:induction false} SpentStep(spec: Spec, w: World, l: Label)
    requires Coherent(spec, w) && Past(w) && Enabled(spec, w, l) && !StartsOver(l)
    ensures Past(Exec(spec, w, l)) && Dispatches(Exec(spec, w, l).hist) == Dispatches(w.hist)
    ensures l.Check? ==> Exec(spec, w, l).disp.flight.Resting?
  {
    Frame(spec, w, l, Dispatcher);
    OnlyTheDispatcherDispatches(spec, w, l);
  }

  /** A step of a cycle before it is past the AppWrapper. */
  lemma {:induction false} CycleStep(spec: Spec, w: World, l: Label)
    requires Coherent(spec, w) && MayDispatch(w) && Enabled(spec, w, l) && !StartsOver(l)
    ensures var w' := Exec(spec, w, l);
      || (MayDispatch(w') && Dispatches(w'.hist) == Dispatches(w.hist))
      || (Past(w') && Dispatches(w'.hist) <= Dispatches(w.hist) + 1)
  {
    if l.Reply? && l.c == Dispatcher {
      DispatchingReply(spec, w, l);
    } else {
      Frame(spec, w, l, Dispatcher);
      OnlyTheDispatcherDispatches(spec, w, l);
    }
  }

  /** Whatever the reply, the cycle is past the AppWrapper after its call. */
  lemma {:induction false} DispatchingReply(spec: Spec, w: World, l: Label)
    requires Coherent(spec, w) && MayDispatch(w) && Enabled(spec, w, l) && l.Reply? && l.c == Dispatcher
    ensures var w' := Exec(spec, w, l); Past(w') && Dispatches(w'.hist) <= Dispatches(w.hist) + 1
  {
    var w' := Exec(spec, w, l);
    assert w.versions <= w'.versions;
    if w'.hist != w.hist {
      assert w'.hist[..|w.hist|] == w.hist;
    }
  }

  lemma {:induction false} PastStaysPast(spec: Spec, w: World, ls: seq<Label>, w': World)
    requires Coherent(spec, w) && Past(w) && Run(spec, w, ls, w')
    requires forall i :: 0 <= i < |ls| ==> !StartsOver(ls[i])
    ensures Past(w') && Dispatches(w'.hist) == Dispatches(w.hist)
    decreases |ls|
  {
    if ls != [] {
      StepKeepsCoherent(spec, w, ls[0]);
      SpentStep(spec, w, ls[0]);
      assert forall i :: 0 <= i < |ls[1..]| ==> ls[1..][i] == ls[i + 1];
      PastStaysPast(spec, Exec(spec, w, ls[0]), ls[1..], w');
    }
  }

  lemma {:induction false} AtMostOneDispatch(spec: Spec, w: World, ls: seq<Label>, w': World)
    requires Coherent(spec, w) && MayDispatch(w) && Run(spec, w, ls, w')
    requires forall i :: 0 <= i < |ls| ==> !StartsOver(ls[i])
    ensures Dispatches(w'.hist) <= Dispatches(w.hist) + 1
    decreases |ls|
  {
    if ls != [] {
      var w1 := Exec(spec, w, ls[0]);
      StepKeepsCoherent(spec, w, ls[0]);
      CycleStep(spec, w, ls[0]);
      assert forall i :: 0 <= i < |ls[1..]| ==> ls[1..][i] == ls[i + 1];
      if Past(w1) {
        PastStaysPast(spec, w1, ls[1..], w');
      } else {
        AtMostOneDispatch(spec, w1, ls[1..], w');
      }
    }
  }

  /** However many copies of an AppWrapper a cycle has selected, and whatever
      happens meanwhile, faults included: until the dispatcher starts over, the
      AppWrapper is dispatched at most once. */
  lemma {:induction false} DispatchedOncePerCycle(spec: Spec, w0: World, ls0: seq<Label>, w: World, l: Label, ls: seq<Label>, w': World)
    requires Initial(w0) && Run(spec, w0, ls0, w) && Enabled(spec, w, l) && l.List?
    requires Run(spec, Exec(spec, w, l), ls, w') && forall i :: 0 <= i < |ls| ==> !StartsOver(ls[i])
    ensures Dispatches(w'.hist) <= Dispatches(w.hist) + 1
  {
    InitiallyCoherent(spec, w0);
    RunKeepsCoherent(spec, w0, ls0, w);
    StepKeepsCoherent(spec, w, l);
    AtMostOneDispatch(spec, Exec(spec, w, l), ls, w');
  }
}
