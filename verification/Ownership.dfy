/**
 Mutual exclusion. Nothing in the code names it, yet the handling of wrapped
 resources relies on it: a controller whose staleness check passes and whose
 copy is in a phase it owns is looking at the current phase, and nobody else
 moves the AppWrapper until it is done.
 */
module Ownership {
  import opened Options
  import opened Lifecycle
  import opened Protocol
  import opened Coherence

  function CacheCount(cache: Option<CacheEntry>): nat {
    if cache.Some? then cache.value.count else 0
  }

  /** The version a controller works from: its local copy if it is in the
      middle of something, otherwise what its informer serves. */
  function WorksFrom(ctl: Ctl): nat {
    if ctl.flight.Resting? then ctl.view else ctl.flight.base
  }

  /** How much of the history a controller can vouch for. */
  function Known(versions: seq<Object>, ctl: Ctl): nat
    requires WorksFrom(ctl) < |versions|
  {
    var seen := versions[WorksFrom(ctl)].status.count;
    if CacheCount(ctl.cache) > seen then CacheCount(ctl.cache) else seen
  }

  /** A controller past its staleness check. */
  predicate Checked(f: Flight) {
    f.Calling? || f.Building? || f.Clearing?
  }

  predicate OwnMovesKnown(hist: seq<Transition>, c: Controller, known: nat) {
    forall i :: 0 <= i < |hist| && Owner(PhaseAt(hist, i)) == Some(c) ==> i < known
  }

  /** c knows all the moves it ever made, and once past its check it works on
      the current phase if that phase is its own. */
  predicate Owned(versions: seq<Object>, hist: seq<Transition>, c: Controller, ctl: Ctl) {
    && WorksFrom(ctl) < |versions|
    && OwnMovesKnown(hist, c, Known(versions, ctl))
    && (Checked(ctl.flight) ==>
          var s := versions[ctl.flight.base].status;
          && CacheCount(ctl.cache) <= s.count
          && (Owner(s.phase) == Some(c) ==> s.count == |hist|))
  }

  lemma {:induction false} InitiallyOwned(w: World, c: Controller)
    requires Initial(w)
    ensures Owned(w.versions, w.hist, c, Get(w, c))
  {
  }

  /** If the staleness check passes on a version of which c knows its own moves,
      then c works on the current phase if it owns it. */
  lemma {:induction false} PassedCheckIsCurrent(spec: Spec, versions: seq<Object>, hist: seq<Transition>, c: Controller, cache: Option<CacheEntry>, base: nat, now: int)
    requires StoreOk(spec, versions, hist) && base < |versions|
    requires OwnMovesKnown(hist, c, var n := versions[base].status.count; if CacheCount(cache) > n then CacheCount(cache) else n)
    ensures var s := versions[base].status;
      !StaleCheck(cache, s, now).1 ==>
        && OwnMovesKnown(hist, c, s.count)
        && (Owner(s.phase) == Some(c) ==> s.count == |hist| && s.phase == versions[|versions| - 1].status.phase)
  {
    assert VersionOk(spec, hist, versions[base]) && VersionOk(spec, hist, versions[|versions| - 1]);
    var s := versions[base].status;
    if !StaleCheck(cache, s, now).1 {
      assert OwnMovesKnown(hist, c, s.count);
      if Owner(s.phase) == Some(c) && s.count < |hist| {
        assert false;
      }
    }
  }

  /** Ending a reconciliation without a write loses no knowledge. */
  lemma {:induction false} RestKeepsOwned(spec: Spec, versions: seq<Object>, hist: seq<Transition>, c: Controller, ctl: Ctl, cache': Option<CacheEntry>)
    requires CtlOk(spec, versions, hist, c, ctl) && StoreOk(spec, versions, hist)
    requires Owned(versions, hist, c, ctl)
    requires CacheCount(cache') >= CacheCount(ctl.cache) || CacheCount(ctl.cache) <= versions[ctl.view].status.count
    ensures Owned(versions, hist, c, Ctl(ctl.view, cache', Resting))
  {
    assert Precedes(versions[WorksFrom(ctl)], versions[ctl.view]) || ctl.flight.Calling?;
    assert versions[WorksFrom(ctl)].status.count <= versions[ctl.view].status.count;
  }

  lemma {:induction false} StaleCheckKeepsCount(hist: seq<Transition>, cache: Option<CacheEntry>, s: Status, now: int)
    requires CacheOk(hist, cache) && s.count <= |hist| && s.phase == PhaseAt(hist, s.count)
    requires !TimedOut(cache, s, now)
    ensures CacheCount(StaleCheck(cache, s, now).0) >= CacheCount(cache)
  {
  }

  lemma {:induction false} PlanShape(spec: Spec, o: Object, base: nat, cache: Option<CacheEntry>, now: int, decided: bool, health: Health)
    ensures var p := DispatcherPlan(o, base, cache, now, decided);
      WorksFrom(p) == base && !p.flight.Selected? && (p.cache == cache || p.cache == None)
    ensures var p := RunnerPlan(spec, o, base, cache, now, health);
      WorksFrom(p) == base && !p.flight.Selected? && (p.cache == cache || p.cache == None)
  {
  }

  lemma {:induction false} BeginKeepsOwned(spec: Spec, w: World, l: Label)
    requires Coherent(spec, w) && Enabled(spec, w, l) && l.Begin? && Faithful(w, l, l.c)
    requires Owned(w.versions, w.hist, l.c, Get(w, l.c))
    ensures Owned(w.versions, w.hist, l.c, Get(Exec(spec, w, l), l.c))
  {
    var ctl := Get(w, l.c);
    var o := w.versions[ctl.view];
    var (cache, stale) := StaleCheck(ctl.cache, o.status, l.now);
    if stale {
      assert VersionOk(spec, w.hist, o);
      StaleCheckKeepsCount(w.hist, ctl.cache, o.status, l.now);
      RestKeepsOwned(spec, w.versions, w.hist, l.c, ctl, cache);
    } else {
      PlanShape(spec, o, ctl.view, cache, l.now, l.decided, l.health);
      PassedPlanIsOwned(spec, w, l.c, l.now, Get(Exec(spec, w, l), l.c));
    }
  }

  /** A reconciliation that has passed its check. */
  lemma {:induction false} PassedPlanIsOwned(spec: Spec, w: World, c: Controller, now: int, plan: Ctl)
    requires Coherent(spec, w) && Get(w, c).flight.Resting? && Owned(w.versions, w.hist, c, Get(w, c))
    requires var (cache, stale) := StaleCheck(Get(w, c).cache, w.versions[Get(w, c).view].status, now);
      !stale && WorksFrom(plan) == Get(w, c).view && (plan.cache == cache || plan.cache == None)
    ensures Owned(w.versions, w.hist, c, plan)
  {
    var ctl := Get(w, c);
    PassedCheckIsCurrent(spec, w.versions, w.hist, c, ctl.cache, ctl.view, now);
    assert VersionOk(spec, w.hist, w.versions[ctl.view]);
    FreshPlanIsOwned(w.versions, w.hist, c, plan, ctl.view);
  }

  lemma {:induction false} FreshPlanIsOwned(versions: seq<Object>, hist: seq<Transition>, c: Controller, ctl: Ctl, base: nat)
    requires base < |versions| && WorksFrom(ctl) == base
    requires CacheCount(ctl.cache) <= versions[base].status.count
    requires OwnMovesKnown(hist, c, versions[base].status.count)
    requires Owner(versions[base].status.phase) == Some(c) ==> versions[base].status.count == |hist|
    ensures Owned(versions, hist, c, ctl)
  {
  }

  lemma {:induction false} CheckKeepsOwned(spec: Spec, w: World, l: Label)
    requires Coherent(spec, w) && Enabled(spec, w, l) && l.Check? && Faithful(w, l, Dispatcher)
    requires Owned(w.versions, w.hist, Dispatcher, w.disp)
    ensures Owned(w.versions, w.hist, Dispatcher, Exec(spec, w, l).disp)
  {
    var f := w.disp.flight;
    var s := w.versions[f.base].status;
    assert VersionOk(spec, w.hist, w.versions[f.base]);
    if !TimedOut(w.disp.cache, s, l.now) { StaleCheckKeepsCount(w.hist, w.disp.cache, s, l.now); }
    PassedCheckIsCurrent(spec, w.versions, w.hist, Dispatcher, w.disp.cache, f.base, l.now);
    var (cache, stale) := StaleCheck(w.disp.cache, s, l.now);
    RestKeepsOwned(spec, w.versions, w.hist, Dispatcher, w.disp, cache);
  }

  /** What the other controller or the environment stores does not disturb c. */
  lemma {:induction false} GrowthKeepsOwned(spec: Spec, w: World, versions': seq<Object>, hist': seq<Transition>, c: Controller)
    requires Coherent(spec, w)
    requires Owned(w.versions, w.hist, c, Get(w, c))
    requires w.versions <= versions'
    requires hist' == w.hist || (w.hist <= hist' && |hist'| == |w.hist| + 1 && Owner(Server(w).status.phase) != Some(c))
    ensures Owned(versions', hist', c, Get(w, c))
  {
    assert VersionOk(spec, w.hist, Server(w));
    var ctl := Get(w, c);
    var known := Known(w.versions, ctl);
    forall i | 0 <= i < |hist'| && Owner(PhaseAt(hist', i)) == Some(c)
      ensures i < known
    {
      assert PhaseAt(hist', i) == PhaseAt(w.hist, i);
    }
    if Checked(ctl.flight) {
      assert VersionOk(spec, w.hist, w.versions[ctl.flight.base]);
    }
  }

  lemma {:induction false} CommitLeavesOwnPhase(spec: Spec, w: World, c: Controller)
    requires Coherent(spec, w) && Get(w, c).flight.Calling? && Get(w, c).flight.request.Commit?
    requires Get(w, c).flight.base + 1 == |w.versions|
    ensures Owner(Server(w).status.phase) == Some(c)
  {
    assert VersionOk(spec, w.hist, Server(w));
    OwnerIsTheOnlyWayOut(Server(w).status.phase);
  }

  lemma {:induction false} OwnReplyKeepsOwned(spec: Spec, w: World, l: Label)
    requires Coherent(spec, w) && Enabled(spec, w, l) && l.Reply? && Faithful(w, l, l.c)
    requires Owned(w.versions, w.hist, l.c, Get(w, l.c))
    ensures var w' := Exec(spec, w, l); Owned(w'.versions, w'.hist, l.c, Get(w', l.c))
  {
    var c := l.c;
    var ctl := Get(w, c);
    var f := ctl.flight;
    if !Stores(w, f.base, l.outcome) {
      RestKeepsOwned(spec, w.versions, w.hist, c, ctl, ctl.cache);
    } else if f.request.Commit? {
      OwnCommitKeepsOwned(spec, w, l);
    } else {
      OwnUpdateKeepsOwned(spec, w, l);
    }
  }

  /** A stored update of anything but the status. */
  lemma {:induction false} OwnUpdateKeepsOwned(spec: Spec, w: World, l: Label)
    requires Coherent(spec, w) && Enabled(spec, w, l) && l.Reply?
    requires !Get(w, l.c).flight.request.Commit? && Stores(w, Get(w, l.c).flight.base, l.outcome)
    requires Owned(w.versions, w.hist, l.c, Get(w, l.c))
    ensures var w' := Exec(spec, w, l); Owned(w'.versions, w'.hist, l.c, Get(w', l.c))
  {
    var w1 := Stored(w, l.c, Get(w, l.c).flight.request);
    UpdateKeepsKnowledge(spec, w, l.c);
    assert Server(w1).status == Server(w).status;
  }

  /** An update of anything but the status, before the controller goes on. */
  lemma {:induction false} UpdateKeepsKnowledge(spec: Spec, w: World, c: Controller)
    requires Coherent(spec, w) && Get(w, c).flight.Calling? && !Get(w, c).flight.request.Commit?
    requires Get(w, c).flight.base + 1 == |w.versions| && Owned(w.versions, w.hist, c, Get(w, c))
    ensures var w1 := Stored(w, c, Get(w, c).flight.request);
      && Owned(w1.versions, w1.hist, c, Get(w, c))
      && Owned(w1.versions, w1.hist, c, Get(w, c).(flight := Resting))
      && Owned(w1.versions, w1.hist, c, Ctl(Get(w, c).view, None, Resting))
  {
    var ctl := Get(w, c);
    var f := ctl.flight;
    var w1 := Stored(w, c, f.request);
    GrowthKeepsOwned(spec, w, w1.versions, w1.hist, c);
    GrowthKeepsCtlOk(spec, w.versions, w.hist, w1.versions, w1.hist, c, ctl);
    StoredKeepsStoreOk(spec, w, c, f.request, f.since);
    RestKeepsOwned(spec, w1.versions, w1.hist, c, ctl, ctl.cache);
    RestKeepsOwned(spec, w1.versions, w1.hist, c, ctl, None);
  }

  lemma {:induction false} OwnCommitKeepsOwned(spec: Spec, w: World, l: Label)
    requires Coherent(spec, w) && Enabled(spec, w, l) && l.Reply? && l.outcome == Ok
    requires Get(w, l.c).flight.request.Commit? && Stores(w, Get(w, l.c).flight.base, Ok)
    requires Owned(w.versions, w.hist, l.c, Get(w, l.c))
    ensures var w' := Exec(spec, w, l); Owned(w'.versions, w'.hist, l.c, Get(w', l.c))
  {
    var w' := Exec(spec, w, l);
    var ctl := Get(w, l.c);
    var ctl' := Get(w', l.c);
    assert VersionOk(spec, w.hist, Server(w));
    assert CacheCount(ctl'.cache) == |w.hist| + 1 == |w'.hist|;
    assert WorksFrom(ctl') < |w'.versions|;
    assert Known(w'.versions, ctl') >= |w'.hist|;
  }

  lemma {:induction false} StepKeepsOwned(spec: Spec, w: World, l: Label, c: Controller)
    requires Coherent(spec, w) && Enabled(spec, w, l) && Faithful(w, l, c)
    requires Owned(w.versions, w.hist, c, Get(w, c))
    ensures var w' := Exec(spec, w, l); Owned(w'.versions, w'.hist, c, Get(w', c))
  {
    if (l.Reply? && l.c != c) || l.UserDelete? || l.Touch? {
      OtherStoreKeepsOwned(spec, w, l, c);
    } else if l.Reply? {
      OwnReplyKeepsOwned(spec, w, l);
    } else {
      QuietStepKeepsOwned(spec, w, l, c);
    }
  }

  /** A step that stores nothing. */
  lemma {:induction false} QuietStepKeepsOwned(spec: Spec, w: World, l: Label, c: Controller)
    requires Coherent(spec, w) && Enabled(spec, w, l) && Faithful(w, l, c) && !MayStore(l)
    requires Owned(w.versions, w.hist, c, Get(w, c))
    ensures var w' := Exec(spec, w, l); Owned(w'.versions, w'.hist, c, Get(w', c))
  {
    Frame(spec, w, l, c);
    if Actor(l) == Some(c) {
      match l
      case Begin(_, _, _, _) => BeginKeepsOwned(spec, w, l);
      case List(_, _) => ListKeepsOwned(spec, w, l);
      case Check(_) => CheckKeepsOwned(spec, w, l);
      case Advance(_, to) => AdvanceKeepsOwned(spec, w, c, to);
      case Restart(_) => RestartKeepsOwned(spec, w, c);
      case _ => ResourceStepKeepsOwned(spec, w, l);
    }
  }

  lemma {:induction false} ListKeepsOwned(spec: Spec, w: World, l: Label)
    requires Enabled(spec, w, l) && l.List? && Owned(w.versions, w.hist, Dispatcher, w.disp)
    ensures Owned(w.versions, w.hist, Dispatcher, Exec(spec, w, l).disp)
  {
  }

  lemma {:induction false} RestartKeepsOwned(spec: Spec, w: World, c: Controller)
    requires Coherent(spec, w)
    ensures Owned(w.versions, w.hist, c, Ctl(|w.versions| - 1, None, Resting))
  {
    assert VersionOk(spec, w.hist, Server(w));
  }

  lemma {:induction false} OtherStoreKeepsOwned(spec: Spec, w: World, l: Label, c: Controller)
    requires Coherent(spec, w) && Enabled(spec, w, l)
    requires (l.Reply? && l.c != c) || l.UserDelete? || l.Touch?
    requires Owned(w.versions, w.hist, c, Get(w, c))
    ensures var w' := Exec(spec, w, l); Owned(w'.versions, w'.hist, c, Get(w', c))
  {
    StoreShape(spec, w, l, c);
    var w' := Exec(spec, w, l);
    GrowthKeepsOwned(spec, w, w'.versions, w'.hist, c);
  }

  /** What somebody else may store. */
  lemma {:induction false} StoreShape(spec: Spec, w: World, l: Label, c: Controller)
    requires Coherent(spec, w) && Enabled(spec, w, l)
    requires (l.Reply? && l.c != c) || l.UserDelete? || l.Touch?
    ensures var w' := Exec(spec, w, l);
      && w.versions <= w'.versions && Get(w', c) == Get(w, c)
      && (w'.hist == w.hist || (w.hist <= w'.hist && |w'.hist| == |w.hist| + 1 && Owner(Server(w).status.phase) != Some(c)))
  {
    if l.Reply? && Stores(w, Get(w, l.c).flight.base, l.outcome) && Get(w, l.c).flight.request.Commit? {
      CommitLeavesOwnPhase(spec, w, l.c);
    }
  }

  lemma {:induction false} ResourceStepKeepsOwned(spec: Spec, w: World, l: Label)
    requires Coherent(spec, w) && Enabled(spec, w, l) && (l.CreateItem? || l.DeleteItem? || l.EndDelete?)
    ensures var w' := Exec(spec, w, l);
      && w'.versions == w.versions && w'.hist == w.hist && w'.disp == w.disp
      && (Owned(w.versions, w.hist, Runner, w.run) ==> Owned(w.versions, w.hist, Runner, w'.run))
  {
    if Owned(w.versions, w.hist, Runner, w.run) {
      var ctl' := Exec(spec, w, l).run;
      RestKeepsOwned(spec, w.versions, w.hist, Runner, w.run, w.run.cache);
      if !ctl'.flight.Resting? {
        FreshPlanIsOwned(w.versions, w.hist, Runner, ctl', w.run.flight.base);
      }
    }
  }

  lemma {:induction false} AdvanceKeepsOwned(spec: Spec, w: World, c: Controller, to: nat)
    requires Coherent(spec, w) && Get(w, c).view <= to < |w.versions|
    requires Owned(w.versions, w.hist, c, Get(w, c))
    ensures Owned(w.versions, w.hist, c, Get(w, c).(view := to))
  {
    assert Precedes(w.versions[Get(w, c).view], w.versions[to]);
  }

  lemma {:induction false} RunKeepsOwned(spec: Spec, w: World, ls: seq<Label>, w': World, c: Controller)
    requires Coherent(spec, w) && Owned(w.versions, w.hist, c, Get(w, c))
    requires FaithfulRun(spec, w, ls, w', c)
    ensures Coherent(spec, w') && Owned(w'.versions, w'.hist, c, Get(w', c))
    decreases |ls|
  {
    if ls != [] {
      StepKeepsCoherent(spec, w, ls[0]);
      StepKeepsOwned(spec, w, ls[0], c);
      RunKeepsOwned(spec, Exec(spec, w, ls[0]), ls[1..], w', c);
    }
  }

  // ----- theorems -----

  /** In every run in which c itself suffers no lost reply and no timeout: if
      c's staleness check passes on a copy in a phase c owns, that copy has the
      server's current phase and count; and from there until c is done, the
      server's phase and count stay what c's copy says. */
  lemma {:induction false} MutualExclusion(spec: Spec, w0: World, ls: seq<Label>, w: World, c: Controller, now: int)
    requires Initial(w0) && FaithfulRun(spec, w0, ls, w, c)
    ensures Coherent(spec, w)
    ensures var ctl := Get(w, c);
      var s := w.versions[WorksFrom(ctl)].status;
      Owner(s.phase) == Some(c) && (Checked(ctl.flight) || !StaleCheck(ctl.cache, s, now).1) ==>
        s.phase == Server(w).status.phase && s.count == Server(w).status.count
  {
    InitiallyCoherent(spec, w0);
    InitiallyOwned(w0, c);
    RunKeepsOwned(spec, w0, ls, w, c);
    var ctl := Get(w, c);
    assert VersionOk(spec, w.hist, w.versions[WorksFrom(ctl)]) && VersionOk(spec, w.hist, Server(w));
    PassedCheckIsCurrent(spec, w.versions, w.hist, c, ctl.cache, WorksFrom(ctl), now);
  }

  /** A controller in the middle of work on a phase it owns. */
  predicate Critical(w: World, c: Controller) {
    && Checked(Get(w, c).flight)
    && Get(w, c).flight.base < |w.versions|
    && Owner(w.versions[Get(w, c).flight.base].status.phase) == Some(c)
  }

  /** The two controllers are never in the middle of work on phases of their
      own at the same time. */
  lemma {:induction false} NeverBothCritical(spec: Spec, w0: World, ls: seq<Label>, w: World)
    requires Initial(w0) && FaithfulRun(spec, w0, ls, w, Dispatcher) && FaithfulRun(spec, w0, ls, w, Runner)
    ensures !(Critical(w, Dispatcher) && Critical(w, Runner))
  {
    MutualExclusion(spec, w0, ls, w, Dispatcher, 0);
    MutualExclusion(spec, w0, ls, w, Runner, 0);
  }

  /** The phase by which a resting dispatcher classifies a listed AppWrapper is
      idle only if it is the server's current phase, however far the listing
      lags. So an AppWrapper that has left the queue is never taken for queued,
      and its reservation is never dropped. */
  lemma {:induction false} EffectiveIdleIsCurrent(spec: Spec, w0: World, ls: seq<Label>, w: World)
    requires Initial(w0) && FaithfulRun(spec, w0, ls, w, Dispatcher) && w.disp.flight.Resting?
    ensures Coherent(spec, w)
    ensures var p := Effective(w.disp.cache, w.versions[w.disp.view].status);
      p.step == Idle ==> p == Server(w).status.phase
  {
    InitiallyCoherent(spec, w0);
    InitiallyOwned(w0, Dispatcher);
    RunKeepsOwned(spec, w0, ls, w, Dispatcher);
    var s := w.versions[w.disp.view].status;
    assert VersionOk(spec, w.hist, w.versions[w.disp.view]) && VersionOk(spec, w.hist, Server(w));
    var known := Known(w.versions, w.disp);
    var p := Effective(w.disp.cache, s);
    assert p == PhaseAt(w.hist, known);
    if p.step == Idle && known < |w.hist| {
      IdleIsLeftByDispatcher(w.hist, known);
      assert false;
    }
  }

  lemma {:induction false} IdleIsLeftByDispatcher(hist: seq<Transition>, i: nat)
    requires HistoryOk(hist) && i < |hist| && PhaseAt(hist, i).step == Idle
    ensures Owner(PhaseAt(hist, i)) == Some(Dispatcher)
  {
    assert EdgeAt(hist, i);
  }
}
