/**
 Wrapped resources and the finalizer protocol: resources exist only in the
 phases that account for them, and none outlives the AppWrapper.
 */
module Resources {
  import opened Options
  import opened Lifecycle
  import opened Protocol
  import opened Coherence
  import opened Ownership

  /** The phases in which wrapped resources may exist. */
  predicate Holds(p: Phase) {
    || ((p.state == Running || p.state == Failed) && (p.step == Creating || p.step == Created || p.step == Deleting))
    || p == Phase(Succeeded, Idle)
  }

  /** The Runner cannot be blamed: the deletion of an object fails although it
      may exist, and the pass counts it as gone; or somebody else makes an
      object of that name. */
  function Missed(spec: Spec, w: World, l: Label): set<string> {
    if l == DeleteItem(DeleteError) && w.run.flight.Clearing? && w.run.flight.next < |spec.items| && spec.items[w.run.flight.next].Some? then
      {spec.items[w.run.flight.next].value}
    else if l.Appear? then {l.key}
    else {}
  }

  /** The Runner suffers no lost reply and no timeout; the objects whose deletion
      failed at some time in the run, and those that somebody else made, are
      among `missed`. */
  predicate SweepingRun(spec: Spec, w: World, ls: seq<Label>, w': World, missed: set<string>)
    decreases |ls|
  {
    if ls == [] then w == w'
    else
      && Enabled(spec, w, ls[0])
      && Faithful(w, ls[0], Runner)
      && Missed(spec, w, ls[0]) <= missed
      && SweepingRun(spec, Exec(spec, w, ls[0]), ls[1..], w', missed)
  }

  predicate SweptUpTo(spec: Spec, resources: set<string>, n: nat)
    requires n <= |spec.items|
  {
    forall j :: 0 <= j < n && spec.items[j].Some? ==> spec.items[j].value !in resources
  }

  predicate FromItems(spec: Spec, resources: set<string>) {
    forall key :: key in resources ==> Some(key) in spec.items
  }

  /** The Runner's final call after a deletion pass. */
  predicate Finishing(f: Flight) {
    f.Calling? && (f.request.RemoveFinalizer? || (f.request.Commit? && f.request.status.phase.step == Deleted))
  }

  /** The runner has let go of an AppWrapper that had left the initial phase. */
  predicate Released(o: Object) {
    o.status.count > 0 && !o.runnerFinalizer
  }

  /** What exists apart from missed resources. */
  function Left(w: World, missed: set<string>): set<string> {
    w.resources - missed
  }

  predicate Tidy(spec: Spec, w: World, missed: set<string>)
    requires w.versions != [] && w.run.view < |w.versions|
  {
    && FromItems(spec, Left(w, missed))
    && (Left(w, missed) != {} ==> Holds(Server(w).status.phase))
    && (w.run.flight.Clearing? && w.run.flight.remaining == 0 ==>
          w.run.flight.next <= |spec.items| && SweptUpTo(spec, Left(w, missed), w.run.flight.next))
    && (Finishing(w.run.flight) ==> Left(w, missed) == {})
    && (Released(Server(w)) ==> Left(w, missed) == {} && w.versions[w.run.view].deleting && !w.run.flight.Building?)
  }

  lemma {:induction false} SweptAll(spec: Spec, resources: set<string>)
    requires FromItems(spec, resources) && SweptUpTo(spec, resources, |spec.items|)
    ensures resources == {}
  {
    forall key | Some(key) in spec.items
      ensures key !in resources
    {
      var j :| 0 <= j < |spec.items| && spec.items[j] == Some(key);
    }
  }

  lemma {:induction false} RunnerWorksOnCurrent(spec: Spec, w: World)
    requires Coherent(spec, w) && Owned(w.versions, w.hist, Runner, w.run) && Checked(w.run.flight)
    requires Owner(w.versions[w.run.flight.base].status.phase) == Some(Runner)
    ensures Server(w).status.phase == w.versions[w.run.flight.base].status.phase
  {
    assert VersionOk(spec, w.hist, w.versions[w.run.flight.base]) && VersionOk(spec, w.hist, Server(w));
  }

  lemma {:induction false} BeginKeepsTidy(spec: Spec, w: World, l: Label, missed: set<string>)
    requires Coherent(spec, w) && Tidy(spec, w, missed) && Enabled(spec, w, l) && l.Begin? && l.c == Runner
    ensures Tidy(spec, Exec(spec, w, l), missed)
  {
    var o := w.versions[w.run.view];
    var cache := StaleCheck(w.run.cache, o.status, l.now).0;
    var f := RunnerPlan(spec, o, w.run.view, cache, l.now, l.health).flight;
    assert f.Building? ==> !o.deleting;
    assert !Finishing(f);
    assert f.Clearing? ==> f.next == 0;
  }

  lemma {:induction false} CreateKeepsTidy(spec: Spec, w: World, l: Label, missed: set<string>)
    requires Coherent(spec, w) && Tidy(spec, w, missed) && Enabled(spec, w, l) && l.CreateItem?
    requires Owned(w.versions, w.hist, Runner, w.run)
    ensures Tidy(spec, Exec(spec, w, l), missed)
  {
    RunnerWorksOnCurrent(spec, w);
    var key := spec.items[w.run.flight.next].value;
    assert spec.items[w.run.flight.next] == Some(key);
  }

  lemma {:induction false} DeleteKeepsTidy(spec: Spec, w: World, l: Label, missed: set<string>)
    requires Coherent(spec, w) && Tidy(spec, w, missed) && Enabled(spec, w, l)
    requires l.DeleteItem? && Missed(spec, w, l) <= missed
    ensures Tidy(spec, Exec(spec, w, l), missed)
  {
  }

  lemma {:induction false} EndDeleteKeepsTidy(spec: Spec, w: World, l: Label, missed: set<string>)
    requires Coherent(spec, w) && Tidy(spec, w, missed) && Enabled(spec, w, l) && l.EndDelete?
    ensures Tidy(spec, Exec(spec, w, l), missed)
  {
    if w.run.flight.remaining == 0 {
      SweptAll(spec, Left(w, missed));
    }
  }

  /** Stored requests, seen only through what they do to the server. */
  lemma {:induction false} StoredKeepsTidy(spec: Spec, w: World, c: Controller, missed: set<string>)
    requires Coherent(spec, w) && Tidy(spec, w, missed)
    requires Get(w, c).flight.Calling? && !w.gone && Get(w, c).flight.base + 1 == |w.versions|
    ensures var w' := Stored(w, c, Get(w, c).flight.request);
      && (Left(w, missed) != {} ==> Holds(Server(w').status.phase))
      && (Released(Server(w')) ==> Left(w, missed) == {} && w.versions[w.run.view].deleting && (c == Runner || !w.run.flight.Building?))
  {
    if Get(w, c).flight.request.Commit? {
      CommittedKeepsTidy(spec, w, c, missed);
    } else {
      assert VersionOk(spec, w.hist, Server(w));
    }
  }

  lemma {:induction false} CommittedKeepsTidy(spec: Spec, w: World, c: Controller, missed: set<string>)
    requires Coherent(spec, w) && Tidy(spec, w, missed)
    requires Get(w, c).flight.Calling? && Get(w, c).flight.request.Commit? && Get(w, c).flight.base + 1 == |w.versions|
    ensures var o := Server(w).(status := Get(w, c).flight.request.status);
      && (Left(w, missed) != {} ==> Holds(o.status.phase))
      && (Released(o) ==> Left(w, missed) == {} && w.versions[w.run.view].deleting && !w.run.flight.Building?)
  {
    var o := Server(w);
    assert VersionOk(spec, w.hist, o);
    assert Edge(c, o.status.phase, Get(w, c).flight.request.status.phase);
  }

  lemma {:induction false} ReplyKeepsTidy(spec: Spec, w: World, l: Label, missed: set<string>)
    requires Coherent(spec, w) && Tidy(spec, w, missed) && Enabled(spec, w, l) && l.Reply?
    ensures var w' := Exec(spec, w, l); w'.versions != [] && w'.run.view < |w'.versions| && Tidy(spec, w', missed)
  {
    ReplyShape(spec, w, l);
    if Stores(w, Get(w, l.c).flight.base, l.outcome) {
      StoredKeepsTidy(spec, w, l.c, missed);
    }
  }

  /** A reply, seen only through what Tidy depends on. */
  lemma {:induction false} ReplyShape(spec: Spec, w: World, l: Label)
    requires Coherent(spec, w) && Enabled(spec, w, l) && l.Reply?
    ensures var w' := Exec(spec, w, l);
      && w'.versions == (if Stores(w, Get(w, l.c).flight.base, l.outcome) then Stored(w, l.c, Get(w, l.c).flight.request).versions else w.versions)
      && w.versions <= w'.versions && w'.resources == w.resources && w'.run.view == w.run.view
      && (l.c == Runner ==> !Finishing(w'.run.flight) && !w'.run.flight.Building? && !w'.run.flight.Clearing?)
      && (l.c == Dispatcher ==> w'.run == w.run)
  {
  }

  lemma {:induction false} EnvironmentKeepsTidy(spec: Spec, w: World, l: Label, missed: set<string>)
    requires Coherent(spec, w) && Tidy(spec, w, missed) && Enabled(spec, w, l)
    requires Missed(spec, w, l) <= missed
    requires l.UserDelete? || l.Touch? || l.Vanish? || l.Appear? || ((l.Advance? || l.Restart?) && l.c == Runner)
    ensures var w' := Exec(spec, w, l); w'.versions != [] && w'.run.view < |w'.versions| && Tidy(spec, w', missed)
  {
    assert VersionOk(spec, w.hist, Server(w));
    if l.Advance? {
      assert Precedes(w.versions[w.run.view], w.versions[l.to]);
    }
  }

  lemma {:induction false} StepKeepsTidy(spec: Spec, w: World, l: Label, missed: set<string>)
    requires Coherent(spec, w) && Tidy(spec, w, missed) && Enabled(spec, w, l)
    requires Missed(spec, w, l) <= missed
    requires Owned(w.versions, w.hist, Runner, w.run)
    ensures var w' := Exec(spec, w, l); w'.versions != [] && w'.run.view < |w'.versions| && Tidy(spec, w', missed)
  {
    if l.Reply? {
      ReplyKeepsTidy(spec, w, l, missed);
    } else if Actor(l) == Some(Dispatcher) {
      Frame(spec, w, l, Runner);
    } else if l.Begin? || l.CreateItem? || l.DeleteItem? || l.EndDelete? {
      WorkKeepsTidy(spec, w, l, missed);
    } else {
      EnvironmentKeepsTidy(spec, w, l, missed);
    }
  }

  /** The Runner's own work. */
  lemma {:induction false} WorkKeepsTidy(spec: Spec, w: World, l: Label, missed: set<string>)
    requires Coherent(spec, w) && Tidy(spec, w, missed) && Enabled(spec, w, l) && Missed(spec, w, l) <= missed
    requires (l.Begin? && l.c == Runner) || l.CreateItem? || l.DeleteItem? || l.EndDelete?
    requires Owned(w.versions, w.hist, Runner, w.run)
    ensures var w' := Exec(spec, w, l); w'.versions == w.versions && w'.run.view < |w'.versions| && Tidy(spec, w', missed)
  {
    Frame(spec, w, l, Dispatcher);
    match l
    case Begin(_, _, _, _) => BeginKeepsTidy(spec, w, l, missed);
    case CreateItem(_, _) => CreateKeepsTidy(spec, w, l, missed);
    case DeleteItem(_) => DeleteKeepsTidy(spec, w, l, missed);
    case EndDelete(_, _) => EndDeleteKeepsTidy(spec, w, l, missed);
  }

  lemma {:induction false} RunKeepsTidy(spec: Spec, w: World, ls: seq<Label>, w': World, missed: set<string>)
    requires Coherent(spec, w) && Tidy(spec, w, missed) && Owned(w.versions, w.hist, Runner, w.run)
    requires SweepingRun(spec, w, ls, w', missed)
    ensures Coherent(spec, w') && Tidy(spec, w', missed)
    decreases |ls|
  {
    if ls != [] {
      StepKeepsCoherent(spec, w, ls[0]);
      StepKeepsOwned(spec, w, ls[0], Runner);
      StepKeepsTidy(spec, w, ls[0], missed);
      RunKeepsTidy(spec, Exec(spec, w, ls[0]), ls[1..], w', missed);
    }
  }

  // ----- theorems -----

  /** Wrapped resources exist only in the phases that account for them, so a
      requeued AppWrapper has none, and none outlives the AppWrapper; except for
      those whose deletion once failed with an error other than NotFound, and
      those that somebody else made. */
  lemma {:induction false} ResourcesAreAccountedFor(spec: Spec, w0: World, ls: seq<Label>, w: World, missed: set<string>)
    requires Initial(w0) && SweepingRun(spec, w0, ls, w, missed)
    ensures Coherent(spec, w)
    ensures !(w.resources <= missed) ==> Holds(Server(w).status.phase)
    ensures Server(w).status.phase.state == Queued ==> w.resources <= missed
    ensures Released(Server(w)) || w.gone ==> w.resources <= missed
  {
    InitiallyCoherent(spec, w0);
    InitiallyOwned(w0, Runner);
    RunKeepsTidy(spec, w0, ls, w, missed);
    assert VersionOk(spec, w.hist, Server(w));
    assert Left(w, missed) == {} <==> w.resources <= missed;
  }

  /** From its first transition until it is marked for deletion the AppWrapper
      carries both finalizers; the runner's goes first; and the AppWrapper stays
      on the server as long as it carries either. No fault breaks this. */
  lemma {:induction false} FinalizerProtocol(spec: Spec, w0: World, ls: seq<Label>, w: World)
    requires Initial(w0) && Run(spec, w0, ls, w)
    ensures Coherent(spec, w)
    ensures forall i :: 0 <= i < |w.versions| && w.versions[i].status.phase != START && !w.versions[i].deleting ==>
      w.versions[i].dispatchFinalizer && w.versions[i].runnerFinalizer
    ensures forall i :: 0 <= i < |w.versions| - 1 && w.versions[i].dispatchFinalizer && !w.versions[i + 1].dispatchFinalizer ==>
      w.versions[i].deleting && !w.versions[i].runnerFinalizer
    ensures w.gone ==> Server(w).deleting && !Server(w).dispatchFinalizer && !Server(w).runnerFinalizer
  {
    InitiallyCoherent(spec, w0);
    RunKeepsCoherent(spec, w0, ls, w);
    forall i | 0 <= i < |w.versions| && w.versions[i].status.phase != START && !w.versions[i].deleting
      ensures w.versions[i].dispatchFinalizer && w.versions[i].runnerFinalizer
    {
      assert VersionOk(spec, w.hist, w.versions[i]);
    }
    forall i | 0 <= i < |w.versions| - 1 && w.versions[i].dispatchFinalizer && !w.versions[i + 1].dispatchFinalizer
      ensures w.versions[i].deleting && !w.versions[i].runnerFinalizer
    {
      assert FinalizersInOrder(w.versions[i], w.versions[i + 1]);
    }
  }
}
