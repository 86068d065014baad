/**
 What the Runner's health checks may do: in every run, the time of dispatch is
 kept, a running AppWrapper is given up only after its grace period and on a
 verdict of missing pods, and it succeeds only on a verdict of success.
 */
module Monitoring {
  import opened Options
  import opened Lifecycle
  import opened Protocol
  import opened Coherence
  import opened Bounds
  import opened Progress

  const CREATING: Phase := Phase(Running, Creating)
  const CREATED: Phase := Phase(Running, Created)
  const SUCCEEDED: Phase := Phase(Succeeded, Idle)

  // ----- the time of dispatch -----

  /** The stored dispatch time is the logged time of the move to
      Running/Creating. */
  predicate TimeOk(hist: seq<Transition>, s: Status) {
    && (s.phase == CREATING ==> 1 <= s.count <= |hist| && s.dispatchTime == hist[s.count - 1].time)
    && (s.phase == CREATED ==> 2 <= s.count <= |hist| && s.dispatchTime == hist[s.count - 2].time && hist[s.count - 2].phase == CREATING)
  }

  /** A transition away from Running/Created, other than to success, is logged
      after the grace period. */
  predicate GraceAt(spec: Spec, hist: seq<Transition>, i: nat)
    requires i < |hist|
  {
    PhaseAt(hist, i) == CREATED && hist[i].phase != SUCCEEDED ==>
      i >= 2 && hist[i - 2].phase == CREATING && hist[i].time > hist[i - 2].time + spec.requeueAfter
  }

  /** What a status write by the Runner owes to the one before. */
  predicate Paced(spec: Spec, s: Status, s': Status) {
    && (s'.phase == CREATING ==> s'.dispatchTime == LastTime(s'))
    && (s'.phase == CREATED ==> s'.dispatchTime == s.dispatchTime)
    && (s.phase == CREATED && s'.phase != SUCCEEDED ==> LastTime(s') > s.dispatchTime + spec.requeueAfter)
  }

  predicate FlightPaced(spec: Spec, versions: seq<Object>, f: Flight) {
    f.Calling? && f.request.Commit? ==> f.base < |versions| && Paced(spec, versions[f.base].status, f.request.status)
  }

  predicate TimesOk(versions: seq<Object>, hist: seq<Transition>) {
    forall i {:trigger TimeOk(hist, versions[i].status)} :: 0 <= i < |versions| ==> TimeOk(hist, versions[i].status)
  }

  predicate GraceOk(spec: Spec, hist: seq<Transition>) {
    forall i {:trigger GraceAt(spec, hist, i)} :: 0 <= i < |hist| ==> GraceAt(spec, hist, i)
  }

  predicate Steady(spec: Spec, w: World) {
    && TimesOk(w.versions, w.hist)
    && GraceOk(spec, w.hist)
    && FlightPaced(spec, w.versions, w.run.flight)
  }

  // ----- the Runner's calls are paced -----

  lemma {:induction false} FallbackIsPaced(spec: Spec, s: Status, fatal: bool, now: int)
    requires s.phase == CREATING || (s.phase == CREATED && now > s.dispatchTime + spec.requeueAfter)
    ensures Paced(spec, s, RequeueOrFail(spec, s, fatal, now))
  {
  }

  lemma {:induction false} MonitorIsPaced(spec: Spec, versions: seq<Object>, base: nat, now: int, health: Health)
    requires base < |versions| && versions[base].status.phase == CREATED
    ensures FlightPaced(spec, versions, Monitor(spec, versions[base].status, base, now, health))
  {
    if now > versions[base].status.dispatchTime + spec.requeueAfter {
      FallbackIsPaced(spec, versions[base].status, false, now);
    }
  }

  lemma {:induction false} PlanIsPaced(spec: Spec, versions: seq<Object>, base: nat, cache: Option<CacheEntry>, now: int, health: Health)
    requires base < |versions|
    ensures FlightPaced(spec, versions, RunnerPlan(spec, versions[base], base, cache, now, health).flight)
  {
    var s := versions[base].status;
    if s.phase == CREATED {
      MonitorIsPaced(spec, versions, base, now, health);
    } else if s.phase == CREATING {
      FallbackIsPaced(spec, s, true, now);
    }
  }

  lemma {:induction false} WorkIsPaced(spec: Spec, w: World, l: Label)
    requires Coherent(spec, w) && Enabled(spec, w, l) && (l.CreateItem? || l.DeleteItem? || l.EndDelete?)
    ensures FlightPaced(spec, w.versions, Exec(spec, w, l).run.flight)
  {
    if l.CreateItem? && (l.created.NotMade? || l.created.MadeButFailed?) {
      FallbackIsPaced(spec, w.versions[w.run.flight.base].status, l.created.fatal, l.now);
    }
  }

  // ----- every run is steady -----

  lemma {:induction false} TimesGrow(versions: seq<Object>, hist: seq<Transition>, o: Object, hist': seq<Transition>)
    requires TimesOk(versions, hist) && hist <= hist' && TimeOk(hist', o.status)
    ensures TimesOk(versions + [o], hist')
  {
    forall i | 0 <= i < |versions + [o]|
      ensures TimeOk(hist', (versions + [o])[i].status)
    {
      if i < |versions| { assert TimeOk(hist, versions[i].status); }
    }
  }

  lemma {:induction false} GraceGrows(spec: Spec, hist: seq<Transition>, t: Transition)
    requires GraceOk(spec, hist)
    requires PhaseAt(hist, |hist|) == CREATED && t.phase != SUCCEEDED ==>
      |hist| >= 2 && hist[|hist| - 2].phase == CREATING && t.time > hist[|hist| - 2].time + spec.requeueAfter
    ensures GraceOk(spec, hist + [t])
  {
    forall i | 0 <= i < |hist + [t]|
      ensures GraceAt(spec, hist + [t], i)
    {
      assert PhaseAt(hist + [t], i) == PhaseAt(hist, i);
      if i < |hist| { assert GraceAt(spec, hist, i); }
    }
  }

  /** A stored status write of either controller. */
  lemma {:induction false} CommitIsPaced(spec: Spec, w: World, c: Controller)
    requires Coherent(spec, w) && FlightPaced(spec, w.versions, w.run.flight)
    requires Get(w, c).flight.Calling? && Get(w, c).flight.request.Commit? && Get(w, c).flight.base + 1 == |w.versions|
    ensures var s' := Get(w, c).flight.request.status;
      && Paced(spec, Server(w).status, s')
      && s'.count == |w.hist| + 1
      && (s'.phase == CREATED ==> Server(w).status.phase == CREATING)
  {
    assert VersionOk(spec, w.hist, Server(w));
    assert Successor(spec, c, Server(w).status, Get(w, c).flight.request.status);
  }

  lemma {:induction false} StoredCommitIsSteady(spec: Spec, w: World, c: Controller)
    requires Coherent(spec, w) && Steady(spec, w)
    requires Get(w, c).flight.Calling? && Get(w, c).flight.request.Commit? && Get(w, c).flight.base + 1 == |w.versions|
    ensures var w' := Stored(w, c, Get(w, c).flight.request); TimesOk(w'.versions, w'.hist) && GraceOk(spec, w'.hist)
  {
    var s := Get(w, c).flight.request.status;
    var t := Transition(LastTime(s), c, s.phase);
    CommitIsPaced(spec, w, c);
    assert VersionOk(spec, w.hist, Server(w));
    assert TimeOk(w.hist, w.versions[|w.versions| - 1].status);
    TimesGrow(w.versions, w.hist, Server(w).(status := s), w.hist + [t]);
    GraceGrows(spec, w.hist, t);
  }

  lemma {:induction false} StoredIsSteady(spec: Spec, w: World, c: Controller)
    requires Coherent(spec, w) && Steady(spec, w)
    requires Get(w, c).flight.Calling? && Get(w, c).flight.base + 1 == |w.versions|
    ensures var w' := Stored(w, c, Get(w, c).flight.request); TimesOk(w'.versions, w'.hist) && GraceOk(spec, w'.hist)
  {
    var request := Get(w, c).flight.request;
    if request.Commit? {
      StoredCommitIsSteady(spec, w, c);
    } else {
      assert TimeOk(w.hist, w.versions[|w.versions| - 1].status);
      TimesGrow(w.versions, w.hist, Updated(Server(w), c, request), w.hist);
    }
  }

  lemma {:induction false} ReplyIsSteady(spec: Spec, w: World, l: Label)
    requires Coherent(spec, w) && Steady(spec, w) && Enabled(spec, w, l) && l.Reply?
    ensures Steady(spec, Exec(spec, w, l))
  {
    var f := Get(w, l.c).flight;
    if Stores(w, f.base, l.outcome) { StoredIsSteady(spec, w, l.c); }
    assert l.c == Runner ==> !f.request.AddFinalizers?;
  }

  lemma {:induction false} StoreIsSteady(spec: Spec, w: World, l: Label)
    requires Coherent(spec, w) && Steady(spec, w) && Enabled(spec, w, l) && (l.UserDelete? || l.Touch?)
    ensures Steady(spec, Exec(spec, w, l))
  {
    var o := if l.Touch? then Server(w) else Server(w).(deleting := true);
    assert TimeOk(w.hist, w.versions[|w.versions| - 1].status);
    TimesGrow(w.versions, w.hist, o, w.hist);
  }

  lemma {:induction false} BeginIsSteady(spec: Spec, w: World, l: Label)
    requires Coherent(spec, w) && Enabled(spec, w, l) && l.Begin? && l.c == Runner
    ensures FlightPaced(spec, w.versions, Exec(spec, w, l).run.flight)
  {
    PlanIsPaced(spec, w.versions, w.run.view, StaleCheck(w.run.cache, w.versions[w.run.view].status, l.now).0, l.now, l.health);
  }

  lemma {:induction false} StepIsSteady(spec: Spec, w: World, l: Label)
    requires Coherent(spec, w) && Steady(spec, w) && Enabled(spec, w, l)
    ensures Steady(spec, Exec(spec, w, l))
  {
    if l.Reply? {
      ReplyIsSteady(spec, w, l);
    } else if l.UserDelete? || l.Touch? {
      StoreIsSteady(spec, w, l);
    } else {
      Frame(spec, w, l, Runner);
      if l.Begin? && l.c == Runner {
        BeginIsSteady(spec, w, l);
      } else if l.CreateItem? || l.DeleteItem? || l.EndDelete? {
        WorkIsPaced(spec, w, l);
      }
    }
  }

  lemma {:induction false} RunIsSteady(spec: Spec, w: World, ls: seq<Label>, w': World)
    requires Coherent(spec, w) && Steady(spec, w) && Run(spec, w, ls, w')
    ensures Coherent(spec, w') && Steady(spec, w')
    decreases |ls|
  {
    if ls != [] {
      StepKeepsCoherent(spec, w, ls[0]);
      StepIsSteady(spec, w, ls[0]);
      RunIsSteady(spec, Exec(spec, w, ls[0]), ls[1..], w');
    }
  }

  /** In every run, faults included: a stored version in Running/Creating or
      Running/Created carries as dispatch time the logged time of its move to
      Running/Creating. */
  lemma {:induction false} DispatchTimeIsKept(spec: Spec, w0: World, ls: seq<Label>, w: World, j: nat)
    requires Initial(w0) && Run(spec, w0, ls, w) && j < |w.versions|
    ensures var s := w.versions[j].status;
      s.phase == Phase(Running, Creating) || s.phase == Phase(Running, Created) ==>
        var i := if s.phase == Phase(Running, Creating) then s.count - 1 else s.count - 2;
        0 <= i < |w.hist| && w.hist[i].phase == Phase(Running, Creating) && s.dispatchTime == w.hist[i].time
  {
    InitiallyCoherent(spec, w0);
    RunIsSteady(spec, w0, ls, w);
    assert TimeOk(w.hist, w.versions[j].status);
    assert VersionOk(spec, w.hist, w.versions[j]);
  }

  /** In every run, faults included: a running AppWrapper is not given up before
      the grace period after the Runner accepted it is over. */
  lemma {:induction false} GraceIsKept(spec: Spec, w0: World, ls: seq<Label>, w: World, i: nat)
    requires Initial(w0) && Run(spec, w0, ls, w) && i < |w.hist|
    requires PhaseAt(w.hist, i) == Phase(Running, Created) && w.hist[i].phase != Phase(Succeeded, Idle)
    ensures i >= 2 && w.hist[i - 2].phase == Phase(Running, Creating) && w.hist[i].time > w.hist[i - 2].time + spec.requeueAfter
  {
    InitiallyCoherent(spec, w0);
    RunIsSteady(spec, w0, ls, w);
    assert GraceAt(spec, w.hist, i);
  }

  // ----- verdicts -----

  /** The Runner has begun, in step l, with a verdict that justifies writing s'
      over the status s of a running AppWrapper. */
  predicate Justifies(spec: Spec, l: Label, s: Status, s': Status) {
    && l.Begin? && l.c == Runner && l.health.Health?
    && (if s'.phase == Phase(Succeeded, Idle) then l.health.success else Ailing(spec, s, l.health, l.now))
  }

  predicate RunnerBegins(l: Label) {
    l.Begin? && l.c == Runner
  }

  /** The last time the Runner began, among the labels. */
  predicate LastBegin(ls: seq<Label>, i: nat) {
    i < |ls| && RunnerBegins(ls[i]) && forall j :: i < j < |ls| ==> !RunnerBegins(ls[j])
  }

  /** A write over a running AppWrapper that is under way was justified when the
      Runner last began. */
  ghost predicate Grounded(spec: Spec, done: seq<Label>, versions: seq<Object>, f: Flight) {
    f.Calling? && f.request.Commit? && f.base < |versions| && versions[f.base].status.phase == CREATED ==>
      exists i: nat :: LastBegin(done, i) && Justifies(spec, done[i], versions[f.base].status, f.request.status)
  }

  lemma {:induction false} BeginIsGrounded(spec: Spec, w: World, l: Label, done: seq<Label>)
    requires Coherent(spec, w) && Enabled(spec, w, l) && l.Begin? && l.c == Runner
    ensures Grounded(spec, done + [l], w.versions, Exec(spec, w, l).run.flight)
  {
    var f := Exec(spec, w, l).run.flight;
    if f.Calling? && f.request.Commit? && f.base < |w.versions| && w.versions[f.base].status.phase == CREATED {
      assert Justifies(spec, l, w.versions[f.base].status, f.request.status);
      assert LastBegin(done + [l], |done|);
    }
  }

  lemma {:induction false} OthersStayGrounded(spec: Spec, w: World, l: Label, done: seq<Label>)
    requires Coherent(spec, w) && Enabled(spec, w, l) && !RunnerBegins(l)
    requires Grounded(spec, done, w.versions, w.run.flight)
    ensures Grounded(spec, done + [l], Exec(spec, w, l).versions, Exec(spec, w, l).run.flight)
  {
    var f := w.run.flight;
    var w' := Exec(spec, w, l);
    KeepsOrDrops(spec, w, l);
    if w'.run.flight == f && f.Calling? && f.request.Commit? && w.versions[f.base].status.phase == CREATED {
      var i: nat :| LastBegin(done, i) && Justifies(spec, done[i], w.versions[f.base].status, f.request.status);
      assert LastBegin(done + [l], i);
    }
  }

  /** Without a new beginning, the Runner's calls on a running AppWrapper are only
      dropped. */
  lemma {:induction false} KeepsOrDrops(spec: Spec, w: World, l: Label)
    requires Coherent(spec, w) && Enabled(spec, w, l) && !RunnerBegins(l)
    ensures var w' := Exec(spec, w, l);
      var f := w'.run.flight;
      && w.versions <= w'.versions
      && (f == w.run.flight || !(f.Calling? && f.request.Commit? && f.base < |w'.versions| && w'.versions[f.base].status.phase == CREATED))
  {
    Frame(spec, w, l, Runner);
  }

  lemma {:induction false} RunIsGrounded(spec: Spec, w: World, ls: seq<Label>, w': World, done: seq<Label>)
    requires Coherent(spec, w) && Run(spec, w, ls, w') && Grounded(spec, done, w.versions, w.run.flight)
    ensures Coherent(spec, w') && Grounded(spec, done + ls, w'.versions, w'.run.flight)
    decreases |ls|
  {
    if ls == [] {
      assert done + ls == done;
    } else {
      var w1 := Exec(spec, w, ls[0]);
      StepKeepsCoherent(spec, w, ls[0]);
      if RunnerBegins(ls[0]) {
        BeginIsGrounded(spec, w, ls[0], done);
        Frame(spec, w, ls[0], Dispatcher);
      } else {
        OthersStayGrounded(spec, w, ls[0], done);
      }
      RunIsGrounded(spec, w1, ls[1..], w', done + [ls[0]]);
      assert done + [ls[0]] + ls[1..] == done + ls;
    }
  }

  /** In every run, faults included: whenever a running AppWrapper leaves
      Running/Created, the Runner had last begun with a verdict of success, if it
      succeeds, and otherwise past the grace period and with fewer pods than
      required. */
  lemma {:induction false} VerdictsAreRequired(spec: Spec, w0: World, ls: seq<Label>, w: World, l: Label)
    requires Initial(w0) && Run(spec, w0, ls, w) && Enabled(spec, w, l)
    requires |Exec(spec, w, l).hist| != |w.hist| && w.versions != [] && Server(w).status.phase == Phase(Running, Created)
    ensures Exec(spec, w, l).versions != []
    ensures exists i: nat :: LastBegin(ls, i) && Justifies(spec, ls[i], Server(w).status, Server(Exec(spec, w, l)).status)
  {
    InitiallyCoherent(spec, w0);
    assert [] + ls == ls;
    RunIsGrounded(spec, w0, ls, w, []);
    GrowthIsACommit(spec, w, l);
    assert Edge(l.c, Server(w).status.phase, Server(Exec(spec, w, l)).status.phase);
  }
}
