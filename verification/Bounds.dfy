/**
 How long a run can be: transitions strictly decrease a measure when the spec
 bounds restarts, the number of transitions is then bounded, and otherwise it
 is not.
 */
module Bounds {
  import opened Options
  import opened Lifecycle
  import opened Protocol
  import opened Runs
  import opened Coherence

  /** The specs whose AppWrappers come to rest: failures are final, or the
      number of restarts is limited, or creation always fails for good. */
  predicate Terminating(spec: Spec) {
    spec.minAvailable < 0 || spec.maxRequeuings > 0 || !Parses(spec)
  }

  function RestartsLeft(spec: Spec, s: Status): int {
    if spec.minAvailable < 0 || !Parses(spec) then 0 else spec.maxRequeuings - s.restarts
  }

  function PhasesLeft(s: Status): int {
    7 - Rank(s.phase)
  }

  predicate Decreases(spec: Spec, s: Status, s': Status) {
    || RestartsLeft(spec, s') < RestartsLeft(spec, s)
    || (RestartsLeft(spec, s') == RestartsLeft(spec, s) && PhasesLeft(s') < PhasesLeft(s))
  }

  lemma {:induction false} SuccessorDecreases(spec: Spec, c: Controller, s: Status, s': Status)
    requires Terminating(spec) && Bounded(spec, s) && Successor(spec, c, s, s')
    ensures Decreases(spec, s, s')
  {
  }

  /** Every committed transition decreases (restarts left, phases left)
      lexicographically, and both stay non-negative. */
  lemma {:induction false} MeasureDecreases(spec: Spec, w0: World, ls: seq<Label>, w: World, l: Label)
    requires Terminating(spec) && Initial(w0) && Run(spec, w0, ls, w) && Enabled(spec, w, l)
    ensures RestartsLeft(spec, Server(w).status) >= 0 && PhasesLeft(Server(w).status) >= 0
    ensures var w' := Exec(spec, w, l);
      |w'.hist| != |w.hist| ==> w'.versions != [] && Decreases(spec, Server(w).status, Server(w').status)
  {
    InitiallyCoherent(spec, w0);
    RunKeepsCoherent(spec, w0, ls, w);
    assert VersionOk(spec, w.hist, Server(w));
    if |Exec(spec, w, l).hist| != |w.hist| {
      GrowthIsACommit(spec, w, l);
      SuccessorDecreases(spec, l.c, Server(w).status, Server(Exec(spec, w, l)).status);
    }
  }

  /** The history grows only when a prepared status write is stored. */
  lemma {:induction false} GrowthIsACommit(spec: Spec, w: World, l: Label)
    requires Coherent(spec, w) && Enabled(spec, w, l) && |Exec(spec, w, l).hist| != |w.hist|
    ensures var w' := Exec(spec, w, l);
      && w'.versions != [] && l.Reply? && Get(w, l.c).flight.Calling? && Get(w, l.c).flight.request.Commit?
      && Get(w, l.c).flight.base + 1 == |w.versions|
      && Server(w').status == Get(w, l.c).flight.request.status
      && Successor(spec, l.c, Server(w).status, Server(w').status)
  {
    Frame(spec, w, l, Dispatcher);
  }

  /** With a limit M on restarts there are at most M restarts and 7M + 8
      transitions; without monitoring at most 6 transitions; and an AppWrapper
      whose templates do not all parse never restarts. */
  lemma {:induction false} BoundedRuns(spec: Spec, w0: World, ls: seq<Label>, w: World)
    requires Initial(w0) && Run(spec, w0, ls, w)
    ensures Coherent(spec, w)
    ensures var s := Server(w).status;
      && (spec.maxRequeuings > 0 ==> s.restarts <= spec.maxRequeuings && s.count <= 7 * spec.maxRequeuings + 8)
      && (spec.minAvailable < 0 ==> s.restarts == 0 && s.count <= 6)
      && (!Parses(spec) ==> s.restarts == 0 && s.count <= 7)
  {
    InitiallyCoherent(spec, w0);
    RunKeepsCoherent(spec, w0, ls, w);
    assert VersionOk(spec, w.hist, Server(w));
  }

  // ----- building runs -----

  /** Nobody is in the middle of anything and nobody has asked for deletion. */
  predicate Calm(spec: Spec, w: World) {
    && Coherent(spec, w)
    && w.disp.flight.Resting? && w.run.flight.Resting? && !Server(w).deleting
  }

  function PlanOf(spec: Spec, c: Controller, o: Object, base: nat, now: int, health: Health): Flight {
    if c == Dispatcher then DispatcherPlan(o, base, None, now, false).flight
    else RunnerPlan(spec, o, base, None, now, health).flight
  }

  /** c reads the current version. */
  lemma {:induction false} CatchUp(spec: Spec, w: World, c: Controller) returns (w': World)
    requires Coherent(spec, w)
    ensures Run(spec, w, [Advance(c, |w.versions| - 1)], w') && Coherent(spec, w')
    ensures w' == Put(w, c, Get(w, c).(view := |w.versions| - 1))
  {
    var l := Advance(c, |w.versions| - 1);
    w' := Exec(spec, w, l);
    StepKeepsCoherent(spec, w, l);
    RunOne(spec, w, l);
  }

  lemma {:induction false} FreshReadPasses(spec: Spec, w: World, c: Controller, now: int)
    requires Coherent(spec, w)
    ensures !StaleCheck(Get(w, c).cache, Server(w).status, now).1
  {
    assert VersionOk(spec, w.hist, Server(w));
  }

  /** c catches up with the server and starts a reconciliation. */
  lemma {:induction false} Start(spec: Spec, w: World, c: Controller, now: int, health: Health) returns (ls: seq<Label>, w': World)
    requires Calm(spec, w) && w.clock <= now
    ensures Run(spec, w, ls, w') && Coherent(spec, w')
    ensures w'.versions == w.versions && w'.hist == w.hist && w'.gone == w.gone && w'.resources == w.resources && w'.clock == now
    ensures Get(w', c).view == |w.versions| - 1
    ensures Get(w', c).flight == PlanOf(spec, c, Server(w), |w.versions| - 1, now, health)
    ensures forall d :: d != c ==> Get(w', d) == Get(w, d)
    ensures ls == [Advance(c, |w.versions| - 1), Begin(c, now, false, health)]
  {
    var w1 := CatchUp(spec, w, c);
    w' := FreshStart(spec, w1, c, now, health);
    RunConcat(spec, w, [Advance(c, |w.versions| - 1)], w1, [Begin(c, now, false, health)], w');
    ls := [Advance(c, |w.versions| - 1)] + [Begin(c, now, false, health)];
  }

  /** A reconciliation that starts from the current version. */
  lemma {:induction false} FreshStart(spec: Spec, w: World, c: Controller, now: int, health: Health) returns (w': World)
    requires Coherent(spec, w) && w.clock <= now && Get(w, c).flight.Resting? && Get(w, c).view == |w.versions| - 1
    ensures Run(spec, w, [Begin(c, now, false, health)], w') && Coherent(spec, w')
    ensures w'.versions == w.versions && w'.hist == w.hist && w'.gone == w.gone && w'.resources == w.resources && w'.clock == now
    ensures Get(w', c).view == Get(w, c).view
    ensures Get(w', c).flight == PlanOf(spec, c, Server(w), |w.versions| - 1, now, health)
    ensures forall d :: d != c ==> Get(w', d) == Get(w, d)
  {
    var l := Begin(c, now, false, health);
    FreshReadPasses(spec, w, c, now);
    w' := Exec(spec, w, l);
    RunOne(spec, w, l);
    StepKeepsCoherent(spec, w, l);
  }

  /** A prepared status write goes through. */
  lemma {:induction false} Finish(spec: Spec, w: World, c: Controller, now: int) returns (w': World)
    requires Coherent(spec, w) && w.clock <= now && !Server(w).deleting
    requires Get(w, c).flight.Calling? && Get(w, c).flight.request.Commit? && Get(w, c).flight.rest == 0
    requires Get(w, c).flight.base + 1 == |w.versions|
    requires forall d :: d != c ==> Get(w, d).flight.Resting?
    ensures Run(spec, w, [Reply(c, Ok, now)], w') && Calm(spec, w')
    ensures Server(w').status == Get(w, c).flight.request.status
    ensures w'.hist == w.hist + [Transition(LastTime(Server(w').status), c, Server(w').status.phase)]
    ensures w'.resources == w.resources && w'.clock == now
  {
    var l := Reply(c, Ok, now);
    assert Enabled(spec, w, l);
    w' := Exec(spec, w, l);
    StepKeepsCoherent(spec, w, l);
    RunOne(spec, w, l);
    assert Get(w, Dispatcher) == w.disp && Get(w, Runner) == w.run;
  }

  /** A run followed by a status write that goes through. */
  lemma {:induction false} Conclude(spec: Spec, w0: World, ls0: seq<Label>, w: World, c: Controller, now: int) returns (ls: seq<Label>, w': World)
    requires Run(spec, w0, ls0, w) && Coherent(spec, w) && w.clock <= now && !Server(w).deleting
    requires Get(w, c).flight.Calling? && Get(w, c).flight.request.Commit? && Get(w, c).flight.rest == 0
    requires Get(w, c).flight.base + 1 == |w.versions|
    requires forall d :: d != c ==> Get(w, d).flight.Resting?
    ensures Run(spec, w0, ls, w') && Calm(spec, w')
    ensures Server(w').status == Get(w, c).flight.request.status
    ensures w'.hist == w.hist + [Transition(LastTime(Server(w').status), c, Server(w').status.phase)]
    ensures w'.resources == w.resources && w'.clock == now && ls == ls0 + [Reply(c, Ok, now)]
  {
    w' := Finish(spec, w, c, now);
    RunConcat(spec, w0, ls0, w, [Reply(c, Ok, now)], w');
    ls := ls0 + [Reply(c, Ok, now)];
  }

  /** c moves the AppWrapper on by one transition. */
  lemma {:induction false} Move(spec: Spec, w: World, c: Controller, now: int, health: Health) returns (ls: seq<Label>, w': World)
    requires Calm(spec, w) && w.clock <= now
    requires var f := PlanOf(spec, c, Server(w), |w.versions| - 1, now, health); f.Calling? && f.request.Commit?
    ensures Run(spec, w, ls, w') && Calm(spec, w')
    ensures Server(w').status == PlanOf(spec, c, Server(w), |w.versions| - 1, now, health).request.status
    ensures w'.hist == w.hist + [Transition(LastTime(Server(w').status), c, Server(w').status.phase)]
    ensures w'.resources == w.resources && w'.clock == now
    ensures ls == [Advance(c, |w.versions| - 1), Begin(c, now, false, health), Reply(c, Ok, now)]
  {
    var ls1, w1 := Start(spec, w, c, now, health);
    PlanIsSimple(spec, c, Server(w), |w.versions| - 1, now, health);
    ls, w' := MoveOn(spec, w, ls1, w1, c, now, PlanOf(spec, c, Server(w), |w.versions| - 1, now, health));
  }

  lemma {:induction false} MoveOn(spec: Spec, w0: World, ls0: seq<Label>, w: World, c: Controller, now: int, f: Flight) returns (ls: seq<Label>, w': World)
    requires Calm(spec, w0) && Run(spec, w0, ls0, w) && Coherent(spec, w)
    requires w.versions == w0.versions && w.clock == now && Get(w, c).flight == f
    requires f.Calling? && f.request.Commit? && f.base + 1 == |w.versions| && f.rest == 0
    requires forall d :: d != c ==> Get(w, d) == Get(w0, d)
    ensures Run(spec, w0, ls, w') && Calm(spec, w')
    ensures Server(w').status == f.request.status && w'.resources == w.resources && w'.clock == now
    ensures w'.hist == w.hist + [Transition(LastTime(Server(w').status), c, Server(w').status.phase)]
    ensures ls == ls0 + [Reply(c, Ok, now)]
  {
    ls, w' := Conclude(spec, w0, ls0, w, c, now);
  }

  lemma {:induction false} PlanIsSimple(spec: Spec, c: Controller, o: Object, base: nat, now: int, health: Health)
    ensures var f := PlanOf(spec, c, o, base, now, health); f.Calling? ==> f.base == base && f.rest == 0
  {
  }

  /** A dispatch cycle lists the AppWrapper and passes the staleness check. */
  lemma {:induction false} Select(spec: Spec, w: World, now: int) returns (ls: seq<Label>, w': World)
    requires Coherent(spec, w) && w.disp.flight.Resting? && w.clock <= now
    requires Server(w).status.phase == Phase(Queued, Idle) && now > Server(w).status.requeueTime + spec.pause
    ensures Run(spec, w, ls, w') && Coherent(spec, w')
    ensures w'.versions == w.versions && w'.hist == w.hist && w'.resources == w.resources && w'.clock == now && w'.run == w.run
    ensures w'.disp.flight == Calling(|w.versions| - 1, Commit(NextStatus(Dispatcher, Server(w).status, Phase(Running, Dispatching), now)), 0, now)
    ensures ls == [Advance(Dispatcher, |w.versions| - 1), List(now, 0), Check(now)]
  {
    var w1 := CatchUp(spec, w, Dispatcher);
    var w2 := FreshListing(spec, w1, now);
    RunConcat(spec, w, [Advance(Dispatcher, |w.versions| - 1)], w1, [List(now, 0)], w2);
    w' := FreshCheck(spec, w2, now);
    RunConcat(spec, w, [Advance(Dispatcher, |w.versions| - 1)] + [List(now, 0)], w2, [Check(now)], w');
    ls := [Advance(Dispatcher, |w.versions| - 1)] + [List(now, 0)] + [Check(now)];
  }

  lemma {:induction false} FreshListing(spec: Spec, w: World, now: int) returns (w': World)
    requires Coherent(spec, w) && w.disp.flight.Resting? && w.clock <= now && w.disp.view == |w.versions| - 1
    requires Server(w).status.phase == Phase(Queued, Idle) && now > Server(w).status.requeueTime + spec.pause
    ensures Run(spec, w, [List(now, 0)], w') && Coherent(spec, w')
    ensures w' == w.(disp := w.disp.(flight := Selected(|w.versions| - 1, 0, now)), clock := now)
  {
    assert VersionOk(spec, w.hist, Server(w));
    w' := Exec(spec, w, List(now, 0));
    StepKeepsCoherent(spec, w, List(now, 0));
    RunOne(spec, w, List(now, 0));
  }

  lemma {:induction false} FreshCheck(spec: Spec, w: World, now: int) returns (w': World)
    requires Coherent(spec, w) && w.clock <= now && w.disp.flight == Selected(|w.versions| - 1, 0, now)
    requires Server(w).status.phase == Phase(Queued, Idle)
    ensures Run(spec, w, [Check(now)], w') && Coherent(spec, w')
    ensures w'.versions == w.versions && w'.hist == w.hist && w'.gone == w.gone && w'.resources == w.resources && w'.clock == now && w'.run == w.run
    ensures w'.disp.flight == Calling(|w.versions| - 1, Commit(NextStatus(Dispatcher, Server(w).status, Phase(Running, Dispatching), now)), 0, now)
  {
    FreshReadPasses(spec, w, Dispatcher, now);
    w' := Exec(spec, w, Check(now));
    StepKeepsCoherent(spec, w, Check(now));
    RunOne(spec, w, Check(now));
  }

  /** And dispatches it. */
  lemma {:induction false} Dispatch(spec: Spec, w: World, now: int) returns (ls: seq<Label>, w': World)
    requires Calm(spec, w) && w.clock <= now
    requires Server(w).status.phase == Phase(Queued, Idle) && now > Server(w).status.requeueTime + spec.pause
    ensures Run(spec, w, ls, w') && Calm(spec, w')
    ensures Server(w').status == NextStatus(Dispatcher, Server(w).status, Phase(Running, Dispatching), now)
    ensures w'.hist == w.hist + [Transition(LastTime(Server(w').status), Dispatcher, Server(w').status.phase)]
    ensures w'.resources == w.resources && w'.clock == now
    ensures ls == [Advance(Dispatcher, |w.versions| - 1), List(now, 0), Check(now), Reply(Dispatcher, Ok, now)]
  {
    var ls1, w1 := Select(spec, w, now);
    ls, w' := Conclude(spec, w, ls1, w1, Dispatcher, now);
  }

  /** The deletion of an item whose object exists fails, and that of any other
      item finds nothing. */
  function Fruitless(spec: Spec, w: World): Removed
    requires w.run.flight.Clearing? && w.run.flight.next < |spec.items|
  {
    var item := spec.items[w.run.flight.next];
    if item.Some? && item.value in w.resources then DeleteError else NotFound
  }

  /** The deletions of a pass, all of them fruitless. */
  lemma {:induction false} Sweep(spec: Spec, w: World) returns (ls: seq<Label>, w': World)
    requires Coherent(spec, w) && w.run.flight.Clearing? && w.run.flight.remaining == 0
    ensures Run(spec, w, ls, w')
    ensures w' == w.(run := w.run.(flight := Clearing(w.run.flight.base, |spec.items|, 0)))
    decreases |spec.items| - w.run.flight.next
  {
    if w.run.flight.next == |spec.items| {
      ls, w' := [], w;
    } else {
      var l := DeleteItem(Fruitless(spec, w));
      StepKeepsCoherent(spec, w, l);
      ls, w' := Sweep(spec, Exec(spec, w, l));
      RunOne(spec, w, l);
      RunConcat(spec, w, [l], Exec(spec, w, l), ls, w');
      ls := [l] + ls;
    }
  }

  /** Such a pass counts as complete. */
  lemma {:induction false} EmptyPass(spec: Spec, w: World) returns (ls: seq<Label>, w': World)
    requires Coherent(spec, w) && w.run.flight.Clearing? && w.run.flight.remaining == 0
    requires !w.versions[w.run.flight.base].deleting
    ensures Run(spec, w, ls, w') && Coherent(spec, w')
    ensures var s := w.versions[w.run.flight.base].status;
      w' == w.(run := w.run.(flight := CommitTo(Runner, w.run.flight.base, s, Phase(s.phase.state, Deleted), w.clock)))
  {
    var ls1, w1 := Sweep(spec, w);
    RunKeepsCoherent(spec, w, ls1, w1);
    var l2 := EndDelete(0, w.clock);
    w' := Exec(spec, w1, l2);
    StepKeepsCoherent(spec, w1, l2);
    RunSnoc(spec, w, ls1, w1, l2);
    ls := ls1 + [l2];
  }

  /** The Runner deletes nothing and moves on. */
  lemma {:induction false} Clear(spec: Spec, w: World, now: int) returns (ls: seq<Label>, w': World)
    requires Calm(spec, w) && w.clock <= now && Server(w).status.phase == Phase(Running, Deleting)
    ensures Run(spec, w, ls, w') && Calm(spec, w')
    ensures Server(w').status == NextStatus(Runner, Server(w).status, Phase(Running, Deleted), now)
    ensures w'.resources == w.resources && w'.clock == now
  {
    var ls1, w1 := Start(spec, w, Runner, now, CountError);
    assert Get(w1, Dispatcher) == Get(w, Dispatcher);
    var ls2, w2 := EmptyPass(spec, w1);
    RunConcat(spec, w, ls1, w1, ls2, w2);
    ls, w' := Conclude(spec, w, ls1 + ls2, w2, Runner, now);
  }

  /** A creation fails, with or without taking effect. */
  lemma {:induction false} CreationFails(spec: Spec, w: World, created: Created, now: int) returns (w': World)
    requires Coherent(spec, w) && w.clock <= now && w.run.flight.Building?
    requires created == NotMade(false) || created == MadeButFailed(false)
    ensures Run(spec, w, [CreateItem(created, now)], w') && Coherent(spec, w')
    ensures var f := w.run.flight;
      w' == w.(
        resources := if created.NotMade? then w.resources else w.resources + {spec.items[f.next].value},
        run := w.run.(flight := Fallback(spec, w.versions[f.base].status, f.base, false, now)),
        clock := now)
  {
    var l := CreateItem(created, now);
    w' := Exec(spec, w, l);
    StepKeepsCoherent(spec, w, l);
    RunOne(spec, w, l);
  }

  /** The first creation fails for a reason that is not fatal. */
  lemma {:induction false} FailToCreate(spec: Spec, w: World, now: int) returns (ls: seq<Label>, w': World)
    requires Calm(spec, w) && w.clock <= now && Server(w).status.phase == Phase(Running, Creating)
    requires Parses(spec) && spec.items != []
    ensures Run(spec, w, ls, w') && Calm(spec, w')
    ensures Server(w').status == RequeueOrFail(spec, Server(w).status, false, now)
    ensures w'.resources == w.resources && w'.clock == now
  {
    ls, w' := FailFirst(spec, w, NotMade(false), now);
  }

  /** The first creation fails, with or without taking effect, and the Runner
      falls back. */
  lemma {:induction false} FailFirst(spec: Spec, w: World, created: Created, now: int) returns (ls: seq<Label>, w': World)
    requires Calm(spec, w) && w.clock <= now && Server(w).status.phase == Phase(Running, Creating)
    requires Parses(spec) && spec.items != []
    requires created == NotMade(false) || created == MadeButFailed(false)
    ensures Run(spec, w, ls, w') && Calm(spec, w')
    ensures Server(w').status == RequeueOrFail(spec, Server(w).status, false, now)
    ensures w'.resources == (if created.NotMade? then w.resources else w.resources + {spec.items[0].value}) && w'.clock == now
  {
    var ls1, w1 := FirstFails(spec, w, created, now);
    ls, w' := MoveOn(spec, w, ls1, w1, Runner, now, w1.run.flight);
  }

  lemma {:induction false} FirstFails(spec: Spec, w: World, created: Created, now: int) returns (ls: seq<Label>, w': World)
    requires Calm(spec, w) && w.clock <= now && Server(w).status.phase == Phase(Running, Creating)
    requires Parses(spec) && spec.items != []
    requires created == NotMade(false) || created == MadeButFailed(false)
    ensures Run(spec, w, ls, w') && Coherent(spec, w') && w'.disp == w.disp && w'.versions == w.versions && w'.clock == now
    ensures w'.resources == if created.NotMade? then w.resources else w.resources + {spec.items[0].value}
    ensures w'.run.flight == Calling(|w.versions| - 1, Commit(RequeueOrFail(spec, Server(w).status, false, now)), 0, now)
  {
    var ls1, w1 := StartToCreate(spec, w, now);
    w' := CreationFails(spec, w1, created, now);
    RunConcat(spec, w, ls1, w1, [CreateItem(created, now)], w');
    ls := ls1 + [CreateItem(created, now)];
  }

  lemma {:induction false} StartToCreate(spec: Spec, w: World, now: int) returns (ls: seq<Label>, w': World)
    requires Calm(spec, w) && w.clock <= now && Server(w).status.phase == Phase(Running, Creating)
    requires Parses(spec) && spec.items != []
    ensures Run(spec, w, ls, w') && Coherent(spec, w') && w'.disp == w.disp
    ensures w'.versions == w.versions && w'.gone == w.gone && w'.resources == w.resources && w'.clock == now
    ensures w'.run.flight == Building(|w.versions| - 1, 0)
  {
    ls, w' := Start(spec, w, Runner, now, CountError);
    assert Get(w', Dispatcher) == Get(w, Dispatcher);
  }

  /** From Running/Creating to Running/Deleting, by a failed creation or, if
      there is nothing to create, by missing pods. */
  lemma {:induction false} Retreat(spec: Spec, w: World, now: int) returns (ls: seq<Label>, w': World)
    requires !Terminating(spec)
    requires Calm(spec, w) && w.clock <= now && Server(w).status.phase == Phase(Running, Creating)
    requires now > Server(w).status.dispatchTime + spec.requeueAfter
    ensures Run(spec, w, ls, w') && Calm(spec, w')
    ensures Server(w').status.phase == Phase(Running, Deleting) && Server(w').status.count > Server(w).status.count
    ensures w'.resources == w.resources && w'.clock == now
  {
    if spec.items != [] {
      ls, w' := FailToCreate(spec, w, now);
    } else {
      var ls1, w1 := Move(spec, w, Runner, now, CountError);
      var ls2, w2 := Move(spec, w1, Runner, now, Health(false, 0));
      RunConcat(spec, w, ls1, w1, ls2, w2);
      ls, w' := ls1 + ls2, w2;
    }
  }

  function Later(w: World, t: int): int {
    if w.clock > t then w.clock else t + 1
  }

  /** From the queue to Running/Creating. */
  lemma {:induction false} Outward(spec: Spec, w: World) returns (ls: seq<Label>, w': World)
    requires Calm(spec, w) && Server(w).status.phase == Phase(Queued, Idle)
    ensures Run(spec, w, ls, w') && Calm(spec, w') && w'.resources == w.resources
    ensures Server(w').status.phase == Phase(Running, Creating) && Server(w').status.count > Server(w).status.count
    ensures Server(w').status.restarts == Server(w).status.restarts
  {
    var ls1, w1 := Dispatch(spec, w, Later(w, Server(w).status.requeueTime + spec.pause));
    var ls2, w2 := Move(spec, w1, Dispatcher, w1.clock, CountError);
    var ls3, w3 := Move(spec, w2, Runner, w2.clock, CountError);
    RunConcat(spec, w, ls1, w1, ls2, w2);
    RunConcat(spec, w, ls1 + ls2, w2, ls3, w3);
    ls, w' := ls1 + ls2 + ls3, w3;
  }

  /** From Running/Creating back to the queue. */
  lemma {:induction false} Homeward(spec: Spec, w: World) returns (ls: seq<Label>, w': World)
    requires !Terminating(spec)
    requires Calm(spec, w) && w.resources == {} && Server(w).status.phase == Phase(Running, Creating)
    ensures Run(spec, w, ls, w') && Calm(spec, w') && w'.resources == {}
    ensures Server(w').status.phase == Phase(Queued, Idle) && Server(w').status.count > Server(w).status.count
  {
    var ls1, w1 := Retreat(spec, w, Later(w, Server(w).status.dispatchTime + spec.requeueAfter));
    var ls2, w2 := Clear(spec, w1, w1.clock);
    var ls3, w3 := Move(spec, w2, Dispatcher, w2.clock, CountError);
    RunConcat(spec, w, ls1, w1, ls2, w2);
    RunConcat(spec, w, ls1 + ls2, w2, ls3, w3);
    ls, w' := ls1 + ls2 + ls3, w3;
  }

  /** A new AppWrapper gets its finalizers and enters the queue. */
  lemma {:induction false} Enqueue(spec: Spec, w: World) returns (ls: seq<Label>, w': World)
    requires Initial(w)
    ensures Run(spec, w, ls, w') && Calm(spec, w') && w'.resources == {}
    ensures Server(w').status.phase == Phase(Queued, Idle) && Server(w').status.restarts == 0
  {
    InitiallyCoherent(spec, w);
    var ls1, w1 := Start(spec, w, Dispatcher, w.clock, CountError);
    assert Get(w1, Runner) == Get(w, Runner);
    var l2 := Reply(Dispatcher, Ok, w.clock);
    var w2 := Exec(spec, w1, l2);
    StepKeepsCoherent(spec, w1, l2);
    RunSnoc(spec, w, ls1, w1, l2);
    ls, w' := Conclude(spec, w, ls1 + [l2], w2, Dispatcher, w.clock);
  }

  /** Terminating is exact: every other spec has runs with as many transitions
      as one likes. */
  lemma {:induction false} UnboundedOtherwise(spec: Spec, w0: World, n: nat) returns (ls: seq<Label>, w: World)
    requires !Terminating(spec) && Initial(w0)
    ensures Run(spec, w0, ls, w) && Calm(spec, w) && w.resources == {}
    ensures Server(w).status.phase == Phase(Queued, Idle) && Server(w).status.count >= n
  {
    if n == 0 {
      ls, w := Enqueue(spec, w0);
    } else {
      var ls1, w1 := UnboundedOtherwise(spec, w0, n - 1);
      var ls2, w2 := Outward(spec, w1);
      var ls3, w3 := Homeward(spec, w2);
      RunConcat(spec, w0, ls1, w1, ls2, w2);
      RunConcat(spec, w0, ls1 + ls2, w2, ls3, w3);
      ls, w := ls1 + ls2 + ls3, w3;
    }
  }
}
