/**
 Progress: where nothing goes wrong, the owner of a phase moves the AppWrapper on
 to the phase that the lifecycle prescribes, and stamps it as prescribed. The
 statements speak of stored statuses and of the history alone.
 */
module Progress {
  import opened Options
  import opened Lifecycle
  import opened Protocol
  import opened Runs
  import opened Coherence
  import opened Bounds

  /** The next phase of an AppWrapper for which nothing goes wrong. */
  function Onward(p: Phase): Phase {
    match p
    case Phase(Empty, _) => Phase(Queued, Idle)
    case Phase(Queued, _) => Phase(Running, Dispatching)
    case Phase(Running, Dispatching) => Phase(Running, Accepting)
    case Phase(Running, Accepting) => Phase(Running, Creating)
    case Phase(Running, Creating) => Phase(Running, Created)
    case Phase(Running, Created) => Phase(Succeeded, Idle)
    case Phase(Running, Deleting) => Phase(Running, Deleted)
    case Phase(Running, Deleted) => Phase(Queued, Idle)
    case Phase(Failed, Deleting) => Phase(Failed, Deleted)
    case Phase(Failed, Deleted) => Phase(Failed, Idle)
    case _ => p
  }

  /** A step of c with which nothing goes wrong. */
  predicate GoesWell(c: Controller, l: Label) {
    match l
    case Begin(d, _, _, health) => d == c && health == Health(true, 0)
    case List(_, _) => c == Dispatcher
    case Check(_) => c == Dispatcher
    case Reply(d, outcome, _) => d == c && outcome == Ok
    case CreateItem(created, _) => c == Runner && (created.Made? || created.AlreadyThere?)
    case DeleteItem(removed) => c == Runner && removed == NotFound
    case EndDelete(_, _) => c == Runner
    case Advance(d, _) => d == c
    case _ => false
  }

  predicate AllGoWell(c: Controller, ls: seq<Label>) {
    forall i {:trigger GoesWell(c, ls[i])} :: 0 <= i < |ls| ==> GoesWell(c, ls[i])
  }

  lemma {:induction false} GoingOnWell(c: Controller, a: seq<Label>, b: seq<Label>)
    requires AllGoWell(c, a) && AllGoWell(c, b)
    ensures AllGoWell(c, a + b)
  {
    forall i | 0 <= i < |a + b|
      ensures GoesWell(c, (a + b)[i])
    {
      if i < |a| { assert GoesWell(c, a[i]); } else { assert GoesWell(c, b[i - |a|]); }
    }
  }

  lemma {:induction false} WellConcat(spec: Spec, c: Controller, a: World, ls: seq<Label>, b: World, ls': seq<Label>, d: World)
    requires Run(spec, a, ls, b) && Run(spec, b, ls', d) && AllGoWell(c, ls) && AllGoWell(c, ls')
    ensures Run(spec, a, ls + ls', d) && AllGoWell(c, ls + ls')
  {
    RunConcat(spec, a, ls, b, ls', d);
    GoingOnWell(c, ls, ls');
  }

  /** One more transition, made now by c, to phase q. */
  predicate Moved(w: World, w': World, c: Controller, q: Phase, now: int)
    requires w.versions != [] && w'.versions != []
  {
    && w'.hist == w.hist + [Transition(now, c, q)]
    && Server(w').status.phase == q
    && Server(w').status.count == Server(w).status.count + 1
  }

  /** A restart is counted and timed when the AppWrapper goes back to the queue,
      and the dispatch is timed when the Runner accepts. */
  predicate Stamped(s: Status, s': Status, now: int) {
    && s'.restarts == s.restarts + (if s.phase == Phase(Running, Deleted) then 1 else 0)
    && s'.requeueTime == (if s.phase == Phase(Running, Deleted) then now else s.requeueTime)
    && s'.dispatchTime == (if s.phase == Phase(Running, Accepting) then now else s.dispatchTime)
  }

  /** No object of the AppWrapper exists. */
  predicate NothingLeft(spec: Spec, resources: set<string>) {
    forall i :: 0 <= i < |spec.items| && spec.items[i].Some? ==> spec.items[i].value !in resources
  }

  /** The objects of all items from the n-th on exist. */
  predicate ThereFrom(spec: Spec, resources: set<string>, n: nat) {
    forall i :: n <= i < |spec.items| ==> spec.items[i].Some? && spec.items[i].value in resources
  }

  predicate AllThere(spec: Spec, resources: set<string>) {
    ThereFrom(spec, resources, 0)
  }

  /** What the phase waits for: the pause in the queue, templates that parse
      before creation, and objects that are gone after deletion. */
  predicate Ready(spec: Spec, w: World, now: int)
    requires w.versions != []
  {
    var s := Server(w).status;
    && (s.phase == Phase(Queued, Idle) ==> now > s.requeueTime + spec.pause)
    && (s.phase == Phase(Running, Creating) ==> Parses(spec))
    && (s.phase.step == Deleting ==> NothingLeft(spec, w.resources))
  }

  /** A run followed by the last call. */
  lemma {:induction false} Concludes(spec: Spec, w0: World, ls0: seq<Label>, w: World, c: Controller, s: Status, now: int) returns (ls: seq<Label>, w': World)
    requires Calm(spec, w0) && Run(spec, w0, ls0, w) && Coherent(spec, w) && AllGoWell(c, ls0) && w.clock == now
    requires !Server(w).deleting && Get(w, c).flight == Calling(|w.versions| - 1, Commit(s), 0, now)
    requires if c == Dispatcher then w.run == w0.run else w.disp == w0.disp
    ensures Run(spec, w0, ls, w') && Calm(spec, w') && AllGoWell(c, ls) && w'.resources == w.resources
    ensures w'.hist == w.hist + [Transition(LastTime(s), c, s.phase)] && Server(w').status == s
  {
    ls, w' := Conclude(spec, w0, ls0, w, c, now);
    GoingOnWell(c, ls0, [Reply(c, Ok, now)]);
  }

  // ----- moves that take one call -----

  lemma {:induction false} MovesInOneCall(spec: Spec, w: World, now: int) returns (ls: seq<Label>, w': World)
    requires Calm(spec, w) && w.clock <= now
    requires var p := Server(w).status.phase;
      p == Phase(Running, Dispatching) || p == Phase(Running, Deleted) || p == Phase(Failed, Deleted) || p == Phase(Running, Accepting) || p == Phase(Running, Created)
    ensures Run(spec, w, ls, w') && Calm(spec, w') && w'.resources == w.resources
    ensures AllGoWell(Owner(Server(w).status.phase).value, ls)
    ensures Moved(w, w', Owner(Server(w).status.phase).value, Onward(Server(w).status.phase), now)
    ensures Stamped(Server(w).status, Server(w').status, now)
  {
    ls, w' := Move(spec, w, Owner(Server(w).status.phase).value, now, Health(true, 0));
  }

  // ----- the first move -----

  lemma {:induction false} EntersTheQueue(spec: Spec, w: World, now: int) returns (ls: seq<Label>, w': World)
    requires Calm(spec, w) && w.clock <= now && Server(w).status.phase == START
    ensures Run(spec, w, ls, w') && Calm(spec, w') && w'.resources == w.resources && AllGoWell(Dispatcher, ls)
    ensures Moved(w, w', Dispatcher, Phase(Queued, Idle), now)
    ensures Stamped(Server(w).status, Server(w').status, now)
    ensures Server(w').dispatchFinalizer && Server(w').runnerFinalizer
  {
    if Server(w).dispatchFinalizer && Server(w).runnerFinalizer {
      ls, w' := Move(spec, w, Dispatcher, now, Health(true, 0));
    } else {
      var ls1, w1 := GetsFinalizers(spec, w, now);
      ls, w' := Concludes(spec, w, ls1, w1, Dispatcher, NextStatus(Dispatcher, Server(w).status, Phase(Queued, Idle), now), now);
    }
    assert VersionOk(spec, w'.hist, Server(w'));
  }

  lemma {:induction false} GetsFinalizers(spec: Spec, w: World, now: int) returns (ls: seq<Label>, w': World)
    requires Calm(spec, w) && w.clock <= now && Server(w).status.phase == START
    requires !(Server(w).dispatchFinalizer && Server(w).runnerFinalizer)
    ensures Run(spec, w, ls, w') && Coherent(spec, w') && AllGoWell(Dispatcher, ls)
    ensures w'.hist == w.hist && w'.resources == w.resources && w'.run == w.run && w'.clock == now
    ensures w'.versions == w.versions + [Server(w).(dispatchFinalizer := true, runnerFinalizer := true)]
    ensures w'.disp.flight == Calling(|w.versions|, Commit(NextStatus(Dispatcher, Server(w).status, Phase(Queued, Idle), now)), 0, now)
  {
    var ls1, w1 := Start(spec, w, Dispatcher, now, Health(true, 0));
    assert Get(w1, Runner) == Get(w, Runner);
    w' := FinalizersAreStored(spec, w1, now);
    RunConcat(spec, w, ls1, w1, [Reply(Dispatcher, Ok, now)], w');
    ls := ls1 + [Reply(Dispatcher, Ok, now)];
  }

  lemma {:induction false} FinalizersAreStored(spec: Spec, w: World, now: int) returns (w': World)
    requires Coherent(spec, w) && w.clock <= now && !Server(w).deleting
    requires w.disp.flight.Calling? && w.disp.flight.request.AddFinalizers? && w.disp.flight.base + 1 == |w.versions|
    ensures Run(spec, w, [Reply(Dispatcher, Ok, now)], w') && Coherent(spec, w')
    ensures w'.hist == w.hist && w'.resources == w.resources && w'.run == w.run && w'.clock == now
    ensures w'.versions == w.versions + [Server(w).(dispatchFinalizer := true, runnerFinalizer := true)]
    ensures w'.disp.flight == Calling(|w.versions|, Commit(NextStatus(Dispatcher, Server(w).status, Phase(Queued, Idle), now)), 0, now)
  {
    var l := Reply(Dispatcher, Ok, now);
    w' := Exec(spec, w, l);
    StepKeepsCoherent(spec, w, l);
    RunOne(spec, w, l);
  }

  // ----- dispatch -----

  lemma {:induction false} IsDispatched(spec: Spec, w: World, now: int) returns (ls: seq<Label>, w': World)
    requires Calm(spec, w) && w.clock <= now
    requires Server(w).status.phase == Phase(Queued, Idle) && now > Server(w).status.requeueTime + spec.pause
    ensures Run(spec, w, ls, w') && Calm(spec, w') && w'.resources == w.resources && AllGoWell(Dispatcher, ls)
    ensures Moved(w, w', Dispatcher, Phase(Running, Dispatching), now)
    ensures Stamped(Server(w).status, Server(w').status, now)
  {
    ls, w' := Dispatch(spec, w, now);
  }

  // ----- creation -----

  /** The Runner is about to create item n, or to report that all are created. */
  predicate AtItem(spec: Spec, w: World, base: nat, s: Status, n: nat, now: int) {
    && w.clock == now && base < |w.versions| && w.versions[base].status == s
    && w.run.flight == if n < |spec.items| then Building(base, n) else CommitTo(Runner, base, s, Phase(Running, Created), now)
  }

  /** Creations, from item n on. */
  lemma {:induction false} CreateRest(spec: Spec, w: World, base: nat, s: Status, n: nat, now: int) returns (ls: seq<Label>, w': World)
    requires Coherent(spec, w) && AtItem(spec, w, base, s, n, now) && n <= |spec.items|
    ensures Run(spec, w, ls, w') && Coherent(spec, w') && AllGoWell(Runner, ls)
    ensures w'.versions == w.versions && w'.hist == w.hist && w'.disp == w.disp && w.resources <= w'.resources
    ensures AtItem(spec, w', base, s, |spec.items|, now) && ThereFrom(spec, w'.resources, n)
    decreases |spec.items| - n
  {
    if n == |spec.items| {
      ls, w' := [], w;
    } else {
      var l, w1 := CreateOne(spec, w, base, s, n, now);
      var ls1;
      ls1, w' := CreateRest(spec, w1, base, s, n + 1, now);
      WellConcat(spec, Runner, w, [l], w1, ls1, w');
      FromOneMore(spec, w'.resources, n);
      ls := [l] + ls1;
    }
  }

  lemma {:induction false} FromOneMore(spec: Spec, resources: set<string>, n: nat)
    requires n < |spec.items| && ThereFrom(spec, resources, n + 1) && spec.items[n].Some? && spec.items[n].value in resources
    ensures ThereFrom(spec, resources, n)
  {
  }

  lemma {:induction false} CreateOne(spec: Spec, w: World, base: nat, s: Status, n: nat, now: int) returns (l: Label, w': World)
    requires Coherent(spec, w) && AtItem(spec, w, base, s, n, now) && n < |spec.items|
    ensures Run(spec, w, [l], w') && Coherent(spec, w') && AllGoWell(Runner, [l])
    ensures w'.versions == w.versions && w'.hist == w.hist && w'.disp == w.disp && w.resources <= w'.resources
    ensures AtItem(spec, w', base, s, n + 1, now) && spec.items[n].Some? && spec.items[n].value in w'.resources
  {
    l := CreateItem(if spec.items[n].value in w.resources then AlreadyThere else Made, now);
    w' := Exec(spec, w, l);
    StepKeepsCoherent(spec, w, l);
    RunOne(spec, w, l);
    assert GoesWell(Runner, l);
  }

  lemma {:induction false} CreatesAll(spec: Spec, w: World, now: int) returns (ls: seq<Label>, w': World)
    requires Calm(spec, w) && w.clock <= now && Server(w).status.phase == Phase(Running, Creating) && Parses(spec)
    ensures Run(spec, w, ls, w') && Calm(spec, w') && AllGoWell(Runner, ls)
    ensures Moved(w, w', Runner, Phase(Running, Created), now)
    ensures Stamped(Server(w).status, Server(w').status, now)
    ensures w.resources <= w'.resources && AllThere(spec, w'.resources)
  {
    if spec.items == [] {
      ls, w' := Move(spec, w, Runner, now, Health(true, 0));
    } else {
      var ls1, w1 := CreatesUpToCall(spec, w, now);
      ls, w' := Concludes(spec, w, ls1, w1, Runner, NextStatus(Runner, Server(w).status, Phase(Running, Created), now), now);
    }
  }

  lemma {:induction false} CreatesUpToCall(spec: Spec, w: World, now: int) returns (ls: seq<Label>, w': World)
    requires Calm(spec, w) && w.clock <= now && Server(w).status.phase == Phase(Running, Creating) && Parses(spec) && spec.items != []
    ensures Run(spec, w, ls, w') && Coherent(spec, w') && AllGoWell(Runner, ls) && w'.disp == w.disp && w'.clock == now
    ensures w'.versions == w.versions && w'.hist == w.hist && w.resources <= w'.resources && AllThere(spec, w'.resources)
    ensures w'.run.flight == Calling(|w.versions| - 1, Commit(NextStatus(Runner, Server(w).status, Phase(Running, Created), now)), 0, now)
  {
    var ls1, w1 := BeginsToCreate(spec, w, now);
    var ls2;
    ls2, w' := CreateRest(spec, w1, |w.versions| - 1, Server(w).status, 0, now);
    WellConcat(spec, Runner, w, ls1, w1, ls2, w');
    ls := ls1 + ls2;
  }

  lemma {:induction false} BeginsToCreate(spec: Spec, w: World, now: int) returns (ls: seq<Label>, w': World)
    requires Calm(spec, w) && w.clock <= now && Server(w).status.phase == Phase(Running, Creating) && Parses(spec) && spec.items != []
    ensures Run(spec, w, ls, w') && Coherent(spec, w') && AllGoWell(Runner, ls) && w'.disp == w.disp && w'.clock == now
    ensures w'.versions == w.versions && w'.hist == w.hist && w'.resources == w.resources
    ensures w'.run.flight == Building(|w.versions| - 1, 0)
  {
    ls, w' := Start(spec, w, Runner, now, Health(true, 0));
    assert Get(w', Dispatcher) == Get(w, Dispatcher);
  }

  // ----- deletion -----

  /** A pass that finds nothing, from the next item on. */
  lemma {:induction false} SweepRest(spec: Spec, w: World) returns (ls: seq<Label>, w': World)
    requires Coherent(spec, w) && w.run.flight.Clearing? && NothingLeft(spec, w.resources)
    ensures Run(spec, w, ls, w') && Coherent(spec, w') && AllGoWell(Runner, ls)
    ensures w' == w.(run := w.run.(flight := w.run.flight.(next := |spec.items|)))
    decreases |spec.items| - w.run.flight.next
  {
    if w.run.flight.next == |spec.items| {
      ls, w' := [], w;
    } else {
      var l := DeleteItem(NotFound);
      var w1 := Exec(spec, w, l);
      StepKeepsCoherent(spec, w, l);
      RunOne(spec, w, l);
      var ls1;
      ls1, w' := SweepRest(spec, w1);
      WellConcat(spec, Runner, w, [l], w1, ls1, w');
      ls := [l] + ls1;
    }
  }

  /** The whole pass: the Runner then lets go of a marked AppWrapper, and moves
      on with any other. */
  lemma {:induction false} SweepsClean(spec: Spec, w: World) returns (ls: seq<Label>, w': World)
    requires Coherent(spec, w) && w.run.flight.Clearing? && w.run.flight.next == 0 && w.run.flight.remaining == 0
    requires NothingLeft(spec, w.resources)
    ensures Run(spec, w, ls, w') && Coherent(spec, w') && AllGoWell(Runner, ls)
    ensures var base := w.run.flight.base;
      var o := w.versions[base];
      w' == w.(run := w.run.(flight :=
        if o.deleting then Calling(base, RemoveFinalizer, 0, w.clock)
        else CommitTo(Runner, base, o.status, Phase(o.status.phase.state, Deleted), w.clock)))
  {
    var ls1, w1 := SweepRest(spec, w);
    var l := EndDelete(0, w.clock);
    w' := Exec(spec, w1, l);
    StepKeepsCoherent(spec, w1, l);
    RunSnoc(spec, w, ls1, w1, l);
    GoingOnWell(Runner, ls1, [l]);
    ls := ls1 + [l];
  }

  lemma {:induction false} Clears(spec: Spec, w: World, now: int) returns (ls: seq<Label>, w': World)
    requires Calm(spec, w) && w.clock <= now && NothingLeft(spec, w.resources)
    requires Server(w).status.phase == Phase(Running, Deleting) || Server(w).status.phase == Phase(Failed, Deleting)
    ensures Run(spec, w, ls, w') && Calm(spec, w') && w'.resources == w.resources && AllGoWell(Runner, ls)
    ensures Moved(w, w', Runner, Onward(Server(w).status.phase), now)
    ensures Stamped(Server(w).status, Server(w').status, now)
  {
    var ls1, w1 := ClearsUpToCall(spec, w, now);
    var s := Server(w).status;
    ls, w' := Concludes(spec, w, ls1, w1, Runner, NextStatus(Runner, s, Phase(s.phase.state, Deleted), now), now);
  }

  lemma {:induction false} ClearsUpToCall(spec: Spec, w: World, now: int) returns (ls: seq<Label>, w': World)
    requires Calm(spec, w) && w.clock <= now && NothingLeft(spec, w.resources)
    requires Server(w).status.phase == Phase(Running, Deleting) || Server(w).status.phase == Phase(Failed, Deleting)
    ensures Run(spec, w, ls, w') && Coherent(spec, w') && AllGoWell(Runner, ls) && w'.disp == w.disp && w'.clock == now
    ensures w'.versions == w.versions && w'.hist == w.hist && w'.resources == w.resources
    ensures var s := Server(w).status;
      w'.run.flight == Calling(|w.versions| - 1, Commit(NextStatus(Runner, s, Phase(s.phase.state, Deleted), now)), 0, now)
  {
    var ls1, w1 := BeginsToClear(spec, w, now);
    var ls2;
    ls2, w' := SweepsClean(spec, w1);
    WellConcat(spec, Runner, w, ls1, w1, ls2, w');
    ls := ls1 + ls2;
  }

  lemma {:induction false} BeginsToClear(spec: Spec, w: World, now: int) returns (ls: seq<Label>, w': World)
    requires Calm(spec, w) && w.clock <= now
    requires Server(w).status.phase == Phase(Running, Deleting) || Server(w).status.phase == Phase(Failed, Deleting)
    ensures Run(spec, w, ls, w') && Coherent(spec, w') && AllGoWell(Runner, ls) && w'.disp == w.disp && w'.clock == now
    ensures w'.versions == w.versions && w'.hist == w.hist && w'.resources == w.resources
    ensures w'.run.flight == Clearing(|w.versions| - 1, 0, 0)
  {
    ls, w' := Start(spec, w, Runner, now, Health(true, 0));
    assert Get(w', Dispatcher) == Get(w, Dispatcher);
  }

  // ----- theorems -----

  /** From every calm AppWrapper in an owned phase that is ready, steps of the
      owner with which nothing goes wrong add exactly one transition, to the
      prescribed phase, and stamp the status as prescribed. */
  lemma {:induction false} MovesOn(spec: Spec, w: World, now: int) returns (ls: seq<Label>, w': World)
    requires Calm(spec, w) && w.clock <= now && Owner(Server(w).status.phase).Some? && Ready(spec, w, now)
    ensures Run(spec, w, ls, w') && Calm(spec, w')
    ensures AllGoWell(Owner(Server(w).status.phase).value, ls)
    ensures Moved(w, w', Owner(Server(w).status.phase).value, Onward(Server(w).status.phase), now)
    ensures Stamped(Server(w).status, Server(w').status, now)
    ensures Server(w').status.phase == Phase(Running, Created) ==> AllThere(spec, w'.resources)
    ensures Server(w).status.phase == START ==> Server(w').dispatchFinalizer && Server(w').runnerFinalizer
  {
    var p := Server(w).status.phase;
    assert VersionOk(spec, w.hist, Server(w));
    if p == START {
      ls, w' := EntersTheQueue(spec, w, now);
    } else if p == Phase(Queued, Idle) {
      ls, w' := IsDispatched(spec, w, now);
    } else if p == Phase(Running, Creating) {
      ls, w' := CreatesAll(spec, w, now);
    } else if p.step == Deleting {
      ls, w' := Clears(spec, w, now);
    } else {
      ls, w' := MovesInOneCall(spec, w, now);
    }
  }

  // ----- where something goes wrong -----

  /** Where the Runner turns when a creation fails or pods are missing: nowhere
      if the spec forgoes monitoring, to a failure if the error is fatal or no
      restart is left, and otherwise back towards the queue. */
  predicate FallsBack(spec: Spec, s: Status, s': Status, fatal: bool, now: int) {
    && s'.count == s.count + 1 && s'.restarts == s.restarts && s'.dispatchTime == s.dispatchTime && LastTime(s') == now
    && (if spec.minAvailable < 0 then s'.phase == Phase(Failed, s.phase.step) && s'.requeueTime == s.requeueTime
        else
          && s'.requeueTime == now
          && s'.phase == Phase(if fatal || (spec.maxRequeuings > 0 && s.restarts >= spec.maxRequeuings) then Failed else Running, Deleting))
  }

  /** A creation that fails, whether it takes effect or not, ends the attempt;
      objects made so far stay for the deletion that follows. */
  lemma {:induction false} FailedCreationFallsBack(spec: Spec, w: World, created: Created, now: int) returns (ls: seq<Label>, w': World)
    requires Coherent(spec, w) && w.clock <= now && !Server(w).deleting && w.disp.flight.Resting?
    requires w.run.flight.Building? && w.run.flight.base + 1 == |w.versions|
    requires created.NotMade? || created.MadeButFailed?
    ensures ls == [CreateItem(created, now), Reply(Runner, Ok, now)] && Run(spec, w, ls, w') && Calm(spec, w')
    ensures |w'.hist| == |w.hist| + 1 && FallsBack(spec, Server(w).status, Server(w').status, created.fatal, now)
    ensures w'.resources == if created.NotMade? then w.resources else w.resources + {spec.items[w.run.flight.next].value}
  {
    var l := CreateItem(created, now);
    var w1 := CreationEnds(spec, w, created, now);
    w' := Finish(spec, w1, Runner, now);
    RunConcat(spec, w, [l], w1, [Reply(Runner, Ok, now)], w');
    ls := [l] + [Reply(Runner, Ok, now)];
    FallbackFallsBack(spec, Server(w).status, created.fatal, now);
  }

  lemma {:induction false} CreationEnds(spec: Spec, w: World, created: Created, now: int) returns (w': World)
    requires Coherent(spec, w) && w.clock <= now && w.run.flight.Building? && w.run.flight.base + 1 == |w.versions|
    requires created.NotMade? || created.MadeButFailed?
    ensures Run(spec, w, [CreateItem(created, now)], w') && Coherent(spec, w')
    ensures w'.versions == w.versions && w'.hist == w.hist && w'.disp == w.disp && w'.clock == now
    ensures w'.resources == if created.NotMade? then w.resources else w.resources + {spec.items[w.run.flight.next].value}
    ensures w'.run.flight == Calling(|w.versions| - 1, Commit(RequeueOrFail(spec, Server(w).status, created.fatal, now)), 0, now)
  {
    var l := CreateItem(created, now);
    w' := Exec(spec, w, l);
    StepKeepsCoherent(spec, w, l);
    RunOne(spec, w, l);
  }

  lemma {:induction false} FallbackFallsBack(spec: Spec, s: Status, fatal: bool, now: int)
    ensures FallsBack(spec, s, RequeueOrFail(spec, s, fatal, now), fatal, now)
  {
  }

  /** Templates that do not parse are fatal before anything is created. */
  lemma {:induction false} UnparsableFallsBack(spec: Spec, w: World, now: int) returns (ls: seq<Label>, w': World)
    requires Calm(spec, w) && w.clock <= now && Server(w).status.phase == Phase(Running, Creating) && !Parses(spec)
    ensures Run(spec, w, ls, w') && Calm(spec, w') && AllGoWell(Runner, ls) && w'.resources == w.resources
    ensures |w'.hist| == |w.hist| + 1 && FallsBack(spec, Server(w).status, Server(w').status, true, now)
  {
    ls, w' := Move(spec, w, Runner, now, Health(true, 0));
    FallbackFallsBack(spec, Server(w).status, true, now);
  }

  /** The verdict of a health check that makes the Runner give up. */
  predicate Ailing(spec: Spec, s: Status, health: Health, now: int) {
    && health.Health? && !health.success
    && now > s.dispatchTime + spec.requeueAfter
    && health.pods < if spec.minAvailable == 0 then 1 else spec.minAvailable
  }

  /** After the grace period, missing pods make a running AppWrapper fall back. */
  lemma {:induction false} MissingPodsFallBack(spec: Spec, w: World, health: Health, now: int) returns (ls: seq<Label>, w': World)
    requires Calm(spec, w) && w.clock <= now && Server(w).status.phase == Phase(Running, Created)
    requires Ailing(spec, Server(w).status, health, now)
    ensures ls == [Advance(Runner, |w.versions| - 1), Begin(Runner, now, false, health), Reply(Runner, Ok, now)]
    ensures Run(spec, w, ls, w') && Calm(spec, w') && w'.resources == w.resources
    ensures |w'.hist| == |w.hist| + 1 && FallsBack(spec, Server(w).status, Server(w').status, false, now)
  {
    ls, w' := Move(spec, w, Runner, now, health);
    FallbackFallsBack(spec, Server(w).status, false, now);
  }

  /** A healthy AppWrapper, or one whose pods cannot be counted, is left alone. */
  lemma {:induction false} HealthyIsLeftAlone(spec: Spec, w: World, health: Health, now: int) returns (ls: seq<Label>, w': World)
    requires Calm(spec, w) && w.clock <= now && Server(w).status.phase == Phase(Running, Created)
    requires !(health.Health? && health.success) && !Ailing(spec, Server(w).status, health, now)
    ensures ls == [Advance(Runner, |w.versions| - 1), Begin(Runner, now, false, health)]
    ensures Run(spec, w, ls, w') && Calm(spec, w') && w'.versions == w.versions && w'.resources == w.resources
  {
    ls, w' := Start(spec, w, Runner, now, health);
    assert Get(w', Dispatcher) == Get(w, Dispatcher);
  }

  /** A queued AppWrapper with a decision that waits gets its condition written;
      without one nothing happens to it. */
  lemma {:induction false} DecisionsAreWritten(spec: Spec, w: World, decided: bool, now: int)
    requires Calm(spec, w) && w.clock <= now && Server(w).status.phase == Phase(Queued, Idle) && w.disp.view == |w.versions| - 1
    ensures var w1 := Exec(spec, w, Begin(Dispatcher, now, decided, CountError));
      if decided then
        && Enabled(spec, w1, Reply(Dispatcher, Ok, now))
        && var w2 := Exec(spec, w1, Reply(Dispatcher, Ok, now));
           w2.versions == w.versions + [Server(w)] && w2.hist == w.hist && w2.disp.flight.Resting?
      else w1.versions == w.versions && w1.disp.flight.Resting?
  {
    FreshReadPasses(spec, w, Dispatcher, now);
  }

  // ----- an AppWrapper marked for deletion -----

  /** The Runner lets go once nothing is left. */
  lemma {:induction false} RunnerLetsGo(spec: Spec, w: World, now: int) returns (ls: seq<Label>, w': World)
    requires Coherent(spec, w) && w.clock <= now && !w.gone && Server(w).deleting && Server(w).runnerFinalizer
    requires w.run.flight.Resting? && w.run.view == |w.versions| - 1 && NothingLeft(spec, w.resources)
    ensures Run(spec, w, ls, w') && Coherent(spec, w') && AllGoWell(Runner, ls)
    ensures w'.versions == w.versions + [Server(w).(runnerFinalizer := false)]
    ensures w'.disp == w.disp && w'.hist == w.hist && w'.resources == w.resources && w'.clock == now
    ensures w'.run.flight.Resting? && w'.run.cache.None?
  {
    var l := Begin(Runner, now, false, Health(true, 0));
    var w1 := FreshStart(spec, w, Runner, now, Health(true, 0));
    assert Get(w1, Dispatcher) == Get(w, Dispatcher);
    assert w1.run.flight == Clearing(|w.versions| - 1, 0, 0);
    var ls2, w2 := SweepsClean(spec, w1);
    WellConcat(spec, Runner, w, [l], w1, ls2, w2);
    w' := FinalizerIsRemoved(spec, w2, Runner, now);
    RunConcat(spec, w, [l] + ls2, w2, [Reply(Runner, Ok, now)], w');
    GoingOnWell(Runner, [l] + ls2, [Reply(Runner, Ok, now)]);
    ls := [l] + ls2 + [Reply(Runner, Ok, now)];
  }

  lemma {:induction false} FinalizerIsRemoved(spec: Spec, w: World, c: Controller, now: int) returns (w': World)
    requires Coherent(spec, w) && w.clock <= now && !w.gone
    requires Get(w, c).flight == Calling(|w.versions| - 1, RemoveFinalizer, 0, now)
    ensures Run(spec, w, [Reply(c, Ok, now)], w') && Coherent(spec, w')
    ensures w'.versions == w.versions + [if c == Dispatcher then Server(w).(dispatchFinalizer := false) else Server(w).(runnerFinalizer := false)]
    ensures w'.hist == w.hist && w'.resources == w.resources && w'.clock == now
    ensures Get(w', c).flight.Resting? && Get(w', c).cache.None?
    ensures forall d :: d != c ==> Get(w', d) == Get(w, d)
  {
    var l := Reply(c, Ok, now);
    w' := Exec(spec, w, l);
    StepKeepsCoherent(spec, w, l);
    RunOne(spec, w, l);
  }

  /** The dispatcher lets go once the Runner has. */
  lemma {:induction false} DispatcherLetsGo(spec: Spec, w: World, now: int) returns (ls: seq<Label>, w': World)
    requires Coherent(spec, w) && w.clock <= now && !w.gone
    requires Server(w).deleting && !Server(w).runnerFinalizer && Server(w).dispatchFinalizer
    requires w.disp.flight.Resting?
    ensures Run(spec, w, ls, w') && AllGoWell(Dispatcher, ls)
    ensures w'.gone && w'.hist == w.hist && w'.resources == w.resources && w'.disp.cache.None? && w'.run == w.run
  {
    var w0 := CatchUp(spec, w, Dispatcher);
    var w1 := DispatcherTurnsTo(spec, w0, now);
    RunConcat(spec, w, [Advance(Dispatcher, |w.versions| - 1)], w0, [Begin(Dispatcher, now, false, Health(true, 0))], w1);
    w' := FinalizerIsRemoved(spec, w1, Dispatcher, now);
    assert Get(w', Runner) == Get(w1, Runner);
    ls := [Advance(Dispatcher, |w.versions| - 1)] + [Begin(Dispatcher, now, false, Health(true, 0))];
    RunConcat(spec, w, ls, w1, [Reply(Dispatcher, Ok, now)], w');
    GoingOnWell(Dispatcher, ls, [Reply(Dispatcher, Ok, now)]);
    ls := ls + [Reply(Dispatcher, Ok, now)];
  }

  lemma {:induction false} DispatcherTurnsTo(spec: Spec, w: World, now: int) returns (w': World)
    requires Coherent(spec, w) && w.clock <= now && w.disp.flight.Resting? && w.disp.view == |w.versions| - 1
    requires Server(w).deleting && !Server(w).runnerFinalizer && Server(w).dispatchFinalizer
    ensures Run(spec, w, [Begin(Dispatcher, now, false, Health(true, 0))], w') && Coherent(spec, w')
    ensures w'.versions == w.versions && w'.hist == w.hist && w'.gone == w.gone && w'.resources == w.resources && w'.run == w.run && w'.clock == now
    ensures w'.disp.flight == Calling(|w.versions| - 1, RemoveFinalizer, 0, now)
  {
    w' := FreshStart(spec, w, Dispatcher, now, Health(true, 0));
    assert Get(w', Runner) == Get(w, Runner);
  }

  /** An AppWrapper that is marked for deletion and has nothing left leaves the
      server: the Runner lets go first, then the dispatcher, both forget it, and
      no transition is made. */
  lemma {:induction false} MarkedLeaves(spec: Spec, w: World, now: int)
    returns (runner: seq<Label>, w1: World, dispatcher: seq<Label>, w': World)
    requires Coherent(spec, w) && w.clock <= now && !w.gone && Server(w).deleting && NothingLeft(spec, w.resources)
    requires Server(w).runnerFinalizer && Server(w).dispatchFinalizer
    requires w.disp.flight.Resting? && w.run.flight.Resting? && w.run.view == |w.versions| - 1
    ensures Run(spec, w, runner, w1) && AllGoWell(Runner, runner) && !w1.gone && w1.versions == w.versions + [Server(w).(runnerFinalizer := false)] && w1.run.cache.None?
    ensures Run(spec, w1, dispatcher, w') && AllGoWell(Dispatcher, dispatcher) && w'.gone && w'.disp.cache.None?
    ensures w'.hist == w.hist && w'.resources == w.resources
  {
    runner, w1 := RunnerLetsGo(spec, w, now);
    dispatcher, w' := DispatcherLetsGo(spec, w1, now);
  }

  /** A controller that finds its finalizer gone from a marked AppWrapper forgets
      the AppWrapper and does nothing else. */
  lemma {:induction false} ReleasedIsForgotten(spec: Spec, w: World, c: Controller, health: Health, now: int) returns (w': World)
    requires Coherent(spec, w) && w.clock <= now && Get(w, c).flight.Resting? && Get(w, c).view == |w.versions| - 1
    requires Server(w).deleting && !Server(w).runnerFinalizer && (c == Dispatcher ==> !Server(w).dispatchFinalizer)
    ensures Run(spec, w, [Begin(c, now, false, health)], w')
    ensures Get(w', c).cache.None? && Get(w', c).flight.Resting? && w'.versions == w.versions && w'.resources == w.resources
  {
    FreshReadPasses(spec, w, c, now);
    w' := Exec(spec, w, Begin(c, now, false, health));
    RunOne(spec, w, Begin(c, now, false, health));
  }
}
