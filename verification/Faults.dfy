/**
 The hypotheses of the ownership and resource theorems are needed: the excluded
 faults are exactly the steps that break ownership, and every spec that lets a
 resource be created can leak it when a deletion fails.
 */
module Faults {
  import opened Options
  import opened Lifecycle
  import opened Protocol
  import opened Runs
  import opened Coherence
  import opened Ownership
  import opened Bounds

  /** c passes its staleness check in a phase it owns, but the server has moved
      on. */
  predicate ActsOnOldPhase(w: World, c: Controller, now: int) {
    && w.versions != [] && Get(w, c).flight.Resting? && Get(w, c).view < |w.versions|
    && var s := w.versions[Get(w, c).view].status;
       && Owner(s.phase) == Some(c)
       && !StaleCheck(Get(w, c).cache, s, now).1
       && s.count < Server(w).status.count
  }

  // ----- exactly the unfaithful steps break ownership -----

  /** An entry that is ahead of the informer stems from a move of c's own. */
  predicate OwnEntry(versions: seq<Object>, hist: seq<Transition>, c: Controller, ctl: Ctl) {
    ctl.cache.Some? && ctl.view < |versions| && ctl.cache.value.count > versions[ctl.view].status.count ==>
      0 < ctl.cache.value.count <= |hist| && Owner(PhaseAt(hist, ctl.cache.value.count - 1)) == Some(c)
  }

  lemma {:induction false} GrowthKeepsOwnEntry(versions: seq<Object>, hist: seq<Transition>, versions': seq<Object>, hist': seq<Transition>, c: Controller, ctl: Ctl)
    requires OwnEntry(versions, hist, c, ctl) && ctl.view < |versions| && versions <= versions' && hist <= hist'
    ensures OwnEntry(versions', hist', c, ctl)
  {
    if ctl.cache.Some? && 0 < ctl.cache.value.count <= |hist| {
      assert PhaseAt(hist', ctl.cache.value.count - 1) == PhaseAt(hist, ctl.cache.value.count - 1);
    }
  }

  lemma {:induction false} StoredGrows(spec: Spec, w: World, l: Label)
    requires Coherent(spec, w) && Enabled(spec, w, l)
    ensures w.versions <= Exec(spec, w, l).versions && w.hist <= Exec(spec, w, l).hist
  {
  }

  lemma {:induction false} CheckKeepsOwnEntry(spec: Spec, w: World, l: Label)
    requires Coherent(spec, w) && Enabled(spec, w, l) && l.Check?
    requires OwnEntry(w.versions, w.hist, Dispatcher, w.disp)
    ensures OwnEntry(w.versions, w.hist, Dispatcher, Exec(spec, w, l).disp)
  {
    assert Precedes(w.versions[w.disp.flight.base], w.versions[w.disp.view]);
  }

  lemma {:induction false} BeginKeepsOwnEntry(spec: Spec, w: World, l: Label)
    requires Coherent(spec, w) && Enabled(spec, w, l) && l.Begin?
    requires OwnEntry(w.versions, w.hist, l.c, Get(w, l.c))
    ensures OwnEntry(w.versions, w.hist, l.c, Get(Exec(spec, w, l), l.c))
  {
    var ctl := Get(w, l.c);
    var o := w.versions[ctl.view];
    PlanShape(spec, o, ctl.view, StaleCheck(ctl.cache, o.status, l.now).0, l.now, l.decided, l.health);
  }

  lemma {:induction false} ReplyKeepsOwnEntry(spec: Spec, w: World, l: Label)
    requires Coherent(spec, w) && Enabled(spec, w, l) && l.Reply?
    requires OwnEntry(w.versions, w.hist, l.c, Get(w, l.c))
    ensures var w' := Exec(spec, w, l); OwnEntry(w'.versions, w'.hist, l.c, Get(w', l.c))
  {
    var ctl := Get(w, l.c);
    var w' := Exec(spec, w, l);
    CacheAfterReply(spec, w, l);
    if ctl.flight.request.Commit? && Stores(w, ctl.flight.base, l.outcome) {
      CommitIsOwnMove(spec, w, l);
    }
    StoredGrows(spec, w, l);
    GrowthKeepsOwnEntry(w.versions, w.hist, w'.versions, w'.hist, l.c, ctl);
  }

  /** A reply writes the cache only on an acknowledged status write. */
  lemma {:induction false} CacheAfterReply(spec: Spec, w: World, l: Label)
    requires Coherent(spec, w) && Enabled(spec, w, l) && l.Reply?
    ensures var ctl, ctl' := Get(w, l.c), Get(Exec(spec, w, l), l.c);
      && ctl'.view == ctl.view
      && (|| ctl'.cache == ctl.cache || ctl'.cache == None
          || (ctl.flight.request.Commit? && Stores(w, ctl.flight.base, l.outcome) && ctl'.cache == Some(EntryOf(ctl.flight.request.status))))
  {
  }

  /** A stored status write is the latest move, and c's own. */
  lemma {:induction false} CommitIsOwnMove(spec: Spec, w: World, l: Label)
    requires Coherent(spec, w) && Enabled(spec, w, l) && l.Reply?
    requires Stores(w, Get(w, l.c).flight.base, l.outcome) && Get(w, l.c).flight.request.Commit?
    ensures var hist' := Exec(spec, w, l).hist;
      |hist'| == |w.hist| + 1 && Owner(PhaseAt(hist', |w.hist|)) == Some(l.c)
    ensures Get(w, l.c).flight.request.status.count == |w.hist| + 1
  {
    CommitLeavesOwnPhase(spec, w, l.c);
    assert VersionOk(spec, w.hist, Server(w));
    assert PhaseAt(Exec(spec, w, l).hist, |w.hist|) == PhaseAt(w.hist, |w.hist|);
  }

  lemma {:induction false} StepKeepsOwnEntry(spec: Spec, w: World, l: Label, c: Controller)
    requires Coherent(spec, w) && Enabled(spec, w, l)
    requires OwnEntry(w.versions, w.hist, c, Get(w, c))
    ensures var w' := Exec(spec, w, l); OwnEntry(w'.versions, w'.hist, c, Get(w', c))
  {
    Frame(spec, w, l, c);
    if Actor(l) != Some(c) {
      StoredGrows(spec, w, l);
      var w' := Exec(spec, w, l);
      GrowthKeepsOwnEntry(w.versions, w.hist, w'.versions, w'.hist, c, Get(w, c));
    } else {
      match l
      case Begin(_, _, _, _) => BeginKeepsOwnEntry(spec, w, l);
      case Check(_) => CheckKeepsOwnEntry(spec, w, l);
      case Reply(_, _, _) => ReplyKeepsOwnEntry(spec, w, l);
      case Advance(_, to) => assert Precedes(w.versions[Get(w, c).view], w.versions[to]);
      case _ =>
    }
  }

  /** A stored status write that c does not learn of is a move of its own that c
      cannot vouch for. */
  lemma {:induction false} LostReplyLosesOwnership(spec: Spec, w: World, l: Label, c: Controller)
    requires Coherent(spec, w) && Enabled(spec, w, l) && Unacknowledged(w, l, c)
    ensures var w' := Exec(spec, w, l); !Owned(w'.versions, w'.hist, c, Get(w', c))
  {
    var w' := Exec(spec, w, l);
    var ctl := Get(w, c);
    CommitIsOwnMove(spec, w, l);
    assert Get(w', c) == ctl.(flight := Resting);
    assert VersionOk(spec, w.hist, w.versions[ctl.view]);
    assert w'.versions[ctl.view] == w.versions[ctl.view];
    assert Known(w'.versions, Get(w', c)) <= |w.hist|;
  }

  /** If moreover c's informer still serves the version that c wrote over, c is
      ready to act on it again. */
  lemma {:induction false} LostReplyInvitesRepetition(spec: Spec, w: World, l: Label, c: Controller, now: int)
    requires Coherent(spec, w) && Enabled(spec, w, l) && Unacknowledged(w, l, c)
    requires Owned(w.versions, w.hist, c, Get(w, c)) && Get(w, c).view == Get(w, c).flight.base
    ensures ActsOnOldPhase(Exec(spec, w, l), c, now)
  {
    var w' := Exec(spec, w, l);
    var ctl := Get(w, c);
    CommitLeavesOwnPhase(spec, w, c);
    CommitIsOwnMove(spec, w, l);
    assert Get(w', c) == ctl.(flight := Resting);
    assert VersionOk(spec, w.hist, w.versions[ctl.view]);
    assert w'.versions[ctl.view] == w.versions[ctl.view] == Server(w);
  }

  /** An entry given up too early leaves a move of c's own that c cannot vouch
      for; c is ready to act on an old version exactly if that version is in a
      phase of c's own. */
  lemma {:induction false} EvictionLosesOwnership(spec: Spec, w: World, l: Label, c: Controller, now: int)
    requires Coherent(spec, w) && Enabled(spec, w, l) && OwnEntry(w.versions, w.hist, c, Get(w, c))
    requires Evicts(w, l, c)
    ensures var w' := Exec(spec, w, l);
      && !Owned(w'.versions, w'.hist, c, Get(w', c))
      && (ActsOnOldPhase(w', c, now) <==> Owner(w.versions[Get(w, c).view].status.phase) == Some(c))
  {
    var w' := Exec(spec, w, l);
    var ctl := Get(w, c);
    Frame(spec, w, l, c);
    assert Get(w', c) == Ctl(ctl.view, None, Resting);
    assert VersionOk(spec, w.hist, Server(w));
    assert Known(w'.versions, Get(w', c)) <= ctl.cache.value.count - 1;
  }

  /** In every run in which c has kept ownership so far, the next step keeps it
      exactly if it is faithful: no stored status write of c without reply, and
      no entry given up while c's informer lags behind it. */
  lemma {:induction false} OwnershipIsLostExactly(spec: Spec, w0: World, ls: seq<Label>, w: World, l: Label, c: Controller)
    requires Initial(w0) && FaithfulRun(spec, w0, ls, w, c) && Enabled(spec, w, l)
    ensures Coherent(spec, w)
    ensures var w' := Exec(spec, w, l); Owned(w'.versions, w'.hist, c, Get(w', c)) <==> Faithful(w, l, c)
  {
    InitiallyCoherent(spec, w0);
    InitiallyOwned(w0, c);
    RunKeepsOwnEntry(spec, w0, ls, w, c);
    if Faithful(w, l, c) {
      StepKeepsOwned(spec, w, l, c);
    } else if Unacknowledged(w, l, c) {
      LostReplyLosesOwnership(spec, w, l, c);
    } else {
      EvictionLosesOwnership(spec, w, l, c, 0);
    }
  }

  lemma {:induction false} RunKeepsOwnEntry(spec: Spec, w: World, ls: seq<Label>, w': World, c: Controller)
    requires Coherent(spec, w) && Owned(w.versions, w.hist, c, Get(w, c)) && OwnEntry(w.versions, w.hist, c, Get(w, c))
    requires FaithfulRun(spec, w, ls, w', c)
    ensures Coherent(spec, w') && Owned(w'.versions, w'.hist, c, Get(w', c)) && OwnEntry(w'.versions, w'.hist, c, Get(w', c))
    decreases |ls|
  {
    if ls != [] {
      StepKeepsCoherent(spec, w, ls[0]);
      StepKeepsOwned(spec, w, ls[0], c);
      StepKeepsOwnEntry(spec, w, ls[0], c);
      RunKeepsOwnEntry(spec, Exec(spec, w, ls[0]), ls[1..], w', c);
    }
  }

  // ----- such steps occur -----

  /** The dispatcher prepares its first status write. */
  lemma {:induction false} UpToFirstWrite(spec: Spec, w0: World) returns (ls: seq<Label>, w: World)
    requires Initial(w0)
    ensures Run(spec, w0, ls, w) && Coherent(spec, w) && w.clock == w0.clock && !Server(w).deleting
    ensures w.disp.view == 0 && w.disp.cache == None && w.versions != [] && w.versions[0] == w0.versions[0]
    ensures w.run.flight.Resting? && w.resources == {}
    ensures w.disp.flight == CommitTo(Dispatcher, |w.versions| - 1, w0.versions[0].status, Phase(Queued, Idle), w0.clock)
  {
    InitiallyCoherent(spec, w0);
    var l1 := Begin(Dispatcher, w0.clock, false, CountError);
    var w1 := Exec(spec, w0, l1);
    StepKeepsCoherent(spec, w0, l1);
    RunOne(spec, w0, l1);
    var l2 := Reply(Dispatcher, Ok, w0.clock);
    w := Exec(spec, w1, l2);
    StepKeepsCoherent(spec, w1, l2);
    RunSnoc(spec, w0, [l1], w1, l2);
    ls := [l1] + [l2];
  }

  /** If the reply to a status write is lost, the cache misses the write and
      does not catch the next lagging read. */
  lemma {:induction false} LostReplyBreaksOwnership(spec: Spec, w0: World, now: int) returns (ls: seq<Label>, w: World)
    requires Initial(w0)
    ensures Run(spec, w0, ls, w) && ActsOnOldPhase(w, Dispatcher, now)
  {
    var ls1, w1 := UpToFirstWrite(spec, w0);
    var l := Reply(Dispatcher, LostReply, w1.clock);
    w := Exec(spec, w1, l);
    RunSnoc(spec, w0, ls1, w1, l);
    ls := ls1 + [l];
  }

  /** If reads lag for longer than the timeout, the cache gives up its entry and
      the next lagging read passes. */
  lemma {:induction false} TimeoutBreaksOwnership(spec: Spec, w0: World, now: int) returns (ls: seq<Label>, w: World)
    requires Initial(w0)
    ensures Run(spec, w0, ls, w) && ActsOnOldPhase(w, Dispatcher, now)
  {
    var ls1, w1 := UpToFirstWrite(spec, w0);
    var l2 := Reply(Dispatcher, Ok, w1.clock);
    var w2 := Exec(spec, w1, l2);
    RunSnoc(spec, w0, ls1, w1, l2);
    assert w2.versions[0] == w0.versions[0] && w2.disp.cache.Some? && w2.disp.cache.value.count == 1;
    var l3 := Begin(Dispatcher, w1.clock, false, CountError);
    var w3 := Exec(spec, w2, l3);
    RunSnoc(spec, w0, ls1 + [l2], w2, l3);
    var l4 := Begin(Dispatcher, w1.clock + CONFLICT_TIMEOUT + 1, false, CountError);
    w := Exec(spec, w3, l4);
    RunSnoc(spec, w0, ls1 + [l2] + [l3], w3, l4);
    ls := ls1 + [l2] + [l3] + [l4];
    assert Server(w).status.phase == Phase(Queued, Idle);
  }

  // ----- failed deletions -----

  /** The first creation takes effect although it is reported as failed. */
  lemma {:induction false} CreateWithError(spec: Spec, w: World) returns (ls: seq<Label>, w': World)
    requires spec.minAvailable >= 0 && Parses(spec) && spec.items != []
    requires Calm(spec, w) && Server(w).status.phase == Phase(Running, Creating) && Server(w).status.restarts == 0
    ensures Run(spec, w, ls, w') && Calm(spec, w')
    ensures Server(w').status.phase == Phase(Running, Deleting) && w'.resources == w.resources + {spec.items[0].value}
  {
    ls, w' := FailFirst(spec, w, MadeButFailed(false), w.clock);
  }

  /** For every spec that lets the Runner create and clean up: a deletion that
      fails with an error other than NotFound leaves an object behind. The
      AppWrapper is back in the queue and its object still exists. */
  lemma {:induction false} DeleteErrorLeaks(spec: Spec, w0: World) returns (ls: seq<Label>, w: World)
    requires spec.minAvailable >= 0 && Parses(spec) && spec.items != [] && Initial(w0)
    ensures Run(spec, w0, ls, w) && w.versions != []
    ensures Server(w).status.phase == Phase(Queued, Idle) && w.resources == {spec.items[0].value}
  {
    var ls1, w1 := Enqueue(spec, w0);
    var ls2, w2 := Outward(spec, w1);
    var ls3, w3 := CreateWithError(spec, w2);
    var ls4, w4 := Clear(spec, w3, w3.clock);
    var ls5, w5 := Move(spec, w4, Dispatcher, w4.clock, CountError);
    RunConcat(spec, w0, ls1, w1, ls2, w2);
    RunConcat(spec, w0, ls1 + ls2, w2, ls3, w3);
    RunConcat(spec, w0, ls1 + ls2 + ls3, w3, ls4, w4);
    RunConcat(spec, w0, ls1 + ls2 + ls3 + ls4, w4, ls5, w5);
    ls, w := ls1 + ls2 + ls3 + ls4 + ls5, w5;
  }

  // ----- dispatch under deletion -----

  /** The listing does not look at the deletion mark: any calm AppWrapper that is
      queued and past its pause can be marked for deletion and dispatched
      nevertheless. */
  lemma {:induction false} DispatchedUnderDeletion(spec: Spec, w: World, now: int) returns (ls: seq<Label>, w': World)
    requires Calm(spec, w) && w.clock <= now
    requires Server(w).status.phase == Phase(Queued, Idle) && now > Server(w).status.requeueTime + spec.pause
    ensures Run(spec, w, ls, w') && Coherent(spec, w') && !w'.gone
    ensures Server(w').deleting && Server(w').status.phase == Phase(Running, Dispatching)
  {
    assert VersionOk(spec, w.hist, Server(w));
    var w1 := Exec(spec, w, UserDelete);
    StepKeepsCoherent(spec, w, UserDelete);
    RunOne(spec, w, UserDelete);
    var ls2, w2 := Select(spec, w1, now);
    RunConcat(spec, w, [UserDelete], w1, ls2, w2);
    w' := DispatchGoesThrough(spec, w2, now);
    RunConcat(spec, w, [UserDelete] + ls2, w2, [Reply(Dispatcher, Ok, now)], w');
    ls := [UserDelete] + ls2 + [Reply(Dispatcher, Ok, now)];
  }

  lemma {:induction false} DispatchGoesThrough(spec: Spec, w: World, now: int) returns (w': World)
    requires Coherent(spec, w) && w.clock <= now && !w.gone && Server(w).deleting
    requires w.disp.flight.Calling? && w.disp.flight.request.Commit? && w.disp.flight.base + 1 == |w.versions|
    ensures Run(spec, w, [Reply(Dispatcher, Ok, now)], w') && Coherent(spec, w') && !w'.gone
    ensures Server(w').deleting && Server(w').status == w.disp.flight.request.status
  {
    var l := Reply(Dispatcher, Ok, now);
    w' := Exec(spec, w, l);
    StepKeepsCoherent(spec, w, l);
    RunOne(spec, w, l);
  }

  /** What still holds: objects are only created on a copy from before the
      deletion mark. So an AppWrapper that was marked before it was dispatched,
      or at any time before it entered Running/Creating, has nothing created. */
  lemma {:induction false} NothingIsCreatedUnderDeletion(spec: Spec, w0: World, ls: seq<Label>, w: World)
    requires Initial(w0) && Run(spec, w0, ls, w) && w.run.flight.Building?
    ensures w.run.flight.base < |w.versions| && w.versions[w.run.flight.base].status.phase == Phase(Running, Creating)
    ensures forall j :: 0 <= j < |w.versions| && w.versions[j].deleting ==>
      j > w.run.flight.base && w.versions[j].status.count >= w.versions[w.run.flight.base].status.count
  {
    InitiallyCoherent(spec, w0);
    RunKeepsCoherent(spec, w0, ls, w);
    var base := w.run.flight.base;
    forall j | 0 <= j < |w.versions| && w.versions[j].deleting
      ensures j > base && w.versions[j].status.count >= w.versions[base].status.count
    {
      assert Precedes(w.versions[if j <= base then j else base], w.versions[if j <= base then base else j]);
    }
  }
}
