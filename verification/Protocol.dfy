/**
 The two controllers as a state machine over one AppWrapper, single-cluster
 mode. Every API call is one step, so calls of one controller interleave freely
 with calls of the other and with the environment. A label carries all the
 nondeterminism of a step, which makes Exec a function and a run a sequence of
 labels.
 */
module Protocol {
  import opened Options
  import opened Lifecycle

  /** One stored version of the AppWrapper. Its resource version is its index
      in World.versions. */
  datatype Object = Object(status: Status, dispatchFinalizer: bool, runnerFinalizer: bool, deleting: bool)

  /** An API call on the AppWrapper that a controller has prepared. */
  datatype Request =
    | RemoveFinalizer
    | AddFinalizers
    | WriteCondition
    | Commit(status: Status)

  /** What a controller is in the middle of. `base` is the resource version of
      its local copy; `rest` counts further copies of the same AppWrapper in the
      list selected by a dispatch cycle; `since` is the time at which the
      listing (or the reconciliation) started. */
  datatype Flight =
    | Resting
    | Calling(base: nat, request: Request, rest: nat, since: int)
    | Selected(base: nat, rest: nat, since: int)
    | Building(base: nat, next: nat)
    | Clearing(base: nat, next: nat, remaining: nat)

  /** A controller: the version its informer serves, its write cache, and the
      reconciliation in progress. */
  datatype Ctl = Ctl(view: nat, cache: Option<CacheEntry>, flight: Flight)

  datatype World = World(
    versions: seq<Object>,      // all versions ever stored, the current one last
    gone: bool,                 // removed from the API server
    hist: seq<Transition>,      // all committed transitions
    disp: Ctl,
    run: Ctl,
    resources: set<string>,     // wrapped objects that exist
    clock: int)

  function Get(w: World, c: Controller): Ctl {
    if c == Dispatcher then w.disp else w.run
  }

  function Put(w: World, c: Controller, ctl: Ctl): World {
    if c == Dispatcher then w.(disp := ctl) else w.(run := ctl)
  }

  function Server(w: World): Object
    requires w.versions != []
  {
    w.versions[|w.versions| - 1]
  }

  function PhaseAt(hist: seq<Transition>, i: nat): Phase
    requires i <= |hist|
  {
    if i == 0 then START else hist[i - 1].phase
  }

  datatype Outcome = Ok | Refused | LostReply

  datatype Created = Made | AlreadyThere | NotMade(fatal: bool) | MadeButFailed(fatal: bool)

  datatype Removed = StillThere | NotFound | DeleteError

  /** What the Runner's health check observed. */
  datatype Health = CountError | Health(success: bool, pods: nat)

  datatype Label =
    | Begin(c: Controller, now: int, decided: bool, health: Health)
    | List(now: int, extra: nat)
    | Check(now: int)
    | Reply(c: Controller, outcome: Outcome, now: int)
    | CreateItem(created: Created, now: int)
    | DeleteItem(removed: Removed)
    | EndDelete(pods: nat, now: int)
    | Advance(c: Controller, to: nat)
    | UserDelete
    | Touch
    | Vanish(key: string)
    | Appear(key: string)
    | Restart(c: Controller)

  // ----- reconciliation, up to the first API call on the AppWrapper -----

  function CommitTo(c: Controller, base: nat, s: Status, p: Phase, now: int): Flight {
    Calling(base, Commit(NextStatus(c, s, p, now)), 0, now)
  }

  function DispatcherPlan(o: Object, base: nat, cache: Option<CacheEntry>, now: int, decided: bool): Ctl {
    var s := o.status;
    if o.deleting then
      if o.runnerFinalizer then Ctl(base, cache, Resting)
      else if o.dispatchFinalizer then Ctl(base, cache, Calling(base, RemoveFinalizer, 0, now))
      else Ctl(base, None, Resting)
    else
      var flight := match s.phase
        case Phase(Empty, _) =>
          if o.dispatchFinalizer && o.runnerFinalizer then CommitTo(Dispatcher, base, s, Phase(Queued, Idle), now)
          else Calling(base, AddFinalizers, 0, now)
        case Phase(Queued, _) =>
          if decided then Calling(base, WriteCondition, 0, now) else Resting
        case Phase(Running, Dispatching) => CommitTo(Dispatcher, base, s, Phase(Running, Accepting), now)
        case Phase(Running, Deleted) =>
          CommitTo(Dispatcher, base, s.(restarts := s.restarts + 1, requeueTime := now), Phase(Queued, Idle), now)
        case Phase(Failed, Deleted) => CommitTo(Dispatcher, base, s, Phase(Failed, Idle), now)
        case _ => Resting;
      Ctl(base, cache, flight)
  }

  predicate Parses(spec: Spec) {
    forall i :: 0 <= i < |spec.items| ==> spec.items[i].Some?
  }

  /** The creation loop, about to create item `next`. */
  function Build(spec: Spec, s: Status, base: nat, next: nat, now: int): Flight {
    if next >= |spec.items| then CommitTo(Runner, base, s, Phase(Running, Created), now)
    else Building(base, next)
  }

  function Fallback(spec: Spec, s: Status, base: nat, fatal: bool, now: int): Flight {
    Calling(base, Commit(RequeueOrFail(spec, s, fatal, now)), 0, now)
  }

  function Monitor(spec: Spec, s: Status, base: nat, now: int, health: Health): Flight {
    if health.CountError? then Resting
    else if health.success then CommitTo(Runner, base, s, Phase(Succeeded, Idle), now)
    else
      var minAvailable := if spec.minAvailable == 0 then 1 else spec.minAvailable;
      if now > s.dispatchTime + spec.requeueAfter && health.pods < minAvailable then Fallback(spec, s, base, false, now)
      else Resting
  }

  function RunnerPlan(spec: Spec, o: Object, base: nat, cache: Option<CacheEntry>, now: int, health: Health): Ctl {
    var s := o.status;
    if o.deleting then
      if o.runnerFinalizer then Ctl(base, cache, Clearing(base, 0, 0))
      else Ctl(base, None, Resting)
    else
      var flight := match s.phase
        case Phase(Running, Accepting) => CommitTo(Runner, base, s.(dispatchTime := now), Phase(Running, Creating), now)
        case Phase(Running, Creating) =>
          if Parses(spec) then Build(spec, s, base, 0, now) else Fallback(spec, s, base, true, now)
        case Phase(Running, Created) => Monitor(spec, s, base, now, health)
        case Phase(Running, Deleting) => Clearing(base, 0, 0)
        case Phase(Failed, Deleting) => Clearing(base, 0, 0)
        case _ => Resting;
      Ctl(base, cache, flight)
  }

  // ----- API calls on the AppWrapper -----

  /** An update is stored only if its local copy has the current version. */
  predicate Accepts(versions: seq<Object>, gone: bool, base: nat, outcome: Outcome) {
    !gone && outcome != Refused && base + 1 == |versions|
  }

  predicate Stores(w: World, base: nat, outcome: Outcome) {
    Accepts(w.versions, w.gone, base, outcome)
  }

  function WithoutFinalizer(o: Object, c: Controller): Object {
    if c == Dispatcher then o.(dispatchFinalizer := false) else o.(runnerFinalizer := false)
  }

  predicate Collectable(o: Object) {
    o.deleting && !o.dispatchFinalizer && !o.runnerFinalizer
  }

  /** A new version; an object under deletion leaves the server with its last
      finalizer. */
  function Store(w: World, o: Object): World {
    w.(versions := w.versions + [o], gone := Collectable(o))
  }

  /** The world once the request of controller c has been stored. */
  function Stored(w: World, c: Controller, request: Request): World
    requires w.versions != []
  {
    var o := Server(w);
    match request
    case RemoveFinalizer => Store(w, WithoutFinalizer(o, c))
    case AddFinalizers => Store(w, o.(dispatchFinalizer := true, runnerFinalizer := true))
    case WriteCondition => Store(w, o)
    case Commit(s) =>
      var t := Transition(LastTime(s), c, s.phase);
      Store(w, o.(status := s)).(hist := w.hist + [t])
  }

  /** How controller c goes on after the reply to its request. */
  function AfterReply(w: World, c: Controller, acknowledged: bool, now: int): Ctl
    requires Get(w, c).flight.Calling?
  {
    var ctl := Get(w, c);
    var f := ctl.flight;
    if !acknowledged then ctl.(flight := Resting)
    else
      match f.request
      case RemoveFinalizer => Ctl(ctl.view, None, Resting)
      case AddFinalizers =>
        if f.base < |w.versions| then
          ctl.(flight := CommitTo(c, f.base + 1, w.versions[f.base].status, Phase(Queued, Idle), now))
        else ctl.(flight := Resting)
      case WriteCondition => ctl.(flight := Resting)
      case Commit(s) =>
        Ctl(ctl.view, Some(EntryOf(s)), if f.rest > 0 then Selected(f.base, f.rest - 1, f.since) else Resting)
  }

  function DoReply(w: World, c: Controller, outcome: Outcome, now: int): World
    requires w.versions != [] && Get(w, c).flight.Calling?
  {
    var f := Get(w, c).flight;
    var stores := Stores(w, f.base, outcome);
    var w' := if stores then Stored(w, c, f.request) else w;
    Put(w', c, AfterReply(w, c, stores && outcome == Ok, now)).(clock := now)
  }

  // ----- the dispatch cycle, seen from one AppWrapper -----

  /** The listing classifies the AppWrapper by its effective phase and checks
      the pause against the listed timestamp. */
  predicate Eligible(spec: Spec, cache: Option<CacheEntry>, s: Status, now: int) {
    Effective(cache, s) == Phase(Queued, Idle) && now > s.requeueTime + spec.pause
  }

  function DoCheck(w: World, now: int): World
    requires w.disp.flight.Selected? && w.disp.flight.base < |w.versions|
  {
    var f := w.disp.flight;
    var s := w.versions[f.base].status;
    var (cache, stale) := StaleCheck(w.disp.cache, s, now);
    var flight :=
      if stale || s.phase.state != Queued then Resting
      else Calling(f.base, Commit(NextStatus(Dispatcher, s, Phase(Running, Dispatching), now)), f.rest, f.since);
    w.(disp := w.disp.(cache := cache, flight := flight), clock := now)
  }

  // ----- wrapped resources -----

  function DoCreate(spec: Spec, w: World, created: Created, now: int): World
    requires w.run.flight.Building? && w.run.flight.base < |w.versions|
    requires w.run.flight.next < |spec.items| && spec.items[w.run.flight.next].Some?
  {
    var f := w.run.flight;
    var s := w.versions[f.base].status;
    var key := spec.items[f.next].value;
    var exists' := if created.Made? || created.MadeButFailed? then w.resources + {key} else w.resources;
    var flight :=
      if created.Made? || created.AlreadyThere? then Build(spec, s, f.base, f.next + 1, now)
      else Fallback(spec, s, f.base, created.fatal, now);
    w.(resources := exists', run := w.run.(flight := flight), clock := now)
  }

  function DoDelete(spec: Spec, w: World, removed: Removed): World
    requires w.run.flight.Clearing? && w.run.flight.next < |spec.items|
  {
    var f := w.run.flight;
    var remaining := if spec.items[f.next].Some? && removed.StillThere? then f.remaining + 1 else f.remaining;
    w.(run := w.run.(flight := Clearing(f.base, f.next + 1, remaining)))
  }

  /** The pass is complete; with forced deletion enabled the listed pods count
      too. Forced deletions only make resources vanish, so they are left to
      Vanish. */
  function DoEndDelete(spec: Spec, w: World, pods: nat, now: int): World
    requires w.run.flight.Clearing? && w.run.flight.base < |w.versions|
  {
    var f := w.run.flight;
    var o := w.versions[f.base];
    var done := f.remaining == 0 && (spec.forceDeletion <= 0 || pods == 0);
    var flight :=
      if !done then Resting
      else if o.deleting then Calling(f.base, RemoveFinalizer, 0, now)
      else CommitTo(Runner, f.base, o.status, Phase(o.status.phase.state, Deleted), now);
    w.(run := w.run.(flight := flight), clock := now)
  }

  // ----- steps -----

  predicate Enabled(spec: Spec, w: World, l: Label) {
    && w.versions != []
    && match l
       case Begin(c, now, _, _) =>
         w.clock <= now && Get(w, c).flight.Resting? && Get(w, c).view < |w.versions|
       case List(now, extra) =>
         && w.clock <= now && w.disp.flight.Resting? && w.disp.view < |w.versions|
         && Eligible(spec, w.disp.cache, w.versions[w.disp.view].status, now)
       case Check(now) =>
         w.clock <= now && w.disp.flight.Selected? && w.disp.flight.base < |w.versions|
       case Reply(c, _, now) =>
         w.clock <= now && Get(w, c).flight.Calling?
       case CreateItem(created, now) =>
         && w.clock <= now && w.run.flight.Building? && w.run.flight.base < |w.versions|
         && w.run.flight.next < |spec.items| && spec.items[w.run.flight.next].Some?
         && (created.AlreadyThere? ==> spec.items[w.run.flight.next].value in w.resources)
       case DeleteItem(removed) =>
         && w.run.flight.Clearing? && w.run.flight.next < |spec.items|
         && (spec.items[w.run.flight.next].Some? ==>
               && (removed.StillThere? ==> spec.items[w.run.flight.next].value in w.resources)
               && (removed.NotFound? ==> spec.items[w.run.flight.next].value !in w.resources))
       case EndDelete(_, now) =>
         && w.clock <= now && w.run.flight.Clearing? && w.run.flight.base < |w.versions|
         && w.run.flight.next == |spec.items|
       case Advance(c, to) => Get(w, c).view <= to < |w.versions|
       case UserDelete => !w.gone && !Server(w).deleting
       case Touch => !w.gone
       case Vanish(_) => true
       case Appear(_) => true
       case Restart(_) => true
  }

  function DoBegin(spec: Spec, w: World, c: Controller, now: int, decided: bool, health: Health): World
    requires Get(w, c).view < |w.versions|
  {
    var ctl := Get(w, c);
    var o := w.versions[ctl.view];
    var (cache, stale) := StaleCheck(ctl.cache, o.status, now);
    var ctl' :=
      if stale then Ctl(ctl.view, cache, Resting)
      else if c == Dispatcher then DispatcherPlan(o, ctl.view, cache, now, decided)
      else RunnerPlan(spec, o, ctl.view, cache, now, health);
    Put(w, c, ctl').(clock := now)
  }

  function Exec(spec: Spec, w: World, l: Label): World
    requires Enabled(spec, w, l)
  {
    match l
    case Begin(c, now, decided, health) => DoBegin(spec, w, c, now, decided, health)
    case List(now, extra) => w.(disp := w.disp.(flight := Selected(w.disp.view, extra, now)), clock := now)
    case Check(now) => DoCheck(w, now)
    case Reply(c, outcome, now) => DoReply(w, c, outcome, now)
    case CreateItem(created, now) => DoCreate(spec, w, created, now)
    case DeleteItem(removed) => DoDelete(spec, w, removed)
    case EndDelete(pods, now) => DoEndDelete(spec, w, pods, now)
    case Advance(c, to) => Put(w, c, Get(w, c).(view := to))
    case UserDelete => Store(w, Server(w).(deleting := true))
    case Touch => Store(w, Server(w))
    case Vanish(key) => w.(resources := w.resources - {key})
    case Appear(key) => w.(resources := w.resources + {key})
    case Restart(c) => Put(w, c, Ctl(|w.versions| - 1, None, Resting))
  }

  /** The controller that takes the step; None for a step of the environment. */
  function Actor(l: Label): Option<Controller> {
    match l
    case Begin(c, _, _, _) => Some(c)
    case List(_, _) => Some(Dispatcher)
    case Check(_) => Some(Dispatcher)
    case Reply(c, _, _) => Some(c)
    case CreateItem(_, _) => Some(Runner)
    case DeleteItem(_) => Some(Runner)
    case EndDelete(_, _) => Some(Runner)
    case Advance(c, _) => Some(c)
    case Restart(c) => Some(c)
    case _ => None
  }

  predicate MayStore(l: Label) {
    l.Reply? || l.UserDelete? || l.Touch?
  }

  lemma {:induction false} Frame(spec: Spec, w: World, l: Label, c: Controller)
    requires Enabled(spec, w, l)
    ensures Actor(l) != Some(c) ==> Get(Exec(spec, w, l), c) == Get(w, c)
    ensures !MayStore(l) ==> Exec(spec, w, l).versions == w.versions && Exec(spec, w, l).hist == w.hist && Exec(spec, w, l).gone == w.gone
    ensures !l.CreateItem? && !l.Vanish? && !l.Appear? ==> Exec(spec, w, l).resources == w.resources
  {
  }

  // ----- runs -----

  predicate Fresh(o: Object) {
    && o.status.phase == START && o.status.count == 0 && o.status.restarts == 0 && o.status.log == []
    && !o.dispatchFinalizer && !o.runnerFinalizer && !o.deleting
  }

  /** A new AppWrapper: one version, empty status, no finalizer; both
      controllers see it and have cached nothing. */
  predicate Initial(w: World) {
    && |w.versions| == 1
    && Fresh(w.versions[0])
    && !w.gone && w.hist == [] && w.resources == {}
    && w.disp == Ctl(0, None, Resting) && w.run == Ctl(0, None, Resting)
  }

  /** w' results from w by executing the labels in order. */
  predicate Run(spec: Spec, w: World, ls: seq<Label>, w': World)
    decreases |ls|
  {
    if ls == [] then w == w'
    else Enabled(spec, w, ls[0]) && Run(spec, Exec(spec, w, ls[0]), ls[1..], w')
  }

  // ----- faults excluded by some theorems -----

  /** A status write of c is stored, but c never learns of it. */
  predicate Unacknowledged(w: World, l: Label, c: Controller) {
    && l.Reply? && l.c == c && l.outcome == LostReply
    && Get(w, c).flight.Calling? && Get(w, c).flight.request.Commit?
    && Stores(w, Get(w, c).flight.base, LostReply)
  }

  /** The cache of c is ahead of what c's informer serves. */
  predicate Ahead(w: World, c: Controller) {
    && Get(w, c).cache.Some? && Get(w, c).view < |w.versions|
    && Get(w, c).cache.value.count > w.versions[Get(w, c).view].status.count
  }

  /** A staleness check of c gives up on a lag older than the timeout, although
      the informer still lags. */
  predicate Evicts(w: World, l: Label, c: Controller) {
    && Ahead(w, c)
    && (|| (l.Begin? && l.c == c && TimedOut(Get(w, c).cache, w.versions[Get(w, c).view].status, l.now))
        || (&& l.Check? && c == Dispatcher && w.disp.flight.Selected? && w.disp.flight.base < |w.versions|
            && TimedOut(w.disp.cache, w.versions[w.disp.flight.base].status, l.now)))
  }

  predicate Faithful(w: World, l: Label, c: Controller) {
    !Unacknowledged(w, l, c) && !Evicts(w, l, c)
  }

  /** A run in which controller c suffers neither fault; the other controller
      may suffer both. */
  predicate FaithfulRun(spec: Spec, w: World, ls: seq<Label>, w': World, c: Controller)
    decreases |ls|
  {
    if ls == [] then w == w'
    else
      && Enabled(spec, w, ls[0])
      && Faithful(w, ls[0], c)
      && FaithfulRun(spec, Exec(spec, w, ls[0]), ls[1..], w', c)
  }
}
