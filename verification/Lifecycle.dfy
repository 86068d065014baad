/**
 The lifecycle of one AppWrapper: its phases, which controller leaves each
 phase, the status record that `updateStatus` rewrites, and the write cache
 that each controller keeps to detect a lagging read.
 */
module Lifecycle {
  import opened Options

  datatype State = Empty | Queued | Running | Succeeded | Failed

  datatype Step = Idle | Dispatching | Accepting | Creating | Created | Deleting | Deleted

  datatype Phase = Phase(state: State, step: Step)

  datatype Controller = Dispatcher | Runner

  /** One entry of the transition log; the free-text reason is not modelled. */
  datatype Transition = Transition(time: int, actor: Controller, phase: Phase)

  datatype Status = Status(
    phase: Phase,
    count: nat,
    restarts: nat,
    dispatchTime: int,
    requeueTime: int,
    log: seq<Transition>)

  /** The parts of the AppWrapper spec that the two controllers consult. Each
      item is the key of the wrapped object, or None if its template cannot be
      parsed or names a foreign namespace. */
  datatype Spec = Spec(
    minAvailable: int,
    maxRequeuings: int,
    requeueAfter: int,
    pause: int,
    forceDeletion: int,
    items: seq<Option<string>>)

  const START: Phase := Phase(Empty, Idle)

  const LOG_LIMIT: nat := 20

  /** Five minutes, in seconds. */
  const CONFLICT_TIMEOUT: int := 300

  /** The controller whose Reconcile (or dispatch cycle) moves an AppWrapper out
      of a phase; None for the phases that nobody leaves. */
  function Owner(p: Phase): Option<Controller> {
    match p
    case Phase(Empty, _) => Some(Dispatcher)
    case Phase(Queued, _) => Some(Dispatcher)
    case Phase(Running, Dispatching) => Some(Dispatcher)
    case Phase(Running, Deleted) => Some(Dispatcher)
    case Phase(Failed, Deleted) => Some(Dispatcher)
    case Phase(Running, Accepting) => Some(Runner)
    case Phase(Running, Creating) => Some(Runner)
    case Phase(Running, Created) => Some(Runner)
    case Phase(Running, Deleting) => Some(Runner)
    case Phase(Failed, Deleting) => Some(Runner)
    case _ => None
  }

  /** The published state diagram, with Deleting -> Deleted on the Runner's side
      as in the code. Written without reference to Owner. */
  predicate Edge(c: Controller, p: Phase, q: Phase) {
    match c
    case Dispatcher =>
      || (p == START && q == Phase(Queued, Idle))
      || (p == Phase(Queued, Idle) && q == Phase(Running, Dispatching))
      || (p == Phase(Running, Dispatching) && q == Phase(Running, Accepting))
      || (p == Phase(Running, Deleted) && q == Phase(Queued, Idle))
      || (p == Phase(Failed, Deleted) && q == Phase(Failed, Idle))
    case Runner =>
      || (p == Phase(Running, Accepting) && q == Phase(Running, Creating))
      || (p == Phase(Running, Creating) && (q == Phase(Running, Created) || q == Phase(Running, Deleting) || q == Phase(Failed, Deleting) || q == Phase(Failed, Creating)))
      || (p == Phase(Running, Created) && (q == Phase(Succeeded, Idle) || q == Phase(Running, Deleting) || q == Phase(Failed, Deleting) || q == Phase(Failed, Created)))
      || (p == Phase(Running, Deleting) && q == Phase(Running, Deleted))
      || (p == Phase(Failed, Deleting) && q == Phase(Failed, Deleted))
  }

  /** The fourteen phases of the diagram. */
  predicate InDiagram(p: Phase) {
    || p == START
    || p == Phase(Queued, Idle)
    || (p.state == Running && p.step != Idle)
    || p == Phase(Succeeded, Idle)
    || (p.state == Failed && p.step != Dispatching && p.step != Accepting)
  }

  /** In the diagram, a phase is left by its owner and by nobody else; a phase
      without an owner is never left. */
  lemma {:induction false} OwnerIsTheOnlyWayOut(p: Phase)
    requires InDiagram(p)
    ensures forall c, q :: Edge(c, p, q) ==> Owner(p) == Some(c) && InDiagram(q)
    ensures Owner(p).Some? ==> exists q :: Edge(Owner(p).value, p, q)
  {
    if Owner(p).Some? {
      var q :=
        match p
        case Phase(Empty, _) => Phase(Queued, Idle)
        case Phase(Queued, _) => Phase(Running, Dispatching)
        case Phase(Running, Dispatching) => Phase(Running, Accepting)
        case Phase(Running, Accepting) => Phase(Running, Creating)
        case Phase(Running, Creating) => Phase(Running, Created)
        case Phase(Running, Created) => Phase(Succeeded, Idle)
        case Phase(Running, Deleting) => Phase(Running, Deleted)
        case Phase(Running, Deleted) => Phase(Queued, Idle)
        case Phase(Failed, Deleting) => Phase(Failed, Deleted)
        case _ => Phase(Failed, Idle);
      assert Edge(Owner(p).value, p, q);
    }
  }

  function LastOf<T>(s: seq<T>, n: nat): (r: seq<T>)
    ensures |r| == if |s| <= n then |s| else n
  {
    if |s| <= n then s else s[|s| - n..]
  }

  /** Drop the oldest entry of an overlong log. */
  function Trim(log: seq<Transition>): seq<Transition> {
    if |log| > LOG_LIMIT then log[1..] else log
  }

  /** The status that updateStatus writes: log entry appended and the log
      trimmed, count bumped, phase replaced. */
  function NextStatus(c: Controller, s: Status, p: Phase, now: int): Status {
    s.(phase := p, count := s.count + 1, log := Trim(s.log + [Transition(now, c, p)]))
  }

  /** The time of the latest logged transition. */
  function LastTime(s: Status): int {
    if s.log == [] then 0 else s.log[|s.log| - 1].time
  }

  /** requeueOrFail: which phase to enter on an error or on missing pods. */
  function RequeueOrFail(spec: Spec, s: Status, fatal: bool, now: int): Status {
    if spec.minAvailable < 0 then
      NextStatus(Runner, s, Phase(Failed, s.phase.step), now)
    else if fatal || (spec.maxRequeuings > 0 && s.restarts >= spec.maxRequeuings) then
      NextStatus(Runner, s.(requeueTime := now), Phase(Failed, Deleting), now)
    else
      NextStatus(Runner, s.(requeueTime := now), Phase(Running, Deleting), now)
  }

  /** A cached write: the phase and count last written or seen by a controller,
      and the time at which reads were first found to lag behind it. */
  datatype CacheEntry = CacheEntry(phase: Phase, count: nat, conflict: Option<int>)

  function EntryOf(s: Status): CacheEntry {
    CacheEntry(s.phase, s.count, None)
  }

  /** isStale: the entry left behind and the verdict. */
  function StaleCheck(entry: Option<CacheEntry>, s: Status, now: int): (r: (Option<CacheEntry>, bool))
    ensures !r.1 ==> r.0 == if entry.None? then None else Some(EntryOf(s))
    ensures !r.1 && entry.Some? ==> entry.value.count <= s.count
  {
    match entry
    case None => (None, false)
    case Some(e) =>
      if e.count < s.count then
        (Some(EntryOf(s)), false)
      else if e.count > s.count then
        match e.conflict
        case None => (Some(e.(conflict := Some(now))), true)
        case Some(t) => if now > t + CONFLICT_TIMEOUT then (None, true) else (entry, true)
      else if e.phase != s.phase then
        (None, true)
      else
        (Some(e.(conflict := None)), false)
  }

  /** Spelled out: a read is stale exactly if the entry is ahead of it, or has
      its count but another phase. The entry is given up in the latter case, and
      in the former when the conflict is older than the timeout. */
  lemma {:induction false} StaleMeans(entry: Option<CacheEntry>, s: Status, now: int)
    ensures var (entry', stale) := StaleCheck(entry, s, now);
      && (stale <==> entry.Some? && (entry.value.count > s.count || (entry.value.count == s.count && entry.value.phase != s.phase)))
      && (entry.Some? && entry'.None? <==> stale && (entry.value.count == s.count || TimedOut(entry, s, now)))
      && (stale && entry'.Some? ==> entry'.value.phase == entry.value.phase && entry'.value.count == entry.value.count && entry'.value.conflict.Some?)
      && (!stale && entry.Some? ==> entry' == Some(CacheEntry(s.phase, s.count, None)))
  {
  }

  /** getCachedAW: the phase a listing is classified by. */
  function Effective(entry: Option<CacheEntry>, s: Status): Phase {
    if entry.Some? && entry.value.count > s.count then entry.value.phase else s.phase
  }

  /** The check of a lagging read would evict the entry because the lag has
      lasted longer than the timeout. A caller can test this beforehand. */
  predicate TimedOut(entry: Option<CacheEntry>, s: Status, now: int) {
    && entry.Some?
    && entry.value.count > s.count
    && entry.value.conflict.Some?
    && now > entry.value.conflict.value + CONFLICT_TIMEOUT
  }

  /** A series of staleness checks, oldest first, each with the status read and
      the time of the check. */
  function StaleChecks(entry: Option<CacheEntry>, checks: seq<(Status, int)>): Option<CacheEntry> {
    if checks == [] then entry
    else
      var last := checks[|checks| - 1];
      StaleCheck(StaleChecks(entry, checks[..|checks| - 1]), last.0, last.1).0
  }

  /** While every read lags, the conflict timer holds the time of the first
      check since the last synchronisation, and the entry is gone exactly if
      some later check came more than the timeout after the first. */
  lemma {:induction false} ConflictTimer(e: CacheEntry, checks: seq<(Status, int)>)
    requires e.conflict.None?
    requires checks != []
    requires forall i :: 0 <= i < |checks| ==> checks[i].0.count < e.count
    ensures var expired := exists i :: 0 < i < |checks| && checks[i].1 > checks[0].1 + 300;
      StaleChecks(Some(e), checks) == if expired then None else Some(e.(conflict := Some(checks[0].1)))
  {
    var init := checks[..|checks| - 1];
    var last := checks[|checks| - 1];
    if init == [] {
      assert StaleChecks(Some(e), init) == Some(e);
    } else {
      ConflictTimer(e, init);
      assert forall i :: 0 <= i < |init| ==> init[i] == checks[i];
    }
  }
}
