# MCAD dispatcher: a verified model

MCAD queues batch jobs. A job is an *AppWrapper*: a list of object templates
plus the resources they need. Two controllers share each AppWrapper: the
Dispatcher decides when a job may start, the Runner creates and deletes the
wrapped objects and watches them. This project models, in single-cluster mode,

- the **lifecycle protocol** of the two controllers as a state machine in which
  every API call is one step, with lagging reads, optimistic locking, lost
  replies, failed calls, user deletions and controller restarts; and the two
  `Reconcile` methods as imperative code that is proved to follow it;
- the **dispatch cycle**: reservations per priority level, the ordered queue,
  and the greedy allocation of cluster capacity;
- **quota accounting** within a cycle, and the demand that is dispatched but
  has not passed quota admission yet;
- the **template rewrite** that labels every pod of a wrapped object.

Nothing in the source says why the two controllers do not trip over each other.
The model makes the reason explicit and derives the rest from it: each phase is
left by one controller only, so a controller's own transition count tells it
whether a lagging read hides one of its own moves (`Ownership`). That is what
keeps the allocator from booking a lagging AppWrapper twice (`Cycle`) and the
Runner from leaking wrapped objects (`Resources`).

## How the files hang together

| files | content |
|---|---|
| `Lifecycle`, `Protocol`, `Runs` | phases, status writes, the staleness check; the world and its steps; composing runs |
| `Coherence` | one invariant kept by every step under every fault: history, logs, caches, finalizers, pauses, bounds |
| `Ownership`, `Resources`, `Transitions`, `Bounds`, `Monitoring` | theorems over all runs |
| `Progress` | where the owner of a phase takes the AppWrapper when nothing goes wrong, and where when something does |
| `Faults` | the hypotheses of those theorems: the steps that break ownership, the runs that leak objects |
| `Reconcilers`, `Reconciliation` | the write cache, `updateStatus` and both `Reconcile` methods on mutable objects, tied to `Protocol` step by step |
| `Sums`, `Weights`, `Listings`, `Priorities`, `Ordering`, `Queue` | resource amounts updated in place, what a cycle reads, reservations and queue |
| `Quotas`, `Unadmitted`, `Selection` | the quota tracker, the unadmitted demand, the allocation loops |
| `Capacity`, `Allowance`, `Cycle` | what a cycle does to capacity and quotas; the link to the protocol |
| `Template`, `Places` | the JSON rewrite, and its description place by place |

`Protocol.Exec` is the transition function of the state machine
(`internal/controller/dispatcher.go:65-281`, `internal/controller/runner.go:62-219`,
`internal/controller/cache.go:72-107`). Its labels carry all nondeterminism: times,
outcomes of calls, which version an informer serves next, health verdicts. A run
is a sequence of labels, so the theorems quantify over all interleavings.
`Selection.ConsiderAll` is the allocation loop as a function; the methods beside
it are the loops of the code, proved equal to it. Automatic induction is switched
off in every lemma: each induction is written out.

## Hypotheses

They are stated where they are needed and nowhere else.

- *Faithful runs* (`Protocol.Faithful`): the controller in question never misses
  the reply to a status write that was stored, and its cache never gives up an
  entry, after the five-minute timeout, while its informer still lags behind it.
  The other controller may do both. These are exactly the steps that lose
  ownership (`Faults.OwnershipIsLostExactly`). Coherence, finalizers, bounds and
  pauses need no such hypothesis.
- *Sweeping runs* (`Resources.SweepingRun`): `missed` collects the objects whose
  deletion failed with an error other than NotFound, which `deleteResources`
  counts as gone (`internal/controller/resource_manager.go:199-204`), and the
  objects that somebody else made under the name of a wrapped object (the step
  `Appear`; `createResources` accepts them, see
  `internal/controller/resource_manager.go:129-131`). These can be left behind;
  everything else is accounted for.
- Non-negative requests for maximality and for the double-booking theorem;
  non-negative amounts of created pods for the closed form of the unadmitted
  demand, and no AppWrapper above its ask for its lower bound
  (`Cycle.AllModest`). Capacity and quota safety need neither.
- `Allowance.WellListed`: listing the quotas of a namespace returns quotas of
  that namespace.

## What the model shows about the code

- Runs are bounded exactly for the specs in `Bounds.Terminating`. Besides
  `minAvailable < 0` and `maxNumRequeuings > 0` this includes specs with a
  template that cannot be parsed: their creation fails for good.
- `docs/mc-state-diagram.md:58` and `docs/mc-state-diagram.md:60` put the moves
  from Deleting to Deleted on the Dispatcher's side; the code has them in the
  Runner (`internal/controller/runner.go:187`, `internal/controller/runner.go:199`),
  and the model follows the code.
- `buildQueue` does not look at the deletion mark: an AppWrapper under deletion
  can still be dispatched (`Faults.DispatchedUnderDeletion`). Nothing is created
  for it, though (`Faults.NothingIsCreatedUnderDeletion`).
- The unadmitted demand of a namespace depends on listing order exactly if some
  dispatched AppWrapper has created more than it asked for and another one less
  (`Unadmitted.OrderMattersExactly`); `Unadmitted.ClosedForm` says what it is in
  general, and when it is the plain sum.
- `Weights.Weights.Max` treats a missing entry as zero, so a maximum with
  negative amounts is not below zero.

## Model

| member | source | states |
|---|---|---|
| Lifecycle.OwnerIsTheOnlyWayOut | internal/controller/dispatcher.go:113-221 | every phase of the diagram is left by its owner only, an owned phase can be left, and moves stay in the diagram |
| Lifecycle.StaleMeans | internal/controller/cache.go:72-107 | a read is stale exactly if the cache is ahead of it or has its count with another phase; when the entry is given up, kept with a conflict time, or refreshed |
| Lifecycle.ConflictTimer | internal/controller/cache.go:84-97 | over any series of lagging reads the conflict timer holds the time of the first, and the entry is evicted exactly if a later read comes more than five minutes after it |
| Coherence.SuccessorIsBounded | internal/controller/runner.go:207-219 | every prepared status write keeps restarts and transition count within their bounds, per phase |
| Coherence.StepKeepsCoherent | internal/controller/appwrapper_controller.go:69-91 | each step of either controller or of the environment, faults included, keeps versions, history, logs, caches, finalizers and prepared calls coherent |
| Coherence.RunKeepsCoherent | internal/controller/appwrapper_controller.go:69-91 | so does every run |
| Ownership.PassedCheckIsCurrent | internal/controller/cache.go:72-107 | a read that passes the staleness check, in a phase the controller owns, shows the server's current phase and count |
| Ownership.MutualExclusion | internal/controller/cache.go:72-107 | in every run without lost reply or timeout for controller c, c works on an owned phase only while its copy has the server's phase and count, from the check until c is done |
| Ownership.NeverBothCritical | internal/controller/cache.go:72-107 | the two controllers are never in the middle of work on phases of their own at the same time |
| Ownership.EffectiveIdleIsCurrent | internal/controller/cache.go:64-69 | the phase by which the dispatcher classifies a listed AppWrapper is idle only if it is the server's phase |
| Transitions.HistoryIsAPath | internal/controller/appwrapper_controller.go:69-91 | committed transitions are a path through the diagram, each by the owner; a stored log is the last min(20, count) of them; a cache entry is a point of the path, so the equal-count conflict cannot occur |
| Transitions.DispatchWaitsOutThePause | internal/controller/dispatch_logic.go:119-124 | every move to Running/Dispatching leaves Queued/Idle, strictly later than the stored requeue time plus the pause, however stale the listing |
| Transitions.RedispatchesArePaused | internal/controller/dispatcher.go:180-192 | in the history, what follows a requeuing is a dispatch, logged more than the pause after the requeue time that every version in between carries |
| Transitions.DispatchedOncePerCycle | internal/controller/dispatcher.go:260-281 | however many copies of an AppWrapper a cycle has selected, and whatever faults occur, it is dispatched at most once until the dispatcher starts over |
| Transitions.SpentStep | internal/controller/dispatcher.go:264-267 | once the cycle is past the AppWrapper, no step of anybody dispatches it, and the next look at a stale copy ends the cycle |
| Resources.ResourcesAreAccountedFor | internal/controller/runner.go:144-199 | wrapped objects exist only in phases that account for them, a queued AppWrapper has none, none outlives the AppWrapper; except those whose deletion failed and those that somebody else made |
| Resources.FinalizerProtocol | internal/controller/dispatcher.go:87-126 | both finalizers from the first transition to the deletion mark; the dispatcher's goes only after the runner's; the object leaves the server only without either |
| Bounds.SuccessorDecreases | internal/controller/runner.go:207-219 | each status write decreases (restarts left, phases left) lexicographically |
| Bounds.MeasureDecreases | internal/controller/runner.go:207-219 | so does every committed transition of every run, and both components stay non-negative |
| Bounds.BoundedRuns | internal/controller/runner.go:207-219 | at most M restarts and 7M + 8 transitions with limit M, at most 6 transitions without monitoring, at most 7 if a template does not parse |
| Bounds.UnboundedOtherwise | internal/controller/runner.go:207-219 | every other spec has runs with as many transitions as one likes |
| Progress.MovesOn | internal/controller/dispatcher.go:113-221 | from every calm AppWrapper in an owned phase that is ready, steps of the owner with which nothing goes wrong add exactly one transition, to the prescribed phase; restarts, requeue time and dispatch time are stamped then and only then; Running/Created is reached with all objects existing |
| Progress.FailedCreationFallsBack | internal/controller/runner.go:144-150 | a failed creation leads, in one write, where minAvailable, fatality and the restarts left prescribe, with the time of requeuing |
| Progress.UnparsableFallsBack | internal/controller/resource_manager.go:122-126 | templates that do not parse do so as a fatal error, before anything is created |
| Progress.MissingPodsFallBack | internal/controller/runner.go:167-177 | fewer pods than minAvailable (one if that is zero) after the grace period do so as an error that is not fatal |
| Progress.HealthyIsLeftAlone | internal/controller/runner.go:152-179 | any other verdict short of success writes nothing |
| Progress.DecisionsAreWritten | internal/controller/dispatcher.go:128-149 | a decision that waits is written to the condition of a queued AppWrapper, and only then is anything written |
| Progress.MarkedLeaves | internal/controller/runner.go:79-97 | a marked AppWrapper with nothing left loses the Runner's finalizer, then the dispatcher's, leaves the server without a transition, and is forgotten by both caches |
| Progress.ReleasedIsForgotten | internal/controller/dispatcher.go:99-111 | a controller whose finalizer is gone from a marked AppWrapper drops its cache entry and does nothing else |
| Monitoring.DispatchTimeIsKept | internal/controller/runner.go:141 | in every run, every version in Running/Creating or Running/Created carries as dispatch time the logged time of its move to Running/Creating |
| Monitoring.GraceIsKept | internal/controller/runner.go:172-176 | in every run, Running/Created is left other than to success only more than the grace period after the move to Running/Creating |
| Monitoring.VerdictsAreRequired | internal/controller/runner.go:152-179 | in every run, whatever leaves Running/Created was decided when the Runner last began: on a verdict of success, or past the grace period with fewer pods than required |
| Faults.OwnershipIsLostExactly | internal/controller/cache.go:72-107 | in every run that has kept ownership so far, the next step keeps it if and only if it is no stored status write without reply and no eviction while the informer lags |
| Faults.LostReplyLosesOwnership | internal/controller/appwrapper_controller.go:82-88 | every stored status write whose reply is lost leaves a move that its author cannot vouch for |
| Faults.LostReplyInvitesRepetition | internal/controller/appwrapper_controller.go:82-88 | if the informer still serves the version written over, the author then passes its check on it although the server has moved on |
| Faults.EvictionLosesOwnership | internal/controller/cache.go:86-92 | so does every eviction while the informer lags; the controller then acts on an old version exactly if that version is in a phase of its own |
| Faults.LostReplyBreaksOwnership | internal/controller/appwrapper_controller.go:82-88 | for every spec such a run exists |
| Faults.TimeoutBreaksOwnership | internal/controller/cache.go:86-92 | the same for an eviction after the timeout |
| Faults.DeleteErrorLeaks | internal/controller/resource_manager.go:199-204 | every spec that lets the Runner create something and monitor it has a run that ends in Queued/Idle with a wrapped object left over from a failed deletion |
| Faults.DispatchedUnderDeletion | internal/controller/dispatch_logic.go:85-125 | any AppWrapper that is queued and past its pause can be marked for deletion and dispatched nevertheless |
| Faults.NothingIsCreatedUnderDeletion | internal/controller/runner.go:79-97 | objects are only created on a copy from before the deletion mark, so an AppWrapper marked before it was dispatched has nothing created |
| Reconcilers.Reconciler.GetCached | internal/controller/cache.go:64-69 | reads the phase that the protocol classifies by |
| Reconcilers.Reconciler.IsStale | internal/controller/cache.go:72-107 | verdict and entry are those of the protocol's staleness check; no other entry changes |
| Reconcilers.Reconciler.UpdateStatus | internal/controller/appwrapper_controller.go:69-91 | the local copy always moves on, the server only if the copy was current, the cache only if the server says so |
| Reconcilers.Reconciler.RequeueOrFail | internal/controller/runner.go:207-219 | the phase entered on an error or missing pods, with the same three effects |
| Reconciliation.AnsweredIsRun | internal/controller/dispatcher.go:65-281 | the steps that a call takes are a run of the protocol, so every theorem about runs holds of calls |
| Reconciliation.AnsweredIsUnique | internal/controller/runner.go:62-219 | the replies from the API determine that run and where it comes to rest |
| Reconciliation.Process.ReconcileDispatcher | internal/controller/dispatcher.go:65-223 | a call of the dispatcher's Reconcile leaves server, cache and objects exactly where the protocol's steps, with the same replies from the API, come to rest; no other cache entry changes |
| Reconciliation.Process.ReconcileRunner | internal/controller/runner.go:62-204 | the same for the Runner, creations and deletions item by item included |
| Reconciliation.Process.DispatchSelected | internal/controller/dispatcher.go:260-281 | the same for the dispatching loop over any number of copies of an AppWrapper |
| Reconciliation.Process.CreateResources | internal/controller/resource_manager.go:122-136 | gives up at the first error and prepares the matching fallback; success means all templates parse and all objects exist |
| Reconciliation.Process.DeleteResources | internal/controller/resource_manager.go:190-246 | done exactly if every object still existing is one whose deletion failed, and with forced deletion enabled no pods are left |
| Reconciliation.Process.Enqueue | internal/controller/dispatcher.go:114-126 | finalizers are stored before the first status write, which waits for them |
| Reconciliation.Process.Release | internal/controller/dispatcher.go:99-111 | a controller removes its own finalizer and then its cache entry, the entry only if the update was acknowledged |
| Reconciliation.Process.CheckHealth | internal/controller/runner.go:152-179 | success, missing pods after the grace period, or no change |
| Weights.FitsInIsPointwise | internal/controller/weights.go:116-134 | Fits is pointwise comparison on positive amounts, missing capacity read as zero |
| Weights.Weights.Add | internal/controller/weights.go:61-68 | in-place addition, pointwise, in whatever order entries are visited |
| Weights.Weights.Sub | internal/controller/weights.go:71-78 | in-place subtraction, pointwise |
| Weights.Weights.QuotaSub | internal/controller/weights.go:81-88 | in-place subtraction that leaves undefined entries undefined |
| Weights.Weights.AddProd | internal/controller/weights.go:91-100 | in-place addition of a multiple |
| Weights.Weights.Max | internal/controller/weights.go:103-112 | in-place maximum over the argument's entries |
| Weights.Weights.Fits | internal/controller/weights.go:116-134 | the verdict, and exactly the resources that fall short, each once |
| Weights.Weights.QuotaFits | internal/controller/weights.go:138-156 | the same where the quota is defined |
| Weights.Weights.Clone | internal/controller/weights.go:169-173 | a fresh object with equal amounts |
| Weights.RemoveDuplicates | internal/controller/weights.go:256-266 | the same names, each once, in the order of first occurrence |
| Listings.AggregateTotal | internal/controller/dispatch_logic.go:260-279 | the aggregate is the sum over items of replicas times amount |
| Listings.AskTotals | internal/controller/quota_tracker.go:112-116 | what is compared to capacity is the sum of requests, and what a quota counts the sums of requests and of limits, each times the replicas |
| Listings.Aggregate | internal/controller/dispatch_logic.go:260-279 | the loops compute it |
| Listings.PodAmountsAreLeast | internal/controller/weights.go:43-58 | apart from overhead, a pod counts for the least amount that covers its containers together and each init container alone |
| Listings.WeightsForPod | internal/controller/weights.go:43-58 | the loops compute it, for requests and for limits |
| Listings.PodsTotalIsSum | internal/controller/dispatch_logic.go:111-115 | the total is the sum over exactly the pods that are placed and not terminated, or over all |
| Listings.ReservationIsLarger | internal/controller/dispatch_logic.go:102-118 | a reservation is the request or what such pods occupy, whichever is more |
| Listings.ClassificationMeans | internal/controller/cache.go:64-69 | an AppWrapper goes by the cached phase if the cache is ahead of the listing and by the listed phase otherwise; it waits if that is Queued/Idle and its pause is over |
| Priorities.AssertPriorities | internal/controller/dispatch_logic.go:282-293 | in place and for any key set, each level becomes the sum of the old amounts of all levels from it upwards |
| Ordering.BeforeIsStrictTotal | internal/controller/dispatch_logic.go:143-158 | the comparator is a strict total order on distinct UIDs |
| Ordering.LessUidIsLexicographic | internal/controller/dispatch_logic.go:157 | UIDs are compared at the first difference, a prefix coming first |
| Ordering.SortedIsInDispatchOrder | internal/controller/dispatch_logic.go:143-158 | sorted means: higher priority first, then earlier creation, then smaller UID |
| Ordering.SortQueue | internal/controller/dispatch_logic.go:143-158 | a permutation in that order |
| Ordering.SortedIsUnique | internal/controller/dispatch_logic.go:143-158 | there is only one |
| Queue.LevelsExchange | internal/controller/dispatch_logic.go:98-118 | adding up level by level or AppWrapper by AppWrapper is the same |
| Queue.ReservedMeans | internal/controller/dispatch_logic.go:85-118 | a level adds up the reservations of exactly the AppWrappers of the cluster that do not go by an idle phase and have its priority or a higher one |
| Queue.BuildQueue | internal/controller/dispatch_logic.go:79-160 | each level holds what all AppWrappers of its priority or higher reserve; the queue holds exactly the AppWrappers of the cluster that go by Queued/Idle and whose pause is over, in dispatch order; fails exactly if pods cannot be listed |
| Quotas.MeaningIsUnique | internal/controller/quota_tracker.go:128-149 | the bounds meant by a resource list do not depend on iteration order |
| Quotas.BoundsOf | internal/controller/quota_tracker.go:128-149 | limits of t are bounded by the entry limits.t, requests of t by the smaller of requests.t and, unless it has such a prefix itself, t |
| Quotas.PairOfResourceList | internal/controller/quota_tracker.go:128-149 | the least of `xxx` and `requests.xxx`, and `limits.xxx`, whatever the order |
| Quotas.AdmissionIsExact | internal/controller/quota_tracker.go:75-99 | an ask passes exactly if used + unadmitted + granted + ask stays within every bound it draws on |
| Quotas.QuotaTracker.Satisfies | internal/controller/quota_tracker.go:75-99 | the verdict and exactly the resources that exceed what is left in requests or limits; starts tracking a new quota and leaves every tracked value as it was |
| Quotas.QuotaTracker.Allocate | internal/controller/quota_tracker.go:103-109 | adds the ask to what the namespace was granted, or fails and changes nothing |
| Unadmitted.FlooredIsLargestSuffix | internal/controller/dispatcher.go:372-405 | a running sum cut at zero is the largest suffix sum |
| Unadmitted.FlooredIsSum | internal/controller/dispatcher.go:372-405 | it is the exact sum just when no prefix sum is negative |
| Unadmitted.OutstandingMeans | internal/controller/dispatcher.go:376-397 | an AppWrapper is counted in its own namespace exactly if it does not go by an idle phase, with its ask minus the sum over all its pods |
| Unadmitted.UnadmittedPodsWeights | internal/controller/dispatcher.go:372-405 | the loop accounts, for every namespace, dimension and resource, for exactly that running sum of ask minus created |
| Unadmitted.ClosedForm | internal/controller/dispatcher.go:372-405 | its closed form, its bounds on both sides, and when it is exact |
| Unadmitted.ExactWithoutExcess | internal/controller/dispatcher.go:372-405 | without excess pods it is the plain sum, for every listing order |
| Unadmitted.OrderMattersExactly | internal/controller/dispatcher.go:372-405 | the listing order is irrelevant for a namespace, dimension and resource if and only if no two of its dispatched AppWrappers have outstanding amounts of opposite sign; the amount is then the plain sum, cut at zero once |
| Unadmitted.OrderMattersWithExcess | internal/controller/dispatcher.go:400-402 | two AppWrappers, one with more pods than it asked for: listed in one order nothing is unadmitted, in the other three units are |
| Selection.ConsiderOne | internal/controller/dispatch_logic.go:208-253 | one turn of the loop on the mutable levels and tracker |
| Selection.SelectForCluster | internal/controller/dispatch_logic.go:175-254 | levels open with capacity minus reservations, then the loop runs over the sorted queue; fails exactly if something cannot be listed |
| Selection.SelectForDispatch | internal/controller/dispatch_logic.go:163-257 | cluster after cluster, with tracker, selection and decisions carried over |
| Capacity.Conservation | internal/controller/dispatch_logic.go:208-235 | at every point of the loop a level is what it opened with minus the requests selected at its priority or higher |
| Capacity.CapacityIsConserved | internal/controller/dispatch_logic.go:188-235 | capacity = left + reserved + selected, per level and resource |
| Capacity.CapacityIsNotExceeded | internal/controller/dispatch_logic.go:188-253 | no level is overdrawn in a resource that a job selected there asked for, whatever the signs of other requests |
| Capacity.PriorityNonInterference | internal/controller/dispatch_logic.go:142-235 | the selection at priority p and above depends only on the AppWrappers of priority p and above |
| Capacity.LowPrioritiesCanBeDeleted | internal/controller/dispatch_logic.go:142-235 | deleting all lower priorities, queued or reserved, leaves it unchanged |
| Capacity.ListOrderIndependence | internal/controller/dispatch_logic.go:79-160 | selection, tracker and decisions of a cluster do not depend on listing order |
| Capacity.CycleOrderIndependence | internal/controller/dispatch_logic.go:163-257 | nor do those of a cycle over all clusters |
| Allowance.AdmittedIsWithinQuota | internal/controller/quota_tracker.go:75-99 | the verdict in terms of the listed quota |
| Allowance.QuotaIsNotExceeded | internal/controller/dispatch_logic.go:217-229 | over a whole cycle, used + unadmitted + selected stays within every bound that a positive selected ask draws on, requests and limits alike |
| Allowance.DecisionIsExact | internal/controller/dispatch_logic.go:224-252 | refused for resources exactly if the request does not fit, for quota exactly if it fits and the quota does not admit it, selected otherwise |
| Allowance.SelectionIsMaximal | internal/controller/dispatch_logic.go:208-253 | whoever is not selected would be refused again, for the recorded reason, by what is left at the end |
| Cycle.ClassificationIsSafe | internal/controller/dispatch_logic.go:90-124 | an AppWrapper not idle on the server is counted as reserving, one taken for waiting is queued on the server, however far the listing lags |
| Cycle.NoDoubleBooking | internal/controller/dispatch_logic.go:85-125 | what AppWrappers active on the server ask for or their pods occupy, and what is selected, fit the capacity together; whatever is selected is queued on the server |
| Cycle.DemandIsSafe | internal/controller/dispatcher.go:378-380 | an AppWrapper not idle on the server is counted in the demand of its own namespace and no other, however far the listing lags |
| Cycle.DemandIsNotForgotten | internal/controller/dispatcher.go:372-405 | the unadmitted demand of a namespace is at least what AppWrappers active on the server have yet to create, if none exceeds its ask |
| Cycle.NoQuotaOverrun | internal/controller/dispatcher.go:246-257 | so used, what active AppWrappers have yet to create, and what a cycle selects stay together within every bound that a selected ask draws on |
| Cycle.NobodyIsForgotten | internal/controller/dispatch_logic.go:163-257 | every waiting AppWrapper of a cluster is selected or has a decision that still holds at the end |
| Cycle.SelectCycle | internal/controller/dispatcher.go:246-257 | tracker, unadmitted demand and selection together keep every quota |
| Template.WalkDescends | internal/controller/resource_manager.go:44-77 | although the walk plants nodes, every node it visits next is lower than the one it came from |
| Template.FixMap | internal/controller/resource_manager.go:44-77 | planting, replacing and visiting in any order yields the placeholder-free rewrite |
| Template.FixArray | internal/controller/resource_manager.go:80-90 | the same for arrays |
| Template.Idempotent | internal/controller/resource_manager.go:44-90 | applying the rewrite twice is applying it once |
| Places.RewriteIsAsDescribed | internal/controller/resource_manager.go:44-90 | at every path: owner labels hold the owner, pods have metadata and labels, every other surviving place is unchanged, nothing else is there |
| Places.RewriteIsTheOnlyOne | internal/controller/resource_manager.go:44-90 | a tree is the rewrite exactly if it is so at every path |
| Places.EveryPodIsLabelled | internal/controller/resource_manager.go:45-60 | every node with spec.containers carries both labels of the owner |
| Places.EveryOwnerIsReal | internal/controller/resource_manager.go:61-67 | labels that name an owner name this one, with its namespace |
| Places.NoPlaceholderSurvives | internal/controller/resource_manager.go:58 | a placeholder in the result was there before, or is the owner's name |

## Left out

- Multi-cluster hand-off (binding policies, serialized status, mirroring) depends on KubeStellar, which is not part of this model; only the cluster filter of the queue is kept.
- The legacy finalizer of release 2.2 (`internal/controller/runner.go:99-109`): no AppWrapper in the model carries it.
- Manager set-up, watches, event channels, requeue delays, metrics, logging and message texts; of a queuing decision only the reason is kept.
- JSON decoding, the namespace comparison of `parseResource`, and the matching of completion conditions in `isSuccessful`: whether a template parses and whether a job has succeeded are inputs.
- Cluster capacity, pods, quotas and listings are inputs of a cycle; a cycle reads pods and quotas once and uses one instant for all pause comparisons.
- Integer widths: transition counts, restarts and quantities are unbounded (the source has `int32` counts and arbitrary-precision quantities).
- Protocol.Exec: a status write uses the time of the reconciliation it belongs to, where the code reads the clock again; pods of a wrapped object are not tracked, and forced deletions are folded into the environment's deletions.
- User edits of finalizers and of the spec are excluded; an edit of anything else is the step Touch.
- A restarted controller starts from the current version with an empty cache.
- Reconciliation.Process.ReconcileDispatcher: runs without interruption between its calls, where `Protocol` allows any interleaving; the same holds for the other methods of the class.
- Template.FixMap: works on values; that the code updates the tree in place, and that decoding yields a tree without sharing, is not captured.
- Reconciliation.Process.DeleteResources: the forced deletions after the delay are left out; whatever they remove vanishes by a step of the environment.
- Priorities.AssertPriorities: amounts are values, so that no two levels share a quantity is not stated.
- Quotas.QuotaTracker.Allocate: the amounts of a tracked quota are values that are replaced, not shared objects that are updated.
- Ordering.SortQueue: an insertion sort stands for the library's sort.
