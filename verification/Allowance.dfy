/**
 What a dispatch cycle does to quotas, and why the selection is maximal.
 */
module Allowance {
  import opened Options
  import opened Lifecycle
  import opened Sums
  import W = Weights
  import opened Listings
  import opened Ordering
  import opened Queue
  import opened Quotas
  import opened Selection
  import opened Capacity

  // ----- the tracker mirrors the listed quotas -----

  /** A listing in a namespace returns quotas of that namespace. */
  ghost predicate WellListed(ctx: Context) {
    forall ns :: QuotaIn(ctx, ns).Some? ==> QuotaIn(ctx, ns).value.namespace == ns
  }

  /** Every tracked quota is the one listed in its namespace. */
  ghost predicate Genuine(ctx: Context, t: Tracker) {
    forall ns :: ns in t.state ==>
      && QuotaIn(ctx, ns).Some?
      && t.state[ns].quota == Meaning(QuotaIn(ctx, ns).value.hard)
      && t.state[ns].used == Meaning(QuotaIn(ctx, ns).value.used)
  }

  function GrantedAt(t: Tracker, ns: string, limits: bool, k: string): int {
    if ns in t.state then W.At(W.Part(t.state[ns].granted, limits), k) else 0
  }

  /** Committed elsewhere: used according to the quota, or dispatched but not yet
      admitted. */
  function CommittedAt(ctx: Context, t: Tracker, ns: string, limits: bool, k: string): int
    requires QuotaIn(ctx, ns).Some?
  {
    W.At(W.Part(Meaning(QuotaIn(ctx, ns).value.used), limits), k) + W.At(W.Part(W.PairAt(t.unadmitted, ns), limits), k)
  }

  function BoundOf(ctx: Context, ns: string, limits: bool): W.Amounts
    requires QuotaIn(ctx, ns).Some?
  {
    W.Part(Meaning(QuotaIn(ctx, ns).value.hard), limits)
  }

  function AskAt(aw: Listed, limits: bool, k: string): int {
    W.At(W.Part(Ask(aw), limits), k)
  }

  /** The quota check in terms of the listing: a positive ask of a resource that
      the quota bounds must fit on top of everything committed and granted. */
  ghost predicate WithinQuota(ctx: Context, t: Tracker, aw: Listed) {
    QuotaIn(ctx, aw.namespace).Some? ==>
      forall limits: bool, k: string ::
        AskAt(aw, limits, k) > 0 && k in BoundOf(ctx, aw.namespace, limits) ==>
          CommittedAt(ctx, t, aw.namespace, limits, k) + GrantedAt(t, aw.namespace, limits, k) + AskAt(aw, limits, k)
          <= BoundOf(ctx, aw.namespace, limits)[k]
  }

  lemma {:induction false} TrackedQuota(ctx: Context, t: Tracker, ns: string)
    requires WellListed(ctx) && Genuine(ctx, t) && QuotaIn(ctx, ns).Some?
    ensures var rq := QuotaIn(ctx, ns).value;
      var t' := Track(t, rq);
      && rq.namespace == ns && ns in t'.state
      && t'.state[ns].quota == Meaning(rq.hard) && t'.state[ns].used == Meaning(rq.used)
      && t'.unadmitted == t.unadmitted
      && (forall limits: bool, k: string :: W.At(W.Part(t'.state[ns].granted, limits), k) == GrantedAt(t, ns, limits, k))
  {
  }

  /** Asking the tracker is asking the listed quota. */
  lemma {:induction false} AdmittedIsWithinQuota(ctx: Context, t: Tracker, aw: Listed)
    requires WellListed(ctx) && Genuine(ctx, t)
    ensures Admitted(ctx, t, aw) <==> WithinQuota(ctx, t, aw)
  {
    var ns := aw.namespace;
    if QuotaIn(ctx, ns).Some? {
      TrackedQuota(ctx, t, ns);
      AdmissionIsExact(Track(t, QuotaIn(ctx, ns).value), ns, Ask(aw));
    }
  }

  // ----- quota safety -----

  function AskIn(ns: string, limits: bool, k: string): Listed -> int {
    (aw: Listed) => if aw.namespace == ns then AskAt(aw, limits, k) else 0
  }

  predicate AskedIn(selected: seq<Listed>, ns: string, limits: bool, k: string) {
    exists i :: 0 <= i < |selected| && selected[i].namespace == ns && AskAt(selected[i], limits, k) > 0
  }

  /** One namespace, dimension and resource: exactly the selected asks have been
      granted, and once a positive one was, the bound holds. */
  ghost predicate SafeAt(ctx: Context, t: Tracker, selected: seq<Listed>, ns: string, limits: bool, k: string) {
    QuotaIn(ctx, ns).Some? ==>
      && GrantedAt(t, ns, limits, k) == Sum(selected, AskIn(ns, limits, k))
      && (AskedIn(selected, ns, limits, k) && k in BoundOf(ctx, ns, limits) ==>
            CommittedAt(ctx, t, ns, limits, k) + GrantedAt(t, ns, limits, k) <= BoundOf(ctx, ns, limits)[k])
  }

  ghost predicate QuotaSafe(ctx: Context, t: Tracker, selected: seq<Listed>) {
    && Genuine(ctx, t)
    && forall ns: string, limits: bool, k: string :: SafeAt(ctx, t, selected, ns, limits, k)
  }

  lemma {:induction false} AskedKeepsSafe(ctx: Context, t: Tracker, selected: seq<Listed>, aw: Listed)
    requires WellListed(ctx) && QuotaSafe(ctx, t, selected)
    ensures QuotaSafe(ctx, Asked(ctx, t, aw), selected)
    ensures Asked(ctx, t, aw).unadmitted == t.unadmitted
  {
    var t' := Asked(ctx, t, aw);
    forall ns: string, limits: bool, k: string
      ensures SafeAt(ctx, t', selected, ns, limits, k)
    {
      assert SafeAt(ctx, t, selected, ns, limits, k);
      assert GrantedAt(t', ns, limits, k) == GrantedAt(t, ns, limits, k);
    }
  }

  lemma {:induction false} GrantedChange(ctx: Context, t: Tracker, aw: Listed, ns: string, limits: bool, k: string)
    requires WellListed(ctx) && QuotaIn(ctx, ns).Some?
    ensures GrantedAt(Granted(ctx, t, aw), ns, limits, k) == GrantedAt(t, ns, limits, k) + AskIn(ns, limits, k)(aw)
    ensures Granted(ctx, t, aw).unadmitted == t.unadmitted
  {
  }

  lemma {:induction false} GrantedStaysGenuine(ctx: Context, t: Tracker, aw: Listed)
    requires WellListed(ctx) && Genuine(ctx, t)
    ensures Genuine(ctx, Granted(ctx, t, aw))
  {
  }

  lemma {:induction false} AskedSnoc(selected: seq<Listed>, aw: Listed, ns: string, limits: bool, k: string)
    ensures AskedIn(selected + [aw], ns, limits, k) <==>
      AskedIn(selected, ns, limits, k) || (aw.namespace == ns && AskAt(aw, limits, k) > 0)
  {
    var all := selected + [aw];
    assert all[|selected|] == aw;
    assert forall i :: 0 <= i < |selected| ==> all[i] == selected[i];
  }

  lemma {:induction false} GrantedIsSafeAt(ctx: Context, t: Tracker, selected: seq<Listed>, aw: Listed, ns: string, limits: bool, k: string)
    requires WellListed(ctx) && SafeAt(ctx, t, selected, ns, limits, k) && WithinQuota(ctx, t, aw)
    ensures SafeAt(ctx, Granted(ctx, t, aw), selected + [aw], ns, limits, k)
  {
    if QuotaIn(ctx, ns).Some? {
      GrantedChange(ctx, t, aw, ns, limits, k);
      SumSnoc(selected, aw, AskIn(ns, limits, k));
      AskedSnoc(selected, aw, ns, limits, k);
    }
  }

  lemma {:induction false} GrantedKeepsSafe(ctx: Context, t: Tracker, selected: seq<Listed>, aw: Listed)
    requires WellListed(ctx) && QuotaSafe(ctx, t, selected) && WithinQuota(ctx, t, aw)
    ensures QuotaSafe(ctx, Granted(ctx, t, aw), selected + [aw])
  {
    GrantedStaysGenuine(ctx, t, aw);
    forall ns: string, limits: bool, k: string
      ensures SafeAt(ctx, Granted(ctx, t, aw), selected + [aw], ns, limits, k)
    {
      assert SafeAt(ctx, t, selected, ns, limits, k);
      GrantedIsSafeAt(ctx, t, selected, aw, ns, limits, k);
    }
  }

  lemma {:induction false} ConsiderKeepsSafe(ctx: Context, st: Progress, aw: Listed)
    requires aw.priority in st.available && WellListed(ctx) && QuotaSafe(ctx, st.tracker, st.selected)
    ensures var r := Consider(ctx, st, aw); QuotaSafe(ctx, r.tracker, r.selected)
  {
    AskedKeepsSafe(ctx, st.tracker, st.selected, aw);
    AdmittedIsWithinQuota(ctx, st.tracker, aw);
    if Admitted(ctx, st.tracker, aw) {
      GrantedKeepsSafe(ctx, st.tracker, st.selected, aw);
    }
  }

  lemma {:induction false} ConsiderAllKeepsSafe(ctx: Context, st: Progress, queue: seq<Listed>)
    requires Covered(st.available, queue) && WellListed(ctx) && QuotaSafe(ctx, st.tracker, st.selected)
    ensures var r := ConsiderAll(ctx, st, queue); QuotaSafe(ctx, r.tracker, r.selected)
  {
    if queue != [] {
      ConsiderAllKeepsSafe(ctx, st, queue[..|queue| - 1]);
      assert queue[|queue| - 1].priority in st.available;
      ConsiderKeepsSafe(ctx, ConsiderAll(ctx, st, queue[..|queue| - 1]), queue[|queue| - 1]);
    }
  }

  lemma {:induction false} CycleKeepsSafe(ctx: Context, aws: seq<Listed>, clusters: seq<Cluster>, sts: seq<Progress>, n: nat)
    requires CycleSteps(ctx, aws, clusters, sts) && n <= |clusters|
    requires WellListed(ctx) && QuotaSafe(ctx, sts[0].tracker, sts[0].selected)
    ensures QuotaSafe(ctx, sts[n].tracker, sts[n].selected)
  {
    if n > 0 {
      CycleKeepsSafe(ctx, aws, clusters, sts, n - 1);
      assert CycleStepAt(ctx, aws, clusters, sts, n - 1);
      var st := sts[n - 1].(available := map[]);
      var a, queue :| ClusterStepOn(ctx, aws, clusters[n - 1], st, a, queue, sts[n]);
      ConsiderAllKeepsSafe(ctx, st.(available := a), queue);
    }
  }

  lemma {:induction false} TurnKeepsUnadmitted(ctx: Context, st: Progress, aw: Listed)
    requires aw.priority in st.available
    ensures Consider(ctx, st, aw).tracker.unadmitted == st.tracker.unadmitted
  {
  }

  lemma {:induction false} UnadmittedIsFixed(ctx: Context, st: Progress, queue: seq<Listed>)
    requires Covered(st.available, queue)
    ensures ConsiderAll(ctx, st, queue).tracker.unadmitted == st.tracker.unadmitted
  {
    if queue != [] {
      UnadmittedIsFixed(ctx, st, queue[..|queue| - 1]);
      assert queue[|queue| - 1].priority in st.available;
      TurnKeepsUnadmitted(ctx, ConsiderAll(ctx, st, queue[..|queue| - 1]), queue[|queue| - 1]);
    }
  }

  lemma {:induction false} CycleUnadmitted(ctx: Context, aws: seq<Listed>, clusters: seq<Cluster>, sts: seq<Progress>, n: nat)
    requires CycleSteps(ctx, aws, clusters, sts) && n <= |clusters|
    ensures sts[n].tracker.unadmitted == sts[0].tracker.unadmitted
  {
    if n > 0 {
      CycleUnadmitted(ctx, aws, clusters, sts, n - 1);
      assert CycleStepAt(ctx, aws, clusters, sts, n - 1);
      var st := sts[n - 1].(available := map[]);
      var a, queue :| ClusterStepOn(ctx, aws, clusters[n - 1], st, a, queue, sts[n]);
      UnadmittedIsFixed(ctx, st.(available := a), queue);
    }
  }

  /** Over a whole cycle, across clusters: in every namespace with a quota, once
      a positive amount of a bounded resource has been selected, what the quota
      reports as used, what is dispatched but unadmitted, and everything
      selected in the cycle stay together within the bound; requests and limits
      alike. */
  lemma {:induction false} QuotaIsNotExceeded(ctx: Context, aws: seq<Listed>, clusters: seq<Cluster>, sts: seq<Progress>,
                           unadmitted: map<string, W.Pair>, ns: string, limits: bool, k: string)
    requires CycleSteps(ctx, aws, clusters, sts) && WellListed(ctx)
    requires sts[0].tracker == Tracker(map[], unadmitted) && sts[0].selected == []
    requires QuotaIn(ctx, ns).Some? && k in BoundOf(ctx, ns, limits)
    ensures var selected := sts[|clusters|].selected;
      AskedIn(selected, ns, limits, k) ==>
        CommittedAt(ctx, Tracker(map[], unadmitted), ns, limits, k) + Sum(selected, AskIn(ns, limits, k)) <= BoundOf(ctx, ns, limits)[k]
  {
    var last := sts[|clusters|];
    assert QuotaSafe(ctx, sts[0].tracker, []);
    CycleKeepsSafe(ctx, aws, clusters, sts, |clusters|);
    CycleUnadmitted(ctx, aws, clusters, sts, |clusters|);
    assert SafeAt(ctx, last.tracker, last.selected, ns, limits, k);
  }

  // ----- decisions -----

  function DecisionFor(st: Progress, uid: string): Option<Reason> {
    if uid in st.decisions then Some(st.decisions[uid]) else None
  }

  predicate NoneHasUid(queue: seq<Listed>, uid: string) {
    forall j :: 0 <= j < |queue| ==> queue[j].uid != uid
  }

  /** Turns of other AppWrappers do not touch a decision. */
  lemma {:induction false} OthersDoNotDecide(ctx: Context, st: Progress, queue: seq<Listed>, uid: string)
    requires Covered(st.available, queue) && NoneHasUid(queue, uid)
    ensures DecisionFor(ConsiderAll(ctx, st, queue), uid) == DecisionFor(st, uid)
  {
    if queue != [] {
      OthersDoNotDecide(ctx, st, queue[..|queue| - 1], uid);
      assert queue[|queue| - 1].priority in st.available;
    }
  }

  /** The three parts of the loop: before, at and after the turn of x. */
  lemma {:induction false} LoopParts(ctx: Context, st: Progress, before: seq<Listed>, x: Listed, after: seq<Listed>)
    requires Covered(st.available, before + ([x] + after))
    ensures Covered(st.available, before) && Covered(st.available, after) && x.priority in st.available
    ensures ConsiderAll(ctx, st, before + ([x] + after)) == ConsiderAll(ctx, Consider(ctx, ConsiderAll(ctx, st, before), x), after)
  {
    CoveredParts(st.available, before, [x] + after);
    CoveredParts(st.available, [x], after);
    assert [x][0] == x;
    var m := ConsiderAll(ctx, st, before);
    ConsiderAllConcat(ctx, st, before, [x] + after);
    ConsiderAllConcat(ctx, m, [x], after);
    assert [x][..0] == [];
    assert ConsiderAll(ctx, m, [x]) == Consider(ctx, ConsiderAll(ctx, m, []), x);
  }

  /** At its turn, an AppWrapper is refused for lack of resources exactly if its
      request does not fit, for lack of quota exactly if its request fits and
      its quota does not admit it, and is selected exactly in the remaining
      case; and that is how it stays. */
  lemma {:induction false} DecisionIsExact(ctx: Context, st: Progress, before: seq<Listed>, x: Listed, after: seq<Listed>)
    requires Covered(st.available, before + ([x] + after))
    requires NoneHasUid(before, x.uid) && NoneHasUid(after, x.uid)
    ensures Covered(st.available, before) && x.priority in st.available
    ensures
      var m := ConsiderAll(ctx, st, before);
      var r := ConsiderAll(ctx, st, before + ([x] + after));
      var fits := W.FitsIn(Requests(x), m.available[x.priority]);
      var admitted := Admitted(ctx, m.tracker, x);
      && (!fits ==> DecisionFor(r, x.uid) == Some(InsufficientResources))
      && (fits && !admitted ==> DecisionFor(r, x.uid) == Some(InsufficientQuota))
      && (fits && admitted ==> m.selected + [x] <= r.selected && DecisionFor(r, x.uid) == DecisionFor(st, x.uid))
  {
    LoopParts(ctx, st, before, x, after);
    OthersDoNotDecide(ctx, st, before, x.uid);
    var m' := Consider(ctx, ConsiderAll(ctx, st, before), x);
    OthersDoNotDecide(ctx, m', after, x.uid);
    SelectionGrows(ctx, m', after);
  }

  // ----- maximality -----

  ghost predicate AsksNonNegative(aw: Listed) {
    forall limits: bool, k: string :: AskAt(aw, limits, k) >= 0
  }

  /** t' grants at least as much as t, against the same quotas. */
  ghost predicate GrantsMore(ctx: Context, t: Tracker, t': Tracker) {
    && Genuine(ctx, t) && Genuine(ctx, t') && t'.unadmitted == t.unadmitted
    && forall ns: string, limits: bool, k: string :: QuotaIn(ctx, ns).Some? ==> GrantedAt(t, ns, limits, k) <= GrantedAt(t', ns, limits, k)
  }

  ghost predicate LeavesLess(a: map<int, W.Amounts>, b: map<int, W.Amounts>) {
    forall p: int, k: string :: p in a && p in b ==> W.At(b[p], k) <= W.At(a[p], k)
  }

  lemma {:induction false} AskedGenuine(ctx: Context, t: Tracker, aw: Listed)
    requires WellListed(ctx) && Genuine(ctx, t)
    ensures GrantsMore(ctx, t, Asked(ctx, t, aw))
  {
  }

  lemma {:induction false} GrantedGrantsMore(ctx: Context, t: Tracker, aw: Listed)
    requires WellListed(ctx) && Genuine(ctx, t) && AsksNonNegative(aw)
    ensures GrantsMore(ctx, t, Granted(ctx, t, aw))
  {
    GrantedStaysGenuine(ctx, t, aw);
    assert Granted(ctx, t, aw).unadmitted == t.unadmitted;
    forall ns: string, limits: bool, k: string | QuotaIn(ctx, ns).Some?
      ensures GrantedAt(t, ns, limits, k) <= GrantedAt(Granted(ctx, t, aw), ns, limits, k)
    {
      GrantedChange(ctx, t, aw, ns, limits, k);
      assert AskAt(aw, limits, k) >= 0;
    }
  }

  lemma {:induction false} ConsiderOnlyTakes(ctx: Context, st: Progress, aw: Listed)
    requires aw.priority in st.available && WellListed(ctx) && Genuine(ctx, st.tracker) && AsksNonNegative(aw)
    ensures var r := Consider(ctx, st, aw);
      GrantsMore(ctx, st.tracker, r.tracker) && LeavesLess(st.available, r.available)
  {
    AskedGenuine(ctx, st.tracker, aw);
    GrantedGrantsMore(ctx, st.tracker, aw);
    DebitLeavesLess(st.available, aw.priority, aw);
  }

  lemma {:induction false} DebitLeavesLess(available: map<int, W.Amounts>, p: int, aw: Listed)
    requires AsksNonNegative(aw)
    ensures LeavesLess(available, Debit(available, p, Requests(aw)))
  {
    forall k
      ensures W.At(Requests(aw), k) >= 0
    {
      assert AskAt(aw, false, k) >= 0;
    }
  }

  lemma {:induction false} LoopOnlyTakes(ctx: Context, st: Progress, queue: seq<Listed>)
    requires Covered(st.available, queue) && WellListed(ctx) && Genuine(ctx, st.tracker)
    requires AllAsk(queue)
    ensures var r := ConsiderAll(ctx, st, queue);
      GrantsMore(ctx, st.tracker, r.tracker) && LeavesLess(st.available, r.available)
  {
    if queue != [] {
      LoopOnlyTakes(ctx, st, queue[..|queue| - 1]);
      assert queue[|queue| - 1].priority in st.available;
      ConsiderOnlyTakes(ctx, ConsiderAll(ctx, st, queue[..|queue| - 1]), queue[|queue| - 1]);
    }
  }

  lemma {:induction false} StillRefused(ctx: Context, m: Progress, r: Progress, x: Listed)
    requires x.priority in m.available && x.priority in r.available && WellListed(ctx)
    requires GrantsMore(ctx, m.tracker, r.tracker) && LeavesLess(m.available, r.available)
    ensures !W.FitsIn(Requests(x), m.available[x.priority]) ==> !W.FitsIn(Requests(x), r.available[x.priority])
    ensures !Admitted(ctx, m.tracker, x) ==> !Admitted(ctx, r.tracker, x)
  {
    W.FitsInIsPointwise(Requests(x), m.available[x.priority]);
    W.FitsInIsPointwise(Requests(x), r.available[x.priority]);
    AdmittedIsWithinQuota(ctx, m.tracker, x);
    AdmittedIsWithinQuota(ctx, r.tracker, x);
  }

  /** What is left at the end is no more, and what is granted no less, than at
      the turn of x. */
  lemma {:induction false} LeftAfterTurn(ctx: Context, st: Progress, before: seq<Listed>, x: Listed, after: seq<Listed>)
    requires Covered(st.available, before + ([x] + after)) && WellListed(ctx) && Genuine(ctx, st.tracker)
    requires forall y :: y in before + ([x] + after) ==> AsksNonNegative(y)
    ensures Covered(st.available, before) && x.priority in st.available
    ensures
      var m := ConsiderAll(ctx, st, before);
      var r := ConsiderAll(ctx, st, before + ([x] + after));
      GrantsMore(ctx, m.tracker, r.tracker) && LeavesLess(m.available, r.available)
  {
    LoopParts(ctx, st, before, x, after);
    PartsAsk(before, [x] + after);
    LoopOnlyTakes(ctx, st, before);
    CoveredParts(st.available, before, [x] + after);
    ConsiderAllConcat(ctx, st, before, [x] + after);
    LoopOnlyTakes(ctx, ConsiderAll(ctx, st, before), [x] + after);
  }

  lemma {:induction false} PartsAsk(a: seq<Listed>, b: seq<Listed>)
    requires forall y :: y in a + b ==> AsksNonNegative(y)
    ensures AllAsk(a) && AllAsk(b)
  {
    forall i | 0 <= i < |a|
      ensures AsksNonNegative(a[i])
    {
      assert a[i] in a + b;
    }
    forall i | 0 <= i < |b|
      ensures AsksNonNegative(b[i])
    {
      assert b[i] in a + b;
    }
  }

  ghost predicate AllAsk(queue: seq<Listed>) {
    forall i {:trigger AsksNonNegative(queue[i])} :: 0 <= i < |queue| ==> AsksNonNegative(queue[i])
  }

  /** Greedy maximality: with non-negative asks, every queued AppWrapper is
      selected or has a decision, and one that is not selected would be refused
      again, for the recorded reason, by what is left at the end. */
  lemma {:induction false} SelectionIsMaximal(ctx: Context, st: Progress, before: seq<Listed>, x: Listed, after: seq<Listed>)
    requires Covered(st.available, before + ([x] + after)) && WellListed(ctx) && Genuine(ctx, st.tracker)
    requires NoneHasUid(before, x.uid) && NoneHasUid(after, x.uid)
    requires forall y :: y in before + ([x] + after) ==> AsksNonNegative(y)
    ensures
      var r := ConsiderAll(ctx, st, before + ([x] + after));
      && x.priority in r.available
      && (|| x in r.selected
          || (DecisionFor(r, x.uid) == Some(InsufficientResources) && !W.FitsIn(Requests(x), r.available[x.priority]))
          || (DecisionFor(r, x.uid) == Some(InsufficientQuota) && !Admitted(ctx, r.tracker, x)))
  {
    DecisionIsExact(ctx, st, before, x, after);
    LeftAfterTurn(ctx, st, before, x, after);
    var m := ConsiderAll(ctx, st, before);
    var r := ConsiderAll(ctx, st, before + ([x] + after));
    StillRefused(ctx, m, r, x);
    if m.selected + [x] <= r.selected {
      assert (m.selected + [x])[|m.selected|] == x;
    }
  }
}
