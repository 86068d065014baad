/**
 getUnadmittedPodsWeights: what dispatched AppWrappers ask for but have not yet
 created. The amount is cut at zero after every AppWrapper, which makes it a
 running sum with a floor rather than a sum.
 */
module Unadmitted {
  import opened Options
  import opened Lifecycle
  import opened Sums
  import W = Weights
  import opened Listings

  // ----- running sums with a floor -----

  function Identity(): int -> int {
    (x: int) => x
  }

  function Total(ds: seq<int>): int {
    Sum(ds, Identity())
  }

  function Floored(ds: seq<int>): int {
    if ds == [] then 0 else W.Larger(0, Floored(ds[..|ds| - 1]) + ds[|ds| - 1])
  }

  lemma {:induction false} TotalSnoc(ds: seq<int>, d: int)
    ensures Total(ds + [d]) == Total(ds) + d
  {
    SumSnoc(ds, d, Identity());
  }

  /** The floored running sum is the largest sum of a suffix, the empty one
      included. */
  lemma {:induction false} FlooredIsLargestSuffix(ds: seq<int>)
    ensures forall j :: 0 <= j <= |ds| ==> Total(ds[j..]) <= Floored(ds)
    ensures exists j :: 0 <= j <= |ds| && Total(ds[j..]) == Floored(ds)
  {
    var n := |ds|;
    if n == 0 {
      assert ds[0..] == [];
    } else {
      var init := ds[..n - 1];
      FlooredIsLargestSuffix(init);
      forall j | 0 <= j < n
        ensures Total(ds[j..]) == Total(init[j..]) + ds[n - 1]
      {
        assert ds[j..] == init[j..] + [ds[n - 1]];
        TotalSnoc(init[j..], ds[n - 1]);
      }
      assert ds[n..] == [];
      var j :| 0 <= j <= |init| && Total(init[j..]) == Floored(init);
      assert Total(ds[if Floored(ds) == 0 then n else j..]) == Floored(ds);
    }
  }

  function CutAtZero(): int -> int {
    (x: int) => W.Larger(0, x)
  }

  /** Between the sum, cut at zero, and the sum of the cut terms. */
  lemma {:induction false} FlooredBounds(ds: seq<int>)
    ensures W.Larger(0, Total(ds)) <= Floored(ds) <= Sum(ds, CutAtZero())
  {
    if ds != [] {
      FlooredBounds(ds[..|ds| - 1]);
    }
  }

  /** It is the exact sum just when no prefix sum is negative. */
  lemma {:induction false} FlooredIsSum(ds: seq<int>)
    ensures Floored(ds) == Total(ds) <==> forall j :: 0 <= j <= |ds| ==> Total(ds[..j]) >= 0
  {
    var n := |ds|;
    FlooredIsLargestSuffix(ds);
    forall j | 0 <= j <= n
      ensures Total(ds) == Total(ds[..j]) + Total(ds[j..])
    {
      SumConcat(ds[..j], ds[j..], Identity());
      assert ds == ds[..j] + ds[j..];
    }
    if forall j :: 0 <= j <= n ==> Total(ds[..j]) >= 0 {
      assert ds[0..] == ds;
      assert Total(ds[0..]) <= Floored(ds);
    }
  }

  // ----- the amounts of one namespace -----

  /** What one AppWrapper asks for beyond what it has created; pods that cannot
      be listed count as not created. */
  function Created(ctx: Context, aw: Listed, limits: bool): W.Amounts {
    var pods := ctx.pods(aw.namespace, aw.name);
    if pods.Some? then PodsTotal(pods.value, limits, true) else map[]
  }

  function Outstanding(ctx: Context, aw: Listed, limits: bool, k: string): int {
    W.At(W.Part(Ask(aw), limits), k) - W.At(Created(ctx, aw, limits), k)
  }

  /** What all pods of an AppWrapper amount to; nothing if they cannot be
      listed. */
  function CreatedTotal(ctx: Context, aw: Listed, limits: bool, k: string): int {
    var pods := ctx.pods(aw.namespace, aw.name);
    if pods.None? then 0 else Sum(pods.value, (pod: Pod) => W.At(PodAmounts(pod, limits), k))
  }

  lemma {:induction false} OutstandingMeans(ctx: Context, aw: Listed, limits: bool, k: string)
    ensures forall ns :: Pending(ctx, aw, ns) <==> aw.namespace == ns && Reserves(ctx, aw)
    ensures W.At(Created(ctx, aw, limits), k) == CreatedTotal(ctx, aw, limits, k)
    ensures Outstanding(ctx, aw, limits, k) == W.At(if limits then Ask(aw).limits else Ask(aw).requests, k) - CreatedTotal(ctx, aw, limits, k)
  {
    var pods := ctx.pods(aw.namespace, aw.name);
    if pods.Some? {
      PodsTotalIsSum(pods.value, limits, true, k);
      SumEqual(pods.value,
        (pod: Pod) => if true || (pod.placed && !pod.terminated) then W.At(PodAmounts(pod, limits), k) else 0,
        (pod: Pod) => W.At(PodAmounts(pod, limits), k));
    }
  }

  predicate Pending(ctx: Context, aw: Listed, ns: string) {
    aw.namespace == ns && PhaseOf(ctx, aw).step != Idle
  }

  /** The outstanding amounts of a namespace, in listing order. */
  function Deltas(ctx: Context, aws: seq<Listed>, ns: string, limits: bool, k: string): seq<int> {
    if aws == [] then []
    else
      var rest := Deltas(ctx, aws[..|aws| - 1], ns, limits, k);
      var aw := aws[|aws| - 1];
      if Pending(ctx, aw, ns) then rest + [Outstanding(ctx, aw, limits, k)] else rest
  }

  /** One iteration for one dimension: add the ask, subtract what is created
      where something is asked for, cut at zero. */
  function NextPart(w: W.Amounts, ask: W.Amounts, created: W.Amounts): W.Amounts {
    W.Upper(map[], W.QuotaMinus(W.Plus(w, ask), created))
  }

  ghost predicate AccountsIn(w: W.Amounts, ctx: Context, aws: seq<Listed>, ns: string, limits: bool) {
    forall k :: W.At(w, k) == Floored(Deltas(ctx, aws, ns, limits, k))
  }

  /** m is exactly what the listing amounts to. */
  ghost predicate Accounts(m: map<string, W.Pair>, ctx: Context, aws: seq<Listed>) {
    forall ns :: AccountsIn(W.PairAt(m, ns).requests, ctx, aws, ns, false) && AccountsIn(W.PairAt(m, ns).limits, ctx, aws, ns, true)
  }

  ghost predicate NonNegative(w: W.Amounts) {
    forall k :: W.At(w, k) >= 0
  }

  /** Pods have no negative amounts. */
  ghost predicate PodsNonNegative(ctx: Context) {
    forall aw: Listed :: NonNegative(Created(ctx, aw, false)) && NonNegative(Created(ctx, aw, true))
  }

  lemma {:induction false} DeltasSnoc(ctx: Context, aws: seq<Listed>, aw: Listed, ns: string, limits: bool, k: string)
    ensures Deltas(ctx, aws + [aw], ns, limits, k)
      == Deltas(ctx, aws, ns, limits, k) + (if Pending(ctx, aw, ns) then [Outstanding(ctx, aw, limits, k)] else [])
  {
    assert (aws + [aw])[..|aws|] == aws;
  }

  lemma {:induction false} NextPartValue(w: W.Amounts, ask: W.Amounts, created: W.Amounts, k: string)
    requires W.At(w, k) >= 0 && W.At(created, k) >= 0
    ensures W.At(NextPart(w, ask, created), k) == W.Larger(0, W.At(w, k) + W.At(ask, k) - W.At(created, k))
  {
    var sum := W.Plus(w, ask);
    assert k in sum ==> sum[k] == W.At(sum, k);
  }

  lemma {:induction false} FlooredNonNegative(ds: seq<int>)
    ensures Floored(ds) >= 0
  {
  }

  lemma {:induction false} OtherNamespaceKept(w: W.Amounts, ctx: Context, aws: seq<Listed>, aw: Listed, ns: string, limits: bool)
    requires AccountsIn(w, ctx, aws, ns, limits) && !Pending(ctx, aw, ns)
    ensures AccountsIn(w, ctx, aws + [aw], ns, limits)
  {
    forall k
      ensures W.At(w, k) == Floored(Deltas(ctx, aws + [aw], ns, limits, k))
    {
      DeltasSnoc(ctx, aws, aw, ns, limits, k);
    }
  }

  lemma {:induction false} FlooredSnoc(ds: seq<int>, d: int)
    ensures Floored(ds + [d]) == W.Larger(0, Floored(ds) + d)
  {
    assert (ds + [d])[..|ds|] == ds;
  }

  lemma {:induction false} NextAmount(w: W.Amounts, ask: W.Amounts, created: W.Amounts, ds: seq<int>, k: string)
    requires W.At(w, k) == Floored(ds) && W.At(created, k) >= 0
    ensures W.At(NextPart(w, ask, created), k) == Floored(ds + [W.At(ask, k) - W.At(created, k)])
  {
    FlooredNonNegative(ds);
    FlooredSnoc(ds, W.At(ask, k) - W.At(created, k));
    NextPartValue(w, ask, created, k);
  }

  lemma {:induction false} NamespaceNext(w: W.Amounts, ctx: Context, aws: seq<Listed>, aw: Listed, ns: string, limits: bool)
    requires AccountsIn(w, ctx, aws, ns, limits) && Pending(ctx, aw, ns) && NonNegative(Created(ctx, aw, limits))
    ensures AccountsIn(NextPart(w, W.Part(Ask(aw), limits), Created(ctx, aw, limits)), ctx, aws + [aw], ns, limits)
  {
    forall k
      ensures W.At(NextPart(w, W.Part(Ask(aw), limits), Created(ctx, aw, limits)), k) == Floored(Deltas(ctx, aws + [aw], ns, limits, k))
    {
      DeltasSnoc(ctx, aws, aw, ns, limits, k);
      NextAmount(w, W.Part(Ask(aw), limits), Created(ctx, aw, limits), Deltas(ctx, aws, ns, limits, k), k);
    }
  }

  /** The map after one more AppWrapper. */
  function NextMap(ctx: Context, m: map<string, W.Pair>, aw: Listed): map<string, W.Pair> {
    if PhaseOf(ctx, aw).step != Idle then
      var w := W.PairAt(m, aw.namespace);
      m[aw.namespace := W.Pair(
        NextPart(w.requests, Ask(aw).requests, Created(ctx, aw, false)),
        NextPart(w.limits, Ask(aw).limits, Created(ctx, aw, true)))]
    else m
  }

  lemma {:induction false} AccountsNext(m: map<string, W.Pair>, ctx: Context, aws: seq<Listed>, aw: Listed)
    requires Accounts(m, ctx, aws) && PodsNonNegative(ctx)
    ensures Accounts(NextMap(ctx, m, aw), ctx, aws + [aw])
  {
    var m' := NextMap(ctx, m, aw);
    forall ns
      ensures AccountsIn(W.PairAt(m', ns).requests, ctx, aws + [aw], ns, false)
      ensures AccountsIn(W.PairAt(m', ns).limits, ctx, aws + [aw], ns, true)
    {
      assert AccountsIn(W.PairAt(m, ns).requests, ctx, aws, ns, false) && AccountsIn(W.PairAt(m, ns).limits, ctx, aws, ns, true);
      if Pending(ctx, aw, ns) {
        assert NonNegative(Created(ctx, aw, false)) && NonNegative(Created(ctx, aw, true));
        NamespaceNext(W.PairAt(m, ns).requests, ctx, aws, aw, ns, false);
        NamespaceNext(W.PairAt(m, ns).limits, ctx, aws, aw, ns, true);
      } else {
        OtherNamespaceKept(W.PairAt(m, ns).requests, ctx, aws, aw, ns, false);
        OtherNamespaceKept(W.PairAt(m, ns).limits, ctx, aws, aw, ns, true);
      }
    }
  }

  /** One dimension of the loop body, on the objects the code updates. */
  method Next(w: W.Amounts, ask: W.Amounts, created: W.Amounts) returns (r: W.Amounts)
    ensures r == NextPart(w, ask, created)
  {
    var sum := new W.Weights(w);
    sum.Add(ask);
    sum.QuotaSub(created);
    var nonNegative := new W.Weights(map[]);
    nonNegative.Max(sum.m);
    r := nonNegative.m;
  }

  method CreatedPods(ctx: Context, aw: Listed, limits: bool) returns (w: W.Amounts)
    ensures w == Created(ctx, aw, limits)
  {
    w := map[];
    var pods := ctx.pods(aw.namespace, aw.name);
    if pods.Some? {
      var total := TotalOfPods(pods.value, limits, true);
      w := total.m;
    }
  }

  /** The loop body. */
  method AccountFor(ctx: Context, m: map<string, W.Pair>, aw: Listed) returns (m': map<string, W.Pair>)
    ensures m' == NextMap(ctx, m, aw)
  {
    m' := m;
    if PhaseOf(ctx, aw).step != Idle {
      var w := if aw.namespace in m then m[aw.namespace] else W.Pair(map[], map[]);
      var askRequests := Aggregate(aw, false);
      var askLimits := Aggregate(aw, true);
      var createdRequests := CreatedPods(ctx, aw, false);
      var createdLimits := CreatedPods(ctx, aw, true);
      var requests := Next(w.requests, askRequests.m, createdRequests);
      var limits := Next(w.limits, askLimits.m, createdLimits);
      m' := m[aw.namespace := W.Pair(requests, limits)];
    }
  }

  /** What the whole listing leaves. */
  function Weighed(ctx: Context, aws: seq<Listed>): map<string, W.Pair> {
    if aws == [] then map[] else NextMap(ctx, Weighed(ctx, aws[..|aws| - 1]), aws[|aws| - 1])
  }

  lemma {:induction false} NothingAccounted(ctx: Context)
    ensures Accounts(map[], ctx, [])
  {
    forall ns: string, limits: bool, k: string
      ensures Floored(Deltas(ctx, [], ns, limits, k)) == 0
    {
    }
  }

  lemma {:induction false} WeighedAccounts(ctx: Context, aws: seq<Listed>)
    requires PodsNonNegative(ctx)
    ensures Accounts(Weighed(ctx, aws), ctx, aws)
  {
    if aws == [] {
      NothingAccounted(ctx);
    } else {
      var init := aws[..|aws| - 1];
      WeighedAccounts(ctx, init);
      AccountsNext(Weighed(ctx, init), ctx, init, aws[|aws| - 1]);
      assert init + [aws[|aws| - 1]] == aws;
    }
  }

  method UnadmittedPodsWeights(ctx: Context, aws: seq<Listed>) returns (m: map<string, W.Pair>)
    ensures m == Weighed(ctx, aws)
    ensures PodsNonNegative(ctx) ==> Accounts(m, ctx, aws)
  {
    m := map[];
    for i := 0 to |aws|
      invariant m == Weighed(ctx, aws[..i])
    {
      assert aws[..i + 1][..i] == aws[..i];
      m := AccountFor(ctx, m, aws[i]);
    }
    assert aws[..|aws|] == aws;
    if PodsNonNegative(ctx) {
      WeighedAccounts(ctx, aws);
    }
  }

  /** The closed form: for every namespace, dimension and resource, the largest
      suffix sum of ask minus created over the namespace's dispatched
      AppWrappers, in listing order; between the sum and the sum of the positive
      terms; and the exact sum just when no prefix sum is negative. */
  lemma {:induction false} ClosedForm(m: map<string, W.Pair>, ctx: Context, aws: seq<Listed>, ns: string, limits: bool, k: string)
    requires Accounts(m, ctx, aws)
    ensures var ds := Deltas(ctx, aws, ns, limits, k);
      var amount := W.At(W.Part(W.PairAt(m, ns), limits), k);
      && (forall j :: 0 <= j <= |ds| ==> Total(ds[j..]) <= amount)
      && (exists j :: 0 <= j <= |ds| && Total(ds[j..]) == amount)
      && W.Larger(0, Total(ds)) <= amount <= Sum(ds, CutAtZero())
      && (amount == Total(ds) <==> forall j :: 0 <= j <= |ds| ==> Total(ds[..j]) >= 0)
  {
    var ds := Deltas(ctx, aws, ns, limits, k);
    FlooredIsLargestSuffix(ds);
    FlooredBounds(ds);
    FlooredIsSum(ds);
    PartAccounts(m, ctx, aws, ns, limits, k);
  }

  lemma {:induction false} PartAccounts(m: map<string, W.Pair>, ctx: Context, aws: seq<Listed>, ns: string, limits: bool, k: string)
    requires Accounts(m, ctx, aws)
    ensures W.At(W.Part(W.PairAt(m, ns), limits), k) == Floored(Deltas(ctx, aws, ns, limits, k))
  {
    assert AccountsIn(W.PairAt(m, ns).requests, ctx, aws, ns, false) && AccountsIn(W.PairAt(m, ns).limits, ctx, aws, ns, true);
  }

  function OutstandingOf(ctx: Context, ns: string, limits: bool, k: string): Listed -> int {
    (aw: Listed) => if Pending(ctx, aw, ns) then Outstanding(ctx, aw, limits, k) else 0
  }

  lemma {:induction false} DeltasTotal(ctx: Context, aws: seq<Listed>, ns: string, limits: bool, k: string)
    ensures Total(Deltas(ctx, aws, ns, limits, k)) == Sum(aws, OutstandingOf(ctx, ns, limits, k))
  {
    if aws != [] {
      var init := aws[..|aws| - 1];
      var aw := aws[|aws| - 1];
      DeltasTotal(ctx, init, ns, limits, k);
      if Pending(ctx, aw, ns) {
        TotalSnoc(Deltas(ctx, init, ns, limits, k), Outstanding(ctx, aw, limits, k));
      }
    }
  }

  // ----- when the listing order matters -----

  /** The running sum over AppWrappers, those of other namespaces counting for
      nothing. */
  function Clamped(aws: seq<Listed>, f: Listed -> int): (r: int)
    ensures r >= 0
  {
    if aws == [] then 0 else W.Larger(0, Clamped(aws[..|aws| - 1], f) + f(aws[|aws| - 1]))
  }

  lemma {:induction false} FlooredIsClamped(ctx: Context, aws: seq<Listed>, ns: string, limits: bool, k: string)
    ensures Floored(Deltas(ctx, aws, ns, limits, k)) == Clamped(aws, OutstandingOf(ctx, ns, limits, k))
  {
    if aws != [] {
      var init := aws[..|aws| - 1];
      var aw := aws[|aws| - 1];
      FlooredIsClamped(ctx, init, ns, limits, k);
      if Pending(ctx, aw, ns) {
        FlooredSnoc(Deltas(ctx, init, ns, limits, k), Outstanding(ctx, aw, limits, k));
      }
    }
  }

  /** After anything, non-negative terms just add up. */
  lemma {:induction false} ClampedUp(a: seq<Listed>, b: seq<Listed>, f: Listed -> int)
    requires forall x :: x in b ==> f(x) >= 0
    ensures Clamped(a + b, f) == Clamped(a, f) + Sum(b, f) && Sum(b, f) >= 0
    decreases |b|
  {
    if b == [] {
      assert a + b == a;
    } else {
      ClampedUp(a, b[..|b| - 1], f);
      assert (a + b)[..|a + b| - 1] == a + b[..|b| - 1];
    }
  }

  /** After anything, terms that are not positive take away what there is. */
  lemma {:induction false} ClampedDown(a: seq<Listed>, b: seq<Listed>, f: Listed -> int)
    requires forall x :: x in b ==> f(x) <= 0
    ensures Clamped(a + b, f) == W.Larger(0, Clamped(a, f) + Sum(b, f)) && Sum(b, f) <= 0
    decreases |b|
  {
    if b == [] {
      assert a + b == a;
    } else {
      ClampedDown(a, b[..|b| - 1], f);
      assert (a + b)[..|a + b| - 1] == a + b[..|b| - 1];
    }
  }

  /** Some terms are positive and some negative. */
  ghost predicate Opposed(aws: seq<Listed>, f: Listed -> int) {
    (exists x :: x in aws && f(x) > 0) && (exists x :: x in aws && f(x) < 0)
  }

  /** Without opposed terms, no order makes a difference. */
  lemma {:induction false} ClampedIsStable(aws: seq<Listed>, aws': seq<Listed>, f: Listed -> int)
    requires multiset(aws) == multiset(aws') && !Opposed(aws, f)
    ensures Clamped(aws', f) == W.Larger(0, Sum(aws, f))
  {
    assert forall x :: x in aws' ==> x in multiset(aws);
    SumPermutation(aws, aws', f);
    assert [] + aws' == aws';
    if exists x :: x in aws && f(x) > 0 {
      ClampedUp([], aws', f);
    } else {
      ClampedDown([], aws', f);
    }
  }

  /** The terms of either kind, in order. */
  function Sift(aws: seq<Listed>, f: Listed -> int, negative: bool): seq<Listed> {
    if aws == [] then []
    else
      var rest := Sift(aws[..|aws| - 1], f, negative);
      var aw := aws[|aws| - 1];
      if (f(aw) < 0) == negative then rest + [aw] else rest
  }

  lemma {:induction false} SiftMembers(aws: seq<Listed>, f: Listed -> int)
    ensures multiset(Sift(aws, f, true)) + multiset(Sift(aws, f, false)) == multiset(aws)
    ensures forall negative: bool, x :: x in Sift(aws, f, negative) ==> (f(x) < 0) == negative
  {
    if aws != [] {
      var init, aw := aws[..|aws| - 1], aws[|aws| - 1];
      SiftMembers(init, f);
      assert aws == init + [aw];
      assert multiset(aws) == multiset(init) + multiset{aw};
      assert Sift(aws, f, f(aw) < 0) == Sift(init, f, f(aw) < 0) + [aw];
      assert Sift(aws, f, f(aw) >= 0) == Sift(init, f, f(aw) >= 0);
    }
  }

  lemma {:induction false} SumIsPositive(aws: seq<Listed>, x: Listed, f: Listed -> int)
    requires x in aws && f(x) > 0 && forall y :: y in aws ==> f(y) >= 0
    ensures Sum(aws, f) > 0
  {
    var i :| 0 <= i < |aws| && aws[i] == x;
    SumRemove(aws, i, f);
    ClampedUp([], aws[..i] + aws[i + 1..], f);
  }

  lemma {:induction false} SumIsNegative(aws: seq<Listed>, x: Listed, f: Listed -> int)
    requires x in aws && f(x) < 0 && forall y :: y in aws ==> f(y) <= 0
    ensures Sum(aws, f) < 0
  {
    var i :| 0 <= i < |aws| && aws[i] == x;
    SumRemove(aws, i, f);
    ClampedDown([], aws[..i] + aws[i + 1..], f);
  }

  lemma {:induction false} UpAndDown(up: seq<Listed>, down: seq<Listed>, f: Listed -> int)
    requires forall x :: x in up ==> f(x) >= 0
    requires forall x :: x in down ==> f(x) < 0
    ensures Clamped(down + up, f) == Sum(up, f)
    ensures Clamped(up + down, f) == W.Larger(0, Sum(up, f) + Sum(down, f))
  {
    assert [] + down == down && [] + up == up;
    ClampedDown([], down, f);
    ClampedUp(down, up, f);
    ClampedUp([], up, f);
    ClampedDown(up, down, f);
  }

  /** With opposed terms, the negative ones first and the negative ones last
      make a difference. */
  lemma {:induction false} ClampedDiffers(up: seq<Listed>, down: seq<Listed>, x: Listed, y: Listed, f: Listed -> int)
    requires forall z :: z in up ==> f(z) >= 0
    requires forall z :: z in down ==> f(z) < 0
    requires x in up && f(x) > 0 && y in down
    ensures Clamped(up + down, f) < Clamped(down + up, f)
  {
    SumIsPositive(up, x, f);
    SumIsNegative(down, y, f);
    UpAndDown(up, down, f);
  }

  lemma {:induction false} SiftedMember(aws: seq<Listed>, f: Listed -> int, x: Listed)
    requires x in aws
    ensures x in Sift(aws, f, f(x) < 0)
  {
    SiftMembers(aws, f);
    assert x in multiset(aws);
    assert x in multiset(Sift(aws, f, true)) || x in multiset(Sift(aws, f, false));
  }

  /** So some two orders of opposed AppWrappers differ. */
  lemma {:induction false} OrdersDiffer(aws: seq<Listed>, f: Listed -> int) returns (a: seq<Listed>, b: seq<Listed>)
    requires Opposed(aws, f)
    ensures multiset(a) == multiset(b) == multiset(aws)
    ensures Clamped(a, f) < Clamped(b, f)
  {
    var down, up := Sift(aws, f, true), Sift(aws, f, false);
    var x :| x in aws && f(x) > 0;
    var y :| y in aws && f(y) < 0;
    SiftedMember(aws, f, x);
    SiftedMember(aws, f, y);
    SiftMembers(aws, f);
    ClampedDiffers(up, down, x, y, f);
    a, b := up + down, down + up;
  }

  /** What getUnadmittedPodsWeights finds for a namespace, dimension and
      resource. */
  function Amount(ctx: Context, aws: seq<Listed>, ns: string, limits: bool, k: string): int {
    W.At(W.Part(W.PairAt(Weighed(ctx, aws), ns), limits), k)
  }

  lemma {:induction false} AmountIsClamped(ctx: Context, aws: seq<Listed>, ns: string, limits: bool, k: string)
    requires PodsNonNegative(ctx)
    ensures Amount(ctx, aws, ns, limits, k) == Clamped(aws, OutstandingOf(ctx, ns, limits, k))
  {
    WeighedAccounts(ctx, aws);
    PartAccounts(Weighed(ctx, aws), ctx, aws, ns, limits, k);
    FlooredIsClamped(ctx, aws, ns, limits, k);
  }

  /** Every order of the listing gives the same amount. */
  ghost predicate OrderIsIrrelevant(ctx: Context, aws: seq<Listed>, ns: string, limits: bool, k: string) {
    forall aws' :: multiset(aws') == multiset(aws) ==> Amount(ctx, aws', ns, limits, k) == Amount(ctx, aws, ns, limits, k)
  }

  /** Some dispatched AppWrapper of the namespace asks for more than it has
      created, and another has created more than it asks for. */
  ghost predicate Unbalanced(ctx: Context, aws: seq<Listed>, ns: string, limits: bool, k: string) {
    && (exists aw :: aw in aws && Pending(ctx, aw, ns) && Outstanding(ctx, aw, limits, k) > 0)
    && (exists aw :: aw in aws && Pending(ctx, aw, ns) && Outstanding(ctx, aw, limits, k) < 0)
  }

  /** The listing order is irrelevant exactly if no two dispatched AppWrappers of
      the namespace have outstanding amounts of opposite sign; the amount is then
      the plain sum, cut at zero once. */
  lemma {:induction false} OrderMattersExactly(ctx: Context, aws: seq<Listed>, ns: string, limits: bool, k: string)
    requires PodsNonNegative(ctx)
    ensures OrderIsIrrelevant(ctx, aws, ns, limits, k) <==> !Unbalanced(ctx, aws, ns, limits, k)
    ensures !Unbalanced(ctx, aws, ns, limits, k) ==>
      Amount(ctx, aws, ns, limits, k) == W.Larger(0, Sum(aws, OutstandingOf(ctx, ns, limits, k)))
  {
    var f := OutstandingOf(ctx, ns, limits, k);
    OpposedIsUnbalanced(ctx, aws, ns, limits, k);
    if Opposed(aws, f) {
      var a, b := OrdersDiffer(aws, f);
      AmountIsClamped(ctx, a, ns, limits, k);
      AmountIsClamped(ctx, b, ns, limits, k);
      assert Amount(ctx, a, ns, limits, k) < Amount(ctx, b, ns, limits, k);
    } else {
      forall aws' | multiset(aws') == multiset(aws)
        ensures Amount(ctx, aws', ns, limits, k) == W.Larger(0, Sum(aws, f))
      {
        AmountIsClamped(ctx, aws', ns, limits, k);
        ClampedIsStable(aws, aws', f);
      }
    }
  }

  lemma {:induction false} OpposedIsUnbalanced(ctx: Context, aws: seq<Listed>, ns: string, limits: bool, k: string)
    ensures Opposed(aws, OutstandingOf(ctx, ns, limits, k)) <==> Unbalanced(ctx, aws, ns, limits, k)
  {
    var f := OutstandingOf(ctx, ns, limits, k);
    forall aw
      ensures f(aw) > 0 <==> Pending(ctx, aw, ns) && Outstanding(ctx, aw, limits, k) > 0
      ensures f(aw) < 0 <==> Pending(ctx, aw, ns) && Outstanding(ctx, aw, limits, k) < 0
    {
    }
  }

  // ----- two listings -----

  const CPU: string := "cpu"

  /** An AppWrapper in Running/Creating that asks for an amount of CPU. */
  function Asking(name: string, cpu: int): Listed {
    Listed(name, "team", name, 0, 0, None, 0, Status(Phase(Running, Creating), 4, 0, 0, 0, []), [[PodResources(1, map[CPU := cpu], map[])]])
  }

  /** A reading in which the pods of "b", and of nobody else, occupy six. */
  function Reading(): Context {
    Context(
      map[],
      (ns: string, name: string) => Some(if name == "b" then [Pod([Container(map[CPU := 6], map[])], [], None, true, false)] else []),
      (ns: string) => Some([]),
      0,
      false)
  }

  lemma {:induction false} ReadingIsOrdinary()
    ensures PodsNonNegative(Reading())
  {
    forall aw: Listed, limits: bool
      ensures NonNegative(Created(Reading(), aw, limits))
    {
      CreatedInReading(aw, limits);
    }
    forall aw: Listed
      ensures NonNegative(Created(Reading(), aw, false)) && NonNegative(Created(Reading(), aw, true))
    {
    }
  }

  lemma {:induction false} CreatedInReading(aw: Listed, limits: bool)
    ensures forall k :: W.At(Created(Reading(), aw, limits), k) == if aw.name == "b" && !limits && k == CPU then 6 else 0
  {
    var container := Container(map[CPU := 6], map[]);
    var pod := Pod([container], [], None, true, false);
    assert [pod][..0] == [] && [container][..0] == [];
    assert PodsTotal([], limits, true) == map[];
    assert AddContainers([], limits) == map[];
    assert AddContainers([container], limits) == W.Plus(map[], Side(container, limits));
    assert PodsTotal([pod], limits, true) == W.Plus(map[], PodAmounts(pod, limits));
  }

  lemma {:induction false} AskedFor(name: string, cpu: int)
    ensures W.At(Ask(Asking(name, cpu)).requests, CPU) == cpu
  {
    var r := PodResources(1, map[CPU := cpu], map[]);
    assert [r][..0] == [] && [[r]][..0] == [];
    assert AggregateItems([], false) == map[];
    assert AggregateItem(map[], [], false) == map[];
    assert AggregateItem(map[], [r], false) == W.PlusTimes(map[], 1, map[CPU := cpu]);
  }

  /** Listed as a, b: three of a are outstanding, then b has five too many, which
      leaves nothing. Listed as b, a: three. */
  lemma {:induction false} OrderMattersWithExcess()
    ensures Amount(Reading(), [Asking("a", 3), Asking("b", 1)], "team", false, CPU) == 0
    ensures Amount(Reading(), [Asking("b", 1), Asking("a", 3)], "team", false, CPU) == 3
  {
    var a, b := Asking("a", 3), Asking("b", 1);
    var f := OutstandingOf(Reading(), "team", false, CPU);
    ReadingIsOrdinary();
    OutstandingInReading("a", 3);
    OutstandingInReading("b", 1);
    AmountIsClamped(Reading(), [a, b], "team", false, CPU);
    AmountIsClamped(Reading(), [b, a], "team", false, CPU);
    ClampedPair(a, b, f);
    ClampedPair(b, a, f);
  }

  lemma {:induction false} OutstandingInReading(name: string, cpu: int)
    ensures OutstandingOf(Reading(), "team", false, CPU)(Asking(name, cpu)) == cpu - if name == "b" then 6 else 0
  {
    AskedFor(name, cpu);
    CreatedInReading(Asking(name, cpu), false);
  }

  lemma {:induction false} ClampedPair(a: Listed, b: Listed, f: Listed -> int)
    ensures Clamped([a, b], f) == W.Larger(0, W.Larger(0, f(a)) + f(b))
  {
    assert [a, b][..1] == [a] && [a][..0] == [];
    assert Clamped([], f) == 0;
    assert Clamped([a], f) == W.Larger(0, f(a));
  }

  lemma {:induction false} NonNegativeTotals(ds: seq<int>)
    requires forall d :: d in ds ==> d >= 0
    ensures forall j :: 0 <= j <= |ds| ==> Total(ds[..j]) >= 0
  {
    if ds != [] {
      var init := ds[..|ds| - 1];
      assert forall d :: d in init ==> d in ds;
      NonNegativeTotals(init);
      assert init[..|init|] == init;
      forall j | 0 <= j <= |ds|
        ensures Total(ds[..j]) >= 0
      {
        if j < |ds| {
          assert ds[..j] == init[..j];
        } else {
          assert ds[..j] == ds && ds[|ds| - 1] in ds;
        }
      }
    }
  }

  lemma {:induction false} DeltasNonNegative(ctx: Context, aws: seq<Listed>, ns: string, limits: bool, k: string)
    requires forall aw :: aw in aws && Pending(ctx, aw, ns) ==> Outstanding(ctx, aw, limits, k) >= 0
    ensures forall d :: d in Deltas(ctx, aws, ns, limits, k) ==> d >= 0
  {
    if aws != [] {
      DeltasNonNegative(ctx, aws[..|aws| - 1], ns, limits, k);
    }
  }

  /** If no AppWrapper's pods exceed its ask, the amount is the plain sum of
      what is outstanding, whatever the listing order. */
  lemma {:induction false} ExactWithoutExcess(m: map<string, W.Pair>, ctx: Context, aws: seq<Listed>, aws': seq<Listed>, ns: string, limits: bool, k: string)
    requires Accounts(m, ctx, aws) && multiset(aws) == multiset(aws')
    requires forall aw :: aw in aws && Pending(ctx, aw, ns) ==> Outstanding(ctx, aw, limits, k) >= 0
    ensures W.At(W.Part(W.PairAt(m, ns), limits), k) == Sum(aws', OutstandingOf(ctx, ns, limits, k))
  {
    PartAccounts(m, ctx, aws, ns, limits, k);
    DeltasNonNegative(ctx, aws, ns, limits, k);
    NonNegativeTotals(Deltas(ctx, aws, ns, limits, k));
    FlooredIsSum(Deltas(ctx, aws, ns, limits, k));
    DeltasTotal(ctx, aws, ns, limits, k);
    SumPermutation(aws, aws', OutstandingOf(ctx, ns, limits, k));
  }
}
