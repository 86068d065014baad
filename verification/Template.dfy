/**
 Rewriting of wrapped templates: every pod template in a JSON tree gets the
 labels that tie its pods to the owning AppWrapper. The code walks the tree and
 changes it while walking: it first plants a placeholder two levels down, and
 replaces it when the walk gets there.
 */
module Template {
  import opened Options
  import opened Sums

  datatype Json =
    | Null
    | Bool(truth: bool)
    | Number(text: string)
    | Str(text: string)
    | Arr(elems: seq<Json>)
    | Obj(entries: map<string, Json>)

  type Entries = map<string, Json>

  datatype Owner = Owner(namespace: string, name: string)

  const NAME: string := "appwrapper.mcad.ibm.com"
  const NAMESPACE: string := "appwrapper.mcad.ibm.com/namespace"
  const PLACEHOLDER: string := "placeholder"
  const METADATA: string := "metadata"
  const LABELS: string := "labels"
  const SPEC: string := "spec"
  const CONTAINERS: string := "containers"

  lemma {:induction false} KeysDiffer()
    ensures NAME != NAMESPACE && NAME != METADATA && NAME != LABELS && NAME != SPEC && NAME != CONTAINERS
    ensures NAMESPACE != METADATA && NAMESPACE != LABELS && NAMESPACE != SPEC && NAMESPACE != CONTAINERS
    ensures METADATA != LABELS && METADATA != SPEC && METADATA != CONTAINERS
    ensures LABELS != SPEC && LABELS != CONTAINERS && SPEC != CONTAINERS
  {
    assert |NAME| == 23 && |NAMESPACE| == 33 && |METADATA| == 8 && |LABELS| == 6 && |SPEC| == 4 && |CONTAINERS| == 10;
  }

  predicate HasObject(m: Entries, k: string) {
    k in m && m[k].Obj?
  }

  /** A node with spec.containers: a pod or a pod template. */
  predicate IsPod(m: Entries) {
    HasObject(m, SPEC) && CONTAINERS in m[SPEC].entries
  }

  /** The object at k, or an empty one. */
  function ObjectAt(m: Entries, k: string): Entries {
    if HasObject(m, k) then m[k].entries else map[]
  }

  // ----- what the rewrite means -----

  /** What the context asks of a node: nothing, to be the metadata of a pod, or
      to be a set of labels that names the owner. */
  datatype Role = Plain | PodMetadata | OwnerLabels

  function ChildRole(m: Entries, role: Role, k: string): Role {
    if k == METADATA && IsPod(m) then PodMetadata
    else if k == LABELS && (role == PodMetadata || NAME in ObjectAt(m, k)) then OwnerLabels
    else Plain
  }

  function KeysAfter(m: Entries, role: Role): set<string> {
    m.Keys
    + (if IsPod(m) then {METADATA} else {})
    + (match role
       case Plain => {}
       case PodMetadata => {LABELS}
       case OwnerLabels => {NAME, NAMESPACE})
  }

  function OwnerLabelsOf(o: Owner): Json {
    Obj(map[NAME := Str(o.name), NAMESPACE := Str(o.namespace)])
  }

  /** A node made from nothing to play a role. */
  function Made(o: Owner, role: Role): Json {
    match role
    case Plain => Null
    case PodMetadata => Obj(map[LABELS := OwnerLabelsOf(o)])
    case OwnerLabels => OwnerLabelsOf(o)
  }

  /** The rewrite in one pass from the root, without placeholders. */
  function Labelled(o: Owner, v: Json, role: Role): Json
    decreases v, 1
  {
    match v
    case Arr(elems) => Arr(seq(|elems|, i requires 0 <= i < |elems| => Labelled(o, elems[i], Plain)))
    case Obj(m) => Obj(map k | k in KeysAfter(m, role) :: LabelledAt(o, v, role, k))
    case _ => v
  }

  function LabelledAt(o: Owner, v: Json, role: Role, k: string): Json
    requires v.Obj? && k in KeysAfter(v.entries, role)
    decreases v, 0
  {
    var m := v.entries;
    var child := ChildRole(m, role, k);
    if role == OwnerLabels && k == NAME then Str(o.name)
    else if role == OwnerLabels && k == NAMESPACE then Str(o.namespace)
    else if k in m && (child == Plain || m[k].Obj?) then Labelled(o, m[k], child)
    else Made(o, child)
  }

  // ----- the walk -----

  ghost function MaxOf(s: set<nat>): (r: nat)
    ensures forall x :: x in s ==> x <= r
    ensures r == 0 || r in s
  {
    if s == {} then 0
    else
      var x :| x in s;
      var r := MaxOf(s - {x});
      assert forall y :: y in s ==> y == x || y in s - {x};
      if x > r then x else r
  }

  /** Bounds the depth of the walk; a pod counts for the nodes it may gain. */
  ghost function Height(v: Json): nat
    decreases v, 1
  {
    match v
    case Arr(_) => 1 + MaxOf(Heights(v))
    case Obj(m) => 1 + MaxOf(Heights(v)) + if IsPod(m) then 3 else 0
    case _ => 0
  }

  ghost function Heights(v: Json): set<nat>
    decreases v, 0
  {
    match v
    case Arr(elems) => set i | 0 <= i < |elems| :: Height(elems[i])
    case Obj(m) => set k | k in m :: Height(m[k])
    case _ => {}
  }

  lemma {:induction false} ChildIsLower(m: Entries, k: string)
    requires k in m
    ensures Height(m[k]) + (if IsPod(m) then 3 else 0) < Height(Obj(m))
  {
    assert Height(m[k]) in Heights(Obj(m));
  }

  lemma {:induction false} ElementIsLower(elems: seq<Json>, i: nat)
    requires i < |elems|
    ensures Height(elems[i]) < Height(Arr(elems))
  {
    assert Height(elems[i]) in Heights(Arr(elems));
  }

  /** A node is no higher than its children allow. */
  lemma {:induction false} HeightAtMost(m: Entries, n: nat)
    requires forall k :: k in m ==> Height(m[k]) <= n
    ensures Height(Obj(m)) <= 1 + n + if IsPod(m) then 3 else 0
  {
  }

  /** labels[NAME] = "placeholder" */
  function PlantLabels(m: Entries): Entries {
    m[NAME := Str(PLACEHOLDER)]
  }

  function PlantMetadata(m: Entries): Entries {
    m[LABELS := Obj(PlantLabels(ObjectAt(m, LABELS)))]
  }

  function Plant(m: Entries): Entries {
    if IsPod(m) then m[METADATA := Obj(PlantMetadata(ObjectAt(m, METADATA)))] else m
  }

  function Replace(o: Owner, m: Entries): Entries {
    if HasObject(m, LABELS) && NAME in m[LABELS].entries then
      m[LABELS := Obj(m[LABELS].entries[NAMESPACE := Str(o.namespace)][NAME := Str(o.name)])]
    else m
  }

  /** Labels gain only leaves. */
  lemma {:induction false} StampedHeight(m: Entries, n: Entries)
    requires m.Keys <= n.Keys <= m.Keys + {NAME, NAMESPACE}
    requires forall k :: k in n && k != NAME && k != NAMESPACE ==> n[k] == m[k]
    requires forall k :: k in n && (k == NAME || k == NAMESPACE) ==> n[k].Str? || (k in m && n[k] == m[k])
    ensures Height(Obj(n)) <= Height(Obj(m))
  {
    KeysDiffer();
    assert IsPod(n) == IsPod(m);
    var bound := Height(Obj(m)) - 1 - (if IsPod(m) then 3 else 0);
    forall k | k in n
      ensures Height(n[k]) <= bound
    {
      if k in m { ChildIsLower(m, k); }
    }
    HeightAtMost(n, bound);
  }

  lemma {:induction false} PlantedMetadataHeight(m: Entries)
    ensures Height(Obj(PlantMetadata(m))) <= 1 + Height(Obj(m))
  {
    KeysDiffer();
    var n := PlantMetadata(m);
    assert IsPod(n) == IsPod(m);
    var bound := Height(Obj(m)) - (if IsPod(m) then 3 else 0);
    StampedHeight(ObjectAt(m, LABELS), PlantLabels(ObjectAt(m, LABELS)));
    HeightAtMost(map[], 0);
    forall k | k in n
      ensures Height(n[k]) <= bound
    {
      if k in m { ChildIsLower(m, k); }
    }
    HeightAtMost(n, bound);
  }

  /** Every child that the walk goes on to visit is lower than the node it came
      from, planted nodes included. */
  lemma {:induction false} WalkDescends(o: Owner, m: Entries, k: string)
    requires k in Replace(o, Plant(m))
    ensures Height(Replace(o, Plant(m))[k]) < Height(Obj(m))
  {
    KeysDiffer();
    var planted := Plant(m);
    if k == METADATA && IsPod(m) {
      PlantedMetadataHeight(ObjectAt(m, METADATA));
      HeightAtMost(map[], 0);
      if HasObject(m, METADATA) { ChildIsLower(m, METADATA); }
    } else if k == LABELS && HasObject(m, LABELS) {
      ChildIsLower(m, LABELS);
      StampedHeight(m[LABELS].entries, m[LABELS].entries[NAMESPACE := Str(o.namespace)][NAME := Str(o.name)]);
    } else {
      ChildIsLower(m, k);
    }
  }

  // ----- the walk computes the rewrite -----

  lemma {:induction false} PlantedLabels(o: Owner, m: Entries)
    ensures Labelled(o, Obj(PlantLabels(m)), OwnerLabels) == Labelled(o, Obj(m), OwnerLabels)
  {
    KeysDiffer();
    var n := PlantLabels(m);
    assert IsPod(n) == IsPod(m);
    assert KeysAfter(n, OwnerLabels) == KeysAfter(m, OwnerLabels);
    forall k | k in KeysAfter(m, OwnerLabels)
      ensures LabelledAt(o, Obj(n), OwnerLabels, k) == LabelledAt(o, Obj(m), OwnerLabels, k)
    {
    }
  }

  lemma {:induction false} PlantedMetadata(o: Owner, m: Entries)
    ensures Labelled(o, Obj(PlantMetadata(m)), Plain) == Labelled(o, Obj(m), PodMetadata)
  {
    KeysDiffer();
    var n := PlantMetadata(m);
    assert IsPod(n) == IsPod(m);
    assert KeysAfter(n, Plain) == KeysAfter(m, PodMetadata);
    forall k | k in KeysAfter(m, PodMetadata)
      ensures LabelledAt(o, Obj(n), Plain, k) == LabelledAt(o, Obj(m), PodMetadata, k)
    {
      if k == LABELS { PlantedBelow(o, m); }
    }
  }

  lemma {:induction false} PlantedBelow(o: Owner, m: Entries)
    ensures LabelledAt(o, Obj(PlantMetadata(m)), Plain, LABELS) == LabelledAt(o, Obj(m), PodMetadata, LABELS)
  {
    KeysDiffer();
    PlantedLabels(o, ObjectAt(m, LABELS));
    MadeFromEmpty(o);
  }

  /** Making a node from nothing is rewriting an empty one. */
  lemma {:induction false} MadeFromEmpty(o: Owner)
    ensures Labelled(o, Obj(map[]), OwnerLabels) == Made(o, OwnerLabels)
    ensures Labelled(o, Obj(map[]), PodMetadata) == Made(o, PodMetadata)
  {
    assert LabelledAt(o, Obj(map[]), PodMetadata, LABELS) == OwnerLabelsOf(o);
  }

  lemma {:induction false} ReplacedLabels(o: Owner, m: Entries)
    ensures Labelled(o, Obj(m[NAMESPACE := Str(o.namespace)][NAME := Str(o.name)]), Plain) == Labelled(o, Obj(m), OwnerLabels)
  {
    KeysDiffer();
    var n := m[NAMESPACE := Str(o.namespace)][NAME := Str(o.name)];
    assert IsPod(n) == IsPod(m);
    assert KeysAfter(n, Plain) == KeysAfter(m, OwnerLabels);
    forall k | k in KeysAfter(m, OwnerLabels)
      ensures LabelledAt(o, Obj(n), Plain, k) == LabelledAt(o, Obj(m), OwnerLabels, k)
    {
    }
  }

  lemma {:induction false} VisitedKeys(o: Owner, m: Entries)
    ensures Replace(o, Plant(m)).Keys == KeysAfter(m, Plain)
  {
    KeysDiffer();
  }

  lemma {:induction false} VisitedChild(o: Owner, m: Entries, k: string)
    requires k in Replace(o, Plant(m)) && k in KeysAfter(m, Plain)
    ensures Labelled(o, Replace(o, Plant(m))[k], Plain) == LabelledAt(o, Obj(m), Plain, k)
  {
    KeysDiffer();
    if k == METADATA && IsPod(m) {
      PlantedMetadata(o, ObjectAt(m, METADATA));
      MadeFromEmpty(o);
    } else if k == LABELS && HasObject(m, LABELS) {
      ReplacedLabels(o, m[LABELS].entries);
    }
  }

  /** Visiting the children after planting and replacing rewrites the node. */
  lemma {:induction false} VisitedIsLabelled(o: Owner, m: Entries, n: Entries, r: Entries)
    requires n == Replace(o, Plant(m))
    requires r.Keys == n.Keys && forall k :: k in n ==> r[k] == Labelled(o, n[k], Plain)
    ensures Obj(r) == Labelled(o, Obj(m), Plain)
  {
    VisitedKeys(o, m);
    forall k | k in r
      ensures r[k] == LabelledAt(o, Obj(m), Plain, k)
    {
      VisitedChild(o, m, k);
    }
    SameEntries(r, Labelled(o, Obj(m), Plain).entries);
  }

  lemma {:induction false} SameEntries(r: Entries, e: Entries)
    requires r.Keys == e.Keys && forall k :: k in r ==> r[k] == e[k]
    ensures r == e
  {
  }

  /** The first half of fixMap: plant in a pod, replace in labels. */
  method Prepare(o: Owner, entries: Entries) returns (m: Entries)
    ensures m == Replace(o, Plant(entries))
  {
    m := entries;
    if HasObject(m, SPEC) {
      if CONTAINERS in m[SPEC].entries {
        var metadata: Entries := if HasObject(m, METADATA) then m[METADATA].entries else map[];
        var labels: Entries := if HasObject(metadata, LABELS) then metadata[LABELS].entries else map[];
        labels := labels[NAME := Str(PLACEHOLDER)];
        metadata := metadata[LABELS := Obj(labels)];
        m := m[METADATA := Obj(metadata)];
      }
    }
    if HasObject(m, LABELS) {
      var labels := m[LABELS].entries;
      if NAME in labels {
        labels := labels[NAMESPACE := Str(o.namespace)];
        labels := labels[NAME := Str(o.name)];
        m := m[LABELS := Obj(labels)];
      }
    }
  }

  method FixMap(o: Owner, entries: Entries) returns (r: Entries)
    ensures Obj(r) == Labelled(o, Obj(entries), Plain)
    decreases Height(Obj(entries))
  {
    var m := Prepare(o, entries);
    r := m;
    var todo := m.Keys;
    while todo != {}
      invariant todo <= m.Keys && r.Keys == m.Keys
      invariant forall k :: k in m ==> r[k] == if k in todo then m[k] else Labelled(o, m[k], Plain)
      decreases todo
    {
      ghost var _ := Member(todo);
      var k :| k in todo;
      WalkDescends(o, entries, k);
      match m[k] {
        case Obj(c) =>
          var c' := FixMap(o, c);
          r := r[k := Obj(c')];
        case Arr(c) =>
          var c' := FixArray(o, c);
          r := r[k := Arr(c')];
        case _ =>
      }
      todo := todo - {k};
    }
    VisitedIsLabelled(o, entries, m, r);
  }

  method FixArray(o: Owner, elems: seq<Json>) returns (r: seq<Json>)
    ensures Arr(r) == Labelled(o, Arr(elems), Plain)
    decreases Height(Arr(elems))
  {
    r := elems;
    for i := 0 to |elems|
      invariant |r| == |elems|
      invariant forall j :: 0 <= j < |elems| ==> r[j] == if j < i then Labelled(o, elems[j], Plain) else elems[j]
    {
      ElementIsLower(elems, i);
      match elems[i] {
        case Obj(c) =>
          var c' := FixMap(o, c);
          r := r[i := Obj(c')];
        case Arr(c) =>
          var c' := FixArray(o, c);
          r := r[i := Arr(c')];
        case _ =>
      }
    }
  }

  // ----- applying it twice -----

  lemma {:induction false} Idempotent(o: Owner, v: Json, role: Role)
    ensures Labelled(o, Labelled(o, v, role), role) == Labelled(o, v, role)
  {
    match v
    case Arr(elems) =>
      forall i | 0 <= i < |elems|
        ensures Labelled(o, Labelled(o, elems[i], Plain), Plain) == Labelled(o, elems[i], Plain)
      {
        Idempotent(o, elems[i], Plain);
      }
    case Obj(m) =>
      var r := Labelled(o, v, role).entries;
      StaysPod(o, m, role);
      assert KeysAfter(r, role) == r.Keys;
      forall k | k in r
        ensures LabelledAt(o, Obj(r), role, k) == r[k]
      {
        if k in m { Idempotent(o, m[k], ChildRole(m, role, k)); }
        ChildIsFixed(o, m, role, k);
      }
    case _ =>
  }

  lemma {:induction false} ChildIsFixed(o: Owner, m: Entries, role: Role, k: string)
    requires k in KeysAfter(m, role) && k in KeysAfter(Labelled(o, Obj(m), role).entries, role)
    requires k in m ==>
      var child := ChildRole(m, role, k); Labelled(o, Labelled(o, m[k], child), child) == Labelled(o, m[k], child)
    ensures LabelledAt(o, Labelled(o, Obj(m), role), role, k) == LabelledAt(o, Obj(m), role, k)
  {
    RoleIsKept(o, m, role, k);
    MadeIsFixed(o);
  }

  lemma {:induction false} StaysPod(o: Owner, m: Entries, role: Role)
    ensures IsPod(Labelled(o, Obj(m), role).entries) == IsPod(m)
  {
    KeysDiffer();
    var r := Labelled(o, Obj(m), role).entries;
    if SPEC in m {
      assert r[SPEC] == LabelledAt(o, Obj(m), role, SPEC) == Labelled(o, m[SPEC], Plain);
      if m[SPEC].Obj? { assert r[SPEC].entries.Keys == KeysAfter(m[SPEC].entries, Plain); }
    }
  }

  lemma {:induction false} RoleIsKept(o: Owner, m: Entries, role: Role, k: string)
    requires k in KeysAfter(m, role)
    ensures ChildRole(Labelled(o, Obj(m), role).entries, role, k) == ChildRole(m, role, k)
  {
    KeysDiffer();
    StaysPod(o, m, role);
    var r := Labelled(o, Obj(m), role).entries;
    if k == LABELS && role != PodMetadata {
      var child := ChildRole(m, role, k);
      assert r[k] == LabelledAt(o, Obj(m), role, k) == Labelled(o, m[k], child);
      if m[k].Obj? { assert r[k].entries.Keys == KeysAfter(m[k].entries, child); }
    }
  }

  lemma {:induction false} MadeIsFixed(o: Owner)
    ensures Labelled(o, Made(o, OwnerLabels), OwnerLabels) == Made(o, OwnerLabels)
    ensures Labelled(o, Made(o, PodMetadata), PodMetadata) == Made(o, PodMetadata)
  {
    KeysDiffer();
    var labels := Made(o, OwnerLabels);
    assert Labelled(o, labels, OwnerLabels) == labels;
    var metadata := Made(o, PodMetadata);
    assert LabelledAt(o, metadata, PodMetadata, LABELS) == labels;
    assert KeysAfter(metadata.entries, PodMetadata) == {LABELS};
  }
}
