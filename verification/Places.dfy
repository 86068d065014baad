/**
 The template rewrite described place by place: which places of a JSON tree it
 writes, what it writes there, and that it leaves every other place alone.
 */
module Places {
  import opened Options
  import opened Template

  datatype Hop = Key(name: string) | Index(i: nat)

  type Path = seq<Hop>

  function Child(v: Json, h: Hop): Option<Json> {
    match h
    case Key(k) => if v.Obj? && k in v.entries then Some(v.entries[k]) else None
    case Index(i) => if v.Arr? && i < |v.elems| then Some(v.elems[i]) else None
  }

  function Init(path: Path): Path
    requires path != []
  {
    path[..|path| - 1]
  }

  function Get(v: Json, path: Path): Option<Json>
    decreases |path|
  {
    if path == [] then Some(v)
    else
      match Get(v, Init(path))
      case None => None
      case Some(x) => Child(x, path[|path| - 1])
  }

  predicate EndsWith(path: Path, k: string) {
    path != [] && path[|path| - 1] == Key(k)
  }

  function EntriesAt(v: Json, path: Path): Entries {
    var g := Get(v, path);
    if g.Some? && g.value.Obj? then g.value.entries else map[]
  }

  // ----- places the rewrite is about -----

  /** The metadata of a pod, present or not. */
  predicate MetadataSite(v: Json, path: Path)
    decreases |path|, 0
  {
    EndsWith(path, METADATA) && Visible(v, Init(path)) && IsPod(EntriesAt(v, Init(path)))
  }

  /** The labels of a pod, present or not. */
  predicate LabelsSite(v: Json, path: Path)
    decreases |path|, 0
  {
    EndsWith(path, LABELS) && MetadataSite(v, Init(path))
  }

  /** Labels that name the owner: those of pods, and all that did before. */
  predicate OwnerMap(v: Json, path: Path)
    decreases |path|, 2
  {
    LabelsSite(v, path) || (EndsWith(path, LABELS) && Visible(v, path) && NAME in EntriesAt(v, path))
  }

  predicate OwnerSite(v: Json, path: Path)
    decreases |path|, 0
  {
    (EndsWith(path, NAME) || EndsWith(path, NAMESPACE)) && OwnerMap(v, Init(path))
  }

  /** The place is there and survives: neither it nor any place above it is
      overwritten. Overwritten are the two owner labels, and the metadata and
      labels of a pod if they are not objects. */
  predicate Visible(v: Json, path: Path)
    decreases |path|, 1
  {
    path == [] ||
      (&& Visible(v, Init(path))
       && Get(v, path).Some?
       && !OwnerSite(v, path)
       && (MetadataSite(v, path) || LabelsSite(v, path) ==> Get(v, path).value.Obj?))
  }

  /** Equal leaves, or nodes of the same kind. */
  predicate Similar(a: Json, b: Json) {
    (a.Obj? && b.Obj?) || (a.Arr? && b.Arr?) || (!a.Obj? && !a.Arr? && a == b)
  }

  /** What is at a place after the rewrite. */
  predicate AsDescribed(o: Owner, v: Json, path: Path, after: Option<Json>) {
    if OwnerSite(v, path) then after == Some(Str(if EndsWith(path, NAME) then o.name else o.namespace))
    else if MetadataSite(v, path) || LabelsSite(v, path) then after.Some? && after.value.Obj?
    else if Visible(v, path) then after.Some? && Similar(Get(v, path).value, after.value)
    else after.None?
  }

  // ----- the rewrite does exactly that -----

  function RoleAt(v: Json, path: Path): Role {
    if MetadataSite(v, path) then PodMetadata else if OwnerMap(v, path) then OwnerLabels else Plain
  }

  lemma {:induction false} VisibleIsThere(v: Json, path: Path)
    requires Visible(v, path)
    ensures Get(v, path).Some?
  {
  }

  /** Roles passed down from the root are roles told from the place. */
  lemma {:induction false} RolesAgree(v: Json, path: Path)
    requires path != [] && Visible(v, Init(path)) && path[|path| - 1].Key?
    requires Get(v, Init(path)).Some? && Get(v, Init(path)).value.Obj?
    ensures var m := Get(v, Init(path)).value.entries;
      var k := path[|path| - 1].name;
      var child := ChildRole(m, RoleAt(v, Init(path)), k);
      && (MetadataSite(v, path) <==> child == PodMetadata)
      && (Visible(v, path) ==> (OwnerMap(v, path) <==> child == OwnerLabels))
      && (LabelsSite(v, path) ==> child == OwnerLabels)
      && (child == OwnerLabels && !LabelsSite(v, path) ==> k == LABELS && NAME in ObjectAt(m, k))
  {
    KeysDiffer();
  }

  lemma {:induction false} PlainUnlessKey(v: Json, path: Path)
    requires path == [] || path[|path| - 1].Index?
    ensures RoleAt(v, path) == Plain
  {
    assert !LabelsSite(v, path);
  }

  /** A surviving node is rewritten according to its role. */
  lemma {:induction false} NodeIsLabelled(o: Owner, v: Json, path: Path)
    requires Visible(v, path)
    ensures Get(v, path).Some?
    ensures Get(Labelled(o, v, Plain), path) == Some(Labelled(o, Get(v, path).value, RoleAt(v, path)))
    decreases |path|
  {
    if path == [] {
      PlainUnlessKey(v, path);
    } else {
      NodeIsLabelled(o, v, Init(path));
      ChildIsLabelled(o, v, path);
    }
  }

  lemma {:induction false} ChildIsLabelled(o: Owner, v: Json, path: Path)
    requires path != [] && Visible(v, path)
    requires Get(v, Init(path)).Some?
    ensures var node := Labelled(o, Get(v, Init(path)).value, RoleAt(v, Init(path)));
      Child(node, path[|path| - 1]) == Some(Labelled(o, Get(v, path).value, RoleAt(v, path)))
  {
    KeysDiffer();
    var x := Get(v, Init(path)).value;
    if path[|path| - 1].Key? {
      RolesAgree(v, path);
      var k := path[|path| - 1].name;
      var role := RoleAt(v, Init(path));
      assert Labelled(o, x, role).entries[k] == LabelledAt(o, x, role, k);
    } else {
      PlainUnlessKey(v, path);
    }
  }

  /** The metadata of a pod is rewritten if it survives and made otherwise. */
  lemma {:induction false} MetadataIsMade(o: Owner, v: Json, path: Path)
    requires MetadataSite(v, path)
    ensures Visible(v, path) ==> Get(v, path).Some? && Get(v, path).value.Obj?
    ensures Get(Labelled(o, v, Plain), path) == Some(if Visible(v, path) then Labelled(o, Get(v, path).value, PodMetadata) else Made(o, PodMetadata))
  {
    KeysDiffer();
    NodeIsLabelled(o, v, Init(path));
    if Visible(v, path) {
      NodeIsLabelled(o, v, path);
    } else {
      var x := Get(v, Init(path)).value;
      var role := RoleAt(v, Init(path));
      assert Labelled(o, x, role).entries[METADATA] == LabelledAt(o, x, role, METADATA);
    }
  }

  /** So are the labels that name the owner. */
  lemma {:induction false} OwnerMapIsMade(o: Owner, v: Json, path: Path)
    requires OwnerMap(v, path)
    ensures Visible(v, path) ==> Get(v, path).Some? && Get(v, path).value.Obj?
    ensures Get(Labelled(o, v, Plain), path) == Some(if Visible(v, path) then Labelled(o, Get(v, path).value, OwnerLabels) else Made(o, OwnerLabels))
  {
    KeysDiffer();
    if Visible(v, path) {
      NodeIsLabelled(o, v, path);
    } else {
      MetadataIsMade(o, v, Init(path));
      if Visible(v, Init(path)) {
        var x := Get(v, Init(path)).value;
        assert Labelled(o, x, PodMetadata).entries[LABELS] == LabelledAt(o, x, PodMetadata, LABELS);
      }
    }
  }

  lemma {:induction false} OwnerLabelsAreReal(o: Owner, v: Json, path: Path)
    requires OwnerSite(v, path)
    ensures Get(Labelled(o, v, Plain), path) == Some(Str(if EndsWith(path, NAME) then o.name else o.namespace))
  {
    KeysDiffer();
    OwnerMapIsMade(o, v, Init(path));
    if Visible(v, Init(path)) {
      var x := Get(v, Init(path)).value;
      var k := path[|path| - 1].name;
      assert Labelled(o, x, OwnerLabels).entries[k] == LabelledAt(o, x, OwnerLabels, k);
    }
  }

  predicate Site(v: Json, path: Path) {
    OwnerSite(v, path) || MetadataSite(v, path) || LabelsSite(v, path)
  }

  /** Nothing is added anywhere else, and nothing survives below a place that
      was overwritten. */
  lemma {:induction false} NothingElse(o: Owner, v: Json, path: Path)
    requires !Visible(v, path) && !Site(v, path)
    ensures Get(Labelled(o, v, Plain), path).None?
    decreases |path|
  {
    var above := Init(path);
    GetStep(Labelled(o, v, Plain), path);
    if Visible(v, above) {
      NodeIsLabelled(o, v, above);
      NothingAdded(o, v, path);
    } else if Site(v, above) {
      NothingBelowSite(o, v, path);
    } else {
      NothingElse(o, v, above);
    }
  }

  lemma {:induction false} GetStep(v: Json, path: Path)
    requires path != []
    ensures Get(v, path) == match Get(v, Init(path)) case None => None case Some(x) => Child(x, path[|path| - 1])
  {
  }

  /** An overwritten place holds an owner label, or a node made from nothing. */
  lemma {:induction false} NothingBelowSite(o: Owner, v: Json, path: Path)
    requires path != [] && !Site(v, path) && Site(v, Init(path)) && !Visible(v, Init(path))
    ensures var g := Get(Labelled(o, v, Plain), Init(path)); g.Some? && Child(g.value, path[|path| - 1]).None?
  {
    var above := Init(path);
    if OwnerSite(v, above) {
      OwnerLabelsAreReal(o, v, above);
    } else if MetadataSite(v, above) {
      MetadataIsMade(o, v, above);
      ChildOfMade(o, PodMetadata, path[|path| - 1]);
      assert !LabelsSite(v, path);
    } else {
      OwnerMapIsMade(o, v, above);
      ChildOfMade(o, OwnerLabels, path[|path| - 1]);
      assert OwnerMap(v, above) && !OwnerSite(v, path);
    }
  }

  lemma {:induction false} ChildOfMade(o: Owner, role: Role, h: Hop)
    ensures Child(Made(o, role), h).Some? ==>
      (role == PodMetadata && h == Key(LABELS)) || (role == OwnerLabels && (h == Key(NAME) || h == Key(NAMESPACE)))
  {
  }

  lemma {:induction false} NothingAdded(o: Owner, v: Json, path: Path)
    requires path != [] && !Visible(v, path) && !Site(v, path) && Visible(v, Init(path))
    ensures Get(v, Init(path)).Some?
    ensures Child(Labelled(o, Get(v, Init(path)).value, RoleAt(v, Init(path))), path[|path| - 1]).None?
  {
    KeysDiffer();
    VisibleIsThere(v, Init(path));
    assert Get(v, path).None?;
  }

  /** Every place of the rewritten tree is as described. */
  lemma {:induction false} RewriteIsAsDescribed(o: Owner, v: Json, path: Path)
    ensures AsDescribed(o, v, path, Get(Labelled(o, v, Plain), path))
  {
    if OwnerSite(v, path) {
      OwnerLabelsAreReal(o, v, path);
    } else if MetadataSite(v, path) {
      MetadataIsMade(o, v, path);
    } else if LabelsSite(v, path) {
      OwnerMapIsMade(o, v, path);
    } else if Visible(v, path) {
      NodeIsLabelled(o, v, path);
    } else {
      NothingElse(o, v, path);
    }
  }

  // ----- the description leaves no choice -----

  lemma {:induction false} GetBelow(v: Json, h: Hop, path: Path)
    ensures Get(v, [h] + path) == match Child(v, h) case None => None case Some(x) => Get(x, path)
    decreases |path|
  {
    var all := [h] + path;
    if path == [] {
      assert Init(all) == [] && all[|all| - 1] == h;
    } else {
      assert Init(all) == [h] + Init(path);
      assert all[|all| - 1] == path[|path| - 1];
      GetBelow(v, h, Init(path));
    }
  }

  predicate SamePlace(a: Option<Json>, b: Option<Json>) {
    (a.None? && b.None?) || (a.Some? && b.Some? && Similar(a.value, b.value))
  }

  /** Trees that are alike at every place are equal. */
  lemma {:induction false} PlacesDetermine(a: Json, b: Json)
    requires forall path :: SamePlace(Get(a, path), Get(b, path))
    ensures a == b
  {
    assert SamePlace(Get(a, []), Get(b, []));
    match a
    case Obj(m) =>
      forall k
        ensures k in m <==> k in b.entries
        ensures k in m ==> m[k] == b.entries[k]
      {
        SameBelow(a, b, Key(k));
        if k in m && k in b.entries { PlacesDetermine(m[k], b.entries[k]); }
      }
      assert m == b.entries;
    case Arr(s) =>
      SameBelow(a, b, Index(|s|));
      SameBelow(a, b, Index(|b.elems|));
      forall i: nat | i < |s|
        ensures s[i] == b.elems[i]
      {
        SameBelow(a, b, Index(i));
        PlacesDetermine(s[i], b.elems[i]);
      }
      assert s == b.elems;
    case _ =>
  }

  lemma {:induction false} SameBelow(a: Json, b: Json, h: Hop)
    requires forall path :: SamePlace(Get(a, path), Get(b, path))
    ensures Child(a, h).Some? == Child(b, h).Some?
    ensures Child(a, h).Some? ==> forall path :: SamePlace(Get(Child(a, h).value, path), Get(Child(b, h).value, path))
  {
    GetBelow(a, h, []);
    GetBelow(b, h, []);
    assert SamePlace(Get(a, [h] + []), Get(b, [h] + []));
    if Child(a, h).Some? {
      forall path
        ensures SamePlace(Get(Child(a, h).value, path), Get(Child(b, h).value, path))
      {
        GetBelow(a, h, path);
        GetBelow(b, h, path);
        assert SamePlace(Get(a, [h] + path), Get(b, [h] + path));
      }
    }
  }

  ghost predicate DescribedThroughout(o: Owner, v: Json, r: Json) {
    forall path :: AsDescribed(o, v, path, Get(r, path))
  }

  /** A tree is the rewrite of v exactly if it is as described at every place. */
  lemma {:induction false} RewriteIsTheOnlyOne(o: Owner, v: Json, r: Json)
    ensures r == Labelled(o, v, Plain) <==> DescribedThroughout(o, v, r)
  {
    var w := Labelled(o, v, Plain);
    if r == w {
      forall path
        ensures AsDescribed(o, v, path, Get(r, path))
      {
        RewriteIsAsDescribed(o, v, path);
      }
    } else if DescribedThroughout(o, v, r) {
      forall path
        ensures SamePlace(Get(r, path), Get(w, path))
      {
        RewriteIsAsDescribed(o, v, path);
        assert AsDescribed(o, v, path, Get(r, path));
      }
      PlacesDetermine(r, w);
    }
  }

  // ----- the purpose -----

  /** In a rewritten tree, every place that holds an object is one that a second
      rewrite would visit. */
  lemma {:induction false} NodesAreVisible(o: Owner, v: Json, path: Path)
    requires var g := Get(Labelled(o, v, Plain), path); g.Some? && (g.value.Obj? || g.value.Arr?)
    ensures Visible(Labelled(o, v, Plain), path)
    decreases |path|
  {
    var r := Labelled(o, v, Plain);
    Idempotent(o, v, Plain);
    RewriteIsAsDescribed(o, r, path);
    if path != [] {
      NodesAreVisible(o, v, Init(path));
    }
  }

  /** Every pod of the rewritten tree carries both labels of the owner. */
  lemma {:induction false} EveryPodIsLabelled(o: Owner, v: Json, path: Path)
    requires IsPod(EntriesAt(Labelled(o, v, Plain), path))
    ensures var labels := path + [Key(METADATA)] + [Key(LABELS)];
      && Get(Labelled(o, v, Plain), labels + [Key("appwrapper.mcad.ibm.com")]) == Some(Str(o.name))
      && Get(Labelled(o, v, Plain), labels + [Key("appwrapper.mcad.ibm.com/namespace")]) == Some(Str(o.namespace))
  {
    KeysDiffer();
    var r := Labelled(o, v, Plain);
    Idempotent(o, v, Plain);
    NodesAreVisible(o, v, path);
    var metadata := path + [Key(METADATA)];
    var labels := metadata + [Key(LABELS)];
    assert Init(metadata) == path && Init(labels) == metadata;
    assert LabelsSite(r, labels);
    assert Init(labels + [Key(NAME)]) == labels && Init(labels + [Key(NAMESPACE)]) == labels;
    OwnerLabelsAreReal(o, r, labels + [Key(NAME)]);
    OwnerLabelsAreReal(o, r, labels + [Key(NAMESPACE)]);
  }

  /** Wherever labels of the rewritten tree name an owner, it is this one. */
  lemma {:induction false} EveryOwnerIsReal(o: Owner, v: Json, path: Path)
    requires EndsWith(path, LABELS) && NAME in EntriesAt(Labelled(o, v, Plain), path)
    ensures var labels := EntriesAt(Labelled(o, v, Plain), path);
      NAMESPACE in labels && labels[NAME] == Str(o.name) && labels[NAMESPACE] == Str(o.namespace)
  {
    KeysDiffer();
    var r := Labelled(o, v, Plain);
    Idempotent(o, v, Plain);
    NodesAreVisible(o, v, path);
    assert OwnerMap(r, path);
    assert Init(path + [Key(NAME)]) == path && Init(path + [Key(NAMESPACE)]) == path;
    OwnerLabelsAreReal(o, r, path + [Key(NAME)]);
    OwnerLabelsAreReal(o, r, path + [Key(NAMESPACE)]);
  }

  /** No planted placeholder survives: the string is where it was before, or the
      owner is called that. */
  lemma {:induction false} NoPlaceholderSurvives(o: Owner, v: Json, path: Path)
    requires Get(Labelled(o, v, Plain), path) == Some(Str(PLACEHOLDER))
    ensures Get(v, path) == Some(Str(PLACEHOLDER)) || PLACEHOLDER == o.name || PLACEHOLDER == o.namespace
  {
    RewriteIsAsDescribed(o, v, path);
  }
}
