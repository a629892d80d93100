/** hgctl/pkg/helm/profile.go: rendering a profile as three layers, and what normalisation of the
    profile leaves unchanged in the rendered values. */
module HelmRendering {
  import opened Wrappers
  import opened HelmValues
  import opened Recovering
  import opened Normalising

  predicate InCluster(m: Mode) {
    m == K8s || m == LocalK8s
  }

  /** The typed flags; `parse` is the value parser that the ingress class goes through. */
  function Flags(s: Settings, parse: string -> Value): Value {
    if !InCluster(s.install) then Map(map[])
    else
      var globals := map["ingressClass" := parse(s.ingressClass), "enableIstioAPI" := Bool(s.enableIstioAPI),
                         "enableGatewayAPI" := Bool(s.enableGatewayAPI)];
      Map(map[
        "global" := Map(if s.install == LocalK8s then globals["local" := Bool(true)] else globals),
        "higress-console" := Map(map["replicaCount" := Int(s.consoleReplicas),
                                     "o11y" := Map(map["enabled" := Bool(s.o11yEnabled)])]),
        "higress-core" := Map(map["gateway" := Map(map["replicas" := Int(s.gatewayReplicas)]),
                                  "controller" := Map(map["replicas" := Int(s.controllerReplicas)])])])
  }

  function ResourceTree(r: Resource): Value {
    Map(map["resources" := Map(map[
      "requests" := Map(map["cpu" := Str(r.requestsCpu), "memory" := Str(r.requestsMemory)]),
      "limits" := Map(map["cpu" := Str(r.limitsCpu), "memory" := Str(r.limitsMemory)])])])
  }

  function Resources(s: Settings): Value {
    Map(map[
      "higress-core" := Map(map["controller" := ResourceTree(s.controller), "gateway" := ResourceTree(s.gateway)]),
      "higress-console" := ResourceTree(s.console)])
  }

  /** ValuesYaml: raw values over resources, and both over the flags. */
  function Rendered(s: Settings, v: Value, parse: string -> Value): Value {
    Merge(Flags(s, parse), Merge(Resources(s), v))
  }

  // ---- The layers at the resource paths -----------------------------------------

  lemma SlotAt(r: Resource, slot: Slot)
    ensures Get(ResourceTree(r), ["resources"] + SlotPath(slot)) == Some(Str(SlotOf(r, slot)))
  {
    var p := ["resources"] + SlotPath(slot);
    var leaf := Str(SlotOf(r, slot));
    assert p[1..] == SlotPath(slot) && p[1..][1..] == [p[2]] && p[1..][1..][1..] == [];
    var level := ResourceTree(r).m["resources"];
    assert Get(level.m[p[1]].m[p[2]], []) == Some(leaf);
    assert Get(level.m[p[1]], p[1..][1..]) == Some(leaf);
    assert Get(level, p[1..]) == Some(leaf);
  }

  lemma ResourceAt(s: Settings, c: Component, slot: Slot)
    ensures Get(Resources(s), PathOf(ResourceOf(c, slot))) == Some(Str(SlotOf(ResourcesOf(s, c), slot)))
  {
    hide ResourceTree, SlotPath, SlotOf;
    SlotAt(ResourcesOf(s, c), slot);
    var p, tail := PathOf(ResourceOf(c, slot)), ["resources"] + SlotPath(slot);
    match c
    case Console =>
      assert p[1..] == tail;
    case Controller =>
      assert p[1..] == ["controller"] + tail && p[1..][1..] == tail;
    case Gateway =>
      assert p[1..] == ["gateway"] + tail && p[1..][1..] == tail;
  }

  lemma FlagsLackResources(s: Settings, parse: string -> Value, c: Component, slot: Slot)
    ensures Get(Flags(s, parse), PathOf(ResourceOf(c, slot))).None?
  {
    hide SlotPath;
    var p, tail := PathOf(ResourceOf(c, slot)), ["resources"] + SlotPath(slot);
    var f := Flags(s, parse);
    assert "resources" != "replicas" && "resources" != "replicaCount" && "resources" != "o11y";
    if InCluster(s.install) {
      match c
      case Console =>
        assert p[1..] == tail && Get(f.m["higress-console"], tail).None?;
      case Controller =>
        assert p[1..] == ["controller"] + tail && p[1..][1..] == tail;
        assert Get(f.m["higress-core"].m["controller"], tail).None?;
      case Gateway =>
        assert p[1..] == ["gateway"] + tail && p[1..][1..] == tail;
        assert Get(f.m["higress-core"].m["gateway"], tail).None?;
    }
  }

  // ---- The typed field of a resource owner --------------------------------------

  lemma SetResource(o: Owner, s: Settings, v: Value, c: Component, slot: Slot)
    requires SetTyped(o, s, v).Some?
    ensures SlotOf(ResourcesOf(SetTyped(o, s, v).value, c), slot) ==
              if o == ResourceOf(c, slot) then v.s else SlotOf(ResourcesOf(s, c), slot)
  {
  }

  /** The text that a typed field has taken over, or its own. */
  function TextOr(found: Option<Value>, own: string): string {
    if found.Some? && found.value.Str? then found.value.s else own
  }

  lemma OneResource(o: Owner, s: Settings, v: Value, c: Component, slot: Slot)
    requires ConsumeOne(o, s, v).Some?
    ensures SlotOf(ResourcesOf(ConsumeOne(o, s, v).value.0, c), slot) ==
              if o == ResourceOf(c, slot) then TextOr(Get(v, PathOf(o)), SlotOf(ResourcesOf(s, c), slot))
              else SlotOf(ResourcesOf(s, c), slot)
  {
    hide PathOf, SetTyped, Get, Remove, SlotOf, ResourcesOf;
    var found := Get(v, PathOf(o));
    if found.Some? {
      SetResource(o, s, found.value, c, slot);
      SetTypedExact(o, s, found.value);
    }
  }

  lemma {:induction false} ConsumedResource(s: Settings, v: Value, i: nat, j: nat, c: Component, slot: Slot)
    requires v.Map? && i <= |OWNERS| && j < |OWNERS| && OWNERS[j] == ResourceOf(c, slot)
    requires Consume(s, v, i).Some?
    ensures SlotOf(ResourcesOf(Consume(s, v, i).value.0, c), slot) ==
              TextOr(if j < i then Get(v, PathOf(OWNERS[j])) else None, SlotOf(ResourcesOf(s, c), slot))
  {
    hide OWNERS, PathOf, ConsumeOne, Get, SlotOf, ResourcesOf, TextOr;
    NoText(SlotOf(ResourcesOf(s, c), slot));
    if i > 0 {
      ConsumedResource(s, v, i - 1, j, c, slot);
      var r := Consume(s, v, i - 1).value;
      OneResource(OWNERS[i - 1], r.0, r.1, c, slot);
      if j != i - 1 {
        DistinctOwners(i - 1, j);
      } else {
        ConsumedOwners(s, v, i - 1, j);
      }
    }
  }

  lemma NoText(own: string)
    ensures TextOr(None, own) == own
  {
  }

  // ---- What stays ---------------------------------------------------------------

  /** The overlay of raw values on resources, at the path of a resource owner, depends only on the
      owner's leaf, the typed field and the leaves above the path. */
  lemma OverlayAt(s: Settings, v: Value, c: Component, slot: Slot)
    requires v.Map? && Acceptable(ResourceOf(c, slot), v)
    ensures var p := PathOf(ResourceOf(c, slot));
            Get(Merge(Resources(s), v), p) ==
              if Leaf(v, p).Some? then Leaf(v, p)
              else if Blocked(v, p) then None
              else Some(Str(SlotOf(ResourcesOf(s, c), slot)))
  {
    hide PathOf, Blocked, Resources, SlotOf;
    var p := PathOf(ResourceOf(c, slot));
    ResourceAt(s, c, slot);
    if Get(v, p).None? {
      ShowsThrough(Resources(s), v, p);
    } else {
      LeafWins(Resources(s), v, p);
    }
  }

  /** Only leaves block, and no owner lies above another: normalisation blocks nothing and unblocks
      nothing at an owned path. */
  lemma BlockedKept(s: Settings, v: Value, o: Owner)
    requires v.Map? && Normalise(s, v).Some?
    ensures Blocked(Normalise(s, v).value.1, PathOf(o)) <==> Blocked(v, PathOf(o))
  {
    hide OWNERS, PathOf, Leaf, Normalise;
    var p, w := PathOf(o), Normalise(s, v).value.1;
    forall i | 0 <= i < |p|
      ensures Leaf(w, p[..i]) == Leaf(v, p[..i])
    {
      NormalisedLeaves(s, v, p[..i]);
      if Owned(p[..i]) {
        var a :| PathOf(a) == p[..i];
        PrefixFree(a, o);
        assert false;
      }
    }
  }

  lemma LeafUnblocks(v: Value, p: Path)
    requires Leaf(v, p).Some?
    ensures !Blocked(v, p)
  {
    if Blocked(v, p) {
      var i :| 0 <= i < |p| && Leaf(v, p[..i]).Some?;
      LeafEnds(v, p[..i], p);
    }
  }

  /** The outer merge keeps what the overlay decides at a resource path. */
  lemma OuterKeeps(s: Settings, overlay: Value, parse: string -> Value, c: Component, slot: Slot)
    requires overlay.Map?
    requires var p := PathOf(ResourceOf(c, slot));
             Get(overlay, p).None? || (Leaf(overlay, p).Some? && Leaf(overlay, p).value.Str?)
    ensures Get(Merge(Flags(s, parse), overlay), PathOf(ResourceOf(c, slot))) == Get(overlay,
              PathOf(ResourceOf(c, slot)))
  {
    hide PathOf, Flags;
    var p := PathOf(ResourceOf(c, slot));
    if Get(overlay, p).None? {
      FlagsLackResources(s, parse, c, slot);
      MergeNeverAdds(Flags(s, parse), overlay, p);
    } else {
      LeafWins(Flags(s, parse), overlay, p);
    }
  }

  /** The typed field after normalisation: the text of the leaf that was there, or its own. */
  lemma NormalisedResource(s: Settings, v: Value, c: Component, slot: Slot)
    requires v.Map? && Normalise(s, v).Some?
    ensures var r := Normalise(s, v).value;
            var p := PathOf(ResourceOf(c, slot));
            && SlotOf(ResourcesOf(r.0, c), slot) == TextOr(Leaf(v, p), SlotOf(ResourcesOf(s, c), slot))
            && Acceptable(ResourceOf(c, slot), v) && Get(r.1, p).None? && r.1.Map?
  {
    hide OWNERS, PathOf, Prune, Consume, Get, SlotOf, ResourcesOf, WellTyped;
    var o := ResourceOf(c, slot);
    EveryOwner(o);
    var j :| 0 <= j < |OWNERS| && OWNERS[j] == o;
    SucceedsExactly(s, v);
    ConsumedResource(s, v, |OWNERS|, j, c, slot);
    ConsumedOwners(s, v, |OWNERS|, j);
    NormalisedMap(s, v);
    PruneNeverAdds(Consume(s, v, |OWNERS|).value.1, PathOf(o));
  }

  /** Rendering gives the same value at each of the twelve resource paths before and after. */
  lemma ResourcesKept(s: Settings, v: Value, parse: string -> Value, c: Component, slot: Slot)
    requires v.Map? && Normalise(s, v).Some?
    ensures var r := Normalise(s, v).value;
            var p := PathOf(ResourceOf(c, slot));
            Get(Rendered(r.0, r.1, parse), p) == Get(Rendered(s, v, parse), p)
  {
    hide OWNERS, PathOf, Blocked, Resources, Flags, Normalise, Get, SlotOf, ResourcesOf, Merge;
    var o := ResourceOf(c, slot);
    var r, p := Normalise(s, v).value, PathOf(o);
    NormalisedResource(s, v, c, slot);
    BlockedKept(s, v, o);
    if Leaf(v, p).Some? { LeafUnblocks(v, p); }
    OverlayAt(s, v, c, slot);
    OverlayAt(r.0, r.1, c, slot);
    OuterKeeps(s, Merge(Resources(s), v), parse, c, slot);
    OuterKeeps(r.0, Merge(Resources(r.0), r.1), parse, c, slot);
  }

  /** An unowned leaf that is not null is rendered as it stands, before and after. */
  lemma LeavesKept(s: Settings, v: Value, parse: string -> Value, q: Path)
    requires v.Map? && Normalise(s, v).Some? && !Owned(q) && Leaf(v, q).Some? && !Leaf(v, q).value.Null?
    ensures Get(Rendered(s, v, parse), q) == Leaf(v, q)
    ensures var r := Normalise(s, v).value; Get(Rendered(r.0, r.1, parse), q) == Leaf(v, q)
  {
    hide Flags, Resources, Normalise, Owned;
    var r := Normalise(s, v).value;
    NormalisedLeaves(s, v, q);
    NormalisedMap(s, v);
    TwiceWins(s, v, parse, q);
    TwiceWins(r.0, r.1, parse, q);
  }

  lemma NormalisedMap(s: Settings, v: Value)
    requires v.Map? && Normalise(s, v).Some?
    ensures Normalise(s, v).value.1.Map?
  {
    hide Consume;
    ConsumedLeaves(s, v, |OWNERS|, []);
  }

  lemma TwiceWins(s: Settings, v: Value, parse: string -> Value, q: Path)
    requires v.Map? && Leaf(v, q).Some? && !Leaf(v, q).value.Null?
    ensures Get(Rendered(s, v, parse), q) == Leaf(v, q)
  {
    hide Flags, Resources;
    LeafWins(Resources(s), v, q);
    LeafWins(Flags(s, parse), Merge(Resources(s), v), q);
  }
}
