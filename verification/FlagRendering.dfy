/** hgctl/pkg/helm/profile.go: what normalisation does to the rendered flags, and to null leaves. */
module FlagRendering {
  import opened Wrappers
  import opened HelmValues
  import opened Recovering
  import opened Normalising
  import opened HelmRendering
  import opened InstallModes

  /** The owners that rendering writes back from their own typed field. */
  predicate IsFlag(o: Owner) {
    o in {IngressClass, EnableIstioAPI, EnableGatewayAPI, ConsoleReplicas, O11yEnabled, GatewayReplicas,
        ControllerReplicas}
  }

  /** The rendered form of a typed field. */
  function Field(o: Owner, s: Settings, parse: string -> Value): Option<Value> {
    match o
    case IngressClass => Some(parse(s.ingressClass))
    case EnableIstioAPI => Some(Bool(s.enableIstioAPI))
    case EnableGatewayAPI => Some(Bool(s.enableGatewayAPI))
    case ConsoleReplicas => Some(Int(s.consoleReplicas))
    case O11yEnabled => Some(Bool(s.o11yEnabled))
    case GatewayReplicas => Some(Int(s.gatewayReplicas))
    case ControllerReplicas => Some(Int(s.controllerReplicas))
    case LocalFlag => if s.install == LocalK8s then Some(Bool(true)) else None
    case _ => None
  }

  /** The rendered form of a raw value once its typed field has taken it over. */
  function Retyped(o: Owner, v: Value, parse: string -> Value): Value
    requires WellTyped(o, v) && IsFlag(o)
  {
    match o
    case IngressClass => parse(v.s)
    case ConsoleReplicas => Int(Uint32Of(v).value)
    case GatewayReplicas => Int(Uint32Of(v).value)
    case ControllerReplicas => Int(Uint32Of(v).value)
    case _ => v
  }

  lemma FlagAt(s: Settings, parse: string -> Value, o: Owner)
    requires InCluster(s.install) && IsFlag(o)
    ensures Get(Flags(s, parse), PathOf(o)) == Field(o, s, parse)
  {
    var f, p := Flags(s, parse), PathOf(o);
    assert |p| == 2 ==> p[1..] == [p[1]] && p[1..][1..] == [];
    assert |p| == 3 ==> p[1..] == [p[1], p[2]] && p[1..][1..] == [p[2]] && p[1..][1..][1..] == [];
    match o
    case IngressClass => assert Get(f.m["global"].m["ingressClass"], []) == Field(o, s, parse);
    case EnableIstioAPI => assert Get(f.m["global"].m["enableIstioAPI"], []) == Field(o, s, parse);
    case EnableGatewayAPI => assert Get(f.m["global"].m["enableGatewayAPI"], []) == Field(o, s, parse);
    case ConsoleReplicas => assert Get(f.m["higress-console"].m["replicaCount"], []) == Field(o, s, parse);
    case O11yEnabled =>
      assert Get(f.m["higress-console"].m["o11y"].m["enabled"], []) == Field(o, s, parse);
      assert Get(f.m["higress-console"].m["o11y"], ["enabled"]) == Field(o, s, parse);
    case GatewayReplicas =>
      assert Get(f.m["higress-core"].m["gateway"].m["replicas"], []) == Field(o, s, parse);
      assert Get(f.m["higress-core"].m["gateway"], ["replicas"]) == Field(o, s, parse);
    case ControllerReplicas =>
      assert Get(f.m["higress-core"].m["controller"].m["replicas"], []) == Field(o, s, parse);
      assert Get(f.m["higress-core"].m["controller"], ["replicas"]) == Field(o, s, parse);
  }

  // ---- The typed field of a flag owner ------------------------------------------

  lemma SetField(a: Owner, s: Settings, v: Value, o: Owner, parse: string -> Value)
    requires SetTyped(a, s, v).Some? && IsFlag(o)
    ensures WellTyped(a, v)
    ensures Field(o, SetTyped(a, s, v).value, parse) == if a == o then Some(Retyped(o, v, parse))
              else Field(o, s, parse)
    ensures InCluster(s.install) ==> InCluster(SetTyped(a, s, v).value.install)
  {
  }

  lemma OneField(a: Owner, s: Settings, v: Value, o: Owner, parse: string -> Value)
    requires ConsumeOne(a, s, v).Some? && IsFlag(o)
    ensures InCluster(s.install) ==> InCluster(ConsumeOne(a, s, v).value.0.install)
    ensures Get(v, PathOf(o)).Some? && a == o ==> WellTyped(o, Get(v, PathOf(o)).value)
    ensures Field(o, ConsumeOne(a, s, v).value.0, parse) ==
              if a == o && Get(v, PathOf(o)).Some? then Some(Retyped(o, Get(v, PathOf(o)).value, parse))
                  else Field(o, s, parse)
  {
    hide PathOf, SetTyped, Get, Remove, Field, Retyped, IsFlag;
    var found := Get(v, PathOf(a));
    if found.Some? { SetField(a, s, found.value, o, parse); }
  }

  lemma {:induction false} ConsumedField(s: Settings, v: Value, i: nat, j: nat, parse: string -> Value)
    requires v.Map? && i <= |OWNERS| && j < |OWNERS| && IsFlag(OWNERS[j]) && Consume(s, v, i).Some?
    ensures InCluster(s.install) ==> InCluster(Consume(s, v, i).value.0.install)
    ensures var found := Get(v, PathOf(OWNERS[j]));
            if j < i && found.Some?
            then WellTyped(OWNERS[j], found.value) &&
                Field(OWNERS[j], Consume(s, v, i).value.0, parse) == Some(Retyped(OWNERS[j], found.value, parse))
            else Field(OWNERS[j], Consume(s, v, i).value.0, parse) == Field(OWNERS[j], s, parse)
  {
    hide OWNERS, PathOf, ConsumeOne, Get, Field, Retyped, IsFlag, WellTyped, InCluster;
    if i > 0 {
      ConsumedField(s, v, i - 1, j, parse);
      var r := Consume(s, v, i - 1).value;
      OneField(OWNERS[i - 1], r.0, r.1, OWNERS[j], parse);
      if j != i - 1 {
        DistinctOwners(i - 1, j);
      } else {
        ConsumedOwners(s, v, i - 1, j);
      }
    }
  }

  // ---- Where the flags show through ---------------------------------------------

  lemma GetOne(v: Value, k: string)
    ensures Get(v, [k]) == if v.Map? && k in v.m then Some(v.m[k]) else None
  {
    assert [k][1..] == [];
  }

  lemma GetTwo(v: Value, k: string, l: string)
    ensures Get(v, [k, l]) == if v.Map? && k in v.m then Get(v.m[k], [l]) else None
  {
    assert [k, l][1..] == [l];
  }

  lemma GetThree(v: Value, k: string, l: string, m: string)
    ensures Get(v, [k, l, m]) == if v.Map? && k in v.m then Get(v.m[k], [l, m]) else None
  {
    assert [k, l, m][1..] == [l, m];
  }

  /** The resource layer has no node at a flag, and no leaf above one. */
  lemma ResourcesLackFlags(s: Settings, o: Owner, i: nat)
    requires IsFlag(o) && i < |PathOf(o)|
    ensures Get(Resources(s), PathOf(o)).None? && Leaf(Resources(s), PathOf(o)[..i]).None?
  {
    hide Get;
    var r, p := Resources(s), PathOf(o);
    RootIs(r);
    GetOne(r, p[0]);
    GetTwo(r, p[0], p[1]);
    assert p[..0] == [] && p[..1] == [p[0]];
    assert "resources" != "replicas" && "resources" != "replicaCount" && "resources" != "o11y";
    if p[0] in r.m { GetOne(r.m[p[0]], p[1]); }
    if |p| == 2 {
      assert p == [p[0], p[1]];
    } else {
      assert p == [p[0], p[1], p[2]] && p[..2] == [p[0], p[1]];
      GetThree(r, p[0], p[1], p[2]);
      GetTwo(r.m[p[0]], p[1], p[2]);
      if p[1] in r.m[p[0]].m { GetOne(r.m[p[0]].m[p[1]], p[2]); }
    }
  }

  lemma RootIs(v: Value)
    ensures Get(v, []) == Some(v)
  {
  }

  lemma {:induction false} MergeKeepsMaps(target: Value, patch: Value, p: Path)
    requires Get(patch, p).Some? && Get(patch, p).value.Map?
    ensures Get(Merge(target, patch), p).Some? && Get(Merge(target, patch), p).value.Map?
    decreases |p|
  {
    if p != [] {
      MergeKeepsMaps(At(target, p[0]), patch.m[p[0]], p[1..]);
    }
  }

  lemma {:induction false} AboveIsMap(v: Value, q: Path, i: nat)
    requires Get(v, q).Some? && i < |q|
    ensures Get(v, q[..i]).Some? && Get(v, q[..i]).value.Map?
    decreases i
  {
    if i > 0 {
      assert q[..i][0] == q[0] && q[..i][1..] == q[1..][..i - 1];
      AboveIsMap(v.m[q[0]], q[1..], i - 1);
    }
  }

  /** A leaf of a merge comes from the patch or from the target. */
  lemma MergedLeaf(target: Value, patch: Value, p: Path)
    requires patch.Map? && Leaf(Merge(target, patch), p).Some?
    ensures Leaf(patch, p).Some? || Leaf(target, p).Some?
  {
    if Get(patch, p).None? {
      ShowsThrough(target, patch, p);
    } else if Get(patch, p).value.Map? {
      MergeKeepsMaps(target, patch, p);
    }
  }

  /** At an unblocked flag that the raw values lack, rendering shows the typed field. */
  lemma FlagShows(s: Settings, v: Value, parse: string -> Value, o: Owner)
    requires v.Map? && IsFlag(o) && InCluster(s.install)
    requires Get(v, PathOf(o)).None? && !Blocked(v, PathOf(o))
    ensures Get(Rendered(s, v, parse), PathOf(o)) == Field(o, s, parse)
  {
    hide OWNERS, PathOf, Resources, Flags, Field, IsFlag;
    var p, x := PathOf(o), Merge(Resources(s), v);
    ResourcesLackFlags(s, o, 0);
    ShowsThrough(Resources(s), v, p);
    forall i | 0 <= i < |p|
      ensures Leaf(x, p[..i]).None?
    {
      ResourcesLackFlags(s, o, i);
      assert Leaf(v, p[..i]).None?;
      if Leaf(x, p[..i]).Some? { MergedLeaf(Resources(s), v, p[..i]); }
    }
    assert !Blocked(x, p);
    ShowsThrough(Flags(s, parse), x, p);
    FlagAt(s, parse, o);
  }

  /** Outside a cluster no flag is rendered. */
  lemma FlagHidden(s: Settings, v: Value, parse: string -> Value, o: Owner)
    requires v.Map? && IsFlag(o) && !InCluster(s.install) && Get(v, PathOf(o)).None?
    ensures Get(Rendered(s, v, parse), PathOf(o)).None?
  {
    hide OWNERS, PathOf, Resources, IsFlag, InCluster;
    var p := PathOf(o);
    ResourcesLackFlags(s, o, 0);
    MergeNeverAdds(Resources(s), v, p);
    MergeNeverAdds(Flags(s, parse), Merge(Resources(s), v), p);
  }

  /** A consumed flag was rendered raw before. Afterwards it is rendered as its typed field writes it
      if the profile ends up in a cluster, and not at all otherwise. */
  lemma FlagsKept(s: Settings, v: Value, parse: string -> Value, o: Owner)
    requires v.Map? && Normalise(s, v).Some? && IsFlag(o) && Get(v, PathOf(o)).Some?
    ensures var r, p, raw := Normalise(s, v).value, PathOf(o), Get(v, PathOf(o)).value;
            && WellTyped(o, raw)
            && Get(Rendered(s, v, parse), p) == Some(raw)
            && Get(Rendered(r.0, r.1, parse), p) == if EndsInCluster(s, v) then Some(Retyped(o, raw, parse)) else None
  {
    hide OWNERS, PathOf, Resources, Flags, Field, IsFlag, Retyped, Consume, Prune, WellTyped, Get, Blocked, InCluster,
         EndsInCluster;
    var r, p := Normalise(s, v).value, PathOf(o);
    EveryOwner(o);
    var j :| 0 <= j < |OWNERS| && OWNERS[j] == o;
    ConsumedField(s, v, |OWNERS|, j, parse);
    ConsumedOwners(s, v, |OWNERS|, j);
    NormalisedMap(s, v);
    PruneNeverAdds(Consume(s, v, |OWNERS|).value.1, p);
    TypedLeaf(o, Get(v, p).value);
    LeafUnblocks(v, p);
    BlockedKept(s, v, o);
    TwiceWins(s, v, parse, p);
    EndExactly(s, v);
    if InCluster(r.0.install) {
      FlagShows(r.0, r.1, parse, o);
    } else {
      FlagHidden(r.0, r.1, parse, o);
    }
  }

  /** An install signal among the raw values. */
  predicate Signalled(v: Value) {
    Get(v, PathOf(LocalFlag)).Some? || Get(v, PathOf(KindFlag)).Some?
  }

  predicate EndsInCluster(s: Settings, v: Value) {
    InCluster(s.install) || Signalled(v)
  }

  /** Any install signal, whichever way it points, ends in an in-cluster mode. */
  lemma EndExactly(s: Settings, v: Value)
    requires v.Map? && Normalise(s, v).Some?
    ensures InCluster(Normalise(s, v).value.0.install) <==> EndsInCluster(s, v)
    ensures !Signalled(v) ==> Normalise(s, v).value.0.install == s.install
  {
    hide OWNERS, PathOf, Get, Consume, Prune;
    SucceedsExactly(s, v);
    assert Acceptable(LocalFlag, v) && Acceptable(KindFlag, v);
    ConsumedMode(s, v, |OWNERS|);
    OwnerCount();
  }

  lemma TypedLeaf(o: Owner, v: Value)
    requires WellTyped(o, v)
    ensures !v.Map? && !v.Null?
  {
  }

  function Number(v: Value): Option<real> {
    match v
    case Int(i) => Some(i as real)
    case Float(r) => Some(r)
    case _ => None
  }

  /** Written out alike: an integral float and the integer are the same number. */
  predicate Alike(a: Value, b: Value) {
    a == b || (Number(a).Some? && Number(a) == Number(b))
  }

  /** Typing leaves the written value alone always for booleans, for replicas given as a float, as
      retained values have them, or as an integer below 2^32, and for ingress classes that parse
      as themselves; a replica count given as text turns into a number. */
  lemma RetypedSame(o: Owner, v: Value, parse: string -> Value)
    requires IsFlag(o) && WellTyped(o, v)
    ensures Alike(Retyped(o, v, parse), v) <==>
              match o
              case IngressClass => parse(v.s) == v
              case ConsoleReplicas => v.Float? || (v.Int? && v.i < TWO32)
              case GatewayReplicas => v.Float? || (v.Int? && v.i < TWO32)
              case ControllerReplicas => v.Float? || (v.Int? && v.i < TWO32)
              case _ => true
  {
    if v.Int? { assert 0 <= v.i < TWO32 ==> v.i % TWO32 == v.i; }
  }

  // ---- Null leaves --------------------------------------------------------------

  /** A null removes the node from the overlay, so that only the flags are seen there. */
  lemma NullShows(s: Settings, v: Value, parse: string -> Value, q: Path)
    requires v.Map? && Leaf(v, q) == Some(Null)
    ensures Get(Rendered(s, v, parse), q) == Get(Flags(s, parse), q)
  {
    hide Resources, Flags;
    var x := Merge(Resources(s), v);
    LeafWins(Resources(s), v, q);
    forall i | 0 <= i < |q|
      ensures Leaf(x, q[..i]).None?
    {
      AboveIsMap(v, q, i);
      MergeKeepsMaps(Resources(s), v, q[..i]);
    }
    ShowsThrough(Flags(s, parse), x, q);
  }

  lemma GetStep(v: Value, q: Path)
    requires q != []
    ensures Get(v, q) == if v.Map? && q[0] in v.m then Get(v.m[q[0]], q[1..]) else None
  {
  }

  ghost predicate SameBelow(s: Settings, s': Settings, parse: string -> Value, q: Path) {
    forall o :: q <= PathOf(o) ==> Field(o, s, parse) == Field(o, s', parse)
  }

  /** Two leaves at one owned key are not told apart by any unowned path. */
  lemma LeafNode(a: Value, b: Value, q: Path)
    requires q != [] && !a.Map? && !b.Map?
    ensures Get(a, q) == Get(b, q) == None
  {
  }

  lemma GlobalRoot(s: Settings, s': Settings, parse: string -> Value)
    requires InCluster(s.install) && InCluster(s'.install) && SameBelow(s, s', parse, ["global"])
    ensures Flags(s, parse).m["global"] == Flags(s', parse).m["global"]
  {
    var q := ["global"];
    assert q <= PathOf(IngressClass) && q <= PathOf(EnableIstioAPI) && q <= PathOf(EnableGatewayAPI) &&
        q <= PathOf(LocalFlag);
    assert Field(IngressClass, s, parse) == Field(IngressClass, s', parse);
    assert Field(EnableIstioAPI, s, parse) == Field(EnableIstioAPI, s', parse);
    assert Field(EnableGatewayAPI, s, parse) == Field(EnableGatewayAPI, s', parse);
    assert Field(LocalFlag, s, parse) == Field(LocalFlag, s', parse);
  }

  lemma GlobalKey(s: Settings, parse: string -> Value, k: string)
    requires InCluster(s.install) && (forall t :: !parse(t).Map?) && k in Flags(s, parse).m["global"].m
    ensures Owned(["global", k]) && !Flags(s, parse).m["global"].m[k].Map?
  {
    hide Owned;
    OwnerIsOwned(if k == "ingressClass" then IngressClass else if k == "enableIstioAPI" then EnableIstioAPI
                 else if k == "enableGatewayAPI" then EnableGatewayAPI else LocalFlag);
  }

  /** Below `global` the flags have owned leaves only. */
  lemma GlobalDeep(s: Settings, parse: string -> Value, q: Path)
    requires InCluster(s.install) && (forall t :: !parse(t).Map?)
    requires |q| > 1 && q[0] == "global" && !Owned(q)
    ensures Get(Flags(s, parse), q).None?
  {
    hide Get, Owned;
    var f := Flags(s, parse).m["global"];
    GetStep(Flags(s, parse), q);
    GetStep(f, q[1..]);
    assert |q| == 2 ==> q == ["global", q[1]];
    if q[1] in f.m {
      GlobalKey(s, parse, q[1]);
      LeafNode(f.m[q[1]], Null, q[1..][1..]);
    }
  }

  lemma OwnerIsOwned(o: Owner)
    ensures Owned(PathOf(o))
  {
  }

  lemma GlobalNode(s: Settings, s': Settings, parse: string -> Value, q: Path)
    requires InCluster(s.install) && InCluster(s'.install) && (forall t :: !parse(t).Map?)
    requires q != [] && q[0] == "global" && !Owned(q) && SameBelow(s, s', parse, q)
    ensures Get(Flags(s, parse), q) == Get(Flags(s', parse), q)
  {
    hide Get, Owned, SameBelow;
    if |q| == 1 {
      assert q == ["global"];
      GlobalRoot(s, s', parse);
      GetStep(Flags(s, parse), q);
      GetStep(Flags(s', parse), q);
    } else {
      GlobalDeep(s, parse, q);
      GlobalDeep(s', parse, q);
    }
  }

  lemma ConsoleNode(s: Settings, s': Settings, parse: string -> Value, q: Path)
    requires InCluster(s.install) && InCluster(s'.install)
    requires q != [] && q[0] == "higress-console" && !Owned(q) && SameBelow(s, s', parse, q)
    ensures Get(Flags(s, parse), q) == Get(Flags(s', parse), q)
  {
    hide Get;
    var f, f' := Flags(s, parse).m["higress-console"], Flags(s', parse).m["higress-console"];
    GetStep(Flags(s, parse), q);
    GetStep(Flags(s', parse), q);
    assert q <= PathOf(ConsoleReplicas) ==> Field(ConsoleReplicas, s, parse) == Field(ConsoleReplicas, s', parse);
    assert q <= PathOf(O11yEnabled) ==> Field(O11yEnabled, s, parse) == Field(O11yEnabled, s', parse);
    if |q| == 1 {
      assert q == ["higress-console"];
      assert f == f';
    } else {
      GetStep(f, q[1..]);
      GetStep(f', q[1..]);
      assert q[..2] == ["higress-console", q[1]];
      if |q| == 2 {
        assert q == ["higress-console", q[1]] && q != PathOf(ConsoleReplicas);
      } else if q[1] == "o11y" {
        GetStep(f.m["o11y"], q[1..][1..]);
        GetStep(f'.m["o11y"], q[1..][1..]);
        assert |q| == 3 ==> q == ["higress-console", "o11y", q[2]] && q != PathOf(O11yEnabled);
        if |q| > 3 { LeafNode(Bool(s.o11yEnabled), Bool(s'.o11yEnabled), q[1..][1..][1..]); }
      } else {
        LeafNode(Int(s.consoleReplicas), Int(s'.consoleReplicas), q[1..][1..]);
      }
    }
  }

  lemma CoreTop(s: Settings, s': Settings, parse: string -> Value)
    requires InCluster(s.install) && InCluster(s'.install) && SameBelow(s, s', parse, ["higress-core"])
    ensures Flags(s, parse).m["higress-core"] == Flags(s', parse).m["higress-core"]
  {
    hide SameBelow;
    var q := ["higress-core"];
    assert q <= PathOf(GatewayReplicas) && q <= PathOf(ControllerReplicas);
    SameField(s, s', parse, q, GatewayReplicas);
    SameField(s, s', parse, q, ControllerReplicas);
  }

  lemma CorePart(s: Settings, s': Settings, parse: string -> Value, part: string)
    requires InCluster(s.install) && InCluster(s'.install) && SameBelow(s, s', parse, ["higress-core", part])
    ensures At(Flags(s, parse).m["higress-core"], part) == At(Flags(s', parse).m["higress-core"], part)
  {
    hide SameBelow;
    var q := ["higress-core", part];
    if part == "gateway" {
      assert q <= PathOf(GatewayReplicas);
      SameField(s, s', parse, q, GatewayReplicas);
    } else if part == "controller" {
      assert q <= PathOf(ControllerReplicas);
      SameField(s, s', parse, q, ControllerReplicas);
    }
  }

  /** At and above `gateway` and `controller` the core flags depend on the replicas alone. */
  lemma CoreRoot(s: Settings, s': Settings, parse: string -> Value, q: Path)
    requires InCluster(s.install) && InCluster(s'.install) && SameBelow(s, s', parse, q)
    requires 1 <= |q| <= 2 && q[0] == "higress-core"
    ensures Get(Flags(s, parse), q) == Get(Flags(s', parse), q)
  {
    hide Get, SameBelow, Field;
    var f, f' := Flags(s, parse).m["higress-core"], Flags(s', parse).m["higress-core"];
    GetStep(Flags(s, parse), q);
    GetStep(Flags(s', parse), q);
    if |q| == 1 {
      assert q == ["higress-core"];
      CoreTop(s, s', parse);
    } else {
      assert q == ["higress-core", q[1]];
      CorePart(s, s', parse, q[1]);
      assert q[1..] == [q[1]];
      GetOne(f, q[1]);
      GetOne(f', q[1]);
    }
  }

  lemma SameField(s: Settings, s': Settings, parse: string -> Value, q: Path, o: Owner)
    requires SameBelow(s, s', parse, q) && q <= PathOf(o)
    ensures Field(o, s, parse) == Field(o, s', parse)
  {
  }

  lemma CoreDeep(s: Settings, parse: string -> Value, q: Path)
    requires InCluster(s.install) && |q| > 2 && q[0] == "higress-core" && !Owned(q)
    ensures Get(Flags(s, parse), q).None?
  {
    hide Get, Owned;
    var f := Flags(s, parse).m["higress-core"];
    GetStep(Flags(s, parse), q);
    GetStep(f, q[1..]);
    if q[1] in f.m {
      GetStep(f.m[q[1]], q[1..][1..]);
      if q[2] in f.m[q[1]].m {
        if |q| == 3 {
          assert q == ["higress-core", q[1], q[2]];
          OwnerIsOwned(GatewayReplicas);
          OwnerIsOwned(ControllerReplicas);
          assert false;
        } else {
          LeafNode(f.m[q[1]].m[q[2]], Null, q[1..][1..][1..]);
        }
      }
    }
  }

  lemma CoreNode(s: Settings, s': Settings, parse: string -> Value, q: Path)
    requires InCluster(s.install) && InCluster(s'.install)
    requires q != [] && q[0] == "higress-core" && !Owned(q) && SameBelow(s, s', parse, q)
    ensures Get(Flags(s, parse), q) == Get(Flags(s', parse), q)
  {
    hide Get, Owned, SameBelow, Flags;
    if |q| <= 2 {
      CoreRoot(s, s', parse, q);
    } else {
      CoreDeep(s, parse, q);
      CoreDeep(s', parse, q);
    }
  }

  lemma FlagsNode(s: Settings, s': Settings, parse: string -> Value, q: Path)
    requires InCluster(s.install) && InCluster(s'.install) && (forall t :: !parse(t).Map?)
    requires q != [] && !Owned(q) && SameBelow(s, s', parse, q)
    ensures Get(Flags(s, parse), q) == Get(Flags(s', parse), q)
  {
    hide Get, SameBelow, Owned;
    if q[0] == "global" {
      GlobalNode(s, s', parse, q);
    } else if q[0] == "higress-console" {
      ConsoleNode(s, s', parse, q);
    } else if q[0] == "higress-core" {
      CoreNode(s, s', parse, q);
    } else {
      GetStep(Flags(s, parse), q);
      GetStep(Flags(s', parse), q);
    }
  }

  lemma SetInstall(a: Owner, s: Settings, v: Value)
    requires SetTyped(a, s, v).Some? && a != LocalFlag && a != KindFlag
    ensures SetTyped(a, s, v).value.install == s.install
  {
  }

  lemma {:induction false} ConsumedInstall(s: Settings, v: Value, i: nat)
    requires v.Map? && i <= |OWNERS| && Consume(s, v, i).Some?
    requires Get(v, PathOf(LocalFlag)).None? && Get(v, PathOf(KindFlag)).None?
    ensures Consume(s, v, i).value.0.install == s.install
  {
    hide OWNERS, PathOf, SetTyped, Get, Remove;
    if i > 0 {
      ConsumedInstall(s, v, i - 1);
      ConsumedOwners(s, v, i - 1, i - 1);
      var r, a := Consume(s, v, i - 1).value, OWNERS[i - 1];
      if Get(r.1, PathOf(a)).Some? { SetInstall(a, r.0, Get(r.1, PathOf(a)).value); }
    }
  }

  /** Below an unowned leaf nothing is consumed, so the fields rendered there do not change. */
  lemma FieldsBelow(s: Settings, v: Value, parse: string -> Value, q: Path, o: Owner)
    requires v.Map? && Normalise(s, v).Some? && Leaf(v, q).Some? && !Owned(q) && q <= PathOf(o)
    ensures Field(o, Normalise(s, v).value.0, parse) == Field(o, s, parse)
  {
    hide OWNERS, PathOf, Get, Consume, Prune, IsFlag;
    assert q != PathOf(o);
    LeafEnds(v, q, PathOf(o));
    EveryOwner(o);
    var j :| 0 <= j < |OWNERS| && OWNERS[j] == o;
    if IsFlag(o) {
      ConsumedField(s, v, |OWNERS|, j, parse);
    } else if o == LocalFlag {
      LocalAndKind(v, q);
      ConsumedInstall(s, v, |OWNERS|);
    } else {
      NoField(o, s, Normalise(s, v).value.0, parse);
    }
  }

  lemma NoField(o: Owner, s: Settings, s': Settings, parse: string -> Value)
    requires !IsFlag(o) && o != LocalFlag
    ensures Field(o, s, parse) == Field(o, s', parse)
  {
  }

  /** A leaf above the one is above the other. */
  lemma LocalAndKind(v: Value, q: Path)
    requires v.Map? && Leaf(v, q).Some? && q < PathOf(LocalFlag)
    ensures Get(v, PathOf(LocalFlag)).None? && Get(v, PathOf(KindFlag)).None?
  {
    assert q != [];
    assert q == ["global"];
    LeafEnds(v, q, PathOf(LocalFlag));
    LeafEnds(v, q, PathOf(KindFlag));
  }

  lemma NullsInCluster(s: Settings, v: Value, parse: string -> Value, q: Path)
    requires v.Map? && Normalise(s, v).Some? && !Owned(q) && Leaf(v, q) == Some(Null)
    requires InCluster(s.install) && forall t :: !parse(t).Map?
    ensures var r := Normalise(s, v).value; Get(Rendered(r.0, r.1, parse), q) == Get(Rendered(s, v, parse), q)
  {
    hide OWNERS, Flags, Resources, Owned, Normalise, InCluster, PathOf, Field;
    var r := Normalise(s, v).value;
    assert q != [];
    NormalisedLeaves(s, v, q);
    NormalisedMap(s, v);
    NullShows(s, v, parse, q);
    NullShows(r.0, r.1, parse, q);
    StaysInCluster(s, v, parse);
    forall o | q <= PathOf(o)
      ensures Field(o, s, parse) == Field(o, r.0, parse)
    {
      FieldsBelow(s, v, parse, q, o);
    }
    FlagsNode(s, r.0, parse, q);
  }

  lemma StaysInCluster(s: Settings, v: Value, parse: string -> Value)
    requires v.Map? && Normalise(s, v).Some? && InCluster(s.install)
    ensures InCluster(Normalise(s, v).value.0.install)
  {
    hide Consume, Prune, Get, PathOf, InCluster;
    EndExactly(s, v);
  }

  // ---- Null leaves outside a cluster --------------------------------------------

  ghost predicate AboveFlag(q: Path) {
    exists o :: IsFlag(o) && q <= PathOf(o)
  }

  lemma AboveIs(q: Path, o: Owner)
    requires IsFlag(o) && q <= PathOf(o)
    ensures AboveFlag(q)
  {
  }

  /** In a cluster the unowned nodes of the flags are exactly the paths above a flag. */
  lemma FlagNodes(s: Settings, parse: string -> Value, q: Path)
    requires InCluster(s.install) && (forall t :: !parse(t).Map?) && q != [] && !Owned(q)
    ensures Get(Flags(s, parse), q).Some? <==> AboveFlag(q)
  {
    hide Get, PathOf, IsFlag, Flags, Owned;
    if AboveFlag(q) {
      var o :| IsFlag(o) && q <= PathOf(o);
      FlagAt(s, parse, o);
      HasField(o, s, parse);
      if Get(Flags(s, parse), q).None? { NothingBelow(Flags(s, parse), q, PathOf(o)); }
    } else {
      NoFlagNode(s, parse, q);
    }
  }

  lemma HasField(o: Owner, s: Settings, parse: string -> Value)
    requires IsFlag(o)
    ensures Field(o, s, parse).Some?
  {
  }

  lemma NoFlagNode(s: Settings, parse: string -> Value, q: Path)
    requires InCluster(s.install) && (forall t :: !parse(t).Map?) && q != [] && !Owned(q) && !AboveFlag(q)
    ensures Get(Flags(s, parse), q).None?
  {
    hide Get, IsFlag, Owned, AboveFlag;
    assert IsFlag(EnableIstioAPI) && IsFlag(O11yEnabled) && IsFlag(GatewayReplicas) &&
        IsFlag(ControllerReplicas) by { FlagOwners(); }
    GetStep(Flags(s, parse), q);
    if q[0] == "global" {
      if |q| == 1 {
        assert q == ["global"] && q <= PathOf(EnableIstioAPI);
        AboveIs(q, EnableIstioAPI);
        assert false;
      }
      GlobalDeep(s, parse, q);
    } else if q[0] == "higress-console" {
      NoConsoleNode(s, parse, q);
    } else if q[0] == "higress-core" {
      NoCoreNode(s, parse, q);
    }
  }

  lemma FlagOwners()
    ensures IsFlag(EnableIstioAPI) && IsFlag(O11yEnabled) && IsFlag(GatewayReplicas) && IsFlag(ControllerReplicas)
  {
  }

  lemma NoConsoleNode(s: Settings, parse: string -> Value, q: Path)
    requires InCluster(s.install) && q != [] && q[0] == "higress-console" && !Owned(q) && !AboveFlag(q)
    ensures Get(Flags(s, parse), q).None?
  {
    hide Get, IsFlag, Owned, AboveFlag;
    FlagOwners();
    var f := Flags(s, parse).m["higress-console"];
    GetStep(Flags(s, parse), q);
    if q <= PathOf(O11yEnabled) { AboveIs(q, O11yEnabled); }
    assert |q| == 1 ==> q == ["higress-console"];
    assert |q| > 1;
    GetStep(f, q[1..]);
    if q[1] == "o11y" {
      assert |q| == 2 ==> q == ["higress-console", "o11y"];
      assert |q| > 2;
      GetStep(f.m["o11y"], q[1..][1..]);
      if q[2] == "enabled" {
        assert |q| == 3 ==> q == PathOf(O11yEnabled);
        OwnerIsOwned(O11yEnabled);
        LeafNode(Bool(s.o11yEnabled), Null, q[1..][1..][1..]);
      }
    } else if q[1] == "replicaCount" {
      assert |q| == 2 ==> q == PathOf(ConsoleReplicas);
      OwnerIsOwned(ConsoleReplicas);
      LeafNode(Int(s.consoleReplicas), Null, q[1..][1..]);
    }
  }

  lemma NoCoreNode(s: Settings, parse: string -> Value, q: Path)
    requires InCluster(s.install) && q != [] && q[0] == "higress-core" && !Owned(q) && !AboveFlag(q)
    ensures Get(Flags(s, parse), q).None?
  {
    hide Get, IsFlag, Owned, AboveFlag;
    FlagOwners();
    if q <= PathOf(GatewayReplicas) { AboveIs(q, GatewayReplicas); }
    if q <= PathOf(ControllerReplicas) { AboveIs(q, ControllerReplicas); }
    assert |q| == 1 ==> q == ["higress-core"];
    if |q| == 2 {
      assert q == ["higress-core", q[1]];
      GetStep(Flags(s, parse), q);
      GetStep(Flags(s, parse).m["higress-core"], q[1..]);
    } else {
      CoreDeep(s, parse, q);
    }
  }

  lemma NoFlagsOutside(s: Settings, parse: string -> Value, q: Path)
    requires !InCluster(s.install) && q != []
    ensures Get(Flags(s, parse), q).None?
  {
  }

  /** At an unowned null leaf the rendered values agree before and after if and only if the profile
      was in a cluster already, or no install signal is among the raw values, or the leaf lies
      above no flag. */
  lemma NullsKept(s: Settings, v: Value, parse: string -> Value, q: Path)
    requires v.Map? && Normalise(s, v).Some? && !Owned(q) && Leaf(v, q) == Some(Null) && forall t :: !parse(t).Map?
    ensures var r := Normalise(s, v).value;
            Get(Rendered(r.0, r.1, parse), q) == Get(Rendered(s, v, parse), q) <==>
            InCluster(s.install) || !Signalled(v) || !AboveFlag(q)
  {
    hide OWNERS, Flags, Resources, Owned, Normalise, InCluster, PathOf, AboveFlag, Signalled;
    var r := Normalise(s, v).value;
    assert q != [];
    if InCluster(s.install) {
      NullsInCluster(s, v, parse, q);
    } else {
      NormalisedLeaves(s, v, q);
      NormalisedMap(s, v);
      NullShows(s, v, parse, q);
      NullShows(r.0, r.1, parse, q);
      NoFlagsOutside(s, parse, q);
      EndExactly(s, v);
      if Signalled(v) {
        FlagNodes(r.0, parse, q);
      } else {
        NoFlagsOutside(r.0, parse, q);
      }
    }
  }

  const SIGNALLED_NULL := Map(map["higress-console" := Null, "global" := Map(map["local" := Bool(true)])])

  lemma SignalledNullIs(o: Owner)
    ensures Get(SIGNALLED_NULL, PathOf(o)) == if o == LocalFlag then Some(Bool(true)) else None
  {
    hide Get;
    var v, p := SIGNALLED_NULL, PathOf(o);
    GetStep(v, p);
    if p[0] == "global" {
      GetStep(v.m["global"], p[1..]);
      assert p == ["global", p[1]] && p[1..][1..] == [];
      RootIs(Bool(true));
      assert p[1] == "local" <==> o == LocalFlag;
    } else if p[0] == "higress-console" {
      LeafNode(Null, Null, p[1..]);
    }
  }

  /** The failing kind, for every profile outside a cluster: `higress-console: null` beside
      `global.local: true` renders no console settings before and the typed ones after. */
  lemma NullsDiffer(s: Settings, parse: string -> Value)
    requires !InCluster(s.install) && forall t :: !parse(t).Map?
    ensures Normalise(s, SIGNALLED_NULL).Some?
    ensures var r := Normalise(s, SIGNALLED_NULL).value;
            Get(Rendered(r.0, r.1, parse), ["higress-console"]) != Get(Rendered(s, SIGNALLED_NULL, parse),
                ["higress-console"])
  {
    hide OWNERS, Flags, Resources, Normalise, InCluster, Consume, Prune;
    var q := ["higress-console"];
    forall o
      ensures Acceptable(o, SIGNALLED_NULL)
    {
      hide PathOf, Get;
      SignalledNullIs(o);
    }
    SucceedsExactly(s, SIGNALLED_NULL);
    GetOne(SIGNALLED_NULL, "higress-console");
    NotOwned(q);
    assert q <= PathOf(ConsoleReplicas) && IsFlag(ConsoleReplicas);
    AboveIs(q, ConsoleReplicas);
    SignalledNullIs(LocalFlag);
    NullsKept(s, SIGNALLED_NULL, parse, q);
  }

  lemma NotOwned(q: Path)
    requires |q| == 1
    ensures !Owned(q)
  {
    forall o
      ensures PathOf(o) != q
    {
      assert |PathOf(o)| > 1;
    }
  }
}
