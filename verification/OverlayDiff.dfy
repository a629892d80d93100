/** hgctl/pkg/helm/common.go: the overlay leaves that differ from a baseline. */
module OverlayDiff {
  import opened Wrappers
  import opened Text
  import opened HelmValues
  import opened Recovering
  import opened Reporting

  /** The baseline along a path; a missing node reads as null. */
  function Along(b: Value, q: Path): Value
    decreases |q|
  {
    if q == [] then b else Along(At(b, q[0]), q[1..])
  }

  /** `q` is a leaf of the overlay that differs from the baseline. */
  ghost predicate Differs(b: Value, o: Value, q: Path) {
    Leaf(o, q).Some? && Leaf(o, q).value != Along(b, q)
  }

  ghost predicate DiffName(b: Value, o: Value, prefix: string, name: string) {
    exists q :: Differs(b, o, q) && JoinFrom(prefix, q) == name
  }

  lemma DiffBelow(b: Value, o: Value, prefix: string, name: string)
    requires o.Map?
    ensures DiffName(b, o, prefix, name) <==>
              exists k :: k in o.m && DiffName(At(b, k), o.m[k], Prefixed(prefix, k), name)
  {
    if DiffName(b, o, prefix, name) {
      var q :| Differs(b, o, q) && JoinFrom(prefix, q) == name;
      assert Differs(At(b, q[0]), o.m[q[0]], q[1..]) && JoinFrom(Prefixed(prefix, q[0]), q[1..]) == name;
      assert DiffName(At(b, q[0]), o.m[q[0]], Prefixed(prefix, q[0]), name);
    }
    if k :| k in o.m && DiffName(At(b, k), o.m[k], Prefixed(prefix, k), name) {
      var q :| Differs(At(b, k), o.m[k], q) && JoinFrom(Prefixed(prefix, k), q) == name;
      assert ([k] + q)[1..] == q;
      assert Differs(b, o, [k] + q) && JoinFrom(prefix, [k] + q) == name;
    }
  }

  lemma DiffLeaf(b: Value, o: Value, prefix: string, name: string)
    requires !o.Map?
    ensures DiffName(b, o, prefix, name) <==> name == prefix && b != o
  {
    if b != o { assert Differs(b, o, []) && JoinFrom(prefix, []) == prefix; }
  }

  /** The keys of a map in ascending order. */
  method SortedKeys(m: map<string, Value>) returns (keys: seq<string>)
    ensures StrictlySorted(keys) && forall k :: k in keys <==> k in m
  {
    keys := [];
    var rest := m.Keys;
    while rest != {}
      invariant rest <= m.Keys
      invariant StrictlySorted(keys)
      invariant forall k :: k in keys <==> k in m && k !in rest
      decreases |rest|
    {
      var k :| k in rest;
      InsertStrictlySorted(k, keys);
      keys := Insert(k, keys);
      rest := rest - {k};
    }
  }

  ghost function DifferingIn(b: Value, o: Value): Path -> bool {
    q => Differs(b, o, q)
  }

  lemma DiffersBelow(b: Value, o: Value, k: string, q: Path)
    requires o.Map? && k in o.m
    ensures Differs(At(b, k), o.m[k], q) <==> Differs(b, o, [k] + q)
  {
    assert ([k] + q)[1..] == q;
  }

  /** Each overlay leaf that differs from the baseline is named once. */
  method CollectOverlayDiffPaths(baseline: Value, overlay: Value, prefix: string, paths: seq<string>)
    returns (r: seq<string>, ghost qs: seq<Path>)
    ensures r == paths + JoinAll(prefix, qs) && Lists(DifferingIn(baseline, overlay), qs)
    ensures forall name :: name in r <==> name in paths || DiffName(baseline, overlay, prefix, name)
    decreases overlay
  {
    hide DiffName, Lists, ListsUnder, Differs, JoinAll, Prepend, StrictlySorted, Prefixed, At;
    if !overlay.Map? {
      qs := if baseline != overlay then [[]] else [];
      r := if baseline != overlay then paths + [prefix] else paths;
      LeafListed(baseline, overlay, prefix);
      DifferingNames(baseline, overlay, prefix, qs);
      return;
    }
    var keys := SortedKeys(overlay.m);
    r, qs := paths, [];
    ListsNone(DifferingIn(baseline, overlay), paths, prefix);
    ghost var done: set<string> := {};
    for i := 0 to |keys|
      invariant forall k :: k in done <==> k in keys[..i]
      invariant r == paths + JoinAll(prefix, qs)
      invariant ListsUnder(DifferingIn(baseline, overlay), done, qs)
    {
      var k := keys[i];
      NotBefore(keys, i);
      ghost var more;
      r, more := CollectOverlayDiffPaths(At(baseline, k), overlay.m[k], Prefixed(prefix, k), r);
      forall q
        ensures Differs(At(baseline, k), overlay.m[k], q) <==> Differs(baseline, overlay, [k] + q)
      {
        DiffersBelow(baseline, overlay, k, q);
      }
      ListsNext(DifferingIn(baseline, overlay), DifferingIn(At(baseline, k), overlay.m[k]), done, qs, k, more);
      JoinNext(prefix, qs, k, more);
      qs := qs + Prepend(k, more);
      done := done + {k};
    }
    assert keys[..|keys|] == keys;
    assert done == overlay.m.Keys;
    DifferingAll(baseline, overlay, qs);
    DifferingNames(baseline, overlay, prefix, qs);
  }

  lemma LeafListed(b: Value, o: Value, prefix: string)
    requires !o.Map?
    ensures Lists(DifferingIn(b, o), if b != o then [[]] else [])
    ensures JoinAll(prefix, [[]]) == [prefix] && JoinAll(prefix, []) == []
  {
  }

  lemma NotBefore(keys: seq<string>, i: nat)
    requires StrictlySorted(keys) && i < |keys|
    ensures keys[i] !in keys[..i]
  {
    if keys[i] in keys[..i] {
      var j :| 0 <= j < i && keys[j] == keys[i];
      StrictlySortedDistinct(keys, i, j);
    }
  }

  lemma DifferingAll(b: Value, o: Value, qs: seq<Path>)
    requires o.Map? && ListsUnder(DifferingIn(b, o), o.m.Keys, qs)
    ensures Lists(DifferingIn(b, o), qs)
  {
  }

  lemma DifferingNames(b: Value, o: Value, prefix: string, qs: seq<Path>)
    requires Lists(DifferingIn(b, o), qs)
    ensures forall name :: name in JoinAll(prefix, qs) <==> DiffName(b, o, prefix, name)
  {
    hide Differs;
    forall name
      ensures name in JoinAll(prefix, qs) <==> DiffName(b, o, prefix, name)
    {
      if name in JoinAll(prefix, qs) {
        var i :| 0 <= i < |qs| && JoinFrom(prefix, qs[i]) == name;
        assert qs[i] in qs;
        assert DifferingIn(b, o)(qs[i]);
      }
      if DiffName(b, o, prefix, name) {
        var q :| Differs(b, o, q) && JoinFrom(prefix, q) == name;
        assert DifferingIn(b, o)(q);
        var i :| 0 <= i < |qs| && qs[i] == q;
        assert JoinAll(prefix, qs)[i] == name;
      }
    }
  }

  /** What a local-docker upgrade can take from an overlay. */
  predicate Consumed(name: string) {
    name == "installPackagePath" || name == "charts.standalone.url"
  }

  function Keep(xs: seq<string>): (r: seq<string>)
    ensures forall x :: x in r <==> x in xs && !Consumed(x)
  {
    if xs == [] then [] else Keep(xs[..|xs| - 1]) + if Consumed(xs[|xs| - 1]) then [] else [xs[|xs| - 1]]
  }

  /** The sorted names of the differing overlay leaves, without the two that are consumed. */
  method UnsupportedLocalDockerUpgradeOverlayPaths(baseline: Value, overlay: Value)
    returns (unsupported: seq<string>, ghost qs: seq<Path>)
    ensures Lists(DifferingIn(baseline, overlay), qs) && unsupported == Keep(SortStrings(JoinAll("", qs)))
    ensures Sorted(unsupported)
    ensures forall name :: name in unsupported <==> DiffName(baseline, overlay, "", name) && !Consumed(name)
  {
    hide DiffName, Lists, JoinAll, Consumed, SortStrings;
    var paths;
    paths, qs := CollectOverlayDiffPaths(baseline, overlay, "", []);
    assert [] + JoinAll("", qs) == JoinAll("", qs);
    var sorted := SortStrings(paths);
    SortKeeps(paths);
    unsupported := [];
    for i := 0 to |sorted|
      invariant Sorted(unsupported) && unsupported == Keep(sorted[..i])
    {
      assert sorted[..i + 1][..i] == sorted[..i];
      if !Consumed(sorted[i]) {
        SortedAppend(sorted, i, unsupported);
        unsupported := unsupported + [sorted[i]];
      }
    }
    assert sorted[..|sorted|] == sorted;
  }

  lemma SortKeeps(xs: seq<string>)
    ensures Sorted(SortStrings(xs)) && forall x :: x in SortStrings(xs) <==> x in xs
  {
    forall x
      ensures x in SortStrings(xs) <==> x in xs
    {
      assert x in multiset(SortStrings(xs)) <==> x in multiset(xs);
    }
  }

  lemma SortedAppend(sorted: seq<string>, i: nat, kept: seq<string>)
    requires i < |sorted| && Sorted(sorted) && Sorted(kept) && forall x :: x in kept ==> x in sorted[..i]
    ensures Sorted(kept + [sorted[i]])
  {
    forall a | 0 <= a < |kept|
      ensures !StrLt(sorted[i], kept[a])
    {
      assert kept[a] in sorted[..i];
      var b :| 0 <= b < i && sorted[b] == kept[a];
    }
  }

  // ---- Against the merge --------------------------------------------------------

  /** No empty maps and no null leaves. */
  ghost predicate Full(o: Value) {
    match o
    case Null => false
    case Map(m) => m != map[] && forall k :: k in m ==> Full(m[k])
    case _ => true
  }

  ghost predicate NoDiff(b: Value, o: Value) {
    forall q :: !Differs(b, o, q)
  }

  lemma NoDiffBelow(b: Value, o: Value, k: string)
    requires o.Map? && k in o.m && NoDiff(b, o)
    ensures NoDiff(At(b, k), o.m[k])
  {
    forall q
      ensures !Differs(At(b, k), o.m[k], q)
    {
      assert ([k] + q)[1..] == q;
      assert !Differs(b, o, [k] + q);
      assert Along(b, [k] + q) == Along(At(b, k), q);
    }
  }

  /** An overlay that agrees with the baseline at its leaves changes nothing. */
  lemma {:induction false} NoDiffNoChange(b: Value, o: Value)
    requires Full(o) && NoDiff(b, o)
    ensures Merge(b, o) == b && !b.Null?
    decreases o
  {
    if !o.Map? {
      assert !Differs(b, o, []);
    } else {
      forall k | k in o.m
        ensures Merge(At(b, k), o.m[k]) == At(b, k) && !At(b, k).Null?
      {
        NoDiffBelow(b, o, k);
        NoDiffNoChange(At(b, k), o.m[k]);
      }
      var k :| k in o.m;
      assert !At(b, k).Null?;
      assert b.Map?;
      forall k
        ensures Lookup(Merge(b, o).m, k) == Lookup(b.m, k)
      {
        if k in o.m { assert k in b.m && !o.m[k].Null?; }
      }
      SameMaps(Merge(b, o).m, b.m);
    }
  }

  lemma {:induction false} FullLeaf(o: Value, q: Path)
    requires Full(o) && Leaf(o, q).Some?
    ensures !Leaf(o, q).value.Null?
    decreases |q|
  {
    if q != [] {
      assert Leaf(o, q) == Leaf(o.m[q[0]], q[1..]);
      FullLeaf(o.m[q[0]], q[1..]);
    }
  }

  lemma {:induction false} AlongGet(b: Value, q: Path)
    requires Get(b, q).Some?
    ensures Along(b, q) == Get(b, q).value
    decreases |q|
  {
    if q != [] { AlongGet(b.m[q[0]], q[1..]); }
  }

  /** For overlays without empty maps or null leaves: no path is reported if and only if merging
      the overlay leaves the baseline as it is. */
  lemma EmptyIffUnchanged(b: Value, o: Value)
    requires o.Map? && Full(o)
    ensures (forall name :: !DiffName(b, o, "", name)) <==> Merge(b, o) == b
  {
    if forall name :: !DiffName(b, o, "", name) {
      forall q
        ensures !Differs(b, o, q)
      {
        assert !DiffName(b, o, "", JoinFrom("", q));
      }
      NoDiffNoChange(b, o);
    }
    if Merge(b, o) == b {
      forall name
        ensures !DiffName(b, o, "", name)
      {
        if q :| Differs(b, o, q) && JoinFrom("", q) == name {
          FullLeaf(o, q);
          LeafWins(b, o, q);
          AlongGet(b, q);
          assert false;
        }
      }
    }
  }

  /** Both restrictions are needed: an empty map adds a key and a null drops one unreported. */
  lemma UnreportedChanges(k: string)
    ensures var b, o := Map(map[]), Map(map[k := Map(map[])]);
            Merge(b, o) != b && forall name :: !DiffName(b, o, "", name)
    ensures var b, o := Map(map[k := Null]), Map(map[k := Null]);
            Merge(b, o) != b && forall name :: !DiffName(b, o, "", name)
  {
    var empty, nul := Map(map[k := Map(map[])]), Map(map[k := Null]);
    assert k in Merge(Map(map[]), empty).m && k !in Merge(nul, nul).m;
    forall name
      ensures !DiffName(Map(map[]), empty, "", name) && !DiffName(nul, nul, "", name)
    {
      DiffBelow(Map(map[]), empty, "", name);
      DiffBelow(At(Map(map[]), k), Map(map[]), Prefixed("", k), name);
      DiffBelow(nul, nul, "", name);
      DiffLeaf(At(nul, k), Null, Prefixed("", k), name);
    }
  }
}
