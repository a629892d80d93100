/** Helm values as trees: hgctl/pkg/helm/recover.go (nested access, removal, pruning) and the merge
    of hgctl/pkg/util/yaml.go, which is the JSON Merge Patch of RFC 7386. */
module HelmValues {
  import opened Wrappers
  import opened Text

  /** `Opaque` stands for lists, which every operation here treats as a leaf. */
  datatype Value =
    | Map(m: map<string, Value>)
    | Str(s: string)
    | Bool(b: bool)
    | Int(i: int)
    | Float(r: real)
    | Null
    | Opaque(raw: string)

  type Path = seq<string>

  function Get(v: Value, p: Path): Option<Value> {
    if p == [] then Some(v)
    else if v.Map? && p[0] in v.m then Get(v.m[p[0]], p[1..])
    else None
  }

  /** The leaf at a path, if there is one. */
  function Leaf(v: Value, p: Path): Option<Value> {
    var found := Get(v, p);
    if found.Some? && !found.value.Map? then found else None
  }

  method GetNested(values: Value, path: string) returns (r: Option<Value>)
    ensures r == Get(values, Split(path, '.'))
  {
    var parts := Split(path, '.');
    var cur := values;
    for i := 0 to |parts|
      invariant Get(values, parts) == Get(cur, parts[i..])
    {
      if !cur.Map? || parts[i] !in cur.m {
        return None;
      }
      assert parts[i..][0] == parts[i] && parts[i..][1..] == parts[i + 1..];
      cur := cur.m[parts[i]];
    }
    return Some(cur);
  }

  // ---- Removal ------------------------------------------------------------------

  /** deleteNested: nothing happens when the path runs through a missing key or a leaf. */
  function Remove(v: Value, p: Path): (r: Value)
    ensures v.Map? ==> r.Map?
  {
    if !v.Map? || p == [] || p[0] !in v.m then v
    else if |p| == 1 then Map(v.m - {p[0]})
    else if v.m[p[0]].Map? then Map(v.m[p[0] := Remove(v.m[p[0]], p[1..])])
    else v
  }

  lemma {:induction false} RemoveGone(v: Value, p: Path)
    requires v.Map? && p != []
    ensures Get(Remove(v, p), p).None?
  {
    if p[0] in v.m && |p| > 1 && v.m[p[0]].Map? {
      RemoveGone(v.m[p[0]], p[1..]);
    }
  }

  lemma {:induction false} RemoveNeverAdds(v: Value, p: Path, q: Path)
    requires Get(v, q).None?
    ensures Get(Remove(v, p), q).None?
    decreases q
  {
    if v.Map? && p != [] && p[0] in v.m && q[0] == p[0] && |p| > 1 && v.m[p[0]].Map? {
      RemoveNeverAdds(v.m[p[0]], p[1..], q[1..]);
    }
  }

  lemma PrefixTail(p: Path, q: Path)
    requires p != [] && q != [] && p[0] == q[0]
    ensures p <= q <==> p[1..] <= q[1..]
  {
    assert p == [p[0]] + p[1..] && q == [q[0]] + q[1..];
  }

  /** Removal takes away the leaves at and below the path and no other leaf. */
  lemma {:induction false} RemoveLeaves(v: Value, p: Path, q: Path)
    requires v.Map? && p != []
    ensures Leaf(Remove(v, p), q) == if p <= q then None else Leaf(v, q)
    decreases |p|
  {
    if q != [] && p[0] == q[0] {
      PrefixTail(p, q);
      if p[0] in v.m && |p| > 1 {
        if v.m[p[0]].Map? {
          RemoveLeaves(v.m[p[0]], p[1..], q[1..]);
          assert Leaf(v, q) == Leaf(v.m[p[0]], q[1..]);
          assert Leaf(Remove(v, p), q) == Leaf(Remove(v.m[p[0]], p[1..]), q[1..]);
        } else {
          assert p <= q ==> |q| > 1;
          assert |q| > 1 ==> Get(v.m[p[0]], q[1..]).None?;
        }
      }
    }
  }

  // ---- Pruning ------------------------------------------------------------------

  /** deleteEmptyMaps, below the top. */
  function Prune(v: Value): (r: Value)
    ensures r.Map? <==> v.Map?
  {
    match v
    case Map(m) => Map(map k | k in m && Prune(m[k]) != Map(map[]) :: Prune(m[k]))
    case _ => v
  }

  ghost predicate Pruned(v: Value) {
    v.Map? ==> forall k :: k in v.m ==> v.m[k] != Map(map[]) && Pruned(v.m[k])
  }

  lemma {:induction false} PruneNeverAdds(v: Value, q: Path)
    requires Get(v, q).None?
    ensures Get(Prune(v), q).None?
    decreases q
  {
    if v.Map? && q[0] in v.m {
      PruneNeverAdds(v.m[q[0]], q[1..]);
    }
  }

  lemma {:induction false} PruneLeaves(v: Value, q: Path)
    ensures Leaf(Prune(v), q) == Leaf(v, q)
    decreases q
  {
    if q != [] && v.Map? && q[0] in v.m {
      PruneLeaves(v.m[q[0]], q[1..]);
      assert Leaf(v, q) == Leaf(v.m[q[0]], q[1..]);
      if q[0] in Prune(v).m {
        assert Leaf(Prune(v), q) == Leaf(Prune(v.m[q[0]]), q[1..]);
      }
    }
  }

  lemma {:induction false} PruneIsPruned(v: Value)
    ensures Pruned(Prune(v))
    decreases v
  {
    if v.Map? {
      forall k | k in v.m
        ensures Pruned(Prune(v.m[k]))
      {
        PruneIsPruned(v.m[k]);
      }
    }
  }

  /** A tree without empty maps has a leaf below every map. */
  lemma {:induction false} HasLeaf(v: Value) returns (q: Path)
    requires Pruned(v) && v != Map(map[])
    ensures Leaf(v, q).Some?
    decreases v
  {
    if !v.Map? {
      return [];
    }
    var k :| k in v.m;
    q := HasLeaf(v.m[k]);
    assert ([k] + q)[1..] == q;
    return [k] + q;
  }

  /** Leaves determine a tree without empty maps, so that pruning is the one normal form that
      keeps every leaf. */
  lemma {:induction false} PrunedUnique(a: Value, b: Value)
    requires a.Map? && b.Map? && Pruned(a) && Pruned(b)
    requires forall q :: Leaf(a, q) == Leaf(b, q)
    ensures a == b
    decreases a
  {
    forall k
      ensures k in a.m <==> k in b.m
      ensures k in a.m && k in b.m ==> a.m[k] == b.m[k]
    {
      SameKeys(a, b, k);
      SameKeys(b, a, k);
      if k in a.m && k in b.m {
        forall q
          ensures Leaf(a.m[k], q) == Leaf(b.m[k], q)
        {
          assert ([k] + q)[1..] == q;
          assert Leaf(a, [k] + q) == Leaf(b, [k] + q);
        }
        assert Leaf(a.m[k], []) == Leaf(b.m[k], []);
        if a.m[k].Map? {
          PrunedUnique(a.m[k], b.m[k]);
        }
      }
    }
  }

  lemma SameKeys(a: Value, b: Value, k: string)
    requires a.Map? && b.Map? && Pruned(a)
    requires forall q :: Leaf(a, q) == Leaf(b, q)
    ensures k in a.m ==> k in b.m
  {
    if k in a.m {
      var q := HasLeaf(a.m[k]);
      assert ([k] + q)[1..] == q;
      assert Leaf(a, [k] + q) == Leaf(b, [k] + q);
    }
  }

  /** Pruning twice is pruning once. */
  lemma PruneTwice(v: Value)
    requires v.Map?
    ensures Prune(Prune(v)) == Prune(v)
  {
    PruneIsPruned(v);
    PruneIsPruned(Prune(v));
    forall q
      ensures Leaf(Prune(Prune(v)), q) == Leaf(Prune(v), q)
    {
      PruneLeaves(Prune(v), q);
    }
    PrunedUnique(Prune(Prune(v)), Prune(v));
  }

  method DeleteEmptyMaps(values: Value) returns (r: Value, empty: bool)
    requires values.Map?
    ensures r == Prune(values)
    ensures empty <==> r == Map(map[])
    decreases values
  {
    var m := values.m;
    var rest := m.Keys;
    while rest != {}
      invariant rest <= values.m.Keys
      invariant forall k :: k in rest ==> k in m && m[k] == values.m[k]
      invariant forall k :: k !in rest ==> Lookup(m, k) == Lookup(Prune(values).m, k)
      decreases |rest|
    {
      var key :| key in rest;
      if values.m[key].Map? {
        var child, gone := DeleteEmptyMaps(values.m[key]);
        m := if gone then m - {key} else m[key := child];
      }
      rest := rest - {key};
    }
    SameMaps(m, Prune(values).m);
    r := Map(m);
    empty := |m| == 0;
  }

  // ---- Merging ------------------------------------------------------------------

  function At(v: Value, k: string): Value {
    if v.Map? && k in v.m then v.m[k] else Null
  }

  function Keys(v: Value): set<string> {
    if v.Map? then v.m.Keys else {}
  }

  /** Section 2 of RFC 7386: objects merge key by key, null removes, anything else replaces. */
  function Merge(target: Value, patch: Value): (r: Value)
    ensures patch.Map? ==> r.Map?
    decreases patch
  {
    if !patch.Map? then patch
    else
      Map(map k | k in Keys(target) + patch.m.Keys && !(k in patch.m && patch.m[k].Null?) ::
            if k in patch.m then Merge(At(target, k), patch.m[k]) else At(target, k))
  }

  /** A leaf of the patch decides: null removes the node, any other leaf is the result. */
  lemma {:induction false} LeafWins(target: Value, patch: Value, q: Path)
    requires patch.Map? && Leaf(patch, q).Some?
    ensures Get(Merge(target, patch), q) == if Leaf(patch, q) == Some(Null) then None else Leaf(patch, q)
    decreases patch
  {
    var k := q[0];
    var child := patch.m[k];
    assert Leaf(patch, q) == Leaf(child, q[1..]);
    if child.Map? {
      LeafWins(At(target, k), child, q[1..]);
    } else {
      assert q[1..] == [];
    }
  }

  /** A leaf on the way. */
  ghost predicate Blocked(v: Value, q: Path) {
    exists i :: 0 <= i < |q| && Leaf(v, q[..i]).Some?
  }

  lemma BlockedBelow(v: Value, q: Path)
    requires v.Map? && q != []
    ensures Blocked(v, q) <==> q[0] in v.m && Blocked(v.m[q[0]], q[1..])
  {
    if i :| 0 <= i < |q| && Leaf(v, q[..i]).Some? {
      assert i > 0 by { assert q[..0] == []; }
      assert q[..i][0] == q[0] && q[..i][1..] == q[1..][..i - 1];
      assert Leaf(v.m[q[0]], q[1..][..i - 1]).Some?;
    }
    if q[0] in v.m && Blocked(v.m[q[0]], q[1..]) {
      var i :| 0 <= i < |q| - 1 && Leaf(v.m[q[0]], q[1..][..i]).Some?;
      assert q[..i + 1][0] == q[0] && q[..i + 1][1..] == q[1..][..i];
      assert Leaf(v, q[..i + 1]).Some?;
    }
  }

  /** Where the patch has no node the target shows through, unless a leaf of the patch is in the
      way. */
  lemma {:induction false} ShowsThrough(target: Value, patch: Value, q: Path)
    requires patch.Map? && Get(patch, q).None?
    ensures Get(Merge(target, patch), q) == if Blocked(patch, q) then None else Get(target, q)
    decreases patch
  {
    var k := q[0];
    BlockedBelow(patch, q);
    if k in patch.m {
      var child := patch.m[k];
      if child.Map? {
        ShowsThrough(At(target, k), child, q[1..]);
      } else {
        assert q[1..][..0] == [];
        assert Leaf(child, q[1..][..0]).Some?;
      }
    }
  }

  /** What has no node in either tree has none in the merge. */
  lemma MergeNeverAdds(target: Value, patch: Value, q: Path)
    requires Get(target, q).None? && Get(patch, q).None? && patch.Map?
    ensures Get(Merge(target, patch), q).None?
  {
    ShowsThrough(target, patch, q);
  }
}
