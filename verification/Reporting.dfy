/** hgctl/pkg/helm/recover.go: the report of retained values that no typed field owns. */
module Reporting {
  import opened Wrappers
  import opened HelmValues
  import opened Recovering
  import opened Normalising

  function Prefixed(prefix: string, k: string): string {
    if prefix == "" then k else prefix + "." + k
  }

  /** `name` is the joined name of a leaf, is not empty and is not an owned name. */
  ghost predicate Named(v: Value, prefix: string, owned: set<string>, name: string) {
    name !in owned && name != "" && exists q :: Leaf(v, q).Some? && JoinFrom(prefix, q) == name
  }

  lemma NamedBelow(v: Value, prefix: string, owned: set<string>, name: string)
    requires v.Map?
    ensures Named(v, prefix, owned, name) <==> exists k :: k in v.m && Named(v.m[k], Prefixed(prefix, k), owned, name)
  {
    if Named(v, prefix, owned, name) {
      var q :| Leaf(v, q).Some? && JoinFrom(prefix, q) == name;
      assert Leaf(v.m[q[0]], q[1..]).Some? && JoinFrom(Prefixed(prefix, q[0]), q[1..]) == name;
      assert Named(v.m[q[0]], Prefixed(prefix, q[0]), owned, name);
    }
    if k :| k in v.m && Named(v.m[k], Prefixed(prefix, k), owned, name) {
      var q :| Leaf(v.m[k], q).Some? && JoinFrom(Prefixed(prefix, k), q) == name;
      assert ([k] + q)[1..] == q;
      assert Leaf(v, [k] + q).Some? && JoinFrom(prefix, [k] + q) == name;
    }
  }

  lemma NamedLeaf(v: Value, prefix: string, owned: set<string>, name: string)
    requires !v.Map?
    ensures Named(v, prefix, owned, name) <==> name == prefix && prefix !in owned && prefix != ""
  {
    assert Leaf(v, []).Some? && JoinFrom(prefix, []) == prefix;
  }

  // ---- Lists of paths -----------------------------------------------------------

  ghost function Prepend(k: string, qs: seq<Path>): seq<Path> {
    seq(|qs|, i requires 0 <= i < |qs| => [k] + qs[i])
  }

  ghost function JoinAll(prefix: string, qs: seq<Path>): seq<string> {
    seq(|qs|, i requires 0 <= i < |qs| => JoinFrom(prefix, qs[i]))
  }

  ghost predicate Distinct(qs: seq<Path>) {
    forall i, j :: 0 <= i < j < |qs| ==> qs[i] != qs[j]
  }

  /** `qs` lists each selected path once, and nothing else. */
  ghost predicate Lists(sel: Path -> bool, qs: seq<Path>) {
    Distinct(qs) && forall q :: q in qs <==> sel(q)
  }

  /** The same for the selected paths that start with one of `keys`. */
  ghost predicate ListsUnder(sel: Path -> bool, keys: set<string>, qs: seq<Path>) {
    Distinct(qs) && forall q :: q in qs <==> q != [] && q[0] in keys && sel(q)
  }

  lemma PrependIs(k: string, qs: seq<Path>)
    ensures forall q :: q in Prepend(k, qs) <==> q != [] && q[0] == k && q[1..] in qs
    ensures Distinct(qs) ==> Distinct(Prepend(k, qs))
  {
    var r := Prepend(k, qs);
    forall i | 0 <= i < |qs|
      ensures r[i][1..] == qs[i]
    {
      assert ([k] + qs[i])[1..] == qs[i];
    }
    forall q | q != [] && q[0] == k && q[1..] in qs
      ensures q in r
    {
      var i :| 0 <= i < |qs| && qs[i] == q[1..];
      assert q == [k] + q[1..] == r[i];
    }
  }

  /** One more key: its paths follow those listed so far. */
  lemma ListsNext(sel: Path -> bool, below: Path -> bool, keys: set<string>, qs: seq<Path>, k: string, more: seq<Path>)
    requires ListsUnder(sel, keys, qs) && k !in keys
    requires Lists(below, more) && forall q :: below(q) <==> sel([k] + q)
    ensures ListsUnder(sel, keys + {k}, qs + Prepend(k, more))
  {
    PrependIs(k, more);
    var all := qs + Prepend(k, more);
    forall q
      ensures q in all <==> q != [] && q[0] in keys + {k} && sel(q)
    {
      if q != [] && q[0] == k {
        assert q == [k] + q[1..];
        assert q[1..] in more <==> below(q[1..]);
      }
    }
    forall i, j | 0 <= i < j < |all|
      ensures all[i] != all[j]
    {
      if i < |qs| <= j {
        assert all[i] in qs && all[j] in Prepend(k, more);
      }
    }
  }

  lemma JoinNext(prefix: string, qs: seq<Path>, k: string, more: seq<Path>)
    ensures JoinAll(prefix, qs + Prepend(k, more)) == JoinAll(prefix, qs) + JoinAll(Prefixed(prefix, k), more)
  {
    forall i | 0 <= i < |more|
      ensures JoinFrom(prefix, [k] + more[i]) == JoinFrom(Prefixed(prefix, k), more[i])
    {
      assert ([k] + more[i])[1..] == more[i];
    }
  }

  // ---- The report ---------------------------------------------------------------

  ghost predicate Reported(v: Value, prefix: string, owned: set<string>, q: Path) {
    Leaf(v, q).Some? && JoinFrom(prefix, q) !in owned && JoinFrom(prefix, q) != ""
  }

  ghost function ReportedIn(v: Value, prefix: string, owned: set<string>): Path -> bool {
    q => Reported(v, prefix, owned, q)
  }

  lemma ReportedBelow(v: Value, prefix: string, owned: set<string>, k: string, q: Path)
    requires v.Map? && k in v.m
    ensures Reported(v.m[k], Prefixed(prefix, k), owned, q) <==> Reported(v, prefix, owned, [k] + q)
  {
    assert ([k] + q)[1..] == q;
  }

  /** The keys are visited in any order; each unowned leaf is named once. */
  method CollectLeafPaths(value: Value, prefix: string, owned: set<string>, paths: seq<string>)
    returns (r: seq<string>, ghost qs: seq<Path>)
    ensures r == paths + JoinAll(prefix, qs) && Lists(ReportedIn(value, prefix, owned), qs)
    ensures forall name :: name in r <==> name in paths || Named(value, prefix, owned, name)
    decreases value
  {
    hide Named, Lists, ListsUnder, Reported, JoinAll, Prepend, Prefixed, Leaf;
    if !value.Map? {
      qs := if prefix !in owned && prefix != "" then [[]] else [];
      r := if prefix !in owned && prefix != "" then paths + [prefix] else paths;
      LeafReported(value, prefix, owned);
      ReportedNames(value, prefix, owned, qs);
      return;
    }
    r, qs := paths, [];
    var rest := value.m.Keys;
    assert value.m.Keys - rest == {};
    ListsNone(ReportedIn(value, prefix, owned), paths, prefix);
    while rest != {}
      invariant rest <= value.m.Keys
      invariant r == paths + JoinAll(prefix, qs)
      invariant ListsUnder(ReportedIn(value, prefix, owned), value.m.Keys - rest, qs)
      decreases |rest|
    {
      var k :| k in rest;
      ghost var more;
      r, more := CollectLeafPaths(value.m[k], Prefixed(prefix, k), owned, r);
      forall q
        ensures Reported(value.m[k], Prefixed(prefix, k), owned, q) <==> Reported(value, prefix, owned, [k] + q)
      {
        ReportedBelow(value, prefix, owned, k, q);
      }
      ListsNext(ReportedIn(value, prefix, owned), ReportedIn(value.m[k], Prefixed(prefix, k), owned),
          value.m.Keys - rest, qs, k, more);
      JoinNext(prefix, qs, k, more);
      assert value.m.Keys - (rest - {k}) == value.m.Keys - rest + {k};
      qs := qs + Prepend(k, more);
      rest := rest - {k};
    }
    assert value.m.Keys - rest == value.m.Keys;
    ReportedAll(value, prefix, owned, qs);
    ReportedNames(value, prefix, owned, qs);
  }

  lemma ReportedNames(v: Value, prefix: string, owned: set<string>, qs: seq<Path>)
    requires Lists(ReportedIn(v, prefix, owned), qs)
    ensures forall name :: name in JoinAll(prefix, qs) <==> Named(v, prefix, owned, name)
  {
    forall name
      ensures name in JoinAll(prefix, qs) <==> Named(v, prefix, owned, name)
    {
      if name in JoinAll(prefix, qs) {
        var i :| 0 <= i < |qs| && JoinFrom(prefix, qs[i]) == name;
        assert qs[i] in qs;
        assert ReportedIn(v, prefix, owned)(qs[i]);
      }
      if Named(v, prefix, owned, name) {
        var q :| Leaf(v, q).Some? && JoinFrom(prefix, q) == name;
        assert ReportedIn(v, prefix, owned)(q);
        var i :| 0 <= i < |qs| && qs[i] == q;
        assert JoinAll(prefix, qs)[i] == name;
      }
    }
  }

  lemma LeafReported(v: Value, prefix: string, owned: set<string>)
    requires !v.Map?
    ensures Lists(ReportedIn(v, prefix, owned), if prefix !in owned && prefix != "" then [[]] else [])
    ensures JoinAll(prefix, [[]]) == [prefix] && JoinAll(prefix, []) == []
  {
  }

  lemma ListsNone(sel: Path -> bool, paths: seq<string>, prefix: string)
    ensures ListsUnder(sel, {}, []) && paths == paths + JoinAll(prefix, [])
  {
  }

  lemma ReportedAll(v: Value, prefix: string, owned: set<string>, qs: seq<Path>)
    requires v.Map? && ListsUnder(ReportedIn(v, prefix, owned), v.m.Keys, qs)
    ensures Lists(ReportedIn(v, prefix, owned), qs)
  {
  }

  function OwnedNames(): set<string> {
    set o | o in OWNERS :: Join(PathOf(o))
  }

  method UnsupportedRetainedValuePaths(values: Value) returns (r: seq<string>, ghost qs: seq<Path>)
    ensures r == JoinAll("", qs) && Lists(ReportedIn(values, "", OwnedNames()), qs)
    ensures forall name :: name in r <==> Named(values, "", OwnedNames(), name)
  {
    hide Named, Join, PathOf, Lists, JoinAll;
    var owned: set<string> := {};
    for i := 0 to |OWNERS|
      invariant forall name :: name in owned <==> exists j :: 0 <= j < i && name == Join(PathOf(OWNERS[j]))
    {
      owned := owned + {Join(PathOf(OWNERS[i]))};
    }
    OwnedNamesAre(owned);
    r, qs := CollectLeafPaths(values, "", owned, []);
  }

  lemma OwnedNamesAre(owned: set<string>)
    requires forall name :: name in owned <==> exists j :: 0 <= j < |OWNERS| && name == Join(PathOf(OWNERS[j]))
    ensures owned == OwnedNames()
  {
    hide OWNERS, Join, PathOf;
    forall name
      ensures name in owned <==> name in OwnedNames()
    {
      if name in OwnedNames() {
        var o :| o in OWNERS && name == Join(PathOf(o));
        var j :| 0 <= j < |OWNERS| && OWNERS[j] == o;
      }
    }
  }

  // ---- The report against what stays --------------------------------------------

  /** No unowned leaf is joined to an owned name or to the empty name. */
  ghost predicate NoCollision(v: Value) {
    forall q :: Leaf(v, q).Some? && (Join(q) in OwnedNames() || Join(q) == "") ==> Owned(q)
  }

  ghost predicate Remains(v: Value, name: string) {
    exists q :: Leaf(v, q).Some? && Join(q) == name
  }

  lemma OwnedNamed(q: Path)
    requires Owned(q)
    ensures Join(q) in OwnedNames()
  {
    var o :| PathOf(o) == q;
    EveryOwner(o);
  }

  /** The names of the leaves left in the values are exactly those reported beforehand, if and
      only if no unowned leaf collides with an owned name. */
  lemma ReportExact(s: Settings, v: Value)
    requires v.Map? && Normalise(s, v).Some?
    ensures (forall name :: Named(v, "", OwnedNames(), name) <==> Remains(Normalise(s, v).value.1, name)) <==>
              NoCollision(v)
  {
    hide Owned, OwnedNames, Leaf, Normalise, Join;
    var w := Normalise(s, v).value.1;
    forall q
      ensures Leaf(w, q) == if Owned(q) then None else Leaf(v, q)
      ensures Owned(q) ==> Join(q) in OwnedNames()
    {
      NormalisedLeaves(s, v, q);
      if Owned(q) { OwnedNamed(q); }
    }
    if NoCollision(v) {
      forall name
        ensures Named(v, "", OwnedNames(), name) <==> Remains(w, name)
      {
        if Named(v, "", OwnedNames(), name) {
          var q :| Leaf(v, q).Some? && JoinFrom("", q) == name;
          JoinIs(q);
          assert Leaf(w, q).Some?;
        }
        if Remains(w, name) {
          var q :| Leaf(w, q).Some? && Join(q) == name;
          JoinIs(q);
          assert Leaf(v, q).Some? && JoinFrom("", q) == name;
        }
      }
    } else {
      var q :| Leaf(v, q).Some? && (Join(q) in OwnedNames() || Join(q) == "") && !Owned(q);
      assert Leaf(w, q).Some?;
      assert Remains(w, Join(q)) && !Named(v, "", OwnedNames(), Join(q));
    }
  }

  lemma JoinIs(q: Path)
    ensures Join(q) == JoinFrom("", q)
  {
  }

  /** Values whose keys are non-empty and free of dots never collide. */
  lemma PlainNeverCollides(v: Value)
    requires v.Map? && forall q :: Leaf(v, q).Some? ==> PlainKeys(q)
    ensures NoCollision(v)
  {
    hide PlainKeys, PathOf, Join;
    forall q | Leaf(v, q).Some? && (Join(q) in OwnedNames() || Join(q) == "")
      ensures Owned(q)
    {
      assert q != [];
      SplitJoin(q);
      var o :| o in OWNERS && Join(PathOf(o)) == Join(q);
      SplitJoinOwner(o);
      assert PathOf(o) == q;
    }
  }

  /** A key that spells out an owned name is neither consumed nor reported. */
  lemma DottedKeyUnreported(s: Settings, o: Owner, leaf: Value)
    requires !leaf.Map?
    ensures var v := Map(map[Join(PathOf(o)) := leaf]);
            && Normalise(s, v) == Some((s, v))
            && (forall name :: !Named(v, "", OwnedNames(), name))
            && Remains(v, Join(PathOf(o))) && !NoCollision(v)
  {
    hide PathOf, Join, Consume, Prune;
    var key := Join(PathOf(o));
    var v := Map(map[key := leaf]);
    forall j | 0 <= j < |OWNERS|
      ensures Get(v, PathOf(OWNERS[j])).None?
    {
      LongPath(OWNERS[j]);
    }
    NothingOwned(s, v, |OWNERS|);
    PruneLeafMap(key, leaf);
    assert [key][1..] == [] && Get(leaf, []) == Some(leaf);
    assert Leaf(v, [key]).Some?;
    OneKey(key);
    EveryOwner(o);
    assert key in OwnedNames();
    LongPaths([key]);
    forall name
      ensures !Named(v, "", OwnedNames(), name)
    {
      NamedBelow(v, "", OwnedNames(), name);
      NamedLeaf(leaf, key, OwnedNames(), name);
    }
  }

  lemma LongPath(o: Owner)
    ensures |PathOf(o)| > 1
  {
  }

  lemma LongPaths(q: Path)
    requires |q| == 1
    ensures !Owned(q)
  {
    if Owned(q) {
      var o :| PathOf(o) == q;
      LongPath(o);
    }
  }

  lemma OneKey(key: string)
    ensures Join([key]) == key
  {
    assert [key][1..] == [] && JoinFrom(key, []) == key;
  }

  lemma PruneLeafMap(key: string, leaf: Value)
    requires !leaf.Map?
    ensures Prune(Map(map[key := leaf])) == Map(map[key := leaf])
  {
  }
}
