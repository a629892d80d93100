/** What normalisation of recovered values preserves. */
module Normalising {
  import opened Wrappers
  import opened HelmValues
  import opened Recovering

  // ---- What the first owners have taken -----------------------------------------

  ghost predicate Taken(i: nat, q: Path) {
    exists j :: 0 <= j < i && j < |OWNERS| && PathOf(OWNERS[j]) <= q
  }

  lemma {:induction false} NothingBelow(v: Value, p: Path, q: Path)
    requires Get(v, p).None? && p <= q
    ensures Get(v, q).None?
    decreases |p|
  {
    if v.Map? && p[0] in v.m {
      assert p[1..] <= q[1..];
      NothingBelow(v.m[p[0]], p[1..], q[1..]);
    }
  }

  /** Removal does not touch a path that is neither above nor below. */
  lemma {:induction false} RemoveApart(v: Value, p: Path, q: Path)
    requires !(p <= q) && !(q <= p)
    ensures Get(Remove(v, p), q) == Get(v, q)
    decreases |p|
  {
    if v.Map? && p[0] in v.m && q[0] == p[0] {
      PrefixTail(p, q);
      PrefixTail(q, p);
      if |p| > 1 && v.m[p[0]].Map? {
        RemoveApart(v.m[p[0]], p[1..], q[1..]);
      }
    }
  }

  lemma DistinctOwners(i: nat, j: nat)
    requires i < |OWNERS| && j < |OWNERS| && i != j
    ensures OWNERS[i] != OWNERS[j]
  {
  }

  lemma OneLeaves(o: Owner, s: Settings, v: Value, q: Path)
    requires v.Map? && ConsumeOne(o, s, v).Some?
    ensures var r := ConsumeOne(o, s, v).value; r.1.Map? && Leaf(r.1, q) == if PathOf(o) <= q then None else Leaf(v, q)
  {
    hide PathOf, SetTyped, Get, Remove;
    if Get(v, PathOf(o)).None? {
      if PathOf(o) <= q { NothingBelow(v, PathOf(o), q); }
    } else {
      RemoveLeaves(v, PathOf(o), q);
    }
  }

  lemma {:induction false} ConsumedLeaves(s: Settings, v: Value, i: nat, q: Path)
    requires v.Map? && i <= |OWNERS| && Consume(s, v, i).Some?
    ensures var r := Consume(s, v, i).value; r.1.Map? && Leaf(r.1, q) == if Taken(i, q) then None else Leaf(v, q)
  {
    hide PathOf, ConsumeOne, Leaf;
    if i > 0 {
      var r := Consume(s, v, i - 1).value;
      ConsumedLeaves(s, v, i - 1, q);
      OneLeaves(OWNERS[i - 1], r.0, r.1, q);
      assert Taken(i, q) <==> Taken(i - 1, q) || PathOf(OWNERS[i - 1]) <= q;
    }
  }

  /** An owner still to come sees what the input held; one that is done finds nothing. */
  lemma {:induction false} ConsumedOwners(s: Settings, v: Value, i: nat, j: nat)
    requires v.Map? && i <= |OWNERS| && j < |OWNERS| && Consume(s, v, i).Some?
    ensures var r := Consume(s, v, i).value;
            Get(r.1, PathOf(OWNERS[j])) == if j < i then None else Get(v, PathOf(OWNERS[j]))
  {
    hide PathOf, SetTyped, Get, Remove;
    if i > 0 {
      var r := Consume(s, v, i - 1).value;
      var p, q := PathOf(OWNERS[i - 1]), PathOf(OWNERS[j]);
      ConsumedOwners(s, v, i - 1, j);
      ConsumedLeaves(s, v, i - 1, q);
      if j == i - 1 {
        if Get(r.1, p).Some? { RemoveGone(r.1, p); }
      } else {
        Apart(i - 1, j);
        RemoveApart(r.1, p, q);
      }
    }
  }

  lemma Apart(i: nat, j: nat)
    requires i < |OWNERS| && j < |OWNERS| && i != j
    ensures !(PathOf(OWNERS[i]) <= PathOf(OWNERS[j])) && !(PathOf(OWNERS[j]) <= PathOf(OWNERS[i]))
  {
    hide PathOf;
    DistinctOwners(i, j);
    if PathOf(OWNERS[i]) <= PathOf(OWNERS[j]) { PrefixFree(OWNERS[i], OWNERS[j]); }
    if PathOf(OWNERS[j]) <= PathOf(OWNERS[i]) { PrefixFree(OWNERS[j], OWNERS[i]); }
  }

  // ---- When it succeeds ---------------------------------------------------------

  ghost predicate Acceptable(o: Owner, v: Value) {
    Get(v, PathOf(o)).Some? ==> WellTyped(o, Get(v, PathOf(o)).value)
  }

  lemma {:induction false} ConsumeExact(s: Settings, v: Value, i: nat)
    requires v.Map? && i <= |OWNERS|
    ensures Consume(s, v, i).Some? <==> forall j :: 0 <= j < i ==> Acceptable(OWNERS[j], v)
  {
    hide PathOf, SetTyped, Get, Remove, WellTyped;
    if i > 0 {
      ConsumeExact(s, v, i - 1);
      if Consume(s, v, i - 1).Some? {
        var r := Consume(s, v, i - 1).value;
        ConsumedOwners(s, v, i - 1, i - 1);
        var found := Get(v, PathOf(OWNERS[i - 1]));
        if found.Some? { SetTypedExact(OWNERS[i - 1], r.0, found.value); }
      }
    }
  }

  /** Normalisation succeeds exactly when every owned path is absent or holds its type. */
  lemma SucceedsExactly(s: Settings, v: Value)
    requires v.Map?
    ensures Normalise(s, v).Some? <==> forall o :: Acceptable(o, v)
  {
    hide Acceptable, Consume;
    ConsumeExact(s, v, |OWNERS|);
    if forall j :: 0 <= j < |OWNERS| ==> Acceptable(OWNERS[j], v) {
      forall o
        ensures Acceptable(o, v)
      {
        EveryOwner(o);
      }
    }
  }

  // ---- Leaves -------------------------------------------------------------------

  ghost predicate Owned(q: Path) {
    exists o :: PathOf(o) == q
  }

  /** On success an owned path held a leaf or nothing, so nothing lies below it. */
  lemma NoLeafBelow(v: Value, o: Owner, q: Path)
    requires Acceptable(o, v) && PathOf(o) <= q && Leaf(v, q).Some?
    ensures q == PathOf(o)
  {
    hide PathOf, WellTyped;
    var p := PathOf(o);
    if Get(v, p).None? {
      NothingBelow(v, p, q);
    } else {
      SetTypedFails(o, Get(v, p).value);
      if p != q { LeafEnds(v, p, q); }
    }
  }

  lemma SetTypedFails(o: Owner, v: Value)
    requires WellTyped(o, v)
    ensures !v.Map?
  {
  }

  lemma {:induction false} LeafEnds(v: Value, p: Path, q: Path)
    requires Leaf(v, p).Some? && p < q
    ensures Get(v, q).None?
    decreases |p|
  {
    if p != [] {
      assert p[1..] < q[1..];
      assert Leaf(v, p) == Leaf(v.m[p[0]], p[1..]);
      LeafEnds(v.m[p[0]], p[1..], q[1..]);
    }
  }

  /** Exactly the owned leaves leave the values; every other leaf stays as it was. */
  lemma NormalisedLeaves(s: Settings, v: Value, q: Path)
    requires v.Map? && Normalise(s, v).Some?
    ensures Leaf(Normalise(s, v).value.1, q) == if Owned(q) then None else Leaf(v, q)
  {
    hide PathOf, Acceptable, Leaf, Consume;
    SucceedsExactly(s, v);
    var n := |OWNERS|;
    ConsumedLeaves(s, v, n, q);
    PruneLeaves(Consume(s, v, n).value.1, q);
    if Owned(q) {
      var o :| PathOf(o) == q;
      EveryOwner(o);
      var j :| 0 <= j < n && OWNERS[j] == o;
      assert Taken(n, q);
    } else if Taken(n, q) && Leaf(v, q).Some? {
      var j :| 0 <= j < n && PathOf(OWNERS[j]) <= q;
      NoLeafBelow(v, OWNERS[j], q);
      assert false;
    }
  }

  /** The result is the only tree without empty maps that holds the unowned leaves. */
  lemma NormalisedUnique(s: Settings, v: Value, w: Value)
    requires v.Map? && Normalise(s, v).Some? && w.Map? && Pruned(w)
    requires forall q :: Leaf(w, q) == if Owned(q) then None else Leaf(v, q)
    ensures w == Normalise(s, v).value.1
  {
    hide Owned, Leaf, Consume;
    var w' := Normalise(s, v).value.1;
    ConsumedLeaves(s, v, |OWNERS|, []);
    PruneIsPruned(Consume(s, v, |OWNERS|).value.1);
    forall q
      ensures Leaf(w, q) == Leaf(w', q)
    {
      NormalisedLeaves(s, v, q);
    }
    PrunedUnique(w, w');
  }

  // ---- Idempotence --------------------------------------------------------------

  lemma {:induction false} NothingOwned(s: Settings, v: Value, i: nat)
    requires i <= |OWNERS| && forall j :: 0 <= j < |OWNERS| ==> Get(v, PathOf(OWNERS[j])).None?
    ensures Consume(s, v, i) == Some((s, v))
  {
    hide PathOf, Get;
    if i > 0 { NothingOwned(s, v, i - 1); }
  }

  /** Normalising what was normalised changes nothing. */
  lemma Idempotent(s: Settings, v: Value)
    requires v.Map? && Normalise(s, v).Some?
    ensures var r := Normalise(s, v).value; Normalise(r.0, r.1) == Some(r)
  {
    hide PathOf, Get, Consume, Prune;
    var n := |OWNERS|;
    var c := Consume(s, v, n).value;
    var r := Normalise(s, v).value;
    ConsumedLeaves(s, v, n, []);
    forall j | 0 <= j < n
      ensures Get(r.1, PathOf(OWNERS[j])).None?
    {
      ConsumedOwners(s, v, n, j);
      PruneNeverAdds(c.1, PathOf(OWNERS[j]));
    }
    NothingOwned(r.0, r.1, n);
    PruneTwice(c.1);
  }
}
