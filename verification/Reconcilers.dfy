/** registry/reconcile/reconcile.go: the sequential work of a Reconcile call, that is the diff of the
    registries and the reconciliation of the proxies. */
module Reconcilers {
  import opened Wrappers
  import opened Text
  import opened ServiceCache
  import opened Direct
  import opened Reconciling

  datatype ProxySpec = ProxySpec(name: string, kind: string, serverAddress: string, serverPort: nat, listenerPort: nat)

  type Proxies = map<string, ProxySpec>

  /** Only complete HTTP proxies with ports in range have a wrapper. */
  predicate Builds(p: ProxySpec) {
    && p.serverAddress != "" && 0 < p.serverPort < 65536 && 0 < p.listenerPort < 65536
    && LowerCase(p.kind) == "http"
  }

  function BuildProxyWrapper(p: ProxySpec): Option<ProxyWrapper> {
    if Builds(p) then Some(ProxyWrapper(p.name, p.listenerPort, 0)) else None
  }

  /** Later duplicates win. */
  function SpecOf(list: seq<RegistryConfig>): Spec {
    if list == [] then map[] else SpecOf(list[..|list| - 1])[KeyOf(list[|list| - 1]) := list[|list| - 1]]
  }

  function ByName(list: seq<ProxySpec>): Proxies {
    if list == [] then map[] else ByName(list[..|list| - 1])[list[|list| - 1].name := list[|list| - 1]]
  }

  lemma {:induction false} SpecKeyed(list: seq<RegistryConfig>)
    ensures Keyed(SpecOf(list))
  {
    if list != [] { SpecKeyed(list[..|list| - 1]); }
  }

  /** What the reconciler tracks afterwards: a proxy that cannot be built keeps its old settings. */
  function NextProxies(tracked: Proxies, wanted: Proxies): Proxies {
    map k | k in wanted && (Builds(wanted[k]) || k in tracked) :: if Builds(wanted[k]) then wanted[k] else tracked[k]
  }

  ghost predicate SameProxy(w: ProxyWrapper, p: ProxySpec) {
    BuildProxyWrapper(p) == Some(w.(createTime := 0))
  }

  /** The cache holds exactly the wrappers of the tracked proxies. */
  ghost predicate ProxiesAgree(tracked: Proxies, c: Cache) {
    && c.staleProxies == {} && c.proxies.Keys == tracked.Keys
    && forall k :: k in tracked ==> SameProxy(c.proxies[k], tracked[k])
  }

  ghost predicate ProxyOps(ops: seq<Op>, wanted: Proxies) {
    forall i :: 0 <= i < |ops| ==> ops[i].DropProxy? || (ops[i].PutProxy? && ops[i].name in wanted)
  }

  // ---- The two passes of a diff -------------------------------------------------

  method ScanWanted<K(==), V(==)>(tracked: map<K, V>, wanted: map<K, V>) returns (created: set<K>, updated: set<K>)
    ensures created == wanted.Keys - tracked.Keys
    ensures updated == set k | k in wanted && k in tracked && wanted[k] != tracked[k]
  {
    created, updated := {}, {};
    var rest := wanted.Keys;
    while rest != {}
      invariant rest <= wanted.Keys
      invariant forall k :: k in created <==> k in wanted && k !in rest && k !in tracked
      invariant forall k :: k in updated <==> k in wanted && k !in rest && k in tracked && wanted[k] != tracked[k]
      decreases |rest|
    {
      var key :| key in rest;
      if key !in tracked {
        created := created + {key};
      } else if wanted[key] != tracked[key] {
        updated := updated + {key};
      }
      rest := rest - {key};
    }
  }

  method ScanTracked<K(==), V>(tracked: map<K, V>, wanted: map<K, V>) returns (deleted: set<K>)
    ensures deleted == tracked.Keys - wanted.Keys
  {
    deleted := {};
    var rest := tracked.Keys;
    while rest != {}
      invariant rest <= tracked.Keys
      invariant forall k :: k in deleted <==> k in tracked && k !in rest && k !in wanted
      decreases |rest|
    {
      var key :| key in rest;
      if key !in wanted {
        deleted := deleted + {key};
      }
      rest := rest - {key};
    }
  }

  class Reconciler {
    const cache: Store
    var registries: Spec
    var proxies: Proxies

    constructor ()
      ensures registries == map[] && proxies == map[] && cache.Value() == EMPTY
      ensures ProxiesAgree(proxies, cache.Value())
    {
      cache := new Store();
      registries, proxies := map[], map[];
    }

    /** The desired registries by key and the three work lists. */
    method DiffRegistries(list: seq<RegistryConfig>)
        returns (desired: Spec, toBeCreated: set<Key>, toBeUpdated: set<Key>, toBeDeleted: set<Key>)
      ensures desired == SpecOf(list) && Keyed(desired)
      ensures toBeCreated == Created(registries, desired)
      ensures toBeUpdated == Updated(registries, desired)
      ensures toBeDeleted == Deleted(registries, desired)
    {
      desired := map[];
      for i := 0 to |list|
        invariant desired == SpecOf(list[..i])
      {
        assert list[..i + 1][..i] == list[..i];
        desired := desired[KeyOf(list[i]) := list[i]];
      }
      assert list[..|list|] == list;
      SpecKeyed(list);
      toBeCreated, toBeUpdated := ScanWanted(registries, desired);
      toBeDeleted := ScanTracked(registries, desired);
    }

    /** Followed by the purge, this brings the cached proxies into agreement with the new settings.
        The services are untouched, but the tombstone of a service that shares an updated proxy's
        name is cleared. */
    method ReconcileProxies(list: seq<ProxySpec>, now: nat) returns (needNotify: bool, ghost ops: seq<Op>)
      requires ProxiesAgree(proxies, cache.Value())
      modifies this`proxies, cache
      ensures proxies == NextProxies(old(proxies), ByName(list))
      ensures ProxiesAgree(proxies, Purge(cache.Value()))
      ensures ReachedBy(old(cache.Value()), cache.Value(), ops, ByName(list))
      ensures needNotify <==> proxies != old(proxies)
    {
      var wanted: Proxies := map[];
      for i := 0 to |list|
        invariant wanted == ByName(list[..i])
      {
        assert list[..i + 1][..i] == list[..i];
        wanted := wanted[list[i].name := list[i]];
      }
      assert list[..|list|] == list;
      ops, needNotify := ApplyProxies(wanted, now);
    }

    method ApplyProxies(wanted: Proxies, now: nat) returns (ghost ops: seq<Op>, needNotify: bool)
      requires ProxiesAgree(proxies, cache.Value())
      modifies this`proxies, cache
      ensures proxies == NextProxies(old(proxies), wanted)
      ensures ProxiesAgree(proxies, Purge(cache.Value()))
      ensures ReachedBy(old(cache.Value()), cache.Value(), ops, wanted)
      ensures needNotify <==> proxies != old(proxies)
    {
      hide UpdatedWith, PushedWith, ReachedBy, Builds, NextProxies;
      ghost var start, tracked := cache.Value(), proxies;
      var added, changed := ScanWanted(proxies, wanted);
      var toBeUpdated := added + changed;
      var toBeDeleted := ScanTracked(proxies, wanted);
      ops := DeleteProxies(toBeDeleted, wanted);
      ghost var mid := cache.Value();
      var notify, more := UpdateProxies(toBeUpdated, wanted, now);
      RunAppend(start, mid, cache.Value(), ops, more, wanted);
      ops := ops + more;
      needNotify := toBeDeleted != {} || notify;
      AgreeAfter(start, cache.Value(), tracked, proxies, wanted, toBeUpdated, toBeDeleted);
      NotifyExact(tracked, wanted, toBeUpdated);
    }

    method DeleteProxies(toBeDeleted: set<string>, ghost wanted: Proxies) returns (ghost ops: seq<Op>)
      requires toBeDeleted <= cache.Value().proxies.Keys && cache.Value().staleProxies == {}
      modifies this`proxies, cache
      ensures proxies == old(proxies) - toBeDeleted
      ensures cache.Value() == old(cache.Value()).(staleProxies := toBeDeleted)
      ensures ReachedBy(old(cache.Value()), cache.Value(), ops, wanted)
    {
      hide *;
      ops := [];
      NoOps(cache.Value(), wanted);
      ghost var start, tracked := cache.Value(), proxies;
      var rest := toBeDeleted;
      DroppedNone(start, tracked, toBeDeleted);
      while rest != {}
        invariant rest <= toBeDeleted
        invariant Dropped(start, cache.Value(), tracked, proxies, toBeDeleted, rest)
        invariant ReachedBy(start, cache.Value(), ops, wanted)
        decreases |rest|
      {
        var key :| key in rest;
        DroppedOne(start, cache.Value(), tracked, proxies, toBeDeleted, rest, key);
        RunOne(start, cache.Value(), ops, DropProxy(key), wanted);
        cache.DeleteProxyWrapper(key);
        ops := ops + [DropProxy(key)];
        proxies := proxies - {key};
        rest := rest - {key};
      }
      DroppedAll(start, cache.Value(), tracked, proxies, toBeDeleted);
    }

    method UpdateProxies(toBeUpdated: set<string>, wanted: Proxies, now: nat)
        returns (needNotify: bool, ghost ops: seq<Op>)
      requires toBeUpdated <= wanted.Keys
      modifies this`proxies, cache
      ensures UpdatedWith(old(proxies), proxies, wanted, toBeUpdated)
      ensures PushedWith(old(cache.Value()), cache.Value(), wanted, toBeUpdated)
      ensures ReachedBy(old(cache.Value()), cache.Value(), ops, wanted)
      ensures needNotify <==> exists k :: k in toBeUpdated && Builds(wanted[k])
    {
      hide *;
      ops, needNotify := [], false;
      NoOps(cache.Value(), wanted);
      ghost var start, tracked := cache.Value(), proxies;
      var rest := toBeUpdated;
      assert toBeUpdated - rest == {};
      UpdatedNone(start, tracked, wanted);
      while rest != {}
        invariant rest <= toBeUpdated
        invariant UpdatedWith(tracked, proxies, wanted, toBeUpdated - rest)
        invariant PushedWith(start, cache.Value(), wanted, toBeUpdated - rest)
        invariant ReachedBy(start, cache.Value(), ops, wanted)
        invariant needNotify <==> exists k :: k in toBeUpdated - rest && Builds(wanted[k])
        decreases |rest|
      {
        var key :| key in rest;
        assert toBeUpdated - (rest - {key}) == toBeUpdated - rest + {key};
        UpdatedOne(start, cache.Value(), tracked, proxies, wanted, toBeUpdated - rest, key, now);
        rest := rest - {key};
        var wrapper := BuildProxyWrapper(wanted[key]);
        if wrapper.Some? {
          RunOne(start, cache.Value(), ops, PutProxy(key, wrapper.value, now), wanted);
          cache.UpdateProxyWrapper(key, wrapper.value, now);
          ops := ops + [PutProxy(key, wrapper.value, now)];
          proxies := proxies[key := wanted[key]];
          needNotify := true;
        }
      }
      assert toBeUpdated - rest == toBeUpdated;
    }
  }

  // ---- One deletion, one update -------------------------------------------------

  ghost predicate Dropped(start: Cache, c: Cache, tracked: Proxies, left: Proxies, keys: set<string>,
      rest: set<string>) {
    && keys <= start.proxies.Keys && rest <= keys
    && c == start.(staleProxies := keys - rest) && left == tracked - (keys - rest)
  }

  lemma DroppedNone(start: Cache, tracked: Proxies, keys: set<string>)
    requires keys <= start.proxies.Keys && start.staleProxies == {}
    ensures Dropped(start, start, tracked, tracked, keys, keys)
  {
    assert keys - keys == {} && tracked - {} == tracked;
  }

  lemma DroppedOne(start: Cache, c: Cache, tracked: Proxies, left: Proxies, keys: set<string>, rest: set<string>,
      key: string)
    requires Dropped(start, c, tracked, left, keys, rest) && key in rest
    ensures Dropped(start, Apply(c, DropProxy(key)), tracked, left - {key}, keys, rest - {key})
    ensures Apply(c, DropProxy(key)) == DeleteProxy(c, key)
  {
    assert keys - (rest - {key}) == keys - rest + {key};
    MinusOne(tracked, keys - rest, key);
  }

  lemma DroppedAll(start: Cache, c: Cache, tracked: Proxies, left: Proxies, keys: set<string>)
    requires Dropped(start, c, tracked, left, keys, {})
    ensures c == start.(staleProxies := keys) && left == tracked - keys
  {
    assert keys - {} == keys;
  }

  lemma UpdatedNone(start: Cache, tracked: Proxies, wanted: Proxies)
    ensures UpdatedWith(tracked, tracked, wanted, {}) && PushedWith(start, start, wanted, {})
  {
  }

  lemma UpdatedOne(
    start: Cache, c: Cache, tracked: Proxies, left: Proxies, wanted: Proxies, done: set<string>, key: string, now: nat)
    requires done + {key} <= wanted.Keys && UpdatedWith(tracked, left, wanted, done) &&
              PushedWith(start, c, wanted, done)
    requires key !in done
    ensures BuildProxyWrapper(wanted[key]).Some? <==> Builds(wanted[key])
    ensures if Builds(wanted[key]) then
              && UpdatedWith(tracked, left[key := wanted[key]], wanted, done + {key})
              && (var put := PutProxy(key, BuildProxyWrapper(wanted[key]).value, now);
                  Apply(c, put) == UpdateProxy(c, key, put.proxy, now) &&
                      PushedWith(start, Apply(c, put), wanted, done + {key}))
            else UpdatedWith(tracked, left, wanted, done + {key}) && PushedWith(start, c, wanted, done + {key})
  {
  }

  ghost predicate UpdatedWith(before: Proxies, after: Proxies, wanted: Proxies, keys: set<string>)
    requires keys <= wanted.Keys
  {
    forall k ::
      if k in keys && Builds(wanted[k]) then k in after && after[k] == wanted[k]
          else Lookup(after, k) == Lookup(before, k)
  }

  ghost predicate PushedWith(before: Cache, after: Cache, wanted: Proxies, keys: set<string>)
    requires keys <= wanted.Keys
  {
    && after.staleProxies == before.staleProxies
    && forall k ::
         if k in keys && Builds(wanted[k]) then k in after.proxies && SameProxy(after.proxies[k], wanted[k])
         else Lookup(after.proxies, k) == Lookup(before.proxies, k)
  }

  /** The cache was reached by proxy operations alone. */
  ghost predicate ReachedBy(start: Cache, c: Cache, ops: seq<Op>, wanted: Proxies) {
    c == ServiceCache.Run(start, ops) && ProxyOps(ops, wanted)
  }

  lemma NoOps(c: Cache, wanted: Proxies)
    ensures ReachedBy(c, c, [], wanted)
  {
  }

  lemma RunOne(start: Cache, c: Cache, ops: seq<Op>, op: Op, wanted: Proxies)
    requires ReachedBy(start, c, ops, wanted) && (op.DropProxy? || (op.PutProxy? && op.name in wanted))
    ensures ReachedBy(start, Apply(c, op), ops + [op], wanted)
  {
    assert (ops + [op])[..|ops|] == ops;
  }

  lemma {:induction false} RunAppend(start: Cache, mid: Cache, end: Cache, ops: seq<Op>, more: seq<Op>, wanted: Proxies)
    requires ReachedBy(start, mid, ops, wanted) && ReachedBy(mid, end, more, wanted)
    ensures ReachedBy(start, end, ops + more, wanted)
    decreases |more|
  {
    if more == [] {
      assert ops + more == ops;
    } else {
      var n := |more| - 1;
      RunAppend(start, mid, ServiceCache.Run(mid, more[..n]), ops, more[..n], wanted);
      assert (ops + more)[..|ops + more| - 1] == ops + more[..n];
    }
  }

  /** Dropping and pushing, then purging, restores agreement. */
  lemma AgreeAfter(
    before: Cache, after: Cache, tracked: Proxies, left: Proxies, wanted: Proxies, updated: set<string>,
        deleted: set<string>)
    requires ProxiesAgree(tracked, before) && deleted == tracked.Keys - wanted.Keys
    requires updated == set k | k in wanted && !(k in tracked && tracked[k] == wanted[k])
    requires UpdatedWith(tracked - deleted, left, wanted, updated)
    requires PushedWith(before.(staleProxies := deleted), after, wanted, updated)
    ensures left == NextProxies(tracked, wanted) && ProxiesAgree(left, Purge(after))
  {
    hide Builds;
    forall k
      ensures Lookup(left, k) == Lookup(NextProxies(tracked, wanted), k)
    {
    }
    SameMaps(left, NextProxies(tracked, wanted));
    var end := Purge(after).proxies;
    forall k
      ensures k in end <==> k in left
      ensures k in left ==> SameProxy(end[k], left[k])
    {
      assert Lookup(tracked - deleted, k) == if k in deleted then None else Lookup(tracked, k);
    }
  }

  /** The update handler is called exactly when the tracked settings change. */
  lemma NotifyExact(tracked: Proxies, wanted: Proxies, updated: set<string>)
    requires updated == set k | k in wanted && !(k in tracked && tracked[k] == wanted[k])
    ensures NextProxies(tracked, wanted) != tracked <==>
              tracked.Keys - wanted.Keys != {} || exists k :: k in updated && Builds(wanted[k])
  {
    hide Builds;
    var next := NextProxies(tracked, wanted);
    if tracked.Keys - wanted.Keys == {} && forall k :: k in updated ==> !Builds(wanted[k]) {
      forall k
        ensures Lookup(next, k) == Lookup(tracked, k)
      {
        if k in tracked {
          assert k !in tracked.Keys - wanted.Keys;
        }
        if k in wanted && !(k in tracked && tracked[k] == wanted[k]) {
          assert k in updated;
        }
      }
      SameMaps(next, tracked);
    } else if k :| k in tracked.Keys - wanted.Keys {
      assert k in tracked && k !in next;
    } else {
      var k :| k in updated && Builds(wanted[k]);
      assert k in next && next[k] == wanted[k];
    }
  }
}
