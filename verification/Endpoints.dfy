/** GetServiceByEndpoints: nested accumulation, sorting and in-place removal of duplicates. */
module Endpoints {
  import opened Wrappers
  import opened Text
  import opened ServiceCache

  datatype Query = Query(versions: set<string>, endpoints: set<string>, versionKey: string, protocol: string)

  function Key(w: ServiceWrapper): string {
    w.serviceName + "#@" + w.suffix
  }

  /** The requested version a workload carries on a requested endpoint. */
  function VersionOf(q: Query, w: Workload): Option<string> {
    if q.protocol !in w.ports then None
    else if w.address + ":" + Decimal(w.ports[q.protocol]) !in q.endpoints then None
    else if q.versionKey !in w.labels || w.labels[q.versionKey] !in q.versions then None
    else Some(w.labels[q.versionKey])
  }

  /** One of the first `n` workloads of the service carries this version. */
  ghost predicate Carries(q: Query, w: ServiceWrapper, n: nat, version: string)
    requires n <= |w.entry.endpoints|
  {
    exists i :: 0 <= i < n && VersionOf(q, w.entry.endpoints[i]) == Some(version)
  }

  ghost predicate HostHit(services: map<string, ServiceWrapper>, q: Query, host: string, key: string, version: string) {
    host in services && Key(services[host]) == key &&
        Carries(q, services[host], |services[host].entry.endpoints|, version)
  }

  ghost predicate HitIn(services: map<string, ServiceWrapper>, hosts: set<string>, q: Query, key: string,
      version: string) {
    exists host :: host in hosts && HostHit(services, q, host, key, version)
  }

  /** Some service with this key has a matching workload of this version. */
  ghost predicate Hit(services: map<string, ServiceWrapper>, q: Query, key: string, version: string) {
    HitIn(services, services.Keys, q, key, version)
  }

  type Answer = map<string, seq<string>>

  ghost predicate Listed(r: Answer, key: string, version: string) {
    key in r && version in r[key]
  }

  /** Lists hold exactly the hits of the services walked so far. */
  ghost predicate Accumulates(services: map<string, ServiceWrapper>, done: set<string>, q: Query, r: Answer) {
    && (forall key :: key in r ==> r[key] != [])
    && (forall key, version :: Listed(r, key, version) <==> HitIn(services, done, q, key, version))
  }

  function Push(r: Answer, key: string, version: string): Answer {
    r[key := (if key in r then r[key] else []) + [version]]
  }

  /** The answer for every cache, whatever order the map is walked in: the keys with a hit, each
      with the strictly ascending list of exactly the versions hit. */
  method GetServiceByEndpoints(services: map<string, ServiceWrapper>, q: Query) returns (r: Answer)
    ensures forall key :: key in r <==> exists version :: Hit(services, q, key, version)
    ensures forall key :: key in r ==> StrictlySorted(r[key]) && r[key] != []
    ensures forall key, version :: key in r ==> (version in r[key] <==> Hit(services, q, key, version))
  {
    hide HostHit;
    r := map[];
    var rest := services.Keys;
    while rest != {}
      invariant rest <= services.Keys
      invariant Accumulates(services, services.Keys - rest, q, r)
      decreases |rest|
    {
      var host :| host in rest;
      r := CollectService(services, services.Keys - rest, host, q, r);
      assert services.Keys - (rest - {host}) == (services.Keys - rest) + {host};
      rest := rest - {host};
    }
    assert services.Keys - rest == services.Keys;
    AccumulatedHits(services, q, r);
    ghost var lists := r;
    r := DedupAll(r);
    assert forall key, version :: Listed(r, key, version) <==> Listed(lists, key, version);
  }

  lemma AccumulatedHits(services: map<string, ServiceWrapper>, q: Query, r: Answer)
    requires Accumulates(services, services.Keys, q, r)
    ensures forall key, version :: Listed(r, key, version) <==> Hit(services, q, key, version)
    ensures forall key :: key in r <==> exists version :: Hit(services, q, key, version)
  {
    hide HitIn;
    forall key | key in r
      ensures exists version :: Hit(services, q, key, version)
    {
      assert Listed(r, key, r[key][0]);
      assert Hit(services, q, key, r[key][0]);
    }
    forall key, version | Hit(services, q, key, version)
      ensures key in r
    {
      assert Listed(r, key, version);
    }
  }

  method CollectService(services: map<string, ServiceWrapper>, ghost done: set<string>, host: string, q: Query,
      r0: Answer) returns (r: Answer)
    requires host in services && Accumulates(services, done, q, r0)
    ensures Accumulates(services, done + {host}, q, r)
  {
    hide VersionOf, Key, Listed;
    r := r0;
    var w := services[host];
    var key := Key(w);
    for i := 0 to |w.entry.endpoints|
      invariant forall k :: k in r ==> r[k] != []
      invariant forall k, version :: Listed(r, k, version) <==>
                Listed(r0, k, version) || (k == key && Carries(q, w, i, version))
    {
      var v := VersionOf(q, w.entry.endpoints[i]);
      CarriesNext(q, w, i);
      if v.Some? {
        PushLists(r, key, v.value);
        r := Push(r, key, v.value);
      }
    }
    forall k, version
      ensures HitIn(services, done + {host}, q, k, version) <==>
                HitIn(services, done, q, k, version) || HostHit(services, q, host, k, version)
    {
    }
  }

  lemma PushLists(r: Answer, key: string, version: string)
    ensures forall k, v :: Listed(Push(r, key, version), k, v) <==> Listed(r, k, v) || (k == key && v == version)
  {
  }

  lemma CarriesNext(q: Query, w: ServiceWrapper, i: nat)
    requires i < |w.entry.endpoints|
    ensures forall version :: Carries(q, w, i + 1, version) <==>
              Carries(q, w, i, version) || VersionOf(q, w.entry.endpoints[i]) == Some(version)
  {
    hide VersionOf;
  }

  /** Sorts and dedups every list; the keys and the members stay the same. */
  method DedupAll(r0: Answer) returns (r: Answer)
    requires forall key :: key in r0 ==> r0[key] != []
    ensures r.Keys == r0.Keys
    ensures forall key :: key in r ==> StrictlySorted(r[key]) && r[key] != []
    ensures forall key, version :: key in r ==> (version in r[key] <==> version in r0[key])
  {
    r := r0;
    var rest := r0.Keys;
    while rest != {}
      invariant rest <= r0.Keys && r.Keys == r0.Keys
      invariant forall key :: key in rest ==> r[key] == r0[key]
      invariant forall key :: key in r0.Keys - rest ==> StrictlySorted(r[key]) && r[key] != []
      invariant forall key, version :: key in r ==> (version in r[key] <==> version in r0[key])
      decreases |rest|
    {
      var key :| key in rest;
      var versions := DedupSorted(r[key]);
      r := r[key := versions];
      rest := rest - {key};
    }
  }

  method DedupSorted(versions: seq<string>) returns (r: seq<string>)
    requires versions != []
    ensures StrictlySorted(r) && r != []
    ensures forall v :: v in r <==> v in versions
  {
    var sorted := SortStrings(versions);
    assert |multiset(sorted)| == |sorted| && |multiset(versions)| == |versions|;
    assert forall v :: v in sorted <==> v in multiset(sorted);
    assert forall v :: v in versions <==> v in multiset(versions);
    var a := new string[|sorted|](i requires 0 <= i < |sorted| => sorted[i]);
    assert a[..] == sorted;
    var n := Dedup(a);
    r := a[..n];
  }

  /** The two-index loop: `a[..i + 1]` is the result so far, `a[j..]` is still untouched. */
  method Dedup(a: array<string>) returns (n: nat)
    requires a.Length > 0 && Sorted(a[..])
    modifies a
    ensures 1 <= n <= a.Length && StrictlySorted(a[..n])
    ensures forall v :: v in a[..n] <==> v in old(a[..])
  {
    var i := 0;
    ghost var s := a[..];
    for j := 1 to a.Length
      invariant 0 <= i < j
      invariant a[j..] == s[j..]
      invariant StrictlySorted(a[..i + 1])
      invariant forall v :: v in a[..i + 1] <==> v in s[..j]
      invariant a[i] == s[j - 1]
    {
      assert a[j] == s[j] && s[..j + 1] == s[..j] + [s[j]];
      if a[j] != a[i] {
        StrLtTotal(a[i], a[j]);
        ghost var before := a[..i + 1];
        Extends(before, a[j]);
        i := i + 1;
        a[i] := a[j];
        assert a[..i + 1] == before + [s[j]];
      }
    }
    assert s[..a.Length] == s;
    n := i + 1;
  }

  lemma Extends(xs: seq<string>, x: string)
    requires StrictlySorted(xs) && xs != [] && StrLt(xs[|xs| - 1], x)
    ensures StrictlySorted(xs + [x])
  {
    forall i | 0 <= i < |xs|
      ensures StrLt(xs[i], x)
    {
      if i < |xs| - 1 { StrLtTrans(xs[i], xs[|xs| - 1], x); }
    }
  }

  /** The contract determines the answer: two answers to one query are equal. */
  lemma AnswerUnique(services: map<string, ServiceWrapper>, q: Query, r: Answer, r': Answer)
    requires forall key :: key in r <==> exists version :: Hit(services, q, key, version)
    requires forall key :: key in r' <==> exists version :: Hit(services, q, key, version)
    requires forall key :: key in r ==> StrictlySorted(r[key]) && r[key] != []
    requires forall key :: key in r' ==> StrictlySorted(r'[key]) && r'[key] != []
    requires forall key, version :: key in r ==> (version in r[key] <==> Hit(services, q, key, version))
    requires forall key, version :: key in r' ==> (version in r'[key] <==> Hit(services, q, key, version))
    ensures r == r'
  {
    hide Hit;
    assert r.Keys == r'.Keys;
    forall key | key in r
      ensures r[key] == r'[key]
    {
      StrictlySortedUnique(r[key], r'[key]);
    }
  }
}
