/** registry/memory/cache.go: the shared store with deferred deletion. */
module ServiceCache {
  import opened Wrappers

  datatype Workload = Workload(address: string, ports: map<string, nat>, labels: map<string, string>)

  datatype ServicePort = ServicePort(number: nat, name: string, protocol: string)

  datatype Resolution = Static | Dns

  datatype ServiceEntry = ServiceEntry(hosts: seq<string>, ports: seq<ServicePort>, resolution: Resolution,
      endpoints: seq<Workload>)

  /** A destination rule that originates simple TLS to one port. */
  datatype TlsRule = TlsRule(host: string, port: nat, sni: string)

  datatype UpstreamProxy = UpstreamProxy(proxyName: string, protocol: string, sni: string)

  datatype ServiceWrapper = ServiceWrapper(
    serviceName: string,
    suffix: string,
    registryType: string,
    registryName: string,
    entry: ServiceEntry,
    rule: Option<TlsRule>,
    proxy: Option<UpstreamProxy>,
    createTime: nat)

  datatype ProxyWrapper = ProxyWrapper(name: string, listenerPort: nat, createTime: nat)

  /** Services and proxies with their tombstones, and the incremental push lists. */
  datatype Cache = Cache(
    services: map<string, ServiceWrapper>,
    stale: set<string>,
    proxies: map<string, ProxyWrapper>,
    staleProxies: set<string>,
    updated: seq<ServiceWrapper>,
    deleted: seq<ServiceWrapper>)

  const EMPTY := Cache(map[], {}, map[], {}, [], [])

  // ---- The operations on values -------------------------------------------------

  /** An update keeps the creation time of what it replaces and cancels a pending delete. */
  function UpdateService(c: Cache, service: string, data: ServiceWrapper, now: nat): Cache {
    var stored := data.(createTime := if service in c.services then c.services[service].createTime else now);
    c.(services := c.services[service := stored], stale := c.stale - {service}, updated := c.updated + [stored])
  }

  function DeleteService(c: Cache, service: string): Cache {
    if service in c.services then c.(stale := c.stale + {service}, deleted := c.deleted + [c.services[service]]) else c
  }

  /** As written in the source: a proxy update clears the SERVICE tombstone of that name. */
  function UpdateProxy(c: Cache, name: string, data: ProxyWrapper, now: nat): Cache {
    var stored := data.(createTime := if name in c.proxies then c.proxies[name].createTime else now);
    c.(proxies := c.proxies[name := stored], stale := c.stale - {name})
  }

  function DeleteProxy(c: Cache, name: string): Cache {
    if name in c.proxies then c.(staleProxies := c.staleProxies + {name}) else c
  }

  function Purge(c: Cache): Cache {
    c.(services := c.services - c.stale, stale := {}, proxies := c.proxies - c.staleProxies, staleProxies := {})
  }

  /** The services that a purge would keep. */
  function Live(c: Cache): set<string> {
    c.services.Keys - c.stale
  }

  /** Tombstones stand only on present items. */
  ghost predicate TombstonesPresent(c: Cache) {
    c.stale <= c.services.Keys && c.staleProxies <= c.proxies.Keys
  }

  lemma MinusOne<V>(m: map<string, V>, gone: set<string>, x: string)
    ensures m - gone - {x} == m - (gone + {x})
  {
    assert (m - gone - {x}).Keys == (m - (gone + {x})).Keys;
  }

  ghost predicate PurgedSoFar<V>(start: map<string, V>, m: map<string, V>, all: set<string>, left: set<string>) {
    left <= all && m == start - (all - left)
  }

  lemma PurgedNone<V>(start: map<string, V>, all: set<string>)
    ensures PurgedSoFar(start, start, all, all)
  {
    assert all - all == {} && start - {} == start;
  }

  lemma PurgedOne<V>(start: map<string, V>, m: map<string, V>, all: set<string>, left: set<string>, x: string)
    requires PurgedSoFar(start, m, all, left) && x in left
    ensures PurgedSoFar(start, m - {x}, all, left - {x}) && left - {x} != all
  {
    assert all - (left - {x}) == (all - left) + {x};
    MinusOne(start, all - left, x);
    assert x !in left - {x};
  }

  lemma PurgedAll<V>(start: map<string, V>, m: map<string, V>, all: set<string>)
    requires PurgedSoFar(start, m, all, {})
    ensures m == start - all
  {
    assert all - {} == all;
  }

  // ---- The store ----------------------------------------------------------------

  class Store {
    var services: map<string, ServiceWrapper>
    var stale: set<string>
    var proxies: map<string, ProxyWrapper>
    var staleProxies: set<string>
    var updated: seq<ServiceWrapper>
    var deleted: seq<ServiceWrapper>

    function Value(): Cache
      reads this
    {
      Cache(services, stale, proxies, staleProxies, updated, deleted)
    }

    constructor ()
      ensures Value() == EMPTY
    {
      services, stale, proxies, staleProxies, updated, deleted := map[], {}, map[], {}, [], [];
    }

    method UpdateServiceWrapper(service: string, data: ServiceWrapper, now: nat)
      modifies this
      ensures Value() == UpdateService(old(Value()), service, data, now)
    {
      var stored := data;
      if service in services {
        stored := data.(createTime := services[service].createTime);
      } else {
        stored := data.(createTime := now);
      }
      updated := updated + [stored];
      services := services[service := stored];
      if service in stale {
        stale := stale - {service};
      }
    }

    method DeleteServiceWrapper(service: string)
      modifies this
      ensures Value() == DeleteService(old(Value()), service)
    {
      if service in services {
        deleted := deleted + [services[service]];
        stale := stale + {service};
      }
    }

    method UpdateProxyWrapper(name: string, data: ProxyWrapper, now: nat)
      modifies this
      ensures Value() == UpdateProxy(old(Value()), name, data, now)
    {
      var stored := data.(createTime := if name in proxies then proxies[name].createTime else now);
      proxies := proxies[name := stored];
      if name in stale {
        stale := stale - {name};
      }
    }

    method DeleteProxyWrapper(name: string)
      modifies this
      ensures Value() == DeleteProxy(old(Value()), name)
    {
      if name in proxies {
        staleProxies := staleProxies + {name};
      }
    }

    /** Removes item by item; reports whether anything was tombstoned. */
    method PurgeStaleItems() returns (purged: bool)
      modifies this
      ensures Value() == Purge(old(Value()))
      ensures purged <==> old(stale) != {} || old(staleProxies) != {}
    {
      var some := PurgeServices();
      var more := PurgeProxies();
      purged := some || more;
    }

    method PurgeServices() returns (purged: bool)
      modifies this`services, this`stale
      ensures services == old(services) - old(stale) && stale == {}
      ensures purged <==> old(stale) != {}
    {
      hide PurgedSoFar;
      purged := false;
      ghost var all, start := stale, services;
      PurgedNone(start, all);
      while stale != {}
        invariant PurgedSoFar(start, services, all, stale)
        invariant purged <==> stale != all
        decreases |stale|
      {
        var service :| service in stale;
        PurgedOne(start, services, all, stale, service);
        services := services - {service};
        stale := stale - {service};
        purged := true;
      }
      PurgedAll(start, services, all);
    }

    method PurgeProxies() returns (purged: bool)
      modifies this`proxies, this`staleProxies
      ensures proxies == old(proxies) - old(staleProxies) && staleProxies == {}
      ensures purged <==> old(staleProxies) != {}
    {
      hide PurgedSoFar;
      purged := false;
      ghost var all, start := staleProxies, proxies;
      PurgedNone(start, all);
      while staleProxies != {}
        invariant PurgedSoFar(start, proxies, all, staleProxies)
        invariant purged <==> staleProxies != all
        decreases |staleProxies|
      {
        var proxy :| proxy in staleProxies;
        PurgedOne(start, proxies, all, staleProxies, proxy);
        proxies := proxies - {proxy};
        staleProxies := staleProxies - {proxy};
        purged := true;
      }
      PurgedAll(start, proxies, all);
    }
  }

  // ---- Runs of cache operations -------------------------------------------------

  datatype Op =
    | PutService(service: string, data: ServiceWrapper, now: nat)
    | DropService(service: string)
    | PutProxy(name: string, proxy: ProxyWrapper, now: nat)
    | DropProxy(name: string)
    | PurgeAll

  function Apply(c: Cache, op: Op): Cache {
    match op
    case PutService(service, data, now) => UpdateService(c, service, data, now)
    case DropService(service) => DeleteService(c, service)
    case PutProxy(name, proxy, now) => UpdateProxy(c, name, proxy, now)
    case DropProxy(name) => DeleteProxy(c, name)
    case PurgeAll => Purge(c)
  }

  function Run(c: Cache, ops: seq<Op>): Cache {
    if ops == [] then c else Apply(Run(c, ops[..|ops| - 1]), ops[|ops| - 1])
  }

  lemma {:induction false} TombstonesStayPresent(c: Cache, ops: seq<Op>)
    requires TombstonesPresent(c)
    ensures TombstonesPresent(Run(c, ops))
  {
    if ops != [] {
      TombstonesStayPresent(c, ops[..|ops| - 1]);
    }
  }

  /** Up to the next purge nothing leaves the store, and the creation time of a service that
      stays is never touched. */
  lemma {:induction false} NothingLeavesBeforePurge(c: Cache, ops: seq<Op>, service: string)
    requires service in c.services && PurgeAll !in ops
    ensures service in Run(c, ops).services
    ensures Run(c, ops).services[service].createTime == c.services[service].createTime
  {
    if ops != [] {
      assert ops[|ops| - 1] in ops;
      NothingLeavesBeforePurge(c, ops[..|ops| - 1], service);
    }
  }

  /** A delete that is followed by an update of the same service before the purge deletes
      nothing: the purge keeps the service with its updated data. */
  lemma UpdateCancelsDelete(c: Cache, service: string, between: seq<Op>, data: ServiceWrapper, now: nat, after: seq<Op>)
    requires service in c.services
    requires PurgeAll !in between && PurgeAll !in after
    requires forall i :: 0 <= i < |after| ==> !(after[i].DropService? && after[i].service == service)
    ensures var c' := Run(UpdateService(Run(DeleteService(c, service), between), service, data, now), after);
            service in Purge(c').services && service in Live(c')
  {
    var c1 := UpdateService(Run(DeleteService(c, service), between), service, data, now);
    StaysLive(c1, after, service);
  }

  lemma {:induction false} StaysLive(c: Cache, ops: seq<Op>, service: string)
    requires service in Live(c) && PurgeAll !in ops
    requires forall i :: 0 <= i < |ops| ==> !(ops[i].DropService? && ops[i].service == service)
    ensures service in Live(Run(c, ops))
  {
    if ops != [] {
      var n := |ops| - 1;
      assert ops[n] in ops;
      StaysLive(c, ops[..n], service);
    }
  }

  /** The proxy side has no such guarantee: deleting and then updating a proxy still purges it,
      while a proxy update revives a deleted service of the same name. */
  lemma ProxyUpdateCancelsTheWrongDelete(c: Cache, name: string, data: ProxyWrapper, now: nat)
    requires name in c.proxies && name in c.services
    ensures name !in Purge(UpdateProxy(DeleteProxy(c, name), name, data, now)).proxies
    ensures name in Purge(UpdateProxy(DeleteService(c, name), name, data, now)).services
  {
  }
}
